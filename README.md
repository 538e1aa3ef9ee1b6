# cfn-flow: a verified model of stack-parameter expansion and CLI option handling

cfn-flow deploys AWS CloudFormation stacks from a `cfn-flow.yml` description.
This project models three parts of it in Dafny and proves properties of the model.

- **StackParams** (`stack_params.dfy`, `cached_stack.dfy`). A StackParams value is the
  `stack` section of the config: parameters, tags and a template path. The expansions
  turn it into the shape the CloudFormation API takes:
  - `symbolized_keys` turns every key into a symbol;
  - `expand_parameters` turns the parameter hash into `{parameter_key, parameter_value}` items;
  - `expand_tags` turns the tag hash into `{key, value}` items;
  - `add_tag` appends tags;
  - `expand_template_body` replaces the template path with the template's serialization.

  A parameter value is either a literal or a reference `{stack, output}`. The reference
  is resolved through `cached_stack.get_output(stack:, output:)`. When the output key is
  missing, the parameter's own name is used. The cache is the class `CachedStack`. The
  first successful describe of a stack fills its memo entry, and every later request for
  that stack is answered from the memo. A stack that does not exist is never memoised, so
  each request for it describes it again and fails. The ghost log `fetched` records only
  the describes that fill the memo, so each existing stack appears in it at most once.
  Its expansion loop is proved to produce the same
  result as the pure `ExpandEntries`.
- **CfnFlow** (`cfn_flow.dfy`). This covers:
  - the accessors over the loaded config: `config_path`, `service`,
    `template_s3_bucket` and `template_s3_prefix`, each with its error;
  - the `stack_params(environment)` façade, which expands the stack and then appends the
    managed tags `CfnFlowService` and `CfnFlowEnvironment`;
  - the module-level flags `config_loaded?` and `exit_on_failure?`, as the class `Flags`.
- **CLI** (`cli.dfy`). `load_config` merges defaults, then the config file, then the
  environment (nil entries dropped), then the command line. It then exports the merged
  region to `AWS_REGION`. `prefix` builds the S3 upload prefix from `prefix`, `release`
  and `dev-name`.

Ruby hashes keep insertion order. They are modelled as sequences of pairs (`ordered_hash.dfy`):
- `Put` is `h[k] = v`: it replaces the value in place or appends;
- `Merge` is `Hash#merge`;
- `Lookup` is `h[k]`, with `None` for nil.

Errors raised as `Thor::Error` are `Err` values of `Errors.Error`. The remote world is a
parameter of the model:
- `describe_stacks` is a map from each existing stack to its outputs;
- `Template.new(path).to_json` is a function `templater` from path to text;
- the process environment is a map from variable name to value;
- a parsed config file is an options hash, or `None` when the file does not exist.

The StackParams and CfnFlow implementation files are not part of this model. Their
behaviour is taken from their tests, `spec/cfn_flow/stack_params_spec.rb` and
`spec/cfn_flow_spec.rb`; the rows below cite those tests. The CLI is modelled from
`lib/cfn-flow/cli.rb` itself. The CLI reads its config file from `CFN_FLOW_CONFIG`
(`lib/cfn-flow/cli.rb:16`), while `CfnFlow.config_path` reads `CFN_FLOW_CONFIG_PATH`
(`spec/cfn_flow_spec.rb:6-16`). Both are modelled as they are written: `Cli.CliConfigPath`
and `CfnFlow.ConfigPath`. Reading the file is I/O, so `Cli.CliConfigPath` only names the
path; `Cli.LoadConfig` takes the parsed file found there as an input.

## Model

| member | source | states |
|---|---|---|
| StackParams.SymbolizedAllSymbols | spec/cfn_flow/stack_params_spec.rb:14-18 | every key of the symbolized hash is a symbol |
| StackParams.SymbolizedUnique | spec/cfn_flow/stack_params_spec.rb:14-18 | the symbolized result is again a hash: no key occurs twice |
| StackParams.SymbolizedDistinctNames | spec/cfn_flow/stack_params_spec.rb:14-18 | when no two keys share a name, the result has the same length and entry i is the symbol of key i's name with key i's value unchanged |
| StackParams.SymbolizedLookup | spec/cfn_flow/stack_params_spec.rb:14-18 | looking up a symbol gives the value of the last key with that name (a string key and a symbol key of the same name collapse into one); no string key is left |
| StackParams.DecodeParam | spec/cfn_flow/stack_params_spec.rb:36-64 | a scalar is a literal; a reference fails with MissingStackName exactly when it names no stack, and otherwise decodes to the written stack and the written output (absent when not written) |
| StackParams.EitherField | spec/cfn_flow_spec.rb:59-83 | a reference field is found under either spelling (`stack`/`Stack`): the lowercase value when that spelling is present, the capitalised value otherwise |
| StackParams.LookupOutput | spec/cfn_flow_spec.rb:59-83 | an output lookup succeeds exactly when the stack exists and has that output, and then returns its value; otherwise it fails with StackLookupFailed or OutputNotFound |
| StackParams.ResolveParam | spec/cfn_flow/stack_params_spec.rb:21-64 | an entry keeps its name as parameter_key; a literal is its own value; a reference takes the value the lookup of its request returns, or the lookup's error |
| StackParams.ExpandEntriesSuccess | spec/cfn_flow/stack_params_spec.rb:21-34 | a successful expansion has one parameter per entry, in input order, each that entry's own resolution |
| StackParams.ExpandEntriesOkIff | spec/cfn_flow/stack_params_spec.rb:21-64 | the expansion succeeds if and only if every entry resolves |
| StackParams.ExpandEntriesFailure | spec/cfn_flow/stack_params_spec.rb:36-64 | a failed expansion raises the error of the first entry that fails, and every entry before it resolves |
| StackParams.ExpandEntriesStep | spec/cfn_flow/stack_params_spec.rb:21-64 | one more entry appends its resolution or turns the result into its error, and adds only its own request |
| StackParams.ExpandEntriesPrefixErr | spec/cfn_flow/stack_params_spec.rb:36-64 | once a prefix of the entries fails, the whole expansion fails with that error |
| StackParams.LiteralEntries | spec/cfn_flow/stack_params_spec.rb:21-34 | a literal-only hash becomes `{k_i, v_i}` item by item, in order, and makes no `get_output` request |
| StackParams.SingleEntry | spec/cfn_flow/stack_params_spec.rb:36-64 | a one-entry hash expands to that entry's resolution |
| StackParams.ExplicitOutputReference | spec/cfn_flow/stack_params_spec.rb:36-49 | `{stack: s, output: o}` makes exactly one request, `(s, o)`, and its value is that output's value |
| StackParams.ImplicitOutputReference | spec/cfn_flow/stack_params_spec.rb:51-64 | `{stack: s}` under name n makes exactly one request, `(s, n)`, and its value is output n of s |
| StackParams.ExpandParameters | spec/cfn_flow/stack_params_spec.rb:20-65 | a raw parameter hash becomes the list of its expansion (or its error); a list or an absent section is kept; tags and template body are untouched |
| StackParams.TagEntriesAt | spec/cfn_flow/stack_params_spec.rb:67-73 | each tag entry k => v becomes `{key: k, value: v}`, one per entry, in order |
| StackParams.TagRoundTrip | spec/cfn_flow/stack_params_spec.rb:67-73 | the pairs of an expanded tag hash are the original pairs |
| StackParams.TagListRoundTrip | spec/cfn_flow/stack_params_spec.rb:67-73 | every tag list is the expansion of its own pairs |
| StackParams.ExpandTags | spec/cfn_flow/stack_params_spec.rb:67-73 | a raw tag hash becomes its tag list; a list or an absent section is kept; parameters and template body are untouched |
| StackParams.AddTag | spec/cfn_flow/stack_params_spec.rb:75-86 | after add_tag the tags are a list, and parameters and template body are unchanged |
| StackParams.AddTagAppends | spec/cfn_flow/stack_params_spec.rb:80-86 | the old tags are a prefix, kept in order, and each new entry follows as one tag, with no de-duplication |
| StackParams.AddTagToNoTags | spec/cfn_flow/stack_params_spec.rb:76-78 | on a hash without tags, `add_tag(k => v)` gives exactly `[{key: k, value: v}]` |
| StackParams.ExpandTemplateBody | spec/cfn_flow/stack_params_spec.rb:89-108 | a template path is replaced by the templater's serialization of that path; without one nothing changes; the other entries are untouched |
| StackParams.Expanded | spec/cfn_flow_spec.rb:53-114 | the full expansion succeeds exactly when the parameters expand, with the parameters, tags and template body each expanded |
| StackParams.ParamsHash.constructor | spec/cfn_flow/stack_params_spec.rb:81 | `StackParams[hash]` builds an object holding exactly the given parameters, tags and template body |
| StackParams.ParamsHash.AddTagInPlace | spec/cfn_flow/stack_params_spec.rb:80-86 | updating the receiver's tags in place leaves it equal to AddTag of its old value, and returns it |
| CachedStacks.CachedStack.constructor | spec/cfn_flow/stack_params_spec.rb:37-38 | a fresh cache, one per expansion, sees the given stacks and starts with an empty memo, no describes and no requests |
| CachedStacks.CachedStack.GetOutput | spec/cfn_flow/stack_params_spec.rb:36-64 | get_output returns the lookup against the existing stacks, records the request, and fills the memo (and the `fetched` log) only for a stack that exists and is not yet memoised; a lookup of a missing stack fails, is not memoised, and is not logged in `fetched` |
| CachedStacks.ResolveCached | spec/cfn_flow/stack_params_spec.rb:36-64 | resolving through the cache gives ResolveParam's result, sends exactly the entry's request, fills the memo for at most the stack that request names, keeps every earlier memo entry, and afterwards holds that stack in the memo whenever it exists, including when the output is missing |
| CachedStacks.ExpandEntriesCached | spec/cfn_flow/stack_params_spec.rb:36-64 | the loop gives ExpandEntries' result; the memo and the `fetched` log only grow; on success the cache received exactly the expansion's requests, in order, every stack they name is memoised, and every newly logged fill is of a stack they name, each at most once |
| CachedStacks.ExpandParametersCached | spec/cfn_flow/stack_params_spec.rb:20-65 | expand_parameters through the cache equals ExpandParameters; when there is nothing to expand it leaves the requests, the memo and the `fetched` log exactly as they were; otherwise the memo only grows, and on success it holds every stack the parameters reference |
| CfnFlow.ConfigPath | spec/cfn_flow_spec.rb:6-16 | config_path is the environment's `CFN_FLOW_CONFIG_PATH` when it is set, `cfn-flow.yml` otherwise |
| CfnFlow.Service | spec/cfn_flow_spec.rb:33-44 | service returns the configured name exactly when there is one, and fails with NoServiceName otherwise |
| CfnFlow.TemplateS3Bucket | spec/cfn_flow_spec.rb:118-133 | template_s3_bucket returns the bucket when both `templates` and its bucket are present, and fails with NoS3BucketDefined otherwise |
| CfnFlow.TemplateS3Prefix | spec/cfn_flow_spec.rb:135-151 | template_s3_prefix fails with NoTemplatesDefined only when `templates` is missing, and is nil when the prefix is absent |
| CfnFlow.StackParamsFor | spec/cfn_flow_spec.rb:46-57 | stack_params fails with NoStackDefined without a stack; on success its parameters and template body are the expansions of the stack's |
| CfnFlow.StackParamsOutcome | spec/cfn_flow_spec.rb:46-57 | stack_params succeeds if and only if there is a stack, its parameters resolve and there is a service name; the errors come in that order |
| CfnFlow.StackParamsTags | spec/cfn_flow_spec.rb:87-97 | the final tags are the user's tags in order, then CfnFlowService = service, then CfnFlowEnvironment = environment |
| CfnFlow.StackParamsWithoutTags | spec/cfn_flow_spec.rb:99-107 | a stack without tags gets exactly the two managed tags, service first |
| CfnFlow.StackParamsOutputReference | spec/cfn_flow_spec.rb:59-83 | `{'Stack' => s, 'Output' => o}` resolves to output o of s, and `{'Stack' => s}` to the output named after the parameter |
| CfnFlow.Flags.constructor | spec/cfn_flow_spec.rb:18-21 | at start the config is not loaded and exit_on_failure? is true |
| CfnFlow.Flags.ConfigLoaded | spec/cfn_flow_spec.rb:18-27 | config_loaded? is true exactly when a config has been loaded |
| CfnFlow.Flags.LoadConfig | spec/cfn_flow_spec.rb:23-26 | after load_config, config_loaded? is true and the config is the loaded file |
| CfnFlow.Flags.GetConfig | spec/cfn_flow_spec.rb:18-31 | config loads the file the first time only, and afterwards keeps returning what was loaded |
| CfnFlow.Flags.ExitOnFailure | spec/cfn_flow_spec.rb:196-206 | exit_on_failure? is true while unset, and the set value otherwise |
| CfnFlow.Flags.SetExitOnFailure | spec/cfn_flow_spec.rb:202-205 | after `exit_on_failure = v`, exit_on_failure? is v |
| CfnFlow.Flags.ResetExitOnFailure | spec/cfn_flow_spec.rb:197-200 | removing the instance variable restores the default true |
| OrderedHash.PutLookup | lib/cfn-flow/cli.rb:29 | after `h[k] = v`, k finds v and every other key finds what it found before |
| OrderedHash.MergeLookup | lib/cfn-flow/cli.rb:29 | in `a.merge(b)` a key finds b's value when b has it, otherwise a's |
| OrderedHash.MergeKeysPrefix | lib/cfn-flow/cli.rb:29 | merge keeps a's keys first, in their order |
| Cli.CliConfigPath | lib/cfn-flow/cli.rb:16 | the CLI reads its config file from `CFN_FLOW_CONFIG` when it is set, and from `./cfn-flow.yml` otherwise |
| Cli.FileConfig | lib/cfn-flow/cli.rb:15-19 | a missing config file reads as an empty hash |
| Cli.DeleteIfNilLookup | lib/cfn-flow/cli.rb:20-26 | after delete_if nil, a key finds its non-nil value, and a key whose value was nil finds nothing |
| Cli.DeleteIfNilUnique | lib/cfn-flow/cli.rb:20-26 | delete_if keeps keys unique and adds none |
| Cli.EnvEntriesLookup | lib/cfn-flow/cli.rb:20-25 | the env hash maps bucket, to, from, dev-name and region to their variables (nil when unset), and nothing else |
| Cli.EnvConfigLookup | lib/cfn-flow/cli.rb:20-26 | the env layer holds an option exactly when its variable is set, with that variable's value; an unset variable contributes nothing |
| Cli.LoadConfigPrecedence | lib/cfn-flow/cli.rb:28-29 | key by key, the command line wins over the environment, which wins over the config file, which wins over the defaults |
| Cli.FromDefaultsToCurrentDirectory | lib/cfn-flow/cli.rb:14-29 | from is `'.'` when no other source supplies it |
| Cli.LoadConfigRegion | lib/cfn-flow/cli.rb:31-32 | load_config succeeds unless the merged region is not a string; afterwards AWS_REGION is set exactly when the merged region is, to its value, and no other variable changes |
| Cli.ExportRegionUnchanged | lib/cfn-flow/cli.rb:32 | exporting the region the environment already holds changes nothing |
| Cli.RegionRoundTrip | lib/cfn-flow/cli.rb:20-32 | when neither the command line nor the file names a region, load_config leaves the environment as it was |
| Cli.OnlyFileSetsPrefix | lib/cfn-flow/cli.rb:3-29 | when the command line holds only declared options, the merged `prefix` is the config file's `prefix` |
| Cli.SplitJoin | lib/cfn-flow/cli.rb:103 | joining one or more parts that contain no `/` (empty parts allowed) and splitting at `/` gives back the parts |
| Cli.JoinLast | lib/cfn-flow/cli.rb:96-103 | joining an optional lead part and two more parts gives `lead/a/b`, or `a/b` without a lead |
| Cli.Prefix | lib/cfn-flow/cli.rb:94-104 | the prefix is `p/release/<release>` when release is a string, otherwise `p/dev/<dev-name>`, where `p/` is dropped for an empty `prefix`; a nil or non-string prefix fails at `empty?`; a truthy non-string release, or a nil or non-string dev-name on the dev branch, fails in `File.join` (a `false` release takes the dev branch) |
| Cli.PrefixCorrected | lib/cfn-flow/cli.rb:94-104 | the same as Prefix, except that a nil `prefix` counts as empty, so the result is just the release or dev branch |
| Cli.PrefixAfterLoad | lib/cfn-flow/cli.rb:38-44 | after load_config, with no `prefix` in the config file, prefix always fails |
| Cli.PrefixCorrectedAfterLoad | lib/cfn-flow/cli.rb:38-44 | after load_config, with no `prefix` in the config file, the corrected prefix is the bare release or dev branch |

## Left out

- YAML parsing, `Dir.glob` template discovery and the `puts`/`say`/`verbose` output (lib/cfn-flow/cli.rb:16, 38-55, 90-92) are left out because they are I/O. The parsed file and the environment are inputs, and ENV after load_config is a returned value.
- Config files that are not a hash, and YAML values other than strings and booleans, are left out.
- The Thor option declarations and the `validate`/`upload` commands are plumbing and are left out: S3 upload, template validation, and the git status check behind `release` (lib/cfn-flow/cli.rb:3-10, 58-87). The one exception is the set of declared option names, used in `Cli.OnlyDeclared`.
- AWS client and resource construction, region selection and `retry_limit` (spec/cfn_flow_spec.rb:153-194) are library wrappers and are left out.
- The `describe_stacks` call is left out and modelled by the `Outputs` map. The stack's status, and its failure modes other than "no such stack", are not modelled.
- Template parsing and JSON serialization are left out; `templater` is an arbitrary function.
- StackParams.ExpandTemplateBody: does not state that the templater is called exactly once, because a Dafny function has no call count.
- spec/helper.rb is not part of this model. It holds test setup only.
- Cli.JoinPath: File.join collapses duplicate slashes at part boundaries. This is not modelled. The join is a plain `/` separator, and Cli.SplitJoin assumes parts without `/`.
- StackParams.DecodeParam: the tests spell reference fields both `stack`/`output` and `Stack`/`Output`, but never both in one hash. The model accepts either spelling and lets the lowercase one win.
- StackParams.ExpandParameters: an absent `parameters` section stays absent rather than becoming an empty list. The tests run `stack_params` on stacks without `parameters` (spec/cfn_flow_spec.rb:87-107) but never look at `[:parameters]` there, so they do not pin either choice.
- StackParams.DecodeParam: a reference hash with no `stack` (or `Stack`) field fails with MissingStackName. This error is the model's own choice; no test covers such a reference, and an implementation that passes nil on to `get_output` would fail in the describe call instead.
- CfnFlow.StackParamsFor: starts from the `stack` section already split into its `parameters`, `tags` and `template_body` entries. Two things are not modelled: the config's string keys (`'parameters'`, spec/cfn_flow_spec.rb:54) being turned into the symbol keys the expansions read (`StackParams.SymbolizedKeys` is modelled on its own but not composed here), and any other entries of the `stack` section, which the expansions would carry along unchanged.
- StackParams.AddTag: requires the tags to be absent or already a list. This is how stack_params uses it, after expand_tags. Appending to an unexpanded tag hash is not modelled.
- CfnFlow.Flags.SetExitOnFailure: takes a boolean. Ruby accepts any value and `exit_on_failure?` returns it as is.
- CachedStacks.CachedStack.GetOutput: the ghost log `fetched` records only the describes that fill the memo. The failing describe made for a stack that does not exist is not logged, and it is repeated on every request for that stack.
- CachedStacks.ExpandEntriesCached: its request and describe guarantees are stated for a successful expansion. After a failure, only the result and the growth of the memo and the `fetched` log are stated.
- CachedStacks.ExpandParametersCached: inherits the same gap: after a failed expansion of a raw parameter hash, only the result and the growth of the memo and the `fetched` log are stated.

## Findings

| source | as written | input that shows it | evidently intended | confidence | as-written member | corrected member |
|---|---|---|---|---|---|---|
| lib/cfn-flow/cli.rb:97 | `options['prefix'].empty?` reads a key that no declared option and no environment variable supplies, so it is nil unless the config file sets `prefix`, and `nil.empty?` raises | a config file without a `prefix` key (or no file at all), at least one template file under `from` (prefix runs only inside the map over the `Dir.glob` results, lib/cfn-flow/cli.rb:43-44), and any command line, for example `cfn-flow upload --dev-name me` | an unset prefix is left out, giving `dev/me` or `release/<sha>` | not executed; high that it raises; the key meant is a guess, possibly the declared `to` option, which is described as the S3 path prefix | Cli.PrefixAfterLoad | Cli.PrefixCorrectedAfterLoad |
