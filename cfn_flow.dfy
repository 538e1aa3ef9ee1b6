/**
 * The CfnFlow module: accessors over the loaded `cfn-flow.yml` and the
 * `stack_params(environment)` facade that turns its `stack` section into the
 * deployment payload, with the two managed tags appended.
 */
module CfnFlow {
  import opened Wrappers
  import opened Errors
  import opened StackParams
  import opened OrderedHash

  /** The `templates` section. */
  datatype Templates = Templates(s3Bucket: Option<string>, s3Prefix: Option<string>)

  /** The keys of the loaded config that the accessors read; None is an absent key. */
  datatype Config = Config(service: Option<string>, stack: Option<Params>, templates: Option<Templates>)

  const ConfigPathVar := "CFN_FLOW_CONFIG_PATH"
  const DefaultConfigPath := "cfn-flow.yml"
  const ServiceTag := "CfnFlowService"
  const EnvironmentTag := "CfnFlowEnvironment"

  /** `config_path`: the environment's override when it is set, `cfn-flow.yml` otherwise. */
  function ConfigPath(env: map<string, string>): (path: string)
    ensures ConfigPathVar in env ==> path == env[ConfigPathVar]
    ensures ConfigPathVar !in env ==> path == DefaultConfigPath
  {
    if ConfigPathVar in env then env[ConfigPathVar] else DefaultConfigPath
  }

  /** `service`: the configured name, or "No service name". */
  function Service(c: Config): (r: Result<string, Error>)
    ensures r.Ok? <==> c.service.Some?
    ensures r.Ok? ==> r.value == c.service.value
    ensures r.Err? ==> r.error == NoServiceName
  {
    match c.service
    case Some(name) => Ok(name)
    case None => Err(NoServiceName)
  }

  /** `template_s3_bucket`: fails with "No s3_bucket defined" when `templates` or its bucket is missing. */
  function TemplateS3Bucket(c: Config): (r: Result<string, Error>)
    ensures r.Ok? <==> c.templates.Some? && c.templates.value.s3Bucket.Some?
    ensures r.Ok? ==> r.value == c.templates.value.s3Bucket.value
    ensures r.Err? ==> r.error == NoS3BucketDefined
  {
    if c.templates.Some? && c.templates.value.s3Bucket.Some? then Ok(c.templates.value.s3Bucket.value)
    else Err(NoS3BucketDefined)
  }

  /** `template_s3_prefix`: fails only when `templates` is missing; an absent prefix is nil. */
  function TemplateS3Prefix(c: Config): (r: Result<Option<string>, Error>)
    ensures r.Ok? <==> c.templates.Some?
    ensures r.Ok? ==> r.value == c.templates.value.s3Prefix
    ensures r.Err? ==> r.error == NoTemplatesDefined
  {
    match c.templates
    case Some(t) => Ok(t.s3Prefix)
    case None => Err(NoTemplatesDefined)
  }

  /** The two tags every stack gets, service first, environment second. */
  function ManagedTags(service: string, environment: string): seq<(string, string)>
  {
    [(ServiceTag, service), (EnvironmentTag, environment)]
  }

  /**
   * `stack_params(environment)`: fails with "No stack defined" without a `stack`
   * section, otherwise expands it and appends the managed tags after the user's.
   * `outputs` stands for the stacks the describe call sees and `templater` for
   * `Template.new(path).to_json`.
   */
  function StackParamsFor(c: Config, environment: string, outputs: Outputs, templater: string -> string): (r: Result<Params, Error>)
    ensures c.stack.None? ==> r == Err(NoStackDefined)
    ensures r.Ok? ==> ExpandParameters(c.stack.value, outputs).Ok? &&
                      r.value.parameters == ExpandParameters(c.stack.value, outputs).value.parameters
    ensures r.Ok? ==> r.value.templateBody == ExpandTemplateBody(c.stack.value, templater).templateBody
  {
    if c.stack.None? then Err(NoStackDefined)
    else
      var expanded :- Expanded(c.stack.value, outputs, templater);
      var service :- Service(c);
      Ok(AddTag(expanded, ManagedTags(service, environment)))
  }

  /** The user's tags in list form: the expansion of a tag hash, a list as it is, none when absent. */
  function UserTags(p: Params): seq<Tag>
  {
    match p.tags
    case None => []
    case Some(RawTags(h)) => ExpandTagEntries(h)
    case Some(TagList(items)) => items
  }

  /**
   * `stack_params` succeeds exactly when there is a stack, its parameters resolve
   * and there is a service name; its errors come in that order.
   */
  lemma StackParamsOutcome(c: Config, environment: string, outputs: Outputs, templater: string -> string)
    ensures var r := StackParamsFor(c, environment, outputs, templater);
            (r.Ok? <==> c.stack.Some? && ExpandParameters(c.stack.value, outputs).Ok? && c.service.Some?) &&
            (c.stack.Some? && ExpandParameters(c.stack.value, outputs).Err? ==>
               r == Err(ExpandParameters(c.stack.value, outputs).error)) &&
            (c.stack.Some? && ExpandParameters(c.stack.value, outputs).Ok? && c.service.None? ==> r == Err(NoServiceName))
  {
  }

  /** The final tags are the user's tags in order, then `CfnFlowService`, then `CfnFlowEnvironment`. */
  lemma StackParamsTags(c: Config, environment: string, outputs: Outputs, templater: string -> string)
    requires StackParamsFor(c, environment, outputs, templater).Ok?
    ensures StackParamsFor(c, environment, outputs, templater).value.tags ==
            Some(TagList(UserTags(c.stack.value) + [Tag(ServiceTag, c.service.value), Tag(EnvironmentTag, environment)]))
  {
    var p := c.stack.value;
    var expanded := Expanded(p, outputs, templater).value;
    assert expanded.tags == ExpandTags(p).tags;
    assert CurrentTags(expanded) == UserTags(p);
    var m := ManagedTags(c.service.value, environment);
    assert StackParamsFor(c, environment, outputs, templater) == Ok(AddTag(expanded, m));
    assert m[1..] == [(EnvironmentTag, environment)] && m[1..][1..] == [];
    assert ExpandTagEntries(m[1..]) == [Tag(EnvironmentTag, environment)] + [];
    assert ExpandTagEntries(m) == [Tag(ServiceTag, c.service.value)] + [Tag(EnvironmentTag, environment)];
    assert [Tag(ServiceTag, c.service.value)] + [Tag(EnvironmentTag, environment)] ==
           [Tag(ServiceTag, c.service.value), Tag(EnvironmentTag, environment)];
    assert AddTag(expanded, m).tags == Some(TagList(CurrentTags(expanded) + ExpandTagEntries(m)));
  }

  /** A stack without tags still gets exactly the two managed tags, service first. */
  lemma StackParamsWithoutTags(c: Config, environment: string, outputs: Outputs, templater: string -> string)
    requires StackParamsFor(c, environment, outputs, templater).Ok?
    requires c.stack.value.tags.None?
    ensures StackParamsFor(c, environment, outputs, templater).value.tags ==
            Some(TagList([Tag(ServiceTag, c.service.value), Tag(EnvironmentTag, environment)]))
  {
    StackParamsTags(c, environment, outputs, templater);
    assert [] + [Tag(ServiceTag, c.service.value), Tag(EnvironmentTag, environment)] ==
           [Tag(ServiceTag, c.service.value), Tag(EnvironmentTag, environment)];
  }

  /**
   * A parameter written `{'Stack' => s, 'Output' => o}` resolves to output `o` of
   * stack `s`; written `{'Stack' => s}` it resolves to the output named like the
   * parameter itself.
   */
  lemma StackParamsOutputReference(c: Config, environment: string, outputs: Outputs, templater: string -> string,
                                   name: string, stack: string, output: Option<string>)
    requires c.service.Some?
    requires var fields := [("Stack", stack)] + (if output.Some? then [("Output", output.value)] else []);
             c.stack == Some(Params(Some(RawParams([(name, Reference(fields))])), None, None))
    requires stack in outputs && output.GetOr(name) in outputs[stack]
    ensures StackParamsFor(c, environment, outputs, templater).Ok?
    ensures StackParamsFor(c, environment, outputs, templater).value.parameters ==
            Some(ParamList([Parameter(name, outputs[stack][output.GetOr(name)])]))
  {
    var fields := [("Stack", stack)] + (if output.Some? then [("Output", output.value)] else []);
    assert Lookup(fields, "stack") == None;
    assert Lookup(fields, "Stack") == Some(stack);
    if output.Some? {
      assert fields[1..] == [("Output", output.value)] && fields[1..][1..] == [];
      assert Lookup(fields, "output") == None;
      assert Lookup(fields, "Output") == Some(output.value);
    } else {
      assert fields[1..] == [];
      assert Lookup(fields, "output") == None && Lookup(fields, "Output") == None;
    }
    assert DecodeParam(name, Reference(fields)) == Ok(OutputRef(stack, output));
    SingleEntry(name, Reference(fields), outputs);
  }

  /** `config_loaded?` and `exit_on_failure?`: the module-level flags of CfnFlow. */
  class Flags {
    /** `@config`: nil until the config file has been loaded. */
    var config: Option<Config>
    /** `@exit_on_failure`: None while the instance variable is undefined. */
    var exitOnFailure: Option<bool>

    constructor ()
      ensures !ConfigLoaded() && ExitOnFailure()
      ensures config == None && exitOnFailure == None
    {
      config := None;
      exitOnFailure := None;
    }

    /** `config_loaded?` */
    function ConfigLoaded(): (loaded: bool)
      reads this
      ensures loaded <==> config.Some?
    {
      config.Some?
    }

    /** `exit_on_failure?`: true unless it has been set. */
    function ExitOnFailure(): (exit: bool)
      reads this
      ensures exitOnFailure.None? ==> exit
      ensures exitOnFailure.Some? ==> exit == exitOnFailure.value
    {
      exitOnFailure.GetOr(true)
    }

    /** `load_config`, given the parsed file at `config_path`. */
    method LoadConfig(file: Config)
      modifies this`config
      ensures ConfigLoaded() && config == Some(file)
    {
      config := Some(file);
    }

    /** `config`: loads the file the first time only, then keeps what was loaded. */
    method GetConfig(file: Config) returns (c: Config)
      modifies this`config
      ensures ConfigLoaded()
      ensures old(config).Some? ==> config == old(config) && c == old(config).value
      ensures old(config).None? ==> config == Some(file) && c == file
    {
      if config.None? {
        LoadConfig(file);
      }
      c := config.value;
    }

    /** `exit_on_failure = value` */
    method SetExitOnFailure(value: bool)
      modifies this`exitOnFailure
      ensures ExitOnFailure() == value && exitOnFailure == Some(value)
    {
      exitOnFailure := Some(value);
    }

    /** `remove_instance_variable(:@exit_on_failure)`: back to the default. */
    method ResetExitOnFailure()
      modifies this`exitOnFailure
      ensures ExitOnFailure() && exitOnFailure == None
    {
      exitOnFailure := None;
    }
  }
}
