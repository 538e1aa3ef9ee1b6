/**
 * CfnFlow::CLI: how `load_config` layers the option sources, and how the
 * private `prefix` builds the S3 upload prefix from the merged options.
 */
module Cli {
  import opened Wrappers
  import opened OrderedHash

  /** An option value: Thor string options and YAML strings are Text, `verbose` is a Flag. */
  datatype Setting = Text(text: string) | Flag(flag: bool)

  /** An options hash, string keys in insertion order. */
  type Options = seq<(string, Setting)>

  /** What `prefix` can raise. */
  datatype CliError =
    | UndefinedEmpty        // `empty?` sent to nil or to a value that is not a string
    | NoImplicitConversion  // `File.join` given nil or a value that is not a string

  /** The options every run starts from. */
  const Defaults: Options := [("from", Text("."))]

  /** The options Thor declares, the only keys the command line can set. */
  const DeclaredOptions: set<string> := {"bucket", "to", "from", "dev-name", "region", "verbose", "release"}

  // ---------------------------------------------------------------- load_config

  /** `ENV[name]`, nil when the variable is unset. */
  function EnvValue(env: map<string, string>, name: string): Option<Setting>
  {
    if name in env then Some(Text(env[name])) else None
  }

  /** The env hash as written, before `delete_if`: nil where a variable is unset. */
  function EnvEntries(env: map<string, string>): seq<(string, Option<Setting>)>
  {
    [("bucket", EnvValue(env, "CFN_FLOW_BUCKET")),
     ("to", EnvValue(env, "CFN_FLOW_TO")),
     ("from", EnvValue(env, "CFN_FLOW_FROM")),
     ("dev-name", EnvValue(env, "CFN_FLOW_DEV_NAME")),
     ("region", EnvValue(env, "AWS_REGION"))]
  }

  /** The variable each option can be read from, if any. */
  function EnvVariable(option: string): Option<string>
  {
    if option == "bucket" then Some("CFN_FLOW_BUCKET")
    else if option == "to" then Some("CFN_FLOW_TO")
    else if option == "from" then Some("CFN_FLOW_FROM")
    else if option == "dev-name" then Some("CFN_FLOW_DEV_NAME")
    else if option == "region" then Some("AWS_REGION")
    else None
  }

  /** `delete_if {|_, v| v.nil?}` */
  function DeleteIfNil(h: seq<(string, Option<Setting>)>): Options
  {
    if h == [] then []
    else if h[0].1.None? then DeleteIfNil(h[1..])
    else [(h[0].0, h[0].1.value)] + DeleteIfNil(h[1..])
  }

  /** The environment's layer of options. */
  function EnvConfig(env: map<string, string>): Options
  {
    DeleteIfNil(EnvEntries(env))
  }

  /**
   * Where the CLI reads its config file from: `CFN_FLOW_CONFIG`, else `./cfn-flow.yml`.
   * Reading the file is I/O; `LoadConfig` takes the parsed file found at this path.
   */
  function CliConfigPath(env: map<string, string>): (path: string)
    ensures "CFN_FLOW_CONFIG" in env ==> path == env["CFN_FLOW_CONFIG"]
    ensures "CFN_FLOW_CONFIG" !in env ==> path == "./cfn-flow.yml"
  {
    if "CFN_FLOW_CONFIG" in env then env["CFN_FLOW_CONFIG"] else "./cfn-flow.yml"
  }

  /** The config file's layer; a missing file (`Errno::ENOENT`) reads as an empty hash. */
  function FileConfig(file: Option<Options>): (o: Options)
    ensures file.None? ==> o == []
    ensures file.Some? ==> o == file.value
  {
    file.GetOr([])
  }

  /** `defaults.merge(file_config).merge(env_config).merge(options)` */
  function MergedOptions(file: Option<Options>, env: map<string, string>, cli: Options): Options
  {
    Merge(Merge(Merge(Defaults, FileConfig(file)), EnvConfig(env)), cli)
  }

  /** What `load_config` leaves behind: the merged options and the process environment. */
  datatype Loaded = Loaded(options: Options, env: map<string, string>)

  /**
   * `ENV['AWS_REGION'] = options['region']`: unsets the variable for a nil
   * region and raises for a region that is not a string.
   */
  function ExportRegion(options: Options, env: map<string, string>): Result<map<string, string>, CliError>
  {
    var region: Option<Setting> := Lookup(options, "region");
    match region
    case None => Ok(env - {"AWS_REGION"})
    case Some(Text(name)) => Ok(env["AWS_REGION" := name])
    case Some(Flag(_)) => Err(NoImplicitConversion)
  }

  /** `load_config`: merges the layers, then exports the merged region. */
  function LoadConfig(file: Option<Options>, env: map<string, string>, cli: Options): Result<Loaded, CliError>
  {
    var options := MergedOptions(file, env, cli);
    var exported :- ExportRegion(options, env);
    Ok(Loaded(options, exported))
  }

  /** Exporting the region the environment already holds changes nothing. */
  lemma ExportRegionUnchanged(options: Options, env: map<string, string>)
    requires Lookup(options, "region") == EnvValue(env, "AWS_REGION")
    ensures ExportRegion(options, env) == Ok(env)
  {
    if "AWS_REGION" in env {
      assert env["AWS_REGION" := env["AWS_REGION"]] == env;
    } else {
      assert env - {"AWS_REGION"} == env;
    }
  }

  /**
   * After loading, `AWS_REGION` holds exactly the merged `region` and every
   * other variable is as it was; loading fails only for a region that is not a string.
   */
  lemma LoadConfigRegion(file: Option<Options>, env: map<string, string>, cli: Options)
    ensures var region := Lookup(MergedOptions(file, env, cli), "region");
            LoadConfig(file, env, cli).Ok? <==> (region.None? || region.value.Text?)
    ensures LoadConfig(file, env, cli).Ok? ==>
              var l := LoadConfig(file, env, cli).value;
              var region := Lookup(MergedOptions(file, env, cli), "region");
              l.options == MergedOptions(file, env, cli) &&
              ("AWS_REGION" in l.env <==> region.Some?) &&
              (region.Some? ==> l.env["AWS_REGION"] == region.value.text) &&
              (forall v :: v != "AWS_REGION" ==> (v in l.env <==> v in env))
              && (forall v :: v != "AWS_REGION" && v in env ==> l.env[v] == env[v])
  {
  }

  lemma EnvConfigRegion(env: map<string, string>)
    ensures Lookup(EnvConfig(env), "region") == EnvValue(env, "AWS_REGION")
  {
    EnvConfigLookup(env, "region");
  }

  lemma MergedRegionFromEnv(file: Option<Options>, env: map<string, string>, cli: Options)
    requires UniqueKeys(FileConfig(file)) && UniqueKeys(cli)
    requires "region" !in Keys(cli) && "region" !in Keys(FileConfig(file))
    ensures Lookup(MergedOptions(file, env, cli), "region") == EnvValue(env, "AWS_REGION")
  {
    EnvConfigRegion(env);
    assert Lookup(Defaults, "region") == None;
    LoadConfigPrecedence(file, env, cli, "region");
  }

  /**
   * When neither the command line nor the config file names a region, loading
   * writes back exactly the `AWS_REGION` it read: the environment is unchanged.
   */
  lemma RegionRoundTrip(file: Option<Options>, env: map<string, string>, cli: Options)
    requires UniqueKeys(FileConfig(file)) && UniqueKeys(cli)
    requires "region" !in Keys(cli) && "region" !in Keys(FileConfig(file))
    ensures LoadConfig(file, env, cli) == Ok(Loaded(MergedOptions(file, env, cli), env))
  {
    MergedRegionFromEnv(file, env, cli);
    ExportRegionUnchanged(MergedOptions(file, env, cli), env);
  }

  /** Dropping nil entries keeps every other entry findable, and finds no nil. */
  lemma {:induction false} DeleteIfNilLookup(h: seq<(string, Option<Setting>)>, k: string)
    requires UniqueKeys(h)
    ensures Lookup(DeleteIfNil(h), k) == if Lookup(h, k).Some? then Lookup(h, k).value else None
  {
    if h != [] {
      UniqueKeysTail(h);
      DeleteIfNilLookup(h[1..], k);
    }
  }

  /** Dropping entries keeps keys unique. */
  lemma {:induction false} DeleteIfNilUnique(h: seq<(string, Option<Setting>)>)
    requires UniqueKeys(h)
    ensures UniqueKeys(DeleteIfNil(h))
    ensures forall k :: k in Keys(DeleteIfNil(h)) ==> k in Keys(h)
  {
    if h != [] {
      UniqueKeysTail(h);
      DeleteIfNilUnique(h[1..]);
      if h[0].1.Some? {
        ConsUnique((h[0].0, h[0].1.value), DeleteIfNil(h[1..]));
      }
    }
  }

  /**
   * An environment variable that is unset contributes nothing: the env layer
   * holds an option exactly when its variable is set, with the variable's value.
   */
  lemma EnvConfigLookup(env: map<string, string>, k: string)
    ensures UniqueKeys(EnvConfig(env))
    ensures Lookup(EnvConfig(env), k) == match EnvVariable(k)
                                         case Some(name) => EnvValue(env, name)
                                         case None => None
  {
    EnvEntriesUnique(env);
    EnvEntriesLookup(env, k);
    DeleteIfNilUnique(EnvEntries(env));
    DeleteIfNilLookup(EnvEntries(env), k);
  }

  lemma EnvEntriesUnique(env: map<string, string>)
    ensures UniqueKeys(EnvEntries(env))
  {
  }

  lemma EnvEntriesLookup(env: map<string, string>, k: string)
    ensures Lookup(EnvEntries(env), k) == match EnvVariable(k)
                                          case Some(name) => Some(EnvValue(env, name))
                                          case None => None
  {
    var h := EnvEntries(env);
    assert Lookup(h[4..], k) == if k == "region" then Some(EnvValue(env, "AWS_REGION")) else None;
    assert Lookup(h[3..], k) == if k == "dev-name" then Some(EnvValue(env, "CFN_FLOW_DEV_NAME")) else Lookup(h[4..], k);
    assert Lookup(h[2..], k) == if k == "from" then Some(EnvValue(env, "CFN_FLOW_FROM")) else Lookup(h[3..], k);
    assert Lookup(h[1..], k) == if k == "to" then Some(EnvValue(env, "CFN_FLOW_TO")) else Lookup(h[2..], k);
  }

  /**
   * Merge precedence: the command line wins, then the environment, then the
   * config file, then the defaults, key by key.
   */
  lemma LoadConfigPrecedence(file: Option<Options>, env: map<string, string>, cli: Options, k: string)
    requires UniqueKeys(FileConfig(file)) && UniqueKeys(cli)
    ensures UniqueKeys(MergedOptions(file, env, cli))
    ensures Lookup(MergedOptions(file, env, cli), k) ==
            if k in Keys(cli) then Lookup(cli, k)
            else if Lookup(EnvConfig(env), k).Some? then Lookup(EnvConfig(env), k)
            else if k in Keys(FileConfig(file)) then Lookup(FileConfig(file), k)
            else Lookup(Defaults, k)
  {
    var a := Merge(Defaults, FileConfig(file));
    var b := Merge(a, EnvConfig(env));
    EnvConfigLookup(env, k);
    MergeLookup(Defaults, FileConfig(file), k);
    MergeLookup(a, EnvConfig(env), k);
    MergeLookup(b, cli, k);
    MergeUnique(Defaults, FileConfig(file));
    MergeUnique(a, EnvConfig(env));
    MergeUnique(b, cli);
  }

  /** `from` is `'.'` whenever no other source supplies it. */
  lemma FromDefaultsToCurrentDirectory(file: Option<Options>, env: map<string, string>, cli: Options)
    requires UniqueKeys(FileConfig(file)) && UniqueKeys(cli)
    requires "from" !in Keys(cli) && "from" !in Keys(FileConfig(file)) && "CFN_FLOW_FROM" !in env
    ensures Lookup(MergedOptions(file, env, cli), "from") == Some(Text("."))
  {
    LoadConfigPrecedence(file, env, cli, "from");
    EnvConfigLookup(env, "from");
  }

  /** Command-line options whose every key is a declared option. */
  predicate OnlyDeclared(cli: Options)
  {
    forall i :: 0 <= i < |cli| ==> cli[i].0 in DeclaredOptions
  }

  lemma UndeclaredAbsent(cli: Options, k: string)
    requires OnlyDeclared(cli) && k !in DeclaredOptions
    ensures k !in Keys(cli)
  {
  }

  lemma EnvConfigNoPrefix(env: map<string, string>)
    ensures Lookup(EnvConfig(env), "prefix") == None
  {
    EnvConfigLookup(env, "prefix");
  }

  /**
   * Nothing but the config file can set `prefix`: it is not a declared option
   * and no environment variable feeds it.
   */
  lemma OnlyFileSetsPrefix(file: Option<Options>, env: map<string, string>, cli: Options)
    requires UniqueKeys(FileConfig(file)) && UniqueKeys(cli)
    requires OnlyDeclared(cli)
    ensures Lookup(MergedOptions(file, env, cli), "prefix") == Lookup(FileConfig(file), "prefix")
  {
    UndeclaredAbsent(cli, "prefix");
    EnvConfigNoPrefix(env);
    assert Lookup(Defaults, "prefix") == None;
    LoadConfigPrecedence(file, env, cli, "prefix");
  }

  // ---------------------------------------------------------------- prefix

  /** `File.join` on string parts that carry no separators of their own. */
  function JoinPath(parts: seq<string>): string
  {
    if parts == [] then ""
    else if |parts| == 1 then parts[0]
    else parts[0] + "/" + JoinPath(parts[1..])
  }

  /** Splits a path at every `/`. */
  function SplitPath(s: string): (r: seq<string>)
    ensures |r| >= 1
    decreases |s|
  {
    if s == [] then [""]
    else
      var rest := SplitPath(s[1..]);
      if s[0] == '/' then [""] + rest else [[s[0]] + rest[0]] + rest[1..]
  }

  lemma {:induction false} SplitSegment(a: string, rest: string)
    requires '/' !in a
    ensures SplitPath(a + "/" + rest) == [a] + SplitPath(rest)
    ensures SplitPath(a) == [a]
    decreases |a|
  {
    if a == [] {
      assert a + "/" + rest == "/" + rest;
      assert ("/" + rest)[1..] == rest;
    } else {
      SplitSegment(a[1..], rest);
      assert (a + "/" + rest)[1..] == a[1..] + "/" + rest;
      assert [a[0]] + a[1..] == a;
    }
  }

  /** The joined prefix splits back into exactly its parts. */
  lemma {:induction false} SplitJoin(parts: seq<string>)
    requires |parts| >= 1
    requires forall i :: 0 <= i < |parts| ==> '/' !in parts[i]
    ensures SplitPath(JoinPath(parts)) == parts
  {
    if |parts| == 1 {
      SplitSegment(parts[0], "");
    } else {
      SplitJoin(parts[1..]);
      SplitSegment(parts[0], JoinPath(parts[1..]));
    }
  }

  predicate IsText(o: Option<Setting>) {
    o.Some? && o.value.Text?
  }

  /** Ruby truthiness: anything but nil and false. */
  predicate Truthy(o: Option<Setting>) {
    o.Some? && o.value != Flag(false)
  }

  /** The leading part `prefix/`, or nothing for an empty prefix. */
  function Lead(prefix: string): string
  {
    if prefix == "" then "" else prefix + "/"
  }

  /**
   * What follows the lead of the upload prefix: `release/<release>` when a
   * release is set, `dev/<dev-name>` otherwise; a release or dev-name that is
   * nil or not a string cannot be joined.
   */
  function Branch(options: Options): Result<string, CliError>
  {
    var release := Lookup(options, "release");
    var devName := Lookup(options, "dev-name");
    if IsText(release) then Ok("release/" + release.value.text)
    else if Truthy(release) || !IsText(devName) then Err(NoImplicitConversion)
    else Ok("dev/" + devName.value.text)
  }

  /** The lead followed by the branch, or the branch's failure. */
  function Under(lead: string, branch: Result<string, CliError>): Result<string, CliError>
  {
    if branch.Ok? then Ok(lead + branch.value) else branch
  }

  lemma JoinLast(lead: seq<string>, a: string, b: string)
    requires |lead| <= 1
    ensures JoinPath(lead + [a, b]) == (if lead == [] then "" else lead[0] + "/") + (a + "/" + b)
  {
    assert JoinPath([b]) == b;
    assert [a, b][1..] == [b];
    if lead != [] {
      assert (lead + [a, b])[1..] == [a, b];
    } else {
      assert lead + [a, b] == [a, b];
    }
  }

  /**
   * `prefix`, as written: `options['prefix']` leads only when non-empty, then
   * the branch. A `prefix` that is nil (or not a string) fails at `empty?`.
   */
  method Prefix(options: Options) returns (r: Result<string, CliError>)
    ensures !IsText(Lookup(options, "prefix")) ==> r == Err(UndefinedEmpty)
    ensures IsText(Lookup(options, "prefix")) ==>
              r == Under(Lead(Lookup(options, "prefix").value.text), Branch(options))
  {
    var prefix := Lookup(options, "prefix");
    if !IsText(prefix) {
      return Err(UndefinedEmpty);
    }
    var parts: seq<string> := [];
    if prefix.value.text != "" {
      parts := parts + [prefix.value.text];
    }
    var release := Lookup(options, "release");
    if Truthy(release) {
      if !release.value.Text? {
        return Err(NoImplicitConversion);
      }
      JoinLast(parts, "release", release.value.text);
      assert "release" + "/" + release.value.text == "release/" + release.value.text;
      parts := parts + ["release", release.value.text];
    } else {
      var devName := Lookup(options, "dev-name");
      if !IsText(devName) {
        return Err(NoImplicitConversion);
      }
      JoinLast(parts, "dev", devName.value.text);
      assert "dev" + "/" + devName.value.text == "dev/" + devName.value.text;
      parts := parts + ["dev", devName.value.text];
    }
    r := Ok(JoinPath(parts));
  }

  /** Filling in an empty `prefix` leaves the branch alone. */
  lemma FillPrefix(options: Options)
    ensures Lookup(Put(options, "prefix", Text("")), "prefix") == Some(Text(""))
    ensures Branch(Put(options, "prefix", Text(""))) == Branch(options)
  {
    PutLookup(options, "prefix", Text(""), "prefix");
    PutLookup(options, "prefix", Text(""), "release");
    PutLookup(options, "prefix", Text(""), "dev-name");
  }

  /**
   * `prefix` with a nil `options['prefix']` read as the empty string, so that a
   * run without one uploads under the bare branch.
   */
  method PrefixCorrected(options: Options) returns (r: Result<string, CliError>)
    ensures Lookup(options, "prefix").None? ==> r == Branch(options)
    ensures Lookup(options, "prefix").Some? && !IsText(Lookup(options, "prefix")) ==> r == Err(UndefinedEmpty)
    ensures IsText(Lookup(options, "prefix")) ==>
              r == Under(Lead(Lookup(options, "prefix").value.text), Branch(options))
  {
    if Lookup(options, "prefix").None? {
      var filled := Put(options, "prefix", Text(""));
      FillPrefix(options);
      r := Prefix(filled);
      assert Branch(options).Ok? ==> "" + Branch(options).value == Branch(options).value;
    } else {
      r := Prefix(options);
    }
  }

  /**
   * `prefix` as `load_templates` runs it, after `load_config`: when the
   * config file has no `prefix`, nothing else supplies one and it fails.
   */
  method PrefixAfterLoad(file: Option<Options>, env: map<string, string>, cli: Options) returns (r: Result<string, CliError>)
    requires UniqueKeys(FileConfig(file)) && UniqueKeys(cli) && OnlyDeclared(cli)
    requires "prefix" !in Keys(FileConfig(file))
    ensures r == Err(UndefinedEmpty)
  {
    OnlyFileSetsPrefix(file, env, cli);
    r := Prefix(MergedOptions(file, env, cli));
  }

  /** The corrected `prefix` after `load_config`: with no `prefix` configured, the bare branch. */
  method PrefixCorrectedAfterLoad(file: Option<Options>, env: map<string, string>, cli: Options) returns (r: Result<string, CliError>)
    requires UniqueKeys(FileConfig(file)) && UniqueKeys(cli) && OnlyDeclared(cli)
    requires "prefix" !in Keys(FileConfig(file))
    ensures r == Branch(MergedOptions(file, env, cli))
  {
    OnlyFileSetsPrefix(file, env, cli);
    r := PrefixCorrected(MergedOptions(file, env, cli));
  }
}
