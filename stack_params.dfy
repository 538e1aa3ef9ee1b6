/**
 * CfnFlow::StackParams: a stack description (parameters, tags, template body)
 * and the expansions that turn it into the shape the CloudFormation API takes.
 *
 * A StackParams value is a Ruby hash whose `:parameters` and `:tags` entries are
 * either still the user's hash or already the expanded list; the two states are
 * told apart by type in Ruby and by constructor here.
 */
module StackParams {
  import opened Wrappers
  import opened Errors
  import opened OrderedHash

  // ---------------------------------------------------------------- keys

  /** A Ruby hash key: a string or a symbol, both carrying a name. */
  datatype Key = StrKey(name: string) | SymKey(name: string)

  /** `symbolized_keys`: every key becomes the symbol of the same name, values kept. */
  function SymbolizedKeys<V>(h: seq<(Key, V)>): seq<(Key, V)>
    decreases |h|
  {
    if h == [] then []
    else
      var init := SymbolizedKeys(h[..|h| - 1]);
      var last := h[|h| - 1];
      Put(init, SymKey(last.0.name), last.1)
  }

  /** Every key of the result is a symbol. */
  lemma {:induction false} SymbolizedAllSymbols<V>(h: seq<(Key, V)>)
    ensures forall i :: 0 <= i < |SymbolizedKeys(h)| ==> SymbolizedKeys(h)[i].0.SymKey?
    decreases |h|
  {
    if h != [] {
      var init := h[..|h| - 1];
      var last := h[|h| - 1];
      SymbolizedAllSymbols(init);
      var s := SymbolizedKeys(init);
      var r := Put(s, SymKey(last.0.name), last.1);
      assert forall i :: 0 <= i < |s| ==> s[i].0 == Keys(s)[i];
      assert forall i :: 0 <= i < |r| ==> r[i].0 == Keys(r)[i];
    }
  }

  /** The symbolized result is again a hash: no key occurs twice. */
  lemma {:induction false} SymbolizedUnique<V>(h: seq<(Key, V)>)
    ensures UniqueKeys(SymbolizedKeys(h))
    decreases |h|
  {
    if h != [] {
      SymbolizedUnique(h[..|h| - 1]);
      PutUnique(SymbolizedKeys(h[..|h| - 1]), SymKey(h[|h| - 1].0.name), h[|h| - 1].1);
    }
  }

  /** No two keys share a name, whether string or symbol. */
  predicate DistinctNames<V>(h: seq<(Key, V)>) {
    forall i, j :: 0 <= i < j < |h| ==> h[i].0.name != h[j].0.name
  }

  /** Keys named differently stay in order, one symbol per key, values unchanged. */
  lemma {:induction false} SymbolizedDistinctNames<V>(h: seq<(Key, V)>)
    requires DistinctNames(h)
    ensures |SymbolizedKeys(h)| == |h|
    ensures forall i :: 0 <= i < |h| ==> SymbolizedKeys(h)[i] == (SymKey(h[i].0.name), h[i].1)
    decreases |h|
  {
    if h != [] {
      var init := h[..|h| - 1];
      var last := h[|h| - 1];
      assert DistinctNames(init) by {
        forall i, j | 0 <= i < j < |init| ensures init[i].0.name != init[j].0.name {
          assert init[i] == h[i] && init[j] == h[j];
        }
      }
      SymbolizedDistinctNames(init);
      var s := SymbolizedKeys(init);
      var k := SymKey(last.0.name);
      assert k !in Keys(s) by {
        forall i | 0 <= i < |s| ensures Keys(s)[i] != k {
          assert s[i] == (SymKey(init[i].0.name), init[i].1);
          assert init[i] == h[i];
        }
      }
      PutAbsent(s, k, last.1);
      var r := s + [(k, last.1)];
      assert SymbolizedKeys(h) == r;
      forall i | 0 <= i < |h| ensures r[i] == (SymKey(h[i].0.name), h[i].1) {
        if i < |init| {
          assert r[i] == s[i] && init[i] == h[i];
        }
      }
    }
  }

  /** The value of the last entry of `h` whose key has name `n`, string or symbol. */
  function LastNamed<V>(h: seq<(Key, V)>, n: string): Option<V>
    decreases |h|
  {
    if h == [] then None
    else if h[|h| - 1].0.name == n then Some(h[|h| - 1].1)
    else LastNamed(h[..|h| - 1], n)
  }

  /**
   * After symbolization a name finds the value of the LAST key with that name
   * (a string and a symbol of one name collapse, the later one wins), and no
   * string key is left to find.
   */
  lemma {:induction false} SymbolizedLookup<V>(h: seq<(Key, V)>, n: string)
    ensures Lookup(SymbolizedKeys(h), SymKey(n)) == LastNamed(h, n)
    ensures Lookup(SymbolizedKeys(h), StrKey(n)) == None
    decreases |h|
  {
    if h != [] {
      var init := h[..|h| - 1];
      var last := h[|h| - 1];
      SymbolizedLookup(init, n);
      PutLookup(SymbolizedKeys(init), SymKey(last.0.name), last.1, SymKey(n));
      PutLookup(SymbolizedKeys(init), SymKey(last.0.name), last.1, StrKey(n));
    }
  }

  // ---------------------------------------------------------------- data

  /** A parameter value as written in the config: a literal, or a hash referring to a stack output. */
  datatype RawParam = Scalar(text: string) | Reference(fields: seq<(string, string)>)

  /** A decoded parameter value. */
  datatype PVal = Literal(text: string) | OutputRef(stack: string, output: Option<string>)

  /** `{parameter_key:, parameter_value:}` */
  datatype Parameter = Parameter(parameterKey: string, parameterValue: string)

  /** `{key:, value:}` */
  datatype Tag = Tag(key: string, value: string)

  datatype ParamSection = RawParams(entries: seq<(string, RawParam)>) | ParamList(items: seq<Parameter>)

  datatype TagSection = RawTags(entries: seq<(string, string)>) | TagList(items: seq<Tag>)

  /** The `:parameters`, `:tags` and `:template_body` entries of a StackParams hash; None is an absent key. */
  datatype Params = Params(parameters: Option<ParamSection>, tags: Option<TagSection>, templateBody: Option<string>)

  /** The outputs of every stack the describe call can see: stack name to output key to value. */
  type Outputs = map<string, map<string, string>>

  // ---------------------------------------------------------------- parameters

  /** `h[lower] || h[upper]`: the first spelling present wins. */
  function EitherField(h: seq<(string, string)>, lower: string, upper: string): (r: Option<string>)
    ensures r.Some? <==> lower in Keys(h) || upper in Keys(h)
    ensures lower in Keys(h) ==> r == Lookup(h, lower)
    ensures lower !in Keys(h) ==> r == Lookup(h, upper)
  {
    if Lookup(h, lower).Some? then Lookup(h, lower) else Lookup(h, upper)
  }

  /** Reads an output reference, accepting both `stack`/`output` and `Stack`/`Output`. */
  function DecodeParam(name: string, raw: RawParam): (r: Result<PVal, Error>)
    ensures raw.Scalar? ==> r == Ok(Literal(raw.text))
    ensures raw.Reference? ==> (r.Err? <==> EitherField(raw.fields, "stack", "Stack").None?)
    ensures r.Err? ==> r.error == MissingStackName(name)
    ensures raw.Reference? && r.Ok? ==>
              r.value == OutputRef(EitherField(raw.fields, "stack", "Stack").value, EitherField(raw.fields, "output", "Output"))
  {
    match raw
    case Scalar(s) => Ok(Literal(s))
    case Reference(f) =>
      match EitherField(f, "stack", "Stack")
      case None => Err(MissingStackName(name))
      case Some(stack) => Ok(OutputRef(stack, EitherField(f, "output", "Output")))
  }

  /** `get_output(stack:, output:)` against the stacks that exist. */
  function LookupOutput(outputs: Outputs, stack: string, output: string): (r: Result<string, Error>)
    ensures r.Ok? <==> stack in outputs && output in outputs[stack]
    ensures r.Ok? ==> r.value == outputs[stack][output]
    ensures r.Err? ==> r.error == (if stack in outputs then OutputNotFound(stack, output) else StackLookupFailed(stack))
  {
    if stack !in outputs then Err(StackLookupFailed(stack))
    else if output !in outputs[stack] then Err(OutputNotFound(stack, output))
    else Ok(outputs[stack][output])
  }

  /** The `{stack:, output:}` request a parameter makes; an absent output key is the parameter's own name. */
  function Request(name: string, raw: RawParam): Option<(string, string)>
  {
    match DecodeParam(name, raw)
    case Ok(OutputRef(stack, output)) => Some((stack, output.GetOr(name)))
    case _ => None
  }

  /** The same request as a sequence of zero or one `get_output` calls. */
  function RequestCalls(name: string, raw: RawParam): seq<(string, string)>
  {
    match Request(name, raw)
    case Some(q) => [q]
    case None => []
  }

  /** Expands one entry `name => raw`. */
  function ResolveParam(name: string, raw: RawParam, outputs: Outputs): (r: Result<Parameter, Error>)
    ensures r.Ok? ==> r.value.parameterKey == name
    ensures raw.Scalar? ==> r == Ok(Parameter(name, raw.text))
    ensures raw.Reference? && Request(name, raw).None? ==> r == Err(MissingStackName(name))
    ensures Request(name, raw).Some? ==>
              var (stack, output) := Request(name, raw).value;
              r == match LookupOutput(outputs, stack, output)
                   case Ok(v) => Ok(Parameter(name, v))
                   case Err(e) => Err(e)
  {
    var v :- DecodeParam(name, raw);
    match v
    case Literal(s) => Ok(Parameter(name, s))
    case OutputRef(stack, output) =>
      var value :- LookupOutput(outputs, stack, output.GetOr(name));
      Ok(Parameter(name, value))
  }

  /** Expands every entry in order; the first entry that fails makes the whole expansion fail. */
  function ExpandEntries(ps: seq<(string, RawParam)>, outputs: Outputs): Result<seq<Parameter>, Error>
    decreases |ps|
  {
    if ps == [] then Ok([])
    else
      var done :- ExpandEntries(ps[..|ps| - 1], outputs);
      var last :- ResolveParam(ps[|ps| - 1].0, ps[|ps| - 1].1, outputs);
      Ok(done + [last])
  }

  /** The `get_output` requests an expansion makes, one per output reference, in order. */
  function Requests(ps: seq<(string, RawParam)>): seq<(string, string)>
    decreases |ps|
  {
    if ps == [] then []
    else
      Requests(ps[..|ps| - 1]) + RequestCalls(ps[|ps| - 1].0, ps[|ps| - 1].1)
  }

  /** On success, one parameter per entry, in input order, each the entry's own resolution. */
  lemma {:induction false} ExpandEntriesSuccess(ps: seq<(string, RawParam)>, outputs: Outputs)
    requires ExpandEntries(ps, outputs).Ok?
    ensures |ExpandEntries(ps, outputs).value| == |ps|
    ensures forall i :: 0 <= i < |ps| ==> ResolveParam(ps[i].0, ps[i].1, outputs) == Ok(ExpandEntries(ps, outputs).value[i])
    decreases |ps|
  {
    if ps != [] {
      var init := ps[..|ps| - 1];
      ExpandEntriesSuccess(init, outputs);
      assert forall i :: 0 <= i < |init| ==> ps[i] == init[i];
    }
  }

  /** The expansion succeeds exactly when every entry resolves. */
  lemma {:induction false} ExpandEntriesOkIff(ps: seq<(string, RawParam)>, outputs: Outputs)
    ensures ExpandEntries(ps, outputs).Ok? <==> forall i :: 0 <= i < |ps| ==> ResolveParam(ps[i].0, ps[i].1, outputs).Ok?
    decreases |ps|
  {
    if ps != [] {
      var init := ps[..|ps| - 1];
      ExpandEntriesOkIff(init, outputs);
      assert forall i :: 0 <= i < |init| ==> ps[i] == init[i];
    }
  }

  /** A failed expansion raises the error of the first entry that fails, and of no other. */
  lemma {:induction false} ExpandEntriesFailure(ps: seq<(string, RawParam)>, outputs: Outputs)
    requires ExpandEntries(ps, outputs).Err?
    ensures exists i :: 0 <= i < |ps| && ResolveParam(ps[i].0, ps[i].1, outputs) == Err(ExpandEntries(ps, outputs).error) &&
                        forall j :: 0 <= j < i ==> ResolveParam(ps[j].0, ps[j].1, outputs).Ok?
    decreases |ps|
  {
    var init := ps[..|ps| - 1];
    assert forall i :: 0 <= i < |init| ==> ps[i] == init[i];
    if ExpandEntries(init, outputs).Err? {
      ExpandEntriesFailure(init, outputs);
      var i :| 0 <= i < |init| && ResolveParam(init[i].0, init[i].1, outputs) == Err(ExpandEntries(init, outputs).error) &&
               forall j :: 0 <= j < i ==> ResolveParam(init[j].0, init[j].1, outputs).Ok?;
      assert ResolveParam(ps[i].0, ps[i].1, outputs) == Err(ExpandEntries(ps, outputs).error);
    } else {
      ExpandEntriesOkIff(init, outputs);
    }
  }

  /** One more entry: its resolution is appended, or its error becomes the result. */
  lemma ExpandEntriesStep(ps: seq<(string, RawParam)>, i: nat, outputs: Outputs)
    requires i < |ps| && ExpandEntries(ps[..i], outputs).Ok?
    ensures var x := ResolveParam(ps[i].0, ps[i].1, outputs);
            ExpandEntries(ps[..i + 1], outputs) == if x.Ok? then Ok(ExpandEntries(ps[..i], outputs).value + [x.value]) else Err(x.error)
    ensures Requests(ps[..i + 1]) == Requests(ps[..i]) + RequestCalls(ps[i].0, ps[i].1)
  {
    assert ps[..i + 1][..i] == ps[..i];
  }

  /** Once a prefix of the entries fails, the whole expansion fails with that same error. */
  lemma {:induction false} ExpandEntriesPrefixErr(ps: seq<(string, RawParam)>, k: nat, outputs: Outputs)
    requires k <= |ps|
    requires ExpandEntries(ps[..k], outputs).Err?
    ensures ExpandEntries(ps, outputs) == ExpandEntries(ps[..k], outputs)
    decreases |ps| - k
  {
    if k < |ps| {
      assert ps[..k + 1][..k] == ps[..k];
      ExpandEntriesPrefixErr(ps, k + 1, outputs);
    } else {
      assert ps[..k] == ps;
    }
  }

  /** A literal-only map becomes one `{parameter_key, parameter_value}` per entry, with no lookups. */
  lemma {:induction false} LiteralEntries(ps: seq<(string, RawParam)>, outputs: Outputs)
    requires forall i :: 0 <= i < |ps| ==> ps[i].1.Scalar?
    ensures ExpandEntries(ps, outputs).Ok?
    ensures |ExpandEntries(ps, outputs).value| == |ps|
    ensures forall i :: 0 <= i < |ps| ==> ExpandEntries(ps, outputs).value[i] == Parameter(ps[i].0, ps[i].1.text)
    ensures Requests(ps) == []
    decreases |ps|
  {
    if ps != [] {
      var init := ps[..|ps| - 1];
      assert forall i :: 0 <= i < |init| ==> ps[i] == init[i];
      LiteralEntries(init, outputs);
    }
  }

  /** A one-entry map expands to that entry's resolution. */
  lemma SingleEntry(name: string, raw: RawParam, outputs: Outputs)
    ensures ExpandEntries([(name, raw)], outputs) == match ResolveParam(name, raw, outputs)
                                                     case Ok(x) => Ok([x])
                                                     case Err(e) => Err(e)
  {
    var ps := [(name, raw)];
    assert ps[..0] == [];
    var res := ResolveParam(name, raw, outputs);
    if res.Ok? {
      assert [] + [res.value] == [res.value];
    }
  }

  /** A reference with an explicit output asks once for exactly `{stack, output}` and takes that value. */
  lemma ExplicitOutputReference(name: string, stack: string, output: string, outputs: Outputs)
    ensures var ps := [(name, Reference([("stack", stack), ("output", output)]))];
            Requests(ps) == [(stack, output)] &&
            ExpandEntries(ps, outputs) == match LookupOutput(outputs, stack, output)
                                          case Ok(v) => Ok([Parameter(name, v)])
                                          case Err(e) => Err(e)
  {
    var f := [("stack", stack), ("output", output)];
    assert f[1..][1..] == [];
    assert Lookup(f, "output") == Some(output);
    assert Request(name, Reference(f)) == Some((stack, output));
    assert [(name, Reference(f))][..0] == [];
    SingleEntry(name, Reference(f), outputs);
  }

  /** A reference without an output key asks for the parameter's own name as the output. */
  lemma ImplicitOutputReference(name: string, stack: string, outputs: Outputs)
    ensures var ps := [(name, Reference([("stack", stack)]))];
            Requests(ps) == [(stack, name)] &&
            ExpandEntries(ps, outputs) == match LookupOutput(outputs, stack, name)
                                          case Ok(v) => Ok([Parameter(name, v)])
                                          case Err(e) => Err(e)
  {
    var f := [("stack", stack)];
    assert f[1..] == [];
    assert Lookup(f, "output") == None && Lookup(f, "Output") == None;
    assert Request(name, Reference(f)) == Some((stack, name));
    assert [(name, Reference(f))][..0] == [];
    SingleEntry(name, Reference(f), outputs);
  }

  /** `expand_parameters`: a raw parameter hash becomes its list; nothing else in the hash changes. */
  function ExpandParameters(p: Params, outputs: Outputs): (r: Result<Params, Error>)
    ensures r.Ok? ==> r.value.tags == p.tags && r.value.templateBody == p.templateBody
    ensures r.Ok? ==> (r.value.parameters.Some? <==> p.parameters.Some?)
    ensures r.Ok? && r.value.parameters.Some? ==> r.value.parameters.value.ParamList?
    ensures (p.parameters.None? || p.parameters.value.ParamList?) ==> r == Ok(p)
    ensures p.parameters.Some? && p.parameters.value.RawParams? ==>
              var x := ExpandEntries(p.parameters.value.entries, outputs);
              (r.Ok? <==> x.Ok?) && (r.Ok? ==> r.value.parameters == Some(ParamList(x.value))) &&
              (r.Err? ==> r.error == x.error)
  {
    match p.parameters
    case Some(RawParams(ps)) =>
      var items :- ExpandEntries(ps, outputs);
      Ok(p.(parameters := Some(ParamList(items))))
    case _ => Ok(p)
  }

  // ---------------------------------------------------------------- tags

  /** Each `k => v` becomes `{key: k, value: v}`. */
  function ExpandTagEntries(h: seq<(string, string)>): seq<Tag>
  {
    if h == [] then [] else [Tag(h[0].0, h[0].1)] + ExpandTagEntries(h[1..])
  }

  /** The pairs a tag list was built from. */
  function TagPairs(ts: seq<Tag>): seq<(string, string)>
  {
    if ts == [] then [] else [(ts[0].key, ts[0].value)] + TagPairs(ts[1..])
  }

  /** One tag per entry, in order. */
  lemma {:induction false} TagEntriesAt(h: seq<(string, string)>)
    ensures |ExpandTagEntries(h)| == |h|
    ensures forall i :: 0 <= i < |h| ==> ExpandTagEntries(h)[i] == Tag(h[i].0, h[i].1)
  {
    if h != [] {
      TagEntriesAt(h[1..]);
    }
  }

  /** Expanding tags loses nothing: the pairs come back unchanged. */
  lemma {:induction false} TagRoundTrip(h: seq<(string, string)>)
    ensures TagPairs(ExpandTagEntries(h)) == h
  {
    if h != [] {
      TagRoundTrip(h[1..]);
    }
  }

  /** Every tag list is the expansion of its own pairs. */
  lemma {:induction false} TagListRoundTrip(ts: seq<Tag>)
    ensures ExpandTagEntries(TagPairs(ts)) == ts
  {
    if ts != [] {
      TagListRoundTrip(ts[1..]);
    }
  }

  /** `expand_tags`: a raw tag hash becomes its list; nothing else in the hash changes. */
  function ExpandTags(p: Params): (r: Params)
    ensures r.parameters == p.parameters && r.templateBody == p.templateBody
    ensures r.tags.Some? <==> p.tags.Some?
    ensures r.tags.Some? ==> r.tags.value.TagList?
    ensures p.tags.Some? && p.tags.value.RawTags? ==> r.tags == Some(TagList(ExpandTagEntries(p.tags.value.entries)))
    ensures p.tags.None? || p.tags.value.TagList? ==> r == p
  {
    match p.tags
    case Some(RawTags(h)) => p.(tags := Some(TagList(ExpandTagEntries(h))))
    case _ => p
  }

  /** True when the tags are absent or already a list, which is what `add_tag` appends to. */
  predicate TagsExpanded(p: Params) {
    p.tags.None? || p.tags.value.TagList?
  }

  function CurrentTags(p: Params): seq<Tag>
    requires TagsExpanded(p)
  {
    if p.tags.None? then [] else p.tags.value.items
  }

  /** `add_tag(hash)`: the new tags go after the existing ones, which stay as they were. */
  function AddTag(p: Params, entries: seq<(string, string)>): (r: Params)
    requires TagsExpanded(p)
    ensures r.parameters == p.parameters && r.templateBody == p.templateBody
    ensures r.tags.Some? && r.tags.value.TagList?
  {
    p.(tags := Some(TagList(CurrentTags(p) + ExpandTagEntries(entries))))
  }

  /**
   * `add_tag` appends: the old tags are a prefix, kept in order, and the new
   * entries follow, one tag each, with no de-duplication against the old keys.
   */
  lemma AddTagAppends(p: Params, entries: seq<(string, string)>)
    requires TagsExpanded(p)
    ensures var old_ := CurrentTags(p);
            var now := AddTag(p, entries).tags.value.items;
            |now| == |old_| + |entries| && now[..|old_|] == old_ &&
            forall i :: 0 <= i < |entries| ==> now[|old_| + i] == Tag(entries[i].0, entries[i].1)
  {
    var old_ := CurrentTags(p);
    var added := ExpandTagEntries(entries);
    TagEntriesAt(entries);
    var now := old_ + added;
    assert AddTag(p, entries).tags.value.items == now;
    assert now[..|old_|] == old_;
    forall i | 0 <= i < |entries| ensures now[|old_| + i] == Tag(entries[i].0, entries[i].1) {
      assert now[|old_| + i] == added[i];
    }
  }

  /** On a hash without tags, `add_tag('k' => 'v')` gives exactly `[{key: 'k', value: 'v'}]`. */
  lemma AddTagToNoTags(p: Params, k: string, v: string)
    requires p.tags.None?
    ensures AddTag(p, [(k, v)]).tags == Some(TagList([Tag(k, v)]))
  {
    assert [(k, v)][1..] == [];
    assert CurrentTags(p) == [];
    assert ExpandTagEntries([(k, v)]) == [Tag(k, v)] + [];
    assert [] + ([Tag(k, v)] + []) == [Tag(k, v)];
  }

  // ---------------------------------------------------------------- template body

  /**
   * `expand_template_body(templater:)`: the path is replaced by the serialization
   * of the template built from it; `templater` stands for `Template.new(path).to_json`.
   */
  function ExpandTemplateBody(p: Params, templater: string -> string): (r: Params)
    ensures r.parameters == p.parameters && r.tags == p.tags
    ensures r.templateBody.Some? <==> p.templateBody.Some?
    ensures p.templateBody.Some? ==> r.templateBody == Some(templater(p.templateBody.value))
  {
    match p.templateBody
    case Some(path) => p.(templateBody := Some(templater(path)))
    case None => p
  }

  // ---------------------------------------------------------------- all three

  /** `StackParams.expanded`: parameters, then tags, then template body. */
  function Expanded(p: Params, outputs: Outputs, templater: string -> string): (r: Result<Params, Error>)
    ensures r.Ok? <==> ExpandParameters(p, outputs).Ok?
    ensures r.Err? ==> r.error == ExpandParameters(p, outputs).error
    ensures r.Ok? ==> r.value.parameters == ExpandParameters(p, outputs).value.parameters &&
                      r.value.tags == ExpandTags(p).tags &&
                      r.value.templateBody == ExpandTemplateBody(p, templater).templateBody
  {
    var withParameters :- ExpandParameters(p, outputs);
    Ok(ExpandTemplateBody(ExpandTags(withParameters), templater))
  }

  // ---------------------------------------------------------------- in-place tags

  /** A StackParams hash as an object, for `add_tag`, which updates the receiver's tags. */
  class ParamsHash {
    var parameters: Option<ParamSection>
    var tags: Option<TagSection>
    var templateBody: Option<string>

    function Value(): Params
      reads this
    {
      Params(parameters, tags, templateBody)
    }

    constructor (p: Params)
      ensures Value() == p
    {
      parameters, tags, templateBody := p.parameters, p.tags, p.templateBody;
    }

    /** Appends to this hash's tags; the other entries are untouched. */
    method AddTagInPlace(entries: seq<(string, string)>) returns (r: Params)
      requires TagsExpanded(Value())
      modifies this`tags
      ensures Value() == AddTag(old(Value()), entries)
      ensures r == Value()
    {
      var current := if tags.None? then [] else tags.value.items;
      tags := Some(TagList(current + ExpandTagEntries(entries)));
      r := Value();
    }
  }
}
