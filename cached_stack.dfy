/**
 * CfnFlow::CachedStack: the `cached_stack` collaborator of `expand_parameters`.
 * The first `get_output` for a stack makes one describe call and keeps all of
 * that stack's outputs; later requests for the same stack reuse them.
 */
module CachedStacks {
  import opened Wrappers
  import opened Errors
  import opened StackParams

  class CachedStack {
    /** What the describe call returns, for every stack that exists and exposes outputs. */
    const remote: Outputs
    /** The memo: stack name to its outputs. */
    var memo: map<string, map<string, string>>
    /** Stacks whose describe call filled the memo, in order. */
    ghost var fetched: seq<string>
    /** Every `get_output(stack:, output:)` received, in order. */
    ghost var requests: seq<(string, string)>

    /** The memo is a faithful copy of the remote outputs, filled once per stack. */
    ghost predicate Valid()
      reads this
    {
      (forall s :: s in memo ==> s in remote && memo[s] == remote[s]) &&
      (forall i :: 0 <= i < |fetched| ==> fetched[i] in memo) &&
      (forall s :: s in memo ==> s in fetched) &&
      (forall i, j :: 0 <= i < j < |fetched| ==> fetched[i] != fetched[j])
    }

    constructor (remote: Outputs)
      ensures Valid()
      ensures this.remote == remote && memo == map[] && fetched == [] && requests == []
    {
      this.remote := remote;
      memo := map[];
      fetched := [];
      requests := [];
    }

    /**
     * `get_output(stack:, output:)`. A describe call is made only when the stack
     * is not memoised yet; a failed call (no such stack) is not memoised.
     */
    method GetOutput(stack: string, output: string) returns (r: Result<string, Error>)
      requires Valid()
      modifies this
      ensures Valid()
      ensures r == LookupOutput(remote, stack, output)
      ensures requests == old(requests) + [(stack, output)]
      ensures memo == if stack in old(memo) || stack !in remote then old(memo) else old(memo)[stack := remote[stack]]
      ensures fetched == if stack in old(memo) || stack !in remote then old(fetched) else old(fetched) + [stack]
    {
      requests := requests + [(stack, output)];
      if stack !in memo {
        if stack !in remote {
          return Err(StackLookupFailed(stack));
        }
        memo := memo[stack := remote[stack]];
        fetched := fetched + [stack];
      }
      var outs := memo[stack];
      if output !in outs {
        return Err(OutputNotFound(stack, output));
      }
      r := Ok(outs[output]);
    }
  }

  /** The stack names a sequence of `{stack, output}` requests mentions. */
  function StacksOf(qs: seq<(string, string)>): set<string>
  {
    set i | 0 <= i < |qs| :: qs[i].0
  }

  lemma StacksOfAppend(a: seq<(string, string)>, b: seq<(string, string)>)
    ensures StacksOf(a + b) == StacksOf(a) + StacksOf(b)
  {
    var r := a + b;
    assert forall k :: 0 <= k < |a| ==> r[k] == a[k];
    assert forall k :: 0 <= k < |b| ==> r[|a| + k] == b[k];
    forall x | x in StacksOf(r) ensures x in StacksOf(a) + StacksOf(b) {
      var k :| 0 <= k < |r| && r[k].0 == x;
      if k >= |a| { assert b[k - |a|] == r[k]; }
    }
  }

  /** Two rounds of growth of the describe log: what each round added, the two rounds together added. */
  lemma FetchedGrows(f0: seq<string>, f1: seq<string>, f2: seq<string>, a: set<string>, b: set<string>)
    requires f0 <= f1 <= f2
    requires forall k :: |f0| <= k < |f1| ==> f1[k] in a
    requires forall k :: |f1| <= k < |f2| ==> f2[k] in b
    ensures f0 <= f2
    ensures forall k :: |f0| <= k < |f2| ==> f2[k] in a + b
  {
  }

  /**
   * Resolves one entry through the cache: the same result as resolving it
   * against the stacks the cache can see, with exactly the entry's request,
   * and a describe call only for the stack that request names.
   */
  method ResolveCached(name: string, raw: RawParam, cache: CachedStack) returns (r: Result<Parameter, Error>)
    requires cache.Valid()
    modifies cache
    ensures cache.Valid()
    ensures r == ResolveParam(name, raw, cache.remote)
    ensures cache.requests == old(cache.requests) + RequestCalls(name, raw)
    ensures cache.fetched == old(cache.fetched) ||
            (Request(name, raw).Some? && cache.fetched == old(cache.fetched) + [Request(name, raw).value.0])
    ensures cache.memo.Keys <= old(cache.memo).Keys + StacksOf(RequestCalls(name, raw))
    ensures old(cache.fetched) <= cache.fetched
    ensures forall k :: |old(cache.fetched)| <= k < |cache.fetched| ==> cache.fetched[k] in StacksOf(RequestCalls(name, raw))
    ensures old(cache.memo).Keys <= cache.memo.Keys
    ensures r.Ok? ==> StacksOf(RequestCalls(name, raw)) <= cache.memo.Keys
    ensures StacksOf(RequestCalls(name, raw)) * cache.remote.Keys <= cache.memo.Keys
  {
    var decoded := DecodeParam(name, raw);
    if decoded.Err? {
      return Err(decoded.error);
    }
    match decoded.value {
      case Literal(s) =>
        r := Ok(Parameter(name, s));
      case OutputRef(stack, output) =>
        var got := cache.GetOutput(stack, output.GetOr(name));
        assert RequestCalls(name, raw) == [(stack, output.GetOr(name))];
        assert StacksOf(RequestCalls(name, raw)) == {stack} by {
          assert RequestCalls(name, raw)[0].0 == stack;
        }
        if got.Err? {
          return Err(got.error);
        }
        r := Ok(Parameter(name, got.value));
    }
  }

  /**
   * The loop of `expand_parameters(cached_stack:)`: the entries are resolved one
   * after the other through the cache. The result is the expansion against the
   * stacks the cache can see; the memo only grows; on success the cache
   * received exactly the expansion's requests, holds every stack they name,
   * and described no stack those requests do not name; Valid keeps it from
   * filling the memo for any stack twice.
   */
  method ExpandEntriesCached(ps: seq<(string, RawParam)>, cache: CachedStack) returns (r: Result<seq<Parameter>, Error>)
    requires cache.Valid()
    modifies cache
    ensures cache.Valid()
    ensures r == ExpandEntries(ps, cache.remote)
    ensures r.Ok? ==> cache.requests == old(cache.requests) + Requests(ps)
    ensures r.Ok? ==> cache.memo.Keys <= old(cache.memo).Keys + StacksOf(Requests(ps))
    ensures old(cache.fetched) <= cache.fetched
    ensures r.Ok? ==> forall k :: |old(cache.fetched)| <= k < |cache.fetched| ==> cache.fetched[k] in StacksOf(Requests(ps))
    ensures old(cache.memo).Keys <= cache.memo.Keys
    ensures r.Ok? ==> StacksOf(Requests(ps)) <= cache.memo.Keys
  {
    var items: seq<Parameter> := [];
    var i := 0;
    while i < |ps|
      invariant 0 <= i <= |ps|
      invariant cache.Valid()
      invariant ExpandEntries(ps[..i], cache.remote) == Ok(items)
      invariant cache.requests == old(cache.requests) + Requests(ps[..i])
      invariant cache.memo.Keys <= old(cache.memo).Keys + StacksOf(Requests(ps[..i]))
      invariant old(cache.fetched) <= cache.fetched
      invariant forall k :: |old(cache.fetched)| <= k < |cache.fetched| ==> cache.fetched[k] in StacksOf(Requests(ps[..i]))
      invariant old(cache.memo).Keys <= cache.memo.Keys
      invariant StacksOf(Requests(ps[..i])) <= cache.memo.Keys
    {
      var (name, raw) := ps[i];
      ExpandEntriesStep(ps, i, cache.remote);
      ghost var before := cache.fetched;
      var got := ResolveCached(name, raw, cache);
      StacksOfAppend(Requests(ps[..i]), RequestCalls(name, raw));
      FetchedGrows(old(cache.fetched), before, cache.fetched, StacksOf(Requests(ps[..i])), StacksOf(RequestCalls(name, raw)));
      if got.Err? {
        ExpandEntriesPrefixErr(ps, i + 1, cache.remote);
        return Err(got.error);
      }
      items := items + [got.value];
      i := i + 1;
    }
    assert ps[..|ps|] == ps;
    r := Ok(items);
  }

  /** `expand_parameters(cached_stack:)` on a StackParams hash. */
  method ExpandParametersCached(p: Params, cache: CachedStack) returns (r: Result<Params, Error>)
    requires cache.Valid()
    modifies cache
    ensures cache.Valid()
    ensures r == ExpandParameters(p, cache.remote)
    ensures r.Ok? && p.parameters.Some? && p.parameters.value.RawParams? ==>
              cache.requests == old(cache.requests) + Requests(p.parameters.value.entries)
    ensures p.parameters.None? || p.parameters.value.ParamList? ==>
              cache.requests == old(cache.requests) && cache.memo == old(cache.memo) && cache.fetched == old(cache.fetched)
    ensures old(cache.fetched) <= cache.fetched
    ensures r.Ok? && p.parameters.Some? && p.parameters.value.RawParams? ==>
              forall k :: |old(cache.fetched)| <= k < |cache.fetched| ==>
                cache.fetched[k] in StacksOf(Requests(p.parameters.value.entries))
    ensures old(cache.memo).Keys <= cache.memo.Keys
    ensures r.Ok? && p.parameters.Some? && p.parameters.value.RawParams? ==>
              StacksOf(Requests(p.parameters.value.entries)) <= cache.memo.Keys
  {
    if p.parameters.None? || p.parameters.value.ParamList? {
      return Ok(p);
    }
    var items :- ExpandEntriesCached(p.parameters.value.entries, cache);
    r := Ok(p.(parameters := Some(ParamList(items))));
  }
}
