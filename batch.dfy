/** The dict comprehension `{name_of(c): build(c) for c in configs}` that both
    registries use to build a batch of metrics. */
module Batch {

  import opened Wrappers

  /** Builds each element left to right; the first exception aborts the whole
      comprehension; a later element with the same name replaces an earlier one. */
  function Collect<C, M, E>(cs: seq<C>, nameOf: C -> string, build: C -> Result<M, E>): Result<map<string, M>, E>
  {
    if cs == [] then Ok(map[])
    else
      var last := cs[|cs| - 1];
      match Collect(cs[..|cs| - 1], nameOf, build)
      case Err(e) => Err(e)
      case Ok(m) =>
        match build(last)
        case Err(e) => Err(e)
        case Ok(x) => Ok(m[nameOf(last) := x])
  }

  /** The names of a batch. */
  function Names<C>(cs: seq<C>, nameOf: C -> string): set<string> {
    set i | 0 <= i < |cs| :: nameOf(cs[i])
  }

  /** One more element: how the comprehension proceeds, step by step. */
  lemma CollectStep<C, M, E>(cs: seq<C>, i: nat, nameOf: C -> string, build: C -> Result<M, E>)
    requires i < |cs|
    ensures Collect(cs[..i + 1], nameOf, build) ==
      match Collect(cs[..i], nameOf, build)
      case Err(e) => Err(e)
      case Ok(m) =>
        match build(cs[i])
        case Err(e) => Err(e)
        case Ok(x) => Ok(m[nameOf(cs[i]) := x])
  {
    assert cs[..i + 1][..i] == cs[..i];
  }

  /** The comprehension succeeds exactly when every element builds. */
  lemma {:induction false} CollectOkIff<C, M, E>(cs: seq<C>, nameOf: C -> string, build: C -> Result<M, E>)
    ensures Collect(cs, nameOf, build).Ok? <==> forall i | 0 <= i < |cs| :: build(cs[i]).Ok?
  {
    if cs != [] {
      var init := cs[..|cs| - 1];
      CollectOkIff(init, nameOf, build);
      assert forall i | 0 <= i < |init| :: init[i] == cs[i];
    }
  }

  /** The error raised is that of the first element that fails to build. */
  lemma {:induction false} CollectFirstError<C, M, E>(cs: seq<C>, nameOf: C -> string, build: C -> Result<M, E>)
    requires Collect(cs, nameOf, build).Err?
    ensures exists i | 0 <= i < |cs| ::
      build(cs[i]) == Err(Collect(cs, nameOf, build).error) && forall j | 0 <= j < i :: build(cs[j]).Ok?
  {
    var init := cs[..|cs| - 1];
    assert forall i | 0 <= i < |init| :: init[i] == cs[i];
    if Collect(init, nameOf, build).Err? {
      CollectFirstError(init, nameOf, build);
      var i :| 0 <= i < |init| && build(init[i]) == Err(Collect(init, nameOf, build).error)
        && forall j | 0 <= j < i :: build(init[j]).Ok?;
      assert build(cs[i]) == Err(Collect(cs, nameOf, build).error);
    } else {
      CollectOkIff(init, nameOf, build);
      var i := |cs| - 1;
      assert build(cs[i]) == Err(Collect(cs, nameOf, build).error);
    }
  }

  /** The keys of the result are exactly the names of the batch. */
  lemma {:induction false} CollectKeys<C, M, E>(cs: seq<C>, nameOf: C -> string, build: C -> Result<M, E>)
    requires Collect(cs, nameOf, build).Ok?
    ensures Collect(cs, nameOf, build).value.Keys == Names(cs, nameOf)
  {
    if cs != [] {
      var init := cs[..|cs| - 1];
      CollectKeys(init, nameOf, build);
      assert forall i | 0 <= i < |init| :: init[i] == cs[i];
      assert Names(cs, nameOf) == Names(init, nameOf) + {nameOf(cs[|cs| - 1])};
    }
  }

  /** Under each name stands what the LAST element of that name built. */
  lemma {:induction false} CollectLastWins<C, M, E>(cs: seq<C>, i: nat, nameOf: C -> string, build: C -> Result<M, E>)
    requires Collect(cs, nameOf, build).Ok?
    requires i < |cs| && forall j | i < j < |cs| :: nameOf(cs[j]) != nameOf(cs[i])
    ensures build(cs[i]).Ok?
    ensures nameOf(cs[i]) in Collect(cs, nameOf, build).value
    ensures Collect(cs, nameOf, build).value[nameOf(cs[i])] == build(cs[i]).value
  {
    var init := cs[..|cs| - 1];
    if i < |cs| - 1 {
      assert init[i] == cs[i];
      assert forall j | i < j < |init| :: init[j] == cs[j];
      CollectLastWins(init, i, nameOf, build);
    }
  }

  /** The values built before the first failure, or all of them: what the
      comprehension has already handed to the collector registry when it stops. */
  function Built<C, M, E>(cs: seq<C>, build: C -> Result<M, E>): (r: seq<M>)
    ensures |r| <= |cs|
  {
    if cs == [] then []
    else
      var init := cs[..|cs| - 1];
      var b := Built(init, build);
      if |b| == |init| && build(cs[|cs| - 1]).Ok? then b + [build(cs[|cs| - 1]).value] else b
  }

  /** If the first `k` elements build and element `k` (if any) fails, exactly
      the first `k` values have been built. */
  lemma {:induction false} BuiltPrefix<C, M, E>(cs: seq<C>, k: nat, build: C -> Result<M, E>)
    requires k <= |cs| && forall j | 0 <= j < k :: build(cs[j]).Ok?
    requires k < |cs| ==> build(cs[k]).Err?
    ensures Built(cs, build) == seq(k, j requires 0 <= j < k => build(cs[j]).value)
  {
    if cs != [] {
      var init := cs[..|cs| - 1];
      assert forall j | 0 <= j < |init| :: init[j] == cs[j];
      if k == |cs| {
        BuiltPrefix(init, k - 1, build);
      } else {
        BuiltPrefix(init, k, build);
      }
    }
  }

  /** The comprehension stops at the first element that fails: its error is the
      result, and what was built before it stays built. */
  lemma StopsAt<C, M, E>(cs: seq<C>, i: nat, nameOf: C -> string, build: C -> Result<M, E>)
    requires i < |cs| && build(cs[i]).Err? && forall j | 0 <= j < i :: build(cs[j]).Ok?
    ensures Collect(cs, nameOf, build) == Err(build(cs[i]).error)
    ensures Built(cs, build) == Built(cs[..i], build)
  {
    BuiltPrefix(cs, i, build);
    BuiltPrefix(cs[..i], i, build);
    CollectOkIff(cs, nameOf, build);
    CollectFirstError(cs, nameOf, build);
  }

  /** One more element that builds extends what was built by its value. */
  lemma BuiltStep<C, M, E>(cs: seq<C>, i: nat, build: C -> Result<M, E>)
    requires i < |cs| && forall j | 0 <= j <= i :: build(cs[j]).Ok?
    ensures Built(cs[..i + 1], build) == Built(cs[..i], build) + [build(cs[i]).value]
  {
    BuiltPrefix(cs[..i], i, build);
    BuiltPrefix(cs[..i + 1], i + 1, build);
  }
}
