/**
 * The two aspects the repository declares on each of its operations, and their
 * Before/After hooks. Only the performance counter touches shared state: it
 * stamps its token into the correlation store before the call and takes it out
 * after. The logging aspect only writes to the console, which is not modelled.
 */
module Aspects {
  import opened Errors
  import opened Correlation

  /** A DateTime, as its tick count; the clock itself is an input. */
  type Timestamp = int

  /** The contents of the correlation store the performance counter uses. */
  type Entries = map<Token, Timestamp>

  /** An aspect instance; a performance counter carries the token it drew when it was created. */
  datatype Aspect = PerformanceCounter(counterId: Token) | Log

  /** What an aspect's Before does to the store's contents. */
  function BeforeEffect(a: Aspect, m: Entries, now: Timestamp): (r: Result<Entries>)
  {
    match a
    case Log => Ok(m)
    case PerformanceCounter(token) => Added(m, token, now)
  }

  /** What an aspect's After does to the store's contents. */
  function AfterEffect(a: Aspect, m: Entries): (r: Result<Entries>)
  {
    match a
    case Log => Ok(m)
    case PerformanceCounter(token) =>
      match Taken(m, token)
      case Ok(taken) => Ok(taken.1)
      case Err(e) => Err(e)
  }

  /** IAspect.Before on the given store; `now` stands for DateTime.Now. */
  method BeforeHook(a: Aspect, store: CorrelationStore<Timestamp>, now: Timestamp) returns (r: Result<()>)
    modifies store
    ensures r.Ok? <==> BeforeEffect(a, old(store.entries), now).Ok?
    ensures r.Ok? ==> store.entries == BeforeEffect(a, old(store.entries), now).value
    ensures r.Err? ==> r.error == BeforeEffect(a, old(store.entries), now).error && store.entries == old(store.entries)
  {
    match a
    case Log =>
      r := Ok(());
    case PerformanceCounter(token) =>
      r := store.Put(token, now);
  }

  /** IAspect.After on the given store; the measured service time is not modelled. */
  method AfterHook(a: Aspect, store: CorrelationStore<Timestamp>) returns (r: Result<()>)
    modifies store
    ensures r.Ok? <==> AfterEffect(a, old(store.entries)).Ok?
    ensures r.Ok? ==> store.entries == AfterEffect(a, old(store.entries)).value
    ensures r.Err? ==> r.error == AfterEffect(a, old(store.entries)).error && store.entries == old(store.entries)
  {
    match a
    case Log =>
      r := Ok(());
    case PerformanceCounter(token) =>
      var start := store.Take(token);
      r := if start.Ok? then Ok(()) else Err(start.error);
  }

  /** The tokens of the performance counters in a list of aspects. */
  function TokenSet(aspects: seq<Aspect>): (ts: set<Token>)
    ensures forall t :: t in ts <==> exists i :: 0 <= i < |aspects| && aspects[i] == PerformanceCounter(t)
    decreases |aspects|
  {
    if aspects == [] then {}
    else
      var init, last := aspects[..|aspects| - 1], aspects[|aspects| - 1];
      var ts := TokenSet(init) + (if last.PerformanceCounter? then {last.counterId} else {});
      assert forall i :: 0 <= i < |init| ==> aspects[i] == init[i];
      ts
  }

  /** No two performance counters in the list share a token. */
  predicate DistinctTokens(aspects: seq<Aspect>)
    decreases |aspects|
  {
    if aspects == [] then true
    else
      var init, last := aspects[..|aspects| - 1], aspects[|aspects| - 1];
      DistinctTokens(init) && (last.PerformanceCounter? ==> last.counterId !in TokenSet(init))
  }

  /** DistinctTokens says exactly that two different positions never carry the same counter token. */
  lemma {:induction false} DistinctTokensMeans(aspects: seq<Aspect>)
    ensures DistinctTokens(aspects) <==>
      forall i, j :: 0 <= i < j < |aspects| && aspects[i].PerformanceCounter? && aspects[j].PerformanceCounter?
        ==> aspects[i].counterId != aspects[j].counterId
    decreases |aspects|
  {
    if aspects != [] {
      var n := |aspects| - 1;
      var init := aspects[..n];
      DistinctTokensMeans(init);
      assert forall i :: 0 <= i < n ==> aspects[i] == init[i];
    }
  }
}
