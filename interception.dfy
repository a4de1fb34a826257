/**
 * The interception dispatcher (the proxy's Invoke): run every aspect's Before
 * in list order, invoke the real operation once on a fresh repository, run
 * every After in the same order, and hand the real result back unchanged.
 * Nothing is caught: the first failure ends the call and is returned to the
 * caller.
 */
module Interception {
  import opened Errors
  import opened Correlation
  import opened Aspects
  import opened Repo

  /** What a call does, in order: a Before hook entered, the target invoked, an After hook entered. */
  datatype Event = Before(index: nat) | Invoked | After(index: nat)

  /** Which of the two loops over the aspects is running. */
  datatype Phase = BeforePhase(now: Timestamp) | AfterPhase

  /** How one loop over the aspects ended: it ran to the end, or the hook at `at` failed. */
  datatype Run = Completed(store: Entries) | Stopped(at: nat, error: Error, store: Entries)

  /** Everything one call on the dispatcher produces. */
  datatype Outcome = Outcome(result: Result<ReturnValue>, store: Entries, entities: seq<Entity>, trace: seq<Event>)

  function Hook(phase: Phase, a: Aspect, m: Entries): (r: Result<Entries>)
  {
    match phase
    case BeforePhase(now) => BeforeEffect(a, m, now)
    case AfterPhase => AfterEffect(a, m)
  }

  function HookEvent(phase: Phase, i: nat): (e: Event)
  {
    if phase.BeforePhase? then Before(i) else After(i)
  }

  /** The events of the first k hooks of a phase. */
  function HookEvents(phase: Phase, k: nat): (es: seq<Event>)
  {
    if k == 0 then [] else HookEvents(phase, k - 1) + [HookEvent(phase, k - 1)]
  }

  /** One foreach over the aspects, from the store contents m, stopping at the first hook that fails. */
  function RunPhase(phase: Phase, aspects: seq<Aspect>, m: Entries): (run: Run)
    decreases |aspects|
  {
    if aspects == [] then Completed(m)
    else
      var n := |aspects| - 1;
      match RunPhase(phase, aspects[..n], m)
      case Stopped(k, e, m') => Stopped(k, e, m')
      case Completed(m') =>
        match Hook(phase, aspects[n], m')
        case Ok(m'') => Completed(m'')
        case Err(e) => Stopped(n, e, m')
  }

  /** One call on the dispatcher, from store contents m and entity list s. */
  function Intercept(aspects: seq<Aspect>, call: Call, m: Entries, s: seq<Entity>, now: Timestamp): (o: Outcome)
  {
    var n := |aspects|;
    match RunPhase(BeforePhase(now), aspects, m)
    case Stopped(k, e, m1) =>
      Outcome(Err(e), m1, s, HookEvents(BeforePhase(now), k + 1))
    case Completed(m1) =>
      var step := Perform(call, s);
      var upToCall := HookEvents(BeforePhase(now), n) + [Invoked];
      if step.result.Err? then Outcome(step.result, m1, step.entities, upToCall)
      else
        match RunPhase(AfterPhase, aspects, m1)
        case Stopped(k, e, m2) => Outcome(Err(e), m2, step.entities, upToCall + HookEvents(AfterPhase, k + 1))
        case Completed(m2) => Outcome(step.result, m2, step.entities, upToCall + HookEvents(AfterPhase, n))
  }

  lemma {:induction false} HookEventsAt(phase: Phase, k: nat)
    ensures |HookEvents(phase, k)| == k
    ensures forall i :: 0 <= i < k ==> HookEvents(phase, k)[i] == HookEvent(phase, i)
  {
    if k > 0 {
      HookEventsAt(phase, k - 1);
    }
  }

  /** Once a prefix of the aspects has stopped, the whole loop stops there too. */
  lemma {:induction false} StopPersists(phase: Phase, aspects: seq<Aspect>, j: nat, m: Entries)
    requires j <= |aspects|
    requires RunPhase(phase, aspects[..j], m).Stopped?
    ensures RunPhase(phase, aspects, m) == RunPhase(phase, aspects[..j], m)
    decreases |aspects|
  {
    if j < |aspects| {
      var init := aspects[..|aspects| - 1];
      assert init[..j] == aspects[..j];
      StopPersists(phase, init, j, m);
    } else {
      assert aspects[..j] == aspects;
    }
  }

  /**
   * The before-phase runs to the end exactly when the counters' tokens are
   * distinct and none is already in the store; it then adds exactly those
   * tokens, stamped with `now`, and leaves every other entry alone.
   */
  lemma {:induction false} BeforesComplete(aspects: seq<Aspect>, m: Entries, now: Timestamp)
    ensures RunPhase(BeforePhase(now), aspects, m).Completed? <==>
      DistinctTokens(aspects) && TokenSet(aspects) !! m.Keys
    ensures RunPhase(BeforePhase(now), aspects, m).Completed? ==>
      var m1 := RunPhase(BeforePhase(now), aspects, m).store;
      m1.Keys == m.Keys + TokenSet(aspects) &&
      (forall k :: k in m ==> m1[k] == m[k]) &&
      (forall t :: t in TokenSet(aspects) ==> m1[t] == now)
    decreases |aspects|
  {
    if aspects != [] {
      var init := aspects[..|aspects| - 1];
      BeforesComplete(init, m, now);
    }
  }

  /** With distinct tokens all present, the after-phase runs to the end and removes exactly those tokens. */
  lemma {:induction false} AftersTake(aspects: seq<Aspect>, m: Entries)
    requires DistinctTokens(aspects) && TokenSet(aspects) <= m.Keys
    ensures RunPhase(AfterPhase, aspects, m) == Completed(m - TokenSet(aspects))
    decreases |aspects|
  {
    if aspects != [] {
      var init, last := aspects[..|aspects| - 1], aspects[|aspects| - 1];
      AftersTake(init, m);
      if last.PerformanceCounter? {
        assert (m - TokenSet(init)) - {last.counterId} == m - TokenSet(aspects);
      }
    }
  }

  /** A before-phase that completes is undone by the after-phase: the store returns to its prior contents. */
  lemma StoreRestored(aspects: seq<Aspect>, m: Entries, now: Timestamp)
    requires RunPhase(BeforePhase(now), aspects, m).Completed?
    ensures RunPhase(AfterPhase, aspects, RunPhase(BeforePhase(now), aspects, m).store) == Completed(m)
  {
    BeforesComplete(aspects, m, now);
    var m1 := RunPhase(BeforePhase(now), aspects, m).store;
    AftersTake(aspects, m1);
    assert m1 - TokenSet(aspects) == m;
  }

  /** A before-phase that stops does so at a performance counter whose token was already in the store. */
  lemma {:induction false} BeforeStopsOnDuplicate(aspects: seq<Aspect>, m: Entries, now: Timestamp)
    requires RunPhase(BeforePhase(now), aspects, m).Stopped?
    ensures var run := RunPhase(BeforePhase(now), aspects, m);
      run.at < |aspects| && aspects[run.at].PerformanceCounter? &&
      run.error == DuplicateToken(aspects[run.at].counterId) &&
      aspects[run.at].counterId in run.store &&
      RunPhase(BeforePhase(now), aspects[..run.at], m) == Completed(run.store)
    decreases |aspects|
  {
    var n := |aspects| - 1;
    var init := aspects[..n];
    if RunPhase(BeforePhase(now), init, m).Stopped? {
      BeforeStopsOnDuplicate(init, m, now);
      var k := RunPhase(BeforePhase(now), init, m).at;
      assert init[..k] == aspects[..k];
    } else {
      assert aspects[..n] == init;
    }
  }

  /**
   * A call that succeeds ran every Before in list order, then the target exactly
   * once, then every After in the same order; it returns the target's own result,
   * leaves the list as the target left it, and leaves the store as it found it.
   */
  lemma SuccessfulCall(aspects: seq<Aspect>, call: Call, m: Entries, s: seq<Entity>, now: Timestamp)
    requires Intercept(aspects, call, m, s, now).result.Ok?
    ensures var o, n := Intercept(aspects, call, m, s, now), |aspects|;
      o.result == Perform(call, s).result && o.entities == Perform(call, s).entities && o.store == m &&
      |o.trace| == 2 * n + 1 && o.trace[n] == Invoked &&
      forall i :: 0 <= i < n ==> o.trace[i] == Before(i) && o.trace[n + 1 + i] == After(i)
  {
    var n := |aspects|;
    StoreRestored(aspects, m, now);
    HookEventsAt(BeforePhase(now), n);
    HookEventsAt(AfterPhase, n);
  }

  /** Fresh, distinct tokens and a target that succeeds make the whole call succeed. */
  lemma CallSucceeds(aspects: seq<Aspect>, call: Call, m: Entries, s: seq<Entity>, now: Timestamp)
    requires DistinctTokens(aspects) && TokenSet(aspects) !! m.Keys
    requires Perform(call, s).result.Ok?
    ensures Intercept(aspects, call, m, s, now).result == Perform(call, s).result
  {
    BeforesComplete(aspects, m, now);
    StoreRestored(aspects, m, now);
  }

  lemma {:induction false} NoInvokedAmongHooks(phase: Phase, k: nat)
    ensures multiset(HookEvents(phase, k))[Invoked] == 0
  {
    if k > 0 {
      NoInvokedAmongHooks(phase, k - 1);
    }
  }

  /** The target is invoked at most once, and exactly when every Before succeeded. */
  lemma InvokedOnce(aspects: seq<Aspect>, call: Call, m: Entries, s: seq<Entity>, now: Timestamp)
    ensures multiset(Intercept(aspects, call, m, s, now).trace)[Invoked] ==
      if RunPhase(BeforePhase(now), aspects, m).Completed? then 1 else 0
  {
    var n := |aspects|;
    var trace := Intercept(aspects, call, m, s, now).trace;
    var before := RunPhase(BeforePhase(now), aspects, m);
    if before.Stopped? {
      assert trace == HookEvents(BeforePhase(now), before.at + 1);
      NoInvokedAmongHooks(BeforePhase(now), before.at + 1);
    } else {
      var upToCall := HookEvents(BeforePhase(now), n) + [Invoked];
      NoInvokedAmongHooks(BeforePhase(now), n);
      assert multiset(upToCall)[Invoked] == 1;
      if Perform(call, s).result.Err? {
        assert trace == upToCall;
      } else {
        var after := RunPhase(AfterPhase, aspects, before.store);
        var k := if after.Completed? then n else after.at + 1;
        assert trace == upToCall + HookEvents(AfterPhase, k);
        NoInvokedAmongHooks(AfterPhase, k);
      }
    }
  }

  /**
   * A failing Before ends the call: its error reaches the caller, the target is
   * never invoked, no After runs, and the entries earlier Befores added stay behind.
   */
  lemma BeforeFailureSkipsTarget(aspects: seq<Aspect>, call: Call, m: Entries, s: seq<Entity>, now: Timestamp)
    requires RunPhase(BeforePhase(now), aspects, m).Stopped?
    ensures var o, run := Intercept(aspects, call, m, s, now), RunPhase(BeforePhase(now), aspects, m);
      o.result == Err(run.error) && o.entities == s && o.store == run.store &&
      o.trace == HookEvents(BeforePhase(now), run.at + 1) &&
      Invoked !in o.trace && (forall i :: After(i) !in o.trace)
  {
    var run := RunPhase(BeforePhase(now), aspects, m);
    HookEventsAt(BeforePhase(now), run.at + 1);
  }

  /**
   * A failing target ends the call after every Before: its error reaches the
   * caller unchanged, no After runs, and every counter's entry stays in the store.
   */
  lemma TargetFailureSkipsAfters(aspects: seq<Aspect>, call: Call, m: Entries, s: seq<Entity>, now: Timestamp)
    requires RunPhase(BeforePhase(now), aspects, m).Completed?
    requires Perform(call, s).result.Err?
    ensures var o := Intercept(aspects, call, m, s, now);
      o.result == Perform(call, s).result && o.entities == s &&
      o.store.Keys == m.Keys + TokenSet(aspects) &&
      o.trace == HookEvents(BeforePhase(now), |aspects|) + [Invoked] &&
      forall i :: After(i) !in o.trace
  {
    BeforesComplete(aspects, m, now);
    HookEventsAt(BeforePhase(now), |aspects|);
  }

  /** With no aspect attached, the dispatcher behaves exactly like a direct call on the target. */
  lemma NoAspectsIsTransparent(call: Call, m: Entries, s: seq<Entity>, now: Timestamp)
    ensures Intercept([], call, m, s, now) ==
      Outcome(Perform(call, s).result, m, Perform(call, s).entities, [Invoked])
  {
  }

  /** A loop over two aspects, hook by hook. */
  lemma RunPhaseOfTwo(phase: Phase, a: Aspect, b: Aspect, m: Entries)
    ensures var first := Hook(phase, a, m);
      RunPhase(phase, [a, b], m) ==
        if first.Err? then Stopped(0, first.error, m)
        else if Hook(phase, b, first.value).Err? then Stopped(1, Hook(phase, b, first.value).error, first.value)
        else Completed(Hook(phase, b, first.value).value)
  {
    assert [a, b][..1] == [a];
    assert [a][..0] == [];
    var first := Hook(phase, a, m);
    assert RunPhase(phase, [a], m) == if first.Err? then Stopped(0, first.error, m) else Completed(first.value);
  }

  /** A Delete at a bad position, behind a performance counter, leaves that counter's entry in the store. */
  lemma TargetFailureLeaksEntry(token: Token, now: Timestamp)
    ensures Intercept([PerformanceCounter(token), Log], Delete(0), map[], [], now) ==
      Outcome(Err(ArgumentOutOfRange(0)), map[token := now], [], [Before(0), Before(1), Invoked])
  {
    RunPhaseOfTwo(BeforePhase(now), PerformanceCounter(token), Log, map[]);
    assert HookEvents(BeforePhase(now), 1) == [Before(0)];
  }

  /** Two counters drawing the same token: the second Before fails and the first one's entry is orphaned. */
  lemma DuplicateTokenLeaksEntry(token: Token, call: Call, s: seq<Entity>, now: Timestamp)
    ensures Intercept([PerformanceCounter(token), PerformanceCounter(token)], call, map[], s, now) ==
      Outcome(Err(DuplicateToken(token)), map[token := now], s, [Before(0), Before(1)])
  {
    RunPhaseOfTwo(BeforePhase(now), PerformanceCounter(token), PerformanceCounter(token), map[]);
    assert HookEvents(BeforePhase(now), 1) == [Before(0)];
  }

  /** Two creations in a row on an empty repository, each with a fresh counter token, return IDs 1 and 2. */
  lemma TwoCreations(t1: Token, t2: Token, now: Timestamp)
    ensures var first := Intercept([PerformanceCounter(t1), Log], Add("Arthur", "Schopenhauer"), map[], [], now);
      var second := Intercept([PerformanceCounter(t2), Log], Add("Gustave", "Le bon"), first.store, first.entities, now);
      first.result == Ok(EntityValue(Entity(1, "Arthur", "Schopenhauer"))) && first.store == map[] &&
      first.trace == [Before(0), Before(1), Invoked, After(0), After(1)] &&
      second.result == Ok(EntityValue(Entity(2, "Gustave", "Le bon"))) && second.store == map[] &&
      second.trace == [Before(0), Before(1), Invoked, After(0), After(1)]
  {
    forall t: Token, call: Call, s: seq<Entity> | Perform(call, s).result.Ok?
      ensures Intercept([PerformanceCounter(t), Log], call, map[], s, now).result == Perform(call, s).result
      ensures Intercept([PerformanceCounter(t), Log], call, map[], s, now).store == map[]
      ensures Intercept([PerformanceCounter(t), Log], call, map[], s, now).entities == Perform(call, s).entities
    {
      var aspects := [PerformanceCounter(t), Log];
      RunPhaseOfTwo(BeforePhase(now), PerformanceCounter(t), Log, map[]);
      CallSucceeds(aspects, call, map[], s, now);
      SuccessfulCall(aspects, call, map[], s, now);
    }
    var aspects := [PerformanceCounter(t1), Log];
    RunPhaseOfTwo(BeforePhase(now), PerformanceCounter(t1), Log, map[]);
    CallSucceeds(aspects, Add("Arthur", "Schopenhauer"), map[], [], now);
    SuccessfulCall(aspects, Add("Arthur", "Schopenhauer"), map[], [], now);
    var first := Intercept(aspects, Add("Arthur", "Schopenhauer"), map[], [], now);
    assert first.trace == [Before(0), Before(1), Invoked, After(0), After(1)];
    var aspects2 := [PerformanceCounter(t2), Log];
    RunPhaseOfTwo(BeforePhase(now), PerformanceCounter(t2), Log, map[]);
    CallSucceeds(aspects2, Add("Gustave", "Le bon"), map[], first.entities, now);
    SuccessfulCall(aspects2, Add("Gustave", "Le bon"), map[], first.entities, now);
  }

  /** The proxy: it owns the correlation store and the entity list, and records what each call does. */
  class Dispatcher {
    const store: CorrelationStore<Timestamp>
    const db: DB
    ghost var trace: seq<Event>

    constructor ()
      ensures fresh(store) && fresh(db)
      ensures store.entries == map[] && db.entities == [] && trace == []
    {
      store := new CorrelationStore();
      db := new DB();
      trace := [];
    }

    /** Call the real operation on a fresh repository; a void operation yields no value. */
    method InvokeTarget(call: Call) returns (r: Result<ReturnValue>)
      modifies db
      ensures Step(r, db.entities) == Perform(call, old(db.entities))
    {
      var target := new Repository(db);
      match call
      case Add(name, lastName) =>
        var e := target.Add(name, lastName);
        r := Ok(EntityValue(e));
      case Delete(id) =>
        var deleted := target.Delete(id);
        r := if deleted.Ok? then Ok(BoolValue(deleted.value)) else Err(deleted.error);
      case GetAll =>
        var all := target.GetAll();
        r := Ok(EntityList(all));
      case ReIndex =>
        target.ReIndex();
        r := Ok(NoValue);
      case Update(id, name, lastName) =>
        var updated := target.Update(id, name, lastName);
        r := if updated.Ok? then Ok(NoValue) else Err(updated.error);
    }

    /** One foreach over the aspects: enter each hook of the phase in list order, stopping at the first failure. */
    method RunHooks(phase: Phase, aspects: seq<Aspect>) returns (r: Result<()>)
      modifies this, store
      ensures var run := RunPhase(phase, aspects, old(store.entries));
        store.entries == run.store && (r.Ok? <==> run.Completed?) &&
        (run.Stopped? ==> r == Err(run.error)) &&
        trace == old(trace) + HookEvents(phase, if run.Completed? then |aspects| else run.at + 1)
    {
      ghost var m0, t0 := store.entries, trace;
      var i := 0;
      while i < |aspects|
        invariant 0 <= i <= |aspects|
        invariant RunPhase(phase, aspects[..i], m0) == Completed(store.entries)
        invariant trace == t0 + HookEvents(phase, i)
      {
        trace := trace + [HookEvent(phase, i)];
        var hooked;
        if phase.BeforePhase? {
          hooked := BeforeHook(aspects[i], store, phase.now);
        } else {
          hooked := AfterHook(aspects[i], store);
        }
        assert aspects[..i + 1][..i] == aspects[..i];
        if hooked.Err? {
          StopPersists(phase, aspects, i + 1, m0);
          return Err(hooked.error);
        }
        i := i + 1;
      }
      assert aspects[..i] == aspects;
      r := Ok(());
    }

    /** Intercept one call: every Before in order, the target once, every After in the same order. */
    method Invoke(aspects: seq<Aspect>, call: Call, now: Timestamp) returns (r: Result<ReturnValue>)
      modifies this, store, db
      ensures var o := Intercept(aspects, call, old(store.entries), old(db.entities), now);
        r == o.result && store.entries == o.store && db.entities == o.entities && trace == old(trace) + o.trace
    {
      var before := RunHooks(BeforePhase(now), aspects);
      if before.Err? {
        return Err(before.error);
      }
      var result := InvokeTarget(call);
      trace := trace + [Invoked];
      if result.Err? {
        return result;
      }
      var after := RunHooks(AfterPhase, aspects);
      if after.Err? {
        return Err(after.error);
      }
      r := result;
    }
  }
}
