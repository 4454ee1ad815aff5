/** Whole runs of the Map/Reduce protocol: the summarize_chunk and merge_summaries calls
    of one planner step run concurrently, so every store operation is an atomic action
    and actions of one step interleave freely. */
module MapReduceProtocol {
  import opened GoText
  import opened HandleStore

  datatype Action =
    | Map(text: string, chunkCount: int)   // PutAtStep inside summarize_chunk
    | MapFails(target: string)             // MarkMapFailed after the call
    | MapSucceeds(target: string)          // MarkMapSucceeded after the call
    | BeginReduce(handles: seq<string>)    // ResolveAllBefore inside merge_summaries
    | EndReduce(k: nat)                    // MarkReduced of this step's k-th resolution
    | NextStep                             // every call of the step has returned

  /** `resolved` are this step's resolutions, `reduces` every Reduce that took effect. */
  datatype Run = Run(store: Store, log: seq<Entry>, step: nat, resolved: seq<Resolution>, reduces: seq<Resolution>)

  ghost predicate Init(r: Run) {
    && r.store == Store(r.store.prefix, 0, 0, 0, 0, map[], map[])
    && r.log == [] && r.step == 1 && r.resolved == [] && r.reduces == []
  }

  ghost predicate Next(r: Run, a: Action, r': Run) {
    match a
    case Map(text, chunkCount) =>
      var put := PutResult(r.store, text, chunkCount);
      r' == r.(store := AfterPut(r.store, text, chunkCount, r.step),
               log := if put.Ok? then r.log + [Entry(put.value, text, chunkCount, r.step)] else r.log)
    case MapFails(target) =>
      r' == r.(store := r.store.(mapFailures := r.store.mapFailures[target := r.step]))
    case MapSucceeds(target) =>
      && r' == r.(store := r.store.(mapFailures := r'.store.mapFailures))
      && MapSucceeded(r.store.mapFailures, r'.store.mapFailures, target, r.step)
    case BeginReduce(handles) =>
      var res := ResolveResult(r.store, handles, r.step);
      r' == if res.Ok? then r.(resolved := r.resolved + [res.value]) else r
    case EndReduce(k) =>
      if k < |r.resolved| && r.resolved[k].generation == r.store.generation then
        r' == r.(store := r.store.(reducedGeneration := r.store.generation), reduces := r.reduces + [r.resolved[k]])
      else r' == r
    case NextStep =>
      r' == r.(step := r.step + 1, resolved := [])
  }

  /** The completeness gate in front of every final answer. */
  ghost predicate GatePasses(s: Store) {
    s.mapFailures == map[] && !NeedsReduceIn(s)
  }

  // ----- Invariant -----

  /** What a resolution fed to Reduce: each Map result of its generation exactly once. */
  ghost predicate Covers(q: Resolution, log: seq<Entry>) {
    && q.generation <= |log|
    && multiset(q.entries) == multiset(log[..q.generation])
  }

  predicate MappedIn(log: seq<Entry>, step: nat) {
    exists i :: 0 <= i < |log| && log[i].mapStep == step
  }

  ghost predicate Inv(r: Run) {
    && Consistent(r.store, r.log)
    && 1 <= r.step
    && (forall i :: 0 <= i < |r.log| ==> r.log[i].mapStep <= r.step)
    && (forall t :: t in r.store.mapFailures ==> r.store.mapFailures[t] <= r.step)
    && (forall i :: 0 <= i < |r.resolved| ==> Covers(r.resolved[i], r.log))
    && (forall i :: 0 <= i < |r.reduces| ==> Covers(r.reduces[i], r.log))
    && (if r.reduces == [] then r.store.reducedGeneration == 0
        else r.reduces[|r.reduces| - 1].generation == r.store.reducedGeneration)
    && (MappedIn(r.log, r.step) ==>
          && NeedsReduceIn(r.store)
          && forall i :: 0 <= i < |r.resolved| ==> r.resolved[i].generation < r.store.generation)
  }

  lemma {:induction false} DistinctMultiset<T>(xs: seq<T>)
    requires Distinct(xs)
    ensures multiset(xs) == multiset(set x | x in xs)
  {
    if xs == [] {
      assert (set x | x in xs) == {};
    } else {
      var front, last := xs[..|xs| - 1], xs[|xs| - 1];
      DistinctMultiset(front);
      assert xs == front + [last];
      assert last !in front;
      assert (set x | x in xs) == (set x | x in front) + {last};
    }
  }

  lemma {:induction false} LogDistinct(s: Store, log: seq<Entry>)
    requires Consistent(s, log)
    ensures Distinct(log)
  {
    forall i, j | 0 <= i < j < |log| ensures log[i] != log[j] {
      if log[i] == log[j] { HandleNameInjective(s.prefix, i + 1, j + 1); }
    }
  }

  /** The store maps every logged handle to its own entry. */
  lemma {:induction false} StoredEntry(s: Store, log: seq<Entry>, k: nat)
    requires Consistent(s, log) && k < |log|
    ensures log[k].handle in s.items && s.items[log[k].handle] == log[k]
  {
    var h := log[k].handle;
    ItemsOfKeys(log, h);
    var i :| 0 <= i < |log| && log[i] == s.items[h];
    HandleNameInjective(s.prefix, k + 1, i + 1);
  }

  lemma {:induction false} ResolutionCovers(s: Store, log: seq<Entry>, handles: seq<string>, step: int)
    requires Consistent(s, log) && ResolveResult(s, handles, step).Ok?
    ensures Covers(ResolveResult(s, handles, step).value, log)
  {
    ResolveIsComplete(s, log, handles, step);
    var q := ResolveResult(s, handles, step).value;
    EntriesAreTheLog(s, log, handles, q.entries);
    LogDistinct(s, log);
    assert Distinct(q.entries);
    DistinctMultiset(q.entries);
    DistinctMultiset(log);
    assert log[..|log|] == log;
  }

  lemma {:induction false} EntriesAreTheLog(s: Store, log: seq<Entry>, handles: seq<string>, entries: seq<Entry>)
    requires Consistent(s, log) && (set h | h in handles) == s.items.Keys
    requires |entries| == |handles|
    requires forall i :: 0 <= i < |handles| ==> handles[i] in s.items && entries[i] == s.items[handles[i]]
    ensures (set e | e in entries) == (set e | e in log)
  {
    forall e | e in entries ensures e in log {
      var i :| 0 <= i < |entries| && entries[i] == e;
      ItemsOfKeys(log, handles[i]);
    }
    forall e | e in log ensures e in entries {
      var k :| 0 <= k < |log| && log[k] == e;
      StoredEntry(s, log, k);
      assert e.handle in (set h | h in handles);
      var i :| 0 <= i < |handles| && handles[i] == e.handle;
      assert entries[i] == e;
    }
  }

  lemma {:induction false} CoversExtends(q: Resolution, log: seq<Entry>, e: Entry)
    requires Covers(q, log)
    ensures Covers(q, log + [e])
  {
    assert (log + [e])[..q.generation] == log[..q.generation];
  }

  lemma {:induction false} InvPreserved(r: Run, a: Action, r': Run)
    requires Inv(r) && Next(r, a, r')
    ensures Inv(r')
  {
    match a
    case Map(text, chunkCount) =>
      PutExtendsLog(r.store, r.log, text, chunkCount, r.step);
      if PutResult(r.store, text, chunkCount).Ok? {
        MapPreserves(r, r', text, chunkCount);
      }
    case MapFails(_) =>
    case MapSucceeds(target) => SuccessPreserves(r, target, r');
    case BeginReduce(handles) =>
      if ResolveResult(r.store, handles, r.step).Ok? {
        BeginPreserves(r, handles, r');
      }
    case EndReduce(k) => EndPreserves(r, k, r');
    case NextStep =>
      assert forall i :: 0 <= i < |r.log| ==> r.log[i].mapStep < r'.step;
  }

  lemma {:induction false} SuccessPreserves(r: Run, target: string, r': Run)
    requires Inv(r) && Next(r, MapSucceeds(target), r')
    ensures Inv(r')
  {
    assert forall t :: t in r'.store.mapFailures ==> t in r.store.mapFailures && r'.store.mapFailures[t] == r.store.mapFailures[t];
  }

  lemma {:induction false} BeginPreserves(r: Run, handles: seq<string>, r': Run)
    requires Inv(r) && Next(r, BeginReduce(handles), r') && ResolveResult(r.store, handles, r.step).Ok?
    ensures Inv(r')
  {
    ResolutionCovers(r.store, r.log, handles, r.step);
    ResolveNeedsEarlierMaps(r, handles);
  }

  lemma {:induction false} EndPreserves(r: Run, k: nat, r': Run)
    requires Inv(r) && Next(r, EndReduce(k), r')
    ensures Inv(r')
  {
    if r' != r {
      assert r'.reduces[|r.reduces|] == r.resolved[k];
      assert !MappedIn(r.log, r.step);
    }
  }

  lemma {:induction false} ConsistentCounts(s: Store, log: seq<Entry>)
    requires Consistent(s, log)
    ensures s.generation == |log| && s.reducedGeneration <= s.generation
  {
  }

  lemma {:induction false} MapPreserves(r: Run, r': Run, text: string, chunkCount: int)
    requires Inv(r) && Next(r, Map(text, chunkCount), r') && PutResult(r.store, text, chunkCount).Ok?
    requires Consistent(r'.store, r'.log)
    ensures Inv(r')
  {
    hide Consistent;
    var e := Entry(PutResult(r.store, text, chunkCount).value, text, chunkCount, r.step);
    ConsistentCounts(r.store, r.log);
    ConsistentCounts(r'.store, r'.log);
    forall i | 0 <= i < |r.resolved| ensures Covers(r.resolved[i], r'.log) {
      CoversExtends(r.resolved[i], r.log, e);
    }
    forall i | 0 <= i < |r.reduces| ensures Covers(r.reduces[i], r'.log) {
      CoversExtends(r.reduces[i], r.log, e);
    }
  }

  /** No Reduce can start in a step that has already produced a Map result. */
  lemma {:induction false} ResolveNeedsEarlierMaps(r: Run, handles: seq<string>)
    requires Inv(r) && ResolveResult(r.store, handles, r.step).Ok?
    ensures !MappedIn(r.log, r.step)
  {
    ResolveIsComplete(r.store, r.log, handles, r.step);
    if i :| 0 <= i < |r.log| && r.log[i].mapStep == r.step {
      StoredEntry(r.store, r.log, i);
      assert false;
    }
  }

  // ----- Runs -----

  ghost predicate Behaviour(tr: seq<Run>, acts: seq<Action>) {
    && |tr| == |acts| + 1
    && Init(tr[0])
    && forall i :: 0 <= i < |acts| ==> Next(tr[i], acts[i], tr[i + 1])
  }

  lemma {:induction false} InvHolds(tr: seq<Run>, acts: seq<Action>, n: nat)
    requires Behaviour(tr, acts) && n < |tr|
    ensures Inv(tr[n])
  {
    if n > 0 {
      InvHolds(tr, acts, n - 1);
      InvPreserved(tr[n - 1], acts[n - 1], tr[n]);
    }
  }

  /** The gate opens exactly when no Map failure is pending and either nothing was mapped
      or the last Reduce that took effect was fed every Map result once. */
  lemma {:induction false} GateMeansComplete(r: Run)
    requires Inv(r)
    ensures GatePasses(r.store) <==>
            && r.store.mapFailures == map[]
            && (r.log == [] || (r.reduces != [] && multiset(r.reduces[|r.reduces| - 1].entries) == multiset(r.log)))
  {
    assert r.log[..|r.log|] == r.log;
    if r.reduces != [] {
      var q := r.reduces[|r.reduces| - 1];
      assert |multiset(q.entries)| == |multiset(r.log[..q.generation])| == q.generation;
      assert |multiset(r.log)| == |r.log|;
    }
  }

  /** Whole-run completeness: an answer accepted at the end of any run, under any
      interleaving, rests on one successful Reduce over exactly the Map results present. */
  lemma {:induction false} AcceptedAnswerIsComplete(tr: seq<Run>, acts: seq<Action>)
    requires Behaviour(tr, acts)
    requires GatePasses(tr[|acts|].store)
    ensures var r := tr[|acts|];
            && r.store.mapFailures == map[]
            && (r.log == [] || exists k :: 0 <= k < |r.reduces| && multiset(r.reduces[k].entries) == multiset(r.log))
  {
    InvHolds(tr, acts, |acts|);
    GateMeansComplete(tr[|acts|]);
    var r := tr[|acts|];
    if r.log != [] {
      assert 0 <= |r.reduces| - 1 < |r.reduces|;
    }
  }

  predicate SameStep(acts: seq<Action>, i: nat, j: nat) {
    i <= j <= |acts| && forall k :: i <= k < j ==> acts[k] != NextStep
  }

  lemma {:induction false} StepIsFixed(tr: seq<Run>, acts: seq<Action>, i: nat, j: nat)
    requires Behaviour(tr, acts) && SameStep(acts, i, j)
    ensures tr[j].step == tr[i].step && tr[i].log <= tr[j].log
    decreases j - i
  {
    if i < j {
      StepIsFixed(tr, acts, i, j - 1);
      assert Next(tr[j - 1], acts[j - 1], tr[j]);
    }
  }

  lemma {:induction false} FailurePersists(r: Run, a: Action, r': Run, target: string)
    requires Next(r, a, r') && a != NextStep
    requires target in r.store.mapFailures && r.store.mapFailures[target] == r.step
    ensures target in r'.store.mapFailures && r'.store.mapFailures[target] == r'.step
  {
    var f, f' := r.store.mapFailures, r'.store.mapFailures;
    if a.MapSucceeds? && !(a.target in f && f[a.target] < r.step) && f' != f {
      var t :| Clearable(f, t, r.step) && f' == f - {t};
    }
  }

  /** A Map failure is still pending when its step ends, whatever else that step did. */
  lemma {:induction false} FailureOutlivesItsStep(tr: seq<Run>, acts: seq<Action>, i: nat, j: nat, target: string)
    requires Behaviour(tr, acts) && i < j && SameStep(acts, i, j)
    requires acts[i] == MapFails(target)
    ensures target in tr[j].store.mapFailures && tr[j].store.mapFailures[target] == tr[j].step
    decreases j - i
  {
    var k := j - 1;
    assert Next(tr[k], acts[k], tr[k + 1]);
    if i < k {
      FailureOutlivesItsStep(tr, acts, i, k, target);
      FailurePersists(tr[k], acts[k], tr[k + 1], target);
    }
  }

  /** A Map result forces a Reduce in a later step: whatever its own step does, a Reduce
      is still due when that step ends. */
  lemma {:induction false} MapForcesLaterReduce(tr: seq<Run>, acts: seq<Action>, i: nat, j: nat)
    requires Behaviour(tr, acts) && i < j && SameStep(acts, i, j)
    requires acts[i].Map? && PutResult(tr[i].store, acts[i].text, acts[i].chunkCount).Ok?
    ensures NeedsReduceIn(tr[j].store)
  {
    assert Next(tr[i], acts[i], tr[i + 1]);
    StepIsFixed(tr, acts, i + 1, j);
    InvHolds(tr, acts, j);
    assert tr[j].log[|tr[i].log|] == tr[i + 1].log[|tr[i].log|];
    assert MappedIn(tr[j].log, tr[j].step);
  }

  /** A success clears at most one failure, its own target's or an anonymous one, and
      never one recorded in its own step. */
  lemma {:induction false} SuccessClearsAtMostOne(r: Run, target: string, r': Run)
    requires Inv(r) && Next(r, MapSucceeds(target), r')
    ensures var f, f' := r.store.mapFailures, r'.store.mapFailures;
            || f' == f
            || exists t :: t in f && (t == target || Anonymous(t)) && f[t] < r.step && f' == f - {t}
  {
    var f, f' := r.store.mapFailures, r'.store.mapFailures;
    if target in f && f[target] < r.step {
      assert f' == f - {target};
    } else if f' != f {
      var t :| Clearable(f, t, r.step) && f' == f - {t};
    }
  }

  /** A success that removes the pending failure of another target. */
  ghost predicate ClearsAnother(f: map<string, int>, f': map<string, int>, target: string, step: int) {
    MapSucceeded(f, f', target, step) && exists t :: t != target && t in f && t !in f'
  }

  /** A success may clear another call's failure exactly when it has no older failure of its
      own target to clear and another anonymous failure is older than the step. */
  lemma {:induction false} SuccessClearsAnotherIff(f: map<string, int>, target: string, step: int)
    ensures (exists f' :: ClearsAnother(f, f', target, step))
       <==> !(target in f && f[target] < step) && exists t :: t != target && Clearable(f, t, step)
  {
    if f' :| ClearsAnother(f, f', target, step) {
      var t :| t != target && t in f && t !in f';
      if !(target in f && f[target] < step) {
        assert f' != f;
        var c :| Clearable(f, c, step) && f' == f - {c};
        assert c == t;
      }
    }
    if !(target in f && f[target] < step) && exists t :: t != target && Clearable(f, t, step) {
      var t :| t != target && Clearable(f, t, step);
      var f' := f - {t};
      assert t in f && t !in f';
      assert ClearsAnother(f, f', target, step);
    }
  }

  const ANONYMOUS_CALL := "tool_call_id=call_1"
  const OTHER_CALL := "messages_1"

  /** It happens in a run: a call that failed without a handle is forgotten when a call for
      other messages succeeds in the next step. */
  lemma {:induction false} AnotherFailureCleared(prefix: string) returns (tr: seq<Run>, acts: seq<Action>)
    ensures Behaviour(tr, acts) && acts == [MapFails(ANONYMOUS_CALL), NextStep, MapSucceeds(OTHER_CALL)]
    ensures ANONYMOUS_CALL in tr[2].store.mapFailures && tr[3].store.mapFailures == map[]
    ensures ClearsAnother(tr[2].store.mapFailures, tr[3].store.mapFailures, OTHER_CALL, tr[2].step)
  {
    acts := [MapFails(ANONYMOUS_CALL), NextStep, MapSucceeds(OTHER_CALL)];
    var r0 := Run(Store(prefix, 0, 0, 0, 0, map[], map[]), [], 1, [], []);
    var r1 := r0.(store := r0.store.(mapFailures := map[ANONYMOUS_CALL := 1]));
    var r2 := r1.(step := 2);
    var r3 := r2.(store := r0.store);
    tr := [r0, r1, r2, r3];
    assert ANONYMOUS_CALL[..|ANONYMOUS_MAP_FAILURE_PREFIX|] == ANONYMOUS_MAP_FAILURE_PREFIX;
    assert OTHER_CALL[0] != ANONYMOUS_CALL[0];
    assert Clearable(r2.store.mapFailures, ANONYMOUS_CALL, 2);
    assert map[] == r2.store.mapFailures - {ANONYMOUS_CALL};
    assert r0.store.mapFailures[ANONYMOUS_CALL := 1] == r1.store.mapFailures;
    assert Next(r0, acts[0], r1) && Next(r1, acts[1], r2);
    assert MapSucceeded(r2.store.mapFailures, r3.store.mapFailures, OTHER_CALL, 2);
    assert Next(r2, acts[2], r3);
  }
}
