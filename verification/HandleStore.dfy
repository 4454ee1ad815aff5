/** The request-scoped store of Map results (summary_handle_store.go). */
module HandleStore {
  import opened GoText

  const MAX_SUMMARY_HANDLES := 128
  const MAX_SUMMARY_HANDLE_TEXT := 0x80_0000
  const ANONYMOUS_MAP_FAILURE_PREFIX := "tool_call_id="

  datatype Entry = Entry(handle: string, text: string, chunkCount: int, mapStep: int)
  datatype Resolution = Resolution(entries: seq<Entry>, generation: nat)

  datatype StoreError =
    | EmptyText
    | NegativeChunkCount
    | HandleCapacity
    | TextCapacity
    | NoHandles
    | TooManyHandles
    | PendingMapFailures(count: nat)
    | EmptyHandle
    | DuplicateHandle(handle: string)
    | UnknownHandle(handle: string)
    | SameStepHandle(handle: string)
    | PartialSet(got: nat, want: nat)

  datatype Result<+T> = Ok(value: T) | Err(error: StoreError)

  /** The fields of a store as one value. */
  datatype Store = Store(
    prefix: string,
    next: nat,
    generation: nat,
    reducedGeneration: nat,
    totalTextBytes: nat,
    items: map<string, Entry>,
    mapFailures: map<string, int>)

  function HandleName(prefix: string, n: nat): (h: string)
    ensures h != ""
  {
    "map_" + prefix + "_" + Itoa(n)
  }

  /** Distinct ordinals give distinct handles. */
  lemma {:induction false} HandleNameInjective(prefix: string, m: nat, n: nat)
    requires HandleName(prefix, m) == HandleName(prefix, n)
    ensures m == n
  {
    var k := |"map_" + prefix + "_"|;
    assert HandleName(prefix, m)[k..] == Itoa(m);
    assert HandleName(prefix, n)[k..] == Itoa(n);
    AtoiItoa(m);
    AtoiItoa(n);
  }

  // ----- What the store holds, told by the log of results ever put into it -----

  function ItemsOf(log: seq<Entry>): map<string, Entry> {
    if log == [] then map[] else ItemsOf(log[..|log| - 1])[log[|log| - 1].handle := log[|log| - 1]]
  }

  function TextBytes(log: seq<Entry>): nat {
    if log == [] then 0 else TextBytes(log[..|log| - 1]) + ByteLen(log[|log| - 1].text)
  }

  /** The store is exactly the log of its puts: nothing is ever lost or replaced,
      both caps hold, and the generation counts results. */
  ghost predicate Consistent(s: Store, log: seq<Entry>) {
    && Named(s.prefix, log)
    && s.items == ItemsOf(log)
    && s.next == s.generation == |log| <= MAX_SUMMARY_HANDLES
    && s.totalTextBytes == TextBytes(log) <= MAX_SUMMARY_HANDLE_TEXT
    && s.reducedGeneration <= s.generation
  }

  predicate Listed(log: seq<Entry>, h: string) {
    exists i :: 0 <= i < |log| && log[i].handle == h
  }

  ghost predicate Named(prefix: string, log: seq<Entry>) {
    forall i :: 0 <= i < |log| ==> log[i].handle == HandleName(prefix, i + 1)
  }

  /** No name beyond the log's length is listed in it. */
  lemma {:induction false} FreshName(prefix: string, log: seq<Entry>, n: nat)
    requires Named(prefix, log) && |log| < n
    ensures !Listed(log, HandleName(prefix, n))
  {
    if i :| 0 <= i < |log| && log[i].handle == HandleName(prefix, n) {
      HandleNameInjective(prefix, i + 1, n);
    }
  }

  lemma {:induction false} ItemsOfKeys(log: seq<Entry>, h: string)
    ensures h in ItemsOf(log) <==> Listed(log, h)
    ensures h in ItemsOf(log) ==> ItemsOf(log)[h] in log && ItemsOf(log)[h].handle == h
  {
    if log != [] {
      var front, last := log[..|log| - 1], log[|log| - 1];
      assert log == front + [last];
      ItemsOfKeys(front, h);
    }
  }

  lemma {:induction false} ItemsOfSize(prefix: string, log: seq<Entry>)
    requires Named(prefix, log)
    ensures |ItemsOf(log)| == |log|
  {
    if log != [] {
      var front := log[..|log| - 1];
      assert Named(prefix, front) by {
        forall i | 0 <= i < |front| ensures front[i].handle == HandleName(prefix, i + 1) { assert front[i] == log[i]; }
      }
      ItemsOfSize(prefix, front);
      FreshName(prefix, front, |log|);
      ItemsOfKeys(front, HandleName(prefix, |log|));
    }
  }

  // ----- Operations -----

  function PutResult(s: Store, text: string, chunkCount: int): Result<string> {
    if Blank(text) then Err(EmptyText)
    else if chunkCount < 0 then Err(NegativeChunkCount)
    else if |s.items| >= MAX_SUMMARY_HANDLES then Err(HandleCapacity)
    else if s.totalTextBytes + ByteLen(text) > MAX_SUMMARY_HANDLE_TEXT then Err(TextCapacity)
    else Ok(HandleName(s.prefix, s.next + 1))
  }

  function AfterPut(s: Store, text: string, chunkCount: int, mapStep: int): Store {
    match PutResult(s, text, chunkCount)
    case Err(_) => s
    case Ok(h) =>
      s.(next := s.next + 1, generation := s.generation + 1,
         totalTextBytes := s.totalTextBytes + ByteLen(text),
         items := s.items[h := Entry(h, text, chunkCount, mapStep)])
  }

  /** A put either fails and changes nothing or extends the log by one entry whose
      handle was never issued before. */
  lemma {:induction false} PutExtendsLog(s: Store, log: seq<Entry>, text: string, chunkCount: int, mapStep: int)
    requires Consistent(s, log)
    ensures var r := PutResult(s, text, chunkCount);
            var s' := AfterPut(s, text, chunkCount, mapStep);
            match r
            case Err(_) => s' == s
            case Ok(h) => h !in s.items && Consistent(s', log + [Entry(h, text, chunkCount, mapStep)])
  {
    if PutResult(s, text, chunkCount).Ok? {
      FreshName(s.prefix, log, s.next + 1);
      ItemsOfSize(s.prefix, log);
      ItemsOfKeys(log, HandleName(s.prefix, s.next + 1));
      LogGrows(s.prefix, log, Entry(HandleName(s.prefix, s.next + 1), text, chunkCount, mapStep));
    }
  }

  lemma {:induction false} LogGrows(prefix: string, log: seq<Entry>, e: Entry)
    requires Named(prefix, log) && e.handle == HandleName(prefix, |log| + 1)
    ensures Named(prefix, log + [e])
    ensures ItemsOf(log + [e]) == ItemsOf(log)[e.handle := e]
    ensures TextBytes(log + [e]) == TextBytes(log) + ByteLen(e.text)
  {
    NamedGrows(prefix, log, e);
    TotalsGrow(log, e);
  }

  lemma {:induction false} NamedGrows(prefix: string, log: seq<Entry>, e: Entry)
    requires Named(prefix, log) && e.handle == HandleName(prefix, |log| + 1)
    ensures Named(prefix, log + [e])
  {
    forall i | 0 <= i < |log + [e]| ensures (log + [e])[i].handle == HandleName(prefix, i + 1) {
      if i < |log| { assert (log + [e])[i] == log[i]; }
    }
  }

  lemma {:induction false} TotalsGrow(log: seq<Entry>, e: Entry)
    ensures ItemsOf(log + [e]) == ItemsOf(log)[e.handle := e]
    ensures TextBytes(log + [e]) == TextBytes(log) + ByteLen(e.text)
  {
    assert (log + [e])[..|log|] == log;
  }

  /** The first handle the resolution loop objects to, if any. */
  function FirstObjection(s: Store, handles: seq<string>, k: nat, reduceStep: int): Option<StoreError>
    requires k <= |handles|
    decreases |handles| - k
  {
    if k == |handles| then None
    else if handles[k] == "" then Some(EmptyHandle)
    else if handles[k] in handles[..k] then Some(DuplicateHandle(handles[k]))
    else if handles[k] !in s.items then Some(UnknownHandle(handles[k]))
    else if reduceStep > 0 && s.items[handles[k]].mapStep >= reduceStep then Some(SameStepHandle(handles[k]))
    else FirstObjection(s, handles, k + 1, reduceStep)
  }

  function Lookup(s: Store, handles: seq<string>): seq<Entry>
    requires forall h :: h in handles ==> h in s.items
  {
    seq(|handles|, i requires 0 <= i < |handles| => s.items[handles[i]])
  }

  lemma {:induction false} NoObjection(s: Store, handles: seq<string>, k: nat, reduceStep: int)
    requires k <= |handles|
    requires FirstObjection(s, handles, k, reduceStep).None?
    ensures forall i :: k <= i < |handles| ==>
              handles[i] != "" && handles[i] !in handles[..i] && handles[i] in s.items &&
              (reduceStep > 0 ==> s.items[handles[i]].mapStep < reduceStep)
    decreases |handles| - k
  {
    if k < |handles| {
      NoObjection(s, handles, k + 1, reduceStep);
    }
  }

  function ResolveResult(s: Store, handles: seq<string>, reduceStep: int): (r: Result<Resolution>) {
    if handles == [] then Err(NoHandles)
    else if |handles| > MAX_SUMMARY_HANDLES then Err(TooManyHandles)
    else if |s.mapFailures| > 0 then Err(PendingMapFailures(|s.mapFailures|))
    else
      match FirstObjection(s, handles, 0, reduceStep)
      case Some(e) => Err(e)
      case None =>
        if |handles| != |s.items| then Err(PartialSet(|handles|, |s.items|))
        else NoObjection(s, handles, 0, reduceStep); Ok(Resolution(Lookup(s, handles), s.generation))
  }

  lemma {:induction false} DistinctCardinality<T>(xs: seq<T>)
    requires Distinct(xs)
    ensures |set x | x in xs| == |xs|
  {
    if xs == [] {
      assert (set x | x in xs) == {};
    } else {
      var n := |xs| - 1;
      DistinctCardinality(xs[..n]);
      assert (set x | x in xs) == (set x | x in xs[..n]) + {xs[n]};
    }
  }

  lemma {:induction false} SubsetOfSameSize<T>(a: set<T>, b: set<T>)
    requires a <= b && |a| == |b|
    ensures a == b
  {
    assert |b - a| == |b| - |a|;
  }

  /** Reduce consumes every Map result or nothing: a resolution succeeds if and only if
      no Map failure is pending, there is something to reduce, and the handles are a
      duplicate-free listing of exactly the stored handles, all from earlier steps. */
  lemma {:induction false} ResolveIsComplete(s: Store, log: seq<Entry>, handles: seq<string>, reduceStep: int)
    requires Consistent(s, log)
    ensures ResolveResult(s, handles, reduceStep).Ok? <==>
            && s.mapFailures == map[]
            && handles != []
            && Distinct(handles)
            && (set h | h in handles) == s.items.Keys
            && (reduceStep > 0 ==> forall h :: h in s.items ==> s.items[h].mapStep < reduceStep)
    ensures ResolveResult(s, handles, reduceStep).Ok? ==>
              var r := ResolveResult(s, handles, reduceStep).value;
              && r.generation == s.generation
              && |r.entries| == |handles|
              && forall i :: 0 <= i < |handles| ==> handles[i] in s.items && r.entries[i] == s.items[handles[i]] && r.entries[i].handle == handles[i]
  {
    var all := set h | h in handles;
    ItemsOfSize(s.prefix, log);
    forall h | h in s.items ensures h != "" && s.items[h].handle == h {
      ItemsOfKeys(log, h);
    }
    assert |s.items| == |s.items.Keys|;
    if ResolveResult(s, handles, reduceStep).Ok? {
      NoObjection(s, handles, 0, reduceStep);
      forall i, j | 0 <= i < j < |handles| ensures handles[i] != handles[j] {
        assert handles[i] == handles[..j][i];
      }
      DistinctCardinality(handles);
      SubsetOfSameSize(all, s.items.Keys);
      assert |s.mapFailures.Keys| == 0;
      forall h | h in s.items && reduceStep > 0 ensures s.items[h].mapStep < reduceStep {
        assert h in all;
      }
    }
    if && s.mapFailures == map[] && handles != [] && Distinct(handles) && all == s.items.Keys
       && (reduceStep > 0 ==> forall h :: h in s.items ==> s.items[h].mapStep < reduceStep)
    {
      DistinctCardinality(handles);
      forall i | 0 <= i < |handles| ensures handles[i] != "" && handles[i] in s.items {
        assert handles[i] in all;
      }
      NothingToObject(s, handles, 0, reduceStep);
    }
  }

  lemma {:induction false} NothingToObject(s: Store, handles: seq<string>, k: nat, reduceStep: int)
    requires k <= |handles| && Distinct(handles)
    requires forall i :: 0 <= i < |handles| ==> handles[i] != "" && handles[i] in s.items
    requires reduceStep > 0 ==> forall h :: h in s.items ==> s.items[h].mapStep < reduceStep
    ensures FirstObjection(s, handles, k, reduceStep).None?
    decreases |handles| - k
  {
    if k < |handles| {
      NothingToObject(s, handles, k + 1, reduceStep);
    }
  }

  predicate Anonymous(target: string) {
    HasPrefix(target, ANONYMOUS_MAP_FAILURE_PREFIX)
  }

  /** A pending failure that a success in `step` may clear on another target's behalf. */
  predicate Clearable(failures: map<string, int>, target: string, step: int) {
    target in failures && Anonymous(target) && failures[target] < step
  }

  /** The outcomes MarkMapSucceeded may have; the iteration order of the failure map
      decides which anonymous failure goes. */
  ghost predicate MapSucceeded(before: map<string, int>, after: map<string, int>, target: string, step: int) {
    if target in before && before[target] < step then after == before - {target}
    else
      || (after == before && forall t :: !Clearable(before, t, step))
      || exists t :: Clearable(before, t, step) && after == before - {t}
  }

  function NeedsReduceIn(s: Store): bool {
    s.generation > s.reducedGeneration
  }

  class SummaryHandleStore {
    const prefix: string
    var next: nat
    var generation: nat
    var reducedGeneration: nat
    var totalTextBytes: nat
    var items: map<string, Entry>
    var mapFailures: map<string, int>
    ghost var log: seq<Entry>

    ghost function State(): Store
      reads this
    {
      Store(prefix, next, generation, reducedGeneration, totalTextBytes, items, mapFailures)
    }

    ghost predicate Valid()
      reads this
    {
      Consistent(State(), log)
    }

    constructor (prefix: string)
      ensures Valid() && log == []
      ensures State() == Store(prefix, 0, 0, 0, 0, map[], map[])
    {
      this.prefix := prefix;
      next, generation, reducedGeneration, totalTextBytes := 0, 0, 0, 0;
      items, mapFailures := map[], map[];
      log := [];
    }

    method PutAtStep(text: string, chunkCount: int, mapStep: int) returns (r: Result<string>)
      requires Valid()
      modifies this
      ensures Valid()
      ensures r == PutResult(old(State()), text, chunkCount)
      ensures State() == AfterPut(old(State()), text, chunkCount, mapStep)
      ensures log == if r.Ok? then old(log) + [Entry(r.value, text, chunkCount, mapStep)] else old(log)
    {
      hide ItemsOf, TextBytes, Named, ByteLen, Blank, HandleName;
      PutExtendsLog(State(), log, text, chunkCount, mapStep);
      if Blank(text) { return Err(EmptyText); }
      if chunkCount < 0 { return Err(NegativeChunkCount); }
      if |items| >= MAX_SUMMARY_HANDLES { return Err(HandleCapacity); }
      if totalTextBytes + ByteLen(text) > MAX_SUMMARY_HANDLE_TEXT { return Err(TextCapacity); }
      next := next + 1;
      var handle := HandleName(prefix, next);
      generation := generation + 1;
      totalTextBytes := totalTextBytes + ByteLen(text);
      items := items[handle := Entry(handle, text, chunkCount, mapStep)];
      log := log + [Entry(handle, text, chunkCount, mapStep)];
      return Ok(handle);
    }

    method ResolveAllBefore(handles: seq<string>, reduceStep: int) returns (r: Result<Resolution>)
      ensures r == ResolveResult(State(), handles, reduceStep)
    {
      if handles == [] { return Err(NoHandles); }
      if |handles| > MAX_SUMMARY_HANDLES { return Err(TooManyHandles); }
      if |mapFailures| > 0 { return Err(PendingMapFailures(|mapFailures|)); }
      var seen: set<string> := {};
      var entries: seq<Entry> := [];
      for k := 0 to |handles|
        invariant seen == set h | h in handles[..k]
        invariant |entries| == k
        invariant forall i :: 0 <= i < k ==> handles[i] in items && entries[i] == items[handles[i]]
        invariant FirstObjection(State(), handles, 0, reduceStep) == FirstObjection(State(), handles, k, reduceStep)
      {
        var handle := handles[k];
        if handle == "" { return Err(EmptyHandle); }
        if handle in seen { return Err(DuplicateHandle(handle)); }
        seen := seen + {handle};
        if handle !in items { return Err(UnknownHandle(handle)); }
        if reduceStep > 0 && items[handle].mapStep >= reduceStep { return Err(SameStepHandle(handle)); }
        entries := entries + [items[handle]];
        assert handles[..k + 1] == handles[..k] + [handle];
      }
      if |handles| != |items| { return Err(PartialSet(|handles|, |items|)); }
      assert entries == Lookup(State(), handles);
      return Ok(Resolution(entries, generation));
    }

    method MarkMapFailed(target: string, step: int)
      requires Valid()
      modifies this`mapFailures
      ensures Valid()
      ensures State() == old(State()).(mapFailures := old(mapFailures)[target := step])
    {
      mapFailures := mapFailures[target := step];
    }

    method MarkMapSucceeded(target: string, step: int)
      requires Valid()
      modifies this`mapFailures
      ensures Valid()
      ensures State() == old(State()).(mapFailures := mapFailures)
      ensures MapSucceeded(old(mapFailures), mapFailures, target, step)
    {
      if target in mapFailures && mapFailures[target] < step {
        mapFailures := mapFailures - {target};
        return;
      }
      // Map iteration in Go visits the keys in no particular order.
      var unvisited := mapFailures.Keys;
      while unvisited != {}
        invariant mapFailures == old(mapFailures)
        invariant forall t :: Clearable(mapFailures, t, step) ==> t in unvisited
      {
        var failedTarget :| failedTarget in unvisited;
        if Clearable(mapFailures, failedTarget, step) {
          mapFailures := mapFailures - {failedTarget};
          return;
        }
        unvisited := unvisited - {failedTarget};
      }
    }

    method MarkReduced(gen: nat)
      requires Valid()
      modifies this`reducedGeneration
      ensures Valid()
      ensures State() == if gen == old(generation) then old(State()).(reducedGeneration := gen) else old(State())
    {
      if gen == generation {
        reducedGeneration := gen;
      }
    }

    method NeedsReduce() returns (b: bool)
      ensures b == NeedsReduceIn(State())
    {
      b := generation > reducedGeneration;
    }
  }
}
