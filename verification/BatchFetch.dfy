/** The batch fetch with 413 bisection (octo_search_fetch.go). A request that is too large
    is split by channel first, then by time window; what cannot be split is skipped. */
module BatchFetch {
  import opened GoText

  const OCTO_SEARCH_BATCH_SIZE := 30
  const OCTO_SEARCH_MIN_WINDOW_SEC := 21600

  datatype Message = Message(channelId: string, messageSeq: int, timestamp: int, content: string)

  /** The result of submitting, polling and downloading one request (runOneBatch). */
  datatype Reply = Rows(msgs: seq<Message>) | TooLarge | Isolable | Fatal

  /** The remote service: the recursion never sends the same request twice, so a function
      of the request is a fully general oracle. */
  type Service = (seq<string>, int, int) -> Reply

  datatype Outcome = Done(msgs: seq<Message>) | Failed(fatal: bool)

  function SplitBatch(chs: seq<string>): (r: (seq<seq<string>>, bool))
    ensures r.1 <==> |chs| >= 2
    ensures Flatten(r.0) == chs
    ensures r.1 ==> |r.0| == 2 && 1 <= |r.0[0]| < |chs| && 1 <= |r.0[1]| < |chs| && r.0[0] + r.0[1] == chs
  {
    if chs == [] then ([], false)
    else if |chs| == 1 then
      FlattenOne(chs);
      ([chs], false)
    else
      var mid := |chs| / 2;
      FlattenTwo(chs[..mid], chs[mid..]);
      ([chs[..mid], chs[mid..]], true)
  }

  function Window(lo: int, hi: int): nat {
    if hi > lo then hi - lo else 0
  }

  /** A failed half is dropped, a fatal one aborts; the second half is not submitted
      after a fatal first half. */
  function Combine(a: Outcome, b: Outcome): Outcome {
    if a == Failed(true) || b == Failed(true) then Failed(true)
    else Done((if a.Done? then a.msgs else []) + (if b.Done? then b.msgs else []))
  }

  function RunBatchWithSplit(svc: Service, chs: seq<string>, lo: int, hi: int): Outcome
    decreases |chs|, Window(lo, hi), 1
  {
    match svc(chs, lo, hi)
    case Rows(msgs) => Done(msgs)
    case Isolable => Failed(false)
    case Fatal => Failed(true)
    case TooLarge =>
      var (parts, splittable) := SplitBatch(chs);
      if splittable then
        Combine(RunBatchWithSplit(svc, parts[0], lo, hi), RunBatchWithSplit(svc, parts[1], lo, hi))
      else
        RunWithTimeWindowSplit(svc, chs, lo, hi)
  }

  function RunWithTimeWindowSplit(svc: Service, chs: seq<string>, lo: int, hi: int): Outcome
    decreases |chs|, Window(lo, hi), 0
  {
    if hi - lo <= OCTO_SEARCH_MIN_WINDOW_SEC then Done([])
    else
      var mid := lo + (hi - lo) / 2;
      Combine(RunBatchWithSplit(svc, chs, lo, mid), RunBatchWithSplit(svc, chs, mid + 1, hi))
  }

  // ----- The leaf requests of a run -----

  datatype Fate = Served | Isolated | Skipped
  datatype Leaf = Leaf(chs: seq<string>, lo: int, hi: int, fate: Fate)

  function Leaves(svc: Service, chs: seq<string>, lo: int, hi: int): seq<Leaf>
    decreases |chs|, Window(lo, hi)
  {
    match svc(chs, lo, hi)
    case Rows(_) => [Leaf(chs, lo, hi, Served)]
    case Isolable => [Leaf(chs, lo, hi, Isolated)]
    case Fatal => [Leaf(chs, lo, hi, Isolated)]
    case TooLarge =>
      var (parts, splittable) := SplitBatch(chs);
      if splittable then Leaves(svc, parts[0], lo, hi) + Leaves(svc, parts[1], lo, hi)
      else if hi - lo <= OCTO_SEARCH_MIN_WINDOW_SEC then [Leaf(chs, lo, hi, Skipped)]
      else
        var mid := lo + (hi - lo) / 2;
        Leaves(svc, chs, lo, mid) + Leaves(svc, chs, mid + 1, hi)
  }

  predicate Covers(l: Leaf, channel: string, time: int) {
    channel in l.chs && l.lo <= time <= l.hi
  }

  /** How many leaves cover a point of channels x time. */
  function CoverCount(leaves: seq<Leaf>, channel: string, time: int): nat {
    if leaves == [] then 0
    else (if Covers(leaves[0], channel, time) then 1 else 0) + CoverCount(leaves[1..], channel, time)
  }

  function ServedCount(leaves: seq<Leaf>, channel: string, time: int): (n: nat)
    ensures n <= CoverCount(leaves, channel, time)
  {
    if leaves == [] then 0
    else (if leaves[0].fate == Served && Covers(leaves[0], channel, time) then 1 else 0) + ServedCount(leaves[1..], channel, time)
  }

  lemma {:induction false} CountsAppend(a: seq<Leaf>, b: seq<Leaf>, channel: string, time: int)
    ensures CoverCount(a + b, channel, time) == CoverCount(a, channel, time) + CoverCount(b, channel, time)
    ensures ServedCount(a + b, channel, time) == ServedCount(a, channel, time) + ServedCount(b, channel, time)
  {
    if a == [] {
      assert a + b == b;
    } else {
      assert (a + b)[1..] == a[1..] + b;
      CountsAppend(a[1..], b, channel, time);
    }
  }

  lemma {:induction false} HalvesDisjoint(chs: seq<string>, a: seq<string>, b: seq<string>, channel: string)
    requires Distinct(chs) && a + b == chs
    ensures Distinct(a) && Distinct(b)
    ensures channel in chs <==> channel in a || channel in b
    ensures !(channel in a && channel in b)
  {
    forall i, j | 0 <= i < j < |a| ensures a[i] != a[j] { assert chs[i] == a[i] && chs[j] == a[j]; }
    forall i, j | 0 <= i < j < |b| ensures b[i] != b[j] { assert chs[|a| + i] == b[i] && chs[|a| + j] == b[j]; }
    forall i, j | 0 <= i < |a| && 0 <= j < |b| ensures a[i] != b[j] {
      assert a[i] == chs[i] && b[j] == chs[|a| + j];
    }
  }

  /** The leaves partition the request: every point of channels x [lo, hi] lies in
      exactly one leaf, and no leaf reaches outside. */
  lemma {:induction false} LeavesPartition(svc: Service, chs: seq<string>, lo: int, hi: int, channel: string, time: int)
    requires Distinct(chs)
    ensures CoverCount(Leaves(svc, chs, lo, hi), channel, time) == if channel in chs && lo <= time <= hi then 1 else 0
    decreases |chs|, Window(lo, hi)
  {
    hide SplitBatch, Distinct, Leaves, CoverCount;
    LeavesUnfold(svc, chs, lo, hi);
    var (parts, splittable) := SplitBatch(chs);
    if !svc(chs, lo, hi).TooLarge? || (!splittable && hi - lo <= OCTO_SEARCH_MIN_WINDOW_SEC) {
      OneLeafCovers(Leaves(svc, chs, lo, hi)[0], channel, time);
    } else if splittable {
      HalvesDisjoint(chs, parts[0], parts[1], channel);
      LeavesPartition(svc, parts[0], lo, hi, channel, time);
      LeavesPartition(svc, parts[1], lo, hi, channel, time);
      CountsAppend(Leaves(svc, parts[0], lo, hi), Leaves(svc, parts[1], lo, hi), channel, time);
    } else {
      var mid := lo + (hi - lo) / 2;
      LeavesPartition(svc, chs, lo, mid, channel, time);
      LeavesPartition(svc, chs, mid + 1, hi, channel, time);
      CountsAppend(Leaves(svc, chs, lo, mid), Leaves(svc, chs, mid + 1, hi), channel, time);
    }
  }

  lemma {:induction false} OneLeafCovers(l: Leaf, channel: string, time: int)
    ensures CoverCount([l], channel, time) == if Covers(l, channel, time) then 1 else 0
  {
    assert [l][1..] == [];
  }

  /** One level of the recursion. */
  lemma {:induction false} LeavesUnfold(svc: Service, chs: seq<string>, lo: int, hi: int)
    ensures var (parts, splittable) := SplitBatch(chs);
            var leaves := Leaves(svc, chs, lo, hi);
      if !svc(chs, lo, hi).TooLarge? || (!splittable && hi - lo <= OCTO_SEARCH_MIN_WINDOW_SEC) then
        |leaves| == 1 && leaves == [leaves[0]] && leaves[0].chs == chs && leaves[0].lo == lo && leaves[0].hi == hi
      else if splittable then leaves == Leaves(svc, parts[0], lo, hi) + Leaves(svc, parts[1], lo, hi)
      else leaves == Leaves(svc, chs, lo, lo + (hi - lo) / 2) + Leaves(svc, chs, lo + (hi - lo) / 2 + 1, hi)
  {
    hide SplitBatch;
  }

  /** A store that answers a served request with exactly the matching messages. */
  ghost predicate Faithful(svc: Service, db: set<Message>) {
    forall chs, lo, hi, m: Message :: svc(chs, lo, hi).Rows? ==>
      multiset(svc(chs, lo, hi).msgs)[m] == if m in db && m.channelId in chs && lo <= m.timestamp <= hi then 1 else 0
  }

  /** What a finished request returned: a message appears once for every served leaf that
      covers it, and nothing else appears. */
  ghost predicate Accounted(out: Outcome, leaves: seq<Leaf>, db: set<Message>, m: Message) {
    match out
    case Failed(fatal) => fatal || ServedCount(leaves, m.channelId, m.timestamp) == 0
    case Done(msgs) => multiset(msgs)[m] == if m in db then ServedCount(leaves, m.channelId, m.timestamp) else 0
  }

  lemma {:induction false} CombineAccounted(a: Outcome, la: seq<Leaf>, b: Outcome, lb: seq<Leaf>, db: set<Message>, m: Message)
    requires Accounted(a, la, db, m) && Accounted(b, lb, db, m)
    ensures Accounted(Combine(a, b), la + lb, db, m)
  {
    CountsAppend(la, lb, m.channelId, m.timestamp);
  }

  lemma {:induction false} RunIsAccounted(svc: Service, db: set<Message>, chs: seq<string>, lo: int, hi: int, m: Message)
    requires Faithful(svc, db)
    ensures Accounted(RunBatchWithSplit(svc, chs, lo, hi), Leaves(svc, chs, lo, hi), db, m)
    decreases |chs|, Window(lo, hi)
  {
    match svc(chs, lo, hi)
    case Rows(msgs) =>
      assert multiset(svc(chs, lo, hi).msgs)[m] == if m in db && m.channelId in chs && lo <= m.timestamp <= hi then 1 else 0;
    case Isolable =>
    case Fatal =>
    case TooLarge =>
      var (parts, splittable) := SplitBatch(chs);
      if splittable {
        RunIsAccounted(svc, db, parts[0], lo, hi, m);
        RunIsAccounted(svc, db, parts[1], lo, hi, m);
        CombineAccounted(RunBatchWithSplit(svc, parts[0], lo, hi), Leaves(svc, parts[0], lo, hi),
                         RunBatchWithSplit(svc, parts[1], lo, hi), Leaves(svc, parts[1], lo, hi), db, m);
      } else if hi - lo > OCTO_SEARCH_MIN_WINDOW_SEC {
        var mid := lo + (hi - lo) / 2;
        RunIsAccounted(svc, db, chs, lo, mid, m);
        RunIsAccounted(svc, db, chs, mid + 1, hi, m);
        CombineAccounted(RunBatchWithSplit(svc, chs, lo, mid), Leaves(svc, chs, lo, mid),
                         RunBatchWithSplit(svc, chs, mid + 1, hi), Leaves(svc, chs, mid + 1, hi), db, m);
      }
  }

  // ----- How many requests a run submits -----

  function Submissions(svc: Service, chs: seq<string>, lo: int, hi: int): nat
    decreases |chs|, Window(lo, hi)
  {
    1 + if !svc(chs, lo, hi).TooLarge? then 0
        else
          var (parts, splittable) := SplitBatch(chs);
          if splittable then
            Submissions(svc, parts[0], lo, hi)
            + if RunBatchWithSplit(svc, parts[0], lo, hi) == Failed(true) then 0 else Submissions(svc, parts[1], lo, hi)
          else if hi - lo <= OCTO_SEARCH_MIN_WINDOW_SEC then 0
          else
            var mid := lo + (hi - lo) / 2;
            Submissions(svc, chs, lo, mid)
            + if RunBatchWithSplit(svc, chs, lo, mid) == Failed(true) then 0 else Submissions(svc, chs, mid + 1, hi)
  }

  /** Half-minimum windows in an inclusive window, at least one. */
  function Slots(lo: int, hi: int): (n: nat)
    ensures n >= 1
  {
    var k := (hi - lo + 1) / 10800;
    if k < 1 then 1 else k
  }

  lemma {:induction false} SlotsOfHalves(lo: int, hi: int)
    requires hi - lo > OCTO_SEARCH_MIN_WINDOW_SEC
    ensures var mid := lo + (hi - lo) / 2; Slots(lo, mid) + Slots(mid + 1, hi) <= Slots(lo, hi)
  {
  }

  lemma {:induction false} MulSplit(a: nat, b: nat, f: nat)
    ensures (a + b) * f == a * f + b * f
  {
  }

  /** The submission bound. */
  lemma {:induction false} SubmissionBound(svc: Service, chs: seq<string>, lo: int, hi: int)
    requires |chs| >= 1
    ensures Submissions(svc, chs, lo, hi) <= 2 * (|chs| * Slots(lo, hi)) - 1
    decreases |chs|, Window(lo, hi)
  {
    AtLeastOneSlot(|chs|, Slots(lo, hi));
    if svc(chs, lo, hi).TooLarge? {
      var (parts, splittable) := SplitBatch(chs);
      if splittable {
        SubmissionBound(svc, parts[0], lo, hi);
        SubmissionBound(svc, parts[1], lo, hi);
        AtLeastOneSlot(|parts[1]|, Slots(lo, hi));
        MulSplit(|parts[0]|, |parts[1]|, Slots(lo, hi));
        assert |parts[0]| + |parts[1]| == |chs|;
      } else if hi - lo > OCTO_SEARCH_MIN_WINDOW_SEC {
        var mid := lo + (hi - lo) / 2;
        SubmissionBound(svc, chs, lo, mid);
        SubmissionBound(svc, chs, mid + 1, hi);
        SlotsOfHalves(lo, hi);
        OneChannel(Slots(lo, mid));
        OneChannel(Slots(mid + 1, hi));
        OneChannel(Slots(lo, hi));
      }
    }
  }

  lemma {:induction false} AtLeastOneSlot(c: nat, f: nat)
    requires c >= 1 && f >= 1
    ensures c * f >= 1
  {
    MulSplit(1, c - 1, f);
  }

  lemma {:induction false} OneChannel(f: nat)
    ensures 1 * f == f
  {
  }

  // ----- The whole fetch -----

  datatype ChannelInfo = ChannelInfo(channelId: string, channelType: int, channelName: string)

  type Normalizer = (string, string, int) -> string

  predicate Usable(norm: Normalizer, uid: string, c: ChannelInfo) {
    c.channelId != "" && norm(c.channelId, uid, c.channelType) != ""
  }

  /** The first usable candidate with a given normalized id. */
  function FirstWithId(norm: Normalizer, uid: string, cands: seq<ChannelInfo>, id: string): Option<ChannelInfo> {
    if cands == [] then None
    else match FirstWithId(norm, uid, cands[..|cands| - 1], id)
         case Some(c) => Some(c)
         case None =>
           var c := cands[|cands| - 1];
           if Usable(norm, uid, c) && norm(c.channelId, uid, c.channelType) == id then Some(c) else None
  }

  /** The normalized ids of the usable candidates, first occurrences only, in order. */
  function NormalizedIds(norm: Normalizer, uid: string, cands: seq<ChannelInfo>): (ids: seq<string>)
    ensures Distinct(ids)
  {
    if cands == [] then []
    else
      var ids := NormalizedIds(norm, uid, cands[..|cands| - 1]);
      var c := cands[|cands| - 1];
      var n := norm(c.channelId, uid, c.channelType);
      if Usable(norm, uid, c) && n !in ids then ids + [n] else ids
  }

  method NormalizeAndIndexCandidates(norm: Normalizer, uid: string, cands: seq<ChannelInfo>)
    returns (ids: seq<string>, byID: map<string, ChannelInfo>)
    ensures ids == NormalizedIds(norm, uid, cands) && (set id | id in ids) == byID.Keys
    ensures forall id :: id in byID <==> FirstWithId(norm, uid, cands, id).Some?
    ensures forall id :: id in byID ==> byID[id] == FirstWithId(norm, uid, cands, id).value.(channelId := id)
  {
    ids, byID := [], map[];
    for i := 0 to |cands|
      invariant ids == NormalizedIds(norm, uid, cands[..i]) && (set id | id in ids) == byID.Keys
      invariant forall id :: id in byID <==> FirstWithId(norm, uid, cands[..i], id).Some?
      invariant forall id :: id in byID ==> byID[id] == FirstWithId(norm, uid, cands[..i], id).value.(channelId := id)
    {
      var ch := cands[i];
      assert cands[..i + 1][..i] == cands[..i];
      if ch.channelId == "" { continue; }
      var n := norm(ch.channelId, uid, ch.channelType);
      if n == "" { continue; }
      if n in byID { continue; }
      byID := byID[n := ch.(channelId := n)];
      ids := ids + [n];
    }
    assert cands[..|cands|] == cands;
  }

  function Chunks(ids: seq<string>, size: nat): (batches: seq<seq<string>>)
    requires size >= 1
    ensures forall k :: 0 <= k < |batches| ==> 1 <= |batches[k]| <= size
    ensures Flatten(batches) == ids
  {
    if ids == [] then []
    else if |ids| <= size then FlattenOne(ids); [ids]
    else
      assert ids[..size] + ids[size..] == ids;
      [ids[..size]] + Chunks(ids[size..], size)
  }

  function ClampBatchSize(size: int): (sz: nat)
    ensures 1 <= sz <= OCTO_SEARCH_BATCH_SIZE
  {
    if size <= 0 || size > OCTO_SEARCH_BATCH_SIZE then OCTO_SEARCH_BATCH_SIZE else size
  }

  /** The batches cut so far are the first ones, and ids[i..] is still to be cut. */
  ghost predicate CutTo(done: seq<seq<string>>, ids: seq<string>, i: nat, size: nat)
    requires size >= 1 && i <= |ids|
  {
    done + Chunks(ids[i..], size) == Chunks(ids, size)
  }

  lemma {:induction false} CutStart(ids: seq<string>, size: nat)
    requires size >= 1
    ensures CutTo([], ids, 0, size)
  {
    assert ids[0..] == ids;
  }

  lemma {:induction false} CutStep(done: seq<seq<string>>, ids: seq<string>, i: nat, end: nat, size: nat)
    requires size >= 1 && i < |ids| && end == if i + size > |ids| then |ids| else i + size
    requires CutTo(done, ids, i, size)
    ensures CutTo(done + [ids[i..end]], ids, end, size)
  {
    var rest := ids[i..];
    assert ids[i..end] == rest[..end - i] && ids[end..] == rest[end - i..];
    ConcatAssoc(done, [ids[i..end]], Chunks(ids[end..], size));
  }

  method ChunkChannelIDs(ids: seq<string>, size: int) returns (batches: seq<seq<string>>)
    ensures batches == Chunks(ids, ClampBatchSize(size))
  {
    var sz := ClampBatchSize(size);
    batches := [];
    var i, end := 0, 0;
    CutStart(ids, sz);
    while i < |ids|
      invariant 0 <= end <= |ids| && (if i < |ids| then end == i else end == |ids|) && 0 <= i
      invariant CutTo(batches, ids, end, sz)
    {
      end := i + sz;
      if end > |ids| {
        end := |ids|;
      }
      CutStep(batches, ids, i, end, sz);
      batches := batches + [ids[i..end]];
      i := i + sz;
    }
    CutEnd(batches, ids, sz);
  }

  lemma {:induction false} CutEnd(done: seq<seq<string>>, ids: seq<string>, size: nat)
    requires size >= 1 && CutTo(done, ids, |ids|, size)
    ensures done == Chunks(ids, size)
  {
    assert ids[|ids|..] == [];
  }

  /** Go's string comparison. */
  predicate StringLess(a: string, b: string) {
    b != [] && (a == [] || a[0] < b[0] || (a[0] == b[0] && StringLess(a[1..], b[1..])))
  }

  predicate Before(a: Message, b: Message) {
    if a.channelId != b.channelId then StringLess(a.channelId, b.channelId) else a.messageSeq < b.messageSeq
  }

  lemma {:induction false} StringOrder(a: string, b: string, c: string)
    ensures !(StringLess(a, b) && StringLess(b, a))
    ensures a == b || StringLess(a, b) || StringLess(b, a)
    ensures StringLess(a, b) && StringLess(b, c) ==> StringLess(a, c)
    decreases |a| + |b| + |c|
  {
    if a != [] && b != [] {
      StringOrder(a[1..], b[1..], if c != [] then c[1..] else []);
      if a[0] == b[0] && a[1..] == b[1..] {
        assert a == [a[0]] + a[1..] == [b[0]] + b[1..] == b;
      }
    }
  }

  /** A slice the comparison of the source accepts as sorted. */
  ghost predicate Sorted(msgs: seq<Message>) {
    forall i, j :: 0 <= i < j < |msgs| ==> !Before(msgs[j], msgs[i])
  }

  ghost predicate KeysUnique(db: set<Message>) {
    forall a, b :: a in db && b in db && a.channelId == b.channelId && a.messageSeq == b.messageSeq ==> a == b
  }

  /** Sorting forgets the completion order: a set of messages with unique keys has one
      sorted listing. */
  lemma {:induction false} SortedIsUnique(xs: seq<Message>, ys: seq<Message>, db: set<Message>)
    requires KeysUnique(db) && Sorted(xs) && Sorted(ys)
    requires multiset(xs) == multiset(ys)
    requires forall m :: m in xs ==> m in db
    ensures xs == ys
  {
    if xs == [] {
      assert |multiset(ys)| == 0;
    } else {
      assert |multiset(ys)| == |multiset(xs)|;
      SameHead(xs, ys, db);
      SameTail(xs, ys);
      SortedTail(xs);
      SortedTail(ys);
      hide Sorted, KeysUnique;
      SortedIsUnique(xs[1..], ys[1..], db);
      assert xs == [xs[0]] + xs[1..] && ys == [ys[0]] + ys[1..];
    }
  }

  lemma {:induction false} SameTail(xs: seq<Message>, ys: seq<Message>)
    requires xs != [] && ys != [] && xs[0] == ys[0] && multiset(xs) == multiset(ys)
    ensures multiset(xs[1..]) == multiset(ys[1..])
  {
    assert xs == [xs[0]] + xs[1..] && ys == [ys[0]] + ys[1..];
    assert multiset(xs[1..]) == multiset(xs) - multiset{xs[0]};
    assert multiset(ys[1..]) == multiset(ys) - multiset{ys[0]};
  }

  lemma {:induction false} SortedTail(xs: seq<Message>)
    requires xs != [] && Sorted(xs)
    ensures Sorted(xs[1..])
  {
    hide Before;
    forall i, j | 0 <= i < j < |xs[1..]| ensures !Before(xs[1..][j], xs[1..][i]) {
      assert !Before(xs[j + 1], xs[i + 1]);
    }
  }

  lemma {:induction false} SameHead(xs: seq<Message>, ys: seq<Message>, db: set<Message>)
    requires KeysUnique(db) && Sorted(xs) && Sorted(ys) && xs != [] && ys != []
    requires multiset(xs) == multiset(ys)
    requires forall m :: m in xs ==> m in db
    ensures xs[0] == ys[0]
  {
    var x, y := xs[0], ys[0];
    assert x in multiset(ys) && y in multiset(xs);
    var i :| 0 <= i < |ys| && ys[i] == x;
    var j :| 0 <= j < |xs| && xs[j] == y;
    StringOrder(x.channelId, y.channelId, "");
  }

  method SortMessages(all: seq<Message>) returns (sorted: seq<Message>)
    ensures Sorted(sorted) && multiset(sorted) == multiset(all)
  {
    sorted := [];
    for i := 0 to |all|
      invariant Sorted(sorted) && multiset(sorted) == multiset(all[..i])
    {
      TakeNext(all, i);
      sorted := Insert(sorted, all[i]);
    }
    assert all[..|all|] == all;
  }

  method Insert(sorted: seq<Message>, m: Message) returns (r: seq<Message>)
    requires Sorted(sorted)
    ensures Sorted(r) && multiset(r) == multiset(sorted) + multiset{m}
  {
    var k := |sorted|;
    while k > 0 && Before(m, sorted[k - 1])
      invariant 0 <= k <= |sorted|
      invariant forall j :: k <= j < |sorted| ==> Before(m, sorted[j])
    {
      k := k - 1;
    }
    r := sorted[..k] + [m] + sorted[k..];
    assert sorted == sorted[..k] + sorted[k..];
    InsertSorted(sorted, m, k);
  }

  lemma {:induction false} InsertSorted(sorted: seq<Message>, m: Message, k: nat)
    requires Sorted(sorted) && k <= |sorted|
    requires k > 0 ==> !Before(m, sorted[k - 1])
    requires forall j :: k <= j < |sorted| ==> Before(m, sorted[j])
    ensures Sorted(sorted[..k] + [m] + sorted[k..])
  {
    var r := sorted[..k] + [m] + sorted[k..];
    forall i, j | 0 <= i < j < |r| ensures !Before(r[j], r[i]) {
      if j == k {
        // m after an element of the left part: nothing left of k exceeds sorted[k-1].
        BeforeOrder(m, sorted[i], sorted[k - 1]);
      } else if i == k {
        BeforeOrder(m, sorted[j - 1], m);
      }
    }
  }

  lemma {:induction false} BeforeOrder(a: Message, b: Message, c: Message)
    ensures !(Before(a, b) && Before(b, a))
    ensures Before(a, b) && !Before(c, b) ==> Before(a, c)
  {
    StringOrder(a.channelId, b.channelId, c.channelId);
    StringOrder(b.channelId, c.channelId, a.channelId);
    StringOrder(a.channelId, c.channelId, b.channelId);
  }

  /** The leaves of all batches together. */
  function AllLeaves(svc: Service, batches: seq<seq<string>>, lo: int, hi: int): seq<Leaf> {
    if batches == [] then []
    else AllLeaves(svc, batches[..|batches| - 1], lo, hi) + Leaves(svc, batches[|batches| - 1], lo, hi)
  }

  /** The rows of the batches among the first n that are in `done`. */
  function RowsOf(svc: Service, batches: seq<seq<string>>, lo: int, hi: int, done: set<nat>, n: nat): multiset<Message>
    requires n <= |batches|
  {
    if n == 0 then multiset{}
    else RowsOf(svc, batches, lo, hi, done, n - 1) + if n - 1 in done then RowsAt(svc, batches, lo, hi, n - 1) else multiset{}
  }

  /** What batch k contributes. */
  function RowsAt(svc: Service, batches: seq<seq<string>>, lo: int, hi: int, k: nat): multiset<Message>
    requires k < |batches|
  {
    var out := RunBatchWithSplit(svc, batches[k], lo, hi);
    if out.Done? then multiset(out.msgs) else multiset{}
  }

  lemma {:induction false} OneMoreBatch(svc: Service, batches: seq<seq<string>>, lo: int, hi: int, done: set<nat>, k: nat, n: nat)
    requires n <= |batches| && k < |batches| && k !in done
    ensures RowsOf(svc, batches, lo, hi, done + {k}, n)
         == RowsOf(svc, batches, lo, hi, done, n) + if k < n then RowsAt(svc, batches, lo, hi, k) else multiset{}
  {
    if n > 0 {
      OneMoreBatch(svc, batches, lo, hi, done, k, n - 1);
    }
  }

  predicate NoFatalBatch(svc: Service, batches: seq<seq<string>>, lo: int, hi: int) {
    forall k :: 0 <= k < |batches| ==> RunBatchWithSplit(svc, batches[k], lo, hi) != Failed(true)
  }

  datatype FetchResult = Fetched(msgs: seq<Message>) | Aborted

  /** Between two completions: `done` batches finished without a fatal error and their
      rows are collected. */
  ghost predicate Collected(svc: Service, batches: seq<seq<string>>, lo: int, hi: int, done: set<nat>, all: seq<Message>) {
    && done <= IndexSet(|batches|)
    && multiset(all) == RowsOf(svc, batches, lo, hi, done, |batches|)
    && forall k :: k in done ==> RunBatchWithSplit(svc, batches[k], lo, hi) != Failed(true)
  }

  lemma {:induction false} CollectedStep(svc: Service, batches: seq<seq<string>>, lo: int, hi: int, done: set<nat>, all: seq<Message>, k: nat)
    requires Collected(svc, batches, lo, hi, done, all)
    requires k < |batches| && k !in done && RunBatchWithSplit(svc, batches[k], lo, hi) != Failed(true)
    ensures var out := RunBatchWithSplit(svc, batches[k], lo, hi);
      Collected(svc, batches, lo, hi, done + {k}, all + if out.Done? then out.msgs else [])
  {
    OneMoreBatch(svc, batches, lo, hi, done, k, |batches|);
  }

  /** The orchestration: batches run and complete in any order; `starts` of them obtain a
      slot before the total budget runs out, the others give up. */
  method FetchViaBatch(svc: Service, norm: Normalizer, uid: string, cands: seq<ChannelInfo>, lo: int, hi: int, starts: nat)
    returns (r: FetchResult)
    ensures var batches := Chunks(NormalizedIds(norm, uid, cands), OCTO_SEARCH_BATCH_SIZE);
      r.Fetched? <==> NoFatalBatch(svc, batches, lo, hi) && |batches| <= starts
    ensures var batches := Chunks(NormalizedIds(norm, uid, cands), OCTO_SEARCH_BATCH_SIZE);
      r.Fetched? ==> Sorted(r.msgs) && multiset(r.msgs) == RowsOf(svc, batches, lo, hi, IndexSet(|batches|), |batches|)
  {
    var normIDs, infoByID := NormalizeAndIndexCandidates(norm, uid, cands);
    var batches := ChunkChannelIDs(normIDs, OCTO_SEARCH_BATCH_SIZE);
    var all := RunBatches(svc, batches, lo, hi, starts);
    if all.None? {
      return Aborted;
    }
    var sorted := SortMessages(all.value);
    return Fetched(sorted);
  }

  method RunBatches(svc: Service, batches: seq<seq<string>>, lo: int, hi: int, starts: nat) returns (r: Option<seq<Message>>)
    ensures r.Some? <==> NoFatalBatch(svc, batches, lo, hi) && |batches| <= starts
    ensures r.Some? ==> multiset(r.value) == RowsOf(svc, batches, lo, hi, IndexSet(|batches|), |batches|)
  {
    var pending := IndexSet(|batches|);
    ghost var done: set<nat> := {};
    var all: seq<Message> := [];
    var running := 0;
    RowsOfNone(svc, batches, lo, hi, |batches|);
    while pending != {}
      invariant done + pending == IndexSet(|batches|) && done !! pending
      invariant running == |done| <= starts
      invariant Collected(svc, batches, lo, hi, done, all)
    {
      var k :| k in pending;
      if running >= starts {
        assert |done + pending| == |done| + |pending|;
        return None;
      }
      running := running + 1;
      var out := RunBatchWithSplit(svc, batches[k], lo, hi);
      if out == Failed(true) {
        return None;
      }
      CollectedStep(svc, batches, lo, hi, done, all, k);
      pending, done := pending - {k}, done + {k};
      all := all + if out.Done? then out.msgs else [];
    }
    assert done == IndexSet(|batches|);
    return Some(all);
  }

  lemma {:induction false} RowsOfNone(svc: Service, batches: seq<seq<string>>, lo: int, hi: int, n: nat)
    requires n <= |batches|
    ensures RowsOf(svc, batches, lo, hi, {}, n) == multiset{}
  {
    if n > 0 {
      RowsOfNone(svc, batches, lo, hi, n - 1);
    }
  }

  // ----- What a fetch returns -----

  lemma {:induction false} AllLeavesPartition(svc: Service, batches: seq<seq<string>>, lo: int, hi: int, channel: string, time: int)
    requires Distinct(Flatten(batches))
    ensures CoverCount(AllLeaves(svc, batches, lo, hi), channel, time)
         == if channel in Flatten(batches) && lo <= time <= hi then 1 else 0
  {
    if batches != [] {
      var front, last := batches[..|batches| - 1], batches[|batches| - 1];
      assert batches == front + [last];
      FlattenAppend(front, last);
      HalvesDisjoint(Flatten(batches), Flatten(front), last, channel);
      AllLeavesPartition(svc, front, lo, hi, channel, time);
      LeavesPartition(svc, last, lo, hi, channel, time);
      CountsAppend(AllLeaves(svc, front, lo, hi), Leaves(svc, last, lo, hi), channel, time);
    }
  }

  lemma {:induction false} RowsAtFront(svc: Service, batches: seq<seq<string>>, lo: int, hi: int, k: nat)
    requires k < |batches| - 1
    ensures RowsAt(svc, batches, lo, hi, k) == RowsAt(svc, batches[..|batches| - 1], lo, hi, k)
  {
    assert batches[..|batches| - 1][k] == batches[k];
  }

  lemma {:induction false} RowsOfFront(svc: Service, batches: seq<seq<string>>, lo: int, hi: int, n: nat)
    requires n < |batches|
    ensures RowsOf(svc, batches, lo, hi, IndexSet(|batches|), n) == RowsOf(svc, batches[..|batches| - 1], lo, hi, IndexSet(|batches| - 1), n)
  {
    hide RunBatchWithSplit, RowsAt, IndexSet;
    if n > 0 {
      RowsOfFront(svc, batches, lo, hi, n - 1);
      RowsAtFront(svc, batches, lo, hi, n - 1);
    }
  }

  lemma {:induction false} RowsAreAccounted(svc: Service, db: set<Message>, batches: seq<seq<string>>, lo: int, hi: int, m: Message)
    requires Faithful(svc, db) && NoFatalBatch(svc, batches, lo, hi)
    ensures RowsOf(svc, batches, lo, hi, IndexSet(|batches|), |batches|)[m]
         == if m in db then ServedCount(AllLeaves(svc, batches, lo, hi), m.channelId, m.timestamp) else 0
  {
    if batches != [] {
      var front, last := batches[..|batches| - 1], batches[|batches| - 1];
      forall k | 0 <= k < |front| ensures RunBatchWithSplit(svc, front[k], lo, hi) != Failed(true) { assert front[k] == batches[k]; }
      RowsAreAccounted(svc, db, front, lo, hi, m);
      RunIsAccounted(svc, db, last, lo, hi, m);
      LastBatchAccounted(svc, db, batches, lo, hi, m);
    }
  }

  lemma {:induction false} LastRows(svc: Service, batches: seq<seq<string>>, lo: int, hi: int)
    requires batches != []
    ensures var n := |batches|;
      RowsOf(svc, batches, lo, hi, IndexSet(n), n)
      == RowsOf(svc, batches, lo, hi, IndexSet(n), n - 1) + RowsAt(svc, batches, lo, hi, n - 1)
  {
    hide RowsAt;
  }

  lemma {:induction false} LastRowsAccounted(svc: Service, db: set<Message>, batches: seq<seq<string>>, lo: int, hi: int, m: Message)
    requires batches != []
    requires var last := batches[|batches| - 1];
      RunBatchWithSplit(svc, last, lo, hi) != Failed(true)
      && Accounted(RunBatchWithSplit(svc, last, lo, hi), Leaves(svc, last, lo, hi), db, m)
    ensures var front, last := batches[..|batches| - 1], batches[|batches| - 1];
      && RowsAt(svc, batches, lo, hi, |batches| - 1)[m] == (if m in db then ServedCount(Leaves(svc, last, lo, hi), m.channelId, m.timestamp) else 0)
      && AllLeaves(svc, batches, lo, hi) == AllLeaves(svc, front, lo, hi) + Leaves(svc, last, lo, hi)
  {
    hide RunBatchWithSplit, Leaves, ServedCount;
  }

  lemma {:induction false} LastBatchAccounted(svc: Service, db: set<Message>, batches: seq<seq<string>>, lo: int, hi: int, m: Message)
    requires batches != []
    requires var last := batches[|batches| - 1];
      RunBatchWithSplit(svc, last, lo, hi) != Failed(true)
      && Accounted(RunBatchWithSplit(svc, last, lo, hi), Leaves(svc, last, lo, hi), db, m)
    requires var front := batches[..|batches| - 1];
      RowsOf(svc, front, lo, hi, IndexSet(|front|), |front|)[m]
      == if m in db then ServedCount(AllLeaves(svc, front, lo, hi), m.channelId, m.timestamp) else 0
    ensures RowsOf(svc, batches, lo, hi, IndexSet(|batches|), |batches|)[m]
         == if m in db then ServedCount(AllLeaves(svc, batches, lo, hi), m.channelId, m.timestamp) else 0
  {
    hide RunBatchWithSplit, Leaves, CoverCount, ServedCount, AllLeaves, RowsOf, RowsAt, Accounted, IndexSet;
    var front, last := batches[..|batches| - 1], batches[|batches| - 1];
    RowsOfFront(svc, batches, lo, hi, |front|);
    LastRows(svc, batches, lo, hi);
    LastRowsAccounted(svc, db, batches, lo, hi, m);
    CountsAppend(AllLeaves(svc, front, lo, hi), Leaves(svc, last, lo, hi), m.channelId, m.timestamp);
  }

  /** The messages the original, unsplit query asks for. */
  function Matching(db: set<Message>, ids: seq<string>, lo: int, hi: int): set<Message> {
    set m | m in db && m.channelId in ids && lo <= m.timestamp <= hi
  }

  /** Every matching message is returned exactly once unless its leaf was isolated or
      skipped; nothing else is returned. */
  lemma {:induction false} FetchIsConservative(svc: Service, db: set<Message>, ids: seq<string>, lo: int, hi: int, m: Message)
    requires Faithful(svc, db) && Distinct(ids)
    requires NoFatalBatch(svc, Chunks(ids, OCTO_SEARCH_BATCH_SIZE), lo, hi)
    ensures var batches := Chunks(ids, OCTO_SEARCH_BATCH_SIZE);
      var leaves := AllLeaves(svc, batches, lo, hi);
      var returned := m in Matching(db, ids, lo, hi)
        && ServedCount(leaves, m.channelId, m.timestamp) == CoverCount(leaves, m.channelId, m.timestamp);
      RowsOf(svc, batches, lo, hi, IndexSet(|batches|), |batches|)[m] == if returned then 1 else 0
  {
    var batches := Chunks(ids, OCTO_SEARCH_BATCH_SIZE);
    RowsAreAccounted(svc, db, batches, lo, hi, m);
    AllLeavesPartition(svc, batches, lo, hi, m.channelId, m.timestamp);
  }

  lemma {:induction false} AllServed(leaves: seq<Leaf>, channel: string, time: int)
    requires forall i :: 0 <= i < |leaves| ==> leaves[i].fate == Served
    ensures ServedCount(leaves, channel, time) == CoverCount(leaves, channel, time)
  {
    if leaves != [] {
      AllServed(leaves[1..], channel, time);
    }
  }

  /** Bisection is invisible: when every leaf is served, the fetch returns the unique
      sorted listing of the unsplit query's result, however the batches completed. */
  lemma {:induction false} BisectionEqualsUnsplitQuery(svc: Service, db: set<Message>, ids: seq<string>, lo: int, hi: int, result: seq<Message>, listing: seq<Message>)
    requires Faithful(svc, db) && Distinct(ids) && KeysUnique(db)
    requires NoFatalBatch(svc, Chunks(ids, OCTO_SEARCH_BATCH_SIZE), lo, hi)
    requires forall i :: 0 <= i < |AllLeaves(svc, Chunks(ids, OCTO_SEARCH_BATCH_SIZE), lo, hi)| ==>
               AllLeaves(svc, Chunks(ids, OCTO_SEARCH_BATCH_SIZE), lo, hi)[i].fate == Served
    requires Sorted(result) && multiset(result) == RowsOf(svc, Chunks(ids, OCTO_SEARCH_BATCH_SIZE), lo, hi,
               IndexSet(|Chunks(ids, OCTO_SEARCH_BATCH_SIZE)|), |Chunks(ids, OCTO_SEARCH_BATCH_SIZE)|)
    requires Sorted(listing) && multiset(listing) == multiset(Matching(db, ids, lo, hi))
    ensures result == listing
  {
    var batches := Chunks(ids, OCTO_SEARCH_BATCH_SIZE);
    forall m ensures multiset(result)[m] == multiset(listing)[m] {
      FetchIsConservative(svc, db, ids, lo, hi, m);
      AllServed(AllLeaves(svc, batches, lo, hi), m.channelId, m.timestamp);
    }
    assert multiset(result) == multiset(listing);
    forall m | m in result ensures m in db {
      assert m in multiset(listing);
      assert m in Matching(db, ids, lo, hi);
    }
    SortedIsUnique(result, listing, db);
  }
}
