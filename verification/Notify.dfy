/** The notification rows and the runners that race for them (notify.go). Each
    (task, kind, recipient) row is claimed by INSERT, by a failed->pending
    compare-and-set, or by reclaiming a pending row whose lease ran out; the two mark
    writes are unguarded. */
module Notify {
  import opened GoText

  /** PendingLease, in seconds. */
  const PENDING_LEASE := 300

  datatype Status = Pending | Sent | Failed
  datatype Row = Row(status: Status, attemptCount: nat, updatedAt: int)
  datatype Key = Key(taskId: int, kind: string, recipientUid: string)

  // ----- The five statements, on one row -----

  function InsertRow(row: Option<Row>, now: int): Option<Row> {
    if row.None? then Some(Row(Pending, 0, now)) else None
  }

  function RetryRow(row: Option<Row>, maxAttempts: nat, now: int): Option<Row> {
    if row.Some? && row.value.status == Failed && row.value.attemptCount < maxAttempts
    then Some(row.value.(status := Pending, updatedAt := now)) else None
  }

  function ReclaimRow(row: Option<Row>, cutoff: int, now: int): Option<Row> {
    if row.Some? && row.value.status == Pending && row.value.updatedAt < cutoff
    then Some(row.value.(updatedAt := now)) else None
  }

  function MarkRow(row: Option<Row>, sent: bool, now: int): Option<Row> {
    if row.Some? then Some(Row(if sent then Sent else Failed, row.value.attemptCount + 1, now)) else None
  }

  class NotificationTable {
    const maxAttempts: nat
    var rows: map<Key, Row>

    constructor (configured: int)
      ensures maxAttempts == (if configured < 1 then 3 else configured) && maxAttempts >= 1
      ensures rows == map[]
    {
      maxAttempts := if configured < 1 then 3 else configured;
      rows := map[];
    }

    function At(k: Key): Option<Row>
      reads this
    {
      if k in rows then Some(rows[k]) else None
    }

    /** The row at k becomes `after` when there is one; every other row is untouched. */
    twostate predicate Updated(k: Key, after: Option<Row>)
      reads this
    {
      rows == if after.Some? then old(rows)[k := after.value] else old(rows)
    }

    method Claim(k: Key, now: int) returns (claimed: bool, existing: Option<Row>)
      modifies this
      ensures claimed == InsertRow(old(At(k)), now).Some? && Updated(k, InsertRow(old(At(k)), now))
      ensures !claimed ==> existing == old(At(k)) && existing.Some?
    {
      if k in rows {
        return false, Some(rows[k]);
      }
      rows := rows[k := Row(Pending, 0, now)];
      return true, Some(rows[k]);
    }

    method ClaimRetry(k: Key, now: int) returns (won: bool)
      modifies this
      ensures won == RetryRow(old(At(k)), maxAttempts, now).Some? && Updated(k, RetryRow(old(At(k)), maxAttempts, now))
    {
      won := k in rows && rows[k].status == Failed && rows[k].attemptCount < maxAttempts;
      if won {
        rows := rows[k := rows[k].(status := Pending, updatedAt := now)];
      }
    }

    method ClaimStalePending(k: Key, cutoff: int, now: int) returns (won: bool)
      modifies this
      ensures won == ReclaimRow(old(At(k)), cutoff, now).Some? && Updated(k, ReclaimRow(old(At(k)), cutoff, now))
    {
      won := k in rows && rows[k].status == Pending && rows[k].updatedAt < cutoff;
      if won {
        rows := rows[k := rows[k].(updatedAt := now)];
      }
    }

    method Mark(k: Key, sent: bool, now: int)
      modifies this
      ensures Updated(k, MarkRow(old(At(k)), sent, now))
    {
      if k in rows {
        rows := rows[k := Row(if sent then Sent else Failed, rows[k].attemptCount + 1, now)];
      }
    }

    /** One uninterrupted pass over a row: it delivers exactly when the row is new or
        failed with budget left, and then counts one more attempt. */
    method DeliverToRecipient(k: Key, now: int, deliverySucceeds: bool) returns (delivered: bool)
      modifies this
      ensures delivered <==> old(At(k)).None? || (old(At(k)).value.status == Failed && old(At(k)).value.attemptCount < maxAttempts)
      ensures delivered ==> rows == old(rows)[k := Row(if deliverySucceeds then Sent else Failed,
                              (if old(At(k)).None? then 0 else old(At(k)).value.attemptCount) + 1, now)]
      ensures !delivered ==> rows == old(rows)
    {
      var claimed, row := Claim(k, now);
      if !claimed {
        if row.Some? && row.value.status == Failed && row.value.attemptCount < maxAttempts {
          var won := ClaimRetry(k, now);
          if !won {
            return false;
          }
        } else {
          return false;
        }
      }
      Mark(k, deliverySucceeds, now);
      return true;
    }
  }

  // ----- One row and any number of runners, sweepers and crashes -----

  /** A runner between reading the clock and issuing its claim. */
  datatype Wait =
    | Inserting(now: int)
    | Retrying(now: int)
    | Sweeping(cutoff: int)
    | Reclaiming(cutoff: int, now: int)

  datatype Stage = Owns | Delivered | Refused

  /** A runner that won a claim; `since` is the clock reading it wrote to updated_at. */
  datatype Hold = Hold(since: int, stage: Stage)

  /** `wins`, `lost` and `lostDelivered` are history counters. */
  datatype World = World(
    clock: int,
    row: Option<Row>,
    waiting: map<nat, Wait>,
    holders: map<nat, Hold>,
    wins: nat,
    lost: nat,
    lostDelivered: nat)

  datatype Action =
    | Tick(seconds: nat)
    | ReadClock(r: nat, w: Wait)
    | StartReclaim(r: nat)
    | TryClaim(r: nat)
    | Deliver(r: nat, ok: bool)
    | Mark(r: nat)
    | Crash(r: nat)

  ghost predicate Init(w: World) {
    w == World(w.clock, None, map[], map[], 0, 0, 0)
  }

  /** The clock readings a claim may start from. */
  predicate Reads(w: Wait, clock: int) {
    match w
    case Inserting(now) => now == clock
    case Retrying(now) => now == clock
    case Sweeping(cutoff) => cutoff == clock - PENDING_LEASE
    case Reclaiming(_, _) => false
  }

  function Attempted(row: Option<Row>, w: Wait, maxAttempts: nat): Option<Row> {
    match w
    case Inserting(now) => InsertRow(row, now)
    case Retrying(now) => RetryRow(row, maxAttempts, now)
    case Sweeping(_) => None
    case Reclaiming(cutoff, now) => ReclaimRow(row, cutoff, now)
  }

  function ClaimTime(w: Wait): int {
    match w
    case Inserting(now) => now
    case Retrying(now) => now
    case Sweeping(cutoff) => cutoff
    case Reclaiming(_, now) => now
  }

  /** The lease assumption: a runner acts on a claim only within the lease, or never. */
  predicate Live(h: Hold, clock: int) {
    clock <= h.since + PENDING_LEASE
  }

  predicate LiveHolder(w: World, r: nat) {
    r in w.holders && Live(w.holders[r], w.clock)
  }

  ghost predicate Claims(w: World, r: nat, w': World, maxAttempts: nat) {
    && r in w.waiting
    && var after := Attempted(w.row, w.waiting[r], maxAttempts);
       w' == if after.Some?
             then World(w.clock, after, w.waiting - {r}, w.holders[r := Hold(ClaimTime(w.waiting[r]), Owns)], w.wins + 1, w.lost, w.lostDelivered)
             else w.(waiting := w.waiting - {r})
  }

  ghost predicate Delivers(w: World, r: nat, ok: bool, w': World) {
    && LiveHolder(w, r) && w.holders[r].stage == Owns
    && w' == w.(holders := w.holders[r := w.holders[r].(stage := if ok then Delivered else Refused)])
  }

  ghost predicate Marks(w: World, r: nat, w': World) {
    && LiveHolder(w, r) && w.holders[r].stage != Owns
    && w' == w.(holders := w.holders - {r}, row := MarkRow(w.row, w.holders[r].stage == Delivered, w.clock))
  }

  /** A runner dies, overruns its lease, or fails to write its mark. */
  ghost predicate Crashes(w: World, r: nat, w': World) {
    if r in w.holders then
      w' == w.(holders := w.holders - {r}, lost := w.lost + 1,
               lostDelivered := w.lostDelivered + if w.holders[r].stage == Delivered then 1 else 0)
    else w' == w.(waiting := w.waiting - {r})
  }

  ghost predicate Next(w: World, a: Action, w': World, maxAttempts: nat) {
    match a
    case Tick(d) => w' == w.(clock := w.clock + d)
    case ReadClock(r, wait) =>
      r !in w.waiting && r !in w.holders && Reads(wait, w.clock) && w' == w.(waiting := w.waiting[r := wait])
    case StartReclaim(r) =>
      && r in w.waiting && w.waiting[r].Sweeping?
      && w' == w.(waiting := w.waiting[r := Reclaiming(w.waiting[r].cutoff, w.clock)])
    case TryClaim(r) => Claims(w, r, w', maxAttempts)
    case Deliver(r, ok) => Delivers(w, r, ok, w')
    case Mark(r) => Marks(w, r, w')
    case Crash(r) => Crashes(w, r, w')
  }

  // ----- Invariant -----

  predicate TimelyWait(w: Wait, clock: int) {
    match w
    case Inserting(now) => now <= clock
    case Retrying(now) => now <= clock
    case Sweeping(cutoff) => cutoff + PENDING_LEASE <= clock
    case Reclaiming(cutoff, now) => cutoff + PENDING_LEASE <= now <= clock
  }

  ghost predicate WaitInv(w: World) {
    && w.waiting.Keys !! w.holders.Keys
    && forall r :: r in w.waiting ==> TimelyWait(w.waiting[r], w.clock)
  }

  /** A live holder's claim is the last one: the row is pending and carries its stamp. */
  ghost predicate HoldInv(w: World) {
    && (forall r :: LiveHolder(w, r) ==> w.row.Some? && w.row.value.status == Pending && w.row.value.updatedAt == w.holders[r].since)
    && (forall r, q :: LiveHolder(w, r) && LiveHolder(w, q) ==> r == q)
  }

  predicate WithinBudget(row: Option<Row>, maxAttempts: nat) {
    row.Some? ==>
      && row.value.attemptCount <= maxAttempts
      && (row.value.status == Pending ==> row.value.attemptCount < maxAttempts)
  }

  function AttemptsOf(row: Option<Row>): nat {
    if row.Some? then row.value.attemptCount else 0
  }

  ghost predicate Conserved(w: World) {
    w.wins == AttemptsOf(w.row) + w.lost + |w.holders|
  }

  ghost predicate Inv(w: World, maxAttempts: nat) {
    WaitInv(w) && HoldInv(w) && WithinBudget(w.row, maxAttempts) && Conserved(w)
  }

  lemma {:induction false} InvPreserved(w: World, a: Action, w': World, maxAttempts: nat)
    requires maxAttempts >= 1 && Inv(w, maxAttempts) && Next(w, a, w', maxAttempts)
    ensures Inv(w', maxAttempts)
  {
    match a
    case Tick(_) =>
      forall r | LiveHolder(w', r) ensures LiveHolder(w, r) {}
    case ReadClock(_, _) => SameHolders(w, w');
    case StartReclaim(_) => SameHolders(w, w');
    case TryClaim(r) => ClaimPreserves(w, r, w', maxAttempts);
    case Deliver(r, ok) => DeliverPreserves(w, r, ok, w', maxAttempts);
    case Mark(r) => MarkPreserves(w, r, w', maxAttempts);
    case Crash(r) => CrashPreserves(w, r, w', maxAttempts);
  }

  lemma {:induction false} SameHolders(w: World, w': World)
    requires w'.holders == w.holders && w'.clock == w.clock && w'.row == w.row && HoldInv(w)
    ensures HoldInv(w')
  {
    forall r ensures LiveHolder(w', r) <==> LiveHolder(w, r) {}
  }

  /** A won claim leaves no other live holder: the row was new, failed, or stale. */
  lemma {:induction false} WinnerIsAlone(w: World, r: nat, maxAttempts: nat, q: nat)
    requires WaitInv(w) && HoldInv(w) && r in w.waiting && Attempted(w.row, w.waiting[r], maxAttempts).Some?
    ensures !LiveHolder(w, q)
  {
  }

  lemma {:induction false} ClaimPreserves(w: World, r: nat, w': World, maxAttempts: nat)
    requires maxAttempts >= 1 && Inv(w, maxAttempts) && Claims(w, r, w', maxAttempts)
    ensures Inv(w', maxAttempts)
  {
    var after := Attempted(w.row, w.waiting[r], maxAttempts);
    if after.None? {
      SameHolders(w, w');
    } else {
      forall q | LiveHolder(w', q) ensures q == r {
        WinnerIsAlone(w, r, maxAttempts, q);
      }
      assert WaitInv(w');
      assert r !in w.holders;
      assert |w'.holders| == |w.holders| + 1;
    }
  }

  lemma {:induction false} DeliverPreserves(w: World, r: nat, ok: bool, w': World, maxAttempts: nat)
    requires Inv(w, maxAttempts) && Delivers(w, r, ok, w')
    ensures Inv(w', maxAttempts)
  {
    assert w'.holders.Keys == w.holders.Keys;
    forall q | q in w'.holders ensures LiveHolder(w', q) <==> LiveHolder(w, q) {}
    assert |w'.holders| == |w.holders|;
  }

  lemma {:induction false} MarkPreserves(w: World, r: nat, w': World, maxAttempts: nat)
    requires Inv(w, maxAttempts) && Marks(w, r, w')
    ensures Inv(w', maxAttempts)
  {
    forall q ensures !LiveHolder(w', q) {
      if LiveHolder(w', q) { assert LiveHolder(w, q); }
    }
    assert |w'.holders| == |w.holders| - 1;
  }

  lemma {:induction false} CrashPreserves(w: World, r: nat, w': World, maxAttempts: nat)
    requires Inv(w, maxAttempts) && Crashes(w, r, w')
    ensures Inv(w', maxAttempts)
  {
    forall q | LiveHolder(w', q) ensures LiveHolder(w, q) && w'.holders[q] == w.holders[q] {}
    if r in w.holders {
      assert |w'.holders| == |w.holders| - 1;
    }
  }

  // ----- Runs -----

  ghost predicate Behaviour(tr: seq<World>, acts: seq<Action>, maxAttempts: nat) {
    && maxAttempts >= 1
    && |tr| == |acts| + 1
    && Init(tr[0])
    && forall i :: 0 <= i < |acts| ==> Next(tr[i], acts[i], tr[i + 1], maxAttempts)
  }

  lemma {:induction false} InvHolds(tr: seq<World>, acts: seq<Action>, maxAttempts: nat, n: nat)
    requires Behaviour(tr, acts, maxAttempts) && n < |tr|
    ensures Inv(tr[n], maxAttempts)
  {
    if n > 0 {
      InvHolds(tr, acts, maxAttempts, n - 1);
      InvPreserved(tr[n - 1], acts[n - 1], tr[n], maxAttempts);
    }
  }

  /** Mutual exclusion and the retry budget, in every state of every run. */
  lemma {:induction false} OneLiveOwnerWithinBudget(tr: seq<World>, acts: seq<Action>, maxAttempts: nat, n: nat)
    requires Behaviour(tr, acts, maxAttempts) && n < |tr|
    ensures forall r, q :: LiveHolder(tr[n], r) && LiveHolder(tr[n], q) ==> r == q
    ensures WithinBudget(tr[n].row, maxAttempts)
  {
    InvHolds(tr, acts, maxAttempts, n);
  }

  /** Every won claim is accounted for: it became a counted attempt, was lost, or is
      still held. */
  lemma {:induction false} ClaimsAreConserved(tr: seq<World>, acts: seq<Action>, maxAttempts: nat, n: nat)
    requires Behaviour(tr, acts, maxAttempts) && n < |tr|
    ensures tr[n].wins == AttemptsOf(tr[n].row) + tr[n].lost + |tr[n].holders|
  {
    InvHolds(tr, acts, maxAttempts, n);
  }

  /** Every delivery follows a claim that its own runner won. */
  lemma {:induction false} DeliveryFollowsAWin(tr: seq<World>, acts: seq<Action>, maxAttempts: nat, n: nat)
    requires Behaviour(tr, acts, maxAttempts) && n < |acts| && acts[n].Deliver?
    ensures exists k :: 0 <= k < n && acts[k] == TryClaim(acts[n].r) && tr[k + 1].wins == tr[k].wins + 1
  {
    assert Next(tr[n], acts[n], tr[n + 1], maxAttempts);
    HolderWon(tr, acts, maxAttempts, n, acts[n].r);
  }

  lemma {:induction false} HolderWon(tr: seq<World>, acts: seq<Action>, maxAttempts: nat, n: nat, r: nat)
    requires Behaviour(tr, acts, maxAttempts) && n < |tr| && r in tr[n].holders
    ensures exists k :: 0 <= k < n && acts[k] == TryClaim(r) && tr[k + 1].wins == tr[k].wins + 1
  {
    if n > 0 {
      var k := n - 1;
      assert Next(tr[k], acts[k], tr[k + 1], maxAttempts);
      if r in tr[k].holders {
        HolderWon(tr, acts, maxAttempts, k, r);
      } else {
        assert acts[k] == TryClaim(r) && tr[k + 1].wins == tr[k].wins + 1;
      }
    }
  }

  /** A row that cannot be claimed any more. */
  predicate Closed(row: Option<Row>, maxAttempts: nat) {
    row.Some? && (row.value.status == Sent || (row.value.status == Failed && row.value.attemptCount >= maxAttempts))
  }

  lemma {:induction false} ClosedStep(w: World, a: Action, w': World, maxAttempts: nat)
    requires HoldInv(w) && Next(w, a, w', maxAttempts) && Closed(w.row, maxAttempts)
    ensures w'.row == w.row && w'.wins == w.wins
  {
  }

  /** Sent is absorbing, and so is an exhausted budget: the row never changes again and
      no further claim is won, so no further delivery starts. */
  lemma {:induction false} ClosedForever(tr: seq<World>, acts: seq<Action>, maxAttempts: nat, i: nat, j: nat)
    requires Behaviour(tr, acts, maxAttempts) && i <= j < |tr| && Closed(tr[i].row, maxAttempts)
    ensures tr[j].row == tr[i].row && tr[j].wins == tr[i].wins
    decreases j - i
  {
    if i < j {
      var k := j - 1;
      ClosedForever(tr, acts, maxAttempts, i, k);
      InvHolds(tr, acts, maxAttempts, k);
      assert Next(tr[k], acts[k], tr[k + 1], maxAttempts);
      ClosedStep(tr[k], acts[k], tr[k + 1], maxAttempts);
    }
  }

  predicate Delivery(a: Action) {
    a.Deliver? && a.ok
  }

  function Deliveries(acts: seq<Action>): nat {
    if acts == [] then 0 else Deliveries(acts[..|acts| - 1]) + if Delivery(acts[|acts| - 1]) then 1 else 0
  }

  function Unmarked(holders: map<nat, Hold>): set<nat> {
    set r | r in holders && holders[r].stage == Delivered
  }

  lemma {:induction false} UnmarkedRemove(holders: map<nat, Hold>, r: nat)
    requires r in holders
    ensures |Unmarked(holders - {r})| + (if holders[r].stage == Delivered then 1 else 0) == |Unmarked(holders)|
  {
    assert Unmarked(holders - {r}) == Unmarked(holders) - {r};
  }

  lemma {:induction false} UnmarkedUpdate(holders: map<nat, Hold>, r: nat, h: Hold)
    requires r in holders ==> holders[r].stage == Owns
    ensures |Unmarked(holders[r := h])| == |Unmarked(holders)| + if h.stage == Delivered then 1 else 0
  {
    assert Unmarked(holders[r := h]) == if h.stage == Delivered then Unmarked(holders) + {r} else Unmarked(holders);
  }

  function SentOnce(row: Option<Row>): nat {
    if row.Some? && row.value.status == Sent then 1 else 0
  }

  /** Duplicates come only from lost owners: each successful delivery was marked (at most
      one, because sent is absorbing), was lost before its mark, or is still to be marked. */
  lemma {:induction false} DuplicatesNeedLostOwners(tr: seq<World>, acts: seq<Action>, maxAttempts: nat, n: nat)
    requires Behaviour(tr, acts, maxAttempts) && n < |tr|
    ensures Deliveries(acts[..n]) == SentOnce(tr[n].row) + tr[n].lostDelivered + |Unmarked(tr[n].holders)|
  {
    if n > 0 {
      var k := n - 1;
      DuplicatesNeedLostOwners(tr, acts, maxAttempts, k);
      InvHolds(tr, acts, maxAttempts, k);
      assert acts[..n][..k] == acts[..k];
      assert Next(tr[k], acts[k], tr[k + 1], maxAttempts);
      DeliveryStep(tr[k], acts[k], tr[k + 1], maxAttempts);
    }
  }

  lemma {:induction false} DeliveryStep(w: World, a: Action, w': World, maxAttempts: nat)
    requires Inv(w, maxAttempts) && Next(w, a, w', maxAttempts)
    ensures SentOnce(w'.row) + w'.lostDelivered + |Unmarked(w'.holders)|
         == SentOnce(w.row) + w.lostDelivered + |Unmarked(w.holders)| + if Delivery(a) then 1 else 0
  {
    match a
    case Tick(_) =>
    case ReadClock(_, _) =>
    case StartReclaim(_) =>
    case TryClaim(r) => ClaimUnmarked(w, r, w', maxAttempts);
    case Deliver(r, ok) => UnmarkedUpdate(w.holders, r, w'.holders[r]);
    case Mark(r) => UnmarkedRemove(w.holders, r);
    case Crash(r) => if r in w.holders { UnmarkedRemove(w.holders, r); }
  }

  lemma {:induction false} ClaimUnmarked(w: World, r: nat, w': World, maxAttempts: nat)
    requires WaitInv(w) && Claims(w, r, w', maxAttempts)
    ensures |Unmarked(w'.holders)| == |Unmarked(w.holders)| && SentOnce(w'.row) == SentOnce(w.row)
  {
    UnmarkedUpdate(w.holders, r, Hold(ClaimTime(w.waiting[r]), Owns));
  }

  /** Retries terminate: apart from owners that were lost, a row is won at most MaxAttempts
      times, and once more for each runner still at work. */
  lemma {:induction false} ClaimsAreBounded(tr: seq<World>, acts: seq<Action>, maxAttempts: nat, n: nat)
    requires Behaviour(tr, acts, maxAttempts) && n < |tr|
    ensures tr[n].wins <= maxAttempts + tr[n].lost + |tr[n].holders|
  {
    ClaimsAreConserved(tr, acts, maxAttempts, n);
    OneLiveOwnerWithinBudget(tr, acts, maxAttempts, n);
  }

  // ----- Lost owners -----

  /** One more step of a run. */
  lemma {:induction false} Grow(tr: seq<World>, acts: seq<Action>, maxAttempts: nat, a: Action, w: World) returns (tr': seq<World>, acts': seq<Action>)
    requires |tr| == |acts| + 1 && Behaviour(tr, acts, maxAttempts) && Next(tr[|acts|], a, w, maxAttempts)
    ensures Behaviour(tr', acts', maxAttempts) && |tr'| == |acts'| + 1 && tr'[|acts'|] == w
    ensures Deliveries(acts') == Deliveries(acts) + if Delivery(a) then 1 else 0
  {
    tr', acts' := tr + [w], acts + [a];
    assert acts'[..|acts|] == acts;
    forall i | 0 <= i < |acts'| ensures Next(tr'[i], acts'[i], tr'[i + 1], maxAttempts) {
      if i < |acts| { assert Next(tr[i], acts[i], tr[i + 1], maxAttempts); }
    }
  }

  /** A pending row that nobody holds or waits for. */
  predicate Abandoned(w: World) {
    w.row == Some(Row(Pending, 0, w.clock)) && w.waiting == map[] && w.holders == map[]
  }

  /** A pending row that one live runner has just won. */
  predicate Reclaimed(w: World) {
    w.row == Some(Row(Pending, 0, w.clock)) && w.waiting == map[] && w.holders == map[0 := Hold(w.clock, Owns)]
  }

  /** A sweeper reclaims an abandoned row. */
  lemma {:induction false} ReclaimAbandoned(tr: seq<World>, acts: seq<Action>, maxAttempts: nat) returns (tr': seq<World>, acts': seq<Action>)
    requires Behaviour(tr, acts, maxAttempts) && Abandoned(tr[|acts|])
    ensures Behaviour(tr', acts', maxAttempts) && Reclaimed(tr'[|acts'|]) && Deliveries(acts') == Deliveries(acts)
  {
    var w0 := tr[|acts|];
    hide Behaviour, Deliveries;
    var w1 := w0.(clock := w0.clock + PENDING_LEASE + 1);
    var w2 := w1.(waiting := map[0 := Sweeping(w0.clock + 1)]);
    var w3 := w2.(waiting := map[0 := Reclaiming(w0.clock + 1, w1.clock)]);
    var w4 := World(w1.clock, Some(Row(Pending, 0, w1.clock)), map[], map[0 := Hold(w1.clock, Owns)], w0.wins + 1, w0.lost, w0.lostDelivered);
    tr', acts' := Grow(tr, acts, maxAttempts, Tick(PENDING_LEASE + 1), w1);
    assert w1.waiting[0 := Sweeping(w0.clock + 1)] == w2.waiting;
    tr', acts' := Grow(tr', acts', maxAttempts, ReadClock(0, Sweeping(w0.clock + 1)), w2);
    assert w2.waiting[0 := Reclaiming(w0.clock + 1, w1.clock)] == w3.waiting;
    tr', acts' := Grow(tr', acts', maxAttempts, StartReclaim(0), w3);
    assert w3.waiting - {0} == map[] && w3.holders[0 := Hold(w1.clock, Owns)] == w4.holders;
    tr', acts' := Grow(tr', acts', maxAttempts, TryClaim(0), w4);
  }

  /** Its owner delivers and is lost: the attempt is not counted. */
  lemma {:induction false} LoseOwner(tr: seq<World>, acts: seq<Action>, maxAttempts: nat) returns (tr': seq<World>, acts': seq<Action>)
    requires Behaviour(tr, acts, maxAttempts) && Reclaimed(tr[|acts|])
    ensures Behaviour(tr', acts', maxAttempts) && Abandoned(tr'[|acts'|]) && Deliveries(acts') == Deliveries(acts) + 1
  {
    var w4 := tr[|acts|];
    hide Behaviour, Deliveries;
    var w5 := w4.(holders := map[0 := Hold(w4.clock, Delivered)]);
    var w6 := w5.(holders := map[], lost := w4.lost + 1, lostDelivered := w4.lostDelivered + 1);
    assert w4.holders[0 := Hold(w4.clock, Delivered)] == w5.holders;
    tr', acts' := Grow(tr, acts, maxAttempts, Deliver(0, true), w5);
    assert w5.holders - {0} == map[];
    tr', acts' := Grow(tr', acts', maxAttempts, Crash(0), w6);
  }

  /** The bound needs its term for lost owners: with MaxAttempts 1 there is a run with any
      number of successful deliveries, because reclaiming a row counts no attempt. */
  lemma {:induction false} LostOwnersDeliverWithoutBound(n: nat) returns (tr: seq<World>, acts: seq<Action>)
    ensures Behaviour(tr, acts, 1) && Abandoned(tr[|acts|]) && Deliveries(acts) == n
  {
    if n == 0 {
      var w0 := World(0, None, map[], map[], 0, 0, 0);
      var w1 := w0.(waiting := map[0 := Inserting(0)]);
      var w2 := World(0, Some(Row(Pending, 0, 0)), map[], map[0 := Hold(0, Owns)], 1, 0, 0);
      var w3 := w2.(holders := map[], lost := 1);
      tr, acts := [w0], [];
      assert w0.waiting[0 := Inserting(0)] == w1.waiting;
      tr, acts := Grow(tr, acts, 1, ReadClock(0, Inserting(0)), w1);
      assert w1.waiting - {0} == map[] && w1.holders[0 := Hold(0, Owns)] == w2.holders;
      tr, acts := Grow(tr, acts, 1, TryClaim(0), w2);
      assert w2.holders - {0} == map[];
      tr, acts := Grow(tr, acts, 1, Crash(0), w3);
    } else {
      tr, acts := LostOwnersDeliverWithoutBound(n - 1);
      tr, acts := ReclaimAbandoned(tr, acts, 1);
      tr, acts := LoseOwner(tr, acts, 1);
    }
  }

  // ----- Without the lease assumption -----

  /** A mark may also be written after the lease, because the statement carries no guard. */
  datatype AnyAction = Leased(a: Action) | LateMark(r: nat)

  ghost predicate NextAny(w: World, a: AnyAction, w': World, maxAttempts: nat) {
    match a
    case Leased(b) => Next(w, b, w', maxAttempts)
    case LateMark(r) =>
      && r in w.holders && !Live(w.holders[r], w.clock) && w.holders[r].stage != Owns
      && w' == w.(holders := w.holders - {r}, row := MarkRow(w.row, w.holders[r].stage == Delivered, w.clock))
  }

  /** A failure mark after the lease that leaves budget. */
  predicate Reopens(w: World, a: AnyAction, maxAttempts: nat) {
    && a.LateMark? && a.r in w.holders && w.holders[a.r].stage == Refused
    && w.row.Some? && w.row.value.attemptCount + 1 < maxAttempts
  }

  ghost predicate NobodyLive(w: World) {
    forall r :: !LiveHolder(w, r)
  }

  /** A closed row that nobody live holds stays closed through a step exactly when the step
      is no late failure mark that leaves budget; and still nobody live holds it. */
  lemma {:induction false} ClosedStepIff(w: World, a: AnyAction, w': World, maxAttempts: nat)
    requires NextAny(w, a, w', maxAttempts) && Closed(w.row, maxAttempts) && NobodyLive(w)
    ensures Closed(w'.row, maxAttempts) <==> !Reopens(w, a, maxAttempts)
    ensures Closed(w'.row, maxAttempts) ==> NobodyLive(w')
  {
    forall r ensures LiveHolder(w', r) ==> LiveHolder(w, r) {}
  }

  ghost predicate BehaviourAny(tr: seq<World>, acts: seq<AnyAction>, maxAttempts: nat) {
    && maxAttempts >= 1
    && |tr| == |acts| + 1
    && Init(tr[0])
    && forall i :: 0 <= i < |acts| ==> NextAny(tr[i], acts[i], tr[i + 1], maxAttempts)
  }

  ghost predicate LeasedUpTo(acts: seq<AnyAction>, n: nat) {
    n <= |acts| && forall i :: 0 <= i < n ==> acts[i].Leased?
  }

  lemma {:induction false} InvAtStart(w: World, maxAttempts: nat)
    requires Init(w)
    ensures Inv(w, maxAttempts)
  {
  }

  lemma {:induction false} LeasedInv(tr: seq<World>, acts: seq<AnyAction>, maxAttempts: nat, n: nat)
    requires BehaviourAny(tr, acts, maxAttempts) && LeasedUpTo(acts, n)
    ensures Inv(tr[n], maxAttempts)
  {
    hide Inv, Next, Init;
    if n == 0 {
      InvAtStart(tr[0], maxAttempts);
    } else {
      LeasedInv(tr, acts, maxAttempts, n - 1);
      assert NextAny(tr[n - 1], acts[n - 1], tr[n], maxAttempts);
      InvPreserved(tr[n - 1], acts[n - 1].a, tr[n], maxAttempts);
    }
  }

  /** Exactly when sent is absorbing: a row that was closed while the lease held stays closed
      from then on if and only if no later mark is a late failure mark that leaves budget. */
  lemma {:induction false} SentStaysClosedIff(tr: seq<World>, acts: seq<AnyAction>, maxAttempts: nat, i: nat, j: nat)
    requires BehaviourAny(tr, acts, maxAttempts) && LeasedUpTo(acts, i) && i <= j <= |acts|
    requires Closed(tr[i].row, maxAttempts)
    ensures (forall k :: i <= k <= j ==> Closed(tr[k].row, maxAttempts)) <==> (forall k :: i <= k < j ==> !Reopens(tr[k], acts[k], maxAttempts))
    ensures (forall k :: i <= k <= j ==> Closed(tr[k].row, maxAttempts)) ==> NobodyLive(tr[j])
    decreases j - i
  {
    if i == j {
      LeasedInv(tr, acts, maxAttempts, i);
      forall r ensures !LiveHolder(tr[i], r) {}
    } else {
      var m := j - 1;
      SentStaysClosedIff(tr, acts, maxAttempts, i, m);
      assert NextAny(tr[m], acts[m], tr[j], maxAttempts);
      if forall k :: i <= k <= m ==> Closed(tr[k].row, maxAttempts) {
        ClosedStepIff(tr[m], acts[m], tr[j], maxAttempts);
      }
    }
  }

  lemma {:induction false} GrowAny(tr: seq<World>, acts: seq<AnyAction>, a: AnyAction, w: World) returns (tr': seq<World>, acts': seq<AnyAction>)
    requires |tr| == |acts| + 1 && BehaviourAny(tr, acts, 3) && NextAny(tr[|acts|], a, w, 3)
    ensures BehaviourAny(tr', acts', 3) && |tr'| == |acts'| + 1 && tr' == tr + [w] && acts' == acts + [a]
  {
    tr', acts' := tr + [w], acts + [a];
    forall i | 0 <= i < |acts'| ensures NextAny(tr'[i], acts'[i], tr'[i + 1], 3) {
      if i < |acts| { assert NextAny(tr[i], acts[i], tr[i + 1], 3); }
    }
  }

  /** The first owner's delivery fails and its mark is late; a sweeper reclaims the row. */
  lemma {:induction false} LateOwner() returns (tr: seq<World>, acts: seq<AnyAction>)
    ensures BehaviourAny(tr, acts, 3) && |acts| == 7 && |tr| == 8
    ensures tr[7] == World(301, Some(Row(Pending, 0, 301)), map[], map[1 := Hold(0, Refused), 2 := Hold(301, Owns)], 2, 0, 0)
  {
    var w0 := World(0, None, map[], map[], 0, 0, 0);
    var w1 := w0.(waiting := map[1 := Inserting(0)]);
    var w2 := World(0, Some(Row(Pending, 0, 0)), map[], map[1 := Hold(0, Owns)], 1, 0, 0);
    var w3 := w2.(holders := map[1 := Hold(0, Refused)]);
    var w4 := w3.(clock := 301);
    var w5 := w4.(waiting := map[2 := Sweeping(1)]);
    var w6 := w5.(waiting := map[2 := Reclaiming(1, 301)]);
    var w7 := World(301, Some(Row(Pending, 0, 301)), map[], map[1 := Hold(0, Refused), 2 := Hold(301, Owns)], 2, 0, 0);
    tr, acts := [w0], [];
    assert BehaviourAny(tr, acts, 3);
    hide BehaviourAny;
    tr, acts := GrowAny(tr, acts, Leased(ReadClock(1, Inserting(0))), w1);
    assert w1.waiting - {1} == map[];
    tr, acts := GrowAny(tr, acts, Leased(TryClaim(1)), w2);
    tr, acts := GrowAny(tr, acts, Leased(Deliver(1, false)), w3);
    tr, acts := GrowAny(tr, acts, Leased(Tick(301)), w4);
    tr, acts := GrowAny(tr, acts, Leased(ReadClock(2, Sweeping(1))), w5);
    tr, acts := GrowAny(tr, acts, Leased(StartReclaim(2)), w6);
    assert w6.waiting - {2} == map[] && w6.holders[2 := Hold(301, Owns)] == w7.holders;
    tr, acts := GrowAny(tr, acts, Leased(TryClaim(2)), w7);
  }

  /** The second owner delivers and marks the row sent, and the first owner's failure mark
      arrives. */
  lemma {:induction false} LateMarkReopens() returns (tr: seq<World>, acts: seq<AnyAction>)
    ensures BehaviourAny(tr, acts, 3) && |acts| == 10 && |tr| == 11
    ensures acts[7] == Leased(Deliver(2, true)) && acts[8] == Leased(Mark(2)) && acts[9] == LateMark(1)
    ensures tr[9].row == Some(Row(Sent, 1, 301)) && Reopens(tr[9], acts[9], 3)
    ensures tr[10] == World(301, Some(Row(Failed, 2, 301)), map[], map[], 2, 0, 0)
  {
    tr, acts := LateOwner();
    hide BehaviourAny;
    var w7 := tr[7];
    var w8 := w7.(holders := map[1 := Hold(0, Refused), 2 := Hold(301, Delivered)]);
    var w9 := w8.(holders := map[1 := Hold(0, Refused)], row := Some(Row(Sent, 1, 301)));
    var w10 := w9.(holders := map[], row := Some(Row(Failed, 2, 301)));
    assert w7.holders[2 := Hold(301, Delivered)] == w8.holders;
    tr, acts := GrowAny(tr, acts, Leased(Deliver(2, true)), w8);
    assert w8.holders - {2} == w9.holders;
    tr, acts := GrowAny(tr, acts, Leased(Mark(2)), w9);
    assert w9.holders - {1} == map[];
    tr, acts := GrowAny(tr, acts, LateMark(1), w10);
  }

  /** A duplicate without any lost owner: a sent row that a late failure mark reopened is
      claimed and delivered again. */
  lemma {:induction false} LateMarkDuplicatesDelivery() returns (tr: seq<World>, acts: seq<AnyAction>)
    ensures BehaviourAny(tr, acts, 3) && |acts| == 13
    ensures acts[7] == Leased(Deliver(2, true)) && acts[8] == Leased(Mark(2)) && acts[9] == LateMark(1) && acts[12] == Leased(Deliver(3, true))
    ensures tr[9].row == Some(Row(Sent, 1, 301)) && Reopens(tr[9], acts[9], 3) && tr[10].row == Some(Row(Failed, 2, 301))
    ensures tr[13].lost == 0
  {
    tr, acts := LateMarkReopens();
    hide BehaviourAny;
    var w10 := tr[10];
    var w11 := w10.(waiting := map[3 := Retrying(301)]);
    var w12 := World(301, Some(Row(Pending, 2, 301)), map[], map[3 := Hold(301, Owns)], 3, 0, 0);
    var w13 := w12.(holders := map[3 := Hold(301, Delivered)]);
    tr, acts := GrowAny(tr, acts, Leased(ReadClock(3, Retrying(301))), w11);
    assert w11.waiting - {3} == map[];
    tr, acts := GrowAny(tr, acts, Leased(TryClaim(3)), w12);
    tr, acts := GrowAny(tr, acts, Leased(Deliver(3, true)), w13);
  }

  /** On one row: a late failure mark makes a sent row retriable exactly when budget remains
      after it. */
  lemma {:induction false} LateMarkReopensSentRow(row: Row, maxAttempts: nat, now: int, later: int)
    requires row.status == Sent
    ensures RetryRow(MarkRow(Some(row), false, now), maxAttempts, later).Some? <==> row.attemptCount + 1 < maxAttempts
  {
  }
}
