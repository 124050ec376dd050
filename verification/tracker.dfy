/** The per-interface multicast rate limiter (src/timing.rs) and every run of
    its operations in lock order, required by section 6 of RFC 6762. */
module Tracker {
  import opened Records

  const MIN_MULTICAST_INTERVAL: nat := 1 * SECOND
  const PROBE_DEFENSE_INTERVAL: nat := 250 * MILLISECOND

  datatype Slot = Slot(ifindex: u32, key: RecordKey)
  type Stamps = map<Slot, Time>

  /** `Instant::duration_since`: an earlier reading counts as nothing elapsed. */
  function Elapsed(now: Time, since: Time): nat {
    if now > since then now - since else 0
  }

  predicate Allows(last: Stamps, slot: Slot, now: Time, interval: nat) {
    slot in last ==> Elapsed(now, last[slot]) >= interval
  }

  function Pruned(last: Stamps, now: Time, interval: nat): Stamps {
    map slot | slot in last && Elapsed(now, last[slot]) < interval :: last[slot]
  }

  class MulticastTracker {
    var last: Stamps

    constructor ()
      ensures last == map[]
    {
      last := map[];
    }

    method Mark(ifindex: u32, rec: Record, now: Time)
      modifies this
      ensures last == old(last)[Slot(ifindex, KeyOf(rec)) := now]
    {
      last := last[Slot(ifindex, KeyOf(rec)) := now];
    }

    method CheckAndMark(ifindex: u32, rec: Record, interval: nat, now: Time) returns (accepted: bool)
      modifies this
      ensures accepted == Allows(old(last), Slot(ifindex, KeyOf(rec)), now, interval)
      ensures last == if accepted then old(last)[Slot(ifindex, KeyOf(rec)) := now] else old(last)
    {
      var slot := Slot(ifindex, KeyOf(rec));
      if slot in last && Elapsed(now, last[slot]) < interval {
        accepted := false;
      } else {
        last := last[slot := now];
        accepted := true;
      }
    }

    method PruneOlderThan(interval: nat, now: Time)
      modifies this
      ensures last == Pruned(old(last), now, interval)
    {
      last := map slot | slot in last && Elapsed(now, last[slot]) < interval :: last[slot];
    }
  }

  // ---- runs ----

  /** One operation under the lock. `handler` names who makes the check;
      the evictor prunes with the ordinary interval only. */
  datatype Op =
    | Mark(slot: Slot, now: Time)
    | Check(handler: nat, slot: Slot, now: Time, interval: nat)
    | Prune(now: Time)

  function Apply(last: Stamps, op: Op): Stamps {
    match op
    case Mark(slot, now) => last[slot := now]
    case Check(_, slot, now, interval) => if Allows(last, slot, now, interval) then last[slot := now] else last
    case Prune(now) => Pruned(last, now, MIN_MULTICAST_INTERVAL)
  }

  /** The stamps after `ops`, in a tracker that prunes or in one that keeps
      everything. */
  function Stamped(ops: seq<Op>, pruning: bool): Stamps {
    if ops == [] then map[]
    else
      var last, op := Stamped(ops[..|ops| - 1], pruning), ops[|ops| - 1];
      if op.Prune? && !pruning then last else Apply(last, op)
  }

  /** Operation `i` puts a stamp on its slot. */
  predicate PutsStamp(ops: seq<Op>, i: int, pruning: bool)
    requires 0 <= i < |ops|
  {
    match ops[i]
    case Mark(_, _) => true
    case Check(_, slot, now, interval) => Allows(Stamped(ops[..i], pruning), slot, now, interval)
    case Prune(_) => false
  }

  /** A prune that read the clock at `pruned` cannot change a later check at
      `now`: the reading may lag by the slack between the two intervals. */
  predicate InSlack(pruned: Time, now: Time, interval: nat) {
    pruned + interval <= now + MIN_MULTICAST_INTERVAL
  }

  /** The slack is exact: within it no tracker can be told apart from its pruned
      self, beyond it some tracker can. */
  lemma PruneInvisibleIff(pruned: Time, now: Time, interval: nat)
    requires MIN_MULTICAST_INTERVAL <= pruned && 0 < interval
    ensures (forall last: Stamps, slot ::
               Allows(Pruned(last, pruned, MIN_MULTICAST_INTERVAL), slot, now, interval)
               == Allows(last, slot, now, interval))
            <==> InSlack(pruned, now, interval)
  {
    if !InSlack(pruned, now, interval) {
      var zero: u32 := 0;
      var slot := Slot(zero, RecordKey("", ANY, 0, PtrData("")));
      var last: Stamps := map[slot := pruned - MIN_MULTICAST_INTERVAL];
      assert Allows(Pruned(last, pruned, MIN_MULTICAST_INTERVAL), slot, now, interval)
          != Allows(last, slot, now, interval);
    }
  }

  /** Every check reads a clock within the slack of every earlier prune. It is met
      when readings do not decrease in lock order, and by any run without prunes. */
  ghost predicate InOrder(ops: seq<Op>) {
    forall i, j :: 0 <= i < j < |ops| && ops[i].Prune? && ops[j].Check? ==>
                     InSlack(ops[i].now, ops[j].now, ops[j].interval)
  }

  /** The two readings an operation pair needs when the clock never goes back. */
  lemma NonDecreasingIsInOrder(ops: seq<Op>)
    requires forall i, j :: 0 <= i < j < |ops| ==> ops[i].now <= ops[j].now
    requires forall i :: 0 <= i < |ops| && ops[i].Check? ==> ops[i].interval <= MIN_MULTICAST_INTERVAL
    ensures InOrder(ops)
  {
  }

  /** Operation `i` is a prune that found the stamp `t` too old to keep. */
  predicate Drops(ops: seq<Op>, i: int, t: Time)
    requires 0 <= i < |ops|
  {
    ops[i].Prune? && t + MIN_MULTICAST_INTERVAL <= ops[i].now
  }

  /** The pruning tracker holds a part of what the other holds, and each missing
      stamp was dropped by some prune. */
  ghost predicate PartOf(ops: seq<Op>) {
    var part, full := Stamped(ops, true), Stamped(ops, false);
    && (forall slot :: slot in part ==> slot in full && part[slot] == full[slot])
    && (forall slot :: slot in full && slot !in part ==>
                         exists i :: 0 <= i < |ops| && Drops(ops, i, full[slot]))
  }

  lemma SameDecision(ops: seq<Op>, op: Op)
    requires PartOf(ops) && InOrder(ops + [op]) && op.Check?
    ensures Allows(Stamped(ops, true), op.slot, op.now, op.interval)
         == Allows(Stamped(ops, false), op.slot, op.now, op.interval)
  {
    var part, full := Stamped(ops, true), Stamped(ops, false);
    if op.slot in full && op.slot !in part {
      var i :| 0 <= i < |ops| && Drops(ops, i, full[op.slot]);
      assert (ops + [op])[i] == ops[i] && (ops + [op])[|ops|] == op;
    }
  }

  lemma PartOfExtends(ops: seq<Op>, op: Op)
    requires PartOf(ops) && InOrder(ops + [op])
    ensures PartOf(ops + [op])
  {
    var more := ops + [op];
    assert more[..|ops|] == ops;
    if op.Check? { SameDecision(ops, op); }
    var part, full := Stamped(more, true), Stamped(more, false);
    forall slot | slot in full && slot !in part
      ensures exists i :: 0 <= i < |more| && Drops(more, i, full[slot])
    {
      if slot in Stamped(ops, true) {
        assert Drops(more, |ops|, full[slot]);
      } else {
        var i :| 0 <= i < |ops| && Drops(ops, i, full[slot]);
        assert Drops(more, i, full[slot]);
      }
    }
  }

  lemma {:induction false} PruningKeepsPart(ops: seq<Op>)
    requires InOrder(ops)
    ensures PartOf(ops)
  {
    if ops != [] {
      var n := |ops| - 1;
      assert ops == ops[..n] + [ops[n]];
      PruningKeepsPart(ops[..n]);
      PartOfExtends(ops[..n], ops[n]);
    }
  }

  /** Pruning refines never pruning: every decision of every run is the same. */
  lemma PruningIsInvisible(ops: seq<Op>, i: nat)
    requires InOrder(ops) && i < |ops|
    ensures PutsStamp(ops, i, true) == PutsStamp(ops, i, false)
  {
    PruningKeepsPart(ops[..i]);
    if ops[i].Check? {
      assert ops[..i] + [ops[i]] == ops[..i + 1];
      SameDecision(ops[..i], ops[i]);
    }
  }

  // ---- spacing ----

  /** A mark reads the clock under the lock, so never before the slot's last stamp. */
  ghost predicate MarksForward(ops: seq<Op>) {
    forall i :: 0 <= i < |ops| && ops[i].Mark? && ops[i].slot in Stamped(ops[..i], false) ==>
                  Stamped(ops[..i], false)[ops[i].slot] <= ops[i].now
  }

  /** A clock that never goes back in lock order gives it. */
  lemma NonDecreasingMarksForward(ops: seq<Op>)
    requires forall i, j :: 0 <= i < j < |ops| ==> ops[i].now <= ops[j].now
    ensures MarksForward(ops)
  {
    forall i, slot | 0 <= i < |ops| && slot in Stamped(ops[..i], false)
      ensures Stamped(ops[..i], false)[slot] <= ops[i].now
    {
      StampIsAReading(ops[..i], slot);
    }
  }

  lemma {:induction false} StampIsAReading(ops: seq<Op>, slot: Slot)
    requires slot in Stamped(ops, false)
    ensures exists i :: 0 <= i < |ops| && ops[i].now == Stamped(ops, false)[slot]
  {
    var n := |ops| - 1;
    var past := Stamped(ops[..n], false);
    if slot in past && Stamped(ops, false)[slot] == past[slot] {
      StampIsAReading(ops[..n], slot);
      var i :| 0 <= i < n && ops[..n][i].now == past[slot];
      assert ops[i].now == past[slot];
    } else {
      assert ops[n].now == Stamped(ops, false)[slot];
    }
  }

  ghost predicate PositiveIntervals(ops: seq<Op>) {
    forall i :: 0 <= i < |ops| && ops[i].Check? ==> ops[i].interval > 0
  }

  /** With every stamp kept, the slot's stamp is at least every stamp it ever got. */
  lemma {:induction false} LatestStamp(ops: seq<Op>, i: nat)
    requires MarksForward(ops) && PositiveIntervals(ops) && i < |ops| && PutsStamp(ops, i, false)
    ensures ops[i].slot in Stamped(ops, false) && ops[i].now <= Stamped(ops, false)[ops[i].slot]
  {
    var n := |ops| - 1;
    if i < n {
      var past := ops[..n];
      assert forall j :: 0 <= j < n ==> past[..j] == ops[..j];
      LatestStamp(past, i);
      assert Stamped(past, false) == Stamped(ops[..n], false);
    }
  }

  /** Section 6 of RFC 6762 over every run: an accepted check is stamped at least
      its own interval after every earlier stamp of the same record on the same
      interface, whether that came from a check or from an announcement. */
  lemma StampsAreSpaced(ops: seq<Op>, i: nat, j: nat)
    requires InOrder(ops) && MarksForward(ops) && PositiveIntervals(ops)
    requires i < j < |ops| && PutsStamp(ops, i, true) && PutsStamp(ops, j, true)
    requires ops[j].Check? && ops[i].slot == ops[j].slot
    ensures ops[j].now >= ops[i].now + ops[j].interval
  {
    PruningIsInvisible(ops, i);
    PruningIsInvisible(ops, j);
    var past := ops[..j];
    assert forall l :: 0 <= l < j ==> past[..l] == ops[..l];
    LatestStamp(past, i);
  }
}
