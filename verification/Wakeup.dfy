/** Outbound flow control of one registered v5 Conn: the ReceiveMaximum slots, the one-slot
    wake-up channel, and the drain loop that shares the queue with any number of Deliver,
    resume and acknowledgement callers.  Database errors and packet-id exhaustion are not
    modelled; a dropped (oversized or expired) row is, because it is where the design leaks. */
module Wakeup {
  import opened Prelude

  type RowId = int

  /** Program counter of runDrainLoop. */
  datatype Loop = Waiting | Scanning | Trying(id: RowId) | Holding(id: RowId) | Sending | Releasing | Kicking

  /** `queued`: QoS>0 rows in state 0.  The callers in deliverOneTracked: `notified` before the
      slot is taken, `holding` with a slot and no claim yet, `sending` after the claim;
      `releasing` and `kicking` are the two halves of returnInflight.  `inserted`: retained
      replays between INSERT and claim.  `flying`: rows written with a slot and not yet
      acknowledged.  `deaf`: the listener lost its session and has not yet run KickAllDrains.
      `resumed`: the resume scan of this Conn has happened. */
  datatype State = State(
    cap: nat, used: nat, queued: set<RowId>, kick: bool, loop: Loop,
    notified: multiset<RowId>, holding: multiset<RowId>, inserted: multiset<RowId>,
    sending: nat, flying: nat, releasing: nat, kicking: nat, deaf: bool, resumed: bool)

  datatype Label =
    // other clients, the network and the subscriber; `Acked` completes a row that holds a slot,
    // `Surplus` releases one that nobody gave back: an ack of a row resumed or replayed without a
    // slot, or a refused PUBREC for an unknown identifier
    | Publish(id: RowId) | Retain(id: RowId) | Acked | Surplus | GoDeaf | ResumeScan
    // the Conn's own goroutines
    | Acquire(id: RowId) | Claim(id: RowId) | ClaimRetained(id: RowId) | Sent(ok: bool) | Release | Kick
    | LoopWake | LoopScan(id: RowId) | LoopScanEmpty | LoopAcquire | LoopClaim | LoopSent(ok: bool)
    | LoopRelease | LoopKick
    | LoseNotify(id: RowId) | Reconnect
    | Drop(id: RowId) | LoopDrop

  /** Steps of the drain loop. */
  predicate ByLoop(l: Label) {
    || l.LoopWake? || l.LoopScan? || l.LoopScanEmpty? || l.LoopAcquire? || l.LoopClaim? || l.LoopSent?
    || l.LoopRelease? || l.LoopKick? || l.LoopDrop?
  }

  function Free(used: nat): nat { if used > 0 then used - 1 else 0 }

  predicate External(l: Label) {
    l.Publish? || l.Retain? || l.Acked? || l.Surplus? || l.GoDeaf? || l.ResumeScan?
  }

  predicate Enabled(s: State, l: Label) {
    match l
    case Publish(id) => id !in s.queued
    case Retain(id) => id !in s.queued
    case Acked => s.flying > 0
    case Surplus => true
    case GoDeaf => !s.deaf
    case ResumeScan => !s.resumed
    case Acquire(id) => id in s.notified
    case Claim(id) => id in s.holding
    case ClaimRetained(id) => id in s.inserted
    case Sent(_) => s.sending > 0
    case Release => s.releasing > 0
    case Kick => s.kicking > 0
    case LoopWake => s.loop.Waiting? && s.kick
    case LoopScan(id) => s.loop.Scanning? && id in s.queued  // the code takes the lowest id
    case LoopScanEmpty => s.loop.Scanning? && s.queued == {}
    case LoopAcquire => s.loop.Trying?
    case LoopClaim => s.loop.Holding?
    case LoopSent(_) => s.loop.Sending?
    case LoopRelease => s.loop.Releasing?
    case LoopKick => s.loop.Kicking?
    case LoseNotify(id) => s.deaf && id in s.notified
    case Reconnect => s.deaf
    case Drop(id) => id in s.notified
    case LoopDrop => s.loop.Trying?
  }

  function Step(s: State, l: Label): State
    requires Enabled(s, l)
  {
    match l
    case Publish(id) =>
      s.(queued := s.queued + {id}, notified := if s.deaf then s.notified else s.notified + multiset{id})
    case Retain(id) => s.(queued := s.queued + {id}, inserted := s.inserted + multiset{id})
    case Acked => s.(flying := s.flying - 1, releasing := s.releasing + 1)
    case Surplus => s.(releasing := s.releasing + 1)
    case GoDeaf => s.(deaf := true)
    case ResumeScan => s.(resumed := true, notified := s.notified + multiset(s.queued))
    case Acquire(id) =>
      var s' := s.(notified := s.notified - multiset{id});
      if s.used < s.cap then s'.(used := s.used + 1, holding := s.holding + multiset{id}) else s'
    case Claim(id) =>
      var s' := s.(holding := s.holding - multiset{id});
      if id in s.queued then s'.(queued := s.queued - {id}, sending := s.sending + 1)
      else s'.(releasing := s.releasing + 1)
    case ClaimRetained(id) => s.(inserted := s.inserted - multiset{id}, queued := s.queued - {id})
    case Sent(ok) =>
      if ok then s.(sending := s.sending - 1, flying := s.flying + 1)
      else s.(sending := s.sending - 1, releasing := s.releasing + 1)
    case Release => s.(releasing := s.releasing - 1, used := Free(s.used), kicking := s.kicking + 1)
    case Kick => s.(kicking := s.kicking - 1, kick := true)
    case LoopWake => s.(kick := false, loop := Scanning)
    case LoopScan(id) => s.(loop := Trying(id))
    case LoopScanEmpty => s.(loop := Waiting)
    case LoopAcquire =>
      if s.used < s.cap then s.(used := s.used + 1, loop := Holding(s.loop.id)) else s.(loop := Waiting)
    case LoopClaim =>
      if s.loop.id in s.queued then s.(queued := s.queued - {s.loop.id}, loop := Sending) else s.(loop := Releasing)
    case LoopSent(ok) => if ok then s.(loop := Scanning, flying := s.flying + 1) else s.(loop := Releasing)
    case LoopRelease => s.(used := Free(s.used), loop := Kicking)
    case LoopKick => s.(kick := true, loop := Waiting)
    case LoseNotify(id) => s.(notified := s.notified - multiset{id})
    case Reconnect => s.(deaf := false, kick := true)
    case Drop(id) => s.(notified := s.notified - multiset{id}, queued := s.queued - {id})
    case LoopDrop => s.(queued := s.queued - {s.loop.id}, loop := Waiting)
  }

  // ---- no lost wake-up ------------------------------------------------------------------

  /** Some caller is on its way to this very row. */
  predicate Covered(s: State, id: RowId) { id in s.notified || id in s.holding || id in s.inserted }

  /** A kick is pending, the loop is active, or a release or a listener reconnect is under way. */
  predicate Awake(s: State) {
    s.kick || !s.loop.Waiting? || s.releasing > 0 || s.kicking > 0 || s.deaf || !s.resumed
  }

  predicate Inv(s: State) {
    s.used <= s.cap && forall id | id in s.queued :: Covered(s, id) || s.used == s.cap || Awake(s)
  }

  lemma LoopKeeps(s: State, l: Label)
    requires ByLoop(l) && Enabled(s, l) && Inv(s) && !l.LoopDrop?
    ensures Inv(Step(s, l))
  {
    var s' := Step(s, l);
    forall id | id in s'.queued ensures Covered(s', id) || s'.used == s'.cap || Awake(s') {
      assert Covered(s, id) || s.used == s.cap || Awake(s);
    }
  }

  lemma OutsideKeeps(s: State, l: Label)
    requires External(l) && Enabled(s, l) && Inv(s)
    ensures Inv(Step(s, l))
  {
    var s' := Step(s, l);
    forall id | id in s'.queued ensures Covered(s', id) || s'.used == s'.cap || Awake(s') {
      assert id in s.queued ==> Covered(s, id) || s.used == s.cap || Awake(s);
    }
  }

  lemma CallerKeeps(s: State, l: Label)
    requires !External(l) && !ByLoop(l) && Enabled(s, l) && Inv(s)
    ensures Inv(Step(s, l))
  {
    var s' := Step(s, l);
    forall id | id in s'.queued ensures Covered(s', id) || s'.used == s'.cap || Awake(s') {
      assert Covered(s, id) || s.used == s.cap || Awake(s);
    }
  }

  /** Every step but a drop by the drain loop keeps every queued row on its way: a caller is
      at work on it, or there is no free slot, or a wake-up is pending. */
  lemma StepKeeps(s: State, l: Label)
    requires Enabled(s, l) && Inv(s) && !l.LoopDrop?
    ensures Inv(Step(s, l))
  {
    if ByLoop(l) { LoopKeeps(s, l); } else if External(l) { OutsideKeeps(s, l); } else { CallerKeeps(s, l); }
  }

  /** drainOnce reports a dropped row as "no slot", so the loop stops.  The wake-up is lost
      exactly when another row waits for it: a free slot, no kick pending, nobody else at work. */
  lemma DropKeeps(s: State)
    requires Enabled(s, LoopDrop) && Inv(s)
    ensures Inv(Step(s, LoopDrop)) <==>
      s.used == s.cap || s.kick || s.releasing > 0 || s.kicking > 0 || s.deaf || !s.resumed
      || forall id | id in s.queued && id != s.loop.id :: Covered(s, id)
  {
    var s' := Step(s, LoopDrop);
    assert forall id :: Covered(s', id) <==> Covered(s, id);
    assert s'.queued == s.queued - {s.loop.id};
  }

  /** A Conn that has completed its CONNECT, with nothing queued. */
  function Init(cap: nat): State {
    State(cap, 0, {}, false, Waiting, multiset{}, multiset{}, multiset{}, 0, 0, 0, 0, false, true)
  }

  lemma InitInv(cap: nat)
    ensures Inv(Init(cap))
  {
  }

  datatype Run = Start | Then(before: Run, last: Label)

  /** The state after a run, if every step was enabled. */
  function After(s: State, r: Run): Option<State> {
    match r
    case Start => Some(s)
    case Then(before, l) =>
      var m := After(s, before);
      if m.Some? && Enabled(m.value, l) then Some(Step(m.value, l)) else None
  }

  predicate DropFree(r: Run) { r.Start? || (!r.last.LoopDrop? && DropFree(r.before)) }

  lemma {:induction false} NoLostWakeup(s: State, r: Run)
    requires Inv(s) && DropFree(r) && After(s, r).Some?
    ensures Inv(After(s, r).value)
  {
    if r.Then? {
      NoLostWakeup(s, r.before);
      StepKeeps(After(s, r.before).value, r.last);
    }
  }

  // ---- and the wake-ups do their work ---------------------------------------------------

  function LoopWeight(l: Loop): nat {
    match l
    case Sending => 8 case Releasing => 7 case Kicking => 6
    case Scanning => 4 case Trying(_) => 3 case Holding(_) => 2 case Waiting => 0
  }

  predicate Stale(s: State) { (s.loop.Trying? || s.loop.Holding?) && s.loop.id !in s.queued }

  function Rank(s: State): nat { 2 * |s.queued| + if Stale(s) then 1 else 0 }

  function Work(s: State): nat {
    10 * |s.notified| + 9 * |s.holding| + |s.inserted| + 8 * s.sending + 7 * s.releasing + 6 * s.kicking
    + (if s.kick then 5 else 0) + (if s.deaf then 6 else 0) + LoopWeight(s.loop)
  }

  ghost predicate Smaller(s: State, s': State) {
    Rank(s') < Rank(s) || (Rank(s') == Rank(s) && Work(s') < Work(s))
  }

  lemma LoopDecreases(s: State, l: Label)
    requires Enabled(s, l)
    requires l.LoopWake? || l.LoopScan? || l.LoopScanEmpty? || l.LoopAcquire? || l.LoopSent?
          || l.LoopRelease? || l.LoopKick?
    ensures Smaller(s, Step(s, l))
  {
  }

  lemma QueueLess(q: set<RowId>, id: RowId)
    ensures |q - {id}| == |q| - if id in q then 1 else 0
  {
    if id !in q { assert q - {id} == q; }
  }

  /** Steps of the callers that take a row off the queue, or find it gone. */
  lemma ClaimDecreases(s: State, l: Label, id: RowId)
    requires Enabled(s, l)
    requires l == Claim(id) || l == ClaimRetained(id) || l == Drop(id)
    ensures Smaller(s, Step(s, l))
  {
    QueueLess(s.queued, id);
  }

  /** The same, by the drain loop. */
  lemma LoopClaimDecreases(s: State, l: Label)
    requires Enabled(s, l) && (l.LoopClaim? || l.LoopDrop?)
    ensures Smaller(s, Step(s, l))
  {
    QueueLess(s.queued, s.loop.id);
  }

  lemma CallerDecreases(s: State, l: Label)
    requires Enabled(s, l) && (l.Sent? || l.LoseNotify?)
    ensures Smaller(s, Step(s, l))
  {
  }

  lemma AcquireDecreases(s: State, id: RowId)
    requires Enabled(s, Acquire(id))
    ensures Smaller(s, Step(s, Acquire(id)))
  {
    assert |s.notified - multiset{id}| == |s.notified| - 1;
  }

  lemma ReleaseDecreases(s: State, l: Label)
    requires Enabled(s, l) && (l.Release? || l.Kick? || l.Reconnect?)
    ensures Smaller(s, Step(s, l))
  {
  }

  /** Left alone, the goroutines of a Conn come to rest: each of their steps makes the pair
      (Rank, Work) lexicographically smaller. */
  lemma InternalDecreases(s: State, l: Label)
    requires Enabled(s, l) && !External(l)
    ensures Rank(Step(s, l)) < Rank(s) || (Rank(Step(s, l)) == Rank(s) && Work(Step(s, l)) < Work(s))
  {
    match l
    case Claim(id) => ClaimDecreases(s, l, id);
    case ClaimRetained(id) => ClaimDecreases(s, l, id);
    case Drop(id) => ClaimDecreases(s, l, id);
    case LoopClaim => LoopClaimDecreases(s, l);
    case LoopDrop => LoopClaimDecreases(s, l);
    case Acquire(id) => AcquireDecreases(s, id);
    case Sent(_) => CallerDecreases(s, l);
    case Release => ReleaseDecreases(s, l);
    case Kick => ReleaseDecreases(s, l);
    case LoseNotify(_) => CallerDecreases(s, l);
    case Reconnect => ReleaseDecreases(s, l);
    case _ => LoopDecreases(s, l);
  }

  /** No goroutine of the Conn can move. */
  ghost predicate AtRest(s: State) { forall l: Label | Enabled(s, l) :: External(l) }

  lemma RestHasNoCaller(s: State, id: RowId)
    requires AtRest(s)
    ensures !Covered(s, id) && s.releasing == 0 && s.kicking == 0 && !s.deaf
  {
    assert !Enabled(s, Acquire(id)) && !Enabled(s, Claim(id)) && !Enabled(s, ClaimRetained(id));
    assert !Enabled(s, Reconnect) && !Enabled(s, Release) && !Enabled(s, Kick);
  }

  lemma RestHasNoLoop(s: State, id: RowId)
    requires AtRest(s) && id in s.queued
    ensures s.loop.Waiting? && !s.kick
  {
    assert !Enabled(s, LoopScan(id)) && !Enabled(s, LoopWake) && !Enabled(s, LoopAcquire) && !Enabled(s, LoopClaim);
    assert !Enabled(s, LoopSent(true)) && !Enabled(s, LoopRelease) && !Enabled(s, LoopKick);
  }

  /** At rest, a queued row means that every slot is taken. */
  lemma RestMeansDrained(s: State, id: RowId)
    requires Inv(s) && s.resumed && AtRest(s) && id in s.queued
    ensures s.used == s.cap
  {
    RestHasNoCaller(s, id);
    RestHasNoLoop(s, id);
  }

  function Prepend(l: Label, r: Run): Run {
    match r
    case Start => Then(Start, l)
    case Then(before, last) => Then(Prepend(l, before), last)
  }

  lemma {:induction false} PrependAfter(s: State, l: Label, r: Run)
    requires Enabled(s, l)
    ensures After(s, Prepend(l, r)) == After(Step(s, l), r)
    ensures DropFree(Prepend(l, r)) <==> !l.LoopDrop? && DropFree(r)
    decreases r
  {
    if r.Then? { PrependAfter(s, l, r.before); }
    else { assert After(s, Then(Start, l)) == Some(Step(s, l)) by { assert After(s, Start) == Some(s); } }
  }

  /** The promise of the design: from every state the goroutines of a resumed Conn can reach, left
      alone they come to rest with the queue empty or every slot taken. */
  lemma {:induction false} RunToRest(s: State) returns (r: Run)
    requires Inv(s) && s.resumed
    ensures DropFree(r) && After(s, r).Some? && AtRest(After(s, r).value)
    ensures var t := After(s, r).value; forall id | id in t.queued :: t.used == t.cap
    decreases Rank(s), Work(s)
  {
    if AtRest(s) {
      r := Start;
      forall id | id in s.queued ensures s.used == s.cap { RestMeansDrained(s, id); }
    } else {
      var l :| Enabled(s, l) && !External(l);
      if l.LoopDrop? { l := LoopAcquire; }
      InternalDecreases(s, l);
      StepKeeps(s, l);
      ResumedStays(s, l);
      var rest := RunToRest(Step(s, l));
      r := Prepend(l, rest);
      PrependAfter(s, l, rest);
    }
  }

  lemma ResumedStays(s: State, l: Label)
    requires Enabled(s, l) && s.resumed
    ensures Step(s, l).resumed
  {
  }

  /** And every way of coming to rest is like that, however the steps interleave. */
  lemma EveryRestDrained(s: State, r: Run, id: RowId)
    requires Inv(s) && DropFree(r) && After(s, r).Some?
    requires var t := After(s, r).value; t.resumed && AtRest(t) && id in t.queued
    ensures After(s, r).value.used == After(s, r).value.cap
  {
    NoLostWakeup(s, r);
    RestMeansDrained(After(s, r).value, id);
  }

  // ---- slots ------------------------------------------------------------------------------

  /** The drain loop has a slot in its hands. */
  function LoopSlot(loop: Loop): nat { if loop.Holding? || loop.Sending? || loop.Releasing? then 1 else 0 }

  /** The slots in somebody's hands: callers between acquiring and writing, those giving one back, the
      rows in flight, the drain loop. */
  function Held(s: State): nat { |s.holding| + s.sending + s.releasing + s.flying + LoopSlot(s.loop) }

  function Surpluses(r: Run): nat {
    match r
    case Start => 0
    case Then(before, l) => Surpluses(before) + if l.Surplus? then 1 else 0
  }

  /** From s to t slots moved, and at most `more` were given back that nobody held. */
  ghost predicate SlotsMove(s: State, t: State, more: nat) {
    t.used <= Held(t) && Held(t) - t.used <= Held(s) - s.used + more
  }

  lemma SlotLoop(s: State, l: Label)
    requires ByLoop(l) && Enabled(s, l) && s.used <= Held(s)
    ensures SlotsMove(s, Step(s, l), 0)
  {
  }

  lemma SlotClaim(s: State, l: Label)
    requires (l.Acquire? || l.Claim?) && Enabled(s, l) && s.used <= Held(s)
    ensures SlotsMove(s, Step(s, l), 0)
  {
  }

  lemma SlotCaller(s: State, l: Label)
    requires !External(l) && !ByLoop(l) && !l.Acquire? && !l.Claim? && Enabled(s, l) && s.used <= Held(s)
    ensures SlotsMove(s, Step(s, l), 0)
  {
  }

  /** Every step but a surplus release moves slots, and neither makes nor loses one. */
  lemma SlotStep(s: State, l: Label)
    requires Enabled(s, l) && s.used <= Held(s)
    ensures SlotsMove(s, Step(s, l), if l.Surplus? then 1 else 0)
  {
    if ByLoop(l) { SlotLoop(s, l); }
    else if l.Acquire? || l.Claim? { SlotClaim(s, l); }
    else if !External(l) { SlotCaller(s, l); }
  }

  /** Conservation: on every run from CONNECT the slots taken are those in somebody's hands, less at
      most the surplus releases; without any, exactly. */
  lemma {:induction false} SlotsConserved(cap: nat, r: Run)
    requires After(Init(cap), r).Some?
    ensures var t := After(Init(cap), r).value; t.used <= Held(t) <= t.used + Surpluses(r)
  {
    if r.Then? {
      SlotsConserved(cap, r.before);
      SlotStep(After(Init(cap), r.before).value, r.last);
    }
  }

  lemma RestHolds(s: State, id: RowId)
    requires AtRest(s) && id in s.queued
    ensures Held(s) == s.flying
  {
    RestHasNoLoop(s, id);
    RestHasNoCaller(s, id);
    assert !Enabled(s, Sent(true));
    forall x ensures x !in s.holding { RestHasNoCaller(s, x); }
    assert s.holding == multiset{};
  }

  lemma {:induction false} CapStays(cap: nat, r: Run)
    requires After(Init(cap), r).Some?
    ensures After(Init(cap), r).value.cap == cap && After(Init(cap), r).value.resumed
  {
    if r.Then? { CapStays(cap, r.before); }
  }

  /** So waiting is always for the client: on a run without drops by the loop and without surplus
      releases, a row left queued at rest means that as many rows are in flight as the client allows;
      once all are acknowledged, nothing is queued. */
  lemma WaitsForAcks(cap: nat, r: Run, id: RowId)
    requires DropFree(r) && Surpluses(r) == 0 && After(Init(cap), r).Some?
    requires var t := After(Init(cap), r).value; AtRest(t) && id in t.queued
    ensures After(Init(cap), r).value.flying == cap
  {
    InitInv(cap);
    CapStays(cap, r);
    EveryRestDrained(Init(cap), r, id);
    SlotsConserved(cap, r);
    RestHolds(After(Init(cap), r).value, id);
  }

  /** Rows that acknowledgements can still come for. */
  function Ackable(s: State): nat { s.flying + s.sending + if s.loop.Sending? then 1 else 0 }

  lemma AckableStep(s: State, l: Label)
    requires Enabled(s, l) && !External(l)
    ensures Rank(Step(s, l)) < Rank(s) || Ackable(Step(s, l)) <= Ackable(s)
  {
    match l
    case Claim(id) => QueueLess(s.queued, id);
    case LoopClaim => QueueLess(s.queued, s.loop.id);
    case _ =>
  }

  /** A client that acknowledges what it gets is sent everything: from every reachable state without
      surplus releases, the Conn and acknowledgements alone empty the queue. */
  lemma {:induction false} RunToEmpty(s: State) returns (r: Run)
    requires Inv(s) && s.resumed && s.used == Held(s) && s.cap > 0
    ensures DropFree(r) && After(s, r).Some? && After(s, r).value.queued == {}
    decreases Rank(s), Ackable(s), Work(s)
  {
    if s.queued == {} {
      r := Start;
    } else {
      var l := NextMove(s);
      StepKeeps(s, l);
      ResumedStays(s, l);
      SlotStep(s, l);
      var rest := RunToEmpty(Step(s, l));
      r := Prepend(l, rest);
      PrependAfter(s, l, rest);
    }
  }

  /** While rows are queued, a goroutine can move or a row in flight can be acknowledged, and either
      brings the end nearer. */
  lemma NextMove(s: State) returns (l: Label)
    requires Inv(s) && s.resumed && s.used == Held(s) && s.cap > 0 && s.queued != {}
    ensures Enabled(s, l) && !l.LoopDrop? && !l.Surplus? && Step(s, l).cap == s.cap
    ensures var t := Step(s, l);
      || Rank(t) < Rank(s)
      || (Rank(t) == Rank(s) && (Ackable(t) < Ackable(s) || (Ackable(t) == Ackable(s) && Work(t) < Work(s))))
  {
    if AtRest(s) {
      if forall id :: id !in s.queued { assert false; }
      var id :| id in s.queued;
      RestMeansDrained(s, id);
      RestHolds(s, id);
      l := Acked;
    } else {
      l := InternalMove(s);
      InternalDecreases(s, l);
      AckableStep(s, l);
    }
  }

  lemma InternalMove(s: State) returns (l: Label)
    requires !AtRest(s)
    ensures Enabled(s, l) && !External(l) && !l.LoopDrop? && Step(s, l).cap == s.cap
  {
    l :| Enabled(s, l) && !External(l);
    if l.LoopDrop? { l := LoopAcquire; }
  }

  // ---- the drop is real -------------------------------------------------------------------

  /** Nobody but the drain loop is at work, and no wake-up is pending. */
  predicate Alone(s: State) {
    && s.notified == multiset{} && s.holding == multiset{} && s.inserted == multiset{}
    && s.sending == 0 && s.releasing == 0 && s.kicking == 0 && !s.kick && !s.deaf && s.resumed
  }

  lemma IdleRests(s: State)
    requires Alone(s) && s.loop.Waiting?
    ensures AtRest(s)
  {
  }

  /** When the loop drops a row and nobody else is at work, the Conn is at rest at once.  Another row
      is then stranded, with a slot free for it and nothing to wake the loop, if and only if one was
      queued besides the dropped one. */
  lemma DropStrands(s: State)
    requires Enabled(s, LoopDrop) && Alone(s) && s.used < s.cap
    ensures var t := Step(s, LoopDrop);
      && AtRest(t) && t.used < t.cap
      && (t.queued != {} <==> exists id :: id in s.queued && id != s.loop.id)
  {
    var t := Step(s, LoopDrop);
    IdleRests(t);
    if id :| id in s.queued && id != s.loop.id { assert id in t.queued; }
    if t.queued != {} {
      if forall id :: id !in t.queued { assert false; }
      var id :| id in t.queued;
      assert id in s.queued && id != s.loop.id;
    }
  }

  lemma Extend(s: State, r: Run, l: Label)
    requires After(s, r).Some? && Enabled(After(s, r).value, l)
    ensures After(s, Then(r, l)) == Some(Step(After(s, r).value, l))
  {
  }

  /** Two rows are published while the listener is deaf; its reconnect wakes the loop. */
  lemma DeafRun(cap: nat, a: RowId, b: RowId) returns (r: Run)
    requires a != b
    ensures After(Init(cap), r) == Some(Init(cap).(queued := {a, b}, kick := true))
  {
    var s := Init(cap);
    r := Then(Start, GoDeaf);
    Extend(s, Start, GoDeaf);
    Extend(s, r, Publish(a));
    r := Then(r, Publish(a));
    assert {} + {a} == {a} && After(s, r) == Some(s.(deaf := true, queued := {a}));
    Extend(s, r, Publish(b));
    r := Then(r, Publish(b));
    assert {a} + {b} == {a, b} && After(s, r) == Some(s.(deaf := true, queued := {a, b}));
    Extend(s, r, Reconnect);
    r := Then(r, Reconnect);
  }

  /** For every window and any two rows there is a run to a state in which no goroutine of the Conn
      can move, a slot is free, and the second row waits: the first was dropped by the drain loop. */
  lemma StrandedRun(cap: nat, a: RowId, b: RowId) returns (r: Run)
    requires a != b && cap > 0
    ensures After(Init(cap), r).Some?
    ensures var t := After(Init(cap), r).value; AtRest(t) && t.queued == {b} && t.used < t.cap
  {
    var s := Init(cap);
    r := DeafRun(cap, a, b);
    Extend(s, r, LoopWake);
    r := Then(r, LoopWake);
    Extend(s, r, LoopScan(a));
    r := Then(r, LoopScan(a));
    var t := After(s, r).value;
    assert t == s.(queued := {a, b}, loop := Trying(a));
    Extend(s, r, LoopDrop);
    r := Then(r, LoopDrop);
    DropStrands(t);
  }
}
