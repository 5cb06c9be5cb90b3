/** handleDeadBroker: any number of janitors fire or schedule the wills of a broker whose
    advisory lock they could take, then clear its rows.  A will publish is attempted, its
    outcome does not matter; `fired` is the log of attempts. */
module Janitor {
  import opened Prelude

  type Client = int
  type Pod = int
  type Time = int
  type JanitorId = int

  /** A sessions row, reduced to the columns involved. */
  datatype Row = Row(
    broker: Option<Pod>, connected: bool, will: Option<int>, delay: Option<int>, fireAt: Option<Time>,
    expires: Option<Time>)
  type Rows = map<Client, Row>

  // ---- the statements -----------------------------------------------------------------------

  predicate On(r: Row, d: Pod) { r.broker == Some(d) }

  /** Fired at once: a will with no delay or delay 0. */
  predicate Immediate(r: Row) { r.will.Some? && (r.delay == None || r.delay == Some(0)) }

  /** Left for fireDueWills: COALESCE(will_delay, 0) > 0. */
  predicate Delayed(r: Row) { r.will.Some? && r.delay.Some? && r.delay.value > 0 }

  /** LEAST(now + delay, COALESCE(session_expires_at, 'infinity')). */
  function DueAt(r: Row, now: Time): Time
    requires Delayed(r)
  {
    if r.expires.Some? && r.expires.value < now + r.delay.value then r.expires.value else now + r.delay.value
  }

  function Scheduled(r: Row, now: Time): Row
    requires Delayed(r)
  {
    r.(broker := None, connected := false, fireAt := Some(DueAt(r, now)))
  }

  function Cleared(r: Row): Row { r.(broker := None, connected := false, will := None, delay := None) }

  /** r is r0 detached, its will kept and due at `now` plus the delay or at the end of the session,
      whichever comes first. */
  predicate DueAsPromised(r0: Row, r: Row, now: Time) {
    && r0.will.Some? && r0.delay.Some? && r.fireAt.Some?
    && r.fireAt.value <= now + r0.delay.value
    && (r0.expires.Some? ==> r.fireAt.value <= r0.expires.value)
    && (r.fireAt.value == now + r0.delay.value || r.fireAt == r0.expires)
    && r.broker == None && !r.connected && r.will == r0.will && r.delay == r0.delay && r.expires == r0.expires
  }

  /** r is r0 detached, its will gone and never due. */
  predicate WillCleared(r0: Row, r: Row) {
    && r.broker == None && !r.connected && r.will == None && r.delay == None
    && r.fireAt == r0.fireAt && r.expires == r0.expires
  }

  function ScheduleAll(rows: Rows, d: Pod, now: Time): Rows {
    map c | c in rows :: if On(rows[c], d) && Delayed(rows[c]) then Scheduled(rows[c], now) else rows[c]
  }

  function ClearAll(rows: Rows, d: Pod): Rows {
    map c | c in rows :: if On(rows[c], d) then Cleared(rows[c]) else rows[c]
  }

  /** `order` lists, once each, the clients of d whose will fires at once. */
  predicate FiringOrder(rows: Rows, d: Pod, order: seq<Client>) {
    && (forall c | c in order :: c in rows && On(rows[c], d) && Immediate(rows[c]))
    && (forall c | c in rows && On(rows[c], d) && Immediate(rows[c]) :: c in order)
    && Distinct(order)
  }

  // ---- the machine ----------------------------------------------------------------------------

  datatype Holder = Own | Reaper(id: JanitorId)

  /** Program counter of a janitor inside handleDeadBroker. */
  datatype Pc = Locked | Firing(todo: seq<Client>) | Scheduling | Clearing | Unlocking

  /** `fired` logs the attempts to fire a will, with the dead broker they were made for; `at`
      records when a client's will was scheduled. */
  datatype State = State(
    rows: Rows, locks: map<Pod, Holder>, pcs: map<Pod, Pc>, fired: multiset<(Pod, Client)>, at: map<Client, Time>)

  datatype Label =
    | TryLock(j: JanitorId, d: Pod)
    | Scan(j: JanitorId, d: Pod, order: seq<Client>)
    | Fire(j: JanitorId, d: Pod)
    | Schedule(j: JanitorId, d: Pod, now: Time)
    | Clear(j: JanitorId, d: Pod)
    | Unlock(j: JanitorId, d: Pod)
    | OwnLock(d: Pod)
    | OwnDies(d: Pod)
    | Connect(c: Client, row: Row)

  /** Janitor j holds the lock of d and stands at this point. */
  predicate Stands(s: State, j: JanitorId, d: Pod) {
    d in s.locks && s.locks[d] == Reaper(j) && d in s.pcs
  }

  function Step(s: State, l: Label): State {
    match l
    case TryLock(j, d) =>
      if d in s.locks then s else s.(locks := s.locks[d := Reaper(j)], pcs := s.pcs[d := Locked])
    case Scan(j, d, order) =>
      if Stands(s, j, d) && s.pcs[d].Locked? && FiringOrder(s.rows, d, order)
      then s.(pcs := s.pcs[d := Firing(order)]) else s
    case Fire(j, d) =>
      if !Stands(s, j, d) || !s.pcs[d].Firing? then s
      else if s.pcs[d].todo == [] then s.(pcs := s.pcs[d := Scheduling])
      else s.(fired := s.fired + multiset{(d, s.pcs[d].todo[0])}, pcs := s.pcs[d := Firing(s.pcs[d].todo[1..])])
    case Schedule(j, d, now) =>
      if !Stands(s, j, d) || !s.pcs[d].Scheduling? then s
      else s.(rows := ScheduleAll(s.rows, d, now), pcs := s.pcs[d := Clearing],
              at := map c | c in s.rows :: if On(s.rows[c], d) then now else if c in s.at then s.at[c] else 0)
    case Clear(j, d) =>
      if !Stands(s, j, d) || !s.pcs[d].Clearing? then s
      else s.(rows := ClearAll(s.rows, d), pcs := s.pcs[d := Unlocking])
    case Unlock(j, d) =>
      if !Stands(s, j, d) || !s.pcs[d].Unlocking? then s
      else s.(locks := s.locks - {d}, pcs := s.pcs - {d})
    case OwnLock(d) => if d in s.locks then s else s.(locks := s.locks[d := Own])
    case OwnDies(d) => if d in s.locks && s.locks[d] == Own then s.(locks := s.locks - {d}) else s
    case Connect(c, row) => s.(rows := s.rows[c := row])
  }

  function Run(s: State, ls: seq<Label>): State
    decreases |ls|
  {
    if ls == [] then s else Run(Step(s, ls[0]), ls[1..])
  }

  // ---- live brokers are left alone --------------------------------------------------------------

  /** Only the steps of a janitor that holds the lock of a row's broker change that row. */
  lemma RowFrame(s: State, l: Label, c: Client)
    requires c in s.rows && !(l.Connect? && l.c == c) && Step(s, l).rows[c] != s.rows[c]
    ensures (l.Schedule? || l.Clear?) && On(s.rows[c], l.d) && l.d in s.locks && s.locks[l.d] == Reaper(l.j)
  {
  }

  /** While a broker's own session holds its lock, from the moment it took it, no row of that broker
      changes but by its client's own CONNECT, however many janitors are at work. */
  lemma {:induction false} LiveRowsUntouched(s: State, ls: seq<Label>, d: Pod, c: Client)
    requires d in s.locks && s.locks[d] == Own && c in s.rows && On(s.rows[c], d)
    requires forall i | 0 <= i < |ls| :: ls[i] != OwnDies(d) && !(ls[i].Connect? && ls[i].c == c)
    ensures var t := Run(s, ls); d in t.locks && t.locks[d] == Own && c in t.rows && t.rows[c] == s.rows[c]
    decreases |ls|
  {
    if ls != [] {
      LiveStep(s, ls[0], d, c);
      LiveRowsUntouched(Step(s, ls[0]), ls[1..], d, c);
    }
  }

  lemma LiveStep(s: State, l: Label, d: Pod, c: Client)
    requires d in s.locks && s.locks[d] == Own && c in s.rows && On(s.rows[c], d)
    requires l != OwnDies(d) && !(l.Connect? && l.c == c)
    ensures var t := Step(s, l); d in t.locks && t.locks[d] == Own && c in t.rows && t.rows[c] == s.rows[c]
  {
  }

  /** The lock of a broker is free until its own session or a janitor takes it, and free again when that
      session dies. */
  lemma OwnLockTaken(s: State, d: Pod)
    requires d !in s.locks
    ensures var t := Step(s, OwnLock(d)); d in t.locks && t.locks[d] == Own && Step(t, OwnDies(d)) == s
  {
    assert s.locks[d := Own] - {d} == s.locks;
  }

  // ---- a dead broker ----------------------------------------------------------------------------

  /** The states a client's row goes through; r0 is the row at the broker's death, n counts the
      attempts to fire its will. */
  ghost predicate Fresh(r0: Row, r: Row, n: nat) { r == r0 && n == 0 }

  ghost predicate Shot(r0: Row, r: Row, n: nat) { r == r0 && n == if Immediate(r0) then 1 else 0 }

  ghost predicate Placed(r0: Row, r: Row, n: nat, at: Time) {
    if Delayed(r0) then r == Scheduled(r0, at) && n == 0 else Shot(r0, r, n)
  }

  /** Fired exactly once, or scheduled at the due time, or (no will) just detached. */
  ghost predicate Done(r0: Row, r: Row, n: nat, at: Time) {
    if Delayed(r0) then r == Scheduled(r0, at) && n == 0
    else r == Cleared(r0) && n == if Immediate(r0) then 1 else 0
  }

  /** Nobody revives d or connects to it, and client c stays away; all other clients may come
      back on other brokers meanwhile. */
  predicate StaysDead(l: Label, d: Pod, c: Client) {
    !(l.OwnLock? && l.d == d) && !(l.Connect? && (l.c == c || On(l.row, d)))
  }

  predicate NoneOn(rows: Rows, d: Pod) { forall x | x in rows :: !On(rows[x], d) }

  /** A janitor at this point of its work on d, and what it has done to client c. */
  ghost predicate Progress(pc: Option<Pc>, r0: Row, r: Row, n: nat, at: Option<Time>, c: Client) {
    match pc
    case None => Fresh(r0, r, n)
    case Some(Locked) => Fresh(r0, r, n)
    case Some(Firing(todo)) => if c in todo then Immediate(r0) && Fresh(r0, r, n) else Shot(r0, r, n)
    case Some(Scheduling) => Shot(r0, r, n)
    case Some(Clearing) => at.Some? && Placed(r0, r, n, at.value)
    case Some(Unlocking) => false
  }

  function PcOf(s: State, d: Pod): Option<Pc> { if d in s.pcs then Some(s.pcs[d]) else None }

  function AtOf(s: State, c: Client): Option<Time> { if c in s.at then Some(s.at[c]) else None }

  /** The broker was handled: c is done, no row names d, and nobody has c's will left to fire. */
  ghost predicate Finished(s: State, r0: Row, d: Pod, c: Client)
    requires c in s.rows
  {
    && AtOf(s, c).Some?
    && Done(r0, s.rows[c], s.fired[(d, c)], AtOf(s, c).value)
    && NoneOn(s.rows, d)
    && (d in s.pcs && s.pcs[d].Firing? ==> c !in s.pcs[d].todo)
  }

  /** Locks and counters agree; c's row is on d or on nobody, and no other broker's janitor is
      about to fire its will. */
  ghost predicate Shape(s: State, d: Pod, c: Client) {
    && (forall b | b in s.pcs :: b in s.locks && s.locks[b].Reaper?)
    && (d in s.locks ==> d in s.pcs)
    && (d in s.pcs && s.pcs[d].Firing? ==> Distinct(s.pcs[d].todo))
    && (forall b | b in s.pcs && b != d && s.pcs[b].Firing? :: c !in s.pcs[b].todo)
    && c in s.rows && (s.rows[c].broker == None || On(s.rows[c], d))
  }

  ghost predicate Inv(s: State, r0: Row, d: Pod, c: Client) {
    && Shape(s, d, c) && On(r0, d)
    && (Finished(s, r0, d, c) || Progress(PcOf(s, d), r0, s.rows[c], s.fired[(d, c)], AtOf(s, c), c))
  }

  lemma LockKeeps(s: State, l: Label, r0: Row, d: Pod, c: Client)
    requires (l.TryLock? || l.Unlock? || l.OwnLock? || l.OwnDies?) && StaysDead(l, d, c) && Inv(s, r0, d, c)
    ensures Inv(Step(s, l), r0, d, c)
  {
  }

  lemma ScanKeeps(s: State, l: Label, r0: Row, d: Pod, c: Client)
    requires l.Scan? && Inv(s, r0, d, c)
    ensures Inv(Step(s, l), r0, d, c)
  {
  }

  lemma FireKeeps(s: State, l: Label, r0: Row, d: Pod, c: Client)
    requires l.Fire? && Inv(s, r0, d, c)
    ensures Inv(Step(s, l), r0, d, c)
  {
    if Step(s, l) != s && s.pcs[l.d].todo != [] {
      var todo := s.pcs[l.d].todo;
      assert c in todo <==> c == todo[0] || c in todo[1..];
    }
  }

  lemma ScheduleKeeps(s: State, l: Label, r0: Row, d: Pod, c: Client)
    requires l.Schedule? && Inv(s, r0, d, c)
    ensures Inv(Step(s, l), r0, d, c)
  {
  }

  lemma ClearKeeps(s: State, l: Label, r0: Row, d: Pod, c: Client)
    requires l.Clear? && Inv(s, r0, d, c)
    ensures Inv(Step(s, l), r0, d, c)
  {
  }

  lemma ConnectKeeps(s: State, l: Label, r0: Row, d: Pod, c: Client)
    requires l.Connect? && StaysDead(l, d, c) && Inv(s, r0, d, c)
    ensures Inv(Step(s, l), r0, d, c)
  {
  }

  lemma StepKeeps(s: State, l: Label, r0: Row, d: Pod, c: Client)
    requires StaysDead(l, d, c) && Inv(s, r0, d, c)
    ensures Inv(Step(s, l), r0, d, c)
  {
    match l
    case Scan(_, _, _) => ScanKeeps(s, l, r0, d, c);
    case Fire(_, _) => FireKeeps(s, l, r0, d, c);
    case Schedule(_, _, _) => ScheduleKeeps(s, l, r0, d, c);
    case Clear(_, _) => ClearKeeps(s, l, r0, d, c);
    case Connect(_, _) => ConnectKeeps(s, l, r0, d, c);
    case _ => LockKeeps(s, l, r0, d, c);
  }

  lemma {:induction false} RunKeeps(s: State, ls: seq<Label>, r0: Row, d: Pod, c: Client)
    requires Inv(s, r0, d, c) && forall i | 0 <= i < |ls| :: StaysDead(ls[i], d, c)
    ensures Inv(Run(s, ls), r0, d, c)
    decreases |ls|
  {
    if ls != [] {
      StepKeeps(s, ls[0], r0, d, c);
      RunKeeps(Step(s, ls[0]), ls[1..], r0, d, c);
    }
  }

  /** For any number of interleaved janitors, once one of them has finished with a dead broker:
      no row names that broker, and the will of each client it owned that stayed away was either
      attempted exactly once or scheduled at min(now + delay, session expiry), never both, never
      neither.  `now` is the time of the scheduling statement. */
  lemma DeadBrokerHandled(rows0: Rows, d: Pod, ls: seq<Label>, c: Client)
    requires c in rows0 && On(rows0[c], d) && (rows0[c].delay.Some? ==> rows0[c].delay.value >= 0)
    requires forall i | 0 <= i < |ls| :: StaysDead(ls[i], d, c)
    requires var s := Run(State(rows0, map[], map[], multiset{}, map[]), ls);
      c in s.rows && s.rows[c].broker == None && (PcOf(s, d) == None || PcOf(s, d) == Some(Unlocking))
    ensures var s, r0 := Run(State(rows0, map[], map[], multiset{}, map[]), ls), rows0[c];
      && (forall x | x in s.rows :: !On(s.rows[x], d))
      && (r0.will.Some? ==>
            (s.fired[(d, c)] == 1 && (r0.delay == None || r0.delay == Some(0)) && WillCleared(r0, s.rows[c]))
            != (s.fired[(d, c)] == 0 && r0.delay != Some(0) && c in s.at && DueAsPromised(r0, s.rows[c], s.at[c])))
      && (r0.will == None ==> s.fired[(d, c)] == 0 && WillCleared(r0, s.rows[c]))
  {
    var s0 := State(rows0, map[], map[], multiset{}, map[]);
    RunKeeps(s0, ls, rows0[c], d, c);
    assert Finished(Run(s0, ls), rows0[c], d, c);
  }

  // ---- a reaper finishes ------------------------------------------------------------------------

  function Fires(j: JanitorId, d: Pod, n: nat): seq<Label> { if n == 0 then [] else [Fire(j, d)] + Fires(j, d, n - 1) }

  lemma {:induction false} RunAppend(s: State, a: seq<Label>, b: seq<Label>)
    ensures Run(s, a + b) == Run(Run(s, a), b)
    decreases |a|
  {
    if a == [] {
      assert a + b == b;
    } else {
      assert (a + b)[0] == a[0] && (a + b)[1..] == a[1..] + b;
      RunAppend(Step(s, a[0]), a[1..], b);
    }
  }

  /** The fire loop attempts each listed will once, and goes on to scheduling. */
  lemma {:induction false} FiresAll(s: State, j: JanitorId, d: Pod, todo: seq<Client>)
    requires Stands(s, j, d) && s.pcs[d] == Firing(todo)
    ensures Run(s, Fires(j, d, |todo| + 1))
      == s.(pcs := s.pcs[d := Scheduling], fired := s.fired + Attempted(d, todo))
    decreases |todo|
  {
    var ls, s1 := Fires(j, d, |todo| + 1), Step(s, Fire(j, d));
    assert ls[1..] == Fires(j, d, |todo|);
    FireStep(s, j, d, todo);
    if todo != [] {
      FiresAll(s1, j, d, todo[1..]);
      assert s1.pcs[d := Scheduling] == s.pcs[d := Scheduling];
    }
  }

  lemma FireStep(s: State, j: JanitorId, d: Pod, todo: seq<Client>)
    requires Stands(s, j, d) && s.pcs[d] == Firing(todo)
    ensures Step(s, Fire(j, d))
      == if todo == [] then s.(pcs := s.pcs[d := Scheduling])
         else s.(fired := s.fired + multiset{(d, todo[0])}, pcs := s.pcs[d := Firing(todo[1..])])
  {
  }

  function Attempted(d: Pod, todo: seq<Client>): multiset<(Pod, Client)> {
    if todo == [] then multiset{} else multiset{(d, todo[0])} + Attempted(d, todo[1..])
  }

  /** From the scheduling on: the two UPDATEs, and the lock is released. */
  lemma ClearsUp(s: State, j: JanitorId, d: Pod, now: Time)
    requires Stands(s, j, d) && s.pcs[d] == Scheduling
    ensures var t := Run(s, [Schedule(j, d, now), Clear(j, d), Unlock(j, d)]);
      && t.locks == s.locks - {d} && t.pcs == s.pcs - {d} && t.fired == s.fired
      && t.rows == ClearAll(ScheduleAll(s.rows, d, now), d)
  {
    var ls := [Schedule(j, d, now), Clear(j, d), Unlock(j, d)];
    assert ls[1..] == [Clear(j, d), Unlock(j, d)] && ls[1..][1..] == [Unlock(j, d)] && ls[1..][1..][1..] == [];
    var s1 := Step(s, ls[0]);
    var s2 := Step(s1, Clear(j, d));
    assert Run(s2, [Unlock(j, d)]) == Step(s2, Unlock(j, d));
    assert Run(s1, ls[1..]) == Run(s2, [Unlock(j, d)]);
    assert s2.pcs == s.pcs[d := Clearing][d := Unlocking] && s2.pcs - {d} == s.pcs - {d};
  }

  lemma ClearedRows(rows: Rows, d: Pod, now: Time)
    ensures var t := ClearAll(ScheduleAll(rows, d, now), d);
      && NoneOn(t, d) && t.Keys == rows.Keys && (forall c | c in rows && !On(rows[c], d) :: t[c] == rows[c])
  {
  }

  lemma LockedScan(s: State, j: JanitorId, d: Pod, order: seq<Client>)
    requires d !in s.locks && d !in s.pcs && FiringOrder(s.rows, d, order)
    ensures Step(Step(s, TryLock(j, d)), Scan(j, d, order))
      == s.(locks := s.locks[d := Reaper(j)], pcs := s.pcs[d := Firing(order)])
  {
    assert s.pcs[d := Locked][d := Firing(order)] == s.pcs[d := Firing(order)];
  }

  /** A janitor left alone with a broker whose lock is free handles it to the end: no row names it, no
      other row changed, its wills are attempted or scheduled, and the lock is free again. */
  lemma ReaperFinishes(s: State, j: JanitorId, d: Pod, order: seq<Client>, now: Time) returns (ls: seq<Label>)
    requires d !in s.locks && d !in s.pcs && FiringOrder(s.rows, d, order)
    ensures var t := Run(s, ls);
      && t.locks == s.locks && t.pcs == s.pcs && t.fired == s.fired + Attempted(d, order) && NoneOn(t.rows, d)
      && t.rows.Keys == s.rows.Keys && (forall c | c in s.rows && !On(s.rows[c], d) :: t.rows[c] == s.rows[c])
  {
    var s1 := Step(s, TryLock(j, d));
    var s2 := Step(s1, Scan(j, d, order));
    LockedScan(s, j, d, order);
    var a, b := Fires(j, d, |order| + 1), [Schedule(j, d, now), Clear(j, d), Unlock(j, d)];
    FiresAll(s2, j, d, order);
    var s3 := Run(s2, a);
    ClearsUp(s3, j, d, now);
    ls := [TryLock(j, d)] + ([Scan(j, d, order)] + (a + b));
    assert ls[1..] == [Scan(j, d, order)] + (a + b) && ls[1..][1..] == a + b;
    assert Run(s1, ls[1..]) == Run(s2, a + b);
    RunAppend(s2, a, b);
    ClearedRows(s.rows, d, now);
    assert s3.locks - {d} == s.locks && s3.pcs - {d} == s.pcs;
  }

  // ---- clients that come back meanwhile ---------------------------------------------------------

  /** Nobody revives d or connects to it; any client, c included, may connect elsewhere. */
  predicate Gone(l: Label, d: Pod) { !(l.OwnLock? && l.d == d) && !(l.Connect? && On(l.row, d)) }

  /** A reaper of d has yet to fire the will of c. */
  predicate InTodo(s: State, d: Pod, c: Client) { d in s.pcs && s.pcs[d].Firing? && c in s.pcs[d].todo }

  /** Attempts for d made and still to come. */
  function Attempts(s: State, d: Pod, c: Client): nat { s.fired[(d, c)] + if InTodo(s, d, c) then 1 else 0 }

  ghost predicate LocksOk(s: State, d: Pod) {
    && (d in s.pcs <==> d in s.locks && s.locks[d].Reaper?)
    && !(d in s.locks && s.locks[d].Own?)
    && (d in s.pcs && s.pcs[d].Firing? ==> Distinct(s.pcs[d].todo))
  }

  /** At most one attempt; none yet while the row names d and no reaper has scanned it. */
  ghost predicate Once(s: State, d: Pod, c: Client) {
    && LocksOk(s, d)
    && Attempts(s, d, c) <= 1
    && (c in s.rows && On(s.rows[c], d) ==>
          (PcOf(s, d) == None || PcOf(s, d) == Some(Locked) ==> s.fired[(d, c)] == 0) && PcOf(s, d) != Some(Unlocking))
  }

  lemma OnceStep(s: State, l: Label, d: Pod, c: Client)
    requires Gone(l, d) && Once(s, d, c)
    ensures Once(Step(s, l), d, c)
  {
    if l.Fire? && Step(s, l) != s && s.pcs[l.d].todo != [] {
      var todo := s.pcs[l.d].todo;
      assert c in todo <==> c == todo[0] || c in todo[1..];
    }
  }

  lemma {:induction false} OnceRun(s: State, ls: seq<Label>, d: Pod, c: Client)
    requires Once(s, d, c) && forall i | 0 <= i < |ls| :: Gone(ls[i], d)
    ensures Once(Run(s, ls), d, c)
    decreases |ls|
  {
    if ls != [] {
      OnceStep(s, ls[0], d, c);
      OnceRun(Step(s, ls[0]), ls[1..], d, c);
    }
  }

  /** On every run, whatever its clients do, the will of each client of a dead broker is attempted
      for that broker at most once. */
  lemma AttemptedAtMostOnce(rows0: Rows, d: Pod, ls: seq<Label>, c: Client)
    requires forall i | 0 <= i < |ls| :: Gone(ls[i], d)
    ensures Run(State(rows0, map[], map[], multiset{}, map[]), ls).fired[(d, c)] <= 1
  {
    OnceRun(State(rows0, map[], map[], multiset{}, map[]), ls, d, c);
  }

  /** The client is elsewhere: no reaper of d will add it to its list again. */
  ghost predicate Elsewhere(s: State, d: Pod, c: Client) { LocksOk(s, d) && c in s.rows && !On(s.rows[c], d) }

  lemma ElsewhereStep(s: State, l: Label, d: Pod, c: Client)
    requires Gone(l, d) && Elsewhere(s, d, c)
    ensures Elsewhere(Step(s, l), d, c) && Attempts(Step(s, l), d, c) == Attempts(s, d, c)
    ensures !l.Connect? && l.d == d ==> Step(s, l).rows[c] == s.rows[c]
  {
    if l.Fire? && Step(s, l) != s && s.pcs[l.d].todo != [] {
      var todo := s.pcs[l.d].todo;
      assert c in todo <==> c == todo[0] || c in todo[1..];
      assert l.d == d ==> todo[0] !in todo[1..];
    }
  }

  lemma {:induction false} ElsewhereRun(s: State, ls: seq<Label>, d: Pod, c: Client)
    requires Elsewhere(s, d, c) && forall i | 0 <= i < |ls| :: Gone(ls[i], d)
    ensures Elsewhere(Run(s, ls), d, c) && Attempts(Run(s, ls), d, c) == Attempts(s, d, c)
    decreases |ls|
  {
    if ls != [] {
      ElsewhereStep(s, ls[0], d, c);
      ElsewhereRun(Step(s, ls[0]), ls[1..], d, c);
    }
  }

  /** A client of a dead broker that comes back on another one: from then on no reaper of the dead
      broker changes its row, so the will it left there is not scheduled; and that will is
      attempted after its return if and only if it stood on a reaper's list when it returned, once
      that reaper is through. */
  lemma ReturnedClient(rows0: Rows, d: Pod, before: seq<Label>, c: Client, row: Row, after: seq<Label>, next: Label)
    requires !On(row, d) && (forall i | 0 <= i < |before| :: Gone(before[i], d))
    requires (forall i | 0 <= i < |after| :: Gone(after[i], d))
    ensures var s := Run(State(rows0, map[], map[], multiset{}, map[]), before);
      var t := Run(Step(s, Connect(c, row)), after);
      && (InTodo(t, d, c) || (t.fired[(d, c)] > s.fired[(d, c)] <==> InTodo(s, d, c)))
      && (t.fired[(d, c)] > s.fired[(d, c)] ==> InTodo(s, d, c) && t.fired[(d, c)] == 1)
      && c in t.rows && !On(t.rows[c], d)
      && (!next.Connect? && next.d == d && Gone(next, d) ==>
            c in Step(t, next).rows && Step(t, next).rows[c] == t.rows[c])
  {
    var s0 := State(rows0, map[], map[], multiset{}, map[]);
    OnceRun(s0, before, d, c);
    var s := Run(s0, before);
    ElsewhereRun(Step(s, Connect(c, row)), after, d, c);
    if Gone(next, d) { ElsewhereStep(Run(Step(s, Connect(c, row)), after), next, d, c); }
  }

  /** It happens: for every client, broker and immediate will, a reaper that has scanned fires the
      will of a client that is connected elsewhere by then. */
  lemma LiveWillFired(c: Client, d: Pod, e: Pod, will: int, row: Row)
    requires d != e && row.broker == Some(e) && row.connected
    ensures var rows0 := map[c := Row(Some(d), true, Some(will), None, None, None)];
      var ls := [TryLock(1, d), Scan(1, d, [c]), Connect(c, row), Fire(1, d)];
      var t := Run(State(rows0, map[], map[], multiset{}, map[]), ls);
      t.fired[(d, c)] == 1 && c in t.rows && t.rows[c] == row && forall i | 0 <= i < |ls| :: Gone(ls[i], d)
  {
    var rows0 := map[c := Row(Some(d), true, Some(will), None, None, None)];
    var s0 := State(rows0, map[], map[], multiset{}, map[]);
    var ls := [TryLock(1, d), Scan(1, d, [c]), Connect(c, row), Fire(1, d)];
    var s1 := Step(s0, TryLock(1, d));
    assert FiringOrder(rows0, d, [c]);
    var s2 := Step(s1, Scan(1, d, [c]));
    var s3 := Step(s2, Connect(c, row));
    assert ls[1..][0] == ls[1] && ls[2..][0] == ls[2] && ls[3..][0] == ls[3];
    assert ls[1..][1..] == ls[2..] && ls[2..][1..] == ls[3..] && ls[3..][1..] == [];
    assert Run(s3, ls[3..]) == Step(s3, Fire(1, d));
    assert Run(s2, ls[2..]) == Run(s3, ls[3..]);
    assert Run(s1, ls[1..]) == Run(s2, ls[2..]);
  }

  // ---- stored delays ------------------------------------------------------------------------------

  const MAX_INT32: int := 0x7FFF_FFFF

  /** clampUint32ToInt32: what takeOwnership stores in will_delay. */
  function ClampUint32ToInt32(v: int): (r: int)
    requires 0 <= v < 0x1_0000_0000
    ensures 0 <= r <= MAX_INT32 && r <= v && (v <= MAX_INT32 ==> r == v)
  {
    if v > MAX_INT32 then MAX_INT32 else v
  }

  /** The split is total and exclusive exactly because stored delays are not negative: a
      negative delay would be neither fired nor scheduled. */
  lemma SplitNeedsNonNegative(r: Row)
    requires r.will.Some?
    ensures !(Immediate(r) && Delayed(r))
    ensures Immediate(r) || Delayed(r) <==> r.delay == None || r.delay.value >= 0
  {
  }

  // ---- the code, in its own form ----------------------------------------------------------------------

  /** handleDeadBroker alone: `wills` is the result of its SELECT, `got` of its try-lock. */
  method HandleDeadBroker(rows: Rows, d: Pod, wills: seq<Client>, got: bool, now: Time)
    returns (rows': Rows, fired: seq<Client>, claimed: bool)
    requires Distinct(wills) && forall c | c in wills :: c in rows && On(rows[c], d) && rows[c].will.Some?
    requires forall c | c in rows && On(rows[c], d) && rows[c].will.Some? :: c in wills
    ensures !got ==> rows' == rows && fired == [] && !claimed
    ensures got ==> rows'.Keys == rows.Keys && Distinct(fired)
    ensures got ==> forall c | c in rows && rows[c].broker == Some(d) ::
      if rows[c].will.Some? && rows[c].delay.Some? && rows[c].delay.value > 0 then DueAsPromised(rows[c], rows'[c], now)
      else WillCleared(rows[c], rows'[c])
    ensures got ==> forall c :: c in fired <==>
      && c in rows && rows[c].broker == Some(d)
      && rows[c].will.Some? && (rows[c].delay == None || rows[c].delay == Some(0))
    ensures got ==> (claimed <==> exists c :: c in rows && On(rows[c], d) && !Delayed(rows[c]))
    ensures forall c | c in rows && !On(rows[c], d) :: c in rows' && rows'[c] == rows[c]
  {
    rows', fired, claimed := rows, [], false;
    if !got { return; }
    for i := 0 to |wills|
      invariant Distinct(fired) && rows' == rows
      invariant forall c :: c in fired <==> c in wills[..i] && Immediate(rows[c])
    {
      var c := wills[i];
      assert c in wills;
      assert On(rows[c], d) by { assert c in rows; }
      var w := rows[c];
      assert wills[..i + 1] == wills[..i] + [wills[i]] && wills[i] !in wills[..i];
      if w.delay == None || w.delay == Some(0) { fired := fired + [wills[i]]; }
    }
    assert wills[..|wills|] == wills;
    rows' := ScheduleAll(rows', d, now);
    assert forall c | c in rows :: c in rows' && (On(rows'[c], d) <==> On(rows[c], d) && !Delayed(rows[c]));
    claimed := exists c | c in rows' :: On(rows'[c], d);
    rows' := ClearAll(rows', d);
  }
}
