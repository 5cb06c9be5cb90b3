/** Inbound QoS 2 end to end: the dedup transaction composed with a publisher that follows
    sections 4.3.3 and 4.4 of MQTT Version 5.0, over failed transactions, lost sockets and clean
    starts.  A dedup row can vanish at any time (`Forget`): the sweep of disconnected sessions, the
    end of a session and the clean-up of a clean start delete it, the last possibly late or never.
    And the handlers of an earlier socket are not stopped by a takeover: the packets it has received
    may take effect at any later time (`Late`). */
module ExactlyOnce {
  import opened Prelude

  type Pid = int
  type Msg = int

  /** Where the publisher stands with an identifier in use. */
  datatype Flight = AwaitRec(msg: Msg) | AwaitComp(msg: Msg)

  datatype Up = Publish(pid: Pid, msg: Msg) | Pubrel(pid: Pid)
  datatype Down = Pubrec(pid: Pid) | Pubcomp(pid: Pid)

  /** `started` and `completed` are the publisher's history, `inserted` the broker's.  `dedup` is the
      inbound_qos2 table: its key is the row, the message that left it is history.  `late` holds the
      packets that earlier sockets have received. */
  datatype State = State(
    flights: map<Pid, Flight>, started: set<Msg>, completed: set<Msg>, dedup: map<Pid, Msg>, inserted: seq<Msg>,
    toBroker: seq<Up>, toClient: seq<Down>, late: multiset<Up>)

  /** `Renew` is a reconnect with Clean Start: the publisher gives up what it has in flight. */
  datatype Label =
    | Start(pid: Pid, msg: Msg)
    | Broker(txFails: bool)
    | Client
    | Reconnect(resent: seq<Up>)
    | Renew
    | Forget(pid: Pid)
    | Late(up: Up, txFails: bool)

  /** Section 4.4: what a publisher resends for an identifier. */
  function Resend(pid: Pid, f: Flight): Up {
    if f.AwaitRec? then Publish(pid, f.msg) else Pubrel(pid)
  }

  predicate ResendsAll(flights: map<Pid, Flight>, ups: seq<Up>) {
    && (forall i | 0 <= i < |ups| :: ups[i].pid in flights && ups[i] == Resend(ups[i].pid, flights[ups[i].pid]))
    && (forall i, j | 0 <= i < j < |ups| :: ups[i].pid != ups[j].pid)
    && (forall p | p in flights :: exists i :: 0 <= i < |ups| && ups[i].pid == p)
  }

  function Step(s: State, l: Label): State {
    match l
    case Start(pid, msg) =>
      if pid in s.flights || msg in s.started then s
      else s.(flights := s.flights[pid := AwaitRec(msg)], started := s.started + {msg},
              toBroker := s.toBroker + [Publish(pid, msg)])
    case Broker(txFails) =>
      if s.toBroker == [] then s
      else if s.toBroker[0].Pubrel? then Released(s.(toBroker := s.toBroker[1..]), s.toBroker[0].pid)
      else Published(s.(toBroker := s.toBroker[1..]), s.toBroker[0].pid, s.toBroker[0].msg, txFails)
    case Client =>
      if s.toClient == [] then s else Answered(s.(toClient := s.toClient[1..]), s.toClient[0])
    case Reconnect(ups) =>
      if !ResendsAll(s.flights, ups) then s
      else s.(toBroker := ups, toClient := [], late := s.late + multiset(s.toBroker))
    case Renew => s.(flights := map[], toBroker := [], toClient := [], late := s.late + multiset(s.toBroker))
    case Forget(pid) => s.(dedup := s.dedup - {pid})
    case Late(m, txFails) =>
      if m !in s.late then s
      else
        var s' := s.(late := s.late - multiset{m});
        if m.Pubrel? then s'.(dedup := s.dedup - {m.pid})
        else if m.pid in s.dedup || txFails then s'
        else s'.(dedup := s.dedup[m.pid := m.msg], inserted := s.inserted + [m.msg])
  }

  /** handlePubrel. */
  function Released(s: State, pid: Pid): State {
    s.(dedup := s.dedup - {pid}, toClient := s.toClient + [Pubcomp(pid)])
  }

  /** publishCore: a hit in the dedup table is answered and nothing else; a failed transaction leaves
      nothing and drops the socket. */
  function Published(s: State, pid: Pid, msg: Msg, txFails: bool): State {
    if pid in s.dedup then s.(toClient := s.toClient + [Pubrec(pid)])
    else if txFails then s.(toBroker := [], toClient := [])
    else s.(dedup := s.dedup[pid := msg], inserted := s.inserted + [msg], toClient := s.toClient + [Pubrec(pid)])
  }

  /** The publisher, section 4.3.3. */
  function Answered(s: State, m: Down): State {
    if m.pid !in s.flights then s
    else if m.Pubrec? && s.flights[m.pid].AwaitRec? then
      s.(flights := s.flights[m.pid := AwaitComp(s.flights[m.pid].msg)], toBroker := s.toBroker + [Pubrel(m.pid)])
    else if m.Pubcomp? && s.flights[m.pid].AwaitComp? then
      s.(flights := s.flights - {m.pid}, completed := s.completed + {s.flights[m.pid].msg})
    else s
  }

  function Run(s: State, ls: seq<Label>): State
    decreases |ls|
  {
    if ls == [] then s else Run(Step(s, ls[0]), ls[1..])
  }

  const Init := State(map[], {}, {}, map[], [], [], [], multiset{})

  // ---- what every run keeps -----------------------------------------------------------------

  /** At most one message about an identifier is under way, in either direction. */
  ghost predicate OneEach(up: seq<Up>, down: seq<Down>) {
    && (forall i, j | 0 <= i < j < |up| :: up[i].pid != up[j].pid)
    && (forall i, j | 0 <= i < j < |down| :: down[i].pid != down[j].pid)
    && (forall i, j | 0 <= i < |up| && 0 <= j < |down| :: up[i].pid != down[j].pid)
  }

  ghost predicate UpOk(m: Up, flights: map<Pid, Flight>) { m.pid in flights && m == Resend(m.pid, flights[m.pid]) }

  ghost predicate DownOk(m: Down, flights: map<Pid, Flight>) {
    m.pid in flights && if m.Pubrec? then flights[m.pid].AwaitRec? else flights[m.pid].AwaitComp?
  }

  ghost predicate ChannelsOk(s: State) {
    && OneEach(s.toBroker, s.toClient)
    && (forall i | 0 <= i < |s.toBroker| :: UpOk(s.toBroker[i], s.flights))
    && (forall i | 0 <= i < |s.toClient| :: DownOk(s.toClient[i], s.flights))
  }

  /** Each message is in flight under one identifier, and not completed. */
  ghost predicate FlightsOk(s: State) {
    && (forall p | p in s.flights :: s.flights[p].msg in s.started && s.flights[p].msg !in s.completed)
    && (forall p, q | p in s.flights && q in s.flights && s.flights[p].msg == s.flights[q].msg :: p == q)
  }

  /** A late PUBLISH whose message is still in flight carries its identifier. */
  ghost predicate LateOk(m: Up, s: State) {
    m.Publish? ==> m.msg in s.started && forall p | p in s.flights && s.flights[p].msg == m.msg :: p == m.pid
  }

  ghost predicate TablesOk(s: State) {
    && (forall p | p in s.dedup :: s.dedup[p] in s.inserted)
    && (forall m | m in s.inserted :: m in s.started)
    && s.completed <= s.started
    && (forall m | m in s.late :: LateOk(m, s))
  }

  ghost predicate Base(s: State) { ChannelsOk(s) && FlightsOk(s) && TablesOk(s) }

  lemma StartBase(s: State, l: Label)
    requires l.Start? && Base(s)
    ensures Base(Step(s, l))
  {
    forall m | m in s.late ensures LateOk(m, Step(s, l)) { assert LateOk(m, s); }
  }

  lemma BrokerChannels(s: State, l: Label)
    requires l.Broker? && Base(s) && s.toBroker != []
    ensures ChannelsOk(Step(s, l))
  {
    var s' := Step(s, l);
    assert UpOk(s.toBroker[0], s.flights);
    forall i | 0 <= i < |s'.toBroker| ensures UpOk(s'.toBroker[i], s'.flights) {
      assert UpOk(s.toBroker[i + 1], s.flights);
    }
    forall i | 0 <= i < |s'.toClient| ensures DownOk(s'.toClient[i], s'.flights) {
      assert i < |s.toClient| ==> DownOk(s.toClient[i], s.flights);
    }
  }

  lemma BrokerBase(s: State, l: Label)
    requires l.Broker? && Base(s)
    ensures Base(Step(s, l))
  {
    if s.toBroker != [] {
      BrokerChannels(s, l);
      assert UpOk(s.toBroker[0], s.flights);
      forall m | m in s.late ensures LateOk(m, Step(s, l)) { assert LateOk(m, s); }
    }
  }

  lemma ClientChannels(s: State)
    requires Base(s) && s.toClient != []
    ensures ChannelsOk(Step(s, Client))
  {
    var s' := Step(s, Client);
    assert DownOk(s.toClient[0], s.flights);
    forall i | 0 <= i < |s'.toBroker| ensures UpOk(s'.toBroker[i], s'.flights) {
      assert i < |s.toBroker| ==> UpOk(s.toBroker[i], s.flights);
    }
    forall i | 0 <= i < |s'.toClient| ensures DownOk(s'.toClient[i], s'.flights) {
      assert DownOk(s.toClient[i + 1], s.flights);
    }
  }

  lemma ClientBase(s: State)
    requires Base(s)
    ensures Base(Step(s, Client))
  {
    if s.toClient != [] {
      ClientChannels(s);
      forall m | m in s.late ensures LateOk(m, Step(s, Client)) { assert LateOk(m, s); }
    }
  }

  lemma LateMore(s: State)
    requires Base(s)
    ensures forall m | m in s.late + multiset(s.toBroker) :: LateOk(m, s)
  {
    forall m | m in s.late + multiset(s.toBroker) ensures LateOk(m, s) {
      if m !in s.late {
        var i :| 0 <= i < |s.toBroker| && s.toBroker[i] == m;
        assert UpOk(s.toBroker[i], s.flights);
      }
    }
  }

  lemma ReconnectBase(s: State, l: Label)
    requires (l.Reconnect? || l.Renew?) && Base(s)
    ensures Base(Step(s, l))
  {
    LateMore(s);
    forall m | m in Step(s, l).late ensures LateOk(m, Step(s, l)) { assert LateOk(m, s); }
  }

  lemma RowsBase(s: State, l: Label)
    requires (l.Forget? || l.Late?) && Base(s)
    ensures Base(Step(s, l))
  {
    forall m | m in Step(s, l).late ensures LateOk(m, Step(s, l)) { assert LateOk(m, s); }
    if l.Late? && l.up in s.late { assert LateOk(l.up, s); }
  }

  lemma StepBase(s: State, l: Label)
    requires Base(s)
    ensures Base(Step(s, l))
  {
    match l
    case Start(_, _) => StartBase(s, l);
    case Broker(_) => BrokerBase(s, l);
    case Client => ClientBase(s);
    case Forget(_) => RowsBase(s, l);
    case Late(_, _) => RowsBase(s, l);
    case _ => ReconnectBase(s, l);
  }

  // ---- no message twice, none lost -----------------------------------------------------------

  /** What can go wrong with a message: it is inserted twice, or acknowledged and never inserted. */
  datatype Fault = Doubled | Swallowed

  /** The dedup row of pid protects a message that its publisher may still send again: it is in
      the table, and the publisher has not seen a PUBREC for it. */
  predicate Protects(s: State, pid: Pid) {
    pid in s.flights && s.flights[pid].AwaitRec? && s.flights[pid].msg in s.inserted
  }

  /** The step shapes that break exactly-once.  A message is doubled when the row that protects it
      vanishes, or when a late PUBLISH finds no dedup row although its message is in the table.  It
      is swallowed when its PUBLISH is read while a row left by another message, of a session that
      was given up, stands under its identifier. */
  predicate Racy(s: State, l: Label, f: Fault) {
    match l
    case Forget(pid) => f == Doubled && Protects(s, pid)
    case Late(m, txFails) =>
      && f == Doubled && m in s.late
      && if m.Pubrel? then Protects(s, m.pid) else !txFails && m.pid !in s.dedup && m.msg in s.inserted
    case Broker(_) =>
      && f == Swallowed && s.toBroker != [] && s.toBroker[0].Publish?
      && s.toBroker[0].pid in s.dedup && s.dedup[s.toBroker[0].pid] != s.toBroker[0].msg
    case _ => false
  }

  ghost predicate RacyRun(s: State, ls: seq<Label>, f: Fault)
    decreases |ls|
  {
    ls != [] && (Racy(s, ls[0], f) || RacyRun(Step(s, ls[0]), ls[1..], f))
  }

  /** A message in the table that may be sent again has its row. */
  ghost predicate Unique(s: State) {
    && Distinct(s.inserted)
    && (forall p | Protects(s, p) :: p in s.dedup && s.dedup[p] == s.flights[p].msg)
  }

  /** Every message for which the publisher has, or will get, a PUBREC is in the table. */
  ghost predicate Whole(s: State) {
    && (forall p | p in s.flights && s.flights[p].AwaitComp? :: s.flights[p].msg in s.inserted)
    && (forall i | 0 <= i < |s.toClient| && s.toClient[i].Pubrec? && s.toClient[i].pid in s.flights ::
          s.flights[s.toClient[i].pid].msg in s.inserted)
    && (forall m | m in s.completed :: m in s.inserted)
  }

  lemma BrokerUnique(s: State, l: Label)
    requires l.Broker? && Base(s) && Unique(s)
    ensures Unique(Step(s, l))
  {
    if s.toBroker != [] {
      var m, s' := s.toBroker[0], Step(s, l);
      assert UpOk(m, s.flights);
      assert m.Publish? && m.pid !in s.dedup ==> !Protects(s, m.pid);
      forall p | Protects(s', p) ensures p in s'.dedup && s'.dedup[p] == s'.flights[p].msg {
        assert p != m.pid ==> Protects(s, p);
      }
    }
  }

  lemma LateUnique(s: State, l: Label)
    requires l.Late? && Base(s) && Unique(s) && !Racy(s, l, Doubled)
    ensures Unique(Step(s, l))
  {
    if l.up in s.late {
      var s' := Step(s, l);
      assert LateOk(l.up, s);
      forall p | Protects(s', p) ensures p in s'.dedup && s'.dedup[p] == s'.flights[p].msg {
        assert !Protects(s, p) ==> l.up.Publish? && s.flights[p].msg == l.up.msg;
      }
    }
  }

  lemma OtherUnique(s: State, l: Label)
    requires !l.Broker? && !l.Late? && Base(s) && Unique(s) && !Racy(s, l, Doubled)
    ensures Unique(Step(s, l))
  {
    var s' := Step(s, l);
    forall p | Protects(s', p) ensures p in s'.dedup && s'.dedup[p] == s'.flights[p].msg { assert Protects(s, p); }
  }

  lemma BrokerWhole(s: State, l: Label)
    requires l.Broker? && Base(s) && Whole(s) && !Racy(s, l, Swallowed)
    ensures Whole(Step(s, l))
  {
    if s.toBroker != [] {
      assert UpOk(s.toBroker[0], s.flights);
    }
  }

  lemma ClientWhole(s: State)
    requires Base(s) && Whole(s)
    ensures Whole(Step(s, Client))
  {
    if s.toClient != [] {
      var s' := Step(s, Client);
      assert DownOk(s.toClient[0], s.flights);
      forall i | 0 <= i < |s'.toClient| && s'.toClient[i].Pubrec? && s'.toClient[i].pid in s'.flights
        ensures s'.flights[s'.toClient[i].pid].msg in s'.inserted
      {
        assert s'.toClient[i] == s.toClient[i + 1];
      }
    }
  }

  lemma OtherWhole(s: State, l: Label)
    requires !l.Broker? && !l.Client? && Base(s) && Whole(s)
    ensures Whole(Step(s, l))
  {
    forall i | 0 <= i < |s.toClient| ensures DownOk(s.toClient[i], s.flights) {}
  }

  lemma StepKeeps(s: State, l: Label)
    requires Base(s)
    ensures Base(Step(s, l))
    ensures Unique(s) && !Racy(s, l, Doubled) ==> Unique(Step(s, l))
    ensures Whole(s) && !Racy(s, l, Swallowed) ==> Whole(Step(s, l))
  {
    StepBase(s, l);
    if Unique(s) && !Racy(s, l, Doubled) {
      if l.Broker? { BrokerUnique(s, l); } else if l.Late? { LateUnique(s, l); } else { OtherUnique(s, l); }
    }
    if Whole(s) && !Racy(s, l, Swallowed) {
      if l.Broker? { BrokerWhole(s, l); } else if l.Client? { ClientWhole(s); } else { OtherWhole(s, l); }
    }
  }

  lemma {:induction false} RunKeeps(s: State, ls: seq<Label>)
    requires Base(s)
    ensures Base(Run(s, ls))
    ensures Unique(s) && !RacyRun(s, ls, Doubled) ==> Unique(Run(s, ls))
    ensures Whole(s) && !RacyRun(s, ls, Swallowed) ==> Whole(Run(s, ls))
    decreases |ls|
  {
    if ls != [] {
      StepKeeps(s, ls[0]);
      RunKeeps(Step(s, ls[0]), ls[1..]);
    }
  }

  /** Exactly once: however often transactions fail, sockets are lost, sessions are given up, dedup
      rows vanish and late handlers interfere, no message is inserted twice unless the run takes a
      doubling step, and every message whose handshake completed is in the table unless the run takes
      a swallowing one. */
  lemma InsertedExactlyOnce(ls: seq<Label>)
    ensures !RacyRun(Init, ls, Doubled) ==> Distinct(Run(Init, ls).inserted)
    ensures !RacyRun(Init, ls, Swallowed) ==> forall m | m in Run(Init, ls).completed :: m in Run(Init, ls).inserted
    ensures forall m | m in Run(Init, ls).inserted :: m in Run(Init, ls).started
  {
    RunKeeps(Init, ls);
  }

  /** The packets the publisher sends in a step. */
  function Sends(s: State, l: Label): nat {
    match l
    case Start(_, _) => 1
    case Client => 1
    case Reconnect(ups) => |ups|
    case _ => 0
  }

  function SendsAll(s: State, ls: seq<Label>): nat
    decreases |ls|
  {
    if ls == [] then 0 else Sends(s, ls[0]) + SendsAll(Step(s, ls[0]), ls[1..])
  }

  /** Packets not used up yet, and messages made of those that were. */
  function Packets(s: State): nat { |s.inserted| + |s.toBroker| + |s.late| }

  lemma StepSpends(s: State, l: Label)
    ensures Packets(Step(s, l)) <= Packets(s) + Sends(s, l)
  {
  }

  /** Every insertion uses up a packet: on every run there are at most as many as packets were sent. */
  lemma {:induction false} InsertionsSpendPackets(s: State, ls: seq<Label>)
    ensures Packets(Run(s, ls)) <= Packets(s) + SendsAll(s, ls)
    decreases |ls|
  {
    if ls != [] {
      StepSpends(s, ls[0]);
      InsertionsSpendPackets(Step(s, ls[0]), ls[1..]);
    }
  }

  // ---- retransmission ------------------------------------------------------------------------

  function Brokers(n: nat): seq<Label> { if n == 0 then [] else [Broker(false)] + Brokers(n - 1) }

  /** One packet about another identifier. */
  lemma BrokerOther(s: State, pid: Pid)
    requires Base(s) && pid in s.flights && s.toBroker != [] && s.toBroker[0].pid != pid
    ensures var t := Step(s, Broker(false));
      && Base(t) && t.toBroker == s.toBroker[1..] && t.flights == s.flights && (pid in t.dedup <==> pid in s.dedup)
      && (s.flights[pid].msg in t.inserted <==> s.flights[pid].msg in s.inserted)
  {
    BrokerBase(s, Broker(false));
    assert UpOk(s.toBroker[0], s.flights);
  }

  /** n packets about other identifiers. */
  lemma {:induction false} BrokerOthers(s: State, n: nat, pid: Pid)
    requires Base(s) && pid in s.flights && n <= |s.toBroker| && forall i | 0 <= i < n :: s.toBroker[i].pid != pid
    ensures var t := Run(s, Brokers(n));
      && Base(t) && t.toBroker == s.toBroker[n..] && t.flights == s.flights && (pid in t.dedup <==> pid in s.dedup)
      && (s.flights[pid].msg in t.inserted <==> s.flights[pid].msg in s.inserted)
    decreases n
  {
    if n > 0 {
      BrokerOther(s, pid);
      BrokerOthers(Step(s, Broker(false)), n - 1, pid);
      assert Brokers(n)[1..] == Brokers(n - 1);
      assert s.toBroker[1..][n - 1..] == s.toBroker[n..];
    }
  }

  /** A rolled-back publish leaves no dedup row.  Wherever its retransmission stands among the packets
      resent after the reconnect, that packet inserts the message, for the first time, if and only if
      no row of another message stands under its identifier. */
  lemma RetryFansOut(s: State, pid: Pid, ups: seq<Up>, i: nat)
    requires Base(s) && pid in s.flights && s.flights[pid].AwaitRec? && s.flights[pid].msg !in s.inserted
    requires ResendsAll(s.flights, ups) && i < |ups| && ups[i].pid == pid
    ensures var m, t := s.flights[pid].msg, Run(Step(s, Reconnect(ups)), Brokers(i));
      && m !in t.inserted
      && Step(t, Broker(false)).inserted == t.inserted + (if pid in s.dedup then [] else [m])
      && Step(t, Broker(true)).dedup == t.dedup && Step(t, Broker(true)).inserted == t.inserted
      && (pid !in s.dedup ==> Step(t, Broker(true)).toClient == [] && Step(t, Broker(true)).toBroker == [])
  {
    var s1 := Step(s, Reconnect(ups));
    ReconnectBase(s, Reconnect(ups));
    BrokerOthers(s1, i, pid);
    var t := Run(s1, Brokers(i));
    assert t.toBroker[0] == ups[i];
  }

  // ---- the exceptions are real ---------------------------------------------------------------

  /** Whatever is in flight can be resent, any identifier first. */
  lemma {:induction false} ResendExists(flights: map<Pid, Flight>, pid: Pid) returns (ups: seq<Up>)
    requires pid in flights
    ensures ResendsAll(flights, ups) && ups != [] && ups[0].pid == pid
    decreases |flights|
  {
    var rest := flights - {pid};
    ups := [Resend(pid, flights[pid])];
    if rest != map[] {
      assert rest.Keys == {} ==> rest == map[];
      if forall p :: p !in rest.Keys { assert false; }
      var q :| q in rest;
      assert rest.Keys == flights.Keys - {pid};
      var more := ResendExists(rest, q);
      ups := ups + more;
      ResendMore(flights, pid, more);
    } else {
      assert ups[0].pid == pid;
      forall p | p in flights ensures p == pid { assert p != pid ==> p in rest; }
    }
  }

  lemma ResendMore(flights: map<Pid, Flight>, pid: Pid, more: seq<Up>)
    requires pid in flights && ResendsAll(flights - {pid}, more)
    ensures ResendsAll(flights, [Resend(pid, flights[pid])] + more)
  {
    var ups := [Resend(pid, flights[pid])] + more;
    forall p | p in flights ensures exists i :: 0 <= i < |ups| && ups[i].pid == p {
      if p == pid {
        assert ups[0].pid == p;
      } else {
        assert p in flights - {pid};
        var i :| 0 <= i < |more| && more[i].pid == p;
        assert ups[i + 1].pid == p;
      }
    }
  }

  ghost predicate Twice(inserted: seq<Msg>, m: Msg) {
    exists i, j :: 0 <= i < j < |inserted| && inserted[i] == m && inserted[j] == m
  }

  /** The run ls starts with l and ends with m acknowledged and not in the table. */
  predicate Loses(s: State, l: Label, ls: seq<Label>, m: Msg) {
    ls != [] && ls[0] == l && m in Run(s, ls).completed && m !in Run(s, ls).inserted
  }

  lemma RunThree(s: State, a: Label, b: Label, c: Label, rest: seq<Label>)
    ensures Run(s, [a, b, c] + rest) == Run(Step(Step(Step(s, a), b), c), rest)
  {
    var ls := [a, b, c] + rest;
    assert ls[1..] == [b, c] + rest && ls[1..][1..] == [c] + rest && ls[1..][1..][1..] == rest;
    assert Run(Step(Step(s, a), b), [c] + rest) == Run(Step(Step(Step(s, a), b), c), rest);
    assert Run(Step(s, a), [b, c] + rest) == Run(Step(Step(s, a), b), [c] + rest);
  }

  lemma RunOne(s: State, a: Label, rest: seq<Label>)
    ensures Run(s, [a] + rest) == Run(Step(s, a), rest)
  {
    assert ([a] + rest)[1..] == rest;
  }

  /** Every step that takes a protecting row away has a continuation that inserts its message a
      second time. */
  lemma UnprotectedDoubles(s: State, l: Label, pid: Pid) returns (ls: seq<Label>)
    requires Racy(s, l, Doubled) && (l == Forget(pid) || (l.Late? && l.up == Pubrel(pid)))
    ensures ls != [] && ls[0] == l && Twice(Run(s, ls).inserted, s.flights[pid].msg)
  {
    var ups := ResendExists(s.flights, pid);
    ls := [l, Reconnect(ups), Broker(false)];
    RunThree(s, l, Reconnect(ups), Broker(false), []);
    assert ls + [] == ls;
    var t := Run(s, ls);
    assert t.inserted == s.inserted + [s.flights[pid].msg];
    var i :| 0 <= i < |s.inserted| && s.inserted[i] == s.flights[pid].msg;
    assert t.inserted[i] == t.inserted[|s.inserted|];
  }

  /** Every racy late PUBLISH is the second insertion itself. */
  lemma LatePublishDoubles(s: State, l: Label)
    requires l.Late? && l.up.Publish? && Racy(s, l, Doubled)
    ensures Twice(Step(s, l).inserted, l.up.msg)
  {
    var i :| 0 <= i < |s.inserted| && s.inserted[i] == l.up.msg;
    var t := Step(s, l);
    assert t.inserted[i] == t.inserted[|s.inserted|];
  }

  /** The first half of a handshake whose PUBLISH hits the row of another message. */
  lemma SwallowedPubrec(s: State, pid: Pid) returns (ls: seq<Label>)
    requires pid in s.flights && s.flights[pid].AwaitRec? && pid in s.dedup
    ensures var t, m := Run(s, ls), s.flights[pid].msg;
      && ls != [] && t.inserted == s.inserted && t.flights == s.flights[pid := AwaitComp(m)]
  {
    var ups := ResendExists(s.flights, pid);
    ls := [Reconnect(ups), Broker(false), Client];
    RunThree(s, Reconnect(ups), Broker(false), Client, []);
    assert ls + [] == ls;
    var s2 := Step(Step(s, Reconnect(ups)), Broker(false));
    assert s2.toClient == [Pubrec(pid)] && s2.flights == s.flights;
  }

  /** The second half: the publisher completes. */
  lemma SwallowedPubcomp(s: State, pid: Pid) returns (ls: seq<Label>)
    requires pid in s.flights && s.flights[pid].AwaitComp?
    ensures var t := Run(s, ls); t.inserted == s.inserted && s.flights[pid].msg in t.completed
  {
    var ups := ResendExists(s.flights, pid);
    ls := [Reconnect(ups), Broker(false), Client];
    RunThree(s, Reconnect(ups), Broker(false), Client, []);
    assert ls + [] == ls;
    var s2 := Step(Step(s, Reconnect(ups)), Broker(false));
    assert s2.toClient == [Pubcomp(pid)] && s2.flights == s.flights;
  }

  /** Every swallowing step on a message that is not in the table has a continuation in which its
      handshake completes and it is still not there. */
  lemma SwallowLoses(s: State, l: Label) returns (ls: seq<Label>)
    requires Base(s) && Racy(s, l, Swallowed) && s.toBroker[0].msg !in s.inserted
    ensures Loses(s, l, ls, s.toBroker[0].msg)
  {
    var pid := s.toBroker[0].pid;
    assert UpOk(s.toBroker[0], s.flights);
    var s1 := Step(s, l);
    assert s1.flights == s.flights && s1.dedup == s.dedup && s1.inserted == s.inserted;
    var a := SwallowedPubrec(s1, pid);
    var s2 := Run(s1, a);
    var b := SwallowedPubcomp(s2, pid);
    ls := [l] + (a + b);
    RunOne(s, l, a + b);
    RunAppended(s1, a, b);
  }

  lemma {:induction false} RunAppended(s: State, before: seq<Label>, after: seq<Label>)
    ensures Run(s, before + after) == Run(Run(s, before), after)
    decreases |before|
  {
    if before != [] {
      assert (before + after)[1..] == before[1..] + after;
      RunAppended(Step(s, before[0]), before[1..], after);
    } else {
      assert before + after == after;
    }
  }

  // ---- from the initial state ----------------------------------------------------------------

  /** For every message and identifier: its PUBREC is lost, the client stays away until the dedup row
      is swept, and its retransmission is inserted again. */
  lemma SweptRowDoubles(pid: Pid, msg: Msg) returns (ls: seq<Label>)
    ensures Twice(Run(Init, ls).inserted, msg)
  {
    var s1 := Step(Init, Start(pid, msg));
    var s2 := Step(s1, Broker(false));
    assert s2.inserted == [msg] && s2.flights[pid] == AwaitRec(msg);
    var rest := UnprotectedDoubles(s2, Forget(pid), pid);
    ls := [Start(pid, msg)] + ([Broker(false)] + rest);
    RunOne(Init, Start(pid, msg), [Broker(false)] + rest);
    RunOne(s1, Broker(false), rest);
  }

  /** The PUBLISH is sent, sent again after a reconnect, and inserted; the first copy is late. */
  lemma SentTwice(pid: Pid, msg: Msg)
    ensures var up := Publish(pid, msg);
      Step(Step(Step(Init, Start(pid, msg)), Reconnect([up])), Broker(false))
      == State(map[pid := AwaitRec(msg)], {msg}, {}, map[pid := msg], [msg], [], [Pubrec(pid)], multiset{up})
  {
    var up := Publish(pid, msg);
    var s1 := Step(Init, Start(pid, msg));
    assert s1 == State(map[pid := AwaitRec(msg)], {msg}, {}, map[], [], [up], [], multiset{});
    assert ResendsAll(s1.flights, [up]) by { assert [up][0].pid == pid; }
    var s2 := Step(s1, Reconnect([up]));
    assert s2 == s1.(late := multiset{up}) by { assert multiset([up]) == multiset{up}; }
  }

  /** For every message and identifier: the handler of the first socket is still at work on the
      PUBLISH when the client reconnects, resends and completes the handshake. */
  lemma OutlivedHandlerDoubles(pid: Pid, msg: Msg) returns (ls: seq<Label>)
    ensures Twice(Run(Init, ls).inserted, msg)
  {
    var up := Publish(pid, msg);
    var rest := [Client, Broker(false), Late(up, false)];
    ls := [Start(pid, msg), Reconnect([up]), Broker(false)] + rest;
    RunThree(Init, Start(pid, msg), Reconnect([up]), Broker(false), rest);
    SentTwice(pid, msg);
    var s := Step(Step(Step(Init, Start(pid, msg)), Reconnect([up])), Broker(false));
    RunThree(s, Client, Broker(false), Late(up, false), []);
    assert rest + [] == rest;
    var t := Step(Step(s, Client), Broker(false));
    assert pid !in t.dedup && up in t.late && msg in t.inserted;
    LatePublishDoubles(t, Late(up, false));
  }

  /** For every identifier and any two messages: the first one's session is given up, its dedup row is
      left behind (because a late handler inserts it after the clean-up, or because the clean-up is
      cut off), and the second one, sent under the same identifier by the new session, is acknowledged
      to the end and never inserted. */
  lemma LeftRowSwallows(pid: Pid, a: Msg, b: Msg, cutOff: bool) returns (ls: seq<Label>)
    requires a != b
    ensures b in Run(Init, ls).completed && b !in Run(Init, ls).inserted
  {
    var up := Publish(pid, a);
    var x, y := if cutOff then Broker(false) else Renew, if cutOff then Renew else Late(up, false);
    var s := Step(Step(Step(Init, Start(pid, a)), x), y);
    assert Step(Init, Start(pid, a)).toBroker == [up];
    assert s.flights == map[] && s.dedup == map[pid := a] && s.inserted == [a] && s.toBroker == [] && s.started == {a};
    var s1 := Step(s, Start(pid, b));
    assert s1.toBroker == [Publish(pid, b)];
    StepBase(Init, Start(pid, a));
    StepBase(Step(Init, Start(pid, a)), x);
    StepBase(Step(Step(Init, Start(pid, a)), x), y);
    StepBase(s, Start(pid, b));
    var rest := SwallowLoses(s1, Broker(false));
    ls := [Start(pid, a), x, y] + ([Start(pid, b)] + rest);
    RunThree(Init, Start(pid, a), x, y, [Start(pid, b)] + rest);
    RunOne(s, Start(pid, b), rest);
  }
}
