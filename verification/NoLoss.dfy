/** The other half of delivery: no QoS>0 row leaves the table of `Deliveries` unseen.  Over every run a
    row that is gone was handed to the application, unless it was dropped before anybody saw it, the
    client refused it, or an identifier was claimed while packets of its previous row were under way. */
module NoLoss {
  import opened Prelude
  import opened Deliveries
  import opened DeliveryRaces

  /** A QoS>0 PUBLISH under p on its way to the client. */
  predicate Carries(m: Down, p: Pid) { m.Publish? && m.qos > 0 && m.pid == p }

  /** Something of an earlier row under p is under way: with the client, in a channel, owed by the read
      loop, listed by some resume, or in the hands of a claimer. */
  ghost predicate Busy(s: State, p: Pid) {
    || p in s.held || s.owing == Some(p)
    || (exists i :: 0 <= i < |s.toClient| && (Carries(s.toClient[i], p) || s.toClient[i] == Pubrel(p)))
    || (exists i :: 0 <= i < |s.toBroker| && s.toBroker[i].pid == p)
    || (exists k, i :: k in s.resumes && 0 <= i < |s.resumes[k]| && s.resumes[k][i].pid == p)
    || (exists q :: q in s.unwritten && q in s.pids && q in s.born && s.born[q] > 0 && s.pids[q] == p)
  }

  /** The client turns a QoS-2 message down. */
  predicate Refuses(m: Down, held: set<Pid>, accept: bool) { m.Publish? && m.qos >= 2 && m.pid !in held && !accept }

  /** The steps that can lose a row: a claim of a busy identifier; a row deleted, or marked as received,
      by somebody else before the application has it; a refusal. */
  ghost predicate Lossy(s: State, l: Label) {
    match l
    case Attempt(id, pid, conn) => Claims(s.rows, id, pid) && conn <= s.conn && s.rows[id].qos > 0 && Busy(s, pid)
    case Delete(id) => id in s.rows && s.rows[id].qos > 0 && id !in s.handed
    case Advance(id) => id in s.rows && id !in s.handed
    case Recv(accept) => s.toClient != [] && Refuses(s.toClient[0], s.held, accept)
    case _ => false
  }

  ghost predicate LossyRun(s: State, ls: seq<Label>)
    decreases |ls|
  {
    ls != [] && (Lossy(s, ls[0]) || LossyRun(Step(s, ls[0]), ls[1..]))
  }

  // ---- what is known about a claimed row --------------------------------------------------------

  predicate Releases(it: Item, p: Pid) { it.Release? && it.pid == p }

  /** A trace of the row's exchange, which only arises once the client has taken the message. */
  ghost predicate Trace(s: State, r: Row, p: Pid) {
    if r.qos == 1 then exists i :: 0 <= i < |s.toBroker| && s.toBroker[i] == Puback(p)
    else
      || r.state == 2 || p in s.held || s.owing == Some(p)
      || (exists i :: 0 <= i < |s.toBroker| && s.toBroker[i].pid == p && !s.toBroker[i].Puback?)
      || (exists i :: 0 <= i < |s.toClient| && s.toClient[i] == Pubrel(p))
      || (exists k, i :: k in s.resumes && 0 <= i < |s.resumes[k]| && Releases(s.resumes[k][i], p))
  }

  /** Whatever is under way under p is about row id. */
  ghost predicate Sole(s: State, id: RowId, p: Pid) {
    && (forall i | 0 <= i < |s.toClient| && Carries(s.toClient[i], p) :: s.toClient[i].id == id)
    && (forall k, i | k in s.resumes && 0 <= i < |s.resumes[k]| && s.resumes[k][i].pid == p :: s.resumes[k][i].id == id)
    && (forall q | q in s.unwritten && q in s.pids && q in s.born && s.born[q] > 0 && s.pids[q] == p :: q == id)
  }

  ghost predicate RowSeen(s: State, id: RowId) {
    id in s.rows && s.rows[id].qos > 0 && s.rows[id].pid.Some? ==>
      Sole(s, id, s.rows[id].pid.value) && (Trace(s, s.rows[id], s.rows[id].pid.value) ==> id in s.handed)
  }

  /** A row that is gone was handed over. */
  ghost predicate Gone(s: State, id: RowId) { id in s.born && s.born[id] > 0 && id !in s.rows ==> id in s.handed }

  ghost predicate Inv(s: State) { forall id :: RowSeen(s, id) && Gone(s, id) }

  lemma AttemptKeeps(s: State, l: Label, id: RowId)
    requires l.Attempt? && ClaimInv(s) && Inv(s) && !Lossy(s, l)
    ensures RowSeen(Step(s, l), id) && Gone(Step(s, l), id)
  {
    var s' := Step(s, l);
    assert RowSeen(s, id) && Gone(s, id);
    if s' != s {
      assert RowOk(l.id, s.rows[l.id], s.born, s.pids);
      assert id in s.rows ==> RowOk(id, s.rows[id], s.born, s.pids);
    }
  }

  lemma WriteKeeps(s: State, l: Label, id: RowId)
    requires l.Write? && ClaimInv(s) && Inv(s)
    ensures RowSeen(Step(s, l), id) && Gone(Step(s, l), id)
  {
    assert RowSeen(s, id) && Gone(s, id);
  }

  lemma InsertKeeps(s: State, l: Label, id: RowId)
    requires l.Insert? && ClaimInv(s) && Inv(s)
    ensures RowSeen(Step(s, l), id) && Gone(Step(s, l), id)
  {
    assert RowSeen(s, id) && Gone(s, id);
    assert id in s.rows ==> RowOk(id, s.rows[id], s.born, s.pids);
  }

  lemma SocketKeeps(s: State, l: Label, id: RowId)
    requires (l.Abort? || l.Read? || l.Answer?) && ClaimInv(s) && Inv(s)
    ensures RowSeen(Step(s, l), id) && Gone(Step(s, l), id)
  {
    assert RowSeen(s, id) && Gone(s, id);
  }

  lemma ConnectKeeps(s: State, l: Label, id: RowId)
    requires l.Connect? && ClaimInv(s) && Inv(s)
    ensures RowSeen(Step(s, l), id) && Gone(Step(s, l), id)
  {
    assert RowSeen(s, id) && Gone(s, id);
  }

  lemma ScanKeeps(s: State, l: Label, id: RowId)
    requires l.Scan? && ClaimInv(s) && Inv(s)
    ensures RowSeen(Step(s, l), id) && Gone(Step(s, l), id)
  {
    assert RowSeen(s, id) && Gone(s, id);
    if Step(s, l) != s {
      assert forall i | 0 <= i < |l.items| :: Answers(s.rows[l.items[i].id], l.items[i]);
    }
  }

  lemma ResumeKeeps(s: State, l: Label, id: RowId)
    requires l.Resume? && ClaimInv(s) && Inv(s)
    ensures RowSeen(Step(s, l), id) && Gone(Step(s, l), id)
  {
    assert RowSeen(s, id) && Gone(s, id);
    var items := ListOf(s, l.socket);
    if items != [] {
      assert forall i | 0 <= i < |items| - 1 :: items[1..][i] == items[i + 1];
      assert items[0].pid == items[0].pid;
    }
  }

  lemma RecvKeeps(s: State, l: Label, id: RowId)
    requires l.Recv? && ClaimInv(s) && Inv(s) && !Lossy(s, l)
    ensures RowSeen(Step(s, l), id) && Gone(Step(s, l), id)
  {
    assert RowSeen(s, id) && Gone(s, id);
    if s.toClient != [] {
      var m := s.toClient[0];
      assert Faithful(m, s.born, s.pids);
      assert id in s.rows ==> RowOk(id, s.rows[id], s.born, s.pids);
    }
  }

  /** Fewer rows, fewer packets: only a row that went away has to be accounted for. */
  lemma FewerKeeps(s: State, t: State, id: RowId)
    requires Inv(s) && t == s.(rows := t.rows, toBroker := t.toBroker)
    requires forall i | 0 <= i < |t.toBroker| :: t.toBroker[i] in s.toBroker
    requires id in t.rows ==> id in s.rows && t.rows[id] == s.rows[id]
    requires id in s.rows && id !in t.rows && s.rows[id].qos > 0 ==> id in s.handed
    requires id in s.rows && s.rows[id].qos > 0 ==> id in s.born
    ensures RowSeen(t, id) && (id in s.born && (id in s.rows ==> s.rows[id].qos == s.born[id]) ==> Gone(t, id))
  {
    assert RowSeen(s, id) && Gone(s, id);
  }

  lemma PubrecKeeps(s: State, id: RowId)
    requires ClaimInv(s) && Inv(s) && s.reading && s.owing.None? && s.toBroker != [] && s.toBroker[0].Pubrec?
    ensures RowSeen(Step(s, Ack), id) && Gone(Step(s, Ack), id)
  {
    assert RowSeen(s, id) && Gone(s, id);
    assert id in s.rows ==> RowOk(id, s.rows[id], s.born, s.pids);
    assert s.toBroker[0].pid == s.toBroker[0].pid;
  }

  lemma AckKeeps(s: State, id: RowId)
    requires ClaimInv(s) && Inv(s)
    ensures RowSeen(Step(s, Ack), id) && Gone(Step(s, Ack), id)
  {
    assert RowSeen(s, id) && Gone(s, id);
    if Step(s, Ack) != s {
      assert id in s.rows ==> RowOk(id, s.rows[id], s.born, s.pids);
      assert s.toBroker[0].pid == s.toBroker[0].pid;
      if s.toBroker[0].Pubrec? { PubrecKeeps(s, id); } else { FewerKeeps(s, Step(s, Ack), id); }
    }
  }

  lemma DeleteKeeps(s: State, l: Label, id: RowId)
    requires l.Delete? && ClaimInv(s) && Inv(s) && !Lossy(s, l)
    ensures RowSeen(Step(s, l), id) && Gone(Step(s, l), id)
  {
    assert RowSeen(s, id) && Gone(s, id);
    assert id in s.rows ==> RowOk(id, s.rows[id], s.born, s.pids);
    FewerKeeps(s, Step(s, l), id);
  }

  lemma AdvanceKeeps(s: State, l: Label, id: RowId)
    requires l.Advance? && ClaimInv(s) && Inv(s) && !Lossy(s, l)
    ensures RowSeen(Step(s, l), id) && Gone(Step(s, l), id)
  {
    assert RowSeen(s, id) && Gone(s, id);
  }

  lemma StepKeeps(s: State, l: Label)
    requires ClaimInv(s) && Inv(s) && !Lossy(s, l)
    ensures Inv(Step(s, l))
  {
    forall id ensures RowSeen(Step(s, l), id) && Gone(Step(s, l), id) {
      match l
      case Insert(_, _) => InsertKeeps(s, l, id);
      case Attempt(_, _, _) => AttemptKeeps(s, l, id);
      case Write(_) => WriteKeeps(s, l, id);
      case Scan(_, _) => ScanKeeps(s, l, id);
      case Resume(_, _) => ResumeKeeps(s, l, id);
      case Recv(_) => RecvKeeps(s, l, id);
      case Ack => AckKeeps(s, id);
      case Delete(_) => DeleteKeeps(s, l, id);
      case Advance(_) => AdvanceKeeps(s, l, id);
      case Connect(_, _) => ConnectKeeps(s, l, id);
      case _ => SocketKeeps(s, l, id);
    }
  }

  lemma {:induction false} RunKeeps(s: State, ls: seq<Label>)
    requires ClaimInv(s) && Inv(s) && !LossyRun(s, ls)
    ensures Inv(Run(s, ls))
    decreases |ls|
  {
    if ls != [] {
      ClaimStep(s, ls[0]);
      StepKeeps(s, ls[0]);
      RunKeeps(Step(s, ls[0]), ls[1..]);
    }
  }

  /** At least once: on every run without a lossy step, a QoS>0 row that was inserted is still in the
      table or was handed to the application. */
  lemma AtLeastOnce(ls: seq<Label>, id: RowId)
    requires !LossyRun(Init, ls)
    ensures var s := Run(Init, ls); id in s.born && s.born[id] > 0 ==> id in s.rows || id in s.handed
  {
    RunKeeps(Init, ls);
    assert Gone(Run(Init, ls), id);
  }

  // ---- the loss is real ---------------------------------------------------------------------------

  /** A QoS-1 row is claimed on a socket that has not scanned yet. */
  lemma ClaimedFirst(q: RowId, p: Pid)
    ensures var t := Run(Init, [Connect(false, true), Insert(q, 1), Attempt(q, p, 1)]);
      t == Init.(rows := map[q := Row(1, 1, Some(p))], born := map[q := 1], pids := map[q := p],
                 unwritten := map[q := 1], conn := 1, reading := false, waiting := {1})
  {
    RunThree(Init, Connect(false, true), Insert(q, 1), Attempt(q, p, 1));
    ConnectStep(Init);
    var s1 := Step(Init, Connect(false, true));
    assert {} + {1} == {1};
    var s2 := Step(s1, Insert(q, 1));
    assert s2.rows == map[q := Row(1, 0, None)] && s2.born == map[q := 1];
  }

  /** It is scanned by the resume of that socket, repeated, and then written by its claimer. */
  lemma WrittenTwice(s: State, q: RowId, p: Pid)
    requires s.rows == map[q := Row(1, 1, Some(p))] && s.born == map[q := 1] && s.pids == map[q := p]
    requires s.unwritten == map[q := 1] && s.conn == 1 && s.waiting == {1} && s.toClient == [] && s.resumes == map[]
    ensures var t := Run(s, [Scan(1, [Again(q, p, 1)]), Resume(1, Delivered), Write(q)]);
      t == s.(unwritten := map[], waiting := {}, resumes := map[1 := []], written := t.written,
              toClient := [Publish(q, p, 1, true), Publish(q, p, 1, false)])
  {
    var items := [Again(q, p, 1)];
    assert ScanOf(s.rows, items) by { assert items[0].id == q; }
    RunThree(s, Scan(1, items), Resume(1, Delivered), Write(q));
    ScanStep(s, 1, items);
    var s1 := Step(s, Scan(1, items));
    assert s1 == s.(waiting := {}, resumes := map[1 := items]) && items[1..] == [];
    var s2 := Step(s1, Resume(1, Delivered));
    assert s2.toClient == [Publish(q, p, 1, true)] && s2.resumes == map[1 := []];
    WriteStep(s2, q);
  }

  lemma TakeQoS1(s: State, m: Down)
    requires s.toClient != [] && s.toClient[0] == m && m.Publish? && m.qos == 1
    ensures Step(s, Recv(true))
      == s.(toClient := s.toClient[1..], toBroker := s.toBroker + [Puback(m.pid)], handed := s.handed + [m.id])
  {
  }

  lemma DeleteQoS1(s: State, q: RowId, p: Pid)
    requires s.rows == map[q := Row(1, 1, Some(p))] && s.reading && s.owing.None?
    requires s.toBroker != [] && s.toBroker[0] == Puback(p)
    ensures Step(s, Ack) == s.(rows := map[], toBroker := s.toBroker[1..])
  {
    assert DeleteAcked(s.rows, p, 1) == map[];
  }

  /** The client takes both copies and acknowledges both; the first PUBACK deletes the row. */
  lemma AckedTwice(s: State, q: RowId, p: Pid)
    requires s.rows == map[q := Row(1, 1, Some(p))] && s.owing.None? && s.conn !in s.waiting && Items(s) == []
    requires s.toClient == [Publish(q, p, 1, true), Publish(q, p, 1, false)] && s.toBroker == []
    ensures var t := Run(Run(s, [Recv(true), Recv(true), Read]), [Ack]);
      t == s.(rows := map[], toClient := [], toBroker := [Puback(p)], handed := s.handed + [q] + [q], reading := true)
  {
    RunThree(s, Recv(true), Recv(true), Read);
    TakeQoS1(s, Publish(q, p, 1, true));
    var s1 := Step(s, Recv(true));
    assert s1.toClient == [Publish(q, p, 1, false)];
    TakeQoS1(s1, Publish(q, p, 1, false));
    var s2 := Step(s1, Recv(true));
    assert s2.toClient == [] && s2.toBroker == [Puback(p), Puback(p)];
    var s3 := Step(s2, Read);
    assert s3 == s2.(reading := true);
    RunCons(s3, Ack, []);
    assert [Ack] + [] == [Ack];
    DeleteQoS1(s3, q, p);
  }

  /** The next row claims the identifier, and the second PUBACK deletes it before it is written. */
  lemma SecondPuback(s: State, p: Pid, r: RowId)
    requires s.rows == map[] && s.reading && s.owing.None? && s.toBroker == [Puback(p)] && r !in s.born
    ensures var t := Run(s, [Insert(r, 1), Attempt(r, p, s.conn), Ack]);
      r in t.born && t.born[r] == 1 && r !in t.rows && t.handed == s.handed
    ensures Lossy(Step(s, Insert(r, 1)), Attempt(r, p, s.conn))
  {
    RunThree(s, Insert(r, 1), Attempt(r, p, s.conn), Ack);
    var s1 := Step(s, Insert(r, 1));
    assert s1.rows == map[r := Row(1, 0, None)] && s1.toBroker[0].pid == p;
    var s2 := Step(s1, Attempt(r, p, s.conn));
    assert s2.rows == map[r := Row(1, 1, Some(p))];
  }

  /** For any two rows and any identifier: a run in which the second row is acknowledged away and never
      reaches the client. */
  lemma DoublePubackLoses(q: RowId, p: Pid, r: RowId) returns (ls: seq<Label>)
    requires q != r
    ensures var s := Run(Init, ls); r in s.born && s.born[r] == 1 && r !in s.rows && r !in s.handed && q in s.handed
  {
    var items := [Again(q, p, 1)];
    var a := [Connect(false, true), Insert(q, 1), Attempt(q, p, 1)];
    var b := [Scan(1, items), Resume(1, Delivered), Write(q)];
    ClaimedFirst(q, p);
    var s1 := Run(Init, a);
    WrittenTwice(s1, q, p);
    var s2 := Run(s1, b);
    var c := [Recv(true), Recv(true), Read];
    AckedTwice(s2, q, p);
    var s3 := Run(s2, c);
    var s4 := Run(s3, [Ack]);
    var d := [Insert(r, 1), Attempt(r, p, 1), Ack];
    SecondPuback(s4, p, r);
    assert s4.handed == [q] + [q] && s4.handed[0] == q;
    ls := a + (b + (c + ([Ack] + d)));
    RunAppend(Init, a, b + (c + ([Ack] + d)));
    RunAppend(s1, b, c + ([Ack] + d));
    RunAppend(s2, c, [Ack] + d);
    RunAppend(s3, [Ack], d);
  }

  /** QoS 0: the row is gone before it is written, the client takes it and owes no answer. */
  lemma QoS0Delivered(q: RowId, p: Pid)
    ensures var t := Step(Run(Init, [Insert(q, 0), Attempt(q, p, 0), Write(q)]), Recv(true));
      t.rows == map[] && t.handed == [q] && t.toClient == [] && t.toBroker == [] && t.held == {} && |t.written| == 1
  {
    RunThree(Init, Insert(q, 0), Attempt(q, p, 0), Write(q));
    var s1 := Step(Init, Insert(q, 0));
    assert s1.rows == map[q := Row(0, 0, None)] && s1.born == map[q := 0];
    var s2 := Step(s1, Attempt(q, p, 0));
    assert s2.rows == map[] && s2.unwritten == map[q := 0] && s2.pids == map[q := p];
    WriteStep(s2, q);
    var s3 := Step(s2, Write(q));
    assert s3.toClient == [Publish(q, p, 0, false)];
  }

  lemma RefuseStep(s: State, q: RowId, p: Pid)
    requires s.toClient == [Publish(q, p, 2, false)] && s.held == {} && s.toBroker == []
    ensures Step(s, Recv(false)) == s.(toClient := [], toBroker := [PubrecRefused(p)]) && Lossy(s, Recv(false))
  {
  }

  /** A refusal: the client does not hold the identifier, the row goes, and no PUBREL is owed. */
  lemma RefusalEnds(q: RowId, p: Pid)
    ensures var s := Run(Init, [Insert(q, 2), Attempt(q, p, 0), Write(q)]);
      var t := Step(Step(s, Recv(false)), Ack);
      && t.rows == map[] && t.handed == [] && t.held == {} && t.toBroker == [] && t.toClient == [] && t.owing.None?
      && Lossy(s, Recv(false))
  {
    SentOnce(q, p);
    var s := Run(Init, [Insert(q, 2), Attempt(q, p, 0), Write(q)]);
    RefuseStep(s, q, p);
    var s1 := Step(s, Recv(false));
    assert DeleteAcked(s1.rows, p, 2) == map[];
  }

  /** A copy of a message the client holds is acknowledged again, whatever the client thinks of it. */
  lemma HeldIsAcknowledged(m: Down, held: set<Pid>, accept: bool)
    requires m.Publish? && m.qos == 2 && m.pid in held
    ensures Reply(m, held, accept) == [Pubrec(m.pid)]
    ensures !HandsOver(m, held, accept) && HeldAfter(m, held, accept) == held
  {
  }
}
