/** The three racy steps of `Deliveries` are real: each leads to a second delivery of a QoS-2
    row.  The converses of `AtMostOnce` hold in every state in which nothing under way mentions
    the identifier; and for every row and identifier there are runs from the initial state. */
module DeliveryRaces {
  import opened Prelude
  import opened Deliveries

  predicate Twice(s: State, r: RowId) {
    exists i, j :: 0 <= i < j < |s.handed| && s.handed[i] == r && s.handed[j] == r
  }

  /** The run ls starts with this racy step and hands the QoS-2 row r over twice. */
  ghost predicate Doubles(s: State, first: Label, ls: seq<Label>, r: RowId) {
    && ls != [] && ls[0] == first && Racy(s, first)
    && Twice(Run(s, ls), r)
    && r in Run(s, ls).born && Run(s, ls).born[r] == 2
  }

  /** What the continuations below never touch. */
  predicate SameClaims(s: State, t: State) {
    t.unwritten == s.unwritten && t.pids == s.pids && t.born == s.born && t.conn == s.conn && s.handed <= t.handed
  }

  predicate SameSocket(s: State, t: State) {
    t.reading == s.reading && t.waiting == s.waiting && t.resumes == s.resumes && t.owing == s.owing
  }

  /** Nothing on its way to the client, or to the broker, concerns identifier p. */
  predicate Silent(ms: seq<Down>, p: Pid) { forall i | 0 <= i < |ms| :: ms[i].pid != p }
  predicate SilentUp(ms: seq<Up>, p: Pid) { forall i | 0 <= i < |ms| :: ms[i].pid != p }

  /** The n-th packet on its way to the broker is the first about p, a PUBREC. */
  predicate FirstPubrec(ms: seq<Up>, n: nat, p: Pid) {
    n < |ms| && ms[n] == Pubrec(p) && forall i | 0 <= i < n :: ms[i].pid != p
  }

  /** Nothing under way on the live socket mentions p. */
  predicate Quiet(s: State, p: Pid) { Silent(s.toClient, p) && SilentUp(s.toBroker, p) && s.owing != Some(p) }

  // ---- runs ---------------------------------------------------------------------------------

  lemma {:induction false} RunAppend(s: State, a: seq<Label>, b: seq<Label>)
    ensures Run(s, a + b) == Run(Run(s, a), b)
    decreases |a|
  {
    if a == [] {
      assert a + b == b;
    } else {
      assert (a + b)[0] == a[0] && (a + b)[1..] == a[1..] + b;
      RunAppend(Step(s, a[0]), a[1..], b);
    }
  }

  lemma RunCons(s: State, l: Label, rest: seq<Label>)
    ensures Run(s, [l] + rest) == Run(Step(s, l), rest)
  {
    assert ([l] + rest)[1..] == rest;
  }

  lemma RunThree(s: State, a: Label, b: Label, c: Label)
    ensures Run(s, [a, b, c]) == Step(Step(Step(s, a), b), c)
  {
    var l := [a, b, c];
    assert l[1..] == [b, c] && [b, c][1..] == [c] && [c][1..] == [];
    assert Run(Step(Step(s, a), b), [c]) == Step(Step(Step(s, a), b), c);
    assert Run(Step(s, a), [b, c]) == Run(Step(Step(s, a), b), [c]);
  }

  lemma RunTwo(s: State, a: Label, b: Label)
    ensures Run(s, [a, b]) == Step(Step(s, a), b)
  {
    assert [a, b][1..] == [b] && [b][1..] == [];
    assert Run(Step(s, a), [b]) == Step(Step(s, a), b);
  }

  lemma BornStep(s: State, l: Label, r: RowId)
    requires r in s.born
    ensures r in Step(s, l).born && Step(s, l).born[r] == s.born[r]
  {
  }

  /** A row keeps the QoS it was inserted with. */
  lemma {:induction false} BornStays(s: State, ls: seq<Label>, r: RowId)
    requires r in s.born
    ensures r in Run(s, ls).born && Run(s, ls).born[r] == s.born[r]
    decreases |ls|
  {
    if ls != [] {
      BornStep(s, ls[0], r);
      BornStays(Step(s, ls[0]), ls[1..], r);
    }
  }

  lemma ConnectStep(s: State)
    ensures Step(s, Connect(false, true))
      == s.(conn := s.conn + 1, reading := false, owing := None, waiting := s.waiting + {s.conn + 1},
            toClient := [], toBroker := [])
  {
  }

  lemma ScanStep(s: State, k: nat, items: seq<Item>)
    requires k in s.waiting && ScanOf(s.rows, items)
    ensures Step(s, Scan(k, items)) == s.(waiting := s.waiting - {k}, resumes := s.resumes[k := items])
  {
  }

  lemma AnswerStep(s: State)
    ensures Step(s, Answer)
      == s.(owing := None, toClient := s.toClient + if s.owing.Some? then [Pubrel(s.owing.value)] else [])
  {
  }

  lemma AbortStep(s: State, k: nat)
    ensures Step(s, Abort(k)) == s.(resumes := s.resumes - {k})
  {
  }

  // ---- a resume -----------------------------------------------------------------------------

  /** What reaches the live socket when every item is written. */
  function Arriving(items: seq<Item>, own: bool): seq<Down> {
    if items == [] then []
    else Arriving(items[..|items| - 1], own)
         + if Arrives(items[|items| - 1], own, Delivered) then [WireOf(items[|items| - 1])] else []
  }

  /** n items of the list of socket k are written. */
  predicate Resumed(s: State, t: State, k: nat, n: nat)
    requires k in s.resumes && n <= |s.resumes[k]|
  {
    t == s.(resumes := s.resumes[k := s.resumes[k][n..]], written := t.written,
            toClient := s.toClient + Arriving(s.resumes[k][..n], k == s.conn))
  }

  lemma ResumeNext(s: State, t: State, k: nat, n: nat)
    requires k in s.resumes && n < |s.resumes[k]| && Resumed(s, t, k, n)
    ensures Resumed(s, Step(t, Resume(k, Delivered)), k, n + 1)
  {
    var items := s.resumes[k];
    assert items[n..][0] == items[n] && items[n..][1..] == items[n + 1..];
    assert items[..n + 1][..n] == items[..n] && items[..n + 1][n] == items[n];
  }

  lemma {:induction false} ResumeSome(s: State, k: nat, n: nat) returns (ls: seq<Label>)
    requires k in s.resumes && n <= |s.resumes[k]|
    ensures Resumed(s, Run(s, ls), k, n)
  {
    if n == 0 {
      ls := [];
      assert s.resumes[k][0..] == s.resumes[k] && s.toClient + [] == s.toClient;
      assert s.resumes[k := s.resumes[k]] == s.resumes;
      assert Arriving(s.resumes[k][..0], k == s.conn) == [];
    } else {
      var before := ResumeSome(s, k, n - 1);
      ls := before + [Resume(k, Delivered)];
      RunAppend(s, before, [Resume(k, Delivered)]);
      RunCons(Run(s, before), Resume(k, Delivered), []);
      ResumeNext(s, Run(s, before), k, n - 1);
    }
  }

  lemma {:induction false} ArrivingSilent(items: seq<Item>, own: bool, p: Pid)
    requires forall i | 0 <= i < |items| :: items[i].pid != p
    ensures Silent(Arriving(items, own), p)
  {
    if items != [] { ArrivingSilent(items[..|items| - 1], own, p); }
  }

  /** The one item about p arrives, and nothing else about p does. */
  lemma {:induction false} ArrivingOne(items: seq<Item>, own: bool, j: nat) returns (i: nat)
    requires j < |items| && Arrives(items[j], own, Delivered)
    requires forall k | 0 <= k < |items| && k != j :: items[k].pid != items[j].pid
    ensures var ms := Arriving(items, own);
      && i < |ms| && ms[i] == WireOf(items[j])
      && forall k | 0 <= k < |ms| && k != i :: ms[k].pid != items[j].pid
  {
    var last := |items| - 1;
    var front := items[..last];
    if j == last {
      ArrivingSilent(front, own, items[j].pid);
      i := |Arriving(front, own)|;
    } else {
      i := ArrivingOne(front, own, j);
    }
  }

  // ---- the client and the read loop ---------------------------------------------------------

  lemma RecvOther(s: State, p: Pid)
    requires s.toClient != [] && s.toClient[0].pid != p
    ensures var t := Step(s, Recv(true));
      && t.toClient == s.toClient[1..] && SameClaims(s, t) && SameSocket(s, t) && t.rows == s.rows
      && (p in t.held <==> p in s.held)
      && s.toBroker <= t.toBroker && forall i | |s.toBroker| <= i < |t.toBroker| :: t.toBroker[i].pid != p
  {
  }

  /** The client takes n messages that do not concern identifier p. */
  lemma {:induction false} RecvOthers(s: State, n: nat, p: Pid) returns (ls: seq<Label>)
    requires n <= |s.toClient| && forall i | 0 <= i < n :: s.toClient[i].pid != p
    ensures var t := Run(s, ls);
      && t.toClient == s.toClient[n..] && SameClaims(s, t) && SameSocket(s, t) && t.rows == s.rows
      && (p in t.held <==> p in s.held)
      && s.toBroker <= t.toBroker && forall i | |s.toBroker| <= i < |t.toBroker| :: t.toBroker[i].pid != p
    decreases n
  {
    if n == 0 {
      ls := [];
    } else {
      var s1 := Step(s, Recv(true));
      RecvOther(s, p);
      var rest := RecvOthers(s1, n - 1, p);
      ls := [Recv(true)] + rest;
      RunCons(s, Recv(true), rest);
      assert s.toClient[1..][n - 1..] == s.toClient[n..];
    }
  }

  /** One acknowledgement that does not concern p, with the PUBREL it may call for. */
  lemma AckOther(s: State, p: Pid)
    requires s.reading && s.owing.None? && s.toBroker != [] && s.toBroker[0].pid != p
    ensures var t := Run(s, [Ack, Answer]);
      && t.toBroker == s.toBroker[1..] && SameClaims(s, t) && SameSocket(s, t) && t.held == s.held
      && s.toClient <= t.toClient && forall i | |s.toClient| <= i < |t.toClient| :: t.toClient[i].pid != p
  {
    RunTwo(s, Ack, Answer);
    AckFrame(s);
    AnswerStep(Step(s, Ack));
  }

  lemma AckFrame(s: State)
    requires s.reading && s.owing.None? && s.toBroker != []
    ensures var t := Step(s, Ack); t == s.(rows := t.rows, toBroker := s.toBroker[1..], owing := t.owing)
    ensures Step(s, Ack).owing == if s.toBroker[0].Pubrec? then Some(s.toBroker[0].pid) else None
  {
  }

  /** The broker handles n acknowledgements that do not concern p. */
  lemma {:induction false} AckOthers(s: State, n: nat, p: Pid) returns (ls: seq<Label>)
    requires s.reading && s.owing.None? && n <= |s.toBroker| && forall i | 0 <= i < n :: s.toBroker[i].pid != p
    ensures var t := Run(s, ls);
      && t.toBroker == s.toBroker[n..] && SameClaims(s, t) && SameSocket(s, t) && t.held == s.held
      && s.toClient <= t.toClient && forall i | |s.toClient| <= i < |t.toClient| :: t.toClient[i].pid != p
    decreases n
  {
    if n == 0 {
      ls := [];
    } else {
      var s1 := Run(s, [Ack, Answer]);
      AckOther(s, p);
      var rest := AckOthers(s1, n - 1, p);
      ls := [Ack, Answer] + rest;
      RunAppend(s, [Ack, Answer], rest);
      assert s.toBroker[1..][n - 1..] == s.toBroker[n..];
    }
  }

  /** The client takes everything; the one PUBLISH about p, at position k, is handed over. */
  lemma TakeAll(s: State, r: RowId, p: Pid, k: nat, dup: bool) returns (ls: seq<Label>)
    requires p !in s.held && SilentUp(s.toBroker, p)
    requires k < |s.toClient| && s.toClient[k] == Publish(r, p, 2, dup)
    requires forall i | 0 <= i < |s.toClient| && i != k :: s.toClient[i].pid != p
    ensures var t := Run(s, ls);
      && SameClaims(s, t) && SameSocket(s, t) && t.rows == s.rows && t.toClient == [] && p in t.held
      && (exists i :: |s.handed| <= i < |t.handed| && t.handed[i] == r)
      && (exists n: nat :: FirstPubrec(t.toBroker, n, p))
  {
    var a := RecvOthers(s, k, p);
    var s1 := Run(s, a);
    assert s1.toClient[0] == s.toClient[k];
    var s2 := Step(s1, Recv(true));
    assert s2.handed[|s1.handed|] == r && s2.toBroker[|s1.toBroker|] == Pubrec(p);
    assert s2.toClient == s.toClient[k + 1..];
    var b := RecvOthers(s2, |s2.toClient|, p);
    var t := Run(s2, b);
    assert t.handed[|s1.handed|] == r;
    assert FirstPubrec(t.toBroker, |s1.toBroker|, p);
    ls := a + ([Recv(true)] + b);
    RunAppend(s, a, [Recv(true)] + b);
    RunCons(s1, Recv(true), b);
  }

  /** First arrival: the live socket reads, the application has the row, and its PUBREC is on
      its way to the broker. */
  lemma FirstArrival(s: State, r: RowId, p: Pid, k: nat) returns (ls: seq<Label>)
    requires p !in s.held && SilentUp(s.toBroker, p) && s.conn !in s.waiting && Items(s) == [] && s.owing.None?
    requires k < |s.toClient| && s.toClient[k] == Publish(r, p, 2, true)
    requires forall i | 0 <= i < |s.toClient| && i != k :: s.toClient[i].pid != p
    ensures var t := Run(s, ls);
      && SameClaims(s, t) && t.reading && t.owing.None? && t.toClient == [] && p in t.held
      && (exists i :: |s.handed| <= i < |t.handed| && t.handed[i] == r)
      && (exists n: nat :: FirstPubrec(t.toBroker, n, p))
  {
    var s1 := Step(s, Read);
    var rest := TakeAll(s1, r, p, k, true);
    ls := [Read] + rest;
    RunCons(s, Read, rest);
  }

  lemma WriteRecv(s: State, r: RowId, p: Pid)
    requires r in s.pids && s.pids[r] == p && r in s.born && s.born[r] == 2 && Unwritten(s, r)
    requires s.toClient == [Pubrel(p)]
    ensures var t := Run(s, [Recv(true), Write(r), Recv(true)]); t.handed == s.handed + [r]
  {
    var s4 := Step(s, Recv(true));
    var s5 := Step(s4, Write(r));
    assert s5.toClient == [Publish(r, p, 2, false)];
    RunThree(s, Recv(true), Write(r), Recv(true));
  }

  /** Second arrival: the PUBREL releases p, then the delayed claimer writes. */
  lemma SecondArrival(s: State, r: RowId, n: nat) returns (ls: seq<Label>)
    requires r in s.pids && r in s.born && s.born[r] == 2 && Unwritten(s, r)
    requires s.reading && s.owing.None? && s.toClient == [] && exists i :: 0 <= i < |s.handed| && s.handed[i] == r
    requires FirstPubrec(s.toBroker, n, s.pids[r])
    ensures Twice(Run(s, ls), r)
  {
    var p := s.pids[r];
    var a := AckOthers(s, n, p);
    var s1 := Run(s, a);
    assert s1.toBroker[0] == Pubrec(p);
    RunTwo(s1, Ack, Answer);
    var s2 := Run(s1, [Ack, Answer]);
    assert s2.toClient == s1.toClient + [Pubrel(p)];
    var b := RecvOthers(s2, |s1.toClient|, p);
    var s3 := Run(s2, b);
    assert s3.toClient == [Pubrel(p)];
    var c := [Recv(true), Write(r), Recv(true)];
    WriteRecv(s3, r, p);
    ls := a + ([Ack, Answer] + (b + c));
    RunAppend(s, a, [Ack, Answer] + (b + c));
    RunAppend(s1, [Ack, Answer], b + c);
    RunAppend(s2, b, c);
    var i :| 0 <= i < |s.handed| && s.handed[i] == r;
    assert Run(s3, c).handed[i] == r && Run(s3, c).handed[|s3.handed|] == r;
  }

  // ---- scans --------------------------------------------------------------------------------

  function ItemOf(id: RowId, r: Row): Item
    requires r.pid.Some?
  {
    if r.state == 1 then Again(id, r.pid.value, r.qos) else Release(id, r.pid.value)
  }

  /** A scan always has an answer. */
  lemma {:induction false} ScanExists(rows: Rows) returns (items: seq<Item>)
    requires forall id | id in rows :: rows[id].state == 0 || (1 <= rows[id].state <= 2 && rows[id].pid.Some?)
    ensures ScanOf(rows, items)
    decreases |rows|
  {
    if rows == map[] {
      items := [];
    } else {
      assert rows.Keys == {} ==> rows == map[];
      LeastExists(rows.Keys);
      var low :| Least(low, rows.Keys);
      var rest := ScanExists(rows - {low});
      items := if rows[low].state == 0 then rest else [ItemOf(low, rows[low])] + rest;
      ScanExtends(rows, low, rest);
    }
  }

  lemma ScanExtends(rows: Rows, low: RowId, rest: seq<Item>)
    requires Least(low, rows.Keys) && ScanOf(rows - {low}, rest)
    requires rows[low].state == 0 || (1 <= rows[low].state <= 2 && rows[low].pid.Some?)
    ensures ScanOf(rows, if rows[low].state == 0 then rest else [ItemOf(low, rows[low])] + rest)
  {
    var less := rows - {low};
    forall i | 0 <= i < |rest| ensures rest[i].id in rows && Answers(rows[rest[i].id], rest[i]) && rest[i].id > low {
      assert rest[i].id in less && Answers(less[rest[i].id], rest[i]);
      assert rest[i].id in rows.Keys;
    }
    if rows[low].state == 0 {
      forall id | id in rows && rows[id].state != 0 ensures exists i :: 0 <= i < |rest| && rest[i].id == id {
        assert id in less;
      }
    } else {
      ScanAdds(rows, low, rest);
    }
  }

  lemma ScanAdds(rows: Rows, low: RowId, rest: seq<Item>)
    requires low in rows && 1 <= rows[low].state <= 2 && rows[low].pid.Some? && ScanOf(rows - {low}, rest)
    requires forall i | 0 <= i < |rest| :: rest[i].id in rows && Answers(rows[rest[i].id], rest[i]) && rest[i].id > low
    ensures ScanOf(rows, [ItemOf(low, rows[low])] + rest)
  {
    var items := [ItemOf(low, rows[low])] + rest;
    assert items[0].id == low && forall i | 0 < i < |items| :: items[i] == rest[i - 1];
    forall id | id in rows && rows[id].state != 0 ensures exists i :: 0 <= i < |items| && items[i].id == id {
      if id != low {
        assert id in rows - {low};
        var i :| 0 <= i < |rest| && rest[i].id == id;
        assert items[i + 1].id == id;
      }
    }
  }

  /** A row in state 1 is found by the scan, and no other item carries its identifier. */
  lemma ScanFinds(s: State, items: seq<Item>, r: RowId) returns (k: nat)
    requires RowsOk(s.rows, s.born, s.pids) && ScanOf(s.rows, items) && r in s.rows && s.rows[r].qos == 2
    requires s.rows[r].state == 1
    ensures r in s.pids && r in s.born && s.born[r] == 2 && s.rows[r].pid == Some(s.pids[r])
    ensures k < |items| && items[k] == Again(r, s.pids[r], 2)
    ensures forall i | 0 <= i < |items| && i != k :: items[i].pid != s.pids[r]
  {
    assert RowOk(r, s.rows[r], s.born, s.pids);
    k :| 0 <= k < |items| && items[k].id == r;
    assert Answers(s.rows[r], items[k]);
    forall i | 0 <= i < |items| && i != k ensures items[i].pid != s.pids[r] {
      assert Answers(s.rows[items[i].id], items[i]) && items[i].id != r;
    }
  }

  /** The scan and the whole resume of socket k: the row is on the wire once, nothing else
      carries its identifier. */
  lemma ResumeRow(s: State, k: nat, items: seq<Item>, r: RowId) returns (ls: seq<Label>, i: nat)
    requires RowsOk(s.rows, s.born, s.pids) && k in s.waiting && ScanOf(s.rows, items)
    requires r in s.rows && s.rows[r].qos == 2 && s.rows[r].state == 1
    requires s.rows[r].pid.Some? && Silent(s.toClient, s.rows[r].pid.value)
    ensures r in s.pids && r in s.born && s.born[r] == 2 && s.rows[r].pid == Some(s.pids[r])
    ensures ls != [] && ls[0] == Scan(k, items)
    ensures var t := Run(s, ls);
      && SameClaims(s, t) && t.toBroker == s.toBroker && t.held == s.held && t.reading == s.reading
      && t.waiting == s.waiting - {k} && t.resumes == s.resumes[k := []] && t.owing == s.owing
      && t.handed == s.handed && t.rows == s.rows
      && i < |t.toClient| && t.toClient[i] == Publish(r, s.pids[r], 2, true)
      && forall j | 0 <= j < |t.toClient| && j != i :: t.toClient[j].pid != s.pids[r]
  {
    var j := ScanFinds(s, items, r);
    var s1 := Step(s, Scan(k, items));
    ScanStep(s, k, items);
    var a := ResumeSome(s1, k, |items|);
    ls := [Scan(k, items)] + a;
    RunCons(s, Scan(k, items), a);
    assert items[..|items|] == items && items[|items|..] == [];
    var x := ArrivingOne(items, k == s.conn, j);
    i := |s.toClient| + x;
  }

  /** Claimed rows are in state 1 or 2 and have their identifier. */
  lemma RowsScannable(rows: Rows, born: Qoses, pids: Pids)
    requires RowsOk(rows, born, pids)
    ensures forall id | id in rows :: rows[id].state == 0 || (1 <= rows[id].state <= 2 && rows[id].pid.Some?)
  {
    assert forall id | id in rows :: RowOk(id, rows[id], born, pids);
  }

  /** The live socket writes the PUBREL it owes, scans, gives its resume up and can read. */
  lemma Settle(s: State) returns (ls: seq<Label>)
    requires RowsOk(s.rows, s.born, s.pids)
    ensures Run(s, ls)
      == s.(waiting := s.waiting - {s.conn}, resumes := s.resumes - {s.conn}, owing := None,
            toClient := s.toClient + if s.owing.Some? then [Pubrel(s.owing.value)] else [])
  {
    RowsScannable(s.rows, s.born, s.pids);
    var items := ScanExists(s.rows);
    ls := [Answer, Scan(s.conn, items), Abort(s.conn)];
    RunThree(s, Answer, Scan(s.conn, items), Abort(s.conn));
    AnswerStep(s);
    var s1 := Step(s, Answer);
    var s2 := Step(s1, Scan(s.conn, items));
    AbortStep(s2, s.conn);
    if s.conn in s.waiting {
      ScanStep(s1, s.conn, items);
      assert s.resumes[s.conn := items] - {s.conn} == s.resumes - {s.conn};
    } else {
      assert s2 == s1 && s.waiting - {s.conn} == s.waiting;
    }
  }

  // ---- the three races ----------------------------------------------------------------------

  /** From the scan of socket k to the first arrival of the row. */
  lemma ScanArrival(s: State, k: nat, items: seq<Item>, r: RowId) returns (ls: seq<Label>)
    requires ClaimInv(s) && k in s.waiting && ScanOf(s.rows, items)
    requires r in s.rows && s.rows[r].qos == 2 && s.rows[r].state == 1 && s.rows[r].pid.Some?
    requires var p := s.rows[r].pid.value; p !in s.held && Quiet(s, p)
    ensures r in s.pids && r in s.born && s.born[r] == 2 && s.pids[r] == s.rows[r].pid.value && ls != []
    ensures ls[0] == Scan(k, items)
    ensures var t, p := Run(s, ls), s.rows[r].pid.value;
      && SameClaims(s, t) && t.reading && t.owing.None? && t.toClient == []
      && (exists i :: |s.handed| <= i < |t.handed| && t.handed[i] == r)
      && (exists n: nat :: FirstPubrec(t.toBroker, n, p))
  {
    var a, i := ResumeRow(s, k, items, r);
    var s1 := Run(s, a);
    var b := Settle(s1);
    var s2 := Run(s1, b);
    var c := FirstArrival(s2, r, s.pids[r], i);
    ls := a + (b + c);
    RunAppend(s, a, b + c);
    RunAppend(s1, b, c);
  }

  /** Every scan, by the live socket or an earlier one, that sees a row whose claimer has not written
      has a continuation that hands the row over twice. */
  lemma ScanRaceDoubles(s: State, k: nat, items: seq<Item>, r: RowId) returns (ls: seq<Label>)
    requires ClaimInv(s) && k in s.waiting && ScanOf(s.rows, items)
    requires r in s.rows && s.rows[r].qos == 2 && s.rows[r].state == 1 && Unwritten(s, r)
    requires s.rows[r].pid.Some?
    requires var p := s.rows[r].pid.value; p !in s.held && Quiet(s, p)
    ensures Doubles(s, Scan(k, items), ls, r)
  {
    var a := ScanArrival(s, k, items, r);
    var s2 := Run(s, a);
    var n: nat :| FirstPubrec(s2.toBroker, n, s.pids[r]);
    var c := SecondArrival(s2, r, n);
    ls := a + c;
    RunAppend(s, a, c);
    BornStays(s, ls, r);
  }

  /** Every scan that sees a row from before a clean start, which the client had then and has
      forgotten, hands it over a second time. */
  lemma UncleanScanDoubles(s: State, k: nat, items: seq<Item>, r: RowId) returns (ls: seq<Label>)
    requires ClaimInv(s) && k in s.waiting && ScanOf(s.rows, items)
    requires r in s.rows && s.rows[r].qos == 2 && s.rows[r].state == 1 && r in s.forgotten && r in s.handed
    requires s.rows[r].pid.Some?
    requires var p := s.rows[r].pid.value; p !in s.held && Quiet(s, p)
    ensures Doubles(s, Scan(k, items), ls, r)
  {
    ls := ScanArrival(s, k, items, r);
    BornStays(s, ls, r);
    var j :| 0 <= j < |s.handed| && s.handed[j] == r;
    assert Run(s, ls).handed[j] == r;
  }

  /** A row that the application has, still in state 1 after the client released its
      identifier, is handed over again by the next reconnect. */
  lemma ReleasedRowRepeats(s: State, r: RowId) returns (ls: seq<Label>)
    requires RowsOk(s.rows, s.born, s.pids)
    requires r in s.rows && s.rows[r].qos == 2 && s.rows[r].state == 1 && r in s.handed
    requires s.rows[r].pid.Some? && s.rows[r].pid.value !in s.held
    ensures Twice(Run(s, ls), r)
  {
    var s1 := Step(s, Connect(false, true));
    RowsScannable(s.rows, s.born, s.pids);
    var items := ScanExists(s.rows);
    var a, k := ResumeRow(s1, s1.conn, items, r);
    var s2 := Run(s1, a);
    var b := FirstArrival(s2, r, s.pids[r], k);
    ls := [Connect(false, true)] + (a + b);
    RunCons(s, Connect(false, true), a + b);
    RunAppend(s1, a, b);
    var i :| 0 <= i < |s.handed| && s.handed[i] == r;
    assert Run(s2, b).handed[i] == r;
  }

  lemma WriteStep(s: State, r: RowId)
    requires Unwritten(s, r) && r in s.pids && r in s.born
    ensures var t := Step(s, Write(r));
      t == s.(unwritten := s.unwritten - {r}, written := t.written,
              toClient := s.toClient + [Publish(r, s.pids[r], s.born[r], false)])
  {
  }

  /** After the row, a PUBREL with its identifier: t is s with [PUBLISH] + others + [PUBREL] written. */
  predicate Crossed(s: State, t: State, p: Pid, r: RowId) {
    var k := |s.toClient|;
    && t.rows == s.rows && t.held == s.held && t.handed == s.handed
    && k < |t.toClient| - 1 && t.toClient[k] == Publish(r, p, 2, false) && t.toClient[|t.toClient| - 1] == Pubrel(p)
    && forall i | 0 <= i < |t.toClient| - 1 && i != k :: t.toClient[i].pid != p
  }

  /** The claimed row is written, then the items of the resume up to the PUBREL owed under its
      identifier. */
  lemma WriteThenResume(s: State, p: Pid, r: RowId) returns (ls: seq<Label>)
    requires Silent(s.toClient, p) && ListsOk(s.resumes, s.born, s.pids)
    requires exists j :: 0 <= j < |Items(s)| && Items(s)[j].Release? && Items(s)[j].pid == p
    requires Unwritten(s, r) && r in s.pids && s.pids[r] == p && r in s.born && s.born[r] == 2
    ensures Crossed(s, Run(s, ls), p, r)
  {
    var items := Items(s);
    var j :| 0 <= j < |items| && items[j].Release? && items[j].pid == p;
    assert ItemsOk(items, s.born, s.pids);
    var s1 := Step(s, Write(r));
    WriteStep(s, r);
    var a := ResumeSome(s1, s.conn, j + 1);
    ls := [Write(r)] + a;
    RunCons(s, Write(r), a);
    assert items[..j + 1][..j] == items[..j] && items[..j + 1][j] == items[j];
    ArrivingSilent(items[..j], true, p);
  }

  /** Or the read loop writes the PUBREL. */
  lemma WriteThenAnswer(s: State, p: Pid, r: RowId)
    requires Silent(s.toClient, p) && s.owing == Some(p)
    requires Unwritten(s, r) && r in s.pids && s.pids[r] == p && r in s.born && s.born[r] == 2
    ensures Crossed(s, Run(s, [Write(r), Answer]), p, r)
  {
    RunTwo(s, Write(r), Answer);
    WriteStep(s, r);
    AnswerStep(Step(s, Write(r)));
  }

  /** The client takes what comes before the PUBREL: it has the new row. */
  lemma TakeNew(s: State, p: Pid, r: RowId, k: nat) returns (ls: seq<Label>)
    requires p !in s.held && k < |s.toClient| - 1
    requires s.toClient[k] == Publish(r, p, 2, false) && s.toClient[|s.toClient| - 1] == Pubrel(p)
    requires forall i | 0 <= i < |s.toClient| - 1 && i != k :: s.toClient[i].pid != p
    ensures var t := Run(s, ls); t.rows == s.rows && r in t.handed && t.toClient == [Pubrel(p)]
  {
    var a := RecvOthers(s, k, p);
    var s1 := Run(s, a);
    assert s1.toClient[0] == s.toClient[k];
    var s2 := Step(s1, Recv(true));
    assert s2.handed[|s1.handed|] == r && s2.toClient == s.toClient[k + 1..];
    var b := RecvOthers(s2, |s2.toClient| - 1, p);
    var s3 := Run(s2, b);
    assert s3.toClient == s.toClient[|s.toClient| - 1..] && s3.handed[|s1.handed|] == r;
    ls := a + ([Recv(true)] + b);
    RunAppend(s, a, [Recv(true)] + b);
    RunCons(s1, Recv(true), b);
  }

  /** Then it releases the identifier. */
  lemma TakeAndRelease(s: State, p: Pid, r: RowId, k: nat) returns (ls: seq<Label>)
    requires p !in s.held && k < |s.toClient| - 1
    requires s.toClient[k] == Publish(r, p, 2, false) && s.toClient[|s.toClient| - 1] == Pubrel(p)
    requires forall i | 0 <= i < |s.toClient| - 1 && i != k :: s.toClient[i].pid != p
    ensures Run(s, ls).rows == s.rows && r in Run(s, ls).handed && p !in Run(s, ls).held
  {
    var a := TakeNew(s, p, r, k);
    ls := a + [Recv(true)];
    RunAppend(s, a, [Recv(true)]);
    RunCons(Run(s, a), Recv(true), []);
    assert [Recv(true)] + [] == [Recv(true)];
  }

  /** Every claim, for the live socket, of an identifier whose PUBREL the resume or the read loop has
      not written yet, while the client does not hold it and nothing on its way mentions it, has a
      continuation that hands the row over twice. */
  lemma ClaimRaceDoubles(s: State, p: Pid, r: RowId) returns (ls: seq<Label>)
    requires ClaimInv(s) && Claims(s.rows, r, p) && s.rows[r].qos == 2
    requires p in Owing(s) && Silent(s.toClient, p) && p !in s.held
    ensures Doubles(s, Attempt(r, p, s.conn), ls, r)
  {
    var l := Attempt(r, p, s.conn);
    var s1 := Step(s, l);
    ClaimStep(s, l);
    assert RowOk(r, s.rows[r], s.born, s.pids);
    assert Items(s1) == Items(s) && Owing(s1) == Owing(s);
    var b := CrossedRelease(s1, p, r);
    ls := [l] + b;
    RunCons(s, l, b);
    BornStays(s1, b, r);
  }

  /** The new row is sent under the identifier whose PUBREL is still owed. */
  lemma CrossedRelease(s: State, p: Pid, r: RowId) returns (ls: seq<Label>)
    requires ClaimInv(s) && Silent(s.toClient, p) && p !in s.held && p in Owing(s)
    requires Unwritten(s, r) && r in s.pids && s.pids[r] == p && r in s.born && s.born[r] == 2
    requires r in s.rows && s.rows[r] == Row(2, 1, Some(p))
    ensures Twice(Run(s, ls), r)
  {
    var b := [Write(r), Answer];
    if s.owing == Some(p) { WriteThenAnswer(s, p, r); } else { b := WriteThenResume(s, p, r); }
    ClaimRun(s, b);
    var s2 := Run(s, b);
    var c := TakeAndRelease(s2, p, r, |s.toClient|);
    ClaimRun(s2, c);
    var d := ReleasedRowRepeats(Run(s2, c), r);
    ls := b + (c + d);
    RunAppend(s, b, c + d);
    RunAppend(s2, c, d);
  }

  /** Every racy write of an earlier socket's resume, while the client has the row and has released
      its identifier, hands the row over a second time. */
  lemma StaleResumeDoubles(s: State, k: nat, r: RowId, p: Pid) returns (ls: seq<Label>)
    requires k != s.conn && ListOf(s, k) != [] && ListOf(s, k)[0] == Again(r, p, 2) && Stale(s, Again(r, p, 2))
    requires r in s.handed && r in s.born && s.born[r] == 2
    requires p !in s.held && Silent(s.toClient, p) && SilentUp(s.toBroker, p)
    ensures Doubles(s, Resume(k, Delivered), ls, r)
  {
    var s1 := Step(s, Resume(k, Delivered));
    assert s1.toClient == s.toClient + [Publish(r, p, 2, true)];
    var a := TakeAll(s1, r, p, |s.toClient|, true);
    ls := [Resume(k, Delivered)] + a;
    RunCons(s, Resume(k, Delivered), a);
    BornStays(s, ls, r);
    var i :| 0 <= i < |s.handed| && s.handed[i] == r;
    assert Run(s, ls).handed[i] == r;
  }

  // ---- from the initial state ---------------------------------------------------------------

  /** For every row and identifier: a claimer that writes after the resume scan delivers the row
      twice. */
  lemma LateWriterDoubles(r: RowId, p: Pid) returns (ls: seq<Label>)
    ensures Twice(Run(Init, ls), r) && r in Run(Init, ls).born && Run(Init, ls).born[r] == 2
  {
    var a := [Connect(false, true), Insert(r, 2), Attempt(r, p, 1)];
    RunThree(Init, Connect(false, true), Insert(r, 2), Attempt(r, p, 1));
    ClaimRun(Init, a);
    var s := Run(Init, a);
    var items := [Again(r, p, 2)];
    assert s.rows == map[r := Row(2, 1, Some(p))];
    assert ScanOf(s.rows, items) by { assert items[0].id == r; }
    var b := ScanRaceDoubles(s, 1, items, r);
    ls := a + b;
    RunAppend(Init, a, b);
    BornStays(s, b, r);
  }

  /** Socket 0: the row is inserted, claimed and written. */
  lemma SentOnce(q: RowId, p: Pid)
    ensures var t := Run(Init, [Insert(q, 2), Attempt(q, p, 0), Write(q)]);
      t == Init.(rows := map[q := Row(2, 1, Some(p))], born := map[q := 2], pids := map[q := p],
                 written := [Publish(q, p, 2, false)], toClient := [Publish(q, p, 2, false)])
  {
    RunThree(Init, Insert(q, 2), Attempt(q, p, 0), Write(q));
    var s1 := Step(Init, Insert(q, 2));
    assert s1.rows == map[q := Row(2, 0, None)];
    var s2 := Step(s1, Attempt(q, p, 0));
    assert s2.rows == map[q := Row(2, 1, Some(p))] && s2.unwritten == map[q := 0];
    assert s2.unwritten - {q} == map[];
  }

  // The steps of a handshake, one at a time.

  lemma RecvPublish(s: State, r: RowId, p: Pid, dup: bool)
    requires s.toClient == [Publish(r, p, 2, dup)] && s.held == {} && s.toBroker == []
    ensures Step(s, Recv(true)) == s.(toClient := [], held := {p}, handed := s.handed + [r], toBroker := [Pubrec(p)])
  {
  }

  /** PUBREC: the UPDATE, then the PUBREL. */
  lemma AckPubrec(s: State, r: RowId, p: Pid)
    requires s.rows == map[r := Row(2, 1, Some(p))] || s.rows == map[r := Row(2, 2, Some(p))]
    requires s.reading && s.owing.None? && s.toBroker != [] && s.toBroker[0] == Pubrec(p)
    ensures Step(s, Ack) == s.(rows := map[r := Row(2, 2, Some(p))], toBroker := s.toBroker[1..], owing := Some(p))
  {
    assert MarkReceived(s.rows, p) == map[r := Row(2, 2, Some(p))];
  }

  lemma AnswerPubrec(s: State, p: Pid)
    requires s.owing == Some(p)
    ensures Step(s, Answer) == s.(owing := None, toClient := s.toClient + [Pubrel(p)])
  {
  }

  lemma RecvPubrel(s: State, p: Pid)
    requires s.toClient == [Pubrel(p)] && s.held == {p}
    ensures Step(s, Recv(true)) == s.(toClient := [], held := {}, toBroker := s.toBroker + [Pubcomp(p)])
  {
    assert {p} - {p} == {};
  }

  lemma AckPubcomp(s: State, r: RowId, p: Pid)
    requires s.rows == map[r := Row(2, 2, Some(p))] && s.toBroker == [Pubcomp(p)] && s.reading && s.owing.None?
    ensures Step(s, Ack) == s.(rows := map[], toBroker := [])
  {
    assert DeleteAcked(s.rows, p, 2) == map[];
  }

  /** A PUBREC is read and answered, and the client releases the identifier. */
  lemma Release1(s: State, r: RowId, p: Pid)
    requires s.rows == map[r := Row(2, 1, Some(p))] && s.held == {p} && s.reading && s.owing.None? && s.toClient == []
    requires s.toBroker != [] && s.toBroker[0] == Pubrec(p)
    ensures Run(s, [Ack, Answer, Recv(true)])
      == s.(rows := map[r := Row(2, 2, Some(p))], held := {}, toBroker := s.toBroker[1..] + [Pubcomp(p)])
  {
    RunThree(s, Ack, Answer, Recv(true));
    AckPubrec(s, r, p);
    var s1 := Step(s, Ack);
    AnswerPubrec(s1, p);
    assert [] + [Pubrel(p)] == [Pubrel(p)];
    RecvPubrel(Step(s1, Answer), p);
  }

  /** The starting point of the claim race: a client released p and lost its PUBCOMP with the
      socket. */
  lemma OwedReachable(q: RowId, p: Pid) returns (ls: seq<Label>)
    ensures var s := Run(Init, ls);
      && Items(s) == [Release(q, p)] && s.toClient == [] && p !in s.held
      && s.rows == map[q := Row(2, 2, Some(p))] && s.born == map[q := 2]
  {
    var a, b := [Insert(q, 2), Attempt(q, p, 0), Write(q)], [Ack, Answer, Recv(true)];
    SentOnce(q, p);
    var s0 := Run(Init, a);
    RecvPublish(s0, q, p, false);
    var s1 := Step(s0, Recv(true));
    Release1(s1, q, p);
    var s2 := Run(s1, b);
    var items := [Release(q, p)];
    assert ScanOf(s2.rows, items) by { assert items[0].id == q; }
    var c := [Connect(false, true), Scan(1, items)];
    RunTwo(s2, Connect(false, true), Scan(1, items));
    ConnectStep(s2);
    ScanStep(Step(s2, Connect(false, true)), 1, items);
    ls := a + ([Recv(true)] + (b + c));
    RunAppend(Init, a, [Recv(true)] + (b + c));
    RunCons(s0, Recv(true), b + c);
    RunAppend(s1, b, c);
  }

  /** The last row gone, its identifier is free: the next one is inserted and claims it. */
  lemma ReplaceRow(s: State, q: RowId, p: Pid, r: RowId)
    requires s.rows == map[q := Row(2, 2, Some(p))] && r !in s.born
    ensures Run(s, [Delete(q), Insert(r, 2)]) == s.(rows := map[r := Row(2, 0, None)], born := s.born[r := 2])
  {
    RunTwo(s, Delete(q), Insert(r, 2));
    assert s.rows - {q} == map[];
  }

  /** From a state that owes the PUBREL of p, to two arrivals of the next row under p. */
  lemma ReplacedRowDoubles(s: State, q: RowId, p: Pid, r: RowId) returns (ls: seq<Label>)
    requires ClaimInv(s) && s.rows == map[q := Row(2, 2, Some(p))] && r !in s.born
    requires p in Owing(s) && s.toClient == [] && p !in s.held
    ensures Twice(Run(s, ls), r) && r in Run(s, ls).born && Run(s, ls).born[r] == 2
  {
    var a := [Delete(q), Insert(r, 2)];
    ReplaceRow(s, q, p, r);
    ClaimRun(s, a);
    var s1 := Run(s, a);
    assert Items(s1) == Items(s) && Owing(s1) == Owing(s);
    var b := ClaimRaceDoubles(s1, p, r);
    ls := a + b;
    RunAppend(s, a, b);
  }

  /** For any two rows and any identifier: a row is deleted while a resume still owes its PUBREL, and
      the next row with that identifier is delivered twice. */
  lemma EarlyClaimDoubles(q: RowId, p: Pid, r: RowId) returns (ls: seq<Label>)
    requires q != r
    ensures Twice(Run(Init, ls), r) && r in Run(Init, ls).born && Run(Init, ls).born[r] == 2
  {
    var a := OwedReachable(q, p);
    ClaimRun(Init, a);
    assert Items(Run(Init, a))[0] == Release(q, p);
    var b := ReplacedRowDoubles(Run(Init, a), q, p, r);
    ls := a + b;
    RunAppend(Init, a, b);
  }

  /** A new socket registers and scans. */
  lemma ConnectScan(s: State, items: seq<Item>)
    requires ScanOf(s.rows, items)
    ensures var k := s.conn + 1;
      Run(s, [Connect(false, true), Scan(k, items)])
      == s.(conn := k, reading := false, owing := None, waiting := s.waiting + {k} - {k},
            resumes := s.resumes[k := items], toClient := [], toBroker := [])
  {
    RunTwo(s, Connect(false, true), Scan(s.conn + 1, items));
    ConnectStep(s);
    ScanStep(Step(s, Connect(false, true)), s.conn + 1, items);
  }

  /** The resume of socket k repeats the row it has scanned. */
  lemma RepeatStep(s: State, k: nat, r: RowId, p: Pid)
    requires k in s.resumes && s.resumes[k] == [Again(r, p, 2)]
    ensures var t := Step(s, Resume(k, Delivered));
      t == s.(resumes := s.resumes[k := []], toClient := s.toClient + [Publish(r, p, 2, true)], written := t.written)
  {
    assert [Again(r, p, 2)][1..] == [];
  }

  /** Two sockets in a row scan the only row; the first resume stalls. */
  lemma TwoScans(r: RowId, p: Pid) returns (ls: seq<Label>)
    ensures var t, items := Run(Init, ls), [Again(r, p, 2)];
      && t.rows == map[r := Row(2, 1, Some(p))] && t.born == map[r := 2] && t.held == {} && t.handed == []
      && t.toClient == [] && t.toBroker == [] && t.owing.None? && !t.reading
      && t.conn == 2 && t.waiting == {} && t.resumes == map[1 := items, 2 := items]
  {
    var items := [Again(r, p, 2)];
    var a := [Insert(r, 2), Attempt(r, p, 0), Write(r)];
    SentOnce(r, p);
    var s0 := Run(Init, a);
    assert ScanOf(s0.rows, items) by { assert items[0].id == r; }
    var b, c := [Connect(false, true), Scan(1, items)], [Connect(false, true), Scan(2, items)];
    ConnectScan(s0, items);
    var s1 := Run(s0, b);
    ConnectScan(s1, items);
    ls := a + (b + c);
    RunAppend(Init, a, b + c);
    RunAppend(s0, b, c);
  }

  /** The live socket repeats it, the client accepts it, and reading starts. */
  lemma Accept(s: State, r: RowId, p: Pid)
    requires s.held == {} && s.conn !in s.waiting && s.toClient == [] && s.toBroker == [] && s.owing.None?
    requires s.conn in s.resumes && s.resumes[s.conn] == [Again(r, p, 2)]
    ensures var t := Run(s, [Resume(s.conn, Delivered), Recv(true), Read]);
      t == s.(held := {p}, handed := s.handed + [r], toBroker := [Pubrec(p)], reading := true,
              resumes := s.resumes[s.conn := []], written := t.written)
  {
    RunThree(s, Resume(s.conn, Delivered), Recv(true), Read);
    RepeatStep(s, s.conn, r, p);
    var s1 := Step(s, Resume(s.conn, Delivered));
    assert [] + [Publish(r, p, 2, true)] == [Publish(r, p, 2, true)];
    RecvPublish(s1, r, p, true);
    var s2 := Step(s1, Recv(true));
    assert Step(s2, Read) == s2.(reading := true);
  }

  /** For every row and identifier: a resume that outlives its socket delivers the row again after
      its successor has completed the handshake. */
  lemma OutlivedResumeDoubles(r: RowId, p: Pid) returns (ls: seq<Label>)
    ensures Twice(Run(Init, ls), r) && r in Run(Init, ls).born && Run(Init, ls).born[r] == 2
  {
    var a := TwoScans(r, p);
    var b := [Resume(2, Delivered), Recv(true), Read];
    var s1 := Run(Init, a);
    Accept(s1, r, p);
    var s2 := Run(s1, b);
    assert s2.handed[0] == r && ListOf(s2, 1) == [Again(r, p, 2)];
    var c := OutlivedAfter(s2, r, p);
    ls := a + (b + c);
    RunAppend(Init, a, b + c);
    RunAppend(s1, b, c);
  }

  /** The handshake completes on the live socket; then the stalled resume of socket 1 goes on. */
  lemma OutlivedAfter(s: State, r: RowId, p: Pid) returns (ls: seq<Label>)
    requires s.rows == map[r := Row(2, 1, Some(p))] && s.held == {p} && s.reading && s.owing.None?
    requires s.toClient == [] && s.toBroker == [Pubrec(p)]
    requires s.conn == 2 && ListOf(s, 1) == [Again(r, p, 2)] && r in s.handed && r in s.born && s.born[r] == 2
    ensures Twice(Run(s, ls), r) && r in Run(s, ls).born && Run(s, ls).born[r] == 2
  {
    var c := [Ack, Answer, Recv(true)];
    Release1(s, r, p);
    var s3 := Run(s, c);
    assert s3.toBroker == [Pubcomp(p)];
    AckPubcomp(s3, r, p);
    var e := StaleResumeDoubles(Step(s3, Ack), 1, r, p);
    ls := c + ([Ack] + e);
    RunAppend(s, c, [Ack] + e);
    RunCons(s3, Ack, e);
  }

  /** Both resumes repeat the row while it is owed, so the client answers twice; the first PUBREL is
      on its way back when the second PUBREC is read, and not answered yet. */
  lemma SecondPubrec(s: State, r: RowId, p: Pid)
    requires s.rows == map[r := Row(2, 1, Some(p))] && s.held == {p} && s.reading && s.owing.None?
    requires s.toClient == [] && s.toBroker == [Pubrec(p)] && s.conn != 1 && 1 in s.resumes
    requires s.resumes[1] == [Again(r, p, 2)]
    ensures var t := Run(s, [Resume(1, Delivered), Recv(true)] + ([Ack, Answer, Recv(true)] + [Ack]));
      && t.rows == map[r := Row(2, 2, Some(p))] && t.held == {} && t.owing == Some(p) && t.toClient == []
      && t.born == s.born
  {
    var a, b := [Resume(1, Delivered), Recv(true)], [Ack, Answer, Recv(true)];
    RunAppend(s, a, b + [Ack]);
    RunTwo(s, Resume(1, Delivered), Recv(true));
    RepeatStep(s, 1, r, p);
    var s1 := Step(s, Resume(1, Delivered));
    assert s1.toClient == [Publish(r, p, 2, true)];
    var s2 := Step(s1, Recv(true));
    assert s2.toBroker == [Pubrec(p), Pubrec(p)] && s2.held == {p} && s2.toClient == [];
    Release1(s2, r, p);
    RunAppend(s2, b, [Ack]);
    var s3 := Run(s2, b);
    assert s3.toBroker == [Pubrec(p), Pubcomp(p)];
    AckPubrec(s3, r, p);
    RunCons(s3, Ack, []);
    assert [Ack] + [] == [Ack];
  }

  /** For any two rows and any identifier: a row is deleted between the UPDATE of a PUBREC handler and
      its PUBREL, and the next row with that identifier is delivered twice. */
  lemma LateAnswerDoubles(q: RowId, p: Pid, r: RowId) returns (ls: seq<Label>)
    requires q != r
    ensures Twice(Run(Init, ls), r) && r in Run(Init, ls).born && Run(Init, ls).born[r] == 2
  {
    var a := TwoScans(q, p);
    var b := [Resume(2, Delivered), Recv(true), Read];
    var s1 := Run(Init, a);
    Accept(s1, q, p);
    var s2 := Run(s1, b);
    var c := [Resume(1, Delivered), Recv(true)] + ([Ack, Answer, Recv(true)] + [Ack]);
    SecondPubrec(s2, q, p);
    ClaimRun(Init, a);
    ClaimRun(s1, b);
    ClaimRun(s2, c);
    var d := ReplacedRowDoubles(Run(s2, c), q, p, r);
    ls := a + (b + (c + d));
    RunAppend(Init, a, b + (c + d));
    RunAppend(s1, b, c + d);
    RunAppend(s2, c, d);
  }

  /** For every row and identifier: a clean start that is cut off before its clean-up, then an
      ordinary reconnect, delivers the row twice. */
  lemma CutOffCleanStartDoubles(r: RowId, p: Pid) returns (ls: seq<Label>)
    ensures Twice(Run(Init, ls), r) && r in Run(Init, ls).born && Run(Init, ls).born[r] == 2
  {
    var a, b := [Insert(r, 2), Attempt(r, p, 0), Write(r)], [Recv(true), Connect(true, false), Connect(false, true)];
    SentOnce(r, p);
    var s1 := Run(Init, a);
    RunThree(s1, Recv(true), Connect(true, false), Connect(false, true));
    RecvPublish(s1, r, p, false);
    ConnectStep(Step(Step(s1, Recv(true)), Connect(true, false)));
    ClaimRun(Init, a);
    ClaimRun(s1, b);
    var s2 := Run(s1, b);
    assert s2.handed == [r] && s2.rows == s1.rows && r in s2.forgotten && s2.held == {};
    var items := [Again(r, p, 2)];
    assert ScanOf(s2.rows, items) by { assert items[0].id == r; }
    var c := UncleanScanDoubles(s2, 2, items, r);
    ls := a + (b + c);
    RunAppend(Init, a, b + c);
    RunAppend(s1, b, c);
  }
}
