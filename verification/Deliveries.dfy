/** The `deliveries` table of one client and the outbound QoS machinery around it.

    Every SQL statement is one atomic step.  `Attempt` is the guarded claim that
    `deliverOneTracked` and the retained replay share; the wire write that follows a claim
    is a separate step, so any number of callers may interleave between the two.  `Scan`
    and `Resume` are `drainSessionQueue`, of which any number may be under way: nothing stops
    the one of an earlier socket when a new socket takes over, and it looks up the registered
    Conn for every PUBLISH it repeats.  `Ack` is the read loop; `Recv` is a subscriber that
    follows section 4.3.3 of MQTT Version 5.0.  `Delete` and `Advance` stand for every other
    writer of the table: expiry and size drops, clean-up jobs, and acknowledgement handlers
    of earlier sockets that are still running.  The clean-up of a clean start, too, is a number
    of such deletes: it runs after the registration, and nothing guards it. */
module Deliveries {
  import opened Prelude

  type RowId = int
  type Pid = int

  datatype Row = Row(qos: int, state: int, pid: Option<Pid>)
  type Rows = map<RowId, Row>

  // ---- the statements ---------------------------------------------------------------

  /** The unique partial index on (client_id, packet_id). */
  predicate PidFree(rows: Rows, pid: Pid) {
    forall id | id in rows :: rows[id].pid != Some(pid)
  }

  /** The claim succeeds: QoS 0 by DELETE, QoS>0 by UPDATE ... WHERE state = 0. */
  predicate Claims(rows: Rows, id: RowId, pid: Pid) {
    id in rows && (rows[id].qos == 0 || (rows[id].state == 0 && PidFree(rows, pid)))
  }

  function Claim(rows: Rows, id: RowId, pid: Pid): Rows
    requires Claims(rows, id, pid)
  {
    if rows[id].qos == 0 then rows - {id} else rows[id := Row(rows[id].qos, 1, Some(pid))]
  }

  /** DELETE ... WHERE packet_id = pid AND qos = q (PUBACK, PUBCOMP, refused PUBREC). */
  function DeleteAcked(rows: Rows, pid: Pid, q: int): Rows {
    map id | id in rows && !(rows[id].pid == Some(pid) && rows[id].qos == q) :: rows[id]
  }

  /** UPDATE ... SET state = 2 WHERE packet_id = pid AND qos = 2 AND state = 1 (PUBREC). */
  function MarkReceived(rows: Rows, pid: Pid): Rows {
    map id | id in rows ::
      if rows[id].pid == Some(pid) && rows[id].qos == 2 && rows[id].state == 1
      then rows[id].(state := 2) else rows[id]
  }

  // ---- the machine ------------------------------------------------------------------

  datatype Down = Publish(id: RowId, pid: Pid, qos: int, dup: bool) | Pubrel(pid: Pid)
  datatype Up = Puback(pid: Pid) | Pubrec(pid: Pid) | PubrecRefused(pid: Pid) | Pubcomp(pid: Pid)

  /** One row of the resume scan that is answered from the scanned copy. */
  datatype Item = Again(id: RowId, pid: Pid, qos: int) | Release(id: RowId, pid: Pid)

  /** What becomes of one item of a resume: its packet is written and arrives if its socket is
      the live one, it is written to a socket that is gone, or it is not written (no Conn here,
      or the row is dropped as expired or oversized). */
  datatype Fate = Delivered | Lost | Skipped

  /** Sockets are numbered; `conn` is the live one, `reading` says that its read loop has
      started, `owing` that it has handled a PUBREC and not yet written the PUBREL (an earlier
      socket writes its own to nobody).  `waiting` holds the sockets that will still run their
      resume scan, `resumes` the unfinished resume lists.  `unwritten` maps a claimed row to the
      socket its claimer captured.
      `born` (id to QoS), `pids` (id to the identifier of its claim), `written`, `handed` and
      `forgotten` (rows claimed before the client last gave up its session) are history. */
  datatype State = State(
    rows: Rows, born: map<RowId, int>, pids: map<RowId, Pid>, unwritten: map<RowId, nat>,
    written: seq<Down>, conn: nat, reading: bool, waiting: set<nat>, resumes: map<nat, seq<Item>>,
    owing: Option<Pid>, toClient: seq<Down>, toBroker: seq<Up>, held: set<Pid>, handed: seq<RowId>,
    forgotten: set<RowId>)

  datatype Label =
    | Insert(id: RowId, qos: int)
    | Attempt(id: RowId, pid: Pid, conn: nat)
    | Write(id: RowId)
    | Connect(renew: bool, scan: bool)
    | Scan(socket: nat, items: seq<Item>)
    | Resume(socket: nat, fate: Fate)
    | Abort(socket: nat)
    | Read
    | Recv(accept: bool)
    | Ack
    | Answer
    | Delete(id: RowId)
    | Advance(id: RowId)

  function ListOf(s: State, k: nat): seq<Item> { if k in s.resumes then s.resumes[k] else [] }

  /** The resume list of the live socket. */
  function Items(s: State): seq<Item> { ListOf(s, s.conn) }

  function WireOf(it: Item): Down {
    if it.Again? then Publish(it.id, it.pid, it.qos, true) else Pubrel(it.pid)
  }

  /** A repeated PUBLISH goes to the Conn registered now, a PUBREL to the socket of the resume. */
  predicate Arrives(it: Item, own: bool, fate: Fate) { fate.Delivered? && (it.Again? || own) }

  /** The rows that a resume answers from the scanned copy: state 1 and state 2.  (Rows in
      state 0 go through the ordinary claim, which is `Attempt`.) */
  predicate ScanOf(rows: Rows, items: seq<Item>) {
    && (forall i | 0 <= i < |items| :: items[i].id in rows && Answers(rows[items[i].id], items[i]))
    && (forall i, j | 0 <= i < j < |items| :: items[i].id < items[j].id)
    && (forall id | id in rows && rows[id].state != 0 :: exists i :: 0 <= i < |items| && items[i].id == id)
  }

  predicate Answers(r: Row, it: Item) {
    && r.pid == Some(it.pid)
    && match it
       case Again(_, _, q) => r.state == 1 && r.qos == q
       case Release(_, _) => r.state == 2
  }

  function Step(s: State, l: Label): State {
    match l
    case Insert(id, qos) =>
      if id in s.born || !(0 <= qos <= 2) then s
      else s.(rows := s.rows[id := Row(qos, 0, None)], born := s.born[id := qos])
    case Attempt(id, pid, conn) =>
      if !Claims(s.rows, id, pid) || conn > s.conn then s
      else s.(rows := Claim(s.rows, id, pid), pids := s.pids[id := pid], unwritten := s.unwritten[id := conn])
    case Write(id) =>
      if id !in s.unwritten || id !in s.pids || id !in s.born then s
      else
        var m := Publish(id, s.pids[id], s.born[id], false);
        s.(unwritten := s.unwritten - {id}, written := s.written + [m],
           toClient := if s.unwritten[id] == s.conn then s.toClient + [m] else s.toClient)
    case Connect(renew, scan) =>
      s.(conn := s.conn + 1, toClient := [], toBroker := [], reading := false, owing := None,
         waiting := if scan then s.waiting + {s.conn + 1} else s.waiting,
         held := if renew then {} else s.held,
         forgotten := if renew then s.forgotten + (set id | id in s.rows && s.rows[id].state != 0) else s.forgotten)
    case Scan(k, items) =>
      if k !in s.waiting || !ScanOf(s.rows, items) then s
      else s.(waiting := s.waiting - {k}, resumes := s.resumes[k := items])
    case Resume(k, fate) =>
      if ListOf(s, k) == [] then s
      else
        var it := ListOf(s, k)[0];
        s.(resumes := s.resumes[k := ListOf(s, k)[1..]],
           toClient := if Arrives(it, k == s.conn, fate) then s.toClient + [WireOf(it)] else s.toClient,
           written := if it.Again? && !fate.Skipped? then s.written + [WireOf(it)] else s.written)
    case Abort(k) => s.(resumes := s.resumes - {k})
    case Read =>
      if s.conn in s.waiting || Items(s) != [] then s else s.(reading := true)
    case Recv(accept) =>
      if s.toClient == [] then s else Receive(s.(toClient := s.toClient[1..]), s.toClient[0], accept)
    case Ack =>
      if !s.reading || s.owing.Some? || s.toBroker == [] then s
      else Acknowledge(s.(toBroker := s.toBroker[1..]), s.toBroker[0])
    case Answer =>
      if s.owing.None? then s else s.(owing := None, toClient := s.toClient + [Pubrel(s.owing.value)])
    case Delete(id) => s.(rows := s.rows - {id})
    case Advance(id) =>
      if id in s.rows && s.rows[id].qos == 2 && s.rows[id].state == 1
      then s.(rows := s.rows[id := s.rows[id].(state := 2)]) else s
  }

  // The subscriber: section 4.3 of MQTT Version 5.0.

  /** The application gets the message: always for QoS 0 and 1, for QoS 2 only when the
      client does not hold the identifier (and chooses to accept). */
  predicate HandsOver(m: Down, held: set<Pid>, accept: bool) {
    m.Publish? && (m.qos < 2 || (m.pid !in held && accept))
  }

  function HeldAfter(m: Down, held: set<Pid>, accept: bool): set<Pid> {
    if m.Pubrel? then held - {m.pid}
    else if m.qos >= 2 && accept then held + {m.pid} else held
  }

  function Reply(m: Down, held: set<Pid>, accept: bool): seq<Up> {
    if m.Pubrel? then [Pubcomp(m.pid)]
    else if m.qos <= 0 then []
    else if m.qos == 1 then [Puback(m.pid)]
    else if m.pid in held || accept then [Pubrec(m.pid)] else [PubrecRefused(m.pid)]
  }

  function Receive(s: State, m: Down, accept: bool): State {
    s.(handed := if HandsOver(m, s.held, accept) then s.handed + [m.id] else s.handed,
       held := HeldAfter(m, s.held, accept),
       toBroker := s.toBroker + Reply(m, s.held, accept))
  }

  /** The broker's acknowledgement handlers; the PUBREL that answers a PUBREC is a step of its own. */
  function Acknowledge(s: State, m: Up): State {
    match m
    case Puback(p) => s.(rows := DeleteAcked(s.rows, p, 1))
    case Pubcomp(p) => s.(rows := DeleteAcked(s.rows, p, 2))
    case PubrecRefused(p) => s.(rows := DeleteAcked(s.rows, p, 2))
    case Pubrec(p) => s.(rows := MarkReceived(s.rows, p), owing := Some(p))
  }

  function Run(s: State, ls: seq<Label>): State
    decreases |ls|
  {
    if ls == [] then s else Run(Step(s, ls[0]), ls[1..])
  }

  const Init := State(map[], map[], map[], map[], [], 0, true, {}, map[], None, [], [], {}, [], {})

  // ---- claim exclusivity --------------------------------------------------------------

  type Qoses = map<RowId, int>
  type Pids = map<RowId, Pid>

  ghost predicate RowOk(id: RowId, r: Row, born: Qoses, pids: Pids) {
    && id in born && r.qos == born[id] && 0 <= r.qos <= 2 && 0 <= r.state <= r.qos
    && (r.state == 0 <==> id !in pids)
    && r.pid == if r.state == 0 then None else Some(pids[id])
  }

  ghost predicate RowsOk(rows: Rows, born: Qoses, pids: Pids) {
    && pids.Keys <= born.Keys
    && (forall id | id in rows :: RowOk(id, rows[id], born, pids))
    && (forall i, j | i in rows && j in rows && rows[i].pid.Some? && rows[i].pid == rows[j].pid :: i == j)
  }

  /** A PUBLISH names a claimed row and carries the identifier and QoS of that row. */
  ghost predicate Faithful(m: Down, born: Qoses, pids: Pids) {
    m.Publish? ==> m.id in pids && m.id in born && m.pid == pids[m.id] && m.qos == born[m.id]
                   && (m.dup ==> m.qos > 0)
  }

  ghost predicate AllFaithful(ms: seq<Down>, born: Qoses, pids: Pids) {
    forall i | 0 <= i < |ms| :: Faithful(ms[i], born, pids)
  }

  ghost predicate ItemOk(it: Item, born: Qoses, pids: Pids) {
    && it.id in pids && it.id in born && it.pid == pids[it.id] && born[it.id] > 0
    && (it.Again? ==> it.qos == born[it.id])
  }

  ghost predicate ItemsOk(items: seq<Item>, born: Qoses, pids: Pids) {
    && (forall i | 0 <= i < |items| :: ItemOk(items[i], born, pids))
    && (forall i, j | 0 <= i < j < |items| :: items[i].pid != items[j].pid)
  }

  ghost predicate ListsOk(resumes: map<nat, seq<Item>>, born: Qoses, pids: Pids) {
    forall k | k in resumes :: ItemsOk(resumes[k], born, pids)
  }

  /** No resume runs ahead of its socket, and the live socket reads only after its own resume. */
  ghost predicate SocketsOk(conn: nat, reading: bool, waiting: set<nat>, resumes: map<nat, seq<Item>>) {
    && (forall k | k in resumes :: k <= conn)
    && (forall k | k in waiting :: k <= conn)
    && (reading ==> conn !in waiting && (conn in resumes ==> resumes[conn] == []))
  }

  /** The write log: at most one PUBLISH without DUP for each row, none while its claimer
      has not written. */
  ghost predicate LogOk(written: seq<Down>, unwritten: map<RowId, nat>) {
    && (forall i | 0 <= i < |written| :: written[i].Publish? && (written[i].id in unwritten ==> written[i].dup))
    && (forall i, j | 0 <= i < j < |written| && written[i].id == written[j].id :: written[i].dup || written[j].dup)
  }

  ghost predicate CallersOk(unwritten: map<RowId, nat>, pids: Pids, conn: nat) {
    forall id | id in unwritten :: id in pids && unwritten[id] <= conn
  }

  ghost predicate ClaimInv(s: State) {
    && RowsOk(s.rows, s.born, s.pids)
    && AllFaithful(s.written, s.born, s.pids)
    && AllFaithful(s.toClient, s.born, s.pids)
    && ListsOk(s.resumes, s.born, s.pids)
    && LogOk(s.written, s.unwritten)
    && CallersOk(s.unwritten, s.pids, s.conn)
    && SocketsOk(s.conn, s.reading, s.waiting, s.resumes)
    && (s.owing.Some? ==> s.reading)
  }

  lemma ClaimAttempt(s: State, l: Label)
    requires l.Attempt? && ClaimInv(s)
    ensures ClaimInv(Step(s, l))
  {
    var s' := Step(s, l);
    if s' != s {
      assert RowOk(l.id, s.rows[l.id], s.born, s.pids);
      assert l.id !in s.pids;
      ClaimRows(s.rows, s.born, s.pids, l.id, l.pid);
    }
  }

  lemma ClaimRows(rows: Rows, born: Qoses, pids: Pids, id: RowId, pid: Pid)
    requires RowsOk(rows, born, pids) && Claims(rows, id, pid)
    ensures RowsOk(Claim(rows, id, pid), born, pids[id := pid])
  {
    var rows' := Claim(rows, id, pid);
    assert RowOk(id, rows[id], born, pids);
    forall i | i in rows' ensures RowOk(i, rows'[i], born, pids[id := pid]) {
      assert RowOk(i, rows[i], born, pids);
    }
  }

  /** The state change of a PUBREC. */
  ghost predicate Received(r: Row, r': Row) { r.state == 1 && r.qos == 2 && r' == r.(state := 2) }

  /** Deleting rows and the state change 1 to 2 keep the table consistent. */
  lemma ShrunkRows(rows: Rows, rows': Rows, born: Qoses, pids: Pids)
    requires RowsOk(rows, born, pids)
    requires forall id | id in rows' :: id in rows && (rows'[id] == rows[id] || Received(rows[id], rows'[id]))
    ensures RowsOk(rows', born, pids)
  {
    forall i | i in rows' ensures RowOk(i, rows'[i], born, pids) {
      assert RowOk(i, rows[i], born, pids);
    }
  }

  lemma ScanItems(rows: Rows, born: Qoses, pids: Pids, items: seq<Item>)
    requires RowsOk(rows, born, pids) && ScanOf(rows, items)
    ensures ItemsOk(items, born, pids)
  {
    forall i | 0 <= i < |items| ensures ItemOk(items[i], born, pids) && rows[items[i].id].pid == Some(items[i].pid) {
      assert RowOk(items[i].id, rows[items[i].id], born, pids) && Answers(rows[items[i].id], items[i]);
    }
    forall i, j | 0 <= i < j < |items| ensures items[i].pid != items[j].pid { assert items[i].id != items[j].id; }
  }

  lemma ClaimScan(s: State, l: Label)
    requires l.Scan? && ClaimInv(s)
    ensures ClaimInv(Step(s, l))
  {
    if Step(s, l) != s { ScanItems(s.rows, s.born, s.pids, l.items); }
  }

  lemma ClaimResume(s: State, l: Label)
    requires l.Resume? && ClaimInv(s)
    ensures ClaimInv(Step(s, l))
  {
    if ListOf(s, l.socket) != [] { ResumeItems(s, l.socket); }
  }

  lemma ResumeItems(s: State, k: nat)
    requires ListsOk(s.resumes, s.born, s.pids) && ListOf(s, k) != []
    ensures ItemOk(ListOf(s, k)[0], s.born, s.pids)
    ensures ListsOk(s.resumes[k := ListOf(s, k)[1..]], s.born, s.pids)
  {
    assert ItemsOk(s.resumes[k], s.born, s.pids);
  }

  lemma ClaimWrite(s: State, l: Label)
    requires l.Write? && ClaimInv(s)
    ensures ClaimInv(Step(s, l))
  {
  }

  lemma ClaimConnect(s: State, l: Label)
    requires l.Connect? && ClaimInv(s)
    ensures ClaimInv(Step(s, l))
  {
  }

  lemma ClaimRead(s: State, l: Label)
    requires (l.Read? || l.Abort? || l.Answer?) && ClaimInv(s)
    ensures ClaimInv(Step(s, l))
  {
  }

  lemma ClaimRecv(s: State, l: Label)
    requires l.Recv? && ClaimInv(s)
    ensures ClaimInv(Step(s, l))
  {
  }

  /** A new row: nothing else changes. */
  lemma InsertRows(rows: Rows, born: Qoses, pids: Pids, id: RowId, qos: int)
    requires RowsOk(rows, born, pids) && id !in born && 0 <= qos <= 2
    ensures RowsOk(rows[id := Row(qos, 0, None)], born[id := qos], pids)
  {
    var rows', born' := rows[id := Row(qos, 0, None)], born[id := qos];
    forall i | i in rows' ensures RowOk(i, rows'[i], born', pids) {
      assert i in rows ==> RowOk(i, rows[i], born, pids);
    }
  }

  lemma ClaimInsert(s: State, l: Label)
    requires l.Insert? && ClaimInv(s)
    ensures ClaimInv(Step(s, l))
  {
    if l.id !in s.born && 0 <= l.qos <= 2 {
      InsertRows(s.rows, s.born, s.pids, l.id, l.qos);
      assert forall k | k in s.resumes :: ItemsOk(s.resumes[k], s.born, s.pids);
    }
  }

  lemma AckedRows(rows: Rows, born: Qoses, pids: Pids, p: Pid, q: int)
    requires RowsOk(rows, born, pids)
    ensures RowsOk(DeleteAcked(rows, p, q), born, pids) && RowsOk(MarkReceived(rows, p), born, pids)
  {
    ShrunkRows(rows, DeleteAcked(rows, p, q), born, pids);
    ShrunkRows(rows, MarkReceived(rows, p), born, pids);
  }

  lemma ClaimAck(s: State, l: Label)
    requires l.Ack? && ClaimInv(s)
    ensures ClaimInv(Step(s, l))
  {
    if Step(s, l) != s {
      AckedRows(s.rows, s.born, s.pids, s.toBroker[0].pid, if s.toBroker[0].Puback? then 1 else 2);
    }
  }

  lemma ClaimShrink(s: State, l: Label)
    requires (l.Delete? || l.Advance?) && ClaimInv(s)
    ensures ClaimInv(Step(s, l))
  {
    ShrunkRows(s.rows, Step(s, l).rows, s.born, s.pids);
  }

  lemma ClaimStep(s: State, l: Label)
    requires ClaimInv(s)
    ensures ClaimInv(Step(s, l))
  {
    match l
    case Insert(_, _) => ClaimInsert(s, l);
    case Attempt(_, _, _) => ClaimAttempt(s, l);
    case Scan(_, _) => ClaimScan(s, l);
    case Resume(_, _) => ClaimResume(s, l);
    case Recv(_) => ClaimRecv(s, l);
    case Ack => ClaimAck(s, l);
    case Delete(_) => ClaimShrink(s, l);
    case Advance(_) => ClaimShrink(s, l);
    case Write(_) => ClaimWrite(s, l);
    case Connect(_, _) => ClaimConnect(s, l);
    case _ => ClaimRead(s, l);
  }

  // ---- QoS 2: at most once --------------------------------------------------------------

  /** What matters about one QoS-2 row: the channel to the client, whether a PUBREL with its
      identifier is still to be written, whether a claimer that captured this socket has not
      written yet, whether this socket's own resume will repeat the row, whether any resume will,
      whether a later one will, whether the application has it, whether the client holds its
      identifier. */
  datatype View = View(
    chan: seq<Down>, owed: bool, live: bool, again: bool, listed: bool, sent: bool, handed: bool, held: bool)

  predicate IsPub(m: Down, r: RowId) { m.Publish? && m.id == r }

  predicate Has(chan: seq<Down>, r: RowId) { exists i :: 0 <= i < |chan| && IsPub(chan[i], r) }

  predicate Repeats(items: seq<Item>, r: RowId) { exists i :: 0 <= i < |items| && items[i].Again? && items[i].id == r }

  /** A later resume will repeat the row: it is in state 1, and the client has not given up the
      session it was sent in. */
  predicate Owed(s: State, r: RowId) { r in s.rows && s.rows[r].state == 1 && r !in s.forgotten }

  /** The identifiers whose PUBREL the live socket still has to write: the resume's and the read
      loop's. */
  function Owing(s: State): set<Pid> {
    (set i | 0 <= i < |Items(s)| && Items(s)[i].Release? :: Items(s)[i].pid)
    + (if s.owing.Some? then {s.owing.value} else {})
  }

  ghost predicate Listed(resumes: map<nat, seq<Item>>, r: RowId) { exists k :: k in resumes && Repeats(resumes[k], r) }

  ghost function ViewOf(s: State, r: RowId): View
    requires r in s.pids
  {
    View(s.toClient, s.pids[r] in Owing(s), Unwritten(s, r), Repeats(Items(s), r), Listed(s.resumes, r), Owed(s, r),
         r in s.handed, s.pids[r] in s.held)
  }

  /** The row may still be written again, by this socket or a later one. */
  predicate Pending(v: View) { v.live || v.again || v.sent }

  /** No PUBREL(p) separates two arrivals of row r, and while an arrival can follow one that
      the application already has, the client still holds p. */
  ghost predicate RowSafe(v: View, r: RowId, p: Pid) {
    && (v.live ==> !v.handed && !Has(v.chan, r) && !v.listed)
    && (v.owed ==> !v.again && !v.sent)
    && (forall k | 0 <= k < |v.chan| && v.chan[k] == Pubrel(p) ::
          Pending(v) || Has(v.chan[k + 1..], r) ==> !v.handed && !Has(v.chan[..k], r))
    && (v.handed && (Pending(v) || Has(v.chan, r)) ==> v.held)
  }

  predicate QoS2(s: State, r: RowId) { r in s.born && s.born[r] == 2 && r in s.pids }

  /** Only claimed rows reach the application, and a QoS-2 row at most once. */
  ghost predicate HandedOk(handed: seq<RowId>, born: Qoses, pids: Pids) {
    && (forall i | 0 <= i < |handed| :: handed[i] in pids && handed[i] in born)
    && (forall i, j | 0 <= i < j < |handed| && handed[i] == handed[j] :: born[handed[i]] != 2)
  }

  ghost predicate AllSafe(s: State) {
    forall r | QoS2(s, r) :: RowSafe(ViewOf(s, r), r, s.pids[r])
  }

  ghost predicate QoS2Inv(s: State) {
    AllSafe(s) && HandedOk(s.handed, s.born, s.pids)
  }

  lemma Weaken(v: View, v': View, r: RowId, p: Pid)
    requires RowSafe(v, r, p)
    requires v' == v.(owed := v'.owed, live := v'.live, again := v'.again, listed := v'.listed, sent := v'.sent)
    requires v'.owed ==> !v'.again && !v'.sent
    requires Pending(v') ==> Pending(v)
    requires (v'.live ==> v.live) && (v'.listed && v.live ==> v.listed)
    ensures RowSafe(v', r, p)
  {
  }

  lemma HasAppend(chan: seq<Down>, m: Down, r: RowId)
    ensures Has(chan + [m], r) == (Has(chan, r) || IsPub(m, r))
  {
    var c := chan + [m];
    if Has(chan, r) { var i :| 0 <= i < |chan| && IsPub(chan[i], r); assert IsPub(c[i], r); }
    if IsPub(m, r) { assert IsPub(c[|chan|], r); }
  }

  /** Writing m at the end of the channel. */
  lemma Append(v: View, v': View, m: Down, r: RowId, p: Pid)
    requires RowSafe(v, r, p)
    requires v' == v.(chan := v.chan + [m], owed := v'.owed, live := v'.live, again := v'.again,
                      listed := v'.listed, sent := v'.sent)
    requires v'.owed ==> !v'.again && !v'.sent
    requires Pending(v') ==> Pending(v)
    requires (v'.live ==> v.live) && (v'.listed && v.live ==> v.listed)
    requires IsPub(m, r) ==> Pending(v) && !v'.live
    requires m == Pubrel(p) ==> (Pending(v') ==> !v.handed && !Has(v.chan, r))
    ensures RowSafe(v', r, p)
  {
    HasAppend(v.chan, m, r);
    forall k | 0 <= k < |v'.chan| && v'.chan[k] == Pubrel(p) && (Pending(v') || Has(v'.chan[k + 1..], r))
      ensures !v'.handed && !Has(v'.chan[..k], r)
    {
      if k < |v.chan| {
        assert v'.chan[k + 1..] == v.chan[k + 1..] + [m] && v'.chan[..k] == v.chan[..k];
        HasAppend(v.chan[k + 1..], m, r);
      } else {
        assert v'.chan[..k] == v.chan;
      }
    }
  }

  lemma HasPop(chan: seq<Down>, r: RowId)
    requires chan != []
    ensures Has(chan, r) == (IsPub(chan[0], r) || Has(chan[1..], r))
  {
    if Has(chan[1..], r) { var i :| 0 <= i < |chan| - 1 && IsPub(chan[1..][i], r); assert IsPub(chan[i + 1], r); }
    if Has(chan, r) && !IsPub(chan[0], r) {
      var i :| 0 <= i < |chan| && IsPub(chan[i], r);
      assert IsPub(chan[1..][i - 1], r);
    }
  }

  /** The client takes the head of the channel. */
  lemma Pop(v: View, v': View, r: RowId, p: Pid)
    requires RowSafe(v, r, p) && v.chan != []
    requires v' == v.(chan := v.chan[1..], handed := v'.handed, held := v'.held)
    requires v'.handed ==> v.handed || (IsPub(v.chan[0], r) && v'.held)
    requires v.held && !v'.held ==> v.chan[0] == Pubrel(p)
    ensures RowSafe(v', r, p)
  {
    HasPop(v.chan, r);
    assert v.chan[..0] == [];
    forall k | 0 <= k < |v'.chan| && v'.chan[k] == Pubrel(p) && (Pending(v') || Has(v'.chan[k + 1..], r))
      ensures !v'.handed && !Has(v'.chan[..k], r)
    {
      assert v'.chan[k + 1..] == v.chan[k + 2..] && v'.chan[..k] == v.chan[..k + 1][1..];
      HasPop(v.chan[..k + 1], r);
    }
  }

  /** The three step shapes that break at-most-once: a resume scan that sees a QoS-2 row whose
      claimer has not written yet, or one from before a clean start whose clean-up has not deleted
      it; a claim of an identifier whose PUBREL is still to be written, by the resume or by the
      read loop; and a resume of an earlier socket that repeats, to the live one, a row that is no
      longer owed. */
  predicate Racy(s: State, l: Label) {
    match l
    case Scan(k, _) =>
      && k in s.waiting
      && exists r :: r in s.rows && s.rows[r].qos == 2 && s.rows[r].state == 1 && (r in s.forgotten || Unwritten(s, r))
    case Attempt(id, pid, conn) =>
      Claims(s.rows, id, pid) && conn <= s.conn && s.rows[id].qos == 2 && pid in Owing(s)
    case Resume(k, fate) => fate.Delivered? && k != s.conn && ListOf(s, k) != [] && Stale(s, ListOf(s, k)[0])
    case _ => false
  }

  /** A claimer that captured the live socket has not written the row yet. */
  predicate Unwritten(s: State, r: RowId) { r in s.unwritten && s.unwritten[r] == s.conn }

  /** Only scans, claims and resumes can be racy. */
  lemma RacyShapes(s: State, l: Label)
    requires Racy(s, l)
    ensures l.Scan? || l.Attempt? || (l.Resume? && l.socket != s.conn)
  {
  }

  /** The scanned copy is out of date. */
  predicate Stale(s: State, it: Item) { it.Again? && it.qos == 2 && !Owed(s, it.id) }

  /** A freshly claimed row occurs nowhere else. */
  lemma FreshRow(s: State, id: RowId)
    requires ClaimInv(s) && QoS2Inv(s) && id !in s.pids
    ensures !Has(s.toClient, id) && !Listed(s.resumes, id) && id !in s.handed
  {
    assert forall k | k in s.resumes :: ItemsOk(s.resumes[k], s.born, s.pids);
  }

  lemma QoS2Attempt(s: State, l: Label)
    requires l.Attempt? && ClaimInv(s) && QoS2Inv(s) && !Racy(s, l)
    ensures QoS2Inv(Step(s, l))
  {
    var s' := Step(s, l);
    if s' != s {
      assert RowOk(l.id, s.rows[l.id], s.born, s.pids);
      FreshRow(s, l.id);
      assert Items(s') == Items(s) && Owing(s') == Owing(s);
      assert s.rows[l.id].qos == 2 ==> l.pid !in Owing(s);
      forall r | QoS2(s', r) ensures RowSafe(ViewOf(s', r), r, s'.pids[r]) {
        assert r != l.id ==> ViewOf(s', r) == ViewOf(s, r) && QoS2(s, r);
      }
    }
  }

  lemma QoS2Write(s: State, l: Label)
    requires l.Write? && ClaimInv(s) && QoS2Inv(s)
    ensures QoS2Inv(Step(s, l))
  {
    var s' := Step(s, l);
    if s' != s {
      var m := Publish(l.id, s.pids[l.id], s.born[l.id], false);
      forall r | QoS2(s', r) ensures RowSafe(ViewOf(s', r), r, s'.pids[r]) {
        if s.unwritten[l.id] == s.conn {
          Append(ViewOf(s, r), ViewOf(s', r), m, r, s.pids[r]);
        } else {
          Weaken(ViewOf(s, r), ViewOf(s', r), r, s.pids[r]);
        }
      }
    }
  }

  lemma QoS2Connect(s: State, l: Label)
    requires l.Connect? && ClaimInv(s) && QoS2Inv(s)
    ensures QoS2Inv(Step(s, l))
  {
    var s' := Step(s, l);
    assert Items(s') == [] && Owing(s') == {};
    forall r | QoS2(s', r) ensures RowSafe(ViewOf(s', r), r, s'.pids[r]) {
      assert RowSafe(ViewOf(s, r), r, s.pids[r]);
    }
  }

  /** What a new list adds: rows in state 1 that nobody is about to write. */
  lemma ScanRow(s: State, k: nat, items: seq<Item>, r: RowId)
    requires ClaimInv(s) && k in s.waiting && ScanOf(s.rows, items) && !Racy(s, Scan(k, items)) && QoS2(s, r)
    requires Repeats(items, r)
    ensures Owed(s, r) && !Unwritten(s, r)
  {
    var i :| 0 <= i < |items| && items[i].Again? && items[i].id == r;
    assert Answers(s.rows[r], items[i]) && RowOk(r, s.rows[r], s.born, s.pids);
  }

  lemma ListedUpdate(resumes: map<nat, seq<Item>>, k: nat, items: seq<Item>, r: RowId)
    ensures Listed(resumes[k := items], r) ==> Listed(resumes, r) || Repeats(items, r)
  {
  }

  /** The PUBRELs of a new list do not concern rows that it or a later resume repeats. */
  lemma ScanOwing(s: State, items: seq<Item>, i: nat, r: RowId)
    requires RowsOk(s.rows, s.born, s.pids) && ScanOf(s.rows, items) && QoS2(s, r)
    requires i < |items| && items[i].Release? && items[i].pid == s.pids[r]
    ensures !Repeats(items, r) && !(r in s.rows && s.rows[r].state == 1)
  {
    assert Answers(s.rows[items[i].id], items[i]);
    assert r in s.rows ==> RowOk(r, s.rows[r], s.born, s.pids);
    forall j | 0 <= j < |items| && items[j].Again? ensures items[j].id != r {
      assert Answers(s.rows[items[j].id], items[j]);
    }
  }

  lemma QoS2Scan(s: State, l: Label)
    requires l.Scan? && ClaimInv(s) && QoS2Inv(s) && !Racy(s, l)
    ensures QoS2Inv(Step(s, l))
  {
    var s' := Step(s, l);
    if l.socket in s.waiting && ScanOf(s.rows, l.items) {
      forall r | QoS2(s', r) ensures RowSafe(ViewOf(s', r), r, s'.pids[r]) {
        ListedUpdate(s.resumes, l.socket, l.items, r);
        if Repeats(l.items, r) { ScanRow(s, l.socket, l.items, r); }
        if l.socket == s.conn && s.pids[r] in Owing(s') {
          var i :| 0 <= i < |l.items| && l.items[i].Release? && l.items[i].pid == s.pids[r];
          ScanOwing(s, l.items, i, r);
        }
        Weaken(ViewOf(s, r), ViewOf(s', r), r, s.pids[r]);
      }
    }
  }

  lemma RepeatsTail(items: seq<Item>, r: RowId)
    requires items != []
    ensures Repeats(items, r) <==> (items[0].Again? && items[0].id == r) || Repeats(items[1..], r)
  {
    if Repeats(items[1..], r) {
      var i :| 0 <= i < |items| - 1 && items[1..][i].Again? && items[1..][i].id == r;
      assert items[i + 1].id == r;
    }
    if Repeats(items, r) && !(items[0].Again? && items[0].id == r) {
      var i :| 0 <= i < |items| && items[i].Again? && items[i].id == r;
      assert items[1..][i - 1].id == r;
    }
  }

  lemma OwingTail(s: State, k: nat, fate: Fate)
    requires ListOf(s, k) != []
    ensures Owing(Step(s, Resume(k, fate))) <= Owing(s)
    ensures k == s.conn && ListOf(s, k)[0].Release? ==> ListOf(s, k)[0].pid in Owing(s)
  {
    var items := Items(s);
    if k == s.conn {
      assert forall i | 0 <= i < |items| - 1 :: items[1..][i] == items[i + 1];
      assert items[0].Release? ==> items[0].pid in Owing(s);
    }
  }

  /** One item less in one list. */
  lemma ResumeView(s: State, k: nat, fate: Fate, r: RowId)
    requires ListOf(s, k) != [] && QoS2(s, r)
    ensures var v, v' := ViewOf(s, r), ViewOf(Step(s, Resume(k, fate)), r);
      && v' == v.(chan := v'.chan, owed := v'.owed, again := v'.again, listed := v'.listed)
      && (v'.again ==> v.again) && (v'.listed ==> v.listed) && (v'.owed ==> v.owed)
      && (ListOf(s, k)[0].Again? && ListOf(s, k)[0].id == r ==> v.listed && (k == s.conn ==> v.again))
  {
    RepeatsTail(ListOf(s, k), r);
    ListedUpdate(s.resumes, k, ListOf(s, k)[1..], r);
    OwingTail(s, k, fate);
  }

  lemma ResumeRowSafe(s: State, k: nat, fate: Fate, r: RowId)
    requires ClaimInv(s) && QoS2Inv(s) && ListOf(s, k) != [] && !Racy(s, Resume(k, fate)) && QoS2(s, r)
    ensures RowSafe(ViewOf(Step(s, Resume(k, fate)), r), r, s.pids[r])
  {
    var it := ListOf(s, k)[0];
    var v, v' := ViewOf(s, r), ViewOf(Step(s, Resume(k, fate)), r);
    ResumeView(s, k, fate, r);
    if !Arrives(it, k == s.conn, fate) {
      Weaken(v, v', r, s.pids[r]);
    } else {
      ResumeItems(s, k);
      OwingTail(s, k, fate);
      Append(v, v', WireOf(it), r, s.pids[r]);
    }
  }

  lemma QoS2Resume(s: State, l: Label)
    requires l.Resume? && ClaimInv(s) && QoS2Inv(s) && !Racy(s, l)
    ensures QoS2Inv(Step(s, l))
  {
    if ListOf(s, l.socket) != [] {
      forall r | QoS2(s, r) ensures RowSafe(ViewOf(Step(s, l), r), r, s.pids[r]) {
        ResumeRowSafe(s, l.socket, l.fate, r);
      }
    }
  }

  /** Giving up a list only takes possible writes away. */
  lemma QoS2Abort(s: State, l: Label)
    requires l.Abort? && ClaimInv(s) && QoS2Inv(s)
    ensures QoS2Inv(Step(s, l))
  {
    var s' := Step(s, l);
    forall r | QoS2(s', r) ensures RowSafe(ViewOf(s', r), r, s'.pids[r]) {
      Weaken(ViewOf(s, r), ViewOf(s', r), r, s.pids[r]);
    }
  }

  lemma RecvRow(s: State, accept: bool, r: RowId)
    requires ClaimInv(s) && s.toClient != [] && QoS2(s, r) && RowSafe(ViewOf(s, r), r, s.pids[r])
    ensures RowSafe(ViewOf(Step(s, Recv(accept)), r), r, s.pids[r])
  {
    assert Faithful(s.toClient[0], s.born, s.pids);
    Pop(ViewOf(s, r), ViewOf(Step(s, Recv(accept)), r), r, s.pids[r]);
  }

  /** What the client hands over is a claimed row, and if it is QoS 2 it is handed over for
      the first time. */
  lemma RecvHanded(s: State, accept: bool)
    requires ClaimInv(s) && QoS2Inv(s) && s.toClient != []
    ensures var m, h' := s.toClient[0], Step(s, Recv(accept)).handed;
      h' != s.handed ==>
        && m.Publish? && h' == s.handed + [m.id] && m.id in s.pids && m.id in s.born
        && (s.born[m.id] == 2 ==> m.id !in s.handed)
  {
    var m := s.toClient[0];
    assert Faithful(m, s.born, s.pids);
    assert m.Publish? && s.born[m.id] == 2 ==> IsPub(s.toClient[0], m.id) && RowSafe(ViewOf(s, m.id), m.id, m.pid);
  }

  lemma RecvFrame(s: State, accept: bool)
    ensures var s' := Step(s, Recv(accept));
      s' == s.(toClient := s'.toClient, toBroker := s'.toBroker, held := s'.held, handed := s'.handed)
  {
    if s.toClient != [] { ReceiveFrame(s.(toClient := s.toClient[1..]), s.toClient[0], accept); }
  }

  lemma ReceiveFrame(s: State, m: Down, accept: bool)
    ensures var s' := Receive(s, m, accept); s' == s.(toBroker := s'.toBroker, held := s'.held, handed := s'.handed)
  {
  }

  lemma QoS2Recv(s: State, s': State, accept: bool)
    requires s' == Step(s, Recv(accept)) && ClaimInv(s) && QoS2Inv(s)
    ensures QoS2Inv(s')
  {
    RecvFrame(s, accept);
    if s.toClient != [] {
      RecvHanded(s, accept);
      forall r | QoS2(s, r) ensures RowSafe(ViewOf(s', r), r, s.pids[r]) { RecvRow(s, accept, r); }
    }
  }

  /** The UPDATE of handlePubrec: no row with that identifier is left in state 1. */
  lemma QoS2Pubrec(s: State, l: Label)
    requires l.Ack? && ClaimInv(s) && QoS2Inv(s)
    requires s.toBroker != [] && s.toBroker[0].Pubrec?
    ensures QoS2Inv(Step(s, l))
  {
    var s' := Step(s, l);
    if s' != s {
      assert Items(s) == [];
      forall r | QoS2(s', r) ensures RowSafe(ViewOf(s', r), r, s'.pids[r]) {
        assert Owed(s, r) ==> RowOk(r, s.rows[r], s.born, s.pids);
        Weaken(ViewOf(s, r), ViewOf(s', r), r, s.pids[r]);
      }
    }
  }

  /** Its PUBREL: whoever may still be written under the identifier has not arrived yet. */
  lemma QoS2Answer(s: State)
    requires ClaimInv(s) && QoS2Inv(s) && s.owing.Some?
    ensures QoS2Inv(Step(s, Answer))
  {
    var s' := Step(s, Answer);
    forall r | QoS2(s', r) ensures RowSafe(ViewOf(s', r), r, s'.pids[r]) {
      Append(ViewOf(s, r), ViewOf(s', r), Pubrel(s.owing.value), r, s.pids[r]);
    }
  }

  /** Rows only disappear or move from 1 to 2: nothing new can be written. */
  lemma QoS2Fewer(s: State, s': State)
    requires QoS2Inv(s)
    requires s' == s.(rows := s'.rows, toBroker := s'.toBroker)
    requires forall id | id in s'.rows && s'.rows[id].state == 1 :: id in s.rows && s.rows[id].state == 1
    ensures QoS2Inv(s')
  {
    forall r | QoS2(s', r) ensures RowSafe(ViewOf(s', r), r, s'.pids[r]) {
      Weaken(ViewOf(s, r), ViewOf(s', r), r, s.pids[r]);
    }
  }

  lemma QoS2Insert(s: State, l: Label)
    requires l.Insert? && ClaimInv(s) && QoS2Inv(s)
    ensures QoS2Inv(Step(s, l))
  {
    var s' := Step(s, l);
    if s' != s {
      assert l.id !in s.rows by { assert l.id in s.rows ==> RowOk(l.id, s.rows[l.id], s.born, s.pids); }
      forall r | QoS2(s', r) ensures RowSafe(ViewOf(s', r), r, s'.pids[r]) {
        assert QoS2(s, r) && RowSafe(ViewOf(s, r), r, s.pids[r]);
        Weaken(ViewOf(s, r), ViewOf(s', r), r, s.pids[r]);
      }
    }
  }

  lemma QoS2Read(s: State)
    requires ClaimInv(s) && QoS2Inv(s)
    ensures QoS2Inv(Step(s, Read))
  {
    var s' := Step(s, Read);
    forall r | QoS2(s', r) ensures RowSafe(ViewOf(s', r), r, s'.pids[r]) {
      assert ViewOf(s', r) == ViewOf(s, r);
    }
  }

  lemma QoS2Ack(s: State, l: Label)
    requires l.Ack? && ClaimInv(s) && QoS2Inv(s)
    ensures QoS2Inv(Step(s, l))
  {
    if Step(s, l) != s {
      if s.toBroker[0].Pubrec? { QoS2Pubrec(s, l); } else { QoS2Fewer(s, Step(s, l)); }
    }
  }

  lemma QoS2Step(s: State, l: Label)
    requires ClaimInv(s) && QoS2Inv(s) && !Racy(s, l)
    ensures QoS2Inv(Step(s, l))
  {
    match l
    case Insert(_, _) => QoS2Insert(s, l);
    case Attempt(_, _, _) => QoS2Attempt(s, l);
    case Write(_) => QoS2Write(s, l);
    case Connect(_, _) => QoS2Connect(s, l);
    case Scan(_, _) => QoS2Scan(s, l);
    case Resume(_, _) => QoS2Resume(s, l);
    case Abort(_) => QoS2Abort(s, l);
    case Read => QoS2Read(s);
    case Recv(accept) => QoS2Recv(s, Step(s, l), accept);
    case Ack => QoS2Ack(s, l);
    case Answer => if s.owing.Some? { QoS2Answer(s); }
    case _ => QoS2Fewer(s, Step(s, l));
  }

  // ---- the theorems over whole runs -------------------------------------------------------

  ghost predicate RacyRun(s: State, ls: seq<Label>)
    decreases |ls|
  {
    ls != [] && (Racy(s, ls[0]) || RacyRun(Step(s, ls[0]), ls[1..]))
  }

  lemma {:induction false} ClaimRun(s: State, ls: seq<Label>)
    requires ClaimInv(s)
    ensures ClaimInv(Run(s, ls))
    decreases |ls|
  {
    if ls != [] {
      ClaimStep(s, ls[0]);
      ClaimRun(Step(s, ls[0]), ls[1..]);
    }
  }

  /** Claim exclusivity: whatever callers and resumes interleave, and however, a QoS-0 row is written at
      most once, a QoS>0 row at most once without DUP, and every write of one row carries
      the identifier of its only claim. */
  lemma ClaimExclusive(ls: seq<Label>, i: nat, j: nat)
    requires i < j < |Run(Init, ls).written|
    ensures var w := Run(Init, ls).written;
      w[i].Publish? && w[j].Publish? &&
      (w[i].id == w[j].id ==> w[i].pid == w[j].pid && w[i].qos == w[j].qos > 0 && (w[i].dup || w[j].dup))
  {
    ClaimRun(Init, ls);
    var s := Run(Init, ls);
    assert Faithful(s.written[i], s.born, s.pids) && Faithful(s.written[j], s.born, s.pids);
  }

  ghost predicate InLog(written: seq<Down>, id: RowId) {
    exists i :: 0 <= i < |written| && written[i].Publish? && written[i].id == id
  }

  /** The log misses nothing: what is on its way to the client, or was handed over, was written. */
  ghost predicate Logged(s: State) {
    && (forall i | 0 <= i < |s.toClient| && s.toClient[i].Publish? :: s.toClient[i] in s.written)
    && (forall i | 0 <= i < |s.handed| :: InLog(s.written, s.handed[i]))
  }

  lemma InLogMore(written: seq<Down>, m: Down, id: RowId)
    ensures InLog(written, id) || (m.Publish? && m.id == id) ==> InLog(written + [m], id)
  {
    var w := written + [m];
    if InLog(written, id) {
      var i :| 0 <= i < |written| && written[i].Publish? && written[i].id == id;
      assert w[i].id == id;
    }
    assert w[|written|] == m;
  }

  lemma LoggedWrite(s: State, l: Label)
    requires (l.Write? || l.Resume?) && Logged(s)
    ensures Logged(Step(s, l))
  {
    var s' := Step(s, l);
    if s'.written != s.written {
      var m := s'.written[|s.written|];
      assert s'.written == s.written + [m];
      forall i | 0 <= i < |s'.handed| ensures InLog(s'.written, s'.handed[i]) { InLogMore(s.written, m, s.handed[i]); }
    }
  }

  lemma LoggedRecv(s: State, l: Label)
    requires l.Recv? && Logged(s)
    ensures Logged(Step(s, l))
  {
    if s.toClient != [] && s.toClient[0].Publish? {
      assert s.toClient[0] in s.written;
      assert InLog(s.written, s.toClient[0].id);
    }
  }

  lemma LoggedStep(s: State, l: Label)
    requires Logged(s)
    ensures Logged(Step(s, l))
  {
    if l.Write? || l.Resume? { LoggedWrite(s, l); } else if l.Recv? { LoggedRecv(s, l); }
  }

  /** `Delete` and `Advance` are what the acknowledgement handlers of an earlier socket do to a row: by
      the unique index, the statements for its identifier touch that row alone. */
  lemma StaleHandlers(s: State, id: RowId)
    requires RowsOk(s.rows, s.born, s.pids) && id in s.rows && s.rows[id].pid.Some?
    ensures Step(s, Delete(id)) == s.(rows := DeleteAcked(s.rows, s.rows[id].pid.value, s.rows[id].qos))
    ensures s.rows[id].qos == 2 ==> Step(s, Advance(id)) == s.(rows := MarkReceived(s.rows, s.rows[id].pid.value))
  {
    var p := s.rows[id].pid.value;
    assert forall i | i in s.rows && i != id :: s.rows[i].pid != Some(p);
    assert s.rows - {id} == DeleteAcked(s.rows, p, s.rows[id].qos);
    if s.rows[id].qos == 2 && s.rows[id].state == 1 {
      assert s.rows[id := s.rows[id].(state := 2)] == MarkReceived(s.rows, p);
    } else if s.rows[id].qos == 2 {
      assert s.rows == MarkReceived(s.rows, p);
    }
  }

  /** So `ClaimExclusive` speaks about everything the client receives. */
  lemma {:induction false} LogComplete(s: State, ls: seq<Label>)
    requires Logged(s)
    ensures Logged(Run(s, ls))
    decreases |ls|
  {
    if ls != [] {
      LoggedStep(s, ls[0]);
      LogComplete(Step(s, ls[0]), ls[1..]);
    }
  }

  lemma {:induction false} QoS2Run(s: State, ls: seq<Label>)
    requires ClaimInv(s) && QoS2Inv(s) && !RacyRun(s, ls)
    ensures QoS2Inv(Run(s, ls))
    decreases |ls|
  {
    if ls != [] {
      ClaimStep(s, ls[0]);
      QoS2Step(s, ls[0]);
      QoS2Run(Step(s, ls[0]), ls[1..]);
    }
  }

  /** QoS-2 outbound safety: over any number of disconnects and resumes, deletes and
      interleaved callers and resumes, no QoS-2 row reaches the application twice, unless the
      run takes one of the three racy steps. */
  lemma AtMostOnce(ls: seq<Label>, i: nat, j: nat)
    requires !RacyRun(Init, ls)
    requires i < j < |Run(Init, ls).handed| && Run(Init, ls).handed[i] == Run(Init, ls).handed[j]
    ensures Run(Init, ls).handed[i] in Run(Init, ls).born && Run(Init, ls).born[Run(Init, ls).handed[i]] != 2
  {
    QoS2Run(Init, ls);
  }
}
