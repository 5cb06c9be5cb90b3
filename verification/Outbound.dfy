/** One v5 Conn at work on its client's `deliveries` rows, one call at a time: the claim, the
    acknowledgement handlers, the drain loop and the resume.  (Deliveries and Wakeup cover the
    interleavings.)  Answers of the packet-id allocator, of the size and expiry checks and of the
    socket are parameters. */
module Outbound {
  import opened Prelude
  import opened Deliveries

  ghost predicate RowShape(r: Row) {
    && 0 <= r.qos <= 2
    && 0 <= r.state <= r.qos
    && (r.state == 0 <==> r.pid == None)
  }

  /** Row shapes and the unique (client_id, packet_id) index. */
  ghost predicate TableOk(rows: Rows) {
    && (forall id | id in rows :: RowShape(rows[id]))
    && (forall i, j | i in rows && j in rows && rows[i].pid.Some? && rows[i].pid == rows[j].pid :: i == j)
  }

  /** Rows sent and not yet fully acknowledged. */
  function Flying(rows: Rows): set<RowId> { set id | id in rows && rows[id].state > 0 }

  /** What the drain loop selects from. */
  function Queued(rows: Rows): set<RowId> { set id | id in rows && rows[id].state == 0 && rows[id].qos > 0 }

  predicate Holds(rows: Rows, pid: Pid, q: int) {
    exists id | id in rows :: rows[id].pid == Some(pid) && rows[id].qos == q
  }

  lemma ClaimFlies(rows: Rows, id: RowId, pid: Pid)
    requires TableOk(rows) && Claims(rows, id, pid) && rows[id].qos > 0
    ensures TableOk(Claim(rows, id, pid))
    ensures Flying(Claim(rows, id, pid)) == Flying(rows) + {id} && id !in Flying(rows)
    ensures Queued(Claim(rows, id, pid)) == Queued(rows) - {id}
  {
    assert RowShape(rows[id]);
  }

  lemma RemoveKeeps(rows: Rows, id: RowId)
    requires TableOk(rows)
    ensures TableOk(rows - {id}) && Flying(rows - {id}) == Flying(rows) - {id}
    ensures Queued(rows - {id}) == Queued(rows) - {id}
  {
  }

  /** The index lets an acknowledgement remove at most one row. */
  lemma AckRemovesOne(rows: Rows, pid: Pid, q: int)
    requires TableOk(rows)
    ensures TableOk(DeleteAcked(rows, pid, q))
    ensures |Flying(DeleteAcked(rows, pid, q))| == |Flying(rows)| - if Holds(rows, pid, q) then 1 else 0
  {
    var rows' := DeleteAcked(rows, pid, q);
    if Holds(rows, pid, q) {
      var id :| id in rows && rows[id].pid == Some(pid) && rows[id].qos == q;
      assert RowShape(rows[id]);
      forall i | i in rows && i != id ensures rows[i].pid != Some(pid) { }
      assert Flying(rows') == Flying(rows) - {id};
    } else {
      forall i | i in rows ensures i in rows' { }
      assert Flying(rows') == Flying(rows);
    }
  }

  lemma ReceivedKeeps(rows: Rows, pid: Pid)
    requires TableOk(rows)
    ensures TableOk(MarkReceived(rows, pid)) && Flying(MarkReceived(rows, pid)) == Flying(rows)
  {
    var rows' := MarkReceived(rows, pid);
    forall id | id in rows' ensures RowShape(rows'[id]) { assert RowShape(rows[id]); }
  }

  /** Nothing stands in the way of the PUBLISH: the row is still there (QoS 0), it is a repeat, or
      a slot and an identifier are free and the claim succeeds. */
  predicate Goes(rows: Rows, slot: bool, id: RowId, qos: int, state: int, alloc: Option<Pid>) {
    if qos == 0 then id in rows
    else state == 1 || (slot && alloc.Some? && Claims(rows, id, alloc.value))
  }

  /** An identifier was found, and nobody has taken it meanwhile. */
  predicate Allocated(rows: Rows, alloc: Option<Pid>) { alloc.Some? && PidFree(rows, alloc.value) }

  /** The allocator finds none, or the one it found is taken when a queued row claims it. */
  predicate NoPid(rows: Rows, id: RowId, alloc: Option<Pid>) {
    alloc.None? || (id in rows && rows[id].state == 0 && !PidFree(rows, alloc.value))
  }

  /** The identifier a PUBLISH carries: none, the row's own, or the one just allocated. */
  function PidOf(qos: int, state: int, pid: Option<Pid>, alloc: Option<Pid>): Pid {
    if state == 1 && pid.Some? then pid.value else if qos > 0 && alloc.Some? then alloc.value else 0
  }

  /** A row goes into flight and its write fails: the slot is lost to it. */
  predicate Leaves(rows: Rows, slot: bool, id: RowId, qos: int, state: int, alloc: Option<Pid>, writes: bool) {
    qos > 0 && !writes && Goes(rows, slot, id, qos, state, alloc)
  }

  /** Why the drain loop stopped. */
  datatype Stop = Empty | NoSlot | Dropped | Failed

  /** One call on a clean-start Conn. */
  datatype Event =
    | Deliver(id: RowId, drop: bool, alloc: Option<Pid>, writes: bool)
    | Puback(pid: Pid) | Pubrec(pid: Pid, refused: bool) | Pubcomp(pid: Pid)
    | Enqueue(id: RowId, qos: int)
    | Retained(id: RowId, qos: int, alloc: Option<Pid>, writes: bool)

  class Conn {
    const cap: nat
    var used: nat
    var kick: bool
    var rows: Rows
    var wire: seq<Down>

    ghost predicate Valid() reads this { used <= cap && TableOk(rows) }

    /** Rows in flight that hold no slot. */
    ghost function Drift(): int reads this { |Flying(rows)| - used }

    constructor (receiveMaximum: nat)
      ensures Valid() && cap == receiveMaximum && rows == map[] && wire == [] && Drift() == 0 && used == 0 && !kick
    {
      cap, used, kick, rows, wire := receiveMaximum, 0, false, map[], [];
      new;
      assert Flying(rows) == {};
    }

    /** tryAcquireInflight. */
    method TryAcquire() returns (ok: bool)
      requires Valid()
      modifies this`used
      ensures ok == (old(used) < cap) && used == old(used) + (if ok then 1 else 0)
    {
      ok := used < cap;
      if ok { used := used + 1; }
    }

    /** returnInflight. */
    method ReturnInflight()
      requires Valid()
      modifies this`used, this`kick
      ensures kick && used == old(used) - (if old(used) > 0 then 1 else 0)
    {
      if used > 0 { used := used - 1; }
      kick := true;
    }

    /** deliverOneTracked, for a scanned copy (qos, state, pid) of a row in state 0 or 1.
        The slot follows the claim: only a write that fails after the claim leaves a row in
        flight without one, and a failed repeat gives back a slot it never took. */
    method DeliverOne(id: RowId, qos: int, state: int, pid: Option<Pid>, drop: bool, alloc: Option<Pid>, writes: bool)
      returns (sent: bool, failed: bool)
      requires Valid()
      requires 0 <= state <= 1 && (state == 1 ==> qos > 0 && pid.Some?)
      requires id in rows ==> rows[id].qos == qos
      modifies this`used, this`kick, this`rows, this`wire
      ensures Valid()
      ensures sent <==> !drop && writes && Goes(old(rows), old(used) < cap, id, qos, state, alloc)
      ensures failed <==>
        && !drop
        && ((!writes && Goes(old(rows), old(used) < cap, id, qos, state, alloc))
            || (qos > 0 && state == 0 && old(used) < cap && NoPid(old(rows), id, alloc)))
      ensures wire == old(wire) + if sent then [Publish(id, PidOf(qos, state, pid, alloc), qos, state == 1)] else []
      ensures forall i | i != id && i in old(rows) :: i in rows && rows[i] == old(rows)[i]
      ensures rows.Keys <= old(rows).Keys
      ensures drop || qos == 0 ==> rows == old(rows) - {id}
      ensures !drop && qos > 0 && state == 0 ==>
        if Goes(old(rows), old(used) < cap, id, qos, state, alloc) then rows == Claim(old(rows), id, alloc.value)
        else rows == old(rows)
      ensures !drop && state == 0 && qos > 0 && id in old(Queued(rows)) && !sent && !failed ==> old(used) == cap
      ensures drop ==> Drift() <= old(Drift())
      ensures !drop && state == 0 ==>
        Drift() == old(Drift()) + if Leaves(old(rows), old(used) < cap, id, qos, state, alloc, writes) then 1 else 0
      ensures !drop && state == 1 ==>
        rows == old(rows) && Drift() == old(Drift()) + if !writes && old(used) > 0 then 1 else 0
      ensures !failed ==> used >= old(used)
    {
      sent, failed := false, false;
      if drop {
        RemoveKeeps(rows, id);
        rows := rows - {id};
        return;
      }
      var p := 0;
      if qos > 0 && state == 0 {
        var slot := TryAcquire();
        if !slot { return; }
      }
      if qos > 0 {
        if state == 1 {
          p := pid.value;
        } else {
          if NoPid(rows, id, alloc) {
            ReturnInflight();
            failed := true;
            return;
          }
          if id !in rows || rows[id].state != 0 {
            ReturnInflight();
            return;
          }
          p := alloc.value;
          ClaimFlies(rows, id, p);
          rows := Claim(rows, id, p);
        }
      } else {
        if id !in rows { return; }
        RemoveKeeps(rows, id);
        rows := rows - {id};
      }
      if !writes {
        if qos > 0 { ReturnInflight(); }
        failed := true;
        return;
      }
      wire := wire + [Publish(id, p, qos, state == 1)];
      sent := true;
    }

    /** dispatchRetainedForFilter, for one retained message: a row of its own, claimed without a slot.
        QoS 0 needs no row. */
    method Replay(id: RowId, qos: int, alloc: Option<Pid>, writes: bool) returns (ok: bool)
      requires Valid() && id !in rows && 0 <= qos <= 2
      modifies this`rows, this`wire
      ensures Valid()
      ensures qos == 0 ==> rows == old(rows)
      ensures qos > 0 ==>
        rows == old(rows)[id := if Allocated(old(rows), alloc) then Row(qos, 1, alloc) else Row(qos, 0, None)]
      ensures ok <==> writes && (qos == 0 || Allocated(old(rows), alloc))
      ensures wire == old(wire) + if ok then [Publish(id, if qos == 0 then 0 else alloc.value, qos, false)] else []
      ensures Drift() == old(Drift()) + if qos > 0 && Allocated(old(rows), alloc) then 1 else 0
    {
      var p := 0;
      if qos > 0 {
        EnqueueKeeps(rows, id, qos);
        rows := rows[id := Row(qos, 0, None)];
        if alloc.Some? { EnqueuedFree(old(rows), id, qos, alloc.value); }
        if alloc.None? || !PidFree(rows, alloc.value) { return false; }
        p := alloc.value;
        ClaimFlies(rows, id, p);
        rows := Claim(rows, id, p);
        assert rows == old(rows)[id := Row(qos, 1, Some(p))];
      }
      if !writes { return false; }
      wire := wire + [Publish(id, p, qos, false)];
      return true;
    }

    /** handlePuback: a slot comes back exactly when a row went away. */
    method HandlePuback(pid: Pid)
      requires Valid()
      modifies this`used, this`kick, this`rows
      ensures Valid() && rows == DeleteAcked(old(rows), pid, 1)
      ensures Drift() == old(Drift()) - if Holds(old(rows), pid, 1) && old(used) == 0 then 1 else 0
    {
      AckRemovesOne(rows, pid, 1);
      var known := Holds(rows, pid, 1);
      rows := DeleteAcked(rows, pid, 1);
      if known { ReturnInflight(); }
    }

    /** handlePubcomp. */
    method HandlePubcomp(pid: Pid)
      requires Valid()
      modifies this`used, this`kick, this`rows
      ensures Valid() && rows == DeleteAcked(old(rows), pid, 2)
      ensures Drift() == old(Drift()) - if Holds(old(rows), pid, 2) && old(used) == 0 then 1 else 0
    {
      AckRemovesOne(rows, pid, 2);
      var known := Holds(rows, pid, 2);
      rows := DeleteAcked(rows, pid, 2);
      if known { ReturnInflight(); }
    }

    /** handlePubrec.  A refusal releases a slot whether or not a row went away: for an unknown
        identifier the window grows by one. */
    method HandlePubrec(pid: Pid, refused: bool)
      requires Valid()
      modifies this`used, this`kick, this`rows, this`wire
      ensures Valid()
      ensures rows == if refused then DeleteAcked(old(rows), pid, 2) else MarkReceived(old(rows), pid)
      ensures wire == old(wire) + if refused then [] else [Pubrel(pid)]
      ensures !refused ==> Drift() == old(Drift())
      ensures refused && Holds(old(rows), pid, 2) ==> Drift() == old(Drift()) - if old(used) == 0 then 1 else 0
      ensures refused && !Holds(old(rows), pid, 2) ==> Drift() == old(Drift()) + if old(used) > 0 then 1 else 0
    {
      if refused {
        AckRemovesOne(rows, pid, 2);
        rows := DeleteAcked(rows, pid, 2);
        ReturnInflight();
      } else {
        ReceivedKeeps(rows, pid);
        rows := MarkReceived(rows, pid);
        wire := wire + [Pubrel(pid)];
      }
    }

    /** drainOnce: the lowest queued row, if any.  `go` is false when the loop must stop. */
    method DrainOnce(drops: set<RowId>, alloc: Option<Pid>, writes: bool)
      returns (go: bool, stop: Stop, ghost id: RowId)
      requires Valid()
      modifies this`used, this`kick, this`rows, this`wire
      ensures Valid()
      ensures go ==> Least(id, old(Queued(rows))) && Queued(rows) == old(Queued(rows)) - {id}
      ensures go ==> SentInOrder(wire, old(wire), [id], [alloc])
      ensures !go ==> wire == old(wire)
      ensures go || stop == Empty || stop == NoSlot ==> Drift() == old(Drift())
      ensures !go && stop == Empty ==> Queued(rows) == old(Queued(rows)) == {}
      ensures !go && stop == NoSlot ==> Queued(rows) == old(Queued(rows)) && used == old(used) == cap
      ensures !go && stop == Dropped ==> old(Queued(rows)) * drops != {}
    {
      id := 0;
      if Queued(rows) == {} { return false, Empty, id; }
      LeastExists(Queued(rows));
      ghost var low :| Least(low, Queued(rows));
      var row :| row in Queued(rows) && forall j | j in Queued(rows) :: row <= j;
      ghost var before := rows;
      var sent, failed := DeliverOne(row, rows[row].qos, 0, None, row in drops, alloc, writes);
      if sent {
        ClaimFlies(before, row, alloc.value);
        return true, Empty, row;
      }
      if failed { return false, Failed, id; }
      if row in drops {
        assert row in old(Queued(rows)) * drops;
        return false, Dropped, id;
      }
      return false, NoSlot, id;
    }

    /** The body of runDrainLoop after a kick: drainOnce until there is nothing to send or no slot.
        Sends go out in the order of the rows' ids and nothing is overtaken; when it stops without
        a drop or an error, the queue is empty or every slot is taken. */
    method DrainLoop(drops: set<RowId>, allocs: seq<Option<Pid>>, writes: seq<bool>)
      returns (stop: Stop, ghost ids: seq<RowId>)
      requires Valid()
      modifies this`used, this`kick, this`rows, this`wire
      ensures Valid()
      ensures Sorted(ids) && Elems(ids) <= old(Queued(rows)) && SentInOrder(wire, old(wire), ids, allocs)
      ensures stop == Empty || stop == NoSlot ==>
        InOrder(old(Queued(rows)), Queued(rows), ids) && Drift() == old(Drift())
      ensures stop == Empty ==> Queued(rows) == {}
      ensures stop == NoSlot ==> used == cap
      ensures stop == Dropped ==> old(Queued(rows)) * drops != {}
    {
      ids := [];
      ghost var q0 := Queued(rows);
      var n, go := 0, true;
      stop := Empty;
      while go
        invariant Valid() && SentInOrder(wire, old(wire), ids, allocs) && (go ==> n == |ids|)
        invariant Sorted(ids) && Elems(ids) <= q0
        invariant go || stop == Empty || stop == NoSlot ==> InOrder(q0, Queued(rows), ids) && Drift() == old(Drift())
        invariant !go && stop == Empty ==> Queued(rows) == {}
        invariant !go && stop == NoSlot ==> used == cap
        invariant !go && stop == Dropped ==> q0 * drops != {}
        decreases go, |Queued(rows)|
      {
        ghost var q, w := Queued(rows), wire;
        ghost var id;
        var alloc := if n < |allocs| then allocs[n] else None;
        go, stop, id := DrainOnce(drops, alloc, n < |writes| && writes[n]);
        if go {
          InOrderStep(q0, q, ids, id);
          assert FirstPublish(wire[|w| + 0], [id][0], [alloc][0]);
          SentStep(wire, w, old(wire), ids, id, allocs);
          ids := ids + [id];
        }
        n := n + 1;
      }
    }

    /** One row of the resume: a PUBREL, a repeat under DUP, or an ordinary delivery. */
    method ResumeOne(id: RowId, r: Row, drop: bool, alloc: Option<Pid>, writes: bool)
      returns (ok: bool, ghost out: seq<Down>)
      requires Valid() && id in rows && rows[id] == r
      modifies this`used, this`kick, this`rows, this`wire
      ensures Valid() && wire == old(wire) + out
      ensures ok ==> Repeated(out) == AnswerTo(id, r, drop)
      ensures Firsts(out) == [] || (Firsts(out) == [id] && r.state == 0)
      ensures ok && r.state == 0 && !drop ==> Firsts(out) == [id] || (r.qos > 0 && used == cap)
      ensures ok ==> used >= old(used)
      ensures r.state == 2 ==> ok == writes && out == (if writes then [Pubrel(r.pid.value)] else [])
      ensures r.state == 1 ==> (ok <==> drop || writes)
      ensures rows.Keys <= old(rows).Keys
      ensures forall i | i != id && i in old(rows) :: i in rows && rows[i] == old(rows)[i]
    {
      out := [];
      assert RowShape(r);
      if r.state == 2 {
        if !writes { return false, out; }
        var m := Pubrel(r.pid.value);
        OnePacket(m);
        wire := wire + [m];
        return true, [m];
      }
      var sent, failed := DeliverOne(id, r.qos, r.state, r.pid, drop, alloc, writes);
      if sent {
        out := [wire[|wire| - 1]];
        OnePacket(wire[|wire| - 1]);
      } else {
        assert r.state == 0 && r.qos > 0 ==> id in old(Queued(rows));
      }
      ok := !failed;
    }

    /** The i-th turn of the loop of drainSessionQueue; `table` is what the scan saw, `out` what the
        loop has written. */
    method ResumeAt(scan: seq<RowId>, i: nat, drop: bool, alloc: Option<Pid>, writes: bool,
                    ghost table: Rows, ghost drops: set<RowId>, ghost out: seq<Down>)
      returns (ok: bool, ghost more: seq<Down>)
      requires Valid() && Sorted(scan) && i < |scan| && Untouched(rows, table, scan, i)
      requires Progress(table, scan, i, drops, out, used == cap) && drop == (scan[i] in drops)
      modifies this`used, this`kick, this`rows, this`wire
      ensures Valid() && wire == old(wire) + more && Untouched(rows, table, scan, i + 1)
      ensures FirstsFrom(table, scan, |scan|, Firsts(out + more))
      ensures ok ==> Progress(table, scan, i + 1, drops, out + more, used == cap)
      ensures table[scan[i]].state > 0 && writes ==> ok
    {
      assert RowShape(rows[scan[i]]);
      assert scan[i] in rows && rows[scan[i]] == table[scan[i]];
      ghost var before, full := rows, used == cap;
      ok, more := ResumeOne(scan[i], rows[scan[i]], drop, alloc, writes);
      StillUntouched(before, rows, table, scan, i);
      Progressed(table, scan, i, drops, out, more, full, used == cap, ok);
    }

    /** drainSessionQueue over the scanned rows, in the order of their ids: when it succeeds, every
        row in state 1 that is not dropped was repeated under DUP with its own identifier, every row
        in state 2 was answered with PUBREL, each once and in order, and nothing else was repeated;
        every queued row that is not dropped was sent, once and in order, or the slots ran out. */
    method DrainSessionQueue(scan: seq<RowId>, drops: set<RowId>, allocs: seq<Option<Pid>>, writes: seq<bool>)
      returns (ok: bool, ghost out: seq<Down>)
      requires Valid() && Sorted(scan) && forall k | 0 <= k < |scan| :: scan[k] in rows
      modifies this`used, this`kick, this`rows, this`wire
      ensures Valid() && wire == old(wire) + out
      ensures ok ==> Repeated(out) == Resumption(old(rows), scan, drops)
      ensures FirstsFrom(old(rows), scan, |scan|, Firsts(out))
      ensures ok ==> FirstsDone(old(rows), scan, |scan|, drops, Firsts(out), used == cap)
      ensures Smooth(old(rows), scan, writes) ==> ok
    {
      out := [];
      ghost var table := rows;
      for i := 0 to |scan|
        invariant Valid() && wire == old(wire) + out && Untouched(rows, table, scan, i)
        invariant Progress(table, scan, i, drops, out, used == cap)
      {
        ghost var more;
        var alloc := if i < |allocs| then allocs[i] else None;
        ok, more := ResumeAt(scan, i, scan[i] in drops, alloc, i < |writes| && writes[i], table, drops, out);
        out := out + more;
        if !ok { return; }
      }
      assert scan[..|scan|] == scan;
      ok := true;
    }

    /** A clean-start Conn over any sequence of deliveries, retained replays and acknowledgements: the
        rows in flight exceed the client's Receive Maximum by no more than the number of replays,
        refused PUBLISHes and writes that failed; without any of these, never. */
    method Serve(events: seq<Event>) returns (leaks: nat)
      requires Valid() && Drift() <= 0
      modifies this`used, this`kick, this`rows, this`wire
      ensures Valid() && |Flying(rows)| <= cap + leaks && leaks <= LeakyCount(events)
    {
      leaks := 0;
      for i := 0 to |events|
        invariant Valid() && Drift() <= leaks <= LeakyCount(events[..i])
      {
        assert events[..i + 1][..i] == events[..i];
        var leak := Turn(events[i]);
        if leak { leaks := leaks + 1; }
      }
      assert events[..|events|] == events;
    }

    method Turn(e: Event) returns (leak: bool)
      requires Valid()
      modifies this`used, this`kick, this`rows, this`wire
      ensures Valid() && Drift() <= old(Drift()) + if leak then 1 else 0
      ensures leak ==> Leaky(e)
      ensures e.Enqueue? ==>
        rows == if e.id !in old(rows) && 0 <= e.qos <= 2 then old(rows)[e.id := Row(e.qos, 0, None)] else old(rows)
      ensures e.Retained? && e.id !in old(rows) && 0 <= e.qos <= 2 ==>
        && (e.qos > 0 <==> e.id in rows)
        && |wire| == |old(wire)| + if e.writes && (e.qos == 0 || Allocated(old(rows), e.alloc)) then 1 else 0
    {
      leak := false;
      match e
      case Deliver(id, drop, alloc, writes) =>
        var sent, failed := DeliverOne(id, if id in rows then rows[id].qos else 1, 0, None, drop, alloc, writes);
        leak := failed && !writes;
      case Retained(id, qos, alloc, writes) =>
        if id !in rows && 0 <= qos <= 2 {
          var ok := Replay(id, qos, alloc, writes);
          leak := qos > 0;
        }
      case Puback(pid) => HandlePuback(pid);
      case Pubcomp(pid) => HandlePubcomp(pid);
      case Pubrec(pid, refused) =>
        leak := refused && !Holds(rows, pid, 2);
        HandlePubrec(pid, refused);
      case Enqueue(id, qos) =>
        if id !in rows && 0 <= qos <= 2 {
          EnqueueKeeps(rows, id, qos);
          rows := rows[id := Row(qos, 0, None)];
        }
    }
  }

  /** The events that can leave a row in flight without a slot. */
  predicate Leaky(e: Event) { (e.Deliver? && !e.writes) || (e.Pubrec? && e.refused) || (e.Retained? && e.qos > 0) }

  function LeakyCount(events: seq<Event>): nat {
    if events == [] then 0
    else LeakyCount(events[..|events| - 1]) + if Leaky(events[|events| - 1]) then 1 else 0
  }

  lemma EnqueueKeeps(rows: Rows, id: RowId, qos: int)
    requires TableOk(rows) && id !in rows && 0 <= qos <= 2
    ensures TableOk(rows[id := Row(qos, 0, None)]) && Flying(rows[id := Row(qos, 0, None)]) == Flying(rows)
  {
  }

  lemma EnqueuedFree(rows: Rows, id: RowId, qos: int, pid: Pid)
    requires id !in rows
    ensures PidFree(rows[id := Row(qos, 0, None)], pid) <==> PidFree(rows, pid)
  {
    var more := rows[id := Row(qos, 0, None)];
    assert forall i | i in rows :: i in more && more[i] == rows[i];
  }

  /** What a resume owes to a row that was sent before. */
  ghost function AnswerTo(id: RowId, r: Row, drop: bool): seq<Down> {
    if r.state == 2 && r.pid.Some? then [Pubrel(r.pid.value)]
    else if r.state == 1 && r.pid.Some? && !drop then [Publish(id, r.pid.value, r.qos, true)]
    else []
  }

  ghost function Resumption(rows: Rows, scan: seq<RowId>, drops: set<RowId>): seq<Down>
  {
    if scan == [] then []
    else
      var id := scan[|scan| - 1];
      Resumption(rows, scan[..|scan| - 1], drops) + if id in rows then AnswerTo(id, rows[id], id in drops) else []
  }

  lemma ResumptionStep(rows: Rows, scan: seq<RowId>, i: nat, drops: set<RowId>)
    requires i < |scan| && scan[i] in rows
    ensures Resumption(rows, scan[..i + 1], drops)
         == Resumption(rows, scan[..i], drops) + AnswerTo(scan[i], rows[scan[i]], scan[i] in drops)
  {
    assert scan[..i + 1][..i] == scan[..i];
  }

  /** Nothing can go wrong: every row was sent before, and the socket takes every packet. */
  ghost predicate Smooth(table: Rows, scan: seq<RowId>, writes: seq<bool>) {
    && |writes| >= |scan|
    && forall i | 0 <= i < |scan| :: writes[i] && scan[i] in table && table[scan[i]].state > 0
  }

  /** The rows still to be resumed are as scanned. */
  ghost predicate Untouched(rows: Rows, table: Rows, scan: seq<RowId>, i: nat) {
    forall k | i <= k < |scan| :: scan[k] in rows && scan[k] in table && rows[scan[k]] == table[scan[k]]
  }

  lemma StillUntouched(before: Rows, rows: Rows, table: Rows, scan: seq<RowId>, i: nat)
    requires i < |scan| && Sorted(scan) && Untouched(before, table, scan, i)
    requires forall id | id != scan[i] && id in before :: id in rows && rows[id] == before[id]
    ensures Untouched(rows, table, scan, i + 1)
  {
    forall k | i < k < |scan| ensures scan[k] in rows && scan[k] in table && rows[scan[k]] == table[scan[k]] {
      assert scan[i] < scan[k];
    }
  }

  lemma ResumedMore(out: seq<Down>, more: seq<Down>, rows: Rows, scan: seq<RowId>, i: nat, drops: set<RowId>)
    requires i < |scan| && scan[i] in rows && Repeated(more) == AnswerTo(scan[i], rows[scan[i]], scan[i] in drops)
    requires Repeated(out) == Resumption(rows, scan[..i], drops)
    ensures Repeated(out + more) == Resumption(rows, scan[..i + 1], drops)
  {
    RepeatedAppend(out, more);
    ResumptionStep(rows, scan, i, drops);
  }

  /** The rows of the first-time PUBLISHes. */
  ghost function Firsts(ms: seq<Down>): seq<RowId> {
    if ms == [] then []
    else
      var m := ms[|ms| - 1];
      Firsts(ms[..|ms| - 1]) + if m.Publish? && !m.dup then [m.id] else []
  }

  lemma {:induction false} FirstsAppend(a: seq<Down>, b: seq<Down>)
    ensures Firsts(a + b) == Firsts(a) + Firsts(b)
  {
    if b == [] {
      assert a + b == a;
    } else {
      assert (a + b)[..|a + b| - 1] == a + b[..|b| - 1];
      FirstsAppend(a, b[..|b| - 1]);
    }
  }

  lemma OnePacket(m: Down)
    ensures Repeated([m]) == if m.Publish? && !m.dup then [] else [m]
    ensures Firsts([m]) == if m.Publish? && !m.dup then [m.id] else []
  {
    assert [m][..0] == [];
  }

  ghost predicate Scanned(scan: seq<RowId>, i: nat, id: RowId) {
    exists j :: 0 <= j < |scan| && j < i && scan[j] == id
  }

  /** The rows sent so far were queued, were among the first i scanned, and went out in order. */
  ghost predicate FirstsFrom(table: Rows, scan: seq<RowId>, i: nat, ids: seq<RowId>) {
    && Sorted(ids)
    && forall k | 0 <= k < |ids| :: ids[k] in table && table[ids[k]].state == 0 && Scanned(scan, i, ids[k])
  }

  lemma MoreFirsts(table: Rows, scan: seq<RowId>, i: nat, ids: seq<RowId>, more: seq<RowId>)
    requires Sorted(scan) && i < |scan| && FirstsFrom(table, scan, i, ids) && scan[i] in table
    requires more == [] || (more == [scan[i]] && table[scan[i]].state == 0)
    ensures FirstsFrom(table, scan, i + 1, ids + more)
  {
    assert forall k | 0 <= k < |ids| :: ids[k] < scan[i];
  }

  /** Each of the first i scanned rows that was queued and not dropped was sent, or no slot is left. */
  ghost predicate FirstsDone(table: Rows, scan: seq<RowId>, i: nat, drops: set<RowId>, ids: seq<RowId>, full: bool) {
    forall k | 0 <= k < |scan| && k < i && scan[k] in table && table[scan[k]].state == 0 && scan[k] !in drops ::
      scan[k] in ids || (table[scan[k]].qos > 0 && full)
  }

  lemma MoreDone(table: Rows, scan: seq<RowId>, i: nat, drops: set<RowId>, ids: seq<RowId>, more: seq<RowId>,
                 full: bool, full': bool)
    requires i < |scan| && FirstsDone(table, scan, i, drops, ids, full) && scan[i] in table && (full ==> full')
    requires table[scan[i]].state == 0 && scan[i] !in drops ==> more == [scan[i]] || (table[scan[i]].qos > 0 && full')
    ensures FirstsDone(table, scan, i + 1, drops, ids + more, full')
  {
  }

  /** What the first i rows of the scan have led to. */
  ghost predicate Progress(table: Rows, scan: seq<RowId>, i: nat, drops: set<RowId>, out: seq<Down>, full: bool) {
    && i <= |scan|
    && Repeated(out) == Resumption(table, scan[..i], drops)
    && FirstsFrom(table, scan, i, Firsts(out))
    && FirstsDone(table, scan, i, drops, Firsts(out), full)
  }

  lemma Progressed(table: Rows, scan: seq<RowId>, i: nat, drops: set<RowId>, out: seq<Down>, more: seq<Down>,
                   full: bool, full': bool, ok: bool)
    requires Sorted(scan) && i < |scan| && scan[i] in table && Progress(table, scan, i, drops, out, full)
    requires Firsts(more) == [] || (Firsts(more) == [scan[i]] && table[scan[i]].state == 0)
    requires ok ==> Repeated(more) == AnswerTo(scan[i], table[scan[i]], scan[i] in drops) && (full ==> full')
    requires ok && table[scan[i]].state == 0 && scan[i] !in drops ==>
      Firsts(more) == [scan[i]] || (table[scan[i]].qos > 0 && full')
    ensures FirstsFrom(table, scan, |scan|, Firsts(out + more))
    ensures ok ==> Progress(table, scan, i + 1, drops, out + more, full')
  {
    FirstsAppend(out, more);
    MoreFirsts(table, scan, i, Firsts(out), Firsts(more));
    if ok {
      ResumedMore(out, more, table, scan, i, drops);
      MoreDone(table, scan, i, drops, Firsts(out), Firsts(more), full, full');
    }
  }

  /** The packets that are not a first-time PUBLISH. */
  ghost function Repeated(ms: seq<Down>): seq<Down> {
    if ms == [] then []
    else
      var m := ms[|ms| - 1];
      Repeated(ms[..|ms| - 1]) + if m.Publish? && !m.dup then [] else [m]
  }

  lemma {:induction false} RepeatedAppend(a: seq<Down>, b: seq<Down>)
    ensures Repeated(a + b) == Repeated(a) + Repeated(b)
  {
    if b == [] {
      assert a + b == a;
    } else {
      assert (a + b)[..|a + b| - 1] == a + b[..|b| - 1];
      RepeatedAppend(a, b[..|b| - 1]);
    }
  }

  /** The leak of the retained replay has no bound: for every Receive Maximum and every n there is a
      Conn with n rows in flight, after n replays in which nothing failed and nothing was refused. */
  method RetainedOverruns(receiveMaximum: nat, n: nat) returns (c: Conn)
    ensures fresh(c) && c.cap == receiveMaximum && c.Valid() && |Flying(c.rows)| == n == |c.wire|
  {
    c := new Conn(receiveMaximum);
    for i := 0 to n
      invariant c.Valid() && c.used == 0 && c.Drift() == i == |c.wire|
      invariant forall id | id in c.rows :: id < i && (c.rows[id].pid.Some? ==> c.rows[id].pid.value < i)
    {
      var ok := c.Replay(i, 1, Some(i), true);
    }
  }

  ghost predicate Sorted(ids: seq<RowId>) { forall i, j | 0 <= i < j < |ids| :: ids[i] < ids[j] }

  /** From q0, exactly ids were taken, lowest first; q is left. */
  ghost predicate InOrder(q0: set<RowId>, q: set<RowId>, ids: seq<RowId>) {
    && Sorted(ids)
    && Elems(ids) <= q0
    && q == q0 - Elems(ids)
    && (forall i, j | i in ids && j in q :: i < j)
  }

  lemma InOrderStep(q0: set<RowId>, q: set<RowId>, ids: seq<RowId>, id: RowId)
    requires InOrder(q0, q, ids) && Least(id, q)
    ensures InOrder(q0, q - {id}, ids + [id]) && Elems(ids + [id]) <= q0
  {
    assert forall k | 0 <= k < |ids| :: ids[k] in ids;
    assert Elems(ids + [id]) == Elems(ids) + {id};
  }

  /** `after` is `before` followed by one first-time PUBLISH of each row of ids, in that order, under
      the identifiers that were allocated, in theirs. */
  ghost predicate SentInOrder(after: seq<Down>, before: seq<Down>, ids: seq<RowId>, allocs: seq<Option<Pid>>) {
    && |after| == |before| + |ids|
    && before <= after
    && |ids| <= |allocs|
    && forall k | 0 <= k < |ids| :: FirstPublish(after[|before| + k], ids[k], allocs[k])
  }

  ghost predicate FirstPublish(m: Down, id: RowId, alloc: Option<Pid>) {
    m.Publish? && m.id == id && !m.dup && alloc == Some(m.pid)
  }

  lemma SentStep(after: seq<Down>, middle: seq<Down>, before: seq<Down>, ids: seq<RowId>, id: RowId,
                 allocs: seq<Option<Pid>>)
    requires |ids| < |allocs| && SentInOrder(middle, before, ids, allocs)
    requires SentInOrder(after, middle, [id], [allocs[|ids|]])
    ensures SentInOrder(after, before, ids + [id], allocs)
  {
    assert FirstPublish(after[|middle| + 0], [id][0], [allocs[|ids|]][0]);
  }
}
