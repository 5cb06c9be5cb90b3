/** Inbound PUBLISH handling: the v5 receive window with its deferred release, and the QoS-2
    dedup row that is inserted in the same transaction as the message.  Between two packets anybody
    else may insert or delete the client's inbound_qos2 rows: handlers of earlier sockets, a late
    clean-up, the sweep; they may also delete the row that a DUP probe has just seen. */
module Inbound {
  import opened Prelude

  type Pid = int
  type Msg = int

  /** A PUBLISH, reduced to what handlePublish branches on. */
  datatype Packet = Packet(
    qos: int, pid: Pid, dup: bool, msg: Msg, topicOk: bool, hasSubId: bool, hasAlias: bool, propsOk: bool)

  datatype Reply = Nothing | Puback | Pubrec | Disconnect(reason: int) | Failed

  /** Conversion of an int32 to uint16. */
  function U16(x: int): nat { x % 65536 }

  /** The window test on the counter after the increment. */
  predicate Exceeds(current: int, max: int) { U16(current) > max }

  /** A packet, or a row that somebody else inserts or deletes. */
  datatype Event =
    | Publish(pk: Packet, probeFails: bool, swept: bool, txFails: bool)
    | Pubrel(pid: Pid)
    | ForeignInsert(pid: Pid)
    | ForeignDelete(pid: Pid)

  /** The DUP probe finds the row: the packet is not counted. */
  predicate Known(pk: Packet, probeFails: bool, dedup: set<Pid>) {
    pk.qos == 2 && pk.dup && !probeFails && pk.pid in dedup
  }

  /** The receive window lets the packet through. */
  predicate InWindow(v5: bool, max: int, inflight: int, dedup: set<Pid>, pk: Packet, probeFails: bool) {
    pk.qos > 0 && v5 && !Known(pk, probeFails, dedup) ==> !Exceeds(inflight + 1, max)
  }

  /** Nothing is wrong with the packet itself. */
  predicate Admits(v5: bool, max: int, inflight: int, dedup: set<Pid>, pk: Packet, probeFails: bool) {
    && pk.topicOk && pk.propsOk && (v5 ==> !pk.hasSubId && !pk.hasAlias)
    && InWindow(v5, max, inflight, dedup, pk, probeFails)
  }

  /** The rows after a transaction that finds its row swept away, or not, and stores it, or not. */
  function Stored(rows: set<Pid>, pid: Pid, swept: bool, stays: bool): set<Pid> {
    (if swept then rows - {pid} else rows) + (if stays then {pid} else {})
  }

  class Conn {
    const v5: bool
    const receiveMaximum: int
    var inflight: int
    var dedup: set<Pid>
    var inserted: seq<Msg>

    constructor (v5: bool, receiveMaximum: int, rows: set<Pid>)
      ensures this.v5 == v5 && this.receiveMaximum == receiveMaximum && inflight == 0 && dedup == rows && inserted == []
    {
      this.v5, this.receiveMaximum := v5, receiveMaximum;
      inflight, dedup, inserted := 0, rows, [];
    }

    /** The counter is ahead of the table by the same amount before and after. */
    ghost function Drift(): int reads this { inflight - |dedup| }

    /** Somebody else inserts or deletes a row; `net` is by how much the table grew. */
    method Foreign(pid: Pid, insert: bool) returns (net: int)
      modifies this`dedup
      ensures dedup == (if insert then old(dedup) + {pid} else old(dedup) - {pid})
      ensures net == |dedup| - |old(dedup)| && -1 <= net <= 1
    {
      net := if insert && pid !in dedup then 1 else if !insert && pid in dedup then -1 else 0;
      dedup := if insert then dedup + {pid} else dedup - {pid};
    }

    /** publishCore: dedup row and message in one transaction, or neither. */
    method PublishCore(pk: Packet, txFails: bool) returns (ok: bool, duplicate: bool)
      modifies this`dedup, this`inserted
      ensures duplicate <==> pk.qos == 2 && pk.pid in old(dedup)
      ensures ok <==> !duplicate && !txFails
      ensures inserted == if ok then old(inserted) + [pk.msg] else old(inserted)
      ensures dedup == if ok && pk.qos == 2 then old(dedup) + {pk.pid} else old(dedup)
    {
      var rows, log := dedup, inserted;
      ok, duplicate := false, false;
      if pk.qos == 2 {
        if pk.pid in dedup { duplicate := true; return; }
        dedup := dedup + {pk.pid};
      }
      inserted := inserted + [pk.msg];
      if txFails {
        dedup, inserted := rows, log;
        return;
      }
      ok := true;
    }

    /** The transaction of handlePublish and the reply; `stays` keeps the slot past this packet. */
    method Store(pk: Packet, counted: bool, swept: bool, txFails: bool)
      returns (r: Reply, stored: bool, stays: bool, net: int)
      modifies this`dedup, this`inserted
      ensures stored <==> !txFails && (pk.qos == 2 ==> swept || pk.pid !in old(dedup))
      ensures stays <==> stored && pk.qos == 2
      ensures |dedup| == |old(dedup)| + net + (if stays && counted then 1 else 0)
      ensures net == (if stays && !counted then 1 else 0) - (if swept && pk.pid in old(dedup) then 1 else 0)
      ensures inserted == if stored then old(inserted) + [pk.msg] else old(inserted)
      ensures dedup == Stored(old(dedup), pk.pid, swept, stays) && (!swept && !stays ==> dedup == old(dedup))
      ensures r == Disconnect(0x88) <==> v5 && txFails && !(pk.qos == 2 && !swept && pk.pid in old(dedup))
      ensures r.Disconnect? ==> r.reason == 0x88
      ensures r == Puback <==> pk.qos == 1 && stored
      ensures r == Nothing <==> pk.qos == 0 && stored
      ensures r == Pubrec <==> pk.qos == 2 && pk.pid in dedup
    {
      net := 0;
      if swept { net := Foreign(pk.pid, false); }
      var ok, duplicate := PublishCore(pk, txFails);
      stored, stays := ok, ok && pk.qos == 2;
      if stays && !counted { net := net + 1; }
      if duplicate { r := Pubrec; }
      else if !ok { r := if v5 then Disconnect(0x88) else Failed; }
      else if pk.qos == 0 { r := Nothing; }
      else if pk.qos == 1 { r := Puback; }
      else if pk.qos == 2 { r := Pubrec; }
      else { r := Failed; }
    }

    /** What handlePublish checks before the transaction: the topic, the window, the properties a
        client must not send.  A refused packet gives its slot back (the deferred release). */
    method Gate(pk: Packet, probeFails: bool) returns (refusal: Option<Reply>, slot: bool)
      modifies this`inflight
      ensures refusal.None? <==> Admits(v5, receiveMaximum, old(inflight), dedup, pk, probeFails)
      ensures refusal == Some(Disconnect(0x93)) <==>
        pk.topicOk && !InWindow(v5, receiveMaximum, old(inflight), dedup, pk, probeFails)
      ensures refusal == Some(Disconnect(0x82)) <==>
        pk.topicOk && InWindow(v5, receiveMaximum, old(inflight), dedup, pk, probeFails) && v5 && pk.hasSubId
      ensures refusal == Some(Disconnect(0x94)) <==>
        && pk.topicOk && InWindow(v5, receiveMaximum, old(inflight), dedup, pk, probeFails)
        && v5 && !pk.hasSubId && pk.hasAlias
      ensures refusal.Some? && refusal.value != Failed ==>
        refusal.value.Disconnect? && refusal.value.reason in {0x93, 0x82, 0x94}
      ensures slot <==> refusal.None? && pk.qos > 0 && v5 && !Known(pk, probeFails, dedup)
      ensures inflight == old(inflight) + if slot then 1 else 0
    {
      refusal, slot := None, false;
      if !pk.topicOk { return Some(Failed), slot; }
      if pk.qos > 0 && v5 && !Known(pk, probeFails, dedup) {
        inflight := inflight + 1;
        slot := true;
        if Exceeds(inflight, receiveMaximum) { refusal := Some(Disconnect(0x93)); }
      }
      if refusal.None? {
        if v5 && pk.hasSubId { refusal := Some(Disconnect(0x82)); }
        else if v5 && pk.hasAlias { refusal := Some(Disconnect(0x94)); }
        else if !pk.propsOk { refusal := Some(Failed); }
      }
      if refusal.Some? && slot {
        inflight := inflight - 1;
        slot := false;
      }
    }

    /** handlePublish, with its deferred release as an explicit flag.  `swept` says that somebody else
        deletes the row of this identifier between the DUP probe and the transaction.  `net` is by how
        much the table grew without the counter: minus one for the swept row, plus one for a row that
        the probe made this Conn insert without counting it. */
    method HandlePublish(pk: Packet, probeFails: bool, swept: bool, txFails: bool)
      returns (r: Reply, stored: bool, net: int)
      modifies this
      ensures v5 ==> Drift() == old(Drift()) - net
      ensures !swept || pk.pid !in old(dedup) ==> net == 0
      // what is stored
      ensures stored <==>
        && Admits(v5, receiveMaximum, old(inflight), old(dedup), pk, probeFails) && !txFails
        && (pk.qos == 2 ==> swept || pk.pid !in old(dedup))
      ensures inserted == if stored then old(inserted) + [pk.msg] else old(inserted)
      ensures stored && pk.qos == 2 ==> dedup == old(dedup) + {pk.pid}
      ensures !(stored && pk.qos == 2) ==> dedup == old(dedup) || (swept && dedup == old(dedup) - {pk.pid})
      // what is answered: an acknowledgement means that the message is stored
      ensures r == Puback <==> pk.qos == 1 && stored
      ensures r == Nothing <==> pk.qos == 0 && stored
      ensures r == Pubrec <==>
        && pk.qos == 2 && Admits(v5, receiveMaximum, old(inflight), old(dedup), pk, probeFails)
        && (stored || (!swept && pk.pid in old(dedup)))
      ensures r == Pubrec ==> pk.pid in dedup
      // what is refused
      ensures r == Disconnect(0x93) <==>
        && pk.topicOk && pk.qos > 0 && v5 && Exceeds(old(inflight) + 1, receiveMaximum)
        && !(pk.qos == 2 && pk.dup && !probeFails && pk.pid in old(dedup))
      ensures r == Disconnect(0x82) || r == Disconnect(0x94) ==>
        && pk.topicOk && v5 && (r == Disconnect(0x82) <==> pk.hasSubId) && (pk.hasSubId || pk.hasAlias)
        && InWindow(v5, receiveMaximum, old(inflight), old(dedup), pk, probeFails)
      ensures r == Disconnect(0x88) <==>
        && v5 && txFails && Admits(v5, receiveMaximum, old(inflight), old(dedup), pk, probeFails)
        && !(pk.qos == 2 && !swept && pk.pid in old(dedup))
      ensures inflight == old(inflight) || (inflight == old(inflight) + 1 && !Exceeds(inflight, receiveMaximum))
    {
      var refusal, slot := Gate(pk, probeFails);
      if refusal.Some? { return refusal.value, false, 0; }
      var stays;
      r, stored, stays, net := Store(pk, slot || !v5, swept, txFails);
      if slot && !stays { inflight := inflight - 1; }
    }

    /** handlePubrel: the slot goes with the dedup row, and only with it. */
    method HandlePubrel(pid: Pid) returns (found: bool)
      modifies this
      ensures Drift() == old(Drift()) && inserted == old(inserted)
      ensures found <==> pid in old(dedup)
      ensures dedup == old(dedup) - {pid}
    {
      found := pid in dedup;
      if found {
        dedup := dedup - {pid};
        inflight := inflight - 1;
      }
    }

    /** A v5 Conn serving any packets among any foreign writes: at the end, as at every packet
        boundary, the counter is the number of dedup rows minus the number at CONNECT minus the net
        number of rows that others, or an outdated probe, put there.  After a clean start, and with no
        foreign write, it stays within the window.  `acked` lists the messages answered with a PUBACK,
        or with a PUBREC that is not a repeat: they are, in order, the messages of QoS 1 and 2 that
        were inserted. */
    method Serve(events: seq<Event>) returns (net: int, acked: seq<Msg>)
      requires v5
      modifies this
      ensures inflight == |dedup| + old(Drift()) - net
      ensures Undisturbed(events) ==> net == 0
      ensures Undisturbed(events) && old(inflight) == |old(dedup)| <= receiveMaximum < 65535 ==>
        0 <= inflight <= receiveMaximum
      ensures old(inserted) <= inserted && forall m | m in acked :: m in inserted[|old(inserted)|..]
      ensures (forall i | 0 <= i < |events| && events[i].Publish? :: 1 <= events[i].pk.qos <= 2) ==>
        acked == inserted[|old(inserted)|..]
    {
      net, acked := 0, [];
      ghost var tracked := forall i | 0 <= i < |events| && events[i].Publish? :: 1 <= events[i].pk.qos <= 2;
      for i := 0 to |events|
        invariant Drift() == old(Drift()) - net && (Undisturbed(events) ==> net == 0)
        invariant Undisturbed(events) && old(inflight) == |old(dedup)| <= receiveMaximum < 65535 ==>
          inflight == |dedup| <= receiveMaximum
        invariant old(inserted) <= inserted && forall m | m in acked :: m in inserted[|old(inserted)|..]
        invariant tracked ==> acked == inserted[|old(inserted)|..]
      {
        ghost var log := inserted;
        var n, ack := Turn(events[i]);
        net, acked := net + n, acked + ack;
        assert inserted[|old(inserted)|..] == log[|old(inserted)|..] + inserted[|log|..];
      }
    }

    method Turn(e: Event) returns (net: int, acked: seq<Msg>)
      requires v5
      modifies this
      ensures Drift() == old(Drift()) - net
      ensures !Foreigner(e) ==> net == 0
      ensures !Foreigner(e) && old(inflight) == |old(dedup)| <= receiveMaximum < 65535 ==>
        inflight == |dedup| <= receiveMaximum
      ensures old(inserted) <= inserted
      ensures acked == if e.Publish? && 1 <= e.pk.qos <= 2 then inserted[|old(inserted)|..] else []
      ensures e.Publish? || inserted == old(inserted)
      ensures e.ForeignInsert? ==> dedup == old(dedup) + {e.pid}
      ensures e.ForeignDelete? || e.Pubrel? ==> dedup == old(dedup) - {e.pid}
    {
      net, acked := 0, [];
      match e
      case Publish(pk, probeFails, swept, txFails) =>
        var repeated := pk.qos == 2 && pk.pid in dedup && !swept;
        var r, stored;
        r, stored, net := HandlePublish(pk, probeFails, swept, txFails);
        if r == Puback || (r == Pubrec && !repeated) { acked := [pk.msg]; }
      case Pubrel(pid) => var _ := HandlePubrel(pid);
      case ForeignInsert(pid) => net := Foreign(pid, true);
      case ForeignDelete(pid) => net := Foreign(pid, false);
    }
  }

  /** Somebody else writes the table. */
  predicate Foreigner(e: Event) { e.ForeignInsert? || e.ForeignDelete? || (e.Publish? && e.swept) }

  predicate Undisturbed(events: seq<Event>) { forall i | 0 <= i < |events| :: !Foreigner(events[i]) }

  /** The window test misfires.  With `rows` dedup rows now, `base` of them at CONNECT or put there by
      others since (net, so possibly negative), the counter is rows - base, and a PUBLISH within the
      window is refused if and only if others have deleted so many rows that the counter runs ahead,
      or at least two of the rows that are not this Conn's own have been released with nothing in
      their place, and not so many that the uint16 falls back into the window. */
  lemma SpuriousRefusal(rows: nat, base: int, max: int)
    requires rows + 1 <= max < 65535 && -65536 < rows + 1 - base < 65536
    ensures Exceeds(rows - base + 1, max) <==>
      rows + 1 - base > max || (rows + 1 < base && base - rows < 65537 - max)
  {
    if rows + 1 >= base {
      assert U16(rows - base + 1) == rows - base + 1;
    } else {
      assert U16(rows - base + 1) == rows - base + 1 + 65536;
    }
  }

  /** It happens: on every session resumed with two dedup rows, once both are released, the next
      QoS>0 PUBLISH is refused although nothing is in flight. */
  method ResumedRefusal(receiveMaximum: int, a: Pid, b: Pid, pk: Packet) returns (r: Reply)
    requires 0 < receiveMaximum < 65535 && a != b && pk.topicOk && pk.qos > 0
    ensures r == Disconnect(0x93)
  {
    var c := new Conn(true, receiveMaximum, {a, b});
    var first := c.HandlePubrel(a);
    var second := c.HandlePubrel(b);
    assert c.dedup == {} && c.inflight == -2;
    var stored, net;
    r, stored, net := c.HandlePublish(pk, false, false, false);
  }
}
