/** The pipelined soak publisher: the `outstanding` map, the replay queue and the packet-id
    counter, driven by an arbitrary schedule of sends, in-order PUBACKs and lost connections. */
module Soak {
  import opened Prelude

  /** One turn: the writer sends, the broker acknowledges its oldest PUBLISH, or the connection
      dies.  A write that fails is a Send after which only Puback and Lose follow. */
  datatype Event = Send | Puback | Lose

  /** A PUBLISH under way: its packet id and its sequence number. */
  datatype Flight = Flight(pid: int, no: int)

  /** The id of the k-th PUBLISH overall: the uint16 counter cycles through 1..65535. */
  function Id(k: int): int { (k - 1) % 65535 + 1 }

  /** pid++, skipping 0. */
  function NextPid(pid: int): int {
    var p := (pid + 1) % 65536;
    if p == 0 then 1 else p
  }

  lemma NextIsId(k: nat)
    ensures NextPid(if k == 0 then 0 else Id(k)) == Id(k + 1)
  {
    if k > 0 {
      var q, r := (k - 1) / 65535, (k - 1) % 65535;
      assert k - 1 == 65535 * q + r;
      if r == 65534 {
        assert k == 65535 * (q + 1);
        assert k % 65535 == 0;
      } else {
        assert k == 65535 * q + (r + 1);
        assert k % 65535 == r + 1;
      }
    }
  }

  lemma IdsDistinct(a: int, b: int)
    requires a < b < a + 65535
    ensures Id(a) != Id(b)
  {
    var d := (b - 1) / 65535 - (a - 1) / 65535;
    assert (b - 1) - (a - 1) == 65535 * d + ((b - 1) % 65535 - (a - 1) % 65535);
  }

  ghost function Numbers(q: seq<Flight>): seq<int> { seq(|q|, i requires 0 <= i < |q| => q[i].no) }

  /** The map holds exactly the flights of q. */
  ghost predicate Holds(m: map<int, int>, q: seq<Flight>) {
    && (forall i | 0 <= i < |q| :: q[i].pid in m && m[q[i].pid] == q[i].no)
    && (forall p | p in m :: exists i :: 0 <= i < |q| && q[i].pid == p)
    && (forall i, j | 0 <= i < j < |q| :: q[i].pid != q[j].pid)
  }

  /** q is the tail of the id cycle after `total` sends. */
  ghost predicate Cyclic(q: seq<Flight>, total: nat) {
    |q| <= total && forall i | 0 <= i < |q| :: q[i].pid == Id(total - |q| + 1 + i)
  }

  /** The sequence numbers issued so far, each once. */
  ghost function Upto(n: nat): multiset<int> { multiset(seq(n, i => i)) }

  /** Every number below n is in exactly one of the three places, once. */
  ghost predicate Conserved(acked: multiset<int>, q: seq<Flight>, rest: seq<int>, n: nat) {
    acked + multiset(Numbers(q)) + multiset(rest) == Upto(n)
  }

  lemma UptoNext(n: nat)
    ensures Upto(n + 1) == Upto(n) + multiset{n}
  {
    assert seq(n + 1, i => i) == seq(n, i => i) + [n];
  }

  lemma HoldsSend(m: map<int, int>, q: seq<Flight>, f: Flight, total: nat)
    requires Holds(m, q) && Cyclic(q, total) && |q| < 65535 && f.pid == Id(total + 1)
    ensures Holds(m[f.pid := f.no], q + [f]) && Cyclic(q + [f], total + 1)
  {
    forall i | 0 <= i < |q| ensures q[i].pid != f.pid { IdsDistinct(total - |q| + 1 + i, total + 1); }
    var q' := q + [f];
    assert forall i | 0 <= i < |q| :: q'[i] == q[i];
    assert q'[|q|].pid == f.pid;
    var m' := m[f.pid := f.no];
    forall p | p in m' ensures exists i :: 0 <= i < |q'| && q'[i].pid == p {
      if p in m { var i :| 0 <= i < |q| && q[i].pid == p; assert q'[i].pid == p; }
    }
  }

  ghost function Without(q: seq<Flight>, i: nat): seq<Flight>
    requires i < |q|
  {
    q[..i] + q[i + 1..]
  }

  lemma HoldsWithout(m: map<int, int>, q: seq<Flight>, i: nat)
    requires Holds(m, q) && i < |q|
    ensures Holds(m - {q[i].pid}, Without(q, i))
  {
    var q' := Without(q, i);
    assert forall j | 0 <= j < |q'| :: q'[j] == q[if j < i then j else j + 1];
    forall p | p in m - {q[i].pid} ensures exists j :: 0 <= j < |q'| && q'[j].pid == p {
      var j :| 0 <= j < |q| && q[j].pid == p;
      assert q'[if j < i then j else j - 1].pid == p;
    }
  }

  lemma CyclicTail(q: seq<Flight>, total: nat)
    requires Cyclic(q, total) && q != []
    ensures Cyclic(q[1..], total)
  {
    forall i | 0 <= i < |q| - 1 ensures q[1..][i].pid == Id(total - (|q| - 1) + 1 + i) {
      assert q[1..][i] == q[i + 1];
      assert q[i + 1].pid == Id(total - |q| + 1 + (i + 1));
    }
  }

  /** The map, the wire and the id counter agree after `total` sends. */
  ghost predicate Tracked(m: map<int, int>, q: seq<Flight>, pid: nat, total: nat) {
    && pid == (if total == 0 then 0 else Id(total))
    && Holds(m, q)
    && Cyclic(q, total)
  }

  lemma TrackedSend(m: map<int, int>, q: seq<Flight>, f: Flight, pid: nat, total: nat)
    requires Tracked(m, q, pid, total) && |q| < 65535 && f.pid == NextPid(pid)
    ensures Tracked(m[f.pid := f.no], q + [f], f.pid, total + 1)
  {
    NextIsId(total);
    HoldsSend(m, q, f, total);
  }

  lemma TrackedAck(m: map<int, int>, q: seq<Flight>, pid: nat, total: nat)
    requires Tracked(m, q, pid, total) && q != []
    ensures q[0].pid in m && m[q[0].pid] == q[0].no
    ensures Tracked(m - {q[0].pid}, q[1..], pid, total)
  {
    HoldsWithout(m, q, 0);
    assert Without(q, 0) == q[1..];
    CyclicTail(q, total);
  }

  lemma NumbersAppend(q: seq<Flight>, f: Flight)
    ensures Numbers(q + [f]) == Numbers(q) + [f.no]
  {
  }

  lemma NumbersSplit(q: seq<Flight>, i: nat)
    requires i < |q|
    ensures multiset(Numbers(q)) == multiset(Numbers(q[..i] + q[i + 1..])) + multiset{q[i].no}
  {
    var a, b := Numbers(q[..i]), Numbers(q[i + 1..]);
    assert Numbers(q) == a + ([q[i].no] + b);
    assert Numbers(q[..i] + q[i + 1..]) == a + b;
  }

  lemma ConservedAck(acked: multiset<int>, q: seq<Flight>, rest: seq<int>, n: nat)
    requires Conserved(acked, q, rest, n) && q != []
    ensures Conserved(acked + multiset{q[0].no}, q[1..], rest, n)
  {
    NumbersSplit(q, 0);
    assert q[..0] + q[1..] == q[1..];
  }

  lemma ConservedSend(acked: multiset<int>, q: seq<Flight>, rest: seq<int>, n: nat, f: Flight, rest': seq<int>, n': nat)
    requires Conserved(acked, q, rest, n)
    requires rest != [] ==> f.no == rest[0] && rest' == rest[1..] && n' == n
    requires rest == [] ==> f.no == n && rest' == [] && n' == n + 1
    ensures Conserved(acked, q + [f], rest', n')
  {
    NumbersAppend(q, f);
    if rest != [] { assert rest == [rest[0]] + rest[1..]; } else { UptoNext(n); }
  }

  lemma ConservedLose(acked: multiset<int>, q: seq<Flight>, rest: seq<int>, n: nat, next: seq<int>)
    requires Conserved(acked, q, rest, n) && multiset(next) == multiset(Numbers(q))
    ensures Conserved(acked, [], next + rest, n)
  {
    assert Numbers([]) == [];
  }

  method Pick(s: set<int>) returns (p: int)
    requires s != {}
    ensures p in s
  {
    if forall x :: x !in s { assert false; }
    p :| p in s;
  }

  /** Collects the numbers of a map in whatever order the iteration yields. */
  method Collect(outstanding: map<int, int>, ghost q: seq<Flight>) returns (next: seq<int>)
    requires Holds(outstanding, q)
    ensures multiset(next) == multiset(Numbers(q))
  {
    next := [];
    var left := outstanding.Keys;
    ghost var open, m := q, outstanding;
    while left != {}
      invariant left == m.Keys && Holds(m, open) && left <= outstanding.Keys
      invariant forall p | p in left :: m[p] == outstanding[p]
      invariant multiset(next) + multiset(Numbers(open)) == multiset(Numbers(q))
      decreases |open|
    {
      var p := Pick(left);
      ghost var i :| 0 <= i < |open| && open[i].pid == p;
      NumbersSplit(open, i);
      HoldsWithout(m, open, i);
      next := next + [outstanding[p]];
      left := left - {p};
      m, open := m - {p}, Without(open, i);
    }
    assert open == [];
  }

  /** runPublisherPipelined's variables.  `wire` is the broker's side of the connection: the
      PUBLISHes it has not acknowledged, oldest first; `acked` lists the acknowledged numbers and
      `total` counts the PUBLISHes ever sent. */
  class Publisher {
    const inflight: nat
    var issued: nat
    var pid: nat
    var replay: seq<int>
    var replayIdx: nat
    var outstanding: map<int, int>
    var slots: nat
    var wire: seq<Flight>
    ghost var acked: multiset<int>
    ghost var total: nat

    ghost predicate Valid() reads this {
      && 1 <= inflight <= 65535
      && replayIdx <= |replay|
      && slots == |wire| <= inflight
      && Tracked(outstanding, wire, pid, total)
      && Conserved(acked, wire, Rest(), issued)
    }

    /** The part of the replay queue not consumed yet. */
    ghost function Rest(): seq<int> reads this {
      if replayIdx <= |replay| then replay[replayIdx..] else []
    }

    constructor (window: nat)
      requires 1 <= window <= 65535
      ensures Valid() && inflight == window && issued == 0 && acked == multiset{}
    {
      inflight := window;
      issued, pid, replay, replayIdx, outstanding, slots, wire := 0, 0, [], 0, map[], 0, [];
      acked, total := multiset{}, 0;
    }

    /** The number to send: the next one to be replayed, or else a new one. */
    method NextNumber() returns (no: int)
      requires replayIdx <= |replay|
      modifies this`replayIdx, this`issued
      ensures replayIdx <= |replay|
      ensures old(Rest()) != [] ==> no == old(Rest())[0] && Rest() == old(Rest())[1..] && issued == old(issued)
      ensures old(Rest()) == [] ==> no == old(issued) && Rest() == [] && issued == old(issued) + 1
    {
      if replayIdx < |replay| {
        no, replayIdx := replay[replayIdx], replayIdx + 1;
      } else {
        no, issued := issued, issued + 1;
      }
    }

    /** Registers the number under the next packet id and writes the PUBLISH. */
    method Track(no: int)
      requires Tracked(outstanding, wire, pid, total) && |wire| < 65535
      modifies this`pid, this`outstanding, this`wire, this`slots, this`total
      ensures Tracked(outstanding, wire, pid, total)
      ensures wire == old(wire) + [Flight(NextPid(old(pid)), no)]
      ensures slots == old(slots) + 1 && total == old(total) + 1
    {
      TrackedSend(outstanding, wire, Flight(NextPid(pid), no), pid, total);
      pid := NextPid(pid);
      outstanding, wire, slots := outstanding[pid := no], wire + [Flight(pid, no)], slots + 1;
      total := total + 1;
    }

    /** The writer's turn: nothing without a free slot, else one PUBLISH under the next id. */
    method Send()
      requires Valid()
      modifies this`replayIdx, this`issued, this`pid, this`outstanding, this`wire, this`slots, this`total
      ensures Valid()
      ensures old(slots) == inflight ==> wire == old(wire) && issued == old(issued) && Rest() == old(Rest())
      ensures old(slots) < inflight ==> wire != [] && wire[..|wire| - 1] == old(wire)
      ensures old(slots) < inflight && old(Rest()) == [] ==> issued == old(issued) + 1
      ensures old(slots) < inflight && old(Rest()) != [] ==> issued == old(issued) && Rest() == old(Rest())[1..]
    {
      if slots == inflight { return; }
      ghost var rest, n := Rest(), issued;
      var no := NextNumber();
      ConservedSend(acked, wire, rest, n, Flight(NextPid(pid), no), Rest(), issued);
      Track(no);
    }

    /** The reader: the broker acknowledges its oldest PUBLISH. */
    method Puback()
      requires Valid()
      modifies this`acked, this`outstanding, this`wire, this`slots
      ensures Valid()
      ensures old(wire) == [] ==> wire == [] && acked == old(acked)
      ensures old(wire) != [] ==> acked == old(acked) + multiset{old(wire)[0].no} && wire == old(wire)[1..]
    {
      if wire == [] { return; }
      var id := wire[0].pid;
      TrackedAck(outstanding, wire, pid, total);
      ConservedAck(acked, wire, Rest(), issued);
      acked := acked + multiset{outstanding[id]};
      outstanding, wire, slots := outstanding - {id}, wire[1..], slots - 1;
    }

    /** The connection dies: whatever is outstanding goes to the head of the replay queue. */
    method Lose()
      requires Valid()
      modifies this`replay, this`replayIdx, this`outstanding, this`wire, this`slots
      ensures Valid() && wire == []
      ensures multiset(Rest()) == multiset(Numbers(old(wire))) + multiset(old(Rest()))
    {
      var next := Collect(outstanding, wire);
      ConservedLose(acked, wire, Rest(), issued, next);
      replay, replayIdx := next + replay[replayIdx..], 0;
      outstanding, wire, slots := map[], [], 0;
      assert Rest() == replay;
    }

    /** Over every schedule: the numbers issued so far are split exactly between acknowledged,
        outstanding and still to be replayed; when the last two are empty every number was
        acknowledged, exactly once. */
    method Run(events: seq<Event>)
      requires Valid()
      modifies this
      ensures Valid()
      ensures Conserved(acked, wire, Rest(), issued)
      ensures outstanding == map[] && Rest() == [] ==> acked == Upto(issued)
    {
      for e := 0 to |events|
        invariant Valid()
      {
        match events[e]
        case Send => Send();
        case Puback => Puback();
        case Lose => Lose();
      }
      assert outstanding == map[] ==> wire == [] by { if wire != [] { assert wire[0].pid in outstanding; } }
      assert Numbers([]) == [];
    }
  }

  /** The window must fit the id space: one more PUBLISH on top of 65535 outstanding ones takes
      the id of the oldest, whose number is then nowhere. */
  lemma WindowMustFit(m: map<int, int>, q: seq<Flight>, total: nat, no: int)
    requires Holds(m, q) && Cyclic(q, total) && |q| == 65535 && no != q[0].no
    ensures Id(total + 1) == q[0].pid && m[Id(total + 1) := no][q[0].pid] != q[0].no
  {
    assert q[0].pid == Id(total - 65534);
    var k := total - 65534;
    assert (k - 1 + 65535) % 65535 == (k - 1) % 65535;
  }
}
