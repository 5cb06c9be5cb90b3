/** mqtt_publish: matching with DISTINCT ON, QoS downgrade, no-local, the per-client cap and
    the routing targets, in the three revisions that matter: 0005 counts every row of the
    client, 0014 short-circuits at the cap, 0018 exempts QoS 0 and routes on broker_id alone. */
module Fanout {
  import opened Prelude
  import Topics
  import O = Ownership

  type Client = O.Client
  type Pod = O.Pod

  datatype Revision = R0005 | R0014 | R0018

  type QoS = q: int | 0 <= q <= 2

  datatype Sub = Sub(client: Client, filter: Topics.Bytes, qos: QoS, noLocal: bool)
  datatype Delivery = Delivery(client: Client, message: int, qos: QoS, state: int)

  function Min(a: QoS, b: QoS): QoS { if a < b then a else b }

  // ---- the matches CTE --------------------------------------------------------------------

  /** The WHERE clause of the matches CTE. */
  predicate Candidate(sub: Sub, sessions: O.Sessions, topic: Topics.Bytes, publisher: Option<Client>) {
    sub.client in sessions && Topics.Section47(sub.filter, topic) && !(sub.noLocal && publisher == Some(sub.client))
  }

  /** ORDER BY client_id, qos DESC. */
  predicate Ordered(rows: seq<Sub>) {
    forall i, j | 0 <= i < j < |rows| :: Before(rows[i], rows[j])
  }

  predicate Before(a: Sub, b: Sub) { a.client < b.client || (a.client == b.client && a.qos >= b.qos) }

  /** Puts a row into its place. */
  lemma {:induction false} InsertOrdered(rows: seq<Sub>, sub: Sub) returns (more: seq<Sub>)
    requires Ordered(rows)
    ensures Ordered(more) && forall x :: x in more <==> x in rows || x == sub
    decreases |rows|
  {
    if rows == [] || Before(sub, rows[0]) {
      more := [sub] + rows;
      assert forall i | 0 < i < |rows| :: Before(rows[0], rows[i]);
    } else {
      assert rows[0] in rows && forall i | 0 < i < |rows| :: Before(rows[0], rows[i]);
      var rest := InsertOrdered(rows[1..], sub);
      more := [rows[0]] + rest;
      assert rows == [rows[0]] + rows[1..];
      forall i | 0 <= i < |rest| ensures Before(rows[0], rest[i]) {
        assert rest[i] in rest;
        if rest[i] != sub { assert rest[i] in rows[1..]; }
      }
    }
  }

  /** Every result of the join has such an order. */
  lemma {:induction false} OrderExists(subs: set<Sub>) returns (rows: seq<Sub>)
    ensures Ordered(rows) && forall sub :: sub in rows <==> sub in subs
    decreases |subs|
  {
    if subs == {} {
      rows := [];
    } else {
      if forall sub :: sub !in subs { assert false; }
      var sub :| sub in subs;
      var rest := OrderExists(subs - {sub});
      rows := InsertOrdered(rest, sub);
    }
  }

  /** The client has a row of QoS x or more. */
  ghost predicate Offers(rows: seq<Sub>, c: Client, x: QoS) {
    exists i :: 0 <= i < |rows| && rows[i].client == c && x <= rows[i].qos
  }

  /** q is the greatest QoS that neither the publisher nor every row of the client falls short of. */
  ghost predicate DeliverQos(rows: seq<Sub>, c: Client, qos: QoS, q: QoS) {
    q <= qos && Offers(rows, c, q) && forall x: QoS | x <= qos && Offers(rows, c, x) :: x <= q
  }

  /** SELECT DISTINCT ON (client_id): the first row of each client survives, so each client is
      matched once, at its highest subscription QoS capped by the publish QoS. */
  method DistinctOn(rows: seq<Sub>, qos: QoS) returns (m: map<Client, QoS>)
    requires Ordered(rows)
    ensures forall c :: c in m <==> Occurs(rows, |rows|, c)
    ensures forall c | c in m :: DeliverQos(rows, c, qos, m[c])
  {
    m := map[];
    for k := 0 to |rows|
      invariant forall c :: c in m <==> Occurs(rows, k, c)
      invariant forall c | c in m :: DeliverQos(rows, c, qos, m[c])
    {
      OccursNext(rows, k);
      if rows[k].client !in m {
        FirstIsBest(rows, k, qos);
        m := m[rows[k].client := Min(rows[k].qos, qos)];
      }
    }
  }

  /** The client has a row before position k. */
  ghost predicate Occurs(rows: seq<Sub>, k: nat, c: Client) {
    exists i :: 0 <= i < |rows| && i < k && rows[i].client == c
  }

  lemma OccursNext(rows: seq<Sub>, k: nat)
    requires k < |rows|
    ensures forall c :: Occurs(rows, k + 1, c) <==> Occurs(rows, k, c) || c == rows[k].client
  {
  }

  lemma FirstIsBest(rows: seq<Sub>, k: nat, qos: QoS)
    requires Ordered(rows) && k < |rows| && !Occurs(rows, k, rows[k].client)
    ensures DeliverQos(rows, rows[k].client, qos, Min(rows[k].qos, qos))
  {
    var c := rows[k].client;
    assert Offers(rows, c, Min(rows[k].qos, qos));
    forall x: QoS | x <= qos && Offers(rows, c, x) ensures x <= Min(rows[k].qos, qos) {
      var j :| 0 <= j < |rows| && rows[j].client == c && x <= rows[j].qos;
      assert j >= k;
    }
  }

  function Candidates(subs: set<Sub>, sessions: O.Sessions, topic: Topics.Bytes, publisher: Option<Client>): set<Sub> {
    set sub | sub in subs && Candidate(sub, sessions, topic, publisher)
  }

  /** The client has a subscription of QoS x or more that matches and that no-local does not
      suppress. */
  ghost predicate Subscribed(subs: set<Sub>, topic: Topics.Bytes, publisher: Option<Client>, c: Client, x: QoS) {
    exists sub :: sub in subs && sub.client == c && x <= sub.qos && Topics.Section47(sub.filter, topic)
                  && (sub.noLocal ==> publisher != Some(c))
  }

  /** q is the greatest QoS up to the publish QoS that such a subscription reaches. */
  ghost predicate Matched(subs: set<Sub>, topic: Topics.Bytes, publisher: Option<Client>, c: Client, qos: QoS, q: QoS) {
    && q <= qos
    && Subscribed(subs, topic, publisher, c, q)
    && (forall x: QoS | x <= qos && Subscribed(subs, topic, publisher, c, x) :: x <= q)
  }

  /** `rows` is what the join selects, in the order of the query. */
  ghost predicate Selects(subs: set<Sub>, sessions: O.Sessions, topic: Topics.Bytes, publisher: Option<Client>,
                          rows: seq<Sub>)
  {
    Ordered(rows) && forall sub :: sub in rows <==> sub in Candidates(subs, sessions, topic, publisher)
  }

  lemma OffersSubscribed(subs: set<Sub>, sessions: O.Sessions, topic: Topics.Bytes, publisher: Option<Client>,
                         rows: seq<Sub>, c: Client, x: QoS)
    requires Selects(subs, sessions, topic, publisher, rows)
    ensures Offers(rows, c, x) <==> c in sessions && Subscribed(subs, topic, publisher, c, x)
  {
    if Offers(rows, c, x) {
      var i :| 0 <= i < |rows| && rows[i].client == c && x <= rows[i].qos;
      assert rows[i] in rows;
    }
    if c in sessions && Subscribed(subs, topic, publisher, c, x) {
      var sub :| sub in subs && sub.client == c && x <= sub.qos && Topics.Section47(sub.filter, topic)
                 && (sub.noLocal ==> publisher != Some(c));
      assert sub in rows;
    }
  }

  /** The whole CTE: each client with a session and a matching subscription that no-local does not
      suppress, at the best QoS they and the publisher agree on. */
  method Matches(subs: set<Sub>, sessions: O.Sessions, topic: Topics.Bytes, publisher: Option<Client>,
                 qos: QoS, rows: seq<Sub>)
    returns (m: map<Client, QoS>)
    requires Selects(subs, sessions, topic, publisher, rows)
    ensures forall c :: c in m <==> c in sessions && Subscribed(subs, topic, publisher, c, 0)
    ensures forall c | c in m :: Matched(subs, topic, publisher, c, qos, m[c])
  {
    m := DistinctOn(rows, qos);
    forall c ensures c in m <==> c in sessions && Subscribed(subs, topic, publisher, c, 0) {
      OffersSubscribed(subs, sessions, topic, publisher, rows, c, 0);
      assert Occurs(rows, |rows|, c) <==> Offers(rows, c, 0);
    }
    forall c | c in m ensures Matched(subs, topic, publisher, c, qos, m[c]) {
      forall x: QoS ensures Offers(rows, c, x) <==> c in sessions && Subscribed(subs, topic, publisher, c, x) {
        OffersSubscribed(subs, sessions, topic, publisher, rows, c, x);
      }
    }
  }

  // ---- the pending CTE --------------------------------------------------------------------

  /** Which rows of a client are counted: all, those in states 0..2, or of these the QoS>0. */
  datatype Lens = All | Live | Tracked

  function LensOf(rev: Revision): Lens { if rev == R0005 then All else Live }

  predicate Counts(d: Delivery, c: Client, lens: Lens) {
    d.client == c && (lens == All || 0 <= d.state <= 2) && (lens == Tracked ==> d.qos > 0)
  }

  /** SELECT count(*) over the rows the lens lets through. */
  function Depth(dels: seq<Delivery>, c: Client, lens: Lens): nat {
    if dels == [] then 0
    else Depth(dels[..|dels| - 1], c, lens) + if Counts(dels[|dels| - 1], c, lens) then 1 else 0
  }

  lemma {:induction false} DepthPrefix(dels: seq<Delivery>, k: nat, c: Client, lens: Lens)
    requires k <= |dels|
    ensures Depth(dels[..k], c, lens) <= Depth(dels, c, lens)
  {
    if k < |dels| {
      DepthPrefix(dels[..|dels| - 1], k, c, lens);
      assert dels[..|dels| - 1][..k] == dels[..k];
    } else {
      assert dels[..k] == dels;
    }
  }

  /** CASE WHEN cap = 0 THEN false ELSE EXISTS (SELECT 1 ... OFFSET cap - 1 LIMIT 1): the scan
      skips cap - 1 rows and stops at the next one, and agrees with counting all of them. */
  method OverCap(dels: seq<Delivery>, c: Client, cap: nat, lens: Lens) returns (over: bool)
    ensures over <==> cap > 0 && Depth(dels, c, lens) >= cap
  {
    if cap == 0 { return false; }
    var skip := cap - 1;
    for k := 0 to |dels|
      invariant 0 <= skip && Depth(dels[..k], c, lens) + skip == cap - 1
    {
      assert dels[..k + 1][..k] == dels[..k];
      if Counts(dels[k], c, lens) {
        if skip == 0 {
          DepthPrefix(dels, k + 1, c, lens);
          return true;
        }
        skip := skip - 1;
      }
    }
    assert dels[..|dels|] == dels;
    return false;
  }

  predicate AtCap(dels: seq<Delivery>, c: Client, cap: nat, rev: Revision) {
    cap > 0 && Depth(dels, c, LensOf(rev)) >= cap
  }

  /** The short-circuit revisions refine the counting one: same verdict on every table whose
      rows are in the states the engine writes. */
  lemma {:induction false} ShortCircuitRefines(dels: seq<Delivery>, c: Client)
    requires forall i | 0 <= i < |dels| :: 0 <= dels[i].state <= 2
    ensures Depth(dels, c, Live) == Depth(dels, c, All)
    ensures forall cap, rev :: AtCap(dels, c, cap, rev) <==> AtCap(dels, c, cap, R0005)
  {
    if dels != [] { ShortCircuitRefines(dels[..|dels| - 1], c); }
  }

  // ---- the inserted CTE and the aggregates ---------------------------------------------------

  /** One call: the matched clients with their QoS, the tables it sees, the cap. */
  datatype Call = Call(
    matches: map<Client, QoS>, sessions: O.Sessions, dels: seq<Delivery>, msg: int, cap: nat, rev: Revision)
  {
    predicate Known() { forall c | c in matches :: c in sessions }

    predicate Over(c: Client) { AtCap(dels, c, cap, rev) }

    predicate Connected(c: Client) { c in sessions && sessions[c].connected }

    predicate Inserts(c: Client) {
      c in matches && (matches[c] > 0 || Connected(c)) && (!Over(c) || (rev == R0018 && matches[c] == 0))
    }

    predicate Overflows(c: Client) { c in matches && matches[c] > 0 && Over(c) }

    /** A QoS-0 delivery that vanishes without a signal. */
    predicate Drops(c: Client) { c in matches && matches[c] == 0 && (!Connected(c) || (rev != R0018 && Over(c))) }

    /** This client's delivery names b among the NOTIFY targets. */
    predicate Routes(c: Client, b: Pod) {
      Inserts(c) && c in sessions && sessions[c].broker == Some(b) && (rev == R0018 || Connected(c))
    }

    function Row(c: Client): Delivery
      requires c in matches
    {
      Delivery(c, msg, matches[c], 0)
    }

    /** `news` holds exactly one row for each inserted client among cs. */
    predicate Rows(news: seq<Delivery>, cs: seq<Client>) {
      && (forall i | 0 <= i < |news| ::
            news[i].client in cs && Inserts(news[i].client) && news[i] == Row(news[i].client))
      && (forall i, j | 0 <= i < j < |news| :: news[i].client != news[j].client)
      && (forall c | c in cs && Inserts(c) :: exists i :: 0 <= i < |news| && news[i].client == c)
    }
  }

  method PublishTo(call: Call, c: Client) returns (row: Option<Delivery>, target: Option<Pod>, overflows: bool)
    requires call.Known() && c in call.matches
    ensures row == if call.Inserts(c) then Some(call.Row(c)) else None
    ensures overflows <==> call.Overflows(c)
    ensures forall b :: target == Some(b) <==> call.Routes(c, b)
  {
    var over := OverCap(call.dels, c, call.cap, LensOf(call.rev));
    var q, session := call.matches[c], call.sessions[c];
    row, target, overflows := None, None, over && q > 0;
    if (q > 0 || session.connected) && (!over || (call.rev == R0018 && q == 0)) {
      row := Some(Delivery(c, call.msg, q, 0));
      if call.rev == R0018 || session.connected { target := session.broker; }
    }
  }

  lemma RowsGrow(call: Call, news: seq<Delivery>, cs: seq<Client>, c: Client)
    requires call.Rows(news, cs) && c in call.matches && c !in cs
    ensures call.Inserts(c) ==> call.Rows(news + [call.Row(c)], cs + [c])
    ensures !call.Inserts(c) ==> call.Rows(news, cs + [c])
  {
    if call.Inserts(c) {
      var next := news + [call.Row(c)];
      assert next[|news|].client == c;
      forall d | d in cs + [c] && call.Inserts(d) ensures exists i :: 0 <= i < |next| && next[i].client == d {
        if d in cs { var i :| 0 <= i < |news| && news[i].client == d; assert next[i].client == d; }
      }
    }
  }

  /** The data-modifying CTE over the matched clients, in any order: exactly one row for each
      inserted client, the overflow set, the NOTIFY targets, and the count. */
  method Publish(call: Call, clients: seq<Client>)
    returns (news: seq<Delivery>, brokers: set<Pod>, overflow: set<Client>, delivered: nat)
    requires call.Known() && Distinct(clients) && forall c :: c in clients <==> c in call.matches
    ensures call.Rows(news, clients) && delivered == |news|
    ensures forall c :: c in overflow <==> call.Overflows(c)
    ensures forall b :: b in brokers <==> exists c :: c in clients && call.Routes(c, b)
  {
    news, brokers, overflow := [], {}, {};
    for k := 0 to |clients|
      invariant call.Rows(news, clients[..k])
      invariant forall c :: c in overflow <==> c in clients[..k] && call.Overflows(c)
      invariant forall b :: b in brokers <==> exists c :: c in clients[..k] && call.Routes(c, b)
    {
      var c := clients[k];
      assert clients[..k + 1] == clients[..k] + [c] && c !in clients[..k];
      RowsGrow(call, news, clients[..k], c);
      var row, target, overflows := PublishTo(call, c);
      if row.Some? { news := news + [row.value]; }
      if target.Some? { brokers := brokers + {target.value}; }
      if overflows { overflow := overflow + {c}; }
    }
    assert clients[..|clients|] == clients;
    delivered := |news|;
  }

  /** mqtt_publish from the subscriptions to the rows: every row is for a client with a session and a
      matching subscription, at the best QoS they and the publisher agree on, queued, and the
      client's only one; and every such client that the gates let through has one. */
  method MqttPublish(subs: set<Sub>, sessions: O.Sessions, dels: seq<Delivery>, topic: Topics.Bytes,
                     publisher: Option<Client>, qos: QoS, msg: int, cap: nat, rev: Revision,
                     rows: seq<Sub>)
    returns (news: seq<Delivery>, brokers: set<Pod>, overflow: set<Client>, ghost call: Call)
    requires Selects(subs, sessions, topic, publisher, rows)
    ensures call == Call(call.matches, sessions, dels, msg, cap, rev)
    ensures forall i | 0 <= i < |news| ::
      && news[i].client in sessions && Matched(subs, topic, publisher, news[i].client, qos, news[i].qos)
      && news[i].message == msg && news[i].state == 0
    ensures forall i, j | 0 <= i < j < |news| :: news[i].client != news[j].client
    ensures forall c | c in sessions && Subscribed(subs, topic, publisher, c, 0) && call.Inserts(c) ::
      exists i :: 0 <= i < |news| && news[i].client == c
    ensures forall c :: c in overflow <==> call.Overflows(c)
  {
    var matches := Matches(subs, sessions, topic, publisher, qos, rows);
    call := Call(matches, sessions, dels, msg, cap, rev);
    var clients := [];
    var left := matches.Keys;
    while left != {}
      invariant left <= matches.Keys && Distinct(clients)
      invariant forall c :: c in clients <==> c in matches && c !in left
      decreases |left|
    {
      LeastExists(left);
      var c :| c in left && forall d | d in left :: c <= d;
      clients, left := clients + [c], left - {c};
    }
    var delivered;
    news, brokers, overflow, delivered := Publish(Call(matches, sessions, dels, msg, cap, rev), clients);
  }

  // ---- what the fan-out guarantees -----------------------------------------------------------

  /** Matched clients split exactly into inserted, overflow (QoS>0 over the cap) and silent
      QoS-0 drops: no client is in two classes, and the counts add up. */
  lemma Partition(call: Call, clients: seq<Client>, news: seq<Delivery>, overflow: set<Client>, drops: set<Client>)
    requires call.Rows(news, clients) && (forall c :: c in clients <==> c in call.matches)
    requires (forall c :: c in overflow <==> call.Overflows(c)) && (forall c :: c in drops <==> call.Drops(c))
    ensures forall i | 0 <= i < |news| :: news[i].client !in overflow && news[i].client !in drops
    ensures overflow !! drops
    ensures |news| + |overflow| + |drops| == |call.matches|
  {
    var inserted := NewsClients(news);
    NewsCount(news);
    forall c ensures c in inserted <==> c in call.matches && call.Inserts(c) { NewsOf(call, clients, news, c); }
    forall c | c in call.matches ensures c in inserted + overflow + drops {
      assert call.Inserts(c) || call.Overflows(c) || call.Drops(c);
    }
    forall c | c in overflow ensures c !in drops { assert call.Overflows(c) && !call.Drops(c); }
    forall c | c in overflow + drops ensures c in call.matches { assert call.Overflows(c) || call.Drops(c); }
    assert call.matches.Keys == inserted + overflow + drops;
    assert |inserted + overflow + drops| == |inserted + overflow| + |drops|;
    assert |inserted + overflow| == |inserted| + |overflow|;
    forall i | 0 <= i < |news| ensures news[i].client !in overflow && news[i].client !in drops {
      assert news[i].client in inserted;
    }
  }

  function NewsClients(news: seq<Delivery>): set<Client> { set i | 0 <= i < |news| :: news[i].client }

  lemma NewsOf(call: Call, clients: seq<Client>, news: seq<Delivery>, c: Client)
    requires call.Rows(news, clients) && (forall c :: c in clients <==> c in call.matches)
    ensures c in NewsClients(news) <==> c in call.matches && call.Inserts(c)
  {
  }

  lemma {:induction false} NewsCount(news: seq<Delivery>)
    requires forall i, j | 0 <= i < j < |news| :: news[i].client != news[j].client
    ensures |NewsClients(news)| == |news|
  {
    if news != [] {
      var n := |news| - 1;
      var rest := news[..n];
      NewsCount(rest);
      assert forall i | 0 <= i < n :: rest[i] == news[i];
      assert NewsClients(news) == NewsClients(rest) + {news[n].client} && news[n].client !in NewsClients(rest);
    }
  }

  /** Appending the rows of one call adds the client's one row, if the lens sees it. */
  lemma {:induction false} DepthAppend(dels: seq<Delivery>, news: seq<Delivery>, c: Client, lens: Lens)
    requires forall i, j | 0 <= i < j < |news| :: news[i].client != news[j].client
    ensures Depth(dels + news, c, lens)
         == Depth(dels, c, lens) + if exists i :: 0 <= i < |news| && Counts(news[i], c, lens) then 1 else 0
  {
    if news == [] {
      assert dels + news == dels;
    } else {
      var n := |news| - 1;
      var rest := news[..n];
      DepthAppend(dels, rest, c, lens);
      assert (dels + news)[..|dels + news| - 1] == dels + rest && (dels + news)[|dels + news| - 1] == news[n];
      assert forall i | 0 <= i < n :: rest[i] == news[i];
    }
  }

  /** A publish lifts a client above the cap exactly when revision 0018 lets a QoS-0 row past a
      full queue; the earlier revisions never do. */
  lemma DepthAfterPublish(call: Call, clients: seq<Client>, news: seq<Delivery>, c: Client)
    requires call.Rows(news, clients) && (forall d :: d in clients <==> d in call.matches)
    requires call.cap > 0 && Depth(call.dels, c, LensOf(call.rev)) <= call.cap
    ensures Depth(call.dels + news, c, LensOf(call.rev)) > call.cap <==>
      && call.rev == R0018 && Depth(call.dels, c, Live) == call.cap
      && c in call.matches && call.matches[c] == 0 && call.Connected(c)
  {
    DepthAppend(call.dels, news, c, LensOf(call.rev));
    if call.Inserts(c) {
      var i :| 0 <= i < |news| && news[i].client == c;
      assert news[i] == call.Row(c) && Counts(news[i], c, LensOf(call.rev));
    }
  }

  lemma {:induction false} TrackedBelow(dels: seq<Delivery>, c: Client, lens: Lens)
    ensures Depth(dels, c, Tracked) <= Depth(dels, c, lens)
  {
    if dels != [] { TrackedBelow(dels[..|dels| - 1], c, lens); }
  }

  /** The QoS>0 rows of a client stay within the cap in every revision. */
  lemma TrackedAfterPublish(call: Call, clients: seq<Client>, news: seq<Delivery>, c: Client)
    requires call.Rows(news, clients) && call.cap > 0 && Depth(call.dels, c, Tracked) <= call.cap
    ensures Depth(call.dels + news, c, Tracked) <= call.cap
  {
    DepthAppend(call.dels, news, c, Tracked);
    TrackedBelow(call.dels, c, LensOf(call.rev));
    if i :| 0 <= i < |news| && Counts(news[i], c, Tracked) {
      assert call.Inserts(c) && call.matches[c] > 0;
    }
  }

  /** Nor does a publish lift a client that is above the cap already: not its QoS>0 rows, and
      before revision 0018 no row at all. */
  lemma PublishCannotLift(call: Call, clients: seq<Client>, news: seq<Delivery>, c: Client, lens: Lens)
    requires call.Rows(news, clients) && call.cap > 0
    requires (lens == Tracked || (call.rev != R0018 && lens == LensOf(call.rev)))
    ensures Depth(call.dels + news, c, lens) <= Max(Depth(call.dels, c, lens), call.cap)
  {
    DepthAppend(call.dels, news, c, lens);
    TrackedBelow(call.dels, c, LensOf(call.rev));
    if i :| 0 <= i < |news| && Counts(news[i], c, lens) {
      assert call.Inserts(c) && (lens == Tracked ==> call.matches[c] > 0);
    }
  }

  function Max(a: nat, b: nat): nat { if a < b then b else a }

  /** One serial step of the table: the rows of a publish, the row of a retained replay (which no
      cap guards), the removal of a row, or a state change within the states the engine writes. */
  datatype Event =
    | Published(call: Call, clients: seq<Client>, news: seq<Delivery>)
    | Replayed(row: Delivery)
    | Removed(i: nat)
    | Moved(i: nat, state: int)

  ghost predicate Allowed(dels: seq<Delivery>, e: Event, cap: nat, rev: Revision) {
    match e
    case Published(call, clients, news) =>
      && call.dels == dels && call.cap == cap && call.rev == rev && call.Rows(news, clients)
      && forall d :: d in clients <==> d in call.matches
    case Replayed(row) => row.qos > 0 && row.state == 0
    case Removed(i) => i < |dels|
    case Moved(i, st) => i < |dels| && 0 <= st <= 2 && 0 <= dels[i].state <= 2
  }

  ghost function Apply(dels: seq<Delivery>, e: Event, cap: nat, rev: Revision): seq<Delivery>
    requires Allowed(dels, e, cap, rev)
  {
    match e
    case Published(_, _, news) => dels + news
    case Replayed(row) => dels + [row]
    case Removed(i) => dels[..i] + dels[i + 1..]
    case Moved(i, st) => dels[i := dels[i].(state := st)]
  }

  ghost predicate AllAllowed(dels: seq<Delivery>, es: seq<Event>, cap: nat, rev: Revision)
    decreases |es|
  {
    es == [] || (Allowed(dels, es[0], cap, rev) && AllAllowed(Apply(dels, es[0], cap, rev), es[1..], cap, rev))
  }

  ghost function ApplyAll(dels: seq<Delivery>, es: seq<Event>, cap: nat, rev: Revision): seq<Delivery>
    requires AllAllowed(dels, es, cap, rev)
    decreases |es|
  {
    if es == [] then dels else ApplyAll(Apply(dels, es[0], cap, rev), es[1..], cap, rev)
  }

  lemma {:induction false} DepthConcat(a: seq<Delivery>, b: seq<Delivery>, c: Client, lens: Lens)
    ensures Depth(a + b, c, lens) == Depth(a, c, lens) + Depth(b, c, lens)
  {
    if b == [] {
      assert a + b == a;
    } else {
      DepthConcat(a, b[..|b| - 1], c, lens);
      assert (a + b)[..|a + b| - 1] == a + b[..|b| - 1];
    }
  }

  lemma DepthRemove(dels: seq<Delivery>, i: nat, c: Client, lens: Lens)
    requires i < |dels|
    ensures Depth(dels[..i] + dels[i + 1..], c, lens) <= Depth(dels, c, lens)
  {
    DepthConcat(dels[..i], dels[i + 1..], c, lens);
    DepthConcat(dels[..i], dels[i..], c, lens);
    DepthConcat([dels[i]], dels[i + 1..], c, lens);
    assert dels == dels[..i] + dels[i..] && dels[i..] == [dels[i]] + dels[i + 1..];
  }

  lemma DepthUpdate(dels: seq<Delivery>, i: nat, st: int, c: Client, lens: Lens)
    requires i < |dels| && 0 <= st <= 2 && 0 <= dels[i].state <= 2
    ensures Depth(dels[i := dels[i].(state := st)], c, lens) == Depth(dels, c, lens)
  {
    var d := dels[i].(state := st);
    DepthConcat(dels[..i], dels[i..], c, lens);
    DepthConcat([dels[i]], dels[i + 1..], c, lens);
    DepthConcat(dels[..i], [d] + dels[i + 1..], c, lens);
    DepthConcat([d], dels[i + 1..], c, lens);
    assert dels == dels[..i] + dels[i..] && dels[i..] == [dels[i]] + dels[i + 1..];
    assert dels[i := d] == dels[..i] + ([d] + dels[i + 1..]);
    assert [d][..0] == [] && [dels[i]][..0] == [];
  }

  /** How many retained messages were replayed to a client. */
  function Replays(es: seq<Event>, c: Client): nat {
    if es == [] then 0 else (if es[0].Replayed? && es[0].row.client == c then 1 else 0) + Replays(es[1..], c)
  }

  /** One event lifts a client by at most one above the cap, and only a replay does. */
  lemma EventLifts(dels: seq<Delivery>, e: Event, cap: nat, rev: Revision, c: Client, lens: Lens)
    requires cap > 0 && Allowed(dels, e, cap, rev) && (lens == Tracked || (rev != R0018 && lens == LensOf(rev)))
    ensures Depth(Apply(dels, e, cap, rev), c, lens)
         <= Max(Depth(dels, c, lens), cap) + if e.Replayed? && e.row.client == c then 1 else 0
  {
    match e
    case Published(call, clients, news) => PublishCannotLift(call, clients, news, c, lens);
    case Replayed(row) => DepthConcat(dels, [row], c, lens); assert [row][..0] == [];
    case Removed(i) => DepthRemove(dels, i, c, lens);
    case Moved(i, st) => DepthUpdate(dels, i, st, c, lens);
  }

  lemma {:induction false} DepthHolds(dels: seq<Delivery>, es: seq<Event>, cap: nat, rev: Revision, c: Client,
                                      lens: Lens, over: nat)
    requires cap > 0 && AllAllowed(dels, es, cap, rev) && (lens == Tracked || (rev != R0018 && lens == LensOf(rev)))
    requires Depth(dels, c, lens) <= cap + over
    ensures Depth(ApplyAll(dels, es, cap, rev), c, lens) <= cap + over + Replays(es, c)
    decreases |es|
  {
    if es != [] {
      EventLifts(dels, es[0], cap, rev, c, lens);
      var more := if es[0].Replayed? && es[0].row.client == c then 1 else 0;
      DepthHolds(Apply(dels, es[0], cap, rev), es[1..], cap, rev, c, lens, over + more);
    }
  }

  /** Serial publishes and acknowledgements never push a client above the cap, and retained replays
      by at most their number: the QoS>0 rows in every revision, whatever QoS-0 rows there are, and
      all rows in the revisions that gate every QoS. */
  lemma CapHolds(dels: seq<Delivery>, es: seq<Event>, cap: nat, rev: Revision, c: Client, lens: Lens)
    requires cap > 0 && AllAllowed(dels, es, cap, rev) && Depth(dels, c, lens) <= cap
    requires lens == Tracked || (rev != R0018 && lens == LensOf(rev))
    ensures Depth(ApplyAll(dels, es, cap, rev), c, lens) <= cap + Replays(es, c)
  {
    DepthHolds(dels, es, cap, rev, c, lens, 0);
  }

  /** The bound is met: every replay to a client at or above the cap lifts it by one. */
  lemma ReplayLifts(dels: seq<Delivery>, row: Delivery, cap: nat, rev: Revision, lens: Lens)
    requires Allowed(dels, Replayed(row), cap, rev)
    ensures Depth(Apply(dels, Replayed(row), cap, rev), row.client, lens) == Depth(dels, row.client, lens) + 1
  {
    DepthConcat(dels, [row], row.client, lens);
    assert [row][..0] == [];
  }

  /** The row that Deliver selects on a pod: this message, a session owned here, still queued. */
  predicate Selected(d: Delivery, msg: int, sessions: O.Sessions, pod: Pod) {
    d.message == msg && d.client in sessions && sessions[d.client].broker == Some(pod) && d.state == 0
  }

  /** Self-healing: whatever the table said before, after one attestation a publish that
      matches a client registered here with the current token, below its cap, names this pod
      and inserts a row that Deliver on this pod selects. */
  lemma HealedRouting(s: O.State, pod: Pod, c: Client, call: Call, clients: seq<Client>, news: seq<Delivery>)
    requires O.Inv(s) && c in s.sessions && (pod, c) in s.registry
    requires s.conns[s.registry[(pod, c)]].token == s.sessions[c].token
    requires call.sessions
          == O.Step(O.Step(s, O.AttestRead(pod)), O.AttestWrite(O.Snapshot(pod, O.Registered(s, pod)))).sessions
    requires c in call.matches && !call.Over(c) && call.Rows(news, clients)
    requires (forall d :: d in clients <==> d in call.matches)
    ensures c in clients && call.Routes(c, pod)
    ensures exists i :: 0 <= i < |news| && news[i].client == c && Selected(news[i], call.msg, call.sessions, pod)
  {
    O.AttestHeals(s, pod, c);
    assert call.Inserts(c);
    var i :| 0 <= i < |news| && news[i].client == c;
    assert news[i] == call.Row(c);
  }
}
