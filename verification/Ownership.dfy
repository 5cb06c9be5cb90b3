/** Session ownership across pods: the `sessions` table, the Conns that pods keep in memory,
    takeover NOTIFYs, re-attestation after a listener reconnect, and the janitor's reap.

    Each committed statement or transaction is one step.  NOTIFYs and attestation snapshots,
    once produced, may be consumed at any later time, in any order and any number of times;
    a Conn may run its disconnect transaction at any time, however stale it is.
    gen_random_uuid() never returns a token twice. */
module Ownership {
  import opened Prelude

  type Client = int
  type Pod = int
  type Token = int
  type ConnId = int

  datatype Session = Session(broker: Option<Pod>, token: Token, connected: bool)
  type Sessions = map<Client, Session>
  type Deliveries = map<int, Client>

  // ---- the statements ---------------------------------------------------------------

  predicate Current(sessions: Sessions, client: Client, token: Token) {
    client in sessions && sessions[client].token == token
  }

  /** UPDATE or INSERT of the CONNECT take-over. */
  function Upsert(sessions: Sessions, client: Client, pod: Pod, token: Token): Sessions {
    sessions[client := Session(Some(pod), token, true)]
  }

  /** DELETE ... WHERE client_id = c AND session_token = t. */
  function GuardedDelete(sessions: Sessions, client: Client, token: Token): Sessions {
    if Current(sessions, client, token) then sessions - {client} else sessions
  }

  /** The deliveries of a deleted session go in the same transaction; otherwise it rolls back. */
  function GuardedPurge(sessions: Sessions, dels: Deliveries, client: Client, token: Token): Deliveries {
    if Current(sessions, client, token) then Purge(dels, client) else dels
  }

  function Purge(dels: Deliveries, client: Client): Deliveries {
    map id | id in dels && dels[id] != client :: dels[id]
  }

  /** UPDATE ... SET connected = false, broker_id = NULL WHERE client_id = c AND session_token = t. */
  function GuardedDetach(sessions: Sessions, client: Client, token: Token): Sessions {
    if Current(sessions, client, token)
    then sessions[client := sessions[client].(broker := None, connected := false)] else sessions
  }

  /** UPDATE ... SET connected = false, broker_id = NULL WHERE broker_id = p. */
  function DetachPod(sessions: Sessions, pod: Pod): Sessions {
    map c | c in sessions ::
      if sessions[c].broker == Some(pod) then sessions[c].(broker := None, connected := false) else sessions[c]
  }

  /** The attestation UPDATE for a snapshot of (client, token) pairs. */
  function Attested(sessions: Sessions, pod: Pod, pairs: set<(Client, Token)>): Sessions {
    map c | c in sessions ::
      if (c, sessions[c].token) in pairs then sessions[c].(broker := Some(pod), connected := true) else sessions[c]
  }

  // ---- the machine ------------------------------------------------------------------

  /** A Conn after takeOwnership; `prev` is the owner and token it replaced, if any. */
  datatype Conn = Conn(pod: Pod, client: Client, token: Token, prev: Option<(Pod, Token)>)

  datatype Notice = Notice(pod: Pod, client: Client, token: Token)

  datatype Snapshot = Snapshot(pod: Pod, pairs: set<(Client, Token)>)

  /** Holder of a broker's advisory lock: the broker's own listener session or a janitor. */
  datatype Holder = Own | Janitor(id: int)

  /** `issued` is history: the Conn each token was issued to. */
  datatype State = State(
    sessions: Sessions, dels: Deliveries, conns: map<ConnId, Conn>, issued: map<Token, ConnId>,
    registry: map<(Pod, Client), ConnId>, notices: set<Notice>, snapshots: set<Snapshot>,
    locks: map<Pod, Holder>, closed: set<ConnId>, kicks: set<Notice>)

  datatype Label =
    | TakeOwnership(conn: ConnId, pod: Pod, client: Client, token: Token)
    | NotifyTakeover(conn: ConnId)
    | Register(conn: ConnId)
    | Shutdown(conn: ConnId)
    | DisconnectDelete(conn: ConnId)
    | DisconnectUpdate(conn: ConnId)
    | DispatchTakeover(notice: Notice)
    | QuotaRead(client: Client)
    | DispatchQuota(notice: Notice)
    | AttestRead(pod: Pod)
    | AttestWrite(snapshot: Snapshot)
    | Lock(pod: Pod, holder: Holder)
    | Unlock(pod: Pod)
    | Reap(pod: Pod, janitor: int)
    | PodShutdown(pod: Pod)
    | Expire(client: Client)
    | Deliver(id: int, client: Client)
    | CleanStart(client: Client)

  /** Closing a Conn removes it from the registry only if it is the registered one. */
  function Close(s: State, k: ConnId): State {
    s.(closed := s.closed + {k},
       registry := map a | a in s.registry && s.registry[a] != k :: s.registry[a])
  }

  /** Close the pod's Conn for this client if it carries this token. */
  function CloseNamed(s: State, n: Notice): State {
    var at := (n.pod, n.client);
    if at in s.registry && s.registry[at] in s.conns && s.conns[s.registry[at]].token == n.token
    then Close(s, s.registry[at]) else s
  }

  /** What AttestOwnedSessions reads from its own conns map. */
  function Registered(s: State, pod: Pod): set<(Client, Token)> {
    set a | a in s.registry && a.0 == pod && s.registry[a] in s.conns ::
      (s.conns[s.registry[a]].client, s.conns[s.registry[a]].token)
  }

  function Step(s: State, l: Label): State {
    match l
    case TakeOwnership(k, pod, client, token) =>
      if k in s.conns || token in s.issued then s
      else
        var prev := if client in s.sessions && s.sessions[client].broker.Some?
                    then Some((s.sessions[client].broker.value, s.sessions[client].token)) else None;
        s.(sessions := Upsert(s.sessions, client, pod, token),
           conns := s.conns[k := Conn(pod, client, token, prev)], issued := s.issued[token := k])
    case NotifyTakeover(k) =>
      if k in s.conns && s.conns[k].prev.Some? && s.conns[k].prev.value.0 != s.conns[k].pod
      then s.(notices := s.notices + {Notice(s.conns[k].prev.value.0, s.conns[k].client, s.conns[k].prev.value.1)})
      else s
    case Register(k) =>
      if k !in s.conns then s
      else
        var at := (s.conns[k].pod, s.conns[k].client);
        var s' := s.(registry := s.registry[at := k]);
        if at in s.registry && s.registry[at] != k then s'.(closed := s.closed + {s.registry[at]}) else s'
    case Shutdown(k) => Close(s, k)
    case DisconnectDelete(k) =>
      if k !in s.conns then s
      else s.(sessions := GuardedDelete(s.sessions, s.conns[k].client, s.conns[k].token),
              dels := GuardedPurge(s.sessions, s.dels, s.conns[k].client, s.conns[k].token))
    case DisconnectUpdate(k) =>
      if k !in s.conns then s
      else s.(sessions := GuardedDetach(s.sessions, s.conns[k].client, s.conns[k].token))
    case DispatchTakeover(n) => if n in s.notices then CloseNamed(s, n) else s
    case QuotaRead(c) =>
      if c in s.sessions && s.sessions[c].connected && s.sessions[c].broker.Some?
      then s.(kicks := s.kicks + {Notice(s.sessions[c].broker.value, c, s.sessions[c].token)}) else s
    case DispatchQuota(n) => if n in s.kicks then CloseNamed(s, n) else s
    case AttestRead(pod) => s.(snapshots := s.snapshots + {Snapshot(pod, Registered(s, pod))})
    case AttestWrite(a) =>
      if a in s.snapshots then s.(sessions := Attested(s.sessions, a.pod, a.pairs)) else s
    case Lock(pod, h) => if pod in s.locks then s else s.(locks := s.locks[pod := h])
    case Unlock(pod) => s.(locks := s.locks - {pod})
    case Reap(pod, j) =>
      if pod in s.locks && s.locks[pod] == Janitor(j) then s.(sessions := DetachPod(s.sessions, pod)) else s
    case PodShutdown(pod) => s.(sessions := DetachPod(s.sessions, pod))
    case Expire(c) =>
      if c in s.sessions && !s.sessions[c].connected
      then s.(sessions := s.sessions - {c}, dels := Purge(s.dels, c)) else s
    case Deliver(id, c) => if id in s.dels then s else s.(dels := s.dels[id := c])
    case CleanStart(c) => s.(dels := Purge(s.dels, c))
  }

  function Run(s: State, ls: seq<Label>): State
    decreases |ls|
  {
    if ls == [] then s else Run(Step(s, ls[0]), ls[1..])
  }

  const Init := State(map[], map[], map[], map[], map[], {}, {}, map[], {}, {})

  // ---- the ownership invariant ----------------------------------------------------------

  type Conns = map<ConnId, Conn>
  type Issued = map<Token, ConnId>

  /** Token t was issued to a Conn for this client on this pod. */
  ghost predicate IssuedTo(t: Token, client: Client, pod: Pod, conns: Conns, issued: Issued) {
    t in issued && issued[t] in conns && conns[issued[t]].token == t
    && conns[issued[t]].client == client && conns[issued[t]].pod == pod
  }

  ghost predicate TokensOk(conns: Conns, issued: Issued) {
    && (forall k | k in conns :: conns[k].token in issued && issued[conns[k].token] == k)
    && (forall t | t in issued :: issued[t] in conns && conns[issued[t]].token == t)
  }

  ghost predicate RowOk(c: Client, row: Session, conns: Conns, issued: Issued) {
    && row.token in issued && issued[row.token] in conns && conns[issued[row.token]].client == c
    && (row.broker.Some? ==> row.broker.value == conns[issued[row.token]].pod)
  }

  ghost predicate RowsOk(sessions: Sessions, conns: Conns, issued: Issued) {
    forall c | c in sessions :: RowOk(c, sessions[c], conns, issued)
  }

  /** Token t was issued and no row carries it: it is superseded. */
  ghost predicate Retired(t: Token, sessions: Sessions, issued: Issued) {
    t in issued && forall c | c in sessions :: sessions[c].token != t
  }

  ghost predicate NoticesOk(s: State) {
    && (forall n | n in s.notices :: Retired(n.token, s.sessions, s.issued))
    && (forall k | k in s.conns && s.conns[k].prev.Some? :: Retired(s.conns[k].prev.value.1, s.sessions, s.issued))
  }

  ghost predicate SnapshotsOk(snapshots: set<Snapshot>, conns: Conns, issued: Issued) {
    forall a, x | a in snapshots && x in a.pairs :: IssuedTo(x.1, x.0, a.pod, conns, issued)
  }

  ghost predicate RegistryOk(registry: map<(Pod, Client), ConnId>, conns: Conns) {
    forall a | a in registry ::
      registry[a] in conns && conns[registry[a]].pod == a.0 && conns[registry[a]].client == a.1
  }

  ghost predicate Inv(s: State) {
    && TokensOk(s.conns, s.issued)
    && RowsOk(s.sessions, s.conns, s.issued)
    && NoticesOk(s)
    && SnapshotsOk(s.snapshots, s.conns, s.issued)
    && RegistryOk(s.registry, s.conns)
  }

  /** Rows disappear, or keep their token while broker_id stays or becomes NULL. */
  ghost predicate Weaker(sessions: Sessions, sessions': Sessions) {
    forall c | c in sessions' ::
      && c in sessions && sessions'[c].token == sessions[c].token
      && (sessions'[c].broker == sessions[c].broker || sessions'[c].broker == None)
  }

  lemma WeakerKeeps(s: State, s': State)
    requires Inv(s) && Weaker(s.sessions, s'.sessions)
    requires s' == s.(sessions := s'.sessions, dels := s'.dels, locks := s'.locks)
    ensures Inv(s')
  {
    forall c | c in s'.sessions ensures RowOk(c, s'.sessions[c], s'.conns, s'.issued) {
      assert RowOk(c, s.sessions[c], s.conns, s.issued);
    }
  }

  lemma TakeOwnershipKeeps(s: State, l: Label)
    requires l.TakeOwnership? && Inv(s)
    ensures Inv(Step(s, l))
  {
    var s' := Step(s, l);
    if s' != s {
      forall c | c in s'.sessions ensures RowOk(c, s'.sessions[c], s'.conns, s'.issued) {
        assert c != l.client ==> RowOk(c, s.sessions[c], s.conns, s.issued);
      }
      forall t | Retired(t, s.sessions, s.issued) ensures Retired(t, s'.sessions, s'.issued) {}
      forall k | k in s'.conns && s'.conns[k].prev.Some?
        ensures Retired(s'.conns[k].prev.value.1, s'.sessions, s'.issued)
      {
        if k == l.conn {
          var t := s.sessions[l.client].token;
          assert RowOk(l.client, s.sessions[l.client], s.conns, s.issued);
          forall c | c in s'.sessions ensures s'.sessions[c].token != t {
            assert c != l.client ==> RowOk(c, s.sessions[c], s.conns, s.issued);
          }
        }
      }
      forall a, x | a in s'.snapshots && x in a.pairs ensures IssuedTo(x.1, x.0, a.pod, s'.conns, s'.issued) {
        assert IssuedTo(x.1, x.0, a.pod, s.conns, s.issued);
      }
    }
  }

  lemma AttestWriteKeeps(s: State, l: Label)
    requires l.AttestWrite? && Inv(s)
    ensures Inv(Step(s, l))
  {
    var s' := Step(s, l);
    if l.snapshot in s.snapshots {
      forall c | c in s'.sessions ensures RowOk(c, s'.sessions[c], s'.conns, s'.issued) {
        assert RowOk(c, s.sessions[c], s.conns, s.issued);
        var x := (c, s.sessions[c].token);
        assert x in l.snapshot.pairs ==> IssuedTo(x.1, x.0, l.snapshot.pod, s.conns, s.issued);
      }
    }
  }

  lemma AttestReadKeeps(s: State, l: Label)
    requires l.AttestRead? && Inv(s)
    ensures Inv(Step(s, l))
  {
    forall x | x in Registered(s, l.pod) ensures IssuedTo(x.1, x.0, l.pod, s.conns, s.issued) {
      var a :| a in s.registry && a.0 == l.pod && x == (s.conns[s.registry[a]].client, s.conns[s.registry[a]].token);
      var k := s.registry[a];
      assert x.0 == s.conns[k].client && x.1 == s.conns[k].token && s.conns[k].token in s.issued;
    }
  }

  lemma MemoryKeeps(s: State, l: Label)
    requires (l.NotifyTakeover? || l.Register? || l.QuotaRead?) && Inv(s)
    ensures Inv(Step(s, l))
  {
  }

  lemma CloseKeeps(s: State, k: ConnId)
    requires Inv(s)
    ensures Inv(Close(s, k))
  {
  }

  lemma StepKeeps(s: State, l: Label)
    requires Inv(s)
    ensures Inv(Step(s, l))
  {
    match l
    case TakeOwnership(_, _, _, _) => TakeOwnershipKeeps(s, l);
    case AttestRead(_) => AttestReadKeeps(s, l);
    case AttestWrite(_) => AttestWriteKeeps(s, l);
    case NotifyTakeover(_) => MemoryKeeps(s, l);
    case Register(_) => MemoryKeeps(s, l);
    case QuotaRead(_) => MemoryKeeps(s, l);
    case Shutdown(k) => CloseKeeps(s, k);
    case DispatchTakeover(n) => if Step(s, l) != s { CloseKeeps(s, s.registry[(n.pod, n.client)]); }
    case DispatchQuota(n) => if Step(s, l) != s { CloseKeeps(s, s.registry[(n.pod, n.client)]); }
    case _ => WeakerKeeps(s, Step(s, l));
  }

  lemma {:induction false} RunKeeps(s: State, ls: seq<Label>)
    requires Inv(s)
    ensures Inv(Run(s, ls))
    decreases |ls|
  {
    if ls != [] {
      StepKeeps(s, ls[0]);
      RunKeeps(Step(s, ls[0]), ls[1..]);
    }
  }

  // ---- what the design promises -----------------------------------------------------------

  /** In every reachable state at most one Conn, on any pod, holds a row's current token, and
      a non-null broker_id is the pod of that Conn. */
  lemma UniqueOwner(ls: seq<Label>, client: Client, k: ConnId, k': ConnId)
    requires var s := Run(Init, ls);
      client in s.sessions && k in s.conns && k' in s.conns
      && s.conns[k].token == s.sessions[client].token && s.conns[k'].token == s.sessions[client].token
    ensures var s := Run(Init, ls);
      k == k' && s.conns[k].client == client
      && (s.sessions[client].broker.Some? ==> s.sessions[client].broker.value == s.conns[k].pod)
  {
    RunKeeps(Init, ls);
    var s := Run(Init, ls);
    assert RowOk(client, s.sessions[client], s.conns, s.issued);
  }

  /** The session DELETE or UPDATE of a Conn has an effect exactly when its token is current:
      a superseded Conn changes no session row and deletes no delivery. */
  lemma DisconnectScoped(s: State, k: ConnId)
    requires Inv(s) && k in s.conns
    ensures var c := s.conns[k];
      && (Step(s, DisconnectDelete(k)).sessions != s.sessions <==> Current(s.sessions, c.client, c.token))
      && (!Current(s.sessions, c.client, c.token) ==>
            Step(s, DisconnectDelete(k)) == s && Step(s, DisconnectUpdate(k)) == s)
      && (Current(s.sessions, c.client, c.token) ==>
            && c.client !in Step(s, DisconnectDelete(k)).sessions
            && var t := Step(s, DisconnectUpdate(k));
               && t == s.(sessions := t.sessions) && c.client in t.sessions
               && t.sessions[c.client] == Session(None, c.token, false))
      && (Current(s.sessions, c.client, c.token) ==>
            forall id | id in s.dels :: id in Step(s, DisconnectDelete(k)).dels <==> s.dels[id] != c.client)
      && (forall d | d in s.sessions && d != c.client ::
            && d in Step(s, DisconnectDelete(k)).sessions && Step(s, DisconnectDelete(k)).sessions[d] == s.sessions[d]
            && d in Step(s, DisconnectUpdate(k)).sessions && Step(s, DisconnectUpdate(k)).sessions[d] == s.sessions[d])
  {
    var c := s.conns[k];
    if Current(s.sessions, c.client, c.token) {
      assert c.client in s.sessions && c.client !in Step(s, DisconnectDelete(k)).sessions;
    }
  }

  lemma IssuedStep(s: State, l: Label)
    ensures Step(s, l).issued
         == if l.TakeOwnership? && l.conn !in s.conns && l.token !in s.issued
            then s.issued[l.token := l.conn] else s.issued
  {
  }

  /** No step but a takeover writes a token, and a takeover writes one never issued. */
  lemma TokensFrame(s: State, l: Label, c: Client)
    requires c in Step(s, l).sessions
    ensures (c in s.sessions && Step(s, l).sessions[c].token == s.sessions[c].token)
      || (l.TakeOwnership? && l.token !in s.issued && Step(s, l).sessions[c].token == l.token)
  {
  }

  lemma RetiredStep(s: State, l: Label, t: Token)
    requires Retired(t, s.sessions, s.issued)
    ensures Retired(t, Step(s, l).sessions, Step(s, l).issued)
  {
    IssuedStep(s, l);
    forall c | c in Step(s, l).sessions ensures Step(s, l).sessions[c].token != t { TokensFrame(s, l, c); }
  }

  /** A superseded token is never again a current token. */
  lemma {:induction false} RetiredForever(s: State, ls: seq<Label>, t: Token)
    requires Inv(s) && Retired(t, s.sessions, s.issued)
    ensures Retired(t, Run(s, ls).sessions, Run(s, ls).issued)
    decreases |ls|
  {
    if ls != [] {
      StepKeeps(s, ls[0]);
      RetiredStep(s, ls[0], t);
      RetiredForever(Step(s, ls[0]), ls[1..], t);
    }
  }

  /** However late a takeover NOTIFY is dispatched, the Conn it closes is superseded. */
  lemma LateTakeoverHarmless(before: seq<Label>, after: seq<Label>, n: Notice, k: ConnId)
    requires n in Run(Init, before).notices
    ensures var s := Run(Run(Init, before), after);
      k in Step(s, DispatchTakeover(n)).closed && k !in s.closed ==>
        && k in s.conns && s.conns[k].token == n.token && s.conns[k].client == n.client
        && !Current(s.sessions, s.conns[k].client, s.conns[k].token)
  {
    RunKeeps(Init, before);
    var s0 := Run(Init, before);
    RunKeeps(s0, after);
    RetiredForever(s0, after, n.token);
    var s := Run(s0, after);
    if k in Step(s, DispatchTakeover(n)).closed && k !in s.closed {
      assert (n.pod, n.client) in s.registry && k == s.registry[(n.pod, n.client)];
    }
  }

  lemma ConnStep(s: State, l: Label, k: ConnId)
    requires k in s.conns
    ensures k in Step(s, l).conns && Step(s, l).conns[k] == s.conns[k]
    ensures s.notices <= Step(s, l).notices && s.kicks <= Step(s, l).kicks
  {
  }

  /** Conns keep what they were given, and a NOTIFY once sent can always be dispatched. */
  lemma {:induction false} ConnStays(s: State, ls: seq<Label>, k: ConnId)
    requires k in s.conns
    ensures k in Run(s, ls).conns && Run(s, ls).conns[k] == s.conns[k]
    ensures s.notices <= Run(s, ls).notices && s.kicks <= Run(s, ls).kicks
    decreases |ls|
  {
    if ls != [] {
      ConnStep(s, ls[0], k);
      ConnStays(Step(s, ls[0]), ls[1..], k);
    }
  }

  lemma CloseNamedCloses(s: State, k: ConnId, n: Notice)
    requires k in s.conns && s.conns[k].token == n.token
    requires (n.pod, n.client) in s.registry && s.registry[(n.pod, n.client)] == k
    ensures k in CloseNamed(s, n).closed && (n.pod, n.client) !in CloseNamed(s, n).registry
  {
  }

  /** The other half: the Conn k of client on its pod is current when k' takes over on another pod.
      Whatever happens before k' sends its NOTIFY and before that NOTIFY is dispatched, if k is still
      registered then, the dispatch closes it and takes it out of the registry. */
  lemma TakeoverCloses(s: State, k: ConnId, k': ConnId, pod': Pod, token': Token, mid: seq<Label>, after: seq<Label>)
    requires Inv(s) && k in s.conns && Current(s.sessions, s.conns[k].client, s.conns[k].token)
    requires s.sessions[s.conns[k].client].broker == Some(s.conns[k].pod)
    requires k' !in s.conns && token' !in s.issued && pod' != s.conns[k].pod
    ensures var c, at := s.conns[k], (s.conns[k].pod, s.conns[k].client);
      var s1 := Run(Step(s, TakeOwnership(k', pod', c.client, token')), mid);
      var t := Run(Step(s1, NotifyTakeover(k')), after);
      var n := Notice(c.pod, c.client, c.token);
      at in t.registry && t.registry[at] == k ==>
        k in Step(t, DispatchTakeover(n)).closed && at !in Step(t, DispatchTakeover(n)).registry
  {
    var c, at := s.conns[k], (s.conns[k].pod, s.conns[k].client);
    var s0 := Step(s, TakeOwnership(k', pod', c.client, token'));
    assert s0.conns[k'] == Conn(pod', c.client, token', Some((c.pod, c.token)));
    ConnStays(s0, mid, k');
    ConnStays(s0, mid, k);
    var s1 := Run(s0, mid);
    var s2 := Step(s1, NotifyTakeover(k'));
    var n := Notice(c.pod, c.client, c.token);
    assert n in s2.notices && s2.conns == s1.conns;
    ConnStays(s2, after, k);
    var t := Run(s2, after);
    if at in t.registry && t.registry[at] == k { CloseNamedCloses(t, k, n); }
  }

  /** And for the quota: if the Conn that owned the client at the lookup is still registered when the
      kick is dispatched, it is closed. */
  lemma QuotaKickCloses(s: State, k: ConnId, after: seq<Label>)
    requires Inv(s) && k in s.conns && Current(s.sessions, s.conns[k].client, s.conns[k].token)
    requires s.sessions[s.conns[k].client].connected && s.sessions[s.conns[k].client].broker == Some(s.conns[k].pod)
    ensures var c, at := s.conns[k], (s.conns[k].pod, s.conns[k].client);
      var t := Run(Step(s, QuotaRead(c.client)), after);
      var n := Notice(c.pod, c.client, c.token);
      at in t.registry && t.registry[at] == k ==>
        k in Step(t, DispatchQuota(n)).closed && at !in Step(t, DispatchQuota(n)).registry
  {
    var c, at := s.conns[k], (s.conns[k].pod, s.conns[k].client);
    var s1 := Step(s, QuotaRead(c.client));
    ConnStays(s1, after, k);
    var t, n := Run(s1, after), Notice(c.pod, c.client, c.token);
    if at in t.registry && t.registry[at] == k { CloseNamedCloses(t, k, n); }
  }

  lemma {:induction false} IssuedStays(s: State, ls: seq<Label>, t: Token)
    requires t in s.issued
    ensures t in Run(s, ls).issued && Run(s, ls).issued[t] == s.issued[t]
    decreases |ls|
  {
    if ls != [] {
      IssuedStep(s, ls[0]);
      IssuedStays(Step(s, ls[0]), ls[1..], t);
    }
  }

  /** A quota kick, however late, closes only the Conn that owned the client when the overflow was
      looked up, never one that took the session over since. */
  lemma QuotaKickScoped(before: seq<Label>, client: Client, after: seq<Label>, k: ConnId)
    requires var s0 := Run(Init, before);
      && client in s0.sessions && s0.sessions[client].connected && s0.sessions[client].broker.Some?
      && var n := Notice(s0.sessions[client].broker.value, client, s0.sessions[client].token);
         var s := Run(Step(s0, QuotaRead(client)), after);
         k in Step(s, DispatchQuota(n)).closed && k !in s.closed
    ensures var s0 := Run(Init, before);
      k in s0.conns && s0.conns[k].client == client && s0.conns[k].token == s0.sessions[client].token
  {
    RunKeeps(Init, before);
    var s0 := Run(Init, before);
    var token := s0.sessions[client].token;
    assert RowOk(client, s0.sessions[client], s0.conns, s0.issued);
    var s1 := Step(s0, QuotaRead(client));
    StepKeeps(s0, QuotaRead(client));
    RunKeeps(s1, after);
    IssuedStays(s1, after, token);
  }

  lemma LockStays(s: State, l: Label, pod: Pod)
    requires pod in s.locks && s.locks[pod] == Own && l != Unlock(pod)
    ensures pod in Step(s, l).locks && Step(s, l).locks[pod] == Own
  {
  }

  /** As long as a broker's own session keeps its lock, no janitor can reap that broker, now or after
      any run: the reap changes nothing at all. */
  lemma {:induction false} OwnLockShields(s: State, ls: seq<Label>, pod: Pod, j: int)
    requires pod in s.locks && s.locks[pod] == Own && forall i | 0 <= i < |ls| :: ls[i] != Unlock(pod)
    ensures Step(Run(s, ls), Reap(pod, j)) == Run(s, ls)
    decreases |ls|
  {
    if ls != [] {
      LockStays(s, ls[0], pod);
      OwnLockShields(Step(s, ls[0]), ls[1..], pod, j);
    }
  }

  lemma RunThree(s: State, a: Label, b: Label, c: Label)
    ensures Run(s, [a, b, c]) == Step(Step(Step(s, a), b), c)
  {
    assert [a, b, c][1..] == [b, c] && [b, c][1..] == [c] && [c][1..] == [];
    assert Run(Step(Step(s, a), b), [c]) == Step(Step(Step(s, a), b), c);
    assert Run(Step(s, a), [b, c]) == Run(Step(Step(s, a), b), [c]);
  }

  /** What a reap does: a janitor that finds the lock of a pod free detaches exactly the rows that name
      that pod, keeps their tokens, and gives the lock back.  A pod that shuts down does the same to its
      own rows. */
  lemma ReapExactly(s: State, pod: Pod, j: int, c: Client)
    requires pod !in s.locks
    ensures var t := Run(s, [Lock(pod, Janitor(j)), Reap(pod, j), Unlock(pod)]);
      && t == s.(sessions := t.sessions) && t == Step(s, PodShutdown(pod))
      && t.sessions.Keys == s.sessions.Keys
      && (c in s.sessions ==>
            t.sessions[c] == if s.sessions[c].broker == Some(pod) then Session(None, s.sessions[c].token, false)
                             else s.sessions[c])
  {
    RunThree(s, Lock(pod, Janitor(j)), Reap(pod, j), Unlock(pod));
    var s1 := s.(locks := s.locks[pod := Janitor(j)]);
    assert Step(s, Lock(pod, Janitor(j))) == s1;
    var s2 := s1.(sessions := DetachPod(s.sessions, pod));
    assert Step(s1, Reap(pod, j)) == s2;
    assert s1.locks - {pod} == s.locks;
  }

  /** A connected session does not expire; another one goes with all its deliveries and nothing else,
      and a clean start takes the client's deliveries and nothing else. */
  lemma PurgeExactly(s: State, c: Client, id: int, d: Client)
    requires id !in s.dels
    ensures var t := Step(s, Deliver(id, d));
      && t == s.(dels := s.dels[id := d])
      && (id in Step(t, CleanStart(c)).dels <==> c != d)
      && Step(t, CleanStart(c)) == t.(dels := Step(t, CleanStart(c)).dels)
      && (forall x | x in s.dels :: x in Step(t, CleanStart(c)).dels <==> s.dels[x] != c)
      && (c in s.sessions && s.sessions[c].connected ==> Step(t, Expire(c)) == t)
      && (c in s.sessions && !s.sessions[c].connected ==>
            Step(t, Expire(c)) == t.(sessions := s.sessions - {c}, dels := Step(t, CleanStart(c)).dels))
  {
  }

  /** From any reachable state, however reaped, one attestation restores exactly the rows
      whose token a Conn registered on this pod holds, and alters no other row. */
  lemma AttestHeals(s: State, pod: Pod, c: Client)
    requires Inv(s) && c in s.sessions
    ensures var t := Step(Step(s, AttestRead(pod)), AttestWrite(Snapshot(pod, Registered(s, pod))));
      && t.sessions.Keys == s.sessions.Keys
      && t.sessions[c].token == s.sessions[c].token
      && var mine := (pod, c) in s.registry && s.conns[s.registry[(pod, c)]].token == s.sessions[c].token;
         t.sessions[c] == if mine then Session(Some(pod), s.sessions[c].token, true) else s.sessions[c]
  {
    var t := Step(Step(s, AttestRead(pod)), AttestWrite(Snapshot(pod, Registered(s, pod))));
    var a := (pod, c);
    if (c, s.sessions[c].token) in Registered(s, pod) {
      var a' :| a' in s.registry && a'.0 == pod && s.conns[s.registry[a']].client == c
                && s.conns[s.registry[a']].token == s.sessions[c].token;
      assert a' == a;
    } else if a in s.registry {
      assert (s.conns[s.registry[a]].client, s.conns[s.registry[a]].token) in Registered(s, pod);
    }
  }

  // ---- the code, in its own form ------------------------------------------------------------

  /** The sessions and deliveries tables as the engine's transactions change them. */
  class Tables {
    var sessions: Sessions
    var dels: Deliveries

    /** takeOwnership: SELECT ... FOR UPDATE, then UPDATE or INSERT with a fresh token. */
    method Take(client: Client, self: Pod, next: Token) returns (prev: Option<(Pod, Token)>, isNew: bool)
      modifies this
      ensures sessions == Upsert(old(sessions), client, self, next) && dels == old(dels)
      ensures isNew <==> client !in old(sessions)
      ensures prev.Some? <==> client in old(sessions) && old(sessions)[client].broker.Some?
      ensures prev.Some? ==> prev.value == (old(sessions)[client].broker.value, old(sessions)[client].token)
    {
      prev := None;
      isNew := client !in sessions;
      if isNew {
        sessions := sessions[client := Session(Some(self), next, true)];
      } else {
        var row := sessions[client];
        if row.broker.Some? { prev := Some((row.broker.value, row.token)); }
        sessions := sessions[client := row.(broker := Some(self), token := next, connected := true)];
      }
    }

    /** The clean-session branch of handleDisconnect: two DELETEs in one transaction, rolled
        back when the token-scoped one matches no row. */
    method CleanDisconnect(client: Client, token: Token) returns (committed: bool)
      modifies this
      ensures committed <==> Current(old(sessions), client, token)
      ensures sessions == GuardedDelete(old(sessions), client, token)
      ensures dels == GuardedPurge(old(sessions), old(dels), client, token)
    {
      var before := sessions;
      sessions := map c | c in sessions && !(c == client && sessions[c].token == token) :: sessions[c];
      committed := |before| != |sessions|;
      assert !Current(before, client, token) ==> sessions == before;
      assert Current(before, client, token) ==>
        sessions == before - {client} && |before - {client}| == |before| - 1 by
      {
        assert (before - {client}).Keys == before.Keys - {client};
      }
      if committed {
        dels := Purge(dels, client);
      } else {
        sessions := before;
      }
    }

    /** The persistent-session branch of handleDisconnect. */
    method MarkDisconnected(client: Client, token: Token)
      modifies this`sessions
      ensures sessions == GuardedDetach(old(sessions), client, token)
    {
      sessions := map c | c in sessions ::
        if c == client && sessions[c].token == token then sessions[c].(broker := None, connected := false)
        else sessions[c];
    }
  }

  /** The part of the registry that one pod keeps in its conns map. */
  function Local(registry: map<(Pod, Client), ConnId>, pod: Pod): map<Client, ConnId> {
    map a | a in registry && a.0 == pod :: a.1 := registry[a]
  }

  lemma LocalAt(registry: map<(Pod, Client), ConnId>, pod: Pod, c: Client)
    ensures c in Local(registry, pod) <==> (pod, c) in registry
    ensures (pod, c) in registry ==> Local(registry, pod)[c] == registry[(pod, c)]
  {
    if (pod, c) in registry { assert (pod, c).1 == c; }
  }

  lemma LocalPut(registry: map<(Pod, Client), ConnId>, pod: Pod, client: Client, k: ConnId)
    ensures Local(registry[(pod, client) := k], pod) == Local(registry, pod)[client := k]
  {
    var after, want := registry[(pod, client) := k], Local(registry, pod)[client := k];
    forall c ensures c in Local(after, pod) <==> c in want { LocalAt(after, pod, c); LocalAt(registry, pod, c); }
    forall c | c in want ensures Local(after, pod)[c] == want[c] { LocalAt(after, pod, c); LocalAt(registry, pod, c); }
  }

  lemma LocalRegister(s: State, pod: Pod, k: ConnId)
    requires k in s.conns && s.conns[k].pod == pod
    ensures Local(Step(s, Register(k)).registry, pod) == Local(s.registry, pod)[s.conns[k].client := k]
  {
    LocalPut(s.registry, pod, s.conns[k].client, k);
  }

  lemma LocalClose(s: State, pod: Pod, k: ConnId)
    requires RegistryOk(s.registry, s.conns) && k in s.conns && s.conns[k].pod == pod
    ensures var before, c := Local(s.registry, pod), s.conns[k].client;
      Local(Close(s, k).registry, pod) == if c in before && before[c] == k then before - {c} else before
  {
    var before, c := Local(s.registry, pod), s.conns[k].client;
    var after := Local(Close(s, k).registry, pod);
    var want := if c in before && before[c] == k then before - {c} else before;
    forall x ensures x in after <==> x in want {
      LocalAt(Close(s, k).registry, pod, x);
      LocalAt(s.registry, pod, x);
      LocalAt(s.registry, pod, c);
    }
    forall x | x in want ensures after[x] == want[x] {
      LocalAt(Close(s, k).registry, pod, x);
      LocalAt(s.registry, pod, x);
    }
  }

  /** The in-memory conns map of one engine.  `s` is the state of the whole system before a call: on
      this pod's part of the registry the methods do what the machine's steps do. */
  class Engine {
    const pod: Pod
    var conns: map<Client, ConnId>

    constructor (self: Pod)
      ensures pod == self && conns == Local(Init.registry, self)
    {
      pod, conns := self, map[];
    }

    /** k is a Conn of this pod for this client, in a state that this map is part of. */
    ghost predicate Tracks(s: State, client: Client, k: ConnId) reads this {
      Inv(s) && conns == Local(s.registry, pod) && k in s.conns && s.conns[k].pod == pod && s.conns[k].client == client
    }

    /** registerConn: the displaced Conn, if any, is the one the machine closes. */
    method RegisterConn(client: Client, k: ConnId, ghost s: State) returns (prev: Option<ConnId>)
      requires Tracks(s, client, k)
      modifies this`conns
      ensures conns == Local(Step(s, Register(k)).registry, pod)
      ensures prev == if (pod, client) in s.registry then Some(s.registry[(pod, client)]) else None
      ensures prev.Some? && prev.value != k ==> prev.value in Step(s, Register(k)).closed
    {
      prev := if client in conns then Some(conns[client]) else None;
      LocalAt(s.registry, pod, client);
      LocalRegister(s, pod, k);
      conns := conns[client := k];
    }

    /** unregisterConnIfSame, as shutdown calls it. */
    method UnregisterConnIfSame(client: Client, k: ConnId, ghost s: State)
      requires Tracks(s, client, k)
      modifies this`conns
      ensures conns == Local(Close(s, k).registry, pod)
    {
      LocalClose(s, pod, k);
      if client in conns && conns[client] == k { conns := conns - {client}; }
    }

    /** The registration in handleConnect: the Conn it displaces is shut down, which runs
        unregisterConnIfSame after the fact; the newcomer stays registered. */
    method TakeOver(client: Client, k: ConnId, ghost s: State)
      requires Tracks(s, client, k) && (client in conns ==> conns[client] != k)
      modifies this`conns
      ensures client in conns && conns[client] == k
      ensures conns == Local(Step(s, Register(k)).registry, pod)
    {
      LocalAt(s.registry, pod, client);
      var prev := RegisterConn(client, k, s);
      LocalRegister(s, pod, k);
      if prev.Some? {
        StepKeeps(s, Register(k));
        ghost var next := Step(s, Register(k));
        assert prev.value in s.conns && s.conns[prev.value].pod == pod && s.conns[prev.value].client == client;
        UnregisterConnIfSame(client, prev.value, next);
        LocalClose(next, pod, prev.value);
      }
    }
  }
}
