/** The User reconciler during a lease handoff: any number of managers race to create or
    update the auto-generated credentials Secret of one User, then write the users row.
    Reads come from a cache and may be arbitrarily stale; writes carry a resource version and
    fail on conflict.  Nobody else writes the Secret or the row. */
module Operator {
  import opened Prelude

  type Manager = int
  type Password = string

  /** The Secret's data that depends on the password. */
  datatype Secret = Secret(password: Password, uri: Password)

  /** bcrypt and SHA-256 are ideal: a hash verifies, or equals, only for its own password. */
  datatype Hash = Hash(of: Password, cost: int)

  predicate Verifies(h: Hash, p: Password) { h.of == p }

  /** A manager inside Reconcile. */
  datatype Pc =
    | Ready(candidate: Password)
    | Read(candidate: Password, seen: Option<nat>)
    | Merged
    | Resolved(password: Password)
    | Upserted(password: Password)

  /** `versions`: every version of the Secret, oldest first; `users`: the row of this user;
      `observed`: status.observedSecretHash. */
  datatype State = State(versions: seq<Secret>, users: Option<Hash>, observed: Option<Password>, pcs: map<Manager, Pc>)

  datatype Label =
    | Start(m: Manager, candidate: Password)
    | Get(m: Manager, version: Option<nat>)
    | Commit(m: Manager)
    | ReGet(m: Manager, version: Option<nat>)
    | ShortCircuit(m: Manager, cost: int)
    | Upsert(m: Manager, cost: int)
    | Patch(m: Manager)
    | Fail(m: Manager)

  /** The MutateFn of CreateOrUpdate: an existing password is preserved. */
  function Mutate(prior: Secret, candidate: Password): Secret {
    var p := if prior.password == "" then candidate else prior.password;
    Secret(p, p)
  }

  function Step(s: State, l: Label): State {
    match l
    case Start(m, candidate) =>
      if m in s.pcs || candidate == "" then s else s.(pcs := s.pcs[m := Ready(candidate)])
    case Get(m, v) =>
      if m !in s.pcs || !s.pcs[m].Ready? || (v.Some? && v.value >= |s.versions|) then s
      else s.(pcs := s.pcs[m := Read(s.pcs[m].candidate, v)])
    case Commit(m) =>
      if m !in s.pcs || !s.pcs[m].Read? then s
      else
        var pc := s.pcs[m];
        if pc.seen == None then
          if s.versions == [] then s.(versions := [Mutate(Secret("", ""), pc.candidate)], pcs := s.pcs[m := Merged])
          else s.(pcs := s.pcs - {m})
        else if pc.seen.value >= |s.versions| then s
        else
          var prior := s.versions[pc.seen.value];
          var merged := Mutate(prior, pc.candidate);
          if merged == prior then s.(pcs := s.pcs[m := Merged])
          else if pc.seen.value == |s.versions| - 1 then
            s.(versions := s.versions + [merged], pcs := s.pcs[m := Merged])
          else s.(pcs := s.pcs - {m})
    case ReGet(m, v) =>
      if m !in s.pcs || !s.pcs[m].Merged? || (v.Some? && v.value >= |s.versions|) then s
      else if v == None || s.versions[v.value].password == "" then s.(pcs := s.pcs - {m})
      else s.(pcs := s.pcs[m := Resolved(s.versions[v.value].password)])
    case ShortCircuit(m, cost) =>
      if m in s.pcs && s.pcs[m].Resolved? && s.observed == Some(s.pcs[m].password)
         && s.users.Some? && s.users.value.cost >= cost
      then s.(pcs := s.pcs - {m}) else s
    case Upsert(m, cost) =>
      if m in s.pcs && s.pcs[m].Resolved?
      then s.(users := Some(Hash(s.pcs[m].password, cost)), pcs := s.pcs[m := Upserted(s.pcs[m].password)]) else s
    case Patch(m) =>
      if m in s.pcs && s.pcs[m].Upserted?
      then s.(observed := Some(s.pcs[m].password), pcs := s.pcs - {m}) else s
    case Fail(m) => s.(pcs := s.pcs - {m})
  }

  function Run(s: State, ls: seq<Label>): State
    decreases |ls|
  {
    if ls == [] then s else Run(Step(s, ls[0]), ls[1..])
  }

  /** Once a version has a password, every later one has the same. */
  ghost predicate Settled(versions: seq<Secret>) {
    forall i, j | 0 <= i < j < |versions| && versions[i].password != "" :: versions[j].password == versions[i].password
  }

  /** p is the password that won. */
  ghost predicate Won(versions: seq<Secret>, p: Password) {
    p != "" && versions != [] && versions[|versions| - 1].password == p
  }

  ghost predicate PcOk(pc: Pc, versions: seq<Secret>) {
    match pc
    case Ready(c) => c != ""
    case Read(c, v) => c != "" && (v.Some? ==> v.value < |versions|)
    case Merged => true
    case Resolved(p) => Won(versions, p)
    case Upserted(p) => Won(versions, p)
  }

  ghost predicate Inv(s: State) {
    && Settled(s.versions)
    && (forall i | 1 <= i < |s.versions| :: s.versions[i].password != "" && s.versions[i].uri == s.versions[i].password)
    && (forall m | m in s.pcs :: PcOk(s.pcs[m], s.versions))
    && (s.users.Some? ==> exists p :: Won(s.versions, p) && Verifies(s.users.value, p))
    && (s.observed.Some? ==> Won(s.versions, s.observed.value) && s.users.Some?)
    && (forall m | m in s.pcs && s.pcs[m].Upserted? :: s.users.Some?)
  }

  lemma WonStays(versions: seq<Secret>, next: Secret, p: Password)
    requires Settled(versions + [next]) && Won(versions, p)
    ensures Won(versions + [next], p)
  {
    var v := versions + [next];
    assert v[|versions| - 1] == versions[|versions| - 1] && v[|versions|] == next;
  }

  lemma CommitKeeps(s: State, l: Label)
    requires l.Commit? && Inv(s)
    ensures Inv(Step(s, l))
  {
    var s' := Step(s, l);
    if s'.versions != s.versions {
      if s.versions == [] {
        assert forall p :: !Won(s.versions, p);
      } else {
        var next := s'.versions[|s.versions|];
        assert s'.versions == s.versions + [next] && Settled(s'.versions);
        forall p | Won(s.versions, p) ensures Won(s'.versions, p) { WonStays(s.versions, next, p); }
      }
      forall m | m in s'.pcs ensures PcOk(s'.pcs[m], s'.versions) { assert m != l.m ==> PcOk(s.pcs[m], s.versions); }
    }
  }

  lemma StepKeeps(s: State, l: Label)
    requires Inv(s)
    ensures Inv(Step(s, l))
  {
    var s' := Step(s, l);
    match l
    case Commit(_) => CommitKeeps(s, l);
    case ReGet(m, v) =>
      if s' != s && m in s'.pcs {
        var p := s.versions[v.value].password;
        var last := |s.versions| - 1;
        assert Won(s.versions, p) by { assert v.value == last || s.versions[last].password == p; }
      }
    case Upsert(m, cost) =>
      if s' != s { assert PcOk(s.pcs[m], s.versions) && Verifies(s'.users.value, s.pcs[m].password); }
    case Patch(m) =>
      if s' != s { assert PcOk(s.pcs[m], s.versions); }
    case _ =>
  }

  lemma {:induction false} RunKeeps(s: State, ls: seq<Label>)
    requires Inv(s)
    ensures Inv(Run(s, ls))
    ensures s.versions <= Run(s, ls).versions
    decreases |ls|
  {
    if ls != [] {
      StepKeeps(s, ls[0]);
      assert s.versions <= Step(s, ls[0]).versions;
      RunKeeps(Step(s, ls[0]), ls[1..]);
    }
  }

  /** A fresh User: the Secret absent or created by someone else, no row, no status. */
  predicate Initial(s: State) { |s.versions| <= 1 && s.users == None && s.observed == None && s.pcs == map[] }

  /** Once the Secret has a non-empty password no manager changes it. */
  lemma PasswordStable(s: State, before: seq<Label>, after: seq<Label>)
    requires Initial(s)
    requires var t := Run(s, before); t.versions != [] && t.versions[|t.versions| - 1].password != ""
    ensures var t, u := Run(s, before), Run(Run(s, before), after);
      u.versions != [] && u.versions[|u.versions| - 1].password == t.versions[|t.versions| - 1].password
  {
    RunKeeps(s, before);
    RunKeeps(Run(s, before), after);
  }

  /** Whatever the managers interleave, the users row always verifies the Secret's password,
      and a reported success means that such a row exists. */
  lemma RowVerifiesSecret(s: State, ls: seq<Label>)
    requires Initial(s)
    ensures var t := Run(s, ls);
      && (t.users.Some? ==> t.versions != [] && t.versions[|t.versions| - 1].password != ""
                            && Verifies(t.users.value, t.versions[|t.versions| - 1].password))
      && (t.observed.Some? ==> t.users.Some? && t.observed.value == t.versions[|t.versions| - 1].password)
  {
    RunKeeps(s, ls);
  }

  lemma {:induction false} RunAppend(s: State, a: seq<Label>, b: seq<Label>)
    ensures Run(s, a + b) == Run(Run(s, a), b)
    decreases |a|
  {
    if a == [] {
      assert a + b == b;
    } else {
      assert (a + b)[0] == a[0] && (a + b)[1..] == a[1..] + b;
      RunAppend(Step(s, a[0]), a[1..], b);
    }
  }

  lemma RunThree(s: State, a: Label, b: Label, c: Label)
    ensures Run(s, [a, b, c]) == Step(Step(Step(s, a), b), c)
  {
    assert [a, b, c][1..] == [b, c] && [b, c][1..] == [c] && [c][1..] == [];
    assert Run(Step(Step(s, a), b), [c]) == Step(Step(Step(s, a), b), c);
    assert Run(Step(s, a), [b, c]) == Run(Step(Step(s, a), b), [c]);
  }

  function Latest(s: State): Option<nat> { if s.versions == [] then None else Some(|s.versions| - 1) }

  /** A pass that reads the latest Secret commits one with a password: the one there, or its own. */
  lemma Committed(s: State, m: Manager, candidate: Password)
    requires m !in s.pcs && candidate != ""
    ensures var t := Run(s, [Start(m, candidate), Get(m, Latest(s)), Commit(m)]);
      && t.versions != [] && t.pcs == s.pcs[m := Merged] && t.users == s.users && t.observed == s.observed
      && var prior := if s.versions == [] then "" else s.versions[|s.versions| - 1].password;
         var last := t.versions[|t.versions| - 1];
         last.password == (if prior == "" then candidate else prior) && last.uri == last.password
  {
    RunThree(s, Start(m, candidate), Get(m, Latest(s)), Commit(m));
    var s2 := Step(Step(s, Start(m, candidate)), Get(m, Latest(s)));
    assert s2 == s.(pcs := s.pcs[m := Read(candidate, Latest(s))]);
    assert s.pcs[m := Read(candidate, Latest(s))][m := Merged] == s.pcs[m := Merged];
  }

  /** Convergence: from every reachable state a manager that reads fresh data and is not disturbed
      finishes with a users row that verifies the Secret's password and a status that says so. */
  lemma UndisturbedPassConverges(s: State, m: Manager, candidate: Password, cost: int) returns (ls: seq<Label>)
    requires m !in s.pcs && candidate != ""
    ensures var t := Run(s, ls);
      && t.versions != [] && t.pcs == s.pcs
      && var p := t.versions[|t.versions| - 1].password;
         p != "" && t.users == Some(Hash(p, cost)) && Verifies(t.users.value, p) && t.observed == Some(p)
  {
    var a := [Start(m, candidate), Get(m, Latest(s)), Commit(m)];
    Committed(s, m, candidate);
    var s1 := Run(s, a);
    var v := |s1.versions| - 1;
    var b := [ReGet(m, Some(v)), Upsert(m, cost), Patch(m)];
    RunThree(s1, ReGet(m, Some(v)), Upsert(m, cost), Patch(m));
    var s2 := Step(s1, ReGet(m, Some(v)));
    assert s2 == s1.(pcs := s1.pcs[m := Resolved(s1.versions[v].password)]);
    ls := a + b;
    RunAppend(s, a, b);
    assert Run(s1, b).pcs == s.pcs;
  }

  /** The same from whatever point a manager has reached: it fails, starts again and converges. */
  lemma AlwaysConverges(s: State, m: Manager, candidate: Password, cost: int) returns (ls: seq<Label>)
    requires candidate != ""
    ensures var t := Run(s, ls);
      && t.versions != [] && t.pcs == s.pcs - {m}
      && var p := t.versions[|t.versions| - 1].password;
         p != "" && t.users == Some(Hash(p, cost)) && t.observed == Some(p)
  {
    var s1 := Step(s, Fail(m));
    var rest := UndisturbedPassConverges(s1, m, candidate, cost);
    ls := [Fail(m)] + rest;
    assert ls[1..] == rest;
  }

  /** Optimistic concurrency: a commit on anything but the latest version leaves the Secret alone, and
      unless there was nothing to write it ends the pass; on the latest version it keeps a password that
      is there. */
  lemma CommitExactly(s: State, m: Manager)
    requires m in s.pcs && s.pcs[m].Read? && (s.pcs[m].seen.Some? ==> s.pcs[m].seen.value < |s.versions|)
    ensures var t, pc := Step(s, Commit(m)), s.pcs[m];
      && (pc.seen != Latest(s) ==> t.versions == s.versions)
      && (pc.seen == None && s.versions != [] ==> m !in t.pcs)
      && (pc.seen.Some? && pc.seen != Latest(s) ==>
            var prior := s.versions[pc.seen.value];
            m in t.pcs <==> prior.password == prior.uri && (prior.password == "" ==> pc.candidate == ""))
      && (pc.seen == Latest(s) ==> m in t.pcs && t.pcs[m] == Merged && t.versions != [])
      && (pc.seen == Latest(s) && s.versions != [] && s.versions[|s.versions| - 1].password != "" ==>
            t.versions[|t.versions| - 1].password == s.versions[|s.versions| - 1].password)
  {
  }

  /** A pass is cut short exactly when the status reports this password and a row of sufficient cost is
      there; that row verifies the password.  A Secret that is missing or empty on the second read ends
      the pass without a row. */
  lemma CutShort(s: State, m: Manager, cost: int, v: Option<nat>)
    requires Inv(s) && m in s.pcs
    ensures var t := Step(s, ShortCircuit(m, cost));
      && (m !in t.pcs <==>
            && s.pcs[m].Resolved? && s.observed == Some(s.pcs[m].password)
            && s.users.Some? && s.users.value.cost >= cost)
      && t == s.(pcs := t.pcs)
      && (m !in t.pcs ==> Verifies(s.users.value, s.pcs[m].password))
    ensures s.pcs[m].Merged? && (v == None || (v.value < |s.versions| && s.versions[v.value].password == "")) ==>
      Step(s, ReGet(m, v)) == s.(pcs := s.pcs - {m})
  {
    if s.pcs[m].Resolved? && s.users.Some? {
      assert PcOk(s.pcs[m], s.versions);
    }
  }
}
