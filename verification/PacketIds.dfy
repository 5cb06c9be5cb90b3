/** Outbound packet-id allocation: the uint32 counter, its map into 1..65535, the MAX seed and the
    eight-try loop. */
module PacketIds {
  import opened Prelude

  const WORD := 0x1_0000_0000
  const TRIES := 8

  /** The id made of the counter value v (already incremented, modulo 2^32); v - 1 wraps too. */
  function IdOf(v: int): int { (v - 1) % WORD % 65535 + 1 }

  /** The k-th candidate (k >= 1) of a counter at `state`. */
  function Candidate(state: int, k: int): (id: int)
    ensures 1 <= id <= 65535
  {
    IdOf((state + k) % WORD)
  }

  /** The counter value stored by the seeding query: MAX(packet_id), clamped. */
  function Seed(max: Option<int>): (v: int)
    ensures 0 <= v <= 65535
  {
    match max
    case None => 0
    case Some(s) => if s < 0 then 0 else if s > 65535 then 65535 else s
  }

  /** 2^32 - 1 is a multiple of 65535, so the cycle runs on, one turn of the counter long. */
  lemma CandidateAt(state: int, k: int)
    requires 0 <= state < WORD && 1 <= k && state + k <= WORD
    ensures Candidate(state, k) == (state + k - 1) % 65535 + 1
  {
    if state + k == WORD {
      assert (state + k) % WORD == 0;
      assert (0 - 1) % WORD == WORD - 1;
    } else {
      assert (state + k) % WORD == state + k;
      assert (state + k - 1) % WORD == state + k - 1;
    }
  }

  lemma ResiduesDiffer(a: int, b: int)
    requires a < b < a + 65535
    ensures a % 65535 != b % 65535
  {
    var d := b / 65535 - a / 65535;
    assert b - a == 65535 * d + (b % 65535 - a % 65535);
  }

  lemma CandidatesDiffer(state: int, i: int, j: int)
    requires 0 <= state < WORD && 1 <= i < j < i + 65535 && state + j <= WORD
    ensures Candidate(state, i) != Candidate(state, j)
  {
    CandidateAt(state, i);
    CandidateAt(state, j);
    ResiduesDiffer(state + i - 1, state + j - 1);
  }

  /** Every id comes up exactly once. */
  ghost predicate Permutes(state: int) {
    && (forall i, j :: 1 <= i < j <= 65535 ==> Candidate(state, i) != Candidate(state, j))
    && (forall id :: 1 <= id <= 65535 ==> Occurs(state, id))
  }

  ghost predicate Occurs(state: int, id: int) { exists k :: 1 <= k <= 65535 && Candidate(state, k) == id }

  /** The position of an id within the next 65535 candidates. */
  function Position(state: int, id: int): int { (id - 1 - state) % 65535 + 1 }

  lemma PositionFinds(state: int, id: int)
    requires 0 <= state && state + 65535 <= WORD && 1 <= id <= 65535
    ensures var k := Position(state, id); 1 <= k <= 65535 && Candidate(state, k) == id
  {
    var k := Position(state, id);
    CandidateAt(state, k);
    var q := (id - 1 - state) / 65535;
    assert state + k - 1 == id - 1 - 65535 * q;
    Residue(id - 1, -q);
  }

  lemma Residue(r: int, q: int)
    requires 0 <= r < 65535
    ensures (r + 65535 * q) % 65535 == r
  {
  }

  /** The next 65535 candidates are a permutation of 1..65535 exactly when they do not cross the
      wrap of the counter. */
  lemma CycleIsPermutation(state: int)
    requires 0 <= state < WORD
    ensures Permutes(state) <==> state + 65535 <= WORD
  {
    if state + 65535 <= WORD {
      forall i, j | 1 <= i < j <= 65535 ensures Candidate(state, i) != Candidate(state, j) {
        CandidatesDiffer(state, i, j);
      }
      forall id | 1 <= id <= 65535 ensures Occurs(state, id) {
        PositionFinds(state, id);
      }
    } else {
      WrapRepeats(state);
      var k := WORD - state;
      assert 1 <= k < k + 1 <= 65535 && Candidate(state, k) == Candidate(state, k + 1);
    }
  }

  /** At the wrap the counter values 0 and 1 follow each other, and both give id 1. */
  lemma WrapRepeats(state: int)
    requires 0 <= state < WORD
    ensures Candidate(state, WORD - state) == 1 == Candidate(state, WORD - state + 1)
  {
    assert (0 - 1) % WORD == WORD - 1;
    assert (state + (WORD - state)) % WORD == 0;
    assert (state + (WORD - state + 1)) % WORD == 1;
  }

  /** max is the MAX(packet_id) over the ids in use. */
  ghost predicate IsMax(max: Option<int>, used: set<int>) {
    match max
    case None => used == {}
    case Some(m) => m in used && forall x :: x in used ==> x <= m
  }

  /** The first candidate after seeding is free, except when 65535 and 1 are both taken. */
  lemma FirstCandidateFree(used: set<int>, max: Option<int>)
    requires (forall x :: x in used ==> 1 <= x <= 65535) && IsMax(max, used)
    ensures Candidate(Seed(max), 1) !in used <==> !(65535 in used && 1 in used)
  {
    CandidateAt(Seed(max), 1);
  }

  // ---------- the allocation loop ----------

  datatype Failure = SeedFailed | QueryFailed | Exhausted

  /** What the i-th existence check saw: the ids of the client's rows, or a database error. */
  datatype View = Ids(used: set<int>) | Broken

  /** What eight checks over the given views decide, from the i-th on. */
  function Search(state: int, views: seq<View>, i: nat): (r: Result<int, Failure>)
    requires |views| == TRIES && i <= TRIES
    decreases TRIES - i
  {
    if i == TRIES then Err(Exhausted)
    else if views[i].Broken? then Err(QueryFailed)
    else if Candidate(state, i + 1) in views[i].used then Search(state, views, i + 1)
    else Ok(Candidate(state, i + 1))
  }

  class Conn {
    var seeded: bool
    var state: int

    ghost predicate Valid() reads this { 0 <= state < WORD }

    constructor ()
      ensures Valid() && !seeded && state == 0
    {
      seeded, state := false, 0;
    }

    /** ensurePacketIDSeeded; `max` is the query's answer, Err a database error. */
    method EnsureSeeded(max: Result<Option<int>, ()>) returns (ok: bool)
      requires Valid()
      modifies this
      ensures Valid()
      ensures ok == (old(seeded) || max.Ok?) && seeded == ok
      ensures state == if !old(seeded) && max.Ok? then Seed(max.value) else old(state)
    {
      if seeded { return true; }
      if max.Err? { return false; }
      var v := 0;
      if max.value.Some? {
        var s := max.value.value;
        if s < 0 { s := 0; }
        if s > 65535 { s := 65535; }
        v := s;
      }
      state, seeded := v, true;
      return true;
    }

    /** nextPacketIDCandidate. */
    method NextCandidate() returns (id: int)
      requires Valid()
      modifies this`state
      ensures Valid() && state == (old(state) + 1) % WORD && id == Candidate(old(state), 1)
    {
      state := (state + 1) % WORD;
      id := IdOf(state);
    }

    /** AllocPacketID. */
    method Alloc(max: Result<Option<int>, ()>, views: seq<View>) returns (r: Result<int, Failure>)
      requires Valid() && |views| == TRIES
      modifies this
      ensures Valid()
      ensures !old(seeded) && max.Err? ==> r == Err(SeedFailed) && state == old(state) && !seeded
      ensures old(seeded) || max.Ok? ==>
        && seeded
        && r == Search(if old(seeded) then old(state) else Seed(max.value), views, 0)
        && (r.Ok? ==> IdOf(state) == r.value)
        && (r == Err(Exhausted) ==> state == ((if old(seeded) then old(state) else Seed(max.value)) + TRIES) % WORD)
    {
      var ok := EnsureSeeded(max);
      if !ok { return Err(SeedFailed); }
      ghost var from := state;
      for i := 0 to TRIES
        invariant seeded && state == (from + i) % WORD
        invariant Search(from, views, 0) == Search(from, views, i)
      {
        SumMod(from, i);
        var id := NextCandidate();
        if views[i].Broken? { return Err(QueryFailed); }
        if id !in views[i].used { return Ok(id); }
      }
      return Err(Exhausted);
    }
  }

  lemma SumMod(a: int, i: int)
    ensures ((a + i) % WORD + 1) % WORD == (a + (i + 1)) % WORD
  {
    var q := (a + i) / WORD;
    assert a + i == WORD * q + (a + i) % WORD;
  }

  /** The ids seen in use by the checks up to the n-th. */
  function Seen(views: seq<View>, n: nat): set<int>
    requires n <= |views|
  {
    if n == 0 then {} else Seen(views, n - 1) + if views[n - 1].Ids? then views[n - 1].used else {}
  }

  function Candidates(state: int, n: nat): set<int> {
    if n == 0 then {} else Candidates(state, n - 1) + {Candidate(state, n)}
  }

  lemma {:induction false} CandidatesAre(state: int, n: nat, id: int)
    requires id in Candidates(state, n)
    ensures exists k :: 1 <= k <= n && Candidate(state, k) == id
  {
    if id != Candidate(state, n) { CandidatesAre(state, n - 1, id); }
  }

  lemma {:induction false} CandidatesCount(state: int, n: nat)
    requires 0 <= state < WORD && state + n <= WORD && n <= 65535
    ensures |Candidates(state, n)| == n
  {
    if n > 0 {
      CandidatesCount(state, n - 1);
      if Candidate(state, n) in Candidates(state, n - 1) {
        CandidatesAre(state, n - 1, Candidate(state, n));
        var k :| 1 <= k <= n - 1 && Candidate(state, k) == Candidate(state, n);
        CandidatesDiffer(state, k, n);
      }
    }
  }

  /** id is the candidate of the k-th check, free then, and those of the earlier checks were not. */
  ghost predicate FirstFree(state: int, views: seq<View>, i: nat, k: nat, id: int) {
    && i <= k < |views|
    && views[k].Ids?
    && id == Candidate(state, k + 1)
    && id !in views[k].used
    && (forall j :: i <= j < k ==> views[j].Ids? && Candidate(state, j + 1) in views[j].used)
  }

  /** A returned id was free when checked, and it is the first candidate that was. */
  lemma {:induction false} FoundIsFree(state: int, views: seq<View>, i: nat)
    requires |views| == TRIES && i <= TRIES && Search(state, views, i).Ok?
    ensures exists k :: i <= k < TRIES && FirstFree(state, views, i, k, Search(state, views, i).value)
    decreases TRIES - i
  {
    if Candidate(state, i + 1) in views[i].used {
      FoundIsFree(state, views, i + 1);
      var k :| i + 1 <= k < TRIES && FirstFree(state, views, i + 1, k, Search(state, views, i).value);
      assert FirstFree(state, views, i, k, Search(state, views, i).value);
    } else {
      assert FirstFree(state, views, i, i, Search(state, views, i).value);
    }
  }

  /** The k-th check found its candidate in use. */
  predicate Taken(state: int, v: View, k: nat) { v.Ids? && Candidate(state, k + 1) in v.used }

  lemma {:induction false} ExhaustedTaken(state: int, views: seq<View>, i: nat)
    requires |views| == TRIES && i <= TRIES && Search(state, views, i) == Err(Exhausted)
    ensures forall k | i <= k < TRIES :: Taken(state, views[k], k)
    decreases TRIES - i
  {
    if i < TRIES { ExhaustedTaken(state, views, i + 1); }
  }

  lemma {:induction false} TakenSeen(state: int, views: seq<View>, n: nat)
    requires n <= |views| && forall k | 0 <= k < n :: Taken(state, views[k], k)
    ensures Candidates(state, n) <= Seen(views, n)
  {
    if n > 0 {
      TakenSeen(state, views, n - 1);
      assert Taken(state, views[n - 1], n - 1);
    }
  }

  lemma SubsetCount(a: set<int>, b: set<int>)
    requires a <= b
    ensures |a| <= |b|
  {
    assert b == a + (b - a);
  }

  /** With fewer than eight ids in use and the eight candidates short of the wrap, allocation
      always succeeds. */
  lemma AllocSucceeds(state: int, views: seq<View>)
    requires |views| == TRIES && 0 <= state && state + TRIES <= WORD
    requires (forall v :: v in views ==> v.Ids?) && |Seen(views, TRIES)| < TRIES
    ensures Search(state, views, 0).Ok?
  {
    NoQueryFailure(state, views, 0);
    if Search(state, views, 0) == Err(Exhausted) {
      ExhaustedTaken(state, views, 0);
      TakenSeen(state, views, TRIES);
      CandidatesCount(state, TRIES);
      SubsetCount(Candidates(state, TRIES), Seen(views, TRIES));
    }
  }

  lemma {:induction false} NoQueryFailure(state: int, views: seq<View>, i: nat)
    requires |views| == TRIES && i <= TRIES && forall v :: v in views ==> v.Ids?
    ensures Search(state, views, i).Ok? || Search(state, views, i) == Err(Exhausted)
    decreases TRIES - i
  {
    if i < TRIES {
      assert views[i] in views;
      NoQueryFailure(state, views, i + 1);
    }
  }

  /** From this counter value the eight tries find an id whatever fewer than m ids are in use. */
  ghost predicate Suffices(state: int, m: nat) {
    forall views: seq<View> :: |views| == TRIES && (forall v :: v in views ==> v.Ids?) && |Seen(views, TRIES)| < m
      ==> Search(state, views, 0).Ok?
  }

  /** The candidates up to and across the wrap. */
  lemma CandidateNearWrap(state: int, k: int)
    requires WORD - TRIES < state < WORD && 1 <= k <= TRIES
    ensures var turn := WORD - state;
      Candidate(state, k) == if k <= turn then (if k == turn then 1 else 65536 - (turn - k)) else k - turn
  {
    var turn := WORD - state;
    if k <= turn {
      CandidateAt(state, k);
      var back := turn - k;
      assert state + k - 1 == 65535 * 65537 - back;
      if back > 0 { assert (65535 * 65536 + (65535 - back)) % 65535 == 65535 - back; }
    } else {
      assert (state + k) % WORD == k - turn;
      assert (k - turn - 1) % WORD == k - turn - 1;
    }
  }

  /** Any n candidates across the wrap are n - 1 ids at least. */
  lemma {:induction false} CandidatesAcross(state: int, n: nat)
    requires WORD - TRIES < state < WORD && n <= TRIES
    ensures |Candidates(state, n)| >= n - 1
  {
    var turn := WORD - state;
    if n <= turn {
      CandidatesCount(state, n);
    } else if n == turn + 1 {
      CandidatesCount(state, turn);
      SubsetCount(Candidates(state, turn), Candidates(state, n));
    } else {
      CandidatesAcross(state, n - 1);
      CandidateNearWrap(state, n);
      if Candidate(state, n) in Candidates(state, n - 1) {
        CandidatesAre(state, n - 1, Candidate(state, n));
        var k :| 1 <= k <= n - 1 && Candidate(state, k) == Candidate(state, n);
        CandidateNearWrap(state, k);
      }
    }
  }

  /** All eight candidates in use: the search fails. */
  lemma {:induction false} AllTaken(state: int, views: seq<View>, i: nat)
    requires |views| == TRIES && i <= TRIES && forall k | 0 <= k < TRIES :: Taken(state, views[k], k)
    ensures Search(state, views, i) == Err(Exhausted)
    decreases TRIES - i
  {
    if i < TRIES {
      assert Taken(state, views[i], i);
      AllTaken(state, views, i + 1);
    }
  }

  lemma {:induction false} CandidateIn(state: int, n: nat, k: nat)
    requires 1 <= k <= n
    ensures Candidate(state, k) in Candidates(state, n)
  {
    if k < n { CandidateIn(state, n - 1, k); }
  }

  lemma {:induction false} SeenSame(used: set<int>, views: seq<View>, n: nat)
    requires n <= |views| && forall k | 0 <= k < |views| :: views[k] == Ids(used)
    ensures Seen(views, n) <= used
  {
    if n > 0 { SeenSame(used, views, n - 1); }
  }

  /** Across the wrap the eight candidates are at most seven ids: taking those exhausts it. */
  lemma WrapExhausts(state: int) returns (views: seq<View>)
    requires WORD - TRIES < state < WORD
    ensures |views| == TRIES && (forall v :: v in views ==> v.Ids?) && |Seen(views, TRIES)| < TRIES
    ensures Search(state, views, 0) == Err(Exhausted)
  {
    var used := Candidates(state, TRIES);
    views := seq(TRIES, _ => Ids(used));
    var turn := WORD - state;
    CandidateIn(state, turn, turn);
    WrapRepeats(state);
    CandidatesAtMost(state, turn);
    assert Candidates(state, turn + 1) == Candidates(state, turn);
    CandidatesGrow(state, turn + 1, TRIES);
    SeenSame(used, views, TRIES);
    SubsetCount(Seen(views, TRIES), used);
    forall k | 0 <= k < TRIES ensures Taken(state, views[k], k) { CandidateIn(state, TRIES, k + 1); }
    AllTaken(state, views, 0);
  }

  lemma {:induction false} CandidatesAtMost(state: int, n: nat)
    ensures |Candidates(state, n)| <= n
  {
    if n > 0 { CandidatesAtMost(state, n - 1); }
  }

  lemma {:induction false} CandidatesGrow(state: int, n: nat, m: nat)
    requires n <= m
    ensures |Candidates(state, m)| <= |Candidates(state, n)| + (m - n)
    decreases m
  {
    if n < m { CandidatesGrow(state, n, m - 1); }
  }

  /** Fewer than eight ids in use suffice exactly when the eight candidates stop short of the wrap. */
  lemma EightSuffices(state: int)
    requires 0 <= state < WORD
    ensures Suffices(state, TRIES) <==> state + TRIES <= WORD
  {
    if state + TRIES <= WORD {
      forall views: seq<View> | |views| == TRIES && (forall v :: v in views ==> v.Ids?) && |Seen(views, TRIES)| < TRIES
        ensures Search(state, views, 0).Ok?
      {
        AllocSucceeds(state, views);
      }
    } else {
      var views := WrapExhausts(state);
      assert |Seen(views, TRIES)| < TRIES && !Search(state, views, 0).Ok?;
    }
  }

  /** Fewer than seven always do. */
  lemma SevenSuffices(state: int)
    requires 0 <= state < WORD
    ensures Suffices(state, TRIES - 1)
  {
    forall views: seq<View>
      | |views| == TRIES && (forall v :: v in views ==> v.Ids?) && |Seen(views, TRIES)| < TRIES - 1
      ensures Search(state, views, 0).Ok?
    {
      NoQueryFailure(state, views, 0);
      if Search(state, views, 0) == Err(Exhausted) {
        ExhaustedTaken(state, views, 0);
        TakenSeen(state, views, TRIES);
        if state + TRIES <= WORD { CandidatesCount(state, TRIES); } else { CandidatesAcross(state, TRIES); }
        SubsetCount(Candidates(state, TRIES), Seen(views, TRIES));
      }
    }
  }
}
