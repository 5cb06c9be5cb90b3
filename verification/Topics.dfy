/** Topic names and filters: the validators of internal/mqtt/topic.go, the SQL matching loop,
    and the matching rule of section 4.7 of MQTT Version 5.0.  Text is a byte string, as in
    Go; for valid UTF-8 the level separator cannot occur inside a code point, so splitting
    bytes and splitting characters agree. */
module Topics {
  import opened Prelude

  type Bytes = seq<Byte>

  const SLASH: Byte := 0x2F
  const PLUS: Byte := 0x2B
  const HASH: Byte := 0x23
  const DOLLAR: Byte := 0x24

  /** strings.Split(s, "/"). */
  function Split(s: Bytes): (levels: seq<Bytes>)
    ensures |levels| >= 1
  {
    if s == [] then [[]]
    else if s[0] == SLASH then [[]] + Split(s[1..])
    else var r := Split(s[1..]); [[s[0]] + r[0]] + r[1..]
  }

  function Join(levels: seq<Bytes>): Bytes
    requires |levels| >= 1
  {
    if |levels| == 1 then levels[0] else levels[0] + [SLASH] + Join(levels[1..])
  }

  lemma {:induction false} JoinSplit(s: Bytes)
    ensures Join(Split(s)) == s
  {
    if s != [] {
      JoinSplit(s[1..]);
      var r := Split(s[1..]);
      assert s == [s[0]] + s[1..];
      if s[0] == SLASH {
        assert Split(s)[1..] == r;
      } else {
        assert Split(s)[1..] == r[1..];
        if |r| > 1 { assert [s[0]] + r[0] + [SLASH] + Join(r[1..]) == [s[0]] + (r[0] + [SLASH] + Join(r[1..])); }
      }
    }
  }

  lemma {:induction false} SplitBytes(s: Bytes, i: nat, b: Byte)
    requires i < |Split(s)| && b in Split(s)[i]
    ensures b in s && b != SLASH
  {
    var r := Split(s[1..]);
    if s[0] == SLASH {
      SplitBytes(s[1..], i - 1, b);
    } else if i > 0 || b in r[0] {
      assert i > 0 ==> Split(s)[i] == r[i];
      SplitBytes(s[1..], i, b);
    }
  }

  // ---- validation -------------------------------------------------------------------------

  predicate Continuation(s: Bytes, i: nat, lo: int, hi: int) { i < |s| && lo <= s[i] <= hi }

  /** Length of the UTF-8 sequence at the head of s, 0 if there is none (unicode/utf8). */
  function Utf8Len(s: Bytes): (n: nat)
    requires s != []
    ensures n <= |s|
  {
    var b := s[0];
    if b < 0x80 then 1
    else if 0xC2 <= b <= 0xDF && Continuation(s, 1, 0x80, 0xBF) then 2
    else if 0xE0 <= b <= 0xEF && Continuation(s, 1, if b == 0xE0 then 0xA0 else 0x80, if b == 0xED then 0x9F else 0xBF)
            && Continuation(s, 2, 0x80, 0xBF) then 3
    else if 0xF0 <= b <= 0xF4 && Continuation(s, 1, if b == 0xF0 then 0x90 else 0x80, if b == 0xF4 then 0x8F else 0xBF)
            && Continuation(s, 2, 0x80, 0xBF) && Continuation(s, 3, 0x80, 0xBF) then 4
    else 0
  }

  predicate ValidUtf8(s: Bytes) {
    s == [] || (Utf8Len(s) > 0 && ValidUtf8(s[Utf8Len(s)..]))
  }

  predicate WellFormed(t: Bytes) { 0 < |t| <= 65535 && ValidUtf8(t) && 0 !in t }

  predicate ValidTopicName(t: Bytes) { WellFormed(t) && PLUS !in t && HASH !in t }

  /** The range loop of ValidateTopicFilter. */
  predicate LevelsOk(parts: seq<Bytes>) {
    forall i | 0 <= i < |parts| ::
      && (HASH in parts[i] ==> parts[i] == [HASH] && i == |parts| - 1)
      && (PLUS in parts[i] ==> parts[i] == [PLUS])
  }

  predicate ValidTopicFilter(t: Bytes) { WellFormed(t) && LevelsOk(Split(t)) }

  predicate Wild(b: Byte) { b == PLUS || b == HASH }

  /** Section 4.7.1 by position: a wildcard fills its level, '#' is the last character.
      `start` says whether position 0 begins a level. */
  predicate PositionOk(t: Bytes, i: nat, start: bool)
    requires i < |t|
  {
    Wild(t[i]) ==>
      && (if i == 0 then start else t[i - 1] == SLASH)
      && (if t[i] == HASH then i == |t| - 1 else i == |t| - 1 || t[i + 1] == SLASH)
  }

  predicate PositionsOk(t: Bytes, start: bool) {
    forall i: nat | i < |t| :: PositionOk(t, i, start)
  }

  predicate NoWild(l: Bytes) { PLUS !in l && HASH !in l }

  lemma PositionsTail(t: Bytes, start: bool)
    requires t != []
    ensures PositionsOk(t, start) <==>
      PositionsOk(t[1..], t[0] == SLASH)
      && (Wild(t[0]) ==> start && (|t| == 1 || (t[0] == PLUS && t[1] == SLASH)))
  {
    var u := t[1..];
    var s := t[0] == SLASH;
    forall i: nat | i < |u| ensures PositionOk(u, i, s) == PositionOk(t, i + 1, start) {
      assert u[i] == t[i + 1] && (i > 0 ==> u[i - 1] == t[i]) && (i + 1 < |u| ==> u[i + 1] == t[i + 2]);
    }
    if PositionsOk(u, s) {
      forall i: nat | 0 < i < |t| ensures PositionOk(t, i, start) { assert PositionOk(u, i - 1, s); }
    }
    assert PositionOk(t, 0, start) == (Wild(t[0]) ==> start && (|t| == 1 || (t[0] == PLUS && t[1] == SLASH)));
  }

  lemma LevelsTail(t: Bytes)
    requires t != [] && t[0] != SLASH
    ensures var r, parts := Split(t[1..]), Split(t);
      LevelsOk(parts) <==>
      (LevelsOk(r[0 := []]) && if Wild(t[0]) then r[0] == [] && (t[0] == HASH ==> |r| == 1) else NoWild(r[0]))
  {
    var r, parts := Split(t[1..]), Split(t);
    var q := r[0 := []];
    assert |parts| == |r| && forall i | 0 < i < |r| :: parts[i] == r[i] && q[i] == r[i];
    assert parts[0] == [t[0]] + r[0];
    assert Wild(t[0]) ==> t[0] in parts[0];
    assert PLUS in r[0] ==> PLUS in parts[0];
    assert HASH in r[0] ==> HASH in parts[0];
  }

  /** The level loop of the validator decides exactly the positional rule of the standard. */
  lemma {:induction false} FilterRule(t: Bytes, start: bool)
    ensures PositionsOk(t, start) <==> LevelsOk(Split(t)) && (start || NoWild(Split(t)[0]))
  {
    if t != [] {
      var r, parts := Split(t[1..]), Split(t);
      PositionsTail(t, start);
      FilterRule(t[1..], t[0] == SLASH);
      if t[0] == SLASH {
        assert parts == [[]] + r && forall i | 0 <= i < |r| :: parts[i + 1] == r[i];
      } else {
        LevelsTail(t);
        assert r[0 := []][0] == [] && forall i | 0 < i < |r| :: r[0 := []][i] == r[i];
        assert r[0] == [] <==> |t| == 1 || t[1] == SLASH;
        assert r == [[]] <==> |t| == 1;
        assert t[0] in parts[0];
      }
    }
  }

  // ---- matching ---------------------------------------------------------------------------

  predicate LevelMatches(f: Bytes, t: Bytes) { f == [PLUS] || f == t }

  /** [MQTT-4.7.2-1]: a filter that starts with a wildcard does not match a '$' topic. */
  predicate Shielded(filter: Bytes, topic: Bytes) {
    (Split(filter)[0] == [HASH] || Split(filter)[0] == [PLUS]) && topic != [] && topic[0] == DOLLAR
  }

  /** Section 4.7.1, level by level: a final '#' stands for any number of levels, the parent
      included. */
  predicate Section47(filter: Bytes, topic: Bytes) {
    var f, t := Split(filter), Split(topic);
    var last := |f| - 1;
    && !Shielded(filter, topic)
    && if f[last] == [HASH] then |t| >= last && forall i | 0 <= i < last :: LevelMatches(f[i], t[i])
       else |t| == |f| && forall i | 0 <= i < |f| :: LevelMatches(f[i], t[i])
  }

  /** string_to_array maps the empty string to the empty array. */
  function StringToArray(s: Bytes): seq<Bytes> { if s == [] then [] else Split(s) }

  /** mqtt_topic_match: the SQL loop, 0-based. */
  method TopicMatch(filter: Bytes, topic: Bytes) returns (r: bool)
    ensures filter == [] || topic == [] ==> !r
    ensures filter != [] && topic != [] && LevelsOk(Split(filter)) ==> (r <==> Section47(filter, topic))
  {
    var f, t := StringToArray(filter), StringToArray(topic);
    var i := 0;
    if |f| == 0 || |t| == 0 { return false; }
    if (f[0] == [HASH] || f[0] == [PLUS]) && topic[0] == DOLLAR { return false; }
    while i < |f|
      invariant 0 <= i <= |f| && i <= |t|
      invariant forall j | 0 <= j < i :: f[j] != [HASH] && LevelMatches(f[j], t[j])
    {
      if f[i] == [HASH] {
        assert HASH in f[i];
        return true;
      }
      if i >= |t| { return false; }
      if f[i] != [PLUS] && f[i] != t[i] { return false; }
      i := i + 1;
    }
    return |f| == |t|;
  }

  lemma {:induction false} PlainLevels(t: Bytes, i: nat)
    requires NoWild(t) && i < |Split(t)|
    ensures NoWild(Split(t)[i])
  {
    if PLUS in Split(t)[i] { SplitBytes(t, i, PLUS); }
    if HASH in Split(t)[i] { SplitBytes(t, i, HASH); }
  }

  /** A filter without wildcards matches itself and nothing else. */
  lemma PlainFilter(filter: Bytes, topic: Bytes)
    requires NoWild(filter)
    ensures Section47(filter, topic) <==> filter == topic
  {
    var f, t := Split(filter), Split(topic);
    forall i | 0 <= i < |f| ensures f[i] != [HASH] && f[i] != [PLUS] {
      PlainLevels(filter, i);
      assert HASH in [HASH] && PLUS in [PLUS];
    }
    if Section47(filter, topic) {
      assert f == t;
      JoinSplit(filter);
      JoinSplit(topic);
    }
  }

  /** Every valid topic name is a valid filter and matches itself, '$' topics included. */
  lemma NameIsFilter(t: Bytes)
    requires ValidTopicName(t)
    ensures ValidTopicFilter(t) && Section47(t, t)
  {
    forall i | 0 <= i < |Split(t)| ensures NoWild(Split(t)[i]) { PlainLevels(t, i); }
    PlainFilter(t, t);
  }

  // ---- what the wildcards stand for, character by character ---------------------------------

  lemma {:induction false} SplitConcat(a: Bytes, b: Bytes)
    ensures Split(a + [SLASH] + b) == Split(a) + Split(b)
    decreases |a|
  {
    var s := a + [SLASH] + b;
    if a == [] {
      assert s[1..] == b;
    } else {
      assert s[1..] == a[1..] + [SLASH] + b;
      SplitConcat(a[1..], b);
    }
  }

  lemma {:induction false} SplitOne(x: Bytes)
    requires SLASH !in x
    ensures Split(x) == [x]
  {
    if x != [] {
      SplitOne(x[1..]);
      assert x == [x[0]] + x[1..];
    }
  }

  lemma {:induction false} JoinConcat(a: seq<Bytes>, b: seq<Bytes>)
    requires a != [] && b != []
    ensures Join(a + b) == Join(a) + [SLASH] + Join(b)
    decreases |a|
  {
    if |a| == 1 {
      assert (a + b)[1..] == b;
    } else {
      assert (a + b)[1..] == a[1..] + b;
      JoinConcat(a[1..], b);
      assert a[0] + [SLASH] + (Join(a[1..]) + [SLASH] + Join(b)) == a[0] + [SLASH] + Join(a[1..]) + [SLASH] + Join(b);
    }
  }

  lemma LevelHasNoSlash(s: Bytes, i: nat)
    requires i < |Split(s)|
    ensures SLASH !in Split(s)[i]
  {
    if SLASH in Split(s)[i] { SplitBytes(s, i, SLASH); }
  }

  /** The levels of p come first exactly when t is p or goes on after p and a separator. */
  lemma LevelsPrefix(p: Bytes, t: Bytes)
    ensures Split(p) <= Split(t) <==> t == p || p + [SLASH] <= t
  {
    var n := |Split(p)|;
    if p + [SLASH] <= t {
      var rest := t[|p| + 1..];
      assert t == p + [SLASH] + rest;
      SplitConcat(p, rest);
    }
    if Split(p) <= Split(t) {
      JoinSplit(p);
      JoinSplit(t);
      if |Split(t)| > n {
        assert Split(t) == Split(p) + Split(t)[n..];
        JoinConcat(Split(p), Split(t)[n..]);
      } else {
        assert Split(t) == Split(p);
      }
    }
  }

  lemma PlainHead(p: Bytes)
    requires NoWild(p)
    ensures forall i | 0 <= i < |Split(p)| :: Split(p)[i] != [HASH] && Split(p)[i] != [PLUS]
  {
    forall i | 0 <= i < |Split(p)| ensures Split(p)[i] != [HASH] && Split(p)[i] != [PLUS] {
      PlainLevels(p, i);
      assert HASH in [HASH] && PLUS in [PLUS];
    }
  }

  /** p/# matches p and everything below it. */
  lemma MultiLevel(p: Bytes, t: Bytes)
    requires NoWild(p)
    ensures Section47(p + [SLASH] + [HASH], t) <==> t == p || p + [SLASH] <= t
  {
    SplitConcat(p, [HASH]);
    SplitOne([HASH]);
    PlainHead(p);
    LevelsPrefix(p, t);
    var f, n := Split(p + [SLASH] + [HASH]), |Split(p)|;
    assert f == Split(p) + [[HASH]] && f[n] == [HASH];
    assert forall i | 0 <= i < n :: f[i] == Split(p)[i];
  }

  /** p/+ matches p, a separator and one more level, empty or not. */
  lemma SingleLevel(p: Bytes, t: Bytes)
    requires NoWild(p)
    ensures Section47(p + [SLASH] + [PLUS], t) <==> exists x :: SLASH !in x && t == p + [SLASH] + x
  {
    SplitConcat(p, [PLUS]);
    SplitOne([PLUS]);
    PlainHead(p);
    LevelsPrefix(p, t);
    var f, n := Split(p + [SLASH] + [PLUS]), |Split(p)|;
    assert f == Split(p) + [[PLUS]] && f[n] == [PLUS] && [PLUS] != [HASH];
    assert forall i | 0 <= i < n :: f[i] == Split(p)[i];
    if Section47(p + [SLASH] + [PLUS], t) {
      assert Split(t) == Split(p) + [Split(t)[n]];
      LevelHasNoSlash(t, n);
      JoinSplit(p);
      JoinSplit(t);
      JoinConcat(Split(p), [Split(t)[n]]);
    }
    if x :| SLASH !in x && t == p + [SLASH] + x {
      SplitConcat(p, x);
      SplitOne(x);
    }
  }

  /** A leading + matches any first level but that of a '$' topic. */
  lemma LeadingLevel(p: Bytes, t: Bytes)
    requires NoWild(p)
    ensures Section47([PLUS] + [SLASH] + p, t) <==>
      !(t != [] && t[0] == DOLLAR) && exists x :: SLASH !in x && t == x + [SLASH] + p
  {
    SplitConcat([PLUS], p);
    SplitOne([PLUS]);
    PlainHead(p);
    var f, n := Split([PLUS] + [SLASH] + p), |Split(p)|;
    assert f == [[PLUS]] + Split(p) && f[n] == Split(p)[n - 1];
    assert forall i | 1 <= i <= n :: f[i] == Split(p)[i - 1];
    if Section47([PLUS] + [SLASH] + p, t) {
      assert Split(t) == [Split(t)[0]] + Split(p);
      LevelHasNoSlash(t, 0);
      JoinSplit(p);
      JoinSplit(t);
      JoinConcat([Split(t)[0]], Split(p));
    }
    if x :| SLASH !in x && t == x + [SLASH] + p {
      SplitConcat(x, p);
      SplitOne(x);
    }
  }

  /** Alone, # matches every topic and + every topic of one level, but none that starts with '$'. */
  lemma AloneWild(t: Bytes)
    ensures Section47([HASH], t) <==> !(t != [] && t[0] == DOLLAR)
    ensures Section47([PLUS], t) <==> !(t != [] && t[0] == DOLLAR) && SLASH !in t
  {
    SplitOne([HASH]);
    SplitOne([PLUS]);
    assert [PLUS] != [HASH];
    if SLASH !in t {
      SplitOne(t);
    } else {
      var i :| 0 <= i < |t| && t[i] == SLASH;
      assert t == t[..i] + [SLASH] + t[i + 1..];
      SplitConcat(t[..i], t[i + 1..]);
    }
  }

  // ---- what the validators accept, code point by code point ---------------------------------

  /** A Unicode scalar value. */
  type Scalar = c: int | 0 <= c < 0xD800 || 0xE000 <= c <= 0x10FFFF

  /** Its UTF-8 encoding (section 1.5.4 of MQTT Version 5.0, RFC 3629). */
  function Utf8(c: Scalar): (b: Bytes)
    ensures b != []
  {
    if c < 0x80 then [c]
    else if c < 0x800 then [0xC0 + c / 0x40, 0x80 + c % 0x40]
    else if c < 0x1_0000 then [0xE0 + c / 0x1000, 0x80 + c / 0x40 % 0x40, 0x80 + c % 0x40]
    else [0xF0 + c / 0x4_0000, 0x80 + c / 0x1000 % 0x40, 0x80 + c / 0x40 % 0x40, 0x80 + c % 0x40]
  }

  function Text(cs: seq<Scalar>): Bytes { if cs == [] then [] else Utf8(cs[0]) + Text(cs[1..]) }

  lemma Utf8LenEncoded(c: Scalar, rest: Bytes)
    ensures Utf8Len(Utf8(c) + rest) == |Utf8(c)|
  {
    var s := Utf8(c) + rest;
    assert forall i | 0 <= i < |Utf8(c)| :: s[i] == Utf8(c)[i];
  }

  /** Six more bits, from a continuation byte. */
  function Push(hi: int, next: int): int { hi * 0x40 + (next - 0x80) }

  lemma PushSplits(hi: int, next: int)
    requires 0x80 <= next <= 0xBF
    ensures Push(hi, next) / 0x40 == hi && Push(hi, next) % 0x40 == next - 0x80
  {
  }

  function Lead(b: int, mark: int): int { b - mark }

  /** The scalar at the head of s. */
  function Head(s: Bytes): (c: Scalar)
    requires s != [] && Utf8Len(s) > 0
  {
    if s[0] < 0x80 then s[0]
    else if s[0] < 0xE0 then Push(Lead(s[0], 0xC0), s[1])
    else if s[0] < 0xF0 then Push(Push(Lead(s[0], 0xE0), s[1]), s[2])
    else Push(Push(Push(Lead(s[0], 0xF0), s[1]), s[2]), s[3])
  }

  lemma HeadEncodes3(s: Bytes)
    requires s != [] && Utf8Len(s) == 3
    ensures Utf8(Head(s)) == s[..3]
  {
    var two := Push(Lead(s[0], 0xE0), s[1]);
    PushSplits(Lead(s[0], 0xE0), s[1]);
    PushSplits(two, s[2]);
    assert Head(s) == Push(two, s[2]) && Head(s) / 0x1000 == two / 0x40;
  }

  lemma HeadEncodes4(s: Bytes)
    requires s != [] && Utf8Len(s) == 4
    ensures Utf8(Head(s)) == s[..4]
  {
    var two := Push(Lead(s[0], 0xF0), s[1]);
    var three := Push(two, s[2]);
    PushSplits(Lead(s[0], 0xF0), s[1]);
    PushSplits(two, s[2]);
    PushSplits(three, s[3]);
    var c: int := Head(s);
    assert c == Push(three, s[3]) && c / 0x40 == three && c / 0x1000 == two && c / 0x4_0000 == two / 0x40;
  }

  lemma HeadEncodes(s: Bytes)
    requires s != [] && Utf8Len(s) > 0
    ensures Utf8(Head(s)) == s[..Utf8Len(s)]
  {
    if Utf8Len(s) == 4 { HeadEncodes4(s); }
    else if Utf8Len(s) == 3 { HeadEncodes3(s); }
    else if Utf8Len(s) == 2 { PushSplits(Lead(s[0], 0xC0), s[1]); }
  }

  lemma {:induction false} TextIsValid(cs: seq<Scalar>)
    ensures ValidUtf8(Text(cs))
    decreases |cs|
  {
    if cs != [] {
      Utf8LenEncoded(cs[0], Text(cs[1..]));
      assert Text(cs)[|Utf8(cs[0])|..] == Text(cs[1..]);
      TextIsValid(cs[1..]);
    }
  }

  lemma {:induction false} ValidIsText(s: Bytes) returns (cs: seq<Scalar>)
    requires ValidUtf8(s)
    ensures s == Text(cs)
    decreases |s|
  {
    if s == [] {
      cs := [];
    } else {
      var n := Utf8Len(s);
      HeadEncodes(s);
      var rest := ValidIsText(s[n..]);
      cs := [Head(s)] + rest;
      assert cs[1..] == rest && s == s[..n] + s[n..];
    }
  }

  lemma AsciiIn(c: Scalar, b: Byte)
    requires b < 0x80
    ensures b in Utf8(c) <==> c == b
  {
    if c >= 0x80 { assert forall i | 0 <= i < |Utf8(c)| :: Utf8(c)[i] >= 0x80; }
  }

  /** An ASCII byte of the encoding is that character. */
  lemma {:induction false} AsciiInText(cs: seq<Scalar>, b: Byte)
    requires b < 0x80
    ensures b in Text(cs) <==> b in cs
    decreases |cs|
  {
    if cs != [] {
      AsciiIn(cs[0], b);
      AsciiInText(cs[1..], b);
      assert cs == [cs[0]] + cs[1..];
    }
  }

  /** t encodes at least one character, at most 65535 bytes and no U+0000. */
  ghost predicate Encodes(t: Bytes, cs: seq<Scalar>) { t == Text(cs) && cs != [] && |t| <= 65535 && 0 !in cs }

  /** ValidateTopicName accepts exactly the encodings of names without wildcard characters. */
  lemma NameExactly(t: Bytes)
    ensures ValidTopicName(t) <==> exists cs :: Encodes(t, cs) && PLUS !in cs && HASH !in cs
  {
    if ValidTopicName(t) {
      var cs := ValidIsText(t);
      AsciiInText(cs, 0);
      AsciiInText(cs, PLUS);
      AsciiInText(cs, HASH);
      assert Encodes(t, cs);
    }
    if cs :| Encodes(t, cs) && PLUS !in cs && HASH !in cs {
      TextIsValid(cs);
      AsciiInText(cs, 0);
      AsciiInText(cs, PLUS);
      AsciiInText(cs, HASH);
    }
  }

  /** ValidateTopicFilter accepts exactly the encodings that keep the positional rule of section 4.7.1. */
  lemma FilterExactly(t: Bytes)
    ensures ValidTopicFilter(t) <==> PositionsOk(t, true) && exists cs :: Encodes(t, cs)
  {
    FilterRule(t, true);
    if ValidTopicFilter(t) {
      var cs := ValidIsText(t);
      AsciiInText(cs, 0);
      assert Encodes(t, cs);
    }
    if cs :| Encodes(t, cs) {
      TextIsValid(cs);
      AsciiInText(cs, 0);
    }
  }
}
