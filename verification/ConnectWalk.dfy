/** The CONNECT property walk: the variable byte integer and the scan for Maximum Packet Size,
    against the printed form of a CONNECT (sections 1.5.5 and 3.1.2.11 of MQTT Version 5.0). */
module ConnectWalk {
  import opened Prelude

  type U16 = x: int | 0 <= x < 65536
  type U32 = x: int | 0 <= x < 0x1_0000_0000
  type Text = s: seq<Byte> | |s| < 65536

  datatype Error =
    | TooShort | Truncated | VarintTruncated | VarintTooLong | PastBody | StringTruncated | BinaryTruncated
    | UserPropertyTruncated | ValueTruncated | Unknown(id: Byte) | Overflow

  // ---------- the variable byte integer ----------

  function Encode(v: nat): (b: seq<Byte>)
    ensures b != []
  {
    if v < 128 then [v] else [v % 128 + 128] + Encode(v / 128)
  }

  /** The integer at the head of b, read from at most k bytes: its value and its length. */
  function Varint(b: seq<Byte>, k: nat): Result<(nat, nat), Error> {
    if k == 0 then Err(VarintTooLong)
    else if b == [] then Err(VarintTruncated)
    else if b[0] < 128 then Ok((b[0], 1))
    else match Varint(b[1..], k - 1)
      case Err(e) => Err(e)
      case Ok((v, n)) => Ok((b[0] - 128 + 128 * v, n + 1))
  }

  function Pow128(k: nat): (p: nat)
    ensures p >= 1
  {
    if k == 0 then 1 else 128 * Pow128(k - 1)
  }

  /** Decoding inverts encoding, whatever follows. */
  lemma {:induction false} VarintInverts(v: nat, k: nat, rest: seq<Byte>)
    requires k >= 1 && v < Pow128(k)
    ensures Varint(Encode(v) + rest, k) == Ok((v, |Encode(v)|))
  {
    if v >= 128 {
      VarintInverts(v / 128, k - 1, rest);
      assert (Encode(v) + rest)[1..] == Encode(v / 128) + rest;
    }
  }

  /** The four-byte limit is the range 0..268435455 of section 1.5.5. */
  lemma VarintRoundTrip(v: nat, rest: seq<Byte>)
    requires v <= 268435455
    ensures Varint(Encode(v) + rest, 4) == Ok((v, |Encode(v)|)) && |Encode(v)| <= 4
  {
    assert Pow128(4) == 268435456 by {
      assert Pow128(1) == 128;
      assert Pow128(2) == 16384;
      assert Pow128(3) == 2097152;
    }
    VarintInverts(v, 4, rest);
    VarintShape(Encode(v) + rest, 4);
  }

  /** What an accepted integer looks like: it is in range, it lies within b, and it is the shortest
      encoding exactly when its last byte is not a superfluous zero. */
  lemma {:induction false} VarintShape(b: seq<Byte>, k: nat)
    requires Varint(b, k).Ok?
    ensures var (v, n) := Varint(b, k).value;
      && 1 <= n <= k && n <= |b| && v < Pow128(k)
      && (b[..n] == Encode(v) <==> n == 1 || b[n - 1] != 0)
  {
    if b[0] >= 128 {
      VarintShape(b[1..], k - 1);
      var (w, m) := Varint(b[1..], k - 1).value;
      var v, n := b[0] - 128 + 128 * w, m + 1;
      assert b[..n] == [b[0]] + b[1..][..m];
      assert b[n - 1] == b[1..][m - 1];
      if v < 128 {
        ZeroOnlyByZeros(b[1..], k - 1);
        assert |b[..n]| == n > 1 == |Encode(v)|;
      } else {
        assert v / 128 == w && v % 128 == b[0] - 128;
        assert Encode(v) == [b[0]] + Encode(w);
        assert b[..n] == Encode(v) <==> b[1..][..m] == Encode(w) by {
          if b[..n] == Encode(v) { assert b[..n][1..] == Encode(v)[1..]; }
        }
        if m == 1 { assert Encode(w) == [w]; }
      }
    } else {
      assert b[..1] == [b[0]];
    }
  }

  lemma {:induction false} ZeroOnlyByZeros(b: seq<Byte>, k: nat)
    requires Varint(b, k).Ok? && Varint(b, k).value.0 == 0
    ensures var n := Varint(b, k).value.1; 1 <= n <= |b| && b[n - 1] == 0
  {
    if b[0] >= 128 { ZeroOnlyByZeros(b[1..], k - 1); }
  }

  /** decodeVarint. */
  method DecodeVarint(b: seq<Byte>) returns (r: Result<(nat, nat), Error>)
    ensures r == Varint(b, 4)
  {
    var v: nat, mult: nat, n: nat := 0, 1, 0;
    assert b[0..] == b;
    while n < 4
      invariant 0 <= n <= 4 && n <= |b| && mult > 0
      invariant Varint(b, 4) == Shifted(Varint(b[n..], 4 - n), v, mult, n)
    {
      if n >= |b| { return Err(VarintTruncated); }
      var x := b[n];
      assert b[n..][0] == x && b[n..][1..] == b[n + 1..];
      if x >= 128 { ShiftStep(Varint(b[n + 1..], 3 - n), v, mult, n, x); }
      v := v + x % 128 * mult;
      if x < 128 { return Ok((v, n + 1)); }
      mult := mult * 128;
      n := n + 1;
    }
    return Err(VarintTooLong);
  }

  /** The result of the whole, given the result of the part after n bytes. */
  ghost function Shifted(r: Result<(nat, nat), Error>, v: nat, mult: nat, n: nat): Result<(nat, nat), Error> {
    match r
    case Err(e) => Err(e)
    case Ok((w, m)) => Ok((v + w * mult, n + m))
  }

  lemma ShiftStep(r: Result<(nat, nat), Error>, v: nat, mult: nat, n: nat, x: Byte)
    requires x >= 128
    ensures var whole := match r { case Err(e) => Err(e) case Ok((w, m)) => Ok((x - 128 + 128 * w, m + 1)) };
      Shifted(whole, v, mult, n) == Shifted(r, v + x % 128 * mult, mult * 128, n + 1)
  {
    match r
    case Err(_) =>
    case Ok((w, m)) =>
      assert v + (x - 128 + 128 * w) * mult == v + (x - 128) * mult + w * (mult * 128);
  }

  // ---------- CONNECT properties and their printed form ----------

  datatype Property =
    | SessionExpiry(seconds: U32)
    | AuthMethod(text: Text)
    | AuthData(text: Text)
    | RequestProblemInfo(flag: Byte)
    | RequestResponseInfo(flag: Byte)
    | ReceiveMaximum(max: U16)
    | TopicAliasMaximum(max: U16)
    | User(key: Text, text: Text)
    | MaximumPacketSize(size: U32)

  function PrintU16(x: U16): seq<Byte> { [x / 256, x % 256] }
  function PrintU32(x: U32): seq<Byte> { [x / 0x100_0000, x / 0x1_0000 % 256, x / 256 % 256, x % 256] }
  function PrintText(s: Text): seq<Byte> { PrintU16(|s|) + s }

  function Print(p: Property): (b: seq<Byte>)
    ensures b != []
  {
    match p
    case SessionExpiry(x) => [0x11] + PrintU32(x)
    case AuthMethod(s) => [0x15] + PrintText(s)
    case AuthData(s) => [0x16] + PrintText(s)
    case RequestProblemInfo(x) => [0x17, x]
    case RequestResponseInfo(x) => [0x19, x]
    case ReceiveMaximum(x) => [0x21] + PrintU16(x)
    case TopicAliasMaximum(x) => [0x22] + PrintU16(x)
    case User(k, s) => [0x26] + (PrintText(k) + PrintText(s))
    case MaximumPacketSize(x) => [0x27] + PrintU32(x)
  }

  function PrintAll(ps: seq<Property>): seq<Byte> {
    if ps == [] then [] else Print(ps[0]) + PrintAll(ps[1..])
  }

  /** What the caller wants to know: the first Maximum Packet Size, if there is one. */
  function FirstSize(ps: seq<Property>): Option<U32> {
    if ps == [] then None
    else if ps[0].MaximumPacketSize? then Some(ps[0].size)
    else FirstSize(ps[1..])
  }

  // ---------- the walk ----------

  datatype Turn = Skip(n: nat) | Size(v: U32) | Fail(error: Error)

  function Join16(hi: int, lo: int): int { hi * 256 + lo }

  function U16At(b: seq<Byte>, i: nat): U16
    requires i + 2 <= |b|
  {
    Join16(b[i], b[i + 1])
  }

  function U32At(b: seq<Byte>, i: nat): U32
    requires i + 4 <= |b|
  {
    Join16(b[i], b[i + 1]) * 0x1_0000 + Join16(b[i + 2], b[i + 3])
  }

  /** One turn of the switch on the property at the head of b; Skip may overshoot. */
  function TurnOf(b: seq<Byte>): (t: Turn)
    requires b != []
    ensures t.Skip? ==> t.n > 0
  {
    match b[0]
    case 0x11 => Skip(5)
    case 0x15 => if |b| < 3 then Fail(StringTruncated) else Skip(3 + U16At(b, 1))
    case 0x16 => if |b| < 3 then Fail(BinaryTruncated) else Skip(3 + U16At(b, 1))
    case 0x17 => Skip(2)
    case 0x19 => Skip(2)
    case 0x21 => Skip(3)
    case 0x22 => Skip(3)
    case 0x26 =>
      if |b| < 3 || |b| < 5 + U16At(b, 1) then Fail(UserPropertyTruncated)
      else Skip(5 + U16At(b, 1) + U16At(b, 3 + U16At(b, 1)))
    case 0x27 => if |b| < 5 then Fail(ValueTruncated) else Size(U32At(b, 1))
    case id => Fail(Unknown(id))
  }

  /** The property loop on a block. */
  function Walk(b: seq<Byte>): Result<Option<U32>, Error>
    decreases |b|
  {
    if b == [] then Ok(None)
    else match TurnOf(b)
      case Fail(e) => Err(e)
      case Size(v) => Ok(Some(v))
      case Skip(n) => if n > |b| then Err(Overflow) else Walk(b[n..])
  }

  /** V5ConnectMaximumPacketSize on a CONNECT body. */
  function WalkConnect(body: seq<Byte>): Result<Option<U32>, Error> {
    if |body| < 2 then Err(TooShort)
    else if |body| < 2 + U16At(body, 0) + 4 then Err(Truncated)
    else if body[2 + U16At(body, 0)] != 5 then Ok(None)
    else WalkTail(body[2 + U16At(body, 0) + 4..])
  }

  /** From the property length on. */
  function WalkTail(tail: seq<Byte>): Result<Option<U32>, Error> {
    match Varint(tail, 4)
    case Err(e) => Err(e)
    case Ok((len, n)) => WalkBlock(tail, len, n)
  }

  function WalkBlock(tail: seq<Byte>, len: nat, n: nat): Result<Option<U32>, Error> {
    if len == 0 then Ok(None)
    else if n + len > |tail| then Err(PastBody)
    else Walk(tail[n..n + len])
  }

  // ---------- what the walk means ----------

  lemma U16Inverse(x: U16, b: seq<Byte>, i: nat)
    requires i + 2 <= |b| && b[i..i + 2] == PrintU16(x)
    ensures U16At(b, i) == x
  {
    assert b[i] == b[i..i + 2][0] && b[i + 1] == b[i..i + 2][1];
  }

  lemma U32Inverse(x: U32, b: seq<Byte>, i: nat)
    requires i + 4 <= |b| && b[i..i + 4] == PrintU32(x)
    ensures U32At(b, i) == x
  {
    var s := b[i..i + 4];
    assert b[i] == s[0] && b[i + 1] == s[1] && b[i + 2] == s[2] && b[i + 3] == s[3];
    assert Join16(s[0], s[1]) == x / 0x1_0000;
    assert Join16(s[2], s[3]) == x % 0x1_0000;
  }

  lemma TextInverse(s: Text, b: seq<Byte>, i: nat)
    requires i + |PrintText(s)| <= |b| && b[i..i + |PrintText(s)|] == PrintText(s)
    ensures U16At(b, i) == |s|
  {
    var t := b[i..i + |PrintText(s)|];
    assert b[i..i + 2] == t[..2] == PrintU16(|s|);
    U16Inverse(|s|, b, i);
  }

  lemma TurnOnUser(k: Text, s: Text, rest: seq<Byte>)
    ensures TurnOf(Print(User(k, s)) + rest) == Skip(|Print(User(k, s))|)
  {
    var b := Print(User(k, s)) + rest;
    assert b[1..1 + |PrintText(k)|] == PrintText(k);
    TextInverse(k, b, 1);
    var i := 3 + |k|;
    assert b[i..i + |PrintText(s)|] == PrintText(s);
    TextInverse(s, b, i);
  }

  /** The switch skips exactly one printed property, and reads the size out of the last kind. */
  lemma TurnOnPrinted(p: Property, rest: seq<Byte>)
    ensures TurnOf(Print(p) + rest) == if p.MaximumPacketSize? then Size(p.size) else Skip(|Print(p)|)
  {
    var b := Print(p) + rest;
    if p.AuthMethod? || p.AuthData? {
      assert b[1..1 + |PrintText(p.text)|] == PrintText(p.text);
      TextInverse(p.text, b, 1);
    } else if p.User? {
      TurnOnUser(p.key, p.text, rest);
    } else if p.MaximumPacketSize? {
      assert b[1..5] == PrintU32(p.size);
      U32Inverse(p.size, b, 1);
    }
  }

  /** Walking a printed block finds its first Maximum Packet Size. */
  lemma {:induction false} WalkPrinted(ps: seq<Property>)
    ensures Walk(PrintAll(ps)) == Ok(FirstSize(ps))
    decreases |ps|
  {
    if ps != [] {
      TurnOnPrinted(ps[0], PrintAll(ps[1..]));
      if !ps[0].MaximumPacketSize? {
        WalkPrinted(ps[1..]);
        assert PrintAll(ps)[|Print(ps[0])|..] == PrintAll(ps[1..]);
      }
    }
  }

  /** The printed CONNECT body: protocol name, level, flags, keep-alive, properties, payload. */
  function PrintConnect(name: Text, level: Byte, flags: Byte, keepalive: U16, ps: seq<Property>, payload: seq<Byte>)
    : seq<Byte>
  {
    Header(name, level, flags, keepalive) + (Encode(|PrintAll(ps)|) + (PrintAll(ps) + payload))
  }

  function Header(name: Text, level: Byte, flags: Byte, keepalive: U16): seq<Byte> {
    PrintText(name) + [level, flags] + PrintU16(keepalive)
  }

  lemma HeaderSkipped(name: Text, level: Byte, flags: Byte, keepalive: U16, tail: seq<Byte>)
    ensures var body := Header(name, level, flags, keepalive) + tail;
      && |body| >= 6 + |name|
      && U16At(body, 0) == |name|
      && body[2 + |name|] == level
      && body[2 + |name| + 4..] == tail
  {
    var h := Header(name, level, flags, keepalive);
    var body := h + tail;
    assert h[0..2] == PrintU16(|name|) && |h| == 6 + |name|;
    assert body[0..2] == h[0..2];
    U16Inverse(|name|, body, 0);
    assert body[2 + |name|] == h[2 + |name|] == level;
  }

  lemma BlockFound(len: seq<Byte>, block: seq<Byte>, payload: seq<Byte>)
    ensures WalkBlock(len + (block + payload), |block|, |len|) == Walk(block)
  {
    var tail := len + (block + payload);
    assert tail[|len|..|len| + |block|] == block;
  }

  /** Round trip: for every printed version 5 CONNECT the walk answers with the first Maximum
      Packet Size among its properties, whatever the name, the flags and the payload; for any other
      protocol level it answers that there is none. */
  lemma ConnectRoundTrip(name: Text, level: Byte, flags: Byte, keepalive: U16, ps: seq<Property>, payload: seq<Byte>)
    requires |PrintAll(ps)| <= 268435455
    ensures WalkConnect(PrintConnect(name, level, flags, keepalive, ps, payload))
         == Ok(if level == 5 then FirstSize(ps) else None)
  {
    HeaderSkipped(name, level, flags, keepalive, Encode(|PrintAll(ps)|) + (PrintAll(ps) + payload));
    VarintRoundTrip(|PrintAll(ps)|, PrintAll(ps) + payload);
    BlockFound(Encode(|PrintAll(ps)|), PrintAll(ps), payload);
    WalkPrinted(ps);
  }

  /** The properties a walk steps over before it ends. */
  ghost function Stepped(b: seq<Byte>): (ps: seq<Property>)
    requires Walk(b).Ok?
    decreases |b|
  {
    if b == [] then [] else match TurnOf(b)
      case Size(_) => []
      case Skip(n) => TurnPrefix(b); [Read(b[..n])] + Stepped(b[n..])
  }

  /** The property that prints as b. */
  ghost function Read(b: seq<Byte>): (p: Property)
    requires b != [] && TurnOf(b) == Skip(|b|)
  {
    match b[0]
    case 0x11 => SessionExpiry(U32At(b, 1))
    case 0x15 => AuthMethod(b[3..])
    case 0x16 => AuthData(b[3..])
    case 0x17 => RequestProblemInfo(b[1])
    case 0x19 => RequestResponseInfo(b[1])
    case 0x21 => ReceiveMaximum(U16At(b, 1))
    case 0x22 => TopicAliasMaximum(U16At(b, 1))
    case _ => var k := U16At(b, 1); User(b[3..3 + k], b[5 + k..])
  }

  lemma ReadText(b: seq<Byte>, i: nat, j: nat)
    requires i + 2 <= j <= |b| && U16At(b, i) == j - i - 2
    ensures PrintText(b[i + 2..j]) == b[i..j]
  {
    assert b[i..j] == [b[i], b[i + 1]] + b[i + 2..j];
  }

  lemma ReadUser(b: seq<Byte>)
    requires b != [] && b[0] == 0x26 && TurnOf(b) == Skip(|b|)
    ensures Print(Read(b)) == b
  {
    var k: int := U16At(b, 1);
    ReadText(b, 1, 3 + k);
    ReadText(b, 3 + k, |b|);
    assert b[5 + k..] == b[5 + k..|b|];
    assert b == [b[0]] + (b[1..3 + k] + b[3 + k..|b|]);
  }

  lemma ReadTextual(b: seq<Byte>)
    requires b != [] && (b[0] == 0x15 || b[0] == 0x16) && TurnOf(b) == Skip(|b|)
    ensures Print(Read(b)) == b
  {
    ReadText(b, 1, |b|);
    assert b == [b[0]] + b[1..|b|] && b[3..] == b[3..|b|];
  }

  lemma ReadNumeric(b: seq<Byte>)
    requires b != [] && (b[0] == 0x11 || b[0] == 0x21 || b[0] == 0x22) && TurnOf(b) == Skip(|b|)
    ensures Print(Read(b)) == b
  {
    if b[0] == 0x11 {
      PrintOfU32(b);
    } else {
      assert PrintU16(U16At(b, 1)) == [b[1], b[2]];
    }
  }

  lemma ReadPrints(b: seq<Byte>)
    requires b != [] && TurnOf(b) == Skip(|b|)
    ensures Print(Read(b)) == b && !Read(b).MaximumPacketSize?
  {
    if b[0] == 0x26 { ReadUser(b); }
    else if b[0] == 0x15 || b[0] == 0x16 { ReadTextual(b); }
    else if b[0] == 0x17 || b[0] == 0x19 { assert b == [b[0], b[1]]; }
    else { ReadNumeric(b); }
  }

  lemma SplitU32(a: Byte, b: Byte, c: Byte, d: Byte, x: int)
    requires x == Join16(a, b) * 0x1_0000 + Join16(c, d)
    ensures 0 <= x < 0x1_0000_0000 && PrintU32(x) == [a, b, c, d]
  {
    assert x / 0x100_0000 == a;
    assert x / 0x1_0000 == Join16(a, b);
    assert x / 256 == Join16(a, b) * 256 + c;
    assert (Join16(a, b) * 256 + c) % 256 == c;
    assert x % 256 == d;
  }

  lemma PrintOfU32(b: seq<Byte>)
    requires |b| == 5
    ensures b == [b[0]] + PrintU32(U32At(b, 1))
  {
    SplitU32(b[1], b[2], b[3], b[4], U32At(b, 1));
  }

  /** The property that ended the walk, if one did. */
  ghost function Last(size: Option<U32>): seq<Byte> { if size.Some? then Print(MaximumPacketSize(size.value)) else [] }

  /** b is the printed list ps without a Maximum Packet Size, followed, when a size was found, by
      that property and anything at all. */
  ghost predicate Explains(ps: seq<Property>, size: Option<U32>, b: seq<Byte>) {
    && FirstSize(ps) == None
    && PrintAll(ps) + Last(size) <= b
    && (size == None ==> b == PrintAll(ps))
  }

  lemma ExplainsMore(p: Property, ps: seq<Property>, size: Option<U32>, b: seq<Byte>)
    requires !p.MaximumPacketSize? && Explains(ps, size, b)
    ensures Explains([p] + ps, size, Print(p) + b)
  {
    assert ([p] + ps)[1..] == ps;
    assert PrintAll([p] + ps) + Last(size) == Print(p) + (PrintAll(ps) + Last(size));
  }

  lemma TurnPrefix(b: seq<Byte>)
    requires b != [] && TurnOf(b).Skip? && TurnOf(b).n <= |b|
    ensures TurnOf(b[..TurnOf(b).n]) == TurnOf(b)
  {
  }

  lemma SizeExplained(b: seq<Byte>, v: U32)
    requires b != [] && TurnOf(b) == Size(v)
    ensures Explains([], Some(v), b)
  {
    PrintOfU32(b[..5]);
    assert U32At(b[..5], 1) == v;
    assert Print(MaximumPacketSize(v)) == b[..5];
  }

  lemma SkipExplained(head: seq<Byte>, tail: seq<Byte>, ps: seq<Property>, size: Option<U32>)
    requires head != [] && TurnOf(head) == Skip(|head|) && Explains(ps, size, tail)
    ensures Explains([Read(head)] + ps, size, head + tail)
  {
    ReadPrints(head);
    ExplainsMore(Read(head), ps, size, tail);
  }

  /** Nothing else is accepted: every block the walk does not reject has such a reading. */
  lemma {:induction false} WalkSound(b: seq<Byte>)
    requires Walk(b).Ok?
    ensures Explains(Stepped(b), Walk(b).value, b)
    decreases |b|
  {
    if b != [] {
      match TurnOf(b)
      case Size(v) => SizeExplained(b, v);
      case Skip(n) =>
        TurnPrefix(b);
        WalkSound(b[n..]);
        SkipExplained(b[..n], b[n..], Stepped(b[n..]), Walk(b[n..]).value);
        assert b == b[..n] + b[n..];
    }
  }

  lemma PrefixCut(a: seq<Byte>, c: seq<Byte>, b: seq<Byte>)
    requires a + c <= b
    ensures a <= b && c <= b[|a|..]
  {
    assert b == a + c + b[|a + c|..];
  }

  lemma Regroup(a: seq<Byte>, b: seq<Byte>, c: seq<Byte>)
    ensures a + b + c == a + (b + c)
  {
  }

  lemma ExplainsLess(ps: seq<Property>, size: Option<U32>, b: seq<Byte>)
    requires ps != [] && Explains(ps, size, b)
    ensures Print(ps[0]) <= b && Explains(ps[1..], size, b[|Print(ps[0])|..]) && !ps[0].MaximumPacketSize?
  {
    Regroup(Print(ps[0]), PrintAll(ps[1..]), Last(size));
    PrefixCut(Print(ps[0]), PrintAll(ps[1..]) + Last(size), b);
  }

  lemma TurnOnPrefix(p: Property, b: seq<Byte>)
    requires Print(p) <= b
    ensures b != [] && TurnOf(b) == if p.MaximumPacketSize? then Size(p.size) else Skip(|Print(p)|)
  {
    assert b == Print(p) + b[|Print(p)|..];
    TurnOnPrinted(p, b[|Print(p)|..]);
  }

  lemma {:induction false} WalkComplete(ps: seq<Property>, size: Option<U32>, b: seq<Byte>)
    requires Explains(ps, size, b)
    ensures Walk(b) == Ok(size)
    decreases |ps|
  {
    if ps != [] {
      ExplainsLess(ps, size, b);
      TurnOnPrefix(ps[0], b);
      WalkComplete(ps[1..], size, b[|Print(ps[0])|..]);
    } else if size.Some? {
      assert [] + Last(size) == Last(size);
      TurnOnPrefix(MaximumPacketSize(size.value), b);
    }
  }

  /** On arbitrary bytes: the walk answers `size` exactly for the blocks that can be read that
      way, and rejects all others. */
  lemma WalkExact(b: seq<Byte>, size: Option<U32>)
    ensures Walk(b) == Ok(size) <==> exists ps :: Explains(ps, size, b)
  {
    if Walk(b) == Ok(size) {
      WalkSound(b);
    }
    if ps :| Explains(ps, size, b) {
      WalkComplete(ps, size, b);
    }
  }

  /** One pass through the switch, at an offset of the body: the index arithmetic stays inside
      the block. */
  method TurnAt(body: seq<Byte>, start: nat, end: nat) returns (t: Turn)
    requires start < end <= |body|
    ensures t == TurnOf(body[start..end])
  {
    ghost var b := body[start..end];
    var id, off := body[start], start + 1;
    assert b[0] == id;
    if id == 0x11 {
      off := off + 4;
    } else if id == 0x15 || id == 0x16 {
      if off + 2 > end { return Fail(if id == 0x15 then StringTruncated else BinaryTruncated); }
      assert b[1] == body[off] && b[2] == body[off + 1];
      off := off + 2 + Join16(body[off], body[off + 1]);
    } else if id == 0x17 || id == 0x19 {
      off := off + 1;
    } else if id == 0x21 || id == 0x22 {
      off := off + 2;
    } else if id == 0x26 {
      t := UserAt(body, start, end);
      return;
    } else if id == 0x27 {
      if off + 4 > end { return Fail(ValueTruncated); }
      assert U32At(b, 1) == U32At(body, off);
      return Size(U32At(body, off));
    } else {
      return Fail(Unknown(id));
    }
    return Skip(off - start);
  }

  /** The loop over the two strings of a user property. */
  method UserAt(body: seq<Byte>, start: nat, end: nat) returns (t: Turn)
    requires start < end <= |body| && body[start] == 0x26
    ensures t == TurnOf(body[start..end])
  {
    ghost var b := body[start..end];
    var off := start + 1;
    for i := 0 to 2
      invariant off > start
      invariant i == 0 ==> off == start + 1
      invariant i == 1 ==> |b| >= 3 && off == start + 3 + U16At(b, 1)
      invariant i == 2 ==> TurnOf(b) == Skip(off - start)
    {
      if off + 2 > end { return Fail(UserPropertyTruncated); }
      assert b[off - start] == body[off] && b[off - start + 1] == body[off + 1];
      off := off + 2 + Join16(body[off], body[off + 1]);
    }
    return Skip(off - start);
  }

  /** The property loop of V5ConnectMaximumPacketSize: it terminates on arbitrary bytes. */
  method WalkLoop(body: seq<Byte>, start: nat, end: nat) returns (r: Result<Option<U32>, Error>)
    requires start <= end <= |body|
    ensures r == Walk(body[start..end])
  {
    var off := start;
    while off < end
      invariant start <= off <= end
      invariant Walk(body[start..end]) == Walk(body[off..end])
      decreases end - off
    {
      ghost var b := body[off..end];
      var t := TurnAt(body, off, end);
      match t
      case Fail(e) => return Err(e);
      case Size(v) => return Ok(Some(v));
      case Skip(n) =>
        if off + n > end { return Err(Overflow); }
        assert b[n..] == body[off + n..end];
        off := off + n;
    }
    return Ok(None);
  }

  /** The property length and the block, at an offset of the body. */
  method PropertiesAt(body: seq<Byte>, start: nat) returns (r: Result<Option<U32>, Error>)
    requires start <= |body|
    ensures r == WalkTail(body[start..])
  {
    ghost var tail := body[start..];
    var decoded := DecodeVarint(body[start..]);
    if decoded.Err? { return Err(decoded.error); }
    VarintShape(tail, 4);
    var (len, n) := decoded.value;
    if len <= 0 { return Ok(None); }
    var off := start + n;
    var end := off + len;
    if end > |body| { return Err(PastBody); }
    assert body[off..end] == tail[n..n + len];
    r := WalkLoop(body, off, end);
  }

  /** V5ConnectMaximumPacketSize. */
  method MaximumPacketSizeOf(body: seq<Byte>) returns (r: Result<Option<U32>, Error>)
    ensures r == WalkConnect(body)
  {
    if |body| < 2 { return Err(TooShort); }
    var off := 2 + Join16(body[0], body[1]);
    if |body| < off + 4 { return Err(Truncated); }
    var level := body[off];
    off := off + 4;
    if level != 5 { return Ok(None); }
    r := PropertiesAt(body, off);
  }
}
