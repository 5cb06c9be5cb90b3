/** The takeover and quota NOTIFY payload: a hyphenated UUID followed directly by the client id.
    A character stands for one byte. */
module Payload {
  import opened Prelude

  /** A UUID as its 32 hexadecimal digits. */
  type Uuid = u: seq<int> | |u| == 32 && forall i :: 0 <= i < 32 ==> 0 <= u[i] < 16 witness seq(32, _ => 0)

  predicate Hyphen(i: int) { i == 8 || i == 13 || i == 18 || i == 23 }

  /** The digit shown at position i of the printed form, and the position showing digit d. */
  function DigitAt(i: int): int {
    i - (if i > 23 then 4 else if i > 18 then 3 else if i > 13 then 2 else if i > 8 then 1 else 0)
  }
  function PlaceOf(d: int): int {
    d + (if d >= 20 then 4 else if d >= 16 then 3 else if d >= 12 then 2 else if d >= 8 then 1 else 0)
  }

  function HexChar(x: int): char
    requires 0 <= x < 16
  {
    "0123456789abcdef"[x]
  }

  function HexValue(c: char): Option<int> {
    if '0' <= c <= '9' then Some(c as int - '0' as int)
    else if 'a' <= c <= 'f' then Some(c as int - 'a' as int + 10)
    else if 'A' <= c <= 'F' then Some(c as int - 'A' as int + 10)
    else None
  }

  /** uuid.UUID.String. */
  function Print(u: Uuid): (s: string)
    ensures |s| == 36
  {
    seq(36, i requires 0 <= i < 36 => if Hyphen(i) then '-' else HexChar(u[DigitAt(i)]))
  }

  /** A 36-byte string that uuid.Parse accepts: hyphens in their places, hexadecimal digits of
      either case everywhere else. */
  predicate WellFormed(s: string) {
    && |s| == 36
    && forall i :: 0 <= i < 36 ==> if Hyphen(i) then s[i] == '-' else HexValue(s[i]).Some?
  }

  lemma PlaceIsDigit(d: int)
    requires 0 <= d < 32
    ensures 0 <= PlaceOf(d) < 36 && !Hyphen(PlaceOf(d)) && DigitAt(PlaceOf(d)) == d
  {
  }

  lemma DigitIsPlace(i: int)
    requires 0 <= i < 36 && !Hyphen(i)
    ensures 0 <= DigitAt(i) < 32 && PlaceOf(DigitAt(i)) == i
  {
  }

  function Digits(s: string): (u: Uuid)
    requires WellFormed(s)
  {
    seq(32, d requires 0 <= d < 32 => HexValue(s[PlaceOf(d)]).value)
  }

  /** parseTakeoverPayload: the superseded token, the client id, and whether a token was found. */
  function Parse(payload: string): (Uuid, string, bool) {
    if |payload| < 36 then (seq(32, _ => 0), payload, false)
    else if !WellFormed(payload[..36]) then (seq(32, _ => 0), payload, false)
    else (Digits(payload[..36]), payload[36..], true)
  }

  /** What NotifyTakeover and NotifyQuota send. */
  function Notify(token: Uuid, client: string): string { Print(token) + client }

  lemma HexRoundTrip(x: int)
    requires 0 <= x < 16
    ensures HexValue(HexChar(x)) == Some(x)
  {
  }

  lemma PrintIsWellFormed(u: Uuid)
    ensures WellFormed(Print(u)) && Digits(Print(u)) == u
  {
    forall i | 0 <= i < 36 && !Hyphen(i) ensures HexValue(Print(u)[i]).Some? {
      DigitIsPlace(i);
      HexRoundTrip(u[DigitAt(i)]);
    }
    forall d | 0 <= d < 32 ensures Digits(Print(u))[d] == u[d] {
      PlaceIsDigit(d);
      HexRoundTrip(u[d]);
    }
  }

  /** Round trip: for every token and every client id, the receiver reads back exactly the token
      and the client id that were sent, although there is no separator. */
  lemma PayloadRoundTrip(token: Uuid, client: string)
    ensures Parse(Notify(token, client)) == (token, client, true)
  {
    assert Notify(token, client)[..36] == Print(token);
    assert Notify(token, client)[36..] == client;
    PrintIsWellFormed(token);
  }

  function Lower(c: char): char { if 'A' <= c <= 'F' then ((c as int) + 32) as char else c }

  lemma PrintDigits(s: string)
    requires WellFormed(s)
    ensures Print(Digits(s)) == seq(36, i requires 0 <= i < 36 => Lower(s[i]))
  {
    forall i | 0 <= i < 36 ensures Print(Digits(s))[i] == Lower(s[i]) {
      if !Hyphen(i) { DigitIsPlace(i); HexCase(s[i]); }
    }
  }

  lemma HexCase(c: char)
    requires HexValue(c).Some?
    ensures 0 <= HexValue(c).value < 16 && HexChar(HexValue(c).value) == Lower(c)
  {
  }

  /** The converse: an accepted payload is, up to the case of its digits, the notification for what
      it was read as; so two notifications collide only if they are equal. */
  lemma AcceptedIsNotify(payload: string)
    requires Parse(payload).2
    ensures var (token, client, _) := Parse(payload);
      Notify(token, client) == seq(36, i requires 0 <= i < 36 => Lower(payload[i])) + client && payload[36..] == client
  {
    PrintDigits(payload[..36]);
    assert seq(36, i requires 0 <= i < 36 => Lower(payload[..36][i]))
        == seq(36, i requires 0 <= i < 36 => Lower(payload[i]));
  }

  lemma HexOfLower(c: char, x: int)
    requires 0 <= x < 16 && Lower(c) == HexChar(x)
    ensures HexValue(c) == Some(x)
  {
  }

  /** The parser does not mind the case of the digits: whatever lowers to a printed UUID is read as it. */
  lemma AnyCaseAccepted(u: Uuid, s: string, client: string)
    requires |s| == 36 && forall i | 0 <= i < 36 :: Lower(s[i]) == Print(u)[i]
    ensures Parse(s + client) == (u, client, true)
  {
    forall i | 0 <= i < 36 ensures if Hyphen(i) then s[i] == '-' else HexValue(s[i]) == Some(u[DigitAt(i)]) {
      if !Hyphen(i) {
        DigitIsPlace(i);
        HexOfLower(s[i], u[DigitAt(i)]);
      }
    }
    forall d | 0 <= d < 32 ensures 0 <= PlaceOf(d) < 36 && HexValue(s[PlaceOf(d)]) == Some(u[d]) { PlaceIsDigit(d); }
    assert Digits(s) == u;
    assert (s + client)[..36] == s && (s + client)[36..] == client;
  }

  /** A bare client id (the older payload) is returned intact exactly when it does not itself begin
      with a UUID. */
  lemma BareClientId(client: string)
    ensures Parse(client).1 == client && !Parse(client).2 <==> !(|client| >= 36 && WellFormed(client[..36]))
  {
  }
}
