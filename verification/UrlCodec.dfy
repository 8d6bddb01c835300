/** The query encoder of the client, and the form decoding a server applies to it. */
module UrlCodec {
  import opened Bytes
  import opened Options

  /** isalnum in the C locale, and the four marks of section 2.3 of RFC 3986. */
  predicate Unreserved(b: Byte) {
    || 0x30 <= b <= 0x39 || 0x41 <= b <= 0x5A || 0x61 <= b <= 0x7A
    || b == 0x2D || b == 0x5F || b == 0x2E || b == 0x7E
  }

  function HexDigit(n: nat): char
    requires n < 16
  {
    if n < 10 then '0' + n as char else 'A' + (n - 10) as char
  }

  function HexValue(c: char): Option<nat> {
    if '0' <= c <= '9' then Some((c - '0') as nat)
    else if 'A' <= c <= 'F' then Some((c - 'A') as nat + 10)
    else if 'a' <= c <= 'f' then Some((c - 'a') as nat + 10)
    else None
  }

  function EncodeByte(b: Byte): string {
    if Unreserved(b) then [b as char]
    else if b == 0x20 then "+"
    else ['%', HexDigit(b as nat / 16), HexDigit(b as nat % 16)]
  }

  function Encode(value: seq<Byte>): string {
    if value == [] then "" else Encode(value[..|value| - 1]) + EncodeByte(value[|value| - 1])
  }

  method UrlEncode(value: seq<Byte>) returns (encoded: string)
    ensures encoded == Encode(value)
  {
    encoded := "";
    for i := 0 to |value|
      invariant encoded == Encode(value[..i])
    {
      var c := value[i];
      if Unreserved(c) {
        encoded := encoded + [c as char];
      } else if c == 0x20 {
        encoded := encoded + "+";
      } else {
        encoded := encoded + ['%', HexDigit(c as nat / 16), HexDigit(c as nat % 16)];
      }
      assert value[..i + 1][..i] == value[..i];
    }
    assert value[..|value|] == value;
  }

  /** One unit of an encoded text: its length and the byte it stands for. */
  function Unit(t: string): Option<(nat, Byte)>
    requires t != ""
    ensures Unit(t).Some? ==> 0 < Unit(t).value.0 <= |t|
  {
    if t[0] == '+' then Some((1, 0x20))
    else if t[0] == '%' then
      if |t| < 3 || HexValue(t[1]).None? || HexValue(t[2]).None? then None
      else Some((3, (HexValue(t[1]).value * 16 + HexValue(t[2]).value) as Byte))
    else if t[0] as int < 256 then Some((1, t[0] as int as Byte))
    else None
  }

  /** Decoding of application/x-www-form-urlencoded text. */
  function FormDecode(t: string): Option<seq<Byte>> {
    if t == "" then Some([])
    else
      match Unit(t)
      case None => None
      case Some((n, b)) =>
        match FormDecode(t[n..])
        case None => None
        case Some(rest) => Some([b] + rest)
  }

  /** Only unreserved characters, '+' and well-formed upper-case triplets. */
  predicate WellFormed(t: string) {
    t == ""
    || (t[0] == '+' && WellFormed(t[1..]))
    || (t[0] as int < 256 && Unreserved(t[0] as int as Byte) && WellFormed(t[1..]))
    || (t[0] == '%' && |t| >= 3 && UpperHex(t[1]) && UpperHex(t[2]) && WellFormed(t[3..]))
  }

  predicate UpperHex(c: char) {
    '0' <= c <= '9' || 'A' <= c <= 'F'
  }

  lemma EncodeByteDecodes(b: Byte, rest: string)
    ensures var t := EncodeByte(b) + rest; Unit(t) == Some((|EncodeByte(b)|, b)) && t[|EncodeByte(b)|..] == rest
    ensures WellFormed(rest) ==> WellFormed(EncodeByte(b) + rest)
  {
    var t := EncodeByte(b) + rest;
    assert t[|EncodeByte(b)|..] == rest;
    assert !Unreserved(b) && b != 0x20 ==> t[1] == HexDigit(b as nat / 16) && t[2] == HexDigit(b as nat % 16);
  }

  lemma EncodeMore(value: seq<Byte>, c: Byte)
    ensures Encode(value + [c]) == Encode(value) + EncodeByte(c)
    ensures Encode([]) == ""
  {
    assert (value + [c])[..|value|] == value;
  }

  lemma {:induction false} EncodeFront(b: Byte, rest: seq<Byte>)
    ensures Encode([b] + rest) == EncodeByte(b) + Encode(rest)
  {
    hide Encode, EncodeByte;
    if rest == [] {
      assert [b] + rest == [] + [b];
      EncodeMore([], b);
    } else {
      var front, c := rest[..|rest| - 1], rest[|rest| - 1];
      EncodeFront(b, front);
      EncodeMore([b] + front, c);
      EncodeMore(front, c);
      assert rest == front + [c] && [b] + rest == [b] + front + [c];
    }
  }

  /** Round trip: decoding an encoded byte string gives it back; and the text is well formed. */
  lemma {:induction false} RoundTrip(value: seq<Byte>)
    ensures FormDecode(Encode(value)) == Some(value) && WellFormed(Encode(value))
  {
    if value != [] {
      RoundTrip(value[1..]);
      EncodeFront(value[0], value[1..]);
      assert value == [value[0]] + value[1..];
      EncodeByteDecodes(value[0], Encode(value[1..]));
    }
  }

  lemma EncodeInjective(a: seq<Byte>, b: seq<Byte>)
    requires Encode(a) == Encode(b)
    ensures a == b
  {
    RoundTrip(a);
    RoundTrip(b);
  }

  /** No character of a well-formed text ends a parameter or the query. */
  lemma {:induction false} CannotSplit(t: string, i: nat)
    requires WellFormed(t) && i < |t|
    ensures t[i] != '&' && t[i] != '=' && t[i] != '#' && t[i] != ';' && t[i] != '?' && t[i] != ' '
  {
    if t[0] == '%' {
      if i >= 3 { CannotSplit(t[3..], i - 3); }
    } else if i >= 1 {
      CannotSplit(t[1..], i - 1);
    }
  }

  /** How many bytes stand for themselves or for a blank. */
  function Plain(value: seq<Byte>): nat {
    if value == [] then 0
    else
      var c := value[|value| - 1];
      Plain(value[..|value| - 1]) + if Unreserved(c) || c == 0x20 then 1 else 0
  }

  /** Nothing is escaped that need not be: unreserved bytes stand as they are, and every byte but these
      and the blank takes three characters. */
  lemma {:induction false} EncodesSparingly(value: seq<Byte>)
    ensures |Encode(value)| == 3 * |value| - 2 * Plain(value)
    ensures (forall i :: 0 <= i < |value| ==> Unreserved(value[i])) ==>
      |Encode(value)| == |value| && forall i :: 0 <= i < |value| ==> Encode(value)[i] == value[i] as char
  {
    if value != [] {
      EncodesSparingly(value[..|value| - 1]);
      hide Unreserved;
    }
  }
}
