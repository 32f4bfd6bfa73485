/** Base64 with the URL-safe alphabet and no padding, and the lenient decoder that reads it. */
module Base64 {
  import opened Wrappers
  import opened Bytes

  type Sextet = n: nat | n < 64

  /** The alphabet of section 5 of RFC 4648. */
  function Char(n: Sextet): char
  {
    if n < 26 then 'A' + n as char
    else if n < 52 then 'a' + (n - 26) as char
    else if n < 62 then '0' + (n - 52) as char
    else if n == 62 then '-'
    else '_'
  }

  /** What a character stands for to the decoder, which translates '-' and '_' and knows '+' and '/'. */
  function Value(c: char): Option<Sextet>
  {
    if 'A' <= c <= 'Z' then Some((c - 'A') as int)
    else if 'a' <= c <= 'z' then Some((c - 'a') as int + 26)
    else if '0' <= c <= '9' then Some((c - '0') as int + 52)
    else if c == '-' || c == '+' then Some(62)
    else if c == '_' || c == '/' then Some(63)
    else None
  }

  lemma ValueOfChar(n: Sextet)
    ensures Value(Char(n)) == Some(n) && Char(n) != '=' && Char(n) != '.' && Char(n) < 128 as char
  {
  }

  const PAD := '='

  /** `base64.urlsafe_b64encode` */
  function Padded(v: seq<Byte>): string
  {
    if |v| == 0 then []
    else if |v| == 1 then Two(v[0], 0) + [PAD, PAD]
    else if |v| == 2 then Two(v[0], v[1]) + [Third(v[1], 0), PAD]
    else Group(v[0], v[1], v[2]) + Padded(v[3..])
  }

  function Two(a: Byte, b: Byte): string
  {
    [Char(a / 4), Char(a % 4 * 16 + b / 16)]
  }

  function Third(b: Byte, c: Byte): char
  {
    Char(b % 16 * 4 + c / 64)
  }

  /** Three bytes as four characters. */
  function Group(a: Byte, b: Byte, c: Byte): string
  {
    Two(a, b) + [Third(b, c), Char(c % 64)]
  }

  function StripPad(s: string): string
  {
    if s != [] && s[|s| - 1] == PAD then StripPad(s[..|s| - 1]) else s
  }

  /** `_b64encode` */
  function Encode(v: seq<Byte>): string
  {
    StripPad(Padded(v))
  }

  /** How far the decoder is inside a group of four characters. */
  datatype Quad = Quad(pos: nat, left: nat, pads: nat)

  predicate QuadOk(q: Quad)
  {
    q.pos < 4 && (q.pos == 1 ==> q.left < 64) && (q.pos == 2 ==> q.left < 16) && (q.pos == 3 ==> q.left < 4)
  }

  const START := Quad(0, 0, 0)

  /** One data character. */
  function Digest(q: Quad, n: Sextet): (r: (Quad, seq<Byte>))
    requires QuadOk(q)
    ensures QuadOk(r.0)
  {
    if q.pos == 0 then (Quad(1, n, 0), [])
    else if q.pos == 1 then (Quad(2, n % 16, 0), [q.left * 4 + n / 16])
    else if q.pos == 2 then (Quad(3, n % 4, 0), [q.left * 16 + n / 4])
    else (Quad(0, 0, 0), [q.left * 64 + n])
  }

  /** `binascii.a2b_base64`, not strict: padding that completes a group ends the data, other padding and
      other characters are skipped, and data must not end inside a group. */
  function Scan(q: Quad, s: string): Option<seq<Byte>>
    requires QuadOk(q)
    decreases |s|
  {
    if s == [] then (if q.pos != 0 then None else Some([]))
    else if s[0] == PAD then
      if q.pos >= 2 && q.pos + q.pads + 1 >= 4 then Some([])
      else Scan(if q.pos >= 2 then q.(pads := q.pads + 1) else q, s[1..])
    else if Value(s[0]).None? then Scan(q, s[1..])
    else
      var (next, out) := Digest(q, Value(s[0]).value);
      var rest :- Scan(next, s[1..]);
      Some(out + rest)
  }

  function Pads(n: nat): string
  {
    if n == 0 then [] else [PAD] + Pads(n - 1)
  }

  predicate IsAscii(s: string)
  {
    forall i :: 0 <= i < |s| ==> s[i] < 128 as char
  }

  /** `_b64decode`: the padding is added back, and text beyond ASCII is refused. */
  function Decode(s: string): Option<seq<Byte>>
  {
    if !IsAscii(s) then None else Scan(START, s + Pads(Missing(|s|)))
  }

  // ---------------------------------------------------------------- round trip

  /** What is left when padding is stripped, group by group. */
  function Unpadded(v: seq<Byte>): string
  {
    if |v| == 0 then []
    else if |v| == 1 then Two(v[0], 0)
    else if |v| == 2 then Two(v[0], v[1]) + [Third(v[1], 0)]
    else Group(v[0], v[1], v[2]) + Unpadded(v[3..])
  }

  predicate Plain(s: string)
  {
    forall i :: 0 <= i < |s| ==> s[i] != PAD && s[i] != '.' && s[i] < 128 as char
  }

  lemma TwoIsPlain(a: Byte, b: Byte)
    ensures Plain(Two(a, b))
  {
    ValueOfChar(a / 4);
    ValueOfChar(a % 4 * 16 + b / 16);
  }

  lemma ThirdIsPlain(b: Byte, c: Byte)
    ensures Plain([Third(b, c)])
  {
    ValueOfChar(b % 16 * 4 + c / 64);
  }

  lemma GroupIsPlain(a: Byte, b: Byte, c: Byte)
    ensures Plain(Group(a, b, c))
  {
    TwoIsPlain(a, b);
    ThirdIsPlain(b, c);
    ValueOfChar(c % 64);
    assert [Third(b, c)][0] == Third(b, c);
  }

  lemma {:induction false} UnpaddedIsPlain(v: seq<Byte>)
    ensures Plain(Unpadded(v))
  {
    if |v| >= 3 {
      GroupIsPlain(v[0], v[1], v[2]);
      UnpaddedIsPlain(v[3..]);
    } else if |v| == 2 {
      TwoIsPlain(v[0], v[1]);
      ThirdIsPlain(v[1], 0);
    } else if |v| == 1 {
      TwoIsPlain(v[0], 0);
    }
  }

  /** The padding of a byte string. */
  function Padding(v: seq<Byte>): string
  {
    if |v| == 0 then []
    else if |v| == 1 then [PAD, PAD]
    else if |v| == 2 then [PAD]
    else Padding(v[3..])
  }

  function Missing(n: nat): nat
  {
    (4 - n % 4) % 4
  }

  /** The padding that the length asks for is the padding that was stripped. */
  lemma {:induction false} PadCount(v: seq<Byte>)
    ensures Padding(v) == Pads(Missing(|Unpadded(v)|))
  {
    if |v| >= 3 {
      PadCount(v[3..]);
      var u := Unpadded(v[3..]);
      assert |Group(v[0], v[1], v[2])| == 4;
      assert |Unpadded(v)| == |u| + 4;
      MissingRepeats(|u|);
    } else if |v| == 2 {
      assert |Unpadded(v)| == 3;
      assert Pads(1) == [PAD] + Pads(0);
    } else if |v| == 1 {
      assert |Unpadded(v)| == 2;
      assert Pads(2) == [PAD] + ([PAD] + Pads(0));
    }
  }

  lemma MissingRepeats(n: nat)
    ensures Missing(n + 4) == Missing(n)
  {
  }

  lemma {:induction false} PaddedIsUnpadded(v: seq<Byte>)
    ensures Padded(v) == Unpadded(v) + Padding(v)
  {
    if |v| >= 3 {
      PaddedIsUnpadded(v[3..]);
      Associates(Group(v[0], v[1], v[2]), Unpadded(v[3..]), Padding(v[3..]));
    } else if |v| == 2 {
      Associates(Two(v[0], v[1]), [Third(v[1], 0)], [PAD]);
    }
  }

  lemma Associates(a: string, b: string, c: string)
    ensures a + (b + c) == (a + b) + c
  {
  }

  lemma {:induction false} StripPads(s: string, n: nat)
    requires PAD !in s
    ensures StripPad(s + Pads(n)) == s
  {
    PadsEnd(n);
    if n > 0 {
      var t := s + Pads(n);
      assert t[..|t| - 1] == s + Pads(n - 1);
      StripPads(s, n - 1);
    } else {
      assert s + Pads(0) == s;
    }
  }

  lemma {:induction false} PadsEnd(n: nat)
    ensures |Pads(n)| == n
    ensures n > 0 ==> Pads(n) == Pads(n - 1) + [PAD]
  {
    if n > 1 {
      PadsEnd(n - 1);
    }
  }

  lemma EncodeIsUnpadded(v: seq<Byte>)
    ensures Encode(v) == Unpadded(v) && Plain(Encode(v))
  {
    PaddedIsUnpadded(v);
    UnpaddedIsPlain(v);
    PadCount(v);
    StripPads(Unpadded(v), Missing(|Unpadded(v)|));
  }

  function Then(out: seq<Byte>, rest: Option<seq<Byte>>): Option<seq<Byte>>
  {
    match rest case None => None case Some(r) => Some(out + r)
  }

  lemma ThenTwice(a: seq<Byte>, b: seq<Byte>, rest: Option<seq<Byte>>)
    ensures Then(a, Then(b, rest)) == Then(a + b, rest)
  {
    if rest.Some? {
      assert a + (b + rest.value) == (a + b) + rest.value;
    }
  }

  /** The decoder takes in one character. */
  lemma ScanChar(q: Quad, n: Sextet, t: string)
    requires QuadOk(q)
    ensures Scan(q, [Char(n)] + t) == Then(Digest(q, n).1, Scan(Digest(q, n).0, t))
  {
    ValueOfChar(n);
    assert ([Char(n)] + t)[1..] == t;
  }

  lemma ScanTwo(a: Byte, b: Byte, t: string)
    ensures Scan(START, Two(a, b) + t) == Then([a], Scan(Quad(2, b / 16, 0), t))
  {
    var n1, n2 := a / 4, a % 4 * 16 + b / 16;
    assert Two(a, b) + t == [Char(n1)] + ([Char(n2)] + t);
    ScanChar(START, n1, [Char(n2)] + t);
    ScanChar(Quad(1, n1, 0), n2, t);
    assert n1 * 4 + n2 / 16 == a && n2 % 16 == b / 16;
    ThenTwice([], [a], Scan(Quad(2, b / 16, 0), t));
    assert [] + [a] == [a];
  }

  lemma ScanThird(b: Byte, c: Byte, t: string)
    ensures Scan(Quad(2, b / 16, 0), [Third(b, c)] + t) == Then([b], Scan(Quad(3, c / 64, 0), t))
  {
    var n := b % 16 * 4 + c / 64;
    ScanChar(Quad(2, b / 16, 0), n, t);
    assert b / 16 * 16 + n / 4 == b && n % 4 == c / 64;
  }

  lemma ScanFourth(c: Byte, t: string)
    ensures Scan(Quad(3, c / 64, 0), [Char(c % 64)] + t) == Then([c], Scan(START, t))
  {
    ScanChar(Quad(3, c / 64, 0), c % 64, t);
    assert c / 64 * 64 + c % 64 == c;
  }

  lemma ScanGroup(a: Byte, b: Byte, c: Byte, t: string)
    ensures Scan(START, Group(a, b, c) + t) == Then([a, b, c], Scan(START, t))
  {
    var third, fourth := [Third(b, c)], [Char(c % 64)];
    assert Group(a, b, c) + t == Two(a, b) + (third + (fourth + t));
    ScanTwo(a, b, third + (fourth + t));
    ScanThird(b, c, fourth + t);
    ScanFourth(c, t);
    ThenTwice([b], [c], Scan(START, t));
    ThenTwice([a], [b] + [c], Scan(START, t));
    assert [a] + ([b] + [c]) == [a, b, c];
  }

  lemma {:induction false} ScanPadded(v: seq<Byte>)
    ensures Scan(START, Padded(v)) == Some(v)
  {
    if |v| >= 3 {
      ScanGroup(v[0], v[1], v[2], Padded(v[3..]));
      ScanPadded(v[3..]);
      assert v == [v[0], v[1], v[2]] + v[3..];
    } else if |v| == 2 {
      var end := [PAD];
      assert Padded(v) == Two(v[0], v[1]) + ([Third(v[1], 0)] + end);
      ScanTwo(v[0], v[1], [Third(v[1], 0)] + end);
      ScanThird(v[1], 0, end);
      assert Scan(Quad(3, 0, 0), end) == Some([]);
      assert v == [v[0]] + ([v[1]] + []);
    } else if |v| == 1 {
      var end := [PAD, PAD];
      ScanTwo(v[0], 0, end);
      assert end[1..] == [PAD];
      assert Scan(Quad(2, 0, 0), end) == Some([]);
      assert v == [v[0]] + [];
    }
  }

  /** Decoding inverts encoding for every byte string (section 5 of RFC 4648). */
  lemma DecodeEncode(v: seq<Byte>)
    ensures Decode(Encode(v)) == Some(v)
    ensures Plain(Encode(v)) && (v != [] ==> Encode(v) != [])
  {
    EncodeIsUnpadded(v);
    PadCount(v);
    PaddedIsUnpadded(v);
    ScanPadded(v);
    if Encode(v) == [] {
      assert Unpadded(v) == [];
      assert v == [];
    }
  }

  /** So no two byte strings have one encoding. */
  lemma EncodeInjective(v: seq<Byte>, w: seq<Byte>)
    requires Encode(v) == Encode(w)
    ensures v == w
  {
    DecodeEncode(v);
    DecodeEncode(w);
  }
}
