/**
 UTF-8 as section 3 of RFC 3629 defines it, with a strict decoder, and what a strict decoder
 makes of a byte string that was cut short: it accepts exactly the cuts between characters.
 */
module Utf8 {
  import opened Options

  type Byte = x: int | 0 <= x < 256

  function Width(c: char): nat {
    var n := c as int;
    if n < 0x80 then 1 else if n < 0x800 then 2 else if n < 0x10000 then 3 else 4
  }

  function EncodeChar(c: char): (b: seq<Byte>)
    ensures |b| == Width(c)
  {
    var n := c as int;
    if n < 0x80 then [n]
    else if n < 0x800 then [0xC0 + n / 0x40, 0x80 + n % 0x40]
    else if n < 0x10000 then [0xE0 + n / 0x1000, 0x80 + n / 0x40 % 0x40, 0x80 + n % 0x40]
    else [0xF0 + n / 0x40000, 0x80 + n / 0x1000 % 0x40, 0x80 + n / 0x40 % 0x40, 0x80 + n % 0x40]
  }

  function Encode(s: string): seq<Byte> { if s == "" then [] else EncodeChar(s[0]) + Encode(s[1..]) }

  // ---- a strict decoder ----

  /** How many bytes a leading byte announces; 0 if it cannot lead. */
  function LeadWidth(b: Byte): nat {
    if b < 0x80 then 1 else if b < 0xC0 then 0 else if b < 0xE0 then 2 else if b < 0xF0 then 3 else if b < 0xF8 then 4 else 0
  }

  function CodePoint(b: seq<Byte>): int
    requires 1 <= |b| <= 4
  {
    var lead: int := b[0];
    if |b| == 1 then lead
    else if |b| == 2 then (lead - 0xC0) * 0x40 + Low(b[1])
    else if |b| == 3 then (lead - 0xE0) * 0x1000 + Low(b[1]) * 0x40 + Low(b[2])
    else (lead - 0xF0) * 0x40000 + Low(b[1]) * 0x1000 + Low(b[2]) * 0x40 + Low(b[3])
  }

  /** What a continuation byte carries. */
  function Low(b: Byte): int {
    var n: int := b;
    n - 0x80
  }

  predicate IsScalar(n: int) { 0 <= n < 0xD800 || 0xE000 <= n < 0x11_0000 }

  /** The first character, unless its bytes are missing, overlong, a surrogate or out of range. */
  function DecodeFirst(b: seq<Byte>): Option<char>
    requires b != []
  {
    var w := LeadWidth(b[0]);
    if w == 0 || |b| < w then None
    else
      var n := CodePoint(b[..w]);
      if IsScalar(n) && EncodeChar(n as char) == b[..w] then Some(n as char) else None
  }

  function Decode(b: seq<Byte>): Option<string> {
    if b == [] then Some("")
    else
      match DecodeFirst(b)
      case None => None
      case Some(c) =>
        match Decode(b[Width(c)..])
        case None => None
        case Some(s) => Some([c] + s)
  }

  lemma LeadOf(c: char)
    ensures LeadWidth(EncodeChar(c)[0]) == Width(c)
  {
  }

  lemma CodePointOf(c: char)
    ensures CodePoint(EncodeChar(c)) == c as int
  {
    var n := c as int;
    if n < 0x80 {
    } else if n < 0x800 {
    } else if n < 0x10000 {
      assert n == n / 0x1000 * 0x1000 + n / 0x40 % 0x40 * 0x40 + n % 0x40;
    } else {
      assert n == n / 0x40000 * 0x40000 + n / 0x1000 % 0x40 * 0x1000 + n / 0x40 % 0x40 * 0x40 + n % 0x40;
    }
  }

  lemma DecodesFirst(c: char, rest: seq<Byte>)
    ensures EncodeChar(c) + rest != [] && DecodeFirst(EncodeChar(c) + rest) == Some(c)
  {
    hide EncodeChar, CodePoint, LeadWidth;
    LeadOf(c);
    CodePointOf(c);
    assert (EncodeChar(c) + rest)[..Width(c)] == EncodeChar(c);
  }

  /** Whatever was encoded decodes to itself. */
  lemma {:induction false} DecodeEncode(s: string)
    ensures Decode(Encode(s)) == Some(s)
  {
    hide EncodeChar, DecodeFirst;
    if s != "" {
      DecodesFirst(s[0], Encode(s[1..]));
      assert Encode(s)[Width(s[0])..] == Encode(s[1..]);
      DecodeEncode(s[1..]);
      assert s == [s[0]] + s[1..];
    }
  }

  lemma FirstIsEncoded(b: seq<Byte>)
    requires b != [] && DecodeFirst(b).Some?
    ensures Width(DecodeFirst(b).value) <= |b| && b[..Width(DecodeFirst(b).value)] == EncodeChar(DecodeFirst(b).value)
  {
    hide EncodeChar, CodePoint;
  }

  /** Whatever decodes was encoded: the decoder accepts nothing else. */
  lemma {:induction false} EncodeDecode(b: seq<Byte>)
    ensures Decode(b).Some? ==> Encode(Decode(b).value) == b
  {
    hide EncodeChar, DecodeFirst;
    if b != [] && DecodeFirst(b).Some? {
      var c := DecodeFirst(b).value;
      FirstIsEncoded(b);
      EncodeDecode(b[Width(c)..]);
      if Decode(b).Some? {
        var s := Decode(b[Width(c)..]).value;
        assert ([c] + s)[1..] == s;
      }
    }
  }

  lemma {:induction false} EncodeAppends(s: string, t: string)
    ensures Encode(s + t) == Encode(s) + Encode(t)
  {
    hide EncodeChar;
    if s == "" { assert s + t == t; }
    else {
      EncodeAppends(s[1..], t);
      assert (s + t)[1..] == s[1..] + t;
    }
  }

  // ---- cutting bytes ----

  /** The number of whole characters whose encoding fits in `n` bytes. */
  function Fit(s: string, n: nat): (k: nat)
    ensures k <= |s|
  {
    if s == "" || Width(s[0]) > n then 0 else 1 + Fit(s[1..], n - Width(s[0]))
  }

  /** The longest prefix of whole characters that fits; less than one more character would. */
  lemma {:induction false} FitIsLongest(s: string, n: nat)
    ensures |Encode(s[..Fit(s, n)])| <= n
    ensures forall j | Fit(s, n) < j <= |s| :: |Encode(s[..j])| > n
    ensures Fit(s, n) < |s| ==> n - |Encode(s[..Fit(s, n)])| <= 3
  {
    hide EncodeChar;
    var k := Fit(s, n);
    if k == 0 {
      forall j | 0 < j <= |s| ensures |Encode(s[..j])| > n { assert s[..j][0] == s[0]; }
    } else {
      FitIsLongest(s[1..], n - Width(s[0]));
      assert s[..k][1..] == s[1..][..k - 1];
      forall j | k < j <= |s| ensures |Encode(s[..j])| > n { assert s[..j][1..] == s[1..][..j - 1]; }
    }
  }

  /** An encoding that is a prefix of another is the encoding of a prefix. */
  lemma {:induction false} EncodedPrefix(s: string, t: string)
    requires Encode(t) <= Encode(s)
    ensures t <= s
    decreases |t|
  {
    hide EncodeChar, DecodeFirst;
    if t != "" {
      DecodesFirst(t[0], Encode(s)[Width(t[0])..]);
      assert Encode(s)[..Width(t[0])] == Encode(t)[..Width(t[0])] == EncodeChar(t[0]);
      assert Encode(s) == EncodeChar(t[0]) + Encode(s)[Width(t[0])..];
      DecodesFirst(s[0], Encode(s[1..]));
      assert s[0] == t[0];
      assert Encode(t[1..]) <= Encode(s[1..]) by {
        assert Encode(t[1..]) == Encode(t)[Width(t[0])..];
        assert Encode(s[1..]) == Encode(s)[Width(s[0])..];
      }
      EncodedPrefix(s[1..], t[1..]);
    }
  }

  lemma EncodeOfPrefix(s: string, k: nat)
    requires k <= |s|
    ensures Encode(s[..k]) <= Encode(s)
  {
    EncodeAppends(s[..k], s[k..]);
    assert s == s[..k] + s[k..];
  }

  /** A cut decodes exactly when it falls between two characters, and then to the characters before it. */
  lemma CutDecodesExactlyWhen(s: string, m: nat)
    requires m <= |Encode(s)|
    ensures Decode(Encode(s)[..m]).Some? <==> exists k: nat :: k <= |s| && |Encode(s[..k])| == m
    ensures Decode(Encode(s)[..m]).Some? ==> Decode(Encode(s)[..m]).value <= s
  {
    hide Encode, Decode;
    var cut := Encode(s)[..m];
    if Decode(cut).Some? {
      var t := Decode(cut).value;
      EncodeDecode(cut);
      EncodedPrefix(s, t);
      assert t == s[..|t|];
    }
    if k: nat :| k <= |s| && |Encode(s[..k])| == m {
      EncodeOfPrefix(s, k);
      assert cut == Encode(s[..k]);
      DecodeEncode(s[..k]);
    }
  }
}
