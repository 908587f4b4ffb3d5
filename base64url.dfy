/**
 * The content key of a search: the keyword's bytes in unpadded base64url, the encoding of
 * section 5 of RFC 4648 with the padding of section 3.2 left off (Go's
 * `base64.RawURLEncoding`). A decoder is given only to show that the key determines the
 * keyword, so that equal keys mean equal searches and different searches never share a key.
 */
module Base64Url {
  import opened Wrappers

  type byte = x: int | 0 <= x < 256

  /** The URL- and filename-safe alphabet of RFC 4648, table 2. */
  function Sym(i: nat): (c: char)
    requires i < 64
  {
    if i < 26 then (('A' as int) + i) as char
    else if i < 52 then (('a' as int) + (i - 26)) as char
    else if i < 62 then (('0' as int) + (i - 52)) as char
    else if i == 62 then '-'
    else '_'
  }

  predicate IsSym(c: char) {
    ('A' <= c <= 'Z') || ('a' <= c <= 'z') || ('0' <= c <= '9') || c == '-' || c == '_'
  }

  function SymIndex(c: char): (i: nat)
    requires IsSym(c)
    ensures i < 64 && Sym(i) == c
  {
    if 'A' <= c <= 'Z' then (c as int) - ('A' as int)
    else if 'a' <= c <= 'z' then (c as int) - ('a' as int) + 26
    else if '0' <= c <= '9' then (c as int) - ('0' as int) + 52
    else if c == '-' then 62
    else 63
  }

  lemma SymIndexSym(i: nat)
    requires i < 64
    ensures IsSym(Sym(i)) && SymIndex(Sym(i)) == i
  {
  }

  /** Three bytes, 24 bits, as four 6-bit symbols, most significant bits first. */
  function Quad(a: byte, b: byte, c: byte): string {
    [Sym(a / 4), Sym((a % 4) * 16 + b / 16), Sym((b % 16) * 4 + c / 64), Sym(c % 64)]
  }

  /** Two trailing bytes, 16 bits padded with two zero bits, as three symbols. */
  function Triple(a: byte, b: byte): string {
    [Sym(a / 4), Sym((a % 4) * 16 + b / 16), Sym((b % 16) * 4)]
  }

  /** One trailing byte, 8 bits padded with four zero bits, as two symbols. */
  function Pair(a: byte): string {
    [Sym(a / 4), Sym((a % 4) * 16)]
  }

  /** base64.RawURLEncoding.EncodeToString. */
  function Encode(bs: seq<byte>): (s: string)
    decreases |bs|
  {
    if |bs| == 0 then ""
    else if |bs| == 1 then Pair(bs[0])
    else if |bs| == 2 then Triple(bs[0], bs[1])
    else Quad(bs[0], bs[1], bs[2]) + Encode(bs[3..])
  }

  predicate AllSyms(s: string) {
    forall i :: 0 <= i < |s| ==> IsSym(s[i])
  }

  function DecodeQuad(s: string): (r: seq<byte>)
    requires |s| == 4 && AllSyms(s)
  {
    var i0, i1, i2, i3 := SymIndex(s[0]), SymIndex(s[1]), SymIndex(s[2]), SymIndex(s[3]);
    [i0 * 4 + i1 / 16, (i1 % 16) * 16 + i2 / 4, (i2 % 4) * 64 + i3]
  }

  function DecodeTriple(s: string): (r: seq<byte>)
    requires |s| == 3 && AllSyms(s)
  {
    var i0, i1, i2 := SymIndex(s[0]), SymIndex(s[1]), SymIndex(s[2]);
    [i0 * 4 + i1 / 16, (i1 % 16) * 16 + i2 / 4]
  }

  function DecodePair(s: string): (r: seq<byte>)
    requires |s| == 2 && AllSyms(s)
  {
    [SymIndex(s[0]) * 4 + SymIndex(s[1]) / 16]
  }

  /** Unpadded base64url decoding; None for a character outside the alphabet or a bad length. */
  function Decode(s: string): Option<seq<byte>>
    decreases |s|
  {
    if !AllSyms(s) then None
    else if |s| == 0 then Some([])
    else if |s| == 1 then None
    else if |s| == 2 then Some(DecodePair(s))
    else if |s| == 3 then Some(DecodeTriple(s))
    else
      assert AllSyms(s[..4]) && AllSyms(s[4..]);
      match Decode(s[4..])
      case None => None
      case Some(rest) => Some(DecodeQuad(s[..4]) + rest)
  }

  lemma DivMod16(q: nat, r: nat)
    requires r < 16
    ensures (q * 16 + r) / 16 == q && (q * 16 + r) % 16 == r
  {
  }

  lemma DivMod4(q: nat, r: nat)
    requires r < 4
    ensures (q * 4 + r) / 4 == q && (q * 4 + r) % 4 == r
  {
  }

  /** The four symbols of a quad, as indices into the alphabet. */
  lemma QuadIndices(a: byte, b: byte, c: byte)
    ensures var q := Quad(a, b, c);
      && AllSyms(q)
      && SymIndex(q[0]) == a / 4 && SymIndex(q[1]) == (a % 4) * 16 + b / 16
      && SymIndex(q[2]) == (b % 16) * 4 + c / 64 && SymIndex(q[3]) == c % 64
  {
    SymIndexSym(a / 4); SymIndexSym((a % 4) * 16 + b / 16); SymIndexSym((b % 16) * 4 + c / 64); SymIndexSym(c % 64);
  }

  /** The decoder's arithmetic puts the three bytes back together from the four indices. */
  lemma QuadBytes(a: byte, b: byte, c: byte)
    ensures var i0, i1, i2, i3 := a / 4, (a % 4) * 16 + b / 16, (b % 16) * 4 + c / 64, c % 64;
      i0 * 4 + i1 / 16 == a && (i1 % 16) * 16 + i2 / 4 == b && (i2 % 4) * 64 + i3 == c
  {
    DivMod16(a % 4, b / 16);
    DivMod4(b % 16, c / 64);
  }

  lemma QuadRoundTrip(a: byte, b: byte, c: byte)
    ensures AllSyms(Quad(a, b, c)) && DecodeQuad(Quad(a, b, c)) == [a, b, c]
  {
    QuadIndices(a, b, c);
    QuadBytes(a, b, c);
  }

  lemma TripleRoundTrip(a: byte, b: byte)
    ensures AllSyms(Triple(a, b)) && DecodeTriple(Triple(a, b)) == [a, b]
  {
    var i0, i1, i2 := a / 4, (a % 4) * 16 + b / 16, (b % 16) * 4;
    SymIndexSym(i0); SymIndexSym(i1); SymIndexSym(i2);
    DivMod16(a % 4, b / 16);
    DivMod4(b % 16, 0);
  }

  lemma PairRoundTrip(a: byte)
    ensures AllSyms(Pair(a)) && DecodePair(Pair(a)) == [a]
  {
    SymIndexSym(a / 4); SymIndexSym((a % 4) * 16);
    DivMod16(a % 4, 0);
  }

  /** Decoding the encoding gives the bytes back. */
  lemma {:induction false} DecodeEncode(bs: seq<byte>)
    ensures Decode(Encode(bs)) == Some(bs)
    decreases |bs|
  {
    if |bs| >= 3 {
      DecodeEncode(bs[3..]);
      DecodeEncodeStep(bs);
    } else {
      DecodeEncodeShort(bs);
    }
  }

  /** Fewer than three bytes encode to a trailing group that decodes back. */
  lemma DecodeEncodeShort(bs: seq<byte>)
    requires |bs| < 3
    ensures Decode(Encode(bs)) == Some(bs)
  {
    if |bs| == 1 {
      PairRoundTrip(bs[0]);
      assert Encode(bs) == Pair(bs[0]);
      Shape1(bs);
    } else if |bs| == 2 {
      TripleRoundTrip(bs[0], bs[1]);
      assert Encode(bs) == Triple(bs[0], bs[1]);
      Shape2(bs);
    }
  }

  /** A leading group of three bytes decodes back in front of the rest. */
  lemma DecodeEncodeStep(bs: seq<byte>)
    requires |bs| >= 3 && Decode(Encode(bs[3..])) == Some(bs[3..])
    ensures Decode(Encode(bs)) == Some(bs)
  {
    var head, tail := Quad(bs[0], bs[1], bs[2]), Encode(bs[3..]);
    assert Encode(bs) == head + tail;
    QuadRoundTrip(bs[0], bs[1], bs[2]);
    EncodeSyms(bs[3..]);
    DecodeGroup(head, tail);
    Shape3(bs);
  }

  lemma Shape1(bs: seq<byte>)
    requires |bs| == 1
    ensures bs == [bs[0]]
  {
  }

  lemma Shape2(bs: seq<byte>)
    requires |bs| == 2
    ensures bs == [bs[0], bs[1]]
  {
  }

  lemma Shape3(bs: seq<byte>)
    requires |bs| >= 3
    ensures bs == [bs[0], bs[1], bs[2]] + bs[3..]
  {
  }

  /** A leading group of four symbols decodes on its own. */
  lemma DecodeGroup(head: string, tail: string)
    requires |head| == 4 && AllSyms(head) && AllSyms(tail)
    ensures Decode(head + tail) == match Decode(tail)
      case None => None
      case Some(rest) => Some(DecodeQuad(head) + rest)
  {
    var s := head + tail;
    assert s[..4] == head && s[4..] == tail;
    assert AllSyms(s);
  }

  lemma {:induction false} EncodeSyms(bs: seq<byte>)
    ensures AllSyms(Encode(bs))
    decreases |bs|
  {
    if |bs| == 1 { PairRoundTrip(bs[0]); }
    else if |bs| == 2 { TripleRoundTrip(bs[0], bs[1]); }
    else if |bs| >= 3 {
      QuadRoundTrip(bs[0], bs[1], bs[2]);
      EncodeSyms(bs[3..]);
    }
  }

  /** The key derived from a keyword: `base64.RawURLEncoding.EncodeToString([]byte(keyword))`. */
  function ContentKey(keyword: seq<byte>): string {
    Encode(keyword)
  }

  /** Equal keywords give equal keys and equal keys come only from equal keywords. */
  lemma ContentKeyInjective(k1: seq<byte>, k2: seq<byte>)
    ensures ContentKey(k1) == ContentKey(k2) <==> k1 == k2
  {
    DecodeEncode(k1);
    DecodeEncode(k2);
  }
}
