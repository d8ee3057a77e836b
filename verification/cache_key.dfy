// The cache key of a track lookup (internal/cache/searcher.go): lower-cased, split into
// fields, joined by single spaces, percent-encoded as in section 2.1 of RFC 3986 with "+"
// for a space. A string is its sequence of code points; the key is a sequence of bytes.
module CacheKey {
  type Rune = r: int | 0 <= r < 0x11_0000
  type Byte = b: int | 0 <= b < 256
  type Text = seq<Rune>
  type Bytes = seq<Byte>

  // unicode.ToLower, one code point at a time; its table is not part of this model.
  type Lower = Rune -> Rune

  const SPACE: Rune := 0x20
  const BAR: Byte := 0x7C

  // unicode.IsSpace.
  predicate IsSpace(r: Rune)
  {
    || 0x09 <= r <= 0x0D || r == 0x20 || r == 0x85 || r == 0xA0 || r == 0x1680
    || 0x2000 <= r <= 0x200A || r == 0x2028 || r == 0x2029 || r == 0x202F || r == 0x205F || r == 0x3000
  }

  // ---------------------------------------------------------------- trimming and collapsing

  function ToLower(lower: Lower, s: Text): Text { seq(|s|, i requires 0 <= i < |s| => lower(s[i])) }

  // The length of the run of non-spaces s starts with.
  function WordLength(s: Text): (n: nat)
    ensures n <= |s| && forall i :: 0 <= i < n ==> !IsSpace(s[i])
    ensures n < |s| ==> IsSpace(s[n])
  {
    if s == [] || IsSpace(s[0]) then 0 else 1 + WordLength(s[1..])
  }

  // strings.Fields.
  function Fields(s: Text): seq<Text>
    decreases |s|
  {
    if s == [] then []
    else if IsSpace(s[0]) then Fields(s[1..])
    else
      var n := WordLength(s);
      [s[..n]] + Fields(s[n..])
  }

  // strings.Join with a single space.
  function Join(words: seq<Text>): Text
  {
    if words == [] then []
    else if |words| == 1 then words[0]
    else words[0] + [SPACE] + Join(words[1..])
  }

  function Normal(lower: Lower, s: Text): Text { Join(Fields(ToLower(lower, s))) }

  ghost predicate Words(words: seq<Text>)
  {
    forall w :: w in words ==> w != [] && forall i :: 0 <= i < |w| ==> !IsSpace(w[i])
  }

  lemma {:induction false} FieldsAreWords(s: Text)
    ensures Words(Fields(s))
    decreases |s|
  {
    if s != [] {
      if IsSpace(s[0]) {
        FieldsAreWords(s[1..]);
      } else {
        FieldsAreWords(s[WordLength(s)..]);
      }
    }
  }

  lemma {:induction false} WordThenSpace(w: Text, rest: Text)
    requires forall i :: 0 <= i < |w| ==> !IsSpace(w[i])
    requires rest == [] || IsSpace(rest[0])
    ensures WordLength(w + rest) == |w|
  {
    if w == [] {
      assert w + rest == rest;
    } else {
      assert (w + rest)[1..] == w[1..] + rest;
      WordThenSpace(w[1..], rest);
    }
  }

  // A word at the front is the first field, and what follows it brings the others.
  lemma FieldsTakeWord(w: Text, rest: Text)
    requires w != [] && forall i :: 0 <= i < |w| ==> !IsSpace(w[i])
    requires rest == [] || IsSpace(rest[0])
    ensures Fields(w + rest) == [w] + Fields(rest)
  {
    WordThenSpace(w, rest);
    assert (w + rest)[..|w|] == w && (w + rest)[|w|..] == rest;
  }

  lemma FieldsSkipSpace(s: Text)
    ensures Fields([SPACE] + s) == Fields(s)
  {
    assert ([SPACE] + s)[1..] == s;
  }

  // Splitting undoes joining, so the normal form keeps exactly the list of words.
  lemma {:induction false} FieldsOfJoin(words: seq<Text>)
    requires Words(words)
    ensures Fields(Join(words)) == words
  {
    if words != [] {
      var w, others := words[0], words[1..];
      assert w in words && words == [w] + others;
      hide Fields;
      if others == [] {
        FieldsTakeWord(w, []);
        assert w + [] == w && Fields([]) == [] by { NoFields(); }
      } else {
        assert forall v :: v in others ==> v in words;
        FieldsOfJoin(others);
        FieldsSkipSpace(Join(others));
        FieldsTakeWord(w, [SPACE] + Join(others));
        assert Join(words) == w + ([SPACE] + Join(others));
      }
    }
  }

  lemma NoFields()
    ensures Fields([]) == []
  {
  }

  lemma NormalKeepsWords(lower: Lower, s: Text)
    ensures Fields(Normal(lower, s)) == Fields(ToLower(lower, s))
  {
    FieldsAreWords(ToLower(lower, s));
    FieldsOfJoin(Fields(ToLower(lower, s)));
  }

  // ---------------------------------------------------------------- UTF-8

  function Utf8(r: Rune): (bs: Bytes)
    ensures 1 <= |bs| <= 4
  {
    if r < 0x80 then [r]
    else if r < 0x800 then [0xC0 + r / 64, 0x80 + r % 64]
    else if r < 0x1_0000 then [0xE0 + r / 4096, 0x80 + r / 64 % 64, 0x80 + r % 64]
    else [0xF0 + r / 262144, 0x80 + r / 4096 % 64, 0x80 + r / 64 % 64, 0x80 + r % 64]
  }

  function Encode(s: Text): Bytes { if s == [] then [] else Utf8(s[0]) + Encode(s[1..]) }

  // The length of the code point that starts with byte b, and its value.
  function SizeAt(b: Byte): nat { if b < 0xC0 then 1 else if b < 0xE0 then 2 else if b < 0xF0 then 3 else 4 }

  function ValueAt(bs: Bytes): int
    requires bs != [] && |bs| >= SizeAt(bs[0])
  {
    var size, first: int := SizeAt(bs[0]), bs[0];
    if size == 1 then first
    else if size == 2 then (first - 0xC0) * 64 + Low(bs[1])
    else if size == 3 then (first - 0xE0) * 4096 + Low(bs[1]) * 64 + Low(bs[2])
    else (first - 0xF0) * 262144 + Low(bs[1]) * 4096 + Low(bs[2]) * 64 + Low(bs[3])
  }

  // What a continuation byte carries.
  function Low(b: Byte): int { b as int - 0x80 }

  lemma DivDiv(r: int)
    requires r >= 0
    ensures r == r / 64 * 64 + r % 64
    ensures r / 4096 == r / 64 / 64 && r / 64 == r / 4096 * 64 + r / 64 % 64
    ensures r / 262144 == r / 4096 / 64 && r / 4096 == r / 262144 * 64 + r / 4096 % 64
  {
  }

  lemma Utf8Reads(r: Rune, rest: Bytes)
    ensures var bs := Utf8(r) + rest; SizeAt(bs[0]) == |Utf8(r)| && ValueAt(bs) == r
  {
    DivDiv(r);
  }

  lemma {:induction false} EncodeInjective(s: Text, t: Text)
    requires Encode(s) == Encode(t)
    ensures s == t
  {
    if s == [] || t == [] {
      assert |Encode(s)| == 0 || |Encode(t)| == 0;
    } else {
      Utf8Reads(s[0], Encode(s[1..]));
      Utf8Reads(t[0], Encode(t[1..]));
      var n := |Utf8(s[0])|;
      assert Encode(s)[n..] == Encode(s[1..]) && Encode(t)[n..] == Encode(t[1..]);
      EncodeInjective(s[1..], t[1..]);
      assert s == [s[0]] + s[1..] && t == [t[0]] + t[1..];
    }
  }

  // ---------------------------------------------------------------- percent-encoding

  // Letters, digits, "-", "_", "." and "~" stand for themselves.
  predicate Unreserved(b: Byte)
  {
    || 0x41 <= b <= 0x5A || 0x61 <= b <= 0x7A || 0x30 <= b <= 0x39
    || b == 0x2D || b == 0x5F || b == 0x2E || b == 0x7E
  }

  function HexDigit(n: int): Byte
    requires 0 <= n < 16
  {
    if n < 10 then 0x30 + n else 0x41 + (n - 10)
  }

  function HexValue(b: Byte): int { if b < 0x41 then b - 0x30 else b - 0x41 + 10 }

  function EscapeByte(b: Byte): Bytes
  {
    if Unreserved(b) then [b]
    else if b == 0x20 then [0x2B]
    else [0x25, HexDigit(b / 16), HexDigit(b % 16)]
  }

  // url.QueryEscape.
  function Escape(bs: Bytes): Bytes { if bs == [] then [] else EscapeByte(bs[0]) + Escape(bs[1..]) }

  // url.QueryUnescape, on what Escape can produce.
  function Unescape(xs: Bytes): seq<int>
  {
    if xs == [] then []
    else if xs[0] == 0x25 && |xs| >= 3 then [HexValue(xs[1]) * 16 + HexValue(xs[2])] + Unescape(xs[3..])
    else if xs[0] == 0x2B then [0x20] + Unescape(xs[1..])
    else [xs[0]] + Unescape(xs[1..])
  }

  lemma {:induction false} UnescapeUndoesEscape(bs: Bytes)
    ensures Unescape(Escape(bs)) == bs
  {
    if bs != [] {
      UnescapeUndoesEscape(bs[1..]);
      var n := |EscapeByte(bs[0])|;
      assert Escape(bs)[n..] == Escape(bs[1..]);
      assert bs == [bs[0]] + bs[1..];
    }
  }

  lemma {:induction false} EscapeHasNoBar(bs: Bytes)
    ensures forall b :: b in Escape(bs) ==> b != BAR
  {
    if bs != [] {
      EscapeHasNoBar(bs[1..]);
    }
  }

  // ---------------------------------------------------------------- the key

  const PREFIX: Bytes := [0x74, 0x72, 0x61, 0x63, 0x6B, 0x3A, 0x76, 0x33, 0x3A]  // track:v3:

  function KeyPart(lower: Lower, s: Text): Bytes { Escape(Encode(Normal(lower, s))) }

  function Key(lower: Lower, artist: Text, title: Text): Bytes
  {
    PREFIX + KeyPart(lower, artist) + [BAR] + KeyPart(lower, title)
  }

  lemma BarAt(xs: Bytes, ys: Bytes)
    requires forall b :: b in xs ==> b != BAR
    ensures var s := xs + [BAR] + ys; s[|xs|] == BAR && forall i :: 0 <= i < |xs| ==> s[i] != BAR
  {
    forall i | 0 <= i < |xs| ensures (xs + [BAR] + ys)[i] != BAR {
      assert xs[i] in xs;
    }
  }

  lemma FirstBarSplits(xs: Bytes, ys: Bytes, xs': Bytes, ys': Bytes)
    requires forall b :: b in xs ==> b != BAR
    requires forall b :: b in xs' ==> b != BAR
    requires xs + [BAR] + ys == xs' + [BAR] + ys'
    ensures xs == xs' && ys == ys'
  {
    BarAt(xs, ys);
    BarAt(xs', ys');
    var s := xs + [BAR] + ys;
    assert |xs| == |xs'|;
    assert xs == s[..|xs|] && xs' == s[..|xs|];
    assert ys == s[|xs| + 1..] && ys' == s[|xs| + 1..];
  }

  lemma SameKeyPart(lower: Lower, s: Text, t: Text)
    ensures KeyPart(lower, s) == KeyPart(lower, t) <==> Fields(ToLower(lower, s)) == Fields(ToLower(lower, t))
  {
    if KeyPart(lower, s) == KeyPart(lower, t) {
      UnescapeUndoesEscape(Encode(Normal(lower, s)));
      UnescapeUndoesEscape(Encode(Normal(lower, t)));
      EncodeInjective(Normal(lower, s), Normal(lower, t));
      NormalKeepsWords(lower, s);
      NormalKeepsWords(lower, t);
    }
  }

  lemma NoBarInPart(lower: Lower, s: Text)
    ensures forall b :: b in KeyPart(lower, s) ==> b != BAR
  {
    EscapeHasNoBar(Encode(Normal(lower, s)));
  }

  // Two lookups share a cache key exactly when their artists have the same lower-cased words
  // and so do their titles: trimming, case and the width of white space are all that is lost.
  lemma KeysAgreeOnWords(lower: Lower, artist: Text, title: Text, artist': Text, title': Text)
    ensures Key(lower, artist, title) == Key(lower, artist', title') <==>
            && Fields(ToLower(lower, artist)) == Fields(ToLower(lower, artist'))
            && Fields(ToLower(lower, title)) == Fields(ToLower(lower, title'))
  {
    var a, t, a', t' := KeyPart(lower, artist), KeyPart(lower, title), KeyPart(lower, artist'), KeyPart(lower, title');
    SameKeyPart(lower, artist, artist');
    SameKeyPart(lower, title, title');
    hide KeyPart, Fields, ToLower;
    if Key(lower, artist, title) == Key(lower, artist', title') {
      NoBarInPart(lower, artist);
      NoBarInPart(lower, artist');
      var n := |PREFIX|;
      assert Key(lower, artist, title)[n..] == a + [BAR] + t;
      assert Key(lower, artist', title')[n..] == a' + [BAR] + t';
      FirstBarSplits(a, t, a', t');
    }
  }

  // ---------------------------------------------------------------- what padding is

  // Words with white space before, between and behind them; gaps[k] comes before word k.
  function Padded(gaps: seq<Text>, words: seq<Text>): Text
    requires |gaps| == |words| + 1
  {
    if words == [] then gaps[0] else gaps[0] + words[0] + Padded(gaps[1..], words[1..])
  }

  lemma {:induction false} FieldsSkipSpaces(gap: Text, s: Text)
    requires forall i :: 0 <= i < |gap| ==> IsSpace(gap[i])
    ensures Fields(gap + s) == Fields(s)
  {
    if gap == [] {
      assert gap + s == s;
    } else {
      FieldsSkipSpaces(gap[1..], s);
      assert (gap + s)[1..] == gap[1..] + s;
    }
  }

  // Any padding is lost, and only padding.
  lemma {:induction false} FieldsOfPadded(gaps: seq<Text>, words: seq<Text>)
    requires |gaps| == |words| + 1 && Words(words)
    requires forall k, i :: 0 <= k < |gaps| && 0 <= i < |gaps[k]| ==> IsSpace(gaps[k][i])
    requires forall k :: 0 < k < |words| ==> gaps[k] != []
    ensures Fields(Padded(gaps, words)) == words
  {
    hide Fields;
    if words == [] {
      FieldsSkipSpaces(gaps[0], []);
      assert gaps[0] + [] == gaps[0];
      NoFields();
    } else {
      var rest := Padded(gaps[1..], words[1..]);
      assert words[0] in words && words == [words[0]] + words[1..];
      assert forall v :: v in words[1..] ==> v in words;
      FieldsOfPadded(gaps[1..], words[1..]);
      assert rest == [] || IsSpace(rest[0]) by {
        assert gaps[1..][0] == gaps[1];
      }
      FieldsTakeWord(words[0], rest);
      FieldsSkipSpaces(gaps[0], words[0] + rest);
      assert gaps[0] + words[0] + rest == gaps[0] + (words[0] + rest);
    }
  }

  // Tabs, line ends, plain, no-break and ideographic spaces are white space; a printing ASCII
  // character is not.
  lemma SomeSpaces()
    ensures IsSpace(0x09) && IsSpace(0x0A) && IsSpace(0x0D) && IsSpace(0x20) && IsSpace(0xA0) && IsSpace(0x3000)
    ensures forall r: Rune :: 0x21 <= r <= 0x7E ==> !IsSpace(r)
  {
  }

  // Letters and the marks of section 2.3 of RFC 3986 stand for themselves, a space becomes "+",
  // and every other byte a percent sign with two upper-case hexadecimal digits.
  lemma EscapedBytes()
    ensures EscapeByte(0x41) == [0x41] && EscapeByte(0x7A) == [0x7A] && EscapeByte(0x39) == [0x39]
    ensures EscapeByte(0x2D) == [0x2D] && EscapeByte(0x2E) == [0x2E] && EscapeByte(0x5F) == [0x5F]
    ensures EscapeByte(0x7E) == [0x7E] && EscapeByte(0x20) == [0x2B] && EscapeByte(0x2B) == [0x25, 0x32, 0x42]
    ensures EscapeByte(0x2F) == [0x25, 0x32, 0x46] && EscapeByte(0x7C) == [0x25, 0x37, 0x43]
    ensures EscapeByte(0xC3) == [0x25, 0x43, 0x33] && EscapeByte(0x0A) == [0x25, 0x30, 0x41]
  {
  }

  lemma EscapeGoesByteByByte(b: Byte, rest: Bytes)
    ensures Escape([]) == [] && Escape([b] + rest) == EscapeByte(b) + Escape(rest)
  {
    assert ([b] + rest)[1..] == rest;
  }
}
