/**
 * The download widget (kbaseDownloadFile.js): a button that saves an in-memory
 * string as a file through a base64 `data:` URI.
 *
 * A JavaScript string is a sequence of UTF-16 code units. `window.btoa` accepts
 * it only when every unit is at most 255 (it encodes the units as Latin-1
 * octets). When it refuses, the widget splits every code unit into one, two or
 * three single-octet units following the bit layout of section 3 of RFC 3629,
 * and encodes that instead. Base64 is the alphabet and padding of section 4 of
 * RFC 4648.
 */
module DownloadFile {
  import opened Wrappers

  /** A UTF-16 code unit, the value `charCodeAt` returns. */
  type CodeUnit = bv16

  /** An octet, the input unit of base64. */
  type Octet = bv8

  /** The text shown instead of a button when the payload or its name is null. */
  const EmptyContentMessage := "Error: file content is empty."

  /** The header put in front of the base64 text in the anchor's href. */
  const DataUriPrefix := "data:application/octet-stream;base64,"

  // ---------------------------------------------------------------------------
  // Splitting code units into single-octet units
  // ---------------------------------------------------------------------------

  /** How many units the split turns `c` into. */
  function UnitWidth(c: CodeUnit): nat
  {
    if c < 128 then 1 else if c < 2048 then 2 else 3
  }

  /** The units one code unit becomes, exactly as the three branches of the loop build them. */
  function SplitUnit(c: CodeUnit): (r: seq<CodeUnit>)
    ensures |r| == UnitWidth(c)
    ensures forall i :: 0 <= i < |r| ==> r[i] < 256
    ensures c < 128 ==> r == [c]
    ensures 128 <= c < 2048 ==> 192 <= r[0] < 224 && 128 <= r[1] < 192
    ensures 2048 <= c ==> 224 <= r[0] < 240 && 128 <= r[1] < 192 && 128 <= r[2] < 192
  {
    if c < 128 then [c]
    else if c > 127 && c < 2048 then [(c >> 6) | 192, (c & 63) | 128]
    else [(c >> 12) | 224, ((c >> 6) & 63) | 128, (c & 63) | 128]
  }

  /** The whole split text: the units of each code unit, in order. */
  function Utf8Split(data: seq<CodeUnit>): seq<CodeUnit>
  {
    if |data| == 0 then [] else SplitUnit(data[0]) + Utf8Split(data[1..])
  }

  /** The sum of the widths of all code units of `data`. */
  function TotalWidth(data: seq<CodeUnit>): nat
  {
    if |data| == 0 then 0 else UnitWidth(data[0]) + TotalWidth(data[1..])
  }

  /** Splitting a longer text appends the new unit's split to the old split. */
  lemma {:induction false} SplitAppend(data: seq<CodeUnit>, c: CodeUnit)
    ensures Utf8Split(data + [c]) == Utf8Split(data) + SplitUnit(c)
  {
    if |data| == 0 {
      assert data + [c] == [c];
    } else {
      assert (data + [c])[1..] == data[1..] + [c];
      SplitAppend(data[1..], c);
    }
  }

  /**
   * Every unit of the split text is below 256, so the second `btoa` cannot
   * fail, and the text is as long as the sum of the per-unit widths.
   */
  lemma {:induction false} SplitShape(data: seq<CodeUnit>)
    ensures |Utf8Split(data)| == TotalWidth(data)
    ensures IsLatin1(Utf8Split(data))
  {
    if |data| > 0 {
      SplitShape(data[1..]);
      var head, tail := SplitUnit(data[0]), Utf8Split(data[1..]);
      assert Utf8Split(data) == head + tail;
      forall i | 0 <= i < |head + tail|
        ensures (head + tail)[i] < 256
      {
        if i >= |head| {
          assert (head + tail)[i] == tail[i - |head|];
        }
      }
    }
  }

  lemma SplitUnitOne(c: CodeUnit)
    requires c < 128
    ensures SplitUnit(c) == [c]
  {
  }

  lemma SplitUnitTwo(c: CodeUnit)
    requires 127 < c < 2048
    ensures SplitUnit(c) == [(c >> 6) | 192] + [(c & 63) | 128]
  {
  }

  lemma SplitUnitThree(c: CodeUnit)
    requires 2048 <= c
    ensures SplitUnit(c) == [(c >> 12) | 224] + [((c >> 6) & 63) | 128] + [(c & 63) | 128]
  {
  }

  /** Splitting one more code unit of `data` appends that unit's split. */
  lemma SplitPrefixStep(data: seq<CodeUnit>, n: nat)
    requires n < |data|
    ensures Utf8Split(data[..n + 1]) == Utf8Split(data[..n]) + SplitUnit(data[n])
  {
    assert data[..n + 1] == data[..n] + [data[n]];
    SplitAppend(data[..n], data[n]);
  }

  /**
   * The loop of `downloadFn`'s fallback: walk the code units left to right and
   * append each one's split to the accumulator.
   */
  method SplitWide(data: seq<CodeUnit>) returns (utftext: seq<CodeUnit>)
    ensures utftext == Utf8Split(data)
  {
    utftext := [];
    var n := 0;
    while n < |data|
      invariant 0 <= n <= |data|
      invariant utftext == Utf8Split(data[..n])
    {
      var c := data[n];
      ghost var before := utftext;
      if c < 128 {
        utftext := utftext + [c];
        SplitUnitOne(c);
      } else if c > 127 && c < 2048 {
        utftext := utftext + [(c >> 6) | 192];
        utftext := utftext + [(c & 63) | 128];
        SplitUnitTwo(c);
      } else {
        utftext := utftext + [(c >> 12) | 224];
        utftext := utftext + [((c >> 6) & 63) | 128];
        utftext := utftext + [(c & 63) | 128];
        SplitUnitThree(c);
      }
      assert utftext == before + SplitUnit(c);
      SplitPrefixStep(data, n);
      n := n + 1;
    }
    assert data[..n] == data;
  }

  // ---------------------------------------------------------------------------
  // Decoding by the RFC 3629 bit layout
  // ---------------------------------------------------------------------------

  /** A continuation unit, bit pattern 10xxxxxx. */
  predicate IsContinuation(b: CodeUnit)
  {
    128 <= b < 192
  }

  function Prepend(c: CodeUnit, rest: Option<seq<CodeUnit>>): Option<seq<CodeUnit>>
  {
    match rest
    case None => None
    case Some(s) => Some([c] + s)
  }

  /** The code unit carried by 110xxxxx 10xxxxxx: five bits from the first unit, six from the second. */
  function Join2(b0: CodeUnit, b1: CodeUnit): CodeUnit
  {
    ((b0 & 31) << 6) | (b1 & 63)
  }

  /** The code unit carried by 1110xxxx 10xxxxxx 10xxxxxx: four bits, then six, then six. */
  function Join3(b0: CodeUnit, b1: CodeUnit, b2: CodeUnit): CodeUnit
  {
    ((b0 & 15) << 12) | ((b1 & 63) << 6) | (b2 & 63)
  }

  /**
   * Reads units of the form 0xxxxxxx, 110xxxxx 10xxxxxx and
   * 1110xxxx 10xxxxxx 10xxxxxx back into code units; anything else, and an
   * overlong form, is rejected.
   */
  function DecodeUtf8(units: seq<CodeUnit>): Option<seq<CodeUnit>>
    decreases |units|
  {
    if |units| == 0 then Some([])
    else
      var b0 := units[0];
      if b0 < 128 then
        Prepend(b0, DecodeUtf8(units[1..]))
      else if 192 <= b0 < 224 && |units| >= 2 && IsContinuation(units[1]) then
        var c := Join2(b0, units[1]);
        if c < 128 then None else Prepend(c, DecodeUtf8(units[2..]))
      else if 224 <= b0 < 240 && |units| >= 3 && IsContinuation(units[1]) && IsContinuation(units[2]) then
        var c := Join3(b0, units[1], units[2]);
        if c < 2048 then None else Prepend(c, DecodeUtf8(units[3..]))
      else None
  }

  /** The two-unit form carries the eleven low bits of `c`. */
  lemma TwoUnitBits(c: CodeUnit)
    requires 128 <= c < 2048
    ensures Join2((c >> 6) | 192, (c & 63) | 128) == c
  {
  }

  /** The three-unit form carries all sixteen bits of `c`. */
  lemma ThreeUnitBits(c: CodeUnit)
    requires 2048 <= c
    ensures Join3((c >> 12) | 224, ((c >> 6) & 63) | 128, (c & 63) | 128) == c
  {
  }

  lemma DecodeOneUnit(c: CodeUnit, rest: seq<CodeUnit>)
    requires c < 128
    ensures DecodeUtf8([c] + rest) == Prepend(c, DecodeUtf8(rest))
  {
    assert ([c] + rest)[1..] == rest;
  }

  lemma DecodeTwoUnits(b0: CodeUnit, b1: CodeUnit, c: CodeUnit, rest: seq<CodeUnit>)
    requires 192 <= b0 < 224 && 128 <= b1 < 192 && 128 <= c
    requires Join2(b0, b1) == c
    ensures DecodeUtf8([b0, b1] + rest) == Prepend(c, DecodeUtf8(rest))
  {
    assert ([b0, b1] + rest)[2..] == rest;
  }

  lemma DecodeThreeUnits(b0: CodeUnit, b1: CodeUnit, b2: CodeUnit, c: CodeUnit, rest: seq<CodeUnit>)
    requires 224 <= b0 < 240 && 128 <= b1 < 192 && 128 <= b2 < 192 && 2048 <= c
    requires Join3(b0, b1, b2) == c
    ensures DecodeUtf8([b0, b1, b2] + rest) == Prepend(c, DecodeUtf8(rest))
  {
    assert ([b0, b1, b2] + rest)[3..] == rest;
  }

  /** Decoding the split of one code unit followed by anything reads that code unit back first. */
  lemma DecodeSplitUnit(c: CodeUnit, rest: seq<CodeUnit>)
    ensures DecodeUtf8(SplitUnit(c) + rest) == Prepend(c, DecodeUtf8(rest))
  {
    if c < 128 {
      DecodeOneUnit(c, rest);
    } else if c < 2048 {
      TwoUnitBits(c);
      DecodeTwoUnits((c >> 6) | 192, (c & 63) | 128, c, rest);
    } else {
      ThreeUnitBits(c);
      DecodeThreeUnits((c >> 12) | 224, ((c >> 6) & 63) | 128, (c & 63) | 128, c, rest);
    }
  }

  /** Decoding the split text by the RFC 3629 layout recovers the original code units. */
  lemma {:induction false} SplitRoundTrip(data: seq<CodeUnit>)
    ensures DecodeUtf8(Utf8Split(data)) == Some(data)
  {
    if |data| > 0 {
      SplitRoundTrip(data[1..]);
      DecodeSplitUnit(data[0], Utf8Split(data[1..]));
      assert [data[0]] + data[1..] == data;
    }
  }

  // ---------------------------------------------------------------------------
  // Base64, section 4 of RFC 4648
  // ---------------------------------------------------------------------------

  /** The character of the base64 alphabet (Table 1 of RFC 4648) for a 6-bit value. */
  function SextetChar(v: Octet): (ch: char)
    requires v < 64
    ensures ch != '='
  {
    if v < 26 then (65 + v as int) as char
    else if v < 52 then (97 + (v as int - 26)) as char
    else if v < 62 then (48 + (v as int - 52)) as char
    else if v == 62 then '+'
    else '/'
  }

  /** The 6-bit value of a base64 alphabet character, or None for any other character. */
  function SextetValue(ch: char): (r: Option<Octet>)
    ensures r.Some? ==> r.value < 64
  {
    if 'A' <= ch <= 'Z' then Some((ch as int - 65) as Octet)
    else if 'a' <= ch <= 'z' then Some((ch as int - 97 + 26) as Octet)
    else if '0' <= ch <= '9' then Some((ch as int - 48 + 52) as Octet)
    else if ch == '+' then Some(62)
    else if ch == '/' then Some(63)
    else None
  }

  /** The alphabet is a bijection between 6-bit values and its 64 characters. */
  lemma SextetRoundTrip(v: Octet)
    requires v < 64
    ensures SextetValue(SextetChar(v)) == Some(v)
  {
  }

  // The four 6-bit groups of three octets b0 b1 b2 (section 4 of RFC 4648).
  function Sextet0(b0: Octet): Octet { b0 >> 2 }
  function Sextet1(b0: Octet, b1: Octet): Octet { ((b0 & 3) << 4) | (b1 >> 4) }
  function Sextet2(b1: Octet, b2: Octet): Octet { ((b1 & 15) << 2) | (b2 >> 6) }
  function Sextet3(b2: Octet): Octet { b2 & 63 }

  // The three octets put back together from four 6-bit groups v0 v1 v2 v3.
  function Octet0(v0: Octet, v1: Octet): Octet { (v0 << 2) | (v1 >> 4) }
  function Octet1(v1: Octet, v2: Octet): Octet { (v1 << 4) | (v2 >> 2) }
  function Octet2(v2: Octet, v3: Octet): Octet { (v2 << 6) | v3 }

  /** Splitting octets into 6-bit groups and joining the groups again is the identity. */
  lemma RegroupBits(b0: Octet, b1: Octet, b2: Octet)
    ensures Sextet0(b0) < 64 && Sextet1(b0, b1) < 64 && Sextet2(b1, b2) < 64 && Sextet3(b2) < 64
    ensures Octet0(Sextet0(b0), Sextet1(b0, b1)) == b0
    ensures Octet1(Sextet1(b0, b1), Sextet2(b1, b2)) == b1
    ensures Octet2(Sextet2(b1, b2), Sextet3(b2)) == b2
  {
  }

  /** Four characters for three octets. */
  function Quantum3(b0: Octet, b1: Octet, b2: Octet): (s: string)
    ensures |s| == 4
  {
    RegroupBits(b0, b1, b2);
    [SextetChar(Sextet0(b0)), SextetChar(Sextet1(b0, b1)), SextetChar(Sextet2(b1, b2)), SextetChar(Sextet3(b2))]
  }

  /** Four characters for a final two octets: three characters and one '='. */
  function Quantum2(b0: Octet, b1: Octet): (s: string)
    ensures |s| == 4
  {
    RegroupBits(b0, b1, 0);
    [SextetChar(Sextet0(b0)), SextetChar(Sextet1(b0, b1)), SextetChar(Sextet2(b1, 0)), '=']
  }

  /** Four characters for a final single octet: two characters and "==". */
  function Quantum1(b0: Octet): (s: string)
    ensures |s| == 4
  {
    RegroupBits(b0, 0, 0);
    [SextetChar(Sextet0(b0)), SextetChar(Sextet1(b0, 0)), '=', '=']
  }

  /** Base64 text of a sequence of octets, padded with '=' to a multiple of four characters. */
  function Base64Encode(b: seq<Octet>): (s: string)
    ensures |s| == 4 * ((|b| + 2) / 3)
    decreases |b|
  {
    if |b| == 0 then ""
    else if |b| == 1 then Quantum1(b[0])
    else if |b| == 2 then Quantum2(b[0], b[1])
    else Quantum3(b[0], b[1], b[2]) + Base64Encode(b[3..])
  }

  function Prepend3(b0: Octet, b1: Octet, b2: Octet, rest: Option<seq<Octet>>): Option<seq<Octet>>
  {
    match rest
    case None => None
    case Some(r) => Some([b0, b1, b2] + r)
  }

  /** Reads base64 text back into octets; None when it is not well-formed padded base64. */
  function Base64Decode(s: string): Option<seq<Octet>>
    decreases |s|
  {
    if |s| == 0 then Some([])
    else if |s| < 4 then None
    else
      var v0, v1, v2, v3 := SextetValue(s[0]), SextetValue(s[1]), SextetValue(s[2]), SextetValue(s[3]);
      if v0.None? || v1.None? then None
      else if s[2] == '=' && s[3] == '=' then
        if |s| == 4 then Some([Octet0(v0.value, v1.value)]) else None
      else if v2.None? then None
      else if s[3] == '=' then
        if |s| == 4 then Some([Octet0(v0.value, v1.value), Octet1(v1.value, v2.value)]) else None
      else if v3.None? then None
      else Prepend3(Octet0(v0.value, v1.value), Octet1(v1.value, v2.value), Octet2(v2.value, v3.value), Base64Decode(s[4..]))
  }

  lemma DecodeQuantum3(b0: Octet, b1: Octet, b2: Octet, rest: string)
    ensures Base64Decode(Quantum3(b0, b1, b2) + rest) == Prepend3(b0, b1, b2, Base64Decode(rest))
  {
    RegroupBits(b0, b1, b2);
    var q := Quantum3(b0, b1, b2);
    SextetRoundTrip(Sextet0(b0));
    SextetRoundTrip(Sextet1(b0, b1));
    SextetRoundTrip(Sextet2(b1, b2));
    SextetRoundTrip(Sextet3(b2));
    assert (q + rest)[4..] == rest;
    assert (q + rest)[..4] == q;
  }

  lemma DecodeQuantum2(b0: Octet, b1: Octet)
    ensures Base64Decode(Quantum2(b0, b1)) == Some([b0, b1])
  {
    RegroupBits(b0, b1, 0);
    SextetRoundTrip(Sextet0(b0));
    SextetRoundTrip(Sextet1(b0, b1));
    SextetRoundTrip(Sextet2(b1, 0));
  }

  lemma DecodeQuantum1(b0: Octet)
    ensures Base64Decode(Quantum1(b0)) == Some([b0])
  {
    RegroupBits(b0, 0, 0);
    SextetRoundTrip(Sextet0(b0));
    SextetRoundTrip(Sextet1(b0, 0));
  }

  /** Decoding base64 text undoes encoding it. */
  lemma {:induction false} Base64RoundTrip(b: seq<Octet>)
    ensures Base64Decode(Base64Encode(b)) == Some(b)
    decreases |b|
  {
    if |b| == 1 {
      RoundTripLastOne(b);
    } else if |b| == 2 {
      RoundTripLastTwo(b);
    } else if |b| >= 3 {
      Base64RoundTrip(b[3..]);
      RoundTripStep(b[0], b[1], b[2], b[3..], Base64Encode(b[3..]));
      EncodeStep(b);
      assert [b[0], b[1], b[2]] + b[3..] == b;
    }
  }

  lemma RoundTripLastOne(b: seq<Octet>)
    requires |b| == 1
    ensures Base64Decode(Base64Encode(b)) == Some(b)
  {
    DecodeQuantum1(b[0]);
    assert [b[0]] == b;
  }

  lemma RoundTripLastTwo(b: seq<Octet>)
    requires |b| == 2
    ensures Base64Decode(Base64Encode(b)) == Some(b)
  {
    DecodeQuantum2(b[0], b[1]);
    assert [b[0], b[1]] == b;
  }

  lemma RoundTripStep(b0: Octet, b1: Octet, b2: Octet, rest: seq<Octet>, e: string)
    requires Base64Decode(e) == Some(rest)
    ensures Base64Decode(Quantum3(b0, b1, b2) + e) == Some([b0, b1, b2] + rest)
  {
    DecodeQuantum3(b0, b1, b2, e);
  }

  lemma EncodeStep(b: seq<Octet>)
    requires |b| >= 3
    ensures Base64Encode(b) == Quantum3(b[0], b[1], b[2]) + Base64Encode(b[3..])
  {
  }

  // ---------------------------------------------------------------------------
  // window.btoa and the download itself
  // ---------------------------------------------------------------------------

  /** Every code unit fits in one octet: the input domain of `btoa`. */
  predicate IsLatin1(s: seq<CodeUnit>)
  {
    forall i :: 0 <= i < |s| ==> s[i] < 256
  }

  /** The octets of a Latin-1 string, one per code unit. */
  function Latin1Octets(s: seq<CodeUnit>): (r: seq<Octet>)
    requires IsLatin1(s)
    ensures |r| == |s|
    ensures forall i :: 0 <= i < |s| ==> r[i] as CodeUnit == s[i]
  {
    if |s| == 0 then [] else [s[0] as Octet] + Latin1Octets(s[1..])
  }

  /** Widens octets back to code units, as `atob` returns them. */
  function Widen(b: seq<Octet>): (r: seq<CodeUnit>)
    ensures |r| == |b|
    ensures forall i :: 0 <= i < |b| ==> r[i] == b[i] as CodeUnit
  {
    if |b| == 0 then [] else [b[0] as CodeUnit] + Widen(b[1..])
  }

  /**
   * `window.btoa`: base64 of the Latin-1 octets, or a thrown error (None)
   * exactly when some code unit is above 255.
   */
  function Btoa(s: seq<CodeUnit>): (r: Option<string>)
    ensures r.None? <==> exists i :: 0 <= i < |s| && s[i] > 255
    ensures r.Some? ==> Base64Decode(r.value) == Some(Latin1Octets(s))
  {
    if IsLatin1(s) then
      Base64RoundTrip(Latin1Octets(s));
      Some(Base64Encode(Latin1Octets(s)))
    else None
  }

  /** What a click leaves behind: the temporary anchor's two attributes. */
  datatype Anchor = Anchor(download: string, href: string)

  /** The base64 text after the `data:` header of an href. */
  function Payload(href: string): string
  {
    if |href| >= |DataUriPrefix| then href[|DataUriPrefix|..] else ""
  }

  /**
   * `downloadFn`: try `btoa` on the data; if it throws, split the code units
   * and encode the split text; then build the anchor.
   */
  method DownloadFn(data: seq<CodeUnit>, filename: string) returns (anchor: Anchor)
    ensures anchor.download == filename
    ensures |anchor.href| >= |DataUriPrefix| && anchor.href[..|DataUriPrefix|] == DataUriPrefix
    ensures IsLatin1(data) ==> Base64Decode(Payload(anchor.href)) == Some(Latin1Octets(data))
    ensures !IsLatin1(data) ==>
      var octets := Base64Decode(Payload(anchor.href));
      octets.Some? && DecodeUtf8(Widen(octets.value)) == Some(data)
  {
    var encoded := Btoa(data);
    if encoded.None? {
      var utftext := SplitWide(data);
      SplitShape(data);
      encoded := Btoa(utftext);
      SplitRoundTrip(data);
      assert Widen(Latin1Octets(utftext)) == utftext;
    }
    var href := DataUriPrefix + encoded.value;
    assert Payload(href) == encoded.value;
    anchor := Anchor(filename, href);
  }

  /** What `render` puts in the widget. */
  datatype View = DownloadButton(caption: string, data: seq<CodeUnit>) | ErrorText(text: string)

  /** `render`: a button only when both the payload and the name are non-null. */
  function Render(data: Option<seq<CodeUnit>>, name: Option<string>): (v: View)
    ensures v.DownloadButton? <==> data.Some? && name.Some?
    ensures v.DownloadButton? ==> v.caption == name.value && v.data == data.value
    ensures v.ErrorText? ==> v.text == EmptyContentMessage
  {
    if data.Some? && name.Some? then DownloadButton(name.value, data.value)
    else ErrorText(EmptyContentMessage)
  }
}
