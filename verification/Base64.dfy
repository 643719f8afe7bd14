/**
 The two base64 variants of sections 4 and 5 of RFC 4648, as src/ejwt.c implements them: an encoder
 working in three-byte groups and a decoder streaming six bits at a time through a 32-bit
 accumulator. Both are specified as re-cutting one bit string.
 */
module Base64 {
  import opened Sequences
  import opened Bits
  import opened Options

  /** Standard alphabet with padding, or the URL alphabet without. */
  datatype Variant = Standard | Url

  const LETTERS := ("ABCDEFGHIJKLM" + "NOPQRSTUVWXYZ") + ("abcdefghijklm" + "nopqrstuvwxyz") + "0123456789"

  type sextet = x: nat | x < 64

  // ---------------------------------------------------------------- alphabet

  function Alphabet(v: Variant): (a: string)
    ensures |a| == 64
  {
    LETTERS + (if v.Standard? then "+/" else "-_")
  }

  /** The character of a six-bit value, by range. */
  function Letter(v: Variant, x: sextet): (c: char)
    ensures c != '=' && c != '.' && c < 256 as char
  {
    if x < 26 then (x + 65) as char
    else if x < 52 then (x + 71) as char
    else if x < 62 then (x - 4) as char
    else if x == 62 then (if v.Standard? then '+' else '-')
    else if v.Standard? then '/' else '_'
  }

  /** The six-bit value of a character, or None outside the alphabet. */
  function Index(v: Variant, c: char): Option<sextet> {
    if 'A' <= c <= 'Z' then Some((c as int - 65) as sextet)
    else if 'a' <= c <= 'z' then Some((c as int - 71) as sextet)
    else if '0' <= c <= '9' then Some((c as int + 4) as sextet)
    else if c == Letter(v, 62) then Some(62)
    else if c == Letter(v, 63) then Some(63)
    else None
  }

  lemma IndexOfLetter(v: Variant, x: sextet)
    ensures Index(v, Letter(v, x)) == Some(x)
  {
  }

  /** A character has an index exactly when it is the letter of that index. */
  lemma IndexIsExact(v: Variant, c: char, x: sextet)
    ensures Index(v, c) == Some(x) <==> c == Letter(v, x)
  {
  }

  /** The two alphabet strings are the RFC's value ranges. */
  lemma AlphabetLetters(v: Variant, x: sextet)
    ensures Alphabet(v)[x] == Letter(v, x)
  {
  }

  function Letters(v: Variant, xs: seq<nat>): (s: string)
    requires forall k :: 0 <= k < |xs| ==> xs[k] < 64
    ensures |s| == |xs|
  {
    seq(|xs|, i requires 0 <= i < |xs| => Letter(v, xs[i]))
  }

  predicate InAlphabet(v: Variant, s: string) {
    forall i :: 0 <= i < |s| ==> Index(v, s[i]).Some?
  }

  function Indices(v: Variant, s: string): (xs: seq<nat>)
    requires InAlphabet(v, s)
    ensures |xs| == |s|
    ensures forall k :: 0 <= k < |xs| ==> xs[k] < 64
  {
    seq(|s|, i requires 0 <= i < |s| => Index(v, s[i]).value)
  }

  lemma IndicesOfLetters(v: Variant, xs: seq<nat>)
    requires forall k :: 0 <= k < |xs| ==> xs[k] < 64
    ensures InAlphabet(v, Letters(v, xs)) && Indices(v, Letters(v, xs)) == xs
  {
    forall k | 0 <= k < |xs|
      ensures Index(v, Letters(v, xs)[k]) == Some(xs[k])
    {
      IndexOfLetter(v, xs[k]);
    }
  }

  // ------------------------------------------------------------ meaning

  /** Zero bits that complete the last six-bit group. */
  function FillBits(n: nat): nat {
    if n % 3 == 0 then 0 else if n % 3 == 1 then 4 else 2
  }

  /** The byte string's bits, zero-filled and cut into six-bit groups. */
  function Sextets(bs: seq<byte>): (xs: seq<nat>)
    ensures forall k :: 0 <= k < |xs| ==> xs[k] < 64
  {
    assert Pow2(6) == 64;
    Regroup(Flatten(bs, 8) + Repeat(false, FillBits(|bs|)), 6)
  }

  function Padding(n: nat): string {
    if n % 3 == 0 then "" else if n % 3 == 1 then "==" else "="
  }

  /** The text of a byte string. */
  function Encode(v: Variant, bs: seq<byte>): string {
    Letters(v, Sextets(bs)) + (if v.Standard? then Padding(|bs|) else "")
  }

  function StripPadding(s: string): (r: string)
    ensures |r| <= |s|
  {
    if |s| > 0 && s[|s| - 1] == '=' then StripPadding(s[..|s| - 1]) else s
  }

  /** Whole bytes spelled by six-bit groups; left-over bits are dropped. */
  function Bytes(xs: seq<nat>): (bs: seq<byte>) {
    assert Pow2(8) == 256;
    Regroup(Flatten(xs, 6), 8)
  }

  predicate Decodable(v: Variant, s: string, cap: nat) {
    var t := StripPadding(s);
    |t| % 4 != 1 && InAlphabet(v, t) && 3 * |t| / 4 <= cap
  }

  function Decode(v: Variant, s: string, cap: nat): Option<seq<byte>> {
    if Decodable(v, s, cap) then Some(Bytes(Indices(v, StripPadding(s)))) else None
  }

  function EncodedLen(v: Variant, n: nat): nat {
    if v.Standard? then 4 * ((n + 2) / 3)
    else (n / 3) * 4 + (if n % 3 != 0 then n % 3 + 1 else 0)
  }

  /** The letters of RFC 4648, table 1 of section 4 and table 2 of section 5. */
  predicate IsLetter(v: Variant, c: char) {
    'A' <= c <= 'Z' || 'a' <= c <= 'z' || '0' <= c <= '9'
    || if v.Standard? then c == '+' || c == '/' else c == '-' || c == '_'
  }

  /**
   * What is decoded, for texts split before their trailing pad characters, however many there are:
   * letters only, no lone one over, and a result that fits.
   */
  lemma {:induction false} DecodesExactly(v: Variant, core: string, pads: nat, cap: nat)
    requires core == [] || core[|core| - 1] != '='
    ensures Decode(v, core + Repeat('=', pads), cap).Some?
       <==> (forall i :: 0 <= i < |core| ==> IsLetter(v, core[i])) && |core| % 4 != 1 && 3 * |core| / 4 <= cap
    ensures Decode(v, core + Repeat('=', pads), cap).Some? ==>
              |Decode(v, core + Repeat('=', pads), cap).value| == 3 * |core| / 4
  {
    PadsStripped(core, pads);
    if Decodable(v, core, cap) {
      BytesLength(Indices(v, core));
    }
  }

  lemma {:induction false} PadsStripped(core: string, pads: nat)
    requires core == [] || core[|core| - 1] != '='
    ensures StripPadding(core + Repeat('=', pads)) == core
  {
    var s := core + Repeat('=', pads);
    if pads > 0 {
      assert s[..|s| - 1] == core + Repeat('=', pads - 1);
      PadsStripped(core, pads - 1);
    } else {
      assert s == core;
    }
  }

  // --------------------------------------------------------- round trip

  lemma {:induction false} SextetsFlatten(bs: seq<byte>)
    ensures Flatten(Sextets(bs), 6) == Flatten(bs, 8) + Repeat(false, FillBits(|bs|))
    ensures |Sextets(bs)| == 4 * (|bs| / 3) + (if |bs| % 3 == 0 then 0 else |bs| % 3 + 1)
  {
    var all := Flatten(bs, 8) + Repeat(false, FillBits(|bs|));
    var n := 4 * (|bs| / 3) + (if |bs| % 3 == 0 then 0 else |bs| % 3 + 1);
    FlattenLength(bs, 8);
    assert |bs| == 3 * (|bs| / 3) + |bs| % 3;
    assert |all| == 6 * n;
    FlattenRegroup(all, 6, n);
  }

  /** The buffer-sizing arithmetic is the length of the text, for either variant. */
  lemma EncodedLength(v: Variant, bs: seq<byte>)
    ensures |Encode(v, bs)| == EncodedLen(v, |bs|)
  {
    hide Flatten, Regroup, Repeat, Sextets;
    SextetsFlatten(bs);
  }

  lemma {:induction false} StripOnlyPadding(s: string, p: string)
    requires |s| == 0 || s[|s| - 1] != '='
    requires forall i :: 0 <= i < |p| ==> p[i] == '='
    ensures StripPadding(s + p) == s
    decreases |p|
  {
    if |p| == 0 {
      assert s + p == s;
    } else {
      assert (s + p)[..|s + p| - 1] == s + p[..|p| - 1];
      StripOnlyPadding(s, p[..|p| - 1]);
    }
  }

  /** Whole groups decode to the length the capacity test uses. */
  lemma {:induction false} BytesLength(xs: seq<nat>)
    ensures |Bytes(xs)| == 3 * |xs| / 4
  {
    var bits := Flatten(xs, 6);
    FlattenLength(xs, 6);
    var n := 3 * |xs| / 4;
    RegroupAppend(bits[..8 * n], bits[8 * n..], 8, n);
    assert bits == bits[..8 * n] + bits[8 * n..];
    assert Regroup(bits[8 * n..], 8) == [];
  }

  /** decode(encode(x)) == x, for every byte string, either variant, any sufficient capacity. */
  lemma {:induction false} RoundTrip(v: Variant, bs: seq<byte>, cap: nat)
    requires |bs| <= cap
    ensures Decode(v, Encode(v, bs), cap) == Some(bs)
  {
    var xs := Sextets(bs);
    var text := Letters(v, xs);
    StripOnlyPadding(text, if v.Standard? then Padding(|bs|) else "");
    IndicesOfLetters(v, xs);
    SextetCount(bs);
    BytesAgain(bs);
  }

  /** Never one left-over character, and never a byte too few. */
  lemma {:induction false} SextetCount(bs: seq<byte>)
    ensures |Sextets(bs)| % 4 != 1 && 3 * |Sextets(bs)| / 4 == |bs|
  {
    hide Sextets, Flatten, Regroup, Repeat;
    SextetsFlatten(bs);
  }

  lemma {:induction false} BytesAgain(bs: seq<byte>)
    ensures Bytes(Sextets(bs)) == bs
  {
    SextetsFlatten(bs);
    FlattenLength(bs, 8);
    RegroupAppend(Flatten(bs, 8), Repeat(false, FillBits(|bs|)), 8, |bs|);
    assert Pow2(8) == 256;
    RegroupFlatten(bs, 8);
  }

  /**
   * Decoding loses only the fill bits: two texts with the same byte meaning agree on every
   * whole byte of their bit strings.
   */
  lemma {:induction false} DecodedBits(v: Variant, s: string, cap: nat)
    requires Decodable(v, s, cap)
    ensures var bits := Flatten(Indices(v, StripPadding(s)), 6);
            var out := Flatten(Decode(v, s, cap).value, 8);
            out <= bits && |bits| - |out| < 8
  {
    BytesAreTheStream(Indices(v, StripPadding(s)));
  }

  lemma {:induction false} BytesAreTheStream(xs: seq<nat>)
    ensures |Flatten(Bytes(xs), 8)| <= |Flatten(xs, 6)| < |Flatten(Bytes(xs), 8)| + 8
    ensures Flatten(Bytes(xs), 8) <= Flatten(xs, 6)
  {
    var bits := Flatten(xs, 6);
    var n := 3 * |xs| / 4;
    FlattenLength(xs, 6);
    var whole, rest := bits[..8 * n], bits[8 * n..];
    RegroupAppend(whole, rest, 8, n);
    assert bits == whole + rest;
    assert Regroup(rest, 8) == [];
    assert Bytes(xs) == Regroup(whole, 8);
    FlattenRegroup(whole, 8, n);
  }

  // ------------------------------------------------------------ encoder

  /** Three bytes in one 24-bit word. */
  function Word(x: byte, y: byte, z: byte): (w: nat)
    ensures w < 0x100_0000
  {
    var a: nat, b: nat, c: nat := x, y, z;
    a * 65536 + b * 256 + c
  }

  /** The encoder's four shifts and masks of such a word. */
  function Quad(w: nat): (q: seq<nat>)
    ensures |q| == 4
    ensures forall k :: 0 <= k < 4 ==> q[k] < 64
  {
    [w / 262144 % 64, w / 4096 % 64, w / 64 % 64, w % 64]
  }

  lemma QuadSpells(w: nat)
    requires w < 0x100_0000
    ensures w == ((Quad(w)[0] * 64 + Quad(w)[1]) * 64 + Quad(w)[2]) * 64 + Quad(w)[3]
  {
    var a, b := w / 64, w / 4096;
    assert b == a / 64;
    assert w / 262144 == b / 64;
  }

  /** One more `w`-bit number at the end of a bit string that spells `y`. */
  lemma {:induction false} PushBits(xs: seq<nat>, y: nat, n: nat, x: nat, w: nat, z: nat)
    requires Flatten(xs, w) == ToBits(y, n) && x < Pow2(w)
    requires z == y * Pow2(w) + x
    ensures Flatten(xs + [x], w) == ToBits(z, n + w)
  {
    FlattenSnoc(xs, x, w);
    BitsJoin(y, x, n, w);
  }

  /** Two, three and four numbers; the running values are passed in by name. */
  lemma {:induction false} PushTwo(a: nat, b: nat, w: nat, ab: nat)
    requires b < Pow2(w)
    requires ab == a * Pow2(w) + b
    ensures Flatten([a, b], w) == ToBits(ab, w + w)
  {
    FlattenOne(a, w);
    PushBits([a], a, w, b, w, ab);
    assert [a] + [b] == [a, b];
  }

  lemma {:induction false} PushThree(a: nat, b: nat, c: nat, w: nat, ab: nat, abc: nat)
    requires b < Pow2(w) && c < Pow2(w)
    requires ab == a * Pow2(w) + b
    requires abc == ab * Pow2(w) + c
    ensures Flatten([a, b, c], w) == ToBits(abc, w + w + w)
  {
    PushTwo(a, b, w, ab);
    PushBits([a, b], ab, w + w, c, w, abc);
    assert [a, b] + [c] == [a, b, c];
  }

  lemma {:induction false} PushFour(a: nat, b: nat, c: nat, d: nat, w: nat, ab: nat, abc: nat, abcd: nat)
    requires b < Pow2(w) && c < Pow2(w) && d < Pow2(w)
    requires ab == a * Pow2(w) + b
    requires abc == ab * Pow2(w) + c
    requires abcd == abc * Pow2(w) + d
    ensures Flatten([a, b, c, d], w) == ToBits(abcd, w + w + w + w)
  {
    PushThree(a, b, c, w, ab, abc);
    PushBits([a, b, c], abc, w + w + w, d, w, abcd);
    assert [a, b, c] + [d] == [a, b, c, d];
  }

  /** Zero bits multiply. */
  lemma {:induction false} ZeroFill(s: seq<bool>, y: nat, n: nat, k: nat)
    requires s == ToBits(y, n)
    ensures s + Repeat(false, k) == ToBits(y * Pow2(k), n + k)
  {
    ZeroBits(k);
    BitsJoin(y, 0, n, k);
  }

  /** One three-byte group is the same bit string as its four letters' values. */
  lemma {:induction false} GroupOfThree(x: byte, y: byte, z: byte)
    ensures Flatten([x, y, z], 8) == Flatten(Quad(Word(x, y, z)), 6)
  {
    var w := Word(x, y, z);
    var q := Quad(w);
    QuadSpells(w);
    assert Pow2(8) == 256 && Pow2(6) == 64;
    PushThree(x, y, z, 8, w / 256, w);
    var q2 := q[0] * 64 + q[1];
    PushFour(q[0], q[1], q[2], q[3], 6, q2, q2 * 64 + q[2], w);
    assert q == [q[0], q[1], q[2], q[3]];
  }

  /** A final single byte, four zero bits filled in. */
  lemma {:induction false} GroupOfOne(x: byte)
    ensures Flatten([x], 8) + Repeat(false, 4) == Flatten(Quad(Word(x, 0, 0))[..2], 6)
  {
    var q := Quad(Word(x, 0, 0));
    QuadSpells(Word(x, 0, 0));
    assert q[0] * 64 + q[1] == x as int * 16;
    assert Pow2(4) == 16 && Pow2(6) == 64;
    PushTwo(q[0], q[1], 6, q[0] * 64 + q[1]);
    assert q[..2] == [q[0], q[1]];
    FlattenOne(x, 8);
    ZeroFill(Flatten([x], 8), x, 8, 4);
  }

  /** A final pair of bytes, two zero bits filled in. */
  lemma {:induction false} GroupOfTwo(x: byte, y: byte)
    ensures Flatten([x, y], 8) + Repeat(false, 2) == Flatten(Quad(Word(x, y, 0))[..3], 6)
  {
    var q := Quad(Word(x, y, 0));
    QuadSpells(Word(x, y, 0));
    var xy: nat := x as int * 256 + y as int;
    var q2 := q[0] * 64 + q[1];
    assert q2 * 64 + q[2] == xy * 4;
    assert Pow2(2) == 4 && Pow2(6) == 64 && Pow2(8) == 256;
    PushThree(q[0], q[1], q[2], 6, q2, xy * 4);
    assert q[..3] == [q[0], q[1], q[2]];
    PushTwo(x, y, 8, xy);
    ZeroFill(Flatten([x, y], 8), xy, 16, 2);
  }

  lemma {:induction false} ZeroBits(n: nat)
    ensures ToBits(0, n) == Repeat(false, n)
  {
    if n > 0 {
      ZeroBits(n - 1);
      assert Repeat(false, n) == Repeat(false, n - 1) + [false];
    }
  }

  lemma SixtyFour()
    ensures Pow2(6) == 64
  {
  }

  /** Appending a group after whole groups appends that group's sextets. */
  lemma {:induction false} SextetsAppend(a: seq<byte>, b: seq<byte>, xs: seq<nat>)
    requires |a| % 3 == 0
    requires Flatten(b, 8) + Repeat(false, FillBits(|b|)) == Flatten(xs, 6)
    requires forall k :: 0 <= k < |xs| ==> xs[k] < 64
    ensures Sextets(a + b) == Sextets(a) + xs
  {
    hide Flatten, Regroup, Pow2, Repeat;
    SixtyFour();
    assert Repeat(false, 0) == [];
    var fill := Repeat(false, FillBits(|b|));
    FlattenAppend(a, b, 8);
    assert FillBits(|a + b|) == FillBits(|b|);
    assert Flatten(a + b, 8) + fill == Flatten(a, 8) + (Flatten(b, 8) + fill);
    FlattenLength(a, 8);
    RegroupAppend(Flatten(a, 8), Flatten(b, 8) + fill, 6, 4 * (|a| / 3));
    assert Flatten(a, 8) + Repeat(false, 0) == Flatten(a, 8);
    RegroupFlatten(xs, 6);
  }

  lemma LettersAppend(v: Variant, a: seq<nat>, b: seq<nat>)
    requires forall k :: 0 <= k < |a| ==> a[k] < 64
    requires forall k :: 0 <= k < |b| ==> b[k] < 64
    ensures Letters(v, a + b) == Letters(v, a) + Letters(v, b)
  {
  }

  /** Three input bytes at `i` extend the text by four letters. */
  lemma {:induction false} EncodeGroup(v: Variant, input: seq<byte>, i: nat)
    requires i + 3 <= |input| && i % 3 == 0
    ensures Letters(v, Sextets(input[..i + 3]))
         == Letters(v, Sextets(input[..i])) + Letters(v, Quad(Word(input[i], input[i + 1], input[i + 2])))
  {
    hide Flatten, Sextets, Letters, Quad, Word;
    var b := [input[i], input[i + 1], input[i + 2]];
    var q := Quad(Word(input[i], input[i + 1], input[i + 2]));
    GroupOfThree(input[i], input[i + 1], input[i + 2]);
    assert Flatten(b, 8) + Repeat(false, 0) == Flatten(b, 8);
    SextetsAppend(input[..i], b, q);
    assert input[..i + 3] == input[..i] + b;
    LettersAppend(v, Sextets(input[..i]), q);
  }

  /** What is written for the zero, one or two bytes left after the whole groups. */
  function Tail(v: Variant, rest: seq<byte>): string
    requires |rest| < 3
  {
    if |rest| == 0 then ""
    else if |rest| == 1 then
      Letters(v, Quad(Word(rest[0], 0, 0))[..2]) + (if v.Standard? then "==" else "")
    else
      Letters(v, Quad(Word(rest[0], rest[1], 0))[..3]) + (if v.Standard? then "=" else "")
  }

  lemma {:induction false} EncodeTail(v: Variant, input: seq<byte>, i: nat)
    requires i <= |input| < i + 3 && i % 3 == 0
    ensures Encode(v, input) == Letters(v, Sextets(input[..i])) + Tail(v, input[i..])
  {
    hide Flatten, Sextets, Letters, Quad, Word, Encode, Repeat;
    var b := input[i..];
    SplitAt(input, i);
    if |b| == 1 {
      GroupOfOne(b[0]);
      assert b == [b[0]];
      TailLetters(v, input[..i], b, Quad(Word(b[0], 0, 0))[..2]);
    } else if |b| == 2 {
      GroupOfTwo(b[0], b[1]);
      assert b == [b[0], b[1]];
      TailLetters(v, input[..i], b, Quad(Word(b[0], b[1], 0))[..3]);
    } else {
      WholeText(v, input);
      assert input[..i] == input;
    }
  }

  lemma WholeText(v: Variant, input: seq<byte>)
    requires |input| % 3 == 0
    ensures Encode(v, input) == Letters(v, Sextets(input)) + ""
  {
    hide Letters, Sextets;
  }

  lemma {:induction false} TailLetters(v: Variant, a: seq<byte>, b: seq<byte>, xs: seq<nat>)
    requires |a| % 3 == 0 && |b| < 3
    requires Flatten(b, 8) + Repeat(false, FillBits(|b|)) == Flatten(xs, 6)
    requires forall k :: 0 <= k < |xs| ==> xs[k] < 64
    ensures Encode(v, a + b)
         == Letters(v, Sextets(a)) + (Letters(v, xs) + (if v.Standard? then Padding(|b|) else ""))
  {
    hide Flatten, Sextets, Letters, Repeat;
    SextetsAppend(a, b, xs);
    LettersAppend(v, Sextets(a), xs);
    assert |a + b| % 3 == |b| % 3;
    Appended(Letters(v, Sextets(a)), Letters(v, xs), if v.Standard? then Padding(|b|) else "");
  }

  /** `out[o++] = c`. */
  method Put(out: array<char>, o: nat, c: char) returns (next: nat)
    requires o < out.Length
    modifies out
    ensures next == o + 1
    ensures out[..o + 1] == old(out[..o]) + [c]
    ensures forall k :: o < k < out.Length ==> out[k] == old(out[k])
  {
    out[o] := c;
    assert out[..o] == old(out[..o]);
    next := o + 1;
  }

  lemma LettersOf(v: Variant, q: seq<nat>)
    requires |q| == 4 && forall k :: 0 <= k < |q| ==> q[k] < 64
    ensures Letters(v, q[..2]) == [Letter(v, q[0]), Letter(v, q[1])]
    ensures Letters(v, q[..3]) == Letters(v, q[..2]) + [Letter(v, q[2])]
    ensures Letters(v, q[..4]) == Letters(v, q[..3]) + [Letter(v, q[3])]
  {
  }

  /** Write the first `n` letters of a group, alphabet lookups included. */
  method PutLetters(v: Variant, w: nat, n: nat, out: array<char>, o: nat) returns (next: nat)
    requires 2 <= n <= 4 && o + n <= out.Length
    modifies out
    ensures next == o + n
    ensures out[..next] == old(out[..o]) + Letters(v, Quad(w)[..n])
    ensures forall k :: next <= k < out.Length ==> out[k] == old(out[k])
  {
    AlphabetLetters(v, w / 262144 % 64);
    AlphabetLetters(v, w / 4096 % 64);
    AlphabetLetters(v, w / 64 % 64);
    AlphabetLetters(v, w % 64);
    next := Put(out, o, Alphabet(v)[w / 262144 % 64]);
    next := Put(out, next, Alphabet(v)[w / 4096 % 64]);
    if n > 2 {
      next := Put(out, next, Alphabet(v)[w / 64 % 64]);
    }
    if n > 3 {
      next := Put(out, next, Alphabet(v)[w % 64]);
    }
    LettersOf(v, Quad(w));
  }

  method PutTail(v: Variant, rest: seq<byte>, out: array<char>, o: nat) returns (next: nat)
    requires |rest| < 3 && o + |Tail(v, rest)| <= out.Length
    modifies out
    ensures next == o + |Tail(v, rest)|
    ensures out[..next] == old(out[..o]) + Tail(v, rest)
    ensures forall k :: next <= k < out.Length ==> out[k] == old(out[k])
  {
    next := o;
    if |rest| == 1 {
      next := PutLetters(v, Word(rest[0], 0, 0), 2, out, next);
      if v.Standard? {
        next := Put(out, next, '=');
        next := Put(out, next, '=');
      }
    } else if |rest| == 2 {
      next := PutLetters(v, Word(rest[0], rest[1], 0), 3, out, next);
      if v.Standard? {
        next := Put(out, next, '=');
      }
    }
  }

  lemma NextGroup(v: Variant, input: seq<byte>, i: nat, front: string)
    requires i + 3 <= |input| && i % 3 == 0
    ensures var letters := Letters(v, Quad(Word(input[i], input[i + 1], input[i + 2]))[..4]);
            && |Letters(v, Sextets(input[..i + 3]))| == |Letters(v, Sextets(input[..i]))| + 4
            && front + Letters(v, Sextets(input[..i])) + letters == front + Letters(v, Sextets(input[..i + 3]))
  {
    hide Sextets, Letters, Quad, Word;
    EncodeGroup(v, input, i);
    var q := Quad(Word(input[i], input[i + 1], input[i + 2]));
    assert q[..4] == q;
    Appended(front, Letters(v, Sextets(input[..i])), Letters(v, q));
  }

  method PutGroup(v: Variant, input: seq<byte>, i: nat, out: array<char>, o: nat, ghost front: string)
    requires i + 3 <= |input| && i % 3 == 0 && o + 4 <= out.Length
    requires out[..o] == front + Letters(v, Sextets(input[..i]))
    modifies out
    ensures out[..o + 4] == front + Letters(v, Sextets(input[..i + 3]))
    ensures forall k :: o + 4 <= k < out.Length ==> out[k] == old(out[k])
  {
    hide Sextets, Letters, Quad, Word;
    NextGroup(v, input, i, front);
    var next := PutLetters(v, Word(input[i], input[i + 1], input[i + 2]), 4, out, o);
  }

  /** The loop over whole groups. */
  method PutGroups(v: Variant, input: seq<byte>, out: array<char>, base: nat)
    returns (i: nat, o: nat)
    requires base + 4 * (|input| / 3) <= out.Length
    modifies out
    ensures i <= |input| < i + 3 && i % 3 == 0
    ensures o == base + 4 * (|input| / 3) && |Letters(v, Sextets(input[..i]))| == o - base
    ensures out[..o] == old(out[..base]) + Letters(v, Sextets(input[..i]))
    ensures forall k :: o <= k < out.Length ==> out[k] == old(out[k])
  {
    i, o := 0, base;
    NoGroups(v, input);
    hide Sextets, Letters;
    ghost var front := out[..base];
    while |input| - i >= 3
      invariant 0 <= i <= |input| && i % 3 == 0 && o == base + 4 * (i / 3)
      invariant out[..o] == front + Letters(v, Sextets(input[..i]))
      invariant forall k :: o <= k < out.Length ==> out[k] == old(out[k])
    {
      GroupsFit(|input|, i);
      PutGroup(v, input, i, out, o, front);
      i, o := i + 3, o + 4;
    }
  }

  lemma NoGroups(v: Variant, input: seq<byte>)
    ensures Letters(v, Sextets(input[..0])) == ""
  {
    SextetsFlatten(input[..0]);
  }

  lemma GroupsFit(n: nat, i: nat)
    requires i % 3 == 0 && i + 3 <= n
    ensures i / 3 + 1 <= n / 3 && (i + 3) / 3 == i / 3 + 1 && (i + 3) % 3 == 0
  {
  }

  method PutText(v: Variant, input: seq<byte>, out: array<char>, base: nat) returns (o: nat)
    requires base + |Encode(v, input)| <= out.Length
    modifies out
    ensures o == base + |Encode(v, input)|
    ensures out[..o] == old(out[..base]) + Encode(v, input)
    ensures forall k :: o <= k < out.Length ==> out[k] == old(out[k])
  {
    EncodedLength(v, input);
    hide Encode, Letters, Sextets, Tail;
    ghost var front := out[..base];
    var i;
    i, o := PutGroups(v, input, out, base);
    EncodeTail(v, input, i);
    ghost var groups, tail := Letters(v, Sextets(input[..i])), Tail(v, input[i..]);
    assert |Encode(v, input)| == |groups| + |tail|;
    o := PutTail(v, input[i..], out, o);
    Appended(front, groups, tail);
  }

  /**
   * The encoder over a caller's buffer: `cap` characters of `out` from `base` on, terminator
   * included. Nothing outside the written text and its terminator changes.
   */
  method B64Encode(v: Variant, input: seq<byte>, out: array<char>, base: nat, cap: nat)
    returns (r: Option<nat>)
    requires base + cap <= out.Length
    modifies out
    ensures r == if cap < EncodedLen(v, |input|) + 1 then None else Some(|Encode(v, input)|)
    ensures r.None? ==> out[..] == old(out[..])
    ensures r.Some? ==>
              && r.value + 1 <= cap
              && out[..base + r.value + 1] == old(out[..base]) + Encode(v, input) + ['\0']
              && forall k :: base + r.value < k < out.Length ==> out[k] == old(out[k])
  {
    var need := if v.Standard? then 4 * ((|input| + 2) / 3)
                else (|input| / 3) * 4 + (if |input| % 3 != 0 then |input| % 3 + 1 else 0);
    if cap < need + 1 {
      return None;
    }
    EncodedLength(v, input);
    var o := PutText(v, input, out, base);
    ghost var text := out[..o];
    ghost var end := Put(out, o, '\0');
    assert out[..o + 1] == text + ['\0'];
    return Some(o - base);
  }

  // ------------------------------------------------------------ decoder

  predicate PendingCount(bits: nat) {
    bits == 0 || bits == 2 || bits == 4 || bits == 6
  }

  /** The accumulator holds `p` in its low `bits` bits, under stale higher bits `top`. */
  predicate Holds(acc: nat, bits: nat, top: nat, p: nat) {
    if bits == 0 then acc == top && p == 0
    else if bits == 2 then acc == top * 4 + p && p < 4
    else if bits == 4 then acc == top * 16 + p && p < 16
    else if bits == 6 then acc == top * 64 + p && p < 64
    else if bits == 8 then acc == top * 256 + p && p < 256
    else if bits == 10 then acc == top * 1024 + p && p < 1024
    else acc == top * 4096 + p && p < 4096
  }

  /** Reducing modulo 2^32 drops whole multiples of any smaller power of two. */
  lemma Wrap(k: nat, m: nat, top: nat, p: nat)
    requires m > 0 && p < m && k * m == 0x1_0000_0000
    ensures (top * m + p) % 0x1_0000_0000 == top % k * m + p
  {
    var y, q, s := top * m + p, top / k, top % k;
    assert top == q * k + s;
    assert y == q * 0x1_0000_0000 + (s * m + p) by {
      assert (q * k + s) * m == q * (k * m) + s * m;
    }
    assert s * m + p < 0x1_0000_0000 by {
      assert (s + 1) * m <= k * m;
      assert (s + 1) * m == s * m + m;
    }
    ModUnique(y, q, s * m + p);
  }

  lemma ModUnique(y: nat, q: nat, r: nat)
    requires y == q * 0x1_0000_0000 + r && r < 0x1_0000_0000
    ensures y % 0x1_0000_0000 == r
  {
  }

  /** The accumulator's 32-bit wrap-around changes only stale bits. */
  lemma WrapKeepsLowBits(acc: nat, x: sextet, bits: nat, top: nat, p: nat) returns (top': nat)
    requires PendingCount(bits) && Holds(acc, bits, top, p)
    ensures Holds((acc * 64 + x) % 0x1_0000_0000, bits + 6, top', p * 64 + x)
  {
    if bits == 0 {
      Wrap(0x400_0000, 64, top, x);
      top' := top % 0x400_0000;
    } else if bits == 2 {
      Wrap(0x100_0000, 256, top, p * 64 + x);
      top' := top % 0x100_0000;
    } else if bits == 4 {
      Wrap(0x40_0000, 1024, top, p * 64 + x);
      top' := top % 0x40_0000;
    } else {
      Wrap(0x10_0000, 4096, top, p * 64 + x);
      top' := top % 0x10_0000;
    }
  }

  /** Shifting and masking a byte out reads pending bits only. */
  lemma ShiftAndMask(acc: nat, bits: nat, top: nat, hi: nat, lo: nat) returns (top': nat)
    requires bits == 0 || bits == 2 || bits == 4
    requires hi < 256 && lo < Pow2(bits)
    requires Holds(acc, bits + 8, top, hi * Pow2(bits) + lo)
    ensures ShiftRight(acc, bits) % 256 == hi
    ensures Holds(acc, bits, top', lo)
  {
    assert Pow2(0) == 1 && Pow2(2) == 4 && Pow2(4) == 16;
    hide Pow2;
    top' := top * 256 + hi;
    hide ShiftRight;
    if bits == 0 {
      assert acc == top' * 1 + lo;
    } else if bits == 2 {
      assert acc == top' * 4 + lo;
    } else {
      assert acc == top' * 16 + lo;
    }
    ShiftDropsLow(top', lo, bits);
  }

  /** The decoder's state after `xs`: whole bytes out, the rest pending in the accumulator. */
  ghost predicate Streaming(xs: seq<nat>, bs: seq<byte>, pending: seq<bool>, acc: nat, top: nat) {
    && Flatten(xs, 6) == Flatten(bs, 8) + pending
    && Holds(acc, |pending|, top, Value(pending))
  }

  /** One letter read: six more pending bits. */
  lemma {:induction false} StreamRead(xs: seq<nat>, bs: seq<byte>, pending: seq<bool>, acc: nat, top: nat, x: sextet)
    returns (top': nat)
    requires Streaming(xs, bs, pending, acc, top) && PendingCount(|pending|)
    ensures Streaming(xs + [x], bs, pending + ToBits(x, 6), (acc * 64 + x) % 0x1_0000_0000, top')
  {
    hide Value, ToBits, Flatten, Holds;
    top' := WrapKeepsLowBits(acc, x, |pending|, top, Value(pending));
    FlattenSnoc(xs, x, 6);
    SixMoreBits(pending, x);
    Appended(Flatten(bs, 8), pending, ToBits(x, 6));
  }

  lemma {:induction false} SixMoreBits(pending: seq<bool>, x: sextet)
    ensures Value(pending + ToBits(x, 6)) == Value(pending) * 64 + x
  {
    ValueAppend(pending, ToBits(x, 6));
    assert Pow2(6) == 64;
    ValueOfBits(x, 6);
  }

  /** One byte written: the eight oldest pending bits, in order. */
  lemma {:induction false} StreamEmit(xs: seq<nat>, bs: seq<byte>, pending: seq<bool>, acc: nat, top: nat)
    returns (top': nat)
    requires Streaming(xs, bs, pending, acc, top)
    requires |pending| == 8 || |pending| == 10 || |pending| == 12
    ensures Streaming(xs, bs + [ShiftRight(acc, |pending| - 8) % 256], pending[8..], acc, top')
  {
    assert Pow2(8) == 256;
    hide Value, ToBits, Flatten, Pow2, Holds, ShiftRight;
    var hi, lo := pending[..8], pending[8..];
    assert pending == hi + lo;
    ValueAppend(hi, lo);
    top' := ShiftAndMask(acc, |lo|, top, Value(hi), Value(lo));
    BitsOfValue(hi);
    FlattenSnoc(bs, Value(hi), 8);
    Appended(Flatten(bs, 8), hi, lo);
  }

  /** The reverse table the decoder builds. */
  ghost predicate IsReverseTable(v: Variant, rev: seq<int>, n: nat)
    requires n <= 64
  {
    |rev| == 256 &&
    forall c :: 0 <= c < 256 ==>
      rev[c] == (match Index(v, c as char) case Some(x) => if x < n then x else -1 case None => -1)
  }

  lemma {:induction false} ReverseStep(v: Variant, rev: seq<int>, i: nat)
    requires i < 64 && IsReverseTable(v, rev, i)
    ensures IsReverseTable(v, rev[Letter(v, i) as int := i], i + 1)
  {
    var rev' := rev[Letter(v, i) as int := i];
    forall c | 0 <= c < 256
      ensures rev'[c] == (match Index(v, c as char) case Some(x) => if x < i + 1 then x else -1 case None => -1)
    {
      IndexIsExact(v, c as char, i);
      assert (c as char == Letter(v, i)) == (c == Letter(v, i) as int);
    }
  }

  method BuildReverse(v: Variant) returns (rev: array<int>)
    ensures fresh(rev) && IsReverseTable(v, rev[..], 64)
  {
    rev := new int[256](_ => -1);
    assert IsReverseTable(v, rev[..], 0);
    for i := 0 to 64
      invariant IsReverseTable(v, rev[..], i)
    {
      AlphabetLetters(v, i);
      ReverseStep(v, rev[..], i);
      ghost var before := rev[..];
      rev[Alphabet(v)[i] as int] := i;
      assert rev[..] == before[Letter(v, i) as int := i];
    }
  }

  predicate ByteChars(s: string) {
    forall i :: 0 <= i < |s| ==> s[i] < 256 as char
  }

  method StrippedLength(input: string) returns (n: nat)
    ensures n <= |input| && StripPadding(input) == input[..n]
  {
    n := |input|;
    assert input[..n] == input;
    while n > 0 && input[n - 1] == '='
      invariant 0 <= n <= |input|
      invariant StripPadding(input) == StripPadding(input[..n])
    {
      assert input[..n][..n - 1] == input[..n - 1];
      n := n - 1;
    }
  }

  lemma StreamStart()
    ensures Streaming([], [], [], 0, 0)
  {
  }

  /** The decoder: the capacity is the buffer's length, a refusal is None. */
  method B64Decode(v: Variant, input: string, out: array<byte>) returns (r: Option<nat>)
    requires ByteChars(input)
    modifies out
    ensures r.Some? <==> Decodable(v, input, out.Length)
    ensures r.Some? ==>
              && r.value <= out.Length
              && Decode(v, input, out.Length) == Some(out[..r.value])
              && forall k :: r.value <= k < out.Length ==> out[k] == old(out[k])
  {
    StreamStart();
    hide Streaming, ToBits, StripPadding;
    var rev := BuildReverse(v);
    var n := StrippedLength(input);
    ghost var text := StripPadding(input);
    if n % 4 == 1 {
      return None;
    }
    var acc: nat, bits: nat, o: nat := 0, 0, 0;
    ghost var xs: seq<nat>, pending: seq<bool>, top: nat := [], [], 0;
    for i := 0 to n
      invariant InAlphabet(v, text[..i]) && xs == Indices(v, text[..i])
      invariant 0 <= o <= out.Length && PendingCount(bits) && |pending| == bits
      invariant Streaming(xs, out[..o], pending, acc, top)
      invariant IsReverseTable(v, rev[..], 64)
      invariant forall k :: o <= k < out.Length ==> out[k] == old(out[k])
    {
      var x := rev[input[i] as int];
      IndexStep(v, text, i, rev[..], xs);
      if x < 0 {
        return None;
      }
      top := StreamRead(xs, out[..o], pending, acc, top, x);
      xs, pending := xs + [x as nat], pending + ToBits(x, 6);
      acc := (acc * 64 + x) % 0x1_0000_0000;
      bits := bits + 6;
      if bits >= 8 {
        bits := bits - 8;
        top := StreamEmit(xs, out[..o], pending, acc, top);
        pending := pending[8..];
        if o >= out.Length {
          TooManyBytes(xs, out[..o] + [ShiftRight(acc, bits) % 256], pending, acc, top);
          return None;
        }
        ghost var done := out[..o];
        out[o] := ShiftRight(acc, bits) % 256;
        assert out[..o + 1] == done + [out[o]];
        o := o + 1;
      }
    }
    assert text[..n] == text;
    WholeBytes(xs, out[..o], pending, acc, top);
    BytesLength(xs);
    return Some(o);
  }

  /** The table lookup classifies one more character. */
  lemma IndexStep(v: Variant, text: string, i: nat, rev: seq<int>, xs: seq<nat>)
    requires i < |text| && text[i] < 256 as char
    requires IsReverseTable(v, rev, 64)
    requires InAlphabet(v, text[..i]) && xs == Indices(v, text[..i])
    ensures var x := rev[text[i] as int];
            if x < 0 then !InAlphabet(v, text)
            else x < 64 && InAlphabet(v, text[..i + 1]) && xs + [x] == Indices(v, text[..i + 1])
  {
    var x := rev[text[i] as int];
    assert (text[i] as int) as char == text[i];
    assert text[..i + 1] == text[..i] + [text[i]];
    if x < 0 {
      assert Index(v, text[i]).None?;
    } else {
      assert Index(v, text[i]) == Some(x);
    }
  }

  lemma {:induction false} TooManyBytes(xs: seq<nat>, bs: seq<byte>, pending: seq<bool>, acc: nat, top: nat)
    requires Streaming(xs, bs, pending, acc, top)
    ensures |bs| <= 3 * |xs| / 4
  {
    FlattenLength(xs, 6);
    FlattenLength(bs, 8);
  }

  /** Bytes that spell all but fewer than eight bits of the stream are its whole bytes. */
  lemma {:induction false} WholeBytes(xs: seq<nat>, bs: seq<byte>, pending: seq<bool>, acc: nat, top: nat)
    requires Streaming(xs, bs, pending, acc, top) && |pending| < 8
    ensures Bytes(xs) == bs
  {
    FlattenLength(bs, 8);
    RegroupAppend(Flatten(bs, 8), pending, 8, |bs|);
    assert Pow2(8) == 256;
    RegroupFlatten(bs, 8);
  }

  // ----------------------------------------------------------- test vectors

  lemma {:induction false} LastGroup(x: byte, y: byte, z: byte)
    ensures Sextets([x]) == Quad(Word(x, 0, 0))[..2]
    ensures Sextets([x, y]) == Quad(Word(x, y, 0))[..3]
    ensures Sextets([x, y, z]) == Quad(Word(x, y, z))
  {
    hide Flatten, Quad, Word, Regroup, Pow2, Repeat;
    NoSextets();
    GroupOfOne(x);
    SextetsAppend([], [x], Quad(Word(x, 0, 0))[..2]);
    GroupOfTwo(x, y);
    SextetsAppend([], [x, y], Quad(Word(x, y, 0))[..3]);
    GroupOfThree(x, y, z);
    NoFill([x, y, z]);
    SextetsAppend([], [x, y, z], Quad(Word(x, y, z)));
    assert forall bs: seq<byte> :: [] + bs == bs;
  }

  lemma NoFill(bs: seq<byte>)
    requires |bs| == 3
    ensures Flatten(bs, 8) + Repeat(false, FillBits(|bs|)) == Flatten(bs, 8)
  {
    hide Flatten;
  }

  lemma NoSextets()
    ensures Sextets([]) == []
  {
    SextetCount([]);
  }

  /** The bytes of "foobar". */
  const FOOBAR: seq<byte> := [102, 111, 111, 98, 97, 114]

  lemma {:induction false} TwoGroups(a: seq<byte>, b: seq<byte>)
    requires |a| == 3
    ensures Sextets(a + b) == Sextets(a) + Sextets(b)
  {
    SextetsFlatten(b);
    hide Flatten, Regroup, Sextets, Repeat;
    SextetsAppend(a, b, Sextets(b));
  }

  /** The four values of a three-byte word, from the top. */
  lemma QuadIs(w: nat, a: sextet, b: sextet, c: sextet, d: sextet)
    requires w == ((a as int * 64 + b as int) * 64 + c as int) * 64 + d as int
    ensures w < 0x100_0000 && Quad(w) == [a, b, c, d]
  {
    assert w / 64 == (a as int * 64 + b as int) * 64 + c as int;
    assert w / 4096 == a as int * 64 + b as int;
    assert w / 262144 == a;
  }

  lemma QuadValues()
    ensures Quad(Word(102, 0, 0)) == [25, 32, 0, 0] && Quad(Word(102, 111, 0)) == [25, 38, 60, 0]
    ensures Quad(Word(102, 111, 111)) == [25, 38, 61, 47]
    ensures Quad(Word(98, 0, 0)) == [24, 32, 0, 0] && Quad(Word(98, 97, 0)) == [24, 38, 4, 0]
    ensures Quad(Word(98, 97, 114)) == [24, 38, 5, 50]
    ensures Quad(Word(251, 239, 255)) == [62, 62, 63, 63] && Quad(Word(255, 0, 0)) == [63, 48, 0, 0]
  {
    hide Quad;
    QuadIs(Word(102, 0, 0), 25, 32, 0, 0);
    QuadIs(Word(102, 111, 0), 25, 38, 60, 0);
    QuadIs(Word(102, 111, 111), 25, 38, 61, 47);
    QuadIs(Word(98, 0, 0), 24, 32, 0, 0);
    QuadIs(Word(98, 97, 0), 24, 38, 4, 0);
    QuadIs(Word(98, 97, 114), 24, 38, 5, 50);
    QuadIs(Word(251, 239, 255), 62, 62, 63, 63);
    QuadIs(Word(255, 0, 0), 63, 48, 0, 0);
  }

  lemma Spelled(v: Variant, bs: seq<byte>, xs: seq<nat>, text: string)
    requires Sextets(bs) == xs && |text| == |xs|
    requires forall i :: 0 <= i < |xs| ==> xs[i] < 64 && text[i] == Letter(v, xs[i])
    ensures Encode(v, bs) == text + (if v.Standard? then Padding(|bs|) else "")
  {
    hide Sextets, Letter;
    assert Letters(v, xs) == text;
  }

  /** Section 10 of RFC 4648: the encodings of the prefixes of "foobar". */
  lemma {:induction false} FoobarVectors()
    ensures Encode(Standard, FOOBAR[..1]) == "Zg==" && Encode(Standard, FOOBAR[..2]) == "Zm8="
    ensures Encode(Standard, FOOBAR[..3]) == "Zm9v" && Encode(Standard, FOOBAR[..4]) == "Zm9vYg=="
    ensures Encode(Standard, FOOBAR[..5]) == "Zm9vYmE=" && Encode(Standard, FOOBAR) == "Zm9vYmFy"
  {
    hide Sextets, Encode, Quad, Word;
    QuadValues();
    LastGroup(102, 111, 111);
    LastGroup(98, 97, 114);
    TwoGroups([102, 111, 111], [98]);
    TwoGroups([102, 111, 111], [98, 97]);
    TwoGroups([102, 111, 111], [98, 97, 114]);
    assert FOOBAR[..1] == [102] && FOOBAR[..2] == [102, 111] && FOOBAR[..3] == [102, 111, 111];
    assert FOOBAR[..4] == [102, 111, 111] + [98] && FOOBAR[..5] == [102, 111, 111] + [98, 97];
    assert FOOBAR == [102, 111, 111] + [98, 97, 114];
    Spelled(Standard, FOOBAR[..1], [25, 32], "Zg");
    Spelled(Standard, FOOBAR[..2], [25, 38, 60], "Zm8");
    Spelled(Standard, FOOBAR[..3], [25, 38, 61, 47], "Zm9v");
    Spelled(Standard, FOOBAR[..4], [25, 38, 61, 47, 24, 32], "Zm9vYg");
    Spelled(Standard, FOOBAR[..5], [25, 38, 61, 47, 24, 38, 4], "Zm9vYmE");
    Spelled(Standard, FOOBAR, [25, 38, 61, 47, 24, 38, 5, 50], "Zm9vYmFy");
  }

  /** The last two letters tell the alphabets of sections 4 and 5 apart. */
  lemma {:induction false} AlphabetVectors()
    ensures Encode(Standard, [251, 239, 255]) == "++//" && Encode(Url, [251, 239, 255]) == "--__"
    ensures Encode(Standard, [255]) == "/w==" && Encode(Url, [255]) == "_w"
  {
    hide Sextets, Encode, Quad, Word;
    QuadValues();
    LastGroup(251, 239, 255);
    LastGroup(255, 0, 0);
    Spelled(Standard, [251, 239, 255], [62, 62, 63, 63], "++//");
    Spelled(Url, [251, 239, 255], [62, 62, 63, 63], "--__");
    Spelled(Standard, [255], [63, 48], "/w");
    Spelled(Url, [255], [63, 48], "_w");
  }
}
