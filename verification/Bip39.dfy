/**
 Mnemonics: 32 bytes of entropy as 24 words and back to a master secret (src/bip39.c), after BIP39,
 sections "Generating the mnemonic" and "From mnemonic to seed". The word list, SHA-256 and PBKDF2
 are parameters.
 */
module Bip39 {
  import opened Sequences
  import opened Options
  import opened Bits
  import opened Wire

  const WORDS: nat := 24
  const MNEMONIC_CAP: nat := WORDS * 9
  const BIP39_BITS: nat := WORDS * 11
  const BIP39_BYTES: nat := 33
  const LIST_SIZE: nat := 2048
  const SALT := "mnemonic"
  const ROUNDS: nat := 2048

  type Entropy = s: seq<byte> | |s| == 32 witness seq(32, _ => 0)
  type Seed = s: seq<byte> | |s| == 64 witness seq(64, _ => 0)

  datatype Backend = Backend(
    list: seq<string>,
    sha256: seq<byte> -> Entropy,
    pbkdf2: (string, string, nat) -> Seed)

  // -------------------------------------------------------------- word list

  /** Byte order, a proper prefix first. */
  predicate Less(a: string, b: string) {
    if b == "" then false
    else if a == "" then true
    else a[0] < b[0] || (a[0] == b[0] && Less(a[1..], b[1..]))
  }

  lemma {:induction false} LessIsStrict(a: string, b: string)
    ensures !(Less(a, b) && Less(b, a)) && !Less(a, a)
  {
    if a != "" && b != "" {
      LessIsStrict(a[1..], b[1..]);
    } else if a != "" {
      LessIsStrict(a[1..], "");
    }
  }

  lemma {:induction false} LessTransitive(a: string, b: string, c: string)
    requires Less(a, b) && Less(b, c)
    ensures Less(a, c)
  {
    if a != "" && a[0] == b[0] == c[0] {
      LessTransitive(a[1..], b[1..], c[1..]);
    }
  }

  predicate IsSpace(c: char) {
    c == ' ' || '\t' <= c <= '\r'
  }

  predicate IsWord(w: string) {
    3 <= |w| <= 8 && forall i :: 0 <= i < |w| ==> !IsSpace(w[i]) && w[i] != '\0'
  }

  /** What the shipped English list is: 2048 sorted distinct words of three to eight letters. */
  ghost predicate IsWordList(list: seq<string>) {
    && |list| == LIST_SIZE
    && (forall i :: 0 <= i < |list| ==> IsWord(list[i]))
    && (forall i, j :: 0 <= i < j < |list| ==> Less(list[i], list[j]))
  }

  // ------------------------------------------------------------ word lookup

  function At(s: string, i: nat): char {
    if i < |s| then s[i] else '\0'
  }

  /** The C comparison of at most `n` characters, each string ended by a NUL. */
  function StrNCmp(a: string, b: string, n: nat): int {
    if n == 0 then 0
    else if At(a, 0) != At(b, 0) then At(a, 0) as int - At(b, 0) as int
    else if At(a, 0) == '\0' then 0
    else StrNCmp(a[1..], b[1..], n - 1)
  }

  /** What the comparison says of the first `len` characters of `w` as a word. */
  lemma {:induction false} ComparesWords(w: string, c: string, len: nat)
    requires len <= |w| && '\0' !in w[..len] && '\0' !in c
    ensures var cmp := StrNCmp(w, c, len);
            && (cmp < 0 ==> Less(w[..len], c))
            && (cmp > 0 ==> Less(c, w[..len]))
            && (cmp == 0 ==> len <= |c| && c[..len] == w[..len] && (len < |c| ==> Less(w[..len], c)))
  {
    if len > 0 {
      assert w[0] == w[..len][0];
      if c != "" && w[0] == c[0] {
        assert w[1..][..len - 1] == w[..len][1..];
        assert '\0' !in c[1..];
        ComparesWords(w[1..], c[1..], len - 1);
        if StrNCmp(w, c, len) == 0 {
          assert c[..len] == [c[0]] + c[1..][..len - 1];
          assert w[..len] == [w[0]] + w[1..][..len - 1];
        }
      }
    }
  }

  lemma AtEnd(c: string, len: nat)
    requires '\0' !in c && len <= |c| && At(c, len) == '\0'
    ensures len == |c|
  {
  }

  /** Index of the `len`-character word at the start of `w`, or -1. */
  method WordIndex(list: seq<string>, w: string, len: nat) returns (index: int)
    requires IsWordList(list) && len <= |w| && '\0' !in w[..len]
    ensures -1 <= index < |list|
    ensures if index < 0 then w[..len] !in list else list[index] == w[..len]
  {
    var lo, hi := 0, LIST_SIZE - 1;
    while lo <= hi
      invariant 0 <= lo <= hi + 1 <= |list|
      invariant forall i :: 0 <= i < lo ==> Less(list[i], w[..len])
      invariant forall i :: hi < i < |list| ==> Less(w[..len], list[i])
    {
      var mid := lo + (hi - lo) / 2;
      var c := list[mid];
      assert IsWord(c);
      var cmp := StrNCmp(w, c, len);
      ComparesWords(w, c, len);
      if cmp == 0 && At(c, len) != '\0' {
        cmp := -1;
      }
      if cmp == 0 {
        AtEnd(c, len);
        assert c == c[..len];
        return mid;
      }
      if cmp < 0 {
        Above(list, w[..len], mid);
        hi := mid - 1;
      } else {
        Below(list, w[..len], mid);
        lo := mid + 1;
      }
    }
    LessIsStrict(w[..len], w[..len]);
    assert forall i :: 0 <= i < |list| ==> list[i] != w[..len];
    return -1;
  }

  lemma Above(list: seq<string>, w: string, mid: nat)
    requires IsWordList(list) && mid < |list| && Less(w, list[mid])
    ensures forall i :: mid <= i < |list| ==> Less(w, list[i])
  {
    forall i | mid <= i < |list|
      ensures Less(w, list[i])
    {
      if i > mid {
        LessTransitive(w, list[mid], list[i]);
      }
    }
  }

  lemma Below(list: seq<string>, w: string, mid: nat)
    requires IsWordList(list) && mid < |list| && Less(list[mid], w)
    ensures forall i :: 0 <= i <= mid ==> Less(list[i], w)
  {
    forall i | 0 <= i <= mid
      ensures Less(list[i], w)
    {
      if i < mid {
        LessTransitive(list[i], list[mid], w);
      }
    }
  }

  lemma {:induction false} WordsDiffer(list: seq<string>, i: nat, j: nat)
    requires IsWordList(list) && i < |list| && j < |list| && list[i] == list[j]
    ensures i == j
  {
    LessIsStrict(list[i], list[j]);
  }

  // ------------------------------------------------------------ bit packing

  lemma Powers()
    ensures Pow2(8) == 256 && Pow2(11) == LIST_SIZE
  {
    assert Pow2(4) == 16;
    assert Pow2(8) == 256;
  }

  lemma {:induction false} BitOf(x: nat, w: nat, j: nat)
    requires j < w
    ensures ToBits(x, w)[j] == (ShiftRight(x, w - 1 - j) % 2 == 1)
  {
    if j < w - 1 {
      BitOf(x / 2, w - 1, j);
    }
  }

  lemma {:induction false} FlattenAt(xs: seq<nat>, w: nat, i: nat)
    requires i < |xs|
    ensures w * i + w <= |Flatten(xs, w)|
    ensures Flatten(xs, w)[w * i..w * i + w] == ToBits(xs[i], w)
  {
    FlattenSplit(xs, w, i);
  }

  lemma {:induction false} FlattenSplit(xs: seq<nat>, w: nat, i: nat)
    requires i < |xs|
    ensures |Flatten(xs[..i], w)| == w * i && |Flatten(xs, w)| == w * |xs| && w * i + w <= w * |xs|
    ensures Flatten(xs, w) == Flatten(xs[..i], w) + ToBits(xs[i], w) + Flatten(xs[i + 1..], w)
  {
    FlattenLength(xs[..i], w);
    FlattenLength(xs[i + 1..], w);
    FlattenLength(xs, w);
    assert xs == xs[..i] + [xs[i]] + xs[i + 1..];
    FlattenAppend(xs[..i] + [xs[i]], xs[i + 1..], w);
    FlattenSnoc(xs[..i], xs[i], w);
    assert w * i + w + w * (|xs| - i - 1) == w * |xs|;
  }

  lemma {:induction false} BitOfBytes(xs: seq<byte>, k: nat)
    requires k < 8 * |xs|
    ensures |Flatten(xs, 8)| == 8 * |xs|
    ensures Flatten(xs, 8)[k] == (ShiftRight(xs[k / 8], 7 - k % 8) % 2 == 1)
  {
    FlattenSplit(xs, 8, k / 8);
    BitOf(xs[k / 8], 8, k % 8);
    assert k == 8 * (k / 8) + k % 8;
  }

  /** Adding a power of two whose bit is clear sets that bit and no other. */
  lemma {:induction false} SetsOneBit(x: nat, w: nat, j: nat)
    requires j < w && x < Pow2(w) && !ToBits(x, w)[j]
    ensures x + Pow2(w - 1 - j) < Pow2(w)
    ensures ToBits(x + Pow2(w - 1 - j), w) == ToBits(x, w)[j := true]
  {
    if j < w - 1 {
      SetsOneBit(x / 2, w - 1, j);
      var q := Pow2(w - 2 - j);
      assert Pow2(w - 1 - j) == 2 * q;
      assert (x + 2 * q) / 2 == x / 2 + q && (x + 2 * q) % 2 == x % 2;
      assert Pow2(w) == 2 * Pow2(w - 1);
    }
  }

  lemma {:induction false} FlattenSetBit(xs: seq<byte>, k: nat)
    requires k < 8 * |xs|
    requires |Flatten(xs, 8)| == 8 * |xs| && !Flatten(xs, 8)[k]
    ensures xs[k / 8] + Pow2(7 - k % 8) < 256
    ensures Flatten(xs[k / 8 := xs[k / 8] + Pow2(7 - k % 8)], 8) == Flatten(xs, 8)[k := true]
  {
    hide Flatten, ToBits, Pow2;
    var i, j := k / 8, k % 8;
    Powers();
    FlattenSplit(xs, 8, i);
    var a, b, c := Flatten(xs[..i], 8), ToBits(xs[i], 8), Flatten(xs[i + 1..], 8);
    assert (a + b + c)[8 * i + j] == b[j];
    SetsOneBit(xs[i], 8, j);
    var y := xs[i] + Pow2(7 - j);
    FlattenReplace(xs, 8, i, y);
    assert (a + b + c)[8 * i + j := true] == a + b[j := true] + c;
  }

  lemma {:induction false} FlattenReplace(xs: seq<nat>, w: nat, i: nat, y: nat)
    requires i < |xs|
    ensures Flatten(xs[i := y], w) == Flatten(xs[..i], w) + ToBits(y, w) + Flatten(xs[i + 1..], w)
  {
    FlattenSplit(xs[i := y], w, i);
    assert xs[i := y][..i] == xs[..i] && xs[i := y][i + 1..] == xs[i + 1..];
  }

  /** `bits[k >> 3] |= 0x80 >> (k & 7)`. */
  method SetBit(bits: array<byte>, k: nat)
    requires k < 8 * bits.Length && |Flatten(bits[..], 8)| == 8 * bits.Length
    modifies bits
    ensures Flatten(bits[..], 8) == old(Flatten(bits[..], 8))[k := true]
  {
    BitOfBytes(bits[..], k);
    if ShiftRight(bits[k / 8], 7 - k % 8) % 2 == 0 {
      FlattenSetBit(bits[..], k);
      bits[k / 8] := bits[k / 8] + Pow2(7 - k % 8);
      assert bits[..] == old(bits[..])[k / 8 := old(bits[..])[k / 8] + Pow2(7 - k % 8)];
    }
  }

  /** Bit `b` of the index, behind the bits already packed. */
  method PackBit(bits: array<byte>, n: nat, index: nat, b: nat, ghost done: seq<bool>, ghost word: seq<bool>)
    requires bits.Length == BIP39_BYTES && n < WORDS && b < 11 && |done| == 11 * n && word == ToBits(index, 11)
    requires Flatten(bits[..], 8) == done + word[..b] + Repeat(false, BIP39_BITS - 11 * n - b)
    modifies bits
    ensures Flatten(bits[..], 8) == done + word[..b + 1] + Repeat(false, BIP39_BITS - 11 * n - (b + 1))
  {
    hide Flatten, ToBits, ShiftRight, Repeat;
    BitOf(index, 11, b);
    ghost var rest: seq<bool> := Repeat(false, BIP39_BITS - 11 * n - b);
    SetNext(done, word[..b], rest, word[b]);
    OneLonger(word, 0, b);
    RestOfRepeat(false, |rest|);
    if ShiftRight(index, 10 - b) % 2 == 1 {
      SetBit(bits, n * 11 + b);
    }
  }

  lemma RestOfRepeat<T>(x: T, n: nat)
    requires n > 0
    ensures Repeat(x, n)[0] == x && Repeat(x, n)[1..] == Repeat(x, n - 1)
  {
  }

  /** Write an 11-bit index after the `n` indices already packed. */
  method PackIndex(bits: array<byte>, n: nat, index: nat, ghost done: seq<bool>)
    requires bits.Length == BIP39_BYTES && n < WORDS && index < LIST_SIZE
    requires |done| == 11 * n && Flatten(bits[..], 8) == done + Repeat(false, BIP39_BITS - 11 * n)
    modifies bits
    ensures Flatten(bits[..], 8) == done + ToBits(index, 11) + Repeat(false, BIP39_BITS - 11 * n - 11)
  {
    hide Flatten, ToBits, ShiftRight, Repeat;
    ghost var word := ToBits(index, 11);
    assert done + word[..0] == done;
    for b := 0 to 11
      invariant Flatten(bits[..], 8) == done + word[..b] + Repeat(false, BIP39_BITS - 11 * n - b)
    {
      PackBit(bits, n, index, b, done, word);
    }
    assert word[..11] == word;
  }

  /** Read the 11-bit index number `i`. */
  method ReadIndex(bits: seq<byte>, i: nat) returns (index: nat)
    requires |bits| == BIP39_BYTES && i < WORDS
    ensures |Flatten(bits, 8)| == BIP39_BITS
    ensures index == Value(Flatten(bits, 8)[11 * i..11 * i + 11]) && index < LIST_SIZE
  {
    FlattenLength(bits, 8);
    ghost var flat := Flatten(bits, 8);
    index := 0;
    assert Value(flat[11 * i..11 * i]) == 0;
    hide Value, Flatten, ShiftRight;
    for b := 0 to 11
      invariant index == Value(flat[11 * i..11 * i + b])
    {
      var bit := i * 11 + b;
      BitOfBytes(bits, bit);
      OneLonger(flat, 11 * i, 11 * i + b);
      ValueSnoc(flat[11 * i..11 * i + b], flat[bit]);
      index := 2 * index + ShiftRight(bits[bit / 8], 7 - bit % 8) % 2;
    }
    Powers();
  }

  // ------------------------------------------------------- joining, splitting

  function Join(words: seq<string>): string {
    if |words| == 0 then ""
    else if |words| == 1 then words[0]
    else Join(words[..|words| - 1]) + " " + words[|words| - 1]
  }

  lemma {:induction false} JoinSnoc(words: seq<string>, w: string)
    ensures Join(words + [w]) == if words == [] then w else Join(words) + " " + w
  {
    assert (words + [w])[..|words|] == words;
  }

  /**
   * Words of at most eight letters fit nine characters each, the terminator included; words of
   * exactly eight leave no room to spare.
   */
  lemma {:induction false} JoinFits(words: seq<string>)
    requires |words| > 0
    ensures (forall w :: w in words ==> |w| <= 8) ==> |Join(words)| + 1 <= 9 * |words|
    ensures (forall w :: w in words ==> |w| == 8) ==> |Join(words)| + 1 == 9 * |words|
  {
    if |words| > 1 {
      JoinFits(words[..|words| - 1]);
    }
  }

  function SkipSpace(text: string, i: nat): (j: nat)
    requires i <= |text|
    ensures i <= j <= |text| && (j < |text| ==> !IsSpace(text[j]))
    decreases |text| - i
  {
    if i < |text| && IsSpace(text[i]) then SkipSpace(text, i + 1) else i
  }

  function SkipWord(text: string, i: nat): (j: nat)
    requires i <= |text|
    ensures i <= j <= |text| && (j < |text| ==> IsSpace(text[j]))
    ensures forall k :: i <= k < j ==> !IsSpace(text[k])
    decreases |text| - i
  {
    if i < |text| && !IsSpace(text[i]) then SkipWord(text, i + 1) else i
  }

  /** The maximal runs of other than white space, from `i` on. */
  function Split(text: string, i: nat): seq<string>
    requires i <= |text|
    decreases |text| - i
  {
    var start := SkipSpace(text, i);
    if start == |text| then []
    else
      var end := SkipWord(text, start);
      [text[start..end]] + Split(text, end)
  }

  lemma SplitNext(text: string, i: nat)
    requires i <= |text|
    ensures var start := SkipSpace(text, i);
            if start == |text| then Split(text, i) == []
            else
              var end := SkipWord(text, start);
              start < end && Split(text, i) == [text[start..end]] + Split(text, end)
  {
  }

  predicate Solid(w: string) {
    w != "" && forall i :: 0 <= i < |w| ==> !IsSpace(w[i])
  }

  lemma {:induction false} SkipWordShifts(pre: string, text: string, i: nat)
    requires i <= |text|
    ensures SkipWord(pre + text, |pre| + i) == |pre| + SkipWord(text, i)
    ensures SkipSpace(pre + text, |pre| + i) == |pre| + SkipSpace(text, i)
    decreases |text| - i
  {
    if i < |text| {
      SkipWordShifts(pre, text, i + 1);
      assert (pre + text)[|pre| + i] == text[i];
    }
  }

  lemma {:induction false} SplitShifts(pre: string, text: string, i: nat)
    requires i <= |text|
    ensures Split(pre + text, |pre| + i) == Split(text, i)
    decreases |text| - i
  {
    hide Split, SkipSpace, SkipWord;
    var start := SkipSpace(text, i);
    SkipWordShifts(pre, text, i);
    SplitNext(text, i);
    SplitNext(pre + text, |pre| + i);
    if start < |text| {
      var end := SkipWord(text, start);
      SkipWordShifts(pre, text, start);
      ShiftedSlice(pre, text, start, end);
      SplitShifts(pre, text, end);
    }
  }

  lemma {:induction false} SkipWordOver(w: string, rest: string, i: nat)
    requires Solid(w) && i <= |w| && (rest == "" || IsSpace(rest[0]))
    ensures SkipWord(w + rest, i) == |w|
    decreases |w| - i
  {
    if i < |w| {
      assert (w + rest)[i] == w[i];
      SkipWordOver(w, rest, i + 1);
    } else if rest != "" {
      assert (w + rest)[i] == rest[0];
    }
  }

  /** One word in front of white space or the end. */
  lemma {:induction false} SplitFirst(w: string, rest: string)
    requires Solid(w) && (rest == "" || IsSpace(rest[0]))
    ensures Split(w + rest, 0) == [w] + Split(rest, 0)
  {
    assert (w + rest)[0] == w[0];
    SkipWordOver(w, rest, 0);
    assert (w + rest)[0..|w|] == w;
    SplitShifts(w, rest, 0);
  }

  lemma {:induction false} SpaceAt(s: string, rest: string)
    requires s != "" && IsSpace(s[0])
    ensures Split(s, 0) == Split(s[1..], 0)
  {
    assert s == s[..1] + s[1..];
    SplitShifts(s[..1], s[1..], 0);
    assert SkipSpace(s, 0) == SkipSpace(s, 1);
  }

  function JoinRight(words: seq<string>): string {
    if |words| == 0 then "" else " " + words[0] + JoinRight(words[1..])
  }

  lemma {:induction false} JoinIsJoinRight(words: seq<string>, w: string)
    ensures Join([w] + words) == w + JoinRight(words)
  {
    if |words| > 0 {
      var init, last := words[..|words| - 1], words[|words| - 1];
      JoinIsJoinRight(init, w);
      assert [w] + words == ([w] + init) + [last];
      JoinSnoc([w] + init, last);
      JoinRightSnoc(init, last);
      assert words == init + [last];
      assert w + JoinRight(init) + " " + last == w + (JoinRight(init) + (" " + last));
    }
  }

  lemma {:induction false} JoinRightSnoc(words: seq<string>, w: string)
    ensures JoinRight(words + [w]) == JoinRight(words) + (" " + w)
  {
    if |words| == 0 {
      assert words + [w] == [w] && [w][1..] == [];
      assert JoinRight([w]) == " " + w + JoinRight([]);
    } else {
      JoinRightSnoc(words[1..], w);
      assert (words + [w])[1..] == words[1..] + [w];
      assert " " + words[0] + (JoinRight(words[1..]) + (" " + w)) == " " + words[0] + JoinRight(words[1..]) + (" " + w);
    }
  }

  lemma {:induction false} SplitJoinRight(words: seq<string>)
    requires forall w :: w in words ==> Solid(w)
    ensures Split(JoinRight(words), 0) == words
  {
    SplitNext("", 0);
    hide Split, SkipSpace, SkipWord;
    if |words| > 0 {
      var text, rest := JoinRight(words), JoinRight(words[1..]);
      SpaceAt(text, "");
      assert text[1..] == words[0] + rest;
      SplitJoinRight(words[1..]);
      SplitFirst(words[0], rest);
    }
  }

  /** Joining words by single spaces and splitting them again. */
  lemma {:induction false} SplitJoin(words: seq<string>)
    requires forall w :: w in words ==> Solid(w)
    ensures Split(Join(words), 0) == words
  {
    if |words| > 0 {
      assert words == [words[0]] + words[1..];
      JoinIsJoinRight(words[1..], words[0]);
      SplitJoinRight(words[1..]);
      SplitFirst(words[0], JoinRight(words[1..]));
    }
  }

  // ---------------------------------------------------------- specification

  /** Entropy and its checksum byte as 24 words. */
  ghost function WordsOf(be: Backend, entropy: Entropy): (words: seq<string>)
    requires IsWordList(be.list)
    ensures |words| == WORDS
  {
    var bits := Flatten(entropy + [be.sha256(entropy)[0]], 8);
    FlattenLength(entropy + [be.sha256(entropy)[0]], 8);
    Powers();
    seq(WORDS, i requires 0 <= i < WORDS => be.list[Value(bits[11 * i..11 * i + 11])])
  }

  ghost function IndexOf(list: seq<string>, w: string): (i: nat)
    requires w in list
    ensures i < |list| && list[i] == w
  {
    var i :| 0 <= i < |list| && list[i] == w;
    i
  }

  /** The list positions of words that are all in the list. */
  ghost function Indices(list: seq<string>, words: seq<string>): (xs: seq<nat>)
    requires forall w :: w in words ==> w in list
    ensures |xs| == |words| && forall i :: 0 <= i < |xs| ==> xs[i] == IndexOf(list, words[i])
  {
    seq(|words|, i requires 0 <= i < |words| => IndexOf(list, words[i]))
  }

  /** 24 list words whose last byte is the checksum of the 32 before it. */
  ghost predicate Accepted(be: Backend, words: seq<string>) {
    && |words| == WORDS
    && (forall w :: w in words ==> w in be.list)
    && var bytes := Regroup(Flatten(Indices(be.list, words), 11), 8);
       |bytes| == BIP39_BYTES && AreBytes(bytes) && be.sha256(bytes[..32])[0] == bytes[32]
  }

  predicate AreBytes(xs: seq<nat>) {
    forall i :: 0 <= i < |xs| ==> xs[i] < 256
  }

  /** The hexadecimal digits of a byte string, as numbers. */
  function Hex(s: seq<byte>): (h: seq<nat>)
    ensures |h| == 2 * |s|
  {
    seq(2 * |s|, k requires 0 <= k < 2 * |s| => if k % 2 == 0 then s[k / 2] / 16 else s[k / 2] % 16)
  }

  function FromHex(h: seq<nat>): seq<nat> {
    seq(|h| / 2, k requires 0 <= k < |h| / 2 => 16 * h[2 * k] + h[2 * k + 1])
  }

  /** The 32 bytes spelled by 64 hexadecimal digits of the seed, from the second one on. */
  function Secret(be: Backend, words: seq<string>): seq<nat> {
    FromHex(Hex(be.pbkdf2(Join(words), SALT, ROUNDS))[1..65])
  }

  // --------------------------------------------------------- implementation

  /** Put a word at `pos`, a space before it unless it is the first. */
  method PutWord(buf: array<char>, pos: nat, first: bool, w: string) returns (end: nat)
    requires pos + |w| + (if first then 0 else 1) <= buf.Length
    modifies buf
    ensures end == pos + |w| + (if first then 0 else 1)
    ensures buf[..end] == old(buf[..pos]) + (if first then w else " " + w)
    ensures forall k :: end <= k < buf.Length ==> buf[k] == old(buf[k])
  {
    var at := pos;
    if !first {
      buf[at] := ' ';
      at := at + 1;
    }
    ghost var mid := buf[..];
    for i := 0 to |w|
      invariant forall k :: 0 <= k < buf.Length ==> buf[k] == if at <= k < at + i then w[k - at] else mid[k]
    {
      buf[at + i] := w[i];
    }
    end := at + |w|;
    assert buf[..end] == mid[..at] + w;
    assert mid[..at] == old(buf[..pos]) + (if first then "" else " ");
  }

  /** A buffer that starts with these words, joined. */
  ghost predicate TextHolds(done: seq<string>, buf: seq<char>, pos: nat) {
    && |done| <= WORDS && |buf| >= MNEMONIC_CAP && (forall w :: w in done ==> |w| <= 8)
    && pos == |Join(done)| <= 9 * |done| && buf[..pos] == Join(done)
  }

  method CopyWord(buf: array<char>, pos: nat, n: nat, w: string, ghost done: seq<string>) returns (end: nat)
    requires TextHolds(done, buf[..], pos) && n == |done| < WORDS && |w| <= 8
    modifies buf
    ensures TextHolds(done + [w], buf[..], end) && pos <= end <= buf.Length
    ensures forall k :: end <= k < buf.Length ==> buf[k] == old(buf[k])
  {
    JoinNext(done + [w], n);
    assert (done + [w])[..n] == done && (done + [w])[..n + 1] == done + [w];
    assert n > 0 || Join(done) == "";
    hide Join;
    end := PutWord(buf, pos, n == 0, w);
    assert buf[..end] == buf[..][..end];
  }

  /** `text` and a NUL at the front of the buffer, and what was there before behind it. */
  predicate Terminated(buf: seq<char>, before: seq<char>, text: string) {
    && |buf| == |before| && |text| < MNEMONIC_CAP <= |buf|
    && buf[..|text|] == text && buf[|text|] == '\0'
    && buf[|text| + 1..] == before[|text| + 1..]
  }

  /** The mnemonic of an entropy, NUL-terminated at the start of `out`. */
  method FromEntropy(be: Backend, entropy: Entropy, out: array<char>) returns (rc: Rc)
    requires IsWordList(be.list)
    modifies out
    ensures rc == if out.Length < MNEMONIC_CAP then Arg else Ok
    ensures rc == Arg ==> out[..] == old(out[..])
    ensures rc == Ok ==> Terminated(out[..], old(out[..]), Join(WordsOf(be, entropy)))
  {
    if out.Length < MNEMONIC_CAP {
      return Arg;
    }
    var pos := PutWords(be, entropy, entropy + [be.sha256(entropy)[0]], out);
    hide WordsOf, Join;
    HeldEnds(WordsOf(be, entropy), out[..], pos);
    out[pos] := '\0';
    rc := Ok;
  }

  /** The words the bits stand for, 11 at a time. */
  method PutWords(be: Backend, ghost entropy: Entropy, bits: seq<byte>, out: array<char>) returns (pos: nat)
    requires IsWordList(be.list) && bits == entropy + [be.sha256(entropy)[0]] && out.Length >= MNEMONIC_CAP
    modifies out
    ensures TextHolds(WordsOf(be, entropy), out[..], pos) && pos <= out.Length
    ensures forall k :: pos <= k < out.Length ==> out[k] == old(out[k])
  {
    ghost var words := WordsOf(be, entropy);
    WordsAreListed(be, entropy);
    pos := 0;
    NoText(out[..]);
    hide WordsOf, Join, Value, Flatten, TextHolds, IsWord, IsWordList;
    ghost var done := words[0..0];
    for i := 0 to WORDS
      invariant TextHolds(done, out[..], pos) && pos <= out.Length && done == words[0..i]
      invariant forall k :: pos <= k < out.Length ==> out[k] == old(out[k])
    {
      var index := ReadIndex(bits, i);
      WordAt(be, entropy, i);
      pos := CopyWord(out, pos, i, be.list[index], done);
      OneLonger(words, 0, i);
      done := done + [words[i]];
    }
    assert words[0..WORDS] == words;
  }

  lemma HeldEnds(done: seq<string>, buf: seq<char>, pos: nat)
    requires TextHolds(done, buf, pos) && done != []
    ensures pos < MNEMONIC_CAP <= |buf| && buf[..pos] == Join(done)
  {
    JoinFits(done);
  }

  lemma NoText(buf: seq<char>)
    requires |buf| >= MNEMONIC_CAP
    ensures TextHolds([], buf, 0)
  {
  }

  lemma WordsAreListed(be: Backend, entropy: Entropy)
    requires IsWordList(be.list)
    ensures forall w :: w in WordsOf(be, entropy) ==> w in be.list && IsWord(w)
  {
    forall i | 0 <= i < WORDS
      ensures WordsOf(be, entropy)[i] in be.list && IsWord(WordsOf(be, entropy)[i])
    {
      WordAt(be, entropy, i);
    }
  }

  lemma WordAt(be: Backend, entropy: Entropy, i: nat)
    requires IsWordList(be.list) && i < WORDS
    ensures var bits := Flatten(entropy + [be.sha256(entropy)[0]], 8);
            && |bits| == BIP39_BITS
            && Value(bits[11 * i..11 * i + 11]) < LIST_SIZE
            && WordsOf(be, entropy)[i] == be.list[Value(bits[11 * i..11 * i + 11])]
  {
    FlattenLength(entropy + [be.sha256(entropy)[0]], 8);
    Powers();
  }

  lemma {:induction false} JoinNext(words: seq<string>, i: nat)
    requires i < |words| && forall w :: w in words ==> |w| <= 8
    ensures Join(words[..i + 1]) == if i == 0 then words[i] else Join(words[..i]) + (" " + words[i])
    ensures |Join(words[..i + 1])| + 1 <= 9 * (i + 1)
  {
    assert words[..i + 1] == words[..i] + [words[i]];
    JoinFits(words[..i + 1]);
    JoinSnoc(words[..i], words[i]);
  }

  method SkipSpaces(text: string, p: nat) returns (q: nat)
    requires p <= |text|
    ensures q == SkipSpace(text, p)
  {
    q := p;
    while q < |text| && IsSpace(text[q])
      invariant p <= q <= |text| && SkipSpace(text, p) == SkipSpace(text, q)
    {
      q := q + 1;
    }
  }

  method SkipLetters(text: string, p: nat) returns (q: nat)
    requires p <= |text|
    ensures q == SkipWord(text, p)
  {
    q := p;
    while q < |text| && !IsSpace(text[q])
      invariant p <= q <= |text| && SkipWord(text, p) == SkipWord(text, q)
    {
      q := q + 1;
    }
  }

  method Shift(seed: Seed, secret: array<byte>)
    requires secret.Length == 32
    modifies secret
    ensures secret[..] == FromHex(Hex(seed)[1..65])
  {
    ghost var spelled := FromHex(Hex(seed)[1..65]);
    for i := 0 to 32
      invariant forall k :: 0 <= k < i ==> secret[k] == spelled[k]
    {
      var high: nat, low: nat := seed[i], seed[i + 1];
      ShiftedByte(seed, i, high, low);
      secret[i] := (high * 16 + low / 16) % 256;
    }
  }

  lemma ShiftedByte(seed: Seed, i: nat, high: nat, low: nat)
    requires i < 32 && high == seed[i] && low == seed[i + 1]
    ensures FromHex(Hex(seed)[1..65])[i] == (high * 16 + low / 16) % 256
  {
    var h := Hex(seed)[1..65];
    assert h[2 * i] == Hex(seed)[2 * i + 1] && h[2 * i + 1] == Hex(seed)[2 * (i + 1)];
    assert (2 * i + 1) / 2 == i && (2 * i + 1) % 2 == 1 && (2 * (i + 1)) / 2 == i + 1;
    LowNibble(high, low);
  }

  lemma LowNibble(high: nat, low: nat)
    requires high < 256 && low < 256
    ensures (high * 16 + low / 16) % 256 == 16 * (high % 16) + low / 16
  {
    var h, l := high % 16, low / 16;
    assert high * 16 + l == 256 * (high / 16) + (16 * h + l);
  }

  /** What the canonical text and the packed bits hold after these words. */
  ghost predicate Holding(list: seq<string>, done: seq<string>, canon: seq<char>, pos: nat, bits: seq<byte>) {
    TextHolds(done, canon, pos) && BitsHold(list, done, bits)
  }

  ghost predicate BitsHold(list: seq<string>, done: seq<string>, bits: seq<byte>) {
    && |bits| == BIP39_BYTES && |done| <= WORDS
    && (forall w :: w in done ==> w in list)
    && Flatten(bits, 8) == Flatten(Indices(list, done), 11) + Repeat(false, BIP39_BITS - 11 * |done|)
  }

  lemma ListIsFull(list: seq<string>)
    requires IsWordList(list)
    ensures |list| == LIST_SIZE
  {
  }

  method PackWord(list: seq<string>, bits: array<byte>, n: nat, index: nat, ghost done: seq<string>)
    requires IsWordList(list) && index < |list| && n == |done| < WORDS && BitsHold(list, done, bits[..])
    modifies bits
    ensures BitsHold(list, done + [list[index]], bits[..])
  {
    hide Indices, IsWordList;
    ListIsFull(list);
    OneMoreWord(list, done, list[index], index);
    assert forall v :: v in done + [list[index]] ==> v in list;
    PackIndex(bits, n, index, Flatten(Indices(list, done), 11));
  }

  /** Look up the word at `start`, pack its index and copy it to the canonical text. */
  method TakeWord(list: seq<string>, text: CString, start: nat, p: nat, canon: array<char>, bits: array<byte>,
                  n: nat, pos: nat, ghost done: seq<string>)
    returns (ok: bool, end: nat)
    requires IsWordList(list) && start <= p <= |text| && n == |done| < WORDS
    requires Holding(list, done, canon[..], pos, bits[..]) && canon.Length == MNEMONIC_CAP
    modifies canon, bits
    ensures ok <==> text[start..p] in list
    ensures ok ==> Holding(list, done + [text[start..p]], canon[..], end, bits[..])
  {
    var len := p - start;
    ghost var w := text[start..p];
    var index := -1;
    end := pos;
    if 3 <= len <= 8 {
      assert text[start..][..len] == w;
      index := WordIndex(list, text[start..], len);
    }
    if index < 0 {
      NotInList(list, w, len);
      return false, pos;
    }
    hide IsWordList, TextHolds, BitsHold;
    end := CopyWord(canon, pos, n, text[start..p], done);
    PackWord(list, bits, n, index, done);
    ok := true;
  }

  /** Validate a mnemonic and derive the master secret. */
  method ToMasterSecret(be: Backend, text: CString, secret: array<byte>) returns (rc: Rc)
    requires IsWordList(be.list) && secret.Length == 32
    modifies secret
    ensures rc == if Accepted(be, Split(text, 0)) then Ok else Arg
    ensures secret[..] == if rc == Ok then Secret(be, Split(text, 0)) else old(secret[..])
  {
    hide Holding, IsWordList, Accepted, Secret, SkipSpace, SkipWord;
    var canon, bits := new char[MNEMONIC_CAP], new byte[BIP39_BYTES](_ => 0);
    var n: nat, pos: nat, p: nat := 0, 0, 0;
    ghost var done: seq<string> := [];
    NothingYet(be.list, canon[..], bits[..]);
    while true
      invariant p <= |text| && n == |done| <= WORDS
      invariant Split(text, 0) == done + Split(text, p)
      invariant Holding(be.list, done, canon[..], pos, bits[..]) && secret[..] == old(secret[..])
      decreases |text| - p
    {
      SplitNext(text, p);
      p := SkipSpaces(text, p);
      if p == |text| {
        break;
      }
      var start := p;
      p := SkipLetters(text, p);
      ghost var w := text[start..p];
      assert done + ([w] + Split(text, p)) == (done + [w]) + Split(text, p);
      if n == WORDS {
        TooMany(be, Split(text, 0));
        return Arg;
      }
      var ok;
      ok, pos := TakeWord(be.list, text, start, p, canon, bits, n, pos, done);
      if !ok {
        Unlisted(be, Split(text, 0), n);
        return Arg;
      }
      n := n + 1;
      done := done + [w];
    }
    assert done == Split(text, 0);
    rc := Finish(be, canon, n, pos, bits, secret, done);
  }

  lemma TooMany(be: Backend, words: seq<string>)
    requires |words| > WORDS
    ensures !Accepted(be, words)
  {
  }

  lemma Unlisted(be: Backend, words: seq<string>, n: nat)
    requires n < |words| && words[n] !in be.list
    ensures !Accepted(be, words)
  {
  }

  /** Count, checksum, key derivation. */
  method Finish(be: Backend, canon: array<char>, n: nat, pos: nat, bits: array<byte>, secret: array<byte>,
                ghost done: seq<string>)
    returns (rc: Rc)
    requires Holding(be.list, done, canon[..], pos, bits[..]) && n == |done| && secret.Length == 32
    modifies canon, secret
    ensures rc == if Accepted(be, done) then Ok else Arg
    ensures secret[..] == if rc == Ok then Secret(be, done) else old(secret[..])
  {
    hide Holding, Join, Hex, FromHex, Flatten, Regroup, Indices;
    if n != WORDS {
      return Arg;
    }
    AllTaken(be.list, done, canon[..], pos, bits[..]);
    canon[pos] := '\0';
    if be.sha256(bits[..32])[0] != bits[32] {
      return Arg;
    }
    var seed := be.pbkdf2(canon[..pos], SALT, ROUNDS);
    Shift(seed, secret);
    rc := Ok;
  }

  lemma NothingYet(list: seq<string>, canon: seq<char>, bits: seq<byte>)
    requires |canon| == MNEMONIC_CAP && |bits| == BIP39_BYTES && forall i :: 0 <= i < |bits| ==> bits[i] == 0
    ensures Holding(list, [], canon, 0, bits)
  {
    AllNought(bits);
    assert Indices(list, []) == [];
    assert Flatten(Indices(list, []), 11) == [];
  }

  /** With all 24 words taken: room for the terminator, and the packed bytes. */
  lemma AllTaken(list: seq<string>, done: seq<string>, canon: seq<char>, pos: nat, bits: seq<byte>)
    requires Holding(list, done, canon, pos, bits) && |done| == WORDS
    ensures forall w :: w in done ==> w in list
    ensures pos < |canon| && canon[..pos] == Join(done) && |bits| == BIP39_BYTES
    ensures bits == Regroup(Flatten(Indices(list, done), 11), 8)
  {
    JoinFits(done);
    Packed(list, done, bits);
  }

  lemma NotInList(list: seq<string>, w: string, len: nat)
    requires IsWordList(list) && len == |w| && (3 <= len <= 8 ==> w !in list)
    ensures w !in list
  {
    forall i | 0 <= i < |list|
      ensures list[i] != w
    {
      assert IsWord(list[i]);
    }
  }

  lemma {:induction false} AllNought(bytes: seq<byte>)
    requires forall i :: 0 <= i < |bytes| ==> bytes[i] == 0
    ensures Flatten(bytes, 8) == Repeat(false, 8 * |bytes|)
  {
    FlattenLength(bytes, 8);
    forall k | 0 <= k < 8 * |bytes|
      ensures !Flatten(bytes, 8)[k]
    {
      BitOfBytes(bytes, k);
    }
  }

  lemma {:induction false} OneMoreWord(list: seq<string>, done: seq<string>, w: string, index: nat)
    requires IsWordList(list) && (forall v :: v in done ==> v in list)
    requires index < |list| && list[index] == w
    ensures forall v :: v in done + [w] ==> v in list
    ensures |Flatten(Indices(list, done), 11)| == 11 * |done|
    ensures Flatten(Indices(list, done + [w]), 11) == Flatten(Indices(list, done), 11) + ToBits(index, 11)
  {
    var xs := Indices(list, done + [w]);
    WordsDiffer(list, index, IndexOf(list, w));
    assert xs[..|done|] == Indices(list, done);
    assert xs == Indices(list, done) + [index];
    FlattenSnoc(Indices(list, done), index, 11);
    FlattenLength(Indices(list, done), 11);
  }

  /** The packed bytes are the bit string of the indices, cut at eight. */
  lemma {:induction false} Packed(list: seq<string>, words: seq<string>, bytes: seq<byte>)
    requires (forall w :: w in words ==> w in list) && |words| == WORDS && |bytes| == BIP39_BYTES
    requires Flatten(bytes, 8) == Flatten(Indices(list, words), 11) + Repeat(false, 0)
    ensures bytes == Regroup(Flatten(Indices(list, words), 11), 8)
  {
    assert Flatten(bytes, 8) == Flatten(Indices(list, words), 11);
    Powers();
    RegroupFlatten(bytes, 8);
  }

  // ---------------------------------------------------------------- results

  lemma {:induction false} RegroupAt(bs: seq<bool>, w: nat, n: nat, i: nat)
    requires w > 0 && |bs| == w * n && i < n
    ensures |Regroup(bs, w)| == n && w * i + w <= |bs|
    ensures Regroup(bs, w)[i] == Value(bs[w * i..w * i + w])
  {
    FlattenRegroup(bs, w, n);
    FlattenAt(Regroup(bs, w), w, i);
    ValueOfBits(Regroup(bs, w)[i], w);
  }

  /** Word `i` of an entropy is the list word that its `i`-th eleven bits number, and no other. */
  lemma {:induction false} NumberedWord(be: Backend, entropy: Entropy, bits: seq<bool>, i: nat)
    requires IsWordList(be.list) && bits == Flatten(entropy + [be.sha256(entropy)[0]], 8) && i < WORDS
    ensures |bits| == BIP39_BITS && |Regroup(bits, 11)| == WORDS
    ensures var w := WordsOf(be, entropy)[i];
            w in be.list && IsWord(w) && IndexOf(be.list, w) == Regroup(bits, 11)[i]
  {
    FlattenLength(entropy + [be.sha256(entropy)[0]], 8);
    RegroupAt(bits, 11, WORDS, i);
    Powers();
    hide Flatten, Regroup, Value;
    var w := WordsOf(be, entropy)[i];
    WordsDiffer(be.list, IndexOf(be.list, w), Regroup(bits, 11)[i]);
  }

  /** The words of an entropy pack to that entropy followed by its checksum. */
  lemma {:induction false} WordsPack(be: Backend, entropy: Entropy)
    requires IsWordList(be.list)
    ensures forall w :: w in WordsOf(be, entropy) ==> w in be.list && IsWord(w)
    ensures Regroup(Flatten(Indices(be.list, WordsOf(be, entropy)), 11), 8) == entropy + [be.sha256(entropy)[0]]
  {
    hide IsWordList, WordsOf, Flatten, Regroup, IndexOf;
    var bytes: seq<byte> := entropy + [be.sha256(entropy)[0]];
    var bits, words := Flatten(bytes, 8), WordsOf(be, entropy);
    forall i | 0 <= i < WORDS
      ensures words[i] in be.list && IsWord(words[i]) && |bits| == BIP39_BITS && |Regroup(bits, 11)| == WORDS
      ensures IndexOf(be.list, words[i]) == Regroup(bits, 11)[i]
    {
      NumberedWord(be, entropy, bits, i);
    }
    NumberedWord(be, entropy, bits, 0);
    assert Indices(be.list, words) == Regroup(bits, 11);
    FlattenRegroup(bits, 11, WORDS);
    Powers();
    RegroupFlatten(bytes, 8);
  }

  /**
   * What the master secret is made of: PBKDF2 of the words joined by single spaces, with the salt
   * "mnemonic" and 2048 rounds, each byte the low half of one seed byte and the high half of the next.
   */
  lemma {:induction false} SecretBytes(be: Backend, words: seq<string>, i: nat)
    requires i < 32
    ensures var seed := be.pbkdf2(Join(words), "mnemonic", 2048);
            |Secret(be, words)| == 32 && Secret(be, words)[i] == 16 * (seed[i] % 16) + seed[i + 1] / 16
  {
    var seed := be.pbkdf2(Join(words), "mnemonic", 2048);
    ShiftedByte(seed, i, seed[i], seed[i + 1]);
    LowNibble(seed[i], seed[i + 1]);
  }

  /** Every generated mnemonic is accepted, and split back into its words. */
  lemma {:induction false} MnemonicRoundTrip(be: Backend, entropy: Entropy)
    requires IsWordList(be.list)
    ensures var words := WordsOf(be, entropy);
            Split(Join(words), 0) == words && Accepted(be, words)
  {
    WordsPack(be, entropy);
    var words := WordsOf(be, entropy);
    forall w | w in words
      ensures Solid(w)
    {
      assert IsWord(w);
    }
    SplitJoin(words);
    assert (entropy + [be.sha256(entropy)[0]])[..32] == entropy;
  }

  /** The entropy behind an accepted sequence of words. */
  lemma EntropyOf(be: Backend, words: seq<string>) returns (entropy: Entropy)
    requires IsWordList(be.list) && Accepted(be, words)
    ensures words == WordsOf(be, entropy)
  {
    var xs := Indices(be.list, words);
    var bytes := Regroup(Flatten(xs, 11), 8);
    entropy := bytes[..32];
    assert bytes == entropy + [be.sha256(entropy)[0]];
    FlattenLength(xs, 11);
    FlattenRegroup(Flatten(xs, 11), 8, BIP39_BYTES);
    forall i | 0 <= i < WORDS
      ensures WordsOf(be, entropy)[i] == words[i]
    {
      FlattenAt(xs, 11, i);
      ValueOfBits(xs[i], 11);
    }
  }

  /** And nothing else is: the accepted word sequences are exactly the generated ones. */
  lemma AcceptedIsGenerated(be: Backend, words: seq<string>)
    requires IsWordList(be.list)
    ensures Accepted(be, words) <==> exists entropy: Entropy :: words == WordsOf(be, entropy)
  {
    hide Accepted, WordsOf;
    if Accepted(be, words) {
      var entropy := EntropyOf(be, words);
    }
    if entropy: Entropy :| words == WordsOf(be, entropy) {
      MnemonicRoundTrip(be, entropy);
    }
  }

  /** Different entropies have different mnemonics. */
  lemma {:induction false} MnemonicIsInjective(be: Backend, a: Entropy, b: Entropy)
    requires IsWordList(be.list) && Join(WordsOf(be, a)) == Join(WordsOf(be, b))
    ensures a == b
  {
    MnemonicRoundTrip(be, a);
    MnemonicRoundTrip(be, b);
    WordsPack(be, a);
    WordsPack(be, b);
    assert (a + [be.sha256(a)[0]])[..32] == a && (b + [be.sha256(b)[0]])[..32] == b;
  }
}
