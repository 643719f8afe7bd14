/** Facts of concatenation and slicing, stated once for any element type. */
module Sequences {
  function Repeat<T>(x: T, n: nat): (s: seq<T>)
    ensures |s| == n
  {
    seq(n, _ => x)
  }

  lemma Appended<T>(front: seq<T>, a: seq<T>, b: seq<T>)
    ensures (front + a) + b == front + (a + b)
  {
  }

  lemma Regrouped<T>(done: seq<T>, x: T, rest: seq<T>, all: seq<T>)
    requires all == [x] + rest
    ensures done + all == (done + [x]) + rest
  {
  }

  lemma SplitLast<T>(a: seq<T>, b: seq<T>)
    requires |b| > 0
    ensures b == b[..|b| - 1] + [b[|b| - 1]] && a + b == (a + b[..|b| - 1]) + [b[|b| - 1]]
  {
  }

  lemma TakeAndDrop<T>(a: seq<T>, b: seq<T>, n: nat)
    requires n <= |a|
    ensures (a + b)[..n] == a[..n] && (a + b)[n..] == a[n..] + b && a == a[..n] + a[n..]
  {
  }

  lemma SplitAt<T>(s: seq<T>, i: nat)
    requires i <= |s|
    ensures s == s[..i] + s[i..]
  {
  }

  lemma OneLonger<T>(s: seq<T>, a: nat, b: nat)
    requires a <= b < |s|
    ensures s[a..b] + [s[b]] == s[a..b + 1]
  {
  }

  /** Setting the first element behind a front and a growing middle. */
  lemma SetNext<T>(front: seq<T>, middle: seq<T>, rest: seq<T>, x: T)
    requires |rest| > 0
    ensures var all := front + middle + rest;
            && |all| > |front| + |middle| && all[|front| + |middle|] == rest[0]
            && all[|front| + |middle| := x] == front + (middle + [x]) + rest[1..]
  {
  }

  lemma PrefixSlice<T>(s: seq<T>, longer: seq<T>, a: nat, b: nat)
    requires s <= longer && a <= b <= |s|
    ensures longer[a..b] == s[a..b]
  {
  }

  lemma MiddleSlice<T>(start: seq<T>, x: T, middle: seq<T>, y: T)
    ensures var all, n := start + [x] + middle + [y], |start| + 1 + |middle|;
            |all| == n + 1 && all[|start|] == x && all[|start| + 1..n] == middle && all[n] == y
  {
  }

  lemma ShiftedSlice<T>(pre: seq<T>, text: seq<T>, a: nat, b: nat)
    requires a <= b <= |text|
    ensures (pre + text)[|pre| + a..|pre| + b] == text[a..b]
  {
  }
}
