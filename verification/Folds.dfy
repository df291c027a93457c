// Left folds, the shape of every byte-at-a-time loop in the source.
module Folds {
  function Fold<S, T>(f: (S, T) -> S, s: S, data: seq<T>): S {
    if data == [] then s else Fold(f, f(s, data[0]), data[1..])
  }

  lemma {:induction false} FoldAppend<S, T>(f: (S, T) -> S, s: S, a: seq<T>, b: seq<T>)
    ensures Fold(f, s, a + b) == Fold(f, Fold(f, s, a), b)
  {
    if a == [] {
      assert a + b == b;
    } else {
      assert (a + b)[1..] == a[1..] + b;
      FoldAppend(f, f(s, a[0]), a[1..], b);
    }
  }

  lemma {:induction false} FoldStep<S, T>(f: (S, T) -> S, s: S, data: seq<T>)
    requires data != []
    ensures Fold(f, s, data) == f(Fold(f, s, data[..|data| - 1]), data[|data| - 1])
  {
    var a, b := data[..|data| - 1], [data[|data| - 1]];
    assert data == a + b;
    FoldAppend(f, s, a, b);
    assert Fold(f, f(Fold(f, s, a), b[0]), b[1..]) == f(Fold(f, s, a), b[0]);
  }

  // What one turn of such a loop adds to the fold of the part already read.
  lemma {:induction false} FoldNext<S, T>(f: (S, T) -> S, s: S, data: seq<T>, i: nat, r: S)
    requires i < |data| && r == f(Fold(f, s, data[..i]), data[i])
    ensures r == Fold(f, s, data[..i + 1])
  {
    FoldStep(f, s, data[..i + 1]);
    assert data[..i + 1][..i] == data[..i];
  }

  function Iter<S>(f: S -> S, s: S, n: nat): S
    decreases n
  {
    if n == 0 then s else Iter(f, f(s), n - 1)
  }

  lemma {:induction false} IterUnroll<S>(f: S -> S, s: S, n: nat)
    ensures Iter(f, s, n + 1) == Iter(f, f(s), n)
  {}

  lemma {:induction false} Iter8<S>(f: S -> S, s: S)
    ensures Iter(f, s, 8) == f(f(f(f(f(f(f(f(s))))))))
  {
    var s1 := f(s);  IterUnroll(f, s, 7);
    var s2 := f(s1); IterUnroll(f, s1, 6);
    var s3 := f(s2); IterUnroll(f, s2, 5);
    var s4 := f(s3); IterUnroll(f, s3, 4);
    var s5 := f(s4); IterUnroll(f, s4, 3);
    var s6 := f(s5); IterUnroll(f, s5, 2);
    var s7 := f(s6); IterUnroll(f, s6, 1);
    IterUnroll(f, s7, 0);
  }

  // Iterating a map that distributes over an operation distributes over it.
  lemma {:induction false} IterLinear<S(!new)>(f: S -> S, x: (S, S) -> S, a: S, b: S, n: nat)
    requires forall p, q :: f(x(p, q)) == x(f(p), f(q))
    ensures Iter(f, x(a, b), n) == x(Iter(f, a, n), Iter(f, b, n))
    decreases n
  {
    if n > 0 {
      IterLinear(f, x, f(a), f(b), n - 1);
    }
  }

  // ---- A message as the bits of its bytes ----

  function Spell<T(!new)>(f: T -> seq<bool>, data: seq<T>): (r: seq<bool>)
    requires forall x :: |f(x)| == 8
    ensures |r| == 8 * |data|
  {
    if data == [] then [] else f(data[0]) + Spell(f, data[1..])
  }

  lemma {:induction false} SpellAt<T(!new)>(f: T -> seq<bool>, data: seq<T>, i: nat)
    requires forall x :: |f(x)| == 8
    requires i < 8 * |data|
    ensures Spell(f, data)[i] == f(data[i / 8])[i % 8]
  {
    if i >= 8 {
      SpellAt(f, data[1..], i - 8);
      assert (i - 8) / 8 == i / 8 - 1 && (i - 8) % 8 == i % 8;
    }
  }

  lemma {:induction false} SpellInjective<T(!new)>(f: T -> seq<bool>, m: seq<T>, n: seq<T>)
    requires forall x :: |f(x)| == 8
    requires forall x, y :: f(x) == f(y) ==> x == y
    requires |m| == |n| && Spell(f, m) == Spell(f, n)
    ensures m == n
  {
    if m != [] {
      assert Spell(f, m)[..8] == f(m[0]) && Spell(f, m)[8..] == Spell(f, m[1..]);
      assert Spell(f, n)[..8] == f(n[0]) && Spell(f, n)[8..] == Spell(f, n[1..]);
      SpellInjective(f, m[1..], n[1..]);
    }
  }

  // A byte-at-a-time fold that agrees with feeding each byte's bits is the bit fold.
  lemma {:induction false} FoldSpelled<S(!new), T(!new)>(g: (S, T) -> S, feed: (S, bool) -> S, f: T -> seq<bool>, c: S, data: seq<T>)
    requires forall x :: |f(x)| == 8
    requires forall s, x :: g(s, x) == Fold(feed, s, f(x))
    ensures Fold(g, c, data) == Fold(feed, c, Spell(f, data))
    decreases data
  {
    if data != [] {
      FoldSpelled(g, feed, f, g(c, data[0]), data[1..]);
      FoldAppend(feed, c, f(data[0]), Spell(f, data[1..]));
    }
  }

  // ---- Folding bits into a register, over an abstract register ----

  function Diff(m: seq<bool>, n: seq<bool>): (d: seq<bool>)
    requires |m| == |n|
    ensures |d| == |m| && forall i :: 0 <= i < |m| ==> (d[i] <==> m[i] != n[i])
  {
    seq(|m|, i requires 0 <= i < |m| => m[i] != n[i])
  }

  // The difference of two streams runs through the register on its own.
  lemma {:induction false} FoldDiff<S(!new)>(f: (S, bool) -> S, x: (S, S) -> S, c: S, d: S, m: seq<bool>, n: seq<bool>)
    requires |m| == |n|
    requires forall p, q, s, t :: x(f(p, s), f(q, t)) == f(x(p, q), s != t)
    ensures x(Fold(f, c, m), Fold(f, d, n)) == Fold(f, x(c, d), Diff(m, n))
  {
    if m != [] {
      FoldDiff(f, x, f(c, m[0]), f(d, n[0]), m[1..], n[1..]);
      assert Diff(m, n)[1..] == Diff(m[1..], n[1..]);
    }
  }

  // The n lowest bits of a word, lowest first.
  function Digits<S>(odd: S -> bool, half: S -> S, b: S, n: nat): (d: seq<bool>)
    ensures |d| == n
    decreases n
  {
    if n == 0 then [] else [odd(b)] + Digits(odd, half, half(b), n - 1)
  }

  // Adding a word and turning n times is feeding its n lowest bits; what is left
  // of the word has only moved.
  lemma {:induction false} FoldDigits<S(!new)>(turn: S -> S, feed: (S, bool) -> S, x: (S, S) -> S,
                                               odd: S -> bool, half: S -> S, c: S, b: S, n: nat)
    requires forall p, q :: turn(x(p, q)) == x(feed(p, odd(q)), half(q))
    ensures Iter(turn, x(c, b), n) == x(Fold(feed, c, Digits(odd, half, b, n)), Iter(half, b, n))
    decreases n
  {
    if n > 0 {
      FoldDigits(turn, feed, x, odd, half, feed(c, odd(b)), half(b), n - 1);
      var d := Digits(odd, half, b, n);
      assert d[0] == odd(b) && d[1..] == Digits(odd, half, half(b), n - 1);
    }
  }

  lemma {:induction false} DigitsInjective<S(!new)>(odd: S -> bool, half: S -> S, a: S, b: S, n: nat)
    requires forall p, q :: odd(p) == odd(q) && half(p) == half(q) ==> p == q
    requires Digits(odd, half, a, n) == Digits(odd, half, b, n)
    requires Iter(half, a, n) == Iter(half, b, n)
    ensures a == b
    decreases n
  {
    if n > 0 {
      var d, e := Digits(odd, half, a, n), Digits(odd, half, b, n);
      assert d[0] == e[0] && d[1..] == e[1..];
      DigitsInjective(odd, half, half(a), half(b), n - 1);
    }
  }

  // If feeding d empties the register, the register held only bits of d; so an
  // empty register that ends up empty was fed only zeros. `within(s, k)` says that
  // s has no bit at position k or above, and holds of 16-bit words only for k <= 16.
  lemma {:induction false} FoldEmptied<S(!new)>(feed: (S, bool) -> S, within: (S, nat) -> bool, zero: S, c: S, d: seq<bool>)
    requires |d| <= 16 && Fold(feed, c, d) == zero
    requires within(zero, 0)
    requires forall s, t, k: nat :: k < 16 && within(feed(s, t), k) ==> within(s, k + 1)
    requires forall t, k: nat :: k < 16 && within(feed(zero, t), k) ==> !t && feed(zero, t) == zero
    ensures within(c, |d|)
    ensures c == zero ==> forall i :: 0 <= i < |d| ==> !d[i]
  {
    if d != [] {
      FoldEmptied(feed, within, zero, feed(c, d[0]), d[1..]);
      assert within(feed(c, d[0]), |d| - 1);
      if c == zero {
        forall i | 0 <= i < |d| ensures !d[i] {
          assert i > 0 ==> d[i] == d[1..][i - 1];
        }
      }
    }
  }

  lemma {:induction false} FoldKept<S(!new)>(feed: (S, bool) -> S, zero: S, c: S, d: seq<bool>)
    requires forall s :: s != zero ==> feed(s, false) != zero
    requires c != zero && forall i :: 0 <= i < |d| ==> !d[i]
    ensures Fold(feed, c, d) != zero
  {
    if d != [] { FoldKept(feed, zero, feed(c, d[0]), d[1..]); }
  }

  lemma {:induction false} FoldQuiet<S(!new)>(feed: (S, bool) -> S, zero: S, d: seq<bool>)
    requires feed(zero, false) == zero
    requires forall i :: 0 <= i < |d| ==> !d[i]
    ensures Fold(feed, zero, d) == zero
  {
    if d != [] { FoldQuiet(feed, zero, d[1..]); }
  }

  lemma {:induction false} BurstMarks<S(!new)>(feed: (S, bool) -> S, within: (S, nat) -> bool, zero: S, burst: seq<bool>, i: nat)
    requires within(zero, 0)
    requires forall s, t, k: nat :: k < 16 && within(feed(s, t), k) ==> within(s, k + 1)
    requires forall t, k: nat :: k < 16 && within(feed(zero, t), k) ==> !t && feed(zero, t) == zero
    requires |burst| <= 16 && i < |burst| && burst[i]
    ensures Fold(feed, zero, burst) != zero
  {
    if Fold(feed, zero, burst) == zero { FoldEmptied(feed, within, zero, zero, burst); }
  }

  lemma {:induction false} QuietAround<S(!new)>(feed: (S, bool) -> S, zero: S, before: seq<bool>, burst: seq<bool>, after: seq<bool>)
    requires feed(zero, false) == zero && Fold(feed, zero, burst) != zero
    requires forall s :: s != zero ==> feed(s, false) != zero
    requires forall i :: 0 <= i < |before| ==> !before[i]
    requires forall i :: 0 <= i < |after| ==> !after[i]
    ensures Fold(feed, zero, before + (burst + after)) != zero
  {
    FoldAppend(feed, zero, before, burst + after);
    FoldQuiet(feed, zero, before);
    FoldAppend(feed, zero, burst, after);
    FoldKept(feed, zero, Fold(feed, zero, burst), after);
  }

  // A burst of at most sixteen bits, with silence around it, leaves its mark.
  lemma {:induction false} BurstSurvives<S(!new)>(feed: (S, bool) -> S, within: (S, nat) -> bool, zero: S, d: seq<bool>, p: nat)
    requires within(zero, 0)
    requires forall s, t, k: nat :: k < 16 && within(feed(s, t), k) ==> within(s, k + 1)
    requires forall t, k: nat :: k < 16 && within(feed(zero, t), k) ==> !t && feed(zero, t) == zero
    requires forall s :: s != zero ==> feed(s, false) != zero
    requires feed(zero, false) == zero
    requires exists i :: 0 <= i < |d| && d[i]
    requires forall i :: 0 <= i < |d| && !(p <= i < p + 16) ==> !d[i]
    ensures Fold(feed, zero, d) != zero
  {
    var i :| 0 <= i < |d| && d[i];
    var q := if p + 16 < |d| then p + 16 else |d|;
    var before, burst, after := d[..p], d[p..q], d[q..];
    BurstMarks(feed, within, zero, burst, i - p);
    forall j | 0 <= j < |after| ensures !after[j] { assert !d[q + j]; }
    QuietAround(feed, zero, before, burst, after);
    assert d == before + (burst + after);
  }
}
