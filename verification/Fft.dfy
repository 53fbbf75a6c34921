/** Complex arithmetic over the reals, just enough for the transform. */
module ComplexNumbers {
  datatype Complex = Complex(re: real, im: real)

  const ZERO := Complex(0.0, 0.0)
  const ONE := Complex(1.0, 0.0)

  function Plus(a: Complex, b: Complex): Complex {
    Complex(a.re + b.re, a.im + b.im)
  }

  function Minus(a: Complex, b: Complex): Complex {
    Complex(a.re - b.re, a.im - b.im)
  }

  function Times(a: Complex, b: Complex): Complex {
    Complex(a.re * b.re - a.im * b.im, a.re * b.im + a.im * b.re)
  }

  function Scale(x: real, a: Complex): Complex {
    Complex(x * a.re, x * a.im)
  }

  lemma TimesOverPlus(a: Complex, b: Complex, c: Complex)
    ensures Times(a, Plus(b, c)) == Plus(Times(a, b), Times(a, c))
  {}

  lemma Regroup(e: Complex, w: Complex, o: Complex, a: Complex, x: real, b: Complex)
    ensures Plus(Plus(Plus(e, Times(w, o)), a), Scale(x, Times(w, b)))
         == Plus(Plus(e, a), Times(w, Plus(o, Scale(x, b))))
  {
    TimesOverPlus(w, o, Scale(x, b));
    ScaleTimes(x, w, b);
    Shuffle(e, Times(w, o), a, Scale(x, Times(w, b)));
  }

  lemma Shuffle(a: Complex, b: Complex, c: Complex, d: Complex)
    ensures Plus(Plus(Plus(a, b), c), d) == Plus(Plus(a, c), Plus(b, d))
  {}

  lemma ScaleTimes(x: real, a: Complex, b: Complex)
    ensures Times(a, Scale(x, b)) == Scale(x, Times(a, b))
  {
    var c := Times(a, Scale(x, b));
    assert c.re == x * (a.re * b.re - a.im * b.im);
    assert c.im == x * (a.re * b.im + a.im * b.re);
  }
}

/** The discrete Fourier transform that the in-place loops must leave behind. */
module Fourier {
  import opened ComplexNumbers

  /** `cos(j, l)` and `sin(j, l)` stand for the cosine and sine of -2*pi*j/l. */
  datatype Trig = Trig(cos: (int, int) -> real, sin: (int, int) -> real)

  function W(t: Trig, j: int, l: int): Complex {
    Complex(t.cos(j, l), t.sin(j, l))
  }

  ghost predicate AngleAddition(t: Trig, a: int, b: int, l: int) {
    && t.cos(a + b, l) == t.cos(a, l) * t.cos(b, l) - t.sin(a, l) * t.sin(b, l)
    && t.sin(a + b, l) == t.cos(a, l) * t.sin(b, l) + t.sin(a, l) * t.cos(b, l)
  }

  /** The same angle written over twice the length, and the half and zero turns. */
  ghost predicate TurnFractions(t: Trig, a: int, l: int) {
    && t.cos(2 * a, 2 * l) == t.cos(a, l) && t.sin(2 * a, 2 * l) == t.sin(a, l)
    && t.cos(l, 2 * l) == -1.0 && t.sin(l, 2 * l) == 0.0
    && t.cos(0, l) == 1.0 && t.sin(0, l) == 0.0
  }

  /** The only facts about cosine and sine that the transform relies on. */
  ghost predicate Lawful(t: Trig) {
    && (forall a, b, l :: l > 0 ==> AngleAddition(t, a, b, l))
    && (forall a, l :: l > 0 ==> TurnFractions(t, a, l))
  }

  function At(x: seq<real>, i: int): real {
    if 0 <= i < |x| then x[i] else 0.0
  }

  /** First `m` terms of the length-`l` transform, at frequency `k`, of x[o], x[o+s], x[o+2s], ... */
  ghost function Sum(t: Trig, x: seq<real>, o: int, s: int, l: int, k: int, m: nat): Complex {
    if m == 0 then ZERO
    else Plus(Sum(t, x, o, s, l, k, m - 1), Scale(At(x, o + (m - 1) * s), W(t, (m - 1) * k, l)))
  }

  /** The transform of all of `x` at frequency `k`: the sum of x[m] * e^(-2*pi*i*m*k/|x|). */
  ghost function Dft(t: Trig, x: seq<real>, k: int): Complex {
    Sum(t, x, 0, 1, |x|, k, |x|)
  }

  lemma WAdd(t: Trig, a: int, b: int, l: int)
    requires Lawful(t) && l > 0
    ensures W(t, a + b, l) == Times(W(t, a, l), W(t, b, l))
  {
    assert AngleAddition(t, a, b, l);
  }

  lemma WHalf(t: Trig, a: int, l: int)
    requires Lawful(t) && l > 0
    ensures W(t, 2 * a, 2 * l) == W(t, a, l)
    ensures W(t, l, 2 * l) == Complex(-1.0, 0.0)
    ensures W(t, 0, l) == ONE
  {
    assert TurnFractions(t, a, l);
  }

  /** A whole number of turns changes nothing. */
  lemma {:induction false} WPeriod(t: Trig, a: int, m: nat, l: int)
    requires Lawful(t) && l > 0
    ensures W(t, a + m * l, l) == W(t, a, l)
  {
    if m > 0 {
      WPeriod(t, a, m - 1, l);
      assert a + m * l == a + (m - 1) * l + l;
      WAdd(t, a + (m - 1) * l, l, l);
      WHalf(t, l, l);
      WAdd(t, l, l, 2 * l);
      assert l + l == 2 * l;
    }
  }

  /** Two consecutive terms, with their twiddles written over the halved length. */
  lemma TwoTerms(t: Trig, x: seq<real>, o: int, s: int, l: int, k: int, j: nat)
    requires Lawful(t) && l > 0
    ensures Sum(t, x, o, s, 2 * l, k, 2 * j + 2)
         == Plus(Plus(Sum(t, x, o, s, 2 * l, k, 2 * j), Scale(At(x, o + j * (2 * s)), W(t, j * k, l))),
                 Scale(At(x, o + s + j * (2 * s)), Times(W(t, k, 2 * l), W(t, j * k, l))))
  {
    assert o + (2 * j) * s == o + j * (2 * s) && o + (2 * j + 1) * s == o + s + j * (2 * s);
    assert (2 * j) * k == 2 * (j * k) && (2 * j + 1) * k == k + 2 * (j * k);
    WHalf(t, j * k, l);
    WAdd(t, k, 2 * (j * k), 2 * l);
    SumStep(t, x, o, s, 2 * l, k, 2 * j + 1);
    SumStep(t, x, o, s, 2 * l, k, 2 * j);
  }

  lemma SumStep(t: Trig, x: seq<real>, o: int, s: int, l: int, k: int, m: nat)
    ensures Sum(t, x, o, s, l, k, m + 1) == Plus(Sum(t, x, o, s, l, k, m), Scale(At(x, o + m * s), W(t, m * k, l)))
  {}

  /** The even and the odd samples, recombined with one twiddle factor. */
  ghost predicate Recombined(t: Trig, x: seq<real>, o: int, s: int, l: int, k: int, m: nat) {
    Sum(t, x, o, s, 2 * l, k, 2 * m)
    == Plus(Sum(t, x, o, 2 * s, l, k, m), Times(W(t, k, 2 * l), Sum(t, x, o + s, 2 * s, l, k, m)))
  }

  lemma OneMorePair(t: Trig, x: seq<real>, o: int, s: int, l: int, k: int, j: nat)
    requires Lawful(t) && l > 0 && Recombined(t, x, o, s, l, k, j)
    ensures Recombined(t, x, o, s, l, k, j + 1)
  {
    hide Plus, Times, Scale, Lawful, Sum, At, W;
    var w, wj := W(t, k, 2 * l), W(t, j * k, l);
    var xe, xo := At(x, o + j * (2 * s)), At(x, o + s + j * (2 * s));
    SumStep(t, x, o, 2 * s, l, k, j);
    SumStep(t, x, o + s, 2 * s, l, k, j);
    TwoTerms(t, x, o, s, l, k, j);
    Regroup(Sum(t, x, o, 2 * s, l, k, j), w, Sum(t, x, o + s, 2 * s, l, k, j), Scale(xe, wj), xo, wj);
    assert 2 * (j + 1) == 2 * j + 2;
  }

  /** Decimation in time. */
  lemma {:induction false} Decimation(t: Trig, x: seq<real>, o: int, s: int, l: int, k: int, m: nat)
    requires Lawful(t) && l > 0
    ensures Recombined(t, x, o, s, l, k, m)
    decreases m
  {
    if m > 0 {
      Decimation(t, x, o, s, l, k, m - 1);
      OneMorePair(t, x, o, s, l, k, m - 1);
    } else {
      assert Sum(t, x, o, 2 * s, l, k, 0) == ZERO && Sum(t, x, o + s, 2 * s, l, k, 0) == ZERO;
    }
  }

  /** A transform of length `l` repeats after `l` frequencies. */
  lemma {:induction false} SumPeriod(t: Trig, x: seq<real>, o: int, s: int, l: int, k: int, m: nat)
    requires Lawful(t) && l > 0
    ensures Sum(t, x, o, s, l, k + l, m) == Sum(t, x, o, s, l, k, m)
  {
    if m > 0 {
      SumPeriod(t, x, o, s, l, k, m - 1);
      assert (m - 1) * (k + l) == (m - 1) * k + (m - 1) * l;
      WPeriod(t, (m - 1) * k, m - 1, l);
    }
  }
}

/** Bit reversal, as an arithmetic function and as the in-place loop that computes it. */
module BitReversal {
  function Pow2(k: nat): (r: nat)
    ensures r > 0
  {
    if k == 0 then 1 else 2 * Pow2(k - 1)
  }

  /** The number whose `k` low bits are those of `i` in the opposite order. */
  function Rev(k: nat, i: nat): (r: nat)
    ensures r < Pow2(k)
  {
    if k == 0 then 0 else Rev(k - 1, i / 2) + (if i % 2 == 1 then Pow2(k - 1) else 0)
  }

  /** Peeling the high bit `q` instead of the low one. */
  lemma {:induction false} RevHigh(k: nat, q: nat, r: nat)
    requires q < 2 && r < Pow2(k)
    ensures Rev(k + 1, (if q == 0 then 0 else Pow2(k)) + r) == 2 * Rev(k, r) + q
  {
    if k > 0 {
      RevHigh(k - 1, q, r / 2);
      HalfWith(Pow2(k - 1), q, r);
    }
  }

  lemma HalfWith(h: nat, q: nat, r: nat)
    ensures var i := (if q == 0 then 0 else 2 * h) + r;
      i / 2 == (if q == 0 then 0 else h) + r / 2 && i % 2 == r % 2
  {
  }

  /** Uniqueness of quotient and remainder. */
  lemma Quotient(a: int, b: int, q: int, r: int)
    requires b > 0 && 0 <= r < b && a == q * b + r
    ensures a / b == q && a % b == r
  {
    var d := a / b - q;
    assert a == (a / b) * b + a % b;
    assert d * b == r - a % b;
    if d > 0 {
      assert false;
    } else if d < 0 {
      assert false;
    }
  }

  lemma {:induction false} RevInvolution(k: nat, i: nat)
    requires i < Pow2(k)
    ensures Rev(k, Rev(k, i)) == i
  {
    if k > 0 {
      RevInvolution(k - 1, i / 2);
      RevHigh(k - 1, i % 2, Rev(k - 1, i / 2));
    }
  }

  /** `x & bit` for a power of two `bit`. */
  predicate HasBit(x: nat, bit: nat)
    requires bit > 0
  {
    x / bit % 2 == 1
  }

  /** `x ^ bit` for a power of two `bit`. */
  function Toggle(x: nat, bit: nat): nat
    requires bit > 0
  {
    if HasBit(x, bit) && x >= bit then x - bit else x + bit
  }

  /** The top bit of the reversal of `q` is its low bit, and toggling it carries into the rest. */
  lemma TopBit(b: nat, q: nat)
    ensures HasBit(Rev(b + 1, q), Pow2(b)) <==> q % 2 == 1
    ensures q % 2 == 1 ==>
      Toggle(Rev(b + 1, q), Pow2(b)) == Rev(b, q / 2) && Rev(b + 1, q + 1) == Rev(b, q / 2 + 1)
    ensures q % 2 == 0 ==> Toggle(Rev(b + 1, q), Pow2(b)) == Rev(b + 1, q + 1)
  {
    hide HasBit, Toggle;
    TopCarry(Rev(b, q / 2), Pow2(b));
    if q % 2 == 1 {
      assert (q + 1) % 2 == 0 && (q + 1) / 2 == q / 2 + 1;
    } else {
      assert (q + 1) % 2 == 1 && (q + 1) / 2 == q / 2;
    }
  }

  lemma TopCarry(rest: nat, bit: nat)
    requires rest < bit
    ensures !HasBit(rest, bit) && Toggle(rest, bit) == rest + bit
    ensures HasBit(rest + bit, bit) && Toggle(rest + bit, bit) == rest
  {
    Quotient(rest, bit, 0, rest);
    Quotient(rest + bit, bit, 1, rest);
  }

  /** Carrying from the high bit down turns the reversal of i - 1 into the reversal of i. */
  method NextReversed(k: nat, i: nat, j0: nat) returns (j: nat)
    requires 0 < i < Pow2(k) && j0 == Rev(k, i - 1)
    ensures j == Rev(k, i)
  {
    hide Rev, HasBit, Toggle;
    j := j0;
    var bit := Pow2(k) / 2;
    ghost var b, q := k - 1, i - 1;
    TopBit(b, q);
    while HasBit(j, bit)
      invariant 0 <= b < k && bit == Pow2(b) && 0 <= q && q + 1 < Pow2(b + 1)
      invariant j == Rev(b + 1, q) && Rev(k, i) == Rev(b + 1, q + 1)
      decreases b
    {
      TopBit(b, q);
      j := Toggle(j, bit);
      bit := bit / 2;
      b, q := b - 1, q / 2;
    }
    TopBit(b, q);
    j := Toggle(j, bit);
  }

  predicate Swapped(k: nat, i: int, p: nat) {
    p < i || Rev(k, p) < i
  }

  /** scripts/personas/audio.ts runs this on the real parts only. */
  method Permute(a: array<real>, k: nat)
    requires a.Length == Pow2(k)
    modifies a
    ensures forall p :: 0 <= p < a.Length ==> a[p] == old(a[Rev(k, p)])
  {
    hide Rev, Pow2;
    var n := a.Length;
    var i, j := 1, 0;
    AllInvolutions(k);
    while i < n
      invariant 1 <= i <= n && j == Rev(k, i - 1)
      invariant forall p :: 0 <= p < n ==> a[p] == old(a[if Swapped(k, i, p) then Rev(k, p) else p])
    {
      j := NextReversed(k, i, j);
      assert Rev(k, j) == i;
      if i < j {
        a[i], a[j] := a[j], a[i];
      }
      i := i + 1;
    }
  }

  /** Reversing twice gives every index back, and only index 0 is in place before the loop. */
  lemma AllInvolutions(k: nat)
    ensures forall p :: 0 <= p < Pow2(k) ==> Rev(k, Rev(k, p)) == p
    ensures forall p :: 0 <= p < Pow2(k) && Swapped(k, 1, p) ==> Rev(k, p) == p
    ensures Rev(k, 0) == 0
  {
    RevZero(k);
    forall p | 0 <= p < Pow2(k)
      ensures Rev(k, Rev(k, p)) == p
    {
      RevInvolution(k, p);
    }
    hide Rev;
  }

  lemma RevZero(k: nat)
    ensures Rev(k, 0) == 0
  {}
}

/** The iterative radix-2 transform of scripts/personas/audio.ts, for every power-of-two size. */
module Fft {
  import opened ComplexNumbers
  import opened Fourier
  import opened BitReversal

  /** What one pass leaves at `p` in the block of `length` that starts at `base`. */
  ghost function ButterflyIn(t: Trig, re: seq<real>, im: seq<real>, length: nat, base: nat, p: nat): Complex
    requires |re| == |im| && length % 2 == 0 && base <= p < base + length <= |re|
  {
    var h, j := length / 2, p - base;
    if j < h then
      Plus(Complex(re[p], im[p]), Times(W(t, j, length), Complex(re[p + h], im[p + h])))
    else
      Minus(Complex(re[p - h], im[p - h]), Times(W(t, j - h, length), Complex(re[p], im[p])))
  }

  /** One butterfly pass over blocks of `length`, seen as a function of the values before it. */
  ghost function Butterfly(t: Trig, re: seq<real>, im: seq<real>, length: nat, p: nat): Complex
    requires |re| == |im| && 0 < length && length % 2 == 0 && |re| % length == 0 && p < |re|
  {
    BlockBounds(|re|, length, p);
    ButterflyIn(t, re, im, length, p - Remainder(p, length), p)
  }

  lemma Monotone(b: int, c: int, length: int)
    requires 0 < length && b * length < c * length
    ensures (b + 1) * length <= c * length
  {
    if c <= b {
      Scaled(c, b, length);
      assert false;
    }
    Scaled(b + 1, c, length);
  }

  lemma Scaled(a: int, b: int, m: int)
    requires a <= b && 0 <= m
    ensures a * m <= b * m
  {
    assert b * m == a * m + (b - a) * m;
  }

  /** The block holding `p` lies inside the array. */
  lemma BlockBounds(n: int, length: int, p: int)
    requires 0 < length && n % length == 0 && 0 <= p < n
    ensures 0 <= p - p % length && p - p % length + length <= n
  {
    var b, c := p / length, n / length;
    assert p == b * length + p % length && n == c * length;
    Monotone(b, c, length);
    assert 0 <= b && 0 <= b * length;
  }

  lemma InBlock(base: int, length: int, p: int)
    requires 0 < length && base % length == 0 && base <= p < base + length
    ensures p % length == p - base
  {
    assert base == (base / length) * length;
    Quotient(p, length, base / length, p - base);
  }

  lemma NextBlock(base: int, length: int, n: int)
    requires 0 < length && base % length == 0 && n % length == 0 && base < n
    ensures base + length <= n && (base + length) % length == 0
  {
    var b, c := base / length, n / length;
    assert base == b * length && n == c * length;
    Monotone(b, c, length);
    Quotient(base + length, length, b + 1, 0);
  }

  /** The two values of a butterfly. */
  lemma PairIs(t: Trig, re: seq<real>, im: seq<real>, length: nat, base: nat, j: nat)
    requires |re| == |im| && length % 2 == 0 && j < length / 2 && base + length <= |re|
    ensures var even, odd := base + j, base + j + length / 2;
      var turned := Times(W(t, j, length), Complex(re[odd], im[odd]));
      && ButterflyIn(t, re, im, length, base, even) == Plus(Complex(re[even], im[even]), turned)
      && ButterflyIn(t, re, im, length, base, odd) == Minus(Complex(re[even], im[even]), turned)
  {
    hide Times, W;
  }

  /** The first `j` butterflies of the block are done, and everything else is as before. */
  ghost predicate Paired(t: Trig, r0: seq<real>, i0: seq<real>, re: seq<real>, im: seq<real>,
                         length: nat, base: nat, j: nat)
    requires |r0| == |i0| == |re| == |im| && length % 2 == 0 && base + length <= |r0| && j <= length / 2
  {
    var h := length / 2;
    && (forall p :: base <= p < base + j || base + h <= p < base + h + j ==>
         Complex(re[p], im[p]) == ButterflyIn(t, r0, i0, length, base, p))
    && (forall p :: 0 <= p < base || base + j <= p < base + h || base + h + j <= p < |re| ==>
         re[p] == r0[p] && im[p] == i0[p])
  }

  /** One butterfly more. */
  lemma PairedMore(t: Trig, r0: seq<real>, i0: seq<real>, re: seq<real>, im: seq<real>, length: nat, base: nat, j: nat)
    requires |r0| == |i0| == |re| == |im| && length % 2 == 0 && base + length <= |r0| && j < length / 2
    requires Paired(t, r0, i0, re, im, length, base, j)
    ensures var even, odd := base + j, base + j + length / 2;
      var turned := Times(W(t, j, length), Complex(re[odd], im[odd]));
      Paired(t, r0, i0, re[odd := re[even] - turned.re][even := re[even] + turned.re],
             im[odd := im[even] - turned.im][even := im[even] + turned.im], length, base, j + 1)
  {
    PairIs(t, r0, i0, length, base, j);
    hide ButterflyIn, Times, W;
  }

  /** The turned value is taken away at `odd` and added at `even`. */
  method Spread(a: array<real>, even: nat, odd: nat, x: real)
    requires even < odd < a.Length
    modifies a
    ensures a[..] == old(a[..])[odd := old(a[even]) - x][even := old(a[even]) + x]
  {
    a[odd] := a[even] - x;
    a[even] := a[even] + x;
  }

  method OneBlock(re: array<real>, im: array<real>, base: nat, length: nat, t: Trig)
    requires re != im && re.Length == im.Length && length % 2 == 0 && base + length <= re.Length
    modifies re, im
    ensures forall p :: base <= p < base + length ==>
      Complex(re[p], im[p]) == ButterflyIn(t, old(re[..]), old(im[..]), length, base, p)
    ensures forall p :: 0 <= p < base || base + length <= p < re.Length ==> re[p] == old(re[p]) && im[p] == old(im[p])
  {
    hide ButterflyIn;
    ghost var r0, i0 := re[..], im[..];
    var h := length / 2;
    var j := 0;
    while j < h
      invariant 0 <= j <= h && Paired(t, r0, i0, re[..], im[..], length, base, j)
    {
      hide Paired;
      ghost var r1, i1 := re[..], im[..];
      PairedMore(t, r0, i0, r1, i1, length, base, j);
      var c, s := t.cos(j, length), t.sin(j, length);
      var even := base + j;
      var odd := even + h;
      var r := re[odd] * c - im[odd] * s;
      var i := re[odd] * s + im[odd] * c;
      assert Complex(r, i) == Times(W(t, j, length), Complex(r1[odd], i1[odd]));
      hide Times, W;
      Spread(re, even, odd, r);
      Spread(im, even, odd, i);
      j := j + 1;
    }
  }

  method Stage(re: array<real>, im: array<real>, length: nat, t: Trig)
    requires re != im && re.Length == im.Length
    requires 0 < length && length % 2 == 0 && re.Length % length == 0
    modifies re, im
    ensures forall p :: 0 <= p < re.Length ==>
      Complex(re[p], im[p]) == Butterfly(t, old(re[..]), old(im[..]), length, p)
  {
    ghost var r0, i0 := re[..], im[..];
    var base := 0;
    while base < re.Length
      invariant 0 <= base <= re.Length && base % length == 0
      invariant forall p :: 0 <= p < base ==> Complex(re[p], im[p]) == Butterfly(t, r0, i0, length, p)
      invariant forall p :: base <= p < re.Length ==> re[p] == r0[p] && im[p] == i0[p]
    {
      NextBlock(base, length, re.Length);
      ghost var r1, i1 := re[..], im[..];
      OneBlock(re, im, base, length, t);
      forall p | base <= p < base + length
        ensures ButterflyIn(t, r1, i1, length, base, p) == Butterfly(t, r0, i0, length, p)
      {
        InBlock(base, length, p);
      }
      base := base + length;
    }
  }

  /** After the stages up to blocks of 2^e, every block holds the transform of its own subsequence. */
  ghost predicate Transformed(t: Trig, x: seq<real>, re: seq<real>, im: seq<real>, k: nat, e: nat)
    requires e <= k && |x| == |re| == |im| == Pow2(k)
  {
    forall p :: 0 <= p < |x| ==> Complex(re[p], im[p]) == Block(t, x, k, e, p)
  }

  ghost function Block(t: Trig, x: seq<real>, k: nat, e: nat, p: nat): Complex
    requires e <= k
  {
    Sum(t, x, Rev(k - e, Quot(p, Pow2(e))), Pow2(k - e), Pow2(e), Remainder(p, Pow2(e)), Pow2(e))
  }

  function Quot(p: nat, l: nat): nat
    requires l > 0
  {
    p / l
  }

  function Remainder(p: nat, l: nat): (r: nat)
    requires l > 0
    ensures r < l
  {
    p % l
  }

  lemma TwiceScaled(q: int, l: int)
    ensures q * (2 * l) == (2 * q) * l && (2 * q + 1) * l == (2 * q) * l + l
  {
  }

  lemma LowerBlock(p: nat, l: nat)
    requires 0 < l && Remainder(p, 2 * l) < l
    ensures Remainder(p, l) == Remainder(p, 2 * l) == Remainder(p + l, l)
    ensures Quot(p, l) == 2 * Quot(p, 2 * l) && Quot(p + l, l) == 2 * Quot(p, 2 * l) + 1
  {
    var q, r := p / (2 * l), p % (2 * l);
    TwiceScaled(q, l);
    Quotient(p, l, 2 * q, r);
    Quotient(p + l, l, 2 * q + 1, r);
  }

  lemma UpperBlock(p: nat, l: nat)
    requires 0 < l && Remainder(p, 2 * l) >= l
    ensures p >= l && Remainder(p, l) == Remainder(p, 2 * l) - l == Remainder(p - l, l)
    ensures Quot(p, l) == 2 * Quot(p, 2 * l) + 1 && Quot(p - l, l) == 2 * Quot(p, 2 * l)
  {
    Divided(p, 2 * l);
    UpperHalves(p, l, Quot(p, 2 * l), Remainder(p, 2 * l));
  }

  lemma Divided(p: nat, d: nat)
    requires d > 0
    ensures p == Quot(p, d) * d + Remainder(p, d) && 0 <= Remainder(p, d) < d && Quot(p, d) >= 0
  {
  }

  lemma UpperHalves(p: int, l: int, q: int, r: int)
    requires 0 < l <= r < 2 * l && 0 <= q && p == q * (2 * l) + r
    ensures p >= l && p / l == 2 * q + 1 && (p - l) / l == 2 * q && p % l == (p - l) % l == r - l
  {
    TwiceScaled(q, l);
    Scaled(0, 2 * q, l);
    Quotient(p, l, 2 * q + 1, r - l);
    Quotient(p - l, l, 2 * q, r - l);
  }

  lemma MinusTwiddle(t: Trig, j: int, l: int, a: Complex, b: Complex)
    requires Lawful(t) && l > 0
    ensures Plus(a, Times(W(t, j + l, 2 * l), b)) == Minus(a, Times(W(t, j, 2 * l), b))
  {
    WAdd(t, j, l, 2 * l);
    WHalf(t, 0, l);
  }

  /** Both halves of a block of 2l come from the same two transforms of length l. */
  lemma Recombine(t: Trig, x: seq<real>, o: int, s: int, l: nat, j: int)
    requires Lawful(t) && l > 0
    ensures var a, b := Sum(t, x, o, 2 * s, l, j, l), Times(W(t, j, 2 * l), Sum(t, x, o + s, 2 * s, l, j, l));
      Sum(t, x, o, s, 2 * l, j, 2 * l) == Plus(a, b) && Sum(t, x, o, s, 2 * l, j + l, 2 * l) == Minus(a, b)
  {
    Decimation(t, x, o, s, l, j, l);
    Decimation(t, x, o, s, l, j + l, l);
    SumPeriod(t, x, o, 2 * s, l, j, l);
    SumPeriod(t, x, o + s, 2 * s, l, j, l);
    MinusTwiddle(t, j, l, Sum(t, x, o, 2 * s, l, j, l), Sum(t, x, o + s, 2 * s, l, j, l));
  }

  lemma RevDouble(k: nat, b: nat)
    ensures Rev(k + 1, 2 * b) == Rev(k, b) && Rev(k + 1, 2 * b + 1) == Rev(k, b) + Pow2(k)
  {
    assert (2 * b) / 2 == b && (2 * b + 1) / 2 == b;
  }

  /** The first half of a block of 2^(e+1), in terms of the two blocks of 2^e that make it up. */
  lemma LowerHalf(t: Trig, x: seq<real>, k: nat, e: nat, p: nat)
    requires Lawful(t) && e < k && Remainder(p, 2 * Pow2(e)) < Pow2(e)
    ensures var l := Pow2(e);
      Block(t, x, k, e + 1, p)
      == Plus(Block(t, x, k, e, p), Times(W(t, Remainder(p, 2 * l), 2 * l), Block(t, x, k, e, p + l)))
  {
    var l, s := Pow2(e), Pow2(k - e - 1);
    var q, b := Remainder(p, 2 * l), Quot(p, 2 * l);
    var o := Rev(k - e - 1, b);
    LowerBlock(p, l);
    RevDouble(k - e - 1, b);
    assert Block(t, x, k, e, p) == Sum(t, x, o, 2 * s, l, q, l);
    assert Block(t, x, k, e, p + l) == Sum(t, x, o + s, 2 * s, l, q, l);
    Recombine(t, x, o, s, l, q);
  }

  /** The second half likewise, with the opposite sign. */
  lemma UpperHalf(t: Trig, x: seq<real>, k: nat, e: nat, p: nat)
    requires Lawful(t) && e < k && Remainder(p, 2 * Pow2(e)) >= Pow2(e)
    ensures var l := Pow2(e);
      p >= l && Block(t, x, k, e + 1, p)
      == Minus(Block(t, x, k, e, p - l), Times(W(t, Remainder(p, 2 * l) - l, 2 * l), Block(t, x, k, e, p)))
  {
    var l, s := Pow2(e), Pow2(k - e - 1);
    var q, b := Remainder(p, 2 * l) - l, Quot(p, 2 * l);
    var o := Rev(k - e - 1, b);
    UpperBlock(p, l);
    RevDouble(k - e - 1, b);
    assert Block(t, x, k, e, p - l) == Sum(t, x, o, 2 * s, l, q, l);
    assert Block(t, x, k, e, p) == Sum(t, x, o + s, 2 * s, l, q, l);
    Recombine(t, x, o, s, l, q);
  }

  lemma StagePoint(t: Trig, x: seq<real>, re: seq<real>, im: seq<real>, k: nat, e: nat, p: nat)
    requires Lawful(t) && e < k && |x| == |re| == |im| == Pow2(k) && p < Pow2(k)
    requires Transformed(t, x, re, im, k, e) && Pow2(k) % Pow2(e + 1) == 0
    ensures Butterfly(t, re, im, Pow2(e + 1), p) == Block(t, x, k, e + 1, p)
  {
    BlockBounds(Pow2(k), Pow2(e + 1), p);
    if Remainder(p, 2 * Pow2(e)) < Pow2(e) {
      LowerHalf(t, x, k, e, p);
    } else {
      UpperHalf(t, x, k, e, p);
    }
  }

  lemma {:induction false} Pow2Divides(k: nat, e: nat)
    requires e <= k
    ensures Pow2(k) % Pow2(e) == 0 && Pow2(k) == Pow2(e) * Pow2(k - e)
  {
    if e == k {
      Quotient(Pow2(k), Pow2(e), 1, 0);
    } else {
      Pow2Divides(k - 1, e);
      var c := Pow2(k - 1 - e);
      assert Pow2(k) == 2 * (Pow2(e) * c) == (2 * c) * Pow2(e);
      Quotient(Pow2(k), Pow2(e), 2 * c, 0);
    }
  }

  lemma StageDone(t: Trig, x: seq<real>, r0: seq<real>, i0: seq<real>, re: seq<real>, im: seq<real>, k: nat, e: nat)
    requires Lawful(t) && e < k && |x| == |r0| == |i0| == |re| == |im| == Pow2(k) && Pow2(k) % Pow2(e + 1) == 0
    requires Transformed(t, x, r0, i0, k, e)
    requires forall p :: 0 <= p < |re| ==> Complex(re[p], im[p]) == Butterfly(t, r0, i0, Pow2(e + 1), p)
    ensures Transformed(t, x, re, im, k, e + 1)
  {
    forall p | 0 <= p < |re|
      ensures Complex(re[p], im[p]) == Block(t, x, k, e + 1, p)
    {
      StagePoint(t, x, r0, i0, k, e, p);
    }
  }

  method Stages(re: array<real>, im: array<real>, k: nat, t: Trig, ghost x: seq<real>)
    requires re != im && re.Length == im.Length == |x| == Pow2(k) && Lawful(t)
    requires Transformed(t, x, re[..], im[..], k, 0)
    modifies re, im
    ensures Transformed(t, x, re[..], im[..], k, k)
  {
    hide Transformed, Pow2, Butterfly, Lawful;
    ghost var e: nat := 0;
    var length := 2;
    StageSizes(k, 0);
    while length <= re.Length
      invariant e <= k && length == Pow2(e + 1) && (e < k <==> length <= re.Length)
      invariant Transformed(t, x, re[..], im[..], k, e)
      decreases k - e
    {
      StageSizes(k, e);
      StageSizes(k, e + 1);
      ghost var r0, i0 := re[..], im[..];
      Stage(re, im, length, t);
      StageDone(t, x, r0, i0, re[..], im[..], k, e);
      e := e + 1;
      length := length * 2;
    }
  }

  lemma StageSizes(k: nat, e: nat)
    requires e <= k
    ensures Pow2(e + 2) == 2 * Pow2(e + 1) && Pow2(e + 1) > 0 && Pow2(e + 1) % 2 == 0 && Pow2(1) == 2
    ensures e < k <==> Pow2(e + 1) <= Pow2(k)
    ensures e < k ==> Pow2(k) % Pow2(e + 1) == 0
  {
    Pow2Order(e + 1, k);
    if e < k {
      Pow2Divides(k, e + 1);
    }
  }

  lemma {:induction false} Pow2Order(a: nat, b: nat)
    ensures a <= b <==> Pow2(a) <= Pow2(b)
  {
    if a > 0 && b > 0 {
      Pow2Order(a - 1, b - 1);
    }
  }

  /** On a signal with zero imaginary part the two arrays are left holding exactly its transform. */
  method Transform(re: array<real>, im: array<real>, k: nat, t: Trig)
    requires re != im && re.Length == im.Length == Pow2(k) && Lawful(t)
    requires forall p :: 0 <= p < im.Length ==> im[p] == 0.0
    modifies re, im
    ensures forall f :: 0 <= f < re.Length ==> Complex(re[f], im[f]) == Dft(t, old(re[..]), f)
  {
    ghost var x := re[..];
    Permute(re, k);
    forall p | 0 <= p < re.Length
      ensures Complex(re[..][p], im[..][p]) == Block(t, x, k, 0, p)
    {
      FirstBlock(t, x, k, p);
    }
    Stages(re, im, k, t, x);
    forall f | 0 <= f < re.Length
      ensures Complex(re[f], im[f]) == Dft(t, x, f)
    {
      assert Complex(re[..][f], im[..][f]) == Block(t, x, k, k, f);
      LastBlock(t, x, k, f);
    }
  }

  lemma LastBlock(t: Trig, x: seq<real>, k: nat, f: nat)
    requires |x| == Pow2(k) && f < |x|
    ensures Block(t, x, k, k, f) == Dft(t, x, f)
  {
    Quotient(f, Pow2(k), 0, f);
  }

  lemma FirstBlock(t: Trig, x: seq<real>, k: nat, p: nat)
    requires Lawful(t) && |x| == Pow2(k) && p < |x|
    ensures Block(t, x, k, 0, p) == Complex(x[Rev(k, p)], 0.0)
  {
    OneTerm(t, x, Rev(k, p), Pow2(k));
    assert Quot(p, 1) == p && Remainder(p, 1) == 0;
  }

  lemma OneTerm(t: Trig, x: seq<real>, o: nat, s: int)
    requires Lawful(t) && o < |x|
    ensures Sum(t, x, o, s, 1, 0, 1) == Complex(x[o], 0.0)
  {
    SumStep(t, x, o, s, 1, 0, 0);
    assert o + 0 * s == o && 0 * 0 == 0;
    WHalf(t, 0, 1);
  }
}
