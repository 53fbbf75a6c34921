/** scripts/personas/audio.ts: envelopes and spectra of a live signal, told from its history alone. */
module AudioHistory {
  import opened Options
  import opened Fourier

  const SIZE: nat := 1024

  /** A sample as delivered; `None` when it is not finite. */
  type Raw = Option<real>

  /**
   * What the analysis is made of: samples per hop, the trigonometric tables, the taper applied before the transform,
   * and the arithmetic that turns a window, its spectrum, an energy and a peak into the next frame.
   */
  datatype Lab<!F> = Lab(hop: nat, trig: Trig, taper: nat -> real, start: F,
                        judge: (F, seq<real>, seq<real>, seq<real>, real, real) -> F)

  function Clean(x: Raw): real {
    if x.None? then 0.0 else if x.value < -1.0 then -1.0 else if x.value > 1.0 then 1.0 else x.value
  }

  function Last(ys: seq<real>): real {
    if ys == [] then 0.0 else ys[|ys| - 1]
  }

  function LastClean(xs: seq<Raw>): real {
    if xs == [] then 0.0 else Clean(xs[|xs| - 1])
  }

  /** The high-pass filter, as a recurrence over everything heard. */
  function Filtered(xs: seq<Raw>): (ys: seq<real>)
    ensures |ys| == |xs|
  {
    if xs == [] then [] else
    var before := xs[..|xs| - 1];
    var ys := Filtered(before);
    ys + [Clean(xs[|xs| - 1]) - LastClean(before) + 0.995 * Last(ys)]
  }

  lemma FilteredNext(xs: seq<Raw>, x: Raw)
    ensures var y := Clean(x) - LastClean(xs) + 0.995 * Last(Filtered(xs));
      && Filtered(xs + [x]) == Filtered(xs) + [y] && Last(Filtered(xs + [x])) == y && LastClean(xs + [x]) == Clean(x)
  {
    assert (xs + [x])[..|xs|] == xs;
  }

  /** The `i`th of the last 1024 values, with silence before the first. */
  function Recent(ys: seq<real>, i: int): real {
    var at := |ys| - SIZE + i;
    if 0 <= at < |ys| then ys[at] else 0.0
  }

  function Window(ys: seq<real>): (w: seq<real>)
    ensures |w| == SIZE && forall i :: 0 <= i < SIZE ==> w[i] == Recent(ys, i)
  {
    seq(SIZE, i => Recent(ys, i))
  }

  function Energy(ys: seq<real>): real {
    if ys == [] then 0.0 else Energy(ys[..|ys| - 1]) + ys[|ys| - 1] * ys[|ys| - 1]
  }

  function Abs(x: real): real {
    if x < 0.0 then -x else x
  }

  function Max(a: real, b: real): real {
    if a < b then b else a
  }

  function Peak(ys: seq<real>): real {
    if ys == [] then 0.0 else Max(Peak(ys[..|ys| - 1]), Abs(ys[|ys| - 1]))
  }

  function Tapered(taper: nat -> real, w: seq<real>): (x: seq<real>)
    ensures |x| == |w| && forall i :: 0 <= i < |w| ==> x[i] == w[i] * taper(i)
  {
    seq(|w|, i requires 0 <= i < |w| => w[i] * taper(i))
  }

  ghost function SpectrumRe(trig: Trig, x: seq<real>): (s: seq<real>)
    ensures |s| == |x| && forall f :: 0 <= f < |x| ==> s[f] == Dft(trig, x, f).re
  {
    seq(|x|, f => Dft(trig, x, f).re)
  }

  ghost function SpectrumIm(trig: Trig, x: seq<real>): (s: seq<real>)
    ensures |s| == |x| && forall f :: 0 <= f < |x| ==> s[f] == Dft(trig, x, f).im
  {
    seq(|x|, f => Dft(trig, x, f).im)
  }

  /** One analysis: the window's transform and the hop's energy and peak. */
  ghost function Judged<F>(lab: Lab<F>, frame: F, window: seq<real>, hop: seq<real>): F {
    var x := Tapered(lab.taper, window);
    lab.judge(frame, window, SpectrumRe(lab.trig, x), SpectrumIm(lab.trig, x), Energy(hop), Peak(hop))
  }

  lemma HopsFit(n: nat, m: nat, hop: nat)
    requires n <= m
    ensures n * hop <= m * hop
  {
  }

  // What the measures are.

  /** A value that is not finite counts as silence; any other is brought into the range from -1 to 1. */
  function Brought(x: Raw): (y: real)
    ensures x.None? ==> y == 0.0
    ensures x.Some? ==> -1.0 <= y <= 1.0 && (-1.0 <= x.value <= 1.0 ==> y == x.value)
    ensures x.Some? ==> (x.value > 1.0 ==> y == 1.0) && (x.value < -1.0 ==> y == -1.0)
  {
    if x.None? then 0.0 else if x.value > 1.0 then 1.0 else if x.value < -1.0 then -1.0 else x.value
  }

  /** The filter, sample by sample: the change of the input plus 0.995 of what it gave before. */
  lemma {:induction false} FilterIs(xs: seq<Raw>, n: nat)
    requires n < |xs|
    ensures var x, w := Brought(xs[n]), if n == 0 then 0.0 else Brought(xs[n - 1]);
      Filtered(xs)[n] == x - w + 0.995 * if n == 0 then 0.0 else Filtered(xs)[n - 1]
  {
    var last := |xs| - 1;
    if n < last {
      FilterIs(xs[..last], n);
    } else {
      assert LastClean(xs[..last]) == if n == 0 then 0.0 else Clean(xs[n - 1]);
    }
  }

  /** The window is the last 1024 values, the newest last, with silence before the first. */
  lemma WindowIs(ys: seq<real>, i: nat)
    requires i < 1024
    ensures Window(ys)[i] == if |ys| + i >= 1024 then ys[|ys| + i - 1024] else 0.0
  {
  }

  /** Energies add up over any cut, and that of one value is its square. */
  lemma {:induction false} EnergyAdds(a: seq<real>, b: seq<real>)
    ensures Energy(a + b) == Energy(a) + Energy(b) && Energy([]) == 0.0
    ensures |b| == 1 ==> Energy(b) == b[0] * b[0]
    decreases |b|
  {
    if b == [] {
      assert a + b == a;
    } else {
      assert (a + b)[..|a + b| - 1] == a + b[..|b| - 1];
      EnergyAdds(a, b[..|b| - 1]);
    }
  }

  /** The peak bounds every value, and is reached unless there is none. */
  lemma {:induction false} PeakReached(ys: seq<real>)
    ensures forall i :: 0 <= i < |ys| ==> -Peak(ys) <= ys[i] <= Peak(ys)
    ensures if ys == [] then Peak(ys) == 0.0
            else exists i :: 0 <= i < |ys| && (ys[i] == Peak(ys) || ys[i] == -Peak(ys))
  {
    if ys != [] {
      var init, last := ys[..|ys| - 1], |ys| - 1;
      PeakReached(init);
      if init != [] && Peak(ys) == Peak(init) {
        var i :| 0 <= i < |init| && (init[i] == Peak(init) || init[i] == -Peak(init));
        assert ys[i] == init[i];
      } else {
        assert ys[last] == Peak(ys) || ys[last] == -Peak(ys);
      }
    }
  }

  /** The frame after `n` whole hops: each is judged once, when its last sample arrives. */
  ghost function FrameAt<F>(lab: Lab<F>, ys: seq<real>, n: nat): F
    requires n * lab.hop <= |ys|
  {
    if n == 0 then lab.start else
    HopsFit(n - 1, n, lab.hop);
    Judged(lab, FrameAt(lab, ys, n - 1), Window(ys[..n * lab.hop]), ys[(n - 1) * lab.hop..n * lab.hop])
  }

  lemma {:induction false} FramePrefix<F>(lab: Lab<F>, ys: seq<real>, more: seq<real>, n: nat)
    requires n * lab.hop <= |ys| <= |more| && more[..|ys|] == ys
    ensures FrameAt(lab, more, n) == FrameAt(lab, ys, n)
  {
    if n > 0 {
      HopsFit(n - 1, n, lab.hop);
      FramePrefix(lab, ys, more, n - 1);
      assert more[..n * lab.hop] == more[..|ys|][..n * lab.hop];
      assert more[(n - 1) * lab.hop..n * lab.hop] == more[..|ys|][(n - 1) * lab.hop..n * lab.hop];
    }
  }

  lemma {:induction false} FilteredPrefix(xs: seq<Raw>, n: nat)
    requires n <= |xs|
    ensures Filtered(xs)[..n] == Filtered(xs[..n])
  {
    if n == |xs| {
      assert xs[..n] == xs;
    } else {
      FilteredPrefix(xs[..|xs| - 1], n);
      assert xs[..|xs| - 1][..n] == xs[..n];
    }
  }

  /** The number of whole hops is determined by how much was heard. */
  lemma HopsUnique(n: nat, c: nat, m: nat, d: nat, hop: nat)
    requires n * hop + c == m * hop + d && c < hop && d < hop
    ensures n == m && c == d
  {
    if n < m {
      HopsFit(n + 1, m, hop);
    } else if m < n {
      HopsFit(m + 1, n, hop);
    }
  }
}

module AudioAnalyzer {
  import opened AudioHistory
  import opened ComplexNumbers
  import opened Fourier
  import opened BitReversal
  import Fft

  lemma SizeIsPower()
    ensures Pow2(10) == SIZE
  {
  }

  /** The ring lays out the window from the cursor on. */
  ghost predicate Laid(ring: seq<real>, cursor: nat, ys: seq<real>) {
    && |ring| == SIZE && cursor < SIZE
    && forall i :: 0 <= i < SIZE ==> ring[(cursor + i) % SIZE] == Recent(ys, i)
  }

  lemma Wrapped(cursor: nat, i: nat)
    requires cursor < SIZE && i < SIZE
    ensures ((cursor + 1) % SIZE + i) % SIZE == (cursor + 1 + i) % SIZE
    ensures (cursor + 1 + i) % SIZE == cursor <==> i == SIZE - 1
  {
  }

  lemma LaidNext(ring: seq<real>, cursor: nat, ys: seq<real>, y: real)
    requires Laid(ring, cursor, ys)
    ensures Laid(ring[cursor := y], (cursor + 1) % SIZE, ys + [y])
  {
    var next := ring[cursor := y];
    forall i | 0 <= i < SIZE
      ensures next[((cursor + 1) % SIZE + i) % SIZE] == Recent(ys + [y], i)
    {
      Wrapped(cursor, i);
      if i < SIZE - 1 {
        assert ring[(cursor + (i + 1)) % SIZE] == Recent(ys, i + 1);
      }
    }
  }

  /** The hop in progress, and the frame of the last whole one. */
  ghost predicate Counting<F>(lab: Lab<F>, ys: seq<real>, hops: nat, count: nat, sum: real, peak: real, frame: F) {
    && |ys| == hops * lab.hop + count && count < lab.hop
    && sum == Energy(ys[|ys| - count..]) && peak == Peak(ys[|ys| - count..])
    && frame == FrameAt(lab, ys, hops)
  }

  class AudioAnalyzer<F> {
    const lab: Lab<F>
    const rate: nat
    const ring: array<real>
    const re: array<real>
    const im: array<real>
    var frame: F
    var cursor: nat
    var count: nat
    var sum: real
    var peak: real
    var previousSample: real
    var highPass: real
    ghost var heard: seq<Raw>
    ghost var hops: nat

    ghost predicate Tuned() {
      lab.hop > 0 && Lawful(lab.trig) && re.Length == im.Length == SIZE && ring != re && ring != im && re != im
    }

    /** The filter's memory and the ring agree with everything heard. */
    ghost predicate Filtering()
      reads this, ring
    {
      && Laid(ring[..], cursor, Filtered(heard))
      && previousSample == LastClean(heard) && highPass == Last(Filtered(heard))
    }

    ghost predicate Valid()
      reads this, ring
    {
      Tuned() && Filtering() && Counting(lab, Filtered(heard), hops, count, sum, peak, frame)
    }

    constructor (lab: Lab<F>, rate: nat)
      requires lab.hop > 0 && Lawful(lab.trig)
      ensures Valid() && heard == [] && frame == lab.start && this.lab == lab && this.rate == rate
      ensures fresh(ring) && fresh(re) && fresh(im)
    {
      this.lab, this.rate, frame := lab, rate, lab.start;
      ring, re, im := new real[SIZE](_ => 0.0), new real[SIZE](_ => 0.0), new real[SIZE](_ => 0.0);
      cursor, count, sum, peak, previousSample, highPass := 0, 0, 0.0, 0.0, 0.0, 0.0;
      heard, hops := [], 0;
    }

    /** The most recent values, oldest first, and the same tapered for the transform. */
    method FillWindow(ghost ys: seq<real>) returns (window: seq<real>)
      requires Laid(ring[..], cursor, ys)
      requires re.Length == im.Length == SIZE && ring != re && ring != im && re != im
      modifies re, im
      ensures window == Window(ys) && re[..] == Tapered(lab.taper, window)
      ensures forall p :: 0 <= p < im.Length ==> im[p] == 0.0
    {
      window := [];
      var i := 0;
      while i < SIZE
        invariant i <= SIZE && Laid(ring[..], cursor, ys) && Filled(lab.taper, ys, window, re[..], im[..], i)
      {
        LaidAt(ring[..], cursor, ys, i);
        hide Laid, Recent, Filled;
        var value := ring[(cursor + i) % SIZE];
        FilledMore(lab.taper, ys, window, re[..], im[..], value);
        re[i] := value * lab.taper(i);
        im[i] := 0.0;
        window := window + [value];
        i := i + 1;
      }
      hide Laid, Recent;
      assert window == Window(ys);
      assert forall p :: 0 <= p < SIZE ==> re[..][p] == Tapered(lab.taper, window)[p];
    }

    /** What the next frame is made from; the transform in place is the transform of the window. */
    method Analyze(ghost ys: seq<real>, ghost hop: seq<real>)
      requires Laid(ring[..], cursor, ys) && Lawful(lab.trig)
      requires re.Length == im.Length == SIZE && ring != re && ring != im && re != im
      requires sum == Energy(hop) && peak == Peak(hop)
      modifies re, im, this`frame, this`count, this`sum, this`peak
      ensures frame == Judged(lab, old(frame), Window(ys), hop) && count == 0 && sum == 0.0 && peak == 0.0
    {
      hide Laid, Lawful, Recent;
      var window := FillWindow(ys);
      ghost var x := re[..];
      SizeIsPower();
      Fft.Transform(re, im, 10, lab.trig);
      SpectrumIs(lab.trig, x, re[..], im[..]);
      frame := lab.judge(frame, window, re[..], im[..], sum, peak);
      count, sum, peak := 0, 0.0, 0.0;
    }

    method Filter(value: Raw) returns (filtered: real)
      requires Filtering()
      modifies this`heard, this`previousSample, this`highPass, this`cursor, ring
      ensures Filtering() && heard == old(heard) + [value]
      ensures Filtered(heard) == Filtered(old(heard)) + [filtered]
    {
      ghost var was := heard;
      var sample := Clean(value);
      filtered := sample - previousSample + 0.995 * highPass;
      heard := heard + [value];
      FilteredNext(was, value);
      LaidNext(ring[..], cursor, Filtered(was), filtered);
      hide Laid, Filtered, Clean, LastClean, Last;
      previousSample, highPass := sample, filtered;
      ring[cursor] := filtered;
      cursor := (cursor + 1) % SIZE;
      assert ring[..] == old(ring[..])[old(cursor) := filtered];
    }

    /** One sample: filtered, kept in the ring, added to the hop, and judged when the hop is whole. */
    method Hear(value: Raw)
      requires Valid()
      modifies this, ring, re, im
      ensures Valid() && heard == old(heard) + [value]
    {
      hide Laid, Filtered, Counting;
      ghost var ys := Filtered(heard);
      var filtered := Filter(value);
      ghost var next := Filtered(heard);
      CountNext(lab, ys, filtered, hops, count, sum, peak, frame);
      sum := sum + filtered * filtered;
      peak := Max(peak, Abs(filtered));
      count := count + 1;
      if count == lab.hop {
        ghost var hop := next[|next| - lab.hop..];
        Analyze(next, hop);
        hops := hops + 1;
      }
    }

    /** A chunk of at most two seconds; a longer one is refused whole. */
    method Push(samples: seq<Raw>) returns (ok: bool)
      requires Valid()
      modifies this, ring, re, im
      ensures Valid() && (ok <==> |samples| <= rate * 2)
      ensures heard == if ok then old(heard) + samples else old(heard)
      ensures !ok ==> frame == old(frame)
    {
      hide Tuned, Filtering, Counting;
      if |samples| > rate * 2 {
        return false;
      }
      var i := 0;
      while i < |samples|
        invariant 0 <= i <= |samples| && Valid() && heard == old(heard) + samples[..i]
      {
        Hear(samples[i]);
        i := i + 1;
      }
      assert samples[..i] == samples;
      ok := true;
    }
  }

  /**
   * Two analysers that have heard the same samples show the same frame and stand at the same point of the same hop,
   * however the samples were cut into chunks.
   */
  lemma ChunkingIsInvisible<F>(a: AudioAnalyzer<F>, b: AudioAnalyzer<F>)
    requires a.Valid() && b.Valid() && a.lab == b.lab && a.heard == b.heard
    ensures a.frame == b.frame && a.count == b.count && a.sum == b.sum && a.peak == b.peak
    ensures a.previousSample == b.previousSample && a.highPass == b.highPass
  {
    hide Filtered;
    OneCount(a.lab, Filtered(a.heard), a.hops, a.count, a.sum, a.peak, a.frame,
             b.hops, b.count, b.sum, b.peak, b.frame);
  }

  lemma OneCount<F>(lab: Lab<F>, ys: seq<real>, h: nat, c: nat, s: real, p: real, f: F,
                    k: nat, d: nat, t: real, q: real, g: F)
    requires lab.hop > 0 && Counting(lab, ys, h, c, s, p, f) && Counting(lab, ys, k, d, t, q, g)
    ensures h == k && c == d && s == t && p == q && f == g
  {
    HopsUnique(h, c, k, d, lab.hop);
    hide Energy, Peak, FrameAt;
  }

  lemma HopNext(ys: seq<real>, y: real, count: nat)
    requires count <= |ys|
    ensures var hop, longer := ys[|ys| - count..], (ys + [y])[|ys| - count..];
      Energy(longer) == Energy(hop) + y * y && Peak(longer) == Max(Peak(hop), Abs(y))
  {
    var hop, longer := ys[|ys| - count..], (ys + [y])[|ys| - count..];
    assert longer == hop + [y] && longer[..count] == hop;
  }

  lemma LastHop<F>(lab: Lab<F>, ys: seq<real>, n: nat)
    requires n * lab.hop <= (n + 1) * lab.hop <= |ys|
    ensures FrameAt(lab, ys, n + 1)
         == Judged(lab, FrameAt(lab, ys, n), Window(ys[..(n + 1) * lab.hop]), ys[n * lab.hop..(n + 1) * lab.hop])
  {
    hide Window, Judged;
  }

  lemma HopWhole<F>(lab: Lab<F>, ys: seq<real>, y: real, hops: nat)
    requires lab.hop > 0 && |ys| + 1 == (hops + 1) * lab.hop
    ensures hops * lab.hop <= |ys| && lab.hop <= |ys| + 1
    ensures FrameAt(lab, ys + [y], hops + 1)
         == Judged(lab, FrameAt(lab, ys, hops), Window(ys + [y]), (ys + [y])[|ys| + 1 - lab.hop..])
  {
    hide Window, Judged, FrameAt;
    var next := ys + [y];
    var from, to := hops * lab.hop, (hops + 1) * lab.hop;
    assert to == from + lab.hop == |next|;
    FramePrefix(lab, ys, next, hops);
    LastHop(lab, next, hops);
    assert next[..to] == next && next[from..to] == next[|ys| + 1 - lab.hop..];
  }

  lemma CountNext<F>(lab: Lab<F>, ys: seq<real>, y: real, hops: nat, count: nat, sum: real, peak: real, frame: F)
    requires lab.hop > 0 && Counting(lab, ys, hops, count, sum, peak, frame)
    ensures count + 1 <= |ys| + 1 && count + 1 <= lab.hop
    ensures var next := ys + [y];
      && sum + y * y == Energy(next[|next| - count - 1..]) && Max(peak, Abs(y)) == Peak(next[|next| - count - 1..])
      && if count + 1 < lab.hop then Counting(lab, next, hops, count + 1, sum + y * y, Max(peak, Abs(y)), frame)
         else Counting(lab, next, hops + 1, 0, 0.0, 0.0, Judged(lab, frame, Window(next), next[|next| - lab.hop..]))
  {
    hide FrameAt, Judged, Window, Energy, Peak, Max, Abs;
    var next := ys + [y];
    HopsFit(0, hops, lab.hop);
    HopNext(ys, y, count);
    FramePrefix(lab, ys, next, hops);
    assert (hops + 1) * lab.hop == hops * lab.hop + lab.hop;
    if count + 1 == lab.hop {
      HopWhole(lab, ys, y, hops);
      assert next[|next|..] == [];
      NoHop();
    }
  }

  lemma NoHop()
    ensures Energy([]) == 0.0 && Peak([]) == 0.0
  {
  }

  /** The first `i` values of the window, the same tapered, and no imaginary part. */
  ghost predicate Filled(taper: nat -> real, ys: seq<real>, window: seq<real>, re: seq<real>, im: seq<real>, i: nat) {
    && |re| == |im| == SIZE && |window| == i <= SIZE
    && (forall p :: 0 <= p < i ==> window[p] == Recent(ys, p) && re[p] == window[p] * taper(p) && im[p] == 0.0)
  }

  lemma FilledMore(taper: nat -> real, ys: seq<real>, window: seq<real>, re: seq<real>, im: seq<real>, value: real)
    requires |window| < SIZE && Filled(taper, ys, window, re, im, |window|) && value == Recent(ys, |window|)
    ensures var i := |window|;
      Filled(taper, ys, window + [value], re[i := value * taper(i)], im[i := 0.0], i + 1)
  {
    hide Recent;
  }

  lemma LaidAt(ring: seq<real>, cursor: nat, ys: seq<real>, i: nat)
    requires Laid(ring, cursor, ys) && i < SIZE
    ensures |ring| == SIZE && cursor < SIZE && ring[(cursor + i) % SIZE] == Recent(ys, i)
  {
  }

  lemma SpectrumIs(trig: Trig, x: seq<real>, re: seq<real>, im: seq<real>)
    requires |re| == |im| == |x| && forall f :: 0 <= f < |x| ==> Complex(re[f], im[f]) == Dft(trig, x, f)
    ensures re == SpectrumRe(trig, x) && im == SpectrumIm(trig, x)
  {
    hide Dft;
    forall f | 0 <= f < |x|
      ensures re[f] == SpectrumRe(trig, x)[f] && im[f] == SpectrumIm(trig, x)[f]
    {
      assert Complex(re[f], im[f]) == Dft(trig, x, f);
    }
  }
}
