/** The `Math` functions the layout code uses, over exact reals, and the `clamp` helper of the chart widgets. */
module Numbers {

  function Max(a: real, b: real): real { if a >= b then a else b }
  function Min(a: real, b: real): real { if a <= b then a else b }
  function Abs(a: real): real { if a < 0.0 then -a else a }

  /** `Math.floor`. */
  function Floor(x: real): (n: int)
    ensures n as real <= x < n as real + 1.0
  {
    x.Floor
  }

  /** `Math.ceil`. */
  function Ceil(x: real): (n: int)
    ensures n as real - 1.0 < x <= n as real
  {
    -((-x).Floor)
  }

  /** `Math.round`: halves round towards +infinity (`Math.round(-2.5) == -2`). */
  function Round(x: real): (n: int)
    ensures x - 0.5 < n as real <= x + 0.5
  {
    (x + 0.5).Floor
  }

  /** Rounding an integer gives it back. */
  lemma RoundInt(k: int)
    ensures Round(k as real) == k
  {
  }

  /** A product with a positive factor is zero only when the other factor is. */
  lemma ZeroFactor(x: real, step: real)
    requires step > 0.0 && x * step == 0.0
    ensures x == 0.0
  {
  }

  /** Multiplying by a positive factor keeps strict order. */
  lemma MulStrict(a: real, b: real, step: real)
    requires step > 0.0
    ensures a < b <==> a * step < b * step
  {
  }

  lemma QuotientBelow(span: real, step: real, b: real)
    requires step > 0.0 && span < b * step
    ensures span / step < b
  {
    var q := span / step;
    assert q * step == span;
    MulStrict(q, b, step);
  }

  lemma QuotientAtLeast(span: real, step: real, b: real)
    requires step > 0.0 && b * step <= span
    ensures b <= span / step
  {
    var q := span / step;
    assert q * step == span;
    MulStrict(q, b, step);
  }

  /** `k` is the floor of `span / step` when `span` lies in `[k * step, (k + 1) * step)`. */
  lemma FloorBetween(span: real, step: real, k: int)
    requires step > 0.0
    requires k as real * step <= span < (k + 1) as real * step
    ensures Floor(span / step) == k
  {
    QuotientBelow(span, step, (k + 1) as real);
    QuotientAtLeast(span, step, k as real);
  }

  /** Taking one step off the numerator takes one off the quotient. */
  lemma DivShift(a: real, step: real)
    requires step > 0.0
    ensures (a - step) / step == a / step - 1.0
  {
    var q := a / step;
    var r := (a - step) / step;
    assert q * step == a;
    assert r * step == a - step;
    assert (r - (q - 1.0)) * step == 0.0;
    ZeroFactor(r - (q - 1.0), step);
  }

  /** `x / k` and `x % k` are the quotient and remainder `x` is written with. */
  lemma DivModUnique(x: int, q: int, m: int, k: int)
    requires k > 0 && 0 <= m < k && x == q * k + m
    ensures x / k == q && x % k == m
  {
    var q2 := x / k;
    var m2 := x % k;
    assert (q - q2) * k == m2 - m;
    if q > q2 {
      MulAtLeast(q - q2, k);
    } else if q < q2 {
      MulAtLeast(q2 - q, k);
    }
  }

  /** A positive multiple of `k` is at least `k`. */
  lemma {:induction false} MulAtLeast(a: int, k: int)
    requires a >= 1 && k > 0
    ensures a * k >= k
  {
    if a > 1 {
      MulAtLeast(a - 1, k);
      assert a * k == (a - 1) * k + k;
    }
  }

  /** `clamp(v, a, b) = Math.min(b, Math.max(a, v))`, as written in both chart widgets. */
  function Clamp(v: real, lo: real, hi: real): (r: real)
    ensures r <= hi
    ensures lo <= hi ==> lo <= r
    ensures lo <= v <= hi ==> r == v
    ensures v < lo <= hi ==> r == lo
    ensures lo <= hi < v ==> r == hi
  {
    Min(hi, Max(lo, v))
  }

  /** Clamping keeps order. */
  lemma ClampMonotone(a: real, b: real, lo: real, hi: real)
    requires a <= b
    ensures Clamp(a, lo, hi) <= Clamp(b, lo, hi)
  {
  }

  /** A JavaScript number: `NaN` and the infinities are the non-finite ones. */
  datatype Num = Finite(value: real) | NonFinite

  /** `Number.isFinite(v) ? v : 0`. */
  function Sanitize(n: Num): real {
    match n
    case Finite(v) => v
    case NonFinite => 0.0
  }
}
