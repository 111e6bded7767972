/** Small shared vocabulary: results, saturating and rounding arithmetic. */
module Prelude {

  datatype Option<+T> = None | Some(value: T)

  /** The outcome of a fallible call; usable with `:-`. */
  datatype Result<+T, +E> = Ok(value: T) | Err(error: E) {
    predicate IsFailure() { Err? }

    function PropagateFailure<U>(): Result<U, E>
      requires Err?
    {
      Err(error)
    }

    function Extract(): T
      requires Ok?
    {
      value
    }
  }

  function Min(a: nat, b: nat): nat { if a <= b then a else b }

  function Max(a: nat, b: nat): nat { if a <= b then b else a }

  /** Subtraction that stops at zero instead of failing. */
  function SatSub(a: nat, b: nat): nat { if a < b then 0 else a - b }

  /** `a * b / d`, rounded down. */
  function MulDiv(a: nat, b: nat, d: nat): (q: nat)
    requires d > 0
  {
    a * b / d
  }

  lemma {:induction false} MulDivBounds(a: nat, b: nat, d: nat)
    requires d > 0
    ensures MulDiv(a, b, d) * d <= a * b
    ensures a * b < MulDiv(a, b, d) * d + d
  {
  }

  /** `q` is `a * b / d` rounded down, said without dividing. */
  predicate IsQuotient(q: nat, a: nat, b: nat, d: nat) { q * d <= a * b < (q + 1) * d }

  lemma {:induction false} MulDivIsQuotient(a: nat, b: nat, d: nat)
    requires d > 0
    ensures IsQuotient(MulDiv(a, b, d), a, b, d)
  {
    MulDivBounds(a, b, d);
    assert (MulDiv(a, b, d) + 1) * d == MulDiv(a, b, d) * d + d;
  }

  /** There is only one such number. */
  lemma {:induction false} OneQuotient(p: nat, q: nat, a: nat, b: nat, d: nat)
    requires IsQuotient(p, a, b, d) && IsQuotient(q, a, b, d)
    ensures p == q
  {
    if p < q {
      MulMono(p + 1, q, d);
    } else if q < p {
      MulMono(q + 1, p, d);
    }
  }

  /** The quotient is the largest number whose product with `d` fits under `a * b`. */
  lemma {:induction false} MulDivLargest(a: nat, b: nat, d: nat, q: nat)
    requires d > 0 && q * d <= a * b
    ensures q <= MulDiv(a, b, d)
  {
    MulDivBounds(a, b, d);
    if q > MulDiv(a, b, d) {
      MulMono(MulDiv(a, b, d) + 1, q, d);
    }
  }

  lemma {:induction false} MulMono(x: int, y: int, d: nat)
    requires x <= y
    ensures x * d <= y * d
  {
  }

  /** Cancelling a positive factor. */
  lemma {:induction false} MulCancel(x: int, y: int, d: nat)
    requires x * d < y * d
    ensures x < y
  {
    if y <= x {
      MulMono(y, x, d);
    }
  }

  lemma {:induction false} MulCancelLe(x: int, y: int, d: nat)
    requires d > 0 && x * d <= y * d
    ensures x <= y
  {
    if y + 1 <= x {
      MulMono(y + 1, x, d);
    }
  }

  /** `a / b`, rounded up. */
  function DivCeil(a: nat, b: nat): (q: nat)
    requires b > 0
  {
    if a % b == 0 then a / b else a / b + 1
  }

  /** `DivCeil` is the least number of steps of length `b` that covers `a`. */
  lemma {:induction false} DivCeilLeast(a: nat, b: nat, k: nat)
    requires b > 0
    ensures k < DivCeil(a, b) <==> k * b < a
  {
    var q, r := a / b, a % b;
    assert a == q * b + r;
    if k < q {
      MulMono(k + 1, q, b);
    } else {
      MulMono(q, k, b);
      if k > q {
        MulMono(q + 1, k, b);
      }
    }
  }

  ghost predicate Distinct<T>(s: seq<T>) {
    forall i, j :: 0 <= i < j < |s| ==> s[i] != s[j]
  }

  /** Indices where a predicate-free sequence of keys holds `x`; `|s|` when absent. */
  function IndexOf<T(==)>(s: seq<T>, x: T): (i: nat)
    ensures i <= |s|
    ensures i < |s| <==> x in s
    ensures i < |s| ==> s[i] == x
    ensures forall j :: 0 <= j < i ==> s[j] != x
  {
    if s == [] then 0 else if s[0] == x then 0 else 1 + IndexOf(s[1..], x)
  }
}
