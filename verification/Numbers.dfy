/** The numbers of the scripts' language, as fractions. */
module Numbers {
  const MAX_SAFE := 0x1F_FFFF_FFFF_FFFF

  type Positive = n: int | n > 0 witness 1
  type Safe = n: int | -MAX_SAFE <= n <= MAX_SAFE
  type Size = n: nat | n <= MAX_SAFE

  function PowerOfTwo(n: nat): Positive { if n == 0 then 1 else 2 * PowerOfTwo(n - 1) }

  datatype Ratio = Ratio(units: int, parts: Positive)

  /** The fraction `significand * 2^up / 2^down`, in lowest terms. */
  predicate Scaled(r: Ratio, significand: Safe, up: nat, down: nat) {
    && r.units == significand * PowerOfTwo(up) && r.parts == PowerOfTwo(down)
    && (down == 0 || (up == 0 && significand % 2 == 1))
  }

  /** The finite numbers of the scripts' language (IEEE 754, binary64), each as one fraction. */
  ghost predicate IsDouble(r: Ratio) {
    || (r.parts == 1 && -MAX_SAFE <= r.units <= MAX_SAFE)
    || exists significand: Safe, up: nat, down: nat :: up <= 971 && down <= 1074 && Scaled(r, significand, up, down)
  }

  type Number = r: Ratio | IsDouble(r) witness Ratio(0, 1)

  // ---------------------------------------------------------------- one form each

  lemma {:induction false} PowersDivide(low: nat, high: nat)
    requires low < high
    ensures PowerOfTwo(high) % 2 == 0
    ensures PowerOfTwo(high) == PowerOfTwo(low) * PowerOfTwo(high - low)
  {
    if low + 1 < high { PowersDivide(low, high - 1); }
  }

  lemma Whichever(r: Ratio) returns (significand: Safe, up: nat, down: nat)
    requires IsDouble(r)
    ensures Scaled(r, significand, up, down)
  {
    if r.parts == 1 && -MAX_SAFE <= r.units <= MAX_SAFE {
      significand, up, down := r.units, 0, 0;
    } else {
      significand, up, down :| up <= 971 && down <= 1074 && Scaled(r, significand, up, down);
    }
  }

  /** Equal numbers have equal forms. */
  lemma OneFormPerNumber(a: Ratio, b: Ratio)
    requires IsDouble(a) && IsDouble(b) && a.units * b.parts == b.units * a.parts
    ensures a == b
  {
    hide IsDouble, Scaled, PowerOfTwo;
    var m, up, down := Whichever(a);
    var n, up', down' := Whichever(b);
    if down < down' { NotLower(a, b, m, up, down, n, up', down'); }
    if down' < down { NotLower(b, a, n, up', down', m, up, down); }
    assert a.parts == b.parts by { ScaledParts(a, m, up, down); ScaledParts(b, n, up', down'); }
    Cancel(a.units, b.units, a.parts);
  }

  lemma ScaledParts(r: Ratio, significand: Safe, up: nat, down: nat)
    requires Scaled(r, significand, up, down)
    ensures r.parts == PowerOfTwo(down)
  {
  }

  lemma Cancel(x: int, y: int, p: Positive)
    requires x * p == y * p
    ensures x == y
  {
  }

  /** A fraction in lowest terms does not equal one with a larger denominator. */
  lemma NotLower(a: Ratio, b: Ratio, m: Safe, up: nat, down: nat, n: Safe, up': nat, down': nat)
    requires Scaled(a, m, up, down) && Scaled(b, n, up', down') && down < down'
    ensures a.units * b.parts != b.units * a.parts
  {
    hide PowerOfTwo;
    var half := PowerOfTwo(down' - down);
    PowersDivide(down, down');
    PowersDivide(0, down' - down);
    assert PowerOfTwo(0) == 1 by { PowerZero(); }
    assert b.units == n;
    if a.units * b.parts == b.units * a.parts {
      assert a.units * (a.parts * half) == (a.units * half) * a.parts;
      Cancel(a.units * half, n, a.parts);
      EvenProduct(a.units, half);
      assert false;
    }
  }

  lemma PowerZero()
    ensures PowerOfTwo(0) == 1
  {
  }

  lemma EvenProduct(x: int, y: int)
    requires y % 2 == 0
    ensures (x * y) % 2 == 0
  {
    assert x * y == 2 * (x * (y / 2));
  }
}
