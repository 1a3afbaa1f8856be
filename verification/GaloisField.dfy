/**
 The field GF(2^128) of section 6.3 of NIST SP 800-38D, over coefficient sequences.
 Element bit i is the coefficient of x^i, the bit order GCM uses.  Multiplication by
 shift and conditional xor (Act) is related to the schoolbook product of polynomials
 (PolyMul) followed by reduction modulo x^128 + x^7 + x^2 + x + 1 (Class).
 */
module GaloisField {
  type Poly = seq<bool>

  type Elem = p: seq<bool> | |p| == 128 witness seq(128, _ => false)

  // The element x^n; zero when n is not below 128.
  function Monomial(n: int): (e: Elem)
    ensures forall i :: 0 <= i < 128 ==> e[i] == (i == n)
  {
    seq(128, i => i == n)
  }

  const ZERO := Monomial(-1)

  const ONE := Monomial(0)

  // x^128 reduced: x^7 + x^2 + x + 1.
  const R := Add(Add(Monomial(0), Monomial(1)), Add(Monomial(2), Monomial(7)))

  function Add(a: Elem, b: Elem): (c: Elem)
    ensures forall i :: 0 <= i < 128 ==> c[i] == (a[i] != b[i])
  {
    seq(128, i requires 0 <= i < 128 => a[i] != b[i])
  }

  function ShiftUp(a: Elem): (c: Elem)
    ensures !c[0] && forall i :: 1 <= i < 128 ==> c[i] == a[i - 1]
  {
    [false] + a[..127]
  }

  // Multiplication by x.
  function MulX(a: Elem): Elem {
    if a[127] then Add(ShiftUp(a), R) else ShiftUp(a)
  }

  function Scale(c: bool, v: Elem): Elem {
    if c then v else ZERO
  }

  // The polynomial p applied to v: the sum of p[i] * x^i * v.
  function Act(p: Poly, v: Elem): Elem {
    if p == [] then ZERO else Add(Scale(p[0], v), Act(p[1..], MulX(v)))
  }

  function Mul(a: Elem, b: Elem): Elem {
    Act(a, b)
  }

  // ----- Additive laws

  lemma AddLaws(a: Elem, b: Elem, c: Elem, d: Elem)
    ensures Add(a, b) == Add(b, a)
    ensures Add(a, ZERO) == a && Add(ZERO, a) == a
    ensures Add(a, a) == ZERO
    ensures Add(Add(a, b), c) == Add(a, Add(b, c))
    ensures Add(Add(a, b), Add(c, d)) == Add(Add(a, c), Add(b, d))
  {
  }

  lemma MulXAdd(a: Elem, b: Elem)
    ensures MulX(Add(a, b)) == Add(MulX(a), MulX(b))
  {
    assert ShiftUp(Add(a, b)) == Add(ShiftUp(a), ShiftUp(b));
  }

  lemma MulXZero()
    ensures MulX(ZERO) == ZERO
  {
  }

  lemma ScaleMulX(c: bool, v: Elem)
    ensures MulX(Scale(c, v)) == Scale(c, MulX(v))
  {
  }

  // ----- Act is linear, commutes with x and composes

  lemma {:induction false} ActAdd(p: Poly, v: Elem, w: Elem)
    ensures Act(p, Add(v, w)) == Add(Act(p, v), Act(p, w))
  {
    if p == [] {
      AddLaws(ZERO, ZERO, ZERO, ZERO);
    } else {
      MulXAdd(v, w);
      ActAdd(p[1..], MulX(v), MulX(w));
      AddLaws(ZERO, ZERO, ZERO, ZERO);
      AddLaws(Scale(p[0], v), Scale(p[0], w), Act(p[1..], MulX(v)), Act(p[1..], MulX(w)));
    }
  }

  lemma {:induction false} ActMulX(p: Poly, v: Elem)
    ensures Act(p, MulX(v)) == MulX(Act(p, v))
  {
    if p == [] {
      MulXZero();
    } else {
      ActMulX(p[1..], MulX(v));
      ScaleMulX(p[0], v);
      MulXAdd(Scale(p[0], v), Act(p[1..], MulX(v)));
    }
  }

  lemma {:induction false} ActZero(p: Poly)
    ensures Act(p, ZERO) == ZERO
  {
    if p != [] {
      MulXZero();
      ActZero(p[1..]);
      AddLaws(ZERO, ZERO, ZERO, ZERO);
    }
  }

  lemma ActScale(p: Poly, c: bool, v: Elem)
    ensures Act(p, Scale(c, v)) == Scale(c, Act(p, v))
  {
    ActZero(p);
  }

  lemma {:induction false} ActCommutes(p: Poly, q: Poly, v: Elem)
    ensures Act(p, Act(q, v)) == Act(q, Act(p, v))
  {
    if p == [] {
      ActZero(q);
    } else {
      calc {
        Act(p, Act(q, v));
        Add(Scale(p[0], Act(q, v)), Act(p[1..], MulX(Act(q, v))));
        { ActMulX(q, v); ActCommutes(p[1..], q, MulX(v)); ActScale(q, p[0], v); }
        Add(Act(q, Scale(p[0], v)), Act(q, Act(p[1..], MulX(v))));
        { ActAdd(q, Scale(p[0], v), Act(p[1..], MulX(v))); }
        Act(q, Act(p, v));
      }
    }
  }

  // ----- The residue class of a polynomial

  function Class(p: Poly): Elem {
    Act(p, ONE)
  }

  function XPower(n: nat): Elem {
    if n == 0 then ONE else MulX(XPower(n - 1))
  }

  lemma {:induction false} XPowerIsUnit(n: nat)
    requires n < 128
    ensures XPower(n) == Monomial(n)
  {
    if n > 0 {
      XPowerIsUnit(n - 1);
      assert ShiftUp(Monomial(n - 1)) == Monomial(n);
    }
  }

  lemma XPower128()
    ensures XPower(128) == R
  {
    XPowerIsUnit(127);
    assert ShiftUp(XPower(127)) == ZERO;
    AddLaws(R, ZERO, ZERO, ZERO);
  }

  // The coefficients of p * x^n.
  function Placed(p: Poly, n: nat): (e: Elem)
    ensures forall i :: 0 <= i < 128 ==> e[i] == (n <= i < n + |p| && p[i - n])
  {
    seq(128, i => n <= i < n + |p| && p[i - n])
  }

  lemma PlacedStep(p: Poly, n: nat)
    requires p != []
    ensures Placed(p, n) == Add(Scale(p[0], Monomial(n)), Placed(p[1..], n + 1))
  {
  }

  lemma {:induction false} ActOnPower(p: Poly, n: nat)
    requires n + |p| <= 128
    ensures Act(p, XPower(n)) == Placed(p, n)
  {
    if p == [] {
      assert Placed(p, n) == ZERO;
    } else {
      ActOnPower(p[1..], n + 1);
      XPowerIsUnit(n);
      PlacedStep(p, n);
    }
  }

  // A polynomial of degree below 128 is its own residue.
  lemma ClassOfElem(a: Elem)
    ensures Class(a) == a
  {
    ActOnPower(a, 0);
    assert Placed(a, 0) == a;
  }

  // ----- Schoolbook polynomial arithmetic, the independent reference

  function Coefficient(p: Poly, i: int): bool {
    0 <= i < |p| && p[i]
  }

  function PolyAdd(p: Poly, q: Poly): (r: Poly)
    ensures |r| == if |p| < |q| then |q| else |p|
    ensures forall i :: 0 <= i < |r| ==> r[i] == (Coefficient(p, i) != Coefficient(q, i))
  {
    var n := if |p| < |q| then |q| else |p|;
    seq(n, i => Coefficient(p, i) != Coefficient(q, i))
  }

  function PolyMul(p: Poly, q: Poly): Poly {
    if p == [] then [] else PolyAdd(if p[0] then q else [], [false] + PolyMul(p[1..], q))
  }

  // x^128 + x^7 + x^2 + x + 1
  const MODULUS: Poly := R + [true]

  lemma PolyAddSteps(p: Poly, q: Poly)
    ensures PolyAdd([], q) == q && PolyAdd(p, []) == p
    ensures p != [] && q != [] ==>
              PolyAdd(p, q)[1..] == PolyAdd(p[1..], q[1..]) && PolyAdd(p, q)[0] == (p[0] != q[0])
  {
  }

  lemma ScaleXor(c: bool, d: bool, v: Elem)
    ensures Scale(c != d, v) == Add(Scale(c, v), Scale(d, v))
  {
  }

  lemma {:induction false} ActPolyAdd(p: Poly, q: Poly, v: Elem)
    ensures Act(PolyAdd(p, q), v) == Add(Act(p, v), Act(q, v))
  {
    PolyAddSteps(p, q);
    if p == [] {
      AddLaws(Act(q, v), ZERO, ZERO, ZERO);
    } else if q == [] {
      AddLaws(Act(p, v), ZERO, ZERO, ZERO);
    } else {
      ActPolyAdd(p[1..], q[1..], MulX(v));
      ScaleXor(p[0], q[0], v);
      AddLaws(Scale(p[0], v), Scale(q[0], v), Act(p[1..], MulX(v)), Act(q[1..], MulX(v)));
    }
  }

  lemma {:induction false} ActPolyMul(p: Poly, q: Poly, v: Elem)
    ensures Act(PolyMul(p, q), v) == Act(p, Act(q, v))
  {
    if p != [] {
      var tail := PolyMul(p[1..], q);
      assert ([false] + tail)[1..] == tail;
      AddLaws(Act(tail, MulX(v)), ZERO, ZERO, ZERO);
      assert Act([false] + tail, v) == Act(tail, MulX(v));
      ActPolyMul(p[1..], q, MulX(v));
      ActMulX(q, v);
      ActPolyAdd(if p[0] then q else [], [false] + tail, v);
    }
  }

  lemma ClassOfModulus()
    ensures Class(MODULUS) == ZERO
  {
    var high := ZERO + [true];
    assert MODULUS == PolyAdd(R, high);
    ActPolyAdd(R, high, ONE);
    ClassOfElem(R);
    ActFalse(ZERO, [true], ONE);
    IterateOne(128);
    assert [true][1..] == [];
    AddLaws(XPower(128), ZERO, ZERO, ZERO);
    XPower128();
    AddLaws(R, ZERO, ZERO, ZERO);
  }

  lemma {:induction false} ActFalse(z: Poly, p: Poly, v: Elem)
    requires forall i :: 0 <= i < |z| ==> !z[i]
    ensures Act(z + p, v) == Act(p, Iterate(|z|, v))
  {
    if z == [] {
      assert z + p == p;
    } else {
      assert (z + p)[1..] == z[1..] + p;
      ActFalse(z[1..], p, MulX(v));
      AddLaws(Act(p, Iterate(|z|, v)), ZERO, ZERO, ZERO);
    }
  }

  function Iterate(n: nat, v: Elem): Elem {
    if n == 0 then v else Iterate(n - 1, MulX(v))
  }

  lemma {:induction false} IterateMulX(n: nat, v: Elem)
    ensures Iterate(n, MulX(v)) == MulX(Iterate(n, v))
  {
    if n > 0 {
      IterateMulX(n - 1, MulX(v));
    }
  }

  lemma {:induction false} IterateOne(n: nat)
    ensures Iterate(n, ONE) == XPower(n)
  {
    if n > 0 {
      IterateOne(n - 1);
      IterateMulX(n - 1, ONE);
    }
  }

  /** Class is reduction modulo MODULUS: whenever p = quotient * MODULUS + remainder with a
      remainder of degree below 128, Class(p) is that remainder. */
  lemma ClassIsRemainder(quotient: Poly, remainder: Elem)
    ensures Class(PolyAdd(PolyMul(quotient, MODULUS), remainder)) == remainder
  {
    ActPolyAdd(PolyMul(quotient, MODULUS), remainder, ONE);
    ActPolyMul(quotient, MODULUS, ONE);
    ClassOfModulus();
    ActZero(quotient);
    ClassOfElem(remainder);
    AddLaws(remainder, ZERO, ZERO, ZERO);
  }

  // ----- The field laws

  /** Field multiplication is polynomial multiplication followed by reduction. */
  lemma MulIsReducedProduct(a: Elem, b: Elem)
    ensures Mul(a, b) == Class(PolyMul(a, b))
  {
    ActPolyMul(a, b, ONE);
    ClassOfElem(b);
  }

  lemma MulCommutes(a: Elem, b: Elem)
    ensures Mul(a, b) == Mul(b, a)
  {
    ClassOfElem(a);
    ClassOfElem(b);
    ActCommutes(a, b, ONE);
  }

  lemma MulDistributes(a: Elem, b: Elem, c: Elem)
    ensures Mul(Add(a, b), c) == Add(Mul(a, c), Mul(b, c))
    ensures Mul(c, Add(a, b)) == Add(Mul(c, a), Mul(c, b))
  {
    ActAdd(c, a, b);
    MulCommutes(Add(a, b), c);
    MulCommutes(a, c);
    MulCommutes(b, c);
  }

  lemma MulAssociates(a: Elem, b: Elem, c: Elem)
    ensures Mul(Mul(a, b), c) == Mul(a, Mul(b, c))
  {
    MulCommutes(Mul(a, b), c);
    MulCommutes(b, c);
    ActCommutes(c, a, b);
  }
}
