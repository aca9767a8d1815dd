/** The UVMode flag set (an enum over uint32_t) and its bitwise operators. */
module UVModes {

  type UVMode = bv32

  const Normal: UVMode := 0
  const RotatedCW90: UVMode := 2      // 1 << 1
  const FlipHorizontal: UVMode := 4   // 1 << 2
  const FlipVertical: UVMode := 8     // 1 << 3

  /** Every flag of `a` is also in `b`. */
  predicate Within(a: UVMode, b: UVMode)
  {
    a & b == a
  }

  /** `operator&`: bitwise AND of the underlying uint32_t, the largest flag set within both operands. */
  function And(lhs: UVMode, rhs: UVMode): (r: UVMode)
    ensures Within(r, lhs) && Within(r, rhs)
    ensures forall x :: Within(x, lhs) && Within(x, rhs) ==> Within(x, r)
  {
    AndBounds(lhs, rhs);
    lhs & rhs
  }

  lemma AndBounds(lhs: UVMode, rhs: UVMode)
    ensures Within(lhs & rhs, lhs) && Within(lhs & rhs, rhs)
    ensures forall x :: Within(x, lhs) && Within(x, rhs) ==> Within(x, lhs & rhs)
  {
    AndWithin(lhs, rhs);
    forall x ensures Within(x, lhs) && Within(x, rhs) ==> Within(x, lhs & rhs) {
      WithinBoth(x, lhs, rhs);
    }
  }

  lemma AndWithin(lhs: UVMode, rhs: UVMode)
    ensures Within(lhs & rhs, lhs) && Within(lhs & rhs, rhs)
  {
  }

  lemma WithinBoth(x: UVMode, lhs: UVMode, rhs: UVMode)
    ensures Within(x, lhs) && Within(x, rhs) ==> Within(x, lhs & rhs)
  {
  }

  /** `operator|`: bitwise OR of the underlying uint32_t, the smallest flag set holding both operands. */
  function Or(lhs: UVMode, rhs: UVMode): (r: UVMode)
    ensures Within(lhs, r) && Within(rhs, r)
    ensures forall x :: Within(lhs, x) && Within(rhs, x) ==> Within(r, x)
  {
    OrBounds(lhs, rhs);
    lhs | rhs
  }

  lemma OrBounds(lhs: UVMode, rhs: UVMode)
    ensures Within(lhs, lhs | rhs) && Within(rhs, lhs | rhs)
    ensures forall x :: Within(lhs, x) && Within(rhs, x) ==> Within(lhs | rhs, x)
  {
    OrHolds(lhs, rhs);
    forall x ensures Within(lhs, x) && Within(rhs, x) ==> Within(lhs | rhs, x) {
      HoldsBoth(x, lhs, rhs);
    }
  }

  lemma OrHolds(lhs: UVMode, rhs: UVMode)
    ensures Within(lhs, lhs | rhs) && Within(rhs, lhs | rhs)
  {
  }

  lemma HoldsBoth(x: UVMode, lhs: UVMode, rhs: UVMode)
    ensures Within(lhs, x) && Within(rhs, x) ==> Within(lhs | rhs, x)
  {
  }

  /** `HasFlag(t, flag)`: some bit of `flag` is set in `t`. */
  predicate HasFlag(t: UVMode, flag: UVMode)
  {
    t & flag != 0
  }

  /** The three named flags are single bits, pairwise distinct. */
  predicate IsNamedFlag(f: UVMode)
  {
    f == RotatedCW90 || f == FlipHorizontal || f == FlipVertical
  }

  /** Normal is the empty flag set: it carries no flag. */
  lemma NormalHasNoFlag(f: UVMode)
    ensures !HasFlag(Normal, f)
  {
  }

  /** A flag combined into a set is found in it; distinct named flags do not overlap. */
  lemma NamedFlags(a: UVMode, b: UVMode)
    requires IsNamedFlag(a) && IsNamedFlag(b)
    ensures HasFlag(Or(a, b), a) && HasFlag(Or(a, b), b)
    ensures HasFlag(a, b) <==> a == b
    ensures !HasFlag(And(a, b), a) <==> a != b
  {
  }

  /** OR-ing another flag never removes one already present, and AND-ing keeps only shared ones. */
  lemma OrAndFlags(t: UVMode, u: UVMode, f: UVMode)
    requires IsNamedFlag(f)
    ensures HasFlag(Or(t, u), f) <==> HasFlag(t, f) || HasFlag(u, f)
    ensures HasFlag(And(t, u), f) <==> HasFlag(t, f) && HasFlag(u, f)
  {
  }

  /** A variable of type UVMode, for the compound assignments that write through their left operand. */
  class UVModeVariable {
    var value: UVMode

    constructor (initial: UVMode)
      ensures value == initial
    {
      value := initial;
    }

    /** `operator&=`: stores `lhs & rhs` into the variable and returns the stored value. */
    method AndAssign(rhs: UVMode) returns (r: UVMode)
      modifies this
      ensures value == And(old(value), rhs) && r == value
    {
      value := And(value, rhs);
      r := value;
    }

    /** `operator|=`: stores `lhs | rhs` into the variable and returns the stored value. */
    method OrAssign(rhs: UVMode) returns (r: UVMode)
      modifies this
      ensures value == Or(old(value), rhs) && r == value
    {
      value := Or(value, rhs);
      r := value;
    }
  }
}
