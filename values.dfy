/** The numbers a rating's `value` holds: a Ruby Integer or a Ruby Float.
    A Float is modelled by the exact real it denotes, so the model has no
    rounding and no NaN; what it keeps is the class tag, which is what
    separates Ruby's loose `==` from its strict `eql?`. */
module Values {

  datatype Num = IntV(i: int) | FloatV(f: real)

  /** The quantity a number denotes, whatever its class. */
  function Magnitude(n: Num): real {
    match n
    case IntV(i) => i as real
    case FloatV(f) => f
  }

  /** Ruby's `==` between numbers: Integer#== and Float#== compare the
      quantities, also across the two classes (5 == 5.0). */
  function LooseEq(a: Num, b: Num): (r: bool)
    ensures r <==> Magnitude(a) == Magnitude(b)
  {
    match a
    case IntV(x) =>
      (match b
       case IntV(y) => x == y
       case FloatV(y) => x as real == y)
    case FloatV(x) =>
      (match b
       case IntV(y) => x == y as real
       case FloatV(y) => x == y)
  }

  /** Ruby's `eql?` between numbers: true only for the same class and the
      same quantity, so 5.eql?(5.0) is false. */
  function StrictEq(a: Num, b: Num): (r: bool)
    ensures r <==> a == b
    ensures r ==> LooseEq(a, b)
  {
    match a
    case IntV(x) =>
      (match b
       case IntV(y) => x == y
       case FloatV(_) => false)
    case FloatV(x) =>
      (match b
       case IntV(_) => false
       case FloatV(y) => x == y)
  }

  /** Ruby's `<=>` between numbers: -1, 0 or 1 as the first quantity is
      smaller than, equal to or larger than the second. */
  function Compare(a: Num, b: Num): (c: int)
    ensures c == -1 || c == 0 || c == 1
    ensures c == -1 <==> Magnitude(a) < Magnitude(b)
    ensures c == 0 <==> LooseEq(a, b)
    ensures c == 1 <==> Magnitude(a) > Magnitude(b)
  {
    match a
    case IntV(x) =>
      (match b
       case IntV(y) => if x < y then -1 else if x > y then 1 else 0
       case FloatV(y) => if (x as real) < y then -1 else if (x as real) > y then 1 else 0)
    case FloatV(x) =>
      (match b
       case IntV(y) => if x < (y as real) then -1 else if x > (y as real) then 1 else 0
       case FloatV(y) => if x < y then -1 else if x > y then 1 else 0)
  }

  /** `<=>` is antisymmetric and transitive: it is a total preorder whose
      ties are exactly the loosely equal pairs. */
  lemma CompareIsTotalPreorder(a: Num, b: Num, c: Num)
    ensures Compare(a, b) == -Compare(b, a)
    ensures Compare(a, b) <= 0 && Compare(b, c) <= 0 ==> Compare(a, c) <= 0
    ensures Compare(a, b) == 0 && Compare(b, c) == 0 ==> Compare(a, c) == 0
  {
  }

  /** Loose equality does not determine strict equality: some pair of
      numbers is `==` but not `eql?` (the Integer 5 and the Float 5.0). */
  lemma LooseEqIsNotStrict()
    ensures exists a: Num, b: Num :: LooseEq(a, b) && !StrictEq(a, b)
  {
    var five, fiveF := IntV(5), FloatV(5.0);
    assert LooseEq(five, fiveF) && !StrictEq(five, fiveF);
  }

  /** An Integer is never `eql?` to a Float, whichever way round, and is
      `==` to it exactly when they denote the same quantity. */
  lemma IntegerIsNeverStrictlyFloat(i: int, f: real)
    ensures !StrictEq(IntV(i), FloatV(f)) && !StrictEq(FloatV(f), IntV(i))
    ensures LooseEq(IntV(i), FloatV(f)) <==> i as real == f
  {
  }
}
