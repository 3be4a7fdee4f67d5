/** The ordering of strings by their UTF-16 code units. */
module Utf16 {

  const SUPPLEMENTARY: int := 0x10000

  /** The UTF-16 code units of one Unicode scalar value. */
  function Units(c: char): (units: seq<int>)
    ensures 1 <= |units| <= 2
  {
    var code := c as int;
    if code < SUPPLEMENTARY then [code]
    else [0xD800 + (code - SUPPLEMENTARY) / 0x400, 0xDC00 + (code - SUPPLEMENTARY) % 0x400]
  }

  function Encode(s: string): seq<int> {
    if s == "" then [] else Units(s[0]) + Encode(s[1..])
  }

  /** Three-way lexicographic comparison. */
  function Lexicographic(a: seq<int>, b: seq<int>): (order: int)
    ensures -1 <= order <= 1
  {
    if a == [] then (if b == [] then 0 else -1)
    else if b == [] then 1
    else if a[0] < b[0] then -1
    else if a[0] > b[0] then 1
    else Lexicographic(a[1..], b[1..])
  }

  function Order(left: string, right: string): int {
    Lexicographic(Encode(left), Encode(right))
  }

  method CompareUtf16(left: string, right: string) returns (order: int)
    ensures order == Order(left, right)
  {
    var leftUnits, rightUnits := Encode(left), Encode(right);
    var limit := |leftUnits|;
    if |rightUnits| < limit {
      limit := |rightUnits|;
    }
    var index := 0;
    while index < limit
      invariant 0 <= index <= limit
      invariant Lexicographic(leftUnits[index..], rightUnits[index..]) == Order(left, right)
    {
      if leftUnits[index] < rightUnits[index] {
        return -1;
      }
      if leftUnits[index] > rightUnits[index] {
        return 1;
      }
      assert leftUnits[index..][1..] == leftUnits[index + 1..];
      assert rightUnits[index..][1..] == rightUnits[index + 1..];
      index := index + 1;
    }
    if |leftUnits| < |rightUnits| {
      return -1;
    }
    if |leftUnits| > |rightUnits| {
      return 1;
    }
    return 0;
  }

  // ---- The lexicographic comparison is a total order ----

  lemma {:induction false} LexicographicAntisymmetric(a: seq<int>, b: seq<int>)
    ensures Lexicographic(a, b) == -Lexicographic(b, a)
    ensures Lexicographic(a, b) == 0 <==> a == b
    decreases |a|
  {
    if a != [] && b != [] {
      LexicographicAntisymmetric(a[1..], b[1..]);
      assert a == [a[0]] + a[1..] && b == [b[0]] + b[1..];
    }
  }

  lemma {:induction false} LexicographicTransitive(a: seq<int>, b: seq<int>, c: seq<int>)
    requires Lexicographic(a, b) <= 0 && Lexicographic(b, c) <= 0
    ensures Lexicographic(a, c) <= 0
    decreases |a|
  {
    if a != [] && b != [] && c != [] && a[0] == b[0] == c[0] {
      LexicographicTransitive(a[1..], b[1..], c[1..]);
    }
  }

  lemma {:induction false} LexicographicPrefix(p: seq<int>, a: seq<int>, b: seq<int>)
    ensures Lexicographic(p + a, p + b) == Lexicographic(a, b)
  {
    if p == [] {
      assert p + a == a && p + b == b;
    } else {
      LexicographicPrefix(p[1..], a, b);
      assert (p + a)[1..] == p[1..] + a && (p + b)[1..] == p[1..] + b;
    }
  }

  // ---- UTF-16 loses nothing ----

  lemma UnitsDetermineHead(a: char, b: char, restA: seq<int>, restB: seq<int>)
    requires Units(a) + restA == Units(b) + restB
    ensures a == b && restA == restB
  {
    assert (Units(a) + restA)[0] == Units(a)[0];
    assert (Units(b) + restB)[0] == Units(b)[0];
    if a as int >= SUPPLEMENTARY {
      assert (Units(a) + restA)[1] == Units(a)[1];
      assert (Units(b) + restB)[1] == Units(b)[1];
    }
    assert a == b;
    assert restA == (Units(a) + restA)[|Units(a)|..];
    assert restB == (Units(b) + restB)[|Units(b)|..];
  }

  lemma {:induction false} EncodeInjective(a: string, b: string)
    requires Encode(a) == Encode(b)
    ensures a == b
  {
    if a != "" && b != "" {
      UnitsDetermineHead(a[0], b[0], Encode(a[1..]), Encode(b[1..]));
      EncodeInjective(a[1..], b[1..]);
    }
  }

  /** The comparison is a total order on strings: 0 only for equal strings, antisymmetric. */
  lemma OrderTotal(a: string, b: string)
    ensures Order(a, b) == -Order(b, a)
    ensures Order(a, b) == 0 <==> a == b
  {
    LexicographicAntisymmetric(Encode(a), Encode(b));
    if Order(a, b) == 0 {
      EncodeInjective(a, b);
    }
  }

  lemma OrderTransitive(a: string, b: string, c: string)
    requires Order(a, b) <= 0 && Order(b, c) <= 0
    ensures Order(a, c) <= 0
  {
    LexicographicTransitive(Encode(a), Encode(b), Encode(c));
  }

  // ---- How the order relates to the order of code points ----

  function Codes(s: string): (codes: seq<int>)
    ensures |codes| == |s|
    ensures forall i | 0 <= i < |s| :: codes[i] == s[i] as int
  {
    if s == "" then [] else [s[0] as int] + Codes(s[1..])
  }

  function CodePointOrder(left: string, right: string): int {
    Lexicographic(Codes(left), Codes(right))
  }

  /** The first position at which the strings differ or one of them ends. */
  function FirstDifference(left: string, right: string): (i: nat)
    ensures i <= |left| && i <= |right| && left[..i] == right[..i]
    ensures i < |left| && i < |right| ==> left[i] != right[i]
  {
    if left == "" || right == "" || left[0] != right[0] then 0
    else
      assert left == [left[0]] + left[1..] && right == [right[0]] + right[1..];
      1 + FirstDifference(left[1..], right[1..])
  }

  predicate Supplementary(c: char) {
    c as int >= SUPPLEMENTARY
  }

  /** A character of the basic plane that lies above the surrogate range. */
  predicate AboveSurrogates(c: char) {
    0xE000 <= c as int < SUPPLEMENTARY
  }

  /** The strings first differ at a surrogate pair against a character above the surrogates. */
  predicate SurrogateInversion(left: string, right: string) {
    var i := FirstDifference(left, right);
    i < |left| && i < |right| &&
    ((Supplementary(left[i]) && AboveSurrogates(right[i])) ||
     (AboveSurrogates(left[i]) && Supplementary(right[i])))
  }

  lemma OrderAtDifferentHeads(left: string, right: string)
    requires left != "" && right != "" && left[0] != right[0]
    ensures Order(left, right) ==
            if SurrogateInversion(left, right) then -CodePointOrder(left, right)
            else CodePointOrder(left, right)
  {
    var a, b := left[0], right[0];
    var ra, rb := Encode(left[1..]), Encode(right[1..]);
    assert Encode(left) == Units(a) + ra && Encode(right) == Units(b) + rb;
    if Units(a)[0] == Units(b)[0] {
      assert Supplementary(a) && Supplementary(b);
      assert (Units(a) + ra)[1..][0] == Units(a)[1];
      assert (Units(b) + rb)[1..][0] == Units(b)[1];
      assert Order(left, right) == Lexicographic((Units(a) + ra)[1..], (Units(b) + rb)[1..]);
    }
  }

  /**
   * The order agrees with code-point order exactly when the first difference is
   * not a surrogate pair against a character above the surrogates, and is its
   * reverse when it is.
   */
  lemma {:induction false} OrderVersusCodePoints(left: string, right: string)
    ensures Order(left, right) ==
            if SurrogateInversion(left, right) then -CodePointOrder(left, right)
            else CodePointOrder(left, right)
    decreases |left|
  {
    if left == "" || right == "" {
    } else if left[0] != right[0] {
      OrderAtDifferentHeads(left, right);
    } else {
      OrderVersusCodePoints(left[1..], right[1..]);
      LexicographicPrefix(Units(left[0]), Encode(left[1..]), Encode(right[1..]));
      assert SurrogateInversion(left, right) == SurrogateInversion(left[1..], right[1..]);
      assert Codes(left)[1..] == Codes(left[1..]) && Codes(right)[1..] == Codes(right[1..]);
    }
  }
}
