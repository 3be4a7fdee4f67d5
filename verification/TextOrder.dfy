/** Texts in character order, the order in which rows are locked and sorted. */
module TextOrder {

  predicate Precedes(a: string, b: string) {
    if b == "" then false
    else if a == "" then true
    else a[0] < b[0] || (a[0] == b[0] && Precedes(a[1..], b[1..]))
  }

  lemma {:induction false} PrecedesIrreflexive(a: string)
    ensures !Precedes(a, a)
  {
    if a != "" {
      PrecedesIrreflexive(a[1..]);
    }
  }

  lemma {:induction false} PrecedesTransitive(a: string, b: string, c: string)
    requires Precedes(a, b) && Precedes(b, c)
    ensures Precedes(a, c)
  {
    if a != "" && a[0] == b[0] && b[0] == c[0] {
      PrecedesTransitive(a[1..], b[1..], c[1..]);
    }
  }

  lemma {:induction false} PrecedesTotal(a: string, b: string)
    ensures a == b || Precedes(a, b) || Precedes(b, a)
  {
    if a != "" && b != "" && a[0] == b[0] {
      PrecedesTotal(a[1..], b[1..]);
      assert a == [a[0]] + a[1..] && b == [b[0]] + b[1..];
    }
  }

  /** At the first difference the smaller character decides, and a proper beginning comes first. */
  predicate FirstDifference(a: string, b: string, i: nat) {
    && i <= |a| && i < |b| && a[..i] == b[..i]
    && (i == |a| || a[i] < b[i])
  }

  lemma {:induction false} PrecedesIff(a: string, b: string)
    ensures Precedes(a, b) <==> exists i: nat :: FirstDifference(a, b, i)
  {
    if b != "" && a == "" {
      assert FirstDifference(a, b, 0);
    } else if b != "" {
      PrecedesIff(a[1..], b[1..]);
      if a[0] < b[0] {
        assert FirstDifference(a, b, 0);
      }
      if Precedes(a[1..], b[1..]) && a[0] == b[0] {
        var i: nat :| FirstDifference(a[1..], b[1..], i);
        assert a[..i + 1] == [a[0]] + a[1..][..i] && b[..i + 1] == [b[0]] + b[1..][..i];
        assert FirstDifference(a, b, i + 1);
      }
      if i: nat :| FirstDifference(a, b, i) {
        if i > 0 {
          assert a[0] == a[..i][0] == b[..i][0] == b[0];
          assert a[1..][..i - 1] == a[..i][1..] && b[1..][..i - 1] == b[..i][1..];
          assert FirstDifference(a[1..], b[1..], i - 1);
        }
      }
    }
  }

  predicate Ascending(texts: seq<string>) {
    forall i, j | 0 <= i < j < |texts| :: Precedes(texts[i], texts[j])
  }

  predicate First(texts: set<string>, t: string) {
    t in texts && forall u | u in texts && u != t :: Precedes(t, u)
  }

  lemma {:induction false} FirstExists(texts: set<string>)
    requires texts != {}
    ensures exists t :: First(texts, t)
  {
    hide Precedes;
    var t :| t in texts;
    if texts == {t} {
      assert First(texts, t);
    } else {
      FirstExists(texts - {t});
      var f :| First(texts - {t}, f);
      PrecedesTotal(t, f);
      if Precedes(f, t) {
        assert First(texts, f);
      } else {
        forall u | u in texts && u != t ensures Precedes(t, u) {
          if u != f { PrecedesTransitive(t, f, u); }
        }
        assert First(texts, t);
      }
    }
  }

  lemma FirstUnique(texts: set<string>)
    ensures forall a, b | First(texts, a) && First(texts, b) :: a == b
  {
    forall a, b | First(texts, a) && First(texts, b) ensures a == b {
      if a != b {
        PrecedesTransitive(a, b, a);
        PrecedesIrreflexive(a);
      }
    }
  }

  /** The texts of a set in ascending order. */
  function SortedTexts(texts: set<string>): (sorted: seq<string>)
    ensures forall t :: t in sorted <==> t in texts
  {
    if texts == {} then []
    else
      FirstExists(texts);
      FirstUnique(texts);
      var t :| First(texts, t);
      [t] + SortedTexts(texts - {t})
  }

  lemma {:induction false} SortedAscends(texts: set<string>)
    ensures Ascending(SortedTexts(texts))
  {
    hide Precedes;
    if texts != {} {
      var sorted := SortedTexts(texts);
      FirstExists(texts);
      FirstUnique(texts);
      var t := sorted[0];
      assert First(texts, t) && sorted[1..] == SortedTexts(texts - {t});
      SortedAscends(texts - {t});
      forall i, j | 0 <= i < j < |sorted| ensures Precedes(sorted[i], sorted[j]) {
        assert sorted[j] == sorted[1..][j - 1] && sorted[1..][j - 1] in sorted[1..];
        if i > 0 { assert sorted[i] == sorted[1..][i - 1]; }
      }
    }
  }
}
