/** The one global order in which rows are locked. */
module LockOrder {
  import opened TextOrder

  // ---- Keys and their order ----

  /** Advisory locks by their hash, then encounters, then sheets, then content rows. */
  datatype Key = Advisory(hash: int) | EncounterRow(id: string) | SheetRow(id: string) | ContentRow(kind: string, id: string)

  function Rank(k: Key): int {
    match k case Advisory(_) => 0 case EncounterRow(_) => 1 case SheetRow(_) => 2 case ContentRow(_, _) => 3
  }

  predicate Before(a: Key, b: Key) {
    Rank(a) < Rank(b) ||
    match (a, b)
    case (Advisory(x), Advisory(y)) => x < y
    case (EncounterRow(x), EncounterRow(y)) => Precedes(x, y)
    case (SheetRow(x), SheetRow(y)) => Precedes(x, y)
    case (ContentRow(k, x), ContentRow(l, y)) => Precedes(k, l) || (k == l && Precedes(x, y))
    case _ => false
  }

  lemma BeforeIrreflexive(a: Key)
    ensures !Before(a, a)
  {
    match a
    case Advisory(_) =>
    case EncounterRow(x) => PrecedesIrreflexive(x);
    case SheetRow(x) => PrecedesIrreflexive(x);
    case ContentRow(k, x) =>
      PrecedesIrreflexive(k);
      PrecedesIrreflexive(x);
  }

  lemma BeforeTransitive(a: Key, b: Key, c: Key)
    requires Before(a, b) && Before(b, c)
    ensures Before(a, c)
  {
    hide Precedes;
    match (a, b, c)
    case (EncounterRow(x), EncounterRow(y), EncounterRow(z)) => PrecedesTransitive(x, y, z);
    case (SheetRow(x), SheetRow(y), SheetRow(z)) => PrecedesTransitive(x, y, z);
    case (ContentRow(k, x), ContentRow(l, y), ContentRow(m, z)) =>
      if Precedes(k, l) && Precedes(l, m) { PrecedesTransitive(k, l, m); }
      if Precedes(x, y) && Precedes(y, z) { PrecedesTransitive(x, y, z); }
    case _ =>
  }

  predicate Increasing(keys: seq<Key>) {
    forall i, j | 0 <= i < j < |keys| :: Before(keys[i], keys[j])
  }
}
