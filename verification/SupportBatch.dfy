/** Exact-support batches: every support value of a plan is written, or none. */
module SupportBatch {
  import opened JsonValues
  import opened Outcomes
  import opened TextRules
  import opened WorldState
  import opened Identifiers
  import opened EncounterState
  import opened TextOrder
  import opened LockOrder

  // ---- Requests ----

  datatype EntryRequest = EntryRequest(kind: string, id: Id, expectedCurrent: Option<Json>, support: Option<Json>)

  datatype BatchRequest = BatchRequest(
    schemaVersion: int, mode: string, planHash: string, operationId: string, expectedCount: int, entries: seq<EntryRequest>)

  datatype Entry = Entry(kind: string, id: Id, expected: Fields, support: Json)

  /** The certification schema, and what the database makes of a row whose support is overwritten. */
  datatype Env = Env(certified: Json -> bool, persist: (Fields, Json, string) -> Fields)

  const MAX_ENTRIES := 512
  const MODE_CERTIFY := "certification_apply"
  const MODE_ROLLBACK := "exact_rollback"
  const KINDS := {"card", "effect", "action", "spell", "race", "class", "feat", "background"}

  predicate SupportOk(v: Json) {
    v.Null? || v.Obj?
  }

  /** One entry is well formed on its own. */
  predicate EntryOk(env: Env, mode: string, e: EntryRequest) {
    && e.kind in KINDS && e.id != NIL_ID
    && e.expectedCurrent.Some? && e.expectedCurrent.value.Obj?
    && Field(e.expectedCurrent.value.fields, "id").Str?
    && ParseUuid(Field(e.expectedCurrent.value.fields, "id").text) == Some(e.id)
    && "support" in e.expectedCurrent.value.fields
    && e.support.Some? && SupportOk(e.support.value)
    && (mode == MODE_CERTIFY ==> e.support.value.Obj? && env.certified(e.support.value))
  }

  predicate Shaped(e: EntryRequest) {
    e.expectedCurrent.Some? && e.expectedCurrent.value.Obj? && e.support.Some?
  }

  function PreparedEntry(e: EntryRequest): Entry
    requires Shaped(e)
  {
    Entry(e.kind, e.id, e.expectedCurrent.value.fields, e.support.value)
  }

  predicate HeaderOk(r: BatchRequest) {
    && r.schemaVersion == 1 && IsSha256(r.planHash)
    && (r.mode == MODE_CERTIFY || r.mode == MODE_ROLLBACK)
    && !Blank(r.operationId) && Utf8Length(r.operationId) <= 255
    && 1 <= r.expectedCount <= MAX_ENTRIES && r.expectedCount == |r.entries|
  }

  function KeyOf(e: Entry): (string, Id) {
    (e.kind, e.id)
  }

  predicate DistinctKeys(entries: seq<Entry>) {
    forall i, j | 0 <= i < j < |entries| :: KeyOf(entries[i]) != KeyOf(entries[j])
  }

  predicate BatchOk(env: Env, r: BatchRequest) {
    && HeaderOk(r)
    && (forall i | 0 <= i < |r.entries| :: EntryOk(env, r.mode, r.entries[i]))
    && (forall i, j | 0 <= i < j < |r.entries| :: (r.entries[i].kind, r.entries[i].id) != (r.entries[j].kind, r.entries[j].id))
  }

  function LockKey(e: Entry): Key {
    ContentRow(e.kind, e.id)
  }

  /** Entries in the order in which their rows are locked. */
  predicate Ordered(entries: seq<Entry>) {
    forall i, j | 0 <= i < j < |entries| :: Before(LockKey(entries[i]), LockKey(entries[j]))
  }

  lemma BeforeTotal(a: Entry, b: Entry)
    ensures KeyOf(a) == KeyOf(b) || Before(LockKey(a), LockKey(b)) || Before(LockKey(b), LockKey(a))
  {
    PrecedesTotal(a.kind, b.kind);
    PrecedesTotal(a.id, b.id);
  }

  lemma OrderedDistinct(entries: seq<Entry>)
    requires Ordered(entries)
    ensures DistinctKeys(entries)
  {
    hide Before;
    forall i, j | 0 <= i < j < |entries| ensures KeyOf(entries[i]) != KeyOf(entries[j]) {
      BeforeIrreflexive(LockKey(entries[i]));
      assert Before(LockKey(entries[i]), LockKey(entries[j]));
    }
  }

  // ---- Sorting ----

  /** Everything up to `n` is ordered except that the entry at `i` may still have to sink. */
  predicate Sinking(s: seq<Entry>, i: int, n: int) {
    && 0 <= i <= n < |s|
    && (forall x, y | 0 <= x < y <= n && x != i && y != i :: Before(LockKey(s[x]), LockKey(s[y])))
    && (forall y | i < y <= n :: Before(LockKey(s[i]), LockKey(s[y])))
  }

  lemma SinkStep(s: seq<Entry>, i: int, n: int)
    requires Sinking(s, i, n) && i > 0 && Before(LockKey(s[i]), LockKey(s[i - 1])) && DistinctKeys(s)
    ensures var t := s[i := s[i - 1]][i - 1 := s[i]];
            Sinking(t, i - 1, n) && DistinctKeys(t) && multiset(t) == multiset(s)
  {
    hide Before, LockKey, KeyOf;
  }

  lemma SinkEnd(s: seq<Entry>, i: int, n: int)
    requires Sinking(s, i, n) && DistinctKeys(s)
    requires i > 0 ==> !Before(LockKey(s[i]), LockKey(s[i - 1]))
    ensures Ordered(s[..n + 1])
  {
    hide Before, LockKey, KeyOf;
    if i > 0 {
      BeforeTotal(s[i - 1], s[i]);
      forall x | 0 <= x < i ensures Before(LockKey(s[x]), LockKey(s[i])) {
        if x < i - 1 {
          BeforeTransitive(LockKey(s[x]), LockKey(s[i - 1]), LockKey(s[i]));
        }
      }
    }
  }

  /** Grows an ordered prefix by swapping each next entry down to its place. */
  method SortInPlace(a: array<Entry>)
    requires DistinctKeys(a[..])
    modifies a
    ensures Ordered(a[..]) && multiset(a[..]) == multiset(old(a[..]))
  {
    hide Before, LockKey, KeyOf, Sinking;
    var n := 0;
    while n < a.Length
      invariant 0 <= n <= a.Length
      invariant Ordered(a[..n]) && DistinctKeys(a[..])
      invariant multiset(a[..]) == multiset(old(a[..]))
    {
      SinkLast(a, n);
      n := n + 1;
    }
    assert a[..a.Length] == a[..];
  }

  method SinkLast(a: array<Entry>, n: nat)
    requires n < a.Length && Ordered(a[..n]) && DistinctKeys(a[..])
    modifies a
    ensures Ordered(a[..n + 1]) && DistinctKeys(a[..])
    ensures multiset(a[..]) == multiset(old(a[..]))
  {
    hide Before, LockKey, KeyOf, DistinctKeys, Sinking, Ordered;
    var i := n;
    StartSinking(a[..], n);
    while i > 0 && Before(LockKey(a[i]), LockKey(a[i - 1]))
      invariant 0 <= i <= n
      invariant Sinking(a[..], i, n) && DistinctKeys(a[..])
      invariant multiset(a[..]) == multiset(old(a[..]))
    {
      ghost var before := a[..];
      SinkStep(before, i, n);
      a[i], a[i - 1] := a[i - 1], a[i];
      assert a[..] == before[i := before[i - 1]][i - 1 := before[i]];
      i := i - 1;
    }
    SinkEnd(a[..], i, n);
  }

  lemma StartSinking(s: seq<Entry>, n: nat)
    requires n < |s| && Ordered(s[..n])
    ensures Sinking(s, n, n)
  {
    hide Before, LockKey;
    assert forall x | 0 <= x < n :: s[..n][x] == s[x];
  }

  // ---- Preparing ----

  /** Checks the entries one by one, collects them and sorts them into lock order. */
  method PrepareBatch(env: Env, r: BatchRequest) returns (result: Option<seq<Entry>>)
    ensures result.Some? <==> BatchOk(env, r)
    ensures result.Some? ==>
              && Ordered(result.value) && DistinctKeys(result.value)
              && multiset(result.value) == multiset(PreparedEntries(r.entries))
  {
    hide EntryOk, Before, ParseUuid;
    if !HeaderOk(r) {
      return None;
    }
    var seen: set<(string, Id)> := {};
    var prepared: seq<Entry> := [];
    var index := 0;
    while index < |r.entries|
      invariant 0 <= index <= |r.entries| && |prepared| == index
      invariant forall i | 0 <= i < index :: EntryOk(env, r.mode, r.entries[i])
      invariant forall i | 0 <= i < index :: Shaped(r.entries[i]) && prepared[i] == PreparedEntry(r.entries[i])
      invariant seen == set i | 0 <= i < index :: (r.entries[i].kind, r.entries[i].id)
      invariant forall i, j | 0 <= i < j < index :: (r.entries[i].kind, r.entries[i].id) != (r.entries[j].kind, r.entries[j].id)
    {
      var e := r.entries[index];
      if (e.kind, e.id) in seen {
        ghost var i :| 0 <= i < index && (r.entries[i].kind, r.entries[i].id) == (e.kind, e.id);
        assert !BatchOk(env, r);
        return None;
      }
      if !EntryOk(env, r.mode, e) {
        return None;
      }
      EntryShaped(env, r.mode, e);
      seen := seen + {(e.kind, e.id)};
      prepared := prepared + [PreparedEntry(e)];
      index := index + 1;
    }
    assert prepared == PreparedEntries(r.entries);
    var a := new Entry[|prepared|](i requires 0 <= i < |prepared| => prepared[i]);
    assert a[..] == prepared;
    SortInPlace(a);
    OrderedDistinct(a[..]);
    return Some(a[..]);
  }

  lemma EntryShaped(env: Env, mode: string, e: EntryRequest)
    requires EntryOk(env, mode, e)
    ensures Shaped(e)
  {
  }

  function PreparedEntries(entries: seq<EntryRequest>): (prepared: seq<Entry>)
    requires forall i | 0 <= i < |entries| :: Shaped(entries[i])
    ensures |prepared| == |entries| && forall i | 0 <= i < |entries| :: prepared[i] == PreparedEntry(entries[i])
  {
    seq(|entries|, i requires 0 <= i < |entries| => PreparedEntry(entries[i]))
  }

  // ---- Comparing rows ----

  const UPDATED_AT := "updated_at"

  /** A row without the column that the database maintains. */
  function Comparable(row: Fields): Fields {
    row - {UPDATED_AT}
  }

  /** The row with the requested support. */
  function WithSupport(row: Fields, support: Json): Fields {
    row["support" := support]
  }

  /** The current row is the expected one with the requested support already in place. */
  predicate AlreadyRestored(current: Fields, expected: Fields, support: Json) {
    Comparable(current) == Comparable(WithSupport(expected, support))
  }

  predicate Locked(support: Json) {
    support.Obj? && Field(support.fields, "mechanics_locked") == Bool(true)
  }

  /** Two rows are equal up to `updated_at` exactly when every other column is. */
  lemma ComparableMeaning(a: Fields, b: Fields)
    ensures Comparable(a) == Comparable(b) <==>
            forall k | k != UPDATED_AT :: (k in a <==> k in b) && (k in a ==> a[k] == b[k])
  {
    if Comparable(a) == Comparable(b) {
      forall k | k != UPDATED_AT ensures (k in a <==> k in b) && (k in a ==> a[k] == b[k]) {
        assert k in Comparable(a) <==> k in a;
        assert k in Comparable(b) <==> k in b;
      }
    }
    if forall k | k != UPDATED_AT :: (k in a <==> k in b) && (k in a ==> a[k] == b[k]) {
      assert Comparable(a).Keys == Comparable(b).Keys;
      assert Comparable(a) == Comparable(b);
    }
  }

  // ---- The transaction ----

  type Rows = map<(string, Id), Fields>

  datatype BatchError = MissingRow | Disagrees

  datatype BatchResult = BatchResult(total: nat, updated: nat, already: nat, alreadyApplied: bool)

  datatype Flags = Flags(preimageOnly: bool, desiredOnly: bool)

  predicate IsPreimage(rows: Rows, e: Entry)
    requires KeyOf(e) in rows
  {
    rows[KeyOf(e)] == e.expected
  }

  predicate IsDesired(rows: Rows, e: Entry)
    requires KeyOf(e) in rows
  {
    AlreadyRestored(rows[KeyOf(e)], e.expected, e.support)
  }

  /** The lock rule: a batch may not clear a mechanics lock. */
  predicate ClearsLock(rows: Rows, e: Entry)
    requires KeyOf(e) in rows
  {
    Locked(Field(rows[KeyOf(e)], "support")) && !Locked(e.support)
  }

  function Classify(rows: Rows, entries: seq<Entry>, flags: Flags): Result<Flags, BatchError>
    decreases |entries|
  {
    if entries == [] then Ok(flags)
    else
      var e := entries[0];
      if KeyOf(e) !in rows then Err(MissingRow)
      else if ClearsLock(rows, e) then Err(Disagrees)
      else if !IsPreimage(rows, e) && !IsDesired(rows, e) then Err(Disagrees)
      else
        Classify(rows, entries[1..],
                 Flags(flags.preimageOnly || (IsPreimage(rows, e) && !IsDesired(rows, e)),
                       flags.desiredOnly || (IsDesired(rows, e) && !IsPreimage(rows, e))))
  }

  /** One write, re-read and compared with what it should have made of the row. */
  function WriteOne(env: Env, rows: Rows, e: Entry, now: string): Result<Rows, BatchError> {
    if KeyOf(e) !in rows then Err(MissingRow)
    else
      var row := rows[KeyOf(e)];
      var restored := env.persist(row, e.support, now);
      if Comparable(restored) != Comparable(WithSupport(row, e.support)) then Err(Disagrees)
      else Ok(rows[KeyOf(e) := restored])
  }

  function WriteAll(env: Env, rows: Rows, entries: seq<Entry>, now: string): Result<Rows, BatchError>
    decreases |entries|
  {
    if entries == [] then Ok(rows)
    else
      var next :- WriteOne(env, rows, entries[0], now);
      WriteAll(env, next, entries[1..], now)
  }

  function ApplyBatch(env: Env, rows: Rows, entries: seq<Entry>, now: string): Result<(Rows, BatchResult), BatchError> {
    var flags :- Classify(rows, entries, Flags(false, false));
    if flags.preimageOnly && flags.desiredOnly then Err(Disagrees)
    else if flags.desiredOnly then Ok((rows, BatchResult(|entries|, 0, |entries|, true)))
    else
      var next :- WriteAll(env, rows, entries, now);
      Ok((next, BatchResult(|entries|, |entries|, 0, false)))
  }

  class ContentStore {
    const env: Env
    var rows: Rows

    constructor (env: Env, rows: Rows)
      ensures this.env == env && this.rows == rows
    {
      this.env, this.rows := env, rows;
    }

    /** Locks and classifies every row, then writes every row; a failure restores them all. */
    method ApplyExactSupportBatch(entries: seq<Entry>, now: string) returns (r: Result<BatchResult, BatchError>)
      modifies this`rows
      ensures match ApplyBatch(env, old(rows), entries, now)
              case Ok((after, result)) => rows == after && r == Ok(result)
              case Err(e) => rows == old(rows) && r == Err(e)
    {
      hide KeyOf, AlreadyRestored, Comparable, WithSupport, Locked, WriteOne;
      var preimageOnly, desiredOnly := false, false;
      var index := 0;
      assert entries[0..] == entries;
      while index < |entries|
        invariant 0 <= index <= |entries|
        invariant Classify(rows, entries[index..], Flags(preimageOnly, desiredOnly)) == Classify(rows, entries, Flags(false, false))
      {
        assert entries[index..][0] == entries[index] && entries[index..][1..] == entries[index + 1..];
        var e := entries[index];
        if KeyOf(e) !in rows {
          return Err(MissingRow);
        }
        var current := rows[KeyOf(e)];
        if Locked(Field(current, "support")) && !Locked(e.support) {
          return Err(Disagrees);
        }
        var isPreimage := current == e.expected;
        var isDesired := AlreadyRestored(current, e.expected, e.support);
        if !isPreimage && !isDesired {
          return Err(Disagrees);
        }
        if isPreimage && !isDesired {
          preimageOnly := true;
        }
        if isDesired && !isPreimage {
          desiredOnly := true;
        }
        index := index + 1;
      }
      if preimageOnly && desiredOnly {
        return Err(Disagrees);
      }
      if desiredOnly {
        return Ok(BatchResult(|entries|, 0, |entries|, true));
      }
      var saved := rows;
      index := 0;
      while index < |entries|
        invariant 0 <= index <= |entries|
        invariant WriteAll(env, rows, entries[index..], now) == WriteAll(env, saved, entries, now)
      {
        assert entries[index..][0] == entries[index] && entries[index..][1..] == entries[index + 1..];
        var next := WriteOne(env, rows, entries[index], now);
        if next.Err? {
          rows := saved;
          return Err(next.error);
        }
        rows := next.value;
        index := index + 1;
      }
      return Ok(BatchResult(|entries|, |entries|, 0, false));
    }
  }

  // ---- What classification means ----

  /** Every row exists, keeps its lock, and is the preimage or already restored. */
  predicate Classified(rows: Rows, e: Entry) {
    KeyOf(e) in rows && !ClearsLock(rows, e) && (IsPreimage(rows, e) || IsDesired(rows, e))
  }

  lemma {:induction false} ClassifyMeaning(rows: Rows, entries: seq<Entry>, flags: Flags)
    ensures Classify(rows, entries, flags).Ok? <==> forall e | e in entries :: Classified(rows, e)
    ensures Classify(rows, entries, flags).Ok? ==>
              var r := Classify(rows, entries, flags).value;
              && (r.preimageOnly <==> flags.preimageOnly || exists e :: e in entries && IsPreimage(rows, e) && !IsDesired(rows, e))
              && (r.desiredOnly <==> flags.desiredOnly || exists e :: e in entries && IsDesired(rows, e) && !IsPreimage(rows, e))
    decreases |entries|
  {
    hide KeyOf, AlreadyRestored, Locked;
    if entries != [] {
      var e := entries[0];
      assert forall x :: x in entries <==> x == e || x in entries[1..];
      if Classified(rows, e) {
        ClassifyMeaning(rows, entries[1..],
                        Flags(flags.preimageOnly || (IsPreimage(rows, e) && !IsDesired(rows, e)),
                              flags.desiredOnly || (IsDesired(rows, e) && !IsPreimage(rows, e))));
      }
    }
  }

  lemma TailKeys(entries: seq<Entry>)
    requires DistinctKeys(entries) && entries != []
    ensures DistinctKeys(entries[1..]) && forall e | e in entries[1..] :: KeyOf(e) != KeyOf(entries[0])
  {
    hide KeyOf;
    assert forall i | 0 <= i < |entries| - 1 :: entries[1..][i] == entries[i + 1];
  }

  /** Writing touches exactly the rows of the batch, each once. */
  predicate AllWritten(env: Env, rows: Rows, entries: seq<Entry>, now: string, after: Rows) {
    && after.Keys == rows.Keys
    && (forall e | e in entries :: KeyOf(e) in rows && after[KeyOf(e)] == env.persist(rows[KeyOf(e)], e.support, now)
                                   && Comparable(after[KeyOf(e)]) == Comparable(WithSupport(rows[KeyOf(e)], e.support)))
    && (forall k | k in rows && (forall e | e in entries :: KeyOf(e) != k) :: after[k] == rows[k])
  }

  /** The row exists and its write passes the comparison. */
  predicate CanWrite(env: Env, rows: Rows, e: Entry, now: string) {
    KeyOf(e) in rows
    && Comparable(env.persist(rows[KeyOf(e)], e.support, now)) == Comparable(WithSupport(rows[KeyOf(e)], e.support))
  }

  /** Writing the first row and then all later ones writes all. */
  lemma WrittenFirst(env: Env, rows: Rows, entries: seq<Entry>, now: string, next: Rows, after: Rows)
    requires entries != [] && WriteOne(env, rows, entries[0], now) == Ok(next)
    requires forall e | e in entries[1..] :: KeyOf(e) != KeyOf(entries[0])
    requires AllWritten(env, next, entries[1..], now, after)
    ensures AllWritten(env, rows, entries, now, after)
  {
    hide KeyOf, Comparable, WithSupport;
    var e := entries[0];
    assert forall x :: x in entries <==> x == e || x in entries[1..];
    assert after[KeyOf(e)] == next[KeyOf(e)];
  }

  lemma {:induction false} WriteAllMeaning(env: Env, rows: Rows, entries: seq<Entry>, now: string)
    requires DistinctKeys(entries)
    ensures WriteAll(env, rows, entries, now).Ok? ==> AllWritten(env, rows, entries, now, WriteAll(env, rows, entries, now).value)
    ensures WriteAll(env, rows, entries, now).Ok? <==> forall e | e in entries :: CanWrite(env, rows, e, now)
    decreases |entries|
  {
    hide KeyOf, Comparable, WithSupport, DistinctKeys, AllWritten;
    if entries == [] {
      NothingWritten(env, rows, now);
    } else {
      var e := entries[0];
      assert forall x :: x in entries <==> x == e || x in entries[1..];
      TailKeys(entries);
      var next := WriteOne(env, rows, e, now);
      if next.Ok? {
        WriteAllMeaning(env, next.value, entries[1..], now);
        assert forall x | x in entries[1..] :: CanWrite(env, next.value, x, now) <==> CanWrite(env, rows, x, now);
        if WriteAll(env, next.value, entries[1..], now).Ok? {
          WrittenFirst(env, rows, entries, now, next.value, WriteAll(env, next.value, entries[1..], now).value);
        }
      }
    }
  }

  lemma NothingWritten(env: Env, rows: Rows, now: string)
    ensures AllWritten(env, rows, [], now, rows)
  {
  }

  // ---- Results ----

  /** The two ways in which a batch is accepted. */
  lemma AcceptedMeaning(env: Env, rows: Rows, entries: seq<Entry>, now: string)
    requires DistinctKeys(entries) && ApplyBatch(env, rows, entries, now).Ok?
    ensures var (after, result) := ApplyBatch(env, rows, entries, now).value;
            && (forall e | e in entries :: Classified(rows, e))
            && result.total == |entries|
            && if result.alreadyApplied
               then after == rows && result.updated == 0 && result.already == |entries|
                    && (forall e | e in entries :: IsDesired(rows, e))
                    && exists e :: e in entries && !IsPreimage(rows, e)
               else AllWritten(env, rows, entries, now, after) && result.updated == |entries| && result.already == 0
                    && (forall e | e in entries :: IsPreimage(rows, e))
  {
    hide KeyOf, AlreadyRestored, Locked, Classify, WriteAll, AllWritten, DistinctKeys;
    ClassifyMeaning(rows, entries, Flags(false, false));
    WriteAllMeaning(env, rows, entries, now);
  }

  /**
   * All or nothing: after an accepted batch every row of the batch has its
   * requested support and is otherwise unchanged up to `updated_at`, and every
   * other row is untouched.
   */
  lemma AllOrNothing(env: Env, rows: Rows, entries: seq<Entry>, now: string, key: (string, Id), column: string)
    requires DistinctKeys(entries) && ApplyBatch(env, rows, entries, now).Ok? && key in rows
    ensures var after := ApplyBatch(env, rows, entries, now).value.0;
            && after.Keys == rows.Keys
            && (forall e | e in entries && KeyOf(e) == key :: Field(after[key], "support") == e.support)
            && ((forall e | e in entries :: KeyOf(e) != key) ==> after[key] == rows[key])
            && (column != "support" && column != UPDATED_AT ==>
                  (column in after[key] <==> column in rows[key]) && (column in after[key] ==> after[key][column] == rows[key][column]))
  {
    hide KeyOf, Locked, DistinctKeys, ApplyBatch;
    AcceptedMeaning(env, rows, entries, now);
    var (after, result) := ApplyBatch(env, rows, entries, now).value;
    if e :| e in entries && KeyOf(e) == key {
      RowAfter(env, rows, entries, now, e, column);
      forall other | other in entries && KeyOf(other) == key ensures Field(after[key], "support") == other.support {
        RowAfter(env, rows, entries, now, other, column);
      }
    }
  }

  /** One row of an accepted batch. */
  lemma RowAfter(env: Env, rows: Rows, entries: seq<Entry>, now: string, e: Entry, column: string)
    requires DistinctKeys(entries) && ApplyBatch(env, rows, entries, now).Ok? && e in entries
    ensures var after := ApplyBatch(env, rows, entries, now).value.0;
            && KeyOf(e) in rows && KeyOf(e) in after
            && Comparable(after[KeyOf(e)]) == Comparable(WithSupport(rows[KeyOf(e)], e.support))
            && Field(after[KeyOf(e)], "support") == e.support
            && (column != "support" && column != UPDATED_AT ==>
                  (column in after[KeyOf(e)] <==> column in rows[KeyOf(e)])
                  && (column in after[KeyOf(e)] ==> after[KeyOf(e)][column] == rows[KeyOf(e)][column]))
  {
    hide KeyOf, Locked, DistinctKeys, ApplyBatch, Comparable;
    AcceptedMeaning(env, rows, entries, now);
    var (after, result) := ApplyBatch(env, rows, entries, now).value;
    var row := rows[KeyOf(e)];
    if result.alreadyApplied {
      assert IsDesired(rows, e);
      DesiredRow(row, e.expected, e.support);
    }
    ComparableMeaning(after[KeyOf(e)], WithSupport(row, e.support));
  }

  /** A row that is already restored is itself with the requested support. */
  lemma DesiredRow(row: Fields, expected: Fields, support: Json)
    requires AlreadyRestored(row, expected, support)
    ensures Comparable(row) == Comparable(WithSupport(row, support))
  {
    hide Comparable;
    ComparableMeaning(row, WithSupport(expected, support));
    ComparableMeaning(row, WithSupport(row, support));
  }

  /** A batch that is partly in the old and partly in the new state is refused. */
  lemma MixedRefused(env: Env, rows: Rows, entries: seq<Entry>, now: string, a: Entry, b: Entry)
    requires a in entries && b in entries && KeyOf(a) in rows && KeyOf(b) in rows
    requires IsPreimage(rows, a) && !IsDesired(rows, a) && IsDesired(rows, b) && !IsPreimage(rows, b)
    ensures ApplyBatch(env, rows, entries, now).Err?
  {
    hide KeyOf, AlreadyRestored, Locked, Classify, WriteAll;
    ClassifyMeaning(rows, entries, Flags(false, false));
  }

  /** No accepted batch clears a mechanics lock. */
  lemma LocksStay(env: Env, rows: Rows, entries: seq<Entry>, now: string, key: (string, Id))
    requires DistinctKeys(entries) && ApplyBatch(env, rows, entries, now).Ok? && key in rows
    requires Locked(Field(rows[key], "support"))
    ensures var after := ApplyBatch(env, rows, entries, now).value.0;
            key in after && Locked(Field(after[key], "support"))
  {
    hide Locked, DistinctKeys, ApplyBatch;
    AllOrNothing(env, rows, entries, now, key, "");
    AcceptedMeaning(env, rows, entries, now);
    if e :| e in entries && KeyOf(e) == key {
      assert Classified(rows, e);
    }
  }

  // ---- Running a batch again ----

  /** The row that a batch leaves differs from its preimage in support or in `updated_at`. */
  predicate Moved(after: Rows, e: Entry)
    requires KeyOf(e) in after
  {
    Field(e.expected, "support") != e.support || "support" !in e.expected ||
    (UPDATED_AT in after[KeyOf(e)]) != (UPDATED_AT in e.expected) ||
    (UPDATED_AT in e.expected && after[KeyOf(e)][UPDATED_AT] != e.expected[UPDATED_AT])
  }

  lemma MovedMeaning(rows: Rows, e: Entry)
    requires KeyOf(e) in rows && IsDesired(rows, e)
    ensures IsPreimage(rows, e) <==> !Moved(rows, e)
  {
    hide KeyOf, Comparable;
    var row := rows[KeyOf(e)];
    ComparableMeaning(row, WithSupport(e.expected, e.support));
    if !Moved(rows, e) {
      assert row.Keys == e.expected.Keys;
      assert row == e.expected;
    }
  }

  /**
   * A second run of an accepted batch reports that it was already applied, and
   * writes nothing, if and only if the first run moved some row. A batch whose
   * rows were left exactly as expected is written again, every row of it, and
   * reports all of them as updated, unless a write does not stick.
   */
  lemma SecondRun(env: Env, rows: Rows, entries: seq<Entry>, now: string, later: string)
    requires DistinctKeys(entries) && ApplyBatch(env, rows, entries, now).Ok?
    ensures var after := ApplyBatch(env, rows, entries, now).value.0;
            var again := ApplyBatch(env, after, entries, later);
            && (forall e | e in entries :: KeyOf(e) in after && IsDesired(after, e))
            && if exists e :: e in entries && Moved(after, e) then
                 again == Ok((after, BatchResult(|entries|, 0, |entries|, true)))
               else if forall e | e in entries :: CanWrite(env, after, e, later) then
                 && again.Ok? && again.value.1 == BatchResult(|entries|, |entries|, 0, false)
                 && AllWritten(env, after, entries, later, again.value.0)
               else again.Err?
  {
    hide KeyOf, AlreadyRestored, Locked, Moved, Classify, WriteAll, DistinctKeys, CanWrite, AllWritten;
    var after := ApplyBatch(env, rows, entries, now).value.0;
    forall e | e in entries ensures Classified(after, e) && IsDesired(after, e) && (IsPreimage(after, e) <==> !Moved(after, e)) {
      SecondLook(env, rows, entries, now, e);
      MovedMeaning(after, e);
    }
    ClassifyMeaning(after, entries, Flags(false, false));
    WriteAllMeaning(env, after, entries, later);
  }

  // ---- A batch that is written twice ----

  function SmallRow(id: Id): Fields {
    map["id" := Str(id), "support" := Null]
  }

  /** One row, asked to keep the support it has. */
  function SmallRequest(planHash: string, id: Id): BatchRequest {
    BatchRequest(1, MODE_ROLLBACK, planHash, "x", 1, [EntryRequest("card", id, Some(Obj(SmallRow(id))), Some(Null))])
  }

  /** The database overwrites the support and nothing else. */
  const PLAIN := Env(v => true, (row, support, now) => WithSupport(row, support))

  lemma SmallOk(planHash: string, id: Id)
    requires IsSha256(planHash) && id != NIL_ID
    ensures BatchOk(PLAIN, SmallRequest(planHash, id))
  {
    hide IsSha256, ParseUuid, Trimmed;
    assert ParseUuid(id) == Some(id);
    assert Utf8Length("x") == 1 + Utf8Length("") by { assert "x"[1..] == ""; }
    assert "x"[0] == 'x' && !Blank("x");
  }

  /** A valid batch that moves nothing reports its row as updated on every run, and never as already applied. */
  lemma NoOpBatchRepeats(planHash: string, id: Id, now: string, later: string)
    requires IsSha256(planHash) && id != NIL_ID
    ensures BatchOk(PLAIN, SmallRequest(planHash, id))
    ensures var entries := PreparedEntries(SmallRequest(planHash, id).entries);
            var rows := map[("card", id) := SmallRow(id)];
            && ApplyBatch(PLAIN, rows, entries, now) == Ok((rows, BatchResult(1, 1, 0, false)))
            && ApplyBatch(PLAIN, rows, entries, later) == Ok((rows, BatchResult(1, 1, 0, false)))
  {
    hide BatchOk;
    SmallOk(planHash, id);
    KeptRow(id, now);
    KeptRow(id, later);
    assert PreparedEntries(SmallRequest(planHash, id).entries) == [SmallEntry(id)];
  }

  function SmallEntry(id: Id): Entry {
    Entry("card", id, SmallRow(id), Null)
  }

  lemma KeptRow(id: Id, now: string)
    ensures var rows := map[("card", id) := SmallRow(id)];
            ApplyBatch(PLAIN, rows, [SmallEntry(id)], now) == Ok((rows, BatchResult(1, 1, 0, false)))
  {
    hide Classify, WriteAll;
    var rows: Rows := map[("card", id) := SmallRow(id)];
    var entries := [SmallEntry(id)];
    var e := entries[0];
    assert SmallRow(id)["support" := Null] == SmallRow(id);
    assert IsPreimage(rows, e) && IsDesired(rows, e) && !ClearsLock(rows, e);
    ClassifyMeaning(rows, entries, Flags(false, false));
    WriteAllMeaning(PLAIN, rows, entries, now);
    assert CanWrite(PLAIN, rows, e, now);
    var after := WriteAll(PLAIN, rows, entries, now).value;
    assert after[("card", id)] == SmallRow(id) && after.Keys == {("card", id)};
    assert after == rows;
  }

  /** After an accepted batch each of its rows is the restored one and may be written again. */
  lemma SecondLook(env: Env, rows: Rows, entries: seq<Entry>, now: string, e: Entry)
    requires DistinctKeys(entries) && ApplyBatch(env, rows, entries, now).Ok? && e in entries
    ensures var after := ApplyBatch(env, rows, entries, now).value.0;
            KeyOf(e) in after && IsDesired(after, e) && !ClearsLock(after, e)
  {
    hide KeyOf, DistinctKeys, ApplyBatch, Locked, Comparable;
    AcceptedMeaning(env, rows, entries, now);
    RowAfter(env, rows, entries, now, e, "");
    var (after, result) := ApplyBatch(env, rows, entries, now).value;
    if !result.alreadyApplied {
      assert IsPreimage(rows, e);
    }
  }

  // ---- Rolling back ----

  /** The batch that puts the old supports back, expecting the rows as they are now. */
  function Reverse(rows: Rows, after: Rows, entries: seq<Entry>): (r: seq<Entry>)
    requires forall e | e in entries :: KeyOf(e) in rows && KeyOf(e) in after
    ensures |r| == |entries|
    ensures forall i | 0 <= i < |r| ::
              entries[i] in entries &&
              r[i] == Entry(entries[i].kind, entries[i].id, after[KeyOf(entries[i])], Field(rows[KeyOf(entries[i])], "support"))
  {
    seq(|entries|, i requires 0 <= i < |entries| =>
      assert entries[i] in entries;
      Entry(entries[i].kind, entries[i].id, after[KeyOf(entries[i])], Field(rows[KeyOf(entries[i])], "support")))
  }

  /** The database changes nothing but the support and its own column. */
  ghost predicate Faithful(env: Env) {
    forall row, support, now :: Comparable(env.persist(row, support, now)) == Comparable(WithSupport(row, support))
  }

  /**
   * The reverse of a batch that was written is accepted if and only if no old
   * support would clear a lock that the batch set, and then every row is back
   * as it was up to `updated_at`.
   */
  lemma ReverseRestores(env: Env, rows: Rows, entries: seq<Entry>, now: string, later: string)
    requires DistinctKeys(entries) && ApplyBatch(env, rows, entries, now).Ok? && Faithful(env)
    requires !ApplyBatch(env, rows, entries, now).value.1.alreadyApplied
    requires forall k | k in rows :: "support" in rows[k]
    ensures forall e | e in entries :: KeyOf(e) in rows && KeyOf(e) in ApplyBatch(env, rows, entries, now).value.0
    ensures var after := ApplyBatch(env, rows, entries, now).value.0;
            var back := ApplyBatch(env, after, Reverse(rows, after, entries), later);
            && (back.Ok? <==> forall e | e in entries :: Locked(e.support) ==> Locked(Field(rows[KeyOf(e)], "support")))
            && (back.Ok? ==> back.value.0.Keys == rows.Keys
                             && forall k | k in rows :: Comparable(back.value.0[k]) == Comparable(rows[k]))
  {
    hide Locked, DistinctKeys, ApplyBatch, Comparable, Faithful;
    AcceptedMeaning(env, rows, entries, now);
    var after := ApplyBatch(env, rows, entries, now).value.0;
    var reverse := Reverse(rows, after, entries);
    ReverseKeys(rows, after, entries);
    forall e | e in entries ensures Field(after[KeyOf(e)], "support") == e.support {
      RowAfter(env, rows, entries, now, e, "");
    }
    ReverseAccepted(env, after, reverse, later);
    forall i | 0 <= i < |entries| ensures KeyOf(reverse[i]) == KeyOf(entries[i]) && reverse[i] in reverse && entries[i] in entries {
    }
    forall r | r in reverse
      ensures exists e :: e in entries && r == Entry(e.kind, e.id, after[KeyOf(e)], Field(rows[KeyOf(e)], "support"))
    {
      var i :| 0 <= i < |reverse| && reverse[i] == r;
      assert entries[i] in entries;
    }
    forall e | e in entries
      ensures exists r :: r in reverse && r == Entry(e.kind, e.id, after[KeyOf(e)], Field(rows[KeyOf(e)], "support"))
    {
      var i :| 0 <= i < |entries| && entries[i] == e;
      assert reverse[i] in reverse;
    }
    var back := ApplyBatch(env, after, reverse, later);
    if back.Ok? {
      forall k | k in rows ensures Comparable(back.value.0[k]) == Comparable(rows[k]) {
        RestoredRow(env, rows, entries, now, later, reverse, k);
      }
    }
  }

  lemma ReverseKeys(rows: Rows, after: Rows, entries: seq<Entry>)
    requires DistinctKeys(entries) && forall e | e in entries :: KeyOf(e) in rows && KeyOf(e) in after
    ensures DistinctKeys(Reverse(rows, after, entries))
  {
  }

  /** A batch that expects the rows as they are is accepted exactly when it clears no lock. */
  lemma ReverseAccepted(env: Env, rows: Rows, entries: seq<Entry>, now: string)
    requires DistinctKeys(entries) && Faithful(env)
    requires forall e | e in entries :: KeyOf(e) in rows && IsPreimage(rows, e)
    ensures ApplyBatch(env, rows, entries, now).Ok? <==> forall e | e in entries :: !ClearsLock(rows, e)
    ensures ApplyBatch(env, rows, entries, now).Ok? ==> AllWritten(env, rows, entries, now, ApplyBatch(env, rows, entries, now).value.0)
  {
    hide KeyOf, AlreadyRestored, Locked, Classify, WriteAll, DistinctKeys, Comparable, WithSupport;
    ClassifyMeaning(rows, entries, Flags(false, false));
    WriteAllMeaning(env, rows, entries, now);
  }

  lemma RestoredRow(env: Env, rows: Rows, entries: seq<Entry>, now: string, later: string, reverse: seq<Entry>,
        k: (string, Id))
    requires DistinctKeys(entries) && ApplyBatch(env, rows, entries, now).Ok? && k in rows && "support" in rows[k]
    requires !ApplyBatch(env, rows, entries, now).value.1.alreadyApplied
    requires forall e | e in entries :: KeyOf(e) in rows && KeyOf(e) in ApplyBatch(env, rows, entries, now).value.0
    requires reverse == Reverse(rows, ApplyBatch(env, rows, entries, now).value.0, entries)
    requires var after := ApplyBatch(env, rows, entries, now).value.0;
             && ApplyBatch(env, after, reverse, later).Ok?
             && AllWritten(env, after, reverse, later, ApplyBatch(env, after, reverse, later).value.0)
    ensures var after := ApplyBatch(env, rows, entries, now).value.0;
            var back := ApplyBatch(env, after, reverse, later).value.0;
            k in back && Comparable(back[k]) == Comparable(rows[k])
  {
    hide Locked, DistinctKeys, ApplyBatch, Comparable, Faithful;
    AcceptedMeaning(env, rows, entries, now);
    var after := ApplyBatch(env, rows, entries, now).value.0;
    var back := ApplyBatch(env, after, reverse, later).value.0;
    if e :| e in entries && KeyOf(e) == k {
      var i :| 0 <= i < |entries| && entries[i] == e;
      var r := reverse[i];
      assert r in reverse && KeyOf(r) == k;
      assert Comparable(back[k]) == Comparable(WithSupport(after[k], r.support));
      TwiceWritten(rows[k], after[k], back[k], e.support);
    } else {
      forall r | r in reverse ensures KeyOf(r) != k {
        var i :| 0 <= i < |reverse| && reverse[i] == r;
        assert entries[i] in entries;
      }
    }
  }

  /** Writing a support and then the old one again gives the old row up to `updated_at`. */
  lemma TwiceWritten(row: Fields, once: Fields, twice: Fields, support: Json)
    requires "support" in row && Comparable(once) == Comparable(WithSupport(row, support))
    requires Comparable(twice) == Comparable(WithSupport(once, Field(row, "support")))
    ensures Comparable(twice) == Comparable(row)
  {
    hide Comparable;
    ComparableMeaning(once, WithSupport(row, support));
    ComparableMeaning(twice, WithSupport(once, Field(row, "support")));
    ComparableMeaning(twice, row);
  }
}
