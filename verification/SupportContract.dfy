/** Exact-support batches: exactly which are well formed and accepted, said of the request and the rows alone. */
module SupportContract {
  import opened JsonValues
  import opened Outcomes
  import opened TextRules
  import opened WorldState
  import opened Identifiers
  import opened EncounterState
  import opened SupportBatch

  // ---- Requests ----

  /** The expected row names its id, has a support, and what is asked for is null or an object, certified if that is the mode. */
  predicate EntryAllowed(env: Env, mode: string, e: EntryRequest) {
    && e.kind in {"card", "effect", "action", "spell", "race", "class", "feat", "background"} && e.id != NIL_ID
    && e.expectedCurrent.Some? && e.expectedCurrent.value.Obj?
    && var row := e.expectedCurrent.value.fields;
    && "id" in row && row["id"].Str? && ParseUuid(row["id"].text) == Some(e.id) && "support" in row
    && e.support.Some? && (e.support.value == Null || e.support.value.Obj?)
    && (mode == "certification_apply" ==> e.support.value.Obj? && env.certified(e.support.value))
  }

  predicate BatchAllowed(env: Env, r: BatchRequest) {
    && r.schemaVersion == 1 && (r.mode == "certification_apply" || r.mode == "exact_rollback")
    && |r.planHash| == 71 && r.planHash[..7] == "sha256:"
    && (forall i | 7 <= i < 71 :: '0' <= r.planHash[i] <= '9' || 'a' <= r.planHash[i] <= 'f')
    && TrimSpace(r.operationId) != "" && Utf8Length(r.operationId) <= 255
    && 1 <= |r.entries| <= 512 && r.expectedCount == |r.entries|
    && (forall e | e in r.entries :: EntryAllowed(env, r.mode, e))
    && forall i, j | 0 <= i < j < |r.entries| :: r.entries[i].kind != r.entries[j].kind || r.entries[i].id != r.entries[j].id
  }

  lemma EntryIff(env: Env, mode: string, e: EntryRequest)
    ensures EntryOk(env, mode, e) <==> EntryAllowed(env, mode, e)
  {
    hide ParseUuid;
  }

  /** A batch is well formed if and only if it is an allowed one. */
  lemma BatchIff(env: Env, r: BatchRequest)
    ensures BatchOk(env, r) <==> BatchAllowed(env, r)
  {
    hide EntryOk, EntryAllowed, TrimSpace, Utf8Length;
    forall e | e in r.entries ensures EntryOk(env, r.mode, e) <==> EntryAllowed(env, r.mode, e) {
      EntryIff(env, r.mode, e);
    }
    assert forall i | 0 <= i < |r.entries| :: r.entries[i] in r.entries;
    forall i, j | 0 <= i < j < |r.entries|
      ensures (r.entries[i].kind, r.entries[i].id) != (r.entries[j].kind, r.entries[j].id) <==>
              r.entries[i].kind != r.entries[j].kind || r.entries[i].id != r.entries[j].id
    {
    }
  }

  predicate AskedBy(q: EntryRequest, e: Entry) {
    && e.kind == q.kind && e.id == q.id && q.expectedCurrent == Some(Obj(e.expected)) && q.support == Some(e.support)
  }

  lemma AllShaped(env: Env, r: BatchRequest)
    requires BatchOk(env, r)
    ensures forall i | 0 <= i < |r.entries| :: Shaped(r.entries[i])
  {
    hide HeaderOk, ParseUuid;
  }

  /**
   * Whatever order a well-formed batch is prepared in, what it asks of each row
   * is what the request asked, and in certification mode a certified object.
   */
  lemma PreparedAsks(env: Env, r: BatchRequest, prepared: seq<Entry>)
    requires BatchOk(env, r)
    requires (forall i | 0 <= i < |r.entries| :: Shaped(r.entries[i])) ==> multiset(prepared) == multiset(PreparedEntries(r.entries))
    ensures |prepared| == |r.entries|
    ensures forall e | e in prepared :: exists q :: q in r.entries && AskedBy(q, e)
    ensures forall q | q in r.entries :: exists e :: e in prepared && AskedBy(q, e)
    ensures forall e | e in prepared ::
              (e.support == Null || e.support.Obj?)
              && (r.mode == "certification_apply" ==> e.support.Obj? && env.certified(e.support))
  {
    hide ParseUuid, TrimSpace, Utf8Length, BatchOk;
    AllShaped(env, r);
    BatchIff(env, r);
    var all := PreparedEntries(r.entries);
    assert |multiset(prepared)| == |prepared| && |multiset(all)| == |all|;
    forall e | e in prepared ensures exists q :: q in r.entries && AskedBy(q, e) {
      assert e in multiset(all);
      var i :| 0 <= i < |all| && all[i] == e;
      assert r.entries[i] in r.entries && AskedBy(r.entries[i], e);
    }
    forall q | q in r.entries ensures exists e :: e in prepared && AskedBy(q, e) {
      var i :| 0 <= i < |r.entries| && r.entries[i] == q;
      assert all[i] in all && all[i] in multiset(all) && all[i] in multiset(prepared);
      assert AskedBy(q, all[i]);
    }
    forall e | e in prepared
      ensures e.support == Null || e.support.Obj?
      ensures r.mode == "certification_apply" ==> e.support.Obj? && env.certified(e.support)
    {
      var q :| q in r.entries && AskedBy(q, e);
      assert EntryAllowed(env, r.mode, q);
    }
  }

  // ---- The transaction ----

  predicate LocksMechanics(v: Json) {
    v.Obj? && "mechanics_locked" in v.fields && v.fields["mechanics_locked"] == Bool(true)
  }

  /** The row is the expected one with the requested support, up to the column that the database maintains. */
  predicate AlreadyThere(row: Fields, e: Entry) {
    forall k | k in row.Keys + e.expected.Keys + {"support"} ::
      k != "updated_at" ==> if k == "support" then k in row && row[k] == e.support
                            else k in row && k in e.expected && row[k] == e.expected[k]
  }

  /** The row exists, a lock in it is kept, and it is as expected or already as asked. */
  predicate RowAllowed(rows: Rows, e: Entry) {
    && (e.kind, e.id) in rows
    && var row := rows[(e.kind, e.id)];
    && ("support" in row && LocksMechanics(row["support"]) ==> LocksMechanics(e.support))
    && (row == e.expected || AlreadyThere(row, e))
  }

  /** The write changes the support alone, up to the column that the database maintains. */
  predicate WriteSticks(env: Env, row: Fields, e: Entry, now: string) {
    var written := env.persist(row, e.support, now);
    forall k | k in written.Keys + row.Keys + {"support"} ::
      k != "updated_at" ==> if k == "support" then k in written && written[k] == e.support
                            else k in written && k in row && written[k] == row[k]
  }

  lemma ThereIff(row: Fields, e: Entry)
    ensures AlreadyRestored(row, e.expected, e.support) <==> AlreadyThere(row, e)
  {
    hide Comparable;
    ComparableMeaning(row, WithSupport(e.expected, e.support));
  }

  lemma SticksIff(env: Env, rows: Rows, e: Entry, now: string)
    ensures CanWrite(env, rows, e, now) <==> (e.kind, e.id) in rows && WriteSticks(env, rows[(e.kind, e.id)], e, now)
  {
    hide Comparable;
    if (e.kind, e.id) in rows {
      var row := rows[(e.kind, e.id)];
      ComparableMeaning(env.persist(row, e.support, now), WithSupport(row, e.support));
    }
  }

  lemma RowIff(rows: Rows, e: Entry)
    ensures Classified(rows, e) <==> RowAllowed(rows, e)
  {
    hide AlreadyRestored, AlreadyThere;
    if (e.kind, e.id) in rows { ThereIff(rows[(e.kind, e.id)], e); }
  }

  /**
   * A batch is accepted if and only if every row is allowed, not some rows
   * still wait for their support while others already have it, and, unless
   * some already have it, every write sticks. It then answers with the count
   * of rows written, or of rows found in place.
   */
  lemma ApplyIff(env: Env, rows: Rows, entries: seq<Entry>, now: string)
    requires DistinctKeys(entries)
    ensures var result := ApplyBatch(env, rows, entries, now);
            if !(forall e | e in entries :: RowAllowed(rows, e)) then result.Err?
            else
              var waits := exists e :: e in entries && !AlreadyThere(rows[(e.kind, e.id)], e);
              var done := exists e :: e in entries && rows[(e.kind, e.id)] != e.expected;
              if waits && done then result == Err(Disagrees)
              else if done then result == Ok((rows, BatchResult(|entries|, 0, |entries|, true)))
              else if forall e | e in entries :: WriteSticks(env, rows[(e.kind, e.id)], e, now) then
                result.Ok? && result.value.1 == BatchResult(|entries|, |entries|, 0, false)
              else result.Err?
  {
    hide Classified, RowAllowed, Classify, WriteAll, CanWrite, WriteSticks, DistinctKeys, AlreadyRestored, AlreadyThere, AllWritten;
    forall e | e in entries
      ensures Classified(rows, e) <==> RowAllowed(rows, e)
      ensures CanWrite(env, rows, e, now) <==> (e.kind, e.id) in rows && WriteSticks(env, rows[(e.kind, e.id)], e, now)
      ensures (e.kind, e.id) in rows ==> (IsDesired(rows, e) <==> AlreadyThere(rows[(e.kind, e.id)], e))
      ensures RowAllowed(rows, e) ==> (e.kind, e.id) in rows && (IsPreimage(rows, e) || IsDesired(rows, e))
    {
      RowIff(rows, e);
      SticksIff(env, rows, e, now);
      if RowAllowed(rows, e) { RowParts(rows, e); }
      if (e.kind, e.id) in rows { ThereIff(rows[(e.kind, e.id)], e); }
    }
    ClassifyMeaning(rows, entries, Flags(false, false));
    WriteAllMeaning(env, rows, entries, now);
  }

  /** The first row that is not allowed decides: a missing one is missing, any other disagrees. */
  predicate FirstRow(rows: Rows, entries: seq<Entry>, error: BatchError) {
    exists i: nat | i < |entries| ::
      && !RowAllowed(rows, entries[i]) && error == (if (entries[i].kind, entries[i].id) in rows then Disagrees else MissingRow)
      && forall j | 0 <= j < i :: RowAllowed(rows, entries[j])
  }

  lemma {:induction false} ClassifyFault(rows: Rows, entries: seq<Entry>, flags: Flags)
    ensures Classify(rows, entries, flags).Err? ==> FirstRow(rows, entries, Classify(rows, entries, flags).error)
    decreases |entries|
  {
    hide RowAllowed, AlreadyRestored;
    if entries != [] {
      var e := entries[0];
      RowIff(rows, e);
      var result := Classify(rows, entries, flags);
      if Classified(rows, e) && result.Err? {
        var next := Flags(flags.preimageOnly || (IsPreimage(rows, e) && !IsDesired(rows, e)),
                          flags.desiredOnly || (IsDesired(rows, e) && !IsPreimage(rows, e)));
        ClassifyFault(rows, entries[1..], next);
        var i: nat :| i < |entries[1..]| && !RowAllowed(rows, entries[1..][i])
                      && result.error == (if (entries[1..][i].kind, entries[1..][i].id) in rows then Disagrees else MissingRow)
                      && forall j | 0 <= j < i :: RowAllowed(rows, entries[1..][j]);
        assert entries[i + 1] == entries[1..][i];
        assert forall j | 0 < j < i + 1 :: entries[j] == entries[1..][j - 1];
      }
    }
  }

  lemma {:induction false} WriteFault(env: Env, rows: Rows, entries: seq<Entry>, now: string)
    requires forall e | e in entries :: (e.kind, e.id) in rows
    ensures WriteAll(env, rows, entries, now).Err? ==> WriteAll(env, rows, entries, now) == Err(Disagrees)
    decreases |entries|
  {
    hide Comparable;
    if entries != [] {
      assert entries[0] in entries;
      var next := WriteOne(env, rows, entries[0], now);
      if next.Ok? {
        WriteFault(env, next.value, entries[1..], now);
      }
    }
  }

  /** A refused batch names the first row that is missing or disagrees, and disagrees if the rows are of both kinds or a write does not stick. */
  lemma ApplyFaults(env: Env, rows: Rows, entries: seq<Entry>, now: string)
    ensures var result := ApplyBatch(env, rows, entries, now);
            result.Err? ==>
              if forall e | e in entries :: RowAllowed(rows, e) then result == Err(Disagrees) else FirstRow(rows, entries, result.error)
  {
    hide Classified, RowAllowed, Classify, WriteAll, FirstRow, AlreadyRestored, AlreadyThere;
    ClassifyFault(rows, entries, Flags(false, false));
    FirstRowExists(rows, entries);
    if forall e | e in entries :: RowAllowed(rows, e) {
      forall e | e in entries ensures (e.kind, e.id) in rows { RowParts(rows, e); }
      WriteFault(env, rows, entries, now);
    } else {
      var e :| e in entries && !RowAllowed(rows, e);
      RowIff(rows, e);
      ClassifyMeaning(rows, entries, Flags(false, false));
    }
  }

  lemma FirstRowExists(rows: Rows, entries: seq<Entry>)
    ensures forall error :: FirstRow(rows, entries, error) ==> exists e :: e in entries && !RowAllowed(rows, e)
  {
    hide RowAllowed;
  }

  lemma RowParts(rows: Rows, e: Entry)
    requires RowAllowed(rows, e)
    ensures (e.kind, e.id) in rows && (IsPreimage(rows, e) || AlreadyThere(rows[(e.kind, e.id)], e))
  {
  }
}
