/**
 * The decision ledger: one open row exactly while a resolution is pending, and
 * no request or resolution identity used twice.
 */
module LedgerDecisions {
  import opened JsonValues
  import opened Outcomes
  import opened WorldState
  import opened LedgerTables
  import opened LedgerRules
  import opened LedgerChain
  import CanonicalRoundTrip
  import CT = CanonicalText

  // ---- Invariants ----

  /** What the unique indexes of the decision table enforce. */
  predicate DecisionKeys(rows: seq<DecisionRow>) {
    forall i, j | 0 <= i < j < |rows| ::
      && rows[i].requestId != rows[j].requestId && rows[i].resolutionId != rows[j].resolutionId
      && !(rows[i].status.Open? && rows[j].status.Open?)
  }

  /** The open row, if any, is the pending resolution. */
  predicate PendingLedger(env: Env, rows: seq<DecisionRow>, pending: Json) {
    if pending.Null? then OpenRows(rows) == []
    else |OpenRows(rows)| == 1 && OpenRowMatches(env, OpenRows(rows)[0], pending)
  }

  /** Rows are only appended, and an open row can only be resolved, by this command. */
  predicate DecisionsGrow(before: seq<DecisionRow>, after: seq<DecisionRow>, commandId: Uuid) {
    && |before| <= |after|
    && forall i | 0 <= i < |before| ::
         after[i] == before[i] || (before[i].status.Open? && after[i] == before[i].(status := Resolved(commandId)))
  }

  // ---- Counting open rows ----

  lemma {:induction false} NoOpenRows(rows: seq<DecisionRow>)
    requires forall i | 0 <= i < |rows| :: !rows[i].status.Open?
    ensures OpenRows(rows) == []
  {
    if rows != [] {
      assert !rows[0].status.Open?;
      NoOpenRows(rows[1..]);
    }
  }

  lemma {:induction false} OneOpenRow(rows: seq<DecisionRow>, i: nat)
    requires i < |rows| && rows[i].status.Open?
    requires forall j | 0 <= j < |rows| && j != i :: !rows[j].status.Open?
    ensures OpenRows(rows) == [rows[i]]
  {
    if i == 0 {
      NoOpenRows(rows[1..]);
    } else {
      assert !rows[0].status.Open?;
      OneOpenRow(rows[1..], i - 1);
    }
  }

  /** With at most one open row, the listing of open rows is that row or nothing. */
  lemma OpenRowsAre(rows: seq<DecisionRow>)
    requires DecisionKeys(rows)
    ensures |OpenRows(rows)| <= 1
    ensures ExistingOpen(rows).None? <==> forall i | 0 <= i < |rows| :: !rows[i].status.Open?
    ensures forall i | 0 <= i < |rows| && rows[i].status.Open? :: ExistingOpen(rows) == Some(rows[i])
  {
    if i :| 0 <= i < |rows| && rows[i].status.Open? {
      assert forall j | 0 <= j < |rows| && j != i :: !rows[j].status.Open?;
      OneOpenRow(rows, i);
    } else {
      NoOpenRows(rows);
    }
  }

  // ---- Resolving and opening ----

  /** Resolving the open row leaves none open. */
  lemma ResolveCloses(rows: seq<DecisionRow>, commandId: Uuid)
    requires DecisionKeys(rows) && ExistingOpen(rows).Some?
    ensures var closed := ResolveRows(rows, ExistingOpen(rows).value.requestId, commandId);
            && DecisionKeys(closed) && DecisionsGrow(rows, closed, commandId)
            && (forall i | 0 <= i < |closed| :: !closed[i].status.Open?)
            && (forall i | 0 <= i < |rows| && rows[i].status.Open? :: closed[i].status == Resolved(commandId))
  {
    hide OpenRows;
    OpenRowsAre(rows);
  }

  lemma OpenedRowMatches(env: Env, p: Prepared, d: NewDecision, eventSeq: int)
    requires Exact(p.world.pending) && PendingDecision(p.world.pending).Some?
    requires PendingDecision(p.world.pending).value.resolutionId == d.metadata.resolutionId
    requires PendingDecision(p.world.pending).value.requestId == d.metadata.requestId
    ensures OpenRowMatches(env, OpenedRow(env, p, d, eventSeq), p.world.pending)
  {
    hide PendingDecision, StoredJson;
    StoredIsValue(p.world.pending);
  }

  lemma {:induction false} AppendOpens(rows: seq<DecisionRow>, row: DecisionRow)
    requires DecisionKeys(rows) && row.status.Open?
    requires forall r | r in rows :: r.requestId != row.requestId && r.resolutionId != row.resolutionId && !r.status.Open?
    ensures DecisionKeys(rows + [row]) && OpenRows(rows + [row]) == [row]
  {
    var all := rows + [row];
    forall i | 0 <= i < |rows| ensures all[i] == rows[i] && rows[i] in rows {
    }
    OneOpenRow(all, |rows|);
  }

  /** The planned opening names a pending resolution with fresh identities. */
  lemma PlanMeaning(env: Env, t: Tables, user: Uuid, p: Prepared, oldPending: Json, plan: DecisionPlan)
    requires user in t.members && PlanDecision(env, t, user, p, oldPending) == Ok(plan)
    requires Exact(oldPending) && Exact(p.world.pending)
    ensures CheckExisting(env, ExistingOpen(t.decisions), oldPending, p.request.actorBindings).Pass?
    ensures plan.resolve.None? && plan.open.None? ==> oldPending == p.world.pending
    ensures plan.resolve == if oldPending == p.world.pending || oldPending.Null? then None else ExistingOpen(t.decisions)
    ensures plan.open.Some? <==> oldPending != p.world.pending && !p.world.pending.Null?
    ensures plan.open.Some? ==>
              var d := plan.open.value.metadata;
              && PendingDecision(p.world.pending).Some?
              && PendingDecision(p.world.pending).value.resolutionId == d.resolutionId
              && PendingDecision(p.world.pending).value.requestId == d.requestId
              && BoundWorldActor(p.request.actorBindings, d.decidingActorId) == Some(PendingDecision(p.world.pending).value.actorId)
  {
    hide CheckExisting, PendingDecision, BoundWorldActor, OpenRows, CT.Text, ActiveActors;
    if CanonicalBytes(oldPending) == CanonicalBytes(p.world.pending) {
      CanonicalRoundTrip.TextInjective(oldPending, p.world.pending);
    }
    OldRowExists(env, t, p, oldPending);
  }

  lemma OldRowExists(env: Env, t: Tables, p: Prepared, oldPending: Json)
    ensures CheckExisting(env, ExistingOpen(t.decisions), oldPending, p.request.actorBindings).Pass? ==>
              (ExistingOpen(t.decisions).Some? <==> !oldPending.Null?)
  {
  }

  /** What the response says about decisions is what the ledger then holds. */
  predicate ReportsLedger(rows: seq<DecisionRow>, pending: Json, commandId: Uuid, result: Option<DecisionResult>) {
    if !pending.Null? then
      |OpenRows(rows)| == 1 && result == Some(DecisionResult(OpenRows(rows)[0].requestId, true))
    else
      result.Some? ==>
        && !result.value.open
        && exists i :: 0 <= i < |rows| && rows[i].requestId == result.value.requestId && rows[i].status == Resolved(commandId)
  }

  /** The open row's deciding actor is bound to the world actor the pending resolution names. */
  predicate DeciderNamed(rows: seq<DecisionRow>, bindings: seq<ActorBinding>, pending: Json) {
    !pending.Null? ==>
      && ExistingOpen(rows).Some? && PendingDecision(pending).Some?
      && BoundWorldActor(bindings, ExistingOpen(rows).value.decidingActorId) == Some(PendingDecision(pending).value.actorId)
  }

  /**
   * After an accepted transition, whatever the ledger was before, exactly one
   * row is open if a resolution is pending and none otherwise, the open row is
   * the pending resolution, and all identities are still distinct.
   */
  lemma DecisionStep(env: Env, t: Tables, user: Uuid, p: Prepared, oldPending: Json, plan: DecisionPlan, eventSeq: int)
    requires DecisionKeys(t.decisions)
    requires user in t.members && PlanDecision(env, t, user, p, oldPending) == Ok(plan)
    requires Exact(oldPending) && Exact(p.world.pending)
    requires ApplyDecision(env, t.decisions, p, plan, eventSeq).Ok?
    ensures var (rows, result) := ApplyDecision(env, t.decisions, p, plan, eventSeq).value;
            && DecisionKeys(rows) && PendingLedger(env, rows, p.world.pending)
            && DecisionsGrow(t.decisions, rows, p.request.commandId)
            && ReportsLedger(rows, p.world.pending, p.request.commandId, result)
            && DeciderNamed(rows, p.request.actorBindings, p.world.pending)
  {
    hide PlanDecision, PendingDecision, OpenRowMatches, BoundWorldActor, OpenedRow, OpenRows;
    var rows, commandId := t.decisions, p.request.commandId;
    MatchingIsPending(env, rows, oldPending);
    OpenRowsAre(rows);
    PlanMeaning(env, t, user, p, oldPending, plan);
    var closed := rows;
    if plan.resolve.Some? {
      closed := ResolveRows(rows, plan.resolve.value.requestId, commandId);
      ResolveCloses(rows, commandId);
      var i :| 0 <= i < |rows| && rows[i].status.Open?;
      assert closed[i].requestId == plan.resolve.value.requestId;
    }
    if plan.open.Some? {
      var row := OpenedRow(env, p, plan.open.value, eventSeq);
      OpenedRowMatches(env, p, plan.open.value, eventSeq);
      OpenedRowIs(env, p, plan.open.value, eventSeq);
      AppendOpens(closed, row);
      forall i | 0 <= i < |rows| ensures (closed + [row])[i] == closed[i] {
      }
    } else {
      OpenRowsAre(closed);
      NoOpenMeansEmpty(closed);
    }
  }

  lemma MatchingIsPending(env: Env, rows: seq<DecisionRow>, pending: Json)
    ensures ExistingOpen(rows).Some? && OpenRowMatches(env, ExistingOpen(rows).value, pending) ==> PendingDecision(pending).Some?
  {
  }

  lemma NoOpenMeansEmpty(rows: seq<DecisionRow>)
    ensures (forall i | 0 <= i < |rows| :: !rows[i].status.Open?) ==> OpenRows(rows) == []
  {
    if forall i | 0 <= i < |rows| :: !rows[i].status.Open? {
      NoOpenRows(rows);
    }
  }

  lemma OpenedRowIs(env: Env, p: Prepared, d: NewDecision, eventSeq: int)
    ensures var row := OpenedRow(env, p, d, eventSeq);
            && row.requestId == d.metadata.requestId && row.resolutionId == d.metadata.resolutionId && row.status.Open?
            && row.decidingActorId == d.metadata.decidingActorId
  {
  }
}
