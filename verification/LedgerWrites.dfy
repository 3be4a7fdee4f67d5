/** What a committed submission leaves in every table, row by row. */
module LedgerWrites {
  import opened JsonValues
  import opened Outcomes
  import opened WorldState
  import opened LedgerTables
  import opened LedgerRules
  import opened LedgerChain
  import opened LedgerActors
  import opened LedgerDecisions
  import opened LedgerRuns
  import opened LedgerTheorems
  import opened LedgerAcceptance
  import opened LedgerResponses
  import opened LedgerIntegrity
  import opened LedgerPermission
  import CanonicalJson
  import CT = CanonicalText

  // ---- Session, snapshot, event, command ----

  /** The session row points to the new snapshot; nothing else of it changes, and no member does. */
  predicate SessionWritten(t: Tables, p: Prepared, after: Tables) {
    && Exact(p.snapshot)
    && after.members == t.members
    && after.session == t.session.(
         snapshot := p.snapshot, canonicalBytes := CT.Text(p.snapshot), schemaVersion := 5, snapshotSeq := t.session.snapshotSeq + 1,
         revision := t.session.revision + 1, stateHash := p.request.stateHash)
  }

  predicate EventWritten(env: Env, t: Tables, now: string, p: Prepared, e: EventRow) {
    && e.seqNo == |t.events| + 1 && e.commandId == p.request.commandId && e.identity == t.session.identity
    && e.sourceActorId == p.request.sourceActorId
    && e.stateHashBefore == t.session.stateHash && e.stateHashAfter == p.request.stateHash
    && Intact(env, e.payload, e.canonicalBytes, e.eventHash) && e.payload.Obj?
    && var f := e.payload.fields;
    && f.Keys == {"type", "sessionId", "commandId", "semanticCommandId", "rulesetReleaseId", "rulesArtifactHash", "serializerVersion",
                  "eventSeq", "snapshotSeq", "revisionBefore", "revisionAfter", "sourceActorId", "targetActorIds", "stateHashBefore",
                  "stateHashAfter", "metadata", "semanticAuthority", "schemaValidation", "occurredAt"}
    && PayloadMatches(e.payload, t.session.snapshotSeq + 1, t.session.revision + 1, e, p.request.semanticCommandId)
    && Says(f, "revisionBefore", Num(t.session.revision)) && Says(f, "sourceActorId", Str(p.request.sourceActorId))
    && Says(f, "targetActorIds", Arr(TextItems(p.request.targetActorIds))) && Says(f, "metadata", p.metadata)
    && Says(f, "occurredAt", Str(now))
  }

  /** One event, one snapshot that names its hash, one command row with the request and its answer. */
  predicate HistoryWritten(env: Env, t: Tables, user: Uuid, now: string, p: Prepared, after: Tables, response: Response) {
    && Exact(p.snapshot) && Exact(p.body)
    && |after.events| == |t.events| + 1 && after.events[..|t.events|] == t.events
    && EventWritten(env, t, now, p, after.events[|t.events|])
    && after.snapshots == t.snapshots + [SnapshotRow(
         t.session.snapshotSeq + 1, t.session.revision + 1, t.session.identity, 5, p.snapshot, CT.Text(p.snapshot), p.request.stateHash,
         Some(after.events[|t.events|].eventHash))]
    && after.commands.Keys == t.commands.Keys + {p.request.commandId}
    && (forall id | id in t.commands :: after.commands[id] == t.commands[id])
    && var c := after.commands[p.request.commandId];
    && c.semanticId == p.request.semanticCommandId && c.controller == user && c.bodyBytes == CT.Text(p.body)
    && c.requestHash == env.hash(CT.Text(p.body)) && c.status == Committed && ReadResponse(c.result) == Some(response)
    && Intact(env, c.result, c.resultBytes, c.resultHash)
  }

  lemma EventKeys(s: SessionRow, p: Prepared, eventSeq: int, now: string)
    ensures EventBody(s, p, eventSeq, now).Obj?
    ensures EventBody(s, p, eventSeq, now).fields.Keys ==
            {"type", "sessionId", "commandId", "semanticCommandId", "rulesetReleaseId", "rulesArtifactHash", "serializerVersion",
             "eventSeq", "snapshotSeq", "revisionBefore", "revisionAfter", "sourceActorId", "targetActorIds", "stateHashBefore",
             "stateHashAfter", "metadata", "semanticAuthority", "schemaValidation", "occurredAt"}
  {
    hide TextItems;
  }

  lemma EventRow(env: Env, t: Tables, now: string, p: Prepared, base: WorldView)
    requires Chain(env, t) && WellPrepared(env, p) && p.world.revision == t.session.revision + 1
    requires Exact(EventBody(t.session, p, |t.events| + 1, now))
    ensures EventWritten(env, t, now, p,
                         NewEvent(env, t.session, p, |t.events| + 1, CT.Text(EventBody(t.session, p, |t.events| + 1, now))))
  {
    hide Chain, WellPrepared, EventBody, CT.Text, StoredJson, PayloadMatches, TextItems, Exact;
    var n := |t.events| + 1;
    NewEventMatches(env, t.session, p, n, now);
    EventKeys(t.session, p, n, now);
    EventBodyContext(t.session, p, n, now);
    SealedIff(env, EventBody(t.session, p, n, now), CT.Text(EventBody(t.session, p, n, now)),
              env.hash(CT.Text(EventBody(t.session, p, n, now))));
  }

  /** What a commit adds to the history and makes of the session row. */
  lemma FreshHistory(env: Env, t: Tables, user: Uuid, now: string, p: Prepared)
    requires Inv(env, t) && WellPrepared(env, p) && p.request.commandId !in t.commands
    requires Exact(p.body) && Transition(env, t, user, now, p).Ok?
    ensures var (after, response) := Transition(env, t, user, now, p).value;
            SessionWritten(t, p, after) && HistoryWritten(env, t, user, now, p, after, response)
  {
    hide InspectWorld, EventBody, CheckEnvelope, CheckSuccession, VerifyStored, UpdateActors, ApplyDecision, CheckControl, ActorsBound,
         PrepareProjections, PlanDecision, ReadResponse, Commit, MaxSeq, StoredJson, ResponseJson, CT.Text, Exact, Admit, Chain,
         PendingLedger, DecisionKeys, NewEvent, EventWritten, CommandAt, ProjectionHashes, SuccessionAllowed;
    FreshIs(env, t, user, now, p);
    var Fresh(base, updates, plan) := Admit(env, t, user, p).value;
    AdmitMeaning(env, t, user, p, base, updates, plan);
    CommitMeaning(env, t, user, now, p, updates, plan);
    TransitionExtendsChain(env, t, user, now, p, base, updates, plan);
    var (after, response) := Commit(env, t, user, now, p, updates, plan).value;
    SucceedsByOne(env, t, user, p, base, updates, plan);
    NumbersNew(env, t);
    EventRow(env, t, now, p, base);
    StoredIsValue(p.snapshot);
    CommandIs(env, t, user, p, after, response);
  }

  lemma FreshIs(env: Env, t: Tables, user: Uuid, now: string, p: Prepared)
    requires Exact(p.body) && p.request.commandId !in t.commands && Transition(env, t, user, now, p).Ok?
    ensures Admit(env, t, user, p).Ok? && Admit(env, t, user, p).value.Fresh?
    ensures var Fresh(_, updates, plan) := Admit(env, t, user, p).value;
            Transition(env, t, user, now, p) == Commit(env, t, user, now, p, updates, plan)
  {
    hide Commit, CheckControl, ActorsBound, CheckSuccession, PrepareProjections, PlanDecision, VerifyStored, HeadVerified;
  }

  lemma SucceedsByOne(env: Env, t: Tables, user: Uuid, p: Prepared, base: WorldView, updates: seq<Projection>, plan: DecisionPlan)
    requires Inv(env, t) && WellPrepared(env, p) && Admitted(env, t, user, p, base, updates, plan)
    ensures p.world.revision == t.session.revision + 1 && p.request.schemaVersion == 5 && Exact(p.snapshot)
    ensures p.snapshotBytes == CT.Text(p.snapshot) && p.requestHash == env.hash(CT.Text(p.body))
  {
    hide Chain, VerifyStored, InspectWorld, CheckControl, ActorsBound, PrepareProjections, PlanDecision, CT.Text, Exact;
    EnvelopeIff(p.request);
  }

  lemma CommandIs(env: Env, t: Tables, user: Uuid, p: Prepared, after: Tables, response: Response)
    requires Exact(p.body) && Chain(env, after) && StoresResponse(after, user, p, response)
    requires after.commands == t.commands[p.request.commandId := CommittedCommand(env, user, p, response)]
    ensures var c := after.commands[p.request.commandId];
            && c.semanticId == p.request.semanticCommandId && c.controller == user && c.bodyBytes == CT.Text(p.body)
            && c.requestHash == p.requestHash && c.status == Committed && ReadResponse(c.result) == Some(response)
            && Intact(env, c.result, c.resultBytes, c.resultHash)
  {
    hide Snapshots, Events, ReadResponse, ResponseJson, StoredJson, CT.Text, Exact, CanonicalJson.Decode;
    var c := after.commands[p.request.commandId];
    assert CommandAt(env, after.session.identity, p.request.commandId, c);
    SealedIff(env, c.result, c.resultBytes, c.resultHash);
  }

  // ---- Actors ----

  /**
   * Every playing row holds its actor in the new world, with its hash and the
   * new number; nothing else of a row changes, and no other row does.
   */
  predicate ActorsWritten(env: Env, t: Tables, p: Prepared, after: map<Uuid, ActorRow>) {
    && after.Keys == t.actors.Keys
    && forall id | id in t.actors ::
         if Plays(t, id) then
           && NameOf(t.actors[id]) in p.world.actors
           && var next := p.world.actors[NameOf(t.actors[id])];
           && Exact(next)
           && after[id] == t.actors[id].(projection := next, stateHash := env.hash(CT.Text(next)), schemaVersion := 5,
                                         projectionSeq := t.session.snapshotSeq + 1)
         else after[id] == t.actors[id]
  }

  lemma RowWritten(c: ProjectionContext, updates: seq<Projection>, schemaVersion: int, seqNo: int, id: Uuid, row: ActorRow, i: int)
    requires RowFrom(c, updates, schemaVersion, seqNo, id, row, i) && Projected(c, c.request.actorBindings[i], updates[i])
    ensures id in c.rows && NameOf(c.rows[id]) in c.newActors
    ensures var next := c.newActors[NameOf(c.rows[id])];
            && Exact(next)
            && row == c.rows[id].(projection := next, stateHash := c.env.hash(CT.Text(next)), schemaVersion := schemaVersion,
                                  projectionSeq := seqNo)
  {
    hide StoredJson, CT.Text, Exact, CarriesIdentity, MayMutate, WorldIdOf, NameOf;
    NameIs(c.rows[id]);
    StoredIsValue(c.newActors[c.request.actorBindings[i].worldActorId]);
  }

  lemma FreshActors(env: Env, t: Tables, user: Uuid, now: string, p: Prepared)
    requires Inv(env, t) && WellPrepared(env, p) && p.request.commandId !in t.commands
    requires Exact(p.body) && Transition(env, t, user, now, p).Ok?
    ensures ActorsWritten(env, t, p, Transition(env, t, user, now, p).value.0.actors)
  {
    hide InspectWorld, EventBody, CheckEnvelope, CheckSuccession, VerifyStored, UpdateActors, ApplyDecision, CheckControl, ActorsBound,
         PrepareProjections, PlanDecision, Commit, MaxSeq, CT.Text, Exact, Admit, Chain, WellPrepared, BindingsOk, RowFrom, ActiveActors,
         PendingLedger, DecisionKeys, NameOf, Plays, Projected, CommittedCommand, NewSnapshot, NewEvent, ProjectionHashes;
    FreshIs(env, t, user, now, p);
    var Fresh(base, updates, plan) := Admit(env, t, user, p).value;
    AdmitMeaning(env, t, user, p, base, updates, plan);
    CommitMeaning(env, t, user, now, p, updates, plan);
    SucceedsByOne(env, t, user, p, base, updates, plan);
    WellBindings(env, p);
    var c := Context(env, t, user, p, base);
    BindingsCover(env, t, user, p, base, updates);
    ActorRowsAfter(env, t, user, p, base, updates, 5, t.session.snapshotSeq + 1);
    ActiveAre(t);
    var after := UpdateActors(t.actors, updates, 5, t.session.snapshotSeq + 1);
    forall id | id in t.actors && Plays(t, id)
      ensures NameOf(t.actors[id]) in p.world.actors && Exact(p.world.actors[NameOf(t.actors[id])])
      ensures after[id] == t.actors[id].(projection := p.world.actors[NameOf(t.actors[id])],
                                         stateHash := env.hash(CT.Text(p.world.actors[NameOf(t.actors[id])])), schemaVersion := 5,
                                         projectionSeq := t.session.snapshotSeq + 1)
    {
      var i :| RowFrom(c, updates, 5, t.session.snapshotSeq + 1, id, after[id], i);
      RowFromUpdate(c, updates, 5, t.session.snapshotSeq + 1, id, after[id], i);
      RowWritten(c, updates, 5, t.session.snapshotSeq + 1, id, after[id], i);
    }
  }

  // ---- Decisions ----

  /**
   * Unless the pending resolution stays, an open row is closed by this command
   * and a row is opened for the new resolution, if there is one: for the actor
   * that the request names, assigned to its controller.
   */
  predicate DecisionsWritten(env: Env, t: Tables, p: Prepared, pending: Json, after: seq<DecisionRow>) {
    if p.world.pending == pending then after == t.decisions
    else
      && |after| == |t.decisions| + (if p.world.pending == Null then 0 else 1)
      && (forall i | 0 <= i < |t.decisions| ::
            after[i] == if t.decisions[i].status == Open then t.decisions[i].(status := Resolved(p.request.commandId)) else t.decisions[i])
      && (p.world.pending != Null ==>
            && p.request.decision.Some? && Exact(p.world.pending)
            && var d, row := p.request.decision.value, after[|t.decisions|];
            && d.decidingActorId in t.actors && t.actors[d.decidingActorId].controller == Some(row.assignedController)
            && row == DecisionRow(d.requestId, d.resolutionId, p.request.commandId, d.decidingActorId, row.assignedController, Open,
                                  |t.events| + 1, p.world.revision, p.world.pending, CT.Text(p.world.pending),
                                  env.hash(CT.Text(p.world.pending))))
  }

  lemma PlanWrites(env: Env, t: Tables, user: Uuid, p: Prepared, pending: Json, plan: DecisionPlan)
    requires DecisionKeys(t.decisions) && PendingLedger(env, t.decisions, pending)
    requires user in t.members && PlanDecision(env, t, user, p, pending) == Ok(plan)
    requires Exact(pending) && Exact(p.world.pending)
    requires ApplyDecision(env, t.decisions, p, plan, |t.events| + 1).Ok?
    ensures DecisionsWritten(env, t, p, pending, ApplyDecision(env, t.decisions, p, plan, |t.events| + 1).value.0)
  {
    hide PlanDecision, PendingDecision, OpenRowMatches, BoundWorldActor, OpenRows, CheckExisting, PendingLedger, Exact, CT.Text, StoredJson,
         ActiveActors;
    var rows := t.decisions;
    OpenRowIs(env, rows, pending);
    PlanMeaning(env, t, user, p, pending, plan);
    OpenRowsAre(rows);
    ActiveAre(t);
    if plan.open.Some? {
      OpenAssigned(env, t, user, p, pending, plan);
      StoredIsValue(p.world.pending);
    }
    forall i | 0 <= i < |rows| ensures rows[i] in rows {}
  }

  lemma FreshDecisions(env: Env, t: Tables, user: Uuid, now: string, p: Prepared)
    requires Inv(env, t) && WellPrepared(env, p) && p.request.commandId !in t.commands
    requires Exact(p.body) && Transition(env, t, user, now, p).Ok?
    ensures DecisionsWritten(env, t, p, InspectWorld(t.session.snapshot).value.pending, Transition(env, t, user, now, p).value.0.decisions)
  {
    hide InspectWorld, EventBody, CheckEnvelope, CheckSuccession, VerifyStored, UpdateActors, ApplyDecision, CheckControl, ActorsBound,
         PrepareProjections, PlanDecision, Commit, MaxSeq, CT.Text, Exact, Admit, Chain, PendingLedger, DecisionKeys, CommittedCommand,
         NewSnapshot, NewEvent, ProjectionHashes, DecisionsWritten, ActiveActors;
    FreshIs(env, t, user, now, p);
    var Fresh(base, updates, plan) := Admit(env, t, user, p).value;
    AdmitMeaning(env, t, user, p, base, updates, plan);
    CommitMeaning(env, t, user, now, p, updates, plan);
    HeadAccepted(env, t);
    StoredExact(env, t);
    NumbersNew(env, t);
    PendingExact(t.session.snapshot, base);
    PendingExact(p.snapshot, p.world);
    PlanWrites(env, t, user, p, base.pending, plan);
  }

  /**
   * A committed submission leaves in every table exactly this: the session row
   * moved to the new snapshot, one event, one snapshot and one command row, the
   * new projections, and the decision rows closed and opened.
   */
  lemma FreshWrites(env: Env, t: Tables, user: Uuid, now: string, p: Prepared)
    requires Inv(env, t) && WellPrepared(env, p) && p.request.commandId !in t.commands
    requires Exact(p.body) && Transition(env, t, user, now, p).Ok?
    ensures var (after, response) := Transition(env, t, user, now, p).value;
            && SessionWritten(t, p, after) && HistoryWritten(env, t, user, now, p, after, response)
            && ActorsWritten(env, t, p, after.actors)
            && DecisionsWritten(env, t, p, InspectWorld(t.session.snapshot).value.pending, after.decisions)
  {
    hide Inv, WellPrepared, Transition, SessionWritten, HistoryWritten, ActorsWritten, DecisionsWritten, InspectWorld;
    FreshHistory(env, t, user, now, p);
    FreshActors(env, t, user, now, p);
    FreshDecisions(env, t, user, now, p);
  }

  // ---- The response ----

  /** The open decision of the new ledger, the one just closed, or none. */
  predicate DecisionReported(t: Tables, after: Tables, p: Prepared, pending: Json, reported: Option<DecisionResult>) {
    if p.world.pending != Null then
      exists row :: row in after.decisions && row.status == Open && reported == Some(DecisionResult(row.requestId, true))
    else if pending != Null then
      exists row :: row in t.decisions && row.status == Open && reported == Some(DecisionResult(row.requestId, false))
    else reported == None
  }

  /** The answer names the command, the new head and event, the decision, and the hash of every playing actor's projection. */
  predicate Answered(env: Env, t: Tables, p: Prepared, after: Tables, response: Response) {
    && |after.events| == |t.events| + 1
    && response.identity == t.session.identity && response.commandId == p.request.commandId
    && response.semanticCommandId == p.request.semanticCommandId
    && response.revision == t.session.revision + 1 && response.snapshotSeq == t.session.snapshotSeq + 1
    && response.stateHash == p.request.stateHash && response.eventSeq == |t.events| + 1
    && response.eventHash == after.events[|t.events|].eventHash
    && response.authority == "client_semantics_unverified" && response.schemaValidation == "partial_unverified" && response.idempotent
    && (forall id | id in t.actors && Plays(t, id) ::
          id in after.actors && id in response.projectionHashes && response.projectionHashes[id] == after.actors[id].stateHash)
    && (forall id | id in response.projectionHashes :: Plays(t, id))
  }

  lemma PlanReports(env: Env, t: Tables, user: Uuid, p: Prepared, pending: Json, plan: DecisionPlan, after: Tables)
    requires DecisionKeys(t.decisions) && PendingLedger(env, t.decisions, pending)
    requires user in t.members && PlanDecision(env, t, user, p, pending) == Ok(plan)
    requires Exact(pending) && Exact(p.world.pending)
    requires ApplyDecision(env, t.decisions, p, plan, |t.events| + 1).Ok?
    requires after.decisions == ApplyDecision(env, t.decisions, p, plan, |t.events| + 1).value.0
    ensures DecisionReported(t, after, p, pending, ApplyDecision(env, t.decisions, p, plan, |t.events| + 1).value.1)
  {
    hide PlanDecision, PendingDecision, OpenRowMatches, BoundWorldActor, OpenRows, CheckExisting, PendingLedger, Exact, CT.Text, StoredJson,
         ActiveActors, ResolveRows;
    OpenRowIs(env, t.decisions, pending);
    PlanMeaning(env, t, user, p, pending, plan);
    if plan.open.Some? {
      OpenedRowIs(env, p, plan.open.value, |t.events| + 1);
      assert after.decisions[|after.decisions| - 1] in after.decisions;
    }
  }

  lemma ResponseParts(s: SessionRow, p: Prepared, eventSeq: int, eventHash: string, updates: seq<Projection>, decision: Option<DecisionResult>)
    ensures var response := CommittedResponse(s, p, eventSeq, eventHash, updates, decision);
            && response.commandId == p.request.commandId && response.semanticCommandId == p.request.semanticCommandId
            && response.authority == "client_semantics_unverified" && response.schemaValidation == "partial_unverified"
            && response.decision == decision
  {
  }

  /** A committed submission is answered with what it did. */
  lemma FreshResponse(env: Env, t: Tables, user: Uuid, now: string, p: Prepared)
    requires Inv(env, t) && WellPrepared(env, p) && p.request.commandId !in t.commands
    requires Exact(p.body) && Transition(env, t, user, now, p).Ok?
    ensures var (after, response) := Transition(env, t, user, now, p).value;
            && Answered(env, t, p, after, response)
            && DecisionReported(t, after, p, InspectWorld(t.session.snapshot).value.pending, response.decision)
  {
    hide InspectWorld, EventBody, CheckEnvelope, CheckSuccession, VerifyStored, UpdateActors, ApplyDecision, CheckControl, ActorsBound,
         PrepareProjections, PlanDecision, Commit, MaxSeq, CT.Text, Exact, Admit, Chain, PendingLedger, DecisionKeys, CommittedCommand,
         NewSnapshot, NewEvent, ProjectionHashes, DecisionReported, ActiveActors, WellPrepared, CommittedResponse, ActorsWritten,
         HistoryWritten, Plays;
    FreshIs(env, t, user, now, p);
    var Fresh(base, updates, plan) := Admit(env, t, user, p).value;
    AdmitMeaning(env, t, user, p, base, updates, plan);
    CommitMeaning(env, t, user, now, p, updates, plan);
    var (after, response) := Commit(env, t, user, now, p, updates, plan).value;
    HeadAccepted(env, t);
    StoredExact(env, t);
    NumbersNew(env, t);
    WellSnapshot(env, p);
    PendingExact(t.session.snapshot, base);
    PendingExact(p.snapshot, p.world);
    PlanReports(env, t, user, p, base.pending, plan, after);
    var event := NewEvent(env, t.session, p, |t.events| + 1, CT.Text(EventBody(t.session, p, |t.events| + 1, now)));
    var decided := ApplyDecision(env, t.decisions, p, plan, |t.events| + 1).value.1;
    ResponseParts(t.session, p, |t.events| + 1, event.eventHash, updates, decided);
    ResponseDescribes(env, t, user, now, p, base, updates, plan);
    FreshActors(env, t, user, now, p);
    FreshHistory(env, t, user, now, p);
    SamePlayers(env, t, p, after);
  }

  lemma WellSnapshot(env: Env, p: Prepared)
    requires WellPrepared(env, p)
    ensures Exact(p.snapshot) && InspectWorld(p.snapshot) == Ok(p.world)
  {
  }

  lemma SamePlayers(env: Env, t: Tables, p: Prepared, after: Tables)
    requires ActorsWritten(env, t, p, after.actors)
    ensures forall id :: Plays(after, id) <==> Plays(t, id)
    ensures forall id :: id in ActiveActors(after) <==> Plays(t, id)
    ensures forall id | id in ActiveActors(after) :: id in after.actors && ActiveActors(after)[id] == after.actors[id]
    ensures forall id | Plays(t, id) :: id in t.actors && id in after.actors
  {
    hide NameOf, Exact, CT.Text;
    ActiveAre(after);
  }
}
