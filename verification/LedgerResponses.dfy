/** What a committed transition records, answers and presupposes. */
module LedgerResponses {
  import opened JsonValues
  import opened Outcomes
  import opened WorldState
  import opened LedgerTables
  import opened LedgerRules
  import opened LedgerChain
  import opened LedgerActors
  import opened LedgerDecisions
  import opened LedgerRuns
  import opened LedgerAcceptance
  import CT = CanonicalText

  // ---- What the event records ----

  lemma EventBodyContext(s: SessionRow, p: Prepared, eventSeq: int, now: string)
    ensures var f := EventBody(s, p, eventSeq, now).fields;
            && Field(f, "revisionBefore") == Num(s.revision)
            && Field(f, "sourceActorId") == Str(p.request.sourceActorId)
            && Field(f, "targetActorIds") == Arr(TextItems(p.request.targetActorIds))
            && Field(f, "metadata") == p.metadata
            && Field(f, "occurredAt") == Str(now)
  {
    hide TextItems;
  }

  /** The event of a committed command records who acted on whom, from which revision, with which metadata. */
  lemma EventRecords(env: Env, t: Tables, user: Uuid, now: string, p: Prepared,
                     base: WorldView, updates: seq<Projection>, plan: DecisionPlan)
    requires Chain(env, t) && WellPrepared(env, p)
    requires Admitted(env, t, user, p, base, updates, plan) && Commit(env, t, user, now, p, updates, plan).Ok?
    ensures var after := Commit(env, t, user, now, p, updates, plan).value.0;
            && |after.events| == |t.events| + 1
            && var e := after.events[|t.events|];
            && e.sourceActorId == p.request.sourceActorId && e.commandId == p.request.commandId && e.payload.Obj?
            && var f := e.payload.fields;
            && Field(f, "sourceActorId") == Str(p.request.sourceActorId)
            && Field(f, "targetActorIds") == Arr(TextItems(p.request.targetActorIds))
            && Field(f, "metadata") == p.metadata && Field(f, "occurredAt") == Str(now)
            && Field(f, "revisionBefore") == Num(t.session.revision) && Field(f, "revisionAfter") == Num(after.session.revision)
  {
    hide Chain, Commit, Admitted, WellPrepared, EventBody, Exact, CT.Text, UpdateActors, ApplyDecision,
         CommittedCommand, NewSnapshot, StoredJson,
         MaxSeq, ProjectionHashes, TextItems, Field, PayloadMatches, Sealed;
    WellExactBody(env, p);
    CommitMeaning(env, t, user, now, p, updates, plan);
    var eventSeq := MaxSeq(t.events) + 1;
    NewEventMatches(env, t.session, p, eventSeq, now);
    EventBodyIsObject(t.session, p, eventSeq, now);
    EventBodyContext(t.session, p, eventSeq, now);
    EventBodyCounters(t.session, p, eventSeq, now);
  }

  lemma WellExactBody(env: Env, p: Prepared)
    requires WellPrepared(env, p)
    ensures Exact(p.body) && BindingsOk(p.request.actorBindings)
  {
    WellBindings(env, p);
  }

  // ---- What the response says ----

  lemma {:induction false} ProjectionHashesMeaning(updates: seq<Projection>)
    requires forall i, j | 0 <= i < j < |updates| :: updates[i].actorId != updates[j].actorId
    ensures forall id :: id in ProjectionHashes(updates) <==> exists i :: 0 <= i < |updates| && updates[i].actorId == id
    ensures forall i | 0 <= i < |updates| :: ProjectionHashes(updates)[updates[i].actorId] == updates[i].stateHash
  {
    if updates != [] {
      var last := |updates| - 1;
      var init := updates[..last];
      ProjectionHashesMeaning(init);
      assert forall i | 0 <= i < last :: init[i] == updates[i];
      forall id ensures id in ProjectionHashes(updates) <==> exists i :: 0 <= i < |updates| && updates[i].actorId == id {
        if id == updates[last].actorId {
          assert updates[last].actorId == id;
        } else if id in ProjectionHashes(init) {
          var i :| 0 <= i < |init| && init[i].actorId == id;
          assert updates[i].actorId == id;
        }
      }
    }
  }

  lemma RowFromUpdate(c: ProjectionContext, updates: seq<Projection>, schemaVersion: int, seqNo: int, id: Uuid,
        row: ActorRow, i: int)
    requires RowFrom(c, updates, schemaVersion, seqNo, id, row, i)
    ensures 0 <= i < |updates| && i < |c.request.actorBindings| && c.request.actorBindings[i].actorId == id
    ensures row.stateHash == updates[i].stateHash && row.projectionSeq == seqNo && row.schemaVersion == schemaVersion
  {
    hide StoredJson;
  }

  lemma HashKeys(c: ProjectionContext, updates: seq<Projection>)
    requires |updates| == |c.request.actorBindings|
    requires forall i | 0 <= i < |updates| :: Projected(c, c.request.actorBindings[i], updates[i])
    requires forall i, j | 0 <= i < j < |updates| :: updates[i].actorId != updates[j].actorId
    requires forall id | id in c.rows :: exists i :: 0 <= i < |updates| && c.request.actorBindings[i].actorId == id
    ensures ProjectionHashes(updates).Keys == c.rows.Keys
    ensures forall i | 0 <= i < |updates| ::
              && updates[i].actorId == c.request.actorBindings[i].actorId && updates[i].actorId in ProjectionHashes(updates)
              && ProjectionHashes(updates)[updates[i].actorId] == updates[i].stateHash
  {
    hide Projected, ProjectionHashes;
    ProjectionHashesMeaning(updates);
    forall i | 0 <= i < |updates| ensures updates[i].actorId == c.request.actorBindings[i].actorId && updates[i].actorId in c.rows {
      ProjectedNames(c, c.request.actorBindings[i], updates[i]);
    }
  }

  lemma ActiveKept(t: Tables, after: map<Uuid, ActorRow>)
    requires after.Keys == t.actors.Keys
    requires forall id | id in ActiveActors(t) :: SameActor(after[id], ActiveActors(t)[id])
    requires forall id | id in t.actors && id !in ActiveActors(t) :: after[id] == t.actors[id]
    ensures ActiveActors(t.(actors := after)).Keys == ActiveActors(t).Keys
    ensures forall id | id in ActiveActors(t) :: ActiveActors(t.(actors := after))[id] == after[id]
  {
  }

  /** The hashes in the response are those of exactly the active actor rows. */
  lemma HashesAreRows(env: Env, t: Tables, user: Uuid, p: Prepared, base: WorldView, updates: seq<Projection>,
        schemaVersion: int, seqNo: int)
    requires BindingsOk(p.request.actorBindings)
    requires PrepareProjections(Context(env, t, user, p, base)) == Ok(updates)
    ensures var active := ActiveActors(t.(actors := UpdateActors(t.actors, updates, schemaVersion, seqNo)));
            && ProjectionHashes(updates).Keys == active.Keys
            && (forall id | id in active :: ProjectionHashes(updates)[id] == active[id].stateHash
                                            && active[id].projectionSeq == seqNo && active[id].schemaVersion == schemaVersion)
  {
    hide PrepareProjections, BindingsOk, Projected, UpdateActors, ProjectionHashes, RowFrom, ActiveActors;
    var c := Context(env, t, user, p, base);
    var after := UpdateActors(t.actors, updates, schemaVersion, seqNo);
    BindingsCover(env, t, user, p, base, updates);
    ActorRowsAfter(env, t, user, p, base, updates, schemaVersion, seqNo);
    RowsKeepActors(c, updates, schemaVersion, seqNo, t.actors, after);
    HashKeys(c, updates);
    var active := ActiveActors(t.(actors := after));
    ActiveKept(t, after);
    forall id | id in active
      ensures ProjectionHashes(updates)[id] == active[id].stateHash
      ensures active[id].projectionSeq == seqNo && active[id].schemaVersion == schemaVersion
    {
      var i :| RowFrom(c, updates, schemaVersion, seqNo, id, after[id], i);
      RowFromUpdate(c, updates, schemaVersion, seqNo, id, after[id], i);
    }
  }

  /** The response describes the tables it leaves: head, event, and one hash per active actor. */
  lemma ResponseDescribes(env: Env, t: Tables, user: Uuid, now: string, p: Prepared,
                          base: WorldView, updates: seq<Projection>, plan: DecisionPlan)
    requires Chain(env, t) && WellPrepared(env, p)
    requires Admitted(env, t, user, p, base, updates, plan) && Commit(env, t, user, now, p, updates, plan).Ok?
    ensures var (after, response) := Commit(env, t, user, now, p, updates, plan).value;
            && response.identity == after.session.identity
            && response.revision == after.session.revision && response.snapshotSeq == after.session.snapshotSeq
            && response.stateHash == after.session.stateHash && response.idempotent
            && |after.events| == |t.events| + 1 && response.eventSeq == |after.events|
            && response.eventHash == after.events[|t.events|].eventHash
            && response.projectionHashes.Keys == ActiveActors(after).Keys
            && (forall id | id in ActiveActors(after) ::
                  response.projectionHashes[id] == ActiveActors(after)[id].stateHash
                  && ActiveActors(after)[id].projectionSeq == after.session.snapshotSeq)
  {
    hide Commit, EventBody, Exact, CT.Text, UpdateActors, ApplyDecision, CommittedCommand, NewSnapshot, StoredJson,
         WellPrepared, Chain,
         MaxSeq, ProjectionHashes, ActiveActors, VerifyStored, CheckControl, CheckSuccession, PlanDecision,
         PrepareProjections, ActorsBound, BindingsOk;
    WellExactBody(env, p);
    CommitMeaning(env, t, user, now, p, updates, plan);
    var after := Commit(env, t, user, now, p, updates, plan).value.0;
    ChainEvents(env, t);
    HashesAreRows(env, t, user, p, base, updates, p.request.schemaVersion, t.session.snapshotSeq + 1);
    SameActive(after, t.(actors := after.actors));
  }

  lemma ChainEvents(env: Env, t: Tables)
    requires Chain(env, t)
    ensures MaxSeq(t.events) == |t.events|
  {
    hide Snapshots, Commands;
    EventsNumbered(env, t);
  }

  // ---- Who may act ----

  lemma {:induction false} TargetsMeaning(targets: seq<Uuid>, actors: map<Uuid, ActorRow>, members: map<Uuid, Member>)
    requires CheckTargets(targets, actors, members).Pass?
    ensures forall id | id in targets :: id in actors && CheckActorMembers(actors[id], members, true).Pass?
  {
    if targets != [] {
      TargetsMeaning(targets[1..], actors, members);
      assert forall id | id in targets :: id == targets[0] || id in targets[1..];
    }
  }

  /** An actor whose members are in order is controlled by an active member who is no observer, and owned by an active one if at all. */
  predicate Staffed(row: ActorRow, members: map<Uuid, Member>) {
    && row.controller.Some? && row.controller.value in members && members[row.controller.value].role != Observer
    && (row.owner.Some? ==> row.owner.value in members)
    && (row.owner.None? ==> row.characterId.None? && row.kind != KIND_PLAYER)
  }

  lemma StaffedIff(row: ActorRow, members: map<Uuid, Member>)
    ensures CheckActorMembers(row, members, true).Pass? <==> Staffed(row, members)
  {
  }

  /** A commit presupposes that the caller controls the source, and that source and targets are active and staffed. */
  lemma CommitAuthorized(env: Env, t: Tables, user: Uuid, p: Prepared, base: WorldView, updates: seq<Projection>,
        plan: DecisionPlan)
    requires Admitted(env, t, user, p, base, updates, plan)
    ensures var actors := ActiveActors(t);
            && p.request.sourceActorId in actors && actors[p.request.sourceActorId].controller == Some(user)
            && (forall id | id == p.request.sourceActorId || id in p.request.targetActorIds ::
                  id in actors && Staffed(actors[id], t.members))
  {
    hide ActiveActors, VerifyStored, CheckSuccession, PlanDecision, PrepareProjections, ActorsBound, CheckTargets,
         CheckActorMembers, Staffed;
    var actors := ActiveActors(t);
    TargetsMeaning(p.request.targetActorIds, actors, t.members);
    forall id | id == p.request.sourceActorId || id in p.request.targetActorIds ensures id in actors && Staffed(actors[id], t.members) {
      StaffedIff(actors[id], t.members);
    }
  }

  /** Only the assigned controller with the deciding actor, or an elevated member, closes a pending decision. */
  lemma ResolveAuthorized(env: Env, t: Tables, user: Uuid, p: Prepared, oldPending: Json, plan: DecisionPlan)
    requires user in t.members && PlanDecision(env, t, user, p, oldPending) == Ok(plan) && plan.resolve.Some?
    ensures ExistingOpen(t.decisions) == plan.resolve
    ensures var row := plan.resolve.value;
            t.members[user].canControlUnowned || (row.assignedController == user && row.decidingActorId == p.request.sourceActorId)
  {
    hide PendingDecision, BoundWorldActor, CT.Text, ActiveActors, PlanOpening;
    OldRowExists(env, t, p, oldPending);
  }

  /** A newly opened decision is assigned to the active controller of the source or of a declared target. */
  lemma OpenAssigned(env: Env, t: Tables, user: Uuid, p: Prepared, oldPending: Json, plan: DecisionPlan)
    requires user in t.members && PlanDecision(env, t, user, p, oldPending) == Ok(plan) && plan.open.Some?
    ensures var d := plan.open.value;
            && p.request.decision == Some(d.metadata)
            && d.metadata.decidingActorId in ActiveActors(t)
            && ActiveActors(t)[d.metadata.decidingActorId].controller == Some(d.controller) && d.controller in t.members
            && (d.metadata.decidingActorId == p.request.sourceActorId || d.metadata.decidingActorId in p.request.targetActorIds)
            && forall row | row in t.decisions :: row.requestId != d.metadata.requestId && row.resolutionId != d.metadata.resolutionId
  {
    hide PendingDecision, BoundWorldActor, CT.Text, ActiveActors, CheckExisting, OpenRows;
  }
}
