/**
 * The store never blames its own data: from a state whose actors are bound,
 * no submission ends in an internal error.
 */
module LedgerAcceptance {
  import opened JsonValues
  import opened Outcomes
  import opened TextRules
  import opened WorldState
  import opened LedgerTables
  import opened LedgerRules
  import opened LedgerChain
  import opened LedgerActors
  import opened LedgerDecisions
  import opened LedgerRuns
  import opened LedgerTheorems
  import CanonicalJson
  import CanonicalRoundTrip
  import CT = CanonicalText

  /** The actor that decides the open decision is active and is the one the pending resolution names. */
  predicate DeciderBound(rows: seq<DecisionRow>, actors: map<Uuid, ActorRow>, pending: Json) {
    !pending.Null? ==>
      && ExistingOpen(rows).Some? && PendingDecision(pending).Some?
      && ExistingOpen(rows).value.decidingActorId in actors
      && WorldIdOf(actors[ExistingOpen(rows).value.decidingActorId]) == PendingDecision(pending).value.actorId
  }

  /** Every actor row agrees with the stored world. */
  predicate Bound(env: Env, t: Tables) {
    && InspectWorld(t.session.snapshot).Ok?
    && var world := InspectWorld(t.session.snapshot).value;
    && ActorsBound(env, ActiveActors(t), world.actors)
    && DeciderBound(t.decisions, ActiveActors(t), world.pending)
  }

  // ---- Checks that cannot find fault with bound data ----

  lemma {:induction false} TargetsNotInternal(targets: seq<Uuid>, actors: map<Uuid, ActorRow>, members: map<Uuid,
        Member>)
    ensures CheckTargets(targets, actors, members) != Reject(Internal)
  {
    if targets != [] {
      TargetsNotInternal(targets[1..], actors, members);
    }
  }

  lemma BoundProjects(c: ProjectionContext, b: ActorBinding)
    requires ActorsBound(c.env, c.rows, c.oldActors)
    ensures ProjectActor(c, b) != Err(Internal)
  {
    hide CT.Text, MayMutate, Blank;
    if b.actorId in c.rows {
      assert ActorBound(c.env, c.rows[b.actorId], c.oldActors);
    }
  }

  lemma {:induction false} BoundProjectsAll(c: ProjectionContext, bindings: seq<ActorBinding>)
    requires ActorsBound(c.env, c.rows, c.oldActors)
    ensures ProjectActors(c, bindings) != Err(Internal)
  {
    hide ActorsBound, ProjectActor;
    if bindings != [] {
      BoundProjects(c, bindings[0]);
      BoundProjectsAll(c, bindings[1..]);
    }
  }

  lemma {:induction false} BoundWorldActorAt(bindings: seq<ActorBinding>, i: nat)
    requires i < |bindings| && forall j, k | 0 <= j < k < |bindings| :: bindings[j].actorId != bindings[k].actorId
    ensures BoundWorldActor(bindings, bindings[i].actorId) == Some(bindings[i].worldActorId)
  {
    if i > 0 {
      assert bindings[0].actorId != bindings[i].actorId;
      BoundWorldActorAt(bindings[1..], i - 1);
    }
  }

  lemma BindingIdsDistinct(bindings: seq<ActorBinding>)
    requires BindingsOk(bindings)
    ensures forall j, k | 0 <= j < k < |bindings| :: bindings[j].actorId != bindings[k].actorId
  {
  }

  /** Complete bindings give the deciding actor the world identity of its row. */
  lemma BindingsNameRows(env: Env, t: Tables, user: Uuid, p: Prepared, base: WorldView, updates: seq<Projection>,
        id: Uuid)
    requires BindingsOk(p.request.actorBindings)
    requires PrepareProjections(Context(env, t, user, p, base)) == Ok(updates)
    requires id in ActiveActors(t)
    ensures BoundWorldActor(p.request.actorBindings, id) == Some(WorldIdOf(ActiveActors(t)[id]))
  {
    hide PrepareProjections, BindingsOk, ActiveActors, WorldIdOf, CarriesIdentity, CT.Text, MayMutate, Exact;
    var c, bindings := Context(env, t, user, p, base), p.request.actorBindings;
    BindingsCover(env, t, user, p, base, updates);
    var i :| 0 <= i < |updates| && bindings[i].actorId == id;
    assert Projected(c, bindings[i], updates[i]);
    BindingIdsDistinct(bindings);
    BoundWorldActorAt(bindings, i);
  }

  lemma ExistingNotInternal(env: Env, t: Tables, user: Uuid, p: Prepared, base: WorldView, updates: seq<Projection>)
    requires BindingsOk(p.request.actorBindings)
    requires PrepareProjections(Context(env, t, user, p, base)) == Ok(updates)
    requires PendingLedger(env, t.decisions, base.pending) && DeciderBound(t.decisions, ActiveActors(t), base.pending)
    ensures CheckExisting(env, ExistingOpen(t.decisions), base.pending, p.request.actorBindings) != Reject(Internal)
  {
    hide PrepareProjections, BindingsOk, ActiveActors, WorldIdOf, OpenRowMatches, PendingDecision, OpenRows,
         BoundWorldActor;
    if !base.pending.Null? {
      BindingsNameRows(env, t, user, p, base, updates, ExistingOpen(t.decisions).value.decidingActorId);
    }
  }

  lemma PlanNotInternal(env: Env, t: Tables, user: Uuid, p: Prepared, base: WorldView, updates: seq<Projection>)
    requires BindingsOk(p.request.actorBindings) && user in t.members
    requires PrepareProjections(Context(env, t, user, p, base)) == Ok(updates)
    requires PendingLedger(env, t.decisions, base.pending) && DeciderBound(t.decisions, ActiveActors(t), base.pending)
    ensures PlanDecision(env, t, user, p, base.pending) != Err(Internal)
  {
    hide PrepareProjections, BindingsOk, PendingLedger, DeciderBound, CheckExisting, ExistingOpen, PendingDecision,
         BoundWorldActor, CT.Text;
    ExistingNotInternal(env, t, user, p, base, updates);
    OldRowExists(env, t, p, base.pending);
  }

  lemma EventBodyExact(s: SessionRow, p: Prepared, eventSeq: int, now: string)
    requires Exact(p.metadata) && Exact(Num(eventSeq)) && Exact(Num(s.snapshotSeq + 1))
    requires Exact(Num(s.revision)) && Exact(Num(p.world.revision))
    ensures Exact(EventBody(s, p, eventSeq, now))
  {
    var targets := Arr(TextItems(p.request.targetActorIds));
    assert Exact(targets);
    var f := EventBody(s, p, eventSeq, now).fields;
    forall k | k in f ensures Exact(f[k]) {
      if f[k].Num? {
        assert f[k] == Num(eventSeq) || f[k] == Num(s.snapshotSeq + 1) || f[k] == Num(s.revision) || f[k] == Num(p.world.revision)
               || f[k] == p.metadata;
      } else if !f[k].Str? {
        assert f[k] == targets || f[k] == p.metadata;
      }
    }
  }

  // ---- Bound after every committed transition ----

  lemma {:induction false} BoundWorldActorFound(bindings: seq<ActorBinding>, id: Uuid)
    requires BoundWorldActor(bindings, id).Some?
    ensures exists i :: 0 <= i < |bindings| && bindings[i].actorId == id
                        && bindings[i].worldActorId == BoundWorldActor(bindings, id).value
  {
    if bindings[0].actorId != id {
      BoundWorldActorFound(bindings[1..], id);
      var i :| 0 <= i < |bindings[1..]| && bindings[1..][i].actorId == id
               && bindings[1..][i].worldActorId == BoundWorldActor(bindings, id).value;
      assert bindings[i + 1] == bindings[1..][i];
    } else {
      assert bindings[0].worldActorId == BoundWorldActor(bindings, id).value;
    }
  }

  /** A bound actor is active afterwards under the same world identity. */
  lemma BoundActorAfter(env: Env, t: Tables, user: Uuid, p: Prepared, base: WorldView, updates: seq<Projection>,
                        schemaVersion: int, seqNo: int, id: Uuid)
    requires BindingsOk(p.request.actorBindings)
    requires PrepareProjections(Context(env, t, user, p, base)) == Ok(updates)
    requires BoundWorldActor(p.request.actorBindings, id).Some?
    ensures var active := ActiveActors(t.(actors := UpdateActors(t.actors, updates, schemaVersion, seqNo)));
            id in active && WorldIdOf(active[id]) == BoundWorldActor(p.request.actorBindings, id).value
  {
    hide PrepareProjections, BindingsOk, Projected, WithProjection, BoundWorldActor, UpdateActors, WorldIdOf, RowFrom,
         RowStep;
    var c, bindings := Context(env, t, user, p, base), p.request.actorBindings;
    var after := UpdateActors(t.actors, updates, schemaVersion, seqNo);
    BoundWorldActorFound(bindings, id);
    var i :| 0 <= i < |bindings| && bindings[i].actorId == id
             && bindings[i].worldActorId == BoundWorldActor(bindings, id).value;
    BindingsCover(env, t, user, p, base, updates);
    ActorRowsAfter(env, t, user, p, base, updates, schemaVersion, seqNo);
    RowsKeepActors(c, updates, schemaVersion, seqNo, t.actors, after);
    ProjectedNames(c, bindings[i], updates[i]);
    assert id in c.rows && SameActor(after[id], c.rows[id]);
    var j :| RowFrom(c, updates, schemaVersion, seqNo, id, after[id], j);
    RowFromIndex(c, updates, schemaVersion, seqNo, id, after[id], j);
    BindingIdsDistinct(bindings);
    assert i == j;
    RowStepOf(env, c, updates, schemaVersion, seqNo, id, after[id], j);
  }

  lemma RowFromIndex(c: ProjectionContext, updates: seq<Projection>, schemaVersion: int, seqNo: int, id: Uuid,
        row: ActorRow, i: int)
    requires RowFrom(c, updates, schemaVersion, seqNo, id, row, i)
    ensures 0 <= i < |updates| && i < |c.request.actorBindings| && c.request.actorBindings[i].actorId == id
  {
  }

  /** Whatever the actors were, a committed transition leaves them bound. */
  lemma CommitLeavesBound(env: Env, t: Tables, user: Uuid, now: string, p: Prepared,
                          base: WorldView, updates: seq<Projection>, plan: DecisionPlan)
    requires Inv(env, t) && WellPrepared(env, p)
    requires Admitted(env, t, user, p, base, updates, plan)
    requires Commit(env, t, user, now, p, updates, plan).Ok?
    ensures Bound(env, Commit(env, t, user, now, p, updates, plan).value.0)
  {
    hide Chain, Commit, ApplyDecision, UpdateActors, PlanDecision, InspectWorld, CheckEnvelope, CheckSuccession,
         CheckControl,
         ActorsBound, VerifyStored, PrepareProjections, EventBody, NewEvent, MaxSeq, CommittedCommand, ActorsChange,
         DecisionKeys, PendingLedger, DecisionsGrow, ReportsLedger, Exact, CT.Text, ProjectionHashes, ActiveActors,
         ExistingOpen, PendingDecision, BoundWorldActor, NewSnapshot, BindingsOk, WorldIdOf, HeadVerified;
    var after := Commit(env, t, user, now, p, updates, plan).value.0;
    CommitActors(env, t, user, now, p, base, updates, plan);
    CommitMeaning(env, t, user, now, p, updates, plan);
    StoredExact(env, t);
    HeadAccepted(env, t);
    PendingExact(t.session.snapshot, base);
    PendingExact(p.snapshot, p.world);
    EnvelopeBindings(p.request);
    DecisionStep(env, t, user, p, base.pending, plan, MaxSeq(t.events) + 1);
    if !p.world.pending.Null? {
      BoundActorAfter(env, t, user, p, base, updates, p.request.schemaVersion, t.session.snapshotSeq + 1,
                      ExistingOpen(after.decisions).value.decidingActorId);
      SameActive(after, t.(actors := after.actors));
    }
    StoredIsValue(p.snapshot);
  }

  // ---- No internal error ----

  /** The hash tells this request from the one stored under the same command id. */
  predicate NoCollision(env: Env, t: Tables, p: Prepared)
    requires Exact(p.body)
  {
    p.request.commandId in t.commands ==>
      var stored := t.commands[p.request.commandId].bodyBytes;
      env.hash(stored) == env.hash(CT.Text(p.body)) ==> stored == CT.Text(p.body)
  }

  lemma ReceiptNotInternal(env: Env, t: Tables, user: Uuid, p: Prepared)
    requires Commands(env, t) && WellPrepared(env, p) && NoCollision(env, t, p)
    requires p.request.releaseId == t.session.identity.releaseId && p.request.artifactHash == t.session.identity.artifactHash
    ensures LoadReceipt(env, t, user, p) != Err(Internal)
  {
    hide ReadResponse, Sealed, CheckEnvelope, InspectWorld, CT.Text, CanonicalJson.Decode, Exact;
    if p.request.commandId in t.commands {
      var c := t.commands[p.request.commandId];
      assert CommandAt(env, t.session.identity, p.request.commandId, c);
      WellExact(env, p);
      CanonicalRoundTrip.RoundTrip(p.body);
    }
  }

  lemma NewEventExact(env: Env, t: Tables, now: string, p: Prepared, base: WorldView)
    requires Chain(env, t) && WellPrepared(env, p)
    requires VerifyStored(env, t.session) == Ok(base) && CheckSuccession(env, t.session, base, p).Pass?
    ensures Exact(EventBody(t.session, p, MaxSeq(t.events) + 1, now))
  {
    hide VerifyStored, InspectWorld, EventBody, MaxSeq, CheckSuccession, Commands, Events, CheckEnvelope, CT.Text,
         Sealed, Succeeds;
    var s := t.session;
    HeadAccepted(env, t);
    assert SnapshotAt(env, s.identity, t.snapshots[0].revision, |t.events|, t.snapshots[|t.events|]);
    StoredExact(env, t);
    SuccessionMeaning(env, s, base, p);
    GenesisRevision(env, t);
    ExactRevision(p);
    EventsNumbered(env, t);
    EventBodyExact(s, p, |t.events| + 1, now);
  }

  lemma CommitNotInternal(env: Env, t: Tables, user: Uuid, now: string, p: Prepared,
                          base: WorldView, updates: seq<Projection>, plan: DecisionPlan)
    requires Chain(env, t) && WellPrepared(env, p)
    requires VerifyStored(env, t.session) == Ok(base) && CheckSuccession(env, t.session, base, p).Pass?
    ensures Commit(env, t, user, now, p, updates, plan) != Err(Internal)
  {
    hide Chain, VerifyStored, InspectWorld, EventBody, NewEvent, ApplyDecision, MaxSeq, CommittedCommand,
         CheckSuccession,
         CheckEnvelope, UpdateActors, ProjectionHashes, CT.Text, Exact, NewHead, NewSnapshot, CommittedResponse;
    NewEventExact(env, t, now, p, base);
    DecisionNotInternal(env, t.decisions, p, plan, MaxSeq(t.events) + 1);
  }

  lemma DecisionNotInternal(env: Env, rows: seq<DecisionRow>, p: Prepared, plan: DecisionPlan, eventSeq: int)
    ensures ApplyDecision(env, rows, p, plan, eventSeq) != Err(Internal)
  {
    hide ResolveRows, OpenedRow, ExistingOpen;
  }

  lemma AdmitNotInternal(env: Env, t: Tables, user: Uuid, p: Prepared, base: WorldView)
    requires user in t.members && BindingsOk(p.request.actorBindings)
    requires ActorsBound(env, ActiveActors(t), base.actors)
    requires PendingLedger(env, t.decisions, base.pending) && DeciderBound(t.decisions, ActiveActors(t), base.pending)
    ensures AdmitFresh(env, t, user, p, base) != Err(Internal)
  {
    hide ActorsBound, PrepareProjections, PlanDecision, PendingLedger, DeciderBound, BindingsOk, CheckTargets,
         CheckActorMembers, ActiveActors, AppendsCommand;
    ControlNotInternal(t, user, p.request);
    ProjectionsNotInternal(Context(env, t, user, p, base));
    if PrepareProjections(Context(env, t, user, p, base)).Ok? {
      PlanNotInternal(env, t, user, p, base, PrepareProjections(Context(env, t, user, p, base)).value);
    }
  }

  lemma ControlNotInternal(t: Tables, user: Uuid, r: Request)
    ensures CheckControl(t, user, r) != Reject(Internal)
  {
    TargetsNotInternal(r.targetActorIds, ActiveActors(t), t.members);
  }

  lemma ProjectionsNotInternal(c: ProjectionContext)
    requires ActorsBound(c.env, c.rows, c.oldActors)
    ensures PrepareProjections(c) != Err(Internal)
  {
    hide ActorsBound, ProjectActors;
    BoundProjectsAll(c, c.request.actorBindings);
  }

  /** No submission to a bound session fails with an internal error. */
  lemma NeverInternal(env: Env, t: Tables, user: Uuid, now: string, p: Prepared)
    requires Inv(env, t) && Bound(env, t) && WellPrepared(env, p) && NoCollision(env, t, p)
    ensures Transition(env, t, user, now, p) != Err(Internal)
  {
    hide Chain, HeadVerified, VerifyStored, InspectWorld, AdmitFresh, LoadReceipt, Commit, ActorsBound, DeciderBound,
         PendingLedger, DecisionKeys, WellPrepared, ActiveActors, NoCollision, Admitted;
    HeadAccepted(env, t);
    ChainCommands(env, t);
    WellExact(env, p);
    WellBindings(env, p);
    if p.request.releaseId == t.session.identity.releaseId && p.request.artifactHash == t.session.identity.artifactHash {
      ReceiptNotInternal(env, t, user, p);
    }
    if user in t.members {
      AdmitNotInternal(env, t, user, p, InspectWorld(t.session.snapshot).value);
    }
    if Admit(env, t, user, p).Ok? && Admit(env, t, user, p).value.Fresh? {
      var Fresh(base, updates, plan) := Admit(env, t, user, p).value;
      AdmitMeaning(env, t, user, p, base, updates, plan);
      AdmittedSuccession(env, t, user, p, base, updates, plan);
      CommitNotInternal(env, t, user, now, p, base, updates, plan);
    }
  }

  lemma WellBindings(env: Env, p: Prepared)
    requires WellPrepared(env, p)
    ensures BindingsOk(p.request.actorBindings)
  {
    hide BindingsOk, InspectWorld, CT.Text;
    EnvelopeBindings(p.request);
  }

  lemma AdmittedSuccession(env: Env, t: Tables, user: Uuid, p: Prepared, base: WorldView, updates: seq<Projection>,
        plan: DecisionPlan)
    requires Admitted(env, t, user, p, base, updates, plan)
    ensures VerifyStored(env, t.session) == Ok(base) && CheckSuccession(env, t.session, base, p).Pass?
  {
  }

  /** Submissions, freezes and membership changes keep a bound session bound. */
  lemma StepKeepsBound(env: Env, t: Tables, a: Action)
    requires Inv(env, t) && Bound(env, t) && !a.SetActors?
    ensures Bound(env, Step(env, t, a))
  {
    hide Inv, Transition, WellPrepared, Prepare, InspectWorld, ActorsBound, DeciderBound, ActiveActors;
    match a
    case Submit(user, now, raw) =>
      if Apply(env, t, user, now, raw).Ok? {
        PreparedIsWell(env, raw);
        TransitionKeepsBound(env, t, user, now, Prepare(env, raw).value);
      }
    case _ =>
      SameActive(Step(env, t, a), t);
  }

  lemma TransitionKeepsBound(env: Env, t: Tables, user: Uuid, now: string, p: Prepared)
    requires Inv(env, t) && Bound(env, t) && WellPrepared(env, p) && Transition(env, t, user, now, p).Ok?
    ensures Bound(env, Transition(env, t, user, now, p).value.0)
  {
    hide Inv, Commit, WellPrepared, Admitted, Admit, Bound;
    match Admit(env, t, user, p).value
    case Replay(response) =>
    case Fresh(base, updates, plan) =>
      AdmitMeaning(env, t, user, p, base, updates, plan);
      CommitLeavesBound(env, t, user, now, p, base, updates, plan);
  }

  /**
   * Self-acceptance over runs: while nobody replaces actor rows from outside,
   * no submission ever ends in an internal error.
   */
  lemma {:induction false} RunNeverInternal(env: Env, t: Tables, actions: seq<Action>, user: Uuid, now: string,
        p: Prepared)
    requires Inv(env, t) && Bound(env, t) && WellPrepared(env, p)
    requires forall a | a in actions :: !a.SetActors?
    requires NoCollision(env, Run(env, t, actions), p)
    ensures Transition(env, Run(env, t, actions), user, now, p) != Err(Internal)
    decreases |actions|
  {
    hide Inv, Bound, WellPrepared, Step, Transition, NoCollision;
    if actions == [] {
      NeverInternal(env, t, user, now, p);
    } else {
      assert actions[0] in actions;
      StepKeeps(env, t, actions[0]);
      StepKeepsBound(env, t, actions[0]);
      RunNeverInternal(env, Step(env, t, actions[0]), actions[1..], user, now, p);
    }
  }
}
