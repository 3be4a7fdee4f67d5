/** Why a submission is refused: the response class of each fault. */
module LedgerRefusals {
  import opened JsonValues
  import opened Outcomes
  import opened TextRules
  import opened WorldState
  import opened LedgerTables
  import opened LedgerRules
  import opened LedgerChain
  import opened LedgerActors
  import opened LedgerDecisions
  import opened LedgerRuns
  import opened LedgerAcceptance
  import opened LedgerIntegrity
  import opened LedgerPermission
  import opened LedgerTheorems
  import CanonicalJson
  import CanonicalRoundTrip
  import CT = CanonicalText

  // ---- Bodies ----

  /** The envelope is written as it should be. */
  predicate WellWritten(r: Request) {
    && r.commandId != NIL_UUID && r.sourceActorId != NIL_UUID && r.releaseId != NIL_UUID
    && Stable(r.semanticCommandId) && HashAllowed(r.artifactHash) && HashAllowed(r.baseStateHash) && HashAllowed(r.stateHash)
    && r.expectedRevision >= 0 && r.baseSnapshotSeq >= 0
    && r.serializer != "" && TrimSpace(r.serializer) == r.serializer && Utf8Length(r.serializer) <= 100
    && r.snapshot.Some?
    && (forall i | 0 <= i < |r.targetActorIds| :: r.targetActorIds[i] != NIL_UUID && r.targetActorIds[i] != r.sourceActorId)
    && (forall i, j | 0 <= i < j < |r.targetActorIds| :: r.targetActorIds[i] != r.targetActorIds[j])
    && (forall i | 0 <= i < |r.actorBindings| ::
          var b := r.actorBindings[i];
          b.actorId != NIL_UUID && b.worldActorId != "" && TrimSpace(b.worldActorId) == b.worldActorId && Utf8Length(b.worldActorId) <= 255)
    && (forall i, j | 0 <= i < j < |r.actorBindings| ::
          r.actorBindings[i].actorId != r.actorBindings[j].actorId && r.actorBindings[i].worldActorId != r.actorBindings[j].worldActorId)
    && (r.decision.Some? ==>
          var d := r.decision.value;
          Stable(d.requestId) && Stable(d.resolutionId) && d.requestId != d.resolutionId && d.decidingActorId != NIL_UUID)
  }

  /** The envelope speaks of this version of the transport and keeps to its sizes. */
  predicate WithinBounds(r: Request) {
    && r.schemaVersion == 5 && |r.targetActorIds| <= 32 && 1 <= |r.actorBindings| <= 128
    && (r.decision.Some? ==> r.decision.value.requestSchemaVersion == 1)
  }

  lemma EnvelopeRefusals(r: Request)
    ensures WellWritten(r) && WithinBounds(r) ==> CheckEnvelope(r).Pass?
    ensures WellWritten(r) && !WithinBounds(r) ==> CheckEnvelope(r) == Reject(Unprocessable)
    ensures !WellWritten(r) && WithinBounds(r) ==> CheckEnvelope(r) == Reject(BadRequest)
    ensures CheckEnvelope(r).Reject? ==> CheckEnvelope(r).error == BadRequest || CheckEnvelope(r).error == Unprocessable
  {
    hide TrimSpace, Utf8Length, TargetsOk, BindingsOk, Blank, Trimmed;
    forall text ensures !Blank(text) && Trimmed(text) <==> text != "" && TrimSpace(text) == text { TrimmedNotBlank(text); }
    forall text ensures Trimmed(text) <==> TrimSpace(text) == text { TrimmedIs(text); }
    TargetsIff(r);
    BindingsIff(r.actorBindings);
  }

  /**
   * A body over the size is too large; a text that is not JSON, not an object or
   * not a request, and an envelope, snapshot or metadata badly written, is a bad
   * request; a foreign version or size, a snapshot without the shape of a world
   * and metadata that is no object cannot be processed.
   */
  lemma BodyRefusals(env: Env, raw: string)
    ensures var result := Prepare(env, raw);
            if Utf8Length(raw) > 262_144 then result == Err(TooLarge)
            else if !CanonicalJson.Decode(raw).Ok? || !CanonicalJson.Decode(raw).value.Obj?
                    || env.shape(CanonicalJson.Decode(raw).value).None? then result == Err(BadRequest)
            else
              var r := env.shape(CanonicalJson.Decode(raw).value).value;
              && (WellWritten(r) && !WithinBounds(r) ==> result == Err(Unprocessable))
              && (!WellWritten(r) && WithinBounds(r) ==> result == Err(BadRequest))
              && (WellWritten(r) && WithinBounds(r) ==>
                    if !Exact(r.snapshot.value) then result == Err(BadRequest)
                    else if !SnapshotAllowed(r.snapshot.value) then result == Err(Unprocessable)
                    else if r.eventMetadata.Some? && !Exact(r.eventMetadata.value) then result == Err(BadRequest)
                    else if r.eventMetadata.Some? && !r.eventMetadata.value.Obj? then result == Err(Unprocessable)
                    else result.Ok?)
  {
    hide CanonicalJson.Decode, Utf8Length, CheckEnvelope, InspectWorld, SnapshotAllowed, Exact, CT.Text, WithinBounds, WellWritten;
    if CanonicalJson.Decode(raw).Ok? && env.shape(CanonicalJson.Decode(raw).value).Some? {
      var r := env.shape(CanonicalJson.Decode(raw).value).value;
      EnvelopeRefusals(r);
      EnvelopeIff(r);
      WellWrittenSnapshot(r);
      if r.snapshot.Some? { InspectIff(r.snapshot.value); }
    }
    NoMetadata();
  }

  lemma WellWrittenSnapshot(r: Request)
    ensures WellWritten(r) ==> r.snapshot.Some?
    ensures EnvelopeAllowed(r) ==> r.snapshot.Some?
  {
  }

  // ---- Actors ----

  /** Nobody in control, or nobody owning where that is asked for, cannot be processed; a member who left or only observes is forbidden. */
  lemma HandsRefusals(row: ActorRow, members: map<Uuid, Member>, asksOwner: bool)
    ensures var result := CheckActorMembers(row, members, asksOwner);
            if row.controller.None? then result == Reject(Unprocessable)
            else if row.controller.value !in members || members[row.controller.value].role == Observer then result == Reject(Forbidden)
            else if row.owner.Some? && row.owner.value !in members then result == Reject(Forbidden)
            else if !InHands(row, members, asksOwner) then result == Reject(Unprocessable)
            else result.Pass?
  {
  }

  /** With the source in order, the first target that is not decides: one that does not play cannot be processed. */
  lemma {:induction false} TargetsRefusals(targets: seq<Uuid>, actors: map<Uuid, ActorRow>, members: map<Uuid, Member>, i: nat)
    requires i < |targets| && forall j | 0 <= j < i :: targets[j] in actors && InHands(actors[targets[j]], members, true)
    requires targets[i] !in actors || !InHands(actors[targets[i]], members, true)
    ensures CheckTargets(targets, actors, members) ==
            if targets[i] !in actors then Reject(Unprocessable) else CheckActorMembers(actors[targets[i]], members, true)
    decreases i
  {
    hide CheckActorMembers, InHands;
    if i > 0 {
      InHandsIff(actors[targets[0]], members, true);
      TargetsRefusals(targets[1..], actors, members, i - 1);
    } else if targets[0] in actors {
      InHandsIff(actors[targets[0]], members, true);
    }
  }

  lemma SourceRefusals(t: Tables, user: Uuid, r: Request)
    requires Plays(t, r.sourceActorId) && t.actors[r.sourceActorId].controller == Some(user)
    ensures CheckControl(t, user, r) ==
            if !InHands(t.actors[r.sourceActorId], t.members, true) then CheckActorMembers(t.actors[r.sourceActorId], t.members, true)
            else CheckTargets(r.targetActorIds, ActiveActors(t), t.members)
  {
    hide CheckActorMembers, InHands, CheckTargets, ActiveActors, Plays;
    ActiveAre(t);
    InHandsIff(t.actors[r.sourceActorId], t.members, true);
  }

  /** A submission built on another state, serializer or version is in conflict; a world that does not succeed the stored one cannot be processed. */
  lemma SuccessionRefusals(env: Env, s: SessionRow, base: WorldView, p: Prepared)
    requires Exact(s.snapshot) && s.snapshot.Obj? && base.root == s.snapshot.fields
    requires Exact(p.snapshot) && p.snapshot.Obj? && p.world.root == p.snapshot.fields && p.snapshotBytes == CT.Text(p.snapshot)
    ensures var result := CheckSuccession(env, s, base, p);
            if p.request.expectedRevision != s.revision || p.request.baseSnapshotSeq != s.snapshotSeq
               || p.request.baseStateHash != s.stateHash || p.request.serializer != s.identity.serializer
               || p.request.schemaVersion != s.schemaVersion then result == Reject(Conflict)
            else if !SuccessionAllowed(env, s, base, p) then result == Reject(Unprocessable)
            else result.Pass?
  {
    hide CanonicalBytes, Exact, CT.Text;
    RulesetIff(s.snapshot, p.snapshot, "ruleset");
  }

  /**
   * A binding of an intact stored actor: somebody not playing, a wrong name, an
   * absent actor or a change of id or kind cannot be processed; a new controller
   * and a change the caller did not declare or may not make are forbidden.
   */
  lemma BindingRefusals(env: Env, t: Tables, user: Uuid, p: Prepared, base: WorldView, b: ActorBinding)
    requires Plays(t, b.actorId) ==> RowIsActor(env, t.actors[b.actorId], base.actors, NameOf(t.actors[b.actorId]))
    requires forall k | k in p.world.actors :: Exact(p.world.actors[k])
    ensures var result := ProjectActor(Context(env, t, user, p, base), b);
            if !Plays(t, b.actorId) then result == Err(Unprocessable)
            else
              var row := t.actors[b.actorId];
              if !InHands(row, t.members, false) then result == Err(CheckActorMembers(row, t.members, false).error)
              else if NameOf(row) != b.worldActorId || b.worldActorId !in p.world.actors then result == Err(Unprocessable)
              else
                var next := p.world.actors[b.worldActorId];
                if !next.Obj? || !Says(next.fields, "id", Str(b.worldActorId)) then result == Err(Unprocessable)
                else if !Says(next.fields, "controllerId", Str(row.controller.value)) then result == Err(Forbidden)
                else if !IsActor(row, next, b.worldActorId) then result == Err(Unprocessable)
                else if next != row.projection && !(Declared(p.request, b.actorId) && MayChange(t, user, b.actorId)) then
                  result == Err(Forbidden)
                else result == Ok(Projection(b.actorId, CT.Text(next), env.hash(CT.Text(next))))
  {
    hide CT.Text, Exact, CheckActorMembers, CarriesIdentity, ActiveActors, MayMutate, MayChange, Plays;
    ActiveAre(t);
    if Plays(t, b.actorId) {
      var row := t.actors[b.actorId];
      InHandsIff(row, t.members, false);
      KindIff(row, row.projection, b.worldActorId);
      MutateIff(t, user, b.actorId);
      if b.worldActorId in p.world.actors {
        var next := p.world.actors[b.worldActorId];
        KindIff(row, next, b.worldActorId);
        if CT.Text(next) == CT.Text(row.projection) { CanonicalRoundTrip.TextInjective(next, row.projection); }
      }
    }
  }

  /** Of several bindings the first with a fault decides. */
  lemma {:induction false} FirstFault(c: ProjectionContext, bindings: seq<ActorBinding>, i: nat)
    requires i < |bindings| && ProjectActor(c, bindings[i]).Err? && forall j | 0 <= j < i :: ProjectActor(c, bindings[j]).Ok?
    ensures ProjectActors(c, bindings) == Err(ProjectActor(c, bindings[i]).error)
    decreases i
  {
    hide ProjectActor;
    if i > 0 {
      FirstFault(c, bindings[1..], i - 1);
    }
  }

  /** Bindings that are not one for each playing actor and world actor cannot be processed. */
  lemma CountRefusal(env: Env, t: Tables, user: Uuid, p: Prepared, base: WorldView)
    ensures !(|p.request.actorBindings| == |set id | id in t.actors && Plays(t, id)| == |p.world.actors|) ==>
              PrepareProjections(Context(env, t, user, p, base)) == Err(Unprocessable)
  {
    hide ActiveActors, Plays, ProjectActors;
    ActiveAre(t);
  }

  // ---- Decisions ----

  /**
   * Decision metadata that is missing or out of place cannot be processed;
   * resolving what belongs to somebody else is forbidden; a new decision for
   * somebody undeclared or in a stranger's control is forbidden, one with used
   * identities in conflict, and any other mismatch cannot be processed.
   */
  lemma DecisionRefusals(env: Env, t: Tables, user: Uuid, p: Prepared, pending: Json)
    requires DecisionKeys(t.decisions) && PendingLedger(env, t.decisions, pending) && user in t.members
    requires BindingsOk(p.request.actorBindings) && Exact(pending) && Exact(p.world.pending)
    ensures var result := PlanDecision(env, t, user, p, pending);
            if pending != Null && (exists row | row in t.decisions && row.status == Open ::
                 ActorBinding(row.decidingActorId, AwaitedActor(pending)) !in p.request.actorBindings) then result == Err(Internal)
            else if p.world.pending == pending then
              (p.request.decision.Some? ==> result == Err(Unprocessable))
            else if pending != Null && exists row | row in t.decisions && row.status == Open :: !MayResolve(t, user, p.request, row) then
              result == Err(Forbidden)
            else if p.world.pending == Null then
              (p.request.decision.Some? ==> result == Err(Unprocessable))
            else if p.request.decision.None? || !Plays(t, p.request.decision.value.decidingActorId) then result == Err(Unprocessable)
            else
              var d := p.request.decision.value;
              var controller := t.actors[d.decidingActorId].controller;
              if !Declared(p.request, d.decidingActorId) then result == Err(Forbidden)
              else if controller.None? then result == Err(Unprocessable)
              else if controller.value !in t.members then result == Err(Forbidden)
              else if !PendingNames(p.world.pending, d.resolutionId, d.requestId, AwaitedActor(p.world.pending))
                      || ActorBinding(d.decidingActorId, AwaitedActor(p.world.pending)) !in p.request.actorBindings then
                result == Err(Unprocessable)
              else if exists row | row in t.decisions :: row.requestId == d.requestId || row.resolutionId == d.resolutionId then
                result == Err(Conflict)
              else result.Ok?
  {
    hide BindingsOk, BoundWorldActor, PendingDecision, PendingLedger, DecisionKeys, OpenRowMatches, CanonicalBytes, Exact, PendingNames,
         AwaitedActor, ExistingOpen, ActiveActors, Plays;
    OpenRowIs(env, t.decisions, pending);
    SamePending(pending, p.world.pending);
    ActiveAre(t);
    var existing := ExistingOpen(t.decisions);
    if existing.Some? {
      PendingIs(pending);
      BindingNamed(p.request.actorBindings, existing.value.decidingActorId, AwaitedActor(pending));
    }
    if p.request.decision.Some? {
      PendingIff(p.world.pending);
      BindingNamed(p.request.actorBindings, p.request.decision.value.decidingActorId, AwaitedActor(p.world.pending));
      if PendingDecision(p.world.pending).Some? { PendingIs(p.world.pending); }
    }
  }

  /** Of an admitted submission, a used semantic id or event hash is in conflict, and a snapshot the database refuses cannot be processed. */
  lemma CommitRefusals(env: Env, t: Tables, user: Uuid, now: string, p: Prepared, base: WorldView, updates: seq<Projection>, plan: DecisionPlan)
    requires Inv(env, t) && WellPrepared(env, p) && Admitted(env, t, user, p, base, updates, plan)
    ensures Exact(EventBody(t.session, p, |t.events| + 1, now))
    ensures var result := Commit(env, t, user, now, p, updates, plan);
            var hash := env.hash(CT.Text(EventBody(t.session, p, |t.events| + 1, now)));
            if (exists id | id in t.commands :: t.commands[id].semanticId == p.request.semanticCommandId)
               || (exists e | e in t.events :: e.eventHash == hash) then result == Err(Conflict)
            else if !env.schemaAccepts(p.snapshot) then result == Err(Unprocessable)
            else result.Ok?
  {
    hide Chain, VerifyStored, InspectWorld, EventBody, ApplyDecision, MaxSeq, CommittedCommand, CheckControl, ActorsBound, PrepareProjections,
         PlanDecision, CheckEnvelope, UpdateActors, ProjectionHashes, CT.Text, Exact, NewHead, NewSnapshot, CommittedResponse, CheckSuccession,
         PendingLedger, DecisionKeys, ActiveActors, StoredJson;
    HeadAccepted(env, t);
    NumbersNew(env, t);
    NewEventExact(env, t, now, p, base);
    WellExact(env, p);
    StoredExact(env, t);
    PendingExact(t.session.snapshot, base);
    PendingExact(p.snapshot, p.world);
    PlannedWrites(env, t, user, p, base.pending, plan, |t.events| + 1);
  }

  // ---- Damaged stores ----

  /** Whatever is stored, a session, head or event that is not intact is an internal error to a member, retries included, and nothing is written. */
  lemma DamagedRefused(env: Env, t: Tables, user: Uuid, now: string, p: Prepared)
    requires WellPrepared(env, p)
    ensures Exact(p.body)
    ensures var result := Transition(env, t, user, now, p);
            if user !in t.members || t.members[user].role == Observer then result == Err(Forbidden)
            else !(SessionIntact(env, t.session) && HeadIntact(env, t)) ==> result == Err(Internal)
  {
    hide VerifyStored, HeadVerified, HeadIntact, InspectWorld, Commit, WellPrepared, LoadReceipt, AdmitFresh, Exact;
    WellExact(env, p);
    SessionIff(env, t.session);
    HeadIff(env, t);
  }
}
