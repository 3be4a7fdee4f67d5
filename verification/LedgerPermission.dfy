/** Exactly which submissions are accepted, said of the request and the stored rows alone. */
module LedgerPermission {
  import opened JsonValues
  import opened Outcomes
  import opened TextRules
  import opened WorldState
  import opened LedgerTables
  import opened LedgerRules
  import opened LedgerChain
  import opened LedgerActors
  import opened LedgerDecisions
  import opened LedgerRuns
  import opened LedgerTheorems
  import opened LedgerAcceptance
  import opened LedgerIntegrity
  import CanonicalJson
  import CanonicalRoundTrip
  import CT = CanonicalText

  // ---- Snapshots ----

  /** Stable identifiers are trimmed and of 1 to 128 bytes. */
  predicate Stable(text: string) {
    text != "" && TrimSpace(text) == text && Utf8Length(text) <= 128
  }

  predicate HitPointsAllowed(actor: Json) {
    (actor.Obj? && "runtime" in actor.fields && actor.fields["runtime"].Obj? && "hp" in actor.fields["runtime"].fields) ==>
      var hp := actor.fields["runtime"].fields["hp"];
      && hp.Obj? && "current" in hp.fields && hp.fields["current"].Num?
      && "max" in hp.fields && hp.fields["max"].Num? && hp.fields["max"].n > 0
      && "temp" in hp.fields && hp.fields["temp"].Num? && hp.fields["temp"].n >= 0
  }

  predicate HasNatural(f: map<string, Json>, key: string) {
    key in f && f[key].Num? && f[key].n >= 0
  }

  predicate SnapshotAllowed(v: Json) {
    && v.Obj?
    && var f := v.fields;
    && "actors" in f && f["actors"].Obj? && (forall k | k in f["actors"].fields :: HitPointsAllowed(f["actors"].fields[k]))
    && HasNatural(f, "revision") && HasNatural(f, "logicalClock")
    && "id" in f && f["id"].Str? && TrimSpace(f["id"].text) != ""
    && "scene" in f && f["scene"].Obj? && "mode" in f["scene"].fields && f["scene"].fields["mode"].Str?
    && (f["scene"].fields["mode"].text == "exploration" || f["scene"].fields["mode"].text == "encounter")
    && "processedCommandIds" in f && f["processedCommandIds"].Arr?
    && var ids := f["processedCommandIds"].items;
    && (forall i | 0 <= i < |ids| :: ids[i].Str? && Stable(ids[i].text))
    && (forall i, j | 0 <= i < j < |ids| :: ids[i] != ids[j])
    && "pendingResolution" in f && (f["pendingResolution"].Null? || f["pendingResolution"].Obj?)
  }

  /** The view shows the fields of the snapshot. */
  predicate Shows(v: Json, w: WorldView)
    requires SnapshotAllowed(v)
  {
    var f := v.fields;
    && w.root == f && w.actors == f["actors"].fields && w.pending == f["pendingResolution"]
    && w.revision == f["revision"].n && w.logicalClock == f["logicalClock"].n
    && w.mode == f["scene"].fields["mode"].text && w.worldId == f["id"].text
    && |w.processed| == |f["processedCommandIds"].items|
    && forall i | 0 <= i < |w.processed| :: f["processedCommandIds"].items[i] == Str(w.processed[i])
  }

  lemma HitPointsIff(actor: Json)
    ensures HpShapeOk(actor) <==> HitPointsAllowed(actor)
  {
  }

  lemma IdsIff(items: seq<Json>)
    ensures ReadIds(items).Some? <==>
            (forall i | 0 <= i < |items| :: items[i].Str? && Stable(items[i].text)) && (forall i, j | 0 <= i < j < |items| :: items[i] != items[j])
    ensures ReadIds(items).Some? ==>
              |ReadIds(items).value| == |items| && forall i | 0 <= i < |items| :: items[i] == Str(ReadIds(items).value[i])
  {
    hide TrimSpace, Utf8Length;
    if forall i | 0 <= i < |items| :: items[i].Str? && Stable(items[i].text) {
      var ids := seq(|items|, i requires 0 <= i < |items| => items[i].text);
      assert forall i | 0 <= i < |items| :: items[i] == Str(ids[i]);
    }
  }

  /** A snapshot is accepted if and only if it has the shape, and then seen as it is. */
  lemma InspectIff(v: Json)
    ensures InspectWorld(v).Ok? <==> SnapshotAllowed(v)
    ensures InspectWorld(v).Ok? ==> Shows(v, InspectWorld(v).value)
    ensures InspectWorld(v).Err? ==> InspectWorld(v) == Err(Unprocessable)
  {
    hide HpShapeOk, HitPointsAllowed, ReadIds, TrimSpace, Stable;
    if v.Obj? && "actors" in v.fields && v.fields["actors"].Obj? {
      var actors := v.fields["actors"].fields;
      forall k | k in actors ensures HpShapeOk(actors[k]) <==> HitPointsAllowed(actors[k]) { HitPointsIff(actors[k]); }
    }
    if v.Obj? && "processedCommandIds" in v.fields && v.fields["processedCommandIds"].Arr? {
      IdsIff(v.fields["processedCommandIds"].items);
    }
  }

  // ---- Request bodies ----

  /** `sha256:` and 64 lower-case hexadecimal digits. */
  predicate HashAllowed(text: string) {
    |text| == 71 && text[..7] == "sha256:" && forall i | 7 <= i < 71 :: '0' <= text[i] <= '9' || 'a' <= text[i] <= 'f'
  }

  predicate EnvelopeAllowed(r: Request) {
    && r.commandId != NIL_UUID && r.sourceActorId != NIL_UUID && r.releaseId != NIL_UUID
    && Stable(r.semanticCommandId) && HashAllowed(r.artifactHash) && HashAllowed(r.baseStateHash) && HashAllowed(r.stateHash)
    && r.expectedRevision >= 0 && r.baseSnapshotSeq >= 0 && r.schemaVersion == 5
    && r.serializer != "" && TrimSpace(r.serializer) == r.serializer && Utf8Length(r.serializer) <= 100
    && r.snapshot.Some?
    && |r.targetActorIds| <= 32 && 1 <= |r.actorBindings| <= 128
    && (forall i | 0 <= i < |r.targetActorIds| :: r.targetActorIds[i] != NIL_UUID && r.targetActorIds[i] != r.sourceActorId)
    && (forall i, j | 0 <= i < j < |r.targetActorIds| :: r.targetActorIds[i] != r.targetActorIds[j])
    && (forall i | 0 <= i < |r.actorBindings| ::
          var b := r.actorBindings[i];
          b.actorId != NIL_UUID && b.worldActorId != "" && TrimSpace(b.worldActorId) == b.worldActorId && Utf8Length(b.worldActorId) <= 255)
    && (forall i, j | 0 <= i < j < |r.actorBindings| ::
          r.actorBindings[i].actorId != r.actorBindings[j].actorId && r.actorBindings[i].worldActorId != r.actorBindings[j].worldActorId)
    && (r.decision.Some? ==>
          var d := r.decision.value;
          Stable(d.requestId) && Stable(d.resolutionId) && d.requestId != d.resolutionId && d.decidingActorId != NIL_UUID
          && d.requestSchemaVersion == 1)
  }

  predicate BodyAllowed(env: Env, raw: string) {
    && Utf8Length(raw) <= 262_144 && CanonicalJson.Decode(raw).Ok? && CanonicalJson.Decode(raw).value.Obj?
    && var r := env.shape(CanonicalJson.Decode(raw).value);
    && r.Some? && EnvelopeAllowed(r.value)
    && Exact(r.value.snapshot.value) && SnapshotAllowed(r.value.snapshot.value)
    && (r.value.eventMetadata.Some? ==> Exact(r.value.eventMetadata.value) && r.value.eventMetadata.value.Obj?)
  }

  lemma TrimmedNotBlank(text: string)
    ensures !Blank(text) && Trimmed(text) <==> text != "" && TrimSpace(text) == text
  {
    hide TrimSpace;
    assert TrimSpace("") == "" by { NothingTrimmed(); }
  }

  lemma NothingTrimmed()
    ensures TrimSpace("") == ""
  {
  }

  lemma TargetsIff(r: Request)
    ensures TargetsOk(r) <==>
            (forall i | 0 <= i < |r.targetActorIds| :: r.targetActorIds[i] != NIL_UUID && r.targetActorIds[i] != r.sourceActorId)
            && (forall i, j | 0 <= i < j < |r.targetActorIds| :: r.targetActorIds[i] != r.targetActorIds[j])
  {
  }

  lemma BindingsIff(bindings: seq<ActorBinding>)
    ensures BindingsOk(bindings) <==>
            (forall i | 0 <= i < |bindings| ::
               var b := bindings[i];
               b.actorId != NIL_UUID && b.worldActorId != "" && TrimSpace(b.worldActorId) == b.worldActorId && Utf8Length(b.worldActorId) <= 255)
            && (forall i, j | 0 <= i < j < |bindings| ::
                  bindings[i].actorId != bindings[j].actorId && bindings[i].worldActorId != bindings[j].worldActorId)
  {
    hide TrimSpace, Utf8Length, Blank, Trimmed;
    forall text ensures !Blank(text) && Trimmed(text) <==> text != "" && TrimSpace(text) == text { TrimmedNotBlank(text); }
    assert forall i | 0 <= i < |bindings| :: bindings[i] in bindings;
  }

  lemma EnvelopeIff(r: Request)
    ensures CheckEnvelope(r).Pass? <==> EnvelopeAllowed(r)
  {
    hide TrimSpace, Utf8Length, TargetsOk, BindingsOk, Blank, Trimmed;
    forall text ensures !Blank(text) && Trimmed(text) <==> text != "" && TrimSpace(text) == text { TrimmedNotBlank(text); }
    forall text ensures Trimmed(text) <==> TrimSpace(text) == text { assert Trimmed(text) <==> TrimSpace(text) == text by { TrimmedIs(text); } }
    TargetsIff(r);
    BindingsIff(r.actorBindings);
  }

  lemma TrimmedIs(text: string)
    ensures Trimmed(text) <==> TrimSpace(text) == text
  {
    hide TrimSpace;
  }

  /** A body is prepared if and only if it is an allowed one. */
  lemma PrepareIff(env: Env, raw: string)
    ensures Prepare(env, raw).Ok? <==> BodyAllowed(env, raw)
  {
    hide CanonicalJson.Decode, Utf8Length, CheckEnvelope, EnvelopeAllowed, InspectWorld, SnapshotAllowed, Exact, CT.Text;
    if CanonicalJson.Decode(raw).Ok? && env.shape(CanonicalJson.Decode(raw).value).Some? {
      var r := env.shape(CanonicalJson.Decode(raw).value).value;
      EnvelopeIff(r);
      EnvelopeHasSnapshot(r);
      if r.snapshot.Some? { InspectIff(r.snapshot.value); }
    }
    NoMetadata();
  }

  lemma EnvelopeHasSnapshot(r: Request)
    ensures EnvelopeAllowed(r) ==> r.snapshot.Some?
  {
  }

  lemma NoMetadata()
    ensures Exact(Obj(map[]))
  {
  }

  // ---- Who may do what ----

  /** The caller may change this actor: by the elevated capability of an owner or master, as its controller, or as its owner. */
  predicate MayChange(t: Tables, user: Uuid, id: Uuid) {
    && user != NIL_UUID && user in t.members && id in t.actors
    && ((t.members[user].canControlUnowned && (t.members[user].role == Owner || t.members[user].role == GameMaster))
        || t.actors[id].controller == Some(user) || t.actors[id].owner == Some(user))
  }

  /** Controlled by an active member who is no observer, and owned by an active one or, unless that is asked for, by nobody. */
  predicate InHands(row: ActorRow, members: map<Uuid, Member>, asksOwner: bool) {
    && row.controller.Some? && row.controller.value in members && members[row.controller.value].role != Observer
    && (row.owner.Some? ==> row.owner.value in members)
    && (row.owner.None? && asksOwner ==> row.characterId.None? && row.kind != "player_character")
  }

  predicate Declared(r: Request, id: Uuid) {
    id == r.sourceActorId || id in r.targetActorIds
  }

  predicate ControlAllowed(t: Tables, user: Uuid, r: Request) {
    && Plays(t, r.sourceActorId) && t.actors[r.sourceActorId].controller == Some(user)
    && forall id | id in [r.sourceActorId] + r.targetActorIds :: Plays(t, id) && InHands(t.actors[id], t.members, true)
  }

  /** The new world builds on the stored one and appends this command. */
  predicate SuccessionAllowed(env: Env, s: SessionRow, base: WorldView, p: Prepared) {
    && p.request.expectedRevision == s.revision && p.request.baseSnapshotSeq == s.snapshotSeq && p.request.baseStateHash == s.stateHash
    && p.request.serializer == s.identity.serializer && p.request.schemaVersion == s.schemaVersion
    && p.world.revision == s.revision + 1 && p.world.logicalClock >= base.logicalClock
    && p.world.worldId == base.worldId && p.world.mode == s.mode && base.mode == s.mode
    && Field(p.world.root, "ruleset") == Field(base.root, "ruleset")
    && p.world.processed == base.processed + [p.request.semanticCommandId]
    && Exact(p.snapshot) && env.hash(CT.Text(p.snapshot)) == p.request.stateHash
  }

  /** The binding names a playing actor, keeps who it is, and changes it only if the caller declared it and may. */
  predicate BindingAllowed(t: Tables, user: Uuid, p: Prepared, b: ActorBinding) {
    && Plays(t, b.actorId)
    && var row := t.actors[b.actorId];
    && InHands(row, t.members, false) && NameOf(row) == b.worldActorId && b.worldActorId in p.world.actors
    && IsActor(row, p.world.actors[b.worldActorId], b.worldActorId)
    && (p.world.actors[b.worldActorId] != row.projection ==> Declared(p.request, b.actorId) && MayChange(t, user, b.actorId))
  }

  predicate BindingsAllowed(t: Tables, user: Uuid, p: Prepared) {
    && |p.request.actorBindings| == |set id | id in t.actors && Plays(t, id)| == |p.world.actors|
    && forall b | b in p.request.actorBindings :: BindingAllowed(t, user, p, b)
  }

  lemma InHandsIff(row: ActorRow, members: map<Uuid, Member>, asksOwner: bool)
    ensures CheckActorMembers(row, members, asksOwner).Pass? <==> InHands(row, members, asksOwner)
  {
  }

  lemma {:induction false} TargetsInHands(targets: seq<Uuid>, actors: map<Uuid, ActorRow>, members: map<Uuid, Member>)
    ensures CheckTargets(targets, actors, members).Pass? <==>
            forall id | id in targets :: id in actors && InHands(actors[id], members, true)
  {
    hide CheckActorMembers, InHands;
    if targets != [] {
      if targets[0] in actors { InHandsIff(actors[targets[0]], members, true); }
      TargetsInHands(targets[1..], actors, members);
      assert forall id :: id in targets <==> id == targets[0] || id in targets[1..];
    }
  }

  lemma ControlIff(t: Tables, user: Uuid, r: Request)
    ensures CheckControl(t, user, r).Pass? <==> ControlAllowed(t, user, r)
  {
    hide CheckActorMembers, InHands, CheckTargets, ActiveActors, Plays;
    ActiveAre(t);
    var actors := ActiveActors(t);
    if r.sourceActorId in actors { InHandsIff(actors[r.sourceActorId], t.members, true); }
    TargetsInHands(r.targetActorIds, actors, t.members);
    assert forall id :: id in [r.sourceActorId] + r.targetActorIds <==> id == r.sourceActorId || id in r.targetActorIds;
  }

  lemma RulesetIff(a: Json, b: Json, key: string)
    requires Exact(a) && Exact(b) && a.Obj? && b.Obj?
    ensures CanonicalBytes(Field(a.fields, key)) == CanonicalBytes(Field(b.fields, key)) <==> Field(a.fields, key) == Field(b.fields, key)
  {
    hide CT.Text;
    FieldExact(a, key);
    FieldExact(b, key);
    if CanonicalBytes(Field(a.fields, key)) == CanonicalBytes(Field(b.fields, key)) {
      CanonicalRoundTrip.TextInjective(Field(a.fields, key), Field(b.fields, key));
    }
  }

  lemma SuccessionIff(env: Env, s: SessionRow, base: WorldView, p: Prepared)
    requires Exact(s.snapshot) && s.snapshot.Obj? && base.root == s.snapshot.fields
    requires Exact(p.snapshot) && p.snapshot.Obj? && p.world.root == p.snapshot.fields && p.snapshotBytes == CT.Text(p.snapshot)
    ensures CheckSuccession(env, s, base, p).Pass? <==> SuccessionAllowed(env, s, base, p)
  {
    hide CanonicalBytes, Exact, CT.Text;
    RulesetIff(s.snapshot, p.snapshot, "ruleset");
  }

  lemma MutateIff(t: Tables, user: Uuid, id: Uuid)
    requires id in t.actors
    ensures (user in t.members && MayMutate(t.members[user], user, t.actors[id])) <==> MayChange(t, user, id)
  {
  }

  /** Against an intact stored row, a binding is projected if and only if it is allowed. */
  lemma BindingIff(env: Env, t: Tables, user: Uuid, p: Prepared, base: WorldView, b: ActorBinding)
    requires Plays(t, b.actorId) ==> RowIsActor(env, t.actors[b.actorId], base.actors, NameOf(t.actors[b.actorId]))
    requires forall k | k in p.world.actors :: Exact(p.world.actors[k])
    ensures ProjectActor(Context(env, t, user, p, base), b).Ok? <==> BindingAllowed(t, user, p, b)
  {
    hide CT.Text, Exact, CheckActorMembers, InHands, CarriesIdentity, ActiveActors, MayMutate, MayChange, Plays;
    ActiveAre(t);
    if Plays(t, b.actorId) {
      var row := t.actors[b.actorId];
      InHandsIff(row, t.members, false);
      KindIff(row, row.projection, b.worldActorId);
      MutateIff(t, user, b.actorId);
      if b.worldActorId in p.world.actors {
        var next := p.world.actors[b.worldActorId];
        KindIff(row, next, b.worldActorId);
        if CT.Text(next) == CT.Text(row.projection) { CanonicalRoundTrip.TextInjective(next, row.projection); }
      }
    }
  }

  lemma {:induction false} ProjectAllIff(c: ProjectionContext, bindings: seq<ActorBinding>)
    ensures ProjectActors(c, bindings).Ok? <==> forall b | b in bindings :: ProjectActor(c, b).Ok?
  {
    hide ProjectActor;
    if bindings != [] {
      ProjectAllIff(c, bindings[1..]);
      assert forall b :: b in bindings <==> b == bindings[0] || b in bindings[1..];
    }
  }

  lemma BindingsAllIff(env: Env, t: Tables, user: Uuid, p: Prepared, base: WorldView)
    requires RowsAreActors(env, t, base.actors) && forall k | k in p.world.actors :: Exact(p.world.actors[k])
    ensures PrepareProjections(Context(env, t, user, p, base)).Ok? <==> BindingsAllowed(t, user, p)
  {
    hide ProjectActors, ProjectActor, BindingAllowed, ActiveActors, Plays, RowIsActor, NameOf, Exact;
    ActiveAre(t);
    var c := Context(env, t, user, p, base);
    ProjectAllIff(c, p.request.actorBindings);
    forall b | b in p.request.actorBindings ensures ProjectActor(c, b).Ok? <==> BindingAllowed(t, user, p, b) {
      PlaysActor(t, b.actorId);
      BindingIff(env, t, user, p, base, b);
    }
  }

  lemma PlaysActor(t: Tables, id: Uuid)
    ensures Plays(t, id) ==> id in t.actors
  {
  }

  // ---- Decisions ----

  /** The pending resolution carries these identities and waits for this world actor. */
  predicate PendingNames(pending: Json, resolutionId: string, requestId: string, worldActorId: string) {
    && pending.Obj? && Says(pending.fields, "id", Str(resolutionId)) && Stable(resolutionId)
    && "request" in pending.fields && pending.fields["request"].Obj?
    && var request := pending.fields["request"].fields;
    && Says(request, "id", Str(requestId)) && Stable(requestId)
    && Says(request, "actorId", Str(worldActorId))
    && worldActorId != "" && TrimSpace(worldActorId) == worldActorId && Utf8Length(worldActorId) <= 255
  }

  /** The world actor that the pending resolution waits for. */
  function AwaitedActor(pending: Json): string {
    if pending.Obj? && "request" in pending.fields && pending.fields["request"].Obj?
       && "actorId" in pending.fields["request"].fields && pending.fields["request"].fields["actorId"].Str?
    then pending.fields["request"].fields["actorId"].text else ""
  }

  /** A new decision: decided by a playing source or target in an active member's control, whom the resolution waits for, under new identities. */
  predicate OpeningAllowed(t: Tables, p: Prepared) {
    && p.request.decision.Some?
    && var d := p.request.decision.value;
    && Plays(t, d.decidingActorId) && Declared(p.request, d.decidingActorId)
    && t.actors[d.decidingActorId].controller.Some? && t.actors[d.decidingActorId].controller.value in t.members
    && PendingNames(p.world.pending, d.resolutionId, d.requestId, AwaitedActor(p.world.pending))
    && ActorBinding(d.decidingActorId, AwaitedActor(p.world.pending)) in p.request.actorBindings
    && forall row | row in t.decisions :: row.requestId != d.requestId && row.resolutionId != d.resolutionId
  }

  /** The caller has the elevated capability, or controls the decision and acts with its actor. */
  predicate MayResolve(t: Tables, user: Uuid, r: Request, row: DecisionRow) {
    user in t.members && (t.members[user].canControlUnowned || (row.assignedController == user && row.decidingActorId == r.sourceActorId))
  }

  /**
   * A pending resolution is kept, or resolved by somebody who may; a new one is
   * opened; decision metadata comes with a new one and with nothing else.
   */
  predicate DecisionAllowed(t: Tables, user: Uuid, p: Prepared, pending: Json) {
    && (pending != Null ==>
          forall row | row in t.decisions && row.status == Open ::
            ActorBinding(row.decidingActorId, AwaitedActor(pending)) in p.request.actorBindings)
    && if p.world.pending == pending then p.request.decision == None
       else
         && (pending != Null ==> forall row | row in t.decisions && row.status == Open :: MayResolve(t, user, p.request, row))
         && (if p.world.pending == Null then p.request.decision == None else OpeningAllowed(t, p))
  }

  lemma PendingIff(pending: Json)
    ensures PendingDecision(pending).Some? <==>
            exists resolutionId, requestId :: PendingNames(pending, resolutionId, requestId, AwaitedActor(pending))
    ensures forall resolutionId, requestId | PendingNames(pending, resolutionId, requestId, AwaitedActor(pending)) ::
              PendingDecision(pending) == Some(PendingIdentity(resolutionId, requestId, AwaitedActor(pending)))
  {
    hide TrimSpace, Utf8Length;
    if PendingDecision(pending).Some? {
      var named := PendingDecision(pending).value;
      assert PendingNames(pending, named.resolutionId, named.requestId, AwaitedActor(pending));
    }
  }

  lemma PendingIs(pending: Json)
    requires PendingDecision(pending).Some?
    ensures var named := PendingDecision(pending).value;
            named.actorId == AwaitedActor(pending) && PendingNames(pending, named.resolutionId, named.requestId, named.actorId)
  {
    hide TrimSpace, Utf8Length;
  }

  lemma BindingNamed(bindings: seq<ActorBinding>, id: Uuid, worldActorId: string)
    requires BindingsOk(bindings)
    ensures BoundWorldActor(bindings, id) == Some(worldActorId) <==> ActorBinding(id, worldActorId) in bindings
  {
    hide BindingsOk, BoundWorldActor;
    BindingIdsDistinct(bindings);
    if BoundWorldActor(bindings, id).Some? {
      BoundWorldActorFound(bindings, id);
      var i :| 0 <= i < |bindings| && bindings[i].actorId == id && bindings[i].worldActorId == BoundWorldActor(bindings, id).value;
      assert bindings[i] == ActorBinding(id, BoundWorldActor(bindings, id).value) && bindings[i] in bindings;
    }
    if ActorBinding(id, worldActorId) in bindings {
      var i :| 0 <= i < |bindings| && bindings[i] == ActorBinding(id, worldActorId);
      BoundWorldActorAt(bindings, i);
    }
  }

  lemma OpeningIff(t: Tables, p: Prepared, existing: Option<DecisionRow>)
    requires BindingsOk(p.request.actorBindings) && (existing.Some? ==> existing.value in t.decisions)
    ensures PlanOpening(t, p.request, existing, p.world.pending).Ok? <==> OpeningAllowed(t, p)
  {
    hide BindingsOk, BoundWorldActor, ActiveActors, PendingDecision, PendingNames, AwaitedActor, Plays;
    ActiveAre(t);
    if p.request.decision.Some? {
      var d, pending := p.request.decision.value, p.world.pending;
      PendingIff(pending);
      BindingNamed(p.request.actorBindings, d.decidingActorId, AwaitedActor(pending));
      if PendingDecision(pending).Some? { PendingIs(pending); }
    }
  }

  lemma SamePending(a: Json, b: Json)
    requires Exact(a) && Exact(b)
    ensures CanonicalBytes(a) == CanonicalBytes(b) <==> a == b
  {
    hide CT.Text, Exact;
    if CanonicalBytes(a) == CanonicalBytes(b) { CanonicalRoundTrip.TextInjective(a, b); }
  }

  /** The open row is the only one, and it matches the pending resolution. */
  lemma OpenRowIs(env: Env, rows: seq<DecisionRow>, pending: Json)
    requires DecisionKeys(rows) && PendingLedger(env, rows, pending)
    ensures ExistingOpen(rows).Some? <==> pending != Null
    ensures ExistingOpen(rows).Some? ==>
              && OpenRowMatches(env, ExistingOpen(rows).value, pending) && PendingDecision(pending).Some?
              && forall row :: row in rows && row.status == Open <==> row == ExistingOpen(rows).value
  {
    hide PendingDecision, Sealed, CanonicalBytes;
    OpenRowsAre(rows);
    if ExistingOpen(rows).Some? {
      assert OpenRows(rows)[0] in OpenRows(rows);
      forall row | row in rows && row.status == Open ensures row == ExistingOpen(rows).value {
        var i :| 0 <= i < |rows| && rows[i] == row;
      }
    }
  }

  lemma PlanIff(env: Env, t: Tables, user: Uuid, p: Prepared, pending: Json)
    requires DecisionKeys(t.decisions) && PendingLedger(env, t.decisions, pending) && user in t.members
    requires BindingsOk(p.request.actorBindings) && Exact(pending) && Exact(p.world.pending)
    ensures PlanDecision(env, t, user, p, pending).Ok? <==> DecisionAllowed(t, user, p, pending)
  {
    hide BindingsOk, BoundWorldActor, PendingDecision, PendingLedger, DecisionKeys, OpenRowMatches, CanonicalBytes, Exact, OpeningAllowed,
         PlanOpening, AwaitedActor, ExistingOpen;
    OpenRowIs(env, t.decisions, pending);
    SamePending(pending, p.world.pending);
    var existing := ExistingOpen(t.decisions);
    OpeningIff(t, p, existing);
    if existing.Some? {
      PendingIs(pending);
      BindingNamed(p.request.actorBindings, existing.value.decidingActorId, AwaitedActor(pending));
    }
  }

  // ---- The whole transition ----

  /** What the database still has to accept: a new semantic id, an event hash not met before, and the snapshot itself. */
  predicate RowsAllowed(env: Env, t: Tables, now: string, p: Prepared) {
    && (forall id | id in t.commands :: t.commands[id].semanticId != p.request.semanticCommandId)
    && env.schemaAccepts(p.snapshot)
    && var body := EventBody(t.session, p, |t.events| + 1, now);
       Exact(body) ==> forall e | e in t.events :: e.eventHash != env.hash(CT.Text(body))
  }

  predicate FreshAllowed(env: Env, t: Tables, user: Uuid, now: string, p: Prepared)
    requires InspectWorld(t.session.snapshot).Ok?
  {
    var base := InspectWorld(t.session.snapshot).value;
    && user in t.members && t.members[user].role != Observer
    && p.request.releaseId == t.session.identity.releaseId && p.request.artifactHash == t.session.identity.artifactHash
    && t.session.status == "active" && t.session.authorityMode == "local"
    && ControlAllowed(t, user, p.request)
    && RowsAreActors(env, t, base.actors)
    && SuccessionAllowed(env, t.session, base, p)
    && BindingsAllowed(t, user, p)
    && DecisionAllowed(t, user, p, base.pending)
    && RowsAllowed(env, t, now, p)
  }

  /** A planned decision can always be written. */
  lemma PlannedWrites(env: Env, t: Tables, user: Uuid, p: Prepared, pending: Json, plan: DecisionPlan, eventSeq: int)
    requires DecisionKeys(t.decisions) && PendingLedger(env, t.decisions, pending)
    requires user in t.members && PlanDecision(env, t, user, p, pending) == Ok(plan)
    requires Exact(pending) && Exact(p.world.pending)
    ensures ApplyDecision(env, t.decisions, p, plan, eventSeq).Ok?
  {
    hide PlanDecision, PendingDecision, OpenRowMatches, BoundWorldActor, OpenedRow, OpenRows, CheckExisting, PendingLedger, Exact;
    var rows := t.decisions;
    OpenRowIs(env, rows, pending);
    PlanMeaning(env, t, user, p, pending, plan);
    if plan.open.Some? {
      OpenAssignedIds(env, t, user, p, pending, plan);
      if plan.resolve.Some? {
        ResolveCloses(rows, p.request.commandId);
        var closed := ResolveRows(rows, plan.resolve.value.requestId, p.request.commandId);
        forall row | row in closed
          ensures !row.status.Open? && row.requestId != plan.open.value.metadata.requestId
          ensures row.resolutionId != plan.open.value.metadata.resolutionId
        {
          var i :| 0 <= i < |closed| && closed[i] == row;
          assert rows[i] in rows;
        }
      } else {
        forall row | row in rows ensures !row.status.Open? {
          OpenRowsAre(rows);
          var i :| 0 <= i < |rows| && rows[i] == row;
        }
      }
    }
  }

  lemma OpenAssignedIds(env: Env, t: Tables, user: Uuid, p: Prepared, pending: Json, plan: DecisionPlan)
    requires user in t.members && PlanDecision(env, t, user, p, pending) == Ok(plan) && plan.open.Some?
    ensures forall row | row in t.decisions ::
              row.requestId != plan.open.value.metadata.requestId && row.resolutionId != plan.open.value.metadata.resolutionId
  {
    hide PendingDecision, BoundWorldActor, CT.Text, ActiveActors, CheckExisting, OpenRows;
  }

  /** Numbers in a chain are new to it. */
  lemma NumbersNew(env: Env, t: Tables)
    requires Chain(env, t)
    ensures MaxSeq(t.events) == |t.events|
    ensures forall e | e in t.events :: e.seqNo != |t.events| + 1
    ensures forall h | h in t.snapshots :: h.seqNo != t.session.snapshotSeq + 1
  {
    hide Commands, Sealed, InspectWorld, PayloadMatches, Succeeds;
    EventsNumbered(env, t);
    forall e | e in t.events ensures e.seqNo != |t.events| + 1 {
      var k :| 0 <= k < |t.events| && t.events[k] == e;
      assert EventAt(env, k, t.snapshots[k], t.snapshots[k + 1], t.events[k], t.commands[t.events[k].commandId].semanticId);
    }
    forall h | h in t.snapshots ensures h.seqNo != t.session.snapshotSeq + 1 {
      var k :| 0 <= k < |t.snapshots| && t.snapshots[k] == h;
      assert SnapshotAt(env, t.session.identity, t.snapshots[0].revision, k, t.snapshots[k]);
    }
  }

  lemma CommitIff(env: Env, t: Tables, user: Uuid, now: string, p: Prepared, base: WorldView, updates: seq<Projection>, plan: DecisionPlan)
    requires Inv(env, t) && WellPrepared(env, p) && Admitted(env, t, user, p, base, updates, plan)
    ensures Commit(env, t, user, now, p, updates, plan).Ok? <==> RowsAllowed(env, t, now, p)
  {
    hide Chain, VerifyStored, InspectWorld, EventBody, ApplyDecision, MaxSeq, CommittedCommand, CheckControl, ActorsBound, PrepareProjections,
         PlanDecision, CheckEnvelope, UpdateActors, ProjectionHashes, CT.Text, Exact, NewHead, NewSnapshot, CommittedResponse, CheckSuccession,
         PendingLedger, DecisionKeys, ActiveActors, StoredJson;
    HeadAccepted(env, t);
    NumbersNew(env, t);
    NewEventExact(env, t, now, p, base);
    WellExact(env, p);
    StoredExact(env, t);
    PendingExact(t.session.snapshot, base);
    PendingExact(p.snapshot, p.world);
    PlannedWrites(env, t, user, p, base.pending, plan, |t.events| + 1);
  }

  lemma AdmitIff(env: Env, t: Tables, user: Uuid, p: Prepared, base: WorldView)
    requires Inv(env, t) && WellPrepared(env, p) && InspectWorld(t.session.snapshot) == Ok(base) && user in t.members
    ensures AdmitFresh(env, t, user, p, base).Ok? <==>
            && t.session.status == "active" && t.session.authorityMode == "local"
            && ControlAllowed(t, user, p.request) && RowsAreActors(env, t, base.actors)
            && SuccessionAllowed(env, t.session, base, p) && BindingsAllowed(t, user, p) && DecisionAllowed(t, user, p, base.pending)
  {
    hide Chain, InspectWorld, CheckControl, ControlAllowed, ActorsBound, RowsAreActors, CheckSuccession, SuccessionAllowed, PrepareProjections,
         BindingsAllowed, PlanDecision, DecisionAllowed, PendingLedger, DecisionKeys, ActiveActors, Exact, CT.Text, CheckEnvelope, BindingsOk;
    StoredExact(env, t);
    WellBindings(env, p);
    ExactParts(t.session.snapshot);
    ExactParts(p.snapshot);
    RootIs(t.session.snapshot);
    RootIs(p.snapshot);
    ControlIff(t, user, p.request);
    BoundIff(env, t, base.actors);
    SuccessionIff(env, t.session, base, p);
    if RowsAreActors(env, t, base.actors) { BindingsAllIff(env, t, user, p, base); }
    PlanIff(env, t, user, p, base.pending);
  }

  lemma RootIs(v: Json)
    ensures InspectWorld(v).Ok? ==> v.Obj? && InspectWorld(v).value.root == v.fields
  {
  }

  /**
   * On every session whose history is in order, a new command commits if and
   * only if its caller is an active member who is no observer, the session is
   * active, local and of the same ruleset, the caller controls the source, all
   * actors are intact and in hands, the snapshot succeeds the stored one,
   * every actor keeps who it is and is changed only if declared and by somebody
   * who may, decisions are taken by whom they belong to, and the database
   * accepts the rows.
   */
  lemma FreshIff(env: Env, t: Tables, user: Uuid, now: string, p: Prepared)
    requires Inv(env, t) && WellPrepared(env, p) && p.request.commandId !in t.commands
    ensures Exact(p.body)
    ensures Transition(env, t, user, now, p).Ok? <==> FreshAllowed(env, t, user, now, p)
  {
    hide Chain, VerifyStored, HeadVerified, InspectWorld, AdmitFresh, Commit, WellPrepared, PendingLedger, DecisionKeys, Admitted,
         ControlAllowed, RowsAreActors, SuccessionAllowed, BindingsAllowed, DecisionAllowed, RowsAllowed;
    HeadAccepted(env, t);
    WellExact(env, p);
    var base := InspectWorld(t.session.snapshot).value;
    if user in t.members {
      AdmitIff(env, t, user, p, base);
      AdmittedIsFresh(env, t, user, p, base);
    }
    var admission := Admit(env, t, user, p);
    if admission.Ok? {
      var Fresh(b, updates, plan) := admission.value;
      AdmitMeaning(env, t, user, p, b, updates, plan);
      CommitIff(env, t, user, now, p, b, updates, plan);
    }
  }

  lemma AdmittedIsFresh(env: Env, t: Tables, user: Uuid, p: Prepared, base: WorldView)
    requires user in t.members
    ensures AdmitFresh(env, t, user, p, base).Ok? ==> AdmitFresh(env, t, user, p, base).value.Fresh?
  {
    hide CheckControl, ActorsBound, CheckSuccession, PrepareProjections, PlanDecision;
  }

  /**
   * Whatever is submitted, an actor's projection changes only for a caller who
   * is an active member and has the elevated capability of an owner or master,
   * or controls the actor, or owns it, and only if the actor was declared.
   */
  lemma ChangeNeedsRight(env: Env, t: Tables, a: Action, id: Uuid)
    requires Inv(env, t) && id in t.actors && !a.SetActors?
    ensures id in Step(env, t, a).actors
    ensures Step(env, t, a).actors[id].projection != t.actors[id].projection ==>
              && a.Submit? && a.user in t.members && a.user != NIL_UUID
              && ((t.members[a.user].canControlUnowned && (t.members[a.user].role == Owner || t.members[a.user].role == GameMaster))
                  || t.actors[id].controller == Some(a.user) || t.actors[id].owner == Some(a.user))
              && Prepare(env, a.raw).Ok?
              && (id == Prepare(env, a.raw).value.request.sourceActorId || id in Prepare(env, a.raw).value.request.targetActorIds)
  {
    hide Inv, Step, Prepare;
    ProjectionChangesOnlyIf(env, t, a, id);
  }

  /**
   * Any of the three rights is enough: a declared change of an intact actor in
   * hands, which keeps who it is, is projected.
   */
  lemma RightSuffices(env: Env, t: Tables, user: Uuid, p: Prepared, base: WorldView, b: ActorBinding)
    requires RowsAreActors(env, t, base.actors) && forall k | k in p.world.actors :: Exact(p.world.actors[k])
    requires Plays(t, b.actorId) && InHands(t.actors[b.actorId], t.members, false) && NameOf(t.actors[b.actorId]) == b.worldActorId
    requires b.worldActorId in p.world.actors && IsActor(t.actors[b.actorId], p.world.actors[b.worldActorId], b.worldActorId)
    requires b.actorId == p.request.sourceActorId || b.actorId in p.request.targetActorIds
    requires user != NIL_UUID && user in t.members
    requires (t.members[user].canControlUnowned && (t.members[user].role == Owner || t.members[user].role == GameMaster))
             || t.actors[b.actorId].controller == Some(user) || t.actors[b.actorId].owner == Some(user)
    ensures ProjectActor(Context(env, t, user, p, base), b).Ok?
  {
    hide InHands, IsActor, NameOf, Exact, RowIsActor, ProjectActor;
    BindingIff(env, t, user, p, base, b);
  }

  // ---- Stored decisions that are not in order ----

  /** The open row is intact and is the pending resolution with its identities. */
  lemma OpenRowIff(env: Env, row: DecisionRow, pending: Json)
    requires Exact(pending)
    ensures OpenRowMatches(env, row, pending) <==>
            && Intact(env, row.body, row.canonicalBytes, row.requestHash) && row.canonicalBytes == CT.Text(pending)
            && PendingNames(pending, row.resolutionId, row.requestId, AwaitedActor(pending))
  {
    hide PendingDecision, PendingNames, Intact, Sealed, CT.Text, Exact, AwaitedActor;
    SealedIff(env, row.body, row.canonicalBytes, row.requestHash);
    PendingIff(pending);
    if PendingDecision(pending).Some? { PendingIs(pending); }
  }

  /** A ledger with an open row but no pending resolution, or the other way round, is in conflict; one that does not match it is corrupt. */
  lemma LedgerMismatch(env: Env, existing: Option<DecisionRow>, pending: Json, bindings: seq<ActorBinding>)
    ensures (pending == Null) == existing.Some? ==> CheckExisting(env, existing, pending, bindings) == Reject(Conflict)
    ensures pending != Null && existing.Some? && !OpenRowMatches(env, existing.value, pending) ==>
              CheckExisting(env, existing, pending, bindings) == Reject(Internal)
  {
    hide OpenRowMatches, PendingDecision, BoundWorldActor;
  }

  // ---- Why a submission is refused ----

  /** The first checks of a new command: membership, ruleset, session, control of the source, and the base it was built on. */
  lemma FreshRefusals(env: Env, t: Tables, user: Uuid, now: string, p: Prepared)
    requires Inv(env, t) && WellPrepared(env, p) && p.request.commandId !in t.commands
    ensures Exact(p.body) && InspectWorld(t.session.snapshot).Ok?
    ensures var result := Transition(env, t, user, now, p);
            if user !in t.members || t.members[user].role == Observer then result == Err(Forbidden)
            else if p.request.releaseId != t.session.identity.releaseId || p.request.artifactHash != t.session.identity.artifactHash then
              result == Err(Conflict)
            else if t.session.status != "active" || t.session.authorityMode != "local" then result == Err(Conflict)
            else if !Plays(t, p.request.sourceActorId) || t.actors[p.request.sourceActorId].controller != Some(user) then
              result == Err(Forbidden)
            else
              ControlAllowed(t, user, p.request) ==>
                if !RowsAreActors(env, t, InspectWorld(t.session.snapshot).value.actors) then result == Err(Internal)
                else if p.request.expectedRevision != t.session.revision || p.request.baseSnapshotSeq != t.session.snapshotSeq
                        || p.request.baseStateHash != t.session.stateHash then result == Err(Conflict)
                else true
  {
    hide Chain, VerifyStored, HeadVerified, InspectWorld, Commit, WellPrepared, PendingLedger, DecisionKeys, ControlAllowed, RowsAreActors,
         CheckControl, ActorsBound, PrepareProjections, PlanDecision, ActiveActors, Exact;
    HeadAccepted(env, t);
    WellExact(env, p);
    StoredExact(env, t);
    ExactParts(t.session.snapshot);
    ControlIff(t, user, p.request);
    SourceRefused(t, user, p.request);
    BoundIff(env, t, InspectWorld(t.session.snapshot).value.actors);
  }

  lemma SourceRefused(t: Tables, user: Uuid, r: Request)
    ensures !Plays(t, r.sourceActorId) || t.actors[r.sourceActorId].controller != Some(user) ==> CheckControl(t, user, r) == Reject(Forbidden)
  {
    hide CheckActorMembers, CheckTargets, ActiveActors, Plays;
    ActiveAre(t);
  }

  lemma {:induction false} OnlyFault(c: ProjectionContext, bindings: seq<ActorBinding>, b: ActorBinding, error: Problem)
    requires b in bindings && ProjectActor(c, b) == Err(error)
    requires forall other | other in bindings && other != b :: ProjectActor(c, other).Ok?
    ensures ProjectActors(c, bindings) == Err(error)
  {
    hide ProjectActor;
    if bindings[0] != b {
      OnlyFault(c, bindings[1..], b, error);
    }
  }

  /** The binding is allowed but for a change that the caller did not declare or may not make. */
  predicate ForeignChange(t: Tables, user: Uuid, p: Prepared, b: ActorBinding) {
    && Plays(t, b.actorId)
    && var row := t.actors[b.actorId];
    && InHands(row, t.members, false) && NameOf(row) == b.worldActorId && b.worldActorId in p.world.actors
    && IsActor(row, p.world.actors[b.worldActorId], b.worldActorId)
    && p.world.actors[b.worldActorId] != row.projection && !(Declared(p.request, b.actorId) && MayChange(t, user, b.actorId))
  }

  /** A submission whose only fault is a change of a foreign or undeclared actor is forbidden. */
  lemma ForeignChangeForbidden(env: Env, t: Tables, user: Uuid, now: string, p: Prepared, b: ActorBinding)
    requires Inv(env, t) && WellPrepared(env, p) && p.request.commandId !in t.commands && InspectWorld(t.session.snapshot).Ok?
    requires var base := InspectWorld(t.session.snapshot).value;
             && user in t.members && t.members[user].role != Observer
             && p.request.releaseId == t.session.identity.releaseId && p.request.artifactHash == t.session.identity.artifactHash
             && t.session.status == "active" && t.session.authorityMode == "local"
             && ControlAllowed(t, user, p.request) && RowsAreActors(env, t, base.actors) && SuccessionAllowed(env, t.session, base, p)
    requires |p.request.actorBindings| == |set id | id in t.actors && Plays(t, id)| == |p.world.actors|
    requires b in p.request.actorBindings && ForeignChange(t, user, p, b)
    requires forall other | other in p.request.actorBindings && other != b :: BindingAllowed(t, user, p, other)
    ensures Exact(p.body) && Transition(env, t, user, now, p) == Err(Forbidden)
  {
    hide Chain, VerifyStored, HeadVerified, InspectWorld, Commit, PendingLedger, DecisionKeys, ControlAllowed, RowsAreActors, CheckControl,
         ActorsBound, ProjectActors, ProjectActor, PlanDecision, ActiveActors, Exact, ForeignChange, BindingAllowed, CheckSuccession,
         SuccessionAllowed, CT.Text, CheckEnvelope, Plays;
    var base := InspectWorld(t.session.snapshot).value;
    HeadAccepted(env, t);
    WellExact(env, p);
    StoredExact(env, t);
    ExactParts(t.session.snapshot);
    ExactParts(p.snapshot);
    RootIs(t.session.snapshot);
    RootIs(p.snapshot);
    ControlIff(t, user, p.request);
    BoundIff(env, t, base.actors);
    SuccessionIff(env, t.session, base, p);
    ActiveAre(t);
    var c := Context(env, t, user, p, base);
    forall other | other in p.request.actorBindings && other != b ensures ProjectActor(c, other).Ok? {
      BindingAt(env, t, user, p, base, other);
    }
    ForeignIs(env, t, user, p, base, b);
    OnlyFault(c, p.request.actorBindings, b, Forbidden);
  }

  lemma BindingAt(env: Env, t: Tables, user: Uuid, p: Prepared, base: WorldView, b: ActorBinding)
    requires RowsAreActors(env, t, base.actors) && forall k | k in p.world.actors :: Exact(p.world.actors[k])
    ensures ProjectActor(Context(env, t, user, p, base), b).Ok? <==> BindingAllowed(t, user, p, b)
  {
    hide ProjectActor, BindingAllowed, RowIsActor, NameOf, Exact, Plays;
    PlaysActor(t, b.actorId);
    BindingIff(env, t, user, p, base, b);
  }

  lemma ForeignIs(env: Env, t: Tables, user: Uuid, p: Prepared, base: WorldView, b: ActorBinding)
    requires RowsAreActors(env, t, base.actors) && (forall k | k in p.world.actors :: Exact(p.world.actors[k]))
    requires ForeignChange(t, user, p, b)
    ensures ProjectActor(Context(env, t, user, p, base), b) == Err(Forbidden)
  {
    hide CT.Text, Exact, CheckActorMembers, InHands, CarriesIdentity, ActiveActors, MayMutate, MayChange, Plays;
    ActiveAre(t);
    PlaysActor(t, b.actorId);
    var row, next := t.actors[b.actorId], p.world.actors[b.worldActorId];
    assert RowIsActor(env, row, base.actors, NameOf(row));
    InHandsIff(row, t.members, false);
    KindIff(row, row.projection, b.worldActorId);
    KindIff(row, next, b.worldActorId);
    MutateIff(t, user, b.actorId);
    if CT.Text(next) == CT.Text(row.projection) { CanonicalRoundTrip.TextInjective(next, row.projection); }
  }

  /** A binding that hands an actor to another controller is forbidden. */
  lemma ControllerChangeForbidden(env: Env, t: Tables, user: Uuid, p: Prepared, base: WorldView, b: ActorBinding)
    requires Plays(t, b.actorId) && InHands(t.actors[b.actorId], t.members, false)
    requires RowIsActor(env, t.actors[b.actorId], base.actors, b.worldActorId) && b.worldActorId in p.world.actors
    requires var next := p.world.actors[b.worldActorId];
             next.Obj? && Says(next.fields, "id", Str(b.worldActorId)) && t.actors[b.actorId].controller.Some?
             && !Says(next.fields, "controllerId", Str(t.actors[b.actorId].controller.value))
    ensures ProjectActor(Context(env, t, user, p, base), b) == Err(Forbidden)
  {
    hide CT.Text, Exact, CheckActorMembers, InHands, CarriesIdentity, ActiveActors, MayMutate, Plays;
    ActiveAre(t);
    PlaysActor(t, b.actorId);
    InHandsIff(t.actors[b.actorId], t.members, false);
    KindIff(t.actors[b.actorId], t.actors[b.actorId].projection, b.worldActorId);
  }
}
