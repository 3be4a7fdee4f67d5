/**
 * One transition of a canonical session: what is verified before it, what it
 * checks, and what it writes.
 */
module LedgerRules {
  import opened JsonValues
  import opened Outcomes
  import opened TextRules
  import opened WorldState
  import opened LedgerTables
  import CanonicalJson
  import CT = CanonicalText

  // ---- Verification of the stored session ----

  /** The cell holds exactly the value its bytes and hash were computed from. */
  predicate Sealed(env: Env, cell: Json, bytes: string, hash: string) {
    CanonicalBytes(cell) == Some(bytes) && env.hash(bytes) == hash
  }

  function VerifyStored(env: Env, s: SessionRow): Result<WorldView, Problem> {
    if !Sealed(env, s.snapshot, s.canonicalBytes, s.stateHash) then Err(Internal)
    else
      match InspectWorld(s.snapshot)
      case Err(_) => Err(Internal)
      case Ok(world) =>
        if world.revision != s.revision || s.schemaVersion != WORLD_SCHEMA_VERSION then Err(Internal) else Ok(world)
  }

  function FindSnapshot(rows: seq<SnapshotRow>, seqNo: int): Option<SnapshotRow> {
    if rows == [] then None
    else if rows[|rows| - 1].seqNo == seqNo then Some(rows[|rows| - 1])
    else FindSnapshot(rows[..|rows| - 1], seqNo)
  }

  function FindEvent(rows: seq<EventRow>, eventHash: string): Option<EventRow> {
    if rows == [] then None
    else if rows[|rows| - 1].eventHash == eventHash then Some(rows[|rows| - 1])
    else FindEvent(rows[..|rows| - 1], eventHash)
  }

  /** The event payload describes the session head it leads to. */
  predicate PayloadMatches(payload: Json, snapshotSeq: int, revision: int, e: EventRow, semanticId: string) {
    payload.Obj? &&
    var f := payload.fields;
    && Field(f, "eventSeq") == Num(e.seqNo) && Field(f, "snapshotSeq") == Num(snapshotSeq)
    && Field(f, "revisionAfter") == Num(revision)
    && Field(f, "type") == Str(EVENT_TYPE) && Field(f, "sessionId") == Str(e.identity.sessionId)
    && Field(f, "commandId") == Str(e.commandId) && Field(f, "semanticCommandId") == Str(semanticId)
    && Field(f, "rulesetReleaseId") == Str(e.identity.releaseId)
    && Field(f, "rulesArtifactHash") == Str(e.identity.artifactHash)
    && Field(f, "serializerVersion") == Str(e.identity.serializer)
    && Field(f, "stateHashBefore") == Str(e.stateHashBefore) && Field(f, "stateHashAfter") == Str(e.stateHashAfter)
    && Field(f, "semanticAuthority") == Str(AUTHORITY) && Field(f, "schemaValidation") == Str(SCHEMA_VALIDATION)
  }

  predicate HeadSnapshotMatches(env: Env, s: SessionRow, h: SnapshotRow) {
    && Sealed(env, h.snapshot, h.canonicalBytes, h.stateHash)
    && h.canonicalBytes == s.canonicalBytes && h.stateHash == s.stateHash && h.revision == s.revision
    && h.schemaVersion == s.schemaVersion && h.identity == s.identity
  }

  predicate HeadEventMatches(env: Env, t: Tables, e: EventRow) {
    var s := t.session;
    && e.commandId in t.commands
    && Sealed(env, e.payload, e.canonicalBytes, e.eventHash)
    && e.stateHashAfter == s.stateHash && e.seqNo == s.snapshotSeq && e.identity == s.identity
    && FindSnapshot(t.snapshots, s.snapshotSeq - 1).Some?
    && FindSnapshot(t.snapshots, s.snapshotSeq - 1).value.stateHash == e.stateHashBefore
    && PayloadMatches(e.payload, s.snapshotSeq, s.revision, e, t.commands[e.commandId].semanticId)
  }

  /** The newest snapshot and event agree with the session row. */
  predicate HeadVerified(env: Env, t: Tables) {
    var head := FindSnapshot(t.snapshots, t.session.snapshotSeq);
    && head.Some?
    && HeadSnapshotMatches(env, t.session, head.value)
    && if t.session.snapshotSeq == 0 then head.value.lastEventHash.None?
       else
         && head.value.lastEventHash.Some?
         && var event := FindEvent(t.events, head.value.lastEventHash.value);
            event.Some? && HeadEventMatches(env, t, event.value)
  }

  // ---- Actors ----

  function ActiveActors(t: Tables): map<Uuid, ActorRow> {
    map id | id in t.actors && t.actors[id].active && t.actors[id].kind != KIND_WORLD_OBJECT :: t.actors[id]
  }

  function WorldKind(kind: string): Option<string> {
    if kind == KIND_PLAYER then Some("playerCharacter")
    else if kind == "summoned_actor" then Some("summonedActor")
    else if kind == "npc" || kind == "external_actor" then Some("monster")
    else None
  }

  /** A projection object carries the identity, controller and kind of its row. */
  predicate CarriesIdentity(row: ActorRow, projection: Json, worldActorId: string) {
    && projection.Obj?
    && Field(projection.fields, "id") == Str(worldActorId)
    && row.controller.Some? && Field(projection.fields, "controllerId") == Str(row.controller.value)
    && WorldKind(row.kind).Some? && Field(projection.fields, "kind") == Str(WorldKind(row.kind).value)
  }

  function WorldIdOf(row: ActorRow): string {
    if row.projection.Obj? then TextAt(row.projection.fields, "id") else ""
  }

  /** The stored row and the world agree on one actor. */
  predicate ActorBound(env: Env, row: ActorRow, world: map<string, Json>) {
    && Exact(row.projection) && env.hash(CT.Text(row.projection)) == row.stateHash
    && CarriesIdentity(row, row.projection, WorldIdOf(row)) && !Blank(WorldIdOf(row))
    && WorldIdOf(row) in world && CanonicalBytes(world[WorldIdOf(row)]) == CanonicalBytes(row.projection)
  }

  /** Rows and world actors correspond one to one with equal canonical bytes. */
  predicate ActorsBound(env: Env, actors: map<Uuid, ActorRow>, world: map<string, Json>) {
    && (forall id | id in actors :: ActorBound(env, actors[id], world))
    && (forall a, b | a in actors && b in actors && a != b :: WorldIdOf(actors[a]) != WorldIdOf(actors[b]))
    && |actors| == |world|
  }

  /** The controller, and the owner where there is one, are active members. */
  function CheckActorMembers(row: ActorRow, members: map<Uuid, Member>, requireOwner: bool): Check<Problem> {
    if row.controller.None? then Reject(Unprocessable)
    else if row.controller.value !in members then Reject(Forbidden)
    else if members[row.controller.value].role == Observer then Reject(Forbidden)
    else if row.owner.Some? then (if row.owner.value in members then Pass else Reject(Forbidden))
    else if requireOwner && (row.characterId.Some? || row.kind == KIND_PLAYER) then Reject(Unprocessable)
    else Pass
  }

  predicate MayMutate(member: Member, user: Uuid, row: ActorRow) {
    user != NIL_UUID &&
    ((member.canControlUnowned && (member.role == Owner || member.role == GameMaster)) ||
     row.controller == Some(user) || row.owner == Some(user))
  }

  function CheckTargets(targets: seq<Uuid>, actors: map<Uuid, ActorRow>, members: map<Uuid, Member>): Check<Problem> {
    if targets == [] then Pass
    else if targets[0] !in actors then Reject(Unprocessable)
    else
      match CheckActorMembers(actors[targets[0]], members, true)
      case Reject(e) => Reject(e)
      case Pass => CheckTargets(targets[1..], actors, members)
  }

  function CheckControl(t: Tables, user: Uuid, r: Request): Check<Problem> {
    var actors := ActiveActors(t);
    if r.sourceActorId !in actors || actors[r.sourceActorId].controller != Some(user) then Reject(Forbidden)
    else
      match CheckActorMembers(actors[r.sourceActorId], t.members, true)
      case Reject(e) => Reject(e)
      case Pass => CheckTargets(r.targetActorIds, actors, t.members)
  }

  // ---- Receipts ----

  predicate ReceiptMatches(s: SessionRow, r: Request, response: Response) {
    && response.identity == Identity(s.identity.sessionId, r.releaseId, r.artifactHash, r.serializer)
    && response.commandId == r.commandId && response.semanticCommandId == r.semanticCommandId
    && response.stateHash == r.stateHash
    && response.authority == AUTHORITY && response.schemaValidation == SCHEMA_VALIDATION
  }

  /** The stored response of a command that was already committed, if it was. */
  function LoadReceipt(env: Env, t: Tables, user: Uuid, p: Prepared): Result<Option<Response>, Problem> {
    if p.request.commandId !in t.commands then Ok(None)
    else
      var c := t.commands[p.request.commandId];
      if c.controller != user || c.requestHash != p.requestHash then Err(Conflict)
      else if c.status != Committed then Err(Conflict)
      else if !Sealed(env, c.result, c.resultBytes, c.resultHash) then Err(Internal)
      else
        match ReadResponse(c.result)
        case None => Err(Internal)
        case Some(response) =>
          if ReceiptMatches(t.session, p.request, response) then Ok(Some(response)) else Err(Internal)
  }

  // ---- The new world against the old one ----

  predicate AppendsCommand(oldIds: seq<string>, newIds: seq<string>, semanticId: string) {
    newIds == oldIds + [semanticId]
  }

  /** Compares the histories element by element. */
  method VerifyProcessedAppend(oldIds: seq<string>, newIds: seq<string>, semanticId: string) returns (ok: bool)
    ensures ok == AppendsCommand(oldIds, newIds, semanticId)
  {
    if |newIds| != |oldIds| + 1 {
      return false;
    }
    var index := 0;
    while index < |oldIds|
      invariant 0 <= index <= |oldIds|
      invariant forall i | 0 <= i < index :: newIds[i] == oldIds[i]
    {
      if newIds[index] != oldIds[index] {
        assert (oldIds + [semanticId])[index] == oldIds[index];
        return false;
      }
      index := index + 1;
    }
    assert newIds[..|oldIds|] == oldIds;
    assert newIds == oldIds + [newIds[|newIds| - 1]];
    assert (oldIds + [semanticId])[|oldIds|] == semanticId;
    return newIds[|newIds| - 1] == semanticId;
  }

  function CheckSuccession(env: Env, s: SessionRow, base: WorldView, p: Prepared): Check<Problem> {
    var r := p.request;
    if r.expectedRevision != s.revision || r.baseSnapshotSeq != s.snapshotSeq || r.baseStateHash != s.stateHash then
      Reject(Conflict)
    else if r.serializer != s.identity.serializer then Reject(Conflict)
    else if r.schemaVersion != s.schemaVersion then Reject(Conflict)
    else if p.world.revision != s.revision + 1 then Reject(Unprocessable)
    else if p.world.logicalClock < base.logicalClock then Reject(Unprocessable)
    else if p.world.worldId != base.worldId || p.world.mode != s.mode || base.mode != s.mode then Reject(Unprocessable)
    else if CanonicalBytes(Field(base.root, "ruleset")) != CanonicalBytes(Field(p.world.root, "ruleset")) then
      Reject(Unprocessable)
    else if !AppendsCommand(base.processed, p.world.processed, r.semanticCommandId) then Reject(Unprocessable)
    else if env.hash(p.snapshotBytes) != r.stateHash then Reject(Unprocessable)
    else Pass
  }

  // ---- Actor projections ----

  datatype Projection = Projection(actorId: Uuid, bytes: string, stateHash: string)

  /** What the projection checks read besides the binding itself. */
  datatype ProjectionContext = ProjectionContext(
    env: Env, request: Request, oldActors: map<string, Json>, newActors: map<string, Json>,
    rows: map<Uuid, ActorRow>, members: map<Uuid, Member>, user: Uuid)

  function ProjectActor(c: ProjectionContext, b: ActorBinding): Result<Projection, Problem> {
    if b.actorId !in c.rows then Err(Unprocessable)
    else
      var row := c.rows[b.actorId];
      match CheckActorMembers(row, c.members, false)
      case Reject(e) => Err(e)
      case Pass =>
        if !Exact(row.projection) || c.env.hash(CT.Text(row.projection)) != row.stateHash then Err(Internal)
        else if !row.projection.Obj? || Field(row.projection.fields, "id") != Str(b.worldActorId) then Err(Unprocessable)
        else if !CarriesIdentity(row, row.projection, b.worldActorId) then Err(Internal)
        else if b.worldActorId !in c.oldActors || b.worldActorId !in c.newActors then Err(Unprocessable)
        else
          var next := c.newActors[b.worldActorId];
          if !next.Obj? || Field(next.fields, "id") != Str(b.worldActorId) then Err(Unprocessable)
          else if Field(next.fields, "controllerId") != Str(row.controller.value) then Err(Forbidden)
          else if !CarriesIdentity(row, next, b.worldActorId) then Err(Unprocessable)
          else if CanonicalBytes(c.oldActors[b.worldActorId]) != Some(CT.Text(row.projection)) then Err(Internal)
          else if !Exact(next) then Err(Unprocessable)
          else
            var changed := CT.Text(next) != CT.Text(row.projection);
            if changed && b.actorId != c.request.sourceActorId && b.actorId !in c.request.targetActorIds then Err(Forbidden)
            else if changed && (c.user !in c.members || !MayMutate(c.members[c.user], c.user, row)) then Err(Forbidden)
            else Ok(Projection(b.actorId, CT.Text(next), c.env.hash(CT.Text(next))))
  }

  function ProjectActors(c: ProjectionContext, bindings: seq<ActorBinding>): Result<seq<Projection>, Problem> {
    if bindings == [] then Ok([])
    else
      var first :- ProjectActor(c, bindings[0]);
      var rest :- ProjectActors(c, bindings[1..]);
      Ok([first] + rest)
  }

  function PrepareProjections(c: ProjectionContext): Result<seq<Projection>, Problem> {
    if |c.request.actorBindings| != |c.rows| || |c.newActors| != |c.rows| then Err(Unprocessable)
    else ProjectActors(c, c.request.actorBindings)
  }

  /** Checks and projects the bindings one by one. */
  method PrepareActorProjections(c: ProjectionContext) returns (r: Result<seq<Projection>, Problem>)
    ensures r == PrepareProjections(c)
  {
    hide ProjectActor;
    var bindings := c.request.actorBindings;
    if |bindings| != |c.rows| || |c.newActors| != |c.rows| {
      return Err(Unprocessable);
    }
    var updates: seq<Projection> := [];
    var index := 0;
    assert bindings[0..] == bindings;
    assert forall rest: seq<Projection> :: [] + rest == rest;
    while index < |bindings|
      invariant 0 <= index <= |bindings|
      invariant ProjectActors(c, bindings) ==
                match ProjectActors(c, bindings[index..])
                case Ok(rest) => Ok(updates + rest)
                case Err(e) => Err(e)
    {
      assert bindings[index..][1..] == bindings[index + 1..];
      var projection := ProjectActor(c, bindings[index]);
      if projection.Err? {
        return Err(projection.error);
      }
      assert forall rest: seq<Projection> :: updates + ([projection.value] + rest) == updates + [projection.value] + rest;
      updates := updates + [projection.value];
      index := index + 1;
    }
    assert updates + [] == updates;
    return Ok(updates);
  }

  // ---- Decisions ----

  datatype PendingIdentity = PendingIdentity(resolutionId: string, requestId: string, actorId: string)

  function PendingDecision(pending: Json): Option<PendingIdentity> {
    if !pending.Obj? then None
    else
      var id := Field(pending.fields, "id");
      var request := Field(pending.fields, "request");
      if !id.Str? || !StableId(id.text) || !request.Obj? then None
      else
        var requestId := Field(request.fields, "id");
        var actorId := Field(request.fields, "actorId");
        if !requestId.Str? || !StableId(requestId.text) then None
        else if !actorId.Str? || actorId.text == "" || !Trimmed(actorId.text)
                || Utf8Length(actorId.text) > MAX_WORLD_ACTOR_ID_BYTES then None
        else Some(PendingIdentity(id.text, requestId.text, actorId.text))
  }

  function BoundWorldActor(bindings: seq<ActorBinding>, actorId: Uuid): Option<string> {
    if bindings == [] then None
    else if bindings[0].actorId == actorId then Some(bindings[0].worldActorId)
    else BoundWorldActor(bindings[1..], actorId)
  }

  function OpenRows(rows: seq<DecisionRow>): (open: seq<DecisionRow>)
    ensures forall d | d in open :: d in rows && d.status.Open?
  {
    if rows == [] then []
    else (if rows[0].status.Open? then [rows[0]] else []) + OpenRows(rows[1..])
  }

  /** The identity of an open row is that of the pending resolution it was opened for. */
  predicate OpenRowMatches(env: Env, row: DecisionRow, pending: Json) {
    && Sealed(env, row.body, row.canonicalBytes, row.requestHash)
    && CanonicalBytes(pending) == Some(row.canonicalBytes)
    && PendingDecision(pending).Some?
    && PendingDecision(pending).value.resolutionId == row.resolutionId
    && PendingDecision(pending).value.requestId == row.requestId
  }

  datatype NewDecision = NewDecision(metadata: DecisionMetadata, controller: Uuid)

  datatype DecisionPlan = DecisionPlan(resolve: Option<DecisionRow>, open: Option<NewDecision>)

  /** The single open row, if exactly one row is open. */
  function ExistingOpen(rows: seq<DecisionRow>): Option<DecisionRow> {
    var open := OpenRows(rows);
    if |open| == 1 then Some(open[0]) else None
  }

  function CheckExisting(env: Env, existing: Option<DecisionRow>, pending: Json,
        bindings: seq<ActorBinding>): Check<Problem> {
    if pending.Null? then (if existing.Some? then Reject(Conflict) else Pass)
    else if existing.None? then Reject(Conflict)
    else if !OpenRowMatches(env, existing.value, pending) then Reject(Internal)
    else if BoundWorldActor(bindings, existing.value.decidingActorId) != Some(PendingDecision(pending).value.actorId) then
      Reject(Internal)
    else Pass
  }

  function PlanOpening(t: Tables, r: Request, existing: Option<DecisionRow>, pending: Json): Result<NewDecision,
        Problem> {
    if r.decision.None? then Err(Unprocessable)
    else
      var d := r.decision.value;
      var actors := ActiveActors(t);
      if d.decidingActorId !in actors then Err(Unprocessable)
      else if d.decidingActorId != r.sourceActorId && d.decidingActorId !in r.targetActorIds then Err(Forbidden)
      else if actors[d.decidingActorId].controller.None? then Err(Unprocessable)
      else
        var controller := actors[d.decidingActorId].controller.value;
        var identity := PendingDecision(pending);
        if controller !in t.members then Err(Forbidden)
        else if identity.None? || identity.value.resolutionId != d.resolutionId || identity.value.requestId != d.requestId then
          Err(Unprocessable)
        else if BoundWorldActor(r.actorBindings, d.decidingActorId) != Some(identity.value.actorId) then Err(Unprocessable)
        else if existing.Some? && (existing.value.requestId == d.requestId || existing.value.resolutionId == d.resolutionId) then
          Err(Conflict)
        else if exists row | row in t.decisions :: row.requestId == d.requestId || row.resolutionId == d.resolutionId then
          Err(Conflict)
        else Ok(NewDecision(d, controller))
  }

  function PlanDecision(env: Env, t: Tables, user: Uuid, p: Prepared, oldPending: Json): Result<DecisionPlan, Problem>
    requires user in t.members
  {
    var r := p.request;
    var existing := ExistingOpen(t.decisions);
    var newPending := p.world.pending;
    match CheckExisting(env, existing, oldPending, r.actorBindings)
    case Reject(e) => Err(e)
    case Pass =>
      if CanonicalBytes(oldPending) == CanonicalBytes(newPending) then
        (if r.decision.Some? then Err(Unprocessable) else Ok(DecisionPlan(None, None)))
      else if !oldPending.Null? && existing.value.assignedController != user && !t.members[user].canControlUnowned then
        Err(Forbidden)
      else if !oldPending.Null? && r.sourceActorId != existing.value.decidingActorId && !t.members[user].canControlUnowned then
        Err(Forbidden)
      else
        var resolve := if oldPending.Null? then None else existing;
        if newPending.Null? then
          (if r.decision.Some? then Err(Unprocessable) else Ok(DecisionPlan(resolve, None)))
        else
          var opening :- PlanOpening(t, r, existing, newPending);
          Ok(DecisionPlan(resolve, Some(opening)))
  }

  // ---- Admission: everything read before the first write ----

  datatype Admission =
    | Replay(response: Response)
    | Fresh(base: WorldView, projections: seq<Projection>, plan: DecisionPlan)

  function Context(env: Env, t: Tables, user: Uuid, p: Prepared, base: WorldView): ProjectionContext {
    ProjectionContext(env, p.request, base.actors, p.world.actors, ActiveActors(t), t.members, user)
  }

  function AdmitFresh(env: Env, t: Tables, user: Uuid, p: Prepared, base: WorldView): Result<Admission, Problem>
    requires user in t.members
  {
    if t.session.status != STATUS_ACTIVE || t.session.authorityMode != AUTHORITY_LOCAL then Err(Conflict)
    else if CheckControl(t, user, p.request).Reject? then Err(CheckControl(t, user, p.request).error)
    else if !ActorsBound(env, ActiveActors(t), base.actors) then Err(Internal)
    else if CheckSuccession(env, t.session, base, p).Reject? then Err(CheckSuccession(env, t.session, base, p).error)
    else
      var projections :- PrepareProjections(Context(env, t, user, p, base));
      var plan :- PlanDecision(env, t, user, p, base.pending);
      Ok(Fresh(base, projections, plan))
  }

  function Admit(env: Env, t: Tables, user: Uuid, p: Prepared): Result<Admission, Problem> {
    if user !in t.members || t.members[user].role == Observer then Err(Forbidden)
    else
      var base :- VerifyStored(env, t.session);
      if !HeadVerified(env, t) then Err(Internal)
      else if p.request.releaseId != t.session.identity.releaseId || p.request.artifactHash != t.session.identity.artifactHash then
        Err(Conflict)
      else
        var receipt :- LoadReceipt(env, t, user, p);
        match receipt
        case Some(response) => Ok(Replay(response))
        case None => AdmitFresh(env, t, user, p, base)
  }

  // ---- Writes ----

  /** The value a JSON column holds after a text is written to it. */
  function StoredJson(text: string): Json {
    match CanonicalJson.Decode(text) case Ok(v) => v case Err(_) => Null
  }

  function MaxSeq(events: seq<EventRow>): int {
    if events == [] then 0
    else
      var rest := MaxSeq(events[..|events| - 1]);
      if events[|events| - 1].seqNo > rest then events[|events| - 1].seqNo else rest
  }

  function TextItems(texts: seq<string>): (items: seq<Json>)
    ensures |items| == |texts| && forall i | 0 <= i < |items| :: items[i] == Str(texts[i])
  {
    seq(|texts|, i requires 0 <= i < |texts| => Str(texts[i]))
  }

  function EventBody(s: SessionRow, p: Prepared, eventSeq: int, now: string): Json {
    var r := p.request;
    Obj(map[
      "type" := Str(EVENT_TYPE), "sessionId" := Str(s.identity.sessionId), "commandId" := Str(r.commandId),
      "semanticCommandId" := Str(r.semanticCommandId), "rulesetReleaseId" := Str(s.identity.releaseId),
      "rulesArtifactHash" := Str(s.identity.artifactHash), "serializerVersion" := Str(s.identity.serializer),
      "eventSeq" := Num(eventSeq), "snapshotSeq" := Num(s.snapshotSeq + 1),
      "revisionBefore" := Num(s.revision), "revisionAfter" := Num(p.world.revision),
      "sourceActorId" := Str(r.sourceActorId), "targetActorIds" := Arr(TextItems(r.targetActorIds)),
      "stateHashBefore" := Str(s.stateHash), "stateHashAfter" := Str(r.stateHash),
      "metadata" := p.metadata, "semanticAuthority" := Str(AUTHORITY),
      "schemaValidation" := Str(SCHEMA_VALIDATION), "occurredAt" := Str(now)])
  }

  /** Writes each projection into its actor row. */
  function UpdateActors(actors: map<Uuid, ActorRow>, updates: seq<Projection>, schemaVersion: int,
        seqNo: int): (r: map<Uuid, ActorRow>)
    decreases |updates|
  {
    if updates == [] then actors
    else
      var u := updates[0];
      var next :=
        if u.actorId in actors then
          actors[u.actorId := actors[u.actorId].(
            projection := StoredJson(u.bytes), stateHash := u.stateHash,
            schemaVersion := schemaVersion, projectionSeq := seqNo)]
        else actors;
      UpdateActors(next, updates[1..], schemaVersion, seqNo)
  }

  function ResolveRows(rows: seq<DecisionRow>, requestId: string, commandId: Uuid): (r: seq<DecisionRow>)
    ensures |r| == |rows|
    ensures forall i | 0 <= i < |rows| ::
              r[i] == if rows[i].requestId == requestId && rows[i].status.Open?
                      then rows[i].(status := Resolved(commandId)) else rows[i]
  {
    seq(|rows|, i requires 0 <= i < |rows| =>
      if rows[i].requestId == requestId && rows[i].status.Open?
      then rows[i].(status := Resolved(commandId)) else rows[i])
  }

  function OpenedRow(env: Env, p: Prepared, d: NewDecision, eventSeq: int): DecisionRow {
    var bytes := if Exact(p.world.pending) then CT.Text(p.world.pending) else "";
    DecisionRow(d.metadata.requestId, d.metadata.resolutionId, p.request.commandId,
                d.metadata.decidingActorId, d.controller, Open, eventSeq, p.world.revision,
                StoredJson(bytes), bytes, env.hash(bytes))
  }

  /** Closes and opens decision rows; the unique indexes reject repeated identities and a second open row. */
  function ApplyDecision(env: Env, rows: seq<DecisionRow>, p: Prepared, plan: DecisionPlan,
        eventSeq: int): Result<(seq<DecisionRow>, Option<DecisionResult>), Problem> {
    var closed := if plan.resolve.Some? then ResolveRows(rows, plan.resolve.value.requestId, p.request.commandId) else rows;
    if plan.open.Some? then
      var d := plan.open.value.metadata;
      if exists row | row in closed :: row.requestId == d.requestId || row.resolutionId == d.resolutionId || row.status.Open? then
        Err(Conflict)
      else
        Ok((closed + [OpenedRow(env, p, plan.open.value, eventSeq)], Some(DecisionResult(d.requestId, true))))
    else if plan.resolve.Some? then Ok((closed, Some(DecisionResult(plan.resolve.value.requestId, false))))
    else if !p.world.pending.Null? then
      var existing := ExistingOpen(rows);
      Ok((closed, Some(DecisionResult(if existing.Some? then existing.value.requestId else "", true))))
    else Ok((closed, None))
  }

  function ProjectionHashes(updates: seq<Projection>): map<string, string> {
    if updates == [] then map[]
    else ProjectionHashes(updates[..|updates| - 1])[updates[|updates| - 1].actorId := updates[|updates| - 1].stateHash]
  }

  function CommittedResponse(s: SessionRow, p: Prepared, eventSeq: int, eventHash: string, updates: seq<Projection>,
        decision: Option<DecisionResult>): Response {
    Response(s.identity, p.request.commandId, p.request.semanticCommandId,
             p.world.revision, s.snapshotSeq + 1, p.request.stateHash, eventSeq, eventHash,
             ProjectionHashes(updates), decision, AUTHORITY, SCHEMA_VALIDATION, true)
  }

  function CommittedCommand(env: Env, user: Uuid, p: Prepared, response: Response): CommandRow
    requires Exact(p.body)
  {
    var result := ResponseJson(response);
    var bytes := if Exact(result) then CT.Text(result) else "";
    CommandRow(p.request.semanticCommandId, user, CT.Text(p.body), p.requestHash,
               Committed, StoredJson(bytes), bytes, env.hash(bytes))
  }

  function NewEvent(env: Env, s: SessionRow, p: Prepared, eventSeq: int, bytes: string): EventRow {
    EventRow(eventSeq, p.request.commandId, s.identity, p.request.sourceActorId,
             StoredJson(bytes), bytes, env.hash(bytes), s.stateHash, p.request.stateHash)
  }

  function NewSnapshot(s: SessionRow, p: Prepared, eventHash: string): SnapshotRow {
    SnapshotRow(s.snapshotSeq + 1, p.world.revision, s.identity, p.request.schemaVersion,
                StoredJson(p.snapshotBytes), p.snapshotBytes, p.request.stateHash, Some(eventHash))
  }

  function NewHead(s: SessionRow, p: Prepared): SessionRow {
    s.(snapshot := StoredJson(p.snapshotBytes), canonicalBytes := p.snapshotBytes,
       schemaVersion := p.request.schemaVersion, snapshotSeq := s.snapshotSeq + 1,
       revision := p.world.revision, stateHash := p.request.stateHash)
  }

  /** All writes of one transition; a rejected write rolls every write back. */
  function Commit(env: Env, t: Tables, user: Uuid, now: string, p: Prepared, updates: seq<Projection>,
        plan: DecisionPlan): Result<(Tables, Response), Problem>
    requires Exact(p.body)
  {
    var s := t.session;
    var eventSeq := MaxSeq(t.events) + 1;
    var body := EventBody(s, p, eventSeq, now);
    if !Exact(body) then Err(Internal)
    else
      var event := NewEvent(env, s, p, eventSeq, CT.Text(body));
      if exists id | id in t.commands :: t.commands[id].semanticId == p.request.semanticCommandId then Err(Conflict)
      else if exists e | e in t.events :: e.seqNo == eventSeq || e.eventHash == event.eventHash then Err(Conflict)
      else
        var decided :- ApplyDecision(env, t.decisions, p, plan, eventSeq);
        if !env.schemaAccepts(p.snapshot) then Err(Unprocessable)
        else if exists h | h in t.snapshots :: h.seqNo == s.snapshotSeq + 1 then Err(Conflict)
        else
          var response := CommittedResponse(s, p, eventSeq, event.eventHash, updates, decided.1);
          Ok((Tables(
                NewHead(s, p), t.members,
                UpdateActors(t.actors, updates, p.request.schemaVersion, s.snapshotSeq + 1),
                t.commands[p.request.commandId := CommittedCommand(env, user, p, response)],
                t.events + [event], t.snapshots + [NewSnapshot(s, p, event.eventHash)], decided.0),
              response))
  }

  /** The whole transition on prepared input. */
  function Transition(env: Env, t: Tables, user: Uuid, now: string, p: Prepared): Result<(Tables, Response), Problem>
    requires Exact(p.body)
  {
    var admission :- Admit(env, t, user, p);
    match admission
    case Replay(response) => Ok((t, response))
    case Fresh(_, updates, plan) => Commit(env, t, user, now, p, updates, plan)
  }

  /** The whole transition on a request body. */
  function Apply(env: Env, t: Tables, user: Uuid, now: string, raw: string): Result<(Tables, Response), Problem> {
    var p :- Prepare(env, raw);
    Transition(env, t, user, now, p)
  }
}
