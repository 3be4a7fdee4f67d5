/** The rows of one canonical session and the requests that change them. */
module LedgerTables {
  import opened JsonValues
  import opened Outcomes
  import opened TextRules
  import opened WorldState
  import CanonicalJson
  import CT = CanonicalText

  // ---- Constants of the transport ----

  const MAX_BODY_BYTES := 262144
  const MAX_TARGETS := 32
  const MAX_BINDINGS := 128
  const MAX_WORLD_ACTOR_ID_BYTES := 255
  const MAX_SERIALIZER_BYTES := 100
  const WORLD_SCHEMA_VERSION := 5
  const DECISION_SCHEMA_VERSION := 1
  const EVENT_TYPE := "canonical_snapshot_transport_committed"
  const AUTHORITY := "client_semantics_unverified"
  const SCHEMA_VALIDATION := "partial_unverified"
  const STATUS_ACTIVE := "active"
  const AUTHORITY_LOCAL := "local"
  const KIND_WORLD_OBJECT := "world_object"
  const KIND_PLAYER := "player_character"

  // ---- Requests ----

  datatype ActorBinding = ActorBinding(actorId: Uuid, worldActorId: string)

  datatype DecisionMetadata = DecisionMetadata(
    requestId: string, resolutionId: string, decidingActorId: Uuid, requestSchemaVersion: int)

  datatype Request = Request(
    commandId: Uuid, semanticCommandId: string, releaseId: Uuid, artifactHash: string,
    sourceActorId: Uuid, targetActorIds: seq<Uuid>,
    expectedRevision: int, baseSnapshotSeq: int, baseStateHash: string,
    schemaVersion: int, serializer: string, stateHash: string, snapshot: Option<Json>,
    actorBindings: seq<ActorBinding>, eventMetadata: Option<Json>,
    decision: Option<DecisionMetadata>)

  /**
   * What the session store does not define itself: the hash, the reading of a
   * request out of its JSON body, and the database's own check of a snapshot.
   */
  datatype Env = Env(
    hash: string -> string,
    shape: Json -> Option<Request>,
    schemaAccepts: Json -> bool)

  datatype Prepared = Prepared(
    request: Request, body: Json, requestHash: string,
    snapshot: Json, snapshotBytes: string, metadata: Json, world: WorldView)

  // ---- Rows ----

  /** The release and serializer a session is bound to for its whole life. */
  datatype Identity = Identity(sessionId: Uuid, releaseId: Uuid, artifactHash: string, serializer: string)

  datatype SessionRow = SessionRow(
    identity: Identity, mode: string, authorityMode: string, status: string,
    snapshot: Json, canonicalBytes: string, schemaVersion: int,
    snapshotSeq: int, revision: int, stateHash: string)

  datatype SnapshotRow = SnapshotRow(
    seqNo: int, revision: int, identity: Identity, schemaVersion: int,
    snapshot: Json, canonicalBytes: string, stateHash: string, lastEventHash: Option<string>)

  datatype EventRow = EventRow(
    seqNo: int, commandId: Uuid, identity: Identity, sourceActorId: Uuid,
    payload: Json, canonicalBytes: string, eventHash: string,
    stateHashBefore: string, stateHashAfter: string)

  datatype CommandStatus = Executing | Committed

  datatype CommandRow = CommandRow(
    semanticId: string, controller: Uuid, bodyBytes: string, requestHash: string,
    status: CommandStatus, result: Json, resultBytes: string, resultHash: string)

  datatype DecisionStatus = Open | Resolved(commandId: Uuid)

  datatype DecisionRow = DecisionRow(
    requestId: string, resolutionId: string, sourceCommandId: Uuid,
    decidingActorId: Uuid, assignedController: Uuid, status: DecisionStatus,
    openedSeq: int, expectedRevision: int,
    body: Json, canonicalBytes: string, requestHash: string)

  datatype ActorRow = ActorRow(
    characterId: Option<Uuid>, owner: Option<Uuid>, controller: Option<Uuid>,
    kind: string, active: bool,
    projection: Json, stateHash: string, schemaVersion: int, projectionSeq: int)

  datatype Role = Owner | GameMaster | Player | Observer

  datatype MemberRow = MemberRow(role: Role, canControlUnowned: bool)

  /** The database admits the elevated capability only for owners and game masters. */
  type Member = m: MemberRow | m.canControlUnowned ==> m.role == Owner || m.role == GameMaster
    witness MemberRow(Player, false)

  /** All rows of one session; `members` holds the active ones. */
  datatype Tables = Tables(
    session: SessionRow,
    members: map<Uuid, Member>,
    actors: map<Uuid, ActorRow>,
    commands: map<Uuid, CommandRow>,
    events: seq<EventRow>,
    snapshots: seq<SnapshotRow>,
    decisions: seq<DecisionRow>)

  // ---- Responses ----

  datatype DecisionResult = DecisionResult(requestId: string, open: bool)

  datatype Response = Response(
    identity: Identity, commandId: Uuid, semanticCommandId: string,
    revision: int, snapshotSeq: int, stateHash: string, eventSeq: int, eventHash: string,
    projectionHashes: map<string, string>, decision: Option<DecisionResult>,
    authority: string, schemaValidation: string, idempotent: bool)

  function TextMapJson(m: map<string, string>): Json {
    Obj(map k | k in m :: Str(m[k]))
  }

  function DecisionJson(d: DecisionResult): Json {
    Obj(map["requestId" := Str(d.requestId), "status" := Str(if d.open then "open" else "resolved")])
  }

  function ResponseJson(r: Response): Json {
    var fields := map[
      "sessionId" := Str(r.identity.sessionId), "commandId" := Str(r.commandId),
      "semanticCommandId" := Str(r.semanticCommandId), "rulesetReleaseId" := Str(r.identity.releaseId),
      "rulesArtifactHash" := Str(r.identity.artifactHash), "serializerVersion" := Str(r.identity.serializer),
      "revision" := Num(r.revision), "snapshotSeq" := Num(r.snapshotSeq), "stateHash" := Str(r.stateHash),
      "eventSeq" := Num(r.eventSeq), "eventHash" := Str(r.eventHash),
      "actorProjectionHashes" := TextMapJson(r.projectionHashes),
      "semanticAuthority" := Str(r.authority), "schemaValidation" := Str(r.schemaValidation),
      "idempotent" := Bool(r.idempotent)];
    Obj(if r.decision.Some? then fields["decision" := DecisionJson(r.decision.value)] else fields)
  }

  function TextAt(fields: map<string, Json>, key: string): string {
    match Field(fields, key) case Str(s) => s case _ => ""
  }

  function IntAt(fields: map<string, Json>, key: string): int {
    match Field(fields, key) case Num(n) => n case _ => 0
  }

  function ReadTextMap(v: Json): map<string, string> {
    if v.Obj? then map k | k in v.fields && v.fields[k].Str? :: v.fields[k].text else map[]
  }

  function ReadDecision(v: Json): Option<DecisionResult> {
    if v.Obj? then Some(DecisionResult(TextAt(v.fields, "requestId"), TextAt(v.fields, "status") == "open"))
    else None
  }

  /** Reads a response back from its JSON form; absent fields keep their zero values. */
  function ReadResponse(v: Json): Option<Response> {
    if !v.Obj? then None
    else
      var f := v.fields;
      Some(Response(
        Identity(TextAt(f, "sessionId"), TextAt(f, "rulesetReleaseId"), TextAt(f, "rulesArtifactHash"),
                 TextAt(f, "serializerVersion")),
        TextAt(f, "commandId"), TextAt(f, "semanticCommandId"),
        IntAt(f, "revision"), IntAt(f, "snapshotSeq"), TextAt(f, "stateHash"),
        IntAt(f, "eventSeq"), TextAt(f, "eventHash"), ReadTextMap(Field(f, "actorProjectionHashes")),
        ReadDecision(Field(f, "decision")), TextAt(f, "semanticAuthority"), TextAt(f, "schemaValidation"),
        Field(f, "idempotent") == Bool(true)))
  }

  lemma TextMapRoundTrip(m: map<string, string>)
    ensures ReadTextMap(TextMapJson(m)) == m
  {
    assert ReadTextMap(TextMapJson(m)) == m;
  }

  lemma DecisionRoundTrip(d: DecisionResult)
    ensures ReadDecision(DecisionJson(d)) == Some(d)
  {
  }

  lemma ResponseIdentity(r: Response)
    ensures var f := ResponseJson(r).fields;
            && TextAt(f, "sessionId") == r.identity.sessionId
            && TextAt(f, "rulesetReleaseId") == r.identity.releaseId
            && TextAt(f, "rulesArtifactHash") == r.identity.artifactHash
            && TextAt(f, "serializerVersion") == r.identity.serializer
  {
    hide TextMapJson, DecisionJson;
  }

  lemma ResponseTexts(r: Response)
    ensures var f := ResponseJson(r).fields;
            && TextAt(f, "commandId") == r.commandId
            && TextAt(f, "semanticCommandId") == r.semanticCommandId
            && TextAt(f, "stateHash") == r.stateHash
            && TextAt(f, "eventHash") == r.eventHash
  {
    hide TextMapJson, DecisionJson;
  }

  lemma ResponseOthers(r: Response)
    ensures var f := ResponseJson(r).fields;
            && TextAt(f, "semanticAuthority") == r.authority
            && TextAt(f, "schemaValidation") == r.schemaValidation
            && IntAt(f, "revision") == r.revision
            && IntAt(f, "snapshotSeq") == r.snapshotSeq
            && IntAt(f, "eventSeq") == r.eventSeq
            && Field(f, "idempotent") == Bool(r.idempotent)
            && Field(f, "actorProjectionHashes") == TextMapJson(r.projectionHashes)
            && Field(f, "decision") == if r.decision.Some? then DecisionJson(r.decision.value) else Null
  {
    hide TextMapJson, DecisionJson;
  }

  /** A response survives its JSON form. */
  lemma ResponseRoundTrip(r: Response)
    ensures ReadResponse(ResponseJson(r)) == Some(r)
  {
    hide TextAt, IntAt, Field, ReadTextMap, TextMapJson, ReadDecision, DecisionJson;
    ResponseIdentity(r);
    ResponseTexts(r);
    ResponseOthers(r);
    TextMapRoundTrip(r.projectionHashes);
    NullIsNoDecision();
    if r.decision.Some? {
      DecisionRoundTrip(r.decision.value);
    }
  }

  lemma NullIsNoDecision()
    ensures ReadDecision(Null) == None
  {
  }

  lemma ResponseExact(r: Response)
    requires -MAX_EXACT_INTEGER <= r.revision <= MAX_EXACT_INTEGER
    requires -MAX_EXACT_INTEGER <= r.snapshotSeq <= MAX_EXACT_INTEGER
    requires -MAX_EXACT_INTEGER <= r.eventSeq <= MAX_EXACT_INTEGER
    ensures Exact(ResponseJson(r))
  {
    var hashes := TextMapJson(r.projectionHashes);
    assert Exact(hashes);
    var f := ResponseJson(r).fields;
    forall k | k in f ensures Exact(f[k]) {
      if f[k].Num? {
        assert f[k] == Num(r.revision) || f[k] == Num(r.snapshotSeq) || f[k] == Num(r.eventSeq);
      } else if f[k].Obj? {
        assert f[k] == hashes || (r.decision.Some? && f[k] == DecisionJson(r.decision.value));
      }
    }
  }

  // ---- Reading a request ----

  predicate TargetsOk(r: Request) {
    && (forall i | 0 <= i < |r.targetActorIds| ::
          r.targetActorIds[i] != NIL_UUID && r.targetActorIds[i] != r.sourceActorId)
    && Distinct(r.targetActorIds)
  }

  predicate BindingsOk(bindings: seq<ActorBinding>) {
    && (forall b | b in bindings ::
          b.actorId != NIL_UUID && !Blank(b.worldActorId) && Trimmed(b.worldActorId)
          && Utf8Length(b.worldActorId) <= MAX_WORLD_ACTOR_ID_BYTES)
    && (forall i, j | 0 <= i < j < |bindings| ::
          bindings[i].actorId != bindings[j].actorId && bindings[i].worldActorId != bindings[j].worldActorId)
  }

  /** The checks on a request envelope, in the order that decides the status. */
  function CheckEnvelope(r: Request): Check<Problem> {
    if r.commandId == NIL_UUID || r.sourceActorId == NIL_UUID then Reject(BadRequest)
    else if !StableId(r.semanticCommandId) then Reject(BadRequest)
    else if r.releaseId == NIL_UUID || !IsSha256(r.artifactHash) then Reject(BadRequest)
    else if r.expectedRevision < 0 || r.baseSnapshotSeq < 0 then Reject(BadRequest)
    else if r.schemaVersion != WORLD_SCHEMA_VERSION then Reject(Unprocessable)
    else if Blank(r.serializer) || !Trimmed(r.serializer) || Utf8Length(r.serializer) > MAX_SERIALIZER_BYTES then
      Reject(BadRequest)
    else if !IsSha256(r.baseStateHash) || !IsSha256(r.stateHash) then Reject(BadRequest)
    else if r.snapshot.None? then Reject(BadRequest)
    else if |r.targetActorIds| > MAX_TARGETS || |r.actorBindings| == 0 || |r.actorBindings| > MAX_BINDINGS then
      Reject(Unprocessable)
    else if !TargetsOk(r) || !BindingsOk(r.actorBindings) then Reject(BadRequest)
    else
      match r.decision
      case None => Pass
      case Some(d) =>
        if !StableId(d.requestId) || !StableId(d.resolutionId) || d.decidingActorId == NIL_UUID then Reject(BadRequest)
        else if d.requestId == d.resolutionId then Reject(BadRequest)
        else if d.requestSchemaVersion != DECISION_SCHEMA_VERSION then Reject(Unprocessable)
        else Pass
  }

  /** Decodes and checks a request body; the hash covers its canonical text. */
  function Prepare(env: Env, raw: string): (r: Result<Prepared, Problem>)
    ensures r.Ok? ==>
              && Exact(r.value.body) && CanonicalJson.Decode(raw) == Ok(r.value.body)
              && env.shape(r.value.body) == Some(r.value.request)
              && r.value.requestHash == env.hash(CT.Text(r.value.body))
              && CheckEnvelope(r.value.request).Pass?
              && r.value.request.snapshot == Some(r.value.snapshot) && Exact(r.value.snapshot)
              && r.value.snapshotBytes == CT.Text(r.value.snapshot)
              && InspectWorld(r.value.snapshot) == Ok(r.value.world)
              && Exact(r.value.metadata) && r.value.metadata.Obj?
  {
    if Utf8Length(raw) > MAX_BODY_BYTES then Err(TooLarge)
    else
      match CanonicalJson.Decode(raw)
      case Err(_) => Err(BadRequest)
      case Ok(body) =>
        if !body.Obj? then Err(BadRequest)
        else
          match env.shape(body)
          case None => Err(BadRequest)
          case Some(request) =>
            if CheckEnvelope(request).Reject? then Err(CheckEnvelope(request).error)
            else
              var snapshot := request.snapshot.value;
              if !Exact(snapshot) then Err(BadRequest)
              else
                var world :- InspectWorld(snapshot);
                var metadata := if request.eventMetadata.Some? then request.eventMetadata.value else Obj(map[]);
                if !Exact(metadata) then Err(BadRequest)
                else if !metadata.Obj? then Err(Unprocessable)
                else
                  Ok(Prepared(request, body, env.hash(CT.Text(body)), snapshot, CT.Text(snapshot), metadata, world))
  }
}
