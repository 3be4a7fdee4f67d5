/**
 * The chain of snapshots and events of a session, and the proof that every
 * transition extends it so that the next transition's verification passes.
 */
module LedgerChain {
  import opened JsonValues
  import opened Outcomes
  import opened TextRules
  import opened WorldState
  import opened LedgerTables
  import opened LedgerRules
  import CanonicalRoundTrip
  import CanonicalJson
  import CT = CanonicalText

  // ---- The invariant ----

  /** The k-th snapshot of a session whose genesis revision is `base`. */
  predicate SnapshotAt(env: Env, identity: Identity, base: int, k: int, h: SnapshotRow) {
    && h.seqNo == k && h.identity == identity && h.revision == base + k
    && h.schemaVersion == WORLD_SCHEMA_VERSION
    && Sealed(env, h.snapshot, h.canonicalBytes, h.stateHash)
    && InspectWorld(h.snapshot).Ok? && InspectWorld(h.snapshot).value.revision == h.revision
  }

  /** One world follows another by exactly one command. */
  predicate Succeeds(a: WorldView, b: WorldView, semanticId: string) {
    && b.worldId == a.worldId && b.mode == a.mode && a.logicalClock <= b.logicalClock
    && Field(a.root, "ruleset") == Field(b.root, "ruleset")
    && b.processed == a.processed + [semanticId]
  }

  /** The event that leads from one snapshot to the next. */
  predicate EventAt(env: Env, k: int, before: SnapshotRow, after: SnapshotRow, e: EventRow, semanticId: string) {
    && e.seqNo == k + 1 && e.identity == after.identity
    && Sealed(env, e.payload, e.canonicalBytes, e.eventHash)
    && e.stateHashBefore == before.stateHash && e.stateHashAfter == after.stateHash
    && after.lastEventHash == Some(e.eventHash)
    && PayloadMatches(e.payload, k + 1, after.revision, e, semanticId)
    && InspectWorld(before.snapshot).Ok? && InspectWorld(after.snapshot).Ok?
    && Succeeds(InspectWorld(before.snapshot).value, InspectWorld(after.snapshot).value, semanticId)
  }

  predicate Snapshots(env: Env, t: Tables) {
    && |t.snapshots| == |t.events| + 1
    && t.snapshots[0].lastEventHash.None?
    && forall k | 0 <= k < |t.snapshots| ::
         SnapshotAt(env, t.session.identity, t.snapshots[0].revision, k, t.snapshots[k])
  }

  predicate Events(env: Env, t: Tables) {
    && |t.snapshots| == |t.events| + 1
    && (forall k | 0 <= k < |t.events| :: t.events[k].commandId in t.commands)
    && (forall k | 0 <= k < |t.events| ::
          EventAt(env, k, t.snapshots[k], t.snapshots[k + 1], t.events[k], t.commands[t.events[k].commandId].semanticId))
    && (forall i, j | 0 <= i < j < |t.events| ::
          t.events[i].eventHash != t.events[j].eventHash && t.events[i].commandId != t.events[j].commandId)
  }

  /** The session row repeats the newest snapshot. */
  predicate HeadIsNewest(s: SessionRow, seqNo: int, h: SnapshotRow) {
    && s.snapshotSeq == seqNo
    && s.snapshot == h.snapshot && s.canonicalBytes == h.canonicalBytes && s.stateHash == h.stateHash
    && s.revision == h.revision && s.schemaVersion == h.schemaVersion && s.identity == h.identity
  }

  /** A stored receipt can be read back and answers the request it was stored for. */
  predicate CommandAt(env: Env, identity: Identity, id: Uuid, c: CommandRow) {
    && c.status == Committed
    && Sealed(env, c.result, c.resultBytes, c.resultHash)
    && CanonicalJson.Decode(c.bodyBytes).Ok?
    && var body := CanonicalJson.Decode(c.bodyBytes).value;
    && c.bodyBytes == CT.Text(body) && c.requestHash == env.hash(c.bodyBytes)
    && env.shape(body).Some? && env.shape(body).value.commandId == id
    && env.shape(body).value.semanticCommandId == c.semanticId
    && ReadResponse(c.result).Some?
    && Answers(identity, env.shape(body).value, ReadResponse(c.result).value)
  }

  /** What a receipt must repeat of its request. */
  predicate Answers(identity: Identity, r: Request, response: Response) {
    && response.identity == identity
    && r.releaseId == identity.releaseId && r.artifactHash == identity.artifactHash && r.serializer == identity.serializer
    && response.commandId == r.commandId && response.semanticCommandId == r.semanticCommandId
    && response.stateHash == r.stateHash
    && response.authority == AUTHORITY && response.schemaValidation == SCHEMA_VALIDATION
  }

  function CommandIds(events: seq<EventRow>): set<Uuid> {
    set e | e in events :: e.commandId
  }

  predicate Commands(env: Env, t: Tables) {
    && t.commands.Keys == CommandIds(t.events)
    && (forall id | id in t.commands :: CommandAt(env, t.session.identity, id, t.commands[id]))
  }

  predicate Chain(env: Env, t: Tables) {
    && Snapshots(env, t) && Events(env, t) && Commands(env, t)
    && HeadIsNewest(t.session, |t.events|, t.snapshots[|t.events|])
  }

  // ---- Lookups in the chain ----

  lemma {:induction false} FindSnapshotAt(rows: seq<SnapshotRow>, seqNo: int)
    requires forall k | 0 <= k < |rows| :: rows[k].seqNo == k
    ensures FindSnapshot(rows, seqNo) == if 0 <= seqNo < |rows| then Some(rows[seqNo]) else None
  {
    if rows != [] && rows[|rows| - 1].seqNo != seqNo {
      FindSnapshotAt(rows[..|rows| - 1], seqNo);
    }
  }

  lemma {:induction false} FindEventAt(rows: seq<EventRow>, k: int)
    requires 0 <= k < |rows|
    requires forall i, j | 0 <= i < j < |rows| :: rows[i].eventHash != rows[j].eventHash
    ensures FindEvent(rows, rows[k].eventHash) == Some(rows[k])
  {
    if k != |rows| - 1 {
      FindEventAt(rows[..|rows| - 1], k);
    }
  }

  lemma {:induction false} MaxSeqIsLength(rows: seq<EventRow>)
    requires forall k | 0 <= k < |rows| :: rows[k].seqNo == k + 1
    ensures MaxSeq(rows) == |rows|
  {
    if rows != [] {
      MaxSeqIsLength(rows[..|rows| - 1]);
    }
  }

  // ---- Self-acceptance ----

  /** What one transition leaves behind, the verification before the next one accepts. */
  lemma HeadAccepted(env: Env, t: Tables)
    requires Chain(env, t)
    ensures VerifyStored(env, t.session) == InspectWorld(t.session.snapshot)
    ensures VerifyStored(env, t.session).Ok?
    ensures HeadVerified(env, t)
  {
    hide InspectWorld, Sealed, PayloadMatches, Commands, Succeeds;
    var n := |t.events|;
    assert SnapshotAt(env, t.session.identity, t.snapshots[0].revision, n, t.snapshots[n]);
    forall k | 0 <= k < |t.snapshots| ensures t.snapshots[k].seqNo == k {
      assert SnapshotAt(env, t.session.identity, t.snapshots[0].revision, k, t.snapshots[k]);
    }
    FindSnapshotAt(t.snapshots, n);
    FindSnapshotAt(t.snapshots, n - 1);
    if n > 0 {
      var e := t.events[n - 1];
      assert EventAt(env, n - 1, t.snapshots[n - 1], t.snapshots[n], e, t.commands[e.commandId].semanticId);
      FindEventAt(t.events, n - 1);
      assert HeadEventMatches(env, t, e);
    }
  }

  // ---- What an accepted request has passed ----

  /** The facts that decoding establishes about a prepared request. */
  predicate WellPrepared(env: Env, p: Prepared) {
    && Exact(p.body) && env.shape(p.body) == Some(p.request)
    && p.requestHash == env.hash(CT.Text(p.body))
    && CheckEnvelope(p.request).Pass?
    && Exact(p.snapshot) && p.snapshotBytes == CT.Text(p.snapshot)
    && InspectWorld(p.snapshot) == Ok(p.world)
    && Exact(p.metadata)
  }

  lemma PreparedIsWell(env: Env, raw: string)
    requires Prepare(env, raw).Ok?
    ensures WellPrepared(env, Prepare(env, raw).value)
  {
    hide CheckEnvelope, InspectWorld;
  }

  predicate Admitted(env: Env, t: Tables, user: Uuid, p: Prepared, base: WorldView, updates: seq<Projection>,
        plan: DecisionPlan) {
    && user in t.members && t.members[user].role != Observer
    && VerifyStored(env, t.session) == Ok(base)
    && p.request.releaseId == t.session.identity.releaseId
    && p.request.artifactHash == t.session.identity.artifactHash
    && p.request.commandId !in t.commands
    && t.session.status == STATUS_ACTIVE && t.session.authorityMode == AUTHORITY_LOCAL
    && CheckControl(t, user, p.request).Pass?
    && ActorsBound(env, ActiveActors(t), base.actors)
    && CheckSuccession(env, t.session, base, p).Pass?
    && PrepareProjections(Context(env, t, user, p, base)) == Ok(updates)
    && PlanDecision(env, t, user, p, base.pending) == Ok(plan)
  }

  lemma AdmitMeaning(env: Env, t: Tables, user: Uuid, p: Prepared, base: WorldView, updates: seq<Projection>,
        plan: DecisionPlan)
    requires Admit(env, t, user, p) == Ok(Fresh(base, updates, plan))
    ensures Admitted(env, t, user, p, base, updates, plan)
  {
    hide VerifyStored, HeadVerified, CheckControl, ActorsBound, CheckSuccession, PrepareProjections, PlanDecision,
         Sealed, ReadResponse, ReceiptMatches;
  }

  /** The rows that a commit writes, table by table. */
  lemma CommitMeaning(env: Env, t: Tables, user: Uuid, now: string, p: Prepared, updates: seq<Projection>,
        plan: DecisionPlan)
    requires Exact(p.body)
    requires Commit(env, t, user, now, p, updates, plan).Ok?
    ensures var s := t.session;
            var eventSeq := MaxSeq(t.events) + 1;
            var body := EventBody(s, p, eventSeq, now);
            && Exact(body)
            && var event := NewEvent(env, s, p, eventSeq, CT.Text(body));
               var (after, response) := Commit(env, t, user, now, p, updates, plan).value;
               var decided := ApplyDecision(env, t.decisions, p, plan, eventSeq);
            && decided.Ok?
            && response == CommittedResponse(s, p, eventSeq, event.eventHash, updates, decided.value.1)
            && after.session == NewHead(s, p) && after.members == t.members
            && after.actors == UpdateActors(t.actors, updates, p.request.schemaVersion, s.snapshotSeq + 1)
            && after.commands == t.commands[p.request.commandId := CommittedCommand(env, user, p, response)]
            && after.events == t.events + [event]
            && after.snapshots == t.snapshots + [NewSnapshot(s, p, event.eventHash)]
            && after.decisions == decided.value.0
            && (forall e | e in t.events :: e.eventHash != event.eventHash)
            && (forall id | id in t.commands :: t.commands[id].semanticId != p.request.semanticCommandId)
  {
    hide EventBody, NewEvent, NewHead, NewSnapshot, CommittedCommand, CommittedResponse, UpdateActors, ApplyDecision,
         MaxSeq;
  }

  // ---- One transition extends the chain ----

  lemma StoredIsValue(v: Json)
    requires Exact(v)
    ensures StoredJson(CT.Text(v)) == v
  {
    CanonicalRoundTrip.RoundTrip(v);
  }

  lemma EventBodyCounters(s: SessionRow, p: Prepared, eventSeq: int, now: string)
    ensures var f := EventBody(s, p, eventSeq, now).fields;
            && Field(f, "eventSeq") == Num(eventSeq) && Field(f, "snapshotSeq") == Num(s.snapshotSeq + 1)
            && Field(f, "revisionAfter") == Num(p.world.revision) && Field(f, "type") == Str(EVENT_TYPE)
  {
    hide TextItems;
  }

  lemma EventBodyEnvelope(s: SessionRow, p: Prepared, eventSeq: int, now: string)
    ensures var f := EventBody(s, p, eventSeq, now).fields;
            && Field(f, "sessionId") == Str(s.identity.sessionId)
            && Field(f, "commandId") == Str(p.request.commandId)
            && Field(f, "semanticCommandId") == Str(p.request.semanticCommandId)
            && Field(f, "rulesetReleaseId") == Str(s.identity.releaseId)
            && Field(f, "rulesArtifactHash") == Str(s.identity.artifactHash)
  {
    hide TextItems;
  }

  lemma EventBodyHashes(s: SessionRow, p: Prepared, eventSeq: int, now: string)
    ensures var f := EventBody(s, p, eventSeq, now).fields;
            && Field(f, "serializerVersion") == Str(s.identity.serializer)
            && Field(f, "stateHashBefore") == Str(s.stateHash)
            && Field(f, "stateHashAfter") == Str(p.request.stateHash)
            && Field(f, "semanticAuthority") == Str(AUTHORITY)
            && Field(f, "schemaValidation") == Str(SCHEMA_VALIDATION)
  {
    hide TextItems;
  }

  /** The new event's payload describes the new head. */
  lemma NewEventMatches(env: Env, s: SessionRow, p: Prepared, eventSeq: int, now: string)
    requires Exact(EventBody(s, p, eventSeq, now))
    ensures var body := EventBody(s, p, eventSeq, now);
            var e := NewEvent(env, s, p, eventSeq, CT.Text(body));
            && e.payload == body && Sealed(env, e.payload, e.canonicalBytes, e.eventHash)
            && PayloadMatches(e.payload, s.snapshotSeq + 1, p.world.revision, e, p.request.semanticCommandId)
  {
    hide EventBody, Field, StoredJson, CT.Text;
    var body := EventBody(s, p, eventSeq, now);
    StoredIsValue(body);
    EventBodyIsObject(s, p, eventSeq, now);
    EventBodyCounters(s, p, eventSeq, now);
    EventBodyEnvelope(s, p, eventSeq, now);
    EventBodyHashes(s, p, eventSeq, now);
  }

  lemma EventBodyIsObject(s: SessionRow, p: Prepared, eventSeq: int, now: string)
    ensures EventBody(s, p, eventSeq, now).Obj?
  {
  }

  lemma FieldExact(v: Json, key: string)
    requires Exact(v) && v.Obj?
    ensures Exact(Field(v.fields, key))
  {
  }

  lemma SuccessionMeaning(env: Env, s: SessionRow, base: WorldView, p: Prepared)
    requires CheckSuccession(env, s, base, p).Pass?
    requires Exact(s.snapshot) && InspectWorld(s.snapshot) == Ok(base)
    requires Exact(p.snapshot) && InspectWorld(p.snapshot) == Ok(p.world)
    ensures Succeeds(base, p.world, p.request.semanticCommandId)
    ensures p.world.revision == s.revision + 1 && p.request.schemaVersion == s.schemaVersion
    ensures p.request.serializer == s.identity.serializer
    ensures env.hash(p.snapshotBytes) == p.request.stateHash
  {
    var a, b := Field(base.root, "ruleset"), Field(p.world.root, "ruleset");
    FieldExact(s.snapshot, "ruleset");
    FieldExact(p.snapshot, "ruleset");
    CanonicalRoundTrip.TextInjective(a, b);
  }

  lemma NewSnapshotFits(env: Env, s: SessionRow, p: Prepared, base: int, n: int, eventHash: string)
    requires Exact(p.snapshot) && p.snapshotBytes == CT.Text(p.snapshot) && InspectWorld(p.snapshot) == Ok(p.world)
    requires p.world.revision == s.revision + 1 && p.request.schemaVersion == s.schemaVersion == WORLD_SCHEMA_VERSION
    requires env.hash(p.snapshotBytes) == p.request.stateHash
    requires s.snapshotSeq == n && s.revision == base + n
    ensures var h := NewSnapshot(s, p, eventHash);
            && h.snapshot == p.snapshot && h.lastEventHash == Some(eventHash)
            && SnapshotAt(env, s.identity, base, n + 1, h)
            && HeadIsNewest(NewHead(s, p), n + 1, h)
  {
    hide StoredJson, InspectWorld, CT.Text, Exact;
    StoredIsValue(p.snapshot);
  }

  lemma NewCommandFits(env: Env, user: Uuid, s: SessionRow, p: Prepared, response: Response)
    requires WellPrepared(env, p) && Exact(ResponseJson(response))
    requires Answers(s.identity, p.request, response)
    ensures var c := CommittedCommand(env, user, p, response);
            && CommandAt(env, s.identity, p.request.commandId, c)
            && ReadResponse(c.result) == Some(response)
            && c.controller == user && c.semanticId == p.request.semanticCommandId
            && c.requestHash == p.requestHash
            && CanonicalJson.Decode(c.bodyBytes) == Ok(p.body)
  {
    hide ResponseJson, ReadResponse, InspectWorld, CheckEnvelope, StoredJson;
    StoredIsValue(ResponseJson(response));
    ResponseRoundTrip(response);
    CanonicalRoundTrip.RoundTrip(p.body);
  }

  /** One committed transition, with the parts of the chain it adds. */
  predicate Extended(env: Env, t: Tables, after: Tables, user: Uuid, p: Prepared, response: Response, event: EventRow,
        h: SnapshotRow) {
    && Exact(p.body)
    && after.events == t.events + [event] && after.snapshots == t.snapshots + [h]
    && after.commands == t.commands[p.request.commandId := CommittedCommand(env, user, p, response)]
    && after.session == NewHead(t.session, p) && after.members == t.members
    && event.commandId == p.request.commandId
    && h == NewSnapshot(t.session, p, event.eventHash)
    && (forall e | e in t.events :: e.eventHash != event.eventHash)
  }

  lemma SnapshotsExtend(env: Env, t: Tables, after: Tables, h: SnapshotRow)
    requires Snapshots(env, t) && |after.events| == |t.events| + 1
    requires after.snapshots == t.snapshots + [h]
    requires after.session.identity == t.session.identity
    requires SnapshotAt(env, t.session.identity, t.snapshots[0].revision, |t.snapshots|, h)
    ensures Snapshots(env, after)
  {
    hide SnapshotAt;
    forall k | 0 <= k < |after.snapshots|
      ensures SnapshotAt(env, after.session.identity, after.snapshots[0].revision, k, after.snapshots[k])
    {
      if k < |t.snapshots| {
        assert after.snapshots[k] == t.snapshots[k];
      }
    }
  }

  lemma EventsExtend(env: Env, t: Tables, after: Tables, event: EventRow, h: SnapshotRow, c: CommandRow)
    requires Events(env, t) && event.commandId !in t.commands
    requires after.events == t.events + [event] && after.snapshots == t.snapshots + [h]
    requires after.commands == t.commands[event.commandId := c]
    requires forall e | e in t.events :: e.eventHash != event.eventHash
    requires EventAt(env, |t.events|, t.snapshots[|t.events|], h, event, c.semanticId)
    ensures Events(env, after)
  {
    hide EventAt;
    var n := |t.events|;
    forall k | 0 <= k < |after.events|
      ensures after.events[k].commandId in after.commands
      ensures EventAt(env, k, after.snapshots[k], after.snapshots[k + 1], after.events[k],
                      after.commands[after.events[k].commandId].semanticId)
    {
      if k < n {
        assert after.events[k] == t.events[k] && after.snapshots[k] == t.snapshots[k] && after.snapshots[k + 1] == t.snapshots[k + 1];
        assert t.events[k].commandId in t.commands;
      }
    }
    forall i, j | 0 <= i < j < |after.events|
      ensures after.events[i].eventHash != after.events[j].eventHash && after.events[i].commandId != after.events[j].commandId
    {
      assert after.events[i] == t.events[i] && t.events[i] in t.events && t.events[i].commandId in t.commands;
    }
  }

  lemma CommandsExtend(env: Env, t: Tables, after: Tables, event: EventRow, c: CommandRow)
    requires Commands(env, t) && after.events == t.events + [event]
    requires after.session.identity == t.session.identity
    requires after.commands == t.commands[event.commandId := c]
    requires CommandAt(env, t.session.identity, event.commandId, c)
    ensures Commands(env, after)
  {
    hide CommandAt;
    assert CommandIds(after.events) == CommandIds(t.events) + {event.commandId} by {
      forall id | id in CommandIds(t.events) ensures id in CommandIds(after.events) {
        var e :| e in t.events && e.commandId == id;
        assert e in after.events;
      }
      assert event in after.events;
    }
  }

  lemma ResponseFits(s: SessionRow, p: Prepared, eventSeq: int, eventHash: string, updates: seq<Projection>,
        decision: Option<DecisionResult>)
    requires 0 <= s.snapshotSeq + 1 <= p.world.revision <= MAX_EXACT_INTEGER && eventSeq == s.snapshotSeq + 1
    ensures Exact(ResponseJson(CommittedResponse(s, p, eventSeq, eventHash, updates, decision)))
  {
    hide ResponseJson, ProjectionHashes;
    ResponseExact(CommittedResponse(s, p, eventSeq, eventHash, updates, decision));
  }

  /** The new rows fit the chain they are appended to. */
  lemma NewRowsFit(env: Env, t: Tables, n: nat, now: string, p: Prepared, base: WorldView, event: EventRow,
        h: SnapshotRow)
    requires n == |t.events| && |t.snapshots| == n + 1
    requires Exact(EventBody(t.session, p, n + 1, now))
    requires event == NewEvent(env, t.session, p, n + 1, CT.Text(EventBody(t.session, p, n + 1, now)))
    requires h == NewSnapshot(t.session, p, event.eventHash)
    requires Chain(env, t) && WellPrepared(env, p)
    requires VerifyStored(env, t.session) == Ok(base) && CheckSuccession(env, t.session, base, p).Pass?
    ensures && SnapshotAt(env, t.session.identity, t.snapshots[0].revision, n + 1, h)
            && EventAt(env, n, t.snapshots[n], h, event, p.request.semanticCommandId)
            && HeadIsNewest(NewHead(t.session, p), n + 1, h)
            && h.snapshot == p.snapshot
    ensures p.request.serializer == t.session.identity.serializer
    ensures 0 <= t.session.snapshotSeq + 1 <= p.world.revision <= MAX_EXACT_INTEGER
  {
    hide InspectWorld, Sealed, PayloadMatches, EventBody, CheckEnvelope, CheckSuccession, VerifyStored, Succeeds,
         Commands, Events, StoredJson, CT.Text, Exact;
    var s := t.session;
    HeadAccepted(env, t);
    assert SnapshotAt(env, s.identity, t.snapshots[0].revision, n, t.snapshots[n]);
    SealedExact(env, s.snapshot, s.canonicalBytes, s.stateHash);
    SuccessionMeaning(env, s, base, p);
    NewEventMatches(env, s, p, n + 1, now);
    NewSnapshotFits(env, s, p, t.snapshots[0].revision, n, event.eventHash);
    GenesisRevision(env, t);
    ExactRevision(p);
  }

  lemma EventsNumbered(env: Env, t: Tables)
    requires Events(env, t)
    ensures MaxSeq(t.events) == |t.events|
  {
    hide EventAt;
    forall k | 0 <= k < |t.events| ensures t.events[k].seqNo == k + 1 {
      EventNumber(env, k, t.snapshots[k], t.snapshots[k + 1], t.events[k], t.commands[t.events[k].commandId].semanticId);
    }
    MaxSeqIsLength(t.events);
  }

  lemma EventNumber(env: Env, k: int, before: SnapshotRow, after: SnapshotRow, e: EventRow, semanticId: string)
    requires EventAt(env, k, before, after, e, semanticId)
    ensures e.seqNo == k + 1
  {
  }

  /** A committed transition keeps the chain and returns the response it stored. */
  lemma TransitionExtendsChain(env: Env, t: Tables, user: Uuid, now: string, p: Prepared,
                               base: WorldView, updates: seq<Projection>, plan: DecisionPlan)
    requires Chain(env, t) && WellPrepared(env, p)
    requires Admitted(env, t, user, p, base, updates, plan)
    requires Commit(env, t, user, now, p, updates, plan).Ok?
    ensures var (after, response) := Commit(env, t, user, now, p, updates, plan).value;
            && Chain(env, after)
            && |after.events| == |t.events| + 1
            && Extended(env, t, after, user, p, response, after.events[|t.events|], after.snapshots[|t.events| + 1])
            && StoresResponse(after, user, p, response)
            && after.session.snapshot == p.snapshot
  {
    hide InspectWorld, Sealed, EventAt, SnapshotAt, EventBody, CommandAt, CheckEnvelope, CheckSuccession, VerifyStored,
         CommittedCommand, UpdateActors, ApplyDecision, CheckControl, ActorsBound, PrepareProjections, PlanDecision,
         ReadResponse, Commit, ProjectionHashes, MaxSeq, StoredJson, Snapshots, Events, Commands, ResponseJson, CT.Text, Exact;
    var s, n := t.session, |t.events|;
    CommitMeaning(env, t, user, now, p, updates, plan);
    var (after, response) := Commit(env, t, user, now, p, updates, plan).value;
    EventsNumbered(env, t);
    ChainLengths(env, t);
    var event := NewEvent(env, s, p, n + 1, CT.Text(EventBody(s, p, n + 1, now)));
    var h := NewSnapshot(s, p, event.eventHash);
    NewRowsFit(env, t, n, now, p, base, event, h);
    var c := CommittedCommand(env, user, p, response);
    ResponseFits(s, p, n + 1, event.eventHash, updates, response.decision);
    NewCommandFits(env, user, s, p, response);
    SnapshotsExtend(env, t, after, h);
    EventsExtend(env, t, after, event, h, c);
    CommandsExtend(env, t, after, event, c);
    assert after.events[n] == event && after.snapshots[n + 1] == h;
  }

  lemma ChainLengths(env: Env, t: Tables)
    requires Chain(env, t)
    ensures |t.snapshots| == |t.events| + 1
  {
  }

  /** The receipt of the command holds the response and names its body and caller. */
  predicate StoresResponse(t: Tables, user: Uuid, p: Prepared, response: Response) {
    && p.request.commandId in t.commands
    && var c := t.commands[p.request.commandId];
    && c.controller == user && c.requestHash == p.requestHash
    && CanonicalJson.Decode(c.bodyBytes) == Ok(p.body)
    && ReadResponse(c.result) == Some(response)
  }

  lemma SealedExact(env: Env, cell: Json, bytes: string, hash: string)
    requires Sealed(env, cell, bytes, hash)
    ensures Exact(cell)
  {
  }

  lemma GenesisRevision(env: Env, t: Tables)
    requires Snapshots(env, t)
    ensures t.snapshots[0].revision >= 0
  {
    assert SnapshotAt(env, t.session.identity, t.snapshots[0].revision, 0, t.snapshots[0]);
  }

  lemma ExactRevision(p: Prepared)
    requires Exact(p.snapshot) && InspectWorld(p.snapshot) == Ok(p.world)
    ensures 0 <= p.world.revision <= MAX_EXACT_INTEGER
  {
    ExactParts(p.snapshot);
  }
}
