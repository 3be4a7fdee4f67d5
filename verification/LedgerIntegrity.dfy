/** Exactly which stored sessions pass the verification before every read and every transition. */
module LedgerIntegrity {
  import opened JsonValues
  import opened Outcomes
  import opened TextRules
  import opened WorldState
  import opened LedgerTables
  import opened LedgerRules
  import opened LedgerChain
  import opened LedgerStore
  import CanonicalRoundTrip
  import CT = CanonicalText

  // ---- Cells and rows ----

  /** The bytes are the canonical text of the cell, and the hash is theirs. */
  predicate Intact(env: Env, cell: Json, bytes: string, hash: string) {
    Exact(cell) && bytes == CT.Text(cell) && hash == env.hash(CT.Text(cell))
  }

  predicate SessionIntact(env: Env, s: SessionRow) {
    && Intact(env, s.snapshot, s.canonicalBytes, s.stateHash) && s.schemaVersion == 5
    && InspectWorld(s.snapshot).Ok? && InspectWorld(s.snapshot).value.revision == s.revision
  }

  /** The snapshot row repeats the session row. */
  predicate SnapshotRepeats(env: Env, s: SessionRow, h: SnapshotRow) {
    && h.seqNo == s.snapshotSeq && Intact(env, h.snapshot, h.canonicalBytes, h.stateHash)
    && h.canonicalBytes == s.canonicalBytes && h.stateHash == s.stateHash && h.revision == s.revision
    && h.schemaVersion == s.schemaVersion && h.identity == s.identity
  }

  /** The event leads to the session's state from that of the row before, and its payload says so, field by field. */
  predicate EventRepeats(env: Env, t: Tables, e: EventRow, before: SnapshotRow) {
    var s := t.session;
    && e.commandId in t.commands && Intact(env, e.payload, e.canonicalBytes, e.eventHash) && e.payload.Obj?
    && e.seqNo == s.snapshotSeq && e.identity == s.identity && e.stateHashAfter == s.stateHash
    && before.seqNo == s.snapshotSeq - 1 && e.stateHashBefore == before.stateHash
    && var f := e.payload.fields;
    && Says(f, "type", Str("canonical_snapshot_transport_committed")) && Says(f, "sessionId", Str(s.identity.sessionId))
    && Says(f, "commandId", Str(e.commandId)) && Says(f, "semanticCommandId", Str(t.commands[e.commandId].semanticId))
    && Says(f, "rulesetReleaseId", Str(s.identity.releaseId)) && Says(f, "rulesArtifactHash", Str(s.identity.artifactHash))
    && Says(f, "serializerVersion", Str(s.identity.serializer))
    && Says(f, "eventSeq", Num(s.snapshotSeq)) && Says(f, "snapshotSeq", Num(s.snapshotSeq)) && Says(f, "revisionAfter", Num(s.revision))
    && Says(f, "stateHashBefore", Str(before.stateHash)) && Says(f, "stateHashAfter", Str(s.stateHash))
    && Says(f, "semanticAuthority", Str("client_semantics_unverified")) && Says(f, "schemaValidation", Str("partial_unverified"))
  }

  predicate Says(f: map<string, Json>, key: string, v: Json) {
    key in f && f[key] == v
  }

  /** The newest row with the number. */
  predicate IsNewest(rows: seq<SnapshotRow>, seqNo: int, i: nat) {
    i < |rows| && rows[i].seqNo == seqNo && forall j | i < j < |rows| :: rows[j].seqNo != seqNo
  }

  predicate IsNewestEvent(rows: seq<EventRow>, hash: string, i: nat) {
    i < |rows| && rows[i].eventHash == hash && forall j | i < j < |rows| :: rows[j].eventHash != hash
  }

  lemma {:induction false} FindSnapshotIff(rows: seq<SnapshotRow>, seqNo: int, row: SnapshotRow)
    ensures FindSnapshot(rows, seqNo) == Some(row) <==> exists i: nat :: i < |rows| && IsNewest(rows, seqNo, i) && rows[i] == row
  {
    if rows != [] {
      var last := |rows| - 1;
      var init := rows[..last];
      if rows[last].seqNo == seqNo {
        assert IsNewest(rows, seqNo, last);
      } else {
        FindSnapshotIff(init, seqNo, row);
        if i: nat :| IsNewest(init, seqNo, i) && init[i] == row {
          assert IsNewest(rows, seqNo, i) && rows[i] == row;
        }
        if i: nat :| IsNewest(rows, seqNo, i) && rows[i] == row {
          assert IsNewest(init, seqNo, i) && init[i] == row;
        }
      }
    }
  }

  lemma {:induction false} FindEventIff(rows: seq<EventRow>, hash: string, row: EventRow)
    ensures FindEvent(rows, hash) == Some(row) <==> exists i: nat :: i < |rows| && IsNewestEvent(rows, hash, i) && rows[i] == row
  {
    if rows != [] {
      var last := |rows| - 1;
      var init := rows[..last];
      if rows[last].eventHash == hash {
        assert IsNewestEvent(rows, hash, last);
      } else {
        FindEventIff(init, hash, row);
        if i: nat :| IsNewestEvent(init, hash, i) && init[i] == row {
          assert IsNewestEvent(rows, hash, i) && rows[i] == row;
        }
        if i: nat :| IsNewestEvent(rows, hash, i) && rows[i] == row {
          assert IsNewestEvent(init, hash, i) && init[i] == row;
        }
      }
    }
  }

  lemma SealedIff(env: Env, cell: Json, bytes: string, hash: string)
    ensures Sealed(env, cell, bytes, hash) <==> Intact(env, cell, bytes, hash)
  {
  }

  lemma SessionIff(env: Env, s: SessionRow)
    ensures VerifyStored(env, s).Ok? <==> SessionIntact(env, s)
    ensures VerifyStored(env, s) == if SessionIntact(env, s) then InspectWorld(s.snapshot) else Err(Internal)
  {
    hide InspectWorld, Sealed, Intact;
    SealedIff(env, s.snapshot, s.canonicalBytes, s.stateHash);
  }

  lemma SnapshotIff(env: Env, s: SessionRow, h: SnapshotRow)
    requires h.seqNo == s.snapshotSeq
    ensures HeadSnapshotMatches(env, s, h) <==> SnapshotRepeats(env, s, h)
  {
    hide Sealed, Intact;
    SealedIff(env, h.snapshot, h.canonicalBytes, h.stateHash);
  }

  lemma PayloadIff(env: Env, t: Tables, e: EventRow, before: SnapshotRow)
    requires e.commandId in t.commands && e.seqNo == t.session.snapshotSeq && e.identity == t.session.identity
    requires e.stateHashAfter == t.session.stateHash && before.seqNo == t.session.snapshotSeq - 1 && e.stateHashBefore == before.stateHash
    requires Intact(env, e.payload, e.canonicalBytes, e.eventHash)
    ensures PayloadMatches(e.payload, t.session.snapshotSeq, t.session.revision, e, t.commands[e.commandId].semanticId) <==>
            EventRepeats(env, t, e, before)
  {
    hide Intact;
  }

  lemma EventWith(env: Env, t: Tables, e: EventRow, before: SnapshotRow)
    requires FindSnapshot(t.snapshots, t.session.snapshotSeq - 1) == Some(before) && before.seqNo == t.session.snapshotSeq - 1
    ensures HeadEventMatches(env, t, e) <==> EventRepeats(env, t, e, before)
  {
    hide Sealed, Intact, PayloadMatches, FindSnapshot, Says;
    SealedIff(env, e.payload, e.canonicalBytes, e.eventHash);
    if e.commandId in t.commands && e.seqNo == t.session.snapshotSeq && e.identity == t.session.identity
       && e.stateHashAfter == t.session.stateHash && e.stateHashBefore == before.stateHash
       && Intact(env, e.payload, e.canonicalBytes, e.eventHash) {
      PayloadIff(env, t, e, before);
    }
  }

  lemma EventIff(env: Env, t: Tables, e: EventRow)
    ensures HeadEventMatches(env, t, e) <==>
            exists i: nat ::
              i < |t.snapshots| && IsNewest(t.snapshots, t.session.snapshotSeq - 1, i) && EventRepeats(env, t, e, t.snapshots[i])
  {
    hide EventRepeats, Sealed, PayloadMatches, FindSnapshot, IsNewest;
    var seqNo := t.session.snapshotSeq - 1;
    var found := FindSnapshot(t.snapshots, seqNo);
    if HeadEventMatches(env, t, e) {
      FindSnapshotIff(t.snapshots, seqNo, found.value);
      var i: nat :| i < |t.snapshots| && IsNewest(t.snapshots, seqNo, i) && t.snapshots[i] == found.value;
      NewestIs(t.snapshots, seqNo, i);
      EventWith(env, t, e, t.snapshots[i]);
    }
    if i: nat :| i < |t.snapshots| && IsNewest(t.snapshots, seqNo, i) && EventRepeats(env, t, e, t.snapshots[i]) {
      NewestIs(t.snapshots, seqNo, i);
      FindSnapshotIff(t.snapshots, seqNo, t.snapshots[i]);
      EventWith(env, t, e, t.snapshots[i]);
    }
  }

  lemma NewestIs(rows: seq<SnapshotRow>, seqNo: int, i: nat)
    requires IsNewest(rows, seqNo, i)
    ensures i < |rows| && rows[i].seqNo == seqNo
  {
  }

  /** The newest snapshot row repeats the session, and from the first event on its event repeats both. */
  ghost predicate HeadIntact(env: Env, t: Tables) {
    exists i: nat ::
      && i < |t.snapshots| && IsNewest(t.snapshots, t.session.snapshotSeq, i)
      && SnapshotRepeats(env, t.session, t.snapshots[i])
      && (t.session.snapshotSeq == 0 ==> t.snapshots[i].lastEventHash.None?)
      && (t.session.snapshotSeq != 0 ==>
            && t.snapshots[i].lastEventHash.Some?
            && exists j: nat, k: nat ::
                 && j < |t.events| && IsNewestEvent(t.events, t.snapshots[i].lastEventHash.value, j)
                 && k < |t.snapshots| && IsNewest(t.snapshots, t.session.snapshotSeq - 1, k)
                 && EventRepeats(env, t, t.events[j], t.snapshots[k]))
  }

  lemma HeadIff(env: Env, t: Tables)
    ensures HeadVerified(env, t) <==> HeadIntact(env, t)
  {
    hide HeadSnapshotMatches, HeadEventMatches, FindSnapshot, FindEvent, SnapshotRepeats, EventRepeats, IsNewest, IsNewestEvent;
    var s := t.session;
    var head := FindSnapshot(t.snapshots, s.snapshotSeq);
    if head.Some? {
      FindSnapshotIff(t.snapshots, s.snapshotSeq, head.value);
      var i: nat :| i < |t.snapshots| && IsNewest(t.snapshots, s.snapshotSeq, i) && t.snapshots[i] == head.value;
      NewestIs(t.snapshots, s.snapshotSeq, i);
      SnapshotIff(env, s, head.value);
      LinkedEventIff(env, t, head.value.lastEventHash);
      assert HeadVerified(env, t) ==> HeadIntact(env, t);
    }
    if HeadIntact(env, t) {
      var i: nat :|
        && i < |t.snapshots| && IsNewest(t.snapshots, s.snapshotSeq, i) && SnapshotRepeats(env, s, t.snapshots[i])
        && (s.snapshotSeq == 0 ==> t.snapshots[i].lastEventHash.None?)
        && (s.snapshotSeq != 0 ==>
              && t.snapshots[i].lastEventHash.Some?
              && exists j: nat, k: nat ::
                   && j < |t.events| && IsNewestEvent(t.events, t.snapshots[i].lastEventHash.value, j)
                   && k < |t.snapshots| && IsNewest(t.snapshots, s.snapshotSeq - 1, k) && EventRepeats(env, t, t.events[j], t.snapshots[k]));
      NewestIs(t.snapshots, s.snapshotSeq, i);
      FindSnapshotIff(t.snapshots, s.snapshotSeq, t.snapshots[i]);
      SnapshotIff(env, s, t.snapshots[i]);
      LinkedEventIff(env, t, t.snapshots[i].lastEventHash);
    }
  }

  lemma LinkedEventIff(env: Env, t: Tables, hash: Option<string>)
    ensures hash.Some? ==>
              ((FindEvent(t.events, hash.value).Some? && HeadEventMatches(env, t, FindEvent(t.events, hash.value).value)) <==>
               exists j: nat, k: nat ::
                 && j < |t.events| && k < |t.snapshots| && IsNewestEvent(t.events, hash.value, j)
                 && k < |t.snapshots| && IsNewest(t.snapshots, t.session.snapshotSeq - 1, k)
                 && EventRepeats(env, t, t.events[j], t.snapshots[k]))
  {
    hide HeadEventMatches, FindEvent, EventRepeats, IsNewest;
    if hash.Some? {
      var found := FindEvent(t.events, hash.value);
      if found.Some? {
        FindEventIff(t.events, hash.value, found.value);
        EventIff(env, t, found.value);
      }
      if j: nat, k: nat :| j < |t.events| && k < |t.snapshots| && IsNewestEvent(t.events, hash.value, j)
                           && IsNewest(t.snapshots, t.session.snapshotSeq - 1, k) && EventRepeats(env, t, t.events[j], t.snapshots[k]) {
        FindEventIff(t.events, hash.value, t.events[j]);
        EventIff(env, t, t.events[j]);
      }
    }
  }

  // ---- Actors against the world ----

  /** The kind of world actor that each kind of row stands for. */
  predicate KindNames(kind: string, worldKind: string) {
    || (kind == "player_character" && worldKind == "playerCharacter")
    || (kind == "summoned_actor" && worldKind == "summonedActor")
    || ((kind == "npc" || kind == "external_actor") && worldKind == "monster")
  }

  /** The object is this actor's: its id, its controller, its kind. */
  predicate IsActor(row: ActorRow, v: Json, worldActorId: string) {
    && v.Obj? && Says(v.fields, "id", Str(worldActorId))
    && row.controller.Some? && Says(v.fields, "controllerId", Str(row.controller.value))
    && "kind" in v.fields && v.fields["kind"].Str? && KindNames(row.kind, v.fields["kind"].text)
  }

  /** The row's projection is intact, is this actor, and is what the world holds under its id. */
  predicate RowIsActor(env: Env, row: ActorRow, world: map<string, Json>, worldActorId: string) {
    && Exact(row.projection) && row.stateHash == env.hash(CT.Text(row.projection))
    && IsActor(row, row.projection, worldActorId) && TrimSpace(worldActorId) != ""
    && worldActorId in world && world[worldActorId] == row.projection
  }

  predicate Plays(t: Tables, id: Uuid) {
    id in t.actors && t.actors[id].active && t.actors[id].kind != "world_object"
  }

  /** The id under which a row's projection is known. */
  function NameOf(row: ActorRow): string {
    if row.projection.Obj? && "id" in row.projection.fields && row.projection.fields["id"].Str? then row.projection.fields["id"].text else ""
  }

  /** Every playing row is a world actor of its own, and there are no other world actors. */
  predicate RowsAreActors(env: Env, t: Tables, world: map<string, Json>) {
    && (forall id | id in t.actors && Plays(t, id) :: RowIsActor(env, t.actors[id], world, NameOf(t.actors[id])))
    && (forall a, b | a in t.actors && b in t.actors && Plays(t, a) && Plays(t, b) && a != b :: NameOf(t.actors[a]) != NameOf(t.actors[b]))
    && |set id | id in t.actors && Plays(t, id)| == |world|
  }

  lemma KindIff(row: ActorRow, v: Json, worldActorId: string)
    ensures CarriesIdentity(row, v, worldActorId) <==> IsActor(row, v, worldActorId)
  {
  }

  lemma RowIff(env: Env, row: ActorRow, world: map<string, Json>)
    requires forall k | k in world :: Exact(world[k])
    ensures ActorBound(env, row, world) <==> RowIsActor(env, row, world, NameOf(row))
    ensures WorldIdOf(row) == NameOf(row)
  {
    hide CarriesIdentity, IsActor, Exact, CT.Text;
    KindIff(row, row.projection, NameOf(row));
    if Exact(row.projection) && NameOf(row) in world && CanonicalBytes(world[NameOf(row)]) == CanonicalBytes(row.projection) {
      CanonicalRoundTrip.TextInjective(world[NameOf(row)], row.projection);
    }
  }

  lemma ActiveAre(t: Tables)
    ensures forall id :: id in ActiveActors(t) <==> Plays(t, id)
    ensures forall id | id in ActiveActors(t) :: id in t.actors && ActiveActors(t)[id] == t.actors[id]
    ensures |ActiveActors(t)| == |set id | id in t.actors && Plays(t, id)|
  {
    assert ActiveActors(t).Keys == set id | id in t.actors && Plays(t, id);
  }

  lemma BoundIff(env: Env, t: Tables, world: map<string, Json>)
    requires forall k | k in world :: Exact(world[k])
    ensures ActorsBound(env, ActiveActors(t), world) <==> RowsAreActors(env, t, world)
  {
    hide ActorBound, RowIsActor, WorldIdOf, NameOf, Exact, ActiveActors, Plays;
    ActiveAre(t);
    forall row ensures (ActorBound(env, row, world) <==> RowIsActor(env, row, world, NameOf(row))) && WorldIdOf(row) == NameOf(row) {
      RowIff(env, row, world);
    }
    var actors := ActiveActors(t);
    if RowsAreActors(env, t, world) {
      forall id | id in actors ensures ActorBound(env, actors[id], world) {
        assert Plays(t, id) && RowIsActor(env, t.actors[id], world, NameOf(t.actors[id]));
      }
    }
    if ActorsBound(env, actors, world) {
      forall id | id in t.actors && Plays(t, id) ensures RowIsActor(env, t.actors[id], world, NameOf(t.actors[id])) {
        assert ActorBound(env, actors[id], world);
      }
    }
  }

  // ---- Reading a session ----

  /**
   * A session is shown to an active member, whatever its role, if and only if
   * session row, newest snapshot, its event and every actor agree to the byte;
   * what is shown are the stored columns and one binding per playing actor.
   */
  lemma CurrentIff(env: Env, t: Tables, user: Uuid, ids: seq<Uuid>)
    requires Lists(ids, ActiveActors(t))
    ensures var result := ReadCurrent(env, t, user, ids);
            if user !in t.members then result == Err(Forbidden)
            else if SessionIntact(env, t.session) && HeadIntact(env, t)
                    && RowsAreActors(env, t, InspectWorld(t.session.snapshot).value.actors) then
              && result.Ok?
              && result.value.identity == t.session.identity && result.value.revision == t.session.revision
              && result.value.snapshotSeq == t.session.snapshotSeq && result.value.stateHash == t.session.stateHash
              && result.value.schemaVersion == t.session.schemaVersion && result.value.snapshotText == CT.Text(t.session.snapshot)
              && result.value.authority == "client_semantics_unverified" && result.value.schemaValidation == "partial_unverified"
              && |result.value.bindings| == |ids|
              && forall i | 0 <= i < |ids| ::
                   ids[i] in t.actors && result.value.bindings[i] == ActorBinding(ids[i], NameOf(t.actors[ids[i]]))
            else result == Err(Internal)
  {
    hide VerifyStored, InspectWorld, HeadVerified, HeadIntact, ActorsBound, RowsAreActors, ActiveActors, WorldIdOf, NameOf, Exact, CT.Text;
    SessionIff(env, t.session);
    HeadIff(env, t);
    ActiveAre(t);
    forall row ensures WorldIdOf(row) == NameOf(row) { NameIs(row); }
    if SessionIntact(env, t.session) {
      ExactParts(t.session.snapshot);
      BoundIff(env, t, InspectWorld(t.session.snapshot).value.actors);
    }
  }

  lemma NameIs(row: ActorRow)
    ensures WorldIdOf(row) == NameOf(row)
  {
  }

  // ---- Receipts ----

  /** The stored answer repeats what the request asked for. */
  predicate AnswersRequest(sessionId: Uuid, r: Request, response: Response) {
    && response.identity.sessionId == sessionId && response.identity.releaseId == r.releaseId
    && response.identity.artifactHash == r.artifactHash && response.identity.serializer == r.serializer
    && response.commandId == r.commandId && response.semanticCommandId == r.semanticCommandId && response.stateHash == r.stateHash
    && response.authority == "client_semantics_unverified" && response.schemaValidation == "partial_unverified"
  }

  /**
   * Whatever is stored under a command id, it answers only its caller's very
   * request, once committed; an answer that is not intact or does not fit the
   * request is an internal error, never given out.
   */
  lemma ReceiptIff(env: Env, t: Tables, user: Uuid, p: Prepared)
    ensures var result := LoadReceipt(env, t, user, p);
            if p.request.commandId !in t.commands then result == Ok(None)
            else
              var c := t.commands[p.request.commandId];
              if c.controller != user || c.requestHash != p.requestHash || c.status != Committed then result == Err(Conflict)
              else if Intact(env, c.result, c.resultBytes, c.resultHash) && ReadResponse(c.result).Some?
                      && AnswersRequest(t.session.identity.sessionId, p.request, ReadResponse(c.result).value) then
                result == Ok(Some(ReadResponse(c.result).value))
              else result == Err(Internal)
  {
    hide Sealed, Intact, ReadResponse;
    if p.request.commandId in t.commands {
      var c := t.commands[p.request.commandId];
      SealedIff(env, c.result, c.resultBytes, c.resultHash);
    }
  }

  // ---- The stored form of an answer ----

  predicate SaysCommand(f: map<string, Json>, r: Response) {
    && Says(f, "sessionId", Str(r.identity.sessionId)) && Says(f, "commandId", Str(r.commandId))
    && Says(f, "semanticCommandId", Str(r.semanticCommandId))
  }

  predicate SaysRelease(f: map<string, Json>, r: Response) {
    && Says(f, "rulesetReleaseId", Str(r.identity.releaseId)) && Says(f, "rulesArtifactHash", Str(r.identity.artifactHash))
    && Says(f, "serializerVersion", Str(r.identity.serializer))
  }

  predicate SaysState(f: map<string, Json>, r: Response) {
    && Says(f, "revision", Num(r.revision)) && Says(f, "snapshotSeq", Num(r.snapshotSeq)) && Says(f, "stateHash", Str(r.stateHash))
    && Says(f, "eventSeq", Num(r.eventSeq)) && Says(f, "eventHash", Str(r.eventHash))
  }

  predicate SaysClaims(f: map<string, Json>, r: Response) {
    && Says(f, "semanticAuthority", Str(r.authority)) && Says(f, "schemaValidation", Str(r.schemaValidation))
    && Says(f, "idempotent", Bool(r.idempotent))
  }

  /** The hash of each actor, and the decision with its status if there is one. */
  predicate SaysParts(f: map<string, Json>, r: Response) {
    && "actorProjectionHashes" in f && f["actorProjectionHashes"].Obj?
    && f["actorProjectionHashes"].fields.Keys == r.projectionHashes.Keys
    && (forall id | id in r.projectionHashes :: f["actorProjectionHashes"].fields[id] == Str(r.projectionHashes[id]))
    && if r.decision.None? then "decision" !in f
       else
         Says(f, "decision", Obj(map["requestId" := Str(r.decision.value.requestId),
                                     "status" := Str(if r.decision.value.open then "open" else "resolved")]))
  }

  /** The members of a stored answer, by name. */
  lemma AnswerWritten(r: Response)
    ensures ResponseJson(r).Obj?
    ensures var f := ResponseJson(r).fields;
            SaysCommand(f, r) && SaysRelease(f, r) && SaysState(f, r) && SaysClaims(f, r) && SaysParts(f, r)
    ensures ResponseJson(r).fields.Keys ==
            {"sessionId", "commandId", "semanticCommandId", "rulesetReleaseId", "rulesArtifactHash", "serializerVersion", "revision",
             "snapshotSeq", "stateHash", "eventSeq", "eventHash", "actorProjectionHashes", "semanticAuthority", "schemaValidation",
             "idempotent"} + (if r.decision.Some? then {"decision"} else {})
  {
    hide ResponseJson, SaysCommand, SaysRelease, SaysState, SaysClaims, SaysParts;
    AnswerKeys(r);
    CommandWritten(r);
    ReleaseWritten(r);
    StateWritten(r);
    ClaimsWritten(r);
    PartsWritten(r);
  }

  lemma AnswerKeys(r: Response)
    ensures ResponseJson(r).Obj?
    ensures ResponseJson(r).fields.Keys ==
            {"sessionId", "commandId", "semanticCommandId", "rulesetReleaseId", "rulesArtifactHash", "serializerVersion", "revision",
             "snapshotSeq", "stateHash", "eventSeq", "eventHash", "actorProjectionHashes", "semanticAuthority", "schemaValidation",
             "idempotent"} + (if r.decision.Some? then {"decision"} else {})
  {
    hide TextMapJson, DecisionJson;
  }

  lemma CommandWritten(r: Response)
    ensures ResponseJson(r).Obj? && SaysCommand(ResponseJson(r).fields, r)
  {
    hide TextMapJson, DecisionJson;
  }

  lemma ReleaseWritten(r: Response)
    ensures ResponseJson(r).Obj? && SaysRelease(ResponseJson(r).fields, r)
  {
    hide TextMapJson, DecisionJson;
  }

  lemma StateWritten(r: Response)
    ensures ResponseJson(r).Obj? && SaysState(ResponseJson(r).fields, r)
  {
    hide TextMapJson, DecisionJson;
  }

  lemma ClaimsWritten(r: Response)
    ensures ResponseJson(r).Obj? && SaysClaims(ResponseJson(r).fields, r)
  {
    hide TextMapJson, DecisionJson;
  }

  lemma PartsWritten(r: Response)
    ensures ResponseJson(r).Obj? && SaysParts(ResponseJson(r).fields, r)
  {
    hide TextMapJson;
    TextsWritten(r.projectionHashes);
  }

  lemma TextsWritten(m: map<string, string>)
    ensures TextMapJson(m).Obj? && TextMapJson(m).fields.Keys == m.Keys
    ensures forall id | id in m :: TextMapJson(m).fields[id] == Str(m[id])
  {
  }

  /** A stored answer may lack members or hold others in their place: they read as the empty text and zero. */
  lemma AnswerRead(f: map<string, Json>, k: string)
    ensures TextAt(f, k) == (if k in f && f[k].Str? then f[k].text else "")
    ensures IntAt(f, k) == (if k in f && f[k].Num? then f[k].n else 0)
  {
  }
}
