/** The session store: tables as fields, one transaction per method. */
module LedgerStore {
  import opened JsonValues
  import opened Outcomes
  import opened TextRules
  import opened WorldState
  import opened LedgerTables
  import opened LedgerRules
  import opened LedgerChain
  import opened LedgerActors
  import opened LedgerDecisions
  import opened LedgerRuns
  import opened LedgerAcceptance
  import CanonicalJson
  import CanonicalRoundTrip
  import CT = CanonicalText

  // ---- Bindings of the stored actors ----

  function BindingsOf(actors: map<Uuid, ActorRow>, ids: seq<Uuid>): (bindings: seq<ActorBinding>)
    requires forall i | 0 <= i < |ids| :: ids[i] in actors
    ensures |bindings| == |ids|
    ensures forall i | 0 <= i < |ids| :: bindings[i] == ActorBinding(ids[i], WorldIdOf(actors[ids[i]]))
  {
    seq(|ids|, i requires 0 <= i < |ids| => ActorBinding(ids[i], WorldIdOf(actors[ids[i]])))
  }

  /** The rows in the order the query returns them. */
  predicate Lists(ids: seq<Uuid>, actors: map<Uuid, ActorRow>) {
    Distinct(ids) && (forall i | 0 <= i < |ids| :: ids[i] in actors) && |ids| == |actors|
  }

  lemma UnboundRow(env: Env, actors: map<Uuid, ActorRow>, world: map<string, Json>, id: Uuid)
    requires id in actors && !ActorBound(env, actors[id], world)
    ensures !ActorsBound(env, actors, world)
  {
    hide ActorBound;
  }

  /** Distinct rows make as many world identities as there are rows. */
  lemma SeenSize(actors: map<Uuid, ActorRow>, ids: seq<Uuid>, n: nat, seen: set<string>)
    requires n <= |ids| && forall i | 0 <= i < |ids| :: ids[i] in actors
    requires seen == set i | 0 <= i < n :: WorldIdOf(actors[ids[i]])
    requires forall i, j | 0 <= i < j < n :: WorldIdOf(actors[ids[i]]) != WorldIdOf(actors[ids[j]])
    ensures |seen| == n
  {
    if n > 0 {
      var last := WorldIdOf(actors[ids[n - 1]]);
      var fewer := set i | 0 <= i < n - 1 :: WorldIdOf(actors[ids[i]]);
      assert seen == fewer + {last} && last !in fewer;
      SeenSize(actors, ids, n - 1, fewer);
    }
  }

  lemma AllBound(env: Env, actors: map<Uuid, ActorRow>, ids: seq<Uuid>, world: map<string, Json>)
    requires Lists(ids, actors) && |ids| == |world|
    requires forall i | 0 <= i < |ids| :: ActorBound(env, actors[ids[i]], world)
    requires forall i, j | 0 <= i < j < |ids| :: WorldIdOf(actors[ids[i]]) != WorldIdOf(actors[ids[j]])
    ensures ActorsBound(env, actors, world)
  {
    hide ActorBound, WorldIdOf;
    assert |actors| == |actors.Keys|;
    DistinctCover(ids, actors.Keys);
    forall id | id in actors ensures ActorBound(env, actors[id], world) {
      var i :| 0 <= i < |ids| && ids[i] == id;
    }
    forall a, b | a in actors && b in actors && a != b ensures WorldIdOf(actors[a]) != WorldIdOf(actors[b]) {
      var i :| 0 <= i < |ids| && ids[i] == a;
      var j :| 0 <= j < |ids| && ids[j] == b;
    }
  }

  /** Matches rows with world actors one by one; succeeds exactly on a one-to-one correspondence. */
  method InferBindings(env: Env, actors: map<Uuid, ActorRow>, ids: seq<Uuid>, world: map<string, Json>)
    returns (r: Result<seq<ActorBinding>, Problem>)
    requires Lists(ids, actors)
    ensures r == if ActorsBound(env, actors, world) then Ok(BindingsOf(actors, ids)) else Err(Internal)
  {
    hide ActorBound, WorldIdOf;
    var bindings: seq<ActorBinding> := [];
    var seen: set<string> := {};
    var index := 0;
    while index < |ids|
      invariant 0 <= index <= |ids| && |bindings| == index
      invariant forall i | 0 <= i < index :: bindings[i] == ActorBinding(ids[i], WorldIdOf(actors[ids[i]]))
      invariant forall i | 0 <= i < index :: ActorBound(env, actors[ids[i]], world)
      invariant seen == set i | 0 <= i < index :: WorldIdOf(actors[ids[i]])
      invariant forall i, j | 0 <= i < j < index :: WorldIdOf(actors[ids[i]]) != WorldIdOf(actors[ids[j]])
    {
      var row := actors[ids[index]];
      if !ActorBound(env, row, world) {
        UnboundRow(env, actors, world, ids[index]);
        return Err(Internal);
      }
      var worldActorId := WorldIdOf(row);
      if worldActorId in seen {
        ghost var earlier :| 0 <= earlier < index && WorldIdOf(actors[ids[earlier]]) == worldActorId;
        assert ids[earlier] != ids[index];
        return Err(Internal);
      }
      seen := seen + {worldActorId};
      bindings := bindings + [ActorBinding(ids[index], worldActorId)];
      index := index + 1;
    }
    SeenSize(actors, ids, |ids|, seen);
    if |seen| != |world| {
      return Err(Internal);
    }
    AllBound(env, actors, ids, world);
    assert bindings == BindingsOf(actors, ids);
    return Ok(bindings);
  }

  // ---- Reading ----

  datatype SessionView = SessionView(
    identity: Identity, revision: int, snapshotSeq: int, stateHash: string, schemaVersion: int,
    snapshotText: string, bindings: seq<ActorBinding>, authority: string, schemaValidation: string)

  function ReadCurrent(env: Env, t: Tables, user: Uuid, ids: seq<Uuid>): Result<SessionView, Problem>
    requires Lists(ids, ActiveActors(t))
  {
    if user !in t.members then Err(Forbidden)
    else
      var world :- VerifyStored(env, t.session);
      if !HeadVerified(env, t) then Err(Internal)
      else if !ActorsBound(env, ActiveActors(t), world.actors) then Err(Internal)
      else
        var s := t.session;
        Ok(SessionView(s.identity, s.revision, s.snapshotSeq, s.stateHash, s.schemaVersion, s.canonicalBytes,
                       BindingsOf(ActiveActors(t), ids), AUTHORITY, SCHEMA_VALIDATION))
  }

  /**
   * Every active member, observers included, can read a session in order whose
   * actors are bound; the text it gets decodes to the stored snapshot, and the
   * bindings name exactly the active actors with their world identities.
   */
  lemma CurrentReadable(env: Env, t: Tables, user: Uuid, ids: seq<Uuid>)
    requires Inv(env, t) && Bound(env, t) && user in t.members && Lists(ids, ActiveActors(t))
    ensures ReadCurrent(env, t, user, ids).Ok?
    ensures var view := ReadCurrent(env, t, user, ids).value;
            && CanonicalJson.Decode(view.snapshotText) == Ok(t.session.snapshot)
            && env.hash(view.snapshotText) == view.stateHash && view.snapshotSeq == |t.events|
            && (forall id | id in ActiveActors(t) ::
                  exists i :: 0 <= i < |view.bindings|
                              && view.bindings[i] == ActorBinding(id, WorldIdOf(ActiveActors(t)[id])))
  {
    hide VerifyStored, HeadVerified, InspectWorld, ActorsBound, DeciderBound, PendingLedger, DecisionKeys, ActiveActors, CT.Text, Exact,
         Events, Commands, WorldIdOf, CanonicalJson.Decode;
    HeadAccepted(env, t);
    assert SnapshotAt(env, t.session.identity, t.snapshots[0].revision, |t.events|, t.snapshots[|t.events|]);
    StoredExact(env, t);
    CanonicalRoundTrip.RoundTrip(t.session.snapshot);
    var actors := ActiveActors(t);
    assert |actors| == |actors.Keys|;
    DistinctCover(ids, actors.Keys);
    var bindings := BindingsOf(actors, ids);
    forall id | id in actors ensures exists i :: 0 <= i < |bindings| && bindings[i] == ActorBinding(id, WorldIdOf(actors[id])) {
      var i :| 0 <= i < |ids| && ids[i] == id;
      assert bindings[i] == ActorBinding(id, WorldIdOf(actors[id]));
    }
  }

  // ---- The store ----

  class Store {
    const env: Env
    var session: SessionRow
    var members: map<Uuid, Member>
    var actors: map<Uuid, ActorRow>
    var commands: map<Uuid, CommandRow>
    var events: seq<EventRow>
    var snapshots: seq<SnapshotRow>
    var decisions: seq<DecisionRow>

    constructor (env: Env, t: Tables)
      ensures View() == t && this.env == env
    {
      this.env := env;
      session, members, actors, commands := t.session, t.members, t.actors, t.commands;
      events, snapshots, decisions := t.events, t.snapshots, t.decisions;
    }

    function View(): Tables
      reads this
    {
      Tables(session, members, actors, commands, events, snapshots, decisions)
    }

    ghost predicate Valid()
      reads this
    {
      Inv(env, View())
    }

    /** What an active member sees; reading writes nothing. */
    method GetCurrent(user: Uuid, ids: seq<Uuid>) returns (r: Result<SessionView, Problem>)
      requires Lists(ids, ActiveActors(View()))
      ensures r == ReadCurrent(env, View(), user, ids)
    {
      hide ActorsBound, VerifyStored, HeadVerified, ActiveActors;
      if user !in members {
        return Err(Forbidden);
      }
      var stored := VerifyStored(env, session);
      if stored.Err? {
        return Err(stored.error);
      }
      if !HeadVerified(env, View()) {
        return Err(Internal);
      }
      var bindings := InferBindings(env, ActiveActors(View()), ids, stored.value.actors);
      if bindings.Err? {
        return Err(bindings.error);
      }
      return Ok(SessionView(session.identity, session.revision, session.snapshotSeq, session.stateHash,
                            session.schemaVersion, session.canonicalBytes, bindings.value, AUTHORITY, SCHEMA_VALIDATION));
    }

    /** Writes the projections of one transition row by row. */
    method UpdateProjections(updates: seq<Projection>, schemaVersion: int, seqNo: int)
      modifies this`actors
      ensures actors == UpdateActors(old(actors), updates, schemaVersion, seqNo)
    {
      var index := 0;
      assert updates[0..] == updates;
      while index < |updates|
        invariant 0 <= index <= |updates|
        invariant UpdateActors(actors, updates[index..], schemaVersion, seqNo) ==
                  UpdateActors(old(actors), updates, schemaVersion, seqNo)
      {
        var u := updates[index];
        assert updates[index..][0] == u && updates[index..][1..] == updates[index + 1..];
        if u.actorId in actors {
          actors := actors[u.actorId := actors[u.actorId].(
            projection := StoredJson(u.bytes), stateHash := u.stateHash,
            schemaVersion := schemaVersion, projectionSeq := seqNo)];
        }
        index := index + 1;
      }
    }

    /** The writes of one transition in their order; the caller undoes them when one is rejected. */
    method Write(user: Uuid, now: string, p: Prepared, updates: seq<Projection>, plan: DecisionPlan)
      returns (r: Result<Response, Problem>)
      requires Exact(p.body) && p.request.commandId !in commands
      modifies this
      ensures match Commit(env, old(View()), user, now, p, updates, plan)
              case Ok((after, response)) => View() == after && r == Ok(response)
              case Err(e) => r == Err(e)
    {
      hide EventBody, ApplyDecision, MaxSeq, CommittedResponse, UpdateActors, StoredJson, ResponseJson, CT.Text, Exact, NewEvent,
           NewSnapshot, NewHead;
      ghost var before := View();
      var s := session;
      var eventSeq := MaxSeq(events) + 1;
      var body := EventBody(s, p, eventSeq, now);
      if !Exact(body) {
        return Err(Internal);
      }
      if exists id | id in commands :: commands[id].semanticId == p.request.semanticCommandId {
        return Err(Conflict);
      }
      commands := commands[p.request.commandId := CommandRow(
        p.request.semanticCommandId, user, CT.Text(p.body), p.requestHash, Executing, Null, "", "")];
      var event := NewEvent(env, s, p, eventSeq, CT.Text(body));
      if exists e | e in events :: e.seqNo == eventSeq || e.eventHash == event.eventHash {
        return Err(Conflict);
      }
      events := events + [event];
      var decided := ApplyDecision(env, decisions, p, plan, eventSeq);
      if decided.Err? {
        return Err(decided.error);
      }
      decisions := decided.value.0;
      if !env.schemaAccepts(p.snapshot) {
        return Err(Unprocessable);
      }
      if exists h | h in snapshots :: h.seqNo == s.snapshotSeq + 1 {
        return Err(Conflict);
      }
      snapshots := snapshots + [NewSnapshot(s, p, event.eventHash)];
      UpdateProjections(updates, p.request.schemaVersion, s.snapshotSeq + 1);
      session := NewHead(s, p);
      var response := CommittedResponse(s, p, eventSeq, event.eventHash, updates, decided.value.1);
      var receipt := CommittedCommand(env, user, p, response);
      var executing := commands[p.request.commandId];
      commands := commands[p.request.commandId := executing.(
        status := Committed, result := receipt.result, resultBytes := receipt.resultBytes, resultHash := receipt.resultHash)];
      assert commands == before.commands[p.request.commandId := receipt];
      return Ok(response);
    }

    /** Replays a receipt, or commits: all of the writes or none of them. */
    method Settle(user: Uuid, now: string, p: Prepared) returns (r: Result<Response, Problem>)
      requires Exact(p.body)
      modifies this
      ensures match Transition(env, old(View()), user, now, p)
              case Ok((after, response)) => View() == after && r == Ok(response)
              case Err(e) => View() == old(View()) && r == Err(e)
    {
      hide Admit, Commit, Exact, Admitted;
      var admission := Admit(env, View(), user, p);
      if admission.Err? {
        return Err(admission.error);
      }
      if admission.value.Replay? {
        return Ok(admission.value.response);
      }
      var Fresh(base, updates, plan) := admission.value;
      AdmitMeaning(env, View(), user, p, base, updates, plan);
      FreshUnused(env, View(), user, p, base, updates, plan);
      var s, m, a, c, e, h, d := session, members, actors, commands, events, snapshots, decisions;
      r := Write(user, now, p, updates, plan);
      if r.Err? {
        session, members, actors, commands, events, snapshots, decisions := s, m, a, c, e, h, d;
      }
    }

    /** One transition on a request body. */
    method ApplyTransition(user: Uuid, now: string, raw: string) returns (r: Result<Response, Problem>)
      requires Valid()
      modifies this
      ensures Valid()
      ensures match Apply(env, old(View()), user, now, raw)
              case Ok((after, response)) => View() == after && r == Ok(response)
              case Err(e) => View() == old(View()) && r == Err(e)
      ensures Later(old(View()), View())
    {
      hide Inv, Prepare, Transition, Later, Exact;
      SubmitKeeps(env, View(), user, now, raw);
      LaterReflexive(View());
      var prepared := Prepare(env, raw);
      if prepared.Err? {
        return Err(prepared.error);
      }
      r := Settle(user, now, prepared.value);
    }
  }
}
