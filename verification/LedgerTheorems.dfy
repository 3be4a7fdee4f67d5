/** What runs of a session guarantee to its callers. */
module LedgerTheorems {
  import opened JsonValues
  import opened Outcomes
  import opened TextRules
  import opened WorldState
  import opened LedgerTables
  import opened LedgerRules
  import opened LedgerChain
  import opened LedgerActors
  import opened LedgerDecisions
  import opened LedgerRuns
  import CanonicalJson
  import CanonicalRoundTrip
  import CT = CanonicalText

  // ---- Exact retries ----

  /** A request is its decoded value: white space and key order do not matter. */
  lemma PrepareReadsValue(env: Env, raw: string, again: string)
    requires CanonicalJson.Decode(again) == CanonicalJson.Decode(raw)
    requires Utf8Length(raw) <= MAX_BODY_BYTES && Utf8Length(again) <= MAX_BODY_BYTES
    ensures Prepare(env, again) == Prepare(env, raw)
  {
    hide CheckEnvelope, InspectWorld, CanonicalJson.Decode, Utf8Length, Exact, CT.Text;
  }

  /** A receipt lookup depends only on the receipt and the session's identity. */
  lemma ReceiptStays(env: Env, t: Tables, after: Tables, user: Uuid, p: Prepared)
    requires Later(t, after) && p.request.commandId in t.commands
    ensures LoadReceipt(env, after, user, p) == LoadReceipt(env, t, user, p)
  {
    hide Sealed, ReadResponse;
  }

  /** The receipt a commit leaves answers its own request. */
  lemma ReceiptReadable(env: Env, t: Tables, user: Uuid, p: Prepared, response: Response)
    requires Commands(env, t) && WellPrepared(env, p) && StoresResponse(t, user, p, response)
    ensures LoadReceipt(env, t, user, p) == Ok(Some(response))
  {
    hide ReadResponse, Sealed, CheckEnvelope, InspectWorld, CT.Text, CanonicalJson.Decode;
    assert CommandAt(env, t.session.identity, p.request.commandId, t.commands[p.request.commandId]);
  }

  /** A known command id is answered from its receipt, or refused. */
  lemma KnownCommand(env: Env, t: Tables, user: Uuid, now: string, p: Prepared)
    requires Inv(env, t) && Exact(p.body) && p.request.commandId in t.commands
    requires p.request.releaseId == t.session.identity.releaseId && p.request.artifactHash == t.session.identity.artifactHash
    ensures Transition(env, t, user, now, p) ==
            if user !in t.members || t.members[user].role == Observer then Err(Forbidden)
            else match LoadReceipt(env, t, user, p)
                 case Ok(Some(response)) => Ok((t, response))
                 case Ok(None) => Err(Internal)
                 case Err(e) => Err(e)
  {
    hide VerifyStored, HeadVerified, InspectWorld, Sealed, ReadResponse, ReceiptMatches, AdmitFresh, Commit, Chain,
         PendingLedger, DecisionKeys;
    HeadAccepted(env, t);
  }

  /** Right after it is answered, a command's receipt gives the same answer. */
  lemma AnsweredHasReceipt(env: Env, t: Tables, user: Uuid, now: string, p: Prepared)
    requires Inv(env, t) && WellPrepared(env, p) && Transition(env, t, user, now, p).Ok?
    ensures var (after, response) := Transition(env, t, user, now, p).value;
            && p.request.commandId in after.commands
            && LoadReceipt(env, after, user, p) == Ok(Some(response))
            && after.session.identity == t.session.identity
  {
    hide Transition, LoadReceipt, WellPrepared, StoresResponse, Chain, PendingLedger, DecisionKeys,
         ActorsBound, ActorsChange, DecisionsGrow, ReportsLedger, InspectWorld;
    WellExact(env, p);
    TransitionKeeps(env, t, user, now, p);
    var (after, response) := Transition(env, t, user, now, p).value;
    if p.request.commandId !in t.commands {
      StoredKey(after, user, p, response);
      ChainCommands(env, after);
      ReceiptReadable(env, after, user, p, response);
    }
  }

  lemma StoredKey(t: Tables, user: Uuid, p: Prepared, response: Response)
    requires StoresResponse(t, user, p, response)
    ensures p.request.commandId in t.commands
  {
  }

  lemma ChainCommands(env: Env, t: Tables)
    requires Chain(env, t)
    ensures Commands(env, t)
  {
  }

  /**
   * After a command is answered, the same JSON value sent again by the same
   * caller, however it is spelled and whatever happened in between, gets the
   * same response and changes nothing, as long as the caller is an active
   * member who is not an observer; otherwise it is forbidden.
   */
  lemma ExactRetry(env: Env, t: Tables, user: Uuid, now: string, raw: string,
                   actions: seq<Action>, later: string, again: string)
    requires Inv(env, t) && Apply(env, t, user, now, raw).Ok?
    requires CanonicalJson.Decode(again) == CanonicalJson.Decode(raw) && Utf8Length(again) <= MAX_BODY_BYTES
    ensures var (answered, response) := Apply(env, t, user, now, raw).value;
            var t2 := Run(env, answered, actions);
            Apply(env, t2, user, later, again) ==
              if user in t2.members && t2.members[user].role != Observer then Ok((t2, response)) else Err(Forbidden)
  {
    hide Transition, Prepare, WellPrepared, LoadReceipt, Inv, Later, Run;
    var p := Prepare(env, raw).value;
    PreparedIsWell(env, raw);
    PreparedWithinSize(env, raw);
    PrepareReadsValue(env, raw, again);
    var (answered, response) := Transition(env, t, user, now, p).value;
    TransitionKeeps(env, t, user, now, p);
    AnsweredHasReceipt(env, t, user, now, p);
    RunKeeps(env, answered, actions);
    var t2 := Run(env, answered, actions);
    ReceiptStays(env, answered, t2, user, p);
    LaterKeys(answered, t2, p.request.commandId);
    WellExact(env, p);
    KnownCommand(env, t2, user, later, p);
  }

  /** The caller is made an observer. */
  function Demotion(user: Uuid): Action {
    SetMembers(map[user := MemberRow(Observer, false)])
  }

  /**
   * An exact retry can fail although the caller is still a member: whoever was
   * made an observer after the answer is forbidden to read it again.
   */
  lemma DemotedRetryForbidden(env: Env, t: Tables, user: Uuid, now: string, raw: string, later: string)
    requires Inv(env, t) && Apply(env, t, user, now, raw).Ok?
    ensures var t2 := Run(env, Apply(env, t, user, now, raw).value.0, [Demotion(user)]);
            user in t2.members && Apply(env, t2, user, later, raw) == Err(Forbidden)
  {
    hide Transition, Prepare, Inv, Apply;
    var answered := Apply(env, t, user, now, raw).value.0;
    assert [Demotion(user)][1..] == [];
    assert Run(env, answered, [Demotion(user)]) == Run(env, Step(env, answered, Demotion(user)), []) == Step(env, answered, Demotion(user));
    AcceptedWithinSize(env, t, user, now, raw);
    ExactRetry(env, t, user, now, raw, [Demotion(user)], later, raw);
  }

  lemma AcceptedWithinSize(env: Env, t: Tables, user: Uuid, now: string, raw: string)
    requires Apply(env, t, user, now, raw).Ok?
    ensures Utf8Length(raw) <= MAX_BODY_BYTES
  {
    hide Transition, Prepare;
    PreparedWithinSize(env, raw);
  }

  lemma PreparedWithinSize(env: Env, raw: string)
    requires Prepare(env, raw).Ok?
    ensures Utf8Length(raw) <= MAX_BODY_BYTES
  {
    hide CheckEnvelope, InspectWorld, CanonicalJson.Decode;
  }

  lemma WellExact(env: Env, p: Prepared)
    requires WellPrepared(env, p)
    ensures Exact(p.body)
  {
  }

  lemma LaterKeys(t: Tables, after: Tables, id: Uuid)
    requires Later(t, after) && id in t.commands
    ensures id in after.commands && after.session.identity == t.session.identity
  {
  }

  /**
   * A command id that was used can never stand for anything else: a different
   * value or a different caller is refused, provided the hash tells the two
   * values apart.
   */
  lemma OtherInputRefused(env: Env, t: Tables, user: Uuid, now: string, p: Prepared)
    requires Inv(env, t) && WellPrepared(env, p) && p.request.commandId in t.commands
    requires var c := t.commands[p.request.commandId];
             c.controller != user || env.hash(CT.Text(p.body)) != c.requestHash
    ensures Transition(env, t, user, now, p) ==
            if user !in t.members || t.members[user].role == Observer then Err(Forbidden) else Err(Conflict)
  {
    hide VerifyStored, HeadVerified, InspectWorld, Sealed, ReadResponse, ReceiptMatches, AdmitFresh, Commit, Chain,
         PendingLedger, DecisionKeys, CheckEnvelope, CT.Text;
    HeadAccepted(env, t);
  }

  /** With distinct hashes for distinct texts, only the stored value itself is answered. */
  lemma OnlyStoredValueAnswered(env: Env, t: Tables, user: Uuid, now: string, p: Prepared)
    requires Inv(env, t) && WellPrepared(env, p) && p.request.commandId in t.commands
    requires var stored := t.commands[p.request.commandId].bodyBytes;
             env.hash(stored) == env.hash(CT.Text(p.body)) ==> stored == CT.Text(p.body)
    requires user in t.members && t.members[user].role != Observer
    ensures var c := t.commands[p.request.commandId];
            && (Transition(env, t, user, now, p).Ok? <==> c.controller == user && CanonicalJson.Decode(c.bodyBytes) == Ok(p.body))
            && (Transition(env, t, user, now, p).Ok? ==>
                  Some(Transition(env, t, user, now, p).value.1) == ReadResponse(c.result)
                  && Transition(env, t, user, now, p).value.0 == t)
            && (Transition(env, t, user, now, p).Err? ==> Transition(env, t, user, now, p) == Err(Conflict))
  {
    hide Transition, InspectWorld, Sealed, ReadResponse, PendingLedger, DecisionKeys, CheckEnvelope, Snapshots,
         Events, CanonicalJson.Decode;
    var c := t.commands[p.request.commandId];
    CanonicalRoundTrip.RoundTrip(p.body);
    assert CommandAt(env, t.session.identity, p.request.commandId, c);
    var body := CanonicalJson.Decode(c.bodyBytes).value;
    if c.controller == user && c.requestHash == p.requestHash {
      assert body == p.body;
      KnownCommand(env, t, user, now, p);
    } else {
      OtherInputRefused(env, t, user, now, p);
      if body == p.body {
        assert c.bodyBytes == CT.Text(p.body);
      }
    }
  }

  // ---- One command, one event, one snapshot ----

  /** Each command has exactly one event. */
  lemma OneEventPerCommand(env: Env, t: Tables, id: Uuid)
    requires Chain(env, t)
    ensures id in t.commands <==> exists k :: 0 <= k < |t.events| && t.events[k].commandId == id
    ensures forall i, j | 0 <= i < |t.events| && 0 <= j < |t.events| && t.events[i].commandId == id && t.events[j].commandId == id :: i == j
  {
    hide CommandAt, Snapshots, EventAt;
    if id in t.commands {
      var e :| e in t.events && e.commandId == id;
      var k :| 0 <= k < |t.events| && t.events[k] == e;
      assert t.events[k].commandId == id;
    }
  }

  lemma EventLinks(env: Env, t: Tables, k: nat)
    requires Events(env, t) && k < |t.events|
    ensures t.snapshots[k + 1].lastEventHash == Some(t.events[k].eventHash)
    ensures t.events[k].stateHashBefore == t.snapshots[k].stateHash
    ensures t.events[k].stateHashAfter == t.snapshots[k + 1].stateHash
  {
    hide PayloadMatches, Sealed, Succeeds, InspectWorld;
    assert EventAt(env, k, t.snapshots[k], t.snapshots[k + 1], t.events[k], t.commands[t.events[k].commandId].semanticId);
  }

  /** Each event has exactly one snapshot, the one right after the snapshot it started from. */
  lemma OneSnapshotPerEvent(env: Env, t: Tables, k: nat, j: nat)
    requires Snapshots(env, t) && Events(env, t) && k < |t.events| && j < |t.snapshots|
    ensures t.snapshots[j].lastEventHash == Some(t.events[k].eventHash) <==> j == k + 1
    ensures t.events[k].stateHashBefore == t.snapshots[k].stateHash
    ensures t.events[k].stateHashAfter == t.snapshots[k + 1].stateHash
  {
    hide SnapshotAt, EventAt;
    EventLinks(env, t, k);
    if j > 0 {
      EventLinks(env, t, j - 1);
    }
  }

  // ---- History ----

  /** The semantic ids of the first `n` commands in event order. */
  function SemanticIds(t: Tables, n: nat): (ids: seq<string>)
    requires n <= |t.events| && forall k | 0 <= k < |t.events| :: t.events[k].commandId in t.commands
    ensures |ids| == n
    ensures forall k | 0 <= k < n :: ids[k] == t.commands[t.events[k].commandId].semanticId
  {
    seq(n, k requires 0 <= k < n => t.commands[t.events[k].commandId].semanticId)
  }

  function World(h: SnapshotRow): WorldView
    requires InspectWorld(h.snapshot).Ok?
  {
    InspectWorld(h.snapshot).value
  }

  /**
   * The processed commands of the k-th snapshot are those of the genesis world
   * followed by the first k commands; the clock never went back, and the world
   * keeps its identity, mode and ruleset.
   */
  lemma {:induction false} HistoryAt(env: Env, t: Tables, k: nat)
    requires Snapshots(env, t) && Events(env, t) && k <= |t.events|
    ensures InspectWorld(t.snapshots[0].snapshot).Ok? && InspectWorld(t.snapshots[k].snapshot).Ok?
    ensures var first, world := World(t.snapshots[0]), World(t.snapshots[k]);
            && world.processed == first.processed + SemanticIds(t, k)
            && first.logicalClock <= world.logicalClock
            && world.worldId == first.worldId && world.mode == first.mode
            && Field(world.root, "ruleset") == Field(first.root, "ruleset")
            && world.revision == first.revision + k
  {
    hide InspectWorld, Sealed, PayloadMatches, Field;
    var base := t.snapshots[0].revision;
    assert SnapshotAt(env, t.session.identity, base, 0, t.snapshots[0]);
    assert SnapshotAt(env, t.session.identity, base, k, t.snapshots[k]);
    if k == 0 {
      assert SemanticIds(t, 0) == [];
    } else {
      HistoryAt(env, t, k - 1);
      var semanticId := t.commands[t.events[k - 1].commandId].semanticId;
      assert EventAt(env, k - 1, t.snapshots[k - 1], t.snapshots[k], t.events[k - 1], semanticId);
      assert SemanticIds(t, k) == SemanticIds(t, k - 1) + [semanticId];
      assert World(t.snapshots[0]).processed + SemanticIds(t, k - 1) + [semanticId]
          == World(t.snapshots[0]).processed + SemanticIds(t, k);
    }
  }

  /** The clock is monotone along the whole chain. */
  lemma {:induction false} ClockMonotone(env: Env, t: Tables, i: nat, j: nat)
    requires Snapshots(env, t) && Events(env, t) && i <= j <= |t.events|
    ensures InspectWorld(t.snapshots[i].snapshot).Ok? && InspectWorld(t.snapshots[j].snapshot).Ok?
    ensures World(t.snapshots[i]).logicalClock <= World(t.snapshots[j]).logicalClock
    decreases j - i
  {
    hide InspectWorld, Sealed, PayloadMatches, Field;
    assert SnapshotAt(env, t.session.identity, t.snapshots[0].revision, i, t.snapshots[i]);
    assert SnapshotAt(env, t.session.identity, t.snapshots[0].revision, j, t.snapshots[j]);
    if i < j {
      ClockMonotone(env, t, i, j - 1);
      assert EventAt(env, j - 1, t.snapshots[j - 1], t.snapshots[j], t.events[j - 1],
                     t.commands[t.events[j - 1].commandId].semanticId);
    }
  }

  lemma InspectedDistinct(v: Json)
    requires InspectWorld(v).Ok?
    ensures Distinct(InspectWorld(v).value.processed)
  {
  }

  /**
   * In every reachable session the processed commands are the genesis list
   * followed by the committed semantic ids in event order, without repetition.
   */
  lemma CommandHistory(env: Env, t: Tables, actions: seq<Action>)
    requires Genesis(env, t)
    ensures var s := Run(env, t, actions);
            && Chain(env, s)
            && InspectWorld(t.session.snapshot).Ok? && InspectWorld(s.session.snapshot).Ok?
            && var first, world := InspectWorld(t.session.snapshot).value, InspectWorld(s.session.snapshot).value;
            && (forall k | 0 <= k < |s.events| :: s.events[k].commandId in s.commands)
            && world.processed == first.processed + SemanticIds(s, |s.events|)
            && Distinct(world.processed)
            && world.revision - |s.events| == first.revision
            && first.logicalClock <= world.logicalClock
  {
    hide InspectWorld, SnapshotAt, EventAt, Commands, PendingLedger, DecisionKeys, Run;
    GenesisHolds(env, t);
    RunKeeps(env, t, actions);
    var s := Run(env, t, actions);
    HistoryAt(env, s, |s.events|);
    assert s.snapshots[0] == t.snapshots[0];
    InspectedDistinct(s.session.snapshot);
  }

  // ---- Actors over a run ----

  /**
   * A step changes an actor's projection only if it replaces the actor rows
   * from outside, or commits a transition whose caller may change that actor
   * and declared it; no submission changes who controls an actor.
   */
  lemma ProjectionChangesOnlyIf(env: Env, t: Tables, a: Action, id: Uuid)
    requires Inv(env, t) && id in t.actors && !a.SetActors?
    ensures var after := Step(env, t, a);
            && id in after.actors && SameActor(after.actors[id], t.actors[id])
            && (after.actors[id].projection != t.actors[id].projection ==>
                  && a.Submit? && Prepare(env, a.raw).Ok?
                  && Prepare(env, a.raw).value.request.commandId !in t.commands
                  && Touchable(t, a.user, Prepare(env, a.raw).value.request, id))
  {
    hide Inv, Apply, Prepare, Touchable;
    if a.Submit? && Apply(env, t, a.user, a.now, a.raw).Ok? {
      SubmitProjects(env, t, a.user, a.now, a.raw, id);
    }
  }

  lemma SubmitProjects(env: Env, t: Tables, user: Uuid, now: string, raw: string, id: Uuid)
    requires Inv(env, t) && id in t.actors && Apply(env, t, user, now, raw).Ok?
    ensures var after := Apply(env, t, user, now, raw).value.0;
            && Prepare(env, raw).Ok? && id in after.actors && SameActor(after.actors[id], t.actors[id])
            && (after.actors[id].projection != t.actors[id].projection ==>
                  && Prepare(env, raw).value.request.commandId !in t.commands
                  && Touchable(t, user, Prepare(env, raw).value.request, id))
  {
    hide Inv, Apply, Transition, WellPrepared, Prepare, Committing, LoadReceipt, Touchable;
    ApplyIsTransition(env, t, user, now, raw);
    var p := Prepare(env, raw).value;
    PreparedIsWell(env, raw);
    TransitionKeeps(env, t, user, now, p);
    var (after, response) := Transition(env, t, user, now, p).value;
    if p.request.commandId !in t.commands {
      CommittingActors(env, t, user, p, after, response);
    }
  }

  lemma ApplyIsTransition(env: Env, t: Tables, user: Uuid, now: string, raw: string)
    requires Apply(env, t, user, now, raw).Ok?
    ensures Prepare(env, raw).Ok? && Exact(Prepare(env, raw).value.body)
    ensures Apply(env, t, user, now, raw) == Transition(env, t, user, now, Prepare(env, raw).value)
  {
    hide Transition, Prepare;
  }

  lemma CommittingActors(env: Env, t: Tables, user: Uuid, p: Prepared, after: Tables, response: Response)
    requires Committing(env, t, user, p, after, response)
    ensures ActorsChange(t, user, p.request, after.actors)
  {
    hide ActorsChange, ActorsBound, DecisionsGrow, ReportsLedger, StoresResponse, ActiveActors;
  }

  /** After any committed transition, active rows and world actors are in bijection. */
  lemma CommitBindsActors(env: Env, t: Tables, user: Uuid, now: string, raw: string, worldActorId: string)
    requires Inv(env, t) && Apply(env, t, user, now, raw).Ok?
    requires Prepare(env, raw).value.request.commandId !in t.commands
    ensures var after := Apply(env, t, user, now, raw).value.0;
            && InspectWorld(after.session.snapshot).Ok?
            && var world := InspectWorld(after.session.snapshot).value.actors;
            && ActorsBound(env, ActiveActors(after), world)
            && (worldActorId in world ==>
                  exists id :: id in ActiveActors(after) && WorldIdOf(ActiveActors(after)[id]) == worldActorId
                    && CanonicalBytes(world[worldActorId]) == CanonicalBytes(ActiveActors(after)[id].projection)
                    && forall other | other in ActiveActors(after) && WorldIdOf(ActiveActors(after)[other]) == worldActorId :: other == id)
  {
    hide Inv, Transition, WellPrepared, Prepare, StoresResponse, ActorsBound, ActorsChange, DecisionsGrow,
         ReportsLedger,
         InspectWorld, ActiveActors, CanonicalBytes, WorldIdOf;
    PreparedIsWell(env, raw);
    var p := Prepare(env, raw).value;
    TransitionKeeps(env, t, user, now, p);
    WellPreparedWorld(env, p);
    var after := Apply(env, t, user, now, raw).value.0;
    if worldActorId in p.world.actors {
      BoundIsBijection(env, ActiveActors(after), p.world.actors, worldActorId);
    }
  }

  // ---- Decisions over a run ----

  /** Row `i` of the earlier session keeps its identities and body for ever. */
  lemma DecisionNeverReused(env: Env, t: Tables, actions: seq<Action>, i: nat, j: nat)
    requires Inv(env, t) && i < |t.decisions|
    ensures var s := Run(env, t, actions);
            && |t.decisions| <= |s.decisions|
            && RowLater(t.decisions[i], s.decisions[i])
            && (j < |s.decisions| && j != i ==>
                  s.decisions[j].requestId != t.decisions[i].requestId && s.decisions[j].resolutionId != t.decisions[i].resolutionId)
            && (t.decisions[i].status.Resolved? ==> s.decisions[i] == t.decisions[i])
  {
    hide Chain, PendingLedger, Run, InspectWorld;
    RunKeeps(env, t, actions);
    var s := Run(env, t, actions);
    assert RowLater(t.decisions[i], s.decisions[i]);
  }

  /** In every reachable session one decision is open exactly while the world has a pending resolution. */
  lemma PendingHasOpenRow(env: Env, t: Tables, actions: seq<Action>)
    requires Genesis(env, t)
    ensures var s := Run(env, t, actions);
            && InspectWorld(s.session.snapshot).Ok?
            && var pending := InspectWorld(s.session.snapshot).value.pending;
            && |OpenRows(s.decisions)| == (if pending.Null? then 0 else 1)
            && (!pending.Null? ==> OpenRows(s.decisions)[0].body == pending)
  {
    hide Chain, Run, InspectWorld, OpenRows, CT.Text;
    GenesisHolds(env, t);
    RunKeeps(env, t, actions);
    var s := Run(env, t, actions);
    var pending := InspectWorld(s.session.snapshot).value.pending;
    if !pending.Null? {
      CanonicalRoundTrip.TextInjective(OpenRows(s.decisions)[0].body, pending);
    }
  }
}
