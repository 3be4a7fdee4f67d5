/** What runs guarantee about sheet versions and runtime commands. */
module CommandTheorems {
  import opened JsonValues
  import opened Outcomes
  import opened TextRules
  import opened WorldState
  import opened Identifiers
  import opened EncounterState
  import opened TabletopTables
  import opened EncounterRules
  import opened SheetRules
  import opened CommandRules
  import opened TextOrder
  import opened CombatantLists
  import opened EncounterSteps
  import opened TabletopInvariant
  import opened EncounterKeeps
  import opened TabletopRuns
  import CC = CommandContract
  import CanonicalJson

  // ---- Versions ----

  /** The version never falls, and while it stays the runtime stays. */
  predicate VersionKept(a: Sheet, b: Sheet) {
    a.revision <= b.revision && (a.revision == b.revision ==> a.runtime == b.runtime)
  }

  /** How the sheets of one action relate to those before it. */
  predicate Versioned(s: Tabletop, after: Tabletop) {
    && s.issued <= after.issued
    && (forall id | id in after.sheets && id in s.sheets :: VersionKept(s.sheets[id], after.sheets[id]))
    && (forall id | id in after.sheets && id !in s.sheets :: id !in s.issued)
    && after.sheets.Keys <= after.issued
  }

  lemma ApplyVersioned(env: Env, s: Tabletop, caller: Id, e: Id, r: ApplyRequest)
    requires Inv(env, s) && ApplyEncounter(env, s, caller, e, r).Ok?
    ensures Versioned(s, ApplyEncounter(env, s, caller, e, r).value.0)
  {
    hide ApplyEncounter, Accept, WrittenSheets, ActorAccess, CheckPolicy, StateIds, Elsewhere, ApplyOps, Combatants,
         OpPayload, LinkedIds, NormalizedAdds, NewList, Tracks, LinksOk, EncounterOk, IsParticipant;
    ApplyMeaning(env, s, caller, e, r);
    var a := Accept(env, s, caller, e, r).value;
    NewListIs(env, s, caller, e, r, a);
    SheetsStep(env, s, caller, e, r, a);
    var after := ApplyEncounter(env, s, caller, e, r).value.0;
    forall id | id in after.sheets && id in s.sheets ensures VersionKept(s.sheets[id], after.sheets[id]) {
      assert SheetStep(Combatants(a.enc.state), Combatants(a.state), e, id, s.sheets[id], after.sheets[id]);
    }
  }

  lemma IssuedSheets(env: Env, s: Tabletop)
    requires Inv(env, s)
    ensures s.sheets.Keys <= s.issued
  {
    hide LinksOk, EncounterOk;
  }

  lemma CommandVersioned(env: Env, s: Tabletop, caller: Id, raw: string)
    requires Inv(env, s) && PostCommand(env, s, caller, raw).Ok?
    ensures Versioned(s, PostCommand(env, s, caller, raw).value.0)
  {
    hide Execute, AdvancedFrom, CommandOk, Inv, DecodeCommand;
    var (r, requestHash) := DecodeCommand(env, raw).value;
    ExecuteMeaning(env, s, caller, r, requestHash);
    IssuedSheets(env, s);
    var after := Execute(env, s, caller, r, requestHash).value.0;
    if after != s {
      forall id | id in after.sheets ensures VersionKept(s.sheets[id], after.sheets[id]) {
        if p :| p in r.participants && p.characterId == id {
          AdvanceSheetMeaning(s.sheets[id], p, after.sheets[id]);
        }
      }
    }
  }

  lemma PatchVersioned(env: Env, s: Tabletop, caller: Id, id: Id, r: PatchRequest)
    requires Inv(env, s) && PatchRuntime(env, s, caller, id, r).Ok?
    ensures Versioned(s, PatchRuntime(env, s, caller, id, r).value.0)
  {
    hide LinksOk, EncounterOk, Overlay, RuntimeUpdates;
  }

  lemma CreateVersioned(env: Env, s: Tabletop, caller: Id, e: Id, name: string)
    requires Inv(env, s) && CreateEncounter(s, caller, e, name).Ok?
    ensures Versioned(s, CreateEncounter(s, caller, e, name).value.0)
  {
    hide LinksOk, EncounterOk;
  }

  lemma DeleteVersioned(env: Env, s: Tabletop, caller: Id, e: Id)
    requires Inv(env, s) && DeleteEncounter(s, caller, e).Ok?
    ensures Versioned(s, DeleteEncounter(s, caller, e).value.0)
  {
    hide LinksOk, EncounterOk;
  }

  lemma NewSheetVersioned(env: Env, s: Tabletop, caller: Id, id: Id, metadata: Metadata, profile: Profile, runtime: Runtime)
    requires Inv(env, s) && CreateSheet(env, s, caller, id, metadata, profile, runtime).Ok?
    ensures Versioned(s, CreateSheet(env, s, caller, id, metadata, profile, runtime).value.0)
  {
    hide LinksOk, EncounterOk, WithDefaults;
  }

  lemma PutVersioned(env: Env, s: Tabletop, caller: Id, id: Id, r: PutRequest)
    requires Inv(env, s) && UpdateSheet(env, s, caller, id, r).Ok?
    ensures Versioned(s, UpdateSheet(env, s, caller, id, r).value.0)
  {
    hide LinksOk, EncounterOk, WithDefaults, MetadataKept;
  }

  lemma DropVersioned(env: Env, s: Tabletop, caller: Id, id: Id)
    requires Inv(env, s) && DeleteSheet(env, s, caller, id).Ok?
    ensures Versioned(s, DeleteSheet(env, s, caller, id).value.0)
  {
    hide LinksOk, EncounterOk;
  }

  lemma SameVersions(env: Env, s: Tabletop)
    requires Inv(env, s)
    ensures Versioned(s, s)
  {
    hide LinksOk, EncounterOk;
  }

  /** No action lowers a version, changes a runtime under the same version, or reuses an identifier. */
  lemma StepVersioned(env: Env, s: Tabletop, a: Action)
    requires Inv(env, s)
    ensures Versioned(s, Step(env, s, a))
  {
    hide ApplyEncounter, PostCommand, PatchRuntime, Inv, JoinEncounter, Versioned, CreateEncounter, DeleteEncounter, CreateSheet,
         UpdateSheet, DeleteSheet;
    SameVersions(env, s);
    match a
    case Apply(caller, id, request) =>
      if ApplyEncounter(env, s, caller, id, request).Ok? { ApplyVersioned(env, s, caller, id, request); }
    case Command(caller, raw) =>
      if PostCommand(env, s, caller, raw).Ok? { CommandVersioned(env, s, caller, raw); }
    case PatchSheet(caller, id, patch) =>
      if PatchRuntime(env, s, caller, id, patch).Ok? { PatchVersioned(env, s, caller, id, patch); }
    case Join(caller, id, invited) => JoinVersioned(env, s, caller, id, invited);
    case Create(caller, id, name) =>
      if CreateEncounter(s, caller, id, name).Ok? { CreateVersioned(env, s, caller, id, name); }
    case Delete(caller, id) =>
      if DeleteEncounter(s, caller, id).Ok? { DeleteVersioned(env, s, caller, id); }
    case NewSheet(caller, id, metadata, profile, runtime) =>
      if CreateSheet(env, s, caller, id, metadata, profile, runtime).Ok? {
        NewSheetVersioned(env, s, caller, id, metadata, profile, runtime);
      }
    case Put(caller, id, put) =>
      if UpdateSheet(env, s, caller, id, put).Ok? { PutVersioned(env, s, caller, id, put); }
    case DropSheet(caller, id) =>
      if DeleteSheet(env, s, caller, id).Ok? { DropVersioned(env, s, caller, id); }
  }

  lemma JoinVersioned(env: Env, s: Tabletop, caller: Id, e: Id, invited: bool)
    requires Inv(env, s)
    ensures JoinEncounter(env, s, caller, e, invited).Ok? ==> Versioned(s, JoinEncounter(env, s, caller, e, invited).value.0)
  {
    hide LinksOk, EncounterOk, ActorAccess, AnyMalformed, LinkedIds, IsParticipant, CombatantsReadable, Combatants;
  }

  /** An identifier that was issued and is gone never comes back as a sheet. */
  lemma {:induction false} GoneStaysGone(env: Env, s: Tabletop, actions: seq<Action>, id: Id)
    requires Inv(env, s) && id in s.issued && id !in s.sheets
    ensures id !in Run(env, s, actions).sheets
    decreases |actions|
  {
    hide Inv, Step, VersionKept;
    if actions != [] {
      StepKeeps(env, s, actions[0]);
      StepVersioned(env, s, actions[0]);
      GoneStaysGone(env, Step(env, s, actions[0]), actions[1..], id);
    }
  }

  /**
   * Between any two moments of any run, a sheet with the same version has the
   * same hit points, resources, inventory, equipment, effects, turn state and
   * currency.
   */
  lemma {:induction false} VersionFaithful(env: Env, s: Tabletop, actions: seq<Action>, id: Id)
    requires Inv(env, s) && id in s.sheets && id in Run(env, s, actions).sheets
    ensures VersionKept(s.sheets[id], Run(env, s, actions).sheets[id])
    decreases |actions|
  {
    hide Inv, Step;
    if actions != [] {
      var next := Step(env, s, actions[0]);
      StepKeeps(env, s, actions[0]);
      StepVersioned(env, s, actions[0]);
      if id !in next.sheets {
        IssuedSheets(env, s);
        GoneStaysGone(env, next, actions[1..], id);
      } else {
        VersionFaithful(env, next, actions[1..], id);
      }
    }
  }

  /** A patch that names the version it read is applied to the very runtime it read. */
  lemma PatchLosesNothing(env: Env, s: Tabletop, actions: seq<Action>, caller: Id, id: Id, r: PatchRequest)
    requires Inv(env, s) && id in s.sheets && r.expectedRevision == Some(s.sheets[id].revision)
    requires PatchRuntime(env, Run(env, s, actions), caller, id, r).Ok?
    ensures var now := Run(env, s, actions);
            && id in now.sheets && now.sheets[id].runtime == s.sheets[id].runtime
            && (PatchRuntime(env, now, caller, id, r).value.1).runtime == Overlay(s.sheets[id].runtime, RuntimeUpdates(now.sheets[id], r.patch))
  {
    hide Inv, Run, RuntimeUpdates;
    VersionFaithful(env, s, actions, id);
    assert Overlay(s.sheets[id].runtime, NO_PATCH) == s.sheets[id].runtime;
  }

  // ---- Commands are atomic ----

  lemma CommandIdReal(env: Env, r: CommandRequest)
    requires CommandOk(env, r)
    ensures IsCanonical(r.commandId)
  {
    hide PatchOk, RulesetOk, IsCanonical;
  }

  /**
   * A committed command advances every participant by exactly one version from
   * the version it expected, writes the columns its patch names and no other,
   * appends its events once, leaves every other sheet and all encounters alone,
   * and answers with the new sheets; a refused one changes nothing at all.
   */
  lemma CommandAtomic(env: Env, s: Tabletop, caller: Id, raw: string)
    ensures var after := Step(env, s, Command(caller, raw));
            if PostCommand(env, s, caller, raw).Err? then after == s
            else
              var (r, requestHash) := DecodeCommand(env, raw).value;
              var key: (Id, Id) := (caller, r.commandId);
              var response := PostCommand(env, s, caller, raw).value.1;
              if key in s.receipts then after == s && response == s.receipts[key].response.(replayed := true)
              else
                && after.sheets.Keys == s.sheets.Keys && after.encounters == s.encounters
                && (forall p | p in r.participants ::
                      p.characterId in s.sheets
                      && s.sheets[p.characterId].revision == p.expectedRevision
                      && after.sheets[p.characterId].revision == p.expectedRevision + 1
                      && CC.ColumnsWritten(s.sheets[p.characterId].runtime, p.patch, after.sheets[p.characterId].runtime)
                      && after.sheets[p.characterId] ==
                         s.sheets[p.characterId].(runtime := after.sheets[p.characterId].runtime, revision := p.expectedRevision + 1))
                && (forall id | id in s.sheets && (forall p | p in r.participants :: p.characterId != id) :: after.sheets[id] == s.sheets[id])
                && after.journal == s.journal + EventRows(r.events)
                && after.receipts == s.receipts[key := Receipt(requestHash, response)] && !response.replayed
                && response.commandId == r.commandId && |response.participants| == |r.participants|
                && forall i | 0 <= i < |r.participants| ::
                     var id := r.participants[i].characterId;
                     id in after.sheets && response.participants[i] == ParticipantResult(id, after.sheets[id].revision, after.sheets[id])
  {
    hide Execute, AdvancedFrom, CommandOk, DecodeCommand, Advanced, CC.ColumnsWritten;
    if PostCommand(env, s, caller, raw).Ok? {
      var (r, requestHash) := DecodeCommand(env, raw).value;
      CommandIdReal(env, r);
      ExecuteMeaning(env, s, caller, r, requestHash);
      var after := Execute(env, s, caller, r, requestHash).value.0;
      var key: (Id, Id) := (caller, r.commandId);
      if key !in s.receipts {
        forall p | p in r.participants
          ensures p.characterId in s.sheets && after.sheets[p.characterId].revision == s.sheets[p.characterId].revision + 1
          ensures CC.ColumnsWritten(s.sheets[p.characterId].runtime, p.patch, after.sheets[p.characterId].runtime)
          ensures after.sheets[p.characterId] ==
                  s.sheets[p.characterId].(runtime := after.sheets[p.characterId].runtime, revision := p.expectedRevision + 1)
        {
          AdvanceSheetMeaning(s.sheets[p.characterId], p, after.sheets[p.characterId]);
          ParticipantPatchOk(env, r, p);
          NoBodyColumns(env, p.patch);
          CC.AdvancedColumns(s.sheets[p.characterId].runtime, p.patch);
        }
      }
    }
  }

  lemma NoBodyColumns(env: Env, p: RuntimePatch)
    requires PatchOk(env, p)
    ensures p.maxHp.None? && p.equipment.None?
  {
    hide InventoryOk, AmountsOk;
  }

  // ---- Replays ----

  lemma StepReceipts(env: Env, s: Tabletop, a: Action)
    ensures forall key | key in s.receipts :: key in Step(env, s, a).receipts && Step(env, s, a).receipts[key] == s.receipts[key]
  {
    hide Execute, AdvancedFrom, CommandOk, DecodeCommand, Accept, SyncAll, UnlinkSheets, LinkSheets, StateIds,
         JournalRows, OpPayload, Combatants,
         ActorAccess, AnyMalformed, LinkedIds, IsParticipant, CombatantsReadable;
    if a.Command? && PostCommand(env, s, a.caller, a.raw).Ok? {
      var (r, requestHash) := DecodeCommand(env, a.raw).value;
      ExecuteMeaning(env, s, a.caller, r, requestHash);
    }
  }

  lemma {:induction false} RunReceipts(env: Env, s: Tabletop, actions: seq<Action>)
    ensures forall key | key in s.receipts :: key in Run(env, s, actions).receipts && Run(env, s, actions).receipts[key] == s.receipts[key]
    decreases |actions|
  {
    hide Step;
    if actions != [] {
      StepReceipts(env, s, actions[0]);
      RunReceipts(env, Step(env, s, actions[0]), actions[1..]);
    }
  }

  lemma EmptyIsNoJson()
    ensures CanonicalJson.Decode("").Err?
  {
  }

  lemma SameValueSameCommand(env: Env, raw: string, again: string)
    requires CanonicalJson.Decode(again) == CanonicalJson.Decode(raw) && DecodeCommand(env, raw).Ok?
    requires Utf8Length(again) <= MAX_BODY_BYTES
    ensures DecodeCommand(env, again) == DecodeCommand(env, raw)
  {
    hide CommandOk, CanonicalJson.Decode, Utf8Length;
    EmptyIsNoJson();
  }

  /**
   * Whenever a command was answered, the same JSON value sent again at any
   * later time by the same caller gets the stored response, marked as a
   * replay, and changes nothing.
   */
  lemma ReplayAnytime(env: Env, s: Tabletop, caller: Id, raw: string, actions: seq<Action>, again: string)
    requires PostCommand(env, s, caller, raw).Ok?
    requires CanonicalJson.Decode(again) == CanonicalJson.Decode(raw) && Utf8Length(again) <= MAX_BODY_BYTES
    ensures var (after, response) := PostCommand(env, s, caller, raw).value;
            var now := Run(env, after, actions);
            PostCommand(env, now, caller, again) == Ok((now, response.(replayed := true)))
  {
    hide AdvancedFrom, CommandOk, DecodeCommand, AllAdvanced, AdvanceAll, CheckParticipants, CanonicalJson.Decode;
    var (r, requestHash) := DecodeCommand(env, raw).value;
    ExecuteMeaning(env, s, caller, r, requestHash);
    SameValueSameCommand(env, raw, again);
    RunReceipts(env, PostCommand(env, s, caller, raw).value.0, actions);
  }

  /**
   * Once a command was answered, its id belongs to it for good: at any later
   * time, whatever happened to the sheets, a body with the same id is a replay
   * if its hash is the stored one, and a conflict otherwise.
   */
  lemma ReceiptDecides(env: Env, s: Tabletop, caller: Id, raw: string, actions: seq<Action>, again: string)
    requires PostCommand(env, s, caller, raw).Ok? && DecodeCommand(env, again).Ok?
    requires DecodeCommand(env, again).value.0.commandId == DecodeCommand(env, raw).value.0.commandId
    ensures var (after, response) := PostCommand(env, s, caller, raw).value;
            var now := Run(env, after, actions);
            PostCommand(env, now, caller, again) ==
            if DecodeCommand(env, again).value.1 == DecodeCommand(env, raw).value.1
            then Ok((now, response.(replayed := true))) else Err(Stale)
  {
    hide AdvancedFrom, CommandOk, DecodeCommand, AllAdvanced, AdvanceAll, CheckParticipants;
    var (r, requestHash) := DecodeCommand(env, raw).value;
    CommandIdReal(env, r);
    ExecuteMeaning(env, s, caller, r, requestHash);
    RunReceipts(env, PostCommand(env, s, caller, raw).value.0, actions);
  }

  // ---- Resources and inventory ----

  /** After a command every resource with a declared maximum is within it, and hit points are within theirs. */
  lemma CommandBounded(env: Env, s: Tabletop, caller: Id, r: CommandRequest, requestHash: string, p: Participant)
    requires CommandOk(env, r) && Execute(env, s, caller, r, requestHash).Ok? && p in r.participants
    requires var key: (Id, Id) := (caller, r.commandId); key !in s.receipts
    ensures var after := Execute(env, s, caller, r, requestHash).value.0;
            && p.characterId in after.sheets
            && var runtime := after.sheets[p.characterId].runtime;
            && ResourcesBounded(runtime.resources, runtime.maxResources)
            && (p.patch.currentHp.Some? ==> runtime.currentHp <= runtime.maxHp)
            && (p.patch.inventory.Some? ==> InventoryOk(Rows(runtime.inventory)))
  {
    hide Execute, CommandOk, AdvancedFrom, InventoryOk, ResourcesBounded;
    ExecuteMeaning(env, s, caller, r, requestHash);
    var after := Execute(env, s, caller, r, requestHash).value.0;
    AdvanceSheetMeaning(s.sheets[p.characterId], p, after.sheets[p.characterId]);
    ParticipantPatchOk(env, r, p);
  }

  lemma ParticipantPatchOk(env: Env, r: CommandRequest, p: Participant)
    requires CommandOk(env, r) && p in r.participants
    ensures PatchOk(env, p.patch)
  {
    var i :| 0 <= i < |r.participants| && r.participants[i] == p;
  }

  /** How many of a card an inventory holds in one place. */
  function Quantity(rows: seq<Item>, at: (string, string)): int {
    if rows == [] then 0
    else if Identity(rows[0]) == at then rows[0].qty
    else Quantity(rows[1..], at)
  }

  lemma {:induction false} QuantityAt(rows: seq<Item>, i: nat)
    requires i < |rows| && forall j, k | 0 <= j < k < |rows| :: Identity(rows[j]) != Identity(rows[k])
    ensures Quantity(rows, Identity(rows[i])) == rows[i].qty
  {
    if i > 0 {
      assert Identity(rows[0]) != Identity(rows[i]);
      QuantityAt(rows[1..], i - 1);
    }
  }

  lemma {:induction false} QuantityZero(rows: seq<Item>, at: (string, string))
    requires forall row | row in rows :: Identity(row) != at
    ensures Quantity(rows, at) == 0
  {
    if rows != [] {
      assert rows[0] in rows;
      QuantityZero(rows[1..], at);
    }
  }

  lemma ConsumptionLowers(current: seq<Item>, next: seq<Item>, at: (string, string))
    requires InventoryOk(current) && InventoryOk(next) && OnlyConsumes(current, next)
    ensures 0 <= Quantity(next, at) <= Quantity(current, at)
  {
    hide ItemOk, Identity;
    if row :| row in next && Identity(row) == at {
      var j :| 0 <= j < |next| && next[j] == row;
      QuantityAt(next, j);
      var i :| 0 <= i < |current| && Identity(current[i]) == at && row.qty <= current[i].qty;
      QuantityAt(current, i);
      PositiveQuantity(next, j);
    } else {
      QuantityZero(next, at);
      if row :| row in current && Identity(row) == at {
        var i :| 0 <= i < |current| && current[i] == row;
        QuantityAt(current, i);
        PositiveQuantity(current, i);
      } else {
        QuantityZero(current, at);
      }
    }
  }

  lemma PositiveQuantity(rows: seq<Item>, i: nat)
    requires InventoryOk(rows) && i < |rows|
    ensures rows[i].qty > 0
  {
    assert ItemOk(rows[i]);
  }

  lemma AdvancedConsumes(r: Runtime, p: RuntimePatch, after: Runtime, at: (string, string))
    requires Advanced(r, p) == Ok(after)
    requires p.inventory.Some? ==> InventoryOk(p.inventory.value)
    ensures Quantity(Rows(after.inventory), at) <= Quantity(Rows(r.inventory), at)
  {
    hide InventoryOk, OnlyConsumes, ResourcesBounded, MergedTurn;
    if p.inventory.Some? {
      ConsumptionLowers(Rows(r.inventory), p.inventory.value, at);
    }
  }

  lemma CommandConsumes(env: Env, s: Tabletop, caller: Id, raw: string, id: Id, at: (string, string))
    requires id in s.sheets && PostCommand(env, s, caller, raw).Ok?
    ensures var after := PostCommand(env, s, caller, raw).value.0;
            id in after.sheets &&
            Quantity(Rows(after.sheets[id].runtime.inventory), at) <= Quantity(Rows(s.sheets[id].runtime.inventory), at)
  {
    hide Execute, AdvancedFrom, CommandOk, DecodeCommand, Quantity, PatchOk;
    var (r, requestHash) := DecodeCommand(env, raw).value;
    ExecuteMeaning(env, s, caller, r, requestHash);
    var after := Execute(env, s, caller, r, requestHash).value.0;
    if after != s {
      if p :| p in r.participants && p.characterId == id {
        AdvanceSheetMeaning(s.sheets[id], p, after.sheets[id]);
        ParticipantPatchOk(env, r, p);
        PatchInventoryOk(env, p.patch);
        AdvancedConsumes(s.sheets[id].runtime, p.patch, after.sheets[id].runtime, at);
      }
    }
  }

  lemma PatchInventoryOk(env: Env, p: RuntimePatch)
    requires PatchOk(env, p)
    ensures p.inventory.Some? ==> InventoryOk(p.inventory.value)
  {
    hide InventoryOk;
  }

  /** Along any run of commands no quantity anywhere grows, and nothing new appears. */
  lemma {:induction false} CommandsOnlyConsume(env: Env, s: Tabletop, actions: seq<Action>, id: Id, at: (string,
        string))
    requires id in s.sheets && forall a | a in actions :: a.Command?
    ensures var after := Run(env, s, actions);
            id in after.sheets &&
            Quantity(Rows(after.sheets[id].runtime.inventory), at) <= Quantity(Rows(s.sheets[id].runtime.inventory), at)
    decreases |actions|
  {
    hide PostCommand, Quantity;
    if actions != [] {
      assert actions[0] in actions;
      var a := actions[0];
      if PostCommand(env, s, a.caller, a.raw).Ok? {
        CommandConsumes(env, s, a.caller, a.raw, id, at);
      }
      CommandsOnlyConsume(env, Step(env, s, a), actions[1..], id, at);
    }
  }

  // ---- Turn state ----

  /** Merging deletes exactly the keys that are null in the patch and sets the others. */
  lemma MergedTurnMeaning(current: Option<Fields>, patch: Fields, k: string)
    ensures var merged := MergedTurn(current, patch);
            && (k in merged <==> if k in patch then !patch[k].Null? else k in OrEmpty(current))
            && (k in merged ==> merged[k] == if k in patch then patch[k] else OrEmpty(current)[k])
  {
  }

  /** Merging is idempotent: the same patch again changes nothing. */
  lemma MergeTwice(current: Option<Fields>, patch: Fields)
    ensures MergedTurn(Some(MergedTurn(current, patch)), patch) == MergedTurn(current, patch)
  {
    var once := MergedTurn(current, patch);
    var twice := MergedTurn(Some(once), patch);
    forall k ensures (k in twice <==> k in once) && (k in once ==> twice[k] == once[k]) {
      MergedTurnMeaning(current, patch, k);
      MergedTurnMeaning(Some(once), patch, k);
    }
    assert twice == once;
  }

  /** Two merges in a row are one merge of the overridden patch. */
  lemma MergeComposes(current: Option<Fields>, p: Fields, q: Fields)
    ensures MergedTurn(Some(MergedTurn(current, p)), q) == MergedTurn(current, p + q)
  {
    var once := MergedTurn(current, p);
    var twice, whole := MergedTurn(Some(once), q), MergedTurn(current, p + q);
    forall k ensures (k in twice <==> k in whole) && (k in whole ==> twice[k] == whole[k]) {
      MergedTurnMeaning(current, p, k);
      MergedTurnMeaning(Some(once), q, k);
      MergedTurnMeaning(current, p + q, k);
    }
    assert twice == whole;
  }
  /** The turn state after merging one patch after the other. */
  function MergedAll(current: Option<Fields>, ps: seq<Fields>): Option<Fields>
    decreases |ps|
  {
    if ps == [] then current else MergedAll(Some(MergedTurn(current, ps[0])), ps[1..])
  }

  /** All patches as one, later ones over earlier ones. */
  function Overridden(ps: seq<Fields>): Fields {
    if ps == [] then map[] else ps[0] + Overridden(ps[1..])
  }

  /** Any number of merges are one merge, of the patches overridden in their order: no deletion is forgotten or revived. */
  lemma {:induction false} MergesCollapse(current: Option<Fields>, ps: seq<Fields>)
    requires ps != []
    ensures MergedAll(current, ps) == Some(MergedTurn(current, Overridden(ps)))
    decreases |ps|
  {
    hide MergedTurn;
    var p, later := ps[0], ps[1..];
    if later == [] {
      assert Overridden(ps) == p;
    } else {
      MergesCollapse(Some(MergedTurn(current, p)), later);
      MergeComposes(current, p, Overridden(later));
    }
  }
}
