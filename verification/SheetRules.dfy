/** The endpoints that write character sheets outside an encounter. */
module SheetRules {
  import opened JsonValues
  import opened Outcomes
  import opened WorldState
  import opened Identifiers
  import opened EncounterState
  import opened TabletopTables

  // ---- Access ----

  /** Owners may write; accounts of the public era are read-only. */
  function CheckWrite(env: Env, s: Tabletop, caller: Id, id: Id): Check<Refusal> {
    if caller == NIL_ID then Reject(Unauthenticated)
    else if id !in s.sheets then Reject(NotFound)
    else if env.legacy(s.sheets[id].owner) then Reject(NotAllowed)
    else if s.sheets[id].owner != caller then Reject(NotAllowed)
    else Pass
  }

  // ---- Create and delete ----

  function WithDefaults(p: Profile): Profile {
    if p.armorClass <= 0 then p.(armorClass := 10) else p
  }

  function CreateSheet(env: Env, s: Tabletop, caller: Id, id: Id, metadata: Metadata, profile: Profile,
        runtime: Runtime): Result<(Tabletop, ()), Refusal> {
    if caller == NIL_ID then Err(Unauthenticated)
    else if env.legacy(caller) then Err(NotAllowed)
    else if id in s.issued || id == NIL_ID then Err(Failed)
    else
      var sheet := Sheet(caller, metadata, WithDefaults(profile), runtime, 0, None);
      Ok((s.(sheets := s.sheets[id := sheet], issued := s.issued + {id}), ()))
  }

  function DeleteSheet(env: Env, s: Tabletop, caller: Id, id: Id): Result<(Tabletop, ()), Refusal> {
    var access := CheckWrite(env, s, caller, id);
    if access.Reject? then Err(access.error)
    else if s.sheets[id].encounter.Some? then Err(Stale)
    else Ok((s.(sheets := s.sheets - {id}), ()))
  }

  // ---- The full update ----

  datatype MetadataUpdate = MetadataUpdate(
    systemId: Option<string>, rulesetVersion: Option<string>, characterType: Option<string>, schemaVersion: Option<int>)

  predicate MetadataKept(m: Metadata, u: MetadataUpdate) {
    && (u.systemId.Some? ==> u.systemId.value == m.systemId)
    && (u.rulesetVersion.Some? ==> u.rulesetVersion.value == m.rulesetVersion)
    && (u.characterType.Some? ==> u.characterType.value == m.characterType)
    && (u.schemaVersion.Some? ==> u.schemaVersion.value == m.schemaVersion)
  }

  datatype PutRequest = PutRequest(metadata: MetadataUpdate, profile: Profile, maxHp: int, currentHp: int)

  /** Replaces the draft; inside an encounter the hit points stay. */
  function UpdateSheet(env: Env, s: Tabletop, caller: Id, id: Id, r: PutRequest): Result<(Tabletop, Sheet), Refusal> {
    var access := CheckWrite(env, s, caller, id);
    if access.Reject? then Err(access.error)
    else
      var sheet := s.sheets[id];
      if !MetadataKept(sheet.metadata, r.metadata) then Err(Stale)
      else
        var name := if r.profile.name != "" then r.profile.name else sheet.profile.name;
        var hp := if sheet.encounter.None? then r.currentHp else sheet.runtime.currentHp;
        var next := sheet.(
          profile := WithDefaults(r.profile.(name := name)),
          runtime := sheet.runtime.(maxHp := r.maxHp, currentHp := hp),
          revision := sheet.revision + 1);
        Ok((s.(sheets := s.sheets[id := next]), next))
  }

  // ---- The runtime patch ----

  datatype PatchRequest = PatchRequest(expectedRevision: Option<int>, patch: RuntimePatch)

  /** Inside an encounter, hit points, effects and temporary hit points belong to the encounter. */
  function RuntimeUpdates(sheet: Sheet, p: RuntimePatch): RuntimePatch {
    if sheet.encounter.None? then p
    else
      var turn :=
        if p.turnState.None? then None
        else if TEMP_KEY in OrEmpty(sheet.runtime.turnState) then
          Some(p.turnState.value[TEMP_KEY := sheet.runtime.turnState.value[TEMP_KEY]])
        else Some(p.turnState.value - {TEMP_KEY});
      p.(currentHp := None, effects := None, turnState := turn)
  }

  /** Builds the same updates column by column. */
  method BuildRuntimeUpdates(sheet: Sheet, p: RuntimePatch) returns (updates: RuntimePatch)
    ensures updates == RuntimeUpdates(sheet, p)
  {
    updates := NO_PATCH;
    var linked := sheet.encounter.Some?;
    if p.currentHp.Some? && !linked { updates := updates.(currentHp := p.currentHp); }
    if p.maxHp.Some? { updates := updates.(maxHp := p.maxHp); }
    if p.equipment.Some? { updates := updates.(equipment := p.equipment); }
    if p.inventory.Some? { updates := updates.(inventory := p.inventory); }
    if p.resources.Some? { updates := updates.(resources := p.resources); }
    if p.maxResources.Some? { updates := updates.(maxResources := p.maxResources); }
    if p.effects.Some? && !linked { updates := updates.(effects := p.effects); }
    if p.turnState.Some? {
      var turnState := p.turnState.value;
      if linked {
        var current := OrEmpty(sheet.runtime.turnState);
        if TEMP_KEY in current {
          turnState := turnState[TEMP_KEY := current[TEMP_KEY]];
        } else {
          turnState := turnState - {TEMP_KEY};
        }
      }
      updates := updates.(turnState := Some(turnState));
    }
    if p.currency.Some? { updates := updates.(currency := p.currency); }
  }

  function PatchRuntime(env: Env, s: Tabletop, caller: Id, id: Id, r: PatchRequest): Result<(Tabletop, Sheet),
        Refusal> {
    var access := CheckWrite(env, s, caller, id);
    if access.Reject? then Err(access.error)
    else
      var sheet := s.sheets[id];
      var updates := RuntimeUpdates(sheet, r.patch);
      if r.expectedRevision.Some? && r.expectedRevision.value != sheet.revision then Err(Stale)
      else if updates == NO_PATCH then Ok((s, sheet))
      else
        var next := sheet.(runtime := Overlay(sheet.runtime, updates), revision := sheet.revision + 1);
        Ok((s.(sheets := s.sheets[id := next]), next))
  }
}
