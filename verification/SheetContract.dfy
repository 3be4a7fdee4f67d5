/** The sheet endpoints: exactly which requests are accepted, and what they write, column by column. */
module SheetContract {
  import opened JsonValues
  import opened Outcomes
  import opened WorldState
  import opened Identifiers
  import opened EncounterState
  import opened TabletopTables
  import opened SheetRules
  import opened CommandContract

  // ---- Access ----

  /** The sheet exists, belongs to the caller, and the caller's account may write. */
  predicate MayWrite(env: Env, s: Tabletop, caller: Id, id: Id) {
    caller != NIL_ID && id in s.sheets && s.sheets[id].owner == caller && !env.legacy(caller)
  }

  /** The answer to a caller who may not write. */
  function NoAccess(s: Tabletop, caller: Id, id: Id): Refusal {
    if caller == NIL_ID then Unauthenticated else if id !in s.sheets then NotFound else NotAllowed
  }

  // ---- The runtime patch ----

  /** Outside encounters every named column is written. */
  predicate FreeColumns(before: Runtime, p: RuntimePatch, after: Runtime) {
    && after.currentHp == (match p.currentHp case Some(v) => v case None => before.currentHp)
    && after.maxHp == (match p.maxHp case Some(v) => v case None => before.maxHp)
    && Column(p.effects, before.effects, after.effects)
    && Column(p.turnState, before.turnState, after.turnState)
    && BodyColumns(before, p, after)
  }

  predicate BodyColumns(before: Runtime, p: RuntimePatch, after: Runtime) {
    && Column(p.equipment, before.equipment, after.equipment)
    && Column(p.inventory, before.inventory, after.inventory)
    && Column(p.resources, before.resources, after.resources)
    && Column(p.maxResources, before.maxResources, after.maxResources)
    && Column(p.currency, before.currency, after.currency)
  }

  /** In an encounter hit points and effects stay, and of a new turn state everything but `temp_hp`. */
  ghost predicate LinkedColumns(before: Runtime, p: RuntimePatch, after: Runtime) {
    && after.currentHp == before.currentHp && after.effects == before.effects
    && after.maxHp == (match p.maxHp case Some(v) => v case None => before.maxHp)
    && BodyColumns(before, p, after)
    && match p.turnState
       case None => after.turnState == before.turnState
       case Some(turn) =>
         && after.turnState.Some?
         && var now := after.turnState.value;
         && (forall k | k != "temp_hp" :: (k in now <==> k in turn) && (k in turn ==> now[k] == turn[k]))
         && ("temp_hp" in now <==> before.turnState.Some? && "temp_hp" in before.turnState.value)
         && ("temp_hp" in now ==> now["temp_hp"] == before.turnState.value["temp_hp"])
  }

  /** The patch names a column that it may write. */
  predicate NamesColumn(linked: bool, p: RuntimePatch) {
    || p.maxHp.Some? || p.equipment.Some? || p.inventory.Some? || p.resources.Some? || p.maxResources.Some? || p.turnState.Some?
    || p.currency.Some? || (!linked && (p.currentHp.Some? || p.effects.Some?))
  }

  /**
   * A patch is accepted exactly from a caller who may write, at the version it
   * names if it names one; it writes every column it names, except those that
   * an encounter owns, no other column and no other row, and advances the
   * version exactly if there is something to write.
   */
  lemma PatchContract(env: Env, s: Tabletop, caller: Id, id: Id, r: PatchRequest)
    ensures var result := PatchRuntime(env, s, caller, id, r);
            if !MayWrite(env, s, caller, id) then result == Err(NoAccess(s, caller, id))
            else if r.expectedRevision.Some? && r.expectedRevision.value != s.sheets[id].revision then result == Err(Stale)
            else
              && result.Ok?
              && var before, after := s.sheets[id], result.value.1;
              && result.value.0 == s.(sheets := s.sheets[id := after])
              && after == before.(runtime := after.runtime, revision := after.revision)
              && after.revision == before.revision + (if NamesColumn(before.encounter.Some?, r.patch) then 1 else 0)
              && (if before.encounter.None? then FreeColumns(before.runtime, r.patch, after.runtime)
                  else LinkedColumns(before.runtime, r.patch, after.runtime))
  {
    hide FreeColumns, LinkedColumns, RuntimeUpdates, Overlay, NamesColumn;
    if MayWrite(env, s, caller, id) {
      var sheet := s.sheets[id];
      OverlayColumns(sheet, r.patch);
      UpdatesNamed(sheet, r.patch);
      assert s.sheets[id := sheet] == s.sheets;
    }
  }

  lemma OverlayColumns(sheet: Sheet, p: RuntimePatch)
    ensures var after := Overlay(sheet.runtime, RuntimeUpdates(sheet, p));
            if sheet.encounter.None? then FreeColumns(sheet.runtime, p, after) else LinkedColumns(sheet.runtime, p, after)
    ensures Overlay(sheet.runtime, NO_PATCH) == sheet.runtime
  {
  }

  lemma UpdatesNamed(sheet: Sheet, p: RuntimePatch)
    ensures RuntimeUpdates(sheet, p) != NO_PATCH <==> NamesColumn(sheet.encounter.Some?, p)
  {
  }

  // ---- The full update ----

  /** What the request says of the sheet's kind is what is stored. */
  predicate KeepsKind(m: Metadata, u: MetadataUpdate) {
    && (u.systemId == None || u.systemId == Some(m.systemId))
    && (u.rulesetVersion == None || u.rulesetVersion == Some(m.rulesetVersion))
    && (u.characterType == None || u.characterType == Some(m.characterType))
    && (u.schemaVersion == None || u.schemaVersion == Some(m.schemaVersion))
  }

  /** The draft as stored: an empty name keeps the old one, an armour class that is not positive is ten. */
  predicate StoredDraft(asked: Profile, oldName: string, stored: Profile) {
    && stored.name == (if asked.name == "" then oldName else asked.name)
    && stored.avatarUrl == asked.avatarUrl && stored.rest == asked.rest
    && stored.armorClass == (if asked.armorClass > 0 then asked.armorClass else 10)
  }

  /**
   * A full update is accepted exactly from a caller who may write, if it keeps
   * the sheet's kind; it stores the draft and the maximum, the hit points only
   * outside encounters, and advances the version by one.
   */
  lemma PutContract(env: Env, s: Tabletop, caller: Id, id: Id, r: PutRequest)
    ensures var result := UpdateSheet(env, s, caller, id, r);
            if !MayWrite(env, s, caller, id) then result == Err(NoAccess(s, caller, id))
            else if !KeepsKind(s.sheets[id].metadata, r.metadata) then result == Err(Stale)
            else
              && result.Ok?
              && var before, after := s.sheets[id], result.value.1;
              && result.value.0 == s.(sheets := s.sheets[id := after])
              && StoredDraft(r.profile, before.profile.name, after.profile)
              && after.runtime.maxHp == r.maxHp
              && after.runtime.currentHp == (if before.encounter.None? then r.currentHp else before.runtime.currentHp)
              && after.runtime == before.runtime.(maxHp := after.runtime.maxHp, currentHp := after.runtime.currentHp)
              && after == before.(profile := after.profile, runtime := after.runtime, revision := before.revision + 1)
  {
  }

  // ---- Creation and deletion ----

  /** A sheet is created for a known writer under an identifier never issued; it starts at version zero, in no encounter. */
  lemma CreateContract(env: Env, s: Tabletop, caller: Id, id: Id, metadata: Metadata, profile: Profile, runtime: Runtime)
    ensures var result := CreateSheet(env, s, caller, id, metadata, profile, runtime);
            if caller == NIL_ID then result == Err(Unauthenticated)
            else if env.legacy(caller) then result == Err(NotAllowed)
            else if id in s.issued || id == NIL_ID then result == Err(Failed)
            else
              && result.Ok?
              && var after := result.value.0;
              && id in after.sheets && after.sheets.Keys == s.sheets.Keys + {id}
              && (forall k | k in s.sheets && k != id :: after.sheets[k] == s.sheets[k])
              && after == s.(sheets := after.sheets, issued := s.issued + {id})
              && var sheet := after.sheets[id];
              && sheet.owner == caller && sheet.revision == 0 && sheet.encounter == None
              && sheet.metadata == metadata && sheet.runtime == runtime && StoredDraft(profile, "", sheet.profile)
  {
  }

  /** A sheet is deleted exactly by a caller who may write and while it is in no encounter; nothing else changes. */
  lemma DeleteContract(env: Env, s: Tabletop, caller: Id, id: Id)
    ensures var result := DeleteSheet(env, s, caller, id);
            if !MayWrite(env, s, caller, id) then result == Err(NoAccess(s, caller, id))
            else if s.sheets[id].encounter != None then result == Err(Stale)
            else
              && result.Ok? && id !in result.value.0.sheets
              && result.value.0 == s.(sheets := result.value.0.sheets)
              && result.value.0.sheets.Keys == s.sheets.Keys - {id}
              && forall k | k in s.sheets && k != id :: result.value.0.sheets[k] == s.sheets[k]
  {
  }
}
