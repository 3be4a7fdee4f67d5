/**
 * The invariant of the shared tables: sheets and combatants refer to each
 * other, hit points are mirrored, and every state is the replay of its events.
 */
module TabletopInvariant {
  import opened JsonValues
  import opened Outcomes
  import opened WorldState
  import opened Identifiers
  import opened EncounterState
  import opened TabletopTables
  import opened EncounterRules
  import opened CombatantLists
  import opened EncounterSteps

  // ---- The invariant ----

  /** Hit points are equal, and the sheet holds the integral part of the temporary ones. */
  predicate Mirrored(c: Fields, r: Runtime) {
    && Field(c, "hp") == Num(r.currentHp)
    && IsNumber(Field(c, "temp"))
    && Field(OrEmpty(r.turnState), TEMP_KEY) == Num(Truncated(Field(c, "temp")))
  }

  predicate Tracked(sheets: map<Id, Sheet>, e: Id, c: Fields) {
    SheetOf(c).Some? ==>
      && SheetOf(c).value in sheets
      && sheets[SheetOf(c).value].encounter == Some(e)
      && Mirrored(c, sheets[SheetOf(c).value].runtime)
  }

  predicate Tracks(sheets: map<Id, Sheet>, e: Id, cs: seq<Fields>) {
    forall i | 0 <= i < |cs| :: Tracked(sheets, e, cs[i])
  }

  predicate ArrayOfObjects(v: Json) {
    v.Arr? && forall i | 0 <= i < |v.items| :: v.items[i].Obj?
  }

  /** Event k has number k, and the state is their replay from the empty encounter. */
  predicate EventsOk(env: Env, enc: Encounter) {
    && enc.seqNo == |enc.events|
    && (forall k | 0 <= k < |enc.events| :: enc.events[k].seqNo == k + 1)
    && Replay(env.show, enc.events) == enc.state
  }

  predicate EncounterOk(env: Env, sheets: map<Id, Sheet>, e: Id, enc: Encounter) {
    && ArrayOfObjects(Field(enc.state, "combatants"))
    && ListOk(Combatants(enc.state))
    && Tracks(sheets, e, Combatants(enc.state))
    && EventsOk(env, enc)
  }

  /** The sheet is a combatant of the encounter. */
  predicate Fights(enc: Encounter, id: Id) {
    exists c | c in Combatants(enc.state) :: SheetOf(c) == Some(id)
  }

  predicate LinksOk(s: Tabletop) {
    forall id | id in s.sheets && s.sheets[id].encounter.Some? ::
      s.sheets[id].encounter.value in s.encounters && Fights(s.encounters[s.sheets[id].encounter.value], id)
  }

  predicate RowsOk(s: Tabletop) {
    && s.encounters.Keys <= s.issued && s.sheets.Keys <= s.issued
    && forall id | id in s.sheets :: id != NIL_ID && s.sheets[id].owner != NIL_ID
  }

  predicate Inv(env: Env, s: Tabletop) {
    && RowsOk(s) && LinksOk(s)
    && forall e | e in s.encounters :: EncounterOk(env, s.sheets, e, s.encounters[e])
  }

  // ---- Names in a state ----

  lemma StateIdsMeaning(state: Fields)
    requires ListOk(Combatants(state))
    ensures forall t :: t in StateIds(state) <==> IsCanonical(t) && exists c :: c in Combatants(state) && SheetOf(c) == Some(t)
  {
    hide Combatants, Named;
    var cs := Combatants(state);
    forall t ensures t in StateIds(state) <==> IsCanonical(t) && exists c :: c in cs && SheetOf(c) == Some(t) {
      if t in StateIds(state) {
        var i :| 0 <= i < |cs| && Field(cs[i], "characterId") == Str(t) && t != "";
        assert LinkReadable(cs[i]);
        assert cs[i] in cs && SheetOf(cs[i]) == Some(t);
      }
      if IsCanonical(t) && exists c :: c in cs && SheetOf(c) == Some(t) {
        var c :| c in cs && SheetOf(c) == Some(t);
        var i :| 0 <= i < |cs| && cs[i] == c;
        CanonicalIsTrimmed(t);
        assert Field(cs[i], "characterId") == Str(t);
      }
    }
  }

  lemma NamesCanonical(texts: set<string>, id: Id)
    requires forall t | t in texts :: IsCanonical(t)
    ensures Names(texts, id) <==> id in texts
  {
    if id in texts {
      assert ParseUuid(id) == Some(id);
    }
    if Names(texts, id) {
      var t :| t in texts && ParseUuid(t) == Some(id);
      assert ParseUuid(t) == Some(t);
    }
  }

  // ---- Writing through ----

  lemma SyncTargetIs(sheets: map<Id, Sheet>, loaded: set<Id>, c: Fields)
    requires LinkReadable(c)
    requires SheetOf(c).Some? ==> SheetOf(c).value in loaded && SheetOf(c).value in sheets && sheets[SheetOf(c).value].owner != NIL_ID
    ensures SyncTarget(sheets, loaded, c) == SheetOf(c)
  {
    if SheetOf(c).Some? {
      assert ParseUuid(SheetOf(c).value) == SheetOf(c);
      CanonicalIsTrimmed(SheetOf(c).value);
    }
  }

  predicate Writable(sheets: map<Id, Sheet>, loaded: set<Id>, cs: seq<Fields>) {
    forall c | c in cs && SheetOf(c).Some? ::
      SheetOf(c).value in loaded && SheetOf(c).value in sheets && sheets[SheetOf(c).value].owner != NIL_ID
  }

  lemma SyncOneMeaning(env: Env, sheets: map<Id, Sheet>, loaded: set<Id>, c: Fields, op: Op)
    requires Named(c) && LinkReadable(c)
    requires SheetOf(c).Some? ==> SheetOf(c).value in loaded && SheetOf(c).value in sheets && sheets[SheetOf(c).value].owner != NIL_ID
    ensures SyncOne(env, sheets, loaded, c, op) ==
            if SheetOf(c).None? then sheets
            else sheets[SheetOf(c).value := SyncSheet(env, sheets[SheetOf(c).value], c, Touched(op, Actor(c)))]
  {
    hide SyncSheet, Touched, SheetOf, SyncTarget, LinkReadable;
    SyncTargetIs(sheets, loaded, c);
  }

  /** Every linked combatant of a well-formed list is written to its own sheet, once. */
  lemma {:induction false} SyncAllMeaning(env: Env, sheets: map<Id, Sheet>, loaded: set<Id>, cs: seq<Fields>, op: Op)
    requires ListOk(cs) && Writable(sheets, loaded, cs)
    ensures var r := SyncAll(env, sheets, loaded, cs, op);
            && (forall i | 0 <= i < |cs| && SheetOf(cs[i]).Some? ::
                  r[SheetOf(cs[i]).value] == SyncSheet(env, sheets[SheetOf(cs[i]).value], cs[i], Touched(op, Actor(cs[i]))))
            && (forall id | id in sheets && (forall c | c in cs :: SheetOf(c) != Some(id)) :: r[id] == sheets[id])
    decreases |cs|
  {
    hide SheetOf, Actor, SyncSheet, Touched, SyncOne, Named, LinkReadable;
    if cs != [] {
      var c := cs[0];
      assert Named(c) && LinkReadable(c) && c in cs;
      SyncOneMeaning(env, sheets, loaded, c, op);
      var next := SyncOne(env, sheets, loaded, c, op);
      TailOk(cs);
      SyncKeepsOwner(env, sheets, c, op);
      assert Writable(next, loaded, cs[1..]);
      SyncAllMeaning(env, next, loaded, cs[1..], op);
      var r := SyncAll(env, sheets, loaded, cs, op);
      forall i | 0 <= i < |cs| && SheetOf(cs[i]).Some?
        ensures r[SheetOf(cs[i]).value] == SyncSheet(env, sheets[SheetOf(cs[i]).value], cs[i], Touched(op, Actor(cs[i])))
      {
        if i > 0 {
          assert cs[i] == cs[1..][i - 1] && cs[i] in cs[1..];
          HeadDiffers(cs, cs[i]);
        } else {
          forall d | d in cs[1..] ensures SheetOf(d) != SheetOf(c) {
            HeadDiffers(cs, d);
          }
        }
      }
    }
  }

  lemma SyncKeepsOwner(env: Env, sheets: map<Id, Sheet>, c: Fields, op: Op)
    ensures SheetOf(c).Some? && SheetOf(c).value in sheets ==>
              var sheet := sheets[SheetOf(c).value];
              SyncSheet(env, sheet, c, Touched(op, Actor(c))).owner == sheet.owner
  {
    hide SheetOf, Touched, SyncPatch, Overlay;
  }

  /** Patching a mirrored combatant and writing it through leaves it mirrored. */
  lemma PatchMirrors(env: Env, sheet: Sheet, c: Fields, m: Fields, touched: set<string>)
    requires Mirrored(c, sheet.runtime)
    requires "hp" in touched <==> "hp" in m
    requires "temp" in touched <==> "temp" in m
    requires "hp" in m ==> m["hp"].Num?
    requires "temp" in m ==> m["temp"].Num?
    ensures Mirrored(c + m, SyncSheet(env, sheet, c + m, touched).runtime)
  {
  }

  /** A sheet that joins with its own values and is written through is mirrored. */
  lemma JoinMirrors(env: Env, sheet: Sheet, c: Fields, touched: set<string>)
    requires Field(c, "hp") == Num(sheet.runtime.currentHp) && Field(c, "temp") == TempHp(sheet.runtime.turnState)
    requires "hp" !in touched && "temp" in touched
    ensures Mirrored(c, SyncSheet(env, sheet, c, touched).runtime)
  {
    assert "temp" in c;
  }
}
