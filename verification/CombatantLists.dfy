/** Lists of combatants: what an operation does to each of them. */
module CombatantLists {
  import opened JsonValues
  import opened Outcomes
  import opened TextRules
  import opened WorldState
  import opened Identifiers
  import opened EncounterState
  import opened TabletopTables
  import opened EncounterRules

  // ---- Well-formed lists ----

  /** The combatant has a trimmed, non-blank name of its own. */
  predicate Named(c: Fields) {
    var id := Field(c, "actorId");
    id.Str? && Trimmed(id.text) && !Blank(id.text)
  }

  predicate LinkReadable(c: Fields) {
    var v := Field(c, "characterId");
    v.Null? || (v.Str? && IsCanonical(v.text) && v.text != NIL_ID)
  }

  function SheetOf(c: Fields): Option<Id> {
    var v := Field(c, "characterId");
    if v.Str? && IsCanonical(v.text) then Some(v.text) else None
  }

  function Actor(c: Fields): string {
    ReadText(Field(c, "actorId"))
  }

  /** All combatants are named and readable; no two share an actor or a sheet. */
  predicate ListOk(cs: seq<Fields>) {
    && (forall i | 0 <= i < |cs| :: Named(cs[i]) && LinkReadable(cs[i]))
    && (forall i, j | 0 <= i < j < |cs| ::
          Actor(cs[i]) != Actor(cs[j]) && (SheetOf(cs[i]).Some? ==> SheetOf(cs[i]) != SheetOf(cs[j])))
  }

  lemma TailOk(cs: seq<Fields>)
    requires ListOk(cs) && cs != []
    ensures ListOk(cs[1..])
  {
    forall i, j | 0 <= i < j < |cs[1..]| ensures cs[1..][i] == cs[i + 1] && cs[1..][j] == cs[j + 1] {
    }
  }

  lemma NamedText(show: Printer, c: Fields)
    requires Named(c)
    ensures ActorText(show, c) == Actor(c)
  {
  }

  lemma LinkMeaning(env: Env, c: Fields)
    requires LinkReadable(c)
    ensures CharacterRef(env, c) == if SheetOf(c).Some? then Linked(SheetOf(c).value) else Creature
  {
    if SheetOf(c).Some? {
      CanonicalIsTrimmed(SheetOf(c).value);
    }
  }

  // ---- Removal ----

  /** The combatants that are not named for removal. */
  function Kept(cs: seq<Fields>, ids: seq<string>): (kept: seq<Fields>)
    ensures forall c :: c in kept <==> c in cs && Actor(c) !in ids
  {
    if cs == [] then [] else (if Actor(cs[0]) in ids then [] else [cs[0]]) + Kept(cs[1..], ids)
  }

  lemma {:induction false} KeptAll(cs: seq<Fields>, ids: seq<string>)
    requires forall c | c in cs :: Actor(c) !in ids
    ensures Kept(cs, ids) == cs
  {
    if cs != [] {
      assert cs[0] in cs;
      KeptAll(cs[1..], ids);
    }
  }

  lemma {:induction false} KeptTwice(cs: seq<Fields>, a: string, rest: seq<string>)
    ensures Kept(Kept(cs, [a]), rest) == Kept(cs, [a] + rest)
  {
    if cs != [] {
      KeptTwice(cs[1..], a, rest);
      if Actor(cs[0]) == a {
        assert Kept(cs, [a]) == Kept(cs[1..], [a]);
      } else {
        assert Kept(cs, [a]) == [cs[0]] + Kept(cs[1..], [a]);
        assert Kept(cs, [a])[1..] == Kept(cs[1..], [a]);
        assert Actor(cs[0]) in [a] + rest <==> Actor(cs[0]) in rest;
      }
    }
  }

  lemma {:induction false} RemoveFirstKeeps(show: Printer, cs: seq<Fields>, id: string)
    requires ListOk(cs)
    ensures RemoveFirst(show, cs, id) == Kept(cs, [id])
  {
    if cs != [] {
      TailOk(cs);
      NamedText(show, cs[0]);
      if Actor(cs[0]) == id {
        forall c | c in cs[1..] ensures Actor(c) !in [id] {
          var j :| 0 <= j < |cs[1..]| && cs[1..][j] == c;
          assert cs[j + 1] == c;
        }
        KeptAll(cs[1..], [id]);
      } else {
        RemoveFirstKeeps(show, cs[1..], id);
      }
    }
  }

  lemma ConsOk(c: Fields, rest: seq<Fields>)
    requires ListOk(rest) && Named(c) && LinkReadable(c)
    requires forall r | r in rest :: Actor(c) != Actor(r) && (SheetOf(c).Some? ==> SheetOf(c) != SheetOf(r))
    ensures ListOk([c] + rest)
  {
    hide Named, LinkReadable, SheetOf, Actor;
    var all := [c] + rest;
    forall i, j | 0 <= i < j < |all|
      ensures Actor(all[i]) != Actor(all[j]) && (SheetOf(all[i]).Some? ==> SheetOf(all[i]) != SheetOf(all[j]))
    {
      assert all[j] == rest[j - 1];
      if i > 0 { assert all[i] == rest[i - 1]; }
    }
  }

  /** The head of a well-formed list differs from all that follows. */
  lemma HeadDiffers(cs: seq<Fields>, c: Fields)
    requires ListOk(cs) && cs != [] && c in cs[1..]
    ensures Actor(cs[0]) != Actor(c) && (SheetOf(cs[0]).Some? ==> SheetOf(cs[0]) != SheetOf(c))
  {
    hide Named, LinkReadable, SheetOf, Actor;
    var k :| 0 <= k < |cs[1..]| && cs[1..][k] == c;
    assert cs[k + 1] == c;
  }

  lemma {:induction false} KeptOk(cs: seq<Fields>, ids: seq<string>)
    requires ListOk(cs)
    ensures ListOk(Kept(cs, ids))
  {
    hide Named, LinkReadable, SheetOf, Actor;
    if cs != [] {
      TailOk(cs);
      KeptOk(cs[1..], ids);
      if Actor(cs[0]) !in ids {
        forall r | r in Kept(cs[1..], ids)
          ensures Actor(cs[0]) != Actor(r) && (SheetOf(cs[0]).Some? ==> SheetOf(cs[0]) != SheetOf(r))
        {
          HeadDiffers(cs, r);
        }
        ConsOk(cs[0], Kept(cs[1..], ids));
      }
    }
  }

  /** On a well-formed list, removing by position is filtering by name. */
  lemma {:induction false} RemoveAllKeeps(show: Printer, cs: seq<Fields>, ids: seq<string>)
    requires ListOk(cs)
    ensures RemoveAll(show, cs, ids) == Kept(cs, ids)
    decreases |ids|
  {
    if ids == [] {
      KeptAll(cs, ids);
    } else {
      RemoveFirstKeeps(show, cs, ids[0]);
      KeptOk(cs, [ids[0]]);
      RemoveAllKeeps(show, Kept(cs, [ids[0]]), ids[1..]);
      KeptTwice(cs, ids[0], ids[1..]);
      assert ids == [ids[0]] + ids[1..];
    }
  }

  // ---- Patches ----

  /** Patches of the interaction fields cannot rename a combatant or change its sheet. */
  predicate Harmless(ps: seq<Patch>) {
    forall i | 0 <= i < |ps| :: "actorId" !in ps[i].values && "characterId" !in ps[i].values
  }

  /** All values that the patches write into one actor, later patches last. */
  function Merged(ps: seq<Patch>, actorId: string): Fields {
    if ps == [] then map[]
    else (if ps[0].actorId == actorId then ps[0].values else map[]) + Merged(ps[1..], actorId)
  }

  lemma {:induction false} MergedKeys(ps: seq<Patch>, actorId: string, k: string)
    ensures k in Merged(ps, actorId) <==> exists i :: 0 <= i < |ps| && ps[i].actorId == actorId && k in ps[i].values
    ensures k in Merged(ps, actorId) ==>
              exists i :: 0 <= i < |ps| && ps[i].actorId == actorId && k in ps[i].values && Merged(ps, actorId)[k] == ps[i].values[k]
  {
    if ps != [] {
      MergedKeys(ps[1..], actorId, k);
      assert forall i | 0 <= i < |ps[1..]| :: ps[1..][i] == ps[i + 1];
      if k in Merged(ps[1..], actorId) {
        var i :| 0 <= i < |ps[1..]| && ps[1..][i].actorId == actorId && k in ps[1..][i].values
                 && Merged(ps[1..], actorId)[k] == ps[1..][i].values[k];
        assert ps[i + 1].actorId == actorId;
      } else if ps[0].actorId == actorId && k in ps[0].values {
        assert Merged(ps, actorId)[k] == ps[0].values[k];
      }
    }
  }

  lemma {:induction false} PatchFirstEach(show: Printer, cs: seq<Fields>, p: Patch)
    requires ListOk(cs)
    ensures var r := PatchFirst(show, cs, p);
            |r| == |cs| && forall i | 0 <= i < |cs| :: r[i] == if Actor(cs[i]) == p.actorId then cs[i] + p.values else cs[i]
  {
    if cs != [] {
      TailOk(cs);
      NamedText(show, cs[0]);
      PatchFirstEach(show, cs[1..], p);
      assert forall i | 0 < i < |cs| :: cs[1..][i - 1] == cs[i];
    }
  }

  lemma PatchedOk(cs: seq<Fields>, rs: seq<Fields>)
    requires ListOk(cs) && |rs| == |cs|
    requires forall i | 0 <= i < |cs| ::
               Field(rs[i], "actorId") == Field(cs[i], "actorId") && Field(rs[i], "characterId") == Field(cs[i], "characterId")
    ensures ListOk(rs)
  {
  }

  lemma PatchOnceOk(show: Printer, cs: seq<Fields>, p: Patch)
    requires ListOk(cs) && "actorId" !in p.values && "characterId" !in p.values
    ensures ListOk(PatchFirst(show, cs, p)) && |PatchFirst(show, cs, p)| == |cs|
    ensures forall i | 0 <= i < |cs| :: Actor(PatchFirst(show, cs, p)[i]) == Actor(cs[i])
  {
    hide ListOk, PatchFirst;
    PatchFirstEach(show, cs, p);
    PatchedOk(cs, PatchFirst(show, cs, p));
  }

  lemma MergeTwice(c: Fields, ps: seq<Patch>)
    requires ps != []
    ensures (if Actor(c) == ps[0].actorId then c + ps[0].values else c) + Merged(ps[1..], Actor(c)) == c + Merged(ps, Actor(c))
  {
    hide Actor;
  }

  /** On a well-formed list every patch reaches exactly the combatant it names. */
  lemma {:induction false} PatchAllEach(show: Printer, cs: seq<Fields>, ps: seq<Patch>)
    requires ListOk(cs) && Harmless(ps)
    ensures var r := PatchAll(show, cs, ps);
            |r| == |cs| && forall i | 0 <= i < |cs| :: r[i] == cs[i] + Merged(ps, Actor(cs[i]))
    decreases |ps|
  {
    hide ListOk, PatchFirst, Actor, Merged;
    if ps == [] {
      NothingMerged(cs);
    } else {
      var once := PatchFirst(show, cs, ps[0]);
      PatchFirstEach(show, cs, ps[0]);
      PatchOnceOk(show, cs, ps[0]);
      assert Harmless(ps[1..]) by { assert forall i | 0 <= i < |ps[1..]| :: ps[1..][i] == ps[i + 1]; }
      PatchAllEach(show, once, ps[1..]);
      var r := PatchAll(show, cs, ps);
      forall i | 0 <= i < |cs| ensures r[i] == cs[i] + Merged(ps, Actor(cs[i])) {
        MergeTwice(cs[i], ps);
      }
    }
  }

  lemma NothingMerged(cs: seq<Fields>)
    ensures forall i | 0 <= i < |cs| :: cs[i] == cs[i] + Merged([], Actor(cs[i]))
  {
  }

  // ---- The whole operation ----

  /** The list after an operation: the kept combatants with their patches, then the additions. */
  lemma AfterMeaning(show: Printer, cs: seq<Fields>, op: Op)
    requires ListOk(cs) && Harmless(op.patches)
    ensures var kept := Kept(cs, op.remove);
            var after := CombatantsAfter(show, cs, op);
            && ListOk(kept)
            && |after| == |kept| + |op.add|
            && (forall i | 0 <= i < |kept| :: after[i] == kept[i] + Merged(op.patches, Actor(kept[i])))
            && (forall i | 0 <= i < |op.add| :: after[|kept| + i] == op.add[i])
  {
    hide ListOk, Kept, Merged, PatchAll, RemoveAll, Harmless;
    RemoveAllKeeps(show, cs, op.remove);
    KeptOk(cs, op.remove);
    PatchAllEach(show, Kept(cs, op.remove), op.patches);
  }

  lemma MergedHarmless(ps: seq<Patch>, c: Fields)
    requires Harmless(ps)
    ensures Field(c + Merged(ps, Actor(c)), "actorId") == Field(c, "actorId")
    ensures Field(c + Merged(ps, Actor(c)), "characterId") == Field(c, "characterId")
  {
    MergedKeys(ps, Actor(c), "actorId");
    MergedKeys(ps, Actor(c), "characterId");
  }
}
