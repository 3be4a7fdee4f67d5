/**
 * Actor projections: a transition keeps rows and world actors in one-to-one
 * correspondence and touches only what its caller may touch.
 */
module LedgerActors {
  import opened JsonValues
  import opened Outcomes
  import opened TextRules
  import opened WorldState
  import opened LedgerTables
  import opened LedgerRules
  import opened LedgerChain
  import CanonicalRoundTrip
  import CT = CanonicalText

  // ---- Counting ----

  lemma {:induction false} DistinctCover(ids: seq<string>, keys: set<string>)
    requires Distinct(ids) && |ids| == |keys|
    requires forall i | 0 <= i < |ids| :: ids[i] in keys
    ensures forall k | k in keys :: k in ids
  {
    if ids != [] {
      var last := |ids| - 1;
      var init, rest := ids[..last], keys - {ids[last]};
      forall i | 0 <= i < |init| ensures init[i] in rest {
        assert ids[i] != ids[last];
      }
      DistinctCover(init, rest);
      forall k | k in keys ensures k in ids {
        if k != ids[last] {
          assert k in rest && k in init;
        }
      }
    }
  }

  /** An injective map into a set of the same size reaches every element. */
  lemma {:induction false} InjectiveCover(actors: map<Uuid, ActorRow>, keys: set<string>)
    requires |actors| == |keys|
    requires forall id | id in actors :: WorldIdOf(actors[id]) in keys
    requires forall a, b | a in actors && b in actors && a != b :: WorldIdOf(actors[a]) != WorldIdOf(actors[b])
    ensures forall k | k in keys :: exists id :: id in actors && WorldIdOf(actors[id]) == k
  {
    if |actors| > 0 {
      var id :| id in actors;
      var k0 := WorldIdOf(actors[id]);
      var smaller := map a | a in actors && a != id :: actors[a];
      assert smaller.Keys == actors.Keys - {id};
      InjectiveCover(smaller, keys - {k0});
      forall k | k in keys ensures exists id :: id in actors && WorldIdOf(actors[id]) == k {
        if k != k0 {
          assert k in keys - {k0};
          var a :| a in smaller && WorldIdOf(smaller[a]) == k;
          assert a in actors && WorldIdOf(actors[a]) == k;
        }
      }
    }
  }

  /** The accepted correspondence is a bijection: every world actor has its one row. */
  lemma BoundIsBijection(env: Env, actors: map<Uuid, ActorRow>, world: map<string, Json>, worldActorId: string)
    requires ActorsBound(env, actors, world) && worldActorId in world
    ensures exists id :: id in actors && WorldIdOf(actors[id]) == worldActorId
                         && CanonicalBytes(world[worldActorId]) == CanonicalBytes(actors[id].projection)
                         && forall other | other in actors && WorldIdOf(actors[other]) == worldActorId :: other == id
  {
    hide CarriesIdentity, CanonicalBytes, WorldIdOf, Exact, CT.Text;
    assert |actors| == |world.Keys|;
    forall id | id in actors ensures WorldIdOf(actors[id]) in world.Keys {
      assert ActorBound(env, actors[id], world);
    }
    InjectiveCover(actors, world.Keys);
    var id :| id in actors && WorldIdOf(actors[id]) == worldActorId;
    assert ActorBound(env, actors[id], world);
  }

  // ---- One projection ----

  /** What an accepted binding says about its actor's projection in the new world. */
  predicate Projected(c: ProjectionContext, b: ActorBinding, u: Projection) {
    && u.actorId == b.actorId && b.actorId in c.rows && b.worldActorId in c.newActors
    && var row, next := c.rows[b.actorId], c.newActors[b.worldActorId];
    && Exact(next) && u.bytes == CT.Text(next) && u.stateHash == c.env.hash(u.bytes)
    && CarriesIdentity(row, next, b.worldActorId)
    && WorldIdOf(row) == b.worldActorId
    && (next != row.projection ==>
          && (b.actorId == c.request.sourceActorId || b.actorId in c.request.targetActorIds)
          && c.user in c.members && MayMutate(c.members[c.user], c.user, row))
  }

  lemma ProjectActorMeaning(c: ProjectionContext, b: ActorBinding)
    requires ProjectActor(c, b).Ok?
    ensures Projected(c, b, ProjectActor(c, b).value)
  {
    hide CheckActorMembers, CT.Text, MayMutate, Exact, Blank;
    var row, next := c.rows[b.actorId], c.newActors[b.worldActorId];
    if CT.Text(next) == CT.Text(row.projection) {
      CanonicalRoundTrip.TextInjective(next, row.projection);
    }
  }

  lemma {:induction false} ProjectActorsMeaning(c: ProjectionContext, bindings: seq<ActorBinding>)
    requires ProjectActors(c, bindings).Ok?
    ensures var updates := ProjectActors(c, bindings).value;
            && |updates| == |bindings|
            && forall i | 0 <= i < |bindings| :: Projected(c, bindings[i], updates[i])
  {
    hide ProjectActor, Projected;
    if bindings != [] {
      ProjectActorMeaning(c, bindings[0]);
      ProjectActorsMeaning(c, bindings[1..]);
      var updates := ProjectActors(c, bindings).value;
      forall i | 0 <= i < |bindings| ensures Projected(c, bindings[i], updates[i]) {
        if i > 0 {
          assert bindings[i] == bindings[1..][i - 1];
        }
      }
    }
  }

  // ---- The update of the rows ----

  function WithProjection(row: ActorRow, u: Projection, schemaVersion: int, seqNo: int): ActorRow {
    row.(projection := StoredJson(u.bytes), stateHash := u.stateHash, schemaVersion := schemaVersion, projectionSeq := seqNo)
  }

  lemma {:induction false} UpdateActorsMeaning(actors: map<Uuid, ActorRow>, updates: seq<Projection>,
        schemaVersion: int, seqNo: int)
    requires forall i, j | 0 <= i < j < |updates| :: updates[i].actorId != updates[j].actorId
    ensures var r := UpdateActors(actors, updates, schemaVersion, seqNo);
            && r.Keys == actors.Keys
            && (forall id | id in actors && (forall i | 0 <= i < |updates| :: updates[i].actorId != id) :: r[id] == actors[id])
            && forall i | 0 <= i < |updates| && updates[i].actorId in actors ::
                 r[updates[i].actorId] == WithProjection(actors[updates[i].actorId], updates[i], schemaVersion, seqNo)
    decreases |updates|
  {
    hide StoredJson;
    if updates != [] {
      var u := updates[0];
      var next := if u.actorId in actors then actors[u.actorId := WithProjection(actors[u.actorId], u, schemaVersion, seqNo)] else actors;
      UpdateActorsMeaning(next, updates[1..], schemaVersion, seqNo);
      var r := UpdateActors(actors, updates, schemaVersion, seqNo);
      assert r == UpdateActors(next, updates[1..], schemaVersion, seqNo);
      forall i | 0 <= i < |updates| && updates[i].actorId in actors
        ensures r[updates[i].actorId] == WithProjection(actors[updates[i].actorId], updates[i], schemaVersion, seqNo)
      {
        if i > 0 {
          assert updates[i] == updates[1..][i - 1];
        } else {
          assert forall j | 0 <= j < |updates[1..]| :: updates[1..][j] == updates[j + 1];
        }
      }
    }
  }

  // ---- The step ----

  /** Identity, ownership, control, kind and lifecycle stay as they are. */
  predicate SameActor(a: ActorRow, b: ActorRow) {
    a.characterId == b.characterId && a.owner == b.owner && a.controller == b.controller
    && a.kind == b.kind && a.active == b.active
  }

  /** The actor is the source or a declared target, and the caller may change it. */
  predicate Touchable(t: Tables, user: Uuid, r: Request, id: Uuid) {
    && id in t.actors && user in t.members
    && (id == r.sourceActorId || id in r.targetActorIds)
    && MayMutate(t.members[user], user, t.actors[id])
  }

  lemma BindingsCover(env: Env, t: Tables, user: Uuid, p: Prepared, base: WorldView, updates: seq<Projection>)
    requires BindingsOk(p.request.actorBindings)
    requires PrepareProjections(Context(env, t, user, p, base)) == Ok(updates)
    ensures var c := Context(env, t, user, p, base);
            var bindings := p.request.actorBindings;
            && |updates| == |bindings| == |c.rows| == |c.newActors|
            && (forall i | 0 <= i < |bindings| :: Projected(c, bindings[i], updates[i]))
            && (forall i, j | 0 <= i < j < |updates| :: updates[i].actorId != updates[j].actorId)
            && (forall id | id in c.rows :: exists i :: 0 <= i < |updates| && bindings[i].actorId == id)
  {
    hide ProjectActors, CarriesIdentity, CT.Text, Exact, Blank, Trimmed, WorldIdOf, MayMutate;
    var c, bindings := Context(env, t, user, p, base), p.request.actorBindings;
    ProjectActorsMeaning(c, bindings);
    var ids := seq(|bindings|, i requires 0 <= i < |bindings| => bindings[i].actorId);
    forall i | 0 <= i < |ids| ensures ids[i] in c.rows.Keys {
      assert Projected(c, bindings[i], updates[i]);
    }
    assert |c.rows| == |c.rows.Keys|;
    DistinctCover(ids, c.rows.Keys);
    forall i, j | 0 <= i < j < |updates| ensures updates[i].actorId != updates[j].actorId {
      assert Projected(c, bindings[i], updates[i]) && Projected(c, bindings[j], updates[j]);
    }
    forall id | id in c.rows ensures exists i :: 0 <= i < |updates| && bindings[i].actorId == id {
      assert id in ids;
      var i :| 0 <= i < |ids| && ids[i] == id;
      assert bindings[i].actorId == id;
    }
  }

  /** One updated row still describes its world actor, now the new one. */
  lemma UpdatedRowBound(c: ProjectionContext, b: ActorBinding, u: Projection, schemaVersion: int, seqNo: int)
    requires Projected(c, b, u) && !Blank(b.worldActorId)
    ensures var row := WithProjection(c.rows[b.actorId], u, schemaVersion, seqNo);
            && ActorBound(c.env, row, c.newActors)
            && WorldIdOf(row) == b.worldActorId
            && row.projection == c.newActors[b.worldActorId]
            && SameActor(row, c.rows[b.actorId])
  {
    hide StoredJson, CT.Text, Exact, Blank, MayMutate;
    StoredIsValue(c.newActors[b.worldActorId]);
  }

  /** The rows after an update: `c` names the active ones, each updated by its binding's projection. */
  ghost predicate RowsUpdated(c: ProjectionContext, updates: seq<Projection>, schemaVersion: int, seqNo: int,
                        before: map<Uuid, ActorRow>, after: map<Uuid, ActorRow>) {
    && after.Keys == before.Keys
    && (forall id | id in before && id !in c.rows :: id in after && after[id] == before[id])
    && (forall id | id in c.rows :: id in after && exists i :: RowFrom(c, updates, schemaVersion, seqNo, id, after[id], i))
  }

  predicate RowFrom(c: ProjectionContext, updates: seq<Projection>, schemaVersion: int, seqNo: int,
                    id: Uuid, row: ActorRow, i: int) {
    && 0 <= i < |updates| && i < |c.request.actorBindings| && c.request.actorBindings[i].actorId == id && id in c.rows
    && row == WithProjection(c.rows[id], updates[i], schemaVersion, seqNo)
  }

  lemma ActorRowsAfter(env: Env, t: Tables, user: Uuid, p: Prepared, base: WorldView, updates: seq<Projection>,
                       schemaVersion: int, seqNo: int)
    requires BindingsOk(p.request.actorBindings)
    requires PrepareProjections(Context(env, t, user, p, base)) == Ok(updates)
    ensures RowsUpdated(Context(env, t, user, p, base), updates, schemaVersion, seqNo, t.actors,
                        UpdateActors(t.actors, updates, schemaVersion, seqNo))
  {
    hide PrepareProjections, WithProjection, Projected, BindingsOk;
    var c, bindings := Context(env, t, user, p, base), p.request.actorBindings;
    BindingsCover(env, t, user, p, base, updates);
    UpdateActorsMeaning(t.actors, updates, schemaVersion, seqNo);
    var after := UpdateActors(t.actors, updates, schemaVersion, seqNo);
    forall i | 0 <= i < |updates| ensures updates[i].actorId == bindings[i].actorId && updates[i].actorId in c.rows {
      ProjectedNames(c, bindings[i], updates[i]);
    }
    forall id | id in c.rows ensures exists i :: RowFrom(c, updates, schemaVersion, seqNo, id, after[id], i) {
      var i :| 0 <= i < |updates| && bindings[i].actorId == id;
      assert after[updates[i].actorId] == WithProjection(t.actors[updates[i].actorId], updates[i], schemaVersion, seqNo);
      assert RowFrom(c, updates, schemaVersion, seqNo, id, after[id], i);
    }
  }

  lemma ProjectedNames(c: ProjectionContext, b: ActorBinding, u: Projection)
    requires Projected(c, b, u)
    ensures u.actorId == b.actorId && u.actorId in c.rows
  {
  }

  /** One row before and after: bound to the new world, touched only if the caller may. */
  predicate RowStep(env: Env, c: ProjectionContext, id: Uuid, before: ActorRow, after: ActorRow) {
    && ActorBound(env, after, c.newActors) && SameActor(after, before)
    && (after.projection != before.projection ==>
          && (id == c.request.sourceActorId || id in c.request.targetActorIds)
          && c.user in c.members && MayMutate(c.members[c.user], c.user, before))
  }

  lemma RowStepOf(env: Env, c: ProjectionContext, updates: seq<Projection>, schemaVersion: int, seqNo: int,
                  id: Uuid, row: ActorRow, i: int)
    requires BindingsOk(c.request.actorBindings) && env == c.env
    requires RowFrom(c, updates, schemaVersion, seqNo, id, row, i)
    requires Projected(c, c.request.actorBindings[i], updates[i])
    ensures RowStep(env, c, id, c.rows[id], row)
    ensures WorldIdOf(row) == c.request.actorBindings[i].worldActorId
  {
    hide ActorBound, BindingsOk, MayMutate, Projected, WithProjection;
    var b := c.request.actorBindings[i];
    BindingNamesActor(c.request.actorBindings, i);
    UpdatedRowBound(c, b, updates[i], schemaVersion, seqNo);
    ProjectedTouches(c, b, updates[i]);
  }

  lemma RowsKeepActors(c: ProjectionContext, updates: seq<Projection>, schemaVersion: int, seqNo: int,
                       before: map<Uuid, ActorRow>, after: map<Uuid, ActorRow>)
    requires RowsUpdated(c, updates, schemaVersion, seqNo, before, after)
    ensures forall id | id in c.rows :: id in after && SameActor(after[id], c.rows[id])
  {
    hide StoredJson;
    forall id | id in c.rows ensures SameActor(after[id], c.rows[id]) {
      var i :| RowFrom(c, updates, schemaVersion, seqNo, id, after[id], i);
    }
  }

  /** The active rows are bound to the new world after the update. */
  lemma RowsBound(env: Env, c: ProjectionContext, updates: seq<Projection>, schemaVersion: int, seqNo: int,
                  before: map<Uuid, ActorRow>, after: map<Uuid, ActorRow>, active: map<Uuid, ActorRow>)
    requires BindingsOk(c.request.actorBindings) && env == c.env
    requires RowsUpdated(c, updates, schemaVersion, seqNo, before, after)
    requires |updates| == |c.request.actorBindings|
    requires forall i | 0 <= i < |updates| :: Projected(c, c.request.actorBindings[i], updates[i])
    requires active.Keys == c.rows.Keys && (forall id | id in active :: id in after && active[id] == after[id])
    requires |c.rows| == |c.newActors|
    ensures ActorsBound(env, active, c.newActors)
    ensures forall id | id in active :: RowStep(env, c, id, c.rows[id], active[id])
  {
    hide ActorBound, BindingsOk, Projected, WithProjection, SameActor, MayMutate, WorldIdOf;
    forall id | id in active ensures RowStep(env, c, id, c.rows[id], active[id]) {
      var i :| RowFrom(c, updates, schemaVersion, seqNo, id, after[id], i);
      RowStepOf(env, c, updates, schemaVersion, seqNo, id, after[id], i);
    }
    forall a, b | a in active && b in active && a != b ensures WorldIdOf(active[a]) != WorldIdOf(active[b]) {
      var i :| RowFrom(c, updates, schemaVersion, seqNo, a, after[a], i);
      var j :| RowFrom(c, updates, schemaVersion, seqNo, b, after[b], j);
      RowStepOf(env, c, updates, schemaVersion, seqNo, a, after[a], i);
      RowStepOf(env, c, updates, schemaVersion, seqNo, b, after[b], j);
      BindingsDiffer(c.request.actorBindings, i, j);
    }
    assert |active| == |active.Keys| && |c.rows| == |c.rows.Keys|;
  }

  /**
   * An accepted transition keeps identity, kind and controller of every actor,
   * changes only projections the caller may change, and leaves the rows bound
   * to the new world.
   */
  lemma ActorsStep(env: Env, t: Tables, user: Uuid, p: Prepared, base: WorldView, updates: seq<Projection>,
                   schemaVersion: int, seqNo: int)
    requires BindingsOk(p.request.actorBindings)
    requires PrepareProjections(Context(env, t, user, p, base)) == Ok(updates)
    ensures var after := UpdateActors(t.actors, updates, schemaVersion, seqNo);
            && ActorsChange(t, user, p.request, after)
            && ActorsBound(env, ActiveActors(t.(actors := after)), p.world.actors)
  {
    hide PrepareProjections, UpdateActors, WithProjection, ActorBound, BindingsOk, Projected, MayMutate, RowFrom,
         ActorsBound;
    var c := Context(env, t, user, p, base);
    var after := UpdateActors(t.actors, updates, schemaVersion, seqNo);
    var active := ActiveActors(t.(actors := after));
    BindingsCover(env, t, user, p, base, updates);
    ActorRowsAfter(env, t, user, p, base, updates, schemaVersion, seqNo);
    RowsKeepActors(c, updates, schemaVersion, seqNo, t.actors, after);
    assert active.Keys == c.rows.Keys;
    RowsBound(env, c, updates, schemaVersion, seqNo, t.actors, after, active);
    forall id | id in t.actors
      ensures SameActor(after[id], t.actors[id])
      ensures after[id].projection != t.actors[id].projection ==> Touchable(t, user, p.request, id)
    {
      if id in c.rows {
        assert RowStep(env, c, id, c.rows[id], active[id]);
      }
    }
  }

  /** Same actors before and after; projections differ only where the caller may touch. */
  predicate ActorsChange(t: Tables, user: Uuid, r: Request, after: map<Uuid, ActorRow>) {
    && after.Keys == t.actors.Keys
    && (forall id | id in t.actors :: SameActor(after[id], t.actors[id]))
    && (forall id | id in t.actors && after[id].projection != t.actors[id].projection :: Touchable(t, user, r, id))
  }

  lemma ProjectedTouches(c: ProjectionContext, b: ActorBinding, u: Projection)
    requires Projected(c, b, u)
    ensures c.newActors[b.worldActorId] != c.rows[b.actorId].projection ==>
              && (b.actorId == c.request.sourceActorId || b.actorId in c.request.targetActorIds)
              && c.user in c.members && MayMutate(c.members[c.user], c.user, c.rows[b.actorId])
  {
  }

  lemma BindingNamesActor(bindings: seq<ActorBinding>, i: nat)
    requires BindingsOk(bindings) && i < |bindings|
    ensures !Blank(bindings[i].worldActorId)
  {
    assert bindings[i] in bindings;
  }

  lemma BindingsDiffer(bindings: seq<ActorBinding>, i: nat, j: nat)
    requires BindingsOk(bindings) && i < |bindings| && j < |bindings| && i != j
    ensures bindings[i].worldActorId != bindings[j].worldActorId
  {
  }
}
