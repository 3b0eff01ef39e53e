/**
 * The selection step as a function of the phase's values.
 *
 * The state the selection works on is the phase's combinations
 * (variant -> combination number -> combination), the current table of
 * every catalog object the combinations refer to, and the result dict
 * (type id -> filtered table, or None). Catalog objects are compared by
 * identity, so a table narrowed once is narrowed for every combination that
 * refers to the same object.
 *
 * For each requirement type, in the order of the requirement dict, the
 * selection walks every variant and every combination, in ascending key
 * order over the keys present when that walk starts, and every role of one
 * kind (vessel or equipment). A role whose object's id is the type is
 * narrowed by the type's requirements; an empty result deletes the whole
 * combination and ends the walk over its roles, a non-empty one becomes the
 * object's table and the type's result.
 */
module Selection {
  import opened Wrappers
  import opened Tables
  import opened Phase

  /** Which role list of a combination a selection walks. */
  datatype Kind = Equipment | Vessel

  function RolesOf(cb: Combination, kind: Kind): seq<Role>
  {
    match kind
    case Equipment => cb.equipment
    case Vessel => cb.vessel
  }

  /** One entry of a requirement dict: a type id and its requirements. */
  datatype TypeReq = TypeReq(typeId: string, reqs: seq<Requirement>)

  type Combos = map<int, map<int, Combination>>
  type Views = map<ResourceType, seq<Row>>
  type Found = map<string, Option<seq<Row>>>

  /** What the selection reads and writes: the combinations of every variant,
      the table of every catalog object, and the result dict. */
  datatype St = St(combos: Combos, views: Views, out: Found)

  /** The type ids of a requirement dict. */
  function Ids(ts: seq<TypeReq>): set<string>
  {
    set i | 0 <= i < |ts| :: ts[i].typeId
  }

  /** A dict has each key once. */
  predicate DistinctIds(ts: seq<TypeReq>)
  {
    forall i, j :: 0 <= i < j < |ts| ==> ts[i].typeId != ts[j].typeId
  }

  /** `dict.fromkeys(req.keys())`: every type id, mapped to None. */
  function InitOut(ts: seq<TypeReq>): Found
  {
    map k | k in Ids(ts) :: None
  }

  /** The requirement dict as a map from type id to requirements. */
  function ReqMap(ts: seq<TypeReq>): (m: map<string, seq<Requirement>>)
    ensures m.Keys == Ids(ts)
  {
    if ts == [] then map[]
    else
      var init := ts[..|ts| - 1];
      assert ts == init + [ts[|ts| - 1]];
      assert Ids(ts) == Ids(init) + {ts[|ts| - 1].typeId};
      ReqMap(init)[ts[|ts| - 1].typeId := ts[|ts| - 1].reqs]
  }

  /** A role whose catalog object has the given type id; the `(0, 0, 0)`
      placeholder matches no type. */
  predicate Matches(r: Role, id: string)
  {
    r.Role? && r.res.id == id
  }

  /** Every object named by the roles has a table. */
  predicate RolesIn(rs: seq<Role>, views: Views)
  {
    forall i :: 0 <= i < |rs| && rs[i].Role? ==> rs[i].res in views
  }

  /** Every object of every combination has a table. */
  predicate Closed(combos: Combos, views: Views)
  {
    forall v, c :: v in combos && c in combos[v] ==>
      RolesIn(combos[v][c].vessel, views) && RolesIn(combos[v][c].equipment, views)
  }

  lemma ClosedRoles(combos: Combos, views: Views, v: int, c: int, kind: Kind)
    requires Closed(combos, views) && v in combos && c in combos[v]
    ensures RolesIn(RolesOf(combos[v][c], kind), views)
  {
  }

  lemma NonEmpty(s: set<int>)
    requires s != {}
    ensures exists x :: x in s
  {
    if forall x :: x !in s {
      assert false;
    }
  }

  /** The smallest key of a non-empty key set. */
  ghost function Min(s: set<int>): (m: int)
    requires s != {}
    ensures m in s && forall x :: x in s ==> m <= x
    decreases |s|
  {
    NonEmpty(s);
    var x :| x in s;
    if s == {x} then x
    else
      var y := Min(s - {x});
      assert forall z :: z in s ==> z == x || z in s - {x};
      if y < x then y else x
  }

  /** The walk over the roles `rs[i..]` of combination `c` of variant `v` for one
      requirement type. */
  ghost function RolesStep(s: St, v: int, c: int, rs: seq<Role>, i: nat, t: TypeReq): (r: St)
    requires v in s.combos && RolesIn(rs, s.views) && t.typeId in s.out && i <= |rs|
    ensures r.combos == s.combos || r.combos == s.combos[v := s.combos[v] - {c}]
    ensures r.views.Keys == s.views.Keys && r.out.Keys == s.out.Keys
    ensures Closed(s.combos, s.views) ==> Closed(r.combos, r.views)
    decreases |rs| - i
  {
    if i == |rs| then s
    else if !Matches(rs[i], t.typeId) then RolesStep(s, v, c, rs, i + 1, t)
    else
      var view := Kept(s.views[rs[i].res], t.reqs);
      if view == [] then
        s.(combos := s.combos[v := s.combos[v] - {c}])
      else
        RolesStep(s.(views := s.views[rs[i].res := view], out := s.out[t.typeId := Some(view)]), v, c, rs, i + 1, t)
  }

  /** The walk over the combinations `todo` of variant `v`, smallest key first. */
  ghost function CombosStep(s: St, kind: Kind, v: int, todo: set<int>, t: TypeReq): (r: St)
    requires v in s.combos && todo <= s.combos[v].Keys && Closed(s.combos, s.views)
    requires t.typeId in s.out
    ensures r.combos.Keys == s.combos.Keys && r.views.Keys == s.views.Keys && r.out.Keys == s.out.Keys
    ensures Closed(r.combos, r.views)
    ensures forall w :: w in s.combos && w != v ==> r.combos[w] == s.combos[w]
    decreases todo
  {
    if todo == {} then s
    else
      var c := Min(todo);
      ClosedRoles(s.combos, s.views, v, c, kind);
      var s1 := RolesStep(s, v, c, RolesOf(s.combos[v][c], kind), 0, t);
      CombosStep(s1, kind, v, todo - {c}, t)
  }

  /** The first step of the walk over the combinations `todo`. */
  lemma CombosStepFirst(s: St, kind: Kind, v: int, todo: set<int>, t: TypeReq)
    requires v in s.combos && todo <= s.combos[v].Keys && Closed(s.combos, s.views)
    requires t.typeId in s.out && todo != {}
    ensures RolesIn(RolesOf(s.combos[v][Min(todo)], kind), s.views)
    ensures var r := RolesStep(s, v, Min(todo), RolesOf(s.combos[v][Min(todo)], kind), 0, t);
      && v in r.combos && todo - {Min(todo)} <= r.combos[v].Keys && Closed(r.combos, r.views) && t.typeId in r.out
      && CombosStep(s, kind, v, todo, t) == CombosStep(r, kind, v, todo - {Min(todo)}, t)
  {
    ClosedRoles(s.combos, s.views, v, Min(todo), kind);
  }

  /** The walk over the variants `todo`, smallest key first; each variant's
      walk covers the combinations present when it starts. */
  ghost function VariantsStep(s: St, kind: Kind, todo: set<int>, t: TypeReq): (r: St)
    requires todo <= s.combos.Keys && Closed(s.combos, s.views)
    requires t.typeId in s.out
    ensures r.combos.Keys == s.combos.Keys && r.views.Keys == s.views.Keys && r.out.Keys == s.out.Keys
    ensures Closed(r.combos, r.views)
    decreases todo
  {
    if todo == {} then s
    else
      var v := Min(todo);
      var s1 := CombosStep(s, kind, v, s.combos[v].Keys, t);
      VariantsStep(s1, kind, todo - {v}, t)
  }

  /** The first step of the walk over the variants `todo`. */
  lemma VariantsStepFirst(s: St, kind: Kind, todo: set<int>, t: TypeReq)
    requires todo <= s.combos.Keys && Closed(s.combos, s.views)
    requires t.typeId in s.out && todo != {}
    ensures var r := CombosStep(s, kind, Min(todo), s.combos[Min(todo)].Keys, t);
      && todo - {Min(todo)} <= r.combos.Keys && Closed(r.combos, r.views) && t.typeId in r.out
      && VariantsStep(s, kind, todo, t) == VariantsStep(r, kind, todo - {Min(todo)}, t)
  {
  }

  /** The pass of one requirement type over every variant. */
  ghost function PassType(s: St, kind: Kind, t: TypeReq): (r: St)
    requires Closed(s.combos, s.views) && t.typeId in s.out
    ensures r.combos.Keys == s.combos.Keys && r.views.Keys == s.views.Keys && r.out.Keys == s.out.Keys
    ensures Closed(r.combos, r.views)
  {
    VariantsStep(s, kind, s.combos.Keys, t)
  }

  /** The passes of the requirement types `ts`, in their order. */
  ghost function Run(s: St, kind: Kind, ts: seq<TypeReq>): (r: St)
    requires Closed(s.combos, s.views) && Ids(ts) <= s.out.Keys
    ensures r.combos.Keys == s.combos.Keys && r.views.Keys == s.views.Keys && r.out.Keys == s.out.Keys
    ensures Closed(r.combos, r.views)
  {
    if ts == [] then s
    else
      var init := ts[..|ts| - 1];
      assert Ids(init) <= Ids(ts) by {
        forall k | k in Ids(init) ensures k in Ids(ts) {
          var i :| 0 <= i < |init| && init[i].typeId == k;
          assert ts[i].typeId == k;
        }
      }
      assert ts[|ts| - 1].typeId in Ids(ts);
      PassType(Run(s, kind, init), kind, ts[|ts| - 1])
  }

  /** The passes of `ts[..k + 1]` are those of `ts[..k]` and one more. */
  lemma RunNext(s: St, kind: Kind, ts: seq<TypeReq>, k: int)
    requires Closed(s.combos, s.views) && Ids(ts) <= s.out.Keys && 0 <= k < |ts|
    ensures Ids(ts[..k]) <= s.out.Keys && Ids(ts[..k + 1]) <= s.out.Keys && ts[k].typeId in s.out
    ensures Run(s, kind, ts[..k + 1]) == PassType(Run(s, kind, ts[..k]), kind, ts[k])
  {
    IdsPrefix(ts, k);
    IdsPrefix(ts, k + 1);
    assert ts[..k + 1][..k] == ts[..k];
    assert ts[k] in ts;
  }

  /** `select_e` (kind Equipment) and `select_v` (kind Vessel): the result
      dict starts with every type id mapped to None, then every type's pass
      runs. */
  ghost function Select(kind: Kind, ts: seq<TypeReq>, combos: Combos, views: Views): (r: St)
    requires Closed(combos, views)
  {
    Run(St(combos, views, InitOut(ts)), kind, ts)
  }

  // ---------------------------------------------------------------------
  // One pass: what the walk of one requirement type does

  /** No role of `rs` that the type matches narrows to an empty table. */
  predicate AllFeasible(rs: seq<Role>, views: Views, t: TypeReq)
    requires RolesIn(rs, views)
  {
    forall i :: 0 <= i < |rs| && Matches(rs[i], t.typeId) ==> Kept(views[rs[i].res], t.reqs) != []
  }

  /** `x` is a result the pass of type `id` may have written: the non-empty
      narrowed table of an object of that type. */
  ghost predicate Written(views: Views, x: Option<seq<Row>>, id: string, reqs: seq<Requirement>)
  {
    exists o :: o in views && o.id == id && x == Some(Kept(views[o], reqs)) && x.value != []
  }

  /** The table `now` of object `o` is its table `before` before the pass of
      type `t`, or, when `o` has that type, the non-empty narrowing of `before`. */
  predicate Touched(before: seq<Row>, now: seq<Row>, o: ResourceType, t: TypeReq)
  {
    now == before || (o.id == t.typeId && now == Kept(before, t.reqs) && now != [])
  }

  /** Some combination of `done` that is still present has a role the type matches. */
  ghost predicate DoneMatch(s: St, kind: Kind, t: TypeReq, done: set<(int, int)>)
  {
    exists v, c, i :: v in s.combos && c in s.combos[v] && (v, c) in done
      && 0 <= i < |RolesOf(s.combos[v][c], kind)| && Matches(RolesOf(s.combos[v][c], kind)[i], t.typeId)
  }

  /** The state `s` reached by the pass of type `t` started in `P`, once the
      combinations `done` have been walked: the walked combinations survive
      exactly when all their matched roles are feasible, the unwalked ones are
      all still there, matched objects of surviving walked combinations hold
      their narrowed table, any other changed object holds its narrowed
      table too, and the type's result is None or one of the narrowed tables. */
  ghost predicate MidPass(P: St, s: St, kind: Kind, t: TypeReq, done: set<(int, int)>)
    requires Closed(P.combos, P.views) && t.typeId in P.out
  {
    && Shape(P, s) && Pending(P, s, done) && Pruned(P, s, kind, t, done)
    && Narrowed(P, s, kind, t, done) && AllTouched(P, s, t) && OutOk(P, s, kind, t, done)
  }

  /** The keys of `s` are those of `P`, and `s` keeps some of `P`'s combinations. */
  ghost predicate Shape(P: St, s: St)
  {
    && s.combos.Keys == P.combos.Keys && s.views.Keys == P.views.Keys && s.out.Keys == P.out.Keys
    && Closed(s.combos, s.views)
    && (forall v, c :: v in s.combos && c in s.combos[v] ==> c in P.combos[v] && s.combos[v][c] == P.combos[v][c])
  }

  /** The combinations not yet walked are all still there. */
  ghost predicate Pending(P: St, s: St, done: set<(int, int)>)
    requires s.combos.Keys == P.combos.Keys
  {
    forall v, c :: v in P.combos && c in P.combos[v] && (v, c) !in done ==> c in s.combos[v]
  }

  /** A walked combination survives exactly when its matched roles are all feasible. */
  ghost predicate Pruned(P: St, s: St, kind: Kind, t: TypeReq, done: set<(int, int)>)
    requires Closed(P.combos, P.views) && s.combos.Keys == P.combos.Keys
  {
    forall v, c :: v in P.combos && c in P.combos[v] && (v, c) in done ==>
      (c in s.combos[v] <==> AllFeasible(RolesOf(P.combos[v][c], kind), P.views, t))
  }

  /** The matched objects of a walked surviving combination hold their narrowed tables. */
  ghost predicate Narrowed(P: St, s: St, kind: Kind, t: TypeReq, done: set<(int, int)>)
    requires Closed(s.combos, s.views) && s.views.Keys == P.views.Keys
  {
    forall v, c, i :: v in s.combos && c in s.combos[v] && (v, c) in done
      && 0 <= i < |RolesOf(s.combos[v][c], kind)| && Matches(RolesOf(s.combos[v][c], kind)[i], t.typeId)
      ==> s.views[RolesOf(s.combos[v][c], kind)[i].res] == Kept(P.views[RolesOf(s.combos[v][c], kind)[i].res], t.reqs)
  }

  /** Every table is unchanged or narrowed by the pass's type. */
  ghost predicate AllTouched(P: St, s: St, t: TypeReq)
    requires s.views.Keys == P.views.Keys
  {
    forall o :: o in P.views ==> Touched(P.views[o], s.views[o], o, t)
  }

  /** Only the pass's type has a new result, and that is one of the written tables. */
  ghost predicate OutOk(P: St, s: St, kind: Kind, t: TypeReq, done: set<(int, int)>)
    requires t.typeId in P.out && s.out.Keys == P.out.Keys
  {
    && (forall k :: k in P.out && k != t.typeId ==> s.out[k] == P.out[k])
    && (s.out[t.typeId] == P.out[t.typeId] || Written(P.views, s.out[t.typeId], t.typeId, t.reqs))
    && (DoneMatch(s, kind, t, done) ==> Written(P.views, s.out[t.typeId], t.typeId, t.reqs))
  }

  /** Writing a narrowed table of a matched object keeps the pass invariant. */
  lemma MidPassWrite(P: St, s: St, kind: Kind, t: TypeReq, done: set<(int, int)>, o: ResourceType)
    requires Closed(P.combos, P.views) && t.typeId in P.out
    requires MidPass(P, s, kind, t, done)
    requires o in P.views && o.id == t.typeId && Kept(P.views[o], t.reqs) != []
    ensures MidPass(P, s.(views := s.views[o := Kept(P.views[o], t.reqs)], out := s.out[t.typeId := Some(Kept(P.views[o], t.reqs))]), kind, t, done)
  {
    var view := Kept(P.views[o], t.reqs);
    var s1 := s.(views := s.views[o := view], out := s.out[t.typeId := Some(view)]);
    WriteShape(P, s, o, view, t.typeId);
    WriteNarrowed(P, s, kind, t, done, o);
    assert AllTouched(P, s1, t);
    assert Written(P.views, s1.out[t.typeId], t.typeId, t.reqs);
    assert DoneMatch(s1, kind, t, done) ==> DoneMatch(s, kind, t, done);
    assert Pending(P, s1, done) && Pruned(P, s1, kind, t, done);
  }

  lemma WriteShape(P: St, s: St, o: ResourceType, view: seq<Row>, id: string)
    requires Shape(P, s) && o in s.views && id in s.out
    ensures Shape(P, s.(views := s.views[o := view], out := s.out[id := Some(view)]))
  {
  }

  lemma WriteNarrowed(P: St, s: St, kind: Kind, t: TypeReq, done: set<(int, int)>, o: ResourceType)
    requires Closed(s.combos, s.views) && s.views.Keys == P.views.Keys
    requires Narrowed(P, s, kind, t, done) && o in P.views
    requires Closed(s.combos, s.views[o := Kept(P.views[o], t.reqs)])
    ensures Narrowed(P, s.(views := s.views[o := Kept(P.views[o], t.reqs)]), kind, t, done)
  {
  }

  /** Deleting a walked combination with an infeasible matched role keeps the
      pass invariant. */
  lemma MidPassDelete(P: St, s: St, kind: Kind, t: TypeReq, done: set<(int, int)>, v: int, c: int)
    requires Closed(P.combos, P.views) && t.typeId in P.out
    requires MidPass(P, s, kind, t, done)
    requires v in P.combos && c in P.combos[v] && (v, c) !in done
    requires !AllFeasible(RolesOf(P.combos[v][c], kind), P.views, t)
    ensures MidPass(P, s.(combos := s.combos[v := s.combos[v] - {c}]), kind, t, done + {(v, c)})
  {
    var s1 := s.(combos := s.combos[v := s.combos[v] - {c}]);
    DeleteShape(P, s, v, c);
    DeletePruned(P, s, kind, t, done, v, c);
    DeleteNarrowed(P, s, kind, t, done, v, c);
    DeleteMatch(s, kind, t, done, v, c);
    assert Pending(P, s1, done + {(v, c)});
    assert AllTouched(P, s1, t);
  }

  lemma DeleteShape(P: St, s: St, v: int, c: int)
    requires Shape(P, s) && v in s.combos
    ensures Shape(P, s.(combos := s.combos[v := s.combos[v] - {c}]))
  {
  }

  lemma DeletePruned(P: St, s: St, kind: Kind, t: TypeReq, done: set<(int, int)>, v: int, c: int)
    requires Closed(P.combos, P.views) && s.combos.Keys == P.combos.Keys
    requires Pruned(P, s, kind, t, done)
    requires v in P.combos && c in P.combos[v] && (v, c) !in done
    requires !AllFeasible(RolesOf(P.combos[v][c], kind), P.views, t)
    ensures Pruned(P, s.(combos := s.combos[v := s.combos[v] - {c}]), kind, t, done + {(v, c)})
  {
  }

  lemma DeleteNarrowed(P: St, s: St, kind: Kind, t: TypeReq, done: set<(int, int)>, v: int, c: int)
    requires Closed(s.combos, s.views) && s.views.Keys == P.views.Keys
    requires Narrowed(P, s, kind, t, done) && v in s.combos
    requires Closed(s.combos[v := s.combos[v] - {c}], s.views)
    ensures Narrowed(P, s.(combos := s.combos[v := s.combos[v] - {c}]), kind, t, done + {(v, c)})
  {
  }

  lemma DeleteMatch(s: St, kind: Kind, t: TypeReq, done: set<(int, int)>, v: int, c: int)
    requires v in s.combos
    ensures DoneMatch(s.(combos := s.combos[v := s.combos[v] - {c}]), kind, t, done + {(v, c)}) ==> DoneMatch(s, kind, t, done)
  {
    var s1 := s.(combos := s.combos[v := s.combos[v] - {c}]);
    if DoneMatch(s1, kind, t, done + {(v, c)}) {
      var v', c', i :| v' in s1.combos && c' in s1.combos[v'] && (v', c') in done + {(v, c)}
        && 0 <= i < |RolesOf(s1.combos[v'][c'], kind)| && Matches(RolesOf(s1.combos[v'][c'], kind)[i], t.typeId);
      assert (v', c') != (v, c);
      assert s1.combos[v'][c'] == s.combos[v'][c'];
    }
  }

  /** A walked combination whose matched roles all hold their narrowed
      tables keeps the pass invariant once marked as walked. */
  lemma MidPassKeep(P: St, s: St, kind: Kind, t: TypeReq, done: set<(int, int)>, v: int, c: int)
    requires Closed(P.combos, P.views) && t.typeId in P.out
    requires MidPass(P, s, kind, t, done)
    requires v in P.combos && c in P.combos[v] && (v, c) !in done
    requires forall j :: 0 <= j < |RolesOf(P.combos[v][c], kind)| && Matches(RolesOf(P.combos[v][c], kind)[j], t.typeId) ==>
      Kept(P.views[RolesOf(P.combos[v][c], kind)[j].res], t.reqs) != [] &&
      s.views[RolesOf(P.combos[v][c], kind)[j].res] == Kept(P.views[RolesOf(P.combos[v][c], kind)[j].res], t.reqs)
    requires (exists j :: 0 <= j < |RolesOf(P.combos[v][c], kind)| && Matches(RolesOf(P.combos[v][c], kind)[j], t.typeId))
      ==> Written(P.views, s.out[t.typeId], t.typeId, t.reqs)
    ensures MidPass(P, s, kind, t, done + {(v, c)})
  {
    assert c in s.combos[v] && s.combos[v][c] == P.combos[v][c];
    KeepPruned(P, s, kind, t, done, v, c);
    KeepNarrowed(P, s, kind, t, done, v, c);
    KeepMatch(P, s, kind, t, done, v, c);
    assert Pending(P, s, done + {(v, c)});
  }

  lemma KeepPruned(P: St, s: St, kind: Kind, t: TypeReq, done: set<(int, int)>, v: int, c: int)
    requires Closed(P.combos, P.views) && s.combos.Keys == P.combos.Keys
    requires Pruned(P, s, kind, t, done)
    requires v in P.combos && c in P.combos[v] && c in s.combos[v]
    requires forall j :: 0 <= j < |RolesOf(P.combos[v][c], kind)| && Matches(RolesOf(P.combos[v][c], kind)[j], t.typeId) ==>
      Kept(P.views[RolesOf(P.combos[v][c], kind)[j].res], t.reqs) != []
    ensures Pruned(P, s, kind, t, done + {(v, c)})
  {
  }

  lemma KeepNarrowed(P: St, s: St, kind: Kind, t: TypeReq, done: set<(int, int)>, v: int, c: int)
    requires Closed(P.combos, P.views) && Closed(s.combos, s.views) && s.views.Keys == P.views.Keys
    requires Narrowed(P, s, kind, t, done)
    requires v in P.combos && c in P.combos[v] && v in s.combos && c in s.combos[v] && s.combos[v][c] == P.combos[v][c]
    requires forall j :: 0 <= j < |RolesOf(P.combos[v][c], kind)| && Matches(RolesOf(P.combos[v][c], kind)[j], t.typeId) ==>
      s.views[RolesOf(P.combos[v][c], kind)[j].res] == Kept(P.views[RolesOf(P.combos[v][c], kind)[j].res], t.reqs)
    ensures Narrowed(P, s, kind, t, done + {(v, c)})
  {
  }

  lemma KeepMatch(P: St, s: St, kind: Kind, t: TypeReq, done: set<(int, int)>, v: int, c: int)
    requires t.typeId in P.out && s.out.Keys == P.out.Keys && OutOk(P, s, kind, t, done)
    requires v in P.combos && c in P.combos[v] && v in s.combos && c in s.combos[v] && s.combos[v][c] == P.combos[v][c]
    requires (exists j :: 0 <= j < |RolesOf(P.combos[v][c], kind)| && Matches(RolesOf(P.combos[v][c], kind)[j], t.typeId))
      ==> Written(P.views, s.out[t.typeId], t.typeId, t.reqs)
    ensures OutOk(P, s, kind, t, done + {(v, c)})
  {
    if DoneMatch(s, kind, t, done + {(v, c)}) {
      var v', c', i :| v' in s.combos && c' in s.combos[v'] && (v', c') in done + {(v, c)}
        && 0 <= i < |RolesOf(s.combos[v'][c'], kind)| && Matches(RolesOf(s.combos[v'][c'], kind)[i], t.typeId);
      if (v', c') != (v, c) {
        assert DoneMatch(s, kind, t, done);
      }
    }
  }

  /** The matched roles before position `i` of combination `c` were feasible
      and hold their narrowed tables, and if there was one, the type's result
      is one of the written tables. */
  ghost predicate FeasibleBefore(P: St, s: St, kind: Kind, t: TypeReq, v: int, c: int, i: int)
    requires Closed(P.combos, P.views) && s.views.Keys == P.views.Keys && t.typeId in s.out
    requires v in P.combos && c in P.combos[v]
  {
    && (forall j :: 0 <= j < i && j < |RolesOf(P.combos[v][c], kind)| && Matches(RolesOf(P.combos[v][c], kind)[j], t.typeId) ==>
          Kept(P.views[RolesOf(P.combos[v][c], kind)[j].res], t.reqs) != [] &&
          s.views[RolesOf(P.combos[v][c], kind)[j].res] == Kept(P.views[RolesOf(P.combos[v][c], kind)[j].res], t.reqs))
    && ((exists j :: 0 <= j < i && j < |RolesOf(P.combos[v][c], kind)| && Matches(RolesOf(P.combos[v][c], kind)[j], t.typeId))
          ==> Written(P.views, s.out[t.typeId], t.typeId, t.reqs))
  }

  /** The walk over the roles of one combination from position `i` on ends
      with the combination walked. */
  lemma {:induction false} RolesInner(P: St, s: St, kind: Kind, t: TypeReq, done: set<(int, int)>, v: int, c: int, i: nat)
    requires Closed(P.combos, P.views) && t.typeId in P.out
    requires MidPass(P, s, kind, t, done)
    requires v in P.combos && c in P.combos[v] && (v, c) !in done
    requires i <= |RolesOf(P.combos[v][c], kind)|
    requires FeasibleBefore(P, s, kind, t, v, c, i)
    ensures c in s.combos[v] && RolesIn(RolesOf(P.combos[v][c], kind), s.views)
    ensures MidPass(P, RolesStep(s, v, c, RolesOf(P.combos[v][c], kind), i, t), kind, t, done + {(v, c)})
    decreases |RolesOf(P.combos[v][c], kind)| - i, 1
  {
    var roles := RolesOf(P.combos[v][c], kind);
    if i == |roles| {
      MidPassKeep(P, s, kind, t, done, v, c);
    } else if !Matches(roles[i], t.typeId) {
      RolesSkipped(P, s, kind, t, done, v, c, i);
    } else {
      RolesMatched(P, s, kind, t, done, v, c, i);
    }
  }

  /** The step of `RolesInner` at a role the type does not match. */
  lemma {:induction false} RolesSkipped(P: St, s: St, kind: Kind, t: TypeReq, done: set<(int, int)>, v: int, c: int, i: nat)
    requires Closed(P.combos, P.views) && t.typeId in P.out
    requires MidPass(P, s, kind, t, done)
    requires v in P.combos && c in P.combos[v] && (v, c) !in done
    requires i < |RolesOf(P.combos[v][c], kind)| && !Matches(RolesOf(P.combos[v][c], kind)[i], t.typeId)
    requires FeasibleBefore(P, s, kind, t, v, c, i)
    ensures c in s.combos[v] && RolesIn(RolesOf(P.combos[v][c], kind), s.views)
    ensures MidPass(P, RolesStep(s, v, c, RolesOf(P.combos[v][c], kind), i, t), kind, t, done + {(v, c)})
    decreases |RolesOf(P.combos[v][c], kind)| - i, 0
  {
    FeasibleSkip(P, s, kind, t, v, c, i);
    RolesInner(P, s, kind, t, done, v, c, i + 1);
  }

  /** The step of `RolesInner` at a role the type matches. */
  lemma {:induction false} RolesMatched(P: St, s: St, kind: Kind, t: TypeReq, done: set<(int, int)>, v: int, c: int, i: nat)
    requires Closed(P.combos, P.views) && t.typeId in P.out
    requires MidPass(P, s, kind, t, done)
    requires v in P.combos && c in P.combos[v] && (v, c) !in done
    requires i < |RolesOf(P.combos[v][c], kind)| && Matches(RolesOf(P.combos[v][c], kind)[i], t.typeId)
    requires FeasibleBefore(P, s, kind, t, v, c, i)
    ensures c in s.combos[v] && RolesIn(RolesOf(P.combos[v][c], kind), s.views)
    ensures MidPass(P, RolesStep(s, v, c, RolesOf(P.combos[v][c], kind), i, t), kind, t, done + {(v, c)})
    decreases |RolesOf(P.combos[v][c], kind)| - i, 0
  {
    var o := RolesOf(P.combos[v][c], kind)[i].res;
    var view := Kept(P.views[o], t.reqs);
    RolesView(P, s, kind, t, done, o);
    if view == [] {
      MidPassDelete(P, s, kind, t, done, v, c);
    } else {
      MidPassWrite(P, s, kind, t, done, o);
      FeasibleWrite(P, s, kind, t, v, c, i);
      RolesInner(P, s.(views := s.views[o := view], out := s.out[t.typeId := Some(view)]), kind, t, done, v, c, i + 1);
    }
  }

  /** During a pass, narrowing a table of the pass's type again gives the
      narrowing of its table before the pass. */
  lemma RolesView(P: St, s: St, kind: Kind, t: TypeReq, done: set<(int, int)>, o: ResourceType)
    requires Closed(P.combos, P.views) && t.typeId in P.out
    requires MidPass(P, s, kind, t, done) && o in P.views
    ensures o in s.views && Kept(s.views[o], t.reqs) == Kept(P.views[o], t.reqs)
  {
    KeptIdempotent(P.views[o], t.reqs);
    assert Touched(P.views[o], s.views[o], o, t);
  }

  lemma FeasibleSkip(P: St, s: St, kind: Kind, t: TypeReq, v: int, c: int, i: nat)
    requires Closed(P.combos, P.views) && s.views.Keys == P.views.Keys && t.typeId in s.out
    requires v in P.combos && c in P.combos[v]
    requires i < |RolesOf(P.combos[v][c], kind)| && !Matches(RolesOf(P.combos[v][c], kind)[i], t.typeId)
    requires FeasibleBefore(P, s, kind, t, v, c, i)
    ensures FeasibleBefore(P, s, kind, t, v, c, i + 1)
  {
  }

  lemma FeasibleWrite(P: St, s: St, kind: Kind, t: TypeReq, v: int, c: int, i: nat)
    requires Closed(P.combos, P.views) && s.views.Keys == P.views.Keys && t.typeId in s.out
    requires v in P.combos && c in P.combos[v]
    requires i < |RolesOf(P.combos[v][c], kind)| && Matches(RolesOf(P.combos[v][c], kind)[i], t.typeId)
    requires Kept(P.views[RolesOf(P.combos[v][c], kind)[i].res], t.reqs) != []
    requires FeasibleBefore(P, s, kind, t, v, c, i)
    ensures FeasibleBefore(P, s.(views := s.views[RolesOf(P.combos[v][c], kind)[i].res := Kept(P.views[RolesOf(P.combos[v][c], kind)[i].res], t.reqs)],
                              out := s.out[t.typeId := Some(Kept(P.views[RolesOf(P.combos[v][c], kind)[i].res], t.reqs))]), kind, t, v, c, i + 1)
  {
    var o := RolesOf(P.combos[v][c], kind)[i].res;
    assert Written(P.views, Some(Kept(P.views[o], t.reqs)), t.typeId, t.reqs);
  }

  /** The pairs (variant, combination) of the combinations `cs` of variant `v`. */
  function PairsOf(v: int, cs: set<int>): set<(int, int)>
  {
    set c | c in cs :: (v, c)
  }

  /** The pairs (variant, combination) of every combination of the variants `vs`. */
  function AllPairs(combos: Combos, vs: set<int>): set<(int, int)>
  {
    set v, c | v in vs && v in combos && c in combos[v] :: (v, c)
  }

  /** The walk over the combinations `todo` of variant `v` ends with them walked. */
  lemma {:induction false} CombosInner(P: St, s: St, kind: Kind, t: TypeReq, done: set<(int, int)>, v: int, todo: set<int>)
    requires Closed(P.combos, P.views) && t.typeId in P.out
    requires MidPass(P, s, kind, t, done)
    requires v in P.combos && todo <= P.combos[v].Keys
    requires forall c :: c in todo ==> (v, c) !in done
    ensures todo <= s.combos[v].Keys
    ensures MidPass(P, CombosStep(s, kind, v, todo, t), kind, t, done + PairsOf(v, todo))
    decreases todo
  {
    if todo == {} {
      assert done + PairsOf(v, todo) == done;
    } else {
      var c := Min(todo);
      FeasibleStart(P, s, kind, t, v, c);
      RolesInner(P, s, kind, t, done, v, c, 0);
      var s1 := RolesStep(s, v, c, RolesOf(s.combos[v][c], kind), 0, t);
      CombosInner(P, s1, kind, t, done + {(v, c)}, v, todo - {c});
      PairsSplit(done, v, todo, c);
    }
  }

  /** The walk over the variants `todo` ends with all their combinations walked. */
  lemma {:induction false} VariantsInner(P: St, s: St, kind: Kind, t: TypeReq, done: set<(int, int)>, todo: set<int>)
    requires Closed(P.combos, P.views) && t.typeId in P.out
    requires MidPass(P, s, kind, t, done)
    requires todo <= P.combos.Keys
    requires forall v, c :: v in todo && c in P.combos[v] ==> (v, c) !in done
    ensures todo <= s.combos.Keys
    ensures MidPass(P, VariantsStep(s, kind, todo, t), kind, t, done + AllPairs(P.combos, todo))
    decreases todo
  {
    if todo == {} {
      assert done + AllPairs(P.combos, todo) == done;
    } else {
      var v := Min(todo);
      PendingKeys(P, s, done, v);
      CombosInner(P, s, kind, t, done, v, P.combos[v].Keys);
      var s1 := CombosStep(s, kind, v, s.combos[v].Keys, t);
      VariantsInner(P, s1, kind, t, done + PairsOf(v, P.combos[v].Keys), todo - {v});
      AllPairsSplit(done, P.combos, todo, v);
    }
  }

  /** The pass of one type ends with every combination walked. */
  lemma PassLemma(P: St, kind: Kind, t: TypeReq)
    requires Closed(P.combos, P.views) && t.typeId in P.out
    ensures MidPass(P, PassType(P, kind, t), kind, t, AllPairs(P.combos, P.combos.Keys))
  {
    assert MidPass(P, P, kind, t, {});
    VariantsInner(P, P, kind, t, {}, P.combos.Keys);
  }

  lemma FeasibleStart(P: St, s: St, kind: Kind, t: TypeReq, v: int, c: int)
    requires Closed(P.combos, P.views) && s.views.Keys == P.views.Keys && t.typeId in s.out
    requires v in P.combos && c in P.combos[v]
    requires Shape(P, s) && v in s.combos && c in s.combos[v]
    ensures FeasibleBefore(P, s, kind, t, v, c, 0)
    ensures RolesOf(s.combos[v][c], kind) == RolesOf(P.combos[v][c], kind)
  {
  }

  lemma PairsSplit(done: set<(int, int)>, v: int, todo: set<int>, c: int)
    requires c in todo
    ensures done + {(v, c)} + PairsOf(v, todo - {c}) == done + PairsOf(v, todo)
  {
  }

  lemma AllPairsSplit(done: set<(int, int)>, combos: Combos, todo: set<int>, v: int)
    requires v in todo && v in combos
    ensures done + PairsOf(v, combos[v].Keys) + AllPairs(combos, todo - {v}) == done + AllPairs(combos, todo)
  {
  }

  /** A variant none of whose combinations was walked still has them all. */
  lemma PendingKeys(P: St, s: St, done: set<(int, int)>, v: int)
    requires Shape(P, s) && s.combos.Keys == P.combos.Keys && Pending(P, s, done)
    requires v in P.combos && forall c :: c in P.combos[v] ==> (v, c) !in done
    ensures s.combos[v].Keys == P.combos[v].Keys
  {
    forall c | c in P.combos[v] ensures c in s.combos[v] {
      assert (v, c) !in done;
    }
    forall c | c in s.combos[v] ensures c in P.combos[v] {
    }
  }

  // ---------------------------------------------------------------------
  // All passes: what the selection does, stated without its walk order

  /** A role whose object's type is one of the requirement dict's keys. */
  predicate Typed(r: Role, R: map<string, seq<Requirement>>)
  {
    r.Role? && r.res.id in R
  }

  /** The matched roles of `rs` are feasible for every requirement type. */
  predicate FeasibleAll(rs: seq<Role>, views: Views, ts: seq<TypeReq>)
    requires RolesIn(rs, views)
  {
    forall k :: 0 <= k < |ts| ==> AllFeasible(rs, views, ts[k])
  }

  /** The combinations left are those of `s0` feasible for every type, unchanged. */
  ghost predicate Survivors(s0: St, s: St, kind: Kind, ts: seq<TypeReq>)
    requires Closed(s0.combos, s0.views) && s.combos.Keys == s0.combos.Keys
  {
    && (forall v, c :: v in s0.combos ==>
          (c in s.combos[v] <==> c in s0.combos[v] && FeasibleAll(RolesOf(s0.combos[v][c], kind), s0.views, ts)))
    && (forall v, c :: v in s.combos && c in s.combos[v] ==> c in s0.combos[v] && s.combos[v][c] == s0.combos[v][c])
  }

  /** Every typed role of a combination left holds its object's narrowed table. */
  ghost predicate RunNarrowed(s0: St, s: St, kind: Kind, R: map<string, seq<Requirement>>)
    requires Closed(s.combos, s.views) && s.views.Keys == s0.views.Keys
  {
    forall v, c, i :: v in s.combos && c in s.combos[v]
      && 0 <= i < |RolesOf(s.combos[v][c], kind)| && Typed(RolesOf(s.combos[v][c], kind)[i], R)
      ==> s.views[RolesOf(s.combos[v][c], kind)[i].res]
          == Kept(s0.views[RolesOf(s.combos[v][c], kind)[i].res], R[RolesOf(s.combos[v][c], kind)[i].res.id])
  }

  /** Every table is unchanged, or is the non-empty narrowing of its first
      table by the requirements of its object's type. */
  ghost predicate RunTouched(s0: St, s: St, R: map<string, seq<Requirement>>)
    requires s.views.Keys == s0.views.Keys
  {
    forall o :: o in s0.views ==>
      s.views[o] == s0.views[o] || (o.id in R && s.views[o] == Kept(s0.views[o], R[o.id]) && s.views[o] != [])
  }

  /** Results of other keys are unchanged; a type's result is its first value
      or one of the written tables, and is a written table once a combination
      left has a role of that type. */
  ghost predicate RunOut(s0: St, s: St, kind: Kind, R: map<string, seq<Requirement>>)
    requires s.out.Keys == s0.out.Keys && R.Keys <= s0.out.Keys
  {
    && (forall k :: k in s0.out && k !in R ==> s.out[k] == s0.out[k])
    && (forall k :: k in R ==> s.out[k] == s0.out[k] || Written(s0.views, s.out[k], k, R[k]))
    && (forall v, c, i :: v in s.combos && c in s.combos[v]
          && 0 <= i < |RolesOf(s.combos[v][c], kind)| && Typed(RolesOf(s.combos[v][c], kind)[i], R)
          ==> Written(s0.views, s.out[RolesOf(s.combos[v][c], kind)[i].res.id],
                      RolesOf(s.combos[v][c], kind)[i].res.id, R[RolesOf(s.combos[v][c], kind)[i].res.id]))
  }

  /** What the passes of the types `ts` started in `s0` have done by `s`. */
  ghost predicate RunInv(s0: St, s: St, kind: Kind, ts: seq<TypeReq>)
    requires Closed(s0.combos, s0.views) && Ids(ts) <= s0.out.Keys
  {
    && s.combos.Keys == s0.combos.Keys && s.views.Keys == s0.views.Keys && s.out.Keys == s0.out.Keys
    && Closed(s.combos, s.views)
    && Survivors(s0, s, kind, ts) && RunNarrowed(s0, s, kind, ReqMap(ts))
    && RunTouched(s0, s, ReqMap(ts)) && RunOut(s0, s, kind, ReqMap(ts))
  }

  lemma ReqMapSnoc(ts: seq<TypeReq>, t: TypeReq)
    ensures ReqMap(ts + [t]) == ReqMap(ts)[t.typeId := t.reqs]
    ensures Ids(ts + [t]) == Ids(ts) + {t.typeId}
  {
    assert (ts + [t])[..|ts|] == ts;
    forall k | k in Ids(ts) ensures k in Ids(ts + [t]) {
      var i :| 0 <= i < |ts| && ts[i].typeId == k;
      assert (ts + [t])[i].typeId == k;
    }
  }

  lemma FeasibleAllSnoc(rs: seq<Role>, views: Views, ts: seq<TypeReq>, t: TypeReq)
    requires RolesIn(rs, views)
    ensures FeasibleAll(rs, views, ts + [t]) <==> FeasibleAll(rs, views, ts) && AllFeasible(rs, views, t)
  {
    if FeasibleAll(rs, views, ts) && AllFeasible(rs, views, t) {
      forall k | 0 <= k < |ts| + 1 ensures AllFeasible(rs, views, (ts + [t])[k]) {
        if k < |ts| {
          assert (ts + [t])[k] == ts[k];
        }
      }
    }
    if FeasibleAll(rs, views, ts + [t]) {
      assert (ts + [t])[|ts|] == t;
      forall k | 0 <= k < |ts| ensures AllFeasible(rs, views, ts[k]) {
        assert (ts + [t])[k] == ts[k];
      }
    }
  }

  /** Tables of a type not yet processed are the first tables. */
  lemma TypeUntouched(s0: St, s: St, R: map<string, seq<Requirement>>, id: string, o: ResourceType)
    requires s.views.Keys == s0.views.Keys && RunTouched(s0, s, R)
    requires id !in R && o in s0.views && o.id == id
    ensures s.views[o] == s0.views[o]
  {
  }

  /** Feasibility for a type depends only on the tables of that type. */
  lemma FeasibleSame(rs: seq<Role>, views0: Views, views: Views, t: TypeReq)
    requires RolesIn(rs, views0) && views.Keys == views0.Keys
    requires forall o :: o in views0 && o.id == t.typeId ==> views[o] == views0[o]
    ensures AllFeasible(rs, views, t) == AllFeasible(rs, views0, t)
  {
  }

  /** The common hypotheses of the steps from the passes of `ts` to those of `ts + [t]`. */
  ghost predicate StepPre(s0: St, s: St, s1: St, kind: Kind, ts: seq<TypeReq>, t: TypeReq)
  {
    && Closed(s0.combos, s0.views) && Ids(ts) <= s0.out.Keys && t.typeId in s0.out && t.typeId !in Ids(ts)
    && RunInv(s0, s, kind, ts) && MidPass(s, s1, kind, t, AllPairs(s.combos, s.combos.Keys))
  }

  lemma StepSurvivors(s0: St, s: St, s1: St, kind: Kind, ts: seq<TypeReq>, t: TypeReq)
    requires StepPre(s0, s, s1, kind, ts, t)
    ensures s1.combos.Keys == s0.combos.Keys
    ensures Survivors(s0, s1, kind, ts + [t])
  {
    forall v, c | v in s0.combos
      ensures c in s1.combos[v] <==> c in s0.combos[v] && FeasibleAll(RolesOf(s0.combos[v][c], kind), s0.views, ts + [t])
    {
      if c in s0.combos[v] {
        var rs := RolesOf(s0.combos[v][c], kind);
        FeasibleAllSnoc(rs, s0.views, ts, t);
        forall o | o in s0.views && o.id == t.typeId ensures s.views[o] == s0.views[o] {
          TypeUntouched(s0, s, ReqMap(ts), t.typeId, o);
        }
        FeasibleSame(rs, s0.views, s.views, t);
        if c in s.combos[v] {
          assert (v, c) in AllPairs(s.combos, s.combos.Keys);
        }
      }
    }
  }

  lemma StepNarrowed(s0: St, s: St, s1: St, kind: Kind, ts: seq<TypeReq>, t: TypeReq)
    requires StepPre(s0, s, s1, kind, ts, t)
    ensures Closed(s1.combos, s1.views) && s1.views.Keys == s0.views.Keys
    ensures RunNarrowed(s0, s1, kind, ReqMap(ts + [t]))
  {
    ReqMapSnoc(ts, t);
    var R := ReqMap(ts);
    forall v, c, i | v in s1.combos && c in s1.combos[v]
      && 0 <= i < |RolesOf(s1.combos[v][c], kind)| && Typed(RolesOf(s1.combos[v][c], kind)[i], ReqMap(ts + [t]))
      ensures s1.views[RolesOf(s1.combos[v][c], kind)[i].res]
          == Kept(s0.views[RolesOf(s1.combos[v][c], kind)[i].res], ReqMap(ts + [t])[RolesOf(s1.combos[v][c], kind)[i].res.id])
    {
      var o := RolesOf(s1.combos[v][c], kind)[i].res;
      assert s1.combos[v][c] == s.combos[v][c];
      if o.id == t.typeId {
        assert (v, c) in AllPairs(s.combos, s.combos.Keys);
        TypeUntouched(s0, s, R, t.typeId, o);
      } else {
        assert Touched(s.views[o], s1.views[o], o, t);
      }
    }
  }

  lemma StepTouched(s0: St, s: St, s1: St, kind: Kind, ts: seq<TypeReq>, t: TypeReq)
    requires StepPre(s0, s, s1, kind, ts, t)
    ensures s1.views.Keys == s0.views.Keys
    ensures RunTouched(s0, s1, ReqMap(ts + [t]))
  {
    ReqMapSnoc(ts, t);
    forall o | o in s0.views
      ensures s1.views[o] == s0.views[o]
        || (o.id in ReqMap(ts + [t]) && s1.views[o] == Kept(s0.views[o], ReqMap(ts + [t])[o.id]) && s1.views[o] != [])
    {
      assert Touched(s.views[o], s1.views[o], o, t);
      if o.id == t.typeId {
        TypeUntouched(s0, s, ReqMap(ts), t.typeId, o);
      }
    }
  }

  /** A table written by the pass of a type not yet processed is a narrowing
      of a first table. */
  lemma WrittenLift(s0: St, s: St, R: map<string, seq<Requirement>>, x: Option<seq<Row>>, id: string, reqs: seq<Requirement>)
    requires s.views.Keys == s0.views.Keys && RunTouched(s0, s, R) && id !in R
    requires Written(s.views, x, id, reqs)
    ensures Written(s0.views, x, id, reqs)
  {
    var o :| o in s.views && o.id == id && x == Some(Kept(s.views[o], reqs)) && x.value != [];
    TypeUntouched(s0, s, R, id, o);
  }

  lemma StepOut(s0: St, s: St, s1: St, kind: Kind, ts: seq<TypeReq>, t: TypeReq)
    requires StepPre(s0, s, s1, kind, ts, t)
    ensures s1.out.Keys == s0.out.Keys && ReqMap(ts + [t]).Keys <= s0.out.Keys
    ensures RunOut(s0, s1, kind, ReqMap(ts + [t]))
  {
    ReqMapSnoc(ts, t);
    var R := ReqMap(ts);
    var R1 := ReqMap(ts + [t]);
    if s1.out[t.typeId] != s.out[t.typeId] {
      WrittenLift(s0, s, R, s1.out[t.typeId], t.typeId, t.reqs);
    }
    StepOutLeft(s0, s, s1, kind, ts, t);
  }

  lemma StepOutLeft(s0: St, s: St, s1: St, kind: Kind, ts: seq<TypeReq>, t: TypeReq)
    requires StepPre(s0, s, s1, kind, ts, t)
    ensures ReqMap(ts + [t]).Keys <= s1.out.Keys
    ensures forall v, c, i :: (v in s1.combos && c in s1.combos[v]
              && 0 <= i < |RolesOf(s1.combos[v][c], kind)| && Typed(RolesOf(s1.combos[v][c], kind)[i], ReqMap(ts + [t])))
              ==> Written(s0.views, s1.out[RolesOf(s1.combos[v][c], kind)[i].res.id],
                          RolesOf(s1.combos[v][c], kind)[i].res.id, ReqMap(ts + [t])[RolesOf(s1.combos[v][c], kind)[i].res.id])
  {
    ReqMapSnoc(ts, t);
    var R := ReqMap(ts);
    var R1 := ReqMap(ts + [t]);
    forall v, c, i | v in s1.combos && c in s1.combos[v]
      && 0 <= i < |RolesOf(s1.combos[v][c], kind)| && Typed(RolesOf(s1.combos[v][c], kind)[i], R1)
      ensures Written(s0.views, s1.out[RolesOf(s1.combos[v][c], kind)[i].res.id],
                      RolesOf(s1.combos[v][c], kind)[i].res.id, R1[RolesOf(s1.combos[v][c], kind)[i].res.id])
    {
      var o := RolesOf(s1.combos[v][c], kind)[i].res;
      assert s1.combos[v][c] == s.combos[v][c];
      if o.id == t.typeId {
        assert (v, c) in AllPairs(s.combos, s.combos.Keys);
        assert DoneMatch(s1, kind, t, AllPairs(s.combos, s.combos.Keys));
        WrittenLift(s0, s, R, s1.out[t.typeId], t.typeId, t.reqs);
      }
    }
  }

  /** The passes of the types `ts` keep the run invariant. */
  lemma {:induction false} RunLemma(s0: St, kind: Kind, ts: seq<TypeReq>)
    requires Closed(s0.combos, s0.views) && Ids(ts) <= s0.out.Keys && DistinctIds(ts)
    ensures RunInv(s0, Run(s0, kind, ts), kind, ts)
  {
    if ts == [] {
      assert RunInv(s0, s0, kind, ts);
    } else {
      var init := ts[..|ts| - 1];
      var t := ts[|ts| - 1];
      assert ts == init + [t];
      ReqMapSnoc(init, t);
      DistinctSnoc(init, t);
      RunLemma(s0, kind, init);
      var s := Run(s0, kind, init);
      PassLemma(s, kind, t);
      var s1 := PassType(s, kind, t);
      RunStep(s0, s, s1, kind, init, t);
    }
  }

  lemma DistinctSnoc(ts: seq<TypeReq>, t: TypeReq)
    requires DistinctIds(ts + [t])
    ensures DistinctIds(ts) && t.typeId !in Ids(ts)
  {
    assert forall i :: 0 <= i < |ts| ==> (ts + [t])[i] == ts[i];
    assert (ts + [t])[|ts|] == t;
  }

  /** One more pass keeps the run invariant. */
  lemma RunStep(s0: St, s: St, s1: St, kind: Kind, ts: seq<TypeReq>, t: TypeReq)
    requires StepPre(s0, s, s1, kind, ts, t)
    ensures Ids(ts + [t]) <= s0.out.Keys
    ensures RunInv(s0, s1, kind, ts + [t])
  {
    ReqMapSnoc(ts, t);
    StepSurvivors(s0, s, s1, kind, ts, t);
    StepNarrowed(s0, s, s1, kind, ts, t);
    StepTouched(s0, s, s1, kind, ts, t);
    StepOut(s0, s, s1, kind, ts, t);
  }

  /** `select_e` / `select_v` as a whole: the combinations left are exactly
      those whose roles of every requirement type narrow to non-empty tables,
      unchanged; every typed role of a combination left holds its object's
      narrowed table; every other table is unchanged or narrowed; the result
      dict has the type ids as keys, each None or a non-empty narrowed table
      of that type, and a table once a combination left has a role of the type. */
  lemma SelectSpec(kind: Kind, ts: seq<TypeReq>, combos: Combos, views: Views)
    requires Closed(combos, views) && DistinctIds(ts)
    ensures Select(kind, ts, combos, views).combos.Keys == combos.Keys
    ensures Select(kind, ts, combos, views).views.Keys == views.Keys
    ensures Select(kind, ts, combos, views).out.Keys == Ids(ts)
    ensures Survivors(St(combos, views, InitOut(ts)), Select(kind, ts, combos, views), kind, ts)
    ensures RunNarrowed(St(combos, views, InitOut(ts)), Select(kind, ts, combos, views), kind, ReqMap(ts))
    ensures RunTouched(St(combos, views, InitOut(ts)), Select(kind, ts, combos, views), ReqMap(ts))
    ensures RunOut(St(combos, views, InitOut(ts)), Select(kind, ts, combos, views), kind, ReqMap(ts))
  {
    RunLemma(St(combos, views, InitOut(ts)), kind, ts);
  }

  lemma IdsPrefix(ts: seq<TypeReq>, k: int)
    requires 0 <= k <= |ts|
    ensures Ids(ts[..k]) <= Ids(ts)
  {
    forall id | id in Ids(ts[..k]) ensures id in Ids(ts) {
      var i :| 0 <= i < k && ts[..k][i].typeId == id;
      assert ts[i].typeId == id;
    }
  }

  /** With distinct keys, the requirement map gives each type its own requirements. */
  lemma {:induction false} ReqMapAt(ts: seq<TypeReq>, k: int)
    requires DistinctIds(ts) && 0 <= k < |ts|
    ensures ts[k].typeId in ReqMap(ts) && ReqMap(ts)[ts[k].typeId] == ts[k].reqs
  {
    var init := ts[..|ts| - 1];
    var t := ts[|ts| - 1];
    assert ts == init + [t];
    ReqMapSnoc(init, t);
    DistinctSnoc(init, t);
    if k < |ts| - 1 {
      ReqMapAt(init, k);
      assert init[k] == ts[k];
    }
  }

  /** A typed role of a combination the selection leaves holds a non-empty
      table: in order, rows of its object's first table, exactly those that
      meet every requirement of its type. */
  lemma SelectRoleView(kind: Kind, ts: seq<TypeReq>, combos: Combos, views: Views, v: int, c: int, i: int)
    requires Closed(combos, views) && DistinctIds(ts)
    requires v in combos && c in combos[v]
    requires v in Select(kind, ts, combos, views).combos && c in Select(kind, ts, combos, views).combos[v]
    requires 0 <= i < |RolesOf(combos[v][c], kind)| && Typed(RolesOf(combos[v][c], kind)[i], ReqMap(ts))
    ensures RolesOf(combos[v][c], kind)[i].res in Select(kind, ts, combos, views).views
    ensures var o := RolesOf(combos[v][c], kind)[i].res;
      var now := Select(kind, ts, combos, views).views[o];
      && now != [] && Subseq(now, views[o])
      && forall x :: x in now <==> x in views[o] && MeetsAll(x, ReqMap(ts)[o.id])
  {
    SelectSpec(kind, ts, combos, views);
    var r := Select(kind, ts, combos, views);
    var s0 := St(combos, views, InitOut(ts));
    var o := RolesOf(combos[v][c], kind)[i].res;
    assert r.combos[v][c] == combos[v][c];
    assert c in combos[v] && FeasibleAll(RolesOf(combos[v][c], kind), views, ts);
    var k :| 0 <= k < |ts| && ts[k].typeId == o.id;
    ReqMapAt(ts, k);
    assert AllFeasible(RolesOf(combos[v][c], kind), views, ts[k]);
    assert r.views[o] == Kept(views[o], ReqMap(ts)[o.id]);
    KeptSpec(views[o], ReqMap(ts)[o.id]);
  }

  /** A result the selection writes for a type is a non-empty table: in
      order, rows of the first table of an object of that type, exactly those
      that meet every requirement of the type. */
  lemma SelectResult(kind: Kind, ts: seq<TypeReq>, combos: Combos, views: Views, id: string)
    requires Closed(combos, views) && DistinctIds(ts)
    requires id in Select(kind, ts, combos, views).out && Select(kind, ts, combos, views).out[id].Some?
    ensures id in ReqMap(ts)
    ensures exists o :: (o in views && o.id == id
      && Select(kind, ts, combos, views).out[id].value != []
      && Subseq(Select(kind, ts, combos, views).out[id].value, views[o])
      && forall x :: x in Select(kind, ts, combos, views).out[id].value <==> x in views[o] && MeetsAll(x, ReqMap(ts)[id]))
  {
    SelectSpec(kind, ts, combos, views);
    var r := Select(kind, ts, combos, views);
    assert r.out[id] != InitOut(ts)[id];
    var o :| o in views && o.id == id && r.out[id] == Some(Kept(views[o], ReqMap(ts)[id])) && r.out[id].value != [];
    KeptSpec(views[o], ReqMap(ts)[id]);
  }

  /** With the catalog's ids distinct, as the loader builds them, the
      result written for a type is the narrowed table of the one object of
      that type. */
  lemma SelectResultOfObject(kind: Kind, ts: seq<TypeReq>, combos: Combos, views: Views, id: string, o: ResourceType)
    requires Closed(combos, views) && DistinctIds(ts)
    requires forall a, b :: a in views && b in views && a.id == b.id ==> a == b
    requires id in Select(kind, ts, combos, views).out && Select(kind, ts, combos, views).out[id].Some?
    requires o in views && o.id == id
    ensures Select(kind, ts, combos, views).out[id] == Some(Kept(views[o], ReqMap(ts)[id]))
  {
    SelectSpec(kind, ts, combos, views);
    var r := Select(kind, ts, combos, views);
    assert r.out[id] != InitOut(ts)[id];
    var w :| w in views && w.id == id && r.out[id] == Some(Kept(views[w], ReqMap(ts)[id]));
  }
}
