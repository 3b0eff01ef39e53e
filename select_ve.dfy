/**
 * `select_e` and `select_v` on the phase objects themselves.
 *
 * The selection deletes infeasible combinations from the methods of a
 * logistic phase and overwrites the tables of the shared catalog objects.
 * Each method below is proved to leave the phase, the catalog objects and
 * the result dict in the state the functions of module Selection describe,
 * and the properties of the selection are proved about those functions.
 */
module SelectVE {
  import opened Wrappers
  import opened Tables
  import opened Phase
  import opened Selection

  /** The combinations of every method of the phase, by variant number. */
  function CombosOf(p: LogPhase): Combos
    reads p, p.opVe.Values
  {
    map v | v in p.opVe :: p.opVe[v].veCombination
  }

  /** The current table of every catalog object of `objs`. */
  function ViewsOf(objs: set<ResourceType>): Views
    reads objs
  {
    map o | o in objs :: o.panda
  }

  function State(p: LogPhase, objs: set<ResourceType>, out: Found): St
    reads p, p.opVe.Values, objs
  {
    St(CombosOf(p), ViewsOf(objs), out)
  }

  /** The variants of the phase are distinct method objects, as the phase
      builders create them. */
  predicate DistinctMethods(p: LogPhase)
    reads p
  {
    forall v, w :: v in p.opVe && w in p.opVe && v != w ==> p.opVe[v] != p.opVe[w]
  }

  /** The requirement loop of `select_e`/`select_v`: each 'sup' requirement
      narrows the table in turn. */
  method FilterView(view: seq<Row>, reqs: seq<Requirement>) returns (r: seq<Row>)
    ensures r == Kept(view, reqs)
  {
    r := view;
    KeptNoRequirements(view);
    for j := 0 to |reqs|
      invariant r == Kept(view, reqs[..j])
    {
      var q := reqs[j];
      if q.comparator == SUP {
        r := KeepAtLeast(r, q.attr, q.threshold);
      }
      KeptSnoc(view, reqs[..j], q);
      assert reqs[..j + 1] == reqs[..j] + [q];
    }
    assert reqs[..|reqs|] == reqs;
  }

  /** What the walks below need of the phase: distinct method objects,
      every catalog object of its combinations in `objs`, and a result slot
      for the type being processed. */
  predicate Ready(p: LogPhase, objs: set<ResourceType>, out: Found, t: TypeReq)
    reads p, p.opVe.Values, objs
  {
    DistinctMethods(p) && Closed(CombosOf(p), ViewsOf(objs)) && t.typeId in out
  }

  /** The innermost loop of `select_e`/`select_v` for combination `c` of
      variant `v`: every role is visited in turn until one empties its table. */
  method WalkRoles(kind: Kind, t: TypeReq, p: LogPhase, ghost objs: set<ResourceType>, v: int, c: int, out0: Found)
    returns (out: Found)
    requires Ready(p, objs, out0, t) && v in p.opVe && c in p.opVe[v].veCombination
    modifies p.opVe[v], objs
    ensures State(p, objs, out) == RolesStep(old(State(p, objs, out0)), v, c, RolesOf(old(p.opVe[v].veCombination[c]), kind), 0, t)
    ensures forall w :: w in p.opVe ==> p.opVe[w].opSequence == old(p.opVe[w].opSequence) && p.opVe[w].sol == old(p.opVe[w].sol)
  {
    var roles := RolesOf(p.opVe[v].veCombination[c], kind);
    ghost var s0 := State(p, objs, out0);
    ClosedRoles(s0.combos, s0.views, v, c, kind);
    out := out0;
    var i := 0;
    while i < |roles|
      invariant 0 <= i <= |roles|
      invariant CombosOf(p) == s0.combos && ViewsOf(objs).Keys == objs && t.typeId in out
      invariant RolesIn(roles, ViewsOf(objs))
      invariant RolesStep(State(p, objs, out), v, c, roles, i, t) == RolesStep(s0, v, c, roles, 0, t)
      invariant forall w :: w in p.opVe ==> p.opVe[w].opSequence == old(p.opVe[w].opSequence) && p.opVe[w].sol == old(p.opVe[w].sol)
    {
      var stop;
      out, stop := VisitRole(kind, t, p, objs, v, c, roles, i, out);
      if stop {
        return;
      }
      i := i + 1;
    }
  }

  /** One role of the walk: a role of the type has its table narrowed; an
      empty result deletes the combination and stops the walk, a non-empty
      one is written back into the shared catalog object and into the result
      dict. */
  method VisitRole(kind: Kind, t: TypeReq, p: LogPhase, ghost objs: set<ResourceType>, v: int, c: int,
                   roles: seq<Role>, i: nat, out0: Found)
    returns (out: Found, stop: bool)
    requires DistinctMethods(p) && v in p.opVe && ViewsOf(objs).Keys == objs && t.typeId in out0
    requires RolesIn(roles, ViewsOf(objs)) && i < |roles|
    modifies p.opVe[v], objs
    ensures stop ==> State(p, objs, out) == RolesStep(old(State(p, objs, out0)), v, c, roles, i, t)
    ensures !stop ==> CombosOf(p) == old(CombosOf(p)) && ViewsOf(objs).Keys == objs && t.typeId in out
    ensures !stop ==> RolesStep(State(p, objs, out), v, c, roles, i + 1, t) == RolesStep(old(State(p, objs, out0)), v, c, roles, i, t)
    ensures forall w :: w in p.opVe ==> p.opVe[w].opSequence == old(p.opVe[w].opSequence) && p.opVe[w].sol == old(p.opVe[w].sol)
  {
    out := out0;
    stop := false;
    var r := roles[i];
    if r.Role? && r.res.id == t.typeId {
      var view := FilterView(r.res.panda, t.reqs);
      if view == [] {
        DeleteCombination(p, v, c);
        stop := true;
      } else {
        out := out[t.typeId := Some(view)];
        SetTable(r.res, view, objs);
      }
    }
  }

  /** The combination loop of `select_e`/`select_v` for variant `v`: the
      combinations present when it starts, in ascending key order. */
  method WalkCombos(kind: Kind, t: TypeReq, p: LogPhase, ghost objs: set<ResourceType>, v: int, out0: Found)
    returns (out: Found)
    requires Ready(p, objs, out0, t) && v in p.opVe
    modifies p.opVe[v], objs
    ensures State(p, objs, out) == CombosStep(old(State(p, objs, out0)), kind, v, old(p.opVe[v].veCombination.Keys), t)
    ensures forall w :: w in p.opVe ==> p.opVe[w].opSequence == old(p.opVe[w].opSequence) && p.opVe[w].sol == old(p.opVe[w].sol)
  {
    var todo := p.opVe[v].veCombination.Keys;
    ghost var s0 := State(p, objs, out0);
    ghost var s := s0;
    out := out0;
    while todo != {}
      invariant State(p, objs, out) == s
      invariant v in s.combos && todo <= s.combos[v].Keys && Closed(s.combos, s.views) && t.typeId in s.out
      invariant CombosStep(s, kind, v, todo, t) == CombosStep(s0, kind, v, s0.combos[v].Keys, t)
      invariant forall w :: w in p.opVe ==> p.opVe[w].opSequence == old(p.opVe[w].opSequence) && p.opVe[w].sol == old(p.opVe[w].sol)
      decreases todo
    {
      ghost var least := Min(todo);
      var c :| c in todo && forall x :: x in todo ==> c <= x;
      assert c == least;
      CombosStepFirst(s, kind, v, todo, t);
      out := WalkRoles(kind, t, p, objs, v, c, out);
      s := RolesStep(s, v, c, RolesOf(s.combos[v][c], kind), 0, t);
      todo := todo - {c};
    }
  }

  /** The variant loop of `select_e`/`select_v` for one requirement type, in
      ascending variant order. */
  method WalkVariants(kind: Kind, t: TypeReq, p: LogPhase, ghost objs: set<ResourceType>, out0: Found)
    returns (out: Found)
    requires Ready(p, objs, out0, t)
    modifies p.opVe.Values, objs
    ensures State(p, objs, out) == PassType(old(State(p, objs, out0)), kind, t)
    ensures forall w :: w in p.opVe ==> p.opVe[w].opSequence == old(p.opVe[w].opSequence) && p.opVe[w].sol == old(p.opVe[w].sol)
  {
    var todo := p.opVe.Keys;
    ghost var s0 := State(p, objs, out0);
    ghost var s := s0;
    assert todo == s0.combos.Keys;
    out := out0;
    while todo != {}
      invariant State(p, objs, out) == s
      invariant todo <= s.combos.Keys && Closed(s.combos, s.views) && t.typeId in s.out
      invariant VariantsStep(s, kind, todo, t) == PassType(s0, kind, t)
      invariant forall w :: w in p.opVe ==> p.opVe[w].opSequence == old(p.opVe[w].opSequence) && p.opVe[w].sol == old(p.opVe[w].sol)
      decreases todo
    {
      ghost var least := Min(todo);
      var v :| v in todo && forall x :: x in todo ==> v <= x;
      assert v == least;
      VariantsStepFirst(s, kind, todo, t);
      out := WalkCombos(kind, t, p, objs, v, out);
      s := CombosStep(s, kind, v, s.combos[v].Keys, t);
      todo := todo - {v};
    }
  }

  /** `select_e` (kind Equipment) and `select_v` (kind Vessel): the result
      dict starts with every requirement type mapped to None, then each type
      in turn walks the phase. */
  method RunSelection(kind: Kind, ts: seq<TypeReq>, p: LogPhase, ghost objs: set<ResourceType>)
    returns (out: Found)
    requires DistinctIds(ts) && DistinctMethods(p) && Closed(CombosOf(p), ViewsOf(objs))
    modifies p.opVe.Values, objs
    ensures State(p, objs, out) == Select(kind, ts, old(CombosOf(p)), old(ViewsOf(objs)))
    ensures forall w :: w in p.opVe ==> p.opVe[w].opSequence == old(p.opVe[w].opSequence) && p.opVe[w].sol == old(p.opVe[w].sol)
  {
    out := InitOut(ts);
    ghost var s0 := State(p, objs, out);
    ghost var s := s0;
    for k := 0 to |ts|
      invariant State(p, objs, out) == s
      invariant Closed(s.combos, s.views) && s.out.Keys == Ids(ts) && Ids(ts[..k]) <= s0.out.Keys
      invariant s == Run(s0, kind, ts[..k])
      invariant forall w :: w in p.opVe ==> p.opVe[w].opSequence == old(p.opVe[w].opSequence) && p.opVe[w].sol == old(p.opVe[w].sol)
    {
      RunNext(s0, kind, ts, k);
      out := WalkVariants(kind, ts[k], p, objs, out);
      s := PassType(s, kind, ts[k]);
    }
    assert ts[..|ts|] == ts;
  }

  /** `select_e`: the equipment requirement dict, `install['requirement'][0]`,
      in its key order, against the equipment roles of the phase. */
  method SelectE(reqE: seq<TypeReq>, p: LogPhase, ghost objs: set<ResourceType>) returns (eq: Found)
    requires DistinctIds(reqE) && DistinctMethods(p) && Closed(CombosOf(p), ViewsOf(objs))
    modifies p.opVe.Values, objs
    ensures State(p, objs, eq) == Select(Equipment, reqE, old(CombosOf(p)), old(ViewsOf(objs)))
    ensures forall w :: w in p.opVe ==> p.opVe[w].opSequence == old(p.opVe[w].opSequence) && p.opVe[w].sol == old(p.opVe[w].sol)
  {
    eq := RunSelection(Equipment, reqE, p, objs);
  }

  /** `select_v`: the vessel requirement dict, `install['requirement'][1]`,
      against the vessel roles of the phase. */
  method SelectV(reqV: seq<TypeReq>, p: LogPhase, ghost objs: set<ResourceType>) returns (ves: Found)
    requires DistinctIds(reqV) && DistinctMethods(p) && Closed(CombosOf(p), ViewsOf(objs))
    modifies p.opVe.Values, objs
    ensures State(p, objs, ves) == Select(Vessel, reqV, old(CombosOf(p)), old(ViewsOf(objs)))
    ensures forall w :: w in p.opVe ==> p.opVe[w].opSequence == old(p.opVe[w].opSequence) && p.opVe[w].sol == old(p.opVe[w].sol)
  {
    ves := RunSelection(Vessel, reqV, p, objs);
  }

  /** `del log_phase.op_ve[v].ve_combination[c]` */
  method DeleteCombination(p: LogPhase, v: int, c: int)
    requires DistinctMethods(p) && v in p.opVe
    modifies p.opVe[v]
    ensures CombosOf(p) == old(CombosOf(p))[v := old(CombosOf(p))[v] - {c}]
    ensures forall w :: w in p.opVe ==> p.opVe[w].opSequence == old(p.opVe[w].opSequence) && p.opVe[w].sol == old(p.opVe[w].sol)
  {
    var d := p.opVe[v];
    d.veCombination := d.veCombination - {c};
    forall w | w in p.opVe && w != v
      ensures p.opVe[w].veCombination == old(p.opVe[w].veCombination)
      ensures p.opVe[w].opSequence == old(p.opVe[w].opSequence) && p.opVe[w].sol == old(p.opVe[w].sol)
    {
      assert p.opVe[w] != d;
    }
  }

  /** The write-back of a narrowed table into a shared catalog object. */
  method SetTable(o: ResourceType, view: seq<Row>, ghost objs: set<ResourceType>)
    requires o in objs
    modifies o
    ensures ViewsOf(objs) == old(ViewsOf(objs))[o := view]
  {
    o.panda := view;
  }
}
