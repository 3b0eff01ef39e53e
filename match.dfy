/**
 * The resolution step: `compatibility_ve` and `compatibility_ve_om` record,
 * as the solutions of one method of a phase, rows taken by position from
 * the tables the selection has narrowed.
 */
module Match {
  import opened Tables
  import opened Phase
  import opened Selection

  /** Role `i` of `rs` names a catalog object whose table has at least `n`
      rows (pandas raises an error on a missing role or row). */
  predicate HasRows(rs: seq<Role>, i: nat, n: nat)
    reads if i < |rs| && rs[i].Role? then {rs[i].res} else {}
  {
    i < |rs| && rs[i].Role? && |rs[i].res.panda| >= n
  }

  /** `compatibility_ve`: two solutions for method 1 of an installation
      phase, both from its combination 0. Solution 0 takes the first row of
      the tables of vessel roles 0 and 1 and of equipment role 0; solution 1
      takes the second row of both vessel tables and again the first row of
      the equipment table. */
  method CompatibilityVE(p: LogPhase) returns (sol: map<int, VESolutions>)
    requires 1 in p.opVe && 0 in p.opVe[1].veCombination
    requires HasRows(p.opVe[1].veCombination[0].vessel, 0, 2)
    requires HasRows(p.opVe[1].veCombination[0].vessel, 1, 2)
    requires HasRows(p.opVe[1].veCombination[0].equipment, 0, 1)
    modifies p.opVe[1]
    ensures p.opVe[1].veCombination == old(p.opVe[1].veCombination)
    ensures p.opVe[1].opSequence == old(p.opVe[1].opSequence)
    ensures sol.Keys == {0, 1} && fresh(sol[0]) && fresh(sol[1]) && sol[0] != sol[1]
    ensures p.opVe[1].sol == old(p.opVe[1].sol)[0 := sol[0]][1 := sol[1]]
    ensures sol[0].id == 0 && sol[1].id == 1
    ensures var cb := p.opVe[1].veCombination[0];
      var ves0 := cb.vessel[0].res.panda;
      var ves1 := cb.vessel[1].res.panda;
      var eq := cb.equipment[0].res.panda;
      && sol[0].solVes == map[0 := ves0[0], 1 := ves1[0]] && sol[0].solEq == map[0 := eq[0]]
      && sol[1].solVes == map[0 := ves0[1], 1 := ves1[1]] && sol[1].solEq == map[0 := eq[0]]
    ensures sol[0].schedule == map[] && sol[0].cost == map[] && sol[1].schedule == map[] && sol[1].cost == map[]
  {
    var d := p.opVe[1];
    var cb := d.veCombination[0];
    var ves0 := cb.vessel[0].res.panda;
    var ves1 := cb.vessel[1].res.panda;
    var eq := cb.equipment[0].res.panda;

    var s0 := NewSolution(0, map[0 := ves0[0], 1 := ves1[0]], map[0 := eq[0]]);
    var s1 := NewSolution(1, map[0 := ves0[1], 1 := ves1[1]], map[0 := eq[0]]);
    d.sol := d.sol[0 := s0][1 := s1];
    sol := map[0 := d.sol[0], 1 := d.sol[1]];
  }

  /** A new solution record holding the picked vessels and equipment. */
  method NewSolution(id: int, ves: map<int, Row>, eq: map<int, Row>) returns (s: VESolutions)
    ensures fresh(s) && s.id == id && s.solVes == ves && s.solEq == eq
    ensures s.schedule == map[] && s.cost == map[]
  {
    s := new VESolutions(id);
    s.solVes := ves;
    s.solEq := eq;
  }

  /** `compatibility_ve_om`: two solutions for method 0 of an O&M phase, with
      vessels only. Solution 0 takes the first row of the table of vessel
      role 0 of combination 0; solution 1 the second row of the table of
      vessel role 0 of combination 1. */
  method CompatibilityVEOM(p: LogPhase) returns (sol: map<int, VESolutions>)
    requires 0 in p.opVe && 0 in p.opVe[0].veCombination && 1 in p.opVe[0].veCombination
    requires HasRows(p.opVe[0].veCombination[0].vessel, 0, 1)
    requires HasRows(p.opVe[0].veCombination[1].vessel, 0, 2)
    modifies p.opVe[0]
    ensures p.opVe[0].veCombination == old(p.opVe[0].veCombination)
    ensures p.opVe[0].opSequence == old(p.opVe[0].opSequence)
    ensures sol.Keys == {0, 1} && fresh(sol[0]) && fresh(sol[1]) && sol[0] != sol[1]
    ensures p.opVe[0].sol == old(p.opVe[0].sol)[0 := sol[0]][1 := sol[1]]
    ensures sol[0].id == 0 && sol[1].id == 1
    ensures var ves0 := p.opVe[0].veCombination[0].vessel[0].res.panda;
      var ves1 := p.opVe[0].veCombination[1].vessel[0].res.panda;
      && sol[0].solVes == map[0 := ves0[0]] && sol[1].solVes == map[0 := ves1[1]]
    ensures sol[0].solEq == map[] && sol[1].solEq == map[]
    ensures sol[0].schedule == map[] && sol[0].cost == map[] && sol[1].schedule == map[] && sol[1].cost == map[]
  {
    var d := p.opVe[0];
    var ves0 := d.veCombination[0].vessel[0].res.panda;
    var ves1 := d.veCombination[1].vessel[0].res.panda;

    var s0 := NewSolution(0, map[0 := ves0[0]], map[]);
    var s1 := NewSolution(1, map[0 := ves1[1]], map[]);
    d.sol := d.sol[0 := s0][1 := s1];
    sol := map[0 := d.sol[0], 1 := d.sol[1]];
  }

  /** The resolution picks from the tables the selection leaves: any row of
      the table of a typed role of a combination that survived `select_e` or
      `select_v` was in that object's table before the selection and meets
      every requirement of its type. */
  lemma PickedRowFeasible(kind: Kind, ts: seq<TypeReq>, combos: Combos, views: Views, v: int, c: int, i: int, j: int)
    requires Closed(combos, views) && DistinctIds(ts)
    requires v in combos && c in combos[v]
    requires v in Select(kind, ts, combos, views).combos && c in Select(kind, ts, combos, views).combos[v]
    requires 0 <= i < |RolesOf(combos[v][c], kind)| && Typed(RolesOf(combos[v][c], kind)[i], ReqMap(ts))
    requires RolesOf(combos[v][c], kind)[i].res in Select(kind, ts, combos, views).views
    requires 0 <= j < |Select(kind, ts, combos, views).views[RolesOf(combos[v][c], kind)[i].res]|
    ensures var o := RolesOf(combos[v][c], kind)[i].res;
      var x := Select(kind, ts, combos, views).views[o][j];
      o in views && x in views[o] && MeetsAll(x, ReqMap(ts)[o.id])
  {
    SelectRoleView(kind, ts, combos, views, v, c, i);
    var o := RolesOf(combos[v][c], kind)[i].res;
    assert Select(kind, ts, combos, views).views[o][j] in Select(kind, ts, combos, views).views[o];
  }
}
