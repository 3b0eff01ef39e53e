/**
 * The O&M logistic phases: nine phases (ids 900 to 908), each with one or
 * two methods. Every method runs the seven-step sequence op1, op2, op3, op4,
 * its own O&M or retrieval operation, op7, op8, and lists its vessel and
 * equipment combinations.
 */
module PhaseOM {
  import opened OpKeys
  import opened Operations
  import opened Phase

  /** The keys of the O&M phase dictionary ("Om_topside", ..., "Rt_umbilical"). */
  datatype OmKey = OmTopside | OmUnderwaterDivers | OmUnderwaterRov | OmMoorings | OmElectrical
                 | RtOndeck | RtTowing | RtMooring | RtUmbilical

  /** The dictionary's keys in the order the phases are built. */
  const OmKeys: seq<OmKey> := [OmTopside, OmUnderwaterDivers, OmUnderwaterRov, OmMoorings, OmElectrical,
                               RtOndeck, RtTowing, RtMooring, RtUmbilical]

  /** The id of each O&M phase: 9 (O&M) followed by its number. */
  function OmId(k: OmKey): int
  {
    match k
    case OmTopside => 900
    case OmUnderwaterDivers => 901
    case OmUnderwaterRov => 902
    case OmMoorings => 903
    case OmElectrical => 904
    case RtOndeck => 905
    case RtTowing => 906
    case RtMooring => 907
    case RtUmbilical => 908
  }

  function OmDescription(k: OmKey): string
  {
    match k
    case OmTopside => "O&M of top-side elements"
    case OmUnderwaterDivers => "O&M underwater with divers"
    case OmUnderwaterRov => "O&M underwater with rovs"
    case OmMoorings => "O&M of moorings sytems"
    case OmElectrical => "O&M of electrical system"
    case RtOndeck => "Retrieval of component by on-deck transportation"
    case RtTowing => "Retrieval of component by towing transportation"
    case RtMooring => "Retrieval of a mooring line"
    case RtUmbilical => "Retrieval of umbilical cable"
  }

  /** How many methods (variants 0, 1, ...) a phase has. */
  function OmVariants(k: OmKey): nat
  {
    match k
    case OmUnderwaterRov => 2
    case OmMoorings => 2
    case OmElectrical => 2
    case RtOndeck => 2
    case RtTowing => 2
    case _ => 1
  }

  /** The name of variant `v` of phase `k`. */
  function MethodName(k: OmKey, v: nat): string
  {
    match k
    case OmTopside => "Om_topside"
    case OmUnderwaterDivers => "Om_underwater_divers"
    case OmUnderwaterRov => if v == 0 then "Underwater" else "Near_surface"
    case OmMoorings => if v == 0 then "Replace_mooring" else "Maintenance_anchor"
    case OmElectrical => if v == 0 then "Om_nonburied" else "Om_buried"
    case RtOndeck => if v == 0 then "Rt_surfece" else "Rt_underwater"
    case RtTowing => if v == 0 then "Rt_surface" else "Rt_underwater"
    case RtMooring => "Rt_mooring"
    case RtUmbilical => "Rt_umbilical"
  }

  /** The operation specific to variant `v` of phase `k`: op_OM1 to op_OM8
      for the O&M phases, op_RT1 to op_RT6 for the retrievals. */
  function OmStep(k: OmKey, v: nat): OpKey
  {
    match k
    case OmTopside => OM(1)
    case OmUnderwaterDivers => OM(2)
    case OmUnderwaterRov => if v == 0 then OM(3) else OM(4)
    case OmMoorings => if v == 0 then OM(5) else OM(6)
    case OmElectrical => if v == 0 then OM(7) else OM(8)
    case RtOndeck => if v == 0 then RT(1) else RT(2)
    case RtTowing => if v == 0 then RT(3) else RT(4)
    case RtMooring => RT(5)
    case RtUmbilical => RT(6)
  }

  /** The operations an O&M sequence uses. */
  predicate HasOmOps(logOp: map<OpKey, LogOp>)
  {
    && Op(1) in logOp && Op(2) in logOp && Op(3) in logOp && Op(4) in logOp
    && Op(7) in logOp && Op(8) in logOp
    && (forall n :: 1 <= n <= 8 ==> OM(n) in logOp)
    && (forall n :: 1 <= n <= 6 ==> RT(n) in logOp)
  }

  /** The vessels the O&M combinations use. */
  predicate HasOmVessels(vessels: map<VesselName, ResourceType>)
  {
    && CraneBarge in vessels && CraneVessel in vessels && JupBarge in vessels && JupVessel in vessels
    && Tugboat in vessels && Ctv in vessels && Multicat in vessels && Helicopter in vessels
    && DiveSupportVessel in vessels && AnchorHandling in vessels && CableRepairVessel in vessels
  }

  /** The equipment the O&M combinations use. */
  predicate HasOmEquipment(equipments: map<EquipmentName, ResourceType>)
  {
    && Divers in equipments && RovInspection in equipments && RovWorkclass in equipments
    && RovBurial in equipments && SubseaExcavatingTools in equipments
  }

  /** The seven-step sequence of an O&M method whose specific operation is `step`. */
  function OmSequence(logOp: map<OpKey, LogOp>, step: OpKey): seq<LogOp>
    requires HasOmOps(logOp) && step in logOp
  {
    [logOp[Op(1)], logOp[Op(2)], logOp[Op(3)], logOp[Op(4)], logOp[step], logOp[Op(7)], logOp[Op(8)]]
  }

  /** One vessel at rank 1 with one piece of equipment at rank 1. */
  function Single(vessel: ResourceType, tool: ResourceType): Combination
  {
    Combination([Role(1, vessel)], [Role(1, tool)])
  }

  /** A barge at rank 1 towed by a tug at rank 2, with one piece of equipment. */
  function Towed(barge: ResourceType, tug: ResourceType, tool: ResourceType): Combination
  {
    Combination([Role(1, barge), Role(2, tug)], [Role(1, tool)])
  }

  /** The four lifting combinations of the retrievals: crane barge with tug,
      jack-up barge with tug, crane vessel, jack-up vessel. */
  function Lifting(vessels: map<VesselName, ResourceType>, tool: ResourceType): seq<Combination>
    requires HasOmVessels(vessels)
  {
    [Towed(vessels[CraneBarge], vessels[Tugboat], tool), Towed(vessels[JupBarge], vessels[Tugboat], tool),
     Single(vessels[CraneVessel], tool), Single(vessels[JupVessel], tool)]
  }

  /** The combinations of variant `v` of phase `k`, in the order of their
      numbers. The top-side phase needs no equipment (the `(0, 0, 0)`
      placeholder). The second combination of the buried-cable method lists
      its equipment twice; the second listing, the subsea excavating tools,
      is the one the dictionary keeps. */
  function OmCombos(k: OmKey, v: nat, vessels: map<VesselName, ResourceType>,
                    equipments: map<EquipmentName, ResourceType>): seq<Combination>
    requires HasOmVessels(vessels) && HasOmEquipment(equipments)
  {
    var rovW := equipments[RovWorkclass];
    var divers := equipments[Divers];
    match k
    case OmTopside =>
      [Combination([Role(1, vessels[Ctv])], [Placeholder]),
       Combination([Role(1, vessels[Multicat])], [Placeholder]),
       Combination([Role(1, vessels[Helicopter])], [Placeholder])]
    case OmUnderwaterDivers =>
      [Single(vessels[Ctv], divers), Single(vessels[Multicat], divers), Single(vessels[DiveSupportVessel], divers)]
    case OmUnderwaterRov =>
      if v == 0 then
        [Single(vessels[Multicat], equipments[RovInspection]), Single(vessels[Multicat], rovW),
         Single(vessels[Ctv], equipments[RovInspection]), Single(vessels[Ctv], rovW)]
      else
        [Single(vessels[Multicat], rovW), Single(vessels[Ctv], rovW)]
    case OmMoorings =>
      [Single(vessels[AnchorHandling], rovW), Single(vessels[Multicat], rovW),
       Single(vessels[Tugboat], rovW), Single(vessels[Ctv], rovW)]
    case OmElectrical =>
      if v == 0 then
        [Single(vessels[CableRepairVessel], rovW)]
      else
        [Single(vessels[CableRepairVessel], equipments[RovBurial]),
         Single(vessels[CableRepairVessel], equipments[SubseaExcavatingTools])]
    case RtOndeck => Lifting(vessels, if v == 0 then divers else rovW)
    case RtTowing =>
      var tool := if v == 0 then divers else rovW;
      [Single(vessels[CraneBarge], tool), Single(vessels[Tugboat], tool), Single(vessels[AnchorHandling], tool)]
    case RtMooring => Lifting(vessels, rovW)
    case RtUmbilical => Lifting(vessels, rovW)
  }

  /** A list of combinations as the dictionary numbered 0, 1, ... */
  function Numbered(cs: seq<Combination>): map<int, Combination>
  {
    map i | 0 <= i < |cs| :: cs[i]
  }

  /** `d` is variant `v` of phase `k`, as built and before any selection. */
  ghost predicate MethodOf(d: DefPhase, k: OmKey, v: nat, logOp: map<OpKey, LogOp>,
                           vessels: map<VesselName, ResourceType>, equipments: map<EquipmentName, ResourceType>)
    requires HasOmOps(logOp) && HasOmVessels(vessels) && HasOmEquipment(equipments)
    reads d
  {
    && d.id == v + 1 && d.description == MethodName(k, v)
    && OmStep(k, v) in logOp && d.opSequence == OmSequence(logOp, OmStep(k, v))
    && d.veCombination == Numbered(OmCombos(k, v, vessels, equipments))
    && d.sol == map[]
  }

  /** `p` is phase `k` as built: its id and description, its variants
      0 .. OmVariants(k) - 1, each a distinct method object as MethodOf says. */
  ghost predicate PhaseOf(p: LogPhase, k: OmKey, logOp: map<OpKey, LogOp>,
                          vessels: map<VesselName, ResourceType>, equipments: map<EquipmentName, ResourceType>)
    requires HasOmOps(logOp) && HasOmVessels(vessels) && HasOmEquipment(equipments)
    reads p, p.opVe.Values
  {
    && p.id == OmId(k) && p.description == OmDescription(k)
    && (forall v :: v in p.opVe <==> 0 <= v < OmVariants(k))
    && (forall v :: v in p.opVe ==> MethodOf(p.opVe[v], k, v, logOp, vessels, equipments))
    && (forall v, w :: v in p.opVe && w in p.opVe && v != w ==> p.opVe[v] != p.opVe[w])
  }

  /** The nine O&M ids are distinct and all read "9xx". */
  lemma OmIds()
    ensures forall k1, k2 :: k1 != k2 ==> OmId(k1) != OmId(k2)
    ensures forall k :: 900 <= OmId(k) <= 908
  {
  }

  /** Every O&M phase has a method 0, and at most a method 1 beside it. */
  lemma OmVariantsRange()
    ensures forall k :: 1 <= OmVariants(k) <= 2
  {
  }

  /** Each of the fourteen O&M methods runs its own specific operation, one
      of op_OM1 .. op_OM8 or op_RT1 .. op_RT6. */
  lemma OmStepsDistinct(k1: OmKey, v1: nat, k2: OmKey, v2: nat)
    requires v1 < OmVariants(k1) && v2 < OmVariants(k2)
    requires k1 != k2 || v1 != v2
    ensures OmStep(k1, v1) != OmStep(k2, v2)
    ensures OmStep(k1, v1).OM? ==> 1 <= OmStep(k1, v1).n <= 8
    ensures OmStep(k1, v1).RT? ==> 1 <= OmStep(k1, v1).n <= 6
    ensures OmStep(k1, v1).OM? || OmStep(k1, v1).RT?
  {
  }

  /** Every method of a built O&M phase runs seven steps: op1 to op4, its
      own operation, then op7 and op8. */
  lemma OmPhaseSequences(p: LogPhase, k: OmKey, logOp: map<OpKey, LogOp>,
                         vessels: map<VesselName, ResourceType>, equipments: map<EquipmentName, ResourceType>)
    requires HasOmOps(logOp) && HasOmVessels(vessels) && HasOmEquipment(equipments)
    requires PhaseOf(p, k, logOp, vessels, equipments)
    ensures 0 in p.opVe
    ensures forall v :: v in p.opVe ==> |p.opVe[v].opSequence| == 7
    ensures forall v :: v in p.opVe ==>
      p.opVe[v].opSequence[..4] == [logOp[Op(1)], logOp[Op(2)], logOp[Op(3)], logOp[Op(4)]]
    ensures forall v :: v in p.opVe ==> p.opVe[v].opSequence[4] == logOp[OmStep(k, v)]
    ensures forall v :: v in p.opVe ==> p.opVe[v].opSequence[5..] == [logOp[Op(7)], logOp[Op(8)]]
  {
    forall v | v in p.opVe
      ensures |p.opVe[v].opSequence| == 7
      ensures p.opVe[v].opSequence[..4] == [logOp[Op(1)], logOp[Op(2)], logOp[Op(3)], logOp[Op(4)]]
      ensures p.opVe[v].opSequence[4] == logOp[OmStep(k, v)]
      ensures p.opVe[v].opSequence[5..] == [logOp[Op(7)], logOp[Op(8)]]
    {
      assert MethodOf(p.opVe[v], k, v, logOp, vessels, equipments);
    }
  }

  /** The top-side combinations carry the `(0, 0, 0)` placeholder as their
      only equipment, never a catalog object. */
  lemma TopsideNeedsNoEquipment(vessels: map<VesselName, ResourceType>, equipments: map<EquipmentName, ResourceType>)
    requires HasOmVessels(vessels) && HasOmEquipment(equipments)
    ensures |OmCombos(OmTopside, 0, vessels, equipments)| == 3
    ensures forall c :: 0 <= c < 3 ==> OmCombos(OmTopside, 0, vessels, equipments)[c].equipment == [Placeholder]
  {
  }

  /** Combination 1 of the buried-cable method keeps only the second of its
      two equipment listings: the subsea excavating tools. */
  lemma BuriedCableEquipment(vessels: map<VesselName, ResourceType>, equipments: map<EquipmentName, ResourceType>)
    requires HasOmVessels(vessels) && HasOmEquipment(equipments)
    ensures OmCombos(OmElectrical, 1, vessels, equipments)[1].equipment == [Role(1, equipments[SubseaExcavatingTools])]
  {
  }

  /** The lifting retrievals share one tug object between their two towed
      combinations: narrowing its table narrows it for both. */
  lemma LiftingSharesTug(k: OmKey, v: nat, vessels: map<VesselName, ResourceType>,
                         equipments: map<EquipmentName, ResourceType>)
    requires HasOmVessels(vessels) && HasOmEquipment(equipments)
    requires k in {RtOndeck, RtMooring, RtUmbilical} && v < OmVariants(k)
    ensures |OmCombos(k, v, vessels, equipments)| == 4
    ensures OmCombos(k, v, vessels, equipments)[0].vessel[1] == Role(2, vessels[Tugboat])
    ensures OmCombos(k, v, vessels, equipments)[1].vessel[1] == Role(2, vessels[Tugboat])
  {
  }

  /** Creates method `v` of phase `k`: its sequence, then its combinations
      one at a time under the numbers 0, 1, ... */
  method NewMethod(k: OmKey, v: nat, logOp: map<OpKey, LogOp>,
                   vessels: map<VesselName, ResourceType>, equipments: map<EquipmentName, ResourceType>)
    returns (d: DefPhase)
    requires HasOmOps(logOp) && HasOmVessels(vessels) && HasOmEquipment(equipments)
    requires v < OmVariants(k)
    ensures fresh(d)
    ensures MethodOf(d, k, v, logOp, vessels, equipments)
  {
    d := new DefPhase(v + 1, MethodName(k, v));
    assert OmStep(k, v) in logOp;
    d.opSequence := OmSequence(logOp, OmStep(k, v));
    AddCombinations(d, OmCombos(k, v, vessels, equipments));
  }

  /** Adds `combos` to a method that has no combination yet, one at a time,
      under the numbers 0, 1, ... */
  method AddCombinations(d: DefPhase, combos: seq<Combination>)
    requires d.veCombination == map[]
    modifies d
    ensures d.veCombination == Numbered(combos)
    ensures d.opSequence == old(d.opSequence) && d.sol == old(d.sol)
  {
    for i := 0 to |combos|
      invariant d.veCombination == Numbered(combos[..i])
      invariant d.opSequence == old(d.opSequence) && d.sol == old(d.sol)
    {
      d.veCombination := d.veCombination[i := combos[i]];
      assert combos[..i + 1] == combos[..i] + [combos[i]];
    }
    assert combos[..|combos|] == combos;
  }

  /** Creates phase `k` with its methods. */
  method NewPhase(k: OmKey, logOp: map<OpKey, LogOp>,
                  vessels: map<VesselName, ResourceType>, equipments: map<EquipmentName, ResourceType>)
    returns (p: LogPhase)
    requires HasOmOps(logOp) && HasOmVessels(vessels) && HasOmEquipment(equipments)
    ensures fresh(p) && forall v :: v in p.opVe ==> fresh(p.opVe[v])
    ensures PhaseOf(p, k, logOp, vessels, equipments)
  {
    var first := NewMethod(k, 0, logOp, vessels, equipments);
    if OmVariants(k) == 1 {
      p := WithOneMethod(k, first);
      OneMethodPhase(p, k, first, logOp, vessels, equipments);
    } else {
      var second := NewMethod(k, 1, logOp, vessels, equipments);
      p := WithTwoMethods(k, first, second);
      TwoMethodPhase(p, k, first, second, logOp, vessels, equipments);
    }
  }

  /** The phase object of phase `k` holding one method. */
  method WithOneMethod(k: OmKey, first: DefPhase) returns (p: LogPhase)
    ensures fresh(p) && p.id == OmId(k) && p.description == OmDescription(k)
    ensures p.opVe == map[0 := first]
  {
    p := new LogPhase(OmId(k), OmDescription(k));
    p.opVe := map[0 := first];
  }

  /** The phase object of phase `k` holding two methods. */
  method WithTwoMethods(k: OmKey, first: DefPhase, second: DefPhase) returns (p: LogPhase)
    ensures fresh(p) && p.id == OmId(k) && p.description == OmDescription(k)
    ensures p.opVe == map[0 := first, 1 := second]
  {
    p := new LogPhase(OmId(k), OmDescription(k));
    p.opVe := map[0 := first, 1 := second];
  }

  /** A phase object holding its one method as variant 0 is the phase as built. */
  lemma OneMethodPhase(p: LogPhase, k: OmKey, first: DefPhase, logOp: map<OpKey, LogOp>,
                       vessels: map<VesselName, ResourceType>, equipments: map<EquipmentName, ResourceType>)
    requires HasOmOps(logOp) && HasOmVessels(vessels) && HasOmEquipment(equipments)
    requires OmVariants(k) == 1 && MethodOf(first, k, 0, logOp, vessels, equipments)
    requires p.id == OmId(k) && p.description == OmDescription(k) && p.opVe == map[0 := first]
    ensures PhaseOf(p, k, logOp, vessels, equipments)
  {
    forall v | v in p.opVe
      ensures MethodOf(p.opVe[v], k, v, logOp, vessels, equipments)
    {
      assert v == 0 && p.opVe[v] == first;
    }
  }

  /** A phase object holding its two distinct methods as variants 0 and 1 is
      the phase as built. */
  lemma TwoMethodPhase(p: LogPhase, k: OmKey, first: DefPhase, second: DefPhase, logOp: map<OpKey, LogOp>,
                       vessels: map<VesselName, ResourceType>, equipments: map<EquipmentName, ResourceType>)
    requires HasOmOps(logOp) && HasOmVessels(vessels) && HasOmEquipment(equipments)
    requires OmVariants(k) == 2 && first != second
    requires MethodOf(first, k, 0, logOp, vessels, equipments) && MethodOf(second, k, 1, logOp, vessels, equipments)
    requires p.id == OmId(k) && p.description == OmDescription(k) && p.opVe == map[0 := first, 1 := second]
    ensures PhaseOf(p, k, logOp, vessels, equipments)
  {
    forall v | v in p.opVe
      ensures MethodOf(p.opVe[v], k, v, logOp, vessels, equipments)
    {
      if v == 0 {
        assert p.opVe[v] == first;
      } else {
        assert p.opVe[v] == second;
      }
    }
  }

  /** Builds the O&M phases, one per key, none sharing an object with another. */
  method OmInit(logOp: map<OpKey, LogOp>, vessels: map<VesselName, ResourceType>,
                equipments: map<EquipmentName, ResourceType>)
    returns (phases: map<OmKey, LogPhase>)
    requires HasOmOps(logOp) && HasOmVessels(vessels) && HasOmEquipment(equipments)
    ensures forall k :: k in phases
    ensures forall k :: fresh(phases[k]) && PhaseOf(phases[k], k, logOp, vessels, equipments)
    ensures forall k1, k2 :: k1 != k2 ==> phases[k1] != phases[k2]
  {
    phases := NewPhases(OmKeys, logOp, vessels, equipments);
    forall k ensures k in phases {
      OmIndexOfKey(OmIndex(k));
    }
  }

  /** Builds one phase per key of `keys`, in order. */
  method NewPhases(keys: seq<OmKey>, logOp: map<OpKey, LogOp>, vessels: map<VesselName, ResourceType>,
                   equipments: map<EquipmentName, ResourceType>)
    returns (phases: map<OmKey, LogPhase>)
    requires HasOmOps(logOp) && HasOmVessels(vessels) && HasOmEquipment(equipments)
    ensures forall k :: k in phases <==> k in keys
    ensures forall k :: k in phases ==> fresh(phases[k]) && PhaseOf(phases[k], k, logOp, vessels, equipments)
    ensures forall k1, k2 :: k1 in phases && k2 in phases && k1 != k2 ==> phases[k1] != phases[k2]
  {
    phases := map[];
    for i := 0 to |keys|
      invariant forall k :: k in phases <==> k in keys[..i]
      invariant forall k :: k in phases ==> fresh(phases[k]) && PhaseOf(phases[k], k, logOp, vessels, equipments)
      invariant forall k1, k2 :: k1 in phases && k2 in phases && k1 != k2 ==> phases[k1] != phases[k2]
    {
      var p := NewPhase(keys[i], logOp, vessels, equipments);
      assert keys[..i + 1] == keys[..i] + [keys[i]];
      phases := phases[keys[i] := p];
    }
    assert keys[..|keys|] == keys;
  }

  lemma OmIndexOfKey(i: nat)
    requires i < |OmKeys|
    ensures OmIndex(OmKeys[i]) == i
  {
  }

  /** Where a key sits in OmKeys. */
  function OmIndex(k: OmKey): (i: nat)
    ensures i < |OmKeys| && OmKeys[i] == k
  {
    match k
    case OmTopside => 0
    case OmUnderwaterDivers => 1
    case OmUnderwaterRov => 2
    case OmMoorings => 3
    case OmElectrical => 4
    case RtOndeck => 5
    case RtTowing => 6
    case RtMooring => 7
    case RtUmbilical => 8
  }
}
