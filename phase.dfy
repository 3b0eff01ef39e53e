/**
 * The logistic phase data model and the installation phase builder.
 *
 * A logistic phase (LogPhase) holds its alternative methods (op_ve: variant
 * number -> DefPhase). Each method has an operation sequence, a set of vessel
 * and equipment combinations, and the solutions chosen for it later on.
 * Vessel and equipment types are catalog objects shared by reference: the
 * same object appears in many combinations, and narrowing its table narrows
 * it for every one of them.
 */
module Phase {
  import opened Tables
  import opened OpKeys
  import opened Operations

  /** A vessel or equipment type of the catalog: its id and its table of
      candidate units, which the selection step narrows in place. */
  class ResourceType {
    const id: string
    var panda: seq<Row>

    constructor (id: string, panda: seq<Row>)
      ensures this.id == id && this.panda == panda
    {
      this.id := id;
      this.panda := panda;
    }
  }

  /** A slot of a combination: its rank and the catalog object filling it, or
      the `(0, 0, 0)` placeholder that stands for "no equipment". */
  datatype Role = Role(rank: int, res: ResourceType) | Placeholder

  /** A vessel and equipment combination (the {'vessel': ..., 'equipment': ...} dict). */
  datatype Combination = Combination(vessel: seq<Role>, equipment: seq<Role>)

  /** One solution of a phase method: the vessels and equipments picked for it. */
  class VESolutions {
    const id: int
    var solVes: map<int, Row>
    var solEq: map<int, Row>
    var schedule: map<int, real>
    var cost: map<int, real>

    constructor (id: int)
      ensures this.id == id
      ensures solVes == map[] && solEq == map[] && schedule == map[] && cost == map[]
    {
      this.id := id;
      solVes := map[];
      solEq := map[];
      schedule := map[];
      cost := map[];
    }
  }

  /** One method of a logistic phase. */
  class DefPhase {
    const id: int
    const description: string
    var opSequence: seq<LogOp>
    var veCombination: map<int, Combination>
    var sol: map<int, VESolutions>

    constructor (id: int, description: string)
      ensures this.id == id && this.description == description
      ensures opSequence == [] && veCombination == map[] && sol == map[]
    {
      this.id := id;
      this.description := description;
      opSequence := [];
      veCombination := map[];
      sol := map[];
    }
  }

  /** A logistic phase and its methods. */
  class LogPhase {
    const id: int
    const description: string
    var opVe: map<int, DefPhase>

    constructor (id: int, description: string)
      ensures this.id == id && this.description == description
      ensures opVe == map[]
    {
      this.id := id;
      this.description := description;
      opVe := map[];
    }
  }

  /** The keys of the installation phase dictionary ("E_export", ..., "D_floating"). */
  datatype InstallKey = E_export | E_array | E_cp | F_driven | F_suction | F_gravity
                      | M_drag | M_direct | D_fixed | D_floating

  /** The id each installation phase is created with: 1 (installation), then
      the sub-system (0 electrical, 1 moorings and foundations, 2 devices),
      then the component or method. */
  function InstallId(k: InstallKey): int
  {
    match k
    case E_export => 100
    case E_array => 101
    case E_cp => 102
    case F_driven => 110
    case F_suction => 111
    case F_gravity => 112
    case M_drag => 113
    case M_direct => 114
    case D_fixed => 120
    case D_floating => 121
  }

  /** The ten ids are distinct and all read "1xx": installation. */
  lemma InstallIds()
    ensures forall k1, k2 :: k1 != k2 ==> InstallId(k1) != InstallId(k2)
    ensures forall k :: 100 <= InstallId(k) < 200
  {
  }

  /** The vessel catalog entries the phase builders refer to, by their
      catalog names ("Crane Barge", "Tugboat", "CTV", ...). */
  datatype VesselName = CraneBarge | CraneVessel | JupBarge | JupVessel | Tugboat
                      | Ctv | Multicat | Helicopter | DiveSupportVessel | AnchorHandling | CableRepairVessel

  /** The equipment catalog entries the phase builders refer to ("Drill Rig",
      "Hammer", "Divers", "Rov inspection", ...). */
  datatype EquipmentName = DrillRig | Hammer | Divers | RovInspection | RovWorkclass | RovBurial
                         | SubseaExcavatingTools

  /** The operations a driven-pile sequence uses. */
  predicate HasDrivenOps(logOp: map<OpKey, LogOp>)
  {
    Op(1) in logOp && Op(2) in logOp && Op(3) in logOp && Op(4) in logOp && Op(5) in logOp
    && Op(6) in logOp && Op(7) in logOp && Op(8) in logOp
    && F(1) in logOp && F(2) in logOp && F(3) in logOp && F(7) in logOp
  }

  /** The vessels a driven-pile combination uses. */
  predicate HasDrivenVessels(vessels: map<VesselName, ResourceType>)
  {
    CraneBarge in vessels && CraneVessel in vessels && JupBarge in vessels
    && JupVessel in vessels && Tugboat in vessels
  }

  /** The ten-step sequence of a driven-pile method whose pile-specific step is `pile`. */
  function DrivenSequence(logOp: map<OpKey, LogOp>, pile: OpKey): (s: seq<LogOp>)
    requires HasDrivenOps(logOp) && pile in logOp
    ensures |s| == 10
  {
    [logOp[Op(1)], logOp[Op(2)], logOp[Op(3)], logOp[Op(4)], logOp[Op(5)],
     logOp[pile], logOp[F(7)], logOp[Op(6)], logOp[Op(7)], logOp[Op(8)]]
  }

  /** The four combinations of a driven-pile method that uses `tool`: a barge
      with a tug, a vessel on its own, a jack-up barge with a tug, and a jack-up
      vessel on its own. */
  function DrivenCombinations(vessels: map<VesselName, ResourceType>, tool: ResourceType): (m: map<int, Combination>)
    requires HasDrivenVessels(vessels)
    ensures m.Keys == {0, 1, 2, 3}
  {
    map[0 := Combination([Role(1, vessels[CraneBarge]), Role(2, vessels[Tugboat])], [Role(1, tool)]),
        1 := Combination([Role(1, vessels[CraneVessel])], [Role(1, tool)]),
        2 := Combination([Role(1, vessels[JupBarge]), Role(2, vessels[Tugboat])], [Role(1, tool)]),
        3 := Combination([Role(1, vessels[JupVessel])], [Role(1, tool)])]
  }

  /** The three driven-pile sequences agree everywhere but at step 5, where
      each has its own pile operation. */
  lemma DrivenSequencesDiffer(logOp: map<OpKey, LogOp>, a: OpKey, b: OpKey)
    requires HasDrivenOps(logOp) && a in logOp && b in logOp
    ensures forall i :: 0 <= i < 10 && i != 5 ==> DrivenSequence(logOp, a)[i] == DrivenSequence(logOp, b)[i]
    ensures DrivenSequence(logOp, a)[5] == logOp[a] && DrivenSequence(logOp, b)[5] == logOp[b]
    ensures DrivenSequence(logOp, a)[0] == logOp[Op(1)] && DrivenSequence(logOp, a)[9] == logOp[Op(8)]
  {
  }

  /** In every driven-pile combination the only equipment is the method's tool
      at rank 1; combinations 0 and 2 pair a barge with the tug at rank 2, and
      the tug is one and the same catalog object in both. */
  lemma DrivenCombinationsShape(vessels: map<VesselName, ResourceType>, tool: ResourceType)
    requires HasDrivenVessels(vessels)
    ensures forall c :: c in DrivenCombinations(vessels, tool) ==>
      DrivenCombinations(vessels, tool)[c].equipment == [Role(1, tool)]
    ensures |DrivenCombinations(vessels, tool)[0].vessel| == 2 && |DrivenCombinations(vessels, tool)[2].vessel| == 2
    ensures |DrivenCombinations(vessels, tool)[1].vessel| == 1 && |DrivenCombinations(vessels, tool)[3].vessel| == 1
    ensures DrivenCombinations(vessels, tool)[0].vessel[1] == Role(2, vessels[Tugboat])
    ensures DrivenCombinations(vessels, tool)[2].vessel[1] == Role(2, vessels[Tugboat])
  {
  }

  /** The three driven-pile methods as built: drilling (id 1), hammering
      (id 2) and vibro-piling (id 3), three distinct objects without
      solutions, each with its sequence; drilling and hammering have the four
      combinations with the drill rig and the hammer, vibro-piling has none. */
  ghost predicate DrivenMethodsAre(drilling: DefPhase, hammering: DefPhase, vibro: DefPhase,
                                   logOp: map<OpKey, LogOp>, vessels: map<VesselName, ResourceType>,
                                   equipments: map<EquipmentName, ResourceType>)
    requires HasDrivenOps(logOp) && HasDrivenVessels(vessels)
    requires DrillRig in equipments && Hammer in equipments
    reads drilling, hammering, vibro
  {
    && drilling != hammering && hammering != vibro && drilling != vibro
    && drilling.id == 1 && hammering.id == 2 && vibro.id == 3
    && drilling.sol == map[] && hammering.sol == map[] && vibro.sol == map[]
    && drilling.opSequence == DrivenSequence(logOp, F(1))
    && hammering.opSequence == DrivenSequence(logOp, F(2))
    && vibro.opSequence == DrivenSequence(logOp, F(3))
    && drilling.veCombination == DrivenCombinations(vessels, equipments[DrillRig])
    && hammering.veCombination == DrivenCombinations(vessels, equipments[Hammer])
    && vibro.veCombination == map[]
  }

  /** Creates the three driven-pile methods, each with its operation
      sequence, and the combinations of the drilling and hammering methods. */
  method DrivenMethods(logOp: map<OpKey, LogOp>, vessels: map<VesselName, ResourceType>,
                       equipments: map<EquipmentName, ResourceType>)
    returns (drilling: DefPhase, hammering: DefPhase, vibro: DefPhase)
    requires HasDrivenOps(logOp) && HasDrivenVessels(vessels)
    requires DrillRig in equipments && Hammer in equipments
    ensures fresh(drilling) && fresh(hammering) && fresh(vibro)
    ensures DrivenMethodsAre(drilling, hammering, vibro, logOp, vessels, equipments)
  {
    drilling := new DefPhase(1, "Drilling");
    hammering := new DefPhase(2, "Hammering");
    vibro := new DefPhase(3, "Vibro Pilling");

    drilling.opSequence := DrivenSequence(logOp, F(1));
    hammering.opSequence := DrivenSequence(logOp, F(2));
    vibro.opSequence := DrivenSequence(logOp, F(3));

    FillDrivenCombinations(drilling, vessels, equipments[DrillRig]);
    FillDrivenCombinations(hammering, vessels, equipments[Hammer]);
  }

  /** Adds the four driven-pile combinations, with `tool` as equipment, to a
      method that has none yet. */
  method FillDrivenCombinations(d: DefPhase, vessels: map<VesselName, ResourceType>, tool: ResourceType)
    requires HasDrivenVessels(vessels)
    requires d.veCombination == map[]
    modifies d
    ensures d.veCombination == DrivenCombinations(vessels, tool)
    ensures d.opSequence == old(d.opSequence) && d.sol == old(d.sol)
  {
    d.veCombination := d.veCombination[0 := Combination([Role(1, vessels[CraneBarge]), Role(2, vessels[Tugboat])], [Role(1, tool)])];
    d.veCombination := d.veCombination[1 := Combination([Role(1, vessels[CraneVessel])], [Role(1, tool)])];
    d.veCombination := d.veCombination[2 := Combination([Role(1, vessels[JupBarge]), Role(2, vessels[Tugboat])], [Role(1, tool)])];
    d.veCombination := d.veCombination[3 := Combination([Role(1, vessels[JupVessel])], [Role(1, tool)])];
  }

  /** The driven-pile phase holds the three driven-pile methods as variants
      0, 1 and 2. */
  ghost predicate DrivenMethodsOf(p: LogPhase, logOp: map<OpKey, LogOp>, vessels: map<VesselName, ResourceType>,
                                  equipments: map<EquipmentName, ResourceType>)
    requires HasDrivenOps(logOp) && HasDrivenVessels(vessels)
    requires DrillRig in equipments && Hammer in equipments
    reads p, p.opVe.Values
  {
    && p.opVe.Keys == {0, 1, 2}
    && DrivenMethodsAre(p.opVe[0], p.opVe[1], p.opVe[2], logOp, vessels, equipments)
  }

  /** The nine installation phases that receive no methods. */
  method NonDrivenPhases() returns (phases: map<InstallKey, LogPhase>)
    ensures phases.Keys == {E_export, E_array, E_cp, F_suction, F_gravity, M_drag, M_direct, D_fixed, D_floating}
    ensures forall k :: k in phases ==> fresh(phases[k]) && phases[k].id == InstallId(k) && phases[k].opVe == map[]
  {
    var eExport := new LogPhase(100, "Installation of static subsea export power cables");
    var eArray := new LogPhase(101, "Installation of static subsea inter-array power cables");
    var eCp := new LogPhase(102, "Installation of offshore electrical collection point");
    var fSuction := new LogPhase(111, "Installation of suction caissons for foundation systems");
    var fGravity := new LogPhase(112, "Installation of gravity based foundations");
    var mDrag := new LogPhase(113, "Installation of mooring systems with drag-embedment anchors");
    var mDirect := new LogPhase(114, "Installation of mooring systems with direct-embedment anchors");
    var dFixed := new LogPhase(120, "Installation of bottom fixed devices");
    var dFloating := new LogPhase(121, "Installation of floating devices");
    phases := map[E_export := eExport, E_array := eArray, E_cp := eCp,
                  F_suction := fSuction, F_gravity := fGravity,
                  M_drag := mDrag, M_direct := mDirect,
                  D_fixed := dFixed, D_floating := dFloating];
  }

  /** The ten installation phase objects, with the given methods as the
      variants 0, 1 and 2 of the driven-pile phase. */
  method InstallPhases(drilling: DefPhase, hammering: DefPhase, vibro: DefPhase)
    returns (phases: map<InstallKey, LogPhase>)
    ensures phases.Keys == {E_export, E_array, E_cp, F_driven, F_suction, F_gravity, M_drag, M_direct, D_fixed, D_floating}
    ensures forall k :: k in phases ==> fresh(phases[k]) && phases[k].id == InstallId(k)
    ensures forall k :: k in phases && k != F_driven ==> phases[k].opVe == map[]
    ensures phases[F_driven].opVe == map[0 := drilling, 1 := hammering, 2 := vibro]
  {
    var rest := NonDrivenPhases();
    var driven := new LogPhase(110, "Installation of driven piles foundations");
    driven.opVe := map[0 := drilling, 1 := hammering, 2 := vibro];
    phases := rest[F_driven := driven];
    forall k | k in phases
      ensures fresh(phases[k]) && phases[k].id == InstallId(k)
      ensures k != F_driven ==> phases[k].opVe == map[]
    {
      if k != F_driven {
        assert phases[k] == rest[k];
      }
    }
  }

  /** Builds the installation phases. Only the driven-pile phase receives
      methods: drilling, hammering and vibro-piling. */
  method InstallInit(logOp: map<OpKey, LogOp>, vessels: map<VesselName, ResourceType>,
                     equipments: map<EquipmentName, ResourceType>)
    returns (phases: map<InstallKey, LogPhase>)
    requires HasDrivenOps(logOp) && HasDrivenVessels(vessels)
    requires DrillRig in equipments && Hammer in equipments
    ensures phases.Keys == {E_export, E_array, E_cp, F_driven, F_suction, F_gravity, M_drag, M_direct, D_fixed, D_floating}
    ensures forall k :: k in phases ==> fresh(phases[k]) && phases[k].id == InstallId(k)
    ensures forall k :: k in phases && k != F_driven ==> phases[k].opVe == map[]
    ensures forall v :: v in phases[F_driven].opVe ==> fresh(phases[F_driven].opVe[v])
    ensures DrivenMethodsOf(phases[F_driven], logOp, vessels, equipments)
  {
    var drilling, hammering, vibro := DrivenMethods(logOp, vessels, equipments);
    phases := InstallPhases(drilling, hammering, vibro);
  }
}
