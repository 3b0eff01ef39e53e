/**
 * The catalog of individual logistic operations.
 *
 * Each operation has a numeric id whose first (tens) digit follows its key
 * prefix, as the literal writes the ids: 1 general ("op"), 2 electrical
 * infrastructure ("op_EI"), 3 foundations ("op_F"), 4 moorings ("op_M"),
 * 5 devices ("op_D"), 6 the "op_OM" operations, 7 the "op_RT" operations; the
 * units digit is a counter inside the category. (The documented scheme has
 * eight categories, with 6 inspection, 7 on-site maintenance and 8 port-based
 * maintenance; the ids do not use it.)
 *
 * The dictionary keys "op1".."op8", "op_EI1", "op_F1", "op_M1", "op_D1",
 * "op_OM1", "op_RT1", ... are written here as the typed keys Op(1)..Op(8),
 * EI(1), F(1), M(1), D(1), OM(1), RT(1), ...
 */
module Operations {
  import opened OpKeys

  /** An individual logistic operation: id, description, operational limit
      conditions (olc), pre-defined duration and cost, stored as given. */
  datatype LogOp = LogOp(id: int, description: string, olc: seq<int>, time: int, cost: int)

  const NoLimits: seq<int> := [0, 0, 0, 0]

  // The catalog's columns, one function per column (the dictionary literal read
  // column-wise); every cost is 0 and every olc vector is NoLimits.

  function IdOf(k: OpKey): int requires ValidKey(k) {
    match k
      case Op(n) =>
        if n == 1 then 10
        else if n == 2 then 11
        else if n == 3 then 13
        else if n == 4 then 14
        else if n == 5 then 15
        else if n == 6 then 16
        else if n == 7 then 17
        else 18
      case EI(n) =>
        if n == 1 then 20
        else 21
      case F(n) =>
        if n == 1 then 30
        else if n == 2 then 31
        else if n == 3 then 32
        else if n == 4 then 33
        else if n == 5 then 34
        else if n == 6 then 35
        else 36
      case M(n) =>
        if n == 1 then 40
        else if n == 2 then 41
        else if n == 3 then 42
        else if n == 4 then 43
        else if n == 5 then 44
        else if n == 6 then 45
        else if n == 7 then 46
        else if n == 8 then 47
        else 48
      case D(n) =>
        if n == 1 then 50
        else 51
      case OM(n) =>
        if n == 1 then 60
        else if n == 2 then 61
        else if n == 3 then 62
        else if n == 4 then 63
        else if n == 5 then 64
        else if n == 6 then 65
        else if n == 7 then 66
        else 67
      case RT(n) =>
        if n == 1 then 71
        else if n == 2 then 72
        else if n == 3 then 73
        else if n == 4 then 74
        else if n == 5 then 75
        else 76
  }
  function Description(k: OpKey): string requires ValidKey(k) {
    match k
      case Op(n) =>
        if n == 1 then "Mobilisation"
        else if n == 2 then "Assembly at port"
        else if n == 3 then "Vessel preparation and loading"
        else if n == 4 then "Transportation from port to site"
        else if n == 5 then "Seafloor and equipment preparation on-site"
        else if n == 6 then "Transportation from site to site"
        else if n == 7 then "Transportation from site to port"
        else "Demobilisation"
      case EI(n) =>
        if n == 1 then "Cable laying"
        else "Cable protection"
      case F(n) =>
        if n == 1 then "Driven pile foundation seafloor penetration through drilling rig + positioning"
        else if n == 2 then "Driven pile foundation seafloor penetration through hammering + positioning"
        else if n == 3 then "Driven pile foundation seafloor penetration through vibro-driving + positioning"
        else if n == 4 then "Gravity based foundation lowering + positioning"
        else if n == 5 then "Suction caisson foundation seafloor penetration + positioning"
        else if n == 6 then "Support structure positioning"
        else "Equipment removal and grouting"
      case M(n) =>
        if n == 1 then "Driven pile anchor seafloor penetration through drilling rig + positioning"
        else if n == 2 then "Driven pile anchor seafloor penetration through hammering + positioning"
        else if n == 3 then "Driven pile anchor seafloor penetration through vibro-driving + positioning"
        else if n == 4 then "Gravity based anchor lowering + positioning"
        else if n == 5 then "Suction caisson seafloor penetration + mooring lines deployment"
        else if n == 6 then "Drag-embedment anchor seafloor penetration + mooring lines deployment"
        else if n == 7 then "Direct-embedment anchor seafloor penetration through suction-embedment + mooring lines deployment"
        else if n == 8 then "Direct-embedment anchor seafloor penetration through jetting-embedment + mooring lines deployment"
        else "Direct-embedment anchor seafloor penetration through mechanical-embedment + mooring lines deployment"
      case D(n) =>
        if n == 1 then "On-site posisitioning and connection of bottom-fixed device"
        else "On-site posisitioning and connection of floating device"
      case OM(n) =>
        if n == 1 then "Inspection maintenance top side elements"
        else if n == 2 then "Inspection maintenance underwater divers"
        else if n == 3 then "Inspection maintenance underwater rovs"
        else if n == 4 then "Inspection maintenance near surface rovs"
        else if n == 5 then "Maintenance on mooring cable"
        else if n == 6 then "Maintenance on mooring anchor"
        else if n == 7 then "Maintenance on static non-buried power cables "
        else "Maintenance on static non-buried power cables "
      case RT(n) =>
        if n == 1 then "Retrieval of component at surface by on-deck transportation"
        else if n == 2 then "Retrieval of component from bottom by on-deck transportation"
        else if n == 3 then "Retrieval of component at surface by towing transportation"
        else if n == 4 then "Retrieval of component from bottom by towing transportation"
        else if n == 5 then "Retrieval of a mooring line"
        else "Retrieval of umbilical cable"
  }
  function TimeOf(k: OpKey): int requires ValidKey(k) {
    match k
      case Op(n) =>
        if n == 1 then 48
        else if n == 2 then 1
        else if n == 3 then 1
        else if n == 4 then 1
        else if n == 5 then 0
        else if n == 6 then 0
        else if n == 7 then 0
        else 0
      case EI(n) =>
        if n == 1 then 0
        else 0
      case F(n) =>
        if n == 1 then 0
        else if n == 2 then 0
        else if n == 3 then 0
        else if n == 4 then 0
        else if n == 5 then 0
        else if n == 6 then 0
        else 0
      case M(n) =>
        if n == 1 then 0
        else if n == 2 then 0
        else if n == 3 then 0
        else if n == 4 then 0
        else if n == 5 then 0
        else if n == 6 then 0
        else if n == 7 then 0
        else if n == 8 then 0
        else 0
      case D(n) =>
        if n == 1 then 0
        else 0
      case OM(n) =>
        if n == 1 then 8
        else if n == 2 then 8
        else if n == 3 then 8
        else if n == 4 then 8
        else if n == 5 then 8
        else if n == 6 then 8
        else if n == 7 then 8
        else 8
      case RT(n) =>
        if n == 1 then 8
        else if n == 2 then 8
        else if n == 3 then 8
        else if n == 4 then 8
        else if n == 5 then 8
        else 8
  }
  /** The catalog entry of a key, as the dictionary literal builds it. */
  function Entry(k: OpKey): LogOp
    requires ValidKey(k)
  {
    LogOp(IdOf(k), Description(k), NoLimits, TimeOf(k), 0)
  }

  /** Reads a key back from an id: the tens digit gives the prefix, the units
      digit the counter. */
  function KeyOfId(id: int): OpKey {
    if id / 10 == 1 then Op(if id <= 11 then id - 9 else id - 10)
    else if id / 10 == 2 then EI(id - 19)
    else if id / 10 == 3 then F(id - 29)
    else if id / 10 == 4 then M(id - 39)
    else if id / 10 == 5 then D(id - 49)
    else if id / 10 == 6 then OM(id - 59)
    else RT(if id >= 70 then id - 70 else 0)
  }

  /** The id column: the tens digit is the key's category, and the key can be
      read back from the id, so no two keys share an id. */
  lemma {:induction false} IdColumn(k: OpKey)
    requires ValidKey(k)
    ensures 10 * Family(k) <= IdOf(k) < 10 * Family(k) + 10
    ensures KeyOfId(IdOf(k)) == k
    ensures Family(k) in {6, 7} ==> TimeOf(k) == 8
    ensures k == Op(1) ==> TimeOf(k) == 48
  {
    match k
    case Op(n) => {}
    case EI(n) => {}
    case F(n) => {}
    case M(n) => {}
    case D(n) => {}
    case OM(n) => {}
    case RT(n) => {}
  }

  /** The dictionary of all individual operations, keyed by the catalog's keys. */
  function LogOpInit(): (ops: map<OpKey, LogOp>)
    ensures forall k :: k in ops <==> ValidKey(k)
  {
    map k | k in CatalogKeys() :: Entry(k)
  }

  /** The dictionary holds 42 operations. */
  lemma CatalogSize42()
    ensures |LogOpInit()| == 42
  {
    CatalogSize();
    assert LogOpInit().Keys == CatalogKeys();
  }

  /** Every id starts with its category's digit, and no two operations share an id. */
  lemma CatalogIds()
    ensures forall k :: k in LogOpInit() ==> 10 * Family(k) <= LogOpInit()[k].id < 10 * Family(k) + 10
    ensures forall k1, k2 :: k1 in LogOpInit() && k2 in LogOpInit() && k1 != k2 ==>
      LogOpInit()[k1].id != LogOpInit()[k2].id
  {
    var ops := LogOpInit();
    forall k | k in ops
      ensures 10 * Family(k) <= ops[k].id < 10 * Family(k) + 10
      ensures KeyOfId(ops[k].id) == k
    {
      IdColumn(k);
    }
  }

  /** No operation carries limit conditions or a cost; the inspection and
      retrieval operations take 8 hours and mobilisation 48. */
  lemma CatalogDefaults()
    ensures forall k :: k in LogOpInit() ==> LogOpInit()[k].olc == [0, 0, 0, 0] && LogOpInit()[k].cost == 0
    ensures forall k :: k in LogOpInit() && Family(k) in {6, 7} ==> LogOpInit()[k].time == 8
    ensures LogOpInit()[Op(1)].time == 48
  {
    var ops := LogOpInit();
    forall k | k in ops
      ensures Family(k) in {6, 7} ==> ops[k].time == 8
    {
      IdColumn(k);
    }
    IdColumn(Op(1));
  }
}
