# Logistic phases and vessel/equipment selection of the DTOcean logistics module

This project models in Dafny the part of the DTOcean logistics module (WP5)
that decides which vessels, equipment and ports can carry out a logistic
phase, and proves properties of that model:

- **Operation catalog** (`operations.dfy`, `opkeys.dfy`): the 42 individual
  logistic operations (`LogOp`) of `logOp_init`, with their ids, descriptions,
  operating-limit vectors, times and costs.
- **Phase data model and builders** (`phase.dfy`, `phase_om.dfy`): the classes
  `LogPhase`, `DefPhase` and `VE_solutions`, and the builders of the ten
  installation phases and the nine O&M phases. Vessel and equipment types are
  catalog objects of class `ResourceType`, with an id and a mutable table.
  They are shared by reference between combinations, as in the system.
- **Selection** (`tables.dfy`, `selection.dfy`, `select_ve.dfy`): `select_e`
  and `select_v`.
  - Each `'sup'` requirement narrows a catalog object's table.
  - A combination with a role whose table narrows to nothing is deleted.
  - A non-empty table is written back into the shared object and into the
    result dict.
  - `selection.dfy` describes the selection as functions of the phase's
    values and proves what it leaves. `select_ve.dfy` carries out the same
    nested loops on the objects and is proved to end in the state those
    functions give.
- **Resolution** (`match.dfy`): `compatibility_ve` and `compatibility_ve_om`
  pick rows by position from the narrowed tables into `VE_solutions` records.
- **Port selection** (`select_port.dfy`): `install_port` and `OM_port`.
  - Each computes minimum terminal load bearing and area.
  - `OM_port` keeps the ports of the port table that reach both minimums.
    `install_port` as written compares the load bearing with 0 instead of
    its minimum (see Findings), so it keeps every port with a non-negative
    load bearing and enough area.
  - Each chooses the first port left.

Tables are sequences of rows. A row maps column names to `real` values.
Thresholds are `real`. Failures of the system (an empty `max()`, a division
by a zero area, no port left) are `Result` values.

## Model

| member | source | states |
|---|---|---|
| OpKeys.Family | wp5/logistics/operations.py:29-36 | the category digit of a key's prefix lies between 1 and 7 |
| OpKeys.FamilyKeys | wp5/logistics/operations.py:37-38 | the keys of a category with counters 1..c are exactly the keys with that prefix and a counter in range |
| OpKeys.KeysUpTo | wp5/logistics/operations.py:48-96 | the keys of categories 1..f are exactly the catalog keys of those categories, and there are as many as those categories define together |
| OpKeys.CatalogKeys | wp5/logistics/operations.py:48-96 | the set of catalog keys holds exactly the valid keys (op1–op8, op_EI1–2, op_F1–7, op_M1–9, op_D1–2, op_OM1–8, op_RT1–6) |
| OpKeys.CatalogSize | wp5/logistics/operations.py:48-96 | the catalog defines 42 keys |
| Operations.LogOpInit | wp5/logistics/operations.py:48-98 | the operation dict has an entry for exactly the valid keys |
| Operations.IdColumn | wp5/logistics/operations.py:29-38 | an operation's id lies in the tens range of its key's category, the key can be read back from the id, O&M and retrieval operations take 8 hours, and mobilisation takes 48 |
| Operations.CatalogSize42 | wp5/logistics/operations.py:48-98 | the dict holds 42 operations |
| Operations.CatalogIds | wp5/logistics/operations.py:48-96 | every id starts with its category's digit, and no two operations share an id |
| Operations.CatalogDefaults | wp5/logistics/operations.py:48-96 | every operation has the limit vector [0, 0, 0, 0] and cost 0; every op_OM and op_RT takes 8 hours; op1 takes 48 |
| Phase.ResourceType.constructor | wp5/selection/select_ve.py:50-51 | a catalog object holds the id and table it is given |
| Phase.VESolutions.constructor | wp5/logistics/phase.py:43-50 | a new solution has the given id and empty vessel, equipment, schedule and cost dicts |
| Phase.DefPhase.constructor | wp5/logistics/phase.py:33-40 | a new method has the given id and description, an empty sequence, no combinations and no solutions |
| Phase.LogPhase.constructor | wp5/logistics/phase.py:17-22 | a new phase has the given id and description and no methods |
| Phase.InstallIds | wp5/logistics/phase.py:86-98 | the ten installation ids are distinct and all lie between 100 and 199 |
| Phase.DrivenSequence | wp5/logistics/phase.py:108-139 | a driven-pile sequence has ten steps |
| Phase.DrivenCombinations | wp5/logistics/phase.py:141-171 | a driven-pile method has combinations 0, 1, 2 and 3 |
| Phase.DrivenSequencesDiffer | wp5/logistics/phase.py:108-139 | two driven-pile sequences agree at every step but step 5, which is each one's own pile operation; they start with op1 and end with op8 |
| Phase.DrivenCombinationsShape | wp5/logistics/phase.py:141-171 | every driven-pile combination has the method's tool as its only equipment; combinations 0 and 2 have two vessels, the second being the one shared tug object at rank 2; combinations 1 and 3 have one vessel |
| Phase.DrivenMethods | wp5/logistics/phase.py:104-171 | the three driven-pile methods are new distinct objects with ids 1, 2 and 3, no solutions, the sequences with op_F1, op_F2 and op_F3, the drill-rig and hammer combinations, and none for vibro-piling |
| Phase.FillDrivenCombinations | wp5/logistics/phase.py:141-171 | filling a method's combinations gives it the four driven-pile combinations with the given tool and leaves its sequence and solutions unchanged |
| Phase.InstallPhases | wp5/logistics/phase.py:86-106 | the ten installation phases are new objects with their ids; the driven-pile phase holds the given methods as variants 0, 1 and 2, the others hold none |
| Phase.NonDrivenPhases | wp5/logistics/phase.py:86-99 | the nine other installation phases are new, have their ids, and have no methods |
| Phase.InstallInit | wp5/logistics/phase.py:53-173 | the installation dict has exactly the ten keys; each phase is new and has its id; only F_driven has methods, and they are the three driven-pile methods |
| PhaseOM.OmIds | wp5/logistics/phase.py:209-218 | the nine O&M ids are distinct and lie between 900 and 908 |
| PhaseOM.OmVariantsRange | wp5/logistics/phase.py:224-246 | every O&M phase has one or two methods |
| PhaseOM.OmStepsDistinct | wp5/logistics/phase.py:255-621 | the fourteen O&M methods each run their own specific operation, one of op_OM1..op_OM8 or op_RT1..op_RT6 |
| PhaseOM.OmPhaseSequences | wp5/logistics/phase.py:255-621 | every method of a built O&M phase, method 0 included, runs seven steps: op1, op2, op3, op4, its own operation, op7, op8 |
| PhaseOM.TopsideNeedsNoEquipment | wp5/logistics/phase.py:264-274 | the top-side method has three combinations, each with the `(0, 0, 0)` placeholder as its only equipment |
| PhaseOM.BuriedCableEquipment | wp5/logistics/phase.py:457-460 | combination 1 of the buried-cable method keeps only its second equipment listing, the subsea excavating tools |
| PhaseOM.LiftingSharesTug | wp5/logistics/phase.py:479-486 | the on-deck, mooring-line and umbilical retrievals have four combinations; combinations 0 and 1 both hold the same tug object at rank 2 |
| PhaseOM.NewMethod | wp5/logistics/phase.py:224-246 | a new O&M method has id v + 1, its name, its seven-step sequence, its numbered combinations and no solutions |
| PhaseOM.AddCombinations | wp5/logistics/phase.py:264-273 | adding combinations one at a time gives the numbered dict of them and leaves sequence and solutions unchanged |
| PhaseOM.NewPhase | wp5/logistics/phase.py:209-246 | a new O&M phase has its id, its description and its methods 0 .. n - 1 as new distinct objects |
| PhaseOM.WithOneMethod | wp5/logistics/phase.py:224-226 | a phase with one method holds it as variant 0 |
| PhaseOM.WithTwoMethods | wp5/logistics/phase.py:228-242 | a phase with two methods holds them as variants 0 and 1 |
| PhaseOM.NewPhases | wp5/logistics/phase.py:209-218 | building one phase per key gives a dict with exactly those keys, each a new phase built as its key says, no two sharing an object |
| PhaseOM.OmInit | wp5/logistics/phase.py:176-642 | the O&M dict has all nine keys; each phase is new and built as its key says; no two phases are the same object |
| Tables.KeepAtLeast | wp5/selection/select_ve.py:61 | a threshold filter never adds rows |
| Tables.KeepAtLeastSpec | wp5/selection/select_ve.py:61 | the filter keeps exactly the rows reaching the threshold, in their original order |
| Tables.KeepAtLeastCommute | wp5/installation/select_port.py:58-60 | two threshold filters give the same rows in the same order whichever is applied first |
| Tables.KeptSpec | wp5/selection/select_ve.py:55-61 | a narrowed view is a subsequence of the view, and holds exactly the rows meeting every 'sup' requirement |
| Tables.KeptIdempotent | wp5/selection/select_ve.py:55-61 | narrowing a narrowed view again changes nothing |
| Tables.KeptReorder | wp5/selection/select_ve.py:55-61 | requirement lists with the same requirements, in any order or repeated, keep the same rows |
| Tables.KeptSnoc | wp5/selection/select_ve.py:55-61 | applying the requirements one after the other, as the loop does, gives the narrowed view; a label other than 'sup' filters nothing |
| Selection.ReqMap | wp5/selection/select_ve.py:39 | the requirement dict has the requirement types as keys |
| Selection.ReqMapAt | wp5/selection/select_ve.py:39 | with distinct keys, each type's entry is its own requirement list |
| Selection.RolesStep | wp5/selection/select_ve.py:48-69 | the walk over a combination's roles either keeps the combinations or deletes exactly that combination; it adds no tables and no result keys |
| Selection.CombosStep | wp5/selection/select_ve.py:47-69 | the walk over a variant's combinations changes no other variant and keeps every object of the combinations in the table map |
| Selection.VariantsStep | wp5/selection/select_ve.py:46-69 | the walk over the variants keeps the variant keys, the objects and the result keys |
| Selection.PassType | wp5/selection/select_ve.py:43-69 | one requirement type's pass keeps the variant keys, the objects and the result keys |
| Selection.Run | wp5/selection/select_ve.py:43-69 | the passes of the requirement types keep the variant keys, the objects and the result keys |
| Selection.SelectSpec | wp5/selection/select_ve.py:39-71 | the selection keeps the variant keys and the objects, and the result keys are the type ids; the combinations left are exactly those whose roles of every type narrow to non-empty tables, unchanged; every typed role left holds its object's narrowed table; every other table is unchanged or narrowed; each result is None or a narrowed table of its type, and a table once a combination left has a role of that type |
| Selection.SelectRoleView | wp5/selection/select_ve.py:61-69 | a typed role of a combination that is left holds a non-empty table: its object's rows, in order, meeting every requirement of its type, and only those |
| Selection.SelectResult | wp5/selection/select_ve.py:41-68 | a type's result, once written, is a requirement key, and is a non-empty table of the rows of one object of that type meeting every requirement of the type, in order |
| Selection.SelectResultOfObject | wp5/selection/select_ve.py:41-69 | when the catalog objects' ids are distinct, a type's written result is the narrowed table of the one object with that id |
| SelectVE.FilterView | wp5/selection/select_ve.py:55-61 | the requirement loop yields the narrowed view of the role's table |
| SelectVE.VisitRole | wp5/selection/select_ve.py:50-69 | one role's step leaves the phase, the tables and the result in the state of one step of the walk; it stops exactly when the walk deletes the combination; every method keeps its operation sequence and solutions |
| SelectVE.WalkRoles | wp5/selection/select_ve.py:48-69 | the role loop leaves the phase, the tables and the result dict as the walk over the combination's roles does; every method keeps its operation sequence and solutions |
| SelectVE.WalkCombos | wp5/selection/select_ve.py:47-69 | the combination loop over the keys present at its start leaves the state the combination walk gives; every method keeps its operation sequence and solutions |
| SelectVE.WalkVariants | wp5/selection/select_ve.py:46-69 | the variant loop leaves the state of one requirement type's pass; every method keeps its operation sequence and solutions |
| SelectVE.RunSelection | wp5/selection/select_ve.py:41-71 | the whole loop nest ends in the state the selection function gives for the phase's first combinations and tables; every method keeps its operation sequence and solutions |
| SelectVE.SelectE | wp5/selection/select_ve.py:15-71 | `select_e` ends with the phase's combinations, the catalog tables and the result dict the selection gives for the equipment roles; every method keeps its operation sequence and solutions |
| SelectVE.SelectV | wp5/selection/select_ve.py:74-129 | `select_v` ends with the state the selection gives for the vessel roles; every method keeps its operation sequence and solutions |
| SelectVE.DeleteCombination | wp5/selection/select_ve.py:65 | deleting a combination removes that key from its variant and changes no other variant; every method keeps its operation sequence and solutions |
| SelectVE.SetTable | wp5/selection/select_ve.py:69 | the write-back replaces that object's table and no other |
| Match.NewSolution | wp5/selection/match.py:41-42 | a new solution holds the given picks and empty schedule and cost |
| Match.CompatibilityVE | wp5/selection/match.py:19-65 | two new solutions 0 and 1 in method 1: solution 0 holds row 0 of both vessel tables of combination 0 and row 0 of its equipment table, solution 1 row 1 of both vessel tables and row 0 of the equipment table; the returned objects are those stored; combinations and sequence unchanged |
| Match.CompatibilityVEOM | wp5/selection/match.py:68-107 | two new solutions 0 and 1 in method 0: row 0 of combination 0's vessel role 0, then row 1 of combination 1's vessel role 0; no equipment; the returned objects are those stored; combinations and sequence unchanged |
| Match.PickedRowFeasible | wp5/selection/match.py:44-59 | any row picked from a typed role of a combination the selection left was in that object's table before the selection and meets every requirement of its type |
| SelectPort.PortListSpec | wp5/installation/select_port.py:58-60 | the ports left are a subsequence of the port table, and are exactly the ports reaching both minimums |
| SelectPort.PortListFirst | wp5/installation/select_port.py:72 | no port is left exactly when no port reaches both minimums; otherwise the first port left is the first port of the table that reaches them |
| SelectPort.Max | wp5/installation/select_port.py:56 | `max(a, b)` is one of a and b, and no smaller than either |
| SelectPort.MaxOf | wp5/installation/select_port.py:57 | `max(xs)` is an element of xs, and no element is larger |
| SelectPort.LoadMinimumBounds | wp5/installation/select_port.py:56-57 | the load minimum is at least the device figure and every foundation load |
| SelectPort.LoadMinimumAttained | wp5/installation/select_port.py:56-57 | the load minimum is the device figure or one foundation's load |
| SelectPort.FoundationFootprints | wp5/installation/select_port.py:46-54 | the loop appends, in order, the load and the area of each measured foundation |
| SelectPort.Minimums | wp5/installation/select_port.py:46-59 | fails exactly when no foundation load is measured; otherwise gives the load minimum and the area minimum |
| SelectPort.InstallPort | wp5/installation/select_port.py:15-74 | as written: fails exactly when no foundation is measured, or no port has a non-negative load bearing and enough area; the load minimum is stored under the spaced key while the unspaced key stays 0; the list is the ports with non-negative load bearing and enough area; 'Distance port-site' stays 0; the chosen port is the first such port |
| SelectPort.InstallLoadIgnored | wp5/installation/select_port.py:56-58 | for a device needing 2 ton/m2, the port with load bearing 1 and area 200 is kept, though it does not reach the load minimum |
| SelectPort.InstallPortIntended | wp5/installation/select_port.py:56-60 | with the load minimum under the key the filter reads: fails exactly when no foundation is measured or no port reaches both minimums; the list is the ports reaching both; the chosen port is the first such port of the table |
| SelectPort.OmPort | wp5/installation/select_port.py:76-136 | fails exactly when the spare-part area is 0, or when no port reaches the area and the load (total mass over area); the list is exactly those ports, area filter first; the chosen port is the first such port; the load and area keys stay 0 |

## Left out

- Loading of the vessel, equipment and port databases, and of the
  requirement dicts: the model takes them as parameters. This covers the
  Excel/CSV loading of `wp5/load`, the requirement generator
  `wp5/feasibility/wp4.py` and the dispatch in `wp5/feasibility/glob*.py`.
  The catalog entry 'Anchor Handling' has the id "AHTS"; matching is on
  the id only.
- `main.py`, `wp5/installation/planning.py`, and the scheduling and cost
  steps: script glue and placeholder tables, not part of this model.
- VesselType and EquipmentType are not part of this model. One class,
  `ResourceType`, stands for both, with the only two fields the core uses:
  `id` and `panda`.
- Pandas semantics:
  - A DataFrame is a sequence of rows; a row keeps no index label.
  - `.ix[index[k]]` and `.ix[0]` are read as "the k-th row" and "the first
    row". After filtering, the source's `.ix[0]` is a label lookup that
    fails when the row labelled 0 was filtered out; the model takes the first
    row by position.
  - A row without the filtered column fails the filter in the model.
    Pandas raises KeyError for a missing column.
- Floating point: thresholds and table values are exact `real`s. NaN
  and infinity are not modelled. `install_port` therefore requires a
  non-zero dry mass and non-zero foundation weights, where numpy would give
  an infinite figure.
- SelectPort.InstallPort and SelectPort.InstallPortIntended: the loading
  figures of `install_port` (lines 53 and 56) are exact real quotients.
  The source divides without `float()`, unlike `OM_port`, so integer-typed
  columns would floor-divide under Python 2. The as-written port choice
  does not depend on these figures, but the value stored under the spaced
  key and the load filter of the corrected member would.
- SelectPort.InstallPort and SelectPort.InstallPortIntended require the
  foundation table to hold at least `quantity` foundations
  (`FoundationsGiven`). The source raises KeyError at lines 50-53 when a
  foundation's columns are missing.
- The foundation quantity is taken as an integer, and a non-positive one
  measures no foundation, like `range()`.
- Python 2 dict order: the requirement dicts are given as sequences in
  their key order, and `select_e`/`select_v` require their keys to be
  distinct, as dict keys are.
- SelectVE.SelectE: a `(0, 0, 0)` placeholder equipment role matches no
  type and is skipped. The source reads `.id` of the integer 0 and raises
  AttributeError, so `select_e` on the top-side O&M phase fails in the
  system.
- SelectVE.SelectE and SelectVE.SelectV: these require every method of the
  phase to be a distinct object and every catalog object of the
  combinations to be among the objects given. The builders guarantee both.
- Known hazard, not modelled: the source loops over
  `range(len(ve_combination))` and deletes keys inside it. After a
  deletion, on a later pass, the positions no longer match the keys, and
  `ve_combination[combi]` raises KeyError. The model walks the keys present
  when each walk starts, in ascending order, which is what the source does
  as long as no key before the last has been deleted.
- Match.CompatibilityVE and Match.CompatibilityVEOM require the roles and
  rows they read to exist. The source raises KeyError or IndexError
  otherwise.
- The O&M builder does not parse as written: several `logOp["op_...]`
  keys lack their closing quote. The model builds the evident
  operations.
- The O&M builder is straight-line code in the source. The model builds the
  phases with a loop over the keys (`PhaseOM.NewPhases`), each phase from
  a per-key table of its methods and combinations.
- The third element `0` of each equipment tuple in the combinations
  (`(1, equipments['Hammer'], 0)`) is not kept: no part of this model
  reads it.
- The ids of the operation catalog follow the key prefixes: the `op_OM`
  operations have ids 6x and the `op_RT` operations ids 7x. The docstring
  of `logOp_init` documents eight categories (6 inspection, 7 on-site
  maintenance, 8 port-based maintenance). The model follows the ids of the
  literal.
- Descriptions of individual operations are kept in the catalog; that of
  op_OM8 repeats op_OM7's text, as in the source.
- `OM_port` reads the spare parts' height and individual mass but does not
  use them. The model keeps both fields and uses neither.

## Findings

| source | as written | input that shows it | evidently intended | confidence | as-written member | corrected member |
|---|---|---|---|---|---|---|
| wp5/installation/select_port.py:56-58 | the load minimum is stored under 'Terminal Load Bearing [ton / m2]' (with spaces), and the filter reads 'Terminal Load Bearing [ton/m2]', which still holds 0, so only ports with negative load bearing are dropped | a seabed-fixed device 10 m × 10 m of dry mass 50 on one foundation 1 m × 1 m of weight 1 (load minimum 2, area minimum 100) and a port with load bearing 1 and area 200: the port is kept and chosen | filter the ports on the computed load minimum | not executed | SelectPort.InstallPort (counterexample SelectPort.InstallLoadIgnored) | SelectPort.InstallPortIntended |
