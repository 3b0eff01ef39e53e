/**
 * The choice of the base port for installation (`install_port`) and for
 * O&M (`OM_port`): the port table is cut down to the ports whose terminal
 * load bearing and terminal area reach the minimums the project needs, and
 * the first port left is the one chosen.
 */
module SelectPort {
  import opened Wrappers
  import opened Tables

  /** The port table's column of terminal load bearing, and the report key
      with the same name. */
  const LoadColumn: string := "Terminal Load Bearing [ton/m2]"
  /** The key, spelt with spaces, under which `install_port` writes its load
      minimum. */
  const LoadKeySpaced: string := "Terminal Load Bearing [ton / m2]"
  const AreaColumn: string := "Terminal area [m2]"
  const ListKey: string := "Port list satisfying the minimum requirements"
  const DistanceKey: string := "Distance port-site"
  const SelectedKey: string := "Selected base port for installation"

  /** A value of the port report: a number, a port table or one port. */
  datatype Entry = Num(x: real) | Table(rows: seq<Row>) | Port(row: Row)

  type Report = map<string, Entry>

  /** Why a port selection fails: `max()` of an empty list of foundation
      loads, division by a zero spare-part area, or no port left to choose. */
  datatype PortError = NoFoundationLoads | ZeroArea | NoFeasiblePort

  /** The report as initialised: its five keys, each 0. */
  function InitReport(): Report
  {
    map[LoadColumn := Num(0.0), AreaColumn := Num(0.0), ListKey := Num(0.0),
        DistanceKey := Num(0.0), SelectedKey := Num(0.0)]
  }

  /** A port meets both minimums. */
  predicate Qualifies(row: Row, loadMin: real, areaMin: real)
  {
    AtLeast(row, LoadColumn, loadMin) && AtLeast(row, AreaColumn, areaMin)
  }

  /** The ports left by the load filter followed by the area filter. */
  function PortList(rows: seq<Row>, loadMin: real, areaMin: real): seq<Row>
  {
    KeepAtLeast(KeepAtLeast(rows, LoadColumn, loadMin), AreaColumn, areaMin)
  }

  /** No port of the table meets both minimums. */
  predicate NoneQualifies(rows: seq<Row>, loadMin: real, areaMin: real)
  {
    forall i :: 0 <= i < |rows| ==> !Qualifies(rows[i], loadMin, areaMin)
  }

  /** `row` is the first port of the table that meets both minimums. */
  predicate FirstQualifying(rows: seq<Row>, row: Row, loadMin: real, areaMin: real)
  {
    exists i :: 0 <= i < |rows| && rows[i] == row && Qualifies(rows[i], loadMin, areaMin)
      && forall j :: 0 <= j < i ==> !Qualifies(rows[j], loadMin, areaMin)
  }

  /** The ports left are, in their order in the table, exactly the ports
      that meet both minimums. */
  lemma PortListSpec(rows: seq<Row>, loadMin: real, areaMin: real)
    ensures Subseq(PortList(rows, loadMin, areaMin), rows)
    ensures forall x :: x in PortList(rows, loadMin, areaMin) <==> x in rows && Qualifies(x, loadMin, areaMin)
  {
    var byLoad := KeepAtLeast(rows, LoadColumn, loadMin);
    KeepAtLeastSpec(rows, LoadColumn, loadMin);
    KeepAtLeastSpec(byLoad, AreaColumn, areaMin);
    SubseqTrans(PortList(rows, loadMin, areaMin), byLoad, rows);
  }

  /** The port chosen, the first one left, is the first port of the table
      that meets both minimums; no port is left exactly when none meets them. */
  lemma {:induction false} PortListFirst(rows: seq<Row>, loadMin: real, areaMin: real)
    ensures PortList(rows, loadMin, areaMin) == [] <==> NoneQualifies(rows, loadMin, areaMin)
    ensures PortList(rows, loadMin, areaMin) != [] ==> FirstQualifying(rows, PortList(rows, loadMin, areaMin)[0], loadMin, areaMin)
  {
    if rows != [] {
      var x := rows[0];
      var byLoad := KeepAtLeast(rows[1..], LoadColumn, loadMin);
      PortListFirst(rows[1..], loadMin, areaMin);
      if AtLeast(x, LoadColumn, loadMin) {
        assert KeepAtLeast(rows, LoadColumn, loadMin) == [x] + byLoad;
        assert ([x] + byLoad)[1..] == byLoad;
      } else {
        assert KeepAtLeast(rows, LoadColumn, loadMin) == byLoad;
      }
      if Qualifies(x, loadMin, areaMin) {
        assert PortList(rows, loadMin, areaMin)[0] == x;
      } else {
        assert PortList(rows, loadMin, areaMin) == PortList(rows[1..], loadMin, areaMin);
        if PortList(rows, loadMin, areaMin) != [] {
          var i :| 0 <= i < |rows[1..]| && rows[1..][i] == PortList(rows[1..], loadMin, areaMin)[0]
            && Qualifies(rows[1..][i], loadMin, areaMin)
            && forall j :: 0 <= j < i ==> !Qualifies(rows[1..][j], loadMin, areaMin);
          assert forall j :: 0 <= j < i + 1 ==> !Qualifies(rows[j], loadMin, areaMin) by {
            forall j | 0 <= j < i + 1 ensures !Qualifies(rows[j], loadMin, areaMin) {
              if j > 0 { assert rows[j] == rows[1..][j - 1]; }
            }
          }
        }
        assert (forall i :: 0 <= i < |rows| ==> !Qualifies(rows[i], loadMin, areaMin))
          <==> (forall i :: 0 <= i < |rows[1..]| ==> !Qualifies(rows[1..][i], loadMin, areaMin)) by {
          if forall i :: 0 <= i < |rows[1..]| ==> !Qualifies(rows[1..][i], loadMin, areaMin) {
            forall i | 0 <= i < |rows| ensures !Qualifies(rows[i], loadMin, areaMin) {
              if i > 0 { assert rows[i] == rows[1..][i - 1]; }
            }
          }
        }
      }
    }
  }

  // ---------------------------------------------------------------------
  // install_port

  /** The device columns `install_port` reads. */
  datatype Device = Device(technology: string, length: real, width: real, drymass: real)

  /** Foundation `x` of the foundation table: the columns "diameter
      foundation x [m]", "length foundation x [m]", "weight foundation x [kg]". */
  datatype Foundation = Foundation(diameter: real, length: real, weight: real)

  const SeabedFixed: string := "seabed fixed"

  /** How many foundations the loop measures: `quantity` of them for a
      seabed-fixed device (none when `range` is empty), none otherwise. */
  function FoundationCount(device: Device, quantity: int): nat
  {
    if device.technology == SeabedFixed && quantity > 0 then quantity else 0
  }

  /** The foundation table has the columns the loop reads, and no weight is 0. */
  predicate FoundationsGiven(device: Device, quantity: int, fs: seq<Foundation>)
  {
    FoundationCount(device, quantity) <= |fs|
    && forall x :: 0 <= x < FoundationCount(device, quantity) ==> fs[x].weight != 0.0
  }

  /** The loading figure of the device: length times width over dry mass. */
  function DeviceLoad(device: Device): real
    requires device.drymass != 0.0
  {
    device.length * device.width / device.drymass
  }

  /** The loading figure of a foundation: diameter times length over weight. */
  function Load(f: Foundation): real
    requires f.weight != 0.0
  {
    f.diameter * f.length / f.weight
  }

  /** The projected area of a foundation: diameter times length. */
  function Area(f: Foundation): real
  {
    f.diameter * f.length
  }

  /** The foundations the loop measures. */
  function Measured(device: Device, quantity: int, fs: seq<Foundation>): seq<Foundation>
    requires FoundationsGiven(device, quantity, fs)
  {
    fs[..FoundationCount(device, quantity)]
  }

  function Loads(fs: seq<Foundation>): seq<real>
    requires forall x :: 0 <= x < |fs| ==> fs[x].weight != 0.0
  {
    seq(|fs|, x requires 0 <= x < |fs| && fs[x].weight != 0.0 => Load(fs[x]))
  }

  function Areas(fs: seq<Foundation>): seq<real>
  {
    seq(|fs|, x requires 0 <= x < |fs| => Area(fs[x]))
  }

  /** `max(a, b)`. */
  function Max(a: real, b: real): (m: real)
    ensures m >= a && m >= b && (m == a || m == b)
  {
    if b > a then b else a
  }

  /** `max(xs)` of a non-empty list: one of its elements, and no element is larger. */
  function MaxOf(xs: seq<real>): (m: real)
    requires xs != []
    ensures m in xs && forall i :: 0 <= i < |xs| ==> xs[i] <= m
  {
    if |xs| == 1 then xs[0] else Max(xs[0], MaxOf(xs[1..]))
  }

  /** `sum(xs)`. */
  function Sum(xs: seq<real>): real
  {
    if xs == [] then 0.0 else Sum(xs[..|xs| - 1]) + xs[|xs| - 1]
  }

  /** The load bearing the project needs: the larger of the device's figure
      (length times width over dry mass) and the largest foundation load. */
  function LoadMinimum(device: Device, quantity: int, fs: seq<Foundation>): real
    requires device.drymass != 0.0 && FoundationsGiven(device, quantity, fs)
    requires FoundationCount(device, quantity) > 0
  {
    Max(DeviceLoad(device), MaxOf(Loads(Measured(device, quantity, fs))))
  }

  /** The terminal area the project needs: the larger of the device's
      footprint and the summed foundation areas. */
  function AreaMinimum(device: Device, quantity: int, fs: seq<Foundation>): real
    requires FoundationsGiven(device, quantity, fs)
  {
    Max(device.length * device.width, Sum(Areas(Measured(device, quantity, fs))))
  }

  /** The load minimum is at least the device figure and every foundation
      load. */
  lemma LoadMinimumBounds(device: Device, quantity: int, fs: seq<Foundation>)
    requires device.drymass != 0.0 && FoundationsGiven(device, quantity, fs)
    requires FoundationCount(device, quantity) > 0
    ensures LoadMinimum(device, quantity, fs) >= DeviceLoad(device)
    ensures forall x :: 0 <= x < FoundationCount(device, quantity) ==> LoadMinimum(device, quantity, fs) >= Load(fs[x])
  {
    var loads := Loads(Measured(device, quantity, fs));
    forall x | 0 <= x < FoundationCount(device, quantity) ensures MaxOf(loads) >= Load(fs[x]) {
      assert loads[x] == Load(fs[x]);
    }
  }

  /** The load minimum is the device figure or the load of one foundation. */
  lemma LoadMinimumAttained(device: Device, quantity: int, fs: seq<Foundation>)
    requires device.drymass != 0.0 && FoundationsGiven(device, quantity, fs)
    requires FoundationCount(device, quantity) > 0
    ensures LoadMinimum(device, quantity, fs) == DeviceLoad(device)
      || exists x :: 0 <= x < FoundationCount(device, quantity) && LoadMinimum(device, quantity, fs) == Load(fs[x])
  {
    var loads := Loads(Measured(device, quantity, fs));
    var m := MaxOf(loads);
    if LoadMinimum(device, quantity, fs) == m {
      var x :| 0 <= x < |loads| && loads[x] == m;
      assert Load(fs[x]) == m;
    }
  }

  /** The loop over the foundations: for a seabed-fixed device, the load and
      the area of each of the `quantity` foundations, in order; for any other
      device, nothing. */
  method FoundationFootprints(device: Device, quantity: int, fs: seq<Foundation>)
    returns (load: seq<real>, area: seq<real>)
    requires FoundationsGiven(device, quantity, fs)
    ensures |load| == FoundationCount(device, quantity) && |area| == |load|
    ensures forall x :: 0 <= x < |load| ==> load[x] == Load(fs[x]) && area[x] == Area(fs[x])
  {
    load := [];
    area := [];
    if device.technology == SeabedFixed {
      var n := if quantity > 0 then quantity else 0;
      for x := 0 to n
        invariant |load| == x && |area| == x
        invariant forall y :: 0 <= y < x ==> load[y] == Load(fs[y]) && area[y] == Area(fs[y])
      {
        var f := fs[x];
        load := load + [f.diameter * f.length / f.weight];
        area := area + [f.diameter * f.length];
      }
    }
  }

  lemma FootprintsMeasured(device: Device, quantity: int, fs: seq<Foundation>, load: seq<real>, area: seq<real>)
    requires FoundationsGiven(device, quantity, fs)
    requires |load| == FoundationCount(device, quantity) && |area| == |load|
    requires forall x :: 0 <= x < |load| ==> load[x] == Load(fs[x]) && area[x] == Area(fs[x])
    ensures load == Loads(Measured(device, quantity, fs)) && area == Areas(Measured(device, quantity, fs))
  {
  }

  /** The two minimums of `install_port`, or the failure of `max()` on an
      empty list of foundation loads. */
  method Minimums(device: Device, quantity: int, fs: seq<Foundation>) returns (r: Result<(real, real), PortError>)
    requires device.drymass != 0.0 && FoundationsGiven(device, quantity, fs)
    ensures r.Failure? <==> FoundationCount(device, quantity) == 0
    ensures r.Failure? ==> r.error == NoFoundationLoads
    ensures r.Success? ==> r.value == (LoadMinimum(device, quantity, fs), AreaMinimum(device, quantity, fs))
  {
    var load, area := FoundationFootprints(device, quantity, fs);
    if load == [] {
      return Failure(NoFoundationLoads);
    }
    FootprintsMeasured(device, quantity, fs, load, area);
    var loadMin := Max(DeviceLoad(device), MaxOf(load));
    var areaMin := Max(device.length * device.width, Sum(area));
    assert loadMin == LoadMinimum(device, quantity, fs);
    assert areaMin == AreaMinimum(device, quantity, fs);
    r := Success((loadMin, areaMin));
  }

  /** The ports `install_port` keeps as written: the load filter reads the
      report's unspaced load key, which still holds its initial 0. */
  function AsWrittenPortList(device: Device, quantity: int, fs: seq<Foundation>, portData: seq<Row>): seq<Row>
    requires FoundationsGiven(device, quantity, fs)
  {
    PortList(portData, InitReport()[LoadColumn].x, AreaMinimum(device, quantity, fs))
  }

  /** `install_port` as written. The load minimum is stored under the
      spaced key, so the load filter compares with 0: the ports kept are
      those with a non-negative load bearing and enough area. */
  method InstallPort(device: Device, quantity: int, fs: seq<Foundation>, portData: seq<Row>)
    returns (r: Result<Report, PortError>)
    requires device.drymass != 0.0 && FoundationsGiven(device, quantity, fs)
    ensures FoundationCount(device, quantity) == 0 <==> r == Failure(NoFoundationLoads)
    ensures r == Failure(NoFeasiblePort) <==>
      (FoundationCount(device, quantity) > 0 && NoneQualifies(portData, 0.0, AreaMinimum(device, quantity, fs)))
    ensures r.Success? ==> FoundationCount(device, quantity) > 0
    ensures r.Success? ==> r.value.Keys == {LoadColumn, LoadKeySpaced, AreaColumn, ListKey, DistanceKey, SelectedKey}
    ensures r.Success? ==> r.value[LoadKeySpaced] == Num(LoadMinimum(device, quantity, fs))
    ensures r.Success? ==> r.value[LoadColumn] == Num(0.0)
    ensures r.Success? ==> r.value[AreaColumn] == Num(AreaMinimum(device, quantity, fs))
    ensures r.Success? ==> r.value[ListKey] == Table(AsWrittenPortList(device, quantity, fs, portData))
    ensures r.Success? ==> r.value[DistanceKey] == Num(0.0)
    ensures r.Success? ==>
      r.value[SelectedKey].Port? && FirstQualifying(portData, r.value[SelectedKey].row, 0.0, AreaMinimum(device, quantity, fs))
  {
    var port := InitReport();
    var mins := Minimums(device, quantity, fs);
    if mins.Failure? {
      return Failure(mins.error);
    }
    var (loadMin, areaMin) := mins.value;
    port := port[LoadKeySpaced := Num(loadMin)];
    var portList := KeepAtLeast(portData, LoadColumn, port[LoadColumn].x);
    port := port[AreaColumn := Num(areaMin)];
    portList := KeepAtLeast(portList, AreaColumn, port[AreaColumn].x);
    port := port[ListKey := Table(portList)];
    PortListFirst(portData, 0.0, areaMin);
    if portList == [] {
      return Failure(NoFeasiblePort);
    }
    port := port[SelectedKey := Port(portList[0])];
    r := Success(port);
  }

  /** A seabed-fixed device 10 m by 10 m of 50 kg dry mass (load figure 2)
      on one foundation 1 m by 1 m of 1 kg (load 1, area 1). */
  const ExampleDevice: Device := Device(SeabedFixed, 10.0, 10.0, 50.0)
  const ExampleFoundations: seq<Foundation> := [Foundation(1.0, 1.0, 1.0)]
  /** A port with load bearing 1 and area 200. */
  const ExamplePort: Row := map[LoadColumn := 1.0, AreaColumn := 200.0]

  /** The minimums of a seabed-fixed device on a single foundation. */
  lemma SingleFoundation(device: Device, f: Foundation)
    requires device.technology == SeabedFixed && device.drymass != 0.0 && f.weight != 0.0
    ensures FoundationsGiven(device, 1, [f])
    ensures LoadMinimum(device, 1, [f]) == Max(DeviceLoad(device), Load(f))
    ensures AreaMinimum(device, 1, [f]) == Max(device.length * device.width, Area(f))
  {
    var m := Measured(device, 1, [f]);
    assert m == [f];
    var loads := Loads(m);
    assert loads == [Load(f)];
    var areas := Areas(m);
    assert areas == [Area(f)];
    assert Sum(areas) == Area(f) by {
      assert areas[..0] == [];
    }
  }

  lemma ExampleFigures()
    ensures DeviceLoad(ExampleDevice) == 2.0 && ExampleDevice.length * ExampleDevice.width == 100.0
    ensures Load(ExampleFoundations[0]) == 1.0 && Area(ExampleFoundations[0]) == 1.0
  {
  }

  lemma ExamplePortKept()
    ensures PortList([ExamplePort], 0.0, 100.0) == [ExamplePort]
    ensures !Qualifies(ExamplePort, 2.0, 100.0)
  {
    var ports: seq<Row> := [ExamplePort];
    assert ports[1..] == [];
    assert LoadColumn != AreaColumn by {
      assert LoadColumn[9] != AreaColumn[9];
    }
    assert ExamplePort[LoadColumn] == 1.0;
  }

  /** As written, a port whose load bearing is below the load minimum can be
      chosen: the example device needs 2 ton/m2 and 100 m2, and the port with
      load bearing 1 and area 200 is kept. */
  lemma InstallLoadIgnored()
    ensures FoundationsGiven(ExampleDevice, 1, ExampleFoundations)
    ensures LoadMinimum(ExampleDevice, 1, ExampleFoundations) == 2.0
    ensures AsWrittenPortList(ExampleDevice, 1, ExampleFoundations, [ExamplePort]) == [ExamplePort]
    ensures !Qualifies(ExamplePort, LoadMinimum(ExampleDevice, 1, ExampleFoundations), AreaMinimum(ExampleDevice, 1, ExampleFoundations))
  {
    ExampleMinimums();
    ExamplePortKept();
    assert InitReport()[LoadColumn] == Num(0.0);
  }

  /** The example device on its foundation needs a load bearing of 2 and an
      area of 100. */
  lemma ExampleMinimums()
    ensures FoundationsGiven(ExampleDevice, 1, ExampleFoundations)
    ensures LoadMinimum(ExampleDevice, 1, ExampleFoundations) == 2.0
    ensures AreaMinimum(ExampleDevice, 1, ExampleFoundations) == 100.0
  {
    SingleFoundation(ExampleDevice, ExampleFoundations[0]);
    assert [ExampleFoundations[0]] == ExampleFoundations;
    ExampleFigures();
  }

  /** The ports `install_port` evidently means to keep: those reaching the
      load minimum and the area minimum. */
  function IntendedPortList(device: Device, quantity: int, fs: seq<Foundation>, portData: seq<Row>): seq<Row>
    requires device.drymass != 0.0 && FoundationsGiven(device, quantity, fs)
    requires FoundationCount(device, quantity) > 0
  {
    PortList(portData, LoadMinimum(device, quantity, fs), AreaMinimum(device, quantity, fs))
  }

  /** `install_port` with the load minimum stored under the key the filter
      reads: the port chosen is the first one of the table that reaches both
      minimums. */
  method InstallPortIntended(device: Device, quantity: int, fs: seq<Foundation>, portData: seq<Row>)
    returns (r: Result<Report, PortError>)
    requires device.drymass != 0.0 && FoundationsGiven(device, quantity, fs)
    ensures FoundationCount(device, quantity) == 0 <==> r == Failure(NoFoundationLoads)
    ensures r == Failure(NoFeasiblePort) <==>
      (FoundationCount(device, quantity) > 0 && NoneQualifies(portData, LoadMinimum(device, quantity, fs), AreaMinimum(device, quantity, fs)))
    ensures r.Success? ==> FoundationCount(device, quantity) > 0
    ensures r.Success? ==> r.value.Keys == {LoadColumn, AreaColumn, ListKey, DistanceKey, SelectedKey}
    ensures r.Success? ==> r.value[LoadColumn] == Num(LoadMinimum(device, quantity, fs))
    ensures r.Success? ==> r.value[AreaColumn] == Num(AreaMinimum(device, quantity, fs))
    ensures r.Success? ==> r.value[ListKey] == Table(IntendedPortList(device, quantity, fs, portData))
    ensures r.Success? ==> r.value[DistanceKey] == Num(0.0)
    ensures r.Success? ==>
      r.value[SelectedKey].Port? && FirstQualifying(portData, r.value[SelectedKey].row, LoadMinimum(device, quantity, fs), AreaMinimum(device, quantity, fs))
  {
    var port := InitReport();
    var mins := Minimums(device, quantity, fs);
    if mins.Failure? {
      return Failure(mins.error);
    }
    var (loadMin, areaMin) := mins.value;
    port := port[LoadColumn := Num(loadMin)];
    var portList := KeepAtLeast(portData, LoadColumn, port[LoadColumn].x);
    port := port[AreaColumn := Num(areaMin)];
    portList := KeepAtLeast(portList, AreaColumn, port[AreaColumn].x);
    port := port[ListKey := Table(portList)];
    PortListFirst(portData, loadMin, areaMin);
    if portList == [] {
      return Failure(NoFeasiblePort);
    }
    port := port[SelectedKey := Port(portList[0])];
    r := Success(port);
  }

  // ---------------------------------------------------------------------
  // OM_port

  /** The spare-part columns `OM_port` reads; height and individual mass are
      read but take no part in the choice. */
  datatype SpareParts = SpareParts(length: real, width: real, height: real, totalMass: real, indivMass: real)

  /** `OM_port`: the ports with enough terminal area for the spare parts
      (length times width) and enough load bearing for their total mass over
      that area, area filter first; the chosen port is the first one left.
      The report's load and area keys keep their initial 0. */
  method OmPort(sp: SpareParts, portData: seq<Row>) returns (r: Result<Report, PortError>)
    ensures sp.length * sp.width == 0.0 <==> r == Failure(ZeroArea)
    ensures r == Failure(NoFeasiblePort) <==>
      (sp.length * sp.width != 0.0 && NoneQualifies(portData, sp.totalMass / (sp.length * sp.width), sp.length * sp.width))
    ensures r.Success? ==> sp.length * sp.width != 0.0
    ensures r.Success? ==> r.value.Keys == {LoadColumn, AreaColumn, ListKey, DistanceKey, SelectedKey}
    ensures r.Success? ==> r.value[LoadColumn] == Num(0.0) && r.value[AreaColumn] == Num(0.0)
    ensures r.Success? ==> r.value[DistanceKey] == Num(0.0)
    ensures r.Success? ==>
      r.value[ListKey] == Table(PortList(portData, sp.totalMass / (sp.length * sp.width), sp.length * sp.width))
    ensures r.Success? ==>
      r.value[SelectedKey].Port? && FirstQualifying(portData, r.value[SelectedKey].row, sp.totalMass / (sp.length * sp.width), sp.length * sp.width)
  {
    var port := InitReport();
    var spArea := sp.length * sp.width;
    if spArea == 0.0 {
      return Failure(ZeroArea);
    }
    var spLoading := sp.totalMass / spArea;
    var portList := KeepAtLeast(portData, AreaColumn, spArea);
    portList := KeepAtLeast(portList, LoadColumn, spLoading);
    KeepAtLeastCommute(portData, AreaColumn, spArea, LoadColumn, spLoading);
    port := port[ListKey := Table(portList)];
    PortListFirst(portData, spLoading, spArea);
    if portList == [] {
      return Failure(NoFeasiblePort);
    }
    port := port[SelectedKey := Port(portList[0])];
    r := Success(port);
  }
}
