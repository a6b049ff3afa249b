/**
 * Device enumeration of `VerisurePlatform.accessories` (src/index.ts), with
 * the legacy build's variant (index.js): per installation the overview is
 * turned into an alarm, climate sensors, smart plugs and door locks, each
 * named through the shared name registry; the per-installation lists are
 * concatenated in installation order and handed to the callback.
 */
module Platform {
  import opened Common
  import opened Vendor
  import opened Utils
  import opened Api
  import opened Accessories

  /** The configuration fields the enumeration reads. */
  datatype PluginConfig = PluginConfig(doorcode: Option<string>, ignoreAlarms: Option<seq<string>>, alarmcode: Option<string>)

  /** Which build's enumeration: src/index.ts, or the plain-JavaScript index.js. */
  datatype Build = TypeScriptBuild | LegacyBuild

  /** `config.alarmcode` is truthy. */
  predicate AlarmCodeSet(config: PluginConfig)
  {
    config.alarmcode.Some? && config.alarmcode.value != ""
  }

  /**
   * Whether an alarm is built for the installation. The TypeScript build
   * builds it when the installation IS listed in `ignore_alarms`, the legacy
   * build when it is NOT. With a code set and no list, reading the list
   * throws: None.
   */
  function AlarmWanted(config: PluginConfig, giid: string, build: Build): (r: Option<bool>)
    ensures r == None <==> AlarmCodeSet(config) && config.ignoreAlarms.None?
    ensures r == Some(true) <==>
      AlarmCodeSet(config) && config.ignoreAlarms.Some? && (giid in config.ignoreAlarms.value <==> build == TypeScriptBuild)
  {
    if !AlarmCodeSet(config) then Some(false)
    else match config.ignoreAlarms
      case None => None
      case Some(ignored) => Some(if build == TypeScriptBuild then giid in ignored else giid !in ignored)
  }

  /** With a code and a list configured, exactly one of the two builds creates the alarm. */
  lemma BuildsDisagreeOnAlarm(config: PluginConfig, giid: string)
    requires AlarmCodeSet(config) && config.ignoreAlarms.Some?
    ensures AlarmWanted(config, giid, TypeScriptBuild).Some? && AlarmWanted(config, giid, LegacyBuild).Some?
    ensures AlarmWanted(config, giid, TypeScriptBuild).value != AlarmWanted(config, giid, LegacyBuild).value
  {
  }

  /** The state each accessory starts with, as its constructor sets it. */
  datatype Device =
    | AlarmDevice(name: string, serialNumber: string, alarmCode: string, state: SecurityState)
    | ClimateDevice(name: string, serialNumber: string, temperature: Temperature)
    | PlugDevice(name: string, serialNumber: string, on: Bit)
    | LockDevice(name: string, serialNumber: string, doorCode: Option<string>, locked: LockState)

  function DeviceNames(ds: seq<Device>): (r: seq<string>)
    ensures |r| == |ds|
  {
    seq(|ds|, i requires 0 <= i < |ds| => ds[i].name)
  }

  lemma DeviceNamesAppend(a: seq<Device>, b: seq<Device>)
    ensures DeviceNames(a + b) == DeviceNames(a) + DeviceNames(b)
  {
  }

  // ===== names =====

  function AlarmBaseName(i: Installation): string
  {
    DeviceTypeTitle(Some(TypeAlarm)) + " (" + i.street + ")"
  }

  /**
   * The title of a climate device: `deviceTypeTitle(DeviceType[t])` in the
   * TypeScript build, `DEVICE_TYPES[t] || t` in the legacy one.
   */
  function ClimateTitle(deviceType: string, build: Build): (r: string)
    ensures DeviceTypeFromKey(deviceType).Some? ==> r == DeviceTypeTitle(DeviceTypeFromKey(deviceType))
    ensures DeviceTypeFromKey(deviceType).None? ==> r == (if build == TypeScriptBuild then UnknownTitle else deviceType)
  {
    match build
    case TypeScriptBuild => DeviceTypeTitle(DeviceTypeFromKey(deviceType))
    case LegacyBuild =>
      match DeviceTypeFromKey(deviceType)
      case Some(t) => DeviceTypeTitle(Some(t))
      case None => deviceType
  }

  /** The builds title a known type alike; an unknown type is "Okänd enhet: undefined" in one and its raw key in the other. */
  lemma ClimateTitleBuilds(deviceType: string)
    ensures DeviceTypeFromKey(deviceType).Some? ==> ClimateTitle(deviceType, TypeScriptBuild) == ClimateTitle(deviceType, LegacyBuild)
    ensures DeviceTypeFromKey(deviceType).None? ==>
      ClimateTitle(deviceType, TypeScriptBuild) == UnknownTitle && ClimateTitle(deviceType, LegacyBuild) == deviceType
  {
  }

  function ClimateBaseNames(cs: seq<ClimateValue>, build: Build): (r: seq<string>)
    ensures |r| == |cs|
  {
    seq(|cs|, i requires 0 <= i < |cs| => ClimateTitle(cs[i].deviceType, build) + " (" + cs[i].deviceArea + ")")
  }

  function PlugBaseNames(ps: seq<PlugStatus>): (r: seq<string>)
    ensures |r| == |ps|
  {
    seq(|ps|, i requires 0 <= i < |ps| => DeviceTypeTitle(Some(TypeSmartPlug)) + " (" + ps[i].area + ")")
  }

  function LockBaseNames(ls: seq<DoorLockStatus>): (r: seq<string>)
    ensures |r| == |ls|
  {
    seq(|ls|, i requires 0 <= i < |ls| => ls[i].area)
  }

  /**
   * The names `getUniqueName` hands out for `bases`, one after another,
   * starting from a registry that holds `names`.
   */
  function HandOut(names: seq<string>, bases: seq<string>): (r: seq<string>)
    ensures |r| == |bases|
    decreases |bases|
  {
    if bases == [] then []
    else
      var h := HandOut(names, bases[..|bases| - 1]);
      h + [UniqueName(names + h, bases[|bases| - 1])]
  }

  /**
   * Each handed-out name is new to the registry as it stood when it was asked
   * for, and a base name still free at that point is handed out unchanged.
   */
  lemma {:induction false} HandOutFresh(names: seq<string>, bases: seq<string>)
    ensures var r := HandOut(names, bases);
      forall i :: 0 <= i < |r| ==> r[i] !in names + r[..i] && (bases[i] !in names + r[..i] ==> r[i] == bases[i])
    decreases |bases|
  {
    if bases != [] {
      var k := |bases| - 1;
      HandOutFresh(names, bases[..k]);
      var h := HandOut(names, bases[..k]);
      var r := HandOut(names, bases);
      assert r == h + [UniqueName(names + h, bases[k])];
      forall i | 0 <= i < |r| ensures r[i] !in names + r[..i] && (bases[i] !in names + r[..i] ==> r[i] == bases[i]) {
        if i < k {
          assert r[i] == h[i] && r[..i] == h[..i] && bases[i] == bases[..k][i];
        } else {
          assert r[..i] == h;
        }
      }
    }
  }

  /** Handing out names keeps a duplicate-free registry duplicate-free. */
  lemma {:induction false} HandOutKeepsDistinct(names: seq<string>, bases: seq<string>)
    requires NoDuplicates(names)
    ensures NoDuplicates(names + HandOut(names, bases))
    decreases |bases|
  {
    if bases != [] {
      var h := HandOut(names, bases[..|bases| - 1]);
      HandOutKeepsDistinct(names, bases[..|bases| - 1]);
      RegistryStaysDuplicateFree(names + h, bases[|bases| - 1]);
      assert names + HandOut(names, bases) == (names + h) + [UniqueName(names + h, bases[|bases| - 1])];
    }
  }

  /** Handing out one more base name appends its unique name. */
  lemma HandOutSnoc(names: seq<string>, bs: seq<string>, x: string)
    ensures HandOut(names, bs + [x]) == HandOut(names, bs) + [UniqueName(names + HandOut(names, bs), x)]
  {
    assert (bs + [x])[..|bs + [x]| - 1] == bs;
  }

  lemma JoinAssoc<T>(a: seq<T>, b: seq<T>, c: seq<T>)
    ensures a + (b + c) == (a + b) + c
  {
  }

  /** The step of `HandOutAppend`: one more base name at the end of `b`. */
  lemma HandOutAppendStep(names: seq<string>, a: seq<string>, b: seq<string>, x: string)
    requires HandOut(names, a + b) == HandOut(names, a) + HandOut(names + HandOut(names, a), b)
    ensures HandOut(names, a + (b + [x])) == HandOut(names, a) + HandOut(names + HandOut(names, a), b + [x])
  {
    var ha := HandOut(names, a);
    var hb := HandOut(names + ha, b);
    assert a + (b + [x]) == (a + b) + [x];
    HandOutSnoc(names, a + b, x);
    HandOutSnoc(names + ha, b, x);
    JoinAssoc(names, ha, hb);
    var u := UniqueName((names + ha) + hb, x);
    JoinAssoc(ha, hb, [u]);
  }

  /** Handing out `a + b` hands out `a`, then `b` from the registry that `a` left. */
  lemma {:induction false} HandOutAppend(names: seq<string>, a: seq<string>, b: seq<string>)
    ensures HandOut(names, a + b) == HandOut(names, a) + HandOut(names + HandOut(names, a), b)
    decreases |b|
  {
    if b == [] {
      assert a + b == a;
    } else {
      var k := |b| - 1;
      assert b == b[..k] + [b[k]];
      HandOutAppend(names, a, b[..k]);
      HandOutAppendStep(names, a, b[..k], b[k]);
    }
  }

  /** Registers every base name in turn. */
  method HandOutAll(registry: NameRegistry, bases: seq<string>) returns (handed: seq<string>)
    modifies registry
    ensures handed == HandOut(old(registry.names), bases)
    ensures registry.names == old(registry.names) + handed
  {
    handed := [];
    var i := 0;
    while i < |bases|
      invariant 0 <= i <= |bases|
      invariant handed == HandOut(old(registry.names), bases[..i])
      invariant registry.names == old(registry.names) + handed
    {
      assert bases[..i + 1][..i] == bases[..i];
      var n := registry.GetUniqueName(bases[i]);
      handed := handed + [n];
      i := i + 1;
    }
    assert bases[..|bases|] == bases;
  }

  // ===== one installation =====

  /** A sensor built from a climate value: the legacy build starts every sensor at 0. */
  predicate ClimateFrom(d: Device, v: ClimateValue, build: Build)
  {
    d.ClimateDevice? && d.serialNumber == v.deviceLabel && d.temperature == (if build == TypeScriptBuild then v.temperature else 0.0)
  }

  predicate PlugFrom(d: Device, s: PlugStatus)
  {
    d.PlugDevice? && d.serialNumber == s.deviceLabel && d.on == PlugValue(s.currentState)
  }

  predicate LockFrom(d: Device, s: DoorLockStatus, doorCode: Option<string>)
  {
    d.LockDevice? && d.serialNumber == s.deviceLabel && d.doorCode == doorCode && d.locked == (if s.lockedState == Locked then Secured else Unsecured)
  }

  function ClimateDevices(cs: seq<ClimateValue>, names: seq<string>, build: Build): (r: seq<Device>)
    requires |names| == |cs|
    ensures |r| == |cs| && DeviceNames(r) == names
    ensures forall i :: 0 <= i < |cs| ==> ClimateFrom(r[i], cs[i], build)
  {
    seq(|cs|, i requires 0 <= i < |cs| =>
      ClimateDevice(names[i], cs[i].deviceLabel, if build == TypeScriptBuild then cs[i].temperature else 0.0))
  }

  function PlugDevices(ps: seq<PlugStatus>, names: seq<string>): (r: seq<Device>)
    requires |names| == |ps|
    ensures |r| == |ps| && DeviceNames(r) == names
    ensures forall i :: 0 <= i < |ps| ==> PlugFrom(r[i], ps[i])
  {
    seq(|ps|, i requires 0 <= i < |ps| => PlugDevice(names[i], ps[i].deviceLabel, PlugValue(ps[i].currentState)))
  }

  function LockDevices(ls: seq<DoorLockStatus>, names: seq<string>, doorCode: Option<string>): (r: seq<Device>)
    requires |names| == |ls|
    ensures |r| == |ls| && DeviceNames(r) == names
    ensures forall i :: 0 <= i < |ls| ==> LockFrom(r[i], ls[i], doorCode)
  {
    seq(|ls|, i requires 0 <= i < |ls| =>
      LockDevice(names[i], ls[i].deviceLabel, doorCode, if ls[i].lockedState == Locked then Secured else Unsecured))
  }

  /** Devices of one kind, named in order, and the registry after naming them. */
  datatype Listing = Listing(devices: seq<Device>, names: seq<string>)

  function ClimatePart(names: seq<string>, cs: seq<ClimateValue>, build: Build): (r: Listing)
    ensures r.names == names + DeviceNames(r.devices) && |r.devices| == |cs|
    ensures DeviceNames(r.devices) == HandOut(names, ClimateBaseNames(cs, build))
    ensures forall i :: 0 <= i < |cs| ==> ClimateFrom(r.devices[i], cs[i], build)
  {
    var handed := HandOut(names, ClimateBaseNames(cs, build));
    Listing(ClimateDevices(cs, handed, build), names + handed)
  }

  function PlugPart(names: seq<string>, ps: seq<PlugStatus>): (r: Listing)
    ensures r.names == names + DeviceNames(r.devices) && |r.devices| == |ps|
    ensures DeviceNames(r.devices) == HandOut(names, PlugBaseNames(ps))
    ensures forall i :: 0 <= i < |ps| ==> PlugFrom(r.devices[i], ps[i])
  {
    var handed := HandOut(names, PlugBaseNames(ps));
    Listing(PlugDevices(ps, handed), names + handed)
  }

  /** The overview's door locks; a missing list counts as none. */
  function LockList(o: Overview): (r: seq<DoorLockStatus>)
    ensures o.doorLockStatusList.Some? ==> r == o.doorLockStatusList.value
    ensures o.doorLockStatusList.None? ==> r == []
  {
    match o.doorLockStatusList case None => [] case Some(ls) => ls
  }

  /** Door locks only when the overview has a door-lock list. */
  function LockPart(names: seq<string>, o: Overview, doorCode: Option<string>): (r: Listing)
    ensures r.names == names + DeviceNames(r.devices) && |r.devices| == |LockList(o)|
    ensures DeviceNames(r.devices) == HandOut(names, LockBaseNames(LockList(o)))
    ensures forall i :: 0 <= i < |LockList(o)| ==> LockFrom(r.devices[i], LockList(o)[i], doorCode)
  {
    match o.doorLockStatusList
    case None => Listing([], names)
    case Some(ls) =>
      var handed := HandOut(names, LockBaseNames(ls));
      Listing(LockDevices(ls, handed, doorCode), names + handed)
  }

  /** The names the constructors ask for, in the order the overview is walked. */
  function OverviewBaseNames(o: Overview, build: Build): (r: seq<string>)
    ensures |r| == |o.climateValues| + |o.smartPlugs| + |LockList(o)|
  {
    ClimateBaseNames(o.climateValues, build) + PlugBaseNames(o.smartPlugs) + LockBaseNames(LockList(o))
  }

  /** Everything after the alarm: climate sensors, then plugs, then locks. */
  function OverviewPart(names: seq<string>, config: PluginConfig, o: Overview, build: Build): (r: Listing)
    ensures r.names == names + DeviceNames(r.devices)
    ensures DeviceNames(r.devices) == HandOut(names, OverviewBaseNames(o, build))
  {
    var c := ClimatePart(names, o.climateValues, build);
    var p := PlugPart(c.names, o.smartPlugs);
    var l := LockPart(p.names, o, config.doorcode);
    NamesChain(names, c, p, l);
    BaseNamesChain(names, c, p, l, ClimateBaseNames(o.climateValues, build), PlugBaseNames(o.smartPlugs), LockBaseNames(LockList(o)));
    Listing(c.devices + p.devices + l.devices, l.names)
  }

  /** Handing out three base lists one after the other is handing out the three joined. */
  lemma HandOutThree(names: seq<string>, cb: seq<string>, pb: seq<string>, lb: seq<string>, dc: seq<string>, dp: seq<string>, dl: seq<string>)
    requires dc == HandOut(names, cb)
    requires dp == HandOut(names + dc, pb)
    requires dl == HandOut(names + dc + dp, lb)
    ensures dc + dp + dl == HandOut(names, cb + pb + lb)
  {
    HandOutAppend(names, cb, pb);
    assert HandOut(names, cb + pb) == dc + dp;
    HandOutAppend(names, cb + pb, lb);
    assert names + (dc + dp) == names + dc + dp;
  }

  /** The names of three listings named one after the other are those handed out for the three base lists joined. */
  lemma BaseNamesChain(names: seq<string>, c: Listing, p: Listing, l: Listing, cb: seq<string>, pb: seq<string>, lb: seq<string>)
    requires c.names == names + DeviceNames(c.devices) && DeviceNames(c.devices) == HandOut(names, cb)
    requires p.names == c.names + DeviceNames(p.devices) && DeviceNames(p.devices) == HandOut(c.names, pb)
    requires DeviceNames(l.devices) == HandOut(p.names, lb)
    ensures DeviceNames(c.devices + p.devices + l.devices) == HandOut(names, cb + pb + lb)
  {
    var dc, dp, dl := DeviceNames(c.devices), DeviceNames(p.devices), DeviceNames(l.devices);
    HandOutThree(names, cb, pb, lb, dc, dp, dl);
    DeviceNamesAppend(c.devices, p.devices);
    DeviceNamesAppend(c.devices + p.devices, l.devices);
  }

  /** Three listings named one after the other name their joined devices. */
  lemma NamesChain(names: seq<string>, c: Listing, p: Listing, l: Listing)
    requires c.names == names + DeviceNames(c.devices)
    requires p.names == c.names + DeviceNames(p.devices)
    requires l.names == p.names + DeviceNames(l.devices)
    ensures l.names == names + DeviceNames(c.devices + p.devices + l.devices)
  {
    DeviceNamesAppend(c.devices, p.devices);
    DeviceNamesAppend(c.devices + p.devices, l.devices);
  }

  lemma OverviewPartKeepsDistinct(names: seq<string>, config: PluginConfig, o: Overview, build: Build)
    requires NoDuplicates(names)
    ensures NoDuplicates(OverviewPart(names, config, o, build).names)
  {
    var c := ClimatePart(names, o.climateValues, build);
    HandOutKeepsDistinct(names, ClimateBaseNames(o.climateValues, build));
    var p := PlugPart(c.names, o.smartPlugs);
    HandOutKeepsDistinct(c.names, PlugBaseNames(o.smartPlugs));
    if o.doorLockStatusList.Some? {
      HandOutKeepsDistinct(p.names, LockBaseNames(o.doorLockStatusList.value));
    }
  }

  /** What one installation's pass yields (None: it throws, so nothing is resolved) and the registry after it. */
  datatype Pass = Pass(devices: Option<seq<Device>>, names: seq<string>)

  /** The overview callback of one installation, starting from a registry that holds `names`. */
  function InstallationPass(names: seq<string>, config: PluginConfig, inst: Installation, o: Overview, build: Build): (r: Pass)
    ensures r.devices.Some? ==> |r.devices.value| == AlarmCount(config, inst, build) + |OverviewBaseNames(o, build)|
  {
    match AlarmWanted(config, inst.giid, build)
    case None => Pass(None, names)
    case Some(false) =>
      var l := OverviewPart(names, config, o, build);
      Pass(Some(l.devices), l.names)
    case Some(true) =>
      // the alarm's name is registered before its arm state is mapped
      var alarmName := UniqueName(names, AlarmBaseName(inst));
      match HapArmState(o.armState.statusType)
      case Err(_) => Pass(None, names + [alarmName])
      case Ok(state) =>
        var l := OverviewPart(names + [alarmName], config, o, build);
        Pass(Some([AlarmDevice(alarmName, inst.giid, config.alarmcode.value, state)] + l.devices), l.names)
  }

  /** A pass fails exactly when reading the ignore list throws or a wanted alarm has an unknown arm state. */
  lemma PassFails(names: seq<string>, config: PluginConfig, inst: Installation, o: Overview, build: Build)
    ensures InstallationPass(names, config, inst, o, build).devices.None? <==>
      AlarmWanted(config, inst.giid, build) == None ||
      (AlarmWanted(config, inst.giid, build) == Some(true) && !KnownArmState(o.armState.statusType))
  {
  }

  /** The number of alarms an installation's list starts with. */
  function AlarmCount(config: PluginConfig, inst: Installation, build: Build): nat
  {
    if AlarmWanted(config, inst.giid, build) == Some(true) then 1 else 0
  }

  /**
   * The layout of the list after the alarm: one sensor per climate value, one
   * plug per smart plug, one lock per listed door lock, in that order and each
   * in input order, named by handing out the overview's base names from a
   * registry that holds `names`.
   */
  predicate Laid(ds: seq<Device>, names: seq<string>, config: PluginConfig, o: Overview, build: Build)
  {
    var c := |o.climateValues|;
    var p := |o.smartPlugs|;
    && |ds| == c + p + |LockList(o)|
    && DeviceNames(ds) == HandOut(names, OverviewBaseNames(o, build))
    && (forall i :: 0 <= i < c ==> ClimateFrom(ds[i], o.climateValues[i], build))
    && (forall i :: 0 <= i < p ==> PlugFrom(ds[c + i], o.smartPlugs[i]))
    && (forall i :: 0 <= i < |LockList(o)| ==> LockFrom(ds[c + p + i], LockList(o)[i], config.doorcode))
  }

  lemma OverviewPartLayout(names: seq<string>, config: PluginConfig, o: Overview, build: Build)
    ensures Laid(OverviewPart(names, config, o, build).devices, names, config, o, build)
  {
    var cp := ClimatePart(names, o.climateValues, build);
    var pp := PlugPart(cp.names, o.smartPlugs);
    var lp := LockPart(pp.names, o, config.doorcode);
    assert OverviewPart(names, config, o, build).devices == cp.devices + pp.devices + lp.devices;
    JoinLaid(cp.devices, pp.devices, lp.devices, names, config, o, build);
  }

  /** Devices built per kind, joined, keep each kind's devices at its offset. */
  lemma JoinPlaced(a: seq<Device>, b: seq<Device>, d: seq<Device>, config: PluginConfig, o: Overview, build: Build)
    requires |a| == |o.climateValues| && forall i :: 0 <= i < |a| ==> ClimateFrom(a[i], o.climateValues[i], build)
    requires |b| == |o.smartPlugs| && forall i :: 0 <= i < |b| ==> PlugFrom(b[i], o.smartPlugs[i])
    requires |d| == |LockList(o)| && forall i :: 0 <= i < |d| ==> LockFrom(d[i], LockList(o)[i], config.doorcode)
    ensures var ds := a + b + d;
      && (forall i :: 0 <= i < |a| ==> ClimateFrom(ds[i], o.climateValues[i], build))
      && (forall i :: 0 <= i < |b| ==> PlugFrom(ds[|a| + i], o.smartPlugs[i]))
      && (forall i :: 0 <= i < |d| ==> LockFrom(ds[|a| + |b| + i], LockList(o)[i], config.doorcode))
  {
    var ds := a + b + d;
    forall i | 0 <= i < |a| ensures ClimateFrom(ds[i], o.climateValues[i], build) {
      assert ds[i] == a[i];
    }
    forall i | 0 <= i < |b| ensures PlugFrom(ds[|a| + i], o.smartPlugs[i]) {
      assert ds[|a| + i] == b[i];
    }
    forall i | 0 <= i < |d| ensures LockFrom(ds[|a| + |b| + i], LockList(o)[i], config.doorcode) {
      assert ds[|a| + |b| + i] == d[i];
    }
  }

  /** Part listings with the per-kind facts join into a laid-out list. */
  lemma JoinLaid(a: seq<Device>, b: seq<Device>, d: seq<Device>, names: seq<string>, config: PluginConfig, o: Overview, build: Build)
    requires |a| == |o.climateValues| && forall i :: 0 <= i < |a| ==> ClimateFrom(a[i], o.climateValues[i], build)
    requires |b| == |o.smartPlugs| && forall i :: 0 <= i < |b| ==> PlugFrom(b[i], o.smartPlugs[i])
    requires |d| == |LockList(o)| && forall i :: 0 <= i < |d| ==> LockFrom(d[i], LockList(o)[i], config.doorcode)
    requires DeviceNames(a + b + d) == HandOut(names, OverviewBaseNames(o, build))
    ensures Laid(a + b + d, names, config, o, build)
  {
    JoinPlaced(a, b, d, config, o, build);
  }

  /**
   * The layout of an installation's list: the alarm first if wanted, named
   * before everything else, then the overview's devices laid out as above.
   */
  lemma PassLayout(names: seq<string>, config: PluginConfig, inst: Installation, o: Overview, build: Build)
    requires InstallationPass(names, config, inst, o, build).devices.Some?
    ensures var ds := InstallationPass(names, config, inst, o, build).devices.value;
      var a := AlarmCount(config, inst, build);
      && |ds| >= a
      && (a == 1 ==>
            && ds[0].AlarmDevice? && ds[0].name == UniqueName(names, AlarmBaseName(inst))
            && ds[0].serialNumber == inst.giid && Ok(ds[0].state) == HapArmState(o.armState.statusType)
            && ds[0].alarmCode == config.alarmcode.value)
      && Laid(ds[a..], if a == 1 then names + [ds[0].name] else names, config, o, build)
  {
    var wanted := AlarmWanted(config, inst.giid, build);
    if wanted == Some(true) {
      var alarmName := UniqueName(names, AlarmBaseName(inst));
      var state := HapArmState(o.armState.statusType);
      var l := OverviewPart(names + [alarmName], config, o, build);
      var ds := [AlarmDevice(alarmName, inst.giid, config.alarmcode.value, state.value)] + l.devices;
      assert InstallationPass(names, config, inst, o, build).devices == Some(ds);
      assert ds[1..] == l.devices;
      OverviewPartLayout(names + [alarmName], config, o, build);
    } else {
      var l := OverviewPart(names, config, o, build);
      assert InstallationPass(names, config, inst, o, build).devices == Some(l.devices);
      assert l.devices[0..] == l.devices;
      OverviewPartLayout(names, config, o, build);
    }
  }

  /** A pass only appends to the registry, and the names it appends are exactly its devices' names. */
  lemma PassNames(names: seq<string>, config: PluginConfig, inst: Installation, o: Overview, build: Build)
    ensures var p := InstallationPass(names, config, inst, o, build);
      && names <= p.names
      && (NoDuplicates(names) ==> NoDuplicates(p.names))
      && (p.devices.Some? ==> p.names == names + DeviceNames(p.devices.value))
  {
    var wanted := AlarmWanted(config, inst.giid, build);
    if wanted == Some(false) {
      PassNamesWithoutAlarm(names, config, inst, o, build);
    } else if wanted == Some(true) {
      PassNamesWithAlarm(names, config, inst, o, build);
    }
  }

  lemma PassNamesWithoutAlarm(names: seq<string>, config: PluginConfig, inst: Installation, o: Overview, build: Build)
    requires AlarmWanted(config, inst.giid, build) == Some(false)
    ensures var p := InstallationPass(names, config, inst, o, build);
      && p.devices.Some?
      && (NoDuplicates(names) ==> NoDuplicates(p.names))
      && p.names == names + DeviceNames(p.devices.value)
  {
    if NoDuplicates(names) { OverviewPartKeepsDistinct(names, config, o, build); }
  }

  lemma PassNamesWithAlarm(names: seq<string>, config: PluginConfig, inst: Installation, o: Overview, build: Build)
    requires AlarmWanted(config, inst.giid, build) == Some(true)
    ensures var p := InstallationPass(names, config, inst, o, build);
      && names <= p.names
      && (NoDuplicates(names) ==> NoDuplicates(p.names))
      && (p.devices.Some? ==> p.names == names + DeviceNames(p.devices.value))
  {
    var alarmName := UniqueName(names, AlarmBaseName(inst));
    var n1 := names + [alarmName];
    if NoDuplicates(names) {
      RegistryStaysDuplicateFree(names, AlarmBaseName(inst));
      OverviewPartKeepsDistinct(n1, config, o, build);
    }
    var state := HapArmState(o.armState.statusType);
    if state.Err? {
      assert InstallationPass(names, config, inst, o, build) == Pass(None, n1);
    } else {
      var alarm := [AlarmDevice(alarmName, inst.giid, config.alarmcode.value, state.value)];
      var l := OverviewPart(n1, config, o, build);
      assert InstallationPass(names, config, inst, o, build) == Pass(Some(alarm + l.devices), l.names);
      AlarmThenRest(names, alarm, l);
    }
  }

  /** A registered alarm name followed by a listing names the alarm and the listing's devices. */
  lemma AlarmThenRest(names: seq<string>, alarm: seq<Device>, l: Listing)
    requires |alarm| == 1 && l.names == names + [alarm[0].name] + DeviceNames(l.devices)
    ensures names <= l.names && l.names == names + DeviceNames(alarm + l.devices)
  {
    DeviceNamesAppend(alarm, l.devices);
  }

  /** Builds the sensors, plugs and locks of an overview, registering names as the constructors do. */
  method BuildOverviewPart(registry: NameRegistry, config: PluginConfig, o: Overview, build: Build) returns (devices: seq<Device>)
    modifies registry
    ensures var l := OverviewPart(old(registry.names), config, o, build);
      devices == l.devices && registry.names == l.names
  {
    var climateNames := HandOutAll(registry, ClimateBaseNames(o.climateValues, build));
    var plugNames := HandOutAll(registry, PlugBaseNames(o.smartPlugs));
    devices := ClimateDevices(o.climateValues, climateNames, build) + PlugDevices(o.smartPlugs, plugNames);
    if o.doorLockStatusList.Some? {
      var lockNames := HandOutAll(registry, LockBaseNames(o.doorLockStatusList.value));
      devices := devices + LockDevices(o.doorLockStatusList.value, lockNames, config.doorcode);
    }
  }

  /** Builds one installation's list, registering names as the constructors do. */
  method BuildInstallation(registry: NameRegistry, config: PluginConfig, inst: Installation, o: Overview, build: Build)
    returns (devices: Option<seq<Device>>)
    modifies registry
    ensures var p := InstallationPass(old(registry.names), config, inst, o, build);
      devices == p.devices && registry.names == p.names
  {
    ghost var names0 := registry.names;
    var wanted := AlarmWanted(config, inst.giid, build);
    if wanted.None? {
      return None;
    }
    if !wanted.value {
      var rest := BuildOverviewPart(registry, config, o, build);
      assert InstallationPass(names0, config, inst, o, build) == Pass(Some(OverviewPart(names0, config, o, build).devices), OverviewPart(names0, config, o, build).names);
      return Some(rest);
    }
    var alarmName := registry.GetUniqueName(AlarmBaseName(inst));
    var state := HapArmState(o.armState.statusType);
    if state.Err? {
      return None;
    }
    var rest := BuildOverviewPart(registry, config, o, build);
    devices := Some([AlarmDevice(alarmName, inst.giid, config.alarmcode.value, state.value)] + rest);
  }

  /** One installation's step: its overview callback, or nothing when the reply is missing or rejected. */
  method BuildStep(registry: NameRegistry, config: PluginConfig, insts: seq<Installation>, overviews: seq<Result<Overview, Error>>, build: Build, k: nat)
    returns (devices: Option<seq<Device>>)
    requires k < |insts|
    modifies registry
    ensures var p := StepPass(old(registry.names), config, insts, overviews, build, k);
      devices == p.devices && registry.names == p.names
  {
    devices := None;
    if k < |overviews| && overviews[k].Ok? {
      devices := BuildInstallation(registry, config, insts[k], overviews[k].value, build);
    }
  }

  /** One more installation extends the enumeration by its step. */
  lemma EnumerateStep(names: seq<string>, config: PluginConfig, insts: seq<Installation>, overviews: seq<Result<Overview, Error>>, build: Build, k: nat)
    requires k < |insts|
    ensures var prev := Enumerate(names, config, insts[..k], overviews, build);
      var p := StepPass(prev.names, config, insts, overviews, build, k);
      Enumerate(names, config, insts[..k + 1], overviews, build) == Enumeration(prev.results + [p.devices], p.names)
  {
    assert insts[..k + 1][..k] == insts[..k];
    var prev := Enumerate(names, config, insts[..k], overviews, build);
    assert StepPass(prev.names, config, insts[..k + 1], overviews, build, k) == StepPass(prev.names, config, insts, overviews, build, k);
  }

  // ===== all installations =====

  /** Each installation's outcome, in installation order, and the registry after all of them. */
  datatype Enumeration = Enumeration(results: seq<Option<seq<Device>>>, names: seq<string>)

  /**
   * The overview callbacks of `insts`, in order. The overview reply of
   * installation k is `overviews[k]`; a rejected or missing reply leaves that
   * installation unresolved and registers nothing.
   */
  function Enumerate(names: seq<string>, config: PluginConfig, insts: seq<Installation>, overviews: seq<Result<Overview, Error>>, build: Build)
    : (r: Enumeration)
    ensures |r.results| == |insts|
    decreases |insts|
  {
    if insts == [] then Enumeration([], names)
    else
      var k := |insts| - 1;
      var prev := Enumerate(names, config, insts[..k], overviews, build);
      var p := StepPass(prev.names, config, insts, overviews, build, k);
      Enumeration(prev.results + [p.devices], p.names)
  }

  /** `Promise.all`: the lists when every installation resolved. */
  function AllResolved(results: seq<Option<seq<Device>>>): (r: Option<seq<seq<Device>>>)
    ensures r.Some? <==> forall i :: 0 <= i < |results| ==> results[i].Some?
    ensures r.Some? ==> |r.value| == |results| && forall i :: 0 <= i < |results| ==> r.value[i] == results[i].value
    decreases |results|
  {
    if results == [] then Some([])
    else
      var k := |results| - 1;
      match AllResolved(results[..k])
      case None => None
      case Some(prefix) =>
        match results[k]
        case None => None
        case Some(last) => Some(prefix + [last])
  }

  /** The lists joined in order, as the `concat` loop joins them. */
  function Concat(parts: seq<seq<Device>>): (r: seq<Device>)
    ensures forall i :: 0 <= i < |parts| ==> |parts[i]| <= |r|
    decreases |parts|
  {
    if parts == [] then []
    else
      var k := |parts| - 1;
      var prefix := Concat(parts[..k]);
      assert forall i :: 0 <= i < k ==> parts[..k][i] == parts[i];
      prefix + parts[k]
  }

  /** Nothing is lost or invented by the join: a device is in it exactly when it is in one of the lists. */
  lemma {:induction false} ConcatMembers(parts: seq<seq<Device>>, d: Device)
    ensures d in Concat(parts) <==> exists i :: 0 <= i < |parts| && d in parts[i]
    decreases |parts|
  {
    if parts != [] {
      var k := |parts| - 1;
      ConcatMembers(parts[..k], d);
      if d in Concat(parts[..k]) {
        var i :| 0 <= i < k && d in parts[..k][i];
        assert d in parts[i];
      }
      if exists i :: 0 <= i < |parts| && d in parts[i] {
        var i :| 0 <= i < |parts| && d in parts[i];
        if i < k { assert d in parts[..k][i]; }
      }
    }
  }

  /** The loop `devices = devices.concat(result)` over the resolved lists. */
  method Flatten(parts: seq<seq<Device>>) returns (devices: seq<Device>)
    ensures devices == Concat(parts)
  {
    devices := [];
    var i := 0;
    while i < |parts|
      invariant 0 <= i <= |parts|
      invariant devices == Concat(parts[..i])
    {
      assert parts[..i + 1][..i] == parts[..i];
      devices := devices + parts[i];
      i := i + 1;
    }
    assert parts[..|parts|] == parts;
  }

  /** What the platform's callback receives: None when it is never called. */
  function CallbackOf(results: seq<Option<seq<Device>>>): (r: Option<seq<Device>>)
    ensures r.Some? <==> forall i :: 0 <= i < |results| ==> results[i].Some?
  {
    match AllResolved(results)
    case None => None
    case Some(parts) => Some(Concat(parts))
  }

  /**
   * `accessories(callback)`: authenticate, list the installations, run every
   * installation's overview callback, and call back with the joined list when
   * all of them resolved.
   */
  method ListAccessories(
    registry: NameRegistry, session: Session, config: PluginConfig,
    auth: Result<string, Error>, installations: Result<seq<Installation>, Error>,
    overviews: seq<Result<Overview, Error>>, build: Build)
    returns (callback: Option<seq<Device>>)
    modifies registry, session
    ensures auth.Ok? ==> session.token == Some(auth.value)
    ensures auth.Err? ==> session.token == old(session.token)
    ensures auth.Err? || installations.Err? ==> callback == None && registry.names == old(registry.names)
    ensures auth.Ok? && installations.Ok? ==>
      var e := Enumerate(old(registry.names), config, installations.value, overviews, build);
      registry.names == e.names && callback == CallbackOf(e.results)
  {
    var listed := session.GetInstallations(auth, installations);
    if listed.Err? {
      return None;
    }
    var insts := listed.value;
    var results: seq<Option<seq<Device>>> := [];
    var i := 0;
    while i < |insts|
      invariant 0 <= i <= |insts|
      invariant session.token == Some(auth.value)
      invariant results == Enumerate(old(registry.names), config, insts[..i], overviews, build).results
      invariant registry.names == Enumerate(old(registry.names), config, insts[..i], overviews, build).names
    {
      EnumerateStep(old(registry.names), config, insts, overviews, build, i);
      var devices := BuildStep(registry, config, insts, overviews, build, i);
      results := results + [devices];
      i := i + 1;
    }
    assert insts[..|insts|] == insts;
    var resolved := AllResolved(results);
    if resolved.None? {
      return None;
    }
    var all := Flatten(resolved.value);
    callback := Some(all);
  }

  /** One installation's step of the enumeration: its pass, or nothing when its overview reply is missing or rejected. */
  function StepPass(names: seq<string>, config: PluginConfig, insts: seq<Installation>, overviews: seq<Result<Overview, Error>>, build: Build, k: nat): Pass
    requires k < |insts|
  {
    if k < |overviews| && overviews[k].Ok? then InstallationPass(names, config, insts[k], overviews[k].value, build)
    else Pass(None, names)
  }

  lemma StepNames(names: seq<string>, config: PluginConfig, insts: seq<Installation>, overviews: seq<Result<Overview, Error>>, build: Build, k: nat)
    requires k < |insts|
    ensures var p := StepPass(names, config, insts, overviews, build, k);
      && names <= p.names
      && (NoDuplicates(names) ==> NoDuplicates(p.names))
      && (p.devices.Some? ==> p.names == names + DeviceNames(p.devices.value))
  {
    if k < |overviews| && overviews[k].Ok? {
      PassNames(names, config, insts[k], overviews[k].value, build);
    }
  }

  /** The enumeration only appends to the registry and keeps it duplicate-free. */
  lemma {:induction false} EnumerationKeepsNames(names: seq<string>, config: PluginConfig, insts: seq<Installation>, overviews: seq<Result<Overview, Error>>, build: Build)
    ensures var e := Enumerate(names, config, insts, overviews, build);
      && names <= e.names
      && (NoDuplicates(names) ==> NoDuplicates(e.names))
    decreases |insts|
  {
    if insts != [] {
      var k := |insts| - 1;
      EnumerationKeepsNames(names, config, insts[..k], overviews, build);
      var prev := Enumerate(names, config, insts[..k], overviews, build);
      StepNames(prev.names, config, insts, overviews, build, k);
    }
  }

  /** One more resolved list extends the callback's list by it; one more unresolved one withholds the callback. */
  lemma CallbackOfAppend(results: seq<Option<seq<Device>>>, last: Option<seq<Device>>)
    ensures CallbackOf(results + [last]).Some? <==> CallbackOf(results).Some? && last.Some?
    ensures CallbackOf(results + [last]).Some? ==> CallbackOf(results + [last]).value == CallbackOf(results).value + last.value
  {
    assert (results + [last])[..|results|] == results;
  }

  /** When the callback is called, the names the enumeration appended are exactly the devices' names, in order. */
  lemma {:induction false} CallbackNames(names: seq<string>, config: PluginConfig, insts: seq<Installation>, overviews: seq<Result<Overview, Error>>, build: Build)
    requires CallbackOf(Enumerate(names, config, insts, overviews, build).results).Some?
    ensures var e := Enumerate(names, config, insts, overviews, build);
      e.names == names + DeviceNames(CallbackOf(e.results).value)
    decreases |insts|
  {
    if insts != [] {
      var k := |insts| - 1;
      var prev := Enumerate(names, config, insts[..k], overviews, build);
      var p := StepPass(prev.names, config, insts, overviews, build, k);
      assert Enumerate(names, config, insts, overviews, build) == Enumeration(prev.results + [p.devices], p.names);
      CallbackOfAppend(prev.results, p.devices);
      CallbackNames(names, config, insts[..k], overviews, build);
      StepNames(prev.names, config, insts, overviews, build, k);
      ExtendNames(names, prev, p);
    }
  }

  /** The step of `CallbackNames`: a pass that names its devices extends the named prefix. */
  lemma ExtendNames(names: seq<string>, prev: Enumeration, p: Pass)
    requires CallbackOf(prev.results).Some? && p.devices.Some?
    requires prev.names == names + DeviceNames(CallbackOf(prev.results).value)
    requires p.names == prev.names + DeviceNames(p.devices.value)
    ensures p.names == names + DeviceNames(CallbackOf(prev.results).value + p.devices.value)
  {
    DeviceNamesAppend(CallbackOf(prev.results).value, p.devices.value);
  }

  /** The devices handed to the callback have pairwise distinct names, none registered before. */
  lemma CallbackNamesDistinct(names: seq<string>, config: PluginConfig, insts: seq<Installation>, overviews: seq<Result<Overview, Error>>, build: Build)
    requires NoDuplicates(names)
    requires CallbackOf(Enumerate(names, config, insts, overviews, build).results).Some?
    ensures var ds := CallbackOf(Enumerate(names, config, insts, overviews, build).results).value;
      && (forall i, j :: 0 <= i < j < |ds| ==> ds[i].name != ds[j].name)
      && (forall i :: 0 <= i < |ds| ==> ds[i].name !in names)
  {
    var e := Enumerate(names, config, insts, overviews, build);
    var ds := CallbackOf(e.results).value;
    EnumerationKeepsNames(names, config, insts, overviews, build);
    CallbackNames(names, config, insts, overviews, build);
    var all := names + DeviceNames(ds);
    forall i, j | 0 <= i < j < |ds| ensures ds[i].name != ds[j].name {
      assert all[|names| + i] == ds[i].name && all[|names| + j] == ds[j].name;
    }
    forall i | 0 <= i < |ds| ensures ds[i].name !in names {
      assert all[|names| + i] == ds[i].name;
      forall j | 0 <= j < |names| ensures names[j] != ds[i].name {
        assert all[j] == names[j];
      }
    }
  }
}
