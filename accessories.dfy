/**
 * The accessories of src/accessories.ts: the state mappings between vendor
 * replies and accessory characteristics, the reconciliation of a refused
 * command, and the four accessory classes whose `value` field the get and
 * set handlers update. Every vendor reply and every poll outcome is an input.
 */
module Accessories {
  import opened Common
  import opened Vendor
  import opened Utils
  import opened Api
  import opened Poller

  // ===== searching a reply by device serial =====

  /** The first element whose label is `serial`: what a `for` loop with an early `return` finds. */
  function FindFirst<T>(xs: seq<T>, serial: string, serialOf: T -> string): (r: Option<nat>)
    ensures r.Some? ==> r.value < |xs| && serialOf(xs[r.value]) == serial
    ensures r.Some? ==> forall j :: 0 <= j < r.value ==> serialOf(xs[j]) != serial
    ensures r.None? ==> forall j :: 0 <= j < |xs| ==> serialOf(xs[j]) != serial
    decreases |xs|
  {
    if xs == [] then None
    else if serialOf(xs[0]) == serial then Some(0)
    else match FindFirst(xs[1..], serial, serialOf)
      case None => None
      case Some(k) => Some(k + 1)
  }

  // ===== state mappings =====

  /** A switch value as the source stores it: 1 for on, 0 for off. */
  type Bit = b: int | 0 <= b <= 1

  /** `currentState == "ON" ? 1 : 0`. */
  function PlugValue(state: string): (r: Bit)
    ensures r == 1 <==> state == PlugOn
  {
    if state == PlugOn then 1 else 0
  }

  /** The current lock state of a search-reply record: a jammed motor wins over the reported state. */
  function CurrentLockState(rec: DoorLockRecord): (r: LockState)
    ensures r == Jammed <==> rec.motorJam
    ensures !rec.motorJam ==> (r == Unsecured <==> rec.currentLockState == Unlocked)
  {
    if rec.motorJam then Jammed
    else if rec.currentLockState == Unlocked then Unsecured
    else Secured
  }

  /** The target lock state: the pending state when there is one, otherwise the current one. */
  function TargetLockState(rec: DoorLockRecord): (r: LockTarget)
    ensures rec.pendingLockState != PendingNone ==> (r == Unsecured <==> rec.pendingLockState == Unlocked)
    ensures rec.pendingLockState == PendingNone ==> (r == Unsecured <==> rec.currentLockState == Unlocked)
  {
    var state := if rec.pendingLockState == PendingNone then rec.currentLockState else rec.pendingLockState;
    if state == Unlocked then Unsecured else Secured
  }

  /** With no change pending and the motor free, the lock's target is its current state. */
  lemma SettledLockAgrees(rec: DoorLockRecord)
    requires !rec.motorJam && rec.pendingLockState == PendingNone
    ensures TargetLockState(rec) == CurrentLockState(rec)
  {
  }

  /** A pending change decides the target whatever the lock currently reports. */
  lemma PendingChangeDecidesTarget(rec: DoorLockRecord, current: string, jam: bool)
    requires rec.pendingLockState != PendingNone
    ensures TargetLockState(rec) == TargetLockState(rec.(currentLockState := current, motorJam := jam))
  {
  }

  /** The vendor arm state sent for a requested security-system target; None for a target it has no state for. */
  function AlarmTargetState(v: SecurityState): (r: Option<string>)
    ensures r.Some? <==> v in {AwayArm, StayArm, NightArm, Disarmed}
    ensures r.Some? ==> KnownArmState(r.value)
  {
    match v
    case AwayArm => Some(ArmedAway)
    case StayArm => Some(ArmedHome)
    case NightArm => Some(ArmedHome)
    case Disarmed => Some(DisarmedState)
    case Other(_) => None
  }

  /**
   * Reading back the state a target was sent as gives the target again,
   * except that night arming reads back as stay arming.
   */
  lemma AlarmTargetReadBack(v: SecurityState)
    requires AlarmTargetState(v).Some?
    ensures HapArmState(AlarmTargetState(v).value) == Ok(if v == NightArm then StayArm else v)
  {
  }

  /** Every arm state the getter knows is sent back unchanged when set as a target. */
  lemma ArmStateRoundTrip(statusType: string)
    requires KnownArmState(statusType)
    ensures AlarmTargetState(HapArmState(statusType).value) == Some(statusType)
  {
  }

  // ===== device types =====

  /** The `DeviceType` enumeration. */
  datatype DeviceType =
    | TypeAlarm | TypeDoorlock | TypeHumidity1 | TypeSiren1
    | TypeSmartCamera1 | TypeSmartPlug | TypeSmoke2 | TypeVoicebox1

  /** The enumeration's key, which is also its value. */
  function Key(t: DeviceType): (r: string)
    ensures r != []
  {
    match t
    case TypeAlarm => "ALARM"
    case TypeDoorlock => "DOORLOCK"
    case TypeHumidity1 => "HUMIDITY1"
    case TypeSiren1 => "SIREN1"
    case TypeSmartCamera1 => "SMARTCAMERA1"
    case TypeSmartPlug => "SMARTPLUG"
    case TypeSmoke2 => "SMOKE2"
    case TypeVoicebox1 => "VOICEBOX1"
  }

  /** `DeviceType[key]`: the member with that key, or undefined. */
  function DeviceTypeFromKey(key: string): (r: Option<DeviceType>)
    ensures r.Some? ==> Key(r.value) == key
    ensures r.None? ==> forall t: DeviceType :: Key(t) != key
  {
    if key == "ALARM" then Some(TypeAlarm)
    else if key == "DOORLOCK" then Some(TypeDoorlock)
    else if key == "HUMIDITY1" then Some(TypeHumidity1)
    else if key == "SIREN1" then Some(TypeSiren1)
    else if key == "SMARTCAMERA1" then Some(TypeSmartCamera1)
    else if key == "SMARTPLUG" then Some(TypeSmartPlug)
    else if key == "SMOKE2" then Some(TypeSmoke2)
    else if key == "VOICEBOX1" then Some(TypeVoicebox1)
    else None
  }

  lemma DeviceTypeKeyRoundTrip(t: DeviceType)
    ensures DeviceTypeFromKey(Key(t)) == Some(t)
  {
  }

  const UnknownTitle: string := "Okänd enhet: undefined"

  /** `deviceTypeTitle(t)`: the Swedish display title, or "Okänd enhet: undefined" for an undefined type. */
  function DeviceTypeTitle(t: Option<DeviceType>): (r: string)
    ensures r == UnknownTitle <==> t.None?
  {
    match t
    case None => UnknownTitle
    case Some(TypeAlarm) => "Larm"
    case Some(TypeDoorlock) => "Yale Doorman"
    case Some(TypeHumidity1) => "Klimatdetektor"
    case Some(TypeSiren1) => "Siren"
    case Some(TypeSmartCamera1) => "Smart Camera"
    case Some(TypeSmartPlug) => "Smart plug"
    case Some(TypeSmoke2) => "Rökdetektor"
    case Some(TypeVoicebox1) => "Directenhet"
  }

  /** Distinct types, and an undefined one, all get distinct titles. */
  lemma DeviceTypeTitleInjective(a: Option<DeviceType>, b: Option<DeviceType>)
    requires a != b
    ensures DeviceTypeTitle(a) != DeviceTypeTitle(b)
  {
  }

  // ===== request URIs and options =====

  /** A possibly undefined string in a template literal. */
  function TemplateText(v: Option<string>): string
  {
    match v case Some(s) => s case None => "undefined"
  }

  /** A possibly undefined string as a JSON field. */
  function JsOptional(v: Option<string>): JsValue
  {
    match v case Some(s) => JsString(s) case None => JsUndefined
  }

  function InstallationUri(giid: string): string
  {
    "/installation/" + giid
  }

  function SearchUri(giid: string): string
  {
    InstallationUri(giid) + "/doorlockstate/search"
  }

  function LockAction(target: LockTarget): string
  {
    if target == Secured then "lock" else "unlock"
  }

  function LockResultUri(giid: string, id: Option<string>): string
  {
    InstallationUri(giid) + "/doorlockstate/change/result/" + TemplateText(id)
  }

  function ArmResultUri(giid: string, id: Option<string>): string
  {
    InstallationUri(giid) + "/code/result/" + TemplateText(id)
  }

  /** The result URI names the transaction: different transaction ids give different URIs. */
  lemma ResultUriNamesTransaction(giid: string, a: string, b: string)
    requires a != b
    ensures LockResultUri(giid, Some(a)) != LockResultUri(giid, Some(b))
    ensures ArmResultUri(giid, Some(a)) != ArmResultUri(giid, Some(b))
  {
    var p := InstallationUri(giid) + "/doorlockstate/change/result/";
    assert LockResultUri(giid, Some(a))[|p|..] == a;
    assert LockResultUri(giid, Some(b))[|p|..] == b;
    var q := InstallationUri(giid) + "/code/result/";
    assert ArmResultUri(giid, Some(a))[|q|..] == a;
    assert ArmResultUri(giid, Some(b))[|q|..] == b;
  }

  function LockRequest(giid: string, serial: string, target: LockTarget, doorCode: Option<string>): map<string, JsValue>
  {
    map[
      "method" := JsString("PUT"),
      "uri" := JsString(InstallationUri(giid) + "/device/" + serial + "/" + LockAction(target)),
      "json" := JsObject(map["code" := JsOptional(doorCode)])]
  }

  function ArmRequest(giid: string, alarmCode: string, state: string): map<string, JsValue>
  {
    map[
      "method" := JsString("PUT"),
      "uri" := JsString(InstallationUri(giid) + "/armstate/code"),
      "json" := JsObject(map["code" := JsString(alarmCode), "state" := JsString(state)])]
  }

  function PlugRequest(giid: string, serial: string, v: Bit): map<string, JsValue>
  {
    map[
      "method" := JsString("POST"),
      "uri" := JsString(InstallationUri(giid) + "/smartplug/state"),
      "json" := JsArray([JsObject(map["deviceLabel" := JsString(serial), "state" := JsBool(v == 1)])])]
  }

  // ===== reconciling a command reply =====

  /** The vendor code meaning "already in the requested state". */
  const RecoveryCode: string := "VAL_00819"

  /** What the two handlers after a lock or arm command decide. */
  datatype Reconciled = PollForResult | AlreadyInTarget | CommandRefused(error: Error)

  /**
   * The fulfilment handler polls; the rejection handler recovers from a 400
   * with the recovery code and otherwise fails with the vendor's message.
   * A rejection without a response object fails on reading its status code.
   */
  function Reconcile<B>(result: ApiResult<B>, recoveryCode: string): (r: Reconciled)
    ensures r == PollForResult <==> result.Resolved?
    ensures r == AlreadyInTarget <==>
      result.Rejected? && result.response == Some(HttpResponse(400)) && result.error.errorCode == recoveryCode
    ensures r == CommandRefused(NoResponse) <==> result.RejectedMissingUri? || (result.Rejected? && result.response.None?)
    ensures result.Rejected? && result.response.Some? && r.CommandRefused? ==> r.error == Vendor(result.error.errorMessage)
  {
    match result
    case Resolved(_, _) => PollForResult
    case RejectedMissingUri => CommandRefused(NoResponse)
    case Rejected(response, error, _) =>
      match response
      case None => CommandRefused(NoResponse)
      case Some(resp) =>
        if resp.statusCode == 400 && error.errorCode == recoveryCode then AlreadyInTarget
        else CommandRefused(Vendor(error.errorMessage))
  }

  /** The reply of the vendor client to a command recovers instead of failing. */
  predicate Recovers<B>(reply: ClientReply<B>)
  {
    reply.error.Some? && reply.response == Some(HttpResponse(400)) && reply.error.value.errorCode == RecoveryCode
  }

  /** How a set handler ends: the callback got null, got an error, has not been called yet, or never will be. */
  datatype SetOutcome = Applied | SetFailed(error: Error) | AwaitingResult | Dropped

  // ===== accessories =====

  class SmartPlug {
    const installation: Installation
    const name: string
    const serialNumber: string
    var value: Bit

    constructor(installation: Installation, name: string, serialNumber: string, value: Bit)
      ensures this.installation == installation && this.name == name && this.serialNumber == serialNumber && this.value == value
    {
      this.installation, this.name, this.serialNumber, this.value := installation, name, serialNumber, value;
    }

    /** `_getSwitchValue`: the plug with this serial in the overview decides the value. */
    method GetSwitchValue(overview: Result<Overview, Error>) returns (r: Result<Bit, Error>)
      modifies this
      ensures overview.Err? ==> r == Err(overview.error) && value == old(value)
      ensures overview.Ok? ==>
        var plugs := overview.value.smartPlugs;
        var k := FindFirst(plugs, serialNumber, (p: PlugStatus) => p.deviceLabel);
        && (k.None? ==> r == Err(AccessoryNotFound) && value == old(value))
        && (k.Some? ==> value == PlugValue(plugs[k.value].currentState) && r == Ok(value))
    {
      match overview
      case Err(e) =>
        r := Err(e);
      case Ok(o) =>
        var k := FindFirst(o.smartPlugs, serialNumber, (p: PlugStatus) => p.deviceLabel);
        if k.None? {
          r := Err(AccessoryNotFound);
        } else {
          value := PlugValue(o.smartPlugs[k.value].currentState);
          r := Ok(value);
        }
    }

    /** `_setSwitchValue`: stores the requested value first and keeps it whatever the vendor replies. */
    method SetSwitchValue(session: Session, v: Bit, reply: ClientReply<()>) returns (request: map<string, JsValue>, r: Result<(), Error>)
      modifies this
      ensures value == v
      ensures request == PlugRequest(installation.giid, serialNumber, v)
      ensures reply.error.None? ==> r == Ok(())
      ensures reply.error.Some? ==> r == Err(RequestFailed(reply.error.value))
    {
      value := v;
      request := PlugRequest(installation.giid, serialNumber, v);
      var sent, result := ApiCall(session.token, request, reply);
      match result
      case Resolved(_, _) => r := Ok(());
      case Rejected(_, e, _) => r := Err(RequestFailed(e));
      case RejectedMissingUri => r := Err(MissingUri);
    }
  }

  class DoorLock {
    const installation: Installation
    const name: string
    const serialNumber: string
    const doorCode: Option<string>
    var value: LockState
    /** Whether `getServices` has stored the lock service. */
    var hasService: bool
    /** The last value written into the current-state characteristic by a set. */
    var currentShown: Option<LockState>

    constructor(installation: Installation, name: string, serialNumber: string, doorCode: Option<string>, value: LockState)
      ensures this.installation == installation && this.name == name && this.serialNumber == serialNumber
      ensures this.doorCode == doorCode && this.value == value && !hasService && currentShown == None
    {
      this.installation, this.name, this.serialNumber, this.doorCode, this.value := installation, name, serialNumber, doorCode, value;
      hasService, currentShown := false, None;
    }

    /** `getServices` stores the service the set handler later writes to. */
    method GetServices()
      modifies this
      ensures hasService && value == old(value) && currentShown == old(currentShown)
    {
      hasService := true;
    }

    /** `_getCurrentLockState`: the first search record with this serial decides the state. */
    method GetCurrentLockState(session: Session, reply: ClientReply<seq<DoorLockRecord>>) returns (r: Result<LockState, Error>)
      modifies this
      ensures reply.error.Some? ==> r == Err(RequestFailed(reply.error.value)) && value == old(value)
      ensures reply.error.None? ==>
        var k := FindFirst(reply.body, serialNumber, (d: DoorLockRecord) => d.deviceLabel);
        && (k.None? ==> r == Err(DoorlockNotFound) && value == old(value))
        && (k.Some? ==> value == CurrentLockState(reply.body[k.value]) && r == Ok(value))
      ensures hasService == old(hasService) && currentShown == old(currentShown)
    {
      var sent, result := ApiCall(session.token, map["uri" := JsString(SearchUri(installation.giid))], reply);
      match result
      case Rejected(_, e, _) =>
        r := Err(RequestFailed(e));
      case RejectedMissingUri =>
        r := Err(MissingUri);
      case Resolved(_, body) =>
        var k := FindFirst(body, serialNumber, (d: DoorLockRecord) => d.deviceLabel);
        if k.None? {
          r := Err(DoorlockNotFound);
        } else {
          value := CurrentLockState(body[k.value]);
          r := Ok(value);
        }
    }

    /** `_getTargetLockState`: like the current state, from the pending state; `value` is not touched. */
    method GetTargetLockState(session: Session, reply: ClientReply<seq<DoorLockRecord>>) returns (r: Result<LockTarget, Error>)
      ensures reply.error.Some? ==> r == Err(RequestFailed(reply.error.value))
      ensures reply.error.None? ==>
        var k := FindFirst(reply.body, serialNumber, (d: DoorLockRecord) => d.deviceLabel);
        && (k.None? ==> r == Err(DoorlockNotFound))
        && (k.Some? ==> r == Ok(TargetLockState(reply.body[k.value])))
    {
      var sent, result := ApiCall(session.token, map["uri" := JsString(SearchUri(installation.giid))], reply);
      match result
      case Rejected(_, e, _) =>
        r := Err(RequestFailed(e));
      case RejectedMissingUri =>
        r := Err(MissingUri);
      case Resolved(_, body) =>
        var k := FindFirst(body, serialNumber, (d: DoorLockRecord) => d.deviceLabel);
        r := if k.None? then Err(DoorlockNotFound) else Ok(TargetLockState(body[k.value]));
    }

    /** The success path of a set: write the characteristic, then `value`. */
    method Apply(target: LockTarget) returns (outcome: SetOutcome)
      modifies this
      ensures hasService ==> outcome == Applied && value == target && currentShown == Some(target)
      ensures !hasService ==> outcome == SetFailed(NoService) && value == old(value) && currentShown == old(currentShown)
      ensures hasService == old(hasService)
    {
      if !hasService {
        return SetFailed(NoService);
      }
      currentShown := Some(target);
      value := target;
      outcome := Applied;
    }

    /**
     * `_setTargetLockState`: send the command; poll the transaction's result
     * URI if it was accepted, succeed at once on the recovery code, fail
     * otherwise. `value` changes only when the set succeeds.
     */
    method SetTargetLockState(session: Session, target: LockTarget, reply: ClientReply<TransactionBody>, polls: seq<PollReply>)
      returns (request: map<string, JsValue>, pollUri: Option<string>, outcome: SetOutcome)
      modifies this
      ensures request == LockRequest(installation.giid, serialNumber, target, doorCode)
      ensures hasService == old(hasService)
      ensures pollUri.Some? <==> reply.error.None?
      ensures reply.error.None? ==> pollUri == Some(LockResultUri(installation.giid, reply.body.doorLockStateChangeTransactionId))
      ensures (outcome == Applied) <==> hasService && (Recovers(reply) || (reply.error.None? && Wait(polls, 0).status == Succeeded))
      ensures !hasService && (Recovers(reply) || (reply.error.None? && Wait(polls, 0).status == Succeeded)) ==> outcome == SetFailed(NoService)
      ensures outcome == Applied ==> value == target && currentShown == Some(target)
      ensures outcome != Applied ==> value == old(value) && currentShown == old(currentShown)
      ensures reply.error.None? && Wait(polls, 0).status == Pending ==> outcome == AwaitingResult
      ensures reply.error.None? && Wait(polls, 0).status == Exhausted ==> outcome == SetFailed(AttemptsExhausted)
      ensures reply.error.None? && Wait(polls, 0).status.PollFailed? ==> outcome == SetFailed(Wait(polls, 0).status.error)
      ensures reply.error.Some? && !Recovers(reply) ==>
        outcome == SetFailed(if reply.response.None? then NoResponse else Vendor(reply.error.value.errorMessage))
    {
      request := LockRequest(installation.giid, serialNumber, target, doorCode);
      var sent, result := ApiCall(session.token, request, reply);
      pollUri := None;
      match Reconcile(result, RecoveryCode)
      case CommandRefused(e) =>
        outcome := SetFailed(e);
      case AlreadyInTarget =>
        outcome := Apply(target);
      case PollForResult =>
        pollUri := Some(LockResultUri(installation.giid, result.body.doorLockStateChangeTransactionId));
        var w := WaitForStatusChangeResult(polls);
        match w.status
        case Pending => outcome := AwaitingResult;
        case Exhausted => outcome := SetFailed(AttemptsExhausted);
        case PollFailed(e) => outcome := SetFailed(e);
        case Succeeded => outcome := Apply(target);
    }
  }

  class Alarm {
    const installation: Installation
    const name: string
    const alarmCode: string
    var value: SecurityState
    /** Whether `getServices` has stored the security-system service. */
    var hasService: bool
    /** The last value written into the current-state characteristic by a set. */
    var currentShown: Option<SecurityState>

    constructor(installation: Installation, name: string, alarmCode: string, value: SecurityState)
      ensures this.installation == installation && this.name == name && this.alarmCode == alarmCode
      ensures this.value == value && !hasService && currentShown == None
    {
      this.installation, this.name, this.alarmCode, this.value := installation, name, alarmCode, value;
      hasService, currentShown := false, None;
    }

    method GetServices()
      modifies this
      ensures hasService && value == old(value) && currentShown == old(currentShown)
    {
      hasService := true;
    }

    /** `_getCurrentAlarmState`: the overview's arm state, mapped; an unknown state is an error. */
    method GetCurrentAlarmState(overview: Result<Overview, Error>) returns (r: Result<SecurityState, Error>)
      modifies this
      ensures overview.Err? ==> r == Err(overview.error) && value == old(value)
      ensures overview.Ok? && !KnownArmState(overview.value.armState.statusType) ==>
        r == Err(UnknownArmState(overview.value.armState.statusType)) && value == old(value)
      ensures overview.Ok? ==> r == HapArmState(overview.value.armState.statusType)
      ensures overview.Ok? && KnownArmState(overview.value.armState.statusType) ==>
        r.Ok? && value == r.value && AlarmTargetState(value) == Some(overview.value.armState.statusType)
      ensures r.Err? ==> value == old(value)
      ensures hasService == old(hasService) && currentShown == old(currentShown)
    {
      match overview
      case Err(e) =>
        r := Err(e);
      case Ok(o) =>
        r := HapArmState(o.armState.statusType);
        if r.Ok? {
          ArmStateRoundTrip(o.armState.statusType);
          value := r.value;
        }
    }

    method Apply(requested: SecurityState) returns (outcome: SetOutcome)
      modifies this
      ensures hasService ==> outcome == Applied && value == requested && currentShown == Some(requested)
      ensures !hasService ==> outcome == SetFailed(NoService) && value == old(value) && currentShown == old(currentShown)
      ensures hasService == old(hasService)
    {
      if !hasService {
        return SetFailed(NoService);
      }
      currentShown := Some(requested);
      value := requested;
      outcome := Applied;
    }

    /**
     * `_setTargetAlarmState`: a target with no vendor state is dropped without
     * a call or a callback; otherwise as for the lock, with the arm-state
     * transaction.
     */
    method SetTargetAlarmState(session: Session, requested: SecurityState, reply: ClientReply<TransactionBody>, polls: seq<PollReply>)
      returns (request: Option<map<string, JsValue>>, pollUri: Option<string>, outcome: SetOutcome)
      modifies this
      ensures hasService == old(hasService)
      ensures AlarmTargetState(requested).None? ==>
        request == None && pollUri == None && outcome == Dropped && value == old(value) && currentShown == old(currentShown)
      ensures AlarmTargetState(requested).Some? ==> request == Some(ArmRequest(installation.giid, alarmCode, AlarmTargetState(requested).value))
      ensures pollUri.Some? <==> AlarmTargetState(requested).Some? && reply.error.None?
      ensures pollUri.Some? ==> pollUri == Some(ArmResultUri(installation.giid, reply.body.armStateChangeTransactionId))
      ensures (outcome == Applied) <==>
        AlarmTargetState(requested).Some? && hasService && (Recovers(reply) || (reply.error.None? && Wait(polls, 0).status == Succeeded))
      ensures AlarmTargetState(requested).Some? && !hasService && (Recovers(reply) || (reply.error.None? && Wait(polls, 0).status == Succeeded)) ==>
        outcome == SetFailed(NoService)
      ensures outcome == Applied ==> value == requested && currentShown == Some(requested)
      ensures outcome != Applied ==> value == old(value) && currentShown == old(currentShown)
      ensures AlarmTargetState(requested).Some? && reply.error.None? && Wait(polls, 0).status == Pending ==> outcome == AwaitingResult
      ensures AlarmTargetState(requested).Some? && reply.error.None? && Wait(polls, 0).status == Exhausted ==> outcome == SetFailed(AttemptsExhausted)
      ensures AlarmTargetState(requested).Some? && reply.error.None? && Wait(polls, 0).status.PollFailed? ==>
        outcome == SetFailed(Wait(polls, 0).status.error)
      ensures AlarmTargetState(requested).Some? && reply.error.Some? && !Recovers(reply) ==>
        outcome == SetFailed(if reply.response.None? then NoResponse else Vendor(reply.error.value.errorMessage))
    {
      var state := AlarmTargetState(requested);
      if state.None? {
        return None, None, Dropped;
      }
      var options := ArmRequest(installation.giid, alarmCode, state.value);
      request := Some(options);
      var sent, result := ApiCall(session.token, options, reply);
      pollUri := None;
      match Reconcile(result, RecoveryCode)
      case CommandRefused(e) =>
        outcome := SetFailed(e);
      case AlreadyInTarget =>
        outcome := Apply(requested);
      case PollForResult =>
        pollUri := Some(ArmResultUri(installation.giid, result.body.armStateChangeTransactionId));
        var w := WaitForStatusChangeResult(polls);
        match w.status
        case Pending => outcome := AwaitingResult;
        case Exhausted => outcome := SetFailed(AttemptsExhausted);
        case PollFailed(e) => outcome := SetFailed(e);
        case Succeeded => outcome := Apply(requested);
    }
  }

  class ClimateSensor {
    const installation: Installation
    const name: string
    const serialNumber: string
    var value: Temperature

    constructor(installation: Installation, name: string, serialNumber: string, value: Temperature)
      ensures this.installation == installation && this.name == name && this.serialNumber == serialNumber && this.value == value
    {
      this.installation, this.name, this.serialNumber, this.value := installation, name, serialNumber, value;
    }

    /** `_getCurrentTemperature`: the sensor with this serial in the overview decides the value. */
    method GetCurrentTemperature(overview: Result<Overview, Error>) returns (r: Result<Temperature, Error>)
      modifies this
      ensures overview.Err? ==> r == Err(overview.error) && value == old(value)
      ensures overview.Ok? ==>
        var sensors := overview.value.climateValues;
        var k := FindFirst(sensors, serialNumber, (c: ClimateValue) => c.deviceLabel);
        && (k.None? ==> r == Err(AccessoryNotFound) && value == old(value))
        && (k.Some? ==> value == sensors[k.value].temperature && r == Ok(value))
    {
      match overview
      case Err(e) =>
        r := Err(e);
      case Ok(o) =>
        var k := FindFirst(o.climateValues, serialNumber, (c: ClimateValue) => c.deviceLabel);
        if k.None? {
          r := Err(AccessoryNotFound);
        } else {
          value := o.climateValues[k.value].temperature;
          r := Ok(value);
        }
    }
  }
}
