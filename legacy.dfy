/**
 * The lock getters and the lock and alarm set handlers of the plain-JavaScript
 * build (index.js). They call the vendor client directly, with no promise
 * around it: the client's callback reports a non-null error and then carries
 * on, a search reply is walked record by record, a refused
 * command is recovered from on a build-specific code, and an accepted one is
 * polled with no bound. What reaches the completion callback is recorded as
 * a sequence of events, so a second callback or a throw is visible.
 */
module Legacy {
  import opened Common
  import opened Vendor
  import opened Api
  import opened Poller
  import opened Utils
  import opened Accessories

  /** The code on which the legacy lock handler recovers: the same as the TypeScript build's. */
  const LegacyLockRecoveryCode: string := "VAL_00819"

  /** The code on which the legacy alarm handler recovers. */
  const LegacyAlarmRecoveryCode: string := "VAL_00818"

  /** The parsed body of a command response: the vendor's error code, and the transaction ids. */
  datatype CommandBody = CommandBody(errorCode: Option<string>, ids: TransactionBody)

  datatype CommandResponse = CommandResponse(statusCode: int, body: Option<CommandBody>)

  /** What the vendor client passes to the command's callback: `(error, response)`. */
  datatype CommandReply = CommandReply(error: Option<RequestError>, response: Option<CommandResponse>)

  /** One call of the completion callback, with its error argument (None: `null`), or an uncaught throw. */
  datatype Event = CalledBack(error: Option<Error>) | Threw

  /** The events of one set, and whether `value` was set to the requested value. */
  datatype LegacyRun = LegacyRun(events: seq<Event>, applied: bool)

  /** `if (error != null) callback(error, response)`: reported, and the handler goes on. */
  function ReportedError(reply: CommandReply): (r: seq<Event>)
    ensures |r| <= 1
    ensures r == [] <==> reply.error.None?
  {
    match reply.error
    case None => []
    case Some(e) => [CalledBack(Some(RequestFailed(e)))]
  }

  /** `response && response.statusCode != 200`. */
  predicate Refused(reply: CommandReply)
  {
    reply.response.Some? && reply.response.value.statusCode != 200
  }

  /** A refusal the handler treats as "already in the requested state". */
  predicate LegacyRecovers(reply: CommandReply, recoveryCode: string)
  {
    && Refused(reply)
    && reply.response.value.statusCode == 400
    && reply.response.value.body.Some?
    && reply.response.value.body.value.errorCode == Some(recoveryCode)
  }

  /** Not refused, and the response has a body the poller can read the transaction id from. */
  predicate Pollable(reply: CommandReply)
  {
    reply.response.Some? && reply.response.value.statusCode == 200 && reply.response.value.body.Some?
  }

  /**
   * The success path shared by recovery and a settled poll: the characteristic
   * is written (a throw when no service was stored), then `value`, then the
   * callback gets null.
   */
  function Settle(before: seq<Event>, hasService: bool): (r: LegacyRun)
    ensures r.applied == hasService && |r.events| == |before| + 1 && r.events[..|before|] == before
  {
    if hasService then LegacyRun(before + [CalledBack(None)], true) else LegacyRun(before + [Threw], false)
  }

  /**
   * A legacy set handler after the command is sent. `polls` are the replies to
   * the polls of the result URI; the polls only start when the command was
   * neither refused nor left without a response.
   */
  function LegacySet(reply: CommandReply, recoveryCode: string, hasService: bool, polls: seq<LegacyPollReply>): (r: LegacyRun)
    ensures r.applied <==> hasService && (LegacyRecovers(reply, recoveryCode) || (Pollable(reply) && LegacyWait(polls).Settled?))
    ensures |ReportedError(reply)| <= |r.events| <= |ReportedError(reply)| + 1
    ensures r.events[..|ReportedError(reply)|] == ReportedError(reply)
    ensures r.applied ==> |r.events| > 0 && r.events[|r.events| - 1] == CalledBack(None)
  {
    var first := ReportedError(reply);
    if Refused(reply) then
      if LegacyRecovers(reply, recoveryCode) then Settle(first, hasService)
      else LegacyRun(first + [CalledBack(Some(HttpStatus(reply.response.value.statusCode)))], false)
    else if !Pollable(reply) then
      // the timer reads `response.body` of a missing response or body
      LegacyRun(first + [Threw], false)
    else
      match LegacyWait(polls)
      case Settled(_) => Settle(first, hasService)
      case Crashed(_) => LegacyRun(first + [Threw], false)
      case StillPolling(_) => LegacyRun(first, false)
  }

  /** The completion callback is called at most twice, and twice only after the client reported an error. */
  lemma AtMostTwoCallbacks(reply: CommandReply, recoveryCode: string, hasService: bool, polls: seq<LegacyPollReply>)
    ensures var r := LegacySet(reply, recoveryCode, hasService, polls);
      && |r.events| <= 2
      && (|r.events| == 2 ==> reply.error.Some? && r.events[0] == CalledBack(Some(RequestFailed(reply.error.value))))
  {
    var r := LegacySet(reply, recoveryCode, hasService, polls);
    if |r.events| == 2 {
      assert |ReportedError(reply)| == 1;
      assert r.events[..1] == ReportedError(reply);
    }
  }

  /** A client error with a refused response reaches the callback twice: the error, then the response. */
  lemma ErrorThenRefusal(e: RequestError, status: int, recoveryCode: string, hasService: bool, polls: seq<LegacyPollReply>)
    requires status != 200 && status != 400
    ensures LegacySet(CommandReply(Some(e), Some(CommandResponse(status, None))), recoveryCode, hasService, polls)
      == LegacyRun([CalledBack(Some(RequestFailed(e))), CalledBack(Some(HttpStatus(status)))], false)
  {
  }

  /** A client error next to an accepted command is reported, and the set still completes on a settled poll. */
  lemma ErrorThenSuccess(e: RequestError, body: CommandBody, recoveryCode: string, result: string)
    requires result != NoData
    ensures LegacySet(CommandReply(Some(e), Some(CommandResponse(200, Some(body)))), recoveryCode, true, [LegacyReply(result)])
      == LegacyRun([CalledBack(Some(RequestFailed(e))), CalledBack(None)], true)
  {
  }

  /** However many "NO_DATA" replies come first, an accepted command settles on the next result. */
  lemma NoPollBound(reply: CommandReply, recoveryCode: string, k: nat, result: string)
    requires Pollable(reply) && reply.error.None? && result != NoData
    ensures LegacySet(reply, recoveryCode, true, LegacyNoDataReplies(k) + [LegacyReply(result)]) == LegacyRun([CalledBack(None)], true)
    ensures LegacySet(reply, recoveryCode, true, LegacyNoDataReplies(k)) == LegacyRun([], false)
  {
    LegacyNeverGivesUp(k, result);
  }

  /**
   * A 400 refusal with "VAL_00818" recovers in the legacy alarm handler but
   * not in the legacy lock handler, and the TypeScript build's handlers fail
   * on it with the vendor's message.
   */
  lemma RecoveryCodesDiffer(reply: CommandReply, g: string, m: string, b: TransactionBody, polls: seq<LegacyPollReply>)
    requires reply.response == Some(CommandResponse(400, Some(CommandBody(Some("VAL_00818"), b))))
    ensures LegacySet(reply, LegacyAlarmRecoveryCode, true, polls).applied
    ensures !LegacySet(reply, LegacyLockRecoveryCode, true, polls).applied
    ensures Reconcile(Rejected(Some(HttpResponse(400)), RequestError(g, "VAL_00818", m), b), RecoveryCode) == CommandRefused(Vendor(m))
  {
  }

  /** The legacy poll loop: every "NO_DATA" schedules another poll of the same URI. */
  method LegacyWaitForResult(replies: seq<LegacyPollReply>) returns (outcome: LegacyWaitOutcome)
    ensures outcome == LegacyWait(replies)
  {
    var i := 0;
    while i < |replies| && replies[i] == LegacyReply(NoData)
      invariant 0 <= i <= |replies|
      invariant LegacyWait(replies) == Later(LegacyWait(replies[i..]), i)
    {
      assert replies[i..][1..] == replies[i + 1..];
      i := i + 1;
    }
    if i == |replies| {
      outcome := StillPolling(i);
    } else if replies[i] == NoResponseObject {
      outcome := Crashed(i + 1);
    } else {
      outcome := Settled(i + 1);
    }
  }

  /** A wait outcome reached `n` polls later. */
  function Later(w: LegacyWaitOutcome, n: nat): (r: LegacyWaitOutcome)
    ensures r.polls == w.polls + n
    ensures (r.Settled? <==> w.Settled?) && (r.Crashed? <==> w.Crashed?) && (r.StillPolling? <==> w.StillPolling?)
  {
    match w
    case Settled(p) => Settled(p + n)
    case Crashed(p) => Crashed(p + n)
    case StillPolling(p) => StillPolling(p + n)
  }

  /** The headers the legacy build sets on every call. */
  function LegacyOptions(token: Option<string>, verb: string, uri: string, json: JsValue): map<string, JsValue>
  {
    map["method" := JsString(verb), "uri" := JsString(uri), "headers" := JsObject(DefaultHeaders(token)), "json" := json]
  }

  function LegacyLockRequest(token: Option<string>, giid: string, serial: string, target: LockTarget, doorCode: Option<string>): map<string, JsValue>
  {
    LegacyOptions(token, "PUT", InstallationUri(giid) + "/device/" + serial + "/" + LockAction(target), JsObject(map["code" := JsOptional(doorCode)]))
  }

  function LegacyArmRequest(token: Option<string>, giid: string, alarmCode: string, state: string): map<string, JsValue>
  {
    LegacyOptions(token, "PUT", InstallationUri(giid) + "/armstate/code", JsObject(map["code" := JsString(alarmCode), "state" := JsString(state)]))
  }

  /** Merging a PUT request's uri, method and body into the defaults gives the options the legacy build spells out. */
  lemma MergedPut(token: Option<string>, options: map<string, JsValue>, uri: string, json: JsValue, sent: map<string, JsValue>)
    requires options == map["method" := JsString("PUT"), "uri" := JsString(uri), "json" := json]
    requires uri != [] && json.JsObject?
    requires forall k :: k in sent <==> k in DefaultOptions(token) || Supplies(options, k)
    requires forall k :: Supplies(options, k) ==> sent[k] == options[k]
    requires forall k :: k in DefaultOptions(token) && !Supplies(options, k) ==> sent[k] == DefaultOptions(token)[k]
    ensures sent == LegacyOptions(token, "PUT", uri, json)
  {
    var legacy := LegacyOptions(token, "PUT", uri, json);
    assert Supplies(options, "uri") && Supplies(options, "method") && Supplies(options, "json");
    assert !Supplies(options, "headers");
    assert sent.Keys == legacy.Keys;
    assert forall k :: k in legacy ==> sent[k] == legacy[k];
  }

  /** The lock command the TypeScript build sends through `apiCall` is the one the legacy build spells out. */
  method SameLockCommand(token: Option<string>, giid: string, serial: string, target: LockTarget, doorCode: Option<string>)
    returns (sent: Option<map<string, JsValue>>)
    ensures sent == Some(LegacyLockRequest(token, giid, serial, target, doorCode))
  {
    var result;
    var uri := InstallationUri(giid) + "/device/" + serial + "/" + LockAction(target);
    var options := LockRequest(giid, serial, target, doorCode);
    assert Supplies(options, "uri");
    sent, result := ApiCall(token, options, ClientReply(None, None, ()));
    MergedPut(token, options, uri, JsObject(map["code" := JsOptional(doorCode)]), sent.value);
  }

  /** Likewise for the arm command, once a target has a vendor state. */
  method SameArmCommand(token: Option<string>, giid: string, alarmCode: string, state: string)
    returns (sent: Option<map<string, JsValue>>)
    ensures sent == Some(LegacyArmRequest(token, giid, alarmCode, state))
  {
    var result;
    var uri := InstallationUri(giid) + "/armstate/code";
    var options := ArmRequest(giid, alarmCode, state);
    assert Supplies(options, "uri");
    sent, result := ApiCall(token, options, ClientReply(None, None, ()));
    MergedPut(token, options, uri, JsObject(map["code" := JsString(alarmCode), "state" := JsString(state)]), sent.value);
  }

  /** The legacy target switch has no default branch: an unmapped target is sent as "". */
  function LegacyAlarmTargetState(v: SecurityState): (r: string)
    ensures AlarmTargetState(v).Some? ==> r == AlarmTargetState(v).value
    ensures AlarmTargetState(v).None? ==> r == "" && !KnownArmState(r)
  {
    match v
    case AwayArm => ArmedAway
    case StayArm => ArmedHome
    case NightArm => ArmedHome
    case Disarmed => DisarmedState
    case Other(_) => ""
  }

  // ===== the legacy lock getters =====

  /** The parsed reply of `doorlockstate/search`: its status code and its records. */
  datatype SearchResponse = SearchResponse(statusCode: int, records: seq<DoorLockRecord>)

  /** What the vendor client passes to a getter's callback: `(error, response)`. */
  datatype SearchReply = SearchReply(error: Option<RequestError>, response: Option<SearchResponse>)

  /** One call of a getter's completion callback: its error argument and its value argument. */
  datatype Answer = Answer(error: Option<Error>, state: Option<LockState>)

  /** The client's error as a callback argument. */
  function ErrorArgument(reply: SearchReply): (r: Option<Error>)
    ensures r.Some? <==> reply.error.Some?
  {
    match reply.error case None => None case Some(e) => Some(RequestFailed(e))
  }

  /** `if (error) callback(error)`: reported, and the getter goes on. */
  function ReportedSearchError(reply: SearchReply): (r: seq<Answer>)
    ensures |r| <= 1
    ensures r == [] <==> reply.error.None?
  {
    match reply.error case None => [] case Some(e) => [Answer(Some(RequestFailed(e)), None)]
  }

  /** `response && response.statusCode == 200`: only then are the records walked. */
  function SearchedRecords(reply: SearchReply): seq<DoorLockRecord>
  {
    if reply.response.Some? && reply.response.value.statusCode == 200 then reply.response.value.records else []
  }

  /** The records whose label is `serial`, in reply order. */
  function Matching(records: seq<DoorLockRecord>, serial: string): (r: seq<DoorLockRecord>)
    ensures |r| <= |records|
    decreases |records|
  {
    if records == [] then []
    else (if records[0].deviceLabel == serial then [records[0]] else []) + Matching(records[1..], serial)
  }

  /** Nothing matches exactly when no record has the label, and whatever matches has it. */
  lemma {:induction false} MatchingNone(records: seq<DoorLockRecord>, serial: string)
    ensures Matching(records, serial) == [] <==> forall j :: 0 <= j < |records| ==> records[j].deviceLabel != serial
    ensures forall i :: 0 <= i < |Matching(records, serial)| ==> Matching(records, serial)[i].deviceLabel == serial
    decreases |records|
  {
    if records != [] {
      MatchingNone(records[1..], serial);
      var head := if records[0].deviceLabel == serial then [records[0]] else [];
      var rest := Matching(records[1..], serial);
      assert Matching(records, serial) == head + rest;
      var all: seq<DoorLockRecord> := head + rest;
      forall i | 0 <= i < |all| ensures all[i].deviceLabel == serial {
        if i >= |head| { assert all[i] == rest[i - |head|]; }
      }
      if forall j :: 0 <= j < |records[1..]| ==> records[1..][j].deviceLabel != serial {
        forall j | 1 <= j < |records| ensures records[j].deviceLabel != serial {
          assert records[j] == records[1..][j - 1];
        }
      }
    }
  }

  lemma MatchingCons(x: DoorLockRecord, rest: seq<DoorLockRecord>, serial: string)
    ensures Matching([x] + rest, serial) == (if x.deviceLabel == serial then [x] else []) + Matching(rest, serial)
  {
    assert ([x] + rest)[0] == x && ([x] + rest)[1..] == rest;
  }

  lemma {:induction false} MatchingAppend(a: seq<DoorLockRecord>, b: seq<DoorLockRecord>, serial: string)
    ensures Matching(a + b, serial) == Matching(a, serial) + Matching(b, serial)
    decreases |a|
  {
    if a == [] {
      assert a + b == b;
    } else {
      var x := a[0];
      var rest := a[1..];
      var head := if x.deviceLabel == serial then [x] else [];
      assert a == [x] + rest;
      assert a + b == [x] + (rest + b);
      MatchingCons(x, rest + b, serial);
      MatchingCons(x, rest, serial);
      MatchingAppend(rest, b, serial);
      var mr := Matching(rest, serial);
      var mb := Matching(b, serial);
      assert Matching(a + b, serial) == head + (mr + mb);
      assert Matching(a, serial) == head + mr;
      assert head + (mr + mb) == (head + mr) + mb;
    }
  }

  /** The legacy walk and the TypeScript one pick the same record: the first with the label. */
  lemma {:induction false} FirstMatchIsFindFirst(records: seq<DoorLockRecord>, serial: string)
    ensures var f := FindFirst(records, serial, (d: DoorLockRecord) => d.deviceLabel);
      (Matching(records, serial) != [] <==> f.Some?)
      && (f.Some? ==> Matching(records, serial)[0] == records[f.value])
    decreases |records|
  {
    if records != [] && records[0].deviceLabel != serial {
      FirstMatchIsFindFirst(records[1..], serial);
    }
  }

  /**
   * `_getCurrentLockState`: the first record with the label answers with its
   * state and the loop breaks; no such record, or a reply other than a 200,
   * answers nothing.
   */
  function LegacyCurrentLockAnswers(reply: SearchReply, serial: string): (r: seq<Answer>)
    ensures |r| <= 2
    ensures r == [] <==> reply.error.None? && Matching(SearchedRecords(reply), serial) == []
    ensures r[..|ReportedSearchError(reply)|] == ReportedSearchError(reply)
  {
    var m := Matching(SearchedRecords(reply), serial);
    ReportedSearchError(reply) + (if m == [] then [] else [Answer(None, Some(CurrentLockState(m[0])))])
  }

  /** One answer per matching record: the loop of `_getTargetLockState` has no `break`. */
  function TargetAnswers(ms: seq<DoorLockRecord>, error: Option<Error>): (r: seq<Answer>)
    ensures |r| == |ms|
    ensures forall i :: 0 <= i < |ms| ==> r[i] == Answer(error, Some(TargetLockState(ms[i])))
  {
    seq(|ms|, i requires 0 <= i < |ms| => Answer(error, Some(TargetLockState(ms[i]))))
  }

  /**
   * `_getTargetLockState`: every record with the label answers, with the
   * client's error passed along as the error argument.
   */
  function LegacyTargetLockAnswers(reply: SearchReply, serial: string): (r: seq<Answer>)
    ensures |r| == |ReportedSearchError(reply)| + |Matching(SearchedRecords(reply), serial)|
    ensures r[..|ReportedSearchError(reply)|] == ReportedSearchError(reply)
  {
    ReportedSearchError(reply) + TargetAnswers(Matching(SearchedRecords(reply), serial), ErrorArgument(reply))
  }

  /** A lock missing from a successful search never calls back, where the TypeScript getter fails with "Doorlock not found". */
  lemma MissingLockNeverAnswers(records: seq<DoorLockRecord>, serial: string)
    requires forall j :: 0 <= j < |records| ==> records[j].deviceLabel != serial
    ensures LegacyCurrentLockAnswers(SearchReply(None, Some(SearchResponse(200, records))), serial) == []
    ensures LegacyTargetLockAnswers(SearchReply(None, Some(SearchResponse(200, records))), serial) == []
  {
    MatchingNone(records, serial);
  }

  /** A refused search without a client error never calls back. */
  lemma RefusedSearchNeverAnswers(status: int, records: seq<DoorLockRecord>, serial: string)
    requires status != 200
    ensures LegacyCurrentLockAnswers(SearchReply(None, Some(SearchResponse(status, records))), serial) == []
    ensures LegacyTargetLockAnswers(SearchReply(None, Some(SearchResponse(status, records))), serial) == []
  {
  }

  /** A client error next to a successful search calls back twice: the error, then the lock's state. */
  lemma ErrorThenLockState(e: RequestError, rec: DoorLockRecord)
    ensures LegacyCurrentLockAnswers(SearchReply(Some(e), Some(SearchResponse(200, [rec]))), rec.deviceLabel)
      == [Answer(Some(RequestFailed(e)), None), Answer(None, Some(CurrentLockState(rec)))]
  {
    MatchingCons(rec, [], rec.deviceLabel);
    assert [rec] + [] == [rec];
  }

  /** Two records with the same label make the target getter call back twice. */
  lemma DuplicateLabelAnswersTwice(a: DoorLockRecord, b: DoorLockRecord)
    requires a.deviceLabel == b.deviceLabel
    ensures LegacyTargetLockAnswers(SearchReply(None, Some(SearchResponse(200, [a, b]))), a.deviceLabel)
      == [Answer(None, Some(TargetLockState(a))), Answer(None, Some(TargetLockState(b)))]
  {
    MatchingCons(b, [], a.deviceLabel);
    assert [b] + [] == [b];
    MatchingCons(a, [b], a.deviceLabel);
    assert [a] + [b] == [a, b];
  }

  /** With no client error and the lock found, the legacy getters answer as the TypeScript ones decide. */
  lemma GettersAgreeWhenFound(records: seq<DoorLockRecord>, serial: string)
    requires exists j :: 0 <= j < |records| && records[j].deviceLabel == serial
    ensures var f := FindFirst(records, serial, (d: DoorLockRecord) => d.deviceLabel);
      && f.Some?
      && LegacyCurrentLockAnswers(SearchReply(None, Some(SearchResponse(200, records))), serial)
           == [Answer(None, Some(CurrentLockState(records[f.value])))]
      && LegacyTargetLockAnswers(SearchReply(None, Some(SearchResponse(200, records))), serial)[0]
           == Answer(None, Some(TargetLockState(records[f.value])))
  {
    FirstMatchIsFindFirst(records, serial);
  }

  /** One more record walked adds its answer when it has the label. */
  lemma TargetStep(records: seq<DoorLockRecord>, i: nat, serial: string, error: Option<Error>)
    requires i < |records|
    ensures TargetAnswers(Matching(records[..i + 1], serial), error)
      == TargetAnswers(Matching(records[..i], serial), error)
         + (if records[i].deviceLabel == serial then [Answer(error, Some(TargetLockState(records[i])))] else [])
  {
    assert records[..i + 1] == records[..i] + [records[i]];
    MatchingAppend(records[..i], [records[i]], serial);
    var before := TargetAnswers(Matching(records[..i], serial), error);
    var after := TargetAnswers(Matching(records[..i + 1], serial), error);
    if records[i].deviceLabel == serial {
      assert Matching([records[i]], serial) == [records[i]];
      assert after == before + [Answer(error, Some(TargetLockState(records[i])))];
    } else {
      assert Matching([records[i]], serial) == [];
      assert Matching(records[..i] + [records[i]], serial) == Matching(records[..i], serial);
    }
  }

  /** The lock accessory of the legacy build. */
  class LegacyDoorLock {
    const installation: Installation
    const serialNumber: string
    const doorCode: Option<string>
    /** A set stores the target here; the current-state getter stores what it reads, a jam included. */
    var value: LockState
    var hasService: bool
    /** The last value written into the current-state characteristic by a set. */
    var currentShown: Option<LockState>

    constructor(installation: Installation, serialNumber: string, doorCode: Option<string>, value: LockTarget)
      ensures this.installation == installation && this.serialNumber == serialNumber && this.doorCode == doorCode
      ensures this.value == value && !hasService && currentShown == None
    {
      this.installation, this.serialNumber, this.doorCode, this.value := installation, serialNumber, doorCode, value;
      hasService, currentShown := false, None;
    }

    method GetServices()
      modifies this
      ensures hasService && value == old(value) && currentShown == old(currentShown)
    {
      hasService := true;
    }

    /** `_getCurrentLockState`: walks the records until the first with this serial, and stores its state. */
    method GetCurrentLockState(reply: SearchReply) returns (answers: seq<Answer>)
      modifies this
      ensures answers == LegacyCurrentLockAnswers(reply, serialNumber)
      ensures var m := Matching(SearchedRecords(reply), serialNumber);
        value == (if m == [] then old(value) else CurrentLockState(m[0]))
      ensures hasService == old(hasService) && currentShown == old(currentShown)
    {
      answers := ReportedSearchError(reply);
      var records := SearchedRecords(reply);
      var i := 0;
      while i < |records|
        invariant 0 <= i <= |records|
        invariant Matching(records[..i], serialNumber) == []
        invariant value == old(value) && hasService == old(hasService) && currentShown == old(currentShown)
      {
        if records[i].deviceLabel == serialNumber {
          value := CurrentLockState(records[i]);
          answers := answers + [Answer(None, Some(value))];
          assert records == records[..i] + records[i..];
          MatchingAppend(records[..i], records[i..], serialNumber);
          assert Matching(records, serialNumber)[0] == records[i];
          return;
        }
        assert records[..i + 1] == records[..i] + [records[i]];
        MatchingAppend(records[..i], [records[i]], serialNumber);
        i := i + 1;
      }
      assert records[..i] == records;
    }

    /** `_getTargetLockState`: walks every record and answers once per record with this serial. */
    method GetTargetLockState(reply: SearchReply) returns (answers: seq<Answer>)
      ensures answers == LegacyTargetLockAnswers(reply, serialNumber)
    {
      answers := ReportedSearchError(reply);
      var records := SearchedRecords(reply);
      var error := ErrorArgument(reply);
      var i := 0;
      while i < |records|
        invariant 0 <= i <= |records|
        invariant answers == ReportedSearchError(reply) + TargetAnswers(Matching(records[..i], serialNumber), error)
      {
        TargetStep(records, i, serialNumber, error);
        if records[i].deviceLabel == serialNumber {
          answers := answers + [Answer(error, Some(TargetLockState(records[i])))];
        }
        i := i + 1;
      }
      assert records[..i] == records;
    }

    /** `_setTargetLockState` and `_waitForLockStatusChangeResult`. */
    method SetTargetLockState(token: Option<string>, target: LockTarget, reply: CommandReply, polls: seq<LegacyPollReply>)
      returns (request: map<string, JsValue>, pollUri: Option<string>, events: seq<Event>)
      modifies this
      ensures request == LegacyLockRequest(token, installation.giid, serialNumber, target, doorCode)
      ensures pollUri.Some? <==> Pollable(reply)
      ensures pollUri.Some? ==> pollUri == Some(LockResultUri(installation.giid, reply.response.value.body.value.ids.doorLockStateChangeTransactionId))
      ensures var run := LegacySet(reply, LegacyLockRecoveryCode, old(hasService), polls);
        && events == run.events
        && (run.applied ==> value == target && currentShown == Some(target))
        && (!run.applied ==> value == old(value) && currentShown == old(currentShown))
      ensures hasService == old(hasService)
    {
      request := LegacyLockRequest(token, installation.giid, serialNumber, target, doorCode);
      events := ReportedError(reply);
      pollUri := None;
      if Refused(reply) {
        var resp := reply.response.value;
        if resp.statusCode == 400 && resp.body.Some? && resp.body.value.errorCode == Some(LegacyLockRecoveryCode) {
          events := Apply(events, target);
        } else {
          events := events + [CalledBack(Some(HttpStatus(resp.statusCode)))];
        }
      } else if !Pollable(reply) {
        events := events + [Threw];
      } else {
        pollUri := Some(LockResultUri(installation.giid, reply.response.value.body.value.ids.doorLockStateChangeTransactionId));
        var w := LegacyWaitForResult(polls);
        match w
        case Settled(_) => events := Apply(events, target);
        case Crashed(_) => events := events + [Threw];
        case StillPolling(_) =>
      }
    }

    /** Write the characteristic, then `value`, then call back with null. */
    method Apply(before: seq<Event>, target: LockTarget) returns (events: seq<Event>)
      modifies this
      ensures events == Settle(before, hasService).events
      ensures hasService ==> value == target && currentShown == Some(target)
      ensures !hasService ==> value == old(value) && currentShown == old(currentShown)
      ensures hasService == old(hasService)
    {
      if !hasService {
        return before + [Threw];
      }
      currentShown := Some(target);
      value := target;
      events := before + [CalledBack(None)];
    }
  }

  /** The alarm accessory of the legacy build. */
  class LegacyAlarm {
    const installation: Installation
    const alarmCode: string
    var value: SecurityState
    var hasService: bool
    /** The last value written into the current-state characteristic by a set. */
    var currentShown: Option<SecurityState>

    constructor(installation: Installation, alarmCode: string, value: SecurityState)
      ensures this.installation == installation && this.alarmCode == alarmCode
      ensures this.value == value && !hasService && currentShown == None
    {
      this.installation, this.alarmCode, this.value := installation, alarmCode, value;
      hasService, currentShown := false, None;
    }

    method GetServices()
      modifies this
      ensures hasService && value == old(value) && currentShown == old(currentShown)
    {
      hasService := true;
    }

    /** `_setTargetAlarmState` and `_waitForArmStatusChangeResult`: every target is sent, an unmapped one as "". */
    method SetTargetAlarmState(token: Option<string>, requested: SecurityState, reply: CommandReply, polls: seq<LegacyPollReply>)
      returns (request: map<string, JsValue>, pollUri: Option<string>, events: seq<Event>)
      modifies this
      ensures request == LegacyArmRequest(token, installation.giid, alarmCode, LegacyAlarmTargetState(requested))
      ensures pollUri.Some? <==> Pollable(reply)
      ensures pollUri.Some? ==> pollUri == Some(ArmResultUri(installation.giid, reply.response.value.body.value.ids.armStateChangeTransactionId))
      ensures var run := LegacySet(reply, LegacyAlarmRecoveryCode, old(hasService), polls);
        && events == run.events
        && (run.applied ==> value == requested && currentShown == Some(requested))
        && (!run.applied ==> value == old(value) && currentShown == old(currentShown))
      ensures hasService == old(hasService)
    {
      request := LegacyArmRequest(token, installation.giid, alarmCode, LegacyAlarmTargetState(requested));
      events := ReportedError(reply);
      pollUri := None;
      if Refused(reply) {
        var resp := reply.response.value;
        if resp.statusCode == 400 && resp.body.Some? && resp.body.value.errorCode == Some(LegacyAlarmRecoveryCode) {
          events := Apply(events, requested);
        } else {
          events := events + [CalledBack(Some(HttpStatus(resp.statusCode)))];
        }
      } else if !Pollable(reply) {
        events := events + [Threw];
      } else {
        pollUri := Some(ArmResultUri(installation.giid, reply.response.value.body.value.ids.armStateChangeTransactionId));
        var w := LegacyWaitForResult(polls);
        match w
        case Settled(_) => events := Apply(events, requested);
        case Crashed(_) => events := events + [Threw];
        case StillPolling(_) =>
      }
    }

    method Apply(before: seq<Event>, requested: SecurityState) returns (events: seq<Event>)
      modifies this
      ensures events == Settle(before, hasService).events
      ensures hasService ==> value == requested && currentShown == Some(requested)
      ensures !hasService ==> value == old(value) && currentShown == old(currentShown)
      ensures hasService == old(hasService)
    {
      if !hasService {
        return before + [Threw];
      }
      currentShown := Some(requested);
      value := requested;
      events := before + [CalledBack(None)];
    }
  }
}
