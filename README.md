# homebridge-verisure, modelled in Dafny

homebridge-verisure is a Homebridge platform plugin. It turns a Verisure
installation into HomeKit accessories:
- an alarm (security system);
- climate sensors (temperature);
- smart plugs (switches);
- door locks.

Underneath the glue code sit a few small decision procedures and pieces of
process-wide state. This project models them in Dafny and proves what they
guarantee:

- **Unique names** (`Utils`): the registry of display names that every
  accessory constructor draws from. A colliding name is retried with a
  ` #n` suffix. The suffix is read with the unanchored pattern
  `(.+) #(\d+)`.
- **State mappings** (`Utils`, `Accessories`):
  - the vendor arm state → the security-system state;
  - the requested security-system target → the vendor arm state;
  - the door-lock current and target states read from a search reply;
  - a plug's ON/OFF ↔ 1/0;
  - the Swedish device-type titles.
- **`apiCall` and the session** (`Api`):
  - options are merged into the defaults;
  - the call resolves or rejects;
  - the session token is stored;
  - the in-flight overview cache keeps one pending fetch per installation. The TypeScript build and the legacy build complete a fetch differently.
- **The transaction poller** (`Poller`): after a lock or arm command, the result URI is polled.
  - The TypeScript build gives up after nine `NO_DATA` replies.
  - The legacy build polls without a bound.
- **The accessory classes** (`Accessories`): the get and set handlers of SmartPlug, DoorLock, Alarm and ClimateSensor, and the updates they make to the `value` field. A refused lock or arm command is reconciled: a 400 with `VAL_00819` counts as "already there".
- **Device enumeration** (`Platform`): `VerisurePlatform.accessories` builds one list per installation, in this order:
  1. the alarm, when wanted;
  2. the sensors;
  3. the plugs;
  4. the locks.

  The per-installation lists are then joined, for both builds.
- **The legacy handlers** (`Legacy`): the lock getters and the lock and alarm set handlers of index.js.
  - The lock getters differ from the TypeScript ones in four ways. A lock missing from the search reply never gets a callback. A reply other than 200 without a client error gets none either. A client error is reported and the getter carries on. The target getter calls back once per matching record.
  - They call back on a client error and then carry on, so a second callback is possible.
  - They recover on a build-specific code.
  - They send an unmapped alarm target as `""`.

Every reply from the Verisure client library is an input value. These include:
- the auth token;
- the installation list;
- the overview;
- the response to each command;
- the reply to each poll.

The accessory host's characteristic constants are abstract enums (`SecurityState`, `LockState`), because their numeric values are not part of this code.

The TypeScript build and the legacy build disagree on when an alarm is built:
- src/index.ts:65-68 builds it when the installation **is** listed in `ignore_alarms`;
- index.js:104 builds it when the installation is **not** listed.

`AlarmWanted` models both, and `BuildsDisagreeOnAlarm` proves that exactly one of the two builds creates the alarm.

## Model

| member | source | states |
|---|---|---|
| Utils.ParseSuffix | src/utils.ts:12 | a match has a non-empty prefix that is a proper prefix of the name (the greedy `.+` before the last ` #<digit>`) |
| Utils.LastMarkerBefore | src/utils.ts:12 | finds the last ` #<digit>` marker before the bound, as backtracking from the greedy `(.+)` does, or reports that there is none |
| Utils.ParseTagged | src/utils.ts:12-13 | a name written as `prefix #n` is read back as that prefix and n |
| Utils.Retry | src/utils.ts:12-13 | the retried candidate is read back as tagged: `p #n` becomes `p #(n+1)`, and a non-empty untagged name becomes `name #2` |
| Utils.TrailingTextDropped | src/utils.ts:12-13 | text after the digits is not captured: after a collision "Lamp #3 (old)" is retried as "Lamp #4" |
| Utils.RetryBudgetDecreases | src/utils.ts:11-13 | every retry of a registered name lowers a finite measure bounded by the registry, so the recursion ends |
| Utils.UniqueName | src/utils.ts:10-18 | the handed-out name is not yet registered; a name that is not registered is handed out unchanged |
| Utils.RegistryStaysDuplicateFree | src/utils.ts:11-16 | a duplicate-free registry stays duplicate-free when the handed-out name is appended |
| Utils.CollisionWithoutSuffix | src/utils.ts:12-13 | a colliding name without a ` #n` suffix is retried as `name #2` |
| Utils.CollisionWithSuffix | src/utils.ts:12-13 | a colliding `prefix #n` is retried as `prefix #(n+1)` |
| Utils.SecondOfAKind | src/utils.ts:10-18 | a second request for an untagged name, once registered, gets `name #2` |
| Utils.ThirdOfAKind | src/utils.ts:10-18 | a third request, with `name` and `name #2` registered, collides twice and gets `name #3` |
| Utils.KitchenPlugs | src/utils.ts:10-18 | starting from an empty registry, three "Smart plug (Kitchen)" names come out plain, then ` #2`, then ` #3` |
| Utils.NameRegistry.GetUniqueName | src/utils.ts:10-18 | returns the name that `UniqueName` hands out; the registry grows by exactly that name at the end; earlier entries are untouched; no duplicates are introduced; the legacy registry (index.js:65-74) is the same procedure |
| Utils.KitchenScenario | src/utils.ts:10-18 | three calls on a fresh registry return the plain, ` #2` and ` #3` names |
| Utils.SameNameThrice | src/utils.ts:10-18 | for any nonempty name without a ` #n` suffix, three calls on a fresh registry return the name, then the name with ` #2`, then with ` #3` |
| Utils.HapArmState | src/utils.ts:20-31 | ARMED_AWAY→AWAY_ARM, ARMED_HOME→STAY_ARM, DISARMED→DISARMED, each if and only if; any other state is an error naming that state, never a default; the legacy switch (index.js:494-505) is the same |
| Utils.HapArmStateInjective | src/utils.ts:20-31 | distinct known vendor states give distinct accessory states |
| Api.MergeOptions | src/api.ts:86-90 | the merged keys are the defaults plus the caller's truthy fields; each truthy field replaces its default wholesale; every other default is kept |
| Api.ApiCall | src/api.ts:73-115 | a missing or empty `uri` rejects without calling the client; otherwise the client receives the merged options; the call rejects exactly when the client reports an error, and otherwise resolves with no error |
| Api.HeadersReplacedWholesale | src/api.ts:78-90 | caller headers replace the default headers as a whole (the Cookie is lost), and the default method stays GET |
| Api.Session.GetInstallations | src/api.ts:6-27 | an auth error is passed on and leaves the token as it was; after a successful auth the token is stored and the installations reply is passed on |
| Api.OverviewCache.Request | src/api.ts:29-47 | with an entry for the giid, that entry is returned and no fetch starts; otherwise exactly one fetch starts and is stored under that giid, and no other slot changes |
| Api.OverviewCache.Complete | src/api.ts:36-43 | success clears the giid's slot; failure keeps the rejected promise in it; other slots are unchanged |
| Api.OverviewCache.CompleteLegacy | index.js:51-59 | the legacy build clears the slot on success and on failure alike |
| Api.ConcurrentRequestsShareOneFetch | src/api.ts:31-33 | two requests made before the first one settles share one vendor call |
| Api.SuccessClearsSlot | src/api.ts:41-42 | after a successful fetch, the next request starts a fresh fetch |
| Api.FailureIsSticky | src/api.ts:37-40 | after a failed fetch, later requests get the same rejected fetch and no new call is made |
| Api.LegacyFailureRefetches | index.js:51-59 | in the legacy build a failed fetch is fetched again by the next request |
| Api.OtherInstallationsUntouched | src/api.ts:29-47 | an example on a fresh cache: a request and a completion for one giid leave another giid's slot unchanged (the general frame fact is carried by the ensures of `Request` and `Complete`, which change only the slot of their own giid: `old(slots)[giid := …]` or `old(slots) - {giid}`) |
| Poller.Wait | src/accessories.ts:36-74 | the bounded wait makes at most as many polls as there are replies, and at most 9 from a fresh counter; it is pending only when the replies run out |
| Poller.TransactionPoller.Poll | src/accessories.ts:45-53 | a result other than NO_DATA succeeds; a rejected call fails with its error; NO_DATA fails with "too many attempts" once retries > 7, and otherwise increments retries; the counter never exceeds 8 |
| Poller.WaitForStatusChangeResult | src/accessories.ts:36-74 | the polling loop ends exactly as `Wait` specifies |
| Poller.NoDataThenResult | src/accessories.ts:46-53 | NO_DATA replies within the limit, then a result, succeed on the poll after them |
| Poller.NoDataExhausts | src/accessories.ts:46-49 | NO_DATA replies past the limit exhaust the wait on the last of them |
| Poller.NinthPoll | src/accessories.ts:39-52 | 8 NO_DATA replies then a result succeed on the 9th poll; 9 NO_DATA replies fail on the 9th poll |
| Poller.WaitShape | src/accessories.ts:40-69 | every poll before the last saw NO_DATA, and the last poll saw what the final status names |
| Poller.ExhaustedExactly | src/accessories.ts:46-49 | the wait gives up exactly when the first nine replies are all NO_DATA |
| Poller.LegacyNeverGivesUp | index.js:339-345 | however many NO_DATA replies come first, the legacy poller is still polling, and it settles on the next result |
| Poller.LegacyWait | index.js:324-349 | never polls more often than there are replies; all polls before the last saw NO_DATA; it keeps polling exactly when every reply was NO_DATA; it settles on a result and crashes on a missing response |
| Poller.BoundedAgainstLegacy | index.js:420-426 | nine NO_DATA replies then a result: the bounded poller has given up, while the legacy one settles on the 10th poll |
| Accessories.FindFirst | src/accessories.ts:119-122 | finds the first element with the label, or reports that none has it |
| Accessories.PlugValue | src/accessories.ts:97 | 1 exactly when the plug's state is ON |
| Accessories.CurrentLockState | src/accessories.ts:207-215 | JAMMED exactly when the motor is jammed; otherwise UNSECURED exactly when the lock reports UNLOCKED |
| Accessories.TargetLockState | src/accessories.ts:246-256 | the pending state decides the target unless it is NONE, in which case the current state does; the target is UNSECURED exactly when that state is UNLOCKED |
| Accessories.SettledLockAgrees | src/accessories.ts:207-256 | a free motor with no pending change has a target equal to its current state |
| Accessories.PendingChangeDecidesTarget | src/accessories.ts:246-249 | a pending change decides the target, whatever the current state and motor report |
| Accessories.AlarmTargetState | src/accessories.ts:370-385 | a vendor state exists exactly for AWAY_ARM, STAY_ARM, NIGHT_ARM and DISARM, and it is always a state the getter knows |
| Accessories.AlarmTargetReadBack | src/accessories.ts:370-385 | a target sent and read back is the same target, except that NIGHT_ARM reads back as STAY_ARM |
| Accessories.ArmStateRoundTrip | src/accessories.ts:361-385 | a known arm state, mapped and then set as a target, is sent back unchanged |
| Accessories.DeviceTypeFromKey | src/accessories.ts:443 | the enum member found has that key, and no member has the key when none is found |
| Accessories.DeviceTypeKeyRoundTrip | src/accessories.ts:483-492 | each device type is found again under its own key |
| Accessories.DeviceTypeTitle | src/accessories.ts:494-515 | the title is "Okänd enhet: undefined" exactly for an undefined type; `DeviceTypeTitleInjective` adds that the titles are pairwise distinct |
| Accessories.DeviceTypeTitleInjective | src/accessories.ts:494-515 | distinct device types, and an undefined type, all get distinct titles |
| Accessories.ResultUriNamesTransaction | src/accessories.ts:290-292 | different transaction ids give different result URIs |
| Accessories.Reconcile | src/accessories.ts:286-307 | polls exactly when the command resolved; recovers exactly on a 400 with the recovery code; a missing response fails on reading it; any other refusal fails with the vendor's message |
| Accessories.SmartPlug.GetSwitchValue | src/accessories.ts:114-131 | the first plug with this serial sets `value` to ON?1:0 and returns it; a missing plug or a failed fetch is an error and leaves `value` unchanged |
| Accessories.SmartPlug.SetSwitchValue | src/accessories.ts:133-155 | `value` is set to the request before the call and is never reverted; the POST body carries the serial and `value == 1` |
| Accessories.DoorLock.GetCurrentLockState | src/accessories.ts:194-231 | the first record with this serial decides the state, which is stored in `value`; with no such record the result is "Doorlock not found" and `value` is unchanged |
| Accessories.DoorLock.GetTargetLockState | src/accessories.ts:233-269 | the target comes from the first matching record; none found is an error; `value` is not touched |
| Accessories.DoorLock.SetTargetLockState | src/accessories.ts:272-318 | sends the lock/unlock PUT with the door code. An accepted command polls the URI built from the transaction id. The set succeeds exactly when a service exists and the set either recovers on VAL_00819 or polls to a result. Only then do `value` and the shown state become the target. Every failure is classified: with no service cached, a recovery or a polled result fails with NoService, as the thrown TypeError reaches the callback |
| Accessories.Alarm.GetCurrentAlarmState | src/accessories.ts:356-367 | the result is exactly `hapArmState` of the overview's arm state, and a known state is stored in `value`; an unknown state or a failed fetch is an error and leaves `value` unchanged |
| Accessories.Alarm.SetTargetAlarmState | src/accessories.ts:369-432 | a target with no vendor state makes no call and no callback. Otherwise the arm PUT is sent and handled like the lock's, with the arm transaction, including NoService when no service is cached; `value` changes only on success |
| Accessories.ClimateSensor.GetCurrentTemperature | src/accessories.ts:463-480 | the sensor with this serial sets `value` to its temperature; a missing sensor is an error and leaves `value` unchanged |
| Platform.AlarmWanted | src/index.ts:65-68 | with the code set and the list present, the alarm is wanted exactly when the giid is listed (TypeScript build) or not listed (legacy build); with the code set and no list, reading the list throws |
| Platform.BuildsDisagreeOnAlarm | index.js:104 | with a code and a list configured, exactly one of the two builds creates the alarm |
| Platform.ClimateTitle | src/accessories.ts:441-445 | a known type gets its `deviceTypeTitle`; an unknown one gets "Okänd enhet: undefined" in the TypeScript build and its raw key in the legacy one |
| Platform.ClimateTitleBuilds | index.js:118 | both builds title a known type alike; an unknown type is "Okänd enhet: undefined" in one build and its raw key in the other |
| Platform.HandOut | src/index.ts:78-96 | one name per base name; `HandOutFresh` and `HandOutKeepsDistinct` state what the names are |
| Platform.HandOutFresh | src/utils.ts:10-18 | each name handed out is new to the registry as it stood when it was asked for, and a base name still free then is handed out unchanged |
| Platform.HandOutAppend | src/index.ts:78-96 | handing out two batches in a row does the same as handing out both at once |
| Platform.HandOutThree | src/index.ts:78-96 | the sensors, plugs and locks handed out one after another get the same names as the three base lists handed out at once |
| Platform.HandOutKeepsDistinct | src/index.ts:78-96 | naming one kind of device after another keeps the registry duplicate-free |
| Platform.HandOutAll | src/index.ts:78-88 | the `map` over the base names registers them in order, as `HandOut` specifies |
| Platform.ClimatePart | src/index.ts:78-82 | one sensor per climate value, in order, carrying its serial and temperature (0 in the legacy build); the sensors are named by handing out `title (deviceArea)` for each value in turn; the registry gains exactly those names |
| Platform.PlugPart | src/index.ts:84-88 | one plug per smart plug, in order, carrying its serial and ON?1:0; the plugs are named by handing out `Smart plug (area)` for each in turn; the registry gains exactly those names |
| Platform.LockPart | src/index.ts:90-96 | one lock per listed door lock, and none without a list; each carries the configured door code and starts SECURED when LOCKED, UNSECURED otherwise; the locks are named by handing out each `area` in turn |
| Platform.OverviewPart | src/index.ts:78-96 | sensors, then plugs, then locks; their names are those handed out for the sensors' base names, then the plugs', then the locks', in turn; the registry gains exactly those names |
| Platform.OverviewPartKeepsDistinct | src/index.ts:78-96 | the overview's devices keep the registry duplicate-free |
| Platform.OverviewPartLayout | src/index.ts:78-96 | the list lays out the sensors, then the plugs, then the locks, each in input order, with their serials and initial values (a lock SECURED exactly when LOCKED, otherwise UNSECURED); it names them by handing out the base names in that order |
| Platform.PassFails | src/index.ts:65-76 | an installation's callback does not resolve exactly when reading the ignore list throws, or when a wanted alarm has an unknown arm state |
| Platform.InstallationPass | src/index.ts:57-98 | a resolved pass lists the alarm when wanted, plus one device per sensor, plug and listed lock |
| Platform.PassLayout | src/index.ts:63-97 | the alarm comes first when wanted, named before everything else, with the giid as serial and the mapped arm state; the overview's devices follow, laid out and named from the registry as the alarm left it |
| Platform.PassNames | src/index.ts:63-97 | a pass only appends to the registry; it keeps the registry duplicate-free; when it resolves, the appended names are its devices' names in order |
| Platform.BuildOverviewPart | src/index.ts:78-96 | builds the sensors, plugs and locks exactly as `OverviewPart` specifies |
| Platform.BuildInstallation | src/index.ts:57-98 | builds one installation's list and updates the registry exactly as `InstallationPass` specifies |
| Platform.Enumerate | src/index.ts:55-100 | yields one outcome per installation, in installation order, and threads the name registry through them |
| Platform.AllResolved | src/index.ts:101 | `Promise.all` yields the lists exactly when every installation resolved, each list in its installation's position |
| Platform.ConcatMembers | src/index.ts:103-107 | a device is in the joined list exactly when it is in one installation's list |
| Platform.Concat | src/index.ts:104-107 | every installation's list fits in the joined list; `ConcatMembers` adds that membership is preserved exactly |
| Platform.Flatten | src/index.ts:104-107 | the `concat` loop joins the lists in installation order |
| Platform.CallbackOf | src/index.ts:101-108 | the callback is called exactly when every installation resolved |
| Platform.ListAccessories | src/index.ts:51-113 | a successful auth stores its token in the session, and a failed one leaves it as it was; an auth or installations error never calls the callback and registers nothing; otherwise the callback receives exactly the joined per-installation lists, or is never called |
| Platform.EnumerationKeepsNames | src/index.ts:55-100 | the whole enumeration only appends to the registry and keeps it duplicate-free |
| Platform.CallbackNames | src/index.ts:55-108 | when the callback is called, the registry gained exactly the names of the devices it received, in order |
| Platform.CallbackNamesDistinct | src/index.ts:55-108 | the devices handed to the callback have pairwise distinct names, none of them registered before |
| Legacy.ReportedError | index.js:309 | a client error is reported through the callback exactly when one is present, and once at most |
| Legacy.LegacySet | index.js:307-321 | the value is applied exactly when a service exists and the set either recovers on the build's code or polls to a settled result; a client error is reported first; at most one more event follows |
| Legacy.AtMostTwoCallbacks | index.js:309-320 | the callback is called at most twice, and twice only after the client reported an error |
| Legacy.ErrorThenRefusal | index.js:309-317 | a client error with a refused response calls back twice: with the error, then with the response |
| Legacy.ErrorThenSuccess | index.js:309-319 | a client error next to an accepted command is reported, and the set still completes after one poll |
| Legacy.NoPollBound | index.js:339-345 | however many NO_DATA replies come first, an accepted command settles on the next result; with NO_DATA replies only, it never calls back |
| Legacy.RecoveryCodesDiffer | index.js:391-397 | a 400 with VAL_00818 recovers in the legacy alarm handler, but not in the legacy lock handler or in the TypeScript handlers |
| Legacy.LegacyWaitForResult | index.js:406-430 | the chain of timer re-polls behaves exactly as `LegacyWait` specifies |
| Legacy.MergedPut | src/api.ts:86-90 | a PUT request supplying uri, method and JSON body merges into the defaults to give exactly the uri, method, headers and body the legacy build spells out |
| Legacy.SameLockCommand | index.js:293-306 | the lock command the TypeScript build sends through `apiCall` equals the one the legacy build spells out |
| Legacy.SameArmCommand | index.js:378-388 | likewise for the arm command |
| Legacy.LegacyAlarmTargetState | index.js:363-375 | the mapped targets are sent as in the TypeScript build; an unmapped target is still sent, as "", which is no known state |
| Legacy.ReportedSearchError | index.js:247 | a client error is reported through the getter's callback exactly when one is present, and once at most |
| Legacy.MatchingNone | index.js:250-251 | no record matches exactly when none has the serial, and every matching record has it |
| Legacy.FirstMatchIsFindFirst | index.js:250-259 | the first record the legacy walk matches is the record the TypeScript search finds, and one exists in both or in neither |
| Legacy.LegacyCurrentLockAnswers | index.js:245-264 | at most two callbacks; none exactly when there is no client error and no record with the serial in a 200 reply; a client error comes first |
| Legacy.LegacyTargetLockAnswers | index.js:277-290 | one callback for a client error, then one per record with the serial in a 200 reply |
| Legacy.MissingLockNeverAnswers | index.js:248-263 | a lock missing from a successful search makes neither getter call back, where the TypeScript getter fails with "Doorlock not found" |
| Legacy.RefusedSearchNeverAnswers | index.js:247-248 | a reply other than 200 without a client error makes neither getter call back |
| Legacy.ErrorThenLockState | index.js:247-258 | a client error next to a successful search calls back twice: with the error, then with the lock state |
| Legacy.DuplicateLabelAnswersTwice | index.js:282-286 | two records with the same serial make the target getter call back twice |
| Legacy.GettersAgreeWhenFound | index.js:248-286 | with no client error and the lock present, the current-state getter answers once with the state that the TypeScript mapping gives for the first match, and the target getter's first answer is that match's target |
| Legacy.LegacyDoorLock.GetCurrentLockState | index.js:236-265 | the loop stops at the first record with the serial; its callbacks are exactly those `LegacyCurrentLockAnswers` gives; `value` becomes that record's state (JAMMED included) and is otherwise unchanged |
| Legacy.LegacyDoorLock.GetTargetLockState | index.js:267-291 | its callbacks are exactly those `LegacyTargetLockAnswers` gives: the loop has no `break`, so there is one per matching record |
| Legacy.LegacyDoorLock.SetTargetLockState | index.js:293-349 | sends the lock command with explicit headers. The callback events are exactly those `LegacySet` gives with VAL_00819. `value` and the shown state become the target exactly when the run applies it |
| Legacy.LegacyAlarm.SetTargetAlarmState | index.js:362-430 | every target is sent. The events are exactly those `LegacySet` gives with VAL_00818, and `value` becomes the target exactly when the run applies it |

## Left out

- The Verisure client library (`auth`, `installations`, `overview`, `_apiClient`) is a foreign call. Its replies are input records. Its field shapes follow src/types.d.ts.
- Timers: the 200 ms interval and timeout are not modelled. Polls are a sequence of outcomes consumed in order.
  - Overlapping interval firings with several polls in flight are not modelled.
  - The missing `clearInterval` on the failure path (src/accessories.ts:71-73) is not modelled.
- Order of arrival: installations are enumerated in list order, and names are assigned in that order. In the source, each overview callback registers its names when its reply arrives, so the real naming order is the arrival order.
- Accessory objects in the enumeration: `Platform` yields `Device` records holding the state each constructor sets. The accessory classes take that precomputed name and initial value in their constructors.
- Homebridge and HAP wiring is not modelled: `registerPlatform`, `getServices` beyond storing the service, `getAccessoryInformation`, and characteristic objects.
- Numeric values of the characteristic constants are not part of these files. Two consequences:
  - The handlers' `!state` tests (src/accessories.ts:220, 260) are modelled as found/not-found. With the host's numbering, where one of the states is 0, that test would also reject a found lock.
  - The locks' numeric `value` (`LOCKED ? 1 : 0`) and `value ? "lock" : "unlock"` are read as SECURED/UNSECURED.
- `JSON.parse` and `typeof body == "string"` (src/api.ts:96; index.js:338, 419) are library built-ins. Bodies are already-parsed records, and a malformed body is not modelled.
- Utils.ParseSuffix: JavaScript's `.` does not match line terminators. The model lets the prefix contain any character.
- Utils.ParseSuffix: `parseInt` of a very long digit run loses precision. The model's numbers are exact.
- Temperatures are copied through as values. No arithmetic is done on them.
- Logging and the text of error messages are not modelled. Errors are distinguished only by kind.
- The legacy temperature and switch getters (index.js:184-214) are not modelled separately. They search the overview as the TypeScript getters do, and fail the same way when the device is missing.
- The legacy plug setter (index.js:216-234) is not modelled. It stores the value and then hands the completion callback straight to the client, so the callback receives the client's raw arguments.
- The legacy `_getCurrentAlarmState` (index.js:351-360) is not modelled as a getter. It reads the undefined variables `err` and `that`, so it always ends in its catch branch.
- An uncaught throw inside a vendor callback (an unknown arm state while building an alarm, or a missing `ignore_alarms` list) is modelled as an installation that never resolves. What the process does after such a throw is not modelled.
- Prototype keys such as `constructor` in the `DeviceType[...]` and `DEVICE_TYPES[...]` lookups are not modelled. Only the enumeration's own keys are found.
