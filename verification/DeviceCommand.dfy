/**
 * Sending one cooking command: the readiness gate and `execute_cook` of app/orchestrator/cook.py.
 * The device, the status query and the child process are inputs; which answer they lead to is code.
 */
module DeviceCommand {
  import opened Options

  /** Every value `code` takes in an answer of `execute_cook`. */
  datatype Code =
    | OK | MISSING_COOK_ID | INVALID_DEVICE_MSG_ID
    | DEVICE_OFFLINE | DEVICE_BUSY | DEVICE_STATUS_UNKNOWN
    | DEVICE_STATUS_FAILED | DEVICE_STATUS_TIMEOUT | DEVICE_STATUS_INVALID
    | DEVICE_OUTCOME_UNKNOWN | DEVICE_COMMAND_REJECTED | DEVICE_INCOMPATIBLE | RECIPE_NOT_FOUND
    | DEVICE_STATE_UNVERIFIED | EXECUTE_EXCEPTION

  /** `command_sent`: present and true, present and false, present and null, or missing. */
  datatype Sent = Yes | No | Null | Absent

  datatype CookResult = CookResult(
    ok: bool, code: Code, sent: Sent, started: Option<bool>, retryable: bool)

  /** The codes after which `_cook_and_format` restores the confirmation. */
  predicate NotReady(code: Code) {
    code in {DEVICE_OFFLINE, DEVICE_BUSY, DEVICE_STATUS_UNKNOWN,
             DEVICE_STATUS_FAILED, DEVICE_STATUS_TIMEOUT, DEVICE_STATUS_INVALID}
  }

  // ---- the status query ----

  datatype StatusCode = QueryOk | QueryFailed | QueryTimeout | QueryInvalid

  /** `attributes.status`: missing or empty, the idle code 0, anything else. */
  datatype Activity = Unreported | Idle | Occupied

  datatype DeviceReport = DeviceReport(
    deviceId: Option<string>, ok: bool, code: Option<StatusCode>, online: Option<bool>, activity: Activity)

  datatype StatusCheck = StatusCheck(code: Option<StatusCode>, devices: seq<DeviceReport>)

  function CodeOfStatus(code: StatusCode): Code {
    match code
    case QueryOk => OK
    case QueryFailed => DEVICE_STATUS_FAILED
    case QueryTimeout => DEVICE_STATUS_TIMEOUT
    case QueryInvalid => DEVICE_STATUS_INVALID
  }

  /** The first report about the device asked for. */
  function FirstReport(devices: seq<DeviceReport>, deviceId: string): (r: Option<DeviceReport>)
    ensures r.Some? ==> r.value in devices && r.value.deviceId == Some(deviceId)
    ensures r.None? <==> forall d :: d in devices ==> d.deviceId != Some(deviceId)
  {
    if devices == [] then None
    else if devices[0].deviceId == Some(deviceId) then Some(devices[0])
    else
      var rest := FirstReport(devices[1..], deviceId);
      assert devices == [devices[0]] + devices[1..];
      rest
  }

  function Selected(check: StatusCheck, deviceId: Option<string>): Option<DeviceReport> {
    match deviceId
    case Some(id) => FirstReport(check.devices, id)
    case None => if |check.devices| == 1 then Some(check.devices[0]) else None
  }

  datatype Readiness = Ready | Blocked(code: Code)

  /** `evaluate_device_readiness`: only "online" together with "idle" lets a command through. */
  function EvaluateReadiness(check: StatusCheck, deviceId: Option<string>): Readiness {
    match Selected(check, deviceId)
    case None => Blocked(if check.code.Some? then CodeOfStatus(check.code.value) else DEVICE_STATUS_UNKNOWN)
    case Some(report) =>
      if !report.ok then
        Blocked(if report.code.Some? then CodeOfStatus(report.code.value) else DEVICE_STATUS_FAILED)
      else if report.online == Some(false) then Blocked(DEVICE_OFFLINE)
      else if report.online != Some(true) || report.activity == Unreported then Blocked(DEVICE_STATUS_UNKNOWN)
      else if report.activity != Idle then Blocked(DEVICE_BUSY)
      else Ready
  }

  // ---- the child process ----

  /** What a failed child process wrote: its first matching marker. */
  datatype Failure = SaysOffline | SaysBusy | SaysIncompatible | SaysUnknownRecipe | SaysOther

  datatype Process =
    | SpawnFailed
    | Raised                                    // any exception after the process exists
    | TimedOut
    | Pushed(polls: seq<Poll>)                  // exit code 0 and the "started" marker
    | Failed(ambiguous: bool, failure: Failure) // ambiguous: dispatch began, no trustworthy answer

  /** One of the three status polls that follow a push. */
  datatype Poll = SeesRunning | SeesNotRunning | PollRaised

  datatype Attempt = Attempt(
    validCookId: bool, validMsgId: bool, status: StatusCheck, deviceId: Option<string>, process: Process)

  const UNKNOWN_OUTCOME := CookResult(false, DEVICE_OUTCOME_UNKNOWN, Null, None, false)

  /** The polling loop: at most three polls, stopping at the first that sees the device running. */
  function AfterPush(polls: seq<Poll>, left: nat): CookResult
    decreases left
  {
    if left == 0 || polls == [] then CookResult(false, DEVICE_STATE_UNVERIFIED, Yes, None, false)
    else
      match polls[0]
      case SeesRunning => CookResult(true, OK, Yes, Some(true), false)
      case PollRaised => UNKNOWN_OUTCOME
      case SeesNotRunning => AfterPush(polls[1..], left - 1)
  }

  function ExecuteCook(a: Attempt): CookResult {
    if !a.validCookId then CookResult(false, MISSING_COOK_ID, No, Some(false), false)
    else if !a.validMsgId then CookResult(false, INVALID_DEVICE_MSG_ID, No, Some(false), false)
    else
      match EvaluateReadiness(a.status, a.deviceId)
      case Blocked(code) => CookResult(false, code, No, Some(false), true)
      case Ready =>
        match a.process
        case SpawnFailed => CookResult(false, EXECUTE_EXCEPTION, No, Some(false), true)
        case Raised => UNKNOWN_OUTCOME
        case TimedOut => UNKNOWN_OUTCOME
        case Pushed(polls) => AfterPush(polls, 3)
        case Failed(ambiguous, failure) =>
          if ambiguous then UNKNOWN_OUTCOME
          else
            var code := match failure
                        case SaysOffline => DEVICE_OFFLINE
                        case SaysBusy => DEVICE_BUSY
                        case SaysIncompatible => DEVICE_INCOMPATIBLE
                        case SaysUnknownRecipe => RECIPE_NOT_FOUND
                        case SaysOther => DEVICE_COMMAND_REJECTED;
            CookResult(false, code, No, Some(false), true)
  }

  lemma {:induction false} AfterPushAnswers(polls: seq<Poll>, left: nat)
    ensures var r := AfterPush(polls, left);
            || r == UNKNOWN_OUTCOME
            || (r.sent == Yes && !r.retryable && (r.ok ==> r.started == Some(true))
                && (r.ok <==> r.code == OK) && (!r.ok ==> r.code == DEVICE_STATE_UNVERIFIED))
    decreases left
  {
    if left > 0 && polls != [] && polls[0] == SeesNotRunning {
      AfterPushAnswers(polls[1..], left - 1);
    }
  }

  /**
   * What every caller of `execute_cook` relies on. A "not ready" code, and a retryable answer, mean that
   * nothing was sent; success means that the device was seen running; an ambiguous outcome is
   * always marked with its own code and never offered for a retry.
   */
  lemma ExecuteCookContract(a: Attempt)
    ensures var r := ExecuteCook(a);
            && r.sent != Absent
            && (NotReady(r.code) ==> r.sent == No)
            && (r.retryable ==> r.sent == No)
            && (r.ok ==> r.sent == Yes && r.started == Some(true))
            && (r.sent == Null <==> r.code == DEVICE_OUTCOME_UNKNOWN)
            && (r.sent == Yes <==> r.ok || r.code == DEVICE_STATE_UNVERIFIED)
  {
    if a.process.Pushed? {
      AfterPushAnswers(a.process.polls, 3);
    }
  }

  /** A command leaves the process only when the chosen device itself reported "online and idle". */
  lemma CommandOnlyToIdleDevice(a: Attempt)
    requires ExecuteCook(a).sent != No
    ensures exists report :: report in a.status.devices && report.ok
              && report.online == Some(true) && report.activity == Idle
              && (a.deviceId.Some? ==> report.deviceId == a.deviceId)
  {
    var chosen := Selected(a.status, a.deviceId);
    assert chosen.Some?;
    assert chosen.value in a.status.devices;
  }

  // ---- branch by branch ----

  /** What a report says of its device: only one that is well, online and idle is ready. */
  lemma ReadinessIsExact(check: StatusCheck, deviceId: Option<string>)
    ensures var chosen, r := Selected(check, deviceId), EvaluateReadiness(check, deviceId);
      && (r == Ready <==>
            chosen.Some? && chosen.value.ok && chosen.value.online == Some(true) && chosen.value.activity == Idle)
      && (chosen.Some? && chosen.value.ok ==>
            && (chosen.value.online == Some(false) ==> r == Blocked(DEVICE_OFFLINE))
            && (chosen.value.online == Some(true) && chosen.value.activity == Occupied ==> r == Blocked(DEVICE_BUSY))
            && (chosen.value.online.None? || (chosen.value.online == Some(true) && chosen.value.activity == Unreported)
                ==> r == Blocked(DEVICE_STATUS_UNKNOWN)))
      && (chosen.Some? && !chosen.value.ok ==>
            r == Blocked(if chosen.value.code.None? then DEVICE_STATUS_FAILED
                         else CodeOfStatus(chosen.value.code.value)))
      && (chosen.None? ==>
            r == Blocked(if check.code.None? then DEVICE_STATUS_UNKNOWN else CodeOfStatus(check.code.value)))
  {
  }

  /** The report used: the first about the device asked for, or the only one if none is asked for. */
  lemma SelectedIsExact(check: StatusCheck, deviceId: Option<string>, k: nat)
    requires k < |check.devices|
    ensures deviceId.Some? && check.devices[k].deviceId == deviceId
            && (forall j :: 0 <= j < k ==> check.devices[j].deviceId != deviceId)
            ==> Selected(check, deviceId) == Some(check.devices[k])
    ensures deviceId.None? && |check.devices| == 1 ==> Selected(check, deviceId) == Some(check.devices[k])
    ensures deviceId.None? && |check.devices| != 1 ==> Selected(check, deviceId).None?
  {
    if deviceId.Some? && check.devices[k].deviceId == deviceId
       && forall j :: 0 <= j < k ==> check.devices[j].deviceId != deviceId {
      FirstReportAt(check.devices, deviceId.value, k);
    }
  }

  lemma {:induction false} FirstReportAt(devices: seq<DeviceReport>, id: string, k: nat)
    requires k < |devices| && devices[k].deviceId == Some(id)
    requires forall j :: 0 <= j < k ==> devices[j].deviceId != Some(id)
    ensures FirstReport(devices, id) == Some(devices[k])
  {
    if k > 0 { FirstReportAt(devices[1..], id, k - 1); }
  }

  /** All polls before this one saw the device not running, and it is one of the first `left`. */
  predicate PollCounts(polls: seq<Poll>, left: nat, k: nat) {
    k < left && k < |polls| && forall j :: 0 <= j < k ==> polls[j] == SeesNotRunning
  }

  lemma PollCountsNext(polls: seq<Poll>, left: nat, k: nat)
    requires left > 0 && polls != [] && polls[0] == SeesNotRunning
    ensures PollCounts(polls[1..], left - 1, k) <==> PollCounts(polls, left, k + 1)
  {
    if PollCounts(polls[1..], left - 1, k) {
      forall j | 0 <= j < k + 1 ensures polls[j] == SeesNotRunning {
        assert j > 0 ==> polls[1..][j - 1] == polls[j];
      }
    }
    if PollCounts(polls, left, k + 1) {
      forall j | 0 <= j < k ensures polls[1..][j] == SeesNotRunning {
        assert polls[j + 1] == SeesNotRunning;
      }
    }
  }

  ghost predicate Decides(polls: seq<Poll>, left: nat, poll: Poll) {
    exists k: nat :: PollCounts(polls, left, k) && polls[k] == poll
  }

  lemma DecidesNext(polls: seq<Poll>, left: nat, poll: Poll)
    requires left > 0 && polls != [] && polls[0] == SeesNotRunning && poll != SeesNotRunning
    ensures Decides(polls, left, poll) <==> Decides(polls[1..], left - 1, poll)
  {
    if k: nat :| PollCounts(polls, left, k) && polls[k] == poll {
      PollCountsNext(polls, left, k - 1);
      assert polls[1..][k - 1] == poll;
    }
    if k: nat :| PollCounts(polls[1..], left - 1, k) && polls[1..][k] == poll {
      PollCountsNext(polls, left, k);
      assert polls[k + 1] == poll;
    }
  }

  /** After a push the first poll that does not see the device idle decides, of at most `left`. */
  lemma {:induction false} PollsAreExact(polls: seq<Poll>, left: nat)
    ensures AfterPush(polls, left).ok <==> Decides(polls, left, SeesRunning)
    ensures AfterPush(polls, left) == UNKNOWN_OUTCOME <==> Decides(polls, left, PollRaised)
    decreases left
  {
    if left > 0 && polls != [] {
      if polls[0] == SeesNotRunning {
        PollsAreExact(polls[1..], left - 1);
        DecidesNext(polls, left, SeesRunning);
        DecidesNext(polls, left, PollRaised);
      } else {
        assert PollCounts(polls, left, 0);
        assert forall k: nat :: PollCounts(polls, left, k) ==> k == 0;
      }
    }
  }

  /**
   * The answer of a valid call, branch by branch: a device that is not ready is not asked; of one that is, the child
   * process decides, and a marker it wrote is passed on.
   */
  lemma ExecuteIsExact(a: Attempt)
    requires a.validCookId && a.validMsgId
    ensures var r, ready := ExecuteCook(a), EvaluateReadiness(a.status, a.deviceId);
      && (ready.Blocked? ==> r == CookResult(false, ready.code, No, Some(false), true))
      && (ready.Ready? && a.process == SpawnFailed ==> r == CookResult(false, EXECUTE_EXCEPTION, No, Some(false), true))
      && (ready.Ready? && (a.process in {Raised, TimedOut} || (a.process.Failed? && a.process.ambiguous)) ==>
            r == CookResult(false, DEVICE_OUTCOME_UNKNOWN, Null, None, false))
      && (ready.Ready? && a.process.Pushed? ==> r == AfterPush(a.process.polls, 3))
      && (ready.Ready? && a.process.Failed? && !a.process.ambiguous ==>
            && r == CookResult(false, r.code, No, Some(false), true)
            && (r.code == DEVICE_OFFLINE <==> a.process.failure == SaysOffline)
            && (r.code == DEVICE_BUSY <==> a.process.failure == SaysBusy)
            && (r.code == DEVICE_INCOMPATIBLE <==> a.process.failure == SaysIncompatible)
            && (r.code == RECIPE_NOT_FOUND <==> a.process.failure == SaysUnknownRecipe)
            && (r.code == DEVICE_COMMAND_REJECTED <==> a.process.failure == SaysOther))
  {
  }

  /** A call without a recipe or a usable message id is refused, and cannot be tried again as it is. */
  lemma InvalidCallsAreRefused(a: Attempt)
    requires !a.validCookId || !a.validMsgId
    ensures ExecuteCook(a)
         == CookResult(false, if !a.validCookId then MISSING_COOK_ID else INVALID_DEVICE_MSG_ID, No, Some(false), false)
  {
  }
}
