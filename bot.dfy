/**
 * The main loop of the bot, one iteration at a time: fetch, validate, render
 * the first homework, send it, advance the timestamp; on any failure send a
 * failure report unless it repeats the last one.
 */
module Bot {
  import opened Wrappers
  import opened Json
  import opened Homework

  const ErrorPrefix := "Сбой в работе программы: "

  /** The failure report for an exception whose text is `description`. */
  function ErrorMessage(description: string): string {
    ErrorPrefix + description
  }

  predicate IsErrorMessage(m: string) {
    |ErrorPrefix| <= |m| && m[..|ErrorPrefix|] == ErrorPrefix
  }

  /**
   * Which send_message the loop calls. AsWritten is the code as it stands: a
   * refused send raises KeyError. Intended is the handler's evident purpose: a
   * refused send yields ''.
   */
  datatype SendBehaviour = AsWritten | Intended

  /** A call of send_message: the value it returns, or the exception it raises. */
  function Send(behaviour: SendBehaviour, message: string, outcome: SendOutcome): (r: Result<string, Error>)
    ensures outcome.Delivered? ==> r == Ok(message)
    ensures behaviour == AsWritten && outcome.TelegramError? ==> r == Err(KeyError(ChatIdField))
    ensures behaviour == Intended && outcome.TelegramError? ==> r == Ok("")
  {
    match behaviour
    case AsWritten => SendMessage(message, outcome)
    case Intended => Ok(SendMessageIntended(message, outcome))
  }

  /** What the body of the `try` achieves: the notification it hands to Telegram, if it gets that far, and the next timestamp or the exception. */
  datatype Attempt = Attempt(notice: Option<string>, outcome: Result<Json, Error>)

  /** `response['current_date']`. */
  function CurrentDate(response: Json): (r: Result<Json, Error>)
    ensures response.JDict? && HasKey(response.members, "current_date") ==>
              r == Ok(Get(response.members, "current_date").value)
    ensures response.JDict? && !HasKey(response.members, "current_date") ==> r == Err(KeyError("current_date"))
  {
    if !response.JDict? then Err(TypeError(NotSubscriptable(response)))
    else
      match Get(response.members, "current_date")
      case Some(date) => Ok(date)
      case None => Err(KeyError("current_date"))
  }

  /** The `try` block of the loop, in the order the source runs it; `noticeSend` is what Telegram does with the notification. */
  function Poll(behaviour: SendBehaviour, timestamp: Json, transport: Json -> Reply, noticeSend: SendOutcome): Attempt {
    match GetApiAnswer(timestamp, transport)
    case Err(e) => Attempt(None, Err(e))
    case Ok(response) =>
      match CheckResponse(response)
      case Err(e) => Attempt(None, Err(e))
      case Ok(homeworks) =>
        if |homeworks| == 0 then Attempt(None, CurrentDate(response))
        else
          match ParseStatus(homeworks[0])
          case Err(e) => Attempt(None, Err(e))
          case Ok(notice) =>
            match Send(behaviour, notice, noticeSend)
            case Err(e) => Attempt(Some(notice), Err(e))
            case Ok(_) => Attempt(Some(notice), CurrentDate(response))
  }

  /**
   * The two loop variables after a tick, the messages handed to the Telegram
   * client during it, and the exception that escaped the loop and ended the
   * process, if any.
   */
  datatype Tock = Tock(timestamp: Json, lastMessage: string, sends: seq<string>, escaped: Option<Error>)

  function Notices(a: Attempt): seq<string> {
    if a.notice.Some? then [a.notice.value] else []
  }

  /**
   * One iteration of the loop. `noticeSend` and `errorSend` are what Telegram
   * does with the notification and with the failure report; `describe` gives
   * the text of an exception.
   */
  function Step(behaviour: SendBehaviour, timestamp: Json, lastMessage: string, transport: Json -> Reply,
                noticeSend: SendOutcome, errorSend: SendOutcome, describe: Error -> string): Tock
  {
    var a := Poll(behaviour, timestamp, transport, noticeSend);
    match a.outcome
    case Ok(next) => Tock(next, lastMessage, Notices(a), None)
    case Err(e) =>
      var message := ErrorMessage(describe(e));
      if message != lastMessage || lastMessage == "" then
        match Send(behaviour, message, errorSend)
        case Ok(sent) => Tock(timestamp, sent, Notices(a) + [message], None)
        // raised inside the `except` handler: nothing catches it
        case Err(fatal) => Tock(timestamp, lastMessage, Notices(a) + [message], Some(fatal))
      else Tock(timestamp, lastMessage, Notices(a), None)
  }

  /**
   * What the outside world does in one tick: how the endpoint answers (each
   * pass makes a new request, so the answer may change from pass to pass), and
   * what Telegram does with the notification and with the failure report.
   */
  datatype Fates = Fates(transport: Json -> Reply, notice: SendOutcome, report: SendOutcome)

  /** Ticks in a row, one per element of `fates`, until the fates run out or an exception ends the loop. */
  function Run(behaviour: SendBehaviour, timestamp: Json, lastMessage: string,
               fates: seq<Fates>, describe: Error -> string): Tock
    decreases |fates|
  {
    if fates == [] then Tock(timestamp, lastMessage, [], None)
    else
      var t := Step(behaviour, timestamp, lastMessage, fates[0].transport, fates[0].notice, fates[0].report, describe);
      if t.escaped.Some? then t
      else
        var rest := Run(behaviour, t.timestamp, t.lastMessage, fates[1..], describe);
        Tock(rest.timestamp, rest.lastMessage, t.sends + rest.sends, rest.escaped)
  }

  /** The bot's loop state: the query timestamp and the last failure report handed back by send_message. */
  class Poller {
    var currentTimestamp: Json
    var lastMessage: string

    /** Entering main: the timestamp is the current time, nothing has been reported. */
    constructor (now: int)
      ensures currentTimestamp == JInt(now) && lastMessage == ""
    {
      currentTimestamp := JInt(now);
      lastMessage := "";
    }

    /**
     * One pass of the `while True` body, with send_message as written. Returns
     * the messages passed to the Telegram client and the exception, if any,
     * that escapes the loop.
     */
    method Tick(transport: Json -> Reply, noticeSend: SendOutcome, errorSend: SendOutcome, describe: Error -> string)
      returns (sends: seq<string>, escaped: Option<Error>)
      modifies this
      ensures Tock(currentTimestamp, lastMessage, sends, escaped) ==
              Step(AsWritten, old(currentTimestamp), old(lastMessage), transport, noticeSend, errorSend, describe)
    {
      sends, escaped := [], None;
      var failure: Option<Error> := None;
      var answer := GetApiAnswer(currentTimestamp, transport);
      if answer.Err? {
        failure := Some(answer.error);
      } else {
        var response := answer.value;
        var checked := CheckResponse(response);
        if checked.Err? {
          failure := Some(checked.error);
        } else {
          var homeworks := checked.value;
          if |homeworks| > 0 {
            var parsed := ParseStatus(homeworks[0]);
            if parsed.Err? {
              failure := Some(parsed.error);
            } else {
              sends := sends + [parsed.value];
              var sent := SendMessage(parsed.value, noticeSend);
              if sent.Err? {
                failure := Some(sent.error);
              }
            }
          }
          if failure.None? {
            var date := CurrentDate(response);
            if date.Err? {
              failure := Some(date.error);
            } else {
              currentTimestamp := date.value;
            }
          }
        }
      }
      if failure.Some? {
        var message := ErrorMessage(describe(failure.value));
        if message != lastMessage || lastMessage == "" {
          sends := sends + [message];
          var sent := SendMessage(message, errorSend);
          if sent.Err? {
            escaped := Some(sent.error);
          } else {
            lastMessage := sent.value;
          }
        }
      }
    }
  }

  /** An empty homework list sends nothing and moves the timestamp to the reported `current_date`. */
  lemma EmptyListTick(behaviour: SendBehaviour, timestamp: Json, lastMessage: string, transport: Json -> Reply,
                      noticeSend: SendOutcome, errorSend: SendOutcome, describe: Error -> string, response: Json)
    requires GetApiAnswer(timestamp, transport) == Ok(response)
    requires CheckResponse(response) == Ok([])
    requires HasKey(response.members, "current_date")
    ensures Step(behaviour, timestamp, lastMessage, transport, noticeSend, errorSend, describe) ==
            Tock(Get(response.members, "current_date").value, lastMessage, [], None)
  {
  }

  /**
   * A non-empty list hands the first homework's notification, and nothing
   * else, to Telegram. If Telegram accepts it, the timestamp moves on and
   * last_message stays.
   */
  lemma FirstHomeworkTick(behaviour: SendBehaviour, timestamp: Json, lastMessage: string, transport: Json -> Reply,
                          errorSend: SendOutcome, describe: Error -> string,
                          response: Json, first: Json, later: seq<Json>, notice: string)
    requires GetApiAnswer(timestamp, transport) == Ok(response)
    requires CheckResponse(response) == Ok([first] + later)
    requires ParseStatus(first) == Ok(notice)
    requires HasKey(response.members, "current_date")
    ensures Step(behaviour, timestamp, lastMessage, transport, Delivered, errorSend, describe) ==
            Tock(Get(response.members, "current_date").value, lastMessage, [notice], None)
  {
  }

  /**
   * As written, a notification Telegram refuses fails the pass. The timestamp
   * stays, and the KeyError raised by send_message is reported like any other
   * failure.
   */
  lemma RefusedNoticeFailsTick(timestamp: Json, lastMessage: string, transport: Json -> Reply,
                               detail: string, errorSend: SendOutcome, describe: Error -> string,
                               response: Json, first: Json, later: seq<Json>, notice: string)
    requires GetApiAnswer(timestamp, transport) == Ok(response)
    requires CheckResponse(response) == Ok([first] + later)
    requires ParseStatus(first) == Ok(notice)
    ensures Poll(AsWritten, timestamp, transport, TelegramError(detail)) == Attempt(Some(notice), Err(KeyError(ChatIdField)))
    ensures var t := Step(AsWritten, timestamp, lastMessage, transport, TelegramError(detail), errorSend, describe);
            var message := ErrorMessage(describe(KeyError(ChatIdField)));
            && t.timestamp == timestamp
            && t.sends == (if message != lastMessage then [notice, message] else [notice])
  {
    FailureReportNeverEmpty(describe(KeyError(ChatIdField)), lastMessage);
  }

  /**
   * The timestamp changes only when the whole `try` block succeeds, sending
   * included, and then takes the reported value; a success leaves last_message
   * alone.
   */
  lemma TimestampOnlyOnSuccess(behaviour: SendBehaviour, timestamp: Json, lastMessage: string, transport: Json -> Reply,
                               noticeSend: SendOutcome, errorSend: SendOutcome, describe: Error -> string)
    ensures var a := Poll(behaviour, timestamp, transport, noticeSend);
            var t := Step(behaviour, timestamp, lastMessage, transport, noticeSend, errorSend, describe);
            && (a.outcome.Ok? ==> t == Tock(a.outcome.value, lastMessage, Notices(a), None))
            && (a.outcome.Err? ==> t.timestamp == timestamp)
            && (behaviour == AsWritten && a.notice.Some? && noticeSend.TelegramError? ==>
                  a.outcome.Err? && t.timestamp == timestamp)
  {
  }

  /**
   * A failure report is handed to Telegram exactly when it differs from
   * last_message. If Telegram accepts it, it becomes last_message. If Telegram
   * refuses it, the code as written lets the KeyError end the loop with
   * last_message unchanged, and the intended code sets last_message to ''.
   */
  lemma FailureReportDedup(behaviour: SendBehaviour, timestamp: Json, lastMessage: string, transport: Json -> Reply,
                           noticeSend: SendOutcome, errorSend: SendOutcome, describe: Error -> string, e: Error)
    requires Poll(behaviour, timestamp, transport, noticeSend).outcome == Err(e)
    ensures var a := Poll(behaviour, timestamp, transport, noticeSend);
            var t := Step(behaviour, timestamp, lastMessage, transport, noticeSend, errorSend, describe);
            var message := ErrorMessage(describe(e));
            && t.timestamp == timestamp
            && (message != lastMessage ==>
                  && t.sends == Notices(a) + [message]
                  && (errorSend.Delivered? ==> t.lastMessage == message && t.escaped == None)
                  && (errorSend.TelegramError? && behaviour == AsWritten ==>
                        t.lastMessage == lastMessage && t.escaped == Some(KeyError(ChatIdField)))
                  && (errorSend.TelegramError? && behaviour == Intended ==>
                        t.lastMessage == "" && t.escaped == None))
            && (message == lastMessage ==> t == Tock(timestamp, lastMessage, Notices(a), None))
  {
    FailureReportNeverEmpty(describe(e), lastMessage);
  }

  /** The `last_message == ''` half of the guard never decides anything: a failure report is never empty. */
  lemma FailureReportNeverEmpty(description: string, last: string)
    ensures ErrorMessage(description) != ""
    ensures (ErrorMessage(description) != last || last == "") <==> ErrorMessage(description) != last
  {
    assert |ErrorMessage(description)| >= |ErrorPrefix|;
  }

  /** A notification about a homework is never a failure report. */
  lemma NoticeIsNotFailureReport(homework: Json, description: string)
    requires ParseStatus(homework).Ok?
    ensures ParseStatus(homework).value != ErrorMessage(description)
  {
    var notice := ParseStatus(homework).value;
    assert notice[0] == NoticePrefix[0];
    assert ErrorMessage(description)[0] == ErrorPrefix[0];
  }

  /** A notice handed out by Poll is never the failure report for `description`. */
  lemma NoticesAreNotFailureReports(behaviour: SendBehaviour, timestamp: Json, transport: Json -> Reply,
                                    noticeSend: SendOutcome, description: string)
    ensures ErrorMessage(description) !in Notices(Poll(behaviour, timestamp, transport, noticeSend))
  {
    var a := Poll(behaviour, timestamp, transport, noticeSend);
    if a.notice.Some? {
      var response := GetApiAnswer(timestamp, transport).value;
      var homeworks := CheckResponse(response).value;
      NoticeIsNotFailureReport(homeworks[0], description);
    }
  }

  /**
   * Every tick leaves last_message '' or a failure report. As written, a
   * non-empty last_message never becomes '' again.
   */
  lemma StepKeepsLastMessageShape(behaviour: SendBehaviour, timestamp: Json, lastMessage: string, transport: Json -> Reply,
                                  noticeSend: SendOutcome, errorSend: SendOutcome, describe: Error -> string)
    requires lastMessage == "" || IsErrorMessage(lastMessage)
    ensures var t := Step(behaviour, timestamp, lastMessage, transport, noticeSend, errorSend, describe);
            && (t.lastMessage == "" || IsErrorMessage(t.lastMessage))
            && (behaviour == AsWritten && lastMessage != "" ==> t.lastMessage != "")
  {
    var a := Poll(behaviour, timestamp, transport, noticeSend);
    if a.outcome.Err? {
      var message := ErrorMessage(describe(a.outcome.error));
      assert message[..|ErrorPrefix|] == ErrorPrefix;
    }
  }

  /** Two failing ticks in a row whose first report got through report once if the report is new, never if it repeats last_message. */
  lemma RepeatedFailureReportsOnce(behaviour: SendBehaviour, timestamp: Json, lastMessage: string, transport: Json -> Reply,
                                   noticeSend: SendOutcome, send2: SendOutcome, describe: Error -> string, e: Error)
    requires Poll(behaviour, timestamp, transport, noticeSend).outcome == Err(e)
    ensures var n := Notices(Poll(behaviour, timestamp, transport, noticeSend));
            var message := ErrorMessage(describe(e));
            var t1 := Step(behaviour, timestamp, lastMessage, transport, noticeSend, Delivered, describe);
            var t2 := Step(behaviour, t1.timestamp, t1.lastMessage, transport, noticeSend, send2, describe);
            && t1.escaped == None && t2 == Tock(timestamp, message, n, None)
            && t1.sends + t2.sends == (if message != lastMessage then n + [message] + n else n + n)
  {
    FailureReportDedup(behaviour, timestamp, lastMessage, transport, noticeSend, Delivered, describe, e);
    var t1 := Step(behaviour, timestamp, lastMessage, transport, noticeSend, Delivered, describe);
    FailureReportDedup(behaviour, t1.timestamp, t1.lastMessage, transport, noticeSend, send2, describe, e);
  }

  /** As written, a failure report Telegram refuses ends the loop: the KeyError escapes and the state is left as it was. */
  lemma RefusedReportEndsLoop(timestamp: Json, lastMessage: string, transport: Json -> Reply,
                              noticeSend: SendOutcome, detail: string, describe: Error -> string, e: Error,
                              fates: seq<Fates>)
    requires Poll(AsWritten, timestamp, transport, noticeSend).outcome == Err(e)
    requires ErrorMessage(describe(e)) != lastMessage
    ensures var n := Notices(Poll(AsWritten, timestamp, transport, noticeSend));
            Run(AsWritten, timestamp, lastMessage, [Fates(transport, noticeSend, TelegramError(detail))] + fates, describe) ==
              Tock(timestamp, lastMessage, n + [ErrorMessage(describe(e))], Some(KeyError(ChatIdField)))
  {
    FailureReportDedup(AsWritten, timestamp, lastMessage, transport, noticeSend, TelegramError(detail), describe, e);
  }

  /**
   * With send_message as intended, a refused report leaves last_message '',
   * so the same failure is reported again on the next tick.
   */
  lemma FailedSendReArms(timestamp: Json, lastMessage: string, transport: Json -> Reply,
                         noticeSend: SendOutcome, detail: string, send2: SendOutcome, describe: Error -> string, e: Error)
    requires Poll(Intended, timestamp, transport, noticeSend).outcome == Err(e)
    requires ErrorMessage(describe(e)) != lastMessage
    ensures var n := Notices(Poll(Intended, timestamp, transport, noticeSend));
            var message := ErrorMessage(describe(e));
            var t1 := Step(Intended, timestamp, lastMessage, transport, noticeSend, TelegramError(detail), describe);
            var t2 := Step(Intended, t1.timestamp, t1.lastMessage, transport, noticeSend, send2, describe);
            && t1 == Tock(timestamp, "", n + [message], None)
            && t2.sends == n + [message]
            && t2.lastMessage == SendMessageIntended(message, send2)
  {
    FailureReportDedup(Intended, timestamp, lastMessage, transport, noticeSend, TelegramError(detail), describe, e);
    var t1 := Step(Intended, timestamp, lastMessage, transport, noticeSend, TelegramError(detail), describe);
    FailureReportDedup(Intended, t1.timestamp, t1.lastMessage, transport, noticeSend, send2, describe, e);
  }

  /**
   * A successful tick does not clear last_message: a failure that comes back
   * after a recovery, with the same text, is not reported again.
   */
  lemma DedupOutlivesRecovery(behaviour: SendBehaviour, lastMessage: string,
                              timestamp1: Json, transport1: Json -> Reply, noticeSend1: SendOutcome,
                              timestamp2: Json, transport2: Json -> Reply, noticeSend2: SendOutcome,
                              errorSend: SendOutcome, describe: Error -> string, e: Error)
    requires Poll(behaviour, timestamp1, transport1, noticeSend1).outcome.Ok?
    requires Poll(behaviour, timestamp2, transport2, noticeSend2).outcome == Err(e)
    requires lastMessage == ErrorMessage(describe(e))
    ensures var t1 := Step(behaviour, timestamp1, lastMessage, transport1, noticeSend1, errorSend, describe);
            var t2 := Step(behaviour, timestamp2, t1.lastMessage, transport2, noticeSend2, errorSend, describe);
            t1.lastMessage == lastMessage && t2.sends == Notices(Poll(behaviour, timestamp2, transport2, noticeSend2)) &&
            t2.escaped == None
  {
    FailureReportNeverEmpty(describe(e), lastMessage);
  }

  /** How often `x` occurs in `s`. */
  function Count(x: string, s: seq<string>): nat {
    if s == [] then 0 else (if s[0] == x then 1 else 0) + Count(x, s[1..])
  }

  lemma {:induction false} CountAppend(x: string, s: seq<string>, u: seq<string>)
    ensures Count(x, s + u) == Count(x, s) + Count(x, u)
  {
    if s == [] {
      assert s + u == u;
    } else {
      assert (s + u)[1..] == s[1..] + u;
      CountAppend(x, s[1..], u);
    }
  }

  /**
   * A lasting outage during which Telegram accepts every message is reported
   * at most once, however many ticks it lasts: once if the report is new,
   * never if it is the last one already. The endpoint may answer differently
   * on each pass, as long as every pass fails with the same exception. The
   * loop keeps running.
   */
  lemma {:induction false} OutageReportedOnce(behaviour: SendBehaviour, timestamp: Json, lastMessage: string,
                                              fates: seq<Fates>, describe: Error -> string, e: Error)
    requires forall k :: 0 <= k < |fates| ==>
               fates[k].notice.Delivered? && fates[k].report.Delivered? &&
               Poll(behaviour, timestamp, fates[k].transport, Delivered).outcome == Err(e)
    decreases |fates|
    ensures var message := ErrorMessage(describe(e));
            var t := Run(behaviour, timestamp, lastMessage, fates, describe);
            && t.timestamp == timestamp && t.escaped == None
            && Count(message, t.sends) == (if message != lastMessage && |fates| > 0 then 1 else 0)
            && (|fates| > 0 ==> t.lastMessage == message)
            && (|fates| == 0 ==> t.lastMessage == lastMessage)
  {
    if fates != [] {
      var message := ErrorMessage(describe(e));
      var transport := fates[0].transport;
      var n := Notices(Poll(behaviour, timestamp, transport, Delivered));
      NoticesAreNotFailureReports(behaviour, timestamp, transport, Delivered, describe(e));
      assert Count(message, n) == 0;
      FailureReportDedup(behaviour, timestamp, lastMessage, transport, Delivered, Delivered, describe, e);
      var t1 := Step(behaviour, timestamp, lastMessage, transport, Delivered, Delivered, describe);
      assert forall k :: 0 <= k < |fates[1..]| ==> fates[1..][k] == fates[k + 1];
      OutageReportedOnce(behaviour, timestamp, message, fates[1..], describe, e);
      var rest := Run(behaviour, t1.timestamp, t1.lastMessage, fates[1..], describe);
      CountAppend(message, t1.sends, rest.sends);
      if message != lastMessage {
        CountAppend(message, n, [message]);
      }
    }
  }

  /**
   * An outage that ends: passes that all fail with the same exception, then
   * one pass that succeeds. The failure is reported at most once, the
   * timestamp moves only on the last pass, and last_message still holds the
   * report, so the same failure, should it come back, is not reported again.
   */
  lemma {:induction false} OutageThenRecovery(behaviour: SendBehaviour, timestamp: Json, lastMessage: string,
                                              fates: seq<Fates>, up: Json -> Reply,
                                              describe: Error -> string, e: Error)
    requires forall k :: 0 <= k < |fates| ==>
               fates[k].notice.Delivered? && fates[k].report.Delivered? &&
               Poll(behaviour, timestamp, fates[k].transport, Delivered).outcome == Err(e)
    requires Poll(behaviour, timestamp, up, Delivered).outcome.Ok?
    decreases |fates|
    ensures var message := ErrorMessage(describe(e));
            var t := Run(behaviour, timestamp, lastMessage, fates + [Fates(up, Delivered, Delivered)], describe);
            && t.timestamp == Poll(behaviour, timestamp, up, Delivered).outcome.value
            && t.escaped == None
            && t.lastMessage == (if |fates| > 0 then message else lastMessage)
            && Count(message, t.sends) == (if message != lastMessage && |fates| > 0 then 1 else 0)
  {
    var message := ErrorMessage(describe(e));
    var all := fates + [Fates(up, Delivered, Delivered)];
    if fates == [] {
      assert all == [Fates(up, Delivered, Delivered)];
      SucceedingPass(behaviour, timestamp, lastMessage, up, describe);
      NoticesAreNotFailureReports(behaviour, timestamp, up, Delivered, describe(e));
    } else {
      assert fates[0] == Fates(fates[0].transport, Delivered, Delivered);
      assert all == [fates[0]] + (fates[1..] + [Fates(up, Delivered, Delivered)]);
      assert forall k :: 0 <= k < |fates[1..]| ==> fates[1..][k] == fates[k + 1];
      FailingPassThen(behaviour, timestamp, lastMessage, fates[0].transport, fates[1..] + [Fates(up, Delivered, Delivered)], describe, e);
      OutageThenRecovery(behaviour, timestamp, message, fates[1..], up, describe, e);
      var t1 := Step(behaviour, timestamp, lastMessage, fates[0].transport, Delivered, Delivered, describe);
      var rest := Run(behaviour, timestamp, message, fates[1..] + [Fates(up, Delivered, Delivered)], describe);
      CountAppend(message, t1.sends, rest.sends);
    }
  }

  /** A run of one pass that succeeds moves the timestamp and sends only the notifications. */
  lemma SucceedingPass(behaviour: SendBehaviour, timestamp: Json, lastMessage: string,
                       up: Json -> Reply, describe: Error -> string)
    requires Poll(behaviour, timestamp, up, Delivered).outcome.Ok?
    ensures var a := Poll(behaviour, timestamp, up, Delivered);
            Run(behaviour, timestamp, lastMessage, [Fates(up, Delivered, Delivered)], describe) ==
              Tock(a.outcome.value, lastMessage, Notices(a), None)
  {
    assert [Fates(up, Delivered, Delivered)][1..] == [];
  }

  /**
   * A pass that fails with `e` while Telegram accepts everything, followed by
   * more passes: the failure is reported if new and last_message becomes the
   * report before the rest of the run.
   */
  lemma FailingPassThen(behaviour: SendBehaviour, timestamp: Json, lastMessage: string,
                        down: Json -> Reply, rest: seq<Fates>, describe: Error -> string, e: Error)
    requires Poll(behaviour, timestamp, down, Delivered).outcome == Err(e)
    ensures var message := ErrorMessage(describe(e));
            var t1 := Step(behaviour, timestamp, lastMessage, down, Delivered, Delivered, describe);
            var r := Run(behaviour, timestamp, message, rest, describe);
            && Run(behaviour, timestamp, lastMessage, [Fates(down, Delivered, Delivered)] + rest, describe) ==
                 Tock(r.timestamp, r.lastMessage, t1.sends + r.sends, r.escaped)
            && Count(message, t1.sends) == (if message != lastMessage then 1 else 0)
  {
    var message := ErrorMessage(describe(e));
    var all := [Fates(down, Delivered, Delivered)] + rest;
    assert all[0] == Fates(down, Delivered, Delivered) && all[1..] == rest;
    var n := Notices(Poll(behaviour, timestamp, down, Delivered));
    NoticesAreNotFailureReports(behaviour, timestamp, down, Delivered, describe(e));
    assert Count(message, n) == 0;
    FailureReportDedup(behaviour, timestamp, lastMessage, down, Delivered, Delivered, describe, e);
    if message != lastMessage {
      CountAppend(message, n, [message]);
    }
  }
}
