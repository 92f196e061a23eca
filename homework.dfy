/**
 * The pure steps of the homework-status bot: classifying the status endpoint's
 * reply, validating its shape, rendering one homework as a notification, the
 * token check and the return value of a Telegram send.
 */
module Homework {
  import opened Wrappers
  import opened Json

  /** The verdict sentence for each documented homework status. */
  const HomeworkVerdicts: map<string, string> := map[
    "approved" := "Работа проверена: ревьюеру всё понравилось. Ура!",
    "reviewing" := "Работа взята на проверку ревьюером.",
    "rejected" := "Работа проверена: у ревьюера есть замечания."
  ]

  /** What a TypeError raised along the way complains about. */
  datatype TypeCause =
    | NotIterable(value: Json)       // `'error' in x` on None, a bool or an int
    | NotDict                        // the reply is not a dict
    | NotList                        // `homeworks` is not a list
    | NotSubscriptable(value: Json)  // `x['homework_name']` on a non-dict
    | Unhashable(value: Json)        // a list or dict status looked up in the verdict table

  /**
   * The exceptions that reach the main loop. Each carries what the text of the
   * Python exception depends on (the endpoint and headers are fixed for a run),
   * so equal errors have equal texts.
   */
  datatype Error =
    | RequestException(detail: string, params: Json)
    | StatusCodeError(statusCode: int, params: Json)
    | JsonDecodeError(detail: string)
    | ServerError(error: Json, code: Json, params: Json)
    | AttributeError(value: Json)    // `.get` on a non-dict reply that mentions error/code
    | TypeError(cause: TypeCause)
    | KeyError(key: string)
    | ValueError(status: Json, name: Json)

  /** The body of an HTTP reply, as `.json()` sees it. */
  datatype Body = Decoded(value: Json) | Undecodable(detail: string)

  /** What `requests.get` yields: a failure to complete the request, or a reply. */
  datatype Reply = Unreachable(detail: string) | HttpReply(statusCode: int, body: Body)

  /** What the Telegram client does with one message. */
  datatype SendOutcome = Delivered | TelegramError(detail: string)

  /** The query parameters of the status request. */
  function Params(timestamp: Json): (p: Json)
    ensures p.JDict? && Get(p.members, "from_date") == Some(timestamp)
  {
    JDict([("from_date", timestamp)])
  }

  /** Python's `key in container`. */
  function Contains(container: Json, key: string): Result<bool, Error> {
    match container
    case JDict(members) => Ok(HasKey(members, key))
    case JList(items) => Ok(JStr(key) in items)
    case JStr(s) => Ok(IsSubstring(key, s))
    case _ => Err(TypeError(NotIterable(container)))
  }

  /** A decoded reply that `'error' in r or 'code' in r` lets through. */
  predicate FaultFree(result: Json) {
    match result
    case JDict(members) => !HasKey(members, "error") && !HasKey(members, "code")
    case JList(items) => JStr("error") !in items && JStr("code") !in items
    case JStr(s) => !IsSubstring("error", s) && !IsSubstring("code", s)
    case _ => false
  }

  /**
   * get_api_answer: ask the endpoint for the statuses changed since `timestamp`
   * and classify the reply. `transport` stands for the HTTP client: it maps the
   * query parameters to what the request yields.
   */
  function GetApiAnswer(timestamp: Json, transport: Json -> Reply): (r: Result<Json, Error>)
    ensures var reply := transport(Params(timestamp));
      reply.Unreachable? ==> r == Err(RequestException(reply.detail, Params(timestamp)))
    ensures var reply := transport(Params(timestamp));
      reply.HttpReply? && reply.statusCode != 200 ==>
        r == Err(StatusCodeError(reply.statusCode, Params(timestamp)))
    ensures var reply := transport(Params(timestamp));
      reply.HttpReply? && reply.statusCode == 200 && reply.body.Undecodable? ==>
        r == Err(JsonDecodeError(reply.body.detail))
    ensures var reply := transport(Params(timestamp));
      reply.HttpReply? && reply.statusCode == 200 && reply.body.Decoded? && reply.body.value.JDict? &&
      !FaultFree(reply.body.value) ==>
        var members := reply.body.value.members;
        r == Err(ServerError(GetOrNull(members, "error"), GetOrNull(members, "code"), Params(timestamp)))
    ensures var reply := transport(Params(timestamp));
      reply.HttpReply? && reply.statusCode == 200 && reply.body.Decoded? &&
      (reply.body.value.JNull? || reply.body.value.JBool? || reply.body.value.JInt?) ==>
        r == Err(TypeError(NotIterable(reply.body.value)))
    ensures var reply := transport(Params(timestamp));
      reply.HttpReply? && reply.statusCode == 200 && reply.body.Decoded? &&
      (reply.body.value.JList? || reply.body.value.JStr?) && !FaultFree(reply.body.value) ==>
        r == Err(AttributeError(reply.body.value))
    ensures var reply := transport(Params(timestamp));
      reply.HttpReply? && reply.statusCode == 200 && reply.body.Decoded? && FaultFree(reply.body.value) ==>
        r == Ok(reply.body.value)
    ensures r.Ok? ==> transport(Params(timestamp)) == HttpReply(200, Decoded(r.value)) && FaultFree(r.value)
  {
    var params := Params(timestamp);
    match transport(params)
    case Unreachable(detail) => Err(RequestException(detail, params))
    case HttpReply(statusCode, body) =>
      if statusCode != 200 then Err(StatusCodeError(statusCode, params))
      else
        match body
        case Undecodable(detail) => Err(JsonDecodeError(detail))
        case Decoded(result) =>
          var hasError :- Contains(result, "error");
          // `or` tests its right operand only when the left one is false; once the
          // first `in` has not raised, `result` is iterable and the second cannot raise
          var flagged := hasError || Contains(result, "code").value;
          if !flagged then Ok(result)
          // the arguments of the exception message call result.get
          else if result.JDict? then
            Err(ServerError(GetOrNull(result.members, "error"), GetOrNull(result.members, "code"), params))
          else Err(AttributeError(result))
  }

  /** check_response: the reply must be a dict whose `homeworks` entry is a list. */
  function CheckResponse(response: Json): (r: Result<seq<Json>, Error>)
    ensures !response.JDict? ==> r == Err(TypeError(NotDict))
    ensures response.JDict? && !HasKey(response.members, "homeworks") ==> r == Err(KeyError("homeworks"))
    ensures (response.JDict? && HasKey(response.members, "homeworks") &&
             !Get(response.members, "homeworks").value.JList?) ==> r == Err(TypeError(NotList))
    ensures r.Ok? <==> response.JDict? && HasKey(response.members, "homeworks") &&
                       Get(response.members, "homeworks").value.JList?
    ensures r.Ok? ==> Get(response.members, "homeworks") == Some(JList(r.value))
  {
    if !response.JDict? then Err(TypeError(NotDict))
    else
      match Get(response.members, "homeworks")
      case None => Err(KeyError("homeworks"))
      case Some(JList(homeworks)) => Ok(homeworks)
      case Some(_) => Err(TypeError(NotList))
  }

  /** A reply that stores a list under `homeworks` passes the check with exactly that list. */
  lemma CheckResponseReturnsHomeworks(members: seq<(string, Json)>, homeworks: seq<Json>)
    ensures CheckResponse(JDict(Put(members, "homeworks", JList(homeworks)))) == Ok(homeworks)
  {
  }

  const NoticePrefix := "Изменился статус проверки работы \""
  const NoticeSeparator := "\". "

  /** The notification for a homework called `name` with the given verdict sentence. */
  function Notification(name: string, verdict: string): string {
    NoticePrefix + name + NoticeSeparator + verdict
  }

  /** A status that `status in HOMEWORK_VERDICTS` accepts. */
  predicate IsDocumented(status: Json) {
    status.JStr? && status.s in HomeworkVerdicts
  }

  /** parse_status: render one homework, or fail when a field is missing or its status undocumented. */
  function ParseStatus(homework: Json): (r: Result<string, Error>)
    ensures !homework.JDict? ==> r == Err(TypeError(NotSubscriptable(homework)))
    ensures homework.JDict? && !HasKey(homework.members, "homework_name") ==>
              r == Err(KeyError("homework_name"))
    ensures (homework.JDict? && HasKey(homework.members, "homework_name") &&
             !HasKey(homework.members, "status")) ==> r == Err(KeyError("status"))
    ensures homework.JDict? && HasKey(homework.members, "homework_name") && HasKey(homework.members, "status") ==>
              var name := Get(homework.members, "homework_name").value;
              var status := Get(homework.members, "status").value;
              && (status.JList? || status.JDict? ==> r == Err(TypeError(Unhashable(status))))
              && (!status.JList? && !status.JDict? && !IsDocumented(status) ==> r == Err(ValueError(status, name)))
              && (IsDocumented(status) ==> r == Ok(Notification(PyStr(name), HomeworkVerdicts[status.s])))
    ensures r.Ok? <==> homework.JDict? && HasKey(homework.members, "homework_name") &&
                       HasKey(homework.members, "status") && IsDocumented(Get(homework.members, "status").value)
  {
    if !homework.JDict? then Err(TypeError(NotSubscriptable(homework)))
    else
      match Get(homework.members, "homework_name")
      case None => Err(KeyError("homework_name"))
      case Some(name) =>
        match Get(homework.members, "status")
        case None => Err(KeyError("status"))
        case Some(status) =>
          if status.JList? || status.JDict? then Err(TypeError(Unhashable(status)))
          else if !IsDocumented(status) then Err(ValueError(status, name))
          else Ok(Notification(PyStr(name), HomeworkVerdicts[status.s]))
  }

  predicate EndsWith(s: string, suffix: string) {
    |suffix| <= |s| && s[|s| - |suffix|..] == suffix
  }

  /** Everything of a notification after the homework name, for a documented status. */
  function Ending(status: string): string
    requires status in HomeworkVerdicts
  {
    NoticeSeparator + HomeworkVerdicts[status]
  }

  /** The documented status codes, in the order the verdict table lists them. */
  const StatusCodes: seq<string> := ["approved", "reviewing", "rejected"]

  /** The first of `codes` whose ending `rest` carries. */
  function FindStatus(rest: string, codes: seq<string>): (r: Option<string>)
    requires forall c <- codes :: c in HomeworkVerdicts
    ensures r.Some? ==> r.value in codes && EndsWith(rest, Ending(r.value))
  {
    if codes == [] then None
    else if EndsWith(rest, Ending(codes[0])) then Some(codes[0])
    else FindStatus(rest, codes[1..])
  }

  /**
   * Read a notification back: the homework name and status code it reports, or
   * None when the text is not a notification.
   */
  function ReadNotification(m: string): (r: Option<(string, string)>)
    ensures r.Some? ==> r.value.1 in HomeworkVerdicts && m == Notification(r.value.0, HomeworkVerdicts[r.value.1])
  {
    if |m| < |NoticePrefix| || m[..|NoticePrefix|] != NoticePrefix then None
    else
      var rest := m[|NoticePrefix|..];
      match FindStatus(rest, StatusCodes)
      case None => None
      case Some(status) =>
        var name := rest[..|rest| - |Ending(status)|];
        Rejoin(m, |NoticePrefix|);
        Rejoin(rest, |rest| - |Ending(status)|);
        Some((name, status))
  }

  /** Cutting a string and joining the pieces gives it back. */
  lemma Rejoin(s: string, k: nat)
    requires k <= |s|
    ensures s == s[..k] + s[k..]
  {
  }

  /** `p + x` starts with `p`, and what follows it is `x`. */
  lemma SplitAfter(p: string, x: string)
    ensures |p| <= |p + x| && (p + x)[..|p|] == p && (p + x)[|p|..] == x
  {
  }

  /** A string that ends with `e` agrees with `e` on its last characters. */
  lemma EndsWithAgrees(s: string, e: string, k: nat)
    requires EndsWith(s, e) && 0 < k <= |e|
    ensures s[|s| - k] == e[|e| - k]
  {
    assert s[|s| - |e|..][|e| - k] == s[|s| - k];
  }

  /** No text carries the endings of two different statuses. */
  lemma EndingsExclusive(s: string, a: string, b: string)
    requires a in HomeworkVerdicts && b in HomeworkVerdicts && a != b
    requires EndsWith(s, Ending(a))
    ensures !EndsWith(s, Ending(b))
  {
    var ea, eb := Ending(a), Ending(b);
    // "approved" ends in '!', the others in '.'; "reviewing" and "rejected" differ one before.
    var k := if a == "approved" || b == "approved" then 1 else 2;
    assert ea[|ea| - k] != eb[|eb| - k];
    EndsWithAgrees(s, ea, k);
    if EndsWith(s, eb) {
      EndsWithAgrees(s, eb, k);
    }
  }

  /** Among `codes`, the status whose ending `rest` carries is the one found. */
  lemma {:induction false} FindStatusFinds(rest: string, codes: seq<string>, status: string)
    requires forall c <- codes :: c in HomeworkVerdicts
    requires status in codes && EndsWith(rest, Ending(status))
    ensures FindStatus(rest, codes) == Some(status)
  {
    if codes[0] == status {
    } else {
      EndingsExclusive(rest, status, codes[0]);
      FindStatusFinds(rest, codes[1..], status);
    }
  }

  /** Every notification reads back as the name and status it was made from. */
  lemma NotificationRoundTrip(name: string, status: string)
    requires status in HomeworkVerdicts
    ensures ReadNotification(Notification(name, HomeworkVerdicts[status])) == Some((name, status))
  {
    var rest := name + Ending(status);
    assert Notification(name, HomeworkVerdicts[status]) == NoticePrefix + rest;
    SplitAfter(NoticePrefix, rest);
    SplitAfter(name, Ending(status));
    assert status in StatusCodes;
    FindStatusFinds(rest, StatusCodes, status);
  }

  /** Distinct homework names or statuses never render to the same notification. */
  lemma NotificationInjective(name1: string, status1: string, name2: string, status2: string)
    requires status1 in HomeworkVerdicts && status2 in HomeworkVerdicts
    requires Notification(name1, HomeworkVerdicts[status1]) == Notification(name2, HomeworkVerdicts[status2])
    ensures name1 == name2 && status1 == status2
  {
    NotificationRoundTrip(name1, status1);
    NotificationRoundTrip(name2, status2);
  }

  /** A rendered homework names its homework and its documented status. */
  lemma ParseStatusReadsBack(homework: Json)
    requires ParseStatus(homework).Ok?
    ensures var status := Get(homework.members, "status").value;
      ReadNotification(ParseStatus(homework).value) ==
        Some((PyStr(Get(homework.members, "homework_name").value), status.s))
  {
    var status := Get(homework.members, "status").value;
    NotificationRoundTrip(PyStr(Get(homework.members, "homework_name").value), status.s);
  }

  /** Python truthiness of an environment variable: unset (None) and '' are false. */
  predicate Truthy(v: Option<string>) {
    v.Some? && v.value != ""
  }

  /** Python's `a and b`: `a` itself when it is falsy, otherwise `b`. */
  function And(a: Option<string>, b: Option<string>): Option<string> {
    if Truthy(a) then b else a
  }

  /** check_tokens: `bool(PRACTICUM_TOKEN and TELEGRAM_TOKEN and TELEGRAM_CHAT_ID)`. */
  function CheckTokens(practicumToken: Option<string>, telegramToken: Option<string>,
                       telegramChatId: Option<string>): (ok: bool)
    ensures ok <==> (practicumToken.Some? && practicumToken.value != "" &&
                     telegramToken.Some? && telegramToken.value != "" &&
                     telegramChatId.Some? && telegramChatId.value != "")
  {
    Truthy(And(And(practicumToken, telegramToken), telegramChatId))
  }

  /** The key the failure log of send_message looks up and no argument supplies. */
  const ChatIdField := "TELEGRAM_CHAT_ID"

  /**
   * send_message as written. When Telegram accepts the message, the message is
   * returned. When the client raises a TelegramError, formatting the log line
   * asks for the field `TELEGRAM_CHAT_ID`, but the arguments are only
   * `chat_id`, `message` and `error`. So a KeyError escapes before `return ''`
   * is reached.
   */
  function SendMessage(message: string, outcome: SendOutcome): (r: Result<string, Error>)
    ensures outcome.Delivered? ==> r == Ok(message)
    ensures outcome.TelegramError? ==> r == Err(KeyError(ChatIdField))
  {
    match outcome
    case Delivered => Ok(message)
    case TelegramError(_) => Err(KeyError(ChatIdField))
  }

  /** A refused send never yields the '' that the handler means to return: it raises. */
  lemma RefusedSendRaises(message: string, detail: string)
    ensures SendMessage(message, TelegramError(detail)) != Ok("")
    ensures SendMessage(message, TelegramError(detail)).Err?
  {
  }

  /**
   * send_message as its handler intends it: the failure is logged and swallowed,
   * and '' is returned.
   */
  function SendMessageIntended(message: string, outcome: SendOutcome): (r: string)
    ensures outcome.Delivered? ==> r == message
    ensures outcome.TelegramError? ==> r == ""
  {
    match outcome
    case Delivered => message
    case TelegramError(_) => ""
  }
}
