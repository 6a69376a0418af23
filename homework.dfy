/** The pure logic of the homework-status bot: the status catalogue, the
    record formatter, the response validator, the token check, the
    `from_date` fallback and one cycle of the polling loop as a state
    transition. */
module Homework {
  import opened Exceptions
  import opened JsonValue

  datatype Option<T> = None | Some(value: T)

  /** What a call that may raise ends in: a value, one of the five custom
      exceptions, or an exception of another kind (KeyError, TypeError,
      AttributeError, a decoding or connection error). Only the custom
      exceptions carry a `txt`. */
  datatype Result<T> = Ok(value: T) | Raise(error: BotError) | Escape

  // ---------------------------------------------------------------- catalogue

  const Approved := "approved"
  const Reviewing := "reviewing"
  const Rejected := "rejected"

  /** HOMEWORK_STATUSES: the three recognised codes and their verdicts. */
  const Statuses: map<string, string> := map[
    Approved := "Работа проверена: ревьюеру всё понравилось. Ура!",
    Reviewing := "Работа взята на проверку ревьюером.",
    Rejected := "Работа проверена: у ревьюера есть замечания."
  ]

  const NoticePrefix := "Изменился статус проверки работы \""
  const NoticeInfix := "\". "
  const AlertPrefix := "Сбой в работе программы: "

  /** The notification for a homework whose status changed. */
  function Notice(name: Json, verdict: string): string {
    NoticePrefix + Str(name) + NoticeInfix + verdict
  }

  /** The failure message the loop's exception handler sends. It never
      reads back as a status notice. */
  function Alert(e: BotError): (a: string)
    ensures StatusOf(a).None?
  {
    var a := AlertPrefix + e.Txt();
    assert a[0] != NoticePrefix[0];
    a
  }

  // ---------------------------------------------------------------- parse_status

  /** Formats one homework record. `homework['homework_name']` and
      `homework['status']` raise KeyError on a dict lacking them and
      TypeError on anything but a dict; searching the catalogue for an
      unhashable status raises TypeError. */
  function ParseStatus(homework: Json): (r: Result<string>)
    ensures r.Ok? <==>
      homework.JObject? && "homework_name" in homework.fields && "status" in homework.fields
      && homework.fields["status"].JStr? && homework.fields["status"].s in Statuses
    ensures r.Ok? ==>
      r.value == NoticePrefix + Str(homework.fields["homework_name"]) + NoticeInfix
                 + Statuses[homework.fields["status"].s]
    ensures r.Raise? <==>
      homework.JObject? && "homework_name" in homework.fields && "status" in homework.fields
      && homework.fields["status"].Hashable()
      && !(homework.fields["status"].JStr? && homework.fields["status"].s in Statuses)
    ensures r.Raise? ==> r.error == ParseMissStatus
  {
    match homework
    case JObject(fields) =>
      if "homework_name" !in fields || "status" !in fields then Escape
      else
        var name := fields["homework_name"];
        var status := fields["status"];
        if !status.Hashable() then Escape
        else if status.JStr? && status.s in Statuses then Ok(Notice(name, Statuses[status.s]))
        else Raise(ParseMissStatus)
    case _ => Escape
  }

  predicate StartsWith(msg: string, prefix: string) {
    |prefix| <= |msg| && msg[..|prefix|] == prefix
  }

  predicate EndsWith(msg: string, suffix: string) {
    |suffix| <= |msg| && msg[|msg| - |suffix|..] == suffix
  }

  /** Reads back which recognised status a notice announces, by the
      verdict it ends with; None for any other message. */
  function StatusOf(msg: string): Option<string> {
    if !StartsWith(msg, NoticePrefix) then None
    else if EndsWith(msg, Statuses[Approved]) then Some(Approved)
    else if EndsWith(msg, Statuses[Reviewing]) then Some(Reviewing)
    else if EndsWith(msg, Statuses[Rejected]) then Some(Rejected)
    else None
  }

  // ---------------------------------------------------------------- check_response

  /** `response.get('homeworks')`: the value the loop caches. */
  function Homeworks(response: Json): Json
    requires response.JObject?
  {
    Get(response.fields, "homeworks")
  }

  /** Validates a decoded response. `response['homeworks']` raises KeyError
      when the key is absent and TypeError when the response is not a
      dict. The ListKeyError test comes after the list test, so it never
      fires. */
  function CheckResponse(response: Json): (r: Result<seq<Json>>)
    ensures r.Ok? <==>
      response.JObject? && "homeworks" in response.fields && response.fields["homeworks"].JList?
    ensures r.Ok? ==> JList(r.value) == response.fields["homeworks"]
    ensures r.Raise? <==>
      response.JObject? && "homeworks" in response.fields && !response.fields["homeworks"].JList?
    ensures r.Raise? ==> r.error == NotaList
    ensures r != Raise(ListKey)
  {
    match response
    case JObject(fields) =>
      if "homeworks" !in fields then Escape
      else
        var listKey := fields["homeworks"];
        if !listKey.JList? then Raise(NotaList)
        else if listKey.JNull? then Raise(ListKey)
        else Ok(listKey.items)
    case _ => Escape
  }

  // ---------------------------------------------------------------- check_tokens

  /** The process environment, as read by `os.getenv`. */
  type Env = map<string, string>

  const PracticumTokenVar := "PRACTICUM_TOKEN"
  const TelegramTokenVar := "TOKEN"
  const ChatIdVar := "CHAT_ID"

  function GetEnv(env: Env, name: string): Option<string> {
    if name in env then Some(env[name]) else None
  }

  /** True when none of the three settings is None. An empty value counts
      as present. */
  function CheckTokens(env: Env): (ok: bool)
    ensures ok <==> {PracticumTokenVar, TelegramTokenVar, ChatIdVar} <= env.Keys
  {
    GetEnv(env, PracticumTokenVar).Some?
    && GetEnv(env, TelegramTokenVar).Some?
    && GetEnv(env, ChatIdVar).Some?
  }

  // ---------------------------------------------------------------- get_api_answer

  /** The `from_date` sent with a request: the loop's timestamp, or the
      clock when the timestamp is the falsy 0. */
  function FromDate(timestamp: int, now: int): (d: int)
    ensures timestamp != 0 ==> d == timestamp
    ensures timestamp == 0 ==> d == now
    ensures d == 0 ==> now == 0
  {
    if timestamp != 0 then timestamp else now
  }

  /** What one request to the API ends in: a transport failure, or an
      HTTP status with a body that decodes to JSON (`Some`) or does not
      (`None`). */
  datatype Reply = NoConnection | Reply(status: int, body: Option<Json>)

  // ---------------------------------------------------------------- the loop

  /** The loop's local state: `cached_response` and `current_timestamp`. */
  datatype State = State(cache: Json, timestamp: int)

  /** The state `main` enters the loop with. */
  function Initial(now: int): State {
    State(JNull, now)
  }

  /** What one or more cycles end in: the loop runs on from `state` after
      handing `sent` to `send_message`, or an exception without a `txt`
      reached the handler, whose `error.txt` then raised and ended `main`. */
  datatype Cycle = Running(state: State, sent: seq<string>) | Halted(sent: seq<string>)

  /** One pass through the body of `while True`, including its `except`
      branch. The cache is overwritten before the response is validated,
      and the timestamp only moves on when nothing was raised. */
  function Step(s: State, reply: Reply, now: int): (r: Cycle)
    ensures reply.NoConnection? ==> r == Halted([])
    ensures reply.Reply? && reply.status != 200 ==> r == Running(s, [Alert(NoResponse)])
    ensures r.Halted? ==> r.sent == []
    ensures r.Running? ==> |r.sent| <= 1
    ensures r.Running? && r.state.timestamp != now ==> r.state.timestamp == s.timestamp
    ensures reply.Reply? && reply.status == 200 && r.Running?
      ==> reply.body.Some? && reply.body.value.JObject? && r.state.cache == Homeworks(reply.body.value)
  {
    match reply
    case NoConnection => Halted([])
    case Reply(status, body) =>
      if status != 200 then Running(s, [Alert(NoResponse)])
      else if body.None? || !body.value.JObject? then Halted([])
      else
        var response := body.value;
        var homeworks := Homeworks(response);
        if s.cache == homeworks then Running(State(s.cache, now), [])
        else
          var cached := State(homeworks, s.timestamp);
          match CheckResponse(response)
          case Escape => Halted([])
          case Raise(e) => Running(cached, [Alert(e)])
          case Ok(items) =>
            if items == [] then Running(State(homeworks, now), [])
            else match ParseStatus(items[0])
              case Escape => Halted([])
              case Raise(e) => Running(cached, [Alert(e)])
              case Ok(msg) => Running(State(homeworks, now), [msg])
  }

  /** One poll: the API's reply and the clock reading of that cycle. */
  datatype Poll = Poll(reply: Reply, now: int)

  /** Puts `m` in front of what the later cycles send. */
  function Prepend(m: seq<string>, c: Cycle): Cycle {
    match c
    case Running(s, sent) => Running(s, m + sent)
    case Halted(sent) => Halted(m + sent)
  }

  /** A finite run of the loop: the cycles fed one after another, stopping
      at the first one that ends `main`. */
  function RunFrom(s: State, polls: seq<Poll>): (r: Cycle)
    ensures |r.sent| <= |polls|
    decreases |polls|
  {
    if polls == [] then Running(s, [])
    else match Step(s, polls[0].reply, polls[0].now)
      case Halted(m) => Halted(m)
      case Running(next, m) => Prepend(m, RunFrom(next, polls[1..]))
  }
}
