/** Properties of the formatter and of the polling loop, one cycle at a
    time and over finite runs. */
module Properties {
  import opened Exceptions
  import opened JsonValue
  import opened Homework

  // ---------------------------------------------------------------- formatter

  /** The catalogue knows exactly three codes, each with its own verdict. */
  lemma CatalogueHasThreeDistinctVerdicts()
    ensures Statuses.Keys == {Approved, Reviewing, Rejected}
    ensures Statuses[Approved] != Statuses[Reviewing]
    ensures Statuses[Approved] != Statuses[Rejected]
    ensures Statuses[Reviewing] != Statuses[Rejected]
  {
  }

  /** A notice can be read back: the verdict it ends with names the status
      it was built from. */
  lemma NoticeAnnouncesStatus(homework: Json)
    requires ParseStatus(homework).Ok?
    ensures StatusOf(ParseStatus(homework).value) == Some(homework.fields["status"].s)
  {
    var code := homework.fields["status"].s;
    var head := NoticePrefix + Str(homework.fields["homework_name"]) + NoticeInfix;
    var msg := ParseStatus(homework).value;
    var verdict := Statuses[code];
    assert msg == head + verdict;
    assert EndsWith(msg, verdict) by {
      assert msg[|msg| - |verdict|..] == verdict;
    }
    // the approved verdict ends in '!', the other two in '.';
    // the reviewing verdict ends in "м.", the rejected one in "я."
    if code == Reviewing {
      EndingsDiffer(msg, verdict, Statuses[Approved], 1);
    } else if code == Rejected {
      EndingsDiffer(msg, verdict, Statuses[Approved], 1);
      EndingsDiffer(msg, verdict, Statuses[Reviewing], 2);
    }
  }

  /** A message that ends with `v` does not end with `w` when the two
      differ `k` characters from their ends. */
  lemma EndingsDiffer(msg: string, v: string, w: string, k: nat)
    requires EndsWith(msg, v) && 0 < k <= |v| && k <= |w| && v[|v| - k] != w[|w| - k]
    ensures !EndsWith(msg, w)
  {
    if |w| <= |msg| {
      assert msg[|msg| - k] == msg[|msg| - |v|..][|v| - k] == v[|v| - k];
      assert msg[|msg| - |w|..][|w| - k] == msg[|msg| - k];
    }
  }

  /** Different recognised statuses of the same homework never produce the
      same notice. */
  lemma NoticesTellStatusesApart(name: Json, a: string, b: string)
    requires a in Statuses && b in Statuses && a != b
    ensures Notice(name, Statuses[a]) != Notice(name, Statuses[b])
  {
    var ha := JObject(map["homework_name" := name, "status" := JStr(a)]);
    var hb := JObject(map["homework_name" := name, "status" := JStr(b)]);
    NoticeAnnouncesStatus(ha);
    NoticeAnnouncesStatus(hb);
  }

  // ---------------------------------------------------------------- one cycle

  /** When `homeworks` equals the cache, the cycle sends nothing, keeps the
      cache and moves the timestamp to the clock. */
  lemma UnchangedCycleIsQuiet(s: State, response: Json, now: int)
    requires response.JObject? && Homeworks(response) == s.cache
    ensures Step(s, Reply(200, Some(response)), now) == Running(State(s.cache, now), [])
  {
  }

  /** Only element 0 of a changed list matters: two responses whose lists
      differ from the cache and start with the same record make the cycle
      send the same messages and end in the same way. */
  lemma OnlyFirstRecordMatters(s: State, r1: Json, r2: Json, now: int)
    requires r1.JObject? && r2.JObject?
    requires Homeworks(r1).JList? && Homeworks(r2).JList?
    requires Homeworks(r1) != s.cache && Homeworks(r2) != s.cache
    requires Homeworks(r1).items != [] && Homeworks(r2).items != []
    requires Homeworks(r1).items[0] == Homeworks(r2).items[0]
    ensures Step(s, Reply(200, Some(r1)), now).sent == Step(s, Reply(200, Some(r2)), now).sent
    ensures Step(s, Reply(200, Some(r1)), now).Halted? == Step(s, Reply(200, Some(r2)), now).Halted?
  {
  }

  /** A list that differs from the cache and is empty is cached and sends
      nothing; the timestamp moves on. */
  lemma ChangedToEmptyIsQuiet(s: State, response: Json, now: int)
    requires response.JObject? && Homeworks(response) == JList([]) && s.cache != JList([])
    ensures Step(s, Reply(200, Some(response)), now) == Running(State(JList([]), now), [])
  {
  }

  /** A changed non-empty list whose first record formats: the cycle caches
      the list, sends exactly that record's notice and moves the timestamp
      to the clock. */
  lemma ChangedListNotifiesFirst(s: State, response: Json, now: int)
    requires response.JObject? && Homeworks(response) != s.cache
    requires Homeworks(response).JList? && Homeworks(response).items != []
    requires ParseStatus(Homeworks(response).items[0]).Ok?
    ensures Step(s, Reply(200, Some(response)), now)
         == Running(State(Homeworks(response), now), [ParseStatus(Homeworks(response).items[0]).value])
  {
  }

  /** A changed non-empty list whose first record has a status outside the
      catalogue: the list is cached, the ParseMissStatusError message is
      sent and the timestamp stays. */
  lemma ChangedListWithUnknownStatusAlerts(s: State, response: Json, now: int)
    requires response.JObject? && Homeworks(response) != s.cache
    requires Homeworks(response).JList? && Homeworks(response).items != []
    requires ParseStatus(Homeworks(response).items[0]).Raise?
    ensures Step(s, Reply(200, Some(response)), now)
         == Running(State(Homeworks(response), s.timestamp), [Alert(ParseMissStatus)])
  {
  }

  /** A changed non-empty list whose first record is not a dict with both
      fields, or whose status is a list or a dict: the exception has no
      `txt` and `main` ends. */
  lemma ChangedListWithMalformedRecordHalts(s: State, response: Json, now: int)
    requires response.JObject? && Homeworks(response) != s.cache
    requires Homeworks(response).JList? && Homeworks(response).items != []
    requires ParseStatus(Homeworks(response).items[0]).Escape?
    ensures Step(s, Reply(200, Some(response)), now) == Halted([])
  {
  }

  /** A changed `homeworks` value that is present but not a list (None
      included): it is cached, the NotaListError message is sent and the
      timestamp stays. */
  lemma ChangedNonListAlerts(s: State, response: Json, now: int)
    requires response.JObject? && "homeworks" in response.fields
    requires !Homeworks(response).JList? && Homeworks(response) != s.cache
    ensures Step(s, Reply(200, Some(response)), now)
         == Running(State(Homeworks(response), s.timestamp), [Alert(NotaList)])
  {
  }

  /** Feeding the same successful reply twice: the second cycle sends
      nothing, even when the first one failed in validation or formatting,
      because the cache was replaced before either ran. */
  lemma SecondIdenticalCycleIsQuiet(s: State, reply: Reply, now1: int, now2: int)
    requires reply.Reply? && reply.status == 200
    requires Step(s, reply, now1).Running?
    ensures Step(Step(s, reply, now1).state, reply, now2)
         == Running(State(Step(s, reply, now1).state.cache, now2), [])
  {
  }

  /** What a cycle sends is either a notice, read back as a recognised
      status, after which the timestamp moves to the clock; or the failure
      message of one custom exception, after which the timestamp stays. */
  lemma SentMessageKinds(s: State, reply: Reply, now: int)
    requires Step(s, reply, now).Running? && Step(s, reply, now).sent != []
    ensures || (StatusOf(Step(s, reply, now).sent[0]).Some?
                && Step(s, reply, now).state.timestamp == now)
            || (&& (exists e: BotError :: Step(s, reply, now).sent == [Alert(e)])
                && Step(s, reply, now).state.timestamp == s.timestamp)
  {
    match reply
    case Reply(status, body) =>
      if status == 200 && body.Some? && body.value.JObject? {
        var response := body.value;
        if s.cache != Homeworks(response) {
          var checked := CheckResponse(response);
          if checked.Ok? && checked.value != [] && ParseStatus(checked.value[0]).Ok? {
            NoticeAnnouncesStatus(checked.value[0]);
          }
        }
      }
  }

  // ---------------------------------------------------------------- runs

  /** Messages put in front twice are put in front once, in order. */
  lemma PrependTwice(a: seq<string>, b: seq<string>, c: Cycle)
    ensures Prepend(a, Prepend(b, c)) == Prepend(a + b, c)
  {
    assert a + (b + c.sent) == (a + b) + c.sent;
  }

  /** A run from cycle `i` on is that cycle followed by the run from
      cycle `i + 1`. */
  lemma RunFromCycle(s: State, polls: seq<Poll>, i: nat)
    requires i < |polls|
    ensures RunFrom(s, polls[i..]) ==
      match Step(s, polls[i].reply, polls[i].now)
      case Halted(m) => Halted(m)
      case Running(next, m) => Prepend(m, RunFrom(next, polls[i + 1..]))
  {
    assert polls[i..][0] == polls[i];
    assert polls[i..][1..] == polls[i + 1..];
  }

  /** One more cycle of a run already under way: what the whole run ends
      in, seen after the messages `sent` so far, is that cycle followed by
      the rest. */
  lemma RunAdvance(total: Cycle, sent: seq<string>, s: State, polls: seq<Poll>, i: nat)
    requires i < |polls|
    requires total == Prepend(sent, RunFrom(s, polls[i..]))
    ensures match Step(s, polls[i].reply, polls[i].now)
      case Halted(m) => total == Halted(sent + m)
      case Running(next, m) => total == Prepend(sent + m, RunFrom(next, polls[i + 1..]))
  {
    RunFromCycle(s, polls, i);
    match Step(s, polls[i].reply, polls[i].now)
    case Halted(m) =>
    case Running(next, m) => PrependTwice(sent, m, RunFrom(next, polls[i + 1..]));
  }

  /** Running `p` and then `q` is running `p + q`. */
  lemma {:induction false} RunAppend(s: State, p: seq<Poll>, q: seq<Poll>)
    ensures RunFrom(s, p + q) ==
      match RunFrom(s, p)
      case Running(next, m) => Prepend(m, RunFrom(next, q))
      case Halted(m) => Halted(m)
    decreases |p|
  {
    if p == [] {
      assert p + q == q;
    } else {
      assert (p + q)[0] == p[0];
      assert (p + q)[1..] == p[1..] + q;
      match Step(s, p[0].reply, p[0].now) {
        case Halted(m) =>
        case Running(next, m) =>
          RunAppend(next, p[1..], q);
          var rest := RunFrom(next, p[1..]);
          if rest.Running? {
            PrependTwice(m, rest.sent, RunFrom(rest.state, q));
          }
      }
    }
  }

  /** While the API keeps answering with a status other than 200, every
      cycle sends the same failure message and the state never changes. */
  lemma {:induction false} OutageKeepsState(s: State, polls: seq<Poll>)
    requires forall i :: 0 <= i < |polls| ==> polls[i].reply.Reply? && polls[i].reply.status != 200
    ensures RunFrom(s, polls) == Running(s, seq(|polls|, _ => Alert(NoResponse)))
    decreases |polls|
  {
    if polls != [] {
      OutageKeepsState(s, polls[1..]);
      assert [Alert(NoResponse)] + seq(|polls| - 1, _ => Alert(NoResponse))
          == seq(|polls|, _ => Alert(NoResponse));
    }
  }

  /** Cycles whose `homeworks` value equals the cache send nothing; the
      timestamp ends at the last clock reading. The responses may differ
      in everything else. */
  lemma {:induction false} CachedRunIsQuiet(s: State, polls: seq<Poll>)
    requires forall i :: 0 <= i < |polls| ==>
      && polls[i].reply.Reply? && polls[i].reply.status == 200 && polls[i].reply.body.Some?
      && polls[i].reply.body.value.JObject? && Homeworks(polls[i].reply.body.value) == s.cache
    ensures RunFrom(s, polls)
         == Running(State(s.cache, if polls == [] then s.timestamp else polls[|polls| - 1].now), [])
    decreases |polls|
  {
    if polls != [] {
      var next := State(s.cache, polls[0].now);
      assert Step(s, polls[0].reply, polls[0].now) == Running(next, []);
      CachedRunIsQuiet(next, polls[1..]);
    }
  }

  /** Repeating one successful reply over many cycles: only the first
      cycle can send anything. */
  lemma RepeatedReplySendsOnce(s: State, reply: Reply, polls: seq<Poll>)
    requires reply.Reply? && reply.status == 200
    requires |polls| >= 1
    requires forall i :: 0 <= i < |polls| ==> polls[i].reply == reply
    requires Step(s, reply, polls[0].now).Running?
    ensures RunFrom(s, polls).Running?
    ensures RunFrom(s, polls).sent == Step(s, reply, polls[0].now).sent
    ensures RunFrom(s, polls).state.cache == Step(s, reply, polls[0].now).state.cache
    ensures RunFrom(s, polls).state.timestamp
         == if |polls| == 1 then Step(s, reply, polls[0].now).state.timestamp else polls[|polls| - 1].now
  {
    var first := Step(s, reply, polls[0].now);
    var later := polls[1..];
    assert forall i :: 0 <= i < |later| ==> later[i].reply == reply by {
      forall i | 0 <= i < |later| ensures later[i].reply == reply {
        assert later[i] == polls[i + 1];
      }
    }
    CachedRunIsQuiet(first.state, later);
    assert RunFrom(s, polls) == Prepend(first.sent, RunFrom(first.state, later));
    assert first.sent + [] == first.sent;
  }

  // ---------------------------------------------------------------- scenarios

  /** A record with the two fields the formatter reads. */
  function Record(name: string, status: string): Json {
    JObject(map["homework_name" := JStr(name), "status" := JStr(status)])
  }

  function Payload(homeworks: seq<Json>): Json {
    JObject(map["homeworks" := JList(homeworks)])
  }

  /** The same one-record payload on the first two cycles: one notice,
      then nothing. */
  lemma ReviewingScenario(t0: int, t1: int, t2: int)
    ensures RunFrom(Initial(t0), [Poll(Reply(200, Some(Payload([Record("hw1", Reviewing)]))), t1),
                                  Poll(Reply(200, Some(Payload([Record("hw1", Reviewing)]))), t2)])
         == Running(State(JList([Record("hw1", Reviewing)]), t2),
                    ["Изменился статус проверки работы \"" + "hw1" + "\". " + "Работа взята на проверку ревьюером."])
  {
    var record := Record("hw1", Reviewing);
    var reply := Reply(200, Some(Payload([record])));
    var polls := [Poll(reply, t1), Poll(reply, t2)];
    assert CheckResponse(Payload([record])) == Ok([record]);
    assert ParseStatus(record) == Ok(NoticePrefix + "hw1" + NoticeInfix + Statuses[Reviewing]);
    assert Step(Initial(t0), reply, t1) == Running(State(JList([record]), t1),
        ["Изменился статус проверки работы \"" + "hw1" + "\". " + "Работа взята на проверку ревьюером."]);
    RepeatedReplySendsOnce(Initial(t0), reply, polls);
  }

  /** An empty list on the first cycle is cached and sends nothing. */
  lemma EmptyPayloadScenario(t0: int, t1: int)
    ensures Step(Initial(t0), Reply(200, Some(Payload([]))), t1) == Running(State(JList([]), t1), [])
  {
  }

  /** An unknown status is reported once; the same payload again is then
      taken as already seen. */
  lemma UnknownStatusScenario(t0: int, t1: int, t2: int)
    ensures RunFrom(Initial(t0), [Poll(Reply(200, Some(Payload([Record("hw1", "lost")]))), t1),
                                  Poll(Reply(200, Some(Payload([Record("hw1", "lost")]))), t2)])
         == Running(State(JList([Record("hw1", "lost")]), t2),
                    ["Сбой в работе программы: " + "Недокументированный статус работы"])
  {
    var reply := Reply(200, Some(Payload([Record("hw1", "lost")])));
    var polls := [Poll(reply, t1), Poll(reply, t2)];
    assert CheckResponse(Payload([Record("hw1", "lost")])) == Ok([Record("hw1", "lost")]);
    assert ParseStatus(Record("hw1", "lost")) == Raise(ParseMissStatus);
    assert Alert(ParseMissStatus) == "Сбой в работе программы: " + "Недокументированный статус работы";
    assert Step(Initial(t0), reply, t1)
        == Running(State(JList([Record("hw1", "lost")]), t0), [Alert(ParseMissStatus)]);
    RepeatedReplySendsOnce(Initial(t0), reply, polls);
  }

  /** When the `homeworks` key disappears after a list was cached, `get`
      yields None, which differs from the cache, and `response['homeworks']`
      then raises KeyError: the loop ends. */
  lemma VanishedKeyHalts(s: State, response: Json, now: int)
    requires response.JObject? && "homeworks" !in response.fields && s.cache != JNull
    ensures Step(s, Reply(200, Some(response)), now) == Halted([])
  {
  }

  /** An explicit null under `homeworks` is reported as "not a list"; the
      cache becomes None and the timestamp stays. */
  lemma NullHomeworksAlerts(s: State, now: int)
    requires s.cache.JList?
    ensures Step(s, Reply(200, Some(JObject(map["homeworks" := JNull]))), now)
         == Running(State(JNull, s.timestamp), ["Сбой в работе программы: " + "Должен быть передан список."])
  {
    var response := JObject(map["homeworks" := JNull]);
    assert Homeworks(response) == JNull;
    assert CheckResponse(response) == Raise(NotaList);
    assert Alert(NotaList) == "Сбой в работе программы: " + "Должен быть передан список.";
  }
}
