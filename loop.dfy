/** The polling loop of `main`, written the way the bot runs it: two
    local variables updated in place each pass, with messages handed to
    `send_message` collected in an outbox. */
module Loop {
  import opened Exceptions
  import opened JsonValue
  import opened Homework
  import Properties

  class PollLoop {
    var cache: Json          // cached_response
    var timestamp: int       // current_timestamp
    var outbox: seq<string>  // every message handed to send_message, in order
    var halted: bool         // an exception without `txt` has ended main

    /** The state `main` builds before `while True`. */
    constructor (now: int)
      ensures cache == JNull && timestamp == now && outbox == [] && !halted
    {
      cache := JNull;
      timestamp := now;
      outbox := [];
      halted := false;
    }

    function Snapshot(): State
      reads this
    {
      State(cache, timestamp)
    }

    /** One pass through the loop body and its exception handler. Returns
        the `from_date` the request carried. */
    method Cycle(reply: Reply, now: int) returns (fromDate: int)
      requires !halted
      modifies this
      ensures fromDate == FromDate(old(timestamp), now)
      ensures match Step(old(Snapshot()), reply, now)
        case Running(next, sent) => !halted && Snapshot() == next && outbox == old(outbox) + sent
        case Halted(sent) => halted && outbox == old(outbox) + sent
    {
      fromDate := FromDate(timestamp, now);
      var failure: Option<BotError> := None;
      if reply.NoConnection? {
        halted := true;
        return;
      }
      if reply.status != 200 {
        failure := Some(NoResponse);
      } else if reply.body.None? || !reply.body.value.JObject? {
        halted := true;
        return;
      } else {
        var response := reply.body.value;
        var homeworks := Homeworks(response);
        if cache != homeworks {
          cache := homeworks;
          var checked := CheckResponse(response);
          if checked.Escape? {
            halted := true;
            return;
          } else if checked.Raise? {
            failure := Some(checked.error);
          } else if checked.value != [] {
            var parsed := ParseStatus(checked.value[0]);
            if parsed.Escape? {
              halted := true;
              return;
            } else if parsed.Raise? {
              failure := Some(parsed.error);
            } else {
              outbox := outbox + [parsed.value];
            }
          }
        }
        if failure.None? {
          timestamp := now;
        }
      }
      if failure.Some? {
        outbox := outbox + [Alert(failure.value)];
      }
    }

    /** Finitely many passes of `while True`, stopping early when one ends
        `main`. */
    method Run(polls: seq<Poll>)
      requires !halted
      modifies this
      ensures match RunFrom(old(Snapshot()), polls)
        case Running(final, sent) => !halted && Snapshot() == final && outbox == old(outbox) + sent
        case Halted(sent) => halted && outbox == old(outbox) + sent
    {
      ghost var start := outbox;
      ghost var sent: seq<string> := [];
      var i := 0;
      while i < |polls| && !halted
        invariant 0 <= i <= |polls|
        invariant outbox == start + sent
        invariant RunFrom(old(Snapshot()), polls) ==
          if halted then Halted(sent) else Prepend(sent, RunFrom(Snapshot(), polls[i..]))
      {
        ghost var before := Snapshot();
        ghost var cycle := Step(before, polls[i].reply, polls[i].now);
        Properties.RunAdvance(RunFrom(old(Snapshot()), polls), sent, before, polls, i);
        var _ := Cycle(polls[i].reply, polls[i].now);
        sent := sent + cycle.sent;
        i := i + 1;
      }
      assert outbox[|old(outbox)|..] == sent;
      assert !halted ==> polls[i..] == [];
    }
  }
}
