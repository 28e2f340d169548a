/**
 * `main` as imperative code: an object holding the three variables its
 * loop reassigns and the run flag, one method per loop iteration written
 * statement by statement as lines 159-173 are, and the loop itself over a
 * finite sequence of iterations. Each method is proved against
 * Polling.Cycle or Polling.Run.
 */
module Bot {
  import opened Wrappers
  import opened Errors
  import opened Homework
  import opened Polling

  class Poller {
    var currMessage: Option<string>
    var prevMessage: Option<string>
    var currentTimestamp: int
    var state: RunFlag

    function Snapshot(): PollState
      reads this
    {
      PollState(currMessage, prevMessage, currentTimestamp)
    }

    predicate Valid()
      reads this
    {
      Consistent(Snapshot())
    }

    /** Lines 145-152: the cursor starts at the clock, no message yet, the flag set to RUNNING. */
    constructor (clock: int)
      ensures Valid() && Snapshot() == Start(clock) && state == Running
    {
      currentTimestamp := clock;
      state := Running;
      currMessage := None;
      prevMessage := currMessage;
    }

    /** The operator's stop command (`repl`, lines 182-184). */
    method RequestStop()
      modifies this`state
      ensures state == Stopped
    {
      state := Stopped;
    }

    /** One pass of the loop body; whatever raised ends the pass with the assignments made so far. */
    method RunCycle(clock: int, fetch: FetchOutcome, send: SendOutcome)
      returns (fromDate: int, delivered: Option<string>, error: Option<Error>)
      requires Valid()
      modifies this`currMessage, this`prevMessage, this`currentTimestamp
      ensures Valid()
      ensures CycleResult(Snapshot(), fromDate, delivered, error) == Cycle(old(Snapshot()), clock, fetch, send)
    {
      delivered, error := None, None;
      var call := GetApiAnswer(currentTimestamp, clock, fetch);
      fromDate := call.fromDate;
      if call.result.Err? {
        error := Some(call.result.error);
        return;
      }
      var response := call.result.value;
      var checked := CheckResponse(response);
      if checked.Err? {
        error := Some(checked.error);
        return;
      }
      var homeworks := checked.value;
      if |homeworks| > 0 {
        var parsed := ParseStatus(homeworks[0]);
        if parsed.Err? {
          error := Some(parsed.error);
          return;
        }
        currMessage := Some(parsed.value);
      }
      if response.currentDate.None? {
        error := Some(KeyError("current_date"));
        return;
      }
      currentTimestamp := response.currentDate.value;
      if currMessage == prevMessage {
        return;
      }
      error := SendMessage(send);
      if error.Some? {
        return;
      }
      delivered := currMessage;
      prevMessage := currMessage;
    }

    /** The loop of `main` over a finite sequence of iterations: returns every message the chat received. */
    method Serve(ticks: seq<Tick>) returns (outbox: seq<string>)
      requires Valid()
      modifies this
      ensures Valid()
      ensures Run(old(Snapshot()), old(state), ticks) == RunResult(Snapshot(), state, outbox)
    {
      ghost var s0, f0 := Snapshot(), state;
      outbox := [];
      var i := 0;
      while i < |ticks|
        invariant 0 <= i <= |ticks|
        invariant Valid()
        invariant Run(s0, f0, ticks[..i]) == RunResult(Snapshot(), state, outbox)
      {
        assert ticks[..i + 1][..i] == ticks[..i];
        if ticks[i].stopRequested {
          RequestStop();
        }
        if state == Stopped {
          RunStaysStopped(s0, f0, ticks, i + 1);
          return;
        }
        var _, delivered, _ := RunCycle(ticks[i].clock, ticks[i].fetch, ticks[i].send);
        outbox := outbox + Elements(delivered);
        i := i + 1;
      }
      assert ticks[..i] == ticks;
    }
  }

  /** The start of `main` (lines 135-152): without all three credentials there is no poller. */
  method Launch(practicumToken: Option<string>, telegramToken: Option<string>, chatId: Option<string>, clock: int)
    returns (p: Poller?)
    ensures p == null <==> !CheckTokens(practicumToken, telegramToken, chatId)
    ensures p != null ==> fresh(p) && p.Valid() && p.Snapshot() == Start(clock) && p.state == Running
  {
    if !CheckTokens(practicumToken, telegramToken, chatId) {
      return null;
    }
    p := new Poller(clock);
  }
}
