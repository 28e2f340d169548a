/**
 * The body of `main`'s loop (homework.py lines 154-174) as a state
 * transition, and finite runs of it. The state is the triple the loop
 * reassigns: `curr_message`, `prev_message` and `current_timestamp`.
 * Every exception is caught at the end of the cycle, so a cycle that raises
 * keeps whatever assignments ran before the raising statement.
 */
module Polling {
  import opened Wrappers
  import opened Errors
  import opened Homework

  datatype PollState = PollState(curr: Option<string>, prev: Option<string>, cursor: int)

  /** The run flag `state`; INITIAL is replaced by RUNNING before the loop starts. */
  datatype RunFlag = Initial | Running | Stopped

  /** `prev_message` is only ever copied from `curr_message`, and `curr_message` never goes back to None. */
  predicate Consistent(s: PollState)
  {
    s.curr.None? ==> s.prev.None?
  }

  /** The state on entry to the loop (lines 145, 151-152). */
  function Start(clock: int): (s: PollState)
    ensures Consistent(s) && s.curr == s.prev == None && s.cursor == clock
  {
    PollState(None, None, clock)
  }

  /** The `from_date` sent, the state afterwards, the message the chat received, and the exception caught, if any. */
  datatype CycleResult = CycleResult(next: PollState, fromDate: int, delivered: Option<string>, error: Option<Error>)

  /** The `current_date` of a reply that decodes, if it has one. */
  function ReplyDate(fetch: FetchOutcome): Option<int>
  {
    if fetch.Reply? && fetch.body.Some? && fetch.body.value.Object? then fetch.body.value.currentDate else None
  }

  /** The homework list of a reply that decodes, if it has one. */
  function ReplyHomeworks(fetch: FetchOutcome): Option<seq<Homework>>
  {
    if fetch.Reply? && fetch.body.Some? && fetch.body.value.Object?
       && fetch.body.value.homeworks.Some? && fetch.body.value.homeworks.value.List?
    then Some(fetch.body.value.homeworks.value.items)
    else None
  }

  /** True when the exception was raised by the fetch, `check_response` or `parse_status` (lines 160-163). */
  predicate RaisedBeforeUpdate(e: Error)
  {
    !e.SendMessageError? && e != KeyError("current_date")
  }

  /**
   * One pass of the loop body (lines 159-173), given the clock, what the
   * HTTP request produced and what the chat transport did.
   */
  function Cycle(s: PollState, clock: int, fetch: FetchOutcome, send: SendOutcome): (r: CycleResult)
    requires Consistent(s)
    ensures Consistent(r.next)
    // an exception in the fetch or in check_response ends the cycle with nothing changed or sent
    ensures var call := GetApiAnswer(s.cursor, clock, fetch);
            call.result.Err? ==> r.next == s && r.delivered.None? && r.error == Some(call.result.error)
    ensures var call := GetApiAnswer(s.cursor, clock, fetch);
            call.result.Ok? && CheckResponse(call.result.value).Err?
            ==> r.next == s && r.delivered.None? && r.error == Some(CheckResponse(call.result.value).error)
    // the newest homework decides the message: parse_status's error ends the cycle, its text becomes curr_message
    ensures fetch.Reply? && fetch.statusCode == 200 && ReplyHomeworks(fetch).Some? && |ReplyHomeworks(fetch).value| > 0
            ==> var parsed := ParseStatus(ReplyHomeworks(fetch).value[0]);
                (parsed.Err? ==> r.next == s && r.delivered.None? && r.error == Some(parsed.error))
                && (parsed.Ok? ==> r.next.curr == Some(parsed.value))
    // only a send the transport accepted counts as delivered
    ensures r.delivered.Some? ==> send.Delivered?
    // a reply that passes every step before line 164 moves the cursor to its current_date, then sends
    // exactly when the message changed, reporting only send_message's error; without current_date it stops there
    ensures GetApiAnswer(s.cursor, clock, fetch).result.Ok? && ReplyHomeworks(fetch).Some?
            && (|ReplyHomeworks(fetch).value| > 0 ==> ParseStatus(ReplyHomeworks(fetch).value[0]).Ok?)
            ==> if ReplyDate(fetch).Some?
                then r.next.cursor == ReplyDate(fetch).value
                     && r.error == (if r.next.curr == s.prev then None else SendMessage(send))
                else r.error == Some(KeyError("current_date"))
    // the cursor 0 is replaced by the clock in the request
    ensures r.fromDate == if s.cursor == 0 then clock else s.cursor
    // a message goes out only when it differs from the previous one, and then becomes the previous one
    ensures r.delivered.Some? <==> r.error.None? && r.next.curr != s.prev
    ensures r.delivered.Some? ==> r.next.prev == r.delivered == r.next.curr
    ensures r.delivered.None? ==> r.next.prev == s.prev
    // the cursor advances to the server's current_date once line 164 is reached
    ensures r.error.None? || r.error.value.SendMessageError?
            ==> ReplyDate(fetch).Some? && r.next.cursor == ReplyDate(fetch).value
    // an exception in the fetch, check_response or parse_status changes nothing
    ensures r.error.Some? && RaisedBeforeUpdate(r.error.value) ==> r.next == s
    // a missing current_date keeps the cursor but not an already updated curr_message
    ensures r.error == Some(KeyError("current_date")) ==> r.next.cursor == s.cursor && r.next.prev == s.prev
    // a failed send advances the cursor and leaves prev_message stale
    ensures r.error.Some? && r.error.value.SendMessageError?
            ==> send.SendFailed? && r.next.prev == s.prev != r.next.curr
    // an empty homework list leaves curr_message alone
    ensures ReplyHomeworks(fetch) == Some([]) ==> r.next.curr == s.curr
  {
    var call := GetApiAnswer(s.cursor, clock, fetch);
    if call.result.Err? then CycleResult(s, call.fromDate, None, Some(call.result.error))
    else
      var response := call.result.value;
      var checked := CheckResponse(response);
      if checked.Err? then CycleResult(s, call.fromDate, None, Some(checked.error))
      else
        var homeworks := checked.value;
        if |homeworks| > 0 && ParseStatus(homeworks[0]).Err? then
          CycleResult(s, call.fromDate, None, Some(ParseStatus(homeworks[0]).error))
        else
          var curr := if |homeworks| > 0 then Some(ParseStatus(homeworks[0]).value) else s.curr;
          if response.currentDate.None? then
            CycleResult(s.(curr := curr), call.fromDate, None, Some(KeyError("current_date")))
          else
            var updated := PollState(curr, s.prev, response.currentDate.value);
            if curr == s.prev then CycleResult(updated, call.fromDate, None, None)
            else
              var failure := SendMessage(send);
              if failure.Some? then CycleResult(updated, call.fromDate, None, failure)
              else CycleResult(updated.(prev := curr), call.fromDate, curr, None)
  }

  // ---------------------------------------------------------------------
  // Properties of one and two cycles
  // ---------------------------------------------------------------------

  /** The cursor of the next request is the `current_date` the previous reply carried, not a local clock reading. */
  lemma CursorHandOff(s: PollState, clock1: int, fetch1: FetchOutcome, send1: SendOutcome,
                      clock2: int, fetch2: FetchOutcome, send2: SendOutcome)
    requires Consistent(s)
    requires var e := Cycle(s, clock1, fetch1, send1).error; e.None? || e.value.SendMessageError?
    ensures var date := ReplyDate(fetch1).value;
            Cycle(Cycle(s, clock1, fetch1, send1).next, clock2, fetch2, send2).fromDate
            == if date == 0 then clock2 else date
  {
  }

  /** Two consecutive cycles that compute the same message notify at most once. */
  lemma RepeatIsNotResent(s: PollState, clock1: int, fetch1: FetchOutcome, send1: SendOutcome,
                          clock2: int, fetch2: FetchOutcome, send2: SendOutcome)
    requires Consistent(s)
    requires Cycle(s, clock1, fetch1, send1).delivered.Some?
    requires Cycle(Cycle(s, clock1, fetch1, send1).next, clock2, fetch2, send2).next.curr
             == Cycle(s, clock1, fetch1, send1).next.curr
    ensures Cycle(Cycle(s, clock1, fetch1, send1).next, clock2, fetch2, send2).delivered.None?
  {
  }

  /**
   * A change of the newest homework's name or status is always sent: if the
   * previous notification came from `last`, a reply whose first homework is a
   * different known record triggers `send_message`.
   */
  lemma {:induction false} StatusChangeIsSent(s: PollState, last: Homework, clock: int, fetch: FetchOutcome, send: SendOutcome)
    requires Consistent(s)
    requires ParseStatus(last).Ok? && s.prev == Some(ParseStatus(last).value)
    requires fetch.Reply? && fetch.statusCode == 200 && ReplyHomeworks(fetch).Some? && ReplyDate(fetch).Some?
    requires |ReplyHomeworks(fetch).value| > 0
    requires var hw := ReplyHomeworks(fetch).value[0]; ParseStatus(hw).Ok? && hw != last
    ensures var r := Cycle(s, clock, fetch, send);
            r.next.curr != s.prev && (r.delivered.Some? || r.error == Some(SendMessageError(send.detail)))
  {
    var hw := ReplyHomeworks(fetch).value[0];
    if ParseStatus(hw) == ParseStatus(last) {
      ParseStatusInjective(hw, last);
    }
  }

  // ---------------------------------------------------------------------
  // Finite runs of the loop
  // ---------------------------------------------------------------------

  /**
   * What one loop iteration sees: whether the operator has asked to stop
   * before the flag is read at the top (lines 155-157), the clock, and
   * what the network and the chat transport do.
   */
  datatype Tick = Tick(stopRequested: bool, clock: int, fetch: FetchOutcome, send: SendOutcome)

  datatype RunResult = RunResult(state: PollState, flag: RunFlag, outbox: seq<string>)

  /** The loop run over `ticks`, from state `s` and flag `flag`: it breaks for good once the flag reads STOPPED. */
  function Run(s: PollState, flag: RunFlag, ticks: seq<Tick>): (r: RunResult)
    requires Consistent(s)
    ensures Consistent(r.state)
    ensures |r.outbox| <= |ticks|
    decreases |ticks|
  {
    if ticks == [] then RunResult(s, flag, [])
    else
      var before := Run(s, flag, ticks[..|ticks| - 1]);
      var t := ticks[|ticks| - 1];
      var flag' := if t.stopRequested then Stopped else before.flag;
      if flag' == Stopped then before.(flag := Stopped)
      else
        var c := Cycle(before.state, t.clock, t.fetch, t.send);
        RunResult(c.next, flag', before.outbox + Elements(c.delivered))
  }

  /** `prev_message` is always the last message delivered (or the initial one if none was). */
  lemma {:induction false} RunPrevIsLastDelivered(s: PollState, flag: RunFlag, ticks: seq<Tick>)
    requires Consistent(s)
    ensures var r := Run(s, flag, ticks);
            if r.outbox == [] then r.state.prev == s.prev else r.state.prev == Some(r.outbox[|r.outbox| - 1])
    decreases |ticks|
  {
    if ticks != [] {
      RunPrevIsLastDelivered(s, flag, ticks[..|ticks| - 1]);
    }
  }

  /** No message is ever delivered twice in a row, and the first one differs from the initial `prev_message`. */
  lemma {:induction false} RunNeverRepeats(s: PollState, flag: RunFlag, ticks: seq<Tick>)
    requires Consistent(s)
    ensures var out := Run(s, flag, ticks).outbox;
            (out != [] ==> s.prev != Some(out[0]))
            && forall i :: 0 <= i < |out| - 1 ==> out[i] != out[i + 1]
    decreases |ticks|
  {
    if ticks != [] {
      var init := ticks[..|ticks| - 1];
      RunNeverRepeats(s, flag, init);
      RunPrevIsLastDelivered(s, flag, init);
    }
  }

  /** Once the flag reads STOPPED, later iterations never run. */
  lemma {:induction false} RunStaysStopped(s: PollState, flag: RunFlag, ticks: seq<Tick>, k: nat)
    requires Consistent(s)
    requires k <= |ticks| && Run(s, flag, ticks[..k]).flag == Stopped
    ensures Run(s, flag, ticks) == Run(s, flag, ticks[..k])
    decreases |ticks| - k
  {
    if k < |ticks| {
      assert ticks[..k + 1][..k] == ticks[..k];
      RunStaysStopped(s, flag, ticks, k + 1);
    } else {
      assert ticks[..k] == ticks;
    }
  }

  /** A stop request before iteration `k` means nothing is sent from iteration `k` on. */
  lemma {:induction false} StopRequestEndsRun(s: PollState, flag: RunFlag, ticks: seq<Tick>, k: nat)
    requires Consistent(s)
    requires k < |ticks| && ticks[k].stopRequested
    ensures Run(s, flag, ticks) == Run(s, flag, ticks[..k]).(flag := Stopped)
  {
    assert ticks[..k + 1][..k] == ticks[..k];
    RunStaysStopped(s, flag, ticks, k + 1);
  }
}
