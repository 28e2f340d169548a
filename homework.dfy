/**
 * The pure helpers of homework.py: the status table, `parse_status`,
 * `check_response`, `check_tokens`, `send_message` and the status-code
 * branching of `get_api_answer`. The network and the JSON decoder are
 * replaced by the outcome they produce.
 */
module Homework {
  import opened Wrappers
  import opened Errors

  // ---------------------------------------------------------------------
  // Data: the decoded JSON answer of the homework-status endpoint
  // ---------------------------------------------------------------------

  /** One element of the `homeworks` list: a dictionary whose keys may be missing, or some other JSON value. */
  datatype Homework = Record(name: Option<string>, status: Option<string>) | NotRecord

  /** The value under the `homeworks` key. */
  datatype HomeworksField = List(items: seq<Homework>) | NotList

  /** The decoded body: a dictionary whose keys may be missing, or some other JSON value. */
  datatype Json = Object(homeworks: Option<HomeworksField>, currentDate: Option<int>) | NotObject

  /** What the HTTP request produced: `requests.get` raised, or a reply whose body may not decode. */
  datatype FetchOutcome = TransportFailure(detail: string) | Reply(statusCode: int, body: Option<Json>)

  /** What `bot.send_message` did. */
  datatype SendOutcome = Delivered | SendFailed(detail: string)

  const HttpOk := 200
  const HttpNotFound := 404

  // ---------------------------------------------------------------------
  // HOMEWORK_STATUSES and parse_status
  // ---------------------------------------------------------------------

  const CheckedPrefix := "Работа проверена: "
  const ApprovedVerdict := CheckedPrefix + "ревьюеру всё понравилось. Ура!"
  const ReviewingVerdict := "Работа взята на проверку ревьюером."
  const RejectedVerdict := CheckedPrefix + "у ревьюера есть замечания."

  /** The three known review statuses and their verdicts. */
  const HomeworkStatuses: map<string, string> :=
    map["approved" := ApprovedVerdict, "reviewing" := ReviewingVerdict, "rejected" := RejectedVerdict]

  const MessagePrefix := "Изменился статус проверки работы \""
  const NameSeparator := "\". "

  /** The notification text for a homework name and a verdict. */
  function StatusMessage(name: string, verdict: string): (m: string)
    ensures |m| == |MessagePrefix| + |name| + |NameSeparator| + |verdict|
    ensures m[..|MessagePrefix|] == MessagePrefix
    ensures m[|MessagePrefix|..|MessagePrefix| + |name|] == name
    ensures m[|m| - |NameSeparator + verdict|..] == NameSeparator + verdict
  {
    MessagePrefix + name + NameSeparator + verdict
  }

  /**
   * `parse_status`: look up `homework_name`, then `status`, then translate the
   * status through the table; an unknown status raises UnknownStatusError
   * and no message is produced.
   */
  function ParseStatus(hw: Homework): (r: Result<string, Error>)
    ensures r.Ok? <==> hw.Record? && hw.name.Some? && hw.status.Some?
                       && hw.status.value in {"approved", "reviewing", "rejected"}
    ensures hw.Record? && hw.name.Some? && hw.status.Some? && hw.status.value !in {"approved", "reviewing", "rejected"}
            ==> r == Err(UnknownStatusError(hw.status.value))
    ensures hw.Record? && hw.name.None? ==> r == Err(KeyError("homework_name"))
    ensures r.Ok? ==> |r.value| > |MessagePrefix| + |hw.name.value| && r.value[..|MessagePrefix|] == MessagePrefix
  {
    match hw
    case NotRecord => Err(TypeError)
    case Record(name, status) =>
      if name.None? then Err(KeyError("homework_name"))
      else if status.None? then Err(KeyError("status"))
      else if status.value !in HomeworkStatuses then Err(UnknownStatusError(status.value))
      else Ok(StatusMessage(name.value, HomeworkStatuses[status.value]))
  }

  lemma KnownStatusMessages(name: string)
    ensures ParseStatus(Record(Some(name), Some("approved")))
         == Ok("Изменился статус проверки работы \"" + name + "\". " + ("Работа проверена: " + "ревьюеру всё понравилось. Ура!"))
    ensures ParseStatus(Record(Some(name), Some("reviewing")))
         == Ok("Изменился статус проверки работы \"" + name + "\". " + "Работа взята на проверку ревьюером.")
    ensures ParseStatus(Record(Some(name), Some("rejected")))
         == Ok("Изменился статус проверки работы \"" + name + "\". " + ("Работа проверена: " + "у ревьюера есть замечания."))
  {
  }

  // ---------------------------------------------------------------------
  // Reading a notification back: the inverse of parse_status
  // ---------------------------------------------------------------------

  /** The homework name, if `m` is the message for status `status`. */
  function NameIfStatus(m: string, status: string): (r: Option<string>)
    requires status in HomeworkStatuses
    ensures r.Some? ==> m == StatusMessage(r.value, HomeworkStatuses[status])
  {
    var tail := NameSeparator + HomeworkStatuses[status];
    if |m| >= |MessagePrefix| + |tail| && m[..|MessagePrefix|] == MessagePrefix && m[|m| - |tail|..] == tail
    then
      var name := m[|MessagePrefix|..|m| - |tail|];
      assert m == MessagePrefix + name + tail by {
        assert m == m[..|MessagePrefix|] + m[|MessagePrefix|..|m| - |tail|] + m[|m| - |tail|..];
      }
      Some(name)
    else None
  }

  /** The (name, status) pair a notification was made from, if any. */
  function DecodeMessage(m: string): (r: Option<(string, string)>)
    ensures r.Some? ==> ParseStatus(Record(Some(r.value.0), Some(r.value.1))) == Ok(m)
  {
    if NameIfStatus(m, "approved").Some? then Some((NameIfStatus(m, "approved").value, "approved"))
    else if NameIfStatus(m, "reviewing").Some? then Some((NameIfStatus(m, "reviewing").value, "reviewing"))
    else if NameIfStatus(m, "rejected").Some? then Some((NameIfStatus(m, "rejected").value, "rejected"))
    else None
  }

  /** If `m` ends with `t`, their last two characters agree. */
  lemma EndsWith(m: string, t: string)
    requires 2 <= |t| <= |m| && m[|m| - |t|..] == t
    ensures m[|m| - 1] == t[|t| - 1] && m[|m| - 2] == t[|t| - 2]
  {
  }

  /** The message of a status is not the message of any other status. */
  lemma {:induction false} NameIfOtherStatus(name: string, status: string, other: string)
    requires status in HomeworkStatuses && other in HomeworkStatuses && status != other
    ensures NameIfStatus(StatusMessage(name, HomeworkStatuses[status]), other).None?
  {
    var m := StatusMessage(name, HomeworkStatuses[status]);
    var tail := NameSeparator + HomeworkStatuses[other];
    var own := NameSeparator + HomeworkStatuses[status];
    if NameIfStatus(m, other).Some? {
      EndsWith(m, tail);
      EndsWith(m, own);
      assert false;
    }
  }

  /** Round trip: every message `parse_status` produces reads back as the name and status it came from. */
  lemma {:induction false} ParseStatusRoundTrip(hw: Homework)
    requires ParseStatus(hw).Ok?
    ensures DecodeMessage(ParseStatus(hw).value) == Some((hw.name.value, hw.status.value))
  {
    var name, status := hw.name.value, hw.status.value;
    var m := ParseStatus(hw).value;
    assert NameIfStatus(m, status) == Some(name);
    if status != "approved" {
      NameIfOtherStatus(name, status, "approved");
    }
    if status == "rejected" {
      NameIfOtherStatus(name, status, "reviewing");
    }
  }

  /** Distinct (name, status) pairs yield distinct messages, so a status change is never mistaken for a repeat. */
  lemma ParseStatusInjective(a: Homework, b: Homework)
    requires ParseStatus(a).Ok? && ParseStatus(b).Ok?
    requires ParseStatus(a) == ParseStatus(b)
    ensures a == b
  {
    ParseStatusRoundTrip(a);
    ParseStatusRoundTrip(b);
  }

  // ---------------------------------------------------------------------
  // check_response
  // ---------------------------------------------------------------------

  /**
   * `check_response`: the subscript `response['homeworks']` on line 98 runs
   * before the `try`, so a missing key raises KeyError there and a body that
   * is not a dictionary raises TypeError; the IncorrectKeyError handler can
   * never run.
   */
  function CheckResponse(response: Json): (r: Result<seq<Homework>, Error>)
    ensures r.Ok? <==> response.Object? && response.homeworks.Some? && response.homeworks.value.List?
    ensures r.Ok? ==> r.value == response.homeworks.value.items
    ensures response.Object? && response.homeworks.None? <==> r == Err(KeyError("homeworks"))
    ensures response.NotObject? || (response.homeworks.Some? && response.homeworks.value.NotList?)
            ==> r == Err(TypeError)
    ensures r.Err? ==> r.error != IncorrectKeyError
  {
    match response
    case NotObject => Err(TypeError)
    case Object(homeworks, _) =>
      if homeworks.None? then Err(KeyError("homeworks"))
      else if homeworks.value.NotList? then Err(TypeError)
      else Ok(homeworks.value.items)
  }

  // ---------------------------------------------------------------------
  // check_tokens
  // ---------------------------------------------------------------------

  /** Python truthiness of an environment variable: set and not empty. */
  predicate Truthy(v: Option<string>) { v.Some? && v.value != "" }

  /** Python's `all` over a sequence of values. */
  predicate All(vs: seq<Option<string>>)
  {
    vs == [] || (Truthy(vs[0]) && All(vs[1..]))
  }

  lemma {:induction false} AllIsEvery(vs: seq<Option<string>>)
    ensures All(vs) <==> forall i :: 0 <= i < |vs| ==> Truthy(vs[i])
  {
    if vs != [] {
      AllIsEvery(vs[1..]);
      assert forall i :: 0 < i < |vs| ==> vs[i] == vs[1..][i - 1];
    }
  }

  /** `check_tokens`: all three credentials are set and non-empty. */
  function CheckTokens(practicumToken: Option<string>, telegramToken: Option<string>, chatId: Option<string>): (ok: bool)
    ensures ok <==> practicumToken.Some? && practicumToken.value != ""
                    && telegramToken.Some? && telegramToken.value != ""
                    && chatId.Some? && chatId.value != ""
  {
    var tokens := [practicumToken, telegramToken, chatId];
    AllIsEvery(tokens);
    assert Truthy(tokens[0]) && Truthy(tokens[1]) && Truthy(tokens[2]) ==> All(tokens);
    All(tokens)
  }

  // ---------------------------------------------------------------------
  // get_api_answer and send_message
  // ---------------------------------------------------------------------

  /** The request `get_api_answer` makes and what it returns or raises. */
  datatype ApiCall = ApiCall(fromDate: int, result: Result<Json, Error>)

  /**
   * `get_api_answer`: a cursor of 0 is falsy and is replaced by the clock;
   * a transport failure, a 404 and any other non-200 code raise
   * APIConnectionError; a 200 returns the decoded body, and a body that
   * does not decode raises the decoder's own error unwrapped.
   */
  function GetApiAnswer(cursor: int, clock: int, outcome: FetchOutcome): (r: ApiCall)
    ensures cursor != 0 ==> r.fromDate == cursor
    ensures cursor == 0 ==> r.fromDate == clock
    ensures r.result.Ok? <==> outcome.Reply? && outcome.statusCode == 200 && outcome.body.Some?
    ensures r.result.Ok? ==> r.result.value == outcome.body.value
    ensures outcome.TransportFailure? ==> r.result == Err(APIConnectionError(Transport(outcome.detail)))
    ensures outcome.Reply? && outcome.statusCode == 404
            ==> r.result == Err(APIConnectionError(NotFound))
    ensures outcome.Reply? && outcome.statusCode != 200 && outcome.statusCode != 404
            ==> r.result == Err(APIConnectionError(BadStatus(outcome.statusCode)))
    ensures outcome.Reply? && outcome.statusCode == 200 && outcome.body.None? ==> r.result == Err(JSONDecodeError)
    ensures r.result.Err? && !r.result.error.APIConnectionError? <==> r.result == Err(JSONDecodeError)
  {
    var timestamp := if cursor != 0 then cursor else clock;
    match outcome
    case TransportFailure(detail) => ApiCall(timestamp, Err(APIConnectionError(Transport(detail))))
    case Reply(code, body) =>
      if code == HttpOk then
        ApiCall(timestamp, if body.Some? then Ok(body.value) else Err(JSONDecodeError))
      else if code == HttpNotFound then ApiCall(timestamp, Err(APIConnectionError(NotFound)))
      else ApiCall(timestamp, Err(APIConnectionError(BadStatus(code))))
  }

  /** `send_message`: any failure of the chat transport is re-raised as SendMessageError. */
  function SendMessage(outcome: SendOutcome): (r: Option<Error>)
    ensures r.None? <==> outcome.Delivered?
    ensures r.Some? ==> r.value.SendMessageError?
  {
    match outcome
    case Delivered => None
    case SendFailed(detail) => Some(SendMessageError(detail))
  }
}
