/**
 * The exceptions a polling cycle can raise: the four classes declared in
 * exeptions.py and the Python built-ins that the bot's own code raises
 * (KeyError on a missing dictionary key, TypeError on subscripting a value
 * that is not a dictionary or on a homework list that is not a list, and the
 * JSON decoding error of `response.json()`).
 */
module Errors {

  /** Why `get_api_answer` raised APIConnectionError. */
  datatype ApiFailure =
    | Transport(detail: string)   // `requests.get` itself raised
    | NotFound                    // HTTP 404
    | BadStatus(code: int)        // any other status code except 200
  {
    /** The text the exception carries. */
    function Message(): (m: string)
      ensures |m| > 0
      ensures NotFound? <==> m[0] == 'Э'
      ensures NotFound? ==> m == EndpointUnavailable
      ensures Transport? ==> m == ConnectionFailedPrefix + detail
      ensures BadStatus? ==> |m| > |ConnectionFailedPrefix| && m[..|ConnectionFailedPrefix|] == ConnectionFailedPrefix
                             && m[|ConnectionFailedPrefix|..] == IntToDecimal(code)
    {
      match this
      case Transport(detail) => ConnectionFailedPrefix + detail
      case NotFound => EndpointUnavailable
      case BadStatus(code) => ConnectionFailedPrefix + IntToDecimal(code)
    }
  }

  const ConnectionFailedPrefix := "Ошибка подключения к API: "

  /** The fixed message of a 404 answer. */
  const EndpointUnavailable :=
    "Эндпоинт https://practicum.yandex.ru" + "/api/user_api/homework_statuses/ недоступен. " + "Код ответа API: 404"

  datatype Error =
    | APIConnectionError(cause: ApiFailure)
    | UnknownStatusError(status: string)
    | IncorrectKeyError                 // declared, never raised (see Homework.CheckResponse)
    | SendMessageError(detail: string)
    | KeyError(key: string)
    | TypeError
    | JSONDecodeError

  predicate IsDigit(c: char) { '0' <= c <= '9' }

  /** Python's `str(n)` for a non-negative integer. */
  function NatToDecimal(n: nat): (s: string)
    ensures |s| > 0
    ensures forall i :: 0 <= i < |s| ==> IsDigit(s[i])
    ensures s[0] == '0' <==> n == 0
  {
    var d := ['0', '1', '2', '3', '4', '5', '6', '7', '8', '9'][n % 10];
    if n < 10 then [d] else NatToDecimal(n / 10) + [d]
  }

  /** The number a string of decimal digits denotes. */
  function DecimalValue(s: string): int
    requires forall i :: 0 <= i < |s| ==> IsDigit(s[i])
  {
    if s == [] then 0 else DecimalValue(s[..|s| - 1]) * 10 + (s[|s| - 1] as int - '0' as int)
  }

  /** Round trip: the digits `NatToDecimal` writes denote `n`. */
  lemma {:induction false} NatToDecimalValue(n: nat)
    ensures DecimalValue(NatToDecimal(n)) == n
  {
    var s := NatToDecimal(n);
    if n >= 10 {
      NatToDecimalValue(n / 10);
      assert s[..|s| - 1] == NatToDecimal(n / 10);
    }
  }

  /** Python's `str(n)` for any integer, as an f-string formats a status code. */
  function IntToDecimal(n: int): (s: string)
    ensures |s| > 0
    ensures s[0] == '-' <==> n < 0
    ensures forall i :: 0 < i < |s| ==> IsDigit(s[i])
    ensures n < 0 ==> |s| > 1 && s[1] != '0'
    ensures n >= 0 ==> (s[0] == '0' <==> n == 0)
  {
    if n < 0 then "-" + NatToDecimal(-n) else NatToDecimal(n)
  }

  /** Round trip: the text `IntToDecimal` writes is an optional minus sign and the digits of the magnitude. */
  lemma IntToDecimalValue(n: int)
    ensures var s := IntToDecimal(n);
            if n < 0 then DecimalValue(s[1..]) == -n else DecimalValue(s) == n
  {
    if n < 0 {
      NatToDecimalValue(-n);
      assert IntToDecimal(n)[1..] == NatToDecimal(-n);
    } else {
      NatToDecimalValue(n);
    }
  }
}
