/**
  The completion adapter: `validate_messages`, which checks the shape of a
  chat history, and the retry policy of `get_4o_answer`, which sends the
  system prompt followed by the history to the completion service at most
  `max_retries` times and classifies each failure.

  Nothing in the worker calls `validate_messages`; it is modelled as a
  check that the histories the engine builds would pass, not as a step the
  engine takes.

  The service itself is a parameter: `service(request, k)` is the outcome of
  the `k`-th request (counting from 0) carrying `request`.
 */
module Completion {
  import Text

  /** One chat turn `{"role": ..., "content": ...}`. */
  datatype Msg = Msg(role: string, content: string)

  /** The Python values `validate_messages` can be handed. */
  datatype PyValue =
    | PyList(items: seq<PyValue>)
    | PyDict(entries: map<string, PyValue>)
    | PyStr(s: string)
    | PyNone
    | PyOther

  /** Returning normally, or raising `ValueError` with its message. */
  datatype Validation = Accepted | ValueError(message: string)

  const NotAList := "Expected 'messages' to be a list."
  const NotADict := "Each message should be a dictionary."
  const MissingKeys := "Each message dictionary should contain 'role' and 'content'."

  /** An element that passes both per-message checks. */
  predicate IsMessage(v: PyValue) {
    v.PyDict? && "role" in v.entries && "content" in v.entries
  }

  /** The error the per-message checks raise for an element that fails them. */
  function MessageError(v: PyValue): string {
    if v.PyDict? then MissingKeys else NotADict
  }

  /** The `for msg in messages` loop: the first failing element decides the error. */
  function CheckEach(items: seq<PyValue>): (r: Validation)
    ensures r == Accepted <==> forall i :: 0 <= i < |items| ==> IsMessage(items[i])
    ensures r != Accepted ==>
              exists i :: 0 <= i < |items| && !IsMessage(items[i]) && r == ValueError(MessageError(items[i]))
                          && forall j :: 0 <= j < i ==> IsMessage(items[j])
  {
    if items == [] then Accepted
    else if !items[0].PyDict? then ValueError(NotADict)
    else if "role" !in items[0].entries || "content" !in items[0].entries then ValueError(MissingKeys)
    else
      var r := CheckEach(items[1..]);
      assert forall i :: 0 < i < |items| ==> items[i] == items[1..][i - 1];
      if r != Accepted then
        var i :| 0 <= i < |items[1..]| && !IsMessage(items[1..][i]) && r == ValueError(MessageError(items[1..][i]))
                 && forall j :: 0 <= j < i ==> IsMessage(items[1..][j]);
        assert !IsMessage(items[i + 1]) && forall j :: 0 <= j < i + 1 ==> IsMessage(items[j]);
        r
      else r
  }

  /** `validate_messages(messages)`. */
  function ValidateMessages(v: PyValue): (r: Validation)
    ensures r == Accepted <==> v.PyList? && forall i :: 0 <= i < |v.items| ==> IsMessage(v.items[i])
    ensures !v.PyList? ==> r == ValueError(NotAList)
    ensures r != Accepted ==> r.message in {NotAList, NotADict, MissingKeys}
  {
    if !v.PyList? then ValueError(NotAList) else CheckEach(v.items)
  }

  /** How the history is held in Python: a list of two-key dictionaries. */
  function AsPython(history: seq<Msg>): PyValue {
    PyList(seq(|history|, i requires 0 <= i < |history| =>
      PyDict(map["role" := PyStr(history[i].role), "content" := PyStr(history[i].content)])))
  }

  /** Every history of role/content turns, the shape the engine builds,
      would pass validation (the engine itself never calls it). */
  lemma HistoryValidates(history: seq<Msg>)
    ensures ValidateMessages(AsPython(history)) == Accepted
  {
  }

  /** What one request to the completion service can end in: the reply
      text, or one of the exceptions `get_4o_answer` tells apart
      (`UnknownError` stands for its catch-all `except Exception`). */
  datatype Outcome =
    | Content(text: string)
    | RateLimitError
    | APIConnectionError
    | InvalidRequestError
    | UnknownError

  /** The failures after which `get_4o_answer` tries again. */
  predicate Retried(o: Outcome): (r: bool)
    ensures r <==> !o.Content? && !o.InvalidRequestError?
  {
    o.RateLimitError? || o.APIConnectionError? || o.UnknownError?
  }

  /** The returned text and the number of requests that were issued. */
  datatype Answer = Answer(text: string, requests: nat)

  /** The text returned when no request succeeded. */
  const Fallback := "Извините, мне сейчас неудобно слушать ваше сообщение в таком формате. Можете написать текстом?"

  /** The default of `max_retries`. */
  const DefaultMaxRetries := 3

  /** The largest number of requests a call with `maxRetries` may issue. */
  function RequestBudget(maxRetries: int): nat {
    if maxRetries > 0 then maxRetries else 0
  }

  /** The retry loop from the point where `retries` requests have failed
      with a retried error: the specification of `GetAnswer`. */
  function Attempts(request: seq<Msg>, maxRetries: int, service: (seq<Msg>, nat) -> Outcome, retries: nat): Answer
    decreases maxRetries - retries
  {
    if retries >= maxRetries then Answer(Fallback, retries)
    else match service(request, retries)
      case Content(t) => Answer(Text.Strip(t), retries + 1)
      case InvalidRequestError => Answer(Fallback, retries + 1)
      case _ => Attempts(request, maxRetries, service, retries + 1)
  }

  /** The retry loop issues at most `max_retries` requests, and at least one
      when `max_retries` is positive; its text is the fallback or the
      stripped reply of one of the requests it issued. */
  lemma {:induction false} AttemptsBounded(request: seq<Msg>, maxRetries: int, service: (seq<Msg>, nat) -> Outcome, retries: nat)
    requires retries <= RequestBudget(maxRetries)
    ensures var a := Attempts(request, maxRetries, service, retries);
            && retries <= a.requests <= RequestBudget(maxRetries)
            && (retries < maxRetries ==> retries < a.requests)
            && (a.text == Fallback || (a.requests > 0 && service(request, a.requests - 1).Content?
                                       && a.text == Text.Strip(service(request, a.requests - 1).text)))
    decreases maxRetries - retries
  {
    if retries < maxRetries {
      var o := service(request, retries);
      if Retried(o) {
        AttemptsBounded(request, maxRetries, service, retries + 1);
      } else {
        assert Attempts(request, maxRetries, service, retries).requests == retries + 1;
      }
    }
  }

  /** A reply the loop returns, rather than the fallback, carries no
      surrounding whitespace: a second `strip()` leaves it as it is. */
  lemma AnswerTrimmed(request: seq<Msg>, maxRetries: int, service: (seq<Msg>, nat) -> Outcome)
    ensures var a := Attempts(request, maxRetries, service, 0);
            a.text != Fallback ==> Text.Strip(a.text) == a.text
  {
    AttemptsBounded(request, maxRetries, service, 0);
    var a := Attempts(request, maxRetries, service, 0);
    if a.text != Fallback {
      Text.StripIdempotent(service(request, a.requests - 1).text);
    }
  }

  /** When the first `k` requests fail with retried errors and request `k`
      (within the budget) does not, request `k` decides: a reply is
      returned stripped, an `InvalidRequestError` ends the loop with the
      fallback; either way exactly `k + 1` requests were issued. */
  lemma {:induction false} FirstDecisiveRequest(request: seq<Msg>, maxRetries: int, service: (seq<Msg>, nat) -> Outcome, k: nat)
    requires k < maxRetries
    requires forall j :: 0 <= j < k ==> Retried(service(request, j))
    requires !Retried(service(request, k))
    ensures var a := Attempts(request, maxRetries, service, 0);
            && a.requests == k + 1
            && a.text == (if service(request, k).Content? then Text.Strip(service(request, k).text) else Fallback)
  {
    AttemptsFrom(request, maxRetries, service, 0, k);
  }

  /** When every request within the budget fails with a retried error, the
      budget is used up and the fallback text is returned. */
  lemma {:induction false} AllRequestsRetried(request: seq<Msg>, maxRetries: int, service: (seq<Msg>, nat) -> Outcome)
    requires forall j :: 0 <= j < maxRetries ==> Retried(service(request, j))
    ensures Attempts(request, maxRetries, service, 0) == Answer(Fallback, RequestBudget(maxRetries))
  {
    if maxRetries > 0 {
      AttemptsFrom(request, maxRetries, service, 0, maxRetries);
    }
  }

  /** Retried failures between `lo` and `hi` are skipped over. */
  lemma {:induction false} AttemptsFrom(request: seq<Msg>, maxRetries: int, service: (seq<Msg>, nat) -> Outcome, lo: nat, hi: nat)
    requires lo <= hi <= maxRetries
    requires forall j :: lo <= j < hi ==> Retried(service(request, j))
    ensures Attempts(request, maxRetries, service, lo) == Attempts(request, maxRetries, service, hi)
    decreases hi - lo
  {
    if lo < hi {
      AttemptsFrom(request, maxRetries, service, lo + 1, hi);
    }
  }

  /** `get_4o_answer(messages, max_retries)`: builds the request as a new
      sequence, the system prompt followed by the history, and runs the
      bounded retry loop on it. */
  method GetAnswer(prompt: seq<Msg>, messages: seq<Msg>, maxRetries: int, service: (seq<Msg>, nat) -> Outcome)
    returns (text: string, requests: nat)
    ensures Answer(text, requests) == Attempts(prompt + messages, maxRetries, service, 0)
    ensures requests <= RequestBudget(maxRetries)
  {
    var fullContext := prompt + messages;
    ghost var spec := Attempts(fullContext, maxRetries, service, 0);
    AttemptsBounded(fullContext, maxRetries, service, 0);
    var retries: nat := 0;
    requests := 0;
    while retries < maxRetries
      invariant Attempts(fullContext, maxRetries, service, retries) == spec
    {
      match service(fullContext, retries)
      case Content(t) =>
        assert spec == Answer(Text.Strip(t), retries + 1);
        return Text.Strip(t), retries + 1;
      case RateLimitError =>
        retries := retries + 1;
      case APIConnectionError =>
        retries := retries + 1;
      case InvalidRequestError =>
        assert spec == Answer(Fallback, retries + 1);
        requests := retries + 1;
        break;
      case UnknownError =>
        retries := retries + 1;
    }
    if requests == 0 {
      // the loop ran out of budget; every issued request was retried
      assert spec == Answer(Fallback, retries);
      requests := retries;
    }
    text := Fallback;
  }
}
