/**
 One attempt from the moment its response is there: what the retry loop gets to see.  The response and
 the JSON parser are parameters.
 */
module ApiCalls {
  import opened Common
  import opened Records
  import opened Retry
  import opened Texts
  import opened ThinkTags
  import opened Extractor

  /** A body that is not JSON, JSON that is no completion, or a completion with whatever count it names. */
  datatype Payload = NotJson | NoCompletion | Completion(content: string, tokens: Json)

  datatype Response = NoResponse | Response(code: nat, retryAfter: RetryAfter, payload: Payload)

  predicate IsSuccess(code: nat) {
    200 <= code <= 299
  }

  /**
   A count that cannot be added to the running totals raises after the answer has been parsed and before
   it is returned, so such an answer is lost.
   */
  ghost function Received(r: Response, parse: Parser): Outcome {
    match r
    case NoResponse => Unexpected
    case Response(code, retryAfter, payload) =>
      if !IsSuccess(code) then Status(code, retryAfter)
      else
        match payload
        case NotJson => MalformedJson
        case NoCompletion => Unexpected
        case Completion(content, tokens) =>
          var body := Content(content, parse);
          if body == None then MalformedJson
          else if Countable(tokens) then Answered(body.value, tokens)
          else Unexpected
  }

  /** The statements after the request, each of which may raise. */
  method SingleApiCall(r: Response, parse: Parser) returns (o: Outcome)
    ensures o == Received(r, parse)
  {
    if r.NoResponse? {
      return Unexpected;
    }
    if !IsSuccess(r.code) {
      return Status(r.code, r.retryAfter);
    }
    if r.payload.NotJson? {
      return MalformedJson;
    }
    if r.payload.NoCompletion? {
      return Unexpected;
    }
    var result := ParseContent(r.payload.content, parse);
    if result == None {
      return MalformedJson;
    }
    if !Countable(r.payload.tokens) {
      return Unexpected;
    }
    return Answered(result.value, r.payload.tokens);
  }

  /** An attempt answers exactly when a successful response holds a completion that parses, with a countable count. */
  lemma AnsweredIff(r: Response, parse: Parser)
    ensures Received(r, parse).Answered? <==>
              && r.Response? && IsSuccess(r.code) && r.payload.Completion? && Countable(r.payload.tokens)
              && (parse(StripThinkTags(r.payload.content)).Some?
                  || exists i, j :: TopBlock(SearchText(r.payload.content), i, j)
                                    && parse(SearchText(r.payload.content)[i..j]).Some?)
  {
    if r.Response? && r.payload.Completion? {
      ExtractedIffTopBlockParses(SearchText(r.payload.content), parse);
    }
  }

  /** A ticket whose answers all name a count that cannot be added fails like any exhausted one. */
  lemma UncountableIsExhausted(c: RetrySettings, ticket: string, responses: seq<Response>, parse: Parser,
                               answers: seq<Outcome>, draws: seq<real>)
    requires c.maxRetries >= 1 && |responses| == |answers| == |draws| == c.maxRetries
    requires forall k :: 0 <= k < |responses| ==> answers[k] == Received(responses[k], parse)
    requires forall k :: 0 <= k < |responses| ==>
               var r := responses[k];
               r.Response? && IsSuccess(r.code) && r.payload.Completion? && !Countable(r.payload.tokens)
    ensures var t := RunFrom(c, ticket, answers, draws, 1);
            t.attempts == c.maxRetries && t.raw == Exhausted(ticket)
  {
    forall k | 0 <= k < |answers|
      ensures !Decisive(c, k + 1, answers[k])
    {
      assert answers[k] == Received(responses[k], parse);
    }
    FirstDecisiveFrom(c, ticket, answers, draws, 1, c.maxRetries + 1);
  }

  // ---------- from the responses to the ticket ----------

  /** The outcomes of a ticket's attempts, one response each. */
  ghost function Outcomes(responses: seq<Response>, parse: Parser): (answers: seq<Outcome>)
    ensures |answers| == |responses|
  {
    seq(|responses|, i requires 0 <= i < |responses| => Received(responses[i], parse))
  }

  /** What the loop makes of these responses from this attempt on. */
  ghost function Handled(c: RetrySettings, ticket: string, responses: seq<Response>, parse: Parser, draws: seq<real>,
                         attempt: nat): Trail
    requires |responses| == |draws| == c.maxRetries && 1 <= attempt <= c.maxRetries
  {
    RunFrom(c, ticket, Outcomes(responses, parse), draws, attempt)
  }

  /** The ticket fails with this error text. */
  function FailsWith(ticket: string, error: string): Raw {
    Value(map["category" := Null, "priority" := Null, "summary" := Null,
              "error" := Text(error), "ticket" := Text(ticket), "tokens" := Number(0.0)])
  }

  /** The attempt is followed by the next one after `pause`, or, if it is the last one, the ticket is exhausted. */
  ghost predicate GoesOnAfter(c: RetrySettings, ticket: string, responses: seq<Response>, parse: Parser,
                              draws: seq<real>, attempt: nat, pause: seq<real>)
    requires |responses| == |draws| == c.maxRetries && 1 <= attempt <= c.maxRetries
  {
    var t := Handled(c, ticket, responses, parse, draws, attempt);
    if attempt == c.maxRetries then t == Trail(FailsWith(ticket, "max_retries_exceeded"), attempt, [])
    else
      var rest := Handled(c, ticket, responses, parse, draws, attempt + 1);
      t == rest.(sleeps := pause + rest.sleeps)
  }

  lemma HandledByDecision(c: RetrySettings, ticket: string, responses: seq<Response>, parse: Parser, draws: seq<real>,
                          attempt: nat)
    requires |responses| == |draws| == c.maxRetries && 1 <= attempt <= c.maxRetries
    ensures var d := Decide(c, ticket, attempt, Received(responses[attempt - 1], parse), draws[attempt - 1]);
            match d
            case Return(raw) => Handled(c, ticket, responses, parse, draws, attempt) == Trail(raw, attempt, [])
            case Sleep(s) => GoesOnAfter(c, ticket, responses, parse, draws, attempt, [s])
            case Again => GoesOnAfter(c, ticket, responses, parse, draws, attempt, [])
  {
    var answers := Outcomes(responses, parse);
    assert answers[attempt - 1] == Received(responses[attempt - 1], parse);
  }

  /** The statuses 400, 401, 403 and 422 end the ticket at that attempt, with the status in the error. */
  lemma FatalStatusEnds(c: RetrySettings, ticket: string, responses: seq<Response>, parse: Parser, draws: seq<real>,
                        attempt: nat)
    requires |responses| == |draws| == c.maxRetries && 1 <= attempt <= c.maxRetries
    requires var r := responses[attempt - 1];
             r.Response? && (r.code == 400 || r.code == 401 || r.code == 403 || r.code == 422)
    ensures var code := responses[attempt - 1].code;
            var text := if code == 400 then "http_400" else if code == 401 then "http_401"
                        else if code == 403 then "http_403" else "http_422";
            Handled(c, ticket, responses, parse, draws, attempt) == Trail(FailsWith(ticket, text), attempt, [])
  {
    var r := responses[attempt - 1];
    HandledByDecision(c, ticket, responses, parse, draws, attempt);
    FatalDecision(c, ticket, attempt, r.code, r.retryAfter, draws[attempt - 1]);
    FatalText(r.code);
  }

  lemma FatalDecision(c: RetrySettings, ticket: string, attempt: nat, code: nat, retryAfter: RetryAfter, draw: real)
    requires attempt >= 1 && (code == 400 || code == 401 || code == 403 || code == 422)
    ensures Decide(c, ticket, attempt, Status(code, retryAfter), draw) == Return(FailsWith(ticket,
    "http_" + Decimal(code)))
  {
  }

  lemma FatalText(code: nat)
    requires code == 400 || code == 401 || code == 403 || code == 422
    ensures "http_" + Decimal(code) == if code == 400 then "http_400" else if code == 401 then "http_401"
                                       else if code == 403 then "http_403" else "http_422"
  {
    assert Decimal(4) == "4";
    assert Decimal(40) == "40" && Decimal(42) == "42";
    assert Decimal(code) == Decimal(code / 10) + [DIGITS[code % 10]];
  }

  /**
   A 429 that is followed by another attempt sleeps exactly the delay it names; one whose delay cannot be
   read ends the ticket with an exception.  At the last attempt the ticket is exhausted.
   */
  lemma RateLimitIsHonoured(c: RetrySettings, ticket: string, responses: seq<Response>, parse: Parser, draws: seq<real>,
                            attempt: nat)
    requires |responses| == |draws| == c.maxRetries && 1 <= attempt <= c.maxRetries
    requires var r := responses[attempt - 1]; r.Response? && r.code == 429 && !r.retryAfter.Absent?
    ensures var after := responses[attempt - 1].retryAfter;
            if after.Seconds? then GoesOnAfter(c, ticket, responses, parse, draws, attempt, [after.s])
            else if attempt == c.maxRetries then GoesOnAfter(c, ticket, responses, parse, draws, attempt, [])
            else Handled(c, ticket, responses, parse, draws, attempt)
                   == Trail(Raised("ValueError", after.text), attempt, [])
  {
    HandledByDecision(c, ticket, responses, parse, draws, attempt);
  }

  /** Responses after which the ticket backs off: nothing usable came back, or the server was at fault. */
  ghost predicate BacksOff(r: Response, parse: Parser) {
    || r.NoResponse?
    || r.code == 500 || r.code == 503 || (r.code == 429 && r.retryAfter.Absent?)
    || (200 <= r.code <= 299 && !GivesObject(r.payload, parse))
  }

  ghost predicate GivesObject(p: Payload, parse: Parser) {
    && p.Completion? && Countable(p.tokens)
    && Content(p.content, parse).Some? && Content(p.content, parse).value.Object?
  }

  /** They pause for base * 2^(k-1), give or take a fifth, before attempt k + 1. */
  lemma TroubleBacksOff(c: RetrySettings, ticket: string, responses: seq<Response>, parse: Parser, draws: seq<real>,
                        attempt: nat)
    requires |responses| == |draws| == c.maxRetries && 1 <= attempt <= c.maxRetries
    requires BacksOff(responses[attempt - 1], parse) && IsDraw(draws[attempt - 1]) && c.backoffBase >= 0.0
    ensures exists s :: GoesOnAfter(c, ticket, responses, parse, draws, attempt, [s])
                        && 0.8 * Backoff(c, attempt) <= s <= 1.2 * Backoff(c, attempt)
  {
    HandledByDecision(c, ticket, responses, parse, draws, attempt);
    var d := Decide(c, ticket, attempt, Received(responses[attempt - 1], parse), draws[attempt - 1]);
    WhatFollows(c, ticket, attempt, Received(responses[attempt - 1], parse), draws[attempt - 1]);
    TroubleIsSeen(responses[attempt - 1], parse);
    var s := if d.Sleep? then d.seconds else Backoff(c, attempt);
    BackoffDoubles(c, attempt);
    assert GoesOnAfter(c, ticket, responses, parse, draws, attempt, [s]);
  }

  lemma TroubleIsSeen(r: Response, parse: Parser)
    requires BacksOff(r, parse)
    ensures var o := Received(r, parse);
            Pauses(o) && NamesNoDelay(o) && forall attempt, c :: attempt >= 1 ==> !Decisive(c, attempt, o)
  {
  }

  /** Any other failing status, such as 404, goes on to the next attempt at once. */
  lemma OtherStatusGoesOn(c: RetrySettings, ticket: string, responses: seq<Response>, parse: Parser, draws: seq<real>,
                          attempt: nat)
    requires |responses| == |draws| == c.maxRetries && 1 <= attempt <= c.maxRetries
    requires var r := responses[attempt - 1];
             && r.Response? && !(200 <= r.code <= 299)
             && r.code !in {400, 401, 403, 422, 429, 500, 503}
    ensures GoesOnAfter(c, ticket, responses, parse, draws, attempt, [])
  {
    HandledByDecision(c, ticket, responses, parse, draws, attempt);
  }

  /** An object in a successful response is the result, with the count put in. */
  lemma ObjectIsReturned(c: RetrySettings, ticket: string, responses: seq<Response>, parse: Parser, draws: seq<real>,
                         attempt: nat)
    requires |responses| == |draws| == c.maxRetries && 1 <= attempt <= c.maxRetries
    requires var r := responses[attempt - 1]; r.Response? && 200 <= r.code <= 299 && GivesObject(r.payload, parse)
    ensures var p := responses[attempt - 1].payload;
            Handled(c, ticket, responses, parse, draws, attempt)
              == Trail(Value(Content(p.content, parse).value.fields["tokens" := p.tokens]), attempt, [])
  {
    HandledByDecision(c, ticket, responses, parse, draws, attempt);
  }

  /** From the response to the ticket's result: the object after any reasoning, with the count, at that attempt. */
  lemma AnswerIsReturned(c: RetrySettings, ticket: string, responses: seq<Response>, parse: Parser, draws: seq<real>,
                         attempt: nat, reasoning: string, before: string, body: string, after: string)
    requires |responses| == |draws| == c.maxRetries && 1 <= attempt <= c.maxRetries
    requires AllSpace(before) && AllSpace(after) && body != "" && Trim(body) && !Contains(body, CLOSE_TAG)
    requires parse(body).Some? && parse(body).value.Object?
    ensures var r := responses[attempt - 1];
            && r.Response? && 200 <= r.code <= 299 && r.payload.Completion? && Countable(r.payload.tokens)
            && r.payload.content == reasoning + "</think>" + before + body + after ==>
              Handled(c, ticket, responses, parse, draws, attempt)
                == Trail(Value(parse(body).value.fields["tokens" := r.payload.tokens]), attempt, [])
  {
    var r := responses[attempt - 1];
    if r.Response? && r.payload.Completion? && r.payload.content == reasoning + "</think>" + before + body + after {
      ReasoningIsIgnored(reasoning, before, body, after, parse);
      assert Content(r.payload.content, parse) == parse(body);
      if 200 <= r.code <= 299 && Countable(r.payload.tokens) {
        ObjectIsReturned(c, ticket, responses, parse, draws, attempt);
      }
    }
  }
}
