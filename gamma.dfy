/** The Gamma Deck Generator's `build`: validate the inputs, post a generation
    request, poll its status at most 24 times and report the deck's URLs. */
module Gamma {
  import opened Wrappers
  import opened PyText
  import opened PyJson

  const BaseUrl := "https://public-api.gamma.app/v1.0/generations"
  const MaxPolls := 24

  const MissingKey := "ERROR: Missing Gamma API key."
  const NoInputText := "ERROR: No input text provided."
  const TimedOut := "ERROR: Timeout. Gamma generation did not finish in time."

  /** The component's inputs; an input left unset (`None`) is the empty string,
      which `x or ""` makes equivalent. */
  datatype Inputs = Inputs(
    apiKey: string,
    inputText: string,
    textMode: string,
    format: string,
    themeId: string,
    additionalInstructions: string,
    exportAs: string)

  /** The outcome of `resp.json()`: the decoded value, or the message of the
      exception it raised. */
  datatype Decoded = Decoded(value: Json) | Undecodable(error: string)

  /** The outcome of one HTTP request: the message of the exception `requests`
      raised, or the status code, the raw text and its decoding. */
  datatype HttpResult = Failed(error: string) | Answer(status: int, text: string, body: Decoded)

  type Fields = map<string, string>

  /** The Gamma service as the component sees it: the answer to the POST for
      given headers and body, and the answer to the poll of a status URL with
      given headers at a given attempt (0-based). */
  datatype GammaApi = GammaApi(post: (Fields, Fields) -> HttpResult, poll: (string, Fields, nat) -> HttpResult)

  /** What `build` returns: a message, or an exception it does not catch
      (`.get` on a decoded value that is not a dict). */
  datatype Outcome = Message(text: string) | Uncaught

  /** Where the poll loop ends: an early `return` with a message, an uncaught
      exception, or the loop's end with the values `gamma_url`, `pdf_url` and
      `pptx_url` hold then (`None` when never set). */
  datatype PollOutcome =
    | Stopped(msg: string)
    | Crashed
    | Finished(gammaUrl: Option<Json>, pdfUrl: Option<Json>, pptxUrl: Option<Json>)

  /** What one poll answer does to the loop: go on (`pending`) or end it. */
  datatype PollStep = Pending | Stop(outcome: PollOutcome)

  /** `(x or "").strip() or None`, then tested for truthiness: present exactly
      when the stripped value is non-empty. */
  function Optional(x: string): Option<string> {
    var t := Strip(x);
    if t == "" then None else Some(t)
  }

  /** The headers of the POST. */
  function PostHeaders(apiKey: string): Fields {
    map["Content-Type" := "application/json", "X-API-KEY" := apiKey]
  }

  /** The headers of each poll. */
  function PollHeaders(apiKey: string): Fields {
    map["X-API-KEY" := apiKey, "accept" := "application/json"]
  }

  /** The request body: always the stripped input text, the text mode and the
      format (with their defaults), and each optional field exactly when its
      stripped value is non-empty. */
  function RequestBody(inputText: string, inp: Inputs): (b: Fields)
    ensures "inputText" in b && b["inputText"] == inputText
    ensures "textMode" in b && b["textMode"] == (if inp.textMode == "" then "generate" else inp.textMode)
    ensures "format" in b && b["format"] == (if inp.format == "" then "presentation" else inp.format)
    ensures ("themeId" in b <==> Strip(inp.themeId) != "")
            && ("themeId" in b ==> b["themeId"] == Strip(inp.themeId))
    ensures ("additionalInstructions" in b <==> Strip(inp.additionalInstructions) != "")
            && ("additionalInstructions" in b ==> b["additionalInstructions"] == Strip(inp.additionalInstructions))
    ensures ("exportAs" in b <==> Strip(inp.exportAs) != "")
            && ("exportAs" in b ==> b["exportAs"] == Strip(inp.exportAs))
    ensures b.Keys <= {"inputText", "textMode", "format", "themeId", "additionalInstructions", "exportAs"}
  {
    var base := map[
      "inputText" := inputText,
      "textMode" := if inp.textMode == "" then "generate" else inp.textMode,
      "format" := if inp.format == "" then "presentation" else inp.format];
    var withTheme := if Optional(inp.themeId).Some? then base["themeId" := Optional(inp.themeId).value] else base;
    var withExtra := if Optional(inp.additionalInstructions).Some? then withTheme["additionalInstructions" := Optional(inp.additionalInstructions).value] else withTheme;
    if Optional(inp.exportAs).Some? then withExtra["exportAs" := Optional(inp.exportAs).value] else withExtra
  }

  /** Fill the body dict, adding each optional field when it is set. */
  method AssembleBody(inputText: string, inp: Inputs) returns (body: Fields)
    ensures body == RequestBody(inputText, inp)
  {
    var textMode := if inp.textMode == "" then "generate" else inp.textMode;
    var fmt := if inp.format == "" then "presentation" else inp.format;
    var themeId := Optional(inp.themeId);
    var extra := Optional(inp.additionalInstructions);
    var exportAs := Optional(inp.exportAs);
    body := map["inputText" := inputText, "textMode" := textMode, "format" := fmt];
    if themeId.Some? {
      body := body["themeId" := themeId.value];
    }
    if extra.Some? {
      body := body["additionalInstructions" := extra.value];
    }
    if exportAs.Some? {
      body := body["exportAs" := exportAs.value];
    }
  }

  /** `f"{code} {text}"` after an error prefix. */
  function StatusError(prefix: string, code: int, text: string): string {
    prefix + Decimal(code) + " " + text
  }

  /** What the poll loop does with one answer: stop with an error, go on, or stop at `completed`. */
  function Classify(r: HttpResult, repr: Json -> string): PollStep {
    match r
    case Failed(e) => Stop(Stopped("ERROR: Error polling Gamma: " + e))
    case Answer(code, text, body) =>
      if !(200 <= code < 300) then Stop(Stopped(StatusError("ERROR: Poll error: ", code, text)))
      else match body
        case Undecodable(e) =>
          Stop(Stopped("ERROR: Could not decode poll response as JSON: " + e + ". Raw response: " + text))
        case Decoded(statusData) =>
          if !statusData.JDict? then Stop(Crashed)
          else
            var status := Get(statusData, "status");
            if status == Some(JStr("pending")) then Pending
            else if status == Some(JStr("completed")) then
              Stop(Finished(Get(statusData, "gammaUrl"), Get(statusData, "pdfUrl"), Get(statusData, "pptxUrl")))
            else Stop(Stopped("ERROR: Gamma generation error: " + Str(statusData, repr)))
  }

  /** Where polling ends when it starts at attempt `k`. */
  function PollFrom(api: GammaApi, url: string, apiKey: string, repr: Json -> string, k: nat): PollOutcome
    decreases MaxPolls - k
  {
    if k >= MaxPolls then Finished(None, None, None)
    else match Classify(api.poll(url, PollHeaders(apiKey), k), repr)
      case Pending => PollFrom(api, url, apiKey, repr, k + 1)
      case Stop(o) => o
  }

  /** The poll loop: at most 24 attempts, leaving by `continue`, `break` or `return`. */
  method PollGeneration(api: GammaApi, url: string, apiKey: string, repr: Json -> string) returns (o: PollOutcome)
    ensures o == PollFrom(api, url, apiKey, repr, 0)
  {
    var gammaUrl: Option<Json> := None;
    var pdfUrl: Option<Json> := None;
    var pptxUrl: Option<Json> := None;
    for attempt := 0 to MaxPolls
      invariant PollFrom(api, url, apiKey, repr, 0) == PollFrom(api, url, apiKey, repr, attempt)
      invariant gammaUrl == None && pdfUrl == None && pptxUrl == None
    {
      var r := api.poll(url, PollHeaders(apiKey), attempt);
      if r.Failed? {
        return Stopped("ERROR: Error polling Gamma: " + r.error);
      }
      if !(200 <= r.status < 300) {
        return Stopped(StatusError("ERROR: Poll error: ", r.status, r.text));
      }
      if r.body.Undecodable? {
        return Stopped("ERROR: Could not decode poll response as JSON: " + r.body.error + ". Raw response: " + r.text);
      }
      var statusData := r.body.value;
      if !statusData.JDict? {
        return Crashed;
      }
      var status := Get(statusData, "status");
      if status == Some(JStr("pending")) {
        continue;
      }
      if status == Some(JStr("completed")) {
        gammaUrl := Get(statusData, "gammaUrl");
        pdfUrl := Get(statusData, "pdfUrl");
        pptxUrl := Get(statusData, "pptxUrl");
        break;
      }
      return Stopped("ERROR: Gamma generation error: " + Str(statusData, repr));
    }
    o := Finished(gammaUrl, pdfUrl, pptxUrl);
  }

  /** The lines of the success message: the deck, then the PDF and PPTX URLs
      when they are truthy, in that order. */
  function DeckLines(gammaUrl: Json, pdfUrl: Option<Json>, pptxUrl: Option<Json>, repr: Json -> string): seq<string> {
    ["Gamma deck: " + Str(gammaUrl, repr)]
    + (if TruthyOpt(pdfUrl) then ["PDF: " + Str(pdfUrl.value, repr)] else [])
    + (if TruthyOpt(pptxUrl) then ["PPTX: " + Str(pptxUrl.value, repr)] else [])
  }

  /** The success message, grown line by line with `+=`. */
  method DeckMessage(gammaUrl: Json, pdfUrl: Option<Json>, pptxUrl: Option<Json>, repr: Json -> string) returns (msg: string)
    ensures msg == Join(DeckLines(gammaUrl, pdfUrl, pptxUrl, repr), "\n")
  {
    var deck := "Gamma deck: " + Str(gammaUrl, repr);
    ghost var lines := [deck];
    msg := deck;
    assert msg == Join(lines, "\n");
    if TruthyOpt(pdfUrl) {
      var line := "PDF: " + Str(pdfUrl.value, repr);
      JoinSnoc(lines, line);
      lines := lines + [line];
      msg := msg + "\n" + line;
    }
    assert msg == Join(lines, "\n");
    if TruthyOpt(pptxUrl) {
      var line := "PPTX: " + Str(pptxUrl.value, repr);
      JoinSnoc(lines, line);
      lines := lines + [line];
      msg := msg + "\n" + line;
    }
    assert lines == DeckLines(gammaUrl, pdfUrl, pptxUrl, repr);
  }

  /** Joining one more line appends a newline and that line. */
  lemma {:induction false} JoinSnoc(lines: seq<string>, line: string)
    requires lines != []
    ensures Join(lines + [line], "\n") == Join(lines, "\n") + "\n" + line
    decreases |lines|
  {
    if |lines| == 1 {
      assert (lines + [line])[1..] == [line];
    } else {
      assert (lines + [line])[1..] == lines[1..] + [line];
      JoinSnoc(lines[1..], line);
    }
  }

  /** The reply once polling has ended: the timeout error or the success message. */
  function Report(o: PollOutcome, repr: Json -> string): Outcome {
    match o
    case Stopped(msg) => Message(msg)
    case Crashed => Uncaught
    case Finished(g, pdf, pptx) =>
      if !TruthyOpt(g) then Message(TimedOut) else Message(Join(DeckLines(g.value, pdf, pptx, repr), "\n"))
  }

  /** `f"{GAMMA_BASE_URL}/{generation_id}"`. */
  function StatusUrl(generationId: Json, repr: Json -> string): string {
    BaseUrl + "/" + Str(generationId, repr)
  }

  /** The reply of `build` for some inputs and service behaviour. */
  function Reply(inp: Inputs, api: GammaApi, repr: Json -> string): Outcome {
    var apiKey, inputText := Strip(inp.apiKey), Strip(inp.inputText);
    if apiKey == "" then Message(MissingKey)
    else if inputText == "" then Message(NoInputText)
    else match api.post(PostHeaders(apiKey), RequestBody(inputText, inp))
      case Failed(e) => Message("ERROR: Error calling Gamma API: " + e)
      case Answer(code, text, body) =>
        if !(200 <= code < 300) then Message(StatusError("ERROR: Gamma error: ", code, text))
        else match body
          case Undecodable(e) =>
            Message("ERROR: Could not decode Gamma response as JSON: " + e + ". Raw response: " + text)
          case Decoded(data) =>
            if !data.JDict? then Uncaught
            else
              var generationId := Get(data, "generationId");
              if !TruthyOpt(generationId) then
                Message("ERROR: Gamma did not return generationId: " + Str(data, repr))
              else Report(PollFrom(api, StatusUrl(generationId.value, repr), apiKey, repr, 0), repr)
  }

  /** `build()`. The API key is checked before the input text; without a
      key, or without text, nothing is sent. */
  method Build(inp: Inputs, api: GammaApi, repr: Json -> string) returns (out: Outcome)
    ensures out == Reply(inp, api, repr)
    ensures Strip(inp.apiKey) == "" ==> out == Message(MissingKey)
    ensures Strip(inp.apiKey) != "" && Strip(inp.inputText) == "" ==> out == Message(NoInputText)
  {
    var apiKey := Strip(inp.apiKey);
    var inputText := Strip(inp.inputText);
    if apiKey == "" {
      return Message(MissingKey);
    }
    if inputText == "" {
      return Message(NoInputText);
    }
    var body := AssembleBody(inputText, inp);
    var resp := api.post(PostHeaders(apiKey), body);
    if resp.Failed? {
      return Message("ERROR: Error calling Gamma API: " + resp.error);
    }
    if !(200 <= resp.status < 300) {
      return Message(StatusError("ERROR: Gamma error: ", resp.status, resp.text));
    }
    if resp.body.Undecodable? {
      return Message("ERROR: Could not decode Gamma response as JSON: " + resp.body.error + ". Raw response: " + resp.text);
    }
    var data := resp.body.value;
    if !data.JDict? {
      return Uncaught;
    }
    var generationId := Get(data, "generationId");
    if !TruthyOpt(generationId) {
      return Message("ERROR: Gamma did not return generationId: " + Str(data, repr));
    }
    var polled := PollGeneration(api, StatusUrl(generationId.value, repr), apiKey, repr);
    if !(polled.Finished? && TruthyOpt(polled.gammaUrl)) {
      return Report(polled, repr);
    }
    var msg := DeckMessage(polled.gammaUrl.value, polled.pdfUrl, polled.pptxUrl, repr);
    out := Message(msg);
  }

  /** At most 24 polls are made: answers from attempt 24 on never matter, and
      neither do answers before the attempt polling starts from. */
  lemma {:induction false} PollsBounded(api: GammaApi, api': GammaApi, url: string, apiKey: string, repr: Json -> string, k: nat)
    requires forall j :: k <= j < MaxPolls ==>
               api.poll(url, PollHeaders(apiKey), j) == api'.poll(url, PollHeaders(apiKey), j)
    ensures PollFrom(api, url, apiKey, repr, k) == PollFrom(api', url, apiKey, repr, k)
    decreases MaxPolls - k
  {
    if k < MaxPolls {
      PollsBounded(api, api', url, apiKey, repr, k + 1);
    }
  }

  /** Polling ends at the first answer that is not `pending`, with what that
      answer says. */
  lemma {:induction false} FirstNonPending(api: GammaApi, url: string, apiKey: string, repr: Json -> string, k: nat, j: nat)
    requires k <= j < MaxPolls
    requires forall i :: k <= i < j ==> Classify(api.poll(url, PollHeaders(apiKey), i), repr) == Pending
    requires Classify(api.poll(url, PollHeaders(apiKey), j), repr).Stop?
    ensures PollFrom(api, url, apiKey, repr, k) == Classify(api.poll(url, PollHeaders(apiKey), j), repr).outcome
    decreases j - k
  {
    if k < j {
      FirstNonPending(api, url, apiKey, repr, k + 1, j);
    }
  }

  /** After an answer that ends the loop (an error, `completed`, any other
      status) no further poll is made: later answers do not change the outcome. */
  lemma NoPollAfterStop(api: GammaApi, api': GammaApi, url: string, apiKey: string, repr: Json -> string, j: nat)
    requires j < MaxPolls
    requires forall i :: 0 <= i <= j ==>
               api.poll(url, PollHeaders(apiKey), i) == api'.poll(url, PollHeaders(apiKey), i)
    requires forall i :: 0 <= i < j ==> Classify(api.poll(url, PollHeaders(apiKey), i), repr) == Pending
    requires Classify(api.poll(url, PollHeaders(apiKey), j), repr).Stop?
    ensures PollFrom(api, url, apiKey, repr, 0) == PollFrom(api', url, apiKey, repr, 0)
  {
    FirstNonPending(api, url, apiKey, repr, 0, j);
    FirstNonPending(api', url, apiKey, repr, 0, j);
  }

  /** Twenty-four `pending` answers end the loop with nothing set, which is
      reported as the timeout. */
  lemma {:induction false} AllPendingTimesOut(api: GammaApi, url: string, apiKey: string, repr: Json -> string, k: nat)
    requires k <= MaxPolls
    requires forall i :: k <= i < MaxPolls ==> Classify(api.poll(url, PollHeaders(apiKey), i), repr) == Pending
    ensures PollFrom(api, url, apiKey, repr, k) == Finished(None, None, None)
    ensures Report(PollFrom(api, url, apiKey, repr, k), repr) == Message(TimedOut)
    decreases MaxPolls - k
  {
    if k < MaxPolls {
      AllPendingTimesOut(api, url, apiKey, repr, k + 1);
    }
  }

  /** A `completed` answer without a truthy `gammaUrl` is reported as the
      timeout, whatever `pdfUrl` and `pptxUrl` hold. */
  lemma CompletedWithoutUrl(r: HttpResult, repr: Json -> string)
    requires Classify(r, repr).Stop? && Classify(r, repr).outcome.Finished?
    requires !TruthyOpt(Classify(r, repr).outcome.gammaUrl)
    ensures r.Answer? && r.body.Decoded? && r.body.value.JDict?
    ensures Get(r.body.value, "status") == Some(JStr("completed"))
    ensures Report(Classify(r, repr).outcome, repr) == Message(TimedOut)
  {
  }

  /** A poll answered with a status outside 200-299, after only `pending`
      answers, ends polling with the poll error and its code and text. */
  lemma PollStatusError(api: GammaApi, url: string, apiKey: string, repr: Json -> string, j: nat)
    requires j < MaxPolls
    requires forall i :: 0 <= i < j ==> Classify(api.poll(url, PollHeaders(apiKey), i), repr) == Pending
    requires var r := api.poll(url, PollHeaders(apiKey), j); r.Answer? && !(200 <= r.status < 300)
    ensures var r := api.poll(url, PollHeaders(apiKey), j);
      PollFrom(api, url, apiKey, repr, 0) == Stopped(StatusError("ERROR: Poll error: ", r.status, r.text))
  {
    FirstNonPending(api, url, apiKey, repr, 0, j);
  }

  /** A POST answered with a status outside 200-299 is reported with its code
      and text, and no poll answer can change that. */
  lemma PostStatusError(inp: Inputs, api: GammaApi, poll': (string, Fields, nat) -> HttpResult, repr: Json -> string)
    requires Strip(inp.apiKey) != "" && Strip(inp.inputText) != ""
    requires var r := api.post(PostHeaders(Strip(inp.apiKey)), RequestBody(Strip(inp.inputText), inp));
      r.Answer? && !(200 <= r.status < 300)
    ensures var r := api.post(PostHeaders(Strip(inp.apiKey)), RequestBody(Strip(inp.inputText), inp));
      Reply(inp, api, repr) == Message(StatusError("ERROR: Gamma error: ", r.status, r.text))
      && Reply(inp, api.(poll := poll'), repr) == Reply(inp, api, repr)
  {
  }

  /** Polling happens only after a successful POST whose decoded answer holds
      a truthy `generationId`: otherwise the poll answers cannot change the reply. */
  lemma PollsNeedGenerationId(inp: Inputs, api: GammaApi, poll': (string, Fields, nat) -> HttpResult, repr: Json -> string)
    requires Reply(inp, api, repr) != Reply(inp, api.(poll := poll'), repr)
    ensures Strip(inp.apiKey) != "" && Strip(inp.inputText) != ""
    ensures var r := api.post(PostHeaders(Strip(inp.apiKey)), RequestBody(Strip(inp.inputText), inp));
      r.Answer? && 200 <= r.status < 300 && r.body.Decoded? && r.body.value.JDict?
      && TruthyOpt(Get(r.body.value, "generationId"))
  {
  }

  /** A prefix followed by text without line boundaries has none. */
  lemma NoBreakConcat(a: string, b: string)
    requires NoBreak(a) && NoBreak(b)
    ensures NoBreak(a + b)
  {
    forall k | 0 <= k < |a + b| ensures !IsLineBreak((a + b)[k]) {
      if k >= |a| {
        assert (a + b)[k] == b[k - |a|];
      }
    }
  }

  /** The success message reads back, line by line, as the deck line followed
      by the PDF and PPTX lines that are present, when the URLs hold no line
      boundaries. */
  lemma DeckMessageLines(gammaUrl: Json, pdfUrl: Option<Json>, pptxUrl: Option<Json>, repr: Json -> string)
    requires NoBreak(Str(gammaUrl, repr))
    requires pdfUrl.Some? ==> NoBreak(Str(pdfUrl.value, repr))
    requires pptxUrl.Some? ==> NoBreak(Str(pptxUrl.value, repr))
    ensures SplitLines(Join(DeckLines(gammaUrl, pdfUrl, pptxUrl, repr), "\n")) == DeckLines(gammaUrl, pdfUrl, pptxUrl, repr)
  {
    var lines := DeckLines(gammaUrl, pdfUrl, pptxUrl, repr);
    NoBreakConcat("Gamma deck: ", Str(gammaUrl, repr));
    if pdfUrl.Some? {
      NoBreakConcat("PDF: ", Str(pdfUrl.value, repr));
    }
    if pptxUrl.Some? {
      NoBreakConcat("PPTX: ", Str(pptxUrl.value, repr));
    }
    forall i | 0 <= i < |lines| ensures NoBreak(lines[i]) && lines[i] != "" {
    }
    SplitLinesOfJoin(lines);
  }
}
