/** The data-collection layer the tools call: the instrumented generation
    request, which emits analytics around the request and, on success,
    records the interaction and the generated content; the four named
    tracking helpers; and the document click handler that records copies.
    Every telemetry write goes through withErrorHandling, so none of them can
    change what the caller sees. */
module DataCollection {
  import opened Js
  import opened FirebaseConfig
  import opened FirestoreService

  // Analytics event names.
  const ApiCallStart := "api_call_start"
  const ApiCallSuccess := "api_call_success"
  const ApiCallError := "api_call_error"
  const ApiCallNoResponse := "api_call_no_response"
  const ToolUsage := "tool_usage"
  const FormSubmission := "form_submission"
  const PageView := "page_view"
  const UserAction := "user_action"

  const CopyResult := "copy_result"
  const NoResponseMessage := "No response from Gemini"

  /** What the generation endpoint's request yields: either fetch or the JSON
      parse fails, or the parsed body has an `error` field (None when absent)
      and text at candidates[0].content.parts[0].text (None when the path is
      missing). A JSON `null` body, whose `data.error` read throws a
      TypeError into the catch block, is a TransportFailure carrying that
      TypeError's message. Both fields are strings: a truthy non-string text,
      whose `length` is undefined, cannot be expressed. */
  datatype Response =
    | TransportFailure(message: string)
    | Body(error: Option<string>, text: Option<string>)

  // -----------------------------------------------------------------------
  // Event payloads

  function StartData(prompt: string, toolName: string, inlineData: Value): Value
  {
    Obj(map["toolName" := Str(toolName), "promptLength" := Num(|prompt|), "hasInlineData" := Bool(Truthy(inlineData))])
  }

  function ErrorData(toolName: string, message: string, duration: int): Value
  {
    Obj(map["toolName" := Str(toolName), "error" := Str(message), "duration" := Num(duration)])
  }

  function NoResponseData(toolName: string, duration: int): Value
  {
    Obj(map["toolName" := Str(toolName), "duration" := Num(duration)])
  }

  function SuccessData(toolName: string, duration: int, text: string): Value
  {
    Obj(map["toolName" := Str(toolName), "duration" := Num(duration), "responseLength" := Num(|text|)])
  }

  function InteractionInput(prompt: string, inputData: Value): Value
  {
    Obj(map["prompt" := Str(prompt), "inputData" := inputData])
  }

  function InteractionOutput(text: string, duration: int): Value
  {
    Obj(map["content" := Str(text), "responseTime" := Num(duration)])
  }

  function ContentMetadata(prompt: string, text: string, duration: int, inputData: Value): Value
  {
    Obj(map["promptLength" := Num(|prompt|), "responseLength" := Num(|text|),
            "responseTime" := Num(duration), "inputData" := inputData])
  }

  // -----------------------------------------------------------------------
  // The instrumented generation call, as the specification

  /** What callGeminiApiWithDataCollection returns or throws. It depends on
      the response alone, never on the telemetry writes. */
  function GeminiOutcome(response: Response): (r: Result<string>)
    ensures r.Ok? <==> response.Body? && !NonEmpty(response.error) && NonEmpty(response.text)
    ensures r.Ok? ==> r.value == response.text.value && r.value != ""
  {
    match response
    case TransportFailure(message) => Failure(message)
    case Body(error, text) =>
      if NonEmpty(error) then Failure(error.value)
      else if NonEmpty(text) then Ok(text.value)
      else Failure(NoResponseMessage)
  }

  /** The writes inside the try block, after the request: none on a
      transport failure, one api_call_error before an error field is thrown,
      interaction, content and api_call_success on a text response, and
      api_call_no_response when there is no text. */
  function TryCalls(prompt: string, toolName: string, inputData: Value, response: Response,
                    duration: int, finish: nat): seq<Call>
  {
    match response
    case TransportFailure(_) => []
    case Body(error, text) =>
      if NonEmpty(error) then
        [RecordEvent(ApiCallError, ErrorData(toolName, error.value, duration), finish)]
      else if NonEmpty(text) then
        [RecordInteraction(toolName, InteractionInput(prompt, inputData), InteractionOutput(text.value, duration), None, finish),
         RecordContent(toolName, text.value, ContentMetadata(prompt, text.value, duration, inputData), finish),
         RecordEvent(ApiCallSuccess, SuccessData(toolName, duration, text.value), finish)]
      else
        [RecordEvent(ApiCallNoResponse, NoResponseData(toolName, duration), finish)]
  }

  /** The write the catch block makes: an api_call_error with the thrown message. */
  function CatchCalls(toolName: string, outcome: Result<string>, duration: int, finish: nat): seq<Call>
  {
    if outcome.Failure? then [RecordEvent(ApiCallError, ErrorData(toolName, outcome.message, duration), finish)] else []
  }

  /** The telemetry writes callGeminiApiWithDataCollection issues, in order.
      `start` and `finish` are the clock before and after the request. */
  function GeminiCalls(prompt: string, toolName: string, inputData: Value, inlineData: Value,
                       response: Response, start: nat, finish: nat): seq<Call>
  {
    [RecordEvent(ApiCallStart, StartData(prompt, toolName, inlineData), start)]
      + TryCalls(prompt, toolName, inputData, response, finish - start, finish)
      + CatchCalls(toolName, GeminiOutcome(response), finish - start, finish)
  }

  /** What kind of write a call is, by collection and, for analytics, event name. */
  datatype Label = Event(name: string) | InteractionWrite | ContentWrite

  function LabelOf(c: Call): Label
  {
    match c
    case RecordInteraction(_, _, _, _, _) => InteractionWrite
    case RecordContent(_, _, _, _) => ContentWrite
    case RecordEvent(name, _, _) => Event(name)
  }

  function Trace(calls: seq<Call>): (t: seq<Label>)
    ensures |t| == |calls|
  {
    seq(|calls|, k requires 0 <= k < |calls| => LabelOf(calls[k]))
  }

  /** Whatever the response, api_call_start goes first, with the prompt's
      length and whether inline data was given, stamped before the request. */
  lemma ApiCallStartComesFirst(prompt: string, toolName: string, inputData: Value, inlineData: Value,
                               response: Response, start: nat, finish: nat)
    ensures var calls := GeminiCalls(prompt, toolName, inputData, inlineData, response, start, finish);
      && |calls| >= 2
      && calls[0].RecordEvent? && calls[0].eventName == ApiCallStart && calls[0].at == start
      && calls[0].eventData.Obj?
      && calls[0].eventData.fields["promptLength"] == Num(|prompt|)
      && calls[0].eventData.fields["hasInlineData"] == Bool(Truthy(inlineData))
      && calls[0].eventData.fields["toolName"] == Str(toolName)
  {
  }

  /** An `error` field in the body: two api_call_error events with that
      message (the first before the throw, the second from the catch), no
      interaction or content, and the error reaches the caller. */
  lemma ErrorFieldPath(prompt: string, toolName: string, inputData: Value, inlineData: Value,
                       response: Response, start: nat, finish: nat)
    requires response.Body? && NonEmpty(response.error)
    ensures var calls := GeminiCalls(prompt, toolName, inputData, inlineData, response, start, finish);
      && Trace(calls) == [Event(ApiCallStart), Event(ApiCallError), Event(ApiCallError)]
      && calls[1].eventData.fields["error"] == calls[2].eventData.fields["error"] == Str(response.error.value)
      && GeminiOutcome(response) == Failure(response.error.value)
  {
  }

  /** No text at the expected path: api_call_no_response, then the catch's
      api_call_error with "No response from Gemini", which is thrown. */
  lemma NoTextPath(prompt: string, toolName: string, inputData: Value, inlineData: Value,
                   response: Response, start: nat, finish: nat)
    requires response.Body? && !NonEmpty(response.error) && !NonEmpty(response.text)
    ensures var calls := GeminiCalls(prompt, toolName, inputData, inlineData, response, start, finish);
      && Trace(calls) == [Event(ApiCallStart), Event(ApiCallNoResponse), Event(ApiCallError)]
      && calls[2].eventData.fields["error"] == Str(NoResponseMessage)
      && GeminiOutcome(response) == Failure(NoResponseMessage)
  {
  }

  /** A text response: one interaction, one content record carrying the
      prompt and response lengths, one api_call_success, in that order; the
      text itself is returned. */
  lemma TextPath(prompt: string, toolName: string, inputData: Value, inlineData: Value,
                 response: Response, start: nat, finish: nat)
    requires response.Body? && !NonEmpty(response.error) && NonEmpty(response.text)
    ensures var calls := GeminiCalls(prompt, toolName, inputData, inlineData, response, start, finish);
      var text := response.text.value;
      && Trace(calls) == [Event(ApiCallStart), InteractionWrite, ContentWrite, Event(ApiCallSuccess)]
      && calls[1].toolName == toolName && calls[1].outputData.fields["content"] == Str(text)
      && calls[2].toolName == toolName && calls[2].body == text
      && calls[2].metadata.fields["responseLength"] == Num(|text|)
      && calls[2].metadata.fields["promptLength"] == Num(|prompt|)
      && calls[3].eventData.fields["responseLength"] == Num(|text|)
      && GeminiOutcome(response) == Ok(text)
  {
  }

  /** fetch or the JSON parse fails: exactly one api_call_error after
      api_call_start, and the original error is rethrown. */
  lemma TransportFailurePath(prompt: string, toolName: string, inputData: Value, inlineData: Value,
                             response: Response, start: nat, finish: nat)
    requires response.TransportFailure?
    ensures var calls := GeminiCalls(prompt, toolName, inputData, inlineData, response, start, finish);
      && Trace(calls) == [Event(ApiCallStart), Event(ApiCallError)]
      && calls[1].eventData.fields["error"] == Str(response.message)
      && GeminiOutcome(response) == Failure(response.message)
  {
  }

  /** Interaction and content records are written exactly when the call
      returns text: on every failing path the fallback buffers for them stay
      as they were. */
  lemma RecordsOnlyOnSuccess(prompt: string, toolName: string, inputData: Value, inlineData: Value,
                             response: Response, start: nat, finish: nat, sid: string, b: Browser)
    ensures var calls := GeminiCalls(prompt, toolName, inputData, inlineData, response, start, finish);
      && (GeminiOutcome(response).Failure? <==> FallbackInteractions(calls, sid, b) == [])
      && (GeminiOutcome(response).Failure? <==> FallbackContent(calls, sid) == [])
      && (GeminiOutcome(response).Ok? ==> |FallbackAnalytics(calls, sid, b)| == 2)
      && (GeminiOutcome(response).Failure? ==> |FallbackAnalytics(calls, sid, b)| == |calls|)
  {
    var calls := GeminiCalls(prompt, toolName, inputData, inlineData, response, start, finish);
    var r1 := calls[1..];
    var r2 := r1[1..];
    assert FallbackInteractions(calls, sid, b) == FallbackInteractions(r1, sid, b);
    assert FallbackContent(calls, sid) == FallbackContent(r1, sid);
    assert |FallbackAnalytics(calls, sid, b)| == 1 + |FallbackAnalytics(r1, sid, b)|;
    if |calls| == 2 {
      assert r2 == [];
    } else if |calls| == 3 {
      // Two more analytics events.
      assert r2 == [calls[2]] && r2[1..] == [];
      assert FallbackInteractions(r1, sid, b) == FallbackInteractions(r2, sid, b) == [];
      assert FallbackContent(r1, sid) == FallbackContent(r2, sid) == [];
      assert |FallbackAnalytics(r1, sid, b)| == 1 + |FallbackAnalytics(r2, sid, b)| == 2;
    } else {
      // An interaction, a content record, then api_call_success.
      var r3 := r2[1..];
      assert r2 == [calls[2], calls[3]] && r3 == [calls[3]] && r3[1..] == [];
      assert FallbackInteractions(r3, sid, b) == [];
      assert FallbackInteractions(r1, sid, b) != [];
      assert FallbackContent(r3, sid) == [];
      assert FallbackContent(r2, sid) != [];
      assert FallbackContent(r1, sid) == FallbackContent(r2, sid);
      assert |FallbackAnalytics(r3, sid, b)| == 1;
      assert FallbackAnalytics(r2, sid, b) == FallbackAnalytics(r3, sid, b);
      assert FallbackAnalytics(r1, sid, b) == FallbackAnalytics(r2, sid, b);
    }
  }

  /** A generation call that fails leaves the interaction and content
      buffers as they were, whichever backend is selected; in fallback mode
      a successful one appends exactly one of each. */
  lemma FailedCallKeepsNoRecords(w: World, remote: bool, b: Browser, prompt: string, toolName: string,
                                 inputData: Value, inlineData: Value, response: Response, start: nat,
                                 finish: nat, randomDigits: string)
    ensures var w' := Run(w, remote, b, GeminiCalls(prompt, toolName, inputData, inlineData, response, start, finish), randomDigits);
      && (GeminiOutcome(response).Failure? ==> w'.interactions == w.interactions && w'.content == w.content)
      && (GeminiOutcome(response).Ok? && !remote ==>
            |w'.interactions| == |w.interactions| + 1 && |w'.content| == |w.content| + 1
            && w'.content[|w.content|].content == response.text.value)
  {
    var calls := GeminiCalls(prompt, toolName, inputData, inlineData, response, start, finish);
    var sid := RunSessionId(w, calls, randomDigits);
    RecordsOnlyOnSuccess(prompt, toolName, inputData, inlineData, response, start, finish, sid, b);
    if remote {
      RemoteRun(w, remote, b, calls, randomDigits);
    } else {
      FallbackRun(w, remote, b, calls, randomDigits);
      if GeminiOutcome(response).Ok? {
        var r1 := calls[1..];
        assert r1[1..] == [calls[2], calls[3]] && r1[1..][1..] == [calls[3]] && r1[1..][1..][1..] == [];
        assert FallbackContent(r1[1..][1..], sid) == [];
        assert FallbackContent(calls, sid) == FallbackContent(r1[1..], sid);
        assert FallbackInteractions(r1[1..][1..], sid, b) == [];
        assert FallbackInteractions(r1[1..], sid, b) == FallbackInteractions(r1[1..][1..], sid, b);
        assert |FallbackInteractions(r1, sid, b)| == 1;
      }
    }
  }

  // -----------------------------------------------------------------------
  // Tracking payloads

  /** `{toolName, timestamp, ...additionalData}`: the spread comes last, so
      additionalData overrides toolName and timestamp when it has them. */
  function ToolUsageData(toolName: string, iso: string, additionalData: Fields): (d: Fields)
    ensures d.Keys == {"toolName", "timestamp"} + additionalData.Keys
    ensures forall k :: k in additionalData ==> d[k] == additionalData[k]
    ensures "toolName" !in additionalData ==> d["toolName"] == Str(toolName)
    ensures "timestamp" !in additionalData ==> d["timestamp"] == Str(iso)
  {
    map["toolName" := Str(toolName), "timestamp" := Str(iso)] + additionalData
  }

  function FormSubmissionData(toolName: string, formData: Value, iso: string): Value
  {
    Obj(map["toolName" := Str(toolName), "formData" := formData, "timestamp" := Str(iso)])
  }

  function PageViewData(pageName: string, b: Browser, iso: string): Value
  {
    Obj(map["pageName" := Str(pageName), "url" := Str(b.href), "referrer" := Str(b.referrer), "timestamp" := Str(iso)])
  }

  /** A null tool name is kept as null in the payload. */
  function UserActionData(action: string, toolName: Option<string>, data: Value, iso: string): Value
  {
    Obj(map["action" := Str(action), "toolName" := (if toolName.Some? then Str(toolName.value) else Null),
            "data" := data, "timestamp" := Str(iso)])
  }

  /** The copy-click test: the clicked element's text contains "Copy" (a null
      textContent does not), or its class list contains "copy-btn". */
  function IsCopyClick(textContent: Option<string>, classList: seq<string>): (r: bool)
    ensures r <==> (textContent.Some? && exists i: nat :: OccursAt(textContent.value, "Copy", i))
                   || (exists k :: 0 <= k < |classList| && classList[k] == "copy-btn")
  {
    (textContent.Some? && Includes(textContent.value, "Copy")) || "copy-btn" in classList
  }

  // -----------------------------------------------------------------------
  // The imperative layer

  /** `await withErrorHandling(fn)(...args)` for the record-writing fn the
      call names: the write happens on whichever path the gate selects, and
      its failure, if any, becomes None. */
  method Contained(store: EventStore, call: Call, randomDigits: string) returns (id: Option<string>)
    requires store.Valid()
    modifies store
    ensures store.Valid()
    ensures store.State() == Step(old(store.State()), IsFirebaseConfigured(store.config), store.browser, call, randomDigits)
    ensures id == WithErrorHandling(StepResult(old(store.State()), IsFirebaseConfigured(store.config), call))
  {
    var outcome: Result<string>;
    match call {
      case RecordInteraction(toolName, inputData, outputData, userAgent, at) =>
        outcome := store.TrackUserInteraction(toolName, inputData, outputData, userAgent, at, randomDigits);
      case RecordContent(toolName, body, metadata, at) =>
        outcome := store.StoreGeneratedContent(toolName, body, metadata, at, randomDigits);
      case RecordEvent(eventName, eventData, at) =>
        outcome := store.TrackAnalytics(eventName, eventData, at, randomDigits);
    }
    id := WithErrorHandling(outcome);
  }

  /** One wrapped write inside a longer sequence: after it, the store is
      where running the writes so far, and then this one, takes it. */
  method Emit(store: EventStore, ghost w0: World, ghost done: seq<Call>, call: Call, randomDigits: string)
    requires store.Valid()
    requires store.State() == Run(w0, IsFirebaseConfigured(store.config), store.browser, done, randomDigits)
    modifies store
    ensures store.Valid()
    ensures store.State() == Run(w0, IsFirebaseConfigured(store.config), store.browser, done + [call], randomDigits)
  {
    var ignored := Contained(store, call, randomDigits);
    RunSnoc(w0, IsFirebaseConfigured(store.config), store.browser, done, call, randomDigits);
  }

  /** The writes of a text response, in order: the interaction, the
      generated content, and api_call_success. */
  method RecordGenerated(store: EventStore, ghost w0: World, ghost done: seq<Call>, prompt: string, toolName: string,
                         inputData: Value, generatedContent: string, duration: int, finish: nat, randomDigits: string)
    requires store.Valid()
    requires store.State() == Run(w0, IsFirebaseConfigured(store.config), store.browser, done, randomDigits)
    modifies store
    ensures store.Valid()
    ensures store.State() == Run(w0, IsFirebaseConfigured(store.config), store.browser,
                                 done + [RecordInteraction(toolName, InteractionInput(prompt, inputData),
                                                           InteractionOutput(generatedContent, duration), None, finish),
                                         RecordContent(toolName, generatedContent,
                                                       ContentMetadata(prompt, generatedContent, duration, inputData), finish),
                                         RecordEvent(ApiCallSuccess, SuccessData(toolName, duration, generatedContent), finish)],
                                 randomDigits)
  {
    var interaction := RecordInteraction(toolName, InteractionInput(prompt, inputData),
                                         InteractionOutput(generatedContent, duration), None, finish);
    var stored := RecordContent(toolName, generatedContent,
                                ContentMetadata(prompt, generatedContent, duration, inputData), finish);
    var success := RecordEvent(ApiCallSuccess, SuccessData(toolName, duration, generatedContent), finish);
    Emit(store, w0, done, interaction, randomDigits);
    Emit(store, w0, done + [interaction], stored, randomDigits);
    Emit(store, w0, done + [interaction] + [stored], success, randomDigits);
    assert done + [interaction] + [stored] + [success] == done + [interaction, stored, success];
  }

  /** The try block of callGeminiApiWithDataCollection, after the request:
      it makes the writes TryCalls lists and then returns the text or throws
      the outcome's error. */
  method TryRequest(store: EventStore, ghost w0: World, ghost done: seq<Call>, prompt: string, toolName: string,
                    inputData: Value, response: Response, duration: int, finish: nat, randomDigits: string)
    returns (outcome: Result<string>)
    requires store.Valid()
    requires store.State() == Run(w0, IsFirebaseConfigured(store.config), store.browser, done, randomDigits)
    modifies store
    ensures store.Valid()
    ensures outcome == GeminiOutcome(response)
    ensures store.State() == Run(w0, IsFirebaseConfigured(store.config), store.browser,
                                 done + TryCalls(prompt, toolName, inputData, response, duration, finish), randomDigits)
  {
    match response {
      case TransportFailure(message) =>
        outcome := Failure(message);
        assert done + [] == done;
      case Body(error, text) =>
        if NonEmpty(error) {
          Emit(store, w0, done, RecordEvent(ApiCallError, ErrorData(toolName, error.value, duration), finish), randomDigits);
          outcome := Failure(error.value);
        } else if NonEmpty(text) {
          var generatedContent := text.value;
          RecordGenerated(store, w0, done, prompt, toolName, inputData, generatedContent, duration, finish, randomDigits);
          outcome := Ok(generatedContent);
        } else {
          Emit(store, w0, done, RecordEvent(ApiCallNoResponse, NoResponseData(toolName, duration), finish), randomDigits);
          outcome := Failure(NoResponseMessage);
        }
    }
  }

  /** callGeminiApiWithDataCollection. The result is the generated text or
      the request's error, whatever the telemetry writes did; the store moves
      exactly as the planned writes say, on whichever backend is selected. */
  method CallGeminiApiWithDataCollection(store: EventStore, prompt: string, toolName: string, inputData: Value,
                                         inlineData: Value, response: Response, start: nat, finish: nat,
                                         randomDigits: string) returns (r: Result<string>)
    requires store.Valid()
    modifies store
    ensures store.Valid()
    ensures r == GeminiOutcome(response)
    ensures store.State() == Run(old(store.State()), IsFirebaseConfigured(store.config), store.browser,
                                 GeminiCalls(prompt, toolName, inputData, inlineData, response, start, finish), randomDigits)
  {
    ghost var w0 := store.State();
    var duration := finish - start;

    var begin := RecordEvent(ApiCallStart, StartData(prompt, toolName, inlineData), start);
    Emit(store, w0, [], begin, randomDigits);
    assert [] + [begin] == [begin];

    var outcome := TryRequest(store, w0, [begin], prompt, toolName, inputData, response, duration, finish, randomDigits);
    ghost var tried := [begin] + TryCalls(prompt, toolName, inputData, response, duration, finish);

    // The catch block: record the error and rethrow it.
    if outcome.Failure? {
      Emit(store, w0, tried, RecordEvent(ApiCallError, ErrorData(toolName, outcome.message, duration), finish), randomDigits);
    } else {
      assert tried + [] == tried;
    }
    r := outcome;
  }

  /** trackToolUsage: one tool_usage event; nothing is thrown. */
  method TrackToolUsage(store: EventStore, toolName: string, additionalData: Fields, iso: string, now: nat,
                        randomDigits: string)
    requires store.Valid()
    modifies store
    ensures store.Valid()
    ensures store.State() == Step(old(store.State()), IsFirebaseConfigured(store.config), store.browser,
                                  RecordEvent(ToolUsage, Obj(ToolUsageData(toolName, iso, additionalData)), now), randomDigits)
  {
    var ignored := Contained(store, RecordEvent(ToolUsage, Obj(ToolUsageData(toolName, iso, additionalData)), now), randomDigits);
  }

  /** trackFormSubmission: one form_submission event; nothing is thrown. */
  method TrackFormSubmission(store: EventStore, toolName: string, formData: Value, iso: string, now: nat,
                             randomDigits: string)
    requires store.Valid()
    modifies store
    ensures store.Valid()
    ensures store.State() == Step(old(store.State()), IsFirebaseConfigured(store.config), store.browser,
                                  RecordEvent(FormSubmission, FormSubmissionData(toolName, formData, iso), now), randomDigits)
  {
    var ignored := Contained(store, RecordEvent(FormSubmission, FormSubmissionData(toolName, formData, iso), now), randomDigits);
  }

  /** trackPageView: one page_view event carrying the page's URL and referrer. */
  method TrackPageView(store: EventStore, pageName: string, iso: string, now: nat, randomDigits: string)
    requires store.Valid()
    modifies store
    ensures store.Valid()
    ensures store.State() == Step(old(store.State()), IsFirebaseConfigured(store.config), store.browser,
                                  RecordEvent(PageView, PageViewData(pageName, store.browser, iso), now), randomDigits)
  {
    var ignored := Contained(store, RecordEvent(PageView, PageViewData(pageName, store.browser, iso), now), randomDigits);
  }

  /** trackUserAction: one user_action event; nothing is thrown. */
  method TrackUserAction(store: EventStore, action: string, toolName: Option<string>, data: Value, iso: string,
                         now: nat, randomDigits: string)
    requires store.Valid()
    modifies store
    ensures store.Valid()
    ensures store.State() == Step(old(store.State()), IsFirebaseConfigured(store.config), store.browser,
                                  RecordEvent(UserAction, UserActionData(action, toolName, data, iso), now), randomDigits)
  {
    var ignored := Contained(store, RecordEvent(UserAction, UserActionData(action, toolName, data, iso), now), randomDigits);
  }

  /** The document click listener: a copy click records copy_result for the
      page's tool (with the default empty data); any other click writes nothing. */
  method OnDocumentClick(store: EventStore, toolName: string, textContent: Option<string>, classList: seq<string>,
                         iso: string, now: nat, randomDigits: string)
    requires store.Valid()
    modifies store
    ensures store.Valid()
    ensures IsCopyClick(textContent, classList) ==>
      store.State() == Step(old(store.State()), IsFirebaseConfigured(store.config), store.browser,
                            RecordEvent(UserAction, UserActionData(CopyResult, Some(toolName), Obj(map[]), iso), now), randomDigits)
    ensures !IsCopyClick(textContent, classList) ==> store.State() == old(store.State())
  {
    if IsCopyClick(textContent, classList) {
      TrackUserAction(store, CopyResult, Some(toolName), Obj(map[]), iso, now, randomDigits);
    }
  }

  /** The four tracking helpers each emit exactly one event of their own
      name: in fallback mode exactly one analytics record with that name is
      appended and no interaction or content; in remote mode no buffer
      changes and at most that one document is persisted. */
  lemma TrackingEmitsOneEvent(w: World, remote: bool, b: Browser, eventName: string, eventData: Value, at: nat,
                              randomDigits: string)
    ensures var w' := Step(w, remote, b, RecordEvent(eventName, eventData, at), randomDigits);
      && w'.interactions == w.interactions && w'.content == w.content && w'.preferences == w.preferences
      && (!remote ==>
            |w'.analytics| == |w.analytics| + 1 && w'.analytics[..|w.analytics|] == w.analytics
            && w'.analytics[|w.analytics|].eventName == eventName
            && w'.analytics[|w.analytics|].eventData == eventData)
      && (remote ==>
            w'.analytics == w.analytics
            && |w.remoteLog| <= |w'.remoteLog| <= |w.remoteLog| + 1
            && w'.remoteLog[..|w.remoteLog|] == w.remoteLog
            && (|w'.remoteLog| > |w.remoteLog| ==>
                  w'.remoteLog[|w.remoteLog|].AddDoc?
                  && w'.remoteLog[|w.remoteLog|].collection == AnalyticsCollection
                  && w'.remoteLog[|w.remoteLog|].doc.AnalyticsDoc?
                  && w'.remoteLog[|w.remoteLog|].doc.event.eventName == eventName))
  {
  }
}
