/** The telemetry event store: three append-only buffers and a preferences
    map used when Firestore is not configured, the remote Firestore path
    (an oracle that accepts or rejects each write), the session identifier,
    the two queries and the error-swallowing wrapper.

    The pure functions Step, SavePreferences and the queries are the
    specification; the class EventStore is the imperative store, each of
    whose methods is proved to move its state as the specification says. */
module FirestoreService {
  import opened Js
  import opened FirebaseConfig

  // Firestore collection names.
  const UserInteractions := "user_interactions"
  const GeneratedContent := "generated_content"
  const AnalyticsCollection := "analytics"
  const UserPreferences := "user_preferences"

  /** The sessionStorage key under which the session id is kept. */
  const SessionKey := "a1utility_session_id"
  const FallbackPrefix := "fallback_"
  const DefaultAnalyticsLimit := 100
  const DefaultContentLimit := 10
  /** What a remote write fails with once the backend oracle has no answer left. */
  const BackendUnavailable := "Firestore backend unavailable"

  // -----------------------------------------------------------------------
  // Records

  /** `new Date()` on the fallback path, `serverTimestamp()` on the remote one. */
  datatype Stamp = ClientClock(millis: int) | ServerTimestamp

  datatype Interaction = Interaction(
    toolName: string, inputData: Value, outputData: Value,
    timestamp: Stamp, userAgent: string, sessionId: string)

  datatype ContentRecord = ContentRecord(
    toolName: string, content: string, metadata: Value,
    timestamp: Stamp, sessionId: string)

  datatype AnalyticsEvent = AnalyticsEvent(
    eventName: string, eventData: Value,
    timestamp: Stamp, sessionId: string, userAgent: string, url: string)

  /** What the page reads from its browser: navigator.userAgent,
      window.location.href, document.referrer, and what the IP lookup service
      answers (None when that lookup fails and yields null). */
  datatype Browser = Browser(userAgent: string, href: string, referrer: string, ip: Option<string>)

  /** A document sent to Firestore. Remote interactions also carry the IP. */
  datatype Doc =
    | InteractionDoc(interaction: Interaction, ip: Option<string>)
    | ContentDoc(record: ContentRecord)
    | AnalyticsDoc(event: AnalyticsEvent)

  datatype RemoteOp =
    | AddDoc(collection: string, doc: Doc)
    | UpdateDoc(collection: string, docId: string, fields: Fields)

  /** One call of a record-writing operation with its arguments and the clock
      reading it takes: trackUserInteraction, storeGeneratedContent or
      trackAnalytics. */
  datatype Call =
    | RecordInteraction(toolName: string, inputData: Value, outputData: Value, userAgent: Option<string>, at: nat)
    | RecordContent(toolName: string, body: string, metadata: Value, at: nat)
    | RecordEvent(eventName: string, eventData: Value, at: nat)

  /** A snapshot of everything the store and its environment hold: the
      fallback buffers, sessionStorage, the writes Firestore accepted, and the
      answers Firestore will give to the next remote writes. */
  datatype World = World(
    interactions: seq<Interaction>,
    content: seq<ContentRecord>,
    analytics: seq<AnalyticsEvent>,
    preferences: map<string, Fields>,
    session: map<string, string>,
    remoteLog: seq<RemoteOp>,
    replies: seq<Result<string>>)

  // -----------------------------------------------------------------------
  // Identifiers

  /** generateUniqueId: the clock in base 36 followed by the random digits. */
  function GenerateUniqueId(now: nat, randomDigits: string): (id: string)
    ensures id != ""
  {
    ToRadix(now, 36) + randomDigits
  }

  /** The id a fallback write returns: `fallback_` and the clock in decimal. */
  function FallbackId(now: nat): (id: string)
  {
    FallbackPrefix + ToRadix(now, 10)
  }

  /** A fallback id carries exactly its clock reading: two writes get the same
      id exactly when they read the same millisecond. */
  lemma FallbackIdDecodes(now: nat)
    ensures |FallbackId(now)| > |FallbackPrefix|
    ensures FallbackId(now)[..|FallbackPrefix|] == FallbackPrefix
    ensures ParseRadix(FallbackId(now)[|FallbackPrefix|..], 10) == now
  {
    assert FallbackId(now)[|FallbackPrefix|..] == ToRadix(now, 10);
    ParseToRadix(now, 10);
  }

  lemma FallbackIdSameIffSameMillisecond(n: nat, m: nat)
    ensures FallbackId(n) == FallbackId(m) <==> n == m
  {
    FallbackIdDecodes(n);
    FallbackIdDecodes(m);
  }

  // -----------------------------------------------------------------------
  // Session identity

  /** getSessionId's answer: the stored id when it is truthy, else the generated one. */
  function SessionIdOf(session: map<string, string>, generated: string): string
  {
    if SessionKey in session && session[SessionKey] != "" then session[SessionKey] else generated
  }

  /** sessionStorage after getSessionId. */
  function SessionAfter(session: map<string, string>, generated: string): map<string, string>
  {
    session[SessionKey := SessionIdOf(session, generated)]
  }

  /** A stored, non-empty session id is returned unchanged and nothing is written. */
  lemma StoredSessionIdIsKept(session: map<string, string>, generated: string)
    requires SessionKey in session && session[SessionKey] != ""
    ensures SessionIdOf(session, generated) == session[SessionKey]
    ensures SessionAfter(session, generated) == session
  {
    assert session[SessionKey := session[SessionKey]] == session;
  }

  /** Two consecutive getSessionId calls answer the same id, and the second
      writes nothing, whatever it would have generated. */
  lemma SessionIdIsStable(session: map<string, string>, generated: string, generated2: string)
    requires generated != ""
    ensures SessionIdOf(SessionAfter(session, generated), generated2) == SessionIdOf(session, generated)
    ensures SessionAfter(SessionAfter(session, generated), generated2) == SessionAfter(session, generated)
    ensures SessionIdOf(session, generated) != ""
  {
    StoredSessionIdIsKept(SessionAfter(session, generated), generated2);
  }

  // -----------------------------------------------------------------------
  // One write, as the specification

  /** `userAgent || navigator.userAgent`. */
  function UserAgentOr(given: Option<string>, navigatorAgent: string): (ua: string)
    ensures NonEmpty(given) ==> ua == given.value
    ensures !NonEmpty(given) ==> ua == navigatorAgent
  {
    if NonEmpty(given) then given.value else navigatorAgent
  }

  /** What Firestore answers to the next remote write; none left means failure. */
  function NextReply(replies: seq<Result<string>>): Result<string>
  {
    if replies == [] then Failure(BackendUnavailable) else replies[0]
  }

  function RestReplies(replies: seq<Result<string>>): seq<Result<string>>
  {
    if replies == [] then [] else replies[1..]
  }

  /** The document the remote path of a call sends. */
  function RemoteDoc(call: Call, sid: string, b: Browser): RemoteOp
  {
    match call
    case RecordInteraction(toolName, inputData, outputData, userAgent, _) =>
      AddDoc(UserInteractions, InteractionDoc(
        Interaction(toolName, inputData, outputData, ServerTimestamp, UserAgentOr(userAgent, b.userAgent), sid), b.ip))
    case RecordContent(toolName, body, metadata, _) =>
      AddDoc(GeneratedContent, ContentDoc(ContentRecord(toolName, body, metadata, ServerTimestamp, sid)))
    case RecordEvent(eventName, eventData, _) =>
      AddDoc(AnalyticsCollection, AnalyticsDoc(AnalyticsEvent(eventName, eventData, ServerTimestamp, sid, b.userAgent, b.href)))
  }

  function FreshIdFor(call: Call, randomDigits: string): string
  {
    GenerateUniqueId(call.at, randomDigits)
  }

  /** The fallback path of one record-writing call: take the session id,
      then append one record to the buffer of the call's kind. */
  function FallbackStep(w: World, b: Browser, call: Call, generated: string): World
  {
    var sid := SessionIdOf(w.session, generated);
    var w1 := w.(session := SessionAfter(w.session, generated));
    match call
    case RecordInteraction(toolName, inputData, outputData, userAgent, at) =>
      w1.(interactions := w.interactions +
        [Interaction(toolName, inputData, outputData, ClientClock(at), UserAgentOr(userAgent, b.userAgent), sid)])
    case RecordContent(toolName, body, metadata, at) =>
      w1.(content := w.content + [ContentRecord(toolName, body, metadata, ClientClock(at), sid)])
    case RecordEvent(eventName, eventData, at) =>
      w1.(analytics := w.analytics + [AnalyticsEvent(eventName, eventData, ClientClock(at), sid, b.userAgent, b.href)])
  }

  /** The remote path of one record-writing call: take the session id, then
      send one document, which is kept only if Firestore accepts it. */
  function RemoteStep(w: World, b: Browser, call: Call, generated: string): World
  {
    var sid := SessionIdOf(w.session, generated);
    var reply := NextReply(w.replies);
    w.(session := SessionAfter(w.session, generated),
       remoteLog := w.remoteLog + (if reply.Ok? then [RemoteDoc(call, sid, b)] else []),
       replies := RestReplies(w.replies))
  }

  /** The effect of one record-writing call, on the path the gate selects. */
  function Step(w: World, remote: bool, b: Browser, call: Call, randomDigits: string): World
  {
    var generated := FreshIdFor(call, randomDigits);
    if remote then RemoteStep(w, b, call, generated) else FallbackStep(w, b, call, generated)
  }

  /** What a record-writing call returns or throws. */
  function StepResult(w: World, remote: bool, call: Call): Result<string>
  {
    if remote then NextReply(w.replies) else Ok(FallbackId(call.at))
  }

  /** In fallback mode a write always succeeds with a `fallback_` id and
      appends exactly one record, with the call's own fields, to the buffer of
      its kind; the other buffers, the preferences and the remote side stay
      as they were. */
  lemma FallbackStepAppendsOneRecord(w: World, remote: bool, b: Browser, call: Call, randomDigits: string)
    requires !remote
    ensures var w' := Step(w, remote, b, call, randomDigits);
      var sid := SessionIdOf(w.session, FreshIdFor(call, randomDigits));
      && StepResult(w, remote, call) == Ok(FallbackId(call.at))
      && w'.preferences == w.preferences && w'.remoteLog == w.remoteLog && w'.replies == w.replies
      && |w'.interactions| + |w'.content| + |w'.analytics| == |w.interactions| + |w.content| + |w.analytics| + 1
      && (call.RecordInteraction? ==>
            && w'.interactions == w.interactions + [Interaction(call.toolName, call.inputData, call.outputData,
                 ClientClock(call.at), UserAgentOr(call.userAgent, b.userAgent), sid)]
            && w'.content == w.content && w'.analytics == w.analytics)
      && (call.RecordContent? ==>
            && w'.content == w.content + [ContentRecord(call.toolName, call.body, call.metadata, ClientClock(call.at), sid)]
            && w'.interactions == w.interactions && w'.analytics == w.analytics)
      && (call.RecordEvent? ==>
            && w'.analytics == w.analytics + [AnalyticsEvent(call.eventName, call.eventData, ClientClock(call.at), sid, b.userAgent, b.href)]
            && w'.interactions == w.interactions && w'.content == w.content)
  {
  }

  /** In remote mode a write touches no fallback buffer; it returns
      Firestore's answer, id or error, and the document is persisted exactly
      when Firestore accepted it. */
  lemma RemoteStepRethrows(w: World, remote: bool, b: Browser, call: Call, randomDigits: string)
    requires remote
    ensures var w' := Step(w, remote, b, call, randomDigits);
      var r := StepResult(w, remote, call);
      && w'.interactions == w.interactions && w'.content == w.content && w'.analytics == w.analytics
      && w'.preferences == w.preferences
      && (w.replies == [] ==> r == Failure(BackendUnavailable))
      && (w.replies != [] ==> r == w.replies[0])
      && (r.Ok? <==> |w'.remoteLog| == |w.remoteLog| + 1)
      && (r.Ok? ==> w'.remoteLog == w.remoteLog + [RemoteDoc(call, SessionIdOf(w.session, FreshIdFor(call, randomDigits)), b)])
      && (r.Failure? <==> w'.remoteLog == w.remoteLog)
  {
  }

  // -----------------------------------------------------------------------
  // A sequence of writes

  function Run(w: World, remote: bool, b: Browser, calls: seq<Call>, randomDigits: string): World
    decreases |calls|
  {
    if calls == [] then w else Run(Step(w, remote, b, calls[0], randomDigits), remote, b, calls[1..], randomDigits)
  }

  /** Running one more call after a sequence is one more step. */
  lemma {:induction false} RunSnoc(w: World, remote: bool, b: Browser, calls: seq<Call>, call: Call, randomDigits: string)
    ensures Run(w, remote, b, calls + [call], randomDigits) == Step(Run(w, remote, b, calls, randomDigits), remote, b, call, randomDigits)
    decreases |calls|
  {
    if calls == [] {
      assert [] + [call] == [call];
      assert [call][1..] == [];
    } else {
      assert (calls + [call])[0] == calls[0];
      assert (calls + [call])[1..] == calls[1..] + [call];
      RunSnoc(Step(w, remote, b, calls[0], randomDigits), remote, b, calls[1..], call, randomDigits);
    }
  }

  /** The fallback records a sequence of calls appends, by kind, in call order. */
  function FallbackInteractions(calls: seq<Call>, sid: string, b: Browser): seq<Interaction>
  {
    if calls == [] then []
    else
      (match calls[0]
       case RecordInteraction(toolName, inputData, outputData, userAgent, at) =>
         [Interaction(toolName, inputData, outputData, ClientClock(at), UserAgentOr(userAgent, b.userAgent), sid)]
       case _ => [])
      + FallbackInteractions(calls[1..], sid, b)
  }

  function FallbackContent(calls: seq<Call>, sid: string): seq<ContentRecord>
  {
    if calls == [] then []
    else
      (match calls[0]
       case RecordContent(toolName, body, metadata, at) => [ContentRecord(toolName, body, metadata, ClientClock(at), sid)]
       case _ => [])
      + FallbackContent(calls[1..], sid)
  }

  function FallbackAnalytics(calls: seq<Call>, sid: string, b: Browser): seq<AnalyticsEvent>
  {
    if calls == [] then []
    else
      (match calls[0]
       case RecordEvent(eventName, eventData, at) => [AnalyticsEvent(eventName, eventData, ClientClock(at), sid, b.userAgent, b.href)]
       case _ => [])
      + FallbackAnalytics(calls[1..], sid, b)
  }

  /** The documents a run of remote writes sends: the k-th call's document
      is the k-th, all under one session id. */
  function RemoteDocs(calls: seq<Call>, sid: string, b: Browser): (ops: seq<RemoteOp>)
    ensures |ops| == |calls|
    ensures forall k :: 0 <= k < |calls| ==> ops[k] == RemoteDoc(calls[k], sid, b)
    decreases |calls|
  {
    if calls == [] then [] else [RemoteDoc(calls[0], sid, b)] + RemoteDocs(calls[1..], sid, b)
  }

  /** The documents Firestore keeps when it answers the writes in order. */
  function Accepted(ops: seq<RemoteOp>, replies: seq<Result<string>>): seq<RemoteOp>
  {
    if ops == [] then []
    else (if NextReply(replies).Ok? then [ops[0]] else []) + Accepted(ops[1..], RestReplies(replies))
  }

  function Consumed(replies: seq<Result<string>>, n: nat): seq<Result<string>>
  {
    if n >= |replies| then [] else replies[n..]
  }

  /** A backend that rejects every write persists none of them. */
  lemma {:induction false} RejectingBackendKeepsNothing(ops: seq<RemoteOp>, replies: seq<Result<string>>)
    requires forall k :: 0 <= k < |replies| ==> replies[k].Failure?
    ensures Accepted(ops, replies) == []
    decreases |ops|
  {
    if ops != [] {
      RejectingBackendKeepsNothing(ops[1..], RestReplies(replies));
    }
  }

  /** A backend that accepts every write persists all of them, in order. */
  lemma {:induction false} AcceptingBackendKeepsAll(ops: seq<RemoteOp>, replies: seq<Result<string>>)
    requires |ops| <= |replies|
    requires forall k :: 0 <= k < |replies| ==> replies[k].Ok?
    ensures Accepted(ops, replies) == ops
    decreases |ops|
  {
    if ops != [] {
      AcceptingBackendKeepsAll(ops[1..], RestReplies(replies));
      assert [ops[0]] + ops[1..] == ops;
    }
  }

  ghost predicate Established(w: World, sid: string)
  {
    SessionKey in w.session && w.session[SessionKey] == sid && sid != ""
  }

  lemma ConcatAssoc<T>(a: seq<T>, x: seq<T>, y: seq<T>)
    ensures (a + x) + y == a + (x + y)
  {
  }

  lemma FallbackStepFrom(w: World, b: Browser, call: Call, generated: string, sid: string)
    requires Established(w, sid)
    ensures FallbackStep(w, b, call, generated) == w.(
      interactions := w.interactions + FallbackInteractions([call], sid, b),
      content := w.content + FallbackContent([call], sid),
      analytics := w.analytics + FallbackAnalytics([call], sid, b))
  {
    StoredSessionIdIsKept(w.session, generated);
  }

  lemma FallbackFirstStep(w: World, b: Browser, call: Call, generated: string)
    ensures var sid := SessionIdOf(w.session, generated);
      FallbackStep(w, b, call, generated) == w.(
        interactions := w.interactions + FallbackInteractions([call], sid, b),
        content := w.content + FallbackContent([call], sid),
        analytics := w.analytics + FallbackAnalytics([call], sid, b),
        session := SessionAfter(w.session, generated))
  {
    assert [call][1..] == [];
  }

  lemma {:induction false} FallbackRunFrom(w: World, remote: bool, b: Browser, calls: seq<Call>, randomDigits: string, sid: string)
    requires !remote
    requires Established(w, sid)
    ensures Run(w, remote, b, calls, randomDigits) == w.(
      interactions := w.interactions + FallbackInteractions(calls, sid, b),
      content := w.content + FallbackContent(calls, sid),
      analytics := w.analytics + FallbackAnalytics(calls, sid, b))
    decreases |calls|
  {
    if calls != [] {
      var generated := FreshIdFor(calls[0], randomDigits);
      var w1 := Step(w, remote, b, calls[0], randomDigits);
      assert w1 == FallbackStep(w, b, calls[0], generated);
      FallbackStepFrom(w, b, calls[0], generated, sid);
      assert Run(w, remote, b, calls, randomDigits) == Run(w1, remote, b, calls[1..], randomDigits);
      FallbackRunFrom(w1, remote, b, calls[1..], randomDigits, sid);
      FallbackSplit(calls, sid, b);
      ConcatAssoc(w.interactions, FallbackInteractions([calls[0]], sid, b), FallbackInteractions(calls[1..], sid, b));
      ConcatAssoc(w.content, FallbackContent([calls[0]], sid), FallbackContent(calls[1..], sid));
      ConcatAssoc(w.analytics, FallbackAnalytics([calls[0]], sid, b), FallbackAnalytics(calls[1..], sid, b));
    }
  }

  lemma FallbackSplit(calls: seq<Call>, sid: string, b: Browser)
    requires calls != []
    ensures FallbackInteractions(calls, sid, b) == FallbackInteractions([calls[0]], sid, b) + FallbackInteractions(calls[1..], sid, b)
    ensures FallbackContent(calls, sid) == FallbackContent([calls[0]], sid) + FallbackContent(calls[1..], sid)
    ensures FallbackAnalytics(calls, sid, b) == FallbackAnalytics([calls[0]], sid, b) + FallbackAnalytics(calls[1..], sid, b)
  {
    assert [calls[0]][1..] == [];
  }

  lemma RemoteStepFrom(w: World, b: Browser, call: Call, generated: string, sid: string)
    requires Established(w, sid)
    ensures RemoteStep(w, b, call, generated) == w.(
      remoteLog := w.remoteLog + Accepted([RemoteDoc(call, sid, b)], w.replies),
      replies := RestReplies(w.replies))
  {
    StoredSessionIdIsKept(w.session, generated);
    assert [RemoteDoc(call, sid, b)][1..] == [];
  }

  lemma RemoteFirstStep(w: World, b: Browser, call: Call, generated: string)
    ensures var sid := SessionIdOf(w.session, generated);
      RemoteStep(w, b, call, generated) == w.(
        remoteLog := w.remoteLog + Accepted([RemoteDoc(call, sid, b)], w.replies),
        replies := RestReplies(w.replies),
        session := SessionAfter(w.session, generated))
  {
    var sid := SessionIdOf(w.session, generated);
    assert [RemoteDoc(call, sid, b)][1..] == [];
  }

  lemma {:induction false} RemoteRunFrom(w: World, remote: bool, b: Browser, calls: seq<Call>, randomDigits: string, sid: string)
    requires remote
    requires Established(w, sid)
    ensures Run(w, remote, b, calls, randomDigits) == w.(
      remoteLog := w.remoteLog + Accepted(RemoteDocs(calls, sid, b), w.replies),
      replies := Consumed(w.replies, |calls|))
    decreases |calls|
  {
    if calls == [] {
      assert Consumed(w.replies, 0) == w.replies;
    } else {
      var generated := FreshIdFor(calls[0], randomDigits);
      var w1 := Step(w, remote, b, calls[0], randomDigits);
      assert w1 == RemoteStep(w, b, calls[0], generated);
      RemoteStepFrom(w, b, calls[0], generated, sid);
      assert Run(w, remote, b, calls, randomDigits) == Run(w1, remote, b, calls[1..], randomDigits);
      RemoteRunFrom(w1, remote, b, calls[1..], randomDigits, sid);
      RemoteSplit(calls, sid, b, w.replies);
      ConcatAssoc(w.remoteLog, Accepted([RemoteDoc(calls[0], sid, b)], w.replies),
                  Accepted(RemoteDocs(calls[1..], sid, b), RestReplies(w.replies)));
    }
  }

  lemma RemoteSplit(calls: seq<Call>, sid: string, b: Browser, replies: seq<Result<string>>)
    requires calls != []
    ensures Accepted(RemoteDocs(calls, sid, b), replies)
      == Accepted([RemoteDoc(calls[0], sid, b)], replies) + Accepted(RemoteDocs(calls[1..], sid, b), RestReplies(replies))
    ensures Consumed(RestReplies(replies), |calls| - 1) == Consumed(replies, |calls|)
  {
    var ops := RemoteDocs(calls, sid, b);
    assert ops[0] == RemoteDoc(calls[0], sid, b);
    assert ops[1..] == RemoteDocs(calls[1..], sid, b);
    assert [RemoteDoc(calls[0], sid, b)][1..] == [];
  }

  /** The session id every write of a non-empty run stamps on its record. */
  function RunSessionId(w: World, calls: seq<Call>, randomDigits: string): string
    requires calls != []
  {
    SessionIdOf(w.session, FreshIdFor(calls[0], randomDigits))
  }

  /** In fallback mode a run of writes appends, to each buffer, exactly the
      records of its kind, in call order, all under one session id; nothing
      else changes but sessionStorage. */
  lemma FallbackRun(w: World, remote: bool, b: Browser, calls: seq<Call>, randomDigits: string)
    requires !remote
    requires calls != []
    ensures var sid := RunSessionId(w, calls, randomDigits);
      Run(w, remote, b, calls, randomDigits) == w.(
        interactions := w.interactions + FallbackInteractions(calls, sid, b),
        content := w.content + FallbackContent(calls, sid),
        analytics := w.analytics + FallbackAnalytics(calls, sid, b),
        session := SessionAfter(w.session, FreshIdFor(calls[0], randomDigits)))
  {
    var generated := FreshIdFor(calls[0], randomDigits);
    var sid := SessionIdOf(w.session, generated);
    var w1 := Step(w, remote, b, calls[0], randomDigits);
    assert w1 == FallbackStep(w, b, calls[0], generated);
    FallbackFirstStep(w, b, calls[0], generated);
    assert Run(w, remote, b, calls, randomDigits) == Run(w1, remote, b, calls[1..], randomDigits);
    FallbackRunFrom(w1, remote, b, calls[1..], randomDigits, sid);
    FallbackSplit(calls, sid, b);
    ConcatAssoc(w.interactions, FallbackInteractions([calls[0]], sid, b), FallbackInteractions(calls[1..], sid, b));
    ConcatAssoc(w.content, FallbackContent([calls[0]], sid), FallbackContent(calls[1..], sid));
    ConcatAssoc(w.analytics, FallbackAnalytics([calls[0]], sid, b), FallbackAnalytics(calls[1..], sid, b));
  }

  /** In remote mode a run of writes leaves every fallback buffer alone; the
      backend keeps exactly the documents it accepted, in call order, and one
      answer is used up per write. */
  lemma RemoteRun(w: World, remote: bool, b: Browser, calls: seq<Call>, randomDigits: string)
    requires remote
    requires calls != []
    ensures var sid := RunSessionId(w, calls, randomDigits);
      Run(w, remote, b, calls, randomDigits) == w.(
        remoteLog := w.remoteLog + Accepted(RemoteDocs(calls, sid, b), w.replies),
        replies := Consumed(w.replies, |calls|),
        session := SessionAfter(w.session, FreshIdFor(calls[0], randomDigits)))
  {
    var generated := FreshIdFor(calls[0], randomDigits);
    var sid := SessionIdOf(w.session, generated);
    var w1 := Step(w, remote, b, calls[0], randomDigits);
    assert w1 == RemoteStep(w, b, calls[0], generated);
    RemoteFirstStep(w, b, calls[0], generated);
    assert Run(w, remote, b, calls, randomDigits) == Run(w1, remote, b, calls[1..], randomDigits);
    RemoteRunFrom(w1, remote, b, calls[1..], randomDigits, sid);
    RemoteSplit(calls, sid, b, w.replies);
    ConcatAssoc(w.remoteLog, Accepted([RemoteDoc(calls[0], sid, b)], w.replies),
                Accepted(RemoteDocs(calls[1..], sid, b), RestReplies(w.replies)));
  }

  // -----------------------------------------------------------------------
  // Record invariant

  /** Every buffered record carries a non-empty session id, and every
      buffered analytics event the page's user agent and URL. */
  ghost predicate WellFormed(w: World, b: Browser)
  {
    && (forall k :: 0 <= k < |w.interactions| ==> w.interactions[k].sessionId != "")
    && (forall k :: 0 <= k < |w.content| ==> w.content[k].sessionId != "")
    && (forall k :: 0 <= k < |w.analytics| ==>
          w.analytics[k].sessionId != "" && w.analytics[k].userAgent == b.userAgent && w.analytics[k].url == b.href)
  }

  lemma StepPreservesWellFormed(w: World, remote: bool, b: Browser, call: Call, randomDigits: string)
    requires WellFormed(w, b)
    ensures WellFormed(Step(w, remote, b, call, randomDigits), b)
  {
    var generated := FreshIdFor(call, randomDigits);
    assert SessionIdOf(w.session, generated) != "";
  }

  // -----------------------------------------------------------------------
  // Preferences

  /** `{...preferences, updatedAt: new Date()}`: the given fields, with
      updatedAt set to the clock, overriding any updatedAt the caller passed. */
  function StampedPreferences(prefs: Fields, now: nat): (p: Fields)
    ensures p.Keys == prefs.Keys + {"updatedAt"}
    ensures p["updatedAt"] == Date(now)
    ensures forall k :: k in prefs && k != "updatedAt" ==> p[k] == prefs[k]
  {
    prefs["updatedAt" := Date(now)]
  }

  /** `fallbackStorage.preferences[userId] || null`. */
  function LookupPreferences(preferences: map<string, Fields>, userId: string): (r: Option<Fields>)
    ensures r.Some? <==> userId in preferences
    ensures r.Some? ==> r.value == preferences[userId]
  {
    if userId in preferences then Some(preferences[userId]) else None
  }

  function SavePreferences(w: World, remote: bool, userId: string, prefs: Fields, now: nat): World
  {
    if remote then
      var reply := NextReply(w.replies);
      w.(remoteLog := w.remoteLog + (if reply.Ok? then [UpdateDoc(UserPreferences, userId, prefs["updatedAt" := ServerTime])] else []),
         replies := RestReplies(w.replies))
    else
      w.(preferences := w.preferences[userId := StampedPreferences(prefs, now)])
  }

  function SaveResult(w: World, remote: bool): Result<()>
  {
    if !remote then Ok(())
    else
      match NextReply(w.replies)
      case Ok(_) => Ok(())
      case Failure(m) => Failure(m)
  }

  /** After saving preferences in fallback mode, reading them back for the
      same user gives the saved fields plus updatedAt, replacing whatever was
      there; every other user's entry is unchanged; and the buffers are not
      touched. */
  lemma SaveThenGetPreferences(w: World, remote: bool, userId: string, other: string, prefs: Fields, now: nat)
    requires !remote
    ensures var w' := SavePreferences(w, remote, userId, prefs, now);
      && SaveResult(w, remote) == Ok(())
      && LookupPreferences(w'.preferences, userId) == Some(StampedPreferences(prefs, now))
      && (other != userId ==> LookupPreferences(w'.preferences, other) == LookupPreferences(w.preferences, other))
      && w'.interactions == w.interactions && w'.content == w.content && w'.analytics == w.analytics
  {
  }

  /** A remote save that Firestore rejects surfaces the error to the caller. */
  lemma RemoteSaveRethrows(w: World, remote: bool, userId: string, prefs: Fields, now: nat)
    requires remote
    requires NextReply(w.replies).Failure?
    ensures SaveResult(w, remote) == Failure(NextReply(w.replies).message)
    ensures SavePreferences(w, remote, userId, prefs, now).remoteLog == w.remoteLog
    ensures SavePreferences(w, remote, userId, prefs, now).preferences == w.preferences
  {
  }

  // -----------------------------------------------------------------------
  // Queries (fallback path)

  /** Array.prototype.filter with a callback that cannot throw. */
  function Keep<T>(s: seq<T>, p: T -> bool): (r: seq<T>)
    ensures |r| <= |s|
    ensures forall k :: 0 <= k < |r| ==> p(r[k])
  {
    if s == [] then [] else (if p(s[0]) then [s[0]] else []) + Keep(s[1..], p)
  }

  /** Filtering a concatenation filters each part and keeps their order. */
  lemma {:induction false} KeepAppend<T>(a: seq<T>, b: seq<T>, p: T -> bool)
    ensures Keep(a + b, p) == Keep(a, p) + Keep(b, p)
    decreases |a|
  {
    if a == [] {
      assert a + b == b;
    } else {
      assert (a + b)[0] == a[0];
      assert (a + b)[1..] == a[1..] + b;
      KeepAppend(a[1..], b, p);
    }
  }

  /** An element survives the filter exactly when it was there and matches. */
  lemma {:induction false} KeepMembership<T>(s: seq<T>, p: T -> bool, x: T)
    ensures x in Keep(s, p) <==> x in s && p(x)
    decreases |s|
  {
    if s != [] {
      KeepMembership(s[1..], p, x);
      assert s == [s[0]] + s[1..];
    }
  }

  /** `item.eventData.toolName === toolName`, when it does not throw. */
  predicate EventMatches(e: AnalyticsEvent, toolName: string)
  {
    Property(e.eventData, "toolName") == Ok(Some(Str(toolName)))
  }

  predicate ContentMatches(c: ContentRecord, toolName: string)
  {
    c.toolName == toolName
  }

  function EventFilter(toolName: string): AnalyticsEvent -> bool
  {
    e => EventMatches(e, toolName)
  }

  function ContentFilter(toolName: string): ContentRecord -> bool
  {
    c => ContentMatches(c, toolName)
  }

  /** `events.filter(item => item.eventData.toolName === toolName)`: throws
      the callback's TypeError as soon as an event's eventData is null. */
  function FilterEvents(events: seq<AnalyticsEvent>, toolName: string): (r: Result<seq<AnalyticsEvent>>)
    ensures r.Failure? <==> exists k :: 0 <= k < |events| && events[k].eventData.Null?
    ensures r.Ok? ==> r.value == Keep(events, EventFilter(toolName))
    decreases |events|
  {
    if events == [] then Ok([])
    else
      match Property(events[0].eventData, "toolName")
      case Failure(m) => Failure(m)
      case Ok(field) =>
        match FilterEvents(events[1..], toolName)
        case Failure(m) =>
          assert forall k :: 1 <= k < |events| ==> events[k] == events[1..][k - 1];
          Failure(m)
        case Ok(rest) =>
          assert forall k :: 1 <= k < |events| ==> events[k] == events[1..][k - 1];
          assert EventFilter(toolName)(events[0]) <==> field == Some(Str(toolName));
          Ok((if field == Some(Str(toolName)) then [events[0]] else []) + rest)
  }

  /** getAnalyticsData without Firestore: filter by eventData.toolName when the
      tool name is truthy, then keep the first `limitCount`, in insertion
      order, unsorted. */
  function AnalyticsQuery(events: seq<AnalyticsEvent>, toolName: Option<string>, limitCount: int): (r: Result<seq<AnalyticsEvent>>)
    ensures r.Failure? <==> NonEmpty(toolName) && exists k :: 0 <= k < |events| && events[k].eventData.Null?
    ensures r.Ok? && NonEmpty(toolName) ==> r.value == SliceTo(Keep(events, EventFilter(toolName.value)), limitCount)
    ensures !NonEmpty(toolName) ==> r == Ok(SliceTo(events, limitCount))
  {
    if NonEmpty(toolName) then
      match FilterEvents(events, toolName.value)
      case Failure(m) => Failure(m)
      case Ok(matching) => Ok(SliceTo(matching, limitCount))
    else
      Ok(SliceTo(events, limitCount))
  }

  /** getPopularContent without Firestore: the same over the content buffer,
      matching on the record's own toolName. */
  function ContentQuery(content: seq<ContentRecord>, toolName: Option<string>, limitCount: int): (r: seq<ContentRecord>)
    ensures NonEmpty(toolName) ==> r == SliceTo(Keep(content, ContentFilter(toolName.value)), limitCount)
    ensures !NonEmpty(toolName) ==> r == SliceTo(content, limitCount)
  {
    if NonEmpty(toolName) then SliceTo(Keep(content, ContentFilter(toolName.value)), limitCount)
    else SliceTo(content, limitCount)
  }

  /** What a filtered fallback read returns after further writes: the
      matching records of everything written so far, in insertion order,
      truncated to the limit. */
  lemma QueryAfterTrackAnalytics(w: World, remote: bool, b: Browser, eventName: string, eventData: Value, at: nat,
                                 randomDigits: string, toolName: string, limitCount: int)
    requires !remote
    requires toolName != ""
    requires forall k :: 0 <= k < |w.analytics| ==> !w.analytics[k].eventData.Null?
    requires !eventData.Null?
    ensures var w' := Step(w, remote, b, RecordEvent(eventName, eventData, at), randomDigits);
      var e := w'.analytics[|w'.analytics| - 1];
      && e.eventName == eventName && e.eventData == eventData
      && AnalyticsQuery(w'.analytics, Some(toolName), limitCount) ==
           Ok(SliceTo(Keep(w.analytics, EventFilter(toolName))
                      + (if EventMatches(e, toolName) then [e] else []), limitCount))
  {
    var w' := Step(w, remote, b, RecordEvent(eventName, eventData, at), randomDigits);
    var e := w'.analytics[|w'.analytics| - 1];
    assert w'.analytics == w.analytics + [e];
    KeepAppend(w.analytics, [e], EventFilter(toolName));
    assert [e][1..] == [];
    assert Keep([e], EventFilter(toolName)) == if EventMatches(e, toolName) then [e] else [];
    assert forall k :: 0 <= k < |w'.analytics| ==> !w'.analytics[k].eventData.Null?;
  }

  lemma QueryAfterStoreContent(w: World, remote: bool, b: Browser, toolName: string, body: string, metadata: Value,
                               at: nat, randomDigits: string, wanted: string, limitCount: int)
    requires !remote
    requires wanted != ""
    ensures var w' := Step(w, remote, b, RecordContent(toolName, body, metadata, at), randomDigits);
      var c := w'.content[|w'.content| - 1];
      && c.toolName == toolName && c.content == body
      && ContentQuery(w'.content, Some(wanted), limitCount) ==
           SliceTo(Keep(w.content, ContentFilter(wanted)) + (if toolName == wanted then [c] else []), limitCount)
  {
    var w' := Step(w, remote, b, RecordContent(toolName, body, metadata, at), randomDigits);
    var c := w'.content[|w'.content| - 1];
    assert w'.content == w.content + [c];
    KeepAppend(w.content, [c], ContentFilter(wanted));
  }

  /** One analytics event whose eventData is null makes every later filtered
      fallback read throw. */
  lemma NullEventDataBreaksFilteredReads(events: seq<AnalyticsEvent>, k: nat, toolName: string, limitCount: int)
    requires k < |events| && events[k].eventData.Null?
    requires toolName != ""
    ensures AnalyticsQuery(events, Some(toolName), limitCount).Failure?
  {
  }

  /** Under the record invariant, every event the fallback analytics read
      returns carries a session id and the page's user agent and URL, and
      every content record it returns a session id: the reads only hand out
      records the buffers hold. */
  lemma FallbackReadsCarrySession(w: World, b: Browser, toolName: Option<string>, limitCount: int)
    requires WellFormed(w, b)
    ensures var r := AnalyticsQuery(w.analytics, toolName, limitCount);
      r.Ok? ==> forall e :: e in r.value ==> e.sessionId != "" && e.userAgent == b.userAgent && e.url == b.href
    ensures forall c :: c in ContentQuery(w.content, toolName, limitCount) ==> c.sessionId != ""
  {
    var r := AnalyticsQuery(w.analytics, toolName, limitCount);
    if r.Ok? {
      forall e | e in r.value
        ensures e.sessionId != "" && e.userAgent == b.userAgent && e.url == b.href
      {
        if NonEmpty(toolName) {
          var kept := Keep(w.analytics, EventFilter(toolName.value));
          assert e in kept[..|r.value|];
          KeepMembership(w.analytics, EventFilter(toolName.value), e);
        } else {
          assert e in w.analytics[..|r.value|];
        }
        var k :| 0 <= k < |w.analytics| && w.analytics[k] == e;
      }
    }
    var rc := ContentQuery(w.content, toolName, limitCount);
    forall c | c in rc
      ensures c.sessionId != ""
    {
      if NonEmpty(toolName) {
        var kept := Keep(w.content, ContentFilter(toolName.value));
        assert c in kept[..|rc|];
        KeepMembership(w.content, ContentFilter(toolName.value), c);
      } else {
        assert c in w.content[..|rc|];
      }
      var k :| 0 <= k < |w.content| && w.content[k] == c;
    }
  }

  // -----------------------------------------------------------------------
  // Failure containment

  /** withErrorHandling: the wrapped call's value when it returns, null when it
      throws; the result type has no error case, so nothing propagates. */
  function WithErrorHandling<T>(outcome: Result<T>): (r: Option<T>)
    ensures outcome.Ok? ==> r == Some(outcome.value)
    ensures outcome.Failure? ==> r == None
  {
    match outcome
    case Ok(v) => Some(v)
    case Failure(_) => None
  }

  // -----------------------------------------------------------------------
  // The store

  class EventStore {
    const config: Config
    const browser: Browser
    var interactions: seq<Interaction>
    var content: seq<ContentRecord>
    var analytics: seq<AnalyticsEvent>
    var preferences: map<string, Fields>
    /** sessionStorage */
    var session: map<string, string>
    /** The writes Firestore accepted. */
    var remoteLog: seq<RemoteOp>
    /** Firestore's answers to the next remote writes, in order. */
    var replies: seq<Result<string>>

    ghost function State(): World
      reads this
    {
      World(interactions, content, analytics, preferences, session, remoteLog, replies)
    }

    ghost predicate Valid()
      reads this
    {
      WellFormed(State(), browser)
    }

    /** The module as loaded: empty buffers and no preferences. */
    constructor (config: Config, browser: Browser, session: map<string, string>, replies: seq<Result<string>>)
      ensures this.config == config && this.browser == browser
      ensures State() == World([], [], [], map[], session, [], replies)
      ensures Valid()
    {
      this.config := config;
      this.browser := browser;
      interactions, content, analytics := [], [], [];
      preferences := map[];
      this.session := session;
      remoteLog := [];
      this.replies := replies;
    }

    method GetSessionId(now: nat, randomDigits: string) returns (id: string)
      modifies this`session
      ensures id == SessionIdOf(old(session), GenerateUniqueId(now, randomDigits))
      ensures id != ""
      ensures session == SessionAfter(old(session), GenerateUniqueId(now, randomDigits))
    {
      var stored := if SessionKey in session then Some(session[SessionKey]) else None;
      if NonEmpty(stored) {
        id := stored.value;
        StoredSessionIdIsKept(session, GenerateUniqueId(now, randomDigits));
      } else {
        id := GenerateUniqueId(now, randomDigits);
        session := session[SessionKey := id];
      }
    }

    /** One remote write: Firestore either accepts it, returning an id, or fails. */
    method Submit(op: RemoteOp) returns (r: Result<string>)
      modifies this`remoteLog, this`replies
      ensures r == NextReply(old(replies))
      ensures remoteLog == old(remoteLog) + (if r.Ok? then [op] else [])
      ensures replies == RestReplies(old(replies))
    {
      if replies == [] {
        r := Failure(BackendUnavailable);
      } else {
        r := replies[0];
        replies := replies[1..];
        if r.Ok? {
          remoteLog := remoteLog + [op];
        }
      }
    }

    method TrackUserInteraction(toolName: string, inputData: Value, outputData: Value, userAgent: Option<string>,
                                now: nat, randomDigits: string) returns (r: Result<string>)
      requires Valid()
      modifies this
      ensures Valid()
      ensures var call := RecordInteraction(toolName, inputData, outputData, userAgent, now);
        && State() == Step(old(State()), IsFirebaseConfigured(config), browser, call, randomDigits)
        && r == StepResult(old(State()), IsFirebaseConfigured(config), call)
    {
      ghost var w := State();
      StepPreservesWellFormed(w, IsFirebaseConfigured(config), browser, RecordInteraction(toolName, inputData, outputData, userAgent, now), randomDigits);
      if !IsFirebaseConfigured(config) {
        var sid := GetSessionId(now, randomDigits);
        interactions := interactions + [Interaction(toolName, inputData, outputData, ClientClock(now),
                                                    UserAgentOr(userAgent, browser.userAgent), sid)];
        r := Ok(FallbackId(now));
      } else {
        var sid := GetSessionId(now, randomDigits);
        var ip := browser.ip;
        r := Submit(AddDoc(UserInteractions, InteractionDoc(
          Interaction(toolName, inputData, outputData, ServerTimestamp, UserAgentOr(userAgent, browser.userAgent), sid), ip)));
      }
    }

    method StoreGeneratedContent(toolName: string, body: string, metadata: Value, now: nat, randomDigits: string)
      returns (r: Result<string>)
      requires Valid()
      modifies this
      ensures Valid()
      ensures var call := RecordContent(toolName, body, metadata, now);
        && State() == Step(old(State()), IsFirebaseConfigured(config), browser, call, randomDigits)
        && r == StepResult(old(State()), IsFirebaseConfigured(config), call)
    {
      ghost var w := State();
      StepPreservesWellFormed(w, IsFirebaseConfigured(config), browser, RecordContent(toolName, body, metadata, now), randomDigits);
      if !IsFirebaseConfigured(config) {
        var sid := GetSessionId(now, randomDigits);
        content := content + [ContentRecord(toolName, body, metadata, ClientClock(now), sid)];
        r := Ok(FallbackId(now));
      } else {
        var sid := GetSessionId(now, randomDigits);
        r := Submit(AddDoc(GeneratedContent, ContentDoc(ContentRecord(toolName, body, metadata, ServerTimestamp, sid))));
      }
    }

    method TrackAnalytics(eventName: string, eventData: Value, now: nat, randomDigits: string) returns (r: Result<string>)
      requires Valid()
      modifies this
      ensures Valid()
      ensures var call := RecordEvent(eventName, eventData, now);
        && State() == Step(old(State()), IsFirebaseConfigured(config), browser, call, randomDigits)
        && r == StepResult(old(State()), IsFirebaseConfigured(config), call)
    {
      ghost var w := State();
      StepPreservesWellFormed(w, IsFirebaseConfigured(config), browser, RecordEvent(eventName, eventData, now), randomDigits);
      if !IsFirebaseConfigured(config) {
        var sid := GetSessionId(now, randomDigits);
        analytics := analytics + [AnalyticsEvent(eventName, eventData, ClientClock(now), sid, browser.userAgent, browser.href)];
        r := Ok(FallbackId(now));
      } else {
        var sid := GetSessionId(now, randomDigits);
        r := Submit(AddDoc(AnalyticsCollection, AnalyticsDoc(
          AnalyticsEvent(eventName, eventData, ServerTimestamp, sid, browser.userAgent, browser.href))));
      }
    }

    /** getUserPreferences; `remote` is what Firestore's getDoc answers:
        the document's data, None when it does not exist, or an error. */
    function GetUserPreferences(userId: string, remote: Result<Option<Fields>>): (r: Result<Option<Fields>>)
      reads this
      ensures IsFirebaseConfigured(config) ==> r == remote
      ensures !IsFirebaseConfigured(config) ==> r.Ok?
      ensures !IsFirebaseConfigured(config) && userId !in preferences ==> r == Ok(None)
      ensures !IsFirebaseConfigured(config) && userId in preferences ==> r == Ok(Some(preferences[userId]))
    {
      if !IsFirebaseConfigured(config) then Ok(LookupPreferences(preferences, userId)) else remote
    }

    method SaveUserPreferences(userId: string, prefs: Fields, now: nat) returns (r: Result<()>)
      requires Valid()
      modifies this
      ensures Valid()
      ensures State() == SavePreferences(old(State()), IsFirebaseConfigured(config), userId, prefs, now)
      ensures r == SaveResult(old(State()), IsFirebaseConfigured(config))
    {
      if !IsFirebaseConfigured(config) {
        preferences := preferences[userId := StampedPreferences(prefs, now)];
        r := Ok(());
      } else {
        var id := Submit(UpdateDoc(UserPreferences, userId, prefs["updatedAt" := ServerTime]));
        r := if id.Ok? then Ok(()) else Failure(id.message);
      }
    }

    /** getAnalyticsData; `remote` is what Firestore's query answers (already
        filtered, ordered by descending timestamp and limited) or its error. */
    function GetAnalyticsData(remote: Result<seq<AnalyticsEvent>>, toolName: Option<string> := None,
                              limitCount: int := DefaultAnalyticsLimit): (r: Result<seq<AnalyticsEvent>>)
      reads this
      ensures IsFirebaseConfigured(config) ==> r == remote
      ensures !IsFirebaseConfigured(config) ==> r == AnalyticsQuery(analytics, toolName, limitCount)
    {
      if !IsFirebaseConfigured(config) then AnalyticsQuery(analytics, toolName, limitCount) else remote
    }

    /** getPopularContent; `remote` as for GetAnalyticsData. */
    function GetPopularContent(remote: Result<seq<ContentRecord>>, toolName: Option<string> := None,
                               limitCount: int := DefaultContentLimit): (r: Result<seq<ContentRecord>>)
      reads this
      ensures IsFirebaseConfigured(config) ==> r == remote
      ensures !IsFirebaseConfigured(config) ==> r == Ok(ContentQuery(content, toolName, limitCount))
    {
      if !IsFirebaseConfigured(config) then Ok(ContentQuery(content, toolName, limitCount)) else remote
    }
  }
}
