# A1UtilityHub telemetry store, in Dafny

A1UtilityHub is a set of browser utility tools (text generators and
calculators). Its pages record what users do through a small telemetry
layer. This project models that layer and proves what it writes, what it
returns and what it throws.

- **The backend gate** (`FirebaseConfig`). `isFirebaseConfigured` checks the
  three credential strings for placeholders. It decides whether the remote
  Firestore path is used or the in-memory fallback buffer.
- **The event store** (`FirestoreService`). The fallback buffer holds three
  append-only sequences: interactions, generated content and analytics
  events. It also holds a preferences map keyed by user id.
  - The class `EventStore` holds these as fields, along with
    sessionStorage. Each of its methods is proved to move the store exactly
    as the pure specification `Step` / `SavePreferences` says.
  - The specification takes the gate's answer as a boolean `remote`. The
    class computes it from its configuration on every call.
  - The remote Firestore backend is an oracle. The store carries the
    answers Firestore will give to its next writes (`replies`, one per
    write; none left means failure) and the writes it accepted
    (`remoteLog`).
  - The two queries are pure functions over the buffers. `getSessionId` is
    a get-or-create over sessionStorage. `withErrorHandling` turns a thrown
    failure into null.
- **The data-collection layer** (`DataCollection`). The instrumented
  generation call takes the parsed response as a datatype. Every outcome
  fixes two things. One is a sequence of telemetry writes (`GeminiCalls`):
  the start event, the try block's writes (`TryCalls`), and the catch
  block's error event (`CatchCalls`). The other is a result
  (`GeminiOutcome`) that telemetry cannot change.
  The module also has the four tracking helpers and the copy-click handler.
- **JavaScript built-ins** (`Js`). These are the built-ins the code relies
  on:
  - truthiness, and reading a property of null;
  - `String.prototype.includes`;
  - `slice(0, n)`, including a negative `n`;
  - `Number.prototype.toString(radix)`.

The clock, `Math.random`, the browser's `navigator`/`location`/`document`
values and the IP lookup are parameters. A store operation reads the clock
once. The fallback id is `fallback_` followed by that reading.

The generation call never looks at the HTTP status of its request: a
non-2xx reply with a JSON body is handled like any other body. A body
without text throws `Error("No response from Gemini")`, which the outer
catch records as `api_call_error` like every other failure.

`isFirebaseConfigured` is a Dafny function of the configuration, so
repeated calls on the same configuration agree by construction.

## Model

| member | source | states |
|---|---|---|
| FirebaseConfig.IsFirebaseConfigured | js/firebase-config.js:18-22 | the gate: no "your-" in apiKey or projectId and no "your-project" in authDomain; ConfiguredIffNoPlaceholder states it by positions |
| FirebaseConfig.ConfiguredIffNoPlaceholder | js/firebase-config.js:18-22 | configured exactly when "your-" occurs at no position of apiKey or projectId and "your-project" at no position of authDomain |
| FirebaseConfig.ShippedConfigUsesFallback | js/firebase-config.js:9-22 | the shipped placeholder configuration is not configured, so the fallback buffer is used |
| FirebaseConfig.PlaceholderProjectIdUsesFallback | js/firebase-config.js:11-22 | a projectId of "your-project-id" alone forces fallback mode, whatever the other fields hold |
| FirebaseConfig.AuthDomainCheckIsNarrower | js/firebase-config.js:21 | an authDomain containing "your-" but not "your-project" still counts as configured |
| FirebaseConfig.UncheckedFieldsAreIgnored | js/firebase-config.js:12-22 | storageBucket, messagingSenderId and appId never change the gate's answer |
| Js.Includes | js/firebase-config.js:19-21 | `s.includes(sub)` is true iff sub occurs in s at some position |
| Js.SliceTo | js/firestore-service.js:190 | `slice(0, n)` is a prefix of length n when n fits, the whole array when n is larger, and all but the last -n elements when n is negative |
| Js.Property | js/firestore-service.js:188 | reading a property throws exactly when the object is null; a present key gives its value |
| Js.ToRadix | js/firestore-service.js:266 | `n.toString(base)` is non-empty, its digits are below the base and it has no leading zero |
| Js.ParseToRadix | js/firestore-service.js:266 | reading back the digits of `n.toString(base)` gives n |
| Js.ToRadixInjective | js/firestore-service.js:266 | different numbers have different base-b renderings |
| FirestoreService.GenerateUniqueId | js/firestore-service.js:265-267 | a generated id is never empty, so a generated session id is always kept |
| FirestoreService.FallbackId | js/firestore-service.js:47 | the id a fallback write returns: "fallback_" and the clock in decimal (also lines 82 and 116) |
| FirestoreService.FallbackIdDecodes | js/firestore-service.js:47 | a fallback id is "fallback_" followed by digits that decode to the clock reading |
| FirestoreService.FallbackIdSameIffSameMillisecond | js/firestore-service.js:47 | two fallback ids are equal iff they were taken in the same millisecond |
| FirestoreService.SessionIdOf | js/firestore-service.js:256-263 | getSessionId's answer: the stored id when truthy, otherwise the generated one |
| FirestoreService.SessionAfter | js/firestore-service.js:258-261 | sessionStorage after getSessionId: the key holds the answer |
| FirestoreService.StoredSessionIdIsKept | js/firestore-service.js:256-263 | a stored, non-empty session id is returned unchanged and sessionStorage is not modified |
| FirestoreService.SessionIdIsStable | js/firestore-service.js:256-263 | two consecutive getSessionId calls return the same non-empty id, and the second writes nothing |
| FirestoreService.UserAgentOr | js/firestore-service.js:43 | the given user agent is used when truthy; null or "" falls back to navigator.userAgent |
| FirestoreService.RemoteDoc | js/firestore-service.js:50-131 | the document a remote write sends: the call's fields with serverTimestamp, the session id, the user agent, URL and, for interactions, the IP |
| FirestoreService.FallbackStep | js/firestore-service.js:36-116 | the fallback path of a write: take the session id, then push one record with `new Date()` onto the buffer of the call's kind |
| FirestoreService.RemoteStep | js/firestore-service.js:50-135 | the remote path of a write: take the session id, then send one document, kept only if Firestore accepts it |
| FirestoreService.Step | js/firestore-service.js:35-136 | a record-writing call takes the fallback or the remote path according to the gate, re-read on every call |
| FirestoreService.StepResult | js/firestore-service.js:35-136 | a write returns "fallback_" + millis in fallback mode, or Firestore's id or error in remote mode |
| FirestoreService.FallbackStepAppendsOneRecord | js/firestore-service.js:36-47 | in fallback mode a write returns "fallback_" + millis and appends exactly one record, with the call's fields, session id and user agent, to its own buffer; the other buffers, preferences and the remote side do not change |
| FirestoreService.RemoteStepRethrows | js/firestore-service.js:50-67 | in remote mode a write changes no fallback buffer, returns Firestore's id or rethrows its error; an accepted write appends exactly the call's document, under the session id, to the persisted log, and a rejected one persists nothing |
| FirestoreService.RunSnoc | js/firestore-service.js:35-136 | running one more write after a sequence of writes is one more step of the store |
| FirestoreService.RemoteDocs | js/firestore-service.js:50-131 | a run of remote writes sends, for each call in order, that call's document under the one session id |
| FirestoreService.RejectingBackendKeepsNothing | js/firestore-service.js:61-67 | a backend that rejects every write persists none of them |
| FirestoreService.AcceptingBackendKeepsAll | js/firestore-service.js:61-63 | a backend that accepts every write persists all of them, in call order |
| FirestoreService.FallbackRun | js/firestore-service.js:27-32 | in fallback mode a run of writes appends to each buffer exactly the records of its kind, in call order, all under one session id; preferences and the remote side do not change |
| FirestoreService.RemoteRun | js/firestore-service.js:50-67 | in remote mode a run of writes leaves every buffer alone and persists exactly the accepted documents in order, using up one answer per write |
| FirestoreService.StepPreservesWellFormed | js/firestore-service.js:107-114 | every write keeps every buffered record's session id non-empty, and every buffered event's user agent and URL those of the page |
| FirestoreService.StampedPreferences | js/firestore-service.js:162-165 | saved preferences keep every given field and set updatedAt to the clock, overriding a caller's updatedAt |
| FirestoreService.LookupPreferences | js/firestore-service.js:141 | a lookup answers the stored entry, or null for a user never saved |
| FirestoreService.SavePreferences | js/firestore-service.js:160-181 | a fallback save replaces the user's entry with the stamped fields; a remote save sends an update with serverTimestamp, kept only if Firestore accepts it |
| FirestoreService.SaveResult | js/firestore-service.js:160-181 | a save returns nothing in fallback mode and rethrows Firestore's error in remote mode |
| FirestoreService.SaveThenGetPreferences | js/firestore-service.js:141-167 | after a fallback save, reading the same user gives the saved fields plus updatedAt, replacing any earlier entry; other users and the buffers do not change |
| FirestoreService.RemoteSaveRethrows | js/firestore-service.js:170-180 | a remote save that Firestore rejects rethrows the error and changes nothing |
| FirestoreService.EventMatches | js/firestore-service.js:188 | `item.eventData.toolName === toolName`, when the read does not throw |
| FirestoreService.ContentMatches | js/firestore-service.js:224 | `item.toolName === toolName` |
| FirestoreService.Keep | js/firestore-service.js:188 | the filter keeps only matching elements and never grows the array |
| FirestoreService.KeepAppend | js/firestore-service.js:186-190 | filtering a concatenation filters each part and keeps their order |
| FirestoreService.KeepMembership | js/firestore-service.js:188 | an element survives the filter iff it was present and matches |
| FirestoreService.FilterEvents | js/firestore-service.js:188 | filtering analytics by eventData.toolName throws iff some event's eventData is null; otherwise it keeps exactly the matching events in order |
| FirestoreService.AnalyticsQuery | js/firestore-service.js:184-191 | the fallback analytics read takes the first limitCount matching events in insertion order, or all events when toolName is falsy; it throws only when filtering meets null eventData |
| FirestoreService.ContentQuery | js/firestore-service.js:220-227 | the fallback content read takes the first limitCount records whose toolName matches, in insertion order, or all when toolName is falsy |
| FirestoreService.QueryAfterTrackAnalytics | js/firestore-service.js:105-116 | after a fallback trackAnalytics, a filtered read returns the earlier matches followed by the new event iff it matches, truncated to the limit |
| FirestoreService.QueryAfterStoreContent | js/firestore-service.js:72-82 | after a fallback storeGeneratedContent, a filtered read returns the earlier matches followed by the new record iff its toolName matches, truncated to the limit |
| FirestoreService.NullEventDataBreaksFilteredReads | js/firestore-service.js:186-189 | one buffered event with null eventData makes every filtered fallback analytics read throw |
| FirestoreService.FallbackReadsCarrySession | js/firestore-service.js:184-227 | under the record invariant every event a fallback analytics read returns has a session id and the page's user agent and URL, and every content record a session id |
| FirestoreService.WithErrorHandling | js/firestore-service.js:281-291 | the wrapped call's value when it returns, null when it throws; it never propagates an error |
| FirestoreService.EventStore.constructor | js/firestore-service.js:27-32 | the store starts with empty buffers, no preferences and nothing persisted |
| FirestoreService.EventStore.GetSessionId | js/firestore-service.js:256-263 | answers the stored id or a newly generated one, stores it, and the answer is never empty |
| FirestoreService.EventStore.Submit | js/firestore-service.js:61-63 | a remote write returns Firestore's next answer and is persisted iff accepted |
| FirestoreService.EventStore.TrackUserInteraction | js/firestore-service.js:35-68 | moves the store exactly as Step does for an interaction and returns its id or error, keeping the record invariant |
| FirestoreService.EventStore.StoreGeneratedContent | js/firestore-service.js:71-101 | moves the store exactly as Step does for a content record and returns its id or error, keeping the record invariant |
| FirestoreService.EventStore.TrackAnalytics | js/firestore-service.js:104-136 | moves the store exactly as Step does for an analytics event and returns its id or error, keeping the record invariant |
| FirestoreService.EventStore.GetUserPreferences | js/firestore-service.js:139-157 | in fallback mode never throws, and answers the stored entry or null; in remote mode answers Firestore's document, null or error |
| FirestoreService.EventStore.SaveUserPreferences | js/firestore-service.js:160-181 | moves the store as SavePreferences says: replaces the user's entry in fallback mode, or sends an update that Firestore may reject |
| FirestoreService.EventStore.GetAnalyticsData | js/firestore-service.js:184-217 | the fallback analytics read over the current buffer, with default limit 100, or Firestore's answer in remote mode |
| FirestoreService.EventStore.GetPopularContent | js/firestore-service.js:220-253 | the fallback content read over the current buffer, with default limit 10, or Firestore's answer in remote mode |
| DataCollection.GeminiOutcome | js/data-collection.js:41-97 | the call returns iff the body has no truthy error and truthy text, and then returns exactly that text |
| DataCollection.StartData | js/data-collection.js:25-29 | the api_call_start payload: toolName, prompt.length and !!inlineData |
| DataCollection.ErrorData | js/data-collection.js:43-47 | the api_call_error payload: toolName, the message and the duration (also lines 92-96) |
| DataCollection.NoResponseData | js/data-collection.js:84-87 | the api_call_no_response payload: toolName and the duration |
| DataCollection.SuccessData | js/data-collection.js:75-79 | the api_call_success payload: toolName, the duration and the text's length |
| DataCollection.InteractionInput | js/data-collection.js:58 | the interaction's inputData: the prompt and the caller's inputData |
| DataCollection.InteractionOutput | js/data-collection.js:59 | the interaction's outputData: the text and the response time |
| DataCollection.ContentMetadata | js/data-collection.js:66-71 | the content record's metadata: prompt and response lengths, response time and inputData |
| DataCollection.TryCalls | js/data-collection.js:31-89 | the try block's writes: none on a transport failure, api_call_error before an error field is thrown, interaction, content and api_call_success on text, api_call_no_response without text |
| DataCollection.CatchCalls | js/data-collection.js:90-98 | the catch block's write: one api_call_error with the thrown message, on failure only |
| DataCollection.GeminiCalls | js/data-collection.js:21-99 | every write of the call in order: api_call_start, the try block's writes, then the catch block's |
| DataCollection.ApiCallStartComesFirst | js/data-collection.js:25-29 | api_call_start is always the first write, stamped before the request, with promptLength = prompt.length and hasInlineData = !!inlineData |
| DataCollection.ErrorFieldPath | js/data-collection.js:41-48 | a body with an error field yields api_call_start then two api_call_error events carrying that message, no records, and the error is thrown |
| DataCollection.NoTextPath | js/data-collection.js:82-97 | a body without text yields api_call_no_response then api_call_error with "No response from Gemini", which is thrown |
| DataCollection.TextPath | js/data-collection.js:51-81 | a text response writes, in order, one interaction, one content record carrying promptLength and responseLength, and api_call_success, then returns exactly the text |
| DataCollection.TransportFailurePath | js/data-collection.js:33-39 | when fetch or the JSON parse fails, exactly one api_call_error follows api_call_start and the original error is rethrown |
| DataCollection.RecordsOnlyOnSuccess | js/data-collection.js:51-97 | interaction and content records are among the writes iff the call returns text; otherwise every write is an analytics event |
| DataCollection.FailedCallKeepsNoRecords | js/data-collection.js:41-97 | a failing call leaves the interaction and content buffers unchanged in either mode; a successful one in fallback mode adds one of each, the content record holding the text |
| DataCollection.Contained | js/data-collection.js:25 | a wrapped store write moves the store as Step does and yields its id, or null when it fails |
| DataCollection.Emit | js/data-collection.js:25-29 | one wrapped write inside the call's sequence moves the store one Step further along the run |
| DataCollection.RecordGenerated | js/data-collection.js:55-79 | a text response's writes happen in order: the interaction, the generated content, then api_call_success |
| DataCollection.TryRequest | js/data-collection.js:31-89 | the try block makes exactly the writes of its branch and returns the text or throws the outcome's error |
| DataCollection.CallGeminiApiWithDataCollection | js/data-collection.js:21-99 | returns or throws what GeminiOutcome says, whatever the telemetry writes did, and moves the store as the run of GeminiCalls says |
| DataCollection.ToolUsageData | js/data-collection.js:103-107 | the tool_usage payload has toolName and timestamp, with additionalData spread last so that it overrides both |
| DataCollection.FormSubmissionData | js/data-collection.js:112-116 | the form_submission payload: toolName, formData and the ISO timestamp |
| DataCollection.PageViewData | js/data-collection.js:121-126 | the page_view payload: pageName, location.href, document.referrer and the ISO timestamp |
| DataCollection.UserActionData | js/data-collection.js:131-136 | the user_action payload: action, toolName or null, data and the ISO timestamp |
| DataCollection.TrackToolUsage | js/data-collection.js:102-108 | one tool_usage event carrying ToolUsageData; nothing is thrown |
| DataCollection.TrackFormSubmission | js/data-collection.js:111-117 | one form_submission event with toolName, formData and timestamp; nothing is thrown |
| DataCollection.TrackPageView | js/data-collection.js:120-127 | one page_view event with the page's URL and referrer; nothing is thrown |
| DataCollection.TrackUserAction | js/data-collection.js:130-137 | one user_action event, with a null toolName kept as null; nothing is thrown |
| DataCollection.TrackingEmitsOneEvent | js/data-collection.js:102-137 | a tracking event appends exactly one analytics record with its name in fallback mode, or persists at most that one analytics document in remote mode; no other buffer changes |
| DataCollection.IsCopyClick | js/data-collection.js:157 | a click counts as a copy iff the target's text contains "Copy" or its class list contains "copy-btn" |
| DataCollection.OnDocumentClick | js/data-collection.js:156-160 | a copy click records one copy_result user action for the page's tool; any other click writes nothing |

## Left out

- Firestore internals are left out: addDoc, getDoc, updateDoc, getDocs, and the where/orderBy/limit query.
  - Remote writes are an oracle that accepts or rejects each document.
  - Remote reads take Firestore's answer as a parameter.
  - The descending-timestamp order and the `{id, ...data}` shape of remote results are therefore not modelled.
  - Neither is the fact that updateDoc merges into the document and fails when it does not exist.
- getUserIP and the generation request's fetch are network I/O. The IP lookup's answer is a field of `Browser`. The parsed response is the `Response` datatype.
- `Date.now`, `new Date()` and `Math.random` are parameters. DataCollection.CallGeminiApiWithDataCollection uses one clock reading (`finish`) for every write after the request. The source reads the clock again at each write, so each duration it records may be slightly larger.
- Console logging is left out throughout.
- DOM wiring is not part of this model: listener registration, addFormFocusTracking, handleFormSubmissionWithDataCollection and initializeDataCollection. These are event-loop ordering and UI. Only the copy-click test and its handler body are modelled.
- Firebase app initialisation is not part of this model, because it calls the foreign Firebase SDK. The TOOLS name table is a constant list with no behaviour.
- assets/js/bonus.js and accessibility_fix.py are not part of this model. They are UI plumbing and an HTML rewriter over a library whose parse tree is not visible.
- JavaScript numbers are unbounded integers here. String lengths count characters, not UTF-16 code units.
- FirestoreService.WithErrorHandling: a wrapped call that itself returns null is not told apart from one that threw. The model's values are ids, which are never null.
- DataCollection.Response: the `error` and `text` fields are strings. A non-string error value is rendered by `new Error(...)`, which is not reproduced. A truthy non-string text gives `responseLength: undefined` at js/data-collection.js:68 and 78, which cannot be expressed. A JSON `null` body makes the `data.error` read at line 41 throw a TypeError into the catch block; it is expressed only as a TransportFailure carrying that message.
- FirestoreService.LookupPreferences: the preferences store is a plain `{}`, but the model uses a map. Two cases differ. First, `preferences[userId] || null` at js/firestore-service.js:141 returns the inherited Object.prototype member for a userId such as "constructor", "toString" or "hasOwnProperty", where the model returns null. Second, saving at line 162 under the userId "__proto__" replaces the object's prototype. After that, a never-saved user whose id is one of the saved field names reads that field's value. So FirestoreService.SaveThenGetPreferences's "other users unchanged" does not hold in JavaScript for that userId.
- FirestoreService.FallbackStep and FirestoreService.LookupPreferences: records are immutable values here. The JavaScript buffers keep the caller's objects by reference: inputData and outputData at js/firestore-service.js:40-41, metadata at 77, and eventData at 109. js/data-collection.js:58 and 70 put the same inputData object into both records, and getUserPreferences at line 141 hands out the stored object itself. A caller that later mutates such an object changes the stored record. For example, changing eventData.toolName drops the event from getAnalyticsData(oldName). FallbackRun, QueryAfterTrackAnalytics, QueryAfterStoreContent and SaveThenGetPreferences therefore hold only while callers leave those objects alone.
