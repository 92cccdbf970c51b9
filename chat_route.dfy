/**
 * `POST /api/chat`: forward one user message to an assistant thread, poll
 * the run until it completes, and return the text of the assistant's reply.
 * The Assistants API is replaced by what each of its calls returns or throws.
 */
module ChatRoute {
  import opened Js

  /** At most this many retrieves follow the first one. */
  const MaxAttempts := 60

  const MessageRequired := "Message is required"
  const ResponseTimeout := "Response timeout"
  const NoAssistantMessage := "No assistant message found"
  const InternalError := "Internal server error"

  datatype RunStatus =
    | Queued | InProgress | RequiresAction | Cancelling | Cancelled
    | Failed | Completed | Incomplete | Expired

  function StatusName(s: RunStatus): string {
    match s
    case Queued => "queued"
    case InProgress => "in_progress"
    case RequiresAction => "requires_action"
    case Cancelling => "cancelling"
    case Cancelled => "cancelled"
    case Failed => "failed"
    case Completed => "completed"
    case Incomplete => "incomplete"
    case Expired => "expired"
  }

  /** A run as `retrieve` reports it; `lastError` is `last_error?.message`. */
  datatype Run = Run(status: RunStatus, lastError: Option<string>)

  datatype Role = UserRole | AssistantRole

  /** One content part of a thread message: text, or a part of another type. */
  datatype ContentPart = TextPart(value: string) | OtherPart(kind: string)

  datatype ThreadMessage = ThreadMessage(role: Role, content: seq<ContentPart>)

  /**
   * The Assistants API as one request meets it: the result of creating a
   * thread, adding the message, creating the run, of the k-th `retrieve`
   * (k = 0 is the one before the loop), and of listing the messages.
   */
  datatype Sdk = Sdk(
    createThread: Result<string>,
    addMessage: Result<()>,
    createRun: Result<string>,
    retrieve: nat -> Result<Run>,
    listMessages: Result<seq<ThreadMessage>>)

  /** The calls the route makes, in order. */
  datatype SdkCall =
    | CreateThread
    | AddMessage(threadId: string, content: string)
    | CreateRun(threadId: string)
    | RetrieveRun(threadId: string, runId: string)
    | ListMessages(threadId: string)

  /** The JSON body: unparsable, or its `message` and `threadId` fields. */
  datatype ChatBody = Unparsable(thrown: Thrown) | ChatBody(message: Option<string>, threadId: Option<string>)

  datatype ChatResponse =
    | Reply(message: string, threadId: string)
    | JsonError(status: nat, error: string)

  /** A retrieve after which the loop keeps polling: it returned, and the run is still open. */
  predicate StillRunning(r: Result<Run>) {
    r.Ok? && r.value.status != Completed && r.value.status != Failed && r.value.status != Cancelled
  }

  predicate RunCompleted(r: Result<Run>) {
    r.Ok? && r.value.status == Completed
  }

  predicate Aborted(run: Run) {
    run.status == Failed || run.status == Cancelled
  }

  /** The error thrown for a failed or cancelled run. */
  function AbortMessage(run: Run): (m: string)
    ensures 4 + |StatusName(run.status)| <= |m| &&
      m[..4] == "Run " && m[4..4 + |StatusName(run.status)|] == StatusName(run.status)
    ensures var detail := if Truthy(run.lastError) then run.lastError.value else "Unknown error";
      |detail| < |m| && m[|m| - |detail|..] == detail
  {
    "Run " + StatusName(run.status) + ": " +
    (if Truthy(run.lastError) then run.lastError.value else "Unknown error")
  }

  /**
   * Poll a run: one retrieve, then up to `MaxAttempts` more while the run is
   * neither completed, failed nor cancelled. `calls` is the number of
   * retrieves made; the last one decides the outcome.
   */
  method PollRun(retrieve: nat -> Result<Run>) returns (outcome: Result<Run>, calls: nat)
    ensures 1 <= calls <= MaxAttempts + 1
    ensures forall k :: 0 <= k < calls - 1 ==> StillRunning(retrieve(k))
    ensures calls <= MaxAttempts ==> !StillRunning(retrieve(calls - 1))
    ensures retrieve(calls - 1).Threw? ==> outcome == retrieve(calls - 1)
    ensures outcome.Ok? <==> retrieve(calls - 1).Ok? && retrieve(calls - 1).value.status == Completed
    ensures outcome.Ok? ==> outcome == retrieve(calls - 1)
    ensures calls <= MaxAttempts && retrieve(calls - 1).Ok? && Aborted(retrieve(calls - 1).value) ==>
      outcome == Threw(ErrorObject(AbortMessage(retrieve(calls - 1).value)))
    ensures calls == MaxAttempts + 1 && retrieve(calls - 1).Ok? && retrieve(calls - 1).value.status != Completed ==>
      outcome == Threw(ErrorObject(ResponseTimeout))
  {
    var run := retrieve(0);
    if run.Threw? {
      return run, 1;
    }
    var attempts := 0;
    while run.value.status != Completed && attempts < MaxAttempts
      invariant 0 <= attempts <= MaxAttempts
      invariant run == retrieve(attempts) && run.Ok?
      invariant forall k :: 0 <= k < attempts ==> StillRunning(retrieve(k))
    {
      if Aborted(run.value) {
        return Threw(ErrorObject(AbortMessage(run.value))), attempts + 1;
      }
      run := retrieve(attempts + 1);
      if run.Threw? {
        return run, attempts + 2;
      }
      attempts := attempts + 1;
    }
    if run.value.status != Completed {
      return Threw(ErrorObject(ResponseTimeout)), attempts + 1;
    }
    return run, attempts + 1;
  }

  /** `messages.data.find(msg => msg.role === 'assistant')`, as an index. */
  function FirstAssistant(msgs: seq<ThreadMessage>): (r: Option<nat>)
    ensures r.Some? ==> r.value < |msgs| && msgs[r.value].role == AssistantRole
    ensures r.Some? ==> forall j :: 0 <= j < r.value ==> msgs[j].role != AssistantRole
    ensures r.None? <==> forall j :: 0 <= j < |msgs| ==> msgs[j].role != AssistantRole
  {
    if msgs == [] then None
    else if msgs[0].role == AssistantRole then Some(0)
    else match FirstAssistant(msgs[1..])
      case None => None
      case Some(i) => Some(i + 1)
  }

  function PartText(p: ContentPart): string {
    if p.TextPart? then p.value else ""
  }

  /** The reply text: the text parts' values, in order; other parts contribute nothing. */
  function TextOf(parts: seq<ContentPart>): string {
    if parts == [] then "" else PartText(parts[0]) + TextOf(parts[1..])
  }

  /** The text of a concatenation is the concatenation of the texts. */
  lemma {:induction false} TextOfAppend(a: seq<ContentPart>, b: seq<ContentPart>)
    ensures TextOf(a + b) == TextOf(a) + TextOf(b)
    decreases |a|
  {
    if a == [] {
      assert a + b == b;
    } else {
      assert (a + b)[1..] == a[1..] + b;
      TextOfAppend(a[1..], b);
    }
  }

  /** Removing the non-text parts does not change the reply text. */
  lemma {:induction false} TextOfIgnoresOtherParts(a: seq<ContentPart>, kind: string, b: seq<ContentPart>)
    ensures TextOf(a + [OtherPart(kind)] + b) == TextOf(a + b)
  {
    var other := [OtherPart(kind)];
    assert TextOf(other) == "" by {
      assert other[1..] == [];
    }
    calc {
      TextOf(a + other + b);
      { TextOfAppend(a + other, b); }
      TextOf(a + other) + TextOf(b);
      { TextOfAppend(a, other); }
      TextOf(a) + TextOf(b);
      { TextOfAppend(a, b); }
      TextOf(a + b);
    }
  }

  /** The `for ... of` loop that appends each text part's value. */
  method ResponseText(parts: seq<ContentPart>) returns (text: string)
    ensures text == TextOf(parts)
  {
    text := "";
    for i := 0 to |parts|
      invariant text == TextOf(parts[..i])
    {
      if parts[i].TextPart? {
        text := text + parts[i].value;
      }
      TextOfAppend(parts[..i], [parts[i]]);
      assert parts[..i + 1] == parts[..i] + [parts[i]];
      assert TextOf([parts[i]]) == PartText(parts[i]) by {
        assert [parts[i]][1..] == [];
      }
    }
    assert parts[..|parts|] == parts;
  }

  /** The thread the request works on: the supplied one if truthy, else a new one. */
  function ThreadFor(threadId: Option<string>, sdk: Sdk): (r: Result<string>)
    ensures Truthy(threadId) ==> r == Ok(threadId.value)
    ensures r.Threw? ==> !Truthy(threadId) && r == sdk.createThread
  {
    if Truthy(threadId) then Ok(threadId.value) else sdk.createThread
  }

  function Retrieves(threadId: string, runId: string, n: nat): (s: seq<SdkCall>)
    ensures |s| == n && forall c :: c in s ==> c == RetrieveRun(threadId, runId)
  {
    seq(n, _ => RetrieveRun(threadId, runId))
  }

  /** The 500 response for a thrown value. */
  function ServerError(t: Thrown): ChatResponse {
    JsonError(500, ErrorText(t, InternalError))
  }

  /** The request reaches `runs.create`, and it returned a run. */
  predicate RunStarted(body: ChatBody, sdk: Sdk) {
    body.ChatBody? && Truthy(body.message) && ThreadFor(body.threadId, sdk).Ok? &&
    sdk.addMessage.Ok? && sdk.createRun.Ok?
  }

  /** The polling loop reaches the `k`-th retrieve: every earlier one saw a still-open run. */
  predicate PolledUntil(retrieve: nat -> Result<Run>, k: nat) {
    k <= MaxAttempts && forall j :: 0 <= j < k ==> StillRunning(retrieve(j))
  }

  /**
   * From the first `retrieve` to the response: poll the run, list the
   * thread's messages, and answer with the first assistant message's text.
   */
  method AwaitReply(threadId: string, runId: string, sdk: Sdk) returns (response: ChatResponse, calls: seq<SdkCall>)
    ensures 1 <= |calls| <= MaxAttempts + 2
    ensures forall c :: c in calls ==> c == RetrieveRun(threadId, runId) || c == ListMessages(threadId)
    ensures response.JsonError? ==> response.status == 500
    ensures response.Reply? ==>
      response.threadId == threadId &&
      sdk.listMessages.Ok? && FirstAssistant(sdk.listMessages.value).Some? &&
      response.message == TextOf(sdk.listMessages.value[FirstAssistant(sdk.listMessages.value).value].content)
    ensures response.Reply? ==>
      exists k: nat :: PolledUntil(sdk.retrieve, k) && RunCompleted(sdk.retrieve(k))
    ensures forall k: nat :: PolledUntil(sdk.retrieve, k) && sdk.retrieve(k).Threw? ==>
      response == ServerError(sdk.retrieve(k).thrown)
    ensures forall k: nat ::
      (PolledUntil(sdk.retrieve, k) && k < MaxAttempts &&
       sdk.retrieve(k).Ok? && Aborted(sdk.retrieve(k).value)) ==>
      response == JsonError(500, AbortMessage(sdk.retrieve(k).value))
    ensures PolledUntil(sdk.retrieve, MaxAttempts) &&
            sdk.retrieve(MaxAttempts).Ok? && sdk.retrieve(MaxAttempts).value.status != Completed ==>
      response == JsonError(500, ResponseTimeout)
    ensures forall k: nat :: PolledUntil(sdk.retrieve, k) && RunCompleted(sdk.retrieve(k)) ==>
      match sdk.listMessages
      case Threw(t) => response == ServerError(t)
      case Ok(msgs) =>
        match FirstAssistant(msgs)
        case None => response == JsonError(500, NoAssistantMessage)
        case Some(i) => response == Reply(TextOf(msgs[i].content), threadId)
  {
    var outcome, n := PollRun(sdk.retrieve);
    calls := Retrieves(threadId, runId, n);
    assert PolledUntil(sdk.retrieve, n - 1);
    if outcome.Threw? {
      return ServerError(outcome.thrown), calls;
    }
    calls := calls + [ListMessages(threadId)];
    if sdk.listMessages.Threw? {
      return ServerError(sdk.listMessages.thrown), calls;
    }
    var found := FirstAssistant(sdk.listMessages.value);
    if found.None? {
      return ServerError(ErrorObject(NoAssistantMessage)), calls;
    }
    var text := ResponseText(sdk.listMessages.value[found.value].content);
    return Reply(text, threadId), calls;
  }

  method Post(body: ChatBody, sdk: Sdk) returns (response: ChatResponse, calls: seq<SdkCall>)
    ensures body.Unparsable? ==> response == ServerError(body.thrown) && calls == []
    ensures body.ChatBody? && !Truthy(body.message) ==>
      response == JsonError(400, MessageRequired) && calls == []
    ensures response.JsonError? ==> response.status in {400, 500}
    ensures response.JsonError? && response.status == 400 ==> body.ChatBody? && !Truthy(body.message)
    ensures body.ChatBody? && Truthy(body.message) ==>
      calls != [] &&
      calls[0] == (if Truthy(body.threadId) then AddMessage(body.threadId.value, body.message.value) else CreateThread) &&
      (CreateThread in calls <==> !Truthy(body.threadId)) &&
      |calls| <= MaxAttempts + 5
    ensures body.ChatBody? && ThreadFor(body.threadId, sdk).Ok? ==>
      forall c :: c in calls && !c.CreateThread? ==> c.threadId == ThreadFor(body.threadId, sdk).value
    ensures response.Reply? ==>
      body.ChatBody? && Truthy(body.message) &&
      ThreadFor(body.threadId, sdk).Ok? && response.threadId == ThreadFor(body.threadId, sdk).value &&
      sdk.listMessages.Ok? && FirstAssistant(sdk.listMessages.value).Some? &&
      response.message == TextOf(sdk.listMessages.value[FirstAssistant(sdk.listMessages.value).value].content)
    ensures response.Reply? ==>
      exists k :: 0 <= k <= MaxAttempts && RunCompleted(sdk.retrieve(k)) &&
        forall j :: 0 <= j < k ==> StillRunning(sdk.retrieve(j))
    ensures sdk.listMessages.Ok? && FirstAssistant(sdk.listMessages.value).None? ==> response.JsonError?
    // every way the request can end, from the first failing step
    ensures body.ChatBody? && Truthy(body.message) && !Truthy(body.threadId) && sdk.createThread.Threw? ==>
      response == ServerError(sdk.createThread.thrown)
    ensures body.ChatBody? && Truthy(body.message) && ThreadFor(body.threadId, sdk).Ok? && sdk.addMessage.Threw? ==>
      response == ServerError(sdk.addMessage.thrown)
    ensures body.ChatBody? && Truthy(body.message) && ThreadFor(body.threadId, sdk).Ok? &&
            sdk.addMessage.Ok? && sdk.createRun.Threw? ==>
      response == ServerError(sdk.createRun.thrown)
    ensures forall k: nat :: RunStarted(body, sdk) && PolledUntil(sdk.retrieve, k) && sdk.retrieve(k).Threw? ==>
      response == ServerError(sdk.retrieve(k).thrown)
    ensures forall k: nat ::
      (RunStarted(body, sdk) && PolledUntil(sdk.retrieve, k) && k < MaxAttempts &&
       sdk.retrieve(k).Ok? && Aborted(sdk.retrieve(k).value)) ==>
      response == JsonError(500, AbortMessage(sdk.retrieve(k).value))
    ensures RunStarted(body, sdk) && PolledUntil(sdk.retrieve, MaxAttempts) &&
            sdk.retrieve(MaxAttempts).Ok? && sdk.retrieve(MaxAttempts).value.status != Completed ==>
      response == JsonError(500, ResponseTimeout)
    ensures forall k: nat :: RunStarted(body, sdk) && PolledUntil(sdk.retrieve, k) && RunCompleted(sdk.retrieve(k)) ==>
      match sdk.listMessages
      case Threw(t) => response == ServerError(t)
      case Ok(msgs) =>
        match FirstAssistant(msgs)
        case None => response == JsonError(500, NoAssistantMessage)
        case Some(i) => response == Reply(TextOf(msgs[i].content), ThreadFor(body.threadId, sdk).value)
  {
    calls := [];
    if body.Unparsable? {
      return ServerError(body.thrown), calls;
    }
    if !Truthy(body.message) {
      return JsonError(400, MessageRequired), calls;
    }
    var message := body.message.value;
    var threadId: string;
    if Truthy(body.threadId) {
      threadId := body.threadId.value;
    } else {
      calls := calls + [CreateThread];
      if sdk.createThread.Threw? {
        return ServerError(sdk.createThread.thrown), calls;
      }
      threadId := sdk.createThread.value;
    }
    calls := calls + [AddMessage(threadId, message)];
    if sdk.addMessage.Threw? {
      return ServerError(sdk.addMessage.thrown), calls;
    }
    calls := calls + [CreateRun(threadId)];
    if sdk.createRun.Threw? {
      return ServerError(sdk.createRun.thrown), calls;
    }
    var runId := sdk.createRun.value;
    var rest;
    response, rest := AwaitReply(threadId, runId, sdk);
    calls := calls + rest;
  }

  /**
   * A new conversation whose run completes on the third retrieve: the reply
   * joins the text parts of the assistant message and names the new thread.
   */
  method AnsweredRequest() returns (response: ChatResponse)
    ensures response == Reply("hello", "thread-1")
  {
    var parts := [TextPart("hel"), OtherPart("image_file"), TextPart("lo")];
    var sdk := Sdk(Ok("thread-1"), Ok(()), Ok("run-1"),
                   k => if k < 2 then Ok(Run(InProgress, None)) else Ok(Run(Completed, None)),
                   Ok([ThreadMessage(UserRole, [TextPart("hi")]), ThreadMessage(AssistantRole, parts)]));
    var calls;
    response, calls := Post(ChatBody(Some("hi"), None), sdk);
    assert PolledUntil(sdk.retrieve, 2);
    TextOfIgnoresOtherParts([TextPart("hel")], "image_file", [TextPart("lo")]);
    TextOfAppend([TextPart("hel")], [TextPart("lo")]);
  }

  /** A run that stays queued: 61 retrieves, then a 500 carrying "Response timeout". */
  method TimedOutRequest() returns (response: ChatResponse)
    ensures response == JsonError(500, "Response timeout")
  {
    var sdk := Sdk(Ok("thread-1"), Ok(()), Ok("run-1"), k => Ok(Run(Queued, None)), Ok([]));
    var calls;
    response, calls := Post(ChatBody(Some("hi"), Some("thread-1")), sdk);
    assert PolledUntil(sdk.retrieve, MaxAttempts);
  }
}
