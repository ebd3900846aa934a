/** The voice-session bridge (services/geminiLiveService.ts): the session and
    audio-resource fields and how connect, the channel events and teardown
    change them; tool-call dispatch, which answers every function call once;
    and the gapless playback cursor. The SDK transport, the audio graph and
    the sample conversions are outside the model: what the service sends is
    appended to `sent`, the callbacks it invokes to `fired`, and the
    resources it closes to `released`. */
module LiveService {
  import opened Types

  /** The public callback slots; a hook is in `hooks` when its slot is set. */
  datatype Hook =
    | TasksUpdateHook | NextStepHook | UncheckTaskHook | PrevStepHook
    | ReadDetailsHook | ErrorHook | ConnectHook | DisconnectHook

  /** One invocation of a callback, with its argument. */
  datatype Event =
    | TasksUpdate(tasks: seq<string>) | NextStep | UncheckTask | PrevStep
    | ReadDetails | ErrorReported(message: string) | Connected | Disconnected
  {
    function Slot(): Hook
    {
      match this
      case TasksUpdate(_) => TasksUpdateHook
      case NextStep => NextStepHook
      case UncheckTask => UncheckTaskHook
      case PrevStep => PrevStepHook
      case ReadDetails => ReadDetailsHook
      case ErrorReported(_) => ErrorHook
      case Connected => ConnectHook
      case Disconnected => DisconnectHook
    }
  }

  /** The `result` of a tool response: `{status: 'ok'}` or `{error: ...}`. */
  datatype ToolResult = StatusOk | Failed(error: string)

  /** What the service sends over the session. */
  datatype Outbound =
    | StateSnapshot(texts: seq<string>)
    | RealtimeAudio(mimeType: string, data: string)
    | ToolResponse(id: string, name: string, result: ToolResult)

  /** The resources teardown closes, in the order `disconnect` closes them. */
  datatype Resource = SessionChannel | Processor | InputSource | InputContext | OutputContext

  /** A message from the session: an optional base64 audio chunk of the model
      turn and an optional tool call. */
  datatype ServerMessage = ServerMessage(audio: Option<string>, toolCall: Option<ToolCall>)

  /** The function calls a message carries, none without a tool call. */
  function CallsOf(message: ServerMessage): seq<FunctionCall>
  {
    if message.toolCall.Some? then message.toolCall.value.functionCalls else []
  }

  const TOOL_NAMES: set<string> :=
    {"update_tasks", "next_step", "uncheck_task", "prev_step", "read_details"}
  const UNKNOWN_TOOL: string := "Unknown tool"
  const UNKNOWN_ERROR: string := "Unknown error"
  const MIC_ERROR: string := "Could not access microphone"
  const CAPTURE_MIME: string := "audio/pcm;rate=16000"

  /** The answer to a function call: ok for the five tools, an error for
      any other name. */
  function ResultOf(name: string): (r: ToolResult)
    ensures r == StatusOk <==> name in TOOL_NAMES
    ensures r != StatusOk ==> r == Failed(UNKNOWN_TOOL)
  {
    if name in TOOL_NAMES then StatusOk else Failed(UNKNOWN_TOOL)
  }

  /** The callback slot each tool drives. */
  function HookFor(name: string): Hook
    requires name in TOOL_NAMES
  {
    if name == "update_tasks" then TasksUpdateHook
    else if name == "next_step" then NextStepHook
    else if name == "uncheck_task" then UncheckTaskHook
    else if name == "prev_step" then PrevStepHook
    else ReadDetailsHook
  }

  /** The callback one function call fires: its tool's own callback, only when
      that slot is set, and for `update_tasks` only when `args.tasks` is
      present. Unknown names fire nothing. */
  function Effect(call: FunctionCall, hooks: set<Hook>): (r: seq<Event>)
    ensures |r| <= 1
    ensures r != [] <==> (&& call.name in TOOL_NAMES && HookFor(call.name) in hooks
                          && (call.name == "update_tasks" ==> call.args.tasks.Some?))
    ensures r != [] ==> r[0].Slot() == HookFor(call.name)
    ensures r != [] && call.name == "update_tasks" ==> r[0] == TasksUpdate(call.args.tasks.value)
  {
    if call.name !in TOOL_NAMES || HookFor(call.name) !in hooks then []
    else if call.name == "update_tasks" then
      (if call.args.tasks.Some? then [TasksUpdate(call.args.tasks.value)] else [])
    else if call.name == "next_step" then [NextStep]
    else if call.name == "uncheck_task" then [UncheckTask]
    else if call.name == "prev_step" then [PrevStep]
    else [ReadDetails]
  }

  /** The callbacks a batch of function calls fires, in call order. */
  function Effects(calls: seq<FunctionCall>, hooks: set<Hook>): seq<Event>
  {
    if calls == [] then []
    else Effects(calls[..|calls| - 1], hooks) + Effect(calls[|calls| - 1], hooks)
  }

  /** The tool responses for a batch of function calls, in call order. */
  function Responses(calls: seq<FunctionCall>): seq<Outbound>
  {
    if calls == [] then []
    else
      var c := calls[|calls| - 1];
      Responses(calls[..|calls| - 1]) + [ToolResponse(c.id, c.name, ResultOf(c.name))]
  }

  /** The logs after dispatching `done`, from logs `sent0` and `fired0`:
      the responses (only while a session is held) and the callbacks. */
  predicate Dispatched(sent: seq<Outbound>, fired: seq<Event>, sent0: seq<Outbound>, fired0: seq<Event>,
                       session: bool, hooks: set<Hook>, done: seq<FunctionCall>)
  {
    && sent == sent0 + (if session then Responses(done) else [])
    && fired == fired0 + Effects(done, hooks)
  }

  /** Answering the next call extends the dispatched prefix by one. */
  lemma DispatchedStep(sent: seq<Outbound>, fired: seq<Event>, sent0: seq<Outbound>, fired0: seq<Event>,
                       session: bool, hooks: set<Hook>, calls: seq<FunctionCall>, i: nat)
    requires i < |calls| && Dispatched(sent, fired, sent0, fired0, session, hooks, calls[..i])
    ensures var c := calls[i];
      Dispatched(sent + (if session then [ToolResponse(c.id, c.name, ResultOf(c.name))] else []),
                 fired + Effect(c, hooks), sent0, fired0, session, hooks, calls[..i + 1])
  {
    var c := calls[i];
    var reply := ToolResponse(c.id, c.name, ResultOf(c.name));
    PrefixStep(calls, i, hooks);
    assert fired0 + Effects(calls[..i + 1], hooks) == (fired0 + Effects(calls[..i], hooks)) + Effect(c, hooks);
    if session {
      assert sent0 + Responses(calls[..i + 1]) == (sent0 + Responses(calls[..i])) + [reply];
    }
  }

  /** One more call processed: one more response and that call's callback. */
  lemma PrefixStep(calls: seq<FunctionCall>, i: nat, hooks: set<Hook>)
    requires i < |calls|
    ensures Responses(calls[..i + 1])
         == Responses(calls[..i]) + [ToolResponse(calls[i].id, calls[i].name, ResultOf(calls[i].name))]
    ensures Effects(calls[..i + 1], hooks) == Effects(calls[..i], hooks) + Effect(calls[i], hooks)
  {
    assert calls[..i + 1][..i] == calls[..i];
  }

  /** Exactly one response per call, in call order, each with that call's id
      and name; ok exactly for the five tool names. */
  lemma {:induction false} ResponsesOnePerCall(calls: seq<FunctionCall>)
    ensures |Responses(calls)| == |calls|
    ensures forall i :: 0 <= i < |calls| ==>
      && Responses(calls)[i].ToolResponse?
      && Responses(calls)[i].id == calls[i].id
      && Responses(calls)[i].name == calls[i].name
      && (Responses(calls)[i].result == StatusOk <==> calls[i].name in TOOL_NAMES)
  {
    if calls != [] {
      var init := calls[..|calls| - 1];
      ResponsesOnePerCall(init);
      forall i | 0 <= i < |calls| - 1 ensures init[i] == calls[i] {}
    }
  }

  /** Every callback a batch fires sits in a set slot and belongs to a known
      tool call; there are never more callbacks than calls. */
  lemma {:induction false} EffectsFireSetHooks(calls: seq<FunctionCall>, hooks: set<Hook>)
    ensures |Effects(calls, hooks)| <= |calls|
    ensures forall e :: e in Effects(calls, hooks) ==> e.Slot() in hooks
    ensures forall e :: e in Effects(calls, hooks) ==>
      exists i :: 0 <= i < |calls| && calls[i].name in TOOL_NAMES && e.Slot() == HookFor(calls[i].name)
  {
    if calls != [] {
      var init := calls[..|calls| - 1];
      var last := calls[|calls| - 1];
      EffectsFireSetHooks(init, hooks);
      forall e | e in Effects(calls, hooks)
        ensures exists i :: 0 <= i < |calls| && calls[i].name in TOOL_NAMES && e.Slot() == HookFor(calls[i].name)
      {
        if e in Effects(init, hooks) {
          var i :| 0 <= i < |init| && init[i].name in TOOL_NAMES && e.Slot() == HookFor(init[i].name);
          assert calls[i] == init[i];
        } else {
          assert e in Effect(last, hooks);
        }
      }
    }
  }

  /** `Math.max(currentTime, nextStartTime)`: a chunk starts neither before
      the output clock nor before the previous chunk ends. */
  function StartTime(currentTime: real, nextStartTime: real): (start: real)
    ensures start >= currentTime && start >= nextStartTime
    ensures start == currentTime || start == nextStartTime
  {
    if currentTime >= nextStartTime then currentTime else nextStartTime
  }

  /** A decoded chunk: the output clock when it is scheduled, and its length. */
  datatype Chunk = Chunk(clock: real, duration: real)

  /** The start times `playAudio` gives a run of chunks from cursor `next`. */
  function Starts(next: real, chunks: seq<Chunk>): seq<real>
    decreases chunks
  {
    if chunks == [] then []
    else
      var start := StartTime(chunks[0].clock, next);
      [start] + Starts(start + chunks[0].duration, chunks[1..])
  }

  /** Consecutive chunks never overlap; each starts no earlier than the clock
      reading it was scheduled at; and a chunk that is ready before its
      predecessor ends starts exactly when that predecessor ends. */
  lemma {:induction false} StartsGapless(next: real, chunks: seq<Chunk>)
    requires forall i :: 0 <= i < |chunks| ==> chunks[i].duration >= 0.0
    ensures |Starts(next, chunks)| == |chunks|
    ensures |chunks| > 0 ==> Starts(next, chunks)[0] >= next
    ensures forall i :: 0 <= i < |chunks| ==> Starts(next, chunks)[i] >= chunks[i].clock
    ensures forall i :: 0 <= i < |chunks| - 1 ==>
      Starts(next, chunks)[i + 1] >= Starts(next, chunks)[i] + chunks[i].duration
    ensures forall i :: 0 <= i < |chunks| - 1 && chunks[i + 1].clock <= Starts(next, chunks)[i] + chunks[i].duration ==>
      Starts(next, chunks)[i + 1] == Starts(next, chunks)[i] + chunks[i].duration
    decreases chunks
  {
    if chunks != [] {
      var start := StartTime(chunks[0].clock, next);
      var rest := chunks[1..];
      StartsGapless(start + chunks[0].duration, rest);
      var s := Starts(next, chunks);
      assert s == [start] + Starts(start + chunks[0].duration, rest);
      forall i | 0 <= i < |chunks| - 1 ensures s[i + 1] >= s[i] + chunks[i].duration {
        if i > 0 { assert rest[i - 1] == chunks[i]; }
      }
      forall i | 0 <= i < |chunks| ensures s[i] >= chunks[i].clock {
        if i > 0 { assert rest[i - 1] == chunks[i]; }
      }
      forall i | 0 <= i < |chunks| - 1 && chunks[i + 1].clock <= s[i] + chunks[i].duration
        ensures s[i + 1] == s[i] + chunks[i].duration
      {
        assert rest[i] == chunks[i + 1];
        if i > 0 { assert rest[i - 1] == chunks[i]; }
      }
    }
  }

  /** The open resources, given which of the five are open. */
  function HeldOf(session: bool, processor: bool, inputSource: bool,
                  inputContext: bool, outputContext: bool): set<Resource>
  {
    (if session then {SessionChannel} else {})
    + (if processor then {Processor} else {})
    + (if inputSource then {InputSource} else {})
    + (if inputContext then {InputContext} else {})
    + (if outputContext then {OutputContext} else {})
  }

  /** The resources `stopAudioStream` closes, in its order. */
  function CaptureOrder(processor: bool, inputSource: bool, inputContext: bool): seq<Resource>
  {
    (if processor then [Processor] else [])
    + (if inputSource then [InputSource] else [])
    + (if inputContext then [InputContext] else [])
  }

  /** The resources `disconnect` closes, in its order: the session first,
      then the capture chain, then the output context. */
  function TeardownOrder(session: bool, processor: bool, inputSource: bool,
                         inputContext: bool, outputContext: bool): seq<Resource>
  {
    (if session then [SessionChannel] else [])
    + CaptureOrder(processor, inputSource, inputContext)
    + (if outputContext then [OutputContext] else [])
  }

  /** Teardown closes exactly the open resources, each once. */
  lemma TeardownClosesHeld(session: bool, processor: bool, inputSource: bool,
                           inputContext: bool, outputContext: bool)
    ensures var r := TeardownOrder(session, processor, inputSource, inputContext, outputContext);
      && (forall x :: x in r <==> x in HeldOf(session, processor, inputSource, inputContext, outputContext))
      && (forall i, j :: 0 <= i < j < |r| ==> r[i] != r[j])
  {
    var c := CaptureOrder(processor, inputSource, inputContext);
    CaptureClosesHeld(processor, inputSource, inputContext);
    var a := if session then [SessionChannel] else [];
    var o := if outputContext then [OutputContext] else [];
    assert TeardownOrder(session, processor, inputSource, inputContext, outputContext) == a + c + o;
    NoRepeatsAppend(a, c);
    NoRepeatsAppend(a + c, o);
  }

  predicate NoRepeats(r: seq<Resource>)
  {
    forall i, j :: 0 <= i < j < |r| ==> r[i] != r[j]
  }

  /** Two repeat-free sequences with no element in common concatenate to a
      repeat-free sequence. */
  lemma NoRepeatsAppend(a: seq<Resource>, b: seq<Resource>)
    requires NoRepeats(a) && NoRepeats(b)
    requires forall x :: x in a ==> x !in b
    ensures NoRepeats(a + b)
  {
    forall i, j | 0 <= i < j < |a + b| ensures (a + b)[i] != (a + b)[j] {
      if j < |a| {
        assert (a + b)[i] == a[i] && (a + b)[j] == a[j];
      } else if i >= |a| {
        assert (a + b)[i] == b[i - |a|] && (a + b)[j] == b[j - |a|];
      } else {
        assert (a + b)[i] == a[i] && (a + b)[j] == b[j - |a|];
        assert a[i] in a && b[j - |a|] in b;
      }
    }
  }

  /** `stopAudioStream` closes exactly the open capture resources, each once. */
  lemma CaptureClosesHeld(processor: bool, inputSource: bool, inputContext: bool)
    ensures var c := CaptureOrder(processor, inputSource, inputContext);
      && (forall x :: x in c <==> x in HeldOf(false, processor, inputSource, inputContext, false))
      && (forall i, j :: 0 <= i < j < |c| ==> c[i] != c[j])
  {
  }

  class GeminiLiveService {
    // Each flag is true when the source's field of that name is non-null.
    var session: bool
    var inputAudioContext: bool
    var outputAudioContext: bool
    var inputSource: bool
    var processor: bool
    var outputNode: bool
    /** The playback cursor: where the next chunk may start. */
    var nextStartTime: real
    /** The callback slots that are set. */
    var hooks: set<Hook>
    /** The task texts `connect` captured for the first message. */
    var snapshot: seq<string>
    /** Everything sent over the session, in order. */
    var sent: seq<Outbound>
    /** Every callback invocation, in order. */
    var fired: seq<Event>
    /** Every resource closed, in order. */
    var released: seq<Resource>
    /** The start time of every chunk handed to the output. */
    var scheduled: seq<real>
    /** Every open resource whose field was overwritten without closing it,
        in order: it stays open and nothing can close it any more. */
    var abandoned: seq<Resource>

    /** The capture chain is built and torn down as one; the output node
        outlives its context. */
    ghost predicate Valid()
      reads this
    {
      && processor == inputSource
      && (inputSource ==> inputAudioContext)
      && (outputAudioContext ==> outputNode)
    }

    /** The resources currently open. */
    ghost function Held(): set<Resource>
      reads this
    {
      HeldOf(session, processor, inputSource, inputAudioContext, outputAudioContext)
    }

    constructor ()
      ensures Valid() && Held() == {} && !outputNode
      ensures nextStartTime == 0.0 && hooks == {}
      ensures sent == [] && fired == [] && released == [] && scheduled == [] && snapshot == []
      ensures abandoned == []
    {
      session, inputAudioContext, outputAudioContext := false, false, false;
      inputSource, processor, outputNode := false, false, false;
      nextStartTime := 0.0;
      hooks := {};
      snapshot, sent, fired, released, scheduled, abandoned := [], [], [], [], [], [];
    }

    /** `if (this.onX) this.onX(...)`. */
    method Fire(e: Event)
      modifies this`fired
      ensures fired == old(fired) + if e.Slot() in hooks then [e] else []
    {
      if e.Slot() in hooks {
        fired := fired + [e];
      }
    }

    /** `connect`: a no-op while a session exists. Otherwise it opens both
        audio contexts and the output node, captures the task texts, and
        either holds the new session (`accepted`) or reports `failure`
        through onError, leaving the contexts open. Contexts still open from
        an earlier connect are overwritten, not closed. */
    method Connect(initialTasks: seq<Task>, accepted: bool, failure: string)
      requires Valid()
      modifies this
      ensures Valid()
      ensures old(session) ==> unchanged(this)
      ensures !old(session) ==>
        && inputAudioContext && outputAudioContext && outputNode
        && snapshot == Texts(initialTasks)
        && session == accepted
        && fired == old(fired) + (if !accepted && ErrorHook in hooks then [ErrorReported(failure)] else [])
        && inputSource == old(inputSource) && processor == old(processor)
        && sent == old(sent) && released == old(released) && scheduled == old(scheduled)
        && nextStartTime == old(nextStartTime) && hooks == old(hooks)
        && abandoned == old(abandoned) + (if old(inputAudioContext) then [InputContext] else [])
                                       + (if old(outputAudioContext) then [OutputContext] else [])
    {
      if session {
        return;
      }
      if inputAudioContext {
        abandoned := abandoned + [InputContext];
      }
      if outputAudioContext {
        abandoned := abandoned + [OutputContext];
      }
      inputAudioContext := true;
      outputAudioContext := true;
      outputNode := true;
      snapshot := Texts(initialTasks);
      if accepted {
        session := true;
      } else {
        Fire(ErrorReported(failure));
      }
    }

    /** The channel's `onopen`: onConnect, then the task snapshot as the
        first message when a session is held, then audio capture. */
    method OnOpen(micGranted: bool)
      requires Valid()
      modifies this
      ensures Valid()
      ensures sent == old(sent) + (if session then [StateSnapshot(snapshot)] else [])
      ensures fired == old(fired) + (if ConnectHook in hooks then [Connected] else [])
                      + (if inputAudioContext && !micGranted && ErrorHook in hooks then [ErrorReported(MIC_ERROR)] else [])
      ensures inputSource == (old(inputSource) || (inputAudioContext && micGranted))
      ensures session == old(session) && inputAudioContext == old(inputAudioContext)
      ensures outputAudioContext == old(outputAudioContext) && outputNode == old(outputNode)
      ensures released == old(released) && scheduled == old(scheduled) && snapshot == old(snapshot)
      ensures nextStartTime == old(nextStartTime) && hooks == old(hooks)
      ensures abandoned == old(abandoned) + (if old(inputSource) && inputAudioContext && micGranted then [InputSource, Processor] else [])
    {
      Fire(Connected);
      if session {
        sent := sent + [StateSnapshot(snapshot)];
      }
      StartAudioStream(micGranted);
    }

    /** `startAudioStream`: with an input context, either builds the capture
        chain (microphone granted) or reports that the microphone is
        unavailable. A chain that is already built is overwritten, not
        closed. */
    method StartAudioStream(micGranted: bool)
      requires Valid()
      modifies this
      ensures Valid()
      ensures inputSource == (old(inputSource) || (inputAudioContext && micGranted))
      ensures fired == old(fired) + (if inputAudioContext && !micGranted && ErrorHook in hooks then [ErrorReported(MIC_ERROR)] else [])
      ensures session == old(session) && inputAudioContext == old(inputAudioContext)
      ensures outputAudioContext == old(outputAudioContext) && outputNode == old(outputNode)
      ensures sent == old(sent) && released == old(released) && scheduled == old(scheduled)
      ensures snapshot == old(snapshot) && nextStartTime == old(nextStartTime) && hooks == old(hooks)
      ensures abandoned == old(abandoned) + (if old(inputSource) && inputAudioContext && micGranted then [InputSource, Processor] else [])
    {
      if !inputAudioContext {
        return;
      }
      if micGranted {
        if inputSource {
          abandoned := abandoned + [InputSource, Processor];
        }
        inputSource := true;
        processor := true;
      } else {
        Fire(ErrorReported(MIC_ERROR));
      }
    }

    /** The processor's `onaudioprocess`: a captured frame (already encoded)
        goes out only while a session is held. */
    method OnAudioProcess(data: string)
      modifies this`sent
      ensures sent == old(sent) + if session then [RealtimeAudio(CAPTURE_MIME, data)] else []
    {
      if !session {
        return;
      }
      sent := sent + [RealtimeAudio(CAPTURE_MIME, data)];
    }

    /** `handleMessage`: play the audio chunk if the message carries a
        non-empty one, then answer its tool call. */
    method HandleMessage(message: ServerMessage, currentTime: real, duration: real)
      requires Valid() && duration >= 0.0
      modifies this
      ensures Valid() && Held() == old(Held()) && outputNode == old(outputNode)
      ensures var calls := CallsOf(message);
        && sent == old(sent) + (if session then Responses(calls) else [])
        && fired == old(fired) + Effects(calls, hooks)
      ensures var plays := message.audio.Some? && message.audio.value != "" && outputAudioContext && outputNode;
        && scheduled == old(scheduled) + (if plays then [StartTime(currentTime, old(nextStartTime))] else [])
        && nextStartTime == (if plays then StartTime(currentTime, old(nextStartTime)) + duration else old(nextStartTime))
      ensures released == old(released) && hooks == old(hooks) && snapshot == old(snapshot)
      ensures abandoned == old(abandoned)
    {
      if message.audio.Some? && message.audio.value != "" {
        PlayAudio(currentTime, duration);
      }
      if message.toolCall.Some? {
        DispatchToolCall(message.toolCall.value);
      } else {
        assert Effects([], hooks) == [] && Responses([]) == [];
      }
    }

    /** The tool-call loop of `handleMessage`: one response per call, in
        order, while a session is held, and each known tool's callback. */
    method DispatchToolCall(toolCall: ToolCall)
      modifies this`sent, this`fired
      ensures sent == old(sent) + if session then Responses(toolCall.functionCalls) else []
      ensures fired == old(fired) + Effects(toolCall.functionCalls, hooks)
    {
      var calls := toolCall.functionCalls;
      var i := 0;
      while i < |calls|
        invariant 0 <= i <= |calls|
        invariant Dispatched(sent, fired, old(sent), old(fired), session, hooks, calls[..i])
      {
        ghost var sent0, fired0 := sent, fired;
        Answer(calls[i]);
        DispatchedStep(sent0, fired0, old(sent), old(fired), session, hooks, calls, i);
        i := i + 1;
      }
      assert calls[..i] == calls;
    }

    /** One pass of the loop: run the call, then answer it while a session
        is held. */
    method Answer(call: FunctionCall)
      modifies this`sent, this`fired
      ensures sent == old(sent) + if session then [ToolResponse(call.id, call.name, ResultOf(call.name))] else []
      ensures fired == old(fired) + Effect(call, hooks)
    {
      var result := RunTool(call);
      if session {
        sent := sent + [ToolResponse(call.id, call.name, result)];
      }
    }

    /** The `switch` on one call's name: fire that tool's callback and give
        the call's result. */
    method RunTool(call: FunctionCall) returns (result: ToolResult)
      modifies this`fired
      ensures result == ResultOf(call.name)
      ensures fired == old(fired) + Effect(call, hooks)
    {
      result := StatusOk;
      if call.name == "update_tasks" {
        if TasksUpdateHook in hooks && call.args.tasks.Some? {
          fired := fired + [TasksUpdate(call.args.tasks.value)];
        }
      } else if call.name == "next_step" {
        Fire(NextStep);
      } else if call.name == "uncheck_task" {
        Fire(UncheckTask);
      } else if call.name == "prev_step" {
        Fire(PrevStep);
      } else if call.name == "read_details" {
        Fire(ReadDetails);
      } else {
        result := Failed(UNKNOWN_TOOL);
      }
    }

    /** `playAudio`: with an output context and node, the chunk starts at
        `max(currentTime, nextStartTime)` and the cursor moves to its end;
        otherwise nothing is scheduled. */
    method PlayAudio(currentTime: real, duration: real)
      requires duration >= 0.0
      modifies this`nextStartTime, this`scheduled
      ensures outputAudioContext && outputNode ==>
        && scheduled == old(scheduled) + [StartTime(currentTime, old(nextStartTime))]
        && nextStartTime == StartTime(currentTime, old(nextStartTime)) + duration
      ensures !(outputAudioContext && outputNode) ==>
        scheduled == old(scheduled) && nextStartTime == old(nextStartTime)
      ensures nextStartTime >= old(nextStartTime)
    {
      if !outputAudioContext || !outputNode {
        return;
      }
      var start := StartTime(currentTime, nextStartTime);
      scheduled := scheduled + [start];
      nextStartTime := start + duration;
    }

    /** `stopAudioStream`: closes the processor, the input source and the
        input context, each only if open; safe to repeat. */
    method StopAudioStream()
      requires Valid()
      modifies this`processor, this`inputSource, this`inputAudioContext, this`released
      ensures Valid()
      ensures !processor && !inputSource && !inputAudioContext
      ensures released == old(released) + CaptureOrder(old(processor), old(inputSource), old(inputAudioContext))
    {
      if processor {
        released := released + [Processor];
        processor := false;
      }
      if inputSource {
        released := released + [InputSource];
        inputSource := false;
      }
      if inputAudioContext {
        released := released + [InputContext];
        inputAudioContext := false;
      }
    }

    /** The channel's `onclose`: onDisconnect, stop capture, drop the
        session. The output context stays open. */
    method OnClose()
      requires Valid()
      modifies this
      ensures Valid()
      ensures fired == old(fired) + if DisconnectHook in hooks then [Disconnected] else []
      ensures !session && !processor && !inputSource && !inputAudioContext
      ensures outputAudioContext == old(outputAudioContext) && outputNode == old(outputNode)
      ensures released == old(released) + CaptureOrder(old(processor), old(inputSource), old(inputAudioContext))
      ensures sent == old(sent) && scheduled == old(scheduled) && nextStartTime == old(nextStartTime)
      ensures hooks == old(hooks) && snapshot == old(snapshot) && abandoned == old(abandoned)
    {
      Fire(Disconnected);
      StopAudioStream();
      session := false;
    }

    /** The channel's `onerror`: only reports, tears nothing down. */
    method OnError(message: string)
      modifies this`fired
      ensures fired == old(fired) + if ErrorHook in hooks then [ErrorReported(if message == "" then UNKNOWN_ERROR else message)] else []
    {
      Fire(ErrorReported(if message == "" then UNKNOWN_ERROR else message));
    }

    /** `disconnect`: closes the session, then the capture chain, then the
        output context, each exactly once and only if open. The output node
        and the playback cursor are kept. A second call closes nothing. */
    method Disconnect()
      requires Valid()
      modifies this
      ensures Valid() && Held() == {}
      ensures released == old(released) + TeardownOrder(old(session), old(processor), old(inputSource),
                                                 old(inputAudioContext), old(outputAudioContext))
      ensures outputNode == old(outputNode) && nextStartTime == old(nextStartTime)
      ensures sent == old(sent) && fired == old(fired) && scheduled == old(scheduled)
      ensures hooks == old(hooks) && snapshot == old(snapshot) && abandoned == old(abandoned)
    {
      if session {
        released := released + [SessionChannel];
      }
      StopAudioStream();
      if outputAudioContext {
        released := released + [OutputContext];
        outputAudioContext := false;
      }
      session := false;
    }
  }
}
