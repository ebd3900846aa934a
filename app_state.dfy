/** The state App.tsx keeps (import mode, import text, the lists, the
    current list, the listening flag and the last error) and the handlers
    that change it: the voice callbacks, finishing an import, and starting or
    stopping a voice session. React's state hooks become fields of one
    object and each handler runs as one atomic step; `Date.now()` is the
    parameter `now`. */
module AppState {
  import opened Types
  import opened Strings
  import opened Checklist
  import opened LiveService

  /** The callback slots App fills in; it never sets onConnect. */
  const APP_HOOKS: set<Hook> :=
    {TasksUpdateHook, NextStepHook, UncheckTaskHook, PrevStepHook, ReadDetailsHook, ErrorHook, DisconnectHook}

  /** The tasks of `lists[index]` replaced by `tasks`; every other list and
      the list's id and name are kept. */
  function WithTasks(lists: seq<List>, index: nat, tasks: seq<Task>): (r: seq<List>)
    requires index < |lists|
    ensures |r| == |lists|
    ensures r[index].id == lists[index].id && r[index].name == lists[index].name
    ensures r[index].tasks == tasks
    ensures forall j :: 0 <= j < |lists| && j != index ==> r[j] == lists[j]
  {
    lists[index := lists[index].(tasks := tasks)]
  }

  /** Replacing one list's tasks by a progression keeps every list a
      progression. */
  lemma WithTasksKeepsProgression(lists: seq<List>, index: nat, tasks: seq<Task>)
    requires index < |lists| && Progression(tasks)
    requires forall j :: 0 <= j < |lists| ==> Progression(lists[j].tasks)
    ensures forall j :: 0 <= j < |WithTasks(lists, index, tasks)| ==>
      Progression(WithTasks(lists, index, tasks)[j].tasks)
  {
  }

  /** The task snapshot `toggleVoice` hands to `connect`: while importing,
      the non-empty lines of the import text, all pending; otherwise the
      current list's tasks, or none when there is no current list. */
  function InitialContext(isImporting: bool, importText: string, lists: seq<List>, index: nat): (r: seq<Task>)
    ensures isImporting ==> r == SnapshotTasks(importText)
    ensures !isImporting && index < |lists| ==> r == lists[index].tasks
    ensures !isImporting && index >= |lists| ==> r == []
  {
    if isImporting then SnapshotTasks(importText)
    else if index < |lists| then lists[index].tasks
    else []
  }

  class App {
    var isImporting: bool
    var importText: string
    var lists: seq<List>
    var currentListIndex: nat
    var isListening: bool
    var error: Option<string>
    const service: GeminiLiveService

    /** The current index names a list (or is 0 with no lists), a list
        exists outside import mode, every list keeps the ordering
        invariant, and the service's callback slots are the ones App fills
        in. */
    ghost predicate Valid()
      reads this, service
    {
      && (currentListIndex < |lists| || (lists == [] && currentListIndex == 0))
      && (!isImporting ==> lists != [])
      && (forall j :: 0 <= j < |lists| ==> Progression(lists[j].tasks))
      && service.Valid()
      && service.hooks == APP_HOOKS
    }

    /** The first render: import mode, no lists, a fresh service whose
        callbacks App fills in. */
    constructor ()
      ensures Valid() && fresh(service)
      ensures isImporting && importText == "" && lists == [] && currentListIndex == 0
      ensures !isListening && error == None
      ensures service.hooks == APP_HOOKS && service.Held() == {} && !service.outputNode
      ensures service.nextStartTime == 0.0 && service.snapshot == [] && service.abandoned == []
      ensures service.sent == [] && service.fired == [] && service.released == [] && service.scheduled == []
    {
      isImporting := true;
      importText := "";
      lists := [];
      currentListIndex := 0;
      isListening := false;
      error := None;
      var s := new GeminiLiveService();
      s.hooks := APP_HOOKS;
      service := s;
    }

    /** `onTasksUpdate`: while importing, the texts joined by newlines become
        the import text; otherwise they replace the current list's tasks. */
    method OnTasksUpdate(texts: seq<string>, now: nat)
      requires Valid()
      modifies this
      ensures Valid()
      ensures old(isImporting) ==> importText == Join(texts, NEWLINE) && lists == old(lists)
      ensures !old(isImporting) ==>
        && lists == WithTasks(old(lists), old(currentListIndex), Rebuild(texts, now))
        && importText == old(importText)
      ensures isImporting == old(isImporting) && currentListIndex == old(currentListIndex)
      ensures isListening == old(isListening) && error == old(error)
    {
      if isImporting {
        importText := Join(texts, NEWLINE);
      } else {
        WithTasksKeepsProgression(lists, currentListIndex, Rebuild(texts, now));
        lists := WithTasks(lists, currentListIndex, Rebuild(texts, now));
      }
    }

    /** `onNextStep`: while importing it finishes the import; otherwise the
        current list advances. */
    method OnNextStep(now: nat)
      requires Valid()
      modifies this, service
      ensures Valid()
      ensures old(isImporting) ==>
        && FinishedImport(old(lists), old(importText), old(isImporting), old(currentListIndex), old(isListening), now)
        && (ImportLines(old(importText)) == [] || !old(isListening) ==> unchanged(service))
        && (ImportLines(old(importText)) != [] && old(isListening) ==> TornDown())
      ensures !old(isImporting) ==>
        && lists == WithTasks(old(lists), old(currentListIndex), Advance(old(lists)[old(currentListIndex)].tasks))
        && isImporting == old(isImporting) && importText == old(importText)
        && currentListIndex == old(currentListIndex) && isListening == old(isListening)
        && unchanged(service)
      ensures error == old(error)
    {
      if isImporting {
        FinishImport(now);
      } else {
        if |lists| == 0 {
          return;
        }
        var tasks := lists[currentListIndex].tasks;
        ghost var before := tasks;
        var k := ActiveIndex(tasks);
        if k != -1 {
          tasks := tasks[k := tasks[k].(status := Completed)];
          if k + 1 < |tasks| {
            tasks := tasks[k + 1 := tasks[k + 1].(status := Active)];
          }
        }
        assert tasks == Advance(before);
        MovesKeepProgression(before);
        WithTasksKeepsProgression(lists, currentListIndex, tasks);
        lists := WithTasks(lists, currentListIndex, tasks);
      }
    }

    /** `onUncheckTask`: ignored while importing; otherwise the current list
        steps back, bringing back the last task when all are completed. */
    method OnUncheckTask()
      requires Valid()
      modifies this
      ensures Valid()
      ensures old(isImporting) ==> lists == old(lists)
      ensures !old(isImporting) ==>
        lists == WithTasks(old(lists), old(currentListIndex), Uncheck(old(lists)[old(currentListIndex)].tasks))
      ensures isImporting == old(isImporting) && importText == old(importText)
      ensures currentListIndex == old(currentListIndex)
      ensures isListening == old(isListening) && error == old(error)
    {
      if isImporting {
        return;
      }
      if |lists| == 0 {
        return;
      }
      var tasks := lists[currentListIndex].tasks;
      ghost var before := tasks;
      var k := ActiveIndex(tasks);
      if k > 0 {
        tasks := tasks[k := tasks[k].(status := Pending)];
        tasks := tasks[k - 1 := tasks[k - 1].(status := Active)];
      } else if k == -1 && |tasks| > 0 {
        var last := |tasks| - 1;
        tasks := tasks[last := tasks[last].(status := Active)];
      }
      assert tasks == Uncheck(before);
      MovesKeepProgression(before);
      WithTasksKeepsProgression(lists, currentListIndex, tasks);
      lists := WithTasks(lists, currentListIndex, tasks);
    }

    /** `onPrevStep`: ignored while importing; otherwise the current list
        steps back, and does nothing when all tasks are completed. */
    method OnPrevStep()
      requires Valid()
      modifies this
      ensures Valid()
      ensures old(isImporting) ==> lists == old(lists)
      ensures !old(isImporting) ==>
        lists == WithTasks(old(lists), old(currentListIndex), StepBack(old(lists)[old(currentListIndex)].tasks))
      ensures isImporting == old(isImporting) && importText == old(importText)
      ensures currentListIndex == old(currentListIndex)
      ensures isListening == old(isListening) && error == old(error)
    {
      if isImporting {
        return;
      }
      if |lists| == 0 {
        return;
      }
      var tasks := lists[currentListIndex].tasks;
      ghost var before := tasks;
      var k := ActiveIndex(tasks);
      if k > 0 {
        tasks := tasks[k := tasks[k].(status := Pending)];
        tasks := tasks[k - 1 := tasks[k - 1].(status := Active)];
      }
      assert tasks == StepBack(before);
      MovesKeepProgression(before);
      WithTasksKeepsProgression(lists, currentListIndex, tasks);
      lists := WithTasks(lists, currentListIndex, tasks);
    }

    /** What `handleFinishImport` leaves behind, from the state before it. */
    ghost predicate FinishedImport(oldLists: seq<List>, oldText: string, wasImporting: bool, oldIndex: nat,
                                   wasListening: bool, now: nat)
      reads this, service
    {
      var lines := ImportLines(oldText);
      if lines == [] then
        && lists == oldLists && importText == oldText && isImporting == wasImporting
        && currentListIndex == oldIndex && isListening == wasListening
      else
        && lists == oldLists + [List(ListId(now), ListName(|oldLists|), ImportedTasks(lines, now))]
        && currentListIndex == |oldLists|
        && importText == ""
        && !isImporting
        && !isListening
        && (wasListening ==> service.Held() == {})
    }

    /** The service after `disconnect`: everything it held is closed, in
        teardown order, onto the release log, and the output node, the
        playback cursor, the captured texts, the callback slots and the other
        logs are what they were. */
    twostate predicate TornDown()
      reads service
    {
      && service.Held() == {}
      && service.released == old(service.released)
           + TeardownOrder(old(service.session), old(service.processor), old(service.inputSource),
                           old(service.inputAudioContext), old(service.outputAudioContext))
      && service.outputNode == old(service.outputNode) && service.nextStartTime == old(service.nextStartTime)
      && service.snapshot == old(service.snapshot) && service.hooks == old(service.hooks)
      && service.sent == old(service.sent) && service.fired == old(service.fired)
      && service.scheduled == old(service.scheduled) && service.abandoned == old(service.abandoned)
    }

    /** `handleFinishImport`: with at least one non-blank line, append a new
        list named after its position, select it, clear the import text,
        leave import mode, and end a running voice session. */
    method FinishImport(now: nat)
      requires Valid()
      modifies this, service
      ensures Valid()
      ensures FinishedImport(old(lists), old(importText), old(isImporting), old(currentListIndex), old(isListening), now)
      ensures ImportLines(old(importText)) == [] || !old(isListening) ==> unchanged(service)
      ensures ImportLines(old(importText)) != [] && old(isListening) ==> TornDown()
      ensures error == old(error)
    {
      var lines := ImportLines(importText);
      if |lines| == 0 {
        return;
      }
      var newList := List(ListId(now), ListName(|lists|), ImportedTasks(lines, now));
      currentListIndex := |lists|;
      lists := lists + [newList];
      importText := "";
      isImporting := false;
      if isListening {
        service.Disconnect();
        isListening := false;
      }
    }

    /** The back button: return to import mode. */
    method EnterImport()
      requires Valid()
      modifies this`isImporting
      ensures Valid() && isImporting
    {
      isImporting := true;
    }

    /** `toggleVoice`: a running session is disconnected; otherwise the
        error is cleared, listening starts, and the service connects with
        the initial context (`accepted` and `failure` stand for the outcome
        of the SDK's connect). A refused connect calls onError, which stops
        listening and records the failure. */
    method ToggleVoice(accepted: bool, failure: string)
      requires Valid()
      modifies this, service
      ensures Valid()
      ensures old(isListening) ==>
        && !isListening && error == old(error)
        && TornDown()
      ensures !old(isListening) && old(service.session) ==> isListening && error == None && unchanged(service)
      ensures !old(isListening) && !old(service.session) ==>
        && service.snapshot == Texts(InitialContext(isImporting, importText, lists, currentListIndex))
        && service.session == accepted
        && service.inputAudioContext && service.outputAudioContext && service.outputNode
        && service.inputSource == old(service.inputSource) && service.processor == old(service.processor)
        && service.fired == old(service.fired) + (if accepted then [] else [ErrorReported(failure)])
        && service.sent == old(service.sent) && service.released == old(service.released)
        && service.scheduled == old(service.scheduled) && service.nextStartTime == old(service.nextStartTime)
        && service.abandoned == old(service.abandoned)
             + (if old(service.inputAudioContext) then [InputContext] else [])
             + (if old(service.outputAudioContext) then [OutputContext] else [])
        && (accepted ==> isListening && error == None)
        && (!accepted ==> !isListening && error == Some(failure))
      ensures lists == old(lists) && isImporting == old(isImporting) && importText == old(importText)
      ensures currentListIndex == old(currentListIndex)
    {
      if isListening {
        service.Disconnect();
        isListening := false;
      } else {
        error := None;
        isListening := true;
        var context := InitialContext(isImporting, importText, lists, currentListIndex);
        var start := |service.fired|;
        service.Connect(context, accepted, failure);
        if start < |service.fired| {
          // connect's catch reported the failure through onError
          OnError(service.fired[start].message);
        }
      }
    }

    /** `onError`: remember the message and stop listening. */
    method OnError(message: string)
      modifies this`error, this`isListening
      ensures error == Some(message) && !isListening
    {
      error := Some(message);
      isListening := false;
    }

    /** `onDisconnect`: stop listening. */
    method OnDisconnect()
      modifies this`isListening
      ensures !isListening
    {
      isListening := false;
    }

    /** One callback invocation from the service, routed to the handler App
        installed for it; `onReadDetails` only logs and onConnect is unset. */
    method Deliver(e: Event, now: nat)
      requires Valid()
      modifies this, service
      ensures Valid()
      ensures e.ReadDetails? || e.Connected? ==> unchanged(this)
      ensures !e.NextStep? ==> unchanged(service)
      ensures e.ErrorReported? ==> error == Some(e.message) && !isListening
      ensures e.Disconnected? ==> !isListening && error == old(error)
      ensures e.ErrorReported? || e.Disconnected? ==>
        && lists == old(lists) && isImporting == old(isImporting)
        && importText == old(importText) && currentListIndex == old(currentListIndex)
      ensures e.TasksUpdate? && old(isImporting) ==> importText == Join(e.tasks, NEWLINE) && lists == old(lists)
      ensures e.TasksUpdate? && !old(isImporting) ==>
        lists == WithTasks(old(lists), old(currentListIndex), Rebuild(e.tasks, now))
      ensures e.NextStep? && old(isImporting) ==>
        FinishedImport(old(lists), old(importText), old(isImporting), old(currentListIndex), old(isListening), now)
      ensures e.NextStep? && !old(isImporting) ==>
        lists == WithTasks(old(lists), old(currentListIndex), Advance(old(lists)[old(currentListIndex)].tasks))
      ensures e.UncheckTask? && !old(isImporting) ==>
        lists == WithTasks(old(lists), old(currentListIndex), Uncheck(old(lists)[old(currentListIndex)].tasks))
      ensures e.PrevStep? && !old(isImporting) ==>
        lists == WithTasks(old(lists), old(currentListIndex), StepBack(old(lists)[old(currentListIndex)].tasks))
      ensures (e.UncheckTask? || e.PrevStep?) && old(isImporting) ==> lists == old(lists)
      ensures service.hooks == old(service.hooks) && service.fired == old(service.fired)
    {
      match e
      case TasksUpdate(texts) => OnTasksUpdate(texts, now);
      case NextStep => OnNextStep(now);
      case UncheckTask => OnUncheckTask();
      case PrevStep => OnPrevStep();
      case ReadDetails =>
      case ErrorReported(message) => OnError(message);
      case Connected =>
      case Disconnected => OnDisconnect();
    }

    /** One message from the session: the service handles it, and every
        callback it fires is delivered to App, in order. A single
        `next_step` call outside import mode advances the current list. */
    method Receive(message: ServerMessage, currentTime: real, duration: real, now: nat)
        returns (delivered: seq<Event>)
      requires Valid() && duration >= 0.0
      modifies this, service
      ensures Valid()
      ensures delivered == Effects(CallsOf(message), old(service.hooks))
      ensures var calls := CallsOf(message);
        |calls| == 1 && calls[0].name == "next_step" && NextStepHook in old(service.hooks) && !old(isImporting) ==>
          lists == WithTasks(old(lists), old(currentListIndex), Advance(old(lists)[old(currentListIndex)].tasks))
    {
      var calls := CallsOf(message);
      if |calls| == 1 {
        assert calls[..0] == [];
      }
      var start := |service.fired|;
      service.HandleMessage(message, currentTime, duration);
      delivered := service.fired[start..];
      var i := 0;
      while i < |delivered|
        invariant 0 <= i <= |delivered|
        invariant Valid()
        invariant service.hooks == old(service.hooks)
        invariant i == 0 ==> lists == old(lists) && isImporting == old(isImporting)
                             && currentListIndex == old(currentListIndex)
        invariant i >= 1 && delivered == [NextStep] && !old(isImporting) ==>
          lists == WithTasks(old(lists), old(currentListIndex), Advance(old(lists)[old(currentListIndex)].tasks))
      {
        Deliver(delivered[i], now);
        i := i + 1;
      }
    }
  }

  /** `list-<now>`. */
  function ListId(now: nat): string
  {
    "list-" + NatToString(now)
  }

  /** `List <n+1>` for a list appended after `n` others. */
  function ListName(count: nat): string
  {
    "List " + NatToString(count + 1)
  }
}
