/** The checklist data model: tasks, lists and the tool-call payload the
    voice agent sends (types.ts). */
module Types {

  datatype Option<+T> = None | Some(value: T)

  /** A task is in exactly one of these three states. */
  datatype TaskStatus = Pending | Active | Completed

  /** `details` is optional; no task the app creates carries it. */
  datatype Task = Task(id: string, text: string, status: TaskStatus, details: Option<string>)

  /** A named, ordered checklist. */
  datatype List = List(id: string, name: string, tasks: seq<Task>)

  /** The arguments of a function call. Only `update_tasks` reads them, and
      only their `tasks` member, which may be missing. */
  datatype Args = Args(tasks: Option<seq<string>>)

  datatype FunctionCall = FunctionCall(id: string, name: string, args: Args)

  /** A tool call is an ordered batch of function calls. */
  datatype ToolCall = ToolCall(functionCalls: seq<FunctionCall>)

  /** The texts of a task sequence, in order. */
  function Texts(ts: seq<Task>): (r: seq<string>)
    ensures |r| == |ts|
    ensures forall i :: 0 <= i < |ts| ==> r[i] == ts[i].text
  {
    seq(|ts|, i requires 0 <= i < |ts| => ts[i].text)
  }

  /** Two task sequences that differ at most in their statuses. */
  predicate SameItems(a: seq<Task>, b: seq<Task>)
  {
    && |a| == |b|
    && forall i :: 0 <= i < |a| ==>
         a[i].id == b[i].id && a[i].text == b[i].text && a[i].details == b[i].details
  }

  /** Every id in the sequence is different from every other. */
  predicate DistinctIds(ts: seq<Task>)
  {
    forall i, j :: 0 <= i < j < |ts| ==> ts[i].id != ts[j].id
  }
}
