/** The checklist progression machine: the task-sequence transitions that
    App.tsx performs in its voice-callback handlers, and the ordering
    invariant they keep (completed prefix, at most one active task, pending
    suffix). */
module Checklist {
  import opened Types
  import opened Strings

  /** `tasks.findIndex(t => t.status === 'active')`: the first active index,
      or -1. */
  function ActiveIndex(ts: seq<Task>): (k: int)
    ensures -1 <= k < |ts|
    ensures k == -1 <==> forall i :: 0 <= i < |ts| ==> ts[i].status != Active
    ensures k >= 0 ==> ts[k].status == Active
    ensures forall i :: 0 <= i < k ==> ts[i].status != Active
  {
    if ts == [] then -1
    else if ts[0].status == Active then 0
    else
      var k := ActiveIndex(ts[1..]);
      if k == -1 then -1 else k + 1
  }

  /** The status the ordering invariant prescribes at index `i` when `c`
      tasks are completed. */
  function StatusAt(c: nat, i: nat): TaskStatus
  {
    if i < c then Completed else if i == c then Active else Pending
  }

  /** `ts` has exactly `c` completed tasks, followed by one active task (when
      `c < |ts|`) and then only pending ones. */
  predicate Shaped(ts: seq<Task>, c: nat)
  {
    && c <= |ts|
    && forall i :: 0 <= i < |ts| ==> ts[i].status == StatusAt(c, i)
  }

  /** Where the progression stands: the active index, or the length when no
      task is active. */
  function Cursor(ts: seq<Task>): (c: nat)
    ensures c <= |ts|
  {
    var k := ActiveIndex(ts);
    if k < 0 then |ts| else k
  }

  /** The ordering invariant. The fully completed list (and the empty one)
      satisfy it with no active task. */
  predicate Progression(ts: seq<Task>)
  {
    Shaped(ts, Cursor(ts))
  }

  /** The shape determines the cursor, so a shaped sequence is a progression. */
  lemma ShapedCursor(ts: seq<Task>, c: nat)
    requires Shaped(ts, c)
    ensures Cursor(ts) == c && Progression(ts)
  {
    if c < |ts| {
      assert ts[c].status == Active;
    }
  }

  /** The invariant spelled out: completed before the active task, pending
      after it, no second active task, all completed when none is active. */
  lemma ProgressionMeans(ts: seq<Task>)
    requires Progression(ts)
    ensures forall i, j :: 0 <= i < j < |ts| && ts[i].status == Active ==> ts[j].status == Pending
    ensures forall i, j :: 0 <= i < j < |ts| && ts[j].status == Active ==> ts[i].status == Completed
    ensures ActiveIndex(ts) == -1 ==> forall i :: 0 <= i < |ts| ==> ts[i].status == Completed
  {
  }

  /** `onNextStep`: the active task becomes completed and the next one, if
      any, becomes active. Without an active task nothing changes. */
  function Advance(ts: seq<Task>): (r: seq<Task>)
    ensures SameItems(ts, r)
    ensures var k := ActiveIndex(ts);
      forall i :: 0 <= i < |ts| && (k < 0 || (i != k && i != k + 1)) ==> r[i] == ts[i]
  {
    var k := ActiveIndex(ts);
    if k == -1 then ts
    else
      var done := ts[k := ts[k].(status := Completed)];
      if k + 1 < |done| then done[k + 1 := done[k + 1].(status := Active)] else done
  }

  /** The indices `Uncheck` leaves alone, given the active index `k`. */
  predicate UncheckKeeps(k: int, n: nat, i: nat)
  {
    if k > 0 then i != k && i != k - 1 else if k < 0 then i != n - 1 else true
  }

  /** `onUncheckTask`: an active task after the first goes back to pending and
      its predecessor becomes active; with no active task the last task
      becomes active again; otherwise nothing changes. */
  function Uncheck(ts: seq<Task>): (r: seq<Task>)
    ensures SameItems(ts, r)
    ensures var k := ActiveIndex(ts);
      forall i :: 0 <= i < |ts| && UncheckKeeps(k, |ts|, i) ==> r[i] == ts[i]
  {
    var k := ActiveIndex(ts);
    if k > 0 then
      var back := ts[k := ts[k].(status := Pending)];
      back[k - 1 := back[k - 1].(status := Active)]
    else if k == -1 && |ts| > 0 then
      ts[|ts| - 1 := ts[|ts| - 1].(status := Active)]
    else ts
  }

  /** `onPrevStep`: like `Uncheck` when an active task follows the first, and
      nothing otherwise, in particular when every task is completed. */
  function StepBack(ts: seq<Task>): (r: seq<Task>)
    ensures SameItems(ts, r)
    ensures ActiveIndex(ts) > 0 ==> r == Uncheck(ts)
    ensures ActiveIndex(ts) <= 0 ==> r == ts
  {
    if ActiveIndex(ts) > 0 then Uncheck(ts) else ts
  }

  /** Advancing moves the cursor one task forward, unless every task is
      already completed. */
  lemma AdvanceMovesCursor(ts: seq<Task>, c: nat)
    requires Shaped(ts, c)
    ensures Shaped(Advance(ts), if c < |ts| then c + 1 else c)
  {
    ShapedCursor(ts, c);
    var r := Advance(ts);
    var c' := if c < |ts| then c + 1 else c;
    forall i | 0 <= i < |r| ensures r[i].status == StatusAt(c', i) {
      if c < |ts| && (i == c || i == c + 1) {
      } else {
        assert r[i] == ts[i];
      }
    }
  }

  /** Unchecking moves the cursor one task back, unless it is at the start. */
  lemma UncheckMovesCursor(ts: seq<Task>, c: nat)
    requires Shaped(ts, c)
    ensures Shaped(Uncheck(ts), if c > 0 then c - 1 else c)
  {
    ShapedCursor(ts, c);
    var r := Uncheck(ts);
    var c' := if c > 0 then c - 1 else c;
    forall i | 0 <= i < |r| ensures r[i].status == StatusAt(c', i) {
      if c > 0 && (i == c || i == c - 1) {
      } else {
        assert r[i] == ts[i];
      }
    }
  }

  /** Stepping back moves the cursor one task back, unless it is at the start
      or every task is completed. */
  lemma StepBackMovesCursor(ts: seq<Task>, c: nat)
    requires Shaped(ts, c)
    ensures Shaped(StepBack(ts), if 0 < c < |ts| then c - 1 else c)
  {
    ShapedCursor(ts, c);
    if 0 < c < |ts| {
      UncheckMovesCursor(ts, c);
    }
  }

  /** Each of the three moves keeps the ordering invariant. */
  lemma MovesKeepProgression(ts: seq<Task>)
    requires Progression(ts)
    ensures Progression(Advance(ts))
    ensures Progression(Uncheck(ts))
    ensures Progression(StepBack(ts))
  {
    var c := Cursor(ts);
    AdvanceMovesCursor(ts, c);
    ShapedCursor(Advance(ts), if c < |ts| then c + 1 else c);
    UncheckMovesCursor(ts, c);
    ShapedCursor(Uncheck(ts), if c > 0 then c - 1 else c);
    StepBackMovesCursor(ts, c);
    ShapedCursor(StepBack(ts), if 0 < c < |ts| then c - 1 else c);
  }

  /** Unchecking right after advancing restores the list exactly, whenever a
      task was active. */
  lemma UncheckUndoesAdvance(ts: seq<Task>)
    requires Progression(ts) && ActiveIndex(ts) >= 0
    ensures Uncheck(Advance(ts)) == ts
  {
    var c := Cursor(ts);
    var a := Advance(ts);
    AdvanceMovesCursor(ts, c);
    UncheckMovesCursor(a, c + 1);
    var u := Uncheck(a);
    forall i | 0 <= i < |ts| ensures u[i] == ts[i] {
      assert u[i].status == StatusAt(c, i) == ts[i].status;
    }
  }

  /** `n` successive calls of `Advance`. */
  function AdvanceTimes(ts: seq<Task>, n: nat): (r: seq<Task>)
    ensures |r| == |ts|
  {
    if n == 0 then ts else Advance(AdvanceTimes(ts, n - 1))
  }

  /** Advancing `n` times moves the cursor `n` tasks forward, stopping at the
      end: on a fresh list of `n` tasks, `n` advances complete every task. */
  lemma {:induction false} AdvanceTimesMovesCursor(ts: seq<Task>, c: nat, n: nat)
    requires Shaped(ts, c)
    ensures Shaped(AdvanceTimes(ts, n), if c + n <= |ts| then c + n else |ts|)
    ensures SameItems(ts, AdvanceTimes(ts, n))
  {
    if n > 0 {
      AdvanceTimesMovesCursor(ts, c, n - 1);
      var m := if c + n - 1 <= |ts| then c + n - 1 else |ts|;
      AdvanceMovesCursor(AdvanceTimes(ts, n - 1), m);
    }
  }

  /** On a fresh list, advancing once per task completes every task, and
      one uncheck then brings back exactly the last task. */
  lemma FinishThenUncheck(ts: seq<Task>)
    requires Shaped(ts, 0) && |ts| > 0
    ensures forall i :: 0 <= i < |ts| ==> AdvanceTimes(ts, |ts|)[i].status == Completed
    ensures ActiveIndex(AdvanceTimes(ts, |ts|)) == -1
    ensures ActiveIndex(Uncheck(AdvanceTimes(ts, |ts|))) == |ts| - 1
  {
    AdvanceTimesMovesCursor(ts, 0, |ts|);
    var done := AdvanceTimes(ts, |ts|);
    ShapedCursor(done, |ts|);
    UncheckMovesCursor(done, |ts|);
    ShapedCursor(Uncheck(done), |ts| - 1);
  }

  /** The statuses of a task sequence, in order. */
  function Statuses(ts: seq<Task>): (r: seq<TaskStatus>)
    ensures |r| == |ts| && forall i :: 0 <= i < |ts| ==> r[i] == ts[i].status
  {
    seq(|ts|, i requires 0 <= i < |ts| => ts[i].status)
  }

  /** A spoken session over three tasks set by `update_tasks`: next,
      uncheck, next three times, uncheck. */
  lemma ThreeTaskWalkthrough(now: nat)
    ensures var t0 := Rebuild(["Wash dishes", "Take out trash", "Walk dog"], now);
      && Statuses(t0) == [Active, Pending, Pending]
      && Statuses(Advance(t0)) == [Completed, Active, Pending]
      && Uncheck(Advance(t0)) == t0
      && Statuses(AdvanceTimes(t0, 3)) == [Completed, Completed, Completed]
      && Statuses(Uncheck(AdvanceTimes(t0, 3))) == [Completed, Completed, Active]
  {
    var t0 := Rebuild(["Wash dishes", "Take out trash", "Walk dog"], now);
    assert |t0| == 3 && ActiveIndex(t0) == 0;
    ShapedCursor(t0, 0);
    StatusesOfShaped(t0, 0);
    AdvanceMovesCursor(t0, 0);
    StatusesOfShaped(Advance(t0), 1);
    UncheckUndoesAdvance(t0);
    AdvanceTimesMovesCursor(t0, 0, 3);
    StatusesOfShaped(AdvanceTimes(t0, 3), 3);
    UncheckMovesCursor(AdvanceTimes(t0, 3), 3);
    StatusesOfShaped(Uncheck(AdvanceTimes(t0, 3)), 2);
  }

  /** The statuses of a three-task sequence with `c` tasks completed. */
  lemma StatusesOfShaped(ts: seq<Task>, c: nat)
    requires Shaped(ts, c) && |ts| == 3
    ensures Statuses(ts) == [StatusAt(c, 0), StatusAt(c, 1), StatusAt(c, 2)]
  {
  }

  /** A fresh task sequence: one task per text in order, the first active
      and the rest pending, with the given ids and no details. */
  function StartTasks(texts: seq<string>, ids: seq<string>): (r: seq<Task>)
    requires |ids| == |texts|
    ensures Shaped(r, 0)
    ensures Texts(r) == texts
    ensures forall i :: 0 <= i < |r| ==> r[i].id == ids[i] && r[i].details == None
  {
    seq(|texts|, i requires 0 <= i < |texts| =>
      Task(ids[i], texts[i], if i == 0 then Active else Pending, None))
  }

  /** The ids `onTasksUpdate` assigns: `task-<now>-<idx>`. */
  function RebuildId(now: nat, idx: nat): string
  {
    "task-" + NatToString(now) + "-" + NatToString(idx)
  }

  /** The ids `handleFinishImport` assigns: `task-<idx>-<now>`. */
  function ImportId(idx: nat, now: nat): string
  {
    "task-" + NatToString(idx) + "-" + NatToString(now)
  }

  /** The ids of the import-mode voice snapshot: the index itself. */
  function SnapshotId(idx: nat): string
  {
    NatToString(idx)
  }

  lemma RebuildIdsDiffer(now: nat, i: nat, j: nat)
    requires i != j
    ensures RebuildId(now, i) != RebuildId(now, j)
  {
    var p := "task-" + NatToString(now) + "-";
    if RebuildId(now, i) == RebuildId(now, j) {
      assert RebuildId(now, i) == p + NatToString(i);
      assert RebuildId(now, j) == p + NatToString(j);
      assert NatToString(i) == RebuildId(now, i)[|p|..];
      assert NatToString(j) == RebuildId(now, j)[|p|..];
      NatToStringInjective(i, j);
    }
  }

  lemma ImportIdsDiffer(i: nat, j: nat, now: nat)
    requires i != j
    ensures ImportId(i, now) != ImportId(j, now)
  {
    var q := "-" + NatToString(now);
    if ImportId(i, now) == ImportId(j, now) {
      var x := ImportId(i, now);
      assert x == "task-" + NatToString(i) + q;
      assert ImportId(j, now) == "task-" + NatToString(j) + q;
      assert NatToString(i) == x[5..|x| - |q|];
      assert NatToString(j) == x[5..|x| - |q|];
      NatToStringInjective(i, j);
    }
  }

  /** `update_tasks` outside import mode: the current list's tasks become
      the given texts in order, the first active, ids `task-<now>-<idx>`.
      Earlier progress is discarded. */
  function Rebuild(texts: seq<string>, now: nat): (r: seq<Task>)
    ensures Progression(r) && DistinctIds(r)
    ensures Texts(r) == texts
    ensures texts != [] ==> ActiveIndex(r) == 0
    ensures texts == [] ==> r == []
    ensures forall i :: 0 <= i < |r| ==> r[i].details == None
  {
    var ids := seq(|texts|, i requires 0 <= i < |texts| => RebuildId(now, i));
    var r := StartTasks(texts, ids);
    ShapedCursor(r, 0);
    forall i, j | 0 <= i < j < |r| ensures r[i].id != r[j].id {
      RebuildIdsDiffer(now, i, j);
    }
    r
  }

  /** The elements of `s` that `keep` accepts, in order. */
  function Keep(s: seq<string>, keep: string -> bool): (r: seq<string>)
    ensures |r| <= |s|
    ensures forall x :: x in r <==> x in s && keep(x)
  {
    if s == [] then [] else (if keep(s[0]) then [s[0]] else []) + Keep(s[1..], keep)
  }

  /** `filter` distributes over concatenation: it keeps the order of the
      accepted elements and every repeat of them. */
  lemma {:induction false} KeepAppend(a: seq<string>, b: seq<string>, keep: string -> bool)
    ensures Keep(a + b, keep) == Keep(a, keep) + Keep(b, keep)
  {
    if a == [] {
      assert a + b == b;
    } else {
      assert (a + b)[0] == a[0] && (a + b)[1..] == a[1..] + b;
      KeepAppend(a[1..], b, keep);
    }
  }

  /** On one element `filter` gives that element or nothing. */
  lemma KeepOne(x: string, keep: string -> bool)
    ensures Keep([x], keep) == if keep(x) then [x] else []
  {
    assert [x][1..] == [];
  }

  /** The pieces of `text` between newlines that `keep` accepts: the text
      up to the first newline, if accepted, followed by those of the rest. */
  lemma KeptPiecesAfterNewline(line: string, rest: string, keep: string -> bool)
    requires NEWLINE !in line
    ensures Keep(Split(line + [NEWLINE] + rest, NEWLINE), keep)
         == (if keep(line) then [line] else []) + Keep(Split(rest, NEWLINE), keep)
  {
    SplitAfterSeparator(line, rest, NEWLINE);
    KeepAppend([line], Split(rest, NEWLINE), keep);
    KeepOne(line, keep);
  }

  /** A text without newline is one piece, kept or not. */
  lemma KeptPiecesOfLine(line: string, keep: string -> bool)
    requires NEWLINE !in line
    ensures Keep(Split(line, NEWLINE), keep) == if keep(line) then [line] else []
  {
    SplitNoSeparator(line, NEWLINE);
    KeepOne(line, keep);
  }

  /** `l.trim().length > 0`, as a function value for `filter`. */
  predicate NotBlank(l: string)
  {
    !Blank(l)
  }

  /** The lines `handleFinishImport` keeps: the pieces of the text between
      newlines that are not white space only, untrimmed and in order. */
  function ImportLines(text: string): (r: seq<string>)
    ensures forall l :: l in r <==> l in Split(text, NEWLINE) && !Blank(l)
    ensures forall k :: 0 <= k < |r| ==> r[k] != "" && NEWLINE !in r[k]
  {
    var r := Keep(Split(text, NEWLINE), NotBlank);
    forall k | 0 <= k < |r| ensures r[k] != "" && NEWLINE !in r[k] {
      assert r[k] in r;
    }
    r
  }

  /** Import reads the text line by line, in order: the first line (when not
      blank) becomes the first task text, and the rest follow. */
  lemma ImportLinesAfterNewline(line: string, rest: string)
    requires NEWLINE !in line
    ensures ImportLines(line + [NEWLINE] + rest) == (if Blank(line) then [] else [line]) + ImportLines(rest)
  {
    KeptPiecesAfterNewline(line, rest, NotBlank);
  }

  /** A single line imports as itself, or as nothing when it is blank. */
  lemma ImportLinesOfLine(line: string)
    requires NEWLINE !in line
    ensures ImportLines(line) == if Blank(line) then [] else [line]
  {
    KeptPiecesOfLine(line, NotBlank);
  }

  /** A pasted list with a repeated line and a blank line in between: the
      repeat stays, in its place, and only the blank line is dropped. */
  lemma ImportKeepsRepeats(a: string, c: string)
    requires NEWLINE !in a && NEWLINE !in c && !Blank(a) && !Blank(c)
    ensures ImportLines(a + [NEWLINE] + (" " + [NEWLINE] + (c + [NEWLINE] + a))) == [a, c, a]
  {
    var tail := c + [NEWLINE] + a;
    var mid := " " + [NEWLINE] + tail;
    ImportLinesOfLine(a);
    ImportLinesAfterNewline(c, a);
    assert ImportLines(tail) == [c, a];
    assert Blank(" ") && NEWLINE !in " ";
    ImportLinesAfterNewline(" ", tail);
    assert ImportLines(mid) == [c, a];
    ImportLinesAfterNewline(a, mid);
  }

  /** `l != ""`, the `filter(Boolean)` test, as a function value. */
  predicate NonEmpty(l: string)
  {
    l != ""
  }

  /** The texts of the import-mode voice snapshot: the non-empty pieces of
      the text between newlines, in order; white-space-only pieces stay. */
  function SnapshotLines(text: string): (r: seq<string>)
    ensures forall l :: l in r <==> l in Split(text, NEWLINE) && l != ""
    ensures forall k :: 0 <= k < |r| ==> r[k] != "" && NEWLINE !in r[k]
  {
    var r := Keep(Split(text, NEWLINE), NonEmpty);
    forall k | 0 <= k < |r| ensures r[k] != "" && NEWLINE !in r[k] {
      assert r[k] in r;
    }
    r
  }

  /** The snapshot also reads the text line by line, in order, dropping only
      empty lines. */
  lemma SnapshotLinesAfterNewline(line: string, rest: string)
    requires NEWLINE !in line
    ensures SnapshotLines(line + [NEWLINE] + rest) == (if line == "" then [] else [line]) + SnapshotLines(rest)
  {
    KeptPiecesAfterNewline(line, rest, NonEmpty);
  }

  /** A single line is its own snapshot, or nothing when it is empty. */
  lemma SnapshotLinesOfLine(line: string)
    requires NEWLINE !in line
    ensures SnapshotLines(line) == if line == "" then [] else [line]
  {
    KeptPiecesOfLine(line, NonEmpty);
  }

  /** The tasks of a freshly imported list. */
  function ImportedTasks(lines: seq<string>, now: nat): (r: seq<Task>)
    ensures Progression(r) && DistinctIds(r)
    ensures Texts(r) == lines
    ensures lines != [] ==> ActiveIndex(r) == 0
    ensures forall i :: 0 <= i < |r| ==> r[i].details == None
  {
    var ids := seq(|lines|, i requires 0 <= i < |lines| => ImportId(i, now));
    var r := StartTasks(lines, ids);
    ShapedCursor(r, 0);
    forall i, j | 0 <= i < j < |r| ensures r[i].id != r[j].id {
      ImportIdsDiffer(i, j, now);
    }
    r
  }

  /** The task snapshot sent to the voice agent while importing: the
      non-empty pieces of the import text (white-space-only pieces are kept),
      all pending, each with its index as id. */
  function SnapshotTasks(text: string): (r: seq<Task>)
    ensures Texts(r) == SnapshotLines(text)
    ensures forall i :: 0 <= i < |r| ==> r[i].status == Pending && r[i].id == SnapshotId(i) && r[i].details == None
    ensures DistinctIds(r)
  {
    var lines := SnapshotLines(text);
    var r := seq(|lines|, i requires 0 <= i < |lines| => Task(SnapshotId(i), lines[i], Pending, None));
    assert Texts(r) == lines;
    forall i, j | 0 <= i < j < |r| ensures r[i].id != r[j].id {
      NatToStringInjective(i, j);
    }
    r
  }
}
