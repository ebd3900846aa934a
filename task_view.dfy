/** How components/TaskView.tsx splits a list for display: the completed
    tasks above the active one, the active task itself, the pending tasks
    below, the "all completed" flag, and the windows actually shown (the
    last two completed, the first three pending). */
module TaskView {
  import opened Types
  import opened Checklist

  /** `tasks.filter((_, i) => keep(i))`: the elements whose index `keep`
      accepts, in order. */
  function FilterIndex(s: seq<Task>, keep: int -> bool): (r: seq<Task>)
    ensures |r| <= |s|
  {
    if s == [] then []
    else FilterIndex(s[..|s| - 1], keep) + (if keep(|s| - 1) then [s[|s| - 1]] else [])
  }

  /** Keeping the indices below `b` keeps the prefix of length `b` (none
      when `b` is not positive). */
  lemma {:induction false} FilterBelow(s: seq<Task>, keep: int -> bool, b: int)
    requires forall i :: keep(i) == (i < b)
    ensures FilterIndex(s, keep) == s[..if b <= 0 then 0 else if b < |s| then b else |s|]
  {
    if s != [] {
      FilterBelow(s[..|s| - 1], keep, b);
      assert s[..|s| - 1][..if b <= 0 then 0 else if b < |s| - 1 then b else |s| - 1]
          == s[..if b <= 0 then 0 else if b < |s| - 1 then b else |s| - 1];
      if b >= |s| {
        assert s[..|s| - 1] + [s[|s| - 1]] == s;
      }
    }
  }

  /** Keeping the indices above `b` (with `b >= -1`) keeps the suffix after
      position `b`. */
  lemma {:induction false} FilterAbove(s: seq<Task>, keep: int -> bool, b: int)
    requires b >= -1
    requires forall i :: keep(i) == (i > b)
    ensures FilterIndex(s, keep) == s[if b + 1 < |s| then b + 1 else |s|..]
  {
    if s != [] {
      var init := s[..|s| - 1];
      FilterAbove(init, keep, b);
      if b + 1 < |s| - 1 {
        assert init[b + 1..] + [s[|s| - 1]] == s[b + 1..];
      } else if b + 1 == |s| - 1 {
        assert init[|init|..] == [];
        assert s[b + 1..] == [s[|s| - 1]];
      }
    }
  }

  /** `completedTasks`: the tasks whose index is below the active index,
      which is the prefix before the active task, or nothing at all when no
      task is active. */
  function CompletedTasks(ts: seq<Task>): (r: seq<Task>)
    ensures var k := ActiveIndex(ts); r == ts[..if k < 0 then 0 else k]
  {
    var k := ActiveIndex(ts);
    var keep := i => i < k;
    FilterBelow(ts, keep, k);
    FilterIndex(ts, keep)
  }

  /** `pendingTasks`: the tasks whose index is above the active index, which
      is the suffix after the active task, or the whole list when no task is
      active. */
  function PendingTasks(ts: seq<Task>): (r: seq<Task>)
    ensures r == ts[ActiveIndex(ts) + 1..]
  {
    var k := ActiveIndex(ts);
    var keep := i => i > k;
    FilterAbove(ts, keep, k);
    FilterIndex(ts, keep)
  }

  /** `activeTask`. */
  function ActiveTask(ts: seq<Task>): (r: Option<Task>)
    ensures r.Some? <==> exists i :: 0 <= i < |ts| && ts[i].status == Active
    ensures r.Some? ==> r.value.status == Active && r.value == ts[ActiveIndex(ts)]
  {
    var k := ActiveIndex(ts);
    if k >= 0 then Some(ts[k]) else None
  }

  /** `allCompleted`. */
  predicate AllCompleted(ts: seq<Task>)
  {
    && ActiveIndex(ts) == -1
    && |ts| > 0
    && forall i :: 0 <= i < |ts| ==> ts[i].status == Completed
  }

  /** With an active task, the sections put back together give the list:
      completed before it, the task itself, pending after it. */
  lemma SectionsWithActive(ts: seq<Task>)
    requires ActiveIndex(ts) >= 0
    ensures var k := ActiveIndex(ts);
      && CompletedTasks(ts) == ts[..k]
      && PendingTasks(ts) == ts[k + 1..]
      && CompletedTasks(ts) + [ActiveTask(ts).value] + PendingTasks(ts) == ts
  {
    var k := ActiveIndex(ts);
    Reassemble(ts, k);
  }

  /** Cutting a sequence around one position and gluing it back together
      gives the sequence. */
  lemma Reassemble(ts: seq<Task>, k: nat)
    requires k < |ts|
    ensures ts[..k] + [ts[k]] + ts[k + 1..] == ts
  {
  }

  /** With no active task nothing is "completed" in the display and every
      task, completed or not, lands in the pending section. */
  lemma SectionsWithoutActive(ts: seq<Task>)
    requires ActiveIndex(ts) == -1
    ensures CompletedTasks(ts) == []
    ensures PendingTasks(ts) == ts
  {
  }

  /** Every task of a finished list lands in the pending section, under the
      "All Done" heading. */
  lemma AllCompletedShowsTasksAsPending(ts: seq<Task>)
    requires AllCompleted(ts)
    ensures PendingTasks(ts) == ts && |PendingTasks(ts)| > 0
    ensures forall i :: 0 <= i < |PendingTasks(ts)| ==> PendingTasks(ts)[i].status == Completed
  {
    SectionsWithoutActive(ts);
  }

  /** On a progression, "all completed" is exactly "non-empty with no active
      task". */
  lemma AllCompletedOnProgression(ts: seq<Task>)
    requires Progression(ts)
    ensures AllCompleted(ts) <==> |ts| > 0 && ActiveIndex(ts) == -1
  {
  }

  /** `Array.prototype.slice(start, end)`: negative positions count from the
      end, and positions are clamped to the array. */
  function Slice(s: seq<Task>, start: int, end: int): seq<Task>
  {
    var b := SlicePosition(start, |s|);
    var e := SlicePosition(end, |s|);
    if b < e then s[b..e] else []
  }

  function SlicePosition(x: int, n: nat): (p: nat)
    ensures p <= n
  {
    if x < 0 then (if n + x < 0 then 0 else n + x) else if x < n then x else n
  }

  /** `slice(-m)` keeps the last `min(m, n)` elements; `m` must be positive,
      since `slice(-0)` is `slice(0)` and keeps everything. */
  lemma SliceLast(s: seq<Task>, m: nat)
    requires m > 0
    ensures var r := Slice(s, 0 - m as int, |s|); |r| == (if |s| < m then |s| else m) && r == s[|s| - |r|..]
  {
  }

  /** `slice(0, m)` keeps the first `min(m, n)` elements. */
  lemma SliceFirst(s: seq<Task>, m: nat)
    ensures var r := Slice(s, 0, m); |r| == (if |s| < m then |s| else m) && r == s[..|r|]
  {
  }

  /** `completedTasks.slice(-2)`: at most the last two completed tasks. */
  function VisibleCompleted(ts: seq<Task>): (r: seq<Task>)
    ensures var c := CompletedTasks(ts);
      && |r| == (if |c| < 2 then |c| else 2)
      && r == c[|c| - |r|..]
  {
    var c := CompletedTasks(ts);
    SliceLast(c, 2);
    Slice(c, -2, |c|)
  }

  /** `pendingTasks.slice(0, 3)`: at most the first three pending tasks. */
  function VisiblePending(ts: seq<Task>): (r: seq<Task>)
    ensures var p := PendingTasks(ts);
      && |r| == (if |p| < 3 then |p| else 3)
      && r == p[..|r|]
  {
    var p := PendingTasks(ts);
    SliceFirst(p, 3);
    Slice(p, 0, 3)
  }

  /** What the middle of the card shows. */
  datatype Hero = ActiveHero(task: Task) | AllDone | NoTasksYet

  /** The hero task when one is active, else "All Done" when all are
      completed, else "No tasks yet". */
  function HeroOf(ts: seq<Task>): (h: Hero)
    ensures h.ActiveHero? <==> ActiveIndex(ts) >= 0
    ensures h.ActiveHero? ==> h.task == ts[ActiveIndex(ts)]
    ensures h.AllDone? <==> AllCompleted(ts)
    ensures h.NoTasksYet? <==> ActiveIndex(ts) == -1 && !AllCompleted(ts)
  {
    var a := ActiveTask(ts);
    if a.Some? then ActiveHero(a.value)
    else if AllCompleted(ts) then AllDone
    else NoTasksYet
  }

  /** On a progression the card says "No tasks yet" only for an empty list. */
  lemma NoTasksOnlyWhenEmpty(ts: seq<Task>)
    requires Progression(ts)
    ensures HeroOf(ts).NoTasksYet? <==> ts == []
  {
  }
}
