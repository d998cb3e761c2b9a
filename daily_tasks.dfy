/**
 * components/game/daily-tasks.tsx: the daily task list split into easy and hard tasks, the
 * progress bar's width and when a task's reward can be claimed.
 *
 * The daily task record comes from the page module, which is not part of this model; the fields used
 * here are the ones the component reads. Division is exact (`real`); the two non-finite results of
 * `progress / 0` are kept apart as values of their own.
 */
module DailyTasks {

  datatype DailyTask = DailyTask(
    id: string,
    kind: string,
    description: string,
    progress: int,
    target: int,
    reward: int,
    completed: bool)

  function FilterKind(tasks: seq<DailyTask>, kind: string): seq<DailyTask>
  {
    if tasks == [] then []
    else (if tasks[0].kind == kind then [tasks[0]] else []) + FilterKind(tasks[1..], kind)
  }

  /** `tasks.filter((task) => task.type === "easy")` */
  function EasyTasks(tasks: seq<DailyTask>): seq<DailyTask>
  {
    FilterKind(tasks, "easy")
  }

  /** `tasks.filter((task) => task.type === "hard")` */
  function HardTasks(tasks: seq<DailyTask>): seq<DailyTask>
  {
    FilterKind(tasks, "hard")
  }

  /** Whether `sub` is `tasks` with some entries left out, the rest in their order. */
  predicate Subsequence(sub: seq<DailyTask>, tasks: seq<DailyTask>)
    decreases |tasks|
  {
    if sub == [] then true
    else if tasks == [] then false
    else if sub[0] == tasks[0] then Subsequence(sub[1..], tasks[1..])
    else Subsequence(sub, tasks[1..])
  }

  /** A filter by type keeps exactly the entries of that type, in their order. */
  lemma {:induction false} FilterKindExact(tasks: seq<DailyTask>, kind: string)
    ensures forall t :: t in FilterKind(tasks, kind) <==> t in tasks && t.kind == kind
    ensures Subsequence(FilterKind(tasks, kind), tasks)
  {
    if tasks != [] {
      FilterKindExact(tasks[1..], kind);
      var rest := FilterKind(tasks[1..], kind);
      if tasks[0].kind == kind {
        assert FilterKind(tasks, kind) == [tasks[0]] + rest;
        assert ([tasks[0]] + rest)[1..] == rest;
      } else {
        assert FilterKind(tasks, kind) == rest;
        SubsequenceSkip(rest, tasks);
      }
    }
  }

  /** Skipping one more entry of the longer list keeps a subsequence. */
  lemma SubsequenceSkip(sub: seq<DailyTask>, tasks: seq<DailyTask>)
    requires tasks != [] && Subsequence(sub, tasks[1..])
    ensures Subsequence(sub, tasks)
  {
    if sub != [] && sub[0] == tasks[0] {
      SubsequenceDrop(sub, tasks[1..]);
    }
  }

  /** Dropping the first entry of a subsequence gives a subsequence. */
  lemma {:induction false} SubsequenceDrop(sub: seq<DailyTask>, tasks: seq<DailyTask>)
    requires sub != [] && Subsequence(sub, tasks)
    ensures Subsequence(sub[1..], tasks)
    decreases |tasks|
  {
    var u := sub[1..];
    if u != [] && tasks != [] && u[0] == tasks[0] {
      if sub[0] == tasks[0] {
        SubsequenceDrop(u, tasks[1..]);
      } else {
        SubsequenceDrop(sub, tasks[1..]);
        SubsequenceDrop(u, tasks[1..]);
      }
    } else if u != [] && tasks != [] && sub[0] != tasks[0] {
      SubsequenceDrop(sub, tasks[1..]);
    }
  }

  /** Easy and hard tasks together are at most all of them; a task of any other type is in
      neither list. */
  lemma EasyHardDisjoint(tasks: seq<DailyTask>)
    ensures |EasyTasks(tasks)| + |HardTasks(tasks)| <= |tasks|
    ensures forall t :: t in tasks && t.kind != "easy" && t.kind != "hard" ==> t !in EasyTasks(tasks) && t !in HardTasks(tasks)
  {
    FilterKindExact(tasks, "easy");
    FilterKindExact(tasks, "hard");
    SplitCount(tasks);
  }

  lemma {:induction false} SplitCount(tasks: seq<DailyTask>)
    ensures |FilterKind(tasks, "easy")| + |FilterKind(tasks, "hard")| <= |tasks|
  {
    if tasks != [] {
      SplitCount(tasks[1..]);
    }
  }

  /** A JavaScript number as the percent computation can produce it. */
  datatype Number = Finite(value: real) | NaN | NegativeInfinity

  /** `Math.min((progress / target) * 100, 100)` */
  function ProgressPercent(t: DailyTask): (r: Number)
  {
    if t.target != 0 then
      var p := (t.progress as real / t.target as real) * 100.0;
      Finite(if p < 100.0 then p else 100.0)
    else if t.progress > 0 then Finite(100.0)     // Math.min(Infinity, 100)
    else if t.progress == 0 then NaN              // 0 / 0
    else NegativeInfinity
  }

  /** The bar never goes past 100. For a positive target and no negative progress it lies in
      [0, 100] and is full exactly when the progress has reached the target. */
  lemma ProgressPercentBounds(t: DailyTask)
    ensures ProgressPercent(t).Finite? ==> ProgressPercent(t).value <= 100.0
    ensures t.target > 0 && t.progress >= 0 ==>
      && ProgressPercent(t).Finite?
      && 0.0 <= ProgressPercent(t).value
      && (ProgressPercent(t).value == 100.0 <==> t.progress >= t.target)
  {
    if t.target > 0 && t.progress >= 0 {
      var q := t.progress as real / t.target as real;
      assert q * t.target as real == t.progress as real;
      if t.progress < t.target {
        assert q < 1.0;
      } else {
        assert q >= 1.0;
      }
    }
  }

  /** `canClaim(task)` */
  predicate CanClaim(t: DailyTask)
  {
    t.progress >= t.target && !t.completed
  }

  /** What the row shows after the bar. */
  datatype RowEnd = CheckMark | ClaimButton | Nothing

  function RowEndOf(t: DailyTask): (r: RowEnd)
  {
    if t.completed then CheckMark else if CanClaim(t) then ClaimButton else Nothing
  }

  /** A completed task shows the check mark and never the claim button; the button shows exactly
      when the reward can be claimed, and then the bar is full. */
  lemma ClaimButtonShown(t: DailyTask)
    ensures t.completed ==> RowEndOf(t) == CheckMark
    ensures RowEndOf(t) == ClaimButton <==> CanClaim(t)
    ensures RowEndOf(t) == ClaimButton && t.target > 0 && t.progress >= 0 ==> ProgressPercent(t) == Finite(100.0)
  {
    ProgressPercentBounds(t);
  }
}
