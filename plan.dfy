/** The reconnaissance plan: a double-ended queue of pending tasks (the front is served
    first) and the lists of running, completed, failed and skipped tasks. Tasks are
    objects; a task is found in a list by identity. */
module Plan {
  import opened Outcomes
  import opened Models
  import Seqs

  /** The tool names of a sequence of tasks, in order. */
  function TaskNames(ts: seq<Task>): (r: seq<string>)
    ensures |r| == |ts|
    ensures forall i :: 0 <= i < |ts| ==> r[i] == ts[i].name
  {
    if ts == [] then [] else TaskNames(ts[..|ts| - 1]) + [ts[|ts| - 1].name]
  }

  lemma {:induction false} TaskNamesConcat(x: seq<Task>, y: seq<Task>)
    ensures TaskNames(x + y) == TaskNames(x) + TaskNames(y)
  {
    assert |TaskNames(x + y)| == |TaskNames(x) + TaskNames(y)|;
    forall i | 0 <= i < |x + y|
      ensures TaskNames(x + y)[i] == (TaskNames(x) + TaskNames(y))[i]
    {
      if i < |x| {
        assert (x + y)[i] == x[i];
      } else {
        assert (x + y)[i] == y[i - |x|];
      }
    }
  }

  /** Pushing adds the task and nothing else. */
  lemma PushedContents<T>(pending: seq<T>, t: T, priority: bool)
    ensures multiset(Pushed(pending, t, priority)) == multiset(pending) + multiset{t}
  {
    if priority {
      assert [t] + pending == [t] + pending;
    }
  }

  /** Pushing a task pushes its name. */
  lemma TaskNamesPushed(pending: seq<Task>, t: Task, priority: bool)
    ensures TaskNames(Pushed(pending, t, priority)) == Pushed(TaskNames(pending), t.name, priority)
  {
    TaskNamesConcat(pending, [t]);
    TaskNamesConcat([t], pending);
  }

  /** The pending queue after `add_task(t, priority)`. */
  function Pushed<T>(pending: seq<T>, t: T, priority: bool): seq<T>
  {
    if priority then [t] + pending else pending + [t]
  }

  /** `get_next_task` on a queue: the front element and the rest, or nothing. */
  function Popped<T>(pending: seq<T>): (Option<T>, seq<T>)
  {
    if pending == [] then (None, pending) else (Some(pending[0]), pending[1..])
  }

  /** The running list after `mark_running`: the task is added at most once. */
  function Joined<T(==)>(running: seq<T>, t: T): seq<T>
  {
    if t in running then running else running + [t]
  }

  /** The running list after a task leaves it: its first occurrence is removed, if any. */
  function Left<T(==)>(running: seq<T>, t: T): seq<T>
  {
    if t in running then Seqs.RemoveFirst(running, t) else running
  }

  /** A priority task is served next; a normal one is served after everything already
      pending. */
  lemma PushPop<T>(pending: seq<T>, t: T)
    ensures Popped(Pushed(pending, t, true)) == (Some(t), pending)
    ensures Popped(Pushed(pending, t, false)).0 == Some(if pending == [] then t else pending[0])
    ensures pending != [] ==> Popped(Pushed(pending, t, false)).1 == Pushed(pending[1..], t, false)
  {
    assert ([t] + pending)[1..] == pending;
  }

  /** Popping takes exactly the front task out of the queue. */
  lemma PoppedRemovesFront<T>(pending: seq<T>)
    ensures Popped(pending).0.None? <==> pending == []
    ensures pending != [] ==> multiset(Popped(pending).1) + multiset{pending[0]} == multiset(pending)
  {
    if pending != [] {
      assert pending == [pending[0]] + pending[1..];
    }
  }

  /** Running a task and then finishing it leaves the running list as it was, when the
      task was not running before; otherwise the task's first entry goes. */
  lemma JoinThenLeave<T>(running: seq<T>, t: T)
    ensures Left(Joined(running, t), t) == Left(running, t)
    ensures t !in running ==> Left(Joined(running, t), t) == running
  {
    if t !in running {
      RemoveLast(running, t);
    }
  }

  lemma {:induction false} RemoveLast<T>(s: seq<T>, t: T)
    requires t !in s
    ensures Seqs.RemoveFirst(s + [t], t) == s
  {
    if s != [] {
      assert (s + [t])[1..] == s[1..] + [t];
      RemoveLast(s[1..], t);
      assert [s[0]] + s[1..] == s;
    }
  }

  class ReconPlan {
    var pending: seq<Task>
    var running: seq<Task>
    var completed: seq<Task>
    var failed: seq<Task>
    var skipped: seq<Task>

    /** A new plan holds no task. */
    constructor ()
      ensures pending == [] && running == [] && completed == [] && failed == [] && skipped == []
      ensures AllTasks() == []
    {
      pending := [];
      running := [];
      completed := [];
      failed := [];
      skipped := [];
    }

    /** `all_tasks`: pending, then running, completed, failed and skipped. */
    function AllTasks(): (r: seq<Task>)
      reads this
      ensures |r| == |pending| + |running| + |completed| + |failed| + |skipped|
      ensures multiset(r) == multiset(pending) + multiset(running) + multiset(completed) + multiset(failed) + multiset(skipped)
      ensures r[..|pending|] == pending
    {
      pending + running + completed + failed + skipped
    }

    /** `add_task(task, priority)`: to the front of the queue when `priority`, else to
        the back. */
    method AddTask(task: Task, priority: bool)
      modifies this
      ensures pending == Pushed(old(pending), task, priority)
      ensures running == old(running) && completed == old(completed) && failed == old(failed) && skipped == old(skipped)
      ensures multiset(AllTasks()) == multiset(old(AllTasks())) + multiset{task}
    {
      if priority {
        pending := [task] + pending;
      } else {
        pending := pending + [task];
      }
    }

    /** `get_next_task()`: removes and returns the front task, or returns nothing when
        the queue is empty. The task returned is in none of the lists until it is
        marked. */
    method GetNextTask() returns (r: Option<Task>)
      modifies this
      ensures (r, pending) == Popped(old(pending))
      ensures running == old(running) && completed == old(completed) && failed == old(failed) && skipped == old(skipped)
      ensures r.Some? ==> multiset(AllTasks()) + multiset{r.value} == multiset(old(AllTasks()))
      ensures r.None? ==> AllTasks() == old(AllTasks())
    {
      if pending != [] {
        r := Some(pending[0]);
        assert pending == [pending[0]] + pending[1..];
        pending := pending[1..];
      } else {
        r := None;
      }
    }

    /** `mark_running(task)`: the task is running since `now` and is listed once. */
    method MarkRunning(task: Task, now: int)
      modifies this, task
      ensures task.status == Running && task.startedAt == Some(now)
      ensures task.progress == old(task.progress) && task.completedAt == old(task.completedAt) && task.error == old(task.error)
      ensures running == Joined(old(running), task)
      ensures pending == old(pending) && completed == old(completed) && failed == old(failed) && skipped == old(skipped)
    {
      task.status := Running;
      task.startedAt := Some(now);
      if task !in running {
        running := running + [task];
      }
    }

    /** `mark_completed(task)`: completed at `now` with progress 100, out of the running
        list, appended to the completed list. */
    method MarkCompleted(task: Task, now: int)
      modifies this, task
      ensures task.status == Completed && task.completedAt == Some(now) && task.progress == 100
      ensures task.startedAt == old(task.startedAt) && task.error == old(task.error)
      ensures running == Left(old(running), task) && completed == old(completed) + [task]
      ensures pending == old(pending) && failed == old(failed) && skipped == old(skipped)
      ensures task in old(running) ==> multiset(AllTasks()) == multiset(old(AllTasks()))
    {
      task.status := Completed;
      task.completedAt := Some(now);
      task.progress := 100;
      LeaveKeepsMultiset(running, task);
      if task in running {
        running := Seqs.RemoveFirst(running, task);
      }
      completed := completed + [task];
    }

    /** `mark_failed(task, error)`: failed at `now` with `error`, out of the running
        list, appended to the failed list. */
    method MarkFailed(task: Task, error: string, now: int)
      modifies this, task
      ensures task.status == Failed && task.completedAt == Some(now) && task.error == Some(error)
      ensures task.startedAt == old(task.startedAt) && task.progress == old(task.progress)
      ensures running == Left(old(running), task) && failed == old(failed) + [task]
      ensures pending == old(pending) && completed == old(completed) && skipped == old(skipped)
      ensures task in old(running) ==> multiset(AllTasks()) == multiset(old(AllTasks()))
    {
      task.status := Failed;
      task.completedAt := Some(now);
      task.error := Some(error);
      LeaveKeepsMultiset(running, task);
      if task in running {
        running := Seqs.RemoveFirst(running, task);
      }
      failed := failed + [task];
    }

    /** `mark_skipped(task)`: skipped at `now`, out of the running list, appended to the
        skipped list. */
    method MarkSkipped(task: Task, now: int)
      modifies this, task
      ensures task.status == Skipped && task.completedAt == Some(now)
      ensures task.startedAt == old(task.startedAt) && task.progress == old(task.progress) && task.error == old(task.error)
      ensures running == Left(old(running), task) && skipped == old(skipped) + [task]
      ensures pending == old(pending) && completed == old(completed) && failed == old(failed)
      ensures task in old(running) ==> multiset(AllTasks()) == multiset(old(AllTasks()))
    {
      task.status := Skipped;
      task.completedAt := Some(now);
      LeaveKeepsMultiset(running, task);
      if task in running {
        running := Seqs.RemoveFirst(running, task);
      }
      skipped := skipped + [task];
    }
  }

  /** Leaving the running list takes one copy of a running task out of it. */
  lemma LeaveKeepsMultiset<T>(running: seq<T>, t: T)
    ensures t in running ==> multiset(Left(running, t)) + multiset{t} == multiset(running)
    ensures t !in running ==> Left(running, t) == running
  {
  }
}
