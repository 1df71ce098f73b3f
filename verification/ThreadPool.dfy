// BS::thread_pool<> as a state machine. Every critical section of tasks_mutex is one step; so is
// every notification sent outside the lock, every (possibly spurious) wake-up, and the end of a task.
// Any number of threads may submit and wait.
module ThreadPool {
  import opened LoopBlocks

  // A worker is Arriving while it runs its init function and again after each task, until it holds
  // the lock; Sleeping and Woken are the two sides of task_available_cv.
  datatype Worker = Arriving | Sleeping | Woken | Executing(task: Task)

  // A thread that may call wait(); Blocked and Notified are the two sides of tasks_done_cv.
  datatype Waiter = Idle | Blocked | Notified

  // owedOne and owedAll count the notifications that detach_task and detach_bulk still have to send
  // after releasing the lock. The last three fields only record history.
  datatype Pool = Pool(tasks: seq<Task>, running: int, waiting: bool, workers: seq<Worker>, waiters: seq<Waiter>,
                       owedOne: nat, owedAll: nat,
                       submitted: seq<Task>, started: seq<Task>, finished: seq<Task>)

  datatype Step =
    | Submit(task: Task)
    | SubmitBulk(batch: seq<Task>)
    | NotifyOne(wakes: nat)
    | NotifyAll
    | Lock(worker: nat)
    | Recheck(worker: nat)
    | Spurious(worker: nat)
    | Finish(worker: nat)
    | WaitBegin(waiter: nat)
    | WaitWake(waiter: nat)
    | SpuriousWait(waiter: nat)

  function Initial(workers: nat, waiters: nat): Pool
  {
    Pool([], workers, false, seq(workers, i => Arriving), seq(waiters, i => Idle), 0, 0, [], [], [])
  }

  // wait()'s predicate.
  predicate Done(s: Pool) { s.running == 0 && s.tasks == [] }

  predicate Awake(w: Worker) { !w.Sleeping? }

  ghost predicate SomeSleeping(ws: seq<Worker>) { exists i :: 0 <= i < |ws| && ws[i].Sleeping? }

  ghost predicate Enabled(s: Pool, step: Step)
  {
    match step
    case Submit(_) => true
    case SubmitBulk(batch) => batch != []
    // notify_one wakes some sleeping worker, and none only when there is none.
    case NotifyOne(w) =>
      s.owedOne > 0 && (if SomeSleeping(s.workers) then w < |s.workers| && s.workers[w].Sleeping? else w == 0)
    case NotifyAll => s.owedAll > 0
    case Lock(i) => i < |s.workers| && s.workers[i].Arriving?
    case Recheck(i) => i < |s.workers| && s.workers[i].Woken?
    case Spurious(i) => i < |s.workers| && s.workers[i].Sleeping?
    case Finish(i) => i < |s.workers| && s.workers[i].Executing?
    case WaitBegin(j) => j < |s.waiters| && s.waiters[j].Idle?
    case WaitWake(j) => j < |s.waiters| && s.waiters[j].Notified?
    case SpuriousWait(j) => j < |s.waiters| && s.waiters[j].Blocked?
  }

  function WakeAll(ws: seq<Worker>): (r: seq<Worker>)
    ensures |r| == |ws|
  {
    seq(|ws|, i requires 0 <= i < |ws| => if ws[i].Sleeping? then Woken else ws[i])
  }

  function WakeWaiters(ws: seq<Waiter>): (r: seq<Waiter>)
    ensures |r| == |ws|
  {
    seq(|ws|, i requires 0 <= i < |ws| => if ws[i].Blocked? then Notified else ws[i])
  }

  // The wait on task_available_cv and what follows it: sleep while the queue is empty, otherwise pop.
  function TakeOrSleep(s: Pool, i: nat): Pool
    requires i < |s.workers|
  {
    if s.tasks == [] then s.(workers := s.workers[i := Sleeping])
    else
      var task := s.tasks[0];
      s.(tasks := s.tasks[1..], running := s.running + 1, workers := s.workers[i := Executing(task)],
         started := s.started + [task])
  }

  // The wait on tasks_done_cv: return when the predicate holds, clearing `waiting`; otherwise block.
  function ReturnOrBlock(s: Pool, j: nat): Pool
    requires j < |s.waiters|
  {
    if Done(s) then s.(waiting := false, waiters := s.waiters[j := Idle])
    else s.(waiters := s.waiters[j := Blocked])
  }

  ghost function Next(s: Pool, step: Step): Pool
    requires Enabled(s, step)
  {
    match step
    case Submit(task) =>
      s.(tasks := s.tasks + [task], owedOne := s.owedOne + 1, submitted := s.submitted + [task])
    case SubmitBulk(batch) =>
      s.(tasks := s.tasks + batch, owedAll := s.owedAll + (if s.tasks == [] then 1 else 0),
         submitted := s.submitted + batch)
    case NotifyOne(w) =>
      s.(owedOne := s.owedOne - 1,
         workers := if SomeSleeping(s.workers) then s.workers[w := Woken] else s.workers)
    case NotifyAll => s.(owedAll := s.owedAll - 1, workers := WakeAll(s.workers))
    case Lock(i) =>
      var t := s.(running := s.running - 1);
      TakeOrSleep(if t.waiting && Done(t) then t.(waiters := WakeWaiters(t.waiters)) else t, i)
    case Recheck(i) => TakeOrSleep(s, i)
    case Spurious(i) => s.(workers := s.workers[i := Woken])
    case Finish(i) =>
      s.(workers := s.workers[i := Arriving], finished := s.finished + [s.workers[i].task])
    case WaitBegin(j) => ReturnOrBlock(s.(waiting := true), j)
    case WaitWake(j) => ReturnOrBlock(s, j)
    case SpuriousWait(j) => s.(waiters := s.waiters[j := Notified])
  }

  ghost predicate Moves(s: Pool, step: Step, r: Pool) { Enabled(s, step) && r == Next(s, step) }

  // `run` lists the states that a schedule passes through.
  ghost predicate IsRun(run: seq<Pool>, steps: seq<Step>)
  {
    |run| == |steps| + 1 && forall k :: 0 <= k < |steps| ==> Moves(run[k], steps[k], run[k + 1])
  }

  // ----- sums over the workers -----

  function Sum(f: Worker -> nat, ws: seq<Worker>): nat
  {
    if ws == [] then 0 else f(ws[0]) + Sum(f, ws[1..])
  }

  lemma {:induction false} SumUpdate(f: Worker -> nat, ws: seq<Worker>, i: nat, w: Worker)
    requires i < |ws|
    ensures Sum(f, ws[i := w]) == Sum(f, ws) - f(ws[i]) + f(w)
    ensures f(ws[i]) <= Sum(f, ws)
  {
    if i == 0 {
      assert ws[0 := w][1..] == ws[1..];
    } else {
      assert ws[i := w][1..] == ws[1..][i - 1 := w];
      SumUpdate(f, ws[1..], i - 1, w);
    }
  }

  lemma {:induction false} SumZero(f: Worker -> nat, ws: seq<Worker>)
    ensures Sum(f, ws) == 0 <==> forall i :: 0 <= i < |ws| ==> f(ws[i]) == 0
  {
    if ws != [] {
      SumZero(f, ws[1..]);
      assert forall i :: 1 <= i < |ws| ==> ws[i] == ws[1..][i - 1];
    }
  }

  // Waking every sleeper adds at most `gain` per worker, and nothing when sleepers weigh as the woken.
  lemma {:induction false} SumWakeAll(f: Worker -> nat, ws: seq<Worker>, gain: nat)
    requires f(Woken) <= f(Sleeping) + gain
    requires f(Sleeping) <= f(Woken)
    ensures Sum(f, ws) <= Sum(f, WakeAll(ws)) <= Sum(f, ws) + gain * |ws|
  {
    if ws != [] {
      assert WakeAll(ws)[1..] == WakeAll(ws[1..]);
      SumWakeAll(f, ws[1..], gain);
      assert gain * |ws| == gain * |ws[1..]| + gain;
    }
  }

  function BusyOf(w: Worker): nat { if w.Arriving? || w.Executing? then 1 else 0 }

  function Busy(ws: seq<Worker>): nat { Sum(BusyOf, ws) }

  function Holds(t: Task): Worker -> nat { w => if w == Executing(t) then 1 else 0 }

  // How many workers have task `t` in their hands.
  function Held(ws: seq<Worker>, t: Task): nat { Sum(Holds(t), ws) }

  function Times(ts: seq<Task>, t: Task): nat { multiset(ts)[t] }

  lemma {:induction false} NobodyBusyHoldsNothing(ws: seq<Worker>, t: Task)
    requires Busy(ws) == 0
    ensures Held(ws, t) == 0
  {
    if ws != [] {
      NobodyBusyHoldsNothing(ws[1..], t);
    }
  }

  // ----- the invariant -----

  ghost predicate SomeAwake(ws: seq<Worker>) { exists i :: 0 <= i < |ws| && Awake(ws[i]) }

  // Every started task is finished or in a worker's hands, as often as it was started.
  ghost predicate Accounted(s: Pool)
  {
    forall t: Task :: Times(s.started, t) == Times(s.finished, t) + Held(s.workers, t)
  }

  ghost predicate Inv(s: Pool)
  {
    && s.workers != []
    && s.running == Busy(s.workers)
    && s.submitted == s.started + s.tasks
    && Accounted(s)
    && (s.tasks != [] ==> SomeAwake(s.workers) || s.owedOne > 0 || s.owedAll > 0)
  }

  // With at most one waiter: `waiting` is up exactly while it is inside wait(), and while it is
  // blocked there still is something to wait for.
  ghost predicate WaiterInv(s: Pool)
  {
    && |s.waiters| <= 1
    && (s.waiters == [] ==> !s.waiting)
    && (s.waiters != [] ==> (s.waiting <==> !s.waiters[0].Idle?) && (s.waiters[0].Blocked? ==> !Done(s)))
  }

  lemma {:induction false} AllArrivingIsBusy(ws: seq<Worker>)
    requires forall i :: 0 <= i < |ws| ==> ws[i].Arriving?
    ensures Busy(ws) == |ws| && forall t :: Held(ws, t) == 0
  {
    if ws != [] {
      AllArrivingIsBusy(ws[1..]);
      assert forall t :: Held(ws, t) == Holds(t)(ws[0]) + Held(ws[1..], t);
    }
  }

  lemma InitialInv(n: nat, k: nat)
    requires n > 0
    ensures Inv(Initial(n, k))
    ensures k <= 1 ==> WaiterInv(Initial(n, k))
  {
    AllArrivingIsBusy(Initial(n, k).workers);
  }

  lemma TakeOrSleepKeepsInv(s: Pool, i: nat)
    requires i < |s.workers| && (s.workers[i].Woken? || s.workers[i].Arriving?)
    requires s.running == Busy(s.workers) - BusyOf(s.workers[i])
    requires s.submitted == s.started + s.tasks
    requires Accounted(s)
    ensures Inv(TakeOrSleep(s, i))
  {
    var r := TakeOrSleep(s, i);
    SumUpdate(BusyOf, s.workers, i, r.workers[i]);
    forall t ensures Times(r.started, t) == Times(r.finished, t) + Held(r.workers, t) {
      SumUpdate(Holds(t), s.workers, i, r.workers[i]);
    }
    if s.tasks != [] {
      assert Awake(r.workers[i]);
      assert s.started + s.tasks == (s.started + [s.tasks[0]]) + s.tasks[1..];
    }
  }

  lemma StepKeepsInv(s: Pool, step: Step, r: Pool)
    requires Inv(s) && Moves(s, step, r)
    ensures Inv(r) && |r.workers| == |s.workers| && |r.waiters| == |s.waiters|
  {
    StepKeepsSizes(s, step, r);
    hide Inv, TakeOrSleep;
    match step
    case Submit(task) => SubmitKeepsInv(s, [task], r);
    case SubmitBulk(batch) => SubmitKeepsInv(s, batch, r);
    case NotifyOne(w) =>
      if SomeSleeping(s.workers) { WakeKeepsInv(s, w, r); } else { }
    case NotifyAll => WakeAllKeepsInv(s, r);
    case Lock(i) => LockKeepsInv(s, i);
    case Recheck(i) => RecheckKeepsInv(s, i);
    case Spurious(i) => WakeKeepsInv(s, i, r);
    case Finish(i) => FinishKeepsInv(s, i);
    case WaitBegin(j) => WaitersDoNotMatter(s, r);
    case WaitWake(j) => WaitersDoNotMatter(s, r);
    case SpuriousWait(j) => WaitersDoNotMatter(s, r);
  }

  lemma StepKeepsSizes(s: Pool, step: Step, r: Pool)
    requires Moves(s, step, r)
    ensures |r.workers| == |s.workers| && |r.waiters| == |s.waiters|
  {
  }

  // An addition to the queue: some notification is owed, or the queue already had takers.
  lemma SubmitKeepsInv(s: Pool, batch: seq<Task>, r: Pool)
    requires Inv(s)
    requires r == s.(tasks := s.tasks + batch, submitted := s.submitted + batch,
             owedOne := r.owedOne, owedAll := r.owedAll)
    requires r.owedOne >= s.owedOne && r.owedAll >= s.owedAll && (s.tasks == [] ==> r.owedOne > 0 || r.owedAll > 0)
    ensures Inv(r)
  {
    assert s.submitted + batch == s.started + (s.tasks + batch);
    assert Accounted(r);
  }

  lemma WakeKeepsInv(s: Pool, w: nat, r: Pool)
    requires Inv(s) && w < |s.workers| && s.workers[w].Sleeping?
    requires r == s.(workers := s.workers[w := Woken], owedOne := r.owedOne)
    ensures Inv(r)
  {
    SumUpdate(BusyOf, s.workers, w, Woken);
    forall t { SumUpdate(Holds(t), s.workers, w, Woken); }
    assert Accounted(r);
    assert Awake(r.workers[w]);
  }

  lemma WakeAllKeepsInv(s: Pool, r: Pool)
    requires Inv(s) && r == s.(workers := WakeAll(s.workers), owedAll := r.owedAll)
    ensures Inv(r)
  {
    SumWakeAll(BusyOf, s.workers, 0);
    forall t { SumWakeAll(Holds(t), s.workers, 0); }
    assert Accounted(r);
    assert Awake(r.workers[0]);
  }

  lemma LockKeepsInv(s: Pool, i: nat)
    requires Inv(s) && Enabled(s, Lock(i))
    ensures Inv(Next(s, Lock(i)))
  {
    var t := s.(running := s.running - 1);
    TakeOrSleepKeepsInv(if t.waiting && Done(t) then t.(waiters := WakeWaiters(t.waiters)) else t, i);
  }

  lemma RecheckKeepsInv(s: Pool, i: nat)
    requires Inv(s) && Enabled(s, Recheck(i))
    ensures Inv(Next(s, Recheck(i)))
  {
    TakeOrSleepKeepsInv(s, i);
  }

  lemma WaitersDoNotMatter(s: Pool, r: Pool)
    requires Inv(s) && r == s.(waiting := r.waiting, waiters := r.waiters)
    ensures Inv(r)
  {
    assert Accounted(r);
  }

  lemma FinishKeepsInv(s: Pool, i: nat)
    requires Inv(s) && i < |s.workers| && s.workers[i].Executing?
    ensures Inv(Next(s, Finish(i)))
  {
    var task := s.workers[i].task;
    var r := Next(s, Finish(i));
    SumUpdate(BusyOf, s.workers, i, Arriving);
    forall t ensures Times(r.started, t) == Times(r.finished, t) + Held(r.workers, t) {
      SumUpdate(Holds(t), s.workers, i, Arriving);
    }
    assert Awake(r.workers[i]);
  }

  // tasks_running can only reach zero inside a worker's critical section, where the waiter is notified.
  lemma StepKeepsWaiterInv(s: Pool, step: Step, r: Pool)
    requires Inv(s) && WaiterInv(s) && Moves(s, step, r)
    ensures WaiterInv(r)
  {
    match step
    case SubmitBulk(batch) => assert |r.tasks| > 0;
    case Lock(i) => SumUpdate(BusyOf, s.workers, i, Sleeping);
    case _ =>
  }

  // Safety over every run, whatever the scheduler does: running counts the busy workers, tasks start
  // in submission order, each exactly once, and each started task is finished or in one worker's hands.
  lemma {:induction false} EveryRunIsSafe(run: seq<Pool>, steps: seq<Step>, k: nat)
    requires IsRun(run, steps) && Inv(run[0]) && k < |run|
    ensures Inv(run[k]) && |run[k].workers| == |run[0].workers| && |run[k].waiters| == |run[0].waiters|
    ensures WaiterInv(run[0]) ==> WaiterInv(run[k])
  {
    if k > 0 {
      EveryRunIsSafe(run, steps, k - 1);
      assert Moves(run[k - 1], steps[k - 1], run[k - 1 + 1]);
      StepKeepsInv(run[k - 1], steps[k - 1], run[k]);
      if WaiterInv(run[0]) {
        StepKeepsWaiterInv(run[k - 1], steps[k - 1], run[k]);
      }
    }
  }
}
