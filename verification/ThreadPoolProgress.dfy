// What every schedule of the thread pool achieves: wait() returns only when all submitted work has
// run, detach_loop followed by wait() calls the body once per index, and nothing gets stuck, as long
// as at most one thread waits at a time.
module ThreadPoolProgress {
  import opened LoopBlocks
  import opened ThreadPool

  // ----- what wait() and detach_loop() promise -----

  // The tasks that a step puts in the queue.
  function Batch(step: Step): seq<Task>
  {
    match step
    case Submit(task) => [task]
    case SubmitBulk(batch) => batch
    case _ => []
  }

  function SubmittedBy(steps: seq<Step>): seq<Task>
  {
    if steps == [] then [] else SubmittedBy(steps[..|steps| - 1]) + Batch(steps[|steps| - 1])
  }

  lemma StepSubmits(s: Pool, step: Step, r: Pool)
    requires Moves(s, step, r)
    ensures r.submitted == s.submitted + Batch(step)
  {
  }

  lemma {:induction false} RunSubmits(run: seq<Pool>, steps: seq<Step>, k: nat)
    requires IsRun(run, steps) && k < |run|
    ensures run[k].submitted == run[0].submitted + SubmittedBy(steps[..k])
  {
    if k > 0 {
      RunSubmits(run, steps, k - 1);
      assert Moves(run[k - 1], steps[k - 1], run[k - 1 + 1]);
      StepSubmits(run[k - 1], steps[k - 1], run[k]);
      assert steps[..k][..k - 1] == steps[..k - 1];
    }
  }

  // When nothing is queued and nothing runs, exactly the submitted tasks have finished.
  lemma DoneMeansAllFinished(s: Pool)
    requires Inv(s) && Done(s)
    ensures multiset(s.finished) == multiset(s.submitted)
  {
    assert s.submitted == s.started;
    forall t: Task ensures Times(s.started, t) == Times(s.finished, t) {
      NobodyBusyHoldsNothing(s.workers, t);
    }
    assert forall t :: multiset(s.started)[t] == Times(s.started, t) && multiset(s.finished)[t] == Times(s.finished, t);
  }

  predicate EntersOrWakes(step: Step) { step.WaitBegin? || step.WaitWake? }

  lemma RunCovers(run: seq<Pool>, steps: seq<Step>, n: nat, k: nat)
    requires IsRun(run, steps)
    ensures |run| == |steps| + 1 && steps[..|steps|] == steps && Initial(n, k).submitted == []
  {
    hide Moves;
  }

  lemma RunFinishedAll(run: seq<Pool>, steps: seq<Step>, n: nat, k: nat)
    requires IsRun(run, steps) && n > 0 && run[0] == Initial(n, k) && Done(run[|steps|])
    ensures multiset(run[|steps|].finished) == multiset(SubmittedBy(steps))
  {
    hide *;
    RunCovers(run, steps, n, k);
    InitialInv(n, k);
    EveryRunIsSafe(run, steps, |steps|);
    DoneMeansAllFinished(run[|steps|]);
    RunSubmits(run, steps, |steps|);
    assert [] + SubmittedBy(steps) == SubmittedBy(steps);
  }

  // A call to wait() returns in the step that leaves its thread idle. In any run, at that moment every
  // task submitted so far has finished, each as many times as it was submitted.
  lemma WaitReturnsOnlyWhenAllFinished(run: seq<Pool>, steps: seq<Step>, n: nat, k: nat)
    requires IsRun(run, steps) && n > 0 && run[0] == Initial(n, k)
    requires steps != [] && EntersOrWakes(steps[|steps| - 1])
    requires run[|steps|].waiters[steps[|steps| - 1].waiter].Idle?
    ensures multiset(run[|steps|].finished) == multiset(SubmittedBy(steps))
  {
    var last := |steps| - 1;
    assert Moves(run[last], steps[last], run[last + 1]);
    RunFinishedAll(run, steps, n, k);
  }

  lemma {:induction false} OtherBatchesDoNotCall(steps: seq<Step>, at: nat, tag: nat, i: int)
    requires at < |steps|
    requires forall q :: 0 <= q < |steps| && q != at ==> Calls(Batch(steps[q]), tag, i) == 0
    ensures Calls(SubmittedBy(steps), tag, i) == Calls(Batch(steps[at]), tag, i)
  {
    var last := |steps| - 1;
    assert SubmittedBy(steps) == SubmittedBy(steps[..last]) + Batch(steps[last]);
    hide SubmittedBy, Calls, Batch;
    CallsConcat(SubmittedBy(steps[..last]), Batch(steps[last]), tag, i);
    if at < last {
      OtherBatchesDoNotCall(steps[..last], at, tag, i);
    } else {
      NoBatchCalls(steps[..last], tag, i);
    }
  }

  lemma {:induction false} NoBatchCalls(steps: seq<Step>, tag: nat, i: int)
    requires forall q :: 0 <= q < |steps| ==> Calls(Batch(steps[q]), tag, i) == 0
    ensures Calls(SubmittedBy(steps), tag, i) == 0
  {
    if steps != [] {
      var last := |steps| - 1;
      CallsConcat(SubmittedBy(steps[..last]), Batch(steps[last]), tag, i);
      NoBatchCalls(steps[..last], tag, i);
    }
  }

  // In any run in which detach_loop(first, last) submits its blocks and wait() later returns, the
  // loop body has been called exactly once for every index of [first, last), and for no other index,
  // whatever else was submitted and however the workers interleaved.
  lemma DetachLoopThenWait(run: seq<Pool>, steps: seq<Step>, n: nat, k: nat, at: nat,
                           tag: nat, first: int, last: int, wanted: nat, i: int)
    requires IsRun(run, steps) && n > 0 && run[0] == Initial(n, k)
    requires at < |steps| && steps[at] == SubmitBulk(LoopTasks(tag, first, last, wanted, n))
    requires forall q :: 0 <= q < |steps| && q != at ==> Calls(Batch(steps[q]), tag, i) == 0
    requires EntersOrWakes(steps[|steps| - 1])
    requires run[|steps|].waiters[steps[|steps| - 1].waiter].Idle?
    ensures Calls(run[|steps|].finished, tag, i) == (if first <= i < last then 1 else 0)
  {
    WaitReturnsOnlyWhenAllFinished(run, steps, n, k);
    CallsIgnoreOrder(run[|steps|].finished, SubmittedBy(steps), tag, i);
    OtherBatchesDoNotCall(steps, at, tag, i);
    LoopTasksCoverOnce(tag, first, last, wanted, n, i);
  }

  // ----- progress -----

  // The pool's own steps: all but new submissions, new calls to wait() and spurious wake-ups.
  predicate Internal(step: Step)
  {
    step.NotifyOne? || step.NotifyAll? || step.Lock? || step.Recheck? || step.Finish? || step.WaitWake?
  }

  ghost predicate Quiescent(s: Pool) { forall step :: Internal(step) ==> !Enabled(s, step) }

  function Notified(ws: seq<Waiter>): nat
  {
    if ws == [] then 0 else (if ws[0].Notified? then 1 else 0) + Notified(ws[1..])
  }

  lemma {:induction false} NotifiedBound(ws: seq<Waiter>)
    ensures Notified(ws) <= |ws|
  {
    if ws != [] { NotifiedBound(ws[1..]); }
  }

  lemma {:induction false} NotifiedUpdate(ws: seq<Waiter>, j: nat, w: Waiter)
    requires j < |ws| && ws[j].Notified? && !w.Notified?
    ensures Notified(ws[j := w]) == Notified(ws) - 1
  {
    if j == 0 {
      assert ws[0 := w][1..] == ws[1..];
    } else {
      assert ws[j := w][1..] == ws[1..][j - 1 := w];
      NotifiedUpdate(ws[1..], j - 1, w);
    }
  }

  // How much work each worker state still stands for, when k threads may wait.
  function Weight(k: nat): Worker -> nat
  {
    (w: Worker) => match w case Arriving => k + 2 case Executing(_) => k + 3 case Woken => 1 case Sleeping => 0
  }

  function Measure(s: Pool): nat
  {
    (|s.waiters| + 3) * |s.tasks| + Sum(Weight(|s.waiters|), s.workers) + 2 * s.owedOne
    + (|s.workers| + 1) * s.owedAll + Notified(s.waiters)
  }

  lemma MulStep(c: int, n: int)
    ensures c * (n + 1) == c * n + c
  {
  }

  lemma TakeOrSleepPays(s: Pool, i: nat)
    requires i < |s.workers| && (s.workers[i].Woken? || s.workers[i].Arriving?)
    ensures var r := TakeOrSleep(s, i);
            Measure(r) + (if s.tasks == [] && s.workers[i].Arriving? then |s.waiters| + 2 else 1) <= Measure(s)
  {
    var r := TakeOrSleep(s, i);
    var f := Weight(|s.waiters|);
    SumUpdate(f, s.workers, i, r.workers[i]);
    if s.tasks != [] {
      MulStep(|s.waiters| + 3, |r.tasks|);
    }
  }

  // The weight of an arriving worker covers every waiter it may notify.
  lemma LockPays(s: Pool, i: nat)
    requires Enabled(s, Lock(i))
    ensures Measure(Next(s, Lock(i))) < Measure(s)
  {
    var t := s.(running := s.running - 1);
    if t.waiting && Done(t) {
      var u := t.(waiters := WakeWaiters(t.waiters));
      NotifiedBound(u.waiters);
      TakeOrSleepPays(u, i);
      assert Measure(u) - Notified(u.waiters) == Measure(s) - Notified(s.waiters);
    } else {
      TakeOrSleepPays(t, i);
      assert Measure(t) == Measure(s);
    }
  }

  // Each of the pool's own steps strictly lowers the measure.
  lemma InternalStepsPay(s: Pool, step: Step, r: Pool)
    requires Internal(step) && Moves(s, step, r)
    ensures Measure(r) < Measure(s)
  {
    match step
    case NotifyOne(w) => NotifyOnePays(s, w);
    case NotifyAll => NotifyAllPays(s);
    case Lock(i) => LockPays(s, i);
    case Recheck(i) => TakeOrSleepPays(s, i);
    case Finish(i) => FinishPays(s, i);
    case WaitWake(j) => WaitWakePays(s, j);
  }

  lemma FinishPays(s: Pool, i: nat)
    requires Enabled(s, Finish(i))
    ensures Measure(Next(s, Finish(i))) < Measure(s)
  {
    SumUpdate(Weight(|s.waiters|), s.workers, i, Arriving);
  }

  lemma WaitWakePays(s: Pool, j: nat)
    requires Enabled(s, WaitWake(j))
    ensures Measure(Next(s, WaitWake(j))) < Measure(s)
  {
    NotifiedUpdate(s.waiters, j, Next(s, WaitWake(j)).waiters[j]);
  }

  lemma NotifyOnePays(s: Pool, w: nat)
    requires Enabled(s, NotifyOne(w))
    ensures Measure(Next(s, NotifyOne(w))) < Measure(s)
  {
    if SomeSleeping(s.workers) { SumUpdate(Weight(|s.waiters|), s.workers, w, Woken); }
  }

  lemma NotifyAllPays(s: Pool)
    requires Enabled(s, NotifyAll)
    ensures Measure(Next(s, NotifyAll)) < Measure(s)
  {
    SumWakesAtMostOneEach(Weight(|s.waiters|), s.workers);
    MulStep(|s.workers| + 1, s.owedAll - 1);
  }

  lemma {:induction false} SumWakesAtMostOneEach(f: Worker -> nat, ws: seq<Worker>)
    requires f(Woken) <= f(Sleeping) + 1
    ensures Sum(f, WakeAll(ws)) <= Sum(f, ws) + |ws|
  {
    if ws != [] {
      assert WakeAll(ws)[1..] == WakeAll(ws[1..]);
      SumWakesAtMostOneEach(f, ws[1..]);
    }
  }

  // Left alone, the pool stops within Measure(s) of its own steps, in whatever order they come.
  lemma {:induction false} InternalRunsAreBounded(run: seq<Pool>, steps: seq<Step>, k: nat)
    requires IsRun(run, steps) && k < |run|
    requires forall q :: 0 <= q < |steps| ==> Internal(steps[q])
    ensures k + Measure(run[k]) <= Measure(run[0])
  {
    if k > 0 {
      InternalRunsAreBounded(run, steps, k - 1);
      assert Moves(run[k - 1], steps[k - 1], run[k - 1 + 1]);
      InternalStepsPay(run[k - 1], steps[k - 1], run[k]);
    }
  }

  // And when it stops, nothing was forgotten: the queue is empty, all submitted work has finished,
  // and (with at most one waiter) no thread is left blocked in wait().
  lemma QuiescentMeansFinished(s: Pool)
    requires Inv(s) && Quiescent(s)
    ensures Done(s) && multiset(s.finished) == multiset(s.submitted)
    ensures forall i :: 0 <= i < |s.workers| ==> s.workers[i].Sleeping?
    ensures WaiterInv(s) ==> forall j :: 0 <= j < |s.waiters| ==> s.waiters[j].Idle?
  {
    forall i | 0 <= i < |s.workers| ensures s.workers[i].Sleeping? {
      assert !Enabled(s, Lock(i)) && !Enabled(s, Recheck(i)) && !Enabled(s, Finish(i));
    }
    assert !Enabled(s, NotifyAll);
    assert SomeSleeping(s.workers) by { assert s.workers[0].Sleeping?; }
    var w :| 0 <= w < |s.workers| && s.workers[w].Sleeping?;
    assert !Enabled(s, NotifyOne(w));
    assert s.tasks == [];
    SumZero(BusyOf, s.workers);
    DoneMeansAllFinished(s);
    forall j | 0 <= j < |s.waiters| && WaiterInv(s) ensures s.waiters[j].Idle? {
      assert !Enabled(s, WaitWake(j));
    }
  }

  // ----- how many workers a non-empty queue gets -----

  function IdleAwakeOf(w: Worker): nat { if w.Arriving? || w.Woken? then 1 else 0 }

  // While anybody sleeps, every queued task has an awake idle worker or an owed notification of its own.
  ghost predicate NoIdlingOverWork(s: Pool)
  {
    s.owedAll > 0 || !SomeSleeping(s.workers) || |s.tasks| <= s.owedOne + Sum(IdleAwakeOf, s.workers)
  }

  // detach_bulk notifies only when it finds the queue empty.
  predicate BulkOntoBacklog(s: Pool, step: Step) { step.SubmitBulk? && s.tasks != [] }

  lemma NoIdlingKept(s: Pool, step: Step, r: Pool)
    requires NoIdlingOverWork(s) && Moves(s, step, r) && !BulkOntoBacklog(s, step)
    ensures NoIdlingOverWork(r)
  {
    match step
    case NotifyOne(w) => NotifyKeepsCover(s, w);
    case Lock(i) => WorkerKeepsCover(s, step, r, i);
    case Recheck(i) => WorkerKeepsCover(s, step, r, i);
    case Spurious(i) => WorkerKeepsCover(s, step, r, i);
    case Finish(i) => WorkerKeepsCover(s, step, r, i);
    case _ => hide Sum;
  }

  lemma NotifyKeepsCover(s: Pool, w: nat)
    requires NoIdlingOverWork(s) && Enabled(s, NotifyOne(w))
    ensures NoIdlingOverWork(Next(s, NotifyOne(w)))
  {
    if SomeSleeping(s.workers) { SumUpdate(IdleAwakeOf, s.workers, w, Woken); }
    hide Sum;
  }

  // A step of one worker changes its weight and what it takes from the queue, nothing else.
  lemma WorkerKeepsCover(s: Pool, step: Step, r: Pool, i: nat)
    requires step.Lock? || step.Recheck? || step.Spurious? || step.Finish?
    requires i == step.worker && NoIdlingOverWork(s) && Moves(s, step, r)
    ensures NoIdlingOverWork(r)
  {
    SumUpdate(IdleAwakeOf, s.workers, i, r.workers[i]);
    SleepersBefore(s.workers, i, r.workers[i]);
    hide Sum, SomeSleeping;
  }

  // Only the updated worker can be a sleeper that was not there before.
  lemma SleepersBefore(ws: seq<Worker>, i: nat, w: Worker)
    requires i < |ws|
    ensures !w.Sleeping? && SomeSleeping(ws[i := w]) ==> SomeSleeping(ws)
  {
    if !w.Sleeping? && SomeSleeping(ws[i := w]) {
      var q :| 0 <= q < |ws| && ws[i := w][q].Sleeping?;
      assert ws[q].Sleeping?;
    }
  }

  // ----- schedules that show where the limits are -----

  ghost predicate RunsFromTo(run: seq<Pool>, steps: seq<Step>, s: Pool, t: Pool)
  {
    IsRun(run, steps) && run[0] == s && run[|steps|] == t
  }

  ghost predicate Reaches(s: Pool, t: Pool) { exists run, steps :: RunsFromTo(run, steps, s, t) }

  lemma ReachesSelf(s: Pool)
    ensures Reaches(s, s)
  {
    assert RunsFromTo([s], [], s, s);
  }

  lemma ReachStep(s: Pool, t: Pool, step: Step)
    requires Reaches(s, t) && Enabled(t, step)
    ensures Reaches(s, Next(t, step))
  {
    var run, steps :| RunsFromTo(run, steps, s, t);
    var u := Next(t, step);
    var run', steps' := run + [u], steps + [step];
    forall k | 0 <= k < |steps'| ensures Moves(run'[k], steps'[k], run'[k + 1]) {
      if k < |steps| { assert Moves(run[k], steps[k], run[k + 1]); }
    }
    assert RunsFromTo(run', steps', s, u);
  }

  // All workers asleep, nothing submitted, nobody waiting.
  function Parked(n: nat, k: nat, asleep: nat): Pool
  {
    Initial(n, k).(workers := seq(n, i => if i < asleep then Sleeping else Arriving), running := n - asleep)
  }

  lemma {:induction false} WorkersPark(n: nat, k: nat, asleep: nat)
    requires asleep <= n
    ensures Reaches(Initial(n, k), Parked(n, k, asleep))
  {
    if asleep == 0 {
      ReachesSelf(Initial(n, k));
      assert Parked(n, k, 0).workers == Initial(n, k).workers;
    } else {
      WorkersPark(n, k, asleep - 1);
      var s := Parked(n, k, asleep - 1);
      ReachStep(Initial(n, k), s, Lock(asleep - 1));
      assert Next(s, Lock(asleep - 1)).workers == Parked(n, k, asleep).workers;
    }
  }

  // The reachable states in which the pool has stopped never hold a thread that is still blocked.
  ghost predicate NobodyStranded(n: nat, k: nat)
  {
    forall s :: Reaches(Initial(n, k), s) && Quiescent(s) ==> !SomeBlocked(s.waiters)
  }

  ghost predicate SomeBlocked(ws: seq<Waiter>) { exists j :: 0 <= j < |ws| && ws[j].Blocked? }

  // One worker, woken by notify_one, runs the only queued task and goes back to sleep.
  lemma ServeOneTask(s0: Pool, s: Pool, task: Task) returns (t: Pool)
    requires Reaches(s0, s)
    requires |s.workers| > 0 && (forall i :: 0 <= i < |s.workers| ==> s.workers[i].Sleeping?)
    requires s.tasks == [task] && s.running == 0 && s.owedOne == 1 && s.owedAll == 0
    ensures Reaches(s0, t)
    ensures t.workers == s.workers && t.tasks == [] && t.running == 0 && t.owedOne == 0 && t.owedAll == 0
    ensures t.waiting == s.waiting && t.waiters == (if s.waiting then WakeWaiters(s.waiters) else s.waiters)
  {
    assert s.workers[0].Sleeping? && SomeSleeping(s.workers);
    ReachStep(s0, s, NotifyOne(0));
    var a := Next(s, NotifyOne(0));
    ReachStep(s0, a, Recheck(0));
    var b := Next(a, Recheck(0));
    ReachStep(s0, b, Finish(0));
    var c := Next(b, Finish(0));
    ReachStep(s0, c, Lock(0));
    t := Next(c, Lock(0));
    assert t.workers == s.workers;
  }

  // With two waiters: the first to return clears the flag that the second still relies on. If a task
  // arrives in between, the second blocks again and the worker that finishes it notifies nobody.
  lemma TwoWaitersStrand(n: nat, k: nat) returns (t: Pool)
    requires n > 0 && k >= 2
    ensures Reaches(Initial(n, k), t) && Quiescent(t) && SomeBlocked(t.waiters)
  {
    var s0, task := Initial(n, k), Task(0, 0, 1);
    WorkersPark(n, k, n);
    var d := TwoWait(s0, Parked(n, k, n), task);
    var e := ServeOneTask(s0, d, task);
    var h := OneReturns(s0, e, task);
    t := ServeOneTask(s0, h, task);
    hide Reaches, Next;
    assert t.waiters[1].Blocked?;
    assert forall j :: 0 <= j < k && j != 1 ==> t.waiters[j].Idle?;
  }

  // A task is submitted and two threads wait for it.
  lemma TwoWait(s0: Pool, a: Pool, task: Task) returns (d: Pool)
    requires Reaches(s0, a) && a.tasks == [] && a.running == 0 && a.owedOne == 0 && |a.waiters| >= 2
    requires a.waiters[0].Idle? && a.waiters[1].Idle?
    ensures Reaches(s0, d)
    ensures d == a.(tasks := [task], owedOne := 1, submitted := a.submitted + [task], waiting := true,
                    waiters := a.waiters[0 := Blocked][1 := Blocked])
  {
    hide Reaches;
    ReachStep(s0, a, Submit(task));
    var b := Next(a, Submit(task));
    ReachStep(s0, b, WaitBegin(0));
    var c := Next(b, WaitBegin(0));
    ReachStep(s0, c, WaitBegin(1));
    d := Next(c, WaitBegin(1));
  }

  // The first waiter returns, another task is submitted, and only then does the second wake.
  lemma OneReturns(s0: Pool, e: Pool, task: Task) returns (h: Pool)
    requires Reaches(s0, e) && e.tasks == [] && e.running == 0 && e.owedOne == 0 && |e.waiters| >= 2
    requires e.waiters[0].Notified? && e.waiters[1].Notified?
    ensures Reaches(s0, h)
    ensures h == e.(tasks := [task], owedOne := 1, submitted := e.submitted + [task], waiting := false,
                    waiters := e.waiters[0 := Idle][1 := Blocked])
  {
    hide Reaches;
    ReachStep(s0, e, WaitWake(0));
    var f := Next(e, WaitWake(0));
    ReachStep(s0, f, Submit(task));
    var g := Next(f, Submit(task));
    ReachStep(s0, g, WaitWake(1));
    h := Next(g, WaitWake(1));
  }

  // A stopped pool leaves nobody blocked in wait() if and only if at most one thread may wait at a time.
  lemma NobodyStrandedExactlyForOneWaiter(n: nat, k: nat)
    requires n > 0
    ensures NobodyStranded(n, k) <==> k <= 1
  {
    if k >= 2 {
      var t := TwoWaitersStrand(n, k);
    } else {
      forall s | Reaches(Initial(n, k), s) && Quiescent(s)
        ensures !SomeBlocked(s.waiters)
      {
        var run, steps :| RunsFromTo(run, steps, Initial(n, k), s);
        InitialInv(n, k);
        EveryRunIsSafe(run, steps, |steps|);
        QuiescentMeansFinished(s);
      }
    }
  }

  // Over any run that never adds a batch to a non-empty queue, no queued task waits on a sleeper
  // without an awake worker or an owed notification for it.
  lemma {:induction false} NoIdlingWithoutBacklogBulks(run: seq<Pool>, steps: seq<Step>, n: nat, k: nat, q: nat)
    requires IsRun(run, steps) && run[0] == Initial(n, k) && q < |run|
    requires forall p :: 0 <= p < |steps| ==> !BulkOntoBacklog(run[p], steps[p])
    ensures NoIdlingOverWork(run[q])
  {
    if q > 0 {
      NoIdlingWithoutBacklogBulks(run, steps, n, k, q - 1);
      assert Moves(run[q - 1], steps[q - 1], run[q - 1 + 1]);
      NoIdlingKept(run[q - 1], steps[q - 1], run[q]);
    }
  }

  // A worker sleeps beside queued work, and no worker or notification is on its way to that work.
  ghost predicate Idles(s: Pool)
  {
    && s.tasks != [] && SomeSleeping(s.workers) && s.owedOne == 0 && s.owedAll == 0
    && forall i :: 0 <= i < |s.workers| ==> !s.workers[i].Arriving? && !s.workers[i].Woken?
  }

  lemma NoIdlingMeansBusy(s: Pool)
    requires NoIdlingOverWork(s)
    ensures !Idles(s)
  {
    SumZero(IdleAwakeOf, s.workers);
  }

  // The runs of a pool to which batches are, or are not, submitted while tasks are still queued.
  ghost predicate Abides(run: seq<Pool>, steps: seq<Step>, n: nat, k: nat, backlog: bool)
  {
    && IsRun(run, steps) && run[0] == Initial(n, k)
    && (backlog || forall p :: 0 <= p < |steps| ==> !BulkOntoBacklog(run[p], steps[p]))
  }

  // No reachable state idles; every reachable state meets the stronger count.
  ghost predicate NeverIdles(n: nat, k: nat, backlog: bool)
  {
    forall run, steps :: Abides(run, steps, n, k, backlog) ==> !Idles(run[|steps|])
  }

  ghost predicate AlwaysCovered(n: nat, k: nat, backlog: bool)
  {
    forall run, steps :: Abides(run, steps, n, k, backlog) ==> NoIdlingOverWork(run[|steps|])
  }

  // A batch added while one task is still queued gets no notification: one worker has all the tasks
  // to itself while the others sleep and nothing is owed to them.
  lemma BulkOntoBacklogLeavesSleepers(n: nat, k: nat) returns (s: Pool)
    requires n >= 2
    ensures Reaches(Initial(n, k), s) && Idles(s) && !NoIdlingOverWork(s)
  {
    var s0 := Initial(n, k);
    WorkersPark(n, k, n);
    var a := Parked(n, k, n);
    ReachStep(s0, a, Submit(Task(0, 0, 1)));
    var b := Next(a, Submit(Task(0, 0, 1)));
    ReachStep(s0, b, SubmitBulk([Task(1, 0, 1)]));
    var c := Next(b, SubmitBulk([Task(1, 0, 1)]));
    assert c.workers[0].Sleeping? && SomeSleeping(c.workers);
    ReachStep(s0, c, NotifyOne(0));
    var d := Next(c, NotifyOne(0));
    ReachStep(s0, d, Recheck(0));
    s := Next(d, Recheck(0));
    assert s.workers[0] == Executing(Task(0, 0, 1)) && s.workers[1].Sleeping?;
    SumZero(IdleAwakeOf, s.workers);
  }

  // A single worker cannot sleep beside work.
  lemma LoneWorkerNeverIdles(n: nat, k: nat, run: seq<Pool>, steps: seq<Step>)
    requires n <= 1 && IsRun(run, steps) && run[0] == Initial(n, k)
    ensures !Idles(run[|steps|])
  {
    if n == 1 {
      InitialInv(n, k);
      EveryRunIsSafe(run, steps, |steps|);
    }
    WorkersStay(run, steps, |steps|);
  }

  lemma {:induction false} WorkersStay(run: seq<Pool>, steps: seq<Step>, q: nat)
    requires IsRun(run, steps) && q < |run|
    ensures |run[q].workers| == |run[0].workers|
  {
    if q > 0 {
      WorkersStay(run, steps, q - 1);
      assert Moves(run[q - 1], steps[q - 1], run[q - 1 + 1]);
    }
  }

  // For any number of workers and waiters: no reachable state leaves a worker asleep beside work if and
  // only if there is no second worker, or no batch is submitted onto a backlog.
  lemma NeverIdlesExactly(n: nat, k: nat, backlog: bool)
    ensures NeverIdles(n, k, backlog) <==> n <= 1 || !backlog
  {
    if n <= 1 || !backlog {
      forall run, steps | Abides(run, steps, n, k, backlog) ensures !Idles(run[|steps|]) {
        if n <= 1 {
          LoneWorkerNeverIdles(n, k, run, steps);
        } else {
          NoIdlingWithoutBacklogBulks(run, steps, n, k, |steps|);
          NoIdlingMeansBusy(run[|steps|]);
        }
      }
    } else {
      var s := BulkOntoBacklogLeavesSleepers(n, k);
      var run, steps :| RunsFromTo(run, steps, Initial(n, k), s);
      assert Abides(run, steps, n, k, backlog);
    }
  }

  // With several workers the same condition decides the stronger count.
  lemma AlwaysCoveredExactly(n: nat, k: nat, backlog: bool)
    requires n >= 2
    ensures AlwaysCovered(n, k, backlog) <==> !backlog
  {
    if backlog {
      var s := BulkOntoBacklogLeavesSleepers(n, k);
      var run, steps :| RunsFromTo(run, steps, Initial(n, k), s);
      assert Abides(run, steps, n, k, backlog);
    } else {
      forall run, steps | Abides(run, steps, n, k, backlog) ensures NoIdlingOverWork(run[|steps|]) {
        NoIdlingWithoutBacklogBulks(run, steps, n, k, |steps|);
      }
    }
  }
}
