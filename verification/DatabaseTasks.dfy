/** The queue through which any number of threads hand tasks to the one database thread: a list, a lock and
    a condition variable that is signalled only when the list was empty. Every step of every thread is a step
    of the whole, and any thread may go next. */
module DatabaseTasks {

  type Task = nat

  /** Where the database thread is in its loop. */
  datatype Worker =
    | Top             // about to take the lock
    | Checking        // holds the lock, about to look at the list
    | Waiting         // waits for the signal, without the lock
    | Woken           // was signalled, or woke on its own, and wants the lock back
    | Taking          // holds the lock, about to take a task if there is one
    | Running(task: Task)

  /** Where a thread is in `addTask`. */
  datatype Adder =
    | Idle
    | Calling(task: Task)    // wants the lock
    | Adding(task: Task)     // holds the lock
    | Leaving(signal: bool)  // has added, or was refused, and still holds the lock
    | Notifying(signal: bool)

  datatype Holder = Nobody | TheWorker | Thread(id: nat)

  datatype State = State(
    tasks: seq<Task>,
    lock: Holder,
    worker: Worker,
    adders: map<nat, Adder>,
    open: bool,           // the thread state is `THREAD_STATE_RUNNING`
    accepted: seq<Task>,  // all tasks ever added to the list,
    taken: seq<Task>,     // all taken off it,
    done: seq<Task>)      // and all that have been run

  predicate Init(s: State)
  {
    && s.tasks == s.accepted == s.taken == s.done == [] && s.lock == Nobody && s.worker == Top && s.open
    && forall a :: a in s.adders ==> s.adders[a] == Idle
  }

  // ----- The steps

  datatype Step =
    | Call(id: nat, task: Task)
    | Lock(id: nat)
    | Add(id: nat)
    | Unlock(id: nat)
    | Notify(id: nat)
    | Stop
    | WorkerLock
    | WorkerCheck
    | WorkerWake      // spurious
    | WorkerTake
    | WorkerRun

  function With(s: State, id: nat, a: Adder): State
  {
    s.(adders := s.adders[id := a])
  }

  predicate Can(s: State, step: Step)
  {
    match step
    case Call(id, _) => id in s.adders && s.adders[id].Idle?
    case Lock(id) => id in s.adders && s.adders[id].Calling? && s.lock == Nobody
    case Add(id) => id in s.adders && s.adders[id].Adding?
    case Unlock(id) => id in s.adders && s.adders[id].Leaving?
    case Notify(id) => id in s.adders && s.adders[id].Notifying?
    case Stop => true
    case WorkerLock => (s.worker.Top? || s.worker.Woken?) && s.lock == Nobody
    case WorkerCheck => s.worker.Checking?
    case WorkerWake => s.worker.Waiting?
    case WorkerTake => s.worker.Taking?
    case WorkerRun => s.worker.Running?
  }

  function Next(s: State, step: Step): State
    requires Can(s, step)
  {
    match step
    case Call(id, task) => With(s, id, Calling(task))
    case Lock(id) => With(s, id, Adding(s.adders[id].task)).(lock := Thread(id))
    case Add(id) =>
      var task := s.adders[id].task;
      if s.open then With(s, id, Leaving(s.tasks == [])).(tasks := s.tasks + [task], accepted := s.accepted + [task])
      else With(s, id, Leaving(false))
    case Unlock(id) => With(s, id, Notifying(s.adders[id].signal)).(lock := Nobody)
    case Notify(id) =>
      With(s, id, Idle).(worker := if s.adders[id].signal && s.worker.Waiting? then Woken else s.worker)
    case Stop => s.(open := false)
    case WorkerLock => s.(lock := TheWorker, worker := if s.worker.Top? then Checking else Taking)
    case WorkerCheck =>
      if s.tasks == [] then s.(lock := Nobody, worker := Waiting) else s.(worker := Taking)
    case WorkerWake => s.(worker := Woken)
    case WorkerTake =>
      if s.tasks != [] then
        s.(lock := Nobody, worker := Running(s.tasks[0]), tasks := s.tasks[1..], taken := s.taken + [s.tasks[0]])
      else s.(lock := Nobody, worker := Top)
    case WorkerRun => s.(worker := Top, done := s.done + [s.worker.task])
  }

  // ----- What holds at all times

  predicate Holds(a: Adder)
  {
    a.Adding? || a.Leaving?
  }

  /** The lock is held by exactly the thread that is between taking and releasing it. */
  ghost predicate Exclusive(s: State)
  {
    && (s.lock == TheWorker <==> s.worker.Checking? || s.worker.Taking?)
    && forall id :: s.lock == Thread(id) <==> id in s.adders && Holds(s.adders[id])
  }

  /** What was accepted has been taken in the same order, or is still in the list. */
  predicate InOrder(s: State)
  {
    && s.accepted == s.taken + s.tasks
    && s.taken == s.done + if s.worker.Running? then [s.worker.task] else []
  }

  /** A thread has yet to send the signal it found due. */
  predicate Due(s: State, id: nat)
  {
    id in s.adders && (s.adders[id].Leaving? || s.adders[id].Notifying?) && s.adders[id].signal
  }

  /** While the worker waits and the list is not empty, a signal is still due. */
  ghost predicate NotForgotten(s: State)
  {
    s.worker.Waiting? && s.tasks != [] ==> exists id :: Due(s, id)
  }

  ghost predicate Inv(s: State)
  {
    Exclusive(s) && InOrder(s) && NotForgotten(s)
  }

  lemma {:induction false} InitInv(s: State)
    requires Init(s)
    ensures Inv(s)
  {
  }

  lemma {:induction false} StepExclusive(s: State, step: Step)
    requires Exclusive(s) && Can(s, step)
    ensures Exclusive(Next(s, step))
  {
  }

  lemma {:induction false} StepInOrder(s: State, step: Step)
    requires InOrder(s) && Can(s, step)
    ensures InOrder(Next(s, step))
  {
  }

  lemma {:induction false} StepNotForgotten(s: State, step: Step)
    requires Exclusive(s) && NotForgotten(s) && Can(s, step)
    ensures NotForgotten(Next(s, step))
  {
    var s' := Next(s, step);
    if s'.worker.Waiting? && s'.tasks != [] {
      if step.Add? && s.tasks == [] {
        assert Due(s', step.id);
      } else {
        var id :| Due(s, id);
        assert Due(s', id);
      }
    }
  }

  /** Every state of a run. */
  ghost predicate AllInv(s: State, steps: seq<Step>)
    decreases |steps|
  {
    Inv(s) && (steps == [] || (Can(s, steps[0]) ==> AllInv(Next(s, steps[0]), steps[1..])))
  }

  /** Over every interleaving the invariant holds: one thread at a time has the lock, each accepted task is
      taken exactly once and in order, and no signal is lost. */
  lemma {:induction false} RunInv(s: State, steps: seq<Step>)
    requires Inv(s)
    ensures AllInv(s, steps)
    decreases |steps|
  {
    if steps != [] && Can(s, steps[0]) {
      StepExclusive(s, steps[0]);
      StepInOrder(s, steps[0]);
      StepNotForgotten(s, steps[0]);
      RunInv(Next(s, steps[0]), steps[1..]);
    }
  }

  /** So they hold in every state of every run from the start. */
  lemma {:induction false} RunFromInit(s: State, steps: seq<Step>)
    requires Init(s)
    ensures AllInv(s, steps)
  {
    InitInv(s);
    RunInv(s, steps);
  }

  // ----- Left alone, the worker does all there is to do

  predicate Quiet(s: State)
  {
    forall id :: id in s.adders ==> s.adders[id].Idle?
  }

  /** The one step the worker can take by itself, if it does not wait. */
  function WorkerStep(s: State): Step
    requires !s.worker.Waiting?
  {
    match s.worker
    case Top => WorkerLock
    case Checking => WorkerCheck
    case Woken => WorkerLock
    case Taking => WorkerTake
    case Running(_) => WorkerRun
  }

  ghost predicate Runs(s: State, steps: seq<Step>, s': State)
    decreases |steps|
  {
    if steps == [] then s' == s else Can(s, steps[0]) && Runs(Next(s, steps[0]), steps[1..], s')
  }

  /** Steps the worker needs at most before it waits. */
  function Distance(s: State): nat
  {
    4 * |s.tasks| + match s.worker
      case Top => 2
      case Checking => 1
      case Waiting => 0
      case Woken => 4
      case Taking => if s.tasks == [] then 3 else 0
      case Running(_) => 3
  }

  /** With no other thread at work, the worker comes to rest only when every accepted task has been run. */
  lemma {:induction false} Drains(s: State) returns (steps: seq<Step>, s': State)
    requires Inv(s) && Quiet(s)
    ensures Runs(s, steps, s') && s'.worker.Waiting? && s'.tasks == [] && s'.done == s.accepted
    decreases Distance(s)
  {
    if s.worker.Waiting? {
      steps, s' := [], s;
    } else {
      var step := WorkerStep(s);
      StepExclusive(s, step);
      StepInOrder(s, step);
      StepNotForgotten(s, step);
      var rest;
      rest, s' := Drains(Next(s, step));
      steps := [step] + rest;
      assert steps[1..] == rest;
    }
  }

  /** While the worker waits on a list that is not empty, one thread is at most two of its own steps away
      from waking it. */
  lemma {:induction false} Rouses(s: State) returns (id: nat, s': State)
    requires Inv(s) && s.worker.Waiting? && s.tasks != []
    ensures Runs(s, [Unlock(id), Notify(id)], s') || Runs(s, [Notify(id)], s')
    ensures s'.worker.Woken? && s'.tasks == s.tasks
  {
    id :| Due(s, id);
    if s.adders[id].Leaving? {
      var s1 := Next(s, Unlock(id));
      s' := Next(s1, Notify(id));
      assert [Unlock(id), Notify(id)][1..] == [Notify(id)] && [Notify(id)][1..] == [];
      assert Runs(s1, [Notify(id)], s');
    } else {
      s' := Next(s, Notify(id));
      assert [Notify(id)][1..] == [];
    }
  }
}
