/** What a lane remembers, read off the steps of the run that produced it.

    The lane records verdicts, copies, settlements and moments so that invariants can
    speak of them.  Here each record is tied to the step that caused it: the goroutine's
    place in the code, what it saw of the shared structures, and what the environment
    answered. */
module RoutingHistory {
  import opened Base
  import opened Routing

  /** The lane before step `i`. */
  ghost function At(steps: seq<Step>, i: nat): Lane
    requires i <= |steps|
  {
    Exec(Empty, steps[..i])
  }

  function Front(steps: seq<Step>): seq<Step>
    requires steps != []
  {
    steps[..|steps| - 1]
  }

  lemma Snoc(steps: seq<Step>)
    requires steps != []
    ensures Exec(Empty, steps) == Next(Exec(Empty, Front(steps)), steps[|steps| - 1])
  {
    var last := steps[|steps| - 1];
    assert Front(steps) + [last] == steps;
    Concat(Empty, Front(steps), [last]);
    One(Exec(Empty, Front(steps)), last);
  }

  /** A prefix has the same past. */
  lemma SamePast(steps: seq<Step>, n: nat, i: nat)
    requires i <= n <= |steps|
    ensures At(steps[..n], i) == At(steps, i)
  {
    assert steps[..n][..i] == steps[..i];
  }

  lemma OneTick(l: Lane, step: Step)
    ensures Next(l, step).now == l.now + 1
  {
    match step
    case Arrive(_, _) =>
    case Deliver(_, _, _) =>
    case RunTask(_, _) =>
    case Dedup(_, _, _) =>
    case StartCancel(_) =>
    case RunCancel(_, _) =>
    case DrainCancel(_) =>
    case EvictClaim =>
    case EvictDeny =>
  }

  /** The clock counts steps, so a recorded moment is the index of a step. */
  lemma {:induction false} Clock(steps: seq<Step>)
    ensures Exec(Empty, steps).now == |steps|
  {
    if steps != [] {
      Snoc(steps);
      Clock(Front(steps));
      OneTick(Exec(Empty, Front(steps)), steps[|steps| - 1]);
    }
  }

  /** Step `i` is a step of goroutine `t` that happens. */
  ghost predicate RunsAt(steps: seq<Step>, i: nat, t: TaskId) {
    i < |steps| && steps[i].RunTask? && steps[i].t == t && CanRun(At(steps, i), t, steps[i].choice)
  }

  // --------------------------------------------------------- who moves a goroutine

  /** The step is one of goroutine `t`'s own. */
  predicate Steps(l: Lane, step: Step, t: TaskId) {
    step.RunTask? && step.t == t && CanRun(l, t, step.choice)
  }

  lemma CancelsKeep(l: Lane, c: TaskId, choice: CancelChoice)
    ensures StepCancel(l, c, choice).tasks == l.tasks && StepCancel(l, c, choice).msgs == l.msgs
    ensures AfterStartCancel(l, c).tasks == l.tasks && AfterStartCancel(l, c).msgs == l.msgs
    ensures AfterDrainCancel(l, c).tasks == l.tasks && AfterDrainCancel(l, c).msgs == l.msgs
  {
  }

  lemma OtherTaskStep(l: Lane, u: TaskId, choice: Choice, t: TaskId)
    requires t in l.tasks && (t == u ==> !CanRun(l, u, choice))
    ensures t in StepTask(l, u, choice).tasks && StepTask(l, u, choice).tasks[t] == l.tasks[t]
  {
  }

  lemma DeliverLeavesTask(l: Lane, u: TaskId, path: Path, m: MsgId, t: TaskId)
    requires t in l.tasks
    ensures t in AfterDeliver(l, u, path, m).tasks && AfterDeliver(l, u, path, m).tasks[t] == l.tasks[t]
  {
  }

  lemma DedupLeavesTask(l: Lane, u: TaskId, m: MsgId, partner: MsgId, t: TaskId)
    requires t in l.tasks
    ensures t in AfterDedup(l, u, m, partner).tasks && AfterDedup(l, u, m, partner).tasks[t] == l.tasks[t]
  {
  }

  /** A goroutine changes only by its own steps. */
  lemma OthersLeaveTask(l: Lane, step: Step, t: TaskId)
    requires t in l.tasks && !Steps(l, step, t)
    ensures t in Next(l, step).tasks && Next(l, step).tasks[t] == l.tasks[t]
  {
    match step
    case RunTask(u, choice) => OtherTaskStep(l, u, choice, t);
    case Arrive(m, message) =>
    case Deliver(u, path, m) => DeliverLeavesTask(l, u, path, m, t);
    case Dedup(u, m, partner) => DedupLeavesTask(l, u, m, partner, t);
    case StartCancel(c) => CancelsKeep(l, c, CancelChoice(false, false, []));
    case RunCancel(c, choice) => CancelsKeep(l, c, choice);
    case DrainCancel(c) => CancelsKeep(l, c, CancelChoice(false, false, []));
    case EvictClaim =>
    case EvictDeny =>
  }

  lemma OwnTaskStep(l: Lane, t: TaskId, choice: Choice)
    requires CanRun(l, t, choice)
    ensures t in Next(l, RunTask(t, choice)).tasks
    ensures Next(l, RunTask(t, choice)).tasks[t] == MoveOf(l.tasks[t], ViewOf(l), choice).task
  {
  }

  /** Goroutines are started by a delivery or by deduplication. */
  lemma NewTaskStep(l: Lane, step: Step, t: TaskId)
    requires t !in l.tasks && t in Next(l, step).tasks
    ensures || (step.Deliver? && step.t == t && step.m in l.msgs
                && Next(l, step).tasks[t] == NewTask(step.path, step.m, l.msgs[step.m].kind))
            || (step.Dedup? && step.t == t && Partners(l, step.m, step.partner)
                && Next(l, step).tasks[t] == DedupTask(step.m, l.msgs[step.m].kind))
  {
    match step
    case RunTask(u, choice) =>
    case Arrive(m, message) =>
    case Deliver(u, path, m) =>
    case Dedup(u, m, partner) =>
    case StartCancel(c) => CancelsKeep(l, c, CancelChoice(false, false, []));
    case RunCancel(c, choice) => CancelsKeep(l, c, choice);
    case DrainCancel(c) => CancelsKeep(l, c, CancelChoice(false, false, []));
    case EvictClaim =>
    case EvictDeny =>
  }

  // ------------------------------------------------------------------ forwards

  /** Step `i` is `t`'s provider call, and the provider accepts. */
  ghost predicate AcceptedAt(steps: seq<Step>, i: nat, t: TaskId) {
    RunsAt(steps, i, t) && At(steps, i).tasks[t].pc.Forward? && steps[i].choice.reply.Accepted?
  }

  lemma AcceptedMove(task: Task, v: View, choice: Choice)
    ensures MoveOf(task, v, choice).accepted <==> task.pc.Forward? && choice.reply.Accepted?
  {
    match task.pc
    case Forward =>
    case _ =>
  }

  lemma ForwardStep(l: Lane, step: Step, t: TaskId)
    ensures t in Next(l, step).forwarded <==>
            t in l.forwarded || (step.RunTask? && step.t == t && CanRun(l, t, step.choice)
                                 && l.tasks[t].pc.Forward? && step.choice.reply.Accepted?)
  {
    match step
    case RunTask(u, choice) =>
      if CanRun(l, u, choice) {
        AcceptedMove(l.tasks[u], ViewOf(l), choice);
      }
    case _ =>
  }

  lemma {:induction false} ForwardedCause(steps: seq<Step>, t: TaskId) returns (i: nat)
    requires t in Exec(Empty, steps).forwarded
    ensures AcceptedAt(steps, i, t)
    decreases |steps|
  {
    i := |steps| - 1;
    Snoc(steps);
    ForwardStep(At(steps, i), steps[i], t);
    if t in At(steps, i).forwarded {
      i := ForwardedCause(Front(steps), t);
      SamePast(steps, |steps| - 1, i);
    }
  }

  lemma {:induction false} ForwardedStays(steps: seq<Step>, i: nat, t: TaskId)
    requires AcceptedAt(steps, i, t)
    ensures t in Exec(Empty, steps).forwarded
    decreases |steps|
  {
    var n := |steps| - 1;
    Snoc(steps);
    ForwardStep(At(steps, n), steps[n], t);
    if i < n {
      SamePast(steps, n, i);
      ForwardedStays(Front(steps), i, t);
    }
  }

  /** The set of forwarded attempts is exactly that of the accepted provider calls. */
  lemma ForwardedExactly(steps: seq<Step>, t: TaskId)
    ensures t in Exec(Empty, steps).forwarded <==> exists i: nat :: AcceptedAt(steps, i, t)
  {
    if t in Exec(Empty, steps).forwarded {
      var i := ForwardedCause(steps, t);
    }
    forall i: nat | AcceptedAt(steps, i, t) ensures t in Exec(Empty, steps).forwarded {
      ForwardedStays(steps, i, t);
    }
  }

  // --------------------------------------------------------------- settlements

  /** The step acks or terminates message `m`: a goroutine at its ack or term, or a cancel
      handler's purge. */
  predicate Settles(l: Lane, step: Step, m: MsgId) {
    match step
    case RunTask(t, choice) =>
      CanRun(l, t, choice) && l.tasks[t].mid == m && (l.tasks[t].pc.Ack? || l.tasks[t].pc.Term?)
    case RunCancel(c, choice) =>
      CanCancel(l, c, choice) && l.cancels[c].pc.Purge? && l.cancels[c].pc.todo != [] && l.cancels[c].pc.todo[0] == m
    case _ => false
  }

  ghost predicate SettlesAt(steps: seq<Step>, i: nat, m: MsgId) {
    i < |steps| && Settles(At(steps, i), steps[i], m)
  }

  lemma SettlingMove(task: Task, v: View, choice: Choice)
    ensures var mv := MoveOf(task, v, choice);
            mv.task.mid == task.mid && (mv.settles <==> task.pc.Ack? || task.pc.Term?)
  {
    match task.pc
    case Ack =>
    case Term =>
    case _ =>
  }

  lemma TaskSettleStep(l: Lane, t: TaskId, choice: Choice, m: MsgId)
    ensures m in StepTask(l, t, choice).settled <==> m in l.settled || Settles(l, RunTask(t, choice), m)
  {
    if CanRun(l, t, choice) {
      SettlingMove(l.tasks[t], ViewOf(l), choice);
    }
  }

  lemma CancelSettleStep(l: Lane, c: TaskId, choice: CancelChoice, m: MsgId)
    ensures m in StepCancel(l, c, choice).settled <==> m in l.settled || Settles(l, RunCancel(c, choice), m)
  {
  }

  lemma SettleStep(l: Lane, step: Step, m: MsgId)
    ensures m in Next(l, step).settled <==> m in l.settled || Settles(l, step, m)
  {
    match step
    case RunTask(t, choice) => TaskSettleStep(l, t, choice, m);
    case RunCancel(c, choice) => CancelSettleStep(l, c, choice, m);
    case Arrive(_, _) =>
    case Deliver(_, _, _) =>
    case Dedup(_, _, _) =>
    case StartCancel(_) =>
    case DrainCancel(_) =>
    case EvictClaim =>
    case EvictDeny =>
  }

  lemma {:induction false} SettledCause(steps: seq<Step>, m: MsgId) returns (i: nat)
    requires m in Exec(Empty, steps).settled
    ensures SettlesAt(steps, i, m)
    decreases |steps|
  {
    i := |steps| - 1;
    Snoc(steps);
    SettleStep(At(steps, i), steps[i], m);
    if m in At(steps, i).settled {
      i := SettledCause(Front(steps), m);
      SamePast(steps, |steps| - 1, i);
    }
  }

  lemma {:induction false} SettledStays(steps: seq<Step>, i: nat, m: MsgId)
    requires SettlesAt(steps, i, m)
    ensures m in Exec(Empty, steps).settled
    decreases |steps|
  {
    var n := |steps| - 1;
    Snoc(steps);
    SettleStep(At(steps, n), steps[n], m);
    if i < n {
      SamePast(steps, n, i);
      SettledStays(Front(steps), i, m);
    }
  }

  /** The settled messages are exactly those some step acked or terminated. */
  lemma SettledExactly(steps: seq<Step>, m: MsgId)
    ensures m in Exec(Empty, steps).settled <==> exists i: nat :: SettlesAt(steps, i, m)
  {
    if m in Exec(Empty, steps).settled {
      var i := SettledCause(steps, m);
    }
    forall i: nat | SettlesAt(steps, i, m) ensures m in Exec(Empty, steps).settled {
      SettledStays(steps, i, m);
    }
  }

  // ------------------------------------------------------------------ denials

  ghost predicate DeniesAt(steps: seq<Step>, i: nat) {
    i < |steps| && Denies(At(steps, i), steps[i])
  }

  lemma DenyStep(l: Lane, step: Step)
    ensures Next(l, step).denied ==> l.denied || Denies(l, step)
  {
    match step
    case DrainCancel(c) =>
    case RunCancel(c, choice) =>
    case _ =>
  }

  /** The id is on the deny list only because an earlier step of a cancel put it there. */
  lemma {:induction false} DeniedCause(steps: seq<Step>) returns (i: nat)
    requires Exec(Empty, steps).denied
    ensures DeniesAt(steps, i)
    decreases |steps|
  {
    i := |steps| - 1;
    Snoc(steps);
    DenyStep(At(steps, i), steps[i]);
    if At(steps, i).denied {
      i := DeniedCause(Front(steps));
      SamePast(steps, |steps| - 1, i);
    }
  }

  // ------------------------------------------------------------------- cancels

  /** Step `i` is cancel `c`'s deny-list insertion. */
  ghost predicate InsertsAt(steps: seq<Step>, i: nat, c: TaskId) {
    DeniesAt(steps, i) && steps[i].RunCancel? && steps[i].c == c
  }

  /** Step `i` is cancel `c`'s fetch of the retry stream, and `m` is among what it gets. */
  ghost predicate FetchesAt(steps: seq<Step>, i: nat, c: TaskId, m: MsgId) {
    && i < |steps| && steps[i].RunCancel? && steps[i].c == c
    && var (l, choice) := (At(steps, i), steps[i].cancelChoice);
       CanCancel(l, c, choice) && l.cancels[c].pc.Fetch? && choice.hasConsumer && choice.ok && m in choice.fetched
  }

  predicate Purging(l: Lane, c: TaskId, m: MsgId) {
    c in l.cancels && l.cancels[c].pc.Purge? && m in l.cancels[c].pc.todo
  }

  predicate Fetching(l: Lane, c: TaskId) { c in l.cancels && l.cancels[c].pc.Fetch? }

  lemma NoCancelStep(l: Lane, step: Step)
    requires !step.RunCancel? && !step.StartCancel? && !step.DrainCancel?
    ensures Next(l, step).cancels == l.cancels
  {
    match step
    case Arrive(_, _) =>
    case Deliver(_, _, _) =>
    case RunTask(_, _) =>
    case Dedup(_, _, _) =>
    case EvictClaim =>
    case EvictDeny =>
  }

  lemma StartedCancel(l: Lane, d: TaskId, c: TaskId)
    ensures c in l.cancels ==> c in AfterStartCancel(l, d).cancels && AfterStartCancel(l, d).cancels[c] == l.cancels[c]
    ensures c !in l.cancels && c in AfterStartCancel(l, d).cancels ==> AfterStartCancel(l, d).cancels[c].pc.CheckClaimed?
  {
  }

  lemma DrainedCancel(l: Lane, d: TaskId, c: TaskId)
    ensures c in l.cancels ==> c in AfterDrainCancel(l, d).cancels && AfterDrainCancel(l, d).cancels[c] == l.cancels[c]
    ensures c !in l.cancels && c in AfterDrainCancel(l, d).cancels ==> AfterDrainCancel(l, d).cancels[c].pc.Drained?
  {
  }

  lemma OtherCancelStep(l: Lane, d: TaskId, choice: CancelChoice, c: TaskId)
    requires c != d
    ensures c in StepCancel(l, d, choice).cancels <==> c in l.cancels
    ensures c in l.cancels ==> StepCancel(l, d, choice).cancels[c] == l.cancels[c]
  {
  }

  /** Only its own steps move a cancel handler, and a new one is neither fetching nor purging. */
  lemma OtherSteps(l: Lane, step: Step, c: TaskId)
    requires !(step.RunCancel? && step.c == c)
    ensures c in l.cancels ==> c in Next(l, step).cancels && Next(l, step).cancels[c] == l.cancels[c]
    ensures c !in l.cancels && c in Next(l, step).cancels ==>
              Next(l, step).cancels[c].pc.CheckClaimed? || Next(l, step).cancels[c].pc.Drained?
  {
    if step.RunCancel? {
      OtherCancelStep(l, step.c, step.cancelChoice, c);
      assert Next(l, step) == Tick(StepCancel(l, step.c, step.cancelChoice));
    } else if step.StartCancel? {
      StartedCancel(l, step.c, c);
      assert Next(l, step) == Tick(AfterStartCancel(l, step.c));
    } else if step.DrainCancel? {
      DrainedCancel(l, step.c, c);
      assert Next(l, step) == Tick(AfterDrainCancel(l, step.c));
    } else {
      NoCancelStep(l, step);
    }
  }

  lemma OwnMove(cancel: Cancel, v: View, choice: CancelChoice, m: MsgId)
    ensures var pc := CancelMoveOf(cancel, v, choice).cancel.pc;
            && (pc.Fetch? ==> cancel.pc.AddDeny? || cancel.pc.Fetch?)
            && (pc.Purge? && m in pc.todo ==>
                  || (cancel.pc.Purge? && m in cancel.pc.todo)
                  || (cancel.pc.Fetch? && choice.hasConsumer && choice.ok && m in choice.fetched))
  {
    match cancel.pc
    case CheckClaimed =>
    case AddDeny =>
    case Fetch =>
    case Purge(todo) =>
      assert todo != [] ==> forall x :: x in todo[1..] ==> x in todo;
    case _ =>
  }

  lemma OwnCancelStep(l: Lane, c: TaskId, choice: CancelChoice)
    requires CanCancel(l, c, choice)
    ensures c in Next(l, RunCancel(c, choice)).cancels
    ensures Next(l, RunCancel(c, choice)).cancels[c] == CancelMoveOf(l.cancels[c], ViewOf(l), choice).cancel
  {
  }

  lemma CancelStep(l: Lane, step: Step, c: TaskId, m: MsgId)
    ensures Fetching(Next(l, step), c) ==>
              Fetching(l, c) || (step.RunCancel? && step.c == c && Denies(l, step))
    ensures Purging(Next(l, step), c, m) ==>
              || Purging(l, c, m)
              || (step.RunCancel? && step.c == c && CanCancel(l, c, step.cancelChoice) && Fetching(l, c)
                  && step.cancelChoice.hasConsumer && step.cancelChoice.ok && m in step.cancelChoice.fetched)
  {
    if !(step.RunCancel? && step.c == c) {
      OtherSteps(l, step, c);
    } else if CanCancel(l, c, step.cancelChoice) {
      OwnCancelStep(l, c, step.cancelChoice);
      OwnMove(l.cancels[c], ViewOf(l), step.cancelChoice, m);
    } else {
      assert Next(l, step) == Tick(l);
    }
  }

  lemma {:induction false} FetchCause(steps: seq<Step>, c: TaskId) returns (i: nat)
    requires Fetching(Exec(Empty, steps), c)
    ensures InsertsAt(steps, i, c)
    decreases |steps|
  {
    i := |steps| - 1;
    Snoc(steps);
    CancelStep(At(steps, i), steps[i], c, 0);
    if Fetching(At(steps, i), c) {
      i := FetchCause(Front(steps), c);
      SamePast(steps, |steps| - 1, i);
    }
  }

  lemma {:induction false} FetchedCause(steps: seq<Step>, c: TaskId, m: MsgId) returns (i: nat)
    requires Purging(Exec(Empty, steps), c, m)
    ensures FetchesAt(steps, i, c, m)
    decreases |steps|
  {
    i := |steps| - 1;
    Snoc(steps);
    CancelStep(At(steps, i), steps[i], c, m);
    if Purging(At(steps, i), c, m) {
      i := FetchedCause(Front(steps), c, m);
      SamePast(steps, |steps| - 1, i);
    }
  }

  /** A message is purged only after the cancel deny-listed the id and then fetched it. */
  lemma PurgeCause(steps: seq<Step>, c: TaskId, m: MsgId) returns (j: nat, i: nat)
    requires Purging(Exec(Empty, steps), c, m)
    ensures j < i && InsertsAt(steps, j, c) && FetchesAt(steps, i, c, m)
  {
    i := FetchedCause(steps, c, m);
    j := FetchCause(steps[..i], c);
    SamePast(steps, i, j);
  }
}
