/** When the agent may ack or terminate a create or delete message: only once its outcome
    is decided or a copy of it is on the retry stream.  Everything is said of the steps of
    the run: where a goroutine stood, what it saw, and what the environment answered. */
module RoutingSettlement {
  import opened Base
  import opened Routing
  import opened RoutingHistory
  import Ledger = RoutingLedger
  import Race = RoutingRace

  predicate FromMain(path: Path) { path.Live? || path.DrainMain? }

  // -------------------------------------------------- what a step may conclude

  /** The provider lookup ends the request with an error: no provider to send to, or none
      that could be called.  A store error is not among these. */
  predicate Rejected(path: Path, r: Resolution, hasForwarder: bool) {
    || r.Unavailable?
    || (r.NotFound? && (path.Live? || path.TransitionSame?))
    || (!hasForwarder && (r.Ready? || (r.Unhealthy? && path.TransitionSame?)))
  }

  /** At this place, seeing this, with this answer, the message's outcome is `o`. */
  predicate Decides(task: Task, v: View, choice: Choice, o: Outcome) {
    match o
    case Forwarded => task.pc.Forward? && choice.reply.Accepted?
    case TerminalError =>
      || (task.pc.Guard? && choice.delivery.Exceeded?)
      || (task.pc.Resolve? && Rejected(task.path, choice.resolution, choice.hasForwarder))
      || (task.pc.Forward? && choice.reply.Refused?)
    case Denied => (task.pc.DenyCheck? || task.pc.Recheck?) && task.kind.Create? && v.denied
    case Deduplicated => false
  }

  /** The attempt failed for a reason that must not settle the message. */
  predicate Fails(task: Task, v: View, choice: Choice) {
    || (task.pc.Guard? && choice.delivery.MetadataError?)
    || (task.pc.Resolve? && choice.resolution.StoreError?)
    || (task.pc.Lock? && v.locked)
    || (task.pc.Forward? && choice.reply.Interrupted?)
    || (task.pc.Publish? && !choice.publishOk)
  }

  // ---------------------------------------------------------- goroutine records

  /** Before its provider call has ended. */
  predicate Early(pc: PC) {
    pc.Guard? || pc.DenyCheck? || pc.Resolve? || pc.Lock? || pc.Claim? || pc.Recheck? || pc.Forward?
  }

  /** What a goroutine's own record says about where it can be. */
  predicate Shape(task: Task) {
    && (task.verdict.Some? ==> Race.Concluding(task) && !task.fault)
    && (Early(task.pc) ==> !task.fault && task.next.Nak?)
    && (task.pc.Ack? ==> task.verdict.Some? || task.copy.Some?)
    && (task.pc.Term? ==> task.verdict.Some?)
    && (Ledger.InSection(task.pc) && task.next.Ack? ==> task.verdict.Some?)
    && (task.next.Ack? || task.next.Nak? || task.next.Publish?)
    && (task.pc.Publish? || task.next.Publish? || task.copy.Some? ==> FromMain(task.path))
    && (task.copy.Some? ==> task.pc.Ack? || task.pc.Done?)
  }

  /** How a step changes that record: the verdict, the fault and the copy are exactly what
      the step's circumstances call for. */
  predicate Sound(task: Task, v: View, choice: Choice, mv: Move) {
    && mv.task.mid == task.mid && mv.task.kind == task.kind && mv.task.path == task.path
    && Shape(mv.task)
    && (mv.task.verdict.Some? ==> mv.task.verdict == task.verdict || Decides(task, v, choice, mv.task.verdict.value))
    && (task.verdict.Some? ==> mv.task.verdict == task.verdict)
    && (forall o :: Decides(task, v, choice, o) ==> mv.task.verdict == Some(o))
    && (mv.task.fault <==> task.fault || Fails(task, v, choice))
    && (mv.copy.Some? <==> task.pc.Publish? && choice.publishOk)
    && (mv.copy.Some? ==> mv.copy == Some(choice.copyId) && mv.task.copy == mv.copy)
    && (mv.copy.None? ==> mv.task.copy == task.copy)
  }

  /** Before the lock is taken. */
  predicate Opening(pc: PC) { pc.Guard? || pc.DenyCheck? || pc.Resolve? || pc.Lock? }

  lemma OpeningMovesAreSound(task: Task, v: View, choice: Choice)
    requires Shape(task) && Opening(task.pc)
    ensures Sound(task, v, choice, MoveOf(task, v, choice))
  {
    match task.pc
    case Guard =>
    case DenyCheck =>
    case Resolve =>
    case Lock =>
  }

  lemma EarlyMovesAreSound(task: Task, v: View, choice: Choice)
    requires Shape(task) && Early(task.pc) && !Opening(task.pc)
    ensures Sound(task, v, choice, MoveOf(task, v, choice))
  {
    match task.pc
    case Claim =>
    case Recheck =>
    case Forward =>
  }

  lemma LateMovesAreSound(task: Task, v: View, choice: Choice)
    requires Shape(task) && !Early(task.pc)
    ensures Sound(task, v, choice, MoveOf(task, v, choice))
  {
    match task.pc
    case Undo =>
    case Unlock =>
    case Publish =>
    case Ack =>
    case Term =>
    case Nak =>
    case Done =>
  }

  lemma MovesAreSound(task: Task, v: View, choice: Choice)
    requires Shape(task)
    ensures Sound(task, v, choice, MoveOf(task, v, choice))
  {
    if Opening(task.pc) {
      OpeningMovesAreSound(task, v, choice);
    } else if Early(task.pc) {
      EarlyMovesAreSound(task, v, choice);
    } else {
      LateMovesAreSound(task, v, choice);
    }
  }

  // ---------------------------------------------------------------- invariant

  ghost predicate TaskOk(l: Lane, t: TaskId)
    requires t in l.tasks
  {
    var task := l.tasks[t];
    && Shape(task)
    && task.mid in l.msgs && l.msgs[task.mid].kind == task.kind
    && (l.msgs[task.mid].stream.Main? <==> FromMain(task.path))
    && (task.copy.Some? ==> task.copy.value in l.msgs && l.msgs[task.copy.value] == Message(task.kind, Retry))
  }

  ghost predicate Inv(l: Lane) { forall t :: t in l.tasks ==> TaskOk(l, t) }

  /** Messages are only added and keep their contents. */
  ghost predicate Grows(l: Lane, l': Lane) {
    forall m :: m in l.msgs ==> m in l'.msgs && l'.msgs[m] == l.msgs[m]
  }

  lemma RunTaskKeeps(l: Lane, t: TaskId, choice: Choice)
    requires Inv(l)
    ensures Inv(StepTask(l, t, choice)) && Grows(l, StepTask(l, t, choice))
  {
    if CanRun(l, t, choice) {
      var l' := StepTask(l, t, choice);
      assert TaskOk(l, t);
      MovesAreSound(l.tasks[t], ViewOf(l), choice);
      assert Grows(l, l');
      forall x | x in l'.tasks ensures TaskOk(l', x) {
        assert TaskOk(l, x);
      }
    }
  }

  lemma AddTaskKeeps(l: Lane, t: TaskId, task: Task)
    requires Inv(l) && t !in l.tasks && TaskOk(Set(l, t, task), t)
    ensures Inv(Set(l, t, task)) && Grows(l, Set(l, t, task))
  {
    forall x | x in Set(l, t, task).tasks ensures TaskOk(Set(l, t, task), x) {
      assert x != t ==> TaskOk(l, x);
    }
  }

  lemma PassiveKeeps(l: Lane, l': Lane)
    requires Inv(l) && Grows(l, l') && l'.tasks == l.tasks
    ensures Inv(l')
  {
    forall t | t in l'.tasks ensures TaskOk(l', t) {
      assert TaskOk(l, t);
    }
  }

  lemma DeliverKeeps(l: Lane, t: TaskId, path: Path, m: MsgId)
    requires Inv(l)
    ensures Inv(AfterDeliver(l, t, path, m)) && Grows(l, AfterDeliver(l, t, path, m))
  {
    if AfterDeliver(l, t, path, m) != l {
      AddTaskKeeps(l, t, NewTask(path, m, l.msgs[m].kind));
    }
  }

  lemma DedupKeeps(l: Lane, t: TaskId, m: MsgId, partner: MsgId)
    requires Inv(l)
    ensures Inv(AfterDedup(l, t, m, partner)) && Grows(l, AfterDedup(l, t, m, partner))
  {
    if AfterDedup(l, t, m, partner) != l {
      AddTaskKeeps(l, t, DedupTask(m, l.msgs[m].kind));
    }
  }

  lemma ArriveGrows(l: Lane, m: MsgId, message: Message)
    ensures Grows(l, AfterArrive(l, m, message))
  {
  }

  lemma ArriveKeeps(l: Lane, m: MsgId, message: Message)
    requires Inv(l)
    ensures Inv(AfterArrive(l, m, message)) && Grows(l, AfterArrive(l, m, message))
  {
    ArriveGrows(l, m, message);
    PassiveKeeps(l, AfterArrive(l, m, message));
  }

  lemma EffectKeeps(l: Lane, step: Step)
    requires Inv(l)
    ensures Inv(Effect(l, step)) && Grows(l, Effect(l, step))
  {
    match step
    case RunTask(t, choice) => RunTaskKeeps(l, t, choice);
    case Deliver(t, path, m) => DeliverKeeps(l, t, path, m);
    case Dedup(t, m, partner) => DedupKeeps(l, t, m, partner);
    case Arrive(m, message) => ArriveKeeps(l, m, message);
    case RunCancel(c, choice) =>
      CancelsKeep(l, c, choice);
      PassiveKeeps(l, StepCancel(l, c, choice));
    case StartCancel(c) =>
      CancelsKeep(l, c, CancelChoice(false, false, []));
      PassiveKeeps(l, AfterStartCancel(l, c));
    case DrainCancel(c) =>
      CancelsKeep(l, c, CancelChoice(false, false, []));
      PassiveKeeps(l, AfterDrainCancel(l, c));
    case EvictClaim => PassiveKeeps(l, l.(claimed := false, claimLost := true));
    case EvictDeny => PassiveKeeps(l, l.(denied := false, denyLost := true));
  }

  lemma NextKeeps(l: Lane, step: Step)
    requires Inv(l)
    ensures Inv(Next(l, step)) && Grows(l, Next(l, step))
  {
    EffectKeeps(l, step);
    PassiveKeeps(Effect(l, step), Next(l, step));
  }

  lemma {:induction false} Reached(steps: seq<Step>)
    ensures Inv(Exec(Empty, steps))
  {
    if steps != [] {
      Snoc(steps);
      Reached(Front(steps));
      NextKeeps(Exec(Empty, Front(steps)), steps[|steps| - 1]);
    }
  }

  lemma {:induction false} GrowsAlong(steps: seq<Step>, i: nat)
    requires i <= |steps|
    ensures Grows(At(steps, i), Exec(Empty, steps))
    decreases |steps|
  {
    if i == |steps| {
      assert steps[..i] == steps;
    } else {
      Snoc(steps);
      Reached(Front(steps));
      SamePast(steps, |steps| - 1, i);
      GrowsAlong(Front(steps), i);
      NextKeeps(Exec(Empty, Front(steps)), steps[|steps| - 1]);
    }
  }

  // ------------------------------------------------------- causes of the records

  /** A goroutine starts without a verdict, a fault or a copy, unless deduplication made it. */
  lemma NewTaskIsBlank(l: Lane, step: Step, t: TaskId)
    requires t !in l.tasks && t in Next(l, step).tasks
    ensures var task := Next(l, step).tasks[t];
            && !task.fault && task.copy.None?
            && (task.verdict.Some? ==>
                  && step.Dedup? && step.t == t && task.mid == step.m && task.verdict == Some(Deduplicated)
                  && Partners(l, step.m, step.partner))
  {
    NewTaskStep(l, step, t);
  }

  /** What a goroutine's own step does to it. */
  lemma OwnStepIsSound(l: Lane, step: Step, t: TaskId)
    requires Inv(l) && Steps(l, step, t)
    ensures t in Next(l, step).tasks
    ensures Next(l, step).tasks[t] == MoveOf(l.tasks[t], ViewOf(l), step.choice).task
    ensures Sound(l.tasks[t], ViewOf(l), step.choice, MoveOf(l.tasks[t], ViewOf(l), step.choice))
  {
    assert TaskOk(l, t);
    OwnTaskStep(l, t, step.choice);
    MovesAreSound(l.tasks[t], ViewOf(l), step.choice);
  }

  /** Step `i` decides that `m`'s outcome is `o`. */
  ghost predicate ConcludesAt(steps: seq<Step>, i: nat, m: MsgId, o: Outcome) {
    && i < |steps|
    && var l := At(steps, i);
       match steps[i]
       case RunTask(t, choice) =>
         CanRun(l, t, choice) && l.tasks[t].mid == m && Decides(l.tasks[t], ViewOf(l), choice, o)
       case Dedup(t, m', partner) =>
         t !in l.tasks && m' == m && o.Deduplicated? && Partners(l, m, partner)
       case _ => false
  }

  lemma {:induction false} VerdictCause(steps: seq<Step>, t: TaskId, o: Outcome) returns (i: nat)
    requires t in Exec(Empty, steps).tasks && Exec(Empty, steps).tasks[t].verdict == Some(o)
    ensures ConcludesAt(steps, i, Exec(Empty, steps).tasks[t].mid, o)
    decreases |steps|
  {
    i := |steps| - 1;
    Snoc(steps);
    var l := At(steps, i);
    Reached(Front(steps));
    if t !in l.tasks {
      NewTaskIsBlank(l, steps[i], t);
    } else {
      if Steps(l, steps[i], t) {
        OwnStepIsSound(l, steps[i], t);
      } else {
        OthersLeaveTask(l, steps[i], t);
      }
      if l.tasks[t].verdict == Some(o) {
        i := VerdictCause(Front(steps), t, o);
        SamePast(steps, |steps| - 1, i);
      }
    }
  }

  /** Step `i` publishes `copy` of `m` to the retry stream. */
  ghost predicate CopiesAt(steps: seq<Step>, i: nat, m: MsgId, t: TaskId, copy: MsgId) {
    && RunsAt(steps, i, t) && At(steps, i).tasks[t].mid == m && At(steps, i).tasks[t].pc.Publish?
    && steps[i].choice.publishOk && steps[i].choice.copyId == copy
  }

  lemma {:induction false} CopyCause(steps: seq<Step>, t: TaskId) returns (i: nat)
    requires t in Exec(Empty, steps).tasks && Exec(Empty, steps).tasks[t].copy.Some?
    ensures var task := Exec(Empty, steps).tasks[t]; CopiesAt(steps, i, task.mid, t, task.copy.value)
    decreases |steps|
  {
    i := |steps| - 1;
    Snoc(steps);
    var l := At(steps, i);
    Reached(Front(steps));
    if t !in l.tasks {
      NewTaskIsBlank(l, steps[i], t);
    }
    if Steps(l, steps[i], t) {
      OwnStepIsSound(l, steps[i], t);
    } else {
      OthersLeaveTask(l, steps[i], t);
    }
    if !(Steps(l, steps[i], t) && l.tasks[t].pc.Publish? && steps[i].choice.publishOk) {
      i := CopyCause(Front(steps), t);
      SamePast(steps, |steps| - 1, i);
    }
  }

  // ------------------------------------------------------------ main theorems

  /** The outcome of `m` is decided by a step of the run.  A denial needs an earlier step of a
      cancel that put the id on the deny list. */
  ghost predicate Concluded(steps: seq<Step>, m: MsgId) {
    exists i: nat, o ::
      ConcludesAt(steps, i, m, o) && (o.Denied? ==> exists j: nat :: j < i && DeniesAt(steps, j))
  }

  /** A cancel deny-listed the id and then fetched `m` from the retry stream to purge it. */
  ghost predicate Purged(steps: seq<Step>, m: MsgId) {
    exists j: nat, i: nat, c :: j < i && InsertsAt(steps, j, c) && FetchesAt(steps, i, c, m)
  }

  ghost predicate Decided(steps: seq<Step>, m: MsgId) { Concluded(steps, m) || Purged(steps, m) }

  /** A step of the run published `copy`, of the same kind, to the retry stream. */
  ghost predicate CopiedTo(steps: seq<Step>, m: MsgId, copy: MsgId) {
    && (exists i: nat, t :: CopiesAt(steps, i, m, t, copy))
    && var l := Exec(Empty, steps);
       && m in l.msgs && copy in l.msgs
       && l.msgs[m].stream.Main? && l.msgs[copy] == Message(l.msgs[m].kind, Retry)
  }

  lemma VerdictIsConcluded(steps: seq<Step>, t: TaskId)
    requires t in Exec(Empty, steps).tasks && Exec(Empty, steps).tasks[t].verdict.Some?
    ensures Concluded(steps, Exec(Empty, steps).tasks[t].mid)
  {
    var o := Exec(Empty, steps).tasks[t].verdict.value;
    var i := VerdictCause(steps, t, o);
    assert ConcludesAt(steps, i, Exec(Empty, steps).tasks[t].mid, o);
    if o.Denied? {
      var j := DeniedCause(steps[..i]);
      SamePast(steps, i, j);
      assert DeniesAt(steps, j);
    }
  }

  lemma CopyIsThere(steps: seq<Step>, t: TaskId)
    requires t in Exec(Empty, steps).tasks && Exec(Empty, steps).tasks[t].copy.Some?
    ensures var task := Exec(Empty, steps).tasks[t]; CopiedTo(steps, task.mid, task.copy.value)
  {
    Reached(steps);
    assert TaskOk(Exec(Empty, steps), t);
    var i := CopyCause(steps, t);
  }

  /** In every run, a step that acks or terminates a message comes after a step that decided
      its outcome, or that published its copy to the retry stream. */
  lemma SettledOnlyWhenDecided(steps: seq<Step>, step: Step, m: MsgId)
    requires Settles(Exec(Empty, steps), step, m)
    ensures Decided(steps, m) || exists copy :: CopiedTo(steps, m, copy)
  {
    var l := Exec(Empty, steps);
    Reached(steps);
    if step.RunTask? {
      assert TaskOk(l, step.t);
      if l.tasks[step.t].verdict.Some? {
        VerdictIsConcluded(steps, step.t);
      } else {
        CopyIsThere(steps, step.t);
      }
    } else {
      var j, i := PurgeCause(steps, step.c, m);
    }
  }

  lemma {:induction false} FaultStays(steps: seq<Step>, i: nat, t: TaskId)
    requires i < |steps| && RunsAt(steps, i, t)
    requires Fails(At(steps, i).tasks[t], ViewOf(At(steps, i)), steps[i].choice)
    ensures t in Exec(Empty, steps).tasks && Exec(Empty, steps).tasks[t].fault
    decreases |steps|
  {
    var n := |steps| - 1;
    Snoc(steps);
    Reached(Front(steps));
    var l := At(steps, n);
    if i < n {
      SamePast(steps, n, i);
      FaultStays(Front(steps), i, t);
    }
    if Steps(l, steps[n], t) {
      OwnStepIsSound(l, steps[n], t);
    } else {
      OthersLeaveTask(l, steps[n], t);
    }
  }

  /** A goroutine that met a metadata error, a store error, an in-flight conflict, the end of
      its context or a failed publish never acks or terminates its message afterwards, unless
      it has itself published a copy to the retry stream. */
  lemma FailedAttemptsDoNotSettle(steps: seq<Step>, i: nat, t: TaskId, step: Step, m: MsgId)
    requires i < |steps| && RunsAt(steps, i, t)
    requires Fails(At(steps, i).tasks[t], ViewOf(At(steps, i)), steps[i].choice)
    requires step.RunTask? && step.t == t && Settles(Exec(Empty, steps), step, m)
    ensures exists k: nat, copy :: CopiesAt(steps, k, m, t, copy) && CopiedTo(steps, m, copy)
  {
    FaultStays(steps, i, t);
    Reached(steps);
    assert TaskOk(Exec(Empty, steps), t);
    CopyIsThere(steps, t);
    var k := CopyCause(steps, t);
  }

  /** A longer run has the same past. */
  lemma DecidedStays(steps: seq<Step>, n: nat, m: MsgId)
    requires n <= |steps| && Decided(steps[..n], m)
    ensures Decided(steps, m)
  {
    var past := steps[..n];
    if Concluded(past, m) {
      var i: nat, o :|
        ConcludesAt(past, i, m, o) && (o.Denied? ==> exists j: nat :: j < i && DeniesAt(past, j));
      SamePast(steps, n, i);
      assert ConcludesAt(steps, i, m, o);
      if o.Denied? {
        var j: nat :| j < i && DeniesAt(past, j);
        SamePast(steps, n, j);
        assert DeniesAt(steps, j);
      }
    } else {
      var j: nat, i: nat, c :| j < i && InsertsAt(past, j, c) && FetchesAt(past, i, c, m);
      SamePast(steps, n, j);
      SamePast(steps, n, i);
      assert InsertsAt(steps, j, c) && FetchesAt(steps, i, c, m);
    }
  }

  lemma CopiedStays(steps: seq<Step>, n: nat, m: MsgId, copy: MsgId)
    requires n <= |steps| && CopiedTo(steps[..n], m, copy)
    ensures CopiedTo(steps, m, copy)
  {
    var i: nat, t :| CopiesAt(steps[..n], i, m, t, copy);
    SamePast(steps, n, i);
    assert CopiesAt(steps, i, m, t, copy);
    GrowsAlong(steps, n);
  }

  lemma SettledIsAccounted(steps: seq<Step>, m: MsgId)
    requires m in Exec(Empty, steps).settled
    ensures Decided(steps, m) || exists copy :: CopiedTo(steps, m, copy)
  {
    var i := SettledCause(steps, m);
    SettledOnlyWhenDecided(steps[..i], steps[i], m);
    if Decided(steps[..i], m) {
      DecidedStays(steps, i, m);
    } else {
      var copy :| CopiedTo(steps[..i], m, copy);
      CopiedStays(steps, i, m, copy);
    }
  }

  /** No create or delete is ever lost: each is still unsettled, or decided, or its copy
      on the retry stream is unsettled or decided. */
  lemma NoMessageIsLost(steps: seq<Step>, m: MsgId)
    requires m in Exec(Empty, steps).msgs
    ensures || m !in Exec(Empty, steps).settled
            || Decided(steps, m)
            || exists copy :: CopiedTo(steps, m, copy) && (copy !in Exec(Empty, steps).settled || Decided(steps, copy))
  {
    if m in Exec(Empty, steps).settled && !Decided(steps, m) {
      SettledIsAccounted(steps, m);
      var copy :| CopiedTo(steps, m, copy);
      if copy in Exec(Empty, steps).settled {
        SettledIsAccounted(steps, copy);
      }
    }
  }
}
