/** Where every step leads, and that the protocol gets somewhere: no goroutine runs for ever,
    every message that nothing stands in the way of can be forwarded and acked, whichever way
    it came, and a cancel that is acknowledged has purged what it fetched. */
module RoutingProgress {
  import opened Base
  import opened Routing
  import opened RoutingHistory
  import opened RoutingWindows

  // ------------------------------------------------------------ the next place

  /** A lookup that found a ready provider leads to the lock on every path; the others lead on,
      to the retry topic, back, or to an error, as each path's code says. */
  lemma AfterLookup(task: Task, v: View, choice: Choice)
    requires task.pc.Resolve?
    ensures var (next, r, path) := (MoveOf(task, v, choice).task.pc, choice.resolution, task.path);
            && (r.StoreError? ==> next.Nak?)
            && (r.Unavailable? ==> next.Ack?)
            && (r.Ready? ==> if choice.hasForwarder then next.Lock? else next.Ack?)
            && (r.Unhealthy? && (path.Live? || path.DrainMain?) ==> next.Publish?)
            && (r.Unhealthy? && path.RetryRoute? ==> next.Nak?)
            && (r.Unhealthy? && path.TransitionSame? ==> if choice.hasForwarder then next.Lock? else next.Ack?)
            && (r.NotFound? && (path.Live? || path.TransitionSame?) ==> next.Ack?)
            && (r.NotFound? && path.DrainMain? ==> next.Publish?)
            && (r.NotFound? && path.RetryRoute? ==> next.Nak?)
  {
  }

  /** The other places on the way to the provider. */
  lemma BeforeForward(task: Task, v: View, choice: Choice)
    ensures var mv := MoveOf(task, v, choice);
            var (next, denied) := (mv.task.pc, task.kind.Create? && v.denied);
            && (task.pc.Guard? ==>
                  if choice.delivery.Pass? then next.DenyCheck?
                  else if choice.delivery.MetadataError? then next.Nak? else next.Term?)
            && (task.pc.DenyCheck? ==> if denied then next.Ack? else next.Resolve?)
            && (task.pc.Lock? && !v.locked ==> next.Claim? && mv.lock.TakeLock?)
            && (task.pc.Lock? && v.locked ==> (if task.path.DrainMain? then next.Publish? else next.Nak?))
            && (task.pc.Claim? ==> next.Recheck? && mv.ledger.InsertEntry?)
            && (task.pc.Recheck? && !denied ==> next.Forward?)
            && (task.pc.Recheck? && denied ==> next.Undo? && mv.task.next.Ack?)
  {
    match task.pc
    case Guard =>
    case DenyCheck =>
    case Lock =>
    case Claim =>
    case Recheck =>
    case _ =>
  }

  /** From the provider call to the end. */
  lemma AfterForward(task: Task, v: View, choice: Choice)
    ensures var mv := MoveOf(task, v, choice);
            var next := mv.task.pc;
            && (task.pc.Forward? && choice.reply.Accepted? ==> next.Unlock? && mv.task.next.Ack?)
            && (task.pc.Forward? && choice.reply.Refused? ==> next.Undo? && mv.task.next.Ack?)
            && (task.pc.Forward? && choice.reply.Interrupted? ==>
                  next.Undo? && if task.path.DrainMain? then mv.task.next.Publish? else mv.task.next.Nak?)
            && (task.pc.Undo? ==>
                  next.Unlock? && mv.task.next == task.next && (mv.ledger.RemoveEntry? <==> task.newly))
            && (task.pc.Unlock? ==> next == task.next && mv.lock.ReleaseLock?)
            && (task.pc.Publish? ==>
                  if choice.publishOk then next.Ack? else if task.path.DrainMain? then next.Done? else next.Nak?)
            && (task.pc.Ack? || task.pc.Term? || task.pc.Nak? || task.pc.Done? ==> next.Done?)
  {
    match task.pc
    case Forward =>
    case Undo =>
    case Unlock =>
    case Publish =>
    case Ack =>
    case Term =>
    case Nak =>
    case Done =>
    case _ =>
  }

  // --------------------------------------------------------- goroutines come to an end

  /** How many steps a goroutine has left at most. */
  function Left(pc: PC): nat {
    match pc
    case Guard => 11
    case DenyCheck => 10
    case Resolve => 9
    case Lock => 8
    case Claim => 7
    case Recheck => 6
    case Forward => 5
    case Undo => 4
    case Unlock => 3
    case Publish => 2
    case Ack => 1
    case Term => 1
    case Nak => 1
    case Done => 0
  }

  predicate Leaving(task: Task) { task.next.Ack? || task.next.Nak? || task.next.Publish? }

  predicate Nearer(task: Task, next: Task) {
    Leaving(next) && (!task.pc.Done? ==> Left(next.pc) < Left(task.pc)) && (task.pc.Done? ==> next == task)
  }

  lemma EarlyStepsCount(task: Task, v: View, choice: Choice)
    requires Leaving(task)
    requires task.pc.Guard? || task.pc.DenyCheck? || task.pc.Resolve? || task.pc.Lock? || task.pc.Claim?
    ensures Nearer(task, MoveOf(task, v, choice).task)
  {
    match task.pc
    case Guard =>
    case DenyCheck =>
    case Resolve => AfterLookup(task, v, choice);
    case Lock =>
    case Claim =>
  }

  lemma CallStepsCount(task: Task, v: View, choice: Choice)
    requires Leaving(task) && (task.pc.Recheck? || task.pc.Forward? || task.pc.Undo? || task.pc.Unlock?)
    ensures Nearer(task, MoveOf(task, v, choice).task)
  {
    match task.pc
    case Recheck =>
    case Forward =>
    case Undo =>
    case Unlock =>
  }

  lemma LastStepsCount(task: Task, v: View, choice: Choice)
    requires Leaving(task)
    requires task.pc.Publish? || task.pc.Ack? || task.pc.Term? || task.pc.Nak? || task.pc.Done?
    ensures Nearer(task, MoveOf(task, v, choice).task)
  {
    match task.pc
    case Publish =>
    case Ack =>
    case Term =>
    case Nak =>
    case Done =>
  }

  /** Whatever the environment answers, every step of a goroutine brings it nearer its end. */
  lemma EveryStepCounts(task: Task, v: View, choice: Choice)
    requires Leaving(task)
    ensures Nearer(task, MoveOf(task, v, choice).task)
  {
    if task.pc.Recheck? || task.pc.Forward? || task.pc.Undo? || task.pc.Unlock? {
      CallStepsCount(task, v, choice);
    } else if task.pc.Publish? || task.pc.Ack? || task.pc.Term? || task.pc.Nak? || task.pc.Done? {
      LastStepsCount(task, v, choice);
    } else {
      EarlyStepsCount(task, v, choice);
    }
  }

  /** The steps of a run that goroutine `t` took. */
  ghost function Taken(steps: seq<Step>, t: TaskId): nat {
    if steps == [] then 0
    else Taken(Front(steps), t)
         + if RunsAt(steps, |steps| - 1, t) && !At(steps, |steps| - 1).tasks[t].pc.Done? then 1 else 0
  }

  lemma OneStepCounts(l: Lane, step: Step, t: TaskId)
    requires t in l.tasks && Leaving(l.tasks[t])
    ensures t in Next(l, step).tasks
    ensures if Steps(l, step, t) then Nearer(l.tasks[t], Next(l, step).tasks[t])
            else Next(l, step).tasks[t] == l.tasks[t]
  {
    if Steps(l, step, t) {
      OwnTaskStep(l, t, step.choice);
      EveryStepCounts(l.tasks[t], ViewOf(l), step.choice);
    } else {
      OthersLeaveTask(l, step, t);
    }
  }

  /** No goroutine ever takes more than eleven steps. */
  lemma {:induction false} GoroutinesEnd(steps: seq<Step>, t: TaskId)
    ensures t !in Exec(Empty, steps).tasks ==> Taken(steps, t) == 0
    ensures t in Exec(Empty, steps).tasks ==>
              Leaving(Exec(Empty, steps).tasks[t]) && Taken(steps, t) + Left(Exec(Empty, steps).tasks[t].pc) <= 11
  {
    if steps != [] {
      var l := At(steps, |steps| - 1);
      Snoc(steps);
      GoroutinesEnd(Front(steps), t);
      if t in l.tasks {
        OneStepCounts(l, steps[|steps| - 1], t);
      } else if t in Exec(Empty, steps).tasks {
        NewTaskStep(l, steps[|steps| - 1], t);
      }
    }
  }

  // --------------------------------------------------- messages can be forwarded

  lemma AtUnlock(l: Lane, t: TaskId)
    requires t in l.tasks && l.tasks[t].pc.Unlock? && l.tasks[t].next.Ack?
    ensures var l' := Next(l, RunTask(t, GoOn));
            && t in l'.tasks && l'.tasks[t].pc.Ack? && l'.tasks[t].mid == l.tasks[t].mid
            && !l'.locked && l'.forwarded == l.forwarded
  {
  }

  lemma AtAck(l: Lane, t: TaskId)
    requires t in l.tasks && l.tasks[t].pc.Ack?
    ensures var l' := Next(l, RunTask(t, GoOn));
            && t in l'.tasks && l'.tasks[t].pc.Done? && l.tasks[t].mid in l'.settled
            && l'.locked == l.locked && l'.forwarded == l.forwarded
  {
  }

  lemma Released(l: Lane, t: TaskId)
    requires t in l.tasks && l.tasks[t].pc.Unlock? && l.tasks[t].next.Ack?
    ensures var l' := Exec(l, [RunTask(t, GoOn), RunTask(t, GoOn)]);
            && t in l'.tasks && l'.tasks[t].pc.Done? && !l'.locked
            && l'.forwarded == l.forwarded && l.tasks[t].mid in l'.settled
  {
    AtUnlock(l, t);
    AtAck(Next(l, RunTask(t, GoOn)), t);
    Two(l, RunTask(t, GoOn), RunTask(t, GoOn));
  }

  /** From every reachable state, a task of any path that is not denied and finds the lock free
      can be run until its provider has accepted it and its message is acked. */
  lemma TaskCanSucceed(steps: seq<Step>, t: TaskId) returns (more: seq<Step>)
    requires var l := Exec(Empty, steps);
             && t in l.tasks && (l.tasks[t].pc.Guard? || l.tasks[t].pc.DenyCheck?)
             && (l.tasks[t].kind.Create? ==> !l.denied) && !l.locked
    ensures var (l, l') := (Exec(Empty, steps), Exec(Empty, steps + more));
            && t in l'.forwarded && t in l'.tasks && l'.tasks[t].pc.Done?
            && l.tasks[t].mid in l'.settled && !l'.locked
  {
    var l := Exec(Empty, steps);
    var go := GoThrough(l, t);
    var done := [RunTask(t, GoOn), RunTask(t, GoOn)];
    Released(Exec(l, go), t);
    Concat(l, go, done);
    more := go + done;
    Concat(Empty, steps, more);
  }

  predicate Comes(stream: Stream, path: Path) { stream.Main? <==> path.Live? || path.DrainMain? }

  lemma Starts(l: Lane, m: MsgId, path: Path, t: TaskId)
    requires m in l.msgs && t !in l.tasks && Comes(l.msgs[m].stream, path)
    ensures var l' := Next(l, Deliver(t, path, m));
            && t in l'.tasks && l'.tasks[t].mid == m && l'.tasks[t].kind == l.msgs[m].kind
            && (if path.Live? then l'.tasks[t].pc.Guard? else l'.tasks[t].pc.DenyCheck?)
            && l'.denied == l.denied && l'.locked == l.locked
  {
  }

  /** Every message of either stream, delivered along any path of its stream while it is not
      denied and the lock is free, can be forwarded and acked. */
  lemma MessageCanSucceed(steps: seq<Step>, m: MsgId, path: Path, t: TaskId) returns (more: seq<Step>)
    requires var l := Exec(Empty, steps);
             && m in l.msgs && t !in l.tasks && Comes(l.msgs[m].stream, path)
             && (l.msgs[m].kind.Create? ==> !l.denied) && !l.locked
    ensures var l' := Exec(Empty, steps + more); t in l'.forwarded && m in l'.settled && !l'.locked
  {
    var deliver := [Deliver(t, path, m)];
    Starts(Exec(Empty, steps), m, path, t);
    One(Exec(Empty, steps), Deliver(t, path, m));
    Concat(Empty, steps, deliver);
    var rest := TaskCanSucceed(steps + deliver, t);
    more := deliver + rest;
    assert steps + deliver + rest == steps + more;
  }

  // -------------------------------------------------------------------- cancels

  /** Where a cancel handler's steps lead: it is rejected exactly when the ledger holds the id,
      deny-lists otherwise, and is acknowledged only without a retry consumer or after every
      fetched message was purged without an error. */
  lemma CancelPlaces(cancel: Cancel, v: View, choice: CancelChoice)
    ensures var mv := CancelMoveOf(cancel, v, choice);
            var next := mv.cancel.pc;
            && (cancel.pc.CheckClaimed? ==> if v.claimed then next.Rejected? else next.AddDeny?)
            && (mv.inserts <==> cancel.pc.AddDeny?) && (cancel.pc.AddDeny? ==> next.Fetch?)
            && (cancel.pc.Fetch? ==>
                  if !choice.hasConsumer then next.Acked?
                  else if choice.ok then next == Purge(choice.fetched) else next.Failed?)
            && (cancel.pc.Purge? && cancel.pc.todo == [] ==> mv.purges.None? && if choice.ok then next.Acked? else next.Failed?)
            && (cancel.pc.Purge? && cancel.pc.todo != [] ==>
                  && mv.purges == Some(cancel.pc.todo[0])
                  && if choice.ok then next == Purge(cancel.pc.todo[1..]) else next.Failed?)
            && (cancel.pc.Rejected? || cancel.pc.Acked? || cancel.pc.Failed? || cancel.pc.Drained? ==>
                  next == cancel.pc && mv.purges.None?)
  {
    match cancel.pc
    case CheckClaimed =>
    case AddDeny =>
    case Fetch =>
    case Purge(todo) =>
    case _ =>
  }

  /** Step `j` is cancel `c`'s purge of `m`, without an error. */
  ghost predicate PurgesAt(steps: seq<Step>, j: nat, c: TaskId, m: MsgId) {
    SettlesAt(steps, j, m) && steps[j].RunCancel? && steps[j].c == c && steps[j].cancelChoice.ok
  }

  ghost predicate Handled(steps: seq<Step>, l: Lane, c: TaskId, m: MsgId) {
    c in l.cancels && (Purging(l, c, m) || l.cancels[c].pc.Failed? || exists j: nat :: PurgesAt(steps, j, c, m))
  }

  lemma HandledStays(steps: seq<Step>, l: Lane, c: TaskId, m: MsgId)
    requires steps != [] && Handled(Front(steps), l, c, m)
    ensures Handled(steps, l, c, m)
  {
    if j: nat :| PurgesAt(Front(steps), j, c, m) {
      SamePast(steps, |steps| - 1, j);
      assert PurgesAt(steps, j, c, m);
    }
  }

  /** A cancel's own step keeps `m` on its list, fails, or purges it. */
  lemma OwnPurgeStep(l: Lane, c: TaskId, choice: CancelChoice, m: MsgId)
    requires CanCancel(l, c, choice) && (Purging(l, c, m) || l.cancels[c].pc.Failed?)
    ensures var l' := Next(l, RunCancel(c, choice));
            && c in l'.cancels
            && (Purging(l', c, m) || l'.cancels[c].pc.Failed? || (choice.ok && Settles(l, RunCancel(c, choice), m)))
  {
    OwnCancelStep(l, c, choice);
    CancelPlaces(l.cancels[c], ViewOf(l), choice);
    if Purging(l, c, m) {
      var todo := l.cancels[c].pc.todo;
      assert todo == [todo[0]] + todo[1..];
    }
  }

  /** The steps that leave a cancel handler where it is. */
  lemma CancelRests(l: Lane, step: Step, c: TaskId)
    requires c in l.cancels && !(step.RunCancel? && step.c == c && CanCancel(l, c, step.cancelChoice))
    ensures c in Next(l, step).cancels && Next(l, step).cancels[c] == l.cancels[c]
  {
    if !(step.RunCancel? && step.c == c) {
      OtherSteps(l, step, c);
    }
  }

  lemma CancelStays(l: Lane, step: Step, c: TaskId)
    requires c in l.cancels
    ensures c in Next(l, step).cancels
  {
    if step.RunCancel? && step.c == c && CanCancel(l, c, step.cancelChoice) {
      OwnCancelStep(l, c, step.cancelChoice);
    } else {
      CancelRests(l, step, c);
    }
  }

  lemma AnyPurgeStep(l: Lane, step: Step, c: TaskId, m: MsgId)
    requires c in l.cancels && (Purging(l, c, m) || l.cancels[c].pc.Failed?)
    ensures var l' := Next(l, step);
            && c in l'.cancels
            && (|| Purging(l', c, m) || l'.cancels[c].pc.Failed?
                || (step.RunCancel? && step.c == c && step.cancelChoice.ok && Settles(l, step, m)))
  {
    if step.RunCancel? && step.c == c && CanCancel(l, c, step.cancelChoice) {
      OwnPurgeStep(l, c, step.cancelChoice, m);
    } else {
      CancelRests(l, step, c);
    }
  }

  lemma PurgeStep(steps: seq<Step>, c: TaskId, m: MsgId)
    requires steps != [] && Handled(steps, At(steps, |steps| - 1), c, m)
    ensures Handled(steps, Exec(Empty, steps), c, m)
  {
    var (n, l, step) := (|steps| - 1, At(steps, |steps| - 1), steps[|steps| - 1]);
    Snoc(steps);
    CancelStays(l, step, c);
    if Purging(l, c, m) || l.cancels[c].pc.Failed? {
      AnyPurgeStep(l, step, c, m);
      if step.RunCancel? && step.c == c && step.cancelChoice.ok && Settles(l, step, m) {
        assert PurgesAt(steps, n, c, m);
      }
    }
  }

  lemma {:induction false} FetchedIsHandled(steps: seq<Step>, i: nat, c: TaskId, m: MsgId)
    requires FetchesAt(steps, i, c, m)
    ensures Handled(steps, Exec(Empty, steps), c, m)
    decreases |steps|
  {
    var n := |steps| - 1;
    Snoc(steps);
    if i < n {
      SamePast(steps, n, i);
      FetchedIsHandled(Front(steps), i, c, m);
      HandledStays(steps, At(steps, n), c, m);
      PurgeStep(steps, c, m);
    } else {
      OwnCancelStep(At(steps, n), c, steps[n].cancelChoice);
      CancelPlaces(At(steps, n).cancels[c], ViewOf(At(steps, n)), steps[n].cancelChoice);
    }
  }

  /** An acknowledged cancel has purged, without an error, every message of its id that it
      fetched from the retry stream. */
  lemma AckedCancelPurgedAll(steps: seq<Step>, i: nat, c: TaskId, m: MsgId) returns (j: nat)
    requires FetchesAt(steps, i, c, m)
    requires c in Exec(Empty, steps).cancels && Exec(Empty, steps).cancels[c].pc.Acked?
    ensures PurgesAt(steps, j, c, m)
  {
    FetchedIsHandled(steps, i, c, m);
    j :| PurgesAt(steps, j, c, m);
  }

  // ------------------------------------------------------- cancels can succeed

  lemma PurgeOne(l: Lane, c: TaskId, choice: CancelChoice)
    requires CanCancel(l, c, choice) && l.cancels[c].pc.Purge? && choice.ok
    ensures var l' := Next(l, RunCancel(c, choice));
            && c in l'.cancels && l'.msgs == l.msgs && l'.denied == l.denied
            && (forall m :: m in l.settled ==> m in l'.settled)
            && if l.cancels[c].pc.todo == [] then l'.cancels[c].pc.Acked?
               else l'.cancels[c].pc == Purge(l.cancels[c].pc.todo[1..]) && l.cancels[c].pc.todo[0] in l'.settled
  {
    OwnCancelStep(l, c, choice);
    CancelPlaces(l.cancels[c], ViewOf(l), choice);
  }

  lemma {:induction false} PurgeAll(l: Lane, c: TaskId, choice: CancelChoice) returns (steps: seq<Step>)
    requires CanCancel(l, c, choice) && l.cancels[c].pc.Purge? && choice.ok
    ensures var l' := Exec(l, steps);
            && c in l'.cancels && l'.cancels[c].pc.Acked? && l'.denied == l.denied
            && (forall m :: m in l.settled || m in l.cancels[c].pc.todo ==> m in l'.settled)
    decreases |l.cancels[c].pc.todo|
  {
    PurgeOne(l, c, choice);
    One(l, RunCancel(c, choice));
    var (l1, todo) := (Next(l, RunCancel(c, choice)), l.cancels[c].pc.todo);
    steps := [RunCancel(c, choice)];
    if todo != [] {
      var rest := PurgeAll(l1, c, choice);
      Concat(l, steps, rest);
      assert todo == [todo[0]] + todo[1..];
      steps := steps + rest;
    }
  }

  lemma LookOne(l: Lane, c: TaskId, choice: CancelChoice)
    requires CanCancel(l, c, choice) && l.cancels[c].pc.CheckClaimed? && !l.claimed
    ensures var l' := Next(l, RunCancel(c, choice));
            CanCancel(l', c, choice) && l'.cancels[c].pc.AddDeny? && l'.settled == l.settled
  {
  }

  lemma DenyOne(l: Lane, c: TaskId, choice: CancelChoice)
    requires CanCancel(l, c, choice) && l.cancels[c].pc.AddDeny?
    ensures var l' := Next(l, RunCancel(c, choice));
            CanCancel(l', c, choice) && l'.cancels[c].pc.Fetch? && l'.denied && l'.settled == l.settled
  {
  }

  lemma LookAndDeny(l: Lane, c: TaskId, choice: CancelChoice)
    requires CanCancel(l, c, choice) && l.cancels[c].pc.CheckClaimed? && !l.claimed
    ensures var l' := Exec(l, [RunCancel(c, choice), RunCancel(c, choice)]);
            && CanCancel(l', c, choice) && l'.cancels[c].pc.Fetch? && l'.denied && l'.settled == l.settled
  {
    LookOne(l, c, choice);
    DenyOne(Next(l, RunCancel(c, choice)), c, choice);
    Two(l, RunCancel(c, choice), RunCancel(c, choice));
  }

  lemma FetchOne(l: Lane, c: TaskId, choice: CancelChoice)
    requires CanCancel(l, c, choice) && l.cancels[c].pc.Fetch? && choice.hasConsumer && choice.ok
    ensures var l' := Next(l, RunCancel(c, choice));
            CanCancel(l', c, choice) && l'.cancels[c].pc == Purge(choice.fetched) && l'.denied == l.denied
  {
  }

  /** From every reachable state in which the ledger does not hold the id, a cancel can be run
      until it is acknowledged, with the id deny-listed and every retry message it gets purged. */
  lemma CancelCanSucceed(steps: seq<Step>, c: TaskId, fetched: seq<MsgId>) returns (more: seq<Step>)
    requires var l := Exec(Empty, steps);
             c in l.cancels && l.cancels[c].pc.CheckClaimed? && !l.claimed && OnRetryStream(l, fetched)
    ensures var l' := Exec(Empty, steps + more);
            && c in l'.cancels && l'.cancels[c].pc.Acked? && l'.denied
            && forall m :: m in fetched ==> m in l'.settled
  {
    var choice := CancelChoice(true, true, fetched);
    var l := Exec(Empty, steps);
    var look := [RunCancel(c, choice), RunCancel(c, choice)];
    LookAndDeny(l, c, choice);
    var l1 := Exec(l, look);
    FetchOne(l1, c, choice);
    One(l1, RunCancel(c, choice));
    Concat(l, look, [RunCancel(c, choice)]);
    var rest := PurgeAll(Next(l1, RunCancel(c, choice)), c, choice);
    Concat(l, look + [RunCancel(c, choice)], rest);
    more := look + [RunCancel(c, choice)] + rest;
    Concat(Empty, steps, more);
  }
}
