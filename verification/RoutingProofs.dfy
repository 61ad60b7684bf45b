/** Mutual exclusion of forward attempts and the meaning of the claimed-resources
    ledger, for every run of a lane. */
module RoutingLedger {
  import opened Base
  import opened Routing

  /** Between taking and releasing the in-flight lock. */
  predicate InSection(pc: PC) { pc.Claim? || pc.Recheck? || pc.Forward? || pc.Undo? || pc.Unlock? }

  /** The attempt's ledger entry has been made and is neither confirmed nor undone yet. */
  predicate Pending(pc: PC) { pc.Recheck? || pc.Forward? || pc.Undo? }

  ghost predicate LockOk(l: Lane) {
    && (l.locked <==> l.holder.Some?)
    && (l.holder.Some? ==> l.holder.value in l.tasks && InSection(l.tasks[l.holder.value].pc))
    && (forall t :: t in l.tasks && InSection(l.tasks[t].pc) ==> l.holder == Some(t))
    && (forall t :: t in l.tasks ==> !InSection(l.tasks[t].next))
  }

  ghost predicate HolderPending(l: Lane) {
    l.holder.Some? && l.holder.value in l.tasks && Pending(l.tasks[l.holder.value].pc)
  }

  ghost predicate LedgerOk(l: Lane) {
    !l.claimLost ==>
      if HolderPending(l) then l.claimed && (l.tasks[l.holder.value].newly <==> l.forwarded == {})
      else l.claimed <==> l.forwarded != {}
  }

  ghost predicate Inv(l: Lane) { LockOk(l) && LedgerOk(l) }

  /** How a step treats the lock and the ledger, depending on where it starts and ends. */
  predicate Disciplined(task: Task, v: View, mv: Move) {
    var (pc, pc') := (task.pc, mv.task.pc);
    && (mv.lock.TakeLock? ==> !v.locked && !InSection(pc))
    && (mv.lock.ReleaseLock? ==> InSection(pc))
    && (InSection(pc') <==> mv.lock.TakeLock? || (InSection(pc) && !mv.lock.ReleaseLock?))
    && !InSection(mv.task.next)
    && (pc.Claim? ==> Pending(pc') && mv.ledger.InsertEntry? && mv.task.newly == !v.claimed && !mv.accepted)
    && (Pending(pc) && Pending(pc') ==> mv.ledger.NoLedger? && mv.task.newly == task.newly && !mv.accepted)
    && (Pending(pc) && !Pending(pc') ==>
          if mv.accepted then mv.ledger.NoLedger?
          else mv.ledger == if task.newly then RemoveEntry else NoLedger)
    && (!pc.Claim? && !Pending(pc) ==> !Pending(pc') && mv.ledger.NoLedger? && !mv.accepted)
  }

  lemma MovesAreDisciplined(task: Task, v: View, choice: Choice)
    requires !InSection(task.next)
    ensures Disciplined(task, v, MoveOf(task, v, choice))
  {
    if InSection(task.pc) {
      SectionMovesAreDisciplined(task, v, choice);
    } else {
      match task.pc
      case Guard =>
      case DenyCheck =>
      case Resolve =>
      case Lock =>
      case _ =>
    }
  }

  lemma SectionMovesAreDisciplined(task: Task, v: View, choice: Choice)
    requires !InSection(task.next) && InSection(task.pc)
    ensures Disciplined(task, v, MoveOf(task, v, choice))
  {
    match task.pc
    case Claim =>
    case Recheck =>
    case Forward =>
    case Undo =>
    case Unlock =>
  }

  lemma DisciplinedKeeps(l: Lane, t: TaskId, mv: Move)
    requires Inv(l) && t in l.tasks && Disciplined(l.tasks[t], ViewOf(l), mv)
    ensures Inv(ApplyMove(l, t, mv))
  {
  }

  lemma AddTaskKeeps(l: Lane, t: TaskId, task: Task)
    requires Inv(l) && t !in l.tasks && !InSection(task.pc) && !InSection(task.next)
    ensures Inv(Set(l, t, task))
  {
  }

  lemma CancelKeeps(l: Lane, c: TaskId, mv: CancelMove)
    requires Inv(l)
    ensures Inv(ApplyCancel(l, c, mv))
  {
  }

  lemma StepTaskKeeps(l: Lane, t: TaskId, choice: Choice)
    requires Inv(l)
    ensures Inv(StepTask(l, t, choice))
  {
    if t in l.tasks {
      MovesAreDisciplined(l.tasks[t], ViewOf(l), choice);
      DisciplinedKeeps(l, t, MoveOf(l.tasks[t], ViewOf(l), choice));
    }
  }

  lemma EffectKeeps(l: Lane, step: Step)
    requires Inv(l)
    ensures Inv(Effect(l, step))
  {
    match step
    case Arrive(m, message) =>
    case Deliver(t, path, m) =>
      if t !in l.tasks && m in l.msgs {
        AddTaskKeeps(l, t, NewTask(path, m, l.msgs[m].kind));
      }
    case RunTask(t, choice) => StepTaskKeeps(l, t, choice);
    case Dedup(t, m, partner) =>
      if t !in l.tasks && m in l.msgs {
        AddTaskKeeps(l, t, DedupTask(m, l.msgs[m].kind));
      }
    case StartCancel(c) => CancelKeeps(l, c, Goto(NewCancel, CheckClaimed));
    case RunCancel(c, choice) =>
      if c in l.cancels {
        CancelKeeps(l, c, CancelMoveOf(l.cancels[c], ViewOf(l), choice));
      }
    case DrainCancel(c) => CancelKeeps(l, c, InsertMove(NewCancel, ViewOf(l), Drained));
    case EvictClaim =>
    case EvictDeny =>
  }

  lemma NextKeeps(l: Lane, step: Step)
    requires Inv(l)
    ensures Inv(Next(l, step))
  {
    EffectKeeps(l, step);
    var l' := Effect(l, step);
    assert Inv(Tick(l')) by {
      assert Inv(l');
    }
  }

  lemma {:induction false} ExecKeeps(l: Lane, steps: seq<Step>)
    requires Inv(l)
    ensures Inv(Exec(l, steps))
    decreases |steps|
  {
    if steps != [] {
      NextKeeps(l, steps[0]);
      ExecKeeps(Next(l, steps[0]), steps[1..]);
    }
  }

  /** In every run at most one attempt for the id is between taking and releasing
      the in-flight lock, whichever topics the attempts come from, and the lock is
      held exactly while one is. */
  lemma OneAttemptAtATime(steps: seq<Step>, t: TaskId, u: TaskId)
    requires var l := Exec(Empty, steps);
             t in l.tasks && InSection(l.tasks[t].pc) && u in l.tasks && InSection(l.tasks[u].pc)
    ensures t == u
  {
    ExecKeeps(Empty, steps);
  }

  lemma LockedExactlyInSection(steps: seq<Step>)
    ensures var l := Exec(Empty, steps);
            l.locked <==> exists t :: t in l.tasks && InSection(l.tasks[t].pc)
  {
    ExecKeeps(Empty, steps);
  }

  /** Unless its entry was ever evicted, whenever no attempt holds the lock the id
      is in the ledger exactly when the provider accepted some earlier attempt:
      failed, interrupted and denied attempts leave no trace. */
  lemma LedgerMeansForwarded(steps: seq<Step>)
    requires !Exec(Empty, steps).claimLost && !Exec(Empty, steps).locked
    ensures Exec(Empty, steps).claimed <==> Exec(Empty, steps).forwarded != {}
  {
    ExecKeeps(Empty, steps);
  }

  /** While the provider is being called the id is always in the ledger, so a
      cancel arriving then is rejected. */
  lemma ClaimedDuringForward(steps: seq<Step>, t: TaskId)
    requires var l := Exec(Empty, steps);
             !l.claimLost && t in l.tasks && l.tasks[t].pc.Forward?
    ensures Exec(Empty, steps).claimed
  {
    ExecKeeps(Empty, steps);
  }
}

/** The race between a create and a cancel of the same id. */
module RoutingRace {
  import opened Base
  import opened Routing
  import opened RoutingHistory
  import Ledger = RoutingLedger

  /** The cancel looked at the ledger and did not find the id. */
  predicate Passed(pc: CancelPC) { pc.AddDeny? || pc.Fetch? || pc.Purge? || pc.Acked? || pc.Failed? }

  /** The cancel has put the id on the deny list. */
  predicate Inserted(pc: CancelPC) { pc.Fetch? || pc.Purge? || pc.Acked? || pc.Failed? || pc.Drained? }

  /** A task with a verdict only cleans up and settles its message. */
  predicate Concluding(task: Task) {
    || task.pc.Ack? || task.pc.Term? || task.pc.Done?
    || ((task.pc.Undo? || task.pc.Unlock?) && task.next.Ack?)
  }

  ghost predicate Committed(l: Lane, t: TaskId) {
    t in l.tasks && (l.tasks[t].pc.Recheck? || l.tasks[t].pc.Forward? || t in l.forwarded)
  }

  ghost predicate Rechecked(l: Lane, t: TaskId) {
    t in l.tasks && l.tasks[t].kind.Create? && (l.tasks[t].pc.Forward? || t in l.forwarded)
  }

  /** Some live create consumed the deny-list entry strictly between two moments. */
  ghost predicate ConsumedBetween(l: Lane, lo: nat, hi: nat) {
    exists q :: q in l.consumed && lo < q.at < hi
  }

  ghost predicate TaskOk(l: Lane, t: TaskId)
    requires t in l.tasks
  {
    && (l.tasks[t].verdict.Some? ==> Concluding(l.tasks[t]))
    && (t in l.forwarded ==> l.tasks[t].verdict == Some(Forwarded))
    && (Rechecked(l, t) ==> l.tasks[t].recheckedAt < l.now)
  }

  ghost predicate CancelOk(l: Lane, c: TaskId)
    requires c in l.cancels
  {
    && (Passed(l.cancels[c].pc) ==> l.cancels[c].checkedAt < l.now)
    && (Inserted(l.cancels[c].pc) ==> l.cancels[c].insertedAt < l.now)
    && (Inserted(l.cancels[c].pc) && !l.denyLost ==> l.denied || ConsumedBetween(l, l.cancels[c].insertedAt, l.now))
  }

  ghost predicate ConsumptionOk(l: Lane, q: Consumption) {
    && q.at < l.now && q.consumer in l.tasks
    && l.tasks[q.consumer].verdict == Some(Denied)
    && l.tasks[q.consumer].path.Live? && l.tasks[q.consumer].kind.Create?
  }

  ghost predicate PairOk(l: Lane, c: TaskId, t: TaskId)
    requires c in l.cancels && t in l.tasks
  {
    && (Passed(l.cancels[c].pc) && Committed(l, t) && !l.claimLost ==> l.cancels[c].checkedAt < l.tasks[t].claimedAt)
    && (Inserted(l.cancels[c].pc) && Rechecked(l, t) && !l.denyLost
        && l.cancels[c].insertedAt < l.tasks[t].recheckedAt ==>
          ConsumedBetween(l, l.cancels[c].insertedAt, l.tasks[t].recheckedAt))
    && (Inserted(l.cancels[c].pc) && Rechecked(l, t) ==> l.cancels[c].insertedAt != l.tasks[t].recheckedAt)
  }

  ghost predicate Inv(l: Lane) {
    && (forall t :: t in l.forwarded ==> t in l.tasks)
    && (forall t :: t in l.tasks ==> TaskOk(l, t))
    && (forall c :: c in l.cancels ==> CancelOk(l, c))
    && (forall q :: q in l.consumed ==> ConsumptionOk(l, q))
    && (forall c, t :: c in l.cancels && t in l.tasks ==> PairOk(l, c, t))
  }

  /** The facts about one task step that the race depends on. */
  predicate Timely(task: Task, v: View, mv: Move) {
    var (pc, pc') := (task.pc, mv.task.pc);
    && mv.task.kind == task.kind && mv.task.path == task.path
    && (task.verdict.Some? ==> mv.task.verdict == task.verdict)
    && (mv.task.verdict.Some? ==> Concluding(mv.task))
    && (pc'.Recheck? ==> pc.Claim? && mv.task.claimedAt == v.now)
    && (!pc'.Recheck? ==> mv.task.claimedAt == task.claimedAt)
    && (pc'.Forward? ==> pc.Recheck? && mv.task.recheckedAt == v.now && !Blocked(task, v))
    && (!pc.Recheck? ==> mv.task.recheckedAt == task.recheckedAt)
    && (mv.accepted ==> pc.Forward? && mv.task.verdict == Some(Forwarded))
    && (mv.deny.Consume? && v.denied ==>
          mv.task.verdict == Some(Denied) && task.path.Live? && task.kind.Create?)
  }

  lemma OpeningMovesAreTimely(task: Task, v: View, choice: Choice)
    requires task.verdict.Some? ==> Concluding(task)
    requires task.pc.Guard? || task.pc.DenyCheck? || task.pc.Resolve? || task.pc.Lock? || task.pc.Claim?
    ensures Timely(task, v, MoveOf(task, v, choice))
  {
    match task.pc
    case Guard =>
    case DenyCheck =>
    case Resolve =>
    case Lock =>
    case Claim =>
  }

  lemma MovesAreTimely(task: Task, v: View, choice: Choice)
    requires task.verdict.Some? ==> Concluding(task)
    requires !Ledger.InSection(task.next)
    ensures Timely(task, v, MoveOf(task, v, choice))
  {
    match task.pc
    case Guard => OpeningMovesAreTimely(task, v, choice);
    case DenyCheck => OpeningMovesAreTimely(task, v, choice);
    case Resolve => OpeningMovesAreTimely(task, v, choice);
    case Lock => OpeningMovesAreTimely(task, v, choice);
    case Claim => OpeningMovesAreTimely(task, v, choice);
    case Recheck =>
    case Forward =>
    case Undo =>
    case Unlock =>
    case Publish =>
    case Ack =>
    case Term =>
    case Nak =>
    case Done =>
  }

  // Task moves

  ghost function Moved(l: Lane, t: TaskId, mv: Move): Lane { Tick(ApplyMove(l, t, mv)) }

  ghost predicate Fits(l: Lane, t: TaskId, mv: Move) {
    t in l.tasks && TaskOk(l, t) && Timely(l.tasks[t], ViewOf(l), mv)
  }

  lemma MoveTask(l: Lane, t: TaskId, mv: Move, x: TaskId)
    requires Fits(l, t, mv) && x in l.tasks && TaskOk(l, x)
    ensures TaskOk(Moved(l, t, mv), x)
  {
  }

  lemma MoreConsumed(l: Lane, t: TaskId, mv: Move, lo: nat, hi: nat)
    requires ConsumedBetween(l, lo, hi)
    ensures ConsumedBetween(Moved(l, t, mv), lo, hi) && ConsumedBetween(Moved(l, t, mv), lo, hi + 1)
  {
    var q :| q in l.consumed && lo < q.at < hi;
    assert q in Moved(l, t, mv).consumed;
  }

  lemma MoveCancel(l: Lane, t: TaskId, mv: Move, c: TaskId)
    requires Fits(l, t, mv) && c in l.cancels && CancelOk(l, c)
    ensures CancelOk(Moved(l, t, mv), c)
  {
    var l' := Moved(l, t, mv);
    var at := l.cancels[c].insertedAt;
    if Inserted(l.cancels[c].pc) && !l.denyLost {
      if !l.denied {
        MoreConsumed(l, t, mv, at, l.now);
      } else if mv.deny.Consume? {
        assert Consumption(l.now, t) in l'.consumed;
        assert ConsumedBetween(l', at, l'.now);
      }
    }
  }

  lemma MovePair(l: Lane, t: TaskId, mv: Move, c: TaskId, x: TaskId)
    requires Fits(l, t, mv) && c in l.cancels && CancelOk(l, c) && x in l.tasks && PairOk(l, c, x)
    ensures PairOk(Moved(l, t, mv), c, x)
  {
    var l' := Moved(l, t, mv);
    var at := l.cancels[c].insertedAt;
    if Inserted(l.cancels[c].pc) && Rechecked(l', x) && !l.denyLost {
      if Rechecked(l, x) {
        if ConsumedBetween(l, at, l.tasks[x].recheckedAt) {
          MoreConsumed(l, t, mv, at, l.tasks[x].recheckedAt);
        }
      } else {
        assert x == t && l'.tasks[x].recheckedAt == l.now && !l.denied;
        MoreConsumed(l, t, mv, at, l.now);
      }
    }
  }

  lemma MoveConsumption(l: Lane, t: TaskId, mv: Move, q: Consumption)
    requires Fits(l, t, mv) && q in Moved(l, t, mv).consumed
    requires q in l.consumed ==> ConsumptionOk(l, q)
    ensures ConsumptionOk(Moved(l, t, mv), q)
  {
  }

  lemma MoveKeeps(l: Lane, t: TaskId, mv: Move)
    requires Inv(l) && Fits(l, t, mv)
    ensures Inv(Moved(l, t, mv))
  {
    var l' := Moved(l, t, mv);
    forall x | x in l'.tasks ensures TaskOk(l', x) { MoveTask(l, t, mv, x); }
    forall c | c in l'.cancels ensures CancelOk(l', c) { MoveCancel(l, t, mv, c); }
    forall q | q in l'.consumed ensures ConsumptionOk(l', q) { MoveConsumption(l, t, mv, q); }
    forall c, x | c in l'.cancels && x in l'.tasks ensures PairOk(l', c, x) { MovePair(l, t, mv, c, x); }
  }

  // Cancel moves

  ghost function Cancelled(l: Lane, c: TaskId, mv: CancelMove): Lane { Tick(ApplyCancel(l, c, mv)) }

  /** The facts about one step of a cancel handler that the race depends on. */
  ghost predicate Orderly(l: Lane, c: TaskId, mv: CancelMove) {
    && (Passed(mv.cancel.pc) ==>
          if c in l.cancels && Passed(l.cancels[c].pc) then mv.cancel.checkedAt == l.cancels[c].checkedAt
          else mv.cancel.checkedAt == l.now && !l.claimed)
    && (Inserted(mv.cancel.pc) ==>
          if mv.inserts then mv.cancel.insertedAt == l.now
          else c in l.cancels && Inserted(l.cancels[c].pc) && mv.cancel.insertedAt == l.cancels[c].insertedAt)
  }

  lemma CancelMovesAreOrderly(l: Lane, c: TaskId, choice: CancelChoice)
    requires c in l.cancels
    ensures Orderly(l, c, CancelMoveOf(l.cancels[c], ViewOf(l), choice))
  {
  }

  lemma CancelCancel(l: Lane, c: TaskId, mv: CancelMove, d: TaskId)
    requires Orderly(l, c, mv) && d in Cancelled(l, c, mv).cancels
    requires d in l.cancels ==> CancelOk(l, d)
    ensures CancelOk(Cancelled(l, c, mv), d)
  {
    var l' := Cancelled(l, c, mv);
    if d in l.cancels && ConsumedBetween(l, l.cancels[d].insertedAt, l.now) {
      var q :| q in l.consumed && l.cancels[d].insertedAt < q.at < l.now;
      assert q in l'.consumed && l.cancels[d].insertedAt < q.at < l'.now;
    }
  }

  lemma CancelPair(l: Lane, c: TaskId, mv: CancelMove, d: TaskId, t: TaskId)
    requires Orderly(l, c, mv) && Ledger.Inv(l)
    requires d in Cancelled(l, c, mv).cancels && t in l.tasks && TaskOk(l, t)
    requires d in l.cancels ==> PairOk(l, d, t)
    ensures PairOk(Cancelled(l, c, mv), d, t)
  {
    var l' := Cancelled(l, c, mv);
    if d in l.cancels && ConsumedBetween(l, l.cancels[d].insertedAt, l.tasks[t].recheckedAt) {
      var q :| q in l.consumed && l.cancels[d].insertedAt < q.at < l.tasks[t].recheckedAt;
      assert q in l'.consumed;
    }
  }

  lemma CancelKeeps(l: Lane, c: TaskId, mv: CancelMove)
    requires Inv(l) && Ledger.Inv(l) && Orderly(l, c, mv)
    ensures Inv(Cancelled(l, c, mv))
  {
    var l' := Cancelled(l, c, mv);
    forall t | t in l'.tasks ensures TaskOk(l', t) { assert TaskOk(l, t); }
    forall d | d in l'.cancels ensures CancelOk(l', d) { CancelCancel(l, c, mv, d); }
    forall q | q in l'.consumed ensures ConsumptionOk(l', q) { assert ConsumptionOk(l, q); }
    forall d, t | d in l'.cancels && t in l'.tasks ensures PairOk(l', d, t) { CancelPair(l, c, mv, d, t); }
  }

  // Runs

  lemma AddTaskKeeps(l: Lane, t: TaskId, task: Task)
    requires Inv(l) && t !in l.tasks && !task.pc.Recheck? && !task.pc.Forward?
    requires task.verdict.Some? ==> Concluding(task)
    ensures Inv(Tick(Set(l, t, task)))
  {
    var l' := Tick(Set(l, t, task));
    forall x | x in l'.tasks ensures TaskOk(l', x) { assert x in l.tasks ==> TaskOk(l, x); }
    SameCancels(l, l');
    forall c, x | c in l'.cancels && x in l'.tasks ensures PairOk(l', c, x) {
      assert x in l.tasks ==> PairOk(l, c, x);
    }
  }

  /** Cancels and consumptions stay in order when only tasks are added or time passes. */
  lemma SameCancels(l: Lane, l': Lane)
    requires Inv(l) && l'.cancels == l.cancels && l'.consumed == l.consumed && l'.now == l.now + 1
    requires l'.denied == l.denied && l'.denyLost == l.denyLost
    requires forall t :: t in l.tasks ==> t in l'.tasks && l'.tasks[t] == l.tasks[t]
    ensures forall c :: c in l'.cancels ==> CancelOk(l', c)
    ensures forall q :: q in l'.consumed ==> ConsumptionOk(l', q)
  {
    forall c | c in l'.cancels ensures CancelOk(l', c) {
      assert CancelOk(l, c);
      if ConsumedBetween(l, l.cancels[c].insertedAt, l.now) {
        var q :| q in l.consumed && l.cancels[c].insertedAt < q.at < l.now;
        assert q in l'.consumed && q.at < l'.now;
      }
    }
    forall q | q in l'.consumed ensures ConsumptionOk(l', q) { assert ConsumptionOk(l, q); }
  }

  /** The tasks, the consumptions and the cancels are as before; at most an entry was lost. */
  lemma IdleKeeps(l: Lane, l': Lane)
    requires Inv(l) && l'.now == l.now + 1
    requires l'.tasks == l.tasks && l'.cancels == l.cancels && l'.consumed == l.consumed && l'.forwarded == l.forwarded
    requires l.claimLost ==> l'.claimLost
    requires l'.denyLost || (!l.denyLost && l'.denied == l.denied)
    ensures Inv(l')
  {
    forall t | t in l'.tasks ensures TaskOk(l', t) { assert TaskOk(l, t); }
    forall c | c in l'.cancels ensures CancelOk(l', c) {
      assert CancelOk(l, c);
      if ConsumedBetween(l, l.cancels[c].insertedAt, l.now) {
        var q :| q in l.consumed && l.cancels[c].insertedAt < q.at < l.now;
        assert q in l'.consumed && q.at < l'.now;
      }
    }
    forall q | q in l'.consumed ensures ConsumptionOk(l', q) { assert ConsumptionOk(l, q); }
    forall c, t | c in l'.cancels && t in l'.tasks ensures PairOk(l', c, t) { assert PairOk(l, c, t); }
  }

  lemma StepTaskKeeps(l: Lane, t: TaskId, choice: Choice)
    requires Inv(l) && Ledger.Inv(l)
    ensures Inv(Tick(StepTask(l, t, choice)))
  {
    if t in l.tasks && (choice.publishOk ==> choice.copyId !in l.msgs) {
      assert TaskOk(l, t);
      MovesAreTimely(l.tasks[t], ViewOf(l), choice);
      MoveKeeps(l, t, MoveOf(l.tasks[t], ViewOf(l), choice));
    } else {
      IdleKeeps(l, Tick(l));
    }
  }

  lemma StepCancelKeeps(l: Lane, c: TaskId, choice: CancelChoice)
    requires Inv(l) && Ledger.Inv(l)
    ensures Inv(Tick(StepCancel(l, c, choice)))
  {
    if c in l.cancels && OnRetryStream(l, choice.fetched) {
      CancelMovesAreOrderly(l, c, choice);
      CancelKeeps(l, c, CancelMoveOf(l.cancels[c], ViewOf(l), choice));
    } else {
      IdleKeeps(l, Tick(l));
    }
  }

  lemma DeliverKeeps(l: Lane, t: TaskId, path: Path, m: MsgId)
    requires Inv(l)
    ensures Inv(Tick(AfterDeliver(l, t, path, m)))
  {
    if AfterDeliver(l, t, path, m) != l {
      AddTaskKeeps(l, t, NewTask(path, m, l.msgs[m].kind));
    } else {
      IdleKeeps(l, Tick(l));
    }
  }

  lemma DedupKeeps(l: Lane, t: TaskId, m: MsgId, partner: MsgId)
    requires Inv(l)
    ensures Inv(Tick(AfterDedup(l, t, m, partner)))
  {
    if AfterDedup(l, t, m, partner) != l {
      AddTaskKeeps(l, t, DedupTask(m, l.msgs[m].kind));
    } else {
      IdleKeeps(l, Tick(l));
    }
  }

  lemma NewCancelKeeps(l: Lane, c: TaskId)
    requires Inv(l) && Ledger.Inv(l)
    ensures Inv(Tick(AfterStartCancel(l, c))) && Inv(Tick(AfterDrainCancel(l, c)))
  {
    if c in l.cancels {
      IdleKeeps(l, Tick(l));
    } else {
      CancelKeeps(l, c, Goto(NewCancel, CheckClaimed));
      CancelKeeps(l, c, InsertMove(NewCancel, ViewOf(l), Drained));
    }
  }

  lemma NextKeeps(l: Lane, step: Step)
    requires Inv(l) && Ledger.Inv(l)
    ensures Inv(Next(l, step))
  {
    match step
    case RunTask(t, choice) => StepTaskKeeps(l, t, choice);
    case RunCancel(c, choice) => StepCancelKeeps(l, c, choice);
    case Deliver(t, path, m) => DeliverKeeps(l, t, path, m);
    case Dedup(t, m, partner) => DedupKeeps(l, t, m, partner);
    case StartCancel(c) => NewCancelKeeps(l, c);
    case DrainCancel(c) => NewCancelKeeps(l, c);
    case Arrive(m, message) => ArriveKeeps(l, m, message);
    case EvictClaim => EvictClaimKeeps(l);
    case EvictDeny => EvictDenyKeeps(l);
  }

  lemma ArriveFrame(l: Lane, m: MsgId, message: Message)
    ensures var l' := AfterArrive(l, m, message);
            && l'.now == l.now && l'.tasks == l.tasks && l'.cancels == l.cancels && l'.consumed == l.consumed
            && l'.forwarded == l.forwarded && l'.denied == l.denied
            && l'.claimLost == l.claimLost && l'.denyLost == l.denyLost
  {
  }

  lemma ArriveKeeps(l: Lane, m: MsgId, message: Message)
    requires Inv(l)
    ensures Inv(Tick(AfterArrive(l, m, message)))
  {
    ArriveFrame(l, m, message);
    IdleKeeps(l, Tick(AfterArrive(l, m, message)));
  }

  lemma EvictClaimKeeps(l: Lane)
    requires Inv(l)
    ensures Inv(Tick(l.(claimed := false, claimLost := true)))
  {
    IdleKeeps(l, Tick(l.(claimed := false, claimLost := true)));
  }

  lemma EvictDenyKeeps(l: Lane)
    requires Inv(l)
    ensures Inv(Tick(l.(denied := false, denyLost := true)))
  {
    IdleKeeps(l, Tick(l.(denied := false, denyLost := true)));
  }

  lemma {:induction false} ExecKeeps(l: Lane, steps: seq<Step>)
    requires Inv(l) && Ledger.Inv(l)
    ensures Inv(Exec(l, steps))
    decreases |steps|
  {
    if steps != [] {
      NextKeeps(l, steps[0]);
      Ledger.NextKeeps(l, steps[0]);
      ExecKeeps(Next(l, steps[0]), steps[1..]);
    }
  }

  // ------------------------------------------------------------ main theorems

  /** A create that the provider accepted and an acknowledged cancel of the same id,
      neither entry ever evicted: both happened. */
  ghost predicate BothHappened(l: Lane, t: TaskId, c: TaskId) {
    && !l.claimLost && !l.denyLost
    && t in l.forwarded && t in l.tasks && l.tasks[t].kind.Create?
    && c in l.cancels && l.cancels[c].pc.Acked?
  }

  // ------------------------------------------- the recorded moments are steps

  /** Step `i` is `t`'s insertion into the ledger. */
  ghost predicate ClaimsAt(steps: seq<Step>, i: nat, t: TaskId) {
    RunsAt(steps, i, t) && At(steps, i).tasks[t].pc.Claim?
  }

  /** Step `i` is `t`'s second look at the deny list, which lets it through. */
  ghost predicate RechecksAt(steps: seq<Step>, i: nat, t: TaskId) {
    && RunsAt(steps, i, t) && At(steps, i).tasks[t].pc.Recheck?
    && !Blocked(At(steps, i).tasks[t], ViewOf(At(steps, i)))
  }

  /** Step `i` is cancel `c`'s look at the ledger, which does not hold the id. */
  ghost predicate LooksAt(steps: seq<Step>, i: nat, c: TaskId) {
    && i < |steps| && steps[i].RunCancel? && steps[i].c == c && CanCancel(At(steps, i), c, steps[i].cancelChoice)
    && At(steps, i).cancels[c].pc.CheckClaimed? && !At(steps, i).claimed
  }

  /** At step `i` goroutine `u`, a live create, finds the id on the deny list and takes it off. */
  ghost predicate ConsumesAt(steps: seq<Step>, i: nat, u: TaskId) {
    && RunsAt(steps, i, u) && At(steps, i).denied
    && var task := At(steps, i).tasks[u];
       task.path.Live? && task.kind.Create? && (task.pc.DenyCheck? || task.pc.Recheck?)
  }

  lemma Reached(steps: seq<Step>)
    ensures Ledger.Inv(Exec(Empty, steps)) && Inv(Exec(Empty, steps))
  {
    Ledger.ExecKeeps(Empty, steps);
    ExecKeeps(Empty, steps);
  }

  predicate ClaimPassed(task: Task, forwarded: bool) { task.pc.Recheck? || task.pc.Forward? || forwarded }
  predicate RecheckPassed(task: Task, forwarded: bool) { task.pc.Forward? || forwarded }

  /** The moments recorded for `t` in `l` are steps of the run. */
  ghost predicate Stamped(steps: seq<Step>, l: Lane, t: TaskId)
    requires t in l.tasks
  {
    var task := l.tasks[t];
    && (ClaimPassed(task, t in l.forwarded) ==> ClaimsAt(steps, task.claimedAt, t))
    && (RecheckPassed(task, t in l.forwarded) ==> RechecksAt(steps, task.recheckedAt, t))
  }

  lemma StampedStays(steps: seq<Step>, l: Lane, t: TaskId)
    requires steps != [] && t in l.tasks && Stamped(Front(steps), l, t)
    ensures Stamped(steps, l, t)
  {
    if ClaimPassed(l.tasks[t], t in l.forwarded) {
      SamePast(steps, |steps| - 1, l.tasks[t].claimedAt);
    }
    if RecheckPassed(l.tasks[t], t in l.forwarded) {
      SamePast(steps, |steps| - 1, l.tasks[t].recheckedAt);
    }
  }

  lemma OwnStamp(steps: seq<Step>, t: TaskId)
    requires steps != [] && RunsAt(steps, |steps| - 1, t)
    requires var l := At(steps, |steps| - 1);
             && Stamped(steps, l, t) && TaskOk(l, t) && l.now == |steps| - 1
             && Timely(l.tasks[t], ViewOf(l), MoveOf(l.tasks[t], ViewOf(l), steps[|steps| - 1].choice))
    ensures t in Exec(Empty, steps).tasks && Stamped(steps, Exec(Empty, steps), t)
  {
    var n := |steps| - 1;
    Snoc(steps);
    OwnTaskStep(At(steps, n), t, steps[n].choice);
    ForwardStep(At(steps, n), steps[n], t);
  }

  lemma {:induction false} TaskStamps(steps: seq<Step>, t: TaskId)
    requires t in Exec(Empty, steps).tasks
    ensures Stamped(steps, Exec(Empty, steps), t)
    decreases |steps|
  {
    var n := |steps| - 1;
    var l := At(steps, n);
    Snoc(steps);
    Clock(Front(steps));
    Reached(Front(steps));
    if t !in l.tasks {
      NewTaskStep(l, steps[n], t);
      ForwardStep(l, steps[n], t);
    } else {
      TaskStamps(Front(steps), t);
      StampedStays(steps, l, t);
      if RunsAt(steps, n, t) {
        assert TaskOk(l, t);
        MovesAreTimely(l.tasks[t], ViewOf(l), steps[n].choice);
        OwnStamp(steps, t);
      } else {
        OthersLeaveTask(l, steps[n], t);
        ForwardStep(l, steps[n], t);
      }
    }
  }

  /** Step `i` is the deny-list insertion of cancel `c`, by its handler or by the restart drain. */
  ghost predicate DeniedByAt(steps: seq<Step>, i: nat, c: TaskId) {
    DeniesAt(steps, i) && steps[i].c == c
  }

  ghost predicate CancelStamped(steps: seq<Step>, cancel: Cancel, c: TaskId) {
    && (Passed(cancel.pc) ==> LooksAt(steps, cancel.checkedAt, c))
    && (Inserted(cancel.pc) ==> DeniedByAt(steps, cancel.insertedAt, c))
    && (Inserted(cancel.pc) && !cancel.pc.Drained? ==> steps[cancel.insertedAt].RunCancel?)
  }

  lemma CancelStampedStays(steps: seq<Step>, cancel: Cancel, c: TaskId)
    requires steps != [] && CancelStamped(Front(steps), cancel, c)
    ensures CancelStamped(steps, cancel, c)
  {
    if Passed(cancel.pc) {
      SamePast(steps, |steps| - 1, cancel.checkedAt);
    }
    if Inserted(cancel.pc) {
      SamePast(steps, |steps| - 1, cancel.insertedAt);
    }
  }

  /** A cancel handler's own move stamps its look and its insertion and nothing else. */
  lemma CancelMoveStamps(cancel: Cancel, v: View, choice: CancelChoice)
    ensures var moved := CancelMoveOf(cancel, v, choice).cancel;
            && (if cancel.pc.CheckClaimed? then moved.checkedAt == v.now else moved.checkedAt == cancel.checkedAt)
            && (if cancel.pc.AddDeny? then moved.insertedAt == v.now else moved.insertedAt == cancel.insertedAt)
            && (Passed(moved.pc) ==> Passed(cancel.pc) || (cancel.pc.CheckClaimed? && !v.claimed))
            && (Inserted(moved.pc) ==> Inserted(cancel.pc) || cancel.pc.AddDeny?)
            && (moved.pc.Drained? <==> cancel.pc.Drained?)
  {
    match cancel.pc
    case CheckClaimed =>
    case AddDeny =>
    case Fetch =>
    case Purge(todo) =>
    case _ =>
  }

  /** A cancel that appears as drained was put on the deny list by that very step. */
  lemma NewDrained(l: Lane, step: Step, c: TaskId)
    requires c !in l.cancels && c in Next(l, step).cancels && Next(l, step).cancels[c].pc.Drained?
    ensures step == DrainCancel(c) && Denies(l, step) && Next(l, step).cancels[c].insertedAt == l.now
  {
    if step.StartCancel? {
      StartedCancel(l, step.c, c);
    } else if step.RunCancel? {
      OtherSteps(l, step, c);
    } else if !step.DrainCancel? {
      NoCancelStep(l, step);
    }
  }

  lemma {:induction false} CancelStamps(steps: seq<Step>, c: TaskId)
    requires c in Exec(Empty, steps).cancels
    ensures CancelStamped(steps, Exec(Empty, steps).cancels[c], c)
    decreases |steps|
  {
    var n := |steps| - 1;
    var (l, step) := (At(steps, n), steps[n]);
    Snoc(steps);
    Clock(Front(steps));
    if c in l.cancels {
      CancelStamps(Front(steps), c);
      CancelStampedStays(steps, l.cancels[c], c);
    }
    if !(step.RunCancel? && step.c == c) {
      OtherSteps(l, step, c);
      if c !in l.cancels && Exec(Empty, steps).cancels[c].pc.Drained? {
        NewDrained(l, step, c);
      }
    } else if CanCancel(l, c, step.cancelChoice) {
      OwnCancelStep(l, c, step.cancelChoice);
      CancelMoveStamps(l.cancels[c], ViewOf(l), step.cancelChoice);
    } else {
      assert Next(l, step) == Tick(l);
    }
  }

  lemma OthersDoNotConsume(l: Lane, step: Step)
    requires !step.RunTask?
    ensures Next(l, step).consumed == l.consumed
  {
    match step
    case Arrive(_, _) =>
    case Deliver(_, _, _) =>
    case Dedup(_, _, _) =>
    case StartCancel(_) =>
    case RunCancel(_, _) =>
    case DrainCancel(_) =>
    case EvictClaim =>
    case EvictDeny =>
  }

  lemma TaskConsumes(l: Lane, t: TaskId, choice: Choice, q: Consumption)
    requires q in StepTask(l, t, choice).consumed && q !in l.consumed
    ensures CanRun(l, t, choice) && q == Consumption(l.now, t) && l.denied
    ensures MoveOf(l.tasks[t], ViewOf(l), choice).deny.Consume?
  {
  }

  lemma ConsumptionStep(l: Lane, step: Step, q: Consumption)
    requires q in Next(l, step).consumed && q !in l.consumed
    ensures step.RunTask? && step.t == q.consumer && CanRun(l, q.consumer, step.choice) && q.at == l.now && l.denied
    ensures var task := l.tasks[q.consumer];
            task.path.Live? && task.kind.Create? && (task.pc.DenyCheck? || task.pc.Recheck?)
  {
    if step.RunTask? {
      assert Next(l, step) == Tick(StepTask(l, step.t, step.choice));
      TaskConsumes(l, step.t, step.choice, q);
      ConsumingMove(l.tasks[step.t], ViewOf(l), step.choice);
    } else {
      OthersDoNotConsume(l, step);
    }
  }

  lemma ConsumingMove(task: Task, v: View, choice: Choice)
    ensures MoveOf(task, v, choice).deny.Consume? ==>
              task.path.Live? && task.kind.Create? && (task.pc.DenyCheck? || task.pc.Recheck?)
  {
    match task.pc
    case DenyCheck =>
    case Recheck =>
    case _ =>
  }

  lemma {:induction false} ConsumptionStamps(steps: seq<Step>, q: Consumption)
    requires q in Exec(Empty, steps).consumed
    ensures ConsumesAt(steps, q.at, q.consumer)
    decreases |steps|
  {
    var n := |steps| - 1;
    Snoc(steps);
    Clock(Front(steps));
    Reached(Front(steps));
    if q in At(steps, n).consumed {
      ConsumptionStamps(Front(steps), q);
      SamePast(steps, n, q.at);
    } else {
      ConsumptionStep(At(steps, n), steps[n], q);
    }
  }

  // ------------------------------------------------------------- the race itself

  /** The steps of the run at which a cancel looked at the ledger and inserted into the deny
      list, and a create claimed and looked at the deny list again. */
  ghost predicate Moments(steps: seq<Step>, t: TaskId, c: TaskId, look: nat, insert: nat, claim: nat, recheck: nat) {
    LooksAt(steps, look, c) && InsertsAt(steps, insert, c) && ClaimsAt(steps, claim, t) && RechecksAt(steps, recheck, t)
  }

  lemma MomentsOf(steps: seq<Step>, t: TaskId, c: TaskId)
    requires BothHappened(Exec(Empty, steps), t, c)
    ensures var (task, cancel) := (Exec(Empty, steps).tasks[t], Exec(Empty, steps).cancels[c]);
            Moments(steps, t, c, cancel.checkedAt, cancel.insertedAt, task.claimedAt, task.recheckedAt)
  {
    TaskStamps(steps, t);
    CancelStamps(steps, c);
  }

  /** In every run, with any number of attempts and cancels, both happen only if
      the cancel looked at the ledger before the create's claim and, moreover, its
      deny-list insertion came after the create's re-check or another live create
      consumed the entry in between. */
  lemma BothHappenOnlyThroughAWindow(steps: seq<Step>, t: TaskId, c: TaskId)
    returns (look: nat, insert: nat, claim: nat, recheck: nat)
    requires BothHappened(Exec(Empty, steps), t, c)
    ensures Moments(steps, t, c, look, insert, claim, recheck)
    ensures look < claim
    ensures recheck < insert || exists i: nat, u :: insert < i < recheck && u != t && ConsumesAt(steps, i, u)
  {
    var l := Exec(Empty, steps);
    Reached(steps);
    MomentsOf(steps, t, c);
    look, insert, claim, recheck :=
      l.cancels[c].checkedAt, l.cancels[c].insertedAt, l.tasks[t].claimedAt, l.tasks[t].recheckedAt;
    assert PairOk(l, c, t) && TaskOk(l, t) && CancelOk(l, c);
    if insert < recheck {
      var q :| q in l.consumed && insert < q.at < recheck;
      assert ConsumptionOk(l, q);
      ConsumptionStamps(steps, q);
    }
  }

  /** Whatever became of the cancel (acknowledged, failed later, or drained on restart): unless
      the deny-list entry was ever evicted, a create forwarded on any path although its
      re-check came after the cancel's insertion means that another live create consumed the
      entry at a step in between. */
  lemma ForwardedPastACancel(steps: seq<Step>, t: TaskId, c: TaskId) returns (insert: nat, recheck: nat)
    requires var l := Exec(Empty, steps);
             && !l.denyLost && t in l.forwarded && t in l.tasks && l.tasks[t].kind.Create?
             && c in l.cancels && Inserted(l.cancels[c].pc)
    ensures DeniedByAt(steps, insert, c) && RechecksAt(steps, recheck, t)
    ensures recheck < insert || exists i: nat, u :: insert < i < recheck && u != t && ConsumesAt(steps, i, u)
  {
    var l := Exec(Empty, steps);
    Reached(steps);
    TaskStamps(steps, t);
    CancelStamps(steps, c);
    insert, recheck := l.cancels[c].insertedAt, l.tasks[t].recheckedAt;
    assert PairOk(l, c, t) && TaskOk(l, t);
    if insert < recheck {
      var q :| q in l.consumed && insert < q.at < recheck;
      assert ConsumptionOk(l, q);
      ConsumptionStamps(steps, q);
    }
  }

  /** With a single live create, the one interleaving that lets both happen is: ledger
      check before the claim, deny-list insertion after the re-check. */
  lemma SingleCreateWindow(steps: seq<Step>, t: TaskId, c: TaskId)
    returns (look: nat, insert: nat, claim: nat, recheck: nat)
    requires BothHappened(Exec(Empty, steps), t, c)
    requires forall u :: u in Exec(Empty, steps).tasks && u != t ==>
               !(Exec(Empty, steps).tasks[u].path.Live? && Exec(Empty, steps).tasks[u].kind.Create?)
    ensures Moments(steps, t, c, look, insert, claim, recheck)
    ensures look < claim && recheck < insert
  {
    var l := Exec(Empty, steps);
    Reached(steps);
    MomentsOf(steps, t, c);
    look, insert, claim, recheck :=
      l.cancels[c].checkedAt, l.cancels[c].insertedAt, l.tasks[t].claimedAt, l.tasks[t].recheckedAt;
    assert PairOk(l, c, t) && TaskOk(l, t) && CancelOk(l, c);
    assert insert < recheck ==> ConsumedBetween(l, insert, recheck);
    forall q | q in l.consumed ensures q.consumer == t {
      assert ConsumptionOk(l, q);
    }
  }
}

/** Concrete runs: both windows of the create/cancel race are open. */
module RoutingWindows {
  import opened Base
  import opened Routing
  import opened RoutingRace

  const GoOn := Choice(Pass, Ready, true, Accepted, false, 0)
  const NoRetries := CancelChoice(false, true, [])
  const AMessage := Message(Create, Main)

  lemma Two(l: Lane, a: Step, b: Step)
    ensures Exec(l, [a, b]) == Next(Next(l, a), b)
  {
    assert [a, b][1..] == [b];
    One(Next(l, a), b);
  }

  /** The places a task passes on its way to the provider, in order. */
  function Rank(pc: PC): nat {
    match pc
    case Guard => 6
    case DenyCheck => 5
    case Resolve => 4
    case Lock => 3
    case Claim => 2
    case Recheck => 1
    case _ => 0
  }

  predicate OnTheWay(l: Lane, t: TaskId) {
    && t in l.tasks && (l.tasks[t].kind.Create? ==> !l.denied)
    && (l.tasks[t].pc.Forward? || Rank(l.tasks[t].pc) > 0)
    && (Rank(l.tasks[t].pc) >= 3 ==> !l.locked)
  }

  /** Nothing but task `t`, the lock, the ledger and the clock changed. */
  predicate Aside(l: Lane, l': Lane, t: TaskId) {
    && t in l.tasks && t in l'.tasks && l'.tasks == l.tasks[t := l'.tasks[t]]
    && l'.tasks[t].kind == l.tasks[t].kind && l'.tasks[t].mid == l.tasks[t].mid
    && l'.cancels == l.cancels && l'.denied == l.denied
    && l'.claimLost == l.claimLost && l'.denyLost == l.denyLost
    && l'.now >= l.now
    && (Rank(l.tasks[t].pc) >= 2 && Rank(l'.tasks[t].pc) <= 1 ==> l'.tasks[t].claimedAt >= l.now)
    && (Rank(l.tasks[t].pc) <= 1 ==> l'.tasks[t].claimedAt == l.tasks[t].claimedAt)
  }

  lemma ForthMove(task: Task, v: View)
    requires (task.kind.Create? ==> !v.denied) && Rank(task.pc) > 0 && (Rank(task.pc) >= 3 ==> !v.locked)
    ensures var mv := MoveOf(task, v, GoOn);
            && Rank(mv.task.pc) == Rank(task.pc) - 1 && (task.pc.Recheck? ==> mv.task.pc.Forward?)
            && mv.task.path == task.path && mv.task.kind == task.kind && mv.task.mid == task.mid
            && (mv.lock.TakeLock? <==> task.pc.Lock?) && !mv.lock.ReleaseLock? && mv.copy.None?
            && (mv.deny.Consume? ==> task.kind.Create?)
            && mv.task.claimedAt == (if task.pc.Claim? then v.now else task.claimedAt)
  {
    match task.pc
    case Guard =>
    case DenyCheck =>
    case Resolve =>
    case Lock =>
    case Claim =>
    case Recheck =>
  }

  lemma Forth(l: Lane, t: TaskId)
    requires OnTheWay(l, t) && !l.tasks[t].pc.Forward?
    ensures var l' := Next(l, RunTask(t, GoOn));
            OnTheWay(l', t) && Aside(l, l', t) && Rank(l'.tasks[t].pc) == Rank(l.tasks[t].pc) - 1
  {
    ForthMove(l.tasks[t], ViewOf(l));
  }

  /** A task of any path that nothing stands in the way of goes on to the provider. */
  lemma Approach(l: Lane, t: TaskId) returns (steps: seq<Step>)
    requires OnTheWay(l, t)
    ensures var l' := Exec(l, steps); Aside(l, l', t) && l'.tasks[t].pc.Forward?
    decreases Rank(l.tasks[t].pc)
  {
    if l.tasks[t].pc.Forward? {
      steps := [];
    } else {
      Forth(l, t);
      var l1 := Next(l, RunTask(t, GoOn));
      var rest := Approach(l1, t);
      AsideAgain(l, l1, Exec(l1, rest), t);
      steps := [RunTask(t, GoOn)] + rest;
      assert steps[1..] == rest;
    }
  }

  lemma AsideAgain(l: Lane, l1: Lane, l2: Lane, t: TaskId)
    requires Aside(l, l1, t) && Aside(l1, l2, t) && Rank(l1.tasks[t].pc) + 1 == Rank(l.tasks[t].pc)
    ensures Aside(l, l2, t)
  {
  }

  lemma AtForward(l: Lane, t: TaskId)
    requires t in l.tasks && l.tasks[t].pc.Forward?
    ensures var l' := Next(l, RunTask(t, GoOn));
            && t in l'.forwarded && t in l'.tasks && l'.tasks[t].kind == l.tasks[t].kind
            && l'.cancels == l.cancels && l'.claimLost == l.claimLost && l'.denyLost == l.denyLost
            && l'.tasks == l.tasks[t := l'.tasks[t]] && l'.tasks[t].claimedAt == l.tasks[t].claimedAt
            && l'.tasks[t].mid == l.tasks[t].mid && l'.tasks[t].pc.Unlock? && l'.tasks[t].next.Ack?
  {
  }

  /** The ledger check of a first cancel. */
  lemma Looked()
    ensures Exec(Empty, [StartCancel(0), RunCancel(0, NoRetries)])
         == Empty.(now := 2, cancels := map[0 := Cancel(AddDeny, 1, 0)])
  {
    Two(Empty, StartCancel(0), RunCancel(0, NoRetries));
  }

  lemma AtAddDeny(l: Lane, c: TaskId)
    requires c in l.cancels && l.cancels[c].pc.AddDeny?
    ensures Next(l, RunCancel(c, NoRetries))
         == l.(now := l.now + 1, denied := true, denier := Some(c),
               cancels := l.cancels[c := l.cancels[c].(pc := Fetch, insertedAt := l.now)])
  {
  }

  lemma AtFetch(l: Lane, c: TaskId)
    requires c in l.cancels && l.cancels[c].pc.Fetch?
    ensures Next(l, RunCancel(c, NoRetries))
         == l.(now := l.now + 1, cancels := l.cancels[c := l.cancels[c].(pc := Acked)])
  {
  }

  /** Its deny-list insertion and acknowledgement, no retry consumer being bound yet. */
  lemma DenyAndAck(l: Lane, c: TaskId)
    requires c in l.cancels && l.cancels[c].pc.AddDeny?
    ensures Exec(l, [RunCancel(c, NoRetries), RunCancel(c, NoRetries)])
         == l.(now := l.now + 2, denied := true, denier := Some(c),
               cancels := l.cancels[c := l.cancels[c].(pc := Acked, insertedAt := l.now)])
  {
    AtAddDeny(l, c);
    AtFetch(Next(l, RunCancel(c, NoRetries)), c);
    Two(l, RunCancel(c, NoRetries), RunCancel(c, NoRetries));
  }

  /** A cancel acknowledged before anything is delivered. */
  lemma Acknowledged() returns (steps: seq<Step>)
    ensures Exec(Empty, steps)
         == Empty.(now := 4, cancels := map[0 := Cancel(Acked, 1, 2)], denied := true, denier := Some(0))
  {
    var look := [StartCancel(0), RunCancel(0, NoRetries)];
    var ack := [RunCancel(0, NoRetries), RunCancel(0, NoRetries)];
    Looked();
    DenyAndAck(Exec(Empty, look), 0);
    Concat(Empty, look, ack);
    steps := look + ack;
  }

  lemma Delivered(l: Lane, t: TaskId)
    requires t !in l.tasks && (0 in l.msgs ==> l.msgs[0] == AMessage)
    ensures Exec(l, [Arrive(0, AMessage), Deliver(t, Live, 0)])
         == l.(now := l.now + 2, tasks := l.tasks[t := NewTask(Live, 0, Create)], msgs := l.msgs[0 := AMessage])
  {
    Two(l, Arrive(0, AMessage), Deliver(t, Live, 0));
    if 0 in l.msgs {
      assert l.msgs[0 := AMessage] == l.msgs;
    }
  }

  /** A cancel that has looked, and a create on its way to the provider. */
  lemma LookedThenApproached() returns (steps: seq<Step>)
    ensures var l := Exec(Empty, steps);
            && !l.claimLost && !l.denyLost
            && l.tasks.Keys == {0} && l.tasks[0].kind.Create? && l.tasks[0].pc.Forward?
            && 0 in l.cancels && l.cancels[0].pc.AddDeny?
  {
    var look := [StartCancel(0), RunCancel(0, NoRetries)];
    var arrive := [Arrive(0, AMessage), Deliver(0, Live, 0)];
    Looked();
    var l1 := Exec(Empty, look);
    Delivered(l1, 0);
    var l2 := Exec(l1, arrive);
    var go := Approach(l2, 0);
    Concat(Empty, look, arrive);
    Concat(Empty, look + arrive, go);
    steps := look + arrive + go;
  }

  /** The window of SingleCreateWindow is open in every state that reaches it: whenever a
      create is about to call its provider while a cancel is between its look at the ledger
      and its deny-list insertion, with no eviction so far, both can happen. */
  lemma WindowIsOpen(steps: seq<Step>, t: TaskId, c: TaskId) returns (more: seq<Step>)
    requires var l := Exec(Empty, steps);
             && !l.claimLost && !l.denyLost
             && t in l.tasks && l.tasks[t].kind.Create? && l.tasks[t].pc.Forward?
             && c in l.cancels && l.cancels[c].pc.AddDeny?
    ensures BothHappened(Exec(Empty, steps + more), t, c)
    ensures Exec(Empty, steps + more).tasks.Keys == Exec(Empty, steps).tasks.Keys
  {
    var l := Exec(Empty, steps);
    var ack := [RunCancel(c, NoRetries), RunCancel(c, NoRetries)];
    DenyAndAck(l, c);
    var l1 := Exec(l, ack);
    AtForward(l1, t);
    One(l1, RunTask(t, GoOn));
    Concat(l, ack, [RunTask(t, GoOn)]);
    more := ack + [RunTask(t, GoOn)];
    Concat(Empty, steps, more);
  }

  /** Such a state is reachable. */
  lemma SingleCreateWindowIsOpen() returns (steps: seq<Step>)
    ensures BothHappened(Exec(Empty, steps), 0, 0) && Exec(Empty, steps).tasks.Keys == {0}
  {
    var before := LookedThenApproached();
    var more := WindowIsOpen(before, 0, 0);
    steps := before + more;
  }

  /** The other window: once an acknowledged cancel's entry is off the deny list, every live
      create that finds the lock free can be forwarded. */
  lemma ConsumedWindowIsOpen(steps: seq<Step>, t: TaskId, c: TaskId) returns (more: seq<Step>)
    requires var l := Exec(Empty, steps);
             && !l.claimLost && !l.denyLost && !l.denied && !l.locked
             && t in l.tasks && l.tasks[t].path.Live? && l.tasks[t].pc.Guard? && l.tasks[t].kind.Create?
             && c in l.cancels && l.cancels[c].pc.Acked?
    ensures var (l, l') := (Exec(Empty, steps), Exec(Empty, steps + more));
            && BothHappened(l', t, c) && l'.cancels == l.cancels && l'.tasks == l.tasks[t := l'.tasks[t]]
            && l'.tasks[t].mid == l.tasks[t].mid && l'.tasks[t].claimedAt >= l.now
  {
    more := GoThrough(Exec(Empty, steps), t);
    Concat(Empty, steps, more);
  }

  lemma GoThrough(l: Lane, t: TaskId) returns (steps: seq<Step>)
    requires OnTheWay(l, t) && Rank(l.tasks[t].pc) >= 2
    ensures var l' := Exec(l, steps);
            && l'.claimLost == l.claimLost && l'.denyLost == l.denyLost && l'.cancels == l.cancels
            && t in l'.tasks && l'.tasks[t].pc.Unlock? && l'.tasks[t].next.Ack?
            && t in l'.forwarded && l'.tasks == l.tasks[t := l'.tasks[t]]
            && l'.tasks[t].kind == l.tasks[t].kind && l'.tasks[t].mid == l.tasks[t].mid
            && l'.tasks[t].claimedAt >= l.now
  {
    var go := Approach(l, t);
    var l1 := Exec(l, go);
    AtForward(l1, t);
    One(l1, RunTask(t, GoOn));
    Concat(l, go, [RunTask(t, GoOn)]);
    steps := go + [RunTask(t, GoOn)];
  }

  lemma AtGuard(l: Lane)
    requires 0 in l.tasks && l.tasks[0] == NewTask(Live, 0, Create)
    ensures Next(l, RunTask(0, GoOn)) == l.(now := l.now + 1, tasks := l.tasks[0 := l.tasks[0].(pc := DenyCheck)])
  {
  }

  lemma AtDenied(l: Lane)
    requires 0 in l.tasks && l.tasks[0] == NewTask(Live, 0, Create).(pc := DenyCheck) && l.denied
    ensures Next(l, RunTask(0, GoOn))
         == l.(now := l.now + 1, tasks := l.tasks[0 := l.tasks[0].(pc := Ack, verdict := Some(Denied))],
               denied := false, consumed := l.consumed + {Consumption(l.now, 0)})
  {
  }

  lemma FirstIsDenied(l: Lane)
    requires 0 in l.tasks && l.tasks[0] == NewTask(Live, 0, Create) && l.denied
    ensures Exec(l, [RunTask(0, GoOn), RunTask(0, GoOn)])
         == l.(now := l.now + 2, tasks := l.tasks[0 := l.tasks[0].(pc := Ack, verdict := Some(Denied))],
               denied := false, consumed := l.consumed + {Consumption(l.now + 1, 0)})
  {
    AtGuard(l);
    var l1 := Next(l, RunTask(0, GoOn));
    AtDenied(l1);
    var denied := l.tasks[0].(pc := Ack, verdict := Some(Denied));
    assert l.tasks[0 := l1.tasks[0]][0 := denied] == l.tasks[0 := denied];
    Two(l, RunTask(0, GoOn), RunTask(0, GoOn));
  }

  /** An acknowledged cancel, and a first delivery that consumed its deny-list entry. */
  lemma AckedThenConsumed() returns (steps: seq<Step>)
    ensures Exec(Empty, steps)
         == Empty.(now := 8, cancels := map[0 := Cancel(Acked, 1, 2)], denier := Some(0), msgs := map[0 := AMessage],
                   tasks := map[0 := NewTask(Live, 0, Create).(pc := Ack, verdict := Some(Denied))],
                   consumed := {Consumption(7, 0)})
  {
    var first := [Arrive(0, AMessage), Deliver(0, Live, 0)];
    var drop := [RunTask(0, GoOn), RunTask(0, GoOn)];
    var ack := Acknowledged();
    var l1 := Exec(Empty, ack);
    Delivered(l1, 0);
    var l2 := Exec(l1, first);
    FirstIsDenied(l2);
    Concat(Empty, ack, first);
    Concat(Empty, ack + first, drop);
    steps := ack + first + drop;
  }

  /** So is a state that reaches it: a cancel acknowledged before any create is delivered
      does not stop the second delivery of a create, because the first one consumes the
      deny-list entry. */
  lemma SecondDeliveryIsForwarded() returns (steps: seq<Step>)
    ensures var l := Exec(Empty, steps);
            && BothHappened(l, 1, 0) && l.tasks.Keys == {0, 1}
            && l.tasks[0].mid == l.tasks[1].mid && l.tasks[0].verdict == Some(Denied)
            && l.cancels[0].insertedAt < l.tasks[1].claimedAt
  {
    var second := [Arrive(0, AMessage), Deliver(1, Live, 0)];
    var before := AckedThenConsumed();
    Delivered(Exec(Empty, before), 1);
    Concat(Empty, before, second);
    var more := ConsumedWindowIsOpen(before + second, 1, 0);
    steps := before + second + more;
  }
}
