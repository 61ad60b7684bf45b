/** The whole agent: every resource id's lane, the two LRU sets and the in-flight
    lock, shared by the live handler and the retry processor.

    A method is one atomic step of one goroutine on the real structures.  The
    class invariant says that each id's lane is a run of the protocol in Routing,
    with an eviction wherever inserting another id pushed its entry out.  So
    everything proved of all runs of a lane holds of every id at all times. */
module Agents {
  import opened Base
  import opened Routing
  import opened ResourceSets
  import opened KeyLocks
  import Ledger = RoutingLedger
  import Race = RoutingRace
  import Settlement = RoutingSettlement

  type Lanes = map<Id, Lane>
  type Traces = map<Id, seq<Step>>

  function LaneOf(lanes: Lanes, id: Id): Lane { if id in lanes then lanes[id] else Empty }
  function TraceOf(traces: Traces, id: Id): seq<Step> { if id in traces then traces[id] else [] }

  function StepLane(lanes: Lanes, id: Id, step: Step): Lanes {
    lanes[id := Next(LaneOf(lanes, id), step)]
  }

  function StepTrace(traces: Traces, id: Id, step: Step): Traces {
    traces[id := TraceOf(traces, id) + [step]]
  }

  /** What the shared structures hold. */
  datatype Shared = Shared(claimed: seq<Id>, deny: seq<Id>, held: set<Id>)

  ghost predicate Agrees(l: Lane, sh: Shared, id: Id) {
    && (l.claimed <==> id in sh.claimed)
    && (l.denied <==> id in sh.deny)
    && (l.locked <==> id in sh.held)
  }

  /** The lane of `id` is a protocol run and agrees with the shared structures. */
  ghost predicate LaneOk(lanes: Lanes, traces: Traces, sh: Shared, id: Id) {
    LaneOf(lanes, id) == Exec(Empty, TraceOf(traces, id)) && Agrees(LaneOf(lanes, id), sh, id)
  }

  ghost predicate AllOk(lanes: Lanes, traces: Traces, sh: Shared) {
    forall id :: LaneOk(lanes, traces, sh, id)
  }

  /** The structures differ at most in what they hold of `id`. */
  ghost predicate OnlyAt(sh: Shared, sh': Shared, id: Id) {
    forall x :: x != id ==>
      && (x in sh'.claimed <==> x in sh.claimed)
      && (x in sh'.deny <==> x in sh.deny)
      && (x in sh'.held <==> x in sh.held)
  }

  lemma StepKeeps(lanes: Lanes, traces: Traces, sh: Shared, sh': Shared, id: Id, step: Step)
    requires AllOk(lanes, traces, sh) && OnlyAt(sh, sh', id)
    requires Agrees(Next(LaneOf(lanes, id), step), sh', id)
    ensures AllOk(StepLane(lanes, id, step), StepTrace(traces, id, step), sh')
  {
    var (lanes', traces') := (StepLane(lanes, id, step), StepTrace(traces, id, step));
    forall x ensures LaneOk(lanes', traces', sh', x) {
      assert LaneOk(lanes, traces, sh, x);
      if x == id {
        Concat(Empty, TraceOf(traces, id), [step]);
        One(LaneOf(lanes, id), step);
      }
    }
  }

  predicate ChecksDeny(task: Task) { task.pc.DenyCheck? || task.pc.Recheck? }

  /** What the shared structures hold of `id` after a task's call on them. */
  ghost predicate Called(task: Task, sh: Shared, sh': Shared, id: Id) {
    && (id in sh'.held <==> task.pc.Lock? || (id in sh.held && !task.pc.Unlock?))
    && (id in sh'.claimed <==> task.pc.Claim? || (id in sh.claimed && !(task.pc.Undo? && task.newly)))
    && (id in sh'.deny <==> id in sh.deny && !(ChecksDeny(task) && DenyOpOf(task).Consume?))
  }

  /** The call has the effect the protocol step says it has. */
  lemma CallAgrees(l: Lane, t: TaskId, choice: Choice, sh: Shared, sh': Shared, id: Id)
    requires CanRun(l, t, choice) && Agrees(l, sh, id) && Called(l.tasks[t], sh, sh', id)
    ensures Agrees(Next(l, RunTask(t, choice)), sh', id)
  {
    CallsByPlace(l.tasks[t], ViewOf(l), choice);
  }

  lemma CallsByPlace(task: Task, v: View, choice: Choice)
    ensures var mv := MoveOf(task, v, choice);
            && (mv.lock.TakeLock? <==> task.pc.Lock? && !v.locked)
            && (mv.lock.ReleaseLock? <==> task.pc.Unlock?)
            && (mv.ledger.InsertEntry? <==> task.pc.Claim?)
            && (mv.ledger.RemoveEntry? <==> task.pc.Undo? && task.newly)
            && (mv.deny.Consume? <==> ChecksDeny(task) && DenyOpOf(task).Consume?)
  {
    match task.pc
    case Lock =>
    case Claim =>
    case DenyCheck =>
    case Recheck =>
    case Undo =>
    case Unlock =>
    case _ =>
  }

  /** The next place of a goroutine as the structures' answer decides it: past the lock only
      if it was taken, and at either deny-list check a denial exactly when the id was found. */
  predicate Follows(task: Task, task': Task, answer: bool) {
    && (task.pc.Lock? ==> (task'.pc.Claim? <==> answer) && (task'.fault <==> task.fault || !answer))
    && (ChecksDeny(task) && task.verdict.None? ==> (task'.verdict == Some(Denied) <==> answer))
  }

  lemma AnswerDecides(l: Lane, t: TaskId, choice: Choice, answer: bool)
    requires CanRun(l, t, choice)
    requires answer <==> || (l.tasks[t].pc.Lock? && !l.locked)
                         || (ChecksDeny(l.tasks[t]) && !DenyOpOf(l.tasks[t]).NoDeny? && l.denied)
    ensures Follows(l.tasks[t], MoveOf(l.tasks[t], ViewOf(l), choice).task, answer)
  {
    match l.tasks[t].pc
    case Lock =>
    case DenyCheck =>
    case Recheck =>
    case _ =>
  }

  /** What the shared structures hold of `id` after a cancel handler's call on them. */
  ghost predicate CancelCalled(inserts: bool, sh: Shared, sh': Shared, id: Id) {
    && (id in sh'.held <==> id in sh.held)
    && (id in sh'.claimed <==> id in sh.claimed)
    && (id in sh'.deny <==> id in sh.deny || inserts)
  }

  lemma CancelCallAgrees(l: Lane, c: TaskId, choice: CancelChoice, sh: Shared, sh': Shared, id: Id)
    requires c in l.cancels && OnRetryStream(l, choice.fetched)
    requires Agrees(l, sh, id) && CancelCalled(l.cancels[c].pc.AddDeny?, sh, sh', id)
    ensures Agrees(Next(l, RunCancel(c, choice)), sh', id)
  {
  }

  lemma DenialAgrees(l: Lane, step: Step, sh: Shared, sh': Shared, id: Id)
    requires Denies(l, step) && Agrees(l, sh, id) && CancelCalled(true, sh, sh', id)
    ensures Agrees(Next(l, step), sh', id)
  {
    if step.RunCancel? {
      CancelCallAgrees(l, step.c, step.cancelChoice, sh, sh', id);
    } else {
      assert Next(l, step) == Tick(AfterDrainCancel(l, step.c));
    }
  }

  /** Losing its entry is a step of the victim's lane. */
  lemma EvictionKeeps(lanes: Lanes, traces: Traces, sh: Shared, sh': Shared, v: Id, eviction: Step)
    requires AllOk(lanes, traces, sh) && OnlyAt(sh, sh', v)
    requires (v in sh'.held <==> v in sh.held)
    requires eviction.EvictClaim? ==> v !in sh'.claimed && (v in sh'.deny <==> v in sh.deny)
    requires eviction.EvictDeny? ==> v !in sh'.deny && (v in sh'.claimed <==> v in sh.claimed)
    requires eviction.EvictClaim? || eviction.EvictDeny?
    ensures AllOk(StepLane(lanes, v, eviction), StepTrace(traces, v, eviction), sh')
  {
    assert LaneOk(lanes, traces, sh, v);
    StepKeeps(lanes, traces, sh, sh', v, eviction);
  }

  /** The lanes after `id`'s step, preceded by the eviction of the victims, if any. */
  function Pushed(lanes: Lanes, recency: seq<Id>, cap: nat, id: Id, step: Step, eviction: Step): Lanes {
    StepLane(if Victims(recency, cap, id) == {} then lanes else StepLane(lanes, Last(recency), eviction), id, step)
  }

  function PushedTraces(traces: Traces, recency: seq<Id>, cap: nat, id: Id, step: Step, eviction: Step): Traces {
    StepTrace(if Victims(recency, cap, id) == {} then traces else StepTrace(traces, Last(recency), eviction), id, step)
  }

  lemma ClaimKeeps(lanes: Lanes, traces: Traces, sh: Shared, cap: nat, id: Id, t: TaskId, choice: Choice)
    requires AllOk(lanes, traces, sh) && WellFormed(sh.claimed, cap)
    requires CanRun(LaneOf(lanes, id), t, choice) && LaneOf(lanes, id).tasks[t].pc.Claim?
    ensures AllOk(Pushed(lanes, sh.claimed, cap, id, RunTask(t, choice), EvictClaim),
                  PushedTraces(traces, sh.claimed, cap, id, RunTask(t, choice), EvictClaim),
                  sh.(claimed := Inserted(sh.claimed, cap, id)))
  {
    InsertMembers(sh.claimed, cap, id);
    var (lanes1, traces1, sh1) := (lanes, traces, sh);
    if Victims(sh.claimed, cap, id) != {} {
      var v := Last(sh.claimed);
      sh1 := sh.(claimed := Without(sh.claimed, v));
      EvictionKeeps(lanes, traces, sh, sh1, v, EvictClaim);
      lanes1, traces1 := StepLane(lanes, v, EvictClaim), StepTrace(traces, v, EvictClaim);
    }
    var sh2 := sh.(claimed := Inserted(sh.claimed, cap, id));
    assert LaneOk(lanes1, traces1, sh1, id);
    CallAgrees(LaneOf(lanes1, id), t, choice, sh1, sh2, id);
    StepKeeps(lanes1, traces1, sh1, sh2, id, RunTask(t, choice));
  }

  lemma DenyKeeps(lanes: Lanes, traces: Traces, sh: Shared, cap: nat, id: Id, step: Step)
    requires AllOk(lanes, traces, sh) && WellFormed(sh.deny, cap) && Denies(LaneOf(lanes, id), step)
    ensures AllOk(Pushed(lanes, sh.deny, cap, id, step, EvictDeny),
                  PushedTraces(traces, sh.deny, cap, id, step, EvictDeny),
                  sh.(deny := Inserted(sh.deny, cap, id)))
  {
    InsertMembers(sh.deny, cap, id);
    var (lanes1, traces1, sh1) := (lanes, traces, sh);
    if Victims(sh.deny, cap, id) != {} {
      var v := Last(sh.deny);
      sh1 := sh.(deny := Without(sh.deny, v));
      EvictionKeeps(lanes, traces, sh, sh1, v, EvictDeny);
      lanes1, traces1 := StepLane(lanes, v, EvictDeny), StepTrace(traces, v, EvictDeny);
    }
    var sh2 := sh.(deny := Inserted(sh.deny, cap, id));
    assert LaneOk(lanes1, traces1, sh1, id);
    DenialAgrees(LaneOf(lanes1, id), step, sh1, sh2, id);
    StepKeeps(lanes1, traces1, sh1, sh2, id, step);
  }

  class Agent {
    const claimed: ResourceSet
    const deny: ResourceSet
    const inFlight: KeyLock
    var lanes: Lanes
    ghost var traces: Traces

    ghost predicate Ready()
      reads claimed, deny
    {
      claimed != deny && claimed.Valid() && deny.Valid()
    }

    ghost function Held(): Shared
      requires Ready()
      reads claimed, deny, inFlight
    {
      Shared(claimed.Recency(), deny.Recency(), inFlight.items)
    }

    ghost predicate Valid()
      reads this, claimed, deny, inFlight
    {
      Ready() && AllOk(lanes, traces, Held())
    }

    constructor (claimedMax: int, denyMax: int)
      ensures Valid() && lanes == map[]
      ensures fresh(claimed) && fresh(deny) && fresh(inFlight)
    {
      claimed := new ResourceSet(claimedMax);
      deny := new ResourceSet(denyMax);
      inFlight := new KeyLock();
      lanes := map[];
      traces := map[];
    }

    /** The call a task makes on the shared structures, the ledger insertion excepted, and
        what it answers: whether the lock was taken, or whether the id is deny-listed. */
    method Call(id: Id, task: Task) returns (answer: bool)
      requires Ready() && !task.pc.Claim?
      modifies claimed, deny, inFlight
      ensures Ready() && OnlyAt(old(Held()), Held(), id) && Called(task, old(Held()), Held(), id)
      ensures answer <==> || (task.pc.Lock? && id !in old(Held()).held)
                          || (ChecksDeny(task) && !DenyOpOf(task).NoDeny? && id in old(Held()).deny)
    {
      answer := false;
      if task.pc.Lock? {
        answer := inFlight.AddIfAbsent(id);
      } else if task.pc.Unlock? {
        inFlight.Remove(id);
      } else if task.pc.Undo? && task.newly {
        claimed.Remove(id);
      } else if ChecksDeny(task) && DenyOpOf(task).Consume? {
        answer := deny.Consume(id);
      } else if ChecksDeny(task) && DenyOpOf(task).Look? {
        TouchMembers(deny.Recency(), deny.maxSize, id);
        answer := deny.Contains(id);
      }
    }

    /** One step of a goroutine that is not its ledger insertion.  The branch it takes is the
        one the structures' answer calls for. */
    method RunTask(id: Id, t: TaskId, choice: Choice) returns (answer: bool)
      requires Valid() && CanRun(LaneOf(lanes, id), t, choice) && !LaneOf(lanes, id).tasks[t].pc.Claim?
      modifies this, claimed, deny, inFlight
      ensures Valid() && lanes == StepLane(old(lanes), id, Step.RunTask(t, choice))
      ensures var l := LaneOf(old(lanes), id); Follows(l.tasks[t], MoveOf(l.tasks[t], ViewOf(l), choice).task, answer)
    {
      ghost var sh := Held();
      assert LaneOk(lanes, traces, sh, id);
      answer := Call(id, LaneOf(lanes, id).tasks[t]);
      AnswerDecides(LaneOf(lanes, id), t, choice, answer);
      CallAgrees(LaneOf(lanes, id), t, choice, sh, Held(), id);
      StepKeeps(lanes, traces, sh, Held(), id, Step.RunTask(t, choice));
      lanes := StepLane(lanes, id, Step.RunTask(t, choice));
      traces := StepTrace(traces, id, Step.RunTask(t, choice));
    }

    /** `AddIfAbsent` on the ledger.  The victim's lane sees an eviction first. */
    method RunClaim(id: Id, t: TaskId, choice: Choice) returns (newlyAdded: bool)
      requires Valid() && CanRun(LaneOf(lanes, id), t, choice) && LaneOf(lanes, id).tasks[t].pc.Claim?
      modifies this, claimed
      ensures Valid()
      ensures lanes == Pushed(old(lanes), old(claimed.Recency()), claimed.maxSize, id, Step.RunTask(t, choice), EvictClaim)
      ensures newlyAdded == !LaneOf(old(lanes), id).claimed
    {
      var (recency, step) := (claimed.Recency(), Step.RunTask(t, choice));
      ClaimKeeps(lanes, traces, Held(), claimed.maxSize, id, t, choice);
      assert LaneOk(lanes, traces, Held(), id);
      newlyAdded := claimed.Insert(id);
      lanes := Pushed(lanes, recency, claimed.maxSize, id, step, EvictClaim);
      traces := PushedTraces(traces, recency, claimed.maxSize, id, step, EvictClaim);
    }

    /** One step of a cancel handler that is not its deny-list insertion. */
    method RunCancel(id: Id, c: TaskId, choice: CancelChoice) returns (found: bool)
      requires Valid() && c in LaneOf(lanes, id).cancels && OnRetryStream(LaneOf(lanes, id), choice.fetched)
      requires !LaneOf(lanes, id).cancels[c].pc.AddDeny?
      modifies this, claimed
      ensures Valid() && lanes == StepLane(old(lanes), id, Step.RunCancel(c, choice))
      ensures var (l, cancel) := (LaneOf(old(lanes), id), LaneOf(old(lanes), id).cancels[c]);
              cancel.pc.CheckClaimed? ==> (CancelMoveOf(cancel, ViewOf(l), choice).cancel.pc.Rejected? <==> found)
    {
      ghost var sh := Held();
      found := false;
      assert LaneOk(lanes, traces, sh, id);
      if LaneOf(lanes, id).cancels[c].pc.CheckClaimed? {
        TouchMembers(claimed.Recency(), claimed.maxSize, id);
        found := claimed.Contains(id);
        assert found == LaneOf(lanes, id).claimed;
      }
      CancelCallAgrees(LaneOf(lanes, id), c, choice, sh, Held(), id);
      StepKeeps(lanes, traces, sh, Held(), id, Step.RunCancel(c, choice));
      lanes := StepLane(lanes, id, Step.RunCancel(c, choice));
      traces := StepTrace(traces, id, Step.RunCancel(c, choice));
    }

    /** `Add` on the deny list.  The victim's lane sees an eviction first. */
    method RunDeny(id: Id, step: Step)
      requires Valid() && Denies(LaneOf(lanes, id), step)
      modifies this, deny
      ensures Valid()
      ensures lanes == Pushed(old(lanes), old(deny.Recency()), deny.maxSize, id, step, EvictDeny)
    {
      var recency := deny.Recency();
      DenyKeeps(lanes, traces, Held(), deny.maxSize, id, step);
      var _ := deny.Insert(id);
      lanes := Pushed(lanes, recency, deny.maxSize, id, step, EvictDeny);
      traces := PushedTraces(traces, recency, deny.maxSize, id, step, EvictDeny);
    }

    /** Arrivals, deliveries, dedup verdicts and new cancels touch no shared structure. */
    method Begin(id: Id, step: Step)
      requires Valid() && (step.Arrive? || step.Deliver? || step.Dedup? || step.StartCancel?)
      modifies this
      ensures Valid() && lanes == StepLane(old(lanes), id, step)
    {
      assert LaneOk(lanes, traces, Held(), id);
      StepKeeps(lanes, traces, Held(), Held(), id, step);
      lanes := StepLane(lanes, id, step);
      traces := StepTrace(traces, id, step);
    }

    /** The lock holds exactly the ids that have an attempt between acquisition and release. */
    lemma LockIsExact(id: Id)
      requires Valid()
      ensures id in inFlight.items
         <==> exists t :: t in LaneOf(lanes, id).tasks && Ledger.InSection(LaneOf(lanes, id).tasks[t].pc)
    {
      assert LaneOk(lanes, traces, Held(), id);
      Ledger.LockedExactlyInSection(TraceOf(traces, id));
    }

    /** With no attempt in progress and no eviction, the ledger holds an id exactly
        when the provider accepted an earlier attempt for it. */
    lemma LedgerIsExact(id: Id)
      requires Valid() && id !in inFlight.items && !LaneOf(lanes, id).claimLost
      ensures id in claimed.Recency() <==> LaneOf(lanes, id).forwarded != {}
    {
      assert LaneOk(lanes, traces, Held(), id);
      Ledger.LedgerMeansForwarded(TraceOf(traces, id));
    }

    /** A create the provider accepted and an acknowledged cancel of the same id went through
        one of the two windows, whatever happened to the other ids. */
    lemma BothOnlyThroughAWindow(id: Id, t: TaskId, c: TaskId)
      returns (look: nat, insert: nat, claim: nat, recheck: nat)
      requires Valid() && Race.BothHappened(LaneOf(lanes, id), t, c)
      ensures var steps := TraceOf(traces, id);
              && Race.Moments(steps, t, c, look, insert, claim, recheck) && look < claim
              && (recheck < insert
                  || exists i: nat, u :: insert < i < recheck && u != t && Race.ConsumesAt(steps, i, u))
    {
      assert LaneOk(lanes, traces, Held(), id);
      look, insert, claim, recheck := Race.BothHappenOnlyThroughAWindow(TraceOf(traces, id), t, c);
    }

    /** No create of any id is forwarded past a cancel in force, drained ones included, unless
        another live create consumed the entry in between. */
    lemma CancelsHold(id: Id, t: TaskId, c: TaskId) returns (insert: nat, recheck: nat)
      requires Valid()
      requires var l := LaneOf(lanes, id);
               && !l.denyLost && t in l.forwarded && t in l.tasks && l.tasks[t].kind.Create?
               && c in l.cancels && Race.Inserted(l.cancels[c].pc)
      ensures var steps := TraceOf(traces, id);
              && Race.DeniedByAt(steps, insert, c) && Race.RechecksAt(steps, recheck, t)
              && (recheck < insert
                  || exists i: nat, u :: insert < i < recheck && u != t && Race.ConsumesAt(steps, i, u))
    {
      assert LaneOk(lanes, traces, Held(), id);
      insert, recheck := Race.ForwardedPastACancel(TraceOf(traces, id), t, c);
    }

    /** No message of any id is ever lost. */
    lemma NothingIsLost(id: Id, m: MsgId)
      requires Valid() && m in LaneOf(lanes, id).msgs
      ensures var steps := TraceOf(traces, id);
              || m !in LaneOf(lanes, id).settled
              || Settlement.Decided(steps, m)
              || exists copy :: Settlement.CopiedTo(steps, m, copy)
                             && (copy !in LaneOf(lanes, id).settled || Settlement.Decided(steps, copy))
    {
      assert LaneOk(lanes, traces, Held(), id);
      Settlement.NoMessageIsLost(TraceOf(traces, id), m);
    }
  }
}
