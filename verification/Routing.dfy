/** The request-routing protocol, seen from one resource id.

    A lane holds everything the agent keeps about one resource id: whether the id
    is in the in-flight lock, in the claimed-resources ledger and on the deny
    list, the create and delete messages for it, the goroutines working on them
    (the live main-topic handler and the retry processor's drains), and the cancel
    handlers.  A step is one call on a shared structure, one provider call, one
    publish, or one ack, nak or term; goroutines interleave freely and every
    external call may fail.  Other ids act on a lane only by evicting its ledger
    or deny-list entry, since both are bounded LRU sets. */
module Routing {
  import opened Base

  type MsgId = nat
  type TaskId = nat

  datatype Kind = Create | Delete
  datatype Stream = Main | Retry
  datatype Message = Message(kind: Kind, stream: Stream)

  /** Which code path a goroutine runs:
      the live main-topic handler; the restart drain of the main topic; a retry-topic
      message routed by service type (restart, or a transition of another provider);
      a retry-topic message for the provider whose transition is being processed. */
  datatype Path = Live | DrainMain | RetryRoute | TransitionSame

  datatype Outcome = Forwarded | TerminalError | Denied | Deduplicated

  datatype PC =
    | Guard | DenyCheck | Resolve | Lock | Claim | Recheck | Forward | Undo | Unlock | Publish
    | Ack | Term | Nak | Done

  datatype Task = Task(
    path: Path,
    mid: MsgId,
    kind: Kind,
    pc: PC,
    newly: bool,               // the ledger entry was added by this attempt
    next: PC,                  // where to go after the lock is released
    fault: bool,               // store error, failed publish, in-flight conflict, deadline
    verdict: Option<Outcome>,
    copy: Option<MsgId>,       // the copy this goroutine published to the retry stream
    claimedAt: nat,
    recheckedAt: nat
  )

  datatype CancelPC = CheckClaimed | AddDeny | Fetch | Purge(todo: seq<MsgId>) | Rejected | Acked | Failed | Drained
  datatype Cancel = Cancel(pc: CancelPC, checkedAt: nat, insertedAt: nat)

  /** A live create found the id on the deny list and removed the entry. */
  datatype Consumption = Consumption(at: nat, consumer: TaskId)

  datatype Settler = ByTask(t: TaskId) | ByCancel(c: TaskId)

  datatype Lane = Lane(
    now: nat,
    locked: bool,
    claimed: bool,
    denied: bool,
    msgs: map<MsgId, Message>,
    tasks: map<TaskId, Task>,
    cancels: map<TaskId, Cancel>,
    // history
    claimLost: bool,                    // the ledger entry was evicted at some point
    denyLost: bool,                     // the deny-list entry was evicted at some point
    holder: Option<TaskId>,             // who holds the in-flight lock
    forwarded: set<TaskId>,             // attempts the provider accepted
    consumed: set<Consumption>,
    denier: Option<TaskId>,             // the last cancel that deny-listed the id
    settled: map<MsgId, Settler>        // messages the agent acked or terminated
  )

  const Empty := Lane(0, false, false, false, map[], map[], map[], false, false, None, {}, {}, None, map[])

  // ------------------------------------------------------ environment choices

  datatype Delivery = Pass | MetadataError | Exceeded
  datatype Resolution = StoreError | NotFound | Unavailable | Unhealthy | Ready
  datatype Reply = Accepted | Refused | Interrupted   // Interrupted: the context ended

  datatype Choice = Choice(
    delivery: Delivery, resolution: Resolution, hasForwarder: bool, reply: Reply, publishOk: bool, copyId: MsgId)

  datatype CancelChoice = CancelChoice(hasConsumer: bool, ok: bool, fetched: seq<MsgId>)

  datatype Step =
    | Arrive(m: MsgId, message: Message)
    | Deliver(t: TaskId, path: Path, m: MsgId)
    | RunTask(t: TaskId, choice: Choice)
    | Dedup(t: TaskId, m: MsgId, partner: MsgId)
    | StartCancel(c: TaskId)
    | RunCancel(c: TaskId, cancelChoice: CancelChoice)
    | DrainCancel(c: TaskId)
    | EvictClaim
    | EvictDeny

  // -------------------------------------------------------------- task steps

  /** What one step of a goroutine sees of the shared structures ... */
  datatype View = View(now: nat, locked: bool, claimed: bool, denied: bool)

  /** ... and what it does to them. */
  datatype LockOp = NoLock | TakeLock | ReleaseLock
  datatype LedgerOp = NoLedger | InsertEntry | RemoveEntry
  datatype DenyOp = NoDeny | Look | Consume

  datatype Move = Move(
    task: Task, lock: LockOp, ledger: LedgerOp, deny: DenyOp, accepted: bool, copy: Option<MsgId>, settles: bool)

  function Quietly(task: Task): Move { Move(task, NoLock, NoLedger, NoDeny, false, None, false) }

  /** What a failed attempt does with its message: the restart drain of the main
      topic moves it to the retry stream, everyone else naks it in place. */
  function Requeue(path: Path): PC { if path.DrainMain? then Publish else Nak }

  function Fault(task: Task, pc: PC): Task { task.(fault := true, pc := pc) }

  function Decide(task: Task, outcome: Outcome, pc: PC): Task { task.(verdict := Some(outcome), pc := pc) }

  function GuardMove(task: Task, d: Delivery): Move {
    match d
    case Pass => Quietly(task.(pc := DenyCheck))
    case MetadataError => Quietly(Fault(task, Nak))
    case Exceeded => Quietly(Decide(task, TerminalError, Term))
  }

  /** Both deny-list checks: only creates look, the live handler consumes the entry. */
  function DenyOpOf(task: Task): DenyOp {
    if task.kind.Delete? then NoDeny else if task.path.Live? then Consume else Look
  }

  predicate Blocked(task: Task, v: View) { task.kind.Create? && v.denied }

  function DenyCheckMove(task: Task, v: View): Move {
    Quietly(if Blocked(task, v) then Decide(task, Denied, Ack) else task.(pc := Resolve)).(deny := DenyOpOf(task))
  }

  /** Where resolution leads, or nothing when the request is answered with an error. */
  function Resolved(path: Path, r: Resolution): Option<PC> {
    match path
    case Live => if r.Unhealthy? then Some(Publish) else if r.Ready? then Some(Lock) else None
    case DrainMain => if r.Ready? then Some(Lock) else if r.Unavailable? then None else Some(Publish)
    case RetryRoute => if r.Ready? then Some(Lock) else if r.Unavailable? then None else Some(Nak)
    case TransitionSame => if r.Ready? || r.Unhealthy? then Some(Lock) else None
  }

  function ResolveMove(task: Task, r: Resolution, hasForwarder: bool): Move {
    var pc := Resolved(task.path, r);
    Quietly(
      if r.StoreError? then Fault(task, Nak)
      else if pc.None? || (pc.value.Lock? && !hasForwarder) then Decide(task, TerminalError, Ack)
      else task.(pc := pc.value))
  }

  function LockMove(task: Task, v: View): Move {
    if v.locked then Quietly(Fault(task, Requeue(task.path)))
    else Quietly(task.(pc := Claim)).(lock := TakeLock)
  }

  function ClaimMove(task: Task, v: View): Move {
    Quietly(task.(newly := !v.claimed, claimedAt := v.now, pc := Recheck)).(ledger := InsertEntry)
  }

  function RecheckMove(task: Task, v: View): Move {
    var checked := task.(recheckedAt := v.now);
    Quietly(if Blocked(task, v) then Decide(checked.(next := Ack), Denied, Undo) else checked.(pc := Forward))
      .(deny := DenyOpOf(task))
  }

  function ForwardMove(task: Task, reply: Reply): Move {
    match reply
    case Accepted => Quietly(Decide(task.(next := Ack), Forwarded, Unlock)).(accepted := true)
    case Refused => Quietly(Decide(task.(next := Ack), TerminalError, Undo))
    case Interrupted => Quietly(Fault(task.(next := Requeue(task.path)), Undo))
  }

  function UndoMove(task: Task): Move {
    Quietly(task.(pc := Unlock)).(ledger := if task.newly then RemoveEntry else NoLedger)
  }

  function PublishMove(task: Task, ok: bool, copyId: MsgId): Move {
    if ok then Quietly(task.(copy := Some(copyId), pc := Ack)).(copy := Some(copyId))
    else Quietly(Fault(task, if task.path.DrainMain? then Done else Nak))
  }

  function MoveOf(task: Task, v: View, choice: Choice): Move {
    match task.pc
    case Guard => GuardMove(task, choice.delivery)
    case DenyCheck => DenyCheckMove(task, v)
    case Resolve => ResolveMove(task, choice.resolution, choice.hasForwarder)
    case Lock => LockMove(task, v)
    case Claim => ClaimMove(task, v)
    case Recheck => RecheckMove(task, v)
    case Forward => ForwardMove(task, choice.reply)
    case Undo => UndoMove(task)
    case Unlock => Quietly(task.(pc := task.next)).(lock := ReleaseLock)
    case Publish => PublishMove(task, choice.publishOk, choice.copyId)
    case Ack => Quietly(task.(pc := Done)).(settles := true)
    case Term => Quietly(task.(pc := Done)).(settles := true)
    case Nak => Quietly(task.(pc := Done))
    case Done => Quietly(task)
  }

  function ViewOf(l: Lane): View { View(l.now, l.locked, l.claimed, l.denied) }

  function Set(l: Lane, t: TaskId, task: Task): Lane {
    l.(tasks := l.tasks[t := task])
  }

  function ApplyMove(l: Lane, t: TaskId, mv: Move): Lane {
    Set(l, t, mv.task).(
      locked := if mv.lock.NoLock? then l.locked else mv.lock.TakeLock?,
      holder := if mv.lock.NoLock? then l.holder else if mv.lock.TakeLock? then Some(t) else None,
      claimed := if mv.ledger.NoLedger? then l.claimed else mv.ledger.InsertEntry?,
      denied := l.denied && !mv.deny.Consume?,
      consumed := if mv.deny.Consume? && l.denied then l.consumed + {Consumption(l.now, t)} else l.consumed,
      forwarded := if mv.accepted then l.forwarded + {t} else l.forwarded,
      msgs := if mv.copy.Some? then l.msgs[mv.copy.value := Message(mv.task.kind, Retry)] else l.msgs,
      settled := if mv.settles then l.settled[mv.task.mid := ByTask(t)] else l.settled)
  }

  /** Task `t` exists and `choice` is admissible for it: the id of a published copy is new. */
  predicate CanRun(l: Lane, t: TaskId, choice: Choice) {
    t in l.tasks && (choice.publishOk ==> choice.copyId !in l.msgs)
  }

  /** A goroutine's step. */
  function StepTask(l: Lane, t: TaskId, choice: Choice): Lane {
    if CanRun(l, t, choice)
    then ApplyMove(l, t, MoveOf(l.tasks[t], ViewOf(l), choice))
    else l
  }

  // ------------------------------------------------------------ cancel steps

  /** What one step of a cancel handler does: whether it reads the ledger, inserts
      into the deny list, or acks a purged message. */
  datatype CancelMove = CancelMove(cancel: Cancel, looks: bool, inserts: bool, purges: Option<MsgId>)

  function Goto(cancel: Cancel, pc: CancelPC): CancelMove {
    CancelMove(cancel.(pc := pc), false, false, None)
  }

  function CheckClaimedMove(cancel: Cancel, v: View): CancelMove {
    Goto(cancel.(checkedAt := v.now), if v.claimed then Rejected else AddDeny).(looks := true)
  }

  function InsertMove(cancel: Cancel, v: View, pc: CancelPC): CancelMove {
    Goto(cancel.(insertedAt := v.now), pc).(inserts := true)
  }

  function FetchMove(cancel: Cancel, choice: CancelChoice): CancelMove {
    Goto(cancel, if !choice.hasConsumer then Acked else if choice.ok then Purge(choice.fetched) else Failed)
  }

  function PurgeMove(cancel: Cancel, todo: seq<MsgId>, ok: bool): CancelMove {
    if todo == [] then Goto(cancel, if ok then Acked else Failed)
    else Goto(cancel, if ok then Purge(todo[1..]) else Failed).(purges := Some(todo[0]))
  }

  function CancelMoveOf(cancel: Cancel, v: View, choice: CancelChoice): CancelMove {
    match cancel.pc
    case CheckClaimed => CheckClaimedMove(cancel, v)
    case AddDeny => InsertMove(cancel, v, Fetch)
    case Fetch => FetchMove(cancel, choice)
    case Purge(todo) => PurgeMove(cancel, todo, choice.ok)
    case _ => Goto(cancel, cancel.pc)
  }

  function ApplyCancel(l: Lane, c: TaskId, mv: CancelMove): Lane {
    l.(cancels := l.cancels[c := mv.cancel],
       denied := l.denied || mv.inserts,
       denier := if mv.inserts then Some(c) else l.denier,
       settled := if mv.purges.Some? then l.settled[mv.purges.value := ByCancel(c)] else l.settled)
  }

  predicate OnRetryStream(l: Lane, ms: seq<MsgId>) {
    forall m :: m in ms ==> m in l.msgs && l.msgs[m].stream.Retry?
  }

  /** Cancel `c` exists, and what it may fetch is on the retry stream. */
  predicate CanCancel(l: Lane, c: TaskId, choice: CancelChoice) {
    c in l.cancels && OnRetryStream(l, choice.fetched)
  }

  /** A cancel handler's step. */
  function StepCancel(l: Lane, c: TaskId, choice: CancelChoice): Lane {
    if CanCancel(l, c, choice)
    then ApplyCancel(l, c, CancelMoveOf(l.cancels[c], ViewOf(l), choice))
    else l
  }

  // --------------------------------------------------------------- lane steps

  function NewTask(path: Path, m: MsgId, kind: Kind): Task {
    Task(path, m, kind, if path.Live? then Guard else DenyCheck, false, Nak, false, None, None, 0, 0)
  }

  /** The dedup of a retry batch acks every message of a create/delete pair. */
  function DedupTask(m: MsgId, kind: Kind): Task {
    NewTask(RetryRoute, m, kind).(pc := Ack, verdict := Some(Deduplicated))
  }

  const NewCancel := Cancel(CheckClaimed, 0, 0)

  function AfterArrive(l: Lane, m: MsgId, message: Message): Lane {
    if m in l.msgs then l else l.(msgs := l.msgs[m := message])
  }

  /** A delivery or redelivery starts a goroutine on a message of the right stream. */
  function AfterDeliver(l: Lane, t: TaskId, path: Path, m: MsgId): Lane {
    if t !in l.tasks && m in l.msgs && (l.msgs[m].stream.Main? <==> path.Live? || path.DrainMain?)
    then Set(l, t, NewTask(path, m, l.msgs[m].kind)) else l
  }

  predicate Partners(l: Lane, m: MsgId, partner: MsgId) {
    && m in l.msgs && partner in l.msgs
    && l.msgs[m].stream.Retry? && l.msgs[partner].stream.Retry?
    && l.msgs[m].kind != l.msgs[partner].kind
  }

  function AfterDedup(l: Lane, t: TaskId, m: MsgId, partner: MsgId): Lane {
    if t !in l.tasks && Partners(l, m, partner) then Set(l, t, DedupTask(m, l.msgs[m].kind)) else l
  }

  function AfterStartCancel(l: Lane, c: TaskId): Lane {
    if c in l.cancels then l else ApplyCancel(l, c, Goto(NewCancel, CheckClaimed))
  }

  /** The restart drain of the cancel topic deny-lists without looking at the ledger. */
  function AfterDrainCancel(l: Lane, c: TaskId): Lane {
    if c in l.cancels then l else ApplyCancel(l, c, InsertMove(NewCancel, ViewOf(l), Drained))
  }

  function Effect(l: Lane, step: Step): Lane {
    match step
    case Arrive(m, message) => AfterArrive(l, m, message)
    case Deliver(t, path, m) => AfterDeliver(l, t, path, m)
    case RunTask(t, choice) => StepTask(l, t, choice)
    case Dedup(t, m, partner) => AfterDedup(l, t, m, partner)
    case StartCancel(c) => AfterStartCancel(l, c)
    case RunCancel(c, choice) => StepCancel(l, c, choice)
    case DrainCancel(c) => AfterDrainCancel(l, c)
    case EvictClaim => l.(claimed := false, claimLost := true)
    case EvictDeny => l.(denied := false, denyLost := true)
  }

  /** A step that deny-lists the id: a cancel handler's, or the restart drain's. */
  predicate Denies(l: Lane, step: Step) {
    || (step.DrainCancel? && step.c !in l.cancels)
    || (step.RunCancel? && CanCancel(l, step.c, step.cancelChoice) && l.cancels[step.c].pc.AddDeny?)
  }

  function Tick(l: Lane): Lane { l.(now := l.now + 1) }

  function Next(l: Lane, step: Step): Lane { Tick(Effect(l, step)) }

  function Exec(l: Lane, steps: seq<Step>): Lane
    decreases |steps|
  {
    if steps == [] then l else Exec(Next(l, steps[0]), steps[1..])
  }

  lemma {:induction false} Concat(l: Lane, a: seq<Step>, b: seq<Step>)
    ensures Exec(l, a + b) == Exec(Exec(l, a), b)
    decreases |a|
  {
    if a == [] {
      assert a + b == b;
    } else {
      assert (a + b)[1..] == a[1..] + b;
      Concat(Next(l, a[0]), a[1..], b);
    }
  }

  lemma One(l: Lane, step: Step)
    ensures Exec(l, [step]) == Next(l, step)
  {
    assert [step][1..] == [];
  }
}
