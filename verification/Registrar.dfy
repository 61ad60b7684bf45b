/** The DCM registrar: a supervised loop that registers the advertisable service types
    and re-registers when a one-slot notification channel is signalled.

    One step is one channel operation, one lister read, one request or reply, a context
    cancellation, or a panic; the environment interleaves with the loop freely. */
module Registrars {
  import opened Base

  type Types = set<Id>

  /** A registration payload: the types read for it, whether the lister answered, and how
      many notifications had been sent when it was built. */
  datatype Payload = Payload(types: Types, listed: bool, stamp: nat)

  datatype PC =
    | Gate            // about to read the lister
    | GateWait        // waiting for a signal or a retry tick
    | Build           // about to build a payload
    | Sending         // request in flight
    | Backoff         // waiting out a retryable failure
    | Idle            // heartbeat loop
    | Blocked         // initial registration failed for good
    | Crashed         // panicked, restart pending
    | Finished

  /** How the latest run of the registration loop ended. */
  datatype Verdict = Pending | Accepted | Rejected | Cancelled

  datatype State = State(
    pc: PC, initial: bool, token: bool, cancelled: bool,
    verdict: Verdict, built: Option<Payload>,
    // the control plane
    held: Option<Payload>,
    // the environment
    types: Types, sent: nat, unnotified: bool)

  datatype Cause = Signal | Timer | Shutdown

  datatype Reply = Success | Retryable(landed: bool) | NonRetryable(landed: bool)

  datatype Step =
    | Change(newTypes: Types)
    | Notify
    | Cancel
    | ReadLister(answered: bool)
    | Wake(cause: Cause)
    | BuildPayload(answered: bool)
    | Receive(reply: Reply)
    | Panic(landed: bool)
    | Restart

  predicate Start(s: State) {
    s.pc == Gate && s.initial && !s.token && !s.cancelled && s.verdict == Pending
    && s.built == None && s.held == None && s.sent == 0 && !s.unnotified
  }

  function Read(types: Types, answered: bool): Types { if answered then types else {} }

  /** `registerWithRetry` returns false. */
  function GiveUp(s: State, verdict: Verdict): State {
    s.(pc := if s.initial then Blocked else Idle, verdict := verdict)
  }

  function Woken(s: State, cause: Cause): State {
    if cause.Signal? && !s.token then s
    else if cause.Shutdown? && !s.cancelled then s
    else
      var t := if cause.Signal? then s.(token := false) else s;
      match s.pc
      case GateWait => t.(pc := if cause.Shutdown? then Finished else Gate)
      case Backoff => if cause.Shutdown? then GiveUp(t, Cancelled) else t.(pc := Build)
      case Idle =>
        (match cause
         case Signal => t.(pc := Build, initial := false, verdict := Pending)
         case Timer => t
         case Shutdown => t.(pc := Finished))
      case Blocked => if cause.Shutdown? then t.(pc := Finished) else s
      case _ => s
  }

  function Replied(s: State, reply: Reply): State {
    if s.pc != Sending then s
    else match reply
      case Success => s.(pc := Idle, verdict := Accepted, held := s.built)
      case Retryable(landed) =>
        var t := if landed then s.(held := s.built) else s;
        if s.cancelled then GiveUp(t, Cancelled) else t.(pc := Backoff)
      case NonRetryable(landed) =>
        var t := if landed then s.(held := s.built) else s;
        GiveUp(t, if s.cancelled then Cancelled else Rejected)
  }

  function Listed(s: State, answered: bool): State {
    if s.pc != Gate then s
    else if Read(s.types, answered) != {} then s.(pc := Build, verdict := Pending)
    else s.(pc := GateWait)
  }

  function Built(s: State, answered: bool): State {
    if s.pc != Build then s
    else if s.cancelled then GiveUp(s, Cancelled)
    else s.(pc := Sending, built := Some(Payload(Read(s.types, answered), answered, s.sent)))
  }

  function Panicked(s: State, landed: bool): State {
    if s.pc == Crashed || s.pc == Finished then s
    else if s.pc == Sending && landed then s.(pc := Crashed, held := s.built)
    else s.(pc := Crashed)
  }

  function Restarted(s: State): State {
    if s.pc != Crashed then s
    else if s.cancelled then s.(pc := Finished)
    else s.(pc := Gate, initial := true)
  }

  function Next(s: State, step: Step): State {
    match step
    case Change(newTypes) => s.(types := newTypes, unnotified := true)
    case Notify => s.(token := true, sent := s.sent + 1, unnotified := false)
    case Cancel => s.(cancelled := true)
    case ReadLister(answered) => Listed(s, answered)
    case Wake(cause) => Woken(s, cause)
    case BuildPayload(answered) => Built(s, answered)
    case Receive(reply) => Replied(s, reply)
    case Panic(landed) => Panicked(s, landed)
    case Restart => Restarted(s)
  }

  function Exec(s: State, steps: seq<Step>): State
    decreases |steps|
  {
    if steps == [] then s else Exec(Next(s, steps[0]), steps[1..])
  }

  // ------------------------------------------------------------------ invariant

  /** A fresh payload will be built before the next success. */
  predicate BuildAhead(pc: PC) { pc == Gate || pc == GateWait || pc == Build || pc == Crashed }

  /** An unanswered signal is queued, or a build is still ahead, or the last build saw it. */
  ghost predicate Signalled(s: State) {
    && (s.token || BuildAhead(s.pc) || s.pc == Finished || s.verdict == Cancelled
        || (s.built.Some? && s.built.value.stamp == s.sent))
    && (s.built.Some? ==> s.built.value.stamp <= s.sent)
  }

  /** A build that saw the last signal read the current types, unless they changed silently. */
  ghost predicate Current(s: State) {
    s.built.Some? && s.built.value.stamp == s.sent && !s.unnotified ==>
      s.built.value.types == Read(s.types, s.built.value.listed)
  }

  ghost predicate Judged(s: State) {
    && (s.verdict == Accepted ==> s.held == s.built && s.built.Some?)
    && (s.verdict == Cancelled ==> s.cancelled)
    && (s.pc == Sending ==> s.built.Some? && s.verdict == Pending)
    && (s.pc == Backoff ==> s.verdict == Pending)
    && (s.pc == Build ==> s.verdict == Pending)
    && (s.pc == Idle ==> s.verdict != Pending)
    && (s.pc == Blocked ==> s.verdict == Rejected || s.verdict == Cancelled)
    && (s.pc == Finished ==> s.cancelled)
  }

  ghost predicate Inv(s: State) { Signalled(s) && Current(s) && Judged(s) }

  lemma WokenIdleKeeps(s: State, cause: Cause)
    requires Inv(s) && s.pc == Idle
    ensures Inv(Woken(s, cause))
  {
    match cause
    case Signal =>
    case Timer =>
    case Shutdown =>
  }

  lemma WokenKeeps(s: State, cause: Cause)
    requires Inv(s)
    ensures Inv(Woken(s, cause))
  {
    match s.pc
    case Idle => WokenIdleKeeps(s, cause);
    case GateWait =>
    case Backoff =>
    case Blocked =>
    case _ => assert Woken(s, cause) == s;
  }

  lemma RepliedKeeps(s: State, reply: Reply)
    requires Inv(s)
    ensures Inv(Replied(s, reply))
  {
    match reply
    case Success =>
    case Retryable(_) =>
    case NonRetryable(_) =>
  }

  lemma OutsideKeeps(s: State, newTypes: Types)
    requires Inv(s)
    ensures Inv(Next(s, Change(newTypes))) && Inv(Next(s, Notify)) && Inv(Next(s, Cancel))
  {
  }

  lemma ReadKeeps(s: State, answered: bool)
    requires Inv(s)
    ensures Inv(Listed(s, answered))
  {
  }

  lemma BuildKeeps(s: State, answered: bool)
    requires Inv(s)
    ensures Inv(Built(s, answered))
  {
  }

  lemma PanicKeeps(s: State, landed: bool)
    requires Inv(s)
    ensures Inv(Panicked(s, landed))
  {
  }

  lemma RestartKeeps(s: State)
    requires Inv(s)
    ensures Inv(Restarted(s))
  {
  }

  lemma NextKeeps(s: State, step: Step)
    requires Inv(s)
    ensures Inv(Next(s, step))
  {
    match step
    case Change(newTypes) => OutsideKeeps(s, newTypes);
    case Notify => OutsideKeeps(s, {});
    case Cancel => OutsideKeeps(s, {});
    case ReadLister(answered) => ReadKeeps(s, answered);
    case Wake(cause) => WokenKeeps(s, cause);
    case BuildPayload(answered) => BuildKeeps(s, answered);
    case Receive(reply) => RepliedKeeps(s, reply);
    case Panic(landed) => PanicKeeps(s, landed);
    case Restart => RestartKeeps(s);
  }

  lemma {:induction false} ExecKeeps(s: State, steps: seq<Step>)
    requires Inv(s)
    ensures Inv(Exec(s, steps))
    decreases |steps|
  {
    if steps != [] {
      NextKeeps(s, steps[0]);
      ExecKeeps(Next(s, steps[0]), steps[1..]);
    }
  }

  // ------------------------------------------------------------------- theorems

  /** No notification is lost by coalescing: at every moment before shutdown either the
      signal is still queued, or a payload is still to be built, or the last payload was
      built after the last notification. */
  lemma NoSignalLost(s: State, steps: seq<Step>)
    requires Start(s)
    ensures var e := Exec(s, steps);
            e.cancelled || e.token || BuildAhead(e.pc) || (e.built.Some? && e.built.value.stamp == e.sent)
  {
    ExecKeeps(s, steps);
  }

  /** Idling with no queued signal after a successful registration, the control plane holds
      a payload built after the last notification.  If nothing changed silently since, it
      lists the current types, provided the lister answered when it was built. */
  lemma IdleMeansCurrent(s: State, steps: seq<Step>)
    requires Start(s)
    ensures var e := Exec(s, steps);
            e.pc == Idle && !e.token && e.verdict == Accepted ==>
              && e.held.Some? && e.held.value.stamp == e.sent
              && (!e.unnotified ==>
                    (e.held.value.types == e.types <==> e.held.value.listed || e.types == {}))
  {
    ExecKeeps(s, steps);
  }

  function Front(steps: seq<Step>): seq<Step>
    requires steps != []
  {
    steps[..|steps| - 1]
  }

  lemma Snoc(s: State, steps: seq<Step>)
    requires steps != []
    ensures Exec(s, steps) == Next(Exec(s, Front(steps)), steps[|steps| - 1])
  {
    var last := steps[|steps| - 1];
    assert Front(steps) + [last] == steps && [last][1..] == [];
    Concat(s, Front(steps), [last]);
  }

  /** The last reply the registrar took while a request of its was in flight. */
  ghost function LastReply(s: State, steps: seq<Step>): Option<Reply> {
    if steps == [] then None
    else if steps[|steps| - 1].Receive? && Exec(s, Front(steps)).pc == Sending then Some(steps[|steps| - 1].reply)
    else LastReply(s, Front(steps))
  }

  ghost predicate VerdictIsReply(e: State, reply: Option<Reply>) {
    && (e.verdict == Accepted ==> reply == Some(Success))
    && (e.verdict == Rejected ==> reply.Some? && reply.value.NonRetryable?)
  }

  lemma VerdictStep(s: State, step: Step, reply: Option<Reply>)
    requires VerdictIsReply(s, reply) && (s.pc == Sending ==> s.verdict == Pending)
    ensures VerdictIsReply(Next(s, step), if step.Receive? && s.pc == Sending then Some(step.reply) else reply)
  {
    match step
    case Change(_) =>
    case Notify =>
    case Cancel =>
    case ReadLister(_) =>
    case Wake(cause) =>
    case BuildPayload(_) =>
    case Receive(reply') =>
    case Panic(_) =>
    case Restart =>
  }

  lemma {:induction false} VerdictFollowsReply(s: State, steps: seq<Step>)
    requires Start(s)
    ensures VerdictIsReply(Exec(s, steps), LastReply(s, steps))
  {
    if steps != [] {
      Snoc(s, steps);
      VerdictFollowsReply(s, Front(steps));
      ExecKeeps(s, Front(steps));
      VerdictStep(Exec(s, Front(steps)), steps[|steps| - 1], LastReply(s, Front(steps)));
    }
  }

  /** Before shutdown the registrar blocks only when its last reply was a non-retryable refusal,
      and idles only when it was that or a success: it never gives up on a retryable failure. */
  lemma IdleVerdict(s: State, steps: seq<Step>)
    requires Start(s) && !Exec(s, steps).cancelled
    ensures Exec(s, steps).pc == Blocked ==>
              LastReply(s, steps).Some? && LastReply(s, steps).value.NonRetryable?
    ensures Exec(s, steps).pc == Idle ==>
              && LastReply(s, steps).Some? && !LastReply(s, steps).value.Retryable?
              && (LastReply(s, steps).value.Success? <==> Exec(s, steps).verdict == Accepted)
  {
    ExecKeeps(s, steps);
    VerdictFollowsReply(s, steps);
  }

  /** From every reachable state with a request in flight, a retryable failure leads to the
      backoff, from which the timer or a queued signal leads to building again, and a successful
      attempt then leaves the control plane with a payload built after every notification. */
  lemma RetryableFailuresAreRetried(s: State, steps: seq<Step>, landed: bool, cause: Cause)
    requires Start(s)
    requires var e := Exec(s, steps);
             e.pc == Sending && !e.cancelled && (cause.Timer? || (cause.Signal? && e.token))
    ensures var e := Exec(s, steps + [Receive(Retryable(landed)), Wake(cause)]);
            e.pc == Build && !e.cancelled && e.sent == Exec(s, steps).sent
    ensures var e := Exec(s, steps + [Receive(Retryable(landed)), Wake(cause)] + [BuildPayload(true), Receive(Success)]);
            && e.pc == Idle && e.verdict == Accepted && e.types == Exec(s, steps).types
            && e.held == Some(Payload(e.types, true, e.sent)) && e.sent == Exec(s, steps).sent
  {
    var retry := [Receive(Retryable(landed)), Wake(cause)];
    Concat(s, steps, retry);
    Two(Exec(s, steps), Receive(Retryable(landed)), Wake(cause));
    Concat(s, steps + retry, [BuildPayload(true), Receive(Success)]);
    Registers(Exec(s, steps + retry));
  }

  /** From the place before a build, one answered read and a success register the current types. */
  lemma Registers(s: State)
    requires s.pc == Build && !s.cancelled
    ensures var e := Exec(s, [BuildPayload(true), Receive(Success)]);
            && e.pc == Idle && e.verdict == Accepted && !e.cancelled && e.types == s.types && e.sent == s.sent
            && e.token == s.token && e.held == Some(Payload(s.types, true, s.sent))
  {
    Two(s, BuildPayload(true), Receive(Success));
  }

  lemma Two(s: State, x: Step, y: Step)
    ensures Exec(s, [x, y]) == Next(Next(s, x), y)
  {
    assert [x, y][1..] == [y] && [y][1..] == [];
    assert Exec(s, [x, y]) == Exec(Next(s, x), [y]);
  }

  lemma One(s: State, x: Step)
    ensures Exec(s, [x]) == Next(s, x)
  {
    assert [x][1..] == [];
  }

  // -------------------------------------------------------- the loop makes progress

  /** A state from which a fresh payload will be built by steps of the loop alone. */
  lemma ReachesBuild(s: State) returns (steps: seq<Step>)
    requires Inv(s) && !s.cancelled && s.types != {} && s.pc != Blocked && (s.pc == Idle ==> s.token)
    ensures var e := Exec(s, steps); e.pc == Build && !e.cancelled && e.types == s.types && e.sent == s.sent
    decreases match s.pc
              case Build => 0
              case Gate => 1
              case GateWait => 2
              case Crashed => 2
              case Backoff => 1
              case Idle => 1
              case Sending => 2
              case _ => 0
  {
    steps := [];
    if s.pc != Build {
      var step :=
        match s.pc
        case Gate => ReadLister(true)
        case GateWait => Wake(Timer)
        case Crashed => Restart
        case Backoff => Wake(Timer)
        case Idle => Wake(Signal)
        case _ => Receive(Retryable(false));
      NextKeeps(s, step);
      One(s, step);
      var rest := ReachesBuild(Next(s, step));
      Concat(s, [step], rest);
      steps := [step] + rest;
    }
  }

  /** From every reachable state before shutdown in which the registrar is not blocked and there
      is something to advertise, a notification can be followed by steps of the loop that end
      with the control plane holding exactly the current types. */
  lemma CanCatchUp(s: State, steps: seq<Step>) returns (more: seq<Step>)
    requires Start(s)
    requires var e := Exec(s, steps); !e.cancelled && e.pc != Blocked && e.types != {}
    ensures var e := Exec(s, steps + [Notify] + more);
            && e.pc == Idle && e.verdict == Accepted && e.types == Exec(s, steps).types
            && e.held == Some(Payload(e.types, true, e.sent))
  {
    ExecKeeps(s, steps);
    One(Exec(s, steps), Notify);
    Concat(s, steps, [Notify]);
    var e := Exec(s, steps + [Notify]);
    NextKeeps(Exec(s, steps), Notify);
    var way := ReachesBuild(e);
    Registers(Exec(e, way));
    Concat(e, way, [BuildPayload(true), Receive(Success)]);
    more := way + [BuildPayload(true), Receive(Success)];
    Concat(s, steps + [Notify], more);
  }

  /** Step `i` reads a list with something to advertise. */
  ghost predicate GateOpensAt(s: State, steps: seq<Step>, i: nat) {
    i < |steps| && steps[i] == ReadLister(true) && Exec(s, steps[..i]).pc == Gate && Exec(s, steps[..i]).types != {}
  }

  predicate PastGate(s: State) {
    s.built.Some? || s.pc == Build || s.pc == Sending || s.pc == Backoff || s.pc == Idle || s.pc == Blocked
  }

  lemma GateStep(s: State, step: Step)
    requires PastGate(Next(s, step)) && !PastGate(s)
    ensures step == ReadLister(true) && s.pc == Gate && s.types != {}
  {
    match step
    case Change(_) =>
    case Notify =>
    case Cancel =>
    case ReadLister(_) =>
    case Wake(_) =>
    case BuildPayload(_) =>
    case Receive(_) =>
    case Panic(_) =>
    case Restart =>
  }

  /** Nothing is built or sent before a lister read found something to advertise. */
  lemma {:induction false} NothingBeforeTheGate(s: State, steps: seq<Step>) returns (i: nat)
    requires Start(s) && PastGate(Exec(s, steps))
    ensures GateOpensAt(s, steps, i)
    decreases |steps|
  {
    i := |steps| - 1;
    Snoc(s, steps);
    if PastGate(Exec(s, Front(steps))) {
      i := NothingBeforeTheGate(s, Front(steps));
      assert steps[..i] == Front(steps)[..i];
    } else {
      GateStep(Exec(s, Front(steps)), steps[i]);
    }
  }

  /** A notification wakes the gate. */
  lemma SignalWakesGate(s: State, steps: seq<Step>)
    requires Start(s) && Exec(s, steps).pc == GateWait
    ensures var e := Exec(s, steps + [Notify, Wake(Signal)]); e.pc == Gate && e.types == Exec(s, steps).types
  {
    Concat(s, steps, [Notify, Wake(Signal)]);
    Two(Exec(s, steps), Notify, Wake(Signal));
  }

  /** After the context is cancelled the registrar can always be brought to its end. */
  lemma CanFinish(s: State) returns (steps: seq<Step>)
    requires s.cancelled
    ensures Exec(s, steps).pc == Finished
    decreases match s.pc
              case Finished => 0
              case GateWait => 1
              case Idle => 1
              case Blocked => 1
              case Crashed => 1
              case Backoff => 2
              case Build => 2
              case Sending => 2
              case Gate => 3
  {
    steps := [];
    if s.pc != Finished {
      var step :=
        match s.pc
        case Crashed => Restart
        case Build => BuildPayload(true)
        case Sending => Receive(Retryable(false))
        case Gate => ReadLister(false)
        case _ => Wake(Shutdown);
      One(s, step);
      var rest := CanFinish(Next(s, step));
      Concat(s, [step], rest);
      steps := [step] + rest;
    }
  }

  /** Whenever the first registration is refused for good, the registrar blocks. */
  lemma RefusalBlocks(s: State, steps: seq<Step>, landed: bool)
    requires Start(s)
    requires var e := Exec(s, steps); e.pc == Sending && e.initial && !e.cancelled
    ensures var e := Exec(s, steps + [Receive(NonRetryable(landed))]); e.pc == Blocked && e.verdict == Rejected
  {
    Concat(s, steps, [Receive(NonRetryable(landed))]);
    assert [Receive(NonRetryable(landed))][1..] == [];
  }

  lemma {:induction false} Concat(s: State, a: seq<Step>, b: seq<Step>)
    ensures Exec(s, a + b) == Exec(Exec(s, a), b)
    decreases |a|
  {
    if a == [] {
      assert a + b == b;
    } else {
      assert (a + b)[1..] == a[1..] + b;
      Concat(Next(s, a[0]), a[1..], b);
    }
  }

  predicate Quiet(steps: seq<Step>) {
    forall step :: step in steps ==> !step.Cancel? && !step.Panic?
  }

  /** After a non-retryable refusal of the initial registration nothing is ever sent again:
      no notification, tick or change moves the registrar. */
  lemma {:induction false} BlockedForGood(s: State, steps: seq<Step>)
    requires s.pc == Blocked && !s.cancelled && Quiet(steps)
    ensures Exec(s, steps).pc == Blocked && Exec(s, steps).held == s.held && Exec(s, steps).built == s.built
    decreases |steps|
  {
    if steps != [] {
      BlockedForGood(Next(s, steps[0]), steps[1..]);
    }
  }

  /** The success is needed.  From every state that idles with a signal queued, a refused
      re-registration leads back to idling with none, while the control plane still holds
      what it held, built before the notification. */
  lemma RefusedUpdateStaysStale(s: State, steps: seq<Step>)
    requires Start(s)
    requires var e := Exec(s, steps);
             e.pc == Idle && e.token && !e.cancelled && e.held.Some? && e.held.value.stamp < e.sent
    ensures var (e, e') := (Exec(s, steps),
                            Exec(s, steps + [Wake(Signal), BuildPayload(true), Receive(NonRetryable(false))]));
            && e'.pc == Idle && !e'.token && !e'.cancelled && e'.verdict == Rejected
            && e'.types == e.types && e'.unnotified == e.unnotified
            && e'.held == e.held && e'.held.value.stamp < e'.sent
  {
    Concat(s, steps, [Wake(Signal), BuildPayload(true), Receive(NonRetryable(false))]);
    Three(Exec(s, steps), Wake(Signal), BuildPayload(true), Receive(NonRetryable(false)));
  }

  /** Such a state is reachable: the types change after a first registration. */
  lemma IdleWithNews(s: State, a: Id, b: Id) returns (steps: seq<Step>)
    requires Start(s) && s.types == {a} && a != b
    ensures var e := Exec(s, steps);
            && e.pc == Idle && e.token && !e.cancelled && !e.unnotified
            && e.types == {b} && e.held == Some(Payload({a}, true, 0)) && e.sent == 1
  {
    assert a in s.types;
    Three(s, ReadLister(true), BuildPayload(true), Receive(Success));
    var s1 := Exec(s, [ReadLister(true), BuildPayload(true), Receive(Success)]);
    Three(s1, Change({b}), Notify, Wake(Timer));
    Concat(s, [ReadLister(true), BuildPayload(true), Receive(Success)], [Change({b}), Notify, Wake(Timer)]);
    steps := [ReadLister(true), BuildPayload(true), Receive(Success)] + [Change({b}), Notify, Wake(Timer)];
  }

  /** The lister's answer is needed.  From every state about to build a payload, one failed
      read and a success lead to idling with an empty list registered, and no signal is
      queued to correct it unless one already was. */
  lemma SilentListerRegistersNothing(s: State, steps: seq<Step>)
    requires Start(s)
    requires var e := Exec(s, steps); e.pc == Build && !e.cancelled
    ensures var (e, e') := (Exec(s, steps), Exec(s, steps + [BuildPayload(false), Receive(Success), Wake(Timer)]));
            && e'.pc == Idle && e'.verdict == Accepted && e'.token == e.token
            && e'.types == e.types && e'.unnotified == e.unnotified
            && e'.held.Some? && e'.held.value.types == {}
  {
    Concat(s, steps, [BuildPayload(false), Receive(Success), Wake(Timer)]);
    Three(Exec(s, steps), BuildPayload(false), Receive(Success), Wake(Timer));
  }

  lemma Three(s: State, x: Step, y: Step, z: Step)
    ensures Exec(s, [x, y, z]) == Next(Next(Next(s, x), y), z)
  {
    assert [x, y, z][1..] == [y, z] && [y, z][1..] == [z] && [z][1..] == [];
    assert Exec(s, [x, y, z]) == Exec(Next(s, x), [y, z]);
    assert Exec(Next(s, x), [y, z]) == Exec(Next(Next(s, x), y), [z]);
  }
}
