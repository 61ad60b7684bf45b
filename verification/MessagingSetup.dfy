/** Setup, consumption and shutdown of the messaging client.

    Connect and reconnect callbacks, a background retry loop, `StartConsuming` calls and
    `Stop` run concurrently.  A step is one lock acquisition with what it decides, one
    remote call, or one access to an atomic flag; `stopped` and `consumeRequested` are read
    and written outside the locks, so they may change between any two steps. */
module MessagingSetup {
  datatype Kind = CancelLoop | MainLoop

  /** A started consume loop. */
  datatype Loop = Loop(kind: Kind, id: nat)

  /** Who runs `beginConsuming`: the attempt holding the setup lock, or a `StartConsuming` call. */
  datatype Who = BySetup | ByCaller(call: nat)

  /** Progress of the `beginConsuming` that holds `mu`. */
  datatype At = CancelNext | MainNext(c: Loop) | Recheck(c: Loop, m: Loop) | Append(c: Loop, m: Loop)

  datatype Lock = Unlocked | Begin(who: Who, at: At)

  /** Progress of the setup attempt that holds `setupMu`. */
  datatype Setup =
    | NoSetup
    | Remote                 // creating streams and consumers, draining cancels
    | Publish                // about to store the consumers under `mu`
    | Finish                 // deciding between callback and consuming
    | Beginning              // in `beginConsuming`
    | Callback               // inside the ready callback
    | CallbackBeginning      // inside the callback's `StartConsuming`
    | AfterCallback
    | AfterRequested
    | Latching               // succeeded, about to record that setup is done

  datatype Stopping = Running | Flagged | Collected | Closed

  /** What `mu` guards, with the stop flag, the live loops (those started and not yet told to
      stop or to drain) and the closing ones (told to drain, with a handler still running). */
  datatype Loops = Loops(
    mu: Lock, consuming: bool, consumers: seq<Loop>, draining: seq<Loop>, stop: Stopping, stopped: bool,
    live: set<Loop>, closing: set<Loop>, next: nat)

  /** What `setupMu` guards, with the retry loops and the ready callback's count. */
  datatype Attempt = Attempt(
    setup: Setup, byRetry: bool, done: bool, everFailed: bool,
    retrying: bool, retryLoops: nat, handoffs: nat, ready: nat, haveConsumers: bool)

  /** `StartConsuming`: the latch, the calls in flight, and whether one failed to consume after
      setup's last look at the latch. */
  datatype Requests = Requests(requested: bool, calls: set<nat>, failed: bool)

  datatype State = State(deferred: bool, l: Loops, a: Attempt, r: Requests)

  datatype Step =
    | Enter(byRetry: bool)
    | RemoteResult(ok: bool)
    | StoreConsumers
    | Decide
    | CallbackStart
    | CallbackEnd
    | CheckRequested
    | CheckConsuming
    | RecordDone
    | CallStart(call: nat)
    | Acquire(who: Who)
    | ConsumeCancel(ok: bool)
    | ConsumeMain(ok: bool)
    | CheckStopped
    | AppendLoops
    | Handoff
    | RetryExit
    | StopFlag
    | StopCollect
    | DrainOne
    | LoopCloses(loop: Loop)
    | StopEnd(gaveUp: bool)

  predicate Initial(s: State) {
    && s.l.mu == Unlocked && !s.l.consuming && s.l.consumers == [] && s.l.draining == [] && s.l.stop == Running
    && !s.l.stopped && s.l.live == {} && s.l.closing == {}
    && s.a.setup == NoSetup && !s.a.done && !s.a.everFailed && !s.a.retrying && s.a.retryLoops == 0
    && s.a.handoffs == 0 && s.a.ready == 0 && !s.a.haveConsumers
    && !s.r.requested && s.r.calls == {} && !s.r.failed
  }

  // ---------------------------------------------------------------------- setup

  /** `attemptSetup` returns false: a connect callback goes on to hand over to the retry loop. */
  function Failed(a: Attempt): Attempt {
    a.(setup := NoSetup, everFailed := true, handoffs := if a.byRetry then a.handoffs else a.handoffs + 1)
  }

  /** `setupStreamsAndConsume` returns true; `attemptSetup` has yet to record it. */
  function Succeeded(a: Attempt): Attempt { a.(setup := Latching) }

  function Recorded(a: Attempt): Attempt {
    if a.setup != Latching then a else a.(setup := NoSetup, done := true)
  }

  /** Setup has taken its last look at whether consumption was asked for. */
  predicate Past(a: Attempt) { a.done || a.setup == Latching }

  function Entered(a: Attempt, byRetry: bool, stopped: bool): Attempt {
    if a.setup != NoSetup || (byRetry && a.retryLoops == 0) || a.done || stopped then a
    else a.(setup := Remote, byRetry := byRetry)
  }

  function Answered(a: Attempt, ok: bool): Attempt {
    if a.setup != Remote then a else if ok then a.(setup := Publish) else Failed(a)
  }

  function Stored(a: Attempt, l: Loops): Attempt {
    if a.setup != Publish || l.mu != Unlocked then a
    else if l.stopped then Failed(a)
    else a.(haveConsumers := true, setup := Finish)
  }

  function Decided(a: Attempt, deferred: bool, requested: bool): Attempt {
    if a.setup != Finish then a
    else if deferred && !requested then a.(setup := Callback, ready := a.ready + 1)
    else a.(setup := Beginning)
  }

  function RequestChecked(a: Attempt, requested: bool): Attempt {
    if a.setup != AfterCallback then a
    else if requested then a.(setup := AfterRequested)
    else Succeeded(a)
  }

  function ConsumingChecked(a: Attempt, l: Loops): Attempt {
    if a.setup != AfterRequested || l.mu != Unlocked then a
    else if l.consuming then Succeeded(a)
    else Failed(a)
  }

  // ------------------------------------------------------------- beginConsuming

  predicate Waiting(s: State, who: Who) {
    match who
    case BySetup => s.a.setup == Beginning || s.a.setup == CallbackBeginning
    case ByCaller(call) => call in s.r.calls
  }

  /** `beginConsuming` leaves `l` behind and returns; its caller goes on. */
  function Returned(s: State, l: Loops, who: Who, ok: bool): State {
    match who
    case BySetup =>
      var a := if s.a.setup == CallbackBeginning then s.a.(setup := Callback)
               else if ok then Succeeded(s.a) else Failed(s.a);
      State(s.deferred, l.(mu := Unlocked), a, s.r)
    case ByCaller(call) =>
      State(s.deferred, l.(mu := Unlocked), s.a, s.r.(calls := s.r.calls - {call}, failed := s.r.failed || (!ok && Past(s.a))))
  }

  function Acquired(s: State, who: Who): State {
    if s.l.mu != Unlocked || !Waiting(s, who) then s
    else if s.l.consuming || s.l.stopped || !s.a.haveConsumers then Returned(s, s.l, who, true)
    else s.(l := s.l.(mu := Begin(who, CancelNext)))
  }

  function CancelStarted(s: State, ok: bool): State {
    if !(s.l.mu.Begin? && s.l.mu.at.CancelNext?) then s
    else if !ok then Returned(s, s.l, s.l.mu.who, false)
    else
      var c := Loop(CancelLoop, s.l.next);
      s.(l := s.l.(live := s.l.live + {c}, next := s.l.next + 1, mu := Begin(s.l.mu.who, MainNext(c))))
  }

  function MainStarted(s: State, ok: bool): State {
    if !(s.l.mu.Begin? && s.l.mu.at.MainNext?) then s
    else if !ok then Returned(s, s.l.(live := s.l.live - {s.l.mu.at.c}), s.l.mu.who, false)
    else
      var m := Loop(MainLoop, s.l.next);
      s.(l := s.l.(live := s.l.live + {m}, next := s.l.next + 1, mu := Begin(s.l.mu.who, Recheck(s.l.mu.at.c, m))))
  }

  function StopChecked(s: State): State {
    if !(s.l.mu.Begin? && s.l.mu.at.Recheck?) then s
    else if s.l.stopped then Returned(s, s.l.(live := s.l.live - {s.l.mu.at.c, s.l.mu.at.m}), s.l.mu.who, true)
    else s.(l := s.l.(mu := Begin(s.l.mu.who, Append(s.l.mu.at.c, s.l.mu.at.m))))
  }

  function Appended(s: State): State {
    if !(s.l.mu.Begin? && s.l.mu.at.Append?) then s
    else
      var l := s.l.(consumers := s.l.consumers + [s.l.mu.at.c, s.l.mu.at.m], consuming := true);
      Returned(s, l, s.l.mu.who, true)
  }

  // ------------------------------------------------------------- retry and stop

  function HandedOff(a: Attempt): Attempt {
    if a.setup != NoSetup || a.handoffs == 0 then a
    else if a.retrying then a.(handoffs := a.handoffs - 1)
    else a.(handoffs := a.handoffs - 1, retrying := true, retryLoops := a.retryLoops + 1)
  }

  /** The retry loop ends once setup is done or the client is stopped. */
  function RetryExited(a: Attempt, stopped: bool): Attempt {
    if a.setup != NoSetup || a.retryLoops == 0 || !(a.done || stopped) then a
    else a.(retryLoops := a.retryLoops - 1, retrying := false)
  }

  function Flag(l: Loops): Loops {
    if l.stop == Running then l.(stopped := true, stop := Flagged) else l
  }

  function Collect(l: Loops): Loops {
    if l.stop != Flagged || l.mu != Unlocked then l
    else l.(draining := l.consumers, consumers := [], stop := Collected)
  }

  function Drain(l: Loops): Loops {
    if l.stop != Collected || l.draining == [] then l
    else l.(live := l.live - {l.draining[0]}, closing := l.closing + {l.draining[0]}, draining := l.draining[1..])
  }

  /** Stop returns when the drained loops have closed, or when it gives up waiting for them. */
  predicate CanClose(l: Loops, gaveUp: bool) {
    l.stop == Collected && l.draining == [] && (l.closing == {} || gaveUp)
  }

  function Close(l: Loops, gaveUp: bool): Loops {
    if CanClose(l, gaveUp) then l.(stop := Closed) else l
  }

  function Next(s: State, step: Step): State {
    match step
    case Enter(byRetry) => s.(a := Entered(s.a, byRetry, s.l.stopped))
    case RemoteResult(ok) => s.(a := Answered(s.a, ok))
    case StoreConsumers => s.(a := Stored(s.a, s.l))
    case Decide => s.(a := Decided(s.a, s.deferred, s.r.requested))
    case CallbackStart => CallbackStarted(s)
    case CallbackEnd => CallbackEnded(s)
    case CheckRequested => s.(a := RequestChecked(s.a, s.r.requested))
    case CheckConsuming => s.(a := ConsumingChecked(s.a, s.l))
    case RecordDone => s.(a := Recorded(s.a))
    case CallStart(call) => CallStarted(s, call)
    case Acquire(who) => Acquired(s, who)
    case ConsumeCancel(ok) => CancelStarted(s, ok)
    case ConsumeMain(ok) => MainStarted(s, ok)
    case CheckStopped => StopChecked(s)
    case AppendLoops => Appended(s)
    case Handoff => s.(a := HandedOff(s.a))
    case RetryExit => s.(a := RetryExited(s.a, s.l.stopped))
    case StopFlag => s.(l := Flag(s.l))
    case StopCollect => s.(l := Collect(s.l))
    case DrainOne => s.(l := Drain(s.l))
    case LoopCloses(loop) => s.(l := s.l.(closing := s.l.closing - {loop}))
    case StopEnd(gaveUp) => s.(l := Close(s.l, gaveUp))
  }

  function CallbackStarted(s: State): State {
    if s.a.setup != Callback then s
    else s.(r := s.r.(requested := true), a := s.a.(setup := CallbackBeginning))
  }

  function CallbackEnded(s: State): State {
    if s.a.setup != Callback then s else s.(a := s.a.(setup := AfterCallback))
  }

  function CallStarted(s: State, call: nat): State {
    if call in s.r.calls then s else s.(r := s.r.(requested := true, calls := s.r.calls + {call}))
  }

  function Exec(s: State, steps: seq<Step>): State
    decreases |steps|
  {
    if steps == [] then s else Exec(Next(s, steps[0]), steps[1..])
  }

  // ------------------------------------------------------------------ invariant

  predicate IsPair(c: Loop, m: Loop) { c.kind == CancelLoop && m.kind == MainLoop }

  /** The loops somebody is responsible for: the `beginConsuming` under way, the client's
      list, or `Stop`. */
  ghost predicate Accounted(l: Loops) {
    if l.mu.Begin? then
      && !l.consuming
      && (match l.mu.at
          case CancelNext => l.live == {}
          case MainNext(c) => l.live == {c} && c.kind == CancelLoop
          case Recheck(c, m) => l.live == {c, m} && IsPair(c, m)
          case Append(c, m) => l.live == {c, m} && IsPair(c, m))
    else if l.consumers != [] then
      |l.consumers| == 2 && IsPair(l.consumers[0], l.consumers[1]) && l.live == {l.consumers[0], l.consumers[1]}
    else if l.draining == [] then l.live == {}
    else if |l.draining| == 1 then l.live == {l.draining[0]}
    else |l.draining| == 2 && IsPair(l.draining[0], l.draining[1]) && l.live == {l.draining[0], l.draining[1]}
  }

  ghost predicate StopOrder(l: Loops) {
    && (!l.consuming ==> l.consumers == [] && l.draining == [])
    && (l.stop != Running ==> l.stopped)
    && (l.stop == Collected || l.stop == Closed ==> l.mu == Unlocked && l.consumers == [])
    && (l.stop != Collected ==> l.draining == [])
    && (l.consuming && (l.stop == Running || l.stop == Flagged) ==> l.consumers != [])
  }

  predicate InCallback(p: Setup) {
    p == Callback || p == CallbackBeginning || p == AfterCallback || p == AfterRequested
  }

  ghost predicate SetupOrder(deferred: bool, a: Attempt, requested: bool) {
    && (a.setup != NoSetup ==> !a.done)
    && (Past(a) || a.setup == Finish || a.setup == Beginning || InCallback(a.setup) ==> a.haveConsumers)
    && a.ready <= 1
    && (a.ready == 1 ==> requested || Past(a) || InCallback(a.setup))
    && (a.setup == CallbackBeginning || a.setup == AfterRequested ==> requested)
    && (InCallback(a.setup) ==> deferred)
  }

  ghost predicate Retried(a: Attempt, stopped: bool) {
    && a.retryLoops == (if a.retrying then 1 else 0)
    && (a.setup != NoSetup && a.byRetry ==> a.retryLoops > 0)
    && (a.everFailed && !a.done && !stopped ==> a.handoffs > 0 || a.retryLoops > 0)
  }

  /** The holder of `mu` is a caller that is still waiting for it to return. */
  ghost predicate Attended(s: State) {
    s.l.mu.Begin? ==> s.a.haveConsumers && Waiting(s, s.l.mu.who)
  }

  ghost predicate NotStranded(s: State) {
    Past(s.a) ==>
      && (!s.deferred ==> s.l.consuming || s.l.stopped)
      && (s.r.requested ==> s.l.consuming || s.l.stopped || s.r.failed || s.r.calls != {})
  }

  ghost predicate Inv(s: State) {
    && Accounted(s.l) && StopOrder(s.l)
    && SetupOrder(s.deferred, s.a, s.r.requested) && Retried(s.a, s.l.stopped)
    && Attended(s) && NotStranded(s)
  }

  lemma EnterKeeps(s: State, byRetry: bool)
    requires Inv(s)
    ensures Inv(Next(s, Enter(byRetry)))
  {
  }

  lemma RemoteKeeps(s: State, ok: bool)
    requires Inv(s)
    ensures Inv(Next(s, RemoteResult(ok)))
  {
  }

  lemma StoreKeeps(s: State)
    requires Inv(s)
    ensures Inv(Next(s, StoreConsumers)) && Inv(Next(s, Decide))
  {
  }

  lemma CallbackKeeps(s: State)
    requires Inv(s)
    ensures Inv(Next(s, CallbackStart)) && Inv(Next(s, CallbackEnd))
  {
  }

  lemma CheckKeeps(s: State)
    requires Inv(s)
    ensures Inv(Next(s, CheckRequested)) && Inv(Next(s, CheckConsuming))
  {
  }

  lemma RecordKeeps(s: State)
    requires Inv(s)
    ensures Inv(Next(s, RecordDone))
  {
  }

  lemma CallKeeps(s: State, call: nat)
    requires Inv(s)
    ensures Inv(Next(s, CallStart(call)))
  {
  }

  lemma AcquireKeeps(s: State, who: Who)
    requires Inv(s)
    ensures Inv(Acquired(s, who))
  {
  }

  lemma CancelStartKeeps(s: State, ok: bool)
    requires Inv(s)
    ensures Inv(CancelStarted(s, ok))
  {
  }

  lemma MainStartKeeps(s: State, ok: bool)
    requires Inv(s)
    ensures Inv(MainStarted(s, ok))
  {
  }

  lemma StopCheckKeeps(s: State)
    requires Inv(s)
    ensures Inv(StopChecked(s))
  {
  }

  lemma AppendKeeps(s: State)
    requires Inv(s)
    ensures Inv(Appended(s))
  {
  }

  lemma RetryKeeps(s: State)
    requires Inv(s)
    ensures Inv(Next(s, Handoff)) && Inv(Next(s, RetryExit))
  {
  }

  lemma StopKeeps(s: State, gaveUp: bool)
    requires Inv(s)
    ensures Inv(Next(s, StopFlag)) && Inv(Next(s, StopEnd(gaveUp)))
  {
  }

  lemma CloseKeeps(s: State, loop: Loop)
    requires Inv(s)
    ensures Inv(Next(s, LoopCloses(loop)))
  {
  }

  lemma CollectKeeps(s: State)
    requires Inv(s)
    ensures Inv(Next(s, StopCollect))
  {
  }

  lemma DrainKeeps(s: State)
    requires Inv(s)
    ensures Inv(Next(s, DrainOne))
  {
  }

  lemma NextKeeps(s: State, step: Step)
    requires Inv(s)
    ensures Inv(Next(s, step))
  {
    match step
    case Enter(byRetry) => EnterKeeps(s, byRetry);
    case RemoteResult(ok) => RemoteKeeps(s, ok);
    case StoreConsumers => StoreKeeps(s);
    case Decide => StoreKeeps(s);
    case CallbackStart => CallbackKeeps(s);
    case CallbackEnd => CallbackKeeps(s);
    case CheckRequested => CheckKeeps(s);
    case CheckConsuming => CheckKeeps(s);
    case RecordDone => RecordKeeps(s);
    case CallStart(call) => CallKeeps(s, call);
    case Acquire(who) => AcquireKeeps(s, who);
    case ConsumeCancel(ok) => CancelStartKeeps(s, ok);
    case ConsumeMain(ok) => MainStartKeeps(s, ok);
    case CheckStopped => StopCheckKeeps(s);
    case AppendLoops => AppendKeeps(s);
    case Handoff => RetryKeeps(s);
    case RetryExit => RetryKeeps(s);
    case StopFlag => StopKeeps(s, false);
    case StopCollect => CollectKeeps(s);
    case DrainOne => DrainKeeps(s);
    case LoopCloses(loop) => CloseKeeps(s, loop);
    case StopEnd(gaveUp) => StopKeeps(s, gaveUp);
  }

  lemma {:induction false} ExecKeeps(s: State, steps: seq<Step>)
    requires Inv(s)
    ensures Inv(Exec(s, steps))
    decreases |steps|
  {
    if steps != [] {
      NextKeeps(s, steps[0]);
      ExecKeeps(Next(s, steps[0]), steps[1..]);
    }
  }

  // ------------------------------------------------------------------- theorems

  /** In every interleaving at most one cancel loop and one main loop are live. */
  lemma AtMostOnePair(s: State, steps: seq<Step>)
    requires Initial(s)
    ensures forall x, y :: x in Exec(s, steps).l.live && y in Exec(s, steps).l.live && x.kind == y.kind ==> x == y
  {
    ExecKeeps(s, steps);
  }

  /** The ready callback fires at most once. */
  lemma ReadyAtMostOnce(s: State, steps: seq<Step>)
    requires Initial(s)
    ensures Exec(s, steps).a.ready <= 1
  {
    ExecKeeps(s, steps);
  }

  ghost function Underway(at: At): set<Loop> {
    match at
    case CancelNext => {}
    case MainNext(c) => {c}
    case Recheck(c, m) => {c, m}
    case Append(c, m) => {c, m}
  }

  /** Who will stop a live loop: the `beginConsuming` that started it, the client's list
      that `Stop` collects, or `Stop` itself. */
  ghost function Responsible(l: Loops): set<Loop> {
    (if l.mu.Begin? then Underway(l.mu.at) else {}) + (set x | x in l.consumers) + (set x | x in l.draining)
  }

  /** Every live loop has exactly such an owner, and once `Stop` has returned every loop ever
      started has been told to stop or to drain. */
  lemma EveryLoopIsAccountedFor(s: State, steps: seq<Step>)
    requires Initial(s)
    ensures var l := Exec(s, steps).l; l.live == Responsible(l) && (l.stop == Closed ==> l.live == {})
  {
    ExecKeeps(s, steps);
    var l := Exec(s, steps).l;
    if |l.consumers| == 2 {
      assert l.consumers == [l.consumers[0], l.consumers[1]];
    }
    if |l.draining| == 2 {
      assert l.draining == [l.draining[0], l.draining[1]];
    }
    assert l.live == Responsible(l);
  }

  /** Step `i` is `Stop` returning because it gave up waiting. */
  ghost predicate GivesUpAt(s: State, steps: seq<Step>, i: nat) {
    i < |steps| && steps[i] == StopEnd(true) && CanClose(Exec(s, steps[..i]).l, true)
  }

  lemma CloseStep(s: State, step: Step)
    requires Next(s, step).l.stop == Closed && Next(s, step).l.closing != {}
    ensures (s.l.stop == Closed && s.l.closing != {}) || (step == StopEnd(true) && CanClose(s.l, true))
  {
    match step
    case Enter(_) =>
    case RemoteResult(_) =>
    case StoreConsumers =>
    case Decide =>
    case CallbackStart =>
    case CallbackEnd =>
    case CheckRequested =>
    case CheckConsuming =>
    case RecordDone =>
    case CallStart(_) =>
    case Acquire(_) =>
    case ConsumeCancel(_) =>
    case ConsumeMain(_) =>
    case CheckStopped =>
    case AppendLoops =>
    case Handoff =>
    case RetryExit =>
    case StopFlag =>
    case StopCollect =>
    case DrainOne =>
    case LoopCloses(_) =>
    case StopEnd(_) =>
  }

  /** A drained loop still has a handler running after `Stop` returned only if `Stop` gave up
      waiting for it. */
  lemma {:induction false} StopWaitsForHandlers(s: State, steps: seq<Step>) returns (i: nat)
    requires Initial(s) && Exec(s, steps).l.stop == Closed && Exec(s, steps).l.closing != {}
    ensures GivesUpAt(s, steps, i)
    decreases |steps|
  {
    i := |steps| - 1;
    Snoc(s, steps);
    CloseStep(Exec(s, steps[..i]), steps[i]);
    if !(steps[i] == StopEnd(true) && CanClose(Exec(s, steps[..i]).l, true)) {
      var front := steps[..i];
      i := StopWaitsForHandlers(s, front);
      assert steps[..i] == front[..i];
    }
  }

  /** Once `Stop` has collected the loops nobody starts another one. */
  lemma {:induction false} NoLoopAfterCollect(s: State, steps: seq<Step>)
    requires Inv(s) && (s.l.stop == Collected || s.l.stop == Closed)
    ensures Exec(s, steps).l.next == s.l.next && Exec(s, steps).l.live <= s.l.live
    decreases |steps|
  {
    if steps != [] {
      CollectedStep(s, steps[0]);
      NextKeeps(s, steps[0]);
      NoLoopAfterCollect(Next(s, steps[0]), steps[1..]);
    }
  }

  lemma CollectedStep(s: State, step: Step)
    requires Inv(s) && (s.l.stop == Collected || s.l.stop == Closed)
    ensures var t := Next(s, step);
            (t.l.stop == Collected || t.l.stop == Closed) && t.l.next == s.l.next && t.l.live <= s.l.live
  {
  }

  /** One background retry loop at most, and a failed setup always has one coming or running. */
  lemma FailuresAreRetriedOnce(s: State, steps: seq<Step>)
    requires Initial(s)
    ensures var e := Exec(s, steps);
            && e.a.retryLoops <= 1
            && (e.a.everFailed && !e.a.done && !e.l.stopped ==> e.a.handoffs > 0 || e.a.retryLoops == 1)
  {
    ExecKeeps(s, steps);
  }

  /** The step is the failure of a consume call made by a `StartConsuming` outside the ready
      callback, after setup's last look at the latch. */
  predicate LateFailure(s: State, step: Step) {
    && Past(s.a) && s.l.mu.Begin? && s.l.mu.who.ByCaller?
    && (|| (step == ConsumeCancel(false) && s.l.mu.at.CancelNext?)
        || (step == ConsumeMain(false) && s.l.mu.at.MainNext?))
  }

  ghost predicate LateFailureAt(s: State, steps: seq<Step>, i: nat) {
    i < |steps| && LateFailure(Exec(s, steps[..i]), steps[i])
  }

  lemma FailureStep(s: State, step: Step)
    ensures Next(s, step).r.failed <==> s.r.failed || LateFailure(s, step)
  {
    match step
    case Enter(_) =>
    case RemoteResult(_) =>
    case StoreConsumers =>
    case Decide =>
    case CallbackStart =>
    case CallbackEnd =>
    case CheckRequested =>
    case CheckConsuming =>
    case RecordDone =>
    case CallStart(_) =>
    case Acquire(_) =>
    case ConsumeCancel(_) =>
    case ConsumeMain(_) =>
    case CheckStopped =>
    case AppendLoops =>
    case Handoff =>
    case RetryExit =>
    case StopFlag =>
    case StopCollect =>
    case DrainOne =>
    case LoopCloses(_) =>
    case StopEnd(_) =>
  }

  lemma Snoc(s: State, steps: seq<Step>)
    requires steps != []
    ensures Exec(s, steps) == Next(Exec(s, steps[..|steps| - 1]), steps[|steps| - 1])
  {
    var (front, last) := (steps[..|steps| - 1], steps[|steps| - 1]);
    assert front + [last] == steps && [last][1..] == [];
    Concat(s, front, [last]);
  }

  lemma {:induction false} FailureCause(s: State, steps: seq<Step>) returns (i: nat)
    requires Exec(s, steps).r.failed && !s.r.failed
    ensures LateFailureAt(s, steps, i)
    decreases |steps|
  {
    i := |steps| - 1;
    Snoc(s, steps);
    FailureStep(Exec(s, steps[..i]), steps[i]);
    if Exec(s, steps[..i]).r.failed {
      var front := steps[..i];
      i := FailureCause(s, front);
      assert steps[..i] == front[..i];
    }
  }

  /** When setup is done, consumption was asked for, and no call is under way, the pair is
      live, unless a `StartConsuming` call outside the callback failed to consume after setup's
      last look at the latch.  Failures before that never strand the client. */
  lemma ConsumingWhenAsked(s: State, steps: seq<Step>)
    requires Initial(s)
    requires var e := Exec(s, steps); e.a.done && !e.l.stopped && (e.deferred ==> e.r.requested && e.r.calls == {})
    ensures var e := Exec(s, steps);
            || (e.l.consuming && |e.l.live| == 2)
            || (e.deferred && exists i: nat :: LateFailureAt(s, steps, i))
  {
    ExecKeeps(s, steps);
    var e := Exec(s, steps);
    if e.l.consuming {
      assert e.l.live == {e.l.consumers[0], e.l.consumers[1]};
    } else {
      var i := FailureCause(s, steps);
    }
  }

  /** Set up, nothing under way, and not consuming. */
  ghost predicate Stranded(s: State) {
    s.a.done && s.a.setup == NoSetup && s.l.mu == Unlocked && s.r.calls == {} && !s.l.consuming
  }

  /** Nobody is consuming, asking to, or stopping, and setup has had its last look. */
  predicate Unasked(s: State) {
    Past(s.a) && !s.l.consuming && !s.l.stopped && s.r.calls == {} && s.l.mu == Unlocked
  }

  /** The exception is real from every reachable state that can meet it: there, a
      `StartConsuming` call whose cancel or main consume fails leaves the client, as soon as
      setup is recorded, asked to consume and stranded. */
  lemma FailedCallStrandsTheClient(s: State, steps: seq<Step>, call: nat)
    requires Initial(s) && Unasked(Exec(s, steps))
    ensures var e := Exec(s, steps + [CallStart(call), Acquire(ByCaller(call))] + [ConsumeCancel(false), RecordDone]);
            Stranded(e) && e.r.requested && !e.l.stopped
    ensures var e := Exec(s, steps + [CallStart(call), Acquire(ByCaller(call))]
                               + [ConsumeCancel(true), ConsumeMain(false), RecordDone]);
            Stranded(e) && e.r.requested && !e.l.stopped
  {
    var e := Exec(s, steps);
    ExecKeeps(s, steps);
    var ask := [CallStart(call), Acquire(ByCaller(call))];
    CallBegins(e, call);
    FailedBegin(Exec(e, ask), call);
    Concat(s, steps, ask);
    Concat(s, steps + ask, [ConsumeCancel(false), RecordDone]);
    Concat(s, steps + ask, [ConsumeCancel(true), ConsumeMain(false), RecordDone]);
  }

  /** A `StartConsuming` call has taken the lock and is about to start the cancel loop. */
  predicate CallBeginning(s: State, call: nat) {
    && (s.a.setup == Latching || (s.a.done && s.a.setup == NoSetup))
    && !s.l.consuming && !s.l.stopped && s.r.requested
    && s.r.calls == {call} && s.l.mu == Begin(ByCaller(call), CancelNext)
  }

  lemma CallBegins(s: State, call: nat)
    requires Inv(s) && Unasked(s)
    ensures CallBeginning(Exec(s, [CallStart(call), Acquire(ByCaller(call))]), call)
  {
    Two(s, CallStart(call), Acquire(ByCaller(call)));
  }

  lemma FailedBegin(s: State, call: nat)
    requires CallBeginning(s, call)
    ensures var e := Exec(s, [ConsumeCancel(false), RecordDone]); Stranded(e) && e.r.requested && !e.l.stopped
    ensures var e := Exec(s, [ConsumeCancel(true), ConsumeMain(false), RecordDone]);
            Stranded(e) && e.r.requested && !e.l.stopped
  {
    Two(s, ConsumeCancel(false), RecordDone);
    Three(s, ConsumeCancel(true), ConsumeMain(false), RecordDone);
  }

  lemma Two(s: State, x: Step, y: Step)
    ensures Exec(s, [x, y]) == Next(Next(s, x), y)
  {
    assert [x, y][1..] == [y] && [y][1..] == [];
    assert Exec(s, [x, y]) == Exec(Next(s, x), [y]);
  }

  /** Such a state is reachable, both before and after setup is recorded: setup finishes before
      anybody asks to consume. */
  lemma SetUpUnasked(s: State) returns (steps: seq<Step>)
    requires Initial(s) && s.deferred
    ensures Unasked(Exec(s, steps)) && !Exec(s, steps).a.done
    ensures Unasked(Exec(s, steps + [RecordDone])) && Exec(s, steps + [RecordDone]).a.done
  {
    var a := [Enter(false), RemoteResult(true), StoreConsumers];
    var b := [Decide, CallbackEnd, CheckRequested];
    Three(s, Enter(false), RemoteResult(true), StoreConsumers);
    var s1 := Exec(s, a);
    Three(s1, Decide, CallbackEnd, CheckRequested);
    Concat(s, a, b);
    steps := a + b;
    Snoc(s, steps + [RecordDone]);
    assert (steps + [RecordDone])[..|steps|] == steps;
  }

  lemma {:induction false} StrandedForGood(s: State, steps: seq<Step>)
    requires Stranded(s) && forall step :: step in steps ==> !step.CallStart?
    ensures Stranded(Exec(s, steps))
    decreases |steps|
  {
    if steps != [] {
      StrandedStep(s, steps[0]);
      StrandedForGood(Next(s, steps[0]), steps[1..]);
    }
  }

  lemma StrandedStep(s: State, step: Step)
    requires Stranded(s) && !step.CallStart?
    ensures Stranded(Next(s, step))
  {
  }

  lemma Three(s: State, x: Step, y: Step, z: Step)
    ensures Exec(s, [x, y, z]) == Next(Next(Next(s, x), y), z)
  {
    assert [x, y, z][1..] == [y, z] && [y, z][1..] == [z] && [z][1..] == [];
    assert Exec(s, [x, y, z]) == Exec(Next(s, x), [y, z]);
    assert Exec(Next(s, x), [y, z]) == Exec(Next(Next(s, x), y), [z]);
  }

  lemma {:induction false} Concat(s: State, a: seq<Step>, b: seq<Step>)
    ensures Exec(s, a + b) == Exec(Exec(s, a), b)
    decreases |a|
  {
    if a == [] {
      assert a + b == b;
    } else {
      assert (a + b)[1..] == a[1..] + b;
      Concat(Next(s, a[0]), a[1..], b);
    }
  }

  // ------------------------------------------------------- setup makes progress

  /** No attempt holds the setup lock and none is needed any more or forbidden. */
  predicate Open(s: State) {
    s.a.setup == NoSetup && !s.a.done && !s.l.stopped && s.l.mu == Unlocked
  }

  /** A connect callback, and as well the retry loop if there is one, enters setup and gets as
      far as deciding about consumption. */
  lemma AttemptReachesDecision(s: State, byRetry: bool)
    requires Inv(s) && Open(s) && (byRetry ==> s.a.retryLoops == 1)
    ensures var e := Exec(s, [Enter(byRetry), RemoteResult(true), StoreConsumers]);
            && e.a.setup == Finish && e.a.haveConsumers && !e.a.done && e.a.ready == s.a.ready
            && e.l == s.l && e.r == s.r && e.deferred == s.deferred
  {
    Three(s, Enter(byRetry), RemoteResult(true), StoreConsumers);
  }

  lemma One(s: State, x: Step)
    ensures Exec(s, [x]) == Next(s, x)
  {
    assert [x][1..] == [];
  }

  /** Who is about to begin consuming, with nothing in the way. */
  predicate CanBegin(s: State, who: Who) {
    Waiting(s, who) && s.l.mu == Unlocked && !s.l.consuming && !s.l.stopped && s.a.haveConsumers
  }

  lemma BeginSteps(s: State, who: Who)
    requires CanBegin(s, who)
    ensures var e := Exec(s, [Acquire(who), ConsumeCancel(true), ConsumeMain(true)]);
            && e.l.mu.Begin? && e.l.mu.who == who && e.l.mu.at.Recheck? && !e.l.stopped
            && e.a == s.a && e.r == s.r && e.deferred == s.deferred
            && e.l.live == s.l.live + {e.l.mu.at.c, e.l.mu.at.m}
  {
    Three(s, Acquire(who), ConsumeCancel(true), ConsumeMain(true));
  }

  lemma EndSteps(s: State)
    requires s.l.mu.Begin? && s.l.mu.at.Recheck? && !s.l.stopped
    ensures var e := Exec(s, [CheckStopped, AppendLoops]);
            && e.l.consuming && !e.l.stopped && e.l.live == s.l.live && e.l.mu == Unlocked
            && e == Returned(s, e.l, s.l.mu.who, true)
  {
    Two(s, CheckStopped, AppendLoops);
  }

  /** Beginning to consume works: both loops become live and the caller goes on. */
  lemma BeginWorks(s: State, who: Who) returns (steps: seq<Step>)
    requires Inv(s) && CanBegin(s, who)
    ensures var e := Exec(s, steps);
            && e.l.consuming && |e.l.live| == 2 && !e.l.stopped && e.l.mu == Unlocked
            && e == Returned(s, e.l, who, true) && Inv(e)
  {
    var start, end := [Acquire(who), ConsumeCancel(true), ConsumeMain(true)], [CheckStopped, AppendLoops];
    BeginSteps(s, who);
    EndSteps(Exec(s, start));
    Concat(s, start, end);
    ExecKeeps(s, start + end);
    steps := start + end;
    var e := Exec(s, steps);
    PairIsLive(e);
  }

  lemma PairIsLive(s: State)
    requires Inv(s) && s.l.consuming && !s.l.stopped
    ensures |s.l.live| == 2
  {
    assert s.l.live == {s.l.consumers[0], s.l.consumers[1]};
  }

  /** Setup that finds consumption wanted consumes, and is recorded. */
  lemma FinishConsumes(s: State) returns (steps: seq<Step>)
    requires Inv(s) && s.a.setup == Beginning && s.l.mu == Unlocked && !s.l.stopped
    ensures var e := Exec(s, steps); e.a.done && e.l.consuming && |e.l.live| == 2 && !e.l.stopped
  {
    if s.l.consuming {
      steps := [Acquire(BySetup)];
      One(s, Acquire(BySetup));
      PairIsLive(s);
    } else {
      steps := BeginWorks(s, BySetup);
    }
    One(Exec(s, steps), RecordDone);
    Concat(s, steps, [RecordDone]);
    steps := steps + [RecordDone];
  }

  /** Setup that finds consumption not asked for fires the ready callback.  If the callback does
      nothing setup is recorded; if it calls `StartConsuming`, the client consumes first. */
  lemma CallbackFires(s: State) returns (idle: seq<Step>, consuming: seq<Step>)
    requires Inv(s) && s.a.setup == Finish && s.deferred && !s.r.requested && s.l.mu == Unlocked
    requires !s.l.stopped && !s.l.consuming
    ensures Next(s, Decide).a.setup == Callback && Next(s, Decide).a.ready == s.a.ready + 1
    ensures Exec(s, [Decide] + idle).a.done
    ensures var e := Exec(s, [Decide] + consuming);
            e.a.done && e.r.requested && e.l.consuming && |e.l.live| == 2
  {
    var e := Next(s, Decide);
    NextKeeps(s, Decide);
    One(s, Decide);
    idle := [CallbackEnd, CheckRequested, RecordDone];
    Three(e, CallbackEnd, CheckRequested, RecordDone);
    Concat(s, [Decide], idle);
    One(e, CallbackStart);
    NextKeeps(e, CallbackStart);
    var asked := Next(e, CallbackStart);
    var begin := BeginWorks(asked, BySetup);
    var back := Exec(asked, begin);
    var end := CallbackReturns(back);
    Concat(asked, begin, end);
    Concat(e, [CallbackStart], begin + end);
    consuming := [CallbackStart] + (begin + end);
    Concat(s, [Decide], consuming);
  }

  lemma CallbackReturns(s: State) returns (steps: seq<Step>)
    requires s.a.setup == Callback && s.r.requested && s.l.consuming && s.l.mu == Unlocked
    ensures var e := Exec(s, steps); e.a.done && e.r == s.r && e.l == s.l
  {
    Three(s, CallbackEnd, CheckRequested, CheckConsuming);
    var e := Exec(s, [CallbackEnd, CheckRequested, CheckConsuming]);
    One(e, RecordDone);
    Concat(s, [CallbackEnd, CheckRequested, CheckConsuming], [RecordDone]);
    steps := [CallbackEnd, CheckRequested, CheckConsuming] + [RecordDone];
  }

  /** After any run, however many attempts have failed: when the setup lock is free and the
      client is neither set up nor stopped, a connect callback, or the retry loop if there is
      one, can complete setup, and if consumption is wanted the pair is live then. */
  lemma SetupCanComplete(s: State, steps: seq<Step>, byRetry: bool) returns (more: seq<Step>)
    requires Initial(s) && Open(Exec(s, steps)) && (byRetry ==> Exec(s, steps).a.retryLoops == 1)
    ensures more != [] && more[0] == Enter(byRetry)
    ensures var (e, e') := (Exec(s, steps), Exec(s, steps + more));
            e'.a.done && (!e.deferred || e.r.requested ==> e'.l.consuming && |e'.l.live| == 2)
  {
    var e := Exec(s, steps);
    ExecKeeps(s, steps);
    var attempt := [Enter(byRetry), RemoteResult(true), StoreConsumers];
    AttemptReachesDecision(e, byRetry);
    ExecKeeps(e, attempt);
    var e1 := Exec(e, attempt);
    var rest;
    if e.deferred && !e.r.requested {
      var idle := DecideQuietly(e1);
      rest := [Decide] + idle;
    } else {
      One(e1, Decide);
      NextKeeps(e1, Decide);
      var begin := FinishConsumes(Next(e1, Decide));
      Concat(e1, [Decide], begin);
      rest := [Decide] + begin;
    }
    Concat(e, attempt, rest);
    more := attempt + rest;
    Concat(s, steps, more);
  }

  lemma DecideQuietly(s: State) returns (idle: seq<Step>)
    requires s.a.setup == Finish && s.deferred && !s.r.requested
    ensures Exec(s, [Decide] + idle).a.done
  {
    One(s, Decide);
    idle := [CallbackEnd, CheckRequested, RecordDone];
    Three(Next(s, Decide), CallbackEnd, CheckRequested, RecordDone);
    Concat(s, [Decide], idle);
  }

  /** A failed connect attempt can always hand over, and then a retry loop runs. */
  lemma HandoffLeadsToRetry(s: State, steps: seq<Step>)
    requires Initial(s) && Exec(s, steps).a.handoffs > 0 && Exec(s, steps).a.setup == NoSetup
    ensures Exec(s, steps + [Handoff]).a.retryLoops == 1
    ensures Exec(s, steps + [Handoff]).a.handoffs == Exec(s, steps).a.handoffs - 1
  {
    ExecKeeps(s, steps);
    One(Exec(s, steps), Handoff);
    Concat(s, steps, [Handoff]);
  }

  /** The retry loop can end once setup is done or the client stopped. */
  lemma RetryLoopEnds(s: State, steps: seq<Step>)
    requires Initial(s)
    requires var e := Exec(s, steps); e.a.retryLoops == 1 && e.a.setup == NoSetup && (e.a.done || e.l.stopped)
    ensures var e := Exec(s, steps + [RetryExit]); e.a.retryLoops == 0 && !e.a.retrying
  {
    One(Exec(s, steps), RetryExit);
    Concat(s, steps, [RetryExit]);
  }

  /** Once setup has created the consumers, a `StartConsuming` call can always make the client
      consume. */
  lemma StartConsumingWorks(s: State, steps: seq<Step>, call: nat) returns (more: seq<Step>)
    requires Initial(s)
    requires var e := Exec(s, steps);
             call !in e.r.calls && e.a.haveConsumers && !e.l.stopped && !e.l.consuming && e.l.mu == Unlocked
    ensures var e := Exec(s, steps + more);
            e.r.requested && e.l.consuming && |e.l.live| == 2 && call !in e.r.calls
  {
    var e := Exec(s, steps);
    ExecKeeps(s, steps);
    One(e, CallStart(call));
    NextKeeps(e, CallStart(call));
    var begin := BeginWorks(Next(e, CallStart(call)), ByCaller(call));
    Concat(e, [CallStart(call)], begin);
    more := [CallStart(call)] + begin;
    Concat(s, steps, more);
  }

  // ----------------------------------------------------------------- so does Stop

  lemma DrainsAll(s: State) returns (steps: seq<Step>)
    requires s.l.stop == Collected
    ensures var e := Exec(s, steps); e.l.stop == Collected && e.l.draining == []
    decreases |s.l.draining|
  {
    steps := [];
    if s.l.draining != [] {
      One(s, DrainOne);
      var rest := DrainsAll(Next(s, DrainOne));
      Concat(s, [DrainOne], rest);
      steps := [DrainOne] + rest;
    }
  }

  lemma ClosesAll(s: State) returns (steps: seq<Step>)
    requires s.l.stop == Collected && s.l.draining == []
    ensures var e := Exec(s, steps); e.l.stop == Collected && e.l.draining == [] && e.l.closing == {}
    decreases |s.l.closing|
  {
    steps := [];
    if s.l.closing != {} {
      var loop :| loop in s.l.closing;
      One(s, LoopCloses(loop));
      var rest := ClosesAll(Next(s, LoopCloses(loop)));
      Concat(s, [LoopCloses(loop)], rest);
      steps := [LoopCloses(loop)] + rest;
    }
  }

  lemma StopReturns(s: State) returns (steps: seq<Step>)
    requires s.l.stop == Collected
    ensures Exec(s, steps).l.stop == Closed && Exec(s, steps).l.closing == {}
  {
    var drain := DrainsAll(s);
    var e := Exec(s, drain);
    var close := ClosesAll(e);
    Concat(s, drain, close);
    One(Exec(s, drain + close), StopEnd(false));
    Concat(s, drain + close, [StopEnd(false)]);
    steps := drain + close + [StopEnd(false)];
  }

  /** `Stop` called on any running client whose lock is free can return with every loop closed. */
  lemma StopCanComplete(s: State, steps: seq<Step>) returns (more: seq<Step>)
    requires Initial(s) && Exec(s, steps).l.stop == Running && Exec(s, steps).l.mu == Unlocked
    ensures var e := Exec(s, steps + more); e.l.stop == Closed && e.l.live == {} && e.l.closing == {}
  {
    var e := Exec(s, steps);
    Two(e, StopFlag, StopCollect);
    var rest := StopReturns(Exec(e, [StopFlag, StopCollect]));
    Concat(e, [StopFlag, StopCollect], rest);
    more := [StopFlag, StopCollect] + rest;
    Concat(s, steps, more);
    EveryLoopIsAccountedFor(s, steps + more);
  }
}
