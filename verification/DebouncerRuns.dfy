/** Every interleaving of Submit, timer callbacks, publisher goroutines and Stop
    calls on one debouncer.

    Event `n` of an instance is its n-th accepted submission.  A step is one
    mutex-protected section, one entry into `publishFn`, or one return from it.
    `timer.Stop` may lose its race with a timer that has already fired; the
    callback then stays around with its old version number, and since versions
    restart when an instance is dropped, it may match a later state. */
module DebouncerRuns {
  import opened Base
  import opened Debouncing

  type Pid = nat

  /** Where a publisher goroutine stands.  `called` says that `publishFn` has been entered. */
  datatype Phase =
    | Begin
    | Publishing(event: Event, called: bool)
    | Ending
    | Flushing(event: Event, called: bool)
    | Done

  datatype Routine = Routine(ver: nat, phase: Phase)

  /** An entry in the flush list of Stop call `owner`. */
  datatype Flush = Flush(owner: Pid, event: Event, called: bool)

  datatype Waker = ByTimer(t: TimerId) | ByRoutine(p: Pid)

  /** Everything that concerns one instance. */
  datatype Local = Local(
    inst: Option<Instance>,
    timers: map<TimerId, nat>,      // live callbacks and the version each was armed with
    nextTimer: nat,
    routines: map<Pid, Routine>,
    flush: Option<Flush>,
    accepted: nat,                  // number of accepted submissions
    published: seq<Event>,          // in the order publishFn was entered
    carrier: Option<Pid>,           // history: the goroutine in charge of publishing
    waker: Option<Waker>            // history: the callback that will next look at the instance
  )

  /** A Stop call past its locked section.  `late` are the instances with a flush
      of somebody else's unfinished when the section ran. */
  datatype Stopper = Stopper(todo: set<Id>, current: Option<Id>, returned: bool, late: set<Id>)

  datatype World = World(stopped: bool, locals: map<Id, Local>, stoppers: map<Pid, Stopper>)

  datatype Step =
    | Submit(id: Id, cancelled: bool)     // cancelled: the replaced timer was stopped in time
    | Fire(id: Id, t: TimerId, p: Pid)    // a timer fires: its callback runs on goroutine p
    | Advance(id: Id, p: Pid)
    | Stop(s: Pid)
    | FlushNext(s: Pid, id: Id)

  const Fresh := Local(None, map[], 0, map[], None, 0, [], None, None)
  const Initial := World(false, map[], map[])

  // ---------------------------------------------------- steps of one instance

  function LocalSubmit(l: Local, cancelled: bool): Local {
    var t := l.nextTimer;
    var l1 := l.(inst := Some(Submitted(l.inst, l.accepted, t)), accepted := l.accepted + 1);
    if Draining(l.inst) then l1
    else
      var replaced := TimerOf(l.inst);
      var left := if cancelled && replaced.Some? then l.timers - {replaced.value} else l.timers;
      l1.(timers := left[t := Version(l.inst) + 1], nextTimer := t + 1, waker := Some(ByTimer(t)))
  }

  function LocalFire(l: Local, t: TimerId, p: Pid): Local {
    if t in l.timers && p !in l.routines then
      l.(timers := l.timers - {t}, routines := l.routines[p := Routine(l.timers[t], Begin)],
         waker := if l.waker == Some(ByTimer(t)) then Some(ByRoutine(p)) else l.waker)
    else l
  }

  function Publish(l: Local, event: Event): Local {
    l.(published := l.published + [event])
  }

  function Become(l: Local, p: Pid, r: Routine): Local {
    l.(routines := l.routines[p := r])
  }

  function AdvanceBegin(l: Local, stopped: bool, p: Pid, ver: nat): Local {
    if CanBegin(l.inst, stopped, ver) then
      Become(l, p, Routine(ver, Publishing(l.inst.value.pending, false)))
        .(inst := Some(Begun(l.inst.value)), carrier := Some(p))
    else Become(l, p, Routine(ver, Done))
  }

  function AdvanceEnding(l: Local, stopped: bool, p: Pid, ver: nat): Local {
    var (inst, rest) := Ended(l.inst, stopped, ver);
    match rest
    case Nothing => Become(l, p, Routine(ver, Done)).(inst := inst, carrier := None)
    case FollowUp(v) => Become(l, p, Routine(v, Begin)).(inst := inst, carrier := None, waker := Some(ByRoutine(p)))
    case StopFlush(e) => Become(l, p, Routine(ver, Flushing(e, false))).(inst := inst)
  }

  function LocalAdvance(l: Local, stopped: bool, p: Pid): Local {
    if p !in l.routines then l
    else
      var ver := l.routines[p].ver;
      match l.routines[p].phase
      case Begin => AdvanceBegin(l, stopped, p, ver)
      case Publishing(e, called) =>
        if called then Become(l, p, Routine(ver, Ending))
        else Become(Publish(l, e), p, Routine(ver, Publishing(e, true)))
      case Ending => AdvanceEnding(l, stopped, p, ver)
      case Flushing(e, called) =>
        if called then Become(l, p, Routine(ver, Done)).(carrier := None)
        else Become(Publish(l, e), p, Routine(ver, Flushing(e, true)))
      case Done => l
  }

  /** Stop's locked section on one instance. */
  function LocalStop(l: Local, s: Pid): Local {
    if l.inst.None? then l
    else if Halted(l.inst.value).None? then
      l.(inst := None, flush := Some(Flush(s, l.inst.value.pending, false)))
    else l.(inst := Halted(l.inst.value))
  }

  /** The Stop call enters `publishFn` for the instance, or returns from it. */
  function LocalFlush(l: Local): Local {
    if l.flush.None? then l
    else if l.flush.value.called then l.(flush := None)
    else Publish(l, l.flush.value.event).(flush := Some(l.flush.value.(called := true)))
  }

  // -------------------------------------------------------- steps of the world

  function At(w: World, id: Id): Local {
    if id in w.locals then w.locals[id] else Fresh
  }

  function With(w: World, id: Id, l: Local): World {
    w.(locals := w.locals[id := l])
  }

  /** The goroutine in charge has a stop-flush to make or to finish: it is publishing an
      older event than the pending one, or it is in its stop-flush already. */
  predicate Owes(l: Local) {
    && l.carrier.Some? && l.carrier.value in l.routines
    && var r := l.routines[l.carrier.value];
       if Draining(l.inst) then l.inst.value.ver > r.ver else r.phase.Flushing?
  }

  /** A flush of the instance is not over that this debouncer's wait group does not count: the
      goroutine in charge owes one or is in it, or an earlier Stop call has it on its list. */
  predicate Unfinished(l: Local) { Owes(l) || l.flush.Some? }

  predicate InFlight(r: Routine) { r.phase.Publishing? || r.phase.Ending? }

  /** The wait group's count is zero: nobody is between beginPublish and endPublish. */
  ghost predicate NoneInFlight(w: World) {
    forall id, p :: id in w.locals && p in w.locals[id].routines ==> !InFlight(w.locals[id].routines[p])
  }

  function AfterStop(w: World, s: Pid): World {
    if s in w.stoppers then w
    else
      var idle := set id | id in w.locals && w.locals[id].inst.Some? && !Draining(w.locals[id].inst);
      var late := set id | id in w.locals && Unfinished(w.locals[id]);
      var locals := map id | id in w.locals :: LocalStop(w.locals[id], s);
      World(true, locals, w.stoppers[s := Stopper(idle, None, false, late)])
  }

  /** The Stop call works through its flush list one event at a time, then waits for the wait group. */
  ghost function AfterFlushNext(w: World, s: Pid, id: Id): World {
    if s !in w.stoppers then w
    else
      var x := w.stoppers[s];
      if x.current.Some? then
        var c := x.current.value;
        With(w, c, LocalFlush(At(w, c))).(stoppers := w.stoppers[s := x.(todo := x.todo - {c}, current := None)])
      else if id in x.todo then
        With(w, id, LocalFlush(At(w, id))).(stoppers := w.stoppers[s := x.(current := Some(id))])
      else if x.todo == {} && NoneInFlight(w) then w.(stoppers := w.stoppers[s := x.(returned := true)])
      else w
  }

  ghost function Next(w: World, step: Step): World {
    match step
    case Submit(id, cancelled) => if w.stopped then w else With(w, id, LocalSubmit(At(w, id), cancelled))
    case Fire(id, t, p) => With(w, id, LocalFire(At(w, id), t, p))
    case Advance(id, p) => With(w, id, LocalAdvance(At(w, id), w.stopped, p))
    case Stop(s) => AfterStop(w, s)
    case FlushNext(s, id) => AfterFlushNext(w, s, id)
  }

  ghost function Exec(w: World, steps: seq<Step>): World
    decreases |steps|
  {
    if steps == [] then w else Exec(Next(w, steps[0]), steps[1..])
  }

  // ------------------------------------------------ invariant of one instance

  function Newest(l: Local): int { l.accepted - 1 }
  function Latest(l: Local): int { if l.published == [] then -1 else l.published[|l.published| - 1] }

  /** A live callback that matches the instance's current version. */
  ghost predicate Awake(l: Local)
    requires l.inst.Some?
  {
    && l.waker.Some?
    && match l.waker.value
       case ByTimer(t) => t in l.timers && l.timers[t] == l.inst.value.ver
       case ByRoutine(p) => p in l.routines && l.routines[p] == Routine(l.inst.value.ver, Begin)
  }

  ghost predicate InOrder(l: Local) {
    && (forall i, j :: 0 <= i < j < |l.published| ==> l.published[i] < l.published[j])
    && (forall i :: 0 <= i < |l.published| ==> l.published[i] < l.accepted)
  }

  ghost predicate InstanceOk(l: Local, stopped: bool) {
    && (l.inst.Some? ==>
          && l.inst.value.pending == Newest(l)
          && l.inst.value.ver >= 1
          && l.flush.None?
          && if l.inst.value.draining then l.carrier.Some? && l.inst.value.timer.None?
             else l.carrier.None? && Latest(l) < Newest(l) && !stopped && Awake(l))
    && (l.inst.None? ==>
          && (l.carrier.Some? ==> stopped && l.flush.None?)
          && (l.carrier.None? && l.flush.None? ==> Latest(l) == Newest(l))
          && (l.flush.Some? ==>
                && stopped && l.flush.value.event == Newest(l)
                && if l.flush.value.called then Latest(l) == Newest(l) else Latest(l) < Newest(l)))
  }

  ghost predicate CarrierOk(l: Local) {
    l.carrier.Some? ==>
      && l.carrier.value in l.routines
      && (InFlight(l.routines[l.carrier.value]) || l.routines[l.carrier.value].phase.Flushing?)
      && (l.routines[l.carrier.value].phase.Flushing? <==> l.inst.None?)
  }

  /** Goroutine `p`, publishing or done publishing `e`, holds the instance and
      its version tells whether `e` is still the newest event. */
  ghost predicate Holds(l: Local, p: Pid, ver: nat, e: int) {
    && Draining(l.inst) && l.carrier == Some(p)
    && ver <= l.inst.value.ver
    && 0 <= e <= Newest(l)
    && (ver == l.inst.value.ver <==> e == Newest(l))
  }

  ghost predicate RoutineOk(l: Local, p: Pid)
    requires p in l.routines
  {
    match l.routines[p].phase
    case Begin => true
    case Publishing(e, called) =>
      Holds(l, p, l.routines[p].ver, e) && (if called then Latest(l) == e else Latest(l) < e)
    case Ending => Holds(l, p, l.routines[p].ver, Latest(l))
    case Flushing(e, called) =>
      && l.inst.None? && l.carrier == Some(p) && e == Newest(l)
      && (if called then Latest(l) == e else Latest(l) < e)
    case Done => true
  }

  ghost predicate TimersOk(l: Local) {
    && (forall t :: t in l.timers ==> t < l.nextTimer)
    && (TimerOf(l.inst).Some? ==> TimerOf(l.inst).value < l.nextTimer)
  }

  ghost predicate LocalInv(l: Local, stopped: bool) {
    && InOrder(l) && InstanceOk(l, stopped) && CarrierOk(l) && TimersOk(l)
    && (forall p :: p in l.routines ==> RoutineOk(l, p))
  }

  lemma SubmitKeeps(l: Local, cancelled: bool)
    requires LocalInv(l, false)
    ensures LocalInv(LocalSubmit(l, cancelled), false)
  {
    forall p | p in l.routines ensures RoutineOk(LocalSubmit(l, cancelled), p) {
      assert RoutineOk(l, p);
    }
  }

  lemma FireKeeps(l: Local, stopped: bool, t: TimerId, p: Pid)
    requires LocalInv(l, stopped)
    ensures LocalInv(LocalFire(l, t, p), stopped)
  {
    var l' := LocalFire(l, t, p);
    forall q | q in l'.routines ensures RoutineOk(l', q) {
      assert q in l.routines ==> RoutineOk(l, q);
    }
  }

  lemma PublishInOrder(l: Local, e: Event)
    requires InOrder(l) && Latest(l) < e < l.accepted
    ensures InOrder(Publish(l, e)) && Latest(Publish(l, e)) == e
  {
  }

  lemma BeginKeeps(l: Local, stopped: bool, p: Pid)
    requires LocalInv(l, stopped) && p in l.routines && l.routines[p].phase.Begin?
    ensures LocalInv(AdvanceBegin(l, stopped, p, l.routines[p].ver), stopped)
  {
    var l' := AdvanceBegin(l, stopped, p, l.routines[p].ver);
    forall q | q in l'.routines ensures RoutineOk(l', q) {
      BeginRoutine(l, stopped, p, q);
    }
    if CanBegin(l.inst, stopped, l.routines[p].ver) {
      assert InstanceOk(l', stopped) && CarrierOk(l');
    }
  }

  lemma BeginRoutine(l: Local, stopped: bool, p: Pid, q: Pid)
    requires InOrder(l) && InstanceOk(l, stopped) && p in l.routines && q in l.routines && RoutineOk(l, q)
    ensures RoutineOk(AdvanceBegin(l, stopped, p, l.routines[p].ver), q)
  {
  }

  lemma EndingKeeps(l: Local, stopped: bool, p: Pid)
    requires LocalInv(l, stopped) && p in l.routines && l.routines[p].phase.Ending?
    ensures LocalInv(AdvanceEnding(l, stopped, p, l.routines[p].ver), stopped)
  {
    var l' := AdvanceEnding(l, stopped, p, l.routines[p].ver);
    assert RoutineOk(l, p);
    forall q | q in l'.routines ensures RoutineOk(l', q) {
      assert RoutineOk(l, q);
    }
  }

  lemma PublishingKeeps(l: Local, stopped: bool, p: Pid)
    requires LocalInv(l, stopped) && p in l.routines
    requires l.routines[p].phase.Publishing? || l.routines[p].phase.Flushing?
    ensures LocalInv(LocalAdvance(l, stopped, p), stopped)
  {
    var l' := LocalAdvance(l, stopped, p);
    assert RoutineOk(l, p);
    if !l.routines[p].phase.called {
      PublishInOrder(l, l.routines[p].phase.event);
    }
    forall q | q in l'.routines ensures RoutineOk(l', q) {
      PublishingRoutine(l, stopped, p, q);
    }
  }

  lemma PublishingRoutine(l: Local, stopped: bool, p: Pid, q: Pid)
    requires p in l.routines && (l.routines[p].phase.Publishing? || l.routines[p].phase.Flushing?)
    requires q in l.routines && RoutineOk(l, p) && RoutineOk(l, q)
    ensures RoutineOk(LocalAdvance(l, stopped, p), q)
  {
  }

  lemma AdvanceKeeps(l: Local, stopped: bool, p: Pid)
    requires LocalInv(l, stopped)
    ensures LocalInv(LocalAdvance(l, stopped, p), stopped)
  {
    if p in l.routines {
      match l.routines[p].phase
      case Begin => BeginKeeps(l, stopped, p);
      case Publishing(_, _) => PublishingKeeps(l, stopped, p);
      case Ending => EndingKeeps(l, stopped, p);
      case Flushing(_, _) => PublishingKeeps(l, stopped, p);
      case Done =>
    }
  }

  lemma StopKeeps(l: Local, stopped: bool, s: Pid)
    requires LocalInv(l, stopped)
    ensures LocalInv(LocalStop(l, s), true)
  {
    forall p | p in l.routines ensures RoutineOk(LocalStop(l, s), p) {
      assert RoutineOk(l, p);
    }
  }

  lemma FlushKeeps(l: Local, stopped: bool)
    requires LocalInv(l, stopped)
    ensures LocalInv(LocalFlush(l), stopped)
  {
    if l.flush.Some? && !l.flush.value.called {
      PublishInOrder(l, l.flush.value.event);
    }
    forall p | p in l.routines ensures RoutineOk(LocalFlush(l), p) {
      assert RoutineOk(l, p);
    }
  }

  // ------------------------------------------------- invariant of the debouncer

  /** Flush lists and instances agree on who flushes what. */
  ghost predicate StopperOk(w: World, s: Pid)
    requires s in w.stoppers
  {
    && w.stopped
    && (w.stoppers[s].returned ==> w.stoppers[s].todo == {})
    && (w.stoppers[s].current.Some? ==> w.stoppers[s].current.value in w.stoppers[s].todo)
    && (forall id :: id in w.stoppers[s].todo ==>
          && At(w, id).flush.Some? && At(w, id).flush.value.owner == s
          && (At(w, id).flush.value.called <==> w.stoppers[s].current == Some(id)))
  }

  ghost predicate FlushOk(w: World, id: Id) {
    At(w, id).flush.Some? ==>
      At(w, id).flush.value.owner in w.stoppers && id in w.stoppers[At(w, id).flush.value.owner].todo
  }

  ghost predicate Inv(w: World) {
    && (!w.stopped ==> w.stoppers == map[])
    && (forall id :: LocalInv(At(w, id), w.stopped) && FlushOk(w, id))
    && (forall s :: s in w.stoppers ==> StopperOk(w, s))
  }

  /** A step that changes one instance and not its flush entry keeps the invariant. */
  lemma InstanceStepKeeps(w: World, id: Id, l: Local)
    requires Inv(w) && LocalInv(l, w.stopped) && l.flush == At(w, id).flush
    ensures Inv(With(w, id, l))
  {
    var w' := With(w, id, l);
    forall i ensures LocalInv(At(w', i), w'.stopped) && FlushOk(w', i) {
      assert LocalInv(At(w, i), w.stopped) && FlushOk(w, i);
    }
    forall s | s in w'.stoppers ensures StopperOk(w', s) {
      assert StopperOk(w, s);
    }
  }

  lemma AfterStopKeeps(w: World, s: Pid)
    requires Inv(w)
    ensures Inv(AfterStop(w, s))
  {
    if s !in w.stoppers {
      var w' := AfterStop(w, s);
      forall i ensures LocalInv(At(w', i), w'.stopped) && FlushOk(w', i) {
        assert LocalInv(At(w, i), w.stopped) && FlushOk(w, i);
        StopKeeps(At(w, i), w.stopped, s);
      }
      forall x | x in w'.stoppers ensures StopperOk(w', x) {
        if x != s {
          assert StopperOk(w, x);
          forall id | id in w.stoppers[x].todo ensures At(w', id).flush == At(w, id).flush {
            assert LocalInv(At(w, id), w.stopped);
          }
        }
      }
    }
  }

  /** Stop call `s` takes up or finishes the flush of `id`. */
  ghost predicate Flushes(w: World, s: Pid, id: Id) {
    s in w.stoppers && id in w.stoppers[s].todo && w.stoppers[s].current in {None, Some(id)}
  }

  lemma FlushStepLocal(w: World, s: Pid, id: Id, i: Id)
    requires Inv(w) && Flushes(w, s, id)
    ensures var w' := AfterFlushNext(w, s, id); LocalInv(At(w', i), w'.stopped) && FlushOk(w', i)
  {
    assert StopperOk(w, s);
    assert LocalInv(At(w, i), w.stopped) && FlushOk(w, i);
    FlushKeeps(At(w, i), w.stopped);
  }

  lemma FlushStepStopper(w: World, s: Pid, id: Id, x: Pid)
    requires Inv(w) && Flushes(w, s, id) && x in AfterFlushNext(w, s, id).stoppers
    ensures StopperOk(AfterFlushNext(w, s, id), x)
  {
    assert StopperOk(w, s) && StopperOk(w, x);
  }

  lemma FlushStepKeeps(w: World, s: Pid, id: Id)
    requires Inv(w) && Flushes(w, s, id)
    ensures Inv(AfterFlushNext(w, s, id))
  {
    var w' := AfterFlushNext(w, s, id);
    assert StopperOk(w, s);
    forall i ensures LocalInv(At(w', i), w'.stopped) && FlushOk(w', i) {
      FlushStepLocal(w, s, id, i);
    }
    forall x | x in w'.stoppers ensures StopperOk(w', x) {
      FlushStepStopper(w, s, id, x);
    }
  }

  lemma FlushNextKeeps(w: World, s: Pid, id: Id)
    requires Inv(w)
    ensures Inv(AfterFlushNext(w, s, id))
  {
    if s in w.stoppers {
      assert StopperOk(w, s);
      var x := w.stoppers[s];
      if x.current.Some? {
        FlushStepKeeps(w, s, x.current.value);
      } else if id in x.todo {
        FlushStepKeeps(w, s, id);
      } else {
        var w' := AfterFlushNext(w, s, id);
        forall i ensures LocalInv(At(w', i), w'.stopped) && FlushOk(w', i) {
          assert LocalInv(At(w, i), w.stopped) && FlushOk(w, i);
        }
        forall y | y in w'.stoppers ensures StopperOk(w', y) {
          assert StopperOk(w, y);
        }
      }
    }
  }

  lemma NextKeeps(w: World, step: Step)
    requires Inv(w)
    ensures Inv(Next(w, step))
  {
    match step
    case Submit(id, cancelled) =>
      assert LocalInv(At(w, id), w.stopped) && FlushOk(w, id);
      if !w.stopped {
        SubmitKeeps(At(w, id), cancelled);
        InstanceStepKeeps(w, id, LocalSubmit(At(w, id), cancelled));
      }
    case Fire(id, t, p) =>
      assert LocalInv(At(w, id), w.stopped);
      FireKeeps(At(w, id), w.stopped, t, p);
      InstanceStepKeeps(w, id, LocalFire(At(w, id), t, p));
    case Advance(id, p) =>
      assert LocalInv(At(w, id), w.stopped);
      AdvanceKeeps(At(w, id), w.stopped, p);
      InstanceStepKeeps(w, id, LocalAdvance(At(w, id), w.stopped, p));
    case Stop(s) => AfterStopKeeps(w, s);
    case FlushNext(s, id) => FlushNextKeeps(w, s, id);
  }

  lemma {:induction false} ExecKeeps(w: World, steps: seq<Step>)
    requires Inv(w)
    ensures Inv(Exec(w, steps))
    decreases |steps|
  {
    if steps != [] {
      NextKeeps(w, steps[0]);
      ExecKeeps(Next(w, steps[0]), steps[1..]);
    }
  }

  // ------------------------------------------------------------ main theorems

  /** The state an arbitrary run ends in, seen at one instance. */
  ghost function After(steps: seq<Step>, id: Id): Local {
    At(Exec(Initial, steps), id)
  }

  lemma Reached(steps: seq<Step>, id: Id)
    ensures LocalInv(After(steps, id), Exec(Initial, steps).stopped)
  {
    ExecKeeps(Initial, steps);
  }

  /** Publications of an instance follow acceptance order and none is repeated. */
  lemma PublishedInOrderAtMostOnce(steps: seq<Step>, id: Id, i: nat, j: nat)
    requires i < j < |After(steps, id).published|
    ensures After(steps, id).published[i] < After(steps, id).published[j] < After(steps, id).accepted
  {
    Reached(steps, id);
  }

  predicate InCall(r: Routine) {
    (r.phase.Publishing? || r.phase.Flushing?) && r.phase.called
  }

  /** At most one `publishFn` call per instance is in progress, whoever makes it. */
  lemma NeverOverlapping(steps: seq<Step>, id: Id, p: Pid, q: Pid)
    requires var l := After(steps, id);
             p in l.routines && InCall(l.routines[p])
    ensures var l := After(steps, id);
            && (q in l.routines && InCall(l.routines[q]) ==> p == q)
            && !(l.flush.Some? && l.flush.value.called)
  {
    Reached(steps, id);
    var l := After(steps, id);
    assert RoutineOk(l, p);
    assert q in l.routines ==> RoutineOk(l, q);
  }

  /** The last accepted event of an instance has been published. */
  predicate UpToDate(l: Local) { Latest(l) == Newest(l) }

  /** A goroutine that will still publish the newest event or look at the instance again. */
  predicate Active(l: Local) {
    l.carrier.Some? && l.carrier.value in l.routines && !l.routines[l.carrier.value].phase.Done?
  }

  /** The last accepted event is never lost: while it is unpublished and the
      debouncer runs, it is pending and a matching callback or an active
      publisher exists; after Stop it is in a publisher's or a Stop call's hands. */
  lemma NeverLost(steps: seq<Step>, id: Id)
    requires !UpToDate(After(steps, id))
    ensures var l := After(steps, id);
            if Exec(Initial, steps).stopped then
              Active(l) || (l.flush.Some? && l.flush.value.event == Newest(l))
            else
              l.inst.Some? && l.inst.value.pending == Newest(l) && (Active(l) || Awake(l))
  {
    Reached(steps, id);
  }

  /** Nothing is left to run for the instance. */
  predicate Quiet(l: Local) {
    l.timers == map[] && l.flush.None? && forall p :: p in l.routines ==> l.routines[p].phase.Done?
  }

  /** Once all activity of an instance has ended, with or without Stop, its last
      published event is its last accepted one. */
  lemma QuietMeansUpToDate(steps: seq<Step>, id: Id)
    requires Quiet(After(steps, id))
    ensures UpToDate(After(steps, id))
    ensures After(steps, id).inst.None?
  {
    Reached(steps, id);
  }

  lemma {:induction false} ExecConcat(w: World, a: seq<Step>, b: seq<Step>)
    ensures Exec(w, a + b) == Exec(Exec(w, a), b)
    decreases |a|
  {
    if a == [] {
      assert a + b == b;
    } else {
      assert (a + b)[1..] == a[1..] + b;
      ExecConcat(Next(w, a[0]), a[1..], b);
    }
  }

  lemma Extend(steps: seq<Step>, id: Id, step: Step)
    requires !Exec(Initial, steps).stopped
    requires (step.Submit? || step.Fire? || step.Advance?) && step.id == id
    ensures !Exec(Initial, steps + [step]).stopped
    ensures After(steps + [step], id) ==
            if step.Submit? then LocalSubmit(After(steps, id), step.cancelled)
            else if step.Fire? then LocalFire(After(steps, id), step.t, step.p)
            else LocalAdvance(After(steps, id), false, step.p)
  {
    ExecConcat(Initial, steps, [step]);
    assert [step][1..] == [];
  }

  lemma RunRoutine(steps: seq<Step>, id: Id, p: Pid) returns (more: seq<Step>)
    requires !Exec(Initial, steps).stopped
    requires var l := After(steps, id);
             && p in l.routines && l.routines[p].phase.Begin?
             && CanBegin(l.inst, false, l.routines[p].ver)
    ensures !Exec(Initial, more).stopped && steps <= more
    ensures var l := After(steps, id);
            After(more, id) == Become(l, p, l.routines[p].(phase := Done))
              .(inst := None, carrier := None, published := l.published + [l.inst.value.pending])
  {
    more := steps;
    var step := Advance(id, p);
    Extend(more, id, step);
    more := more + [step];
    Extend(more, id, step);
    more := more + [step];
    Extend(more, id, step);
    more := more + [step];
    Extend(more, id, step);
    more := more + [step];
  }

  /** Two submissions whose first timer could not be stopped; the second one's publishes. */
  lemma StaleTimerLeft(id: Id) returns (steps: seq<Step>)
    ensures !Exec(Initial, steps).stopped
    ensures var l := After(steps, id);
            && l.inst.None? && l.timers == map[0 := 1] && l.nextTimer == 2 && l.routines.Keys == {0}
            && l.published == [1] && l.accepted == 2
  {
    Extend([], id, Submit(id, false));
    Extend([Submit(id, false)], id, Submit(id, false));
    steps := [Submit(id, false)] + [Submit(id, false)];
    Extend(steps, id, Fire(id, 1, 0));
    steps := RunRoutine(steps + [Fire(id, 1, 0)], id, 0);
  }

  /** A callback that lost its race with `timer.Stop` can match a recreated
      instance and publish its first event while that event's own timer is still
      armed; by PublishedInOrderAtMostOnce the armed timer will not repeat it. */
  lemma StaleTimerPublishesEarly(id: Id) returns (steps: seq<Step>)
    ensures After(steps, id).published == [1, 2] && 2 in After(steps, id).timers
    ensures UpToDate(After(steps, id))
  {
    steps := StaleTimerLeft(id);
    Extend(steps, id, Submit(id, false));
    steps := steps + [Submit(id, false)];
    Extend(steps, id, Fire(id, 0, 1));
    steps := RunRoutine(steps + [Fire(id, 0, 1)], id, 1);
  }

  // -------------------------------------------------------- when Stop returns

  /** Somebody other than Stop call `s` has a flush of the instance to make or to finish. */
  predicate Behind(l: Local, s: Pid) {
    Owes(l) || (l.flush.Some? && l.flush.value.owner != s)
  }

  /** Only what was unfinished at Stop's locked section can still be outstanding. */
  ghost predicate LateOk(w: World, s: Pid)
    requires s in w.stoppers
  {
    forall id :: Behind(At(w, id), s) ==> id in w.stoppers[s].late
  }

  lemma OwesNoMore(l: Local, p: Pid)
    requires LocalInv(l, true) && Owes(LocalAdvance(l, true, p))
    ensures Owes(l)
  {
    if p in l.routines {
      assert RoutineOk(l, p);
    }
  }

  lemma FireOwes(l: Local, t: TimerId, p: Pid)
    requires LocalInv(l, true) && Owes(LocalFire(l, t, p))
    ensures Owes(l)
  {
  }

  lemma StopOwes(l: Local, s: Pid, x: Pid)
    requires LocalInv(l, true) && Behind(LocalStop(l, x), s)
    ensures Behind(l, s)
  {
  }

  lemma FlushOwes(l: Local, s: Pid)
    requires LocalInv(l, true) && Behind(LocalFlush(l), s)
    ensures Behind(l, s)
  {
  }

  lemma FireStillBehind(w: World, i: Id, t: TimerId, p: Pid, s: Pid, id: Id)
    requires LocalInv(At(w, id), true) && Behind(At(Next(w, Fire(i, t, p)), id), s)
    ensures Behind(At(w, id), s)
  {
    if i == id && Owes(LocalFire(At(w, id), t, p)) {
      FireOwes(At(w, id), t, p);
    }
  }

  lemma AdvanceStillBehind(w: World, i: Id, p: Pid, s: Pid, id: Id)
    requires w.stopped && LocalInv(At(w, id), true) && Behind(At(Next(w, Advance(i, p)), id), s)
    ensures Behind(At(w, id), s)
  {
    if i == id && Owes(LocalAdvance(At(w, id), true, p)) {
      OwesNoMore(At(w, id), p);
    }
  }

  lemma StopStillBehind(w: World, x: Pid, s: Pid, id: Id)
    requires LocalInv(At(w, id), true) && Behind(At(AfterStop(w, x), id), s)
    ensures Behind(At(w, id), s)
  {
    if x !in w.stoppers {
      StopOwes(At(w, id), s, x);
    }
  }

  lemma FlushStillBehind(w: World, x: Pid, i: Id, s: Pid, id: Id)
    requires LocalInv(At(w, id), true) && Behind(At(AfterFlushNext(w, x, i), id), s)
    ensures Behind(At(w, id), s)
  {
    if Behind(LocalFlush(At(w, id)), s) {
      FlushOwes(At(w, id), s);
    }
  }

  lemma StillBehind(w: World, step: Step, s: Pid, id: Id)
    requires Inv(w) && w.stopped && Behind(At(Next(w, step), id), s)
    ensures Behind(At(w, id), s)
  {
    assert LocalInv(At(w, id), w.stopped);
    match step
    case Submit(i, cancelled) =>
    case Fire(i, t, p) => FireStillBehind(w, i, t, p, s, id);
    case Advance(i, p) => AdvanceStillBehind(w, i, p, s, id);
    case Stop(x) => StopStillBehind(w, x, s, id);
    case FlushNext(x, i) => FlushStillBehind(w, x, i, s, id);
  }

  lemma StoppersStay(w: World, step: Step, s: Pid)
    requires s in w.stoppers
    ensures s in Next(w, step).stoppers && Next(w, step).stoppers[s].late == w.stoppers[s].late
    ensures w.stopped ==> Next(w, step).stopped
  {
  }

  lemma NextLate(w: World, step: Step, s: Pid)
    requires Inv(w) && s in w.stoppers && LateOk(w, s)
    ensures s in Next(w, step).stoppers && LateOk(Next(w, step), s)
  {
    var w' := Next(w, step);
    assert StopperOk(w, s);
    StoppersStay(w, step, s);
    forall id | Behind(At(w', id), s) ensures id in w'.stoppers[s].late {
      StillBehind(w, step, s, id);
    }
  }

  ghost predicate ReturnedOk(w: World, s: Pid)
    requires s in w.stoppers
  {
    w.stoppers[s].returned ==> NoneInFlight(w)
  }

  lemma IdleStays(w: World, step: Step, id: Id, p: Pid)
    requires w.stopped && NoneInFlight(w) && id in Next(w, step).locals && p in Next(w, step).locals[id].routines
    ensures !InFlight(Next(w, step).locals[id].routines[p])
  {
    assert id in w.locals && p in w.locals[id].routines ==> !InFlight(w.locals[id].routines[p]);
  }

  lemma NextReturned(w: World, step: Step, s: Pid)
    requires Inv(w) && s in w.stoppers && ReturnedOk(w, s)
    ensures s in Next(w, step).stoppers && ReturnedOk(Next(w, step), s)
  {
    var w' := Next(w, step);
    assert StopperOk(w, s);
    StoppersStay(w, step, s);
    if w.stoppers[s].returned {
      forall id, p | id in w'.locals && p in w'.locals[id].routines ensures !InFlight(w'.locals[id].routines[p]) {
        IdleStays(w, step, id, p);
      }
    }
  }

  /** A Stop call that has just taken its locked section. */
  lemma NewStopper(w: World, step: Step, s: Pid)
    requires Inv(w) && s !in w.stoppers && s in Next(w, step).stoppers
    ensures step == Stop(s)
    ensures LateOk(Next(w, step), s) && ReturnedOk(Next(w, step), s)
    ensures forall id :: id in Next(w, step).stoppers[s].late ==> Unfinished(At(w, id))
  {
    var w' := Next(w, step);
    forall id | Behind(At(w', id), s) ensures id in w'.stoppers[s].late {
      assert LocalInv(At(w, id), w.stopped);
      assert Unfinished(At(w, id));
    }
  }

  lemma {:induction false} ExecLate(w: World, steps: seq<Step>)
    requires Inv(w) && forall s :: s in w.stoppers ==> LateOk(w, s) && ReturnedOk(w, s)
    ensures forall s :: s in Exec(w, steps).stoppers ==> LateOk(Exec(w, steps), s) && ReturnedOk(Exec(w, steps), s)
    decreases |steps|
  {
    if steps != [] {
      var w' := Next(w, steps[0]);
      NextKeeps(w, steps[0]);
      forall s | s in w'.stoppers ensures LateOk(w', s) && ReturnedOk(w', s) {
        if s in w.stoppers {
          NextLate(w, steps[0], s);
          NextReturned(w, steps[0], s);
        } else {
          NewStopper(w, steps[0], s);
        }
      }
      ExecLate(w', steps[1..]);
    }
  }

  /** Step `i` of the run is the locked section of Stop call `s`. */
  ghost predicate LocksAt(steps: seq<Step>, i: nat, s: Pid) {
    i < |steps| && steps[i] == Stop(s) && s !in Exec(Initial, steps[..i]).stoppers
  }

  lemma {:induction false} LateWasUnfinished(steps: seq<Step>, s: Pid, id: Id) returns (i: nat)
    requires s in Exec(Initial, steps).stoppers && id in Exec(Initial, steps).stoppers[s].late
    ensures LocksAt(steps, i, s) && Unfinished(After(steps[..i], id))
    decreases |steps|
  {
    var n := |steps| - 1;
    var front := steps[..n];
    ExecKeeps(Initial, front);
    ExecConcat(Initial, front, [steps[n]]);
    assert front + [steps[n]] == steps && [steps[n]][1..] == [];
    var w := Exec(Initial, front);
    if s in w.stoppers {
      StoppersStay(w, steps[n], s);
      i := LateWasUnfinished(front, s, id);
      assert steps[..i] == front[..i];
    } else {
      NewStopper(w, steps[n], s);
      i := n;
    }
  }

  /** The instance's last accepted event is published and no publish call is in progress. */
  ghost predicate Settled(l: Local) {
    && UpToDate(l) && l.flush.None?
    && forall p :: p in l.routines ==> !InCall(l.routines[p])
  }

  /** When a Stop call returns, with any number of others under way, everything is published
      and every publish call is over, except for instances with a flush of somebody else's
      unfinished when this call took the lock. */
  lemma StopReturns(steps: seq<Step>, s: Pid, id: Id)
    requires s in Exec(Initial, steps).stoppers && Exec(Initial, steps).stoppers[s].returned
    ensures Settled(After(steps, id)) || exists i: nat :: LocksAt(steps, i, s) && Unfinished(After(steps[..i], id))
  {
    var w := Exec(Initial, steps);
    ExecKeeps(Initial, steps);
    ExecLate(Initial, steps);
    assert StopperOk(w, s) && FlushOk(w, id) && LateOk(w, s) && ReturnedOk(w, s);
    var l := At(w, id);
    UnsettledMeansBehind(w, s, id);
    if !Settled(l) {
      var i := LateWasUnfinished(steps, s, id);
    }
  }

  lemma UnsettledMeansBehind(w: World, s: Pid, id: Id)
    requires Inv(w) && s in w.stoppers && w.stoppers[s].returned && NoneInFlight(w)
    ensures Settled(At(w, id)) || Behind(At(w, id), s)
  {
    var l := At(w, id);
    assert StopperOk(w, s) && FlushOk(w, id) && LocalInv(l, w.stopped);
    assert l.carrier.Some? ==> RoutineOk(l, l.carrier.value);
    forall p | p in l.routines && InCall(l.routines[p]) ensures Behind(l, s) {
      assert RoutineOk(l, p);
      assert id in w.locals;
    }
  }

  // The converse: a flush unfinished at Stop's locked section can outlive Stop.

  predicate Busy(l: Local) {
    l.carrier.Some? && l.carrier.value in l.routines && InFlight(l.routines[l.carrier.value])
  }

  /** Lets the publisher of one instance finish, up to its endPublish. */
  lemma FinishPublisher(w: World, id: Id) returns (steps: seq<Step>, l: Local)
    requires Inv(w) && w.stopped && id in w.locals && Busy(w.locals[id])
    ensures Exec(w, steps) == With(w, id, l) && !Busy(l)
    ensures l.flush == w.locals[id].flush && (Owes(w.locals[id]) ==> Owes(l))
    ensures Inv(Exec(w, steps))
    decreases match w.locals[id].routines[w.locals[id].carrier.value].phase
              case Publishing(_, called) => if called then 2 else 3
              case _ => 1
  {
    var p := w.locals[id].carrier.value;
    var w1 := Next(w, Advance(id, p));
    NextKeeps(w, Advance(id, p));
    assert LocalInv(At(w, id), true) && RoutineOk(w.locals[id], p);
    l := LocalAdvance(w.locals[id], true, p);
    var rest := [];
    if Busy(l) {
      rest, l := FinishPublisher(w1, id);
      assert With(w1, id, l) == With(w, id, l);
    }
    steps := [Advance(id, p)] + rest;
    assert steps[1..] == rest;
  }

  ghost function BusyIds(w: World): set<Id> {
    set id | id in w.locals && Busy(w.locals[id])
  }

  lemma FinishAll(w: World, s: Pid, id: Id) returns (steps: seq<Step>)
    requires Inv(w) && w.stopped && id in w.locals && Behind(w.locals[id], s)
    ensures var w' := Exec(w, steps);
            && Inv(w') && w'.stopped && NoneInFlight(w') && w'.stoppers == w.stoppers
            && id in w'.locals && Behind(w'.locals[id], s)
    decreases |BusyIds(w)|
  {
    if BusyIds(w) == {} {
      forall i, p | i in w.locals && p in w.locals[i].routines ensures !InFlight(w.locals[i].routines[p]) {
        assert LocalInv(At(w, i), true) && RoutineOk(w.locals[i], p);
        assert i !in BusyIds(w);
      }
      steps := [];
    } else {
      var i :| i in BusyIds(w);
      var first, l := FinishPublisher(w, i);
      var w1 := Exec(w, first);
      assert BusyIds(w1) == BusyIds(w) - {i};
      var rest := FinishAll(w1, s, id);
      ExecConcat(w, first, rest);
      steps := first + rest;
    }
  }

  /** One entry of the flush list, from entering `publishFn` to returning from it. */
  lemma FlushOne(w: World, s: Pid, i: Id, id: Id)
    requires Inv(w) && s in w.stoppers && w.stoppers[s].current.None? && i in w.stoppers[s].todo
    requires id in w.locals && Behind(w.locals[id], s)
    ensures var w' := Next(Next(w, FlushNext(s, i)), FlushNext(s, i));
            && Inv(w') && w'.stopped && s in w'.stoppers
            && w'.stoppers[s].todo == w.stoppers[s].todo - {i} && w'.stoppers[s].current.None?
            && id in w'.locals && w'.locals[id] == w.locals[id]
  {
    assert StopperOk(w, s) && LocalInv(At(w, id), w.stopped);
    assert i != id;
    NextKeeps(w, FlushNext(s, i));
    NextKeeps(Next(w, FlushNext(s, i)), FlushNext(s, i));
  }

  lemma FlushAll(w: World, s: Pid, id: Id) returns (steps: seq<Step>)
    requires Inv(w) && s in w.stoppers && w.stoppers[s].current.None?
    requires id in w.locals && Behind(w.locals[id], s)
    ensures var w' := Exec(w, steps);
            && Inv(w') && w'.stopped && s in w'.stoppers
            && w'.stoppers[s].todo == {} && w'.stoppers[s].current.None?
            && id in w'.locals && Behind(w'.locals[id], s)
    decreases |w.stoppers[s].todo|
  {
    if w.stoppers[s].todo == {} {
      assert StopperOk(w, s);
      steps := [];
    } else {
      var i :| i in w.stoppers[s].todo;
      var step := FlushNext(s, i);
      var w1 := Next(w, step);
      var w2 := Next(w1, step);
      FlushOne(w, s, i, id);
      var rest := FlushAll(w2, s, id);
      steps := [step, step] + rest;
      assert steps[1..][1..] == rest;
      assert Exec(w1, steps[1..]) == Exec(w2, rest);
    }
  }

  /** Flush the own list, let every publisher reach its endPublish, and return. */
  lemma ReturnEarly(w: World, s: Pid, id: Id) returns (steps: seq<Step>)
    requires Inv(w) && s in w.stoppers && w.stoppers[s].current.None?
    requires id in w.locals && Behind(w.locals[id], s)
    ensures var w' := Exec(w, steps); s in w'.stoppers && w'.stoppers[s].returned && !Settled(At(w', id))
  {
    var flushes := FlushAll(w, s, id);
    var w1 := Exec(w, flushes);
    var finish := FinishAll(w1, s, id);
    var w2 := Exec(w1, finish);
    BehindMeansUnsettled(w2, s, id);
    var last := [FlushNext(s, id)];
    assert last[1..] == [];
    ExecConcat(w, flushes, finish);
    ExecConcat(w, flushes + finish, last);
    steps := flushes + finish + last;
  }

  /** The locked section of a new Stop call ends nobody else's flush. */
  lemma UnfinishedSurvives(w: World, s: Pid, id: Id)
    requires Inv(w) && s !in w.stoppers && Unfinished(At(w, id))
    ensures var w' := Next(w, Stop(s));
            id in w'.locals && Behind(w'.locals[id], s) && s in w'.stoppers && w'.stoppers[s].current.None?
  {
    assert LocalInv(At(w, id), w.stopped) && FlushOk(w, id);
  }

  /** From every reachable state with a flush of an instance unfinished, a new Stop call can
      return before that flush has begun or while it is running.  With StopReturns: Stop waits
      for everything if and only if no flush of somebody else's is unfinished when it takes
      the lock. */
  lemma StopCanReturnEarly(steps: seq<Step>, s: Pid, id: Id) returns (more: seq<Step>)
    requires s !in Exec(Initial, steps).stoppers && Unfinished(After(steps, id))
    ensures more != [] && more[0] == Stop(s)
    ensures var w := Exec(Initial, steps + more);
            s in w.stoppers && w.stoppers[s].returned && !Settled(At(w, id))
  {
    var w := Exec(Initial, steps);
    ExecKeeps(Initial, steps);
    NextKeeps(w, Stop(s));
    UnfinishedSurvives(w, s, id);
    var rest := ReturnEarly(Next(w, Stop(s)), s, id);
    more := [Stop(s)] + rest;
    assert more[1..] == rest;
    ExecConcat(Initial, steps, more);
  }

  lemma BehindMeansUnsettled(w: World, s: Pid, id: Id)
    requires Inv(w) && Behind(At(w, id), s) && NoneInFlight(w) && id in w.locals
    ensures !Settled(At(w, id))
  {
    var l := At(w, id);
    assert LocalInv(l, w.stopped);
    assert l.carrier.Some? ==> RoutineOk(l, l.carrier.value);
  }
}
