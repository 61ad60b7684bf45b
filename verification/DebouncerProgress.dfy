/** The debouncer gets somewhere: what is pending can always be published, a burst of
    submissions is published once, and Stop can always return. */
module DebouncerProgress {
  import opened Base
  import opened Debouncing
  import opened DebouncerRuns

  // -------------------------------------------------------------- catching up

  lemma {:induction false} Above(s: set<nat>) returns (p: nat)
    ensures forall x :: x in s ==> x < p
    decreases |s|
  {
    p := 0;
    if s != {} {
      var x :| x in s;
      var q := Above(s - {x});
      p := if x < q then q else x + 1;
      assert forall y :: y in s ==> y == x || y in s - {x};
    }
  }

  /** How many steps of the instance's own activity its newest event is away from being published. */
  ghost function Distance(l: Local): nat {
    if UpToDate(l) then 0
    else if l.carrier.Some? && l.carrier.value in l.routines then
      match l.routines[l.carrier.value].phase
      case Publishing(e, called) => if called then 4 else if e == Newest(l) then 1 else 5
      case Ending => 3
      case _ => 6
    else if l.waker.Some? && l.waker.value.ByRoutine? then 2
    else 3
  }

  /** The next step towards publishing the newest event. */
  lemma OneStepNearer(l: Local, id: Id) returns (step: Step, l': Local)
    requires LocalInv(l, false) && !UpToDate(l)
    ensures (step.Fire? || step.Advance?) && step.id == id
    ensures l' == if step.Fire? then LocalFire(l, step.t, step.p) else LocalAdvance(l, false, step.p)
    ensures LocalInv(l', false) && Distance(l') < Distance(l) && l'.accepted == l.accepted
  {
    assert l.inst.Some? && l.inst.value.pending == Newest(l);
    if l.carrier.Some? {
      var p := l.carrier.value;
      assert RoutineOk(l, p);
      AdvanceKeeps(l, false, p);
      step, l' := Advance(id, p), LocalAdvance(l, false, p);
    } else if l.waker.value.ByRoutine? {
      var p := l.waker.value.p;
      AdvanceKeeps(l, false, p);
      step, l' := Advance(id, p), LocalAdvance(l, false, p);
    } else {
      var t := l.waker.value.t;
      var p := Above(l.routines.Keys);
      FireKeeps(l, false, t, p);
      step, l' := Fire(id, t, p), LocalFire(l, t, p);
    }
  }

  /** From every reachable running state the instance's own callbacks and goroutines can be run
      until its newest event is published, without any further submission. */
  lemma CanCatchUp(steps: seq<Step>, id: Id) returns (more: seq<Step>)
    requires !Exec(Initial, steps).stopped
    ensures UpToDate(After(steps + more, id)) && After(steps + more, id).accepted == After(steps, id).accepted
    ensures !Exec(Initial, steps + more).stopped
    ensures forall step :: step in more ==> (step.Fire? || step.Advance?) && step.id == id
    decreases Distance(After(steps, id))
  {
    Reached(steps, id);
    more := [];
    assert steps + [] == steps;
    if !UpToDate(After(steps, id)) {
      var step, l := OneStepNearer(After(steps, id), id);
      Extend(steps, id, step);
      var rest := CanCatchUp(steps + [step], id);
      more := [step] + rest;
      assert steps + [step] + rest == steps + more;
    }
  }

  // -------------------------------------------------------------------- bursts

  /** Nothing but the instance's current timer is armed. */
  predicate Tidy(l: Local) {
    && l.carrier.None? && l.flush.None? && (forall p :: p in l.routines ==> l.routines[p].phase.Done?)
    && if l.inst.None? then l.timers == map[]
       else && !l.inst.value.draining && l.inst.value.timer.Some?
            && l.timers == map[l.inst.value.timer.value := l.inst.value.ver]
            && l.inst.value.timer.value < l.nextTimer
  }

  lemma SubmitTidy(l: Local)
    requires Tidy(l)
    ensures var l' := LocalSubmit(l, true);
            && Tidy(l') && l'.inst.Some? && l'.inst.value.pending == l.accepted
            && l'.accepted == l.accepted + 1 && l'.published == l.published
  {
  }

  function Burst(id: Id, n: nat): seq<Step> { seq(n, i => Submit(id, true)) }

  /** However many submissions follow each other before the timer fires, each stopping the timer
      of the one before in time, one timer stays armed and the last event is pending. */
  lemma {:induction false} BurstStaysTidy(steps: seq<Step>, id: Id, n: nat)
    requires !Exec(Initial, steps).stopped && Tidy(After(steps, id))
    ensures var (l, l') := (After(steps, id), After(steps + Burst(id, n), id));
            && !Exec(Initial, steps + Burst(id, n)).stopped
            && Tidy(l') && l'.accepted == l.accepted + n && l'.published == l.published
            && (n > 0 ==> l'.inst.Some? && l'.inst.value.pending == l'.accepted - 1)
  {
    if n == 0 {
      assert steps + Burst(id, 0) == steps;
    } else {
      BurstStaysTidy(steps, id, n - 1);
      var before := steps + Burst(id, n - 1);
      Extend(before, id, Submit(id, true));
      SubmitTidy(After(before, id));
      assert before + [Submit(id, true)] == steps + Burst(id, n);
    }
  }

  /** Then the timer fires and exactly one event of the burst is published: the last one. */
  lemma BurstPublishesOnce(steps: seq<Step>, id: Id, n: nat) returns (more: seq<Step>)
    requires !Exec(Initial, steps).stopped && Tidy(After(steps, id)) && n > 0
    ensures var (l, l') := (After(steps, id), After(steps + Burst(id, n) + more, id));
            && l'.accepted == l.accepted + n && l'.published == l.published + [l'.accepted - 1]
            && l'.inst.None? && l'.timers == map[]
  {
    BurstStaysTidy(steps, id, n);
    var before := steps + Burst(id, n);
    var l := After(before, id);
    var t := l.inst.value.timer.value;
    var p := Above(l.routines.Keys);
    Extend(before, id, Fire(id, t, p));
    var full := RunRoutine(before + [Fire(id, t, p)], id, p);
    assert before <= before + [Fire(id, t, p)] <= full;
    more := full[|before|..];
    assert before + more == full;
  }

  // ------------------------------------------------------- the timer goroutines

  /** How many of its own steps goroutine `p` is away from its end when nothing else happens. */
  ghost function Remaining(l: Local, p: Pid): nat
    requires p in l.routines
  {
    var round := if l.inst.Some? && l.routines[p].ver != l.inst.value.ver then 5 else 1;
    match l.routines[p].phase
    case Begin => 5
    case Publishing(e, called) => if called then round + 2 else round + 3
    case Ending => round + 1
    case Flushing(e, called) => if called then 1 else 2
    case Done => 0
  }

  lemma AdvanceCounts(l: Local, stopped: bool, p: Pid)
    requires LocalInv(l, stopped) && p in l.routines && !l.routines[p].phase.Done?
    ensures var l' := LocalAdvance(l, stopped, p); p in l'.routines && Remaining(l', p) < Remaining(l, p)
  {
    assert RoutineOk(l, p);
  }

  lemma EndsWithin(steps: seq<Step>, id: Id, p: Pid) returns (n: nat)
    requires p in After(steps, id).routines
    ensures n <= Remaining(After(steps, id), p)
    ensures var l := After(steps + seq(n, i => Advance(id, p)), id); p in l.routines && l.routines[p].phase.Done?
    decreases Remaining(After(steps, id), p)
  {
    var l := After(steps, id);
    n := 0;
    if l.routines[p].phase.Done? {
      assert steps + seq(0, i => Advance(id, p)) == steps;
    } else {
      var step := Advance(id, p);
      Reached(steps, id);
      ExecConcat(Initial, steps, [step]);
      assert [step][1..] == [];
      AdvanceCounts(l, Exec(Initial, steps).stopped, p);
      var m := EndsWithin(steps + [step], id, p);
      n := m + 1;
      assert steps + [step] + seq(m, i => Advance(id, p)) == steps + seq(n, i => Advance(id, p));
    }
  }

  /** In every reachable state, stopped or not, a goroutine that a timer started ends by itself: at
      most eight of its own steps are left, follow-up publish and flush at Stop included. */
  lemma RoutinesEnd(steps: seq<Step>, id: Id, p: Pid) returns (n: nat)
    requires p in After(steps, id).routines
    ensures n <= 8
    ensures var l := After(steps + seq(n, i => Advance(id, p)), id); p in l.routines && l.routines[p].phase.Done?
  {
    n := EndsWithin(steps, id, p);
  }

  // ---------------------------------------------------------------------- Stop

  /** Two steps of Stop call `s` flush one instance of its list. */
  lemma FlushOne(w: World, s: Pid, i: Id) returns (w': World)
    requires Inv(w) && s in w.stoppers && w.stoppers[s].current.None? && i in w.stoppers[s].todo
    ensures w' == Exec(w, [FlushNext(s, i), FlushNext(s, i)]) && Inv(w')
    ensures && s in w'.stoppers && w'.stoppers[s].current.None?
            && w'.stoppers[s].todo == w.stoppers[s].todo - {i}
  {
    var step := FlushNext(s, i);
    assert StopperOk(w, s);
    var w1 := Next(w, step);
    w' := Next(w1, step);
    NextKeeps(w, step);
    NextKeeps(w1, step);
    assert [step, step][1..] == [step] && [step][1..] == [];
    assert Exec(w1, [step]) == Exec(w', []);
  }

  /** Stop call `s` works through its list; nothing else is needed for that. */
  lemma FlushesAll(w: World, s: Pid) returns (steps: seq<Step>)
    requires Inv(w) && s in w.stoppers && w.stoppers[s].current.None?
    ensures var w' := Exec(w, steps);
            && Inv(w') && w'.stopped && s in w'.stoppers && w'.stoppers[s].todo == {} && w'.stoppers[s].current.None?
    decreases |w.stoppers[s].todo|
  {
    assert StopperOk(w, s);
    steps := [];
    if w.stoppers[s].todo != {} {
      var i :| i in w.stoppers[s].todo;
      var step := FlushNext(s, i);
      var w2 := FlushOne(w, s, i);
      var rest := FlushesAll(w2, s);
      ExecConcat(w, [step, step], rest);
      steps := [step, step] + rest;
    }
  }

  /** Every publisher can be run to the end of its endPublish. */
  lemma PublishersFinish(w: World) returns (steps: seq<Step>)
    requires Inv(w) && w.stopped
    ensures var w' := Exec(w, steps); Inv(w') && NoneInFlight(w') && w'.stoppers == w.stoppers
    decreases |BusyIds(w)|
  {
    if BusyIds(w) == {} {
      forall i, p | i in w.locals && p in w.locals[i].routines ensures !InFlight(w.locals[i].routines[p]) {
        assert LocalInv(At(w, i), true) && RoutineOk(w.locals[i], p);
        assert i !in BusyIds(w);
      }
      steps := [];
    } else {
      var i :| i in BusyIds(w);
      var first, l := FinishPublisher(w, i);
      var w1 := Exec(w, first);
      assert BusyIds(w1) == BusyIds(w) - {i};
      var rest := PublishersFinish(w1);
      ExecConcat(w, first, rest);
      steps := first + rest;
    }
  }

  /** From every reachable state a new Stop call can return. */
  lemma StopCanReturn(steps: seq<Step>, s: Pid, id: Id) returns (more: seq<Step>)
    requires s !in Exec(Initial, steps).stoppers
    ensures more != [] && more[0] == Stop(s)
    ensures var w := Exec(Initial, steps + more); s in w.stoppers && w.stoppers[s].returned
  {
    var w := Exec(Initial, steps);
    ExecKeeps(Initial, steps);
    NextKeeps(w, Stop(s));
    var w1 := Next(w, Stop(s));
    var flushes := FlushesAll(w1, s);
    var w2 := Exec(w1, flushes);
    var finish := PublishersFinish(w2);
    var last := [FlushNext(s, id)];
    assert last[1..] == [];
    ExecConcat(w1, flushes, finish);
    ExecConcat(w1, flushes + finish, last);
    more := [Stop(s)] + (flushes + finish + last);
    assert more[1..] == flushes + finish + last;
    ExecConcat(Initial, steps, more);
  }
}
