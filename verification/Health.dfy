/** Provider health: the failure-counting state machine and the monitor that feeds it. */
module Health {
  import opened Base

  datatype Status = Ready | Unhealthy | Unavailable

  datatype Check = Healthy | NotHealthy | Failed

  datatype Machine = Machine(state: Status, counter: nat)

  /** One result, as `RecordResult` treats it; the counter stands still once Unavailable. */
  function Recorded(m: Machine, threshold: int, result: Check): Machine {
    match result
    case Healthy => Machine(Ready, 0)
    case NotHealthy => Machine(Unhealthy, 0)
    case Failed =>
      var counter := if m.state != Unavailable then m.counter + 1 else m.counter;
      Machine(if counter >= threshold then Unavailable else m.state, counter)
  }

  function Fold(threshold: int, initial: Status, history: seq<Check>): Machine {
    if history == [] then Machine(initial, 0)
    else Recorded(Fold(threshold, initial, history[..|history| - 1]), threshold, history[|history| - 1])
  }

  // --------------------------------------------------- health read off the history

  /** Length of the run of failures at the end. */
  function TrailingFailures(history: seq<Check>): nat {
    if history == [] || history[|history| - 1] != Failed then 0
    else 1 + TrailingFailures(history[..|history| - 1])
  }

  /** What the last answered check said, or the initial status if none answered. */
  function LastAnswer(initial: Status, history: seq<Check>): Status {
    if history == [] then initial
    else match history[|history| - 1]
      case Healthy => Ready
      case NotHealthy => Unhealthy
      case Failed => LastAnswer(initial, history[..|history| - 1])
  }

  function Effective(threshold: int): nat { if threshold < 1 then 1 else threshold }

  /** The whole behaviour in closed form, for every threshold, start and history: the state
      is Unavailable exactly when the trailing failures reach the threshold (or it started
      so and nothing answered yet), and otherwise what was last answered. */
  lemma {:induction false} HistoryDecidesHealth(threshold: int, initial: Status, history: seq<Check>)
    ensures var m := Fold(threshold, initial, history);
            var answer := LastAnswer(initial, history);
            var run := TrailingFailures(history);
            && m.state == (if run >= Effective(threshold) then Unavailable else answer)
            && m.counter == (if answer == Unavailable then 0
                             else if run < Effective(threshold) then run else Effective(threshold))
  {
    if history != [] {
      HistoryDecidesHealth(threshold, initial, history[..|history| - 1]);
    }
  }

  // ------------------------------------------------------------- reported changes

  datatype Change = Change(from: Status, to: Status)

  /** The state changes along a history, without the results that changed nothing. */
  function Changes(threshold: int, initial: Status, history: seq<Check>): seq<Change> {
    if history == [] then []
    else
      var before := history[..|history| - 1];
      var (from, to) := (Fold(threshold, initial, before).state, Fold(threshold, initial, history).state);
      Changes(threshold, initial, before) + if from != to then [Change(from, to)] else []
  }

  ghost predicate Chained(changes: seq<Change>, start: Status, end: Status) {
    && (forall k :: 0 <= k < |changes| ==> changes[k].from != changes[k].to)
    && (forall k :: 0 <= k < |changes| - 1 ==> changes[k].to == changes[k + 1].from)
    && (if changes == [] then start == end else changes[0].from == start && changes[|changes| - 1].to == end)
  }

  /** The reported transitions lead without a gap from the initial to the current state. */
  lemma {:induction false} ChangesChain(threshold: int, initial: Status, history: seq<Check>)
    ensures Chained(Changes(threshold, initial, history), initial, Fold(threshold, initial, history).state)
  {
    if history != [] {
      ChangesChain(threshold, initial, history[..|history| - 1]);
    }
  }

  /** One more result, for both. */
  lemma OneMore(threshold: int, initial: Status, history: seq<Check>, result: Check)
    ensures var (before, after) := (Fold(threshold, initial, history), Fold(threshold, initial, history + [result]));
            && after == Recorded(before, threshold, result)
            && Changes(threshold, initial, history + [result]) ==
               Changes(threshold, initial, history)
               + if before.state != after.state then [Change(before.state, after.state)] else []
  {
    var h := history + [result];
    assert h[..|h| - 1] == history && h[|h| - 1] == result;
  }

  // ------------------------------------------------------------------- the classes

  class StateMachine {
    const failureThreshold: int
    var state: Status
    var failureCounter: nat
    ghost const initial: Status
    /** The results recorded so far and the transitions reported for them. */
    ghost var history: seq<Check>
    ghost var reported: seq<Change>

    ghost predicate Valid()
      reads this
    {
      && Machine(state, failureCounter) == Fold(failureThreshold, initial, history)
      && reported == Changes(failureThreshold, initial, history)
    }

    constructor (failureThreshold: int, initialState: Status)
      ensures Valid() && this.failureThreshold == failureThreshold
      ensures initial == initialState && history == [] && reported == [] && state == initialState
    {
      this.failureThreshold := failureThreshold;
      state := initialState;
      failureCounter := 0;
      initial := initialState;
      history := [];
      reported := [];
    }

    method RecordResult(result: Check) returns (from: Status, to: Status)
      modifies this`state, this`failureCounter
      ensures from == old(state) && to == state
      ensures Machine(state, failureCounter) == Recorded(old(Machine(state, failureCounter)), failureThreshold, result)
    {
      from := state;
      match result {
        case Healthy =>
          failureCounter := 0;
          state := Ready;
        case NotHealthy =>
          failureCounter := 0;
          state := Unhealthy;
        case Failed =>
          if state != Unavailable {
            failureCounter := failureCounter + 1;
          }
          if failureCounter >= failureThreshold {
            state := Unavailable;
          }
      }
      to := state;
    }

    /** The same, with the history and the report it belongs to. */
    method Advance(result: Check) returns (from: Status, to: Status)
      requires Valid()
      modifies this
      ensures Valid()
      ensures from == old(state) && to == state
      ensures history == old(history) + [result]
      ensures reported == old(reported) + (if from != to then [Change(from, to)] else [])
    {
      OneMore(failureThreshold, initial, history, result);
      from, to := RecordResult(result);
      history := history + [result];
      reported := reported + if from != to then [Change(from, to)] else [];
    }
  }

  class Monitor {
    const failureThreshold: int
    var providers: map<Id, StateMachine>
    var stopped: bool
    /** What the monitor last wrote to the health tracker. */
    var written: map<Id, Status>

    /** Every registration has its own machine, whose state and reports follow from its
        history, and the tracker shows the state of a registration that has a result. */
    ghost predicate Valid()
      reads this, providers.Values
    {
      && (forall id :: id in providers ==> providers[id].Valid() && providers[id].failureThreshold == failureThreshold)
      && (forall id, id' :: id in providers && id' in providers && id != id' ==> providers[id] != providers[id'])
      && (forall id :: id in providers && providers[id].history != [] ==>
            id in written && written[id] == providers[id].state)
    }

    constructor (failureThreshold: int)
      ensures Valid() && providers == map[] && !stopped && this.failureThreshold == failureThreshold
    {
      this.failureThreshold := failureThreshold;
      providers := map[];
      stopped := false;
      written := map[];
    }

    /** The first locked section of `RegisterProvider`: a fresh machine replaces any other. */
    method Install(id: Id, initialState: Status) returns (sm: StateMachine?)
      requires Valid()
      modifies this`providers
      ensures Valid()
      ensures stopped ==> sm == null && providers == old(providers)
      ensures !stopped ==> sm != null && fresh(sm) && providers == old(providers)[id := sm]
      ensures !stopped ==> sm.history == [] && sm.initial == initialState
    {
      if stopped {
        return null;
      }
      var made := new StateMachine(failureThreshold, initialState);
      providers := providers[id := made];
      return made;
    }

    /** The locked section after a periodic check: a result counts only against the
        registration it was taken for; a superseded machine never changes again. */
    method RecordCheck(id: Id, sm: StateMachine, result: Check) returns (called: bool, from: Status, to: Status)
      requires Valid()
      modifies this`written, sm
      ensures Valid() && providers == old(providers)
      ensures var current := id in providers && providers[id] == sm;
              && (current ==>
                    && sm.history == old(sm.history) + [result]
                    && from == old(sm.state) && to == sm.state
                    && written == old(written)[id := to]
                    && sm.reported == old(sm.reported) + (if called then [Change(from, to)] else [])
                    && (called <==> from != to))
              && (!current ==>
                    !called && written == old(written) && sm.state == old(sm.state) && sm.history == old(sm.history)
                    && sm.failureCounter == old(sm.failureCounter) && sm.reported == old(sm.reported))
    {
      called, from, to := false, Ready, Ready;
      if id in providers && providers[id] == sm {
        from, to := sm.Advance(result);
        written := written[id := to];
        called := from != to;
      }
    }

    /** The locked section after the initial check, which a stopped monitor skips. */
    method RecordInitialCheck(id: Id, sm: StateMachine, result: Check) returns (called: bool, from: Status, to: Status)
      requires Valid()
      modifies this`written, sm
      ensures Valid() && providers == old(providers)
      ensures stopped || !(id in providers && providers[id] == sm) ==>
                && !called && written == old(written) && sm.state == old(sm.state) && sm.history == old(sm.history)
                && sm.failureCounter == old(sm.failureCounter) && sm.reported == old(sm.reported)
      ensures !stopped && id in providers && providers[id] == sm ==>
                && sm.history == old(sm.history) + [result] && written == old(written)[id := sm.state]
                && from == old(sm.state) && to == sm.state && (called <==> from != to)
                && sm.reported == old(sm.reported) + (if called then [Change(from, to)] else [])
    {
      called, from, to := false, Ready, Ready;
      if !stopped {
        called, from, to := RecordCheck(id, sm, result);
      }
    }

    method DeregisterProvider(id: Id)
      requires Valid()
      modifies this`providers
      ensures Valid() && providers == old(providers) - {id}
    {
      providers := providers - {id};
    }

    method Stop()
      requires Valid()
      modifies this`stopped
      ensures Valid() && stopped
    {
      stopped := true;
    }

    /** What a client sees of a registered provider, whatever happened before. */
    lemma Observed(id: Id)
      requires Valid() && id in providers
      ensures var sm := providers[id];
              && (sm.history != [] ==> id in written && written[id] == sm.state)
              && (sm.state == Unavailable <==>
                    TrailingFailures(sm.history) >= Effective(failureThreshold)
                    || LastAnswer(sm.initial, sm.history) == Unavailable)
              && Chained(sm.reported, sm.initial, sm.state)
    {
      var sm := providers[id];
      HistoryDecidesHealth(failureThreshold, sm.initial, sm.history);
      ChangesChain(failureThreshold, sm.initial, sm.history);
    }
  }
}
