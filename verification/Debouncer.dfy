/** The versioned status debouncer shared by the storage and network monitors:
    its mutex-protected sections as functions on one instance's state, and the
    class whose methods run those sections on the instances map. */
module Debouncing {
  import opened Base

  type TimerId = nat

  /** Status events are only stored and handed on, so a number stands for one. */
  type Event = nat

  datatype Instance = Instance(pending: Event, ver: nat, draining: bool, timer: Option<TimerId>)

  /** What the end of a publish leaves to be done after the lock is released. */
  datatype AfterEnd = Nothing | FollowUp(ver: nat) | StopFlush(event: Event)

  // ------------------------------------- the locked sections, for one instance

  function Version(inst: Option<Instance>): nat {
    if inst.Some? then inst.value.ver else 0
  }

  predicate Draining(inst: Option<Instance>) {
    inst.Some? && inst.value.draining
  }

  function TimerOf(inst: Option<Instance>): Option<TimerId> {
    if inst.Some? then inst.value.timer else None
  }

  function Submitted(inst: Option<Instance>, event: Event, timer: TimerId): Instance {
    Instance(event, Version(inst) + 1, Draining(inst), if Draining(inst) then TimerOf(inst) else Some(timer))
  }

  predicate CanBegin(inst: Option<Instance>, stopped: bool, ver: nat) {
    !stopped && inst.Some? && inst.value.ver == ver && !inst.value.draining
  }

  function Begun(inst: Instance): Instance {
    inst.(timer := None, draining := true)
  }

  function Ended(inst: Option<Instance>, stopped: bool, publishedVer: nat): (Option<Instance>, AfterEnd) {
    if inst.None? then (None, Nothing)
    else if inst.value.ver > publishedVer && !stopped then
      (Some(inst.value.(draining := false)), FollowUp(inst.value.ver))
    else if inst.value.ver > publishedVer then (None, StopFlush(inst.value.pending))
    else (None, Nothing)
  }

  /** Stop drops an instance that nobody is publishing, and only clears the timer of the others. */
  function Halted(inst: Instance): Option<Instance> {
    if inst.draining then Some(inst.(timer := None)) else None
  }

  // -------------------------------------------------------- the instances map

  function Get(m: map<Id, Instance>, id: Id): Option<Instance> {
    if id in m then Some(m[id]) else None
  }

  function Put(m: map<Id, Instance>, id: Id, inst: Option<Instance>): map<Id, Instance> {
    if inst.Some? then m[id := inst.value] else m - {id}
  }

  /** The map after Stop's loop has visited everything outside `todo`. */
  function HaltedExcept(m: map<Id, Instance>, todo: set<Id>): map<Id, Instance> {
    map id | id in m && (id in todo || Halted(m[id]).Some?) :: if id in todo then m[id] else Halted(m[id]).value
  }

  lemma HaltedExceptLess(m: map<Id, Instance>, todo: set<Id>, id: Id)
    requires id in todo && id in m
    ensures var visited := HaltedExcept(m, todo)[id := m[id].(timer := None)];
            HaltedExcept(m, todo - {id}) == if m[id].draining then visited else visited - {id}
  {
  }

  /** `toFlush` lists, once each and with its pending event, the idle instances among `visited`. */
  ghost predicate Collected(m: map<Id, Instance>, visited: set<Id>, toFlush: seq<(Id, Event)>) {
    && (forall i, j :: 0 <= i < j < |toFlush| ==> toFlush[i].0 != toFlush[j].0)
    && (forall i :: 0 <= i < |toFlush| ==>
          && toFlush[i].0 in visited && toFlush[i].0 in m
          && Halted(m[toFlush[i].0]).None? && toFlush[i].1 == m[toFlush[i].0].pending)
    && (forall id :: id in visited && id in m && Halted(m[id]).None? ==> (id, m[id].pending) in toFlush)
  }

  lemma CollectedMore(m: map<Id, Instance>, visited: set<Id>, toFlush: seq<(Id, Event)>, id: Id)
    requires Collected(m, visited, toFlush) && id in m && id !in visited
    ensures Halted(m[id]).None? ==> Collected(m, visited + {id}, toFlush + [(id, m[id].pending)])
    ensures Halted(m[id]).Some? ==> Collected(m, visited + {id}, toFlush)
  {
    if Halted(m[id]).None? {
      var more := toFlush + [(id, m[id].pending)];
      forall x | x in visited + {id} && x in m && Halted(m[x]).None? ensures (x, m[x].pending) in more {
        if x == id {
          assert more[|toFlush|] == (id, m[id].pending);
        } else {
          assert (x, m[x].pending) in toFlush;
        }
      }
    }
  }

  // ---------------------------------------------------------------- the class

  class Debouncer {
    var instances: map<Id, Instance>
    var stopped: bool

    constructor ()
      ensures instances == map[] && !stopped
    {
      instances := map[];
      stopped := false;
    }

    /** Submit.  `timer` is the timer `time.AfterFunc` would create; `armed` says
        whether it was, and `replaced` is the timer that was told to stop. */
    method Submit(id: Id, event: Event, timer: TimerId) returns (armed: bool, replaced: Option<TimerId>)
      modifies this`instances
      ensures stopped ==> instances == old(instances)
      ensures !stopped ==>
                instances == Put(old(instances), id, Some(Submitted(Get(old(instances), id), event, timer)))
      ensures armed == (!stopped && !Draining(Get(old(instances), id)))
      ensures replaced == if armed then TimerOf(Get(old(instances), id)) else None
    {
      armed, replaced := false, None;
      if stopped {
        return;
      }
      var state := if id in instances then instances[id] else Instance(event, 0, false, None);
      state := state.(pending := event, ver := state.ver + 1);
      if !state.draining {
        armed, replaced := true, state.timer;
        state := state.(timer := Some(timer));
      }
      instances := instances[id := state];
    }

    method BeginPublish(id: Id, ver: nat) returns (event: Option<Event>)
      modifies this`instances
      ensures event.Some? == CanBegin(Get(old(instances), id), stopped, ver)
      ensures event.Some? ==>
                && event.value == old(instances)[id].pending
                && instances == Put(old(instances), id, Some(Begun(old(instances)[id])))
      ensures event.None? ==> instances == old(instances)
    {
      if stopped {
        return None;
      }
      if id !in instances || instances[id].ver != ver || instances[id].draining {
        return None;
      }
      event := Some(instances[id].pending);
      instances := instances[id := instances[id].(timer := None, draining := true)];
    }

    method EndPublish(id: Id, publishedVer: nat) returns (rest: AfterEnd)
      modifies this`instances
      ensures var (inst, after) := Ended(Get(old(instances), id), stopped, publishedVer);
              rest == after && instances == Put(old(instances), id, inst)
    {
      rest := Nothing;
      if id !in instances {
        assert instances == instances - {id};
        return;
      }
      var state := instances[id].(draining := false);
      instances := instances[id := state];
      if state.ver > publishedVer {
        if stopped {
          rest := StopFlush(state.pending);
          instances := instances - {id};
          assert instances == old(instances) - {id};
        } else {
          rest := FollowUp(state.ver);
        }
        return;
      }
      instances := instances - {id};
      assert instances == old(instances) - {id};
    }

    /** The locked part of Stop: walks the instances in some order, collecting the
        pending event of every instance that is not being published. */
    method StopAll() returns (toFlush: seq<(Id, Event)>)
      modifies this
      ensures stopped && instances == HaltedExcept(old(instances), {})
      ensures Collected(old(instances), old(instances).Keys, toFlush)
    {
      stopped := true;
      toFlush := [];
      ghost var before := instances;
      var todo := instances.Keys;
      while todo != {}
        invariant todo <= before.Keys
        invariant stopped && instances == HaltedExcept(before, todo)
        invariant Collected(before, before.Keys - todo, toFlush)
        decreases |todo|
      {
        var id :| id in todo;
        var state := instances[id].(timer := None);
        instances := instances[id := state];
        HaltedExceptLess(before, todo, id);
        CollectedMore(before, before.Keys - todo, toFlush, id);
        assert before.Keys - todo + {id} == before.Keys - (todo - {id});
        if !state.draining {
          toFlush := toFlush + [(id, state.pending)];
          instances := instances - {id};
        }
        todo := todo - {id};
      }
      assert before.Keys - todo == before.Keys;
    }
  }
}
