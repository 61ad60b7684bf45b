/** The retry processor's restart pass: drain the cancel topic into the deny list,
    then the main topic, then the retry topic with deduplication. */
module Restart {
  import opened Base
  import opened Dedup
  import opened ResourceSets
  import opened KeyLocks

  datatype Resolution = StoreError | NotFound | Ready | Unavailable | Unhealthy
  datatype Reply = Accepted | Refused | Interrupted

  /** How the environment answers while one message is processed. */
  datatype Answer = Answer(resolution: Resolution, hasForwarder: bool, reply: Reply, publishOk: bool)

  /** A fetched message, or nothing when it does not parse. */
  type Raw = Option<Item>

  /** What `fetchAllFromConsumer` returned. */
  datatype Fetch = FetchError | Fetched(msgs: seq<Raw>)

  datatype Settlement = Acked | Nacked | Terminated | Requeued | LeftUnacked

  /** A provider call: for which message type it was made, and the operation that was sent. */
  datatype SpCall = SpCall(resourceId: Id, ceType: CEType, asCreate: bool)

  // ------------------------------------------------------------------- fetching

  /** One pull: the request fails, or messages arrive and the batch may end in an error. */
  datatype Pull = RequestFailed | Received(msgs: seq<Raw>, broken: bool)

  /** A consumer as the fetch loop meets it: its backlog (unless it cannot be looked up), the
      answer to each pull, and whether the context is cancelled before it. */
  datatype Consumer = Consumer(backlog: Option<nat>, pull: nat -> Pull, cancelled: nat -> bool)

  predicate PullFails(p: Pull) { p.RequestFailed? || p.broken }

  ghost predicate Productive(c: Consumer, k: nat) {
    !c.cancelled(k) && !PullFails(c.pull(k)) && c.pull(k).msgs != []
  }

  function Pulled(c: Consumer, rounds: nat): seq<Raw> {
    if rounds == 0 then []
    else Pulled(c, rounds - 1) + if c.pull(rounds - 1).Received? then c.pull(rounds - 1).msgs else []
  }

  /** What a pull brought. */
  ghost function Brought(c: Consumer, k: nat): seq<Raw> {
    if c.pull(k).Received? then c.pull(k).msgs else []
  }

  ghost predicate StartsWith(s: seq<Raw>, at: nat, part: seq<Raw>) {
    at + |part| <= |s| && s[at..at + |part|] == part
  }

  /** The fetched messages are those of the pulls, one pull after the other, nothing left out
      and nothing in between: the messages of pull `k` start where those of the pulls before it
      end, and those of the last pull end the sequence. */
  lemma {:induction false} PulledInOrder(c: Consumer, rounds: nat, k: nat)
    requires k < rounds
    ensures StartsWith(Pulled(c, rounds), |Pulled(c, k)|, Brought(c, k))
    ensures |Pulled(c, 0)| == 0 && |Pulled(c, k + 1)| == |Pulled(c, k)| + |Brought(c, k)|
    decreases rounds
  {
    var before := Pulled(c, rounds - 1);
    if k < rounds - 1 {
      PulledInOrder(c, rounds - 1, k);
      var at := |Pulled(c, k)|;
      assert Pulled(c, rounds)[at..at + |Brought(c, k)|] == before[at..at + |Brought(c, k)|];
    } else {
      assert Pulled(c, rounds) == before + Brought(c, k);
    }
  }

  /** Pulls until the backlog seen at the start is covered.  A failed pull is an error, but a
      cancelled context or an empty batch ends the fetch short without one. */
  method FetchAllFromConsumer(c: Consumer) returns (fetch: Fetch, rounds: nat)
    ensures c.backlog.None? ==> fetch.FetchError? && rounds == 0
    ensures forall k :: 0 <= k < rounds - 1 ==> Productive(c, k)
    ensures c.backlog.Some? ==> (fetch.FetchError? <==> rounds > 0 && PullFails(c.pull(rounds - 1)))
    ensures fetch.Fetched? ==> fetch.msgs == Pulled(c, rounds)
    ensures fetch.Fetched? && |fetch.msgs| < c.backlog.value ==>
              c.cancelled(rounds) || (rounds > 0 && c.pull(rounds - 1).msgs == [])
  {
    rounds := 0;
    if c.backlog.None? {
      return FetchError, 0;
    }
    var collected := [];
    while |collected| < c.backlog.value
      invariant collected == Pulled(c, rounds)
      invariant forall k :: 0 <= k < rounds ==> Productive(c, k)
      invariant rounds > 0 ==> Productive(c, rounds - 1)
      decreases c.backlog.value - |collected|
    {
      if c.cancelled(rounds) {
        break;
      }
      var batch := c.pull(rounds);
      rounds := rounds + 1;
      if batch.RequestFailed? {
        return FetchError, rounds;
      }
      collected := collected + batch.msgs;
      if batch.broken {
        return FetchError, rounds;
      }
      if batch.msgs == [] {
        break;
      }
    }
    return Fetched(collected), rounds;
  }

  // ------------------------------------------------ the deny list after phase 1

  function Adds(msgs: seq<Raw>): seq<Op> {
    if msgs == [] then []
    else if msgs[0].None? then Adds(msgs[1..])
    else [Add(msgs[0].value.resourceId)] + Adds(msgs[1..])
  }

  ghost function Drained(fetch: Fetch): set<Id> {
    if fetch.FetchError? then {} else set m | m in fetch.msgs && m.Some? :: m.value.resourceId
  }

  ghost function DenyAfterDrain(deny: seq<Id>, cap: nat, fetch: Fetch): seq<Id> {
    if fetch.FetchError? then deny else Run(deny, cap, Adds(fetch.msgs))
  }

  ghost function DeniedAfter(deny: seq<Id>, cap: nat, fetch: Fetch): set<Id> {
    set x | x in DenyAfterDrain(deny, cap, fetch)
  }

  lemma {:induction false} AddsConcat(a: seq<Raw>, b: seq<Raw>)
    ensures Adds(a + b) == Adds(a) + Adds(b)
  {
    if a == [] {
      assert a + b == b;
    } else {
      assert (a + b)[1..] == a[1..] + b;
      AddsConcat(a[1..], b);
    }
  }

  lemma {:induction false} RunConcat(s: seq<Id>, cap: nat, a: seq<Op>, b: seq<Op>)
    ensures Run(s, cap, a + b) == Run(Run(s, cap, a), cap, b)
    decreases |a|
  {
    if a == [] {
      assert a + b == b;
    } else {
      assert (a + b)[1..] == a[1..] + b;
      RunConcat(Apply(s, cap, a[0]), cap, a[1..], b);
    }
  }

  ghost function Ids(ops: seq<Op>): set<Id> { set op | op in ops :: op.id }

  predicate OnlyAdds(ops: seq<Op>) { forall op :: op in ops ==> op.Add? }

  lemma {:induction false} AddsAreAdds(msgs: seq<Raw>)
    ensures OnlyAdds(Adds(msgs)) && Ids(Adds(msgs)) == Drained(Fetched(msgs))
  {
    if msgs != [] {
      AddsAreAdds(msgs[1..]);
      assert msgs == [msgs[0]] + msgs[1..];
      if msgs[0].Some? {
        var ops := Adds(msgs);
        assert forall op :: op in ops <==> op == Add(msgs[0].value.resourceId) || op in Adds(msgs[1..]);
        assert Ids(ops) == {msgs[0].value.resourceId} + Ids(Adds(msgs[1..]));
        assert Drained(Fetched(msgs)) == {msgs[0].value.resourceId} + Drained(Fetched(msgs[1..]));
      } else {
        assert Drained(Fetched(msgs)) == Drained(Fetched(msgs[1..]));
      }
    }
  }

  /** An insertion evicts nothing when all ids involved fit. */
  lemma FittingInsert(s: seq<Id>, cap: nat, x: Id, all: set<Id>)
    requires WellFormed(s, cap) && |all| <= cap && x in all && forall y :: y in s ==> y in all
    ensures WellFormed(Inserted(s, cap, x), cap)
    ensures forall y :: y in Inserted(s, cap, x) <==> y == x || y in s
  {
    InsertMembers(s, cap, x);
    if x !in s {
      DistinctCount(s);
      SmallerSet((set y | y in s) + {x}, all);
    }
  }

  lemma {:induction false} FittingAddsStay(s: seq<Id>, cap: nat, ops: seq<Op>, all: set<Id>)
    requires WellFormed(s, cap) && OnlyAdds(ops) && |all| <= cap
    requires forall y :: y in s ==> y in all
    requires forall op :: op in ops ==> op.id in all
    ensures forall y :: y in s ==> y in Run(s, cap, ops)
    ensures forall op :: op in ops ==> op.id in Run(s, cap, ops)
    decreases |ops|
  {
    if ops != [] {
      assert ops == [ops[0]] + ops[1..];
      FittingInsert(s, cap, ops[0].id, all);
      FittingAddsStay(Inserted(s, cap, ops[0].id), cap, ops[1..], all);
    }
  }

  lemma {:induction false} UsedByAdds(s: seq<Id>, cap: nat, ops: seq<Op>, x: Id)
    requires OnlyAdds(ops)
    ensures Used(s, cap, ops, x) == Ids(ops) - {x}
    decreases |ops|
  {
    if ops != [] {
      UsedByAdds(Apply(s, cap, ops[0]), cap, ops[1..], x);
      assert ops == [ops[0]] + ops[1..] && Ids(ops) == {ops[0].id} + Ids(ops[1..]);
    }
  }

  /** Right after a cancel is drained its id heads the deny list. */
  lemma DrainedLast(deny: seq<Id>, cap: nat, before: seq<Raw>, last: Item)
    requires WellFormed(deny, cap)
    ensures var s := Run(deny, cap, Adds(before + [Some(last)]));
            WellFormed(s, cap) && s != [] && s[0] == last.resourceId
  {
    var x := last.resourceId;
    AddsConcat(before, [Some(last)]);
    assert [Some(last)][1..] == [];
    assert Adds([Some(last)]) == [Add(x)];
    RunConcat(deny, cap, Adds(before), [Add(x)]);
    RunWellFormed(deny, cap, Adds(before + [Some(last)]));
    var s := Run(deny, cap, Adds(before));
    assert Run(s, cap, [Add(x)]) == Run(Inserted(s, cap, x), cap, []) by {
      assert [Add(x)][1..] == [];
    }
  }

  /** Exactly when a drained cancel is still in force after the drain: fewer than
      capacity distinct ids were drained after its last occurrence. */
  lemma DrainedCancelHoldsExactly(deny: seq<Id>, cap: nat, before: seq<Raw>, last: Item, after: seq<Raw>)
    requires WellFormed(deny, cap) && last.resourceId !in Drained(Fetched(after))
    ensures last.resourceId in DenyAfterDrain(deny, cap, Fetched(before + [Some(last)] + after))
       <==> |Drained(Fetched(after))| < cap
  {
    var x := last.resourceId;
    var head := before + [Some(last)];
    var s := Run(deny, cap, Adds(head));
    AddsConcat(head, after);
    RunConcat(deny, cap, Adds(head), Adds(after));
    DrainedLast(deny, cap, before, last);
    AddsAreAdds(after);
    UsedByAdds(s, cap, Adds(after), x);
    assert forall op :: op in Adds(after) ==> op.id in Ids(Adds(after));
    assert Ids(Adds(after)) - {x} == Drained(Fetched(after));
    RetainedExactly(s, cap, Adds(after), x);
  }

  /** All ids on the list and drained fit: every drained cancel is in force. */
  lemma AllDrainedCancelsHold(deny: seq<Id>, cap: nat, fetch: Fetch)
    requires WellFormed(deny, cap) && |(set x | x in deny) + Drained(fetch)| <= cap
    ensures Drained(fetch) <= DeniedAfter(deny, cap, fetch)
  {
    if fetch.Fetched? {
      AddsAreAdds(fetch.msgs);
      var ops := Adds(fetch.msgs);
      assert forall op :: op in ops ==> op.id in Ids(ops);
      FittingAddsStay(deny, cap, ops, (set x | x in deny) + Ids(ops));
    }
  }

  // ---------------------------------------------------- the provider calls made

  /** The forward gets as far as the deny re-check. */
  predicate Claims(item: Item, a: Answer, locked: set<Id>) {
    a.resolution.Ready? && a.hasForwarder && item.resourceId !in locked
  }

  /** The provider is called for this message. */
  predicate Calls(item: Item, a: Answer, locked: set<Id>, denied: set<Id>) {
    Claims(item, a, locked) && !(item.ceType.Create? && item.resourceId in denied)
  }

  /** The call made for a message: anything but a delete goes out as a create. */
  function CallFor(item: Item): SpCall { SpCall(item.resourceId, item.ceType, item.ceType != Delete) }

  /** The calls a batch leads to, in order. */
  function CallsFor(items: seq<Item>, env: Item -> Answer, locked: set<Id>, denied: set<Id>): seq<SpCall> {
    if items == [] then []
    else
      var item := Last(items);
      CallsFor(Init(items), env, locked, denied)
      + CallOf(item, env(item), locked, denied)
  }

  /** The messages of a batch that parse. */
  function Parsed(msgs: seq<Raw>): seq<Item> {
    if msgs == [] then []
    else Parsed(Init(msgs)) + if Last(msgs).Some? then [Last(msgs).value] else []
  }

  function Batch(fetch: Fetch): seq<Item> {
    if fetch.FetchError? then [] else Parsed(fetch.msgs)
  }

  /** Message `item` is the reason for call `c`: a ready provider, a forwarder, a free lock and no
      denied create; creates and cancels are sent as creates, deletes as deletes. */
  ghost predicate CalledFor(c: SpCall, item: Item, a: Answer, locked: set<Id>, denied: set<Id>) {
    && c.resourceId == item.resourceId && c.ceType == item.ceType
    && (c.asCreate <==> item.ceType.Create? || item.ceType.Cancel?)
    && a.resolution.Ready? && a.hasForwarder && item.resourceId !in locked
    && (item.ceType.Create? ==> item.resourceId !in denied)
  }

  /** Exactly which calls a batch leads to. */
  lemma {:induction false} CallsExactly(items: seq<Item>, env: Item -> Answer, locked: set<Id>, denied: set<Id>, c: SpCall)
    ensures c in CallsFor(items, env, locked, denied) <==>
            exists item :: item in items && CalledFor(c, item, env(item), locked, denied)
  {
    if items != [] {
      CallsExactly(Init(items), env, locked, denied, c);
      assert items == Init(items) + [Last(items)];
    }
  }

  /** `calls` are made for the messages at the positions `made`, in order, and for no others. */
  ghost predicate CallsMadeAt(items: seq<Item>, env: Item -> Answer, locked: set<Id>, denied: set<Id>,
                              calls: seq<SpCall>, made: seq<nat>) {
    && Increasing(made) && |made| == |calls|
    && (forall k :: 0 <= k < |made| ==>
          made[k] < |items| && CalledFor(calls[k], items[made[k]], env(items[made[k]]), locked, denied))
    && (forall i :: 0 <= i < |items| ==>
          (i in made <==> exists c :: CalledFor(c, items[i], env(items[i]), locked, denied)))
  }

  lemma CallsMadeMore(items: seq<Item>, env: Item -> Answer, locked: set<Id>, denied: set<Id>,
                      calls: seq<SpCall>, made: seq<nat>, item: Item)
    requires CallsMadeAt(items, env, locked, denied, calls, made)
    ensures CallOf(item, env(item), locked, denied) == [] ==>
              CallsMadeAt(items + [item], env, locked, denied, calls, made)
    ensures CallOf(item, env(item), locked, denied) != [] ==>
              CallsMadeAt(items + [item], env, locked, denied,
                          calls + CallOf(item, env(item), locked, denied), made + [|items|])
  {
    var more := made + [|items|];
    assert forall i :: i in more <==> i in made || i == |items|;
    assert |items| !in made;
    if CallOf(item, env(item), locked, denied) != [] {
      assert CalledFor(CallFor(item), item, env(item), locked, denied);
    } else {
      assert forall c :: !CalledFor(c, item, env(item), locked, denied);
    }
  }

  /** The calls of a batch come in the order of its messages, one for each that leads to one. */
  lemma {:induction false} CallsInOrder(items: seq<Item>, env: Item -> Answer, locked: set<Id>, denied: set<Id>)
    returns (made: seq<nat>)
    ensures CallsMadeAt(items, env, locked, denied, CallsFor(items, env, locked, denied), made)
  {
    made := [];
    if items != [] {
      made := CallsInOrder(Init(items), env, locked, denied);
      CallsMadeMore(Init(items), env, locked, denied, CallsFor(Init(items), env, locked, denied), made, Last(items));
      assert Init(items) + [Last(items)] == items;
      if CallOf(Last(items), env(Last(items)), locked, denied) != [] {
        made := made + [|items| - 1];
      }
    }
  }

  /** No create message is forwarded for a denied id. */
  lemma NoCreateForDenied(items: seq<Item>, env: Item -> Answer, locked: set<Id>, denied: set<Id>, c: SpCall)
    requires c in CallsFor(items, env, locked, denied) && c.resourceId in denied
    ensures !c.ceType.Create?
  {
    CallsExactly(items, env, locked, denied, c);
  }

  ghost predicate CreateSent(items: seq<Item>, env: Item -> Answer, locked: set<Id>, denied: set<Id>, id: Id) {
    exists c :: c in CallsFor(items, env, locked, denied) && c.resourceId == id && c.asCreate
  }

  /** The message meets a ready provider, a forwarder and a free lock. */
  predicate Attempted(item: Item, a: Answer, locked: set<Id>) {
    a.resolution.Ready? && a.hasForwarder && item.resourceId !in locked
  }

  /** A cancel of this id in the batch that gets as far as the deny re-check, which looks at
      creates only. */
  ghost predicate StrayCancel(items: seq<Item>, env: Item -> Answer, locked: set<Id>, id: Id) {
    exists item :: item in items && item.resourceId == id && item.ceType.Cancel? && Attempted(item, env(item), locked)
  }

  /** Yet a create operation is sent for a denied id, if and only if the batch holds a cancel
      of that id whose provider is ready and whose lock is free. */
  lemma StrayCancelsAreSentAsCreates(items: seq<Item>, env: Item -> Answer, locked: set<Id>, denied: set<Id>, id: Id)
    requires id in denied
    ensures CreateSent(items, env, locked, denied, id) <==> StrayCancel(items, env, locked, id)
  {
    if CreateSent(items, env, locked, denied, id) {
      var c :| c in CallsFor(items, env, locked, denied) && c.resourceId == id && c.asCreate;
      CallsExactly(items, env, locked, denied, c);
    }
    if StrayCancel(items, env, locked, id) {
      var item :| item in items && item.resourceId == id && item.ceType.Cancel? && Attempted(item, env(item), locked);
      assert CalledFor(CallFor(item), item, env(item), locked, denied);
      CallsExactly(items, env, locked, denied, CallFor(item));
    }
  }

  /** The provider calls of a restart pass whose first phase left `denied`. */
  function PassCalls(cancels: Fetch, mains: Fetch, routed: seq<Item>,
                     env: Item -> Answer, locked: set<Id>, denied: set<Id>): seq<SpCall> {
    (if cancels.Fetched? then CallsFor(Batch(mains), env, locked, denied) else [])
    + CallsFor(routed, env, locked, denied)
  }

  /** `routed` is what deduplication leaves of the retry batch, if the pass gets that far. */
  ghost predicate RoutedInPass(cancels: Fetch, mains: Fetch, retries: Fetch, routed: seq<Item>, kept: seq<nat>) {
    Survivors(if cancels.Fetched? && mains.Fetched? then Batch(retries) else [], routed, kept)
  }

  /** All ids on the deny list and drained fit its capacity. */
  ghost predicate Fits(deny: seq<Id>, cap: nat, cancels: Fetch) {
    |(set x | x in deny) + Drained(cancels)| <= cap
  }

  ghost predicate NoCreateFor(calls: seq<SpCall>, ids: set<Id>) {
    forall c :: c in calls && c.ceType.Create? ==> c.resourceId !in ids
  }

  /** No create message is forwarded in a pass for an id whose cancel it drained, if the ids fit. */
  lemma RestartRespectsCancels(deny: seq<Id>, cap: nat, cancels: Fetch, mains: Fetch, routed: seq<Item>,
                               env: Item -> Answer, locked: set<Id>)
    requires WellFormed(deny, cap)
    ensures var denied := DeniedAfter(deny, cap, cancels);
            Fits(deny, cap, cancels) ==>
              NoCreateFor(PassCalls(cancels, mains, routed, env, locked, denied), Drained(cancels))
  {
    var denied := DeniedAfter(deny, cap, cancels);
    if Fits(deny, cap, cancels) {
      AllDrainedCancelsHold(deny, cap, cancels);
      forall c | c in PassCalls(cancels, mains, routed, env, locked, denied) && c.ceType.Create?
        ensures c.resourceId !in Drained(cancels)
      {
        CallsExactly(Batch(mains), env, locked, denied, c);
        CallsExactly(routed, env, locked, denied, c);
      }
    }
  }

  /** Whatever the deny list held: one restart pass that drains a cancel, deny-lists its id and
      sends a create for that id, because the same cancel also sits on the main topic. */
  lemma DrainedCancelIsSentAsCreate(deny: seq<Id>, cap: nat, cancel: Item, env: Item -> Answer, locked: set<Id>)
    requires WellFormed(deny, cap) && cancel.ceType.Cancel? && Attempted(cancel, env(cancel), locked)
    ensures var fetch := Fetched([Some(cancel)]);
            var denied := DeniedAfter(deny, cap, fetch);
            && cancel.resourceId in Drained(fetch) && cancel.resourceId in denied
            && Survivors(Batch(Fetched([])), [], [])
            && PassCalls(fetch, fetch, [], env, locked, denied) == [SpCall(cancel.resourceId, Cancel, true)]
  {
    var msgs: seq<Raw> := [Some(cancel)];
    DrainedLast(deny, cap, [], cancel);
    assert [] + [Some(cancel)] == msgs;
    OneParsed(cancel);
    OneCall(cancel, env, locked, DeniedAfter(deny, cap, Fetched(msgs)));
    assert msgs[0] in msgs;
  }

  lemma OneParsed(item: Item)
    ensures Parsed([Some(item)]) == [item]
  {
    ParsedMore([Some(item)], 0);
    assert [Some(item)][..1] == [Some(item)];
  }

  lemma OneCall(item: Item, env: Item -> Answer, locked: set<Id>, denied: set<Id>)
    ensures CallsFor([item], env, locked, denied) == CallOf(item, env(item), locked, denied)
  {
    CallsMore([], [], item, env, locked, denied);
    assert [] + [item] == [item];
  }

  /** An id with both a create and a delete waiting for retry is neither created nor deleted. */
  lemma PairsAreNotForwarded(items: seq<Item>, routed: seq<Item>, kept: seq<nat>,
                             env: Item -> Answer, locked: set<Id>, denied: set<Id>, c: SpCall)
    requires Survivors(items, routed, kept) && Paired(items, c.resourceId)
    requires c in CallsFor(routed, env, locked, denied)
    ensures c.ceType.Cancel?
  {
    CallsExactly(routed, env, locked, denied, c);
    var item :| item in routed && CalledFor(c, item, env(item), locked, denied);
    var k :| 0 <= k < |routed| && routed[k] == item;
    assert kept[k] in kept;
    assert !Deduped(items, kept[k]);
  }

  /** A create with no delete beside it, ready provider, free lock and no cancel is forwarded. */
  lemma UnpairedIsForwarded(items: seq<Item>, routed: seq<Item>, kept: seq<nat>,
                            env: Item -> Answer, locked: set<Id>, denied: set<Id>, item: Item)
    requires Survivors(items, routed, kept) && item in items && !Paired(items, item.resourceId)
    requires Attempted(item, env(item), locked) && (item.ceType.Create? ==> item.resourceId !in denied)
    ensures SpCall(item.resourceId, item.ceType, item.ceType != Delete) in CallsFor(routed, env, locked, denied)
  {
    var i :| 0 <= i < |items| && items[i] == item;
    assert !Deduped(items, i);
    assert i in kept;
    var k :| 0 <= k < |kept| && kept[k] == i;
    assert routed[k] == item;
    CallsExactly(routed, env, locked, denied, CallFor(item));
    assert CalledFor(CallFor(item), item, env(item), locked, denied);
  }

  /** The ledger after one forward: claimed first, and given back unless the call succeeded. */
  function LedgerAfter(s: seq<Id>, cap: nat, item: Item, a: Answer, locked: set<Id>, denied: set<Id>): seq<Id> {
    var x := item.resourceId;
    if !Claims(item, a, locked) then s
    else if Calls(item, a, locked, denied) && a.reply.Accepted? then Inserted(s, cap, x)
    else if x in s then Inserted(s, cap, x)
    else Without(Inserted(s, cap, x), x)
  }

  /** Who is in the ledger afterwards: the id exactly when it was there or its forward
      succeeded; every other id unless the claim evicted it. */
  lemma LedgerMembers(s: seq<Id>, cap: nat, item: Item, a: Answer, locked: set<Id>, denied: set<Id>)
    requires WellFormed(s, cap)
    ensures var s' := LedgerAfter(s, cap, item, a, locked, denied);
            && (item.resourceId in s' <==>
                  || item.resourceId in s
                  || (&& Attempted(item, a, locked) && (item.ceType.Create? ==> item.resourceId !in denied)
                      && a.reply.Accepted?))
            && (forall y :: y != item.resourceId ==>
                  (y in s' <==> y in s && !(Attempted(item, a, locked) && y in Victims(s, cap, item.resourceId))))
  {
    InsertMembers(s, cap, item.resourceId);
  }

  /** Handling the message added its call to `calls`, or nothing. */
  ghost predicate Called(item: Item, a: Answer, locked: set<Id>, denied: set<Id>, before: seq<SpCall>, after: seq<SpCall>) {
    if Attempted(item, a, locked) && (item.ceType.Create? ==> item.resourceId !in denied)
    then after == before + [SpCall(item.resourceId, item.ceType, item.ceType != Delete)]
    else after == before
  }

  /** How a message taken off a topic must be settled: acked exactly when its outcome is decided
      (a denied create, no provider to call, or a call that was not interrupted), nacked on a
      store error, and otherwise moved to the retry topic if it is on the main topic and the
      publish works. */
  ghost predicate Due(item: Item, a: Answer, locked: set<Id>, denied: set<Id>, fromRetryTopic: bool, settled: Settlement) {
    var denial := item.ceType.Create? && item.resourceId in denied;
    var decided := || denial || a.resolution.Unavailable? || (a.resolution.Ready? && !a.hasForwarder)
                   || (Attempted(item, a, locked) && !a.reply.Interrupted?);
    && (settled.Acked? <==> decided)
    && (settled.Nacked? <==> !decided && (a.resolution.StoreError? || fromRetryTopic))
    && (settled.Requeued? <==> !decided && !a.resolution.StoreError? && !fromRetryTopic && a.publishOk)
    && (settled.LeftUnacked? <==> !decided && !a.resolution.StoreError? && !fromRetryTopic && !a.publishOk)
  }

  ghost predicate MainDue(msgs: seq<Raw>, env: Item -> Answer, locked: set<Id>, denied: set<Id>, settled: seq<Settlement>) {
    && |settled| == |msgs|
    && forall i :: 0 <= i < |msgs| ==>
         if msgs[i].None? then settled[i] == Terminated
         else Due(msgs[i].value, env(msgs[i].value), locked, denied, false, settled[i])
  }

  ghost predicate RetryDue(items: seq<Item>, env: Item -> Answer, locked: set<Id>, denied: set<Id>, settled: seq<Settlement>) {
    && |settled| == |items|
    && forall i :: 0 <= i < |items| ==> Due(items[i], env(items[i]), locked, denied, true, settled[i])
  }

  ghost predicate CancelsDue(msgs: seq<Raw>, settled: seq<Settlement>) {
    && |settled| == |msgs|
    && forall i :: 0 <= i < |msgs| ==> settled[i] == if msgs[i].Some? then Acked else Terminated
  }

  lemma TopicSettlementIsDue(item: Item, a: Answer, locked: set<Id>, denied: set<Id>, fromRetryTopic: bool)
    ensures Due(item, a, locked, denied, fromRetryTopic, TopicSettlement(item, a, locked, denied, fromRetryTopic))
  {
  }

  lemma {:induction false} MainSettlementsAreDue(msgs: seq<Raw>, env: Item -> Answer, locked: set<Id>, denied: set<Id>)
    ensures MainDue(msgs, env, locked, denied, MainSettlements(msgs, env, locked, denied))
  {
    if msgs != [] {
      MainSettlementsAreDue(Init(msgs), env, locked, denied);
      if Last(msgs).Some? {
        TopicSettlementIsDue(Last(msgs).value, env(Last(msgs).value), locked, denied, false);
      }
      assert forall i :: 0 <= i < |msgs| - 1 ==> msgs[i] == Init(msgs)[i];
    }
  }

  lemma {:induction false} RetrySettlementsAreDue(items: seq<Item>, env: Item -> Answer, locked: set<Id>, denied: set<Id>)
    ensures RetryDue(items, env, locked, denied, RetrySettlements(items, env, locked, denied))
  {
    if items != [] {
      RetrySettlementsAreDue(Init(items), env, locked, denied);
      TopicSettlementIsDue(Last(items), env(Last(items)), locked, denied, true);
      assert forall i :: 0 <= i < |items| - 1 ==> items[i] == Init(items)[i];
    }
  }

  lemma {:induction false} DrainSettlementsAreDue(msgs: seq<Raw>)
    ensures CancelsDue(msgs, DrainSettlements(msgs))
  {
    if msgs != [] {
      DrainSettlementsAreDue(Init(msgs));
      assert forall i :: 0 <= i < |msgs| - 1 ==> msgs[i] == Init(msgs)[i];
    }
  }

  /** `items` are the messages of `msgs` that parse, `kept` their positions, in order. */
  ghost predicate KeptExactly(msgs: seq<Raw>, items: seq<Item>, kept: seq<nat>) {
    && Increasing(kept) && |kept| == |items|
    && (forall k :: 0 <= k < |kept| ==> kept[k] < |msgs| && msgs[kept[k]] == Some(items[k]))
    && (forall i :: 0 <= i < |msgs| ==> (i in kept <==> msgs[i].Some?))
  }

  lemma KeptMore(msgs: seq<Raw>, items: seq<Item>, kept: seq<nat>, m: Raw)
    requires KeptExactly(msgs, items, kept)
    ensures m.None? ==> KeptExactly(msgs + [m], items, kept)
    ensures m.Some? ==> KeptExactly(msgs + [m], items + [m.value], kept + [|msgs|])
  {
    var more := kept + [|msgs|];
    assert forall i :: i in more <==> i in kept || i == |msgs|;
    assert |msgs| !in kept;
  }

  /** The parsed messages are exactly the messages that parse, in their order. */
  lemma {:induction false} ParsedExactly(msgs: seq<Raw>) returns (kept: seq<nat>)
    ensures KeptExactly(msgs, Parsed(msgs), kept)
  {
    kept := [];
    if msgs != [] {
      kept := ParsedExactly(Init(msgs));
      KeptMore(Init(msgs), Parsed(Init(msgs)), kept, Last(msgs));
      assert Init(msgs) + [Last(msgs)] == msgs;
      if Last(msgs).Some? {
        kept := kept + [|msgs| - 1];
      }
    }
  }

  class Processor {
    const deny: ResourceSet
    const claimed: ResourceSet
    const inFlight: KeyLock
    var calls: seq<SpCall>

    ghost predicate Valid()
      reads this, deny, claimed
    {
      deny != claimed && deny.Valid() && claimed.Valid()
    }

    ghost function Denied(): set<Id>
      requires Valid()
      reads this, deny, claimed
    {
      set x | x in deny.Recency()
    }

    constructor (deny: ResourceSet, claimed: ResourceSet, inFlight: KeyLock)
      requires deny != claimed && deny.Valid() && claimed.Valid()
      ensures Valid() && calls == []
      ensures this.deny == deny && this.claimed == claimed && this.inFlight == inFlight
    {
      this.deny := deny;
      this.claimed := claimed;
      this.inFlight := inFlight;
      calls := [];
    }

    method IsDenied(resourceId: Id) returns (found: bool)
      requires Valid()
      modifies deny
      ensures Valid()
      ensures found <==> resourceId in old(Denied())
      ensures Denied() == old(Denied())
      ensures deny.Recency() == Touched(old(deny.Recency()), resourceId)
    {
      TouchMembers(deny.Recency(), deny.maxSize, resourceId);
      found := deny.Contains(resourceId);
    }

    method DrainCancel(m: Raw) returns (settled: Settlement)
      requires Valid()
      modifies deny
      ensures Valid()
      ensures settled == DrainSettlement(m)
      ensures deny.Recency() ==
              if m.None? then old(deny.Recency()) else Inserted(old(deny.Recency()), deny.maxSize, m.value.resourceId)
    {
      if m.None? {
        return Terminated;
      }
      var _ := deny.Insert(m.value.resourceId);
      return Acked;
    }

    /** Phase 1: every cancel that parses is added to the deny list and acked. */
    method DrainCancels(fetch: Fetch) returns (ok: bool, settled: seq<Settlement>)
      requires Valid()
      modifies deny
      ensures Valid()
      ensures ok <==> fetch.Fetched?
      ensures deny.Recency() == DenyAfterDrain(old(deny.Recency()), deny.maxSize, fetch)
      ensures Denied() == DeniedAfter(old(deny.Recency()), deny.maxSize, fetch)
      ensures ok ==> CancelsDue(fetch.msgs, settled)
    {
      settled := [];
      if fetch.FetchError? {
        return false, settled;
      }
      ghost var start := deny.Recency();
      var msgs := fetch.msgs;
      for i := 0 to |msgs|
        invariant Valid()
        invariant deny.Recency() == Run(start, deny.maxSize, Adds(msgs[..i]))
        invariant settled == DrainSettlements(msgs[..i])
      {
        assert msgs[..i + 1] == msgs[..i] + [msgs[i]];
        assert Init(msgs[..i + 1]) == msgs[..i];
        OneMoreAdd(start, deny.maxSize, msgs[..i], msgs[i]);
        var one := DrainCancel(msgs[i]);
        settled := settled + [one];
      }
      assert msgs[..|msgs|] == msgs;
      DrainSettlementsAreDue(msgs);
      return true, settled;
    }

    method DeniedCreate(item: Item) returns (denied: bool)
      requires Valid()
      modifies deny
      ensures Valid() && Denied() == old(Denied())
      ensures denied <==> item.ceType.Create? && item.resourceId in old(Denied())
    {
      denied := false;
      if item.ceType.Create? {
        denied := IsDenied(item.resourceId);
      }
    }

    method GiveBack(resourceId: Id, newlyAdded: bool)
      requires Valid()
      modifies claimed
      ensures Valid()
      ensures claimed.Recency() ==
              if newlyAdded then Without(old(claimed.Recency()), resourceId) else old(claimed.Recency())
    {
      if newlyAdded {
        claimed.Remove(resourceId);
      }
    }

    /** The part of a forward that runs under the in-flight lock. */
    method ForwardLocked(item: Item, reply: Reply) returns (done: bool)
      requires Valid()
      modifies this`calls, deny, claimed
      ensures Valid() && Denied() == old(Denied())
      ensures var denied := item.ceType.Create? && item.resourceId in old(Denied());
              var x := item.resourceId;
              var taken := Inserted(old(claimed.Recency()), claimed.maxSize, x);
              && calls == old(calls) + (if denied then [] else [CallFor(item)])
              && (done <==> denied || !reply.Interrupted?)
              && claimed.Recency() ==
                 if (!denied && reply.Accepted?) || x in old(claimed.Recency()) then taken else Without(taken, x)
    {
      var newlyAdded := claimed.Insert(item.resourceId);
      var denied := DeniedCreate(item);
      if denied {
        GiveBack(item.resourceId, newlyAdded);
        return true;
      }
      done := Send(item, reply, newlyAdded);
    }

    /** The provider call, and the claim given back unless it succeeds. */
    method Send(item: Item, reply: Reply, newlyAdded: bool) returns (done: bool)
      requires Valid()
      modifies this`calls, claimed
      ensures Valid() && calls == old(calls) + [CallFor(item)]
      ensures done <==> !reply.Interrupted?
      ensures claimed.Recency() == if reply.Accepted? || !newlyAdded then old(claimed.Recency())
                                   else Without(old(claimed.Recency()), item.resourceId)
    {
      calls := calls + [SpCall(item.resourceId, item.ceType, item.ceType != Delete)];
      if !reply.Accepted? {
        GiveBack(item.resourceId, newlyAdded);
      }
      return !reply.Interrupted?;
    }

    /** Locks, claims, re-checks the deny list, calls the provider, undoes the claim on
        failure and unlocks. */
    method ForwardRequest(item: Item, a: Answer) returns (done: bool)
      requires Valid() && a.resolution.Ready?
      modifies this`calls, deny, claimed, inFlight
      ensures Valid() && Denied() == old(Denied())
      ensures inFlight.items == old(inFlight.items)
      ensures calls == old(calls) + CallOf(item, a, old(inFlight.items), old(Denied()))
      ensures claimed.Recency() ==
              LedgerAfter(old(claimed.Recency()), claimed.maxSize, item, a, old(inFlight.items), old(Denied()))
      ensures done == Concludes(item, a, old(inFlight.items), old(Denied()))
      ensures Called(item, a, old(inFlight.items), old(Denied()), old(calls), calls)
    {
      if !a.hasForwarder {
        return true;
      }
      var free := inFlight.AddIfAbsent(item.resourceId);
      if !free {
        assert inFlight.items == old(inFlight.items);
        return false;
      }
      done := ForwardLocked(item, a.reply);
      inFlight.Remove(item.resourceId);
      assert inFlight.items == old(inFlight.items);
    }

    /** Resolves the provider and forwards, rejects or requeues. */
    method RouteMessage(item: Item, a: Answer, fromRetryTopic: bool) returns (settled: Settlement)
      requires Valid()
      modifies this`calls, deny, claimed, inFlight
      ensures Valid() && Denied() == old(Denied())
      ensures inFlight.items == old(inFlight.items)
      ensures calls == old(calls) + CallOf(item, a, old(inFlight.items), old(Denied()))
      ensures claimed.Recency() ==
              LedgerAfter(old(claimed.Recency()), claimed.maxSize, item, a, old(inFlight.items), old(Denied()))
      ensures settled == Settled(item, a, old(inFlight.items), old(Denied()), fromRetryTopic)
      ensures Called(item, a, old(inFlight.items), old(Denied()), old(calls), calls)
      ensures settled.Acked? <==>
              || a.resolution.Unavailable?
              || (a.resolution.Ready? && !a.hasForwarder)
              || (Attempted(item, a, old(inFlight.items)) && item.ceType.Create? && item.resourceId in old(Denied()))
              || (calls != old(calls) && !a.reply.Interrupted?)
      ensures a.resolution.StoreError? ==> settled.Nacked?
      ensures settled.Requeued? <==>
              !fromRetryTopic && !settled.Acked? && !a.resolution.StoreError? && a.publishOk
      ensures settled.LeftUnacked? <==>
              !fromRetryTopic && !settled.Acked? && !a.resolution.StoreError? && !a.publishOk
      ensures !settled.Terminated?
    {
      match a.resolution {
        case StoreError => return Nacked;
        case NotFound => settled := Requeue(a, fromRetryTopic);
        case Unhealthy => settled := Requeue(a, fromRetryTopic);
        case Unavailable => return Acked;
        case Ready =>
          var done := ForwardRequest(item, a);
          if done {
            return Acked;
          }
          settled := Requeue(a, fromRetryTopic);
      }
    }

    /** One iteration of the loops of phases 2 and 3: a denied create is acked, anything
        else is routed. */
    method RouteNext(ghost before: seq<SpCall>, ghost items: seq<Item>, item: Item, env: Item -> Answer,
                     fromRetryTopic: bool) returns (settled: Settlement)
      requires Valid() && calls == before + CallsFor(items, env, inFlight.items, Denied())
      modifies this`calls, deny, claimed, inFlight
      ensures Valid() && Denied() == old(Denied())
      ensures inFlight.items == old(inFlight.items)
      ensures calls == before + CallsFor(items + [item], env, inFlight.items, Denied())
      ensures settled == TopicSettlement(item, env(item), inFlight.items, Denied(), fromRetryTopic)
    {
      CallsMore(before, items, item, env, inFlight.items, Denied());
      var denied := DeniedCreate(item);
      if denied {
        return Acked;
      }
      settled := RouteMessage(item, env(item), fromRetryTopic);
    }

    /** The loop of phase 2. */
    method RouteMains(msgs: seq<Raw>, env: Item -> Answer) returns (settled: seq<Settlement>)
      requires Valid()
      modifies this`calls, deny, claimed, inFlight
      ensures Valid() && Denied() == old(Denied())
      ensures inFlight.items == old(inFlight.items)
      ensures calls == old(calls) + CallsFor(Parsed(msgs), env, inFlight.items, Denied())
      ensures settled == MainSettlements(msgs, env, inFlight.items, Denied())
    {
      settled := [];
      ghost var locked := inFlight.items;
      ghost var denied := Denied();
      for i := 0 to |msgs|
        invariant Valid() && Denied() == denied
        invariant inFlight.items == locked
        invariant calls == old(calls) + CallsFor(Parsed(msgs[..i]), env, locked, denied)
        invariant settled == MainSettlements(msgs[..i], env, locked, denied)
      {
        ParsedMore(msgs, i);
        assert Init(msgs[..i + 1]) == msgs[..i];
        var one := Terminated;
        if msgs[i].Some? {
          one := RouteNext(old(calls), Parsed(msgs[..i]), msgs[i].value, env, false);
        }
        settled := settled + [one];
      }
      assert msgs[..|msgs|] == msgs;
    }

    /** Phase 2: every message that parses is routed and settled as due, the others terminated. */
    method DrainMain(fetch: Fetch, env: Item -> Answer) returns (ok: bool, settled: seq<Settlement>)
      requires Valid()
      modifies this`calls, deny, claimed, inFlight
      ensures Valid() && Denied() == old(Denied())
      ensures inFlight.items == old(inFlight.items)
      ensures ok <==> fetch.Fetched?
      ensures calls == old(calls) + CallsFor(Batch(fetch), env, inFlight.items, Denied())
      ensures ok ==> MainDue(fetch.msgs, env, inFlight.items, Denied(), settled)
    {
      if fetch.FetchError? {
        return false, [];
      }
      settled := RouteMains(fetch.msgs, env);
      MainSettlementsAreDue(fetch.msgs, env, inFlight.items, Denied());
      return true, settled;
    }

    /** Phase 3: what deduplication leaves is routed in order. */
    method DrainRetry(fetch: Fetch, env: Item -> Answer)
      returns (ok: bool, r: RetryResult, ghost routed: seq<Item>, ghost kept: seq<nat>)
      requires Valid()
      modifies this`calls, deny, claimed, inFlight
      ensures Valid() && Denied() == old(Denied())
      ensures inFlight.items == old(inFlight.items)
      ensures ok <==> fetch.Fetched?
      ensures Survivors(Batch(fetch), routed, kept)
      ensures calls == old(calls) + CallsFor(routed, env, inFlight.items, Denied())
      ensures RetrySettled(fetch, routed, env, inFlight.items, Denied(), r)
    {
      r := RetryResult([], [], [], []);
      if fetch.FetchError? {
        return false, r, [], [];
      }
      var items, terminated := ParseMessages(fetch.msgs);
      var acked, notified;
      items, acked, notified, kept := DedupCreateDeletePairs(items);
      routed := items;
      var settled := RouteRetries(items, env);
      RetrySettlementsAreDue(items, env, inFlight.items, Denied());
      return true, RetryResult(terminated, acked, notified, settled), routed, kept;
    }

    /** The loop of phase 3. */
    method RouteRetries(items: seq<Item>, env: Item -> Answer) returns (settled: seq<Settlement>)
      requires Valid()
      modifies this`calls, deny, claimed, inFlight
      ensures Valid() && Denied() == old(Denied())
      ensures inFlight.items == old(inFlight.items)
      ensures calls == old(calls) + CallsFor(items, env, inFlight.items, Denied())
      ensures settled == RetrySettlements(items, env, inFlight.items, Denied())
    {
      settled := [];
      ghost var locked := inFlight.items;
      ghost var denied := Denied();
      for i := 0 to |items|
        invariant Valid() && Denied() == denied
        invariant inFlight.items == locked
        invariant calls == old(calls) + CallsFor(items[..i], env, locked, denied)
        invariant settled == RetrySettlements(items[..i], env, locked, denied)
      {
        assert items[..i + 1] == items[..i] + [items[i]];
        assert Init(items[..i + 1]) == items[..i];
        var one := RouteNext(old(calls), items[..i], items[i], env, true);
        settled := settled + [one];
      }
      assert items[..|items|] == items;
    }

    /** The restart pass.  The provider calls are exactly those of the two later batches,
        judged against the deny list as phase 1 left it; a failed fetch ends the pass. */
    method ProcessOnRestart(cancels: Fetch, mains: Fetch, retries: Fetch, env: Item -> Answer)
      returns (ok: bool, r: RetryResult, ghost routed: seq<Item>, ghost kept: seq<nat>)
      requires Valid()
      modifies this`calls, deny, claimed, inFlight
      ensures Valid() && inFlight.items == old(inFlight.items)
      ensures ok <==> cancels.Fetched? && mains.Fetched? && retries.Fetched?
      ensures Denied() == DeniedAfter(old(deny.Recency()), deny.maxSize, cancels)
      ensures calls == old(calls) + PassCalls(cancels, mains, routed, env, inFlight.items, Denied())
      ensures RoutedInPass(cancels, mains, retries, routed, kept)
      ensures ok ==> Survivors(Parsed(retries.msgs), routed, kept)
      ensures ok ==> calls == old(calls) + (CallsFor(Parsed(mains.msgs), env, inFlight.items, Denied())
                                            + CallsFor(routed, env, inFlight.items, Denied()))
      ensures ok ==> RetrySettled(retries, routed, env, inFlight.items, Denied(), r)
      ensures Fits(old(deny.Recency()), deny.maxSize, cancels) ==>
                NoCreateFor(PassCalls(cancels, mains, routed, env, inFlight.items, Denied()), Drained(cancels))
    {
      ghost var start := deny.Recency();
      routed, kept := [], [];
      r := RetryResult([], [], [], []);
      var settled;
      ok, settled := DrainCancels(cancels);
      if ok {
        ok, r, routed, kept := RouteBacklog(cancels, mains, retries, env);
      } else {
        NothingRouted(mains, retries, env, inFlight.items, Denied());
      }
      assert Fits(start, deny.maxSize, cancels) ==>
               NoCreateFor(PassCalls(cancels, mains, routed, env, inFlight.items, Denied()), Drained(cancels)) by {
        RestartRespectsCancels(start, deny.maxSize, cancels, mains, routed, env, inFlight.items);
      }
    }

    /** Phases 2 and 3. */
    method RouteBacklog(ghost cancels: Fetch, mains: Fetch, retries: Fetch, env: Item -> Answer)
      returns (ok: bool, r: RetryResult, ghost routed: seq<Item>, ghost kept: seq<nat>)
      requires Valid() && cancels.Fetched?
      modifies this`calls, deny, claimed, inFlight
      ensures Valid() && Denied() == old(Denied()) && inFlight.items == old(inFlight.items)
      ensures ok <==> mains.Fetched? && retries.Fetched?
      ensures calls == old(calls) + PassCalls(cancels, mains, routed, env, inFlight.items, Denied())
      ensures RoutedInPass(cancels, mains, retries, routed, kept)
      ensures ok ==> RetrySettled(retries, routed, env, inFlight.items, Denied(), r)
    {
      ghost var before := calls;
      routed, kept := [], [];
      r := RetryResult([], [], [], []);
      var settled;
      ok, settled := DrainMain(mains, env);
      if ok {
        ok, r, routed, kept := DrainRetry(retries, env);
      }
      Regroup(before, CallsFor(Batch(mains), env, inFlight.items, Denied()),
              CallsFor(routed, env, inFlight.items, Denied()));
    }
  }

  /** When the cancels cannot be fetched nothing else happens. */
  lemma NothingRouted(mains: Fetch, retries: Fetch, env: Item -> Answer, locked: set<Id>, denied: set<Id>)
    ensures PassCalls(FetchError, mains, [], env, locked, denied) == []
    ensures RoutedInPass(FetchError, mains, retries, [], [])
  {
  }

  lemma Regroup(a: seq<SpCall>, b: seq<SpCall>, c: seq<SpCall>)
    ensures a + b + c == a + (b + c)
  {
  }

  function DrainSettlement(m: Raw): Settlement {
    if m.Some? then Acked else Terminated
  }

  function DrainSettlements(msgs: seq<Raw>): seq<Settlement> {
    if msgs == [] then [] else DrainSettlements(Init(msgs)) + [DrainSettlement(Last(msgs))]
  }

  function MainSettlements(msgs: seq<Raw>, env: Item -> Answer, locked: set<Id>, denied: set<Id>): seq<Settlement> {
    if msgs == [] then []
    else MainSettlements(Init(msgs), env, locked, denied) + [MainSettlement(Last(msgs), env, locked, denied)]
  }

  function CallOf(item: Item, a: Answer, locked: set<Id>, denied: set<Id>): seq<SpCall> {
    if Calls(item, a, locked, denied) then [CallFor(item)] else []
  }

  /** The forward reached a verdict: no forwarder, denied, accepted or refused for good. */
  predicate Concludes(item: Item, a: Answer, locked: set<Id>, denied: set<Id>) {
    !a.hasForwarder || (item.resourceId !in locked &&
      ((item.ceType.Create? && item.resourceId in denied) || !a.reply.Interrupted?))
  }

  /** How a routed message is settled: acked only once its outcome is decided. */
  function Settled(item: Item, a: Answer, locked: set<Id>, denied: set<Id>, fromRetryTopic: bool): Settlement {
    if a.resolution.Unavailable? || (a.resolution.Ready? && Concludes(item, a, locked, denied)) then Acked
    else if a.resolution.StoreError? || fromRetryTopic then Nacked
    else if a.publishOk then Requeued
    else LeftUnacked
  }

  function TopicSettlement(item: Item, a: Answer, locked: set<Id>, denied: set<Id>, fromRetryTopic: bool): Settlement {
    if item.ceType.Create? && item.resourceId in denied then Acked else Settled(item, a, locked, denied, fromRetryTopic)
  }

  function MainSettlement(m: Raw, env: Item -> Answer, locked: set<Id>, denied: set<Id>): Settlement {
    if m.None? then Terminated else TopicSettlement(m.value, env(m.value), locked, denied, false)
  }

  function RetrySettlements(items: seq<Item>, env: Item -> Answer, locked: set<Id>, denied: set<Id>): seq<Settlement> {
    if items == [] then []
    else RetrySettlements(Init(items), env, locked, denied)
         + [TopicSettlement(Last(items), env(Last(items)), locked, denied, true)]
  }

  /** How phase 3 settled its messages: the positions terminated among the fetched ones, the
      positions acked by deduplication among the parsed ones, the ids whose deletion was
      acknowledged, and the settlement of each routed message. */
  datatype RetryResult = RetryResult(
    terminated: seq<nat>, deduplicated: seq<nat>, notified: seq<Id>, settled: seq<Settlement>)

  ghost predicate RetrySettled(fetch: Fetch, routed: seq<Item>, env: Item -> Answer, locked: set<Id>, denied: set<Id>,
                               r: RetryResult) {
    if fetch.FetchError? then r == RetryResult([], [], [], [])
    else
      var items := Batch(fetch);
      && Distinct(r.terminated) && Distinct(r.deduplicated) && Distinct(r.notified)
      && (forall i :: i in r.terminated <==> 0 <= i < |fetch.msgs| && fetch.msgs[i].None?)
      && (forall i :: i in r.deduplicated <==> 0 <= i < |items| && Deduped(items, i))
      && (forall id :: id in r.notified <==> Paired(items, id))
      && RetryDue(routed, env, locked, denied, r.settled)
  }

  /** A message not ready to forward is nacked in place, or moved to the retry topic. */
  method Requeue(a: Answer, fromRetryTopic: bool) returns (settled: Settlement)
    ensures fromRetryTopic ==> settled == Nacked
    ensures !fromRetryTopic ==> settled == if a.publishOk then Requeued else LeftUnacked
  {
    if fromRetryTopic {
      return Nacked;
    }
    if a.publishOk {
      return Requeued;
    }
    return LeftUnacked;
  }

  /** Keeps the messages that parse, in order, and terminates the others. */
  method ParseMessages(msgs: seq<Raw>) returns (items: seq<Item>, terminated: seq<nat>)
    ensures items == Parsed(msgs)
    ensures Distinct(terminated) && forall i :: i in terminated <==> 0 <= i < |msgs| && msgs[i].None?
  {
    items, terminated := [], [];
    for i := 0 to |msgs|
      invariant items == Parsed(msgs[..i])
      invariant Distinct(terminated) && forall j :: j in terminated <==> 0 <= j < i && msgs[j].None?
    {
      ParsedMore(msgs, i);
      if msgs[i].Some? {
        items := items + [msgs[i].value];
      } else {
        DistinctConcat(terminated, [i]);
        terminated := terminated + [i];
      }
    }
    assert msgs[..|msgs|] == msgs;
  }

  lemma ParsedMore(msgs: seq<Raw>, i: nat)
    requires i < |msgs|
    ensures Parsed(msgs[..i + 1]) ==
            if msgs[i].Some? then Parsed(msgs[..i]) + [msgs[i].value] else Parsed(msgs[..i])
  {
    assert Init(msgs[..i + 1]) == msgs[..i];
  }

  lemma CallsMore(before: seq<SpCall>, items: seq<Item>, item: Item, env: Item -> Answer, locked: set<Id>, denied: set<Id>)
    ensures before + CallsFor(items + [item], env, locked, denied) ==
            before + CallsFor(items, env, locked, denied) + CallOf(item, env(item), locked, denied)
  {
    assert Init(items + [item]) == items;
    var (a, b) := (CallsFor(items, env, locked, denied), CallOf(item, env(item), locked, denied));
    assert before + (a + b) == before + a + b;
  }

  lemma OneMoreAdd(s: seq<Id>, cap: nat, msgs: seq<Raw>, m: Raw)
    ensures Run(s, cap, Adds(msgs + [m])) ==
            if m.None? then Run(s, cap, Adds(msgs))
            else Inserted(Run(s, cap, Adds(msgs)), cap, m.value.resourceId)
  {
    AddsConcat(msgs, [m]);
    RunConcat(s, cap, Adds(msgs), Adds([m]));
    assert [m][1..] == [];
    if m.Some? {
      var x := m.value.resourceId;
      assert Adds([m]) == [Add(x)] && [Add(x)][1..] == [];
    }
  }
}
