/** The bounded, LRU-evicting set of resource ids behind the deny list and the
    claimed-resources ledger.

    The specification is a duplicate-free sequence of ids, most recently used
    first.  The class keeps what the agent keeps, a map from id to list element
    and a linked list of elements, and every method is proved to act on the
    recency sequence as the specification says. */
module ResourceSets {
  import opened Base

  // ---------------------------------------------------------------- sequences

  /** `s` with every occurrence of `x` dropped, order kept. */
  function Without(s: seq<Id>, x: Id): (r: seq<Id>)
    ensures forall y :: y in r <==> y in s && y != x
    ensures |r| <= |s|
    ensures x !in s ==> r == s
    ensures x in s ==> |r| < |s|
  {
    if s == [] then []
    else if s[0] == x then Without(s[1..], x)
    else [s[0]] + Without(s[1..], x)
  }

  function Init<T>(s: seq<T>): seq<T>
    requires s != []
  {
    s[..|s| - 1]
  }

  function Last<T>(s: seq<T>): T
    requires s != []
  {
    s[|s| - 1]
  }

  lemma {:induction false} WithoutDistinct(s: seq<Id>, x: Id)
    requires Distinct(s)
    ensures Distinct(Without(s, x))
    ensures x in s ==> |Without(s, x)| == |s| - 1
  {
    if s != [] {
      WithoutDistinct(s[1..], x);
      if s[0] != x {
        assert s[0] !in s[1..];
      }
    }
  }

  lemma {:induction false} DistinctCount(s: seq<Id>)
    requires Distinct(s)
    ensures |(set x | x in s)| == |s|
  {
    if s != [] {
      DistinctCount(s[1..]);
      assert (set x | x in s) == {s[0]} + (set x | x in s[1..]);
    }
  }

  // ------------------------------------------------------- the specification

  datatype Op = Add(id: Id) | AddIfAbsent(id: Id) | Contains(id: Id) | Consume(id: Id) | Remove(id: Id)

  /** The id an insertion throws out: the least recent one of a full set. */
  function Victims(s: seq<Id>, cap: nat, x: Id): set<Id> {
    if x !in s && |s| >= cap && s != [] then {Last(s)} else {}
  }

  function Inserted(s: seq<Id>, cap: nat, x: Id): seq<Id> {
    if x in s then [x] + Without(s, x)
    else if |s| >= cap && s != [] then [x] + Init(s)
    else [x] + s
  }

  function Touched(s: seq<Id>, x: Id): seq<Id> {
    if x in s then [x] + Without(s, x) else s
  }

  function Apply(s: seq<Id>, cap: nat, op: Op): seq<Id> {
    match op
    case Add(x) => Inserted(s, cap, x)
    case AddIfAbsent(x) => Inserted(s, cap, x)
    case Contains(x) => Touched(s, x)
    case Consume(x) => Without(s, x)
    case Remove(x) => Without(s, x)
  }

  function Run(s: seq<Id>, cap: nat, ops: seq<Op>): seq<Id>
    decreases |ops|
  {
    if ops == [] then s else Run(Apply(s, cap, ops[0]), cap, ops[1..])
  }

  ghost predicate WellFormed(s: seq<Id>, cap: nat) {
    1 <= cap && Distinct(s) && |s| <= cap
  }

  /** Who is in the set after an insertion: the new id and everyone but the victim. */
  lemma InsertMembers(s: seq<Id>, cap: nat, x: Id)
    requires WellFormed(s, cap)
    ensures WellFormed(Inserted(s, cap, x), cap)
    ensures forall y :: y in Inserted(s, cap, x) <==> y == x || (y in s && y !in Victims(s, cap, x))
    ensures x !in Victims(s, cap, x)
  {
    WithoutDistinct(s, x);
    if x !in s && |s| >= cap {
      assert s == Init(s) + [Last(s)];
      forall y ensures y in Init(s) <==> y in s && y != Last(s) {
        if y in s && y != Last(s) {
          var i :| 0 <= i < |s| && s[i] == y;
          assert Init(s)[i] == y;
        }
      }
    }
  }

  lemma TouchMembers(s: seq<Id>, cap: nat, x: Id)
    requires WellFormed(s, cap)
    ensures WellFormed(Touched(s, x), cap)
    ensures forall y :: y in Touched(s, x) <==> y in s
  {
    WithoutDistinct(s, x);
  }

  lemma ApplyWellFormed(s: seq<Id>, cap: nat, op: Op)
    requires WellFormed(s, cap)
    ensures WellFormed(Apply(s, cap, op), cap)
  {
    InsertMembers(s, cap, op.id);
    TouchMembers(s, cap, op.id);
    WithoutDistinct(s, op.id);
  }

  /** Every run keeps a duplicate-free recency sequence within capacity. */
  lemma {:induction false} RunWellFormed(s: seq<Id>, cap: nat, ops: seq<Op>)
    requires WellFormed(s, cap)
    ensures WellFormed(Run(s, cap, ops), cap)
    decreases |ops|
  {
    if ops != [] {
      ApplyWellFormed(s, cap, ops[0]);
      RunWellFormed(Apply(s, cap, ops[0]), cap, ops[1..]);
    }
  }

  // ---------------------------------------------- inclusion across capacities

  ghost predicate Subsequence(a: seq<Id>, b: seq<Id>) {
    if a == [] then true
    else if b == [] then false
    else if a[0] == b[0] then Subsequence(a[1..], b[1..])
    else Subsequence(a, b[1..])
  }

  lemma {:induction false} SubsequenceMembers(a: seq<Id>, b: seq<Id>)
    requires Subsequence(a, b)
    ensures forall x :: x in a ==> x in b
    ensures |a| <= |b|
    decreases |b|
  {
    if a != [] {
      assert a == [a[0]] + a[1..];
      if a[0] == b[0] {
        SubsequenceMembers(a[1..], b[1..]);
      } else {
        SubsequenceMembers(a, b[1..]);
      }
    }
  }

  lemma {:induction false} SubsequenceWeaken(a: seq<Id>, b: seq<Id>, y: Id)
    requires Subsequence(a, b)
    ensures Subsequence(a, [y] + b)
    decreases |b|, |a|
  {
    assert ([y] + b)[1..] == b;
    if a != [] && a[0] == y {
      SubsequenceTail(a, b);
    }
  }

  lemma {:induction false} SubsequenceTail(a: seq<Id>, b: seq<Id>)
    requires a != [] && Subsequence(a, b)
    ensures Subsequence(a[1..], b)
    decreases |b|, 0
  {
    if a[0] == b[0] {
      SubsequenceWeaken(a[1..], b[1..], b[0]);
    } else {
      SubsequenceTail(a, b[1..]);
      SubsequenceWeaken(a[1..], b[1..], b[0]);
    }
    assert [b[0]] + b[1..] == b;
  }

  lemma {:induction false} SubsequenceWithout(a: seq<Id>, b: seq<Id>, x: Id)
    requires Subsequence(a, b)
    ensures Subsequence(Without(a, x), Without(b, x))
    decreases |b|
  {
    if a != [] {
      if a[0] == b[0] {
        SubsequenceWithout(a[1..], b[1..], x);
        SubsequencePush(Without(a[1..], x), Without(b[1..], x), a[0]);
      } else {
        SubsequenceWithout(a, b[1..], x);
        SubsequenceWeaken(Without(a, x), Without(b[1..], x), b[0]);
      }
    }
  }

  lemma SubsequencePush(a: seq<Id>, b: seq<Id>, x: Id)
    requires Subsequence(a, b)
    ensures Subsequence([x] + a, [x] + b)
  {
    assert ([x] + a)[1..] == a && ([x] + b)[1..] == b;
  }

  lemma {:induction false} SubsequenceInit(a: seq<Id>, b: seq<Id>)
    requires a != [] && Subsequence(a, b)
    ensures b != [] && Subsequence(Init(a), Init(b)) && Subsequence(Init(a), b)
    decreases |b|
  {
    if |a| == 1 {
      assert Init(a) == [];
    } else if a[0] == b[0] {
      SubsequenceInit(a[1..], b[1..]);
      assert Init(a) == [a[0]] + Init(a[1..]) && Init(b) == [b[0]] + Init(b[1..]);
      SubsequencePush(Init(a[1..]), Init(b[1..]), a[0]);
      SubsequencePush(Init(a[1..]), b[1..], a[0]);
      assert [b[0]] + b[1..] == b;
    } else {
      SubsequenceInit(a, b[1..]);
      assert Init(b) == [b[0]] + Init(b[1..]);
      SubsequenceWeaken(Init(a), Init(b[1..]), b[0]);
      SubsequenceWeaken(Init(a), b[1..], b[0]);
      assert [b[0]] + b[1..] == b;
    }
  }

  /** The coupling that makes inclusion inductive: besides being a subsequence,
      the smaller set is never short by more than the difference in capacity,
      so whenever the larger one evicts, the smaller one is full too. */
  ghost predicate Coupled(a: seq<Id>, b: seq<Id>, small: nat, large: nat) {
    && WellFormed(a, small) && WellFormed(b, large)
    && small <= large
    && Subsequence(a, b)
    && |b| - |a| <= large - small
  }

  lemma CoupledInsert(a: seq<Id>, b: seq<Id>, small: nat, large: nat, x: Id)
    requires Coupled(a, b, small, large)
    ensures Coupled(Inserted(a, small, x), Inserted(b, large, x), small, large)
  {
    InsertMembers(a, small, x);
    InsertMembers(b, large, x);
    WithoutDistinct(a, x);
    WithoutDistinct(b, x);
    SubsequenceMembers(a, b);
    SubsequenceWithout(a, b, x);
    if a != [] {
      SubsequenceInit(a, b);
    }
    if x in b {
      if x in a {
        SubsequencePush(Without(a, x), Without(b, x), x);
      } else if |a| >= small {
        SubsequenceInit(a, Without(b, x));
        SubsequencePush(Init(a), Without(b, x), x);
      } else {
        SubsequencePush(a, Without(b, x), x);
      }
    } else if |b| >= large {
      SubsequencePush(Init(a), Init(b), x);
    } else if |a| >= small {
      SubsequencePush(Init(a), b, x);
    } else {
      SubsequencePush(a, b, x);
    }
  }

  lemma CoupledTouch(a: seq<Id>, b: seq<Id>, small: nat, large: nat, x: Id)
    requires Coupled(a, b, small, large)
    ensures Coupled(Touched(a, x), Touched(b, x), small, large)
  {
    TouchMembers(a, small, x);
    TouchMembers(b, large, x);
    WithoutDistinct(a, x);
    WithoutDistinct(b, x);
    SubsequenceMembers(a, b);
    SubsequenceWithout(a, b, x);
    if x in a {
      SubsequencePush(Without(a, x), Without(b, x), x);
    } else if x in b {
      SubsequenceWeaken(a, Without(b, x), x);
    }
  }

  lemma CoupledRemove(a: seq<Id>, b: seq<Id>, small: nat, large: nat, x: Id)
    requires Coupled(a, b, small, large)
    ensures Coupled(Without(a, x), Without(b, x), small, large)
  {
    WithoutDistinct(a, x);
    WithoutDistinct(b, x);
    SubsequenceMembers(a, b);
    SubsequenceWithout(a, b, x);
  }

  lemma {:induction false} CoupledRun(a: seq<Id>, b: seq<Id>, small: nat, large: nat, ops: seq<Op>)
    requires Coupled(a, b, small, large)
    ensures Coupled(Run(a, small, ops), Run(b, large, ops), small, large)
    decreases |ops|
  {
    if ops != [] {
      var x := ops[0].id;
      CoupledInsert(a, b, small, large, x);
      CoupledTouch(a, b, small, large, x);
      CoupledRemove(a, b, small, large, x);
      CoupledRun(Apply(a, small, ops[0]), Apply(b, large, ops[0]), small, large, ops[1..]);
    }
  }

  /** Under one operation sequence the smaller set always holds a subset of the
      larger one, in the same recency order, although the two evict different
      entries and answer the same queries differently. */
  lemma Inclusion(small: nat, large: nat, ops: seq<Op>)
    requires 1 <= small <= large
    ensures Subsequence(Run([], small, ops), Run([], large, ops))
    ensures forall x :: x in Run([], small, ops) ==> x in Run([], large, ops)
  {
    CoupledRun([], [], small, large, ops);
    SubsequenceMembers(Run([], small, ops), Run([], large, ops));
  }

  // -------------------------------------------------------------- retention

  /** The ids used more recently than `x`. */
  ghost function Ahead(s: seq<Id>, x: Id): set<Id>
    ensures x !in Ahead(s, x)
  {
    if s == [] || s[0] == x then {} else {s[0]} + Ahead(s[1..], x)
  }

  predicate Removes(op: Op) { op.Consume? || op.Remove? }

  /** The id other than `x` that an operation really used: inserted, or found by Contains. */
  ghost function UsedBy(s: seq<Id>, op: Op, x: Id): set<Id> {
    if op.id != x && (op.Add? || op.AddIfAbsent? || (op.Contains? && op.id in s)) then {op.id} else {}
  }

  ghost function Used(s: seq<Id>, cap: nat, ops: seq<Op>, x: Id): set<Id>
    decreases |ops|
  {
    if ops == [] then {} else UsedBy(s, ops[0], x) + Used(Apply(s, cap, ops[0]), cap, ops[1..], x)
  }

  lemma {:induction false} AheadWithout(s: seq<Id>, x: Id, y: Id)
    requires x != y
    ensures Ahead(Without(s, y), x) == Ahead(s, x) - {y}
  {
    if s != [] {
      AheadWithout(s[1..], x, y);
      if s[0] != x && s[0] != y {
        assert Without(s, y)[1..] == Without(s[1..], y);
      }
    }
  }

  lemma {:induction false} AheadInit(s: seq<Id>, x: Id)
    requires s != [] && x in Init(s)
    ensures Ahead(Init(s), x) == Ahead(s, x)
  {
    if s[0] != x {
      assert Init(s)[1..] == Init(s[1..]);
      AheadInit(s[1..], x);
    }
  }

  lemma {:induction false} AheadMembers(s: seq<Id>, x: Id)
    ensures forall y :: y in Ahead(s, x) ==> y in s
  {
    if s != [] && s[0] != x {
      AheadMembers(s[1..], x);
    }
  }

  /** Everyone but the least recent entry is ahead of it. */
  lemma {:induction false} AheadOfLast(s: seq<Id>)
    requires s != [] && Distinct(s)
    ensures |Ahead(s, Last(s))| == |s| - 1
  {
    if |s| > 1 {
      AheadOfLast(s[1..]);
      AheadMembers(s[1..], Last(s));
      assert Last(s[1..]) == Last(s);
      assert s[0] !in Ahead(s[1..], Last(s));
    }
  }

  lemma AheadPush(s: seq<Id>, x: Id, y: Id)
    requires x != y
    ensures Ahead([y] + s, x) == {y} + Ahead(s, x)
  {
    assert ([y] + s)[1..] == s;
  }

  /** An insertion of `y` puts `y` ahead of `x`, or evicts `x`, and then `cap`
      distinct ids were ahead of it. */
  lemma InsertionStep(s: seq<Id>, cap: nat, x: Id, y: Id)
    requires WellFormed(s, cap) && x in s && y != x
    ensures x in Inserted(s, cap, y) ==> Ahead(Inserted(s, cap, y), x) == Ahead(s, x) + {y}
    ensures x !in Inserted(s, cap, y) ==> |Ahead(s, x) + {y}| == cap
  {
    InsertMembers(s, cap, y);
    if y in s {
      AheadWithout(s, x, y);
      AheadPush(Without(s, y), x, y);
    } else if |s| < cap {
      AheadPush(s, x, y);
    } else {
      EvictionStep(s, cap, x, y);
    }
  }

  /** An insertion into a full set. */
  lemma EvictionStep(s: seq<Id>, cap: nat, x: Id, y: Id)
    requires WellFormed(s, cap) && x in s && y !in s && |s| == cap
    ensures x in Inserted(s, cap, y) ==> Ahead(Inserted(s, cap, y), x) == Ahead(s, x) + {y}
    ensures x !in Inserted(s, cap, y) ==> |Ahead(s, x) + {y}| == cap
  {
    InsertMembers(s, cap, y);
    if x == Last(s) {
      AheadOfLast(s);
      AheadMembers(s, x);
    } else {
      assert x in Init(s) by {
        var i :| 0 <= i < |s| && s[i] == x;
        assert Init(s)[i] == x;
      }
      AheadInit(s, x);
      AheadPush(Init(s), x, y);
    }
  }

  lemma QueryStep(s: seq<Id>, cap: nat, x: Id, y: Id)
    requires WellFormed(s, cap) && x in s && y != x
    ensures x in Touched(s, y)
    ensures Ahead(Touched(s, y), x) == if y in s then Ahead(s, x) + {y} else Ahead(s, x)
  {
    AheadWithout(s, x, y);
    AheadPush(Without(s, y), x, y);
  }

  /** One step of an entry's life, for every operation on another id. */
  lemma RetentionStep(s: seq<Id>, cap: nat, x: Id, op: Op)
    requires WellFormed(s, cap) && x in s && op.id != x
    ensures x in Apply(s, cap, op) ==> Ahead(Apply(s, cap, op), x) <= Ahead(s, x) + UsedBy(s, op, x)
    ensures x in Apply(s, cap, op) && !Removes(op) ==>
              Ahead(Apply(s, cap, op), x) == Ahead(s, x) + UsedBy(s, op, x)
    ensures x !in Apply(s, cap, op) ==> |Ahead(s, x) + UsedBy(s, op, x)| == cap
  {
    match op
    case Add(y) => InsertionStep(s, cap, x, y);
    case AddIfAbsent(y) => InsertionStep(s, cap, x, y);
    case Contains(y) => QueryStep(s, cap, x, y);
    case Consume(y) => AheadWithout(s, x, y);
    case Remove(y) => AheadWithout(s, x, y);
  }

  lemma {:induction false} RetainedFrom(s: seq<Id>, cap: nat, ops: seq<Op>, x: Id, seen: set<Id>)
    requires WellFormed(s, cap) && x in s && Ahead(s, x) <= seen
    requires forall op :: op in ops && op.id == x ==> !Removes(op)
    requires |seen + Used(s, cap, ops, x)| < cap
    ensures x in Run(s, cap, ops)
    decreases |ops|
  {
    if ops != [] {
      var op := ops[0];
      var s' := Apply(s, cap, op);
      var seen' := seen + UsedBy(s, op, x);
      ApplyWellFormed(s, cap, op);
      assert seen' + Used(s', cap, ops[1..], x) == seen + Used(s, cap, ops, x);
      if op.id == x {
        assert s'[0] == x;
      } else {
        RetentionStep(s, cap, x, op);
        SmallerSet(Ahead(s, x) + UsedBy(s, op, x), seen + Used(s, cap, ops, x));
      }
      RetainedFrom(s', cap, ops[1..], x, seen');
    }
  }

  lemma {:induction false} SmallerSet<T>(a: set<T>, b: set<T>)
    requires a <= b
    ensures |a| <= |b|
  {
    if a != {} {
      var x :| x in a;
      SmallerSet(a - {x}, b - {x});
    }
  }

  /** An id that was just used is still there unless it was removed explicitly
      or at least `cap` distinct other ids were used since. */
  lemma EvictedOnlyAfterCapacityOthers(s: seq<Id>, cap: nat, ops: seq<Op>, x: Id)
    requires WellFormed(s, cap) && s != [] && s[0] == x
    requires forall op :: op in ops && op.id == x ==> !Removes(op)
    requires x !in Run(s, cap, ops)
    ensures |Used(s, cap, ops, x)| >= cap
  {
    if |Used(s, cap, ops, x)| < cap {
      assert {} + Used(s, cap, ops, x) == Used(s, cap, ops, x);
      RetainedFrom(s, cap, ops, x, {});
    }
  }

  lemma {:induction false} GoneStaysGone(s: seq<Id>, cap: nat, ops: seq<Op>, x: Id)
    requires WellFormed(s, cap) && x !in s
    requires forall op :: op in ops ==> op.id != x
    ensures x !in Run(s, cap, ops)
    decreases |ops|
  {
    if ops != [] {
      ApplyWellFormed(s, cap, ops[0]);
      InsertMembers(s, cap, ops[0].id);
      GoneStaysGone(Apply(s, cap, ops[0]), cap, ops[1..], x);
    }
  }

  lemma {:induction false} RetainedExactlyFrom(s: seq<Id>, cap: nat, ops: seq<Op>, x: Id, seen: set<Id>)
    requires WellFormed(s, cap) && x in s && Ahead(s, x) == seen
    requires forall op :: op in ops ==> op.id != x && !Removes(op)
    ensures x in Run(s, cap, ops) <==> |seen + Used(s, cap, ops, x)| < cap
    decreases |ops|
  {
    if ops == [] {
      AheadBelowCapacity(s, cap, x);
      assert seen + Used(s, cap, ops, x) == seen;
    } else {
      var op := ops[0];
      var s' := Apply(s, cap, op);
      ApplyWellFormed(s, cap, op);
      RetentionStep(s, cap, x, op);
      var seen' := seen + UsedBy(s, op, x);
      assert seen' + Used(s', cap, ops[1..], x) == seen + Used(s, cap, ops, x);
      if x in s' {
        RetainedExactlyFrom(s', cap, ops[1..], x, seen');
      } else {
        GoneStaysGone(s', cap, ops[1..], x);
        SmallerSet(seen', seen + Used(s, cap, ops, x));
      }
    }
  }

  lemma {:induction false} AheadBelowCapacity(s: seq<Id>, cap: nat, x: Id)
    requires WellFormed(s, cap) && x in s
    ensures |Ahead(s, x)| < cap
  {
    DistinctCount(s);
    AheadMembers(s, x);
    SmallerSet(Ahead(s, x) + {x}, set y | y in s);
  }

  /** With no explicit removals the condition is exact: an id survives if and
      only if fewer than `cap` distinct other ids were used since its last use. */
  lemma RetainedExactly(s: seq<Id>, cap: nat, ops: seq<Op>, x: Id)
    requires WellFormed(s, cap) && s != [] && s[0] == x
    requires forall op :: op in ops ==> op.id != x && !Removes(op)
    ensures x in Run(s, cap, ops) <==> |Used(s, cap, ops, x)| < cap
  {
    RetainedExactlyFrom(s, cap, ops, x, {});
    assert {} + Used(s, cap, ops, x) == Used(s, cap, ops, x);
  }

  // -------------------------------------------------------------- the class

  /** A node of the linked list. */
  class Element {
    const value: Id

    constructor (value: Id)
      ensures this.value == value
    {
      this.value := value;
    }
  }

  function Values(order: seq<Element>): (r: seq<Id>)
    ensures |r| == |order|
    ensures forall i :: 0 <= i < |order| ==> r[i] == order[i].value
  {
    seq(|order|, i requires 0 <= i < |order| => order[i].value)
  }

  /** The list with node `e` unlinked. */
  function Unlink(order: seq<Element>, e: Element): (r: seq<Element>)
    ensures forall x :: x in r ==> x in order
  {
    if order == [] then []
    else if order[0] == e then order[1..]
    else [order[0]] + Unlink(order[1..], e)
  }

  lemma {:induction false} UnlinkMembers(order: seq<Element>, e: Element)
    requires Distinct(order)
    ensures forall x :: x in Unlink(order, e) <==> x in order && x != e
  {
    if order != [] {
      assert order == [order[0]] + order[1..];
      UnlinkMembers(order[1..], e);
    }
  }

  lemma {:induction false} UnlinkValues(order: seq<Element>, e: Element)
    requires e in order && Distinct(Values(order))
    ensures Values(Unlink(order, e)) == Without(Values(order), e.value)
  {
    assert Values(order)[1..] == Values(order[1..]);
    if order[0] == e {
      assert Values(order)[0] !in Values(order)[1..];
    } else {
      assert e.value != order[0].value by {
        var i :| 1 <= i < |order| && order[i] == e;
        assert Values(order)[0] != Values(order)[i];
      }
      UnlinkValues(order[1..], e);
      assert Values(Unlink(order, e)) == [order[0].value] + Values(Unlink(order[1..], e));
    }
  }

  lemma DistinctNodes(order: seq<Element>)
    requires Distinct(Values(order))
    ensures Distinct(order)
  {
    forall i, j | 0 <= i < j < |order| ensures order[i] != order[j] {
      assert Values(order)[i] != Values(order)[j];
    }
  }

  /** The map and the list describe the same duplicate-free set of nodes. */
  ghost predicate Linked(items: map<Id, Element>, order: seq<Element>) {
    && Distinct(Values(order))
    && (forall e :: e in order ==> e.value in items && items[e.value] == e)
    && (forall k :: k in items ==> items[k] in order && items[k].value == k)
  }

  lemma LinkedCount(items: map<Id, Element>, order: seq<Element>)
    requires Linked(items, order)
    ensures items.Keys == set x | x in Values(order)
    ensures |items| == |order|
  {
    forall k | k in items ensures k in Values(order) {
      var i :| 0 <= i < |order| && order[i] == items[k];
      assert Values(order)[i] == k;
    }
    forall k | k in Values(order) ensures k in items {
      var i :| 0 <= i < |order| && Values(order)[i] == k;
      assert order[i] in order;
    }
    DistinctCount(Values(order));
    assert |items| == |items.Keys|;
  }

  lemma LinkedUnlink(items: map<Id, Element>, order: seq<Element>, e: Element)
    requires Linked(items, order) && e in order
    ensures Linked(items - {e.value}, Unlink(order, e))
    ensures Values(Unlink(order, e)) == Without(Values(order), e.value)
  {
    DistinctNodes(order);
    UnlinkMembers(order, e);
    UnlinkValues(order, e);
    WithoutDistinct(Values(order), e.value);
  }

  lemma LinkedPush(items: map<Id, Element>, order: seq<Element>, e: Element)
    requires Linked(items, order) && e.value !in items
    ensures Linked(items[e.value := e], [e] + order)
    ensures Values([e] + order) == [e.value] + Values(order)
  {
    LinkedCount(items, order);
    assert Values([e] + order) == [e.value] + Values(order);
  }

  lemma LinkedFront(items: map<Id, Element>, order: seq<Element>, e: Element)
    requires Linked(items, order) && e in order
    ensures Linked(items, [e] + Unlink(order, e))
    ensures Values([e] + Unlink(order, e)) == [e.value] + Without(Values(order), e.value)
  {
    LinkedUnlink(items, order, e);
    LinkedPush(items - {e.value}, Unlink(order, e), e);
    assert (items - {e.value})[e.value := e] == items;
  }

  lemma LinkedDropLast(items: map<Id, Element>, order: seq<Element>)
    requires Linked(items, order) && order != []
    ensures Linked(items - {Last(order).value}, Init(order))
    ensures Values(Init(order)) == Init(Values(order))
  {
    var back := Last(order);
    assert order == Init(order) + [back];
    assert Values(Init(order)) == Init(Values(order));
    forall e | e in Init(order) ensures e.value != back.value {
      var i :| 0 <= i < |order| - 1 && order[i] == e;
      assert Values(order)[i] != Values(order)[|order| - 1];
    }
  }

  class ResourceSet {
    const maxSize: nat
    var items: map<Id, Element>
    var order: seq<Element>

    ghost predicate Valid()
      reads this
    {
      1 <= maxSize && |order| <= maxSize && Linked(items, order)
    }

    function Recency(): (r: seq<Id>)
      requires Valid()
      reads this
      ensures WellFormed(r, maxSize)
    {
      Values(order)
    }

    constructor (maxSize: int)
      ensures Valid() && Recency() == []
      ensures this.maxSize == if maxSize <= 0 then 1 else maxSize
    {
      this.maxSize := if maxSize <= 0 then 1 else maxSize;
      items := map[];
      order := [];
    }

    /** `order.MoveToFront`. */
    method MoveToFront(elem: Element)
      requires Valid() && elem in order
      modifies this`order
      ensures Valid()
      ensures Recency() == [elem.value] + Without(old(Recency()), elem.value)
    {
      LinkedFront(items, order, elem);
      WithoutDistinct(Recency(), elem.value);
      order := [elem] + Unlink(order, elem);
    }

    /** `order.Remove` of the back element and the matching map deletion. */
    method EvictBack()
      requires Valid() && order != []
      modifies this
      ensures Valid()
      ensures Recency() == Init(old(Recency()))
    {
      LinkedDropLast(items, order);
      var back := Last(order);
      order := Init(order);
      items := items - {back.value};
    }

    /** `order.PushFront` and the matching map entry. */
    method PushFront(resourceId: Id)
      requires Valid() && resourceId !in Recency() && |order| < maxSize
      modifies this
      ensures Valid()
      ensures Recency() == [resourceId] + old(Recency())
    {
      LinkedCount(items, order);
      var elem := new Element(resourceId);
      LinkedPush(items, order, elem);
      order := [elem] + order;
      items := items[resourceId := elem];
    }

    method Insert(resourceId: Id) returns (added: bool)
      requires Valid()
      modifies this
      ensures Valid()
      ensures added == (resourceId !in old(Recency()))
      ensures Recency() == Inserted(old(Recency()), maxSize, resourceId)
    {
      LinkedCount(items, order);
      added := resourceId !in items;
      if !added {
        MoveToFront(items[resourceId]);
      } else {
        if |items| >= maxSize {
          EvictBack();
        }
        PushFront(resourceId);
      }
    }

    method Contains(resourceId: Id) returns (found: bool)
      requires Valid()
      modifies this
      ensures Valid()
      ensures found == (resourceId in old(Recency()))
      ensures Recency() == Touched(old(Recency()), resourceId)
    {
      LinkedCount(items, order);
      found := resourceId in items;
      if found {
        MoveToFront(items[resourceId]);
      }
    }

    method Consume(resourceId: Id) returns (found: bool)
      requires Valid()
      modifies this
      ensures Valid()
      ensures found == (resourceId in old(Recency()))
      ensures Recency() == Without(old(Recency()), resourceId)
    {
      LinkedCount(items, order);
      found := resourceId in items;
      if found {
        var elem := items[resourceId];
        LinkedUnlink(items, order, elem);
        order := Unlink(order, elem);
        items := items - {resourceId};
      }
    }

    method Remove(resourceId: Id)
      requires Valid()
      modifies this
      ensures Valid()
      ensures Recency() == Without(old(Recency()), resourceId)
    {
      var _ := Consume(resourceId);
    }

    method Len() returns (n: nat)
      requires Valid()
      ensures n == |Recency()| <= maxSize
    {
      LinkedCount(items, order);
      n := |items|;
    }
  }
}
