/** The bounded retry loop around a provider call and the classification of its errors. */
module Forwarding {
  import opened Base

  /** An error value as `errors.As` sees it: a tree of wrapped and joined errors whose
      leaves may carry a status. */
  datatype Error =
    | SPResponse(status: int)
    | ForwarderError(status: int)
    | Plain
    | Wrapped(inner: Error)
    | Joined(left: Error, right: Error)

  const TOO_MANY_REQUESTS := 429

  /** The first provider response in the tree, in `errors.As` order. */
  function FindResponse(e: Error): Option<int> {
    match e
    case SPResponse(status) => Some(status)
    case ForwarderError(_) => None
    case Plain => None
    case Wrapped(inner) => FindResponse(inner)
    case Joined(left, right) => if FindResponse(left).Some? then FindResponse(left) else FindResponse(right)
  }

  function FindForwarder(e: Error): Option<int> {
    match e
    case SPResponse(_) => None
    case ForwarderError(status) => Some(status)
    case Plain => None
    case Wrapped(inner) => FindForwarder(inner)
    case Joined(left, right) => if FindForwarder(left).Some? then FindForwarder(left) else FindForwarder(right)
  }

  function ErrorStatusCode(e: Error): Option<int> {
    if FindResponse(e).Some? then FindResponse(e) else FindForwarder(e)
  }

  predicate IsRetryable(e: Error) {
    var status := ErrorStatusCode(e);
    status.None? || status.value >= 500 || status.value == TOO_MANY_REQUESTS
  }

  /** The leaves in the order `errors.As` visits them. */
  function Leaves(e: Error): seq<Error> {
    match e
    case Wrapped(inner) => Leaves(inner)
    case Joined(left, right) => Leaves(left) + Leaves(right)
    case _ => [e]
  }

  /** Leaf `k` decides: it is the first provider response or, if there is none at all, the
      first status the agent itself made up. */
  ghost predicate Deciding(leaves: seq<Error>, k: nat) {
    && k < |leaves|
    && (|| (leaves[k].SPResponse? && forall j :: 0 <= j < k ==> !leaves[j].SPResponse?)
        || (&& leaves[k].ForwarderError? && (forall j :: 0 <= j < |leaves| ==> !leaves[j].SPResponse?)
            && (forall j :: 0 <= j < k ==> !leaves[j].ForwarderError?)))
  }

  predicate AnyResponse(leaves: seq<Error>) { exists j :: 0 <= j < |leaves| && leaves[j].SPResponse? }

  predicate AllPlain(leaves: seq<Error>) { forall j :: 0 <= j < |leaves| ==> leaves[j].Plain? }

  predicate OnlyLeaves(leaves: seq<Error>) {
    forall j :: 0 <= j < |leaves| ==> leaves[j].SPResponse? || leaves[j].ForwarderError? || leaves[j].Plain?
  }

  ghost predicate FirstResponse(leaves: seq<Error>, status: Option<int>) {
    if status.None? then forall j :: 0 <= j < |leaves| ==> !leaves[j].SPResponse?
    else exists k :: 0 <= k < |leaves| && leaves[k] == SPResponse(status.value)
                  && forall j :: 0 <= j < k ==> !leaves[j].SPResponse?
  }

  ghost predicate FirstForwarder(leaves: seq<Error>, status: Option<int>) {
    if status.None? then forall j :: 0 <= j < |leaves| ==> !leaves[j].ForwarderError?
    else exists k :: 0 <= k < |leaves| && leaves[k] == ForwarderError(status.value)
                  && forall j :: 0 <= j < k ==> !leaves[j].ForwarderError?
  }

  lemma {:induction false} ResponseIsFirst(e: Error)
    ensures FirstResponse(Leaves(e), FindResponse(e))
  {
    match e
    case Wrapped(inner) => ResponseIsFirst(inner);
    case Joined(left, right) =>
      ResponseIsFirst(left);
      ResponseIsFirst(right);
      var (a, b) := (Leaves(left), Leaves(right));
      if FindResponse(left).Some? {
        var k :| 0 <= k < |a| && a[k] == SPResponse(FindResponse(left).value) && forall j :: 0 <= j < k ==> !a[j].SPResponse?;
        assert (a + b)[k] == a[k];
      } else if FindResponse(right).Some? {
        var k :| 0 <= k < |b| && b[k] == SPResponse(FindResponse(right).value) && forall j :: 0 <= j < k ==> !b[j].SPResponse?;
        assert (a + b)[|a| + k] == b[k];
      }
    case SPResponse(_) => assert Leaves(e)[0] == e;
    case _ =>
  }

  lemma {:induction false} ForwarderIsFirst(e: Error)
    ensures FirstForwarder(Leaves(e), FindForwarder(e))
  {
    match e
    case Wrapped(inner) => ForwarderIsFirst(inner);
    case Joined(left, right) =>
      ForwarderIsFirst(left);
      ForwarderIsFirst(right);
      var (a, b) := (Leaves(left), Leaves(right));
      if FindForwarder(left).Some? {
        var k :| 0 <= k < |a| && a[k] == ForwarderError(FindForwarder(left).value) && forall j :: 0 <= j < k ==> !a[j].ForwarderError?;
        assert (a + b)[k] == a[k];
      } else if FindForwarder(right).Some? {
        var k :| 0 <= k < |b| && b[k] == ForwarderError(FindForwarder(right).value) && forall j :: 0 <= j < k ==> !b[j].ForwarderError?;
        assert (a + b)[|a| + k] == b[k];
      }
    case ForwarderError(_) => assert Leaves(e)[0] == e;
    case _ =>
  }

  /** Over every tree of wrapped and joined errors, the status is that of the deciding leaf. */
  lemma StatusOfDecidingLeaf(e: Error, k: nat)
    requires Deciding(Leaves(e), k)
    ensures ErrorStatusCode(e) == Some(Leaves(e)[k].status)
  {
    ResponseIsFirst(e);
    ForwarderIsFirst(e);
  }

  lemma DecidingLeaf(e: Error) returns (k: nat)
    requires ErrorStatusCode(e).Some?
    ensures Deciding(Leaves(e), k)
  {
    ResponseIsFirst(e);
    ForwarderIsFirst(e);
    var leaves := Leaves(e);
    if FindResponse(e).Some? {
      k :| 0 <= k < |leaves| && leaves[k] == SPResponse(FindResponse(e).value)
        && forall j :: 0 <= j < k ==> !leaves[j].SPResponse?;
    } else {
      k :| 0 <= k < |leaves| && leaves[k] == ForwarderError(FindForwarder(e).value)
        && forall j :: 0 <= j < k ==> !leaves[j].ForwarderError?;
    }
  }

  /** Without a status there is nothing but plain errors in the tree. */
  lemma NoStatusMeansPlain(e: Error)
    ensures ErrorStatusCode(e).None? <==> AllPlain(Leaves(e))
  {
    ResponseIsFirst(e);
    ForwarderIsFirst(e);
    LeavesAreLeaves(e);
  }

  lemma ResponseExists(e: Error)
    ensures FindResponse(e).Some? <==> AnyResponse(Leaves(e))
  {
    ResponseIsFirst(e);
  }

  lemma {:induction false} LeavesAreLeaves(e: Error)
    ensures OnlyLeaves(Leaves(e))
  {
    match e
    case Wrapped(inner) => LeavesAreLeaves(inner);
    case Joined(left, right) =>
      LeavesAreLeaves(left);
      LeavesAreLeaves(right);
    case _ =>
  }

  /** A failed call is final if and only if the deciding leaf's status is below 500 and not
      429; in particular an error without any status is retried. */
  lemma RefusedByDecidingLeaf(e: Error)
    ensures !IsRetryable(e) <==>
            exists k: nat :: Deciding(Leaves(e), k) && Leaves(e)[k].status < 500 && Leaves(e)[k].status != 429
  {
    if ErrorStatusCode(e).Some? {
      var k := DecidingLeaf(e);
    }
    forall k: nat | Deciding(Leaves(e), k) ensures ErrorStatusCode(e) == Some(Leaves(e)[k].status) {
      StatusOfDecidingLeaf(e, k);
    }
  }

  datatype Code = RetryExhausted | NonRetryable

  datatype ErrorData = ErrorData(code: Code, providerError: Option<int>)

  function TerminalProviderErrorData(e: Error): ErrorData {
    ErrorData(if IsRetryable(e) then RetryExhausted else NonRetryable, FindResponse(e))
  }

  // -------------------------------------------------------------------- the loop

  /** What the k-th call returns, and whether the context is found cancelled right after it
      or during the wait that follows. */
  datatype World = World(reply: nat -> Option<Error>, cancelledAfter: nat -> bool, cancelledWaiting: nat -> bool)

  datatype Outcome = Success | ContextError | Failed(error: Error)

  function Allowed(maxAttempts: int): nat
    ensures Allowed(maxAttempts) >= 1
  {
    if maxAttempts < 1 then 1 else maxAttempts
  }

  /** Call `k` failed in a way that leads to another call. */
  ghost predicate Retries(w: World, k: nat) {
    && w.reply(k).Some? && IsRetryable(w.reply(k).value)
    && !w.cancelledAfter(k) && !w.cancelledWaiting(k)
  }

  /** The loop stopped after `calls` calls with `r`, said without the loop. */
  ghost predicate Stops(w: World, allowed: nat, calls: nat, r: Outcome) {
    && 1 <= calls <= allowed
    && (forall k :: 0 <= k < calls - 1 ==> Retries(w, k))
    && var last := calls - 1;
       match r
       case Success => w.reply(last).None?
       case ContextError =>
         w.reply(last).Some? && (w.cancelledAfter(last) ||
           (IsRetryable(w.reply(last).value) && calls < allowed && w.cancelledWaiting(last)))
       case Failed(error) =>
         w.reply(last) == Some(error) && !w.cancelledAfter(last) && (!IsRetryable(error) || calls == allowed)
  }

  /** At most `max(1, MaxAttempts)` calls, and the outcome they lead to. */
  method ForwardWithRetry(w: World, maxAttempts: int) returns (r: Outcome, calls: nat)
    ensures Stops(w, Allowed(maxAttempts), calls, r)
    ensures if maxAttempts < 1 then calls == 1 else 1 <= calls <= maxAttempts
    ensures r.Failed? ==> !IsRetryable(r.error) || calls == maxAttempts || (maxAttempts < 1 && calls == 1)
  {
    var allowed := if maxAttempts < 1 then 1 else maxAttempts;
    calls := 0;
    var forwardErr := Plain;
    for attempt := 0 to allowed
      invariant calls == attempt
      invariant forall k :: 0 <= k < attempt && k < allowed - 1 ==> Retries(w, k)
      invariant attempt == allowed ==> w.reply(allowed - 1) == Some(forwardErr) && !w.cancelledAfter(allowed - 1)
    {
      var reply := w.reply(attempt);
      calls := calls + 1;
      if reply.None? {
        return Success, calls;
      }
      forwardErr := reply.value;
      if w.cancelledAfter(attempt) {
        return ContextError, calls;
      }
      if !IsRetryable(forwardErr) {
        return Failed(forwardErr), calls;
      }
      if attempt < allowed - 1 {
        if w.cancelledWaiting(attempt) {
          return ContextError, calls;
        }
      }
    }
    return Failed(forwardErr), calls;
  }

  /** The description leaves the loop no choice. */
  lemma StopsUniquely(w: World, allowed: nat, calls: nat, r: Outcome, calls': nat, r': Outcome)
    requires Stops(w, allowed, calls, r) && Stops(w, allowed, calls', r')
    ensures calls == calls' && r == r'
  {
    LastCallIsFinal(w, allowed, calls, r);
    LastCallIsFinal(w, allowed, calls', r');
  }

  lemma LastCallIsFinal(w: World, allowed: nat, calls: nat, r: Outcome)
    requires Stops(w, allowed, calls, r)
    ensures calls == allowed || !Retries(w, calls - 1)
  {
  }

  /** The reported code says what happened: exhausted exactly when every allowed call was
      made and failed retryably, non-retryable exactly when the last call was the first to
      fail for good. */
  lemma ReportedCode(w: World, allowed: nat, calls: nat, error: Error)
    requires Stops(w, allowed, calls, Failed(error))
    ensures TerminalProviderErrorData(error).code == RetryExhausted <==>
            calls == allowed && forall k :: 0 <= k < allowed ==> w.reply(k).Some? && IsRetryable(w.reply(k).value)
    ensures TerminalProviderErrorData(error).code == NonRetryable <==>
            && !IsRetryable(w.reply(calls - 1).value)
            && forall k :: 0 <= k < calls - 1 ==> w.reply(k).Some? && IsRetryable(w.reply(k).value)
  {
    forall k | 0 <= k < calls - 1 ensures w.reply(k).Some? && IsRetryable(w.reply(k).value) {
      assert Retries(w, k);
    }
    if IsRetryable(error) {
      assert w.reply(calls - 1) == Some(error);
    } else {
      assert calls - 1 < allowed;
    }
  }

  /** The reported provider error is the first provider response in the tree, if there is one. */
  lemma ReportedResponse(error: Error)
    ensures TerminalProviderErrorData(error).providerError.Some? <==> AnyResponse(Leaves(error))
    ensures FirstResponse(Leaves(error), TerminalProviderErrorData(error).providerError)
  {
    ResponseExists(error);
    ResponseIsFirst(error);
  }
}
