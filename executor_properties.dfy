/**
 * What the engine promises: the invariant every operation keeps, the life
 * cycle of a call (registered once, settled once, always settled on
 * teardown), the order in which calls and responses meet, and the id reuse
 * defect of `respondOnce` as written.
 */
module ExecutorProperties {
  import opened Wrappers
  import opened Types
  import opened ExecutorSpec

  // ---------------------------------------------------------------------
  // Each operation keeps the invariant
  // ---------------------------------------------------------------------

  lemma InitSatisfiesInv(resultType: DataType, defaultResponse: Response)
    ensures Inv(Init(resultType, defaultResponse))
  {
  }

  /**
   * A new call keeps every pending future registered, whether or not its id
   * collides with a registered one.
   */
  lemma AsyncCallKeepsSettleable(s: ExecState, check: Outcome<Exception>)
    requires Settleable(s)
    ensures Settleable(AsyncCall(s, check).0)
  {
    if s.resultType != DataType.None {
      var id := LeastFree(s.ids);
      var s' := AsyncCall(s, check).0;
      forall i | 0 <= i < |s'.slots| && s'.slots[i] == Pending
        ensures i in s'.promises.Values
      {
        if i < |s.slots| {
          assert s.slots[i] == Pending;
          var owner := Owner(s.promises, i);
          assert s'.promises[owner] == i;
        } else {
          assert check.Pass? && id !in s.promises;
          assert s'.promises[id] == i;
        }
      }
    }
  }

  /** A freshly assigned id is never one of a registered call. */
  lemma AsyncCallPreservesInv(s: ExecState, check: Outcome<Exception>)
    requires Inv(s)
    ensures Inv(AsyncCall(s, check).0)
  {
    if s.resultType != DataType.None {
      assert LeastFree(s.ids) !in s.promises;
    }
    AsyncCallKeepsSettleable(s, check);
  }

  lemma SettleOneKeepsSettleable(s: ExecState, id: CallId, slot: Slot)
    requires Settleable(s) && id in s.promises && slot != Pending
    ensures var s' := s.(slots := s.slots[s.promises[id] := slot], promises := s.promises - {id});
            Settleable(s')
  {
    var s' := s.(slots := s.slots[s.promises[id] := slot], promises := s.promises - {id});
    forall i | 0 <= i < |s'.slots| && s'.slots[i] == Pending
      ensures i in s'.promises.Values
    {
      var owner := Owner(s.promises, i);
      assert owner != id;
      assert s'.promises[owner] == i;
    }
  }

  lemma SettleOnePreservesInv(s: ExecState, id: CallId, slot: Slot)
    requires Inv(s) && id in s.promises && slot != Pending
    ensures var s' := s.(slots := s.slots[s.promises[id] := slot], promises := s.promises - {id});
            Inv(s')
  {
    SettleOneKeepsSettleable(s, id, slot);
  }

  lemma RespondPreservesInv(s: ExecState, id: CallId, r: Response)
    requires Inv(s)
    ensures Inv(Respond(s, id, r).0)
  {
    if id in s.promises {
      SettleOnePreservesInv(s, id, Settled(r));
    }
  }

  lemma CancelPreservesInv(s: ExecState, id: CallId)
    requires Inv(s)
    ensures Inv(Cancel(s, id))
  {
    if id in s.promises {
      SettleOnePreservesInv(s, id, Failed(CallCanceled(id, MockCallableTag)));
    }
  }

  /**
   * After `cancelAll` no future is pending: every registered call holds
   * CallCanceled for its own id, and a settled future keeps its result.
   */
  lemma CancelAllSettlesEveryCall(s: ExecState)
    requires Settleable(s)
    ensures var s' := CancelAll(s);
            s'.promises == map[] && |s'.slots| == |s.slots|
            && (forall i :: 0 <= i < |s'.slots| ==> s'.slots[i] != Pending)
            && (forall id :: id in s.promises ==> s'.slots[s.promises[id]] == Failed(CallCanceled(id, MockCallableTag)))
            && (forall i :: 0 <= i < |s.slots| && s.slots[i] != Pending ==> s'.slots[i] == s.slots[i])
  {
    var s' := CancelAll(s);
    forall id | id in s.promises
      ensures s'.slots[s.promises[id]] == Failed(CallCanceled(id, MockCallableTag))
    {
      var i := s.promises[id];
      assert i in s.promises.Values;
      assert Owner(s.promises, i) == id;
    }
    forall i | 0 <= i < |s'.slots|
      ensures s'.slots[i] != Pending
    {
      if i !in s.promises.Values {
        assert s.slots[i] != Pending;
      }
    }
  }

  /** `cancelAll` keeps the invariant and cancels every registered call. */
  lemma CancelAllCancelsEveryCall(s: ExecState)
    requires Inv(s)
    ensures var s' := CancelAll(s);
            s'.promises == map[] && |s'.slots| == |s.slots| && Inv(s')
            && (forall id :: id in s.promises ==> s'.slots[s.promises[id]] == Failed(CallCanceled(id, MockCallableTag)))
            && (forall i :: 0 <= i < |s.slots| && s.slots[i] != Pending ==> s'.slots[i] == s.slots[i])
  {
    CancelAllSettlesEveryCall(s);
  }

  lemma QueueResponsePreservesInv(s: ExecState, r: Response)
    requires Inv(s)
    ensures Inv(QueueResponse(s, r).0)
  {
  }

  lemma QueueResponseForPreservesInv(s: ExecState, id: CallId, r: Response)
    requires Inv(s)
    ensures Inv(QueueResponseFor(s, id, r).0)
  {
  }

  /** Dispatching drops the head of the queue, which is no longer registered afterwards. */
  lemma DispatchPreservesInv(s: ExecState)
    requires Inv(s)
    ensures Inv(Dispatch(s).0)
    ensures Dispatch(s).0.ids == s.ids
  {
    if s.queue != [] {
      var id := s.queue[0];
      var (r, rs) := GetResponse(s.responses, id);
      var s1 := s.(queue := s.queue[1..], responses := rs);
      forall other | other in s1.promises && other != id
        ensures other in s1.queue
      {
        assert other in s.queue;
        var k :| 0 <= k < |s.queue| && s.queue[k] == other;
        assert k != 0;
        assert s1.queue[k - 1] == other;
      }
      if id in s.promises {
        assert Inv(s.(responses := rs));
        SettleOnePreservesInv(s.(responses := rs), id, Settled(r));
      }
    }
  }

  lemma RespondOncePreservesInv(s: ExecState, expired: set<CallId>)
    requires Inv(s)
    ensures Inv(RespondOnce(s, expired).0)
  {
    DispatchPreservesInv(s);
  }

  lemma {:induction false} ApplyPreservesInv(s: ExecState, op: Op)
    requires Inv(s)
    ensures Inv(Apply(s, op))
  {
    match op
    case AsyncCallOp(check) => AsyncCallPreservesInv(s, check);
    case RespondOp(id, r) => RespondPreservesInv(s, id, r);
    case CancelOp(id) => CancelPreservesInv(s, id);
    case CancelAllOp => CancelAllCancelsEveryCall(s);
    case QueueResponseOp(r) => QueueResponsePreservesInv(s, r);
    case QueueResponseForOp(id, r) => QueueResponseForPreservesInv(s, id, r);
    case RespondOnceOp(expired) => RespondOncePreservesInv(s, expired);
  }

  /** The state reached by a sequence of operations. */
  ghost function Run(s: ExecState, ops: seq<Op>): (s': ExecState)
    requires Inv(s)
    ensures Inv(s')
    decreases |ops|
  {
    if ops == [] then s
    else
      ApplyPreservesInv(s, ops[0]);
      Run(Apply(s, ops[0]), ops[1..])
  }

  /** No operation changes the declared result type. */
  lemma {:induction false} ResultTypeNeverChanges(s: ExecState, ops: seq<Op>)
    requires Inv(s)
    ensures Run(s, ops).resultType == s.resultType
    decreases |ops|
  {
    if ops != [] {
      ApplyPreservesInv(s, ops[0]);
      ResultTypeNeverChanges(Apply(s, ops[0]), ops[1..]);
    }
  }

  /**
   * Whatever a test did before, tearing the executor down (its destructor
   * runs `cancelAll`) leaves no future pending: every call still registered
   * fails with CallCanceled for its own id.
   */
  lemma {:induction false} TeardownSettlesEveryCall(resultType: DataType, defaultResponse: Response, ops: seq<Op>)
    ensures var s := Run(Init(resultType, defaultResponse), ops);
            var s' := CancelAll(s);
            (forall i :: 0 <= i < |s'.slots| ==> s'.slots[i] != Pending)
            && (forall id :: id in s.promises ==> s'.slots[s.promises[id]] == Failed(CallCanceled(id, MockCallableTag)))
  {
    InitSatisfiesInv(resultType, defaultResponse);
    var s := Run(Init(resultType, defaultResponse), ops);
    CancelAllCancelsEveryCall(s);
  }

  // ---------------------------------------------------------------------
  // The engine as written keeps the weaker invariant
  // ---------------------------------------------------------------------

  /** Dispatching settles at most the head call, so no pending future loses its promise. */
  lemma DispatchKeepsSettleable(s: ExecState)
    requires Settleable(s)
    ensures Settleable(Dispatch(s).0)
  {
    if s.queue != [] {
      var id := s.queue[0];
      var (r, rs) := GetResponse(s.responses, id);
      var s1 := s.(queue := s.queue[1..], responses := rs);
      if id in s.promises {
        SettleOneKeepsSettleable(s1, id, Settled(r));
      }
    }
  }

  /**
   * Every operation of the engine as written, `respondOnce` freeing ids of
   * registered calls included, keeps every pending future registered.
   */
  lemma {:induction false} ApplyAsWrittenKeepsSettleable(s: ExecState, op: Op)
    requires Settleable(s)
    ensures Settleable(ApplyAsWritten(s, op))
  {
    match op
    case AsyncCallOp(check) => AsyncCallKeepsSettleable(s, check);
    case RespondOp(id, r) =>
      if id in s.promises {
        SettleOneKeepsSettleable(s, id, Settled(r));
      }
    case CancelOp(id) =>
      if id in s.promises {
        SettleOneKeepsSettleable(s, id, Failed(CallCanceled(id, MockCallableTag)));
      }
    case CancelAllOp => CancelAllSettlesEveryCall(s);
    case QueueResponseOp(r) =>
    case QueueResponseForOp(id, r) =>
    case RespondOnceOp(expired) => DispatchKeepsSettleable(s);
  }

  /** The state the engine as written reaches by a sequence of operations. */
  ghost function RunAsWritten(s: ExecState, ops: seq<Op>): (s': ExecState)
    requires Settleable(s)
    ensures Settleable(s')
    decreases |ops|
  {
    if ops == [] then s
    else
      ApplyAsWrittenKeepsSettleable(s, ops[0]);
      RunAsWritten(ApplyAsWritten(s, ops[0]), ops[1..])
  }

  /** The destructor's `cancelAll` leaves no future pending on the engine as written either. */
  lemma {:induction false} TeardownSettlesEveryCallAsWritten(resultType: DataType, defaultResponse: Response, ops: seq<Op>)
    ensures var s := RunAsWritten(Init(resultType, defaultResponse), ops);
            var s' := CancelAll(s);
            (forall i :: 0 <= i < |s'.slots| ==> s'.slots[i] != Pending)
            && (forall id :: id in s.promises ==> s'.slots[s.promises[id]] == Failed(CallCanceled(id, MockCallableTag)))
  {
    InitSatisfiesInv(resultType, defaultResponse);
    var s := RunAsWritten(Init(resultType, defaultResponse), ops);
    CancelAllSettlesEveryCall(s);
  }

  // ---------------------------------------------------------------------
  // The life cycle of one call
  // ---------------------------------------------------------------------

  /**
   * An executor that returns values hands out a fresh id, registers the call
   * with a new pending future and queues it for dispatch, provided the
   * parameter check passes.
   */
  lemma AsyncCallRegistersFreshCall(s: ExecState)
    requires Inv(s) && s.resultType != DataType.None
    ensures var (s', r) := AsyncCall(s, Pass);
            r.Success? && r.value.id !in s.ids && r.value.id !in s.promises
            && r.value.slot == |s.slots| && s'.slots == s.slots + [Pending]
            && s'.promises == s.promises[r.value.id := r.value.slot]
            && s'.queue == s.queue + [r.value.id]
  {
  }

  /** An executor without result type refuses asynchronous calls and changes nothing. */
  lemma AsyncCallNeedsResultType(s: ExecState, check: Outcome<Exception>)
    requires s.resultType == DataType.None
    ensures AsyncCall(s, check) == (s, Failure(ResultReturningNotSupported))
  {
  }

  /**
   * A failing parameter check fails the returned future at once; the call is
   * never registered nor queued, but its id stays reserved.
   */
  lemma RejectedParametersFailTheFuture(s: ExecState, e: Exception)
    requires s.resultType != DataType.None
    ensures var (s', r) := AsyncCall(s, Fail(e));
            r.Success? && s'.slots[r.value.slot] == Failed(e)
            && s'.promises == s.promises && s'.queue == s.queue && r.value.id in s'.ids
  {
  }

  /** A call is settled at most once: answering it again throws CallerNotFound and changes nothing. */
  lemma RespondTwiceFails(s: ExecState, id: CallId, r1: Response, r2: Response)
    requires Inv(s) && id in s.promises
    ensures var (s1, o1) := Respond(s, id, r1);
            o1 == Pass && s1.slots[s.promises[id]] == Settled(r1)
            && Respond(s1, id, r2) == (s1, Fail(CallerNotFound(id, ExternalExecutorTag)))
  {
  }

  /** A cancelled call can no longer be answered. */
  lemma CancelThenRespondFails(s: ExecState, id: CallId, r: Response)
    requires Inv(s) && id in s.promises
    ensures var s1 := Cancel(s, id);
            s1.slots[s.promises[id]] == Failed(CallCanceled(id, MockCallableTag))
            && Respond(s1, id, r) == (s1, Fail(CallerNotFound(id, ExternalExecutorTag)))
  {
  }

  /** Cancelling an id that has no registered call does nothing. */
  lemma CancelUnknownIsNoop(s: ExecState, id: CallId)
    requires id !in s.promises
    ensures Cancel(s, id) == s
  {
  }

  // ---------------------------------------------------------------------
  // Responses
  // ---------------------------------------------------------------------

  /** A response of the wrong type is refused and nothing is queued. */
  lemma QueueResponseChecksType(s: ExecState, r: Response)
    ensures QueueResponse(s, r).1.Pass? <==> CheckType(s.resultType, r).Pass?
    ensures QueueResponse(s, r).1.Fail? ==> QueueResponse(s, r).0 == s
    ensures QueueResponse(s, r).1.Pass? ==>
      QueueResponse(s, r).0.responses.queued == s.responses.queued + [r]
  {
  }

  /** The first response pinned to an id wins over later ones. */
  lemma PinnedResponseFirstWins(s: ExecState, id: CallId, r1: Response, r2: Response)
    requires id !in s.responses.pinned
    requires CheckType(s.resultType, r1).Pass? && CheckType(s.resultType, r2).Pass?
    ensures var s1 := QueueResponseFor(QueueResponseFor(s, id, r1).0, id, r2).0;
            GetResponse(s1.responses, id).0 == r1
  {
  }

  /**
   * `respondOnce` settles the oldest queued call with the response chosen for
   * it, consumes that response, and leaves every other call untouched.
   */
  lemma RespondOnceResolvesOldest(s: ExecState, expired: set<CallId>)
    requires Inv(s) && s.queue != [] && s.queue[0] in s.promises
    ensures var id := s.queue[0];
            var (r, rs) := GetResponse(s.responses, id);
            var (s', o) := RespondOnce(s, expired);
            o == Pass && s'.queue == s.queue[1..] && s'.responses == rs
            && s'.promises == s.promises - {id}
            && s'.slots == s.slots[s.promises[id] := Settled(r)]
  {
  }

  /**
   * When the head of the dispatch queue has no registered call any more (it
   * was answered or cancelled meanwhile), `respondOnce` still consumes a
   * response, throws CallerNotFound and does not free any id.
   */
  lemma RespondOnceForGoneCall(s: ExecState, expired: set<CallId>)
    requires Inv(s) && s.queue != [] && s.queue[0] !in s.promises
    ensures var id := s.queue[0];
            var (s', o) := RespondOnce(s, expired);
            o == Fail(CallerNotFound(id, ExternalExecutorTag))
            && s'.responses == GetResponse(s.responses, id).1
            && s'.ids == s.ids && s'.slots == s.slots && s'.queue == s.queue[1..]
  {
  }

  /**
   * If the default response has the declared type, every value that
   * `respondOnce` delivers has the declared type: queued responses were
   * checked when they were queued.
   */
  lemma RespondOnceDeliversDeclaredType(s: ExecState, expired: set<CallId>, i: nat)
    requires Inv(s) && CheckType(s.resultType, s.responses.defaultResponse).Pass?
    requires i < |s.slots| && s.slots[i] == Pending
    ensures var s' := RespondOnce(s, expired).0;
            s'.slots[i].Fulfilled? ==> ToDataType(s'.slots[i].value) == s.resultType
  {
    var s' := RespondOnce(s, expired).0;
    if s.queue != [] && s.queue[0] in s.promises {
      var id := s.queue[0];
      var (r, rs) := GetResponse(s.responses, id);
      if id in s.responses.pinned {
        assert CheckType(s.resultType, r).Pass?;
      } else if s.responses.queued != [] {
        assert r in s.responses.queued;
      }
    }
  }

  // ---------------------------------------------------------------------
  // Worked scenarios
  // ---------------------------------------------------------------------

  /**
   * Two calls on an Integer executor with default -11: the first takes the
   * queued response, the second the default; ids are handed out from 0.
   */
  lemma {:induction false} CallsMeetResponsesInOrder()
    ensures var s0 := Init(DataType.Integer, Value(IntValue(-11)));
            var (s1, a) := AsyncCall(s0, Pass);
            var (s2, b) := AsyncCall(s1, Pass);
            var (s3, _) := QueueResponse(s2, Value(IntValue(1)));
            var (s4, o4) := RespondOnce(s3, {});
            var (s5, o5) := RespondOnce(s4, {});
            a == Success(ResultFuture(0, 0)) && b == Success(ResultFuture(1, 1))
            && o4 == Pass && s4.slots == [Fulfilled(IntValue(1)), Pending]
            && o5 == Pass && s5.slots == [Fulfilled(IntValue(1)), Fulfilled(IntValue(-11))]
  {
    var s0 := Init(DataType.Integer, Value(IntValue(-11)));
    assert LeastFree({}) == 0 by { LeastFreeUnique({}, LeastFree({}), 0); }
    var (s1, a) := AsyncCall(s0, Pass);
    assert s1.ids == {0};
    assert LeastFree({0}) == 1 by { LeastFreeUnique({0}, LeastFree({0}), 1); }
    var (s2, b) := AsyncCall(s1, Pass);
    assert s2.queue == [0, 1];
    var (s3, _) := QueueResponse(s2, Value(IntValue(1)));
    var (s4, o4) := RespondOnce(s3, {});
    assert s4.queue == [1];
  }

  /**
   * `respond` does not check the response type: an Integer executor accepts
   * a string result for a pending call.
   */
  lemma RespondSkipsTypeCheck()
    ensures var s0 := Init(DataType.Integer, Value(IntValue(0)));
            var (s1, a) := AsyncCall(s0, Pass);
            a.Success?
            && Respond(s1, a.value.id, Value(StringValue("text"))).1 == Pass
            && Respond(s1, a.value.id, Value(StringValue("text"))).0.slots[a.value.slot] == Fulfilled(StringValue("text"))
  {
    assert LeastFree({}) == 0 by { LeastFreeUnique({}, LeastFree({}), 0); }
  }

  // ---------------------------------------------------------------------
  // Id reuse while a call is still registered
  // ---------------------------------------------------------------------

  /**
   * As written: calls A (id 0) and B (id 1) are pending and the caller drops
   * B's future. `respondOnce` answers A and then forgets id 1, although B is
   * still registered. The next call C is handed id 1 again; its promise is
   * not registered and its future breaks, and id 1 is twice in the queue.
   */
  lemma {:induction false} StaleIdCollision()
    ensures var s0 := Init(DataType.Integer, Value(IntValue(-11)));
            var (s1, a) := AsyncCall(s0, Pass);
            var (s2, b) := AsyncCall(s1, Pass);
            var (s3, o3) := RespondOnceAsWritten(s2, {1});
            var (s4, c) := AsyncCall(s3, Pass);
            b == Success(ResultFuture(1, 1)) && o3 == Pass && 1 in s3.promises && 1 !in s3.ids
            && c == Success(ResultFuture(1, 2))
            && s4.slots[2] == Failed(BrokenPromise)
            && s4.queue == [1, 1]
            && !Inv(s3)
  {
    var s0 := Init(DataType.Integer, Value(IntValue(-11)));
    assert LeastFree({}) == 0 by { LeastFreeUnique({}, LeastFree({}), 0); }
    var (s1, a) := AsyncCall(s0, Pass);
    assert LeastFree({0}) == 1 by { LeastFreeUnique({0}, LeastFree({0}), 1); }
    var (s2, b) := AsyncCall(s1, Pass);
    assert s2.queue == [0, 1];
    var (s3, o3) := RespondOnceAsWritten(s2, {1});
    assert s3.ids == {0};
    assert s3.queue == [1];
  }

  /**
   * Corrected: on the same run the still registered id 1 stays reserved, so
   * C is handed id 2 and its call is registered and pending.
   */
  lemma {:induction false} StaleIdAvoided()
    ensures var s0 := Init(DataType.Integer, Value(IntValue(-11)));
            var (s1, a) := AsyncCall(s0, Pass);
            var (s2, b) := AsyncCall(s1, Pass);
            var (s3, o3) := RespondOnce(s2, {1});
            var (s4, c) := AsyncCall(s3, Pass);
            o3 == Pass && c == Success(ResultFuture(2, 2))
            && s4.slots[2] == Pending && s4.promises[2] == 2
            && s4.queue == [1, 2]
  {
    var s0 := Init(DataType.Integer, Value(IntValue(-11)));
    assert LeastFree({}) == 0 by { LeastFreeUnique({}, LeastFree({}), 0); }
    var (s1, a) := AsyncCall(s0, Pass);
    assert LeastFree({0}) == 1 by { LeastFreeUnique({0}, LeastFree({0}), 1); }
    var (s2, b) := AsyncCall(s1, Pass);
    assert s2.queue == [0, 1];
    var (s3, o3) := RespondOnce(s2, {1});
    assert s3.ids == {0, 1};
    assert LeastFree({0, 1}) == 2 by { LeastFreeUnique({0, 1}, LeastFree({0, 1}), 2); }
  }

  /**
   * With the correction, every call that passes its parameter check is
   * registered, whatever ran before: the defect above cannot happen.
   */
  lemma {:induction false} EveryAcceptedCallIsRegistered(resultType: DataType, defaultResponse: Response, ops: seq<Op>)
    requires resultType != DataType.None
    ensures var s := Run(Init(resultType, defaultResponse), ops);
            var (s', r) := AsyncCall(s, Pass);
            r.Success? && r.value.id in s'.promises && s'.promises[r.value.id] == r.value.slot
            && s'.slots[r.value.slot] == Pending
  {
    InitSatisfiesInv(resultType, defaultResponse);
    var s := Run(Init(resultType, defaultResponse), ops);
    ResultTypeNeverChanges(Init(resultType, defaultResponse), ops);
    AsyncCallRegistersFreshCall(s);
  }
}
