/**
 * The asynchronous call simulation engine of the fake executor, as pure
 * transitions over its whole state: the id repository, the dispatch queue,
 * the response repository, the registered result promises and the shared
 * states of every promise/future pair handed out so far.
 */
module ExecutorSpec {
  import opened Wrappers
  import opened Types

  /** A call id (`uintmax_t`, never exhausted here). */
  type CallId = nat

  /** Tag carried by the exception that `respond` throws for an unknown call id. */
  const ExternalExecutorTag: string := "ExternalExecutor"
  /** Tag carried by the exception that cancellation stores in a result. */
  const MockCallableTag: string := "MockCallable"

  /** The exceptions the engine throws or stores in a result. */
  datatype Exception =
    | CallCanceled(id: CallId, tag: string)
    | CallerNotFound(id: CallId, tag: string)
    | ResultReturningNotSupported
      /** invalid_argument: a value response for an executor whose result type is None */
    | ValuesNotSupported
      /** invalid_argument: a value response of another type than the declared one */
    | ResultTypeMismatch(expected: DataType, given: DataType)
      /** std::future_error(broken_promise): a promise destroyed without a result */
    | BrokenPromise
      /** any exception of user code, for example of the parameter check */
    | Raised(code: nat)

  /** `Executor::Response`: a value or an exception. */
  datatype Response = Value(value: DataVariant) | Error(exception: Exception)

  /** The shared state of a promise/future pair. */
  datatype Slot = Pending | Fulfilled(value: DataVariant) | Failed(exception: Exception)

  /** What `asyncCall` hands out: the call id and the shared state of its future. */
  datatype ResultFuture = ResultFuture(id: CallId, slot: nat)

  /** `ResponseRepository`: a default response, a FIFO of responses and responses pinned to ids. */
  datatype Responses = Responses(defaultResponse: Response, queued: seq<Response>, pinned: map<CallId, Response>)

  /** The whole engine. `slots` holds the shared state of every future handed out, by index. */
  datatype ExecState = ExecState(
    resultType: DataType,
    ids: set<CallId>,
    queue: seq<CallId>,
    responses: Responses,
    promises: map<CallId, nat>,
    slots: seq<Slot>)

  /** A freshly constructed engine. */
  function Init(resultType: DataType, defaultResponse: Response): ExecState
  {
    ExecState(resultType, {}, [], Responses(defaultResponse, [], map[]), map[], [])
  }

  // ---------------------------------------------------------------------
  // IdRepository
  // ---------------------------------------------------------------------

  /** All naturals below k. */
  function Below(k: nat): (r: set<nat>)
    ensures forall j: nat :: j in r <==> j < k
    ensures |r| == k
  {
    if k == 0 then {} else Below(k - 1) + {k - 1}
  }

  /** A set holding every natural below k has at least k elements. */
  lemma PrefixBound(ids: set<nat>, k: nat)
    requires forall j: nat :: j < k ==> j in ids
    ensures k <= |ids|
  {
    var low := Below(k);
    assert low <= ids;
    assert ids == low + (ids - low);
    assert low * (ids - low) == {};
  }

  /** n is the least natural that is not in ids. */
  ghost predicate IsLeastFree(ids: set<nat>, n: nat)
  {
    n !in ids && forall j: nat :: j < n ==> j in ids
  }

  /** The probe of `assignID`, from k upwards: the first id not yet taken. */
  function LeastFreeFrom(ids: set<nat>, k: nat): (n: nat)
    requires forall j: nat :: j < k ==> j in ids
    ensures k <= n && IsLeastFree(ids, n)
    decreases |ids| - k
  {
    PrefixBound(ids, k);
    if k !in ids then k
    else
      PrefixBound(ids, k + 1);
      LeastFreeFrom(ids, k + 1)
  }

  /** The id `assignID` hands out: the least one not in use. */
  function LeastFree(ids: set<nat>): (n: nat)
    ensures IsLeastFree(ids, n)
  {
    LeastFreeFrom(ids, 0)
  }

  lemma LeastFreeUnique(ids: set<nat>, a: nat, b: nat)
    requires IsLeastFree(ids, a) && IsLeastFree(ids, b)
    ensures a == b
  {
  }

  /** `freeIDs`: forget every id whose owning handle has expired. */
  function FreeIds(ids: set<CallId>, expired: set<CallId>): (r: set<CallId>)
    ensures r <= ids
    ensures forall id :: id in ids ==> (id in r <==> id !in expired)
  {
    ids - expired
  }

  // ---------------------------------------------------------------------
  // ResponseRepository
  // ---------------------------------------------------------------------

  /** `ResponseRepository::get`: a pinned response first, then the FIFO, then the default. */
  function GetResponse(rs: Responses, id: CallId): (res: (Response, Responses))
    ensures res.1.defaultResponse == rs.defaultResponse
    ensures id in rs.pinned ==>
      res.0 == rs.pinned[id] && res.1.pinned == rs.pinned - {id} && res.1.queued == rs.queued
    ensures id !in rs.pinned && rs.queued != [] ==>
      res.0 == rs.queued[0] && res.1.queued == rs.queued[1..] && res.1.pinned == rs.pinned
    ensures id !in rs.pinned && rs.queued == [] ==> res == (rs.defaultResponse, rs)
  {
    if id in rs.pinned then (rs.pinned[id], rs.(pinned := rs.pinned - {id}))
    else if rs.queued != [] then (rs.queued[0], rs.(queued := rs.queued[1..]))
    else (rs.defaultResponse, rs)
  }

  /** The responses `get` hands out for the ids in turn, and the repository afterwards. */
  function GetResponses(rs: Responses, ids: seq<CallId>): (res: (seq<Response>, Responses))
    ensures |res.0| == |ids|
    decreases |ids|
  {
    if ids == [] then ([], rs)
    else
      var (r, rs1) := GetResponse(rs, ids[0]);
      var (rest, rs2) := GetResponses(rs1, ids[1..]);
      ([r] + rest, rs2)
  }

  /**
   * Calls without a pinned response take the generic responses in the order
   * they were queued, one each, and the default once the queue runs dry.
   */
  lemma {:induction false} QueuedResponsesInOrder(rs: Responses, ids: seq<CallId>)
    requires forall k :: 0 <= k < |ids| ==> ids[k] !in rs.pinned
    ensures var (out, rs') := GetResponses(rs, ids);
            (forall k :: 0 <= k < |ids| ==> out[k] == if k < |rs.queued| then rs.queued[k] else rs.defaultResponse)
            && rs'.pinned == rs.pinned && rs'.defaultResponse == rs.defaultResponse
            && rs'.queued == if |ids| <= |rs.queued| then rs.queued[|ids|..] else []
    decreases |ids|
  {
    if ids != [] {
      var (r, rs1) := GetResponse(rs, ids[0]);
      assert forall k :: 0 <= k < |ids[1..]| ==> ids[1..][k] !in rs1.pinned by {
        assert rs1.pinned == rs.pinned;
        forall k | 0 <= k < |ids[1..]|
          ensures ids[1..][k] !in rs1.pinned
        {
          assert ids[1..][k] == ids[k + 1];
        }
      }
      QueuedResponsesInOrder(rs1, ids[1..]);
      var (rest, rs2) := GetResponses(rs1, ids[1..]);
      var out := GetResponses(rs, ids).0;
      assert out == [r] + rest;
      if rs.queued != [] {
        assert rs1.queued == rs.queued[1..];
        forall k | 1 <= k < |ids|
          ensures out[k] == if k < |rs.queued| then rs.queued[k] else rs.defaultResponse
        {
          assert out[k] == rest[k - 1];
        }
        if |ids| <= |rs.queued| {
          assert rs.queued[1..][|ids| - 1..] == rs.queued[|ids|..];
        }
      } else {
        assert rs1 == rs;
      }
    }
  }

  // ---------------------------------------------------------------------
  // FakeExecutor
  // ---------------------------------------------------------------------

  /** The shared state a response puts a future in. */
  function Settled(r: Response): (slot: Slot)
    ensures slot != Pending
    ensures r.Value? ==> slot == Fulfilled(r.value)
    ensures r.Error? ==> slot == Failed(r.exception)
  {
    match r
    case Value(v) => Fulfilled(v)
    case Error(e) => Failed(e)
  }

  /** `checkType`: exceptions always pass, values must be of the declared result type. */
  function CheckType(resultType: DataType, r: Response): (o: Outcome<Exception>)
    ensures o.Pass? <==> (r.Error? || ToDataType(r.value) == resultType)
    ensures r.Value? && resultType == DataType.None ==> o == Fail(ValuesNotSupported)
    ensures o.Fail? && resultType != DataType.None ==> o == Fail(ResultTypeMismatch(resultType, ToDataType(r.value)))
  {
    match r
    case Error(_) => Pass
    case Value(v) =>
      if resultType == DataType.None then Fail(ValuesNotSupported)
      else if resultType != ToDataType(v) then Fail(ResultTypeMismatch(resultType, ToDataType(v)))
      else Pass
  }

  /**
   * `asyncCall`, with the outcome of the foreign parameter check given. The
   * id is reserved even when the check fails. A call whose id is still
   * registered is not registered again and its promise is dropped.
   */
  function AsyncCall(s: ExecState, check: Outcome<Exception>): (res: (ExecState, Result<ResultFuture, Exception>))
  {
    if s.resultType == DataType.None then (s, Failure(ResultReturningNotSupported))
    else
      var id := LeastFree(s.ids);
      var future := ResultFuture(id, |s.slots|);
      var s1 := s.(ids := s.ids + {id});
      if check.Fail? then
        (s1.(slots := s.slots + [Failed(check.error)]), Success(future))
      else if id in s.promises then
        (s1.(slots := s.slots + [Failed(BrokenPromise)], queue := s.queue + [id]), Success(future))
      else
        (s1.(slots := s.slots + [Pending], promises := s.promises[id := |s.slots|], queue := s.queue + [id]),
         Success(future))
  }

  /** `respond`: settle the registered call with the response, or throw CallerNotFound. */
  function Respond(s: ExecState, id: CallId, r: Response): (res: (ExecState, Outcome<Exception>))
    requires id in s.promises ==> s.promises[id] < |s.slots|
  {
    if id in s.promises then
      (s.(slots := s.slots[s.promises[id] := Settled(r)], promises := s.promises - {id}), Pass)
    else
      (s, Fail(CallerNotFound(id, ExternalExecutorTag)))
  }

  /** `cancel`: fail the registered call with CallCanceled; an unknown id is ignored. */
  function Cancel(s: ExecState, id: CallId): (s': ExecState)
    requires id in s.promises ==> s.promises[id] < |s.slots|
  {
    if id in s.promises then
      s.(slots := s.slots[s.promises[id] := Failed(CallCanceled(id, MockCallableTag))], promises := s.promises - {id})
    else s
  }

  /** The call whose promise is linked to shared state i. */
  ghost function Owner(promises: map<CallId, nat>, i: nat): (id: CallId)
    requires i in promises.Values
    ensures id in promises && promises[id] == i
  {
    var id :| id in promises && promises[id] == i; id
  }

  /** `cancelAll`: every registered call fails with CallCanceled, then none is registered. */
  ghost function CancelAll(s: ExecState): (s': ExecState)
  {
    s.(slots := seq(|s.slots|, i requires 0 <= i < |s.slots| =>
                      if i in s.promises.Values then Failed(CallCanceled(Owner(s.promises, i), MockCallableTag))
                      else s.slots[i]),
       promises := map[])
  }

  /** `queueResponse(response)`: checked, then appended to the generic FIFO. */
  function QueueResponse(s: ExecState, r: Response): (res: (ExecState, Outcome<Exception>))
  {
    var o := CheckType(s.resultType, r);
    if o.Fail? then (s, o)
    else (s.(responses := s.responses.(queued := s.responses.queued + [r])), Pass)
  }

  /** `queueResponse(id, response)`: checked, then pinned to id unless a response is already pinned there. */
  function QueueResponseFor(s: ExecState, id: CallId, r: Response): (res: (ExecState, Outcome<Exception>))
  {
    var o := CheckType(s.resultType, r);
    if o.Fail? then (s, o)
    else if id in s.responses.pinned then (s, Pass)
    else (s.(responses := s.responses.(pinned := s.responses.pinned[id := r])), Pass)
  }

  /**
   * The first half of `respondOnce`: take the oldest call id from the dispatch
   * queue, pick its response, and respond with it. The response is consumed
   * before `respond` can throw.
   */
  function Dispatch(s: ExecState): (res: (ExecState, Outcome<Exception>))
    requires forall id :: id in s.promises ==> s.promises[id] < |s.slots|
  {
    if s.queue == [] then (s, Pass)
    else
      var id := s.queue[0];
      var (r, rs) := GetResponse(s.responses, id);
      Respond(s.(queue := s.queue[1..], responses := rs), id, r)
  }

  /**
   * `respondOnce` as written: after a successful dispatch every id whose
   * handle expired is forgotten, whether or not its call is still registered.
   */
  function RespondOnceAsWritten(s: ExecState, expired: set<CallId>): (res: (ExecState, Outcome<Exception>))
    requires forall id :: id in s.promises ==> s.promises[id] < |s.slots|
  {
    var (s1, o) := Dispatch(s);
    if o.Fail? then (s1, o) else (s1.(ids := FreeIds(s1.ids, expired)), Pass)
  }

  /**
   * `respondOnce` as intended: an id stays reserved while its call is
   * registered, even when the caller dropped the handle.
   */
  function RespondOnce(s: ExecState, expired: set<CallId>): (res: (ExecState, Outcome<Exception>))
    requires forall id :: id in s.promises ==> s.promises[id] < |s.slots|
  {
    var (s1, o) := Dispatch(s);
    if o.Fail? then (s1, o) else (s1.(ids := FreeIds(s1.ids, expired - s1.promises.Keys)), Pass)
  }

  // ---------------------------------------------------------------------
  // The invariant
  // ---------------------------------------------------------------------

  ghost predicate PromisesInjective(promises: map<CallId, nat>)
  {
    forall a, b :: a in promises && b in promises && a != b ==> promises[a] != promises[b]
  }

  /** Every registered call owns a shared state of its own, and that state is still pending. */
  ghost predicate PromisesPending(s: ExecState)
  {
    (forall id :: id in s.promises ==> s.promises[id] < |s.slots| && s.slots[s.promises[id]] == Pending)
    && PromisesInjective(s.promises)
  }

  /**
   * Every registered call owns a pending shared state of its own, and a
   * pending shared state always has its promise registered: what cancelling
   * everything needs to leave no future pending.
   */
  ghost predicate Settleable(s: ExecState)
  {
    PromisesPending(s)
    && (forall i :: 0 <= i < |s.slots| && s.slots[i] == Pending ==> i in s.promises.Values)
  }

  ghost predicate Inv(s: ExecState)
  {
    Settleable(s)
    // a registered call still waits in the dispatch queue
    && (forall id :: id in s.promises ==> id in s.queue)
    // a registered call keeps its id reserved
    && s.promises.Keys <= s.ids
    // responses waiting to be delivered have the declared type
    && (forall r :: r in s.responses.queued ==> CheckType(s.resultType, r).Pass?)
    && (forall id :: id in s.responses.pinned ==> CheckType(s.resultType, s.responses.pinned[id]).Pass?)
  }

  /** The operations of the engine that a test or a caller can invoke. */
  datatype Op =
    | AsyncCallOp(check: Outcome<Exception>)
    | RespondOp(id: CallId, response: Response)
    | CancelOp(id: CallId)
    | CancelAllOp
    | QueueResponseOp(response: Response)
    | QueueResponseForOp(id: CallId, response: Response)
    | RespondOnceOp(expired: set<CallId>)

  ghost function Apply(s: ExecState, op: Op): ExecState
    requires Inv(s)
  {
    match op
    case AsyncCallOp(check) => AsyncCall(s, check).0
    case RespondOp(id, r) => Respond(s, id, r).0
    case CancelOp(id) => Cancel(s, id)
    case CancelAllOp => CancelAll(s)
    case QueueResponseOp(r) => QueueResponse(s, r).0
    case QueueResponseForOp(id, r) => QueueResponseFor(s, id, r).0
    case RespondOnceOp(expired) => RespondOnce(s, expired).0
  }

  /** The same operations on the engine as written, whose `respondOnce` frees every expired id. */
  ghost function ApplyAsWritten(s: ExecState, op: Op): ExecState
    requires Settleable(s)
  {
    match op
    case AsyncCallOp(check) => AsyncCall(s, check).0
    case RespondOp(id, r) => Respond(s, id, r).0
    case CancelOp(id) => Cancel(s, id)
    case CancelAllOp => CancelAll(s)
    case QueueResponseOp(r) => QueueResponse(s, r).0
    case QueueResponseForOp(id, r) => QueueResponseFor(s, id, r).0
    case RespondOnceOp(expired) => RespondOnceAsWritten(s, expired).0
  }
}
