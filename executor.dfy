/**
 * The fake executor as the objects the source builds: an id repository, a
 * dispatch queue, a response repository and the executor that owns them and
 * the registered result promises. Every method is proved to perform the
 * transition of the same name in ExecutorSpec.
 */
module Executor {
  import opened Wrappers
  import opened Types
  import opened ExecutorSpec
  import ExecutorProperties

  /** The parameter description of a callable (opaque here). */
  datatype ParameterType = ParameterType(dataType: DataType, mandatory: bool)

  /** `IdRepository`: the call ids in use. Expiry of a handle is reported by the caller. */
  class IdRepository {
    var ids: set<CallId>

    constructor ()
      ensures ids == {}
    {
      ids := {};
    }

    /** `assignID`: probe upwards from 0 for the first id not in use and reserve it. */
    method AssignID() returns (id: CallId)
      modifies this
      ensures id == LeastFree(old(ids)) && ids == old(ids) + {id}
    {
      id := 0;
      while id in ids
        invariant ids == old(ids)
        invariant forall j: nat :: j < id ==> j in ids
        decreases |ids| - id
      {
        PrefixBound(ids, id + 1);
        id := id + 1;
      }
      LeastFreeUnique(ids, id, LeastFree(ids));
      ids := ids + {id};
    }

    /** `freeIDs`: erase, while walking the entries, every id whose handle has expired. */
    method FreeIDs(expired: set<CallId>)
      modifies this
      ensures ids == FreeIds(old(ids), expired)
    {
      var unvisited := ids;
      while unvisited != {}
        invariant unvisited <= old(ids)
        invariant ids == old(ids) - (expired - unvisited)
        decreases |unvisited|
      {
        var id :| id in unvisited;
        if id in expired {
          ids := ids - {id};
        }
        unvisited := unvisited - {id};
      }
    }
  }

  /** `DispatchQueue`: the FIFO of call ids waiting for a response. */
  class DispatchQueue {
    var queue: seq<CallId>

    constructor ()
      ensures queue == []
    {
      queue := [];
    }

    method Enqueue(id: CallId)
      modifies this
      ensures queue == old(queue) + [id]
    {
      queue := queue + [id];
    }

    /**
     * `dequeue`: the oldest id, or nothing when the queue is empty. The
     * bounded wait for a producer on another thread is not modelled.
     */
    method Dequeue() returns (next: Option<CallId>)
      modifies this
      ensures old(queue) == [] ==> next == Option.None && queue == []
      ensures old(queue) != [] ==> next == Some(old(queue)[0]) && queue == old(queue)[1..]
    {
      if queue == [] {
        next := Option.None;
      } else {
        next := Some(queue[0]);
        queue := queue[1..];
      }
    }
  }

  /** `ResponseRepository`. */
  class ResponseRepository {
    const defaultResponse: Response
    var queued: seq<Response>
    var pinned: map<CallId, Response>

    ghost function Contents(): Responses
      reads this
    {
      Responses(defaultResponse, queued, pinned)
    }

    constructor (defaultResponse: Response)
      ensures Contents() == Responses(defaultResponse, [], map[])
    {
      this.defaultResponse := defaultResponse;
      queued := [];
      pinned := map[];
    }

    method Enqueue(r: Response)
      modifies this
      ensures Contents() == old(Contents()).(queued := old(queued) + [r])
    {
      queued := queued + [r];
    }

    /** `emplace`: pin a response to an id, unless one is pinned there already. */
    method Emplace(id: CallId, r: Response)
      modifies this
      ensures Contents() == old(Contents()).(pinned := if id in old(pinned) then old(pinned) else old(pinned)[id := r])
    {
      if id !in pinned {
        pinned := pinned[id := r];
      }
    }

    /** `get`: the response for id, consumed unless it is the default. */
    method Get(id: CallId) returns (r: Response)
      modifies this
      ensures (r, Contents()) == GetResponse(old(Contents()), id)
    {
      if id in pinned {
        r := pinned[id];
        pinned := pinned - {id};
      } else if queued != [] {
        r := queued[0];
        queued := queued[1..];
      } else {
        r := defaultResponse;
      }
    }
  }

  /**
   * `FakeExecutor`. The shared states of the futures it hands out are kept in
   * `slots`; a registered promise is the index of its shared state.
   */
  class FakeExecutor {
    const resultType: DataType
    const parameterTypes: map<nat, ParameterType>
    const idRepo: IdRepository
    const dispatchQueue: DispatchQueue
    const responses: ResponseRepository
    var promises: map<CallId, nat>
    var slots: seq<Slot>

    ghost function State(): ExecState
      reads this, idRepo, dispatchQueue, responses
    {
      ExecState(resultType, idRepo.ids, dispatchQueue.queue, responses.Contents(), promises, slots)
    }

    ghost predicate Valid()
      reads this, idRepo, dispatchQueue, responses
    {
      Inv(State())
    }

    /** Every registered promise names a shared state that exists. */
    ghost predicate LinksInRange()
      reads this
    {
      forall id :: id in promises ==> promises[id] < |slots|
    }

    constructor (resultType: DataType, supported: map<nat, ParameterType>, defaultResponse: Response)
      ensures Valid() && State() == Init(resultType, defaultResponse) && parameterTypes == supported
      ensures fresh(idRepo) && fresh(dispatchQueue) && fresh(responses)
    {
      this.resultType := resultType;
      parameterTypes := supported;
      idRepo := new IdRepository();
      dispatchQueue := new DispatchQueue();
      responses := new ResponseRepository(defaultResponse);
      promises := map[];
      slots := [];
    }

    /** `asyncCall`, with the outcome of the foreign parameter check given. */
    method AsyncCall(check: Outcome<Exception>) returns (r: Result<ResultFuture, Exception>)
      requires Valid()
      modifies this, idRepo, dispatchQueue
      ensures Valid()
      ensures (State(), r) == ExecutorSpec.AsyncCall(old(State()), check)
    {
      ExecutorProperties.AsyncCallPreservesInv(State(), check);
      if resultType == DataType.None {
        return Failure(ResultReturningNotSupported);
      }
      var id := idRepo.AssignID();
      var slot := |slots|;
      if check.Fail? {
        slots := slots + [Failed(check.error)];
        return Success(ResultFuture(id, slot));
      }
      var future := ResultFuture(id, slot);
      // try_emplace: a promise whose id is still registered is not moved
      // into the map and is destroyed unfulfilled
      slots := slots + [if id in promises then Failed(BrokenPromise) else Pending];
      promises := if id in promises then promises else promises[id := slot];
      dispatchQueue.Enqueue(id);
      r := Success(future);
    }

    /** `respond`: settle the call registered under id, or throw CallerNotFound. */
    method Respond(id: CallId, response: Response) returns (o: Outcome<Exception>)
      requires LinksInRange()
      modifies this
      ensures LinksInRange() && (old(Valid()) ==> Valid())
      ensures (State(), o) == ExecutorSpec.Respond(old(State()), id, response)
    {
      if Valid() {
        ExecutorProperties.RespondPreservesInv(State(), id, response);
      }
      if id in promises {
        slots := slots[promises[id] := Settled(response)];
        promises := promises - {id};
        o := Pass;
      } else {
        o := Fail(CallerNotFound(id, ExternalExecutorTag));
      }
    }

    /** `cancel`: fail the call registered under id with CallCanceled; otherwise do nothing. */
    method Cancel(id: CallId)
      requires Valid()
      modifies this
      ensures Valid()
      ensures State() == ExecutorSpec.Cancel(old(State()), id)
    {
      ExecutorProperties.CancelPreservesInv(State(), id);
      if id in promises {
        slots := slots[promises[id] := Failed(CallCanceled(id, MockCallableTag))];
        promises := promises - {id};
      }
    }

    /** `cancelAll`: fail every registered call with CallCanceled, then forget them all. */
    method CancelAll()
      requires Valid()
      modifies this
      ensures Valid()
      ensures State() == ExecutorSpec.CancelAll(old(State()))
    {
      ExecutorProperties.CancelAllCancelsEveryCall(State());
      var unvisited := promises.Keys;
      while unvisited != {}
        invariant unvisited <= promises.Keys
        invariant promises == old(promises) && |slots| == |old(slots)|
        invariant forall id :: id in promises && id !in unvisited ==>
                    slots[promises[id]] == Failed(CallCanceled(id, MockCallableTag))
        invariant forall i :: 0 <= i < |slots| && (i !in promises.Values || Owner(promises, i) in unvisited) ==>
                    slots[i] == old(slots)[i]
        decreases |unvisited|
      {
        var id :| id in unvisited;
        slots := slots[promises[id] := Failed(CallCanceled(id, MockCallableTag))];
        unvisited := unvisited - {id};
      }
      promises := map[];
      assert State().slots == ExecutorSpec.CancelAll(old(State())).slots;
    }

    /** `queueResponse(response)`: refuse a response of the wrong type, else queue it. */
    method QueueResponse(response: Response) returns (o: Outcome<Exception>)
      requires Valid()
      modifies responses
      ensures Valid()
      ensures (State(), o) == ExecutorSpec.QueueResponse(old(State()), response)
    {
      o := CheckType(resultType, response);
      if o.Pass? {
        responses.Enqueue(response);
      }
    }

    /** `queueResponse(id, response)`: refuse a response of the wrong type, else pin it to id. */
    method QueueResponseFor(id: CallId, response: Response) returns (o: Outcome<Exception>)
      requires Valid()
      modifies responses
      ensures Valid()
      ensures (State(), o) == ExecutorSpec.QueueResponseFor(old(State()), id, response)
    {
      o := CheckType(resultType, response);
      if o.Pass? {
        responses.Emplace(id, response);
      }
    }

    /**
     * `respondOnce`: answer the oldest queued call with the response chosen
     * for it, then forget the ids whose handles expired, except those of
     * calls still registered.
     */
    method RespondOnce(expired: set<CallId>) returns (o: Outcome<Exception>)
      requires Valid()
      modifies this, idRepo, dispatchQueue, responses
      ensures Valid()
      ensures (State(), o) == ExecutorSpec.RespondOnce(old(State()), expired)
    {
      ExecutorProperties.RespondOncePreservesInv(State(), expired);
      var next := dispatchQueue.Dequeue();
      if next.Some? {
        var response := responses.Get(next.value);
        o := Respond(next.value, response);
        if o.Fail? {
          return;
        }
      }
      o := Pass;
      idRepo.FreeIDs(expired - promises.Keys);
    }
  }
}
