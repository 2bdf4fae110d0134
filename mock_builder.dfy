/**
 * `MockBuilder`: builds one device at a time. The device under construction
 * owns a root group whose id is the device id followed by ':'; every group the
 * builder makes is registered under its id so that later elements can name it
 * as their parent. Every element is handed to the root group, which passes it
 * down to the group its id names.
 *
 * The groups live in a `GroupStore` shared with the group model; the builder
 * keeps the device (its id and the pointer to its root group) and the map of
 * registered groups. Names, descriptions and the element objects behind each
 * function are not modelled.
 */
module Builder {
  import opened Wrappers
  import opened Types
  import opened Strings
  import opened Groups
  import Observables

  /** A device mock: its id and its root group. */
  datatype DeviceMock = DeviceMock(id: string, root: GroupPtr)

  /** The id of a device's root group. */
  function RootGroupId(deviceId: string): string
  {
    deviceId + ":"
  }

  /** The exceptions the builder throws. */
  datatype BuilderError =
    | DeviceBuildInProgress
    | DeviceInfoNotSet
      /** invalid_argument "Data Type can not be None or Unknown" */
    | DataTypeNoneOrUnknown
      /** invalid_argument "Result Type can not be None or Unknown" */
    | ResultTypeNoneOrUnknown
    | ReadCallbackEmpty
    | WriteCallbackEmpty
    | IsObservingCallbackEmpty
    | ExecuteCallbackEmpty
    | AsyncExecuteCallbackEmpty
    | CancelCallbackEmpty
      /** invalid_argument "No parent group with ID <id> exists. Build parent group first" */
    | NoParentGroup(parentId: string)
      /** GroupEmpty of the device, and of a registered group when it is not the root */
    | GroupEmpty(deviceId: string, groupId: Option<string>)
      /** an exception of the root group's addElement, passed on */
    | ElementRejected(cause: GroupError)

  /** A data or result type an element may declare. */
  predicate Concrete(t: DataType)
  {
    t != DataType.None && t != DataType.Unknown
  }

  /** The builder's state: the groups, the device in progress and the registered groups. */
  datatype BuilderState = BuilderState(groups: seq<GroupMock>, device: Option<DeviceMock>, subgroups: map<string, GroupPtr>)

  /**
   * The device's root group exists and carries the root id; nothing is
   * registered while no device is in progress; a group is registered under
   * its own id, which ends with a digit.
   */
  predicate Coherent(s: BuilderState)
  {
    Wellformed(s.groups)
    && (s.device.Some? ==> s.device.value.root < |s.groups| && s.groups[s.device.value.root].id == RootGroupId(s.device.value.id))
    && (s.device.None? ==> s.subgroups == map[])
    && (forall id :: id in s.subgroups ==>
          s.subgroups[id] < |s.groups| && s.groups[s.subgroups[id]].id == id && !EndsWith(id, ':'))
  }

  /** The group `assignID` draws an id from: the root for an empty parent id, else the registered parent. */
  function ParentOf(s: BuilderState, parentId: string): (r: Result<GroupPtr, BuilderError>)
    requires Coherent(s) && s.device.Some?
    ensures r.Success? ==> r.value < |s.groups|
    ensures r.Failure? ==> r.error == NoParentGroup(parentId)
  {
    if parentId == "" then Success(s.device.value.root)
    else if parentId in s.subgroups then Success(s.subgroups[parentId])
    else Failure(NoParentGroup(parentId))
  }

  /** The id `assignID` hands out: "<device>:<n>" from the root, "<parent>.<n>" from a registered parent. */
  function NextId(s: BuilderState, parentId: string): (id: string)
    requires Coherent(s) && s.device.Some? && ParentOf(s, parentId).Success?
  {
    var p := ParentOf(s, parentId).value;
    if parentId == "" then s.device.value.id + ":" + NatToString(s.groups[p].nextId)
    else parentId + "." + NatToString(s.groups[p].nextId)
  }

  /** The id handed out is the one the parent group's `generateID` makes. */
  lemma NextIdGenerated(s: BuilderState, parentId: string)
    requires Coherent(s) && s.device.Some? && ParentOf(s, parentId).Success?
    ensures var p := ParentOf(s, parentId).value;
      NextId(s, parentId) == ChildId(s.groups[p].id, s.groups[p].nextId)
  {
  }

  /** A generated id ends with a digit. */
  lemma ChildIdEndsWithDigit(groupId: string, n: nat)
    ensures |ChildId(groupId, n)| > 0 && IsDigit(ChildId(groupId, n)[|ChildId(groupId, n)| - 1])
  {
    var digits := NatToString(n);
    var c := ChildId(groupId, n);
    assert c[|c| - 1] == digits[|digits| - 1];
  }

  /** No group of the device in progress is empty: neither the root nor any registered group. */
  predicate Filled(s: BuilderState)
    requires Coherent(s) && s.device.Some?
  {
    |s.groups[s.device.value.root].elements| > 0
    && forall id :: id in s.subgroups ==> |s.groups[s.subgroups[id]].elements| > 0
  }

  /**
   * What `makeElementMock` does: without a device it throws DeviceInfoNotSet,
   * with an unknown parent NoParentGroup, and otherwise it draws the next id
   * from the parent (the counter moves even when the add then fails) and adds
   * an element with that id and the function to the root group. A successful
   * add is found from the root under its id, and nothing found before is lost.
   */
  ghost predicate MadeElement(s: BuilderState, s': BuilderState, parentId: string, func: ElementFunction,
                              r: Result<string, BuilderError>)
    requires Coherent(s) && Coherent(s')
  {
    s'.device == s.device && s'.subgroups == s.subgroups
    && if s.device.None? then r == Failure(DeviceInfoNotSet) && s' == s
       else match ParentOf(s, parentId)
         case Failure(e) => r == Failure(e) && s' == s
         case Success(p) =>
           var root := s.device.value.root;
           && |s'.groups| == |s.groups|
           && s'.groups[p].nextId == s.groups[p].nextId + 1
           && (r.Success? ==>
                 r.value == NextId(s, parentId) && GetElement(s'.groups, root, r.value) == Success(ElementMock(r.value, func)))
           && (r.Failure? ==> r.error.ElementRejected?)
           && forall ref :: GetElement(s.groups, root, ref).Success? ==>
                GetElement(s'.groups, root, ref) == GetElement(s.groups, root, ref)
  }

  /** The id of a result carrying an id and a handle. */
  function IdOf<T>(r: Result<(string, T), BuilderError>): Result<string, BuilderError>
  {
    match r
    case Success(p) => Success(p.0)
    case Failure(e) => Failure(e)
  }

  class MockBuilder {
    const store: GroupStore
    var device: Option<DeviceMock>
    var subgroups: map<string, GroupPtr>

    ghost function State(): BuilderState
      reads this, store
    {
      BuilderState(store.groups, device, subgroups)
    }

    ghost predicate Valid()
      reads this, store
    {
      Coherent(State())
    }

    constructor (store: GroupStore)
      requires store.Valid()
      ensures Valid() && this.store == store && device.None? && subgroups == map[]
    {
      this.store := store;
      device := Option.None;
      subgroups := map[];
    }

    /** `setDeviceInfo`: start a device with a new root group, unless one is in progress. */
    method SetDeviceInfo(deviceId: string) returns (o: Outcome<BuilderError>)
      requires Valid()
      modifies this, store
      ensures Valid()
      ensures old(device).Some? ==> o == Fail(DeviceBuildInProgress) && State() == old(State())
      ensures old(device).None? ==>
        o == Pass && device == Some(DeviceMock(deviceId, |old(store.groups)|)) && subgroups == old(subgroups)
        && store.groups == old(store.groups) + [NewGroupMock(RootGroupId(deviceId))]
    {
      if device.Some? {
        return Fail(DeviceBuildInProgress);
      }
      var root := store.NewGroup(RootGroupId(deviceId));
      device := Some(DeviceMock(deviceId, root));
      o := Pass;
    }

    /** `checkBase`: DeviceInfoNotSet exactly when no device is in progress. */
    method CheckBase() returns (o: Outcome<BuilderError>)
      ensures o.Fail? <==> device.None?
      ensures o.Fail? ==> o.error == DeviceInfoNotSet
    {
      if device.None? {
        return Fail(DeviceInfoNotSet);
      }
      o := Pass;
    }

    /** `getParentGroup`: the group registered under the id, or NoParentGroup. */
    method GetParentGroup(parentId: string) returns (r: Result<GroupPtr, BuilderError>)
      ensures r.Success? <==> parentId in subgroups
      ensures r.Success? ==> r.value == subgroups[parentId]
      ensures r.Failure? ==> r.error == NoParentGroup(parentId)
    {
      if parentId in subgroups {
        r := Success(subgroups[parentId]);
      } else {
        r := Failure(NoParentGroup(parentId));
      }
    }

    /**
     * `assignID`: the next id of the root group for an empty parent id, else
     * of the registered parent; only that group's counter moves.
     */
    method AssignID(parentId: string) returns (r: Result<string, BuilderError>)
      requires Valid() && device.Some?
      modifies store
      ensures Valid()
      ensures ParentOf(old(State()), parentId).Failure? ==>
        r == Failure(NoParentGroup(parentId)) && store.groups == old(store.groups)
      ensures ParentOf(old(State()), parentId).Success? ==>
        var p := ParentOf(old(State()), parentId).value;
        && r == Success(NextId(old(State()), parentId))
        && store.groups == old(store.groups)[p := old(store.groups)[p].(nextId := old(store.groups)[p].nextId + 1)]
      ensures forall ref :: GetElement(store.groups, device.value.root, ref) == GetElement(old(store.groups), device.value.root, ref)
    {
      var p: GroupPtr;
      if parentId == "" {
        p := device.value.root;
      } else {
        var parent := GetParentGroup(parentId);
        if parent.Failure? {
          return Failure(parent.error);
        }
        p := parent.value;
      }
      NextIdGenerated(State(), parentId);
      var id := store.GenerateID(p);
      r := Success(id);
    }

    /**
     * `addElementMock`: hand an element to the device's root group. A group
     * element must be a new group that is not the root.
     */
    method AddElementMock(func: ElementFunction, id: string) returns (o: Outcome<BuilderError>)
      requires Valid() && device.Some?
      requires func.GroupFunction? ==> Attachable(store.groups, func.group) && func.group != device.value.root
      modifies store
      ensures Valid() && |store.groups| == |old(store.groups)|
      ensures forall h :: 0 <= h < |store.groups| ==>
        store.groups[h].id == old(store.groups)[h].id && store.groups[h].nextId == old(store.groups)[h].nextId
      ensures o.Fail? ==> o.error.ElementRejected? && store.groups == old(store.groups)
      ensures o.Pass? && !EndsWith(id, '.') ==>
        GetElement(store.groups, device.value.root, id) == Success(ElementMock(id, func))
      ensures forall ref :: GetElement(old(store.groups), device.value.root, ref).Success? ==>
        GetElement(store.groups, device.value.root, ref) == GetElement(old(store.groups), device.value.root, ref)
    {
      var added := store.AddElement(device.value.root, Some(ElementMock(id, func)));
      if added.Fail? {
        return Fail(ElementRejected(added.error));
      }
      o := Pass;
    }

    /** `makeElementMock`: check the device, draw an id from the parent and add the element under it. */
    method MakeElementMock(parentId: string, func: ElementFunction) returns (r: Result<string, BuilderError>)
      requires Valid() && !func.GroupFunction?
      modifies store
      ensures Valid() && MadeElement(old(State()), State(), parentId, func, r)
    {
      var base := CheckBase();
      if base.Fail? {
        return Failure(base.error);
      }
      ghost var s := State();
      var id := AssignID(parentId);
      if id.Failure? {
        return Failure(id.error);
      }
      ghost var p := ParentOf(s, parentId).value;
      assert store.groups[p].nextId == s.groups[p].nextId + 1;
      ghost var bumped := store.groups;
      assert NextId(s, parentId) == ChildId(s.groups[p].id, s.groups[p].nextId) by {
        NextIdGenerated(s, parentId);
      }
      assert !EndsWith(id.value, '.') by {
        ChildIdRoute(s.groups[p].id, s.groups[p].nextId);
      }
      var added := AddElementMock(func, id.value);
      assert store.groups[p].nextId == bumped[p].nextId;
      if added.Fail? {
        return Failure(added.error);
      }
      r := id;
    }

    /**
     * `addGroup`: check the device, draw an id from the parent, make a group
     * with that id, register it under the id unless the id is registered
     * already (`try_emplace`), and add it to the device. The group stays
     * registered when the add fails.
     */
    method AddGroup(parentId: string) returns (r: Result<string, BuilderError>)
      requires Valid()
      modifies this, store
      ensures Valid() && device == old(device)
      ensures old(device).None? ==> r == Failure(DeviceInfoNotSet) && State() == old(State())
      ensures old(device).Some? && ParentOf(old(State()), parentId).Failure? ==>
        r == Failure(NoParentGroup(parentId)) && State() == old(State())
      ensures old(device).Some? && ParentOf(old(State()), parentId).Success? ==>
        var p := ParentOf(old(State()), parentId).value;
        var id := NextId(old(State()), parentId);
        var g := |old(store.groups)|;
        var root := device.value.root;
        && |store.groups| == g + 1 && store.groups[g].id == id
        && store.groups[p].nextId == old(store.groups)[p].nextId + 1
        && subgroups == (if id in old(subgroups) then old(subgroups) else old(subgroups)[id := g])
        && (r.Success? ==> r.value == id && GetElement(store.groups, root, id) == Success(ElementMock(id, GroupFunction(g))))
        && (r.Failure? ==> r.error.ElementRejected?)
        && forall ref :: GetElement(old(store.groups), root, ref).Success? ==>
             GetElement(store.groups, root, ref) == GetElement(old(store.groups), root, ref)
    {
      var base := CheckBase();
      if base.Fail? {
        return Failure(base.error);
      }
      ghost var s := State();
      var id := AssignID(parentId);
      if id.Failure? {
        return Failure(id.error);
      }
      ghost var p := ParentOf(s, parentId).value;
      assert NextId(s, parentId) == ChildId(s.groups[p].id, s.groups[p].nextId) by {
        NextIdGenerated(s, parentId);
      }
      assert !EndsWith(id.value, '.') && id.value != "" && !EndsWith(id.value, ':') by {
        ChildIdRoute(s.groups[p].id, s.groups[p].nextId);
        ChildIdEndsWithDigit(s.groups[p].id, s.groups[p].nextId);
      }
      ghost var bumped := store.groups;
      var group := store.NewGroup(id.value);
      if id.value !in subgroups {
        subgroups := subgroups[id.value := group];
      }
      var added := AddElementMock(GroupFunction(group), id.value);
      assert store.groups[p].nextId == bumped[p].nextId;
      if added.Fail? {
        return Failure(added.error);
      }
      r := id;
    }

    /** `addReadable` with a read callback: reject a None/Unknown type, then an empty callback. */
    method AddReadable(parentId: string, dataType: DataType, readCb: Callback) returns (r: Result<string, BuilderError>)
      requires Valid()
      modifies store
      ensures Valid()
      ensures !Concrete(dataType) ==> r == Failure(DataTypeNoneOrUnknown) && State() == old(State())
      ensures Concrete(dataType) && readCb.Empty? ==> r == Failure(ReadCallbackEmpty) && State() == old(State())
      ensures Concrete(dataType) && readCb.Given? ==> MadeElement(old(State()), State(), parentId, ReadableFunction, r)
    {
      if !Concrete(dataType) {
        return Failure(DataTypeNoneOrUnknown);
      }
      if readCb.Empty? {
        return Failure(ReadCallbackEmpty);
      }
      r := MakeElementMock(parentId, ReadableFunction);
    }

    /**
     * `addWritable` with a write callback: reject a None/Unknown type, then an
     * empty write callback; the read callback may be empty.
     */
    method AddWritable(parentId: string, dataType: DataType, writeCb: Callback, readCb: Callback)
      returns (r: Result<string, BuilderError>)
      requires Valid()
      modifies store
      ensures Valid()
      ensures !Concrete(dataType) ==> r == Failure(DataTypeNoneOrUnknown) && State() == old(State())
      ensures Concrete(dataType) && writeCb.Empty? ==> r == Failure(WriteCallbackEmpty) && State() == old(State())
      ensures Concrete(dataType) && writeCb.Given? ==> MadeElement(old(State()), State(), parentId, WritableFunction, r)
    {
      if !Concrete(dataType) {
        return Failure(DataTypeNoneOrUnknown);
      }
      if writeCb.Empty? {
        return Failure(WriteCallbackEmpty);
      }
      r := MakeElementMock(parentId, WritableFunction);
    }

    /**
     * `addObservable` with a read callback: reject a None/Unknown type, an
     * empty read callback, then an empty observing callback. The observable
     * is made with subscribe faking on that callback before the element is
     * added; it is returned with the id as the handle to notify through.
     */
    method AddObservable(parentId: string, dataType: DataType, readCb: Callback, observeCb: Callback)
      returns (r: Result<(string, Observables.ObservableMock), BuilderError>)
      requires Valid()
      modifies store
      ensures Valid()
      ensures !Concrete(dataType) ==> r == Failure(DataTypeNoneOrUnknown) && State() == old(State())
      ensures Concrete(dataType) && readCb.Empty? ==> r == Failure(ReadCallbackEmpty) && State() == old(State())
      ensures Concrete(dataType) && readCb.Given? && observeCb.Empty? ==>
        r == Failure(IsObservingCallbackEmpty) && State() == old(State())
      ensures Concrete(dataType) && readCb.Given? && observeCb.Given? ==>
        MadeElement(old(State()), State(), parentId, ObservableFunction, IdOf(r))
      ensures r.Success? ==>
        var observable := r.value.1;
        && fresh(observable) && observable.Valid()
        && observable.mode == Observables.Tracking && observable.isObserving == observeCb
        && observable.observers == [] && observable.calls == []
    {
      if !Concrete(dataType) {
        return Failure(DataTypeNoneOrUnknown);
      }
      if readCb.Empty? {
        return Failure(ReadCallbackEmpty);
      }
      if observeCb.Empty? {
        return Failure(IsObservingCallbackEmpty);
      }
      var observable := new Observables.ObservableMock();
      observable.EnableSubscribeFaking(observeCb);
      var id := MakeElementMock(parentId, ObservableFunction);
      if id.Failure? {
        return Failure(id.error);
      }
      r := Success((id.value, observable));
    }

    /** `addCallable` with an execute callback: reject an empty callback. */
    method AddCallable(parentId: string, executeCb: Callback) returns (r: Result<string, BuilderError>)
      requires Valid()
      modifies store
      ensures Valid()
      ensures executeCb.Empty? ==> r == Failure(ExecuteCallbackEmpty) && State() == old(State())
      ensures executeCb.Given? ==> MadeElement(old(State()), State(), parentId, CallableFunction, r)
    {
      if executeCb.Empty? {
        return Failure(ExecuteCallbackEmpty);
      }
      r := MakeElementMock(parentId, CallableFunction);
    }

    /**
     * `addCallable` with a result type and all three callbacks: reject a
     * None/Unknown result type, then an empty execute, asynchronous execute
     * or cancel callback, in that order.
     */
    method AddAsyncCallable(parentId: string, resultType: DataType, executeCb: Callback, asyncExecuteCb: Callback,
                            cancelCb: Callback) returns (r: Result<string, BuilderError>)
      requires Valid()
      modifies store
      ensures Valid()
      ensures !Concrete(resultType) ==> r == Failure(ResultTypeNoneOrUnknown) && State() == old(State())
      ensures Concrete(resultType) && executeCb.Empty? ==> r == Failure(ExecuteCallbackEmpty) && State() == old(State())
      ensures Concrete(resultType) && executeCb.Given? && asyncExecuteCb.Empty? ==>
        r == Failure(AsyncExecuteCallbackEmpty) && State() == old(State())
      ensures Concrete(resultType) && executeCb.Given? && asyncExecuteCb.Given? && cancelCb.Empty? ==>
        r == Failure(CancelCallbackEmpty) && State() == old(State())
      ensures Concrete(resultType) && executeCb.Given? && asyncExecuteCb.Given? && cancelCb.Given? ==>
        MadeElement(old(State()), State(), parentId, CallableFunction, r)
    {
      if !Concrete(resultType) {
        return Failure(ResultTypeNoneOrUnknown);
      }
      if executeCb.Empty? {
        return Failure(ExecuteCallbackEmpty);
      }
      if asyncExecuteCb.Empty? {
        return Failure(AsyncExecuteCallbackEmpty);
      }
      if cancelCb.Empty? {
        return Failure(CancelCallbackEmpty);
      }
      r := MakeElementMock(parentId, CallableFunction);
    }

    /**
     * `checkGroups`: GroupEmpty for the device when its root group is empty,
     * else GroupEmpty naming some registered group that is empty (the map is
     * walked in no particular order), else nothing.
     */
    method CheckGroups() returns (o: Outcome<BuilderError>)
      requires Valid() && device.Some?
      ensures o.Pass? <==> Filled(State())
      ensures |store.groups[device.value.root].elements| == 0 ==> o == Fail(GroupEmpty(device.value.id, Option.None))
      ensures o.Fail? && |store.groups[device.value.root].elements| > 0 ==>
        exists id :: id in subgroups && |store.groups[subgroups[id]].elements| == 0
                     && o == Fail(GroupEmpty(device.value.id, Some(id)))
    {
      if |store.groups[device.value.root].elements| == 0 {
        return Fail(GroupEmpty(device.value.id, Option.None));
      }
      var unvisited := subgroups.Keys;
      while unvisited != {}
        invariant unvisited <= subgroups.Keys
        invariant forall id :: id in subgroups && id !in unvisited ==> |store.groups[subgroups[id]].elements| > 0
        decreases |unvisited|
      {
        var id :| id in unvisited;
        if |store.groups[subgroups[id]].elements| == 0 {
          return Fail(GroupEmpty(device.value.id, Some(id)));
        }
        unvisited := unvisited - {id};
      }
      o := Pass;
    }

    /**
     * `result`: check the device and its groups, then forget the registered
     * groups and hand the device over; no device is in progress afterwards.
     */
    method BuildResult() returns (r: Result<DeviceMock, BuilderError>)
      requires Valid()
      modifies this
      ensures Valid() && store.groups == old(store.groups)
      ensures old(device).None? ==> r == Failure(DeviceInfoNotSet)
      ensures old(device).Some? ==> (r.Success? <==> Filled(old(State())))
      ensures old(device).Some? && r.Failure? ==> r.error.GroupEmpty? && r.error.deviceId == old(device).value.id
      ensures r.Failure? ==> device == old(device) && subgroups == old(subgroups)
      ensures r.Success? ==> r.value == old(device).value && device.None? && subgroups == map[]
    {
      var base := CheckBase();
      if base.Fail? {
        return Failure(base.error);
      }
      var groups := CheckGroups();
      if groups.Fail? {
        return Failure(groups.error);
      }
      subgroups := map[];
      r := Success(device.value);
      device := Option.None;
    }
  }
}
