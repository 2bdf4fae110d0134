/**
 * `GroupMock`: a group of elements addressed by string ids. A group keeps its
 * direct children under the part of their id that follows its own id, and
 * hands an element whose id names a deeper position to the subgroup that
 * the first segment of that remainder names.
 *
 * Groups are shared objects: the builder keeps pointers to the groups it
 * made while the tree holds the same groups as elements. The model keeps
 * every group object in a `GroupStore` and a pointer to a group is its index
 * there, so an update through one pointer is seen through every other.
 */
module Groups {
  import opened Wrappers
  import opened Strings

  /** A shared pointer to a group: its index in the store. */
  type GroupPtr = nat

  /** The function an element stands for; only a group is looked into. */
  datatype ElementFunction =
    | ReadableFunction
    | WritableFunction
    | ObservableFunction
    | CallableFunction
    | GroupFunction(group: GroupPtr)

  /** An element: its full id and its function (meta information is not modelled). */
  datatype ElementMock = ElementMock(id: string, func: ElementFunction)

  /** The exceptions of `addElement`, `getElement` and `toVector`. */
  datatype GroupError =
      /** invalid_argument "Given element is empty" */
    | ElementIsEmpty
      /** invalid_argument "Given element has the same ID as this group" */
    | SameIdAsGroup
      /** invalid_argument "Given element is not part of this group" */
    | NotPartOfGroup
      /** invalid_argument "Parent element <id> is not a group" */
    | ParentNotAGroup(parentId: string)
      /** logic_error "Element with id <id> is already in this group" */
    | AlreadyInGroup(id: string)
    | ElementNotFound(ref: string)
    | IdPointsThisGroup(ref: string)
      /** the source reads the first or last character of an empty remainder */
    | EmptyRemainder(ref: string)
      /** std::out_of_range from `unordered_map::at` */
    | KeyNotFound(key: string)

  /** Where an id leads inside a group: a key of this group, or into the subgroup of a segment. */
  datatype Route = Direct(key: string) | ViaSubgroup(segment: string) | NoRemainder

  /**
   * The route `addElement` takes for an element id that starts with the
   * group id: one leading and one trailing '.' of the remainder are dropped.
   */
  function AddRoute(groupId: string, elementId: string): Route
    requires groupId <= elementId
  {
    var rest := elementId[|groupId|..];
    var trimmed := DropLeadingDot(rest);
    if rest == [] || trimmed == [] then NoRemainder
    else
      var key := DropTrailingDot(trimmed);
      match IndexOf(key, '.')
      case None => Direct(key)
      case Some(marker) => ViaSubgroup(key[..marker])
  }

  /** The route `getElement` takes: only a leading '.' of the remainder is dropped. */
  function LookupRoute(groupId: string, ref: string): Route
    requires groupId <= ref
  {
    var rest := ref[|groupId|..];
    if rest == [] then NoRemainder
    else
      var key := DropLeadingDot(rest);
      match IndexOf(key, '.')
      case None => Direct(key)
      case Some(marker) => ViaSubgroup(key[..marker])
  }

  /** `generateID`: the group id, a '.' unless the id ends with ':', and the counter. */
  function ChildId(groupId: string, n: nat): string
  {
    (if EndsWith(groupId, ':') then groupId else groupId + ".") + NatToString(n)
  }


  /**
   * A generated id lies inside its group, is not the group's own id, does
   * not end with '.', and both addElement and getElement take it straight to
   * the key that spells the counter value.
   */
  lemma ChildIdRoute(groupId: string, n: nat)
    requires groupId != ""
    ensures groupId <= ChildId(groupId, n) && ChildId(groupId, n) != Sanitized(groupId)
    ensures !EndsWith(ChildId(groupId, n), '.')
    ensures AddRoute(groupId, ChildId(groupId, n)) == Direct(NatToString(n))
    ensures LookupRoute(groupId, ChildId(groupId, n)) == Direct(NatToString(n))
  {
    var digits := NatToString(n);
    var prefix := if EndsWith(groupId, ':') then groupId else groupId + ".";
    var c := prefix + digits;
    assert c[..|groupId|] == groupId;
    assert c[|c| - 1] == digits[|digits| - 1];
    var rest := c[|groupId|..];
    assert DropLeadingDot(rest) == digits by {
      if EndsWith(groupId, ':') {
        assert rest == digits;
        assert IsDigit(digits[0]);
      } else {
        assert rest == ['.'] + digits;
      }
    }
    assert '.' !in digits by {
      forall i | 0 <= i < |digits|
        ensures digits[i] != '.'
      {
        assert IsDigit(digits[i]);
      }
    }
    assert IsDigit(digits[|digits| - 1]);
  }

  /** Different counter values give different ids. */
  lemma ChildIdsDistinct(groupId: string, m: nat, n: nat)
    requires ChildId(groupId, m) == ChildId(groupId, n)
    ensures m == n
  {
    var prefix := if EndsWith(groupId, ':') then groupId else groupId + ".";
    assert ChildId(groupId, m)[|prefix|..] == NatToString(m);
    assert ChildId(groupId, n)[|prefix|..] == NatToString(n);
    NatToStringInjective(m, n);
  }

  /** The routes of addElement and getElement agree, except that only addElement drops a trailing '.'. */
  lemma AddRouteAgreesWithLookup(groupId: string, elementId: string)
    requires groupId <= elementId
    ensures AddRoute(groupId, elementId).ViaSubgroup? ==> LookupRoute(groupId, elementId) == AddRoute(groupId, elementId)
    ensures AddRoute(groupId, elementId).Direct? && !EndsWith(elementId, '.') ==>
      LookupRoute(groupId, elementId) == AddRoute(groupId, elementId)
  {
    var rest := elementId[|groupId|..];
    var trimmed := DropLeadingDot(rest);
    if rest != [] && trimmed != [] {
      var key := DropTrailingDot(trimmed);
      assert key <= trimmed;
      match IndexOf(key, '.')
      case None =>
        if !EndsWith(elementId, '.') {
          assert trimmed[|trimmed| - 1] == elementId[|elementId| - 1];
        }
      case Some(marker) =>
        var m' := IndexOf(trimmed, '.');
        assert key[..marker] == trimmed[..marker];
        assert m' == Some(marker);
    }
  }

  /** An id made of a group id and one segment without '.' leads straight to that key. */
  lemma SegmentRoute(groupId: string, segment: string)
    requires segment != [] && '.' !in segment
    ensures groupId + segment != Sanitized(groupId) && groupId <= groupId + segment
    ensures LookupRoute(groupId, groupId + segment) == Direct(segment)
  {
    assert (groupId + segment)[|groupId|..] == segment;
    assert segment[0] != '.';
  }

  /** The fields of one `GroupMock` object. */
  datatype GroupMock = GroupMock(
    id: string,
    elements: map<string, ElementMock>,
    subgroups: map<string, GroupPtr>,
    nextId: nat)

  /** A new group: no elements, counter at zero. */
  function NewGroupMock(id: string): GroupMock
  {
    GroupMock(id, map[], map[], 0)
  }

  /**
   * The groups of a store: every id is non-empty (the source reads its last
   * character), a key names a subgroup exactly when its element is a group,
   * and that subgroup is the element's group. Subgroups were made after their
   * parents, so following subgroups always ends.
   */
  predicate Wellformed(gs: seq<GroupMock>)
  {
    (forall g :: 0 <= g < |gs| ==> gs[g].id != "")
    && (forall g, k :: 0 <= g < |gs| && k in gs[g].elements ==>
          (gs[g].elements[k].func.GroupFunction? <==> k in gs[g].subgroups))
    && (forall g, k :: 0 <= g < |gs| && k in gs[g].subgroups ==>
          k in gs[g].elements && gs[g].elements[k].func.group == gs[g].subgroups[k]
          && g < gs[g].subgroups[k] < |gs|)
  }

  /** A group that can be added as an element: the newest group, not yet anybody's subgroup. */
  predicate Attachable(gs: seq<GroupMock>, x: GroupPtr)
  {
    x + 1 == |gs| && forall g, k :: 0 <= g < |gs| && k in gs[g].subgroups ==> gs[g].subgroups[k] != x
  }

  /** `getElement` of group g: the element the id refers to, in g or below it. */
  function GetElement(gs: seq<GroupMock>, g: GroupPtr, ref: string): (r: Result<ElementMock, GroupError>)
    requires Wellformed(gs) && g < |gs|
    ensures r.Failure? ==>
      r.error == IdPointsThisGroup(ref) || r.error == ElementNotFound(ref) || r.error == EmptyRemainder(ref)
    ensures r.Failure? && r.error.IdPointsThisGroup? ==> exists h :: g <= h < |gs| && ref == Sanitized(gs[h].id)
    decreases |gs| - g
  {
    var grp := gs[g];
    if ref == Sanitized(grp.id) then Failure(IdPointsThisGroup(ref))
    else if !(grp.id <= ref) then Failure(ElementNotFound(ref))
    else match LookupRoute(grp.id, ref)
      case NoRemainder => Failure(EmptyRemainder(ref))
      case Direct(key) =>
        if key in grp.elements then Success(grp.elements[key]) else Failure(ElementNotFound(ref))
      case ViaSubgroup(segment) =>
        if segment in grp.subgroups then GetElement(gs, grp.subgroups[segment], ref)
        else Failure(ElementNotFound(ref))
  }

  /** The insertion step of `addElement`: `try_emplace` of the element and `emplace` of its group. */
  function Insert(grp: GroupMock, key: string, element: ElementMock): GroupMock
  {
    grp.(elements := grp.elements[key := element],
         subgroups :=
           if element.func.GroupFunction? && key !in grp.subgroups
           then grp.subgroups[key := element.func.group]
           else grp.subgroups)
  }

  /** Inserting under a free key an element whose group (if any) is newer than g keeps a store well formed. */
  lemma InsertWellformed(gs: seq<GroupMock>, g: GroupPtr, key: string, element: ElementMock)
    requires Wellformed(gs) && g < |gs| && key !in gs[g].elements
    requires element.func.GroupFunction? ==> g < element.func.group < |gs|
    ensures Wellformed(gs[g := Insert(gs[g], key, element)])
  {
  }

  /**
   * Inserting under a free key changes no lookup that succeeded before: the
   * new key is not on the way to any element that was already there.
   */
  lemma {:induction false} InsertKeepsLookups(gs: seq<GroupMock>, g: GroupPtr, key: string, element: ElementMock,
                                              h: GroupPtr, ref: string)
    requires Wellformed(gs) && g < |gs| && key !in gs[g].elements
    requires element.func.GroupFunction? ==> g < element.func.group < |gs|
    requires h < |gs| && GetElement(gs, h, ref).Success?
    ensures Wellformed(gs[g := Insert(gs[g], key, element)])
    ensures GetElement(gs[g := Insert(gs[g], key, element)], h, ref) == GetElement(gs, h, ref)
    decreases |gs| - h
  {
    InsertWellformed(gs, g, key, element);
    var gs' := gs[g := Insert(gs[g], key, element)];
    var grp, grp' := gs[h], gs'[h];
    assert grp'.id == grp.id;
    if ref != Sanitized(grp.id) && grp.id <= ref {
      match LookupRoute(grp.id, ref)
      case NoRemainder =>
      case Direct(k) =>
      case ViaSubgroup(segment) =>
        assert segment in grp.subgroups && grp'.subgroups[segment] == grp.subgroups[segment];
        InsertKeepsLookups(gs, g, key, element, grp.subgroups[segment], ref);
    }
  }

  /** Two stores whose first groups agree on ids, elements and subgroups give the same lookups from them. */
  lemma {:induction false} LookupsAgree(gs: seq<GroupMock>, gs': seq<GroupMock>, h: GroupPtr, ref: string)
    requires Wellformed(gs) && Wellformed(gs') && |gs| <= |gs'| && h < |gs|
    requires forall g :: 0 <= g < |gs| ==>
      gs'[g].id == gs[g].id && gs'[g].elements == gs[g].elements && gs'[g].subgroups == gs[g].subgroups
    ensures GetElement(gs', h, ref) == GetElement(gs, h, ref)
    decreases |gs| - h
  {
    var grp := gs[h];
    if ref != Sanitized(grp.id) && grp.id <= ref {
      match LookupRoute(grp.id, ref)
      case NoRemainder =>
      case Direct(k) =>
      case ViaSubgroup(segment) =>
        if segment in grp.subgroups {
          LookupsAgree(gs, gs', grp.subgroups[segment], ref);
        }
    }
  }

  /** The element addElement takes as parent is the subgroup recorded under the segment. */
  lemma ParentIsSubgroup(gs: seq<GroupMock>, g: GroupPtr, segment: string)
    requires Wellformed(gs) && g < |gs| && '.' !in segment
    requires GetElement(gs, g, gs[g].id + segment).Success?
    requires GetElement(gs, g, gs[g].id + segment).value.func.GroupFunction?
    ensures segment in gs[g].subgroups
    ensures gs[g].subgroups[segment] == GetElement(gs, g, gs[g].id + segment).value.func.group
  {
    if segment != [] {
      SegmentRoute(gs[g].id, segment);
    }
  }

  /** The keys "0" .. "n-1" that `toVector` reads. */
  function IndexKeys(n: nat): set<string>
  {
    set i | 0 <= i < n :: NatToString(i)
  }

  /** There are n such keys, since different numbers are spelled differently. */
  lemma {:induction false} IndexKeysCount(n: nat)
    ensures |IndexKeys(n)| == n
  {
    if n > 0 {
      IndexKeysCount(n - 1);
      assert IndexKeys(n) == IndexKeys(n - 1) + {NatToString(n - 1)};
      if NatToString(n - 1) in IndexKeys(n - 1) {
        var i :| 0 <= i < n - 1 && NatToString(n - 1) == NatToString(i);
        NatToStringInjective(n - 1, i);
      }
    }
  }

  /** Every key "0" .. "size-1" is present. */
  predicate HasIndexKeys(elements: map<string, ElementMock>)
  {
    forall i :: 0 <= i < |elements| ==> NatToString(i) in elements
  }

  /**
   * `toVector`: the elements under the keys "0" .. "size-1", in that order;
   * `unordered_map::at` throws for the first of those keys that is missing.
   */
  method ToVector(elements: map<string, ElementMock>) returns (r: Result<seq<ElementMock>, GroupError>)
    ensures r.Success? <==> HasIndexKeys(elements)
    ensures r.Success? ==> |r.value| == |elements|
    ensures r.Success? ==> forall i :: 0 <= i < |elements| ==> r.value[i] == elements[NatToString(i)]
    ensures r.Failure? ==> exists j :: (0 <= j < |elements| && r.error == KeyNotFound(NatToString(j))
      && NatToString(j) !in elements && forall i :: 0 <= i < j ==> NatToString(i) in elements)
  {
    var result: seq<ElementMock> := [];
    if |elements| != 0 {
      var i := 0;
      while i < |elements|
        invariant 0 <= i <= |elements| && |result| == i
        invariant forall j :: 0 <= j < i ==> NatToString(j) in elements && result[j] == elements[NatToString(j)]
      {
        var key := NatToString(i);
        if key !in elements {
          assert !HasIndexKeys(elements);
          return Failure(KeyNotFound(key));
        }
        result := result + [elements[key]];
        i := i + 1;
      }
    }
    r := Success(result);
  }

  /** When `toVector` succeeds its keys are all the keys, so every element is in the vector. */
  lemma ToVectorCoversAll(elements: map<string, ElementMock>)
    requires HasIndexKeys(elements)
    ensures elements.Keys == IndexKeys(|elements|)
  {
    var keys := IndexKeys(|elements|);
    IndexKeysCount(|elements|);
    assert keys <= elements.Keys;
    var others := elements.Keys - keys;
    assert elements.Keys == keys + others && keys * others == {};
    assert |others| == 0;
  }

  /** The group objects of a device under construction. */
  /**
   * What `addElement` of group g does: its outcome and the groups afterwards.
   * An id that runs through a subgroup is handed to the group element found
   * under that segment, and the lookup's failure is passed on as it is.
   */
  function AddEffect(gs: seq<GroupMock>, g: GroupPtr, e: Option<ElementMock>): (Outcome<GroupError>, seq<GroupMock>)
    requires Wellformed(gs) && g < |gs|
    requires e.Some? && e.value.func.GroupFunction? ==>
      Attachable(gs, e.value.func.group) && e.value.func.group != g
    decreases |gs| - g
  {
    if e.None? then (Fail(ElementIsEmpty), gs)
    else
      var element := e.value;
      var grp := gs[g];
      if element.id == Sanitized(grp.id) then (Fail(SameIdAsGroup), gs)
      else if !(grp.id <= element.id) then (Fail(NotPartOfGroup), gs)
      else match AddRoute(grp.id, element.id)
        case NoRemainder => (Fail(EmptyRemainder(element.id)), gs)
        case ViaSubgroup(segment) =>
          var parent := GetElement(gs, g, grp.id + segment);
          if parent.Failure? then (Fail(parent.error), gs)
          else if !parent.value.func.GroupFunction? then (Fail(ParentNotAGroup(parent.value.id)), gs)
          else
            AddRouteAgreesWithLookup(grp.id, element.id);
            ParentIsSubgroup(gs, g, segment);
            AddEffect(gs, parent.value.func.group, e)
        case Direct(key) =>
          if key in grp.elements then (Fail(AlreadyInGroup(element.id)), gs)
          else (Pass, gs[g := Insert(grp, key, element)])
  }

  class GroupStore {
    var groups: seq<GroupMock>

    ghost predicate Valid()
      reads this
    {
      Wellformed(groups)
    }

    constructor ()
      ensures Valid() && groups == []
    {
      groups := [];
    }

    /** `make_shared<GroupMock>(id)`: a new empty group; the groups made before are untouched. */
    method NewGroup(id: string) returns (g: GroupPtr)
      requires Valid() && id != ""
      modifies this
      ensures Valid() && g == |old(groups)| && groups == old(groups) + [NewGroupMock(id)]
      ensures Attachable(groups, g)
      ensures forall h, ref :: 0 <= h < |old(groups)| ==> GetElement(groups, h, ref) == GetElement(old(groups), h, ref)
    {
      g := |groups|;
      groups := groups + [NewGroupMock(id)];
      forall h, ref | 0 <= h < |old(groups)|
        ensures GetElement(groups, h, ref) == GetElement(old(groups), h, ref)
      {
        LookupsAgree(old(groups), groups, h, ref);
      }
    }

    /** `generateID`: a new child id of group g; only g's counter moves. */
    method GenerateID(g: GroupPtr) returns (newId: string)
      requires Valid() && g < |groups|
      modifies this
      ensures Valid()
      ensures newId == ChildId(old(groups)[g].id, old(groups)[g].nextId)
      ensures groups == old(groups)[g := old(groups)[g].(nextId := old(groups)[g].nextId + 1)]
      ensures forall h, ref :: 0 <= h < |groups| ==> GetElement(groups, h, ref) == GetElement(old(groups), h, ref)
    {
      var grp := groups[g];
      newId := (if EndsWith(grp.id, ':') then grp.id else grp.id + ".") + NatToString(grp.nextId);
      groups := groups[g := grp.(nextId := grp.nextId + 1)];
      forall h, ref | 0 <= h < |groups|
        ensures GetElement(groups, h, ref) == GetElement(old(groups), h, ref)
      {
        LookupsAgree(old(groups), groups, h, ref);
      }
    }

    /**
     * `addElement` on group g: reject a null element, the group's own id and
     * an id outside the group; put an element with a one-segment remainder
     * under that key, refusing a key in use; hand any other element to the
     * subgroup named by the first segment. An added group must be a new one,
     * so that the groups stay a forest.
     */
    method AddElement(g: GroupPtr, e: Option<ElementMock>) returns (o: Outcome<GroupError>)
      requires Valid() && g < |groups|
      requires e.Some? && e.value.func.GroupFunction? ==>
        Attachable(groups, e.value.func.group) && e.value.func.group != g
      modifies this
      decreases |groups| - g
      ensures Valid() && (o, groups) == AddEffect(old(groups), g, e)
      ensures |groups| == |old(groups)|
      ensures forall h :: 0 <= h < |groups| ==>
        groups[h].id == old(groups)[h].id && groups[h].nextId == old(groups)[h].nextId
      ensures forall h :: 0 <= h < g ==> groups[h] == old(groups)[h]
      ensures o.Fail? ==> groups == old(groups)
      ensures e.None? ==> o == Fail(ElementIsEmpty)
      ensures e.Some? && e.value.id == Sanitized(old(groups)[g].id) ==> o == Fail(SameIdAsGroup)
      ensures e.Some? && e.value.id != Sanitized(old(groups)[g].id) && !(old(groups)[g].id <= e.value.id) ==>
        o == Fail(NotPartOfGroup)
      ensures e.Some? && e.value.id != Sanitized(old(groups)[g].id) && old(groups)[g].id <= e.value.id
              && AddRoute(old(groups)[g].id, e.value.id).Direct? ==>
        var key := AddRoute(old(groups)[g].id, e.value.id).key;
        if key in old(groups)[g].elements then o == Fail(AlreadyInGroup(e.value.id))
        else o == Pass && groups == old(groups)[g := Insert(old(groups)[g], key, e.value)]
      ensures o.Pass? && !EndsWith(e.value.id, '.') ==> GetElement(groups, g, e.value.id) == Success(e.value)
      ensures o.Pass? ==> forall h, ref :: 0 <= h < |groups| && GetElement(old(groups), h, ref).Success? ==>
        GetElement(groups, h, ref) == GetElement(old(groups), h, ref)
    {
      if e.None? {
        return Fail(ElementIsEmpty);
      }
      var element := e.value;
      var grp := groups[g];
      if element.id == Sanitized(grp.id) {
        return Fail(SameIdAsGroup);
      }
      if !(grp.id <= element.id) {
        return Fail(NotPartOfGroup);
      }
      AddRouteAgreesWithLookup(grp.id, element.id);
      match AddRoute(grp.id, element.id)
      case NoRemainder =>
        return Fail(EmptyRemainder(element.id));
      case ViaSubgroup(segment) =>
        var parent := GetElement(groups, g, grp.id + segment);
        if parent.Failure? {
          return Fail(parent.error);
        }
        if !parent.value.func.GroupFunction? {
          return Fail(ParentNotAGroup(parent.value.id));
        }
        ParentIsSubgroup(groups, g, segment);
        o := AddElement(parent.value.func.group, e);
      case Direct(key) =>
        if key in grp.elements {
          return Fail(AlreadyInGroup(element.id));
        }
        InsertWellformed(groups, g, key, element);
        groups := groups[g := Insert(grp, key, element)];
        o := Pass;
        forall h, ref | 0 <= h < |groups| && GetElement(old(groups), h, ref).Success?
          ensures GetElement(groups, h, ref) == GetElement(old(groups), h, ref)
        {
          InsertKeepsLookups(old(groups), g, key, element, h, ref);
        }
    }
  }
}
