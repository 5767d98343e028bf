/** src/stores/groupStore.ts: the groups the user sees, the open group and
    its members. The store keeps them in memory only; nothing is persisted. */
module GroupStore {
  import opened Optional
  import opened Arrays

  datatype GroupStatus = Active | Completed | Archived
  datatype GroupCategory = Trip | Event | Project | Club | Other
  datatype UserRole = Owner | Organizer | TeamLead | FinanceRep | Member | VendorRole

  /** A group; the timestamps are clock readings, the dates the text the
      form supplied. */
  datatype Group = Group(
    id: string,
    name: string,
    description: Option<string>,
    category: Option<GroupCategory>,
    startDate: Option<string>,
    endDate: Option<string>,
    location: Option<string>,
    ownerId: string,
    status: GroupStatus,
    createdAt: int,
    updatedAt: int)

  /** `Partial<Group>`, as updateGroup takes it: one Patch per key. */
  datatype GroupPatch = GroupPatch(
    id: Patch<string>,
    name: Patch<string>,
    description: Patch<Option<string>>,
    category: Patch<Option<GroupCategory>>,
    startDate: Patch<Option<string>>,
    endDate: Patch<Option<string>>,
    location: Patch<Option<string>>,
    ownerId: Patch<string>,
    status: Patch<GroupStatus>,
    createdAt: Patch<int>,
    updatedAt: Patch<int>)

  datatype GroupMember = GroupMember(id: string, groupId: string, userId: string, role: UserRole, joinedAt: int)

  function GroupIs(id: string): Group -> bool {
    (g: Group) => g.id == id
  }

  function GroupIsNot(id: string): Group -> bool {
    (g: Group) => g.id != id
  }

  /** `{ ...g, ...updates }`. */
  function PatchedGroup(g: Group, p: GroupPatch): Group {
    Group(Apply(p.id, g.id), Apply(p.name, g.name), Apply(p.description, g.description),
          Apply(p.category, g.category), Apply(p.startDate, g.startDate), Apply(p.endDate, g.endDate),
          Apply(p.location, g.location), Apply(p.ownerId, g.ownerId), Apply(p.status, g.status),
          Apply(p.createdAt, g.createdAt), Apply(p.updatedAt, g.updatedAt))
  }

  /** Merging the same update twice is merging it once. */
  lemma PatchedGroupIdempotent(g: Group, p: GroupPatch)
    ensures PatchedGroup(PatchedGroup(g, p), p) == PatchedGroup(g, p)
  {
  }

  /** updateGroup's map: the groups with that id take the update, every
      other group is kept as it was. */
  function GroupsUpdated(groups: seq<Group>, id: string, p: GroupPatch): (r: seq<Group>)
    ensures |r| == |groups|
    ensures forall i :: 0 <= i < |groups| && groups[i].id != id ==> r[i] == groups[i]
    ensures forall i :: 0 <= i < |groups| && groups[i].id == id ==> r[i] == PatchedGroup(groups[i], p)
  {
    MapIf(groups, GroupIs(id), (g: Group) => PatchedGroup(g, p))
  }

  /** An update of an id no group has changes nothing. */
  lemma UpdateUnknownGroup(groups: seq<Group>, id: string, p: GroupPatch)
    requires forall g :: g in groups ==> g.id != id
    ensures GroupsUpdated(groups, id, p) == groups
  {
    assert forall i :: 0 <= i < |groups| ==> groups[i] in groups;
  }

  /** The open group after updateGroup: it receives the same merge exactly
      when its id is the updated id, and is otherwise unchanged. */
  function CurrentAfterUpdate(current: Option<Group>, id: string, p: GroupPatch): (r: Option<Group>)
    ensures r.Some? <==> current.Some?
    ensures current.Some? && current.value.id == id ==> r == Some(PatchedGroup(current.value, p))
    ensures current.Some? && current.value.id != id ==> r == current
  {
    if current.Some? && current.value.id == id then Some(PatchedGroup(current.value, p)) else current
  }

  /** deleteGroup's filter: exactly the groups with that id go, the rest
      stay in order. */
  function GroupDeleted(groups: seq<Group>, id: string): (r: seq<Group>)
    ensures forall g :: g in r <==> g in groups && g.id != id
    ensures forall g :: multiset(r)[g] == if g.id != id then multiset(groups)[g] else 0
    ensures IsSubsequence(r, groups)
  {
    FilterMultiset(groups, GroupIsNot(id));
    FilterIsSubsequence(groups, GroupIsNot(id));
    Filter(groups, GroupIsNot(id))
  }

  /** The open group after deleteGroup: cleared exactly when it is the deleted
      group. */
  function CurrentAfterDelete(current: Option<Group>, id: string): (r: Option<Group>)
    ensures r.None? <==> current.None? || current.value.id == id
    ensures r.Some? ==> r == current
  {
    if current.Some? && current.value.id == id then None else current
  }

  /** The open group, when there is one, is one of the listed groups. */
  predicate CurrentListed(groups: seq<Group>, current: Option<Group>) {
    current.Some? ==> current.value in groups
  }

  /** addGroup keeps the open group one of the listed groups. */
  lemma CurrentListedAfterAdd(groups: seq<Group>, current: Option<Group>, added: Group)
    requires CurrentListed(groups, current)
    ensures CurrentListed(groups + [added], current)
  {
    if current.Some? {
      var k :| 0 <= k < |groups| && groups[k] == current.value;
      assert (groups + [added])[k] == current.value;
    }
  }

  /** updateGroup keeps the open group one of the listed groups: an updated
      open group is the updated list entry. */
  lemma CurrentListedAfterUpdate(groups: seq<Group>, current: Option<Group>, id: string, p: GroupPatch)
    requires CurrentListed(groups, current)
    ensures CurrentListed(GroupsUpdated(groups, id, p), CurrentAfterUpdate(current, id, p))
  {
    if current.Some? {
      var k :| 0 <= k < |groups| && groups[k] == current.value;
      assert GroupsUpdated(groups, id, p)[k] == CurrentAfterUpdate(current, id, p).value;
    }
  }

  /** deleteGroup keeps the open group one of the listed groups: a deleted
      open group is closed. */
  lemma CurrentListedAfterDelete(groups: seq<Group>, current: Option<Group>, id: string)
    requires CurrentListed(groups, current)
    ensures CurrentListed(GroupDeleted(groups, id), CurrentAfterDelete(current, id))
  {
  }

  /** Deleting a group just added under a fresh id restores the list. */
  lemma AddThenDeleteGroup(groups: seq<Group>, g: Group)
    requires forall x :: x in groups ==> x.id != g.id
    ensures GroupDeleted(groups + [g], g.id) == groups
  {
    FilterOutAppended(groups, g, GroupIsNot(g.id));
  }

  // ---------------------------------------------------------------------
  // The store
  // ---------------------------------------------------------------------

  class GroupState {
    var groups: seq<Group>
    var currentGroup: Option<Group>
    var members: seq<GroupMember>

    ghost predicate Valid() reads this {
      CurrentListed(groups, currentGroup)
    }

    /** The store starts with no groups, no open group and no members. */
    constructor ()
      ensures groups == [] && currentGroup == None && members == []
      ensures Valid()
    {
      groups, currentGroup, members := [], None, [];
    }

    /** `setGroups`: replaces the list. The open group is left as it was,
        listed or not. */
    method SetGroups(newGroups: seq<Group>)
      modifies this`groups
      ensures groups == newGroups
    {
      groups := newGroups;
    }

    /** `setCurrentGroup`: opens the group given, listed or not; opening a
        listed group (as the group page does) keeps the store valid. */
    method SetCurrentGroup(group: Option<Group>)
      modifies this`currentGroup
      ensures currentGroup == group
      ensures old(Valid()) && (group.None? || group.value in groups) ==> Valid()
    {
      currentGroup := group;
    }

    method SetMembers(newMembers: seq<GroupMember>)
      modifies this`members
      ensures members == newMembers
    {
      members := newMembers;
    }

    /** `addGroup`: appends the group at the end. */
    method AddGroup(group: Group)
      modifies this`groups
      ensures groups == old(groups) + [group]
      ensures old(Valid()) ==> Valid()
    {
      if Valid() {
        CurrentListedAfterAdd(groups, currentGroup, group);
      }
      groups := groups + [group];
    }

    /** `updateGroup`: merges the update into the listed groups with that id
        and into the open group when it has that id. */
    method UpdateGroup(id: string, p: GroupPatch)
      modifies this`groups, this`currentGroup
      ensures groups == GroupsUpdated(old(groups), id, p)
      ensures currentGroup == CurrentAfterUpdate(old(currentGroup), id, p)
      ensures old(Valid()) ==> Valid()
    {
      if Valid() {
        CurrentListedAfterUpdate(groups, currentGroup, id, p);
      }
      groups, currentGroup := GroupsUpdated(groups, id, p), CurrentAfterUpdate(currentGroup, id, p);
    }

    /** `deleteGroup`: removes the listed groups with that id and closes the
        open group when it has that id. */
    method DeleteGroup(id: string)
      modifies this`groups, this`currentGroup
      ensures groups == GroupDeleted(old(groups), id)
      ensures currentGroup == CurrentAfterDelete(old(currentGroup), id)
      ensures old(Valid()) ==> Valid()
    {
      groups, currentGroup := GroupDeleted(groups, id), CurrentAfterDelete(currentGroup, id);
    }
  }
}
