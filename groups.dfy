/**
 * The Groups contract: named groups with a case-insensitive name index, and
 * per-(group, account) roles that gate joining, leaving, kicking, promoting
 * and the read-only membership check other contracts call.
 */
module Groups {
  import opened Primitives
  import opened InkEnv
  import opened Text
  import opened GroupsErrors

  // === ROLES ===

  datatype Role = Banned | Applicant | Member | Admin | SuperAdmin {
    /** `Role::to_int`: the rank every authorisation rule compares. */
    function ToInt(): (n: U8)
      ensures n <= 4
      ensures n == 0 <==> this == Banned
      ensures n == 4 <==> this == SuperAdmin
    {
      match this
      case Banned => 0
      case Applicant => 1
      case Member => 2
      case Admin => 3
      case SuperAdmin => 4
    }
  }

  /** The role of a given rank; the inverse of `ToInt` (it is also how a role is decoded). */
  function RoleOfInt(n: int): (r: Option<Role>)
    ensures r.Some? <==> 0 <= n <= 4
  {
    if n == 0 then Some(Banned)
    else if n == 1 then Some(Applicant)
    else if n == 2 then Some(Member)
    else if n == 3 then Some(Admin)
    else if n == 4 then Some(SuperAdmin)
    else None
  }

  /** Roles and ranks 0..4 correspond one to one. */
  lemma RoleIntRoundTrip(r: Role, n: int)
    ensures RoleOfInt(r.ToInt()) == Some(r)
    ensures RoleOfInt(n).Some? ==> RoleOfInt(n).value.ToInt() == n
  {
  }

  /** `a` ranks at or above `b`. */
  predicate AtLeast(a: Role, b: Role) {
    a.ToInt() >= b.ToInt()
  }

  /** Comparing by rank is a total order from Banned up to SuperAdmin. */
  lemma RoleOrderIsTotal(a: Role, b: Role, c: Role)
    ensures AtLeast(a, b) || AtLeast(b, a)
    ensures AtLeast(a, b) && AtLeast(b, a) ==> a == b
    ensures AtLeast(a, b) && AtLeast(b, c) ==> AtLeast(a, c)
    ensures AtLeast(SuperAdmin, a) && AtLeast(a, Banned)
  {
  }

  // === RECORDS ===

  datatype Group = Group(id: U32, name: string, enabled: bool)

  datatype GroupUser = GroupUser(role: Role)

  // === NAME HELPERS ===

  /** `format_group_name`: the stored form of a name is its trimmed form. */
  function FormatGroupName(name: string): (r: string)
    ensures Trim(r) == r
    ensures r == [] <==> AllWhitespace(name)
  {
    TrimIdempotent(name);
    TrimEmptyIffAllWhitespace(name);
    Trim(name)
  }

  /** `validate_group_name_presence`. */
  function ValidateGroupNamePresence(name: string): (r: Result<(), GroupsError>)
    ensures r.Ok? <==> name != []
    ensures r.Err? ==> r.error == UnprocessableEntity("Name can't be blank")
  {
    if name == [] then Err(UnprocessableEntity("Name can't be blank")) else Ok(())
  }

  /** The index key of a (formatted) name. */
  function NameKey(name: string): string {
    ToLower(name)
  }

  // === STATE INVARIANTS, ON VALUES ===

  /**
   * Ids 0..total-1 are exactly the stored groups; every stored name is
   * formatted and non-empty; the name index maps each group's key to its id
   * and holds no other key.
   */
  ghost predicate IndexConsistent(groups: map<U32, Group>, index: map<string, U32>, total: int) {
    && (forall id: U32 :: id in groups <==> id < total)
    && (forall id :: id in groups ==>
          groups[id].id == id && Trim(groups[id].name) == groups[id].name && groups[id].name != [])
    && (forall id :: id in groups ==> NameKey(groups[id].name) in index && index[NameKey(groups[id].name)] == id)
    && (forall k :: k in index ==> index[k] in groups && NameKey(groups[index[k]].name) == k)
  }

  /** Memberships only exist for existing groups. */
  ghost predicate MembersInGroups(groups: map<U32, Group>, users: map<(U32, AccountId), GroupUser>) {
    forall k :: k in users ==> k.0 in groups
  }

  ghost predicate HasSuperAdmin(users: map<(U32, AccountId), GroupUser>, g: U32) {
    exists a: AccountId :: (g, a) in users && users[(g, a)].role == SuperAdmin
  }

  /** No group is ever left without a SuperAdmin. */
  ghost predicate EveryGroupLed(groups: map<U32, Group>, users: map<(U32, AccountId), GroupUser>) {
    forall g :: g in groups ==> HasSuperAdmin(users, g)
  }

  /** Two groups with the same key are the same group. */
  lemma NameKeysUnique(groups: map<U32, Group>, index: map<string, U32>, total: int, i: U32, j: U32)
    requires IndexConsistent(groups, index, total)
    requires i in groups && j in groups
    requires NameKey(groups[i].name) == NameKey(groups[j].name)
    ensures i == j
  {
  }

  /** Adding group `total` under a fresh key keeps the index consistent. */
  lemma CreateKeepsIndexConsistent(groups: map<U32, Group>, index: map<string, U32>, total: U32, name: string)
    requires IndexConsistent(groups, index, total)
    requires total < U32_MAX
    requires Trim(name) == name && name != [] && NameKey(name) !in index
    ensures IndexConsistent(groups[total := Group(total, name, true)], index[NameKey(name) := total], total + 1)
  {
  }

  /**
   * Renaming group `id` (removing its old key, adding the new one) keeps the
   * index consistent when the new key is the old key or is not taken.
   */
  lemma RenameKeepsIndexConsistent(groups: map<U32, Group>, index: map<string, U32>, total: int,
                                   id: U32, name: string, enabled: bool)
    requires IndexConsistent(groups, index, total)
    requires id in groups
    requires Trim(name) == name && name != []
    requires NameKey(name) == NameKey(groups[id].name) || NameKey(name) !in index
    ensures IndexConsistent(groups[id := Group(id, name, enabled)],
                            (index - {NameKey(groups[id].name)})[NameKey(name) := id], total)
  {
    var groups', index' := groups[id := Group(id, name, enabled)], (index - {NameKey(groups[id].name)})[NameKey(name) := id];
    forall k | k in index' ensures index'[k] in groups' && NameKey(groups'[index'[k]].name) == k {
      if k != NameKey(name) {
        assert index[k] != id;
      }
    }
    forall j | j in groups' ensures NameKey(groups'[j].name) in index' && index'[NameKey(groups'[j].name)] == j {
      if j != id {
        assert NameKey(groups[j].name) != NameKey(groups[id].name);
      }
    }
  }

  /** The whole of the contract's storage invariant, on values. */
  ghost predicate GroupsInvariant(groups: map<U32, Group>, index: map<string, U32>, total: int,
                                  users: map<(U32, AccountId), GroupUser>) {
    IndexConsistent(groups, index, total) && MembersInGroups(groups, users) && EveryGroupLed(groups, users)
  }

  /** `groups_create`'s writes keep the storage invariant, the creator leading the new group. */
  lemma CreateKeepsInvariant(groups: map<U32, Group>, index: map<string, U32>, total: U32,
                             users: map<(U32, AccountId), GroupUser>, name: string, caller: AccountId)
    requires GroupsInvariant(groups, index, total, users)
    requires total < U32_MAX
    requires Trim(name) == name && name != [] && NameKey(name) !in index
    ensures GroupsInvariant(groups[total := Group(total, name, true)], index[NameKey(name) := total], total + 1,
                            users[(total, caller) := GroupUser(SuperAdmin)])
  {
    CreateKeepsIndexConsistent(groups, index, total, name);
    var groups', users' := groups[total := Group(total, name, true)], users[(total, caller) := GroupUser(SuperAdmin)];
    forall h | h in groups' ensures HasSuperAdmin(users', h) {
      if h == total {
        assert (h, caller) in users' && users'[(h, caller)].role == SuperAdmin;
      } else {
        var b :| (h, b) in users && users[(h, b)].role == SuperAdmin;
        assert (h, b) != (total, caller);
        assert (h, b) in users' && users'[(h, b)].role == SuperAdmin;
      }
    }
  }

  /** `groups_update`'s writes keep the storage invariant. */
  lemma UpdateKeepsInvariant(groups: map<U32, Group>, index: map<string, U32>, total: int,
                             users: map<(U32, AccountId), GroupUser>, id: U32, name: string, enabled: bool)
    requires GroupsInvariant(groups, index, total, users)
    requires id in groups
    requires Trim(name) == name && name != []
    requires NameKey(name) == NameKey(groups[id].name) || NameKey(name) !in index
    ensures GroupsInvariant(groups[id := Group(id, name, enabled)],
                            (index - {NameKey(groups[id].name)})[NameKey(name) := id], total, users)
  {
    RenameKeepsIndexConsistent(groups, index, total, id, name, enabled);
    assert groups[id := Group(id, name, enabled)].Keys == groups.Keys;
  }

  // === AUTHORISATION RULES ===

  /**
   * `group_users_destroy`'s rule: leaving oneself needs a rank other than 0
   * and 4; removing someone else needs rank at least 3 and at least the
   * target's rank.
   */
  predicate MayDestroy(isSelf: bool, callerRole: Role, targetRole: Role) {
    if isSelf then callerRole.ToInt() != 4 && callerRole.ToInt() != 0
    else !(callerRole.ToInt() < 3 || callerRole.ToInt() < targetRole.ToInt())
  }

  /** Self-leave succeeds exactly for Applicant, Member and Admin. */
  lemma SelfLeaveBoundary(r: Role)
    ensures MayDestroy(true, r, r) <==> r in {Applicant, Member, Admin}
    ensures !MayDestroy(true, r, r) <==> r in {Banned, SuperAdmin}
  {
  }

  /** A kick needs an Admin or SuperAdmin caller ranked at least as high as the target. */
  lemma KickAuthority(rc: Role, rt: Role)
    ensures MayDestroy(false, rc, rt) <==> AtLeast(rc, Admin) && AtLeast(rc, rt)
    ensures MayDestroy(false, SuperAdmin, rt)
    ensures MayDestroy(false, Admin, rt) <==> rt != SuperAdmin
    ensures MayDestroy(false, rc, rt) && AtLeast(rt, SuperAdmin) ==> rc == SuperAdmin
  {
  }

  /**
   * `group_users_update`'s role checks, in their order: the caller ranks at
   * least 3, at least the target, and at least the new role.
   */
  predicate MayUpdateRole(callerRole: Role, targetRole: Role, newRole: Role) {
    callerRole.ToInt() >= 3 && callerRole.ToInt() >= targetRole.ToInt() && newRole.ToInt() <= callerRole.ToInt()
  }

  /** Nobody can grant a role above their own: an Admin can never create a SuperAdmin. */
  lemma PromotionCeiling(rc: Role, rt: Role, n: Role)
    ensures MayUpdateRole(rc, rt, n) ==> AtLeast(rc, n) && AtLeast(rc, Admin)
    ensures !MayUpdateRole(Admin, rt, SuperAdmin)
    ensures !MayUpdateRole(rc, SuperAdmin, n) || rc == SuperAdmin
  {
  }

  /** Joining adds a fresh Applicant record, which cannot take away a SuperAdmin. */
  lemma JoinKeepsGroupsLed(groups: map<U32, Group>, users: map<(U32, AccountId), GroupUser>, g: U32, a: AccountId)
    requires EveryGroupLed(groups, users)
    requires (g, a) !in users
    ensures EveryGroupLed(groups, users[(g, a) := GroupUser(Applicant)])
  {
    var users' := users[(g, a) := GroupUser(Applicant)];
    forall h | h in groups ensures HasSuperAdmin(users', h) {
      var b :| (h, b) in users && users[(h, b)].role == SuperAdmin;
      assert (h, b) in users' && users'[(h, b)].role == SuperAdmin;
    }
  }

  /**
   * A permitted leave or kick never removes a group's last SuperAdmin: a
   * SuperAdmin cannot leave, and only another SuperAdmin can kick one.
   */
  lemma DestroyKeepsGroupsLed(groups: map<U32, Group>, users: map<(U32, AccountId), GroupUser>,
                              g: U32, caller: AccountId, target: AccountId)
    requires EveryGroupLed(groups, users)
    requires (g, caller) in users && (g, target) in users
    requires MayDestroy(caller == target, users[(g, caller)].role, users[(g, target)].role)
    ensures EveryGroupLed(groups, users - {(g, target)})
  {
    var users' := users - {(g, target)};
    forall h | h in groups ensures HasSuperAdmin(users', h) {
      var b :| (h, b) in users && users[(h, b)].role == SuperAdmin;
      if (h, b) == (g, target) {
        assert caller != target;
        assert (h, caller) in users' && users'[(h, caller)].role == SuperAdmin;
      } else {
        assert (h, b) in users' && users'[(h, b)].role == SuperAdmin;
      }
    }
  }

  /** A permitted role change never demotes a group's last SuperAdmin. */
  lemma UpdateKeepsGroupsLed(groups: map<U32, Group>, users: map<(U32, AccountId), GroupUser>,
                             g: U32, caller: AccountId, target: AccountId, newRole: Role)
    requires EveryGroupLed(groups, users)
    requires caller != target
    requires (g, caller) in users && (g, target) in users
    requires MayUpdateRole(users[(g, caller)].role, users[(g, target)].role, newRole)
    ensures EveryGroupLed(groups, users[(g, target) := GroupUser(newRole)])
  {
    var users' := users[(g, target) := GroupUser(newRole)];
    forall h | h in groups ensures HasSuperAdmin(users', h) {
      var b :| (h, b) in users && users[(h, b)].role == SuperAdmin;
      if (h, b) == (g, target) {
        assert (h, caller) in users' && users'[(h, caller)].role == SuperAdmin;
      } else {
        assert (h, b) in users' && users'[(h, b)].role == SuperAdmin;
      }
    }
  }

  // === STORAGE AND QUERIES ===

  /** The contract's storage: `groups`, `group_id_by_name`, `groups_total`, `group_users`. */
  datatype GroupsState = GroupsState(
    groups: map<U32, Group>,
    groupIdByName: map<string, U32>,
    groupsTotal: U32,
    groupUsers: map<(U32, AccountId), GroupUser>)
  {
    ghost predicate Valid() {
      GroupsInvariant(groups, groupIdByName, groupsTotal, groupUsers)
    }
  }

  /** What a handler returns, together with the storage it leaves behind. */
  datatype Step<T> = Step(result: Result<T, GroupsError>, post: GroupsState)

  /** `groups_show`; in a valid state the group found under `id` carries `id`. */
  function GroupsShow(s: GroupsState, id: U32): (r: Result<Group, GroupsError>)
    ensures r.Ok? <==> id in s.groups
    ensures r.Ok? ==> r.value == s.groups[id]
    ensures r.Err? ==> r.error == NotFound("Group")
    ensures s.Valid() && r.Ok? ==> r.value.id == id && id < s.groupsTotal
  {
    if id in s.groups then Ok(s.groups[id]) else Err(NotFound("Group"))
  }

  /** `group_users_show`. */
  function GroupUsersShow(s: GroupsState, groupId: U32, user: AccountId): (r: Result<GroupUser, GroupsError>)
    ensures r.Ok? <==> (groupId, user) in s.groupUsers
    ensures r.Ok? ==> r.value == s.groupUsers[(groupId, user)]
    ensures r.Err? ==> r.error == NotFound("GroupUser")
    ensures s.Valid() && r.Ok? ==> groupId in s.groups
  {
    if (groupId, user) in s.groupUsers then Ok(s.groupUsers[(groupId, user)]) else Err(NotFound("GroupUser"))
  }

  /** `groups_find_by_name`: lower-cases the argument (it does not trim it) and looks the key up. */
  function GroupsFindByName(s: GroupsState, name: string): (r: Result<Group, GroupsError>)
    ensures NameKey(name) !in s.groupIdByName ==> r == Err(NotFound("Group"))
    ensures r.Err? ==> r.error == NotFound("Group")
    ensures s.Valid() ==> (r.Ok? <==> NameKey(name) in s.groupIdByName)
    ensures s.Valid() && r.Ok? ==> r.value in s.groups.Values && NameKey(r.value.name) == NameKey(name)
  {
    if NameKey(name) in s.groupIdByName then GroupsShow(s, s.groupIdByName[NameKey(name)])
    else Err(NotFound("Group"))
  }

  /** In a valid state every group is found by any spelling of its name with the same key. */
  lemma FindByNameFindsEveryGroup(s: GroupsState, id: U32, name: string)
    requires s.Valid()
    requires id in s.groups && NameKey(name) == NameKey(s.groups[id].name)
    ensures GroupsFindByName(s, name) == Ok(s.groups[id])
  {
  }

  /**
   * Every index key is already lower-case, so `groups_find_by_name` given a
   * key straight from the index finds that key's group.
   */
  lemma IndexKeysAreOwnKeys(s: GroupsState, key: string)
    requires s.Valid() && key in s.groupIdByName
    ensures NameKey(key) == key
    ensures GroupsFindByName(s, key) == Ok(s.groups[s.groupIdByName[key]])
  {
    ToLowerIdempotent(s.groups[s.groupIdByName[key]].name);
  }

  /**
   * `validate_membership`: the first failure among a missing group, a
   * disabled group, a missing membership and a rank below Member; otherwise
   * the member's role.
   */
  function ValidateMembership(s: GroupsState, groupId: U32, user: AccountId): (r: Result<Role, GroupsError>)
    ensures groupId !in s.groups ==> r == Err(NotFound("Group"))
    ensures groupId in s.groups && !s.groups[groupId].enabled ==> r == Err(GroupDisabled)
    ensures (groupId in s.groups && s.groups[groupId].enabled && (groupId, user) !in s.groupUsers) ==>
      r == Err(NotFound("GroupUser"))
    ensures (groupId in s.groups && s.groups[groupId].enabled && (groupId, user) in s.groupUsers
             && !AtLeast(s.groupUsers[(groupId, user)].role, Member)) ==> r == Err(NotAMember)
    ensures r.Ok? <==> groupId in s.groups && s.groups[groupId].enabled && (groupId, user) in s.groupUsers
                       && AtLeast(s.groupUsers[(groupId, user)].role, Member)
    ensures r.Ok? ==> r.value == s.groupUsers[(groupId, user)].role && r.value in {Member, Admin, SuperAdmin}
  {
    match GroupsShow(s, groupId)
    case Err(e) => Err(e)
    case Ok(group) =>
      if !group.enabled then Err(GroupDisabled)
      else
        match GroupUsersShow(s, groupId, user)
        case Err(e) => Err(e)
        case Ok(groupUser) =>
          if groupUser.role.ToInt() < 2 then Err(NotAMember) else Ok(groupUser.role)
  }

  /** `validate_group_name_uniqueness`. */
  function ValidateGroupNameUniqueness(s: GroupsState, key: string): (r: Result<(), GroupsError>)
    ensures r.Ok? <==> key !in s.groupIdByName
    ensures r.Err? ==> r.error == UnprocessableEntity("Group has already been taken")
  {
    if key in s.groupIdByName then Err(UnprocessableEntity("Group has already been taken")) else Ok(())
  }

  // === HANDLERS, AS FUNCTIONS OF THE STORAGE ===

  /**
   * `groups_create`: blank name, then capacity, then a taken key, each
   * leaving storage alone; on success group `groups_total` is stored enabled
   * under its trimmed name and indexed, the caller becomes its SuperAdmin
   * and the counter moves on by one.
   */
  function GroupsCreateStep(s: GroupsState, caller: AccountId, name: string): (o: Step<Group>)
    ensures o.result.Err? ==> o.post == s
    ensures Trim(name) == [] ==> o.result == Err(UnprocessableEntity("Name can't be blank"))
    ensures Trim(name) != [] && s.groupsTotal == U32_MAX ==> o.result == Err(UnprocessableEntity("Group limit reached"))
    ensures (Trim(name) != [] && s.groupsTotal < U32_MAX && NameKey(Trim(name)) in s.groupIdByName) ==>
      o.result == Err(UnprocessableEntity("Group has already been taken"))
    ensures o.result.Ok? <==> Trim(name) != [] && s.groupsTotal < U32_MAX && NameKey(Trim(name)) !in s.groupIdByName
    ensures o.result.Ok? ==>
      && o.result.value == Group(s.groupsTotal, Trim(name), true)
      && o.post.groups == s.groups[s.groupsTotal := o.result.value]
      && o.post.groupIdByName == s.groupIdByName[NameKey(Trim(name)) := s.groupsTotal]
      && o.post.groupsTotal == s.groupsTotal + 1
      && o.post.groupUsers == s.groupUsers[(s.groupsTotal, caller) := GroupUser(SuperAdmin)]
  {
    var formattedName := FormatGroupName(name);
    if ValidateGroupNamePresence(formattedName).Err? then
      Step(Err(ValidateGroupNamePresence(formattedName).error), s)
    else if s.groupsTotal == U32_MAX then
      Step(Err(UnprocessableEntity("Group limit reached")), s)
    else if ValidateGroupNameUniqueness(s, NameKey(formattedName)).Err? then
      Step(Err(ValidateGroupNameUniqueness(s, NameKey(formattedName)).error), s)
    else
      var group := Group(s.groupsTotal, formattedName, true);
      Step(Ok(group), GroupsState(s.groups[group.id := group],
                                  s.groupIdByName[NameKey(formattedName) := group.id],
                                  s.groupsTotal + 1,
                                  s.groupUsers[(group.id, caller) := GroupUser(SuperAdmin)]))
  }

  /**
   * `groups_update`: a missing group, then the caller's membership, then the
   * SuperAdmin gate. A name that differs from the stored one is trimmed,
   * must be non-empty and, if its key changes, untaken; the old key is
   * dropped and the new key indexed. `enabled` is always overwritten.
   */
  function GroupsUpdateStep(s: GroupsState, caller: AccountId, id: U32, name: string, enabled: bool)
    : (o: Step<Group>)
    ensures o.result.Err? ==> o.post == s
    ensures id !in s.groups ==> o.result == Err(NotFound("Group"))
    ensures id in s.groups && (id, caller) !in s.groupUsers ==> o.result == Err(NotFound("GroupUser"))
    ensures (id in s.groups && (id, caller) in s.groupUsers && s.groupUsers[(id, caller)].role != SuperAdmin) ==>
      o.result == Err(Unauthorised)
    ensures (id in s.groups && (id, caller) in s.groupUsers && s.groupUsers[(id, caller)].role == SuperAdmin
             && s.groups[id].name != name) ==>
      && (Trim(name) == [] ==> o.result == Err(UnprocessableEntity("Name can't be blank")))
      && ((Trim(name) != [] && NameKey(Trim(name)) != NameKey(s.groups[id].name)
           && NameKey(Trim(name)) in s.groupIdByName) ==> o.result == Err(UnprocessableEntity("Group has already been taken")))
    ensures o.result.Ok? <==>
      && id in s.groups && (id, caller) in s.groupUsers && s.groupUsers[(id, caller)].role == SuperAdmin
      && (s.groups[id].name == name
          || (Trim(name) != [] && (NameKey(Trim(name)) == NameKey(s.groups[id].name)
                                   || NameKey(Trim(name)) !in s.groupIdByName)))
    ensures o.result.Ok? ==>
      && o.result.value == s.groups[id].(name := if s.groups[id].name == name then name else Trim(name), enabled := enabled)
      && o.post.groups == s.groups[id := o.result.value]
      && o.post.groupIdByName == (if s.groups[id].name == name then s.groupIdByName
                                  else (s.groupIdByName - {NameKey(s.groups[id].name)})[NameKey(Trim(name)) := id])
      && o.post.groupsTotal == s.groupsTotal && o.post.groupUsers == s.groupUsers
  {
    if GroupsShow(s, id).Err? then Step(Err(GroupsShow(s, id).error), s)
    else if GroupUsersShow(s, id, caller).Err? then Step(Err(GroupUsersShow(s, id, caller).error), s)
    else if GroupUsersShow(s, id, caller).value.role != SuperAdmin then Step(Err(Unauthorised), s)
    else
      var group := GroupsShow(s, id).value;
      if group.name == name then
        var updated := group.(enabled := enabled);
        Step(Ok(updated), s.(groups := s.groups[id := updated]))
      else
        var nameFormatted := FormatGroupName(name);
        var newKey, oldKey := NameKey(nameFormatted), NameKey(group.name);
        if ValidateGroupNamePresence(nameFormatted).Err? then
          Step(Err(ValidateGroupNamePresence(nameFormatted).error), s)
        else if newKey != oldKey && ValidateGroupNameUniqueness(s, newKey).Err? then
          Step(Err(ValidateGroupNameUniqueness(s, newKey).error), s)
        else
          var updated := group.(name := nameFormatted, enabled := enabled);
          Step(Ok(updated), s.(groups := s.groups[id := updated],
                               groupIdByName := (s.groupIdByName - {oldKey})[newKey := id]))
  }

  /**
   * `group_users_create`: the group must exist and the caller must have no
   * record in it at all (a Banned record counts); the caller joins as an
   * Applicant and nothing else changes.
   */
  function GroupUsersCreateStep(s: GroupsState, caller: AccountId, groupId: U32): (o: Step<GroupUser>)
    ensures o.result.Err? ==> o.post == s
    ensures groupId !in s.groups ==> o.result == Err(NotFound("Group"))
    ensures groupId in s.groups && (groupId, caller) in s.groupUsers ==>
      o.result == Err(UnprocessableEntity("Group user has already been taken"))
    ensures o.result.Ok? <==> groupId in s.groups && (groupId, caller) !in s.groupUsers
    ensures o.result.Ok? ==>
      && o.result.value == GroupUser(Applicant)
      && o.post == s.(groupUsers := s.groupUsers[(groupId, caller) := GroupUser(Applicant)])
  {
    if GroupsShow(s, groupId).Err? then Step(Err(GroupsShow(s, groupId).error), s)
    else if (groupId, caller) in s.groupUsers then
      Step(Err(UnprocessableEntity("Group user has already been taken")), s)
    else
      Step(Ok(GroupUser(Applicant)), s.(groupUsers := s.groupUsers[(groupId, caller) := GroupUser(Applicant)]))
  }

  /**
   * `group_users_destroy`: the caller's record, then the target's, must
   * exist; the leave or kick must be allowed by `MayDestroy`; then exactly
   * the target's record is removed.
   */
  function GroupUsersDestroyStep(s: GroupsState, caller: AccountId, groupId: U32, user: AccountId)
    : (o: Step<()>)
    ensures o.result.Err? ==> o.post == s
    ensures (groupId, caller) !in s.groupUsers ==> o.result == Err(NotFound("GroupUser"))
    ensures (groupId, caller) in s.groupUsers && (groupId, user) !in s.groupUsers ==>
      o.result == Err(NotFound("GroupUser"))
    ensures (groupId, caller) in s.groupUsers && (groupId, user) in s.groupUsers ==>
      && (o.result.Ok? <==> MayDestroy(caller == user, s.groupUsers[(groupId, caller)].role,
                                       s.groupUsers[(groupId, user)].role))
      && (o.result.Err? ==> o.result.error == Unauthorised)
    ensures o.result.Ok? ==> o.post == s.(groupUsers := s.groupUsers - {(groupId, user)})
  {
    if GroupUsersShow(s, groupId, caller).Err? then Step(Err(GroupUsersShow(s, groupId, caller).error), s)
    else if GroupUsersShow(s, groupId, user).Err? then Step(Err(GroupUsersShow(s, groupId, user).error), s)
    else
      var callerRoleAsInt := GroupUsersShow(s, groupId, caller).value.role.ToInt();
      var userRoleAsInt := GroupUsersShow(s, groupId, user).value.role.ToInt();
      if caller == user && (callerRoleAsInt == 4 || callerRoleAsInt == 0) then Step(Err(Unauthorised), s)
      else if caller != user && (callerRoleAsInt < 3 || callerRoleAsInt < userRoleAsInt) then Step(Err(Unauthorised), s)
      else Step(Ok(()), s.(groupUsers := s.groupUsers - {(groupId, user)}))
  }

  /**
   * `group_users_update`: self-change first, then the caller's record, an
   * Admin rank, the target's record, outranking the target, and not granting
   * above oneself; then exactly the target's role changes.
   */
  function GroupUsersUpdateStep(s: GroupsState, caller: AccountId, groupId: U32, user: AccountId, role: Role)
    : (o: Step<GroupUser>)
    ensures o.result.Err? ==> o.post == s
    ensures caller == user ==> o.result == Err(Unauthorised)
    ensures caller != user && (groupId, caller) !in s.groupUsers ==> o.result == Err(NotFound("GroupUser"))
    ensures (caller != user && (groupId, caller) in s.groupUsers
             && s.groupUsers[(groupId, caller)].role.ToInt() < 3) ==> o.result == Err(Unauthorised)
    ensures (caller != user && (groupId, caller) in s.groupUsers
             && s.groupUsers[(groupId, caller)].role.ToInt() >= 3 && (groupId, user) !in s.groupUsers) ==>
      o.result == Err(NotFound("GroupUser"))
    ensures (caller != user && (groupId, caller) in s.groupUsers && (groupId, user) in s.groupUsers
             && s.groupUsers[(groupId, caller)].role.ToInt() >= 3
             && s.groupUsers[(groupId, caller)].role.ToInt() < s.groupUsers[(groupId, user)].role.ToInt()) ==>
      o.result == Err(Unauthorised)
    ensures (caller != user && (groupId, caller) in s.groupUsers && (groupId, user) in s.groupUsers
             && s.groupUsers[(groupId, caller)].role.ToInt() >= 3
             && s.groupUsers[(groupId, caller)].role.ToInt() >= s.groupUsers[(groupId, user)].role.ToInt()
             && role.ToInt() > s.groupUsers[(groupId, caller)].role.ToInt()) ==>
      o.result == Err(Unauthorised)
    ensures o.result.Ok? <==>
      caller != user && (groupId, caller) in s.groupUsers && (groupId, user) in s.groupUsers
      && MayUpdateRole(s.groupUsers[(groupId, caller)].role, s.groupUsers[(groupId, user)].role, role)
    ensures o.result.Ok? ==>
      && o.result.value == GroupUser(role)
      && o.post == s.(groupUsers := s.groupUsers[(groupId, user) := GroupUser(role)])
  {
    if caller == user then Step(Err(Unauthorised), s)
    else if GroupUsersShow(s, groupId, caller).Err? then Step(Err(GroupUsersShow(s, groupId, caller).error), s)
    else
      var callerRoleAsInt := GroupUsersShow(s, groupId, caller).value.role.ToInt();
      if callerRoleAsInt < 3 then Step(Err(Unauthorised), s)
      else if GroupUsersShow(s, groupId, user).Err? then Step(Err(GroupUsersShow(s, groupId, user).error), s)
      else if callerRoleAsInt < GroupUsersShow(s, groupId, user).value.role.ToInt() then Step(Err(Unauthorised), s)
      else if role.ToInt() > callerRoleAsInt then Step(Err(Unauthorised), s)
      else
        var updated := GroupUsersShow(s, groupId, user).value.(role := role);
        Step(Ok(updated), s.(groupUsers := s.groupUsers[(groupId, user) := updated]))
  }

  // === WHAT THE HANDLERS PRESERVE ===

  lemma GroupsCreateKeepsValid(s: GroupsState, caller: AccountId, name: string)
    requires s.Valid()
    ensures GroupsCreateStep(s, caller, name).post.Valid()
  {
    if GroupsCreateStep(s, caller, name).result.Ok? {
      CreateKeepsInvariant(s.groups, s.groupIdByName, s.groupsTotal, s.groupUsers, Trim(name), caller);
    }
  }

  lemma GroupsUpdateKeepsValid(s: GroupsState, caller: AccountId, id: U32, name: string, enabled: bool)
    requires s.Valid()
    ensures GroupsUpdateStep(s, caller, id, name, enabled).post.Valid()
  {
    var o := GroupsUpdateStep(s, caller, id, name, enabled);
    if o.result.Ok? {
      var newName := o.result.value.name;
      if s.groups[id].name == name {
        assert (s.groupIdByName - {NameKey(newName)})[NameKey(newName) := id] == s.groupIdByName;
      }
      UpdateKeepsInvariant(s.groups, s.groupIdByName, s.groupsTotal, s.groupUsers, id, newName, enabled);
    }
  }

  lemma GroupUsersCreateKeepsValid(s: GroupsState, caller: AccountId, groupId: U32)
    requires s.Valid()
    ensures GroupUsersCreateStep(s, caller, groupId).post.Valid()
  {
    if GroupUsersCreateStep(s, caller, groupId).result.Ok? {
      JoinKeepsGroupsLed(s.groups, s.groupUsers, groupId, caller);
    }
  }

  lemma GroupUsersDestroyKeepsValid(s: GroupsState, caller: AccountId, groupId: U32, user: AccountId)
    requires s.Valid()
    ensures GroupUsersDestroyStep(s, caller, groupId, user).post.Valid()
  {
    if GroupUsersDestroyStep(s, caller, groupId, user).result.Ok? {
      DestroyKeepsGroupsLed(s.groups, s.groupUsers, groupId, caller, user);
    }
  }

  lemma GroupUsersUpdateKeepsValid(s: GroupsState, caller: AccountId, groupId: U32, user: AccountId, role: Role)
    requires s.Valid()
    ensures GroupUsersUpdateStep(s, caller, groupId, user, role).post.Valid()
  {
    if GroupUsersUpdateStep(s, caller, groupId, user, role).result.Ok? {
      UpdateKeepsGroupsLed(s.groups, s.groupUsers, groupId, caller, user, role);
    }
  }

  /**
   * Right after creating a group the creator is its SuperAdmin, passes the
   * membership check, and the group is found by its trimmed name.
   */
  lemma CreatorIsSuperAdmin(s: GroupsState, caller: AccountId, name: string)
    requires s.Valid()
    requires GroupsCreateStep(s, caller, name).result.Ok?
    ensures var o := GroupsCreateStep(s, caller, name);
      && GroupUsersShow(o.post, o.result.value.id, caller) == Ok(GroupUser(SuperAdmin))
      && ValidateMembership(o.post, o.result.value.id, caller) == Ok(SuperAdmin)
      && GroupsFindByName(o.post, Trim(name)) == Ok(o.result.value)
  {
    GroupsCreateKeepsValid(s, caller, name);
  }

  /**
   * After a rename the group is found under its new name, and no longer
   * under the old one when the key changed.
   */
  lemma RenameMovesKey(s: GroupsState, caller: AccountId, id: U32, name: string, enabled: bool)
    requires s.Valid()
    requires GroupsUpdateStep(s, caller, id, name, enabled).result.Ok?
    ensures var o := GroupsUpdateStep(s, caller, id, name, enabled);
      && GroupsFindByName(o.post, o.result.value.name) == Ok(o.result.value)
      && (NameKey(o.result.value.name) != NameKey(s.groups[id].name) ==>
            GroupsFindByName(o.post, s.groups[id].name) == Err(NotFound("Group")))
  {
    GroupsUpdateKeepsValid(s, caller, id, name, enabled);
  }

  /** Once a name is taken, any name with the same trimmed lower-case key is refused. */
  lemma CreateRefusesSameKey(s: GroupsState, c1: AccountId, c2: AccountId, n1: string, n2: string)
    requires GroupsCreateStep(s, c1, n1).result.Ok? && s.groupsTotal + 1 < U32_MAX
    requires Trim(n2) != [] && NameKey(Trim(n1)) == NameKey(Trim(n2))
    ensures GroupsCreateStep(GroupsCreateStep(s, c1, n1).post, c2, n2).result
            == Err(UnprocessableEntity("Group has already been taken"))
  {
  }

  // === THE CONTRACT ===

  class AZGroups {
    var groups: map<U32, Group>
    var groupIdByName: map<string, U32>
    var groupsTotal: U32
    var groupUsers: map<(U32, AccountId), GroupUser>

    function State(): GroupsState
      reads this
    {
      GroupsState(groups, groupIdByName, groupsTotal, groupUsers)
    }

    ghost predicate Valid()
      reads this
    {
      State().Valid()
    }

    /** `new`: no groups, no memberships. */
    constructor ()
      ensures Valid()
      ensures State() == GroupsState(map[], map[], 0, map[])
    {
      groups, groupIdByName, groupsTotal, groupUsers := map[], map[], 0, map[];
    }

    method GroupsCreate(caller: AccountId, name: string) returns (r: Result<Group, GroupsError>)
      modifies this
      ensures Step(r, State()) == GroupsCreateStep(old(State()), caller, name)
    {
      var formattedName := FormatGroupName(name);
      var presence := ValidateGroupNamePresence(formattedName);
      if presence.Err? {
        return Err(presence.error);
      }
      if groupsTotal == U32_MAX {
        return Err(UnprocessableEntity("Group limit reached"));
      }
      var key := NameKey(formattedName);
      var uniqueness := ValidateGroupNameUniqueness(State(), key);
      if uniqueness.Err? {
        return Err(uniqueness.error);
      }
      var group := Group(groupsTotal, formattedName, true);
      groups := groups[group.id := group];
      groupIdByName := groupIdByName[key := group.id];
      groupUsers := groupUsers[(group.id, caller) := GroupUser(SuperAdmin)];
      groupsTotal := groupsTotal + 1;
      r := Ok(group);
    }

    method GroupsUpdate(caller: AccountId, id: U32, name: string, enabled: bool) returns (r: Result<Group, GroupsError>)
      modifies this
      ensures Step(r, State()) == GroupsUpdateStep(old(State()), caller, id, name, enabled)
    {
      var found := GroupsShow(State(), id);
      if found.Err? {
        return Err(found.error);
      }
      var group := found.value;
      var callerGroupUser := GroupUsersShow(State(), id, caller);
      if callerGroupUser.Err? {
        return Err(callerGroupUser.error);
      }
      if callerGroupUser.value.role != SuperAdmin {
        return Err(Unauthorised);
      }
      if group.name != name {
        var nameFormatted := FormatGroupName(name);
        var presence := ValidateGroupNamePresence(nameFormatted);
        if presence.Err? {
          return Err(presence.error);
        }
        var newKey := NameKey(nameFormatted);
        var oldKey := NameKey(group.name);
        if newKey != oldKey {
          var uniqueness := ValidateGroupNameUniqueness(State(), newKey);
          if uniqueness.Err? {
            return Err(uniqueness.error);
          }
        }
        groupIdByName := groupIdByName - {oldKey};
        group := group.(name := nameFormatted);
        groupIdByName := groupIdByName[newKey := id];
      }
      group := group.(enabled := enabled);
      groups := groups[id := group];
      r := Ok(group);
    }

    method GroupUsersCreate(caller: AccountId, groupId: U32) returns (r: Result<GroupUser, GroupsError>)
      modifies this
      ensures Step(r, State()) == GroupUsersCreateStep(old(State()), caller, groupId)
    {
      var found := GroupsShow(State(), groupId);
      if found.Err? {
        return Err(found.error);
      }
      if (groupId, caller) in groupUsers {
        return Err(UnprocessableEntity("Group user has already been taken"));
      }
      var groupUser := GroupUser(Applicant);
      groupUsers := groupUsers[(groupId, caller) := groupUser];
      r := Ok(groupUser);
    }

    method GroupUsersDestroy(caller: AccountId, groupId: U32, user: AccountId) returns (r: Result<(), GroupsError>)
      modifies this
      ensures Step(r, State()) == GroupUsersDestroyStep(old(State()), caller, groupId, user)
    {
      var callerGroupUser := GroupUsersShow(State(), groupId, caller);
      if callerGroupUser.Err? {
        return Err(callerGroupUser.error);
      }
      var userGroupUser := GroupUsersShow(State(), groupId, user);
      if userGroupUser.Err? {
        return Err(userGroupUser.error);
      }
      var callerRoleAsInt := callerGroupUser.value.role.ToInt();
      if caller == user {
        if callerRoleAsInt == 4 || callerRoleAsInt == 0 {
          return Err(Unauthorised);
        }
      } else if callerRoleAsInt < 3 || callerRoleAsInt < userGroupUser.value.role.ToInt() {
        return Err(Unauthorised);
      }
      groupUsers := groupUsers - {(groupId, user)};
      r := Ok(());
    }

    method GroupUsersUpdate(caller: AccountId, groupId: U32, user: AccountId, role: Role)
      returns (r: Result<GroupUser, GroupsError>)
      modifies this
      ensures Step(r, State()) == GroupUsersUpdateStep(old(State()), caller, groupId, user, role)
    {
      var roleAsInt := role.ToInt();
      if caller == user {
        return Err(Unauthorised);
      }
      var callerGroupUser := GroupUsersShow(State(), groupId, caller);
      if callerGroupUser.Err? {
        return Err(callerGroupUser.error);
      }
      var callerGroupUserAsInt := callerGroupUser.value.role.ToInt();
      if callerGroupUserAsInt < 3 {
        return Err(Unauthorised);
      }
      var userGroupUser := GroupUsersShow(State(), groupId, user);
      if userGroupUser.Err? {
        return Err(userGroupUser.error);
      }
      if callerGroupUserAsInt < userGroupUser.value.role.ToInt() {
        return Err(Unauthorised);
      }
      if roleAsInt > callerGroupUserAsInt {
        return Err(Unauthorised);
      }
      var updated := userGroupUser.value.(role := role);
      groupUsers := groupUsers[(groupId, user) := updated];
      r := Ok(updated);
    }
  }

  // === A CLIENT OF THE CLASS ===

  /** One call of a Groups message, with its caller and arguments. */
  datatype Message =
    | CreateGroup(caller: AccountId, name: string)
    | UpdateGroup(caller: AccountId, id: U32, name: string, enabled: bool)
    | JoinGroup(caller: AccountId, groupId: U32)
    | RemoveUser(caller: AccountId, groupId: U32, user: AccountId)
    | ChangeRole(caller: AccountId, groupId: U32, user: AccountId, role: Role)

  /**
   * Answers `messages` in order on one contract instance. Whatever the
   * callers send and whichever calls fail, the storage invariant holds
   * after every call.
   */
  method Serve(g: AZGroups, messages: seq<Message>)
    requires g.Valid()
    modifies g
    ensures g.Valid()
  {
    for i := 0 to |messages|
      invariant g.Valid()
    {
      ghost var s := g.State();
      match messages[i]
      case CreateGroup(caller, name) =>
        var r := g.GroupsCreate(caller, name);
        GroupsCreateKeepsValid(s, caller, name);
      case UpdateGroup(caller, id, name, enabled) =>
        var r := g.GroupsUpdate(caller, id, name, enabled);
        GroupsUpdateKeepsValid(s, caller, id, name, enabled);
      case JoinGroup(caller, groupId) =>
        var r := g.GroupUsersCreate(caller, groupId);
        GroupUsersCreateKeepsValid(s, caller, groupId);
      case RemoveUser(caller, groupId, user) =>
        var r := g.GroupUsersDestroy(caller, groupId, user);
        GroupUsersDestroyKeepsValid(s, caller, groupId, user);
      case ChangeRole(caller, groupId, user, role) =>
        var r := g.GroupUsersUpdate(caller, groupId, user, role);
        GroupUsersUpdateKeepsValid(s, caller, groupId, user, role);
    }
  }
}
