/**
 The cache of user permissions (internal/handlers/cache.go). A user's permissions come from the
 role of its membership in an organization or, failing that, from its default role; they are
 cached per user and per user and organization. Every run of reads, role changes and user
 changes, each change followed by its invalidation, keeps the cache equal to a fresh load.
 */
module PermissionCache {
  import opened Wrappers

  type Id = nat

  datatype Permission = Permission(resource: string, action: string)

  datatype Role = Role(name: string, isSystem: bool, permissions: seq<Permission>)

  datatype UserRow = UserRow(id: Id, role: Option<Id>, superAdmin: bool, deleted: bool)

  datatype MemberRow = MemberRow(user: Id, org: Id, role: Option<Id>, deleted: bool)

  datatype Db = Db(users: seq<UserRow>, members: seq<MemberRow>, roles: map<Id, Role>)

  /** UserPermissions */
  datatype Grant = Grant(roleId: Id, roleName: string, isSystem: bool, superAdmin: bool, permissions: seq<string>)

  datatype Key = Base(user: Id) | InOrg(user: Id, org: Id)

  // ----- A fresh load -----

  /** The first live row, if any, as First finds it. */
  function FindUser(users: seq<UserRow>, u: Id): Option<UserRow> {
    if users == [] then None
    else if users[0].id == u && !users[0].deleted then Some(users[0])
    else FindUser(users[1..], u)
  }

  function FindMember(members: seq<MemberRow>, u: Id, o: Id): Option<MemberRow> {
    if members == [] then None
    else if members[0].user == u && members[0].org == o && !members[0].deleted then Some(members[0])
    else FindMember(members[1..], u, o)
  }

  /** The membership's role; without a membership or without a role in it, the user's default role. */
  function RoleOf(db: Db, user: UserRow, key: Key): Option<Id> {
    match key
    case Base(_) => user.role
    case InOrg(u, o) =>
      var member := FindMember(db.members, u, o);
      if member.Some? && member.value.role.Some? then member.value.role else user.role
  }

  function Written(ps: seq<Permission>): seq<string> {
    seq(|ps|, i requires 0 <= i < |ps| => ps[i].resource + ":" + ps[i].action)
  }

  function Load(db: Db, key: Key): Option<Grant> {
    var user := FindUser(db.users, key.user);
    if user.None? then None
    else
      var roleId := RoleOf(db, user.value, key);
      if roleId.None? || roleId.value !in db.roles then None
      else
        var role := db.roles[roleId.value];
        Some(Grant(roleId.value, role.name, role.isSystem, user.value.superAdmin, Written(role.permissions)))
  }

  // ----- The cache -----

  /** Every entry is what a fresh load gives. */
  ghost predicate Coherent(entries: map<Key, Grant>, db: Db) {
    forall key :: key in entries ==> Load(db, key) == Some(entries[key])
  }

  function WithoutUser(entries: map<Key, Grant>, u: Id): map<Key, Grant> {
    map key | key in entries && key.user != u :: entries[key]
  }

  function WithoutUsers(entries: map<Key, Grant>, us: set<Id>): map<Key, Grant> {
    map key | key in entries && key.user !in us :: entries[key]
  }

  function DefaultHolders(db: Db, r: Id): set<Id> {
    set row | row in db.users && !row.deleted && row.role == Some(r) :: row.id
  }

  function MemberHolders(db: Db, r: Id): set<Id> {
    set row | row in db.members && !row.deleted && row.role == Some(r) :: row.user
  }

  /** Who holds a role: by default, or through a live membership. */
  function Holders(db: Db, r: Id): set<Id> { DefaultHolders(db, r) + MemberHolders(db, r) }

  /** Those that the invalidation finds. */
  function Found(db: Db, r: Id, usersFail: bool, membersFail: bool): set<Id> {
    (if usersFail then {} else DefaultHolders(db, r)) + (if membersFail then {} else MemberHolders(db, r))
  }

  /** A live row of the user with the role as default, or a live membership in it, that a query returned. */
  predicate IsFound(db: Db, r: Id, usersFail: bool, membersFail: bool, u: Id) {
    || (!usersFail && exists i :: 0 <= i < |db.users|
                        && db.users[i].id == u && db.users[i].role == Some(r) && !db.users[i].deleted)
    || (!membersFail && exists i :: 0 <= i < |db.members|
                          && db.members[i].user == u && db.members[i].role == Some(r) && !db.members[i].deleted)
  }

  lemma FoundIff(db: Db, r: Id, usersFail: bool, membersFail: bool)
    ensures forall u :: u in Found(db, r, usersFail, membersFail) <==> IsFound(db, r, usersFail, membersFail, u)
  {
  }

  /** The cached permissions of single roles. */
  function LoadRole(db: Db, r: Id): Option<seq<string>> {
    if r in db.roles then Some(Written(db.roles[r].permissions)) else None
  }

  ghost predicate RolesCoherent(entries: map<Id, seq<string>>, db: Db) {
    forall r :: r in entries ==> LoadRole(db, r) == Some(entries[r])
  }

  class Cache {
    var entries: map<Key, Grant>
    var roleEntries: map<Id, seq<string>>

    constructor ()
      ensures entries == map[] && roleEntries == map[]
    {
      entries, roleEntries := map[], map[];
    }

    /** The loop that writes the permissions as "resource:action". */
    static method WritePermissions(ps: seq<Permission>) returns (r: seq<string>)
      ensures r == Written(ps)
    {
      r := [];
      for i := 0 to |ps|
        invariant r == Written(ps[..i])
      {
        r := r + [ps[i].resource + ":" + ps[i].action];
      }
      assert ps[..|ps|] == ps;
    }

    /** getUserPermissionsCached: a hit is served, a miss is loaded and stored. */
    method Get(db: Db, key: Key) returns (r: Option<Grant>)
      modifies this`entries
      ensures r == if key in old(entries) then Some(old(entries)[key]) else Load(db, key)
      ensures entries == if key in old(entries) || r.None? then old(entries) else old(entries)[key := r.value]
      ensures Coherent(old(entries), db) ==> r == Load(db, key) && Coherent(entries, db)
    {
      if key in entries {
        return Some(entries[key]);
      }
      var user := FindUser(db.users, key.user);
      if user.None? {
        return None;
      }
      var roleId := user.value.role;
      if key.InOrg? {
        var member := FindMember(db.members, key.user, key.org);
        if member.Some? && member.value.role.Some? {
          roleId := member.value.role;
        }
      }
      if roleId.None? || roleId.value !in db.roles {
        return None;
      }
      var role := db.roles[roleId.value];
      var written := WritePermissions(role.permissions);
      var grant := Grant(roleId.value, role.name, role.isSystem, user.value.superAdmin, written);
      entries := entries[key := grant];
      return Some(grant);
    }

    /** InvalidateUserPermissionsCache deletes the base key and every key of the user's organizations. */
    method InvalidateUser(u: Id)
      modifies this`entries
      ensures entries == WithoutUser(old(entries), u)
      ensures forall key :: key in entries <==> key in old(entries) && key.user != u
      ensures forall key :: key in entries ==> entries[key] == old(entries)[key]
    {
      entries := map key | key in entries && key != Base(u) :: entries[key];
      entries := map key | key in entries && !(key.InOrg? && key.user == u) :: entries[key];
    }

    /** GetRolePermissionsCached */
    method GetRole(db: Db, r: Id) returns (ps: Option<seq<string>>)
      modifies this`roleEntries
      ensures ps == if r in old(roleEntries) then Some(old(roleEntries)[r]) else LoadRole(db, r)
      ensures roleEntries == if r in old(roleEntries) || ps.None? then old(roleEntries) else old(roleEntries)[r := ps.value]
      ensures RolesCoherent(old(roleEntries), db) ==> ps == LoadRole(db, r) && RolesCoherent(roleEntries, db)
    {
      if r in roleEntries {
        return Some(roleEntries[r]);
      }
      if r !in db.roles {
        return None;
      }
      var written := WritePermissions(db.roles[r].permissions);
      roleEntries := roleEntries[r := written];
      return Some(written);
    }

    /** InvalidateRolePermissionsCache; a query that fails finds nobody. */
    method InvalidateRole(db: Db, r: Id, usersFail: bool, membersFail: bool)
      modifies this
      ensures entries == WithoutUsers(old(entries), Found(db, r, usersFail, membersFail))
      ensures forall key :: key in entries <==> key in old(entries) && !IsFound(db, r, usersFail, membersFail, key.user)
      ensures forall key :: key in entries ==> entries[key] == old(entries)[key]
      ensures roleEntries == old(roleEntries) - {r}
    {
      FoundIff(db, r, usersFail, membersFail);
      hide IsFound;
      roleEntries := roleEntries - {r};
      var userIds := CollectHolders(db, r, usersFail, membersFail);
      var todo := userIds;
      while todo != {}
        invariant todo <= userIds
        invariant entries == WithoutUsers(old(entries), userIds - todo)
        invariant roleEntries == old(roleEntries) - {r}
        decreases todo
      {
        var u :| u in todo;
        InvalidateUser(u);
        todo := todo - {u};
      }
    }
  }

  /** The user-id set built from the two queries. */
  method CollectHolders(db: Db, r: Id, usersFail: bool, membersFail: bool) returns (userIds: set<Id>)
    ensures userIds == Found(db, r, usersFail, membersFail)
  {
    userIds := {};
    if !usersFail {
      for i := 0 to |db.users|
        invariant userIds == set row | row in db.users[..i] && !row.deleted && row.role == Some(r) :: row.id
      {
        var row := db.users[i];
        if !row.deleted && row.role == Some(r) {
          userIds := userIds + {row.id};
        }
      }
    }
    var byDefault := userIds;
    assert db.users[..|db.users|] == db.users;
    if !membersFail {
      for i := 0 to |db.members|
        invariant userIds == byDefault + set row | row in db.members[..i] && !row.deleted && row.role == Some(r) :: row.user
      {
        var row := db.members[i];
        if !row.deleted && row.role == Some(r) {
          userIds := userIds + {row.user};
        }
      }
    }
    assert db.members[..|db.members|] == db.members;
  }

  // ----- What a load grants -----

  predicate FirstUserAt(db: Db, u: Id, i: int) {
    && 0 <= i < |db.users| && db.users[i].id == u && !db.users[i].deleted
    && forall j :: 0 <= j < i ==> db.users[j].id != u || db.users[j].deleted
  }

  predicate LiveMember(row: MemberRow, key: Key) {
    key.InOrg? && row.user == key.user && row.org == key.org && !row.deleted
  }

  /** The key names an organization in which the user's first live membership has a role. */
  predicate MemberRoleAt(db: Db, key: Key, i: int, r: Id) {
    && 0 <= i < |db.members| && LiveMember(db.members[i], key) && db.members[i].role == Some(r)
    && forall j :: 0 <= j < i ==> !LiveMember(db.members[j], key)
  }

  /** The role that counts: the membership's, or else the default role of the user's row. */
  ghost predicate Decides(db: Db, key: Key, user: UserRow, r: Id) {
    || (exists i :: MemberRoleAt(db, key, i, r))
    || (user.role == Some(r) && forall i, q :: !MemberRoleAt(db, key, i, q))
  }

  predicate Grants(g: Grant, user: UserRow, r: Id, role: Role) {
    && g.roleId == r && g.roleName == role.name && g.isSystem == role.isSystem && g.superAdmin == user.superAdmin
    && |g.permissions| == |role.permissions|
    && forall p :: 0 <= p < |role.permissions| ==>
         g.permissions[p] == role.permissions[p].resource + ":" + role.permissions[p].action
  }

  lemma {:induction false} FirstUserFound(users: seq<UserRow>, u: Id)
    ensures match FindUser(users, u)
            case None => forall i :: 0 <= i < |users| ==> users[i].id != u || users[i].deleted
            case Some(row) => exists i :: FirstUserAt(Db(users, [], map[]), u, i) && row == users[i]
  {
    if users != [] {
      if users[0].id == u && !users[0].deleted {
        assert FirstUserAt(Db(users, [], map[]), u, 0);
      } else {
        FirstUserFound(users[1..], u);
        if FindUser(users[1..], u).Some? {
          var i :| FirstUserAt(Db(users[1..], [], map[]), u, i) && FindUser(users, u).value == users[1..][i];
          assert FirstUserAt(Db(users, [], map[]), u, i + 1);
        }
      }
    }
  }

  lemma {:induction false} FirstMemberFound(members: seq<MemberRow>, u: Id, o: Id)
    ensures var key := InOrg(u, o);
            match FindMember(members, u, o)
            case None => forall i :: 0 <= i < |members| ==> !LiveMember(members[i], key)
            case Some(row) => exists i :: 0 <= i < |members| && row == members[i] && LiveMember(members[i], key)
                                          && forall j :: 0 <= j < i ==> !LiveMember(members[j], key)
  {
    var key := InOrg(u, o);
    if members != [] && !LiveMember(members[0], key) {
      FirstMemberFound(members[1..], u, o);
      if FindMember(members[1..], u, o).Some? {
        var i :| 0 <= i < |members[1..]| && FindMember(members, u, o).value == members[1..][i] && LiveMember(members[1..][i], key)
                 && forall j :: 0 <= j < i ==> !LiveMember(members[1..][j], key);
        assert members[i + 1] == members[1..][i];
        forall j | 0 <= j < i + 1 ensures !LiveMember(members[j], key) {
          if j > 0 { assert members[j] == members[1..][j - 1]; }
        }
      }
    }
  }

  lemma RoleDecides(db: Db, key: Key, user: UserRow, r: Id)
    ensures RoleOf(db, user, key) == Some(r) <==> Decides(db, key, user, r)
  {
    if key.InOrg? {
      FirstMemberFound(db.members, key.user, key.org);
      hide FindMember;
      var found := FindMember(db.members, key.user, key.org);
      if found.Some? {
        var i :| 0 <= i < |db.members| && found.value == db.members[i] && LiveMember(db.members[i], key)
                 && forall j :: 0 <= j < i ==> !LiveMember(db.members[j], key);
        forall j: int, q: Id | MemberRoleAt(db, key, j, q) ensures j == i && found.value.role == Some(q) {
        }
        if found.value.role.Some? { assert MemberRoleAt(db, key, i, found.value.role.value); }
      }
    } else {
      assert forall i, q :: !MemberRoleAt(db, key, i, q);
    }
  }

  /**
   What a load grants, for every state of the tables: the role that counts for this key, with
   the permissions written "resource:action" in order, or nothing when the user or role is missing.
   */
  lemma LoadGrants(db: Db, key: Key, g: Grant)
    ensures Load(db, key) == Some(g) <==>
              exists i, r :: FirstUserAt(db, key.user, i) && Decides(db, key, db.users[i], r)
                          && r in db.roles && Grants(g, db.users[i], r, db.roles[r])
  {
    FirstUserFound(db.users, key.user);
    hide FindUser, RoleOf, Decides;
    var found := FindUser(db.users, key.user);
    if found.Some? {
      var i :| FirstUserAt(Db(db.users, [], map[]), key.user, i) && found.value == db.users[i];
      assert FirstUserAt(db, key.user, i);
      forall j | FirstUserAt(db, key.user, j) ensures j == i {
      }
      forall r: Id ensures RoleOf(db, found.value, key) == Some(r) <==> Decides(db, key, found.value, r) {
        RoleDecides(db, key, found.value, r);
      }
      if Load(db, key) == Some(g) {
        assert Decides(db, key, db.users[i], g.roleId);
      }
      if j, r :| FirstUserAt(db, key.user, j) && Decides(db, key, db.users[j], r)
                 && r in db.roles && Grants(g, db.users[j], r, db.roles[r]) {
        assert Written(db.roles[r].permissions) == g.permissions;
      }
    }
  }

  // ----- Invalidation is sufficient -----

  lemma {:induction false} FoundUser(users: seq<UserRow>, u: Id)
    ensures var f := FindUser(users, u); f.Some? ==> f.value in users && f.value.id == u && !f.value.deleted
  {
    if users != [] { FoundUser(users[1..], u); }
  }

  lemma {:induction false} FoundMember(members: seq<MemberRow>, u: Id, o: Id)
    ensures var f := FindMember(members, u, o);
            f.Some? ==> f.value in members && f.value.user == u && !f.value.deleted
  {
    if members != [] { FoundMember(members[1..], u, o); }
  }

  /** A load goes through a role only if its user holds that role. */
  lemma LoadThroughRole(db: Db, key: Key)
    ensures var user := FindUser(db.users, key.user);
            user.Some? && RoleOf(db, user.value, key).Some? ==> key.user in Holders(db, RoleOf(db, user.value, key).value)
  {
    FoundUser(db.users, key.user);
    if key.InOrg? { FoundMember(db.members, key.user, key.org); }
  }

  /** Only the row of role r differs. */
  ghost predicate RoleChanged(db: Db, db': Db, r: Id) {
    && db'.users == db.users && db'.members == db.members
    && (forall q :: q != r ==> (q in db.roles <==> q in db'.roles))
    && forall q :: q != r && q in db.roles && q in db'.roles ==> db'.roles[q] == db.roles[q]
  }

  /** Only rows of user u differ: its own, its memberships, their order among the others kept. */
  ghost predicate UserChanged(db: Db, db': Db, u: Id) {
    && db'.roles == db.roles
    && (forall v :: v != u ==> FindUser(db'.users, v) == FindUser(db.users, v))
    && forall v, o :: v != u ==> FindMember(db'.members, v, o) == FindMember(db.members, v, o)
  }

  /**
   After any change of a role (permissions, name, deletion) and the invalidation of its
   holders, every entry that is left agrees with a fresh load, also those of users that reach
   a role by falling back from their membership.
   */
  lemma RoleInvalidationSuffices(entries: map<Key, Grant>, db: Db, db': Db, r: Id)
    requires Coherent(entries, db) && RoleChanged(db, db', r)
    ensures Coherent(WithoutUsers(entries, Holders(db', r)), db')
  {
    var left := WithoutUsers(entries, Holders(db', r));
    forall key | key in left ensures Load(db', key) == Some(left[key]) {
      LoadThroughRole(db', key);
      assert Load(db, key) == Some(entries[key]);
    }
  }

  lemma UserInvalidationSuffices(entries: map<Key, Grant>, db: Db, db': Db, u: Id)
    requires Coherent(entries, db) && UserChanged(db, db', u)
    ensures Coherent(WithoutUser(entries, u), db')
  {
    var left := WithoutUser(entries, u);
    forall key | key in left ensures Load(db', key) == Some(left[key]) {
      assert Load(db, key) == Some(entries[key]);
      assert RoleOf(db', FindUser(db.users, key.user).value, key) == RoleOf(db, FindUser(db.users, key.user).value, key);
    }
  }

  lemma RoleEntryInvalidationSuffices(entries: map<Id, seq<string>>, db: Db, db': Db, r: Id)
    requires RolesCoherent(entries, db) && RoleChanged(db, db', r)
    ensures RolesCoherent(entries - {r}, db')
  {
    forall q | q in entries - {r} ensures LoadRole(db', q) == Some((entries - {r})[q]) {
      assert LoadRole(db, q) == Some(entries[q]);
    }
  }

  /** The row of role r was deleted, or its permissions, name or system flag changed. */
  predicate ReallyChanged(db: Db, db': Db, r: Id) {
    && r in db.roles
    && (r !in db'.roles
        || db'.roles[r].name != db.roles[r].name || db'.roles[r].isSystem != db.roles[r].isSystem
        || Written(db'.roles[r].permissions) != Written(db.roles[r].permissions))
  }

  lemma EntryNamesItsRole(db: Db, key: Key)
    requires Load(db, key).Some?
    ensures var r := Load(db, key).value.roleId;
            r in db.roles && RoleOf(db, FindUser(db.users, key.user).value, key) == Some(r) && key.user in Holders(db, r)
  {
    LoadThroughRole(db, key);
  }

  /** An entry is made stale by the change of role r exactly when it names that role. */
  lemma StaleIff(db: Db, db': Db, r: Id, key: Key)
    requires RoleChanged(db, db', r) && ReallyChanged(db, db', r) && Load(db, key).Some?
    ensures Load(db', key) != Load(db, key) <==> Load(db, key).value.roleId == r
  {
    hide Written;
    EntryNamesItsRole(db, key);
  }

  /**
   When a query of the invalidation fails after role r changed, coherence survives if and only
   if every cached entry that names r belongs to a user the invalidation still found.
   */
  lemma FailedInvalidationIff(entries: map<Key, Grant>, db: Db, db': Db, r: Id, usersFail: bool, membersFail: bool)
    requires Coherent(entries, db) && RoleChanged(db, db', r) && ReallyChanged(db, db', r)
    ensures Coherent(WithoutUsers(entries, Found(db', r, usersFail, membersFail)), db')
            <==> forall key :: key in entries && entries[key].roleId == r ==> key.user in Found(db', r, usersFail, membersFail)
  {
    hide Load, Found, ReallyChanged, RoleChanged;
    var left := WithoutUsers(entries, Found(db', r, usersFail, membersFail));
    forall key | key in entries ensures Load(db', key) == Some(entries[key]) <==> entries[key].roleId != r {
      assert Load(db, key) == Some(entries[key]);
      StaleIff(db, db', r, key);
    }
    assert forall key :: key in left <==> key in entries && key.user !in Found(db', r, usersFail, membersFail);
    assert forall key :: key in left ==> left[key] == entries[key];
  }

  // ----- Whole runs -----

  datatype Op =
    | Read(key: Key)
    | ReadRole(r: Id)
    | Expire(key: Key)              // the entry's time to live runs out
    | ExpireRole(r: Id)
    | ChangeRole(r: Id, after: Db)  // then InvalidateRolePermissionsCache
    | ChangeUser(u: Id, after: Db)  // then InvalidateUserPermissionsCache

  datatype World = World(db: Db, entries: map<Key, Grant>, roleEntries: map<Id, seq<string>>)

  function Filled(w: World, key: Key): map<Key, Grant> {
    if key in w.entries || Load(w.db, key).None? then w.entries else w.entries[key := Load(w.db, key).value]
  }

  function RoleFilled(w: World, r: Id): map<Id, seq<string>> {
    if r in w.roleEntries || LoadRole(w.db, r).None? then w.roleEntries else w.roleEntries[r := LoadRole(w.db, r).value]
  }

  function Step(w: World, op: Op): World {
    match op
    case Read(key) => w.(entries := Filled(w, key))
    case ReadRole(r) => w.(roleEntries := RoleFilled(w, r))
    case Expire(key) => w.(entries := map k | k in w.entries && k != key :: w.entries[k])
    case ExpireRole(r) => w.(roleEntries := w.roleEntries - {r})
    case ChangeRole(r, after) => World(after, WithoutUsers(w.entries, Holders(after, r)), w.roleEntries - {r})
    case ChangeUser(u, after) => w.(db := after, entries := WithoutUser(w.entries, u))
  }

  ghost predicate Proper(w: World, op: Op) {
    match op
    case ChangeRole(r, after) => RoleChanged(w.db, after, r)
    case ChangeUser(u, after) => UserChanged(w.db, after, u)
    case _ => true
  }

  function Run(db: Db, ops: seq<Op>): World {
    if ops == [] then World(db, map[], map[]) else Step(Run(db, ops[..|ops| - 1]), ops[|ops| - 1])
  }

  ghost predicate AllProper(db: Db, ops: seq<Op>) {
    ops == [] || (AllProper(db, ops[..|ops| - 1]) && Proper(Run(db, ops[..|ops| - 1]), ops[|ops| - 1]))
  }

  /** At the end of any run, whatever is cached is what a fresh load would give. */
  lemma {:induction false} RunsStayCoherent(db: Db, ops: seq<Op>)
    requires AllProper(db, ops)
    ensures Coherent(Run(db, ops).entries, Run(db, ops).db)
    ensures RolesCoherent(Run(db, ops).roleEntries, Run(db, ops).db)
  {
    if ops != [] {
      hide Load, Holders;
      var n := |ops| - 1;
      RunsStayCoherent(db, ops[..n]);
      var w := Run(db, ops[..n]);
      match ops[n]
      case Read(key) =>
      case ReadRole(r) =>
      case Expire(key) =>
      case ExpireRole(r) =>
      case ChangeRole(r, after) =>
        RoleInvalidationSuffices(w.entries, w.db, after, r);
        RoleEntryInvalidationSuffices(w.roleEntries, w.db, after, r);
      case ChangeUser(u, after) => UserInvalidationSuffices(w.entries, w.db, after, u);
    }
  }
}
