/** The mock server as it runs: user and group objects updated in place, ranges over maps in an
    arbitrary order, in-place sorting. Every handler is proved against its transition in Store. */
module Server {
  import opened Text
  import opened Sorting
  import opened Domain
  import opened Patch
  import opened Filter
  import opened Paging
  import opened Store

  class ScimUser {
    var schemas: seq<string>
    var id: string
    var userName: string
    var name: Name
    var emails: seq<Email>
    var active: bool
    var ext: Option<string>

    function Rec(): User
      reads this
    {
      User(schemas, id, userName, name, emails, active, ext)
    }

    constructor (u: User)
      ensures Rec() == u
    {
      schemas, id, userName, name := u.schemas, u.id, u.userName, u.name;
      emails, active, ext := u.emails, u.active, u.ext;
    }

    method SetRole(role: string) returns (ok: bool)
      modifies this`ext
      ensures Outcome(ext, ok) == Patch.SetRole(old(ext), role)
    {
      ok := KnownRole(role);
      if ok { ext := Some(role); }
    }

    /** `order` is the order in which the range over the operation's object goes. */
    method ApplyPatchOp(op: PatchOp, order: seq<string>) returns (ok: bool)
      requires IsRangeOrder(op, order)
      modifies this`ext
      ensures Outcome(ext, ok) == ApplyOp(old(ext), op, order)
    {
      if !IsRoleWrite(op.op) { return false; }
      if op.path != "" {
        if !IsRolePath(op.path) { return false; }
        var role := DecodeString(op.value);
        if role.None? { return false; }
        ok := SetRole(role.value);
        return;
      }
      var asObject := DecodeObject(op.value);
      if asObject.None? { return false; }
      var members := asObject.value;
      for i := 0 to |order|
        invariant ApplyMembers(old(ext), members, order) == ApplyMembers(ext, members, order[i..])
      {
        var key := order[i];
        if key != SCHEMA_NOTION_USER { return false; }
        var role := DecodeExtension(members[key]);
        if role.None? { return false; }
        ok := SetRole(role.value);
        if !ok { return; }
      }
      ok := true;
    }
  }

  /** The decoded body, completed in place the way the create handler does. */
  method Incoming(body: User, newId: string) returns (incoming: ScimUser)
    ensures fresh(incoming) && incoming.Rec() == Registered(body, newId)
  {
    incoming := new ScimUser(body);
    incoming.id := newId;
    incoming.schemas := [SCHEMA_USER_CORE, SCHEMA_NOTION_USER];
    if incoming.ext.None? { incoming.ext := Some(MEMBER); }
  }

  class ScimGroup {
    var id: string
    var displayName: string
    var members: seq<string>

    function Rec(): Group
      reads this
    {
      Group(id, displayName, members)
    }

    constructor (g: Group)
      ensures Rec() == g
    {
      id, displayName, members := g.id, g.displayName, g.members;
    }
  }

  method RemoveMember(members: seq<string>, removeId: string) returns (out: seq<string>)
    ensures out == FilterMembers(members, removeId)
  {
    out := [];
    for i := 0 to |members|
      invariant out == FilterMembers(members[..i], removeId)
    {
      assert members[..i + 1][..i] == members[..i];
      if members[i] != removeId { out := out + [members[i]]; }
    }
    assert members[..|members|] == members;
  }

  method FilterUsers(fold: CaseFold, users: seq<User>, filter: string) returns (r: Filtered<User>)
    ensures r == ApplyUserFilter(fold, users, filter)
  {
    if filter == "" { return Matches(users); }
    var parsed := ParseSimpleFilter(filter);
    if parsed.None? || parsed.value.op != "eq" { return Rejected; }
    r := MatchUsers(fold, users, parsed.value.attr, parsed.value.value);
  }

  method MatchUsers(fold: CaseFold, users: seq<User>, attr: string, value: string) returns (r: Filtered<User>)
    ensures r == if users != [] && !SupportedUserAttr(attr) then Rejected
                 else Matches(Select(users, u => UserMatches(fold, attr, value, u)))
  {
    ghost var p := (u: User) => UserMatches(fold, attr, value, u);
    var out := [];
    for i := 0 to |users|
      invariant i > 0 ==> SupportedUserAttr(attr)
      invariant out == Select(users[..i], p)
    {
      assert users[..i + 1][..i] == users[..i];
      var u := users[i];
      if attr == "email" || attr == "username" || attr == "userName" {
        if EqualFold(fold, u.userName, value) { out := out + [u]; }
      } else if attr == "given_name" {
        if u.name.given == value { out := out + [u]; }
      } else if attr == "family_name" {
        if u.name.family == value { out := out + [u]; }
      } else {
        return Rejected;
      }
    }
    assert users[..|users|] == users;
    r := Matches(out);
  }

  method FilterGroups(groups: seq<Group>, filter: string) returns (r: Filtered<Group>)
    ensures r == ApplyGroupFilter(groups, filter)
  {
    if filter == "" { return Matches(groups); }
    var parsed := ParseSimpleFilter(filter);
    if parsed.None? || parsed.value.op != "eq" || parsed.value.attr != "displayName" { return Rejected; }
    var value := parsed.value.value;
    ghost var p := (g: Group) => g.displayName == value;
    var out := [];
    for i := 0 to |groups|
      invariant out == Select(groups[..i], p)
    {
      assert groups[..i + 1][..i] == groups[..i];
      if groups[i].displayName == value { out := out + [groups[i]]; }
    }
    assert groups[..|groups|] == groups;
    r := Matches(out);
  }

  /** Ranging over a Go map of records, in whatever order. */
  method Collect<R(0)>(m: map<string, R>, ghost key: R -> string) returns (all: seq<R>)
    requires forall k :: k in m ==> key(m[k]) == k
    ensures Enumerates(m, key, all)
  {
    all := [];
    var rest := m.Keys;
    while rest != {}
      invariant rest <= m.Keys
      invariant Enumerates(m - rest, key, all)
      decreases rest
    {
      var k :| k in rest;
      EnumeratesOneMore(m, key, all, rest, k);
      rest := rest - {k};
      all := all + [m[k]];
    }
    assert m - rest == m;
  }

  /** ... then sorting the slice by ID. */
  method SortedRange<R(0, !new)>(m: map<string, R>, key: R -> string) returns (all: seq<R>)
    requires forall k :: k in m ==> key(m[k]) == k
    ensures all == Listing(m)
  {
    all := Collect(m, key);
    SortedRangeIsListing(m, key, all);
    var items := new R[|all|](i requires 0 <= i < |all| => all[i]);
    assert items[..] == all;
    StableSort(items, ByKey(key));
    all := items[..];
  }

  lemma EnumeratesOneMore<R>(m: map<string, R>, key: R -> string, s: seq<R>, rest: set<string>, k: string)
    requires k in rest && rest <= m.Keys && key(m[k]) == k
    requires Enumerates(m - rest, key, s)
    ensures Enumerates(m - (rest - {k}), key, s + [m[k]])
  {
    var t := s + [m[k]];
    forall x | x in m - (rest - {k}) ensures exists i :: 0 <= i < |t| && key(t[i]) == x {
      if x == k {
        assert key(t[|s|]) == k;
      } else {
        assert x in m - rest;
        var i :| 0 <= i < |s| && key(s[i]) == x;
        assert t[i] == s[i];
      }
    }
  }

  /** The body of the list handlers: collect, sort, filter, cut out the page. */
  method AnswerUsers(fold: CaseFold, users: map<string, User>, q: Query) returns (reply: ListReply<User>)
    requires forall id :: id in users ==> users[id].id == id
    ensures reply == ListUsers(fold, users, q)
  {
    var all := SortedRange(users, UserKey());
    var filtered := FilterUsers(fold, all, Get(q, "filter"));
    reply := Paged(filtered, q);
  }

  method AnswerGroups(groups: map<string, Group>, q: Query) returns (reply: ListReply<Group>)
    requires forall id :: id in groups ==> groups[id].id == id
    ensures reply == ListGroups(groups, q)
  {
    var all := SortedRange(groups, GroupKey());
    var filtered := FilterGroups(all, Get(q, "filter"));
    reply := Paged(filtered, q);
  }

  /** The objects hold what the abstract store says. Each carries the ID it is filed under, so no
      two entries share an object and an update in place touches one entry only. */
  ghost predicate UsersHold(users: map<string, ScimUser>, recs: map<string, User>)
    reads users.Values
  {
    && users.Keys == recs.Keys
    && (forall id :: id in users ==> users[id].Rec() == recs[id] && recs[id].id == id)
  }

  ghost predicate GroupsHold(groups: map<string, ScimGroup>, recs: map<string, Group>)
    reads groups.Values
  {
    && groups.Keys == recs.Keys
    && (forall id :: id in groups ==> groups[id].Rec() == recs[id] && recs[id].id == id)
  }

  class ScimServer {
    var users: map<string, ScimUser>
    var groups: map<string, ScimGroup>
    const fold: CaseFold

    /** The abstract store, and every user ID given out so far. */
    ghost var world: World

    ghost predicate Valid()
      reads this, users.Values, groups.Values
    {
      && UsersHold(users, world.store.users)
      && GroupsHold(groups, world.store.groups)
      && users.Keys <= world.issued
    }

    constructor (fold: CaseFold)
      ensures Valid() && this.fold == fold
      ensures fresh(users.Values) && fresh(groups.Values)
      ensures world == SeedWorld()
    {
      this.fold := fold;
      users, groups := map[], map[];
      new;
      Load(SeedUsers());
    }

    method Load(people: seq<User>)
      requires users == map[] && |people| == 5
      modifies this`users, this`groups, this`world
      ensures Valid()
      ensures fresh(users.Values) && fresh(groups.Values)
      ensures world == World(SeedOf(people), SeedOf(people).users.Keys)
    {
      SeedPeople(people);
      SeedBothGroups(Ids(people));
      world := World(SeedOf(people), SeedOf(people).users.Keys);
    }

    method SeedPeople(people: seq<User>)
      requires users == map[]
      modifies this`users
      ensures fresh(users.Values)
      ensures UsersHold(users, Indexed(people))
    {
      for i := 0 to |people|
        invariant forall id :: id in users ==> fresh(users[id])
        invariant UsersHold(users, Indexed(people[..i]))
      {
        assert people[..i + 1][..i] == people[..i];
        var u := new ScimUser(people[i]);
        users := users[u.id := u];
      }
      assert people[..|people|] == people;
    }

    method SeedBothGroups(ids: seq<string>)
      requires |ids| == 5
      modifies this`groups
      ensures fresh(groups.Values)
      ensures GroupsHold(groups, SeedGroups(ids))
    {
      var engineering := new ScimGroup(Group(ENGINEERING, "Engineering", [ids[0], ids[2], ids[3]]));
      var designers := new ScimGroup(Group(DESIGNERS, "Designers", [ids[1], ids[4]]));
      groups := map[ENGINEERING := engineering, DESIGNERS := designers];
    }

    method HandleGetUser(id: string) returns (reply: UserReply)
      requires Valid()
      ensures reply == GetUser(world.store, id)
    {
      if id !in users { return UserReply(NotFound, None); }
      reply := UserReply(OK, Some(users[id].Rec()));
    }

    method HandleGetGroup(id: string) returns (group: Option<Group>)
      requires Valid()
      ensures group == if id in world.store.groups then Some(world.store.groups[id]) else None
    {
      if id !in groups { return None; }
      group := Some(groups[id].Rec());
    }

    method HandleListUsers(q: Query) returns (reply: ListReply<User>)
      requires Valid()
      ensures reply == ListUsers(fold, world.store.users, q)
    {
      var recs := map id | id in users :: users[id].Rec();
      assert recs == world.store.users;
      reply := AnswerUsers(fold, recs, q);
    }

    method HandleListGroups(q: Query) returns (reply: ListReply<Group>)
      requires Valid()
      ensures reply == ListGroups(world.store.groups, q)
    {
      var recs := map id | id in groups :: groups[id].Rec();
      assert recs == world.store.groups;
      reply := AnswerGroups(recs, q);
    }

    /** `newId` is the UUID the server draws; it has never been given out before. */
    method HandleCreateUser(body: Option<User>, newId: string) returns (reply: UserReply)
      requires Valid() && newId !in world.issued
      modifies this`users, this`world
      ensures Valid()
      ensures (world.store, reply) == CreateUser(fold, old(world.store), body, newId)
      ensures world.issued == old(world.issued) + {newId}
    {
      var refusal := CheckNewUser(body);
      if refusal.Some? {
        DrawId(newId);
        return UserReply(refusal.value, None);
      }
      var user := Register(body.value, newId);
      reply := UserReply(Created, Some(user));
    }

    ghost method DrawId(newId: string)
      requires Valid()
      modifies this`world
      ensures Valid() && world == old(world).(issued := old(world.issued) + {newId})
    {
      world := world.(issued := world.issued + {newId});
    }

    method CheckNewUser(body: Option<User>) returns (refusal: Option<Status>)
      requires Valid()
      ensures Valid() && refusal == Refusal(fold, world.store, body)
    {
      if body.None? || Trim(body.value.userName, IsSpace) == "" { return Some(BadRequest); }
      var taken := UserNameInUse(body.value.userName);
      refusal := if taken then Some(Conflict) else None;
    }

    method UserNameInUse(userName: string) returns (taken: bool)
      requires Valid()
      ensures Valid() && taken == NameTaken(fold, world.store, userName)
    {
      var rest := users.Keys;
      while rest != {}
        invariant rest <= users.Keys
        invariant forall id :: id in users && id !in rest ==>
                    !EqualFold(fold, world.store.users[id].userName, userName)
        decreases rest
      {
        var id :| id in rest;
        if EqualFold(fold, users[id].userName, userName) { return true; }
        rest := rest - {id};
      }
      taken := false;
    }

    method Register(body: User, newId: string) returns (user: User)
      requires Valid() && newId !in world.issued
      modifies this`users, this`world
      ensures Valid() && user == Registered(body, newId)
      ensures world.store == old(world.store).(users := old(world.store.users)[newId := user])
      ensures world.issued == old(world.issued) + {newId}
    {
      var incoming := Incoming(body, newId);
      user := incoming.Rec();
      users := users[newId := incoming];
      world := World(world.store.(users := world.store.users[newId := user]), world.issued + {newId});
    }

    /** `orders` is how the ranges over the operations' objects go. */
    method HandlePatchUser(id: string, ops: Option<seq<PatchOp>>, orders: seq<seq<string>>)
      returns (reply: UserReply)
      requires Valid() && (ops.Some? ==> AreRangeOrders(ops.value, orders))
      modifies this`world, users.Values
      ensures Valid()
      ensures (world.store, reply) == PatchUser(old(world.store), id, ops, orders)
      ensures world.issued == old(world.issued)
    {
      if ops.None? { return UserReply(BadRequest, None); }
      if id !in users { return UserReply(NotFound, None); }
      var ok := PatchStored(id, ops.value, orders);
      reply := if ok then UserReply(OK, Some(users[id].Rec())) else UserReply(BadRequest, None);
    }

    method PatchStored(id: string, ops: seq<PatchOp>, orders: seq<seq<string>>) returns (ok: bool)
      requires Valid() && id in users && AreRangeOrders(ops, orders)
      modifies this`world, users.Values
      ensures Valid()
      ensures var o := ApplyOps(old(world.store.users[id].ext), ops, orders);
              && ok == o.ok
              && world.store == WithExt(old(world.store), id, o.ext)
      ensures world.issued == old(world.issued)
    {
      ok := PatchOne(users, world.store.users, id, users[id], ops, orders);
      world := world.(store := WithExt(world.store, id, users[id].ext));
    }

    method HandleDeleteUser(id: string) returns (status: Status)
      requires Valid()
      modifies this`users, this`world, groups.Values
      ensures Valid()
      ensures (world.store, status) == DeleteUser(old(world.store), id)
      ensures world.issued == old(world.issued)
    {
      if id !in users { return NotFound; }
      Unregister(id);
      LeaveGroups(id);
      status := NoContent;
    }

    method Unregister(id: string)
      requires Valid()
      modifies this`users, this`world
      ensures Valid()
      ensures world == old(world).(store := old(world.store).(users := old(world.store.users) - {id}))
    {
      users := users - {id};
      world := world.(store := world.store.(users := world.store.users - {id}));
    }

    method LeaveGroups(id: string)
      requires Valid()
      modifies this`world, groups.Values
      ensures Valid()
      ensures world == old(world).(store := old(world.store).(groups := WithoutMember(old(world.store.groups), id)))
    {
      ghost var before := world.store.groups;
      world := world.(store := world.store.(groups := WithoutMember(before, id)));
      RemoveFromGroups(groups, before, id);
    }
  }

  method RemoveFromGroups(groups: map<string, ScimGroup>, ghost recs: map<string, Group>, id: string)
    requires GroupsHold(groups, recs)
    modifies groups.Values
    ensures GroupsHold(groups, WithoutMember(recs, id))
  {
    var rest := groups.Keys;
    while rest != {}
      invariant rest <= groups.Keys
      invariant forall g :: g in rest ==> groups[g].Rec() == recs[g]
      invariant forall g :: g in groups && g !in rest ==> groups[g].Rec() == Without(recs[g], id)
      decreases rest
    {
      var k :| k in rest;
      var g := groups[k];
      g.members := RemoveMember(g.members, id);
      rest := rest - {k};
    }
  }

  /** The patch handler's loop over the operations of one request. */
  method PatchInPlace(u: ScimUser, ops: seq<PatchOp>, orders: seq<seq<string>>) returns (ok: bool)
    requires AreRangeOrders(ops, orders)
    modifies u`ext
    ensures Outcome(u.ext, ok) == ApplyOps(old(u.ext), ops, orders)
  {
    for i := 0 to |ops|
      invariant ApplyOps(old(u.ext), ops, orders) == ApplyOps(u.ext, ops[i..], orders[i..])
    {
      ok := u.ApplyPatchOp(ops[i], orders[i]);
      if !ok { return; }
    }
    ok := true;
  }

  /** Patching one object keeps the rest of the map as it was. */
  method PatchOne(ghost users: map<string, ScimUser>, ghost recs: map<string, User>,
                  ghost id: string, u: ScimUser, ops: seq<PatchOp>, orders: seq<seq<string>>)
    returns (ok: bool)
    requires UsersHold(users, recs) && id in users && users[id] == u
    requires AreRangeOrders(ops, orders)
    modifies u`ext
    ensures Outcome(u.ext, ok) == ApplyOps(recs[id].ext, ops, orders)
    ensures UsersHold(users, recs[id := recs[id].(ext := u.ext)])
  {
    ok := PatchInPlace(u, ops, orders);
    assert u.Rec() == recs[id].(ext := u.ext);
  }

  ghost function WithExt(st: StoreState, id: string, ext: Option<string>): StoreState
    requires id in st.users
  {
    st.(users := st.users[id := st.users[id].(ext := ext)])
  }
}
