/** The mock's store as a state machine: one atomic transition per handler. */
module Store {
  import opened Text
  import opened Sorting
  import opened Domain
  import opened Patch
  import opened Filter
  import opened Paging

  datatype Status = OK | Created | NoContent | BadRequest | NotFound | Conflict

  datatype UserReply = UserReply(status: Status, user: Option<User>)

  /** A list reply; itemsPerPage is |items|. */
  datatype ListReply<+T> = Page(total: nat, startIndex: GoInt, items: seq<T>) | InvalidFilter

  // ---------- Handlers ----------

  function GetUser(st: StoreState, id: string): UserReply {
    if id in st.users then UserReply(OK, Some(st.users[id])) else UserReply(NotFound, None)
  }

  predicate NameTaken(fold: CaseFold, st: StoreState, userName: string) {
    exists id :: id in st.users && EqualFold(fold, st.users[id].userName, userName)
  }

  function Registered(body: User, newId: string): User {
    body.(id := newId,
          schemas := [SCHEMA_USER_CORE, SCHEMA_NOTION_USER],
          ext := if body.ext.None? then Some(MEMBER) else body.ext)
  }

  /** `body` is None when the request is not valid JSON. */
  function Refusal(fold: CaseFold, st: StoreState, body: Option<User>): Option<Status> {
    if body.None? || Trim(body.value.userName, IsSpace) == "" then Some(BadRequest)
    else if NameTaken(fold, st, body.value.userName) then Some(Conflict)
    else None
  }

  /** newId is the UUID the server draws. */
  function CreateUser(fold: CaseFold, st: StoreState, body: Option<User>, newId: string): (StoreState, UserReply) {
    var refusal := Refusal(fold, st, body);
    if refusal.Some? then (st, UserReply(refusal.value, None))
    else
      var u := Registered(body.value, newId);
      (st.(users := st.users[newId := u]), UserReply(Created, Some(u)))
  }

  /** A failing operation ends the request; what earlier ones did stays. */
  ghost function PatchUser(st: StoreState, id: string, ops: Option<seq<PatchOp>>, orders: seq<seq<string>>)
    : (StoreState, UserReply)
    requires ops.Some? ==> AreRangeOrders(ops.value, orders)
  {
    if ops.None? then (st, UserReply(BadRequest, None))
    else if id !in st.users then (st, UserReply(NotFound, None))
    else
      var o := ApplyOps(st.users[id].ext, ops.value, orders);
      var u := st.users[id].(ext := o.ext);
      (st.(users := st.users[id := u]),
       if o.ok then UserReply(OK, Some(u)) else UserReply(BadRequest, None))
  }

  function FilterMembers(members: seq<string>, removeId: string): seq<string> {
    Select(members, m => m != removeId)
  }

  function Without(g: Group, id: string): Group {
    g.(members := FilterMembers(g.members, id))
  }

  function WithoutMember(groups: map<string, Group>, id: string): map<string, Group> {
    map g | g in groups :: Without(groups[g], id)
  }

  function DeleteUser(st: StoreState, id: string): (StoreState, Status) {
    if id !in st.users then (st, NotFound)
    else (StoreState(st.users - {id}, WithoutMember(st.groups, id)), NoContent)
  }

  function Paged<T>(found: Filtered<T>, q: Query): ListReply<T> {
    match found
    case Rejected => InvalidFilter
    case Matches(items) =>
      var (start, perPage) := PaginationParams(q);
      Page(|items|, start, PageSlice(items, start, perPage))
  }

  ghost function ListUsers(fold: CaseFold, users: map<string, User>, q: Query): ListReply<User> {
    Paged(ApplyUserFilter(fold, Listing(users), Get(q, "filter")), q)
  }

  ghost function ListGroups(groups: map<string, Group>, q: Query): ListReply<Group> {
    Paged(ApplyGroupFilter(Listing(groups), Get(q, "filter")), q)
  }

  // ---------- Requests and runs ----------

  datatype Request =
    | Read
    | Create(body: Option<User>, newId: string)
    | Patch(id: string, ops: Option<seq<PatchOp>>, orders: seq<seq<string>>)
    | Delete(id: string)

  /** `issued` holds every user ID that has ever been given out. */
  datatype World = World(store: StoreState, issued: set<string>)

  ghost predicate CanServe(w: World, r: Request) {
    match r
    case Create(_, newId) => newId !in w.issued && UuidText(newId)
    case Patch(_, ops, orders) => ops.Some? ==> AreRangeOrders(ops.value, orders)
    case _ => true
  }

  ghost function Serve(fold: CaseFold, w: World, r: Request): World
    requires CanServe(w, r)
  {
    match r
    case Read => w
    case Create(body, newId) => World(CreateUser(fold, w.store, body, newId).0, w.issued + {newId})
    case Patch(id, ops, orders) => w.(store := PatchUser(w.store, id, ops, orders).0)
    case Delete(id) => w.(store := DeleteUser(w.store, id).0)
  }

  ghost predicate CanServeAll(fold: CaseFold, w: World, rs: seq<Request>)
    decreases rs
  {
    rs == [] || (CanServe(w, rs[0]) && CanServeAll(fold, Serve(fold, w, rs[0]), rs[1..]))
  }

  ghost function ServeAll(fold: CaseFold, w: World, rs: seq<Request>): World
    requires CanServeAll(fold, w, rs)
    decreases rs
  {
    if rs == [] then w else ServeAll(fold, Serve(fold, w, rs[0]), rs[1..])
  }

  // ---------- The invariant ----------

  ghost predicate KeysAreIds(st: StoreState) {
    && (forall id :: id in st.users ==> st.users[id].id == id)
    && (forall id :: id in st.groups ==> st.groups[id].id == id)
  }

  ghost predicate NamesDistinct(fold: CaseFold, st: StoreState) {
    forall a, b :: a in st.users && b in st.users && a != b ==>
      !EqualFold(fold, st.users[a].userName, st.users[b].userName)
  }

  ghost predicate MembersExist(st: StoreState) {
    forall g, i :: g in st.groups && 0 <= i < |st.groups[g].members| ==> st.groups[g].members[i] in st.users
  }

  ghost predicate Inv(fold: CaseFold, w: World) {
    && KeysAreIds(w.store)
    && NamesDistinct(fold, w.store)
    && MembersExist(w.store)
    && w.store.users.Keys <= w.issued
    && (forall id :: id in w.issued ==> UuidText(id))
    && GroupIdsAreUuids(w.store)
  }

  ghost predicate GroupIdsAreUuids(st: StoreState) {
    forall id :: id in st.groups ==> UuidText(id)
  }

  ghost predicate RolesKnown(st: StoreState) {
    forall id :: id in st.users ==> KnownRole(st.users[id].Role())
  }

  /** Which create requests are refused: a blank or missing name is a bad request, a name taken under
      case folding a conflict, and every other one goes through. */
  lemma CreateStatusMeans(fold: CaseFold, st: StoreState, body: User, newId: string)
    ensures var status := CreateUser(fold, st, Some(body), newId).1.status;
            var blank := forall i :: 0 <= i < |body.userName| ==> IsSpace(body.userName[i]);
            var taken := exists id :: id in st.users && EqualFold(fold, st.users[id].userName, body.userName);
            && (status == BadRequest <==> blank)
            && (status == Conflict <==> !blank && taken)
            && (status == Created <==> !blank && !taken)
  {
    BlankMeans(body.userName);
    RefusalMeans(fold, st, body);
  }

  lemma BlankMeans(s: string)
    ensures Trim(s, IsSpace) == "" <==> forall i :: 0 <= i < |s| ==> IsSpace(s[i])
  {
    var a, b := TrimMeaning(s, IsSpace);
  }

  lemma RefusalMeans(fold: CaseFold, st: StoreState, body: User)
    ensures var refusal := Refusal(fold, st, Some(body));
            && (refusal == Some(BadRequest) <==> Trim(body.userName, IsSpace) == "")
            && (refusal == Some(Conflict) <==> Trim(body.userName, IsSpace) != "" && NameTaken(fold, st, body.userName))
            && (refusal == None <==> Trim(body.userName, IsSpace) != "" && !NameTaken(fold, st, body.userName))
  {
  }

  /** What a create that goes through stores: the body as it came, under the drawn ID, with both schemas,
      and as a member if it carried no role extension. */
  lemma CreateEffect(fold: CaseFold, st: StoreState, body: User, newId: string)
    requires CreateUser(fold, st, Some(body), newId).1.status == Created
    ensures var (st', reply) := CreateUser(fold, st, Some(body), newId);
            && st'.groups == st.groups && st'.users.Keys == st.users.Keys + {newId}
            && (forall other :: other in st.users && other != newId ==> st'.users[other] == st.users[other])
            && reply.user == Some(st'.users[newId])
            && var u := st'.users[newId];
               && u.id == newId && u.userName == body.userName && u.name == body.name
               && u.emails == body.emails && u.active == body.active
               && u.schemas == ["urn:ietf:params:scim:schemas:core:2.0:User",
                                "urn:ietf:params:scim:schemas:extension:notion:2.0:User"]
               && u.ext == if body.ext == None then Some("member") else body.ext
  {
  }

  /** A create that is refused changes nothing. */
  lemma RefusedCreate(fold: CaseFold, st: StoreState, body: Option<User>, newId: string)
    requires CreateUser(fold, st, body, newId).1.status != Created
    ensures CreateUser(fold, st, body, newId).0 == st && CreateUser(fold, st, body, newId).1.user == None
    ensures body == None ==> CreateUser(fold, st, body, newId).1.status == BadRequest
  {
  }

  lemma EqualFoldSymmetric(fold: CaseFold, a: string, b: string)
    ensures EqualFold(fold, a, b) == EqualFold(fold, b, a)
  {
  }

  lemma CreateKeepsInv(fold: CaseFold, w: World, body: Option<User>, newId: string)
    requires Inv(fold, w) && CanServe(w, Create(body, newId))
    ensures Inv(fold, Serve(fold, w, Create(body, newId)))
  {
    var st' := CreateUser(fold, w.store, body, newId).0;
    if st' != w.store {
      var name := body.value.userName;
      forall a, b | a in st'.users && b in st'.users && a != b
        ensures !EqualFold(fold, st'.users[a].userName, st'.users[b].userName)
      {
        if a == newId { EqualFoldSymmetric(fold, name, st'.users[b].userName); }
      }
    }
  }

  lemma PatchKeepsInv(fold: CaseFold, w: World, id: string, ops: Option<seq<PatchOp>>, orders: seq<seq<string>>)
    requires Inv(fold, w) && CanServe(w, Patch(id, ops, orders))
    ensures Inv(fold, Serve(fold, w, Patch(id, ops, orders)))
  {
    var st' := PatchUser(w.store, id, ops, orders).0;
    assert st'.users.Keys == w.store.users.Keys;
    assert forall a :: a in st'.users ==> st'.users[a].userName == w.store.users[a].userName;
  }

  /** Deleting removes the user, and its ID from every group, keeping the other members in order; every other
      user is left as it was, and of a group everything else. An ID that is not stored changes nothing. */
  lemma DeleteEffect(st: StoreState, id: string)
    ensures id !in st.users ==> DeleteUser(st, id) == (st, NotFound)
    ensures id in st.users ==> DeleteUser(st, id).1 == NoContent
    ensures id in st.users ==>
              var st' := DeleteUser(st, id).0;
              && st'.users.Keys == st.users.Keys - {id}
              && (forall other :: other in st'.users ==> st'.users[other] == st.users[other])
              && st'.groups.Keys == st.groups.Keys
              && (forall g :: g in st.groups ==>
                    && st'.groups[g].id == st.groups[g].id
                    && st'.groups[g].displayName == st.groups[g].displayName
                    && id !in st'.groups[g].members
                    && st'.groups[g].members == Select(st.groups[g].members, m => m != id)
                    && (forall m :: m in st.groups[g].members && m != id ==> m in st'.groups[g].members)
                    && (forall m :: m in st'.groups[g].members ==> m in st.groups[g].members))
  {
    if id in st.users {
      forall g, m | g in st.groups
        ensures m in FilterMembers(st.groups[g].members, id) <==> m in st.groups[g].members && m != id
      {
        SelectMembers(st.groups[g].members, x => x != id, m);
      }
    }
  }

  // ---------- PATCH requests on the store ----------

  /** A user but for its role extension. */
  predicate SameButRole(u: User, v: User) {
    && u.schemas == v.schemas && u.id == v.id && u.userName == v.userName && u.name == v.name
    && u.emails == v.emails && u.active == v.active
  }

  /** Nothing changes but the role extension of that user. */
  predicate OnlyRoleOf(st: StoreState, st': StoreState, id: string) {
    && st'.groups == st.groups && st'.users.Keys == st.users.Keys
    && (forall other :: other in st.users && other != id ==> st'.users[other] == st.users[other])
    && (id in st.users ==> SameButRole(st'.users[id], st.users[id]))
  }

  lemma PatchTouches(st: StoreState, id: string, ops: seq<PatchOp>, orders: seq<seq<string>>)
    requires AreRangeOrders(ops, orders)
    ensures OnlyRoleOf(st, PatchUser(st, id, Some(ops), orders).0, id)
  {
  }

  /** A PATCH of any operations that stops at k: 404 for a missing user and 400 for a body that is no
      request, and nothing changes; otherwise nothing changes but that user's role extension, and the reply
      is 200 with the user as it then is, the last role set, exactly when no operation fails, else 400. */
  lemma PatchEffect(st: StoreState, id: string, ops: seq<PatchOp>, orders: seq<seq<string>>, k: nat)
    requires AreRangeOrders(ops, orders) && StopsAt(ops, k)
    ensures PatchUser(st, id, None, orders) == (st, UserReply(BadRequest, None))
    ensures OnlyRoleOf(st, PatchUser(st, id, Some(ops), orders).0, id)
    ensures var (st', reply) := PatchUser(st, id, Some(ops), orders);
            if id !in st.users then st' == st && reply == UserReply(NotFound, None)
            else if k < |ops| then reply == UserReply(BadRequest, None)
            else reply == UserReply(OK, Some(st'.users[id])) && st'.users[id].ext == LastSet(st.users[id].ext, ops)
  {
    PatchTouches(st, id, ops, orders);
    PatchAnswers(st, id, ops, orders, k);
  }

  lemma PatchAnswers(st: StoreState, id: string, ops: seq<PatchOp>, orders: seq<seq<string>>, k: nat)
    requires AreRangeOrders(ops, orders) && StopsAt(ops, k)
    ensures var (st', reply) := PatchUser(st, id, Some(ops), orders);
            if id !in st.users then st' == st && reply == UserReply(NotFound, None)
            else if k < |ops| then reply == UserReply(BadRequest, None)
            else id in st'.users && reply == UserReply(OK, Some(st'.users[id]))
                 && st'.users[id].ext == LastSet(st.users[id].ext, ops)
  {
    if id in st.users {
      PatchFollows(st, id, ops, orders);
      ManyOperations(st.users[id].ext, ops, orders, k);
      assert k == |ops| ==> ops[..k] == ops;
    }
  }

  /** The reply carries the user as stored, if the operations went through. */
  lemma PatchFollows(st: StoreState, id: string, ops: seq<PatchOp>, orders: seq<seq<string>>)
    requires AreRangeOrders(ops, orders) && id in st.users
    ensures var (st', reply) := PatchUser(st, id, Some(ops), orders);
            var o := ApplyOps(st.users[id].ext, ops, orders);
            && id in st'.users && st'.users[id].ext == o.ext
            && reply == if o.ok then UserReply(OK, Some(st'.users[id])) else UserReply(BadRequest, None)
  {
  }

  /** When a PATCH that fails leaves the store as it was, however the ranges go. */
  lemma PatchIsAtomicExactlyWhen(st: StoreState, id: string, ops: seq<PatchOp>, k: nat)
    requires id in st.users && StopsAt(ops, k) && k < |ops|
    ensures (forall orders :: AreRangeOrders(ops, orders) ==> PatchUser(st, id, Some(ops), orders).0 == st)
            <==> LastSet(st.users[id].ext, ops[..k]) == st.users[id].ext
                 && (StrayWrite(ops[k]).Some? ==> StrayWrite(ops[k]) == st.users[id].ext)
  {
    var ext := st.users[id].ext;
    FailureIsAtomicExactlyWhen(ext, ops, k);
    forall orders | AreRangeOrders(ops, orders)
      ensures PatchUser(st, id, Some(ops), orders).0 == st <==> ApplyOps(ext, ops, orders).ext == ext
    {
      KeepsExactlyWhen(st, id, ApplyOps(ext, ops, orders).ext);
    }
  }

  lemma KeepsExactlyWhen(st: StoreState, id: string, ext: Option<string>)
    requires id in st.users
    ensures st.(users := st.users[id := st.users[id].(ext := ext)]) == st <==> ext == st.users[id].ext
  {
    if ext == st.users[id].ext {
      assert st.users[id := st.users[id].(ext := ext)] == st.users;
    } else {
      assert st.users[id := st.users[id].(ext := ext)][id] != st.users[id];
    }
  }

  /** The two spellings of a role change are interchangeable: with either path that names the role, the same
      store and the same whole reply as in the object form. */
  lemma SpellingsAgree(st: StoreState, id: string, path: string, role: string, orders: seq<seq<string>>)
    requires path in {"urn:ietf:params:scim:schemas:extension:notion:2.0:User:role", "role"}
    requires AreRangeOrders(PathPatch(path, role), orders) && AreRangeOrders(RolePatch(role), RolePatchOrders())
    ensures PatchUser(st, id, Some(PathPatch(path, role)), orders) == PatchUser(st, id, Some(RolePatch(role)), RolePatchOrders())
  {
    if id in st.users {
      var ext := st.users[id].ext;
      RolePatchOutcome(ext, role, RolePatchOrders());
      OneOperationAlone(ext, PathPatch(path, role)[0], orders[0]);
      assert PathPatch(path, role) == [PathPatch(path, role)[0]] && orders == [orders[0]];
      PathForm(ext, PathPatch(path, role)[0], orders[0]);
      assert Spells("replace", "replace");
    }
  }

  /** A request of one operation. */
  lemma OneOperationAlone(ext: Option<string>, op: PatchOp, order: seq<string>)
    requires IsRangeOrder(op, order)
    ensures AreRangeOrders([op], [order]) && ApplyOps(ext, [op], [order]) == ApplyOp(ext, op, order)
  {
    var first := ApplyOp(ext, op, order);
    assert [op][1..] == [] && [order][1..] == [];
    assert ApplyOps(first.ext, [], []) == Outcome(first.ext, true);
  }

  /** Any other path is refused and changes nothing. */
  lemma OtherPathsFail(st: StoreState, id: string, op: PatchOp, order: seq<string>)
    requires IsRangeOrder(op, order) && op.path != ""
    requires op.path !in {"urn:ietf:params:scim:schemas:extension:notion:2.0:User:role", "role"}
    ensures AreRangeOrders([op], [order])
    ensures PatchUser(st, id, Some([op]), [order])
            == (st, UserReply(if id in st.users then BadRequest else NotFound, None))
  {
    if id in st.users {
      OneOperationAlone(st.users[id].ext, op, order);
      PathForm(st.users[id].ext, op, order);
      KeepsExactlyWhen(st, id, st.users[id].ext);
    }
  }

  lemma DeleteKeepsInv(fold: CaseFold, w: World, id: string)
    requires Inv(fold, w)
    ensures Inv(fold, Serve(fold, w, Delete(id)))
  {
    if id in w.store.users {
      DeleteEffect(w.store, id);
      var st' := DeleteUser(w.store, id).0;
      forall g, i | g in st'.groups && 0 <= i < |st'.groups[g].members|
        ensures st'.groups[g].members[i] in st'.users
      {
        var m := st'.groups[g].members[i];
        assert m in st'.groups[g].members;
        assert m in w.store.groups[g].members && m != id;
      }
    }
  }

  lemma ServeKeepsInv(fold: CaseFold, w: World, r: Request)
    requires Inv(fold, w) && CanServe(w, r)
    ensures Inv(fold, Serve(fold, w, r))
  {
    match r
    case Read =>
    case Create(body, newId) => CreateKeepsInv(fold, w, body, newId);
    case Patch(id, ops, orders) => PatchKeepsInv(fold, w, id, ops, orders);
    case Delete(id) => DeleteKeepsInv(fold, w, id);
  }

  // ---------- Roles: what create lets in ----------

  /** The request carries no role extension, or one with a known role. */
  predicate PoliteBody(body: User) {
    body.ext.None? || KnownRole(body.ext.value)
  }

  predicate Polite(r: Request) {
    r.Create? && r.body.Some? ==> PoliteBody(r.body.value)
  }

  /** The server checks roles in PATCH only: a create that goes through keeps every role known
      exactly when its body carries no role or a known one. */
  lemma CreateKeepsRolesExactlyWhen(fold: CaseFold, w: World, body: User, newId: string)
    requires RolesKnown(w.store) && newId !in w.issued && w.store.users.Keys <= w.issued
    requires CreateUser(fold, w.store, Some(body), newId).1.status == Created
    ensures RolesKnown(CreateUser(fold, w.store, Some(body), newId).0) <==> PoliteBody(body)
  {
    var st' := CreateUser(fold, w.store, Some(body), newId).0;
    assert st'.users[newId].Role() == if body.ext.None? then MEMBER else body.ext.value;
    assert newId in st'.users;
  }

  lemma {:induction false} LastSetIsKnown(ext: Option<string>, ops: seq<PatchOp>)
    ensures LastSet(ext, ops) == ext || (LastSet(ext, ops).Some? && KnownRole(LastSet(ext, ops).value))
  {
    if ops != [] {
      LastSetIsKnown(ext, ops[..|ops| - 1]);
    }
  }

  lemma PatchKeepsRoles(st: StoreState, id: string, ops: Option<seq<PatchOp>>, orders: seq<seq<string>>)
    requires RolesKnown(st) && (ops.Some? ==> AreRangeOrders(ops.value, orders))
    ensures RolesKnown(PatchUser(st, id, ops, orders).0)
  {
    if ops.Some? && id in st.users {
      var ext := st.users[id].ext;
      var k := StopExists(ops.value);
      ManyOperations(ext, ops.value, orders, k);
      LastSetIsKnown(ext, ops.value[..k]);
    }
  }

  lemma ServeKeepsRoles(fold: CaseFold, w: World, r: Request)
    requires RolesKnown(w.store) && Inv(fold, w) && CanServe(w, r) && Polite(r)
    ensures RolesKnown(Serve(fold, w, r).store)
  {
    match r
    case Read =>
    case Create(body, newId) =>
      var reply := CreateUser(fold, w.store, body, newId).1;
      if reply.status == Created { CreateKeepsRolesExactlyWhen(fold, w, body.value, newId); }
    case Patch(id, ops, orders) => PatchKeepsRoles(w.store, id, ops, orders);
    case Delete(id) =>
  }

  // ---------- The seed, and every reachable state ----------

  function Person(id: string, email: string, given: string, family: string, role: string): User {
    User([SCHEMA_USER_CORE, SCHEMA_NOTION_USER], id, email,
         Name(given, family, given + " " + family),
         [Email(true, email, "Primary")], true, Some(role))
  }

  const ALICE := "11111111-1111-1111-1111-111111111111"
  const BOB := "22222222-2222-2222-2222-222222222222"
  const CAROL := "33333333-3333-3333-3333-333333333333"
  const DAVE := "44444444-4444-4444-4444-444444444444"
  const EVE := "55555555-5555-5555-5555-555555555555"
  const ENGINEERING := "aaaaaaaa-aaaa-aaaa-aaaa-aaaaaaaaaaaa"
  const DESIGNERS := "bbbbbbbb-bbbb-bbbb-bbbb-bbbbbbbbbbbb"

  /** The five users of the seed, put into the map one by one. */
  function Indexed(users: seq<User>): map<string, User> {
    if users == [] then map[]
    else Indexed(users[..|users| - 1])[users[|users| - 1].id := users[|users| - 1]]
  }

  function SeedUsers(): seq<User> {
    [Person(ALICE, "owner@example.com", "Alice", "Owner", OWNER),
     Person(BOB, "admin@example.com", "Bob", "Admin", MEMBERSHIP_ADMIN),
     Person(CAROL, "carol.member@example.com", "Carol", "Member", MEMBER),
     Person(DAVE, "dave.member@example.com", "Dave", "Member", MEMBER),
     Person(EVE, "eve.restricted@example.com", "Eve", "Restricted", RESTRICTED_MEMBER)]
  }

  function SeedGroups(ids: seq<string>): map<string, Group>
    requires |ids| == 5
  {
    map[ENGINEERING := Group(ENGINEERING, "Engineering", [ids[0], ids[2], ids[3]]),
        DESIGNERS := Group(DESIGNERS, "Designers", [ids[1], ids[4]])]
  }

  function Ids(users: seq<User>): seq<string>
    requires |users| == 5
  {
    [users[0].id, users[1].id, users[2].id, users[3].id, users[4].id]
  }

  function SeedOf(users: seq<User>): StoreState
    requires |users| == 5
  {
    StoreState(Indexed(users), SeedGroups(Ids(users)))
  }

  function Seed(): StoreState { SeedOf(SeedUsers()) }

  function SeedWorld(): World { World(Seed(), Seed().users.Keys) }

  lemma {:induction false} IndexedUsers(users: seq<User>)
    ensures forall i :: 0 <= i < |users| ==> users[i].id in Indexed(users)
    ensures forall id :: id in Indexed(users) ==> Indexed(users)[id].id == id && Indexed(users)[id] in users
  {
    if users != [] {
      var n := |users| - 1;
      IndexedUsers(users[..n]);
      assert users == users[..n] + [users[n]];
    }
  }

  lemma IndexedNamesDistinct(fold: CaseFold, users: seq<User>, groups: map<string, Group>)
    requires forall i, j :: 0 <= i < j < |users| ==> !EqualFold(fold, users[i].userName, users[j].userName)
    ensures NamesDistinct(fold, StoreState(Indexed(users), groups))
  {
    IndexedUsers(users);
    var m := Indexed(users);
    forall a, b | a in m && b in m && a != b ensures !EqualFold(fold, m[a].userName, m[b].userName) {
      var i :| 0 <= i < |users| && users[i] == m[a];
      var j :| 0 <= j < |users| && users[j] == m[b];
      EqualFoldSymmetric(fold, m[a].userName, m[b].userName);
      assert i != j;
    }
  }

  lemma OwnerIsNotAdmin(fold: CaseFold)
    ensures !EqualFold(fold, "owner@example.com", "admin@example.com")
  {
    assert "owner@example.com"[0] == 'o' && "admin@example.com"[0] == 'a';
    assert fold('o') == 'o' && fold('a') == 'a';
  }

  lemma SeedNameLengths()
    ensures |SeedUsers()[0].userName| == |SeedUsers()[1].userName| == 17
    ensures |SeedUsers()[2].userName| == 24 && |SeedUsers()[3].userName| == 23 && |SeedUsers()[4].userName| == 26
    ensures SeedUsers()[0].userName == "owner@example.com" && SeedUsers()[1].userName == "admin@example.com"
  {
  }

  lemma FirstIdsAreUuids()
    ensures UuidText(ALICE) && UuidText(BOB) && UuidText(CAROL)
  {
  }

  lemma LastIdsAreUuids()
    ensures UuidText(DAVE) && UuidText(EVE)
  {
  }

  lemma SeedIdsAreUuids()
    ensures forall i :: 0 <= i < 5 ==> UuidText(SeedUsers()[i].id)
  {
    FirstIdsAreUuids();
    LastIdsAreUuids();
  }

  lemma DistinctByLength(fold: CaseFold, users: seq<User>)
    requires |users| == 5 && |users[0].userName| == |users[1].userName| == 17
    requires |users[2].userName| == 24 && |users[3].userName| == 23 && |users[4].userName| == 26
    requires !EqualFold(fold, users[0].userName, users[1].userName)
    ensures forall i, j :: 0 <= i < j < |users| ==> !EqualFold(fold, users[i].userName, users[j].userName)
  {
  }

  lemma SeedGroupsAreSound(users: seq<User>)
    requires |users| == 5
    ensures var st := SeedOf(users);
            MembersExist(st) && KeysAreIds(st) && GroupIdsAreUuids(st)
  {
    IndexedUsers(users);
    assert UuidText(ENGINEERING) && UuidText(DESIGNERS);
    var st := SeedOf(users);
    forall g, i | g in st.groups && 0 <= i < |st.groups[g].members| ensures st.groups[g].members[i] in st.users {
      assert users[0].id in st.users && users[1].id in st.users && users[2].id in st.users
          && users[3].id in st.users && users[4].id in st.users;
    }
  }

  lemma FiveUsersInv(fold: CaseFold, users: seq<User>)
    requires |users| == 5
    requires forall i, j :: 0 <= i < j < |users| ==> !EqualFold(fold, users[i].userName, users[j].userName)
    requires forall i :: 0 <= i < |users| ==> KnownRole(users[i].Role()) && UuidText(users[i].id)
    ensures var st := SeedOf(users);
            Inv(fold, World(st, st.users.Keys)) && RolesKnown(st)
  {
    IndexedUsers(users);
    SeedGroupsAreSound(users);
    IndexedNamesDistinct(fold, users, SeedGroups(Ids(users)));
  }

  lemma SeedSatisfiesInv(fold: CaseFold)
    ensures Inv(fold, SeedWorld()) && RolesKnown(Seed())
  {
    OwnerIsNotAdmin(fold);
    SeedNameLengths();
    SeedIdsAreUuids();
    DistinctByLength(fold, SeedUsers());
    FiveUsersInv(fold, SeedUsers());
  }

  /** The seed: five users that cover every role, and two groups. */
  lemma SeedUsersAre()
    ensures |SeedUsers()| == 5
    ensures forall i :: 0 <= i < 5 ==> SeedUsers()[i].active && SeedUsers()[i].emails == [Email(true, SeedUsers()[i].userName, "Primary")]
    ensures forall i :: 0 <= i < 5 ==>
              SeedUsers()[i].name.formatted == SeedUsers()[i].name.given + " " + SeedUsers()[i].name.family
    ensures SeedUsers()[0].Role() == "owner" && SeedUsers()[1].Role() == "membership_admin"
    ensures SeedUsers()[2].Role() == "member" && SeedUsers()[3].Role() == "member" && SeedUsers()[4].Role() == "restricted_member"
    ensures SeedUsers()[0].name.given == "Alice" && SeedUsers()[1].name.given == "Bob" && SeedUsers()[2].name.given == "Carol"
    ensures SeedUsers()[3].name.given == "Dave" && SeedUsers()[4].name.given == "Eve"
  {
  }

  lemma SeedGroupsAre(ids: seq<string>)
    requires |ids| == 5
    ensures SeedGroups(ids).Keys == {ENGINEERING, DESIGNERS}
    ensures SeedGroups(ids)[DESIGNERS].displayName == "Designers" && SeedGroups(ids)[DESIGNERS].members == [ids[1], ids[4]]
    ensures SeedGroups(ids)[ENGINEERING].displayName == "Engineering"
    ensures SeedGroups(ids)[ENGINEERING].members == [ids[0], ids[2], ids[3]]
  {
    assert ENGINEERING[0] != DESIGNERS[0];
  }

  /** Every state reachable from the seed keeps the invariant, and keeps every role known as long as
      the create requests are polite. */
  lemma {:induction false} RunsKeepInv(fold: CaseFold, w: World, rs: seq<Request>)
    requires Inv(fold, w) && CanServeAll(fold, w, rs)
    ensures Inv(fold, ServeAll(fold, w, rs))
    ensures RolesKnown(w.store) && (forall r :: r in rs ==> Polite(r)) ==> RolesKnown(ServeAll(fold, w, rs).store)
    decreases rs
  {
    if rs != [] {
      ServeKeepsInv(fold, w, rs[0]);
      if RolesKnown(w.store) && Polite(rs[0]) { ServeKeepsRoles(fold, w, rs[0]); }
      RunsKeepInv(fold, Serve(fold, w, rs[0]), rs[1..]);
    }
  }

  lemma ReachableStates(fold: CaseFold, rs: seq<Request>)
    requires CanServeAll(fold, SeedWorld(), rs)
    ensures Inv(fold, ServeAll(fold, SeedWorld(), rs))
    ensures (forall r :: r in rs ==> Polite(r)) ==> RolesKnown(ServeAll(fold, SeedWorld(), rs).store)
  {
    SeedSatisfiesInv(fold);
    RunsKeepInv(fold, SeedWorld(), rs);
  }

  // ---------- Deleted IDs stay gone ----------

  ghost predicate Gone(w: World, id: string) {
    && id in w.issued && id !in w.store.users
    && forall g :: g in w.store.groups ==> id !in w.store.groups[g].members
  }

  lemma ServeKeepsGone(fold: CaseFold, w: World, r: Request, id: string)
    requires CanServe(w, r) && Gone(w, id)
    ensures Gone(Serve(fold, w, r), id)
  {
    if r.Delete? && r.id in w.store.users {
      DeleteEffect(w.store, r.id);
    }
  }

  lemma {:induction false} GoneForever(fold: CaseFold, w: World, rs: seq<Request>, id: string)
    requires CanServeAll(fold, w, rs) && Gone(w, id)
    ensures Gone(ServeAll(fold, w, rs), id)
    decreases rs
  {
    if rs != [] {
      ServeKeepsGone(fold, w, rs[0], id);
      GoneForever(fold, Serve(fold, w, rs[0]), rs[1..], id);
    }
  }

  /** Once a delete has succeeded, no later request brings the ID back, as a user or as a member. */
  lemma DeletedIdsStayGone(fold: CaseFold, w: World, id: string, rs: seq<Request>)
    requires Inv(fold, w) && id in w.store.users
    requires CanServeAll(fold, Serve(fold, w, Delete(id)), rs)
    ensures Gone(ServeAll(fold, Serve(fold, w, Delete(id)), rs), id)
  {
    DeleteEffect(w.store, id);
    GoneForever(fold, Serve(fold, w, Delete(id)), rs, id);
  }

  // ---------- Filtered listings ----------

  ghost function MatchingIds(fold: CaseFold, st: StoreState, attr: string, value: string): set<string> {
    set id | id in st.users && UserMatches(fold, attr, value, st.users[id])
  }

  function UserKey(): User -> string { (u: User) => u.id }

  function GroupKey(): Group -> string { (g: Group) => g.id }

  lemma ListingKeys<T>(m: map<string, T>, key: T -> string)
    requires forall id :: id in m ==> key(m[id]) == id
    ensures KeysOf(key, Listing(m)) == SortedKeys(m.Keys)
  {
    var keys := SortedKeys(m.Keys);
    forall i | 0 <= i < |keys| ensures KeysOf(key, Listing(m))[i] == keys[i] {
      assert keys[i] in m;
    }
  }

  lemma ListingMembers<T>(m: map<string, T>, key: T -> string, x: T)
    requires forall id :: id in m ==> key(m[id]) == id
    ensures x in Listing(m) <==> key(x) in m && m[key(x)] == x
  {
    var keys := SortedKeys(m.Keys);
    if key(x) in m && m[key(x)] == x {
      var i :| 0 <= i < |keys| && keys[i] == key(x);
      assert Listing(m)[i] == x;
    }
    if x in Listing(m) {
      var i :| 0 <= i < |m| && Listing(m)[i] == x;
      assert keys[i] in m;
    }
  }

  lemma SelectedKeysAscend<T>(s: seq<T>, key: T -> string, p: T -> bool)
    requires Ascending(KeysOf(key, s))
    ensures Ascending(KeysOf(key, Select(s, p)))
  {
    var at := SelectKeepsOrder(s, p);
    var sel := Select(s, p);
    forall i, j | 0 <= i < j < |sel| ensures Less(key(sel[i]), key(sel[j])) {
      assert KeysOf(key, s)[at[i]] == key(sel[i]) && KeysOf(key, s)[at[j]] == key(sel[j]);
    }
  }

  lemma SelectedIds<T>(m: map<string, T>, key: T -> string, p: T -> bool, ids: set<string>)
    requires forall id :: id in m ==> key(m[id]) == id
    requires forall id :: id in ids <==> id in m && p(m[id])
    ensures var items := Select(Listing(m), p);
            && (forall x :: x in items <==> key(x) in ids && m[key(x)] == x)
            && (forall k :: k in KeysOf(key, items) <==> k in ids)
  {
    var items := Select(Listing(m), p);
    forall x ensures x in items <==> key(x) in ids && m[key(x)] == x {
      ListingMembers(m, key, x);
      SelectMembers(Listing(m), p, x);
    }
    forall k ensures k in KeysOf(key, items) <==> k in ids {
      if k in ids {
        assert m[k] in items;
        var i :| 0 <= i < |items| && items[i] == m[k];
        assert KeysOf(key, items)[i] == k;
      }
      if k in KeysOf(key, items) {
        var i :| 0 <= i < |items| && key(items[i]) == k;
        assert items[i] in items;
      }
    }
  }

  /** The elements of a listing that satisfy p are those of these IDs, in ID order, one each. */
  lemma SelectedListing<T>(m: map<string, T>, key: T -> string, p: T -> bool, ids: set<string>)
    requires forall id :: id in m ==> key(m[id]) == id
    requires forall id :: id in ids <==> id in m && p(m[id])
    ensures var items := Select(Listing(m), p);
            && KeysOf(key, items) == SortedKeys(ids) && |items| == |ids|
            && (forall x :: x in items ==> key(x) in ids && m[key(x)] == x)
  {
    var items := Select(Listing(m), p);
    ListingKeys(m, key);
    SelectedKeysAscend(Listing(m), key, p);
    SelectedIds(m, key, p, ids);
    AscendingIsUnique(KeysOf(key, items), SortedKeys(ids));
  }

  /** A supported filter: the reply pages over exactly the matching users, in ID order, and its total
      is the number of matches in the map. */
  lemma FilteredListing(fold: CaseFold, st: StoreState, q: Query) returns (items: seq<User>)
    requires KeysAreIds(st) && Get(q, "filter") != ""
    requires ParseSimpleFilter(Get(q, "filter")).Some? && ParseSimpleFilter(Get(q, "filter")).value.op == "eq"
    requires SupportedUserAttr(ParseSimpleFilter(Get(q, "filter")).value.attr)
    ensures var f := ParseSimpleFilter(Get(q, "filter")).value;
            var ids := MatchingIds(fold, st, f.attr, f.value);
            && KeysOf(UserKey(), items) == SortedKeys(ids)
            && (forall u :: u in items ==> u.id in ids && st.users[u.id] == u)
            && ListUsers(fold, st.users, q)
               == Page(|ids|, PaginationParams(q).0, PageSlice(items, PaginationParams(q).0, PaginationParams(q).1))
  {
    var f := ParseSimpleFilter(Get(q, "filter")).value;
    var p := (u: User) => UserMatches(fold, f.attr, f.value, u);
    items := Select(Listing(st.users), p);
    SelectedListing(st.users, UserKey(), p, MatchingIds(fold, st, f.attr, f.value));
    assert ApplyUserFilter(fold, Listing(st.users), Get(q, "filter")) == Matches(items);
  }

  /** Which users a filter matches: an email filter those whose user name equals the value once both are
      folded, the name filters those with that given or family name; any other attribute none. */
  lemma MatchMeans(fold: CaseFold, st: StoreState, attr: string, value: string, id: string)
    ensures id in MatchingIds(fold, st, attr, value)
            <==> id in st.users
                 && if attr in {"email", "username", "userName"} then Folded(fold, st.users[id].userName) == Folded(fold, value)
                    else if attr == "given_name" then st.users[id].name.given == value
                    else attr == "family_name" && st.users[id].name.family == value
  {
    if id in st.users { EqualFoldMeans(fold, st.users[id].userName, value); }
  }

  /** Which filters are refused: a text that is no filter, any operator other than `eq`, and any attribute
      but the five, the last only if there is a user to look at. */
  lemma FilterRefusedExactlyWhen(fold: CaseFold, st: StoreState, q: Query)
    requires "filter" in q && q["filter"] != ""
    ensures var f := ParseSimpleFilter(q["filter"]);
            ListUsers(fold, st.users, q).InvalidFilter?
            <==> f == None || f.value.op != "eq"
                 || (|st.users| > 0 && f.value.attr !in {"email", "username", "userName", "given_name", "family_name"})
  {
    assert |Listing(st.users)| == |st.users|;
  }

  /** The group filter: `displayName eq` pages over exactly the groups of that name, in ID order, with their
      number as the total; any other filter is refused. */
  lemma FilteredGroupListing(st: StoreState, q: Query) returns (items: seq<Group>, ids: set<string>)
    requires KeysAreIds(st) && "filter" in q && q["filter"] != ""
    ensures var f := ParseSimpleFilter(q["filter"]);
            if f == None || f.value.op != "eq" || f.value.attr != "displayName" then ListGroups(st.groups, q) == InvalidFilter
            else
              && (forall id :: id in ids <==> id in st.groups && st.groups[id].displayName == f.value.value)
              && KeysOf(GroupKey(), items) == SortedKeys(ids)
              && (forall g :: g in items ==> g.id in ids && st.groups[g.id] == g)
              && ListGroups(st.groups, q)
                 == Page(|ids|, PaginationParams(q).0, PageSlice(items, PaginationParams(q).0, PaginationParams(q).1))
  {
    var f := ParseSimpleFilter(q["filter"]);
    items, ids := [], {};
    if f != None && f.value.op == "eq" && f.value.attr == "displayName" {
      ids := set id | id in st.groups && st.groups[id].displayName == f.value.value;
      items := NamedGroups(st, f.value.value, ids);
      GroupFilterSelects(st, q["filter"], f.value, items);
    }
  }

  lemma NamedGroups(st: StoreState, name: string, ids: set<string>) returns (items: seq<Group>)
    requires KeysAreIds(st) && forall id :: id in ids <==> id in st.groups && st.groups[id].displayName == name
    ensures items == Select(Listing(st.groups), (g: Group) => g.displayName == name)
    ensures KeysOf(GroupKey(), items) == SortedKeys(ids) && |items| == |ids|
    ensures forall g :: g in items ==> g.id in ids && st.groups[g.id] == g
  {
    items := Select(Listing(st.groups), (g: Group) => g.displayName == name);
    SelectedListing(st.groups, GroupKey(), (g: Group) => g.displayName == name, ids);
  }

  lemma GroupFilterSelects(st: StoreState, filter: string, f: Parsed, items: seq<Group>)
    requires filter != "" && ParseSimpleFilter(filter) == Some(f) && f.op == "eq" && f.attr == "displayName"
    requires items == Select(Listing(st.groups), (g: Group) => g.displayName == f.value)
    ensures ApplyGroupFilter(Listing(st.groups), filter) == Matches(items)
  {
  }

  lemma EqualFoldThrough(fold: CaseFold, a: string, b: string, value: string)
    requires EqualFold(fold, a, value) && EqualFold(fold, b, value)
    ensures EqualFold(fold, a, b)
  {
  }

  /** User names are distinct under case folding, so an email filter finds at most one user. */
  lemma EmailFilterFindsAtMostOne(fold: CaseFold, st: StoreState, attr: string, value: string)
    requires KeysAreIds(st) && NamesDistinct(fold, st) && IsEmailAttr(attr)
    ensures |MatchingIds(fold, st, attr, value)| <= 1
  {
    var ids := MatchingIds(fold, st, attr, value);
    if ids != {} {
      var a :| a in ids;
      forall b | b in ids ensures b == a {
        EqualFoldThrough(fold, st.users[a].userName, st.users[b].userName, value);
      }
      assert ids == {a};
    }
  }
}
