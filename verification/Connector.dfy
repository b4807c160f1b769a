/** The connector's sync side: page tokens, user and group listings, and the grants they emit. */
module Connector {
  import opened Text
  import opened Sorting
  import opened Domain
  import opened Patch
  import opened Filter
  import opened Paging
  import opened Coverage
  import opened Store
  import opened Roles
  import opened Server
  import opened Caching
  import opened Client

  // ---------- The SDK's page bag: a stack that travels as a token ----------

  datatype PageState = PageState(token: string, resourceType: string, resource: string)

  /** A serialized bag. The empty string ends a listing; Corrupt is any text that does not decode. */
  datatype BagToken = Empty | Encoded(states: seq<PageState>, current: Option<PageState>) | Corrupt

  class Bag {
    var states: seq<PageState>
    var current: Option<PageState>

    constructor ()
      ensures states == [] && current == None
    {
      states, current := [], None;
    }

    /** Bottom to top. */
    function Stack(): seq<PageState>
      reads this
    {
      states + (if current.Some? then [current.value] else [])
    }

    method Unmarshal(token: BagToken) returns (ok: bool)
      modifies this
      ensures ok <==> !token.Corrupt?
      ensures token.Empty? ==> states == [] && current == None
      ensures token.Encoded? ==> states == token.states && current == token.current
      ensures token.Corrupt? ==> states == old(states) && current == old(current)
    {
      match token
      case Empty => states, current, ok := [], None, true;
      case Encoded(s, c) => states, current, ok := s, c, true;
      case Corrupt => ok := false;
    }

    method Push(s: PageState)
      modifies this
      ensures current.Some? && Stack() == old(Stack()) + [s]
    {
      if current.Some? { states := states + [current.value]; }
      current := Some(s);
    }

    method Pop() returns (top: Option<PageState>)
      modifies this
      ensures top == old(current)
      ensures old(current).None? ==> states == old(states) && current == None
      ensures old(current).Some? ==> Stack() == old(states) && (current.None? <==> old(states) == [])
    {
      top := current;
      if top.Some? {
        if states != [] {
          current, states := Some(states[|states| - 1]), states[..|states| - 1];
        } else {
          current := None;
        }
      }
    }

    method Next(pageToken: string) returns (ok: bool)
      modifies this
      ensures ok <==> old(current).Some?
      ensures ok ==> Stack() == Advanced(old(Stack()), pageToken) && (Stack() != [] ==> current.Some?)
    {
      var st := Pop();
      if st.None? { return false; }
      if pageToken != "" { Push(st.value.(token := pageToken)); }
      ok := true;
    }

    method Marshal() returns (token: BagToken)
      ensures token == if current.None? then Empty else Encoded(states, current)
    {
      token := if current.None? then Empty else Encoded(states, current);
    }
  }

  /** Replace the token on top, or drop the top when the listing under it is over. */
  function Advanced(stack: seq<PageState>, pageToken: string): seq<PageState>
    requires stack != []
  {
    var n := |stack| - 1;
    if pageToken == "" then stack[..n] else stack[..n] + [stack[n].(token := pageToken)]
  }

  function Marshalled(stack: seq<PageState>): BagToken {
    if stack == [] then Empty else Encoded(stack[..|stack| - 1], Some(stack[|stack| - 1]))
  }

  /** The stack a token opens; with nothing current, a fresh state for the type is pushed. */
  function Opened(token: BagToken, resourceType: string): Option<seq<PageState>> {
    match token
    case Corrupt => None
    case Empty => Some([PageState("", resourceType, "")])
    case Encoded(states, Some(top)) => Some(states + [top])
    case Encoded(states, None) => Some(states + [PageState("", resourceType, "")])
  }

  /** None for the start means the token was corrupt or not a number. */
  method GetToken(token: BagToken, resourceType: string) returns (bag: Bag, start: Option<GoInt>)
    ensures fresh(bag)
    ensures var stack := Opened(token, resourceType);
            && start == (if stack.None? then None else CursorFor(stack.value[|stack.value| - 1].token))
            && (start.Some? ==> bag.Stack() == stack.value && bag.current.Some?)
  {
    bag := new Bag();
    if token != Empty {
      var ok := bag.Unmarshal(token);
      if !ok { return bag, None; }
    }
    if bag.current.None? {
      bag.Push(PageState("", resourceType, ""));
    }
    assert bag.Stack()[|bag.Stack()| - 1] == bag.current.value;
    start := CursorFor(bag.current.value.token);
  }

  // ---------- User resources and the role grants read back from them ----------

  const PROFILE_KEY_WORKSPACE_ROLE := "workspace_role"

  datatype UserResource = UserResource(id: string, displayName: string, profile: map<string, string>, enabled: bool)

  function UserResourceOf(u: User): UserResource {
    var profile := map["first_name" := u.name.given, "last_name" := u.name.family, "email" := u.userName];
    UserResource(u.id, u.name.formatted,
                 if u.Role() != "" then profile[PROFILE_KEY_WORKSPACE_ROLE := u.Role()] else profile,
                 u.active)
  }

  function WorkspaceRole(r: UserResource): string {
    if PROFILE_KEY_WORKSPACE_ROLE in r.profile then r.profile[PROFILE_KEY_WORKSPACE_ROLE] else ""
  }

  /** userBuilder.Grants: one grant of the stashed role, none if it is empty or unknown. */
  function UserGrants(r: UserResource): seq<RoleGrant> {
    var role := WorkspaceRole(r);
    if role == "" || !IsSupportedRole(role) then [] else [RoleGrant(r.id, role)]
  }

  /** The role survives the trip through the profile: a user's resource grants exactly what a scan of
      the user itself would. */
  lemma GrantsSurviveProfile(u: User)
    ensures (set g | g in UserGrants(UserResourceOf(u))) == GrantsOf(u)
    ensures |UserGrants(UserResourceOf(u))| <= 1
  {
    SupportedIsKnown(u.Role());
    assert "first_name" != PROFILE_KEY_WORKSPACE_ROLE;
    assert |"last_name"| == 9 && |"email"| == 5 && |PROFILE_KEY_WORKSPACE_ROLE| == 14;
  }

  /** The resource shows this user: its ID, its formatted name, enabled exactly when it is active, and a
      profile of its names, its user name as the email, and its role if it has one. */
  ghost predicate LooksLike(r: UserResource, u: User) {
    && r.id == u.id && r.displayName == u.name.formatted && r.enabled == u.active
    && r.profile.Keys == {"first_name", "last_name", "email"} + (if u.Role() == "" then {} else {"workspace_role"})
    && r.profile["first_name"] == u.name.given && r.profile["last_name"] == u.name.family
    && r.profile["email"] == u.userName
    && (u.Role() != "" ==> r.profile["workspace_role"] == u.Role())
  }

  lemma UserResourceMeans(r: UserResource, u: User)
    ensures LooksLike(r, u) <==> r == UserResourceOf(u)
  {
    assert |"first_name"| == 10 && |"last_name"| == 9 && |"email"| == 5 && |"workspace_role"| == 14;
    if LooksLike(r, u) {
      assert r.profile.Keys == UserResourceOf(u).profile.Keys;
      assert r.profile == UserResourceOf(u).profile;
    }
  }

  datatype Listed<+R> = Listed(resources: seq<R>, next: BagToken) | ListFailed

  const LIST_PAGE_SIZE: GoInt := 100

  /** The cursor a List call goes by; None when its token is corrupt or not a number. */
  function StartOf(token: BagToken, resourceType: string): Option<GoInt> {
    match Opened(token, resourceType)
    case None => None
    case Some(stack) => CursorFor(stack[|stack| - 1].token)
  }

  /** What a List call over `items` answers to a token, given what is cached. */
  ghost function ListReplyFor<T>(pages: PageCache<T>, items: seq<T>, token: BagToken, resourceType: string): Listed<T>
    requires |items| < MAX_INT
  {
    match StartOf(token, resourceType)
    case None => ListFailed
    case Some(start) =>
      ReplyWith(ShownPage(pages, items, KeyOf(start, LIST_PAGE_SIZE)), Opened(token, resourceType).value, start)
  }

  /** The page as resources, and the stack moved on past it. */
  ghost function ReplyWith<T>(page: PageReply<T>, stack: seq<PageState>, start: GoInt): Listed<T>
    requires stack != []
  {
    Listed(page.items, Marshalled(Advanced(stack, TokenAfter(start, page))))
  }

  /** The cached pages after that List call. */
  ghost function PagesAfter<T>(pages: PageCache<T>, items: seq<T>, token: BagToken, resourceType: string): PageCache<T>
    requires |items| < MAX_INT
  {
    match StartOf(token, resourceType)
    case None => pages
    case Some(start) =>
      Stored(pages, KeyOf(start, LIST_PAGE_SIZE), ShownPage(pages, items, KeyOf(start, LIST_PAGE_SIZE)))
  }

  function UserResources(users: seq<User>): (rs: seq<UserResource>)
    ensures |rs| == |users| && forall i :: 0 <= i < |rs| ==> rs[i] == UserResourceOf(users[i])
  {
    seq(|users|, i requires 0 <= i < |users| => UserResourceOf(users[i]))
  }

  method ListUserResources(client: NotionClient, server: ScimServer, token: BagToken) returns (reply: Listed<UserResource>)
    requires server.Valid() && |server.world.store.users| < MAX_INT
    modifies client`userPages
    ensures var want := ListReplyFor(old(client.userPages), Listing(server.world.store.users), token, "user");
            reply == if want.ListFailed? then ListFailed else Listed(UserResources(want.resources), want.next)
    ensures client.userPages == PagesAfter(old(client.userPages), Listing(server.world.store.users), token, "user")
  {
    var bag, start := GetToken(token, "user");
    if start.None? { return ListFailed; }
    reply := UsersFrom(client, server, bag, start.value);
  }

  method UsersFrom(client: NotionClient, server: ScimServer, bag: Bag, start: GoInt) returns (reply: Listed<UserResource>)
    requires server.Valid() && |server.world.store.users| < MAX_INT && bag.current.Some?
    modifies bag, client`userPages
    ensures var key := KeyOf(start, LIST_PAGE_SIZE);
            var page := ShownPage(old(client.userPages), Listing(server.world.store.users), key);
            var want := ReplyWith(page, old(bag.Stack()), start);
            && reply == Listed(UserResources(want.resources), want.next)
            && client.userPages == Stored(old(client.userPages), key, page)
  {
    var users, next := client.GetUsers(server, start, LIST_PAGE_SIZE);
    var rv := BuildUserResources(users);
    var nextToken := NextPage(bag, next);
    reply := Listed(rv, nextToken);
  }

  method BuildUserResources(users: seq<User>) returns (rv: seq<UserResource>)
    ensures rv == UserResources(users)
  {
    rv := [];
    for i := 0 to |users|
      invariant rv == UserResources(users[..i])
    {
      rv := rv + [UserResourceOf(users[i])];
    }
    assert users[..|users|] == users;
  }

  method NextPage(bag: Bag, next: string) returns (token: BagToken)
    requires bag.current.Some?
    modifies bag
    ensures token == Marshalled(Advanced(old(bag.Stack()), next))
  {
    var ok := bag.Next(next);
    token := bag.Marshal();
  }

  // ---------- Group resources ----------

  datatype GroupResource = GroupResource(id: string, displayName: string, profile: map<string, string>)

  function GroupResourceOf(g: Group): GroupResource {
    GroupResource(g.id, g.displayName, map["group_id" := g.id, "group_name" := g.displayName])
  }

  /** What a group looks like as a resource. */
  lemma GroupResourceMeans(g: Group)
    ensures var r := GroupResourceOf(g);
            && r.id == g.id && r.displayName == g.displayName
            && r.profile.Keys == {"group_id", "group_name"}
            && r.profile["group_id"] == g.id && r.profile["group_name"] == g.displayName
  {
    assert |"group_id"| == 8 && |"group_name"| == 10;
  }

  function GroupResources(groups: seq<Group>): (rs: seq<GroupResource>)
    ensures |rs| == |groups| && forall i :: 0 <= i < |rs| ==> rs[i] == GroupResourceOf(groups[i])
  {
    seq(|groups|, i requires 0 <= i < |groups| => GroupResourceOf(groups[i]))
  }

  method ListGroupResources(client: NotionClient, server: ScimServer, token: BagToken) returns (reply: Listed<GroupResource>)
    requires server.Valid() && |server.world.store.groups| < MAX_INT
    modifies client`groupPages
    ensures var want := ListReplyFor(old(client.groupPages), Listing(server.world.store.groups), token, "group");
            reply == if want.ListFailed? then ListFailed else Listed(GroupResources(want.resources), want.next)
    ensures client.groupPages == PagesAfter(old(client.groupPages), Listing(server.world.store.groups), token, "group")
  {
    var bag, start := GetToken(token, "group");
    if start.None? { return ListFailed; }
    reply := GroupsFrom(client, server, bag, start.value);
  }

  method GroupsFrom(client: NotionClient, server: ScimServer, bag: Bag, start: GoInt) returns (reply: Listed<GroupResource>)
    requires server.Valid() && |server.world.store.groups| < MAX_INT && bag.current.Some?
    modifies bag, client`groupPages
    ensures var key := KeyOf(start, LIST_PAGE_SIZE);
            var page := ShownPage(old(client.groupPages), Listing(server.world.store.groups), key);
            var want := ReplyWith(page, old(bag.Stack()), start);
            && reply == Listed(GroupResources(want.resources), want.next)
            && client.groupPages == Stored(old(client.groupPages), key, page)
  {
    var groups, next := client.GetGroups(server, start, LIST_PAGE_SIZE);
    var rv := BuildGroupResources(groups);
    var nextToken := NextPage(bag, next);
    reply := Listed(rv, nextToken);
  }

  method BuildGroupResources(groups: seq<Group>) returns (rv: seq<GroupResource>)
    ensures rv == GroupResources(groups)
  {
    rv := [];
    for i := 0 to |groups|
      invariant rv == GroupResources(groups[..i])
    {
      rv := rv + [GroupResourceOf(groups[i])];
    }
    assert groups[..|groups|] == groups;
  }

  // ---------- Driving a listing to its end ----------

  /** The token the SDK holds while a listing of one type is under way. */
  function TokenAt(resourceType: string, cursor: Option<GoInt>): BagToken {
    match cursor
    case None => Empty
    case Some(n) => Encoded([], Some(PageState(Itoa(n), resourceType, "")))
  }

  /** A List call carries the cursor through the bag: if the client is shown the page of `items` at the
      cursor, it answers that page, with the token of the next cursor, or the empty token when there
      is none. */
  lemma ListFollowsCursor<T>(pages: PageCache<T>, served: seq<T>, items: seq<T>, resourceType: string,
                             cursor: GoInt, token: BagToken)
    requires |items| < MAX_INT && |served| < MAX_INT
    requires token == TokenAt(resourceType, Some(cursor)) || (token == Empty && cursor == 0)
    requires ShownPage(pages, served, KeyOf(cursor, LIST_PAGE_SIZE)) == PageFor(items, KeyOf(cursor, LIST_PAGE_SIZE))
    ensures StartOf(token, resourceType) == Some(cursor)
    ensures var (page, next) := FetchPage(items, cursor, LIST_PAGE_SIZE);
            ListReplyFor(pages, served, token, resourceType) == Listed(page, TokenAt(resourceType, next))
  {
    TokenOpens(resourceType, cursor, token);
    var (page, next) := FetchPage(items, cursor, LIST_PAGE_SIZE);
    BagAdvances(resourceType, Opened(token, resourceType).value, next);
  }

  lemma TokenOpens(resourceType: string, cursor: GoInt, token: BagToken)
    requires token == TokenAt(resourceType, Some(cursor)) || (token == Empty && cursor == 0)
    ensures StartOf(token, resourceType) == Some(cursor)
    ensures var stack := Opened(token, resourceType).value;
            |stack| == 1 && stack[0].resourceType == resourceType && stack[0].resource == ""
  {
    TokenRoundTrip(cursor);
  }

  lemma BagAdvances(resourceType: string, stack: seq<PageState>, next: Option<GoInt>)
    requires |stack| == 1 && stack[0].resourceType == resourceType && stack[0].resource == ""
    ensures Marshalled(Advanced(stack, TokenFor(next))) == TokenAt(resourceType, next)
  {
    if next.Some? { TokenRoundTrip(next.value); }
    assert Advanced(stack, TokenFor(next)) == if next.None? then [] else [stack[0].(token := Itoa(next.value))];
  }
}
