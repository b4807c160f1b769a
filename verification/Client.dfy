/** The SCIM client: one method per endpoint, over a response cache that every GET goes through. */
module Client {
  import opened Text
  import opened Sorting
  import opened Domain
  import opened Patch
  import opened Filter
  import opened Paging
  import opened Coverage
  import opened Store
  import opened Server
  import opened Caching

  /** A list reply of status 200. */
  type PageReply<T> = r: ListReply<T> | r.Page? && r.total <= MAX_INT && |r.items| <= MAX_INT
    witness Page(0, 1, [])

  type PageSize = n: GoInt | 1 <= n <= MAX_PER_PAGE witness 1

  /** What a page is kept under: the two query parameters. SameQueryExactlyWhen says that these are as good as
      the query text that goes into the key. */
  datatype PageKey = PageKey(start: GoInt, count: PageSize)

  function KeyOf(start: GoInt, perPage: GoInt): PageKey {
    PageKey(ClampStart(start), ClampCount(perPage))
  }

  type PageCache<T> = Cache<PageKey, PageReply<T>>

  function PageFor<T>(items: seq<T>, key: PageKey): PageReply<T>
    requires |items| < MAX_INT
  {
    Page(|items|, key.start, PageSlice(items, key.start, key.count))
  }

  /** What the client sees of a listing: the cached page, else the page the server cuts out. */
  function ShownPage<T>(pages: PageCache<T>, items: seq<T>, key: PageKey): PageReply<T>
    requires |items| < MAX_INT
  {
    match Lookup(pages, key)
    case Some(page) => page
    case None => PageFor(items, key)
  }

  /** Two page requests carry the same query exactly when they are clamped to the same parameters. */
  lemma SameQueryExactlyWhen(start1: GoInt, perPage1: GoInt, start2: GoInt, perPage2: GoInt)
    ensures PageQuery(start1, perPage1) == PageQuery(start2, perPage2) <==> KeyOf(start1, perPage1) == KeyOf(start2, perPage2)
  {
    WireAgreement(start1, perPage1);
    WireAgreement(start2, perPage2);
    PageQueryIs(start1, perPage1);
    PageQueryIs(start2, perPage2);
  }

  /** What the client sees of a group. */
  function ShownGroup(groups: Cache<string, Group>, st: StoreState, id: string): Option<Group> {
    match Lookup(groups, CacheKey(id))
    case Some(g) => Some(g)
    case None => if id in st.groups then Some(st.groups[id]) else None
  }

  /** The cached groups after that. */
  function GroupsAfter(groups: Cache<string, Group>, st: StoreState, id: string): Cache<string, Group> {
    match ShownGroup(groups, st, id)
    case Some(g) => Stored(groups, CacheKey(id), g)
    case None => groups
  }

  /** The client's page request goes over the wire and comes back as the page at its parameters. */
  lemma UnfilteredPage<T>(items: seq<T>, start: GoInt, perPage: GoInt)
    requires |items| < MAX_INT
    ensures Get(PageQuery(start, perPage), "filter") == ""
    ensures Paged(Matches(items), PageQuery(start, perPage)) == PageFor(items, KeyOf(start, perPage))
    ensures PageFor(items, KeyOf(start, perPage)).items == FetchPage(items, start, perPage).0
  {
    WireAgreement(start, perPage);
    PageQueryIs(start, perPage);
  }

  /** The token of the page after this one. */
  function TokenAfter<T>(start: GoInt, page: PageReply<T>): string {
    TokenFor(NextCursor(start, |page.items|, page.total))
  }

  class NotionClient {
    var users: UserCache
    var groups: Cache<string, Group>
    var userPages: PageCache<User>
    var groupPages: PageCache<Group>

    constructor (caching: bool)
      ensures users == if caching then Memory(map[]) else Noop
      ensures groups == if caching then Memory(map[]) else Noop
      ensures userPages == if caching then Memory(map[]) else Noop
      ensures groupPages == if caching then Memory(map[]) else Noop
    {
      users, groups := if caching then Memory(map[]) else Noop, if caching then Memory(map[]) else Noop;
      userPages, groupPages := if caching then Memory(map[]) else Noop, if caching then Memory(map[]) else Noop;
    }

    method GetUser(server: ScimServer, userId: string) returns (reply: UserReply)
      requires server.Valid()
      modifies this`users
      ensures Some(reply) == ReadUser(old(users), server.world.store, userId, Answered)
      ensures users == AfterRead(old(users), server.world.store, userId, Answered)
    {
      var cached := Lookup(users, CacheKey(userId));
      if cached.Some? { reply := UserReply(OK, cached); } else { reply := server.HandleGetUser(userId); }
      if reply.status == OK { users := Stored(users, CacheKey(userId), reply.user.value); }
    }

    method GetGroup(server: ScimServer, groupId: string) returns (group: Option<Group>)
      requires server.Valid()
      modifies this`groups
      ensures group == ShownGroup(old(groups), server.world.store, groupId)
      ensures groups == GroupsAfter(old(groups), server.world.store, groupId)
    {
      group := Lookup(groups, CacheKey(groupId));
      if group.None? { group := server.HandleGetGroup(groupId); }
      if group.Some? { groups := Stored(groups, CacheKey(groupId), group.value); }
    }

    method GetUsers(server: ScimServer, start: GoInt, perPage: GoInt) returns (list: seq<User>, next: string)
      requires server.Valid() && |server.world.store.users| < MAX_INT
      modifies this`userPages
      ensures var page := ShownPage(old(userPages), Listing(server.world.store.users), KeyOf(start, perPage));
              && list == page.items && next == TokenAfter(start, page)
              && userPages == Stored(old(userPages), KeyOf(start, perPage), page)
    {
      UnfilteredPage(Listing(server.world.store.users), start, perPage);
      var q := ApplyOptions(map[], [WithPageSize(perPage), WithStartIndex(start)]);
      var res := DoUsers(server, q, KeyOf(start, perPage));
      list, next := res.items, TokenAfter(start, res);
    }

    /** The GET behind it. */
    method DoUsers(server: ScimServer, q: Query, key: PageKey) returns (page: PageReply<User>)
      requires server.Valid() && |server.world.store.users| < MAX_INT && Get(q, "filter") == ""
      requires Paged(Matches(Listing(server.world.store.users)), q) == PageFor(Listing(server.world.store.users), key)
      modifies this`userPages
      ensures page == ShownPage(old(userPages), Listing(server.world.store.users), key)
      ensures userPages == Stored(old(userPages), key, page)
    {
      var cached := Lookup(userPages, key);
      if cached.Some? { page := cached.value; } else { page := server.HandleListUsers(q); }
      userPages := Stored(userPages, key, page);
    }

    method GetGroups(server: ScimServer, start: GoInt, perPage: GoInt) returns (list: seq<Group>, next: string)
      requires server.Valid() && |server.world.store.groups| < MAX_INT
      modifies this`groupPages
      ensures var page := ShownPage(old(groupPages), Listing(server.world.store.groups), KeyOf(start, perPage));
              && list == page.items && next == TokenAfter(start, page)
              && groupPages == Stored(old(groupPages), KeyOf(start, perPage), page)
    {
      UnfilteredPage(Listing(server.world.store.groups), start, perPage);
      var q := ApplyOptions(map[], [WithPageSize(perPage), WithStartIndex(start)]);
      var res := DoGroups(server, q, KeyOf(start, perPage));
      list, next := res.items, TokenAfter(start, res);
    }

    /** The GET behind it. */
    method DoGroups(server: ScimServer, q: Query, key: PageKey) returns (page: PageReply<Group>)
      requires server.Valid() && |server.world.store.groups| < MAX_INT && Get(q, "filter") == ""
      requires Paged(Matches(Listing(server.world.store.groups)), q) == PageFor(Listing(server.world.store.groups), key)
      modifies this`groupPages
      ensures page == ShownPage(old(groupPages), Listing(server.world.store.groups), key)
      ensures groupPages == Stored(old(groupPages), key, page)
    {
      var cached := Lookup(groupPages, key);
      if cached.Some? { page := cached.value; } else { page := server.HandleListGroups(q); }
      groupPages := Stored(groupPages, key, page);
    }
  }
}
