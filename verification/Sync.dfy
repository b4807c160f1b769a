/** A whole sync: listing users to the empty token, reading role grants off every resource, expanding
    group members, and what the sync filter lets through. */
module Sync {
  import opened Text
  import opened Sorting
  import opened Domain
  import opened Filter
  import opened Paging
  import opened Coverage
  import opened Store
  import opened Roles
  import opened Server
  import opened Caching
  import opened Client
  import opened Connector

  // ---------- What the client is shown of a listing ----------

  /** The pages a sync of n items asks, and no other: its cursors are the multiples of the page size. */
  function Asked(j: nat, n: nat): PageKey
    requires n < MAX_INT && IsAsked(j, n)
  {
    KeyOf(Times(j, LIST_PAGE_SIZE), LIST_PAGE_SIZE)
  }

  predicate IsAsked(j: nat, n: nat) {
    j == 0 || Times(j, LIST_PAGE_SIZE) < n
  }

  /** The server lists `served`; with what is cached, a sync is shown the pages of `items`. */
  ghost predicate Shows<T>(pages: PageCache<T>, served: seq<T>, items: seq<T>)
    requires |served| < MAX_INT && |items| < MAX_INT
  {
    forall j: nat :: IsAsked(j, |items|) ==> ShownPage(pages, served, Asked(j, |items|)) == PageFor(items, Asked(j, |items|))
  }

  /** The first k pages of `items` are cached. */
  ghost predicate Keeps<T>(pages: PageCache<T>, items: seq<T>, k: nat)
    requires |items| < MAX_INT
  {
    pages.Memory? ==>
      forall j: nat :: j < k && IsAsked(j, |items|) ==>
        Lookup(pages, Asked(j, |items|)) == Some(PageFor(items, Asked(j, |items|)))
  }

  /** With nothing cached, or with the cache disabled, a sync is shown what the server lists. */
  lemma ColdShows<T>(pages: PageCache<T>, served: seq<T>)
    requires |served| < MAX_INT && forall key :: Lookup(pages, key).None?
    ensures Shows(pages, served, served)
  {
  }

  /** Once a sync is through, and until entries are dropped, the next one is shown the same pages,
      whatever the server lists by then. */
  lemma SyncReplays<T>(pages: PageCache<T>, items: seq<T>, calls: nat, served: seq<T>)
    requires |served| < MAX_INT && |items| < MAX_INT && pages.Memory?
    requires Keeps(pages, items, calls) && JustEnough(calls, |items|, LIST_PAGE_SIZE)
    ensures Shows(pages, served, items)
  {
    forall j: nat | IsAsked(j, |items|)
      ensures ShownPage(pages, served, Asked(j, |items|)) == PageFor(items, Asked(j, |items|))
    {
      if j >= calls {
        TimesIsProduct(j, LIST_PAGE_SIZE);
        TimesIsProduct(calls, LIST_PAGE_SIZE);
        MultiplyMonotone(calls, j, LIST_PAGE_SIZE);
        assert false;
      }
    }
  }

  /** Keeping the page that was shown changes nothing that is shown. */
  lemma StoredShows<T>(pages: PageCache<T>, served: seq<T>, kept: PageKey, key: PageKey)
    requires |served| < MAX_INT
    ensures ShownPage(Stored(pages, kept, ShownPage(pages, served, kept)), served, key) == ShownPage(pages, served, key)
  {
  }

  lemma StoredFinds<T>(pages: PageCache<T>, kept: PageKey, page: PageReply<T>, key: PageKey)
    requires pages.Memory?
    ensures Lookup(Stored(pages, kept, page), key) == if key == kept then Some(page) else Lookup(pages, key)
  {
  }

  /** ... and keeps one page more. */
  lemma KeepsOneMore<T>(pages: PageCache<T>, served: seq<T>, items: seq<T>, k: nat)
    requires |served| < MAX_INT && |items| < MAX_INT && IsAsked(k, |items|)
    requires Shows(pages, served, items) && Keeps(pages, items, k)
    ensures var pages' := Stored(pages, Asked(k, |items|), ShownPage(pages, served, Asked(k, |items|)));
            Shows(pages', served, items) && Keeps(pages', items, k + 1)
  {
    var kept := Asked(k, |items|);
    var pages' := Stored(pages, kept, ShownPage(pages, served, kept));
    forall j: nat | IsAsked(j, |items|)
      ensures ShownPage(pages', served, Asked(j, |items|)) == PageFor(items, Asked(j, |items|))
    {
      StoredShows(pages, served, kept, Asked(j, |items|));
    }
    if pages'.Memory? {
      forall j: nat | j < k + 1 && IsAsked(j, |items|)
        ensures Lookup(pages', Asked(j, |items|)) == Some(PageFor(items, Asked(j, |items|)))
      {
        StoredFinds(pages, kept, ShownPage(pages, served, kept), Asked(j, |items|));
      }
    }
  }

  // ---------- Driving a listing to its end ----------

  /** How far a listing of `items` has come: the List calls made, what they delivered, and the token the
      next one is given, if there is one. */
  datatype Progress<T> = Progress(items: seq<T>, calls: nat, delivered: seq<T>, token: BagToken)

  predicate GoingOn<T>(p: Progress<T>) { p.calls == 0 || p.token != Empty }

  /** Before a List call, at cursor t. */
  ghost predicate UnderWay<T>(p: Progress<T>, resourceType: string, t: GoInt) {
    && t >= 0 && SoFar(p.items, LIST_PAGE_SIZE, t, p.calls, p.delivered)
    && p.token == (if p.calls == 0 then Empty else TokenAt(resourceType, Some(t)))
  }

  /** After the last List call. */
  ghost predicate Through<T>(p: Progress<T>) {
    p.token == Empty && p.delivered == Delivered(p.items, LIST_PAGE_SIZE) && JustEnough(p.calls, |p.items|, LIST_PAGE_SIZE)
  }

  /** One or the other; and what the client is shown, and keeps. */
  ghost predicate Along<T>(pages: PageCache<T>, served: seq<T>, resourceType: string, p: Progress<T>)
    requires |served| < MAX_INT
  {
    match p
    case Progress(items, calls, _, _) =>
      && |items| < MAX_INT && Shows(pages, served, items) && Keeps(pages, items, calls)
      && if GoingOn(p) then exists t :: UnderWay(p, resourceType, t) else Through(p)
  }

  lemma StartsAlong<T>(pages: PageCache<T>, served: seq<T>, items: seq<T>, resourceType: string)
    requires |served| < MAX_INT && |items| < MAX_INT && Shows(pages, served, items)
    ensures Along(pages, served, resourceType, Progress(items, 0, [], Empty))
  {
    var t: GoInt := 0;
    assert UnderWay(Progress(items, 0, [], Empty), resourceType, t);
  }

  lemma EndsThrough<T>(pages: PageCache<T>, served: seq<T>, resourceType: string, p: Progress<T>)
    requires |served| < MAX_INT && Along(pages, served, resourceType, p) && !GoingOn(p)
    ensures Through(p) && |p.items| < MAX_INT && Keeps(pages, p.items, p.calls)
  {
  }

  /** A List call asks page number p.calls, and answers it. */
  lemma CallAnswers<T>(pages: PageCache<T>, served: seq<T>, resourceType: string, p: Progress<T>, t: GoInt)
    requires |served| < MAX_INT && |p.items| < MAX_INT && Shows(pages, served, p.items) && UnderWay(p, resourceType, t)
    ensures IsAsked(p.calls, |p.items|) && StartOf(p.token, resourceType) == Some(t)
    ensures Asked(p.calls, |p.items|) == KeyOf(t, LIST_PAGE_SIZE)
    ensures ListReplyFor(pages, served, p.token, resourceType)
            == Listed(ShippedPage(p.items, LIST_PAGE_SIZE, t),
                      TokenAt(resourceType, if t + LIST_PAGE_SIZE < |p.items| then Some(t + LIST_PAGE_SIZE) else None))
  {
    assert IsAsked(p.calls, |p.items|);
    ListFollowsCursor(pages, served, p.items, resourceType, t, p.token);
    ShippedStep(p.items, LIST_PAGE_SIZE, t);
  }

  /** What one more page makes of the progress. */
  function OnePageOn<T>(p: Progress<T>, page: seq<T>, next: BagToken): Progress<T> {
    Progress(p.items, p.calls + 1, p.delivered + page, next)
  }

  /** The page takes the listing on, or completes it. */
  lemma PageTakesOn<T>(resourceType: string, p: Progress<T>, t: GoInt)
    requires |p.items| < MAX_INT && UnderWay(p, resourceType, t)
    ensures var page := ShippedPage(p.items, LIST_PAGE_SIZE, t);
            if t + LIST_PAGE_SIZE < |p.items| then
              UnderWay(OnePageOn(p, page, TokenAt(resourceType, Some(t + LIST_PAGE_SIZE))), resourceType, t + LIST_PAGE_SIZE)
            else Through(OnePageOn(p, page, Empty))
  {
    if t + LIST_PAGE_SIZE < |p.items| {
      GoesOn(p.items, LIST_PAGE_SIZE, t, p.calls, p.delivered);
    } else {
      Finishes(p.items, LIST_PAGE_SIZE, t, p.calls, p.delivered);
      FinishesInTime(p.items, LIST_PAGE_SIZE, t, p.calls, p.delivered);
    }
  }

  lemma StepAt<T>(pages: PageCache<T>, served: seq<T>, resourceType: string, p: Progress<T>, t: GoInt)
    requires |served| < MAX_INT && |p.items| < MAX_INT && UnderWay(p, resourceType, t)
    requires Shows(pages, served, p.items) && Keeps(pages, p.items, p.calls)
    ensures var page := ShippedPage(p.items, LIST_PAGE_SIZE, t);
            var next := TokenAt(resourceType, if t + LIST_PAGE_SIZE < |p.items| then Some(t + LIST_PAGE_SIZE) else None);
            && ListReplyFor(pages, served, p.token, resourceType) == Listed(page, next)
            && Along(PagesAfter(pages, served, p.token, resourceType), served, resourceType, OnePageOn(p, page, next))
  {
    CallAnswers(pages, served, resourceType, p, t);
    KeepsOneMore(pages, served, p.items, p.calls);
    PageTakesOn(resourceType, p, t);
  }

  lemma CallsAreBounded<T>(resourceType: string, p: Progress<T>, t: GoInt)
    requires UnderWay(p, resourceType, t)
    ensures p.calls <= |p.items|
  {
    TimesIsProduct(p.calls, LIST_PAGE_SIZE);
  }

  /** One List call takes a listing one page on, or completes it; a listing of n items goes on for at most
      n calls. */
  lemma SyncStep<T>(pages: PageCache<T>, served: seq<T>, resourceType: string, p: Progress<T>)
    requires |served| < MAX_INT && Along(pages, served, resourceType, p) && GoingOn(p)
    ensures p.calls <= |p.items|
    ensures var reply := ListReplyFor(pages, served, p.token, resourceType);
            && reply.Listed?
            && Along(PagesAfter(pages, served, p.token, resourceType), served, resourceType,
                     OnePageOn(p, reply.resources, reply.next))
  {
    var t: GoInt :| UnderWay(p, resourceType, t);
    CallsAreBounded(resourceType, p, t);
    StepAt(pages, served, resourceType, p, t);
  }

  // ---------- Users ----------

  /** The server is sound, and stores these users. */
  ghost predicate StoresUsers(server: ScimServer, stored: map<string, User>)
    reads server, server.users.Values, server.groups.Values
  {
    server.Valid() && |stored| < MAX_INT && server.world.store.users == stored
  }

  method UserPage(client: NotionClient, server: ScimServer, ghost stored: map<string, User>, token: BagToken)
    returns (reply: Listed<UserResource>)
    requires StoresUsers(server, stored)
    modifies client`userPages
    ensures StoresUsers(server, stored)
    ensures var want := ListReplyFor(old(client.userPages), Listing(stored), token, "user");
            reply == if want.ListFailed? then ListFailed else Listed(UserResources(want.resources), want.next)
    ensures client.userPages == PagesAfter(old(client.userPages), Listing(stored), token, "user")
  {
    reply := ListUserResources(client, server, token);
  }

  /** A user sync under way. */
  ghost predicate UsersAlong(client: NotionClient, server: ScimServer, stored: map<string, User>, p: Progress<User>)
    reads client, server, server.users.Values, server.groups.Values
  {
    match p
    case Progress(_, _, _, _) => StoresUsers(server, stored) && Along(client.userPages, Listing(stored), "user", p)
  }

  /** One List call of a user sync: its resources join those collected so far. */
  method SyncUserPage(client: NotionClient, server: ScimServer, ghost stored: map<string, User>, ghost p: Progress<User>,
                      collected: seq<UserResource>, token: BagToken)
    returns (resources: seq<UserResource>, next: BagToken, ghost p': Progress<User>)
    requires UsersAlong(client, server, stored, p) && GoingOn(p)
    requires token == p.token && collected == UserResources(p.delivered)
    modifies client`userPages
    ensures UsersAlong(client, server, stored, p')
    ensures p'.items == p.items && p'.calls == p.calls + 1 <= |p.items| + 1
    ensures p'.token == next && resources == UserResources(p'.delivered)
  {
    ghost var pages := client.userPages;
    var reply := UserPage(client, server, stored, token);
    SyncStep(pages, Listing(stored), "user", p);
    ghost var want := ListReplyFor(pages, Listing(stored), token, "user");
    p' := OnePageOn(p, want.resources, want.next);
    ResourcesConcat(p.delivered, want.resources);
    resources, next := collected + reply.resources, reply.next;
  }

  /** Call List with the empty token, then with whatever token it returned, until that is empty. */
  method DriveUsers(client: NotionClient, server: ScimServer, ghost stored: map<string, User>, ghost start: Progress<User>)
    returns (resources: seq<UserResource>, calls: nat, ghost end: Progress<User>)
    requires UsersAlong(client, server, stored, start) && start == Progress(start.items, 0, [], Empty)
    modifies client`userPages
    ensures UsersAlong(client, server, stored, end) && end.items == start.items && end.calls == calls
    ensures !GoingOn(end) && resources == UserResources(end.delivered)
  {
    end := start;
    var token := Empty;
    resources, calls := [], 0;
    while calls == 0 || token != Empty
      invariant UsersAlong(client, server, stored, end)
      invariant end.items == start.items && end.calls == calls <= |start.items| + 1
      invariant end.token == token && resources == UserResources(end.delivered)
      decreases |start.items| + 1 - calls
    {
      resources, token, end := SyncUserPage(client, server, stored, end, resources, token);
      calls := calls + 1;
    }
  }

  /** A whole listing: `items` is what the client is shown, the server's own listing when nothing is
      cached. */
  method SyncUsers(client: NotionClient, server: ScimServer, ghost items: seq<User>)
    returns (resources: seq<UserResource>, calls: nat)
    requires server.Valid() && |server.world.store.users| < MAX_INT && |items| < MAX_INT
    requires Shows(client.userPages, Listing(server.world.store.users), items)
    modifies client`userPages
    ensures resources == UserResources(Delivered(items, LIST_PAGE_SIZE))
    ensures JustEnough(calls, |items|, LIST_PAGE_SIZE)
    ensures Keeps(client.userPages, items, calls)
  {
    ghost var end;
    ghost var stored := server.world.store.users;
    StartsAlong(client.userPages, Listing(stored), items, "user");
    resources, calls, end := DriveUsers(client, server, stored, Progress(items, 0, [], Empty));
    EndsThrough(client.userPages, Listing(stored), "user", end);
  }

  lemma ResourcesConcat(a: seq<User>, b: seq<User>)
    ensures UserResources(a) + UserResources(b) == UserResources(a + b)
  {
  }

  function AllGrants(rs: seq<UserResource>): seq<RoleGrant> {
    if rs == [] then [] else AllGrants(rs[..|rs| - 1]) + UserGrants(rs[|rs| - 1])
  }

  method CollectGrants(resources: seq<UserResource>) returns (grants: seq<RoleGrant>)
    ensures grants == AllGrants(resources)
  {
    grants := [];
    for i := 0 to |resources|
      invariant grants == AllGrants(resources[..i])
    {
      assert resources[..i + 1][..i] == resources[..i];
      grants := grants + UserGrants(resources[i]);
    }
    assert resources[..|resources|] == resources;
  }

  /** ... then call Grants on every resource that was listed. */
  method SyncRoleGrants(client: NotionClient, server: ScimServer, ghost items: seq<User>) returns (grants: seq<RoleGrant>)
    requires server.Valid() && |server.world.store.users| < MAX_INT && |items| < MAX_INT
    requires Shows(client.userPages, Listing(server.world.store.users), items)
    modifies client`userPages
    ensures GrantSet(grants) == Granted(Delivered(items, LIST_PAGE_SIZE))
  {
    var resources, calls := SyncUsers(client, server, items);
    grants := CollectGrants(resources);
    AllGrantsAre(Delivered(items, LIST_PAGE_SIZE));
  }

  ghost function Granted(users: seq<User>): set<RoleGrant> {
    set u, g | u in users && g in GrantsOf(u) :: g
  }

  ghost function GrantSet(grants: seq<RoleGrant>): set<RoleGrant> {
    set g | g in grants
  }

  lemma GrantedSnoc(users: seq<User>, u: User)
    ensures Granted(users + [u]) == Granted(users) + GrantsOf(u)
  {
  }

  lemma AllGrantsSnoc(rs: seq<UserResource>, r: UserResource)
    ensures GrantSet(AllGrants(rs + [r])) == GrantSet(AllGrants(rs)) + GrantSet(UserGrants(r))
  {
    assert (rs + [r])[..|rs|] == rs;
  }

  /** What comes back out of the resources is what the users stand for. */
  lemma {:induction false} AllGrantsAre(users: seq<User>)
    ensures GrantSet(AllGrants(UserResources(users))) == Granted(users)
  {
    if users != [] {
      var n := |users| - 1;
      var before, u := users[..n], users[n];
      assert users == before + [u];
      AllGrantsAre(before);
      GrantedSnoc(before, u);
      AllGrantsSnoc(UserResources(before), UserResourceOf(u));
      assert UserResources(users) == UserResources(before) + [UserResourceOf(u)];
      OneResource(u);
    }
  }

  lemma OneResource(u: User)
    ensures GrantSet(UserGrants(UserResourceOf(u))) == GrantsOf(u)
  {
    GrantsSurviveProfile(u);
  }

  // ---------- What a sync reaches ----------

  /** The greatest ID. */
  ghost predicate IsLast(ids: set<string>, id: string) {
    id in ids && forall other :: other in ids ==> other == id || Less(other, id)
  }

  /** What the shipped loop leaves out of a listing by these IDs. */
  ghost predicate Missed(ids: set<string>, id: string) {
    MissesLast(|ids|, LIST_PAGE_SIZE) && IsLast(ids, id)
  }

  lemma MissedMeans(ids: set<string>, id: string)
    ensures Missed(ids, id)
            <==> |ids| >= 200 && |ids| % 100 == 0 && id in ids && forall other :: other in ids && other != id ==> Less(other, id)
  {
  }

  lemma ListingIsDistinct<T>(m: map<string, T>, key: T -> string)
    requires forall id :: id in m ==> key(m[id]) == id
    ensures Distinct(Listing(m))
    ensures forall x :: x in Listing(m) <==> key(x) in m && m[key(x)] == x
  {
    var keys := SortedKeys(m.Keys);
    forall i, j | 0 <= i < j < |keys| ensures Listing(m)[i] != Listing(m)[j] {
      LessIsTotal(keys[i], keys[j]);
      assert keys[i] in m && keys[j] in m;
    }
    forall x ensures x in Listing(m) <==> key(x) in m && m[key(x)] == x {
      if key(x) in m && m[key(x)] == x {
        var i :| 0 <= i < |keys| && keys[i] == key(x);
        assert Listing(m)[i] == x;
      }
      if x in Listing(m) {
        var i :| 0 <= i < |m| && Listing(m)[i] == x;
        assert keys[i] in m;
      }
    }
  }

  lemma LastIsListed<T>(m: map<string, T>, key: T -> string, id: string)
    requires (forall k :: k in m ==> key(m[k]) == k) && id in m
    ensures |m| > 0 && (IsLast(m.Keys, id) <==> m[id] == Listing(m)[|m| - 1])
  {
    var keys := SortedKeys(m.Keys);
    var n := |keys| - 1;
    assert id in m.Keys;
    assert keys[n] in m.Keys;
    forall other | other in m.Keys ensures other == keys[n] || Less(other, keys[n]) {
      var i :| 0 <= i < |keys| && keys[i] == other;
    }
    LessIsTotal(id, keys[n]);
  }

  /** A sync of a map's listing delivers exactly what is stored, but for the greatest ID when the page
      size divides the number of items and there are at least two pages. */
  lemma SyncReaches<T>(m: map<string, T>, key: T -> string, x: T)
    requires forall id :: id in m ==> key(m[id]) == id
    ensures x in Delivered(Listing(m), LIST_PAGE_SIZE)
            <==> key(x) in m && m[key(x)] == x && !Missed(m.Keys, key(x))
  {
    var items := Listing(m);
    ListingIsDistinct(m, key);
    assert |m.Keys| == |m|;
    if x in items {
      ItemsAreDelivered(items, LIST_PAGE_SIZE, x);
      LastIsListed(m, key, key(x));
    } else if x in Delivered(items, LIST_PAGE_SIZE) {
      DeliveredAreItems(items, LIST_PAGE_SIZE, x);
    }
  }

  /** The role grants a sync of this store emits when nothing is cached. */
  ghost function SyncedGrants(st: StoreState): set<RoleGrant> {
    Granted(Delivered(Listing(st.users), LIST_PAGE_SIZE))
  }

  /** End to end: the sync emits exactly the grants of a full scan, u with u's stored role for every
      user whose role is supported, except that it leaves out the user with the greatest ID when the
      page size divides the number of users and there are at least two pages. */
  lemma SyncEmits(st: StoreState, g: RoleGrant)
    requires KeysAreIds(st)
    ensures g in SyncedGrants(st) <==> g in FullScan(st) && !Missed(st.users.Keys, g.user)
  {
    var delivered := Delivered(Listing(st.users), LIST_PAGE_SIZE);
    if g in SyncedGrants(st) {
      var u :| u in delivered && g in GrantsOf(u);
      SyncReaches(st.users, UserKey(), u);
    }
    if g in FullScan(st) && !Missed(st.users.Keys, g.user) {
      var id :| id in st.users && g in GrantsOf(st.users[id]);
      SyncReaches(st.users, UserKey(), st.users[id]);
      assert st.users[id] in delivered;
    }
  }

  /** What a cold sync returns: a resource for every stored user but the one that is missed, as that user
      looks, and nothing else. */
  lemma SyncedUsersAre(st: StoreState, r: UserResource)
    requires KeysAreIds(st)
    ensures r in UserResources(Delivered(Listing(st.users), LIST_PAGE_SIZE))
            <==> r.id in st.users && !Missed(st.users.Keys, r.id) && LooksLike(r, st.users[r.id])
  {
    var delivered := Delivered(Listing(st.users), LIST_PAGE_SIZE);
    if r in UserResources(delivered) {
      var i :| 0 <= i < |delivered| && UserResources(delivered)[i] == r;
      SyncReaches(st.users, UserKey(), delivered[i]);
      UserResourceMeans(r, delivered[i]);
    }
    if r.id in st.users && !Missed(st.users.Keys, r.id) && LooksLike(r, st.users[r.id]) {
      SyncReaches(st.users, UserKey(), st.users[r.id]);
      var i :| 0 <= i < |delivered| && delivered[i] == st.users[r.id];
      UserResourceMeans(r, delivered[i]);
      assert UserResources(delivered)[i] == r;
    }
  }

  // ---------- Groups ----------

  ghost predicate StoresGroups(server: ScimServer, stored: map<string, Group>)
    reads server, server.users.Values, server.groups.Values
  {
    server.Valid() && |stored| < MAX_INT && server.world.store.groups == stored
  }

  datatype MemberGrant = MemberGrant(group: string, user: string)

  function MemberGrants(groupId: string, members: seq<string>): (grants: seq<MemberGrant>)
    ensures |grants| == |members|
    ensures forall i :: 0 <= i < |grants| ==> grants[i] == MemberGrant(groupId, members[i])
  {
    seq(|members|, i requires 0 <= i < |members| => MemberGrant(groupId, members[i]))
  }

  /** groupBuilder.Grants: one grant per member of the group the client is shown, in order; None when
      there is none. */
  method GroupGrants(client: NotionClient, server: ScimServer, groupId: string) returns (grants: Option<seq<MemberGrant>>)
    requires server.Valid()
    modifies client`groups
    ensures var shown := ShownGroup(old(client.groups), server.world.store, groupId);
            && grants == (if shown.Some? then Some(MemberGrants(groupId, shown.value.members)) else None)
            && client.groups == GroupsAfter(old(client.groups), server.world.store, groupId)
  {
    var group := client.GetGroup(server, groupId);
    if group.None? { return None; }
    var members := group.value.members;
    var out := [];
    for i := 0 to |members|
      invariant out == MemberGrants(groupId, members[..i])
    {
      out := out + [MemberGrant(groupId, members[i])];
    }
    assert members[..|members|] == members;
    grants := Some(out);
  }

  method GroupPage(client: NotionClient, server: ScimServer, ghost stored: map<string, Group>, token: BagToken)
    returns (reply: Listed<GroupResource>)
    requires StoresGroups(server, stored)
    modifies client`groupPages
    ensures StoresGroups(server, stored)
    ensures var want := ListReplyFor(old(client.groupPages), Listing(stored), token, "group");
            reply == if want.ListFailed? then ListFailed else Listed(GroupResources(want.resources), want.next)
    ensures client.groupPages == PagesAfter(old(client.groupPages), Listing(stored), token, "group")
  {
    reply := ListGroupResources(client, server, token);
  }

  /** A group sync under way. */
  ghost predicate GroupsAlong(client: NotionClient, server: ScimServer, stored: map<string, Group>, p: Progress<Group>)
    reads client, server, server.users.Values, server.groups.Values
  {
    match p
    case Progress(_, _, _, _) => StoresGroups(server, stored) && Along(client.groupPages, Listing(stored), "group", p)
  }

  /** One List call of a group sync: its resources join those collected so far. */
  method SyncGroupPage(client: NotionClient, server: ScimServer, ghost stored: map<string, Group>, ghost p: Progress<Group>,
                      collected: seq<GroupResource>, token: BagToken)
    returns (resources: seq<GroupResource>, next: BagToken, ghost p': Progress<Group>)
    requires GroupsAlong(client, server, stored, p) && GoingOn(p)
    requires token == p.token && collected == GroupResources(p.delivered)
    modifies client`groupPages
    ensures GroupsAlong(client, server, stored, p')
    ensures p'.items == p.items && p'.calls == p.calls + 1 <= |p.items| + 1
    ensures p'.token == next && resources == GroupResources(p'.delivered)
  {
    ghost var pages := client.groupPages;
    var reply := GroupPage(client, server, stored, token);
    SyncStep(pages, Listing(stored), "group", p);
    ghost var want := ListReplyFor(pages, Listing(stored), token, "group");
    p' := OnePageOn(p, want.resources, want.next);
    GroupResourcesConcat(p.delivered, want.resources);
    resources, next := collected + reply.resources, reply.next;
  }

  /** Call List with the empty token, then with whatever token it returned, until that is empty. */
  method DriveGroups(client: NotionClient, server: ScimServer, ghost stored: map<string, Group>, ghost start: Progress<Group>)
    returns (resources: seq<GroupResource>, calls: nat, ghost end: Progress<Group>)
    requires GroupsAlong(client, server, stored, start) && start == Progress(start.items, 0, [], Empty)
    modifies client`groupPages
    ensures GroupsAlong(client, server, stored, end) && end.items == start.items && end.calls == calls
    ensures !GoingOn(end) && resources == GroupResources(end.delivered)
  {
    end := start;
    var token := Empty;
    resources, calls := [], 0;
    while calls == 0 || token != Empty
      invariant GroupsAlong(client, server, stored, end)
      invariant end.items == start.items && end.calls == calls <= |start.items| + 1
      invariant end.token == token && resources == GroupResources(end.delivered)
      decreases |start.items| + 1 - calls
    {
      resources, token, end := SyncGroupPage(client, server, stored, end, resources, token);
      calls := calls + 1;
    }
  }

  /** The group listing, driven to its end the same way. */
  method SyncGroups(client: NotionClient, server: ScimServer, ghost items: seq<Group>)
    returns (resources: seq<GroupResource>, calls: nat)
    requires server.Valid() && |server.world.store.groups| < MAX_INT && |items| < MAX_INT
    requires Shows(client.groupPages, Listing(server.world.store.groups), items)
    modifies client`groupPages
    ensures resources == GroupResources(Delivered(items, LIST_PAGE_SIZE))
    ensures JustEnough(calls, |items|, LIST_PAGE_SIZE)
    ensures Keeps(client.groupPages, items, calls)
  {
    ghost var end;
    ghost var stored := server.world.store.groups;
    StartsAlong(client.groupPages, Listing(stored), items, "group");
    resources, calls, end := DriveGroups(client, server, stored, Progress(items, 0, [], Empty));
    EndsThrough(client.groupPages, Listing(stored), "group", end);
  }

  lemma GroupResourcesConcat(a: seq<Group>, b: seq<Group>)
    ensures GroupResources(a) + GroupResources(b) == GroupResources(a + b)
  {
  }

  /** The client is shown every stored group as it is. */
  ghost predicate ShowsGroups(groups: Cache<string, Group>, st: StoreState) {
    forall id :: id in st.groups ==> ShownGroup(groups, st, id) == Some(st.groups[id])
  }

  lemma GroupsStayShown(groups: Cache<string, Group>, st: StoreState, id: string)
    requires ShowsGroups(groups, st) && GroupIdsAreUuids(st) && id in st.groups
    ensures ShowsGroups(Stored(groups, CacheKey(id), st.groups[id]), st)
  {
    forall other | other in st.groups
      ensures ShownGroup(Stored(groups, CacheKey(id), st.groups[id]), st, other) == Some(st.groups[other])
    {
      LowerUuid(id);
      LowerUuid(other);
    }
  }

  function AllMembers(groups: seq<Group>): seq<MemberGrant> {
    if groups == [] then []
    else AllMembers(groups[..|groups| - 1]) + MemberGrants(groups[|groups| - 1].id, groups[|groups| - 1].members)
  }

  ghost predicate AreStored(st: StoreState, groups: seq<Group>) {
    forall i :: 0 <= i < |groups| ==> groups[i].id in st.groups && st.groups[groups[i].id] == groups[i]
  }

  /** Call Grants on every resource that was listed. */
  method CollectMembers(client: NotionClient, server: ScimServer, ghost st: StoreState, ghost listed: seq<Group>,
                        resources: seq<GroupResource>)
    returns (grants: seq<MemberGrant>)
    requires server.Valid() && server.world.store == st && ShowsGroups(client.groups, st) && GroupIdsAreUuids(st)
    requires AreStored(st, listed) && resources == GroupResources(listed)
    modifies client`groups
    ensures grants == AllMembers(listed)
  {
    grants := [];
    for i := 0 to |resources|
      invariant server.Valid() && server.world.store == st && ShowsGroups(client.groups, st)
      invariant grants == AllMembers(listed[..i])
    {
      GroupsStayShown(client.groups, st, listed[i].id);
      assert listed[..i + 1][..i] == listed[..i];
      var more := GroupGrants(client, server, resources[i].id);
      grants := grants + more.value;
    }
    assert listed[..|resources|] == listed;
  }

  /** A group sync: list the groups to the empty token, then expand every one of them. */
  method SyncMemberGrants(client: NotionClient, server: ScimServer, ghost st: StoreState) returns (grants: seq<MemberGrant>)
    requires server.Valid() && server.world.store == st && |st.groups| < MAX_INT
    requires Shows(client.groupPages, Listing(st.groups), Listing(st.groups))
    requires ShowsGroups(client.groups, st) && GroupIdsAreUuids(st)
    modifies client`groupPages, client`groups
    ensures grants == AllMembers(Delivered(Listing(st.groups), LIST_PAGE_SIZE))
  {
    assert KeysAreIds(st);
    DeliveredAreStored(st);
    var resources, calls := SyncGroups(client, server, Listing(st.groups));
    grants := CollectMembers(client, server, st, Delivered(Listing(st.groups), LIST_PAGE_SIZE), resources);
  }

  lemma DeliveredAreStored(st: StoreState)
    requires KeysAreIds(st)
    ensures AreStored(st, Delivered(Listing(st.groups), LIST_PAGE_SIZE))
  {
    var delivered := Delivered(Listing(st.groups), LIST_PAGE_SIZE);
    forall i | 0 <= i < |delivered| ensures delivered[i].id in st.groups && st.groups[delivered[i].id] == delivered[i] {
      SyncReaches(st.groups, GroupKey(), delivered[i]);
    }
  }

  predicate HasMember(groups: seq<Group>, g: MemberGrant) {
    exists i :: 0 <= i < |groups| && groups[i].id == g.group && g.user in groups[i].members
  }

  lemma MemberGrantsAre(groupId: string, members: seq<string>, g: MemberGrant)
    ensures g in MemberGrants(groupId, members) <==> g.group == groupId && g.user in members
  {
    if g.group == groupId && g.user in members {
      var i :| 0 <= i < |members| && members[i] == g.user;
      assert MemberGrants(groupId, members)[i] == g;
    }
  }

  lemma {:induction false} AllMembersAre(groups: seq<Group>, g: MemberGrant)
    ensures g in AllMembers(groups) <==> HasMember(groups, g)
  {
    if groups != [] {
      var n := |groups| - 1;
      AllMembersAre(groups[..n], g);
      MemberGrantsAre(groups[n].id, groups[n].members, g);
      assert HasMember(groups, g) <==> HasMember(groups[..n], g) || (groups[n].id == g.group && g.user in groups[n].members);
    }
  }

  /** A group sync emits exactly the stored memberships, except those of the group with the greatest
      ID when the page size divides the number of groups and there are at least two pages. */
  lemma GroupSyncEmits(st: StoreState, g: MemberGrant)
    requires KeysAreIds(st)
    ensures g in AllMembers(Delivered(Listing(st.groups), LIST_PAGE_SIZE))
            <==> g.group in st.groups && g.user in st.groups[g.group].members && !Missed(st.groups.Keys, g.group)
  {
    var delivered := Delivered(Listing(st.groups), LIST_PAGE_SIZE);
    AllMembersAre(delivered, g);
    if g in AllMembers(delivered) {
      var i :| 0 <= i < |delivered| && delivered[i].id == g.group && g.user in delivered[i].members;
      SyncReaches(st.groups, GroupKey(), delivered[i]);
    }
    if g.group in st.groups {
      SyncReaches(st.groups, GroupKey(), st.groups[g.group]);
      if st.groups[g.group] in delivered {
        var i :| 0 <= i < |delivered| && delivered[i] == st.groups[g.group];
      }
    }
  }

  /** No dangling member grants: after any run from the seed, every principal that group Grants emits
      is a stored user. */
  lemma NoDanglingMembers(fold: CaseFold, rs: seq<Request>, groupId: string, g: MemberGrant)
    requires CanServeAll(fold, SeedWorld(), rs)
    requires groupId in ServeAll(fold, SeedWorld(), rs).store.groups
    requires g in MemberGrants(groupId, ServeAll(fold, SeedWorld(), rs).store.groups[groupId].members)
    ensures g.user in ServeAll(fold, SeedWorld(), rs).store.users
  {
    ReachableStates(fold, rs);
    var group := ServeAll(fold, SeedWorld(), rs).store.groups[groupId];
    var i :| 0 <= i < |group.members| && MemberGrants(groupId, group.members)[i] == g;
    assert group.members[i] == g.user;
  }

  /** The same for groups. */
  lemma SyncedGroupsAre(st: StoreState, r: GroupResource)
    requires KeysAreIds(st)
    ensures r in GroupResources(Delivered(Listing(st.groups), LIST_PAGE_SIZE))
            <==> && r.id in st.groups && !Missed(st.groups.Keys, r.id) && r.displayName == st.groups[r.id].displayName
                 && r.profile == map["group_id" := r.id, "group_name" := r.displayName]
  {
    var delivered := Delivered(Listing(st.groups), LIST_PAGE_SIZE);
    if r in GroupResources(delivered) {
      var i :| 0 <= i < |delivered| && GroupResources(delivered)[i] == r;
      SyncReaches(st.groups, GroupKey(), delivered[i]);
    }
    if r.id in st.groups && !Missed(st.groups.Keys, r.id) {
      SyncReaches(st.groups, GroupKey(), st.groups[r.id]);
      var i :| 0 <= i < |delivered| && delivered[i] == st.groups[r.id];
      if r == GroupResourceOf(delivered[i]) { assert GroupResources(delivered)[i] == r; }
    }
  }

  // ---------- The sync filter ----------

  datatype Annotation = SkipEntitlements | SkipEntitlementsAndGrants

  class ResourceType {
    var id: string
    var annotations: seq<Annotation>

    constructor (id: string, annotations: seq<Annotation>)
      ensures this.id == id && this.annotations == annotations
    {
      this.id, this.annotations := id, annotations;
    }
  }

  /** An empty filter syncs everything. */
  predicate WillSync(filter: seq<string>, resourceType: string) {
    filter == [] || resourceType in filter
  }

  function UserTypeAnnotation(syncRoles: bool): Annotation {
    if syncRoles then SkipEntitlements else SkipEntitlementsAndGrants
  }

  /** userBuilder.ResourceType: annotate a clone, never the package's own value. */
  method UserResourceType(shared: ResourceType, syncRoles: bool) returns (rt: ResourceType)
    ensures fresh(rt) && rt.id == shared.id
    ensures rt.annotations == shared.annotations + [UserTypeAnnotation(syncRoles)]
  {
    rt := new ResourceType(shared.id, shared.annotations);
    rt.annotations := rt.annotations + [UserTypeAnnotation(syncRoles)];
  }

  /** The role resources a sync under this filter lists. */
  function ListedRoles(filter: seq<string>): set<string> {
    if WillSync(filter, "role") then RolesById().Keys else {}
  }

  /** The role grants the SDK collects: it lists users and calls Grants on them if the filter lets
      the user type through and its annotations do not tell it to skip grants. */
  ghost function CollectedGrants(filter: seq<string>, st: StoreState): set<RoleGrant> {
    if WillSync(filter, "user") && UserTypeAnnotation(WillSync(filter, "role")) != SkipEntitlementsAndGrants
    then SyncedGrants(st) else {}
  }

  /** No dangling role grants, for every filter; and a filter that lets both types through loses none. */
  lemma NoDanglingRoles(filter: seq<string>, st: StoreState)
    requires KeysAreIds(st)
    ensures forall g :: g in CollectedGrants(filter, st) ==> g.role in ListedRoles(filter) && g.user in st.users
    ensures filter == [] || ("user" in filter && "role" in filter) ==> CollectedGrants(filter, st) == SyncedGrants(st)
  {
    forall g | g in CollectedGrants(filter, st) ensures g.role in ListedRoles(filter) && g.user in st.users {
      CollectedIsListed(filter, st, g);
    }
    NoGrantsLost(filter, st);
  }

  lemma NoGrantsLost(filter: seq<string>, st: StoreState)
    ensures filter == [] || ("user" in filter && "role" in filter) ==> CollectedGrants(filter, st) == SyncedGrants(st)
  {
  }

  lemma CollectedIsListed(filter: seq<string>, st: StoreState, g: RoleGrant)
    requires KeysAreIds(st) && g in CollectedGrants(filter, st)
    ensures g.role in ListedRoles(filter) && g.user in st.users
  {
    SyncEmits(st, g);
    SupportedIsKnown(g.role);
  }
}
