# Verified model of baton-notion

This project models baton-notion, a SCIM 2.0 connector for Notion, together with the in-memory SCIM
server it is run against, and proves properties of the two as one system. `dafny verify dfyconfig.toml`
checks everything.

## What is modelled

- **Text, Sorting, Filter, Patch, Paging** are the small languages: ID order, decimal integers,
  trimming and splitting, the insertion sort, the filter language, SCIM PATCH operations, page
  parameters and continuation cursors.
- **Store** is the server's data as a state machine with one atomic transition per handler (each
  handler holds the lock to its end). **Server** is the same server as it runs: user and group objects
  updated in place, ranges over maps in arbitrary order, in-place sorting. Its handlers are proved
  against the transitions of Store.
- **Caching** is the response cache that every GET of the connector goes through; **Client** is the SCIM
  client over it.
- **Coverage** says what the paged listing delivers. **Connector** and **Sync** carry that through page
  bag, tokens, resources and profiles to the grants a whole sync of users or groups emits.
- **Protocol** models Grant, Revoke, Delete and CreateAccount as processes of several requests, with
  steps of other calls and of other SCIM clients in between, reads that the cache may answer, and
  requests that are answered, refused, or served with the answer lost. **Linearization**, **Deletion** and
  **Privilege** say what that does to grants and revokes, to deletes, and to runs of revokes alone.
  **Ledger** keeps a caller's ledger from the annotations and compares it with a fresh scan.
  **Provisioning** is the same four calls as methods over the live server. **Divergence** holds the runs in
  which a condition does not hold.

## What the proofs found

- The listing loop keeps a cursor that starts at 0, sends it as index 1, and stops on a strict `<`. With
  N items and page size P it delivers position P twice whenever N > P, and misses position N exactly when
  P divides N and N >= 2P; the number delivered then still equals N, so a count does not show the miss.
- Revoking a held `restricted_member` is an error in `pkg/connector/role.go:254-256`, although
  `README.md:63` and `docs/docs-info.md:20` call it a no-op. The model follows the code.
- The server checks roles in PATCH but not in create, so a create request can store an unknown role.
- A filter on an unsupported attribute is refused only when there is a user to look at.
- `GrantReplaced` names what the GET saw. If calls on one user overlap, it can name a role that is no
  longer there, and a ledger built from the annotations ends with two roles for one user.
- If the confirming GET of a delete fails, the call reports an error although the user is gone.
- The client caches every GET answered with 200, for an hour by default, and PATCH and DELETE drop
  nothing from the cache. In one process, two grants on one user after another both name the role the
  first one read, and the ledger ends with two roles; a delete after a grant finds the user in the cache
  and reports that it still exists; a revoke after a grant of the role answers GrantAlreadyRevoked and
  the user keeps it; a repeated grant sends its PATCH again, although `pkg/connector/role.go:180-184`
  says otherwise; and a second sync emits what the first one did. When exactly a grant or revoke can be
  led astray is a matter of what is cached, or about to come in, when it begins; nothing cached and no
  other call reading the user, or a disabled cache, is a condition a caller can see to.
- A failing PATCH request is atomic exactly when nothing before the failing operation, and no stray entry
  in it, sets another role.

## Reading the statements

`CaseFold` stands for the character folding of `strings.EqualFold`; every theorem holds for each such
folding. Map iteration order and new UUIDs are inputs: theorems hold for every order and for every ID
not given out before. A `Books` value is a state of the system with the caller's ledger and, for the
proofs, the set of torn users, those on whom some call returned an error although its write had gone
through. A user `MayShow` to a call when it is cached, or when a reply that shows it has yet to come in and
to be cached. A system is `Cold` on a user when nothing may show; a grant is `GrantMisled` when a user with
the target role may show although the role is not held, and `RevokeMisled` and `ReplaceMisled` are the like.
The cache is `Current` on a user when what it holds, if anything, is what the server would answer. `Blamed`
users are those some call on which returned an error. Cache entries may vanish at any step.

## Model

| member | source | states |
|---|---|---|
| `Sorting.StableSort` | test-server/main.go:669-675 | the two nested swap loops, in place, leave the array equal to SortedBy of what it held, for any `less` at all |
| `Sorting.Sink` | test-server/main.go:671-673 | the inner loop alone: the element at i moves left past the neighbours it is less than, and nothing right of i changes |
| `Sorting.SortPermutes` | test-server/main.go:669-675 | the result holds the same elements, each as often, for any `less` |
| `Sorting.SortSortsStably` | test-server/main.go:666-675 | for a strict weak order the result is in order, and the elements that tie with any k keep their relative order |
| `Sorting.SortedRangeIsListing` | test-server/main.go:312-316 | collecting a map's values in any order and sorting them by ID gives one and the same sequence: the values in ascending key order, a reference defined without sorting |
| `Sorting.AscendingIsUnique` | test-server/main.go:658-664 | two strictly ascending key sequences with the same members are equal |
| `Text.LessMeans` | test-server/main.go:659 | one ID precedes another iff it is a proper prefix or has the smaller character at the first difference |
| `Text.LessIsTotal` | test-server/main.go:659 | of two strings exactly one of equal, less, greater holds |
| `Text.LessIsTransitive` | test-server/main.go:659 | the order on IDs is transitive |
| `Patch.ObjectFormOutcome` | test-server/main.go:609-626 | object-form PATCH, every iteration order: success iff the object is empty or holds only the Notion URN with a known role; all successful runs end alike; a failing run leaves the old role or the valid Notion one |
| `Patch.RangeOutcome` | test-server/main.go:614-625 | what any repetition-free order of any part of the object does, by which key comes first |
| `Patch.OrderMattersExactlyWhen` | test-server/main.go:609-626 | two iteration orders can end differently iff a valid Notion entry naming a new role stands beside another key |
| `Patch.OneOperation` | test-server/main.go:588-627 | a single operation of either spelling: it succeeds iff its effect is not Fails, success leaves exactly that effect, failure leaves the old role or the stray write |
| `Patch.ManyOperations` | test-server/main.go:404-410 | a request of any operations stopping at k: 200 iff k is the end, and the role is the one set by the last operation before k (or the stray write of k) |
| `Patch.StopExists` | test-server/main.go:404-410 | every request has such a stopping point |
| `Patch.LastSetIs` | test-server/main.go:404-410 | the role left is that of the last role-setting operation, named by its position |
| `Patch.NothingSet` | test-server/main.go:404-410 | operations that set nothing leave the extension as it was |
| `Patch.FailureIsNotRolledBack` | test-server/main.go:404-409 | a concrete failing two-operation request that has changed the role, unlike section 3.5.2 of RFC 7644 |
| `Patch.FailureLeavesExactly` | test-server/main.go:404-409 | a failing request of any operations can leave exactly two things, each by some iteration order: the role set before the failing operation, and that operation's stray write if it can make one |
| `Patch.FailureIsAtomicExactlyWhen` | test-server/main.go:404-409 | a failing request leaves the user unchanged, however the ranges go, iff the operations before the failing one set no other role and it can make no stray write of another role |
| `Patch.RoleWriteSpellings` | test-server/main.go:589-593 | the accepted operation names are exactly `replace` and `add` in any mix of cases |
| `Patch.PathForm` | test-server/main.go:598-607 | path-form PATCH spelled out: `replace` and `add` in any case on `role` or the full path, with a string that is one of the four roles, set it; everything else with a path fails and changes nothing |
| `Patch.ObjectForm` | test-server/main.go:609-626 | object-form PATCH spelled out: null and the empty object do nothing, the Notion entry alone sets the role it names, all else fails and leaves the old role or the one the Notion entry names |
| `Store.SpellingsAgree` | test-server/main.go:588-627 | with either path and a string role, a PATCH leaves the same store and gives the same whole reply as the object form |
| `Store.OtherPathsFail` | test-server/main.go:605-607 | any other path is a bad request and changes nothing |
| `Store.PatchEffect` | test-server/main.go:387-411 | any request: 400 for no body, 404 for a missing user, nothing changed; else only that user's extension changes, and the reply is 200 with the user, the last role set, iff no operation fails, else 400 |
| `Store.PatchIsAtomicExactlyWhen` | test-server/main.go:404-409 | when a failing request leaves the store as it was, however the ranges go |
| `Patch.RolePatchOutcome` | pkg/client/client.go:173-181 | the request the connector builds: it sets a known role, and leaves the user unchanged when it fails, in every range order |
| `Filter.SplitNMeaning` | test-server/main.go:571 | the parts join back to the text and only an n-th part may still hold a separator |
| `Text.TrimMeaning` | test-server/main.go:571-575 | trimming cuts the longest run of cut characters off each end and nothing else |
| `Text.IsSpaceMeans` | test-server/main.go:359 | what counts as blank: the code points of Unicode's White_Space property |
| `Filter.FilterRoundTrip` | test-server/main.go:570-577 | parsing `attr eq "value"` gives attr, `eq` and the value stripped of quotes at its ends; the value itself iff it neither starts nor ends with a quote |
| `Filter.ParseTakes` | test-server/main.go:570-577 | two words and a rest parse as attribute, operator and the rest stripped of quotes at its ends |
| `Filter.ParseNeeds` | test-server/main.go:570-577 | and nothing else parses |
| `Filter.SelectMembers` | test-server/main.go:523-541 | a filtered list holds exactly the matching elements |
| `Filter.SelectKeepsOrder` | test-server/main.go:523-541 | ... as a subsequence: at strictly increasing positions |
| `Store.FilteredListing` | test-server/main.go:318-332 | a supported filter: the reply pages over exactly the matching users in ID order, and totalResults is the number of matches in the map |
| `Store.MatchMeans` | test-server/main.go:523-541 | an email filter matches exactly the users whose user name equals the value once both are folded, `given_name` and `family_name` exactly those with that given or family name |
| `Store.FilterRefusedExactlyWhen` | test-server/main.go:516-540 | a user filter is refused iff it does not parse, its operator is not `eq`, or its attribute is none of the five and there is a user |
| `Store.FilteredGroupListing` | test-server/main.go:546-567 | `displayName eq` pages over exactly the groups of that name in ID order, with their number as the total; any other group filter is refused |
| `Store.EmailFilterFindsAtMostOne` | test-server/main.go:367-372 | names being distinct under case folding, an email filter matches at most one user |
| `Paging.ApplyOptions` | pkg/client/client.go:227-229 | the request options rewrite the query one after the other, in order |
| `Paging.WireAgreement` | pkg/client/pagination.go:17-29 | for every 64-bit start and count the server reads back exactly the pair the client clamped; neither its defaults nor its cap fire |
| `Paging.PaginationParams` | test-server/main.go:476-494 | whatever the query holds, the start is at least 1 and the page size between 1 and 100 |
| `Paging.PaginationMeans` | test-server/main.go:476-494 | an absent or unusable startIndex is 1, an absent, unusable or too large count is 100, any other number is taken as it is |
| `Paging.PageSlice` | test-server/main.go:496-506 | a page holds exactly the positions startIndex .. startIndex + perPage - 1 that exist |
| `Paging.ClampCount` | pkg/client/pagination.go:17-22 | every count from 1 to 100 is sent as it is, any other as 100 |
| `Paging.ClampStart` | pkg/client/pagination.go:24-29 | every start from 1 on is sent as it is, any other as 1 |
| `Paging.TokenRoundTrip` | pkg/connector/helpers.go:27-33 | a continuation token is not empty and reads back as the cursor it was printed from |
| `Text.AtoiItoa` | pkg/client/client.go:56 | decimal printing and parsing are inverse on all 64-bit integers |
| `Text.ParseNatAccepts` | pkg/connector/helpers.go:27-33 | a text parses as digits iff it is non-empty and all digits |
| `Text.AtoiMeans` | test-server/main.go:478-486 | a text parses iff it is an optional sign and at least one digit that stand for a 64-bit number, and then to the number they stand for, the first digit counting most |
| `Paging.ContinuationsAreBounded` | pkg/client/client.go:55-57 | any server that delivers at least one item per continuation and keeps its totals below a bound is asked for fewer pages than the bound |
| `Coverage.ShippedLoop` | pkg/client/client.go:55-59 | the loop as shipped, every list and page size: it delivers exactly Delivered(items) in max(1, ceil(N/P)) requests |
| `Coverage.TimesDelivered` | pkg/client/client.go:55-59 | how often each position is delivered: position P twice iff N > P, position N never iff P divides N and N >= 2P, every other one once |
| `Coverage.TotalDelivered` | pkg/client/client.go:55-59 | the number delivered is N, or N + 1 iff N > P and P does not divide N |
| `Coverage.IntendedLoop` | pkg/client/client.go:30-33 | the cursor read as the 1-based index that is sent, going on while it is not past the total: it delivers the whole list in as many requests |
| `Coverage.LockStep` | pkg/client/client.go:55-57 | at every cursor the shipped page is the intended page one position early (the first excepted), and both loops go on under the same condition |
| `Coverage.SameItemsExactlyWhen` | pkg/client/client.go:55-59 | the shipped loop delivers every item iff P does not divide N or N < 2P |
| `Coverage.ItemsAreDelivered` | pkg/client/client.go:55-59 | an item is missed iff it is the last one and P divides N with N >= 2P |
| `Store.ReachableStates` | test-server/main.go:157-178 | every state reachable from the seed: keys are IDs, IDs are UUIDs in lower case, user names distinct under case folding, members exist; every role known if all create requests are polite |
| `Store.RunsKeepInv` | test-server/main.go:353-428 | the same from any state that satisfies the invariant, over every run of requests |
| `Store.ServeKeepsInv` | test-server/main.go:353-428 | every handler keeps the invariant, failing ones included |
| `Store.CreateStatusMeans` | test-server/main.go:353-381 | a blank name is a bad request, a name taken under case folding a conflict, every other create goes through |
| `Store.CreateEffect` | test-server/main.go:374-380 | a create that goes through stores the body under the drawn ID with both schemas, a member if it has no role extension, all else as it came, and every other user as it was |
| `Store.RefusedCreate` | test-server/main.go:353-372 | a create that is refused changes nothing, and a body that is no JSON is a bad request |
| `Store.CreateKeepsRolesExactlyWhen` | test-server/main.go:374-380 | a create that goes through keeps every role known iff its body carries no role extension or a known role |
| `Store.PatchKeepsRoles` | test-server/main.go:629-638 | PATCH never stores an unknown role, whatever the operations |
| `Store.DeleteEffect` | test-server/main.go:413-428 | a delete removes that user only, takes the ID out of every group, and keeps the other members in order and each group's ID and name; an ID that is not stored changes nothing |
| `Store.DeletedIdsStayGone` | test-server/main.go:413-428 | once deleted, an ID is absent from users and members after every later run of requests |
| `Store.SeedSatisfiesInv` | test-server/main.go:157-178 | the seed satisfies the invariant for every case folding |
| `Store.SeedUsersAre` | test-server/main.go:157-178 | the seed's five users by name and role, active, each with its user name as its one address |
| `Store.SeedGroupsAre` | test-server/main.go:167-177 | the seed's two groups by name and members |
| `Server.ScimUser.SetRole` | test-server/main.go:629-638 | in place: known roles are stored, others leave the user alone and fail |
| `Server.ScimUser.ApplyPatchOp` | test-server/main.go:588-627 | in place: one operation leaves the extension and the verdict of Patch.ApplyOp, for the range order it is given |
| `Server.PatchInPlace` | test-server/main.go:404-409 | the loop over the operations leaves what Patch.ApplyOps says of the old extension |
| `Server.RemoveMember` | test-server/main.go:648-656 | the loop keeps exactly the other members, in order |
| `Server.MatchUsers` | test-server/main.go:523-542 | the loop selects the matching users in order; an unsupported attribute fails only when there is a user to look at |
| `Server.FilterGroups` | test-server/main.go:546-567 | only `displayName eq` is accepted, and the loop selects the matching groups in order |
| `Server.SortedRange` | test-server/main.go:312-316 | ranging over a map in any order, then the in-place sort, yields the listing of the map |
| `Server.ScimServer.constructor` | test-server/main.go:145-178 | a new server holds the seed |
| `Server.ScimServer.HandleGetUser` | test-server/main.go:335-347 | the stored user, or not found |
| `Server.ScimServer.HandleGetGroup` | test-server/main.go:460-472 | the stored group, or nothing |
| `Server.ScimServer.HandleListUsers` | test-server/main.go:305-333 | the reply is a function of the store and the query, whatever order the map is ranged over |
| `Server.ScimServer.HandleListGroups` | test-server/main.go:430-458 | the same for groups |
| `Server.ScimServer.HandleCreateUser` | test-server/main.go:353-381 | objects and abstract store move together: refused bodies change nothing, accepted ones add exactly the completed user |
| `Server.ScimServer.UserNameInUse` | test-server/main.go:367-372 | true iff some stored name equals it under case folding |
| `Server.ScimServer.HandlePatchUser` | test-server/main.go:387-411 | patching one object in place changes that user only, also when the request fails half way |
| `Server.ScimServer.HandleDeleteUser` | test-server/main.go:413-428 | the map entry goes and every group object is filtered in place, nothing else changes |
| `Server.RemoveFromGroups` | test-server/main.go:424-426 | the range over the groups filters every member list, in any order |
| `Connector.Bag.Push` | vendor/github.com/conductorone/baton-sdk/pkg/pagination/pagination.go:41-49 | pushes on top of the stack |
| `Connector.Bag.Next` | vendor/github.com/conductorone/baton-sdk/pkg/pagination/pagination.go:79-92 | replaces the token on top, or drops the top when the token is empty |
| `Connector.GetToken` | pkg/connector/helpers.go:10-36 | the empty token opens a fresh state at cursor 0, a corrupt or non-numeric one is an error, any other yields the cursor on top |
| `Caching.ReplyFills` | vendor/github.com/conductorone/baton-sdk/pkg/uhttp/wrapper.go:832-836 | a reply to a read of a user adds at most one entry, that of the user it shows under its own ID; a 404 adds none |
| `Caching.SameKeyExactlyWhen` | vendor/github.com/conductorone/baton-sdk/pkg/uhttp/client.go:156 | two IDs share a cache key iff they differ only by the case of letters |
| `Caching.DroppedMeans` | vendor/github.com/conductorone/baton-sdk/pkg/uhttp/wrapper.go:125-143 | dropping takes away the entries under these keys and no others |
| `Client.NotionClient.GetUser` | pkg/client/client.go:121-135 | the cached user if there is one, else the server's answer; a 200 is left in the cache |
| `Client.NotionClient.GetGroup` | pkg/client/client.go:100-114 | the same for one group |
| `Client.NotionClient.GetUsers` | pkg/client/client.go:34-60 | one request through options, cache, wire and server returns the cached page, else the page the server cuts out, and the token of the next cursor; the page is left in the cache |
| `Client.UnfilteredPage` | pkg/client/client.go:42-51 | the client's query comes out at the server as the page at the cursor |
| `Client.SameQueryExactlyWhen` | vendor/github.com/conductorone/baton-sdk/pkg/uhttp/client.go:154-166 | two page requests share a cache key iff they are clamped to the same parameters |
| `Client.NotionClient.GetGroups` | pkg/client/client.go:67-93 | the same for groups |
| `Connector.ListUserResources` | pkg/connector/user.go:76-114 | one List call: the resources of the page shown at the token's cursor and the marshalled next token, or an error for a bad token |
| `Connector.ListGroupResources` | pkg/connector/group.go:46-81 | the same for groups |
| `Connector.ListFollowsCursor` | pkg/connector/user.go:79-113 | the cursor travels unharmed through Itoa, bag, marshalling, unmarshalling and Atoi; the token is empty iff there is no next cursor |
| `Connector.GrantsSurviveProfile` | pkg/connector/user.go:267-302 | a user's resource grants exactly the user's stored role if it is supported, and nothing otherwise |
| `Connector.UserResourceMeans` | pkg/connector/user.go:267-302 | a resource is that of a user iff it has its ID, its formatted name, enabled as it is active, and exactly the profile entries of its names, its user name as the email and its role if it has one |
| `Connector.GroupResourceMeans` | pkg/connector/group.go:24-44 | the ID, name and profile of a group's resource |
| `Roles.IndexRoles` | pkg/connector/role.go:87-93 | the initializer's loop builds the index of the list by ID |
| `Roles.IndexHoldsSupported` | pkg/connector/role.go:59-93 | the index files every role under its own ID and orders them owner, membership admin, member, restricted member |
| `Roles.SupportedIsKnown` | test-server/main.go:640-646 | a lookup in the connector's index succeeds for exactly the roles the server knows |
| `Roles.KnownRolesAre` | test-server/main.go:640-646 | the four roles by their text, and the one a revoke falls back to |
| `Roles.IndexHoldsNames` | pkg/connector/role.go:59-93 | the four roles of the index with their display names |
| `Roles.DefaultIsLeast` | pkg/connector/role.go:161-170 | the exclusion group's default is strictly the least privileged role |
| `Sync.SyncUsers` | pkg/connector/user.go:76-114 | driving List from the empty token to the empty token delivers Delivered of the listing the client is shown in just enough calls, and leaves its pages in the cache |
| `Sync.SyncGroups` | pkg/connector/group.go:46-81 | the same for groups |
| `Sync.ColdShows` | vendor/github.com/conductorone/baton-sdk/pkg/uhttp/wrapper.go:759-768 | with nothing cached, or the cache disabled, that is the server's own listing |
| `Sync.SyncReplays` | vendor/github.com/conductorone/baton-sdk/pkg/uhttp/wrapper.go:759-768 | after a sync with the cache enabled, and until entries are dropped, a sync is shown the pages of the first one, whatever the server lists by then |
| `Sync.SyncStep` | pkg/connector/user.go:79-113 | one List call of any listing takes it a page on, or completes it, within as many calls as there are items |
| `Sync.SyncRoleGrants` | pkg/connector/user.go:131-150 | listing and then calling Grants on every resource emits the grants of the users delivered |
| `Sync.SyncReaches` | pkg/client/client.go:55-59 | a sync delivers exactly what is stored, except the greatest ID iff 100 divides N and N >= 200 |
| `Sync.SyncedUsersAre` | pkg/connector/user.go:76-114 | a cold sync returns a resource iff it is the look of a stored user that is not missed: ID, formatted name, enabled as active, names, email and role |
| `Sync.SyncedGroupsAre` | pkg/connector/group.go:46-81 | the same for groups |
| `Sync.MissedMeans` | pkg/client/client.go:55-59 | missed is the greatest ID, of at least 200 whose number 100 divides |
| `Sync.SyncEmits` | pkg/connector/user.go:131-150 | a cold sync emits exactly the grants of a full scan, except those of the user with the greatest ID iff 100 divides N and N >= 200 |
| `Sync.GroupGrants` | pkg/connector/group.go:102-120 | one grant per member of the group the client is shown, in order |
| `Sync.SyncMemberGrants` | pkg/connector/group.go:102-120 | listing the groups and expanding each emits the members of the groups delivered |
| `Sync.GroupSyncEmits` | pkg/connector/group.go:46-120 | those are exactly the stored memberships, except those of the group with the greatest ID iff 100 divides the number of groups and there are at least 200 |
| `Sync.NoDanglingMembers` | pkg/connector/group.go:102-120 | on every reachable state every principal a group as stored emits is a stored user |
| `Sync.UserResourceType` | pkg/connector/user.go:62-74 | annotates a fresh clone and leaves the shared value alone |
| `Sync.NoDanglingRoles` | pkg/connector/user.go:45-74 | for every sync filter each collected role grant names a listed role and a stored user; filters that include both types lose none |
| `Protocol.ActIsServe` | pkg/connector/role.go:185-266 | every step of every call is a store transition on the request the code sends, and the server can always serve it |
| `Protocol.RolePatchEffect` | pkg/client/client.go:167-188 | the role patch sets the role of an existing user, and its status tells which of not found, OK and bad request |
| `Linearization.GrantLinearizes` | pkg/connector/role.go:199-219 | full interference: each grant without error that is not misled when it begins has a moment inside the call at which the user holds the role |
| `Linearization.RevokeLinearizes` | pkg/connector/role.go:242-265 | full interference: each revoke without error that is not misled when it begins has such a moment at which the user is without the role or gone |
| `Linearization.GrantLinearizesExactlyWhen` | pkg/connector/role.go:199-219 | every grant of the role that begins now and returns without error has its moment iff it is not misled now: the role is held, or no user with the role is cached or about to come in |
| `Linearization.RevokeLinearizesExactlyWhen` | pkg/connector/role.go:242-265 | the same for revokes: the role is not held, or no user without it is cached or about to come in |
| `Linearization.ColdIsNotMisled` | vendor/github.com/conductorone/baton-sdk/pkg/uhttp/wrapper.go:759-768 | nothing misleads when nothing is cached of the user and no reply about it has yet to come in, when the cache is disabled, or when all of that is true |
| `Linearization.StaleGrantHasNoMoment` | pkg/connector/role.go:199-206 | how a call comes to be misled: for every user with a known role, two grants in a row end with a GrantAlreadyExists for a role held at no moment of the call |
| `Linearization.LateReplyHasNoMoment` | pkg/connector/role.go:199-206 | the same for a grant that begins with nothing cached while another call's reply about the user has yet to come in |
| `Linearization.ReplacedIsOverwritten` | pkg/connector/role.go:199-219 | GrantReplaced of a grant that was not misled about it names the role held at some moment of the call; if nothing wrote or removed the user from then to the PATCH, that is the role overwritten |
| `Linearization.ReplacedIsHeldExactlyWhen` | pkg/connector/role.go:199-219 | every GrantReplaced of a grant that begins now names a role held inside the call before the PATCH iff no other known role than the target and the stored one is cached or about to come in, for a stored user |
| `Deletion.DeletedStaysGone` | pkg/connector/user.go:251-265 | in every run an account past its DELETE is in no user and no group, then and in all later states |
| `Deletion.ConfirmIsNotFooled` | pkg/connector/user.go:259-264 | the confirming GET is told not-found iff it misses the cache and is answered, whatever was created in between |
| `Deletion.DeleteSucceedsExactlyWhen` | pkg/connector/user.go:251-265 | over whole runs: a delete reported success iff its DELETE was answered 204 and its confirming GET missed the cache and was answered |
| `Deletion.ColdDeleteMisses` | pkg/connector/user.go:251-265 | if nothing about the user was cached or about to come in when the DELETE was sent, the confirming GET misses, whatever other calls read in between |
| `Deletion.ShownDeleteFails` | pkg/connector/user.go:251-265 | and if something was, the delete can end in an error with every message answered and the user gone |
| `Privilege.RevokesOnlyReset` | pkg/connector/role.go:228-266 | any interleaving of revokes, any cache, lost messages included: a user's role is unchanged or has become the default |
| `Privilege.RevokesOnlyLower` | pkg/connector/role.go:228-266 | from an empty cache, moreover, only users with a known role are changed |
| `Privilege.PrivilegeNeverRises` | pkg/connector/role.go:55-93 | so a user's role changes at most once, and the privilege order never rises if the role is known or the cache was empty |
| `Protocol.DoneInThreeSteps` | pkg/connector/role.go:185-266 | in every run a call is done after at most three steps of its own, whatever stores, caches and message fates it meets, and takes none after that |
| `Ledger.SeedOpens` | test-server/main.go:145-178 | the freshly seeded server with its own scan as ledger is a valid starting point |
| `Ledger.LedgerMatchesScan` | pkg/connector/role.go:163-184 | calls per user that do not overlap and begin on a current cache, interleaved in any way, messages refused or answers lost: with no call in flight the ledger agrees with the store on every user on whom no call returned an error (for a user new since the outset that no account creation has returned: no account creation either) |
| `Ledger.LineAgreesExactlyWhen` | pkg/connector/role.go:163-184 | the last step of a call on an untorn user leaves the ledger right about the user iff it is none of: the lost answer to a PATCH of a stored user, to a DELETE of one with a grant, or to a create that goes through; a confirming GET that missed and is not answered, or that hit, for a user with something to strike out |
| `Ledger.LedgerIsFullScan` | pkg/connector/role.go:180-219 | if no answer to a write is lost and deletes begin with nothing cached of the user, the ledger equals the full scan, and equals what a cold paged sync emits iff that misses no user with a grant |
| `Ledger.BookedKeepsInv` | pkg/connector/role.go:185-266 | one step on one user keeps the ledger, the snapshots, the cached users other calls rely on and exclusivity |
| `Ledger.GrantLine` | pkg/connector/role.go:199-219 | each step of a grant leaves the user's ledger line equal to a scan, or the call torn |
| `Ledger.RevokeLine` | pkg/connector/role.go:242-265 | the same for revoke |
| `Ledger.DeleteLine` | pkg/connector/user.go:251-265 | the same for delete, while its confirmation is pending |
| `Ledger.CreateLine` | pkg/connector/user.go:177-202 | the same for account creation |
| `Divergence.LostAnswerDiverges` | pkg/connector/role.go:208-210 | for every user with a known role, one lost answer to a grant's PATCH makes the ledger wrong |
| `Divergence.FailedConfirmationDiverges` | pkg/connector/user.go:254-262 | a delete whose confirming GET fails reports an error although the user is gone, and the ledger is wrong |
| `Divergence.CachedConfirmationDiverges` | pkg/connector/user.go:254-262 | the same with every message answered: a grant that changed nothing has left the user in the cache |
| `Divergence.OverlapDiverges` | pkg/connector/role.go:199-219 | two overlapping grants on one user: the second GrantReplaced names a role no longer held, and the ledger ends with two roles |
| `Divergence.StaleReadDiverges` | pkg/connector/role.go:199-219 | the same for two grants one after the other, every message answered, with the cache enabled |
| `Divergence.GrantAgreesExactlyWhen` | pkg/connector/role.go:199-219 | exactly which cached roles keep the ledger right through a grant: the target if it is stored; else the stored one, or any if the stored one is the target or does not show |
| `Divergence.RevokeAgreesExactlyWhen` | pkg/connector/role.go:242-265 | the same for a revoke: another role unless the stored one is to be revoked; that role if it or the default is stored, or the stored one does not show |
| `Divergence.ReplayedSyncIsStale` | pkg/connector/user.go:131-150 | a second sync after a role was written emits what the first one did, which is no longer the full scan |
| `Divergence.CachedGroupDangles` | pkg/connector/group.go:102-120 | a group that has been read still shows, and emits, a member that is deleted after that |
| `Provisioning.PatchUserRole` | pkg/client/client.go:167-188 | the client's PATCH against the live server sets the role of that user only |
| `Provisioning.GrantRole` | pkg/connector/role.go:185-220 | the method run against the live server and the client's cache does to both exactly what the uninterrupted call does |
| `Provisioning.RevokeRole` | pkg/connector/role.go:228-266 | the same for revoke |
| `Provisioning.DeleteUserAccount` | pkg/connector/user.go:251-265 | the same for delete |
| `Provisioning.CreateUserAccount` | pkg/connector/user.go:177-202 | the same for account creation, with the resource of the created user |
| `Provisioning.UninterruptedRuns` | pkg/connector/role.go:185-266 | these uninterrupted calls are runs of the protocol, from any state |
| `Provisioning.RevokeFailsExactlyWhen` | pkg/connector/role.go:228-266 | a revoke fails on its own iff the principal is no user, the role unsupported, or the default role is to be revoked and seen to be held |
| `Provisioning.GrantFailsExactlyWhen` | pkg/connector/role.go:185-220 | a grant fails on its own iff the principal is no user, the role unsupported, or the user missing where it is looked for |
| `Provisioning.DeleteSucceedsExactlyWhen` | pkg/connector/user.go:251-265 | a delete on its own removes the user in any case, and reports success iff the user was stored and not cached |
| `Provisioning.GrantTwice` | pkg/connector/role.go:180-184 | the second grant in a row changes nothing more; it answers GrantAlreadyExists without a cache, and repeats the first answer with one |
| `Provisioning.GrantTwiceWithoutEntry` | pkg/connector/role.go:180-184 | with the entry dropped in between it answers GrantAlreadyExists, unless the first went by a hit alone |
| `Provisioning.RevokeTwice` | pkg/connector/role.go:222-227 | the second revoke in a row changes nothing more; it answers GrantAlreadyRevoked without a cache, and repeats the first answer with one |
| `Provisioning.GrantThenRevoke` | pkg/connector/role.go:185-266 | granting and revoking leaves that user with the default role and all else as it was, without a cache or if the grant found the role in place; else the revoke changes nothing and answers GrantAlreadyRevoked |
| `Provisioning.CreatedAccountIsMember` | pkg/connector/user.go:204-249 | an account the connector creates is an active member, under the requested names, formatted with a blank between them, with the requested email as its user name and its one primary address |
| `Provisioning.CreateSucceedsExactlyWhen` | pkg/connector/user.go:177-249 | it goes through iff both names and the email are non-empty strings, the email is not all blanks, and no stored user name equals it once both are folded |
| `Provisioning.FailedCreateKeeps` | pkg/connector/user.go:177-202 | and if not, every user and group stays as it was |

## Left out

- Paging.ContinuationsAreBounded: asks that no cursor sum wraps the 64-bit integer; a server that reports more items than it can hold could make the client loop.
- Coverage.ShippedLoop: lists of 2^63 - 1 or more items are excluded, which no Go slice can hold.
- Linearization.ReplacedIsOverwritten: one direction only, since a write in between may happen to restore the role that was read.
- Linearization.GrantLinearizesExactlyWhen: with the cache enabled, for IDs in lower case, as all issued ones are; keys are in lower case, so another spelling is shown the user of that key, and is stored under no ID.
- Sync.SyncUsers: at most 2^63 - 2 users, as above; the store does not change between the pages of one listing, and cached pages, if any, belong to one listing. Deletes between pages shift positions, and the code promises nothing then.
- Sync.SyncMemberGrants: asks that what is cached of groups and group pages is true, as when nothing is cached; what a stale group does is `Divergence.CachedGroupDangles`.
- Ledger.LedgerMatchesScan: asks that calls on one user do not overlap, and that no new account draws the UUID of a user some call in flight is already about; `Divergence.OverlapDiverges` and `Divergence.StaleReadDiverges` are what the conditions keep out.
- Client.NotionClient.GetUsers: a read of the client's methods goes out and comes back in one step; replies and hits that overtake each other are modelled in Protocol only.
- Server.ScimServer.HandleListUsers: the slice of pointers is collected as records, since nothing changes them under the read lock.
- Server.ScimUser.ApplyPatchOp: the order in which Go ranges over the object is a parameter.
- HTTP transport, bearer check, logging, URL building and escaping, status-code mapping: a request is answered, refused, or served with its answer lost.
- The clock and the size limit of the cache: entries may be dropped at any step, which covers both.
- Byte-level JSON: requests start from a JSON value; Go's case-insensitive field matching and repeated object keys are not modelled.
- The `$ref` and `type` fields of group members, and the resource, trait, license and entitlement objects beyond what the grants need.
- The text of a serialized page bag: a token is the bag's contents, the empty token, or text that does not decode.
- How the SDK stores grants: grants are pairs of user and role; the ledger's reading of the annotations follows the comments at `pkg/connector/role.go:163-166` and `pkg/connector/role.go:180-184`.
- ServiceProviderConfig, ResourceTypes, connector metadata, configuration and credential options: constants.
- The real Notion service beyond the mock: owner protection, account merging, rate limits.
