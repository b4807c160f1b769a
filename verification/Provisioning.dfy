/** The provisioning calls as the connector runs them, against a live server and through the client's
    cache: read, decide, write. */
module Provisioning {
  import opened Text
  import opened Domain
  import opened Patch
  import opened Store
  import opened Roles
  import opened Server
  import opened Caching
  import opened Client
  import opened Connector
  import opened Protocol

  // ---------- Uninterrupted calls ----------

  /** A call that runs on its own, with what it runs against. */
  datatype Solo = Solo(world: World, cache: UserCache, call: Call)

  /** One step of it, answered; nothing if it is done. */
  function Stepped(fold: CaseFold, x: Solo, newId: string): Solo {
    if x.call.pc.Done? then x
    else
      Solo(NextWorld(fold, x.world, x.call, Answered, newId), NextCache(x.cache, x.call),
           x.call.(pc := NextPc(fold, x.cache, x.world.store, x.call, Answered, newId)))
  }

  /** Three steps are enough for any call. */
  function ToTheEnd(fold: CaseFold, x: Solo, newId: string): Solo {
    Stepped(fold, Stepped(fold, Stepped(fold, x, newId), newId), newId)
  }

  function GrantAlone(w: World, cache: UserCache, p: Principal, role: string): (World, UserCache, Pc) {
    if p.kind != "user" || !IsSupportedRole(role) then (w, cache, Done(Failed))
    else
      var cache' := AfterRead(cache, w.store, p.id, Answered);
      match GrantStart(role, ReadUser(cache, w.store, p.id, Answered).value)
      case Fetched(current) =>
        (w.(store := WithRole(w.store, p.id, role)), cache', GrantFinish(w.store, p, role, current, Answered))
      case pc => (w, cache', pc)
  }

  function RevokeAlone(w: World, cache: UserCache, p: Principal, role: string): (World, UserCache, Pc) {
    if p.kind != "user" || !IsSupportedRole(role) then (w, cache, Done(Failed))
    else
      var cache' := AfterRead(cache, w.store, p.id, Answered);
      match RevokeStart(role, ReadUser(cache, w.store, p.id, Answered).value)
      case Fetched(_) =>
        (w.(store := WithRole(w.store, p.id, DEFAULT_REVOKED_ROLE)), cache', RevokeFinish(w.store, p, Answered))
      case pc => (w, cache', pc)
  }

  function DeleteAlone(w: World, cache: UserCache, id: string): (World, UserCache, Pc) {
    var (st, status) := DeleteUser(w.store, id);
    if status != NoContent then (w.(store := st), cache, Done(Failed))
    else (w.(store := st), AfterRead(cache, st, id, Answered), DeleteConfirm(ReadUser(cache, st, id, Answered).value))
  }

  function CreateAlone(fold: CaseFold, w: World, profile: map<string, Json>, newId: string): (World, Pc) {
    var body := AccountRequest(profile);
    if body.None? then (w, Done(Failed))
    else
      var (st, reply) := CreateUser(fold, w.store, body, newId);
      (World(st, w.issued + {newId}), if reply.status == Created then Done(AccountCreated(reply.user.value)) else Done(Failed))
  }

  /** The four of them together. */
  function Uninterrupted(fold: CaseFold, w: World, cache: UserCache, op: Op, newId: string): (World, UserCache, Pc) {
    match op
    case Grant(p, role) => GrantAlone(w, cache, p, role)
    case Revoke(p, role) => RevokeAlone(w, cache, p, role)
    case DeleteAccount(id) => DeleteAlone(w, cache, id)
    case CreateAccount(profile) =>
      var (w', pc) := CreateAlone(fold, w, profile, newId);
      (w', cache, pc)
  }

  lemma StoreAgain(cache: UserCache, id: string)
    ensures Lookup(cache, CacheKey(id)).Some? ==> AfterReply(cache, id, UserReply(OK, Lookup(cache, CacheKey(id)))) == cache
  {
    if Lookup(cache, CacheKey(id)).Some? {
      assert cache.entries[CacheKey(id) := cache.entries[CacheKey(id)]] == cache.entries;
    }
  }

  /** They are the protocol's steps one after the other. */
  lemma StepsAre(fold: CaseFold, w: World, cache: UserCache, op: Op, newId: string)
    ensures var (w', cache', pc') := Uninterrupted(fold, w, cache, op, newId);
            ToTheEnd(fold, Solo(w, cache, Call(op, Start)), newId) == Solo(w', cache', Call(op, pc')) && pc'.Done?
  {
    match op
    case Grant(p, role) => GrantStepsAre(fold, w, cache, p, role, newId);
    case Revoke(p, role) => RevokeStepsAre(fold, w, cache, p, role, newId);
    case DeleteAccount(id) => DeleteStepsAre(fold, w, cache, id, newId);
    case CreateAccount(profile) =>
  }

  lemma GrantStepsAre(fold: CaseFold, w: World, cache: UserCache, p: Principal, role: string, newId: string)
    ensures var (w', cache', pc') := GrantAlone(w, cache, p, role);
            ToTheEnd(fold, Solo(w, cache, Call(Op.Grant(p, role), Start)), newId)
            == Solo(w', cache', Call(Op.Grant(p, role), pc')) && pc'.Done?
  {
    StoreAgain(cache, p.id);
  }

  lemma RevokeStepsAre(fold: CaseFold, w: World, cache: UserCache, p: Principal, role: string, newId: string)
    ensures var (w', cache', pc') := RevokeAlone(w, cache, p, role);
            ToTheEnd(fold, Solo(w, cache, Call(Op.Revoke(p, role), Start)), newId)
            == Solo(w', cache', Call(Op.Revoke(p, role), pc')) && pc'.Done?
  {
    StoreAgain(cache, p.id);
  }

  lemma DeleteStepsAre(fold: CaseFold, w: World, cache: UserCache, id: string, newId: string)
    ensures var (w', cache', pc') := DeleteAlone(w, cache, id);
            ToTheEnd(fold, Solo(w, cache, Call(DeleteAccount(id), Start)), newId)
            == Solo(w', cache', Call(DeleteAccount(id), pc')) && pc'.Done?
  {
    StoreAgain(cache, id);
  }

  /** So what a method does to the server and to the cache, and what it returns, is a run of Protocol in
      which the call is begun and steps to its end; and it may start in any state. */
  lemma UninterruptedRuns(fold: CaseFold, s: Sys, cid: nat, op: Op, newId: string)
    returns (states: seq<Sys>, acts: seq<Action>)
    requires cid !in s.calls && newId !in s.world.issued && UuidText(newId)
    ensures IsRun(fold, states, acts) && states[0] == s && acts != [] && acts[0] == Begin(cid, op)
    ensures var (w', cache', pc') := Uninterrupted(fold, s.world, s.cache, op, newId);
            states[|acts|] == Sys(w', s.calls[cid := Call(op, pc')], cache')
  {
    StepsAre(fold, s.world, s.cache, op, newId);
    var x := Solo(s.world, s.cache, Call(op, Start));
    states, acts := EndReached(fold, s, cid, newId, x);
    var x' := ToTheEnd(fold, x, newId);
    assert s.calls[cid := x.call][cid := x'.call] == s.calls[cid := x'.call];
  }

  lemma EndReached(fold: CaseFold, s: Sys, cid: nat, newId: string, x: Solo)
    returns (states: seq<Sys>, acts: seq<Action>)
    requires cid !in s.calls && newId !in s.world.issued && UuidText(newId)
    requires x.world == s.world && x.cache == s.cache && x.call.pc.Start?
    ensures IsRun(fold, states, acts) && states[0] == s && acts != [] && acts[0] == Begin(cid, x.call.op)
    ensures var x' := ToTheEnd(fold, x, newId);
            states[|acts|] == Sys(x'.world, s.calls[cid := x.call][cid := x'.call], x'.cache)
  {
    var s1 := s.(calls := s.calls[cid := x.call]);
    states, acts := [s, s1], [Begin(cid, x.call.op)];
    assert s1 == Act(fold, s, Begin(cid, x.call.op)) && IsRun(fold, states, acts);
    states, acts := ThreeOn(fold, states, acts, cid, newId, x);
  }

  lemma ThreeOn(fold: CaseFold, states: seq<Sys>, acts: seq<Action>, cid: nat, newId: string, x: Solo)
    returns (states': seq<Sys>, acts': seq<Action>)
    requires IsRun(fold, states, acts) && acts != [] && cid in states[|acts|].calls
    requires states[|acts|] == Sys(x.world, states[|acts|].calls, x.cache) && states[|acts|].calls[cid] == x.call
    requires newId !in x.world.issued && UuidText(newId)
    ensures IsRun(fold, states', acts') && acts' != [] && acts'[0] == acts[0] && states'[0] == states[0]
    ensures var x' := ToTheEnd(fold, x, newId);
            states'[|acts'|] == Sys(x'.world, states[|acts|].calls[cid := x'.call], x'.cache)
  {
    var calls: map<nat, Call> := states[|acts|].calls;
    var x1 := Stepped(fold, x, newId);
    var x2 := Stepped(fold, x1, newId);
    states', acts' := StepOn(fold, states, acts, cid, newId, x);
    states', acts' := StepOn(fold, states', acts', cid, newId, x1);
    states', acts' := StepOn(fold, states', acts', cid, newId, x2);
    var x3 := Stepped(fold, x2, newId);
    assert calls[cid := x1.call][cid := x2.call][cid := x3.call] == calls[cid := x3.call];
  }

  /** A run in which the call has come this far, one step on. */
  lemma StepOn(fold: CaseFold, states: seq<Sys>, acts: seq<Action>, cid: nat, newId: string, x: Solo)
    returns (states': seq<Sys>, acts': seq<Action>)
    requires IsRun(fold, states, acts) && acts != [] && cid in states[|acts|].calls
    requires states[|acts|] == Sys(x.world, states[|acts|].calls, x.cache) && states[|acts|].calls[cid] == x.call
    requires x.call.pc.Start? ==> newId !in x.world.issued && UuidText(newId)
    ensures IsRun(fold, states', acts') && acts' != [] && acts'[0] == acts[0] && states'[0] == states[0]
    ensures var x' := Stepped(fold, x, newId);
            && states'[|acts'|] == Sys(x'.world, states[|acts|].calls[cid := x'.call], x'.cache)
            && !x'.call.pc.Start?
  {
    var s := states[|acts|];
    if x.call.pc.Done? {
      states', acts' := states, acts;
      assert s.calls[cid := x.call] == s.calls;
    } else {
      var step := Step(cid, Answered, newId);
      var s' := Act(fold, s, step);
      NeverBackToStart(fold, s, step);
      assert IsRun(fold, [s, s'], [step]);
      RunsJoin(fold, states, acts, [s, s'], [step]);
      states', acts' := states + [s, s'][1..], acts + [step];
      assert states'[|acts'|] == [s, s'][1];
    }
  }

  // ---------- The connector's methods ----------

  /** The client's PATCH of the role extension; the cache is not told. */
  method PatchUserRole(server: ScimServer, userId: string, role: string) returns (status: Status)
    requires server.Valid()
    modifies server`world, server.users.Values
    ensures server.Valid()
    ensures server.world == old(server.world).(store := WithRole(old(server.world.store), userId, role))
    ensures status == RoleWriteStatus(old(server.world.store), userId, role)
  {
    RolePatchEffect(server.world.store, userId, role);
    var reply := server.HandlePatchUser(userId, Some(RolePatch(role)), RolePatchOrders());
    status := reply.status;
  }

  method GrantRole(client: NotionClient, server: ScimServer, principal: Principal, role: string) returns (result: Result)
    requires server.Valid()
    modifies client`users, server`world, server.users.Values
    ensures server.Valid()
    ensures (server.world, client.users, Done(result)) == GrantAlone(old(server.world), old(client.users), principal, role)
  {
    if principal.kind != "user" { return Failed; }
    if !IsSupportedRole(role) { return Failed; }
    var reply := client.GetUser(server, principal.id);
    if reply.status != OK { return Failed; }
    var current := reply.user.value;
    if current.Role() == role { return GrantAlreadyExists; }
    result := WriteGrant(server, principal, role, current);
  }

  /** The second half of Grant: the write, and the annotation that names what was read before. */
  method WriteGrant(server: ScimServer, principal: Principal, role: string, current: User) returns (result: Result)
    requires server.Valid()
    modifies server`world, server.users.Values
    ensures server.Valid()
    ensures server.world == old(server.world).(store := WithRole(old(server.world.store), principal.id, role))
    ensures Done(result) == GrantFinish(old(server.world.store), principal, role, current, Answered)
  {
    var status := PatchUserRole(server, principal.id, role);
    if status != OK { return Failed; }
    result := if IsSupportedRole(current.Role()) then GrantReplaced(current.Role()) else Granted;
  }

  method RevokeRole(client: NotionClient, server: ScimServer, principal: Principal, role: string) returns (result: Result)
    requires server.Valid()
    modifies client`users, server`world, server.users.Values
    ensures server.Valid()
    ensures (server.world, client.users, Done(result)) == RevokeAlone(old(server.world), old(client.users), principal, role)
  {
    if principal.kind != "user" { return Failed; }
    if !IsSupportedRole(role) { return Failed; }
    var reply := client.GetUser(server, principal.id);
    if reply.status == NotFound { return GrantAlreadyRevoked; }
    var current := reply.user.value;
    if current.Role() != role { return GrantAlreadyRevoked; }
    if role == DEFAULT_REVOKED_ROLE { return Failed; }
    result := WriteRevoke(server, principal);
  }

  /** The second half of Revoke: the downgrade; a user that is gone by now counts as revoked. */
  method WriteRevoke(server: ScimServer, principal: Principal) returns (result: Result)
    requires server.Valid()
    modifies server`world, server.users.Values
    ensures server.Valid()
    ensures server.world
            == old(server.world).(store := WithRole(old(server.world.store), principal.id, DEFAULT_REVOKED_ROLE))
    ensures Done(result) == RevokeFinish(old(server.world.store), principal, Answered)
  {
    var status := PatchUserRole(server, principal.id, DEFAULT_REVOKED_ROLE);
    if status == NotFound { return GrantAlreadyRevoked; }
    result := if status == OK then Downgraded else Failed;
  }

  method DeleteUserAccount(client: NotionClient, server: ScimServer, userId: string) returns (result: Result)
    requires server.Valid()
    modifies client`users, server`world, server`users, server.groups.Values
    ensures server.Valid()
    ensures (server.world, client.users, Done(result)) == DeleteAlone(old(server.world), old(client.users), userId)
  {
    var status := server.HandleDeleteUser(userId);
    if status != NoContent { return Failed; }
    result := ConfirmDeleted(client, server, userId);
  }

  /** The confirming read. */
  method ConfirmDeleted(client: NotionClient, server: ScimServer, userId: string) returns (result: Result)
    requires server.Valid()
    modifies client`users
    ensures server.Valid()
    ensures client.users == AfterRead(old(client.users), server.world.store, userId, Answered)
    ensures Done(result) == DeleteConfirm(ReadUser(old(client.users), server.world.store, userId, Answered).value)
  {
    var reply := client.GetUser(server, userId);
    result := if reply.status == NotFound then Deleted else Failed;
  }

  /** `newId` is the UUID the server draws if it is asked to create. */
  method CreateUserAccount(server: ScimServer, profile: map<string, Json>, newId: string)
    returns (result: Result, resource: Option<UserResource>)
    requires server.Valid() && newId !in server.world.issued
    modifies server`world, server`users
    ensures server.Valid()
    ensures (server.world, Done(result)) == CreateAlone(server.fold, old(server.world), profile, newId)
    ensures resource == if result.AccountCreated? then Some(UserResourceOf(result.user)) else None
  {
    var body := AccountRequest(profile);
    if body.None? { return Failed, None; }
    var reply := server.HandleCreateUser(body, newId);
    if reply.status != Created { return Failed, None; }
    result, resource := AccountCreated(reply.user.value), Some(UserResourceOf(reply.user.value));
  }

  // ---------- What an uninterrupted call means ----------

  /** The user as the client is shown it. */
  function Seen(cache: UserCache, st: StoreState, id: string): Option<User> {
    ReadUser(cache, st, id, Answered).value.user
  }

  /** A revoke fails on its own exactly when the principal is not a user, the role is not supported, or
      the user is seen to hold the default role and that is what is to be revoked; this last case is an
      error and not a no-op. */
  lemma RevokeFailsExactlyWhen(w: World, cache: UserCache, p: Principal, role: string)
    ensures RevokeAlone(w, cache, p, role).2 == Done(Failed)
            <==> p.kind != "user" || !KnownRole(role)
                 || (role == DEFAULT_REVOKED_ROLE && Seen(cache, w.store, p.id).Some?
                     && Seen(cache, w.store, p.id).value.Role() == role)
  {
    SupportedIsKnown(role);
    SupportedIsKnown(DEFAULT_REVOKED_ROLE);
  }

  /** A grant fails on its own exactly when the principal is not a user, the role is not supported, or
      the user is missing where it is looked for: at the read, or at the write if there is one. */
  lemma GrantFailsExactlyWhen(w: World, cache: UserCache, p: Principal, role: string)
    ensures var seen := Seen(cache, w.store, p.id);
            GrantAlone(w, cache, p, role).2 == Done(Failed)
            <==> p.kind != "user" || !KnownRole(role) || seen.None?
                 || (seen.value.Role() != role && p.id !in w.store.users)
  {
    SupportedIsKnown(role);
  }

  /** A delete of a stored user removes it in any case, and reports success exactly when nothing was
      cached of the user. */
  lemma DeleteSucceedsExactlyWhen(w: World, cache: UserCache, id: string)
    ensures var (w', _, pc) := DeleteAlone(w, cache, id);
            && id !in w'.store.users
            && pc in {Done(Deleted), Done(Failed)}
            && (pc == Done(Deleted) <==> id in w.store.users && Lookup(cache, CacheKey(id)).None?)
  {
  }

  lemma WriteTwice(st: StoreState, id: string, role: string)
    ensures WithRole(WithRole(st, id, role), id, role) == WithRole(st, id, role)
  {
    var st' := WithRole(st, id, role);
    if id in st.users && KnownRole(role) {
      assert st'.users[id].(ext := Some(role)) == st'.users[id];
    }
  }

  /** Reading again what has been read leaves the cache alone. */
  lemma ReadTwice(st: StoreState, cache: UserCache, id: string, st': StoreState)
    requires Lookup(AfterRead(cache, st, id, Answered), CacheKey(id)).Some?
    ensures var cache' := AfterRead(cache, st, id, Answered);
            AfterRead(cache', st', id, Answered) == cache'
  {
    StoreAgain(AfterRead(cache, st, id, Answered), id);
  }

  /** Granting twice in a row: the second changes nothing more. Without a cache it answers
      GrantAlreadyExists, as it is documented to. With one it sees the user the first has seen, sends the
      same PATCH again if there was one, and gives the same answer. */
  lemma GrantTwice(w: World, cache: UserCache, p: Principal, role: string)
    requires GrantAlone(w, cache, p, role).2 != Done(Failed)
    ensures var (w', cache', first) := GrantAlone(w, cache, p, role);
            GrantAlone(w', cache', p, role) == (w', cache', if cache.Noop? then Done(GrantAlreadyExists) else first)
  {
    SupportedIsKnown(role);
    WriteTwice(w.store, p.id, role);
    if cache.Memory? { ReadTwice(w.store, cache, p.id, GrantAlone(w, cache, p, role).0.store); }
  }

  /** If the cache forgets the user in between, the second answers GrantAlreadyExists, unless the first
      went by a hit alone. */
  lemma GrantTwiceWithoutEntry(w: World, cache: UserCache, p: Principal, role: string, cleared: UserCache)
    requires GrantAlone(w, cache, p, role).2 != Done(Failed) && Lookup(cleared, CacheKey(p.id)).None?
    requires Lookup(cache, CacheKey(p.id)).None? || GrantAlone(w, cache, p, role).2 != Done(GrantAlreadyExists)
    ensures var w' := GrantAlone(w, cache, p, role).0;
            && p.id in w'.store.users && w'.store.users[p.id].Role() == role
            && GrantAlone(w', cleared, p, role).0 == w' && GrantAlone(w', cleared, p, role).2 == Done(GrantAlreadyExists)
  {
    SupportedIsKnown(role);
  }

  /** Revoking twice in a row, the same way: the second changes nothing more, and answers
      GrantAlreadyRevoked without a cache, and what the first answered with one. */
  lemma RevokeTwice(w: World, cache: UserCache, p: Principal, role: string)
    requires RevokeAlone(w, cache, p, role).2 != Done(Failed)
    ensures var (w', cache', first) := RevokeAlone(w, cache, p, role);
            RevokeAlone(w', cache', p, role) == (w', cache', if cache.Noop? then Done(GrantAlreadyRevoked) else first)
  {
    SupportedIsKnown(role);
    SupportedIsKnown(DEFAULT_REVOKED_ROLE);
    WriteTwice(w.store, p.id, DEFAULT_REVOKED_ROLE);
    if Lookup(AfterRead(cache, w.store, p.id, Answered), CacheKey(p.id)).Some? {
      ReadTwice(w.store, cache, p.id, RevokeAlone(w, cache, p, role).0.store);
    }
  }

  lemma WriteOver(st: StoreState, id: string, first: string, second: string)
    requires KnownRole(second)
    ensures WithRole(WithRole(st, id, first), id, second) == WithRole(st, id, second)
  {
    var st' := WithRole(st, id, first);
    if id in st.users {
      assert st'.users[id].(ext := Some(second)) == st.users[id].(ext := Some(second));
      assert WithRole(st', id, second).users == WithRole(st, id, second).users;
    }
  }

  /** What a revoke of another role than the default does, by the user it sees. */
  lemma RevokeBySight(w: World, cache: UserCache, p: Principal, role: string, seen: User)
    requires p.kind == "user" && KnownRole(role) && role != DEFAULT_REVOKED_ROLE
    requires Seen(cache, w.store, p.id) == Some(seen)
    ensures var (w', _, revoked) := RevokeAlone(w, cache, p, role);
            if seen.Role() == role then
              && w' == w.(store := WithRole(w.store, p.id, DEFAULT_REVOKED_ROLE))
              && revoked == Done(if p.id in w.store.users then Downgraded else GrantAlreadyRevoked)
            else w' == w && revoked == Done(GrantAlreadyRevoked)
  {
    SupportedIsKnown(role);
  }

  /** What a later call of the process sees after a grant. */
  lemma SeenAfterGrant(w: World, cache: UserCache, p: Principal, role: string)
    requires GrantAlone(w, cache, p, role).2 != Done(Failed)
    ensures Seen(cache, w.store, p.id).Some? && p.kind == "user" && KnownRole(role)
    ensures var (w1, cache1, _) := GrantAlone(w, cache, p, role);
            var seen := Seen(cache1, w1.store, p.id);
            if cache.Memory? then seen == Seen(cache, w.store, p.id) else seen.Some? && seen.value.Role() == role
  {
    SupportedIsKnown(role);
  }

  /** Granting a role and revoking it again leaves the user with the default role, and every other
      user, and every group, as they were: without a cache, or if the grant found the role in place. Else
      the revoke sees the user as it was before the grant, answers GrantAlreadyRevoked, and the user
      keeps the role. */
  lemma GrantThenRevoke(w: World, cache: UserCache, p: Principal, role: string)
    requires GrantAlone(w, cache, p, role).2 != Done(Failed) && role != DEFAULT_REVOKED_ROLE
    ensures var (w1, cache1, granted) := GrantAlone(w, cache, p, role);
            var (w2, _, revoked) := RevokeAlone(w1, cache1, p, role);
            if cache.Noop? || granted == Done(GrantAlreadyExists) then
              && w2 == w.(store := WithRole(w.store, p.id, DEFAULT_REVOKED_ROLE))
              && revoked == Done(if p.id in w.store.users then Downgraded else GrantAlreadyRevoked)
            else
              && w2 == w1 == w.(store := WithRole(w.store, p.id, role)) && p.id in w.store.users
              && revoked == Done(GrantAlreadyRevoked)
  {
    SupportedIsKnown(role);
    SeenAfterGrant(w, cache, p, role);
    WriteOver(w.store, p.id, role, DEFAULT_REVOKED_ROLE);
    var (w1, cache1, _) := GrantAlone(w, cache, p, role);
    RevokeBySight(w1, cache1, p, role, Seen(cache1, w1.store, p.id).value);
  }

  /** An account the connector creates starts as an active member, under the requested names and with the
      requested email as its user name and its one address. */
  lemma CreatedAccountIsMember(fold: CaseFold, w: World, profile: map<string, Json>, newId: string)
    requires CreateAlone(fold, w, profile, newId).1 != Done(Failed)
    ensures var (w', pc) := CreateAlone(fold, w, profile, newId);
            && newId in w'.store.users && pc == Done(AccountCreated(w'.store.users[newId]))
            && "first_name" in profile && "last_name" in profile && "email" in profile
            && var u := w'.store.users[newId];
               && profile["first_name"] == String(u.name.given) && profile["last_name"] == String(u.name.family)
               && u.name.formatted == u.name.given + " " + u.name.family
               && profile["email"] == String(u.userName) && u.emails == [Email(true, u.userName, "Primary")]
               && u.active && u.ext == Some("member") && u.id == newId
               && u.schemas == ["urn:ietf:params:scim:schemas:core:2.0:User",
                                "urn:ietf:params:scim:schemas:extension:notion:2.0:User"]
  {
    CreateEffect(fold, w.store, AccountRequest(profile).value, newId);
  }

  /** The entry is a string with something in it. */
  predicate Given(profile: map<string, Json>, key: string) {
    key in profile && profile[key].String? && profile[key].s != ""
  }

  /** When an account creation goes through: both names and the email are given, the email is not all blanks,
      and no stored user name is the same once both are folded. */
  lemma CreateSucceedsExactlyWhen(fold: CaseFold, w: World, profile: map<string, Json>, newId: string)
    ensures CreateAlone(fold, w, profile, newId).1 != Done(Failed)
            <==> && Given(profile, "first_name") && Given(profile, "last_name") && Given(profile, "email")
                 && (exists i :: 0 <= i < |profile["email"].s| && !IsSpace(profile["email"].s[i]))
                 && (forall id :: id in w.store.users ==>
                       Folded(fold, w.store.users[id].userName) != Folded(fold, profile["email"].s))
  {
    var body := AccountRequest(profile);
    if body.Some? {
      CreateStatusMeans(fold, w.store, body.value, newId);
      forall id | id in w.store.users
        ensures EqualFold(fold, w.store.users[id].userName, body.value.userName)
                <==> Folded(fold, w.store.users[id].userName) == Folded(fold, body.value.userName)
      {
        EqualFoldMeans(fold, w.store.users[id].userName, body.value.userName);
      }
    }
  }

  /** A creation that fails leaves every user and group as they were. */
  lemma FailedCreateKeeps(fold: CaseFold, w: World, profile: map<string, Json>, newId: string)
    requires CreateAlone(fold, w, profile, newId).1 == Done(Failed)
    ensures CreateAlone(fold, w, profile, newId).0.store == w.store
  {
  }
}
