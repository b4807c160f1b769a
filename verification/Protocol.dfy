/** Grant, Revoke, Delete and CreateAccount as processes: each remote request is one atomic step
    against the store, a read may be answered from the client's cache instead, and between two steps
    of a call anything else may happen. */
module Protocol {
  import opened Text
  import opened Domain
  import opened Patch
  import opened Store
  import opened Roles
  import opened Caching

  datatype Principal = Principal(kind: string, id: string)

  datatype Op =
    | Grant(principal: Principal, role: string)
    | Revoke(principal: Principal, role: string)
    | DeleteAccount(userId: string)
    | CreateAccount(profile: map<string, Json>)

  /** What a call returns: Failed is an error, Granted and Downgraded carry no annotation. */
  datatype Result =
    | Failed
    | GrantAlreadyExists
    | GrantReplaced(previous: string)
    | Granted
    | GrantAlreadyRevoked
    | Downgraded
    | Deleted
    | AccountCreated(user: User)

  /** Reading holds a reply, of the server or of the cache, that is not in yet; Fetched remembers the user the call
      has read; Removed is about to send the confirming read. */
  datatype Pc = Start | Reading(reply: UserReply) | Fetched(current: User) | Removed | Done(result: Result)

  datatype Call = Call(op: Op, pc: Pc)

  // ---------- createNewUserData ----------

  function ProfileString(profile: map<string, Json>, key: string): Option<string> {
    if key in profile && profile[key].String? && profile[key].s != "" then Some(profile[key].s) else None
  }

  /** The body of the create request, or None when a name or the email is missing. */
  function AccountRequest(profile: map<string, Json>): Option<User> {
    var first := ProfileString(profile, "first_name");
    var last := ProfileString(profile, "last_name");
    var email := ProfileString(profile, "email");
    if first.None? || last.None? || email.None? then None
    else
      Some(User([SCHEMA_USER_CORE], "", email.value,
                Name(first.value, last.value, first.value + " " + last.value),
                [Email(true, email.value, "Primary")], true, None))
  }

  // ---------- One call ----------

  /** The store after the connector's role patch, and the reply's status. */
  function WithRole(st: StoreState, id: string, role: string): StoreState {
    if id in st.users && KnownRole(role) then st.(users := st.users[id := st.users[id].(ext := Some(role))])
    else st
  }

  function RoleWriteStatus(st: StoreState, id: string, role: string): Status {
    if id !in st.users then NotFound else if KnownRole(role) then OK else BadRequest
  }

  /** What a grant makes of the reply to its read. */
  function GrantStart(role: string, reply: UserReply): Pc {
    match reply
    case UserReply(OK, Some(current)) =>
      if current.Role() == role then Done(GrantAlreadyExists) else Fetched(current)
    case _ => Done(Failed)
  }

  function RevokeStart(role: string, reply: UserReply): Pc {
    if reply.status == NotFound then Done(GrantAlreadyRevoked)
    else
      match reply.user
      case Some(current) =>
        if current.Role() != role then Done(GrantAlreadyRevoked)
        else if role == DEFAULT_REVOKED_ROLE then Done(Failed)
        else Fetched(current)
      case None => Done(Failed)
  }

  /** What the caller learns of a role patch: None when no answer came. */
  function PatchStatus(st: StoreState, id: string, role: string, net: Net): Option<Status> {
    if net == Answered then Some(RoleWriteStatus(st, id, role)) else None
  }

  function GrantFinish(st: StoreState, p: Principal, role: string, current: User, net: Net): Pc {
    if PatchStatus(st, p.id, role, net) != Some(OK) then Done(Failed)
    else if IsSupportedRole(current.Role()) then Done(GrantReplaced(current.Role()))
    else Done(Granted)
  }

  function RevokeFinish(st: StoreState, p: Principal, net: Net): Pc {
    match PatchStatus(st, p.id, DEFAULT_REVOKED_ROLE, net)
    case Some(OK) => Done(Downgraded)
    case Some(NotFound) => Done(GrantAlreadyRevoked)
    case _ => Done(Failed)
  }

  function DeleteStart(st: StoreState, id: string, net: Net): Pc {
    if net == Answered && DeleteUser(st, id).1 == NoContent then Removed else Done(Failed)
  }

  /** An answer other than not-found means that the user still exists. */
  function DeleteConfirm(reply: UserReply): Pc {
    if reply.status == NotFound then Done(Deleted) else Done(Failed)
  }

  function CreateStart(fold: CaseFold, st: StoreState, profile: map<string, Json>, net: Net, newId: string): Pc {
    var body := AccountRequest(profile);
    if body.None? || net != Answered then Done(Failed)
    else
      var reply := CreateUser(fold, st, body, newId).1;
      if reply.status == Created then Done(AccountCreated(reply.user.value)) else Done(Failed)
  }

  /** The user a call is about to read, if reading is what it does next. */
  function Reads(c: Call): Option<string> {
    match c.op
    case Grant(p, role) => if c.pc.Start? && p.kind == "user" && IsSupportedRole(role) then Some(p.id) else None
    case Revoke(p, role) => if c.pc.Start? && p.kind == "user" && IsSupportedRole(role) then Some(p.id) else None
    case DeleteAccount(id) => if c.pc.Removed? then Some(id) else None
    case CreateAccount(_) => None
  }

  /** What a call makes of the reply to its read. */
  function AfterReading(op: Op, reply: UserReply): Pc {
    match op
    case Grant(_, role) => GrantStart(role, reply)
    case Revoke(_, role) => RevokeStart(role, reply)
    case DeleteAccount(_) => DeleteConfirm(reply)
    case CreateAccount(_) => Done(Failed)
  }

  /** A read: a hit, or the reply of the server, has to come in; no answer is an error. */
  function ReadStep(cache: UserCache, st: StoreState, id: string, net: Net): Pc {
    match ReadUser(cache, st, id, net)
    case Some(reply) => Reading(reply)
    case None => Done(Failed)
  }

  /** Where the call is after its next step, given the cache and the store that step meets. */
  function NextPc(fold: CaseFold, cache: UserCache, st: StoreState, c: Call, net: Net, newId: string): Pc {
    if Reads(c).Some? then ReadStep(cache, st, Reads(c).value, net)
    else if c.pc.Reading? then AfterReading(c.op, c.pc.reply)
    else
      match c.op
      case Grant(p, role) =>
        if c.pc.Start? then Done(Failed)
        else if c.pc.Fetched? then GrantFinish(st, p, role, c.pc.current, net)
        else c.pc
      case Revoke(p, role) =>
        if c.pc.Start? then Done(Failed)
        else if c.pc.Fetched? then RevokeFinish(st, p, net)
        else c.pc
      case DeleteAccount(id) =>
        if c.pc.Start? then DeleteStart(st, id, net) else c.pc
      case CreateAccount(profile) =>
        if c.pc.Start? then CreateStart(fold, st, profile, net, newId) else c.pc
  }

  /** The cache changes when a reply comes in: what was a hit is put there once more. */
  function NextCache(cache: UserCache, c: Call): UserCache {
    if c.pc.Reading? && About(c.op).Some? then AfterReply(cache, About(c.op).value, c.pc.reply) else cache
  }

  /** The user a call is about. */
  function About(op: Op): Option<string> {
    match op
    case Grant(p, _) => Some(p.id)
    case Revoke(p, _) => Some(p.id)
    case DeleteAccount(id) => Some(id)
    case CreateAccount(_) => None
  }

  /** The store after the call's next request. */
  function NextWorld(fold: CaseFold, w: World, c: Call, net: Net, newId: string): World {
    if net == Refused then w
    else
      match c.op
      case Grant(p, role) => if c.pc.Fetched? then w.(store := WithRole(w.store, p.id, role)) else w
      case Revoke(p, _) => if c.pc.Fetched? then w.(store := WithRole(w.store, p.id, DEFAULT_REVOKED_ROLE)) else w
      case DeleteAccount(id) => if c.pc.Start? then w.(store := DeleteUser(w.store, id).0) else w
      case CreateAccount(profile) =>
        if Creates(c, net) then
          World(CreateUser(fold, w.store, AccountRequest(profile), newId).0, w.issued + {newId})
        else w
  }

  predicate Creates(c: Call, net: Net) {
    c.op.CreateAccount? && c.pc.Start? && net != Refused && AccountRequest(c.op.profile).Some?
  }

  /** The program counters a call of each kind can be at, and what it has checked to get there. */
  predicate WellPlaced(c: Call) {
    match c.pc
    case Fetched(current) =>
      || (c.op.Grant? && KnownRole(c.op.role) && current.Role() != c.op.role)
      || (c.op.Revoke? && KnownRole(c.op.role) && c.op.role != DEFAULT_REVOKED_ROLE && current.Role() == c.op.role)
    case Reading(_) => About(c.op).Some? && (c.op.Grant? || c.op.Revoke? ==> KnownRole(c.op.role))
    case Removed => c.op.DeleteAccount?
    case _ => true
  }

  // ---------- Many calls, and other clients ----------

  datatype Sys = Sys(world: World, calls: map<nat, Call>, cache: UserCache)

  /** Env is a request of some other SCIM client; Forget is the cache dropping entries. */
  datatype Action =
    | Begin(cid: nat, op: Op)
    | Step(cid: nat, net: Net, newId: string)
    | Env(req: Request)
    | Forget(keys: set<string>)

  ghost predicate CanAct(s: Sys, a: Action) {
    match a
    case Begin(cid, _) => cid !in s.calls
    case Step(cid, net, newId) =>
      && cid in s.calls && !s.calls[cid].pc.Done?
      && (Creates(s.calls[cid], net) ==> newId !in s.world.issued && UuidText(newId))
    case Env(req) => CanServe(s.world, req)
    case Forget(_) => true
  }

  ghost function Act(fold: CaseFold, s: Sys, a: Action): Sys
    requires CanAct(s, a)
  {
    match a
    case Begin(cid, op) => s.(calls := s.calls[cid := Call(op, Start)])
    case Step(cid, net, newId) =>
      var c := s.calls[cid];
      Sys(NextWorld(fold, s.world, c, net, newId),
          s.calls[cid := c.(pc := NextPc(fold, s.cache, s.world.store, c, net, newId))],
          NextCache(s.cache, c))
    case Env(req) => s.(world := Serve(fold, s.world, req))
    case Forget(keys) => s.(cache := Dropped(s.cache, keys))
  }

  /** states[i + 1] is what acts[i] makes of states[i]. */
  ghost predicate Goes(fold: CaseFold, states: seq<Sys>, acts: seq<Action>, i: nat)
    requires i < |acts| && i + 1 < |states|
  {
    CanAct(states[i], acts[i]) && states[i + 1] == Act(fold, states[i], acts[i])
  }

  ghost predicate IsRun(fold: CaseFold, states: seq<Sys>, acts: seq<Action>) {
    |states| == |acts| + 1 && forall i :: 0 <= i < |acts| ==> Goes(fold, states, acts, i)
  }

  // ---------- The requests behind the steps ----------

  /** The write the call is about to send; Read when it is about to read, or to return an error. */
  function Pending(c: Call, newId: string): Request {
    match c.pc
    case Fetched(_) =>
      (match c.op
       case Grant(p, role) => Request.Patch(p.id, Some(RolePatch(role)), RolePatchOrders())
       case Revoke(p, role) => Request.Patch(p.id, Some(RolePatch(DEFAULT_REVOKED_ROLE)), RolePatchOrders())
       case _ => Read)
    case Start =>
      (match c.op
       case DeleteAccount(id) => Request.Delete(id)
       case CreateAccount(profile) =>
         var body := AccountRequest(profile);
         if body.None? then Read else Request.Create(body, newId)
       case _ => Read)
    case _ => Read
  }

  /** The request an action puts before the store. */
  function RequestOf(s: Sys, a: Action): Request
    requires a.Step? ==> a.cid in s.calls
  {
    match a
    case Begin(_, _) => Read
    case Step(cid, net, newId) => if net == Refused then Read else Pending(s.calls[cid], newId)
    case Env(req) => req
    case Forget(_) => Read
  }

  /** The connector's role patch on the store, in whatever order its one-key object is ranged over. */
  lemma RolePatchEffect(st: StoreState, id: string, role: string)
    ensures AreRangeOrders(RolePatch(role), RolePatchOrders())
    ensures var (st', reply) := PatchUser(st, id, Some(RolePatch(role)), RolePatchOrders());
            st' == WithRole(st, id, role) && reply.status == RoleWriteStatus(st, id, role)
  {
    RolePatchOutcome(None, role, RolePatchOrders());
    if id in st.users { RolePatchOutcome(st.users[id].ext, role, RolePatchOrders()); }
  }

  /** Every action is a transition of the store, on a request the server can serve. */
  lemma ActIsServe(fold: CaseFold, s: Sys, a: Action)
    requires CanAct(s, a)
    ensures CanServe(s.world, RequestOf(s, a))
    ensures Act(fold, s, a).world == Serve(fold, s.world, RequestOf(s, a))
  {
    if a.Step? && a.net != Refused && s.calls[a.cid].pc.Fetched? {
      var op := s.calls[a.cid].op;
      if op.Grant? { RolePatchEffect(s.world.store, op.principal.id, op.role); }
      if op.Revoke? { RolePatchEffect(s.world.store, op.principal.id, DEFAULT_REVOKED_ROLE); }
    }
  }

  // ---------- What every run keeps ----------

  /** A reply that is not in yet is one that the server has given, now or when it was cached. */
  ghost predicate Expects(s: Sys, c: Call) {
    c.pc.Reading? && About(c.op).Some? ==> Genuine(c.pc.reply, About(c.op).value, s.world.issued)
  }

  ghost predicate Sound(fold: CaseFold, s: Sys) {
    && Inv(fold, s.world) && Filed(s.cache, s.world.issued)
    && forall cid :: cid in s.calls ==> WellPlaced(s.calls[cid]) && Expects(s, s.calls[cid])
  }

  lemma ActKeepsSound(fold: CaseFold, s: Sys, a: Action)
    requires Sound(fold, s) && CanAct(s, a)
    ensures Sound(fold, Act(fold, s, a))
  {
    ActIsServe(fold, s, a);
    ServeKeepsInv(fold, s.world, RequestOf(s, a));
    IssuedGrows(fold, s, a);
    ActKeepsFiled(fold, s, a);
    if a.Step? { StepKeepsCall(fold, s, a); }
  }

  lemma IssuedGrows(fold: CaseFold, s: Sys, a: Action)
    requires CanAct(s, a)
    ensures s.world.issued <= Act(fold, s, a).world.issued
  {
  }

  lemma ActKeepsFiled(fold: CaseFold, s: Sys, a: Action)
    requires Sound(fold, s) && CanAct(s, a)
    ensures Filed(Act(fold, s, a).cache, Act(fold, s, a).world.issued)
  {
    IssuedGrows(fold, s, a);
    if a.Step? && s.calls[a.cid].pc.Reading? && About(s.calls[a.cid].op).Some? {
      assert Expects(s, s.calls[a.cid]);
      ReplyFills(s.cache, s.world.issued, About(s.calls[a.cid].op).value, s.calls[a.cid].pc.reply, "");
    }
  }

  lemma StepKeepsCall(fold: CaseFold, s: Sys, a: Action)
    requires Sound(fold, s) && CanAct(s, a) && a.Step?
    ensures var c' := Act(fold, s, a).calls[a.cid];
            WellPlaced(c') && Expects(Act(fold, s, a), c')
  {
    NextIsWellPlaced(fold, s.cache, s.world.store, s.calls[a.cid], a.net, a.newId);
    NextExpects(fold, s, a);
  }

  lemma NextIsWellPlaced(fold: CaseFold, cache: UserCache, st: StoreState, c: Call, net: Net, newId: string)
    requires WellPlaced(c)
    ensures WellPlaced(c.(pc := NextPc(fold, cache, st, c, net, newId)))
  {
    if c.op.Grant? || c.op.Revoke? { SupportedIsKnown(c.op.role); }
  }

  lemma NextExpects(fold: CaseFold, s: Sys, a: Action)
    requires Sound(fold, s) && CanAct(s, a) && a.Step?
    ensures Expects(Act(fold, s, a), Act(fold, s, a).calls[a.cid])
  {
    var c := s.calls[a.cid];
    assert WellPlaced(c);
    if Reads(c).Some? {
      ServedIsGenuine(fold, s.world, Reads(c).value);
      assert Lookup(s.cache, CacheKey(Reads(c).value)).Some? ==> CacheKey(Reads(c).value) in s.world.issued;
    }
    IssuedGrows(fold, s, a);
  }

  lemma {:induction false} RunKeepsSound(fold: CaseFold, states: seq<Sys>, acts: seq<Action>, i: nat)
    requires IsRun(fold, states, acts) && Sound(fold, states[0]) && i < |states|
    ensures Sound(fold, states[i])
  {
    if i > 0 {
      RunKeepsSound(fold, states, acts, i - 1);
      GoesKeepsSound(fold, states, acts, i - 1);
    }
  }

  lemma GoesKeepsSound(fold: CaseFold, states: seq<Sys>, acts: seq<Action>, i: nat)
    requires i < |acts| && i + 1 < |states| && Goes(fold, states, acts, i) && Sound(fold, states[i])
    ensures Sound(fold, states[i + 1])
  {
    ActKeepsSound(fold, states[i], acts[i]);
  }

  // ---------- Every call ends ----------

  predicate Owns(s: Sys, a: Action, cid: nat) {
    a.Step? && a.cid == cid && cid in s.calls
  }

  /** How many steps a call may still take. */
  function StepsLeft(c: Call): nat {
    match c.pc
    case Start => 3
    case Removed => 2
    case Reading(_) => if c.op.DeleteAccount? then 1 else 2
    case Fetched(_) => 1
    case Done(_) => 0
  }

  lemma OwnStep(fold: CaseFold, s: Sys, a: Action)
    requires Sound(fold, s) && CanAct(s, a) && a.Step?
    ensures var before, after := s.calls[a.cid], Act(fold, s, a).calls[a.cid];
            after.op == before.op && StepsLeft(after) < StepsLeft(before)
  {
    assert WellPlaced(s.calls[a.cid]);
  }

  lemma NeverBackToStart(fold: CaseFold, s: Sys, a: Action)
    requires CanAct(s, a) && a.Step?
    ensures !Act(fold, s, a).calls[a.cid].pc.Start?
  {
  }

  lemma OthersKeepStill(fold: CaseFold, s: Sys, a: Action, cid: nat)
    requires CanAct(s, a) && cid in s.calls && !Owns(s, a, cid)
    ensures cid in Act(fold, s, a).calls && Act(fold, s, a).calls[cid] == s.calls[cid]
  {
  }

  predicate MovedOn(before: Call, after: Call) {
    && after.op == before.op && StepsLeft(after) <= StepsLeft(before)
    && (StepsLeft(after) == StepsLeft(before) ==> after == before)
  }

  lemma CallMoves(fold: CaseFold, s: Sys, a: Action, cid: nat)
    requires Sound(fold, s) && CanAct(s, a) && cid in s.calls
    ensures cid in Act(fold, s, a).calls && MovedOn(s.calls[cid], Act(fold, s, a).calls[cid])
  {
    if Owns(s, a, cid) { OwnStep(fold, s, a); } else { OthersKeepStill(fold, s, a, cid); }
  }

  /** A call keeps its operation, never has more steps left than before, and does not change as long as it
      takes none. */
  lemma {:induction false} CallStays(fold: CaseFold, states: seq<Sys>, acts: seq<Action>, cid: nat, i: nat, j: nat)
    requires IsRun(fold, states, acts) && Sound(fold, states[0]) && i <= j < |states| && cid in states[i].calls
    ensures cid in states[j].calls && MovedOn(states[i].calls[cid], states[j].calls[cid])
    decreases j
  {
    if i < j {
      CallStays(fold, states, acts, cid, i, j - 1);
      StepMoves(fold, states, acts, cid, j - 1);
      MovesOn(states[i].calls[cid], states[j - 1].calls[cid], states[j].calls[cid]);
    }
  }

  lemma StepMoves(fold: CaseFold, states: seq<Sys>, acts: seq<Action>, cid: nat, j: nat)
    requires IsRun(fold, states, acts) && Sound(fold, states[0]) && j < |acts| && cid in states[j].calls
    ensures cid in states[j + 1].calls && MovedOn(states[j].calls[cid], states[j + 1].calls[cid])
  {
    RunKeepsSound(fold, states, acts, j);
    var s, a := states[j], acts[j];
    assert Goes(fold, states, acts, j);
    CallMoves(fold, s, a, cid);
  }

  lemma MovesOn(a: Call, b: Call, c: Call)
    requires MovedOn(a, b) && MovedOn(b, c)
    ensures MovedOn(a, c)
  {
  }

  /** Whatever stores, caches and message fates it meets, and whatever runs between: a call is done
      after at most three steps of its own, and takes no step after that. */
  lemma DoneInThreeSteps(fold: CaseFold, states: seq<Sys>, acts: seq<Action>, cid: nat, i: nat, j: nat, k: nat)
    requires IsRun(fold, states, acts) && Sound(fold, states[0]) && i < j < k < |acts|
    requires Owns(states[i], acts[i], cid) && Owns(states[j], acts[j], cid) && Owns(states[k], acts[k], cid)
    ensures cid in states[k + 1].calls && states[k + 1].calls[cid].pc.Done?
    ensures forall later :: k < later < |acts| ==> !Owns(states[later], acts[later], cid)
  {
    StepCounts(fold, states, acts, cid, i);
    CallStays(fold, states, acts, cid, i + 1, j);
    StepCounts(fold, states, acts, cid, j);
    CallStays(fold, states, acts, cid, j + 1, k);
    StepCounts(fold, states, acts, cid, k);
    forall later | k < later < |acts| ensures !Owns(states[later], acts[later], cid) {
      DoneTakesNoStep(fold, states, acts, cid, k + 1, later);
    }
  }

  lemma DoneTakesNoStep(fold: CaseFold, states: seq<Sys>, acts: seq<Action>, cid: nat, i: nat, later: nat)
    requires IsRun(fold, states, acts) && Sound(fold, states[0]) && i <= later < |acts|
    requires cid in states[i].calls && states[i].calls[cid].pc.Done?
    ensures !Owns(states[later], acts[later], cid)
  {
    CallStays(fold, states, acts, cid, i, later);
    assert Goes(fold, states, acts, later);
  }

  lemma StepCounts(fold: CaseFold, states: seq<Sys>, acts: seq<Action>, cid: nat, i: nat)
    requires IsRun(fold, states, acts) && Sound(fold, states[0]) && i < |acts| && Owns(states[i], acts[i], cid)
    ensures cid in states[i + 1].calls && StepsLeft(states[i + 1].calls[cid]) < StepsLeft(states[i].calls[cid])
  {
    RunKeepsSound(fold, states, acts, i);
    assert Goes(fold, states, acts, i);
    OwnStep(fold, states[i], acts[i]);
  }

  predicate Holds(s: Sys, userId: string, role: string) {
    userId in s.world.store.users && s.world.store.users[userId].Role() == role
  }

  /** The last step a call has taken, when it has taken one. */
  lemma {:induction false} LastStepAt(fold: CaseFold, states: seq<Sys>, acts: seq<Action>, cid: nat, b: nat, e: nat)
    returns (i: nat)
    requires IsRun(fold, states, acts) && Sound(fold, states[0]) && b < e < |states|
    requires acts[b].Begin? && acts[b].cid == cid
    requires cid in states[e].calls && !states[e].calls[cid].pc.Start?
    ensures b < i < e && Owns(states[i], acts[i], cid) && !states[i].calls[cid].pc.Done?
    ensures states[i].calls[cid].op == states[e].calls[cid].op == acts[b].op
    ensures cid in states[i + 1].calls && states[i + 1].calls[cid] == states[e].calls[cid]
    decreases e
  {
    BegunAs(fold, states, acts, b);
    CallStays(fold, states, acts, cid, b + 1, e - 1);
    var s, a := states[e - 1], acts[e - 1];
    assert Goes(fold, states, acts, e - 1);
    if Owns(s, a, cid) {
      i := e - 1;
    } else {
      OthersKeepStill(fold, s, a, cid);
      i := LastStepAt(fold, states, acts, cid, b, e - 1);
    }
  }

  lemma BegunAs(fold: CaseFold, states: seq<Sys>, acts: seq<Action>, b: nat)
    requires IsRun(fold, states, acts) && b < |acts| && acts[b].Begin?
    ensures acts[b].cid in states[b + 1].calls && states[b + 1].calls[acts[b].cid] == Call(acts[b].op, Start)
  {
    assert Goes(fold, states, acts, b);
  }

  // ---------- Putting runs together ----------

  lemma RunsJoin(fold: CaseFold, xs: seq<Sys>, as1: seq<Action>, ys: seq<Sys>, as2: seq<Action>)
    requires IsRun(fold, xs, as1) && IsRun(fold, ys, as2) && xs[|as1|] == ys[0]
    ensures IsRun(fold, xs + ys[1..], as1 + as2)
    ensures forall k :: 0 <= k < |ys| ==> (xs + ys[1..])[|as1| + k] == ys[k]
  {
    var states, acts := xs + ys[1..], as1 + as2;
    forall i | 0 <= i < |acts| ensures Goes(fold, states, acts, i) {
      if i < |as1| {
        assert states[i] == xs[i] && states[i + 1] == xs[i + 1] && acts[i] == as1[i];
        assert Goes(fold, xs, as1, i);
      } else {
        var j := i - |as1|;
        assert states[i] == ys[j] && states[i + 1] == ys[j + 1] && acts[i] == as2[j];
        assert Goes(fold, ys, as2, j);
      }
    }
  }

  /** One action before a run. */
  lemma RunAfter(fold: CaseFold, s: Sys, a: Action, s1: Sys, ys: seq<Sys>, as2: seq<Action>)
    returns (states: seq<Sys>, acts: seq<Action>)
    requires CanAct(s, a) && s1 == Act(fold, s, a) && IsRun(fold, ys, as2) && ys[0] == s1
    ensures IsRun(fold, states, acts) && acts == [a] + as2 && states == [s] + ys
  {
    states, acts := [s] + ys, [a] + as2;
    assert IsRun(fold, [s, s1], [a]);
    RunsJoin(fold, [s, s1], [a], ys, as2);
    assert [s, s1] + ys[1..] == [s] + ys;
  }
}
