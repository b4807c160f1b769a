/** The caller's grant ledger, kept from the annotations alone, against a fresh scan of the store. */
module Ledger {
  import opened Text
  import opened Domain
  import opened Store
  import opened Roles
  import opened Caching
  import opened Protocol
  import opened Paging
  import opened Coverage
  import opened Sorting
  import opened Connector
  import opened Sync

  /** How a caller reads a result. Restricted member is the default of the exclusion group, so it is
      what remains after a downgrade; a new account brings the grants of its resource. */
  function Entered(ledger: set<RoleGrant>, op: Op, result: Result): set<RoleGrant> {
    match op
    case Grant(p, role) =>
      (match result
       case GrantAlreadyExists => ledger + {RoleGrant(p.id, role)}
       case GrantReplaced(previous) => ledger - {RoleGrant(p.id, previous)} + {RoleGrant(p.id, role)}
       case Granted => ledger + {RoleGrant(p.id, role)}
       case _ => ledger)
    case Revoke(p, role) =>
      (match result
       case GrantAlreadyRevoked => ledger - {RoleGrant(p.id, role)}
       case Downgraded => ledger - {RoleGrant(p.id, role)} + {RoleGrant(p.id, DEFAULT_REVOKED_ROLE)}
       case _ => ledger)
    case DeleteAccount(id) =>
      (match result
       case Deleted => set g | g in ledger && g.user != id
       case _ => ledger)
    case CreateAccount(_) =>
      (match result
       case AccountCreated(user) => ledger + (set g | g in UserGrants(UserResourceOf(user)))
       case _ => ledger)
  }

  /** The connector, the ledger, and the torn users: some call on them returned an error although its
      write had gone through. */
  datatype Books = Books(sys: Sys, ledger: set<RoleGrant>, torn: set<string>)

  /** The user a step of the call may write. */
  function Subject(op: Op, newId: string): string {
    match op
    case Grant(p, _) => p.id
    case Revoke(p, _) => p.id
    case DeleteAccount(id) => id
    case CreateAccount(_) => newId
  }

  /** A delete that has happened and is not confirmed yet. */
  predicate Unconfirmed(c: Call) {
    c.op.DeleteAccount? && (c.pc == Removed || c.pc.Reading?)
  }

  /** The step ends the call with an error, and the call has changed the store. */
  ghost predicate Tears(fold: CaseFold, s: Sys, a: Action)
    requires CanAct(s, a) && a.Step?
  {
    && Act(fold, s, a).calls[a.cid].pc == Done(Failed)
    && (Act(fold, s, a).world.store != s.world.store || Unconfirmed(s.calls[a.cid]))
  }

  ghost function Booked(fold: CaseFold, b: Books, a: Action): Books
    requires CanAct(b.sys, a)
  {
    var s' := Act(fold, b.sys, a);
    if a.Step? && s'.calls[a.cid].pc.Done? then
      var op := s'.calls[a.cid].op;
      Books(s', Entered(b.ledger, op, s'.calls[a.cid].pc.result),
            if Tears(fold, b.sys, a) then b.torn + {Subject(op, a.newId)} else b.torn)
    else Books(s', b.ledger, b.torn)
  }

  // ---------- Discipline and invariant ----------

  predicate Active(c: Call) { !c.pc.Done? }

  /** The calls are on one user, as far as the server or the cache can tell. */
  predicate SameUser(a: Op, b: Op) {
    !a.CreateAccount? && !b.CreateAccount? && CacheKey(Subject(a, "")) == CacheKey(Subject(b, ""))
  }

  /** Calls on one user do not overlap, no other client writes, and no new account draws an ID that some
      call in flight is already about. */
  ghost predicate Serial(s: Sys, a: Action) {
    && (a.Step? && a.cid in s.calls && Creates(s.calls[a.cid], a.net) ==>
          forall cid :: cid in s.calls && Active(s.calls[cid]) ==> About(s.calls[cid].op) != Some(a.newId))
    && (a.Begin? ==> forall cid :: cid in s.calls && Active(s.calls[cid]) ==> !SameUser(s.calls[cid].op, a.op))
    && (a.Env? ==> a.req == Read)
  }

  /** Moreover a grant or revoke begins only when what is cached of the user, if anything is, is still
      true. A caller that has cleared the cache since the last write to the user knows that. */
  ghost predicate Disciplined(s: Sys, a: Action) {
    && Serial(s, a)
    && (a.Begin? && (a.op.Grant? || a.op.Revoke?) ==> Current(s.cache, s.world.store, a.op.principal.id))
  }

  ghost function Entry(st: StoreState, id: string): Option<User> {
    if id in st.users then Some(st.users[id]) else None
  }

  ghost function LedgerOf(ledger: set<RoleGrant>, id: string): set<RoleGrant> {
    set g | g in ledger && g.user == id
  }

  ghost function ScanOf(st: StoreState, id: string): set<RoleGrant> {
    if id in st.users then GrantsOf(st.users[id]) else {}
  }

  /** What a call in flight may rely on: the cache, the reply on its way or its snapshot is current, or
      its user is gone. */
  ghost predicate InStep(s: Sys, c: Call) {
    match c.pc
    case Start => c.op.Grant? || c.op.Revoke? ==> Current(s.cache, s.world.store, Subject(c.op, ""))
    case Reading(reply) =>
      if c.op.DeleteAccount? then Subject(c.op, "") in s.world.issued && Subject(c.op, "") !in s.world.store.users
      else reply == GetUser(s.world.store, Subject(c.op, ""))
    case Fetched(current) => Entry(s.world.store, Subject(c.op, "")) == Some(current)
    case Removed => Subject(c.op, "") in s.world.issued && Subject(c.op, "") !in s.world.store.users
    case _ => true
  }

  /** Some delete of this user has happened but is not confirmed yet. */
  ghost predicate BeingRemoved(s: Sys, id: string) {
    exists cid :: cid in s.calls && Unconfirmed(s.calls[cid]) && Subject(s.calls[cid].op, "") == id
  }

  ghost predicate Exclusive(s: Sys) {
    forall a, b :: a in s.calls && b in s.calls && a != b && Active(s.calls[a]) && Active(s.calls[b]) ==>
      !SameUser(s.calls[a].op, s.calls[b].op)
  }

  ghost predicate Tracks(b: Books, id: string) {
    id in b.torn || BeingRemoved(b.sys, id) || LedgerOf(b.ledger, id) == ScanOf(b.sys.world.store, id)
  }

  ghost predicate BooksInv(fold: CaseFold, b: Books) {
    && Sound(fold, b.sys)
    && Exclusive(b.sys)
    && (forall cid :: cid in b.sys.calls ==> InStep(b.sys, b.sys.calls[cid]))
    && (forall id :: Tracks(b, id))
  }

  // ---------- Steps on different users do not disturb each other ----------

  lemma OtherEntriesStay(fold: CaseFold, s: Sys, a: Action, id: string)
    requires CanAct(s, a) && Serial(s, a)
    requires a.Step? ==> Subject(s.calls[a.cid].op, a.newId) != id
    ensures Entry(Act(fold, s, a).world.store, id) == Entry(s.world.store, id)
    ensures s.world.issued <= Act(fold, s, a).world.issued
  {
    if a.Step? {
      StepEntries(fold, s.world, s.calls[a.cid], a.net, a.newId, id);
    } else {
      assert Act(fold, s, a).world == s.world;
    }
  }

  lemma StepEntries(fold: CaseFold, w: World, c: Call, net: Net, newId: string, id: string)
    requires Subject(c.op, newId) != id
    ensures Entry(NextWorld(fold, w, c, net, newId).store, id) == Entry(w.store, id)
    ensures w.issued <= NextWorld(fold, w, c, net, newId).issued
  {
  }

  lemma OtherLinesStay(ledger: set<RoleGrant>, op: Op, result: Result, newId: string, id: string)
    requires Subject(op, newId) != id
    requires op.CreateAccount? && result.AccountCreated? ==> result.user.id == newId
    ensures LedgerOf(Entered(ledger, op, result), id) == LedgerOf(ledger, id)
  {
    if op.CreateAccount? && result.AccountCreated? {
      GrantsSurviveProfile(result.user);
    }
  }

  // ---------- A step on the user itself ----------

  /** The part of the store invariant these steps need. */
  ghost predicate UsersFiled(w: World) {
    KeysAreIds(w.store) && w.store.users.Keys <= w.issued
  }

  /** A step of a call: the store it leaves, and where the call is then. */
  ghost function Moved(fold: CaseFold, cache: UserCache, w: World, c: Call, net: Net, newId: string): (StoreState, Pc) {
    (NextWorld(fold, w, c, net, newId).store, NextPc(fold, cache, w.store, c, net, newId))
  }

  /** The ledger line of the user after the step is what a scan of the new store says, or the call is
      torn, or it is a delete waiting for its confirmation. */
  ghost predicate LineFollows(w: World, c: Call, ledger: set<RoleGrant>, id: string, st': StoreState, pc': Pc) {
    || (pc' == Done(Failed) && (st' != w.store || Unconfirmed(c)))
    || Unconfirmed(c.(pc := pc'))
    || LedgerOf(if pc'.Done? then Entered(ledger, c.op, pc'.result) else ledger, id) == ScanOf(st', id)
  }

  lemma GrantLine(fold: CaseFold, cache: UserCache, w: World, c: Call, net: Net, newId: string, ledger: set<RoleGrant>)
    requires UsersFiled(w) && c.op.Grant? && !c.pc.Done? && WellPlaced(c)
    requires c.pc.Start? ==> Current(cache, w.store, c.op.principal.id)
    requires c.pc.Reading? ==> c.pc.reply == GetUser(w.store, c.op.principal.id)
    requires c.pc.Fetched? ==> Entry(w.store, c.op.principal.id) == Some(c.pc.current)
    requires LedgerOf(ledger, c.op.principal.id) == ScanOf(w.store, c.op.principal.id)
    ensures var (st', pc') := Moved(fold, cache, w, c, net, newId);
            LineFollows(w, c, ledger, c.op.principal.id, st', pc')
  {
    SupportedIsKnown(c.op.role);
    if c.pc.Start? || c.pc.Reading? {
      if KnownRole(c.op.role) { GrantReadLine(w, c.op, ledger); }
    } else if net != Refused {
      RoleWritten(w, c.op.principal.id, c.op.role);
      SupportedIsKnown(c.pc.current.Role());
    }
  }

  /** A grant that ends on its read has found the role in place, or no user. */
  lemma GrantReadLine(w: World, op: Op, ledger: set<RoleGrant>)
    requires UsersFiled(w) && op.Grant? && KnownRole(op.role)
    requires LedgerOf(ledger, op.principal.id) == ScanOf(w.store, op.principal.id)
    ensures var pc' := GrantStart(op.role, GetUser(w.store, op.principal.id));
            pc'.Done? ==> LedgerOf(Entered(ledger, op, pc'.result), op.principal.id) == ScanOf(w.store, op.principal.id)
  {
  }

  /** Writing a role that differs from the one held changes the store, and the scan of the user. */
  lemma RoleWritten(w: World, id: string, role: string)
    requires KeysAreIds(w.store) && id in w.store.users && KnownRole(role) && w.store.users[id].Role() != role
    ensures WithRole(w.store, id, role) != w.store
    ensures ScanOf(WithRole(w.store, id, role), id) == {RoleGrant(id, role)}
  {
    assert WithRole(w.store, id, role).users[id].Role() == role;
  }

  lemma RevokeLine(fold: CaseFold, cache: UserCache, w: World, c: Call, net: Net, newId: string, ledger: set<RoleGrant>)
    requires UsersFiled(w) && c.op.Revoke? && !c.pc.Done? && WellPlaced(c)
    requires c.pc.Start? ==> Current(cache, w.store, c.op.principal.id)
    requires c.pc.Reading? ==> c.pc.reply == GetUser(w.store, c.op.principal.id)
    requires c.pc.Fetched? ==> Entry(w.store, c.op.principal.id) == Some(c.pc.current)
    requires LedgerOf(ledger, c.op.principal.id) == ScanOf(w.store, c.op.principal.id)
    ensures var (st', pc') := Moved(fold, cache, w, c, net, newId);
            LineFollows(w, c, ledger, c.op.principal.id, st', pc')
  {
    if c.pc.Start? || c.pc.Reading? {
      RevokeReadLine(w, c.op, ledger);
    } else if net != Refused {
      RoleWritten(w, c.op.principal.id, DEFAULT_REVOKED_ROLE);
    }
  }

  /** A revoke that ends on its read has found the role not held, or has failed. */
  lemma RevokeReadLine(w: World, op: Op, ledger: set<RoleGrant>)
    requires UsersFiled(w) && op.Revoke?
    requires LedgerOf(ledger, op.principal.id) == ScanOf(w.store, op.principal.id)
    ensures var pc' := RevokeStart(op.role, GetUser(w.store, op.principal.id));
            pc'.Done? ==> LedgerOf(Entered(ledger, op, pc'.result), op.principal.id) == ScanOf(w.store, op.principal.id)
  {
    if RevokeStart(op.role, GetUser(w.store, op.principal.id)) == Done(GrantAlreadyRevoked) {
      RevokeReads(w, op.principal.id, op.role, ledger);
    }
  }

  /** Striking a role the user does not hold changes nothing in its line. */
  lemma RevokeReads(w: World, id: string, role: string, ledger: set<RoleGrant>)
    requires KeysAreIds(w.store) && LedgerOf(ledger, id) == ScanOf(w.store, id)
    requires id in w.store.users ==> w.store.users[id].Role() != role
    ensures LedgerOf(ledger - {RoleGrant(id, role)}, id) == ScanOf(w.store, id)
  {
    assert RoleGrant(id, role) !in LedgerOf(ledger, id);
  }

  lemma DeleteLine(fold: CaseFold, cache: UserCache, w: World, c: Call, net: Net, newId: string, ledger: set<RoleGrant>)
    requires UsersFiled(w) && c.op.DeleteAccount? && !c.pc.Done? && WellPlaced(c)
    requires Unconfirmed(c) ==> c.op.userId !in w.store.users
    requires !Unconfirmed(c) ==> LedgerOf(ledger, c.op.userId) == ScanOf(w.store, c.op.userId)
    ensures var (st', pc') := Moved(fold, cache, w, c, net, newId);
            LineFollows(w, c, ledger, c.op.userId, st', pc')
  {
    var id := c.op.userId;
    var (st', pc') := Moved(fold, cache, w, c, net, newId);
    if c.pc.Start? && id in w.store.users {
      assert id !in DeleteUser(w.store, id).0.users;
    }
  }

  lemma CreateLine(fold: CaseFold, cache: UserCache, w: World, c: Call, net: Net, newId: string, ledger: set<RoleGrant>)
    requires Creates(c, net) ==> newId !in w.issued
    requires UsersFiled(w) && c.op.CreateAccount? && !c.pc.Done? && WellPlaced(c)
    requires LedgerOf(ledger, newId) == ScanOf(w.store, newId)
    ensures var (st', pc') := Moved(fold, cache, w, c, net, newId);
            LineFollows(w, c, ledger, newId, st', pc')
  {
    if Creates(c, net) {
      assert newId !in w.store.users;
      CreatedLine(fold, w.store, AccountRequest(c.op.profile), newId, c.op, ledger);
    }
  }

  /** A create that goes through enters the grants of the new user. */
  lemma CreatedLine(fold: CaseFold, st: StoreState, body: Option<User>, newId: string, op: Op, ledger: set<RoleGrant>)
    requires newId !in st.users && op.CreateAccount? && LedgerOf(ledger, newId) == ScanOf(st, newId)
    ensures var (st', reply) := CreateUser(fold, st, body, newId);
            if reply.status == Created then
              && st' != st
              && LedgerOf(Entered(ledger, op, AccountCreated(reply.user.value)), newId) == ScanOf(st', newId)
            else st' == st
  {
    var (st', reply) := CreateUser(fold, st, body, newId);
    if reply.status == Created {
      GrantsSurviveProfile(reply.user.value);
      assert newId in st'.users;
    }
  }

  // ---------- The invariant is kept ----------

  lemma BookedKeepsExclusive(fold: CaseFold, b: Books, a: Action)
    requires BooksInv(fold, b) && CanAct(b.sys, a) && Disciplined(b.sys, a)
    ensures Exclusive(Booked(fold, b, a).sys)
  {
    var s, s' := b.sys, Booked(fold, b, a).sys;
    forall x, y | x in s'.calls && y in s'.calls && x != y && Active(s'.calls[x]) && Active(s'.calls[y])
      ensures !SameUser(s'.calls[x].op, s'.calls[y].op)
    {
      if x in s.calls && y in s.calls {
        assert Active(s.calls[x]) && Active(s.calls[y]);
        assert s'.calls[x].op == s.calls[x].op && s'.calls[y].op == s.calls[y].op;
      }
    }
  }

  /** What is cached of a user stays so, or vanishes, while some other user is read and written. */
  lemma EntryStays(fold: CaseFold, s: Sys, a: Action, id: string)
    requires Sound(fold, s) && CanAct(s, a)
    requires a.Step? ==> s.calls[a.cid].op.CreateAccount? || CacheKey(Subject(s.calls[a.cid].op, "")) != CacheKey(id)
    ensures var entry := Lookup(Act(fold, s, a).cache, CacheKey(id));
            entry == None || entry == Lookup(s.cache, CacheKey(id))
  {
    if a.Step? && s.calls[a.cid].pc.Reading? && About(s.calls[a.cid].op).Some? {
      assert Expects(s, s.calls[a.cid]);
      ReplyFills(s.cache, s.world.issued, About(s.calls[a.cid].op).value, s.calls[a.cid].pc.reply, CacheKey(id));
    }
  }

  /** ... and stays true. */
  lemma CurrentStays(fold: CaseFold, s: Sys, a: Action, id: string)
    requires Sound(fold, s) && CanAct(s, a) && Serial(s, a) && Current(s.cache, s.world.store, id)
    requires a.Step? ==> s.calls[a.cid].op.CreateAccount? || CacheKey(Subject(s.calls[a.cid].op, "")) != CacheKey(id)
    ensures Current(Act(fold, s, a).cache, Act(fold, s, a).world.store, id)
  {
    EntryStays(fold, s, a, id);
    if id in s.world.store.users {
      if a.Step? && s.calls[a.cid].op.CreateAccount? {
        OwnCreateIsFresh(fold, s, a, id);
      } else {
        OtherEntriesStay(fold, s, a, id);
      }
      assert Entry(s.world.store, id) == Entry(Act(fold, s, a).world.store, id);
    }
  }

  /** A call at rest during a step on some other user still stands where it stood. */
  lemma RestingInStep(fold: CaseFold, s: Sys, a: Action, c: Call)
    requires Sound(fold, s) && CanAct(s, a) && Serial(s, a) && InStep(s, c) && !c.op.CreateAccount? && Active(c)
    requires a.Step? ==> s.calls[a.cid].op.CreateAccount?
                         || CacheKey(Subject(s.calls[a.cid].op, "")) != CacheKey(Subject(c.op, ""))
    requires a.Step? && Creates(s.calls[a.cid], a.net) ==> a.newId != Subject(c.op, "")
    ensures InStep(Act(fold, s, a), c)
  {
    var id := Subject(c.op, "");
    IssuedGrows(fold, s, a);
    if c.pc.Start? {
      if !c.op.DeleteAccount? { CurrentStays(fold, s, a, id); }
    } else {
      EntryStaysPut(fold, s, a, id);
      InStepByEntry(s, Act(fold, s, a), c);
    }
  }

  lemma EntryStaysPut(fold: CaseFold, s: Sys, a: Action, id: string)
    requires CanAct(s, a) && Serial(s, a)
    requires a.Step? ==> if s.calls[a.cid].op.CreateAccount? then Creates(s.calls[a.cid], a.net) ==> a.newId != id
                         else Subject(s.calls[a.cid].op, "") != id
    ensures Entry(Act(fold, s, a).world.store, id) == Entry(s.world.store, id)
  {
    if a.Step? && s.calls[a.cid].op.CreateAccount? && !Creates(s.calls[a.cid], a.net) {
      assert Act(fold, s, a).world == s.world;
    } else {
      OtherEntriesStay(fold, s, a, id);
    }
  }

  lemma InStepByEntry(s: Sys, s': Sys, c: Call)
    requires InStep(s, c) && !c.pc.Start? && s.world.issued <= s'.world.issued
    requires Entry(s'.world.store, Subject(c.op, "")) == Entry(s.world.store, Subject(c.op, ""))
    ensures InStep(s', c)
  {
  }

  lemma OtherCallInStep(fold: CaseFold, b: Books, a: Action, cid: nat)
    requires BooksInv(fold, b) && CanAct(b.sys, a) && Disciplined(b.sys, a)
    requires cid in b.sys.calls && !(a.Step? && a.cid == cid)
    ensures InStep(Booked(fold, b, a).sys, b.sys.calls[cid])
  {
    var c := b.sys.calls[cid];
    assert InStep(b.sys, c) && WellPlaced(c);
    if Active(c) && !c.op.CreateAccount? {
      assert a.Step? ==> !SameUser(b.sys.calls[a.cid].op, c.op);
      assert About(c.op) == Some(Subject(c.op, ""));
      RestingInStep(fold, b.sys, a, c);
    }
  }

  /** A create never meets an ID that was issued before. */
  lemma OwnCreateIsFresh(fold: CaseFold, s: Sys, a: Action, id: string)
    requires Sound(fold, s) && CanAct(s, a) && a.Step? && s.calls[a.cid].op.CreateAccount?
    requires id in s.world.issued
    ensures Entry(Act(fold, s, a).world.store, id) == Entry(s.world.store, id)
    ensures s.world.issued <= Act(fold, s, a).world.issued
  {
  }

  lemma OwnCallInStep(fold: CaseFold, s: Sys, a: Action)
    requires Sound(fold, s) && CanAct(s, a) && a.Step? && InStep(s, s.calls[a.cid])
    ensures InStep(Act(fold, s, a), Act(fold, s, a).calls[a.cid])
  {
    match s.calls[a.cid].op
    case DeleteAccount(_) => OwnDeleteInStep(fold, s, a);
    case CreateAccount(_) => OwnCreateInStep(fold, s, a);
    case _ => OwnRoleCallInStep(fold, s, a);
  }

  lemma OwnCreateInStep(fold: CaseFold, s: Sys, a: Action)
    requires CanAct(s, a) && a.Step? && WellPlaced(s.calls[a.cid]) && s.calls[a.cid].op.CreateAccount?
    ensures InStep(Act(fold, s, a), Act(fold, s, a).calls[a.cid])
  {
  }

  /** A grant or revoke remembers, or awaits, what is stored. */
  lemma OwnRoleCallInStep(fold: CaseFold, s: Sys, a: Action)
    requires Sound(fold, s) && CanAct(s, a) && a.Step? && InStep(s, s.calls[a.cid])
    requires s.calls[a.cid].op.Grant? || s.calls[a.cid].op.Revoke?
    ensures InStep(Act(fold, s, a), Act(fold, s, a).calls[a.cid])
  {
    var c := s.calls[a.cid];
    assert WellPlaced(c);
    NeverBackToStart(fold, s, a);
    if c.pc.Start? || c.pc.Reading? {
      assert Act(fold, s, a).world == s.world;
      LearnsWhatIsStored(s, c, a.net);
    }
  }

  lemma LearnsWhatIsStored(s: Sys, c: Call, net: Net)
    requires (c.op.Grant? || c.op.Revoke?) && InStep(s, c)
    ensures c.pc.Start? ==>
              InStepAt(s, c, ReadStep(s.cache, s.world.store, Subject(c.op, ""), net))
    ensures c.pc.Reading? ==> InStepAt(s, c, AfterReading(c.op, c.pc.reply))
  {
  }

  ghost predicate InStepAt(s: Sys, c: Call, pc: Pc) {
    !pc.Start? && InStep(s, c.(pc := pc))
  }

  lemma OwnDeleteInStep(fold: CaseFold, s: Sys, a: Action)
    requires Sound(fold, s) && CanAct(s, a) && a.Step? && InStep(s, s.calls[a.cid]) && s.calls[a.cid].op.DeleteAccount?
    ensures InStep(Act(fold, s, a), Act(fold, s, a).calls[a.cid])
  {
    var c := s.calls[a.cid];
    assert WellPlaced(c);
    if c.pc.Start? && c.op.userId in s.world.store.users {
      DeleteEffect(s.world.store, c.op.userId);
    }
  }

  lemma BookedKeepsInStep(fold: CaseFold, b: Books, a: Action)
    requires BooksInv(fold, b) && CanAct(b.sys, a) && Disciplined(b.sys, a)
    ensures var s' := Booked(fold, b, a).sys; forall cid :: cid in s'.calls ==> InStep(s', s'.calls[cid])
  {
    var s' := Booked(fold, b, a).sys;
    forall cid | cid in s'.calls ensures InStep(s', s'.calls[cid]) {
      if a.Step? && a.cid == cid {
        OwnCallInStep(fold, b.sys, a);
      } else if cid in b.sys.calls {
        OtherCallInStep(fold, b, a, cid);
      }
    }
  }

  /** A removal is pending until its own call confirms it. */
  lemma RemovalPersists(fold: CaseFold, b: Books, a: Action, id: string)
    requires Sound(fold, b.sys) && CanAct(b.sys, a) && BeingRemoved(b.sys, id)
    requires a.Step? ==> Subject(b.sys.calls[a.cid].op, a.newId) != id
    ensures BeingRemoved(Booked(fold, b, a).sys, id)
  {
    var cid :| cid in b.sys.calls && Unconfirmed(b.sys.calls[cid]) && Subject(b.sys.calls[cid].op, "") == id;
    assert WellPlaced(b.sys.calls[cid]);
    assert Booked(fold, b, a).sys.calls[cid] == b.sys.calls[cid];
  }

  /** The ledger line of a user no step was about. */
  lemma OtherLineTracks(fold: CaseFold, b: Books, a: Action, id: string)
    requires BooksInv(fold, b) && CanAct(b.sys, a) && Disciplined(b.sys, a)
    requires a.Step? ==> Subject(b.sys.calls[a.cid].op, a.newId) != id
    ensures Tracks(Booked(fold, b, a), id)
  {
    assert Tracks(b, id);
    if BeingRemoved(b.sys, id) {
      RemovalPersists(fold, b, a, id);
    } else {
      OtherEntriesStay(fold, b.sys, a, id);
      OtherLinesBooked(fold, b, a, id);
    }
  }

  lemma OtherLinesBooked(fold: CaseFold, b: Books, a: Action, id: string)
    requires CanAct(b.sys, a) && (a.Step? ==> Subject(b.sys.calls[a.cid].op, a.newId) != id)
    ensures LedgerOf(Booked(fold, b, a).ledger, id) == LedgerOf(b.ledger, id)
    ensures b.torn <= Booked(fold, b, a).torn
  {
    var b' := Booked(fold, b, a);
    if a.Step? && b'.sys.calls[a.cid].pc.Done? {
      OtherLinesStay(b.ledger, b.sys.calls[a.cid].op, b'.sys.calls[a.cid].pc.result, a.newId, id);
    }
  }

  /** A user that some delete is removing has no other call in flight. */
  lemma NotBeingRemoved(fold: CaseFold, b: Books, a: Action)
    requires BooksInv(fold, b) && CanAct(b.sys, a) && a.Step? && !Unconfirmed(b.sys.calls[a.cid])
    requires b.sys.calls[a.cid].op.CreateAccount? ==> a.newId !in b.sys.world.issued
    ensures !BeingRemoved(b.sys, Subject(b.sys.calls[a.cid].op, a.newId))
  {
    var c := b.sys.calls[a.cid];
    forall cid | cid in b.sys.calls && Unconfirmed(b.sys.calls[cid])
      ensures Subject(b.sys.calls[cid].op, "") != Subject(c.op, a.newId)
    {
      assert InStep(b.sys, b.sys.calls[cid]) && WellPlaced(b.sys.calls[cid]);
      assert !SameUser(c.op, b.sys.calls[cid].op);
    }
  }

  lemma OwnLine(fold: CaseFold, b: Books, a: Action)
    requires BooksInv(fold, b) && CanAct(b.sys, a) && a.Step?
    requires b.sys.calls[a.cid].op.CreateAccount? ==> a.newId !in b.sys.world.issued
    requires Subject(b.sys.calls[a.cid].op, a.newId) !in b.torn
    ensures var c := b.sys.calls[a.cid];
            var (st', pc') := Moved(fold, b.sys.cache, b.sys.world, c, a.net, a.newId);
            LineFollows(b.sys.world, c, b.ledger, Subject(c.op, a.newId), st', pc')
  {
    var c := b.sys.calls[a.cid];
    assert WellPlaced(c) && InStep(b.sys, c);
    assert Tracks(b, Subject(c.op, a.newId));
    if !Unconfirmed(c) { NotBeingRemoved(fold, b, a); }
    match c.op
    case Grant(_, _) => GrantLine(fold, b.sys.cache, b.sys.world, c, a.net, a.newId, b.ledger);
    case Revoke(_, _) => RevokeLine(fold, b.sys.cache, b.sys.world, c, a.net, a.newId, b.ledger);
    case DeleteAccount(_) => DeleteLine(fold, b.sys.cache, b.sys.world, c, a.net, a.newId, b.ledger);
    case CreateAccount(_) => CreateLine(fold, b.sys.cache, b.sys.world, c, a.net, a.newId, b.ledger);
  }

  lemma OwnLineTracks(fold: CaseFold, b: Books, a: Action)
    requires BooksInv(fold, b) && CanAct(b.sys, a) && a.Step?
    requires b.sys.calls[a.cid].op.CreateAccount? ==> a.newId !in b.sys.world.issued
    ensures Tracks(Booked(fold, b, a), Subject(b.sys.calls[a.cid].op, a.newId))
  {
    var c := b.sys.calls[a.cid];
    var b' := Booked(fold, b, a);
    var id := Subject(c.op, a.newId);
    if id !in b.torn {
      OwnLine(fold, b, a);
      var (st', pc') := Moved(fold, b.sys.cache, b.sys.world, c, a.net, a.newId);
      assert b'.sys.calls[a.cid].pc == pc' && b'.sys.world.store == st';
      if Unconfirmed(b'.sys.calls[a.cid]) {
        assert WellPlaced(b'.sys.calls[a.cid]) by { NextIsWellPlaced(fold, b.sys.cache, b.sys.world.store, c, a.net, a.newId); }
        assert BeingRemoved(b'.sys, id);
      }
    }
  }

  /** A create that sends nothing, because data is missing or the request is refused, changes nothing. */
  lemma IdleCreateTracks(fold: CaseFold, b: Books, a: Action, id: string)
    requires BooksInv(fold, b) && CanAct(b.sys, a) && a.Step? && b.sys.calls[a.cid].op.CreateAccount?
    requires a.newId in b.sys.world.issued
    ensures Tracks(Booked(fold, b, a), id)
  {
    var b' := Booked(fold, b, a);
    assert Tracks(b, id) && WellPlaced(b.sys.calls[a.cid]);
    assert b'.sys.world == b.sys.world && b'.ledger == b.ledger && b'.torn == b.torn;
    if BeingRemoved(b.sys, id) {
      var cid :| cid in b.sys.calls && Unconfirmed(b.sys.calls[cid]) && Subject(b.sys.calls[cid].op, "") == id;
      assert WellPlaced(b.sys.calls[cid]);
      assert b'.sys.calls[cid] == b.sys.calls[cid];
    }
  }

  lemma BookedKeepsInv(fold: CaseFold, b: Books, a: Action)
    requires BooksInv(fold, b) && CanAct(b.sys, a) && Disciplined(b.sys, a)
    ensures BooksInv(fold, Booked(fold, b, a))
  {
    ActKeepsSound(fold, b.sys, a);
    BookedKeepsExclusive(fold, b, a);
    BookedKeepsInStep(fold, b, a);
    forall id ensures Tracks(Booked(fold, b, a), id) {
      if a.Step? && b.sys.calls[a.cid].op.CreateAccount? && a.newId in b.sys.world.issued {
        IdleCreateTracks(fold, b, a, id);
      } else if a.Step? && Subject(b.sys.calls[a.cid].op, a.newId) == id {
        OwnLineTracks(fold, b, a);
      } else {
        OtherLineTracks(fold, b, a, id);
      }
    }
  }

  // ---------- Runs ----------

  /** No answer to a write is lost, the confirming read of a delete is answered, and a delete begins
      only when nothing is cached of the user. */
  ghost predicate Gentle(s: Sys, a: Action)
    requires CanAct(s, a)
  {
    && (a.Step? ==> a.net != Lost && (s.calls[a.cid].pc == Removed ==> a.net == Answered))
    && (a.Begin? && a.op.DeleteAccount? ==> Lookup(s.cache, CacheKey(a.op.userId)).None?)
  }

  datatype Rules = Anything | NoOverlap | FreshReads | FreshReadsNoLoss

  ghost predicate Allowed(rules: Rules, s: Sys, a: Action) {
    && CanAct(s, a)
    && (rules != Anything ==> Serial(s, a))
    && (rules.FreshReads? || rules.FreshReadsNoLoss? ==> Disciplined(s, a))
    && (rules.FreshReadsNoLoss? ==> Gentle(s, a))
  }

  ghost predicate Follows(fold: CaseFold, rules: Rules, trail: seq<Books>, acts: seq<Action>, i: nat)
    requires i < |acts| && i + 1 < |trail|
  {
    Allowed(rules, trail[i].sys, acts[i]) && trail[i + 1] == Booked(fold, trail[i], acts[i])
  }

  ghost predicate IsTrail(fold: CaseFold, rules: Rules, trail: seq<Books>, acts: seq<Action>) {
    |trail| == |acts| + 1 && forall i :: 0 <= i < |acts| ==> Follows(fold, rules, trail, acts, i)
  }

  /** The actions, taken in this order under these rules, lead from one state to the other. */
  ghost predicate Leads(fold: CaseFold, rules: Rules, from: Books, acts: seq<Action>, to: Books) {
    exists trail :: IsTrail(fold, rules, trail, acts) && trail[0] == from && trail[|acts|] == to
  }

  lemma LeadsOn(fold: CaseFold, rules: Rules, a: Books, xs: seq<Action>, b: Books, ys: seq<Action>, c: Books)
    requires Leads(fold, rules, a, xs, b) && Leads(fold, rules, b, ys, c)
    ensures Leads(fold, rules, a, xs + ys, c)
  {
    var first :| IsTrail(fold, rules, first, xs) && first[0] == a && first[|xs|] == b;
    var next :| IsTrail(fold, rules, next, ys) && next[0] == b && next[|ys|] == c;
    TrailsJoin(fold, rules, first, xs, next, ys);
  }

  lemma TrailsJoin(fold: CaseFold, rules: Rules, first: seq<Books>, xs: seq<Action>, next: seq<Books>, ys: seq<Action>)
    requires IsTrail(fold, rules, first, xs) && IsTrail(fold, rules, next, ys) && first[|xs|] == next[0]
    ensures IsTrail(fold, rules, first + next[1..], xs + ys)
  {
    var trail, acts := first + next[1..], xs + ys;
    forall i | 0 <= i < |acts| ensures Follows(fold, rules, trail, acts, i) {
      if i < |xs| {
        assert acts[i] == xs[i] && trail[i] == first[i] && trail[i + 1] == first[i + 1];
        assert Follows(fold, rules, first, xs, i);
      } else {
        var j := i - |xs|;
        assert acts[i] == ys[j] && trail[i] == next[j] && trail[i + 1] == next[j + 1];
        assert Follows(fold, rules, next, ys, j);
      }
    }
  }

  lemma LeadsOne(fold: CaseFold, rules: Rules, a: Books, x: Action)
    requires Allowed(rules, a.sys, x)
    ensures Leads(fold, rules, a, [x], Booked(fold, a, x))
  {
    assert IsTrail(fold, rules, [a, Booked(fold, a, x)], [x]);
  }

  /** No call in flight, and the ledger is what a full scan emits. */
  ghost predicate Opening(fold: CaseFold, b: Books) {
    && Sound(fold, b.sys) && b.sys.calls == map[]
    && b.ledger == FullScan(b.sys.world.store) && b.torn == {}
  }

  ghost predicate Quiescent(s: Sys) {
    forall cid :: cid in s.calls ==> !Active(s.calls[cid])
  }

  /** A caller that has just scanned a freshly seeded server can open its books. */
  lemma SeedOpens(fold: CaseFold, cache: UserCache)
    requires cache == Noop || cache == Memory(map[])
    ensures Opening(fold, Books(Sys(SeedWorld(), map[], cache), FullScan(Seed()), {}))
  {
    SeedSatisfiesInv(fold);
  }

  lemma OpeningSatisfiesInv(fold: CaseFold, b: Books)
    requires Opening(fold, b)
    ensures BooksInv(fold, b)
  {
    forall id ensures LedgerOf(b.ledger, id) == ScanOf(b.sys.world.store, id) { ScanLine(b.sys.world.store, id); }
  }

  lemma ScanLine(st: StoreState, id: string)
    requires KeysAreIds(st)
    ensures LedgerOf(FullScan(st), id) == ScanOf(st, id)
  {
  }

  /** Nothing is cached of the user a delete in flight is about, and its confirming read did not hit. */
  predicate DeleteCold(s: Sys, c: Call) {
    Active(c) && c.op.DeleteAccount? ==>
      Lookup(s.cache, CacheKey(c.op.userId)).None? && (c.pc.Reading? ==> c.pc.reply.status == NotFound)
  }

  ghost predicate DeletesCold(s: Sys) {
    forall cid :: cid in s.calls ==> DeleteCold(s, s.calls[cid])
  }

  lemma DeletesStayCold(fold: CaseFold, b: Books, a: Action)
    requires BooksInv(fold, b) && CanAct(b.sys, a) && Gentle(b.sys, a) && DeletesCold(b.sys)
    ensures DeletesCold(Booked(fold, b, a).sys)
  {
    var s, s' := b.sys, Booked(fold, b, a).sys;
    forall cid | cid in s'.calls ensures DeleteCold(s', s'.calls[cid]) {
      if cid in s.calls && Active(s'.calls[cid]) && s'.calls[cid].op.DeleteAccount? {
        DeleteStaysCold(fold, b, a, cid);
      }
    }
  }

  lemma DeleteStaysCold(fold: CaseFold, b: Books, a: Action, cid: nat)
    requires BooksInv(fold, b) && CanAct(b.sys, a) && DeletesCold(b.sys)
    requires cid in b.sys.calls && b.sys.calls[cid].op.DeleteAccount? && Active(Act(fold, b.sys, a).calls[cid])
    ensures DeleteCold(Act(fold, b.sys, a), Act(fold, b.sys, a).calls[cid])
  {
    var s := b.sys;
    assert DeleteCold(s, s.calls[cid]) && Active(s.calls[cid]);
    if Owns(s, a, cid) {
      assert InStep(s, s.calls[cid]);
    } else {
      assert a.Step? ==> Active(s.calls[a.cid]) && !SameUser(s.calls[a.cid].op, s.calls[cid].op);
      OthersKeepStill(fold, s, a, cid);
      EntryStays(fold, s, a, s.calls[cid].op.userId);
    }
  }

  ghost predicate Kept(fold: CaseFold, rules: Rules, torn: set<string>, b: Books) {
    BooksInv(fold, b) && (rules.FreshReadsNoLoss? ==> b.torn == torn && DeletesCold(b.sys))
  }

  lemma StepKeepsBooks(fold: CaseFold, rules: Rules, torn: set<string>, b: Books, a: Action)
    requires Kept(fold, rules, torn, b) && Allowed(rules, b.sys, a)
    requires rules.FreshReads? || rules.FreshReadsNoLoss?
    ensures Kept(fold, rules, torn, Booked(fold, b, a))
  {
    BookedKeepsInv(fold, b, a);
    if rules.FreshReadsNoLoss? {
      GentleDoesNotTear(fold, b, a);
      DeletesStayCold(fold, b, a);
    }
  }

  lemma TrailStepKeeps(fold: CaseFold, rules: Rules, torn: set<string>, trail: seq<Books>, acts: seq<Action>, i: nat)
    requires IsTrail(fold, rules, trail, acts) && i < |acts| && Kept(fold, rules, torn, trail[i])
    requires rules.FreshReads? || rules.FreshReadsNoLoss?
    ensures Kept(fold, rules, torn, trail[i + 1])
  {
    var b, a := trail[i], acts[i];
    assert Follows(fold, rules, trail, acts, i);
    StepKeepsBooks(fold, rules, torn, b, a);
  }

  lemma {:induction false} TrailKeepsBooks(fold: CaseFold, rules: Rules, torn: set<string>,
                                           trail: seq<Books>, acts: seq<Action>, i: nat)
    requires IsTrail(fold, rules, trail, acts) && i <= |acts| && Kept(fold, rules, torn, trail[i])
    requires rules.FreshReads? || rules.FreshReadsNoLoss?
    ensures Kept(fold, rules, torn, trail[|acts|])
    decreases |acts| - i
  {
    if i < |acts| {
      TrailStepKeeps(fold, rules, torn, trail, acts, i);
      TrailKeepsBooks(fold, rules, torn, trail, acts, i + 1);
    }
  }

  lemma GentleDoesNotTear(fold: CaseFold, b: Books, a: Action)
    requires BooksInv(fold, b) && CanAct(b.sys, a) && Gentle(b.sys, a) && DeletesCold(b.sys)
    ensures Booked(fold, b, a).torn == b.torn
  {
    if a.Step? {
      var c := b.sys.calls[a.cid];
      assert WellPlaced(c) && InStep(b.sys, c) && Active(c) && DeleteCold(b.sys, c);
    }
  }

  // ---------- Who is to blame for a torn user ----------

  /** Some account creation has returned this user. */
  ghost predicate Announced(s: Sys, id: string) {
    exists cid :: cid in s.calls && Announces(s.calls[cid], id)
  }

  predicate Announces(c: Call, id: string) {
    c.pc.Done? && c.pc.result.AccountCreated? && c.pc.result.user.id == id
  }

  /** Some call on this user returned an error. */
  ghost predicate FailedOn(s: Sys, id: string) {
    exists cid :: cid in s.calls && s.calls[cid].pc == Done(Failed) && About(s.calls[cid].op) == Some(id)
  }

  ghost predicate SomeCreateFailed(s: Sys) {
    exists cid :: cid in s.calls && s.calls[cid].pc == Done(Failed) && s.calls[cid].op.CreateAccount?
  }

  /** Some call on this user returned an error; or some account creation did, and the user, new since the
      outset, is none that an account creation has returned. */
  ghost predicate Blamed(s: Sys, atOutset: set<string>, id: string) {
    FailedOn(s, id) || (SomeCreateFailed(s) && id !in atOutset && !Announced(s, id))
  }

  /** Torn users are blamed; and an ID is given out before it is torn or announced. */
  ghost predicate BlameKept(b: Books, atOutset: set<string>) {
    && atOutset <= b.sys.world.issued
    && (forall id :: Announced(b.sys, id) ==> id in b.sys.world.issued)
    && (forall id :: id in b.torn ==> BlamedKnown(b.sys, atOutset, id))
  }

  ghost predicate BlamedKnown(s: Sys, atOutset: set<string>, id: string) {
    FailedOn(s, id) || (SomeCreateFailed(s) && id !in atOutset && id in s.world.issued && !Announced(s, id))
  }

  lemma FailuresStay(fold: CaseFold, s: Sys, a: Action, id: string)
    requires CanAct(s, a)
    ensures FailedOn(s, id) ==> FailedOn(Act(fold, s, a), id)
    ensures SomeCreateFailed(s) ==> SomeCreateFailed(Act(fold, s, a))
  {
    var s' := Act(fold, s, a);
    if FailedOn(s, id) {
      var cid :| cid in s.calls && s.calls[cid].pc == Done(Failed) && About(s.calls[cid].op) == Some(id);
      assert s'.calls[cid] == s.calls[cid];
    }
    if SomeCreateFailed(s) {
      var cid :| cid in s.calls && s.calls[cid].pc == Done(Failed) && s.calls[cid].op.CreateAccount?;
      assert s'.calls[cid] == s.calls[cid];
    }
  }

  /** What is announced by a step is an ID the step has drawn. */
  lemma AnnouncedStep(fold: CaseFold, s: Sys, a: Action, id: string)
    requires CanAct(s, a) && Announced(Act(fold, s, a), id)
    ensures Announced(s, id) || (id !in s.world.issued && id in Act(fold, s, a).world.issued)
    ensures a.Step? && Act(fold, s, a).calls[a.cid].pc == Done(Failed) ==> Announced(s, id)
  {
    var s' := Act(fold, s, a);
    var cid :| cid in s'.calls && Announces(s'.calls[cid], id);
    if cid in s.calls && s.calls[cid] == s'.calls[cid] {
      assert Announces(s.calls[cid], id);
    }
  }

  lemma TearIsBlamed(fold: CaseFold, b: Books, a: Action, atOutset: set<string>)
    requires CanAct(b.sys, a) && a.Step? && Tears(fold, b.sys, a) && BlameKept(b, atOutset)
    ensures BlamedKnown(Act(fold, b.sys, a), atOutset, Subject(b.sys.calls[a.cid].op, a.newId))
  {
    var s, s' := b.sys, Act(fold, b.sys, a);
    var id := Subject(s.calls[a.cid].op, a.newId);
    var c := s'.calls[a.cid];
    if c.op.CreateAccount? {
      assert Creates(s.calls[a.cid], a.net);
      assert SomeCreateFailed(s');
      if Announced(s', id) { AnnouncedStep(fold, s, a, id); }
    } else {
      assert About(c.op) == Some(id);
      assert FailedOn(s', id);
    }
  }

  lemma BookedKeepsBlame(fold: CaseFold, b: Books, a: Action, atOutset: set<string>)
    requires CanAct(b.sys, a) && BlameKept(b, atOutset)
    ensures BlameKept(Booked(fold, b, a), atOutset)
  {
    var s, b' := b.sys, Booked(fold, b, a);
    IssuedGrows(fold, s, a);
    forall id | Announced(b'.sys, id) ensures id in b'.sys.world.issued {
      AnnouncedStep(fold, s, a, id);
    }
    forall id | id in b'.torn ensures BlamedKnown(b'.sys, atOutset, id) {
      if id in b.torn {
        FailuresStay(fold, s, a, id);
        if Announced(b'.sys, id) { AnnouncedStep(fold, s, a, id); }
      } else {
        TearIsBlamed(fold, b, a, atOutset);
      }
    }
  }

  lemma {:induction false} TornIsBlamed(fold: CaseFold, rules: Rules, atOutset: set<string>,
                                        trail: seq<Books>, acts: seq<Action>, i: nat)
    requires IsTrail(fold, rules, trail, acts) && i <= |acts| && BlameKept(trail[i], atOutset)
    ensures BlameKept(trail[|acts|], atOutset)
    decreases |acts| - i
  {
    if i < |acts| {
      var b, a := trail[i], acts[i];
      assert Follows(fold, rules, trail, acts, i);
      BookedKeepsBlame(fold, b, a, atOutset);
      TornIsBlamed(fold, rules, atOutset, trail, acts, i + 1);
    }
  }

  lemma RunKeepsBooks(fold: CaseFold, rules: Rules, b: Books, acts: seq<Action>, end: Books)
    requires Opening(fold, b) && Leads(fold, rules, b, acts, end)
    requires rules.FreshReads? || rules.FreshReadsNoLoss?
    ensures BooksInv(fold, end)
    ensures forall id :: id in end.torn ==> Blamed(end.sys, b.sys.world.issued, id)
    ensures rules.FreshReadsNoLoss? ==> end.torn == {}
  {
    OpeningSatisfiesInv(fold, b);
    var trail :| IsTrail(fold, rules, trail, acts) && trail[0] == b && trail[|acts|] == end;
    TrailKeepsBooks(fold, rules, {}, trail, acts, 0);
    TornIsBlamed(fold, rules, b.sys.world.issued, trail, acts, 0);
  }

  // ---------- The ledger against a fresh scan ----------

  /** Ledger refinement. In every run, calls on different users interleaved in any way, messages refused
      or their answers lost, the cache dropping whatever it likes: whenever no call is in flight, the
      ledger says of every user that no error was returned about exactly what a scan of the store says. */
  lemma LedgerMatchesScan(fold: CaseFold, b: Books, acts: seq<Action>, end: Books, id: string)
    requires Opening(fold, b) && Leads(fold, FreshReads, b, acts, end)
    requires Quiescent(end.sys) && !Blamed(end.sys, b.sys.world.issued, id)
    ensures LedgerOf(end.ledger, id) == ScanOf(end.sys.world.store, id)
  {
    RunKeepsBooks(fold, FreshReads, b, acts, end);
    assert Tracks(end, id);
  }

  /** The step ends the call with an error although the store, since the call began, says something else of
      the user: a write is served and its answer lost, or a confirming read is not told that the user is
      gone. What is said here is what the step meets. */
  ghost predicate ErrsAfterWrite(fold: CaseFold, b: Books, a: Action)
    requires a.Step? && a.cid in b.sys.calls
  {
    var s, c := b.sys, b.sys.calls[a.cid];
    match c.op
    case Grant(p, _) => c.pc.Fetched? && a.net == Lost && p.id in s.world.store.users
    case Revoke(p, _) => c.pc.Fetched? && a.net == Lost && p.id in s.world.store.users
    case DeleteAccount(id) =>
      (match c.pc
       case Start => a.net == Lost && id in s.world.store.users && KnownRole(s.world.store.users[id].Role())
       case Removed =>
         a.net != Answered && Lookup(s.cache, CacheKey(id)).None? && LedgerOf(b.ledger, id) != {}
       case Reading(reply) => reply.status == OK && LedgerOf(b.ledger, id) != {}
       case _ => false)
    case CreateAccount(profile) =>
      var body := AccountRequest(profile);
      a.net == Lost && body.Some? && Refusal(fold, s.world.store, body).None?
  }

  /** When exactly the ledger is wrong about a user after a call on it has ended. */
  lemma LineAgreesExactlyWhen(fold: CaseFold, b: Books, a: Action)
    requires BooksInv(fold, b) && CanAct(b.sys, a) && a.Step?
    requires b.sys.calls[a.cid].op.CreateAccount? ==> a.newId !in b.sys.world.issued
    requires Subject(b.sys.calls[a.cid].op, a.newId) !in b.torn
    requires Booked(fold, b, a).sys.calls[a.cid].pc.Done?
    ensures var id := Subject(b.sys.calls[a.cid].op, a.newId);
            var b' := Booked(fold, b, a);
            LedgerOf(b'.ledger, id) == ScanOf(b'.sys.world.store, id) <==> !ErrsAfterWrite(fold, b, a)
  {
    var c := b.sys.calls[a.cid];
    var id := Subject(c.op, a.newId);
    assert WellPlaced(c) && InStep(b.sys, c) && Expects(b.sys, c) && Tracks(b, id);
    if !Unconfirmed(c) { NotBeingRemoved(fold, b, a); }
    EndsRight(fold, b, a);
    match c.op
    case Grant(_, _) => RoleErrs(fold, b.sys.cache, b.sys.world, c, a.net, a.newId);
    case Revoke(_, _) => RoleErrs(fold, b.sys.cache, b.sys.world, c, a.net, a.newId);
    case DeleteAccount(_) => DeleteErrs(fold, b.sys.cache, b.sys.world, c, a.net, a.newId);
    case CreateAccount(_) => CreateErrs(fold, b.sys.cache, b.sys.world, c, a.net, a.newId);
  }

  /** The step fails, and the store afterwards says something else of the user than the ledger did. */
  ghost predicate FailsOff(st': StoreState, pc': Pc, line: set<RoleGrant>, id: string) {
    pc' == Done(Failed) && ScanOf(st', id) != line
  }

  /** A call that ends keeps its user's line right unless it fails off. */
  lemma EndsRight(fold: CaseFold, b: Books, a: Action)
    requires BooksInv(fold, b) && CanAct(b.sys, a) && a.Step?
    requires b.sys.calls[a.cid].op.CreateAccount? ==> a.newId !in b.sys.world.issued
    requires Subject(b.sys.calls[a.cid].op, a.newId) !in b.torn
    requires Booked(fold, b, a).sys.calls[a.cid].pc.Done?
    ensures var c := b.sys.calls[a.cid];
            var id := Subject(c.op, a.newId);
            var b' := Booked(fold, b, a);
            var (st', pc') := Moved(fold, b.sys.cache, b.sys.world, c, a.net, a.newId);
            LedgerOf(b'.ledger, id) == ScanOf(b'.sys.world.store, id)
            <==> !FailsOff(st', pc', LedgerOf(b.ledger, id), id)
  {
    var c := b.sys.calls[a.cid];
    assert WellPlaced(c);
    OwnLine(fold, b, a);
    OwnLineLater(fold, b, a);
  }

  lemma OwnLineLater(fold: CaseFold, b: Books, a: Action)
    requires CanAct(b.sys, a) && a.Step? && WellPlaced(b.sys.calls[a.cid]) && Booked(fold, b, a).sys.calls[a.cid].pc.Done?
    ensures var c := b.sys.calls[a.cid];
            var (st', pc') := Moved(fold, b.sys.cache, b.sys.world, c, a.net, a.newId);
            && Booked(fold, b, a).sys.world.store == st' && Booked(fold, b, a).sys.calls[a.cid].pc == pc'
            && Booked(fold, b, a).ledger == Entered(b.ledger, c.op, pc'.result)
            && (pc' == Done(Failed) ==> Booked(fold, b, a).ledger == b.ledger)
  {
  }

  lemma RoleErrs(fold: CaseFold, cache: UserCache, w: World, c: Call, net: Net, newId: string)
    requires UsersFiled(w) && WellPlaced(c) && (c.op.Grant? || c.op.Revoke?) && !c.pc.Done?
    requires c.pc.Fetched? ==> Entry(w.store, c.op.principal.id) == Some(c.pc.current)
    ensures var (st', pc') := Moved(fold, cache, w, c, net, newId);
            var id := c.op.principal.id;
            FailsOff(st', pc', ScanOf(w.store, id), id) <==> c.pc.Fetched? && net == Lost && id in w.store.users
  {
    if c.pc.Fetched? && net == Lost {
      RoleWritten(w, c.op.principal.id, if c.op.Grant? then c.op.role else DEFAULT_REVOKED_ROLE);
    }
  }

  lemma DeleteErrs(fold: CaseFold, cache: UserCache, w: World, c: Call, net: Net, newId: string)
    requires UsersFiled(w) && WellPlaced(c) && c.op.DeleteAccount? && !c.pc.Done?
    ensures var (st', pc') := Moved(fold, cache, w, c, net, newId);
            var id := c.op.userId;
            match c.pc
            case Start =>
              FailsOff(st', pc', ScanOf(w.store, id), id)
              <==> net == Lost && id in w.store.users && KnownRole(w.store.users[id].Role())
            case Removed =>
              id !in w.store.users ==> forall line ::
                FailsOff(st', pc', line, id) <==> net != Answered && Lookup(cache, CacheKey(id)).None? && line != {}
            case Reading(reply) =>
              id !in w.store.users ==> forall line :: FailsOff(st', pc', line, id) <==> reply.status != NotFound && line != {}
            case _ => true
  {
  }

  lemma CreateErrs(fold: CaseFold, cache: UserCache, w: World, c: Call, net: Net, newId: string)
    requires UsersFiled(w) && WellPlaced(c) && c.op.CreateAccount? && !c.pc.Done? && newId !in w.issued
    ensures var (st', pc') := Moved(fold, cache, w, c, net, newId);
            var body := AccountRequest(c.op.profile);
            FailsOff(st', pc', ScanOf(w.store, newId), newId)
            <==> net == Lost && body.Some? && Refusal(fold, w.store, body).None?
  {
    if Creates(c, net) {
      var st' := CreateUser(fold, w.store, AccountRequest(c.op.profile), newId).0;
      assert newId !in w.store.users;
      if newId in st'.users { assert RoleGrant(newId, MEMBER) in ScanOf(st', newId); }
    }
  }

  lemma ScanFromLines(st: StoreState, ledger: set<RoleGrant>)
    requires KeysAreIds(st) && forall id :: LedgerOf(ledger, id) == ScanOf(st, id)
    ensures ledger == FullScan(st)
  {
    forall g ensures g in ledger <==> g in FullScan(st) {
      ScanLine(st, g.user);
      assert g in LedgerOf(ledger, g.user) <==> g in ScanOf(st, g.user);
      assert g in LedgerOf(FullScan(st), g.user) <==> g in FullScan(st);
    }
  }

  /** If moreover no answer to a write was lost and no delete began on a cached user, the ledger as a
      whole is the full scan; and it is what a paged sync of the store emits, unless that leaves out
      a last user with a grant. */
  lemma LedgerIsFullScan(fold: CaseFold, b: Books, acts: seq<Action>, end: Books)
    requires Opening(fold, b) && Leads(fold, FreshReadsNoLoss, b, acts, end) && Quiescent(end.sys)
    ensures end.ledger == FullScan(end.sys.world.store)
    ensures end.ledger == SyncedGrants(end.sys.world.store) <==> !SyncFallsShort(end.sys.world.store)
  {
    RunKeepsBooks(fold, FreshReadsNoLoss, b, acts, end);
    forall id ensures LedgerOf(end.ledger, id) == ScanOf(end.sys.world.store, id) {
      assert Tracks(end, id);
    }
    ScanFromLines(end.sys.world.store, end.ledger);
    SyncIsScan(end.sys.world.store);
  }

  /** The paged sync falls short of a full scan when it leaves out a user that has a grant. */
  ghost predicate SyncFallsShort(st: StoreState) {
    exists id :: id in st.users && Missed(st.users.Keys, id) && KnownRole(st.users[id].Role())
  }

  lemma SyncIsScan(st: StoreState)
    requires KeysAreIds(st)
    ensures SyncedGrants(st) == FullScan(st) <==> !SyncFallsShort(st)
  {
    forall g ensures g in SyncedGrants(st) <==> g in FullScan(st) && !Missed(st.users.Keys, g.user) {
      SyncEmits(st, g);
    }
    if SyncFallsShort(st) {
      var id :| id in st.users && Missed(st.users.Keys, id) && KnownRole(st.users[id].Role());
      assert RoleGrant(id, st.users[id].Role()) in GrantsOf(st.users[id]);
      assert RoleGrant(id, st.users[id].Role()) in FullScan(st);
    }
  }
}
