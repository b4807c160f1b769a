/** What the conditions of the ledger and of the sync are for: runs in which one of them does not hold,
    and what exactly a stale read does. */
module Divergence {
  import opened Text
  import opened Sorting
  import opened Domain
  import opened Store
  import opened Roles
  import opened Paging
  import opened Coverage
  import opened Caching
  import opened Client
  import opened Connector
  import opened Sync
  import opened Protocol
  import opened Provisioning
  import opened Ledger

  // ---------- Building blocks ----------

  function GrantOf(id: string, role: string): Op { Op.Grant(Principal("user", id), role) }

  /** Every message of the run is answered. */
  predicate AllAnswered(acts: seq<Action>) {
    forall i :: 0 <= i < |acts| && acts[i].Step? ==> acts[i].net == Answered
  }

  lemma AnsweredJoin(xs: seq<Action>, ys: seq<Action>)
    ensures AllAnswered(xs) && AllAnswered(ys) ==> AllAnswered(xs + ys)
  {
  }

  lemma OneAnswered(x: Action)
    ensures (x.Step? ==> x.net == Answered) ==> AllAnswered([x])
  {
  }

  function Begun(b: Books, cid: nat, op: Op): Books {
    b.(sys := b.sys.(calls := b.sys.calls[cid := Call(op, Start)]))
  }

  lemma BeginLeads(fold: CaseFold, rules: Rules, b: Books, cid: nat, op: Op)
    requires Allowed(rules, b.sys, Begin(cid, op))
    ensures Leads(fold, rules, b, [Begin(cid, op)], Begun(b, cid, op))
  {
    assert Booked(fold, b, Begin(cid, op)) == Begun(b, cid, op);
    LeadsOne(fold, rules, b, Begin(cid, op));
  }

  lemma StepLeads(fold: CaseFold, rules: Rules, b: Books, cid: nat)
    requires cid in b.sys.calls && !b.sys.calls[cid].pc.Done? && !b.sys.calls[cid].op.CreateAccount?
    ensures CanAct(b.sys, Step(cid, Answered, ""))
    ensures Leads(fold, rules, b, [Step(cid, Answered, "")], Booked(fold, b, Step(cid, Answered, "")))
  {
    StepIsAllowed(rules, b.sys, cid);
    LeadsOne(fold, rules, b, Step(cid, Answered, ""));
  }

  /** Begin a call and let it take a step. */
  lemma BeginAndStep(fold: CaseFold, rules: Rules, b: Books, cid: nat, op: Op)
    returns (acts: seq<Action>, b': Books)
    requires Allowed(rules, b.sys, Begin(cid, op)) && !op.CreateAccount?
    ensures Leads(fold, rules, b, acts, b') && AllAnswered(acts)
    ensures CanAct(Begun(b, cid, op).sys, Step(cid, Answered, ""))
    ensures b' == Booked(fold, Begun(b, cid, op), Step(cid, Answered, ""))
  {
    var b1 := Begun(b, cid, op);
    BeginLeads(fold, rules, b, cid, op);
    StepLeads(fold, rules, b1, cid);
    b' := Booked(fold, b1, Step(cid, Answered, ""));
    acts := TwoActions(fold, rules, b, cid, op, b1, b');
  }

  lemma TwoActions(fold: CaseFold, rules: Rules, a: Books, cid: nat, op: Op, b: Books, c: Books)
    returns (acts: seq<Action>)
    requires Leads(fold, rules, a, [Begin(cid, op)], b) && Leads(fold, rules, b, [Step(cid, Answered, "")], c)
    ensures Leads(fold, rules, a, acts, c) && AllAnswered(acts)
  {
    LeadsOn(fold, rules, a, [Begin(cid, op)], b, [Step(cid, Answered, "")], c);
    acts := [Begin(cid, op)] + [Step(cid, Answered, "")];
    OneAnswered(Begin(cid, op));
    OneAnswered(Step(cid, Answered, ""));
    AnsweredJoin([Begin(cid, op)], [Step(cid, Answered, "")]);
  }

  lemma StepIsAllowed(rules: Rules, s: Sys, cid: nat)
    requires cid in s.calls && !s.calls[cid].pc.Done? && !s.calls[cid].op.CreateAccount?
    ensures Allowed(rules, s, Step(cid, Answered, ""))
  {
  }

  /** With no call in flight any call may begin; a grant that minds the cache, if what is cached of its
      user is true. */
  lemma RestIsAllowed(s: Sys, cid: nat, op: Op)
    requires Quiescent(s) && cid !in s.calls
    ensures Allowed(Anything, s, Begin(cid, op)) && Allowed(NoOverlap, s, Begin(cid, op))
    ensures op.Grant? && Current(s.cache, s.world.store, op.principal.id) ==> Allowed(FreshReads, s, Begin(cid, op))
    ensures op.DeleteAccount? ==> Allowed(FreshReads, s, Begin(cid, op))
  {
  }

  /** Where a run ends after two parts, or three. */
  lemma TwoParts(fold: CaseFold, rules: Rules, a: Books, xs: seq<Action>, b: Books, ys: seq<Action>, c: Books)
    requires Leads(fold, rules, a, xs, b) && Leads(fold, rules, b, ys, c)
    ensures Leads(fold, rules, a, xs + ys, c)
    ensures AllAnswered(xs) && AllAnswered(ys) ==> AllAnswered(xs + ys)
  {
    LeadsOn(fold, rules, a, xs, b, ys, c);
    AnsweredJoin(xs, ys);
  }

  /** A grant up to the moment at which it learns of the user. */
  lemma GrantBegins(fold: CaseFold, rules: Rules, b: Books, cid: nat, id: string, role: string, seen: User)
    returns (acts: seq<Action>, b': Books)
    requires Allowed(rules, b.sys, Begin(cid, GrantOf(id, role))) && KnownRole(role)
    requires ReadUser(b.sys.cache, b.sys.world.store, id, Answered) == Some(UserReply(OK, Some(seen)))
    ensures Leads(fold, rules, b, acts, b') && AllAnswered(acts)
    ensures b' == b.(sys := b.sys.(calls := b.sys.calls[cid := Call(GrantOf(id, role), Reading(UserReply(OK, Some(seen))))]))
  {
    SupportedIsKnown(role);
    acts, b' := BeginAndStep(fold, rules, b, cid, GrantOf(id, role));
    assert b'.sys.calls == b.sys.calls[cid := b'.sys.calls[cid]];
  }

  /** The step at which it does. */
  lemma GrantLearns(fold: CaseFold, b: Books, cid: nat, id: string, role: string, seen: User)
    requires KnownRole(role) && cid in b.sys.calls
    requires b.sys.calls[cid] == Call(GrantOf(id, role), Reading(UserReply(OK, Some(seen))))
    ensures CanAct(b.sys, Step(cid, Answered, ""))
    ensures var pc := GrantStart(role, UserReply(OK, Some(seen)));
            Booked(fold, b, Step(cid, Answered, ""))
            == Books(Sys(b.sys.world, b.sys.calls[cid := Call(GrantOf(id, role), pc)], Stored(b.sys.cache, CacheKey(id), seen)),
                     if pc.Done? then Entered(b.ledger, GrantOf(id, role), pc.result) else b.ledger, b.torn)
  {
  }

  lemma GrantLearnsLeads(fold: CaseFold, rules: Rules, b: Books, cid: nat, id: string, role: string, seen: User)
    returns (b': Books)
    requires KnownRole(role) && cid in b.sys.calls
    requires b.sys.calls[cid] == Call(GrantOf(id, role), Reading(UserReply(OK, Some(seen))))
    ensures Leads(fold, rules, b, [Step(cid, Answered, "")], b')
    ensures var pc := GrantStart(role, UserReply(OK, Some(seen)));
            b' == Books(Sys(b.sys.world, b.sys.calls[cid := Call(GrantOf(id, role), pc)],
                            Stored(b.sys.cache, CacheKey(id), seen)),
                        if pc.Done? then Entered(b.ledger, GrantOf(id, role), pc.result) else b.ledger, b.torn)
  {
    GrantLearns(fold, b, cid, id, role, seen);
    StepLeads(fold, rules, b, cid);
    b' := Booked(fold, b, Step(cid, Answered, ""));
  }

  /** A grant that sees another role, up to its write, or one that sees the role in place. */
  lemma GrantReads(fold: CaseFold, rules: Rules, b: Books, cid: nat, id: string, role: string, seen: User)
    returns (acts: seq<Action>, b': Books)
    requires Allowed(rules, b.sys, Begin(cid, GrantOf(id, role))) && KnownRole(role)
    requires ReadUser(b.sys.cache, b.sys.world.store, id, Answered) == Some(UserReply(OK, Some(seen)))
    ensures Leads(fold, rules, b, acts, b') && AllAnswered(acts)
    ensures var pc := GrantStart(role, UserReply(OK, Some(seen)));
            b' == Books(Sys(b.sys.world, b.sys.calls[cid := Call(GrantOf(id, role), pc)],
                            Stored(b.sys.cache, CacheKey(id), seen)),
                        if pc.Done? then Entered(b.ledger, GrantOf(id, role), pc.result) else b.ledger, b.torn)
  {
    var xs, b1 := GrantBegins(fold, rules, b, cid, id, role, seen);
    b' := GrantLearnsLeads(fold, rules, b1, cid, id, role, seen);
    OneAnswered(Step(cid, Answered, ""));
    TwoParts(fold, rules, b, xs, b1, [Step(cid, Answered, "")], b');
    acts := xs + [Step(cid, Answered, "")];
    assert b1.sys.calls[cid := b'.sys.calls[cid]] == b.sys.calls[cid := b'.sys.calls[cid]];
  }

  /** The write of a grant: what it leaves of the user and of the ledger. */
  lemma GrantWrites(fold: CaseFold, rules: Rules, b: Books, cid: nat, id: string, role: string, seen: User, net: Net)
    returns (acts: seq<Action>, b': Books)
    requires cid in b.sys.calls && id in b.sys.world.store.users
    requires net == Answered || (net == Lost && !rules.FreshReadsNoLoss?)
    requires b.sys.calls[cid] == Call(GrantOf(id, role), Fetched(seen))
    requires KnownRole(role) && KnownRole(seen.Role())
    ensures |acts| == 1 && Leads(fold, rules, b, acts, b') && (net == Answered ==> AllAnswered(acts))
    ensures b'.sys.world == b.sys.world.(store := WithRole(b.sys.world.store, id, role)) && b'.sys.cache == b.sys.cache
    ensures var result := if net == Answered then GrantReplaced(seen.Role()) else Failed;
            && b'.sys.calls == b.sys.calls[cid := Call(GrantOf(id, role), Done(result))]
            && b'.ledger == Entered(b.ledger, GrantOf(id, role), result)
  {
    SupportedIsKnown(seen.Role());
    acts, b' := [Step(cid, net, "")], Booked(fold, b, Step(cid, net, ""));
    LeadsOne(fold, rules, b, Step(cid, net, ""));
  }

  lemma WriteIsHeld(st: StoreState, id: string, role: string)
    requires KeysAreIds(st) && id in st.users && KnownRole(role)
    ensures var st' := WithRole(st, id, role);
            KeysAreIds(st') && ScanOf(st', id) == {RoleGrant(id, role)} && st'.users[id].Role() == role
  {
    assert WithRole(st, id, role).users[id].id == id;
  }

  /** One user on whom ledger and store disagree is enough. */
  lemma WrongLine(st: StoreState, ledger: set<RoleGrant>, id: string)
    requires KeysAreIds(st) && LedgerOf(ledger, id) != ScanOf(st, id)
    ensures ledger != FullScan(st)
  {
    ScanLine(st, id);
  }

  /** The ledger line of a user with a known role at the outset. */
  lemma OpeningLine(fold: CaseFold, b: Books, id: string)
    requires Opening(fold, b) && id in b.sys.world.store.users && KnownRole(b.sys.world.store.users[id].Role())
    ensures LedgerOf(b.ledger, id) == {RoleGrant(id, b.sys.world.store.users[id].Role())}
  {
    ScanLine(b.sys.world.store, id);
  }

  // ---------- Lost answers, and confirmations that fail ----------

  lemma LostAnswerRun(fold: CaseFold, b: Books, id: string, role: string, u: User)
    returns (acts: seq<Action>, end: Books)
    requires b.sys.calls == map[] && Entry(b.sys.world.store, id) == Some(u) && Lookup(b.sys.cache, CacheKey(id)).None?
    requires KnownRole(u.Role()) && KnownRole(role) && role != u.Role()
    ensures Leads(fold, FreshReads, b, acts, end) && Quiescent(end.sys)
    ensures end.ledger == b.ledger && end.sys.world.store == WithRole(b.sys.world.store, id, role)
  {
    RestIsAllowed(b.sys, 0, GrantOf(id, role));
    var xs, b2 := GrantReads(fold, FreshReads, b, 0, id, role, u);
    var ys;
    ys, end := GrantWrites(fold, FreshReads, b2, 0, id, role, u, Lost);
    TwoParts(fold, FreshReads, b, xs, b2, ys, end);
    acts := xs + ys;
  }

  /** A lost answer tears: for every user with a known role, a grant whose write goes through unanswered
      leaves a ledger that is not the scan, in a run that keeps every other condition. */
  lemma LostAnswerDiverges(fold: CaseFold, b: Books, id: string, role: string)
    returns (acts: seq<Action>, end: Books)
    requires Opening(fold, b) && id in b.sys.world.store.users && Lookup(b.sys.cache, CacheKey(id)).None?
    requires KnownRole(b.sys.world.store.users[id].Role())
    requires KnownRole(role) && role != b.sys.world.store.users[id].Role()
    ensures Leads(fold, FreshReads, b, acts, end) && Quiescent(end.sys)
    ensures end.ledger != FullScan(end.sys.world.store)
  {
    acts, end := LostAnswerRun(fold, b, id, role, b.sys.world.store.users[id]);
    WriteIsHeld(b.sys.world.store, id, role);
    OpeningLine(fold, b, id);
    assert RoleGrant(id, b.sys.world.store.users[id].Role()) in LedgerOf(end.ledger, id);
    WrongLine(end.sys.world.store, end.ledger, id);
  }

  /** A delete, up to its confirming read. */
  lemma DeleteHappens(fold: CaseFold, b: Books, cid: nat, id: string) returns (acts: seq<Action>, b': Books)
    requires Allowed(FreshReads, b.sys, Begin(cid, DeleteAccount(id))) && id in b.sys.world.store.users
    ensures Leads(fold, FreshReads, b, acts, b') && AllAnswered(acts)
    ensures b'.sys.calls == b.sys.calls[cid := Call(DeleteAccount(id), Removed)] && b'.ledger == b.ledger
    ensures b'.sys.cache == b.sys.cache
    ensures b'.sys.world.store == DeleteUser(b.sys.world.store, id).0
  {
    acts, b' := BeginAndStep(fold, FreshReads, b, cid, DeleteAccount(id));
    assert b'.sys.calls == b.sys.calls[cid := b'.sys.calls[cid]];
  }

  /** A confirming read that is not answered: the delete has happened and the call reports an error. */
  lemma ConfirmationRefused(fold: CaseFold, b: Books, cid: nat, id: string)
    returns (acts: seq<Action>, end: Books)
    requires cid in b.sys.calls && b.sys.calls[cid] == Call(DeleteAccount(id), Removed)
    requires Lookup(b.sys.cache, CacheKey(id)).None?
    ensures Leads(fold, FreshReads, b, acts, end)
    ensures end.sys.calls == b.sys.calls[cid := Call(DeleteAccount(id), Done(Failed))]
    ensures end.sys.world == b.sys.world && end.ledger == b.ledger
  {
    acts, end := [Step(cid, Refused, "")], Booked(fold, b, Step(cid, Refused, ""));
    LeadsOne(fold, FreshReads, b, Step(cid, Refused, ""));
  }

  /** One that hits the cache, and comes in. */
  lemma ConfirmationHits(fold: CaseFold, b: Books, cid: nat, id: string, u: User)
    returns (acts: seq<Action>, end: Books)
    requires cid in b.sys.calls && b.sys.calls[cid] == Call(DeleteAccount(id), Removed)
    requires Lookup(b.sys.cache, CacheKey(id)) == Some(u)
    ensures Leads(fold, FreshReads, b, acts, end) && AllAnswered(acts)
    ensures end.sys.calls == b.sys.calls[cid := Call(DeleteAccount(id), Done(Failed))]
    ensures end.sys.world == b.sys.world && end.ledger == b.ledger
  {
    var step := Step(cid, Answered, "");
    StepLeads(fold, FreshReads, b, cid);
    var b1 := Booked(fold, b, step);
    assert b1.sys.calls == b.sys.calls[cid := Call(DeleteAccount(id), Reading(UserReply(OK, Some(u))))];
    end := SecondStep(fold, b1, cid, id, u);
    OneAnswered(step);
    TwoParts(fold, FreshReads, b, [step], b1, [step], end);
    acts := [step] + [step];
    assert b1.sys.calls[cid := end.sys.calls[cid]] == b.sys.calls[cid := end.sys.calls[cid]];
  }

  lemma SecondStep(fold: CaseFold, b: Books, cid: nat, id: string, u: User) returns (end: Books)
    requires cid in b.sys.calls && b.sys.calls[cid] == Call(DeleteAccount(id), Reading(UserReply(OK, Some(u))))
    ensures Leads(fold, FreshReads, b, [Step(cid, Answered, "")], end)
    ensures end.sys.calls == b.sys.calls[cid := Call(DeleteAccount(id), Done(Failed))]
    ensures end.sys.world == b.sys.world && end.ledger == b.ledger
  {
    StepLeads(fold, FreshReads, b, cid);
    end := Booked(fold, b, Step(cid, Answered, ""));
  }

  /** The ledger then keeps the grant of a user that is gone. */
  lemma GoneButInLedger(fold: CaseFold, b: Books, id: string, ledger: set<RoleGrant>)
    requires b.ledger <= ledger
    requires Opening(fold, b) && id in b.sys.world.store.users && KnownRole(b.sys.world.store.users[id].Role())
    ensures var st' := DeleteUser(b.sys.world.store, id).0;
            id !in st'.users && ledger != FullScan(st')
  {
    var st' := DeleteUser(b.sys.world.store, id).0;
    var g := RoleGrant(id, b.sys.world.store.users[id].Role());
    OpeningLine(fold, b, id);
    assert g in LedgerOf(b.ledger, id);
    ScanLine(st', id);
    assert g in LedgerOf(ledger, id);
  }

  lemma FailedConfirmationRun(fold: CaseFold, b: Books, id: string)
    returns (acts: seq<Action>, end: Books)
    requires b.sys.calls == map[] && id in b.sys.world.store.users
    ensures Leads(fold, FreshReads, b, acts, end)
    ensures end.sys.calls == map[0 := Call(DeleteAccount(id), Done(Failed))]
    ensures end.sys.world.store == DeleteUser(b.sys.world.store, id).0 && end.ledger == b.ledger
  {
    RestIsAllowed(b.sys, 0, DeleteAccount(id));
    var xs, b2 := DeleteHappens(fold, b, 0, id);
    var ys;
    ys, end := ConfirmationFails(fold, b2, 0, id);
    TwoParts(fold, FreshReads, b, xs, b2, ys, end);
    acts := xs + ys;
  }

  lemma ConfirmationFails(fold: CaseFold, b: Books, cid: nat, id: string)
    returns (acts: seq<Action>, end: Books)
    requires cid in b.sys.calls && b.sys.calls[cid] == Call(DeleteAccount(id), Removed)
    ensures Leads(fold, FreshReads, b, acts, end)
    ensures end.sys.calls == b.sys.calls[cid := Call(DeleteAccount(id), Done(Failed))]
    ensures end.sys.world == b.sys.world && end.ledger == b.ledger
  {
    if Lookup(b.sys.cache, CacheKey(id)).None? {
      acts, end := ConfirmationRefused(fold, b, cid, id);
    } else {
      acts, end := ConfirmationHits(fold, b, cid, id, Lookup(b.sys.cache, CacheKey(id)).value);
    }
  }

  /** A confirming read without an answer. */
  lemma FailedConfirmationDiverges(fold: CaseFold, b: Books, id: string)
    returns (acts: seq<Action>, end: Books)
    requires Opening(fold, b) && id in b.sys.world.store.users && KnownRole(b.sys.world.store.users[id].Role())
    ensures Leads(fold, FreshReads, b, acts, end)
    ensures end.sys.calls == map[0 := Call(DeleteAccount(id), Done(Failed))]
    ensures id !in end.sys.world.store.users && end.ledger != FullScan(end.sys.world.store)
  {
    acts, end := FailedConfirmationRun(fold, b, id);
    GoneButInLedger(fold, b, id, end.ledger);
  }

  lemma CachedConfirmationRun(fold: CaseFold, b: Books, id: string, u: User)
    returns (acts: seq<Action>, end: Books)
    requires b.sys.calls == map[] && Entry(b.sys.world.store, id) == Some(u) && KnownRole(u.Role())
    requires b.sys.cache.Memory? && Lookup(b.sys.cache, CacheKey(id)).None?
    ensures Leads(fold, FreshReads, b, acts, end) && AllAnswered(acts)
    ensures 1 in end.sys.calls && end.sys.calls[1] == Call(DeleteAccount(id), Done(Failed))
    ensures end.sys.world.store == DeleteUser(b.sys.world.store, id).0
    ensures end.ledger == b.ledger + {RoleGrant(id, u.Role())}
  {
    RestIsAllowed(b.sys, 0, GrantOf(id, u.Role()));
    var xs, b2 := GrantReads(fold, FreshReads, b, 0, id, u.Role(), u);
    RestIsAllowed(b2.sys, 1, DeleteAccount(id));
    var ys, b4 := DeleteHappens(fold, b2, 1, id);
    var zs;
    zs, end := ConfirmationHits(fold, b4, 1, id, u);
    TwoParts(fold, FreshReads, b, xs, b2, ys, b4);
    TwoParts(fold, FreshReads, b, xs + ys, b4, zs, end);
    acts := xs + ys + zs;
  }

  /** The same with every message answered: a grant that changed nothing has left the user in the cache,
      and the confirming read of the delete that follows finds it there. */
  lemma CachedConfirmationDiverges(fold: CaseFold, b: Books, id: string)
    returns (acts: seq<Action>, end: Books)
    requires Opening(fold, b) && id in b.sys.world.store.users && KnownRole(b.sys.world.store.users[id].Role())
    requires b.sys.cache.Memory? && Lookup(b.sys.cache, CacheKey(id)).None?
    ensures Leads(fold, FreshReads, b, acts, end) && AllAnswered(acts)
    ensures 1 in end.sys.calls && end.sys.calls[1] == Call(DeleteAccount(id), Done(Failed))
    ensures id !in end.sys.world.store.users && end.ledger != FullScan(end.sys.world.store)
  {
    acts, end := CachedConfirmationRun(fold, b, id, b.sys.world.store.users[id]);
    GoneButInLedger(fold, b, id, end.ledger);
  }

  // ---------- Two grants on one user ----------

  lemma TwoReplacements(ledger: set<RoleGrant>, id: string, read: string, first: string, second: string)
    requires LedgerOf(ledger, id) == {RoleGrant(id, read)} && read !in {first, second}
    ensures var l1 := Entered(ledger, GrantOf(id, first), GrantReplaced(read));
            LedgerOf(Entered(l1, GrantOf(id, second), GrantReplaced(read)), id)
            == {RoleGrant(id, first), RoleGrant(id, second)}
  {
    assert forall g :: g in ledger && g.user == id ==> g in LedgerOf(ledger, id);
  }

  /** What both runs below come to. */
  ghost predicate EndsWithTwo(b: Books, end: Books, id: string, read: string, first: string, second: string) {
    && end.ledger == Entered(Entered(b.ledger, GrantOf(id, first), GrantReplaced(read)),
                             GrantOf(id, second), GrantReplaced(read))
    && end.sys.world.store == WithRole(WithRole(b.sys.world.store, id, first), id, second)
  }

  lemma TwoDiverge(fold: CaseFold, b: Books, end: Books, id: string, first: string, second: string)
    requires Opening(fold, b) && id in b.sys.world.store.users && first != second
    requires KnownRole(first) && KnownRole(second) && KnownRole(b.sys.world.store.users[id].Role())
    requires b.sys.world.store.users[id].Role() !in {first, second}
    requires EndsWithTwo(b, end, id, b.sys.world.store.users[id].Role(), first, second)
    ensures LedgerOf(end.ledger, id) == {RoleGrant(id, first), RoleGrant(id, second)}
    ensures end.ledger != FullScan(end.sys.world.store)
  {
    OpeningLine(fold, b, id);
    TwoReplacements(b.ledger, id, b.sys.world.store.users[id].Role(), first, second);
    WriteIsHeld(b.sys.world.store, id, first);
    WriteIsHeld(WithRole(b.sys.world.store, id, first), id, second);
    assert RoleGrant(id, first) in LedgerOf(end.ledger, id);
    WrongLine(end.sys.world.store, end.ledger, id);
  }

  /** Two grants on one user that both read before either writes. */
  lemma OverlapReads(fold: CaseFold, b: Books, id: string, first: string, second: string, u: User)
    returns (acts: seq<Action>, b': Books)
    requires b.sys.calls == map[] && KnownRole(first) && KnownRole(second)
    requires ReadUser(b.sys.cache, b.sys.world.store, id, Answered) == Some(UserReply(OK, Some(u)))
    requires u.Role() !in {first, second}
    ensures Leads(fold, Anything, b, acts, b') && AllAnswered(acts)
    ensures b'.sys.world == b.sys.world && b'.ledger == b.ledger
    ensures b'.sys.calls == map[0 := Call(GrantOf(id, first), Fetched(u)), 1 := Call(GrantOf(id, second), Fetched(u))]
  {
    RestIsAllowed(b.sys, 0, GrantOf(id, first));
    var xs, b2 := GrantReads(fold, Anything, b, 0, id, first, u);
    var ys;
    ys, b' := GrantReads(fold, Anything, b2, 1, id, second, u);
    TwoParts(fold, Anything, b, xs, b2, ys, b');
    acts := xs + ys;
  }

  lemma OverlapRun(fold: CaseFold, b: Books, id: string, first: string, second: string, u: User)
    returns (acts: seq<Action>, end: Books)
    requires b.sys.calls == map[] && Entry(b.sys.world.store, id) == Some(u) && Lookup(b.sys.cache, CacheKey(id)).None?
    requires KnownRole(first) && KnownRole(second) && KnownRole(u.Role()) && u.Role() !in {first, second}
    ensures Leads(fold, Anything, b, acts, end) && AllAnswered(acts) && Quiescent(end.sys)
    ensures EndsWithTwo(b, end, id, u.Role(), first, second)
  {
    var xs, b4 := OverlapReads(fold, b, id, first, second, u);
    var ys, held := GrantWrites(fold, Anything, b4, 0, id, first, u, Answered);
    var zs;
    zs, end := GrantWrites(fold, Anything, held, 1, id, second, u, Answered);
    TwoParts(fold, Anything, b, xs, b4, ys, held);
    TwoParts(fold, Anything, b, xs + ys, held, zs, end);
    acts := xs + ys + zs;
  }

  /** Overlapping grants on one user, every message answered: the second one names a role that is no
      longer there to be replaced, and the ledger ends with two roles for the user. */
  lemma OverlapDiverges(fold: CaseFold, b: Books, id: string, first: string, second: string)
    returns (acts: seq<Action>, end: Books)
    requires Opening(fold, b) && id in b.sys.world.store.users && first != second
    requires Lookup(b.sys.cache, CacheKey(id)).None?
    requires KnownRole(first) && KnownRole(second) && KnownRole(b.sys.world.store.users[id].Role())
    requires b.sys.world.store.users[id].Role() !in {first, second}
    ensures Leads(fold, Anything, b, acts, end) && AllAnswered(acts) && Quiescent(end.sys)
    ensures LedgerOf(end.ledger, id) == {RoleGrant(id, first), RoleGrant(id, second)}
    ensures end.ledger != FullScan(end.sys.world.store)
  {
    acts, end := OverlapRun(fold, b, id, first, second, b.sys.world.store.users[id]);
    TwoDiverge(fold, b, end, id, first, second);
  }

  /** A grant from begin to end. */
  lemma GrantGoes(fold: CaseFold, b: Books, cid: nat, id: string, role: string, seen: User)
    returns (acts: seq<Action>, b': Books)
    requires Allowed(NoOverlap, b.sys, Begin(cid, GrantOf(id, role))) && KnownRole(role) && KnownRole(seen.Role())
    requires ReadUser(b.sys.cache, b.sys.world.store, id, Answered) == Some(UserReply(OK, Some(seen)))
    requires seen.Role() != role && id in b.sys.world.store.users
    ensures Leads(fold, NoOverlap, b, acts, b') && AllAnswered(acts)
    ensures b'.sys == Sys(b.sys.world.(store := WithRole(b.sys.world.store, id, role)),
                          b.sys.calls[cid := Call(GrantOf(id, role), Done(GrantReplaced(seen.Role())))],
                          Stored(b.sys.cache, CacheKey(id), seen))
    ensures b'.ledger == Entered(b.ledger, GrantOf(id, role), GrantReplaced(seen.Role()))
  {
    var xs, b2 := GrantReads(fold, NoOverlap, b, cid, id, role, seen);
    var ys;
    ys, b' := GrantWrites(fold, NoOverlap, b2, cid, id, role, seen, Answered);
    TwoParts(fold, NoOverlap, b, xs, b2, ys, b');
    acts := xs + ys;
  }

  lemma StaleReadRun(fold: CaseFold, b: Books, id: string, first: string, second: string, u: User)
    returns (acts: seq<Action>, end: Books)
    requires b.sys.calls == map[] && Entry(b.sys.world.store, id) == Some(u)
    requires b.sys.cache.Memory? && Lookup(b.sys.cache, CacheKey(id)).None?
    requires KnownRole(first) && KnownRole(second) && KnownRole(u.Role()) && u.Role() !in {first, second}
    ensures Leads(fold, NoOverlap, b, acts, end) && AllAnswered(acts) && Quiescent(end.sys)
    ensures EndsWithTwo(b, end, id, u.Role(), first, second)
  {
    RestIsAllowed(b.sys, 0, GrantOf(id, first));
    var xs, held := GrantGoes(fold, b, 0, id, first, u);
    var ys;
    RestIsAllowed(held.sys, 1, GrantOf(id, second));
    ys, end := GrantGoes(fold, held, 1, id, second, u);
    TwoParts(fold, NoOverlap, b, xs, held, ys, end);
    acts := xs + ys;
  }

  /** Grants one after the other, every message answered, in one process with a cache: the second one
      sees the user as it was before the first, names that role again, and the ledger ends with two
      roles for the user. */
  lemma StaleReadDiverges(fold: CaseFold, b: Books, id: string, first: string, second: string)
    returns (acts: seq<Action>, end: Books)
    requires Opening(fold, b) && id in b.sys.world.store.users && first != second
    requires b.sys.cache.Memory? && Lookup(b.sys.cache, CacheKey(id)).None?
    requires KnownRole(first) && KnownRole(second) && KnownRole(b.sys.world.store.users[id].Role())
    requires b.sys.world.store.users[id].Role() !in {first, second}
    ensures Leads(fold, NoOverlap, b, acts, end) && AllAnswered(acts) && Quiescent(end.sys)
    ensures LedgerOf(end.ledger, id) == {RoleGrant(id, first), RoleGrant(id, second)}
    ensures end.ledger != FullScan(end.sys.world.store)
  {
    acts, end := StaleReadRun(fold, b, id, first, second, b.sys.world.store.users[id]);
    TwoDiverge(fold, b, end, id, first, second);
  }

  // ---------- What exactly a cached user does to the ledger ----------

  /** What the store says of a user's role, when it is one that shows in a scan. */
  function StoredRole(st: StoreState, id: string): Option<string> {
    if id in st.users && KnownRole(st.users[id].Role()) then Some(st.users[id].Role()) else None
  }

  /** An uninterrupted grant that sees a cached user keeps the ledger right exactly when: if the cached
      role is the target, the stored role is too; if not, the stored role, where there is one that shows,
      is the target or the cached one. */
  lemma GrantAgreesExactlyWhen(w: World, cache: UserCache, id: string, role: string, ledger: set<RoleGrant>)
    requires KeysAreIds(w.store) && KnownRole(role) && LedgerOf(ledger, id) == ScanOf(w.store, id)
    requires Lookup(cache, CacheKey(id)).Some?
    ensures var (w', _, pc) := GrantAlone(w, cache, Principal("user", id), role);
            var seen := Lookup(cache, CacheKey(id)).value.Role();
            pc.Done?
            && (LedgerOf(Entered(ledger, GrantOf(id, role), pc.result), id) == ScanOf(w'.store, id)
                <==> if seen == role then StoredRole(w.store, id) == Some(role)
                     else StoredRole(w.store, id) in {None, Some(role), Some(seen)})
  {
    var u := Lookup(cache, CacheKey(id)).value;
    GrantBySight(w, cache, id, role, u);
    LineMeans(w.store, id, ledger);
    ScanIs(w.store, id);
    if u.Role() == role {
      LineWith(ledger, id, StoredRole(w.store, id), None, role);
      assert RoleGrant(id, role) in LedgerOf(ledger + {RoleGrant(id, role)}, id);
    } else if id in w.store.users {
      LineWith(ledger, id, StoredRole(w.store, id), if KnownRole(u.Role()) then Some(u.Role()) else None, role);
      WriteIsHeld(w.store, id, role);
    }
  }

  /** What a grant does that sees a cached user. */
  lemma GrantBySight(w: World, cache: UserCache, id: string, role: string, seen: User)
    requires KnownRole(role) && Lookup(cache, CacheKey(id)) == Some(seen)
    ensures var (w', _, pc) := GrantAlone(w, cache, Principal("user", id), role);
            if seen.Role() == role then w' == w && pc == Done(GrantAlreadyExists)
            else
              && w'.store == WithRole(w.store, id, role)
              && pc == Done(if id !in w.store.users then Failed
                            else if KnownRole(seen.Role()) then GrantReplaced(seen.Role()) else Granted)
  {
    SupportedIsKnown(role);
    SupportedIsKnown(seen.Role());
  }

  lemma ScanIs(st: StoreState, id: string)
    requires KeysAreIds(st)
    ensures ScanOf(st, id) == if StoredRole(st, id).Some? then {RoleGrant(id, StoredRole(st, id).value)} else {}
  {
  }

  /** Striking one role from the line of a user and entering another leaves exactly the other when there
      was nothing else. */
  lemma LineWith(ledger: set<RoleGrant>, id: string, held: Option<string>, struck: Option<string>, role: string)
    requires forall r :: RoleGrant(id, r) in ledger <==> held == Some(r)
    ensures var rest := if struck.Some? then ledger - {RoleGrant(id, struck.value)} else ledger;
            LedgerOf(rest + {RoleGrant(id, role)}, id) == {RoleGrant(id, role)}
            <==> held.None? || held == Some(role) || held == struck
  {
    var rest := if struck.Some? then ledger - {RoleGrant(id, struck.value)} else ledger;
    var line := LedgerOf(rest + {RoleGrant(id, role)}, id);
    if held.Some? && held != struck {
      assert RoleGrant(id, held.value) in line;
    }
  }

  lemma LineMeans(st: StoreState, id: string, ledger: set<RoleGrant>)
    requires KeysAreIds(st) && LedgerOf(ledger, id) == ScanOf(st, id)
    ensures forall r :: RoleGrant(id, r) in ledger <==> StoredRole(st, id) == Some(r)
  {
    forall r ensures RoleGrant(id, r) in ledger <==> StoredRole(st, id) == Some(r) {
      assert RoleGrant(id, r) in ledger <==> RoleGrant(id, r) in LedgerOf(ledger, id);
    }
  }

  /** The same for an uninterrupted revoke: if the cached role is another one, the stored role must not be
      the one to be revoked; if it is that one, and not the default, the stored role, where there is one
      that shows, must be the cached one or the default. */
  lemma RevokeAgreesExactlyWhen(w: World, cache: UserCache, id: string, role: string, ledger: set<RoleGrant>)
    requires KeysAreIds(w.store) && KnownRole(role) && LedgerOf(ledger, id) == ScanOf(w.store, id)
    requires Lookup(cache, CacheKey(id)).Some?
    ensures var (w', _, pc) := RevokeAlone(w, cache, Principal("user", id), role);
            var seen := Lookup(cache, CacheKey(id)).value.Role();
            pc.Done?
            && (LedgerOf(Entered(ledger, Op.Revoke(Principal("user", id), role), pc.result), id) == ScanOf(w'.store, id)
                <==> if seen != role then StoredRole(w.store, id) != Some(role)
                     else role == DEFAULT_REVOKED_ROLE
                          || StoredRole(w.store, id) in {None, Some(role), Some(DEFAULT_REVOKED_ROLE)})
  {
    var u := Lookup(cache, CacheKey(id)).value;
    var p := Principal("user", id);
    LineMeans(w.store, id, ledger);
    ScanIs(w.store, id);
    if u.Role() == role && role == DEFAULT_REVOKED_ROLE {
      RevokeFailsExactlyWhen(w, cache, p, role);
      RevokeDefaultKeeps(w, cache, p);
    } else if role == DEFAULT_REVOKED_ROLE {
      RevokeUnseen(w, cache, p, role, u);
      LineWithout(ledger, id, StoredRole(w.store, id), role);
    } else {
      RevokeBySight(w, cache, p, role, u);
      LineWithout(ledger, id, StoredRole(w.store, id), role);
      LineWith(ledger, id, StoredRole(w.store, id), Some(role), DEFAULT_REVOKED_ROLE);
      if id in w.store.users { WriteIsHeld(w.store, id, DEFAULT_REVOKED_ROLE); }
    }
  }

  lemma RevokeDefaultKeeps(w: World, cache: UserCache, p: Principal)
    requires RevokeAlone(w, cache, p, DEFAULT_REVOKED_ROLE).2 == Done(Failed)
    ensures RevokeAlone(w, cache, p, DEFAULT_REVOKED_ROLE).0 == w
  {
  }

  lemma RevokeUnseen(w: World, cache: UserCache, p: Principal, role: string, seen: User)
    requires p.kind == "user" && KnownRole(role) && Seen(cache, w.store, p.id) == Some(seen) && seen.Role() != role
    ensures var (w', _, revoked) := RevokeAlone(w, cache, p, role);
            w' == w && revoked == Done(GrantAlreadyRevoked)
  {
    SupportedIsKnown(role);
  }

  /** Striking a role leaves the line as it was exactly when the role was not in it. */
  lemma LineWithout(ledger: set<RoleGrant>, id: string, held: Option<string>, role: string)
    requires forall r :: RoleGrant(id, r) in ledger <==> held == Some(r)
    ensures var line := LedgerOf(ledger - {RoleGrant(id, role)}, id);
            if held == Some(role) then line == {} else line == LedgerOf(ledger, id)
  {
  }

  // ---------- What cached pages and groups do to a sync ----------

  /** A second sync in the same process, after a grant: it is shown the pages of the first, so it emits
      what the first emitted, and that is not what a scan now says. */
  lemma ReplayedSyncIsStale(st: StoreState, pages: PageCache<User>, calls: nat, id: string, role: string)
    requires KeysAreIds(st) && |st.users| < MAX_INT && id in st.users
    requires KnownRole(role) && KnownRole(st.users[id].Role()) && st.users[id].Role() != role
    requires !SyncFallsShort(st) && pages.Memory? && Keeps(pages, Listing(st.users), calls)
    requires JustEnough(calls, |Listing(st.users)|, LIST_PAGE_SIZE)
    ensures var st' := WithRole(st, id, role);
            && Shows(pages, Listing(st'.users), Listing(st.users))
            && SyncedGrants(st) != FullScan(st')
  {
    var st' := WithRole(st, id, role);
    assert st'.users.Keys == st.users.Keys;
    SyncReplays(pages, Listing(st.users), calls, Listing(st'.users));
    SyncIsScan(st);
    WriteShows(st, id, role);
  }

  lemma WriteShows(st: StoreState, id: string, role: string)
    requires KeysAreIds(st) && id in st.users && KnownRole(role) && st.users[id].Role() != role
    ensures FullScan(st) != FullScan(WithRole(st, id, role))
  {
    WriteIsHeld(st, id, role);
    ScanLine(st, id);
    assert RoleGrant(id, role) !in ScanOf(st, id);
    WrongLine(WithRole(st, id, role), FullScan(st), id);
  }

  /** A group that has been read stays as it was read: after one of its members is deleted, the next read
      still shows the member, whom the server's group no longer lists, and Grants emits it. */
  lemma CachedGroupDangles(fold: CaseFold, w: World, groups: Cache<string, Group>, groupId: string, userId: string)
    requires groups.Memory? && Lookup(groups, CacheKey(groupId)).None?
    requires groupId in w.store.groups && userId in w.store.users && userId in w.store.groups[groupId].members
    ensures var groups' := GroupsAfter(groups, w.store, groupId);
            var w' := Serve(fold, w, Delete(userId));
            var shown := ShownGroup(groups', w'.store, groupId);
            && shown == Some(w.store.groups[groupId])
            && MemberGrant(groupId, userId) in MemberGrants(groupId, shown.value.members)
            && userId !in w'.store.users
            && groupId in w'.store.groups && userId !in w'.store.groups[groupId].members
  {
    MemberGrantsAre(groupId, w.store.groups[groupId].members, MemberGrant(groupId, userId));
    DeleteEffect(w.store, userId);
  }
}
