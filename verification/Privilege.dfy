/** What any interleaving of revokes does to a user's role. */
module Privilege {
  import opened Text
  import opened Domain
  import opened Store
  import opened Roles
  import opened Caching
  import opened Protocol
  import opened Linearization

  // ---------- Revokes alone only lower privilege ----------

  function RoleIn(s: Sys, userId: string): Option<string> {
    if userId in s.world.store.users then Some(s.world.store.users[userId].Role()) else None
  }

  /** Only revoke calls begin, and no other client writes. */
  ghost predicate RevokesOnly(acts: seq<Action>) {
    forall i :: 0 <= i < |acts| ==>
      && (acts[i].Begin? ==> acts[i].op.Revoke?)
      && (acts[i].Env? ==> acts[i].req == Read)
  }

  predicate Resets(before: Option<string>, after: Option<string>) {
    after == before || (before.Some? && after == Some(DEFAULT_REVOKED_ROLE))
  }

  ghost predicate AllRevokes(s: Sys) {
    forall cid :: cid in s.calls ==> s.calls[cid].op.Revoke?
  }

  lemma RevokeStepResets(fold: CaseFold, s: Sys, a: Action, userId: string)
    requires AllRevokes(s) && CanAct(s, a) && RevokesOnly([a])
    ensures AllRevokes(Act(fold, s, a))
    ensures Resets(RoleIn(s, userId), RoleIn(Act(fold, s, a), userId))
    ensures RoleIn(s, userId) != RoleIn(Act(fold, s, a), userId) ==>
              a.Step? && s.calls[a.cid].pc.Fetched? && s.calls[a.cid].op.principal.id == userId
  {
    assert [a][0] == a;
  }

  /** In any interleaving of revoke calls, stale reads and lost messages included: from one state to
      any later one a user's role is the same or has become the default. */
  lemma {:induction false} RevokesOnlyReset(fold: CaseFold, states: seq<Sys>, acts: seq<Action>, i: nat, j: nat, userId: string)
    requires IsRun(fold, states, acts) && RevokesOnly(acts) && AllRevokes(states[0]) && i <= j < |states|
    ensures AllRevokes(states[j])
    ensures Resets(RoleIn(states[i], userId), RoleIn(states[j], userId))
    decreases j
  {
    if j > 0 {
      assert RevokesOnly([acts[j - 1]]);
      RevokesOnlyReset(fold, states, acts, if i < j then i else j - 1, j - 1, userId);
      assert Goes(fold, states, acts, j - 1);
      RevokeStepResets(fold, states[j - 1], acts[j - 1], userId);
    }
  }

  /** What is cached of a user, is on its way, or is remembered by a call, is its role or was before it
      became the default. */
  ghost predicate RemembersRoles(s: Sys) {
    && (forall key :: Lookup(s.cache, key).Some? ==>
          Resets(Some(Lookup(s.cache, key).value.Role()), RoleIn(s, key)))
    && (forall cid :: cid in s.calls ==> RemembersRole(s, s.calls[cid]))
  }

  predicate RemembersRole(s: Sys, c: Call) {
    match c.pc
    case Reading(reply) =>
      c.op.Revoke?
      && (reply.user.Some? ==> Resets(Some(reply.user.value.Role()), RoleIn(s, CacheKey(c.op.principal.id))))
    case Fetched(_) =>
      c.op.Revoke? && RoleIn(s, c.op.principal.id) in {None, Some(c.op.role), Some(DEFAULT_REVOKED_ROLE)}
    case _ => true
  }

  /** From a cold start, moreover, only users whose role is known are written. */
  ghost predicate Lowers(before: Option<string>, after: Option<string>) {
    Resets(before, after) && (after != before ==> KnownRole(before.value))
  }

  lemma RevokeStepLowers(fold: CaseFold, s: Sys, a: Action, userId: string)
    requires Sound(fold, s) && AllRevokes(s) && RemembersRoles(s) && CanAct(s, a) && RevokesOnly([a])
    ensures Lowers(RoleIn(s, userId), RoleIn(Act(fold, s, a), userId))
  {
    RevokeStepResets(fold, s, a, userId);
    if a.Step? { assert WellPlaced(s.calls[a.cid]) && RemembersRole(s, s.calls[a.cid]); }
  }

  lemma EntriesRemember(fold: CaseFold, s: Sys, a: Action, key: string)
    requires Sound(fold, s) && AllRevokes(s) && RemembersRoles(s) && CanAct(s, a) && RevokesOnly([a])
    requires Lookup(Act(fold, s, a).cache, key).Some?
    ensures Resets(Some(Lookup(Act(fold, s, a).cache, key).value.Role()), RoleIn(Act(fold, s, a), key))
  {
    RevokeStepResets(fold, s, a, key);
    if Lookup(Act(fold, s, a).cache, key) != Lookup(s.cache, key) {
      FillsOne(fold, s, a, key);
      assert RemembersRole(s, s.calls[a.cid]);
    }
  }

  lemma CallRemembers(fold: CaseFold, s: Sys, a: Action, cid: nat)
    requires Sound(fold, s) && AllRevokes(s) && RemembersRoles(s) && CanAct(s, a) && RevokesOnly([a])
    requires cid in Act(fold, s, a).calls
    ensures RemembersRole(Act(fold, s, a), Act(fold, s, a).calls[cid])
  {
    var s' := Act(fold, s, a);
    RevokeStepResets(fold, s, a, "");
    RevokeStepResets(fold, s, a, s'.calls[cid].op.principal.id);
    RevokeStepResets(fold, s, a, CacheKey(s'.calls[cid].op.principal.id));
    if Owns(s, a, cid) {
      assert RemembersRole(s, s.calls[cid]);
      OwnRevokeRemembers(fold, s, a);
    } else if cid in s.calls {
      assert RemembersRole(s, s.calls[cid]);
      OthersKeepStill(fold, s, a, cid);
    }
  }

  /** A revoke's own step: what it then holds on to is what it hit, what the server just answered, or what
      it was waiting for. */
  lemma OwnRevokeRemembers(fold: CaseFold, s: Sys, a: Action)
    requires Sound(fold, s) && AllRevokes(s) && RemembersRoles(s) && CanAct(s, a) && a.Step?
    requires RemembersRole(s, s.calls[a.cid])
    ensures RemembersRole(Act(fold, s, a), Act(fold, s, a).calls[a.cid])
  {
    var c := s.calls[a.cid];
    assert c.op.Revoke? && WellPlaced(c);
    var id := c.op.principal.id;
    if id in s.world.store.users { NotStoredUnlessKey(fold, s, id); }
    if c.pc.Start? || c.pc.Reading? {
      assert Act(fold, s, a).world == s.world;
      if c.pc.Reading? { ReadRemembers(s, c, c.pc.reply); }
    }
  }

  lemma ReadRemembers(s: Sys, c: Call, reply: UserReply)
    requires c.op.Revoke?
    requires reply.user.Some? ==>
               RoleIn(s, c.op.principal.id) == None
               || Resets(Some(reply.user.value.Role()), RoleIn(s, c.op.principal.id))
    ensures RemembersRole(s, c.(pc := AfterReading(c.op, reply)))
  {
  }

  /** What a run of revokes from a cold start keeps. */
  ghost predicate Remembering(fold: CaseFold, s: Sys) {
    Sound(fold, s) && AllRevokes(s) && RemembersRoles(s)
  }

  lemma RemembersOn(fold: CaseFold, s: Sys, a: Action)
    requires Remembering(fold, s) && CanAct(s, a) && RevokesOnly([a])
    ensures Remembering(fold, Act(fold, s, a))
  {
    var s' := Act(fold, s, a);
    ActKeepsSound(fold, s, a);
    RevokeStepResets(fold, s, a, "");
    forall key | Lookup(s'.cache, key).Some? ensures Resets(Some(Lookup(s'.cache, key).value.Role()), RoleIn(s', key)) {
      EntriesRemember(fold, s, a, key);
    }
    forall cid | cid in s'.calls ensures RemembersRole(s', s'.calls[cid]) {
      CallRemembers(fold, s, a, cid);
    }
  }

  lemma {:induction false} RemembersThroughout(fold: CaseFold, states: seq<Sys>, acts: seq<Action>, j: nat)
    requires IsRun(fold, states, acts) && RevokesOnly(acts) && ColdStart(fold, states[0]) && j < |states|
    ensures Remembering(fold, states[j])
  {
    if j > 0 {
      RemembersThroughout(fold, states, acts, j - 1);
      GoesRemembers(fold, states, acts, j - 1);
    }
  }

  lemma GoesRemembers(fold: CaseFold, states: seq<Sys>, acts: seq<Action>, j: nat)
    requires j < |acts| && j + 1 < |states| && Goes(fold, states, acts, j) && RevokesOnly(acts)
    requires Remembering(fold, states[j])
    ensures Remembering(fold, states[j + 1])
  {
    assert RevokesOnly([acts[j]]);
    RemembersOn(fold, states[j], acts[j]);
  }

  ghost predicate ColdStart(fold: CaseFold, s: Sys) {
    Sound(fold, s) && s.calls == map[] && forall key :: Lookup(s.cache, key).None?
  }

  lemma LowersOn(a: Option<string>, b: Option<string>, c: Option<string>)
    requires Lowers(a, b) && Lowers(b, c)
    ensures Lowers(a, c)
  {
  }

  ghost predicate LowersAt(states: seq<Sys>, k: nat, userId: string)
    requires k + 1 < |states|
  {
    Lowers(RoleIn(states[k], userId), RoleIn(states[k + 1], userId))
  }

  lemma StepLowersAt(fold: CaseFold, states: seq<Sys>, acts: seq<Action>, j: nat, userId: string)
    requires IsRun(fold, states, acts) && RevokesOnly(acts) && ColdStart(fold, states[0]) && j < |acts|
    ensures LowersAt(states, j, userId)
  {
    RemembersThroughout(fold, states, acts, j);
    var s, a := states[j], acts[j];
    assert RevokesOnly([a]) && Goes(fold, states, acts, j);
    RevokeStepLowers(fold, s, a, userId);
  }

  lemma {:induction false} LowersChain(states: seq<Sys>, i: nat, j: nat, userId: string)
    requires i <= j < |states| && forall k :: i <= k < j ==> LowersAt(states, k, userId)
    ensures Lowers(RoleIn(states[i], userId), RoleIn(states[j], userId))
    decreases j
  {
    if i < j {
      LowersChain(states, i, j - 1, userId);
      assert LowersAt(states, j - 1, userId);
      LowersOn(RoleIn(states[i], userId), RoleIn(states[j - 1], userId), RoleIn(states[j], userId));
    }
  }

  lemma RevokesOnlyLower(fold: CaseFold, states: seq<Sys>, acts: seq<Action>, i: nat, j: nat, userId: string)
    requires IsRun(fold, states, acts) && RevokesOnly(acts) && ColdStart(fold, states[0]) && i <= j < |states|
    ensures Lowers(RoleIn(states[i], userId), RoleIn(states[j], userId))
  {
    forall k | i <= k < j ensures LowersAt(states, k, userId) {
      StepLowersAt(fold, states, acts, k, userId);
    }
    LowersChain(states, i, j, userId);
  }

  /** So the role changes at most once: if it has changed between two states, it never changes again.
      And the privilege order never rises, for a user whose role is known, and for every user if
      nothing was cached at the start. */
  lemma PrivilegeNeverRises(fold: CaseFold, states: seq<Sys>, acts: seq<Action>, i: nat, j: nat, k: nat, userId: string)
    requires IsRun(fold, states, acts) && RevokesOnly(acts) && states[0].calls == map[] && i <= j <= k < |states|
    requires userId in states[i].world.store.users
    ensures userId in states[j].world.store.users
    ensures RoleIn(states[i], userId) != RoleIn(states[j], userId) ==> RoleIn(states[k], userId) == RoleIn(states[j], userId)
    ensures KnownRole(RoleIn(states[i], userId).value) || ColdStart(fold, states[0]) ==>
              PrivilegeOrder(RoleIn(states[j], userId).value) <= PrivilegeOrder(RoleIn(states[i], userId).value)
  {
    RevokesOnlyReset(fold, states, acts, i, j, userId);
    RevokesOnlyReset(fold, states, acts, j, k, userId);
    if ColdStart(fold, states[0]) { RevokesOnlyLower(fold, states, acts, i, j, userId); }
    IndexHoldsSupported(RoleIn(states[i], userId).value);
    IndexHoldsSupported(RoleIn(states[j], userId).value);
  }
}
