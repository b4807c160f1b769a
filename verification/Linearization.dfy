/** What a call may be shown by the cache, and when exactly grants and revokes have a moment at which what
    they report is so. */
module Linearization {
  import opened Text
  import opened Domain
  import opened Patch
  import opened Store
  import opened Roles
  import opened Caching
  import opened Protocol

  // ---------- The cache along a run ----------

  /** A disabled cache stays disabled, and an enabled one enabled. */
  lemma {:induction false} NoopStays(fold: CaseFold, states: seq<Sys>, acts: seq<Action>, i: nat, j: nat)
    requires IsRun(fold, states, acts) && i <= j < |states|
    ensures states[i].cache.Noop? == states[j].cache.Noop?
    decreases j
  {
    if i < j {
      NoopStays(fold, states, acts, i, j - 1);
      assert Goes(fold, states, acts, j - 1);
    }
  }

  /** An entry appears only when a reply about that user comes in. */
  lemma FillsOne(fold: CaseFold, s: Sys, a: Action, key: string)
    requires Sound(fold, s) && CanAct(s, a)
    requires var entry := Lookup(Act(fold, s, a).cache, key);
             entry.Some? && entry != Lookup(s.cache, key)
    ensures a.Step? && s.calls[a.cid].pc == Reading(UserReply(OK, Lookup(Act(fold, s, a).cache, key)))
    ensures AboutKey(s.calls[a.cid], key) && s.cache.Memory?
  {
    if a.Step? && s.calls[a.cid].pc.Reading? && About(s.calls[a.cid].op).Some? {
      assert Expects(s, s.calls[a.cid]);
      ReplyFills(s.cache, s.world.issued, About(s.calls[a.cid].op).value, s.calls[a.cid].pc.reply, key);
    }
  }

  predicate AboutKey(c: Call, key: string) {
    About(c.op).Some? && CacheKey(About(c.op).value) == key
  }

  /** The user u may be shown to a call about this ID without being read from the server any more: it is
      cached, or a reply that shows it is about to come in. */
  ghost predicate MayShow(s: Sys, id: string, u: User) {
    || Lookup(s.cache, CacheKey(id)) == Some(u)
    || (s.cache.Memory? && Awaited(s, CacheKey(id), u))
  }

  ghost predicate Awaited(s: Sys, key: string, u: User) {
    exists cid :: cid in s.calls && AboutKey(s.calls[cid], key) && s.calls[cid].pc == Reading(UserReply(OK, Some(u)))
  }

  predicate Stores(s: Sys, id: string, u: User) {
    id in s.world.store.users && s.world.store.users[id] == u
  }

  /** A call that awaits a user did so before, or has just hit it, or has just been answered with it. */
  lemma AwaitedStep(fold: CaseFold, s: Sys, a: Action, cid: nat, key: string, u: User)
    requires Sound(fold, s) && CanAct(s, a) && cid in Act(fold, s, a).calls
    requires AboutKey(Act(fold, s, a).calls[cid], key)
    requires Act(fold, s, a).calls[cid].pc == Reading(UserReply(OK, Some(u)))
    ensures (cid in s.calls && s.calls[cid] == Act(fold, s, a).calls[cid])
            || Lookup(s.cache, key) == Some(u) || Stores(s, key, u)
  {
    if Owns(s, a, cid) {
      var c := s.calls[cid];
      assert WellPlaced(c);
      if Reads(c).Some? && Reads(c).value in s.world.store.users {
        NotStoredUnlessKey(fold, s, Reads(c).value);
      }
    } else if cid in s.calls {
      OthersKeepStill(fold, s, a, cid);
    }
  }

  /** What may be shown after a step might have been shown before, or is stored. */
  lemma ShowStep(fold: CaseFold, s: Sys, a: Action, id: string, u: User)
    requires Sound(fold, s) && CanAct(s, a) && MayShow(Act(fold, s, a), id, u)
    ensures MayShow(s, id, u) || Stores(s, CacheKey(id), u)
  {
    var s', key := Act(fold, s, a), CacheKey(id);
    if Lookup(s'.cache, key) == Some(u) {
      if Lookup(s.cache, key) != Some(u) {
        FillsOne(fold, s, a, key);
        assert Awaited(s, key, u);
      }
    } else {
      var cid :| cid in s'.calls && AboutKey(s'.calls[cid], key) && s'.calls[cid].pc == Reading(UserReply(OK, Some(u)));
      AwaitedStep(fold, s, a, cid, key, u);
      if cid in s.calls && s.calls[cid] == s'.calls[cid] { assert Awaited(s, key, u); }
    }
  }

  lemma ShowAt(fold: CaseFold, states: seq<Sys>, acts: seq<Action>, j: nat, id: string, u: User)
    requires IsRun(fold, states, acts) && Sound(fold, states[0]) && j < |acts| && MayShow(states[j + 1], id, u)
    ensures MayShow(states[j], id, u) || Stores(states[j], CacheKey(id), u)
  {
    RunKeepsSound(fold, states, acts, j);
    var s, a := states[j], acts[j];
    assert Goes(fold, states, acts, j);
    ShowStep(fold, s, a, id, u);
  }

  /** What may be shown at e might have been shown at `lo`, or was stored at some moment since. */
  lemma {:induction false} ShownSince(fold: CaseFold, states: seq<Sys>, acts: seq<Action>, lo: nat, e: nat, id: string, u: User)
    returns (was: bool, g: nat)
    requires IsRun(fold, states, acts) && Sound(fold, states[0]) && lo <= e < |states| && MayShow(states[e], id, u)
    ensures was ==> MayShow(states[lo], id, u)
    ensures !was ==> lo <= g < e && Stores(states[g], CacheKey(id), u)
    decreases e
  {
    was, g := true, e;
    if lo < e {
      ShowAt(fold, states, acts, e - 1, id, u);
      if Stores(states[e - 1], CacheKey(id), u) {
        was, g := false, e - 1;
      } else {
        was, g := ShownSince(fold, states, acts, lo, e - 1, id, u);
      }
    }
  }

  // ---------- What a call reads ----------

  /** A read of this user is not in yet. */
  ghost predicate InFlight(s: Sys, key: string) {
    exists cid :: cid in s.calls && s.calls[cid].pc.Reading? && AboutKey(s.calls[cid], key)
  }

  /** The cache can show nothing of this user before the server is asked for it again: it is disabled, or
      nothing is cached of the user and no reply about it has yet to come in. */
  ghost predicate Cold(s: Sys, id: string) {
    s.cache.Noop? || (CacheKey(id) == id && Lookup(s.cache, id).None? && !InFlight(s, id))
  }

  /** Keys are in lower case, so a cached reply about an ID that is not may be about another one. */
  predicate OwnKey(s: Sys, id: string) {
    s.cache.Noop? || CacheKey(id) == id
  }

  lemma ColdShowsNothing(s: Sys, id: string)
    requires Cold(s, id)
    ensures OwnKey(s, id) && forall u :: !MayShow(s, id, u)
  {
  }

  lemma NotStoredUnlessKey(fold: CaseFold, s: Sys, id: string)
    requires Sound(fold, s) && id in s.world.store.users
    ensures CacheKey(id) == id && s.world.store.users[id].id == id
  {
    LowerUuid(id);
  }

  lemma BegunShows(fold: CaseFold, states: seq<Sys>, acts: seq<Action>, b: nat, id: string, u: User)
    requires IsRun(fold, states, acts) && b < |acts| && acts[b].Begin? && MayShow(states[b + 1], id, u)
    ensures MayShow(states[b], id, u)
  {
    var s, a := states[b], acts[b];
    assert Goes(fold, states, acts, b);
    if Lookup(s.cache, CacheKey(id)) != Some(u) {
      var cid :| cid in states[b + 1].calls && AboutKey(states[b + 1].calls[cid], CacheKey(id))
                 && states[b + 1].calls[cid].pc == Reading(UserReply(OK, Some(u)));
      assert cid in s.calls && s.calls[cid] == states[b + 1].calls[cid];
    }
  }

  // ---------- Linearization: full interference, overlapping calls on one user allowed ----------

  /** What the last step of a grant goes by: a reply, or its write. */
  lemma GrantEndsBy(fold: CaseFold, s: Sys, a: Action)
    requires Sound(fold, s) && CanAct(s, a) && a.Step? && s.calls[a.cid].op.Grant?
    requires var pc := Act(fold, s, a).calls[a.cid].pc; pc.Done? && pc.result != Failed
    ensures var c := s.calls[a.cid];
            if c.pc.Reading? then c.pc.reply.status == OK && c.pc.reply.user.Some? && c.pc.reply.user.value.Role() == c.op.role
            else Holds(Act(fold, s, a), c.op.principal.id, c.op.role)
  {
    SupportedIsKnown(s.calls[a.cid].op.role);
    assert WellPlaced(s.calls[a.cid]);
  }

  lemma RevokeEndsBy(fold: CaseFold, s: Sys, a: Action)
    requires Sound(fold, s) && CanAct(s, a) && a.Step? && s.calls[a.cid].op.Revoke?
    requires var pc := Act(fold, s, a).calls[a.cid].pc; pc.Done? && pc.result != Failed
    ensures var c := s.calls[a.cid];
            if c.pc.Reading? then
              c.pc.reply == UserReply(NotFound, None)
              || (c.pc.reply.status == OK && c.pc.reply.user.Some? && c.pc.reply.user.value.Role() != c.op.role)
            else !Holds(Act(fold, s, a), c.op.principal.id, c.op.role)
  {
    SupportedIsKnown(s.calls[a.cid].op.role);
    assert WellPlaced(s.calls[a.cid]) && Expects(s, s.calls[a.cid]);
  }

  lemma ReadingComesFrom(fold: CaseFold, s: Sys, a: Action)
    requires Sound(fold, s) && CanAct(s, a) && a.Step? && About(s.calls[a.cid].op).Some?
    requires Act(fold, s, a).calls[a.cid].pc.Reading?
    ensures ReadUser(s.cache, s.world.store, About(s.calls[a.cid].op).value, a.net)
            == Some(Act(fold, s, a).calls[a.cid].pc.reply)
  {
    assert WellPlaced(s.calls[a.cid]);
  }

  /** What a call has read might have been shown when it began, or is what the server would have answered
      at some moment inside the call. */
  lemma ReadIsRecent(fold: CaseFold, states: seq<Sys>, acts: seq<Action>, cid: nat, b: nat, i: nat)
    returns (was: bool, g: nat)
    requires IsRun(fold, states, acts) && Sound(fold, states[0]) && b < i < |states|
    requires acts[b].Begin? && acts[b].cid == cid && About(acts[b].op).Some?
    requires OwnKey(states[b], About(acts[b].op).value)
    requires cid in states[i].calls && states[i].calls[cid].op == acts[b].op && states[i].calls[cid].pc.Reading?
    ensures was ==> states[i].calls[cid].pc.reply.user.Some?
                    && states[i].calls[cid].pc.reply.status == OK
                    && MayShow(states[b], About(acts[b].op).value, states[i].calls[cid].pc.reply.user.value)
    ensures !was ==> b < g < i && states[i].calls[cid].pc.reply == GetUser(states[g].world.store, About(acts[b].op).value)
  {
    var id, reply := About(acts[b].op).value, states[i].calls[cid].pc.reply;
    var r := LastStepAt(fold, states, acts, cid, b, i);
    ReadingAt(fold, states, acts, cid, r, id);
    was, g := false, r;
    if Lookup(states[r].cache, CacheKey(id)).Some? {
      NoopStays(fold, states, acts, b, r);
      assert MayShow(states[r], id, reply.user.value);
      was, g := ShownSince(fold, states, acts, b + 1, r, id, reply.user.value);
      if was { BegunShows(fold, states, acts, b, id, reply.user.value); }
    }
  }

  lemma ReadingAt(fold: CaseFold, states: seq<Sys>, acts: seq<Action>, cid: nat, r: nat, id: string)
    requires IsRun(fold, states, acts) && Sound(fold, states[0]) && r < |acts| && Owns(states[r], acts[r], cid)
    requires About(states[r].calls[cid].op) == Some(id) && cid in states[r + 1].calls && states[r + 1].calls[cid].pc.Reading?
    ensures var reply := states[r + 1].calls[cid].pc.reply;
            match Lookup(states[r].cache, CacheKey(id))
            case Some(u) => reply == UserReply(OK, Some(u))
            case None => reply == GetUser(states[r].world.store, id)
  {
    RunKeepsSound(fold, states, acts, r);
    var s, a := states[r], acts[r];
    assert Goes(fold, states, acts, r);
    ReadingComesFrom(fold, s, a);
  }

  // ---------- When a grant or revoke has a moment ----------

  /** A grant that begins now may be told by the cache that the role is held, although it is not. */
  ghost predicate GrantMisled(s: Sys, id: string, role: string) {
    !Holds(s, id, role) && exists u :: MayShow(s, id, u) && u.Role() == role
  }

  /** A revoke that begins now may be told by the cache that the role is not held, although it is. */
  ghost predicate RevokeMisled(s: Sys, id: string, role: string) {
    Holds(s, id, role) && exists u :: MayShow(s, id, u) && u.Role() != role
  }

  /** Every grant that was not misled when it began and returns without error has a moment m inside the
      call at which the user holds the target role, whatever else runs. */
  lemma GrantLinearizes(fold: CaseFold, states: seq<Sys>, acts: seq<Action>, cid: nat, b: nat, e: nat)
    returns (m: nat)
    requires IsRun(fold, states, acts) && Sound(fold, states[0]) && b < e < |states|
    requires acts[b].Begin? && acts[b].cid == cid && acts[b].op.Grant?
    requires OwnKey(states[b], acts[b].op.principal.id)
    requires !GrantMisled(states[b], acts[b].op.principal.id, acts[b].op.role)
    requires cid in states[e].calls && states[e].calls[cid].pc.Done? && states[e].calls[cid].pc.result != Failed
    ensures b < m <= e && Holds(states[m], acts[b].op.principal.id, acts[b].op.role)
  {
    var i := LastStepAt(fold, states, acts, cid, b, e);
    GrantEndsAt(fold, states, acts, cid, i);
    if states[i].calls[cid].pc.Reading? {
      m := GrantReadMoment(fold, states, acts, cid, b, i);
    } else {
      m := i + 1;
    }
  }

  lemma GrantReadMoment(fold: CaseFold, states: seq<Sys>, acts: seq<Action>, cid: nat, b: nat, i: nat)
    returns (m: nat)
    requires IsRun(fold, states, acts) && Sound(fold, states[0]) && b < i < |states|
    requires acts[b].Begin? && acts[b].cid == cid && acts[b].op.Grant?
    requires OwnKey(states[b], acts[b].op.principal.id)
    requires !GrantMisled(states[b], acts[b].op.principal.id, acts[b].op.role)
    requires cid in states[i].calls && states[i].calls[cid].op == acts[b].op && states[i].calls[cid].pc.Reading?
    requires var reply := states[i].calls[cid].pc.reply;
             reply.user.Some? && reply.user.value.Role() == acts[b].op.role
    ensures b < m <= i && Holds(states[m], acts[b].op.principal.id, acts[b].op.role)
  {
    var was, g := ReadIsRecent(fold, states, acts, cid, b, i);
    BeginKeepsWorld(fold, states, acts, b);
    m := if was then b + 1 else g;
  }

  lemma BeginKeepsWorld(fold: CaseFold, states: seq<Sys>, acts: seq<Action>, b: nat)
    requires IsRun(fold, states, acts) && b < |acts| && acts[b].Begin?
    ensures states[b + 1].world == states[b].world
  {
    assert Goes(fold, states, acts, b);
  }

  lemma GrantEndsAt(fold: CaseFold, states: seq<Sys>, acts: seq<Action>, cid: nat, i: nat)
    requires IsRun(fold, states, acts) && Sound(fold, states[0]) && i < |acts| && Owns(states[i], acts[i], cid)
    requires states[i].calls[cid].op.Grant? && cid in states[i + 1].calls
    requires states[i + 1].calls[cid].pc.Done? && states[i + 1].calls[cid].pc.result != Failed
    ensures var c := states[i].calls[cid];
            if c.pc.Reading? then c.pc.reply.status == OK && c.pc.reply.user.Some? && c.pc.reply.user.value.Role() == c.op.role
            else Holds(states[i + 1], c.op.principal.id, c.op.role)
  {
    RunKeepsSound(fold, states, acts, i);
    var s, a := states[i], acts[i];
    assert Goes(fold, states, acts, i);
    GrantEndsBy(fold, s, a);
  }

  /** Every such revoke has a moment inside the call at which the user does not hold the role, or is
      gone. */
  lemma RevokeLinearizes(fold: CaseFold, states: seq<Sys>, acts: seq<Action>, cid: nat, b: nat, e: nat)
    returns (m: nat)
    requires IsRun(fold, states, acts) && Sound(fold, states[0]) && b < e < |states|
    requires acts[b].Begin? && acts[b].cid == cid && acts[b].op.Revoke?
    requires OwnKey(states[b], acts[b].op.principal.id)
    requires !RevokeMisled(states[b], acts[b].op.principal.id, acts[b].op.role)
    requires cid in states[e].calls && states[e].calls[cid].pc.Done? && states[e].calls[cid].pc.result != Failed
    ensures b < m <= e && !Holds(states[m], acts[b].op.principal.id, acts[b].op.role)
  {
    var i := LastStepAt(fold, states, acts, cid, b, e);
    RevokeEndsAt(fold, states, acts, cid, i);
    if states[i].calls[cid].pc.Reading? {
      m := RevokeReadMoment(fold, states, acts, cid, b, i);
    } else {
      m := i + 1;
    }
  }

  lemma RevokeReadMoment(fold: CaseFold, states: seq<Sys>, acts: seq<Action>, cid: nat, b: nat, i: nat)
    returns (m: nat)
    requires IsRun(fold, states, acts) && Sound(fold, states[0]) && b < i < |states|
    requires acts[b].Begin? && acts[b].cid == cid && acts[b].op.Revoke?
    requires OwnKey(states[b], acts[b].op.principal.id)
    requires !RevokeMisled(states[b], acts[b].op.principal.id, acts[b].op.role)
    requires cid in states[i].calls && states[i].calls[cid].op == acts[b].op && states[i].calls[cid].pc.Reading?
    requires var reply := states[i].calls[cid].pc.reply;
             reply.user.Some? ==> reply.user.value.Role() != acts[b].op.role
    ensures b < m <= i && !Holds(states[m], acts[b].op.principal.id, acts[b].op.role)
  {
    var was, g := ReadIsRecent(fold, states, acts, cid, b, i);
    BeginKeepsWorld(fold, states, acts, b);
    m := if was then b + 1 else g;
  }

  lemma RevokeEndsAt(fold: CaseFold, states: seq<Sys>, acts: seq<Action>, cid: nat, i: nat)
    requires IsRun(fold, states, acts) && Sound(fold, states[0]) && i < |acts| && Owns(states[i], acts[i], cid)
    requires states[i].calls[cid].op.Revoke? && cid in states[i + 1].calls
    requires states[i + 1].calls[cid].pc.Done? && states[i + 1].calls[cid].pc.result != Failed
    ensures var c := states[i].calls[cid];
            if c.pc.Reading? then
              c.pc.reply == UserReply(NotFound, None)
              || (c.pc.reply.status == OK && c.pc.reply.user.Some? && c.pc.reply.user.value.Role() != c.op.role)
            else !Holds(states[i + 1], c.op.principal.id, c.op.role)
  {
    RunKeepsSound(fold, states, acts, i);
    var s, a := states[i], acts[i];
    assert Goes(fold, states, acts, i);
    RevokeEndsBy(fold, s, a);
  }

  // ---------- ... exactly ----------

  /** A run from s that begins with this call, which by state e has returned without error. */
  ghost predicate Succeeds(fold: CaseFold, s: Sys, cid: nat, op: Op, states: seq<Sys>, acts: seq<Action>, e: nat) {
    && IsRun(fold, states, acts) && states[0] == s && acts != [] && acts[0] == Begin(cid, op) && 0 < e < |states|
    && cid in states[e].calls && states[e].calls[cid].pc.Done? && states[e].calls[cid].pc.result != Failed
  }

  ghost predicate HeldWithin(states: seq<Sys>, e: nat, id: string, role: string) {
    exists m :: 0 < m <= e && m < |states| && Holds(states[m], id, role)
  }

  ghost predicate NotHeldWithin(states: seq<Sys>, e: nat, id: string, role: string) {
    exists m :: 0 < m <= e && m < |states| && !Holds(states[m], id, role)
  }

  function OnUser(id: string): Principal { Principal("user", id) }

  /** A call that reads, begun where u may be shown to it: it can be made to go by u, while nothing
      happens to the store. */
  lemma MisledRun(fold: CaseFold, s: Sys, cid: nat, op: Op, id: string, u: User)
    returns (states: seq<Sys>, acts: seq<Action>)
    requires Sound(fold, s) && cid !in s.calls && MayShow(s, id, u) && Reads(Call(op, Start)) == Some(id)
    ensures IsRun(fold, states, acts) && states[0] == s && acts != [] && acts[0] == Begin(cid, op)
    ensures forall m :: 0 <= m < |states| ==> states[m].world == s.world
    ensures cid in states[|acts|].calls
    ensures states[|acts|].calls[cid] == Call(op, AfterReading(op, UserReply(OK, Some(u))))
  {
    var s1 := s.(calls := s.calls[cid := Call(op, Start)]);
    BeginShows(s, cid, op, id, u);
    var ys, as2 := ShownRun(fold, s1, cid, id, u);
    states, acts := RunAfter(fold, s, Begin(cid, op), s1, ys, as2);
  }

  /** A read that goes by u: u comes to be cached if it is not, is hit, and comes in. */
  lemma ShownRun(fold: CaseFold, s: Sys, cid: nat, id: string, u: User) returns (states: seq<Sys>, acts: seq<Action>)
    requires cid in s.calls && Reads(s.calls[cid]) == Some(id) && MayShow(s, id, u)
    ensures IsRun(fold, states, acts) && states[0] == s
    ensures forall m :: 0 <= m < |states| ==> states[m].world == s.world
    ensures forall i :: 0 <= i < |acts| ==> acts[i].Step? && acts[i].net == Answered
    ensures cid in states[|acts|].calls
    ensures states[|acts|].calls[cid] == Call(s.calls[cid].op, AfterReading(s.calls[cid].op, UserReply(OK, Some(u))))
  {
    var ys, as2 := ShownComesIn(fold, s, cid, id, u);
    var zs, as3 := HitRuns(fold, ys[|as2|], cid, id, u);
    RunsJoin(fold, ys, as2, zs, as3);
    states, acts := ys + zs[1..], as2 + as3;
  }

  lemma BeginShows(s: Sys, cid: nat, op: Op, id: string, u: User)
    requires cid !in s.calls && MayShow(s, id, u)
    ensures MayShow(s.(calls := s.calls[cid := Call(op, Start)]), id, u)
  {
    var s' := s.(calls := s.calls[cid := Call(op, Start)]);
    if Lookup(s.cache, CacheKey(id)) != Some(u) {
      var x :| x in s.calls && AboutKey(s.calls[x], CacheKey(id)) && s.calls[x].pc == Reading(UserReply(OK, Some(u)));
      assert x in s'.calls && s'.calls[x] == s.calls[x];
    }
  }

  /** What may be shown to a call that is not reading yet can be made to be cached. */
  lemma ShownComesIn(fold: CaseFold, s: Sys, cid: nat, id: string, u: User) returns (states: seq<Sys>, acts: seq<Action>)
    requires cid in s.calls && !s.calls[cid].pc.Reading? && MayShow(s, id, u)
    ensures IsRun(fold, states, acts) && states[0] == s
    ensures forall m :: 0 <= m < |states| ==> states[m].world == s.world
    ensures forall i :: 0 <= i < |acts| ==> acts[i].Step? && acts[i].net == Answered
    ensures var end := states[|acts|];
            cid in end.calls && end.calls[cid] == s.calls[cid] && Lookup(end.cache, CacheKey(id)) == Some(u)
  {
    states, acts := [s], [];
    if Lookup(s.cache, CacheKey(id)) != Some(u) {
      var x :| x in s.calls && AboutKey(s.calls[x], CacheKey(id)) && s.calls[x].pc == Reading(UserReply(OK, Some(u)));
      var s' := ReplyIsIn(fold, s, x, CacheKey(id), u);
      states, acts := [s, s'], [Step(x, Answered, "")];
    }
  }

  lemma ReplyIsIn(fold: CaseFold, s: Sys, x: nat, key: string, u: User) returns (s': Sys)
    requires x in s.calls && AboutKey(s.calls[x], key) && s.calls[x].pc == Reading(UserReply(OK, Some(u)))
    requires s.cache.Memory?
    ensures CanAct(s, Step(x, Answered, "")) && s' == Act(fold, s, Step(x, Answered, ""))
    ensures s'.world == s.world && Lookup(s'.cache, key) == Some(u)
    ensures forall cid :: cid in s.calls && cid != x ==> cid in s'.calls && s'.calls[cid] == s.calls[cid]
  {
    s' := Act(fold, s, Step(x, Answered, ""));
  }

  /** A read that hits, and then comes in. */
  lemma HitRuns(fold: CaseFold, s: Sys, cid: nat, id: string, u: User) returns (states: seq<Sys>, acts: seq<Action>)
    requires cid in s.calls && Reads(s.calls[cid]) == Some(id) && Lookup(s.cache, CacheKey(id)) == Some(u)
    ensures IsRun(fold, states, acts) && |states| == 3 && states[0] == s
    ensures states[1].world == states[2].world == s.world
    ensures cid in states[2].calls
    ensures states[2].calls[cid] == Call(s.calls[cid].op, AfterReading(s.calls[cid].op, UserReply(OK, Some(u))))
    ensures acts == [Step(cid, Answered, ""), Step(cid, Answered, "")]
  {
    var step := Step(cid, Answered, "");
    var s1 := Act(fold, s, step);
    assert s1.calls[cid] == Call(s.calls[cid].op, Reading(UserReply(OK, Some(u))));
    var s2 := Act(fold, s1, step);
    states, acts := [s, s1, s2], [step, step];
  }

  /** When exactly every grant that begins now and returns without error has its moment: when it is not
      misled. */
  lemma GrantLinearizesExactlyWhen(fold: CaseFold, s: Sys, cid: nat, id: string, role: string)
    requires Sound(fold, s) && cid !in s.calls && OwnKey(s, id) && KnownRole(role)
    ensures (forall states, acts, e :: Succeeds(fold, s, cid, Op.Grant(OnUser(id), role), states, acts, e) ==>
               HeldWithin(states, e, id, role))
            <==> !GrantMisled(s, id, role)
  {
    var op := Op.Grant(OnUser(id), role);
    if GrantMisled(s, id, role) {
      var u :| MayShow(s, id, u) && u.Role() == role;
      SupportedIsKnown(role);
      var states, acts := MisledRun(fold, s, cid, op, id, u);
      assert Succeeds(fold, s, cid, op, states, acts, |acts|);
      assert !HeldWithin(states, |acts|, id, role);
    } else {
      forall states, acts, e | Succeeds(fold, s, cid, op, states, acts, e) ensures HeldWithin(states, e, id, role) {
        var m := GrantLinearizes(fold, states, acts, cid, 0, e);
      }
    }
  }

  /** The same for revokes. */
  lemma RevokeLinearizesExactlyWhen(fold: CaseFold, s: Sys, cid: nat, id: string, role: string)
    requires Sound(fold, s) && cid !in s.calls && OwnKey(s, id) && KnownRole(role)
    ensures (forall states, acts, e :: Succeeds(fold, s, cid, Op.Revoke(OnUser(id), role), states, acts, e) ==>
               NotHeldWithin(states, e, id, role))
            <==> !RevokeMisled(s, id, role)
  {
    var op := Op.Revoke(OnUser(id), role);
    if RevokeMisled(s, id, role) {
      var u :| MayShow(s, id, u) && u.Role() != role;
      SupportedIsKnown(role);
      var states, acts := MisledRun(fold, s, cid, op, id, u);
      assert Succeeds(fold, s, cid, op, states, acts, |acts|);
      assert !NotHeldWithin(states, |acts|, id, role);
    } else {
      forall states, acts, e | Succeeds(fold, s, cid, op, states, acts, e) ensures NotHeldWithin(states, e, id, role) {
        var m := RevokeLinearizes(fold, states, acts, cid, 0, e);
      }
    }
  }

  /** Two ways not to be misled that a caller can see to: nothing cached or about to come in; or nothing
      but what is true. */
  lemma ColdIsNotMisled(s: Sys, id: string, role: string)
    requires Cold(s, id) || (OwnKey(s, id) && forall u :: MayShow(s, id, u) ==> Stores(s, id, u))
    ensures OwnKey(s, id) && !GrantMisled(s, id, role) && !RevokeMisled(s, id, role) && !ReplaceMisled(s, id, role)
  {
    if Cold(s, id) { ColdShowsNothing(s, id); }
  }

  // ---------- What GrantReplaced names ----------

  /** The user a call's next request writes or removes. */
  function WritesTo(c: Call): Option<string> {
    match c.op
    case Grant(p, _) => if c.pc.Fetched? then Some(p.id) else None
    case Revoke(p, _) => if c.pc.Fetched? then Some(p.id) else None
    case DeleteAccount(id) => if c.pc.Start? then Some(id) else None
    case CreateAccount(_) => None
  }

  /** The action writes or removes this user. */
  predicate Touches(s: Sys, a: Action, userId: string) {
    match a
    case Step(cid, net, _) => cid in s.calls && net != Refused && WritesTo(s.calls[cid]) == Some(userId)
    case Env(Patch(id, _, _)) => id == userId
    case Env(Delete(id)) => id == userId
    case _ => false
  }

  /** What a store keeps of a user that is not written. */
  predicate SameOf(w: World, w': World, userId: string) {
    && userId in w'.issued
    && (userId in w'.store.users <==> userId in w.store.users)
    && (userId in w.store.users ==> w'.store.users[userId] == w.store.users[userId])
  }

  lemma UntouchedStays(fold: CaseFold, s: Sys, a: Action, userId: string)
    requires CanAct(s, a) && !Touches(s, a, userId) && userId in s.world.issued
    ensures SameOf(s.world, Act(fold, s, a).world, userId)
  {
    if a.Env? { UntouchedServe(fold, s.world, a.req, userId); }
  }

  lemma UntouchedServe(fold: CaseFold, w: World, r: Request, userId: string)
    requires CanServe(w, r) && userId in w.issued
    requires !(r.Patch? && r.id == userId) && !(r.Delete? && r.id == userId)
    ensures SameOf(w, Serve(fold, w, r), userId)
  {
  }

  /** The user a grant remembers is the one its last step received. */
  lemma RemembersWhatItRead(fold: CaseFold, s: Sys, a: Action)
    requires CanAct(s, a) && a.Step? && s.calls[a.cid].op.Grant?
    requires Act(fold, s, a).calls[a.cid].pc.Fetched? && WellPlaced(s.calls[a.cid])
    ensures s.calls[a.cid].pc == Reading(UserReply(OK, Some(Act(fold, s, a).calls[a.cid].pc.current)))
  {
  }

  ghost predicate SameAt(states: seq<Sys>, j: nat, userId: string)
    requires j + 1 < |states|
  {
    userId in states[j].world.store.users ==> SameOf(states[j].world, states[j + 1].world, userId)
  }

  lemma {:induction false} SameChain(states: seq<Sys>, g: nat, i: nat, userId: string)
    requires g <= i < |states| && userId in states[g].world.store.users
    requires forall j :: g <= j < i ==> SameAt(states, j, userId)
    ensures userId in states[i].world.store.users
    ensures states[i].world.store.users[userId] == states[g].world.store.users[userId]
    decreases i
  {
    if g < i {
      SameChain(states, g, i - 1, userId);
      assert SameAt(states, i - 1, userId);
    }
  }

  lemma UntouchedBetween(fold: CaseFold, states: seq<Sys>, acts: seq<Action>, g: nat, i: nat, userId: string)
    requires IsRun(fold, states, acts) && Sound(fold, states[0]) && g <= i < |states|
    requires userId in states[g].world.store.users
    requires forall j :: g <= j < i ==> !Touches(states[j], acts[j], userId)
    ensures userId in states[i].world.store.users
    ensures states[i].world.store.users[userId] == states[g].world.store.users[userId]
  {
    forall j | g <= j < i ensures SameAt(states, j, userId) {
      if userId in states[j].world.store.users { UntouchedAt(fold, states, acts, j, userId); }
    }
    SameChain(states, g, i, userId);
  }

  lemma UntouchedAt(fold: CaseFold, states: seq<Sys>, acts: seq<Action>, j: nat, userId: string)
    requires IsRun(fold, states, acts) && Sound(fold, states[0]) && j < |acts|
    requires userId in states[j].world.store.users && !Touches(states[j], acts[j], userId)
    ensures SameOf(states[j].world, states[j + 1].world, userId)
  {
    RunKeepsSound(fold, states, acts, j);
    var s, a := states[j], acts[j];
    assert Goes(fold, states, acts, j);
    UntouchedStays(fold, s, a, userId);
  }

  /** The user a grant remembers might have been shown when it began, or was stored at some moment inside
      the call. */
  lemma SnapshotSeenAt(fold: CaseFold, states: seq<Sys>, acts: seq<Action>, cid: nat, b: nat, i: nat)
    returns (was: bool, g: nat)
    requires IsRun(fold, states, acts) && Sound(fold, states[0]) && b < i < |states|
    requires acts[b].Begin? && acts[b].cid == cid && acts[b].op.Grant? && OwnKey(states[b], acts[b].op.principal.id)
    requires cid in states[i].calls && states[i].calls[cid].pc.Fetched?
    ensures was ==> b + 1 < i && MayShow(states[b], acts[b].op.principal.id, states[i].calls[cid].pc.current)
    ensures !was ==> b < g < i && Stores(states[g], acts[b].op.principal.id, states[i].calls[cid].pc.current)
  {
    var j := LastStepAt(fold, states, acts, cid, b, i);
    FetchedFrom(fold, states, acts, cid, j);
    was, g := ReadIsRecent(fold, states, acts, cid, b, j);
  }

  lemma FetchedFrom(fold: CaseFold, states: seq<Sys>, acts: seq<Action>, cid: nat, j: nat)
    requires IsRun(fold, states, acts) && Sound(fold, states[0]) && j < |acts| && Owns(states[j], acts[j], cid)
    requires states[j].calls[cid].op.Grant? && cid in states[j + 1].calls && states[j + 1].calls[cid].pc.Fetched?
    ensures states[j].calls[cid].pc == Reading(UserReply(OK, Some(states[j + 1].calls[cid].pc.current)))
  {
    RunKeepsSound(fold, states, acts, j);
    var s, a := states[j], acts[j];
    assert Goes(fold, states, acts, j);
    RemembersWhatItRead(fold, s, a);
  }

  /** A grant that begins now may be shown a role to be replaced that the user does not hold. */
  ghost predicate ReplaceMisled(s: Sys, id: string, role: string) {
    id in s.world.store.users
    && exists u :: MayShow(s, id, u) && KnownRole(u.Role()) && u.Role() !in {role, s.world.store.users[id].Role()}
  }

  /** A user that has been issued and is not stored never is again. */
  lemma {:induction false} AbsentLater(fold: CaseFold, states: seq<Sys>, acts: seq<Action>, id: string, i: nat, j: nat)
    requires IsRun(fold, states, acts) && i <= j < |states|
    requires id in states[i].world.issued && id !in states[i].world.store.users
    ensures id in states[j].world.issued && id !in states[j].world.store.users
    decreases j
  {
    if i < j {
      AbsentLater(fold, states, acts, id, i, j - 1);
      AbsentAt(fold, states, acts, id, j - 1);
    }
  }

  lemma AbsentAt(fold: CaseFold, states: seq<Sys>, acts: seq<Action>, id: string, j: nat)
    requires IsRun(fold, states, acts) && j < |acts|
    requires id in states[j].world.issued && id !in states[j].world.store.users
    ensures id in states[j + 1].world.issued && id !in states[j + 1].world.store.users
  {
    var s, a := states[j], acts[j];
    assert Goes(fold, states, acts, j);
    ActIsServe(fold, s, a);
  }

  lemma ShownIsIssued(fold: CaseFold, s: Sys, id: string, u: User)
    requires Sound(fold, s) && MayShow(s, id, u)
    ensures CacheKey(id) in s.world.issued
  {
    if Lookup(s.cache, CacheKey(id)) != Some(u) {
      var cid :| cid in s.calls && AboutKey(s.calls[cid], CacheKey(id)) && s.calls[cid].pc == Reading(UserReply(OK, Some(u)));
      assert Expects(s, s.calls[cid]);
    }
  }

  /** A grant that was not misled about it when it began, answered with GrantReplaced(r): r was the user's
      role at some moment g inside the call, and it wrote at step i. If nothing wrote or removed the user
      from g to i, r is the role the write replaced. */
  lemma ReplacedIsOverwritten(fold: CaseFold, states: seq<Sys>, acts: seq<Action>, cid: nat, b: nat, e: nat)
    returns (g: nat, i: nat)
    requires IsRun(fold, states, acts) && Sound(fold, states[0]) && b < e < |states|
    requires acts[b].Begin? && acts[b].cid == cid && acts[b].op.Grant? && OwnKey(states[b], acts[b].op.principal.id)
    requires !ReplaceMisled(states[b], acts[b].op.principal.id, acts[b].op.role)
    requires cid in states[e].calls && states[e].calls[cid].pc.Done? && states[e].calls[cid].pc.result.GrantReplaced?
    ensures b < g < i < e && Owns(states[i], acts[i], cid) && states[i].calls[cid].pc.Fetched?
    ensures var id := acts[b].op.principal.id;
            var previous := states[e].calls[cid].pc.result.previous;
            && Holds(states[g], id, previous)
            && ((forall j :: g <= j < i ==> !Touches(states[j], acts[j], id)) ==> Holds(states[i], id, previous))
            && Holds(states[i + 1], id, acts[b].op.role)
  {
    var id := acts[b].op.principal.id;
    i := LastStepAt(fold, states, acts, cid, b, e);
    ReplacedAt(fold, states, acts, cid, i);
    GrantEndsAt(fold, states, acts, cid, i);
    var was;
    was, g := SnapshotSeenAt(fold, states, acts, cid, b, i);
    if was {
      g := b + 1;
      OldSnapshotIsTrue(fold, states, acts, b, i, id, states[i].calls[cid].pc.current);
    }
    if forall j :: g <= j < i ==> !Touches(states[j], acts[j], id) {
      UntouchedBetween(fold, states, acts, g, i, id);
    }
  }

  /** A user that could be shown at the beginning, and differs from the target, holds the role it shows,
      if the user is still there to be written. */
  lemma OldSnapshotIsTrue(fold: CaseFold, states: seq<Sys>, acts: seq<Action>, b: nat, i: nat, id: string, u: User)
    requires IsRun(fold, states, acts) && Sound(fold, states[0]) && b < i < |states|
    requires acts[b].Begin? && acts[b].op.Grant? && acts[b].op.principal.id == id && OwnKey(states[b], id)
    requires !ReplaceMisled(states[b], id, acts[b].op.role) && MayShow(states[b], id, u)
    requires KnownRole(u.Role()) && u.Role() != acts[b].op.role && id in states[i].world.store.users
    ensures Holds(states[b + 1], id, u.Role())
  {
    RunKeepsSound(fold, states, acts, b);
    ShownIsIssued(fold, states[b], id, u);
    BeginKeepsWorld(fold, states, acts, b);
    if id !in states[b].world.store.users {
      AbsentLater(fold, states, acts, id, b, i);
      assert false;
    }
  }

  lemma ReplacedAt(fold: CaseFold, states: seq<Sys>, acts: seq<Action>, cid: nat, i: nat)
    requires IsRun(fold, states, acts) && Sound(fold, states[0]) && i < |acts| && Owns(states[i], acts[i], cid)
    requires states[i].calls[cid].op.Grant? && cid in states[i + 1].calls
    requires states[i + 1].calls[cid].pc.Done? && states[i + 1].calls[cid].pc.result.GrantReplaced?
    ensures states[i].calls[cid].pc.Fetched?
    ensures var c := states[i].calls[cid];
            && states[i + 1].calls[cid].pc.result.previous == c.pc.current.Role()
            && KnownRole(c.pc.current.Role()) && c.pc.current.Role() != c.op.role
            && c.op.principal.id in states[i].world.store.users
  {
    RunKeepsSound(fold, states, acts, i);
    var s, a := states[i], acts[i];
    assert Goes(fold, states, acts, i) && WellPlaced(s.calls[cid]);
    ReplacedNamesSnapshot(fold, s, a);
    SupportedIsKnown(s.calls[cid].pc.current.Role());
  }

  /** A run from s that begins with this grant, which by state e has returned GrantReplaced. */
  ghost predicate Replaces(fold: CaseFold, s: Sys, cid: nat, op: Op, states: seq<Sys>, acts: seq<Action>, e: nat) {
    Succeeds(fold, s, cid, op, states, acts, e) && states[e].calls[cid].pc.result.GrantReplaced?
  }

  /** The user held the role that it names at some moment before the call wrote. */
  ghost predicate HeldBeforeWrite(states: seq<Sys>, acts: seq<Action>, e: nat, cid: nat, id: string, previous: string) {
    exists g, i :: 0 < g < i < e && i < |states| && i < |acts|
                   && WritesAt(states[i], acts[i], cid) && Holds(states[g], id, previous)
  }

  predicate WritesAt(s: Sys, a: Action, cid: nat) {
    Owns(s, a, cid) && s.calls[cid].pc.Fetched?
  }

  /** When exactly every grant that begins now names a role that the user held inside the call. */
  lemma ReplacedIsHeldExactlyWhen(fold: CaseFold, s: Sys, cid: nat, id: string, role: string)
    requires Sound(fold, s) && cid !in s.calls && OwnKey(s, id) && KnownRole(role)
    ensures (forall states: seq<Sys>, acts: seq<Action>, e: nat ::
               Replaces(fold, s, cid, Op.Grant(OnUser(id), role), states, acts, e) ==>
               HeldBeforeWrite(states, acts, e, cid, id, states[e].calls[cid].pc.result.previous))
            <==> !ReplaceMisled(s, id, role)
  {
    var op := Op.Grant(OnUser(id), role);
    if ReplaceMisled(s, id, role) {
      var u :| MayShow(s, id, u) && KnownRole(u.Role()) && u.Role() !in {role, s.world.store.users[id].Role()};
      var states, acts := MisledReplaceRun(fold, s, cid, id, role, u);
      assert Replaces(fold, s, cid, op, states, acts, |acts|);
      assert !HeldBeforeWrite(states, acts, |acts|, cid, id, u.Role());
    } else {
      forall states: seq<Sys>, acts: seq<Action>, e: nat | Replaces(fold, s, cid, op, states, acts, e)
        ensures HeldBeforeWrite(states, acts, e, cid, id, states[e].calls[cid].pc.result.previous)
      {
        var g, i := ReplacedIsOverwritten(fold, states, acts, cid, 0, e);
        assert WritesAt(states[i], acts[i], cid);
      }
    }
  }

  lemma MisledReplaceRun(fold: CaseFold, s: Sys, cid: nat, id: string, role: string, u: User)
    returns (states: seq<Sys>, acts: seq<Action>)
    requires Sound(fold, s) && cid !in s.calls && MayShow(s, id, u) && id in s.world.store.users
    requires KnownRole(role) && KnownRole(u.Role()) && u.Role() != role
    ensures IsRun(fold, states, acts) && states[0] == s && acts != [] && acts[0] == Begin(cid, Op.Grant(OnUser(id), role))
    ensures forall m :: 0 <= m < |acts| ==> states[m].world == s.world
    ensures cid in states[|acts|].calls
    ensures states[|acts|].calls[cid].pc == Done(GrantReplaced(u.Role()))
  {
    SupportedIsKnown(role);
    SupportedIsKnown(u.Role());
    var xs, as1 := MisledRun(fold, s, cid, Op.Grant(OnUser(id), role), id, u);
    var s1, step := xs[|as1|], Step(cid, Answered, "");
    var s2 := Act(fold, s1, step);
    assert s2.calls[cid].pc == Done(GrantReplaced(u.Role()));
    assert IsRun(fold, [s1, s2], [step]);
    RunsJoin(fold, xs, as1, [s1, s2], [step]);
    states, acts := xs + [s1, s2][1..], as1 + [step];
    assert states[|acts|] == [s1, s2][1];
  }

  /** GrantReplaced comes from the last step of a grant, and names the role of the user it remembers. */
  lemma ReplacedNamesSnapshot(fold: CaseFold, s: Sys, a: Action)
    requires CanAct(s, a) && a.Step? && s.calls[a.cid].op.Grant?
    requires Act(fold, s, a).calls[a.cid].pc.Done? && Act(fold, s, a).calls[a.cid].pc.result.GrantReplaced?
    requires !s.calls[a.cid].pc.Done?
    ensures s.calls[a.cid].pc.Fetched?
    ensures Act(fold, s, a).calls[a.cid].pc.result.previous == s.calls[a.cid].pc.current.Role()
  {
  }

  // ---------- How a call comes to be misled ----------

  /** A grant that asks the server, every message answered, on a user that holds another role. */
  lemma GrantRuns(fold: CaseFold, s: Sys, cid: nat, id: string, role: string)
    returns (states: seq<Sys>, acts: seq<Action>)
    requires cid !in s.calls && KnownRole(role) && id in s.world.store.users
    requires Lookup(s.cache, CacheKey(id)).None? && s.world.store.users[id].Role() != role
    ensures IsRun(fold, states, acts) && |states| == 5 && states[0] == s
    ensures |acts| == 4 && Holds(states[4], id, role)
    ensures states[4].calls.Keys == s.calls.Keys + {cid}
    ensures states[4].cache == Stored(s.cache, CacheKey(id), s.world.store.users[id])
  {
    SupportedIsKnown(role);
    var step := Step(cid, Answered, "");
    acts := [Begin(cid, Op.Grant(Principal("user", id), role)), step, step, step];
    var s1 := Act(fold, s, acts[0]);
    var s2 := Act(fold, s1, step);
    assert s2.calls[cid].pc == Reading(UserReply(OK, Some(s.world.store.users[id])));
    var s3 := Act(fold, s2, step);
    assert s3.calls[cid].pc == Fetched(s.world.store.users[id]);
    states := [s, s1, s2, s3, Act(fold, s3, step)];
  }

  /** A grant whose read hits an entry with the target role. */
  lemma GrantHits(fold: CaseFold, s: Sys, cid: nat, id: string, role: string) returns (states: seq<Sys>, acts: seq<Action>)
    requires cid !in s.calls && KnownRole(role)
    requires Lookup(s.cache, CacheKey(id)).Some? && Lookup(s.cache, CacheKey(id)).value.Role() == role
    ensures IsRun(fold, states, acts) && |states| == 4 && |acts| == 3 && states[0] == s
    ensures acts[0] == Begin(cid, Op.Grant(Principal("user", id), role))
    ensures cid in states[3].calls && states[3].calls[cid].pc == Done(GrantAlreadyExists)
    ensures states[1].world == states[2].world == states[3].world == s.world
  {
    SupportedIsKnown(role);
    var begin := Begin(cid, Op.Grant(Principal("user", id), role));
    var s1 := Act(fold, s, begin);
    var zs, as2 := HitRuns(fold, s1, cid, id, Lookup(s.cache, CacheKey(id)).value);
    assert IsRun(fold, [s, s1], [begin]);
    RunsJoin(fold, [s, s1], [begin], zs, as2);
    states, acts := [s, s1] + zs[1..], [begin] + as2;
    assert states[3] == zs[2] && states[2] == zs[1];
  }

  /** Two grants one after the other, every message answered, on a user with a known role: the second
      trusts what the first has read, and reports a role that the user holds at no moment of the call. */
  lemma StaleGrantHasNoMoment(fold: CaseFold, s: Sys, id: string, role: string)
    returns (states: seq<Sys>, acts: seq<Action>)
    requires s.calls == map[] && s.cache.Memory? && Lookup(s.cache, CacheKey(id)).None?
    requires id in s.world.store.users && KnownRole(s.world.store.users[id].Role())
    requires KnownRole(role) && s.world.store.users[id].Role() != role
    ensures IsRun(fold, states, acts) && |states| == 8 && states[0] == s
    ensures acts[4] == Begin(1, Op.Grant(Principal("user", id), s.world.store.users[id].Role()))
    ensures 1 in states[7].calls && states[7].calls[1].pc == Done(GrantAlreadyExists)
    ensures forall m :: 4 <= m < 8 ==> Holds(states[m], id, role)
  {
    var held := s.world.store.users[id].Role();
    var xs, as1 := GrantRuns(fold, s, 0, id, role);
    var ys, as2 := GrantHits(fold, xs[4], 1, id, held);
    RunsJoin(fold, xs, as1, ys, as2);
    states, acts := xs + ys[1..], as1 + as2;
    assert states[4] == ys[0] && states[5] == ys[1] && states[6] == ys[2] && states[7] == ys[3];
  }

  /** A grant whose reply is on its way while another client writes the user. */
  lemma ReplyOvertaken(fold: CaseFold, s: Sys, id: string, role: string)
    returns (states: seq<Sys>, acts: seq<Action>)
    requires s.calls == map[] && Lookup(s.cache, CacheKey(id)).None?
    requires id in s.world.store.users && KnownRole(role) && KnownRole(s.world.store.users[id].Role())
    ensures IsRun(fold, states, acts) && |states| == 4 && |acts| == 3 && states[0] == s
    ensures Holds(states[3], id, role) && states[3].cache == s.cache
    ensures states[3].calls == map[0 := Call(Op.Grant(Principal("user", id), s.world.store.users[id].Role()),
                                             Reading(UserReply(OK, Some(s.world.store.users[id]))))]
  {
    var u := s.world.store.users[id];
    SupportedIsKnown(u.Role());
    acts := [Begin(0, Op.Grant(Principal("user", id), u.Role())), Step(0, Answered, ""),
             Env(Request.Patch(id, Some(RolePatch(role)), RolePatchOrders()))];
    var s1 := Act(fold, s, acts[0]);
    var s2 := Act(fold, s1, acts[1]);
    assert s2.calls == map[0 := Call(acts[0].op, Reading(UserReply(OK, Some(u))))];
    OtherClientWrites(fold, s2, id, role);
    states := [s, s1, s2, Act(fold, s2, acts[2])];
  }

  lemma OtherClientWrites(fold: CaseFold, s: Sys, id: string, role: string)
    requires id in s.world.store.users && KnownRole(role)
    ensures var write := Env(Request.Patch(id, Some(RolePatch(role)), RolePatchOrders()));
            && CanAct(s, write)
            && Act(fold, s, write).calls == s.calls && Act(fold, s, write).cache == s.cache
            && Holds(Act(fold, s, write), id, role)
  {
    RolePatchEffect(s.world.store, id, role);
  }

  /** It then comes in after a second grant has begun, which hits it. */
  lemma ReplyComesIn(fold: CaseFold, s: Sys, id: string, u: User) returns (states: seq<Sys>, acts: seq<Action>)
    requires s.calls == map[0 := Call(Op.Grant(Principal("user", id), u.Role()), Reading(UserReply(OK, Some(u))))]
    requires s.cache.Memory? && KnownRole(u.Role())
    ensures IsRun(fold, states, acts) && |states| == 5 && |acts| == 4 && states[0] == s
    ensures acts[0] == Begin(1, Op.Grant(Principal("user", id), u.Role()))
    ensures 1 in states[4].calls && states[4].calls[1].pc == Done(GrantAlreadyExists)
    ensures forall m :: 0 <= m < 5 ==> states[m].world == s.world
  {
    SupportedIsKnown(u.Role());
    var begin := Begin(1, Op.Grant(Principal("user", id), u.Role()));
    var s1 := Act(fold, s, begin);
    var s2 := ReplyIsIn(fold, s1, 0, CacheKey(id), u);
    var zs, as2 := HitRuns(fold, s2, 1, id, u);
    assert IsRun(fold, [s, s1, s2], [begin, Step(0, Answered, "")]);
    RunsJoin(fold, [s, s1, s2], [begin, Step(0, Answered, "")], zs, as2);
    states, acts := [s, s1, s2] + zs[1..], [begin, Step(0, Answered, "")] + as2;
    assert states[3] == zs[1] && states[4] == zs[2];
  }

  /** So an empty cache is not enough while a reply about the user has yet to come in: this grant begins
      with nothing cached, and reports a role that the user holds at no moment of the call. */
  lemma LateReplyHasNoMoment(fold: CaseFold, s: Sys, id: string, role: string)
    returns (states: seq<Sys>, acts: seq<Action>)
    requires s.calls == map[] && s.cache.Memory? && Lookup(s.cache, CacheKey(id)).None?
    requires id in s.world.store.users && KnownRole(s.world.store.users[id].Role())
    requires KnownRole(role) && s.world.store.users[id].Role() != role
    ensures IsRun(fold, states, acts) && |states| == 8 && states[0] == s
    ensures acts[3] == Begin(1, Op.Grant(Principal("user", id), s.world.store.users[id].Role()))
    ensures Lookup(states[3].cache, CacheKey(id)).None?
    ensures 1 in states[7].calls && states[7].calls[1].pc == Done(GrantAlreadyExists)
    ensures forall m :: 3 <= m < 8 ==> Holds(states[m], id, role)
  {
    var xs, as1 := ReplyOvertaken(fold, s, id, role);
    var ys, as2 := ReplyComesIn(fold, xs[3], id, s.world.store.users[id]);
    RunsJoin(fold, xs, as1, ys, as2);
    states, acts := xs + ys[1..], as1 + as2;
    assert states[3] == ys[0] && states[4] == ys[1] && states[5] == ys[2] && states[6] == ys[3] && states[7] == ys[4];
  }
}
