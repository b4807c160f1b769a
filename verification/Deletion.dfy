/** What becomes of deleted accounts, and of the calls that delete them. */
module Deletion {
  import opened Text
  import opened Domain
  import opened Store
  import opened Caching
  import opened Protocol
  import opened Linearization

  // ---------- Deleted accounts ----------

  lemma DeletingRemoves(fold: CaseFold, s: Sys, a: Action)
    requires CanAct(s, a) && a.Step? && s.calls[a.cid].op.DeleteAccount? && s.calls[a.cid].pc.Start?
    requires PastDelete(Act(fold, s, a), a.cid) && s.world.store.users.Keys <= s.world.issued
    ensures a.net == Answered && s.calls[a.cid].op.userId in s.world.store.users
    ensures Gone(Act(fold, s, a).world, s.calls[a.cid].op.userId)
  {
    DeleteEffect(s.world.store, s.calls[a.cid].op.userId);
  }

  lemma GoneStaysGone(fold: CaseFold, s: Sys, a: Action, id: string)
    requires CanAct(s, a) && Gone(s.world, id)
    ensures Gone(Act(fold, s, a).world, id)
  {
    ActIsServe(fold, s, a);
    ServeKeepsGone(fold, s.world, RequestOf(s, a), id);
  }

  lemma {:induction false} GoneLater(fold: CaseFold, states: seq<Sys>, acts: seq<Action>, id: string, i: nat, j: nat)
    requires IsRun(fold, states, acts) && i <= j < |states| && Gone(states[i].world, id)
    ensures Gone(states[j].world, id)
    decreases j
  {
    if i < j {
      GoneLater(fold, states, acts, id, i, j - 1);
      var s, a := states[j - 1], acts[j - 1];
      assert Goes(fold, states, acts, j - 1);
      GoneStaysGone(fold, s, a, id);
    }
  }

  /** The DELETE of this call has been answered with success. */
  predicate PastDelete(s: Sys, cid: nat) {
    && cid in s.calls && s.calls[cid].op.DeleteAccount?
    && (s.calls[cid].pc == Removed || s.calls[cid].pc.Reading? || s.calls[cid].pc == Done(Deleted))
  }

  /** The step at which it was. */
  lemma DeletedAt(fold: CaseFold, states: seq<Sys>, acts: seq<Action>, cid: nat, b: nat, e: nat)
    returns (d: nat)
    requires IsRun(fold, states, acts) && Sound(fold, states[0]) && b < e < |states|
    requires acts[b].Begin? && acts[b].cid == cid && PastDelete(states[e], cid)
    ensures b < d < e && Owns(states[d], acts[d], cid) && states[d].calls[cid].pc.Start?
    ensures acts[d].net == Answered && states[d].calls[cid].op == states[e].calls[cid].op == acts[b].op
    ensures acts[b].op.userId in states[d].world.store.users && Gone(states[d + 1].world, acts[b].op.userId)
    decreases e
  {
    d := LastStepAt(fold, states, acts, cid, b, e);
    PastDeleteAt(fold, states, acts, cid, d);
    if !states[d].calls[cid].pc.Start? {
      d := DeletedAt(fold, states, acts, cid, b, d);
    }
  }

  lemma PastDeleteAt(fold: CaseFold, states: seq<Sys>, acts: seq<Action>, cid: nat, d: nat)
    requires IsRun(fold, states, acts) && Sound(fold, states[0]) && d < |acts| && Owns(states[d], acts[d], cid)
    requires PastDelete(states[d + 1], cid)
    ensures states[d].calls[cid].op.DeleteAccount?
    ensures if states[d].calls[cid].pc.Start? then
              && acts[d].net == Answered && states[d].calls[cid].op.userId in states[d].world.store.users
              && Gone(states[d + 1].world, states[d].calls[cid].op.userId)
            else PastDelete(states[d], cid)
  {
    var s, a := states[d], acts[d];
    assert Goes(fold, states, acts, d);
    RunKeepsSound(fold, states, acts, d);
    PastDeleteStep(fold, s, a);
  }

  /** A delete gets past its DELETE by its first step, which removes the user. */
  lemma PastDeleteStep(fold: CaseFold, s: Sys, a: Action)
    requires Sound(fold, s) && CanAct(s, a) && a.Step? && PastDelete(Act(fold, s, a), a.cid)
    ensures s.calls[a.cid].op.DeleteAccount?
    ensures if s.calls[a.cid].pc.Start? then
              && a.net == Answered && s.calls[a.cid].op.userId in s.world.store.users
              && Gone(Act(fold, s, a).world, s.calls[a.cid].op.userId)
            else PastDelete(s, a.cid)
  {
    if s.calls[a.cid].pc.Start? { DeletingRemoves(fold, s, a); } else { StillPastDelete(fold, s, a); }
  }

  lemma StillPastDelete(fold: CaseFold, s: Sys, a: Action)
    requires Sound(fold, s) && CanAct(s, a) && a.Step? && PastDelete(Act(fold, s, a), a.cid)
    requires !s.calls[a.cid].pc.Start?
    ensures PastDelete(s, a.cid)
  {
    assert WellPlaced(s.calls[a.cid]);
  }

  /** In every state of every run: an account whose delete call has got past its DELETE is gone from
      the users and from every group, and stays gone in all later states, whatever else runs. */
  lemma DeletedStaysGone(fold: CaseFold, states: seq<Sys>, acts: seq<Action>, cid: nat, b: nat, e: nat, later: nat)
    requires IsRun(fold, states, acts) && Sound(fold, states[0]) && b < e <= later < |states|
    requires acts[b].Begin? && acts[b].cid == cid && PastDelete(states[e], cid)
    ensures Gone(states[later].world, states[e].calls[cid].op.userId)
  {
    var d := DeletedAt(fold, states, acts, cid, b, e);
    GoneLater(fold, states, acts, acts[b].op.userId, d + 1, later);
  }

  /** What the confirming read makes of it, whatever was created in between: it is told not-found exactly
      when it goes to the server and is answered, and that the user still exists exactly when it hits. */
  lemma ConfirmIsNotFooled(fold: CaseFold, states: seq<Sys>, acts: seq<Action>, cid: nat, b: nat, e: nat, net: Net)
    requires IsRun(fold, states, acts) && Sound(fold, states[0]) && b < e < |states|
    requires acts[b].Begin? && acts[b].cid == cid && acts[b].op.DeleteAccount?
    requires cid in states[e].calls && states[e].calls[cid].pc == Removed
    ensures CanAct(states[e], Step(cid, net, ""))
    ensures Act(fold, states[e], Step(cid, net, "")).calls[cid].pc
            == match Lookup(states[e].cache, CacheKey(acts[b].op.userId))
               case Some(u) => Reading(UserReply(OK, Some(u)))
               case None => if net == Answered then Reading(UserReply(NotFound, None)) else Done(Failed)
  {
    BegunAs(fold, states, acts, b);
    CallStays(fold, states, acts, cid, b + 1, e);
    DeletedStaysGone(fold, states, acts, cid, b, e, e);
  }

  /** A delete call that is done reported success exactly when its DELETE, at its first step d, was answered
      with success and its confirming read, at step r, was answered, and not by the cache. */
  lemma DeleteSucceedsExactlyWhen(fold: CaseFold, states: seq<Sys>, acts: seq<Action>, cid: nat, b: nat, e: nat)
    returns (d: nat, r: nat)
    requires IsRun(fold, states, acts) && Sound(fold, states[0]) && b < e < |states|
    requires acts[b].Begin? && acts[b].cid == cid && acts[b].op.DeleteAccount?
    requires cid in states[e].calls && states[e].calls[cid].pc.Done?
    ensures b < d <= r < e && Owns(states[d], acts[d], cid) && Owns(states[r], acts[r], cid)
    ensures states[d].calls[cid].pc.Start? && (d < r ==> states[r].calls[cid].pc == Removed)
    ensures var id := acts[b].op.userId;
            states[e].calls[cid].pc == Done(Deleted)
            <==> && acts[d].net == Answered && id in states[d].world.store.users
                 && d < r && acts[r].net == Answered && Lookup(states[r].cache, CacheKey(id)).None?
  {
    r := LastStepAt(fold, states, acts, cid, b, e);
    DeleteEndsAt(fold, states, acts, cid, r);
    d := r;
    if states[r].calls[cid].pc == Removed {
      d := DeletedAt(fold, states, acts, cid, b, r);
    } else if states[r].calls[cid].pc.Reading? {
      d, r := ReadingMeansDeleted(fold, states, acts, cid, b, r);
    }
  }

  /** How the last step of a delete ends it. */
  lemma DeleteEndsAt(fold: CaseFold, states: seq<Sys>, acts: seq<Action>, cid: nat, r: nat)
    requires IsRun(fold, states, acts) && Sound(fold, states[0]) && r < |acts| && Owns(states[r], acts[r], cid)
    requires states[r].calls[cid].op.DeleteAccount? && cid in states[r + 1].calls && states[r + 1].calls[cid].pc.Done?
    ensures var pc' := states[r + 1].calls[cid].pc;
            match states[r].calls[cid].pc
            case Start => pc' == Done(Failed)
            case Removed =>
              pc' == Done(Failed) && acts[r].net != Answered
              && Lookup(states[r].cache, CacheKey(states[r].calls[cid].op.userId)).None?
            case Reading(reply) => pc' == Done(if reply.status == NotFound then Deleted else Failed)
            case _ => false
  {
    RunKeepsSound(fold, states, acts, r);
    var s, a := states[r], acts[r];
    assert Goes(fold, states, acts, r) && WellPlaced(s.calls[cid]);
  }

  /** A delete whose confirming read has yet to come in will be told that the user is gone, unless the read
      hit. */
  lemma ReadingMeansDeleted(fold: CaseFold, states: seq<Sys>, acts: seq<Action>, cid: nat, b: nat, i: nat)
    returns (d: nat, r: nat)
    requires IsRun(fold, states, acts) && Sound(fold, states[0]) && b < i < |states|
    requires acts[b].Begin? && acts[b].cid == cid && acts[b].op.DeleteAccount?
    requires cid in states[i].calls && states[i].calls[cid].pc.Reading?
    ensures b < d < r < i && Owns(states[d], acts[d], cid) && Owns(states[r], acts[r], cid)
    ensures states[d].calls[cid].pc.Start? && states[r].calls[cid].pc == Removed
    ensures acts[d].net == Answered && acts[b].op.userId in states[d].world.store.users
    ensures states[i].calls[cid].op == acts[b].op
    ensures match Lookup(states[r].cache, CacheKey(acts[b].op.userId))
            case Some(u) => states[i].calls[cid].pc.reply == UserReply(OK, Some(u))
            case None => acts[r].net == Answered && states[i].calls[cid].pc.reply == UserReply(NotFound, None)
  {
    r := LastStepAt(fold, states, acts, cid, b, i);
    var s, a := states[r], acts[r];
    assert Goes(fold, states, acts, r);
    RunKeepsSound(fold, states, acts, r);
    OnlyRemovedReads(fold, s, a);
    d := DeletedAt(fold, states, acts, cid, b, r);
    ConfirmIsNotFooled(fold, states, acts, cid, b, r, a.net);
    StepIgnoresId(fold, s, cid, a.net, a.newId);
  }

  lemma OnlyRemovedReads(fold: CaseFold, s: Sys, a: Action)
    requires Sound(fold, s) && CanAct(s, a) && a.Step? && s.calls[a.cid].op.DeleteAccount?
    requires Act(fold, s, a).calls[a.cid].pc.Reading?
    ensures s.calls[a.cid].pc == Removed
  {
  }

  /** The drawn ID matters to creates only. */
  lemma StepIgnoresId(fold: CaseFold, s: Sys, cid: nat, net: Net, newId: string)
    requires cid in s.calls && s.calls[cid].op.DeleteAccount? && !s.calls[cid].pc.Done?
    ensures CanAct(s, Step(cid, net, newId)) && CanAct(s, Step(cid, net, ""))
    ensures Act(fold, s, Step(cid, net, newId)) == Act(fold, s, Step(cid, net, ""))
  {
  }

  /** If nothing about the user could be shown when the DELETE was sent, the confirming read cannot hit:
      what other calls put there in the meantime is never the deleted user. */
  lemma ColdDeleteMisses(fold: CaseFold, states: seq<Sys>, acts: seq<Action>, cid: nat, b: nat, d: nat, e: nat)
    requires IsRun(fold, states, acts) && Sound(fold, states[0]) && b < d < e < |states|
    requires acts[b].Begin? && acts[b].cid == cid && acts[b].op.DeleteAccount? && PastDelete(states[e], cid)
    requires Owns(states[d], acts[d], cid) && states[d].calls[cid].pc.Start? && OwnKey(states[d], acts[b].op.userId)
    requires forall u :: !MayShow(states[d], acts[b].op.userId, u)
    ensures Lookup(states[e].cache, CacheKey(acts[b].op.userId)).None?
  {
    var id := acts[b].op.userId;
    BegunAs(fold, states, acts, b);
    CallStays(fold, states, acts, cid, b + 1, d);
    var d' := DeletedAt(fold, states, acts, cid, b, e);
    OneFirstStep(fold, states, acts, cid, d, d');
    NoopStays(fold, states, acts, d, e);
    if Lookup(states[e].cache, CacheKey(id)).Some? {
      var u := Lookup(states[e].cache, CacheKey(id)).value;
      var was, g := ShownSince(fold, states, acts, d + 1, e, id, u);
      if was {
        DeleteShowsNothing(fold, states, acts, cid, d, id, u);
        assert false;
      } else {
        GoneLater(fold, states, acts, id, d + 1, g);
        assert false;
      }
    }
  }

  lemma DeleteShowsNothing(fold: CaseFold, states: seq<Sys>, acts: seq<Action>, cid: nat, d: nat, id: string, u: User)
    requires IsRun(fold, states, acts) && d < |acts| && Owns(states[d], acts[d], cid)
    requires states[d].calls[cid].op.DeleteAccount? && states[d].calls[cid].pc.Start? && MayShow(states[d + 1], id, u)
    ensures MayShow(states[d], id, u)
  {
    var s, a := states[d], acts[d];
    assert Goes(fold, states, acts, d);
    var s' := states[d + 1];
    if Lookup(s.cache, CacheKey(id)) != Some(u) {
      var x :| x in s'.calls && AboutKey(s'.calls[x], CacheKey(id)) && s'.calls[x].pc == Reading(UserReply(OK, Some(u)));
      assert x in s.calls && s.calls[x] == s'.calls[x];
    }
  }

  /** And if something could, the read can be made to hit, every message answered: the user is gone, and
      the call reports that it still exists. */
  lemma ShownDeleteFails(fold: CaseFold, s: Sys, cid: nat, id: string, u: User)
    returns (states: seq<Sys>, acts: seq<Action>)
    requires cid in s.calls && s.calls[cid] == Call(DeleteAccount(id), Start) && id in s.world.store.users
    requires MayShow(s, id, u)
    ensures IsRun(fold, states, acts) && states[0] == s
    ensures forall i :: 0 <= i < |acts| ==> acts[i].Step? && acts[i].net == Answered
    ensures cid in states[|acts|].calls && states[|acts|].calls[cid].pc == Done(Failed)
    ensures id !in states[|acts|].world.store.users
  {
    var step := Step(cid, Answered, "");
    var s1 := Act(fold, s, step);
    assert s1.calls[cid] == Call(DeleteAccount(id), Removed);
    assert MayShow(s1, id, u) by {
      if Lookup(s.cache, CacheKey(id)) != Some(u) {
        var x :| x in s.calls && AboutKey(s.calls[x], CacheKey(id)) && s.calls[x].pc == Reading(UserReply(OK, Some(u)));
        assert x in s1.calls && s1.calls[x] == s.calls[x];
      }
    }
    var ys, as2 := ShownRun(fold, s1, cid, id, u);
    states, acts := RunAfter(fold, s, step, s1, ys, as2);
  }

  lemma OneFirstStep(fold: CaseFold, states: seq<Sys>, acts: seq<Action>, cid: nat, i: nat, j: nat)
    requires IsRun(fold, states, acts) && Sound(fold, states[0]) && i < |acts| && j < |acts|
    requires Owns(states[i], acts[i], cid) && states[i].calls[cid].pc.Start?
    requires Owns(states[j], acts[j], cid) && states[j].calls[cid].pc.Start?
    ensures i == j
  {
    var x, y := if i < j then i else j, if i < j then j else i;
    StepCounts(fold, states, acts, cid, x);
    if x < y { CallStays(fold, states, acts, cid, x + 1, y); }
  }
}
