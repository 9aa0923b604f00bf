/**
 Either CleanupLocal of the local lifecycle can be run to its end from any moment
 at which it has not timed out, while everything else stands still.
 */
module Completion {
  import opened Wrappers
  import opened CleanupProtocol
  import opened CleanupTermination
  import S = ShutdownSystem
  import T = ShutdownTheorems

  /** The side's call is in progress and has not taken the timeout. */
  ghost predicate InProgress(s: S.System, side: S.Side) {
    S.SysInv(s) && S.Running(s) && S.CallOf(s, side).caller != Idle && Branch(S.CallOf(s, side).caller) != Some(TimedOut)
  }

  /** The two states differ in the clock, the shared configuration and the side's call alone. */
  predicate OnlyCall(s: S.System, t: S.System, side: S.Side) {
    && t.w.alive == s.w.alive
    && t == if side.MainSide? then s.(mainCall := t.mainCall, w := t.w) else s.(handlerCall := t.handlerCall, w := t.w)
  }

  lemma CallEnabled(t: S.System, side: S.Side) returns (ms: nat, a: Action)
    requires InProgress(t, side) && !S.CallOf(t, side).caller.Returned?
    ensures Enabled(S.CallOf(t, side), t.w, ms, a)
  {
    ms, a := NoDeadlock(S.CallOf(t, side), t.w);
  }

  lemma Later(s: S.System, t: S.System, side: S.Side, ms: nat) returns (u: S.System)
    requires S.Reaches(s, t) && InProgress(t, side)
    ensures S.Reaches(s, u) && InProgress(u, side) && u == t.(w := t.w.(now := t.w.now + ms))
  {
    u := S.TimePasses(s, t, ms);
  }

  lemma NoPanicWithoutTimeout(c: Cleanup)
    requires PanicInv(c) && Branch(c.caller) != Some(TimedOut)
    ensures c.panickedBy.None?
  {
  }

  lemma CallStep(s: S.System, t: S.System, side: S.Side, a: Action) returns (t': S.System)
    requires S.Reaches(s, t) && InProgress(t, side) && Step(S.CallOf(t, side), t.w, a).Some? && a != CallerRuns(false)
    ensures S.Reaches(s, t') && InProgress(t', side) && OnlyCall(t, t', side)
    ensures Rank(S.CallOf(t', side)) < Rank(S.CallOf(t, side))
  {
    t' := S.CallGoesOn(s, t, side, a);
    StepKeepsHistory(S.CallOf(t, side), t.w, a);
    StepDecreasesRank(S.CallOf(t, side), t.w, a);
    BranchNotTimedOut(S.CallOf(t, side), t.w, a);
    NoPanicWithoutTimeout(S.CallOf(t', side));
  }

  /** The call goes on, after some waiting. */
  lemma CallProgress(s: S.System, t: S.System, side: S.Side) returns (t': S.System)
    requires S.Reaches(s, t) && InProgress(t, side) && !S.CallOf(t, side).caller.Returned?
    ensures S.Reaches(s, t') && InProgress(t', side) && OnlyCall(t, t', side)
    ensures Rank(S.CallOf(t', side)) < Rank(S.CallOf(t, side))
  {
    var ms, a := CallEnabled(t, side);
    var u := Later(s, t, side, ms);
    EnabledLater(S.CallOf(t, side), t.w, ms, a, u.w);
    t' := CallStep(s, u, side, a);
  }

  lemma ReturnedIsCompleted(c: Cleanup)
    requires c.caller.Returned? && Branch(c.caller) != Some(TimedOut)
    ensures T.Completed(c)
  {
  }

  /** The call can be run to its end, the other goroutines and the gateways standing still. */
  lemma CompleteCall(s: S.System, t: S.System, side: S.Side) returns (t': S.System)
    requires S.Reaches(s, t) && InProgress(t, side)
    ensures S.Reaches(s, t') && InProgress(t', side) && OnlyCall(t, t', side)
    ensures S.CallOf(t', side).caller.Returned? && T.Completed(S.CallOf(t', side))
    decreases Rank(S.CallOf(t, side))
  {
    if S.CallOf(t, side).caller.Returned? {
      t' := t;
      ReturnedIsCompleted(S.CallOf(t, side));
    } else {
      var u := CallProgress(s, t, side);
      t' := CompleteCall(s, u, side);
    }
  }
}
