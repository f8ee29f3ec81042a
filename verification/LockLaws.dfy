/** What every run of the lock protocol keeps: ownership with no timing assumption,
    and mutual exclusion when holders leave or renew in time. */
module LockLaws {
  import opened Common
  import opened LockProtocol

  ghost predicate Safe(w: World) {
    LocalsTrue(w) && TokensApart(w)
  }

  lemma {:induction false} RunIsSafe(expire: Id -> int, worlds: seq<World>, steps: seq<Step>, k: nat)
    requires IsRun(expire, worlds, steps) && k < |worlds|
    ensures Safe(worlds[k])
  {
    if k > 0 {
      hide TokensApart, LocalsTrue, Apply, Enabled, Initial;
      RunIsSafe(expire, worlds, steps, k - 1);
      StepKeepsLocals(expire, worlds[k - 1], steps[k - 1]);
      StepKeepsTokens(expire, worlds[k - 1], steps[k - 1]);
    }
  }

  /** The instance's lock value is the one stored in the key. */
  ghost predicate OwnsKey(w: World, i: Id) {
    && i in w.locals && w.locals[i].lockValue.Some?
    && Owns(w.key, w.now, w.locals[i].lockValue.value)
  }

  /** In every reachable world at most one instance's value matches the stored key,
      and no step of another instance touches that key. */
  lemma OwnershipIsSafe(expire: Id -> int, worlds: seq<World>, steps: seq<Step>, k: nat, i: Id)
    requires IsRun(expire, worlds, steps) && k < |worlds| && OwnsKey(worlds[k], i)
    ensures forall j :: OwnsKey(worlds[k], j) ==> j == i
    ensures k < |steps| && !steps[k].Tick? && steps[k].i != i ==> worlds[k + 1].key == worlds[k].key
  {
    RunIsSafe(expire, worlds, steps, k);
    var w := worlds[k];
    assert w.key.value.value in Tokens(w.locals[i]);
    if k < |steps| && !steps[k].Tick? && steps[k].i != i {
      assert LocalTrue(w.locals[steps[k].i]);
      StepOnKey(expire, w, steps[k]);
    }
  }

  // ----- Holding the key -----

  /** Since its last successful SET or renewal reached Redis, less than the expiry
      time has passed. */
  predicate InTime(expire: Id -> int, now: int, l: Local, i: Id) {
    now < l.since + expire(i)
  }

  /** A holder in time: locked, or about to learn that it is. */
  predicate Holding(l: Local) {
    l.isLocked || l.reply == Some(Won)
  }

  function HeldValue(l: Local): Option<Token> {
    if l.isLocked then l.lockValue else l.pending
  }

  /** While a holder is in time, the key is its own and lasts at least as long. */
  ghost predicate HolderTrue(expire: Id -> int, w: World, i: Id)
    requires i in w.locals
  {
    var l := w.locals[i];
    && (Holding(l) ==> l.since <= w.now)
    && (Holding(l) && InTime(expire, w.now, l, i) ==>
      && HeldValue(l).Some? && w.key.Some?
      && w.key.value.value == HeldValue(l).value
      && w.key.value.expiry >= l.since + expire(i))
  }

  ghost predicate HoldersTrue(expire: Id -> int, w: World) {
    forall i <- w.locals :: HolderTrue(expire, w, i)
  }

  /** A step of the holder itself keeps what is said of it. */
  lemma OwnStep(expire: Id -> int, w: World, step: Step)
    requires Enabled(w, step) && !step.Tick? && LocalTrue(w.locals[step.i])
    requires HolderTrue(expire, w, step.i)
    ensures step.i in Apply(expire, w, step).locals && HolderTrue(expire, Apply(expire, w, step), step.i)
  {
  }

  /** A step of another instance leaves a holder in time its key. */
  lemma OtherStep(expire: Id -> int, w: World, step: Step, i: Id)
    requires Safe(w) && Enabled(w, step) && !step.Tick? && i in w.locals && i != step.i
    requires HolderTrue(expire, w, i)
    ensures var t := Apply(expire, w, step); i in t.locals && HolderTrue(expire, t, i)
  {
    StepIsLocal(expire, w, step);
    assert LocalTrue(w.locals[step.i]) && LocalTrue(w.locals[i]);
    StepOnKey(expire, w, step);
    hide Apply, Enabled;
    var l := w.locals[i];
    if Holding(l) && InTime(expire, w.now, l, i) {
      assert HeldValue(l).value in Tokens(l);
    }
  }

  lemma StepKeepsHolders(expire: Id -> int, w: World, step: Step)
    requires Safe(w) && HoldersTrue(expire, w) && Enabled(w, step)
    ensures HoldersTrue(expire, Apply(expire, w, step))
  {
    var t := Apply(expire, w, step);
    if step.Tick? {
      forall i <- t.locals
        ensures HolderTrue(expire, t, i)
      {
        assert HolderTrue(expire, w, i);
      }
    } else {
      StepIsLocal(expire, w, step);
      hide HolderTrue, Safe, Apply, Enabled;
      assert LocalTrue(w.locals[step.i]) by {
        SafeLocal(w, step.i);
      }
      OwnStep(expire, w, step);
      forall i <- t.locals
        ensures HolderTrue(expire, t, i)
      {
        if i != step.i {
          OtherStep(expire, w, step, i);
        }
      }
    }
  }

  lemma SafeLocal(w: World, i: Id)
    requires Safe(w) && i in w.locals
    ensures LocalTrue(w.locals[i])
  {
  }

  lemma StartKeepsHolders(expire: Id -> int, w: World)
    requires exists ids :: w == Initial(ids)
    ensures HoldersTrue(expire, w)
  {
  }

  lemma {:induction false} RunKeepsHolders(expire: Id -> int, worlds: seq<World>, steps: seq<Step>, k: nat)
    requires IsRun(expire, worlds, steps) && k < |worlds|
    ensures HoldersTrue(expire, worlds[k])
  {
    if k == 0 {
      StartKeepsHolders(expire, worlds[0]);
    } else {
      hide HoldersTrue, Safe, Apply, Enabled, Initial;
      RunKeepsHolders(expire, worlds, steps, k - 1);
      RunIsSafe(expire, worlds, steps, k - 1);
      StepKeepsHolders(expire, worlds[k - 1], steps[k - 1]);
    }
  }

  // ----- A holder in time -----

  /** A holder's last SET or renewal to reach Redis succeeded. */
  ghost predicate TriedIsSince(w: World) {
    forall i <- w.locals :: Holding(w.locals[i]) ==> w.locals[i].tried == w.locals[i].since
  }

  lemma StepKeepsTried(expire: Id -> int, w: World, step: Step)
    requires LocalsTrue(w) && TriedIsSince(w) && Enabled(w, step)
    ensures TriedIsSince(Apply(expire, w, step))
  {
    if !step.Tick? {
      var t := Apply(expire, w, step);
      StepIsLocal(expire, w, step);
      assert LocalTrue(w.locals[step.i]);
      assert Holding(t.locals[step.i]) ==> t.locals[step.i].tried == t.locals[step.i].since;
      hide Apply, Enabled;
    }
  }

  lemma {:induction false} RunKeepsTried(expire: Id -> int, worlds: seq<World>, steps: seq<Step>, k: nat)
    requires IsRun(expire, worlds, steps) && k < |worlds|
    ensures TriedIsSince(worlds[k])
  {
    if k > 0 {
      hide TriedIsSince, LocalsTrue, TokensApart, Apply, Enabled, Initial;
      RunKeepsTried(expire, worlds, steps, k - 1);
      RunIsSafe(expire, worlds, steps, k - 1);
      StepKeepsTried(expire, worlds[k - 1], steps[k - 1]);
    }
  }

  /** Who has the lock owns the key until its expiry time has passed since its last SET or
      renewal reached Redis, whatever the other instances do. */
  lemma HolderInTimeOwns(expire: Id -> int, worlds: seq<World>, steps: seq<Step>, k: nat, i: Id)
    requires IsRun(expire, worlds, steps) && k < |worlds|
    requires i in worlds[k].locals && worlds[k].locals[i].isLocked
    requires worlds[k].now < worlds[k].locals[i].tried + expire(i)
    ensures OwnsKey(worlds[k], i)
  {
    RunIsSafe(expire, worlds, steps, k);
    RunKeepsHolders(expire, worlds, steps, k);
    RunKeepsTried(expire, worlds, steps, k);
    hide IsRun;
    var w := worlds[k];
    assert HolderTrue(expire, w, i) && LocalTrue(w.locals[i]);
  }

  // ----- Mutual exclusion -----

  /** Every instance in its section has sent Redis a SET or a renewal, without an
      error, less than its expiry time ago. An instance that leaves before last
      success plus expiry meets this, and so does one whose watchdog renewals reach
      Redis less than the expiry time apart. */
  ghost predicate Punctual(expire: Id -> int, w: World) {
    forall i <- w.locals :: w.locals[i].inside ==> w.now < w.locals[i].tried + expire(i)
  }

  /** Every renewal of an instance in its section has succeeded. */
  ghost predicate Renewed(w: World) {
    forall i <- w.locals :: (Holding(w.locals[i]) ==> w.locals[i].tried == w.locals[i].since)
                         && (w.locals[i].inside ==> w.locals[i].isLocked)
  }

  lemma StepKeepsRenewed(expire: Id -> int, w: World, step: Step)
    requires Safe(w) && HoldersTrue(expire, w) && Punctual(expire, w)
    requires Renewed(w) && Enabled(w, step)
    ensures Renewed(Apply(expire, w, step))
  {
    var t := Apply(expire, w, step);
    if !step.Tick? {
      var i := step.i;
      SafeLocal(w, i);
      StepIsLocal(expire, w, step);
      assert HolderTrue(expire, w, i);
      OwnRenewed(expire, w, step);
      hide Apply, Safe, HolderTrue;
    }
  }

  lemma OwnRenewed(expire: Id -> int, w: World, step: Step)
    requires Enabled(w, step) && !step.Tick? && LocalTrue(w.locals[step.i]) && HolderTrue(expire, w, step.i)
    requires var l := w.locals[step.i];
             && (l.inside ==> w.now < l.tried + expire(step.i) && l.isLocked)
             && (Holding(l) ==> l.tried == l.since)
    ensures var t, i := Apply(expire, w, step), step.i;
            && i in t.locals
            && (Holding(t.locals[i]) ==> t.locals[i].tried == t.locals[i].since)
            && (t.locals[i].inside ==> t.locals[i].isLocked)
  {
  }

  lemma {:induction false} RunKeepsRenewed(expire: Id -> int, worlds: seq<World>, steps: seq<Step>, k: nat)
    requires IsRun(expire, worlds, steps) && k < |worlds|
    requires forall m :: 0 <= m < k ==> Punctual(expire, worlds[m])
    ensures Renewed(worlds[k])
  {
    if k > 0 {
      hide HoldersTrue, Safe, Apply, Enabled, Renewed, Punctual, Initial;
      RunKeepsRenewed(expire, worlds, steps, k - 1);
      RunIsSafe(expire, worlds, steps, k - 1);
      RunKeepsHolders(expire, worlds, steps, k - 1);
      StepKeepsRenewed(expire, worlds[k - 1], steps[k - 1]);
    }
  }

  /** In a punctual run no two instances are ever in their sections together, no
      renewal inside a section finds the lock lost, and who is inside owns the key. */
  lemma MutualExclusion(expire: Id -> int, worlds: seq<World>, steps: seq<Step>, k: nat, i: Id, j: Id)
    requires IsRun(expire, worlds, steps) && k < |worlds|
    requires forall m :: 0 <= m <= k ==> Punctual(expire, worlds[m])
    requires i in worlds[k].locals && worlds[k].locals[i].inside
    requires j in worlds[k].locals && worlds[k].locals[j].inside
    ensures i == j && worlds[k].locals[i].isLocked && OwnsKey(worlds[k], i)
  {
    var w := worlds[k];
    RunKeepsRenewed(expire, worlds, steps, k);
    RunKeepsHolders(expire, worlds, steps, k);
    RunIsSafe(expire, worlds, steps, k);
    assert HolderTrue(expire, w, i) && HolderTrue(expire, w, j);
    assert LocalTrue(w.locals[i]) && LocalTrue(w.locals[j]);
    assert w.key.value.value in Tokens(w.locals[i]) && w.key.value.value in Tokens(w.locals[j]);
  }

  // ----- Expiry -----

  /** The key does not outlast the expiry time of who last set or renewed it. */
  ghost predicate Stamped(expire: Id -> int, w: World) {
    w.key.Some? ==> w.key.value.expiry == w.stamp + expire(w.setter)
  }

  lemma {:induction false} RunIsStamped(expire: Id -> int, worlds: seq<World>, steps: seq<Step>, k: nat)
    requires IsRun(expire, worlds, steps) && k < |worlds|
    ensures Stamped(expire, worlds[k])
  {
    if k > 0 {
      RunIsStamped(expire, worlds, steps, k - 1);
    }
  }

  /** The step wrote the key anew. */
  predicate Writes(w: World, t: World) {
    t.stamp != w.stamp || t.setter != w.setter
  }

  lemma {:induction false} StampStays(worlds: seq<World>, k: nat, m: nat)
    requires k <= m < |worlds|
    requires forall n :: k <= n < m ==> !Writes(worlds[n], worlds[n + 1])
    ensures worlds[m].stamp == worlds[k].stamp && worlds[m].setter == worlds[k].setter
    decreases m - k
  {
    if k < m {
      StampStays(worlds, k, m - 1);
      assert !Writes(worlds[m - 1], worlds[m]);
    }
  }

  /** A key that nobody sets or renews is free again once the expiry time of its
      setter has passed, whatever the holder did: the next SET wins. */
  lemma UnrenewedKeyIsFree(expire: Id -> int, worlds: seq<World>, steps: seq<Step>, k: nat, m: nat, j: Id)
    requires IsRun(expire, worlds, steps) && k <= m < |worlds|
    requires forall n :: k <= n < m ==> !Writes(worlds[n], worlds[n + 1])
    requires worlds[m].now >= worlds[k].stamp + expire(worlds[k].setter)
    ensures !Live(worlds[m].key, worlds[m].now)
    ensures Enabled(worlds[m], SetExec(j)) ==> Apply(expire, worlds[m], SetExec(j)).locals[j].reply == Some(Won)
  {
    RunIsStamped(expire, worlds, steps, m);
    StampStays(worlds, k, m);
  }

  // ----- A free key can be taken -----

  lemma RunSnoc(expire: Id -> int, worlds: seq<World>, steps: seq<Step>, step: Step)
    requires IsRun(expire, worlds, steps) && Enabled(Last(worlds), step)
    ensures IsRun(expire, worlds + [Apply(expire, Last(worlds), step)], steps + [step])
  {
    hide Enabled, Apply, Initial;
    assert (worlds + [Apply(expire, Last(worlds), step)])[0] == worlds[0];
  }

  /** An instance that does nothing yet. */
  predicate Resting(l: Local) {
    !l.isLocked && l.pending.None? && l.reply.None? && !l.inside
  }

  /** What four steps do to the world: a resting instance is in its section. */
  predicate Entered(expire: Id -> int, w: World, t: World, i: Id, v: Token) {
    && i in t.locals && t.locals[i].inside && t.locals == w.locals[i := t.locals[i]]
    && t.now == w.now && t.key == Some(Entry(v, w.now + expire(i))) && t.used == w.used + {v}
  }

  lemma FourSteps(expire: Id -> int, w: World, i: Id, v: Token)
    requires i in w.locals && Resting(w.locals[i]) && v !in w.used && !Live(w.key, w.now)
    ensures Enabled(w, Begin(i, v))
    ensures var w1 := Apply(expire, w, Begin(i, v));
            Enabled(w1, SetExec(i))
    ensures var w1 := Apply(expire, w, Begin(i, v));
            var w2 := Apply(expire, w1, SetExec(i));
            Enabled(w2, GetReply(i))
    ensures var w1 := Apply(expire, w, Begin(i, v));
            var w2 := Apply(expire, w1, SetExec(i));
            var w3 := Apply(expire, w2, GetReply(i));
            Enabled(w3, Enter(i, false)) && Entered(expire, w, Apply(expire, w3, Enter(i, false)), i, v)
  {
  }

  /** From any reachable world whose key is free, a resting instance can get into
      its section. */
  lemma FreeKeyCanBeTaken(expire: Id -> int, worlds: seq<World>, steps: seq<Step>, i: Id, v: Token)
    returns (worlds': seq<World>, steps': seq<Step>)
    requires IsRun(expire, worlds, steps)
    requires var w := Last(worlds); i in w.locals && Resting(w.locals[i]) && v !in w.used && !Live(w.key, w.now)
    ensures IsRun(expire, worlds', steps') && worlds <= worlds' && steps <= steps' && OwnSteps(steps', |steps|, i)
    ensures Entered(expire, Last(worlds), Last(worlds'), i, v)
  {
    FourSteps(expire, Last(worlds), i, v);
    hide Enabled, Apply, IsRun, Entered;
    worlds', steps' := worlds, steps;
    RunSnoc(expire, worlds', steps', Begin(i, v));
    worlds', steps' := worlds' + [Apply(expire, Last(worlds'), Begin(i, v))], steps' + [Begin(i, v)];
    RunSnoc(expire, worlds', steps', SetExec(i));
    worlds', steps' := worlds' + [Apply(expire, Last(worlds'), SetExec(i))], steps' + [SetExec(i)];
    RunSnoc(expire, worlds', steps', GetReply(i));
    worlds', steps' := worlds' + [Apply(expire, Last(worlds'), GetReply(i))], steps' + [GetReply(i)];
    RunSnoc(expire, worlds', steps', Enter(i, false));
    worlds', steps' := worlds' + [Apply(expire, Last(worlds'), Enter(i, false))], steps' + [Enter(i, false)];
  }

  // ----- When exactly a second instance can get inside -----

  /** From n on, all steps are instance j's own; no time passes. */
  ghost predicate OwnSteps(steps: seq<Step>, n: nat, j: Id) {
    forall k :: n <= k < |steps| ==> !steps[k].Tick? && steps[k].i == j
  }

  /** A continuation of the run by steps of j alone that leads to a world in which i and
      j are both in their sections. */
  ghost predicate Joins(expire: Id -> int, worlds: seq<World>, steps: seq<Step>, i: Id, j: Id,
                        worlds': seq<World>, steps': seq<Step>) {
    && IsRun(expire, worlds', steps') && worlds <= worlds' && steps <= steps' && OwnSteps(steps', |steps|, j)
    && i in Last(worlds').locals && Last(worlds').locals[i].inside
    && j in Last(worlds').locals && Last(worlds').locals[j].inside
  }

  ghost predicate CanJoin(expire: Id -> int, worlds: seq<World>, steps: seq<Step>, i: Id, j: Id) {
    exists worlds', steps' :: Joins(expire, worlds, steps, i, j, worlds', steps')
  }

  /** Shut out by the live key of w: key and clock stay, and j has won nothing. */
  ghost predicate ShutOut(w: World, t: World, j: Id) {
    && t.now == w.now && t.key == w.key
    && j in t.locals && !t.locals[j].isLocked && t.locals[j].reply != Some(Won) && !t.locals[j].inside
    && t.locals[j].watchdog.None?
  }

  lemma StepKeepsShutOut(expire: Id -> int, w: World, t: World, step: Step)
    requires Live(w.key, w.now) && Enabled(t, step) && !step.Tick? && ShutOut(w, t, step.i)
    ensures ShutOut(w, Apply(expire, t, step), step.i)
  {
  }

  lemma {:induction false} StaysShutOut(expire: Id -> int, worlds: seq<World>, steps: seq<Step>, n: nat, m: nat, j: Id)
    requires IsRun(expire, worlds, steps) && n <= m < |worlds| && OwnSteps(steps, n, j)
    requires Live(worlds[n].key, worlds[n].now) && ShutOut(worlds[n], worlds[n], j)
    ensures ShutOut(worlds[n], worlds[m], j)
  {
    hide Apply, Enabled, ShutOut, Live;
    if n < m {
      StaysShutOut(expire, worlds, steps, n, m - 1, j);
      StepKeepsShutOut(expire, worlds[n], worlds[m - 1], steps[m - 1]);
    }
  }

  lemma RestingIsShutOut(w: World, j: Id)
    requires Safe(w) && j in w.locals && Resting(w.locals[j])
    ensures ShutOut(w, w, j)
  {
    SafeLocal(w, j);
  }

  lemma {:induction false} FreshToken(used: set<Token>) returns (v: Token)
    ensures v !in used && forall u <- used :: u < v
    decreases used
  {
    if used == {} {
      v := 0;
    } else {
      var u :| u in used;
      var rest := used - {u};
      v := FreshToken(rest);
      v := Max(v, u + 1);
      forall x <- used
        ensures x < v
      {
        assert x == u || x in rest;
      }
    }
  }

  /** In every reachable world with i in its section, a resting instance j can get in
      beside it, at once and by its own steps, exactly when the key is free. */
  lemma OverlapExactlyWhenFree(expire: Id -> int, worlds: seq<World>, steps: seq<Step>, i: Id, j: Id)
    requires IsRun(expire, worlds, steps) && i != j
    requires i in Last(worlds).locals && Last(worlds).locals[i].inside
    requires j in Last(worlds).locals && Resting(Last(worlds).locals[j])
    ensures CanJoin(expire, worlds, steps, i, j) <==> !Live(Last(worlds).key, Last(worlds).now)
  {
    hide Live, OwnSteps, Resting;
    RunLength(expire, worlds, steps);
    hide IsRun;
    if Live(Last(worlds).key, Last(worlds).now) {
      forall worlds', steps'
        ensures !Joins(expire, worlds, steps, i, j, worlds', steps')
      {
        if Joins(expire, worlds, steps, i, j, worlds', steps') {
          LiveKeyShutsOut(expire, worlds, steps, i, j, worlds', steps');
        }
      }
    } else {
      var v := FreshToken(Last(worlds).used);
      var worlds', steps' := FreeKeyCanBeTaken(expire, worlds, steps, j, v);
      assert Joins(expire, worlds, steps, i, j, worlds', steps');
    }
  }

  lemma LiveKeyShutsOut(expire: Id -> int, worlds: seq<World>, steps: seq<Step>, i: Id, j: Id,
                        worlds': seq<World>, steps': seq<Step>)
    requires IsRun(expire, worlds, steps) && j in Last(worlds).locals && Resting(Last(worlds).locals[j])
    requires Live(Last(worlds).key, Last(worlds).now)
    ensures !Joins(expire, worlds, steps, i, j, worlds', steps')
  {
    hide Apply, Enabled, Live, Resting, OwnSteps, Safe;
    if Joins(expire, worlds, steps, i, j, worlds', steps') {
      var n := |steps|;
      assert Last(worlds) == worlds[n] == worlds'[n];
      RunIsSafe(expire, worlds, steps, n);
      RestingIsShutOut(worlds[n], j);
      StaysShutOut(expire, worlds', steps', n, |steps'|, j);
    }
  }

  /** A holder that has let the expiry time of the last SET or renewal pass can be joined
      by every resting instance. */
  lemma OverdueHolderCanBeJoined(expire: Id -> int, worlds: seq<World>, steps: seq<Step>, k: nat, i: Id, j: Id)
    requires IsRun(expire, worlds, steps) && k < |worlds| && i != j
    requires forall n :: k <= n < |steps| ==> !Writes(worlds[n], worlds[n + 1])
    requires Last(worlds).now >= worlds[k].stamp + expire(worlds[k].setter)
    requires i in Last(worlds).locals && Last(worlds).locals[i].inside
    requires j in Last(worlds).locals && Resting(Last(worlds).locals[j])
    ensures CanJoin(expire, worlds, steps, i, j)
  {
    hide IsRun, CanJoin, Resting, Live, Writes;
    assert |worlds| == |steps| + 1 by { RunLength(expire, worlds, steps); }
    UnrenewedKeyIsFree(expire, worlds, steps, k, |steps|, j);
    OverlapExactlyWhenFree(expire, worlds, steps, i, j);
  }

  lemma RunLength(expire: Id -> int, worlds: seq<World>, steps: seq<Step>)
    requires IsRun(expire, worlds, steps)
    ensures |worlds| == |steps| + 1
  {
  }

  /** Without punctuality exclusion fails: an instance that stays past its expiry
      time without renewing can meet the next one in the section. */
  lemma LateHolderOverlaps(expire: Id -> int) returns (worlds: seq<World>, steps: seq<Step>)
    requires expire(0) >= 0
    ensures IsRun(expire, worlds, steps)
    ensures 0 in Last(worlds).locals && Last(worlds).locals[0].inside
    ensures 1 in Last(worlds).locals && Last(worlds).locals[1].inside
  {
    worlds, steps := [Initial({0, 1})], [];
    worlds, steps := FreeKeyCanBeTaken(expire, worlds, steps, 0, 0);
    var late := Tick(expire(0));
    RunSnoc(expire, worlds, steps, late);
    worlds, steps := worlds + [Apply(expire, Last(worlds), late)], steps + [late];
    hide IsRun;
    worlds, steps := FreeKeyCanBeTaken(expire, worlds, steps, 1, 1);
  }
}
