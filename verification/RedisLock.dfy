/** The lock object: acquiring with retries, releasing, and the watchdog's renewal, against
    a server that other clients use at the same time. Everything it does is a sequence of
    steps of the lock protocol. */
module RedisLock {
  import opened Common
  import opened LockProtocol
  import opened LockLaws

  datatype Answer = Yes | No | Error

  // ----- The steps of one client -----

  predicate Mine(step: Step, i: Id) {
    !step.Tick? && step.i == i
  }

  /** The steps of client i. */
  function Own(steps: seq<Step>, i: Id): seq<Step> {
    if steps == [] then []
    else Own(steps[..|steps| - 1], i) + if Mine(Last(steps), i) then [Last(steps)] else []
  }

  lemma {:induction false} OwnSnoc(steps: seq<Step>, step: Step, i: Id)
    ensures Own(steps + [step], i) == Own(steps, i) + if Mine(step, i) then [step] else []
  {
    assert (steps + [step])[..|steps|] == steps;
  }

  /** n attempts to set the key: each was answered, or its answer was lost, or it never
      reached Redis. */
  predicate Attempts(i: Id, s: seq<Step>, n: nat) {
    if n == 0 then s == []
    else Attempts(i, s, n - 1) || (EndsWithAttempt(i, s) && Attempts(i, s[..|s| - 2], n - 1))
  }

  predicate EndsWithAttempt(i: Id, s: seq<Step>) {
    |s| >= 2 && s[|s| - 2] == SetExec(i) && (Last(s) == GetReply(i) || Last(s) == LoseReply(i))
  }

  /** What an acquire call does: it draws a value and tries; after the attempt that won it
      stops, otherwise it gives up. */
  predicate Acquires(i: Id, v: Token, s: seq<Step>, attempts: nat, locked: bool) {
    && |s| >= 2 && s[0] == Begin(i, v)
    && (if locked then
          |s| >= 3 && attempts > 0 && s[|s| - 2] == SetExec(i) && Last(s) == GetReply(i)
          && Attempts(i, s[1..|s| - 2], attempts - 1)
        else Last(s) == GiveUp(i) && Attempts(i, s[1..|s| - 1], attempts))
  }

  /** What the watchdog of a section does: a renewal an interval, and one more whose answer
      nobody reads if the section ends while it is under way; but nothing after a renewal
      that failed, or that found the lock lost. */
  predicate Watched(i: Id, s: seq<Step>, intervals: nat, underWay: bool, lost: bool) {
    || (&& !lost && |s| == intervals + (if underWay then 1 else 0) && Renews(i, s[..intervals])
        && (underWay ==> FailedRenewal(i, s[intervals])))
    || (&& 0 < |s| <= intervals && Renews(i, s[..|s| - 1])
        && if lost then Last(s) == Renew(i) else FailedRenewal(i, Last(s)))
  }

  predicate FailedRenewal(i: Id, step: Step) {
    step.RenewError? && step.i == i
  }

  predicate Renews(i: Id, s: seq<Step>) {
    forall k :: 0 <= k < |s| ==> s[k] == Renew(i)
  }

  /** A section under the lock from step m to step n. */
  predicate Section(i: Id, s: seq<Step>, m: nat, n: nat, intervals: nat, underWay: bool, lost: bool) {
    && m < n < |s| && s[m] == Enter(i, true) && Watched(i, s[m + 1..n], intervals, underWay, lost) && s[n] == Leave(i)
    && (if lost then |s| == n + 1 else |s| == n + 2 && s[n + 1].Release? && s[n + 1].i == i)
  }

  lemma {:induction false} NoSteps(i: Id)
    ensures Attempts(i, [], 0) && Renews(i, [])
  {
  }

  lemma OneMoreAttempt(i: Id, s: seq<Step>, n: nat, more: seq<Step>)
    requires Attempts(i, s, n)
    requires more == [] || more == [SetExec(i), GetReply(i)] || more == [SetExec(i), LoseReply(i)]
    ensures Attempts(i, s + more, n + 1)
  {
    if more == [] {
      assert s + more == s;
    } else {
      assert (s + more)[..|s + more| - 2] == s;
    }
  }

  /** The Redis server, with all its clients: one world after the other. */
  class Server {
    const expire: Id -> int
    var world: World
    ghost var worlds: seq<World>
    ghost var steps: seq<Step>

    /** What happened is a run of the protocol. */
    ghost predicate Valid()
      reads this
    {
      IsRun(expire, worlds, steps) && worlds != [] && Last(worlds) == world
    }

    constructor (ids: set<Id>, expire: Id -> int)
      ensures Valid() && this.expire == expire && world == Initial(ids) && steps == []
    {
      this.expire := expire;
      world := Initial(ids);
      worlds, steps := [Initial(ids)], [];
    }

    method Take(step: Step)
      requires Valid() && Enabled(world, step)
      modifies this
      ensures Valid() && world == Apply(expire, old(world), step)
      ensures worlds == old(worlds) + [world] && steps == old(steps) + [step]
      ensures forall i :: Own(steps, i) == Own(old(steps), i) + if Mine(step, i) then [step] else []
    {
      hide IsRun, Enabled, Apply, Own;
      RunSnoc(expire, worlds, steps, step);
      forall i
        ensures Own(steps + [step], i) == Own(steps, i) + if Mine(step, i) then [step] else []
      {
        OwnSnoc(steps, step, i);
      }
      world := Apply(expire, world, step);
      worlds, steps := worlds + [world], steps + [step];
    }

    /** Time passes and the clients other than i act. */
    method Elapse(i: Id)
      requires Valid() && i in world.locals
      modifies this
      ensures Valid() && world.now >= old(world.now)
      ensures i in world.locals && world.locals[i] == old(world.locals[i])
      ensures old(worlds) <= worlds && old(steps) <= steps && Own(steps, i) == Own(old(steps), i)
    {
      hide IsRun, Enabled, Apply, Own;
      var n: nat := *;
      while n > 0
        invariant Valid() && world.now >= old(world.now)
        invariant i in world.locals && world.locals[i] == old(world.locals[i])
        invariant old(worlds) <= worlds && old(steps) <= steps && Own(steps, i) == Own(old(steps), i)
      {
        var step: Step := *;
        if Enabled(world, step) && !Mine(step, i) {
          OthersStep(expire, world, step, i);
          Take(step);
        }
        n := n - 1;
      }
    }

    /** SET NX EX; on an error Redis may have run it all the same. */
    method SetNxEx(i: Id, v: Token, expireTime: int) returns (answer: Answer)
      requires Valid() && i in world.locals && expireTime == expire(i)
      requires world.locals[i].pending == Some(v) && world.locals[i].reply.None?
      modifies this
      ensures Valid() && i in world.locals && world.now == old(world.now)
      ensures answer == Yes ==> old(!Live(world.key, world.now)) && world.key == Some(Entry(v, world.now + expireTime))
      ensures answer == No ==> old(Live(world.key, world.now)) && world.key == old(world.key)
      ensures answer == Error ==>
                world.key == old(world.key) || world.key == SetNx(old(world.key), world.now, v, expireTime).0
      ensures var l, l' := old(world.locals[i]), world.locals[i];
              && l'.reply.None? && l'.inside == l.inside
              && (if answer == Yes then l'.lockValue == Some(v) && l'.isLocked && l'.pending.None?
                  else l'.lockValue == l.lockValue && l'.isLocked == l.isLocked && l'.pending == l.pending)
      ensures old(worlds) <= worlds && old(steps) <= steps
      ensures answer != Error ==> Own(steps, i) == Own(old(steps), i) + [SetExec(i), GetReply(i)]
      ensures answer == Error ==>
                Own(steps, i) == Own(old(steps), i) || Own(steps, i) == Own(old(steps), i) + [SetExec(i), LoseReply(i)]
    {
      hide IsRun, Own;
      var failed: bool, applied: bool := *, *;
      if failed && !applied {
        return Error;
      }
      Take(SetExec(i));
      answer := if failed then Error else if world.locals[i].reply == Some(Won) then Yes else No;
      Take(if failed then LoseReply(i) else GetReply(i));
    }

    method EvalRelease(i: Id, v: Token) returns (answer: Answer)
      requires Valid() && i in world.locals
      requires world.locals[i].isLocked && world.locals[i].lockValue == Some(v) && !world.locals[i].inside
      modifies this
      ensures Valid() && i in world.locals && world.now == old(world.now)
      ensures answer == Yes ==> old(Owns(world.key, world.now, v)) && world.key.None?
      ensures answer == No ==> old(!Owns(world.key, world.now, v)) && world.key == old(world.key)
      ensures answer == Error ==>
                world.key == old(world.key) || (old(Owns(world.key, world.now, v)) && world.key.None?)
      ensures world.locals[i] == old(world.locals[i]).(lockValue := None, isLocked := false)
      ensures old(worlds) <= worlds && exists applied :: steps == old(steps) + [Release(i, applied)]
      ensures exists applied :: Own(steps, i) == Own(old(steps), i) + [Release(i, applied)]
    {
      hide IsRun, Own;
      var failed: bool, applied: bool := *, *;
      answer := if failed then Error else if Owns(world.key, world.now, v) then Yes else No;
      Take(Release(i, !failed || applied));
    }

    method EvalRenew(i: Id, v: Token, expireTime: int) returns (answer: Answer)
      requires Valid() && i in world.locals && expireTime == expire(i) && world.locals[i].watchdog == Some(v)
      modifies this
      ensures Valid() && i in world.locals && world.now == old(world.now)
      ensures answer == Yes ==> old(Owns(world.key, world.now, v)) && world.key == Some(Entry(v, world.now + expireTime))
      ensures answer == No ==> old(!Owns(world.key, world.now, v)) && world.key == old(world.key)
      ensures answer == Error ==>
                world.key == old(world.key)
                || (old(Owns(world.key, world.now, v)) && world.key == Some(Entry(v, world.now + expireTime)))
      ensures var l, l' := old(world.locals[i]), world.locals[i];
              && l'.lockValue == l.lockValue && l'.pending == l.pending && l'.reply == l.reply && l'.inside == l.inside
              && l'.isLocked == (l.isLocked && answer != No)
              && l'.watchdog == if answer == Yes then l.watchdog else None
      ensures old(worlds) <= worlds && old(steps) <= steps
      ensures answer != Error ==> steps == old(steps) + [Renew(i)] && Own(steps, i) == Own(old(steps), i) + [Renew(i)]
      ensures answer == Error ==> exists applied :: Own(steps, i) == Own(old(steps), i) + [RenewError(i, applied)]
    {
      hide IsRun, Own;
      var failed: bool, applied: bool := *, *;
      answer := if failed then Error else if Owns(world.key, world.now, v) then Yes else No;
      Take(if failed then RenewError(i, applied) else Renew(i));
    }

    /** A renewal whose answer nobody reads; Redis may have run it all the same. */
    method LoseRenewal(i: Id, v: Token, expireTime: int)
      requires Valid() && i in world.locals && expireTime == expire(i) && world.locals[i].watchdog == Some(v)
      modifies this
      ensures Valid() && i in world.locals && world.now == old(world.now)
      ensures world.key == old(world.key) || world.key == LuaRenew(old(world.key), world.now, v, expireTime).0
      ensures world.locals[i] == old(world.locals[i]).(watchdog := None)
      ensures old(worlds) <= worlds && old(steps) <= steps
      ensures exists applied :: Own(steps, i) == Own(old(steps), i) + [RenewError(i, applied)]
    {
      hide IsRun, Own;
      var applied: bool := *;
      Take(RenewError(i, applied));
    }
  }

  // ----- What the calls perform -----

  lemma SinceThen(before: seq<Step>, was: seq<Step>, now: seq<Step>)
    requires before <= was <= now && |now| == |was| + 1
    ensures now[|before|..] == was[|before|..] + [Last(now)]
  {
  }

  lemma OneMoreRenewal(i: Id, s: seq<Step>)
    requires Renews(i, s)
    ensures Renews(i, s + [Renew(i)])
  {
  }

  /** What the context manager does: it acquires, unless the lock is held, and runs one
      section. */
  ghost predicate Session(i: Id, v: Token, s: seq<Step>, held: bool, intervals: nat, underWay: bool, lost: bool) {
    exists m: nat, n: nat :: Section(i, s, m, n, intervals, underWay, lost)
      && if held then m == 0 else exists attempts: nat :: Acquires(i, v, s[..m], attempts, true)
  }

  lemma SessionSteps(i: Id, v: Token, acquired: seq<Step>, attempts: nat, held: bool, watched: seq<Step>,
                     released: seq<Step>, intervals: nat, underWay: bool, lost: bool)
    requires if held then acquired == [] else Acquires(i, v, acquired, attempts, true)
    requires Watched(i, watched, intervals, underWay, lost)
    requires if lost then released == [] else |released| == 1 && released[0].Release? && released[0].i == i
    ensures Session(i, v, acquired + [Enter(i, true)] + watched + [Leave(i)] + released, held, intervals, underWay, lost)
  {
    hide Acquires, Watched;
    var s := acquired + [Enter(i, true)] + watched + [Leave(i)] + released;
    var m, n := |acquired|, |acquired| + 1 + |watched|;
    assert s[..m] == acquired && s[m + 1..n] == watched;
    assert Section(i, s, m, n, intervals, underWay, lost);
  }

  // ----- Promptness -----

  /** From step start on, client i renews and leaves less than its expiry time after its last
      SET or renewal that reached Redis. */
  ghost predicate AllPrompt(expire: Id -> int, worlds: seq<World>, steps: seq<Step>, i: Id, start: nat) {
    forall k :: start <= k < |steps| && k < |worlds| && (steps[k] == Renew(i) || steps[k] == Leave(i)) ==>
      i in worlds[k].locals && worlds[k].now < worlds[k].locals[i].tried + expire(i)
  }

  lemma PromptLater(expire: Id -> int, worlds: seq<World>, steps: seq<Step>, i: Id, start: nat, later: nat)
    requires start <= later
    ensures AllPrompt(expire, worlds, steps, i, start) ==> AllPrompt(expire, worlds, steps, i, later)
  {
  }

  lemma PromptBefore(expire: Id -> int, worlds: seq<World>, steps: seq<Step>, worlds': seq<World>, steps': seq<Step>,
                     i: Id, start: nat)
    requires worlds <= worlds' && steps <= steps'
    ensures AllPrompt(expire, worlds', steps', i, start) ==> AllPrompt(expire, worlds, steps, i, start)
  {
    if AllPrompt(expire, worlds', steps', i, start) {
      forall k | start <= k < |steps| && k < |worlds| && (steps[k] == Renew(i) || steps[k] == Leave(i))
        ensures i in worlds[k].locals && worlds[k].now < worlds[k].locals[i].tried + expire(i)
      {
        assert steps'[k] == steps[k] && worlds'[k] == worlds[k];
      }
    }
  }

  lemma WatchdogValue(expire: Id -> int, worlds: seq<World>, steps: seq<Step>, i: Id)
    requires IsRun(expire, worlds, steps) && worlds != [] && i in Last(worlds).locals
    requires Last(worlds).locals[i].watchdog.Some?
    ensures Last(worlds).locals[i].lockValue == Last(worlds).locals[i].watchdog
  {
    RunIsSafe(expire, worlds, steps, |worlds| - 1);
    SafeLocal(Last(worlds), i);
  }

  /** A prompt step of a client that has the lock finds the key its own. */
  lemma PromptStepOwns(expire: Id -> int, worlds: seq<World>, steps: seq<Step>, worlds': seq<World>, steps': seq<Step>,
                       i: Id)
    requires IsRun(expire, worlds, steps) && worlds != []
    requires steps' == steps + [Renew(i)] || steps' == steps + [Leave(i)]
    requires worlds <= worlds' && AllPrompt(expire, worlds', steps', i, |steps|)
    requires i in Last(worlds).locals && Last(worlds).locals[i].isLocked
    ensures OwnsKey(Last(worlds), i)
  {
    hide IsRun, OwnsKey;
    RunLength(expire, worlds, steps);
    var k := |steps|;
    assert steps'[k] == Renew(i) || steps'[k] == Leave(i);
    assert worlds'[k] == worlds[k] == Last(worlds);
    HolderInTimeOwns(expire, worlds, steps, k, i);
  }

  ghost predicate AllPunctual(expire: Id -> int, worlds: seq<World>) {
    forall k :: 0 <= k < |worlds| ==> Punctual(expire, worlds[k])
  }

  lemma AllPunctualBefore(expire: Id -> int, worlds: seq<World>, later: seq<World>)
    requires worlds <= later && AllPunctual(expire, later)
    ensures AllPunctual(expire, worlds)
  {
    hide Punctual;
  }

  /** In a punctual run who is in its section still has the lock. */
  lemma PunctualHolder(expire: Id -> int, worlds: seq<World>, steps: seq<Step>, i: Id)
    requires IsRun(expire, worlds, steps) && worlds != [] && AllPunctual(expire, worlds)
    requires i in Last(worlds).locals && Last(worlds).locals[i].inside
    ensures Last(worlds).locals[i].isLocked
  {
    hide IsRun, Punctual;
    RunKeepsRenewed(expire, worlds, steps, |worlds| - 1);
  }

  lemma OthersStep(expire: Id -> int, w: World, step: Step, i: Id)
    requires Enabled(w, step) && !Mine(step, i) && i in w.locals
    ensures var t := Apply(expire, w, step); t.now >= w.now && i in t.locals && t.locals[i] == w.locals[i]
  {
  }

  class RedisLock {
    const server: Server
    const id: Id
    const expireTime: int
    const retryTimes: int
    const retryDelay: real
    var lockValue: Option<Token>
    var isLocked: bool

    /** The fields are those of this client in the server's world. */
    ghost predicate Valid()
      reads this, server
    {
      && server.Valid() && expireTime == server.expire(id) && id in server.world.locals
      && var l := server.world.locals[id];
         l.lockValue == lockValue && l.isLocked == isLocked && l.pending.None? && l.reply.None?
    }

    /** No section of this lock is under way. */
    ghost predicate Resting()
      requires Valid()
      reads this, server
    {
      !server.world.locals[id].inside
    }

    /** A section is under way, and its watchdog renews the value. */
    ghost predicate Watching(value: Token)
      requires Valid()
      reads this, server
    {
      server.world.locals[id].inside && server.world.locals[id].watchdog == Some(value)
    }

    constructor (server: Server, id: Id, expireTime: int, retryTimes: int, retryDelay: real)
      requires server.Valid() && id in server.world.locals && server.world.locals[id] == Idle()
      requires expireTime == server.expire(id)
      ensures this.server == server && this.id == id && this.expireTime == expireTime
      ensures this.retryTimes == retryTimes && this.retryDelay == retryDelay
      ensures lockValue.None? && !isLocked
      ensures Valid() && Resting()
    {
      this.server, this.id, this.expireTime := server, id, expireTime;
      this.retryTimes, this.retryDelay := retryTimes, retryDelay;
      lockValue, isLocked := None, false;
    }

    /** The steps of this client so far. */
    ghost function Performed(): seq<Step>
      reads server
    {
      Own(server.steps, id)
    }

    /** Since the start, every renewal of a section and every leaving of one came less than
        the expiry time after this client's last SET or renewal. */
    ghost predicate Prompt(start: nat)
      reads server
    {
      AllPrompt(server.expire, server.worlds, server.steps, id, start)
    }

    /** Tries to set the key to a new value, at most retryTimes + 1 times with at
        most retryTimes sleeps between. It gives up only after all attempts, or when a
        reading of the clock shows that the timeout is over, or when there is to be no delay
        before the next attempt. The k-th reading, in seconds since the call began, is
        clock(k). On success the key is set as it returns. */
    method Acquire(uuid: Token, timeout: Option<real>, clock: nat -> real)
      returns (locked: bool, attempts: nat, sleeps: nat)
      requires Valid() && Resting() && (!isLocked ==> uuid !in server.world.used)
      modifies this, server
      ensures Valid() && Resting() && old(server.worlds) <= server.worlds && old(server.steps) <= server.steps
      ensures old(isLocked) ==> locked && attempts == sleeps == 0 && lockValue == old(lockValue) && isLocked
                                && server.world == old(server.world) && Performed() == old(Performed())
      ensures !old(isLocked) ==> isLocked == locked
      ensures !old(isLocked) && locked ==>
                lockValue == Some(uuid) && server.world.key == Some(Entry(uuid, server.world.now + expireTime))
      ensures !locked ==> lockValue == old(lockValue)
      ensures attempts <= Max(0, retryTimes + 1) && sleeps <= Max(0, retryTimes) && sleeps <= attempts
      ensures !old(isLocked) && locked ==> attempts >= 1
      ensures !locked && timeout.None? ==> attempts == Max(0, retryTimes + 1) && sleeps == Max(0, retryTimes)
      ensures !locked && timeout.Some? ==>
                || (attempts == Max(0, retryTimes + 1) && sleeps == Max(0, retryTimes))
                || (attempts > 0 && retryDelay <= 0.0)
                || exists k: nat :: k <= 2 * attempts && clock(k) >= timeout.value
      ensures !old(isLocked) ==>
                old(Performed()) <= Performed()
                && Acquires(id, uuid, Performed()[|old(Performed())|..], attempts, locked)
    {
      hide IsRun, Own, Attempts, Acquires, Trying, Valid, Resting, Performed;
      attempts, sleeps := 0, 0;
      if isLocked {
        return true, 0, 0;
      }
      ghost var before := Performed();
      StartTrying(uuid);
      var maxAttempts := retryTimes + 1;
      var readings := 0;
      while attempts < maxAttempts
        invariant attempts <= Max(0, maxAttempts) && sleeps <= Max(0, retryTimes) && sleeps <= attempts
        invariant sleeps == (if attempts == maxAttempts then Max(0, attempts - 1) else attempts)
        invariant !isLocked && lockValue == old(lockValue) && 0 <= readings <= 2 * attempts
        invariant Trying(uuid, before, attempts) && old(server.worlds) <= server.worlds && old(server.steps) <= server.steps
        decreases maxAttempts - attempts
      {
        if timeout.Some? {
          var elapsed := clock(readings);
          readings := readings + 1;
          if elapsed >= timeout.value {
            GiveUpTrying(uuid, before, attempts);
            return false, attempts, sleeps;
          }
        }
        var answer := TryOnce(uuid, before, attempts);
        attempts := attempts + 1;
        if answer == Yes {
          return true, attempts, sleeps;
        }
        if attempts < maxAttempts {
          if answer == No && timeout.Some? {
            var elapsed := clock(readings);
            readings := readings + 1;
            var sleepTime := if retryDelay <= timeout.value - elapsed then retryDelay else timeout.value - elapsed;
            if sleepTime <= 0.0 {
              break;
            }
          }
          sleeps := sleeps + 1;
        }
      }
      GiveUpTrying(uuid, before, attempts);
      locked := false;
    }

    /** The fields are those of this client, whose acquire call for the value has made n
        attempts so far. */
    ghost predicate Trying(uuid: Token, before: seq<Step>, n: nat)
      reads this, server
    {
      && server.Valid() && expireTime == server.expire(id) && id in server.world.locals
      && (var l := server.world.locals[id];
          && l.lockValue == lockValue && l.isLocked == isLocked && l.reply.None?
          && l.pending == Some(uuid) && !l.inside)
      && before + [Begin(id, uuid)] <= Performed() && Attempts(id, Performed()[|before| + 1..], n)
    }

    method StartTrying(uuid: Token)
      requires Valid() && Resting() && !isLocked && uuid !in server.world.used
      modifies server
      ensures Trying(uuid, old(Performed()), 0) && old(server.worlds) <= server.worlds && old(server.steps) <= server.steps
    {
      hide IsRun, Own, Attempts;
      server.Take(Begin(id, uuid));
      NoSteps(id);
      assert Performed()[|old(Performed())| + 1..] == [];
    }

    /** One attempt, after other clients acted. */
    method TryOnce(uuid: Token, ghost before: seq<Step>, ghost n: nat) returns (answer: Answer)
      requires Trying(uuid, before, n) && !isLocked
      modifies this, server
      ensures old(server.worlds) <= server.worlds && old(server.steps) <= server.steps && isLocked == (answer == Yes)
      ensures answer == Yes ==>
                && Valid() && Resting()
                && lockValue == Some(uuid) && server.world.key == Some(Entry(uuid, server.world.now + expireTime))
                && before <= Performed() && Acquires(id, uuid, Performed()[|before|..], n + 1, true)
      ensures answer != Yes ==> Trying(uuid, before, n + 1) && lockValue == old(lockValue)
    {
      hide IsRun, Own, Attempts, Acquires;
      server.Elapse(id);
      ghost var was := Performed();
      answer := server.SetNxEx(id, uuid, expireTime);
      ghost var more := Performed()[|was|..];
      if answer == Yes {
        lockValue, isLocked := Some(uuid), true;
        WonAttempt(id, uuid, before, was[|before| + 1..], n, Performed());
      } else {
        OneMoreAttempt(id, was[|before| + 1..], n, more);
        assert Performed()[|before| + 1..] == was[|before| + 1..] + more;
      }
    }

    method GiveUpTrying(uuid: Token, ghost before: seq<Step>, ghost n: nat)
      requires Trying(uuid, before, n)
      modifies server
      ensures Valid() && Resting() && old(server.worlds) <= server.worlds && old(server.steps) <= server.steps
      ensures before <= Performed() && Acquires(id, uuid, Performed()[|before|..], n, false)
    {
      hide IsRun, Own, Attempts;
      ghost var tries := Performed()[|before| + 1..];
      server.Take(GiveUp(id));
      ghost var s := Performed()[|before|..];
      assert s == [Begin(id, uuid)] + tries + [GiveUp(id)];
      assert s[1..|s| - 1] == tries;
    }

    /** Deletes the key if it still holds this lock's value, and forgets the lock
        whatever the server answers. A key with another value stays. */
    method Release()
      requires Valid() && Resting()
      modifies this, server
      ensures Valid() && Resting() && old(server.worlds) <= server.worlds && old(server.steps) <= server.steps
      ensures !old(isLocked) || old(lockValue).None? ==>
                server.world == old(server.world) && lockValue == old(lockValue) && isLocked == old(isLocked)
                && Performed() == old(Performed())
      ensures old(isLocked && lockValue.Some?) ==>
                !isLocked && lockValue.None?
                && exists applied :: Performed() == old(Performed()) + [LockProtocol.Release(id, applied)]
      ensures server.world.key != old(server.world.key) ==>
                old(isLocked && lockValue.Some? && Owns(server.world.key, server.world.now, lockValue.value))
                && server.world.key.None?
    {
      hide IsRun, Own;
      if !isLocked {
        return;
      }
      if lockValue.None? {
        return;
      }
      var _ := server.EvalRelease(id, lockValue.value);
      lockValue, isLocked := None, false;
    }

    /** One round of the watchdog for the value it captured; false when it stops. */
    method RenewOnce(value: Token) returns (go: bool)
      requires Valid() && Watching(value)
      modifies this`isLocked, server
      ensures Valid() && !Resting() && old(server.worlds) <= server.worlds && old(server.steps) <= server.steps
      ensures if go then Watching(value) else server.world.locals[id].watchdog.None?
      ensures go ==> isLocked == old(isLocked) && old(Owns(server.world.key, server.world.now, value))
                     && server.world.key == Some(Entry(value, server.world.now + expireTime))
      ensures !old(Owns(server.world.key, server.world.now, value)) ==> !go && server.world.key == old(server.world.key)
      ensures server.world.key != old(server.world.key) ==>
                server.world.key == Some(Entry(value, server.world.now + expireTime))
      ensures isLocked != old(isLocked) ==> !isLocked && !old(Owns(server.world.key, server.world.now, value))
      ensures |Performed()| == |old(Performed())| + 1 && old(Performed()) <= Performed()
      ensures go ==> Last(Performed()) == Renew(id)
      ensures !go ==> if Last(Performed()) == Renew(id) then !isLocked
                      else FailedRenewal(id, Last(Performed())) && isLocked == old(isLocked)
      ensures Prompt(|old(server.steps)|) && old(isLocked) ==> isLocked
    {
      hide IsRun, Own, AllPrompt;
      ghost var worlds, steps := server.worlds, server.steps;
      WatchdogValue(server.expire, worlds, steps, id);
      var answer := server.EvalRenew(id, value, expireTime);
      if answer == Error {
        return false;
      }
      if answer == No {
        if Prompt(|steps|) && isLocked {
          PromptStepOwns(server.expire, worlds, steps, server.worlds, server.steps, id);
        }
        isLocked := false;
        return false;
      }
      go := true;
    }

    /** The watchdog over any number of intervals: it never gives the lock a value, keeps
        the key alive for as long as it runs, and marks the lock lost at most once, stopping
        there. */
    method Watchdog(intervals: nat) returns (renewals: nat, stopped: bool)
      requires Valid() && lockValue.Some? && Watching(lockValue.value)
      modifies this`isLocked, server
      ensures Valid() && !Resting() && old(server.worlds) <= server.worlds && old(server.steps) <= server.steps
      ensures lockValue == old(lockValue) && renewals <= intervals
      ensures !stopped ==> renewals == intervals && isLocked == old(isLocked) && Watching(lockValue.value)
      ensures !stopped && intervals > 0 ==>
                server.world.key == Some(Entry(lockValue.value, server.world.now + expireTime))
      ensures isLocked != old(isLocked) ==> !isLocked && stopped
      ensures stopped ==> renewals < intervals && server.world.locals[id].watchdog.None?
      ensures old(Performed()) <= Performed()
      ensures var s := Performed()[|old(Performed())|..];
              && |s| == renewals + (if stopped then 1 else 0) && Renews(id, s[..renewals])
              && (stopped ==> if Last(s) == Renew(id) then !isLocked
                              else FailedRenewal(id, Last(s)) && isLocked == old(isLocked))
      ensures Prompt(|old(server.steps)|) && old(isLocked) ==> isLocked
    {
      hide IsRun, Own, Renews, AllPrompt;
      var value := lockValue.value;
      renewals, stopped := 0, false;
      ghost var before := Performed();
      NoSteps(id);
      assert Performed()[|before|..] == [];
      while renewals < intervals
        invariant renewals <= intervals && lockValue == old(lockValue)
        invariant !stopped && isLocked == old(isLocked)
        invariant Valid() && Watching(value) && old(server.worlds) <= server.worlds && old(server.steps) <= server.steps
        invariant renewals > 0 ==> server.world.key == Some(Entry(value, server.world.now + expireTime))
        invariant before <= Performed() && |Performed()| == |before| + renewals
        invariant Renews(id, Performed()[|before|..])
      {
        ghost var was := Performed();
        ghost var start := |server.steps|;
        var go := NextRenewal(value);
        SinceThen(before, was, Performed());
        if !go {
          assert Performed()[|before|..][..renewals] == was[|before|..];
          PromptLater(server.expire, server.worlds, server.steps, id, |old(server.steps)|, start);
          return renewals, true;
        }
        OneMoreRenewal(id, was[|before|..]);
        renewals := renewals + 1;
      }
      assert Performed()[|before|..][..renewals] == Performed()[|before|..];
    }

    /** One interval: other clients act, then one round. */
    method NextRenewal(value: Token) returns (go: bool)
      requires Valid() && Watching(value)
      modifies this`isLocked, server
      ensures Valid() && !Resting() && old(server.worlds) <= server.worlds && old(server.steps) <= server.steps
      ensures if go then Watching(value) else server.world.locals[id].watchdog.None?
      ensures go ==> isLocked == old(isLocked)
                     && server.world.key == Some(Entry(value, server.world.now + expireTime))
      ensures isLocked != old(isLocked) ==> !isLocked
      ensures |Performed()| == |old(Performed())| + 1 && old(Performed()) <= Performed()
      ensures go ==> Last(Performed()) == Renew(id)
      ensures !go ==> if Last(Performed()) == Renew(id) then !isLocked
                      else FailedRenewal(id, Last(Performed())) && isLocked == old(isLocked)
      ensures Prompt(|old(server.steps)|) && old(isLocked) ==> isLocked
    {
      hide IsRun, Own, AllPrompt;
      server.Elapse(id);
      ghost var start := |server.steps|;
      go := RenewOnce(value);
      PromptLater(server.expire, server.worlds, server.steps, id, |old(server.steps)|, start);
    }

    method EnterSection()
      requires Valid() && Resting() && isLocked
      modifies server
      ensures Valid() && lockValue.Some? && Watching(lockValue.value) && old(server.worlds) <= server.worlds && old(server.steps) <= server.steps
      ensures Performed() == old(Performed()) + [Enter(id, true)]
    {
      hide IsRun, Own;
      RunIsSafe(server.expire, server.worlds, server.steps, |server.worlds| - 1);
      SafeLocal(server.world, id);
      server.Take(Enter(id, true));
    }

    /** The watchdog beside the body of the section, until it is cancelled. */
    method RunSection(intervals: nat, underWay: bool)
      requires Valid() && lockValue.Some? && Watching(lockValue.value)
      modifies this`isLocked, server
      ensures Valid() && !Resting() && old(server.worlds) <= server.worlds && old(server.steps) <= server.steps && lockValue == old(lockValue)
      ensures isLocked ==> old(isLocked)
      ensures old(Performed()) <= Performed()
      ensures old(isLocked) ==>
                Watched(id, Performed()[|old(Performed())|..], intervals, underWay, !isLocked)
      ensures Prompt(|old(server.steps)|) && old(isLocked) ==> isLocked
    {
      hide IsRun, Own, Renews, AllPrompt;
      var value := lockValue.value;
      ghost var before, start := Performed(), |server.steps|;
      var renewals, stopped := Watchdog(intervals);
      ghost var worlds, steps := server.worlds, server.steps;
      ghost var s := Performed()[|before|..];
      if underWay && !stopped {
        server.LoseRenewal(id, value, expireTime);
        assert Performed()[|before|..] == s + [Last(Performed())];
      }
      server.Elapse(id);
      PromptBefore(server.expire, worlds, steps, server.worlds, server.steps, id, start);
      if stopped {
        assert s[..|s| - 1] == s[..renewals];
      } else {
        assert Performed()[|before|..][..intervals] == s[..renewals];
      }
    }

    method LeaveSection()
      requires Valid() && !Resting()
      modifies server
      ensures Valid() && Resting() && old(server.worlds) <= server.worlds && old(server.steps) <= server.steps
      ensures Performed() == old(Performed()) + [Leave(id)]
      ensures server.steps == old(server.steps) + [Leave(id)]
      ensures Prompt(|old(server.steps)|) && isLocked ==> OwnsKey(old(server.world), id)
    {
      hide IsRun, Own, OwnsKey;
      ghost var worlds, steps := server.worlds, server.steps;
      server.Take(Leave(id));
      if Prompt(|steps|) && isLocked {
        PromptStepOwns(server.expire, worlds, steps, server.worlds, server.steps, id);
      }
    }

    /** The key was this lock's own when a section was left, at some step from the start on. */
    ghost predicate LeftOwning(start: nat)
      reads server
    {
      exists k :: start <= k < |server.steps| && k < |server.worlds|
                  && server.steps[k] == Leave(id) && OwnsKey(server.worlds[k], id)
    }

    /** A section of the lock held: entered, watched, left, and released unless lost. */
    method HoldSection(intervals: nat, underWay: bool)
      returns (lost: bool, ghost watched: seq<Step>, ghost released: seq<Step>)
      requires Valid() && Resting() && isLocked
      modifies this, server
      ensures Valid() && Resting() && old(server.worlds) <= server.worlds && old(server.steps) <= server.steps
      ensures !isLocked && (lost <==> lockValue.Some?) && (lost ==> lockValue == old(lockValue))
      ensures AllPunctual(server.expire, server.worlds) ==> !lost
      ensures Prompt(|old(server.steps)|) ==> !lost && LeftOwning(|old(server.steps)|)
      ensures Performed() == old(Performed()) + [Enter(id, true)] + watched + [Leave(id)] + released
      ensures Watched(id, watched, intervals, underWay, lost)
      ensures if lost then released == [] else |released| == 1 && released[0].Release? && released[0].i == id
    {
      hide IsRun, Own, Watched, AllPunctual, AllPrompt, OwnsKey, LeftOwning;
      ghost var start := |server.steps|;
      EnterSection();
      ghost var inside, entered := Performed(), |server.steps|;
      RunSection(intervals, underWay);
      watched, released := Performed()[|inside|..], [];
      ghost var worlds, steps := server.worlds, server.steps;
      if AllPunctual(server.expire, worlds) {
        PunctualHolder(server.expire, worlds, server.steps, id);
      }
      lost, released := EndSection();
      if AllPunctual(server.expire, server.worlds) {
        AllPunctualBefore(server.expire, worlds, server.worlds);
      }
      if Prompt(start) {
        PromptBefore(server.expire, worlds, steps, server.worlds, server.steps, id, start);
        PromptLater(server.expire, worlds, steps, id, start, entered);
        PromptLater(server.expire, server.worlds, server.steps, id, start, |steps|);
        LeftEarlier(start, |steps|);
      }
    }

    /** The section is left, and the lock released unless it was lost. */
    method EndSection() returns (lost: bool, ghost released: seq<Step>)
      requires Valid() && !Resting() && lockValue.Some?
      modifies this, server
      ensures Valid() && Resting() && old(server.worlds) <= server.worlds && old(server.steps) <= server.steps
      ensures lost == !old(isLocked) && !isLocked && (lost ==> lockValue == old(lockValue))
      ensures !lost ==> lockValue.None?
      ensures Performed() == old(Performed()) + [Leave(id)] + released
      ensures if lost then released == []
              else |released| == 1 && released[0].Release? && released[0].i == id
      ensures Prompt(|old(server.steps)|) && !lost ==> LeftOwning(|old(server.steps)|)
    {
      hide IsRun, Own, AllPrompt, OwnsKey;
      ghost var worlds, steps := server.worlds, server.steps;
      released := [];
      LastIsAt(server.expire, worlds, steps);
      LeaveSection();
      ghost var worlds', steps' := server.worlds, server.steps;
      lost := !isLocked;
      if isLocked {
        ghost var before := Performed();
        Release();
        released := Performed()[|before|..];
      }
      if Prompt(|steps|) && !lost {
        PromptBefore(server.expire, worlds', steps', server.worlds, server.steps, id, |steps|);
        assert server.steps[|steps|] == Leave(id) && server.worlds[|steps|] == Last(worlds);
      }
    }

    /** The context manager: it acquires, runs the watchdog for as long as the body takes,
        cancels it, perhaps with a renewal under way whose answer nobody reads, and releases
        the lock unless it was lost. Afterwards the lock is not held, whatever happened; its
        value is forgotten unless the watchdog found it lost. That never happens when all
        clients keep their times, and also when just this one renews and leaves in time: then
        the key is its own up to the end of the section. */
    method WithRenewal(uuid: Token, intervals: nat, underWay: bool, clock: nat -> real)
      returns (entered: bool, lost: bool)
      requires Valid() && Resting() && (!isLocked ==> uuid !in server.world.used)
      modifies this, server
      ensures Valid() && Resting() && old(server.worlds) <= server.worlds && old(server.steps) <= server.steps
      ensures !isLocked
      ensures !entered ==> !lost && !old(isLocked) && lockValue == old(lockValue)
      ensures entered ==> (lost <==> lockValue.Some?)
      ensures lost ==> lockValue == if old(isLocked) then old(lockValue) else Some(uuid)
      ensures entered && AllPunctual(server.expire, server.worlds) ==> !lost
      ensures entered && Prompt(|old(server.steps)|) ==> !lost && LeftOwning(|old(server.steps)|)
      ensures old(Performed()) <= Performed()
      ensures var s := Performed()[|old(Performed())|..];
              if entered then Session(id, uuid, s, old(isLocked), intervals, underWay, lost)
              else Acquires(id, uuid, s, Max(0, retryTimes + 1), false)
    {
      hide IsRun, Own, Acquires, Watched, Session, AllPunctual, Punctual, Valid, Resting, Performed, AllPrompt, LeftOwning;
      entered, lost := false, false;
      ghost var before, held, start := Performed(), isLocked, |server.steps|;
      var locked, attempts, _ := Acquire(uuid, None, clock);
      if !locked {
        return;
      }
      ghost var acquired, watched, released, acquiredSteps := Performed()[|before|..], [], [], |server.steps|;
      entered := true;
      lost, watched, released := HoldSection(intervals, underWay);
      SessionSteps(id, uuid, acquired, attempts, held, watched, released, intervals, underWay, lost);
      assert Performed()[|before|..] == acquired + [Enter(id, true)] + watched + [Leave(id)] + released;
      if Prompt(start) {
        PromptLater(server.expire, server.worlds, server.steps, id, start, acquiredSteps);
        LeftEarlier(start, acquiredSteps);
      }
    }

    lemma LeftEarlier(start: nat, later: nat)
      requires start <= later && LeftOwning(later)
      ensures LeftOwning(start)
    {
      hide OwnsKey;
    }
  }

  lemma LastIsAt(expire: Id -> int, worlds: seq<World>, steps: seq<Step>)
    requires IsRun(expire, worlds, steps)
    ensures |worlds| == |steps| + 1 && worlds[|steps|] == Last(worlds)
  {
  }

  lemma {:induction false} WonAttempt(i: Id, v: Token, before: seq<Step>, tries: seq<Step>, n: nat, s: seq<Step>)
    requires Attempts(i, tries, n) && s == before + [Begin(i, v)] + tries + [SetExec(i), GetReply(i)]
    ensures before <= s && Acquires(i, v, s[|before|..], n + 1, true)
  {
    hide Attempts;
    var t := s[|before|..];
    assert t == [Begin(i, v)] + tries + [SetExec(i), GetReply(i)];
    assert t[1..|t| - 2] == tries;
  }
}
