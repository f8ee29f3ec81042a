/** The Redis lock as a step system: one key with a value and an expiry time, a
    clock, and any number of lock instances whose requests and replies interleave. */
module LockProtocol {
  import opened Common

  type Token = nat
  type Id = nat

  // ----- The server -----

  datatype Entry = Entry(value: Token, expiry: int)

  type Key = Option<Entry>

  /** An expired entry is no entry. */
  predicate Live(key: Key, now: int) {
    key.Some? && now < key.value.expiry
  }

  /** SET key value NX EX expire. */
  function SetNx(key: Key, now: int, v: Token, expire: int): (Key, bool) {
    if Live(key, now) then (key, false) else (Some(Entry(v, now + expire)), true)
  }

  predicate Owns(key: Key, now: int, v: Token) {
    Live(key, now) && key.value.value == v
  }

  /** The release script: delete the key if it holds the value. */
  function LuaRelease(key: Key, now: int, v: Token): (Key, int) {
    if Owns(key, now, v) then (None, 1) else (key, 0)
  }

  /** The renewal script: reset the expiry if the key holds the value. */
  function LuaRenew(key: Key, now: int, v: Token, expire: int): (Key, int) {
    if Owns(key, now, v) then (Some(Entry(v, now + expire)), 1) else (key, 0)
  }

  // ----- The instances -----

  datatype Reply = Won | Lost

  /** A lock instance. pending: the value of the acquire call under way; reply: the
      answer to its last SET that has not arrived yet; watchdog: the value the
      running watchdog renews; since: when its last successful SET or renewal
      reached Redis; tried: the same, counting every renewal that reached Redis. */
  datatype Local = Local(
    lockValue: Option<Token>,
    isLocked: bool,
    pending: Option<Token>,
    reply: Option<Reply>,
    inside: bool,
    watchdog: Option<Token>,
    since: int,
    tried: int)

  /** stamp: when the key was last set or renewed, by whom. */
  datatype World = World(now: int, key: Key, used: set<Token>, locals: map<Id, Local>, stamp: int, setter: Id)

  datatype Step =
    | Tick(d: nat)
    | Begin(i: Id, v: Token)
    | SetExec(i: Id)
    | GetReply(i: Id)
    | LoseReply(i: Id)
    | GiveUp(i: Id)
    | Enter(i: Id, renewing: bool)
    | Renew(i: Id)
    | RenewError(i: Id, applied: bool)
    | Leave(i: Id)
    | Release(i: Id, applied: bool)

  function Idle(): Local {
    Local(None, false, None, None, false, None, 0, 0)
  }

  function Initial(ids: set<Id>): World {
    World(0, None, {}, map i | i in ids :: Idle(), 0, 0)
  }

  predicate Enabled(w: World, step: Step) {
    match step
    case Tick(_) => true
    case Begin(i, v) =>
      i in w.locals && !w.locals[i].isLocked && w.locals[i].pending.None? && !w.locals[i].inside && v !in w.used
    case SetExec(i) => i in w.locals && w.locals[i].pending.Some? && w.locals[i].reply.None?
    case GetReply(i) => i in w.locals && w.locals[i].pending.Some? && w.locals[i].reply.Some?
    case LoseReply(i) => i in w.locals && w.locals[i].pending.Some? && w.locals[i].reply.Some?
    case GiveUp(i) => i in w.locals && w.locals[i].pending.Some? && w.locals[i].reply.None?
    case Enter(i, _) => i in w.locals && w.locals[i].isLocked && !w.locals[i].inside
    case Renew(i) => i in w.locals && w.locals[i].watchdog.Some?
    case RenewError(i, _) => i in w.locals && w.locals[i].watchdog.Some?
    case Leave(i) => i in w.locals && w.locals[i].inside
    case Release(i, _) =>
      i in w.locals && w.locals[i].isLocked && w.locals[i].lockValue.Some? && !w.locals[i].inside
  }

  function Apply(expire: Id -> int, w: World, step: Step): World
    requires Enabled(w, step)
  {
    match step
    case Tick(d) => w.(now := w.now + d)
    case Begin(i, v) =>
      // A fresh value for the whole acquire call.
      w.(used := w.used + {v}, locals := w.locals[i := w.locals[i].(pending := Some(v))])
    case SetExec(i) =>
      var l := w.locals[i];
      var (key, won) := SetNx(w.key, w.now, l.pending.value, expire(i));
      if won then
        w.(key := key, stamp := w.now, setter := i,
           locals := w.locals[i := l.(reply := Some(Won), since := w.now, tried := w.now)])
      else w.(locals := w.locals[i := l.(reply := Some(Lost))])
    case GetReply(i) =>
      var l := w.locals[i];
      if l.reply == Some(Won) then
        w.(locals := w.locals[i := l.(lockValue := l.pending, isLocked := true, pending := None, reply := None)])
      else w.(locals := w.locals[i := l.(reply := None)])
    case LoseReply(i) =>
      // The client sees an error and will try again with the same value.
      w.(locals := w.locals[i := w.locals[i].(reply := None)])
    case GiveUp(i) => w.(locals := w.locals[i := w.locals[i].(pending := None)])
    case Enter(i, renewing) =>
      var l := w.locals[i];
      w.(locals := w.locals[i := l.(inside := true, watchdog := if renewing then l.lockValue else None)])
    case Renew(i) =>
      var l := w.locals[i];
      var (key, result) := LuaRenew(w.key, w.now, l.watchdog.value, expire(i));
      if result == 1 then
        w.(key := key, stamp := w.now, setter := i, locals := w.locals[i := l.(since := w.now, tried := w.now)])
      else w.(locals := w.locals[i := l.(isLocked := false, watchdog := None, tried := w.now)])
    case RenewError(i, applied) =>
      // The watchdog stops; Redis may have run the script all the same.
      var l := w.locals[i];
      var (key, result) := LuaRenew(w.key, w.now, l.watchdog.value, expire(i));
      var stopped := w.(locals := w.locals[i := l.(watchdog := None)]);
      if applied && result == 1 then stopped.(key := key, stamp := w.now, setter := i) else stopped
    case Leave(i) => w.(locals := w.locals[i := w.locals[i].(inside := false, watchdog := None)])
    case Release(i, applied) =>
      // The local state is cleared whatever Redis answered.
      var l := w.locals[i];
      var (key, _) := LuaRelease(w.key, w.now, l.lockValue.value);
      var cleared := w.(locals := w.locals[i := l.(lockValue := None, isLocked := false)]);
      if applied then cleared.(key := key) else cleared
  }

  /** The worlds that a sequence of steps leads through. */
  ghost predicate IsRun(expire: Id -> int, worlds: seq<World>, steps: seq<Step>) {
    && |worlds| == |steps| + 1
    && (exists ids :: worlds[0] == Initial(ids))
    && forall k :: 0 <= k < |steps| ==>
         Enabled(worlds[k], steps[k]) && worlds[k + 1] == Apply(expire, worlds[k], steps[k])
  }

  // ----- Ownership -----

  /** The values an instance knows as its own. */
  function Tokens(l: Local): set<Token> {
    (if l.lockValue.Some? then {l.lockValue.value} else {}) + (if l.pending.Some? then {l.pending.value} else {})
  }

  /** No value belongs to two instances. */
  ghost predicate TokensApart(w: World) {
    && (forall i <- w.locals :: Tokens(w.locals[i]) <= w.used)
    && (forall i, j, v :: i in w.locals && j in w.locals && v in Tokens(w.locals[i]) && v in Tokens(w.locals[j]) ==> i == j)
    && (w.key.Some? ==> w.key.value.value in w.used)
  }

  /** What an instance's own fields keep. */
  ghost predicate LocalTrue(l: Local) {
    && (l.isLocked ==> l.lockValue.Some? && l.pending.None?)
    && (l.watchdog.Some? ==> l.inside && l.lockValue == l.watchdog)
    && (l.reply.Some? ==> l.pending.Some?)
    && (l.inside ==> l.pending.None?)
  }

  ghost predicate LocalsTrue(w: World) {
    forall i <- w.locals :: LocalTrue(w.locals[i])
  }

  lemma StepKeepsLocals(expire: Id -> int, w: World, step: Step)
    requires LocalsTrue(w) && Enabled(w, step)
    ensures LocalsTrue(Apply(expire, w, step))
  {
  }

  /** A step of an instance changes no other instance, and learns at most one new value. */
  lemma StepIsLocal(expire: Id -> int, w: World, step: Step)
    requires Enabled(w, step) && !step.Tick?
    ensures var t, i := Apply(expire, w, step), step.i;
            && t.now == w.now && i in w.locals && i in t.locals && t.locals == w.locals[i := t.locals[i]]
            && Tokens(t.locals[i]) <= Tokens(w.locals[i]) + (if step.Begin? then {step.v} else {})
            && t.used == w.used + (if step.Begin? then {step.v} else {})
  {
  }

  /** A step writes the key only with a value the instance knows, or deletes its own. */
  lemma StepOnKey(expire: Id -> int, w: World, step: Step)
    requires Enabled(w, step) && !step.Tick? && LocalTrue(w.locals[step.i])
    ensures var t, own := Apply(expire, w, step), Tokens(w.locals[step.i]);
            && (t.key == w.key || t.key.None? || t.key.value.value in own)
            && (Live(w.key, w.now) && w.key.value.value !in own ==> t.key == w.key)
  {
  }

  lemma StepKeepsTokens(expire: Id -> int, w: World, step: Step)
    requires TokensApart(w) && LocalsTrue(w) && Enabled(w, step)
    ensures TokensApart(Apply(expire, w, step))
  {
    hide Tokens, LocalTrue;
    if !step.Tick? {
      hide Apply;
      StepIsLocal(expire, w, step);
      StepOnKey(expire, w, step);
    }
  }
}
