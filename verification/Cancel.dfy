/**
 * The cancel-token tree. Every mutex section is one atomic action; actions of any number of triggers, polls, creations
 * and drops interleave freely. Atomic loads and stores are sequentially consistent.
 */
module Cancel {
  import opened Prelude
  import opened Waiting

  const PRUNE_SLACK := 16

  /**
   * One token. `live`: something still holds it; `released`: it was dropped and has given its parent back.
   * `pushes` and `scanned` count the child slots ever pushed and the slots ever scanned by a pruning.
   */
  datatype Token = Token(parent: Option<nat>, fired: bool, children: seq<nat>, waiters: map<nat, nat>, nextKey: nat,
                         locked: bool, live: bool, released: bool, liveChildren: nat, pushes: nat, scanned: nat)

  function NewToken(fired: bool, parent: Option<nat>): Token {
    Token(parent, fired, [], map[], 0, false, true, false, 0, 0, 0)
  }

  // ----- the mutex sections of one token -----

  /** `fire`: the first time, takes the children and the waiters; afterwards nothing. */
  function Fired(token: Token): Token {
    if token.fired then token else token.(fired := true, children := [], waiters := map[])
  }

  function FiredChildren(token: Token): seq<nat> { if token.fired then [] else token.children }

  function FiredWakers(token: Token): set<nat> { if token.fired then {} else token.waiters.Values }

  /** Keeps the children that are still held by something. */
  function Retained(children: seq<nat>, alive: set<nat>): (r: seq<nat>) {
    if children == [] then []
    else
      Retained(children[..|children| - 1], alive)
      + if children[|children| - 1] in alive then [children[|children| - 1]] else []
  }

  predicate Prunes(token: Token) { |token.children| >= token.liveChildren * 2 + PRUNE_SLACK }

  /** `child` on an untriggered token: prunes when the list is long for the children that are left, then pushes. */
  function WithChild(token: Token, child: nat, alive: set<nat>): Token {
    var kept := if Prunes(token) then Retained(token.children, alive) else token.children;
    token.(children := kept + [child], liveChildren := token.liveChildren + 1, pushes := token.pushes + 1,
    scanned := token.scanned + if Prunes(token) then |token.children| else 0)
  }

  function SlotsOf(token: Token): Slots { Slots(token.nextKey, token.waiters) }

  function WithSlots(token: Token, slots: Slots): Token { token.(nextKey := slots.nextKey, waiters := slots.wakers) }

  function WithWaiter(token: Token, key: Option<nat>, waker: nat): Token {
    WithSlots(token, Waiting.Registered(SlotsOf(token), key, waker))
  }

  function WithoutWaiter(token: Token, key: nat): Token { WithSlots(token, Removed(SlotsOf(token), key)) }

  // ----- the whole -----

  /** A running `trigger`: the tokens it has still to fire, the weak children it has taken, the wakers to wake. */
  datatype Running = Running(pending: seq<nat>, taken: seq<nat>, wakers: set<nat>)

  datatype Status = Idle | Waiting(waker: nat) | Notified | Ready

  /** A `Triggered` future. */
  datatype Future = Future(token: nat, key: Option<nat>, status: Status)

  /** A running poll of a future: it walks up from the token, first without the lock, then with it. */
  datatype Poll = Poll(waker: nat, at: Option<nat>, locked: bool)

  datatype State = State(tokens: map<nat, Token>, nextId: nat, triggers: map<nat, Running>,
                         futures: map<nat, Future>, polls: map<nat, Poll>)

  const EMPTY := State(map[], 0, map[], map[], map[])

  datatype Action =
    | NewRoot | Child(n: nat) | Die(n: nat) | Release(n: nat)
    | Begin(t: nat, n: nat) | Fire(t: nat) | Upgrade(t: nat) | Wake(t: nat, waker: nat) | Return(t: nat)
    | NewFuture(f: nat, n: nat) | DropFuture(f: nat)
    | PollBegin(f: nat, waker: nat) | PollRead(f: nat) | PollLock(f: nat) | PollRegister(f: nat)

  function AliveIn(tokens: map<nat, Token>): set<nat> { set n | n in tokens && tokens[n].live }

  function DoNewRoot(s: State): State {
    s.(tokens := s.tokens[s.nextId := NewToken(false, None)], nextId := s.nextId + 1)
  }

  function DoChild(s: State, n: nat): (r: Option<State>) {
    if n !in s.tokens || !s.tokens[n].live || s.tokens[n].locked then None
    else if s.tokens[n].fired then
      Some(s.(tokens := s.tokens[s.nextId := NewToken(true, None)], nextId := s.nextId + 1))
    else
      Some(s.(tokens := s.tokens[n := WithChild(s.tokens[n], s.nextId, AliveIn(s.tokens))]
           [s.nextId := NewToken(false, Some(n))],
           nextId := s.nextId + 1))
  }

  predicate IsHeld(s: State, n: nat) {
    || (exists c :: c in s.tokens && s.tokens[c].parent == Some(n) && !s.tokens[c].released)
    || (exists t :: t in s.triggers && n in s.triggers[t].pending)
    || (exists f :: f in s.futures && s.futures[f].token == n)
  }

  /** The last strong reference goes. */
  function DoDie(s: State, n: nat): (r: Option<State>) {
    if n !in s.tokens || !s.tokens[n].live || IsHeld(s, n) then None
    else Some(s.(tokens := s.tokens[n := s.tokens[n].(live := false)]))
  }

  function ChildGone(token: Token): Token {
    token.(liveChildren := if token.liveChildren == 0 then 0 else token.liveChildren - 1)
  }

  /** The drop of a dead token gives its parent back. */
  function Released(tokens: map<nat, Token>, n: nat): map<nat, Token>
    requires n in tokens
  {
    var dropped := tokens[n := tokens[n].(released := true)];
    match tokens[n].parent
    case None => dropped
    case Some(p) => if p in dropped then dropped[p := ChildGone(dropped[p])] else dropped
  }

  function DoRelease(s: State, n: nat): (r: Option<State>) {
    if n !in s.tokens || s.tokens[n].live || s.tokens[n].released then None
    else Some(s.(tokens := Released(s.tokens, n)))
  }

  function DoBegin(s: State, t: nat, n: nat): (r: Option<State>) {
    if t in s.triggers || n !in s.tokens || !s.tokens[n].live then None
    else Some(s.(triggers := s.triggers[t := Running([n], [], {})]))
  }

  function DoFire(s: State, t: nat): (r: Option<State>) {
    if t !in s.triggers || s.triggers[t].taken != [] || s.triggers[t].pending == [] then None
    else
      var trigger := s.triggers[t];
      var n := trigger.pending[|trigger.pending| - 1];
      if n !in s.tokens || s.tokens[n].locked then None
      else
        Some(s.(tokens := s.tokens[n := Fired(s.tokens[n])],
             triggers := s.triggers[t := Running(trigger.pending[..|trigger.pending| - 1], FiredChildren(s.tokens[n]),
                                                 trigger.wakers + FiredWakers(s.tokens[n]))]))
  }

  function DoUpgrade(s: State, t: nat): (r: Option<State>) {
    if t !in s.triggers || s.triggers[t].taken == [] then None
    else
      var trigger, c := s.triggers[t], s.triggers[t].taken[0];
      if c !in s.tokens then None
      else
        Some(s.(triggers := s.triggers[t := trigger.(taken := trigger.taken[1..],
             pending := trigger.pending + if s.tokens[c].live then [c] else [])]))
  }

  predicate Propagated(trigger: Running) { trigger.pending == [] && trigger.taken == [] }

  function Woken(future: Future, waker: nat): Future {
    if future.status == Waiting(waker) then future.(status := Notified) else future
  }

  function DoWake(s: State, t: nat, waker: nat): (r: Option<State>) {
    if t !in s.triggers || !Propagated(s.triggers[t]) || waker !in s.triggers[t].wakers then None
    else
      Some(s.(triggers := s.triggers[t := s.triggers[t].(wakers := s.triggers[t].wakers - {waker})],
           futures := map f | f in s.futures :: Woken(s.futures[f], waker)))
  }

  function DoReturn(s: State, t: nat): (r: Option<State>) {
    if t !in s.triggers || !Propagated(s.triggers[t]) || s.triggers[t].wakers != {} then None
    else Some(s.(triggers := s.triggers - {t}))
  }

  function DoNewFuture(s: State, f: nat, n: nat): (r: Option<State>) {
    if f in s.futures || n !in s.tokens || !s.tokens[n].live then None
    else Some(s.(futures := s.futures[f := Future(n, None, Idle)]))
  }

  function DoDropFuture(s: State, f: nat): (r: Option<State>) {
    if f !in s.futures || f in s.polls || s.futures[f].token !in s.tokens then None
    else
      match s.futures[f].key
      case None => Some(s.(futures := s.futures - {f}))
      case Some(key) =>
        var n := s.futures[f].token;
        if s.tokens[n].locked then None
        else Some(s.(futures := s.futures - {f}, tokens := s.tokens[n := WithoutWaiter(s.tokens[n], key)]))
  }

  function DoPollBegin(s: State, f: nat, waker: nat): (r: Option<State>) {
    if f !in s.futures || f in s.polls then None
    else Some(s.(polls := s.polls[f := Poll(waker, Some(s.futures[f].token), false)]))
  }

  /** The poll is over, and with it the lock it may hold. */
  function EndPoll(s: State, f: nat): State
    requires f in s.polls && f in s.futures && s.futures[f].token in s.tokens
  {
    var n := s.futures[f].token;
    s.(polls := s.polls - {f},
    tokens := if s.polls[f].locked then s.tokens[n := s.tokens[n].(locked := false)] else s.tokens)
  }

  function Settled(s: State, f: nat, future: Future): State { s.(futures := s.futures[f := future]) }

  /** One step of the walk: a fired token ends the poll as ready, else it goes on at the parent. */
  function DoPollRead(s: State, f: nat): (r: Option<State>) {
    if f !in s.polls || f !in s.futures || s.futures[f].token !in s.tokens || s.polls[f].at.None?
       || s.polls[f].at.value !in s.tokens then None
    else
      var poll, at := s.polls[f], s.tokens[s.polls[f].at.value];
      if !at.fired then Some(s.(polls := s.polls[f := poll.(at := at.parent)]))
      else Some(EndPoll(Settled(s, f, s.futures[f].(status := Ready)), f))
  }

  /** The walk without the lock found nothing: takes the lock and walks again. */
  function DoPollLock(s: State, f: nat): (r: Option<State>) {
    if f !in s.polls || f !in s.futures || s.polls[f].at.Some? || s.polls[f].locked then None
    else
      var n := s.futures[f].token;
      if n !in s.tokens || s.tokens[n].locked then None
      else
        Some(s.(tokens := s.tokens[n := s.tokens[n].(locked := true)],
             polls := s.polls[f := s.polls[f].(at := Some(n), locked := true)]))
  }

  function Registered(s: State, f: nat): State
    requires f in s.polls && f in s.futures && s.futures[f].token in s.tokens
  {
    var n, key, waker := s.futures[f].token, s.futures[f].key, s.polls[f].waker;
    Settled(s, f, Future(n, Some(KeyFor(SlotsOf(s.tokens[n]), key)), Waiting(waker)))
    .(tokens := s.tokens[n := WithWaiter(s.tokens[n], key, waker)])
  }

  /** The walk with the lock found nothing: registers the waker and releases the lock. */
  function DoPollRegister(s: State, f: nat): (r: Option<State>) {
    if f !in s.polls || f !in s.futures || s.polls[f].at.Some? || !s.polls[f].locked
       || s.futures[f].token !in s.tokens then None
    else Some(EndPoll(Registered(s, f), f))
  }

  function Next(s: State, a: Action): (r: Option<State>) {
    match a
    case NewRoot => Some(DoNewRoot(s))
    case Child(n) => DoChild(s, n)
    case Die(n) => DoDie(s, n)
    case Release(n) => DoRelease(s, n)
    case Begin(t, n) => DoBegin(s, t, n)
    case Fire(t) => DoFire(s, t)
    case Upgrade(t) => DoUpgrade(s, t)
    case Wake(t, waker) => DoWake(s, t, waker)
    case Return(t) => DoReturn(s, t)
    case NewFuture(f, n) => DoNewFuture(s, f, n)
    case DropFuture(f) => DoDropFuture(s, f)
    case PollBegin(f, waker) => DoPollBegin(s, f, waker)
    case PollRead(f) => DoPollRead(s, f)
    case PollLock(f) => DoPollLock(s, f)
    case PollRegister(f) => DoPollRegister(s, f)
  }

  /** The actions that reach `s`, one at a time, from nothing. */
  ghost predicate Reached(run: seq<Action>, s: State) {
    Fold(Next, EMPTY, run) == Some(s)
  }

  lemma {:induction false} RetainedMembers(children: seq<nat>, alive: set<nat>)
    ensures forall c :: c in Retained(children, alive) <==> c in children && c in alive
    ensures Distinct(children) ==> Distinct(Retained(children, alive))
  {
    if children != [] {
      var front := children[..|children| - 1];
      RetainedMembers(front, alive);
      assert children == front + [children[|children| - 1]];
    }
  }

  // ----- what every action keeps: the tree -----

  ghost predicate TokenOk(tokens: map<nat, Token>, nextId: nat, n: nat)
    requires n in tokens
  {
    var token := tokens[n];
    && n < nextId && (token.live ==> !token.released)
    && (token.parent.Some? ==> token.parent.value < n && token.parent.value in tokens)
    && (token.parent.Some? && !token.released ==> tokens[token.parent.value].live)
    && (token.fired ==> token.children == [] && token.waiters == map[])
  }

  ghost predicate ChildrenOk(tokens: map<nat, Token>, n: nat)
    requires n in tokens
  {
    && Distinct(tokens[n].children)
    && forall c :: c in tokens[n].children ==> c in tokens && tokens[c].parent == Some(n)
  }

  ghost predicate TokensOk(tokens: map<nat, Token>, nextId: nat) {
    forall n :: n in tokens ==> TokenOk(tokens, nextId, n) && ChildrenOk(tokens, n)
  }

  lemma NextIdIsNew(tokens: map<nat, Token>, nextId: nat)
    requires TokensOk(tokens, nextId)
    ensures nextId !in tokens
  {
    forall n | n in tokens ensures n < nextId { assert TokenOk(tokens, nextId, n); }
  }

  ghost predicate TriggersOk(tokens: map<nat, Token>, triggers: map<nat, Running>) {
    && (forall t, n :: t in triggers && n in triggers[t].pending ==> n in tokens && tokens[n].live)
    && (forall t, n :: t in triggers && n in triggers[t].taken ==> n in tokens)
  }

  /** Some running trigger has `c` on its worklist. */
  ghost predicate OnAWorklist(triggers: map<nat, Running>, c: nat) {
    exists t :: t in triggers && (c in triggers[t].pending || c in triggers[t].taken)
  }

  /** A live unfired child is in the list of its unfired parent, or on a worklist once the parent has fired. */
  ghost predicate Tracked(tokens: map<nat, Token>, triggers: map<nat, Running>, c: nat)
    requires c in tokens
  {
    var token := tokens[c];
    token.live && !token.fired && token.parent.Some? && token.parent.value in tokens ==>
      if tokens[token.parent.value].fired then OnAWorklist(triggers, c)
      else c in tokens[token.parent.value].children
  }

  ghost predicate TreeOk(s: State) {
    && TokensOk(s.tokens, s.nextId) && TriggersOk(s.tokens, s.triggers)
    && forall c :: c in s.tokens ==> Tracked(s.tokens, s.triggers, c)
  }

  /** A list of `n`'s children that keeps every one still held, with the new child at its end. */
  ghost predicate Extends(tokens: map<nat, Token>, n: nat, extended: Token, child: nat)
    requires n in tokens
  {
    && extended.children != [] && extended.children[|extended.children| - 1] == child && Distinct(extended.children)
    && (forall c :: c in extended.children ==> c == child || c in tokens[n].children)
    && (forall c :: c in tokens[n].children && c in tokens && tokens[c].live ==> c in extended.children)
    && extended.parent == tokens[n].parent && extended.live == tokens[n].live && !extended.fired
    && extended.released == tokens[n].released
  }

  lemma WithChildExtends(tokens: map<nat, Token>, n: nat, child: nat)
    requires n in tokens && !tokens[n].fired && ChildrenOk(tokens, n) && child !in tokens
    ensures Extends(tokens, n, WithChild(tokens[n], child, AliveIn(tokens)), child)
  {
    RetainedMembers(tokens[n].children, AliveIn(tokens));
    var list := WithChild(tokens[n], child, AliveIn(tokens)).children;
    assert list[|list| - 1] == child;
    forall c | c in list ensures c == child || c in tokens[n].children {
      assert c in list[..|list| - 1] + [child];
    }
  }

  lemma ExtendedKeepsTree(tokens: map<nat, Token>, triggers: map<nat, Running>, n: nat, extended: Token,
                          nextId: nat, m: nat)
    requires TokensOk(tokens, nextId) && n in tokens && tokens[n].live && !tokens[n].fired
    requires Extends(tokens, n, extended, nextId)
    requires m in tokens ==> Tracked(tokens, triggers, m)
    requires m in tokens || m == nextId
    ensures var after := tokens[n := extended][nextId := NewToken(false, Some(n))];
            TokenOk(after, nextId + 1, m) && ChildrenOk(after, m) && Tracked(after, triggers, m)
  {
    assert TokenOk(tokens, nextId, n) && ChildrenOk(tokens, n);
    if m != nextId {
      assert TokenOk(tokens, nextId, m) && ChildrenOk(tokens, m);
      assert nextId !in tokens && nextId !in tokens[m].children;
    }
  }

  lemma ChildKeepsTree(s: State, n: nat)
    requires TreeOk(s) && DoChild(s, n).Some?
    ensures TreeOk(DoChild(s, n).value)
  {
    assert TokenOk(s.tokens, s.nextId, n) && ChildrenOk(s.tokens, n);
    if s.tokens[n].fired {
      NewTokenKeepsTree(s, NewToken(true, None));
    } else {
      UnfiredChildKeepsTree(s, n, WithChild(s.tokens[n], s.nextId, AliveIn(s.tokens)));
    }
  }

  lemma UnfiredChildKeepsTree(s: State, n: nat, extended: Token)
    requires TreeOk(s) && n in s.tokens && s.tokens[n].live && !s.tokens[n].fired
    requires extended == WithChild(s.tokens[n], s.nextId, AliveIn(s.tokens))
    ensures TreeOk(s.(tokens := s.tokens[n := extended][s.nextId := NewToken(false, Some(n))], nextId := s.nextId + 1))
  {
    assert TokenOk(s.tokens, s.nextId, n) && ChildrenOk(s.tokens, n);
    NextIdIsNew(s.tokens, s.nextId);
    WithChildExtends(s.tokens, n, s.nextId);
    var after := s.tokens[n := extended][s.nextId := NewToken(false, Some(n))];
    forall m | m in after
      ensures TokenOk(after, s.nextId + 1, m) && ChildrenOk(after, m) && Tracked(after, s.triggers, m)
    {
      ExtendedKeepsTree(s.tokens, s.triggers, n, extended, s.nextId, m);
    }
  }

  lemma NewTokenKeepsTree(s: State, token: Token)
    requires TreeOk(s) && token == NewToken(token.fired, None)
    ensures TreeOk(s.(tokens := s.tokens[s.nextId := token], nextId := s.nextId + 1))
  {
    var after := s.tokens[s.nextId := token];
    forall m | m in after ensures TokenOk(after, s.nextId + 1, m) && ChildrenOk(after, m) && Tracked(after, s.triggers, m) {
      if m != s.nextId {
        assert TokenOk(s.tokens, s.nextId, m) && ChildrenOk(s.tokens, m) && Tracked(s.tokens, s.triggers, m);
        assert forall c :: c in s.tokens[m].children ==> TokenOk(s.tokens, s.nextId, c);
      }
    }
  }

  /** What a token may change without touching the tree around it. */
  ghost predicate Similar(a: Token, b: Token) {
    && a.parent == b.parent && a.children == b.children && a.fired == b.fired && a.live == b.live
    && (a.released ==> b.released) && (b.live ==> !b.released) && (b.fired ==> b.waiters == map[])
  }

  ghost predicate SimilarTokens(a: map<nat, Token>, b: map<nat, Token>) {
    a.Keys == b.Keys && forall n :: n in a ==> Similar(a[n], b[n])
  }

  lemma SimilarKeepsTree(s: State, after: State)
    requires TreeOk(s) && SimilarTokens(s.tokens, after.tokens) && after.nextId == s.nextId && after.triggers == s.triggers
    ensures TreeOk(after)
  {
    forall m | m in after.tokens
      ensures TokenOk(after.tokens, s.nextId, m) && ChildrenOk(after.tokens, m) && Tracked(after.tokens, s.triggers, m)
    {
      assert TokenOk(s.tokens, s.nextId, m) && ChildrenOk(s.tokens, m) && Tracked(s.tokens, s.triggers, m);
      assert Similar(s.tokens[m], after.tokens[m]);
    }
  }

  lemma DieKeepsTree(s: State, n: nat)
    requires TreeOk(s) && DoDie(s, n).Some?
    ensures TreeOk(DoDie(s, n).value)
  {
    var after := DoDie(s, n).value.tokens;
    forall m | m in after ensures TokenOk(after, s.nextId, m) && ChildrenOk(after, m) && Tracked(after, s.triggers, m) {
      assert TokenOk(s.tokens, s.nextId, m) && ChildrenOk(s.tokens, m) && Tracked(s.tokens, s.triggers, m);
    }
  }

  lemma ReleasedIsSimilar(tokens: map<nat, Token>, nextId: nat, n: nat)
    requires TokensOk(tokens, nextId) && n in tokens && !tokens[n].live
    ensures SimilarTokens(tokens, Released(tokens, n))
  {
    var after := Released(tokens, n);
    forall m | m in tokens ensures Similar(tokens[m], after[m]) {
      assert TokenOk(tokens, nextId, m);
    }
  }

  lemma ReleaseKeepsTree(s: State, n: nat)
    requires TreeOk(s) && DoRelease(s, n).Some?
    ensures TreeOk(DoRelease(s, n).value)
  {
    ReleasedIsSimilar(s.tokens, s.nextId, n);
    SimilarKeepsTree(s, DoRelease(s, n).value);
  }

  lemma FireKeepsTree(s: State, t: nat)
    requires TreeOk(s) && DoFire(s, t).Some?
    ensures TreeOk(DoFire(s, t).value)
  {
    var after := DoFire(s, t).value;
    var n := s.triggers[t].pending[|s.triggers[t].pending| - 1];
    assert TokenOk(s.tokens, s.nextId, n) && ChildrenOk(s.tokens, n);
    forall m | m in after.tokens
      ensures TokenOk(after.tokens, s.nextId, m) && ChildrenOk(after.tokens, m) {
      assert TokenOk(s.tokens, s.nextId, m) && ChildrenOk(s.tokens, m);
    }
    forall c | c in after.tokens ensures Tracked(after.tokens, after.triggers, c) {
      assert Tracked(s.tokens, s.triggers, c);
      assert t in after.triggers;
      if OnAWorklist(s.triggers, c) { FireKeepsWorklists(s, t, c); }
    }
  }

  /** A worklist loses a token only when that token fires. */
  lemma FireKeepsWorklists(s: State, t: nat, c: nat)
    requires DoFire(s, t).Some? && OnAWorklist(s.triggers, c)
    ensures OnAWorklist(DoFire(s, t).value.triggers, c) || c == s.triggers[t].pending[|s.triggers[t].pending| - 1]
  {
    var after := DoFire(s, t).value.triggers;
    var u :| u in s.triggers && (c in s.triggers[u].pending || c in s.triggers[u].taken);
    assert u in after;
  }

  lemma UpgradeKeepsTree(s: State, t: nat)
    requires TreeOk(s) && DoUpgrade(s, t).Some?
    ensures TreeOk(DoUpgrade(s, t).value)
  {
    var after := DoUpgrade(s, t).value;
    forall c | c in after.tokens ensures Tracked(after.tokens, after.triggers, c) {
      assert Tracked(s.tokens, s.triggers, c);
      if OnAWorklist(s.triggers, c) {
        var u :| u in s.triggers && (c in s.triggers[u].pending || c in s.triggers[u].taken);
        assert u in after.triggers;
      }
    }
  }

  // ----- what every action keeps: the waiters -----

  /** Some running trigger still has `waker` to wake. */
  ghost predicate WillBeWoken(triggers: map<nat, Running>, waker: nat) {
    exists t :: t in triggers && waker in triggers[t].wakers
  }

  /** A waiting future is registered on its token, or a running trigger has taken its waker. */
  ghost predicate FutureOk(tokens: map<nat, Token>, triggers: map<nat, Running>, future: Future) {
    && future.token in tokens && tokens[future.token].live
    && (future.key.Some? ==> future.key.value < tokens[future.token].nextKey)
    && (future.status.Waiting? ==>
          && future.key.Some?
          && if tokens[future.token].fired then WillBeWoken(triggers, future.status.waker)
             else future.key.value in tokens[future.token].waiters
                  && tokens[future.token].waiters[future.key.value] == future.status.waker)
  }

  ghost predicate SameSlot(f: Future, g: Future) { f.token == g.token && f.key.Some? && f.key == g.key }

  ghost predicate SlotsApart(futures: map<nat, Future>) {
    forall f, g :: f in futures && g in futures && SameSlot(futures[f], futures[g]) ==> f == g
  }

  ghost predicate Owned(futures: map<nat, Future>, n: nat, key: nat) {
    exists f :: f in futures && futures[f].token == n && futures[f].key == Some(key)
  }

  /** Every registration belongs to a future that still exists. */
  ghost predicate NoneLeft(tokens: map<nat, Token>, futures: map<nat, Future>) {
    forall n, key :: n in tokens && key in tokens[n].waiters ==> Owned(futures, n, key)
  }

  /** A poll that walks with the lock holds it alone, and once past its own token knows that this one has not fired. */
  ghost predicate PollOk(tokens: map<nat, Token>, futures: map<nat, Future>, f: nat, poll: Poll) {
    && f in futures && futures[f].token in tokens
    && (poll.locked ==> tokens[futures[f].token].locked)
    && (poll.locked && poll.at != Some(futures[f].token) ==> !tokens[futures[f].token].fired)
  }

  ghost predicate OneLocks(futures: map<nat, Future>, polls: map<nat, Poll>) {
    forall f, g ::
      f in polls && g in polls && f in futures && g in futures && polls[f].locked && polls[g].locked ==>
        futures[f].token == futures[g].token ==> f == g
  }

  ghost predicate WaitOk(s: State) {
    && (forall f :: f in s.futures ==> FutureOk(s.tokens, s.triggers, s.futures[f]))
    && SlotsApart(s.futures) && NoneLeft(s.tokens, s.futures)
    && (forall f :: f in s.polls ==> PollOk(s.tokens, s.futures, f, s.polls[f]))
    && OneLocks(s.futures, s.polls)
  }

  /** The counter of a token has moved at most `keys` times. */
  ghost predicate KeysWithin(tokens: map<nat, Token>, keys: nat) {
    forall n :: n in tokens ==> tokens[n].nextKey <= keys
  }

  /** Nothing a waiter can see has changed. */
  ghost predicate SameWaiters(a: Token, b: Token) {
    a.fired == b.fired && a.waiters == b.waiters && a.nextKey == b.nextKey && a.locked == b.locked
  }

  ghost predicate Quiet(s: State, after: State) {
    && after.futures == s.futures && after.polls == s.polls
    && (forall n :: n in s.tokens ==> n in after.tokens && SameWaiters(s.tokens[n], after.tokens[n]))
    && (forall n :: n in after.tokens && n !in s.tokens ==> after.tokens[n].waiters == map[] && after.tokens[n].nextKey == 0)
    && (forall f :: f in s.futures && s.futures[f].token in s.tokens && s.tokens[s.futures[f].token].live ==>
                      after.tokens[s.futures[f].token].live)
    && (forall t :: t in s.triggers && s.triggers[t].wakers != {} ==>
                      t in after.triggers && s.triggers[t].wakers <= after.triggers[t].wakers)
  }

  lemma QuietKeepsWaiting(s: State, after: State, keys: nat)
    requires WaitOk(s) && KeysWithin(s.tokens, keys) && Quiet(s, after)
    ensures WaitOk(after) && KeysWithin(after.tokens, keys)
  {
    forall f | f in s.futures ensures FutureOk(after.tokens, after.triggers, s.futures[f]) {
      var future := s.futures[f];
      assert FutureOk(s.tokens, s.triggers, future);
      if future.status.Waiting? && s.tokens[future.token].fired {
        var t :| t in s.triggers && future.status.waker in s.triggers[t].wakers;
        assert future.status.waker in after.triggers[t].wakers;
      }
    }
    forall n, key | n in after.tokens && key in after.tokens[n].waiters ensures Owned(s.futures, n, key) {
      assert n in s.tokens && key in s.tokens[n].waiters;
    }
    forall f | f in s.polls ensures PollOk(after.tokens, s.futures, f, s.polls[f]) {
      assert PollOk(s.tokens, s.futures, f, s.polls[f]);
    }
  }

  /** A waiting future of the fired token is now the trigger's to wake. */
  lemma FireKeepsFuture(s: State, t: nat, future: Future)
    requires FutureOk(s.tokens, s.triggers, future) && DoFire(s, t).Some?
    ensures FutureOk(DoFire(s, t).value.tokens, DoFire(s, t).value.triggers, future)
  {
    var after := DoFire(s, t).value;
    var n := s.triggers[t].pending[|s.triggers[t].pending| - 1];
    if future.status.Waiting? && s.tokens[future.token].fired {
      var u :| u in s.triggers && future.status.waker in s.triggers[u].wakers;
      assert future.status.waker in after.triggers[u].wakers;
    } else if future.status.Waiting? && future.token == n {
      assert future.status.waker in s.tokens[n].waiters.Values;
      assert future.status.waker in after.triggers[t].wakers;
    }
  }

  lemma FireKeepsWaiting(s: State, t: nat, keys: nat)
    requires TreeOk(s) && WaitOk(s) && KeysWithin(s.tokens, keys) && DoFire(s, t).Some?
    ensures WaitOk(DoFire(s, t).value) && KeysWithin(DoFire(s, t).value.tokens, keys)
  {
    var after := DoFire(s, t).value;
    forall f | f in s.futures ensures FutureOk(after.tokens, after.triggers, s.futures[f]) {
      FireKeepsFuture(s, t, s.futures[f]);
    }
    forall m, key | m in after.tokens && key in after.tokens[m].waiters ensures Owned(s.futures, m, key) {
      assert key in s.tokens[m].waiters;
    }
    forall f | f in s.polls ensures PollOk(after.tokens, s.futures, f, s.polls[f]) {
      assert PollOk(s.tokens, s.futures, f, s.polls[f]);
    }
  }

  /** The registrations of the futures: everything but their status. */
  ghost predicate SameSlots(a: map<nat, Future>, b: map<nat, Future>) {
    a.Keys == b.Keys && forall f :: f in a ==> a[f].token == b[f].token && a[f].key == b[f].key
  }

  lemma OwnedBySameSlots(a: map<nat, Future>, b: map<nat, Future>, n: nat, key: nat)
    requires SameSlots(a, b) && Owned(a, n, key)
    ensures Owned(b, n, key)
  {
    var f :| f in a && a[f].token == n && a[f].key == Some(key);
    assert f in b && b[f].token == n;
  }

  lemma SameSlotsKeep(tokens: map<nat, Token>, a: map<nat, Future>, b: map<nat, Future>, polls: map<nat, Poll>)
    requires SameSlots(a, b) && SlotsApart(a) && NoneLeft(tokens, a) && OneLocks(a, polls)
    requires forall f :: f in polls ==> PollOk(tokens, a, f, polls[f])
    ensures SlotsApart(b) && NoneLeft(tokens, b) && OneLocks(b, polls)
    ensures forall f :: f in polls ==> PollOk(tokens, b, f, polls[f])
  {
    forall f, g | f in b && g in b && SameSlot(b[f], b[g]) ensures f == g {
      assert SameSlot(a[f], a[g]);
    }
    forall n, key | n in tokens && key in tokens[n].waiters ensures Owned(b, n, key) {
      OwnedBySameSlots(a, b, n, key);
    }
    forall f | f in polls ensures PollOk(tokens, b, f, polls[f]) {
      assert PollOk(tokens, a, f, polls[f]);
    }
  }

  lemma WakeKeepsWaiting(s: State, t: nat, waker: nat)
    requires WaitOk(s) && DoWake(s, t, waker).Some?
    ensures WaitOk(DoWake(s, t, waker).value)
  {
    var after := DoWake(s, t, waker).value;
    SameSlotsKeep(s.tokens, s.futures, after.futures, s.polls);
    forall f | f in after.futures ensures FutureOk(after.tokens, after.triggers, after.futures[f]) {
      var future := s.futures[f];
      assert FutureOk(s.tokens, s.triggers, future);
      if after.futures[f].status.Waiting? && s.tokens[future.token].fired {
        var u :| u in s.triggers && future.status.waker in s.triggers[u].wakers;
        assert future.status.waker in after.triggers[u].wakers;
      }
    }
  }

  lemma NewFutureKeepsWaiting(s: State, f: nat, n: nat)
    requires WaitOk(s) && DoNewFuture(s, f, n).Some?
    ensures WaitOk(DoNewFuture(s, f, n).value)
  {
    var after := DoNewFuture(s, f, n).value;
    forall m, key | m in s.tokens && key in s.tokens[m].waiters ensures Owned(after.futures, m, key) {
      var g :| g in s.futures && s.futures[g].token == m && s.futures[g].key == Some(key);
      assert after.futures[g] == s.futures[g];
    }
    forall g | g in s.polls ensures PollOk(s.tokens, after.futures, g, s.polls[g]) {
      assert PollOk(s.tokens, s.futures, g, s.polls[g]);
    }
  }

  lemma OthersAreStillOwned(s: State, f: nat, m: nat, key: nat)
    requires NoneLeft(s.tokens, s.futures) && DoDropFuture(s, f).Some?
    requires m in s.tokens && key in DoDropFuture(s, f).value.tokens[m].waiters
    ensures Owned(DoDropFuture(s, f).value.futures, m, key)
  {
    assert key in s.tokens[m].waiters;
    var g :| g in s.futures && s.futures[g].token == m && s.futures[g].key == Some(key);
    assert g in DoDropFuture(s, f).value.futures;
  }

  lemma DropKeepsFuture(s: State, f: nat, g: nat)
    requires WaitOk(s) && DoDropFuture(s, f).Some? && g in s.futures && g != f
    ensures FutureOk(DoDropFuture(s, f).value.tokens, s.triggers, s.futures[g])
  {
    assert FutureOk(s.tokens, s.triggers, s.futures[g]);
    assert !SameSlot(s.futures[f], s.futures[g]);
  }

  lemma DropFutureKeepsWaiting(s: State, f: nat, keys: nat)
    requires WaitOk(s) && KeysWithin(s.tokens, keys) && DoDropFuture(s, f).Some?
    ensures WaitOk(DoDropFuture(s, f).value) && KeysWithin(DoDropFuture(s, f).value.tokens, keys)
  {
    var after := DoDropFuture(s, f).value;
    forall g | g in after.futures ensures FutureOk(after.tokens, s.triggers, after.futures[g]) {
      DropKeepsFuture(s, f, g);
    }
    forall m, key | m in after.tokens && key in after.tokens[m].waiters ensures Owned(after.futures, m, key) {
      OthersAreStillOwned(s, f, m, key);
    }
    forall g | g in s.polls ensures PollOk(after.tokens, after.futures, g, s.polls[g]) {
      assert PollOk(s.tokens, s.futures, g, s.polls[g]);
    }
  }

  lemma PollBeginKeepsWaiting(s: State, f: nat, waker: nat)
    requires WaitOk(s) && DoPollBegin(s, f, waker).Some?
    ensures WaitOk(DoPollBegin(s, f, waker).value)
  {
    assert FutureOk(s.tokens, s.triggers, s.futures[f]);
    assert forall g :: g in s.polls ==> PollOk(s.tokens, s.futures, g, s.polls[g]);
  }

  lemma ReadyKeepsWaiting(s: State, f: nat)
    requires WaitOk(s) && f in s.futures
    ensures WaitOk(Settled(s, f, s.futures[f].(status := Ready)))
  {
    var after := Settled(s, f, s.futures[f].(status := Ready));
    SameSlotsKeep(s.tokens, s.futures, after.futures, s.polls);
    forall g | g in after.futures ensures FutureOk(s.tokens, s.triggers, after.futures[g]) {
      assert FutureOk(s.tokens, s.triggers, s.futures[g]);
    }
  }

  lemma EndPollKeepsWaiting(s: State, f: nat, keys: nat)
    requires WaitOk(s) && KeysWithin(s.tokens, keys) && f in s.polls && f in s.futures && s.futures[f].token in s.tokens
    ensures WaitOk(EndPoll(s, f)) && KeysWithin(EndPoll(s, f).tokens, keys)
  {
    var after := EndPoll(s, f);
    forall g | g in s.futures ensures FutureOk(after.tokens, s.triggers, s.futures[g]) {
      assert FutureOk(s.tokens, s.triggers, s.futures[g]);
    }
    forall g | g in after.polls ensures PollOk(after.tokens, s.futures, g, s.polls[g]) {
      assert PollOk(s.tokens, s.futures, g, s.polls[g]) && PollOk(s.tokens, s.futures, f, s.polls[f]);
      assert s.polls[g].locked && s.polls[f].locked ==> s.futures[g].token != s.futures[f].token;
    }
    forall m, key | m in after.tokens && key in after.tokens[m].waiters ensures Owned(s.futures, m, key) {
      assert key in s.tokens[m].waiters;
    }
  }

  lemma PollReadKeepsWaiting(s: State, f: nat, keys: nat)
    requires WaitOk(s) && KeysWithin(s.tokens, keys) && DoPollRead(s, f).Some?
    ensures WaitOk(DoPollRead(s, f).value) && KeysWithin(DoPollRead(s, f).value.tokens, keys)
  {
    var at := s.tokens[s.polls[f].at.value];
    if at.fired {
      ReadyKeepsWaiting(s, f);
      EndPollKeepsWaiting(Settled(s, f, s.futures[f].(status := Ready)), f, keys);
    } else {
      var after := DoPollRead(s, f).value;
      forall g | g in after.polls ensures PollOk(s.tokens, s.futures, g, after.polls[g]) {
        assert PollOk(s.tokens, s.futures, g, s.polls[g]);
      }
    }
  }

  /** The key a registration uses is new or already its own. */
  lemma KeyIsItsOwn(s: State, f: nat, g: nat, keys: nat)
    requires WaitOk(s) && KeysWithin(s.tokens, keys) && f in s.futures && g in s.futures && f != g
    requires s.futures[f].token == s.futures[g].token
    ensures s.futures[g].key != Some(KeyFor(SlotsOf(s.tokens[s.futures[f].token]), s.futures[f].key))
  {
    assert FutureOk(s.tokens, s.triggers, s.futures[f]) && FutureOk(s.tokens, s.triggers, s.futures[g]);
    assert !SameSlot(s.futures[f], s.futures[g]);
  }

  lemma RegisteredKeepsFutures(s: State, f: nat, keys: nat, g: nat)
    requires WaitOk(s) && KeysWithin(s.tokens, keys) && keys + 1 < KEYS
    requires DoPollRegister(s, f).Some? && g in s.futures
    ensures FutureOk(Registered(s, f).tokens, s.triggers, Registered(s, f).futures[g])
  {
    assert FutureOk(s.tokens, s.triggers, s.futures[f]) && FutureOk(s.tokens, s.triggers, s.futures[g]);
    assert PollOk(s.tokens, s.futures, f, s.polls[f]);
    if f != g && s.futures[f].token == s.futures[g].token { KeyIsItsOwn(s, f, g, keys); }
  }

  lemma RegisteredStaysApart(s: State, f: nat, keys: nat)
    requires WaitOk(s) && KeysWithin(s.tokens, keys) && DoPollRegister(s, f).Some?
    ensures SlotsApart(Registered(s, f).futures)
  {
    var after, n := Registered(s, f), s.futures[f].token;
    forall g, h | g in after.futures && h in after.futures && SameSlot(after.futures[g], after.futures[h]) ensures g == h {
      if g == f && h != f && s.futures[h].token == n {
        KeyIsItsOwn(s, f, h, keys);
      } else if h == f && g != f && s.futures[g].token == n {
        KeyIsItsOwn(s, f, g, keys);
      } else if g != f && h != f {
        assert SameSlot(s.futures[g], s.futures[h]);
      }
    }
  }

  lemma RegisteredKeepsWaiting(s: State, f: nat, keys: nat)
    requires WaitOk(s) && KeysWithin(s.tokens, keys) && keys + 1 < KEYS && DoPollRegister(s, f).Some?
    ensures WaitOk(Registered(s, f)) && KeysWithin(Registered(s, f).tokens, keys + 1)
  {
    var after := Registered(s, f);
    forall g | g in after.futures ensures FutureOk(after.tokens, s.triggers, after.futures[g]) {
      RegisteredKeepsFutures(s, f, keys, g);
    }
    RegisteredStaysApart(s, f, keys);
    forall m, key | m in after.tokens && key in after.tokens[m].waiters ensures Owned(after.futures, m, key) {
      RegisteredAreOwned(s, f, m, key);
    }
    RegisteredKeepsPolls(s, f);
  }

  lemma RegisteredKeepsPolls(s: State, f: nat)
    requires DoPollRegister(s, f).Some? && forall g :: g in s.polls ==> PollOk(s.tokens, s.futures, g, s.polls[g])
    requires OneLocks(s.futures, s.polls)
    ensures var after := Registered(s, f);
            && (forall g :: g in s.polls ==> PollOk(after.tokens, after.futures, g, s.polls[g]))
            && OneLocks(after.futures, s.polls)
  {
    var after := Registered(s, f);
    forall g | g in s.polls ensures PollOk(after.tokens, after.futures, g, s.polls[g]) {
      assert PollOk(s.tokens, s.futures, g, s.polls[g]);
    }
  }

  lemma RegisteredAreOwned(s: State, f: nat, m: nat, key: nat)
    requires NoneLeft(s.tokens, s.futures) && DoPollRegister(s, f).Some?
    requires m in s.tokens && key in Registered(s, f).tokens[m].waiters
    ensures Owned(Registered(s, f).futures, m, key)
  {
    var after := Registered(s, f);
    if after.futures[f].token == m && after.futures[f].key == Some(key) {
    } else {
      assert key in s.tokens[m].waiters;
      var g :| g in s.futures && s.futures[g].token == m && s.futures[g].key == Some(key);
      assert after.futures[g].token == m && after.futures[g].key == Some(key);
    }
  }

  lemma PollLockKeepsWaiting(s: State, f: nat, keys: nat)
    requires WaitOk(s) && KeysWithin(s.tokens, keys) && DoPollLock(s, f).Some?
    ensures WaitOk(DoPollLock(s, f).value) && KeysWithin(DoPollLock(s, f).value.tokens, keys)
  {
    var after := DoPollLock(s, f).value;
    forall g | g in s.futures ensures FutureOk(after.tokens, s.triggers, s.futures[g]) {
      assert FutureOk(s.tokens, s.triggers, s.futures[g]);
    }
    forall g | g in after.polls ensures PollOk(after.tokens, s.futures, g, after.polls[g]) {
      assert PollOk(s.tokens, s.futures, g, s.polls[g]);
    }
    forall m, key | m in after.tokens && key in after.tokens[m].waiters ensures Owned(s.futures, m, key) {
      assert key in s.tokens[m].waiters;
    }
  }

  // ----- what every action keeps: the counts -----

  ghost function Unreleased(tokens: map<nat, Token>, n: nat): set<nat> {
    set c | c in tokens && tokens[c].parent == Some(n) && !tokens[c].released
  }

  /** The counter is the number of children not yet released, and every push has paid for two scanned slots. */
  ghost predicate CountOk(tokens: map<nat, Token>, n: nat)
    requires n in tokens
  {
    && tokens[n].liveChildren == |Unreleased(tokens, n)|
    && tokens[n].scanned + 2 * |tokens[n].children| <= 2 * tokens[n].pushes
  }

  ghost predicate CountsOk(tokens: map<nat, Token>) { forall n :: n in tokens ==> CountOk(tokens, n) }

  ghost predicate SameCounts(a: Token, b: Token) {
    && a.parent == b.parent && a.released == b.released && a.liveChildren == b.liveChildren
    && |b.children| <= |a.children| && a.pushes == b.pushes && a.scanned == b.scanned
  }

  /** What every action but a creation and a release leaves of a token. */
  ghost predicate Steady(a: Token, b: Token) { SameCounts(a, b) && (a.fired ==> b.fired) }

  ghost predicate SteadyTokens(before: map<nat, Token>, after: map<nat, Token>) {
    before.Keys == after.Keys && forall n :: n in before ==> Steady(before[n], after[n])
  }

  predicate IsStructural(a: Action) { a.NewRoot? || a.Child? || a.Release? }

  lemma OneSteady(tokens: map<nat, Token>, n: nat, token: Token)
    requires n in tokens && Steady(tokens[n], token)
    ensures SteadyTokens(tokens, tokens[n := token])
  {
  }

  lemma EndPollIsSteady(s: State, f: nat)
    requires f in s.polls && f in s.futures && s.futures[f].token in s.tokens
    ensures SteadyTokens(s.tokens, EndPoll(s, f).tokens)
  {
    var n := s.futures[f].token;
    OneSteady(s.tokens, n, s.tokens[n].(locked := false));
  }

  lemma PollIsSteady(s: State, a: Action)
    requires Next(s, a).Some? && (a.PollRead? || a.PollLock? || a.PollRegister?)
    ensures SteadyTokens(s.tokens, Next(s, a).value.tokens)
  {
    match a
    case PollRead(f) =>
      if s.tokens[s.polls[f].at.value].fired {
        EndPollIsSteady(Settled(s, f, s.futures[f].(status := Ready)), f);
      }
    case PollLock(f) => OneSteady(s.tokens, s.futures[f].token, s.tokens[s.futures[f].token].(locked := true));
    case PollRegister(f) =>
      var n, key := s.futures[f].token, s.futures[f].key;
      OneSteady(s.tokens, n, WithWaiter(s.tokens[n], key, s.polls[f].waker));
      EndPollIsSteady(Registered(s, f), f);
  }

  lemma NextIsSteady(s: State, a: Action)
    requires Next(s, a).Some? && !IsStructural(a)
    ensures SteadyTokens(s.tokens, Next(s, a).value.tokens)
  {
    match a
    case Die(n) => OneSteady(s.tokens, n, s.tokens[n].(live := false));
    case Fire(t) =>
      var n := s.triggers[t].pending[|s.triggers[t].pending| - 1];
      OneSteady(s.tokens, n, Fired(s.tokens[n]));
    case DropFuture(f) =>
      var n := s.futures[f].token;
      if s.futures[f].key.Some? { OneSteady(s.tokens, n, WithoutWaiter(s.tokens[n], s.futures[f].key.value)); }
    case PollRead(_) => PollIsSteady(s, a);
    case PollLock(_) => PollIsSteady(s, a);
    case PollRegister(_) => PollIsSteady(s, a);
    case _ =>
  }

  lemma SteadyKeepsCounts(before: map<nat, Token>, after: map<nat, Token>)
    requires CountsOk(before) && SteadyTokens(before, after)
    ensures CountsOk(after)
  {
    forall n | n in after ensures CountOk(after, n) {
      assert CountOk(before, n) && Steady(before[n], after[n]);
      assert Unreleased(after, n) == Unreleased(before, n);
    }
  }

  lemma {:induction false} DistinctFits(list: seq<nat>, members: set<nat>)
    requires Distinct(list) && forall c :: c in list ==> c in members
    ensures |list| <= |members|
  {
    if list != [] {
      var last := list[|list| - 1];
      DistinctFits(list[..|list| - 1], members - {last});
    }
  }

  /** What a pruning keeps is no more than the children that are left. */
  lemma RetainedFits(tokens: map<nat, Token>, nextId: nat, n: nat)
    requires TokensOk(tokens, nextId) && n in tokens && CountOk(tokens, n)
    ensures |Retained(tokens[n].children, AliveIn(tokens))| <= tokens[n].liveChildren
  {
    var kept := Retained(tokens[n].children, AliveIn(tokens));
    assert ChildrenOk(tokens, n);
    RetainedMembers(tokens[n].children, AliveIn(tokens));
    forall c | c in kept ensures c in Unreleased(tokens, n) { assert TokenOk(tokens, nextId, c); }
    DistinctFits(kept, Unreleased(tokens, n));
  }

  /** A new token adds to the children of its parent and of nobody else. */
  lemma NewTokenIsUnreleased(tokens: map<nat, Token>, nextId: nat, token: Token, n: nat)
    requires TokensOk(tokens, nextId) && !token.released
    ensures Unreleased(tokens[nextId := token], n)
         == Unreleased(tokens, n) + if token.parent == Some(n) then {nextId} else {}
    ensures nextId !in Unreleased(tokens, n) && nextId !in tokens && Unreleased(tokens, nextId) == {}
  {
    assert forall m :: m in tokens ==> TokenOk(tokens, nextId, m);
  }

  lemma NewTokenKeepsCounts(tokens: map<nat, Token>, fired: bool, nextId: nat)
    requires TokensOk(tokens, nextId) && CountsOk(tokens)
    ensures CountsOk(tokens[nextId := NewToken(fired, None)])
  {
    var after := tokens[nextId := NewToken(fired, None)];
    forall n | n in after ensures CountOk(after, n) {
      NewTokenIsUnreleased(tokens, nextId, NewToken(fired, None), n);
      assert n != nextId ==> CountOk(tokens, n);
    }
  }

  /** The list `child` leaves behind is at most twice the children left at the call, plus the slack. */
  lemma WithChildIsShort(token: Token, child: nat, alive: set<nat>)
    requires |Retained(token.children, alive)| <= token.liveChildren
    requires token.scanned + 2 * |token.children| <= 2 * token.pushes
    ensures var after := WithChild(token, child, alive);
            && |after.children| <= 2 * token.liveChildren + PRUNE_SLACK
            && after.scanned + 2 * |after.children| <= 2 * after.pushes
            && after.liveChildren == token.liveChildren + 1
  {
  }

  lemma UnreleasedAfterUpdate(tokens: map<nat, Token>, n: nat, token: Token, m: nat)
    requires n in tokens && token.parent == tokens[n].parent && token.released == tokens[n].released
    ensures Unreleased(tokens[n := token], m) == Unreleased(tokens, m)
  {
  }

  lemma ChildKeepsCounts(tokens: map<nat, Token>, n: nat, nextId: nat, extended: Token)
    requires TokensOk(tokens, nextId) && CountsOk(tokens) && n in tokens
    requires extended == WithChild(tokens[n], nextId, AliveIn(tokens))
    ensures CountsOk(tokens[nextId := NewToken(false, Some(n))][n := extended])
    ensures |extended.children| <= 2 * tokens[n].liveChildren + PRUNE_SLACK
  {
    var added := tokens[nextId := NewToken(false, Some(n))];
    var after := added[n := extended];
    assert CountOk(tokens, n) && TokenOk(tokens, nextId, n);
    RetainedFits(tokens, nextId, n);
    WithChildIsShort(tokens[n], nextId, AliveIn(tokens));
    forall m | m in after ensures CountOk(after, m) {
      NewTokenIsUnreleased(tokens, nextId, NewToken(false, Some(n)), m);
      UnreleasedAfterUpdate(added, n, extended, m);
      assert m != nextId ==> CountOk(tokens, m);
    }
  }

  lemma ReleasedAreFewer(tokens: map<nat, Token>, n: nat, m: nat)
    requires n in tokens
    ensures Unreleased(Released(tokens, n), m) == Unreleased(tokens, m) - {n}
  {
    var dropped := tokens[n := tokens[n].(released := true)];
    assert Unreleased(dropped, m) == Unreleased(tokens, m) - {n};
    if tokens[n].parent.Some? && tokens[n].parent.value in dropped {
      UnreleasedAfterUpdate(dropped, tokens[n].parent.value, ChildGone(dropped[tokens[n].parent.value]), m);
    }
  }

  lemma ReleaseKeepsCount(tokens: map<nat, Token>, n: nat, nextId: nat, m: nat)
    requires n in tokens && !tokens[n].released && TokenOk(tokens, nextId, n) && m in tokens && CountOk(tokens, m)
    ensures CountOk(Released(tokens, n), m) && (tokens[n].parent == Some(m) ==> tokens[m].liveChildren > 0)
  {
    ReleasedAreFewer(tokens, n, m);
    assert n in Unreleased(tokens, m) <==> tokens[n].parent == Some(m);
  }

  /** A release gives back a child that was counted: the counter never underflows. */
  lemma ReleaseKeepsCounts(tokens: map<nat, Token>, n: nat, nextId: nat)
    requires TokensOk(tokens, nextId) && CountsOk(tokens) && n in tokens && !tokens[n].released
    ensures CountsOk(Released(tokens, n))
    ensures tokens[n].parent.Some? ==> tokens[tokens[n].parent.value].liveChildren > 0
  {
    var after := Released(tokens, n);
    assert TokenOk(tokens, nextId, n) && after.Keys == tokens.Keys;
    forall m | m in tokens ensures CountOk(after, m) && (tokens[n].parent == Some(m) ==> tokens[m].liveChildren > 0) {
      assert CountOk(tokens, m);
      ReleaseKeepsCount(tokens, n, nextId, m);
    }
  }

  lemma NextKeepsCounts(s: State, a: Action)
    requires TokensOk(s.tokens, s.nextId) && CountsOk(s.tokens) && Next(s, a).Some?
    ensures CountsOk(Next(s, a).value.tokens)
  {
    match a
    case NewRoot => NewTokenKeepsCounts(s.tokens, false, s.nextId);
    case Child(n) => ChildStepKeepsCounts(s, n);
    case Release(n) => ReleaseKeepsCounts(s.tokens, n, s.nextId);
    case _ =>
      NextIsSteady(s, a);
      SteadyKeepsCounts(s.tokens, Next(s, a).value.tokens);
  }

  lemma ChildStepKeepsCounts(s: State, n: nat)
    requires TokensOk(s.tokens, s.nextId) && CountsOk(s.tokens) && DoChild(s, n).Some?
    ensures CountsOk(DoChild(s, n).value.tokens)
    ensures !s.tokens[n].fired ==>
              |DoChild(s, n).value.tokens[n].children| <= 2 * s.tokens[n].liveChildren + PRUNE_SLACK
  {
    if s.tokens[n].fired {
      NewTokenKeepsCounts(s.tokens, true, s.nextId);
    } else {
      var extended := WithChild(s.tokens[n], s.nextId, AliveIn(s.tokens));
      ChildKeepsCounts(s.tokens, n, s.nextId, extended);
      assert TokenOk(s.tokens, s.nextId, n);
      assert DoChild(s, n).value.tokens == s.tokens[s.nextId := NewToken(false, Some(n))][n := extended];
    }
  }

  // ----- what every action keeps: the answers -----

  /** What `is_triggered` answers: the token or one above it has fired. */
  predicate Cancelled(tokens: map<nat, Token>, n: nat)
    decreases n
  {
    n in tokens && (tokens[n].fired || match tokens[n].parent
                                       case None => false
                                       case Some(p) => p < n && Cancelled(tokens, p))
  }

  /** `c` is `n` or above it. */
  predicate Above(tokens: map<nat, Token>, c: nat, n: nat)
    decreases n
  {
    c == n || (n in tokens && match tokens[n].parent
                              case None => false
                              case Some(p) => p < n && Above(tokens, c, p))
  }

  /** Tokens come and fire; they never go, move or recover. */
  ghost predicate Later(before: map<nat, Token>, after: map<nat, Token>) {
    forall n :: n in before ==>
                  n in after && after[n].parent == before[n].parent && (before[n].fired ==> after[n].fired)
  }

  lemma {:induction false} StaysCancelled(before: map<nat, Token>, after: map<nat, Token>, n: nat)
    requires Later(before, after) && Cancelled(before, n)
    ensures Cancelled(after, n)
    decreases n
  {
    if !before[n].fired { StaysCancelled(before, after, before[n].parent.value); }
  }

  lemma {:induction false} StaysAbove(before: map<nat, Token>, after: map<nat, Token>, c: nat, n: nat)
    requires Later(before, after) && Above(before, c, n)
    ensures Above(after, c, n)
    decreases n
  {
    if c != n { StaysAbove(before, after, c, before[n].parent.value); }
  }

  lemma {:induction false} AboveCancels(tokens: map<nat, Token>, c: nat, n: nat)
    requires Above(tokens, c, n) && Cancelled(tokens, c)
    ensures Cancelled(tokens, n)
    decreases n
  {
    if c != n { AboveCancels(tokens, c, tokens[n].parent.value); }
  }

  lemma {:induction false} ParentIsAbove(tokens: map<nat, Token>, c: nat, n: nat)
    requires Above(tokens, c, n) && c in tokens && tokens[c].parent.Some? && tokens[c].parent.value < c
    ensures Above(tokens, tokens[c].parent.value, n)
    decreases n
  {
    if c != n { ParentIsAbove(tokens, c, tokens[n].parent.value); }
  }

  /** A ready future's token is cancelled, and a poll only looks at the token and those above it. */
  ghost predicate AnswersOk(tokens: map<nat, Token>, futures: map<nat, Future>, polls: map<nat, Poll>) {
    && (forall f :: f in futures && futures[f].status == Ready ==> Cancelled(tokens, futures[f].token))
    && (forall f :: f in polls && f in futures && polls[f].at.Some? ==>
                      polls[f].at.value in tokens && Above(tokens, polls[f].at.value, futures[f].token))
  }

  lemma LaterKeepsAnswers(before: map<nat, Token>, after: map<nat, Token>, futures: map<nat, Future>, polls: map<nat, Poll>)
    requires AnswersOk(before, futures, polls) && Later(before, after)
    ensures AnswersOk(after, futures, polls)
  {
    forall f | f in futures && futures[f].status == Ready ensures Cancelled(after, futures[f].token) {
      StaysCancelled(before, after, futures[f].token);
    }
    forall f | f in polls && f in futures && polls[f].at.Some?
      ensures polls[f].at.value in after && Above(after, polls[f].at.value, futures[f].token)
    {
      StaysAbove(before, after, polls[f].at.value, futures[f].token);
    }
  }

  lemma ChildIsLater(tokens: map<nat, Token>, n: nat, extended: Token, token: Token, nextId: nat)
    requires n in tokens && nextId !in tokens && extended.parent == tokens[n].parent && (tokens[n].fired ==> extended.fired)
    ensures Later(tokens, tokens[n := extended][nextId := token])
    ensures Later(tokens, tokens[nextId := token])
  {
  }

  lemma ChildStepIsLater(s: State, n: nat)
    requires TokensOk(s.tokens, s.nextId) && DoChild(s, n).Some?
    ensures Later(s.tokens, DoChild(s, n).value.tokens)
  {
    NewTokenIsUnreleased(s.tokens, s.nextId, NewToken(true, None), n);
    var extended := if s.tokens[n].fired then s.tokens[n] else WithChild(s.tokens[n], s.nextId, AliveIn(s.tokens));
    var child := NewToken(s.tokens[n].fired, if s.tokens[n].fired then None else Some(n));
    ChildIsLater(s.tokens, n, extended, child, s.nextId);
  }

  lemma NextIsLater(s: State, a: Action)
    requires TokensOk(s.tokens, s.nextId) && Next(s, a).Some?
    ensures Later(s.tokens, Next(s, a).value.tokens)
  {
    match a
    case Child(n) => ChildStepIsLater(s, n);
    case NewRoot => NewTokenIsUnreleased(s.tokens, s.nextId, NewToken(true, None), 0);
    case Release(n) => assert Later(s.tokens, Released(s.tokens, n));
    case _ => NextIsSteady(s, a);
  }

  /** Answers survive as long as no future turns ready and no poll moves. */
  lemma AnswersSurvive(tokens: map<nat, Token>, futures: map<nat, Future>, polls: map<nat, Poll>,
                       futures': map<nat, Future>, polls': map<nat, Poll>)
    requires AnswersOk(tokens, futures, polls)
    requires forall f :: f in futures' && futures'[f].status == Ready ==>
                           f in futures && futures[f].status == Ready && futures[f].token == futures'[f].token
    requires forall f :: f in polls' && f in futures' && polls'[f].at.Some? ==>
                           f in polls && f in futures && polls[f].at == polls'[f].at && futures[f].token == futures'[f].token
    ensures AnswersOk(tokens, futures', polls')
  {
  }

  predicate TouchesPolls(a: Action) { a.PollRead? || a.PollLock? || a.PollRegister? || a.PollBegin? }

  predicate TouchesFutures(a: Action) { a.Wake? || a.NewFuture? || a.DropFuture? }

  lemma OthersLeaveFutures(s: State, a: Action)
    requires Next(s, a).Some? && !TouchesPolls(a) && !TouchesFutures(a)
    ensures Next(s, a).value.futures == s.futures && Next(s, a).value.polls == s.polls
  {
  }

  lemma NextKeepsAnswers(s: State, a: Action)
    requires TreeOk(s) && WaitOk(s) && AnswersOk(s.tokens, s.futures, s.polls) && Next(s, a).Some?
    ensures var after := Next(s, a).value; AnswersOk(after.tokens, after.futures, after.polls)
  {
    OldAnswersHold(s, a);
    NewAnswersHold(s, a);
  }

  lemma OldAnswersHold(s: State, a: Action)
    requires TreeOk(s) && AnswersOk(s.tokens, s.futures, s.polls) && Next(s, a).Some?
    ensures AnswersOk(Next(s, a).value.tokens, s.futures, s.polls)
  {
    NextIsLater(s, a);
    LaterKeepsAnswers(s.tokens, Next(s, a).value.tokens, s.futures, s.polls);
  }

  lemma NewAnswersHold(s: State, a: Action)
    requires TreeOk(s) && WaitOk(s) && AnswersOk(s.tokens, s.futures, s.polls) && Next(s, a).Some?
    requires AnswersOk(Next(s, a).value.tokens, s.futures, s.polls)
    ensures var after := Next(s, a).value; AnswersOk(after.tokens, after.futures, after.polls)
  {
    match a
    case PollRead(f) => PollReadAnswers(s, f);
    case PollLock(f) => PollLockAnswers(s, f);
    case PollBegin(f, waker) => PollBeginAnswers(s, f, waker);
    case PollRegister(f) => PollRegisterAnswers(s, f);
    case NewFuture(f, n) => NewFutureAnswers(s, f, n);
    case Wake(t, waker) => WakeAnswers(s, t, waker);
    case DropFuture(f) => DropFutureAnswers(s, f);
    case _ => OthersLeaveFutures(s, a);
  }

  lemma PollBeginAnswers(s: State, f: nat, waker: nat)
    requires DoPollBegin(s, f, waker).Some? && AnswersOk(DoPollBegin(s, f, waker).value.tokens, s.futures, s.polls)
    requires WaitOk(s)
    ensures var after := DoPollBegin(s, f, waker).value; AnswersOk(after.tokens, after.futures, after.polls)
  {
    assert FutureOk(s.tokens, s.triggers, s.futures[f]);
  }

  lemma PollRegisterAnswers(s: State, f: nat)
    requires DoPollRegister(s, f).Some? && AnswersOk(DoPollRegister(s, f).value.tokens, s.futures, s.polls)
    ensures var after := DoPollRegister(s, f).value; AnswersOk(after.tokens, after.futures, after.polls)
  {
    var after := DoPollRegister(s, f).value;
    AnswersSurvive(after.tokens, s.futures, s.polls, after.futures, after.polls);
  }

  lemma NewFutureAnswers(s: State, f: nat, n: nat)
    requires DoNewFuture(s, f, n).Some? && AnswersOk(DoNewFuture(s, f, n).value.tokens, s.futures, s.polls)
    requires WaitOk(s)
    ensures var after := DoNewFuture(s, f, n).value; AnswersOk(after.tokens, after.futures, after.polls)
  {
    assert f in s.polls ==> PollOk(s.tokens, s.futures, f, s.polls[f]);
    var after := DoNewFuture(s, f, n).value;
    AnswersSurvive(after.tokens, s.futures, s.polls, after.futures, after.polls);
  }

  lemma WakeAnswers(s: State, t: nat, waker: nat)
    requires DoWake(s, t, waker).Some? && AnswersOk(DoWake(s, t, waker).value.tokens, s.futures, s.polls)
    ensures var after := DoWake(s, t, waker).value; AnswersOk(after.tokens, after.futures, after.polls)
  {
    var after := DoWake(s, t, waker).value;
    AnswersSurvive(after.tokens, s.futures, s.polls, after.futures, after.polls);
  }

  lemma DropFutureAnswers(s: State, f: nat)
    requires DoDropFuture(s, f).Some? && AnswersOk(DoDropFuture(s, f).value.tokens, s.futures, s.polls)
    ensures var after := DoDropFuture(s, f).value; AnswersOk(after.tokens, after.futures, after.polls)
  {
    var after := DoDropFuture(s, f).value;
    AnswersSurvive(after.tokens, s.futures, s.polls, after.futures, after.polls);
  }

  lemma PollLockAnswers(s: State, f: nat)
    requires DoPollLock(s, f).Some? && AnswersOk(DoPollLock(s, f).value.tokens, s.futures, s.polls)
    ensures var after := DoPollLock(s, f).value; AnswersOk(after.tokens, after.futures, after.polls)
  {
    assert Above(DoPollLock(s, f).value.tokens, s.futures[f].token, s.futures[f].token);
  }

  lemma PollReadAnswers(s: State, f: nat)
    requires TreeOk(s) && AnswersOk(s.tokens, s.futures, s.polls) && DoPollRead(s, f).Some?
    requires AnswersOk(DoPollRead(s, f).value.tokens, s.futures, s.polls)
    ensures var after := DoPollRead(s, f).value; AnswersOk(after.tokens, after.futures, after.polls)
  {
    var c, n := s.polls[f].at.value, s.futures[f].token;
    assert TokenOk(s.tokens, s.nextId, c);
    if s.tokens[c].fired {
      AboveCancels(s.tokens, c, n);
      StaysCancelled(s.tokens, DoPollRead(s, f).value.tokens, n);
    } else if s.tokens[c].parent.Some? {
      ParentIsAbove(s.tokens, c, n);
    }
  }

  // ----- every run -----

  ghost predicate Ok(s: State, keys: nat) {
    && TreeOk(s) && WaitOk(s) && KeysWithin(s.tokens, keys) && CountsOk(s.tokens)
    && AnswersOk(s.tokens, s.futures, s.polls)
  }

  lemma NewRootKeepsTree(s: State)
    requires TreeOk(s)
    ensures TreeOk(DoNewRoot(s))
  {
    NewTokenKeepsTree(s, NewToken(false, None));
  }

  lemma NextKeepsTree(s: State, a: Action)
    requires TreeOk(s) && WaitOk(s) && Next(s, a).Some?
    ensures TreeOk(Next(s, a).value)
  {
    match a
    case NewRoot => NewRootKeepsTree(s);
    case Child(n) => ChildKeepsTree(s, n);
    case Die(n) => DieKeepsTree(s, n);
    case Release(n) => ReleaseKeepsTree(s, n);
    case Begin(t, n) => BeginKeepsTree(s, t, n);
    case Fire(t) => FireKeepsTree(s, t);
    case Upgrade(t) => UpgradeKeepsTree(s, t);
    case Wake(t, waker) => WakeKeepsTree(s, t, waker);
    case Return(t) => ReturnKeepsTree(s, t);
    case NewFuture(_, _) =>
    case PollBegin(_, _) =>
    case DropFuture(f) => DropFutureKeepsTree(s, f);
    case PollRead(f) => PollReadKeepsTree(s, f);
    case PollLock(f) => PollLockKeepsTree(s, f);
    case PollRegister(f) => PollRegisterKeepsTree(s, f);
  }

  /** Every token that was on a worklist still is. */
  lemma WorklistsKeepTree(s: State, after: State)
    requires TreeOk(s) && after.tokens == s.tokens && after.nextId == s.nextId && TriggersOk(s.tokens, after.triggers)
    requires forall c :: OnAWorklist(s.triggers, c) ==> OnAWorklist(after.triggers, c)
    ensures TreeOk(after)
  {
    forall c | c in s.tokens ensures Tracked(s.tokens, after.triggers, c) {
      assert Tracked(s.tokens, s.triggers, c);
    }
  }

  lemma BeginKeepsTree(s: State, t: nat, n: nat)
    requires TreeOk(s) && DoBegin(s, t, n).Some?
    ensures TreeOk(DoBegin(s, t, n).value)
  {
    var after := DoBegin(s, t, n).value;
    forall c | OnAWorklist(s.triggers, c) ensures OnAWorklist(after.triggers, c) {
      var u :| u in s.triggers && (c in s.triggers[u].pending || c in s.triggers[u].taken);
      assert after.triggers[u] == s.triggers[u];
    }
    WorklistsKeepTree(s, after);
  }

  lemma WakeKeepsTree(s: State, t: nat, waker: nat)
    requires TreeOk(s) && DoWake(s, t, waker).Some?
    ensures TreeOk(DoWake(s, t, waker).value)
  {
    var after := DoWake(s, t, waker).value;
    forall c | OnAWorklist(s.triggers, c) ensures OnAWorklist(after.triggers, c) {
      var u :| u in s.triggers && (c in s.triggers[u].pending || c in s.triggers[u].taken);
      assert u in after.triggers;
    }
    WorklistsKeepTree(s, after);
  }

  lemma ReturnKeepsTree(s: State, t: nat)
    requires TreeOk(s) && DoReturn(s, t).Some?
    ensures TreeOk(DoReturn(s, t).value)
  {
    var after := DoReturn(s, t).value;
    forall c | OnAWorklist(s.triggers, c) ensures OnAWorklist(after.triggers, c) {
      var u :| u in s.triggers && (c in s.triggers[u].pending || c in s.triggers[u].taken);
      assert u in after.triggers;
    }
    WorklistsKeepTree(s, after);
  }

  lemma OneSimilar(s: State, n: nat, token: Token)
    requires TreeOk(s) && n in s.tokens && Similar(s.tokens[n], token)
    ensures SimilarTokens(s.tokens, s.tokens[n := token])
  {
    forall m | m in s.tokens ensures Similar(s.tokens[m], s.tokens[n := token][m]) {
      assert TokenOk(s.tokens, s.nextId, m);
    }
  }

  lemma EndPollKeepsTree(s: State, f: nat)
    requires TreeOk(s) && f in s.polls && f in s.futures && s.futures[f].token in s.tokens
    ensures TreeOk(EndPoll(s, f))
  {
    var n := s.futures[f].token;
    assert TokenOk(s.tokens, s.nextId, n);
    OneSimilar(s, n, s.tokens[n].(locked := false));
    OneSimilar(s, n, s.tokens[n]);
    SimilarKeepsTree(s, EndPoll(s, f));
  }

  lemma PollReadKeepsTree(s: State, f: nat)
    requires TreeOk(s) && DoPollRead(s, f).Some?
    ensures TreeOk(DoPollRead(s, f).value)
  {
    if s.tokens[s.polls[f].at.value].fired {
      EndPollKeepsTree(Settled(s, f, s.futures[f].(status := Ready)), f);
    }
  }

  lemma PollLockKeepsTree(s: State, f: nat)
    requires TreeOk(s) && DoPollLock(s, f).Some?
    ensures TreeOk(DoPollLock(s, f).value)
  {
    var n := s.futures[f].token;
    assert TokenOk(s.tokens, s.nextId, n);
    OneSimilar(s, n, s.tokens[n].(locked := true));
    SimilarKeepsTree(s, DoPollLock(s, f).value);
  }

  lemma PollRegisterKeepsTree(s: State, f: nat)
    requires TreeOk(s) && WaitOk(s) && DoPollRegister(s, f).Some?
    ensures TreeOk(DoPollRegister(s, f).value)
  {
    var n := s.futures[f].token;
    assert TokenOk(s.tokens, s.nextId, n) && PollOk(s.tokens, s.futures, f, s.polls[f]);
    OneSimilar(s, n, WithWaiter(s.tokens[n], s.futures[f].key, s.polls[f].waker));
    SimilarKeepsTree(s, Registered(s, f));
    EndPollKeepsTree(Registered(s, f), f);
  }

  lemma DropFutureKeepsTree(s: State, f: nat)
    requires TreeOk(s) && DoDropFuture(s, f).Some?
    ensures TreeOk(DoDropFuture(s, f).value)
  {
    if s.futures[f].key.Some? {
      var n, key := s.futures[f].token, s.futures[f].key.value;
      assert TokenOk(s.tokens, s.nextId, n);
      OneSimilar(s, n, WithoutWaiter(s.tokens[n], key));
      SimilarKeepsTree(s, DoDropFuture(s, f).value);
    }
  }

  predicate IsQuiet(a: Action) {
    a.NewRoot? || a.Child? || a.Die? || a.Release? || a.Begin? || a.Upgrade? || a.Return?
  }

  lemma NewTokenIsQuiet(s: State, after: State, n: nat, extended: Token, token: Token)
    requires s.nextId !in s.tokens && token.waiters == map[] && token.nextKey == 0
    requires n in s.tokens && SameWaiters(s.tokens[n], extended) && s.tokens[n].live == extended.live
    requires after == s.(tokens := s.tokens[n := extended][s.nextId := token], nextId := s.nextId + 1)
    ensures Quiet(s, after)
  {
    forall m | m in s.tokens ensures m in after.tokens && SameWaiters(s.tokens[m], after.tokens[m]) { }
  }

  lemma ChildIsQuiet(s: State, n: nat)
    requires DoChild(s, n).Some? && s.nextId !in s.tokens
    ensures Quiet(s, DoChild(s, n).value)
  {
    var after := DoChild(s, n).value;
    if s.tokens[n].fired {
      assert s.tokens[n := s.tokens[n]] == s.tokens;
      NewTokenIsQuiet(s, after, n, s.tokens[n], NewToken(true, None));
    } else {
      NewTokenIsQuiet(s, after, n, WithChild(s.tokens[n], s.nextId, AliveIn(s.tokens)), NewToken(false, Some(n)));
    }
  }

  lemma DieIsQuiet(s: State, n: nat)
    requires DoDie(s, n).Some?
    ensures Quiet(s, DoDie(s, n).value)
  {
    assert forall f :: f in s.futures ==> s.futures[f].token != n;
  }

  lemma ReleaseIsQuiet(s: State, n: nat)
    requires DoRelease(s, n).Some?
    ensures Quiet(s, DoRelease(s, n).value)
  {
  }

  lemma NextIsQuiet(s: State, a: Action)
    requires TokensOk(s.tokens, s.nextId) && Next(s, a).Some? && IsQuiet(a)
    ensures Quiet(s, Next(s, a).value)
  {
    NextIdIsNew(s.tokens, s.nextId);
    match a
    case Child(n) => ChildIsQuiet(s, n);
    case Die(n) => DieIsQuiet(s, n);
    case Release(n) => ReleaseIsQuiet(s, n);
    case NewRoot =>
    case Begin(t, n) =>
    case Upgrade(t) =>
    case Return(t) =>
  }

  lemma NextKeepsWaiting(s: State, a: Action, keys: nat)
    requires TreeOk(s) && WaitOk(s) && KeysWithin(s.tokens, keys) && Next(s, a).Some?
    requires keys + (if a.PollRegister? then 1 else 0) < KEYS
    ensures WaitOk(Next(s, a).value) && KeysWithin(Next(s, a).value.tokens, keys + if a.PollRegister? then 1 else 0)
  {
    match a
    case Fire(t) => FireKeepsWaiting(s, t, keys);
    case Wake(t, waker) => WakeKeepsWaiting(s, t, waker);
    case NewFuture(f, n) => NewFutureKeepsWaiting(s, f, n);
    case DropFuture(f) => DropFutureKeepsWaiting(s, f, keys);
    case PollBegin(f, waker) => PollBeginKeepsWaiting(s, f, waker);
    case PollRead(f) => PollReadKeepsWaiting(s, f, keys);
    case PollLock(f) => PollLockKeepsWaiting(s, f, keys);
    case PollRegister(f) =>
      RegisteredKeepsWaiting(s, f, keys);
      EndPollKeepsWaiting(Registered(s, f), f, keys + 1);
    case _ =>
      NextIsQuiet(s, a);
      QuietKeepsWaiting(s, Next(s, a).value, keys);
  }

  lemma NextKeepsOk(s: State, a: Action, keys: nat)
    requires Ok(s, keys) && Next(s, a).Some? && keys + (if a.PollRegister? then 1 else 0) < KEYS
    ensures Ok(Next(s, a).value, keys + if a.PollRegister? then 1 else 0)
  {
    NextKeepsTree(s, a);
    NextKeepsWaiting(s, a, keys);
    NextKeepsCounts(s, a);
    NextKeepsAnswers(s, a);
  }

  predicate Registers(a: Action) { a.PollRegister? }

  /** How many registrations are made in a run. */
  function Registrations(run: seq<Action>): nat { CountOf(run, Registers) }

  lemma {:induction false} RunKeepsOk(s: State, keys: nat, run: seq<Action>, after: State)
    requires Ok(s, keys) && Fold(Next, s, run) == Some(after) && keys + Registrations(run) < KEYS
    ensures Ok(after, keys + Registrations(run))
  {
    if run != [] {
      var front := run[..|run| - 1];
      var before := Fold(Next, s, front).value;
      RunKeepsOk(s, keys, front, before);
      NextKeepsOk(before, run[|run| - 1], keys + Registrations(front));
    }
  }

  /** Whatever the interleaving, everything above holds after every action (2^64 registrations would wrap the counter). */
  lemma EveryRunIsOk(run: seq<Action>, s: State)
    requires Reached(run, s) && Registrations(run) < KEYS
    ensures Ok(s, Registrations(run))
  {
    RunKeepsOk(EMPTY, 0, run, s);
  }

  // ----- what this is for -----

  lemma {:induction false} CancelledHasFired(s: State, n: nat)
    requires TreeOk(s) && s.triggers == map[] && n in s.tokens && s.tokens[n].live && Cancelled(s.tokens, n)
    ensures s.tokens[n].fired
    decreases n
  {
    assert TokenOk(s.tokens, s.nextId, n) && Tracked(s.tokens, s.triggers, n);
    if s.tokens[n].parent.Some? && Cancelled(s.tokens, s.tokens[n].parent.value) {
      CancelledHasFired(s, s.tokens[n].parent.value);
    }
  }

  /** Once every trigger has returned, each live token at or under a fired one has fired itself. */
  lemma TriggerReachesEveryDescendant(run: seq<Action>, s: State, a: nat, n: nat)
    requires Reached(run, s) && Registrations(run) < KEYS && s.triggers == map[]
    requires a in s.tokens && s.tokens[a].fired && Above(s.tokens, a, n) && n in s.tokens && s.tokens[n].live
    ensures s.tokens[n].fired
  {
    EveryRunIsOk(run, s);
    AboveCancels(s.tokens, a, n);
    CancelledHasFired(s, n);
  }

  /**
   * What `child` makes: a live token, unfired and under `n` when `n` is unfired, and fired like `n` otherwise. No other
   * token gets another parent, fires or goes.
   */
  lemma ChildIsLinked(s: State, n: nat)
    requires TokensOk(s.tokens, s.nextId) && DoChild(s, n).Some?
    ensures var after, c := DoChild(s, n).value, s.nextId;
            && c !in s.tokens && after.tokens.Keys == s.tokens.Keys + {c} && after.nextId == c + 1
            && after.tokens[c].live && after.tokens[c].fired == s.tokens[n].fired
            && (!s.tokens[n].fired ==>
                  after.tokens[c].parent == Some(n) && c in after.tokens[n].children && Above(after.tokens, n, c))
            && forall m :: m in s.tokens ==>
                             && after.tokens[m].parent == s.tokens[m].parent && after.tokens[m].fired == s.tokens[m].fired
                             && after.tokens[m].live == s.tokens[m].live
  {
    NextIdIsNew(s.tokens, s.nextId);
    assert TokenOk(s.tokens, s.nextId, n);
    if !s.tokens[n].fired { assert Above(DoChild(s, n).value.tokens, n, n); }
  }

  /** Every state on the way of a run is the state of a run, with a sound tree. */
  lemma {:induction false} OnTheWay(before: seq<Action>, s: State, run: seq<Action>, after: State)
    requires Reached(before, s) && Fold(Next, s, run) == Some(after)
    requires Registrations(before) + Registrations(run) < KEYS
    ensures Reached(before + run, after) && Registrations(before + run) < KEYS && TreeOk(s) && TreeOk(after)
    ensures Later(s.tokens, after.tokens)
  {
    FoldJoins(Next, EMPTY, before, run);
    CountOfJoins(before, run, Registers);
    EveryRunIsOk(before, s);
    EveryRunIsOk(before + run, after);
    if run != [] {
      var front := run[..|run| - 1];
      OnTheWay(before, s, front, Fold(Next, s, front).value);
      NextIsLater(Fold(Next, s, front).value, run[|run| - 1]);
    }
  }

  /** A child, if it still lives once every trigger has returned, has fired when its parent or anything above it has. */
  lemma ChildIsReached(before: seq<Action>, s: State, n: nat, rest: seq<Action>, after: State, a: nat)
    requires Reached(before, s) && DoChild(s, n).Some? && Fold(Next, DoChild(s, n).value, rest) == Some(after)
    requires Registrations(before) + Registrations(rest) < KEYS && after.triggers == map[]
    requires a in after.tokens && after.tokens[a].fired && Above(after.tokens, a, n)
    ensures s.nextId in after.tokens && (after.tokens[s.nextId].live ==> after.tokens[s.nextId].fired)
  {
    var made, c := DoChild(s, n).value, s.nextId;
    FoldOneMore(Next, EMPTY, before, Child(n));
    assert (before + [Child(n)])[..|before|] == before;
    EveryRunIsOk(before, s);
    ChildIsLinked(s, n);
    OnTheWay(before + [Child(n)], made, rest, after);
    if !s.tokens[n].fired && after.tokens[c].live {
      ChildOfIsUnder(after.tokens, a, n, c);
      TriggerReachesEveryDescendant(before + [Child(n)] + rest, after, a, c);
    }
  }

  lemma ChildOfIsUnder(tokens: map<nat, Token>, a: nat, n: nat, c: nat)
    requires Above(tokens, a, n) && c in tokens && tokens[c].parent == Some(n) && n < c
    ensures Above(tokens, a, c)
  {
  }

  /** The token a trigger was begun on has fired, or is still on the worklist of a trigger that will fire it. */
  ghost predicate WillFire(s: State, n: nat) {
    n in s.tokens && (s.tokens[n].fired || exists t :: t in s.triggers && n in s.triggers[t].pending)
  }

  lemma OthersLeaveTheWorklist(s: State, a: Action, t: nat, n: nat)
    requires t in s.triggers && n in s.triggers[t].pending && Next(s, a).Some? && a != Fire(t)
    ensures t in Next(s, a).value.triggers && n in Next(s, a).value.triggers[t].pending
  {
  }

  /** Firing takes from a worklist the token it fires and no other. */
  lemma FireTakesItsOwn(s: State, t: nat, n: nat)
    requires DoFire(s, t).Some? && n in s.triggers[t].pending
    ensures var after := DoFire(s, t).value;
            (n in after.tokens && after.tokens[n].fired) || (t in after.triggers && n in after.triggers[t].pending)
  {
    var pending := s.triggers[t].pending;
    assert pending == pending[..|pending| - 1] + [pending[|pending| - 1]];
  }

  lemma WillFireStays(s: State, a: Action, n: nat)
    requires TreeOk(s) && WillFire(s, n) && Next(s, a).Some?
    ensures WillFire(Next(s, a).value, n)
  {
    NextIsLater(s, a);
    if !s.tokens[n].fired {
      var t :| t in s.triggers && n in s.triggers[t].pending;
      if a == Fire(t) { FireTakesItsOwn(s, t, n); } else { OthersLeaveTheWorklist(s, a, t, n); }
    }
  }

  /** A trigger does what it is for: begun on a token, it has fired it once every trigger has returned. */
  lemma {:induction false} BegunMeansFired(before: seq<Action>, s: State, t: nat, n: nat, rest: seq<Action>, after: State)
    requires Reached(before, s) && DoBegin(s, t, n).Some? && Fold(Next, DoBegin(s, t, n).value, rest) == Some(after)
    requires Registrations(before) + Registrations(rest) < KEYS
    ensures WillFire(after, n)
    ensures after.triggers == map[] ==> after.tokens[n].fired
  {
    var begun := DoBegin(s, t, n).value;
    FoldOneMore(Next, EMPTY, before, Begin(t, n));
    assert (before + [Begin(t, n)])[..|before|] == before;
    if rest == [] {
      assert t in begun.triggers && n in begun.triggers[t].pending;
    } else {
      var front := rest[..|rest| - 1];
      var middle := Fold(Next, begun, front).value;
      BegunMeansFired(before, s, t, n, front, middle);
      OnTheWay(before + [Begin(t, n)], begun, front, middle);
      WillFireStays(middle, rest[|rest| - 1], n);
    }
  }

  /** While triggers run, a live unfired token under a fired one is under some token on a running trigger's worklist. */
  lemma {:induction false} UnfiredIsUnderAWorklist(s: State, n: nat) returns (c: nat)
    requires TreeOk(s) && n in s.tokens && s.tokens[n].live && Cancelled(s.tokens, n) && !s.tokens[n].fired
    ensures c in s.tokens && s.tokens[c].live && !s.tokens[c].fired && OnAWorklist(s.triggers, c) && Above(s.tokens, c, n)
    decreases n
  {
    var p := s.tokens[n].parent.value;
    assert TokenOk(s.tokens, s.nextId, n);
    if s.tokens[p].fired {
      assert Tracked(s.tokens, s.triggers, n);
      c := n;
    } else {
      c := UnfiredIsUnderAWorklist(s, p);
    }
  }

  /**
   * No wake-up is lost: once every trigger has returned, a future that still waits is registered on its token under its
   * own key, and neither the token nor any above it has fired. Had one fired, the future would have been woken.
   */
  lemma NoWakeUpIsLost(run: seq<Action>, s: State, f: nat)
    requires Reached(run, s) && Registrations(run) < KEYS && s.triggers == map[]
    requires f in s.futures && s.futures[f].status.Waiting?
    ensures var future := s.futures[f];
            && future.token in s.tokens && future.key.Some? && !Cancelled(s.tokens, future.token)
            && future.key.value in s.tokens[future.token].waiters
            && s.tokens[future.token].waiters[future.key.value] == future.status.waker
  {
    EveryRunIsOk(run, s);
    assert FutureOk(s.tokens, s.triggers, s.futures[f]);
    if Cancelled(s.tokens, s.futures[f].token) { CancelledHasFired(s, s.futures[f].token); }
  }

  /** While triggers run, a cancelled waiter is on its way: its waker is taken, or its token is under a worklist. */
  lemma CancelledWaiterIsOnItsWay(run: seq<Action>, s: State, f: nat)
    requires Reached(run, s) && Registrations(run) < KEYS && f in s.futures
    requires s.futures[f].status.Waiting? && Cancelled(s.tokens, s.futures[f].token)
    ensures || WillBeWoken(s.triggers, s.futures[f].status.waker)
            || exists c :: OnAWorklist(s.triggers, c) && Above(s.tokens, c, s.futures[f].token)
  {
    EveryRunIsOk(run, s);
    assert FutureOk(s.tokens, s.triggers, s.futures[f]);
    if !s.tokens[s.futures[f].token].fired {
      var c := UnfiredIsUnderAWorklist(s, s.futures[f].token);
    }
  }

  /** A poll still has a fired token ahead of it, or is over and has answered that it is ready. */
  ghost predicate WillBeReady(s: State, f: nat) {
    if f in s.polls then s.polls[f].at.Some? && Cancelled(s.tokens, s.polls[f].at.value)
    else f in s.futures && s.futures[f].status == Ready
  }

  lemma PollSeesFiredToken(s: State, f: nat)
    requires f in s.polls && WillBeReady(s, f) && DoPollRead(s, f).Some?
    ensures WillBeReady(DoPollRead(s, f).value, f)
  {
  }

  lemma OtherActionsLeaveThePoll(s: State, a: Action, f: nat)
    requires f in s.polls && s.polls[f].at.Some? && Next(s, a).Some? && a != PollRead(f)
    ensures f in Next(s, a).value.polls && Next(s, a).value.polls[f].at == s.polls[f].at
  {
  }

  /** The poll of `f` was running before each action of the run. */
  ghost predicate PollsThroughout(s: State, run: seq<Action>, f: nat) {
    run == [] ||
    (var front := run[..|run| - 1];
     PollsThroughout(s, front, f) && Fold(Next, s, front).Some? && f in Fold(Next, s, front).value.polls)
  }

  lemma PollOutlivesAction(s: State, a: Action, f: nat)
    requires TreeOk(s) && f in s.polls && WillBeReady(s, f) && Next(s, a).Some?
    ensures WillBeReady(Next(s, a).value, f)
  {
    if a == PollRead(f) {
      PollSeesFiredToken(s, f);
    } else {
      OtherActionsLeaveThePoll(s, a, f);
      NextIsLater(s, a);
      StaysCancelled(s.tokens, Next(s, a).value.tokens, s.polls[f].at.value);
    }
  }

  /** While a poll runs, whatever else happens, a fired token ahead of it is not missed: it can only end as ready. */
  lemma {:induction false} NoPollMissesAFiredToken(before: seq<Action>, s: State, run: seq<Action>, after: State, f: nat)
    requires Reached(before, s) && Registrations(before) + Registrations(run) < KEYS && Fold(Next, s, run) == Some(after)
    requires f in s.polls && WillBeReady(s, f) && PollsThroughout(s, run, f)
    ensures WillBeReady(after, f)
  {
    if run != [] {
      var front := run[..|run| - 1];
      var middle := Fold(Next, s, front).value;
      NoPollMissesAFiredToken(before, s, front, middle, f);
      FoldJoins(Next, EMPTY, before, front);
      CountOfJoins(before, front, Registers);
      EveryRunIsOk(before + front, middle);
      PollOutlivesAction(middle, run[|run| - 1], f);
    }
  }

  /** A future turns ready only when its token is cancelled, and no registration outlives its future. */
  lemma NoFalseAnswer(run: seq<Action>, s: State)
    requires Reached(run, s) && Registrations(run) < KEYS
    ensures forall f :: f in s.futures && s.futures[f].status == Ready ==> Cancelled(s.tokens, s.futures[f].token)
    ensures NoneLeft(s.tokens, s.futures)
  {
    EveryRunIsOk(run, s);
  }

  /** Two calls of `poll_triggered` never register under one key. */
  lemma RegistrationsStayApart(run: seq<Action>, s: State, f: nat, g: nat)
    requires Reached(run, s) && Registrations(run) < KEYS && f in s.futures && g in s.futures && f != g
    ensures s.futures[f].token == s.futures[g].token && s.futures[f].key.Some? ==> s.futures[f].key != s.futures[g].key
  {
    EveryRunIsOk(run, s);
    assert !SameSlot(s.futures[f], s.futures[g]);
  }

  /** After `child` on an untriggered token its list holds at most twice the children left at the call, plus the slack. */
  lemma ChildLeavesAShortList(run: seq<Action>, s: State, n: nat)
    requires Reached(run, s) && Registrations(run) < KEYS && DoChild(s, n).Some? && !s.tokens[n].fired
    ensures var live := |Unreleased(s.tokens, n)|;
            |DoChild(s, n).value.tokens[n].children| <= 2 * live + PRUNE_SLACK
  {
    EveryRunIsOk(run, s);
    assert CountOk(s.tokens, n);
    ChildStepKeepsCounts(s, n);
  }

  /** Pruning is amortised constant: over any run a token's prunings scan at most twice the children it was ever given. */
  lemma PruningIsAmortised(run: seq<Action>, s: State, n: nat)
    requires Reached(run, s) && Registrations(run) < KEYS && n in s.tokens
    ensures s.tokens[n].scanned <= 2 * s.tokens[n].pushes
  {
    EveryRunIsOk(run, s);
    assert CountOk(s.tokens, n);
  }
}
