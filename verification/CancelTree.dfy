/**
 * The code of the cancel-token tree. The tokens live in one map under their ids, where the source has reference-counted
 * objects. Creation, trigger, poll and the drops are each proved to be a run of the protocol of module Cancel: a call
 * undisturbed by others, except that a poll, before it gets the mutex, lets the others do whatever they may.
 */
module CancelTree {
  import opened Prelude
  import opened Cancel
  import opened Waiting

  ghost function Unfired(tokens: map<nat, Token>): set<nat> { set n | n in tokens && !tokens[n].fired }

  /** An undisturbed trigger of `n` does to a token nothing, or fires it, and the latter only at or under `n`. */
  ghost predicate FiredUnder(before: map<nat, Token>, after: map<nat, Token>, n: nat) {
    && before.Keys == after.Keys
    && forall m :: m in before ==> after[m] == before[m] || (after[m] == Fired(before[m]) && Above(before, n, m))
  }

  lemma FireStaysUnder(before: map<nat, Token>, middle: map<nat, Token>, n: nat, m: nat)
    requires FiredUnder(before, middle, n) && m in before && Above(before, n, m)
    ensures FiredUnder(before, middle[m := Fired(middle[m])], n)
  {
  }

  lemma {:induction false} ChildIsUnder(tokens: map<nat, Token>, n: nat, p: nat, c: nat)
    requires Above(tokens, n, p) && c in tokens && tokens[c].parent == Some(p) && p < c
    ensures Above(tokens, n, c)
  {
  }

  predicate AllUnder(tokens: map<nat, Token>, n: nat, list: seq<nat>) { forall m :: m in list ==> Above(tokens, n, m) }

  lemma WorklistStaysUnder(start: map<nat, Token>, n: nat, pending: seq<nat>, taken: seq<nat>, rest: seq<nat>)
    requires AllUnder(start, n, pending) && AllUnder(start, n, taken) && pending != []
    requires forall c :: c in rest ==> c in pending[..|pending| - 1] || c in taken
    ensures AllUnder(start, n, rest)
  {
  }

  /** Firing a token at or under `n` stays there, and so do the children it gives up. */
  lemma FireIsUnder(start: map<nat, Token>, nextId: nat, tokens: map<nat, Token>, n: nat, m: nat)
    requires TokensOk(start, nextId) && FiredUnder(start, tokens, n) && n in start && Above(start, n, m)
    ensures m in tokens && FiredUnder(start, tokens[m := Fired(tokens[m])], n)
    ensures AllUnder(start, n, FiredChildren(tokens[m])) && forall c :: c in FiredChildren(tokens[m]) ==> c in tokens
    ensures Unfired(tokens[m := Fired(tokens[m])]) == Unfired(tokens) - {m}
  {
    assert m in start && ChildrenOk(start, m);
    FireStaysUnder(start, tokens, n, m);
    forall c | c in FiredChildren(tokens[m]) ensures c in start && Above(start, n, c) {
      assert c in start[m].children && TokenOk(start, nextId, c);
      ChildIsUnder(start, n, m, c);
    }
  }

  /** The state in the middle of an undisturbed trigger. */
  function Midway(s: State, tokens: map<nat, Token>, t: nat, trigger: Running): State {
    s.(tokens := tokens, triggers := s.triggers[t := trigger])
  }

  lemma UpgradeOne(s: State, tokens: map<nat, Token>, t: nat, trigger: Running)
    requires trigger.taken != [] && trigger.taken[0] in tokens
    ensures Next(Midway(s, tokens, t, trigger), Action.Upgrade(t)) == Some(Midway(s, tokens, t, Upgraded(tokens, trigger)))
  {
    MidwayTwice(s, tokens, tokens, t, trigger, Upgraded(tokens, trigger));
  }

  function Upgraded(tokens: map<nat, Token>, trigger: Running): Running
    requires trigger.taken != [] && trigger.taken[0] in tokens
  {
    var c := trigger.taken[0];
    trigger.(taken := trigger.taken[1..], pending := trigger.pending + if tokens[c].live then [c] else [])
  }

  lemma MidwayTwice(s: State, a: map<nat, Token>, b: map<nat, Token>, t: nat, first: Running, second: Running)
    ensures Midway(Midway(s, a, t, first), b, t, second) == Midway(s, b, t, second)
  {
    assert s.triggers[t := first][t := second] == s.triggers[t := second];
  }

  lemma FireStep(s: State, tokens: map<nat, Token>, t: nat, pending: seq<nat>, wakers: set<nat>, m: nat)
    requires pending != [] && m == pending[|pending| - 1] && m in tokens && !tokens[m].locked
    ensures Next(Midway(s, tokens, t, Running(pending, [], wakers)), Action.Fire(t))
         == Some(Midway(s, tokens[m := Fired(tokens[m])], t,
                        Running(pending[..|pending| - 1], FiredChildren(tokens[m]), wakers + FiredWakers(tokens[m]))))
  {
    MidwayTwice(s, tokens, tokens[m := Fired(tokens[m])], t, Running(pending, [], wakers),
                Running(pending[..|pending| - 1], FiredChildren(tokens[m]), wakers + FiredWakers(tokens[m])));
  }

  lemma FoldFirst(s: State, a: Action, middle: State, log: seq<Action>)
    requires Next(s, a) == Some(middle)
    ensures Fold(Next, s, [a] + log) == Fold(Next, middle, log)
  {
    FoldJoins(Next, s, [a], log);
    FoldOneMore(Next, s, [], a);
    assert [] + [a] == [a];
  }

  predicate IsTriggering(a: Action) { a.Begin? || a.Fire? || a.Upgrade? || a.Wake? || a.Return? }

  predicate AllTriggering(log: seq<Action>) { forall a :: a in log ==> IsTriggering(a) }

  lemma {:induction false} TriggeringKeepsTree(s: State, log: seq<Action>, after: State)
    requires TreeOk(s) && Fold(Next, s, log) == Some(after) && AllTriggering(log)
    ensures TreeOk(after)
  {
    if log != [] {
      var front, a := log[..|log| - 1], log[|log| - 1];
      var before := Fold(Next, s, front).value;
      TriggeringKeepsTree(s, front, before);
      assert a in log;
      match a
      case Begin(t, n) => BeginKeepsTree(before, t, n);
      case Fire(t) => FireKeepsTree(before, t);
      case Upgrade(t) => UpgradeKeepsTree(before, t);
      case Wake(t, waker) => WakeKeepsTree(before, t, waker);
      case Return(t) => ReturnKeepsTree(before, t);
    }
  }

  /** With no other trigger running, everything live at or under a fired token has fired. */
  lemma AllHaveFired(s: State, n: nat)
    requires TreeOk(s) && s.triggers == map[] && n in s.tokens && s.tokens[n].fired
    ensures forall m :: m in s.tokens && s.tokens[m].live && Above(s.tokens, n, m) ==> s.tokens[m].fired
  {
    forall m | m in s.tokens && s.tokens[m].live && Above(s.tokens, n, m) ensures s.tokens[m].fired {
      AboveCancels(s.tokens, n, m);
      CancelledHasFired(s, m);
    }
  }

  /** What holds a token: a handle, a future or a worklist, or a child that has not given it back. */
  predicate Kept(tokens: map<nat, Token>, held: set<nat>, n: nat)
    requires n in tokens
  {
    n in held || tokens[n].liveChildren > 0
  }

  /** Nothing lives without a reason, and nothing dead still holds its parent; `but` is being dropped. */
  ghost predicate NoGarbage(tokens: map<nat, Token>, held: set<nat>, but: Option<nat>) {
    forall n :: n in tokens ==>
                  if tokens[n].live then Kept(tokens, held, n) || but == Some(n) else tokens[n].released
  }

  ghost predicate HoldsAll(s: State, held: set<nat>) {
    && (forall t, n :: t in s.triggers && n in s.triggers[t].pending ==> n in held)
    && (forall f :: f in s.futures ==> s.futures[f].token in held)
  }

  function Dead(s: State, n: nat): State
    requires n in s.tokens
  {
    s.(tokens := s.tokens[n := s.tokens[n].(live := false)])
  }

  lemma UnkeptIsNotHeld(s: State, n: nat, held: set<nat>)
    requires CountsOk(s.tokens) && HoldsAll(s, held) && n in s.tokens && !Kept(s.tokens, held, n)
    ensures !IsHeld(s, n)
  {
    assert CountOk(s.tokens, n);
    forall c | c in s.tokens && s.tokens[c].parent == Some(n) ensures s.tokens[c].released {
      assert c !in Unreleased(s.tokens, n);
    }
  }

  /** Nothing holds the token, so its last reference goes. */
  lemma UnkeptCanDie(s: State, n: nat, held: set<nat>)
    requires TreeOk(s) && CountsOk(s.tokens) && HoldsAll(s, held)
    requires n in s.tokens && s.tokens[n].live && !Kept(s.tokens, held, n)
    ensures DoDie(s, n) == Some(Dead(s, n)) && TreeOk(Dead(s, n)) && CountsOk(Dead(s, n).tokens)
    ensures !s.tokens[n].released
  {
    assert TokenOk(s.tokens, s.nextId, n);
    UnkeptIsNotHeld(s, n, held);
    DieKeepsTree(s, n);
    OneSteady(s.tokens, n, s.tokens[n].(live := false));
    SteadyKeepsCounts(s.tokens, Dead(s, n).tokens);
  }

  /** And it gives its parent back. */
  lemma UnkeptCanGo(s: State, n: nat, held: set<nat>)
    requires TreeOk(s) && CountsOk(s.tokens) && HoldsAll(s, held)
    requires n in s.tokens && s.tokens[n].live && !Kept(s.tokens, held, n)
    ensures var after := s.(tokens := Released(Dead(s, n).tokens, n));
            Fold(Next, s, [Die(n), Release(n)]) == Some(after) && TreeOk(after) && CountsOk(after.tokens)
  {
    UnkeptCanDie(s, n, held);
    DeadGivesBack(Dead(s, n), n);
    TwoSteps(s, Die(n), Dead(s, n), Release(n), s.(tokens := Released(Dead(s, n).tokens, n)));
  }

  lemma DeadGivesBack(s: State, n: nat)
    requires TreeOk(s) && CountsOk(s.tokens) && n in s.tokens && !s.tokens[n].live && !s.tokens[n].released
    ensures var after := s.(tokens := Released(s.tokens, n));
            Next(s, Release(n)) == Some(after) && TreeOk(after) && CountsOk(after.tokens)
  {
    ReleaseKeepsTree(s, n);
    ReleaseKeepsCounts(s.tokens, n, s.nextId);
  }

  lemma TwoSteps(s: State, a: Action, middle: State, b: Action, after: State)
    requires Next(s, a) == Some(middle) && Next(middle, b) == Some(after)
    ensures Fold(Next, s, [a, b]) == Some(after)
  {
    FoldFirst(s, a, middle, [b]);
    FoldFirst(middle, b, after, []);
    assert [a] + [b] == [a, b] && [b] + [] == [b];
  }

  lemma GoneLeavesNoGarbage(tokens: map<nat, Token>, nextId: nat, held: set<nat>, n: nat)
    requires TokensOk(tokens, nextId) && n in tokens && NoGarbage(tokens, held, Some(n)) && tokens[n].live
    ensures NoGarbage(Released(tokens[n := tokens[n].(live := false)], n), held, tokens[n].parent)
  {
    assert TokenOk(tokens, nextId, n);
    var after := Released(tokens[n := tokens[n].(live := false)], n);
    forall m | m in after
      ensures if after[m].live then Kept(after, held, m) || tokens[n].parent == Some(m) else after[m].released
    {
      assert m in tokens;
    }
  }

  lemma ParentIsSmaller(tokens: map<nat, Token>, nextId: nat, n: nat)
    requires TokensOk(tokens, nextId) && n in tokens && tokens[n].live
    ensures match tokens[n].parent case None => true case Some(p) => p < n && p in tokens && tokens[p].live
  {
    assert TokenOk(tokens, nextId, n);
  }

  /** One round of the loop of a drop. */
  lemma OneMoreGone(s: State, log: seq<Action>, tokens: map<nat, Token>, m: nat, held: set<nat>)
    requires Fold(Next, s, log) == Some(s.(tokens := tokens)) && HoldsAll(s, held)
    requires TreeOk(s.(tokens := tokens)) && CountsOk(tokens) && NoGarbage(tokens, held, Some(m))
    requires m in tokens && tokens[m].live && !Kept(tokens, held, m)
    ensures var after := Released(tokens[m := tokens[m].(live := false)], m);
            && Fold(Next, s, log + [Die(m), Release(m)]) == Some(s.(tokens := after))
            && TreeOk(s.(tokens := after)) && CountsOk(after) && NoGarbage(after, held, tokens[m].parent)
            && match tokens[m].parent case None => true case Some(p) => p < m && p in after && after[p].live
  {
    UnkeptCanGo(s.(tokens := tokens), m, held);
    GoneLeavesNoGarbage(tokens, s.nextId, held, m);
    ParentIsSmaller(tokens, s.nextId, m);
    FoldJoins(Next, s, log, [Die(m), Release(m)]);
  }

  /** The run so far of the waking end of trigger `t`, with `left` still to wake. */
  ghost predicate Waking(s: State, log: seq<Action>, after: State, t: nat, left: set<nat>) {
    && Fold(Next, s, log) == Some(after) && AllTriggering(log) && SameSlots(s.futures, after.futures)
    && after == s.(triggers := s.triggers[t := Running([], [], left)], futures := after.futures)
  }

  lemma OneWoken(s: State, log: seq<Action>, after: State, t: nat, left: set<nat>, waker: nat)
    requires Waking(s, log, after, t, left) && waker in left
    ensures DoWake(after, t, waker).Some?
    ensures Waking(s, log + [Wake(t, waker)], DoWake(after, t, waker).value, t, left - {waker})
  {
    FoldOneMore(Next, s, log, Wake(t, waker));
  }

  // ----- one poll -----

  /** What one look upwards passes: from `n` by unfired tokens to the first that has fired, or to a root. */
  ghost predicate IsWalk(tokens: map<nat, Token>, n: nat, path: seq<nat>, triggered: bool) {
    && path != [] && path[0] == n && (forall m :: m in path ==> m in tokens)
    && (forall i :: 0 <= i < |path| - 1 ==> !tokens[path[i]].fired && tokens[path[i]].parent == Some(path[i + 1]))
    && var last := tokens[path[|path| - 1]];
       if triggered then last.fired else !last.fired && last.parent.None?
  }

  function Reads(f: nat, k: nat): (r: seq<Action>)
    ensures |r| == k
  {
    if k == 0 then [] else Reads(f, k - 1) + [PollRead(f)]
  }

  /** The poll of `f` has its next read at `at`. */
  function Standing(s: State, f: nat, at: Option<nat>): State
    requires f in s.polls
  {
    s.(polls := s.polls[f := s.polls[f].(at := at)])
  }

  lemma StandsAgain(s: State, f: nat, a: Option<nat>, b: Option<nat>)
    requires f in s.polls
    ensures Standing(Standing(s, f, a), f, b) == Standing(s, f, b)
  {
    assert s.polls[f := s.polls[f].(at := a)][f := s.polls[f].(at := b)] == s.polls[f := s.polls[f].(at := b)];
  }

  lemma ReadUnfired(s: State, f: nat, m: nat)
    requires f in s.polls && f in s.futures && s.futures[f].token in s.tokens && m in s.tokens && !s.tokens[m].fired
    ensures Next(Standing(s, f, Some(m)), PollRead(f)) == Some(Standing(s, f, s.tokens[m].parent))
  {
    StandsAgain(s, f, Some(m), s.tokens[m].parent);
  }

  lemma ReadFired(s: State, f: nat, m: nat)
    requires f in s.polls && f in s.futures && s.futures[f].token in s.tokens && m in s.tokens && s.tokens[m].fired
    ensures Next(Standing(s, f, Some(m)), PollRead(f)) == Some(Answered(s, f))
  {
    assert Standing(s, f, Some(m)).polls - {f} == s.polls - {f};
  }

  lemma {:induction false} WalkReads(s: State, f: nat, path: seq<nat>, i: nat)
    requires f in s.polls && f in s.futures && s.futures[f].token in s.tokens && i < |path|
    requires s.polls[f].at == Some(path[0]) && forall m :: m in path ==> m in s.tokens
    requires forall k :: 0 <= k < i ==> !s.tokens[path[k]].fired && s.tokens[path[k]].parent == Some(path[k + 1])
    ensures Fold(Next, s, Reads(f, i)) == Some(Standing(s, f, Some(path[i])))
  {
    if i == 0 {
      assert s.polls[f := s.polls[f]] == s.polls;
    } else {
      WalkReads(s, f, path, i - 1);
      ReadUnfired(s, f, path[i - 1]);
      FoldOneMore(Next, s, Reads(f, i - 1), PollRead(f));
    }
  }

  function Answered(s: State, f: nat): State
    requires f in s.polls && f in s.futures && s.futures[f].token in s.tokens
  {
    EndPoll(Settled(s, f, s.futures[f].(status := Ready)), f)
  }

  /** The reads of one look: they end the poll as ready, or come past the root. */
  lemma WalkEnds(s: State, f: nat, path: seq<nat>, triggered: bool)
    requires f in s.polls && f in s.futures && s.futures[f].token in s.tokens
    requires path != [] && s.polls[f].at == Some(path[0]) && IsWalk(s.tokens, path[0], path, triggered)
    ensures Fold(Next, s, Reads(f, |path|)) == Some(if triggered then Answered(s, f) else Standing(s, f, None))
  {
    var last := path[|path| - 1];
    WalkReads(s, f, path, |path| - 1);
    FoldOneMore(Next, s, Reads(f, |path| - 1), PollRead(f));
    if triggered { ReadFired(s, f, last); } else { ReadUnfired(s, f, last); }
  }

  /** What a poll that has looked without the lock and found nothing has come to. */
  function Looked(s: State, f: nat, waker: nat): State { s.(polls := s.polls[f := Poll(waker, None, false)]) }

  lemma {:induction false} ReadsRegisterNothing(f: nat, k: nat)
    ensures Registrations(Reads(f, k)) == 0
  {
    if k > 0 {
      ReadsRegisterNothing(f, k - 1);
      assert Reads(f, k)[..k - 1] == Reads(f, k - 1);
    }
  }

  function FirstAnswer(s: State, f: nat, waker: nat, triggered: bool): State
    requires f in s.futures
  {
    if triggered then Settled(s, f, s.futures[f].(status := Ready)) else Looked(s, f, waker)
  }

  lemma FirstLook(s: State, f: nat, waker: nat, path: seq<nat>, triggered: bool)
    requires f in s.futures && f !in s.polls && s.futures[f].token in s.tokens
    requires IsWalk(s.tokens, s.futures[f].token, path, triggered)
    ensures Fold(Next, s, [PollBegin(f, waker)] + Reads(f, |path|)) == Some(FirstAnswer(s, f, waker, triggered))
  {
    var begun := DoPollBegin(s, f, waker).value;
    WalkEnds(begun, f, path, triggered);
    FoldFirst(s, PollBegin(f, waker), begun, Reads(f, |path|));
    assert begun.polls - {f} == s.polls;
    assert begun.polls[f := Poll(waker, None, false)] == s.polls[f := Poll(waker, None, false)];
  }

  /** The tree and the poll are as they should be when the lock is free at last. */
  lemma WhenTheLockIsFree(run: seq<Action>, s: State, f: nat, waker: nat, k: nat, others: seq<Action>, disturbed: State)
    requires Reached(run, s) && Registrations(run) + Registrations(others) < KEYS
    requires Fold(Next, s, [PollBegin(f, waker)] + Reads(f, k)) == Some(Looked(s, f, waker))
    requires Fold(Next, Looked(s, f, waker), others) == Some(disturbed) && f in s.futures && PollLock(f) !in others
    ensures TreeOk(disturbed)
    ensures f in disturbed.polls && disturbed.polls[f] == Poll(waker, None, false) && f in disturbed.futures
    ensures disturbed.futures[f].token == s.futures[f].token && disturbed.futures[f].key == s.futures[f].key
  {
    OthersLeaveThePoll(Looked(s, f, waker), f, others, disturbed);
    var first := [PollBegin(f, waker)] + Reads(f, k);
    ReadsRegisterNothing(f, k);
    CountOfJoins([PollBegin(f, waker)], Reads(f, k), Registers);
    CountOfJoins(run, first, Registers);
    CountOfJoins(run + first, others, Registers);
    ThreeParts(EMPTY, run, s, first, Looked(s, f, waker), others, disturbed);
    EveryRunIsOk(run + first + others, disturbed);
  }

  lemma BeforeThePoll(run: seq<Action>, s: State, f: nat)
    requires Reached(run, s) && Registrations(run) < KEYS && f in s.futures
    ensures TokensOk(s.tokens, s.nextId) && s.futures[f].token in s.tokens
  {
    EveryRunIsOk(run, s);
    assert FutureOk(s.tokens, s.triggers, s.futures[f]);
  }

  lemma ThreeParts(s: State, a: seq<Action>, first: State, b: seq<Action>, second: State, c: seq<Action>, third: State)
    requires Fold(Next, s, a) == Some(first) && Fold(Next, first, b) == Some(second)
    requires Fold(Next, second, c) == Some(third)
    ensures Fold(Next, s, a + b + c) == Some(third)
  {
    FoldJoins(Next, s, a, b);
    FoldJoins(Next, s, a + b, c);
  }

  function LockedPoll(s: State, f: nat): State
    requires f in s.polls && f in s.futures && s.futures[f].token in s.tokens
  {
    var n := s.futures[f].token;
    s.(tokens := s.tokens[n := s.tokens[n].(locked := true)],
    polls := s.polls[f := s.polls[f].(at := Some(n), locked := true)])
  }

  /** The tokens after a poll: as they were, or with the waker filed. */
  function Filed(tokens: map<nat, Token>, n: nat, key: Option<nat>, waker: nat, triggered: bool): map<nat, Token>
    requires n in tokens
  {
    if triggered then tokens else tokens[n := WithWaiter(tokens[n], key, waker)]
  }

  lemma LockAndFile(tokens: map<nat, Token>, n: nat, key: Option<nat>, waker: nat, triggered: bool)
    requires n in tokens && !tokens[n].locked
    ensures var locked := tokens[n := tokens[n].(locked := true)];
            var filed := Filed(locked, n, key, waker, triggered);
            filed[n := filed[n].(locked := false)] == Filed(tokens, n, key, waker, triggered)
  {
    var locked := tokens[n := tokens[n].(locked := true)];
    assert locked[n := tokens[n]] == tokens;
    var token := WithWaiter(locked[n], key, waker);
    assert token.(locked := false) == WithWaiter(tokens[n], key, waker);
    assert locked[n := token][n := token.(locked := false)] == tokens[n := token.(locked := false)];
  }

  function SecondAnswer(s: State, f: nat, waker: nat, triggered: bool): State
    requires f in s.futures && s.futures[f].token in s.tokens
  {
    var n, key := s.futures[f].token, s.futures[f].key;
    Settled(s, f, if triggered then s.futures[f].(status := Ready)
                  else Future(n, Some(KeyFor(SlotsOf(s.tokens[n]), key)), Waiting(waker)))
    .(polls := s.polls - {f}, tokens := Filed(s.tokens, n, key, waker, triggered))
  }

  /** The actions of a poll once it has the lock. */
  function SecondActions(f: nat, k: nat, triggered: bool): seq<Action> {
    [PollLock(f)] + (Reads(f, k) + if triggered then [] else [PollRegister(f)])
  }

  lemma SecondLook(s: State, f: nat, waker: nat, path: seq<nat>, triggered: bool)
    requires f in s.futures && f in s.polls && s.polls[f] == Poll(waker, None, false)
    requires s.futures[f].token in s.tokens && !s.tokens[s.futures[f].token].locked
    requires IsWalk(LockedPoll(s, f).tokens, s.futures[f].token, path, triggered)
    ensures Fold(Next, s, SecondActions(f, |path|, triggered)) == Some(SecondAnswer(s, f, waker, triggered))
  {
    var locked := LockedPoll(s, f);
    WalkEnds(locked, f, path, triggered);
    LockedStep(s, f);
    if triggered {
      ReadyAfterLook(s, f, waker);
      assert Reads(f, |path|) + [] == Reads(f, |path|);
    } else {
      RegisterAfterLook(s, f, waker);
      FoldOneMore(Next, locked, Reads(f, |path|), PollRegister(f));
    }
    FoldFirst(s, PollLock(f), locked, Reads(f, |path|) + if triggered then [] else [PollRegister(f)]);
  }

  lemma LockedStep(s: State, f: nat)
    requires f in s.futures && f in s.polls && s.polls[f].at.None? && !s.polls[f].locked
    requires s.futures[f].token in s.tokens && !s.tokens[s.futures[f].token].locked
    ensures Next(s, PollLock(f)) == Some(LockedPoll(s, f))
  {
  }

  lemma ReadyAfterLook(s: State, f: nat, waker: nat)
    requires f in s.futures && f in s.polls && s.futures[f].token in s.tokens && !s.tokens[s.futures[f].token].locked
    ensures Answered(LockedPoll(s, f), f) == SecondAnswer(s, f, waker, true)
  {
    var n, locked := s.futures[f].token, LockedPoll(s, f);
    assert locked.tokens[n := s.tokens[n]] == s.tokens && locked.polls - {f} == s.polls - {f};
  }

  lemma RegisterAfterLook(s: State, f: nat, waker: nat)
    requires f in s.futures && f in s.polls && s.polls[f] == Poll(waker, None, false)
    requires s.futures[f].token in s.tokens && !s.tokens[s.futures[f].token].locked
    ensures Next(Standing(LockedPoll(s, f), f, None), PollRegister(f)) == Some(SecondAnswer(s, f, waker, false))
  {
    var n, key, past := s.futures[f].token, s.futures[f].key, Standing(LockedPoll(s, f), f, None);
    assert past.polls - {f} == s.polls - {f};
    assert past.tokens[n := WithWaiter(past.tokens[n], key, waker)][n := WithWaiter(s.tokens[n], key, waker)]
        == s.tokens[n := WithWaiter(s.tokens[n], key, waker)];
  }

  lemma {:induction false} LockHidesNothing(tokens: map<nat, Token>, n: nat, m: nat)
    requires n in tokens
    ensures Cancelled(tokens[n := tokens[n].(locked := true)], m) == Cancelled(tokens, m)
    decreases m
  {
    if m in tokens && tokens[m].parent.Some? && tokens[m].parent.value < m {
      LockHidesNothing(tokens, n, tokens[m].parent.value);
    }
  }

  lemma OtherLeavesThePoll(s: State, f: nat, a: Action)
    requires f in s.polls && s.polls[f].at.None? && !s.polls[f].locked && f in s.futures
    requires Next(s, a).Some? && a != PollLock(f)
    ensures var after := Next(s, a).value;
            && f in after.polls && after.polls[f] == s.polls[f]
            && f in after.futures && after.futures[f].token == s.futures[f].token && after.futures[f].key == s.futures[f].key
  {
  }

  /** Whatever the others do, a poll that waits for the lock stays where it is. */
  lemma {:induction false} OthersLeaveThePoll(s: State, f: nat, others: seq<Action>, after: State)
    requires f in s.polls && s.polls[f].at.None? && !s.polls[f].locked && f in s.futures
    requires Fold(Next, s, others) == Some(after) && PollLock(f) !in others
    ensures f in after.polls && after.polls[f] == s.polls[f]
    ensures f in after.futures && after.futures[f].token == s.futures[f].token && after.futures[f].key == s.futures[f].key
  {
    if others != [] {
      var front, a := others[..|others| - 1], others[|others| - 1];
      var before := Fold(Next, s, front).value;
      OthersLeaveThePoll(s, f, front, before);
      assert a in others;
      OtherLeavesThePoll(before, f, a);
    }
  }

  class Tree {
    var tokens: map<nat, Token>
    var nextId: nat

    constructor ()
      ensures tokens == map[] && nextId == 0
    {
      tokens, nextId := map[], 0;
    }

    ghost predicate Valid()
      reads this
    {
      TokensOk(tokens, nextId)
    }

    /** The state of the protocol with these tokens, and whatever else is going on. */
    ghost predicate IsIn(s: State)
      reads this
    {
      s.tokens == tokens && s.nextId == nextId && TreeOk(s) && forall n :: n in tokens ==> !tokens[n].locked
    }

    /** Walks up from the token until one has fired. */
    method IsTriggered(n: nat) returns (triggered: bool, ghost path: seq<nat>)
      requires Valid() && n in tokens
      ensures triggered == Cancelled(tokens, n) && IsWalk(tokens, n, path, triggered)
    {
      var current := n;
      path := [n];
      while true
        invariant current in tokens && Cancelled(tokens, current) == Cancelled(tokens, n)
        invariant path != [] && path[0] == n && path[|path| - 1] == current && forall m :: m in path ==> m in tokens
        invariant forall i :: 0 <= i < |path| - 1 ==>
                                !tokens[path[i]].fired && tokens[path[i]].parent == Some(path[i + 1])
        decreases current
      {
        if tokens[current].fired {
          return true, path;
        }
        assert TokenOk(tokens, nextId, current);
        match tokens[current].parent
        case None => return false, path;
        case Some(parent) =>
          current := parent;
          path := path + [parent];
      }
    }

    method Fire(n: nat) returns (wakers: set<nat>, children: seq<nat>)
      requires n in tokens
      modifies this`tokens
      ensures tokens == old(tokens)[n := Fired(old(tokens)[n])]
      ensures wakers == FiredWakers(old(tokens)[n]) && children == FiredChildren(old(tokens)[n])
    {
      var token := tokens[n];
      if token.fired {
        assert tokens == tokens[n := tokens[n]];
        return {}, [];
      }
      wakers, children := token.waiters.Values, token.children;
      tokens := tokens[n := token.(fired := true, waiters := map[], children := [])];
    }

    method Child(n: nat, ghost s: State) returns (child: nat)
      requires IsIn(s) && n in tokens && tokens[n].live
      modifies this
      ensures Next(s, Action.Child(n)) == Some(s.(tokens := tokens, nextId := nextId))
      ensures child == old(nextId) && child !in old(tokens) && tokens.Keys == old(tokens).Keys + {child}
      ensures tokens[child].live && tokens[child].fired == old(tokens)[n].fired
      ensures !old(tokens)[n].fired ==> tokens[child].parent == Some(n) && Above(tokens, n, child)
      ensures forall m :: m in old(tokens) ==>
                            tokens[m].parent == old(tokens)[m].parent && tokens[m].fired == old(tokens)[m].fired
    {
      child := MakeChild(n, s);
      ChildIsLinked(s, n);
    }

    method MakeChild(n: nat, ghost s: State) returns (child: nat)
      requires IsIn(s) && n in tokens && tokens[n].live
      modifies this
      ensures Next(s, Action.Child(n)) == Some(s.(tokens := tokens, nextId := nextId)) && child == old(nextId)
    {
      child := nextId;
      nextId := nextId + 1;
      if tokens[n].fired {
        tokens := tokens[child := NewToken(true, None)];
        return;
      }
      var token := tokens[n];
      var kept := token.children;
      if |kept| >= token.liveChildren * 2 + PRUNE_SLACK {
        kept := Retained(kept, AliveIn(tokens));
        token := token.(scanned := token.scanned + |token.children|);
      }
      NextIdIsNew(tokens, child);
      tokens := tokens[n := token.(children := kept + [child], liveChildren := token.liveChildren + 1,
      pushes := token.pushes + 1)]
      [child := NewToken(false, Some(n))];
    }

    /** Takes from the children just taken those still held by something. */
    method Upgrade(children: seq<nat>, pending: seq<nat>, ghost t: nat, ghost s: State)
      returns (extended: seq<nat>, ghost log: seq<Action>)
      requires t in s.triggers && s.triggers[t].taken == children && s.triggers[t].pending == pending
      requires s.tokens == tokens
      requires forall c :: c in children ==> c in tokens
      ensures Fold(Next, s, log) == Some(Midway(s, tokens, t, Running(extended, [], s.triggers[t].wakers)))
      ensures AllTriggering(log) && |extended| <= |pending| + |children|
      ensures forall c :: c in extended ==> c in pending || c in children
    {
      extended, log := pending, [];
      assert s == Midway(s, tokens, t, s.triggers[t].(pending := extended, taken := children[0..]));
      for i := 0 to |children|
        invariant Fold(Next, s, log)
               == Some(Midway(s, tokens, t, s.triggers[t].(pending := extended, taken := children[i..])))
        invariant AllTriggering(log) && |extended| <= |pending| + i
        invariant forall c :: c in extended ==> c in pending || c in children
      {
        UpgradeOne(s, tokens, t, s.triggers[t].(pending := extended, taken := children[i..]));
        FoldOneMore(Next, s, log, Action.Upgrade(t));
        assert children[i..][1..] == children[i + 1..];
        log := log + [Action.Upgrade(t)];
        assert extended + [] == extended;
        if tokens[children[i]].live {
          extended := extended + [children[i]];
        }
      }
    }

    /** One round of the worklist: fires its last token and puts that token's live children on it. */
    method FireOne(pending: seq<nat>, wakers: set<nat>, ghost n: nat, ghost start: map<nat, Token>, ghost t: nat,
                   ghost s: State)
      returns (rest: seq<nat>, woken: set<nat>, ghost log: seq<Action>)
      requires TokensOk(start, nextId) && n in start && forall m :: m in start ==> !start[m].locked
      requires pending != [] && FiredUnder(start, tokens, n) && AllUnder(start, n, pending)
      modifies this`tokens
      ensures Fold(Next, Midway(s, old(tokens), t, Running(pending, [], wakers)), log)
           == Some(Midway(s, tokens, t, Running(rest, [], woken)))
      ensures FiredUnder(start, tokens, n) && AllUnder(start, n, rest) && AllTriggering(log)
      ensures Unfired(tokens) == Unfired(old(tokens)) - {pending[|pending| - 1]}
      ensures pending[|pending| - 1] in Unfired(old(tokens)) || |rest| < |pending|
    {
      var m := pending[|pending| - 1];
      FireIsUnder(start, nextId, tokens, n, m);
      FireStep(s, tokens, t, pending, wakers, m);
      var fired, taken := Fire(m);
      woken := wakers + fired;
      ghost var before := Midway(s, old(tokens), t, Running(pending, [], wakers));
      ghost var middle := Midway(s, tokens, t, Running(pending[..|pending| - 1], taken, woken));
      rest, log := Upgrade(taken, pending[..|pending| - 1], t, middle);
      MidwayTwice(s, tokens, tokens, t, middle.triggers[t], Running(rest, [], woken));
      FoldFirst(before, Action.Fire(t), middle, log);
      log := [Action.Fire(t)] + log;
      WorklistStaysUnder(start, n, pending, taken, rest);
      assert m in Unfired(old(tokens)) || taken == [];
    }

    /**
     * Fires the token and everything at or under it, then wakes every waiter taken on the way. The whole call is one run
     * of the protocol, so it keeps what every run keeps; alone, it leaves no live token at or under `n` unfired.
     */
    method Trigger(n: nat, ghost t: nat, ghost s: State) returns (ghost log: seq<Action>, ghost after: State)
      requires IsIn(s) && n in tokens && tokens[n].live && t !in s.triggers
      modifies this`tokens
      ensures Fold(Next, s, log) == Some(after) && IsIn(after)
      ensures after.triggers == s.triggers && after.polls == s.polls && SameSlots(s.futures, after.futures)
      ensures FiredUnder(old(tokens), tokens, n)
      ensures s.triggers == map[] ==>
                forall m :: m in tokens && tokens[m].live && Above(tokens, n, m) ==> tokens[m].fired
    {
      var wakers: set<nat>;
      log, wakers := Propagate(n, t, s);
      ghost var wakes;
      wakes, after := WakeAll(wakers, t, Midway(s, tokens, t, Running([], [], wakers)));
      FoldJoins(Next, s, log, wakes);
      log := log + wakes;
      assert s.triggers[t := Running([], [], wakers)] - {t} == s.triggers;
      TriggeringKeepsTree(s, log, after);
      if s.triggers == map[] { AllHaveFired(after, n); }
    }

    method Propagate(n: nat, ghost t: nat, ghost s: State) returns (ghost log: seq<Action>, wakers: set<nat>)
      requires TokensOk(tokens, nextId) && s.tokens == tokens && forall m :: m in tokens ==> !tokens[m].locked
      requires n in tokens && tokens[n].live && t !in s.triggers
      modifies this`tokens
      ensures Fold(Next, s, log) == Some(Midway(s, tokens, t, Running([], [], wakers)))
      ensures FiredUnder(old(tokens), tokens, n) && n !in Unfired(tokens) && AllTriggering(log)
    {
      ghost var start := tokens;
      var pending := [n];
      wakers := {};
      log := [Begin(t, n)];
      FoldFirst(s, Begin(t, n), Midway(s, tokens, t, Running(pending, [], wakers)), []);
      assert [Begin(t, n)] + [] == [Begin(t, n)];
      while pending != []
        invariant FiredUnder(start, tokens, n) && AllUnder(start, n, pending) && AllTriggering(log)
        invariant Fold(Next, s, log) == Some(Midway(s, tokens, t, Running(pending, [], wakers)))
        invariant n !in Unfired(tokens) || pending == [n]
        decreases |Unfired(tokens)|, |pending|
      {
        ghost var round;
        pending, wakers, round := FireOne(pending, wakers, n, start, t, s);
        FoldJoins(Next, s, log, round);
        log := log + round;
      }
      assert n in tokens;
    }

    /** Wakes the wakers, in any order, and returns. */
    method WakeAll(wakers: set<nat>, ghost t: nat, ghost s: State) returns (ghost log: seq<Action>, ghost after: State)
      requires t in s.triggers && s.triggers[t] == Running([], [], wakers)
      ensures Fold(Next, s, log) == Some(after) && AllTriggering(log)
      ensures after.tokens == s.tokens && after.nextId == s.nextId && after.polls == s.polls
      ensures after.triggers == s.triggers - {t} && SameSlots(s.futures, after.futures)
    {
      var left := wakers;
      log, after := [], s;
      while left != {}
        invariant Waking(s, log, after, t, left)
        decreases |left|
      {
        var waker :| waker in left;
        OneWoken(s, log, after, t, left, waker);
        log, after := log + [Wake(t, waker)], DoWake(after, t, waker).value;
        left := left - {waker};
      }
      FoldOneMore(Next, s, log, Return(t));
      log, after := log + [Return(t)], DoReturn(after, t).value;
    }

    /**
     * One poll: looks without the lock and, if nothing has fired, takes the lock, looks again and files the waker. Until it
     * has the lock the others do what they may: `disturbed` is what they have made of the state when it is free. The call
     * and what they did is a run of the protocol. If the first look finds nothing, the answer is about `disturbed`.
     */
    method PollTriggered(n: nat, key: Option<nat>, waker: nat, disturbed: State, ghost f: nat,
                         ghost run: seq<Action>, ghost s: State, ghost others: seq<Action>)
      returns (ready: bool, used: Option<nat>, ghost log: seq<Action>, ghost after: State)
      requires Reached(run, s) && s.tokens == tokens && s.nextId == nextId
      requires f in s.futures && s.futures[f].token == n && s.futures[f].key == key && f !in s.polls
      requires Fold(Next, Looked(s, f, waker), others) == Some(disturbed) && PollLock(f) !in others
      requires Registrations(run) + Registrations(others) < KEYS && n in disturbed.tokens && !disturbed.tokens[n].locked
      modifies this
      ensures Fold(Next, s, log) == Some(after) && after.tokens == tokens && after.nextId == nextId
      ensures f !in after.polls && f in after.futures
      ensures after.futures[f] == if ready then Future(n, key, Ready) else Future(n, used, Waiting(waker))
      ensures if Cancelled(old(tokens), n) then ready && tokens == old(tokens) && used == key
              else
                && ready == Cancelled(disturbed.tokens, n) && tokens == Filed(disturbed.tokens, n, key, waker, ready)
                && used == if ready then key else Some(KeyFor(SlotsOf(disturbed.tokens[n]), key))
    {
      ghost var path;
      BeforeThePoll(run, s, f);
      ready, path := IsTriggered(n);
      FirstLook(s, f, waker, path, ready);
      log, after, used := [PollBegin(f, waker)] + Reads(f, |path|), FirstAnswer(s, f, waker, ready), key;
      if ready {
        return;
      }
      WhenTheLockIsFree(run, s, f, waker, |path|, others, disturbed);
      tokens, nextId := disturbed.tokens, disturbed.nextId;
      ghost var rest;
      ready, used, rest := PollLocked(n, key, waker, f, disturbed);
      after := SecondAnswer(disturbed, f, waker, ready);
      ThreeParts(s, log, Looked(s, f, waker), others, disturbed, rest, after);
      log := log + others + rest;
    }

    /** The part of a poll under the lock. */
    method PollLocked(n: nat, key: Option<nat>, waker: nat, ghost f: nat, ghost s: State)
      returns (ready: bool, used: Option<nat>, ghost log: seq<Action>)
      requires TreeOk(s) && f in s.futures && s.futures[f].token == n && s.futures[f].key == key
      requires f in s.polls && s.polls[f] == Poll(waker, None, false) && n in s.tokens && !s.tokens[n].locked
      requires tokens == s.tokens && nextId == s.nextId
      modifies this`tokens
      ensures Fold(Next, s, log) == Some(SecondAnswer(s, f, waker, ready))
      ensures ready == Cancelled(s.tokens, n) && tokens == Filed(s.tokens, n, key, waker, ready)
      ensures used == if ready then key else Some(KeyFor(SlotsOf(s.tokens[n]), key))
    {
      LockedStep(s, f);
      PollLockKeepsTree(s, f);
      LockHidesNothing(s.tokens, n, n);
      ghost var path;
      tokens := tokens[n := tokens[n].(locked := true)];
      used := key;
      ready, path := IsTriggered(n);
      SecondLook(s, f, waker, path, ready);
      log := SecondActions(f, |path|, ready);
      if !ready {
        used := Some(KeyFor(SlotsOf(tokens[n]), key));
        tokens := tokens[n := WithWaiter(tokens[n], key, waker)];
      }
      LockAndFile(s.tokens, n, key, waker, ready);
      tokens := tokens[n := tokens[n].(locked := false)];
    }

    /** The future of `f` goes, and with it its registration. */
    method RemoveWaiter(n: nat, key: nat, ghost f: nat, ghost s: State)
      requires s.tokens == tokens && n in tokens && !tokens[n].locked
      requires f in s.futures && s.futures[f].token == n && s.futures[f].key == Some(key) && f !in s.polls
      modifies this`tokens
      ensures Next(s, DropFuture(f)) == Some(s.(tokens := tokens, futures := s.futures - {f}))
      ensures tokens == old(tokens)[n := WithoutWaiter(old(tokens)[n], key)]
    {
      tokens := tokens[n := WithoutWaiter(tokens[n], key)];
    }

    method ReleaseParent(n: nat) returns (parent: Option<nat>)
      requires n in tokens && tokens[n].live
      modifies this`tokens
      ensures tokens == Released(old(tokens)[n := old(tokens)[n].(live := false)], n) && parent == old(tokens)[n].parent
    {
      parent := tokens[n].parent;
      tokens := Released(tokens[n := tokens[n].(live := false)], n);
    }

    /** Drops the last reference to a token, and in a loop every token above it that this leaves with none. */
    method Drop(n: nat, held: set<nat>, ghost s: State) returns (ghost log: seq<Action>)
      requires TreeOk(s) && CountsOk(s.tokens) && HoldsAll(s, held) && s.tokens == tokens && s.nextId == nextId
      requires n in tokens && tokens[n].live && !Kept(tokens, held, n) && NoGarbage(tokens, held, Some(n))
      modifies this`tokens
      ensures Fold(Next, s, log) == Some(s.(tokens := tokens))
      ensures NoGarbage(tokens, held, None) && CountsOk(tokens)
    {
      var next := Some(n);
      log := [];
      while next.Some?
        invariant Fold(Next, s, log) == Some(s.(tokens := tokens))
        invariant TreeOk(s.(tokens := tokens)) && CountsOk(tokens) && NoGarbage(tokens, held, next)
        invariant next.Some? ==> next.value in tokens && tokens[next.value].live
        decreases if next.Some? then next.value + 1 else 0
      {
        var m := next.value;
        if Kept(tokens, held, m) {
          next := None;
          break;
        }
        OneMoreGone(s, log, tokens, m, held);
        next := ReleaseParent(m);
        log := log + [Die(m), Release(m)];
      }
    }
  }
}
