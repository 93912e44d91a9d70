/**
 * A conversation and the changes a thread makes to it. The message rules themselves are not part of this model: they are
 * a function that allows or refuses a change. What is fixed is that no entry id and no turn id is ever used twice.
 */
module Conversations {
  import opened Prelude

  type Author(==, !new)

  datatype Body =
    | AgentMail(sender: nat, author: Author, source: nat) | RuntimeNotice | HumanMessage | OtherIncoming
    | ModelResponse | ToolResults | Closure

  datatype Entry = Entry(id: nat, body: Body)

  datatype Turn =
    | InputTurn(id: nat, entries: seq<Entry>)
    | AiTurn(id: nat, agent: nat, author: Author, entries: seq<Entry>)

  datatype Conversation = Conversation(turns: seq<Turn>)

  /** Who writes into which AI turn. */
  datatype TurnRef = TurnRef(id: nat, agent: nat, author: Author)

  datatype Change = NewTurn(turn: Turn) | NewEntry(into: nat, entry: Entry)

  datatype Rules = Rules(allows: (Conversation, Change) -> bool)

  datatype SessionError = RulesRefuse | WrongTurn(turn: nat) | WrongMailEntry(mail: nat) | PortFailed

  /** How often an id is used. */
  function UsesIn(entries: seq<Entry>, id: nat): nat {
    if entries == [] then 0 else UsesIn(entries[..|entries| - 1], id) + if entries[|entries| - 1].id == id then 1 else 0
  }

  function Uses(turns: seq<Turn>, id: nat): nat {
    if turns == [] then 0 else Uses(turns[..|turns| - 1], id) + UsesIn(turns[|turns| - 1].entries, id)
  }

  /** The conversation has an entry with this id. */
  predicate Holds(c: Conversation, id: nat) { Uses(c.turns, id) > 0 }

  /** No entry id occurs twice. */
  ghost predicate UniqueIds(c: Conversation) { forall id :: Uses(c.turns, id) <= 1 }

  /** `after` holds what `before` does, and `added` besides, which were not there before. */
  ghost predicate Gains(before: Conversation, after: Conversation, added: set<nat>) {
    && UniqueIds(after)
    && (forall id :: Holds(after, id) <==> Holds(before, id) || id in added)
    && (forall id :: id in added ==> !Holds(before, id))
  }

  function FindTurn(turns: seq<Turn>, id: nat): (at: Option<nat>)
    ensures at.Some? ==> at.value < |turns| && turns[at.value].id == id
    ensures at.None? ==> forall i :: 0 <= i < |turns| ==> turns[i].id != id
  {
    if turns == [] then None
    else if turns[|turns| - 1].id == id then Some(|turns| - 1)
    else FindTurn(turns[..|turns| - 1], id)
  }

  function WithEntry(turns: seq<Turn>, at: nat, entry: Entry): seq<Turn>
    requires at < |turns|
  {
    turns[at := turns[at].(entries := turns[at].entries + [entry])]
  }

  predicate AllNew(c: Conversation, entries: seq<Entry>) {
    (forall e :: e in entries ==> !Holds(c, e.id))
    && forall i, j :: 0 <= i < j < |entries| ==> entries[i].id != entries[j].id
  }

  function PushTurn(rules: Rules, c: Conversation, turn: Turn): Result<Conversation, SessionError> {
    if FindTurn(c.turns, turn.id).Some? || !AllNew(c, turn.entries) || !rules.allows(c, NewTurn(turn)) then Err(RulesRefuse)
    else Ok(Conversation(c.turns + [turn]))
  }

  function PushEntry(rules: Rules, c: Conversation, turn: nat, entry: Entry): Result<Conversation, SessionError> {
    match FindTurn(c.turns, turn)
    case None => Err(RulesRefuse)
    case Some(at) =>
      if Holds(c, entry.id) || !rules.allows(c, NewEntry(turn, entry)) then Err(RulesRefuse)
      else Ok(Conversation(WithEntry(c.turns, at, entry)))
  }

  function ApplyInputTurn(rules: Rules, c: Conversation, turn: Turn): Result<Conversation, SessionError> {
    PushTurn(rules, c, turn)
  }

  /** Whether the turn is there. A turn of somebody else under that id is an error. */
  function Existing(c: Conversation, turn: TurnRef): Result<bool, SessionError> {
    match FindTurn(c.turns, turn.id)
    case None => Ok(false)
    case Some(at) =>
      if c.turns[at].AiTurn? && c.turns[at].agent == turn.agent && c.turns[at].author == turn.author then Ok(true)
      else Err(WrongTurn(turn.id))
  }

  /** Adds an entry to its AI turn, which the first entry opens. Responses and results are entries like any other. */
  function ApplyEntry(rules: Rules, c: Conversation, turn: TurnRef, entry: Entry): Result<Conversation, SessionError> {
    match Existing(c, turn)
    case Err(error) => Err(error)
    case Ok(true) => PushEntry(rules, c, turn.id, entry)
    case Ok(false) => PushTurn(rules, c, AiTurn(turn.id, turn.agent, turn.author, [entry]))
  }

  function ApplyClosure(rules: Rules, c: Conversation, turn: TurnRef, closure: Entry): Result<Conversation, SessionError> {
    match Existing(c, turn)
    case Err(error) => Err(error)
    case Ok(true) => PushEntry(rules, c, turn.id, closure)
    case Ok(false) => Err(WrongTurn(turn.id))
  }

  // ----- no id is ever used twice -----

  function IdsOf(entries: seq<Entry>): set<nat> { set e | e in entries :: e.id }

  lemma {:induction false} UsedIsAnId(entries: seq<Entry>, id: nat)
    ensures UsesIn(entries, id) > 0 <==> id in IdsOf(entries)
  {
    if entries != [] {
      var front, last := entries[..|entries| - 1], entries[|entries| - 1];
      UsedIsAnId(front, id);
      assert entries == front + [last];
      assert IdsOf(entries) == IdsOf(front) + {last.id} by {
        assert last in entries && forall e :: e in front ==> e in entries;
      }
    }
  }

  lemma {:induction false} DifferentIdsAreUsedOnce(entries: seq<Entry>, id: nat)
    requires forall i, j :: 0 <= i < j < |entries| ==> entries[i].id != entries[j].id
    ensures UsesIn(entries, id) <= 1
  {
    if entries != [] {
      var front, last := entries[..|entries| - 1], entries[|entries| - 1];
      DifferentIdsAreUsedOnce(front, id);
      UsedIsAnId(front, id);
      assert last.id !in IdsOf(front);
    }
  }

  lemma {:induction false} EntryIsOneUse(turns: seq<Turn>, at: nat, entry: Entry, id: nat)
    requires at < |turns|
    ensures Uses(WithEntry(turns, at, entry), id) == Uses(turns, id) + if id == entry.id then 1 else 0
  {
    var after, front := WithEntry(turns, at, entry), turns[..|turns| - 1];
    if at == |turns| - 1 {
      assert after[..|after| - 1] == front;
      assert (turns[at].entries + [entry])[..|turns[at].entries|] == turns[at].entries;
    } else {
      assert after[..|after| - 1] == WithEntry(front, at, entry);
      EntryIsOneUse(front, at, entry, id);
    }
  }

  /** A pushed turn adds exactly the ids of its entries, all of them new. */
  lemma PushTurnGains(rules: Rules, c: Conversation, turn: Turn)
    requires PushTurn(rules, c, turn).Ok? && UniqueIds(c)
    ensures Gains(c, PushTurn(rules, c, turn).value, IdsOf(turn.entries))
  {
    var after := PushTurn(rules, c, turn).value;
    assert after.turns[..|after.turns| - 1] == c.turns;
    forall id
      ensures Uses(after.turns, id) <= 1 && (Holds(after, id) <==> Holds(c, id) || id in IdsOf(turn.entries))
    {
      UsedIsAnId(turn.entries, id);
      DifferentIdsAreUsedOnce(turn.entries, id);
    }
  }

  /** A pushed entry adds exactly its id, and that is new. */
  lemma PushEntryGains(rules: Rules, c: Conversation, turn: nat, entry: Entry)
    requires PushEntry(rules, c, turn, entry).Ok? && UniqueIds(c)
    ensures Gains(c, PushEntry(rules, c, turn, entry).value, {entry.id})
  {
    var after := PushEntry(rules, c, turn, entry).value;
    forall id ensures Uses(after.turns, id) == Uses(c.turns, id) + if id == entry.id then 1 else 0 {
      EntryIsOneUse(c.turns, FindTurn(c.turns, turn).value, entry, id);
    }
  }

  lemma ApplyEntryGains(rules: Rules, c: Conversation, turn: TurnRef, entry: Entry)
    requires ApplyEntry(rules, c, turn, entry).Ok? && UniqueIds(c)
    ensures Gains(c, ApplyEntry(rules, c, turn, entry).value, {entry.id})
  {
    match Existing(c, turn)
    case Ok(true) => PushEntryGains(rules, c, turn.id, entry);
    case Ok(false) =>
      PushTurnGains(rules, c, AiTurn(turn.id, turn.agent, turn.author, [entry]));
      assert IdsOf([entry]) == {entry.id} by { assert entry in [entry]; }
  }

  lemma ApplyClosureGains(rules: Rules, c: Conversation, turn: TurnRef, closure: Entry)
    requires ApplyClosure(rules, c, turn, closure).Ok? && UniqueIds(c)
    ensures Gains(c, ApplyClosure(rules, c, turn, closure).value, {closure.id})
  {
    PushEntryGains(rules, c, turn.id, closure);
  }

  // ----- where an entry ends up -----

  /** No turn id occurs twice. */
  ghost predicate UniqueTurns(c: Conversation) { forall i, j :: 0 <= i < j < |c.turns| ==> c.turns[i].id != c.turns[j].id }

  /** The turn at `at` is the AI turn of that agent and author. */
  predicate IsAt(c: Conversation, at: nat, turn: TurnRef) {
    && at < |c.turns| && c.turns[at].AiTurn?
    && c.turns[at].id == turn.id && c.turns[at].agent == turn.agent && c.turns[at].author == turn.author
  }

  /** Some other turn has that id. */
  ghost predicate IsTaken(c: Conversation, turn: TurnRef) {
    exists i :: 0 <= i < |c.turns| && c.turns[i].id == turn.id && !IsAt(c, i, turn)
  }

  ghost predicate IsFree(c: Conversation, turn: nat) { forall i :: 0 <= i < |c.turns| ==> c.turns[i].id != turn }

  /** The turn at `at` has got the entries as its last ones, and nothing else has changed. */
  ghost predicate IsAddedAt(c: Conversation, after: Conversation, at: nat, entries: seq<Entry>) {
    && at < |c.turns| && |after.turns| == |c.turns|
    && (forall i :: 0 <= i < |c.turns| && i != at ==> after.turns[i] == c.turns[i])
    && after.turns[at] == c.turns[at].(entries := c.turns[at].entries + entries)
  }

  ghost predicate HasEntry(entries: seq<Entry>, id: nat) { exists k :: 0 <= k < |entries| && entries[k].id == id }

  /** An entry with that id is somewhere in the conversation. */
  ghost predicate IsIn(c: Conversation, id: nat) { exists i :: 0 <= i < |c.turns| && HasEntry(c.turns[i].entries, id) }

  lemma {:induction false} UsedIsIn(entries: seq<Entry>, id: nat)
    ensures UsesIn(entries, id) > 0 <==> HasEntry(entries, id)
  {
    if entries != [] {
      var front := entries[..|entries| - 1];
      UsedIsIn(front, id);
      assert forall k :: 0 <= k < |front| ==> front[k] == entries[k];
    }
  }

  /** To hold an id is to have an entry with it. */
  lemma {:induction false} HeldIsIn(c: Conversation, id: nat)
    ensures Holds(c, id) <==> IsIn(c, id)
    decreases |c.turns|
  {
    if c.turns != [] {
      var front := Conversation(c.turns[..|c.turns| - 1]);
      HeldIsIn(front, id);
      UsedIsIn(c.turns[|c.turns| - 1].entries, id);
      assert forall i :: 0 <= i < |front.turns| ==> front.turns[i] == c.turns[i];
    }
  }

  /**
   * Where an applied entry goes: to the end of the AI turn of its id, agent and author, or, if no turn has that id, into a
   * new one at the end. A turn of somebody else under that id is an error of its own; only the rules refuse the rest.
   */
  lemma ApplyEntryMeans(rules: Rules, c: Conversation, turn: TurnRef, entry: Entry)
    requires UniqueTurns(c)
    ensures var first := AiTurn(turn.id, turn.agent, turn.author, [entry]);
            match ApplyEntry(rules, c, turn, entry)
            case Ok(after) =>
              && UniqueTurns(after) && !IsIn(c, entry.id)
              && (|| (rules.allows(c, NewEntry(turn.id, entry)) &&
                      exists at :: IsAt(c, at, turn) && IsAddedAt(c, after, at, [entry]))
                  || (IsFree(c, turn.id) && after.turns == c.turns + [first] && rules.allows(c, NewTurn(first))))
            case Err(WrongTurn(id)) => id == turn.id && IsTaken(c, turn)
            case Err(fault) =>
              && fault == RulesRefuse && !IsTaken(c, turn)
              && (|| IsIn(c, entry.id)
                  || !rules.allows(c, if IsFree(c, turn.id) then NewTurn(first) else NewEntry(turn.id, entry)))
  {
    HeldIsIn(c, entry.id);
    var first := AiTurn(turn.id, turn.agent, turn.author, [entry]);
    assert entry in first.entries;
    if FindTurn(c.turns, turn.id).Some? {
      var at := FindTurn(c.turns, turn.id).value;
      assert IsAt(c, at, turn) <==> Existing(c, turn) == Ok(true);
      if ApplyEntry(rules, c, turn, entry).Ok? {
        assert IsAddedAt(c, ApplyEntry(rules, c, turn, entry).value, at, [entry]);
      }
    }
  }

  /** A closure goes to the end of the AI turn of its id, agent and author, which has to be there. */
  lemma ApplyClosureMeans(rules: Rules, c: Conversation, turn: TurnRef, closure: Entry)
    requires UniqueTurns(c)
    ensures match ApplyClosure(rules, c, turn, closure)
            case Ok(after) =>
              && UniqueTurns(after) && !IsIn(c, closure.id) && rules.allows(c, NewEntry(turn.id, closure))
              && exists at :: IsAt(c, at, turn) && IsAddedAt(c, after, at, [closure])
            case Err(WrongTurn(id)) => id == turn.id && (IsTaken(c, turn) || IsFree(c, turn.id))
            case Err(fault) =>
              && fault == RulesRefuse && !IsTaken(c, turn) && !IsFree(c, turn.id)
              && (IsIn(c, closure.id) || !rules.allows(c, NewEntry(turn.id, closure)))
  {
    HeldIsIn(c, closure.id);
    if FindTurn(c.turns, turn.id).Some? {
      var at := FindTurn(c.turns, turn.id).value;
      assert IsAt(c, at, turn) <==> Existing(c, turn) == Ok(true);
      if ApplyClosure(rules, c, turn, closure).Ok? {
        assert IsAddedAt(c, ApplyClosure(rules, c, turn, closure).value, at, [closure]);
      }
    }
  }

  /** A pushed turn becomes the last one, if neither its id nor any of its entries' is there and the rules allow it. */
  lemma ApplyInputTurnMeans(rules: Rules, c: Conversation, turn: Turn)
    requires UniqueTurns(c)
    ensures match ApplyInputTurn(rules, c, turn)
            case Ok(after) => UniqueTurns(after) && after.turns == c.turns + [turn]
            case Err(fault) => fault == RulesRefuse
    ensures ApplyInputTurn(rules, c, turn).Ok? <==>
              && IsFree(c, turn.id) && rules.allows(c, NewTurn(turn))
              && (forall e :: e in turn.entries ==> !IsIn(c, e.id))
              && forall i, j :: 0 <= i < j < |turn.entries| ==> turn.entries[i].id != turn.entries[j].id
  {
    forall e | e in turn.entries ensures Holds(c, e.id) <==> IsIn(c, e.id) { HeldIsIn(c, e.id); }
    assert FindTurn(c.turns, turn.id).Some? <==> !IsFree(c, turn.id);
  }

  // ----- the open turn -----

  /** The turn at `at` is an AI turn of the agent that no closure has ended. */
  predicate IsOpenAt(turns: seq<Turn>, agent: nat, at: nat) {
    && at < |turns| && turns[at].AiTurn? && turns[at].agent == agent
    && forall e :: e in turns[at].entries ==> e.body != Closure
  }

  ghost predicate IsLastOpen(turns: seq<Turn>, agent: nat, at: nat) {
    IsOpenAt(turns, agent, at) && forall i: nat :: IsOpenAt(turns, agent, i) ==> i <= at
  }

  /** The last open AI turn of an agent. */
  function OpenAiTurn(turns: seq<Turn>, agent: nat): (turn: Option<TurnRef>)
    ensures turn.Some? ==> turn.value.agent == agent
  {
    if turns == [] then None
    else
      var last := turns[|turns| - 1];
      if last.AiTurn? && last.agent == agent && forall e :: e in last.entries ==> e.body != Closure
      then Some(TurnRef(last.id, agent, last.author))
      else OpenAiTurn(turns[..|turns| - 1], agent)
  }

  /** It is open, it is the agent's, and nothing after it is both; there is none only if no turn is. */
  lemma {:induction false} OpenAiTurnMeans(turns: seq<Turn>, agent: nat)
    ensures match OpenAiTurn(turns, agent)
            case None => forall i: nat :: !IsOpenAt(turns, agent, i)
            case Some(turn) =>
              exists at :: IsLastOpen(turns, agent, at) && IsAt(Conversation(turns), at, turn)
  {
    if turns != [] {
      var front := turns[..|turns| - 1];
      OpenAiTurnMeans(front, agent);
      forall i: nat | i < |front| ensures IsOpenAt(turns, agent, i) <==> IsOpenAt(front, agent, i) {
        assert turns[i] == front[i];
      }
      if IsOpenAt(turns, agent, |front|) {
        assert IsLastOpen(turns, agent, |front|) && IsAt(Conversation(turns), |front|, OpenAiTurn(turns, agent).value);
      } else if OpenAiTurn(front, agent).Some? {
        var turn := OpenAiTurn(front, agent).value;
        var at :| IsLastOpen(front, agent, at) && IsAt(Conversation(front), at, turn);
        assert IsLastOpen(turns, agent, at) && IsAt(Conversation(turns), at, turn);
      }
    }
  }
}
