/**
 * The boundary between an agent's turns, where what waits in its queue enters its conversation. Delivery is at least once
 * and storage is once: what the copy already holds is skipped, and what a fault left undone goes back to the queue.
 */
module Boundaries {
  import opened Prelude
  import opened Conversations
  import opened Sessions
  import opened Inboxes

  /** What a boundary did: the ids stored, those skipped as already held, and those it could not mark as read. */
  datatype Boundary = Boundary(stored: seq<nat>, skipped: seq<nat>, unmarked: seq<nat>)

  /** What builds the entry of a mail, unless the message rules refuse it. */
  type Builder = MailItem -> Option<Entry>

  datatype Built = Built(item: InboxItem, entry: Entry)

  function Ids(items: seq<InboxItem>): seq<nat> { seq(|items|, i requires 0 <= i < |items| => IdOf(items[i])) }

  function BuiltIds(built: seq<Built>): seq<nat> { seq(|built|, i requires 0 <= i < |built| => IdOf(built[i].item)) }

  /** The entry is the one of the mail: same id, and for a recipient the mail's sender, author and source. */
  predicate IsEntryOf(mail: MailItem, entry: Entry) {
    entry.id == mail.id && match mail
                           case To(_, sender, author, source, _, _, _, _) => entry.body == AgentMail(sender, author, source)
                           case Cc(_, _) => entry.body == RuntimeNotice
  }

  /** The entry of an item. That of a mail is built from outside, if the message rules allow it, and then checked. */
  function Build(item: InboxItem, mailEntry: Builder): (r: Result<Entry, SessionError>)
    ensures item.Notice? ==> r == Ok(item.entry)
    ensures item.Mail? ==>
              match mailEntry(item.mail)
              case None => r == Err(RulesRefuse)
              case Some(entry) => r == if IsEntryOf(item.mail, entry) then Ok(entry) else Err(WrongMailEntry(item.mail.id))
    ensures r.Ok? ==> r.value.id == IdOf(item)
  {
    match item
    case Notice(entry) => Ok(entry)
    case Mail(mail) =>
      match mailEntry(mail)
      case None => Err(RulesRefuse)
      case Some(entry) => if IsEntryOf(mail, entry) then Ok(entry) else Err(WrongMailEntry(mail.id))
  }

  class Run {
    const session: Session
    const inbox: MemoryInbox
    const agent: nat
    const marks: nat -> Answer
    var tried: nat
    var done: set<nat>
    var report: Boundary

    constructor (session: Session, inbox: MemoryInbox, agent: nat, marks: nat -> Answer)
      ensures this.session == session && this.inbox == inbox && this.agent == agent && this.marks == marks
      ensures tried == 0 && done == {} && report == Boundary([], [], [])
    {
      this.session, this.inbox, this.agent, this.marks := session, inbox, agent, marks;
      tried, done, report := 0, {}, Boundary([], [], []);
    }

    /** Done is what was stored or skipped, and all of it was marked, one after the other. */
    ghost predicate Valid()
      reads this, inbox
    {
      HasMarked(report.skipped + report.stored)
    }

    /** These are done, and were marked in this order. */
    ghost predicate HasMarked(ids: seq<nat>)
      reads this, inbox
    {
      && tried == |ids| && (forall id :: id in done <==> id in ids)
      && Told(ids, marks, report.unmarked, inbox.Unread(agent))
    }

    /** What was marked as read besides `was` is this agent's, and done. */
    ghost predicate Marked(was: set<(nat, nat)>)
      reads this, inbox
    {
      forall mark :: mark in inbox.read ==> mark in was || (mark.0 == agent && mark.1 in done)
    }

    /** Marks an item as read. The inbox may fail to, before or after; the item is done all the same. */
    method Mark(id: nat, ghost ids: seq<nat>, ghost was: set<(nat, nat)>)
      requires Marked(was) && HasMarked(ids)
      modifies this, inbox`read
      ensures Marked(was) && HasMarked(ids + [id])
      ensures report == old(report).(unmarked := report.unmarked)
    {
      ghost var unmarked, unread := report.unmarked, inbox.Unread(agent);
      done := done + {id};
      var answer := marks(tried);
      tried := tried + 1;
      if answer != FailsBefore {
        inbox.MarkRead(agent, id);
      }
      if answer != Does {
        report := report.(unmarked := report.unmarked + [id]);
      }
      ToldOneMore(ids, id, marks, unmarked, report.unmarked, unread, inbox.Unread(agent));
    }

    method SkipHeld(held: seq<InboxItem>, ghost was: set<(nat, nat)>)
      requires Valid() && Marked(was) && report.stored == []
      modifies this, inbox`read
      ensures Valid() && Marked(was)
      ensures report.stored == [] && report.skipped == old(report.skipped) + Ids(held)
    {
      for i := 0 to |held|
        invariant Valid() && Marked(was) && report.stored == []
        invariant report.skipped == old(report.skipped) + Ids(held[..i])
      {
        ghost var ids := report.skipped + report.stored;
        Skip(IdOf(held[i]), was);
        assert Ids(held[..i + 1]) == Ids(held[..i]) + [IdOf(held[i])];
      }
      assert held[..|held|] == held;
    }

    method Skip(id: nat, ghost was: set<(nat, nat)>)
      requires Valid() && Marked(was) && report.stored == []
      modifies this, inbox`read
      ensures Valid() && Marked(was) && report.stored == [] && report.skipped == old(report.skipped) + [id]
    {
      ghost var ids := report.skipped + report.stored;
      report := report.(skipped := report.skipped + [id]);
      Mark(id, ids, was);
      assert report.skipped + report.stored == ids + [id];
    }

    method NoteStored(id: nat, ghost was: set<(nat, nat)>)
      requires Valid() && Marked(was)
      modifies this, inbox`read
      ensures Valid() && Marked(was) && report.skipped == old(report.skipped) && report.stored == old(report.stored) + [id]
    {
      ghost var ids := report.skipped + report.stored;
      report := report.(stored := report.stored + [id]);
      Mark(id, ids, was);
      assert report.skipped + report.stored == ids + [id];
    }

    /** Adds the entries to the open turn one by one; the first fault ends it. */
    method StoreInOpenTurn(turn: TurnRef, built: seq<Built>, ghost at: nat, ghost was: set<(nat, nat)>)
      returns (fault: Option<SessionError>)
      requires Valid() && Marked(was) && UniqueIds(session.conversation) && report.stored == []
      requires forall i :: 0 <= i < |built| ==> built[i].entry.id == IdOf(built[i].item)
      modifies this, inbox`read, session`conversation, session.access`conversation, session.access`calls
      ensures old(session.Agrees()) ==> InStore(session, old(session.access.conversation), report.stored, fault)
      ensures Valid() && Marked(was) && UniqueIds(session.conversation) && report.skipped == old(report.skipped)
      ensures Prefix(report.stored, BuiltIds(built)) && (fault.None? ==> report.stored == BuiltIds(built))
      ensures fault.Some? ==> |report.stored| < |built|
      ensures fault.Some? && fault.value != PortFailed ==>
                var next := built[|report.stored|].entry;
                ApplyEntry(session.access.rules, session.conversation, turn, next) == Err(fault.value)
      ensures fault == Some(PortFailed) && old(session.Agrees()) ==> StoreFails(session)
      ensures Reached(old(session.conversation), session.conversation, at, turn, built, report.stored,
                      |report.stored| + if fault == Some(PortFailed) then 1 else 0)
    {
      fault := None;
      ReachedNothing(session.conversation, at, turn, built);
      for i := 0 to |built|
        invariant Valid() && Marked(was) && UniqueIds(session.conversation) && report.skipped == old(report.skipped)
        invariant (old(session.Agrees()) ==> session.Agrees()) && fault.None?
        invariant report.stored == BuiltIds(built)[..i]
        invariant Reached(old(session.conversation), session.conversation, at, turn, built, report.stored, i)
      {
        ghost var before, store := session.conversation, session.access.conversation;
        fault := StoreOne(turn, built[i].entry, was);
        ReachedMore(session.access.rules, old(session.conversation), before, session.conversation, at, turn, built, i,
                    fault);
        if fault.Some? {
          if old(session.Agrees()) {
            KeepsGrows(old(session.conversation), before, session.access.conversation, BuiltIds(built)[..i], BuiltIds(built),
                       []);
          }
          return;
        }
      }
      assert BuiltIds(built)[..|built|] == BuiltIds(built);
    }

    /** Adds one entry to the open turn. A fault of the store leaves it in the copy. */
    method StoreOne(turn: TurnRef, entry: Entry, ghost was: set<(nat, nat)>) returns (fault: Option<SessionError>)
      requires Valid() && Marked(was) && UniqueIds(session.conversation)
      modifies this, inbox`read, session`conversation, session.access`conversation, session.access`calls
      ensures Valid() && Marked(was) && UniqueIds(session.conversation) && report.skipped == old(report.skipped)
      ensures old(session.Agrees()) ==>
                InStore(session, old(session.access.conversation), if fault.None? then [entry.id] else [], fault)
      ensures report.stored == old(report.stored) + if fault.None? then [entry.id] else []
      ensures var change := ApplyEntry(session.access.rules, old(session.conversation), turn, entry);
              if fault.None? || fault.value == PortFailed then change == Ok(session.conversation)
              else change == Err(fault.value) && session.conversation == old(session.conversation)
      ensures fault == Some(PortFailed) && old(session.Agrees()) ==> StoreFails(session)
      ensures Between(old(session.conversation), session.conversation, if fault.None? then [entry.id] else [], [entry.id])
    {
      fault := AddOne(session, turn, entry);
      if fault.None? {
        NoteStored(entry.id, was);
      }
    }

    /** Adds all the entries as one new input turn: all of them or none. */
    method StoreInNewInputTurn(turn: nat, built: seq<Built>, ghost was: set<(nat, nat)>)
      returns (fault: Option<SessionError>)
      requires Valid() && Marked(was) && UniqueIds(session.conversation) && report.stored == []
      requires forall i :: 0 <= i < |built| ==> built[i].entry.id == IdOf(built[i].item)
      modifies this, inbox`read, session`conversation, session.access`conversation, session.access`calls
      ensures old(session.Agrees()) ==> InStore(session, old(session.access.conversation), report.stored, fault)
      ensures Valid() && Marked(was) && UniqueIds(session.conversation) && report.skipped == old(report.skipped)
      ensures report.stored == if fault.None? then BuiltIds(built) else []
      ensures Between(old(session.conversation), session.conversation, report.stored, BuiltIds(built))
      ensures fault.Some? ==> built != []
      ensures var input, taken := InputTurn(turn, EntriesOf(built)), fault.None? || fault.value == PortFailed;
              && (!taken ==> ApplyInputTurn(session.access.rules, session.conversation, input) == Err(fault.value))
              && session.conversation.turns == old(session.conversation).turns + if built != [] && taken then [input] else []
      ensures fault == Some(PortFailed) && old(session.Agrees()) ==> StoreFails(session)
    {
      if built == [] {
        return None;
      }
      ghost var before := session.conversation;
      var input := InputTurn(turn, EntriesOf(built));
      var added := session.AddInputTurn(input);
      if session.conversation != before || added.Ok? { InputTurnGains(session.access.rules, before, input, built); }
      if added.Err? {
        if session.access.conversation != before && old(session.Agrees()) {
          InputTurnGains(session.access.rules, before, input, built);
        }
        return Some(added.error);
      }
      MarkStored(BuiltIds(built), was);
      fault := None;
    }

    /** All of these were stored at once; now they are marked. */
    method MarkStored(ids: seq<nat>, ghost was: set<(nat, nat)>)
      requires Valid() && Marked(was) && report.stored == []
      modifies this, inbox`read
      ensures Valid() && Marked(was) && report == old(report).(stored := ids, unmarked := report.unmarked)
    {
      ghost var before := report.skipped;
      assert before + [] == before;
      report := report.(stored := ids);
      for i := 0 to |ids|
        invariant Marked(was) && report == old(report).(stored := ids, unmarked := report.unmarked)
        invariant HasMarked(before + ids[..i])
      {
        Mark(ids[i], before + ids[..i], was);
        assert before + ids[..i + 1] == before + ids[..i] + [ids[i]];
      }
      assert ids[..|ids|] == ids;
    }
  }

  function EntriesOf(built: seq<Built>): seq<Entry> { seq(|built|, i requires 0 <= i < |built| => built[i].entry) }

  /** The k-th mark was of this id and failed, before or after it took effect. */
  predicate FailsAt(ids: seq<nat>, marks: nat -> Answer, k: nat, id: nat) { k < |ids| && ids[k] == id && marks(k) != Does }

  predicate IsRead(unread: seq<Listed>, id: nat) { forall x :: x in unread ==> IdOf(x.item) != id }

  /** Marked in this order: the unmarked are those whose mark failed, and a mark took effect unless it failed before. */
  ghost predicate Told(ids: seq<nat>, marks: nat -> Answer, unmarked: seq<nat>, unread: seq<Listed>) {
    && (forall id :: id in unmarked <==> exists k: nat :: FailsAt(ids, marks, k, id))
    && (forall k: nat :: k < |ids| && marks(k) != FailsBefore ==> IsRead(unread, ids[k]))
  }

  lemma ToldOneMore(ids: seq<nat>, id: nat, marks: nat -> Answer, unmarked: seq<nat>, now: seq<nat>,
                    unread: seq<Listed>, left: seq<Listed>)
    requires Told(ids, marks, unmarked, unread)
    requires now == if marks(|ids|) == Does then unmarked else unmarked + [id]
    requires forall x :: x in left ==> x in unread
    requires marks(|ids|) != FailsBefore ==> IsRead(left, id)
    ensures Told(ids + [id], marks, now, left)
  {
    var more := ids + [id];
    forall x ensures x in now <==> exists k: nat :: FailsAt(more, marks, k, x) {
      if x in unmarked {
        var k: nat :| FailsAt(ids, marks, k, x);
        assert FailsAt(more, marks, k, x);
      }
      if marks(|ids|) != Does && x == id { assert FailsAt(more, marks, |ids|, x); }
      if k: nat :| FailsAt(more, marks, k, x) {
        assert k < |ids| ==> FailsAt(ids, marks, k, x);
      }
    }
  }

  ghost predicate IsOpenTurnAt(c: Conversation, at: nat, turn: TurnRef) { UniqueTurns(c) && IsAt(c, at, turn) }

  lemma OneEntryMore(rules: Rules, start: Conversation, before: Conversation, at: nat, turn: TurnRef, built: seq<Built>,
                     i: nat)
    requires i < |built| && IsOpenTurnAt(before, at, turn) && IsAddedAt(start, before, at, EntriesOf(built)[..i])
    requires ApplyEntry(rules, before, turn, built[i].entry).Ok?
    ensures var after := ApplyEntry(rules, before, turn, built[i].entry).value;
            IsOpenTurnAt(after, at, turn) && IsAddedAt(start, after, at, EntriesOf(built)[..i + 1])
  {
    ApplyEntryMeans(rules, before, turn, built[i].entry);
    assert EntriesOf(built)[..i + 1] == EntriesOf(built)[..i] + [built[i].entry];
    assert start.turns[at].entries + EntriesOf(built)[..i] + [built[i].entry]
        == start.turns[at].entries + EntriesOf(built)[..i + 1];
  }

  /** The last call of the store failed. */
  ghost predicate StoreFails(session: Session)
    reads session.access`calls
  {
    var store := session.access;
    session.thread != store.thread || store.calls == 0 || store.answers(store.calls - 1) != Does
  }

  /** Adds one entry, to the copy and then to the store. */
  method AddOne(session: Session, turn: TurnRef, entry: Entry) returns (fault: Option<SessionError>)
    requires UniqueIds(session.conversation)
    modifies session`conversation, session.access`conversation, session.access`calls
    ensures UniqueIds(session.conversation)
    ensures old(session.Agrees()) ==>
              InStore(session, old(session.access.conversation), if fault.None? then [entry.id] else [], fault)
    ensures var change := ApplyEntry(session.access.rules, old(session.conversation), turn, entry);
            if fault.None? || fault.value == PortFailed then change == Ok(session.conversation)
            else change == Err(fault.value) && session.conversation == old(session.conversation)
    ensures fault == Some(PortFailed) && old(session.Agrees()) ==> StoreFails(session)
    ensures Between(old(session.conversation), session.conversation, if fault.None? then [entry.id] else [], [entry.id])
  {
    ghost var before := session.conversation;
    var added := session.AddEntry(turn, entry);
    fault := if added.Err? then Some(added.error) else None;
    if session.conversation != before || added.Ok? { ApplyEntryGains(session.access.rules, before, turn, entry); }
  }

  /** How far the entries have come: what was stored was gained, and the open turn has got the first `taken` of them. */
  ghost predicate Reached(start: Conversation, now: Conversation, at: nat, turn: TurnRef, built: seq<Built>,
                          stored: seq<nat>, taken: nat) {
    && taken <= |built| && Between(start, now, stored, BuiltIds(built))
    && (IsOpenTurnAt(start, at, turn) ==>
          IsOpenTurnAt(now, at, turn) && IsAddedAt(start, now, at, EntriesOf(built)[..taken]))
  }

  lemma ReachedNothing(start: Conversation, at: nat, turn: TurnRef, built: seq<Built>)
    ensures Reached(start, start, at, turn, built, [], 0)
  {
    if IsOpenTurnAt(start, at, turn) {
      assert start.turns[at].entries + EntriesOf(built)[..0] == start.turns[at].entries;
    }
  }

  lemma ReachedMore(rules: Rules, start: Conversation, before: Conversation, now: Conversation, at: nat, turn: TurnRef,
                    built: seq<Built>, i: nat, fault: Option<SessionError>)
    requires i < |built| && built[i].entry.id == IdOf(built[i].item)
    requires Reached(start, before, at, turn, built, BuiltIds(built)[..i], i)
    requires var change := ApplyEntry(rules, before, turn, built[i].entry);
             if fault.None? || fault.value == PortFailed then change == Ok(now) else now == before
    requires Between(before, now, if fault.None? then [built[i].entry.id] else [], [built[i].entry.id])
    ensures BuiltIds(built)[..i + 1] == BuiltIds(built)[..i] + [built[i].entry.id]
    ensures Reached(start, now, at, turn, built, if fault.None? then BuiltIds(built)[..i + 1] else BuiltIds(built)[..i],
                    i + if fault.None? || fault.value == PortFailed then 1 else 0)
  {
    assert BuiltIds(built)[i] == built[i].entry.id;
    if IsOpenTurnAt(start, at, turn) && (fault.None? || fault.value == PortFailed) {
      OneEntryMore(rules, start, before, at, turn, built, i);
    }
  }

  lemma KeepsGrows(start: Conversation, before: Conversation, store: Conversation, stored: seq<nat>, meant: seq<nat>,
                   took: seq<nat>)
    requires Between(start, before, stored, meant) && Keeps(before, store, took)
    ensures Keeps(start, store, stored + took)
  {
  }

  /** The store has lost nothing, and has what was stored. */
  ghost predicate Keeps(before: Conversation, store: Conversation, stored: seq<nat>) {
    && UniqueIds(store) && (forall id :: Holds(before, id) ==> Holds(store, id))
    && (forall id :: id in stored ==> Holds(store, id))
  }

  /** The store, equal to the copy before: it lost nothing, has what was stored, and without a fault equals the copy. */
  ghost predicate InStore(session: Session, before: Conversation, stored: seq<nat>, fault: Option<SessionError>)
    reads session`conversation, session.access`conversation
  {
    Keeps(before, session.access.conversation, stored) && (fault.None? ==> session.Agrees())
  }

  /** A conversation on its way from `before`: it has gained what was stored, and nothing but the ids meant for it. */
  ghost predicate Between(before: Conversation, after: Conversation, stored: seq<nat>, meant: seq<nat>) {
    && (forall id :: Holds(before, id) ==> Holds(after, id))
    && (forall id :: Holds(after, id) ==> Holds(before, id) || id in meant)
    && (forall id :: id in stored ==> Holds(after, id) && !Holds(before, id))
  }

  lemma InputTurnGains(rules: Rules, c: Conversation, turn: Turn, built: seq<Built>)
    requires UniqueIds(c) && ApplyInputTurn(rules, c, turn).Ok?
    requires turn.InputTurn? && |turn.entries| == |built|
    requires forall i :: 0 <= i < |built| ==> turn.entries[i] == built[i].entry && built[i].entry.id == IdOf(built[i].item)
    ensures var after := ApplyInputTurn(rules, c, turn).value;
            UniqueIds(after) && Between(c, after, BuiltIds(built), BuiltIds(built))
  {
    PushTurnGains(rules, c, turn);
    forall id ensures id in IdsOf(turn.entries) <==> id in BuiltIds(built) {
      if id in IdsOf(turn.entries) {
        var e :| e in turn.entries && e.id == id;
        var i :| 0 <= i < |turn.entries| && turn.entries[i] == e;
        assert BuiltIds(built)[i] == id;
      }
      if id in BuiltIds(built) {
        var i :| 0 <= i < |built| && BuiltIds(built)[i] == id;
        assert turn.entries[i] in turn.entries;
      }
    }
  }

  function IsHeld(c: Conversation): InboxItem -> bool { (x: InboxItem) => Holds(c, IdOf(x)) }

  function IsNew(c: Conversation): InboxItem -> bool { (x: InboxItem) => !Holds(c, IdOf(x)) }

  function IsLeft(done: set<nat>): InboxItem -> bool { (x: InboxItem) => IdOf(x) !in done }

  /** What a boundary may report of what was pending: everything held skipped, and of the new items a first part stored. */
  ghost predicate Reports(before: Conversation, pending: seq<InboxItem>, report: Boundary, complete: bool) {
    && (report.skipped == Ids(Filter(pending, IsHeld(before))) || (report.skipped == [] && report.stored == [] && !complete))
    && Prefix(report.stored, Ids(Filter(pending, IsNew(before))))
    && (complete ==> report.stored == Ids(Filter(pending, IsNew(before))))
  }

  /** The entries of a first part of the items. */
  ghost predicate Made(items: seq<InboxItem>, mailEntry: Builder, entries: seq<Entry>) {
    |entries| <= |items| && forall k :: 0 <= k < |entries| ==> Build(items[k], mailEntry) == Ok(entries[k])
  }

  /** Where they have gone: to the end of the agent's last open turn or, if it has none, into a new input turn. */
  ghost predicate Placed(before: Conversation, after: Conversation, agent: nat, newTurn: nat, entries: seq<Entry>) {
    || (exists at :: IsLastOpen(before.turns, agent, at) && IsAddedAt(before, after, at, entries))
    || ((forall at: nat :: !IsOpenAt(before.turns, agent, at))
        && after.turns == before.turns + if entries == [] then [] else [InputTurn(newTurn, entries)])
  }

  /** The rules refuse the next of the items, or the new turn of all of them. */
  ghost predicate Refuses(rules: Rules, c: Conversation, open: Option<TurnRef>, newTurn: nat, items: seq<InboxItem>,
                          mailEntry: Builder, stored: nat, fault: SessionError) {
    stored < |items| &&
    match open
    case Some(turn) =>
      var next := Build(items[stored], mailEntry);
      next.Ok? && ApplyEntry(rules, c, turn, next.value) == Err(fault)
    case None =>
      exists all :: Made(items, mailEntry, all) && |all| == |items|
                    && ApplyInputTurn(rules, c, InputTurn(newTurn, all)) == Err(fault)
  }

  ghost predicate CannotBuild(before: Conversation, pending: seq<InboxItem>, mailEntry: Builder,
                              fault: SessionError) {
    exists item :: item in pending && !Holds(before, IdOf(item)) && Build(item, mailEntry) == Err(fault)
  }

  /** How many of the new entries the copy has taken: those stored, and any that the store failed to take after it. */
  predicate Takes(taken: nat, stored: nat, items: nat, fault: Option<SessionError>) {
    stored <= taken <= items && (taken > stored ==> fault == Some(PortFailed) && (taken == stored + 1 || taken == items))
  }

  /** Sorts out what the copy holds already, and builds the entries of the rest. */
  method Sorted(copy: Conversation, pending: seq<InboxItem>, mailEntry: Builder)
    returns (held: seq<InboxItem>, built: seq<Built>, fault: Option<SessionError>)
    ensures fault.None? ==> held == Filter(pending, IsHeld(copy)) && BuiltIds(built) == Ids(Filter(pending, IsNew(copy)))
    ensures fault.None? ==> Made(Filter(pending, IsNew(copy)), mailEntry, EntriesOf(built))
    ensures forall k :: 0 <= k < |built| ==> built[k].entry.id == IdOf(built[k].item)
    ensures fault.Some? ==> CannotBuild(copy, pending, mailEntry, fault.value)
  {
    held, built := [], [];
    for i := 0 to |pending|
      invariant held == Filter(pending[..i], IsHeld(copy)) && BuiltIds(built) == Ids(Filter(pending[..i], IsNew(copy)))
      invariant Made(Filter(pending[..i], IsNew(copy)), mailEntry, EntriesOf(built))
      invariant forall k :: 0 <= k < |built| ==> built[k].entry.id == IdOf(built[k].item)
    {
      assert pending[..i + 1][..i] == pending[..i];
      IdsJoin(Filter(pending[..i], IsNew(copy)), pending[i]);
      IdsJoin(held, pending[i]);
      if Holds(copy, IdOf(pending[i])) {
        held := held + [pending[i]];
      } else {
        var entry := Build(pending[i], mailEntry);
        if entry.Err? {
          return held, built, Some(entry.error);
        }
        assert BuiltIds(built + [Built(pending[i], entry.value)]) == BuiltIds(built) + [IdOf(pending[i])];
        assert |built| == |Ids(Filter(pending[..i], IsNew(copy)))|;
        built := built + [Built(pending[i], entry.value)];
      }
    }
    assert pending[..|pending|] == pending;
    fault := None;
  }

  /**
   * What is held is skipped, and of the rest a first part stored. The copy takes the entries in order, at the end of the
   * agent's last open turn or in a new one. A fault is that of an item that cannot be built, of the rules, or of the store.
   */
  method RunBoundary(run: Run, agent: nat, pending: seq<InboxItem>, mailEntry: Builder,
                     newTurn: nat, ghost was: set<(nat, nat)>)
    returns (fault: Option<SessionError>, ghost entries: seq<Entry>)
    requires run.Marked(was) && run.Valid() && run.report == Boundary([], [], []) && UniqueIds(run.session.conversation)
    modifies run, run.inbox`read, run.session`conversation, run.session.access`conversation, run.session.access`calls
    ensures run.Marked(was)
    ensures old(run.session.Agrees()) ==>
              InStore(run.session, old(run.session.access.conversation), run.report.stored, fault)
    ensures run.Valid() && UniqueIds(run.session.conversation)
    ensures Reports(old(run.session.conversation), pending, run.report, fault.None?)
    ensures Between(old(run.session.conversation), run.session.conversation, run.report.stored, Ids(pending))
    ensures var items := Filter(pending, IsNew(old(run.session.conversation)));
            && Made(items, mailEntry, entries) && Takes(|entries|, |run.report.stored|, |items|, fault)
    ensures old(UniqueTurns(run.session.conversation)) ==>
              Placed(old(run.session.conversation), run.session.conversation, agent, newTurn, entries)
    ensures fault.Some? ==> Fails(run.session, old(run.session.conversation), old(run.session.Agrees()), agent, newTurn,
                                  pending, mailEntry, |run.report.stored|, fault.value)
  {
    NewAreMeant(pending, run.session.conversation);
    entries := [];
    var held, built, broken := Sorted(run.session.conversation, pending, mailEntry);
    if broken.Some? {
      NothingPlaced(run.session.conversation, agent, newTurn);
      return broken, [];
    }
    run.SkipHeld(held, was);
    ghost var items := Filter(pending, IsNew(run.session.conversation));
    fault, entries := StoreBuilt(run, agent, built, items, mailEntry, newTurn, was);
  }

  /** Stores the new entries, in the agent's last open turn or in a new one. */
  method StoreBuilt(run: Run, agent: nat, built: seq<Built>, ghost items: seq<InboxItem>, ghost mailEntry: Builder,
                    newTurn: nat, ghost was: set<(nat, nat)>)
    returns (fault: Option<SessionError>, ghost entries: seq<Entry>)
    requires run.Marked(was) && run.Valid() && run.report.stored == [] && UniqueIds(run.session.conversation)
    requires BuiltIds(built) == Ids(items) && Made(items, mailEntry, EntriesOf(built))
    requires forall i :: 0 <= i < |built| ==> built[i].entry.id == IdOf(built[i].item)
    modifies run, run.inbox`read, run.session`conversation, run.session.access`conversation, run.session.access`calls
    ensures run.Marked(was) && run.Valid() && UniqueIds(run.session.conversation)
    ensures run.report.skipped == old(run.report.skipped)
    ensures Prefix(run.report.stored, Ids(items)) && (fault.None? ==> run.report.stored == Ids(items))
    ensures old(run.session.Agrees()) ==>
              InStore(run.session, old(run.session.access.conversation), run.report.stored, fault)
    ensures Between(old(run.session.conversation), run.session.conversation, run.report.stored, Ids(items))
    ensures Made(items, mailEntry, entries) && Takes(|entries|, |run.report.stored|, |items|, fault)
    ensures old(UniqueTurns(run.session.conversation)) ==>
              Placed(old(run.session.conversation), run.session.conversation, agent, newTurn, entries)
    ensures fault == Some(PortFailed) && old(run.session.Agrees()) ==> StoreFails(run.session)
    ensures fault.Some? && fault.value != PortFailed ==>
              Refuses(run.session.access.rules, run.session.conversation,
                      OpenAiTurn(old(run.session.conversation).turns, agent), newTurn, items, mailEntry,
                      |run.report.stored|, fault.value)
  {
    assert |built| == |BuiltIds(built)| == |items|;
    OpenAiTurnMeans(run.session.conversation.turns, agent);
    match OpenAiTurn(run.session.conversation.turns, agent) {
      case Some(turn) =>
        ghost var copy := run.session.conversation;
        ghost var at: nat :| IsLastOpen(copy.turns, agent, at) && IsAt(copy, at, turn);
        fault := run.StoreInOpenTurn(turn, built, at, was);
        entries := EntriesOf(built)[..|run.report.stored| + if fault == Some(PortFailed) then 1 else 0];
      case None =>
        fault := run.StoreInNewInputTurn(newTurn, built, was);
        entries := if fault.None? || fault.value == PortFailed then EntriesOf(built) else [];
    }
  }

  /** Why a boundary broke off. */
  ghost predicate Fails(session: Session, before: Conversation, agreed: bool, agent: nat, newTurn: nat,
                        pending: seq<InboxItem>, mailEntry: Builder, stored: nat, fault: SessionError)
    reads session`conversation, session.access`calls
  {
    if fault == PortFailed then agreed ==> StoreFails(session)
    else
      || CannotBuild(before, pending, mailEntry, fault)
      || Refuses(session.access.rules, session.conversation, OpenAiTurn(before.turns, agent), newTurn,
                 Filter(pending, IsNew(before)), mailEntry, stored, fault)
  }

  lemma NothingPlaced(c: Conversation, agent: nat, newTurn: nat)
    ensures Placed(c, c, agent, newTurn, [])
  {
    OpenAiTurnMeans(c.turns, agent);
    if OpenAiTurn(c.turns, agent).Some? {
      var at: nat :| IsLastOpen(c.turns, agent, at);
      assert c.turns[at].entries + [] == c.turns[at].entries;
      assert IsAddedAt(c, c, at, []);
    } else {
      assert c.turns + [] == c.turns;
    }
  }

  lemma NewAreMeant(pending: seq<InboxItem>, c: Conversation)
    ensures forall id :: id in Ids(Filter(pending, IsNew(c))) ==> id in Ids(pending)
  {
    forall id | id in Ids(Filter(pending, IsNew(c))) ensures id in Ids(pending) {
      var i :| 0 <= i < |Filter(pending, IsNew(c))| && Ids(Filter(pending, IsNew(c)))[i] == id;
      var a := FilteredIsMember(pending, IsNew(c), i);
      assert Ids(pending)[a] == id;
    }
  }

  lemma {:induction false} HeldOrNew(pending: seq<InboxItem>, c: Conversation, id: nat)
    ensures id in Ids(pending) && Holds(c, id) <==> id in Ids(Filter(pending, IsHeld(c)))
    ensures id in Ids(pending) && !Holds(c, id) <==> id in Ids(Filter(pending, IsNew(c)))
  {
    if pending != [] {
      var front, last := pending[..|pending| - 1], pending[|pending| - 1];
      HeldOrNew(front, c, id);
      IdsOfOneMore(front, last, id);
      IdsOfOneMore(Filter(front, IsHeld(c)), last, id);
      IdsOfOneMore(Filter(front, IsNew(c)), last, id);
      assert pending == front + [last];
    }
  }

  lemma IdsJoin(items: seq<InboxItem>, last: InboxItem)
    ensures Ids(items + [last]) == Ids(items) + [IdOf(last)]
    ensures items + [] == items
  {
  }

  lemma IdsOfOneMore(items: seq<InboxItem>, last: InboxItem, id: nat)
    ensures id in Ids(items + [last]) <==> id in Ids(items) || id == IdOf(last)
    ensures items + [] == items
  {
    IdsJoin(items, last);
  }

  lemma {:induction false} LeftAreNotDone(pending: seq<InboxItem>, done: set<nat>, id: nat)
    ensures id in Ids(Filter(pending, IsLeft(done))) <==> id in Ids(pending) && id !in done
  {
    if pending != [] {
      var front, last := pending[..|pending| - 1], pending[|pending| - 1];
      LeftAreNotDone(front, done, id);
      IdsOfOneMore(front, last, id);
      IdsOfOneMore(Filter(front, IsLeft(done)), last, id);
      assert pending == front + [last];
    }
  }

  ghost function DoneOf(report: Boundary): set<nat> { (set id | id in report.stored) + (set id | id in report.skipped) }

  /** Each pending id is in exactly one of three places. */
  ghost predicate SplitInThree(pending: seq<InboxItem>, report: Boundary, restored: seq<InboxItem>) {
    && (forall id :: id in Ids(pending) <==> id in report.stored || id in report.skipped || id in Ids(restored))
    && (forall id :: id in report.stored ==> id !in report.skipped && id !in Ids(restored))
    && (forall id :: id in report.skipped ==> id !in Ids(restored))
  }

  lemma NoIdsNoItems(items: seq<InboxItem>)
    ensures (forall id :: id !in Ids(items)) ==> items == []
  {
    if items != [] { assert Ids(items)[0] in Ids(items); }
  }

  lemma ReportSplits(before: Conversation, pending: seq<InboxItem>, report: Boundary, complete: bool)
    requires Reports(before, pending, report, complete)
    ensures SplitInThree(pending, report, Filter(pending, IsLeft(DoneOf(report))))
    ensures complete ==> Filter(pending, IsLeft(DoneOf(report))) == []
    ensures forall id :: id in report.skipped ==> Holds(before, id)
  {
    var done := DoneOf(report);
    var restored := Filter(pending, IsLeft(done));
    forall id
      ensures id in report.stored ==> id in Ids(pending) && !Holds(before, id)
      ensures id in report.skipped ==> id in Ids(pending) && Holds(before, id)
      ensures id in Ids(restored) <==> id in Ids(pending) && id !in done
      ensures complete && id in Ids(pending) ==> id in done
    {
      HeldOrNew(pending, before, id);
      LeftAreNotDone(pending, done, id);
    }
    NoIdsNoItems(restored);
  }

  /** Which of the ids taken care of could not be marked, and that all the others are unread no longer. */
  ghost predicate MarksTold(report: Boundary, marks: nat -> Answer, unread: seq<Listed>) {
    Told(report.skipped + report.stored, marks, report.unmarked, unread)
  }

  /**
   * Takes the queue and stores it at the boundary. Whatever fails and wherever, the pending ids split into those stored,
   * those skipped because the copy held them, and those put back into the queue in their old order; the copy gains what
   * was stored and nothing that was not pending, no id twice; and nothing pending is in neither the copy nor the queue.
   * If the copy was equal to the store, of whatever kind, what is marked as read is in the store.
   */
  method StoreAtBoundary(session: Session, inbox: MemoryInbox, agent: nat, queue: Queue, mailEntry: Builder,
                         newTurn: nat, marks: nat -> Answer)
    returns (report: Boundary, fault: Option<SessionError>, ghost entries: seq<Entry>)
    requires UniqueIds(session.conversation)
    modifies queue, inbox`read, session`conversation, session.access`conversation, session.access`calls
    ensures old(session.Agrees()) ==> InStore(session, old(session.access.conversation), report.stored, fault)
    ensures old(session.Agrees()) ==> ReadIsStored(old(inbox.read), inbox.read, agent, session.access.conversation)
    ensures UniqueIds(session.conversation)
    ensures Reports(old(session.conversation), old(queue.items), report, fault.None?)
    ensures SplitInThree(old(queue.items), report, queue.items)
    ensures queue.items == Filter(old(queue.items), IsLeft(DoneOf(report))) && (fault.None? ==> queue.items == [])
    ensures forall id :: id in report.skipped ==> Holds(old(session.conversation), id)
    ensures Between(old(session.conversation), session.conversation, report.stored, Ids(old(queue.items)))
    ensures forall id :: id in Ids(old(queue.items)) ==> Holds(session.conversation, id) || id in Ids(queue.items)
    ensures MarksTold(report, marks, inbox.Unread(agent))
    ensures var items := Filter(old(queue.items), IsNew(old(session.conversation)));
            && Made(items, mailEntry, entries) && Takes(|entries|, |report.stored|, |items|, fault)
    ensures old(UniqueTurns(session.conversation)) ==>
              Placed(old(session.conversation), session.conversation, agent, newTurn, entries)
    ensures fault.Some? ==> Fails(session, old(session.conversation), old(session.Agrees()), agent, newTurn,
                                  old(queue.items), mailEntry, |report.stored|, fault.value)
  {
    var pending := queue.items;
    queue.items := [];
    var run := new Run(session, inbox, agent, marks);
    fault, entries := RunBoundary(run, agent, pending, mailEntry, newTurn, inbox.read);
    report := run.report;
    ReportSplits(old(session.conversation), pending, report, fault.None?);
    assert run.done == DoneOf(report);
    if fault.Some? {
      queue.items := Filter(pending, IsLeft(run.done)) + queue.items;
      assert Filter(pending, IsLeft(run.done)) + [] == Filter(pending, IsLeft(run.done));
    }
  }

  /** What was marked as read since `was` is the agent's, and in the store. */
  ghost predicate ReadIsStored(was: set<(nat, nat)>, now: set<(nat, nat)>, agent: nat, store: Conversation) {
    forall mark :: mark in now ==> mark in was || (mark.0 == agent && Holds(store, mark.1))
  }

  // ----- any number of reads and boundaries -----

  datatype Round = Arrive(items: seq<InboxItem>) | AtBoundary(newTurn: nat, marks: nat -> Answer)

  ghost function Everything(rounds: seq<Round>): set<nat> {
    if rounds == [] then {}
    else
      var last := rounds[|rounds| - 1];
      Everything(rounds[..|rounds| - 1]) + if last.Arrive? then (set id | id in Ids(last.items)) else {}
  }

  /**
   * A worker's whole life at its inbox, over any store and whatever is read, again or for the first time: everything that
   * ever arrived is in the conversation copy or still in the queue, and nothing is in the copy twice.
   */
  method Live(session: Session, inbox: MemoryInbox, agent: nat, rounds: seq<Round>,
              mailEntry: Builder) returns (left: seq<InboxItem>)
    requires UniqueIds(session.conversation)
    modifies inbox`read, session`conversation, session.access`conversation, session.access`calls
    ensures UniqueIds(session.conversation)
    ensures forall id :: id in Everything(rounds) ==> Holds(session.conversation, id) || id in Ids(left)
    ensures forall id :: Holds(old(session.conversation), id) ==> Holds(session.conversation, id)
    ensures forall id :: Holds(session.conversation, id) ==>
                           Holds(old(session.conversation), id) || id in Everything(rounds)
  {
    var queue := new Queue();
    for i := 0 to |rounds|
      invariant UniqueIds(session.conversation)
      invariant forall id :: id in Everything(rounds[..i]) ==> Holds(session.conversation, id) || id in Ids(queue.items)
      invariant forall id :: id in Ids(queue.items) ==> id in Everything(rounds[..i])
      invariant forall id :: Holds(old(session.conversation), id) ==> Holds(session.conversation, id)
      invariant forall id :: Holds(session.conversation, id) ==>
                               Holds(old(session.conversation), id) || id in Everything(rounds[..i])
    {
      assert rounds[..i + 1][..i] == rounds[..i];
      match rounds[i] {
        case Arrive(items) =>
          ghost var queued := queue.items;
          var added := queue.PushPage(items);
          PushedIds(queued, items);
        case AtBoundary(newTurn, marks) =>
          var report, fault, entries := StoreAtBoundary(session, inbox, agent, queue, mailEntry, newTurn, marks);
      }
    }
    assert rounds[..|rounds|] == rounds;
    left := queue.items;
  }

  lemma PushedIds(items: seq<InboxItem>, list: seq<InboxItem>)
    ensures forall id :: id in Ids(PushedAll(items, list)) <==> id in Ids(items) || id in Ids(list)
  {
    PushedAllAppendsFresh(items, list);
    forall id ensures id in Ids(PushedAll(items, list)) <==> id in Ids(items) || id in Ids(list) {
      HasIdIsInIds(PushedAll(items, list), id);
      HasIdIsInIds(items, id);
      HasIdIsInIds(list, id);
    }
  }

  lemma HasIdIsInIds(items: seq<InboxItem>, id: nat)
    ensures HasId(items, id) <==> id in Ids(items)
  {
    if HasId(items, id) {
      var i :| 0 <= i < |items| && IdOf(items[i]) == id;
      assert Ids(items)[i] == id;
    }
  }

  // ----- workers, one after the other, at one inbox and one store -----

  /** What may happen while a worker lives: deliveries at any time, reads of the inbox, boundaries. */
  datatype Event =
    | EntryDelivered(agent: nat, entry: Entry) | MailDelivered(sender: nat, mail: NewMail)
    | InboxRead(batch: nat) | BoundaryMet(newTurn: nat, marks: nat -> Answer)

  /** Everything listed for the agent is still unread, or it is in the store, which has no id twice. */
  ghost predicate OnceEach(inbox: MemoryInbox, agent: nat, store: Store)
    reads inbox, store`conversation
  {
    UniqueIds(store.conversation)
    && forall x :: x in ListedAll(inbox.mails, inbox.entries) && x.agent == agent ==>
                     x in inbox.Unread(agent) || Holds(store.conversation, IdOf(x.item))
  }

  ghost predicate AllReadIsStored(inbox: MemoryInbox, agent: nat, store: Store)
    reads inbox`read, store`conversation
  {
    UniqueIds(store.conversation) && forall id :: (agent, id) in inbox.read ==> Holds(store.conversation, id)
  }

  lemma ReadOrUnread(inbox: MemoryInbox, agent: nat, store: Store)
    requires AllReadIsStored(inbox, agent, store)
    ensures OnceEach(inbox, agent, store)
  {
    FilterMembers(ListedAll(inbox.mails, inbox.entries), IsUnread(agent, inbox.read));
  }

  /**
   * One worker from its start to its first fault, or for as long as anything happens. The store may fail at any call,
   * before or after it took a change. Whatever was ever delivered to the agent is unread or in the store, exactly once.
   */
  method Serve(inbox: MemoryInbox, store: Store, agent: nat, events: seq<Event>,
               mailEntry: Builder) returns (fault: Option<SessionError>)
    requires inbox.Valid() && AllReadIsStored(inbox, agent, store)
    modifies inbox, store`conversation, store`calls
    ensures inbox.Valid() && AllReadIsStored(inbox, agent, store) && OnceEach(inbox, agent, store)
    ensures forall id :: Holds(old(store.conversation), id) ==> Holds(store.conversation, id)
  {
    var session := new Session(store, store.thread, store.conversation);
    var queue := new Queue();
    fault := None;
    for i := 0 to |events|
      invariant inbox.Valid() && AllReadIsStored(inbox, agent, store)
      invariant session.access == store && session.Agrees()
      invariant forall id :: Holds(old(store.conversation), id) ==> Holds(store.conversation, id)
    {
      fault := Meet(events[i], inbox, session, queue, agent, mailEntry);
      if fault.Some? { break; }
    }
    ReadOrUnread(inbox, agent, store);
  }

  method Meet(event: Event, inbox: MemoryInbox, session: Session, queue: Queue, agent: nat,
              mailEntry: Builder) returns (fault: Option<SessionError>)
    requires inbox.Valid() && AllReadIsStored(inbox, agent, session.access) && session.Agrees()
    modifies inbox, queue, session`conversation, session.access`conversation, session.access`calls
    ensures inbox.Valid() && AllReadIsStored(inbox, agent, session.access) && (fault.None? ==> session.Agrees())
    ensures forall id :: Holds(old(session.access.conversation), id) ==> Holds(session.access.conversation, id)
  {
    fault := None;
    match event {
      case EntryDelivered(to, entry) => inbox.DeliverEntry(to, entry);
      case MailDelivered(sender, mail) => var sent := inbox.DeliverMail(sender, mail);
      case InboxRead(batch) =>
        if batch > 0 { var got := queue.Read(inbox, agent, batch); }
      case BoundaryMet(newTurn, marks) =>
        var report;
        ghost var entries;
        report, fault, entries := StoreAtBoundary(session, inbox, agent, queue, mailEntry, newTurn, marks);
    }
  }

  /** Any number of workers, each starting from the store as the one before it left it, in whatever way that one ended. */
  method ServeInTurn(inbox: MemoryInbox, store: Store, agent: nat, lives: seq<seq<Event>>,
                     mailEntry: Builder)
    requires inbox.Valid() && inbox.read == {} && UniqueIds(store.conversation)
    modifies inbox, store`conversation, store`calls
    ensures OnceEach(inbox, agent, store)
    ensures forall id :: Holds(old(store.conversation), id) ==> Holds(store.conversation, id)
  {
    for i := 0 to |lives|
      invariant inbox.Valid() && AllReadIsStored(inbox, agent, store)
      invariant forall id :: Holds(old(store.conversation), id) ==> Holds(store.conversation, id)
    {
      var fault := Serve(inbox, store, agent, lives[i], mailEntry);
    }
    ReadOrUnread(inbox, agent, store);
  }
}
