/**
 * A session: a local copy of a thread's conversation that is changed first, the store behind it, and the responses and
 * results that are open in the store.
 */
module Sessions {
  import opened Prelude
  import opened Conversations

  function Copied(c: Conversation, change: Result<Conversation, SessionError>): Conversation {
    if change.Ok? then change.value else c
  }

  /** How a call of a store ends: it does what was asked, or it fails before or after doing it. */
  datatype Answer = Does | FailsBefore | FailsAfter

  /** What a change of the stored conversation leaves. One that the rules refuse is a fault of the store. */
  ghost predicate Tries(answer: Answer, mine: bool, was: Conversation, changed: Result<Conversation, SessionError>,
                        now: Conversation, result: Result<(), SessionError>) {
    if !mine || changed.Err? || answer == FailsBefore then result == Err(PortFailed) && now == was
    else now == changed.value && result == if answer == Does then Ok(()) else Err(PortFailed)
  }

  /** What completing an object leaves: it is stored first, and ended only if that has succeeded. */
  ghost predicate Completes(first: Answer, second: Answer, mine: bool, was: Conversation,
                            changed: Result<Conversation, SessionError>, now: Conversation, open: map<nat, nat>,
                            left: map<nat, nat>, entry: nat, result: Result<(), SessionError>) {
    if !mine || changed.Err? || first != Does then Tries(first, mine, was, changed, now, result) && left == open
    else
      && now == changed.value && left == (if second == FailsBefore then open else open - {entry})
      && result == if second == Does then Ok(()) else Err(PortFailed)
  }

  /**
   * The store of one thread. Any of its calls may fail, before or after doing what was asked; the in-memory store is the
   * one that does not. An open object has a stream, which lives until the object ends or is opened again.
   */
  class Store {
    const thread: nat
    const rules: Rules
    const answers: nat -> Answer
    var calls: nat
    var conversation: Conversation
    var open: map<nat, nat>
    var alive: set<nat>
    var streams: nat

    constructor (thread: nat, rules: Rules, answers: nat -> Answer, conversation: Conversation)
      ensures this.thread == thread && this.rules == rules && this.answers == answers && Valid()
      ensures this.conversation == conversation && open == map[] && calls == 0
    {
      this.thread, this.rules, this.answers, this.conversation := thread, rules, answers, conversation;
      calls, open, alive, streams := 0, map[], {}, 0;
    }

    /** The streams that are alive are those of the open objects, each its own. */
    ghost predicate Valid()
      reads this`open, this`alive, this`streams
    {
      && alive == open.Values && (forall entry :: entry in open ==> open[entry] < streams)
      && forall a, b :: a in open && b in open && open[a] == open[b] ==> a == b
    }

    ghost predicate Reliable() { forall n: nat :: answers(n) == Does }

    method NextAnswer() returns (answer: Answer)
      modifies this`calls
      ensures answer == answers(old(calls)) && calls == old(calls) + 1
    {
      answer := answers(calls);
      calls := calls + 1;
    }

    method Read(thread: nat) returns (read: Result<Conversation, SessionError>)
      modifies this`calls
      ensures calls == old(calls) + 1
      ensures read == if thread == this.thread && answers(old(calls)) == Does then Ok(conversation) else Err(PortFailed)
    {
      var answer := NextAnswer();
      read := if thread != this.thread || answer != Does then Err(PortFailed) else Ok(conversation);
    }

    /** Applies a change to the stored conversation. */
    method Apply(thread: nat, changed: Result<Conversation, SessionError>) returns (result: Result<(), SessionError>)
      modifies this`conversation, this`calls
      ensures calls == old(calls) + 1
      ensures Tries(answers(old(calls)), thread == this.thread, old(conversation), changed, conversation, result)
    {
      var answer := NextAnswer();
      if thread != this.thread || answer == FailsBefore || changed.Err? {
        return Err(PortFailed);
      }
      conversation := changed.value;
      result := if answer == FailsAfter then Err(PortFailed) else Ok(());
    }

    /** Opens an object under an entry id; the stream of an earlier one under that id dies. */
    method Begin(thread: nat, entry: nat) returns (stream: Result<nat, SessionError>)
      requires Valid()
      modifies this`open, this`alive, this`streams, this`calls
      ensures Valid() && calls == old(calls) + 1
      ensures thread != this.thread || answers(old(calls)) == FailsBefore ==>
                stream == Err(PortFailed) && open == old(open) && streams == old(streams)
      ensures thread == this.thread && answers(old(calls)) != FailsBefore ==>
                && open == old(open)[entry := old(streams)] && streams == old(streams) + 1
                && stream == if answers(old(calls)) == Does then Ok(old(streams)) else Err(PortFailed)
    {
      var answer := NextAnswer();
      if thread != this.thread || answer == FailsBefore {
        return Err(PortFailed);
      }
      ghost var was := open;
      alive := if entry in open then alive - {open[entry]} + {streams} else alive + {streams};
      open := open[entry := streams];
      ReopenedStreams(was, entry, streams);
      stream := if answer == FailsAfter then Err(PortFailed) else Ok(streams);
      streams := streams + 1;
    }

    /** Ends the object, if it is open, and with it its stream. */
    method End(thread: nat, entry: nat) returns (result: Result<(), SessionError>)
      requires Valid()
      modifies this`open, this`alive, this`calls
      ensures Valid() && calls == old(calls) + 1
      ensures open == if thread == this.thread && answers(old(calls)) != FailsBefore then old(open) - {entry} else old(open)
      ensures result == if thread == this.thread && answers(old(calls)) == Does then Ok(()) else Err(PortFailed)
    {
      var answer := NextAnswer();
      if thread != this.thread || answer == FailsBefore {
        return Err(PortFailed);
      }
      if entry in open {
        ghost var was := open;
        alive := alive - {open[entry]};
        open := open - {entry};
        ClosedStreams(was, entry);
      }
      result := if answer == FailsAfter then Err(PortFailed) else Ok(());
    }

    /** Stores the finished object and ends it; what the rules refuse stays open. */
    method Complete(thread: nat, changed: Result<Conversation, SessionError>, entry: nat)
      returns (result: Result<(), SessionError>)
      requires Valid()
      modifies this`conversation, this`open, this`alive, this`calls
      ensures Valid()
      ensures Completes(answers(old(calls)), answers(old(calls) + 1), thread == this.thread, old(conversation), changed,
                        conversation, old(open), open, entry, result)
    {
      result := Apply(thread, changed);
      if result.Ok? {
        result := End(thread, entry);
      }
    }
  }

  lemma ReopenedStreams(open: map<nat, nat>, entry: nat, stream: nat)
    requires forall a, b :: a in open && b in open && open[a] == open[b] ==> a == b
    requires forall a :: a in open ==> open[a] != stream
    ensures open[entry := stream].Values
         == (if entry in open then open.Values - {open[entry]} else open.Values) + {stream}
  {
    var after := open[entry := stream];
    forall s | s in open.Values && (entry in open ==> s != open[entry]) ensures s in after.Values {
      var a :| a in open && open[a] == s;
      assert after[a] == s;
    }
    assert after[entry] == stream;
    forall s | s in after.Values ensures s == stream || (s in open.Values && (entry in open ==> s != open[entry])) {
      var a :| a in after && after[a] == s;
    }
  }

  lemma ClosedStreams(open: map<nat, nat>, entry: nat)
    requires forall a, b :: a in open && b in open && open[a] == open[b] ==> a == b
    requires entry in open
    ensures (open - {entry}).Values == open.Values - {open[entry]}
  {
    var after := open - {entry};
    forall s | s in open.Values && s != open[entry] ensures s in after.Values {
      var a :| a in open && open[a] == s;
      assert a in after && after[a] == s;
    }
    forall s | s in after.Values ensures s in open.Values && s != open[entry] {
      var a :| a in after && after[a] == s;
    }
  }

  function Without(list: seq<nat>, entry: nat): (r: seq<nat>)
    ensures forall e :: e in r <==> e in list && e != entry
  {
    if list == [] then []
    else
      var front, last := list[..|list| - 1], list[|list| - 1];
      assert forall e :: e in list <==> e in front || e == last;
      Without(front, entry) + if last == entry then [] else [last]
  }

  function Tracking(list: seq<nat>, entry: nat): (r: seq<nat>)
    ensures forall e :: e in r <==> e in list || e == entry
  {
    if entry in list then list else list + [entry]
  }

  class Session {
    const access: Store
    const thread: nat
    var conversation: Conversation
    var responses: seq<nat>
    var results: seq<nat>

    /** A session is made of what was just read from the store. */
    constructor (access: Store, thread: nat, read: Conversation)
      ensures this.access == access && this.thread == thread && conversation == read && responses == results == []
    {
      this.access, this.thread, conversation, responses, results := access, thread, read, [], [];
    }

    /** The copy is what the store has. */
    ghost predicate Agrees()
      reads this`conversation, access`conversation
    {
      thread == access.thread && conversation == access.conversation
    }

    /** Nothing is open in the store that the session does not know of. */
    ghost predicate Tracked()
      reads this`responses, this`results, access`open
    {
      forall e :: e in access.open ==> e in responses || e in results
    }

    /** Exactly what the session tracks is open in the store. */
    ghost predicate Exact()
      reads this`responses, this`results, access`open
    {
      forall e :: e in access.open <==> e in responses || e in results
    }

    /** Changes the copy, and then the store. */
    method AddInputTurn(turn: Turn) returns (result: Result<(), SessionError>)
      modifies this`conversation, access`conversation, access`calls
      ensures var change := ApplyInputTurn(access.rules, old(conversation), turn);
              && conversation == Copied(old(conversation), change)
              && (change.Err? ==> result == Err(change.error) && access.conversation == old(access.conversation))
              && (change.Ok? ==>
                    && access.calls == old(access.calls) + 1
                    && Tries(access.answers(old(access.calls)), thread == access.thread, old(access.conversation),
                             ApplyInputTurn(access.rules, old(access.conversation), turn), access.conversation, result))
              && (access.Reliable() && old(Agrees()) ==> Agrees() && (result.Ok? <==> change.Ok?))
      ensures result.Ok? && old(Agrees()) ==> Agrees()
    {
      var change := ApplyInputTurn(access.rules, conversation, turn);
      if change.Err? {
        return Err(change.error);
      }
      conversation := change.value;
      result := access.Apply(thread, ApplyInputTurn(access.rules, access.conversation, turn));
    }

    method AddEntry(turn: TurnRef, entry: Entry) returns (result: Result<(), SessionError>)
      modifies this`conversation, access`conversation, access`calls
      ensures var change := ApplyEntry(access.rules, old(conversation), turn, entry);
              && conversation == Copied(old(conversation), change)
              && (change.Err? ==> result == Err(change.error) && access.conversation == old(access.conversation))
              && (change.Ok? ==>
                    && access.calls == old(access.calls) + 1
                    && Tries(access.answers(old(access.calls)), thread == access.thread, old(access.conversation),
                             ApplyEntry(access.rules, old(access.conversation), turn, entry), access.conversation, result))
              && (access.Reliable() && old(Agrees()) ==> Agrees() && (result.Ok? <==> change.Ok?))
      ensures result.Ok? && old(Agrees()) ==> Agrees()
    {
      var change := ApplyEntry(access.rules, conversation, turn, entry);
      if change.Err? {
        return Err(change.error);
      }
      conversation := change.value;
      result := access.Apply(thread, ApplyEntry(access.rules, access.conversation, turn, entry));
    }

    method CloseTurn(turn: TurnRef, closure: Entry) returns (result: Result<(), SessionError>)
      modifies this`conversation, access`conversation, access`calls
      ensures var change := ApplyClosure(access.rules, old(conversation), turn, closure);
              && conversation == Copied(old(conversation), change)
              && (change.Err? ==> result == Err(change.error) && access.conversation == old(access.conversation))
              && (change.Ok? ==>
                    && access.calls == old(access.calls) + 1
                    && Tries(access.answers(old(access.calls)), thread == access.thread, old(access.conversation),
                             ApplyClosure(access.rules, old(access.conversation), turn, closure), access.conversation,
                             result))
              && (access.Reliable() && old(Agrees()) ==> Agrees() && (result.Ok? <==> change.Ok?))
    {
      var change := ApplyClosure(access.rules, conversation, turn, closure);
      if change.Err? {
        return Err(change.error);
      }
      conversation := change.value;
      result := access.Apply(thread, ApplyClosure(access.rules, access.conversation, turn, closure));
    }

    method OpenResponse(entry: nat) returns (stream: Result<nat, SessionError>)
      requires access.Valid()
      modifies this`responses, access`open, access`alive, access`streams, access`calls
      ensures access.Valid()
      ensures responses == if stream.Ok? then Tracking(old(responses), entry) else old(responses)
      ensures stream.Ok? <==> thread == access.thread && access.answers(old(access.calls)) == Does
      ensures access.open == if thread == access.thread && access.answers(old(access.calls)) != FailsBefore
                             then old(access.open)[entry := old(access.streams)] else old(access.open)
      ensures stream == Ok(old(access.streams)) || stream == Err(PortFailed)
      ensures access.Reliable() && old(Tracked()) ==> Tracked()
      ensures access.Reliable() && old(Exact()) ==> Exact()
    {
      stream := access.Begin(thread, entry);
      if stream.Err? {
        return;
      }
      responses := Tracking(responses, entry);
    }

    method OpenResult(entry: nat) returns (stream: Result<nat, SessionError>)
      requires access.Valid()
      modifies this`results, access`open, access`alive, access`streams, access`calls
      ensures access.Valid()
      ensures results == if stream.Ok? then Tracking(old(results), entry) else old(results)
      ensures stream.Ok? <==> thread == access.thread && access.answers(old(access.calls)) == Does
      ensures access.open == if thread == access.thread && access.answers(old(access.calls)) != FailsBefore
                             then old(access.open)[entry := old(access.streams)] else old(access.open)
      ensures stream == Ok(old(access.streams)) || stream == Err(PortFailed)
      ensures access.Reliable() && old(Tracked()) ==> Tracked()
      ensures access.Reliable() && old(Exact()) ==> Exact()
    {
      stream := access.Begin(thread, entry);
      if stream.Err? {
        return;
      }
      results := Tracking(results, entry);
    }

    /** No longer tracks the response and ends it in the store. */
    method DiscardResponse(entry: nat) returns (result: Result<(), SessionError>)
      requires access.Valid()
      modifies this`responses, access`open, access`alive, access`calls
      ensures access.Valid() && responses == Without(old(responses), entry)
      ensures result == if thread == access.thread && access.answers(old(access.calls)) == Does then Ok(())
                        else Err(PortFailed)
      ensures access.open == if thread == access.thread && access.answers(old(access.calls)) != FailsBefore
                             then old(access.open) - {entry} else old(access.open)
      ensures result.Ok? && old(Tracked()) ==> Tracked()
      ensures result.Ok? && old(Exact()) ==> (Exact() <==> entry !in results)
    {
      responses := Without(responses, entry);
      result := access.End(thread, entry);
    }

    method DiscardResult(entry: nat) returns (result: Result<(), SessionError>)
      requires access.Valid()
      modifies this`results, access`open, access`alive, access`calls
      ensures access.Valid() && results == Without(old(results), entry)
      ensures result == if thread == access.thread && access.answers(old(access.calls)) == Does then Ok(())
                        else Err(PortFailed)
      ensures access.open == if thread == access.thread && access.answers(old(access.calls)) != FailsBefore
                             then old(access.open) - {entry} else old(access.open)
      ensures result.Ok? && old(Tracked()) ==> Tracked()
      ensures result.Ok? && old(Exact()) ==> (Exact() <==> entry !in responses)
    {
      results := Without(results, entry);
      result := access.End(thread, entry);
    }

    /**
     * Completes a response in the copy and then in the store. A refused one is discarded if it was open. What the store
     * has open stays exactly what is tracked if and only if the id is not tracked as a result, or it is not tracked as a
     * response and the rules refuse the response: then nothing is ended.
     */
    method CompleteResponse(turn: TurnRef, response: Entry) returns (result: Result<(), SessionError>)
      requires access.Valid()
      modifies this`conversation, this`responses, access`conversation, access`open, access`alive, access`calls
      ensures access.Valid()
      ensures var change := ApplyEntry(access.rules, old(conversation), turn, response);
              && conversation == Copied(old(conversation), change)
              && (change.Err? ==> result == Err(change.error) && access.conversation == old(access.conversation))
              && (change.Ok? ==>
                    Completes(access.answers(old(access.calls)), access.answers(old(access.calls) + 1),
                              thread == access.thread, old(access.conversation),
                              ApplyEntry(access.rules, old(access.conversation), turn, response), access.conversation,
                              old(access.open), access.open, response.id, result))
              && (var asked := response.id in old(responses) && thread == access.thread;
                  var ends := asked && access.answers(old(access.calls)) != FailsBefore;
                  change.Err? ==> access.open == (if ends then old(access.open) - {response.id} else old(access.open)))
              && responses == (if change.Ok? && result.Err? then old(responses) else Without(old(responses), response.id))
              && (access.Reliable() && old(Agrees()) ==>
                    && Agrees() && (result.Ok? <==> change.Ok?)
                    && access.open == if change.Ok? || response.id in old(responses) then old(access.open) - {response.id}
                                      else old(access.open))
      ensures access.Reliable() && old(Agrees()) && old(Tracked()) ==> Tracked()
      ensures access.Reliable() && old(Agrees()) && old(Exact()) ==>
                (Exact() <==> response.id !in results
                              || (response.id !in old(responses)
                                  && ApplyEntry(access.rules, old(conversation), turn, response).Err?))
    {
      var change := ApplyEntry(access.rules, conversation, turn, response);
      if change.Err? {
        if response.id in responses {
          var discarded := DiscardResponse(response.id);
        } else {
          WithoutAbsent(responses, response.id);
        }
        return Err(change.error);
      }
      conversation := change.value;
      result := access.Complete(thread, ApplyEntry(access.rules, access.conversation, turn, response), response.id);
      if result.Ok? {
        responses := Without(responses, response.id);
      }
    }

    method CompleteResult(turn: TurnRef, finished: Entry) returns (result: Result<(), SessionError>)
      requires access.Valid()
      modifies this`conversation, this`results, access`conversation, access`open, access`alive, access`calls
      ensures access.Valid()
      ensures var change := ApplyEntry(access.rules, old(conversation), turn, finished);
              && conversation == Copied(old(conversation), change)
              && (change.Err? ==> result == Err(change.error) && access.conversation == old(access.conversation))
              && (change.Ok? ==>
                    Completes(access.answers(old(access.calls)), access.answers(old(access.calls) + 1),
                              thread == access.thread, old(access.conversation),
                              ApplyEntry(access.rules, old(access.conversation), turn, finished), access.conversation,
                              old(access.open), access.open, finished.id, result))
              && (var asked := finished.id in old(results) && thread == access.thread;
                  var ends := asked && access.answers(old(access.calls)) != FailsBefore;
                  change.Err? ==> access.open == (if ends then old(access.open) - {finished.id} else old(access.open)))
              && results == (if change.Ok? && result.Err? then old(results) else Without(old(results), finished.id))
              && (access.Reliable() && old(Agrees()) ==>
                    && Agrees() && (result.Ok? <==> change.Ok?)
                    && access.open == if change.Ok? || finished.id in old(results) then old(access.open) - {finished.id}
                                      else old(access.open))
      ensures access.Reliable() && old(Agrees()) && old(Tracked()) ==> Tracked()
      ensures access.Reliable() && old(Agrees()) && old(Exact()) ==>
                (Exact() <==> finished.id !in responses
                              || (finished.id !in old(results)
                                  && ApplyEntry(access.rules, old(conversation), turn, finished).Err?))
    {
      var change := ApplyEntry(access.rules, conversation, turn, finished);
      if change.Err? {
        if finished.id in results {
          var discarded := DiscardResult(finished.id);
        } else {
          WithoutAbsent(results, finished.id);
        }
        return Err(change.error);
      }
      conversation := change.value;
      result := access.Complete(thread, ApplyEntry(access.rules, access.conversation, turn, finished), finished.id);
      if result.Ok? {
        results := Without(results, finished.id);
      }
    }

    /** The store does what it is asked in `n` calls from the given one on. */
    ghost predicate NoneFails(from: nat, n: nat) { forall k: nat :: from <= k < from + n ==> access.answers(k) == Does }

    /** Lets go of everything tracked, and counts what the store failed to end. */
    method DiscardAll() returns (errors: nat)
      requires access.Valid()
      modifies this`responses, this`results, access`open, access`alive, access`calls
      ensures access.Valid() && responses == [] && results == []
      ensures access.open.Keys <= old(access.open.Keys) && errors <= |old(responses)| + |old(results)|
      ensures errors == 0 && old(Tracked()) ==> access.open == map[]
      ensures var asked := |old(responses)| + |old(results)|;
              && access.calls == old(access.calls) + asked
              && (asked > 0 ==> (errors == 0 <==> thread == access.thread && NoneFails(old(access.calls), asked)))
      ensures access.Reliable() && thread == access.thread ==> errors == 0
    {
      var taken := responses;
      responses := [];
      var unended := EndAll(taken);
      taken, results := results, [];
      errors := EndAll(taken);
      errors := unended + errors;
      assert errors == 0 && old(Tracked()) ==> access.open.Keys == {};
    }

    method EndAll(taken: seq<nat>) returns (errors: nat)
      requires access.Valid()
      modifies access`open, access`alive, access`calls
      ensures access.Valid() && access.open.Keys <= old(access.open.Keys) && errors <= |taken|
      ensures errors == 0 ==> access.open.Keys == old(access.open.Keys) - set e | e in taken
      ensures access.calls == old(access.calls) + |taken|
      ensures taken != [] ==> (errors == 0 <==> thread == access.thread && NoneFails(old(access.calls), |taken|))
      ensures taken == [] ==> errors == 0
    {
      errors := 0;
      for i := 0 to |taken|
        invariant access.Valid() && access.open.Keys <= old(access.open.Keys) && errors <= i
        invariant errors == 0 ==> access.open.Keys == old(access.open.Keys) - set e | e in taken[..i]
        invariant access.calls == old(access.calls) + i
        invariant if i == 0 then errors == 0 else errors == 0 <==> thread == access.thread && NoneFails(old(access.calls), i)
      {
        assert taken[..i + 1] == taken[..i] + [taken[i]];
        var ended := access.End(thread, taken[i]);
        if ended.Err? {
          errors := errors + 1;
        }
      }
      assert taken[..|taken|] == taken;
    }
  }

  lemma {:induction false} WithoutAbsent(list: seq<nat>, entry: nat)
    requires entry !in list
    ensures Without(list, entry) == list
  {
    if list != [] {
      WithoutAbsent(list[..|list| - 1], entry);
    }
  }

  datatype Call =
    | AddInputTurn(inputTurn: Turn) | AddEntry(turn: TurnRef, entry: Entry) | CloseTurn(turn: TurnRef, entry: Entry)
    | OpenResponse(id: nat) | CompleteResponse(turn: TurnRef, entry: Entry) | DiscardResponse(id: nat)
    | OpenResult(id: nat) | CompleteResult(turn: TurnRef, entry: Entry) | DiscardResult(id: nat) | DiscardAll

  method Perform(session: Session, call: Call)
    requires session.access.Valid() && session.access.Reliable() && session.Agrees() && session.Tracked()
    modifies session, session.access
    ensures session.access.Valid() && session.Agrees() && session.Tracked()
  {
    match call {
      case AddInputTurn(turn) => var done := session.AddInputTurn(turn);
      case AddEntry(turn, entry) => var done := session.AddEntry(turn, entry);
      case CloseTurn(turn, entry) => var done := session.CloseTurn(turn, entry);
      case OpenResponse(id) => var done := session.OpenResponse(id);
      case CompleteResponse(turn, entry) => var done := session.CompleteResponse(turn, entry);
      case DiscardResponse(id) => var done := session.DiscardResponse(id);
      case OpenResult(id) => var done := session.OpenResult(id);
      case CompleteResult(turn, entry) => var done := session.CompleteResult(turn, entry);
      case DiscardResult(id) => var done := session.DiscardResult(id);
      case DiscardAll => var done := session.DiscardAll();
    }
  }

  datatype Ending = Result | Failed | Cancelled

  /** How a run of a node ends: whatever is still open is let go of first, and a failure of that fails a result. */
  method End(session: Session, ending: Ending) returns (event: Ending, errors: nat)
    requires session.access.Valid()
    modifies session`responses, session`results, session.access`open, session.access`alive, session.access`calls
    ensures session.access.Valid() && session.responses == [] && session.results == []
    ensures session.access.Reliable() && old(session.Agrees()) && old(session.Tracked()) ==>
              session.access.open == map[] && errors == 0
    ensures event == if ending == Result && errors > 0 then Failed else ending
    ensures event == Result && old(session.Tracked()) ==> session.access.open == map[]
    ensures errors <= |old(session.responses)| + |old(session.results)|
  {
    errors := session.DiscardAll();
    event := if ending == Result && errors > 0 then Failed else ending;
  }

  /**
   * One session on the in-memory store, from its start to its ending, whatever is called in between: the copy and the
   * store end equal, and nothing is left open.
   */
  method Live(conversation: Conversation, rules: Rules, calls: seq<Call>, ending: Ending)
    returns (copy: Conversation, stored: Conversation, left: set<nat>, event: Ending)
    ensures copy == stored && left == {} && event == ending
  {
    var store := new Store(0, rules, n => Does, conversation);
    var read := store.Read(0);
    var session := new Session(store, 0, read.value);
    for i := 0 to |calls|
      invariant store.Valid() && session.Agrees() && session.Tracked()
    {
      Perform(session, calls[i]);
    }
    var errors;
    event, errors := End(session, ending);
    copy, stored, left := session.conversation, store.conversation, store.open.Keys;
  }

  /**
   * The store's open objects are not always exactly those tracked: under one id as a response and as a result, discarding
   * the response ends the one object the store has, and the session still tracks a result.
   */
  method OneIdUnderBothKinds(conversation: Conversation, rules: Rules, id: nat) returns (open: set<nat>, tracked: set<nat>)
    ensures open == {} && tracked == {id}
  {
    var store := new Store(0, rules, n => Does, conversation);
    var session := new Session(store, 0, conversation);
    var response := session.OpenResponse(id);
    var result := session.OpenResult(id);
    var discarded := session.DiscardResponse(id);
    open, tracked := store.open.Keys, (set e | e in session.responses) + (set e | e in session.results);
  }
}
