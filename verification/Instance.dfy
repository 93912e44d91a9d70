/**
 * The channel between the executor and one node instance. Every call of Core is one mutex section and the wakes that
 * follow it; the sections of any number of threads interleave freely.
 */
module Instance {
  import opened Prelude
  import opened Waiting

  type Input(==, !new)
  type Event(==, !new)

  datatype Gate = Open | Closed

  datatype NodeSide = Working(gate: Gate) | Sent(event: Event) | Ended | Vanished

  datatype Executor = Attached | Dropped

  datatype Inner = Inner(queue: seq<Input>, node: NodeSide, executor: Executor, readerWaker: Option<nat>,
                         eventWaker: Option<nat>, droppedWaiters: Slots)

  const NEW := Inner([], Working(Open), Attached, None, None, Slots(0, map[]))

  datatype Op =
    | Give(input: Input) | CloseInput | PollNext(waker: nat) | ForgetReader | Drain
    | Finish(event: Event) | SenderGone | Detach(discardEvent: bool)
    | PollRecv(waker: nat) | ForgetEvent | PollDropped(key: Option<nat>, waker: nat) | RemoveDropped(file: nat)

  datatype Answer =
    | Done | Accepted | InputClosed | NextInput(input: Input) | NoMoreInput | Pending | AllInputs(inputs: seq<Input>)
    | Received(event: Event) | Finished | NodeVanished | IsDropped

  /** A section's answer, and what it hands out to be woken or dropped once the lock is released. */
  datatype Outcome = Outcome(inner: Inner, answer: Answer, wakers: set<nat>, inputs: seq<Input>, event: Option<Event>)

  function Just(inner: Inner, answer: Answer): Outcome { Outcome(inner, answer, {}, [], None) }

  function Taken(slot: Option<nat>): set<nat> { if slot.Some? then {slot.value} else {} }

  predicate AcceptsInput(inner: Inner) { inner.node == Working(Open) }

  /** The node side is over: the queue and both wakers go out. */
  function Retired(inner: Inner, event: Option<Event>): Outcome {
    Outcome(inner.(queue := [], readerWaker := None, eventWaker := None), Done,
            Taken(inner.readerWaker) + Taken(inner.eventWaker), inner.queue, event)
  }

  function Detached(inner: Inner, discardEvent: bool): Outcome {
    var left := if inner.node.Working? || (inner.node.Sent? && discardEvent) then Ended else inner.node;
    var lost := if inner.node.Sent? && discardEvent then Some(inner.node.event) else None;
    var retired := Retired(inner.(node := left, executor := Dropped), lost);
    retired.(inner := retired.inner.(droppedWaiters := inner.droppedWaiters.(wakers := map[])),
    wakers := retired.wakers + inner.droppedWaiters.wakers.Values)
  }

  function Do(inner: Inner, op: Op): Outcome {
    match op
    case Give(input) =>
      if !AcceptsInput(inner) then Just(inner, InputClosed)
      else Outcome(inner.(queue := inner.queue + [input], readerWaker := None), Accepted, Taken(inner.readerWaker), [], None)
    case CloseInput =>
      if !AcceptsInput(inner) then Just(inner, Done)
      else Outcome(inner.(node := Working(Closed), readerWaker := None), Done, Taken(inner.readerWaker), [], None)
    case PollNext(waker) =>
      if inner.queue != [] then Just(inner.(queue := inner.queue[1..]), NextInput(inner.queue[0]))
      else if !AcceptsInput(inner) then Just(inner, NoMoreInput)
      else Just(inner.(readerWaker := Some(waker)), Pending)
    case ForgetReader => Just(inner.(readerWaker := None), Done)
    case Drain => Just(inner.(queue := []), AllInputs(inner.queue))
    case Finish(event) =>
      if inner.node.Working? then Retired(inner.(node := Sent(event)), None) else Retired(inner, Some(event))
    case SenderGone => Retired(if inner.node.Working? then inner.(node := Vanished) else inner, None)
    case Detach(discardEvent) => Detached(inner, discardEvent)
    case PollRecv(waker) =>
      (match inner.node
       case Sent(event) => Just(inner.(node := Ended), Received(event))
       case Ended => Just(inner, Finished)
       case Vanished => Just(inner, NodeVanished)
       case Working(_) => Just(inner.(eventWaker := Some(waker)), Pending))
    case ForgetEvent => Just(inner.(eventWaker := None), Done)
    case PollDropped(key, waker) =>
      if inner.executor == Dropped then Just(inner, IsDropped)
      else Just(inner.(droppedWaiters := Registered(inner.droppedWaiters, key, waker)), Pending)
    case RemoveDropped(key) => Just(inner.(droppedWaiters := Removed(inner.droppedWaiters, key)), Done)
  }

  /** Keeps the stored waker if it already is this one. */
  method Remember(slot: Option<nat>, waker: nat) returns (stored: Option<nat>, replaced: Option<nat>)
    ensures stored == Some(waker) && replaced == slot
  {
    if slot == Some(waker) {
      return slot, Some(waker);
    }
    return Some(waker), slot;
  }

  class Core {
    var queue: seq<Input>
    var node: NodeSide
    var executor: Executor
    var readerWaker: Option<nat>
    var eventWaker: Option<nat>
    const droppedWaiters: Waiters

    constructor ()
      ensures Value() == NEW && fresh(droppedWaiters)
    {
      queue, node, executor, readerWaker, eventWaker := [], Working(Open), Attached, None, None;
      droppedWaiters := new Waiters();
    }

    function Value(): Inner
      reads this, droppedWaiters
    {
      Inner(queue, node, executor, readerWaker, eventWaker, droppedWaiters.Value())
    }

    method TakeReader() returns (wakers: set<nat>)
      modifies this`readerWaker
      ensures wakers == Taken(old(readerWaker)) && readerWaker == None
    {
      wakers := if readerWaker.Some? then {readerWaker.value} else {};
      readerWaker := None;
    }

    method Retire() returns (inputs: seq<Input>, wakers: set<nat>)
      modifies this`queue, this`readerWaker, this`eventWaker
      ensures inputs == old(queue) && wakers == Taken(old(readerWaker)) + Taken(old(eventWaker))
      ensures queue == [] && readerWaker == None && eventWaker == None
    {
      inputs, queue := queue, [];
      wakers := TakeReader();
      wakers := wakers + if eventWaker.Some? then {eventWaker.value} else {};
      eventWaker := None;
    }

    method Give(input: Input) returns (result: Result<(), Answer>, wakers: set<nat>)
      modifies this`queue, this`readerWaker
      ensures Do(old(Value()), Op.Give(input))
           == Outcome(Value(), if result.Ok? then Accepted else InputClosed, wakers, [], None)
    {
      if node != Working(Open) {
        return Err(InputClosed), {};
      }
      queue := queue + [input];
      wakers := TakeReader();
      result := Ok(());
    }

    method CloseInput() returns (wakers: set<nat>)
      modifies this`node, this`readerWaker
      ensures Do(old(Value()), Op.CloseInput) == Outcome(Value(), Done, wakers, [], None)
    {
      wakers := {};
      if node == Working(Open) {
        node := Working(Closed);
        wakers := TakeReader();
      }
    }

    method PollNext(waker: nat) returns (answer: Answer)
      modifies this`queue, this`readerWaker
      ensures Do(old(Value()), Op.PollNext(waker)) == Outcome(Value(), answer, {}, [], None)
    {
      if queue != [] {
        answer, queue := NextInput(queue[0]), queue[1..];
        return;
      }
      if node != Working(Open) {
        return NoMoreInput;
      }
      var replaced;
      readerWaker, replaced := Remember(readerWaker, waker);
      answer := Pending;
    }

    method ForgetReaderWaker()
      modifies this`readerWaker
      ensures Do(old(Value()), ForgetReader) == Outcome(Value(), Done, {}, [], None)
    {
      readerWaker := None;
    }

    method Drain() returns (inputs: seq<Input>)
      modifies this`queue
      ensures Do(old(Value()), Op.Drain) == Outcome(Value(), AllInputs(inputs), {}, [], None)
    {
      inputs, queue := queue, [];
    }

    method Finish(event: Event) returns (wakers: set<nat>, inputs: seq<Input>, lost: Option<Event>)
      modifies this`queue, this`node, this`readerWaker, this`eventWaker
      ensures Do(old(Value()), Op.Finish(event)) == Outcome(Value(), Done, wakers, inputs, lost)
    {
      lost := None;
      if node.Working? {
        node := Sent(event);
      } else {
        lost := Some(event);
      }
      inputs, wakers := Retire();
    }

    method SenderGone() returns (wakers: set<nat>, inputs: seq<Input>)
      modifies this`queue, this`node, this`readerWaker, this`eventWaker
      ensures Do(old(Value()), Op.SenderGone) == Outcome(Value(), Done, wakers, inputs, None)
    {
      if node.Working? {
        node := Vanished;
      }
      inputs, wakers := Retire();
    }

    method Detach(discardEvent: bool) returns (wakers: set<nat>, inputs: seq<Input>, lost: Option<Event>)
      modifies this, droppedWaiters
      ensures Do(old(Value()), Op.Detach(discardEvent)) == Outcome(Value(), Done, wakers, inputs, lost)
    {
      executor, lost := Dropped, None;
      var was := node;
      node := Ended;
      match was {
        case Sent(event) =>
          if discardEvent {
            lost := Some(event);
          } else {
            node := Sent(event);
          }
        case Vanished => node := Vanished;
        case Working(_) =>
        case Ended =>
      }
      inputs, wakers := Retire();
      var drained := droppedWaiters.Drain();
      wakers := wakers + drained;
    }

    method PollRecv(waker: nat) returns (answer: Answer)
      modifies this`node, this`eventWaker
      ensures Do(old(Value()), Op.PollRecv(waker)) == Outcome(Value(), answer, {}, [], None)
    {
      var was := node;
      node := Ended;
      match was {
        case Sent(event) => answer := Received(event);
        case Ended => answer := Finished;
        case Vanished =>
          node := Vanished;
          answer := NodeVanished;
        case Working(gate) =>
          node := Working(gate);
          var replaced;
          eventWaker, replaced := Remember(eventWaker, waker);
          answer := Pending;
      }
    }

    method ForgetEventWaker()
      modifies this`eventWaker
      ensures Do(old(Value()), ForgetEvent) == Outcome(Value(), Done, {}, [], None)
    {
      eventWaker := None;
    }

    method PollDropped(key: Option<nat>, waker: nat) returns (ready: bool, used: Option<nat>)
      modifies droppedWaiters
      ensures Do(old(Value()), Op.PollDropped(key, waker))
           == Outcome(Value(), if ready then IsDropped else Pending, {}, [], None)
      ensures used == if ready then key else Some(KeyFor(old(Value()).droppedWaiters, key))
    {
      if executor == Dropped {
        return true, key;
      }
      var file, leftover := droppedWaiters.Register(key, waker);
      return false, Some(file);
    }

    method RemoveDroppedWaiter(key: nat)
      modifies droppedWaiters
      ensures Do(old(Value()), RemoveDropped(key)) == Outcome(Value(), Done, {}, [], None)
    {
      var removed := droppedWaiters.Remove(key);
    }
  }

  // ----- every interleaving -----

  datatype Status = Idle | Waiting(waker: nat) | Woken

  /** A `Dropped` future. */
  datatype Watcher = Watcher(key: Option<nat>, status: Status, ready: bool)

  /**
   * The channel with everything that happened through it: the inputs accepted, handed to the node and thrown away, the
   * events finished with, received and thrown away, and the futures of the reader, the receiver and the watchers.
   */
  datatype World = World(inner: Inner, accepted: seq<Input>, read: seq<Input>, discarded: seq<Input>,
                         finished: seq<Event>, received: seq<Event>, lost: seq<Event>, reader: Status,
                         receiver: Status, watchers: map<nat, Watcher>)

  const START := World(NEW, [], [], [], [], [], [], Idle, Idle, map[])

  /** The calls the two ends and the watchers make; the borrow checker lets nobody drain under a pending read. */
  datatype Action = Call(op: Op) | NewWatcher(d: nat) | PollWatcher(d: nat, waker: nat) | DropWatcher(d: nat)

  function WokenBy(status: Status, wakers: set<nat>): Status {
    if status.Waiting? && status.waker in wakers then Woken else status
  }

  function WatchersWokenBy(watchers: map<nat, Watcher>, wakers: set<nat>): map<nat, Watcher> {
    map d | d in watchers :: watchers[d].(status := WokenBy(watchers[d].status, wakers))
  }

  function AcceptedBy(op: Op, o: Outcome): seq<Input> { if op.Give? && o.answer.Accepted? then [op.input] else [] }

  function ReadBy(o: Outcome): seq<Input> {
    if o.answer.NextInput? then [o.answer.input] else if o.answer.AllInputs? then o.answer.inputs else []
  }

  /** What the futures know after a call: first who was woken, then what the polled one was told. */
  function Settled(w: World, op: Op, o: Outcome): World {
    var reader := WokenBy(w.reader, o.wakers);
    var receiver := WokenBy(w.receiver, o.wakers);
    w.(inner := o.inner,
    accepted := w.accepted + AcceptedBy(op, o), read := w.read + ReadBy(o),
    discarded := w.discarded + o.inputs,
    finished := w.finished + if op.Finish? then [op.event] else [],
    received := w.received + if o.answer.Received? then [o.answer.event] else [],
    lost := w.lost + if o.event.Some? then [o.event.value] else [],
    reader := if op.PollNext? then (if o.answer.Pending? then Waiting(op.waker) else Idle)
    else if op.ForgetReader? then Idle else reader,
    receiver := if op.PollRecv? then (if o.answer.Pending? then Waiting(op.waker) else Idle)
    else if op.ForgetEvent? then Idle else receiver,
    watchers := WatchersWokenBy(w.watchers, o.wakers))
  }

  function Step(w: World, a: Action): (r: Option<World>) {
    match a
    case Call(op) =>
      if op.PollDropped? || op.RemoveDropped? || (op.Drain? && w.reader != Idle) then None
      else Some(Settled(w, op, Do(w.inner, op)))
    case NewWatcher(d) =>
      if d in w.watchers then None else Some(w.(watchers := w.watchers[d := Watcher(None, Idle, false)]))
    case PollWatcher(d, waker) =>
      if d !in w.watchers then None
      else
        var o := Do(w.inner, PollDropped(w.watchers[d].key, waker));
        Some(w.(inner := o.inner,
             watchers := w.watchers[d := if o.answer.IsDropped? then w.watchers[d].(status := Idle, ready := true)
             else Watcher(Some(KeyFor(w.inner.droppedWaiters, w.watchers[d].key)),
                          Waiting(waker), false)]))
    case DropWatcher(d) =>
      if d !in w.watchers then None
      else
        var gone := w.(watchers := w.watchers - {d});
        if w.watchers[d].key.None? then Some(gone)
        else Some(gone.(inner := Do(w.inner, RemoveDropped(w.watchers[d].key.value)).inner))
  }

  ghost predicate Reached(run: seq<Action>, w: World) { Fold(Step, START, run) == Some(w) }

  // ----- what every call keeps -----

  /** Every input accepted was read, thrown away or is still queued, in that order; only a working node has a queue. */
  ghost predicate InputsOk(w: World) {
    && w.accepted == w.read + w.discarded + w.inner.queue
    && (!w.inner.node.Working? ==> w.inner.queue == [])
    && (w.inner.node.Working? ==> w.discarded == [])
  }

  /** At most one event arrives, and it is the first one the node finished with. */
  ghost predicate EventsOk(w: World) {
    && (w.inner.node.Working? ==> w.finished == [] && w.received == [])
    && (w.inner.node.Sent? ==> w.finished != [] && w.inner.node.event == w.finished[0] && w.received == [])
    && (w.inner.node.Vanished? ==> w.received == [])
    && (w.received != [] ==> w.finished != [] && w.received == [w.finished[0]])
    && (w.inner.node.Ended? ==> w.received != [] || w.inner.executor == Dropped)
    && (w.inner.node.Working? ==> w.inner.executor == Attached)
  }

  /** A stored waker belongs to a future that is still pending, and a waiting future's waker is stored. */
  ghost predicate WakersOk(w: World) {
    && (w.inner.readerWaker.Some? ==> AcceptsInput(w.inner) && w.inner.queue == [] && w.reader != Idle)
    && (w.reader.Waiting? ==> w.inner.readerWaker == Some(w.reader.waker))
    && (w.inner.eventWaker.Some? ==> w.inner.node.Working? && w.receiver != Idle)
    && (w.receiver.Waiting? ==> w.inner.eventWaker == Some(w.receiver.waker))
  }

  ghost predicate WatcherOk(inner: Inner, watcher: Watcher) {
    && (watcher.key.Some? ==> watcher.key.value < inner.droppedWaiters.nextKey)
    && (watcher.ready ==> inner.executor == Dropped)
    && (watcher.status.Waiting? ==>
          && inner.executor == Attached && watcher.key.Some? && watcher.key.value in inner.droppedWaiters.wakers
          && inner.droppedWaiters.wakers[watcher.key.value] == watcher.status.waker)
  }

  ghost predicate KeysApart(watchers: map<nat, Watcher>) {
    forall d, e :: d in watchers && e in watchers && watchers[d].key.Some? && watchers[d].key == watchers[e].key ==> d == e
  }

  ghost predicate Owned(watchers: map<nat, Watcher>, key: nat) {
    exists d :: d in watchers && watchers[d].key == Some(key)
  }

  ghost predicate WatchersOk(inner: Inner, watchers: map<nat, Watcher>) {
    && (forall d :: d in watchers ==> WatcherOk(inner, watchers[d]))
    && KeysApart(watchers)
    && (forall key :: key in inner.droppedWaiters.wakers ==> Owned(watchers, key))
    && (inner.executor == Dropped ==> inner.droppedWaiters.wakers == map[])
  }

  ghost predicate Good(w: World, keys: nat) {
    && InputsOk(w) && EventsOk(w) && WakersOk(w) && WatchersOk(w.inner, w.watchers)
    && w.inner.droppedWaiters.nextKey <= keys
  }

  lemma Regroup(a: seq<Input>, b: seq<Input>, c: seq<Input>)
    ensures (a + b) + c == a + (b + c)
  {
  }

  lemma OrderSurvives(read: seq<Input>, discarded: seq<Input>, queue: seq<Input>, add: seq<Input>, take: seq<Input>,
                      drop: seq<Input>, left: seq<Input>)
    requires queue + add == drop + (take + left)
    requires take == [] || (discarded == [] && drop == [])
    ensures (read + discarded + queue) + add == (read + take) + (discarded + drop) + left
  {
    if take == [] {
      Regroup(read + discarded, queue, add);
      Regroup(read + discarded, drop, left);
      Regroup(read, discarded, drop);
      assert drop + ([] + left) == drop + left && read + [] == read;
    } else {
      Regroup(read, queue, add);
      Regroup(read, take, left);
      assert [] + (take + left) == take + left && read + [] == read && (read + take) + ([] + []) == read + take;
    }
  }

  /** One call moves inputs only from the caller to the queue's end, from its front to the node, or out of it as a whole. */
  lemma InputsMove(inner: Inner, op: Op)
    ensures var o := Do(inner, op);
            && inner.queue + AcceptedBy(op, o) == o.inputs + (ReadBy(o) + o.inner.queue)
            && (ReadBy(o) == [] || (o.inputs == [] && AcceptedBy(op, o) == []))
            && (o.inner.node.Working? ==> inner.node.Working? && o.inputs == [])
            && (!o.inner.node.Working? && inner.queue == [] ==> o.inner.queue == [])
            && (!o.inner.node.Working? && inner.node.Working? ==> o.inner.queue == [])
  {
  }

  lemma CallKeepsInputs(w: World, op: Op)
    requires InputsOk(w) && Step(w, Call(op)).Some?
    ensures InputsOk(Step(w, Call(op)).value)
  {
    InputsMove(w.inner, op);
    KeptInOrder(w, op, Do(w.inner, op));
  }

  lemma KeptInOrder(w: World, op: Op, o: Outcome)
    requires InputsOk(w)
    requires w.inner.queue + AcceptedBy(op, o) == o.inputs + (ReadBy(o) + o.inner.queue)
    requires ReadBy(o) == [] || (o.inputs == [] && AcceptedBy(op, o) == [])
    requires && (o.inner.node.Working? ==> w.inner.node.Working? && o.inputs == [])
             && (!o.inner.node.Working? && w.inner.queue == [] ==> o.inner.queue == [])
             && (!o.inner.node.Working? && w.inner.node.Working? ==> o.inner.queue == [])
    ensures InputsOk(Settled(w, op, o))
  {
    OrderSurvives(w.read, w.discarded, w.inner.queue, AcceptedBy(op, o), ReadBy(o), o.inputs, o.inner.queue);
  }

  lemma CallKeepsEvents(w: World, op: Op)
    requires EventsOk(w) && Step(w, Call(op)).Some?
    ensures EventsOk(Step(w, Call(op)).value)
  {
  }

  lemma CallKeepsWakers(w: World, op: Op)
    requires InputsOk(w) && WakersOk(w) && Step(w, Call(op)).Some?
    ensures WakersOk(Step(w, Call(op)).value)
  {
  }

  lemma OwnedStays(before: map<nat, Watcher>, after: map<nat, Watcher>, key: nat)
    requires Owned(before, key)
    requires forall d :: d in before && before[d].key == Some(key) ==> d in after && after[d].key == Some(key)
    ensures Owned(after, key)
  {
    var d :| d in before && before[d].key == Some(key);
    assert d in after && after[d].key == Some(key);
  }

  /** A section leaves the registrations alone, or takes them all when an end is dropped. */
  lemma CallWakesAllWatchers(inner: Inner, op: Op)
    requires !op.PollDropped? && !op.RemoveDropped?
    ensures var o := Do(inner, op);
            || (o.inner.droppedWaiters == inner.droppedWaiters && o.inner.executor == inner.executor)
            || (o.inner.executor == Dropped && o.inner.droppedWaiters == inner.droppedWaiters.(wakers := map[])
                && inner.droppedWaiters.wakers.Values <= o.wakers)
  {
  }

  lemma CallKeepsWatcher(inner: Inner, o: Outcome, watcher: Watcher)
    requires WatcherOk(inner, watcher)
    requires || (o.inner.droppedWaiters == inner.droppedWaiters && o.inner.executor == inner.executor)
             || (o.inner.executor == Dropped && o.inner.droppedWaiters == inner.droppedWaiters.(wakers := map[])
                 && inner.droppedWaiters.wakers.Values <= o.wakers)
    ensures WatcherOk(o.inner, watcher.(status := WokenBy(watcher.status, o.wakers)))
  {
    if watcher.status.Waiting? {
      assert watcher.status.waker in inner.droppedWaiters.wakers.Values;
    }
  }

  /** Waking changes no registration, and a section that wakes a watcher was the drop of an end. */
  lemma CallKeepsWatchers(w: World, op: Op)
    requires WatchersOk(w.inner, w.watchers) && Step(w, Call(op)).Some?
    ensures WatchersOk(Step(w, Call(op)).value.inner, Step(w, Call(op)).value.watchers)
  {
    var after := Step(w, Call(op)).value;
    CallWakesAllWatchers(w.inner, op);
    forall d | d in after.watchers ensures WatcherOk(after.inner, after.watchers[d]) {
      CallKeepsWatcher(w.inner, Do(w.inner, op), w.watchers[d]);
    }
    forall key | key in after.inner.droppedWaiters.wakers ensures Owned(after.watchers, key) {
      OwnedStays(w.watchers, after.watchers, key);
    }
  }

  lemma NewWatcherKeeps(w: World, d: nat)
    requires WatchersOk(w.inner, w.watchers) && Step(w, NewWatcher(d)).Some?
    ensures WatchersOk(w.inner, Step(w, NewWatcher(d)).value.watchers)
  {
    forall key | key in w.inner.droppedWaiters.wakers ensures Owned(Step(w, NewWatcher(d)).value.watchers, key) {
      OwnedStays(w.watchers, Step(w, NewWatcher(d)).value.watchers, key);
    }
  }

  lemma PollWatcherKeeps(w: World, d: nat, waker: nat, keys: nat)
    requires WatchersOk(w.inner, w.watchers) && w.inner.droppedWaiters.nextKey <= keys && keys + 1 < KEYS
    requires Step(w, PollWatcher(d, waker)).Some?
    ensures var after := Step(w, PollWatcher(d, waker)).value;
            WatchersOk(after.inner, after.watchers) && after.inner.droppedWaiters.nextKey <= keys + 1
  {
    var after := Step(w, PollWatcher(d, waker)).value;
    assert WatcherOk(w.inner, w.watchers[d]);
    forall e | e in after.watchers ensures WatcherOk(after.inner, after.watchers[e]) {
      assert WatcherOk(w.inner, w.watchers[e]);
    }
    forall e, f | e in after.watchers && f in after.watchers && after.watchers[e].key.Some?
                  && after.watchers[e].key == after.watchers[f].key
      ensures e == f
    {
      assert WatcherOk(w.inner, w.watchers[e]) && WatcherOk(w.inner, w.watchers[f]);
    }
    forall key | key in after.inner.droppedWaiters.wakers ensures Owned(after.watchers, key) {
      if after.watchers[d].key != Some(key) {
        assert key in w.inner.droppedWaiters.wakers;
        OwnedStays(w.watchers, after.watchers, key);
      }
    }
  }

  lemma DropWatcherKeeps(w: World, d: nat)
    requires WatchersOk(w.inner, w.watchers) && Step(w, DropWatcher(d)).Some?
    ensures WatchersOk(Step(w, DropWatcher(d)).value.inner, Step(w, DropWatcher(d)).value.watchers)
  {
    var after := Step(w, DropWatcher(d)).value;
    forall e | e in after.watchers ensures WatcherOk(after.inner, after.watchers[e]) {
      assert WatcherOk(w.inner, w.watchers[e]);
    }
    forall key | key in after.inner.droppedWaiters.wakers ensures Owned(after.watchers, key) {
      assert w.watchers[d].key != Some(key);
      OwnedStays(w.watchers, after.watchers, key);
    }
  }

  lemma CallKeepsGood(w: World, op: Op, keys: nat)
    requires Good(w, keys) && Step(w, Call(op)).Some?
    ensures Good(Step(w, Call(op)).value, keys)
  {
    CallKeepsInputs(w, op);
    CallKeepsEvents(w, op);
    CallKeepsWakers(w, op);
    CallKeepsWatchers(w, op);
  }

  lemma StepKeepsGood(w: World, a: Action, keys: nat)
    requires Good(w, keys) && keys + (if a.PollWatcher? then 1 else 0) < KEYS && Step(w, a).Some?
    ensures Good(Step(w, a).value, keys + if a.PollWatcher? then 1 else 0)
  {
    match a
    case Call(op) => CallKeepsGood(w, op, keys);
    case NewWatcher(d) => NewWatcherKeeps(w, d);
    case PollWatcher(d, waker) => PollWatcherKeeps(w, d, waker, keys);
    case DropWatcher(d) => DropWatcherKeeps(w, d);
  }

  predicate Registers(a: Action) { a.PollWatcher? }

  /** How many polls of a run may register a watcher. */
  function Registrations(run: seq<Action>): nat { CountOf(run, Registers) }

  /** Whatever the interleaving, all of it holds after every call (2^64 registrations would wrap the key counter). */
  lemma {:induction false} EveryRunIsGood(run: seq<Action>, w: World)
    requires Reached(run, w) && Registrations(run) < KEYS
    ensures Good(w, Registrations(run))
  {
    if run != [] {
      var front := run[..|run| - 1];
      EveryRunIsGood(front, Fold(Step, START, front).value);
      StepKeepsGood(Fold(Step, START, front).value, run[|run| - 1], Registrations(front));
    }
  }

  /** The inputs are read in the order they were accepted, and none is lost while the node works. */
  lemma InputsArriveInOrder(run: seq<Action>, w: World)
    requires Reached(run, w) && Registrations(run) < KEYS
    ensures w.read <= w.accepted && w.read + w.discarded <= w.accepted
    ensures w.inner.node.Working? ==> w.accepted == w.read + w.inner.queue
    ensures !w.inner.node.Working? ==> w.accepted == w.read + w.discarded
  {
    EveryRunIsGood(run, w);
    Regroup(w.read, w.discarded, w.inner.queue);
  }

  /** The receiver gets at most one event, ever, and it is the first one the node finished with. */
  lemma OneEventArrives(run: seq<Action>, w: World)
    requires Reached(run, w) && Registrations(run) < KEYS
    ensures w.received == [] || (w.finished != [] && w.received == [w.finished[0]])
    ensures w.finished != [] ==> !w.inner.node.Working?
  {
    EveryRunIsGood(run, w);
  }

  /** What the receiver is told at any point of any run: the event once, then that it is over. */
  lemma ReceiverIsToldTheTruth(run: seq<Action>, w: World, waker: nat)
    requires Reached(run, w) && Registrations(run) < KEYS
    ensures var answer := Do(w.inner, PollRecv(waker)).answer;
            && (answer.Received? ==> w.received == [] && w.finished != [] && answer.event == w.finished[0])
            && (w.received != [] ==> answer == Finished)
            && (answer == Finished ==> w.received != [] || w.inner.executor == Dropped)
            && (answer == Pending ==> w.finished == [])
  {
    EveryRunIsGood(run, w);
  }

  /** No wake-up is lost: whoever still waits would be told to wait if it asked again now. */
  lemma NobodyWaitsInVain(run: seq<Action>, w: World, waker: nat)
    requires Reached(run, w) && Registrations(run) < KEYS
    ensures w.reader.Waiting? ==> Do(w.inner, PollNext(waker)).answer == Pending
    ensures w.receiver.Waiting? ==> Do(w.inner, PollRecv(waker)).answer == Pending
    ensures forall d :: d in w.watchers && w.watchers[d].status.Waiting? ==>
                          Do(w.inner, PollDropped(w.watchers[d].key, waker)).answer == Pending
  {
    EveryRunIsGood(run, w);
    assert forall d :: d in w.watchers ==> WatcherOk(w.inner, w.watchers[d]);
  }

  /** No waker is kept for a future that is gone or answered, and each watcher keeps its own. */
  lemma StoredWakersArePending(run: seq<Action>, w: World)
    requires Reached(run, w) && Registrations(run) < KEYS
    ensures w.inner.readerWaker.Some? ==> w.reader != Idle && w.inner.queue == [] && AcceptsInput(w.inner)
    ensures w.inner.eventWaker.Some? ==> w.receiver != Idle && w.inner.node.Working?
    ensures w.inner.droppedWaiters.wakers != map[] ==> w.inner.executor == Attached
    ensures forall key :: key in w.inner.droppedWaiters.wakers ==> Owned(w.watchers, key)
    ensures forall d :: d in w.watchers && w.watchers[d].ready ==> w.inner.executor == Dropped
  {
    EveryRunIsGood(run, w);
    assert forall d :: d in w.watchers ==> WatcherOk(w.inner, w.watchers[d]);
  }

  // ----- what the history alone decides -----

  predicate EndsNode(op: Op) { op.Finish? || op.SenderGone? || op.Detach? }

  /** The first call that ended the node side. */
  function FirstEnd(run: seq<Action>): Option<Op> {
    if run == [] then None
    else
      match FirstEnd(run[..|run| - 1])
      case Some(op) => Some(op)
      case None =>
        var last := run[|run| - 1];
        if last.Call? && EndsNode(last.op) then Some(last.op) else None
  }

  ghost predicate WasDetached(run: seq<Action>) { Call(Detach(true)) in run || Call(Detach(false)) in run }

  /** The input end is open as long as nobody closed it and the node side has not ended. */
  ghost predicate InputIsOpen(run: seq<Action>) { FirstEnd(run).None? && Call(CloseInput) !in run }

  /**
   * The node side is what its first ending made it: working while there is none; with an event that stays until it is
   * received or thrown away by a drop that discards it; vanished; or ended by the drop.
   */
  ghost predicate AsLeft(w: World, end: Option<Op>, closed: bool, discards: bool, detached: bool) {
    && (w.inner.executor == Dropped <==> detached) && (discards ==> detached) && (detached ==> end.Some?)
    && match end
       case None => w.inner.node == Working(if closed then Closed else Open) && w.received == []
       case Some(Finish(event)) =>
         && w.inner.node == (if w.received != [] || discards then Ended else Sent(event))
         && (w.received != [] ==> w.received == [event])
       case Some(SenderGone) => w.inner.node == Vanished && w.received == []
       case Some(Detach(_)) => w.inner.node == Ended && w.received == []
       case Some(_) => false
  }

  lemma CallLeaves(w: World, op: Op, end: Option<Op>, closed: bool, discards: bool, detached: bool)
    requires AsLeft(w, end, closed, discards, detached) && Step(w, Call(op)).Some?
    ensures AsLeft(Step(w, Call(op)).value, if end.None? && EndsNode(op) then Some(op) else end,
                   closed || op.CloseInput?, discards || op == Detach(true), detached || op.Detach?)
  {
  }

  lemma WatchersLeave(w: World, a: Action)
    requires !a.Call? && Step(w, a).Some?
    ensures var after := Step(w, a).value;
            && after.inner.node == w.inner.node && after.inner.executor == w.inner.executor
            && after.received == w.received && after.lost == w.lost && after.finished == w.finished
            && after.accepted == w.accepted
  {
  }

  lemma {:induction false} FirstEndDecides(run: seq<Action>, w: World)
    requires Reached(run, w)
    ensures AsLeft(w, FirstEnd(run), Call(CloseInput) in run, Call(Detach(true)) in run, WasDetached(run))
  {
    if run != [] {
      var front, last := run[..|run| - 1], run[|run| - 1];
      var before := Fold(Step, START, front).value;
      assert run == front + [last];
      FirstEndDecides(front, before);
      if last.Call? {
        CallLeaves(before, last.op, FirstEnd(front), Call(CloseInput) in front, Call(Detach(true)) in front,
                   WasDetached(front));
      } else {
        WatchersLeave(before, last);
      }
    }
  }

  /** The next input that was accepted and is neither read nor thrown away, and all of them. */
  function Unread(w: World): seq<Input>
    requires |w.read| + |w.discarded| <= |w.accepted|
  {
    w.accepted[|w.read| + |w.discarded|..]
  }

  /**
   * What a give and a read are answered at any point of any run: an input is accepted exactly while the input end is
   * open; the reader gets the oldest input it has not had, and the end of the input exactly when there is none left and
   * the end is not open.
   */
  lemma ReaderIsToldTheTruth(run: seq<Action>, w: World, input: Input, waker: nat)
    requires Reached(run, w) && Registrations(run) < KEYS
    ensures |w.read| + |w.discarded| <= |w.accepted|
    ensures Do(w.inner, Op.Give(input)).answer == if InputIsOpen(run) then Accepted else InputClosed
    ensures Do(w.inner, PollNext(waker)).answer
         == if Unread(w) != [] then NextInput(Unread(w)[0]) else if InputIsOpen(run) then Pending else NoMoreInput
    ensures Do(w.inner, Op.Drain).answer == AllInputs(Unread(w))
  {
    EveryRunIsGood(run, w);
    FirstEndDecides(run, w);
    assert w.accepted[|w.read| + |w.discarded|..] == w.inner.queue;
  }

  /** Closing the input is for good: nothing is accepted any more, the reader is not left waiting, and it gets its end. */
  lemma {:induction false} ClosedForGood(run: seq<Action>, w: World, rest: seq<Action>, after: World)
    requires Reached(run, w) && Fold(Step, w, rest) == Some(after) && Registrations(run) + Registrations(rest) < KEYS
    requires !InputIsOpen(run)
    ensures after.accepted == w.accepted && !after.reader.Waiting? && !InputIsOpen(run + rest)
    ensures forall waker :: after.inner.queue == [] ==> Do(after.inner, PollNext(waker)).answer == NoMoreInput
  {
    FoldJoins(Step, START, run, rest);
    CountOfJoins(run, rest, Registers);
    EveryRunIsGood(run + rest, after);
    StaysClosed(run, rest);
    FirstEndDecides(run + rest, after);
    NothingMoreIsAccepted(run, w, rest, after);
  }

  lemma {:induction false} StaysClosed(run: seq<Action>, rest: seq<Action>)
    requires !InputIsOpen(run)
    ensures !InputIsOpen(run + rest)
  {
    if rest == [] {
      assert run + rest == run;
    } else {
      StaysClosed(run, rest[..|rest| - 1]);
      assert (run + rest)[..|run + rest| - 1] == run + rest[..|rest| - 1];
    }
  }

  lemma {:induction false} NothingMoreIsAccepted(run: seq<Action>, w: World, rest: seq<Action>, after: World)
    requires Reached(run, w) && Fold(Step, w, rest) == Some(after) && !InputIsOpen(run)
    ensures after.accepted == w.accepted
  {
    if rest != [] {
      var front, last := rest[..|rest| - 1], rest[|rest| - 1];
      var before := Fold(Step, w, front).value;
      NothingMoreIsAccepted(run, w, front, before);
      StaysClosed(run, front);
      FoldJoins(Step, START, run, front);
      FirstEndDecides(run + front, before);
      if !last.Call? { WatchersLeave(before, last); }
    }
  }

  /** What a watcher is told: that the channel is dropped, exactly once an end was. */
  lemma WatcherIsToldTheTruth(run: seq<Action>, w: World, key: Option<nat>, waker: nat)
    requires Reached(run, w)
    ensures Do(w.inner, PollDropped(key, waker)).answer == if WasDetached(run) then IsDropped else Pending
  {
    FirstEndDecides(run, w);
  }

  /** What the receiver is told, from the history alone. */
  lemma ReceiverIsToldTheFirstEnd(run: seq<Action>, w: World, waker: nat)
    requires Reached(run, w)
    ensures Do(w.inner, PollRecv(waker)).answer
         == match FirstEnd(run)
            case None => Pending
            case Some(Finish(event)) =>
              if w.received == [] && Call(Detach(true)) !in run then Received(event) else Answer.Finished
            case Some(SenderGone) => NodeVanished
            case Some(_) => Answer.Finished
  {
    FirstEndDecides(run, w);
  }

  function IsHeld(node: NodeSide, event: Event): nat { if node == Sent(event) then 1 else 0 }

  function HandedBack(o: Outcome, event: Event): nat { if o.event == Some(event) then 1 else 0 }

  /** A call moves an event from the caller to the node side, from there to the receiver, or out to be dropped. */
  lemma EventsMove(inner: Inner, op: Op, event: Event)
    ensures var o := Do(inner, op);
            (if op == Op.Finish(event) then 1 else 0) + IsHeld(inner.node, event)
            == (if o.answer == Received(event) then 1 else 0) + HandedBack(o, event) + IsHeld(o.inner.node, event)
  {
  }

  lemma CountedOnce(s: seq<Event>, t: seq<Event>, event: Event)
    requires |t| <= 1
    ensures multiset(s + t)[event] == multiset(s)[event] + if t == [event] then 1 else 0
  {
  }

  lemma CallMovesEvents(w: World, op: Op, event: Event)
    requires Step(w, Call(op)).Some?
    ensures var after := Step(w, Call(op)).value;
            var o := Do(w.inner, op);
            && multiset(after.finished)[event] == multiset(w.finished)[event] + (if op == Op.Finish(event) then 1 else 0)
            && multiset(after.received)[event]
               == multiset(w.received)[event] + (if o.answer == Received(event) then 1 else 0)
            && multiset(after.lost)[event] == multiset(w.lost)[event] + HandedBack(o, event)
            && after.inner == o.inner
  {
    var o := Do(w.inner, op);
    CountedOnce(w.finished, if op.Finish? then [op.event] else [], event);
    CountedOnce(w.received, if o.answer.Received? then [o.answer.event] else [], event);
    CountedOnce(w.lost, if o.event.Some? then [o.event.value] else [], event);
  }

  /** No event is lost: each one the node finished with was received, is still held, or was handed back to be dropped. */
  lemma {:induction false} NoEventIsLost(run: seq<Action>, w: World, event: Event)
    requires Reached(run, w)
    ensures multiset(w.finished)[event]
         == multiset(w.received)[event] + multiset(w.lost)[event] + IsHeld(w.inner.node, event)
  {
    if run != [] {
      var before, last := Fold(Step, START, run[..|run| - 1]).value, run[|run| - 1];
      NoEventIsLost(run[..|run| - 1], before, event);
      if last.Call? {
        EventsMove(before.inner, last.op, event);
        CallMovesEvents(before, last.op, event);
      } else {
        WatchersLeave(before, last);
      }
    }
  }
}
