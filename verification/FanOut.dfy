/**
 * A map over a list: one body per item, in any order of completion, with the finished items recorded so that a later
 * attempt at the same superstep does not run them again. Bodies are deterministic; scheduling and interruption are not.
 */
module FanOut {
  import opened Prelude
  import opened Occurrences

  type Value(==, !new)
  type Failure(==, !new)

  datatype Update = Append(key: string, value: Value) | Other(key: string)

  datatype Fault =
    | BodyFailed(failure: Failure) | NotAppend(key: string) | AppendRefused(key: string) | ItemRefused | NoOccurrence

  datatype Policy = Finish | FailFast | Capture

  /**
   * A map and the state it runs on: what the state says of an item and of an append, what the body returns for an item,
   * and what stands in for a failed one. `width` is how many bodies may run at once.
   */
  datatype Job = Job(items: seq<Value>, width: nat, policy: Policy, derives: Value -> bool, takes: Update -> bool,
                     body: (nat, Value) -> Result<seq<Update>, Failure>,
                     captured: (Value, Failure) -> Result<seq<Update>, Fault>)

  // ----- the recorder -----

  datatype Entry = Entry(updates: seq<Update>, ranOn: Option<Value>)

  type Pending = map<Key, Entry>

  class Recorder {
    var pending: Pending

    constructor (pending: Pending)
      ensures this.pending == pending
    {
      this.pending := pending;
    }
  }

  datatype Context = Context(recorder: Recorder, occurrence: Key, recording: bool)

  function Matching(pending: Pending, occurrence: Key, ranOn: Option<Value>): Option<seq<Update>> {
    if occurrence in pending && pending[occurrence].ranOn == ranOn then Some(pending[occurrence].updates) else None
  }

  /** The updates recorded for an item, if they were recorded on this very item and recording is on. */
  method RecordedItem(ctx: Context, item: Value) returns (updates: Option<seq<Update>>)
    ensures updates == if ctx.recording then Matching(ctx.recorder.pending, ctx.occurrence, Some(item)) else None
  {
    updates := if ctx.recording then Matching(ctx.recorder.pending, ctx.occurrence, Some(item)) else None;
  }

  method RecordItem(ctx: Context, item: Value, updates: seq<Update>)
    modifies ctx.recorder
    ensures ctx.recorder.pending
         == if ctx.recording then old(ctx.recorder.pending)[ctx.occurrence := Entry(updates, Some(item))]
                                    else old(ctx.recorder.pending)
  {
    if ctx.recording {
      ctx.recorder.pending := ctx.recorder.pending[ctx.occurrence := Entry(updates, Some(item))];
    }
  }

  predicate IsBelow(key: Key, occurrence: Key) { StartsWith(key, occurrence) && |key| > |occurrence| }

  /** A called graph restarts whole: what was recorded strictly below it goes, and nothing is recorded in it. */
  method RestartWhole(ctx: Context) returns (scope: Context)
    modifies ctx.recorder
    ensures scope == ctx.(recording := false)
    ensures forall key :: key in ctx.recorder.pending <==> key in old(ctx.recorder.pending) && !IsBelow(key, ctx.occurrence)
    ensures forall key :: key in ctx.recorder.pending ==> ctx.recorder.pending[key] == old(ctx.recorder.pending)[key]
  {
    var pending := ctx.recorder.pending;
    ctx.recorder.pending := map key | key in pending && !IsBelow(key, ctx.occurrence) :: pending[key];
    scope := ctx.(recording := false);
  }

  /** A run records into a recorder of its own, seeded with a copy. */
  method Isolated(ctx: Context) returns (own: Context)
    ensures fresh(own.recorder) && own == Context(own.recorder, ctx.occurrence, true)
    ensures own.recorder.pending == ctx.recorder.pending
  {
    var recorder := new Recorder(ctx.recorder.pending);
    own := Context(recorder, ctx.occurrence, true);
  }

  method Unrecorded(ctx: Context) returns (own: Context)
    ensures fresh(own.recorder) && own == Context(own.recorder, ctx.occurrence, false) && own.recorder.pending == map[]
  {
    var recorder := new Recorder(map[]);
    own := Context(recorder, ctx.occurrence, false);
  }

  // ----- what a map comes to by itself -----

  function AppendFault(job: Job, update: Update): Option<Fault> {
    match update
    case Append(key, _) => if job.takes(update) then None else Some(AppendRefused(key))
    case Other(key) => Some(NotAppend(key))
  }

  /** The first update that is no append the state takes. */
  function FirstRefused(job: Job, updates: seq<Update>): Option<Fault> {
    if updates == [] then None
    else
      var front := FirstRefused(job, updates[..|updates| - 1]);
      if front.Some? then front else AppendFault(job, updates[|updates| - 1])
  }

  /** What an item that is run gives: its body's updates, or what captures its failure, if all are appends. */
  function ItemResult(job: Job, index: nat): Result<seq<Update>, Fault>
    requires index < |job.items|
  {
    if !job.derives(job.items[index]) then Err(ItemRefused)
    else
      var updates := match job.body(index, job.items[index])
        case Ok(updates) => Ok(updates)
        case Err(failure) =>
          if job.policy.Capture? then job.captured(job.items[index], failure) else Err(BodyFailed(failure));
      match updates
      case Err(fault) => Err(fault)
      case Ok(list) => match FirstRefused(job, list) case Some(fault) => Err(fault) case None => Ok(list)
  }

  /** The fault of the smallest failing index below `n`. */
  function FirstFault(job: Job, n: nat): Option<Fault>
    requires n <= |job.items|
  {
    if n == 0 then None
    else
      var before := FirstFault(job, n - 1);
      if before.Some? then before
      else match ItemResult(job, n - 1) case Err(fault) => Some(fault) case Ok(_) => None
  }

  /** The appends of the items below `n`, one item after the other. */
  function Appends(job: Job, n: nat): seq<Update>
    requires n <= |job.items|
  {
    if n == 0 then []
    else Appends(job, n - 1) + match ItemResult(job, n - 1) case Ok(updates) => updates case Err(_) => []
  }

  /** What the whole map gives when nothing interrupts it and nothing is recorded. */
  function Whole(job: Job, occurrence: Key): Result<seq<Update>, Fault> {
    if occurrence == [] && job.items != [] then Err(NoOccurrence)
    else
      match FirstFault(job, |job.items|)
      case Some(fault) => Err(fault)
      case None => Ok(Appends(job, |job.items|))
  }

  lemma {:induction false} FirstFaultStays(job: Job, n: nat, m: nat)
    requires n <= m <= |job.items| && FirstFault(job, n).Some?
    ensures FirstFault(job, m) == FirstFault(job, n)
  {
    if n < m { FirstFaultStays(job, n, m - 1); }
  }

  lemma {:induction false} FaultIsFound(job: Job, n: nat, index: nat)
    requires index < n <= |job.items| && ItemResult(job, index).Err?
    ensures FirstFault(job, n).Some?
  {
    if index < n - 1 { FaultIsFound(job, n - 1, index); }
  }

  function ItemKey(occurrence: Key, index: nat): Key
    requires occurrence != []
  {
    Item(occurrence, index).value
  }

  // ----- the same in terms of the items, the bodies and the policy -----

  /** The state takes an update exactly when it is an append that it takes; else the fault names the key and the reason. */
  ghost predicate RefusedAs(job: Job, update: Update, fault: Fault) {
    match update
    case Append(key, _) => !job.takes(update) && fault == AppendRefused(key)
    case Other(key) => fault == NotAppend(key)
  }

  ghost predicate AllTaken(job: Job, updates: seq<Update>) {
    forall update :: update in updates ==> update.Append? && job.takes(update)
  }

  /** The `k`-th update is refused with `fault`, and everything before it is taken. */
  ghost predicate RefusedAt(job: Job, updates: seq<Update>, fault: Fault, k: nat) {
    k < |updates| && RefusedAs(job, updates[k], fault) && AllTaken(job, updates[..k])
  }

  ghost predicate FirstRefusedAs(job: Job, updates: seq<Update>, fault: Fault) {
    exists k: nat :: RefusedAt(job, updates, fault, k)
  }

  /** What stands for an item: what its body returned, or what captures its failure under that policy. */
  ghost predicate Stands(job: Job, index: nat, result: Result<seq<Update>, Fault>)
    requires index < |job.items|
  {
    match job.body(index, job.items[index])
    case Ok(updates) => result == Ok(updates)
    case Err(failure) =>
      result == if job.policy == Capture then job.captured(job.items[index], failure) else Err(BodyFailed(failure))
  }

  /** The item gives these updates: it can be set, and what stands for it is all appends that the state takes. */
  ghost predicate Yields(job: Job, index: nat, updates: seq<Update>)
    requires index < |job.items|
  {
    job.derives(job.items[index]) && Stands(job, index, Ok(updates)) && AllTaken(job, updates)
  }

  /** The item fails: it cannot be set, nothing stands for it, or an update of what does is refused. */
  ghost predicate Fails(job: Job, index: nat, fault: Fault)
    requires index < |job.items|
  {
    if !job.derives(job.items[index]) then fault == ItemRefused
    else Stands(job, index, Err(fault))
         || exists updates :: Stands(job, index, Ok(updates)) && FirstRefusedAs(job, updates, fault)
  }

  lemma {:induction false} FirstRefusedMeans(job: Job, updates: seq<Update>)
    ensures FirstRefused(job, updates).None? <==> AllTaken(job, updates)
    ensures forall fault :: FirstRefused(job, updates) == Some(fault) <==> FirstRefusedAs(job, updates, fault)
  {
    if updates != [] {
      var front, last := updates[..|updates| - 1], updates[|updates| - 1];
      FirstRefusedMeans(job, front);
      assert updates == front + [last];
      forall fault ensures FirstRefused(job, updates) == Some(fault) <==> FirstRefusedAs(job, updates, fault) {
        RefusedMore(job, front, last, fault);
      }
    }
  }

  lemma RefusedBefore(job: Job, front: seq<Update>, last: Update, fault: Fault, k: nat)
    requires k < |front|
    ensures RefusedAt(job, front + [last], fault, k) <==> RefusedAt(job, front, fault, k)
  {
    assert (front + [last])[..k] == front[..k];
  }

  lemma RefusedLast(job: Job, front: seq<Update>, last: Update, fault: Fault)
    ensures RefusedAt(job, front + [last], fault, |front|) <==> AllTaken(job, front) && RefusedAs(job, last, fault)
  {
    assert (front + [last])[..|front|] == front;
  }

  lemma RefusedMore(job: Job, front: seq<Update>, last: Update, fault: Fault)
    ensures FirstRefusedAs(job, front + [last], fault)
       <==> FirstRefusedAs(job, front, fault) || (AllTaken(job, front) && RefusedAs(job, last, fault))
  {
    RefusedLast(job, front, last, fault);
    forall k: nat | k < |front| { RefusedBefore(job, front, last, fault, k); }
    if FirstRefusedAs(job, front + [last], fault) {
      var k: nat :| RefusedAt(job, front + [last], fault, k);
      assert k < |front| ==> RefusedAt(job, front, fault, k);
    }
    if FirstRefusedAs(job, front, fault) {
      var k: nat :| RefusedAt(job, front, fault, k);
      assert RefusedAt(job, front + [last], fault, k);
    }
  }

  lemma ItemResultMeans(job: Job, index: nat)
    requires index < |job.items|
    ensures forall updates :: ItemResult(job, index) == Ok(updates) <==> Yields(job, index, updates)
    ensures forall fault :: ItemResult(job, index) == Err(fault) <==> Fails(job, index, fault)
  {
    forall updates { FirstRefusedMeans(job, updates); }
  }

  /** Item `i` gave exactly what stands in `r` from `at[i]` to `at[i + 1]`. */
  ghost predicate StandsAt(job: Job, r: seq<Update>, at: seq<nat>, i: nat)
    requires i < |job.items| && i + 1 < |at|
  {
    at[i] <= at[i + 1] <= |r| && Yields(job, i, r[at[i]..at[i + 1]])
  }

  /** `r` is what the items yield, one after the other in the order of the list: item `i` from `at[i]` to `at[i + 1]`. */
  ghost predicate InListOrder(job: Job, r: seq<Update>, at: seq<nat>) {
    && |at| == |job.items| + 1 && at[0] == 0 && at[|job.items|] == |r|
    && forall i :: 0 <= i < |job.items| ==> StandsAt(job, r, at, i)
  }

  ghost predicate Succeeds(job: Job, index: nat)
    requires index < |job.items|
  {
    exists updates :: Yields(job, index, updates)
  }

  /** The item of smallest index that fails, fails with `fault`. */
  ghost predicate FirstFails(job: Job, fault: Fault) {
    exists i: nat :: i < |job.items| && Fails(job, i, fault) && forall j :: 0 <= j < i ==> Succeeds(job, j)
  }

  lemma {:induction false} AppendsAreInListOrder(job: Job, n: nat) returns (at: seq<nat>)
    requires n <= |job.items| && FirstFault(job, n).None?
    ensures |at| == n + 1 && at[0] == 0 && at[n] == |Appends(job, n)|
    ensures forall i :: 0 <= i < n ==> StandsAt(job, Appends(job, n), at, i)
  {
    if n == 0 {
      at := [0];
    } else {
      var front := AppendsAreInListOrder(job, n - 1);
      at := front + [|Appends(job, n)|];
      ItemResultMeans(job, n - 1);
      forall i | 0 <= i < n ensures StandsAt(job, Appends(job, n), at, i) {
        if i < n - 1 {
          assert StandsAt(job, Appends(job, n - 1), front, i);
          assert Appends(job, n)[at[i]..at[i + 1]] == Appends(job, n - 1)[front[i]..front[i + 1]];
        } else {
          assert Appends(job, n)[at[i]..at[i + 1]] == ItemResult(job, i).value;
        }
      }
    }
  }

  lemma {:induction false} FirstFaultFails(job: Job, n: nat)
    requires n <= |job.items| && FirstFault(job, n).Some?
    ensures FirstFails(job, FirstFault(job, n).value)
  {
    if FirstFault(job, n - 1).Some? {
      FirstFaultFails(job, n - 1);
    } else {
      ItemResultMeans(job, n - 1);
      forall j | 0 <= j < n - 1 ensures Succeeds(job, j) {
        if ItemResult(job, j).Err? { FaultIsFound(job, n - 1, j); }
        ItemResultMeans(job, j);
        assert Yields(job, j, ItemResult(job, j).value);
      }
    }
  }

  /** What a map comes to, said without it: all that its items yield in list order, or the first failure in list order. */
  ghost predicate MapsTo(job: Job, occurrence: Key, result: Result<seq<Update>, Fault>) {
    if occurrence == [] && job.items != [] then result == Err(NoOccurrence)
    else
      match result
      case Ok(r) => exists at :: InListOrder(job, r, at)
      case Err(fault) => FirstFails(job, fault)
  }

  lemma WholeMapsTo(job: Job, occurrence: Key)
    ensures MapsTo(job, occurrence, Whole(job, occurrence))
  {
    if occurrence != [] || job.items == [] {
      if FirstFault(job, |job.items|).Some? {
        FirstFaultFails(job, |job.items|);
      } else {
        var at := AppendsAreInListOrder(job, |job.items|);
        assert InListOrder(job, Appends(job, |job.items|), at);
      }
    }
  }

  /** Every record made on the very item that is there now holds what running it would give. */
  ghost predicate Faithful(job: Job, occurrence: Key, pending: Pending) {
    occurrence != [] ==>
      forall i :: 0 <= i < |job.items| ==>
                    match Matching(pending, ItemKey(occurrence, i), Some(job.items[i]))
                    case Some(updates) => ItemResult(job, i) == Ok(updates)
                    case None => true
  }

  /** Recording a result on its item keeps the records faithful: no two items share a key. */
  lemma RecordingIsFaithful(job: Job, occurrence: Key, pending: Pending, index: nat, updates: seq<Update>)
    requires occurrence != [] && Faithful(job, occurrence, pending) && index < |job.items|
    requires ItemResult(job, index) == Ok(updates)
    ensures Faithful(job, occurrence, pending[ItemKey(occurrence, index) := Entry(updates, Some(job.items[index]))])
  {
    forall i | 0 <= i < |job.items| ensures ItemKey(occurrence, i) == ItemKey(occurrence, index) <==> i == index {
      ItemsStayApart(occurrence, i, index);
    }
  }

  // ----- the run -----

  method CheckAppends(job: Job, updates: seq<Update>) returns (fault: Option<Fault>)
    ensures fault == FirstRefused(job, updates)
  {
    for i := 0 to |updates|
      invariant FirstRefused(job, updates[..i]) == None
    {
      assert updates[..i + 1][..i] == updates[..i];
      var refused := AppendFault(job, updates[i]);
      if refused.Some? {
        RefusedStays(job, updates, i + 1);
        return refused;
      }
    }
    assert updates[..|updates|] == updates;
    fault := None;
  }

  lemma {:induction false} RefusedStays(job: Job, updates: seq<Update>, n: nat)
    requires n <= |updates| && FirstRefused(job, updates[..n]).Some?
    ensures FirstRefused(job, updates) == FirstRefused(job, updates[..n])
  {
    if n < |updates| {
      assert updates[..|updates| - 1][..n] == updates[..n];
      RefusedStays(job, updates[..|updates| - 1], n);
    } else {
      assert updates[..n] == updates;
    }
  }

  /** The record an item has: made under its own index, on the same item, with recording on. */
  ghost function FoundOn(ctx: Context, pending: Pending, index: nat, item: Value): (r: Option<seq<Update>>)
    requires ctx.occurrence != []
  {
    if ctx.recording && ItemKey(ctx.occurrence, index) in pending
       && pending[ItemKey(ctx.occurrence, index)].ranOn == Some(item)
    then Some(pending[ItemKey(ctx.occurrence, index)].updates) else None
  }

  /** The record an attempt finds for an item. */
  function FoundFor(job: Job, ctx: Context, pending: Pending, index: nat): Option<seq<Update>>
    requires ctx.occurrence != [] && index < |job.items|
  {
    if ctx.recording then Matching(pending, ItemKey(ctx.occurrence, index), Some(job.items[index])) else None
  }

  /** What an attempt gives for an item: the record, if its updates are all appends, else a run. */
  function Attempted(job: Job, ctx: Context, pending: Pending, index: nat): Result<seq<Update>, Fault>
    requires ctx.occurrence != [] && index < |job.items|
  {
    match FoundFor(job, ctx, pending, index)
    case None => ItemResult(job, index)
    case Some(updates) => match FirstRefused(job, updates) case Some(fault) => Err(fault) case None => Ok(updates)
  }

  /** What the recorder holds after an item has ended. */
  function Recorded(job: Job, ctx: Context, pending: Pending, index: nat): Pending
    requires ctx.occurrence != [] && index < |job.items|
  {
    match Attempted(job, ctx, pending, index)
    case Ok(updates) =>
      if ctx.recording then pending[ItemKey(ctx.occurrence, index) := Entry(updates, Some(job.items[index]))] else pending
    case Err(_) => pending
  }

  /** With faithful records an attempt at an item gives what a run would, and leaves the records faithful. */
  lemma FaithfulAttempt(job: Job, ctx: Context, pending: Pending, index: nat)
    requires ctx.occurrence != [] && index < |job.items| && Faithful(job, ctx.occurrence, pending)
    ensures Attempted(job, ctx, pending, index) == ItemResult(job, index)
    ensures Faithful(job, ctx.occurrence, Recorded(job, ctx, pending, index))
  {
    assert FoundFor(job, ctx, pending, index).Some? ==>
        ItemResult(job, index) == Ok(FoundFor(job, ctx, pending, index).value);
    if ItemResult(job, index).Ok? {
      RecordingIsFaithful(job, ctx.occurrence, pending, index, ItemResult(job, index).value);
    }
  }

  /** One item: its record if it has one, else a run of its body, recorded when it is all appends. */
  method ItemUpdates(job: Job, ctx: Context, index: nat) returns (result: Result<seq<Update>, Fault>, ran: bool)
    requires ctx.occurrence != [] && index < |job.items|
    modifies ctx.recorder
    ensures ran <==> FoundOn(ctx, old(ctx.recorder.pending), index, job.items[index]).None? && job.derives(job.items[index])
    ensures FoundOn(ctx, old(ctx.recorder.pending), index, job.items[index]).Some? && result.Ok? ==>
              result.value == FoundOn(ctx, old(ctx.recorder.pending), index, job.items[index]).value
    ensures result == Attempted(job, ctx, old(ctx.recorder.pending), index)
    ensures ctx.recorder.pending == Recorded(job, ctx, old(ctx.recorder.pending), index)
  {
    var item, itemContext := job.items[index], ctx.(occurrence := ItemKey(ctx.occurrence, index));
    ran := false;
    var recorded := RecordedItem(itemContext, item);
    if recorded.Some? {
      var refused := CheckAppends(job, recorded.value);
      ghost var pending := ctx.recorder.pending;
      assert pending[itemContext.occurrence] == Entry(recorded.value, Some(item));
      assert pending[itemContext.occurrence := pending[itemContext.occurrence]] == pending;
      return if refused.Some? then Err(refused.value) else Ok(recorded.value), false;
    }
    if !job.derives(item) {
      return Err(ItemRefused), false;
    }
    var updates;
    ran := true;
    match job.body(index, item) {
      case Ok(list) => updates := list;
      case Err(failure) =>
        if !job.policy.Capture? {
          return Err(BodyFailed(failure)), true;
        }
        var capture := job.captured(item, failure);
        if capture.Err? {
          return capture, true;
        }
        updates := capture.value;
    }
    var refused := CheckAppends(job, updates);
    if refused.Some? {
      return Err(refused.value), true;
    }
    RecordItem(itemContext, item, updates);
    result := Ok(updates);
  }

  datatype Ended = Ended(index: nat, result: Result<seq<Update>, Fault>)

  function IndexOf(ended: Ended): nat { ended.index }

  predicate IndexLe(a: nat, b: nat) { a <= b }

  /** The ends of the first `n` items, in the order of the list. */
  function InOrder(job: Job, n: nat): seq<Ended>
    requires n <= |job.items|
  {
    seq(n, i requires 0 <= i < n => Ended(i, ItemResult(job, i)))
  }

  /** Each of the first `n` items that is not running has ended once, with its own result. */
  ghost predicate EndsOk(job: Job, results: seq<Ended>, n: nat, running: set<nat>)
    requires n <= |job.items|
  {
    && Distinct(results)
    && (forall x :: x in results ==> x.index < n && x.index !in running && x.result == ItemResult(job, x.index))
    && (forall i :: 0 <= i < n && i !in running ==> Ended(i, ItemResult(job, i)) in results)
  }

  lemma OneMoreStarts(job: Job, results: seq<Ended>, n: nat, running: set<nat>)
    requires n < |job.items| && EndsOk(job, results, n, running)
    ensures EndsOk(job, results, n + 1, running + {n})
  {
  }

  lemma OneMoreEnds(job: Job, results: seq<Ended>, n: nat, running: set<nat>, index: nat)
    requires n <= |job.items| && index < n && index in running && EndsOk(job, results, n, running)
    ensures EndsOk(job, results + [Ended(index, ItemResult(job, index))], n, running - {index})
  {
    var more := results + [Ended(index, ItemResult(job, index))];
    assert forall i :: 0 <= i < |results| ==> results[i] in results;
    forall i | 0 <= i < n && i !in running - {index} ensures Ended(i, ItemResult(job, i)) in more {
      if i == index { assert more[|results|] == Ended(i, ItemResult(job, i)); }
    }
  }

  /** Sorting by index puts the ends back into the order of the list, whatever the order they came in. */
  lemma SortedEndsAreInOrder(job: Job, results: seq<Ended>, n: nat)
    requires n <= |job.items| && EndsOk(job, results, n, {})
    ensures SortBy(results, IndexOf, IndexLe) == InOrder(job, n)
  {
    var list := InOrder(job, n);
    forall x ensures x in results <==> x in list {
      if x in results { assert list[x.index] == x; }
    }
    DistinctIsOrderBlind(results);
    DistinctIsOrderBlind(list);
    assert multiset(results) == multiset(list) by {
      forall x ensures multiset(results)[x] == multiset(list)[x] {
        assert x in multiset(results) <==> x in results;
        assert x in multiset(list) <==> x in list;
      }
    }
    assert IsOrder(IndexLe);
    SortBySorts(results, IndexOf, IndexLe);
    SameMembers(SortBy(results, IndexOf, IndexLe), results);
    SortedIsUnique(SortBy(results, IndexOf, IndexLe), list, IndexOf, IndexLe);
  }

  /** Takes the results in the order of the list, up to the first fault. */
  method Forward(job: Job, sorted: seq<Ended>) returns (result: Result<seq<Update>, Fault>)
    requires |sorted| <= |job.items| && sorted == InOrder(job, |sorted|)
    ensures result == match FirstFault(job, |sorted|) case Some(fault) => Err(fault) case None => Ok(Appends(job, |sorted|))
  {
    var forwarded := [];
    for i := 0 to |sorted|
      invariant FirstFault(job, i) == None && forwarded == Appends(job, i)
    {
      match sorted[i].result {
        case Err(fault) =>
          FirstFaultStays(job, i + 1, |sorted|);
          return Err(fault);
        case Ok(updates) => forwarded := forwarded + updates;
      }
    }
    result := Ok(forwarded);
  }

  /** What recording has come to when the items below `n` that are not running have ended. */
  ghost predicate RecordsOk(job: Job, ctx: Context, pending: Pending, n: nat, running: set<nat>)
    requires ctx.occurrence != [] && n <= |job.items|
  {
    ctx.recording ==>
      forall i :: 0 <= i < n && i !in running && ItemResult(job, i).Ok? ==>
                    Matching(pending, ItemKey(ctx.occurrence, i), Some(job.items[i])) == Some(ItemResult(job, i).value)
  }

  lemma RecordStays(job: Job, ctx: Context, pending: Pending, index: nat, n: nat, running: set<nat>)
    requires ctx.occurrence != [] && n <= |job.items| && index < n && index in running
    requires Faithful(job, ctx.occurrence, pending) && RecordsOk(job, ctx, pending, n, running)
    ensures RecordsOk(job, ctx, Recorded(job, ctx, pending, index), n, running - {index})
  {
    FaithfulAttempt(job, ctx, pending, index);
    forall i | 0 <= i < n ensures ItemKey(ctx.occurrence, i) == ItemKey(ctx.occurrence, index) <==> i == index {
      ItemsStayApart(ctx.occurrence, i, index);
    }
  }

  lemma StartKeepsRecords(job: Job, ctx: Context, pending: Pending, n: nat, running: set<nat>)
    requires ctx.occurrence != [] && n < |job.items| && RecordsOk(job, ctx, pending, n, running)
    ensures RecordsOk(job, ctx, pending, n + 1, running + {n})
  {
  }

  /** No item is running any more, and those from `next` on were never started: then there is a fault before them. */
  method ForwardAll(job: Job, results: seq<Ended>, next: nat) returns (forwarded: Result<seq<Update>, Fault>)
    requires next <= |job.items| && EndsOk(job, results, next, {})
    requires next == |job.items| || FirstFault(job, next).Some?
    ensures forwarded == match FirstFault(job, |job.items|)
                         case Some(fault) => Err(fault)
                         case None => Ok(Appends(job, |job.items|))
    ensures forwarded.Ok? ==> next == |job.items|
  {
    SortedEndsAreInOrder(job, results, next);
    forwarded := Forward(job, SortBy(results, IndexOf, IndexLe));
    if FirstFault(job, next).Some? { FirstFaultStays(job, next, |job.items|); }
  }

  /**
   * Of the bodies run so far, in `runs`: none is of an item that had a record to begin with, no item was run twice, and
   * with recording on each result is recorded now. What was recorded at the beginning still is.
   */
  ghost predicate RunsOk(job: Job, ctx: Context, before: Pending, pending: Pending, runs: seq<nat>)
    requires ctx.occurrence != []
  {
    && (forall i :: i in runs ==> i < |job.items| && FoundOn(ctx, before, i, job.items[i]).None?)
    && (forall i :: i in runs && ctx.recording && ItemResult(job, i).Ok? ==>
                      FoundOn(ctx, pending, i, job.items[i]).Some?)
    && (forall i :: 0 <= i < |job.items| && FoundOn(ctx, before, i, job.items[i]).Some? ==>
                      FoundOn(ctx, pending, i, job.items[i]).Some?)
  }

  // ----- when bodies run -----

  /** The body of an item begins, or is over with a result or a fault. */
  datatype Step = Began(index: nat) | Over(index: nat, failed: bool)

  /** How many items have begun, whose bodies are running, and whether a failure keeps more from beginning. */
  datatype Crew = Crew(next: nat, running: set<nat>, stopped: bool)

  /**
   * Bodies begin once each and in list order, as soon as and while fewer than `width` run; each that is over ended as its
   * item does, and with `FailFast` none begins once one has failed.
   */
  ghost function Admit(job: Job, crew: Crew, step: Step): Option<Crew> {
    match step
    case Began(index) =>
      if index == crew.next < |job.items| && |crew.running| < job.width && !crew.stopped
      then Some(crew.(next := crew.next + 1, running := crew.running + {index})) else None
    case Over(index, failed) =>
      if index in crew.running && index < |job.items| && (failed <==> !Succeeds(job, index)) && NoneCanBegin(job, crew)
      then Some(crew.(running := crew.running - {index}, stopped := crew.stopped || (failed && job.policy == FailFast)))
      else None
  }

  predicate NoneCanBegin(job: Job, crew: Crew) {
    crew.next >= |job.items| || crew.stopped || |crew.running| >= job.width
  }

  ghost function Admits(job: Job): (Crew, Step) -> Option<Crew> { (crew: Crew, step: Step) => Admit(job, crew, step) }

  const NOBODY := Crew(0, {}, false)

  /** How far an attempt is: the ends so far, the bodies run to their end, what happened when, and where that leads. */
  datatype Progress = Progress(results: seq<Ended>, runs: seq<nat>, trace: seq<Step>, crew: Crew)

  /** What an attempt that began with the records `before` keeps. */
  ghost predicate Going(job: Job, ctx: Context, before: Pending, pending: Pending, p: Progress) {
    && ctx.occurrence != [] && p.crew.next <= |job.items| && (forall i :: i in p.crew.running ==> i < p.crew.next)
    && EndsOk(job, p.results, p.crew.next, p.crew.running) && Faithful(job, ctx.occurrence, pending)
    && RecordsOk(job, ctx, pending, p.crew.next, p.crew.running) && RunsOk(job, ctx, before, pending, p.runs)
    && Distinct(p.runs) && (forall i :: i in p.runs ==> i < p.crew.next && i !in p.crew.running)
    && |p.crew.running| <= job.width && Fold(Admits(job), NOBODY, p.trace) == Some(p.crew)
    && (p.crew.stopped ==> job.policy == FailFast && FirstFault(job, p.crew.next).Some?)
    && (p.crew.stopped && job.width >= |job.items| ==> p.crew.next == |job.items|)
  }

  /** The next item begins. */
  method StartOne(job: Job, ctx: Context, ghost before: Pending, p: Progress) returns (q: Progress)
    requires Going(job, ctx, before, ctx.recorder.pending, p)
    requires p.crew.next < |job.items| && !p.crew.stopped && |p.crew.running| < job.width
    ensures Going(job, ctx, before, ctx.recorder.pending, q)
    ensures q.crew == p.crew.(next := p.crew.next + 1, running := p.crew.running + {p.crew.next})
  {
    var next := p.crew.next;
    OneMoreStarts(job, p.results, next, p.crew.running);
    StartKeepsRecords(job, ctx, ctx.recorder.pending, next, p.crew.running);
    FoldOneMore(Admits(job), NOBODY, p.trace, Began(next));
    q := p.(trace := p.trace + [Began(next)], crew := p.crew.(next := next + 1, running := p.crew.running + {next}));
  }

  /** The body of a running item ends: its record or its run, noted with the item. */
  method EndOne(job: Job, ctx: Context, ghost before: Pending, p: Progress, index: nat) returns (q: Progress)
    requires Going(job, ctx, before, ctx.recorder.pending, p) && index in p.crew.running && NoneCanBegin(job, p.crew)
    modifies ctx.recorder
    ensures Going(job, ctx, before, ctx.recorder.pending, q)
    ensures q.crew.next == p.crew.next && q.crew.running == p.crew.running - {index} && (p.crew.stopped ==> q.crew.stopped)
  {
    var end, byBody := ItemUpdates(job, ctx, index);
    EndsOn(job, ctx, before, old(ctx.recorder.pending), p, index, byBody);
    q := AfterEnd(job, p, index, end, byBody);
  }

  function AfterEnd(job: Job, p: Progress, index: nat, end: Result<seq<Update>, Fault>, byBody: bool): Progress {
    Progress(p.results + [Ended(index, end)], p.runs + if byBody then [index] else [], p.trace + [Over(index, end.Err?)],
             p.crew.(running := p.crew.running - {index},
             stopped := p.crew.stopped || (end.Err? && job.policy == FailFast)))
  }

  lemma {:induction false} FewerThan(running: set<nat>, n: nat)
    requires forall i :: i in running ==> i < n
    ensures |running| <= n
  {
    if n > 0 {
      FewerThan(running - {n - 1}, n - 1);
    } else {
      assert running == {};
    }
  }

  lemma EndsOn(job: Job, ctx: Context, before: Pending, pending: Pending, p: Progress, index: nat, byBody: bool)
    requires Going(job, ctx, before, pending, p) && index in p.crew.running && NoneCanBegin(job, p.crew)
    requires byBody ==> FoundOn(ctx, pending, index, job.items[index]).None?
    ensures Attempted(job, ctx, pending, index) == ItemResult(job, index)
    ensures Going(job, ctx, before, Recorded(job, ctx, pending, index),
                  AfterEnd(job, p, index, ItemResult(job, index), byBody))
  {
    var next, running, failed := p.crew.next, p.crew.running, ItemResult(job, index).Err?;
    OneMoreEnds(job, p.results, next, running, index);
    RecordStays(job, ctx, pending, index, next, running);
    FaithfulAttempt(job, ctx, pending, index);
    RunsStayOk(job, ctx, before, pending, p.runs, index, byBody);
    ItemResultMeans(job, index);
    if failed { FaultIsFound(job, next, index); } else { assert Yields(job, index, ItemResult(job, index).value); }
    FewerThan(running, next);
    FoldOneMore(Admits(job), NOBODY, p.trace, Over(index, failed));
  }

  lemma RecordingKeepsFound(job: Job, ctx: Context, pending: Pending, index: nat, i: nat)
    requires ctx.occurrence != [] && index < |job.items| && i < |job.items| && Faithful(job, ctx.occurrence, pending)
    ensures var after := Recorded(job, ctx, pending, index);
            && (FoundOn(ctx, pending, i, job.items[i]).Some? ==> FoundOn(ctx, after, i, job.items[i]).Some?)
            && (ctx.recording && ItemResult(job, index).Ok? ==> FoundOn(ctx, after, index, job.items[index]).Some?)
  {
    FaithfulAttempt(job, ctx, pending, index);
    ItemsStayApart(ctx.occurrence, i, index);
  }

  lemma RunsStayOk(job: Job, ctx: Context, before: Pending, pending: Pending, runs: seq<nat>, index: nat, ran: bool)
    requires ctx.occurrence != [] && index < |job.items| && Faithful(job, ctx.occurrence, pending)
    requires RunsOk(job, ctx, before, pending, runs) && (ran ==> FoundOn(ctx, pending, index, job.items[index]).None?)
    ensures RunsOk(job, ctx, before, Recorded(job, ctx, pending, index), runs + if ran then [index] else [])
  {
    forall i | 0 <= i < |job.items| { RecordingKeepsFound(job, ctx, pending, index, i); }
  }

  ghost predicate Uncut(cuts: nat -> bool) { forall round: nat :: !cuts(round) }

  /**
   * One attempt. It may be interrupted at any point, `cuts` says in which round, and the bodies end in any order; but if it
   * comes to an end, it gives what the whole map gives, whatever an earlier attempt recorded and whether the first fault
   * stops the starting of items or not. What it recorded is faithful either way, and unless items were left out, every
   * result is recorded. `runs`: the items whose body was run to its end, none of which had a record. `trace`: when.
   */
  method Attempt(job: Job, ctx: Context, cuts: nat -> bool)
    returns (result: Option<Result<seq<Update>, Fault>>, runs: seq<nat>, trace: seq<Step>)
    requires job.width > 0 && Faithful(job, ctx.occurrence, ctx.recorder.pending)
    modifies ctx.recorder
    ensures Faithful(job, ctx.occurrence, ctx.recorder.pending)
    ensures Uncut(cuts) ==> result.Some?
    ensures result.Some? ==> result.value == Whole(job, ctx.occurrence) && MapsTo(job, ctx.occurrence, result.value)
    ensures result.Some? && ctx.occurrence != []
            && (result.value.Ok? || job.policy != FailFast || job.width >= |job.items|) ==>
              RecordsOk(job, ctx, ctx.recorder.pending, |job.items|, {})
    ensures if ctx.occurrence == [] then runs == []
            else Distinct(runs) && RunsOk(job, ctx, old(ctx.recorder.pending), ctx.recorder.pending, runs)
    ensures match Fold(Admits(job), NOBODY, trace)
            case None => false
            case Some(crew) =>
              result.Some? && ctx.occurrence != [] ==> crew.running == {} && (crew.next == |job.items| || crew.stopped)
  {
    WholeMapsTo(job, ctx.occurrence);
    runs, trace := [], [];
    if ctx.occurrence == [] {
      return Some(if job.items == [] then Ok([]) else Err(NoOccurrence)), [], [];
    }
    var over, p := RunItems(job, ctx, cuts);
    runs, trace := p.runs, p.trace;
    if !over {
      return None, runs, trace;
    }
    var forwarded := ForwardAll(job, p.results, p.crew.next);
    result := Some(forwarded);
  }

  /** Starts and ends the bodies, up to an interruption or until none is running and none will start. */
  method RunItems(job: Job, ctx: Context, cuts: nat -> bool) returns (over: bool, p: Progress)
    requires job.width > 0 && ctx.occurrence != [] && Faithful(job, ctx.occurrence, ctx.recorder.pending)
    modifies ctx.recorder
    ensures Going(job, ctx, old(ctx.recorder.pending), ctx.recorder.pending, p)
    ensures Uncut(cuts) ==> over
    ensures over ==> p.crew.running == {} && (p.crew.next == |job.items| || p.crew.stopped)
  {
    p := Progress([], [], [], NOBODY);
    var round: nat := 0;
    while (p.crew.next < |job.items| && !p.crew.stopped) || p.crew.running != {}
      invariant Going(job, ctx, old(ctx.recorder.pending), ctx.recorder.pending, p)
      decreases 2 * (|job.items| - p.crew.next) + |p.crew.running|
    {
      if cuts(round) {
        return false, p;
      }
      round := round + 1;
      if p.crew.next < |job.items| && !p.crew.stopped && |p.crew.running| < job.width {
        p := StartOne(job, ctx, old(ctx.recorder.pending), p);
      } else {
        FewerThan(p.crew.running, p.crew.next);
        var index :| index in p.crew.running;
        p := EndOne(job, ctx, old(ctx.recorder.pending), p, index);
      }
    }
    over := true;
  }

  /**
   * Any number of attempts at one map, each from what the earlier ones recorded: the first to end gives the whole map, and
   * one that is never interrupted ends. The body of an item that yields is run to its end at most once in all of them.
   */
  method Resume(job: Job, occurrence: Key, cuts: seq<nat -> bool>)
    returns (result: Option<Result<seq<Update>, Fault>>, runs: seq<nat>)
    requires job.width > 0
    ensures (exists k :: 0 <= k < |cuts| && Uncut(cuts[k])) ==> result.Some?
    ensures result.Some? ==> result.value == Whole(job, occurrence) && MapsTo(job, occurrence, result.value)
    ensures forall i: nat :: i < |job.items| && Succeeds(job, i) ==> multiset(runs)[i] <= 1
  {
    var recorder := new Recorder(map[]);
    var ctx := Context(recorder, occurrence, true);
    result, runs := None, [];
    for k := 0 to |cuts|
      invariant Faithful(job, occurrence, recorder.pending) && result.None?
      invariant forall m :: 0 <= m < k ==> !Uncut(cuts[m])
      invariant occurrence != [] ==> OnceEach(job, ctx, recorder.pending, runs)
      invariant occurrence == [] ==> runs == []
    {
      var more;
      ghost var before := recorder.pending;
      var trace;
      result, more, trace := Attempt(job, ctx, cuts[k]);
      if occurrence != [] { StillOnceEach(job, ctx, before, recorder.pending, runs, more); }
      runs := runs + more;
      if result.Some? {
        break;
      }
    }
    if occurrence != [] { OnceEachMeans(job, ctx, recorder.pending, runs); }
  }

  /** Every item that has been run with a result has a record, and has been run once. */
  ghost predicate OnceEach(job: Job, ctx: Context, pending: Pending, runs: seq<nat>)
    requires ctx.occurrence != []
  {
    forall i: nat :: i < |job.items| && ItemResult(job, i).Ok? ==>
                       multiset(runs)[i] <= 1 && (i in runs ==> FoundOn(ctx, pending, i, job.items[i]).Some?)
  }

  lemma StillOnceEach(job: Job, ctx: Context, before: Pending, pending: Pending, runs: seq<nat>, more: seq<nat>)
    requires ctx.occurrence != [] && ctx.recording && OnceEach(job, ctx, before, runs)
    requires Distinct(more) && RunsOk(job, ctx, before, pending, more)
    ensures OnceEach(job, ctx, pending, runs + more)
  {
    DistinctIsOrderBlind(more);
    forall i: nat | i < |job.items| && ItemResult(job, i).Ok?
      ensures multiset(runs + more)[i] <= 1
      ensures i in runs + more ==> FoundOn(ctx, pending, i, job.items[i]).Some?
    {
      assert i in multiset(runs) <==> i in runs;
      assert i in multiset(more) <==> i in more;
    }
  }

  lemma OnceEachMeans(job: Job, ctx: Context, pending: Pending, runs: seq<nat>)
    requires ctx.occurrence != [] && OnceEach(job, ctx, pending, runs)
    ensures forall i: nat :: i < |job.items| && Succeeds(job, i) ==> multiset(runs)[i] <= 1
  {
    forall i: nat | i < |job.items| && Succeeds(job, i) ensures ItemResult(job, i).Ok? { ItemResultMeans(job, i); }
  }
}
