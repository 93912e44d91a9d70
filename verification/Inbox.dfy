/** The in-memory inbox, its paging, and the queue that an agent's worker reads it into. */
module Inboxes {
  import opened Prelude
  import opened Conversations

  /** A mail; `body` stands for its text and its attachments. */
  datatype NewMail = NewMail(id: nat, author: Author, source: nat, to: seq<nat>, cc: seq<nat>, subject: string, body: string)

  /** What a recipient is shown: all of it, or in copy the subject alone. */
  datatype MailItem =
    | To(id: nat, sender: nat, author: Author, source: nat, to: seq<nat>, cc: seq<nat>, subject: string, body: string)
    | Cc(id: nat, subject: string)

  datatype InboxItem = Mail(mail: MailItem) | Notice(entry: Entry)

  function IdOf(item: InboxItem): nat { match item case Mail(mail) => mail.id case Notice(entry) => entry.id }

  datatype SentMail = SentMail(number: nat, sender: nat, mail: NewMail)

  datatype SentEntry = SentEntry(number: nat, agent: nat, entry: Entry)

  datatype Listed = Listed(number: nat, agent: nat, item: InboxItem)

  function NumberOf(listed: Listed): nat { listed.number }

  predicate NumberLe(a: nat, b: nat) { a <= b }

  function Recipients(mail: NewMail): seq<nat> { mail.to + mail.cc }

  function ItemFor(sent: SentMail, agent: nat): InboxItem {
    var mail := sent.mail;
    if agent in mail.to
    then Mail(To(mail.id, sent.sender, mail.author, mail.source, mail.to, mail.cc, mail.subject, mail.body))
    else Mail(Cc(mail.id, mail.subject))
  }

  function ListedMail(sent: SentMail, agents: seq<nat>): seq<Listed> {
    seq(|agents|, i requires 0 <= i < |agents| => Listed(sent.number, agents[i], ItemFor(sent, agents[i])))
  }

  function ListedMails(mails: seq<SentMail>): seq<Listed> {
    if mails == [] then []
    else ListedMails(mails[..|mails| - 1]) + ListedMail(mails[|mails| - 1], Recipients(mails[|mails| - 1].mail))
  }

  function ListedEntries(entries: seq<SentEntry>): seq<Listed> {
    seq(|entries|, i requires 0 <= i < |entries| =>
      Listed(entries[i].number, entries[i].agent, Notice(entries[i].entry)))
  }

  /** Everything ever delivered, in the order of delivery. */
  function ListedAll(mails: seq<SentMail>, entries: seq<SentEntry>): seq<Listed> {
    SortBy(ListedMails(mails) + ListedEntries(entries), NumberOf, NumberLe)
  }

  /** What marking an id as read leaves. */
  function HasOtherId(id: nat): Listed -> bool { (x: Listed) => IdOf(x.item) != id }

  function IsUnread(agent: nat, read: set<(nat, nat)>): Listed -> bool {
    (x: Listed) => x.agent == agent && (agent, IdOf(x.item)) !in read
  }

  function UnreadIn(list: seq<Listed>, agent: nat, read: set<(nat, nat)>): seq<Listed> {
    Filter(list, IsUnread(agent, read))
  }

  /** Numbers grow with every delivery, no two deliveries share one, and no mail names a recipient twice. */
  ghost predicate DeliveriesOk(mails: seq<SentMail>, entries: seq<SentEntry>, next: nat) {
    && (forall i, j :: 0 <= i < j < |mails| ==> mails[i].number < mails[j].number)
    && (forall i, j :: 0 <= i < j < |entries| ==> entries[i].number < entries[j].number)
    && (forall m, e :: m in mails && e in entries ==> m.number != e.number)
    && (forall m :: m in mails ==> 0 < m.number <= next && Distinct(Recipients(m.mail)))
    && (forall e :: e in entries ==> 0 < e.number <= next)
  }

  ghost predicate SameSpot(a: Listed, b: Listed) { a.agent == b.agent && a.number == b.number }

  ghost predicate Apart(list: seq<Listed>) { forall i, j :: 0 <= i < j < |list| ==> !SameSpot(list[i], list[j]) }

  lemma {:induction false} ListedMailsAreApart(mails: seq<SentMail>)
    requires forall i, j :: 0 <= i < j < |mails| ==> mails[i].number < mails[j].number
    requires forall m :: m in mails ==> Distinct(Recipients(m.mail))
    ensures Apart(ListedMails(mails))
    ensures forall x :: x in ListedMails(mails) ==> exists m :: m in mails && m.number == x.number
  {
    if mails != [] {
      var front, last := mails[..|mails| - 1], mails[|mails| - 1];
      ListedMailsAreApart(front);
      var listed := ListedMail(last, Recipients(last.mail));
      assert last in mails;
      forall x | x in ListedMails(front) ensures x.number < last.number && exists m :: m in mails && m.number == x.number {
        var m :| m in front && m.number == x.number;
        assert m in mails;
      }
      forall i, j | 0 <= i < j < |listed| ensures !SameSpot(listed[i], listed[j]) {
        assert Recipients(last.mail)[i] != Recipients(last.mail)[j];
      }
      var all := ListedMails(front) + listed;
      forall i, j | 0 <= i < j < |all| ensures !SameSpot(all[i], all[j]) {
        if i < |ListedMails(front)| <= j { assert all[i] in ListedMails(front); }
      }
    }
  }

  lemma DeliveriesAreApart(mails: seq<SentMail>, entries: seq<SentEntry>, next: nat)
    requires DeliveriesOk(mails, entries, next)
    ensures Apart(ListedMails(mails) + ListedEntries(entries))
  {
    var unsorted := ListedMails(mails) + ListedEntries(entries);
    ListedMailsAreApart(mails);
    forall i, j | 0 <= i < j < |unsorted| ensures !SameSpot(unsorted[i], unsorted[j]) {
      if i < |ListedMails(mails)| <= j {
        assert unsorted[i] in ListedMails(mails);
        assert entries[j - |ListedMails(mails)|] in entries;
      }
    }
  }

  lemma ApartIsOrderBlind(a: seq<Listed>, b: seq<Listed>)
    requires Apart(a) && multiset(a) == multiset(b)
    ensures Apart(b)
  {
    SameMembers(a, b);
    assert Distinct(a) by {
      forall i, j | 0 <= i < j < |a| ensures a[i] != a[j] { assert !SameSpot(a[i], a[j]); }
    }
    DistinctIsOrderBlind(a);
    DistinctIsOrderBlind(b);
    forall i, j | 0 <= i < j < |b| ensures !SameSpot(b[i], b[j]) {
      assert b[i] in a && b[j] in a && b[i] != b[j];
      var k :| 0 <= k < |a| && a[k] == b[i];
      var l :| 0 <= l < |a| && a[l] == b[j];
      assert if k < l then !SameSpot(a[k], a[l]) else !SameSpot(a[l], a[k]);
    }
  }

  predicate Earlier(a: Listed, b: Listed) { a.agent == b.agent ==> a.number < b.number }

  /** One agent's deliveries come in strictly increasing numbers. */
  lemma ListedIsIncreasing(mails: seq<SentMail>, entries: seq<SentEntry>, next: nat)
    requires DeliveriesOk(mails, entries, next)
    ensures var list := ListedAll(mails, entries); forall i, j :: 0 <= i < j < |list| ==> Earlier(list[i], list[j])
  {
    var unsorted, list := ListedMails(mails) + ListedEntries(entries), ListedAll(mails, entries);
    DeliveriesAreApart(mails, entries, next);
    assert IsOrder(NumberLe);
    SortBySorts(unsorted, NumberOf, NumberLe);
    ApartIsOrderBlind(unsorted, list);
    forall i, j | 0 <= i < j < |list| ensures Earlier(list[i], list[j]) {
      assert NumberLe(NumberOf(list[i]), NumberOf(list[j])) && !SameSpot(list[i], list[j]);
    }
  }

  // ----- who is shown what -----

  /** The mail is listed like this: in full for those in `to`, by its subject for those in `cc` only. */
  predicate IsMailTo(x: Listed, sent: SentMail) {
    var mail := sent.mail;
    x.number == sent.number && x.item.Mail? &&
    match x.item.mail
    case To(id, sender, author, source, to, cc, subject, body) =>
      && x.agent in mail.to && sender == sent.sender
      && NewMail(id, author, source, to, cc, subject, body) == mail
    case Cc(id, subject) => x.agent in mail.cc && x.agent !in mail.to && id == mail.id && subject == mail.subject
  }

  predicate IsNoticeTo(x: Listed, sent: SentEntry) {
    x.number == sent.number && x.agent == sent.agent && x.item == Notice(sent.entry)
  }

  ghost predicate IsDelivered(x: Listed, mails: seq<SentMail>, entries: seq<SentEntry>) {
    (exists sent :: sent in mails && IsMailTo(x, sent)) || (exists sent :: sent in entries && IsNoticeTo(x, sent))
  }

  lemma ListedMailMeans(sent: SentMail, x: Listed)
    ensures x in ListedMail(sent, Recipients(sent.mail)) <==> IsMailTo(x, sent)
  {
    var agents := Recipients(sent.mail);
    if IsMailTo(x, sent) {
      assert x.agent in agents;
      var i :| 0 <= i < |agents| && agents[i] == x.agent;
      assert ListedMail(sent, agents)[i] == x;
    }
  }

  lemma {:induction false} ListedMailsMean(mails: seq<SentMail>, x: Listed)
    ensures x in ListedMails(mails) <==> exists sent :: sent in mails && IsMailTo(x, sent)
  {
    if mails != [] {
      var front, last := mails[..|mails| - 1], mails[|mails| - 1];
      ListedMailsMean(front, x);
      ListedMailMeans(last, x);
      assert mails == front + [last];
    }
  }

  /** What is listed is what was delivered: a mail to each of its recipients, an entry to its agent, and nothing else. */
  lemma ListedMeans(mails: seq<SentMail>, entries: seq<SentEntry>, x: Listed)
    ensures x in ListedAll(mails, entries) <==> IsDelivered(x, mails, entries)
  {
    var unsorted, notices := ListedMails(mails) + ListedEntries(entries), ListedEntries(entries);
    assert IsOrder(NumberLe);
    SortBySorts(unsorted, NumberOf, NumberLe);
    SameMembers(unsorted, ListedAll(mails, entries));
    ListedMailsMean(mails, x);
    if exists sent :: sent in entries && IsNoticeTo(x, sent) {
      var sent :| sent in entries && IsNoticeTo(x, sent);
      var i :| 0 <= i < |entries| && entries[i] == sent;
      assert notices[i] == x;
    }
    if x in notices {
      var i :| 0 <= i < |notices| && notices[i] == x;
      assert IsNoticeTo(x, entries[i]);
    }
  }

  /** An agent's unread deliveries are those made to it whose ids it has not marked. */
  lemma UnreadMeans(mails: seq<SentMail>, entries: seq<SentEntry>, agent: nat, read: set<(nat, nat)>, x: Listed)
    ensures x in UnreadIn(ListedAll(mails, entries), agent, read)
            <==> IsDelivered(x, mails, entries) && x.agent == agent && (agent, IdOf(x.item)) !in read
  {
    ListedMeans(mails, entries, x);
    FilterMembers(ListedAll(mails, entries), IsUnread(agent, read));
  }

  ghost predicate Increasing(list: seq<Listed>) { forall i, j :: 0 <= i < j < |list| ==> list[i].number < list[j].number }

  lemma UnreadIsIncreasing(mails: seq<SentMail>, entries: seq<SentEntry>, next: nat, agent: nat, read: set<(nat, nat)>)
    requires DeliveriesOk(mails, entries, next)
    ensures Increasing(UnreadIn(ListedAll(mails, entries), agent, read))
  {
    var list := ListedAll(mails, entries);
    ListedIsIncreasing(mails, entries, next);
    FilterKeepsPairs(list, (x: Listed) => x.agent == agent && (agent, IdOf(x.item)) !in read,
                     (a: Listed, b: Listed) => a.number < b.number);
  }

  // ----- paging -----

  function ItemsOf(list: seq<Listed>): seq<InboxItem> { seq(|list|, i requires 0 <= i < |list| => list[i].item) }

  function IsAfter(number: nat): Listed -> bool { (x: Listed) => x.number > number }

  function After(list: seq<Listed>, number: nat): seq<Listed> { Filter(list, IsAfter(number)) }

  lemma NothingUpToK(list: seq<Listed>, k: nat)
    requires Increasing(list) && k < |list|
    ensures After(list[..k + 1], list[k].number) == []
  {
    forall x | x in list[..k + 1] ensures x.number <= list[k].number {
      var i :| 0 <= i < k + 1 && list[i] == x;
    }
    FilterNone(list[..k + 1], IsAfter(list[k].number));
  }

  lemma EverythingBeyondK(list: seq<Listed>, k: nat)
    requires Increasing(list) && k < |list|
    ensures After(list[k + 1..], list[k].number) == list[k + 1..]
  {
    forall x | x in list[k + 1..] ensures x.number > list[k].number {
      var i :| 0 <= i < |list[k + 1..]| && list[k + 1..][i] == x;
      assert list[k + 1 + i] == x;
    }
    FilterAll(list[k + 1..], IsAfter(list[k].number));
  }

  /** In an increasing list, what comes after the k-th element's number is what comes after the k-th element. */
  lemma AfterIsTheRest(list: seq<Listed>, k: nat)
    requires Increasing(list) && k < |list|
    ensures After(list, list[k].number) == list[k + 1..]
  {
    assert list == list[..k + 1] + list[k + 1..];
    FilterJoins(list[..k + 1], list[k + 1..], IsAfter(list[k].number));
    NothingUpToK(list, k);
    EverythingBeyondK(list, k);
  }

  /** No cursor is before everything. */
  lemma NumbersStartAtOne(mails: seq<SentMail>, entries: seq<SentEntry>, next: nat, agent: nat, read: set<(nat, nat)>)
    requires DeliveriesOk(mails, entries, next)
    ensures After(UnreadIn(ListedAll(mails, entries), agent, read), 0) == UnreadIn(ListedAll(mails, entries), agent, read)
  {
    var unsorted, list := ListedMails(mails) + ListedEntries(entries), ListedAll(mails, entries);
    ListedMailsAreApart(mails);
    assert IsOrder(NumberLe);
    SortBySorts(unsorted, NumberOf, NumberLe);
    SameMembers(unsorted, list);
    FilterMembers(list, IsUnread(agent, read));
    forall x | x in UnreadIn(list, agent, read) ensures x.number > 0 {
      assert x in unsorted;
      if x !in ListedMails(mails) {
        var i :| 0 <= i < |entries| && ListedEntries(entries)[i] == x;
        assert entries[i] in entries;
      }
    }
    FilterAll(UnreadIn(list, agent, read), IsAfter(0));
  }

  /** A page of a list: what comes after the cursor, up to the limit, and a cursor if that is not all. */
  function PageOf(list: seq<Listed>, after: Option<nat>, limit: nat): (seq<InboxItem>, Option<nat>)
    requires limit > 0
  {
    var rest := After(list, if after.Some? then after.value else 0);
    if |rest| > limit then (ItemsOf(rest[..limit]), Some(rest[limit - 1].number)) else (ItemsOf(rest), None)
  }

  function CursorAt(list: seq<Listed>, k: nat): Option<nat>
    requires k <= |list|
  {
    if k == 0 then None else Some(list[k - 1].number)
  }

  function EndOfPage(list: seq<Listed>, k: nat, limit: nat): nat { if k + limit < |list| then k + limit else |list| }

  lemma PageIsTheNextItems(list: seq<Listed>, k: nat, limit: nat)
    requires Increasing(list) && After(list, 0) == list && k <= |list| && limit > 0
    ensures var end := EndOfPage(list, k, limit);
            && k <= end <= |list|
            && PageOf(list, CursorAt(list, k), limit)
               == (ItemsOf(list[k..end]), if end < |list| then CursorAt(list, end) else None)
            && (end < |list| ==> k < end && CursorAt(list, end) != CursorAt(list, k))
  {
    if k > 0 { AfterIsTheRest(list, k - 1); }
    var end := EndOfPage(list, k, limit);
    assert list[k..][..end - k] == list[k..end];
    assert list[k..] == list[k..|list|];
    if k == 0 { assert list[0..] == list; }
  }

  datatype InboxError = Refused | SameCursorTwice

  class MemoryInbox {
    var nextNumber: nat
    var mails: seq<SentMail>
    var entries: seq<SentEntry>
    var read: set<(nat, nat)>

    constructor ()
      ensures Valid() && mails == [] && entries == [] && read == {}
    {
      nextNumber, mails, entries, read := 0, [], [], {};
    }

    ghost predicate Valid()
      reads this
    {
      DeliveriesOk(mails, entries, nextNumber)
      && forall i, j :: 0 <= i < j < |mails| ==> mails[i].mail.id != mails[j].mail.id
    }

    function Unread(agent: nat): seq<Listed>
      reads this
    {
      UnreadIn(ListedAll(mails, entries), agent, read)
    }

    method DeliverEntry(agent: nat, entry: Entry)
      requires Valid()
      modifies this`nextNumber, this`entries
      ensures Valid() && entries == old(entries) + [SentEntry(nextNumber, agent, entry)]
      ensures forall m :: m in mails ==> m.number < nextNumber
    {
      nextNumber := nextNumber + 1;
      entries := entries + [SentEntry(nextNumber, agent, entry)];
    }

    /** Files a mail for its recipients. A mail already filed is not filed again. */
    method DeliverMail(sender: nat, mail: NewMail) returns (result: Result<(), InboxError>)
      requires Valid()
      modifies this`nextNumber, this`mails
      ensures Valid()
      ensures result.Ok? <==> mail.to != [] && Distinct(Recipients(mail))
      ensures mails == if result.Ok? && (forall m :: m in old(mails) ==> m.mail.id != mail.id)
                       then old(mails) + [SentMail(nextNumber, sender, mail)] else old(mails)
    {
      var refused := Refusal(mail);
      if refused {
        return Err(Refused);
      }
      result := Ok(());
      if exists i :: 0 <= i < |mails| && mails[i].mail.id == mail.id {
        return;
      }
      nextNumber := nextNumber + 1;
      mails := mails + [SentMail(nextNumber, sender, mail)];
    }

    /** One page of what the agent has not read, after a cursor, and a cursor if there is more. */
    method Items(agent: nat, after: Option<nat>, limit: nat) returns (items: seq<InboxItem>, next: Option<nat>)
      requires limit > 0
      ensures (items, next) == PageOf(Unread(agent), after, limit)
    {
      var rest := After(Unread(agent), if after.Some? then after.value else 0);
      if |rest| > limit {
        return ItemsOf(rest[..limit]), Some(rest[limit - 1].number);
      }
      return ItemsOf(rest), None;
    }

    /** Afterwards the agent has nothing unread under that id; nothing else changes for anybody. */
    method MarkRead(agent: nat, id: nat)
      modifies this`read
      ensures Unread(agent) == Filter(old(Unread(agent)), HasOtherId(id))
      ensures forall x :: x in Unread(agent) <==> x in old(Unread(agent)) && IdOf(x.item) != id
      ensures forall other :: other != agent ==> Unread(other) == old(Unread(other))
      ensures read == old(read) || read == old(read) + {(agent, id)}
    {
      var list := ListedAll(mails, entries);
      ghost var was := read;
      FilterMembers(Unread(agent), HasOtherId(id));
      if exists i :: 0 <= i < |list| && list[i].agent == agent && IdOf(list[i].item) == id {
        read := read + {(agent, id)};
        MarkedIsUnlisted(list, agent, was, id);
        forall other | other != agent ensures UnreadIn(list, other, read) == UnreadIn(list, other, was) {
          OthersAreUnmarked(list, agent, was, id, other);
        }
      } else {
        AbsentIsUnlisted(list, agent, was, id);
      }
    }
  }

  /** A mail to nobody, or naming a recipient twice, is refused. */
  method Refusal(mail: NewMail) returns (refused: bool)
    ensures refused <==> mail.to == [] || !Distinct(Recipients(mail))
  {
    if mail.to == [] {
      return true;
    }
    var recipients, seen := Recipients(mail), {};
    for i := 0 to |recipients|
      invariant seen == set x | x in recipients[..i]
      invariant Distinct(recipients[..i])
    {
      if recipients[i] in seen {
        return true;
      }
      seen := seen + {recipients[i]};
    }
    assert recipients[..|recipients|] == recipients;
    refused := false;
  }

  lemma MarkedIsUnlisted(list: seq<Listed>, agent: nat, read: set<(nat, nat)>, id: nat)
    ensures UnreadIn(list, agent, read + {(agent, id)}) == Filter(UnreadIn(list, agent, read), HasOtherId(id))
  {
    FilterTwice(list, IsUnread(agent, read), HasOtherId(id), IsUnread(agent, read + {(agent, id)}));
  }

  lemma {:induction false} OthersAreUnmarked(list: seq<Listed>, agent: nat, read: set<(nat, nat)>, id: nat, other: nat)
    requires other != agent
    ensures UnreadIn(list, other, read + {(agent, id)}) == UnreadIn(list, other, read)
  {
    if list != [] { OthersAreUnmarked(list[..|list| - 1], agent, read, id, other); }
  }

  lemma AbsentIsUnlisted(list: seq<Listed>, agent: nat, read: set<(nat, nat)>, id: nat)
    requires forall x :: x in list && x.agent == agent ==> IdOf(x.item) != id
    ensures UnreadIn(list, agent, read) == Filter(UnreadIn(list, agent, read), HasOtherId(id))
  {
    FilterMembers(list, IsUnread(agent, read));
    FilterAll(UnreadIn(list, agent, read), HasOtherId(id));
  }

  // ----- the queue -----

  predicate HasId(items: seq<InboxItem>, id: nat) { exists i :: 0 <= i < |items| && IdOf(items[i]) == id }

  ghost predicate NoIdTwice(items: seq<InboxItem>) {
    forall i, j :: 0 <= i < j < |items| ==> IdOf(items[i]) != IdOf(items[j])
  }

  function Pushed(items: seq<InboxItem>, item: InboxItem): seq<InboxItem> {
    if HasId(items, IdOf(item)) then items else items + [item]
  }

  /** Pushing a whole list, one item after the other. */
  function PushedAll(items: seq<InboxItem>, list: seq<InboxItem>): seq<InboxItem> {
    if list == [] then items else Pushed(PushedAll(items, list[..|list| - 1]), list[|list| - 1])
  }

  /** The items of a list that are new: not queued before, and the first in the list with their id. */
  function Fresh(items: seq<InboxItem>, list: seq<InboxItem>): seq<InboxItem> {
    if list == [] then []
    else
      var front, last := list[..|list| - 1], list[|list| - 1];
      Fresh(items, front) + if HasId(items, IdOf(last)) || HasId(front, IdOf(last)) then [] else [last]
  }

  lemma OneItemMore(items: seq<InboxItem>, item: InboxItem, id: nat)
    ensures HasId(items + [item], id) <==> HasId(items, id) || IdOf(item) == id
  {
    var more := items + [item];
    assert more[|items|] == item;
    if HasId(items, id) {
      var i :| 0 <= i < |items| && IdOf(items[i]) == id;
      assert more[i] == items[i];
    }
  }

  /** Pushing a list appends exactly its new items, in order; every id is then queued, and none twice. */
  lemma {:induction false} PushedAllAppendsFresh(items: seq<InboxItem>, list: seq<InboxItem>)
    ensures PushedAll(items, list) == items + Fresh(items, list)
    ensures forall id :: HasId(PushedAll(items, list), id) <==> HasId(items, id) || HasId(list, id)
    ensures NoIdTwice(items) ==> NoIdTwice(PushedAll(items, list))
  {
    if list != [] {
      var front, last := list[..|list| - 1], list[|list| - 1];
      var before := PushedAll(items, front);
      PushedAllAppendsFresh(items, front);
      assert list == front + [last];
      forall id ensures HasId(PushedAll(items, list), id) <==> HasId(items, id) || HasId(list, id) {
        OneItemMore(front, last, id);
        OneItemMore(before, last, id);
      }
    }
  }

  lemma {:induction false} PushedAllJoins(items: seq<InboxItem>, a: seq<InboxItem>, b: seq<InboxItem>)
    ensures PushedAll(items, a + b) == PushedAll(PushedAll(items, a), b)
  {
    if b == [] {
      assert a + b == a;
    } else {
      PushedAllJoins(items, a, b[..|b| - 1]);
      assert (a + b)[..|a + b| - 1] == a + b[..|b| - 1];
    }
  }

  lemma {:induction false} PushedAllGrows(items: seq<InboxItem>, list: seq<InboxItem>)
    ensures |items| <= |PushedAll(items, list)|
  {
    if list != [] { PushedAllGrows(items, list[..|list| - 1]); }
  }

  ghost predicate IsListed(list: seq<Listed>, id: nat) { exists i :: 0 <= i < |list| && IdOf(list[i].item) == id }

  /** The queue has kept what it had, in order, and holds of the rest the ids that are listed, and no others. */
  ghost predicate QueuesAll(before: seq<InboxItem>, after: seq<InboxItem>, list: seq<Listed>) {
    before <= after && forall id :: HasId(after, id) <==> HasId(before, id) || IsListed(list, id)
  }

  lemma ReadQueuesAll(items: seq<InboxItem>, list: seq<Listed>)
    ensures QueuesAll(items, PushedAll(items, ItemsOf(list)), list)
  {
    PushedAllAppendsFresh(items, ItemsOf(list));
    forall id ensures HasId(ItemsOf(list), id) <==> IsListed(list, id) {
      if IsListed(list, id) {
        var i :| 0 <= i < |list| && IdOf(list[i].item) == id;
        assert ItemsOf(list)[i] == list[i].item;
      }
    }
  }

  class Queue {
    var items: seq<InboxItem>

    constructor ()
      ensures items == []
    {
      items := [];
    }

    method Push(item: InboxItem) returns (added: bool)
      modifies this
      ensures items == Pushed(old(items), item) && added == !HasId(old(items), IdOf(item))
    {
      if exists i :: 0 <= i < |items| && IdOf(items[i]) == IdOf(item) {
        return false;
      }
      items := items + [item];
      added := true;
    }

    method PushPage(page: seq<InboxItem>) returns (added: nat)
      modifies this
      ensures items == PushedAll(old(items), page) && added == |items| - |old(items)|
    {
      added := 0;
      for i := 0 to |page|
        invariant items == PushedAll(old(items), page[..i]) && added == |items| - |old(items)|
      {
        assert page[..i + 1][..i] == page[..i];
        var isNew := Push(page[i]);
        if isNew {
          added := added + 1;
        }
      }
      assert page[..|page|] == page;
    }

    /**
     * Reads everything the agent has not read, a page at a time. Whatever the size of a page, the queue ends up as after
     * one push of the whole list; the cursor advances with every page and is never given twice.
     */
    method Read(inbox: MemoryInbox, agent: nat, batch: nat) returns (result: Result<nat, InboxError>)
      requires inbox.Valid() && batch > 0
      modifies this
      ensures items == PushedAll(old(items), ItemsOf(inbox.Unread(agent)))
      ensures result.Ok? && result.value == |items| - |old(items)|
      ensures QueuesAll(old(items), items, inbox.Unread(agent))
    {
      ghost var unread := inbox.Unread(agent);
      UnreadIsIncreasing(inbox.mails, inbox.entries, inbox.nextNumber, agent, inbox.read);
      NumbersStartAtOne(inbox.mails, inbox.entries, inbox.nextNumber, agent, inbox.read);
      var added, after := 0, None;
      ghost var k := 0;
      while true
        invariant 0 <= k <= |unread| && items == PushedAll(old(items), ItemsOf(unread[..k]))
        invariant added == |items| - |old(items)| && after == CursorAt(unread, k)
        decreases |unread| - k
      {
        var page, next := inbox.Items(agent, after, batch);
        PageIsTheNextItems(unread, k, batch);
        ghost var end := EndOfPage(unread, k, batch);
        PagesJoin(unread, k, end);
        PushedAllJoins(old(items), ItemsOf(unread[..k]), page);
        var more := PushPage(page);
        added := added + more;
        if next.None? {
          assert unread[..end] == unread;
          ReadQueuesAll(old(items), unread);
          return Ok(added);
        }
        assert end < |unread| && after != next;
        if after == next {
          return Err(SameCursorTwice);
        }
        after := next;
        k := end;
      }
    }
  }

  lemma PagesJoin(list: seq<Listed>, k: nat, end: nat)
    requires k <= end <= |list|
    ensures ItemsOf(list[..k]) + ItemsOf(list[k..end]) == ItemsOf(list[..end])
  {
  }
}
