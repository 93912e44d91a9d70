/** Occurrence keys: the path of a node through nested runs, its written form, and the parser of that form. */
module Occurrences {
  import opened Prelude

  /** The largest index a 64-bit machine can parse. */
  const INDEX_MAX := 0xFFFF_FFFF_FFFF_FFFF

  datatype Segment = Segment(node: string, index: Option<nat>)

  type Key = seq<Segment>

  predicate IsNodeId(text: string) {
    text != [] && IsLower(text[0]) && forall c :: c in text ==> IsLower(c) || IsDigit(c) || c == '_'
  }

  predicate IsSegment(segment: Segment) {
    IsNodeId(segment.node) && (segment.index.Some? ==> segment.index.value <= INDEX_MAX)
  }

  predicate IsKey(key: Key) { forall segment :: segment in key ==> IsSegment(segment) }

  // ----- writing -----

  function DigitOf(n: nat): char
    requires n < 10
  {
    ('0' as int + n) as char
  }

  function ShowNumber(n: nat): (r: string)
    ensures r != [] && forall c :: c in r ==> IsDigit(c)
  {
    if n < 10 then [DigitOf(n)] else ShowNumber(n / 10) + [DigitOf(n % 10)]
  }

  function ShowSegment(segment: Segment): string {
    match segment.index
    case None => segment.node
    case Some(index) => segment.node + "[" + ShowNumber(index) + "]"
  }

  function Show(key: Key): string {
    if key == [] then []
    else if |key| == 1 then ShowSegment(key[0])
    else ShowSegment(key[0]) + "/" + Show(key[1..])
  }

  /** A number is written in decimal, with no zero in front. */
  lemma ShownInDecimal(n: nat, d: nat)
    requires d < 10
    ensures ShowNumber(d) == ["0123456789"[d]]
    ensures n > 0 ==> ShowNumber(10 * n + d) == ShowNumber(n) + ["0123456789"[d]]
  {
    assert DigitOf(d) == "0123456789"[d];
    assert (10 * n + d) / 10 == n && (10 * n + d) % 10 == d;
  }

  /** The segments of a key are written with slashes between them. */
  lemma {:induction false} ShowOneMore(key: Key, last: Segment)
    ensures Show(key + [last]) == Show(key) + (if key == [] then [] else "/") + ShowSegment(last)
  {
    if key != [] {
      var more := key + [last];
      assert more[1..] == key[1..] + [last];
      ShowOneMore(key[1..], last);
      if |key| == 1 { assert key[1..] == []; }
    }
  }

  method Display(key: Key) returns (text: string)
    ensures text == Show(key)
  {
    text := [];
    for position := 0 to |key|
      invariant text == Show(key[..position])
    {
      ShowOneMore(key[..position], key[position]);
      assert key[..position + 1] == key[..position] + [key[position]];
      if position > 0 {
        text := text + "/";
      }
      text := text + ShowSegment(key[position]);
    }
    assert key[..|key|] == key;
  }

  // ----- parsing -----

  function DigitValue(c: char): (n: nat)
    requires IsDigit(c)
    ensures n < 10 && DigitOf(n) == c
  {
    c as int - '0' as int
  }

  function NumberOf(digits: string): nat
    requires forall c :: c in digits ==> IsDigit(c)
  {
    if digits == [] then 0 else NumberOf(digits[..|digits| - 1]) * 10 + DigitValue(digits[|digits| - 1])
  }

  /** The parts between the slashes; there is always at least one. */
  function Split(text: string): (parts: seq<string>)
    ensures parts != []
  {
    if text == [] then [[]]
    else
      var parts := Split(text[1..]);
      if text[0] == '/' then [[]] + parts else [[text[0]] + parts[0]] + parts[1..]
  }

  function ParseIndex(digits: string): Option<nat> {
    if digits == [] || exists c :: c in digits && !IsDigit(c) then None
    else if NumberOf(digits) > INDEX_MAX then None
    else Some(NumberOf(digits))
  }

  function ParsePart(part: string): Option<Segment> {
    if part != [] && part[|part| - 1] == ']' then
      var head := part[..|part| - 1];
      match PositionOf(head, '[')
      case None => None
      case Some(at) =>
        match ParseIndex(head[at + 1..])
        case None => None
        case Some(index) => if IsNodeId(head[..at]) then Some(Segment(head[..at], Some(index))) else None
    else if IsNodeId(part) then Some(Segment(part, None))
    else None
  }

  function ParseParts(parts: seq<string>): Option<Key> {
    if parts == [] then Some([])
    else
      match (ParseParts(parts[..|parts| - 1]), ParsePart(parts[|parts| - 1]))
      case (Some(front), Some(last)) => Some(front + [last])
      case _ => None
  }

  function ParseKey(text: string): Option<Key> { if text == [] then Some([]) else ParseParts(Split(text)) }

  lemma {:induction false} BadPartSpoilsAll(parts: seq<string>, k: nat)
    requires k < |parts| && ParsePart(parts[k]).None?
    ensures ParseParts(parts).None?
  {
    if k < |parts| - 1 { BadPartSpoilsAll(parts[..|parts| - 1], k); }
  }

  method Parse(text: string) returns (key: Option<Key>)
    ensures key == ParseKey(text)
  {
    if text == [] {
      return Some([]);
    }
    var parts, segments := Split(text), [];
    for k := 0 to |parts|
      invariant ParseParts(parts[..k]) == Some(segments)
    {
      assert parts[..k + 1][..k] == parts[..k];
      match ParsePart(parts[k]) {
        case None =>
          BadPartSpoilsAll(parts, k);
          return None;
        case Some(segment) => segments := segments + [segment];
      }
    }
    assert parts[..|parts|] == parts;
    key := Some(segments);
  }

  // ----- the round trip -----

  lemma {:induction false} NumberRoundTrips(n: nat)
    ensures NumberOf(ShowNumber(n)) == n
  {
    if n >= 10 {
      NumberRoundTrips(n / 10);
      assert ShowNumber(n)[..|ShowNumber(n)| - 1] == ShowNumber(n / 10);
    }
  }

  lemma {:induction false} FindFirst(text: string, c: char, at: nat)
    requires at < |text| && text[at] == c && c !in text[..at]
    ensures PositionOf(text, c) == Some(at)
  {
    if at > 0 {
      assert text[0] in text[..at];
      assert forall x :: x in text[1..][..at - 1] ==> x in text[..at];
      FindFirst(text[1..], c, at - 1);
    }
  }

  lemma FindAfter(front: string, c: char, back: string)
    requires c !in front
    ensures PositionOf(front + [c] + back, c) == Some(|front|)
  {
    assert (front + [c] + back)[..|front|] == front;
    FindFirst(front + [c] + back, c, |front|);
  }

  lemma IndexedPart(node: string, digits: string)
    requires IsNodeId(node) && ParseIndex(digits).Some?
    ensures ParsePart(node + "[" + digits + "]") == Some(Segment(node, ParseIndex(digits)))
  {
    var part, head := node + "[" + digits + "]", node + ['['] + digits;
    assert part == head + [']'] && part[..|part| - 1] == head;
    FindAfter(node, '[', digits);
    assert head[..|node|] == node && head[|node| + 1..] == digits;
  }

  lemma SegmentRoundTrips(segment: Segment)
    requires IsSegment(segment)
    ensures ParsePart(ShowSegment(segment)) == Some(segment)
  {
    match segment.index
    case None => assert segment.node[|segment.node| - 1] in segment.node;
    case Some(index) =>
      NumberRoundTrips(index);
      IndexedPart(segment.node, ShowNumber(index));
  }

  lemma NoSlash(segment: Segment)
    requires IsSegment(segment)
    ensures '/' !in ShowSegment(segment) && ShowSegment(segment) != []
  {
  }

  lemma {:induction false} SplitOne(part: string)
    requires '/' !in part
    ensures Split(part) == [part]
  {
    if part != [] {
      SplitOne(part[1..]);
      assert part == [part[0]] + part[1..];
    }
  }

  lemma {:induction false} SplitFirst(part: string, rest: string)
    requires '/' !in part
    ensures Split(part + "/" + rest) == [part] + Split(rest)
  {
    var text := part + "/" + rest;
    if part == [] {
      assert text[1..] == rest;
    } else {
      assert text[1..] == part[1..] + "/" + rest;
      SplitFirst(part[1..], rest);
      assert part == [part[0]] + part[1..];
    }
  }

  function ShownParts(key: Key): seq<string> { seq(|key|, i requires 0 <= i < |key| => ShowSegment(key[i])) }

  lemma ShownPartsOfMore(key: Key)
    requires key != []
    ensures ShownParts(key) == [ShowSegment(key[0])] + ShownParts(key[1..])
  {
  }

  lemma {:induction false} SplitShown(key: Key)
    requires IsKey(key) && key != []
    ensures Split(Show(key)) == ShownParts(key)
  {
    NoSlash(key[0]);
    ShownPartsOfMore(key);
    if |key| == 1 {
      SplitOne(ShowSegment(key[0]));
    } else {
      SplitFirst(ShowSegment(key[0]), Show(key[1..]));
      SplitShown(key[1..]);
    }
  }

  lemma OnePartMore(parts: seq<string>, last: string)
    ensures ParseParts(parts + [last])
         == match (ParseParts(parts), ParsePart(last))
            case (Some(front), Some(segment)) => Some(front + [segment])
            case _ => None
  {
    assert (parts + [last])[..|parts|] == parts;
  }

  lemma {:induction false} PartsRoundTrip(key: Key)
    requires IsKey(key)
    ensures ParseParts(ShownParts(key)) == Some(key)
  {
    if key != [] {
      var front, last := key[..|key| - 1], key[|key| - 1];
      assert key == front + [last];
      PartsRoundTrip(front);
      SegmentRoundTrips(last);
      assert ShownParts(key) == ShownParts(front) + [ShowSegment(last)];
      OnePartMore(ShownParts(front), ShowSegment(last));
    }
  }

  /** The written form of any key parses back to that key. */
  lemma KeyRoundTrips(key: Key)
    requires IsKey(key)
    ensures ParseKey(Show(key)) == Some(key)
  {
    if key != [] {
      NoSlash(key[0]);
      SplitShown(key);
      PartsRoundTrip(key);
    }
  }

  /** Two keys are never written alike. */
  lemma ShowIsInjective(a: Key, b: Key)
    requires IsKey(a) && IsKey(b) && Show(a) == Show(b)
    ensures a == b
  {
    KeyRoundTrips(a);
    KeyRoundTrips(b);
  }

  lemma {:induction false} ParsedPartsAreKeys(parts: seq<string>)
    ensures ParseParts(parts).Some? ==> IsKey(ParseParts(parts).value) && |ParseParts(parts).value| == |parts|
  {
    if parts != [] { ParsedPartsAreKeys(parts[..|parts| - 1]); }
  }

  /** What parses is a key, so nothing but written keys (up to zeros in front of an index) is accepted. */
  lemma ParsedIsAKey(text: string)
    requires ParseKey(text).Some?
    ensures IsKey(ParseKey(text).value)
    ensures ParseKey(text).value == [] <==> text == []
  {
    if text != [] { ParsedPartsAreKeys(Split(text)); }
  }

  // ----- which texts are the written form of what they parse to -----

  predicate IsPlainNumber(digits: string) { |digits| == 1 || (digits != [] && digits[0] != '0') }

  /** A part whose index, if any, has no zero in front. */
  predicate IsPlain(part: string) {
    part == [] || part[|part| - 1] != ']' ||
    match PositionOf(part[..|part| - 1], '[')
    case None => true
    case Some(at) => IsPlainNumber(part[at + 1..|part| - 1])
  }

  lemma {:induction false} PlainIsPositive(digits: string)
    requires digits != [] && digits[0] != '0' && forall c :: c in digits ==> IsDigit(c)
    ensures NumberOf(digits) > 0
  {
    if |digits| > 1 { PlainIsPositive(digits[..|digits| - 1]); }
  }

  lemma {:induction false} ShownIsPlain(n: nat)
    ensures IsPlainNumber(ShowNumber(n)) && (n > 0 ==> ShowNumber(n)[0] != '0')
  {
    if n >= 10 { ShownIsPlain(n / 10); }
  }

  lemma {:induction false} PlainNumberRoundTrips(digits: string)
    requires IsPlainNumber(digits) && forall c :: c in digits ==> IsDigit(c)
    ensures ShowNumber(NumberOf(digits)) == digits
  {
    if |digits| > 1 {
      var front, last := digits[..|digits| - 1], digits[|digits| - 1];
      PlainIsPositive(front);
      PlainNumberRoundTrips(front);
      assert digits == front + [last];
      assert NumberOf(digits) / 10 == NumberOf(front) && NumberOf(digits) % 10 == DigitValue(last);
    } else {
      assert digits == [digits[0]] && digits[..0] == [];
    }
  }

  lemma IndexedIsShown(node: string, digits: string)
    requires digits != [] && forall c :: c in digits ==> IsDigit(c)
    ensures ShowSegment(Segment(node, Some(NumberOf(digits)))) == node + "[" + digits + "]" <==> IsPlainNumber(digits)
  {
    var number := ShowNumber(NumberOf(digits));
    ShownIsPlain(NumberOf(digits));
    if IsPlainNumber(digits) { PlainNumberRoundTrips(digits); }
    Middle(node + "[", number, "]");
    Middle(node + "[", digits, "]");
  }

  lemma Middle(before: string, text: string, after: string)
    ensures var whole := before + text + after; whole[|before|..|whole| - |after|] == text
  {
  }

  lemma ParsedPartIsShown(part: string)
    requires ParsePart(part).Some?
    ensures ShowSegment(ParsePart(part).value) == part <==> IsPlain(part)
  {
    if part != [] && part[|part| - 1] == ']' {
      var head := part[..|part| - 1];
      var at := PositionOf(head, '[').value;
      var digits := head[at + 1..];
      assert digits == part[at + 1..|part| - 1];
      assert part == head[..at] + "[" + digits + "]";
      IndexedIsShown(head[..at], digits);
    }
  }

  lemma {:induction false} ParsedParts(parts: seq<string>, k: nat)
    requires ParseParts(parts).Some? && k < |parts|
    ensures |ParseParts(parts).value| == |parts| && ParsePart(parts[k]) == Some(ParseParts(parts).value[k])
  {
    ParsedPartsAreKeys(parts);
    if k < |parts| - 1 {
      ParsedPartsAreKeys(parts[..|parts| - 1]);
      ParsedParts(parts[..|parts| - 1], k);
    } else {
      ParsedPartsAreKeys(parts[..|parts| - 1]);
    }
  }

  function Join(parts: seq<string>): string {
    if parts == [] then [] else if |parts| == 1 then parts[0] else parts[0] + "/" + Join(parts[1..])
  }

  lemma {:induction false} SplitJoins(text: string)
    ensures Join(Split(text)) == text
  {
    if text != [] {
      SplitJoins(text[1..]);
      var rest, parts := Split(text[1..]), Split(text);
      assert parts[1..] == if text[0] == '/' then rest else rest[1..];
      assert text == [text[0]] + text[1..];
    }
  }

  lemma {:induction false} ShowJoins(key: Key)
    ensures Show(key) == Join(ShownParts(key))
  {
    if |key| > 1 {
      ShowJoins(key[1..]);
      assert ShownParts(key)[1..] == ShownParts(key[1..]);
    }
  }

  lemma PartsAreShown(parts: seq<string>, key: Key)
    requires ParseParts(parts) == Some(key)
    ensures |key| == |parts| && |ShownParts(key)| == |parts|
    ensures forall k :: 0 <= k < |parts| ==> (ShownParts(key)[k] == parts[k] <==> IsPlain(parts[k]))
  {
    ParsedPartsAreKeys(parts);
    forall k | 0 <= k < |parts| ensures ShownParts(key)[k] == parts[k] <==> IsPlain(parts[k]) {
      ParsedParts(parts, k);
      ParsedPartIsShown(parts[k]);
    }
  }

  /** An accepted text is the written form of its key if and only if no index in it has a zero in front. */
  lemma AcceptedIsWritten(text: string)
    requires ParseKey(text).Some?
    ensures Show(ParseKey(text).value) == text <==> forall part :: part in Split(text) ==> IsPlain(part)
  {
    var parts, key := Split(text), ParseKey(text).value;
    if text != [] {
      ParsedPartsAreKeys(parts);
      SplitShown(key);
      SplitJoins(text);
      ShowJoins(key);
      PartsAreShown(parts, key);
      if forall part :: part in parts ==> IsPlain(part) {
        assert ShownParts(key) == parts;
      }
    }
  }

  lemma {:induction false} ZeroAddsNothing(digits: string)
    requires forall c :: c in digits ==> IsDigit(c)
    ensures NumberOf("0" + digits) == NumberOf(digits)
  {
    if digits == [] {
      assert "0" + digits == "0" && "0"[..0] == [];
    } else {
      ZeroAddsNothing(digits[..|digits| - 1]);
      assert ("0" + digits)[..|digits|] == "0" + digits[..|digits| - 1];
    }
  }

  function ZeroInFront(node: string, index: nat): string { node + "[" + ("0" + ShowNumber(index)) + "]" }

  lemma ZeroInFrontParses(node: string, index: nat)
    requires IsSegment(Segment(node, Some(index)))
    ensures ParsePart(ZeroInFront(node, index)) == Some(Segment(node, Some(index)))
    ensures '/' !in ZeroInFront(node, index) && ZeroInFront(node, index) != []
  {
    NumberRoundTrips(index);
    ZeroAddsNothing(ShowNumber(index));
    IndexedPart(node, "0" + ShowNumber(index));
  }

  lemma OnePartParses(part: string)
    requires '/' !in part && part != [] && ParsePart(part).Some?
    ensures ParseKey(part) == Some([ParsePart(part).value])
  {
    SplitOne(part);
    OnePartMore([], part);
    assert [] + [part] == [part];
    assert [] + [ParsePart(part).value] == [ParsePart(part).value];
  }

  /** Zeros in front of an index are accepted: two texts can parse to one key. */
  lemma LeadingZeroIsAccepted(node: string, index: nat)
    requires IsSegment(Segment(node, Some(index)))
    ensures ParseKey(ZeroInFront(node, index)) == Some([Segment(node, Some(index))])
    ensures ZeroInFront(node, index) != Show([Segment(node, Some(index))])
  {
    ZeroInFrontParses(node, index);
    OnePartParses(ZeroInFront(node, index));
    assert |ZeroInFront(node, index)| == |ShowSegment(Segment(node, Some(index)))| + 1;
  }

  // ----- keys of items -----

  function Parent(key: Key): Key { if key == [] then [] else key[..|key| - 1] }

  predicate StartsWith(key: Key, prefix: Key) { prefix <= key }

  /** The key of an item of the node the key ends with; the top level has none. */
  function Item(key: Key, index: nat): Option<Key> {
    if key == [] then None
    else
      var last := key[|key| - 1];
      Some((if last.index.None? then key[..|key| - 1] else key) + [Segment(last.node, Some(index))])
  }

  /** The key of an item carries its index last, under the same node, and its written form parses back. */
  lemma ItemRoundTrips(key: Key, index: nat)
    requires IsKey(key) && key != [] && index <= INDEX_MAX
    ensures var item := Item(key, index).value;
            && IsKey(item) && ParseKey(Show(item)) == Some(item)
            && item[|item| - 1] == Segment(key[|key| - 1].node, Some(index))
            && StartsWith(item, Parent(key))
            && Parent(item) == if key[|key| - 1].index.None? then Parent(key) else key
  {
    var item := Item(key, index).value;
    assert key[|key| - 1] in key;
    KeyRoundTrips(item);
  }

  /** Items of one node are told apart by their index, and no item of an item is an item beside it. */
  lemma ItemsStayApart(key: Key, i: nat, j: nat)
    requires key != []
    ensures Item(key, i) == Item(key, j) <==> i == j
    ensures key[|key| - 1].index.None? ==> |Item(Item(key, i).value, j).value| == |key| + 1
  {
    assert Item(key, i).value[|Item(key, i).value| - 1].index == Some(i);
    assert Item(key, j).value[|Item(key, j).value| - 1].index == Some(j);
  }
}
