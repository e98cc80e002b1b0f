/**
 What the reader of `browser-extension/src/meet-protocol.js` makes of bytes that are no
 plain encoding: overlong numbers, and messages that end early, are cut off, or hold a
 field of a type it does not know.
 */
module ProtoEndings {
  import opened Wrappers
  import opened ProtoWire

  // ---- Numbers of any length ----

  /** The value of groups of seven bits, the lowest first. */
  function Groups(w: seq<Byte>): nat {
    if w == [] then 0 else w[0] % 128 + 128 * Groups(w[1..])
  }

  function Shortened(w: seq<Byte>, n: nat): seq<Byte> {
    if |w| > n then w[..n] else w
  }

  /** A number: every byte but the last says that it goes on, and the last that it ends, or the message does. */
  predicate IsNumber(bytes: seq<Byte>, pos: nat, w: seq<Byte>) {
    && w != [] && Stands(bytes, pos, w)
    && (forall i | 0 <= i < |w| - 1 :: w[i] >= 128)
    && (w[|w| - 1] < 128 || pos + |w| == |bytes|)
  }

  /** What is left of a number whose message may end with it. */
  predicate Tail(bytes: seq<Byte>, pos: nat, w: seq<Byte>) {
    (w == [] && pos == |bytes|) || IsNumber(bytes, pos, w)
  }

  lemma TailStep(bytes: seq<Byte>, pos: nat, w: seq<Byte>)
    requires IsNumber(bytes, pos, w)
    ensures bytes[pos] == w[0]
    ensures w[0] < 128 ==> |w| == 1
    ensures w[0] >= 128 ==> Tail(bytes, pos + 1, w[1..])
  {
    assert w == bytes[pos..pos + |w|];
    assert bytes[pos] == bytes[pos..pos + |w|][0];
    if w[0] >= 128 && |w| > 1 {
      assert w == [w[0]] + w[1..];
      StandsSplit(bytes, pos, [w[0]], w[1..]);
    }
  }

  lemma {:induction false} SkipsTail(bytes: seq<Byte>, pos: nat, w: seq<Byte>)
    requires Tail(bytes, pos, w)
    ensures SkipOverlong(bytes, pos) == pos + |w|
    decreases |w|
  {
    if w != [] {
      TailStep(bytes, pos, w);
      if w[0] >= 128 {
        SkipsTail(bytes, pos + 1, w[1..]);
      }
    }
  }

  lemma GroupsStep(w: seq<Byte>, k: nat)
    requires w != [] && k < 5
    ensures Weighted(Groups(Shortened(w, 5 - k)), k) ==
            Weighted(w[0] % 128, k) + Weighted(Groups(Shortened(w[1..], 4 - k)), k + 1)
  {
    assert Shortened(w, 5 - k)[1..] == Shortened(w[1..], 4 - k);
  }

  predicate ReadsGroups(bytes: seq<Byte>, pos: nat, w: seq<Byte>, k: nat)
    requires pos <= |bytes| && k <= 5
  {
    VarintAt(bytes, pos, k) == (Weighted(Groups(Shortened(w, 5 - k)), k), pos + |w|)
  }

  lemma NoGroup(bytes: seq<Byte>, pos: nat, w: seq<Byte>, k: nat)
    requires pos <= |bytes| && Tail(bytes, pos, w) && k <= 5 && (w == [] || k == 5)
    ensures ReadsGroups(bytes, pos, w, k)
  {
    SkipsTail(bytes, pos, w);
    assert Shortened(w, 5 - k) == [];
  }

  lemma OneGroup(bytes: seq<Byte>, pos: nat, w: seq<Byte>, k: nat)
    requires w != [] && pos < |bytes| && bytes[pos] == w[0] && k < 5
    requires if w[0] < 128 then |w| == 1 else ReadsGroups(bytes, pos + 1, w[1..], k + 1)
    ensures ReadsGroups(bytes, pos, w, k)
  {
    VarintStep(bytes, pos, k);
    GroupsStep(w, k);
    if w[0] < 128 {
      assert Shortened(w[1..], 4 - k) == [];
    }
  }

  lemma {:induction false} GroupsRead(bytes: seq<Byte>, pos: nat, w: seq<Byte>, k: nat)
    requires pos <= |bytes| && Tail(bytes, pos, w) && k <= 5
    ensures ReadsGroups(bytes, pos, w, k)
    decreases |w|
  {
    if w == [] || k == 5 {
      NoGroup(bytes, pos, w, k);
    } else {
      TailStep(bytes, pos, w);
      if w[0] >= 128 {
        GroupsRead(bytes, pos + 1, w[1..], k + 1);
      }
      OneGroup(bytes, pos, w, k);
    }
  }

  /**
   Any number, however long and even cut off, is read as its first five groups, and reading
   goes on behind all of it.
   */
  lemma NumberReads(bytes: seq<Byte>, pos: nat, w: seq<Byte>)
    requires IsNumber(bytes, pos, w)
    ensures Varint35(bytes, pos) == (Groups(Shortened(w, 5)), pos + |w|)
  {
    GroupsRead(bytes, pos, w, 0);
  }

  // ---- How a message may end ----

  /** Behind its last whole field a message may stop at a zero tag, hold an unknown type, or be cut off in a field. */
  datatype Ending =
    | Stops(rest: seq<Byte>)
    | Unknown(tag: nat, rest: seq<Byte>)
    | CutVarint(field: nat, groups: seq<Byte>)
    | CutFixed64(field: nat, part: seq<Byte>)
    | CutBytes(field: nat, length: nat, part: seq<Byte>)
    | CutFixed32(field: nat, part: seq<Byte>)

  predicate ValidField(field: nat) {
    0 < field && field * 8 + 7 < TAG_LIMIT
  }

  predicate ValidEnding(e: Ending) {
    match e
    case Stops(_) => true
    case Unknown(tag, _) => tag < LIMIT && tag % 8 in {3, 4, 6, 7}
    case CutVarint(field, groups) => ValidField(field) && forall i | 0 <= i < |groups| :: groups[i] >= 128
    case CutFixed64(field, part) => ValidField(field) && |part| < 8
    case CutBytes(field, length, part) => ValidField(field) && |part| < length < LIMIT
    case CutFixed32(field, part) => ValidField(field) && |part| < 4
  }

  function EndingTag(e: Ending): nat {
    match e
    case Stops(_) => 0
    case Unknown(tag, _) => tag
    case CutVarint(field, _) => field * 8
    case CutFixed64(field, _) => field * 8 + 1
    case CutBytes(field, _, _) => field * 8 + 2
    case CutFixed32(field, _) => field * 8 + 5
  }

  function EndingBody(e: Ending): seq<Byte> {
    match e
    case Stops(rest) => rest
    case Unknown(_, rest) => rest
    case CutVarint(_, groups) => groups
    case CutFixed64(_, part) => part
    case CutBytes(_, length, part) => EncodeVarint(length) + part
    case CutFixed32(_, part) => part
  }

  /** A zero tag ends the message, an unknown type throws, and a field that is cut off is what there is of it. */
  function EndingItems(e: Ending): Parsed<seq<Item>> {
    match e
    case Stops(_) => Ok([])
    case Unknown(_, _) => Throws
    case CutVarint(field, groups) => Ok([Varint(field, Groups(Shortened(groups, 5)))])
    case CutFixed64(field, part) => Ok([Fixed64(field, part)])
    case CutBytes(field, _, part) => Ok([Bytes(field, part)])
    case CutFixed32(field, part) => Ok([Fixed32(field, part)])
  }

  function Behind(items: seq<Item>, later: Parsed<seq<Item>>): Parsed<seq<Item>> {
    match later
    case Throws => Throws
    case Ok(more) => Ok(items + more)
  }

  /** From `pos` on these items are read, and then whatever stands at `end`. */
  predicate ReadsUpTo(bytes: seq<Byte>, pos: nat, items: seq<Item>, end: nat)
    requires pos <= end <= |bytes|
  {
    ItemsFrom(bytes, pos) == Behind(items, ItemsFrom(bytes, end))
  }

  lemma Regroup(before: seq<Byte>, first: seq<Byte>, tail: seq<Byte>, rest: seq<Byte>)
    ensures before + (first + tail + rest) == before + first + (tail + rest)
    ensures Stands(before + (first + tail + rest), |before|, first)
  {
    assert first + tail + rest == first + (tail + rest);
    StandsBehind(before, first, tail + rest);
  }

  lemma {:induction false} ItemsThen(before: seq<Byte>, items: seq<Item>, rest: seq<Byte>, whole: seq<Byte>, pos: nat,
                                     end: nat)
    requires ValidItems(items) && whole == before + (EncodeItems(items) + rest) && pos == |before|
    requires end == pos + |EncodeItems(items)|
    ensures ReadsUpTo(whole, pos, items, end)
    decreases |items|
  {
    if items == [] {
      Unchanged(ItemsFrom(whole, pos));
    } else {
      var head, tail := items[0], items[1..];
      var first := EncodeItem(head);
      assert EncodeItems(items) == first + EncodeItems(tail);
      Regroup(before, first, EncodeItems(tail), rest);
      var next := pos + |first|;
      ItemsThen(before + first, tail, rest, whole, next, end);
      HeadThen(whole, pos, head, tail, next, end);
      assert items == [head] + tail;
    }
  }

  lemma HeadThen(whole: seq<Byte>, pos: nat, head: Item, tail: seq<Item>, next: nat, end: nat)
    requires ValidItem(head) && Stands(whole, pos, EncodeItem(head)) && next == pos + |EncodeItem(head)|
    requires next <= end <= |whole| && ReadsUpTo(whole, next, tail, end)
    ensures ReadsUpTo(whole, pos, [head] + tail, end)
  {
    ItemRoundTrip(whole, pos, head);
    BehindBoth(head, tail, ItemsFrom(whole, end));
  }

  lemma Unchanged(later: Parsed<seq<Item>>)
    ensures Behind([], later) == later
  {
    if later.Ok? {
      assert [] + later.value == later.value;
    }
  }

  lemma BehindBoth(head: Item, tail: seq<Item>, later: Parsed<seq<Item>>)
    ensures Behind([head], Behind(tail, later)) == Behind([head] + tail, later)
  {
    if later.Ok? {
      assert [head] + (tail + later.value) == [head] + tail + later.value;
    }
  }

  lemma CutNumberReads(bytes: seq<Byte>, pos: nat, groups: seq<Byte>)
    requires pos <= |bytes| && bytes[pos..] == groups && forall i | 0 <= i < |groups| :: groups[i] >= 128
    ensures Varint35(bytes, pos) == (Groups(Shortened(groups, 5)), |bytes|)
  {
    if groups != [] {
      assert bytes[pos..pos + |groups|] == groups;
      NumberReads(bytes, pos, groups);
    }
  }

  lemma CutFixedReads(bytes: seq<Byte>, at: nat, field: nat)
    requires at <= |bytes|
    ensures |bytes| - at < 8 ==> ItemBody(bytes, at, field, 1) == Ok((Fixed64(field, bytes[at..]), |bytes|))
    ensures |bytes| - at < 4 ==> ItemBody(bytes, at, field, 5) == Ok((Fixed32(field, bytes[at..]), |bytes|))
  {
    assert bytes[at..|bytes|] == bytes[at..];
  }

  lemma CutBytesRead(bytes: seq<Byte>, at: nat, field: nat, length: nat, part: seq<Byte>)
    requires at <= |bytes| && bytes[at..] == EncodeVarint(length) + part && |part| < length < LIMIT
    ensures ItemBody(bytes, at, field, 2) == Ok((Bytes(field, part), |bytes|))
  {
    var next := at + |EncodeVarint(length)|;
    assert bytes[at..at + |EncodeVarint(length) + part|] == bytes[at..];
    StandsSplit(bytes, at, EncodeVarint(length), part);
    VarintRoundTrip(bytes, at, length);
    assert bytes[next..|bytes|] == part;
  }

  lemma TagIsField(field: nat, wire: nat)
    requires ValidField(field) && wire < 8
    ensures FieldOf(field * 8 + wire) == field && WireOf(field * 8 + wire) == wire
  {
  }

  /** The body of an ending, read behind its tag. */
  lemma BodyEnds(bytes: seq<Byte>, at: nat, e: Ending)
    requires ValidEnding(e) && !e.Stops? && at <= |bytes| && bytes[at..] == EndingBody(e)
    ensures var body := ItemBody(bytes, at, FieldOf(EndingTag(e)), WireOf(EndingTag(e)));
            if e.Unknown? then body == Throws
            else body.Ok? && body.value.1 == |bytes| && EndingItems(e) == Ok([body.value.0])
  {
    match e
    case Unknown(_, _) =>
    case CutVarint(field, groups) =>
      TagIsField(field, 0);
      CutNumberReads(bytes, at, groups);
    case CutFixed64(field, _) =>
      TagIsField(field, 1);
      CutFixedReads(bytes, at, field);
    case CutBytes(field, length, part) =>
      TagIsField(field, 2);
      CutBytesRead(bytes, at, field, length, part);
    case CutFixed32(field, _) =>
      TagIsField(field, 5);
      CutFixedReads(bytes, at, field);
  }

  lemma TagEnds(bytes: seq<Byte>, pos: nat, tag: nat, at: nat)
    requires pos < |bytes| && Varint35(bytes, pos) == (tag, at)
    ensures tag == 0 ==> ItemsFrom(bytes, pos) == Ok([])
    ensures tag != 0 && ItemBody(bytes, at, FieldOf(tag), WireOf(tag)) == Throws ==> ItemsFrom(bytes, pos) == Throws
  {
  }

  lemma EndingReads(before: seq<Byte>, e: Ending, whole: seq<Byte>)
    requires ValidEnding(e) && whole == before + (EncodeVarint(EndingTag(e)) + EndingBody(e))
    ensures ItemsFrom(whole, |before|) == EndingItems(e)
  {
    var tag := EncodeVarint(EndingTag(e));
    StandsBehind(before, tag, EndingBody(e));
    VarintRoundTrip(whole, |before|, EndingTag(e));
    assert whole[|before| + |tag|..] == EndingBody(e);
    TailReads(whole, |before|, |before| + |tag|, e);
  }

  lemma TailReads(whole: seq<Byte>, pos: nat, at: nat, e: Ending)
    requires ValidEnding(e) && pos < |whole| && Varint35(whole, pos) == (EndingTag(e), at) && whole[at..] == EndingBody(e)
    ensures ItemsFrom(whole, pos) == EndingItems(e)
  {
    TagEnds(whole, pos, EndingTag(e), at);
    if !e.Stops? {
      BodyEnds(whole, at, e);
      if !e.Unknown? {
        var item := ItemBody(whole, at, FieldOf(EndingTag(e)), WireOf(EndingTag(e))).value.0;
        ItemsFromTag(whole, pos, EndingTag(e), at, item, |whole|);
        assert [item] + [] == [item];
      }
    }
  }

  /** Behind whole fields, which are always read, a message ends in exactly these ways. */
  lemma EndingsRead(items: seq<Item>, e: Ending)
    requires ValidItems(items) && ValidEnding(e)
    ensures Items(EncodeItems(items) + (EncodeVarint(EndingTag(e)) + EndingBody(e))) == Behind(items, EndingItems(e))
  {
    var ending := EncodeVarint(EndingTag(e)) + EndingBody(e);
    var whole := EncodeItems(items) + ending;
    assert [] + whole == whole;
    EndingReads(EncodeItems(items), e, whole);
    ItemsThen([], items, ending, whole, 0, |EncodeItems(items)|);
    assert ReadsUpTo(whole, 0, items, |EncodeItems(items)|);
  }
}
