/**
 The protobuf wire format as `browser-extension/src/meet-protocol.js` reads it: the
 cursor, varints up to 35 bits, and a message as the list of its fields. Encoding follows
 "Base 128 Varints" and "Message Structure" of the Protocol Buffers encoding guide.
 */
module ProtoWire {
  import opened Wrappers

  type Byte = b: int | 0 <= b < 256

  const LIMIT: int := 0x8_0000_0000
  const TAG_LIMIT: int := 0x1_0000_0000

  /** One field on the wire. */
  datatype Item =
    | Varint(field: nat, value: nat)
    | Fixed64(field: nat, payload: seq<Byte>)
    | Bytes(field: nat, payload: seq<Byte>)
    | Fixed32(field: nat, payload: seq<Byte>)

  /** A parse either yields its value or throws on a wire type it does not know. */
  datatype Parsed<+T> = Ok(value: T) | Throws

  // ---- Varints ----

  /** What the k-th group of seven bits contributes. */
  function Weighted(n: nat, k: nat): nat {
    if k == 0 then n
    else if k == 1 then n * 128
    else if k == 2 then n * 16384
    else if k == 3 then n * 2097152
    else if k == 4 then n * 268435456
    else n * 34359738368
  }

  /** The position behind the rest of an overlong varint. */
  function SkipOverlong(bytes: seq<Byte>, pos: nat): (next: nat)
    requires pos <= |bytes|
    ensures pos <= next <= |bytes|
    decreases |bytes| - pos
  {
    if pos == |bytes| then pos
    else if bytes[pos] < 128 then pos + 1
    else SkipOverlong(bytes, pos + 1)
  }

  /** The value and the next position of the varint at `pos`, whose next group is the k-th. */
  function VarintAt(bytes: seq<Byte>, pos: nat, k: nat): (r: (nat, nat))
    requires pos <= |bytes| && k <= 5
    ensures pos <= r.1 <= |bytes|
    ensures pos < |bytes| ==> pos < r.1
    decreases |bytes| - pos
  {
    if pos == |bytes| || k == 5 then (0, SkipOverlong(bytes, pos))
    else
      var b: int := bytes[pos];
      if b < 128 then (Weighted(b, k), pos + 1)
      else
        var (value, next) := VarintAt(bytes, pos + 1, k + 1);
        (Weighted(b - 128, k) + value, next)
  }

  /** One group of seven bits, and the rest. */
  lemma VarintStep(bytes: seq<Byte>, pos: nat, k: nat)
    requires pos < |bytes| && k < 5
    ensures var b: int := bytes[pos];
            VarintAt(bytes, pos, k) ==
            if b < 128 then (Weighted(b % 128, k), pos + 1)
            else (Weighted(b % 128, k) + VarintAt(bytes, pos + 1, k + 1).0, VarintAt(bytes, pos + 1, k + 1).1)
  {
  }

  function Varint35(bytes: seq<Byte>, pos: nat): (r: (nat, nat))
    requires pos <= |bytes|
    ensures pos <= r.1 <= |bytes|
    ensures pos < |bytes| ==> pos < r.1
  {
    VarintAt(bytes, pos, 0)
  }

  function EncodeVarint(n: nat): (bytes: seq<Byte>)
    ensures |bytes| > 0
  {
    if n < 128 then [n] else [128 + n % 128] + EncodeVarint(n / 128)
  }

  /** `piece` stands in `bytes` at `pos`. */
  predicate Stands(bytes: seq<Byte>, pos: nat, piece: seq<Byte>) {
    pos + |piece| <= |bytes| && bytes[pos..pos + |piece|] == piece
  }

  lemma StandsSplit(bytes: seq<Byte>, pos: nat, a: seq<Byte>, b: seq<Byte>)
    requires Stands(bytes, pos, a + b)
    ensures Stands(bytes, pos, a) && Stands(bytes, pos + |a|, b)
  {
    var whole := bytes[pos..pos + |a + b|];
    assert whole[..|a|] == a && whole[|a|..] == b;
    assert bytes[pos..pos + |a|] == whole[..|a|];
    assert bytes[pos + |a|..pos + |a| + |b|] == whole[|a|..];
  }

  lemma {:induction false} VarintRoundTripFrom(bytes: seq<Byte>, pos: nat, n: nat, k: nat)
    requires Stands(bytes, pos, EncodeVarint(n))
    requires k <= 4 && Weighted(n, k) < LIMIT
    ensures VarintAt(bytes, pos, k) == (Weighted(n, k), pos + |EncodeVarint(n)|)
    decreases n
  {
    assert bytes[pos] == bytes[pos..pos + |EncodeVarint(n)|][0];
    if n >= 128 {
      GroupsAddUp(n, k);
      StandsSplit(bytes, pos, [128 + n % 128], EncodeVarint(n / 128));
      VarintRoundTripFrom(bytes, pos + 1, n / 128, k + 1);
    }
  }

  lemma GroupsAddUp(n: nat, k: nat)
    requires k <= 4 && n >= 128 && Weighted(n, k) < LIMIT
    ensures k < 4
    ensures Weighted(n % 128, k) + Weighted(n / 128, k + 1) == Weighted(n, k)
  {
    assert n == 128 * (n / 128) + n % 128;
    if k == 0 {
    } else if k == 1 {
    } else if k == 2 {
    } else if k == 3 {
    } else {
      assert false;
    }
  }

  /** Every number below 2^35 is read back from its encoding, wherever it stands. */
  lemma VarintRoundTrip(bytes: seq<Byte>, pos: nat, n: nat)
    requires Stands(bytes, pos, EncodeVarint(n)) && n < LIMIT
    ensures Varint35(bytes, pos) == (n, pos + |EncodeVarint(n)|)
  {
    VarintRoundTripFrom(bytes, pos, n, 0);
  }

  // ---- Fields ----

  function Min(a: nat, b: nat): nat {
    if a <= b then a else b
  }

  /** The tag is cut to 32 bits before its field number is taken. */
  function FieldOf(tag: nat): nat {
    tag % TAG_LIMIT / 8
  }

  function WireOf(tag: nat): nat {
    tag % 8
  }

  function TagOf(item: Item): nat {
    item.field * 8 + WireType(item)
  }

  /** The item whose tag has been read, and the position behind it. */
  function ItemBody(bytes: seq<Byte>, pos: nat, field: nat, wire: nat): (r: Parsed<(Item, nat)>)
    requires pos <= |bytes|
    ensures r.Ok? ==> pos <= r.value.1 <= |bytes|
  {
    if wire == 0 then
      var (value, next) := Varint35(bytes, pos);
      Ok((Varint(field, value), next))
    else if wire == 1 then Ok((Fixed64(field, bytes[pos..Min(|bytes|, pos + 8)]), Min(|bytes|, pos + 8)))
    else if wire == 2 then
      var (length, at) := Varint35(bytes, pos);
      var end := Min(|bytes|, at + length);
      Ok((Bytes(field, bytes[at..end]), end))
    else if wire == 5 then Ok((Fixed32(field, bytes[pos..Min(|bytes|, pos + 4)]), Min(|bytes|, pos + 4)))
    else Throws
  }

  /** All fields of a message from `pos` on; a zero tag ends it early. */
  function ItemsFrom(bytes: seq<Byte>, pos: nat): Parsed<seq<Item>>
    requires pos <= |bytes|
    decreases |bytes| - pos
  {
    if pos == |bytes| then Ok([])
    else
      var (tag, at) := Varint35(bytes, pos);
      if tag == 0 then Ok([])
      else
        match ItemBody(bytes, at, FieldOf(tag), WireOf(tag))
        case Throws => Throws
        case Ok((item, next)) =>
          match ItemsFrom(bytes, next)
          case Throws => Throws
          case Ok(items) => Ok([item] + items)
  }

  function Items(bytes: seq<Byte>): Parsed<seq<Item>> {
    ItemsFrom(bytes, 0)
  }

  // ---- Encoding ----

  predicate ValidItem(item: Item) {
    && 0 < item.field && item.field * 8 + 7 < TAG_LIMIT
    && (item.Varint? ==> item.value < LIMIT)
    && (item.Bytes? ==> |item.payload| < LIMIT)
    && (item.Fixed64? ==> |item.payload| == 8)
    && (item.Fixed32? ==> |item.payload| == 4)
  }

  function WireType(item: Item): nat {
    match item
    case Varint(_, _) => 0
    case Fixed64(_, _) => 1
    case Bytes(_, _) => 2
    case Fixed32(_, _) => 5
  }

  function EncodeBody(item: Item): seq<Byte> {
    match item
    case Varint(_, value) => EncodeVarint(value)
    case Fixed64(_, payload) => payload
    case Bytes(_, payload) => EncodeVarint(|payload|) + payload
    case Fixed32(_, payload) => payload
  }

  function EncodeItem(item: Item): seq<Byte> {
    EncodeVarint(TagOf(item)) + EncodeBody(item)
  }

  function EncodeItems(items: seq<Item>): seq<Byte> {
    if items == [] then [] else EncodeItem(items[0]) + EncodeItems(items[1..])
  }

  predicate ValidItems(items: seq<Item>) {
    forall i | 0 <= i < |items| :: ValidItem(items[i])
  }

  lemma PayloadRoundTrip(bytes: seq<Byte>, pos: nat, field: nat, payload: seq<Byte>)
    requires Stands(bytes, pos, EncodeVarint(|payload|) + payload) && |payload| < LIMIT
    ensures ItemBody(bytes, pos, field, 2) ==
            Ok((Bytes(field, payload), pos + |EncodeVarint(|payload|) + payload|))
  {
    var at := pos + |EncodeVarint(|payload|)|;
    StandsSplit(bytes, pos, EncodeVarint(|payload|), payload);
    VarintRoundTrip(bytes, pos, |payload|);
    CutAtLength(bytes, pos, field, |payload|, at);
    assert bytes[at..at + |payload|] == payload;
  }

  /** A payload that is all there is not cut. */
  lemma CutAtLength(bytes: seq<Byte>, pos: nat, field: nat, length: nat, at: nat)
    requires pos <= |bytes| && Varint35(bytes, pos) == (length, at) && at + length <= |bytes|
    ensures ItemBody(bytes, pos, field, 2) == Ok((Bytes(field, bytes[at..at + length]), at + length))
  {
  }

  lemma BodyRoundTrip(bytes: seq<Byte>, pos: nat, item: Item)
    requires Stands(bytes, pos, EncodeBody(item)) && ValidItem(item)
    ensures ItemBody(bytes, pos, item.field, WireType(item)) == Ok((item, pos + |EncodeBody(item)|))
  {
    match item
    case Varint(_, value) => VarintRoundTrip(bytes, pos, value);
    case Bytes(field, payload) => PayloadRoundTrip(bytes, pos, field, payload);
    case _ =>
  }

  lemma TagParts(item: Item)
    requires ValidItem(item)
    ensures 0 < TagOf(item) < LIMIT
    ensures FieldOf(TagOf(item)) == item.field && WireOf(TagOf(item)) == WireType(item)
  {
  }

  lemma TagRoundTrip(bytes: seq<Byte>, pos: nat, item: Item)
    requires Stands(bytes, pos, EncodeVarint(TagOf(item))) && ValidItem(item)
    ensures Varint35(bytes, pos) == (TagOf(item), pos + |EncodeVarint(TagOf(item))|)
  {
    TagParts(item);
    VarintRoundTrip(bytes, pos, TagOf(item));
  }

  /** The item at a position is read, and reading goes on behind it. */
  lemma ItemRoundTrip(bytes: seq<Byte>, pos: nat, item: Item)
    requires Stands(bytes, pos, EncodeItem(item)) && ValidItem(item)
    ensures pos < |bytes| && pos + |EncodeItem(item)| <= |bytes|
    ensures var later := ItemsFrom(bytes, pos + |EncodeItem(item)|);
            ItemsFrom(bytes, pos) == if later.Ok? then Ok([item] + later.value) else Throws
  {
    var at := pos + |EncodeVarint(TagOf(item))|;
    StandsSplit(bytes, pos, EncodeVarint(TagOf(item)), EncodeBody(item));
    TagParts(item);
    TagRoundTrip(bytes, pos, item);
    BodyRoundTrip(bytes, at, item);
    ItemsFromTag(bytes, pos, TagOf(item), at, item, at + |EncodeBody(item)|);
  }

  lemma ItemsFromTag(bytes: seq<Byte>, pos: nat, tag: nat, at: nat, item: Item, next: nat)
    requires pos < |bytes| && Varint35(bytes, pos) == (tag, at) && tag != 0
    requires ItemBody(bytes, at, FieldOf(tag), WireOf(tag)) == Ok((item, next))
    ensures var later := ItemsFrom(bytes, next);
            ItemsFrom(bytes, pos) == if later.Ok? then Ok([item] + later.value) else Throws
  {
  }

  predicate ReadsFrom(bytes: seq<Byte>, pos: nat, items: seq<Item>)
    requires pos <= |bytes|
  {
    ItemsFrom(bytes, pos) == Ok(items)
  }

  /** A message is read back if it is behind its first item. */
  lemma ItemsStep(bytes: seq<Byte>, pos: nat, head: Item, tail: seq<Item>, next: nat)
    requires ValidItem(head) && Stands(bytes, pos, EncodeItem(head)) && next == pos + |EncodeItem(head)|
    requires ReadsFrom(bytes, next, tail)
    ensures ReadsFrom(bytes, pos, [head] + tail)
  {
    ItemRoundTrip(bytes, pos, head);
  }

  lemma StandsBehind(before: seq<Byte>, a: seq<Byte>, b: seq<Byte>)
    ensures before + (a + b) == before + a + b
    ensures Stands(before + (a + b), |before|, a)
  {
  }

  /** Items behind anything are read back. */
  lemma {:induction false} ItemsRoundTripAfter(before: seq<Byte>, items: seq<Item>, whole: seq<Byte>, pos: nat)
    requires ValidItems(items) && whole == before + EncodeItems(items) && pos == |before|
    ensures ReadsFrom(whole, pos, items)
    decreases |items|
  {
    if items != [] {
      var head, tail := items[0], items[1..];
      var first := EncodeItem(head);
      StandsBehind(before, first, EncodeItems(tail));
      var next := pos + |first|;
      ItemsRoundTripAfter(before + first, tail, whole, next);
      ItemsStep(whole, pos, head, tail, next);
      assert items == [head] + tail;
    }
  }

  /** Every list of fields is read back exactly from its encoding, in order. */
  lemma ItemsRoundTrip(items: seq<Item>)
    requires ValidItems(items)
    ensures Items(EncodeItems(items)) == Ok(items)
  {
    ReadsWhole(EncodeItems(items), items);
  }

  lemma ReadsWhole(whole: seq<Byte>, items: seq<Item>)
    requires ValidItems(items) && whole == EncodeItems(items)
    ensures Items(whole) == Ok(items)
  {
    assert [] + whole == whole;
    ItemsRoundTripAfter([], items, whole, 0);
    assert ReadsFrom(whole, 0, items);
  }
}
