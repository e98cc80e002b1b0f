/**
 Encoding users, device outputs and whole collections, and decoding them again. The known
 fields stand in any order among fields the decoders do not know, a field at its default
 may be left out, and of a repeated field the last occurrence counts.
 */
module MeetProtocolRoundTrip {
  import opened Wrappers
  import opened ProtoWire
  import opened MeetProtocol

  // ---- The value a message gives a field ----

  predicate IsBytes(item: Item, field: nat) {
    item.Bytes? && item.field == field
  }

  predicate IsVarint(item: Item, field: nat) {
    item.Varint? && item.field == field
  }

  /** The last occurrence of the field is `value`, or there is none and `value` is empty. */
  predicate HoldsBytes(items: seq<Item>, field: nat, value: seq<Byte>) {
    || (value == [] && forall m | 0 <= m < |items| :: !IsBytes(items[m], field))
    || (exists k | 0 <= k < |items| && items[k] == Bytes(field, value) ::
          forall m | k < m < |items| :: !IsBytes(items[m], field))
  }

  predicate HoldsVarint(items: seq<Item>, field: nat, value: nat) {
    || (value == 0 && forall m | 0 <= m < |items| :: !IsVarint(items[m], field))
    || (exists k | 0 <= k < |items| && items[k] == Varint(field, value) ::
          forall m | k < m < |items| :: !IsVarint(items[m], field))
  }

  lemma {:induction false} HoldsBytesExactly(items: seq<Item>, field: nat, value: seq<Byte>)
    ensures HoldsBytes(items, field, value) <==> LastBytes(items, field).GetOr([]) == value
    decreases |items|
  {
    if items != [] {
      var front, n := items[..|items| - 1], |items| - 1;
      HoldsBytesExactly(front, field, value);
      if IsBytes(items[n], field) {
        if k :| 0 <= k < |items| && items[k] == Bytes(field, value) && forall m | k < m < |items| :: !IsBytes(items[m], field) {
          assert k == n;
        }
      } else {
        BytesBehind(items, field, value);
      }
    }
  }

  /** An item of another kind or field behind a message changes nothing. */
  lemma BytesBehind(items: seq<Item>, field: nat, value: seq<Byte>)
    requires items != [] && !IsBytes(items[|items| - 1], field)
    ensures HoldsBytes(items, field, value) <==> HoldsBytes(items[..|items| - 1], field, value)
  {
    var front, n := items[..|items| - 1], |items| - 1;
    assert forall m | 0 <= m < n :: front[m] == items[m];
    if k :| 0 <= k < n && front[k] == Bytes(field, value) && forall m | k < m < n :: !IsBytes(front[m], field) {
      assert items[k] == Bytes(field, value);
    }
    if k :| 0 <= k < |items| && items[k] == Bytes(field, value) && forall m | k < m < |items| :: !IsBytes(items[m], field) {
      assert front[k] == Bytes(field, value);
    }
  }

  lemma {:induction false} HoldsVarintExactly(items: seq<Item>, field: nat, value: nat)
    ensures HoldsVarint(items, field, value) <==> LastVarint(items, field).GetOr(0) == value
    decreases |items|
  {
    if items != [] {
      var front, n := items[..|items| - 1], |items| - 1;
      HoldsVarintExactly(front, field, value);
      if IsVarint(items[n], field) {
        if k :| 0 <= k < |items| && items[k] == Varint(field, value) && forall m | k < m < |items| :: !IsVarint(items[m], field) {
          assert k == n;
        }
      } else {
        VarintBehind(items, field, value);
      }
    }
  }

  lemma VarintBehind(items: seq<Item>, field: nat, value: nat)
    requires items != [] && !IsVarint(items[|items| - 1], field)
    ensures HoldsVarint(items, field, value) <==> HoldsVarint(items[..|items| - 1], field, value)
  {
    var front, n := items[..|items| - 1], |items| - 1;
    assert forall m | 0 <= m < n :: front[m] == items[m];
    if k :| 0 <= k < n && front[k] == Varint(field, value) && forall m | k < m < n :: !IsVarint(front[m], field) {
      assert items[k] == Varint(field, value);
    }
    if k :| 0 <= k < |items| && items[k] == Varint(field, value) && forall m | k < m < |items| :: !IsVarint(items[m], field) {
      assert front[k] == Varint(field, value);
    }
  }

  // ---- Users ----

  /** No empty text where `null` is meant. */
  predicate Proper(u: User) {
    u.profilePicture != Some([]) && u.parentDeviceId != Some([])
  }

  /** A user as the decoder can hold one. */
  predicate WellFormedUser(u: User) {
    u.deviceId != [] && Proper(u)
  }

  /** The texts, the status and the two flags of the user, as the fields of a message. */
  predicate HoldsUser(items: seq<Item>, u: User) {
    && HoldsBytes(items, 1, u.deviceId) && HoldsBytes(items, 2, u.fullName) && HoldsBytes(items, 29, u.displayName)
    && HoldsBytes(items, 3, u.profilePicture.GetOr([])) && HoldsBytes(items, 21, u.parentDeviceId.GetOr([]))
    && HoldsVarint(items, 4, u.status)
    && (u.isCurrentUser <==> !HoldsBytes(items, 7, []))
    && (u.isHost <==> !HoldsVarint(items, 34, 0))
  }

  /** Fields decode to a user exactly if they hold that user. */
  lemma UserDecodesExactly(items: seq<Item>, u: User)
    requires ValidItems(items)
    ensures UserIn(EncodeItems(items)) == Ok(Some(u)) <==> HoldsUser(items, u) && WellFormedUser(u)
  {
    ItemsRoundTrip(items);
    HoldsBytesExactly(items, 1, u.deviceId);
    HoldsBytesExactly(items, 2, u.fullName);
    HoldsBytesExactly(items, 29, u.displayName);
    HoldsBytesExactly(items, 3, u.profilePicture.GetOr([]));
    HoldsBytesExactly(items, 21, u.parentDeviceId.GetOr([]));
    HoldsBytesExactly(items, 7, []);
    HoldsVarintExactly(items, 4, u.status);
    HoldsVarintExactly(items, 34, 0);
  }

  ghost predicate EncodesUser(bytes: seq<Byte>, u: User) {
    exists items :: ValidItems(items) && bytes == EncodeItems(items) && HoldsUser(items, u)
  }

  /** Fields that can be read decode to nobody exactly if they hold no id. */
  lemma NobodyDecodesExactly(items: seq<Item>)
    requires ValidItems(items)
    ensures UserIn(EncodeItems(items)) == Ok(None) <==> HoldsBytes(items, 1, [])
  {
    ItemsRoundTrip(items);
    HoldsBytesExactly(items, 1, []);
  }

  /** Decoding an encoded user gives the user back, or nobody if it has no id. */
  lemma UserRoundTrip(bytes: seq<Byte>, u: User)
    requires EncodesUser(bytes, u) && Proper(u)
    ensures UserIn(bytes) == Ok(if u.deviceId != [] then Some(u) else None)
  {
    var items :| ValidItems(items) && bytes == EncodeItems(items) && HoldsUser(items, u);
    UserDecodesExactly(items, u);
    NobodyDecodesExactly(items);
  }

  // ---- Every way of writing a user down ----

  predicate KnownToUser(item: Item) {
    || (item.Bytes? && item.field in {1, 2, 3, 7, 21, 29})
    || (item.Varint? && item.field in {4, 34})
  }

  function UserFields(u: User): seq<Item> {
    [Bytes(1, u.deviceId), Bytes(2, u.fullName), Bytes(3, u.profilePicture.GetOr([])), Varint(4, u.status),
     Bytes(7, if u.isCurrentUser then [1] else []), Bytes(21, u.parentDeviceId.GetOr([])),
     Bytes(29, u.displayName), Varint(34, if u.isHost then 1 else 0)]
  }

  predicate IsDefault(item: Item) {
    (item.Bytes? && item.payload == []) || (item.Varint? && item.value == 0)
  }

  /** Every field of the user that is not at its default is there, and no known field says otherwise. */
  predicate Writes(items: seq<Item>, fields: seq<Item>, known: Item -> bool) {
    && (forall i | 0 <= i < |items| && known(items[i]) :: items[i] in fields)
    && (forall f | f in fields && !IsDefault(f) :: f in items)
  }

  lemma {:induction false} AllBytesAgree(items: seq<Item>, field: nat, value: seq<Byte>)
    requires forall i | 0 <= i < |items| && IsBytes(items[i], field) :: items[i].payload == value
    ensures (exists i | 0 <= i < |items| :: IsBytes(items[i], field)) ==> LastBytes(items, field) == Some(value)
    ensures (forall i | 0 <= i < |items| :: !IsBytes(items[i], field)) ==> LastBytes(items, field) == None
    decreases |items|
  {
    if items != [] {
      AllBytesAgree(items[..|items| - 1], field, value);
    }
  }

  lemma {:induction false} AllVarintsAgree(items: seq<Item>, field: nat, value: nat)
    requires forall i | 0 <= i < |items| && IsVarint(items[i], field) :: items[i].value == value
    ensures (exists i | 0 <= i < |items| :: IsVarint(items[i], field)) ==> LastVarint(items, field) == Some(value)
    ensures (forall i | 0 <= i < |items| :: !IsVarint(items[i], field)) ==> LastVarint(items, field) == None
    decreases |items|
  {
    if items != [] {
      AllVarintsAgree(items[..|items| - 1], field, value);
    }
  }

  /** The message agrees with the one field of its kind and number. */
  lemma WrittenBytes(items: seq<Item>, fields: seq<Item>, known: Item -> bool, field: nat, value: seq<Byte>)
    requires Writes(items, fields, known) && Bytes(field, value) in fields
    requires forall f | f in fields && IsBytes(f, field) :: f.payload == value
    requires forall item: Item | IsBytes(item, field) :: known(item)
    ensures HoldsBytes(items, field, value)
  {
    AllBytesAgree(items, field, value);
    HoldsBytesExactly(items, field, value);
    if value != [] {
      assert !IsDefault(Bytes(field, value));
      var i :| 0 <= i < |items| && items[i] == Bytes(field, value);
      assert IsBytes(items[i], field);
    }
  }

  lemma WrittenVarint(items: seq<Item>, fields: seq<Item>, known: Item -> bool, field: nat, value: nat)
    requires Writes(items, fields, known) && Varint(field, value) in fields
    requires forall f | f in fields && IsVarint(f, field) :: f.value == value
    requires forall item: Item | IsVarint(item, field) :: known(item)
    ensures HoldsVarint(items, field, value)
  {
    AllVarintsAgree(items, field, value);
    HoldsVarintExactly(items, field, value);
    if value != 0 {
      assert !IsDefault(Varint(field, value));
      var i :| 0 <= i < |items| && items[i] == Varint(field, value);
      assert IsVarint(items[i], field);
    }
  }

  lemma NamesWritten(items: seq<Item>, u: User)
    requires Writes(items, UserFields(u), KnownToUser)
    ensures HoldsBytes(items, 1, u.deviceId) && HoldsBytes(items, 2, u.fullName) && HoldsBytes(items, 29, u.displayName)
  {
    var fields := UserFields(u);
    assert fields[0] in fields && fields[1] in fields && fields[6] in fields;
    WrittenBytes(items, fields, KnownToUser, 1, u.deviceId);
    WrittenBytes(items, fields, KnownToUser, 2, u.fullName);
    WrittenBytes(items, fields, KnownToUser, 29, u.displayName);
  }

  lemma LinksWritten(items: seq<Item>, u: User, picture: seq<Byte>, parent: seq<Byte>)
    requires Writes(items, UserFields(u), KnownToUser)
    requires picture == u.profilePicture.GetOr([]) && parent == u.parentDeviceId.GetOr([])
    ensures HoldsBytes(items, 3, picture) && HoldsBytes(items, 21, parent) && HoldsVarint(items, 4, u.status)
  {
    var fields := UserFields(u);
    assert fields[2] in fields && fields[3] in fields && fields[5] in fields;
    WrittenBytes(items, fields, KnownToUser, 3, picture);
    WrittenBytes(items, fields, KnownToUser, 21, parent);
    WrittenVarint(items, fields, KnownToUser, 4, u.status);
  }

  lemma FlagsWritten(items: seq<Item>, u: User)
    requires Writes(items, UserFields(u), KnownToUser)
    ensures u.isCurrentUser <==> !HoldsBytes(items, 7, [])
    ensures u.isHost <==> !HoldsVarint(items, 34, 0)
  {
    var fields, self, host := UserFields(u), if u.isCurrentUser then [1] else [], if u.isHost then 1 else 0;
    assert fields[4] in fields && fields[7] in fields;
    WrittenBytes(items, fields, KnownToUser, 7, self);
    WrittenVarint(items, fields, KnownToUser, 34, host);
    HoldsBytesExactly(items, 7, self);
    HoldsBytesExactly(items, 7, []);
    HoldsVarintExactly(items, 34, host);
    HoldsVarintExactly(items, 34, 0);
  }

  /** In whatever order a user is written down, with or without its defaults, it is encoded. */
  lemma AnyOrderEncodesUser(items: seq<Item>, u: User)
    requires ValidItems(items) && Writes(items, UserFields(u), KnownToUser)
    ensures EncodesUser(EncodeItems(items), u)
  {
    NamesWritten(items, u);
    LinksWritten(items, u, u.profilePicture.GetOr([]), u.parentDeviceId.GetOr([]));
    FlagsWritten(items, u);
    assert HoldsUser(items, u);
  }

  /** In particular with every field in the order of its number. */
  lemma PlainUserEncoding(u: User)
    requires ValidItems(UserFields(u))
    ensures EncodesUser(EncodeItems(UserFields(u)), u)
  {
    AnyOrderEncodesUser(UserFields(u), u);
  }

  // ---- Device outputs ----

  /** The flag a status message sets, if it sets one. */
  predicate HoldsFlag(items: seq<Item>, flag: Option<bool>) {
    match flag
    case None => forall m | 0 <= m < |items| :: !IsVarint(items[m], 1)
    case Some(on) =>
      exists k | 0 <= k < |items| && IsVarint(items[k], 1) && (on <==> items[k].value != 0) ::
        forall m | k < m < |items| :: !IsVarint(items[m], 1)
  }

  ghost predicate EncodesStatus(bytes: seq<Byte>, flag: Option<bool>) {
    exists items :: ValidItems(items) && bytes == EncodeItems(items) && HoldsFlag(items, flag)
  }

  /** The last flag that was set counts; without any, the output is not disabled. */
  predicate LastFlag(flags: seq<Option<bool>>, disabled: bool) {
    || (!disabled && forall m | 0 <= m < |flags| :: flags[m] == None)
    || (exists k | 0 <= k < |flags| && flags[k] == Some(disabled) :: forall m | k < m < |flags| :: flags[m] == None)
  }

  /** `flags[i]` is what item `i` says, which is nothing unless it is a status message. */
  ghost predicate Flagged(items: seq<Item>, flags: seq<Option<bool>>) {
    && |flags| == |items|
    && forall i | 0 <= i < |items| ::
         if IsBytes(items[i], 10) then EncodesStatus(items[i].payload, flags[i]) else flags[i] == None
  }

  ghost predicate HoldsOutput(items: seq<Item>, o: DeviceOutput) {
    && HoldsVarint(items, 2, o.outputType) && HoldsBytes(items, 4, o.streamId) && HoldsBytes(items, 6, o.deviceId)
    && exists flags :: Flagged(items, flags) && LastFlag(flags, o.disabled)
  }

  ghost predicate EncodesOutput(bytes: seq<Byte>, o: DeviceOutput) {
    exists items :: ValidItems(items) && bytes == EncodeItems(items) && HoldsOutput(items, o)
  }

  predicate WellFormedOutput(o: DeviceOutput) {
    o.deviceId != [] && o.streamId != []
  }

  lemma {:induction false} FlagHeld(items: seq<Item>, flag: Option<bool>)
    requires HoldsFlag(items, flag)
    ensures flag.None? ==> LastVarint(items, 1) == None
    ensures flag.Some? ==> LastVarint(items, 1).Some? && (LastVarint(items, 1).value != 0 <==> flag.value)
    decreases |items|
  {
    if items != [] && !IsVarint(items[|items| - 1], 1) {
      var front := items[..|items| - 1];
      if flag.Some? {
        var k :| 0 <= k < |items| && IsVarint(items[k], 1) && (flag.value <==> items[k].value != 0)
              && forall m | k < m < |items| :: !IsVarint(items[m], 1);
        assert front[k] == items[k];
      }
      FlagHeld(front, flag);
    }
  }

  lemma StatusRoundTrip(item: Item, flag: Option<bool>, before: bool)
    requires IsBytes(item, 10) && EncodesStatus(item.payload, flag)
    ensures WithStatus(item, before) == Ok(flag.GetOr(before))
  {
    var items :| ValidItems(items) && item.payload == EncodeItems(items) && HoldsFlag(items, flag);
    ItemsRoundTrip(items);
    FlagHeld(items, flag);
  }

  function FlagOf(flags: seq<Option<bool>>): bool {
    if flags == [] then false else flags[|flags| - 1].GetOr(FlagOf(flags[..|flags| - 1]))
  }

  lemma {:induction false} LastFlagIs(flags: seq<Option<bool>>, disabled: bool)
    requires LastFlag(flags, disabled)
    ensures FlagOf(flags) == disabled
    decreases |flags|
  {
    if flags != [] && flags[|flags| - 1] == None {
      var front := flags[..|flags| - 1];
      if k :| 0 <= k < |flags| && flags[k] == Some(disabled) && forall m | k < m < |flags| :: flags[m] == None {
        assert front[k] == Some(disabled);
      }
      LastFlagIs(front, disabled);
    }
  }

  lemma {:induction false} DisabledIs(items: seq<Item>, flags: seq<Option<bool>>)
    requires Flagged(items, flags)
    ensures DisabledOf(items) == Ok(FlagOf(flags))
    decreases |items|
  {
    if items != [] {
      var n := |items| - 1;
      DisabledIs(items[..n], flags[..n]);
      if IsBytes(items[n], 10) {
        StatusRoundTrip(items[n], flags[n], FlagOf(flags[..n]));
      }
    }
  }

  /** Decoding an encoded device output gives it back, or nothing if it lacks an id. */
  lemma OutputRoundTrip(bytes: seq<Byte>, o: DeviceOutput)
    requires EncodesOutput(bytes, o)
    ensures OutputIn(bytes) == Ok(if WellFormedOutput(o) then Some(o) else None)
  {
    var items :| ValidItems(items) && bytes == EncodeItems(items) && HoldsOutput(items, o);
    var flags :| Flagged(items, flags) && LastFlag(flags, o.disabled);
    ItemsRoundTrip(items);
    HoldsVarintExactly(items, 2, o.outputType);
    HoldsBytesExactly(items, 4, o.streamId);
    HoldsBytesExactly(items, 6, o.deviceId);
    LastFlagIs(flags, o.disabled);
    DisabledIs(items, flags);
  }

  // ---- Every way of writing a device output down ----

  predicate KnownToOutput(item: Item) {
    (item.Varint? && item.field == 2) || (item.Bytes? && item.field in {4, 6})
  }

  function OutputFields(o: DeviceOutput): seq<Item> {
    [Varint(2, o.outputType), Bytes(4, o.streamId), Bytes(6, o.deviceId)]
  }

  function FlagField(disabled: bool): seq<Item> {
    [Varint(1, if disabled then 1 else 0)]
  }

  function StatusField(disabled: bool): Item {
    Bytes(10, EncodeItems(FlagField(disabled)))
  }

  /** The status message is written exactly as `StatusField`, and left out only if not disabled. */
  predicate WritesStatus(items: seq<Item>, disabled: bool) {
    && (forall i | 0 <= i < |items| && IsBytes(items[i], 10) :: items[i] == StatusField(disabled))
    && (disabled ==> StatusField(true) in items)
  }

  lemma StatusIsFlagged(items: seq<Item>, disabled: bool)
    requires WritesStatus(items, disabled)
    ensures exists flags :: Flagged(items, flags) && LastFlag(flags, disabled)
  {
    assert FlagField(disabled)[0] == Varint(1, if disabled then 1 else 0);
    assert HoldsFlag(FlagField(disabled), Some(disabled)) && ValidItems(FlagField(disabled));
    assert EncodesStatus(EncodeItems(FlagField(disabled)), Some(disabled));
    var flags := seq(|items|, i requires 0 <= i < |items| => if IsBytes(items[i], 10) then Some(disabled) else None);
    assert Flagged(items, flags);
    if i :| 0 <= i < |items| && IsBytes(items[i], 10) {
      LastOfSame(flags, i, disabled);
    }
  }

  lemma {:induction false} LastOfSame(flags: seq<Option<bool>>, i: nat, disabled: bool)
    requires i < |flags| && flags[i] == Some(disabled)
    requires forall m | 0 <= m < |flags| :: flags[m] == None || flags[m] == Some(disabled)
    ensures LastFlag(flags, disabled)
    decreases |flags| - i
  {
    if later :| i < later < |flags| && flags[later] != None {
      LastOfSame(flags, later, disabled);
    }
  }

  /** In whatever order a device output is written down, with or without its defaults, it is encoded. */
  lemma AnyOrderEncodesOutput(items: seq<Item>, o: DeviceOutput)
    requires ValidItems(items) && Writes(items, OutputFields(o), KnownToOutput) && WritesStatus(items, o.disabled)
    ensures EncodesOutput(EncodeItems(items), o)
  {
    var fields := OutputFields(o);
    assert fields[0] in fields && fields[1] in fields && fields[2] in fields;
    WrittenVarint(items, fields, KnownToOutput, 2, o.outputType);
    WrittenBytes(items, fields, KnownToOutput, 4, o.streamId);
    WrittenBytes(items, fields, KnownToOutput, 6, o.deviceId);
    StatusIsFlagged(items, o.disabled);
  }

  lemma PlainOutputEncoding(o: DeviceOutput)
    requires ValidItems(OutputFields(o) + [StatusField(o.disabled)])
    ensures EncodesOutput(EncodeItems(OutputFields(o) + [StatusField(o.disabled)]), o)
  {
    var items := OutputFields(o) + [StatusField(o.disabled)];
    assert items[3] == StatusField(o.disabled);
    AnyOrderEncodesOutput(items, o);
  }

  // ---- Lists ----

  /** The payloads of one length-delimited field, in order. */
  function Payloads(items: seq<Item>, field: nat): seq<seq<Byte>> {
    if items == [] then []
    else
      var last := items[|items| - 1];
      Payloads(items[..|items| - 1], field) + (if last.Bytes? && last.field == field then [last.payload] else [])
  }

  /** A message whose field `field` occurs once for each part, with other fields anywhere between. */
  ghost predicate EncodesEach<T>(bytes: seq<Byte>, field: nat, parts: seq<T>, encodes: (seq<Byte>, T) -> bool) {
    exists items :: ValidItems(items) && bytes == EncodeItems(items) && EachPayload(items, field, parts, encodes)
  }

  ghost predicate EachPayload<T>(items: seq<Item>, field: nat, parts: seq<T>, encodes: (seq<Byte>, T) -> bool) {
    && |Payloads(items, field)| == |parts|
    && forall i | 0 <= i < |parts| :: encodes(Payloads(items, field)[i], parts[i])
  }

  /** Without its last item, a message has all parts or all but the last. */
  lemma EachPayloadFront<T>(items: seq<Item>, field: nat, parts: seq<T>, encodes: (seq<Byte>, T) -> bool)
    requires items != [] && EachPayload(items, field, parts, encodes)
    ensures var front, last := items[..|items| - 1], items[|items| - 1];
            if last.Bytes? && last.field == field then
              && parts != [] && EachPayload(front, field, parts[..|parts| - 1], encodes)
              && encodes(last.payload, parts[|parts| - 1])
            else EachPayload(front, field, parts, encodes)
  {
    var front, last := items[..|items| - 1], items[|items| - 1];
    if last.Bytes? && last.field == field {
      assert Payloads(items, field)[|parts| - 1] == last.payload;
      forall i | 0 <= i < |parts| - 1 ensures encodes(Payloads(front, field)[i], parts[i]) {
        assert Payloads(items, field)[i] == Payloads(front, field)[i];
      }
    } else {
      assert Payloads(items, field) == Payloads(front, field);
    }
  }

  ghost predicate EncodesProperUser(bytes: seq<Byte>, u: User) {
    EncodesUser(bytes, u) && Proper(u)
  }

  ghost predicate EncodesUsers(bytes: seq<Byte>, users: seq<User>) {
    EncodesEach(bytes, 2, users, (b, u) => EncodesProperUser(b, u))
  }

  ghost predicate EncodesOutputs(bytes: seq<Byte>, outputs: seq<DeviceOutput>) {
    EncodesEach(bytes, 2, outputs, (b, o) => EncodesOutput(b, o))
  }

  /** Those with an id. */
  function Named(users: seq<User>): seq<User> {
    if users == [] then []
    else Named(users[..|users| - 1]) + (if users[|users| - 1].deviceId != [] then [users[|users| - 1]] else [])
  }

  /** Those with both ids. */
  function Placed(outputs: seq<DeviceOutput>): seq<DeviceOutput> {
    if outputs == [] then []
    else
      var last := outputs[|outputs| - 1];
      Placed(outputs[..|outputs| - 1]) + (if WellFormedOutput(last) then [last] else [])
  }

  lemma {:induction false} UsersOfEach(items: seq<Item>, users: seq<User>)
    requires EachPayload(items, 2, users, (b, u) => EncodesProperUser(b, u))
    ensures UsersOf(items) == Ok(Named(users))
    decreases |items|
  {
    if items != [] {
      var last := items[|items| - 1];
      EachPayloadFront(items, 2, users, (b, u) => EncodesProperUser(b, u));
      if last.Bytes? && last.field == 2 {
        UserRoundTrip(last.payload, users[|users| - 1]);
        UsersOfEach(items[..|items| - 1], users[..|users| - 1]);
      } else {
        UsersOfEach(items[..|items| - 1], users);
      }
    }
  }

  lemma {:induction false} OutputsOfEach(items: seq<Item>, outputs: seq<DeviceOutput>)
    requires EachPayload(items, 2, outputs, (b, o) => EncodesOutput(b, o))
    ensures OutputsOf(items) == Ok(Placed(outputs))
    decreases |items|
  {
    if items != [] {
      var last := items[|items| - 1];
      EachPayloadFront(items, 2, outputs, (b, o) => EncodesOutput(b, o));
      if last.Bytes? && last.field == 2 {
        OutputRoundTrip(last.payload, outputs[|outputs| - 1]);
        OutputsOfEach(items[..|items| - 1], outputs[..|outputs| - 1]);
      } else {
        OutputsOfEach(items[..|items| - 1], outputs);
      }
    }
  }

  lemma UsersRoundTrip(bytes: seq<Byte>, users: seq<User>)
    requires EncodesUsers(bytes, users)
    ensures UserListIn(bytes) == Ok(Named(users))
  {
    var items :| ValidItems(items) && bytes == EncodeItems(items)
              && EachPayload(items, 2, users, (b, u) => EncodesProperUser(b, u));
    ItemsRoundTrip(items);
    UsersOfEach(items, users);
  }

  lemma OutputsRoundTrip(bytes: seq<Byte>, outputs: seq<DeviceOutput>)
    requires EncodesOutputs(bytes, outputs)
    ensures OutputListIn(bytes) == Ok(Placed(outputs))
  {
    var items :| ValidItems(items) && bytes == EncodeItems(items)
              && EachPayload(items, 2, outputs, (b, o) => EncodesOutput(b, o));
    ItemsRoundTrip(items);
    OutputsOfEach(items, outputs);
  }

  function AllNamed(lists: seq<seq<User>>): seq<User> {
    if lists == [] then [] else AllNamed(lists[..|lists| - 1]) + Named(lists[|lists| - 1])
  }

  ghost predicate EncodesWrappedUsers(bytes: seq<Byte>, lists: seq<seq<User>>) {
    EncodesEach(bytes, 1, lists, (b, users) => EncodesUsers(b, users))
  }

  lemma {:induction false} WrappedUsersOfEach(items: seq<Item>, lists: seq<seq<User>>)
    requires EachPayload(items, 1, lists, (b, users) => EncodesUsers(b, users))
    ensures WrappedUsersOf(items) == Ok(AllNamed(lists))
    decreases |items|
  {
    if items != [] {
      var last := items[|items| - 1];
      EachPayloadFront(items, 1, lists, (b, users) => EncodesUsers(b, users));
      if last.Bytes? && last.field == 1 {
        UsersRoundTrip(last.payload, lists[|lists| - 1]);
        WrappedUsersOfEach(items[..|items| - 1], lists[..|lists| - 1]);
      } else {
        WrappedUsersOfEach(items[..|items| - 1], lists);
      }
    }
  }

  lemma WrappedUsersRoundTrip(bytes: seq<Byte>, lists: seq<seq<User>>)
    requires EncodesWrappedUsers(bytes, lists)
    ensures WrappedUsersIn(bytes) == Ok(AllNamed(lists))
  {
    var items :| ValidItems(items) && bytes == EncodeItems(items)
              && EachPayload(items, 1, lists, (b, users) => EncodesUsers(b, users));
    ItemsRoundTrip(items);
    WrappedUsersOfEach(items, lists);
  }

  // ---- The packet ----

  function Known(items: seq<Item>, known: Item -> bool): seq<Item> {
    if items == [] then []
    else
      var last := items[|items| - 1];
      Known(items[..|items| - 1], known) + (if known(last) then [last] else [])
  }

  /** One update in the body: device outputs, or users grouped in lists. */
  datatype Part = OutputsPart(outputs: seq<DeviceOutput>) | UsersPart(lists: seq<seq<User>>)

  /** All users with an id and all device outputs with both, in order. */
  function Contents(parts: seq<Part>): Collection {
    if parts == [] then Collection([], [])
    else
      var before := Contents(parts[..|parts| - 1]);
      match parts[|parts| - 1]
      case OutputsPart(outputs) => before.(deviceOutputs := before.deviceOutputs + Placed(outputs))
      case UsersPart(lists) => before.(users := before.users + AllNamed(lists))
  }

  predicate KnownToBody(item: Item) {
    item.Bytes? && item.field in {3, 13}
  }

  ghost predicate EncodesPart(item: Item, part: Part) {
    match part
    case OutputsPart(outputs) => item.Bytes? && item.field == 3 && EncodesOutputs(item.payload, outputs)
    case UsersPart(lists) => item.Bytes? && item.field == 13 && EncodesWrappedUsers(item.payload, lists)
  }

  ghost predicate PartsIn(items: seq<Item>, parts: seq<Part>) {
    var known := Known(items, KnownToBody);
    |known| == |parts| && forall i | 0 <= i < |parts| :: EncodesPart(known[i], parts[i])
  }

  ghost predicate EncodesBody(bytes: seq<Byte>, parts: seq<Part>) {
    exists items :: ValidItems(items) && bytes == EncodeItems(items) && PartsIn(items, parts)
  }

  /** A message with one length-delimited field of interest, with other fields around it. */
  ghost predicate EncodesNested(bytes: seq<Byte>, field: nat, payload: seq<Byte>) {
    exists items :: ValidItems(items) && bytes == EncodeItems(items) && LastBytes(items, field) == Some(payload)
  }

  ghost predicate EncodesWithout(bytes: seq<Byte>, field: nat) {
    exists items :: ValidItems(items) && bytes == EncodeItems(items)
                 && forall m | 0 <= m < |items| :: !IsBytes(items[m], field)
  }

  /** The root holds the body; an empty collection may leave out either. */
  ghost predicate EncodesPacket(bytes: seq<Byte>, parts: seq<Part>) {
    || (exists root, body :: EncodesNested(bytes, 1, root) && EncodesNested(root, 2, body) && EncodesBody(body, parts))
    || (parts == [] && EncodesWithout(bytes, 1))
    || (parts == [] && exists root :: EncodesNested(bytes, 1, root) && EncodesWithout(root, 2))
  }

  lemma {:induction false} BodyOfParts(items: seq<Item>, parts: seq<Part>)
    requires PartsIn(items, parts)
    ensures BodyOf(items) == Ok(Contents(parts))
    decreases |items|
  {
    if items != [] {
      var front, last := items[..|items| - 1], items[|items| - 1];
      var known := Known(items, KnownToBody);
      if KnownToBody(last) {
        var part := parts[|parts| - 1];
        assert known[|parts| - 1] == last && EncodesPart(last, part);
        assert known[..|known| - 1] == Known(front, KnownToBody);
        PartsFront(known, parts, front);
        BodyOfParts(front, parts[..|parts| - 1]);
        match part
        case OutputsPart(outputs) => OutputsRoundTrip(last.payload, outputs);
        case UsersPart(lists) => WrappedUsersRoundTrip(last.payload, lists);
      } else {
        assert known == Known(front, KnownToBody);
        BodyOfParts(front, parts);
      }
    }
  }

  lemma PartsFront(known: seq<Item>, parts: seq<Part>, front: seq<Item>)
    requires |known| == |parts| > 0 && known[..|known| - 1] == Known(front, KnownToBody)
    requires forall i | 0 <= i < |parts| :: EncodesPart(known[i], parts[i])
    ensures PartsIn(front, parts[..|parts| - 1])
  {
    forall i | 0 <= i < |parts| - 1 ensures EncodesPart(Known(front, KnownToBody)[i], parts[i]) {
      assert known[..|known| - 1][i] == known[i];
    }
  }

  lemma NestedRoundTrip(bytes: seq<Byte>, field: nat, payload: seq<Byte>)
    requires EncodesNested(bytes, field, payload)
    ensures NestedIn(bytes, field) == Ok(Some(payload))
  {
    var items :| ValidItems(items) && bytes == EncodeItems(items) && LastBytes(items, field) == Some(payload);
    ItemsRoundTrip(items);
  }

  lemma NothingNested(bytes: seq<Byte>, field: nat)
    requires EncodesWithout(bytes, field)
    ensures NestedIn(bytes, field) == Ok(None)
  {
    var items :| ValidItems(items) && bytes == EncodeItems(items)
              && forall m | 0 <= m < |items| :: !IsBytes(items[m], field);
    ItemsRoundTrip(items);
    AllBytesAgree(items, field, []);
  }

  /**
   Decoding an encoded collection gives exactly its users and device outputs, in order,
   whatever unknown fields stand between the known ones at every level.
   */
  lemma CollectionRoundTrip(bytes: seq<Byte>, parts: seq<Part>)
    requires EncodesPacket(bytes, parts)
    ensures CollectionIn(bytes) == Ok(Contents(parts))
  {
    if root, body :| EncodesNested(bytes, 1, root) && EncodesNested(root, 2, body) && EncodesBody(body, parts) {
      NestedRoundTrip(bytes, 1, root);
      NestedRoundTrip(root, 2, body);
      var items :| ValidItems(items) && body == EncodeItems(items) && PartsIn(items, parts);
      ItemsRoundTrip(items);
      BodyOfParts(items, parts);
    } else if EncodesWithout(bytes, 1) {
      NothingNested(bytes, 1);
    } else {
      var root :| EncodesNested(bytes, 1, root) && EncodesWithout(root, 2);
      NestedRoundTrip(bytes, 1, root);
      NothingNested(root, 2);
    }
  }
}
