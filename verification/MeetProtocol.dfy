/**
 The collection decoders of `browser-extension/src/meet-protocol.js`. What a message
 means is stated on its list of fields; strings stay byte sequences.
 */
module MeetProtocol {
  import opened Wrappers
  import opened ProtoWire

  datatype User = User(
    deviceId: seq<Byte>,
    fullName: seq<Byte>,
    displayName: seq<Byte>,
    profilePicture: Option<seq<Byte>>,
    status: nat,
    parentDeviceId: Option<seq<Byte>>,
    isCurrentUser: bool,
    isHost: bool)

  datatype DeviceOutput = DeviceOutput(deviceId: seq<Byte>, streamId: seq<Byte>, outputType: nat, disabled: bool)

  datatype Collection = Collection(users: seq<User>, deviceOutputs: seq<DeviceOutput>)

  // ---- The meaning of a list of fields ----

  /** The last occurrence of a field wins. */
  function LastBytes(items: seq<Item>, field: nat): Option<seq<Byte>> {
    if items == [] then None
    else
      var last := items[|items| - 1];
      if last.Bytes? && last.field == field then Some(last.payload) else LastBytes(items[..|items| - 1], field)
  }

  function LastVarint(items: seq<Item>, field: nat): Option<nat> {
    if items == [] then None
    else
      var last := items[|items| - 1];
      if last.Varint? && last.field == field then Some(last.value) else LastVarint(items[..|items| - 1], field)
  }

  function NonEmpty(bytes: Option<seq<Byte>>): Option<seq<Byte>> {
    if bytes.Some? && bytes.value != [] then bytes else None
  }

  function UserOf(items: seq<Item>): User {
    User(LastBytes(items, 1).GetOr([]), LastBytes(items, 2).GetOr([]), LastBytes(items, 29).GetOr([]),
         NonEmpty(LastBytes(items, 3)), LastVarint(items, 4).GetOr(0), NonEmpty(LastBytes(items, 21)),
         NonEmpty(LastBytes(items, 7)).Some?, LastVarint(items, 34).GetOr(0) != 0)
  }

  /** A status message may set the flag; one that says nothing leaves it alone. */
  function WithStatus(item: Item, before: bool): Parsed<bool> {
    if !(item.Bytes? && item.field == 10) then Ok(before)
    else
      match Items(item.payload)
      case Throws => Throws
      case Ok(status) =>
        Ok(match LastVarint(status, 1) case None => before case Some(flag) => flag != 0)
  }

  function DisabledOf(items: seq<Item>): Parsed<bool> {
    if items == [] then Ok(false)
    else
      match DisabledOf(items[..|items| - 1])
      case Throws => Throws
      case Ok(before) => WithStatus(items[|items| - 1], before)
  }

  function OutputOf(items: seq<Item>, disabled: bool): DeviceOutput {
    DeviceOutput(LastBytes(items, 6).GetOr([]), LastBytes(items, 4).GetOr([]), LastVarint(items, 2).GetOr(0), disabled)
  }

  function KeepUser(user: User): Option<User> {
    if user.deviceId != [] then Some(user) else None
  }

  function KeepOutput(output: DeviceOutput): Option<DeviceOutput> {
    if output.deviceId != [] && output.streamId != [] then Some(output) else None
  }

  function UserIn(bytes: seq<Byte>): Parsed<Option<User>> {
    match Items(bytes)
    case Throws => Throws
    case Ok(items) => Ok(KeepUser(UserOf(items)))
  }

  function OutputIn(bytes: seq<Byte>): Parsed<Option<DeviceOutput>> {
    match Items(bytes)
    case Throws => Throws
    case Ok(items) =>
      match DisabledOf(items)
      case Throws => Throws
      case Ok(disabled) => Ok(KeepOutput(OutputOf(items, disabled)))
  }

  function Listed<T>(kept: Option<T>): seq<T> {
    if kept.Some? then [kept.value] else []
  }

  /** The users in the fields 2 of a list, in order. */
  function UsersOf(items: seq<Item>): Parsed<seq<User>> {
    if items == [] then Ok([])
    else
      var last := items[|items| - 1];
      match UsersOf(items[..|items| - 1])
      case Throws => Throws
      case Ok(before) =>
        if !(last.Bytes? && last.field == 2) then Ok(before)
        else
          match UserIn(last.payload)
          case Throws => Throws
          case Ok(user) => Ok(before + Listed(user))
  }

  function UserListIn(bytes: seq<Byte>): Parsed<seq<User>> {
    match Items(bytes)
    case Throws => Throws
    case Ok(items) => UsersOf(items)
  }

  function OutputsOf(items: seq<Item>): Parsed<seq<DeviceOutput>> {
    if items == [] then Ok([])
    else
      var last := items[|items| - 1];
      match OutputsOf(items[..|items| - 1])
      case Throws => Throws
      case Ok(before) =>
        if !(last.Bytes? && last.field == 2) then Ok(before)
        else
          match OutputIn(last.payload)
          case Throws => Throws
          case Ok(output) => Ok(before + Listed(output))
  }

  function OutputListIn(bytes: seq<Byte>): Parsed<seq<DeviceOutput>> {
    match Items(bytes)
    case Throws => Throws
    case Ok(items) => OutputsOf(items)
  }

  /** The user lists in the fields 1 of a combined wrapper. */
  function WrappedUsersOf(items: seq<Item>): Parsed<seq<User>> {
    if items == [] then Ok([])
    else
      var last := items[|items| - 1];
      match WrappedUsersOf(items[..|items| - 1])
      case Throws => Throws
      case Ok(before) =>
        if !(last.Bytes? && last.field == 1) then Ok(before)
        else
          match UserListIn(last.payload)
          case Throws => Throws
          case Ok(users) => Ok(before + users)
  }

  function WrappedUsersIn(bytes: seq<Byte>): Parsed<seq<User>> {
    match Items(bytes)
    case Throws => Throws
    case Ok(items) => WrappedUsersOf(items)
  }

  /** One field of the body: 3 wraps device outputs, 13 wraps users. */
  function WithWrapper(field: nat, wrapper: seq<Byte>, c: Collection): Parsed<Collection> {
    if field == 3 then
      match OutputListIn(wrapper)
      case Throws => Throws
      case Ok(outputs) => Ok(c.(deviceOutputs := c.deviceOutputs + outputs))
    else if field == 13 then
      match WrappedUsersIn(wrapper)
      case Throws => Throws
      case Ok(users) => Ok(c.(users := c.users + users))
    else Ok(c)
  }

  function BodyOf(items: seq<Item>): Parsed<Collection> {
    if items == [] then Ok(Collection([], []))
    else
      var last := items[|items| - 1];
      match BodyOf(items[..|items| - 1])
      case Throws => Throws
      case Ok(before) =>
        if last.Bytes? then WithWrapper(last.field, last.payload, before) else Ok(before)
  }

  function BodyIn(bytes: seq<Byte>): Parsed<Collection> {
    match Items(bytes)
    case Throws => Throws
    case Ok(items) => BodyOf(items)
  }

  function NestedIn(bytes: seq<Byte>, field: nat): Parsed<Option<seq<Byte>>> {
    match Items(bytes)
    case Throws => Throws
    case Ok(items) => Ok(LastBytes(items, field))
  }

  /** Field 1 of the packet holds field 2, the body; without them the collection is empty. */
  function CollectionIn(bytes: seq<Byte>): Parsed<Collection> {
    match NestedIn(bytes, 1)
    case Throws => Throws
    case Ok(None) => Ok(Collection([], []))
    case Ok(Some(root)) =>
      match NestedIn(root, 2)
      case Throws => Throws
      case Ok(None) => Ok(Collection([], []))
      case Ok(Some(body)) => BodyIn(body)
  }

  // ---- The reader ----

  class ProtoReader {
    const bytes: seq<Byte>
    var pos: nat

    ghost predicate Valid()
      reads this
    {
      pos <= |bytes|
    }

    constructor (bytes: seq<Byte>)
      ensures Valid() && this.bytes == bytes && pos == 0
    {
      this.bytes := bytes;
      pos := 0;
    }

    /** Reads at most five groups of seven bits and steps over the rest of an overlong number. */
    method ReadVarint() returns (value: nat)
      requires Valid()
      modifies this
      ensures Valid() && (value, pos) == Varint35(bytes, old(pos))
    {
      value := 0;
      var k := 0;
      ghost var start := pos;
      while pos < |bytes| && k < 5
        invariant k <= 5 && Valid()
        invariant var (rest, next) := VarintAt(bytes, pos, k);
                  Varint35(bytes, start) == (value + rest, next)
        decreases |bytes| - pos
      {
        var b: int := bytes[pos];
        VarintStep(bytes, pos, k);
        pos := pos + 1;
        value := value + Weighted(b % 128, k);
        if b < 128 {
          return;
        }
        k := k + 1;
      }
      while pos < |bytes|
        invariant Valid()
        invariant Varint35(bytes, start) == (value, SkipOverlong(bytes, pos))
        decreases |bytes| - pos
      {
        pos := pos + 1;
        if bytes[pos - 1] < 128 {
          return;
        }
      }
    }

    method ReadBytes() returns (value: seq<Byte>)
      requires Valid()
      modifies this
      ensures Valid() && old(pos) <= pos
      ensures forall field :: ItemBody(bytes, old(pos), field, 2) == Ok((Bytes(field, value), pos))
    {
      var length := ReadVarint();
      var end := Min(|bytes|, pos + length);
      value := bytes[pos..end];
      pos := end;
    }

    /** Steps over a field nobody reads; throws on a wire type it does not know. */
    method Skip(wire: nat, ghost field: nat) returns (known: bool, ghost item: Item)
      requires Valid()
      modifies this
      ensures Valid() && old(pos) <= pos
      ensures ItemBody(bytes, old(pos), field, wire) == if known then Ok((item, pos)) else Throws
    {
      known := true;
      ghost var start := pos;
      item := Varint(0, 0);
      if wire == 0 {
        var value := ReadVarint();
        item := Varint(field, value);
      } else if wire == 1 {
        pos := Min(|bytes|, pos + 8);
        item := Fixed64(field, bytes[start..pos]);
      } else if wire == 2 {
        var value := ReadBytes();
        item := Bytes(field, value);
      } else if wire == 5 {
        pos := Min(|bytes|, pos + 4);
        item := Fixed32(field, bytes[start..pos]);
      } else {
        known := false;
      }
    }
  }

  // ---- Reading a message field by field ----

  function Prepend(seen: seq<Item>, rest: Parsed<seq<Item>>): Parsed<seq<Item>> {
    match rest
    case Throws => Throws
    case Ok(items) => Ok(seen + items)
  }

  /** `seen` has been read of the message, and reading goes on at `pos`. */
  predicate Reading(bytes: seq<Byte>, seen: seq<Item>, pos: nat) {
    pos <= |bytes| && Items(bytes) == Prepend(seen, ItemsFrom(bytes, pos))
  }

  lemma ReadingStarts(bytes: seq<Byte>)
    ensures Reading(bytes, [], 0)
  {
    assert forall items: seq<Item> :: [] + items == items;
  }

  lemma ReadingStep(bytes: seq<Byte>, seen: seq<Item>, pos: nat, item: Item, next: nat)
    requires Reading(bytes, seen, pos) && pos < |bytes| && Varint35(bytes, pos).0 != 0
    requires var (tag, at) := Varint35(bytes, pos);
             ItemBody(bytes, at, FieldOf(tag), WireOf(tag)) == Ok((item, next))
    ensures Reading(bytes, seen + [item], next)
    ensures (seen + [item])[..|seen|] == seen
  {
    var rest := ItemsFrom(bytes, next);
    if rest.Ok? {
      assert seen + ([item] + rest.value) == (seen + [item]) + rest.value;
    }
  }

  lemma ReadingThrows(bytes: seq<Byte>, seen: seq<Item>, pos: nat)
    requires Reading(bytes, seen, pos) && pos < |bytes| && Varint35(bytes, pos).0 != 0
    requires var (tag, at) := Varint35(bytes, pos);
             ItemBody(bytes, at, FieldOf(tag), WireOf(tag)) == Throws
    ensures Items(bytes) == Throws
  {
  }

  lemma ReadingEnds(bytes: seq<Byte>, seen: seq<Item>, pos: nat)
    requires Reading(bytes, seen, pos)
    requires pos == |bytes| || Varint35(bytes, pos).0 == 0
    ensures Items(bytes) == Ok(seen)
  {
    assert seen + [] == seen;
  }

  method Nested(bytes: seq<Byte>, fieldNumber: nat) returns (r: Parsed<Option<seq<Byte>>>)
    ensures r == NestedIn(bytes, fieldNumber)
  {
    var reader := new ProtoReader(bytes);
    var result: Option<seq<Byte>> := None;
    ghost var seen: seq<Item>, at := [], 0;
    ReadingStarts(bytes);
    while reader.pos < |bytes|
      invariant reader.Valid() && reader.bytes == bytes && at == reader.pos
      invariant Reading(bytes, seen, at) && result == LastBytes(seen, fieldNumber)
      decreases |bytes| - reader.pos
    {
      var tag := reader.ReadVarint();
      if tag == 0 {
        break;
      }
      var field, wire := FieldOf(tag), WireOf(tag);
      ghost var item: Item;
      if field == fieldNumber && wire == 2 {
        var value := reader.ReadBytes();
        result := Some(value);
        item := Bytes(field, value);
      } else {
        var known: bool;
        known, item := reader.Skip(wire, field);
        if !known {
          ReadingThrows(bytes, seen, at);
          return Throws;
        }
      }
      ReadingStep(bytes, seen, at, item, reader.pos);
      seen, at := seen + [item], reader.pos;
    }
    ReadingEnds(bytes, seen, at);
    return Ok(result);
  }

  function WithUserBytes(user: User, field: nat, value: seq<Byte>): User {
    if field == 1 then user.(deviceId := value)
    else if field == 2 then user.(fullName := value)
    else if field == 3 then user.(profilePicture := NonEmpty(Some(value)))
    else if field == 7 then user.(isCurrentUser := value != [])
    else if field == 21 then user.(parentDeviceId := NonEmpty(Some(value)))
    else if field == 29 then user.(displayName := value)
    else user
  }

  function WithUserVarint(user: User, field: nat, value: nat): User {
    if field == 4 then user.(status := value)
    else if field == 34 then user.(isHost := value != 0)
    else user
  }

  /** Setting fields as they arrive leaves what the last occurrence of each field says. */
  lemma UserStep(seen: seq<Item>, item: Item)
    ensures UserOf(seen + [item]) ==
      if item.Bytes? then WithUserBytes(UserOf(seen), item.field, item.payload)
      else if item.Varint? then WithUserVarint(UserOf(seen), item.field, item.value)
      else UserOf(seen)
  {
    assert (seen + [item])[..|seen|] == seen;
  }

  method DecodeUser(bytes: seq<Byte>) returns (r: Parsed<Option<User>>)
    ensures r == UserIn(bytes)
  {
    var reader := new ProtoReader(bytes);
    var user := User([], [], [], None, 0, None, false, false);
    ghost var seen: seq<Item>, at := [], 0;
    ReadingStarts(bytes);
    while reader.pos < |bytes|
      invariant reader.Valid() && reader.bytes == bytes && at == reader.pos
      invariant Reading(bytes, seen, at) && user == UserOf(seen)
      decreases |bytes| - reader.pos
    {
      var tag := reader.ReadVarint();
      if tag == 0 {
        break;
      }
      var field, wire := FieldOf(tag), WireOf(tag);
      ghost var item: Item;
      if wire == 2 && (field == 1 || field == 2 || field == 3 || field == 7 || field == 21 || field == 29) {
        var value := reader.ReadBytes();
        item := Bytes(field, value);
        user := WithUserBytes(user, field, value);
      } else if wire == 0 && (field == 4 || field == 34) {
        var value := reader.ReadVarint();
        item := Varint(field, value);
        user := WithUserVarint(user, field, value);
      } else {
        var known: bool;
        known, item := reader.Skip(wire, field);
        if !known {
          ReadingThrows(bytes, seen, at);
          return Throws;
        }
      }
      UserStep(seen, item);
      ReadingStep(bytes, seen, at, item, reader.pos);
      seen, at := seen + [item], reader.pos;
    }
    ReadingEnds(bytes, seen, at);
    return Ok(if user.deviceId != [] then Some(user) else None);
  }

  /** Messages and their lists throw when anything inside them throws, also past what was read. */
  lemma {:induction false} ThrowsStay(seen: seq<Item>, later: seq<Item>)
    ensures DisabledOf(seen) == Throws ==> DisabledOf(seen + later) == Throws
    ensures UsersOf(seen) == Throws ==> UsersOf(seen + later) == Throws
    ensures OutputsOf(seen) == Throws ==> OutputsOf(seen + later) == Throws
    ensures WrappedUsersOf(seen) == Throws ==> WrappedUsersOf(seen + later) == Throws
    ensures BodyOf(seen) == Throws ==> BodyOf(seen + later) == Throws
    decreases |later|
  {
    if later == [] {
      assert seen + later == seen;
    } else {
      ThrowsStay(seen, later[..|later| - 1]);
      assert (seen + later)[..|seen + later| - 1] == seen + later[..|later| - 1];
    }
  }

  lemma NestedThrows(bytes: seq<Byte>, seen: seq<Item>, pos: nat, item: Item, next: nat)
    requires Reading(bytes, seen, pos) && pos < |bytes| && Varint35(bytes, pos).0 != 0
    requires var (tag, at) := Varint35(bytes, pos);
             ItemBody(bytes, at, FieldOf(tag), WireOf(tag)) == Ok((item, next))
    ensures Items(bytes).Throws? || exists later :: Items(bytes) == Ok((seen + [item]) + later)
    ensures Items(bytes).Ok? && DisabledOf(seen + [item]) == Throws ==> DisabledOf(Items(bytes).value) == Throws
    ensures Items(bytes).Ok? && UsersOf(seen + [item]) == Throws ==> UsersOf(Items(bytes).value) == Throws
    ensures Items(bytes).Ok? && OutputsOf(seen + [item]) == Throws ==> OutputsOf(Items(bytes).value) == Throws
    ensures Items(bytes).Ok? && WrappedUsersOf(seen + [item]) == Throws ==> WrappedUsersOf(Items(bytes).value) == Throws
    ensures Items(bytes).Ok? && BodyOf(seen + [item]) == Throws ==> BodyOf(Items(bytes).value) == Throws
    ensures (seen + [item])[..|seen|] == seen
  {
    ReadingStep(bytes, seen, pos, item, next);
    var rest := ItemsFrom(bytes, next);
    if rest.Ok? {
      ThrowsStay(seen + [item], rest.value);
    }
  }

  lemma UsersStep(seen: seq<Item>, item: Item, users: seq<User>)
    requires UsersOf(seen) == Ok(users)
    ensures UsersOf(seen + [item]) ==
      if !(item.Bytes? && item.field == 2) then Ok(users)
      else match UserIn(item.payload) case Throws => Throws case Ok(user) => Ok(users + Listed(user))
    ensures users + [] == users
  {
    assert (seen + [item])[..|seen|] == seen;
  }

  lemma OutputsStep(seen: seq<Item>, item: Item, outputs: seq<DeviceOutput>)
    requires OutputsOf(seen) == Ok(outputs)
    ensures OutputsOf(seen + [item]) ==
      if !(item.Bytes? && item.field == 2) then Ok(outputs)
      else match OutputIn(item.payload) case Throws => Throws case Ok(output) => Ok(outputs + Listed(output))
    ensures outputs + [] == outputs
  {
    assert (seen + [item])[..|seen|] == seen;
  }

  lemma BodyStep(seen: seq<Item>, item: Item, c: Collection)
    requires BodyOf(seen) == Ok(c)
    ensures BodyOf(seen + [item]) ==
      if item.Bytes? then WithWrapper(item.field, item.payload, c) else Ok(c)
  {
    assert (seen + [item])[..|seen|] == seen;
  }

  /** The flag a status message sets, if it sets one. */
  method DecodeStatus(bytes: seq<Byte>) returns (r: Parsed<Option<bool>>)
    ensures r == match Items(bytes)
      case Throws => Throws
      case Ok(items) =>
        Ok(match LastVarint(items, 1) case None => None case Some(flag) => Some(flag != 0))
  {
    var reader := new ProtoReader(bytes);
    var disabled: Option<bool> := None;
    ghost var seen: seq<Item>, at := [], 0;
    ReadingStarts(bytes);
    while reader.pos < |bytes|
      invariant reader.Valid() && reader.bytes == bytes && at == reader.pos
      invariant Reading(bytes, seen, at) && disabled == (match LastVarint(seen, 1) case None => None case Some(flag) => Some(flag != 0))
      decreases |bytes| - reader.pos
    {
      var tag := reader.ReadVarint();
      if tag == 0 {
        break;
      }
      var field, wire := FieldOf(tag), WireOf(tag);
      ghost var item: Item;
      if field == 1 && wire == 0 {
        var value := reader.ReadVarint();
        item := Varint(field, value);
        disabled := Some(value != 0);
      } else {
        var known: bool;
        known, item := reader.Skip(wire, field);
        if !known {
          ReadingThrows(bytes, seen, at);
          return Throws;
        }
      }
      ReadingStep(bytes, seen, at, item, reader.pos);
      seen, at := seen + [item], reader.pos;
    }
    ReadingEnds(bytes, seen, at);
    return Ok(disabled);
  }

  method DecodeDeviceOutput(bytes: seq<Byte>) returns (r: Parsed<Option<DeviceOutput>>)
    ensures r == OutputIn(bytes)
  {
    var reader := new ProtoReader(bytes);
    var output := DeviceOutput([], [], 0, false);
    ghost var seen: seq<Item>, at := [], 0;
    ReadingStarts(bytes);
    while reader.pos < |bytes|
      invariant reader.Valid() && reader.bytes == bytes && at == reader.pos
      invariant Reading(bytes, seen, at) && DisabledOf(seen) == Ok(output.disabled)
        && output == OutputOf(seen, output.disabled)
      decreases |bytes| - reader.pos
    {
      var tag := reader.ReadVarint();
      if tag == 0 {
        break;
      }
      var field, wire := FieldOf(tag), WireOf(tag);
      ghost var item: Item;
      if wire == 0 && field == 2 {
        var value := reader.ReadVarint();
        item := Varint(field, value);
        output := output.(outputType := value);
      } else if wire == 2 && (field == 4 || field == 6) {
        var value := reader.ReadBytes();
        item := Bytes(field, value);
        output := if field == 4 then output.(streamId := value) else output.(deviceId := value);
      } else if wire == 2 && field == 10 {
        var payload := reader.ReadBytes();
        item := Bytes(field, payload);
        var status := DecodeStatus(payload);
        NestedThrows(bytes, seen, at, item, reader.pos);
        if status.Throws? {
          return Throws;
        }
        if status.value.Some? {
          output := output.(disabled := status.value.value);
        }
      } else {
        var known: bool;
        known, item := reader.Skip(wire, field);
        if !known {
          ReadingThrows(bytes, seen, at);
          return Throws;
        }
      }
      ReadingStep(bytes, seen, at, item, reader.pos);
      seen, at := seen + [item], reader.pos;
    }
    ReadingEnds(bytes, seen, at);
    return Ok(if output.deviceId != [] && output.streamId != [] then Some(output) else None);
  }

  method DecodeUserListWrapper(bytes: seq<Byte>) returns (r: Parsed<seq<User>>)
    ensures r == UserListIn(bytes)
  {
    var reader := new ProtoReader(bytes);
    var found: seq<User> := [];
    ghost var seen: seq<Item>, at := [], 0;
    ReadingStarts(bytes);
    while reader.pos < |bytes|
      invariant reader.Valid() && reader.bytes == bytes && at == reader.pos
      invariant Reading(bytes, seen, at) && UsersOf(seen) == Ok(found)
      decreases |bytes| - reader.pos
    {
      var tag := reader.ReadVarint();
      if tag == 0 {
        break;
      }
      var field, wire := FieldOf(tag), WireOf(tag);
      ghost var item: Item;
      ghost var before := found;
      if field == 2 && wire == 2 {
        var payload := reader.ReadBytes();
        item := Bytes(field, payload);
        var nested := DecodeUser(payload);
        if nested.Throws? {
          NestedThrows(bytes, seen, at, item, reader.pos);
          return Throws;
        }
        if nested.value.Some? {
          found := found + [nested.value.value];
        }
      } else {
        var known: bool;
        known, item := reader.Skip(wire, field);
        if !known {
          ReadingThrows(bytes, seen, at);
          return Throws;
        }
      }
      UsersStep(seen, item, before);
      ReadingStep(bytes, seen, at, item, reader.pos);
      seen, at := seen + [item], reader.pos;
    }
    ReadingEnds(bytes, seen, at);
    return Ok(found);
  }

  method DecodeOutputList(bytes: seq<Byte>) returns (r: Parsed<seq<DeviceOutput>>)
    ensures r == OutputListIn(bytes)
  {
    var reader := new ProtoReader(bytes);
    var found: seq<DeviceOutput> := [];
    ghost var seen: seq<Item>, at := [], 0;
    ReadingStarts(bytes);
    while reader.pos < |bytes|
      invariant reader.Valid() && reader.bytes == bytes && at == reader.pos
      invariant Reading(bytes, seen, at) && OutputsOf(seen) == Ok(found)
      decreases |bytes| - reader.pos
    {
      var tag := reader.ReadVarint();
      if tag == 0 {
        break;
      }
      var field, wire := FieldOf(tag), WireOf(tag);
      ghost var item: Item;
      ghost var before := found;
      if field == 2 && wire == 2 {
        var payload := reader.ReadBytes();
        item := Bytes(field, payload);
        var nested := DecodeDeviceOutput(payload);
        if nested.Throws? {
          NestedThrows(bytes, seen, at, item, reader.pos);
          return Throws;
        }
        if nested.value.Some? {
          found := found + [nested.value.value];
        }
      } else {
        var known: bool;
        known, item := reader.Skip(wire, field);
        if !known {
          ReadingThrows(bytes, seen, at);
          return Throws;
        }
      }
      OutputsStep(seen, item, before);
      ReadingStep(bytes, seen, at, item, reader.pos);
      seen, at := seen + [item], reader.pos;
    }
    ReadingEnds(bytes, seen, at);
    return Ok(found);
  }

  method DecodeWrappedUsers(bytes: seq<Byte>) returns (r: Parsed<seq<User>>)
    ensures r == WrappedUsersIn(bytes)
  {
    var reader := new ProtoReader(bytes);
    var found: seq<User> := [];
    ghost var seen: seq<Item>, at := [], 0;
    ReadingStarts(bytes);
    while reader.pos < |bytes|
      invariant reader.Valid() && reader.bytes == bytes && at == reader.pos
      invariant Reading(bytes, seen, at) && WrappedUsersOf(seen) == Ok(found)
      decreases |bytes| - reader.pos
    {
      var tag := reader.ReadVarint();
      if tag == 0 {
        break;
      }
      var field, wire := FieldOf(tag), WireOf(tag);
      ghost var item: Item;
      if field == 1 && wire == 2 {
        var payload := reader.ReadBytes();
        item := Bytes(field, payload);
        var nested := DecodeUserListWrapper(payload);
        if nested.Throws? {
          NestedThrows(bytes, seen, at, item, reader.pos);
          return Throws;
        }
        found := found + nested.value;
      } else {
        var known: bool;
        known, item := reader.Skip(wire, field);
        if !known {
          ReadingThrows(bytes, seen, at);
          return Throws;
        }
      }
      ReadingStep(bytes, seen, at, item, reader.pos);
      seen, at := seen + [item], reader.pos;
    }
    ReadingEnds(bytes, seen, at);
    return Ok(found);
  }

  /** One wrapper of the body adds its outputs or its users. */
  method DecodeWrapper(field: nat, wrapper: seq<Byte>, c: Collection) returns (r: Parsed<Collection>)
    requires field == 3 || field == 13
    ensures r == WithWrapper(field, wrapper, c)
  {
    if field == 3 {
      var outputs := DecodeOutputList(wrapper);
      if outputs.Throws? {
        return Throws;
      }
      return Ok(c.(deviceOutputs := c.deviceOutputs + outputs.value));
    }
    var users := DecodeWrappedUsers(wrapper);
    if users.Throws? {
      return Throws;
    }
    return Ok(c.(users := c.users + users.value));
  }

  method DecodeBody(bytes: seq<Byte>) returns (r: Parsed<Collection>)
    ensures r == BodyIn(bytes)
  {
    var reader := new ProtoReader(bytes);
    var collection := Collection([], []);
    ghost var seen: seq<Item>, at := [], 0;
    ReadingStarts(bytes);
    while reader.pos < |bytes|
      invariant reader.Valid() && reader.bytes == bytes && at == reader.pos
      invariant Reading(bytes, seen, at) && BodyOf(seen) == Ok(collection)
      decreases |bytes| - reader.pos
    {
      var tag := reader.ReadVarint();
      if tag == 0 {
        break;
      }
      var field, wire := FieldOf(tag), WireOf(tag);
      ghost var item: Item;
      ghost var before := collection;
      if wire == 2 && (field == 3 || field == 13) {
        var wrapper := reader.ReadBytes();
        item := Bytes(field, wrapper);
        var extended := DecodeWrapper(field, wrapper, collection);
        BodyStep(seen, item, collection);
        if extended.Throws? {
          NestedThrows(bytes, seen, at, item, reader.pos);
          return Throws;
        }
        collection := extended.value;
      } else {
        var known: bool;
        known, item := reader.Skip(wire, field);
        if !known {
          ReadingThrows(bytes, seen, at);
          return Throws;
        }
      }
      BodyStep(seen, item, before);
      ReadingStep(bytes, seen, at, item, reader.pos);
      seen, at := seen + [item], reader.pos;
    }
    ReadingEnds(bytes, seen, at);
    return Ok(collection);
  }

  /** On every byte string this ends, with the collection its fields mean or by throwing. */
  method DecodeCollectionBytes(bytes: seq<Byte>) returns (r: Parsed<Collection>)
    ensures r == CollectionIn(bytes)
  {
    var root := Nested(bytes, 1);
    if root.Throws? {
      return Throws;
    }
    if root.value.None? {
      return Ok(Collection([], []));
    }
    var body := Nested(root.value.value, 2);
    if body.Throws? {
      return Throws;
    }
    if body.value.None? {
      return Ok(Collection([], []));
    }
    r := DecodeBody(body.value.value);
  }
}
