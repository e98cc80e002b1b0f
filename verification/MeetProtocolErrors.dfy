/**
 Exactly when decoding throws: a message that cannot be read, anywhere among the fields that
 the decoder opens, lets the whole packet throw, and nothing else does.
 */
module MeetProtocolErrors {
  import opened Wrappers
  import opened ProtoWire
  import opened MeetProtocol

  // ---- What must not stand anywhere ----

  predicate Unreadable(bytes: seq<Byte>) {
    Items(bytes).Throws?
  }

  /** A message that cannot be read, or with a broken payload in one of these fields. */
  predicate Broken(bytes: seq<Byte>, field: nat, broken: seq<Byte> -> bool) {
    Unreadable(bytes) || BrokenItems(Items(bytes).value, field, broken)
  }

  predicate BrokenItems(items: seq<Item>, field: nat, broken: seq<Byte> -> bool) {
    exists i | 0 <= i < |items| && items[i].Bytes? && items[i].field == field :: broken(items[i].payload)
  }

  /** A device output opens its status messages, a list its users or outputs, a wrapper its lists. */
  predicate BrokenOutput(bytes: seq<Byte>) {
    Broken(bytes, 10, b => Unreadable(b))
  }

  predicate BrokenOutputs(bytes: seq<Byte>) {
    Broken(bytes, 2, b => BrokenOutput(b))
  }

  predicate BrokenUsers(bytes: seq<Byte>) {
    Broken(bytes, 2, b => Unreadable(b))
  }

  predicate BrokenWrapped(bytes: seq<Byte>) {
    Broken(bytes, 1, b => BrokenUsers(b))
  }

  predicate BrokenBody(bytes: seq<Byte>) {
    Broken(bytes, 3, b => BrokenOutputs(b)) || Broken(bytes, 13, b => BrokenWrapped(b))
  }

  /** Only the last body of the last root is opened. */
  predicate BrokenPacket(bytes: seq<Byte>) {
    || Unreadable(bytes)
    || (var root := LastBytes(Items(bytes).value, 1);
        root.Some? &&
        (|| Unreadable(root.value)
         || (var body := LastBytes(Items(root.value).value, 2); body.Some? && BrokenBody(body.value))))
  }

  // ---- Proofs ----

  /** Whether a list of fields is broken is decided by its front and its last field. */
  lemma BrokenGrows(items: seq<Item>, field: nat, broken: seq<Byte> -> bool)
    requires items != []
    ensures var front, last := items[..|items| - 1], items[|items| - 1];
            BrokenItems(items, field, broken) <==>
              BrokenItems(front, field, broken) || (last.Bytes? && last.field == field && broken(last.payload))
  {
    var front := items[..|items| - 1];
    if i :| 0 <= i < |front| && front[i].Bytes? && front[i].field == field && broken(front[i].payload) {
      assert items[i] == front[i];
    }
    if i :| 0 <= i < |items| && items[i].Bytes? && items[i].field == field && broken(items[i].payload) {
      if i < |front| {
        assert front[i] == items[i];
      }
    }
  }

  lemma {:induction false} StatusThrows(items: seq<Item>)
    ensures DisabledOf(items).Throws? <==> BrokenItems(items, 10, b => Unreadable(b))
    decreases |items|
  {
    if items != [] {
      StatusThrows(items[..|items| - 1]);
      BrokenGrows(items, 10, b => Unreadable(b));
    }
  }

  lemma OutputThrows(bytes: seq<Byte>)
    ensures OutputIn(bytes).Throws? <==> BrokenOutput(bytes)
  {
    if Items(bytes).Ok? {
      StatusThrows(Items(bytes).value);
    }
  }

  lemma {:induction false} OutputsThrow(items: seq<Item>)
    ensures OutputsOf(items).Throws? <==> BrokenItems(items, 2, b => BrokenOutput(b))
    decreases |items|
  {
    if items != [] {
      OutputsThrow(items[..|items| - 1]);
      BrokenGrows(items, 2, b => BrokenOutput(b));
      if items[|items| - 1].Bytes? {
        OutputThrows(items[|items| - 1].payload);
      }
    }
  }

  lemma {:induction false} UsersThrow(items: seq<Item>)
    ensures UsersOf(items).Throws? <==> BrokenItems(items, 2, b => Unreadable(b))
    decreases |items|
  {
    if items != [] {
      UsersThrow(items[..|items| - 1]);
      BrokenGrows(items, 2, b => Unreadable(b));
    }
  }

  lemma UserListThrows(bytes: seq<Byte>)
    ensures UserListIn(bytes).Throws? <==> BrokenUsers(bytes)
  {
    if Items(bytes).Ok? {
      UsersThrow(Items(bytes).value);
    }
  }

  lemma {:induction false} WrappedThrow(items: seq<Item>)
    ensures WrappedUsersOf(items).Throws? <==> BrokenItems(items, 1, b => BrokenUsers(b))
    decreases |items|
  {
    if items != [] {
      WrappedThrow(items[..|items| - 1]);
      BrokenGrows(items, 1, b => BrokenUsers(b));
      if items[|items| - 1].Bytes? {
        UserListThrows(items[|items| - 1].payload);
      }
    }
  }

  lemma WrapperThrows(field: nat, wrapper: seq<Byte>, c: Collection)
    ensures WithWrapper(field, wrapper, c).Throws? <==>
            (field == 3 && BrokenOutputs(wrapper)) || (field == 13 && BrokenWrapped(wrapper))
  {
    if Items(wrapper).Ok? {
      OutputsThrow(Items(wrapper).value);
      WrappedThrow(Items(wrapper).value);
    }
  }

  lemma {:induction false} BodyThrows(items: seq<Item>)
    ensures BodyOf(items).Throws? <==>
            BrokenItems(items, 3, b => BrokenOutputs(b)) || BrokenItems(items, 13, b => BrokenWrapped(b))
    decreases |items|
  {
    if items != [] {
      var front, last := items[..|items| - 1], items[|items| - 1];
      BodyThrows(front);
      BrokenGrows(items, 3, b => BrokenOutputs(b));
      BrokenGrows(items, 13, b => BrokenWrapped(b));
      if last.Bytes? && BodyOf(front).Ok? {
        WrapperThrows(last.field, last.payload, BodyOf(front).value);
      }
    }
  }

  // ---- Main result ----

  /** Decoding a packet throws exactly if something in it that is opened cannot be read. */
  lemma CollectionThrowsExactly(bytes: seq<Byte>)
    ensures CollectionIn(bytes).Throws? <==> BrokenPacket(bytes)
  {
    if Items(bytes).Ok? {
      var root := LastBytes(Items(bytes).value, 1);
      if root.Some? && Items(root.value).Ok? {
        var body := LastBytes(Items(root.value).value, 2);
        if body.Some? && Items(body.value).Ok? {
          BodyThrows(Items(body.value).value);
        }
      }
    }
  }
}
