/**
 The Opus payload of an encoded frame (`browser-extension/src/capture-policy.js`),
 including the redundant audio format of section 3 of RFC 2198. MIME types come
 trimmed and in lower case.
 */
module RedPayload {
  import opened Wrappers

  type Byte = b: int | 0 <= b < 256

  const OPUS := "audio/opus"
  const RED := "audio/red"

  datatype Codec = Codec(payloadType: Option<int>, mimeType: string)
  datatype Metadata = Metadata(payloadType: Option<int>, mimeType: string)

  /** The ten-bit block length of a redundant header. */
  function BlockLength(high: int, low: int): nat
    requires 0 <= high && 0 <= low
  {
    (high % 4) * 256 + low
  }

  // ---- The packet format ----

  datatype Redundant = Redundant(payloadType: int, timestampOffset: int, data: seq<Byte>)
  datatype Packet = Packet(redundant: seq<Redundant>, primaryType: int, primary: seq<Byte>)

  predicate ValidRedundant(r: Redundant) {
    0 <= r.payloadType < 128 && 0 <= r.timestampOffset < 16384 && |r.data| < 1024
  }

  predicate ValidPacket(p: Packet) {
    && (forall i | 0 <= i < |p.redundant| :: ValidRedundant(p.redundant[i]))
    && 0 <= p.primaryType < 128
  }

  function Header(r: Redundant): seq<Byte>
    requires ValidRedundant(r)
  {
    [128 + r.payloadType, r.timestampOffset / 64, (r.timestampOffset % 64) * 4 + |r.data| / 256, |r.data| % 256]
  }

  function Headers(rs: seq<Redundant>): (h: seq<Byte>)
    requires forall i | 0 <= i < |rs| :: ValidRedundant(rs[i])
    ensures |h| == 4 * |rs|
  {
    if rs == [] then [] else Header(rs[0]) + Headers(rs[1..])
  }

  function Data(rs: seq<Redundant>): seq<Byte> {
    if rs == [] then [] else rs[0].data + Data(rs[1..])
  }

  function Encode(p: Packet): seq<Byte>
    requires ValidPacket(p)
  {
    Headers(p.redundant) + [p.primaryType] + Data(p.redundant) + p.primary
  }

  // ---- What the code computes ----

  function Table(codecs: seq<Codec>): map<int, string> {
    if codecs == [] then map[]
    else
      var last := codecs[|codecs| - 1];
      var before := Table(codecs[..|codecs| - 1]);
      if last.payloadType.Some? && last.mimeType != "" then before[last.payloadType.value := last.mimeType] else before
  }

  function OuterMimeType(metadata: Metadata, table: map<int, string>): string {
    if metadata.mimeType != "" then metadata.mimeType
    else if metadata.payloadType.Some? && metadata.payloadType.value in table then table[metadata.payloadType.value]
    else ""
  }

  /** The primary payload type and the position of its payload, once the header chain ends. */
  function ReadHeaders(bytes: seq<Byte>, offset: nat, redundantLength: nat): Option<(int, nat)>
    decreases |bytes| - offset
  {
    if offset >= |bytes| then None
    else if bytes[offset] < 128 then Some((bytes[offset], offset + 1 + redundantLength))
    else if offset + 4 > |bytes| then None
    else ReadHeaders(bytes, offset + 4, redundantLength + BlockLength(bytes[offset + 2], bytes[offset + 3]))
  }

  /** Opus by its negotiated type, or nothing negotiated for it and no Opus negotiated at all. */
  predicate AcceptedPrimary(payloadType: int, table: map<int, string>) {
    if payloadType in table && table[payloadType] != "" then table[payloadType] == OPUS else OPUS !in table.Values
  }

  function Unpack(bytes: seq<Byte>, table: map<int, string>): Option<seq<Byte>> {
    var header := ReadHeaders(bytes, 0, 0);
    if header.None? || header.value.1 >= |bytes| || !AcceptedPrimary(header.value.0, table) then None
    else Some(bytes[header.value.1..])
  }

  function PrimaryOpusPayload(bytes: seq<Byte>, metadata: Metadata, codecs: seq<Codec>): Option<seq<Byte>> {
    var table := Table(codecs);
    var outer := OuterMimeType(metadata, table);
    if outer == "" then
      if table == map[] || (metadata.payloadType.None? && table.Values == {OPUS}) then Some(bytes) else None
    else if outer == OPUS then Some(bytes)
    else if outer == RED then Unpack(bytes, table)
    else None
  }

  method BuildTable(codecs: seq<Codec>) returns (table: map<int, string>)
    ensures table == Table(codecs)
  {
    table := map[];
    for i := 0 to |codecs|
      invariant table == Table(codecs[..i])
    {
      assert codecs[..i + 1][..i] == codecs[..i];
      if codecs[i].payloadType.Some? && codecs[i].mimeType != "" {
        table := table[codecs[i].payloadType.value := codecs[i].mimeType];
      }
    }
    assert codecs[..|codecs|] == codecs;
  }

  /** The loop over the header chain. */
  method MeetPrimaryOpusPayload(bytes: seq<Byte>, metadata: Metadata, codecs: seq<Codec>) returns (payload: Option<seq<Byte>>)
    ensures payload == PrimaryOpusPayload(bytes, metadata, codecs)
  {
    var table := BuildTable(codecs);
    var outer := OuterMimeType(metadata, table);
    if outer == "" {
      if |table| == 0 {
        return Some(bytes);
      }
      if metadata.payloadType.None? && table.Values == {OPUS} {
        return Some(bytes);
      }
      return None;
    }
    if outer == OPUS {
      return Some(bytes);
    }
    if outer != RED {
      return None;
    }
    var offset, redundantLength := 0, 0;
    var primaryType: Option<int> := None;
    while offset < |bytes|
      invariant 0 <= offset && 0 <= redundantLength
      invariant primaryType.None?
      invariant ReadHeaders(bytes, offset, redundantLength) == ReadHeaders(bytes, 0, 0)
    {
      if bytes[offset] < 128 {
        primaryType := Some(bytes[offset]);
        offset := offset + 1;
        break;
      }
      if offset + 4 > |bytes| {
        return None;
      }
      redundantLength := redundantLength + BlockLength(bytes[offset + 2], bytes[offset + 3]);
      offset := offset + 4;
    }
    var payloadOffset := offset + redundantLength;
    if primaryType.None? || payloadOffset >= |bytes| {
      return None;
    }
    if !AcceptedPrimary(primaryType.value, table) {
      return None;
    }
    return Some(bytes[payloadOffset..]);
  }

  // ---- Round trip ----

  lemma {:induction false} ReadHeadersOfPacket(before: seq<Byte>, rs: seq<Redundant>, primaryType: Byte, rest: seq<Byte>, length: nat)
    requires forall i | 0 <= i < |rs| :: ValidRedundant(rs[i])
    requires primaryType < 128
    ensures ReadHeaders(before + Headers(rs) + [primaryType] + rest, |before|, length) ==
            Some((primaryType, |before| + 4 * |rs| + 1 + length + |Data(rs)|))
    decreases |rs|
  {
    var bytes := before + Headers(rs) + [primaryType] + rest;
    if rs == [] {
      assert bytes[|before|] == primaryType;
    } else {
      var header := Header(rs[0]);
      var longer := before + header;
      assert bytes == longer + Headers(rs[1..]) + [primaryType] + rest;
      assert bytes[|before|..|before| + 4] == header;
      forall k | 0 <= k < 4 ensures bytes[|before| + k] == header[k] {
        assert bytes[|before| + k] == bytes[|before|..|before| + 4][k];
      }
      assert BlockLength(header[2], header[3]) == |rs[0].data|;
      ReadHeadersOfPacket(longer, rs[1..], primaryType, rest, length + |rs[0].data|);
    }
  }

  /** Unpacking an encoded packet gives back exactly its primary block. */
  lemma RedRoundTrip(p: Packet, table: map<int, string>)
    requires ValidPacket(p) && p.primary != [] && AcceptedPrimary(p.primaryType, table)
    ensures Unpack(Encode(p), table) == Some(p.primary)
  {
    ReadHeadersOfPacket([], p.redundant, p.primaryType, Data(p.redundant) + p.primary, 0);
    assert Encode(p) == [] + Headers(p.redundant) + [p.primaryType] + (Data(p.redundant) + p.primary);
    var at := 4 * |p.redundant| + 1 + |Data(p.redundant)|;
    assert Encode(p)[at..] == p.primary;
  }

  // ---- Nothing else unpacks ----

  /** The bytes of redundant data the header chain from `offset` on declares. */
  function DeclaredLength(bytes: seq<Byte>, offset: nat): nat
    decreases |bytes| - offset
  {
    if offset >= |bytes| || bytes[offset] < 128 || offset + 4 > |bytes| then 0
    else BlockLength(bytes[offset + 2], bytes[offset + 3]) + DeclaredLength(bytes, offset + 4)
  }

  /** The position of the one-byte header that ends the chain. */
  function LastHeader(bytes: seq<Byte>, offset: nat): nat
    decreases |bytes| - offset
  {
    if offset >= |bytes| || bytes[offset] < 128 || offset + 4 > |bytes| then offset
    else LastHeader(bytes, offset + 4)
  }

  lemma {:induction false} PayloadPosition(bytes: seq<Byte>, offset: nat, length: nat)
    requires ReadHeaders(bytes, offset, length).Some?
    ensures var last := LastHeader(bytes, offset);
            && offset <= last < |bytes|
            && ReadHeaders(bytes, offset, length) == Some((bytes[last], last + 1 + length + DeclaredLength(bytes, offset)))
            && bytes[last] < 128
    decreases |bytes| - offset
  {
    if bytes[offset] >= 128 {
      PayloadPosition(bytes, offset + 4, length + BlockLength(bytes[offset + 2], bytes[offset + 3]));
    }
  }

  function RedundantAt(bytes: seq<Byte>, offset: nat, data: seq<Byte>): Redundant
    requires offset + 4 <= |bytes|
  {
    var b0: int, b1: int, b2: int := bytes[offset], bytes[offset + 1], bytes[offset + 2];
    Redundant(b0 - 128, b1 * 64 + b2 / 4, data)
  }

  lemma HeaderReads(bytes: seq<Byte>, offset: nat, data: seq<Byte>)
    requires offset + 4 <= |bytes| && bytes[offset] >= 128
    requires |data| == BlockLength(bytes[offset + 2], bytes[offset + 3])
    ensures ValidRedundant(RedundantAt(bytes, offset, data))
    ensures Header(RedundantAt(bytes, offset, data)) == bytes[offset..offset + 4]
  {
  }

  /** A readable header chain is one of redundant blocks whose data fills the declared lengths. */
  lemma {:induction false} HeaderChain(bytes: seq<Byte>, offset: nat, length: nat, body: seq<Byte>) returns (rs: seq<Redundant>)
    requires ReadHeaders(bytes, offset, length).Some?
    requires |body| == DeclaredLength(bytes, offset)
    ensures forall i | 0 <= i < |rs| :: ValidRedundant(rs[i])
    ensures offset <= LastHeader(bytes, offset) < |bytes|
    ensures Headers(rs) == bytes[offset..LastHeader(bytes, offset)] && Data(rs) == body
    decreases |bytes| - offset
  {
    if bytes[offset] < 128 {
      rs := [];
    } else {
      var size := BlockLength(bytes[offset + 2], bytes[offset + 3]);
      var last := LastHeader(bytes, offset);
      var r := RedundantAt(bytes, offset, body[..size]);
      HeaderReads(bytes, offset, body[..size]);
      PayloadPosition(bytes, offset, length);
      PayloadPosition(bytes, offset + 4, length + size);
      var later := HeaderChain(bytes, offset + 4, length + size, body[size..]);
      rs := [r] + later;
      assert rs[1..] == later;
      assert bytes[offset..last] == bytes[offset..offset + 4] + bytes[offset + 4..last];
      assert body == body[..size] + body[size..];
    }
  }

  ghost predicate Carries(bytes: seq<Byte>, table: map<int, string>, p: Packet) {
    ValidPacket(p) && bytes == Encode(p) && p.primary != [] && AcceptedPrimary(p.primaryType, table)
  }

  /** Whatever unpacks is a well-formed packet, and its primary block is the result. */
  lemma UnpackedIsPacket(bytes: seq<Byte>, table: map<int, string>)
    requires Unpack(bytes, table).Some?
    ensures exists p :: Carries(bytes, table, p) && Unpack(bytes, table) == Some(p.primary)
  {
    PayloadPosition(bytes, 0, 0);
    var last := LastHeader(bytes, 0);
    var at := last + 1 + DeclaredLength(bytes, 0);
    var rs := HeaderChain(bytes, 0, 0, bytes[last + 1..at]);
    var p := Packet(rs, bytes[last], bytes[at..]);
    assert bytes == bytes[0..last] + [bytes[last]] + bytes[last + 1..at] + bytes[at..];
    assert Carries(bytes, table, p);
  }

  /** A packet unpacks exactly when it is well-formed to its end and its primary block is acceptable. */
  lemma UnpacksExactlyPackets(bytes: seq<Byte>, table: map<int, string>)
    ensures Unpack(bytes, table).Some? <==> exists p :: Carries(bytes, table, p)
  {
    if Unpack(bytes, table).Some? {
      UnpackedIsPacket(bytes, table);
    }
    if p :| Carries(bytes, table, p) {
      RedRoundTrip(p, table);
    }
  }

  // ---- What the codecs say of a frame ----

  predicate Usable(c: Codec) {
    c.payloadType.Some? && c.mimeType != ""
  }

  /** The codec is usable, and no usable one behind it has its payload type. */
  predicate Counts(codecs: seq<Codec>, k: nat)
    requires k < |codecs|
  {
    && Usable(codecs[k])
    && forall m | k < m < |codecs| && Usable(codecs[m]) :: codecs[m].payloadType != codecs[k].payloadType
  }

  /** The last usable codec of this payload type has this MIME type. */
  predicate Negotiates(codecs: seq<Codec>, payloadType: int, mimeType: string) {
    exists k | 0 <= k < |codecs| && Counts(codecs, k) :: codecs[k] == Codec(Some(payloadType), mimeType)
  }

  /** The frame itself names this MIME type, or names none and has a payload type negotiated for it. */
  predicate Says(metadata: Metadata, codecs: seq<Codec>, mimeType: string) {
    && mimeType != ""
    && (|| metadata.mimeType == mimeType
        || (metadata.mimeType == "" && metadata.payloadType.Some? && Negotiates(codecs, metadata.payloadType.value, mimeType)))
  }

  /** Nothing is said of a frame that can be: no codec is known, or all are Opus and the frame has no payload type. */
  ghost predicate Unmarked(metadata: Metadata, codecs: seq<Codec>) {
    && (forall mimeType :: !Says(metadata, codecs, mimeType))
    && (|| (forall c | c in codecs :: !Usable(c))
        || (&& metadata.payloadType.None?
            && (exists t :: Negotiates(codecs, t, "audio/opus"))
            && forall t, mimeType :: Negotiates(codecs, t, mimeType) ==> mimeType == "audio/opus"))
  }

  /** A primary block is Opus by its own type, or by no type at all while nothing else is Opus. */
  ghost predicate IsOpus(codecs: seq<Codec>, payloadType: int) {
    || Negotiates(codecs, payloadType, "audio/opus")
    || (&& (forall mimeType :: !Negotiates(codecs, payloadType, mimeType))
        && forall t :: !Negotiates(codecs, t, "audio/opus"))
  }

  ghost predicate Holds(bytes: seq<Byte>, codecs: seq<Codec>, payload: seq<Byte>) {
    exists p :: ValidPacket(p) && bytes == Encode(p) && p.primary == payload && payload != [] && IsOpus(codecs, p.primaryType)
  }

  lemma {:induction false} TableHolds(codecs: seq<Codec>, payloadType: int, mimeType: string)
    ensures Negotiates(codecs, payloadType, mimeType) <==>
            payloadType in Table(codecs) && Table(codecs)[payloadType] == mimeType && mimeType != ""
    decreases |codecs|
  {
    if codecs != [] {
      TableHolds(codecs[..|codecs| - 1], payloadType, mimeType);
      NegotiatesGrows(codecs, payloadType, mimeType);
      TableNamed(codecs[..|codecs| - 1]);
    }
  }

  /** The codecs without the last one negotiate the same, unless the last one is of this payload type. */
  lemma FrontNegotiates(codecs: seq<Codec>, payloadType: int, mimeType: string)
    requires codecs != [] && Negotiates(codecs[..|codecs| - 1], payloadType, mimeType)
    requires !Usable(codecs[|codecs| - 1]) || codecs[|codecs| - 1].payloadType != Some(payloadType)
    ensures Negotiates(codecs, payloadType, mimeType)
  {
    var front := codecs[..|codecs| - 1];
    var k :| 0 <= k < |front| && Counts(front, k) && front[k] == Codec(Some(payloadType), mimeType);
    CountsOn(codecs, k);
    assert codecs[k] == front[k];
  }

  lemma NegotiatedBefore(codecs: seq<Codec>, payloadType: int, mimeType: string)
    requires codecs != [] && Negotiates(codecs, payloadType, mimeType)
    ensures var front, last := codecs[..|codecs| - 1], codecs[|codecs| - 1];
            if Usable(last) && last.payloadType == Some(payloadType) then last.mimeType == mimeType
            else Negotiates(front, payloadType, mimeType)
  {
    var front := codecs[..|codecs| - 1];
    var k :| 0 <= k < |codecs| && Counts(codecs, k) && codecs[k] == Codec(Some(payloadType), mimeType);
    if k < |front| {
      CountsOn(codecs, k);
      assert front[k] == codecs[k];
    }
  }

  lemma NegotiatesGrows(codecs: seq<Codec>, payloadType: int, mimeType: string)
    requires codecs != []
    ensures var front, last := codecs[..|codecs| - 1], codecs[|codecs| - 1];
            Negotiates(codecs, payloadType, mimeType) <==>
              if Usable(last) && last.payloadType == Some(payloadType) then last.mimeType == mimeType
              else Negotiates(front, payloadType, mimeType)
  {
    var front, last := codecs[..|codecs| - 1], codecs[|codecs| - 1];
    if Negotiates(codecs, payloadType, mimeType) {
      NegotiatedBefore(codecs, payloadType, mimeType);
    } else if Usable(last) && last.payloadType == Some(payloadType) {
      assert Counts(codecs, |codecs| - 1);
    } else if Negotiates(front, payloadType, mimeType) {
      FrontNegotiates(codecs, payloadType, mimeType);
    }
  }

  lemma CountsOn(codecs: seq<Codec>, k: nat)
    requires k < |codecs| - 1
    ensures var front, last := codecs[..|codecs| - 1], codecs[|codecs| - 1];
            Counts(codecs, k) <==> Counts(front, k) && !(Usable(last) && last.payloadType == codecs[k].payloadType)
  {
    var front := codecs[..|codecs| - 1];
    assert forall m | 0 <= m < |front| :: front[m] == codecs[m];
  }

  lemma {:induction false} TableNamed(codecs: seq<Codec>)
    ensures forall t | t in Table(codecs) :: Table(codecs)[t] != ""
    decreases |codecs|
  {
    if codecs != [] {
      TableNamed(codecs[..|codecs| - 1]);
    }
  }

  lemma {:induction false} TableEmpty(codecs: seq<Codec>)
    ensures Table(codecs) == map[] <==> forall c | c in codecs :: !Usable(c)
    decreases |codecs|
  {
    if codecs != [] {
      var front, last := codecs[..|codecs| - 1], codecs[|codecs| - 1];
      TableEmpty(front);
      assert codecs == front + [last];
      if Usable(last) {
        assert last.payloadType.value in Table(codecs);
      }
    }
  }

  lemma OuterSays(metadata: Metadata, codecs: seq<Codec>, mimeType: string)
    requires mimeType != ""
    ensures OuterMimeType(metadata, Table(codecs)) == mimeType <==> Says(metadata, codecs, mimeType)
  {
    if metadata.payloadType.Some? {
      TableHolds(codecs, metadata.payloadType.value, mimeType);
    }
  }

  lemma NothingSaid(metadata: Metadata, codecs: seq<Codec>)
    ensures OuterMimeType(metadata, Table(codecs)) == "" <==> forall mimeType :: !Says(metadata, codecs, mimeType)
  {
    var outer := OuterMimeType(metadata, Table(codecs));
    forall mimeType | mimeType != "" ensures outer == mimeType <==> Says(metadata, codecs, mimeType) {
      OuterSays(metadata, codecs, mimeType);
    }
    if outer != "" {
      assert Says(metadata, codecs, outer);
    }
  }

  lemma KeyOf<T>(table: map<T, string>, value: string) returns (k: T)
    requires value in table.Values
    ensures k in table && table[k] == value
  {
    k :| k in table && table[k] == value;
  }

  lemma AllOpus(codecs: seq<Codec>)
    ensures Table(codecs).Values == {OPUS} <==>
            && (exists t :: Negotiates(codecs, t, OPUS))
            && forall t, mimeType :: Negotiates(codecs, t, mimeType) ==> mimeType == OPUS
  {
    var table := Table(codecs);
    TableNamed(codecs);
    forall t, mimeType ensures Negotiates(codecs, t, mimeType) <==> t in table && table[t] == mimeType && mimeType != "" {
      TableHolds(codecs, t, mimeType);
    }
    if (exists t :: Negotiates(codecs, t, OPUS)) && forall t, mimeType :: Negotiates(codecs, t, mimeType) ==> mimeType == OPUS {
      var t :| Negotiates(codecs, t, OPUS);
      assert t in table && table[t] == OPUS;
      forall v | v in table.Values ensures v == OPUS {
        var k := KeyOf(table, v);
        assert Negotiates(codecs, k, v);
      }
      assert table.Values == {OPUS};
    }
    if table.Values == {OPUS} {
      assert OPUS in table.Values;
      var k := KeyOf(table, OPUS);
      assert Negotiates(codecs, k, OPUS);
      forall t, mimeType | Negotiates(codecs, t, mimeType) ensures mimeType == OPUS {
        assert table[t] in table.Values;
      }
    }
  }

  lemma OpusAccepted(codecs: seq<Codec>, payloadType: int)
    ensures AcceptedPrimary(payloadType, Table(codecs)) <==> IsOpus(codecs, payloadType)
  {
    var table := Table(codecs);
    TableNamed(codecs);
    forall t, mimeType ensures Negotiates(codecs, t, mimeType) <==> t in table && table[t] == mimeType && mimeType != "" {
      TableHolds(codecs, t, mimeType);
    }
    if payloadType in table {
      assert Negotiates(codecs, payloadType, table[payloadType]);
    } else if OPUS in table.Values {
      var k := KeyOf(table, OPUS);
      assert Negotiates(codecs, k, OPUS);
    } else {
      forall t ensures !Negotiates(codecs, t, OPUS) {
        assert t in table ==> table[t] in table.Values;
      }
    }
  }

  lemma UnpacksHeld(bytes: seq<Byte>, codecs: seq<Codec>, payload: seq<Byte>)
    ensures Unpack(bytes, Table(codecs)) == Some(payload) <==> Holds(bytes, codecs, payload)
  {
    var table := Table(codecs);
    if Unpack(bytes, table) == Some(payload) {
      UnpackedIsPacket(bytes, table);
      var p :| Carries(bytes, table, p) && p.primary == payload;
      OpusAccepted(codecs, p.primaryType);
    }
    if Holds(bytes, codecs, payload) {
      var p :| ValidPacket(p) && bytes == Encode(p) && p.primary == payload && payload != [] && IsOpus(codecs, p.primaryType);
      OpusAccepted(codecs, p.primaryType);
      RedRoundTrip(p, table);
    }
  }

  /**
   A frame has an Opus payload exactly in three cases: it is said to be Opus, or is unmarked,
   and is that payload; or it is said to be redundant and holds it as its primary block.
   */
  lemma PayloadExactly(bytes: seq<Byte>, metadata: Metadata, codecs: seq<Codec>, payload: seq<Byte>)
    ensures PrimaryOpusPayload(bytes, metadata, codecs) == Some(payload) <==>
            || (payload == bytes && (Says(metadata, codecs, "audio/opus") || Unmarked(metadata, codecs)))
            || (Says(metadata, codecs, "audio/red") && Holds(bytes, codecs, payload))
  {
    OuterSays(metadata, codecs, OPUS);
    OuterSays(metadata, codecs, RED);
    NothingSaid(metadata, codecs);
    TableEmpty(codecs);
    AllOpus(codecs);
    UnpacksHeld(bytes, codecs, payload);
  }
}
