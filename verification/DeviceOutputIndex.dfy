/**
 The two device-output indexes of `browser-extension/src/meet-protocol.js`, against the
 plain log of the updates they received. The code compares stored objects by
 identity; here an object is known by the position of its update in the log.
 */
module DeviceOutputIndex {
  import opened Wrappers

  datatype Output = Output(deviceId: string, streamId: string, outputType: nat)

  /** A stored object: its identity and its fields. */
  datatype Indexed = Indexed(serial: nat, output: Output)

  type Key = (nat, string)

  datatype Tables = Tables(byDevice: map<Key, Indexed>, bySource: map<string, Indexed>)

  function KeyOf(o: Output): Key {
    (o.outputType, o.deviceId)
  }

  predicate Complete(o: Output) {
    o.deviceId != "" && o.streamId != "" && o.outputType != 0
  }

  // ---- One update ----

  predicate Removes(t: Tables, previous: Option<Indexed>, o: Output) {
    && previous.Some? && previous.value.output.streamId != o.streamId
    && previous.value.output.streamId in t.bySource
    && t.bySource[previous.value.output.streamId] == previous.value
  }

  function Previous(t: Tables, o: Output): Option<Indexed> {
    if KeyOf(o) in t.byDevice then Some(t.byDevice[KeyOf(o)]) else None
  }

  /** Drops the reverse alias of a device that moved to another stream. */
  function WithoutAlias(t: Tables, o: Output): Tables {
    var previous := Previous(t, o);
    if Removes(t, previous, o) then t.(bySource := t.bySource - {previous.value.output.streamId}) else t
  }

  /** Drops the device whose stream another one takes. */
  function WithoutDisplaced(t: Tables, previous: Option<Indexed>, o: Output): Tables {
    if o.streamId in t.bySource && Some(t.bySource[o.streamId]) != previous then
      var displaced := t.bySource[o.streamId];
      var key := KeyOf(displaced.output);
      if key in t.byDevice && t.byDevice[key] == displaced then t.(byDevice := t.byDevice - {key}) else t
    else t
  }

  function Index(t: Tables, serial: nat, o: Output): Tables {
    if !Complete(o) then t
    else
      var cleared := WithoutDisplaced(WithoutAlias(t, o), Previous(t, o), o);
      Tables(cleared.byDevice[KeyOf(o) := Indexed(serial, o)], cleared.bySource[o.streamId := Indexed(serial, o)])
  }

  /** The stream a device is leaving, if it had another one. */
  function StaleSource(t: Tables, o: Output): Option<string> {
    if Complete(o) && Previous(t, o).Some? && Previous(t, o).value.output.streamId != o.streamId
    then Some(Previous(t, o).value.output.streamId) else None
  }

  function IndexAll(log: seq<Output>): Tables {
    if log == [] then Tables(map[], map[])
    else Index(IndexAll(log[..|log| - 1]), |log| - 1, log[|log| - 1])
  }

  // ---- The naive replay of the log ----

  predicate Supersedes(later: Output, earlier: Output) {
    Complete(later) && (KeyOf(later) == KeyOf(earlier) || later.streamId == earlier.streamId)
  }

  /** The latest update of its device and type whose stream no later update took. */
  predicate Present(log: seq<Output>, i: nat) {
    i < |log| && Complete(log[i]) && forall j | i < j < |log| :: !Supersedes(log[j], log[i])
  }

  lemma PresentAfter(log: seq<Output>, o: Output, i: nat)
    ensures Present(log + [o], i) <==>
      if i == |log| then Complete(o) else Present(log, i) && !Supersedes(o, log[i])
  {
    var longer := log + [o];
    assert longer[|log|] == o;
    if i < |log| {
      assert forall j | i <= j < |log| :: longer[j] == log[j];
    }
  }

  // ---- Agreement ----

  predicate HoldsKey(t: Tables, log: seq<Output>, key: Key) {
    key in t.byDevice ==>
      var x := t.byDevice[key];
      && Present(log, x.serial) && x.output == log[x.serial] && KeyOf(x.output) == key
      && x.output.streamId in t.bySource && t.bySource[x.output.streamId] == x
  }

  predicate HoldsStream(t: Tables, log: seq<Output>, stream: string) {
    stream in t.bySource ==>
      var x := t.bySource[stream];
      && Present(log, x.serial) && x.output == log[x.serial] && x.output.streamId == stream
      && KeyOf(x.output) in t.byDevice && t.byDevice[KeyOf(x.output)] == x
  }

  predicate Found(t: Tables, log: seq<Output>, i: nat) {
    Present(log, i) ==>
      KeyOf(log[i]) in t.byDevice && t.byDevice[KeyOf(log[i])] == Indexed(i, log[i])
  }

  /** Both indexes hold exactly the present updates, and each is the inverse of the other. */
  ghost predicate Agrees(t: Tables, log: seq<Output>) {
    && (forall key :: HoldsKey(t, log, key))
    && (forall stream :: HoldsStream(t, log, stream))
    && (forall i: nat :: Found(t, log, i))
  }

  /** What one update does to either index, given that they are inverses. */
  lemma IndexEffect(t: Tables, log: seq<Output>, o: Output)
    requires Agrees(t, log) && Complete(o)
    ensures var t' := Index(t, |log|, o);
            && (forall key :: key in t'.byDevice <==>
                  key == KeyOf(o) || (key in t.byDevice && t.byDevice[key].output.streamId != o.streamId))
            && (forall key | key in t'.byDevice && key != KeyOf(o) :: t'.byDevice[key] == t.byDevice[key])
            && (forall stream :: stream in t'.bySource <==>
                  stream == o.streamId || (stream in t.bySource && KeyOf(t.bySource[stream].output) != KeyOf(o)))
            && (forall stream | stream in t'.bySource && stream != o.streamId :: t'.bySource[stream] == t.bySource[stream])
  {
    assert HoldsKey(t, log, KeyOf(o));
    assert HoldsStream(t, log, o.streamId);
    forall key | key in t.byDevice ensures HoldsKey(t, log, key) {
    }
    forall stream | stream in t.bySource ensures HoldsStream(t, log, stream) {
    }
  }

  lemma IndexAgrees(t: Tables, log: seq<Output>, o: Output)
    requires Agrees(t, log)
    ensures Agrees(Index(t, |log|, o), log + [o])
  {
    var t', longer := Index(t, |log|, o), log + [o];
    forall i: nat ensures Present(longer, i) <==>
      if i == |log| then Complete(o) else Present(log, i) && !Supersedes(o, log[i])
    {
      PresentAfter(log, o, i);
    }
    assert longer[|log|] == o;
    if Complete(o) {
      IndexEffect(t, log, o);
    }
    forall key ensures HoldsKey(t', longer, key) {
      assert HoldsKey(t, log, key);
    }
    forall stream ensures HoldsStream(t', longer, stream) {
      assert HoldsStream(t, log, stream);
    }
    forall i: nat ensures Found(t', longer, i) {
      assert Found(t, log, i);
    }
  }

  /** After any sequence of updates the indexes are inverses and equal the replay of the log. */
  lemma {:induction false} IndexesEqualReplay(log: seq<Output>)
    ensures Agrees(IndexAll(log), log)
    decreases |log|
  {
    if log == [] {
    } else {
      var front := log[..|log| - 1];
      IndexesEqualReplay(front);
      IndexAgrees(IndexAll(front), front, log[|log| - 1]);
      assert log == front + [log[|log| - 1]];
    }
  }

  /** A stream that its device left is unknown afterwards. */
  lemma StaleSourceIsGone(log: seq<Output>, o: Output)
    requires StaleSource(IndexAll(log), o).Some?
    ensures StaleSource(IndexAll(log), o).value !in Index(IndexAll(log), |log|, o).bySource
  {
    IndexesEqualReplay(log);
    assert HoldsKey(IndexAll(log), log, KeyOf(o));
    IndexEffect(IndexAll(log), log, o);
  }

  /** The two Maps, changed in place. */
  class Indexes {
    var byDevice: map<Key, Indexed>
    var bySource: map<string, Indexed>
    var updates: nat
    ghost var log: seq<Output>

    ghost predicate Valid()
      reads this
    {
      Tables(byDevice, bySource) == IndexAll(log) && updates == |log|
    }

    constructor ()
      ensures Valid() && log == []
    {
      byDevice, bySource, updates, log := map[], map[], 0, [];
    }

    method IndexDeviceOutput(o: Output) returns (stale: Option<string>)
      requires Valid()
      modifies this
      ensures Valid() && log == old(log) + [o]
      ensures stale == StaleSource(IndexAll(old(log)), o)
    {
      stale := None;
      log := log + [o];
      assert log[..|log| - 1] == old(log);
      updates := updates + 1;
      if o.deviceId == "" || o.streamId == "" || o.outputType == 0 {
        return;
      }
      var key := KeyOf(o);
      var previous := if key in byDevice then Some(byDevice[key]) else None;
      if previous.Some? && previous.value.output.streamId != o.streamId {
        stale := Some(previous.value.output.streamId);
        if stale.value in bySource && bySource[stale.value] == previous.value {
          bySource := bySource - {stale.value};
        }
      }
      var indexed := Indexed(updates - 1, o);
      if o.streamId in bySource && Some(bySource[o.streamId]) != previous {
        var displaced := bySource[o.streamId];
        var displacedKey := KeyOf(displaced.output);
        if displacedKey in byDevice && byDevice[displacedKey] == displaced {
          byDevice := byDevice - {displacedKey};
        }
      }
      byDevice := byDevice[key := indexed];
      bySource := bySource[o.streamId := indexed];
    }
  }
}
