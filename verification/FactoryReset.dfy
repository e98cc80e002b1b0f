/**
 The crash-safe factory reset of `src-tauri/src/factory_reset.rs`, over a modelled disk.
 A reset is a list of file operations; a launch can stop before, within or after any of
 them, by a crash or by an error.
 */
module FactoryReset {
  import opened Wrappers

  type Path = seq<string>

  /** `Request` is a file that reads as a reset request, `Text` any other file. */
  datatype Content = Directory | Request(modelDirectories: seq<Path>) | Text(text: string)

  type Disk = map<Path, Content>

  datatype Locations = Locations(configDir: Path, meetings: Path) {
    function Config(): Path { configDir + ["config.toml"] }
    function ConfigTmp(): Path { configDir + ["config.toml.tmp"] }
    function Pending(): Path { configDir + ["factory-reset.pending.json"] }
    function PendingTmp(): Path { configDir + ["factory-reset.pending.json.tmp"] }
    function Completed(): Path { configDir + ["factory-reset.completed"] }

    /** Production layout: `meetings` is a directory of that name that does not hold the configuration. */
    predicate Apart() { meetings != [] && meetings[|meetings| - 1] == "meetings" && !(meetings <= configDir) }
  }

  const DONE := Text("completed\n")

  // ---- Operations ----

  datatype Op =
    | RemoveFile(file: Path)
    | RemoveTree(root: Path)
    | WriteFile(target: Path, content: Content)
    | Restrict(restricted: Path)
    | Rename(source: Path, destination: Path)
    | CreateDirs(directory: Path)

  function Ancestors(p: Path): set<Path> {
    set i | 0 <= i <= |p| :: p[..i]
  }

  predicate IsFile(d: Disk, p: Path) {
    p in d && d[p] != Directory
  }

  predicate CanDo(op: Op, d: Disk) {
    match op
    case RemoveFile(p) => p in d ==> d[p] != Directory
    case RemoveTree(p) => p in d ==> d[p] == Directory
    case WriteFile(p, _) => p in d ==> d[p] != Directory
    case Restrict(p) => p in d
    case Rename(p, q) => IsFile(d, p) && (q in d ==> d[q] != Directory)
    case CreateDirs(p) => forall q | q in Ancestors(p) && q in d :: d[q] == Directory
  }

  function Do(op: Op, d: Disk): Disk {
    match op
    case RemoveFile(p) => d - {p}
    case RemoveTree(p) => map q | q in d && !(p <= q) :: d[q]
    case WriteFile(p, c) => d[p := c]
    case Restrict(p) => d
    case Rename(p, q) => if p in d then (d - {p})[q := d[p]] else d
    case CreateDirs(p) => d + map q | q in Ancestors(p) && q !in d :: Directory
  }

  /**
   What an operation that did not end can leave: removals and renames of one file are
   atomic, a tree can be gone in part, a file can be written in part.
   */
  ghost predicate Partly(op: Op, d: Disk, d': Disk) {
    d' == d ||
    match op
    case RemoveTree(p) =>
      && (forall q | q in d' :: q in d && d'[q] == d[q])
      && (forall q | q in d && !(p <= q) :: q in d')
    case WriteFile(p, _) => CanDo(op, d) && p in d' && d'[p] != Directory && d' == d[p := d'[p]]
    case CreateDirs(p) =>
      && (forall q | q in d :: q in d' && d'[q] == d[q])
      && (forall q | q in d' && q !in d :: q in Ancestors(p) && d'[q] == Directory)
    case _ => CanDo(op, d) && d' == Do(op, d)
  }

  function DoAll(ops: seq<Op>, d: Disk): Disk {
    if ops == [] then d else Do(ops[|ops| - 1], DoAll(ops[..|ops| - 1], d))
  }

  predicate CanDoAll(ops: seq<Op>, d: Disk) {
    ops != [] ==> CanDoAll(ops[..|ops| - 1], d) && CanDo(ops[|ops| - 1], DoAll(ops[..|ops| - 1], d))
  }

  /** Doing `ops` from `d` stopped somewhere and left `d'`. */
  ghost predicate Stops(ops: seq<Op>, d: Disk, d': Disk) {
    ops != [] &&
    (|| Stops(ops[..|ops| - 1], d, d')
     || (CanDoAll(ops[..|ops| - 1], d) && Partly(ops[|ops| - 1], DoAll(ops[..|ops| - 1], d), d')))
  }

  lemma {:induction false} Compose(xs: seq<Op>, ys: seq<Op>, d: Disk, d': Disk)
    ensures DoAll(xs + ys, d) == DoAll(ys, DoAll(xs, d))
    ensures CanDoAll(xs + ys, d) <==> CanDoAll(xs, d) && CanDoAll(ys, DoAll(xs, d))
    ensures Stops(xs, d, d') ==> Stops(xs + ys, d, d')
    ensures CanDoAll(xs, d) && Stops(ys, DoAll(xs, d), d') ==> Stops(xs + ys, d, d')
    decreases |ys|
  {
    if ys == [] {
      assert xs + ys == xs;
    } else {
      assert (xs + ys)[..|xs + ys| - 1] == xs + ys[..|ys| - 1];
      Compose(xs, ys[..|ys| - 1], d, d');
    }
  }

  lemma Unfold(ops: seq<Op>, k: nat, d: Disk, d': Disk)
    requires k < |ops|
    ensures DoAll(ops[..0], d) == d
    ensures DoAll(ops[..k + 1], d) == Do(ops[k], DoAll(ops[..k], d))
    ensures CanDoAll(ops[..k + 1], d) <==> CanDoAll(ops[..k], d) && CanDo(ops[k], DoAll(ops[..k], d))
    ensures Stops(ops[..k + 1], d, d') <==>
              Stops(ops[..k], d, d') || (CanDoAll(ops[..k], d) && Partly(ops[k], DoAll(ops[..k], d), d'))
  {
    assert ops[..k + 1][..k] == ops[..k];
  }

  // ---- What a reset does ----

  const STEMS: seq<string> := [
    "ggml-tiny", "ggml-base", "ggml-small", "ggml-medium", "ggml-large-v3-turbo", "ggml-large-v3-turbo-q5_0",
    "ggml-large-v3", "ggml-large-v3-q5_0", "ggml-large-v3-q8_0", "ggml-large-v3-turbo-latam",
    "ggml-large-v3-turbo-latam-q5_0"]

  /** The weights of a model, its partial download, and what an interrupted move left of either. */
  function NamesOf(stem: string): seq<string> {
    [stem + ".bin", stem + ".part", stem + ".bin.kuali-moving", stem + ".part.kuali-moving"]
  }

  function Files(dir: Path, names: seq<string>): seq<Path> {
    seq(|names|, i requires 0 <= i < |names| => dir + [names[i]])
  }

  function FilesOfModels(dir: Path, stems: seq<string>): seq<Path> {
    if stems == [] then []
    else FilesOfModels(dir, stems[..|stems| - 1]) + Files(dir, NamesOf(stems[|stems| - 1]))
  }

  function Weights(dirs: seq<Path>): seq<Path> {
    if dirs == [] then [] else Weights(dirs[..|dirs| - 1]) + FilesOfModels(dirs[|dirs| - 1], STEMS)
  }

  function Removals(paths: seq<Path>): seq<Op> {
    seq(|paths|, i requires 0 <= i < |paths| => RemoveFile(paths[i]))
  }

  function RemovingOps(l: Locations, dirs: seq<Path>): seq<Op> {
    [RemoveFile(l.Config()), RemoveFile(l.ConfigTmp()), RemoveTree(l.meetings)] + Removals(Weights(dirs))
  }

  /** Everything before the removal of the request. */
  function ErasingOps(l: Locations, dirs: seq<Path>): seq<Op> {
    RemovingOps(l, dirs) + [WriteFile(l.Completed(), DONE), Restrict(l.Completed())]
  }

  function ResetOps(l: Locations, dirs: seq<Path>): seq<Op> {
    ErasingOps(l, dirs) + [RemoveFile(l.Pending())]
  }

  function ScheduleOps(l: Locations, dirs: seq<Path>): seq<Op> {
    [CreateDirs(l.configDir), RemoveFile(l.Completed()), WriteFile(l.PendingTmp(), Request(dirs)),
     Restrict(l.PendingTmp()), RemoveFile(l.Pending()), Rename(l.PendingTmp(), l.Pending())]
  }

  // ---- What a reset must leave ----

  predicate OfficialName(name: string) {
    exists stem :: stem in STEMS && name in NamesOf(stem)
  }

  /** A Whisper weight, by name, directly in one of the directories. */
  predicate IsWeight(dirs: seq<Path>, q: Path) {
    q != [] && q[..|q| - 1] in dirs && OfficialName(q[|q| - 1])
  }

  predicate Owned(l: Locations, dirs: seq<Path>, q: Path) {
    q == l.Config() || q == l.ConfigTmp() || l.meetings <= q || IsWeight(dirs, q)
  }

  /** The disk after a reset: what Kuali owns and the request are gone, the rest is as before. */
  function AfterReset(l: Locations, dirs: seq<Path>, d: Disk): Disk {
    (map q | q in d && !Owned(l, dirs, q) && q != l.Pending() :: d[q])[l.Completed() := DONE]
  }

  lemma {:induction false} FilesOfModelsAre(dir: Path, stems: seq<string>, q: Path)
    ensures q in FilesOfModels(dir, stems) <==>
            q != [] && q[..|q| - 1] == dir && exists stem :: stem in stems && q[|q| - 1] in NamesOf(stem)
  {
    if stems != [] {
      var front, last := stems[..|stems| - 1], stems[|stems| - 1];
      FilesOfModelsAre(dir, front, q);
      var own := Files(dir, NamesOf(last));
      assert q in own <==> q != [] && q[..|q| - 1] == dir && q[|q| - 1] in NamesOf(last) by {
        if q in own {
          var i :| 0 <= i < |own| && q == own[i];
          assert q[..|q| - 1] == dir && q[|q| - 1] == NamesOf(last)[i];
        }
        if q != [] && q[..|q| - 1] == dir && q[|q| - 1] in NamesOf(last) {
          var i :| 0 <= i < |own| && q[|q| - 1] == NamesOf(last)[i];
          assert q == dir + [q[|q| - 1]] == own[i];
        }
      }
      assert stems == front + [last];
    }
  }

  /** Only official names directly in a listed directory count as weights, and all of them do. */
  lemma {:induction false} WeightsAre(dirs: seq<Path>, q: Path)
    ensures q in Weights(dirs) <==> IsWeight(dirs, q)
  {
    if dirs != [] {
      WeightsAre(dirs[..|dirs| - 1], q);
      FilesOfModelsAre(dirs[|dirs| - 1], STEMS, q);
      assert dirs == dirs[..|dirs| - 1] + [dirs[|dirs| - 1]];
    }
  }

  // ---- Which paths an operation changes ----

  predicate Removes(op: Op, q: Path) {
    match op
    case RemoveFile(p) => p == q
    case RemoveTree(p) => p <= q
    case Rename(p, _) => p == q
    case _ => false
  }

  predicate Adds(op: Op, q: Path) {
    match op
    case WriteFile(p, _) => p == q
    case Rename(_, p) => p == q
    case CreateDirs(p) => q in Ancestors(p)
    case _ => false
  }

  predicate Same(d: Disk, d': Disk, q: Path) {
    (q in d <==> q in d') && (q in d ==> d[q] == d'[q])
  }

  lemma SameEverywhere(d: Disk, d': Disk)
    requires forall q: Path :: Same(d, d', q)
    ensures d == d'
  {
    assert forall q | q in d :: Same(d, d', q);
    assert forall q | q in d' :: Same(d, d', q);
  }

  lemma UntouchedByOne(op: Op, d: Disk, d': Disk, q: Path)
    requires !Removes(op, q) && !Adds(op, q)
    requires d' == Do(op, d) || Partly(op, d, d')
    ensures Same(d, d', q)
  {
  }

  lemma {:induction false} Untouched(ops: seq<Op>, d: Disk, d': Disk, q: Path)
    requires forall op | op in ops :: !Removes(op, q) && !Adds(op, q)
    requires d' == DoAll(ops, d) || Stops(ops, d, d')
    ensures Same(d, d', q)
    decreases |ops|
  {
    if ops != [] {
      var front, last := ops[..|ops| - 1], ops[|ops| - 1];
      Untouched(front, d, DoAll(front, d), q);
      if Stops(front, d, d') {
        Untouched(front, d, d', q);
      } else {
        UntouchedByOne(last, DoAll(front, d), d', q);
      }
    }
  }

  lemma KeptByOne(op: Op, d: Disk, q: Path)
    requires !Adds(op, q)
    ensures q in Do(op, d) <==> q in d && !Removes(op, q)
    ensures q in Do(op, d) ==> Do(op, d)[q] == d[q]
  {
  }

  /** Operations that never add `q` keep it exactly if none of them removes it. */
  lemma {:induction false} KeptUnlessRemoved(ops: seq<Op>, d: Disk, q: Path)
    requires forall op | op in ops :: !Adds(op, q)
    ensures q in DoAll(ops, d) <==> q in d && forall op | op in ops :: !Removes(op, q)
    ensures q in DoAll(ops, d) ==> DoAll(ops, d)[q] == d[q]
  {
    if ops != [] {
      KeptUnlessRemoved(ops[..|ops| - 1], d, q);
      KeptByOne(ops[|ops| - 1], DoAll(ops[..|ops| - 1], d), q);
      assert ops == ops[..|ops| - 1] + [ops[|ops| - 1]];
    }
  }

  lemma OfficialNamesStart(name: string)
    requires OfficialName(name)
    ensures name != [] && name[0] == 'g'
  {
    var stem :| stem in STEMS && name in NamesOf(stem);
    assert forall i | 0 <= i < |STEMS| :: |STEMS[i]| > 0 && STEMS[i][0] == 'g';
    assert stem[0] == 'g';
  }

  lemma BesideTheConfiguration(l: Locations, name: string)
    requires l.Apart() && l.meetings <= l.configDir + [name]
    ensures name == "meetings"
  {
    var q := l.configDir + [name];
    assert |l.meetings| == |q|;
  }

  lemma OtherNames(l: Locations, dirs: seq<Path>, name: string)
    requires l.Apart() && name != [] && name[0] == 'f'
    ensures !Owned(l, dirs, l.configDir + [name])
  {
    var q := l.configDir + [name];
    assert q[|q| - 1] == name;
    assert l.Config()[|q| - 1][0] == 'c' && l.ConfigTmp()[|q| - 1][0] == 'c';
    if IsWeight(dirs, q) {
      OfficialNamesStart(name);
    }
    if l.meetings <= q {
      BesideTheConfiguration(l, name);
    }
  }

  /** The request and the completion marker are not among the things a reset erases. */
  lemma MarkersAreNotOwned(l: Locations, dirs: seq<Path>)
    requires l.Apart()
    ensures !Owned(l, dirs, l.Pending()) && !Owned(l, dirs, l.Completed()) && l.Pending() != l.Completed()
  {
    OtherNames(l, dirs, "factory-reset.pending.json");
    OtherNames(l, dirs, "factory-reset.completed");
    assert l.Pending()[|l.configDir|][14] != l.Completed()[|l.configDir|][14];
  }

  lemma RemovalsRemove(paths: seq<Path>, q: Path)
    ensures SomeRemoves(Removals(paths), q) <==> q in paths
    ensures forall op | op in Removals(paths) :: op.RemoveFile? && !Adds(op, q)
  {
    if q in paths {
      var i :| 0 <= i < |paths| && paths[i] == q;
      assert Removals(paths)[i] == RemoveFile(q);
      assert RemoveFile(q) in Removals(paths) && Removes(RemoveFile(q), q);
    }
    if op :| op in Removals(paths) && Removes(op, q) {
      var i :| 0 <= i < |paths| && op == Removals(paths)[i];
      assert paths[i] == q;
    }
  }

  predicate SomeRemoves(ops: seq<Op>, q: Path) {
    exists op :: op in ops && Removes(op, q)
  }

  predicate SomeAdds(ops: seq<Op>, q: Path) {
    exists op :: op in ops && Adds(op, q)
  }

  lemma SomeInEither(xs: seq<Op>, ys: seq<Op>, q: Path)
    ensures SomeRemoves(xs + ys, q) <==> SomeRemoves(xs, q) || SomeRemoves(ys, q)
    ensures SomeAdds(xs + ys, q) <==> SomeAdds(xs, q) || SomeAdds(ys, q)
  {
    assert forall op :: op in xs + ys <==> op in xs || op in ys;
  }

  lemma SomeInOne(op: Op, q: Path)
    ensures SomeRemoves([op], q) <==> Removes(op, q)
    ensures SomeAdds([op], q) <==> Adds(op, q)
  {
    assert op in [op];
  }

  /** The operations before the removal of the request add only the completion marker, and remove what Kuali owns. */
  lemma ErasingTouches(l: Locations, dirs: seq<Path>, q: Path)
    ensures SomeRemoves(ErasingOps(l, dirs), q) <==> Owned(l, dirs, q)
    ensures SomeAdds(ErasingOps(l, dirs), q) <==> q == l.Completed()
  {
    var c, t, m := RemoveFile(l.Config()), RemoveFile(l.ConfigTmp()), RemoveTree(l.meetings);
    var w, r := WriteFile(l.Completed(), DONE), Restrict(l.Completed());
    var removals := Removals(Weights(dirs));
    assert ErasingOps(l, dirs) == [c] + [t] + [m] + removals + [w] + [r];
    SomeInEither([c], [t], q);
    SomeInEither([c] + [t], [m], q);
    SomeInEither([c] + [t] + [m], removals, q);
    SomeInEither([c] + [t] + [m] + removals, [w], q);
    SomeInEither([c] + [t] + [m] + removals + [w], [r], q);
    SomeInOne(c, q);
    SomeInOne(t, q);
    SomeInOne(m, q);
    SomeInOne(w, q);
    SomeInOne(r, q);
    WeightsAre(dirs, q);
    RemovalsRemove(Weights(dirs), q);
  }

  // ---- An uninterrupted reset ----

  lemma ErasedDisk(l: Locations, dirs: seq<Path>, d: Disk)
    requires l.Apart()
    ensures l.Completed() in DoAll(ErasingOps(l, dirs), d) && DoAll(ErasingOps(l, dirs), d)[l.Completed()] == DONE
  {
    var tail := [WriteFile(l.Completed(), DONE), Restrict(l.Completed())];
    Compose(RemovingOps(l, dirs), tail, d, d);
    assert tail[..1] == [WriteFile(l.Completed(), DONE)];
    assert tail[..1][..0] == [];
  }

  /** The operations of a reset, done in order, leave exactly the disk a reset must leave. */
  lemma ResetLeaves(l: Locations, dirs: seq<Path>, d: Disk)
    requires l.Apart()
    ensures DoAll(ResetOps(l, dirs), d) == AfterReset(l, dirs, d)
  {
    var ops := ErasingOps(l, dirs);
    var erased, done := DoAll(ops, d), DoAll(ResetOps(l, dirs), d);
    assert ResetOps(l, dirs)[..|ops|] == ops;
    assert done == erased - {l.Pending()};
    ErasedDisk(l, dirs, d);
    MarkersAreNotOwned(l, dirs);
    forall q: Path ensures Same(done, AfterReset(l, dirs, d), q) {
      if q != l.Completed() {
        ErasingTouches(l, dirs, q);
        KeptUnlessRemoved(ops, d, q);
      }
    }
    SameEverywhere(done, AfterReset(l, dirs, d));
  }

  // ---- Interrupted resets ----

  /** The request still stands, and nothing differs but what the reset owns and the completion marker. */
  ghost predicate Unfinished(l: Locations, dirs: seq<Path>, d: Disk, d': Disk) {
    && l.Pending() in d' && d'[l.Pending()] == Request(dirs)
    && forall q: Path :: Owned(l, dirs, q) || q == l.Completed() || Same(d, d', q)
  }

  /** A directory stands where nothing was. */
  predicate Made(d: Disk, d': Disk, q: Path) {
    q !in d && q in d' && d'[q] == Directory
  }

  /** The same, but directories may have been made: a launch that fails to reset makes those it needs. */
  ghost predicate InUse(l: Locations, dirs: seq<Path>, d: Disk, d': Disk) {
    && l.Pending() in d' && d'[l.Pending()] == Request(dirs)
    && forall q: Path :: Owned(l, dirs, q) || q == l.Completed() || Same(d, d', q) || Made(d, d', q)
  }

  /** Nothing but new directories distinguishes `d'` from `d`. */
  ghost predicate Grown(d: Disk, d': Disk) {
    forall q: Path :: Same(d, d', q) || Made(d, d', q)
  }

  lemma InUseResetsAlike(l: Locations, dirs: seq<Path>, d: Disk, d': Disk)
    requires l.Apart() && InUse(l, dirs, d, d') && l.Pending() in d
    ensures Grown(AfterReset(l, dirs, d), AfterReset(l, dirs, d'))
  {
    var a, a' := AfterReset(l, dirs, d), AfterReset(l, dirs, d');
    forall q: Path ensures Same(a, a', q) || Made(a, a', q) {
      assert Owned(l, dirs, q) || q == l.Completed() || Same(d, d', q) || Made(d, d', q);
    }
  }

  /** Wherever a reset stops, either the request still stands or everything is done. */
  lemma StoppedReset(l: Locations, dirs: seq<Path>, d: Disk, d': Disk)
    requires l.Apart() && l.Pending() in d && d[l.Pending()] == Request(dirs)
    requires Stops(ResetOps(l, dirs), d, d')
    ensures Unfinished(l, dirs, d, d') || d' == AfterReset(l, dirs, d)
  {
    var ops := ErasingOps(l, dirs);
    assert ResetOps(l, dirs)[..|ops|] == ops;
    ResetLeaves(l, dirs, d);
    MarkersAreNotOwned(l, dirs);
    if d' != AfterReset(l, dirs, d) {
      assert d' == DoAll(ops, d) || Stops(ops, d, d');
      forall q: Path ensures Owned(l, dirs, q) || q == l.Completed() || Same(d, d', q) {
        if !Owned(l, dirs, q) && q != l.Completed() {
          ErasingTouches(l, dirs, q);
          Untouched(ops, d, d', q);
        }
      }
      assert Same(d, d', l.Pending());
    }
  }

  // ---- Any number of launches ----

  predicate Scheduled(l: Locations, d: Disk) {
    l.Pending() in d && d[l.Pending()].Request?
  }

  /** What one launch whose reset runs to the end leaves. */
  function Complete(l: Locations, d: Disk): Disk {
    if Scheduled(l, d) then DoAll(ResetOps(l, d[l.Pending()].modelDirectories), d) else d
  }

  /**
   From one moment to a later one while a reset is due: a launch stops somewhere in the
   reset, or Kuali runs with the reset unfinished, makes the directories it needs and
   writes files of its own.
   */
  ghost predicate Passes(l: Locations, d: Disk, d': Disk) {
    if Scheduled(l, d) then
      var dirs := d[l.Pending()].modelDirectories;
      Stops(ResetOps(l, dirs), d, d') || InUse(l, dirs, d, d')
    else d' == d
  }

  /**
   Crash safety: through any number of interrupted launches, with Kuali in use between
   them, the request is whole until everything is done; and one launch that runs to the end
   then leaves what one uninterrupted reset would have left at the start, but for
   directories made since.
   */
  lemma {:induction false} CrashSafety(l: Locations, moments: seq<Disk>)
    requires l.Apart() && moments != [] && Scheduled(l, moments[0])
    requires forall i | 0 <= i < |moments| - 1 :: Passes(l, moments[i], moments[i + 1])
    ensures var dirs, last := moments[0][l.Pending()].modelDirectories, moments[|moments| - 1];
            && (InUse(l, dirs, moments[0], last) || (!Scheduled(l, last) && Grown(AfterReset(l, dirs, moments[0]), last)))
            && Grown(AfterReset(l, dirs, moments[0]), Complete(l, last))
  {
    var dirs, n := moments[0][l.Pending()].modelDirectories, |moments| - 1;
    ResetLeaves(l, dirs, moments[0]);
    MarkersAreNotOwned(l, dirs);
    if n > 0 {
      var front := moments[..n];
      forall i | 0 <= i < |front| - 1 ensures Passes(l, front[i], front[i + 1]) {
        assert Passes(l, moments[i], moments[i + 1]);
      }
      CrashSafety(l, front);
      assert Passes(l, moments[n - 1], moments[n - 1 + 1]);
      OneMorePass(l, dirs, moments[0], moments[n - 1], moments[n]);
    }
  }

  /** One more launch, from a reset still due or from a finished one. */
  lemma OneMorePass(l: Locations, dirs: seq<Path>, first: Disk, d: Disk, d': Disk)
    requires l.Apart() && Scheduled(l, first) && first[l.Pending()] == Request(dirs) && Passes(l, d, d')
    requires InUse(l, dirs, first, d) || (!Scheduled(l, d) && Grown(AfterReset(l, dirs, first), d))
    ensures var reset := AfterReset(l, dirs, first);
            && (InUse(l, dirs, first, d') || (!Scheduled(l, d') && Grown(reset, d')))
            && Grown(reset, Complete(l, d'))
  {
    if InUse(l, dirs, first, d) {
      InUseResetsAlike(l, dirs, first, d);
      MarkersAreNotOwned(l, dirs);
      if InUse(l, dirs, d, d') {
        InUseChains(l, dirs, first, d, d');
      } else {
        StoppedReset(l, dirs, d, d');
        if Unfinished(l, dirs, d, d') {
          UnfinishedIsInUse(l, dirs, d, d');
          InUseChains(l, dirs, first, d, d');
        }
      }
      if InUse(l, dirs, first, d') {
        InUseResetsAlike(l, dirs, first, d');
        ResetLeaves(l, dirs, d');
      }
    }
  }

  lemma UnfinishedIsInUse(l: Locations, dirs: seq<Path>, d: Disk, d': Disk)
    requires Unfinished(l, dirs, d, d')
    ensures InUse(l, dirs, d, d')
  {
    forall q: Path ensures Owned(l, dirs, q) || q == l.Completed() || Same(d, d', q) || Made(d, d', q) {
      assert Owned(l, dirs, q) || q == l.Completed() || Same(d, d', q);
    }
  }

  lemma InUseChains(l: Locations, dirs: seq<Path>, a: Disk, b: Disk, c: Disk)
    requires InUse(l, dirs, a, b) && InUse(l, dirs, b, c)
    ensures InUse(l, dirs, a, c)
  {
    forall q: Path ensures Owned(l, dirs, q) || q == l.Completed() || Same(a, c, q) || Made(a, c, q) {
      assert Owned(l, dirs, q) || q == l.Completed() || Same(a, b, q) || Made(a, b, q);
      assert Owned(l, dirs, q) || q == l.Completed() || Same(b, c, q) || Made(b, c, q);
    }
  }

  /** The request is gone only when the configuration, the meetings and the weights are, and the marker is written. */
  lemma RequestGoesLast(l: Locations, dirs: seq<Path>, d: Disk, d': Disk)
    requires l.Apart() && l.Pending() in d && d[l.Pending()] == Request(dirs)
    requires Stops(ResetOps(l, dirs), d, d') && l.Pending() !in d'
    ensures l.Completed() in d' && d'[l.Completed()] == DONE
    ensures forall q | q in d' :: !Owned(l, dirs, q)
    ensures forall q | q in d && q != l.Pending() && q != l.Completed() && !Owned(l, dirs, q) :: q in d' && d'[q] == d[q]
  {
    StoppedReset(l, dirs, d, d');
    MarkersAreNotOwned(l, dirs);
  }

  // ---- An interruption never makes a reset impossible ----

  /** `d'` has no entry, but for a completion marker, that `d` has not. */
  ghost predicate Below(l: Locations, d: Disk, d': Disk) {
    && (forall q | q in d' && q != l.Completed() :: q in d && d[q] == d'[q])
    && (l.Completed() in d' && d'[l.Completed()] == Directory ==> l.Completed() in d && d[l.Completed()] == Directory)
  }

  lemma RemovingOpsOnlyRemove(l: Locations, dirs: seq<Path>)
    requires l.Apart()
    ensures forall op | op in RemovingOps(l, dirs) ::
              (op.RemoveFile? && op.file != l.Completed()) || (op.RemoveTree? && op.root != l.Completed())
  {
    MarkersAreNotOwned(l, dirs);
    ErasingTouches(l, dirs, l.Completed());
    forall op | op in RemovingOps(l, dirs)
      ensures (op.RemoveFile? && op.file != l.Completed()) || (op.RemoveTree? && op.root != l.Completed())
    {
      assert op in ErasingOps(l, dirs) && !Removes(op, l.Completed());
      RemovalsRemove(Weights(dirs), l.Completed());
    }
  }

  lemma {:induction false} StopLeavesLess(l: Locations, ops: seq<Op>, d: Disk, d': Disk)
    requires forall op | op in ops :: op.RemoveFile? || op.RemoveTree? || op == WriteFile(l.Completed(), DONE) || op.Restrict?
    requires d' == DoAll(ops, d) || Stops(ops, d, d')
    ensures Below(l, d, d')
    decreases |ops|
  {
    if ops != [] {
      var front, last := ops[..|ops| - 1], ops[|ops| - 1];
      StopLeavesLess(l, front, d, DoAll(front, d));
      if Stops(front, d, d') {
        StopLeavesLess(l, front, d, d');
      } else {
        assert last in ops;
        assert Partly(last, DoAll(front, d), d') || d' == Do(last, DoAll(front, d));
      }
    }
  }

  lemma {:induction false} RemovalsStayPossible(l: Locations, ops: seq<Op>, d: Disk, d': Disk)
    requires forall op | op in ops :: (op.RemoveFile? && op.file != l.Completed()) || (op.RemoveTree? && op.root != l.Completed())
    requires Below(l, d, d') && CanDoAll(ops, d)
    ensures CanDoAll(ops, d') && Below(l, DoAll(ops, d), DoAll(ops, d'))
    decreases |ops|
  {
    if ops != [] {
      RemovalsStayPossible(l, ops[..|ops| - 1], d, d');
      assert ops[|ops| - 1] in ops;
    }
  }

  function MarkingOps(l: Locations): seq<Op> {
    [WriteFile(l.Completed(), DONE), Restrict(l.Completed()), RemoveFile(l.Pending())]
  }

  lemma MarkingIsPossible(l: Locations, e: Disk)
    requires l.Pending() != l.Completed()
    ensures CanDoAll(MarkingOps(l), e) <==> CanDo(MarkingOps(l)[0], e) && CanDo(MarkingOps(l)[2], e)
  {
    var tail := MarkingOps(l);
    Unfold(tail, 0, e, e);
    Unfold(tail, 1, e, e);
    Unfold(tail, 2, e, e);
    assert tail[..3] == tail;
    assert DoAll(tail[..2], e) == e[l.Completed() := DONE];
  }

  /** A reset is possible if its removals are, and then writing the marker and removing the request. */
  lemma ResetIsPossible(l: Locations, dirs: seq<Path>, e: Disk)
    requires l.Pending() != l.Completed()
    ensures var removed := DoAll(RemovingOps(l, dirs), e);
            CanDoAll(ResetOps(l, dirs), e) <==>
            CanDoAll(RemovingOps(l, dirs), e) && CanDo(MarkingOps(l)[0], removed) && CanDo(MarkingOps(l)[2], removed)
  {
    assert ResetOps(l, dirs) == RemovingOps(l, dirs) + MarkingOps(l);
    Compose(RemovingOps(l, dirs), MarkingOps(l), e, e);
    MarkingIsPossible(l, DoAll(RemovingOps(l, dirs), e));
  }

  lemma StoppedResetLeavesLess(l: Locations, dirs: seq<Path>, d: Disk, d': Disk)
    requires l.Apart() && Stops(ResetOps(l, dirs), d, d')
    ensures Below(l, d, d')
  {
    var ops := ResetOps(l, dirs);
    RemovingOpsOnlyRemove(l, dirs);
    forall op | op in ops ensures op.RemoveFile? || op.RemoveTree? || op == WriteFile(l.Completed(), DONE) || op.Restrict? {
      assert op in RemovingOps(l, dirs) || op in MarkingOps(l);
    }
    StopLeavesLess(l, ops, d, d');
  }

  /** If a reset could have run to the end, it still can after it was stopped anywhere. */
  lemma InterruptionNeverBlocks(l: Locations, dirs: seq<Path>, d: Disk, d': Disk)
    requires l.Apart() && CanDoAll(ResetOps(l, dirs), d) && Stops(ResetOps(l, dirs), d, d')
    ensures CanDoAll(ResetOps(l, dirs), d')
  {
    MarkersAreNotOwned(l, dirs);
    ResetIsPossible(l, dirs, d);
    ResetIsPossible(l, dirs, d');
    RemovingOpsOnlyRemove(l, dirs);
    StoppedResetLeavesLess(l, dirs, d, d');
    RemovalsStayPossible(l, RemovingOps(l, dirs), d, d');
  }

  // ---- When a reset is possible ----

  predicate IsDirectory(d: Disk, p: Path) {
    p in d && d[p] == Directory
  }

  /** Nothing stands in the way of a reset: no directory at the place of a file, and no file at that of the meetings. */
  ghost predicate Resettable(l: Locations, dirs: seq<Path>, d: Disk) {
    && !IsDirectory(d, l.Config()) && !IsDirectory(d, l.ConfigTmp())
    && !IsDirectory(d, l.Completed()) && !IsDirectory(d, l.Pending())
    && (l.meetings in d ==> IsDirectory(d, l.meetings))
    && forall q | IsWeight(dirs, q) && !(l.meetings <= q) :: !IsDirectory(d, q)
  }

  lemma {:induction false} RemovalsPossible(paths: seq<Path>, d: Disk)
    ensures CanDoAll(Removals(paths), d) <==> forall p | p in paths :: !IsDirectory(d, p)
    ensures DoAll(Removals(paths), d) == map p | p in d && p !in paths :: d[p]
    decreases |paths|
  {
    if paths == [] {
      assert DoAll(Removals(paths), d) == d;
    } else {
      var front, last, ops := paths[..|paths| - 1], paths[|paths| - 1], Removals(paths);
      RemovalsPossible(front, d);
      assert ops[..|ops| - 1] == Removals(front) && ops[|ops| - 1] == RemoveFile(last);
      assert forall p :: p in paths <==> p in front || p == last by {
        assert paths == front + [last];
      }
      assert CanDoAll(ops, d) <==> CanDoAll(Removals(front), d) && CanDo(RemoveFile(last), DoAll(Removals(front), d));
    }
  }

  lemma OwnedFirst(l: Locations, d: Disk)
    requires l.Apart()
    ensures var ops, tree := [RemoveFile(l.Config()), RemoveFile(l.ConfigTmp()), RemoveTree(l.meetings)], l.meetings;
            && (CanDoAll(ops, d) <==>
                  !IsDirectory(d, l.Config()) && !IsDirectory(d, l.ConfigTmp()) && (tree in d ==> IsDirectory(d, tree)))
            && DoAll(ops, d) == map q | q in d && q != l.Config() && q != l.ConfigTmp() && !(tree <= q) :: d[q]
  {
    var ops := [RemoveFile(l.Config()), RemoveFile(l.ConfigTmp()), RemoveTree(l.meetings)];
    assert |l.Config()[|l.configDir|]| != |l.ConfigTmp()[|l.configDir|]|;
    assert l.meetings[|l.meetings| - 1] != l.Config()[|l.configDir|] && l.meetings[|l.meetings| - 1] != l.ConfigTmp()[|l.configDir|];
    assert l.meetings != l.Config() && l.meetings != l.ConfigTmp();
    Unfold(ops, 0, d, d);
    Unfold(ops, 1, d, d);
    Unfold(ops, 2, d, d);
    assert ops[..3] == ops;
  }

  lemma RemovingPossible(l: Locations, dirs: seq<Path>, d: Disk)
    requires l.Apart()
    ensures CanDoAll(RemovingOps(l, dirs), d) <==>
            && !IsDirectory(d, l.Config()) && !IsDirectory(d, l.ConfigTmp())
            && (l.meetings in d ==> IsDirectory(d, l.meetings))
            && forall q | IsWeight(dirs, q) && !(l.meetings <= q) :: !IsDirectory(d, q)
  {
    var first, weights := [RemoveFile(l.Config()), RemoveFile(l.ConfigTmp()), RemoveTree(l.meetings)], Weights(dirs);
    OwnedFirst(l, d);
    Compose(first, Removals(weights), d, d);
    RemovalsPossible(weights, DoAll(first, d));
    forall q ensures q in weights <==> IsWeight(dirs, q) {
      WeightsAre(dirs, q);
    }
  }

  lemma MarkersStay(l: Locations, dirs: seq<Path>, d: Disk)
    requires l.Apart()
    ensures var removed := DoAll(RemovingOps(l, dirs), d);
            Same(d, removed, l.Completed()) && Same(d, removed, l.Pending())
  {
    MarkersAreNotOwned(l, dirs);
    forall q | q == l.Completed() || q == l.Pending() ensures Same(d, DoAll(RemovingOps(l, dirs), d), q) {
      ErasingTouches(l, dirs, q);
      assert forall op | op in RemovingOps(l, dirs) :: op in ErasingOps(l, dirs);
      Untouched(RemovingOps(l, dirs), d, DoAll(RemovingOps(l, dirs), d), q);
    }
  }

  /** A reset can run to the end exactly if nothing stands in its way. */
  lemma ResetPossibleExactly(l: Locations, dirs: seq<Path>, d: Disk)
    requires l.Apart()
    ensures CanDoAll(ResetOps(l, dirs), d) <==> Resettable(l, dirs, d)
  {
    MarkersAreNotOwned(l, dirs);
    ResetIsPossible(l, dirs, d);
    RemovingPossible(l, dirs, d);
    MarkersStay(l, dirs, d);
  }

  // ---- Scheduling ----

  /** However a scheduling stops, the request file is the old one, absent, or the whole new one. */
  lemma ScheduleNeverTears(l: Locations, dirs: seq<Path>, d: Disk, d': Disk)
    requires Stops(ScheduleOps(l, dirs), d, d')
    ensures l.Pending() in d' ==>
              d'[l.Pending()] == Request(dirs) || (l.Pending() in d && d'[l.Pending()] == d[l.Pending()])
    ensures l.Pending() in d && l.Pending() !in d' ==> d' == DoAll(ScheduleOps(l, dirs)[..5], d)
  {
    var ops := ScheduleOps(l, dirs);
    NamesDiffer(l);
    if Stops(ops[..5], d, d') {
      assert ops[..5][..4] == ops[..4];
      if Stops(ops[..4], d, d') {
        UntouchedEarly(l, dirs, d, d');
      } else {
        UntouchedEarly(l, dirs, d, DoAll(ops[..4], d));
      }
    } else {
      UntouchedEarly(l, dirs, d, DoAll(ops[..4], d));
      TemporaryIsWhole(l, dirs, d);
      assert ops[..5][..4] == ops[..4];
    }
  }

  lemma NamesDiffer(l: Locations)
    ensures l.Pending() != l.Completed() && l.Pending() != l.PendingTmp() && l.PendingTmp() != l.Completed()
    ensures forall q | q in Ancestors(l.configDir) :: q != l.Pending() && q != l.PendingTmp()
  {
    var n := |l.configDir|;
    assert l.Pending()[n][14] != l.Completed()[n][14] && l.PendingTmp()[n][14] != l.Completed()[n][14];
    assert |l.Pending()[n]| != |l.PendingTmp()[n]|;
  }

  lemma UntouchedEarly(l: Locations, dirs: seq<Path>, d: Disk, d': Disk)
    requires d' == DoAll(ScheduleOps(l, dirs)[..4], d) || Stops(ScheduleOps(l, dirs)[..4], d, d')
    ensures Same(d, d', l.Pending())
  {
    NamesDiffer(l);
    Untouched(ScheduleOps(l, dirs)[..4], d, d', l.Pending());
  }

  lemma TemporaryIsWhole(l: Locations, dirs: seq<Path>, d: Disk)
    ensures var e := DoAll(ScheduleOps(l, dirs)[..5], d);
            && l.PendingTmp() in e && e[l.PendingTmp()] == Request(dirs) && l.Pending() !in e && l.Completed() !in e
  {
    NamesDiffer(l);
    FirstFive(ScheduleOps(l, dirs), l.Completed(), l.PendingTmp(), Request(dirs), l.Pending(), d);
  }

  lemma FirstFive(ops: seq<Op>, cleared: Path, written: Path, content: Content, removed: Path, d: Disk)
    requires |ops| > 4 && ops[1] == RemoveFile(cleared) && ops[2] == WriteFile(written, content)
    requires ops[3].Restrict? && ops[4] == RemoveFile(removed)
    ensures DoAll(ops[..5], d) == (DoAll(ops[..1], d) - {cleared})[written := content] - {removed}
  {
    Unfold(ops, 1, d, d);
    Unfold(ops, 2, d, d);
    Unfold(ops, 3, d, d);
    Unfold(ops, 4, d, d);
  }

  /** A scheduling that runs to the end leaves the whole request and no completion marker. */
  lemma ScheduleRequests(l: Locations, dirs: seq<Path>, d: Disk)
    ensures var e := DoAll(ScheduleOps(l, dirs), d);
            && Scheduled(l, e) && e[l.Pending()] == Request(dirs)
            && l.Completed() !in e && l.PendingTmp() !in e
            && forall q | q !in {l.Pending(), l.PendingTmp(), l.Completed()} + Ancestors(l.configDir) :: Same(d, e, q)
  {
    var ops := ScheduleOps(l, dirs);
    var e := DoAll(ops, d);
    NamesDiffer(l);
    TemporaryIsWhole(l, dirs, d);
    Unfold(ops, 5, d, d);
    assert ops[..6] == ops;
    forall q | q !in {l.Pending(), l.PendingTmp(), l.Completed()} + Ancestors(l.configDir) ensures Same(d, e, q) {
      Untouched(ops, d, e, q);
    }
  }

  /** A second request can lose the first: stopped between the removal and the rename, none is left. */
  lemma InterruptedSchedulingLosesARequest(l: Locations, dirs: seq<Path>, d: Disk)
    requires Scheduled(l, d) && CanDoAll(ScheduleOps(l, dirs), d)
    ensures var lost := DoAll(ScheduleOps(l, dirs)[..5], d);
            Stops(ScheduleOps(l, dirs), d, lost) && !Scheduled(l, lost)
  {
    var ops := ScheduleOps(l, dirs);
    var lost := DoAll(ops[..5], d);
    TemporaryIsWhole(l, dirs, d);
    Unfold(ops, 5, d, lost);
    assert ops[..6] == ops;
  }

  // ---- The file system, changed in place ----

  /** `failing` counts the operations before the one that fails; `None` if none does. */
  predicate Survives(failing: Option<nat>, count: nat) {
    failing.Some? ==> failing.value >= count
  }

  function Later(failing: Option<nat>, count: nat): Option<nat> {
    if failing.Some? && failing.value >= count then Some(failing.value - count) else failing
  }

  /** All of `ops` were done, exactly if each could be and none was to fail; or they stopped. */
  ghost predicate Ends(ops: seq<Op>, failing: Option<nat>, ok: bool, d: Disk, d': Disk) {
    && (ok <==> CanDoAll(ops, d) && Survives(failing, |ops|))
    && if ok then d' == DoAll(ops, d) else Stops(ops, d, d')
  }

  lemma EndsOne(op: Op, failing: Option<nat>, ok: bool, d: Disk, d': Disk)
    requires ok <==> CanDo(op, d) && failing != Some(0)
    requires if ok then d' == Do(op, d) else Partly(op, d, d')
    ensures Ends([op], failing, ok, d, d')
  {
    Unfold([op], 0, d, d');
    assert [op][..1] == [op];
  }

  /** Nothing to do is done at once. */
  lemma EndsNone(failing: Option<nat>, d: Disk)
    ensures Ends([], failing, true, d, d)
  {
  }

  /** Where `ops` stop, `ops + rest` stop too. */
  lemma StopsEarly(ops: seq<Op>, rest: seq<Op>, failing: Option<nat>, d: Disk, d': Disk)
    requires Ends(ops, failing, false, d, d')
    ensures Ends(ops + rest, failing, false, d, d')
  {
    Compose(ops, rest, d, d');
  }

  /** After `xs`, doing `ys`; if they stop, so do `xs + ys + rest`. */
  lemma Chain(xs: seq<Op>, ys: seq<Op>, rest: seq<Op>, failing: Option<nat>, ok: bool, d: Disk, e: Disk, e': Disk)
    requires Ends(xs, failing, true, d, e) && Ends(ys, Later(failing, |xs|), ok, e, e')
    ensures Ends(xs + ys, failing, ok, d, e')
    ensures !ok ==> Ends(xs + ys + rest, failing, false, d, e')
  {
    Compose(xs, ys, d, e');
    Compose(xs + ys, rest, d, e');
  }

  lemma RemovalsJoin(xs: seq<Path>, ys: seq<Path>)
    ensures Removals(xs + ys) == Removals(xs) + Removals(ys)
  {
  }

  /** The first of every repeated directory. */
  function Distinct(dirs: seq<Path>): seq<Path> {
    if dirs == [] then []
    else
      var front, last := Distinct(dirs[..|dirs| - 1]), dirs[|dirs| - 1];
      if last in front then front else front + [last]
  }

  lemma {:induction false} DistinctKeepsAll(dirs: seq<Path>)
    ensures forall p :: p in Distinct(dirs) <==> p in dirs
    ensures forall i, j | 0 <= i < j < |Distinct(dirs)| :: Distinct(dirs)[i] != Distinct(dirs)[j]
  {
    if dirs != [] {
      DistinctKeepsAll(dirs[..|dirs| - 1]);
      assert dirs == dirs[..|dirs| - 1] + [dirs[|dirs| - 1]];
    }
  }

  datatype Outcome = NothingPending | Applied | Failed

  class FileSystem {
    var disk: Disk
    /** Counts down to the operation that fails. */
    var failing: Option<nat>

    constructor (d: Disk, failing: Option<nat>)
      ensures disk == d && this.failing == failing
    {
      disk := d;
      this.failing := failing;
    }

    /** Whether the next operation is the one that fails. */
    method Attempt() returns (fails: bool)
      modifies this`failing
      ensures fails <==> old(failing) == Some(0)
      ensures failing == Later(old(failing), 1)
    {
      fails := failing == Some(0);
      if failing.Some? && failing.value > 0 {
        failing := Some(failing.value - 1);
      }
    }

    method RemoveFileIfPresent(p: Path) returns (ok: bool)
      modifies this
      ensures Ends([RemoveFile(p)], old(failing), ok, old(disk), disk)
      ensures failing == Later(old(failing), 1)
    {
      var fails := Attempt();
      ok := !fails && (p !in disk || disk[p] != Directory);
      if ok {
        disk := disk - {p};
      }
      EndsOne(RemoveFile(p), old(failing), ok, old(disk), disk);
    }

    /** Removes a tree entry by entry; a failure leaves some of it. */
    method RemoveDirectoryIfPresent(p: Path) returns (ok: bool)
      modifies this
      ensures Ends([RemoveTree(p)], old(failing), ok, old(disk), disk)
      ensures failing == Later(old(failing), 1)
    {
      var fails := Attempt();
      if p in disk && disk[p] != Directory {
        EndsOne(RemoveTree(p), old(failing), false, old(disk), disk);
        return false;
      }
      var rest := set q | q in disk && p <= q;
      var stopped := false;
      while rest != {} && !stopped
        invariant rest <= set q | q in old(disk) && p <= q
        invariant stopped ==> fails
        invariant failing == Later(old(failing), 1)
        invariant forall q | q in disk :: q in old(disk) && disk[q] == old(disk)[q]
        invariant forall q | q in old(disk) :: q in disk <==> !(p <= q) || q in rest
        decreases |rest|, !stopped
      {
        var q :| q in rest;
        var here: bool := *;
        if fails && here {
          stopped := true;
        } else {
          disk := disk - {q};
          rest := rest - {q};
        }
      }
      if !fails {
        assert disk == Do(RemoveTree(p), old(disk));
      }
      EndsOne(RemoveTree(p), old(failing), !fails, old(disk), disk);
      return !fails;
    }

    /** A failed write can leave any part of the file. */
    method Write(p: Path, c: Content) returns (ok: bool)
      requires c != Directory
      modifies this
      ensures Ends([WriteFile(p, c)], old(failing), ok, old(disk), disk)
      ensures failing == Later(old(failing), 1)
    {
      var fails := Attempt();
      ok := false;
      if p !in disk || disk[p] != Directory {
        if fails {
          var torn: Content := *;
          if torn != Directory {
            disk := disk[p := torn];
          }
        } else {
          disk := disk[p := c];
          ok := true;
        }
      }
      EndsOne(WriteFile(p, c), old(failing), ok, old(disk), disk);
    }

    method RestrictPermissions(p: Path) returns (ok: bool)
      modifies this`failing
      ensures Ends([Restrict(p)], old(failing), ok, disk, disk)
      ensures failing == Later(old(failing), 1)
    {
      var fails := Attempt();
      ok := p in disk && !fails;
      EndsOne(Restrict(p), old(failing), ok, disk, disk);
    }

    method RenameFile(p: Path, q: Path) returns (ok: bool)
      modifies this
      ensures Ends([Rename(p, q)], old(failing), ok, old(disk), disk)
      ensures failing == Later(old(failing), 1)
    {
      var fails := Attempt();
      ok := p in disk && disk[p] != Directory && (q in disk ==> disk[q] != Directory) && !fails;
      if ok {
        disk := (disk - {p})[q := disk[p]];
      }
      EndsOne(Rename(p, q), old(failing), ok, old(disk), disk);
    }

    /** Makes the directories down to `p`; a failure leaves some of them. */
    method CreateDirAll(p: Path) returns (ok: bool)
      modifies this
      ensures Ends([CreateDirs(p)], old(failing), ok, old(disk), disk)
      ensures failing == Later(old(failing), 1)
    {
      var fails := Attempt();
      ok := true;
      var i := 0;
      while i <= |p| && ok
        invariant 0 <= i <= |p| + 1 && failing == Later(old(failing), 1)
        invariant forall q | q in old(disk) :: q in disk && disk[q] == old(disk)[q]
        invariant forall q | q in disk && q !in old(disk) :: disk[q] == Directory && q in Ancestors(p)
        invariant forall k | 0 <= k < i :: p[..k] in disk && disk[p[..k]] == Directory
        invariant ok || fails || (i <= |p| && p[..i] in old(disk) && old(disk)[p[..i]] != Directory)
        decreases |p| + 1 - i, ok
      {
        var here: bool := *;
        if (p[..i] in disk && disk[p[..i]] != Directory) || (fails && here) {
          assert p[..i] in Ancestors(p);
          ok := false;
        } else {
          assert p[..i] in Ancestors(p);
          disk := disk[p[..i] := Directory];
          i := i + 1;
        }
      }
      if ok {
        assert forall q | q in Ancestors(p) :: q in disk && disk[q] == Directory;
        assert disk == Do(CreateDirs(p), old(disk));
      } else if !fails {
        assert p[..i] in Ancestors(p);
      }
      ok := ok && !fails;
      EndsOne(CreateDirs(p), old(failing), ok, old(disk), disk);
    }

    method RemoveFiles(paths: seq<Path>) returns (ok: bool)
      modifies this
      ensures Ends(Removals(paths), old(failing), ok, old(disk), disk)
      ensures ok ==> failing == Later(old(failing), |Removals(paths)|)
    {
      EndsNone(failing, disk);
      for i := 0 to |paths|
        invariant Ends(Removals(paths[..i]), old(failing), true, old(disk), disk)
        invariant failing == Later(old(failing), i)
      {
        ghost var before := disk;
        ok := RemoveFileIfPresent(paths[i]);
        Chain(Removals(paths[..i]), [RemoveFile(paths[i])], Removals(paths[i + 1..]), old(failing), ok, old(disk), before, disk);
        assert Removals(paths[..i]) + [RemoveFile(paths[i])] == Removals(paths[..i + 1]);
        if !ok {
          assert Removals(paths[..i + 1]) + Removals(paths[i + 1..]) == Removals(paths);
          return;
        }
      }
      assert paths[..|paths|] == paths;
      ok := true;
    }

    method RemoveModels(dir: Path, stems: seq<string>) returns (ok: bool)
      modifies this
      ensures Ends(Removals(FilesOfModels(dir, stems)), old(failing), ok, old(disk), disk)
      ensures ok ==> failing == Later(old(failing), |FilesOfModels(dir, stems)|)
    {
      EndsNone(failing, disk);
      assert stems[..0] == [];
      for i := 0 to |stems|
        invariant Ends(Removals(FilesOfModels(dir, stems[..i])), old(failing), true, old(disk), disk)
        invariant failing == Later(old(failing), |FilesOfModels(dir, stems[..i])|)
      {
        ghost var before := disk;
        ghost var done, next := FilesOfModels(dir, stems[..i]), Files(dir, NamesOf(stems[i]));
        ok := RemoveFiles(Files(dir, NamesOf(stems[i])));
        ghost var rest := LaterFiles(dir, stems, i + 1);
        Chain(Removals(done), Removals(next), Removals(rest), old(failing), ok, old(disk), before, disk);
        assert stems[..i + 1][..i] == stems[..i];
        RemovalsJoin(done, next);
        RemovalsJoin(done + next, rest);
        if !ok {
          return;
        }
      }
      assert stems[..|stems|] == stems;
      ok := true;
    }

    method RemoveAllWhisperWeights(dir: Path) returns (ok: bool)
      modifies this
      ensures Ends(Removals(FilesOfModels(dir, STEMS)), old(failing), ok, old(disk), disk)
      ensures ok ==> failing == Later(old(failing), |FilesOfModels(dir, STEMS)|)
    {
      ok := RemoveModels(dir, STEMS);
    }

    method RemoveWeights(dirs: seq<Path>) returns (ok: bool)
      modifies this
      ensures Ends(Removals(Weights(dirs)), old(failing), ok, old(disk), disk)
      ensures ok ==> failing == Later(old(failing), |Weights(dirs)|)
    {
      EndsNone(failing, disk);
      assert dirs[..0] == [];
      for i := 0 to |dirs|
        invariant Ends(Removals(Weights(dirs[..i])), old(failing), true, old(disk), disk)
        invariant failing == Later(old(failing), |Weights(dirs[..i])|)
      {
        ghost var before := disk;
        ghost var done, next := Weights(dirs[..i]), FilesOfModels(dirs[i], STEMS);
        ok := RemoveAllWhisperWeights(dirs[i]);
        ghost var rest := LaterWeights(dirs, i + 1);
        Chain(Removals(done), Removals(next), Removals(rest), old(failing), ok, old(disk), before, disk);
        assert dirs[..i + 1][..i] == dirs[..i];
        RemovalsJoin(done, next);
        RemovalsJoin(done + next, rest);
        if !ok {
          return;
        }
      }
      assert dirs[..|dirs|] == dirs;
      ok := true;
    }

    method RemoveConfiguration(l: Locations) returns (ok: bool)
      modifies this
      ensures Ends([RemoveFile(l.Config()), RemoveFile(l.ConfigTmp())], old(failing), ok, old(disk), disk)
      ensures ok ==> failing == Later(old(failing), 2)
    {
      ghost var d0, n := disk, failing;
      ghost var config, temporary := [RemoveFile(l.Config())], [RemoveFile(l.ConfigTmp())];
      assert config + temporary == [RemoveFile(l.Config()), RemoveFile(l.ConfigTmp())];
      ok := RemoveFileIfPresent(l.Config());
      if !ok {
        StopsEarly(config, temporary, n, d0, disk);
        return;
      }
      ghost var d1 := disk;
      ok := RemoveFileIfPresent(l.ConfigTmp());
      Chain(config, temporary, [], n, ok, d0, d1, disk);
    }

    /** The removals of a reset, in the order they are made. */
    method RemoveOwned(l: Locations, dirs: seq<Path>) returns (ok: bool)
      modifies this
      ensures Ends(RemovingOps(l, dirs), old(failing), ok, old(disk), disk)
      ensures ok ==> failing == Later(old(failing), |RemovingOps(l, dirs)|)
    {
      ghost var d0, n := disk, failing;
      ghost var weights := Removals(Weights(dirs));
      ghost var config, tree := [RemoveFile(l.Config()), RemoveFile(l.ConfigTmp())], [RemoveTree(l.meetings)];
      assert RemovingOps(l, dirs) == config + (tree + weights) == config + tree + weights;
      ok := RemoveConfiguration(l);
      if !ok {
        StopsEarly(config, tree + weights, n, d0, disk);
        return;
      }
      ghost var d1 := disk;
      ok := RemoveDirectoryIfPresent(l.meetings);
      Chain(config, tree, weights, n, ok, d0, d1, disk);
      if !ok {
        return;
      }
      ghost var d2 := disk;
      ok := RemoveWeights(dirs);
      Chain(config + tree, weights, [], n, ok, d0, d2, disk);
    }

    /** Writes the completion marker, then removes the request. */
    method MarkCompleted(l: Locations) returns (ok: bool)
      modifies this
      ensures Ends(MarkingOps(l), old(failing), ok, old(disk), disk)
    {
      ghost var d0, n := disk, failing;
      ghost var write, restrict, remove := [WriteFile(l.Completed(), DONE)], [Restrict(l.Completed())], [RemoveFile(l.Pending())];
      assert MarkingOps(l) == write + (restrict + remove) == write + restrict + remove;
      ok := Write(l.Completed(), DONE);
      if !ok {
        StopsEarly(write, restrict + remove, n, d0, disk);
        return;
      }
      ghost var d1 := disk;
      ok := RestrictPermissions(l.Completed());
      Chain(write, restrict, remove, n, ok, d0, d1, disk);
      if !ok {
        return;
      }
      ok := RemoveFileIfPresent(l.Pending());
      Chain(write + restrict, remove, [], n, ok, d0, d1, disk);
    }

    /**
     Reading the request is the first operation. A reset is applied exactly if a request
     stands, every operation can be done and none is to fail.
     */
    method ApplyPending(l: Locations) returns (outcome: Outcome)
      modifies this
      ensures outcome == NothingPending <==> l.Pending() !in old(disk) && old(failing) != Some(0)
      ensures outcome == Applied <==>
                && Scheduled(l, old(disk))
                && var ops := ResetOps(l, old(disk)[l.Pending()].modelDirectories);
                   CanDoAll(ops, old(disk)) && Survives(old(failing), 1 + |ops|)
      ensures outcome == NothingPending ==> disk == old(disk)
      ensures outcome == Applied ==> disk == Complete(l, old(disk))
      ensures outcome == Failed ==> Passes(l, old(disk), disk)
    {
      var unreadable := Attempt();
      if unreadable || (l.Pending() in disk && !disk[l.Pending()].Request?) {
        if Scheduled(l, disk) {
          StopsAtOnce(ResetOps(l, disk[l.Pending()].modelDirectories), disk);
        }
        return Failed;
      }
      if l.Pending() !in disk {
        return NothingPending;
      }
      ghost var d0, n := disk, failing;
      var dirs := disk[l.Pending()].modelDirectories;
      assert ResetOps(l, dirs) == RemovingOps(l, dirs) + MarkingOps(l);
      var ok := RemoveOwned(l, dirs);
      if !ok {
        StopsEarly(RemovingOps(l, dirs), MarkingOps(l), n, d0, disk);
        return Failed;
      }
      ghost var removed := disk;
      ok := MarkCompleted(l);
      Chain(RemovingOps(l, dirs), MarkingOps(l), [], n, ok, d0, removed, disk);
      return if ok then Applied else Failed;
    }

    method ModelDirectories(candidates: seq<Path>) returns (dirs: seq<Path>)
      ensures dirs == Distinct(candidates)
    {
      dirs := [];
      assert candidates[..0] == [];
      for i := 0 to |candidates|
        invariant dirs == Distinct(candidates[..i])
      {
        assert candidates[..i + 1][..i] == candidates[..i];
        if candidates[i] !in dirs {
          dirs := dirs + [candidates[i]];
        }
      }
      assert candidates[..|candidates|] == candidates;
    }

    /** Clears an old completion and writes the new request beside the old one. */
    method PrepareRequest(l: Locations, dirs: seq<Path>) returns (ok: bool)
      modifies this
      ensures Ends(ScheduleOps(l, dirs)[..3], old(failing), ok, old(disk), disk)
      ensures ok ==> failing == Later(old(failing), 3)
    {
      ghost var d0, n := disk, failing;
      ghost var create, clear, write :=
        [CreateDirs(l.configDir)], [RemoveFile(l.Completed())], [WriteFile(l.PendingTmp(), Request(dirs))];
      assert ScheduleOps(l, dirs)[..3] == create + (clear + write) == create + clear + write;
      ok := CreateDirAll(l.configDir);
      if !ok {
        StopsEarly(create, clear + write, n, d0, disk);
        return;
      }
      ghost var d1 := disk;
      ok := RemoveFileIfPresent(l.Completed());
      Chain(create, clear, write, n, ok, d0, d1, disk);
      if !ok {
        return;
      }
      ghost var d2 := disk;
      ok := Write(l.PendingTmp(), Request(dirs));
      Chain(create + clear, write, [], n, ok, d0, d2, disk);
    }

    /** Moves the new request into place. */
    method InstallRequest(l: Locations, ghost dirs: seq<Path>) returns (ok: bool)
      modifies this
      ensures Ends(ScheduleOps(l, dirs)[3..], old(failing), ok, old(disk), disk)
    {
      ghost var d0, n := disk, failing;
      ghost var restrict, remove, rename :=
        [Restrict(l.PendingTmp())], [RemoveFile(l.Pending())], [Rename(l.PendingTmp(), l.Pending())];
      assert ScheduleOps(l, dirs)[3..] == restrict + (remove + rename) == restrict + remove + rename;
      ok := RestrictPermissions(l.PendingTmp());
      if !ok {
        StopsEarly(restrict, remove + rename, n, d0, disk);
        return;
      }
      ok := RemoveFileIfPresent(l.Pending());
      Chain(restrict, remove, rename, n, ok, d0, d0, disk);
      if !ok {
        return;
      }
      ghost var d2 := disk;
      ok := RenameFile(l.PendingTmp(), l.Pending());
      Chain(restrict + remove, rename, [], n, ok, d0, d2, disk);
    }

    /** Succeeds exactly if every operation can be done and none is to fail. */
    method Schedule(l: Locations, configured: Path, standard: Path, legacy: Path) returns (ok: bool)
      modifies this
      ensures Ends(ScheduleOps(l, Distinct([configured, standard, legacy])), old(failing), ok, old(disk), disk)
    {
      var dirs := ModelDirectories([configured, standard, legacy]);
      ghost var ops, d0, n := ScheduleOps(l, dirs), disk, failing;
      assert ops == ops[..3] + ops[3..];
      ok := PrepareRequest(l, dirs);
      if !ok {
        StopsEarly(ops[..3], ops[3..], n, d0, disk);
        return;
      }
      ghost var prepared := disk;
      ok := InstallRequest(l, dirs);
      Chain(ops[..3], ops[3..], [], n, ok, d0, prepared, disk);
    }

    /** Whether a reset was completed since the last call; `None` is an error, of a removal that could not be done. */
    method TakeCompleted(l: Locations) returns (taken: Option<bool>)
      modifies this
      ensures taken == Some(false) <==> l.Completed() !in old(disk)
      ensures taken == Some(true) <==>
                l.Completed() in old(disk) && old(disk)[l.Completed()] != Directory && old(failing) != Some(0)
      ensures taken == Some(false) ==> disk == old(disk)
      ensures taken == Some(true) ==> disk == old(disk) - {l.Completed()}
      ensures taken == None ==> disk == old(disk) || disk == old(disk) - {l.Completed()}
    {
      if l.Completed() !in disk {
        return Some(false);
      }
      var ok := RemoveFileIfPresent(l.Completed());
      Unfold([RemoveFile(l.Completed())], 0, old(disk), disk);
      assert [RemoveFile(l.Completed())][..1] == [RemoveFile(l.Completed())];
      return if ok then Some(true) else None;
    }
  }

  lemma {:induction false} StopsAtOnce(ops: seq<Op>, d: Disk)
    requires ops != []
    ensures Stops(ops, d, d)
    decreases |ops|
  {
    if |ops| > 1 {
      StopsAtOnce(ops[..|ops| - 1], d);
    }
  }

  /** The weights that follow those in the first `k` directories. */
  ghost function LaterWeights(dirs: seq<Path>, k: nat): (rest: seq<Path>)
    requires k <= |dirs|
    ensures Weights(dirs) == Weights(dirs[..k]) + rest
  {
    WeightsExtend(dirs, k);
    Weights(dirs)[|Weights(dirs[..k])|..]
  }

  lemma {:induction false} WeightsExtend(dirs: seq<Path>, k: nat)
    requires k <= |dirs|
    ensures Weights(dirs[..k]) <= Weights(dirs)
    decreases |dirs|
  {
    if k < |dirs| {
      assert dirs[..|dirs| - 1][..k] == dirs[..k];
      WeightsExtend(dirs[..|dirs| - 1], k);
    } else {
      assert dirs[..k] == dirs;
    }
  }

  /** The files that follow those of the first `k` models. */
  ghost function LaterFiles(dir: Path, stems: seq<string>, k: nat): (rest: seq<Path>)
    requires k <= |stems|
    ensures FilesOfModels(dir, stems) == FilesOfModels(dir, stems[..k]) + rest
  {
    FilesOfModelsExtend(dir, stems, k);
    FilesOfModels(dir, stems)[|FilesOfModels(dir, stems[..k])|..]
  }

  lemma {:induction false} FilesOfModelsExtend(dir: Path, stems: seq<string>, k: nat)
    requires k <= |stems|
    ensures FilesOfModels(dir, stems[..k]) <= FilesOfModels(dir, stems)
    decreases |stems|
  {
    if k < |stems| {
      assert stems[..|stems| - 1][..k] == stems[..k];
      FilesOfModelsExtend(dir, stems[..|stems| - 1], k);
    } else {
      assert stems[..k] == stems;
    }
  }
}
