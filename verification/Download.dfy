// The verifying downloader as a protocol over two directories: fetch into
// `.partial`, verify, write the sentinel, rename. It can be killed between any
// two steps and started again.

module Download {
  import opened Wrappers
  import opened Strings

  // A file by what the verifier looks at: its size and its SHA-256.
  datatype File = File(size: nat, sha256: string)
  type Dir = map<string, File>
  datatype Disk = Disk(target: Option<Dir>, partial: Option<Dir>)

  datatype Checksum = Checksum(path: string, size: nat, sha256: string)
  datatype Config = Config(expected: seq<Checksum>, primary: string, retries: nat)

  datatype Reason = SizeMismatch | ChecksumMismatch

  const SENTINEL := ".alice_verified"
  const MARK := File(0, "")

  // `_verify_file`: None if the file matches. A size of 0 is not checked.
  function VerifyFile(d: Dir, fc: Checksum): Option<Reason> {
    if fc.path !in d then Some(SizeMismatch)
    else if fc.size != 0 && d[fc.path].size != fc.size then Some(SizeMismatch)
    else if Lower(d[fc.path].sha256) != Lower(fc.sha256) then Some(ChecksumMismatch)
    else None
  }

  // The first n expected files are there and match.
  predicate Matches(d: Dir, expected: seq<Checksum>, n: nat)
    requires n <= |expected|
  {
    forall i :: 0 <= i < n ==> VerifyFile(d, expected[i]).None?
  }

  predicate PrimaryThere(cfg: Config, d: Dir) {
    cfg.primary in d && d[cfg.primary].size > 0
  }

  // Without checksums only the main file is looked at.
  predicate Complete(cfg: Config, d: Dir) {
    if cfg.expected == [] then PrimaryThere(cfg, d)
    else Matches(d, cfg.expected, |cfg.expected|)
  }

  predicate Published(disk: Disk) {
    disk.target.Some? && SENTINEL in disk.target.value
  }

  // The safety property: a published directory holds what was expected.
  predicate Safe(cfg: Config, disk: Disk) {
    Published(disk) ==> Complete(cfg, disk.target.value)
  }

  // No file of the manifest, nor the main file, goes by the sentinel's name.
  predicate NoSentinel(cfg: Config) {
    (forall i :: 0 <= i < |cfg.expected| ==> cfg.expected[i].path != SENTINEL) && cfg.primary != SENTINEL
  }

  // Two entries do not contradict each other: for one path they name one digest
  // and, where both name a size, one size.
  predicate Agree(a: Checksum, b: Checksum) {
    a.path == b.path ==> Lower(a.sha256) == Lower(b.sha256) && (a.size == b.size || a.size == 0 || b.size == 0)
  }

  predicate Coherent(cfg: Config) {
    forall i, j :: 0 <= i < j < |cfg.expected| ==> Agree(cfg.expected[i], cfg.expected[j])
  }

  predicate WellFormed(cfg: Config) {
    NoSentinel(cfg) && Coherent(cfg)
  }

  predicate ExpectedPath(cfg: Config, path: string) {
    exists i :: 0 <= i < |cfg.expected| && cfg.expected[i].path == path
  }

  // ---------------------------------------------------------------- steps

  // Where one call of `download` stands. A write of the sentinel that raises may
  // have created the file: RaisedMarking is that exit from the adoption.
  datatype Pc =
    | Start
    | Checking(i: nat) | AdoptSentinel
    | MakePartial | Preflight | Fetching(attempt: nat)
    | Verifying(i: nat) | Unlinking(i: nat) | Refetching(i: nat) | Reverifying(i: nat)
    | CheckPrimary | WriteSentinel | ClearTarget | Replacing
    | Returned | Raised | RaisedMarking

  datatype State = State(disk: Disk, pc: Pc)

  predicate PartialOnly(d: Disk, d': Disk) {
    d'.target == d.target && d'.partial.Some?
  }

  // What a second fetch of one file may touch: that file, and files nobody expects.
  ghost predicate TouchesOnly(cfg: Config, d: Dir, d': Dir, path: string) {
    forall p :: ExpectedPath(cfg, p) && p != path ==> (p in d <==> p in d') && (p in d ==> d'[p] == d[p])
  }

  // Left over after an interrupted or failing removal: some of the files.
  predicate Remains(d: Dir, d': Dir) {
    d'.Keys <= d.Keys && forall p :: p in d' ==> d'[p] == d[p]
  }

  // Reading a file may raise, here and below.
  predicate CheckStep(cfg: Config, s: State, s': State)
    requires s.pc.Checking?
  {
    var i := s.pc.i;
    s'.disk == s.disk
    && if s.disk.target.None? then s'.pc == MakePartial
       else if i >= |cfg.expected| then s'.pc == AdoptSentinel
       else if s'.pc == Raised then true
       else if VerifyFile(s.disk.target.value, cfg.expected[i]).Some? then s'.pc == MakePartial
       else s'.pc == Checking(i + 1)
  }

  // An attempt changes `.partial` in any way; it ends well, in a network error
  // that is retried, or for good.
  predicate FetchStep(cfg: Config, s: State, s': State)
    requires s.pc.Fetching?
  {
    var k := s.pc.attempt;
    PartialOnly(s.disk, s'.disk)
    && (s'.pc == s.pc
        || (k <= cfg.retries && s'.pc == if cfg.expected == [] then CheckPrimary else Verifying(0))
        || (k < cfg.retries && s'.pc == Fetching(k + 1))
        || s'.pc == Raised)
  }

  predicate VerifyStep(cfg: Config, s: State, s': State)
    requires s.pc.Verifying? && s.disk.partial.Some?
  {
    var i := s.pc.i;
    s'.disk == s.disk
    && if i >= |cfg.expected| then s'.pc == WriteSentinel
       else s'.pc == Raised
            || s'.pc == if VerifyFile(s.disk.partial.value, cfg.expected[i]).None? then Verifying(i + 1)
                        else Unlinking(i)
  }

  predicate UnlinkStep(cfg: Config, s: State, s': State)
    requires s.pc.Unlinking? && s.disk.partial.Some?
  {
    var i, d := s.pc.i, s.disk.partial.value;
    i < |cfg.expected| && s'.pc == Refetching(i)
    && (s'.disk == s.disk || s'.disk == s.disk.(partial := Some(d - {cfg.expected[i].path})))
  }

  ghost predicate RefetchStep(cfg: Config, s: State, s': State)
    requires s.pc.Refetching? && s.disk.partial.Some?
  {
    var i := s.pc.i;
    i < |cfg.expected| && PartialOnly(s.disk, s'.disk)
    && TouchesOnly(cfg, s.disk.partial.value, s'.disk.partial.value, cfg.expected[i].path)
    && (s'.pc == s.pc || s'.pc == Reverifying(i) || s'.pc == Raised)
  }

  predicate ReverifyStep(cfg: Config, s: State, s': State)
    requires s.pc.Reverifying? && s.disk.partial.Some?
  {
    var i := s.pc.i;
    i < |cfg.expected| && s'.disk == s.disk
    && (s'.pc == Raised || (VerifyFile(s.disk.partial.value, cfg.expected[i]).None? && s'.pc == Verifying(i + 1)))
  }

  predicate ClearStep(s: State, s': State)
    requires s.pc.ClearTarget?
  {
    s'.disk.partial == s.disk.partial
    && if s.disk.target.None? then s' == State(s.disk, Replacing)
       else
         (s'.disk.target.None? || Remains(s.disk.target.value, s'.disk.target.value))
         && (s'.pc == ClearTarget || s'.pc == Replacing)
  }

  // One step of a running call.
  ghost predicate Next(cfg: Config, s: State, s': State) {
    match s.pc
    case Start =>
      s'.disk == s.disk
      && s'.pc == if Published(s.disk) then Returned else if cfg.expected != [] then Checking(0) else MakePartial
    case Checking(_) => CheckStep(cfg, s, s')
    case AdoptSentinel =>
      s.disk.target.Some?
      && (s' == State(s.disk, Raised)
          || (s'.disk == s.disk.(target := Some(s.disk.target.value[SENTINEL := MARK]))
              && s'.pc in {Returned, RaisedMarking}))
    case MakePartial =>
      s' == State(s.disk, Raised)
      || s' == State(s.disk.(partial := Some(if s.disk.partial.Some? then s.disk.partial.value else map[])), Preflight)
    case Preflight => s'.disk == s.disk && (s'.pc == Fetching(1) || s'.pc == Raised)
    case Fetching(_) => FetchStep(cfg, s, s')
    case Verifying(_) => s.disk.partial.Some? && VerifyStep(cfg, s, s')
    case Unlinking(_) => s.disk.partial.Some? && UnlinkStep(cfg, s, s')
    case Refetching(_) => s.disk.partial.Some? && RefetchStep(cfg, s, s')
    case Reverifying(_) => s.disk.partial.Some? && ReverifyStep(cfg, s, s')
    case CheckPrimary =>
      s.disk.partial.Some? && s'.disk == s.disk
      && (s'.pc == Raised || (PrimaryThere(cfg, s.disk.partial.value) && s'.pc == WriteSentinel))
    case WriteSentinel =>
      s.disk.partial.Some?
      && (s' == State(s.disk, Raised)
          || (s'.disk == s.disk.(partial := Some(s.disk.partial.value[SENTINEL := MARK]))
              && s'.pc in {ClearTarget, Raised}))
    case ClearTarget => ClearStep(s, s')
    case Replacing =>
      s.disk.partial.Some?
      && (s' == State(s.disk, Raised)
          || ((s.disk.target.None? || s.disk.target.value == map[])
              && s' == State(Disk(s.disk.partial, None), Returned)))
    case Returned => false
    case Raised => false
    case RaisedMarking => false
  }

  // A kill, or a new call after one that ended: back to the start, disk as it is.
  predicate Restarts(s: State, s': State) {
    s' == State(s.disk, Start)
  }

  ghost predicate Linked(cfg: Config, run: seq<State>, i: int)
    requires 0 <= i < |run| - 1
  {
    Next(cfg, run[i], run[i + 1]) || Restarts(run[i], run[i + 1])
  }

  // A run of calls and kills.
  ghost predicate Behaviour(cfg: Config, run: seq<State>) {
    run != [] && forall i :: 0 <= i < |run| - 1 ==> Linked(cfg, run, i)
  }

  ghost predicate FromEmpty(cfg: Config, run: seq<State>) {
    Behaviour(cfg, run) && run[0] == State(Disk(None, None), Start)
  }

  // ------------------------------------------------------------ invariant

  predicate PartialHas(cfg: Config, disk: Disk, n: nat) {
    n <= |cfg.expected| && disk.partial.Some? && Matches(disk.partial.value, cfg.expected, n)
  }

  // Once the i-th file matches, all the files before it do: those of another
  // path match already, and those of its path ask for no more than it does.
  predicate Awaits(cfg: Config, d: Dir, i: nat)
    requires i < |cfg.expected|
  {
    var fc := cfg.expected[i];
    && (forall k :: 0 <= k < i && cfg.expected[k].path != fc.path ==> VerifyFile(d, cfg.expected[k]).None?)
    && (forall k :: 0 <= k < i && cfg.expected[k].path == fc.path ==> cfg.expected[k].size in {0, fc.size})
  }

  predicate PartialAwaits(cfg: Config, disk: Disk, i: nat) {
    i < |cfg.expected| && disk.partial.Some? && Awaits(cfg, disk.partial.value, i)
  }

  predicate PcRight(cfg: Config, s: State) {
    match s.pc
    case Start => true
    case Returned => Published(s.disk)
    case Raised => !Published(s.disk)
    case RaisedMarking => Published(s.disk)
    case Checking(i) =>
      !Published(s.disk) && cfg.expected != [] && i <= |cfg.expected|
      && (i > 0 ==> s.disk.target.Some? && Matches(s.disk.target.value, cfg.expected, i))
    case AdoptSentinel => !Published(s.disk) && s.disk.target.Some? && Complete(cfg, s.disk.target.value)
    case MakePartial => !Published(s.disk)
    case Preflight => !Published(s.disk) && s.disk.partial.Some?
    case Fetching(_) => !Published(s.disk) && s.disk.partial.Some?
    case Verifying(i) => !Published(s.disk) && cfg.expected != [] && PartialHas(cfg, s.disk, i)
    case Unlinking(i) => !Published(s.disk) && PartialAwaits(cfg, s.disk, i)
    case Refetching(i) => !Published(s.disk) && PartialAwaits(cfg, s.disk, i)
    case Reverifying(i) => !Published(s.disk) && PartialAwaits(cfg, s.disk, i)
    case CheckPrimary => !Published(s.disk) && cfg.expected == [] && s.disk.partial.Some?
    case WriteSentinel => !Published(s.disk) && s.disk.partial.Some? && Complete(cfg, s.disk.partial.value)
    case ClearTarget =>
      !Published(s.disk) && s.disk.partial.Some? && Complete(cfg, s.disk.partial.value)
      && SENTINEL in s.disk.partial.value
    case Replacing =>
      !Published(s.disk) && s.disk.partial.Some? && Complete(cfg, s.disk.partial.value)
      && SENTINEL in s.disk.partial.value
  }

  predicate Inv(cfg: Config, s: State) {
    Safe(cfg, s.disk) && PcRight(cfg, s)
  }

  lemma SentinelKeepsComplete(cfg: Config, d: Dir)
    requires NoSentinel(cfg) && Complete(cfg, d)
    ensures Complete(cfg, d[SENTINEL := MARK])
  {
    var d' := d[SENTINEL := MARK];
    forall i | 0 <= i < |cfg.expected|
      ensures VerifyFile(d', cfg.expected[i]) == VerifyFile(d, cfg.expected[i])
    {}
  }

  // A file that passes the earlier entries of its path and fails this one has
  // the wrong size, on which the earlier entries are silent.
  lemma FailureAwaits(cfg: Config, d: Dir, i: nat)
    requires Coherent(cfg) && i < |cfg.expected| && Matches(d, cfg.expected, i) && VerifyFile(d, cfg.expected[i]).Some?
    ensures Awaits(cfg, d, i)
  {
    var fc := cfg.expected[i];
    forall k | 0 <= k < i && cfg.expected[k].path == fc.path
      ensures cfg.expected[k].size in {0, fc.size}
    {
      assert Agree(cfg.expected[k], fc) && VerifyFile(d, cfg.expected[k]).None?;
    }
  }

  // The second fetch of a file leaves what is awaited of the others.
  lemma RefetchKeepsAwaiting(cfg: Config, d: Dir, d': Dir, i: nat)
    requires i < |cfg.expected| && Awaits(cfg, d, i) && TouchesOnly(cfg, d, d', cfg.expected[i].path)
    ensures Awaits(cfg, d', i)
  {
    forall k | 0 <= k < i && cfg.expected[k].path != cfg.expected[i].path
      ensures VerifyFile(d', cfg.expected[k]) == VerifyFile(d, cfg.expected[k])
    {
      assert ExpectedPath(cfg, cfg.expected[k].path);
    }
  }

  lemma MatchEndsAwaiting(cfg: Config, d: Dir, i: nat)
    requires Coherent(cfg) && i < |cfg.expected| && Awaits(cfg, d, i) && VerifyFile(d, cfg.expected[i]).None?
    ensures Matches(d, cfg.expected, i + 1)
  {
    var fc := cfg.expected[i];
    forall k | 0 <= k <= i
      ensures VerifyFile(d, cfg.expected[k]).None?
    {
      if k < i && cfg.expected[k].path == fc.path { assert Agree(cfg.expected[k], fc); }
    }
  }

  lemma NextKeeps(cfg: Config, s: State, s': State)
    requires WellFormed(cfg) && Inv(cfg, s) && Next(cfg, s, s')
    ensures Inv(cfg, s')
  {
    hide VerifyFile, NoSentinel, Coherent, Awaits;
    match s.pc
    case AdoptSentinel => SentinelKeepsComplete(cfg, s.disk.target.value);
    case WriteSentinel => SentinelKeepsComplete(cfg, s.disk.partial.value);
    case Verifying(i) =>
      if s'.pc.Unlinking? { FailureAwaits(cfg, s.disk.partial.value, i); }
    case Unlinking(i) =>
      var d := s.disk.partial.value;
      assert TouchesOnly(cfg, d, d - {cfg.expected[i].path}, cfg.expected[i].path);
      RefetchKeepsAwaiting(cfg, d, s'.disk.partial.value, i);
    case Refetching(i) => RefetchKeepsAwaiting(cfg, s.disk.partial.value, s'.disk.partial.value, i);
    case Reverifying(i) =>
      if s'.pc.Verifying? { MatchEndsAwaiting(cfg, s.disk.partial.value, i); }
    case _ =>
  }

  // Every state of every behaviour, however often it was killed and restarted,
  // is safe; one that returned is published and one that raised is not.
  lemma {:induction false} BehaviourSafe(cfg: Config, run: seq<State>, k: nat)
    requires WellFormed(cfg) && Behaviour(cfg, run) && Inv(cfg, run[0]) && k < |run|
    ensures Inv(cfg, run[k])
  {
    if k > 0 {
      BehaviourSafe(cfg, run, k - 1);
      assert Linked(cfg, run, k - 1);
      if Next(cfg, run[k - 1], run[k]) { NextKeeps(cfg, run[k - 1], run[k]); }
    }
  }

  // From an empty cache, a sentinel in the target means that every expected file
  // is there with its size and digest.
  lemma PublishedIsVerified(cfg: Config, run: seq<State>, k: nat)
    requires WellFormed(cfg) && FromEmpty(cfg, run)
    requires k < |run| && Published(run[k].disk)
    ensures var d := run[k].disk.target.value;
      (forall fc :: fc in cfg.expected ==>
         fc.path in d && (fc.size == 0 || d[fc.path].size == fc.size) && Lower(d[fc.path].sha256) == Lower(fc.sha256))
      && (cfg.expected == [] ==> cfg.primary in d && d[cfg.primary].size > 0)
  {
    BehaviourSafe(cfg, run, k);
  }

  // A call that returned has published. One that raised leaves the target
  // unpublished, unless it was adopting the files it had found in the target, all
  // of them verified, and the write of the sentinel raised after creating it.
  lemma ReturnMeansPublished(cfg: Config, run: seq<State>, k: nat)
    requires WellFormed(cfg) && FromEmpty(cfg, run) && k < |run|
    ensures run[k].pc.Returned? ==> Published(run[k].disk)
    ensures run[k].pc.Raised? || run[k].pc.RaisedMarking? ==>
      k > 0 && (Published(run[k].disk) <==> run[k - 1].pc.AdoptSentinel? && run[k].disk != run[k - 1].disk)
    ensures run[k].pc.RaisedMarking? ==>
      k > 0 && run[k - 1].disk.target.Some? && Complete(cfg, run[k - 1].disk.target.value)
      && run[k].disk.target == Some(run[k - 1].disk.target.value[SENTINEL := MARK])
  {
    BehaviourSafe(cfg, run, k);
    if k > 0 {
      BehaviourSafe(cfg, run, k - 1);
      assert Linked(cfg, run, k - 1);
      if run[k].pc.Raised? || run[k].pc.RaisedMarking? { RaiseStep(cfg, run[k - 1], run[k]); }
    }
  }

  lemma RaiseStep(cfg: Config, s: State, s': State)
    requires Inv(cfg, s) && Inv(cfg, s') && (Next(cfg, s, s') || Restarts(s, s'))
    requires s'.pc.Raised? || s'.pc.RaisedMarking?
    ensures Published(s'.disk) <==> s.pc.AdoptSentinel? && s'.disk != s.disk
    ensures s'.pc.RaisedMarking? ==>
      s.disk.target.Some? && Complete(cfg, s.disk.target.value)
      && s'.disk.target == Some(s.disk.target.value[SENTINEL := MARK])
  {
    hide VerifyFile, Matches, Awaits;
  }

  lemma PublishedStep(cfg: Config, s: State, s': State)
    requires Inv(cfg, s) && Published(s.disk) && (Next(cfg, s, s') || Restarts(s, s'))
    ensures s'.disk == s.disk && (s'.pc.Start? || s'.pc.Returned?)
  {}

  // Once published, nothing a call or a kill does changes the disk again.
  lemma {:induction false} PublishedIsFinal(cfg: Config, run: seq<State>, j: nat, k: nat)
    requires WellFormed(cfg) && Behaviour(cfg, run) && Inv(cfg, run[0])
    requires j <= k < |run| && Published(run[j].disk)
    ensures run[k].disk == run[j].disk
    decreases k
  {
    if j < k {
      hide Inv, Next, Restarts;
      assert Linked(cfg, run, k - 1);
      BehaviourSafe(cfg, run, k - 1);
      PublishedIsFinal(cfg, run, j, k - 1);
      PublishedStep(cfg, run[k - 1], run[k]);
    }
  }

  // -------------------------------------------- the condition is exact

  // A behaviour with one step in front of it.
  lemma Before(cfg: Config, s: State, run: seq<State>) returns (longer: seq<State>)
    requires Behaviour(cfg, run) && Next(cfg, s, run[0])
    ensures Behaviour(cfg, longer) && longer[0] == s && longer[|longer| - 1] == run[|run| - 1]
  {
    hide Next, Restarts;
    longer := [s] + run;
    forall i | 0 <= i < |longer| - 1
      ensures Linked(cfg, longer, i)
    {
      if i > 0 { assert Linked(cfg, run, i - 1); }
    }
  }

  lemma PublishRun(cfg: Config, d: Dir) returns (run: seq<State>)
    ensures Behaviour(cfg, run) && run[0] == State(Disk(None, Some(d)), WriteSentinel)
    ensures run[|run| - 1] == State(Disk(Some(d[SENTINEL := MARK]), None), Returned)
  {
    var marked := d[SENTINEL := MARK];
    run := [State(Disk(Some(marked), None), Returned)];
    run := Before(cfg, State(Disk(None, Some(marked)), Replacing), run);
    run := Before(cfg, State(Disk(None, Some(marked)), ClearTarget), run);
    run := Before(cfg, State(Disk(None, Some(d)), WriteSentinel), run);
  }

  // From any stage of the verification a server that delivers each file just as
  // the manifest asks for it brings the call to publication.
  lemma {:induction false} VerifyRun(cfg: Config, d: Dir, i: nat) returns (run: seq<State>, end: Dir)
    requires i <= |cfg.expected|
    ensures Behaviour(cfg, run) && run[0] == State(Disk(None, Some(d)), Verifying(i))
    ensures run[|run| - 1] == State(Disk(Some(end[SENTINEL := MARK]), None), Returned)
    decreases |cfg.expected| - i
  {
    hide Behaviour, VerifyFile, TouchesOnly;
    var here := State(Disk(None, Some(d)), Verifying(i));
    if i == |cfg.expected| {
      end := d;
      run := PublishRun(cfg, d);
      run := Before(cfg, here, run);
    } else if VerifyFile(d, cfg.expected[i]).None? {
      run, end := VerifyRun(cfg, d, i + 1);
      run := Before(cfg, here, run);
    } else {
      var fc := cfg.expected[i];
      var d' := d[fc.path := File(fc.size, fc.sha256)];
      Delivered(cfg, d, i);
      run, end := VerifyRun(cfg, d', i + 1);
      run := Before(cfg, State(Disk(None, Some(d')), Reverifying(i)), run);
      run := Before(cfg, State(Disk(None, Some(d)), Refetching(i)), run);
      run := Before(cfg, State(Disk(None, Some(d)), Unlinking(i)), run);
      run := Before(cfg, here, run);
    }
  }

  lemma Delivered(cfg: Config, d: Dir, i: nat)
    requires i < |cfg.expected|
    ensures var fc := cfg.expected[i]; var d' := d[fc.path := File(fc.size, fc.sha256)];
      VerifyFile(d', fc).None? && TouchesOnly(cfg, d, d', fc.path)
  {}

  // Any manifest can be brought to publication from an empty cache.
  lemma PublicationRun(cfg: Config) returns (run: seq<State>, end: Dir)
    requires cfg.expected != [] && cfg.retries >= 1
    ensures FromEmpty(cfg, run) && run[|run| - 1] == State(Disk(Some(end[SENTINEL := MARK]), None), Returned)
  {
    hide Behaviour;
    var none, bare := Disk(None, None), Disk(None, Some(map[]));
    run, end := VerifyRun(cfg, map[], 0);
    run := Before(cfg, State(bare, Fetching(1)), run);
    run := Before(cfg, State(bare, Preflight), run);
    run := Before(cfg, State(none, MakePartial), run);
    run := Before(cfg, State(none, Checking(0)), run);
    run := Before(cfg, State(none, Start), run);
  }

  // A manifest is coherent exactly if some directory holds what it asks for.
  lemma CoherentIffSatisfiable(cfg: Config)
    requires NoSentinel(cfg)
    ensures Coherent(cfg) <==> exists d: Dir :: Matches(d, cfg.expected, |cfg.expected|)
  {
    if cfg.expected == [] {
      assert Matches(map[], cfg.expected, 0);
    } else if Coherent(cfg) {
      hide Matches;
      var once := cfg.(retries := 1);
      var run, end := PublicationRun(once);
      assert Inv(once, run[0]);
      BehaviourSafe(once, run, |run| - 1);
      assert Matches(end[SENTINEL := MARK], once.expected, |once.expected|);
    } else {
      forall d: Dir
        ensures !Matches(d, cfg.expected, |cfg.expected|)
      {
        if Matches(d, cfg.expected, |cfg.expected|) { Contradiction(cfg, d); }
      }
    }
  }

  lemma Contradiction(cfg: Config, d: Dir)
    requires Matches(d, cfg.expected, |cfg.expected|)
    ensures Coherent(cfg)
  {
    forall i, j | 0 <= i < j < |cfg.expected|
      ensures Agree(cfg.expected[i], cfg.expected[j])
    {
      assert VerifyFile(d, cfg.expected[i]).None? && VerifyFile(d, cfg.expected[j]).None?;
    }
  }

  // Entries that contradict each other undo each other's fetches, and a call
  // still returns with a published directory that is not what was expected.
  lemma IncoherentUnsafe(cfg: Config) returns (run: seq<State>)
    requires !Coherent(cfg) && cfg.retries >= 1
    ensures run != [] && FromEmpty(cfg, run) && run[|run| - 1].pc.Returned?
    ensures Published(run[|run| - 1].disk) && !Safe(cfg, run[|run| - 1].disk)
  {
    var end;
    run, end := PublicationRun(cfg);
    hide FromEmpty, Coherent, Matches;
    if Matches(end[SENTINEL := MARK], cfg.expected, |cfg.expected|) {
      Contradiction(cfg, end[SENTINEL := MARK]);
    }
  }

  // With no attempt allowed nothing is ever fetched, let alone published.
  predicate Idle(s: State) {
    s.disk.target.None?
    && (s.pc.Start? || s.pc.Checking? || s.pc.MakePartial? || s.pc.Preflight? || s.pc == Fetching(1) || s.pc.Raised?)
  }

  lemma {:induction false} NeverPublished(cfg: Config, run: seq<State>, k: nat)
    requires cfg.retries == 0 && FromEmpty(cfg, run) && k < |run|
    ensures Idle(run[k])
  {
    if k > 0 {
      NeverPublished(cfg, run, k - 1);
      assert Linked(cfg, run, k - 1);
    }
  }

  ghost predicate CrashSafe(cfg: Config) {
    forall run: seq<State>, k: nat :: FromEmpty(cfg, run) && k < |run| ==> Safe(cfg, run[k].disk)
  }

  // Crash safety, and exactly when: no run from an empty cache, whatever is
  // killed or raises in it, publishes anything but what was expected, if and
  // only if no two entries of the manifest contradict each other. (With no
  // attempt allowed there is nothing to publish.)
  lemma CrashSafeIff(cfg: Config)
    requires NoSentinel(cfg)
    ensures CrashSafe(cfg) <==> Coherent(cfg) || cfg.retries == 0
  {
    if cfg.retries == 0 {
      forall run: seq<State>, k: nat | FromEmpty(cfg, run) && k < |run|
        ensures Safe(cfg, run[k].disk)
      {
        NeverPublished(cfg, run, k);
      }
    } else if Coherent(cfg) {
      forall run: seq<State>, k: nat | FromEmpty(cfg, run) && k < |run|
        ensures Safe(cfg, run[k].disk)
      {
        BehaviourSafe(cfg, run, k);
      }
    } else {
      hide FromEmpty, Safe, Coherent;
      var run := IncoherentUnsafe(cfg);
      LastUnsafe(cfg, run);
    }
  }

  lemma LastUnsafe(cfg: Config, run: seq<State>)
    requires run != [] && FromEmpty(cfg, run) && !Safe(cfg, run[|run| - 1].disk)
    ensures !CrashSafe(cfg)
  {
    hide Safe, FromEmpty;
    var k: nat := |run| - 1;
    assert k < |run|;
  }

  lemma StartStep(cfg: Config, s: State)
    requires s.pc.Start?
    ensures Next(cfg, s, State(s.disk, if Published(s.disk) then Returned
                                       else if cfg.expected != [] then Checking(0) else MakePartial))
  {}

  lemma Verdict(cfg: Config, s: State)
    requires Inv(cfg, s)
    ensures s.pc.Returned? ==> Published(s.disk)
    ensures s.pc.Raised? ==> !Published(s.disk)
    ensures s.pc.RaisedMarking? ==> Published(s.disk)
  {}

  // ------------------------------------------------------- when a call succeeds

  // What one call meets: the outcome of each thing it tries, whether or not it
  // gets to try it. Reading, here, is reading to hash.
  datatype Ending = Succeeds | Transient | Fatal
  datatype Attempt = Attempt(files: Dir, ending: Ending)
  datatype Refetch = Refetch(file: Option<File>, others: Dir, ok: bool)
  datatype Write = Write(ok: bool, created: bool)
  datatype Removal = Gone | Left(files: set<string>)

  datatype World = World(
    readInPlace: nat -> bool, made: bool, room: bool, attempts: nat -> Attempt, readPrimary: bool,
    read: nat -> bool, unlinked: nat -> bool, refetch: nat -> Refetch, reread: nat -> bool,
    write: Write, removal: Removal, renamed: bool)

  // The check of the target gets to its i-th file.
  predicate Reaches(cfg: Config, w: World, d: Dir, i: nat)
    requires i <= |cfg.expected|
  {
    forall k :: 0 <= k < i ==> w.readInPlace(k) && VerifyFile(d, cfg.expected[k]).None?
  }

  predicate Adoptable(cfg: Config, w: World, disk: Disk) {
    cfg.expected != [] && disk.target.Some? && Reaches(cfg, w, disk.target.value, |cfg.expected|)
  }

  predicate CheckBreaks(cfg: Config, w: World, disk: Disk) {
    disk.target.Some?
    && exists i :: 0 <= i < |cfg.expected| && Reaches(cfg, w, disk.target.value, i) && !w.readInPlace(i)
  }

  // The k-th attempt is the first not to fail, and all before it may be retried.
  predicate Delivers(cfg: Config, w: World, k: nat) {
    1 <= k <= cfg.retries && w.attempts(k).ending.Succeeds?
    && forall m :: 1 <= m < k ==> w.attempts(m).ending.Transient?
  }

  // The second fetch of the i-th file replaces that file; what else it leaves is
  // of no file that is expected.
  function Refetched(cfg: Config, w: World, d: Dir, i: nat): Dir
    requires i < |cfg.expected|
  {
    var path, got := cfg.expected[i].path, w.refetch(i);
    var kept := map p | p in d && p != path :: d[p];
    var strays := map p | p in got.others && !ExpectedPath(cfg, p) :: got.others[p];
    if got.file.Some? then (kept + strays)[path := got.file.value] else kept + strays
  }

  // The i-th file matches at once, or after the one time it is fetched again.
  predicate Holds(cfg: Config, w: World, d: Dir, i: nat)
    requires i < |cfg.expected|
  {
    var fc := cfg.expected[i];
    w.read(i)
    && (VerifyFile(d, fc).None?
        || (w.refetch(i).ok && w.reread(i) && VerifyFile(Refetched(cfg, w, d, i), fc).None?))
  }

  // The directory when the i-th file is due.
  function Due(cfg: Config, w: World, d: Dir, i: nat): Dir
    requires i <= |cfg.expected|
  {
    if i == 0 then d
    else
      var p := Due(cfg, w, d, i - 1);
      if VerifyFile(p, cfg.expected[i - 1]).None? then p else Refetched(cfg, w, p, i - 1)
  }

  predicate AllHold(cfg: Config, w: World, d: Dir) {
    if cfg.expected == [] then w.readPrimary && PrimaryThere(cfg, d)
    else forall i :: 0 <= i < |cfg.expected| ==> Holds(cfg, w, Due(cfg, w, d, i), i)
  }

  function Leftover(target: Option<Dir>, removal: Removal): Option<Dir> {
    if target.None? || removal.Gone? then None
    else Some(map p | p in target.value && p in removal.files :: target.value[p])
  }

  predicate Cleared(w: World, target: Option<Dir>) {
    Leftover(target, w.removal) in {None, Some(map[])}
  }

  // Fetched in the k-th attempt, verified and published.
  predicate FetchedBy(cfg: Config, w: World, disk: Disk, k: nat) {
    w.made && w.room && Delivers(cfg, w, k) && AllHold(cfg, w, w.attempts(k).files)
    && w.write.ok && Cleared(w, disk.target) && w.renamed
  }

  // The calls that return: for what is published already, for files that only
  // lack the sentinel, and for a fetch that goes well to the end.
  predicate Returns(cfg: Config, w: World, disk: Disk) {
    Published(disk)
    || (if Adoptable(cfg, w, disk) then w.write.ok
        else !CheckBreaks(cfg, w, disk) && exists k: nat :: k <= cfg.retries && FetchedBy(cfg, w, disk, k))
  }

  predicate Delivery(cfg: Config, w: World) {
    exists k: nat :: k <= cfg.retries && Delivers(cfg, w, k)
  }

  lemma DeliveredAt(cfg: Config, w: World, k: nat)
    requires Delivers(cfg, w, k)
    ensures Delivery(cfg, w) && forall m: nat :: Delivers(cfg, w, m) ==> m == k
  {}

  lemma FailedAt(cfg: Config, w: World, k: nat)
    requires 1 <= k && forall m :: 1 <= m < k ==> w.attempts(m).ending.Transient?
    requires k > cfg.retries || w.attempts(k).ending.Fatal? || (k == cfg.retries && !w.attempts(k).ending.Succeeds?)
    ensures !Delivery(cfg, w) && forall m: nat :: !Delivers(cfg, w, m)
  {}

  lemma DeliversOnce(cfg: Config, w: World, k: nat, m: nat)
    requires Delivers(cfg, w, k) && Delivers(cfg, w, m)
    ensures k == m
  {}

  // Unlinked or not, the file is replaced.
  lemma RefetchedAnew(cfg: Config, w: World, d: Dir, i: nat)
    requires i < |cfg.expected|
    ensures Refetched(cfg, w, d - {cfg.expected[i].path}, i) == Refetched(cfg, w, d, i)
  {
    var path := cfg.expected[i].path;
    assert (map p | p in d - {path} && p != path :: (d - {path})[p]) == (map p | p in d && p != path :: d[p]);
  }

  // A check that breaks at a file has not adopted the target.
  lemma BreaksFirst(cfg: Config, w: World, disk: Disk)
    ensures CheckBreaks(cfg, w, disk) ==> !Adoptable(cfg, w, disk)
  {}

  lemma NothingBreaks(cfg: Config, w: World, disk: Disk)
    requires cfg.expected == []
    ensures !CheckBreaks(cfg, w, disk) && !Adoptable(cfg, w, disk)
  {}

  predicate DistinctPaths(cfg: Config) {
    forall i, j :: 0 <= i < j < |cfg.expected| ==> cfg.expected[i].path != cfg.expected[j].path
  }

  predicate Fits(file: Option<File>, fc: Checksum) {
    file.Some? && (fc.size == 0 || file.value.size == fc.size) && Lower(file.value.sha256) == Lower(fc.sha256)
  }

  lemma {:induction false} DueElsewhere(cfg: Config, w: World, d: Dir, i: nat, j: nat)
    requires DistinctPaths(cfg) && i <= j < |cfg.expected|
    ensures VerifyFile(Due(cfg, w, d, i), cfg.expected[j]) == VerifyFile(d, cfg.expected[j])
  {
    if i > 0 {
      DueElsewhere(cfg, w, d, i - 1, j);
      RefetchedElsewhere(cfg, w, Due(cfg, w, d, i - 1), i - 1, j);
      hide VerifyFile, Refetched;
    }
  }

  lemma RefetchedElsewhere(cfg: Config, w: World, d: Dir, i: nat, j: nat)
    requires i < |cfg.expected| && j < |cfg.expected| && cfg.expected[i].path != cfg.expected[j].path
    ensures VerifyFile(Refetched(cfg, w, d, i), cfg.expected[j]) == VerifyFile(d, cfg.expected[j])
  {
    assert ExpectedPath(cfg, cfg.expected[j].path);
  }

  // Where no path is listed twice every file has its own fate: it arrived right,
  // or the one time it is fetched again brings it right.
  lemma AllHoldIff(cfg: Config, w: World, d: Dir)
    requires DistinctPaths(cfg) && cfg.expected != []
    ensures AllHold(cfg, w, d) <==>
      forall i :: 0 <= i < |cfg.expected| ==>
        w.read(i)
        && (VerifyFile(d, cfg.expected[i]).None?
            || (w.refetch(i).ok && w.reread(i) && Fits(w.refetch(i).file, cfg.expected[i])))
  {
    forall i | 0 <= i < |cfg.expected|
      ensures Holds(cfg, w, Due(cfg, w, d, i), i) <==>
        w.read(i)
        && (VerifyFile(d, cfg.expected[i]).None?
            || (w.refetch(i).ok && w.reread(i) && Fits(w.refetch(i).file, cfg.expected[i])))
    {
      DueElsewhere(cfg, w, d, i, i);
      RefetchedFits(cfg, w, Due(cfg, w, d, i), i);
      hide VerifyFile, Refetched, Fits, Due;
    }
  }

  lemma RefetchedFits(cfg: Config, w: World, d: Dir, i: nat)
    requires i < |cfg.expected|
    ensures VerifyFile(Refetched(cfg, w, d, i), cfg.expected[i]).None? <==> Fits(w.refetch(i).file, cfg.expected[i])
  {
    assert ExpectedPath(cfg, cfg.expected[i].path);
  }

  // ------------------------------------------------------------ the method

  // One call of `download`, step by step on the two directories. `trace` holds
  // the state after every step: wherever it is cut, that is a disk a kill leaves.
  class Downloader {
    const cfg: Config
    var target: Option<Dir>
    var partial: Option<Dir>
    ghost var trace: seq<State>

    ghost predicate Valid()
      reads this
    {
      WellFormed(cfg) && trace != [] && Inv(cfg, Now()) && Behaviour(cfg, trace)
      && Now().disk == Disk(target, partial)
    }

    ghost function Now(): State
      reads this
      requires trace != []
    {
      trace[|trace| - 1]
    }

    constructor (cfg: Config)
      requires WellFormed(cfg)
      ensures Valid() && this.cfg == cfg && trace == [State(Disk(None, None), Start)]
    {
      this.cfg := cfg;
      target, partial := None, None;
      trace := [State(Disk(None, None), Start)];
    }

    // Reach a program point; the step from the last one has to be a step of the protocol.
    ghost method At(pc: Pc)
      requires WellFormed(cfg) && trace != [] && Inv(cfg, Now()) && Behaviour(cfg, trace)
      requires Next(cfg, Now(), State(Disk(target, partial), pc)) || Restarts(Now(), State(Disk(target, partial), pc))
      modifies this`trace
      ensures Valid() && Now().pc == pc && old(trace) <= trace
    {
      var s := State(Disk(target, partial), pc);
      if Next(cfg, Now(), s) { NextKeeps(cfg, Now(), s); }
      ghost var before := trace;
      trace := trace + [s];
      forall i | 0 <= i < |trace| - 1
        ensures Linked(cfg, trace, i)
      {
        if i < |before| - 1 { assert Linked(cfg, before, i); }
      }
    }

    method AllFilesVerifyInPlace(w: World) returns (all: bool, ok: bool)
      requires Valid() && Now().pc == Checking(0)
      modifies this`trace
      ensures Valid() && old(trace) <= trace
      ensures Now().pc == if !ok then Raised else if all then AdoptSentinel else MakePartial
      ensures all == Adoptable(cfg, w, Disk(target, partial)) && ok == !CheckBreaks(cfg, w, Disk(target, partial))
    {
      hide VerifyFile, Behaviour, WellFormed, FetchStep, VerifyStep, UnlinkStep, RefetchStep, ReverifyStep;
      if target.None? {
        At(MakePartial);
        return false, true;
      }
      for i := 0 to |cfg.expected|
        invariant Valid() && Now().pc == Checking(i) && old(trace) <= trace && Reaches(cfg, w, target.value, i)
      {
        if !w.readInPlace(i) {
          At(Raised);
          return false, false;
        }
        if VerifyFile(target.value, cfg.expected[i]).Some? {
          At(MakePartial);
          return false, true;
        }
        At(Checking(i + 1));
      }
      At(AdoptSentinel);
      return true, true;
    }

    // `_fetch`: attempts until one succeeds.
    method Fetch(w: World) returns (ok: bool)
      requires Valid() && Now().pc == Fetching(1)
      modifies this`partial, this`trace
      ensures Valid() && old(trace) <= trace
      ensures Now().pc == if !ok then Raised else if cfg.expected == [] then CheckPrimary else Verifying(0)
      ensures ok == Delivery(cfg, w)
      ensures forall k: nat :: Delivers(cfg, w, k) ==> partial == Some(w.attempts(k).files)
    {
      hide VerifyFile, Behaviour, Matches, WellFormed, Complete, CheckStep, VerifyStep, UnlinkStep, RefetchStep,
           ReverifyStep, Delivery;
      var attempt := 1;
      while attempt <= cfg.retries
        invariant Valid() && attempt >= 1 && old(trace) <= trace
        invariant attempt <= cfg.retries || attempt == 1
        invariant Now().pc == Fetching(attempt)
        invariant forall m :: 1 <= m < attempt ==> w.attempts(m).ending.Transient?
      {
        partial := Some(w.attempts(attempt).files);
        if w.attempts(attempt).ending.Succeeds? {
          At(if cfg.expected == [] then CheckPrimary else Verifying(0));
          DeliveredAt(cfg, w, attempt);
          return true;
        }
        if w.attempts(attempt).ending.Fatal? || attempt == cfg.retries {
          At(Raised);
          FailedAt(cfg, w, attempt);
          return false;
        }
        At(Fetching(attempt + 1));
        attempt := attempt + 1;
      }
      FailedAt(cfg, w, attempt);
      At(Raised);
      return false;
    }

    // `_verify_all`
    method VerifyAll(w: World) returns (ok: bool)
      requires Valid() && (Now().pc == CheckPrimary || Now().pc == Verifying(0))
      modifies this`partial, this`trace
      ensures Valid() && old(trace) <= trace && Now().pc == if ok then WriteSentinel else Raised
      ensures old(partial).Some? && ok == AllHold(cfg, w, old(partial).value)
      ensures ok ==> partial == Some(Due(cfg, w, old(partial).value, |cfg.expected|))
    {
      hide VerifyFile, Holds, Refetched, Behaviour, Matches, WellFormed;
      ghost var d := partial.value;
      if cfg.expected == [] {
        ok := w.readPrimary && PrimaryThere(cfg, partial.value);
        At(if ok then WriteSentinel else Raised);
        return;
      }
      for i := 0 to |cfg.expected|
        invariant Valid() && Now().pc == Verifying(i) && old(trace) <= trace
        invariant partial == Some(Due(cfg, w, d, i))
        invariant forall k :: 0 <= k < i ==> Holds(cfg, w, Due(cfg, w, d, k), k)
      {
        ok := VerifyOne(w, i);
        if !ok { return; }
      }
      At(WriteSentinel);
      return true;
    }

    // The body of that loop: verify, and on a mismatch fetch once more.
    method VerifyOne(w: World, i: nat) returns (ok: bool)
      requires Valid() && Now().pc == Verifying(i) && i < |cfg.expected|
      modifies this`partial, this`trace
      ensures Valid() && old(trace) <= trace && Now().pc == if ok then Verifying(i + 1) else Raised
      ensures old(partial).Some? && ok == Holds(cfg, w, old(partial).value, i)
      ensures ok ==> partial == Some(if VerifyFile(old(partial).value, cfg.expected[i]).None? then old(partial).value
                                     else Refetched(cfg, w, old(partial).value, i))
    {
      hide VerifyFile, Behaviour, Matches, WellFormed, Refetched, Complete, Awaits, CheckStep, FetchStep;
      var fc := cfg.expected[i];
      if !w.read(i) {
        At(Raised);
        return false;
      }
      if VerifyFile(partial.value, fc).None? {
        At(Verifying(i + 1));
        return true;
      }
      At(Unlinking(i));
      ghost var d := partial.value;
      Unlink(w, i);
      ok := RefetchOne(w, i);
      RefetchedAnew(cfg, w, d, i);
      if !ok { return; }
      ok := w.reread(i) && VerifyFile(partial.value, fc).None?;
      At(if ok then Verifying(i + 1) else Raised);
    }

    method Unlink(w: World, i: nat)
      requires Valid() && Now().pc == Unlinking(i) && i < |cfg.expected|
      modifies this`partial, this`trace
      ensures Valid() && old(trace) <= trace && Now().pc == Refetching(i)
      ensures old(partial).Some?
      ensures partial == if w.unlinked(i) then Some(old(partial).value - {cfg.expected[i].path}) else old(partial)
    {
      hide VerifyFile, Behaviour, Matches, WellFormed;
      if w.unlinked(i) { partial := Some(partial.value - {cfg.expected[i].path}); }
      At(Refetching(i));
    }

    // `_refetch_one`
    method RefetchOne(w: World, i: nat) returns (ok: bool)
      requires Valid() && Now().pc == Refetching(i) && i < |cfg.expected|
      modifies this`partial, this`trace
      ensures Valid() && old(trace) <= trace && Now().pc == if ok then Reverifying(i) else Raised
      ensures ok == w.refetch(i).ok && old(partial).Some? && partial == Some(Refetched(cfg, w, old(partial).value, i))
    {
      ghost var before := partial.value;
      partial := Some(Refetched(cfg, w, partial.value, i));
      assert TouchesOnly(cfg, before, partial.value, cfg.expected[i].path);
      ok := w.refetch(i).ok;
      hide Refetched;
      At(if ok then Reverifying(i) else Raised);
    }

    // `download`: true for a normal return, false for an exception.
    method Download(w: World) returns (ok: bool)
      requires Valid() && Now().pc == Start
      modifies this
      ensures Valid() && old(trace) <= trace && (ok <==> Now().pc.Returned?)
      ensures ok == Returns(cfg, w, old(Disk(target, partial)))
      ensures ok && !old(Published(Disk(target, partial))) ==>
        if Adoptable(cfg, w, old(Disk(target, partial)))
        then target == Some(old(target).value[SENTINEL := MARK]) && partial == old(partial)
        else partial == None && forall k: nat :: Delivers(cfg, w, k) ==>
               target == Some(Due(cfg, w, w.attempts(k).files, |cfg.expected|)[SENTINEL := MARK])
      ensures !ok ==> Now().pc.Raised? || Now().pc.RaisedMarking?
      ensures Published(Disk(target, partial)) <==> ok || Now().pc.RaisedMarking?
      ensures Now().pc.RaisedMarking? ==>
        old(target).Some? && Complete(cfg, old(target).value) && target == Some(old(target).value[SENTINEL := MARK])
      ensures old(Published(Disk(target, partial))) ==> ok && target == old(target) && partial == old(partial)
    {
      hide Next, Inv, Behaviour, WellFormed, CheckBreaks, FetchedBy, Reaches;
      StartStep(cfg, Now());
      if target.Some? && SENTINEL in target.value {
        At(Returned);
        return true;
      }
      if cfg.expected != [] {
        At(Checking(0));
        var adopt;
        adopt, ok := AllFilesVerifyInPlace(w);
        if !ok {
          BreaksFirst(cfg, w, Disk(target, partial));
          Verdict(cfg, Now());
          return;
        }
        if adopt {
          ok := WriteSentinelInPlace(w);
          Verdict(cfg, Now());
          return;
        }
      } else {
        NothingBreaks(cfg, w, Disk(target, partial));
        At(MakePartial);
      }
      ok := FetchAndPublish(w);
      Verdict(cfg, Now());
    }

    // The rest of `download`, once the target is known to be incomplete.
    method FetchAndPublish(w: World) returns (ok: bool)
      requires Valid() && Now().pc == MakePartial
      modifies this`target, this`partial, this`trace
      ensures Valid() && old(trace) <= trace && Now().pc == if ok then Returned else Raised
      ensures ok <==> exists k: nat :: k <= cfg.retries && FetchedBy(cfg, w, old(Disk(target, partial)), k)
      ensures ok ==> partial == None && forall k: nat :: Delivers(cfg, w, k) ==>
        target == Some(Due(cfg, w, w.attempts(k).files, |cfg.expected|)[SENTINEL := MARK])
    {
      hide Next, Inv, Behaviour, WellFormed, AllHold, Due, Cleared;
      ok := Prepare(w);
      if !ok { return; }
      ok := Fetch(w);
      if !ok { return; }
      ghost var k: nat :| k <= cfg.retries && Delivers(cfg, w, k);
      forall m: nat | Delivers(cfg, w, m)
        ensures m == k
      {
        DeliversOnce(cfg, w, k, m);
      }
      hide Delivers;
      ok := VerifyAll(w);
      if !ok { return; }
      ok := Publish(w);
      assert ok == FetchedBy(cfg, w, old(Disk(target, partial)), k);
    }

    method WriteSentinelInPlace(w: World) returns (ok: bool)
      requires Valid() && Now().pc == AdoptSentinel
      modifies this`target, this`trace
      ensures Valid() && old(trace) <= trace && target.Some? && old(target).Some?
      ensures ok == w.write.ok && (ok ==> target == Some(old(target).value[SENTINEL := MARK]))
      ensures ok <==> Now().pc.Returned?
      ensures !ok ==> Now().pc.Raised? || Now().pc.RaisedMarking?
      ensures Now().pc.RaisedMarking?
            ==> Complete(cfg, old(target).value) && target == Some(old(target).value[SENTINEL := MARK])
    {
      hide VerifyFile, Behaviour, Matches, WellFormed;
      ok := w.write.ok;
      if ok || w.write.created { target := Some(target.value[SENTINEL := MARK]); }
      At(if ok then Returned else if w.write.created then RaisedMarking else Raised);
    }

    // Make `.partial` and look at the free space.
    method Prepare(w: World) returns (ok: bool)
      requires Valid() && Now().pc == MakePartial
      modifies this`partial, this`trace
      ensures Valid() && old(trace) <= trace && Now().pc == if ok then Fetching(1) else Raised
      ensures ok == (w.made && w.room)
    {
      hide VerifyFile, Behaviour, Matches, WellFormed;
      if !w.made { At(Raised); return false; }
      partial := Some(if partial.Some? then partial.value else map[]);
      At(Preflight);
      At(if w.room then Fetching(1) else Raised);
      return w.room;
    }

    // Sentinel, removal of what is in the way, rename.
    method Publish(w: World) returns (ok: bool)
      requires Valid() && Now().pc == WriteSentinel
      modifies this`target, this`partial, this`trace
      ensures Valid() && old(trace) <= trace && Now().pc == if ok then Returned else Raised
      ensures ok == (w.write.ok && Cleared(w, old(target)) && w.renamed) && old(partial).Some?
      ensures ok ==> target == Some(old(partial).value[SENTINEL := MARK]) && partial == None
    {
      hide Next, Inv, Behaviour, WellFormed;
      ok := MarkPartial(w);
      if !ok { return; }
      RemoveTarget(w);
      ok := Rename(w);
    }

    method MarkPartial(w: World) returns (ok: bool)
      requires Valid() && Now().pc == WriteSentinel
      modifies this`partial, this`trace
      ensures Valid() && old(trace) <= trace && Now().pc == if ok then ClearTarget else Raised
      ensures ok == w.write.ok && old(partial).Some? && (ok ==> partial == Some(old(partial).value[SENTINEL := MARK]))
    {
      hide VerifyFile, Behaviour, Matches, WellFormed, Complete, CheckStep, FetchStep,
           VerifyStep, UnlinkStep, RefetchStep, ReverifyStep;
      ok := w.write.ok;
      if ok || w.write.created { partial := Some(partial.value[SENTINEL := MARK]); }
      At(if ok then ClearTarget else Raised);
    }

    // `rmtree(target, ignore_errors=True)`, which may leave files behind.
    method RemoveTarget(w: World)
      requires Valid() && Now().pc == ClearTarget
      modifies this`target, this`trace
      ensures Valid() && old(trace) <= trace && Now().pc == Replacing
      ensures target == Leftover(old(target), w.removal)
    {
      hide VerifyFile, Behaviour, Matches, WellFormed, Complete, CheckStep, FetchStep,
           VerifyStep, UnlinkStep, RefetchStep, ReverifyStep;
      if target.Some? { target := Leftover(target, w.removal); }
      At(Replacing);
    }

    method Rename(w: World) returns (ok: bool)
      requires Valid() && Now().pc == Replacing
      modifies this`target, this`partial, this`trace
      ensures Valid() && old(trace) <= trace && Now().pc == if ok then Returned else Raised
      ensures ok == (w.renamed && old(target) in {None, Some(map[])})
      ensures ok ==> target == old(partial) && partial == None
    {
      hide VerifyFile, Behaviour, Matches, WellFormed, Complete, CheckStep, FetchStep,
           VerifyStep, UnlinkStep, RefetchStep, ReverifyStep;
      ok := w.renamed;
      if !ok || (target.Some? && target.value != map[]) { At(Raised); return false; }
      target, partial := partial, None;
      At(Returned);
    }

    // A kill and a new call: only the disk survives.
    method Relaunch()
      requires Valid()
      modifies this`trace
      ensures Valid() && Now().pc == Start && old(trace) <= trace
      ensures target == old(target) && partial == old(partial)
    {
      At(Start);
    }
  }
}
