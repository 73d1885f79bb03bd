/** The results accumulator (`AllResults`, `ProfileResults`, `insert`) and
    the effect of processing one revision on it (`process_commit`). */
module Results {
  import opened Outcomes
  import opened Commits

  /** A measured build time in nanoseconds, the resolution of Rust's `Duration`. */
  type Duration = nat

  /** A binary's length in bytes, an unsigned 64-bit value. */
  type Size = n: nat | n < 0x1_0000_0000_0000_0000

  /** Revision to build-time samples, oldest first; samples are only ever appended. */
  type BuildTimes = map<Hash, seq<Duration>>

  /** Revision to binary size; a later size replaces an earlier one. */
  type BinarySizes = map<Hash, Size>

  /** The results of one build profile. */
  datatype ProfileResults = ProfileResults(
    fullBuildTimes: BuildTimes,
    partialBuildTimes: BuildTimes,
    binarySize: BinarySizes)

  /** The results of both profiles: everything the benchmark accumulates. */
  datatype AllResults = AllResults(debug: ProfileResults, release: ProfileResults)

  /** The six measurements one revision yields. */
  datatype Measurements = Measurements(
    debugFull: Duration, debugPartial: Duration, debugSize: Size,
    releaseFull: Duration, releasePartial: Duration, releaseSize: Size)

  /** One recording into the accumulator. */
  datatype Recording =
    DebugFull | DebugPartial | DebugSize | ReleaseFull | ReleasePartial | ReleaseSize

  /** The recordings of one revision, in the order `process_commit` makes them. */
  const Recordings: seq<Recording> :=
    [DebugFull, DebugPartial, DebugSize, ReleaseFull, ReleasePartial, ReleaseSize]

  /** A sub-step of processing one revision that can fail: the three
      preparation commands, then the command or size read behind each recording. */
  datatype Stage = Stash | Checkout | Patch | Measure(what: Recording)

  /** What the external tools deliver for one revision: all six measurements,
      or a failure at some stage together with the measurements taken before it. */
  datatype BuildRun = Completed(m: Measurements) | Failed(at: Stage, m: Measurements)

  function Lookup<V>(m: map<Hash, V>, hash: Hash): Option<V> {
    if hash in m then Some(m[hash]) else None
  }

  /** The samples held for `hash`, empty when it has no key. */
  function Samples(m: BuildTimes, hash: Hash): seq<Duration> {
    if hash in m then m[hash] else []
  }

  /** Everything the accumulator holds about one revision. */
  datatype Entry = Entry(
    debugFull: Option<seq<Duration>>, debugPartial: Option<seq<Duration>>, debugSize: Option<Size>,
    releaseFull: Option<seq<Duration>>, releasePartial: Option<seq<Duration>>, releaseSize: Option<Size>)

  const NoEntry := Entry(None, None, None, None, None, None)

  function EntryOf(r: AllResults, hash: Hash): Entry {
    Entry(
      Lookup(r.debug.fullBuildTimes, hash), Lookup(r.debug.partialBuildTimes, hash),
      Lookup(r.debug.binarySize, hash),
      Lookup(r.release.fullBuildTimes, hash), Lookup(r.release.partialBuildTimes, hash),
      Lookup(r.release.binarySize, hash))
  }

  /** Two accumulators with the same entry for every revision are equal. */
  lemma SameEntriesSameResults(a: AllResults, b: AllResults)
    requires forall h :: EntryOf(a, h) == EntryOf(b, h)
    ensures a == b
  {
    assert forall h :: Lookup(a.debug.fullBuildTimes, h) == Lookup(b.debug.fullBuildTimes, h) by {
      forall h ensures Lookup(a.debug.fullBuildTimes, h) == Lookup(b.debug.fullBuildTimes, h) {
        assert EntryOf(a, h) == EntryOf(b, h);
      }
    }
    assert forall h :: Lookup(a.debug.partialBuildTimes, h) == Lookup(b.debug.partialBuildTimes, h) by {
      forall h ensures Lookup(a.debug.partialBuildTimes, h) == Lookup(b.debug.partialBuildTimes, h) {
        assert EntryOf(a, h) == EntryOf(b, h);
      }
    }
    assert forall h :: Lookup(a.debug.binarySize, h) == Lookup(b.debug.binarySize, h) by {
      forall h ensures Lookup(a.debug.binarySize, h) == Lookup(b.debug.binarySize, h) {
        assert EntryOf(a, h) == EntryOf(b, h);
      }
    }
    assert forall h :: Lookup(a.release.fullBuildTimes, h) == Lookup(b.release.fullBuildTimes, h) by {
      forall h ensures Lookup(a.release.fullBuildTimes, h) == Lookup(b.release.fullBuildTimes, h) {
        assert EntryOf(a, h) == EntryOf(b, h);
      }
    }
    assert forall h :: Lookup(a.release.partialBuildTimes, h) == Lookup(b.release.partialBuildTimes, h) by {
      forall h ensures Lookup(a.release.partialBuildTimes, h) == Lookup(b.release.partialBuildTimes, h) {
        assert EntryOf(a, h) == EntryOf(b, h);
      }
    }
    assert forall h :: Lookup(a.release.binarySize, h) == Lookup(b.release.binarySize, h) by {
      forall h ensures Lookup(a.release.binarySize, h) == Lookup(b.release.binarySize, h) {
        assert EntryOf(a, h) == EntryOf(b, h);
      }
    }
    SameLookupsSameMap(a.debug.fullBuildTimes, b.debug.fullBuildTimes);
    SameLookupsSameMap(a.debug.partialBuildTimes, b.debug.partialBuildTimes);
    SameLookupsSameMap(a.debug.binarySize, b.debug.binarySize);
    SameLookupsSameMap(a.release.fullBuildTimes, b.release.fullBuildTimes);
    SameLookupsSameMap(a.release.partialBuildTimes, b.release.partialBuildTimes);
    SameLookupsSameMap(a.release.binarySize, b.release.binarySize);
  }

  lemma SameLookupsSameMap<V>(a: map<Hash, V>, b: map<Hash, V>)
    requires forall h :: Lookup(a, h) == Lookup(b, h)
    ensures a == b
  {
    assert forall h :: h in a <==> h in b by {
      forall h ensures h in a <==> h in b {
        assert Lookup(a, h) == Lookup(b, h);
      }
    }
    forall h | h in a ensures a[h] == b[h] {
      assert Lookup(a, h) == Lookup(b, h);
    }
  }

  function NewProfileResults(): ProfileResults {
    ProfileResults(map[], map[], map[])
  }

  /** `AllResults::new`: an accumulator that holds nothing about any revision. */
  function NewAllResults(): (r: AllResults)
    ensures forall h :: EntryOf(r, h) == NoEntry
  {
    AllResults(NewProfileResults(), NewProfileResults())
  }

  /** `insert`: appends `d` to the samples of `hash`, starting a sequence
      when there is none. */
  function Insert(m: BuildTimes, hash: Hash, d: Duration): (r: BuildTimes)
    ensures Lookup(r, hash) == Some(Samples(m, hash) + [d])
    ensures forall k :: k != hash ==> Lookup(r, k) == Lookup(m, k)
  {
    m[hash := Samples(m, hash) + [d]]
  }

  /** One recording of `hash`'s measurements into the accumulator. */
  function RecordOne(r: AllResults, hash: Hash, m: Measurements, what: Recording): AllResults {
    match what
    case DebugFull =>
      r.(debug := r.debug.(fullBuildTimes := Insert(r.debug.fullBuildTimes, hash, m.debugFull)))
    case DebugPartial =>
      r.(debug := r.debug.(partialBuildTimes := Insert(r.debug.partialBuildTimes, hash, m.debugPartial)))
    case DebugSize =>
      r.(debug := r.debug.(binarySize := r.debug.binarySize[hash := m.debugSize]))
    case ReleaseFull =>
      r.(release := r.release.(fullBuildTimes := Insert(r.release.fullBuildTimes, hash, m.releaseFull)))
    case ReleasePartial =>
      r.(release := r.release.(partialBuildTimes := Insert(r.release.partialBuildTimes, hash, m.releasePartial)))
    case ReleaseSize =>
      r.(release := r.release.(binarySize := r.release.binarySize[hash := m.releaseSize]))
  }

  /** The accumulator after the first `n` recordings of `hash`. Each duration
      sequence gains its sample once its recording is among the first `n`;
      each size is overwritten likewise; other revisions are untouched. */
  function RecordSteps(r: AllResults, hash: Hash, m: Measurements, n: nat): (r': AllResults)
    requires n <= |Recordings|
    ensures forall k :: k != hash ==> EntryOf(r', k) == EntryOf(r, k)
    ensures Lookup(r'.debug.fullBuildTimes, hash) ==
      if n > 0 then Some(Samples(r.debug.fullBuildTimes, hash) + [m.debugFull])
      else Lookup(r.debug.fullBuildTimes, hash)
    ensures Lookup(r'.debug.partialBuildTimes, hash) ==
      if n > 1 then Some(Samples(r.debug.partialBuildTimes, hash) + [m.debugPartial])
      else Lookup(r.debug.partialBuildTimes, hash)
    ensures Lookup(r'.debug.binarySize, hash) ==
      if n > 2 then Some(m.debugSize) else Lookup(r.debug.binarySize, hash)
    ensures Lookup(r'.release.fullBuildTimes, hash) ==
      if n > 3 then Some(Samples(r.release.fullBuildTimes, hash) + [m.releaseFull])
      else Lookup(r.release.fullBuildTimes, hash)
    ensures Lookup(r'.release.partialBuildTimes, hash) ==
      if n > 4 then Some(Samples(r.release.partialBuildTimes, hash) + [m.releasePartial])
      else Lookup(r.release.partialBuildTimes, hash)
    ensures Lookup(r'.release.binarySize, hash) ==
      if n > 5 then Some(m.releaseSize) else Lookup(r.release.binarySize, hash)
  {
    if n == 0 then r else RecordOne(RecordSteps(r, hash, m, n - 1), hash, m, Recordings[n - 1])
  }

  /** The samples an entry field holds, none when it is absent. */
  function SamplesIn(o: Option<seq<Duration>>): seq<Duration> {
    if o.Some? then o.value else []
  }

  /** What one successful processing makes of a revision's entry: one more
      sample at the end of each of the four duration sequences, and both
      sizes replaced. */
  function Recorded(e: Entry, m: Measurements): Entry {
    Entry(
      Some(SamplesIn(e.debugFull) + [m.debugFull]), Some(SamplesIn(e.debugPartial) + [m.debugPartial]),
      Some(m.debugSize),
      Some(SamplesIn(e.releaseFull) + [m.releaseFull]), Some(SamplesIn(e.releasePartial) + [m.releasePartial]),
      Some(m.releaseSize))
  }

  /** All six recordings of a successful `process_commit`: the entry of
      `hash` becomes `Recorded` from its old entry, and every other revision
      keeps its entry. */
  function Record(r: AllResults, hash: Hash, m: Measurements): (r': AllResults)
    ensures EntryOf(r', hash) == Recorded(EntryOf(r, hash), m)
    ensures forall k :: k != hash ==> EntryOf(r', k) == EntryOf(r, k)
  {
    RecordSteps(r, hash, m, |Recordings|)
  }

  /** How many recordings precede a stage: the position of a measurement in
      `Recordings`, none for the preparation commands. */
  function RecordedBefore(s: Stage): (n: nat)
    ensures n < |Recordings|
    ensures s.Measure? ==> Recordings[n] == s.what
    ensures !s.Measure? ==> n == 0
  {
    match s
    case Stash => 0
    case Checkout => 0
    case Patch => 0
    case Measure(what) =>
      match what
      case DebugFull => 0
      case DebugPartial => 1
      case DebugSize => 2
      case ReleaseFull => 3
      case ReleasePartial => 4
      case ReleaseSize => 5
  }

  /** The in-memory effect of `process_commit` for `hash`. A completed run
      records all six measurements; a failed one keeps the recordings made
      before the failing stage, so it never reaches the release size, and
      leaves the accumulator as it was when it fails before the first build. */
  function ProcessCommit(r: AllResults, hash: Hash, run: BuildRun): (r': AllResults)
    ensures forall k :: k != hash ==> EntryOf(r', k) == EntryOf(r, k)
    ensures run.Completed? ==> r' == Record(r, hash, run.m)
    ensures run.Failed? ==> Lookup(r'.release.binarySize, hash) == Lookup(r.release.binarySize, hash)
    ensures run.Failed? && !run.at.Measure? ==> r' == r
  {
    match run
    case Completed(m) => Record(r, hash, m)
    case Failed(at, m) => RecordSteps(r, hash, m, RecordedBefore(at))
  }

  /** Two recordings of the same revision under one profile give a sequence
      of both samples in order of recording, while the size is overwritten. */
  lemma RecordTwice(r: AllResults, hash: Hash, m1: Measurements, m2: Measurements)
    requires Lookup(r.debug.fullBuildTimes, hash) == None
    ensures var r2 := Record(Record(r, hash, m1), hash, m2);
      && Lookup(r2.debug.fullBuildTimes, hash) == Some([m1.debugFull, m2.debugFull])
      && Lookup(r2.debug.binarySize, hash) == Some(m2.debugSize)
  {
    var r1 := Record(r, hash, m1);
    assert SamplesIn(EntryOf(r, hash).debugFull) + [m1.debugFull] == [m1.debugFull];
    assert SamplesIn(EntryOf(r1, hash).debugFull) == [m1.debugFull];
    assert [m1.debugFull] + [m2.debugFull] == [m1.debugFull, m2.debugFull];
    assert EntryOf(Record(r1, hash, m2), hash).debugFull == Some([m1.debugFull, m2.debugFull]);
  }
}
