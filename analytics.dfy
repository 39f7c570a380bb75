/** The analytics service (pkg/analytics/analytics.go): the snapshot builder,
    the counter merge as it is written, the report sender's upload counter,
    and the Start/Stop lifecycle run over an explicit list of events.

    Everything the service asks of its surroundings (runtime memory
    statistics, platform strings, the clock, fresh uuids, the build version,
    disk usage, the stats provider, and the outcome of JSON encoding, the
    HTTP POST and the body read) is passed in as a parameter. */
module Analytics {
  import opened Storage

  // -----------------------------------------------------------------------
  // Fixed-width integers of the runtime statistics
  // -----------------------------------------------------------------------

  const TwoTo64: int := 0x1_0000_0000_0000_0000
  const TwoTo63: int := 0x8000_0000_0000_0000

  newtype uint64 = x: int | 0 <= x < 0x1_0000_0000_0000_0000
  newtype uint32 = x: int | 0 <= x < 0x1_0000_0000

  /** Go's `int(u)` for a uint64, with a 64-bit int: the int64 that has the
      same bits, i.e. the one value in int64's range congruent to u. */
  function Int64Of(u: uint64): (r: int)
    ensures -TwoTo63 <= r < TwoTo63
    ensures r % TwoTo64 == u as int
  {
    if (u as int) < TwoTo63 then u as int else u as int - TwoTo64
  }

  /** The four fields of runtime.MemStats the snapshot reads. */
  datatype MemStats = MemStats(alloc: uint64, totalAlloc: uint64, sys: uint64, numGC: uint32)

  /** Everything one call of getAnalytics reads besides the upload counter. */
  datatype Inputs = Inputs(
    installID: string,               // s.s.InstallID()
    runID: string,                   // uuid.New().String()
    version: string,                 // build.Version
    now: Instant,                    // time.Now()
    goos: string,                    // runtime.GOOS
    goarch: string,                  // runtime.GOARCH
    goVersion: string,               // runtime.Version()
    mem: MemStats,                   // runtime.ReadMemStats
    diskUsage: map<string, int>,     // s.s.DiskUsage()
    stats: map<string, int>,         // s.p.Stats()
    appsCount: int)                  // s.p.AppsCount()

  /** Go's `m[k]`: an absent key reads as 0. */
  function Lookup(m: map<string, int>, k: string): int {
    if k in m then m[k] else 0
  }

  // -----------------------------------------------------------------------
  // Snapshot builder: getAnalytics
  // -----------------------------------------------------------------------

  /** The disk-usage key each Badger field is read from. */
  function DiskKey(f: Field): Option<string> {
    match f
    case BadgerMain => Some("main")
    case BadgerTrees => Some("trees")
    case BadgerDicts => Some("dicts")
    case BadgerDimensions => Some("dimensions")
    case BadgerSegments => Some("segments")
    case _ => None
  }

  /** The stats-provider key each Controller and Spy field is read from. */
  function StatKey(f: Field): Option<string> {
    match f
    case ControllerIndex => Some("index")
    case ControllerComparison => Some("comparison")
    case ControllerDiff => Some("diff")
    case ControllerIngest => Some("ingest")
    case ControllerRender => Some("render")
    case SpyRbspy => Some("ingest:rbspy")
    case SpyPyspy => Some("ingest:pyspy")
    case SpyGospy => Some("ingest:gospy")
    case SpyEbpfspy => Some("ingest:ebpfspy")
    case SpyPhpspy => Some("ingest:phpspy")
    case SpyDotnetspy => Some("ingest:dotnetspy")
    case SpyJavaspy => Some("ingest:javaspy")
    case _ => None
  }

  /** A fresh snapshot, built from the inputs and the current upload count:
      the upload index is the count, identity, version, timestamp, platform
      and apps count are the inputs', and the memory statistics are converted
      to int (a uint64 wraps into int64's range). */
  function GetAnalytics(uploads: int, probe: Inputs): (m: Analytics)
    ensures m.uploadIndex == uploads
    ensures m.installID == probe.installID && m.runID == probe.runID && m.version == probe.version
    ensures m.timestamp == probe.now && m.appsCount == probe.appsCount
    ensures m.goos == probe.goos && m.goarch == probe.goarch && m.goVersion == probe.goVersion
    ensures m.memAlloc == Int64Of(probe.mem.alloc) && m.memTotalAlloc == Int64Of(probe.mem.totalAlloc)
    ensures m.memSys == Int64Of(probe.mem.sys) && m.memNumGC == probe.mem.numGC as int
  {
    Analytics(
      probe.installID,
      probe.runID,
      probe.version,
      probe.now,
      uploads,
      probe.goos,
      probe.goarch,
      probe.goVersion,
      Int64Of(probe.mem.alloc),
      Int64Of(probe.mem.totalAlloc),
      Int64Of(probe.mem.sys),
      probe.mem.numGC as int,
      Lookup(probe.diskUsage, "main"),
      Lookup(probe.diskUsage, "trees"),
      Lookup(probe.diskUsage, "dicts"),
      Lookup(probe.diskUsage, "dimensions"),
      Lookup(probe.diskUsage, "segments"),
      Lookup(probe.stats, "index"),
      Lookup(probe.stats, "comparison"),
      Lookup(probe.stats, "diff"),
      Lookup(probe.stats, "ingest"),
      Lookup(probe.stats, "render"),
      Lookup(probe.stats, "ingest:rbspy"),
      Lookup(probe.stats, "ingest:pyspy"),
      Lookup(probe.stats, "ingest:gospy"),
      Lookup(probe.stats, "ingest:ebpfspy"),
      Lookup(probe.stats, "ingest:phpspy"),
      Lookup(probe.stats, "ingest:dotnetspy"),
      Lookup(probe.stats, "ingest:javaspy"),
      probe.appsCount)
  }

  /** Every Badger field is the disk-usage entry under its key and every
      Controller and Spy field the stats entry under its key; an absent key
      gives 0. */
  lemma SnapshotFields(uploads: int, probe: Inputs, f: Field)
    ensures var m := GetAnalytics(uploads, probe);
      && (DiskKey(f).Some? ==>
            Get(m, f) == IntValue(if DiskKey(f).value in probe.diskUsage then probe.diskUsage[DiskKey(f).value] else 0))
      && (StatKey(f).Some? ==>
            Get(m, f) == IntValue(if StatKey(f).value in probe.stats then probe.stats[StatKey(f).value] else 0))
  {
  }

  /** The counter-tagged fields are exactly the fields read from disk usage. */
  lemma CountersAreDiskUsage(f: Field)
    ensures IsCounter(f) <==> DiskKey(f).Some?
  {
  }

  // -----------------------------------------------------------------------
  // Counter merge: mergeAnalytics, as written
  // -----------------------------------------------------------------------

  /** The reflect types the merge loop can ask for a kind: the type of the
      whole struct, or the declared type of one of its fields. */
  datatype ReflectType = StructType | FieldType(f: Field)

  /** `t.Kind()`. */
  function KindOfType(t: ReflectType): Kind {
    match t
    case StructType => Struct
    case FieldType(f) => KindOf(f)
  }

  /** `fieldtype` in the merge loop is `bs.Type()`, the type of the whole
      struct, whatever the field index; `fieldtype.Field(i).Type` would be
      the type of field i. */
  function LoopType(i: nat): ReflectType {
    StructType
  }

  /** The kinds the switch's case lists (reflect.Int .. reflect.Int64). */
  predicate IsIntKind(k: Kind) {
    k == Int
  }

  /** The switch would match on a counter field's own type; it never matches
      on the type the loop asks for. */
  lemma SwitchMissesCounters(f: Field)
    ensures IsCounter(f) ==> IsIntKind(KindOfType(FieldType(f)))
    ensures !IsIntKind(KindOfType(LoopType(Index(f))))
  {
  }

  /** The field loop from index i on, with `ret` the reflect view of the
      result. For a counter-tagged field the switch tests the kind of
      LoopType(i), the struct's kind, which no Int case matches, so no field is ever set. (Were a case to match, Go
      would panic: `ret` is not addressable, and `FieldByName` is asked for a
      field named after the struct type, which does not exist.) */
  function MergeFields(bs: Analytics, cu: Analytics, i: nat, ret: Analytics): (r: Analytics)
    requires i <= |Fields|
    ensures r == ret
    decreases |Fields| - i
  {
    if i == |Fields| then ret
    else
      var tagged := TypeTag(Fields[i]) == Some("counter");
      var next := if tagged && IsIntKind(KindOfType(LoopType(i))) then assert false; ret else ret;
      MergeFields(bs, cu, i + 1, next)
  }

  /** mergeAnalytics: starts from the zero record and runs the field loop;
      whatever the baseline and the current snapshot, the result is the zero
      record. */
  function MergeAnalytics(baseline: Analytics, current: Analytics): (r: Analytics)
    ensures r == Zero()
  {
    MergeFields(baseline, current, 0, Zero())
  }

  /** The merge the loop is evidently meant to compute, kept for comparison:
      the counter-tagged fields summed, every other field taken from the
      current snapshot. */
  function IntendedMerge(baseline: Analytics, current: Analytics): (r: Analytics) {
    current.(
      badgerMain := baseline.badgerMain + current.badgerMain,
      badgerTrees := baseline.badgerTrees + current.badgerTrees,
      badgerDicts := baseline.badgerDicts + current.badgerDicts,
      badgerDimensions := baseline.badgerDimensions + current.badgerDimensions,
      badgerSegments := baseline.badgerSegments + current.badgerSegments)
  }

  /** The intended merge, read through the field table: every counter field
      is the sum of the two inputs' values, every other field is the current
      snapshot's value. */
  lemma IntendedMergeField(baseline: Analytics, current: Analytics, f: Field)
    ensures Get(IntendedMerge(baseline, current), f) ==
      if IsCounter(f) then IntValue(Get(baseline, f).i + Get(current, f).i) else Get(current, f)
  {
  }

  /** Field by field, the merge as written agrees with the intended merge
      exactly where the intended result is a zero value: every counter whose
      sum is not zero and every other field the current snapshot sets is lost. */
  lemma MergeLosesFields(baseline: Analytics, current: Analytics, f: Field)
    ensures Get(MergeAnalytics(baseline, current), f) == Get(IntendedMerge(baseline, current), f)
      <==> IsZeroValue(Get(IntendedMerge(baseline, current), f))
  {
  }

  /** On a first run the baseline is the zero record; the intended merge then
      gives back the current snapshot, and the merge as written does so only
      for a snapshot that is itself zero. */
  lemma FirstRunMerge(current: Analytics)
    ensures IntendedMerge(Zero(), current) == current
    ensures MergeAnalytics(Zero(), current) == current <==> current == Zero()
  {
  }

  /** A worked example: baseline BadgerMain = 10, current BadgerMain = 3
      and AppsCount = 7. The intended merge gives 13 and 7;
      the merge as written gives 0 and 0. */
  lemma MergeExample(baseline: Analytics, current: Analytics)
    requires baseline.badgerMain == 10
    requires current.badgerMain == 3 && current.appsCount == 7
    ensures IntendedMerge(baseline, current).badgerMain == 13
    ensures IntendedMerge(baseline, current).appsCount == 7
    ensures MergeAnalytics(baseline, current).badgerMain == 0
    ensures MergeAnalytics(baseline, current).appsCount == 0
  {
  }

  // -----------------------------------------------------------------------
  // The lifecycle as a state machine over events
  // -----------------------------------------------------------------------

  /** What reading the response gave, when there was a response. */
  datatype BodyRead = NoResponse | BodyReadOk | BodyReadError

  /** The outcome of one sendReport after the snapshot was merged: JSON
      encoding failed, or the POST was issued (and may have failed, which is
      only logged) and its body, if any, was read. */
  datatype Delivery = EncodeError | Delivered(postError: bool, body: BodyRead)

  /** Whether sendReport reaches `s.uploads++`. */
  predicate Counted(d: Delivery) {
    d.Delivered? && d.body != BodyReadError
  }

  /** What the service's goroutine can observe, in the order it observes it.
      Stop(probe) is a call of Stop by another goroutine, probe being what its own
      getAnalytics reads; the Go code closes the stop channel right after
      that save, so Start sees the stop next. */
  datatype Event =
    | Stop(probe: Inputs)
    | GraceFired(probe: Inputs, delivery: Delivery)
    | UploadTick(probe: Inputs, delivery: Delivery)
    | SnapshotTick(probe: Inputs)

  /** Observable effects: a record sent in a POST body, or a record saved. */
  datatype Effect = Posted(record: Analytics) | Saved(record: Analytics)

  datatype Phase = AwaitingGrace | Running | Exited

  /** The service state the lifecycle acts on. */
  datatype Machine = Machine(
    phase: Phase,
    uploads: int,
    baseline: Analytics,
    stored: Option<Analytics>,
    effects: seq<Effect>)

  /** sendReport: merge a fresh snapshot against the baseline; post it unless
      encoding fails; count the upload unless encoding or the body read fails. */
  function Report(m: Machine, probe: Inputs, d: Delivery): (r: Machine)
    ensures r.phase == m.phase && r.baseline == m.baseline && r.stored == m.stored
    ensures m.uploads <= r.uploads <= m.uploads + 1
  {
    match d
    case EncodeError => m
    case Delivered(_, body) =>
      var payload := MergeAnalytics(m.baseline, GetAnalytics(m.uploads, probe));
      m.(uploads := if body == BodyReadError then m.uploads else m.uploads + 1,
         effects := m.effects + [Posted(payload)])
  }

  /** A snapshot tick: merge a fresh snapshot against the baseline and save it. */
  function Persist(m: Machine, probe: Inputs): (r: Machine)
    ensures r.phase == m.phase && r.baseline == m.baseline && r.uploads == m.uploads
    ensures r.stored == Some(Zero()) && r.effects == m.effects + [Saved(Zero())]
  {
    var record := MergeAnalytics(m.baseline, GetAnalytics(m.uploads, probe));
    m.(stored := Some(record), effects := m.effects + [Saved(record)])
  }

  /** Stop: save a fresh snapshot, not merged, then the loop returns. */
  function Halt(m: Machine, probe: Inputs): (r: Machine)
    ensures r.phase == Exited && r.baseline == m.baseline && r.uploads == m.uploads
    ensures r.stored == Some(GetAnalytics(m.uploads, probe)) && r.stored.value.uploadIndex == m.uploads
    ensures r.effects == m.effects + [Saved(r.stored.value)]
  {
    var record := GetAnalytics(m.uploads, probe);
    m.(phase := Exited, stored := Some(record), effects := m.effects + [Saved(record)])
  }

  /** One event. Before the grace timer fires only the stop channel and the
      timer are selected on (the tickers do not exist yet); once running,
      the one-shot timer does not fire again; after Start has returned
      nothing is observed. */
  function Step(m: Machine, e: Event): (r: Machine)
    ensures r.baseline == m.baseline && m.uploads <= r.uploads <= m.uploads + 1
    ensures r.phase == Exited <==> m.phase == Exited || e.Stop?
  {
    match m.phase
    case Exited => m
    case AwaitingGrace =>
      (match e
       case Stop(probe) => Halt(m, probe)
       case GraceFired(probe, d) => Report(m.(phase := Running), probe, d)
       case _ => m)
    case Running =>
      (match e
       case Stop(probe) => Halt(m, probe)
       case UploadTick(probe, d) => Report(m, probe, d)
       case SnapshotTick(probe) => Persist(m, probe)
       case GraceFired(_, _) => m)
  }

  /** The Start loop: a sequence of events, processed one at a time in
      order. The loop has returned exactly when it had already returned or
      one of the events is a stop. */
  function Run(m: Machine, events: seq<Event>): (r: Machine)
    ensures r.phase == Exited <==> m.phase == Exited || exists i | 0 <= i < |events| :: events[i].Stop?
    decreases |events|
  {
    if events == [] then m else Run(Step(m, events[0]), events[1..])
  }

  /** Running two sequences one after the other is running their concatenation. */
  lemma {:induction false} RunAppend(m: Machine, xs: seq<Event>, ys: seq<Event>)
    ensures Run(m, xs + ys) == Run(Run(m, xs), ys)
    decreases |xs|
  {
    if xs == [] {
      assert xs + ys == ys;
    } else {
      assert (xs + ys)[1..] == xs[1..] + ys;
      RunAppend(Step(m, xs[0]), xs[1..], ys);
    }
  }

  /** Once Start has returned, no later event changes anything. */
  lemma {:induction false} ExitedIsFinal(m: Machine, events: seq<Event>)
    requires m.phase == Exited
    ensures Run(m, events) == m
    decreases |events|
  {
    if events != [] {
      ExitedIsFinal(Step(m, events[0]), events[1..]);
    }
  }

  /** The baseline is never reassigned while events are processed. */
  lemma {:induction false} BaselineFixed(m: Machine, events: seq<Event>)
    ensures Run(m, events).baseline == m.baseline
    decreases |events|
  {
    if events != [] {
      BaselineFixed(Step(m, events[0]), events[1..]);
    }
  }

  /** A stop before the grace timer fires: no report is ever sent, and the
      only effect is Stop's own save of an unmerged snapshot. */
  lemma StopBeforeGrace(m: Machine, probe: Inputs, rest: seq<Event>)
    requires m.phase == AwaitingGrace
    ensures var r := Run(m, [Stop(probe)] + rest);
      && r.phase == Exited
      && r.uploads == m.uploads
      && r.effects == m.effects + [Saved(GetAnalytics(m.uploads, probe))]
      && r.stored == Some(GetAnalytics(m.uploads, probe))
  {
    assert ([Stop(probe)] + rest)[1..] == rest;
    ExitedIsFinal(Halt(m, probe), rest);
  }

  /** A stop after any events that are not stops, whether it comes before or
      after the grace timer: the loop returns with uploads as they were, and
      the run ends with Stop's save of the unmerged snapshot for that upload
      count, which is what the store then holds. */
  lemma StopEndsRun(m: Machine, pre: seq<Event>, probe: Inputs, post: seq<Event>)
    requires m.phase != Exited
    requires forall i | 0 <= i < |pre| :: !pre[i].Stop?
    ensures var q := Run(m, pre); var r := Run(m, pre + [Stop(probe)] + post);
      && r.phase == Exited
      && r.uploads == q.uploads
      && r.stored == Some(GetAnalytics(q.uploads, probe))
      && r.effects == q.effects + [Saved(GetAnalytics(q.uploads, probe))]
  {
    var q := Run(m, pre);
    RunAppend(m, pre, [Stop(probe)] + post);
    assert pre + [Stop(probe)] + post == pre + ([Stop(probe)] + post);
    assert ([Stop(probe)] + post)[1..] == post;
    ExitedIsFinal(Step(q, Stop(probe)), post);
  }

  /** A ticker event: an upload tick or a snapshot tick. */
  predicate IsTick(e: Event) {
    e.UploadTick? || e.SnapshotTick?
  }

  /** Ticks that arrive before the grace timer are not handled (the tickers
      are created only after the first report); when the timer fires, exactly
      one report is sent, and only then are ticks handled. */
  lemma {:induction false} GraceReportsFirst(m: Machine, ticks: seq<Event>, probe: Inputs, d: Delivery, rest: seq<Event>)
    requires m.phase == AwaitingGrace
    requires forall i | 0 <= i < |ticks| :: IsTick(ticks[i])
    ensures Run(m, ticks + [GraceFired(probe, d)] + rest) == Run(Report(m.(phase := Running), probe, d), rest)
    decreases |ticks|
  {
    if ticks == [] {
      assert ticks + [GraceFired(probe, d)] + rest == [GraceFired(probe, d)] + rest;
      assert ([GraceFired(probe, d)] + rest)[1..] == rest;
    } else {
      assert (ticks + [GraceFired(probe, d)] + rest)[1..] == ticks[1..] + [GraceFired(probe, d)] + rest;
      GraceReportsFirst(m, ticks[1..], probe, d, rest);
    }
  }

  /** An effect that carries the zero record. */
  predicate IsZeroEffect(e: Effect) {
    e.record == Zero()
  }

  /** `after` extends `before`, and every effect it adds carries the zero
      record, except that the last one may be a save (Stop's) when the loop
      has exited; so every report it adds posts the zero record. */
  predicate AppendsZeros(before: seq<Effect>, after: seq<Effect>, exited: bool) {
    && |before| <= |after|
    && after[..|before|] == before
    && (forall k | |before| <= k < |after| :: IsZeroEffect(after[k]) || (exited && k == |after| - 1 && after[k].Saved?))
  }

  /** Appending zero effects while running, then possibly more up to an exit, is one such extension. */
  lemma AppendsZerosTrans(a: seq<Effect>, b: seq<Effect>, c: seq<Effect>, exited: bool)
    requires AppendsZeros(a, b, false) && AppendsZeros(b, c, exited)
    ensures AppendsZeros(a, c, exited)
  {
    assert c[..|a|] == b[..|a|];
  }

  /** One event appends at most one effect; unless it is the stop, that
      effect carries the zero record. */
  lemma StepEffects(m: Machine, e: Event)
    requires m.phase != Exited
    ensures var s := Step(m, e);
      && |s.effects| <= |m.effects| + 1
      && AppendsZeros(m.effects, s.effects, s.phase == Exited)
  {
  }

  /** Every report the loop sends and every record a snapshot tick saves is
      the zero record: the run only appends effects, and of those it
      appends only Stop's own save, the last one, can carry anything else. */
  lemma {:induction false} OnlyZerosBeforeStop(m: Machine, events: seq<Event>)
    requires m.phase != Exited
    ensures var r := Run(m, events); AppendsZeros(m.effects, r.effects, r.phase == Exited)
    decreases |events|
  {
    if events != [] {
      var s := Step(m, events[0]);
      StepEffects(m, events[0]);
      assert Run(m, events) == Run(s, events[1..]);
      if s.phase == Exited {
        ExitedIsFinal(s, events[1..]);
      } else {
        OnlyZerosBeforeStop(s, events[1..]);
        AppendsZerosTrans(m.effects, s.effects, Run(s, events[1..]).effects, Run(s, events[1..]).phase == Exited);
      }
    }
  }

  /** The loop has returned after Stop's save: the last effect is a save
      and the store holds its record. */
  predicate StoppedWithSave(m: Machine) {
    m.effects != [] && m.effects[|m.effects| - 1].Saved?
    && m.stored == Some(m.effects[|m.effects| - 1].record)
  }

  /** One event leaves the store as it was, saves the zero record, or is
      the stop, which saves the record it appends last. */
  lemma StepStored(m: Machine, e: Event)
    requires m.phase != Exited
    ensures var s := Step(m, e);
      && (s.phase != Exited ==> s.stored == m.stored || s.stored == Some(Zero()))
      && (s.phase == Exited ==> StoppedWithSave(s))
  {
  }

  /** Every report a run posts carries the zero record. */
  lemma ReportsPostZero(m: Machine, events: seq<Event>)
    requires m.phase != Exited
    ensures var r := Run(m, events);
      forall k | |m.effects| <= k < |r.effects| :: r.effects[k].Posted? ==> r.effects[k].record == Zero()
  {
    OnlyZerosBeforeStop(m, events);
  }

  /** While the loop runs the store holds what it held before or a zero
      record saved by a snapshot tick; once Start has returned it holds the
      record of the last effect, Stop's save. */
  lemma {:induction false} StoredIsZeroUntilStop(m: Machine, events: seq<Event>)
    requires m.phase != Exited
    ensures var r := Run(m, events);
      && (r.phase != Exited ==> r.stored == m.stored || r.stored == Some(Zero()))
      && (r.phase == Exited ==> StoppedWithSave(r))
    decreases |events|
  {
    if events != [] {
      var s := Step(m, events[0]);
      StepStored(m, events[0]);
      assert Run(m, events) == Run(s, events[1..]);
      if s.phase == Exited {
        ExitedIsFinal(s, events[1..]);
      } else {
        StoredIsZeroUntilStop(s, events[1..]);
      }
    }
  }

  /** The upload counter never goes down, and each event adds at most one. */
  lemma {:induction false} UploadsBounded(m: Machine, events: seq<Event>)
    ensures m.uploads <= Run(m, events).uploads <= m.uploads + |events|
    decreases |events|
  {
    if events != [] {
      UploadsBounded(Step(m, events[0]), events[1..]);
    }
  }

  /** sendReport counts an upload exactly when encoding and the body read
      both succeed; a failed POST is still counted. It posts exactly when
      encoding succeeds. */
  lemma ReportCounting(m: Machine, probe: Inputs, d: Delivery)
    ensures Report(m, probe, d).uploads == if Counted(d) then m.uploads + 1 else m.uploads
    ensures Report(m, probe, d).effects == m.effects + if d.Delivered? then [Posted(Zero())] else []
  {
  }

  // -----------------------------------------------------------------------
  // The service
  // -----------------------------------------------------------------------

  class Service {
    const store: Store
    var uploads: int
    /** nil until Start reads it from the store. */
    var baseline: Option<Analytics>
    var stopClosed: bool
    var doneClosed: bool
    /** The reports posted and the records saved, in order. */
    ghost var effects: seq<Effect>

    constructor (store: Store)
      ensures this.store == store
      ensures uploads == 0 && baseline == None && !stopClosed && !doneClosed && effects == []
    {
      this.store := store;
      uploads := 0;
      baseline := None;
      stopClosed := false;
      doneClosed := false;
      effects := [];
    }

    /** The abstract state, with the given phase of the Start loop. */
    ghost function State(phase: Phase): Machine
      reads this, store
      requires baseline.Some?
    {
      Machine(phase, uploads, baseline.value, store.analytics, effects)
    }

    /** sendReport. */
    method SendReport(probe: Inputs, d: Delivery)
      requires baseline.Some?
      modifies this`uploads, this`effects
      ensures uploads == if Counted(d) then old(uploads) + 1 else old(uploads)
      ensures effects == old(effects) +
        if d.Delivered? then [Posted(MergeAnalytics(baseline.value, GetAnalytics(old(uploads), probe)))] else []
    {
      var m := GetAnalytics(uploads, probe);
      m := MergeAnalytics(baseline.value, m);
      match d
      case EncodeError =>
        return;
      case Delivered(_, body) =>
        // the POST is issued; an error from it is only logged
        effects := effects + [Posted(m)];
        if body == BodyReadError {
          return;
        }
        uploads := uploads + 1;
    }

    /** Stop, up to the wait on `done`: save an unmerged fresh snapshot, then
        close the stop channel. */
    method Stop(probe: Inputs)
      requires !stopClosed
      modifies this`stopClosed, this`effects, store
      ensures stopClosed
      ensures store.analytics == Some(GetAnalytics(uploads, probe))
      ensures effects == old(effects) + [Saved(GetAnalytics(uploads, probe))]
    {
      var m := GetAnalytics(uploads, probe);
      store.SaveAnalytics(m);
      effects := effects + [Saved(m)];
      stopClosed := true;
    }

    /** One iteration of Start: the select on the stop channel and the grace
        timer while awaiting the grace period, and on the stop channel and
        both tickers once running. */
    method HandleEvent(phase: Phase, e: Event) returns (next: Phase)
      requires baseline.Some? && phase != Exited && !stopClosed
      modifies this`uploads, this`effects, this`stopClosed, store
      ensures stopClosed == (next == Exited)
      ensures State(next) == Step(old(State(phase)), e)
    {
      next := phase;
      match e {
        case Stop(probe) =>
          Stop(probe);
          next := Exited;
        case GraceFired(probe, d) =>
          if phase == AwaitingGrace {
            next := Running;
            SendReport(probe, d);
          }
        case UploadTick(probe, d) =>
          if phase == Running {
            SendReport(probe, d);
          }
        case SnapshotTick(probe) =>
          if phase == Running {
            var m := GetAnalytics(uploads, probe);
            m := MergeAnalytics(baseline.value, m);
            store.SaveAnalytics(m);
            effects := effects + [Saved(m)];
          }
      }
    }

    /** Start: read the baseline, then process the events until a stop. The
        final state is the state machine's run from the baseline that was
        read; `done` is closed exactly when the loop has seen a stop, which
        is also when Stop, waiting on `done`, returns. */
    method Start(events: seq<Event>)
      requires !stopClosed && !doneClosed
      modifies this, store
      ensures baseline.Some?
      ensures old(store.analytics).Some? ==> baseline.value == old(store.analytics).value
      ensures var r := Run(Machine(AwaitingGrace, old(uploads), baseline.value, old(store.analytics), old(effects)), events);
        && uploads == r.uploads && store.analytics == r.stored && effects == r.effects
        && baseline.value == r.baseline
        && stopClosed == doneClosed == (r.phase == Exited)
    {
      var b := store.ReadAnalytics();
      baseline := Some(b);
      ghost var m0 := State(AwaitingGrace);
      var phase := AwaitingGrace;
      var i := 0;
      while i < |events| && phase != Exited
        invariant 0 <= i <= |events|
        invariant baseline == Some(b) && !doneClosed
        invariant stopClosed == (phase == Exited)
        invariant State(phase) == Run(m0, events[..i])
      {
        var e := events[i];
        phase := HandleEvent(phase, e);
        RunAppend(m0, events[..i], [e]);
        assert events[..i + 1] == events[..i] + [e];
        i := i + 1;
      }
      if phase == Exited {
        ExitedIsFinal(State(phase), events[i..]);
        RunAppend(m0, events[..i], events[i..]);
        assert events[..i] + events[i..] == events;
        doneClosed := true;
      } else {
        assert events[..i] == events;
      }
      BaselineFixed(m0, events);
    }
  }
}
