/** The usage-analytics record and its persistence under one fixed key
    (pkg/storage/analytics.go).

    The record is a flat struct of thirty fields; five of them carry the
    struct tag `type:"counter"`. The key-value store is reduced to the one
    entry this file touches, the value under the key "analytics"; the JSON
    encoding of that value is abstracted away, the slot holding the record
    that was marshalled into it. */
module Storage {

  datatype Option<T> = None | Some(value: T)

  /** A wall-clock instant. Go's time.Time is abstracted to a number; 0 stands
      for the zero time.Time of an empty record. */
  type Instant = int

  /** One analytics record, field for field as the struct declares it. */
  datatype Analytics = Analytics(
    installID: string,
    runID: string,
    version: string,
    timestamp: Instant,
    uploadIndex: int,
    goos: string,
    goarch: string,
    goVersion: string,
    memAlloc: int,
    memTotalAlloc: int,
    memSys: int,
    memNumGC: int,
    badgerMain: int,
    badgerTrees: int,
    badgerDicts: int,
    badgerDimensions: int,
    badgerSegments: int,
    controllerIndex: int,
    controllerComparison: int,
    controllerDiff: int,
    controllerIngest: int,
    controllerRender: int,
    spyRbspy: int,
    spyPyspy: int,
    spyGospy: int,
    spyEbpfspy: int,
    spyPhpspy: int,
    spyDotnetspy: int,
    spyJavaspy: int,
    appsCount: int)

  /** `Analytics{}`: every field at Go's zero value. */
  function Zero(): Analytics {
    Analytics("", "", "", 0, 0, "", "", "", 0, 0, 0, 0, 0, 0, 0, 0, 0,
              0, 0, 0, 0, 0, 0, 0, 0, 0, 0, 0, 0, 0)
  }

  // ---------------------------------------------------------------------
  // The struct's field table: names, declared kinds and struct tags, as the
  // reflection in pkg/analytics/analytics.go sees them.
  // ---------------------------------------------------------------------

  datatype Field =
    | InstallID | RunID | Version | Timestamp | UploadIndex
    | GOOS | GOARCH | GoVersion
    | MemAlloc | MemTotalAlloc | MemSys | MemNumGC
    | BadgerMain | BadgerTrees | BadgerDicts | BadgerDimensions | BadgerSegments
    | ControllerIndex | ControllerComparison | ControllerDiff | ControllerIngest | ControllerRender
    | SpyRbspy | SpyPyspy | SpyGospy | SpyEbpfspy | SpyPhpspy | SpyDotnetspy | SpyJavaspy
    | AppsCount

  /** The fields in declaration order: what `Field(i)` returns for i = 0 .. NumField()-1. */
  const Fields: seq<Field> := [
    InstallID, RunID, Version, Timestamp, UploadIndex,
    GOOS, GOARCH, GoVersion,
    MemAlloc, MemTotalAlloc, MemSys, MemNumGC,
    BadgerMain, BadgerTrees, BadgerDicts, BadgerDimensions, BadgerSegments,
    ControllerIndex, ControllerComparison, ControllerDiff, ControllerIngest, ControllerRender,
    SpyRbspy, SpyPyspy, SpyGospy, SpyEbpfspy, SpyPhpspy, SpyDotnetspy, SpyJavaspy,
    AppsCount]

  /** The reflect kinds that occur in the struct: string and int fields, the
      time.Time field (a struct), and the struct type Analytics itself. */
  datatype Kind = String | Int | Struct

  /** The declared kind of each field. */
  function KindOf(f: Field): Kind {
    match f
    case InstallID | RunID | Version | GOOS | GOARCH | GoVersion => String
    case Timestamp => Struct
    case _ => Int
  }

  /** `Tag.Lookup("type")` on each field: only the five Badger fields carry one. */
  function TypeTag(f: Field): Option<string> {
    match f
    case BadgerMain | BadgerTrees | BadgerDicts | BadgerDimensions | BadgerSegments => Some("counter")
    case _ => None
  }

  predicate IsCounter(f: Field) {
    TypeTag(f) == Some("counter")
  }

  /** A field value as reflection presents it. */
  datatype Value = StringValue(s: string) | IntValue(i: int) | TimeValue(t: Instant)

  function ValueKind(v: Value): Kind {
    match v
    case StringValue(_) => String
    case IntValue(_) => Int
    case TimeValue(_) => Struct
  }

  /** Go's zero value of each kind. */
  function ZeroOf(k: Kind): (v: Value)
    ensures ValueKind(v) == k
  {
    match k
    case String => StringValue("")
    case Int => IntValue(0)
    case Struct => TimeValue(0)
  }

  predicate IsZeroValue(v: Value) {
    v == ZeroOf(ValueKind(v))
  }

  /** Reads one field by its table entry; the value always has the field's declared kind. */
  function Get(a: Analytics, f: Field): (v: Value)
    ensures ValueKind(v) == KindOf(f)
  {
    match f
    case InstallID => StringValue(a.installID)
    case RunID => StringValue(a.runID)
    case Version => StringValue(a.version)
    case Timestamp => TimeValue(a.timestamp)
    case UploadIndex => IntValue(a.uploadIndex)
    case GOOS => StringValue(a.goos)
    case GOARCH => StringValue(a.goarch)
    case GoVersion => StringValue(a.goVersion)
    case MemAlloc => IntValue(a.memAlloc)
    case MemTotalAlloc => IntValue(a.memTotalAlloc)
    case MemSys => IntValue(a.memSys)
    case MemNumGC => IntValue(a.memNumGC)
    case BadgerMain => IntValue(a.badgerMain)
    case BadgerTrees => IntValue(a.badgerTrees)
    case BadgerDicts => IntValue(a.badgerDicts)
    case BadgerDimensions => IntValue(a.badgerDimensions)
    case BadgerSegments => IntValue(a.badgerSegments)
    case ControllerIndex => IntValue(a.controllerIndex)
    case ControllerComparison => IntValue(a.controllerComparison)
    case ControllerDiff => IntValue(a.controllerDiff)
    case ControllerIngest => IntValue(a.controllerIngest)
    case ControllerRender => IntValue(a.controllerRender)
    case SpyRbspy => IntValue(a.spyRbspy)
    case SpyPyspy => IntValue(a.spyPyspy)
    case SpyGospy => IntValue(a.spyGospy)
    case SpyEbpfspy => IntValue(a.spyEbpfspy)
    case SpyPhpspy => IntValue(a.spyPhpspy)
    case SpyDotnetspy => IntValue(a.spyDotnetspy)
    case SpyJavaspy => IntValue(a.spyJavaspy)
    case AppsCount => IntValue(a.appsCount)
  }

  /** The zero record holds the zero value of its kind in every field. */
  lemma ZeroFields(f: Field)
    ensures IsZeroValue(Get(Zero(), f)) && Get(Zero(), f) == ZeroOf(KindOf(f))
  {
  }

  /** The position of each field in the struct's declaration. */
  function Index(f: Field): nat {
    match f
    case InstallID => 0
    case RunID => 1
    case Version => 2
    case Timestamp => 3
    case UploadIndex => 4
    case GOOS => 5
    case GOARCH => 6
    case GoVersion => 7
    case MemAlloc => 8
    case MemTotalAlloc => 9
    case MemSys => 10
    case MemNumGC => 11
    case BadgerMain => 12
    case BadgerTrees => 13
    case BadgerDicts => 14
    case BadgerDimensions => 15
    case BadgerSegments => 16
    case ControllerIndex => 17
    case ControllerComparison => 18
    case ControllerDiff => 19
    case ControllerIngest => 20
    case ControllerRender => 21
    case SpyRbspy => 22
    case SpyPyspy => 23
    case SpyGospy => 24
    case SpyEbpfspy => 25
    case SpyPhpspy => 26
    case SpyDotnetspy => 27
    case SpyJavaspy => 28
    case AppsCount => 29
  }

  /** The table lists every field of the struct, at its declared position;
      NumField() is 30. */
  lemma FieldTableComplete(f: Field)
    ensures |Fields| == 30 && Index(f) < 30 && Fields[Index(f)] == f
  {
  }

  /** Exactly five fields carry `type:"counter"`: the five Badger disk-usage
      fields, declared one after another at positions 12 to 16. */
  lemma FiveCounters()
    ensures forall i | 0 <= i < |Fields| :: IsCounter(Fields[i]) <==> 12 <= i < 17
  {
  }

  /** Every counter-tagged field is declared int, and the twenty-five other
      fields carry no `type` tag at all. */
  lemma CounterKinds()
    ensures forall f :: IsCounter(f) ==> KindOf(f) == Int
    ensures forall f :: !IsCounter(f) ==> TypeTag(f) == None
  {
  }

  /** The main key-value store, reduced to its entry under the key "analytics". */
  class Store {
    /** The record stored under "analytics", or None while nothing was saved. */
    var analytics: Option<Analytics>

    constructor ()
      ensures analytics == None
    {
      analytics := None;
    }

    /** Writes the encoding of `a` under "analytics", replacing whatever was
        there; no error is reported. */
    method SaveAnalytics(a: Analytics)
      modifies this
      ensures analytics == Some(a)
    {
      analytics := Some(a);
    }

    /** Decodes the stored entry into a zero record; the store is read only.
        What an empty store yields is not specified. */
    method ReadAnalytics() returns (a: Analytics)
      ensures analytics.Some? ==> a == analytics.value
    {
      match analytics
      case Some(stored) => a := stored;
      case None => a := Zero();
    }
  }

  /** A save followed by a read, with no save between them, returns the saved record. */
  method SaveThenRead(s: Store, r: Analytics) returns (a: Analytics)
    modifies s
    ensures a == r
  {
    s.SaveAnalytics(r);
    a := s.ReadAnalytics();
  }
}
