# Pyroscope server usage analytics, modelled in Dafny

This project models the usage-analytics reporter of the Pyroscope server as
its code is written. It has two parts:

- `storage.dfy`, module `Storage` (pkg/storage/analytics.go). The `Analytics`
  record is a datatype with the struct's thirty fields. A field table gives
  each field's position, declared kind and `type` struct tag; the five Badger
  disk-usage fields are the ones tagged `type:"counter"`. `Store` is a class
  with one mutable slot: the entry under the fixed key `"analytics"`.
  `SaveAnalytics` overwrites the slot and `ReadAnalytics` reads it without
  changing it.
- `analytics.dfy`, module `Analytics` (pkg/analytics/analytics.go).
  - `GetAnalytics` is the snapshot builder. It is a function of the upload
    counter and of an `Inputs` value. `Inputs` holds everything the Go code
    gets from the runtime, the clock, uuid, the build, the storage and the
    stats provider.
  - `MergeAnalytics` is the counter merge, written as the field loop the Go
    code runs. `IntendedMerge` is the merge the loop is evidently meant to
    compute (counter-tagged fields summed, every other field taken from the
    current snapshot), kept for comparison only.
  - `Service` is a class with the fields `uploads`, `baseline`, the store,
    and the stop and done channels (as flags). `SendReport` updates the
    upload counter. `Start` runs over a finite list of events: the grace
    timer, the two tickers, and a call of Stop.
  - `Step` and `Run` form a pure state machine. `Start` is proved to end in
    exactly the state that `Run` computes. The lifecycle lemmas are stated
    about `Run`.

## Code versus intent

The merge loop is evidently meant to sum the counter-tagged fields of the
baseline and the new snapshot and to keep every other field of the new
snapshot: it looks up `type:"counter"` tags and, for int kinds, sets the
field to the sum of the two values. The code does something else. In the
field loop, `fieldtype` is the struct's type, not the field's type, so the
kind switch tests `Struct` and no `Int` case ever matches. The loop also
writes to a reflect copy, not to the record it returns. `mergeAnalytics`
therefore always returns the zero record. The model follows the code:

- `MergeAnalytics` is proved to return `Zero()`.
- `MergeLosesFields` and `MergeExample` show where this differs from the
  intended sum. For a baseline counter of 10 and a current counter of 3
  with apps count 7, the code gives 0 and 0 instead of 13 and 7.
- `OnlyZerosBeforeStop`, `ReportsPostZero` and `StoredIsZeroUntilStop` show
  the consequences.
  Every report posts the zero record, upload index included, and every
  snapshot tick saves the zero record.
- Only Stop's own save writes real values. That save is a fresh snapshot,
  not merged with the baseline, unlike the snapshot tick's save. Stop does
  it in the caller's goroutine before it closes the stop channel
  (`StopEndsRun`).

Other behaviour of the code that the model follows:

- The upload counter goes up even when the POST fails. It does not go up
  when reading the response body fails (`ReportCounting`).
- Reading an empty store: the code reads the value of a failed lookup
  rather than returning a zero record. The model leaves that result
  unspecified.

## Model

| member | source | states |
|---|---|---|
| `Storage.Get` | pkg/storage/analytics.go:10-41 | reading a field through the table gives a value of that field's declared kind |
| `Storage.ZeroFields` | pkg/storage/analytics.go:53 | the empty record `Analytics{}` holds the zero value of its kind in every field |
| `Storage.FieldTableComplete` | pkg/storage/analytics.go:10-41 | the struct has 30 fields, and each one is listed at its declared position |
| `Storage.FiveCounters` | pkg/storage/analytics.go:23-27 | a field carries `type:"counter"` exactly when it sits at positions 12 to 16, the five Badger fields |
| `Storage.CounterKinds` | pkg/storage/analytics.go:11-40 | every counter-tagged field is an int, and the other 25 fields have no `type` tag |
| `Storage.Store.SaveAnalytics` | pkg/storage/analytics.go:43-50 | the single `"analytics"` slot now holds the given record, whatever it held before; no error is reported |
| `Storage.Store.ReadAnalytics` | pkg/storage/analytics.go:52-63 | returns a record (never nil) that equals the stored one when a record is stored; changes nothing |
| `Storage.SaveThenRead` | pkg/storage/analytics.go:43-62 | a read after a save, with no save in between, returns the saved record |
| `Analytics.Int64Of` | pkg/analytics/analytics.go:146-148 | `int(u)` of a uint64 lies in int64's range and is congruent to u modulo 2^64 |
| `Analytics.GetAnalytics` | pkg/analytics/analytics.go:130-171 | the snapshot's upload index is the current upload count; identity, version, timestamp, GOOS, GOARCH, Go version and apps count come from the inputs; the four memory statistics are converted to int (`Int64Of` for the uint64s); map reads go through the helper `Lookup`, Go's `m[k]` |
| `Analytics.SnapshotFields` | pkg/analytics/analytics.go:150-166 | each Badger field is the disk-usage entry under its key; each Controller and Spy field is the stats entry under its key; absent keys give 0 |
| `Analytics.CountersAreDiskUsage` | pkg/analytics/analytics.go:150-154 | the counter-tagged fields are exactly the fields filled from disk usage |
| `Analytics.SwitchMissesCounters` | pkg/analytics/analytics.go:109-116 | the kind switch would match on a counter field's own type, but never matches on `bs.Type()`, the type the loop asks for |
| `Analytics.MergeFields` | pkg/analytics/analytics.go:107-120 | the field loop tests the kind of `bs.Type()`, the struct type, for every index; no Int case matches, so it leaves the result it was given unchanged |
| `Analytics.MergeAnalytics` | pkg/analytics/analytics.go:102-123 | for every baseline and current snapshot the merge returns the zero record |
| `Analytics.IntendedMergeField` | pkg/analytics/analytics.go:112-117 | the intended merge (for comparison) sums each counter field and takes every other field from the current snapshot |
| `Analytics.MergeLosesFields` | pkg/analytics/analytics.go:102-123 | field by field, the merge as written equals the intended merge exactly when the intended value is zero |
| `Analytics.FirstRunMerge` | pkg/analytics/analytics.go:102-123 | against a zero baseline, the intended merge returns the snapshot; the merge as written does so only for a zero snapshot |
| `Analytics.MergeExample` | pkg/analytics/analytics.go:107-121 | baseline BadgerMain 10 and current BadgerMain 3, AppsCount 7 merge to 0 and 0, where the intended merge gives 13 and 7 |
| `Analytics.Report` | pkg/analytics/analytics.go:173-197 | one report never touches the store, the baseline or the phase, and raises the upload count by at most one |
| `Analytics.Persist` | pkg/analytics/analytics.go:92-95 | a snapshot tick saves, and appends to the effects, the zero record; uploads and baseline stay as they were |
| `Analytics.Halt` | pkg/analytics/analytics.go:124-126 | Stop saves exactly the unmerged snapshot `GetAnalytics` builds from the current upload count, appends that save to the effects, and the loop exits |
| `Analytics.Step` | pkg/analytics/analytics.go:79-98 | one `select` of Start: the baseline is unchanged, uploads rise by at most one, and the loop has returned afterwards exactly when it had returned before or the event is a stop |
| `Analytics.Run` | pkg/analytics/analytics.go:79-99 | the `for` loop of Start over the events in order: it has returned at the end exactly when it had returned at the start or some event is a stop |
| `Analytics.ReportCounting` | pkg/analytics/analytics.go:179-196 | uploads go up by one exactly when encoding and the body read succeed (a POST error alone still counts); exactly one report, carrying the zero record, is posted when encoding succeeds, and nothing is posted otherwise |
| `Analytics.RunAppend` | pkg/analytics/analytics.go:88-99 | processing two event lists one after the other equals processing their concatenation |
| `Analytics.ExitedIsFinal` | pkg/analytics/analytics.go:96-97 | once Start has returned, no later event changes anything |
| `Analytics.BaselineFixed` | pkg/analytics/analytics.go:77-99 | the baseline read at start is never reassigned while events are processed |
| `Analytics.StopBeforeGrace` | pkg/analytics/analytics.go:79-81 | a stop before the grace timer: no report, uploads unchanged, and the only effect is Stop's save of an unmerged snapshot |
| `Analytics.GraceReportsFirst` | pkg/analytics/analytics.go:78-86 | when the grace timer fires exactly one report is sent, and the run continues from that state; tick events placed before it in the event list (which Go cannot produce, as the tickers are created only after that report) are ignored by the model |
| `Analytics.StepEffects` | pkg/analytics/analytics.go:88-99 | one event adds at most one effect, and that effect is the zero record unless the event is the stop |
| `Analytics.OnlyZerosBeforeStop` | pkg/analytics/analytics.go:88-99 | a run only appends effects; every report posted and every tick's save carries the zero record; only the last effect, and only when it is a save after the loop returned (Stop's), can differ |
| `Analytics.ReportsPostZero` | pkg/analytics/analytics.go:88-99 | every report posted during a run carries the zero record |
| `Analytics.StepStored` | pkg/analytics/analytics.go:88-99 | an event that does not stop the loop leaves the store as it was or saves the zero record; the stop ends with a save as the last effect, whose record the store holds |
| `Analytics.StoredIsZeroUntilStop` | pkg/analytics/analytics.go:92-96 | while the loop runs the store holds its old entry or the zero record; once it has returned, the last effect is a save and the store holds its record |
| `Analytics.StopEndsRun` | pkg/analytics/analytics.go:124-126 | a stop after any non-stop events, before or after the grace timer, ends the run with uploads unchanged and with Stop's save of the unmerged `GetAnalytics` snapshot for that upload count as the last effect and the stored record |
| `Analytics.UploadsBounded` | pkg/analytics/analytics.go:173-197 | the upload count never decreases and rises by at most one per event |
| `Analytics.Service.constructor` | pkg/analytics/analytics.go:47-61 | a new service has zero uploads, no baseline, and open stop and done channels |
| `Analytics.Service.SendReport` | pkg/analytics/analytics.go:173-197 | posts the merged snapshot unless encoding fails, and increments `uploads` unless encoding or the body read fails |
| `Analytics.Service.Stop` | pkg/analytics/analytics.go:124-126 | saves an unmerged fresh snapshot to the store, then closes the stop channel |
| `Analytics.Service.HandleEvent` | pkg/analytics/analytics.go:79-99 | one select of the Start loop changes the service exactly as `Step` does |
| `Analytics.Service.Start` | pkg/analytics/analytics.go:75-100 | reads the baseline from the store once, then ends in the state that `Run` gives for the events; `done` is closed exactly when a stop was seen |

## Left out

- HTTP: the POST, the client (one connection per host, 60 s timeout) and the
  collector URL. A report's outcome is a `Delivery` parameter: encoding
  failed, or the POST was made and its body read succeeded, failed or there
  was no response.
- JSON and badger. The slot holds the record that was saved, so marshal
  followed by unmarshal is the identity. Not modelled: the json field names,
  unmarshalling a document that lacks fields or has mistyped ones,
  transaction errors (the code discards them), and the representation of
  `time.Time` (abstracted to an integer instant, 0 for the zero time).
- Storage.Store.ReadAnalytics: for an empty store the result is left
  unspecified. The code calls `Value` on the result of a failed `Get`, and
  what happens then depends on badger.
- Timers, tickers, goroutines and channels. Timer durations are not
  modelled. The event list fixes one order of the timer firings and of the
  Stop call. Stop is taken at an event boundary: its save happens, then
  Start returns. Not modelled: after the stop channel is closed, Go's
  `select` may still pick a ready ticker case first, so a snapshot tick can
  save the zero record over Stop's save (or a report can follow it).
- Analytics.Service.Start: requires that the stop channel is still open. A
  Stop that runs before Start's `ReadAnalytics` would make Stop's own save
  the baseline, and Start would then return at once; that interleaving is
  not modelled.
- Runtime, uuid, clock and build version: they are parameters (`Inputs`).
  Go's `int` is taken to be 64 bits wide for `int(ms.Alloc)` and the other
  uint64 conversions. `int(ms.NumGC)` of a uint32 is exact. The element type of `DiskUsage()` is not part of this model: its
  values are taken as ints.
- Analytics.Service.SendReport: `s.uploads++` is an unbounded increment, and
  so is the one in `Analytics.Report`; Go's 64-bit `int` would wrap to a
  negative count after 2^63 - 1 uploads. The record's int fields and the
  disk-usage and stats values are likewise unbounded integers here.
- Analytics.Service.Stop: the model requires that stop was not closed before.
  Calling Stop twice panics in Go (close of a closed channel), and that panic
  is not modelled. A Stop while Start never runs blocks forever; this is not
  modelled either.
- The panic that the merge's Int branch would raise. `fieldCurrent` is the
  zero `reflect.Value` that `cu.FieldByName` returns for the struct type's
  name, which is no field, so `fieldCurrent.Int()` would panic before
  `SetInt` is reached (and `SetInt` on the unaddressable `ret` would panic
  too). It is not modelled because the branch cannot be taken; the model
  asserts that it is unreachable.
- Resource leaks (the response body is never closed, the snapshot ticker is
  never stopped), logging, and the opt-out setting named in the package
  comment.
