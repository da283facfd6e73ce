/** The entries of the SQLite transport's queue status snapshot, as pure
    functions of the transport options and of what the injected query handlers
    and serializer do when called. */
module StatusEntries {
  import opened Outcomes
  import opened Decimal

  /** The three flags of the SQLite transport options that the snapshot reads.
      The other option fields reach the snapshot only through the serializer. */
  datatype TransportOptions = TransportOptions(
    enableDelayedProcessing: bool,
    enableStatus: bool,
    enableStatusTable: bool)

  /** One `(name, value)` line of the status snapshot. */
  datatype SystemEntry = SystemEntry(name: string, value: string)

  /** The five count queries the provider may hand to its query handlers. */
  datatype Query =
    | PendingExcludeDelayCount
    | PendingCount
    | PendingDelayedCount
    | WorkingCount
    | ErrorCount

  /** What each query handler does when it is asked: returns a count or throws. */
  type QueryAnswers = Query -> Outcome<int>

  /** What the serializer does when asked to render the options. */
  type Serializer = TransportOptions -> Outcome<string>

  /** An entry together with the exception its builder caught and passed to
      `SetError`, if any. */
  datatype Built = Built(entry: SystemEntry, caught: Option<Exception>)

  const PendingName := "Pending"
  const PendingDelayExcludedName := "PendingDelayExcluded"
  const DelayedPendingName := "DelayedPending"
  const WorkingName := "Working"
  const ErrorName := "Error"
  const ConfigurationName := "Configuration"

  // The texts shown instead of a count that needs a feature the queue was
  // created without. Each is the single literal of the C# code, written as
  // "The" + the rest only so that the verifier can see its first character
  // cheaply (it cannot unfold a long literal character by character).
  const StatusTableNotice := "The" + " status table must be enabled to get a count; set EnableStatusTable to true when creating queues to enable this."
  const StatusFieldNotice := "The" + " status field must be enabled to get a count; set EnableStatus to true when creating queues to enable this."
  /** Shown as the delayed count when delayed processing is off. */
  const NoDelayedText := "0"

  /** Both delayed processing and the status field are on, so the pending count
      can leave delayed messages out. */
  predicate ExcludesDelayed(o: TransportOptions) {
    o.enableDelayedProcessing && o.enableStatus
  }

  /** An entry whose value is explanatory text and whose builder caught nothing. */
  function Explained(name: string, text: string): Built {
    Built(SystemEntry(name, text), None)
  }

  /** `b` is what a builder yields for a call with outcome `out` inside its
      try/catch: the count under `okName`, or the exception's text under
      `failName` with the exception handed to `SetError`. */
  predicate Reports(b: Built, out: Outcome<int>, okName: string, failName: string) {
    match out
    case Returned(n) => b == Built(SystemEntry(okName, IntText(n)), None)
    case Threw(e) => b == Built(SystemEntry(failName, e.text), Some(e))
  }

  /** The try/catch around one count query. */
  function TryCount(okName: string, failName: string, out: Outcome<int>): Built
  {
    match out
    case Returned(n) => Built(SystemEntry(okName, IntText(n)), None)
    case Threw(e) => Built(SystemEntry(failName, e.text), Some(e))
  }

  // Which query, if any, each count entry consults under the given options.

  function PendingQuery(o: TransportOptions): Option<Query> {
    if ExcludesDelayed(o) then Some(PendingExcludeDelayCount)
    else if o.enableStatusTable then Some(PendingCount)
    else None
  }

  function DelayedPendingQuery(o: TransportOptions): Option<Query> {
    if ExcludesDelayed(o) then Some(PendingDelayedCount) else None
  }

  function WorkingQuery(o: TransportOptions): Option<Query> {
    if o.enableStatusTable then Some(WorkingCount) else None
  }

  function ErrorQuery(o: TransportOptions): Option<Query> {
    if o.enableStatusTable then Some(ErrorCount) else None
  }

  function AsSeq<T>(x: Option<T>): seq<T> {
    if x.Some? then [x.value] else []
  }

  /** The query each of the four count entries consults, in snapshot order. */
  function SlotQueries(o: TransportOptions): seq<Option<Query>>
  {
    [PendingQuery(o), DelayedPendingQuery(o), WorkingQuery(o), ErrorQuery(o)]
  }

  /** The queries one snapshot sends to the handlers, in the order it sends them. */
  function Consulted(o: TransportOptions): seq<Query> {
    AsSeq(PendingQuery(o)) + AsSeq(DelayedPendingQuery(o)) + AsSeq(WorkingQuery(o)) + AsSeq(ErrorQuery(o))
  }

  /** The pending entry. */
  function GetPendingCount(o: TransportOptions, answer: QueryAnswers): (b: Built)
    ensures PendingQuery(o).None? ==> b == Explained(PendingName, StatusTableNotice)
    ensures PendingQuery(o).Some? ==>
      Reports(b, answer(PendingQuery(o).value),
              if ExcludesDelayed(o) then PendingDelayExcludedName else PendingName,
              PendingName)
  {
    if ExcludesDelayed(o) then
      TryCount(PendingDelayExcludedName, PendingName, answer(PendingExcludeDelayCount))
    else if o.enableStatusTable then
      TryCount(PendingName, PendingName, answer(PendingCount))
    else
      Explained(PendingName, StatusTableNotice)
  }

  /** The delayed-pending entry. */
  function GetPendingDelayCount(o: TransportOptions, answer: QueryAnswers): (b: Built)
    ensures b.entry.name == DelayedPendingName
    ensures ExcludesDelayed(o) ==> Reports(b, answer(PendingDelayedCount), DelayedPendingName, DelayedPendingName)
    ensures o.enableDelayedProcessing && !o.enableStatus ==> b == Explained(DelayedPendingName, StatusFieldNotice)
    ensures !o.enableDelayedProcessing ==> b == Explained(DelayedPendingName, NoDelayedText)
  {
    if ExcludesDelayed(o) then
      TryCount(DelayedPendingName, DelayedPendingName, answer(PendingDelayedCount))
    else if o.enableDelayedProcessing then
      Explained(DelayedPendingName, StatusFieldNotice)
    else
      Explained(DelayedPendingName, NoDelayedText)
  }

  /** The working entry. */
  function GetWorkingCount(o: TransportOptions, answer: QueryAnswers): (b: Built)
    ensures b.entry.name == WorkingName
    ensures o.enableStatusTable ==> Reports(b, answer(WorkingCount), WorkingName, WorkingName)
    ensures !o.enableStatusTable ==> b == Explained(WorkingName, StatusTableNotice)
  {
    if o.enableStatusTable then TryCount(WorkingName, WorkingName, answer(WorkingCount))
    else Explained(WorkingName, StatusTableNotice)
  }

  /** The error entry. */
  function GetErrorCount(o: TransportOptions, answer: QueryAnswers): (b: Built)
    ensures b.entry.name == ErrorName
    ensures o.enableStatusTable ==> Reports(b, answer(ErrorCount), ErrorName, ErrorName)
    ensures !o.enableStatusTable ==> b == Explained(ErrorName, StatusTableNotice)
  {
    if o.enableStatusTable then TryCount(ErrorName, ErrorName, answer(ErrorCount))
    else Explained(ErrorName, StatusTableNotice)
  }

  /** The configuration entry: the serializer's rendering of the options. */
  function GetConfiguration(o: TransportOptions, serialize: Serializer): (b: Built)
    ensures b.entry.name == ConfigurationName
    ensures serialize(o).Returned? ==> b == Built(SystemEntry(ConfigurationName, serialize(o).value), None)
    ensures serialize(o).Threw? ==> b == Built(SystemEntry(ConfigurationName, serialize(o).error.text), Some(serialize(o).error))
  {
    match serialize(o)
    case Returned(text) => Built(SystemEntry(ConfigurationName, text), None)
    case Threw(e) => Built(SystemEntry(ConfigurationName, e.text), Some(e))
  }

  /** The five builders in the order `GetData` yields them. */
  function Steps(o: TransportOptions, answer: QueryAnswers, serialize: Serializer): seq<Built>
  {
    [GetPendingCount(o, answer), GetPendingDelayCount(o, answer), GetWorkingCount(o, answer),
     GetErrorCount(o, answer), GetConfiguration(o, serialize)]
  }

  function Entries(bs: seq<Built>): seq<SystemEntry>
  {
    seq(|bs|, i requires 0 <= i < |bs| => bs[i].entry)
  }

  /** The exceptions caught by a run of builders, in the order they were caught. */
  function Caught(bs: seq<Built>): (es: seq<Exception>)
    ensures |es| <= |bs|
  {
    if bs == [] then [] else AsSeq(bs[0].caught) + Caught(bs[1..])
  }

  /** The status snapshot: five entries with fixed names, the pending one under
      one of two names. */
  function Snapshot(o: TransportOptions, answer: QueryAnswers, serialize: Serializer): (s: seq<SystemEntry>)
    ensures |s| == 5
    ensures s[0].name == PendingName || s[0].name == PendingDelayExcludedName
    ensures s[1].name == DelayedPendingName
    ensures s[2].name == WorkingName
    ensures s[3].name == ErrorName
    ensures s[4].name == ConfigurationName
  {
    Entries(Steps(o, answer, serialize))
  }

  /** The outcomes of sending the queries `qs` to the handlers, in order. */
  function Answers(qs: seq<Query>, answer: QueryAnswers): seq<Outcome<int>>
  {
    seq(|qs|, i requires 0 <= i < |qs| => answer(qs[i]))
  }

  /** What the handlers and the serializer throw during one snapshot, in call order. */
  function Thrown(o: TransportOptions, answer: QueryAnswers, serialize: Serializer): seq<Exception> {
    Failures(Answers(Consulted(o), answer)) + Failures([serialize(o)])
  }
}
