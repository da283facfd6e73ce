# SQLite queue status snapshot

A model of `SqLiteQueueStatusProvider`, the SQLite transport's queue status provider in
DotNetWorkQueue. When asked for its data, the provider yields five `(name, value)` entries
in a fixed order: the pending count, the delayed-pending count, the working count, the
error count and the rendered configuration. Three flags of the transport options decide
which count query each entry sends, the name the pending entry uses and the explanation
shown when a feature is off:

- `EnableDelayedProcessing`
- `EnableStatus`
- `EnableStatusTable`

Every exception a query handler or the serializer throws is caught. It is passed to
`SetError`, and its text becomes the entry's value, so building the snapshot never fails
because of a collaborator.

Files:

- `Outcomes.dfy`: `Option`, the caught `Exception` (seen through its `ToString()` text) and
  `Outcome<T>`, meaning "the call returned a value or threw".
- `Decimal.dfy`: `Int64.ToString()` for a count (`IntText`), an independent parser
  (`ParseInt`) and the proof that every rendered count reads back as itself.
- `StatusEntries.dfy`: the five entry builders as pure functions of the options, the
  handlers' outcomes and the serializer's outcome; `Snapshot` (their entries in order);
  `Consulted` (the queries a snapshot sends) and `Thrown` (what the calls throw).
- `StatusProperties.dfy`: the properties of the snapshot, as lemmas.
- `StatusProvider.dfy`: the provider as a class. It holds the lazily created options, the
  last error recorded by `SetError` and a ghost log of every recorded error. `GetData`
  reads the options before each builder, as the C# builders do, and is proved equal to
  `Snapshot` of one set of options.

The query handlers are a total function `Query -> Outcome<int>`, meaning what each handler
does when it is called during this snapshot. The serializer is a function
`TransportOptions -> Outcome<string>`. The options factory is the value it would produce
when the options are first read.

## Model

| member | source | states |
|---|---|---|
| `Decimal.NaturalText` | Source/DotNetWorkQueue.Transport.SQLite/Basic/SqLiteQueueStatusProvider.cs:79 | A non-negative count is rendered as at least one decimal digit, with no leading zero unless the count is 0 |
| `Decimal.IntText` | Source/DotNetWorkQueue.Transport.SQLite/Basic/SqLiteQueueStatusProvider.cs:79 | `ToString()` of a count is non-empty and starts with the negative sign (the ASCII `-`) exactly when the count is negative |
| `Decimal.ParseIntText` | Source/DotNetWorkQueue.Transport.SQLite/Basic/SqLiteQueueStatusProvider.cs:91 | Round trip: every rendered count parses back to the same count, so the value of a count entry identifies the count |
| `Decimal.IntTextInjective` | Source/DotNetWorkQueue.Transport.SQLite/Basic/SqLiteQueueStatusProvider.cs:113 | Two counts render to the same text if and only if they are equal |
| `Decimal.LetterIsNotCount` | Source/DotNetWorkQueue.Transport.SQLite/Basic/SqLiteQueueStatusProvider.cs:99 | A text that starts with a letter, like the explanations, neither parses as a count nor is the rendering of any count |
| `StatusEntries.GetPendingCount` | Source/DotNetWorkQueue.Transport.SQLite/Basic/SqLiteQueueStatusProvider.cs:71-100 | With delayed processing and status on: the exclude-delay count under `PendingDelayExcluded`, or on failure the error text under `Pending` with the error caught. Otherwise, with the status table on: the plain pending count under `Pending`, or the caught error's text. Otherwise: `Pending` with the status-table explanation and nothing caught |
| `StatusEntries.GetPendingDelayCount` | Source/DotNetWorkQueue.Transport.SQLite/Basic/SqLiteQueueStatusProvider.cs:106-126 | Always named `DelayedPending`. Delayed processing and status on: the delayed count or the caught error's text. Only delayed processing on: the status-field explanation. Delayed processing off: `"0"`, with nothing caught |
| `StatusEntries.GetWorkingCount` | Source/DotNetWorkQueue.Transport.SQLite/Basic/SqLiteQueueStatusProvider.cs:132-148 | Always named `Working`. Status table on: the working count, or the caught error's text. Otherwise the status-table explanation, whatever the other flags are |
| `StatusEntries.GetErrorCount` | Source/DotNetWorkQueue.Transport.SQLite/Basic/SqLiteQueueStatusProvider.cs:154-170 | Always named `Error`. Status table on: the error count, or the caught error's text. Otherwise the status-table explanation, whatever the other flags are |
| `StatusEntries.GetConfiguration` | Source/DotNetWorkQueue.Transport.SQLite/Basic/SqLiteQueueStatusProvider.cs:176-188 | Always named `Configuration`. Its value is the serializer's rendering of the options; if rendering throws, the value is the exception's text and the exception is caught |
| `StatusEntries.Snapshot` | Source/DotNetWorkQueue.Transport.SQLite/Basic/SqLiteQueueStatusProvider.cs:58-65 | Exactly five entries, in the order pending (`Pending` or `PendingDelayExcluded`), `DelayedPending`, `Working`, `Error`, `Configuration` |
| `StatusProperties.PendingEntryName` | Source/DotNetWorkQueue.Transport.SQLite/Basic/SqLiteQueueStatusProvider.cs:73-86 | The pending entry is named `PendingDelayExcluded` if and only if delayed processing and status are both on and the exclude-delay query returned. When that query throws, the entry is `Pending` with the error text |
| `StatusProperties.NothingConsultedWithoutStatus` | Source/DotNetWorkQueue.Transport.SQLite/Basic/SqLiteQueueStatusProvider.cs:87-99 | A snapshot sends no count query if and only if the status table is off and delayed processing and status are not both on. It never sends more than four |
| `StatusProperties.EntryFollowsItsQuery` | Source/DotNetWorkQueue.Transport.SQLite/Basic/SqLiteQueueStatusProvider.cs:134-147 | For each count entry: if its query returns n, the value reads back as n and nothing is caught. If its query throws e, e is caught and its text is the value. An entry that sends no query catches nothing |
| `StatusProperties.DisabledFeaturesExplained` | Source/DotNetWorkQueue.Transport.SQLite/Basic/SqLiteQueueStatusProvider.cs:99-169 | A disabled feature yields explanatory text and no caught error: the status-table text for pending (when no count applies), working and error; the status-field text for delayed-pending. The explanations are not counts, and the `"0"` shown with delayed processing off is the count 0 |
| `StatusProperties.FailuresAbsorbed` | Source/DotNetWorkQueue.Transport.SQLite/Basic/SqLiteQueueStatusProvider.cs:179-187 | The builders catch exactly the exceptions the consulted handlers and the serializer throw, in call order. Each caught exception's text is the value of the entry that caught it |
| `StatusProperties.SnapshotReadsOnlyConsulted` | Source/DotNetWorkQueue.Transport.SQLite/Basic/SqLiteQueueStatusProvider.cs:75-99 | Two sets of handlers that agree on the queries the options make a snapshot send give the same snapshot. No other handler influences it |
| `StatusProvider.AbsorbedIntoLog` | Source/DotNetWorkQueue.Transport.SQLite/Basic/SqLiteQueueStatusProvider.cs:60-64 | Recording what the five builders caught, one after the other, records exactly what the snapshot's calls threw |
| `StatusProvider.SqLiteQueueStatusProvider.constructor` | Source/DotNetWorkQueue.Transport.SQLite/Basic/SqLiteQueueStatusProvider.cs:43-52 | A new provider has not yet created its options and has recorded no error |
| `StatusProvider.SqLiteQueueStatusProvider.OptionsValue` | Source/DotNetWorkQueue.Transport.SQLite/Basic/SqLiteQueueStatusProvider.cs:51 | The factory's value is taken on the first read only. Every later read returns the cached options, whatever the factory would now produce |
| `StatusProvider.SqLiteQueueStatusProvider.SetError` | Source/DotNetWorkQueue.Transport.SQLite/Basic/SqLiteQueueStatusProvider.cs:81-85 | The error becomes the last recorded error and is appended to the log |
| `StatusProvider.SqLiteQueueStatusProvider.Yield` | Source/DotNetWorkQueue.Transport.SQLite/Basic/SqLiteQueueStatusProvider.cs:93-97 | Hands out the built entry unchanged, after recording the caught exception, if any |
| `StatusProvider.SqLiteQueueStatusProvider.GetData` | Source/DotNetWorkQueue.Transport.SQLite/Basic/SqLiteQueueStatusProvider.cs:58-65 | The yielded entries are `Snapshot` of a single set of options: the cached one, or the factory's on first use. Exactly the exceptions thrown during the snapshot are recorded, in order, and the last recorded error is the last of them (or the previous one if nothing threw) |

## Left out

- `StatusProvider.SqLiteQueueStatusProvider.OptionsValue`: the options factory is assumed to succeed. In the C# code, the first `_options.Value` read in the pending, delayed, working and error builders is outside their `try`. An exception thrown by the factory would therefore escape those builders and not become an entry. Only the configuration builder reads the options inside its `try`.
- Option fields other than the three flags are not modelled. They reach the snapshot only through the serializer, which is an opaque function of the options.
- The query handlers, the serializer's `ConvertToString` and `Exception.ToString()` are collaborators that are not shown. They are inputs: a handler's outcome, the serializer's outcome and the exception's text.
- `QueueStatusProviderBase` is not part of this model. This includes its connection information, its time factory and the code that enumerates `GetData`. `SetError` is modelled as recording the last error, nothing more.
- `GetData` is a C# iterator: a builder runs only when the consumer asks for its entry. The model builds all five entries, which is what a consumer enumerating the whole sequence observes. A consumer that stops early would trigger fewer queries and `SetError` calls.
- Thread safety of the `Lazy` options (concurrent first reads) is not modelled.
- `Decimal.IntText`: negative counts are always rendered with the ASCII `-`. `long.ToString()` with no arguments uses the current culture's negative sign, which some cultures write differently (U+2212, for example). Non-negative counts render the same in every culture.
- Counts are unbounded integers rather than 64-bit. They are only rendered, never combined, so no wrap-around can arise.
- Only `SqLiteQueueStatusProvider` is modelled; the rest of DotNetWorkQueue, including the message lifecycle, is not.
- With delayed processing off, `GetPendingDelayCount` shows the count text `"0"`, not an explanation (Source/DotNetWorkQueue.Transport.SQLite/Basic/SqLiteQueueStatusProvider.cs:125); the model keeps that text.
