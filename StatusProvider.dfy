/** The SQLite queue status provider as an object: it caches the transport
    options on first use and records, through `SetError`, every failure it
    catches while building a snapshot. */
module StatusProvider {
  import opened Outcomes
  import opened StatusEntries
  import StatusProperties

  /** The error recorded last after `es` have been recorded on top of `prior`. */
  function Latest(prior: Option<Exception>, es: seq<Exception>): (r: Option<Exception>)
    ensures r.None? <==> prior.None? && es == []
    ensures es != [] ==> r == Some(es[|es| - 1])
  {
    if es == [] then prior else Some(es[|es| - 1])
  }

  lemma LatestAppend(prior: Option<Exception>, xs: seq<Exception>, ys: seq<Exception>)
    ensures Latest(Latest(prior, xs), ys) == Latest(prior, xs + ys)
  {
  }

  lemma AppendRegroups<T>(log: seq<T>, c0: seq<T>, c1: seq<T>, c2: seq<T>, c3: seq<T>, c4: seq<T>)
    ensures log + c0 + c1 + c2 + c3 + c4 == log + (c0 + c1 + c2 + c3 + c4)
  {
  }

  /** Recording what the five builders caught, one after the other, records
      exactly what the snapshot's calls threw. */
  lemma AbsorbedIntoLog(log: seq<Exception>, o: TransportOptions, answer: QueryAnswers, serialize: Serializer)
    ensures log + AsSeq(GetPendingCount(o, answer).caught) + AsSeq(GetPendingDelayCount(o, answer).caught)
                + AsSeq(GetWorkingCount(o, answer).caught) + AsSeq(GetErrorCount(o, answer).caught)
                + AsSeq(GetConfiguration(o, serialize).caught)
            == log + Thrown(o, answer, serialize)
  {
    var bs := Steps(o, answer, serialize);
    var c0, c1, c2, c3, c4 := AsSeq(bs[0].caught), AsSeq(bs[1].caught), AsSeq(bs[2].caught),
                              AsSeq(bs[3].caught), AsSeq(bs[4].caught);
    StatusProperties.CaughtBySteps(bs);
    StatusProperties.FailuresAbsorbed(o, answer, serialize);
    AppendRegroups(log, c0, c1, c2, c3, c4);
  }

  /** The snapshot is the five builders' entries, in order. */
  lemma SnapshotOfBuilders(o: TransportOptions, answer: QueryAnswers, serialize: Serializer)
    ensures Snapshot(o, answer, serialize)
         == [GetPendingCount(o, answer).entry, GetPendingDelayCount(o, answer).entry, GetWorkingCount(o, answer).entry,
             GetErrorCount(o, answer).entry, GetConfiguration(o, serialize).entry]
  {
  }

  class SqLiteQueueStatusProvider {
    /** The value of the lazily created options; None until first read. */
    var options: Option<TransportOptions>
    /** The error last recorded by `SetError`. */
    var lastError: Option<Exception>
    /** Every error handed to `SetError`, oldest first. */
    ghost var errorLog: seq<Exception>

    /** The last recorded error is the newest one in the log. */
    ghost predicate Valid()
      reads this
    {
      lastError == Latest(None, errorLog)
    }

    /** A new provider has created no options and recorded no error. */
    constructor ()
      ensures Valid()
      ensures options == None && errorLog == []
    {
      options := None;
      lastError := None;
      errorLog := [];
    }

    /** Reads the lazily created options. The factory runs on the first read
        only, and `created` is what it would produce at that moment; every later
        read returns the cached value. */
    method OptionsValue(created: TransportOptions) returns (o: TransportOptions)
      modifies this`options
      ensures o == (if old(options).Some? then old(options).value else created)
      ensures options == Some(o)
    {
      if options.None? {
        options := Some(created);
      }
      o := options.value;
    }

    /** Records a caught failure. */
    method SetError(e: Exception)
      requires Valid()
      modifies this`lastError, this`errorLog
      ensures Valid()
      ensures errorLog == old(errorLog) + [e]
      ensures lastError == Some(e)
    {
      lastError := Some(e);
      errorLog := errorLog + [e];
    }

    /** Hands out the entry a builder produced, after passing the exception its
        catch block caught, if any, to `SetError`. */
    method Yield(b: Built) returns (entry: SystemEntry)
      requires Valid()
      modifies this`lastError, this`errorLog
      ensures Valid()
      ensures entry == b.entry
      ensures errorLog == old(errorLog) + AsSeq(b.caught)
    {
      if b.caught.Some? {
        SetError(b.caught.value);
      }
      entry := b.entry;
    }

    /** Builds the status snapshot. Each builder reads the options anew, yet
        all five see the same flags because the options are created once; every
        failure a handler or the serializer throws is recorded, in order, and
        the snapshot always holds its five entries. */
    method GetData(created: TransportOptions, answer: QueryAnswers, serialize: Serializer)
      returns (entries: seq<SystemEntry>)
      requires Valid()
      modifies this`options, this`lastError, this`errorLog
      ensures Valid()
      ensures options == Some(if old(options).Some? then old(options).value else created)
      ensures entries == Snapshot(options.value, answer, serialize)
      ensures errorLog == old(errorLog) + Thrown(options.value, answer, serialize)
      ensures lastError == Latest(old(lastError), Thrown(options.value, answer, serialize))
    {
      ghost var log0 := errorLog;
      var o := OptionsValue(created);
      var pending := Yield(GetPendingCount(o, answer));
      o := OptionsValue(created);
      var delayed := Yield(GetPendingDelayCount(o, answer));
      o := OptionsValue(created);
      var working := Yield(GetWorkingCount(o, answer));
      o := OptionsValue(created);
      var error := Yield(GetErrorCount(o, answer));
      o := OptionsValue(created);
      var configuration := Yield(GetConfiguration(o, serialize));
      entries := [pending, delayed, working, error, configuration];
      SnapshotOfBuilders(o, answer, serialize);
      AbsorbedIntoLog(log0, o, answer, serialize);
      LatestAppend(None, log0, Thrown(o, answer, serialize));
    }
  }
}
