/** What the SQLite status snapshot promises, stated over the entry builders. */
module StatusProperties {
  import opened Outcomes
  import opened Decimal
  import opened StatusEntries

  /** The pending entry is named `PendingDelayExcluded` exactly when delayed
      messages can be left out and the exclude-delay query succeeded; a failure
      of that query is reported under `Pending`. */
  lemma PendingEntryName(o: TransportOptions, answer: QueryAnswers)
    ensures GetPendingCount(o, answer).entry.name == PendingDelayExcludedName
        <==> ExcludesDelayed(o) && answer(PendingExcludeDelayCount).Returned?
    ensures ExcludesDelayed(o) && answer(PendingExcludeDelayCount).Threw? ==>
      GetPendingCount(o, answer) == Built(SystemEntry(PendingName, answer(PendingExcludeDelayCount).error.text),
                                          Some(answer(PendingExcludeDelayCount).error))
  {
  }

  /** No count query is sent when neither delayed-excluding counts nor the
      status table are available. */
  lemma NothingConsultedWithoutStatus(o: TransportOptions)
    ensures Consulted(o) == [] <==> !ExcludesDelayed(o) && !o.enableStatusTable
    ensures |Consulted(o)| <= 4
  {
  }

  /** Each count entry follows the query it consults: a returned count is shown
      as text that reads back as that count, a thrown exception is caught and
      shown as its text, and an entry that consults nothing catches nothing. */
  lemma EntryFollowsItsQuery(o: TransportOptions, answer: QueryAnswers, serialize: Serializer, i: nat)
    requires i < 4
    ensures var b := Steps(o, answer, serialize)[i];
      match SlotQueries(o)[i]
      case None => b.caught == None
      case Some(q) =>
        match answer(q)
        case Returned(n) => b.caught == None && ParseInt(b.entry.value) == Some(n)
        case Threw(e) => b.caught == Some(e) && b.entry.value == e.text
  {
    var b := Steps(o, answer, serialize)[i];
    if SlotQueries(o)[i].Some? && answer(SlotQueries(o)[i].value).Returned? {
      ParseIntText(answer(SlotQueries(o)[i].value).value);
    }
  }

  /** A feature that is switched off yields explanatory text and no error. The
      explanations are not counts; the disabled delayed count reads as zero. */
  lemma DisabledFeaturesExplained(o: TransportOptions, answer: QueryAnswers, serialize: Serializer)
    ensures var bs := Steps(o, answer, serialize);
      && (!ExcludesDelayed(o) && !o.enableStatusTable ==> bs[0] == Explained(PendingName, StatusTableNotice))
      && (o.enableDelayedProcessing && !o.enableStatus ==> bs[1] == Explained(DelayedPendingName, StatusFieldNotice))
      && (!o.enableDelayedProcessing ==> bs[1] == Explained(DelayedPendingName, NoDelayedText))
      && (!o.enableStatusTable ==>
            bs[2] == Explained(WorkingName, StatusTableNotice) && bs[3] == Explained(ErrorName, StatusTableNotice))
    ensures ParseInt(StatusTableNotice) == None && ParseInt(StatusFieldNotice) == None
    ensures forall n :: IntText(n) != StatusTableNotice && IntText(n) != StatusFieldNotice
    ensures ParseInt(NoDelayedText) == Some(0) && NoDelayedText == IntText(0)
  {
  }

  lemma {:induction false} FailuresAppend<T>(xs: seq<Outcome<T>>, ys: seq<Outcome<T>>)
    ensures Failures(xs + ys) == Failures(xs) + Failures(ys)
    decreases |xs|
  {
    if xs != [] {
      assert (xs + ys)[1..] == xs[1..] + ys;
      FailuresAppend(xs[1..], ys);
    } else {
      assert xs + ys == ys;
    }
  }

  lemma {:induction false} CaughtAppend(xs: seq<Built>, ys: seq<Built>)
    ensures Caught(xs + ys) == Caught(xs) + Caught(ys)
    decreases |xs|
  {
    if xs != [] {
      assert (xs + ys)[1..] == xs[1..] + ys;
      CaughtAppend(xs[1..], ys);
    } else {
      assert xs + ys == ys;
    }
  }

  /** A count entry catches exactly what the query it consults throws. */
  lemma SlotCaught(o: TransportOptions, answer: QueryAnswers, serialize: Serializer, i: nat)
    requires i < 4
    ensures AsSeq(Steps(o, answer, serialize)[i].caught) == Failures(Answers(AsSeq(SlotQueries(o)[i]), answer))
  {
  }

  /** Running one more builder adds what it caught to what the builders
      before it caught. */
  lemma CaughtSnoc(bs: seq<Built>, k: nat)
    requires k < |bs|
    ensures Caught(bs[..k + 1]) == Caught(bs[..k]) + AsSeq(bs[k].caught)
  {
    assert bs[..k + 1] == bs[..k] + [bs[k]];
    CaughtAppend(bs[..k], [bs[k]]);
    assert [bs[k]][1..] == [];
  }

  /** The exceptions a snapshot's builders catch, builder by builder. */
  lemma CaughtBySteps(bs: seq<Built>)
    requires |bs| == 5
    ensures Caught(bs) == AsSeq(bs[0].caught) + AsSeq(bs[1].caught) + AsSeq(bs[2].caught)
                          + AsSeq(bs[3].caught) + AsSeq(bs[4].caught)
  {
    assert bs[..0] == [];
    CaughtSnoc(bs, 0);
    CaughtSnoc(bs, 1);
    CaughtSnoc(bs, 2);
    CaughtSnoc(bs, 3);
    CaughtSnoc(bs, 4);
    assert bs[..5] == bs;
  }

  /** The exceptions a snapshot's calls throw, entry by entry. */
  lemma ThrownBySlots(o: TransportOptions, answer: QueryAnswers, serialize: Serializer)
    ensures var qs := SlotQueries(o);
      Thrown(o, answer, serialize)
        == Failures(Answers(AsSeq(qs[0]), answer)) + Failures(Answers(AsSeq(qs[1]), answer))
           + Failures(Answers(AsSeq(qs[2]), answer)) + Failures(Answers(AsSeq(qs[3]), answer))
           + Failures([serialize(o)])
  {
    var qs := SlotQueries(o);
    var a0, a1, a2, a3 := Answers(AsSeq(qs[0]), answer), Answers(AsSeq(qs[1]), answer),
                          Answers(AsSeq(qs[2]), answer), Answers(AsSeq(qs[3]), answer);
    assert Answers(Consulted(o), answer) == a0 + a1 + a2 + a3;
    FailuresAppend(a0 + a1 + a2, a3);
    FailuresAppend(a0 + a1, a2);
    FailuresAppend(a0, a1);
  }

  /** Every failure is absorbed: the builders catch, in order, exactly the
      exceptions that the consulted handlers and the serializer throw, and each
      caught exception's text is the value of the entry that caught it, so the
      snapshot keeps all five entries and nothing propagates. */
  lemma FailuresAbsorbed(o: TransportOptions, answer: QueryAnswers, serialize: Serializer)
    ensures Caught(Steps(o, answer, serialize)) == Thrown(o, answer, serialize)
    ensures forall i :: 0 <= i < 5 && Steps(o, answer, serialize)[i].caught.Some? ==>
      Snapshot(o, answer, serialize)[i].value == Steps(o, answer, serialize)[i].caught.value.text
  {
    var bs := Steps(o, answer, serialize);
    assert Caught(bs) == Thrown(o, answer, serialize) by {
      var qs := SlotQueries(o);
      CaughtBySteps(bs);
      ThrownBySlots(o, answer, serialize);
      SlotCaught(o, answer, serialize, 0);
      SlotCaught(o, answer, serialize, 1);
      SlotCaught(o, answer, serialize, 2);
      SlotCaught(o, answer, serialize, 3);
      assert AsSeq(bs[4].caught) == Failures([serialize(o)]) by {
        assert [serialize(o)][1..] == [];
      }
    }
    forall i | 0 <= i < 4 && bs[i].caught.Some?
      ensures Snapshot(o, answer, serialize)[i].value == bs[i].caught.value.text
    {
      EntryFollowsItsQuery(o, answer, serialize, i);
    }
  }

  /** The snapshot reads only the handlers it consults: two sets of handlers
      that agree on the consulted queries yield the same snapshot. */
  lemma SnapshotReadsOnlyConsulted(o: TransportOptions, answer: QueryAnswers, other: QueryAnswers, serialize: Serializer)
    requires forall q :: q in Consulted(o) ==> answer(q) == other(q)
    ensures Steps(o, answer, serialize) == Steps(o, other, serialize)
    ensures Snapshot(o, answer, serialize) == Snapshot(o, other, serialize)
  {
  }
}
