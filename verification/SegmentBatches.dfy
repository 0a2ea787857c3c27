/** What a micro-batch of segments does to the books: for every job, whether the batch succeeds or fails. */
module SegmentBatches {
  import opened Prelude
  import opened SegmentJobs
  import opened AsrMessages

  ghost predicate AllRight(plan: Plan, history: seq<Event>, jobs: Jobs, sent: seq<ItemOutcome>) {
    forall j: nat :: plan.count(j) > 0 ==> JobRight(plan, history, jobs, sent, j)
  }

  ghost function Answers(outcomes: seq<ItemOutcome>, j: nat): nat {
    Outcomes(outcomes, j, true) + Outcomes(outcomes, j, false)
  }

  ghost function JobsOf(jobs: seq<AsrJob>, j: nat): nat {
    if jobs == [] then 0 else JobsOf(jobs[..|jobs| - 1], j) + if jobs[|jobs| - 1].index == j then 1 else 0
  }

  /** Whole-job messages of jobs without segments have their outcomes, except the jobs still `waiting`. */
  ghost predicate OthersTally(plan: Plan, handled: seq<Message>, sent: seq<ItemOutcome>, waiting: seq<AsrJob>) {
    forall j: nat :: plan.count(j) == 0 ==> Answers(sent, j) + JobsOf(waiting, j) == OtherCount(handled, j)
  }

  ghost function EventSegments(history: seq<Event>): seq<Segment> {
    if history == [] then [] else
      var e := history[|history| - 1];
      EventSegments(history[..|history| - 1]) + SegmentsOfEvent(e)
  }

  ghost function SegmentsOfEvent(e: Event): seq<Segment> {
    match e
    case Began(_) => []
    case Done(s, _) => [s]
    case FailedBatch(segments) => segments
  }

  /** The history holds exactly the segments that were handled, in that order. */
  ghost predicate HistoryOf(history: seq<Event>, handled: seq<Message>) {
    && EventSegments(history) == SegmentsIn(handled)
    && forall j: nat :: Processed(history, j) == SegmentCount(handled, j)
  }

  /** No failed batch was larger than the worker's cap. */
  ghost predicate SmallBatches(history: seq<Event>, cap: nat) {
    forall e :: e in history && e.FailedBatch? ==> 1 <= |e.segments| <= Max(cap, 1)
  }

  /** Every new outcome is about a job with segments. */
  ghost predicate OnlySegmentJobs(plan: Plan, before: seq<ItemOutcome>, after: seq<ItemOutcome>) {
    forall o :: o in after ==> o in before || plan.count(o.index) > 0
  }

  /** Nothing is lost or duplicated between the arrivals and the handled messages. */
  ghost predicate Conserved(all: seq<Message>, handled: seq<Message>, batch: seq<Message>, pending: seq<Message>,
                            queue: seq<Message>)
  {
    multiset(all) == multiset(handled) + multiset(batch) + multiset(pending) + multiset(queue)
  }

  lemma NothingHandled(all: seq<Message>)
    ensures Conserved(all, [], [], [], all)
  {
  }

  /** The next message is received; nothing is lost. */
  lemma NextConserved(all: seq<Message>, handled: seq<Message>, pending: seq<Message>, queue: seq<Message>, m: Message,
                      pending': seq<Message>, queue': seq<Message>)
    requires Conserved(all, handled, [], pending, queue) && pending + queue == [m] + (pending' + queue')
    ensures multiset(all) == multiset(handled) + multiset([m] + pending' + queue')
    ensures |pending'| + |queue'| < |pending| + |queue|
  {
    assert multiset(pending) + multiset(queue) == multiset(pending + queue);
    assert [m] + pending' + queue' == pending + queue;
    assert |pending + queue| == 1 + |pending'| + |queue'|;
  }

  lemma AllConserved(all: seq<Message>, handled: seq<Message>)
    requires Conserved(all, handled, [], [], [])
    ensures multiset(handled) == multiset(all)
  {
  }

  lemma PartsTogether(a: seq<Message>, b: seq<Message>, c: seq<Message>, d: seq<Message>)
    ensures multiset(a + b + c + d) == multiset(a) + multiset(b) + multiset(c) + multiset(d)
  {
  }

  lemma PartsCount(a: seq<Message>, b: seq<Message>, c: seq<Message>, d: seq<Message>, j: nat)
    ensures SegmentCount(a + b + c + d, j) ==
              SegmentCount(a, j) + SegmentCount(b, j) + SegmentCount(c, j) + SegmentCount(d, j)
    ensures OtherCount(a + b + c + d, j) == OtherCount(a, j) + OtherCount(b, j) + OtherCount(c, j) + OtherCount(d, j)
  {
    hide SegmentCount, OtherCount;
    CountsAdd(a + b + c, d, j);
    CountsAdd(a + b, c, j);
    CountsAdd(a, b, j);
  }

  lemma ConservedTogether(all: seq<Message>, handled: seq<Message>, batch: seq<Message>, pending: seq<Message>,
                          queue: seq<Message>, j: nat)
    requires Conserved(all, handled, batch, pending, queue)
    ensures SegmentCount(all, j) == SegmentCount(handled + batch + pending + queue, j)
    ensures OtherCount(all, j) == OtherCount(handled + batch + pending + queue, j)
  {
    PartsTogether(handled, batch, pending, queue);
    CountsUnordered(all, handled + batch + pending + queue, j);
  }

  lemma {:induction false} SegmentsOfPrefix(segments: seq<Segment>, k: nat, j: nat)
    requires k < |segments|
    ensures SegmentsOf(segments[..k + 1], j) == SegmentsOf(segments[..k], j) + if segments[k].jobIndex ==
              j then 1 else 0
    ensures SegmentsOf(segments[..k + 1], j) <= SegmentsOf(segments, j)
    decreases |segments|
  {
    assert segments[..k + 1][..k] == segments[..k];
    if k + 1 < |segments| {
      var n := |segments| - 1;
      SegmentsOfPrefix(segments[..n], k, j);
      assert segments[..n][..k + 1] == segments[..k + 1] && segments[..n][..k] == segments[..k];
    } else {
      assert segments[..k + 1] == segments;
    }
  }

  /** The segments of a batch that is not handled yet, and that its jobs are still waiting for. */
  ghost predicate Awaited(plan: Plan, handled: seq<Message>, segments: seq<Segment>) {
    && (forall k :: 0 <= k < |segments| ==> FromPlan(plan, segments[k]))
    && forall j: nat :: SegmentCount(handled, j) + SegmentsOf(segments, j) <= plan.count(j)
  }

  /** The next message leaves the messages set aside or still to arrive. */
  lemma BatchConserved(all: seq<Message>, handled: seq<Message>, before: seq<Message>, taken: seq<Message>,
                       pending: seq<Message>, queue: seq<Message>)
    requires multiset(all) == multiset(handled) + multiset(before) && Regrouped(before, taken, pending, queue)
    ensures Conserved(all, handled, taken, pending, queue) && Conserved(all, handled + taken, [], pending, queue)
    ensures |taken| + |pending| + |queue| == |before|
  {
    assert multiset(handled + taken) == multiset(handled) + multiset(taken);
    assert |multiset(before)| == |multiset(taken)| + |multiset(pending)| + |multiset(queue)|;
  }

  lemma BatchAwaited(plan: Plan, all: seq<Message>, handled: seq<Message>, segments: seq<Segment>,
                     pending: seq<Message>, queue: seq<Message>)
    requires WellSent(plan, all) && Conserved(all, handled, AsMessages(segments), pending, queue)
    ensures Awaited(plan, handled, segments)
  {
    forall k | 0 <= k < |segments|
      ensures FromPlan(plan, segments[k])
    {
      assert AsMessages(segments)[k] == SegmentMessage(segments[k]);
      assert SegmentMessage(segments[k]) in multiset(AsMessages(segments));
      assert SegmentMessage(segments[k]) in multiset(all);
      assert SegmentMessage(segments[k]) in all;
    }
    forall j: nat
      ensures SegmentCount(handled, j) + SegmentsOf(segments, j) <= plan.count(j)
    {
      ConservedTogether(all, handled, AsMessages(segments), pending, queue, j);
      PartsCount(handled, AsMessages(segments), pending, queue, j);
      SegmentsCount(segments, j);
    }
  }

  lemma AllGenuine(asr: Recognise, call: nat, segments: seq<Segment>, timelines: seq<Timeline>)
    requires |segments| == |timelines| && asr(call, WavesOf(segments)) == Ok(timelines)
    ensures forall k :: 0 <= k < |segments| ==> Genuine(asr, Done(segments[k], timelines[k]))
  {
    forall k: nat | k < |segments|
      ensures Genuine(asr, Done(segments[k], timelines[k]))
    {
      assert Complete(asr, call, WavesOf(segments));
    }
  }

  lemma BeganGenuine(asr: Recognise, batch: seq<Segment>)
    ensures Genuine(asr, Began(batch))
  {
  }

  lemma FailureGenuine(asr: Recognise, call: nat, segments: seq<Segment>)
    requires !Complete(asr, call, WavesOf(segments))
    ensures Genuine(asr, FailedBatch(segments))
  {
  }

  /** After the first `k` segments of a failed batch: their jobs are gone, each with one error. */
  ghost predicate Failing(jobs0: Jobs, sent0: seq<ItemOutcome>, segments: seq<Segment>, k: nat, jobs: Jobs,
                          sent: seq<ItemOutcome>)
  {
    && k <= |segments|
    && (forall l :: 0 <= l < |segments| ==> segments[l].jobIndex in jobs0)
    && (forall j: nat :: j in jobs <==> j in jobs0 && SegmentsOf(segments[..k], j) == 0)
    && (forall j: nat :: j in jobs ==> jobs[j] == jobs0[j])
    && (forall j: nat :: Outcomes(sent, j, true) == Outcomes(sent0, j, true))
    && (forall j: nat ::
          Outcomes(sent, j, false) == Outcomes(sent0, j, false) + if SegmentsOf(segments[..k], j) > 0 then 1 else 0)
    && sent0 <= sent
    && (forall o :: o in sent ==> o in sent0 || (o.index in jobs0 && o.audioSeconds == jobs0[o.index].audioSeconds))
    && (forall o :: o in sent ==> o in sent0 || SegmentsOf(segments, o.index) > 0)
  }

  lemma FailingStarts(jobs: Jobs, sent: seq<ItemOutcome>, segments: seq<Segment>)
    requires forall l :: 0 <= l < |segments| ==> segments[l].jobIndex in jobs
    ensures Failing(jobs, sent, segments, 0, jobs, sent)
  {
  }

  lemma FailingStep(jobs0: Jobs, sent0: seq<ItemOutcome>, segments: seq<Segment>, k: nat, jobs: Jobs,
                    sent: seq<ItemOutcome>, reason: string)
    requires Failing(jobs0, sent0, segments, k, jobs, sent) && k < |segments|
    ensures Failing(jobs0, sent0, segments, k + 1, FailOne(jobs, sent, segments[k].jobIndex, reason).0,
                    FailOne(jobs, sent, segments[k].jobIndex, reason).1)
  {
    hide Outcomes, SegmentsOf;
    var i := segments[k].jobIndex;
    var (jobs', sent') := FailOne(jobs, sent, i, reason);
    SegmentsOfPrefix(segments, k, i);
    forall j: nat
      ensures SegmentsOf(segments[..k + 1], j) == SegmentsOf(segments[..k], j) + if i == j then 1 else 0
      ensures Outcomes(sent', j, true) == Outcomes(sent, j, true)
      ensures Outcomes(sent', j, false) == Outcomes(sent, j, false) + if i == j && i in jobs then 1 else 0
    {
      SegmentsOfPrefix(segments, k, j);
      if i in jobs {
        var o := ItemOutcome(i, Err(reason), jobs[i].audioSeconds);
        OutcomeStep(sent, o, j, true);
        OutcomeStep(sent, o, j, false);
      }
    }
  }

  lemma FailedAll(plan: Plan, history: seq<Event>, handled: seq<Message>, jobs0: Jobs, sent0: seq<ItemOutcome>,
                  segments: seq<Segment>, jobs: Jobs, sent: seq<ItemOutcome>)
    requires Failing(jobs0, sent0, segments, |segments|, jobs, sent) && Awaited(plan, handled, segments)
    requires HistoryOf(history, handled)
    requires AllRight(plan, history, jobs0, sent0) && OthersTally(plan, handled, sent0, [])
    ensures AllRight(plan, history + [FailedBatch(segments)], jobs, sent) && OthersTally(plan, handled, sent, [])
    ensures OnlySegmentJobs(plan, sent0, sent)
    ensures EventSegments(history + [FailedBatch(segments)]) == SegmentsIn(handled) + segments
    ensures forall j: nat ::
              Processed(history + [FailedBatch(segments)], j) == SegmentCount(handled, j) + SegmentsOf(segments, j)
  {
    hide JobRight, Outcomes, SegmentsOf, Processed, SegmentCount;
    assert segments[..|segments|] == segments;
    forall j: nat
      ensures plan.count(j) > 0 ==> JobRight(plan, history + [FailedBatch(segments)], jobs, sent, j)
      ensures Processed(history + [FailedBatch(segments)], j) == SegmentCount(handled, j) + SegmentsOf(segments, j)
    {
      EventStep(history, FailedBatch(segments), j);
      if plan.count(j) > 0 {
        SomeSegment(segments, j);
        FailedSeconds(plan, history, jobs0, sent0, segments, jobs, sent, j);
        FailKeeps(plan, history, jobs0, sent0, segments, jobs, sent, j);
      }
    }
    forall j: nat | plan.count(j) == 0
      ensures Outcomes(sent, j, true) + Outcomes(sent, j, false) == OtherCount(handled, j)
    {
      assert SegmentsOf(segments, j) == 0;
    }
  }

  lemma FailedSeconds(plan: Plan, history: seq<Event>, jobs0: Jobs, sent0: seq<ItemOutcome>, segments: seq<Segment>,
                      jobs: Jobs, sent: seq<ItemOutcome>, j: nat)
    requires Failing(jobs0, sent0, segments, |segments|, jobs, sent) && JobRight(plan, history, jobs0, sent0, j)
    ensures RightSeconds(plan, jobs, sent, j)
  {
    hide Outcomes, SegmentsOf, Processed, Failures, Shifted, Led, Told, Gathering, Answered;
  }

  lemma {:induction false} SomeSegment(segments: seq<Segment>, j: nat)
    ensures SegmentsOf(segments, j) > 0 ==> exists k :: 0 <= k < |segments| && segments[k].jobIndex == j
  {
    if segments != [] {
      var n := |segments| - 1;
      SomeSegment(segments[..n], j);
      if SegmentsOf(segments[..n], j) > 0 {
        var k :| 0 <= k < n && segments[..n][k].jobIndex == j;
        assert segments[k].jobIndex == j;
      }
    }
  }

  /** Counting a finished batch among the handled messages. */
  lemma HandledBatch(plan: Plan, history: seq<Event>, handled: seq<Message>, segments: seq<Segment>,
                     sent: seq<ItemOutcome>)
    requires forall j: nat :: Processed(history, j) == SegmentCount(handled, j) + SegmentsOf(segments, j)
    requires OthersTally(plan, handled, sent, []) && EventSegments(history) == SegmentsIn(handled) + segments
    ensures HistoryOf(history, handled + AsMessages(segments))
    ensures OthersTally(plan, handled + AsMessages(segments), sent, [])
  {
    hide SegmentCount, OtherCount, SegmentsOf, Processed, Outcomes;
    forall j: nat
      ensures SegmentCount(handled + AsMessages(segments), j) == SegmentCount(handled, j) + SegmentsOf(segments, j)
      ensures OtherCount(handled + AsMessages(segments), j) == OtherCount(handled, j)
    {
      CountsAdd(handled, AsMessages(segments), j);
      SegmentsCount(segments, j);
    }
    SegmentsInBatch(handled, segments);
  }

  lemma {:induction false} SegmentsInBatch(handled: seq<Message>, segments: seq<Segment>)
    ensures SegmentsIn(handled + AsMessages(segments)) == SegmentsIn(handled) + segments
  {
    if segments == [] {
      assert handled + AsMessages(segments) == handled;
    } else {
      var n := |segments| - 1;
      SegmentsInBatch(handled, segments[..n]);
      assert (handled + AsMessages(segments))[..|handled| + n] == handled + AsMessages(segments[..n]);
    }
  }

  /** The first `k` segments of a successful batch have their annotations in their jobs. */
  ghost predicate Finishing(plan: Plan, history: seq<Event>, jobs: Jobs, sent: seq<ItemOutcome>, handled: seq<Message>,
                            segments: seq<Segment>, k: nat)
  {
    && k <= |segments|
    && AllRight(plan, history, jobs, sent)
    && OthersTally(plan, handled, sent, [])
    && EventSegments(history) == SegmentsIn(handled) + segments[..k]
    && (forall j: nat :: Processed(history, j) == SegmentCount(handled, j) + SegmentsOf(segments[..k], j))
    && forall l :: k <= l < |segments| ==> segments[l].jobIndex in jobs
  }

  lemma FinishStart(plan: Plan, history: seq<Event>, jobs: Jobs, sent: seq<ItemOutcome>, handled: seq<Message>,
                    segments: seq<Segment>)
    requires AllRight(plan, history, jobs, sent) && OthersTally(plan, handled, sent, []) && HistoryOf(history, handled)
    requires forall k :: 0 <= k < |segments| ==> segments[k].jobIndex in jobs
    ensures Finishing(plan, history, jobs, sent, handled, segments, 0)
  {
    assert segments[..0] == [];
    assert SegmentsIn(handled) + [] == SegmentsIn(handled);
  }

  lemma FinishEnd(plan: Plan, history: seq<Event>, jobs: Jobs, sent: seq<ItemOutcome>, handled: seq<Message>,
                  segments: seq<Segment>)
    requires Finishing(plan, history, jobs, sent, handled, segments, |segments|)
    ensures AllRight(plan, history, jobs, sent) && OthersTally(plan, handled, sent, [])
    ensures EventSegments(history) == SegmentsIn(handled) + segments
    ensures forall j: nat :: Processed(history, j) == SegmentCount(handled, j) + SegmentsOf(segments, j)
  {
    assert segments[..|segments|] == segments;
  }

  lemma FinishStep(plan: Plan, history: seq<Event>, jobs: Jobs, sent: seq<ItemOutcome>, timeline: Timeline,
                   handled: seq<Message>, segments: seq<Segment>, k: nat)
    requires Finishing(plan, history, jobs, sent, handled, segments, k) && Awaited(plan, handled, segments)
    requires k < |segments|
    ensures var finished := FinishOne(jobs, sent, segments[k], timeline);
            && Finishing(plan, history + [Done(segments[k], timeline)], finished.0, finished.1, handled, segments,
                         k + 1)
            && OnlySegmentJobs(plan, sent, finished.1)
  {
    hide JobRight, SegmentCount, SegmentsOf, Processed, Outcomes, SegmentsIn, EventSegments, FinishOne, OtherCount;
    var s := segments[k];
    var finished := FinishOne(jobs, sent, s, timeline);
    FinishRight(plan, history, jobs, sent, s, timeline, handled, segments, k);
    FinishOthers(plan, jobs, sent, s, timeline, handled);
    FinishCounts(history, timeline, handled, segments, k);
    FinishOpen(plan, history, jobs, sent, timeline, handled, segments, k);
  }

  lemma FinishRight(plan: Plan, history: seq<Event>, jobs: Jobs, sent: seq<ItemOutcome>, s: Segment, timeline: Timeline,
                    handled: seq<Message>, segments: seq<Segment>, k: nat)
    requires Finishing(plan, history, jobs, sent, handled, segments, k) && Awaited(plan, handled, segments)
    requires k < |segments| && s == segments[k]
    ensures AllRight(plan, history + [Done(s, timeline)], FinishOne(jobs, sent, s, timeline).0,
                     FinishOne(jobs, sent, s, timeline).1)
    ensures s.jobIndex !in FinishOne(jobs, sent, s, timeline).0 ==>
              Processed(history, s.jobIndex) + 1 == plan.count(s.jobIndex)
  {
    hide JobRight, SegmentCount, SegmentsOf, Processed, OthersTally, EventSegments, FinishOne;
    StillMissing(plan, handled, segments, k);
    SegmentsOfPrefix(segments, k, s.jobIndex);
    forall j: nat | plan.count(j) > 0
      ensures JobRight(plan, history + [Done(s, timeline)], FinishOne(jobs, sent, s, timeline).0,
                       FinishOne(jobs, sent, s, timeline).1, j)
      ensures j == s.jobIndex && j !in FinishOne(jobs, sent, s, timeline).0 ==>
                Processed(history, j) + 1 == plan.count(j)
    {
      FinishKeeps(plan, history, jobs, sent, s, timeline, j);
    }
  }

  lemma FinishOthers(plan: Plan, jobs: Jobs, sent: seq<ItemOutcome>, s: Segment, timeline: Timeline,
                     handled: seq<Message>)
    requires OthersTally(plan, handled, sent, []) && FromPlan(plan, s)
    ensures OthersTally(plan, handled, FinishOne(jobs, sent, s, timeline).1, [])
    ensures OnlySegmentJobs(plan, sent, FinishOne(jobs, sent, s, timeline).1)
  {
    hide Outcomes, OtherCount;
    forall j: nat | plan.count(j) == 0
      ensures Answers(FinishOne(jobs, sent, s, timeline).1, j) == Answers(sent, j)
    {
      OtherJobs(jobs, sent, s, timeline, j);
    }
  }

  lemma FinishCounts(history: seq<Event>, timeline: Timeline, handled: seq<Message>, segments: seq<Segment>, k: nat)
    requires k < |segments| && EventSegments(history) == SegmentsIn(handled) + segments[..k]
    requires forall j: nat :: Processed(history, j) == SegmentCount(handled, j) + SegmentsOf(segments[..k], j)
    ensures var history' := history + [Done(segments[k], timeline)];
            && EventSegments(history') == SegmentsIn(handled) + segments[..k + 1]
            && forall j: nat :: Processed(history', j) == SegmentCount(handled, j) + SegmentsOf(segments[..k + 1], j)
  {
    hide SegmentCount, SegmentsOf, Processed, SegmentsIn;
    var history' := history + [Done(segments[k], timeline)];
    assert history'[..|history|] == history;
    assert segments[..k + 1] == segments[..k] + [segments[k]];
    forall j: nat
      ensures Processed(history', j) == SegmentCount(handled, j) + SegmentsOf(segments[..k + 1], j)
    {
      EventStep(history, Done(segments[k], timeline), j);
      SegmentsOfPrefix(segments, k, j);
    }
  }

  /** A job with a later segment in the batch is not complete yet. */
  lemma FinishOpen(plan: Plan, history: seq<Event>, jobs: Jobs, sent: seq<ItemOutcome>, timeline: Timeline,
                   handled: seq<Message>, segments: seq<Segment>, k: nat)
    requires Finishing(plan, history, jobs, sent, handled, segments, k) && Awaited(plan, handled, segments)
    requires k < |segments|
    ensures forall l ::
              k + 1 <= l < |segments| ==> segments[l].jobIndex in FinishOne(jobs, sent, segments[k], timeline).0
  {
    hide JobRight, SegmentCount, SegmentsOf, Processed, OthersTally, EventSegments;
    var s := segments[k];
    SegmentsOfPrefix(segments, k, s.jobIndex);
    FinishRight(plan, history, jobs, sent, s, timeline, handled, segments, k);
    forall l | k + 1 <= l < |segments|
      ensures segments[l].jobIndex in FinishOne(jobs, sent, s, timeline).0
    {
      if segments[l].jobIndex == s.jobIndex {
        SegmentsOfPrefix(segments, l, s.jobIndex);
        SegmentsOfMonotone(segments, k + 1, l, s.jobIndex);
      }
    }
  }

  lemma {:induction false} SegmentsOfMonotone(segments: seq<Segment>, k: nat, l: nat, j: nat)
    requires k <= l <= |segments|
    ensures SegmentsOf(segments[..k], j) <= SegmentsOf(segments[..l], j)
    decreases l
  {
    if k < l {
      SegmentsOfMonotone(segments, k, l - 1, j);
      SegmentsOfPrefix(segments, l - 1, j);
    }
  }

  lemma OtherJobs(jobs: Jobs, sent: seq<ItemOutcome>, s: Segment, timeline: Timeline, j: nat)
    requires j != s.jobIndex
    ensures var sent' := FinishOne(jobs, sent, s, timeline).1;
            Outcomes(sent', j, true) == Outcomes(sent, j, true) && Outcomes(sent', j, false) == Outcomes(sent, j, false)
  {
    var sent' := FinishOne(jobs, sent, s, timeline).1;
    if sent' != sent {
      var o := sent'[|sent|];
      assert sent' == sent + [o];
      OutcomeStep(sent, o, j, true);
      OutcomeStep(sent, o, j, false);
    }
  }

  lemma StillMissing(plan: Plan, handled: seq<Message>, segments: seq<Segment>, k: nat)
    requires Awaited(plan, handled, segments) && k < |segments|
    ensures FromPlan(plan, segments[k])
    ensures SegmentCount(handled, segments[k].jobIndex) < plan.count(segments[k].jobIndex)
  {
    SegmentsOfPrefix(segments, k, segments[k].jobIndex);
  }

  lemma PrepareAll(plan: Plan, history: seq<Event>, batch: seq<Segment>, jobs: Jobs, sent: seq<ItemOutcome>, s: Segment)
    requires AllRight(plan, history + [Began(batch)], jobs, sent) && FromPlan(plan, s)
    requires Processed(history, s.jobIndex) < plan.count(s.jobIndex)
    ensures AllRight(plan, history + [Began(batch + [s])], PrepareOne(jobs, s), sent)
    ensures s.jobIndex in PrepareOne(jobs, s) && forall i :: i in jobs ==> i in PrepareOne(jobs, s)
  {
    hide JobRight;
    forall j: nat | plan.count(j) > 0
      ensures JobRight(plan, history + [Began(batch + [s])], PrepareOne(jobs, s), sent, j)
    {
      PrepareKeeps(plan, history, batch, jobs, sent, s, j);
    }
  }

  lemma BeganNothing(plan: Plan, history: seq<Event>, jobs: Jobs, sent: seq<ItemOutcome>)
    requires AllRight(plan, history, jobs, sent)
    ensures AllRight(plan, history + [Began([])], jobs, sent)
  {
    hide Processed, Failures, Shifted, Outcomes, Answered, Led, Told;
    forall j: nat | plan.count(j) > 0
      ensures JobRight(plan, history + [Began([])], jobs, sent, j)
    {
      BeganStep(history, [], j);
    }
  }

  /** A batch that begins is not recognised yet. */
  lemma BeganKeeps(history: seq<Event>, batch: seq<Segment>, handled: seq<Message>)
    requires HistoryOf(history, handled)
    ensures HistoryOf(history + [Began(batch)], handled)
  {
    hide SegmentCount, SegmentsIn;
    assert (history + [Began(batch)])[..|history|] == history;
    assert EventSegments(history) + [] == EventSegments(history);
    forall j: nat
      ensures Processed(history + [Began(batch)], j) == Processed(history, j)
    {
      BeganStep(history, batch, j);
    }
  }
}
