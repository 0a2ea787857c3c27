/** What the ASR worker's books mean for the jobs: at every moment, and when all messages are handled. */
module AsrAnswers {
  import opened Prelude
  import opened SegmentJobs
  import opened AsrMessages
  import opened SegmentBatches
  import opened JobBatches
  import opened SegmentOrder

  /** The whole-job messages handled so far are among those sent. */
  lemma HandledOthers(all: seq<Message>, handled: seq<Message>, pending: seq<Message>, queue: seq<Message>, j: nat)
    requires Conserved(all, handled, [], pending, queue)
    ensures OtherCount(handled, j) <= OtherCount(all, j) && SegmentCount(handled, j) <= SegmentCount(all, j)
  {
    ConservedTogether(all, handled, [], pending, queue, j);
    PartsCount(handled, [], pending, queue, j);
  }

  /** At every moment of every run, also when the recogniser fails: no job has both a timeline and an error,
      and none has two timelines. */
  lemma NeverBoth(asr: Recognise, plan: Plan, all: seq<Message>, history: seq<Event>, jobs: Jobs, handled: seq<Message>,
                  sent: seq<ItemOutcome>, pending: seq<Message>, queue: seq<Message>, j: nat)
    requires WellSent(plan, all) && Conserved(all, handled, [], pending, queue)
    requires Books(asr, plan, history, jobs, handled, sent, [])
    ensures Outcomes(sent, j, true) == 0 || Outcomes(sent, j, false) == 0
    ensures Outcomes(sent, j, true) <= 1
  {
    hide Outcomes, SegmentCount, OtherCount, HistoryOf, OthersGenuine, Genuine;
    if plan.count(j) == 0 {
      HandledOthers(all, handled, pending, queue, j);
      assert Answers(sent, j) == OtherCount(handled, j) <= 1;
    } else {
      assert JobRight(plan, history, jobs, sent, j);
    }
  }

  /** When all messages are handled, a job sent in segments has its timeline if no batch with one of its
      segments failed, and otherwise one error for each such batch. */
  lemma SegmentJobsAnswered(asr: Recognise, plan: Plan, all: seq<Message>, history: seq<Event>, jobs: Jobs,
                            handled: seq<Message>, sent: seq<ItemOutcome>, j: nat)
    requires WellSent(plan, all) && multiset(handled) == multiset(all)
    requires Books(asr, plan, history, jobs, handled, sent, []) && plan.count(j) > 0
    ensures Outcomes(sent, j, false) == Failures(history, j)
    ensures Outcomes(sent, j, true) == if Failures(history, j) == 0 then 1 else 0
    ensures Failures(history, j) == 0 ==>
              Answered(sent, j, TimelineSoFar(plan, history, j)) && j !in jobs
    ensures forall o :: o in sent && o.index == j ==> o.audioSeconds == plan.seconds(j)
  {
    hide Outcomes, SegmentCount, OtherCount, OthersGenuine, Genuine, Shifted, Failures, Processed, EventSegments,
         SegmentsIn, Led, Told, Answered;
    CountsUnordered(handled, all, j);
    assert JobRight(plan, history, jobs, sent, j);
    assert Processed(history, j) == plan.count(j);
  }

  /** A job whose message came whole, or whose earlier stage failed, has exactly one outcome for it. */
  lemma OtherJobsAnswered(asr: Recognise, plan: Plan, all: seq<Message>, history: seq<Event>, jobs: Jobs,
                          handled: seq<Message>, sent: seq<ItemOutcome>, m: Message, j: nat)
    requires WellSent(plan, all) && multiset(handled) == multiset(all)
    requires Books(asr, plan, history, jobs, handled, sent, [])
    requires m in all && IsOtherOf(m, j)
    ensures Answers(sent, j) == 1
    ensures exists o :: o in sent && o.index == j && MessageAnswer(asr, m, o)
  {
    hide Outcomes, SegmentCount, HistoryOf, Genuine, JobAnswer;
    CountsUnordered(handled, all, j);
    SomeOther(all, m, j);
    assert Answers(sent, j) == OtherCount(handled, j) == 1;
    var o := SomeAnswer(sent, j);
    var x :| x in handled && MessageAnswer(asr, x, o);
    assert x in multiset(handled);
    MessageNames(asr, x, o);
    OnlyOther(all, m, x, j);
  }

  lemma MessageNames(asr: Recognise, x: Message, o: ItemOutcome)
    requires MessageAnswer(asr, x, o)
    ensures IsOtherOf(x, o.index)
  {
  }

  lemma {:induction false} SomeAnswer(sent: seq<ItemOutcome>, j: nat) returns (o: ItemOutcome)
    requires Answers(sent, j) > 0
    ensures o in sent && o.index == j
  {
    if sent[|sent| - 1].index == j {
      o := sent[|sent| - 1];
    } else {
      o := SomeAnswer(sent[..|sent| - 1], j);
    }
  }

  lemma {:induction false} OnlyOther(all: seq<Message>, m: Message, x: Message, j: nat)
    requires OtherCount(all, j) <= 1 && m in all && x in all && IsOtherOf(m, j) && IsOtherOf(x, j)
    ensures m == x
  {
    var rest := all[..|all| - 1];
    if m == all[|all| - 1] && x != m {
      SomeOther(rest, x, j);
    } else if x == all[|all| - 1] && x != m {
      SomeOther(rest, m, j);
    } else if x != m {
      OnlyOther(rest, m, x, j);
    }
  }

  /** The `k`-th annotation that the event's call returned for one of the job's segments. */
  ghost predicate Returned(e: Event, j: nat, k: nat) {
    e.Done? && e.segment.jobIndex == j && k < |e.timeline|
  }

  /** The annotation is in the timeline, later by the offset. */
  ghost predicate HeldLater(timeline: Timeline, a: Annotation, offset: nat) {
    exists i: nat :: i < |timeline| && Later(a, offset, timeline[i])
  }

  /** The annotation is what a call returned for one of the job's segments, later by that segment's offset. */
  ghost predicate FromSegment(history: seq<Event>, j: nat, b: Annotation) {
    exists e, k: nat :: e in history && Returned(e, j, k) && Later(e.timeline[k], e.segment.offset, b)
  }

  /** How many annotations the calls returned for the job's segments. */
  ghost function ReturnedCount(history: seq<Event>, j: nat): nat {
    if history == [] then 0 else
      var e := history[|history| - 1];
      ReturnedCount(history[..|history| - 1], j) + if e.Done? && e.segment.jobIndex == j then |e.timeline| else 0
  }

  /** The annotations are the returned ones, each later by its own segment's offset: all of them, no others, and as
      many. */
  ghost predicate AllReturned(history: seq<Event>, j: nat, timeline: Timeline) {
    && |timeline| == ReturnedCount(history, j)
    && (forall e, k: nat :: e in history && Returned(e, j, k) ==> HeldLater(timeline, e.timeline[k], e.segment.offset))
    && forall i :: 0 <= i < |timeline| ==> FromSegment(history, j, timeline[i])
  }

  lemma {:induction false} ShiftedMeans(history: seq<Event>, j: nat)
    ensures AllReturned(history, j, Shifted(history, j))
  {
    hide AllReturned, ShiftedBy;
    if history == [] {
      NothingReturned(j);
    } else {
      var (before, e) := (history[..|history| - 1], history[|history| - 1]);
      ShiftedMeans(before, j);
      MoreHeld(before, e, j, Shifted(before, j));
      MoreFrom(before, e, j, Shifted(before, j));
      MoreReturned(before, e, j, Shifted(before, j));
      assert history == before + [e];
    }
  }

  lemma NothingReturned(j: nat)
    ensures AllReturned([], j, [])
  {
  }

  lemma MoreReturned(before: seq<Event>, e: Event, j: nat, timeline: Timeline)
    requires |timeline| == ReturnedCount(before, j)
    requires forall d, k: nat :: d in before + [e] && Returned(d, j, k) ==>
               HeldLater(timeline + ShiftedBy(e, j), d.timeline[k], d.segment.offset)
    requires forall i :: 0 <= i < |timeline + ShiftedBy(e, j)| ==>
               FromSegment(before + [e], j, (timeline + ShiftedBy(e, j))[i])
    ensures AllReturned(before + [e], j, timeline + ShiftedBy(e, j))
  {
    hide HeldLater, FromSegment, Shift;
    assert (before + [e])[..|before|] == before;
  }

  lemma MoreHeld(before: seq<Event>, e: Event, j: nat, timeline: Timeline)
    requires AllReturned(before, j, timeline)
    ensures |timeline| == ReturnedCount(before, j)
    ensures forall d, k: nat :: d in before + [e] && Returned(d, j, k) ==>
              HeldLater(timeline + ShiftedBy(e, j), d.timeline[k], d.segment.offset)
  {
    hide Later, ShiftedBy, ReturnedCount, FromSegment;
    var all := timeline + ShiftedBy(e, j);
    forall d, k: nat | d in before + [e] && Returned(d, j, k)
      ensures HeldLater(all, d.timeline[k], d.segment.offset)
    {
      if d in before {
        var i: nat :| i < |timeline| && Later(d.timeline[k], d.segment.offset, timeline[i]);
        assert all[i] == timeline[i];
      } else {
        LastShifted(e, j, k);
        assert all[|timeline| + k] == ShiftedBy(e, j)[k];
      }
    }
  }

  lemma MoreFrom(before: seq<Event>, e: Event, j: nat, timeline: Timeline)
    requires AllReturned(before, j, timeline)
    ensures forall i :: 0 <= i < |timeline + ShiftedBy(e, j)| ==>
              FromSegment(before + [e], j, (timeline + ShiftedBy(e, j))[i])
  {
    hide Later, ShiftedBy, ReturnedCount, HeldLater;
    var all := timeline + ShiftedBy(e, j);
    assert e in before + [e] && forall d :: d in before ==> d in before + [e];
    forall i | 0 <= i < |all|
      ensures FromSegment(before + [e], j, all[i])
    {
      if i < |timeline| {
        assert FromSegment(before, j, timeline[i]);
        var d, k: nat :| d in before && Returned(d, j, k) && Later(d.timeline[k], d.segment.offset, timeline[i]);
        assert d in before + [e] && Returned(d, j, k) && Later(d.timeline[k], d.segment.offset, all[i]);
      } else {
        var k: nat := i - |timeline|;
        LastShifted(e, j, k);
        assert Later(e.timeline[k], e.segment.offset, all[i]);
      }
    }
  }

  lemma LastShifted(e: Event, j: nat, k: nat)
    requires Returned(e, j, k) || k < |ShiftedBy(e, j)|
    ensures Returned(e, j, k) && k < |ShiftedBy(e, j)| && Later(e.timeline[k], e.segment.offset, ShiftedBy(e, j)[k])
  {
    if e.Done? {
      ShiftMoves(e.timeline, e.segment.offset);
    }
  }

  /** The job's timeline: its speech annotations, if a batch with them had begun before any of its segments was
      recognised, and then exactly what the calls returned for its segments, each annotation later by its own
      segment's offset. */
  ghost predicate TimelineOf(history: seq<Event>, j: nat, speech: seq<Annotation>, timeline: Timeline) {
    if Led(history, j) then speech <= timeline && AllReturned(history, j, timeline[|speech|..])
    else AllReturned(history, j, timeline)
  }

  lemma GatheredTimeline(plan: Plan, history: seq<Event>, j: nat)
    ensures TimelineOf(history, j, plan.speech(j), TimelineSoFar(plan, history, j))
  {
    hide Shifted, Led, AllReturned;
    ShiftedMeans(history, j);
    assert Led(history, j) ==> TimelineSoFar(plan, history, j)[|plan.speech(j)|..] == Shifted(history, j);
  }

  /** When every call returns one timeline per input, every segment that was sent is recognised once, and every job
      sent in segments has exactly one outcome: its timeline, with the annotations of each of its segments later by
      that segment's own offset. */
  lemma SoundRecogniserAnswersAll(asr: Recognise, plan: Plan, all: seq<Message>, history: seq<Event>, jobs: Jobs,
                                  handled: seq<Message>, sent: seq<ItemOutcome>, j: nat)
    requires WellSent(plan, all) && multiset(handled) == multiset(all)
    requires Books(asr, plan, history, jobs, handled, sent, []) && plan.count(j) > 0
    requires forall call, waves :: Complete(asr, call, waves)
    ensures Outcomes(sent, j, true) == 1 && Outcomes(sent, j, false) == 0 && j !in jobs
    ensures exists o :: o in sent && o.index == j && o.result.Ok? && o.audioSeconds == plan.seconds(j) &&
              TimelineOf(history, j, plan.speech(j), o.result.value)
    ensures forall e :: e in history ==> !e.FailedBatch?
    ensures EventSegments(history) == SegmentsIn(handled) && multiset(SegmentsIn(handled)) == multiset(SegmentsIn(all))
  {
    hide Outcomes, Shifted, SegmentCount, OtherCount, OthersGenuine, SegmentsIn, EventSegments, AllRight, OthersTally,
         WellSent, Led, TimelineOf, TimelineSoFar;
    forall e | e in history
      ensures !e.FailedBatch?
    {
      assert Genuine(asr, e);
    }
    NoFailures(history, j);
    SegmentJobsAnswered(asr, plan, all, history, jobs, handled, sent, j);
    GatheredTimeline(plan, history, j);
    SegmentsUnordered(handled, all);
  }

  lemma {:induction false} NoFailures(history: seq<Event>, j: nat)
    requires forall e :: e in history ==> !e.FailedBatch?
    ensures Failures(history, j) == 0
  {
    if history != [] {
      assert history[|history| - 1] in history;
      NoFailures(history[..|history| - 1], j);
    }
  }

  lemma {:induction false} SegmentsUnordered(a: seq<Message>, b: seq<Message>)
    requires multiset(a) == multiset(b)
    ensures multiset(SegmentsIn(a)) == multiset(SegmentsIn(b))
    decreases |a|
  {
    hide SegmentsIn;
    if a == [] {
      assert multiset(b) == multiset{};
      assert b == [];
    } else {
      var k := |a| - 1;
      var i := LastElsewhere(a, b);
      SegmentsUnordered(a[..k], b[..i] + b[i + 1..]);
      assert a == a[..k] + [a[k]] && b == b[..i] + [a[k]] + b[i + 1..];
      MessageStep(a[..k], a[k], 0);
      MessageStep(b[..i], a[k], 0);
      SegmentsAdd(b[..i] + [a[k]], b[i + 1..]);
      SegmentsAdd(b[..i], b[i + 1..]);
    }
  }

  lemma {:induction false} SegmentsAdd(a: seq<Message>, b: seq<Message>)
    ensures SegmentsIn(a + b) == SegmentsIn(a) + SegmentsIn(b)
  {
    if b == [] {
      assert a + b == a;
    } else {
      SegmentsAdd(a, b[..|b| - 1]);
      assert (a + b)[..|a + b| - 1] == a + b[..|b| - 1];
    }
  }

  /** Without batching, or when no job is sent whole, segments are recognised in the order they were sent. A job whose
      first segment carries its speech annotations, and of which no batch fails, then has them first, and after them
      the annotations of its segments in that order. */
  lemma InOrderTimelines(asr: Recognise, plan: Plan, cap: nat, ready: bool, all: seq<Message>, history: seq<Event>,
                         jobs: Jobs, handled: seq<Message>, sent: seq<ItemOutcome>, j: nat)
    requires WellSent(plan, all) && multiset(handled) == multiset(all)
    requires Books(asr, plan, history, jobs, handled, sent, []) && plan.count(j) > 0 && Failures(history, j) == 0
    requires Aligned(history) && LoopEnds(cap, ready, Loop([], [], all), Begun(history))
    requires Orderly(cap, all) && FirstCarries(SegmentsIn(all), j)
    ensures EventSegments(history) == SegmentsIn(all)
    ensures Answered(sent, j, plan.speech(j) + Shifted(history, j))
  {
    hide Outcomes, Shifted, SegmentCount, OtherCount, OthersGenuine, SegmentsIn, EventSegments, AllRight, OthersTally,
         WellSent, Led, Nested, Begun, LoopEnds, Flatten, FirstCarries, Answered, Failures, HistoryOf;
    assert [] + all == all;
    StartInOrder(all);
    OrderKept(cap, ready, Loop([], [], all), Begun(history), SegmentsIn(all));
    FirstLeads(history, j);
    SegmentJobsAnswered(asr, plan, all, history, jobs, handled, sent, j);
  }

  lemma StartInOrder(all: seq<Message>)
    ensures InOrder(Loop([], [], all), SegmentsIn(all))
  {
  }

  /** One error per job is false of the code: a recogniser that always fails costs a job one error for every
      batch its segments are spread over. A job with more segments than fit a batch gets at least two, and
      without batching every segment gets its own. */
  lemma ManyErrors(asr: Recognise, plan: Plan, all: seq<Message>, cap: nat, history: seq<Event>, jobs: Jobs,
                   handled: seq<Message>, sent: seq<ItemOutcome>, j: nat)
    requires WellSent(plan, all) && multiset(handled) == multiset(all)
    requires Books(asr, plan, history, jobs, handled, sent, []) && plan.count(j) > 0
    requires SmallBatches(history, cap) && forall call, waves :: !Complete(asr, call, waves)
    ensures Outcomes(sent, j, true) == 0
    ensures plan.count(j) <= Outcomes(sent, j, false) * Max(cap, 1)
    ensures plan.count(j) > Max(cap, 1) ==> Outcomes(sent, j, false) >= 2
    ensures cap <= 1 ==> Outcomes(sent, j, false) == plan.count(j)
  {
    hide Outcomes, SegmentCount, OtherCount, OthersGenuine, SegmentsIn, EventSegments, AllRight, OthersTally, Failures,
         Processed;
    CountsUnordered(handled, all, j);
    forall e | e in history
      ensures !e.Done?
    {
      assert Genuine(asr, e);
    }
    FailedEverywhere(history, cap, j);
    SegmentJobsAnswered(asr, plan, all, history, jobs, handled, sent, j);
    if Failures(history, j) <= 1 {
      MulMonotone(Failures(history, j), 1, Max(cap, 1));
    }
  }

  lemma {:induction false} FailedEverywhere(history: seq<Event>, cap: nat, j: nat)
    requires SmallBatches(history, cap) && forall e :: e in history ==> !e.Done?
    ensures Failures(history, j) <= Processed(history, j) <= Failures(history, j) * Max(cap, 1)
  {
    if history != [] {
      var e := history[|history| - 1];
      assert e in history;
      FailedEverywhere(history[..|history| - 1], cap, j);
      if e.FailedBatch? {
        SegmentsAtMost(e.segments, j);
      }
      OneMore(Failures(history[..|history| - 1], j), Max(cap, 1));
    }
  }

  lemma OneMore(n: nat, m: nat)
    ensures (n + 1) * m == n * m + m
  {
  }

  lemma {:induction false} SegmentsAtMost(segments: seq<Segment>, j: nat)
    ensures SegmentsOf(segments, j) <= |segments|
  {
    if segments != [] {
      SegmentsAtMost(segments[..|segments| - 1], j);
    }
  }
}
