/** A run in which a job loses its speech annotations, and the order of its segments: its first segment is set aside
    for a job that is sent whole, and its second overtakes it. */
module LateSpeech {
  import opened Prelude
  import opened SegmentJobs
  import opened AsrMessages
  import opened SegmentBatches
  import opened JobBatches
  import opened SegmentOrder
  import opened AsrWorker
  import opened AsrAnswers

  const SPOKEN := Annotation(0, 2000, "speech")
  const SAID := Annotation(0, 5, "words")

  /** The only segment of job 0, and the two segments of job 1. */
  const Other := Segment(0, 3.0, [SPOKEN], 1, 0, [0.5])
  const First := Segment(1, 2.0, [SPOKEN], 2, 0, [0.25])
  const Second := Segment(1, 2.0, [], 2, 1000, [0.75])

  /** Jobs without speech: 2, 3 and so on. */
  function Silent(k: nat): Message { JobMessage(AsrJob(2 + k, NoSpeech, [], 1.0)) }

  function SilentJobs(from: nat, n: nat): (messages: seq<Message>)
    ensures |messages| == n
  {
    seq(n, k requires 0 <= k < n => Silent(from + k))
  }

  /** The second segment of job 1 arrives behind as many whole jobs as fill a batch. */
  function Arrivals(cap: nat): (messages: seq<Message>)
    requires cap >= 2
    ensures |messages| == cap + 3
  {
    [Silent(0), SegmentMessage(Other), SegmentMessage(First)] + SilentJobs(1, cap - 1) + [SegmentMessage(Second)]
  }

  function Sent(): Plan {
    Plan(j => if j == 0 then 1 else if j == 1 then 2 else 0, j => if j <= 1 then [SPOKEN] else [],
         j => if j == 0 then 3.0 else 2.0)
  }

  /** Every segment says the same. */
  function Hears(): Recognise {
    (call, waves) => Ok(seq(|waves|, k requires 0 <= k < |waves| => [SAID]))
  }

  // ----- what is sent

  lemma {:induction false} SilentCounts(from: nat, n: nat, j: nat)
    ensures SegmentCount(SilentJobs(from, n), j) == 0
    ensures OtherCount(SilentJobs(from, n), j) == if 2 + from <= j < 2 + from + n then 1 else 0
    ensures SegmentsIn(SilentJobs(from, n)) == [] && SegmentMessages(SilentJobs(from, n)) == []
    ensures NotSegments(SilentJobs(from, n)) == SilentJobs(from, n)
  {
    if n > 0 {
      SilentCounts(from, n - 1, j);
      assert SilentJobs(from, n)[..n - 1] == SilentJobs(from, n - 1);
      assert SilentJobs(from, n) == SilentJobs(from, n - 1) + [Silent(from + n - 1)];
    }
  }

  lemma OneMessage(m: Message, j: nat)
    ensures SegmentCount([m], j) == if IsSegmentOf(m, j) then 1 else 0
    ensures OtherCount([m], j) == if IsOtherOf(m, j) then 1 else 0
    ensures SegmentsIn([m]) == if m.SegmentMessage? then [m.segment] else []
    ensures NotSegments([m]) == if m.SegmentMessage? then [] else [m]
    ensures SegmentMessages([m]) == if m.SegmentMessage? then [m] else []
  {
    assert [m][..0] == [];
  }

  lemma ArrivalParts(cap: nat)
    requires cap >= 2
    ensures Arrivals(cap) ==
              [Silent(0)] + [SegmentMessage(Other)] + [SegmentMessage(First)] + SilentJobs(1, cap - 1) +
                [SegmentMessage(Second)]
  {
  }

  lemma SentCount(j: nat)
    ensures Sent().count(j) == (if j == 0 then 1 else if j == 1 then 2 else 0)
  {
  }

  lemma ArrivalCounts(cap: nat, j: nat)
    requires cap >= 2
    ensures SegmentCount(Arrivals(cap), j) == Sent().count(j)
    ensures OtherCount(Arrivals(cap), j) == if 2 <= j < 2 + cap then 1 else 0
  {
    hide SegmentCount, OtherCount, Arrivals, SilentJobs, Sent, Silent, IsSegmentOf, IsOtherOf;
    SentCount(j);
    var (a, b, c, e) := ([Silent(0)], [SegmentMessage(Other)], [SegmentMessage(First)], [SegmentMessage(Second)]);
    var jobs := SilentJobs(1, cap - 1);
    ArrivalParts(cap);
    CountsAdd(a + b + c + jobs, e, j);
    CountsAdd(a + b + c, jobs, j);
    CountsAdd(a + b, c, j);
    CountsAdd(a, b, j);
    EachCounts(j);
    SilentCounts(1, cap - 1, j);
  }

  lemma EachCounts(j: nat)
    ensures SegmentCount([Silent(0)], j) == 0 && OtherCount([Silent(0)], j) == if j == 2 then 1 else 0
    ensures SegmentCount([SegmentMessage(Other)], j) == (if j == 0 then 1 else 0)
    ensures SegmentCount([SegmentMessage(First)], j) == SegmentCount([SegmentMessage(Second)], j)
    ensures SegmentCount([SegmentMessage(First)], j) == (if j == 1 then 1 else 0)
    ensures OtherCount([SegmentMessage(Other)], j) == OtherCount([SegmentMessage(First)], j) == 0
    ensures OtherCount([SegmentMessage(Second)], j) == 0
  {
    hide SegmentCount, OtherCount;
    OneMessage(Silent(0), j);
    OneMessage(SegmentMessage(Other), j);
    OneMessage(SegmentMessage(First), j);
    OneMessage(SegmentMessage(Second), j);
  }

  lemma ArrivalsSent(cap: nat)
    requires cap >= 2
    ensures WellSent(Sent(), Arrivals(cap))
  {
    hide SegmentCount, OtherCount, Arrivals;
    forall j: nat
      ensures SegmentCount(Arrivals(cap), j) == Sent().count(j)
      ensures OtherCount(Arrivals(cap), j) == if 2 <= j < 2 + cap then 1 else 0
    {
      ArrivalCounts(cap, j);
    }
    ArrivalParts(cap);
    forall m | m in Arrivals(cap)
      ensures m.SegmentMessage? ==> FromPlan(Sent(), m.segment)
      ensures !m.FailureMessage?
    {
    }
  }

  lemma ArrivalSegments(cap: nat)
    requires cap >= 2
    ensures SegmentsIn(Arrivals(cap)) == [Other, First, Second] && FirstCarries(SegmentsIn(Arrivals(cap)), 1)
  {
    hide SegmentsIn, Arrivals, SilentJobs, NotSegments, SegmentCount, OtherCount, SegmentMessages, FirstCarries;
    SpeechInFirst();
    var (a, b, c, e) := ([Silent(0)], [SegmentMessage(Other)], [SegmentMessage(First)], [SegmentMessage(Second)]);
    var jobs := SilentJobs(1, cap - 1);
    ArrivalParts(cap);
    SegmentsConcat(a + b + c + jobs, e);
    SegmentsConcat(a + b + c, jobs);
    SegmentsConcat(a + b, c);
    SegmentsConcat(a, b);
    OneMessage(Silent(0), 0);
    OneMessage(SegmentMessage(Other), 0);
    OneMessage(SegmentMessage(First), 0);
    OneMessage(SegmentMessage(Second), 0);
    SilentCounts(1, cap - 1, 0);
  }

  lemma SpeechInFirst()
    ensures FirstCarries([Other, First, Second], 1)
  {
    assert FirstAt([Other, First, Second], 1, 1);
  }

  // ----- the loop

  /** What is behind the first job: after `k` arrivals the batch has two fewer, until it is full. */
  lemma BehindFirst(cap: nat, k: nat)
    requires cap >= 2 && k <= cap + 1
    ensures var queue := Arrivals(cap)[1..];
            && |queue| == cap + 2 && |NotSegments(queue[..k])| == (if k <= 2 then 0 else k - 2)
            && (k == cap + 1 ==> SegmentMessages(queue[..k]) == [SegmentMessage(Other), SegmentMessage(First)])
            && queue[cap + 1..] == [SegmentMessage(Second)]
  {
    hide NotSegments, SegmentMessages, SegmentsIn, SegmentCount, OtherCount, Arrivals, SilentJobs;
    var queue := Arrivals(cap)[1..];
    var (b, c) := ([SegmentMessage(Other)], [SegmentMessage(First)]);
    QueueParts(cap, k);
    OneMessage(SegmentMessage(Other), 0);
    OneMessage(SegmentMessage(First), 0);
    if k < 2 {
      NothingFirst();
    } else {
      var jobs := SilentJobs(1, k - 2);
      SegmentsConcat(b + c, jobs);
      SegmentsConcat(b, c);
      MessagesConcat(b + c, jobs);
      MessagesConcat(b, c);
      SilentCounts(1, k - 2, 0);
    }
  }

  lemma QueueParts(cap: nat, k: nat)
    requires cap >= 2 && k <= cap + 1
    ensures var (queue, b, c) := (Arrivals(cap)[1..], [SegmentMessage(Other)], [SegmentMessage(First)]);
            && |queue| == cap + 2 && queue[cap + 1..] == [SegmentMessage(Second)]
            && queue[..k] == if k == 0 then [] else if k == 1 then b else b + c + SilentJobs(1, k - 2)
  {
  }

  lemma NothingFirst()
    ensures NotSegments([]) == []
  {
  }

  lemma {:induction false} MessagesConcat(a: seq<Message>, b: seq<Message>)
    ensures SegmentMessages(a + b) == SegmentMessages(a) + SegmentMessages(b)
  {
    if b == [] {
      assert a + b == a;
    } else {
      MessagesConcat(a, b[..|b| - 1]);
      assert (a + b)[..|a + b| - 1] == a + b[..|b| - 1];
    }
  }

  /** The first batch of jobs sets the segments behind it aside. */
  lemma JobsStep(cap: nat, s: Loop)
    requires cap >= 2 && LoopStep(cap, true, Loop([], [], Arrivals(cap)), s)
    ensures s == Loop([], [SegmentMessage(Other), SegmentMessage(First)], [SegmentMessage(Second)])
  {
    hide NotSegments, SegmentMessages, SegmentsIn;
    var queue := Arrivals(cap)[1..];
    assert Arrivals(cap)[0] == Silent(0);
    var first := Silent(0).job;
    var messages :|
      && TookJobs(cap, first, [], queue, messages, s.pending, s.queue)
      && s.batches == []
      && |messages| <= cap && (|messages| == cap || s.queue == []);
    var n := |queue| - |s.queue|;
    BehindFirst(cap, cap + 1);
    if n <= cap + 1 {
      BehindFirst(cap, n);
    }
  }

  /** Then the other job's segment takes the late one with it. */
  lemma OvertakenStep(cap: nat, s: Loop)
    requires cap >= 2
    requires LoopStep(cap, true, Loop([], [SegmentMessage(Other), SegmentMessage(First)], [SegmentMessage(Second)]), s)
    ensures s == Loop([[Other, Second]], [SegmentMessage(First)], [])
  {
    hide SegmentsIn, NotSegments;
    var queue := [SegmentMessage(Second)];
    assert [SegmentMessage(Other), SegmentMessage(First)][1..] == [SegmentMessage(First)];
    var segments :|
      && TookSegments(cap, Other, [SegmentMessage(First)], queue, segments, s.pending, s.queue)
      && s.batches == [] + [segments]
      && |segments| <= cap && (|segments| == cap || s.queue == []);
    OneMessage(SegmentMessage(Second), 0);
    NoSegments();
    assert queue[..1] == queue && queue[..0] == [] && queue[0..] == queue;
    assert |s.queue| == 0;
    assert segments == [Other] + [Second] == [Other, Second];
    assert s.pending == [SegmentMessage(First)] + [] == [SegmentMessage(First)];
    assert s.batches == [] + [[Other, Second]] == [[Other, Second]];
  }

  /** The first segment comes last. */
  lemma LastStep(cap: nat, s: Loop)
    requires cap >= 2 && LoopStep(cap, true, Loop([[Other, Second]], [SegmentMessage(First)], []), s)
    ensures s == Loop([[Other, Second], [First]], [], [])
  {
    hide SegmentsIn, NotSegments;
    NoSegments();
    NothingFirst();
    assert [SegmentMessage(First)][1..] == [];
    var segments :|
      && TookSegments(cap, First, [], [], segments, s.pending, s.queue)
      && s.batches == [[Other, Second]] + [segments];
    var none: seq<Message> := [];
    assert none[..0] == [];
    assert segments == [First] + [] == [First] && s.pending == [] + [] == [];
    assert s.batches == [[Other, Second]] + [[First]] == [[Other, Second], [First]];
  }

  lemma LoopIs(cap: nat, batches: seq<seq<Segment>>)
    requires cap >= 2 && LoopEnds(cap, true, Loop([], [], Arrivals(cap)), batches)
    ensures batches == [[Other, Second], [First]]
  {
    hide LoopStep, Arrivals;
    ArrivalParts(cap);
    var s: Loop :| LoopStep(cap, true, Loop([], [], Arrivals(cap)), s) && LoopEnds(cap, true, s, batches);
    JobsStep(cap, s);
    var t: Loop :| LoopStep(cap, true, s, t) && LoopEnds(cap, true, t, batches);
    OvertakenStep(cap, t);
    var u: Loop :| LoopStep(cap, true, t, u) && LoopEnds(cap, true, u, batches);
    LastStep(cap, u);
  }

  // ----- the job's timeline

  /** What is gathered for a job, from the segments alone. */
  function Heard(segments: seq<Segment>, j: nat): Timeline {
    if segments == [] then [] else
      var s := segments[|segments| - 1];
      Heard(segments[..|segments| - 1], j) + if s.jobIndex == j then Shift([SAID], s.offset) else []
  }

  lemma {:induction false} HeardIs(history: seq<Event>, j: nat)
    requires forall e :: e in history ==> Genuine(Hears(), e)
    ensures Shifted(history, j) == Heard(EventSegments(history), j)
    ensures forall e :: e in history ==> !e.FailedBatch?
  {
    hide Shift, Genuine, Heard, EventSegments, Shifted;
    if history == [] {
      HeardNothing(j);
    } else {
      var (before, e) := (history[..|history| - 1], history[|history| - 1]);
      assert forall d :: d in before ==> d in history;
      HeardIs(before, j);
      assert e in history;
      EventIs(e);
      HeardMore(history, j);
    }
  }

  lemma HeardNothing(j: nat)
    ensures Shifted([], j) == Heard(EventSegments([]), j) == []
  {
  }

  lemma HeardMore(history: seq<Event>, j: nat)
    requires history != []
    requires var e := history[|history| - 1]; !e.FailedBatch? && (e.Done? ==> e.timeline == [SAID])
    requires Shifted(history[..|history| - 1], j) == Heard(EventSegments(history[..|history| - 1]), j)
    ensures Shifted(history, j) == Heard(EventSegments(history), j)
  {
    hide Shift;
    var (before, e) := (history[..|history| - 1], history[|history| - 1]);
    if e.Done? {
      assert (EventSegments(before) + [e.segment])[..|EventSegments(before)|] == EventSegments(before);
    } else {
      assert EventSegments(before) + [] == EventSegments(before);
    }
  }

  lemma EventIs(e: Event)
    requires Genuine(Hears(), e)
    ensures !e.FailedBatch? && (e.Done? ==> e.timeline == [SAID])
  {
  }

  /** The speech annotations of job 1 are known only when its second segment has been recognised. */
  lemma {:induction false} TooLate(history: seq<Event>)
    requires Nested(history) && forall e :: e in history ==> Genuine(Hears(), e)
    requires Begun(history) <= [[Other, Second], [First]]
    ensures !Led(history, 1)
  {
    hide Shifted, Genuine, Heard, EventSegments, Flatten;
    if history != [] {
      var (before, e) := (history[..|history| - 1], history[|history| - 1]);
      assert forall d :: d in before ==> d in history;
      assert Begun(before) <= Begun(history);
      TooLate(before);
      if e.Began? && Carries(e.batch, 1) {
        HeardIs(before, 1);
        assert |Begun(before)| < 2;
        assert Begun(history)[|Begun(before)|] == e.batch;
        TwoBatches();
        TwoHeard();
        assert e.batch == [First] && Begun(before) == [[Other, Second]];
      }
    }
  }

  lemma TwoBatches()
    ensures Flatten([[Other, Second]]) == [Other, Second]
    ensures Flatten([[Other, Second], [First]]) == [Other, Second, First]
  {
    assert [[Other, Second], [First]][..1] == [[Other, Second]] && [[Other, Second]][..0] == [];
  }

  lemma TwoHeard()
    ensures !Carries([Other, Second], 1)
    ensures Heard([Other, Second], 1) == Shift([SAID], 1000)
    ensures Heard([Other, Second, First], 1) == [Annotation(1000, 1005, "words"), Annotation(0, 5, "words")]
    ensures Shift([SAID], 1000) != []
  {
    assert [Other, Second, First][..2] == [Other, Second] && [Other, Second][..1] == [Other] && [Other][..0] == [];
    assert Heard([Other], 1) == [];
    assert Shift([SAID], 1000) == [Annotation(1000, 1005, "words")];
    assert Shift([SAID], 0) == [Annotation(0, 5, "words")];
  }

  /** For every batch size from two on: a job whose segments were sent in order, the first with its speech annotations,
      is answered without them, and its segments are in the wrong order. */
  method LosesSpeech(cap: nat) returns (worker: Worker)
    requires cap >= 2
    ensures WellSent(Sent(), Arrivals(cap)) && SegmentsIn(Arrivals(cap)) == [Other, First, Second]
    ensures First.speech == [SPOKEN] && First.jobIndex == Second.jobIndex == 1 && First.offset < Second.offset
    ensures exists o :: o in worker.sent && o.index == 1 &&
              o.result == Ok([Annotation(1000, 1005, "words"), Annotation(0, 5, "words")])
    ensures Outcomes(worker.sent, 1, true) == 1 && Outcomes(worker.sent, 1, false) == 0
  {
    hide Arrivals, LoopEnds, Begun, Nested, Shifted, Led, Genuine, WellSent, Outcomes, Flatten, EventSegments,
         SegmentsIn, AllRight, OthersTally, OthersGenuine, Hears, HistoryOf;
    ArrivalsSent(cap);
    ArrivalSegments(cap);
    worker := new Worker(cap, Hears());
    var rx := new Channel(n => true, Arrivals(cap));
    worker.Run(rx, Sent());
    ghost var history := worker.history;
    LoopIs(cap, Begun(history));
    TooLate(history);
    HeardIs(history, 1);
    TwoBatches();
    TwoHeard();
    NoFailures(history, 1);
    SegmentJobsAnswered(Hears(), Sent(), Arrivals(cap), history, worker.jobs, worker.handled, worker.sent, 1);
  }
}
