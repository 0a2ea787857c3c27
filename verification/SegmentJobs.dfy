/** Jobs whose speech arrives in segments: how segment results are gathered into one outcome per job. */
module SegmentJobs {
  import opened Prelude

  datatype Annotation = Annotation(start: nat, end: nat, text: string)

  type Timeline = seq<Annotation>

  /** One slice of speech of a job; only the first slice carries the job's speech annotations. */
  datatype Segment = Segment(jobIndex: nat, audioSeconds: real, speech: seq<Annotation>, segmentCount: nat, offset: nat,
                             waveform: seq<real>)

  datatype JobState = JobState(audioSeconds: real, speech: seq<Annotation>, timeline: Timeline, segmentCount: nat,
                               segmentsDone: nat)

  type Jobs = map<nat, JobState>

  datatype ItemOutcome = ItemOutcome(index: nat, result: Outcome<Timeline>, audioSeconds: real)

  function Shift(annotations: seq<Annotation>, offset: nat): (shifted: seq<Annotation>)
    ensures |shifted| == |annotations|
  {
    seq(|annotations|, i requires 0 <= i < |annotations| =>
      annotations[i].(start := annotations[i].start + offset, end := annotations[i].end + offset))
  }

  /** The annotation, later by the offset. */
  ghost predicate Later(a: Annotation, offset: nat, b: Annotation) {
    b.start - a.start == offset && b.end - a.end == offset && b.text == a.text
  }

  /** Shifting moves every annotation by the same offset, and does nothing else. */
  lemma ShiftMoves(annotations: seq<Annotation>, offset: nat)
    ensures forall i :: 0 <= i < |annotations| ==> Later(annotations[i], offset, Shift(annotations, offset)[i])
  {
  }

  // ----- the updates

  /** Enter or refresh the job of a segment about to be recognised. */
  function PrepareOne(jobs: Jobs, s: Segment): Jobs {
    var entry :=
      if s.jobIndex in jobs then jobs[s.jobIndex] else JobState(s.audioSeconds, s.speech, [], s.segmentCount, 0);
    var spoken := if s.speech != [] then entry.(speech := s.speech) else entry;
    var started := if spoken.timeline == [] && spoken.speech != [] then spoken.(timeline := spoken.speech) else spoken;
    jobs[s.jobIndex := started.(segmentCount := s.segmentCount)]
  }

  /** Add a segment's annotations; the last segment completes the job. */
  function FinishOne(jobs: Jobs, outcomes: seq<ItemOutcome>, s: Segment, timeline: Timeline): (Jobs, seq<ItemOutcome>) {
    if s.jobIndex !in jobs then (jobs, outcomes)
    else
      var job := jobs[s.jobIndex];
      var longer := job.(timeline := job.timeline + Shift(timeline, s.offset), segmentsDone := job.segmentsDone + 1);
      if longer.segmentsDone >= longer.segmentCount
      then (jobs - {s.jobIndex}, outcomes + [ItemOutcome(s.jobIndex, Ok(longer.timeline), longer.audioSeconds)])
      else (jobs[s.jobIndex := longer], outcomes)
  }

  /** A failed batch ends a job with an error. */
  function FailOne(jobs: Jobs, outcomes: seq<ItemOutcome>, j: nat, reason: string): (Jobs, seq<ItemOutcome>) {
    if j !in jobs then (jobs, outcomes)
    else (jobs - {j}, outcomes + [ItemOutcome(j, Err(reason), jobs[j].audioSeconds)])
  }

  // ----- the history

  /** A batch of segments begins; the recogniser gives a segment its timeline, or the whole batch fails. */
  datatype Event = Began(batch: seq<Segment>) | Done(segment: Segment, timeline: Timeline)
                 | FailedBatch(segments: seq<Segment>)

  ghost function SegmentsOf(segments: seq<Segment>, j: nat): nat {
    if segments == [] then 0
    else SegmentsOf(segments[..|segments| - 1], j) + if segments[|segments| - 1].jobIndex == j then 1 else 0
  }

  ghost function ProcessedBy(e: Event, j: nat): nat {
    match e
    case Began(_) => 0
    case Done(s, _) => if s.jobIndex == j then 1 else 0
    case FailedBatch(segments) => SegmentsOf(segments, j)
  }

  /** The event is a failed batch with a segment of the job in it. */
  ghost predicate Fails(e: Event, j: nat) {
    e.FailedBatch? && SegmentsOf(e.segments, j) > 0
  }

  ghost function Processed(history: seq<Event>, j: nat): nat {
    if history == [] then 0 else Processed(history[..|history| - 1], j) + ProcessedBy(history[|history| - 1], j)
  }

  ghost function Failures(history: seq<Event>, j: nat): nat {
    if history ==
      [] then 0 else Failures(history[..|history| - 1], j) + if Fails(history[|history| - 1], j) then 1 else 0
  }

  ghost function ShiftedBy(e: Event, j: nat): Timeline {
    if e.Done? && e.segment.jobIndex == j then Shift(e.timeline, e.segment.offset) else []
  }

  /** The shifted annotations of the job's segments, each once, in the order they were recognised. */
  ghost function Shifted(history: seq<Event>, j: nat): Timeline {
    if history == [] then [] else Shifted(history[..|history| - 1], j) + ShiftedBy(history[|history| - 1], j)
  }

  ghost function Outcomes(outcomes: seq<ItemOutcome>, j: nat, ok: bool): nat {
    if outcomes == [] then 0 else
      var o := outcomes[|outcomes| - 1];
      Outcomes(outcomes[..|outcomes| - 1], j, ok) + if o.index == j && o.result.Ok? == ok then 1 else 0
  }

  lemma EventStep(history: seq<Event>, e: Event, j: nat)
    ensures Processed(history + [e], j) == Processed(history, j) + ProcessedBy(e, j)
    ensures Failures(history + [e], j) == Failures(history, j) + if Fails(e, j) then 1 else 0
    ensures Shifted(history + [e], j) == Shifted(history, j) + ShiftedBy(e, j)
  {
    assert (history + [e])[..|history|] == history;
  }

  lemma OutcomeStep(outcomes: seq<ItemOutcome>, o: ItemOutcome, j: nat, ok: bool)
    ensures Outcomes(outcomes + [o], j, ok) == Outcomes(outcomes, j, ok) + if o.index == j &&
              o.result.Ok? == ok then 1 else 0
  {
    assert (outcomes + [o])[..|outcomes|] == outcomes;
  }

  // ----- what holds of every job at every moment

  /** How many segments each job has, its speech annotations, and how long its audio is. */
  datatype Plan = Plan(count: nat -> nat, speech: nat -> seq<Annotation>, seconds: nat -> real)

  ghost predicate FromPlan(plan: Plan, s: Segment) {
    && s.segmentCount == plan.count(s.jobIndex) > 0
    && (s.speech == [] || s.speech == plan.speech(s.jobIndex))
    && s.audioSeconds == plan.seconds(s.jobIndex)
  }

  /** Some segment of the batch carries the job's speech annotations. */
  ghost predicate Carries(batch: seq<Segment>, j: nat) {
    exists k :: 0 <= k < |batch| && batch[k].jobIndex == j && batch[k].speech != []
  }

  /** A batch with the job's speech annotations has begun. */
  ghost predicate Told(history: seq<Event>, j: nat) {
    history != [] &&
    var (before, e) := (history[..|history| - 1], history[|history| - 1]);
    Told(before, j) || (e.Began? && Carries(e.batch, j))
  }

  /** ... and had begun when nothing of the job was recognised yet. */
  ghost predicate Led(history: seq<Event>, j: nat) {
    history != [] &&
    var (before, e) := (history[..|history| - 1], history[|history| - 1]);
    Led(before, j) || (e.Began? && Carries(e.batch, j) && Shifted(before, j) == [])
  }

  /** The job's annotations so far. Its speech annotations come first if they were there before any others, and are
      missing if they were not. */
  ghost function Gathered(speech: seq<Annotation>, shifted: Timeline, led: bool): Timeline {
    if led then speech + shifted else shifted
  }

  ghost predicate Answered(outcomes: seq<ItemOutcome>, j: nat, timeline: Timeline) {
    exists o :: o in outcomes && o.index == j && o.result == Ok(timeline)
  }

  /** What the job's timeline is or will be, as long as none of its batches has failed. */
  ghost function TimelineSoFar(plan: Plan, history: seq<Event>, j: nat): Timeline {
    Gathered(plan.speech(j), Shifted(history, j), Led(history, j))
  }

  /** What the job has been told and has gathered, as long as none of its batches has failed. */
  ghost predicate Gathering(plan: Plan, history: seq<Event>, job: JobState, j: nat) {
    && job.segmentsDone == Processed(history, j)
    && job.timeline == TimelineSoFar(plan, history, j)
    && (job.speech != [] <==> Told(history, j))
    && (Told(history, j) ==> plan.speech(j) != [])
  }

  /** Whatever is said of the job's length is right. */
  ghost predicate RightSeconds(plan: Plan, jobs: Jobs, outcomes: seq<ItemOutcome>, j: nat) {
    && (j in jobs ==> jobs[j].audioSeconds == plan.seconds(j))
    && forall o :: o in outcomes && o.index == j ==> o.audioSeconds == plan.seconds(j)
  }

  /** A job is untouched, open, answered, or failed; it gets an error for each of its failed batches, and its
      timeline only when all its segments went through and none of its batches failed. */
  ghost predicate JobRight(plan: Plan, history: seq<Event>, jobs: Jobs, outcomes: seq<ItemOutcome>, j: nat) {
    var (p, f, oks, errs) :=
      (Processed(history, j), Failures(history, j), Outcomes(outcomes, j, true), Outcomes(outcomes, j, false));
    && f <= p
    && errs == f
    && RightSeconds(plan, jobs, outcomes, j)
    && if j in jobs then
         && oks == 0
         && jobs[j].segmentCount == plan.count(j) > jobs[j].segmentsDone
         && jobs[j].segmentsDone + f <= p
         && (jobs[j].speech == [] || jobs[j].speech == plan.speech(j))
         && (f == 0 ==> Gathering(plan, history, jobs[j], j))
       else if oks == 0 then (p == 0 && !Told(history, j)) || f > 0
       else
         && oks == 1 && f == 0 && p == plan.count(j)
         && Answered(outcomes, j, TimelineSoFar(plan, history, j))
  }

  lemma NewJobRight(plan: Plan, j: nat)
    ensures JobRight(plan, [], map[], [], j)
  {
  }

  lemma BeganStep(history: seq<Event>, batch: seq<Segment>, j: nat)
    ensures var h := history + [Began(batch)];
            && Processed(h, j) == Processed(history, j) && Failures(h, j) == Failures(history, j)
            && Shifted(h, j) == Shifted(history, j)
            && (Told(h, j) <==> Told(history, j) || Carries(batch, j))
            && (Led(h, j) <==> Led(history, j) || (Carries(batch, j) && Shifted(history, j) == []))
  {
    assert (history + [Began(batch)])[..|history|] == history;
    assert Shifted(history, j) + [] == Shifted(history, j);
  }

  lemma CarriesMore(batch: seq<Segment>, s: Segment, j: nat)
    ensures Carries(batch + [s], j) <==> Carries(batch, j) || (s.jobIndex == j && s.speech != [])
  {
    if Carries(batch, j) {
      var k :| 0 <= k < |batch| && batch[k].jobIndex == j && batch[k].speech != [];
      assert (batch + [s])[k] == batch[k];
    }
    assert (batch + [s])[|batch|] == s;
  }

  /** Whoever was told when nothing was recognised, has it first. */
  lemma {:induction false} ToldInTime(history: seq<Event>, j: nat)
    requires Told(history, j) && Shifted(history, j) == []
    ensures Led(history, j)
  {
    var before := history[..|history| - 1];
    if Told(before, j) {
      ToldInTime(before, j);
    }
  }

  lemma {:induction false} LedWasTold(history: seq<Event>, j: nat)
    requires Led(history, j)
    ensures Told(history, j)
  {
    if Led(history[..|history| - 1], j) {
      LedWasTold(history[..|history| - 1], j);
    }
  }

  /** One more segment of a batch that begins. */
  lemma PrepareKeeps(plan: Plan, history: seq<Event>, batch: seq<Segment>, jobs: Jobs, outcomes: seq<ItemOutcome>,
                     s: Segment, j: nat)
    requires FromPlan(plan, s) && JobRight(plan, history + [Began(batch)], jobs, outcomes, j)
    requires Processed(history, s.jobIndex) < plan.count(s.jobIndex)
    ensures JobRight(plan, history + [Began(batch + [s])], PrepareOne(jobs, s), outcomes, j)
    ensures s.jobIndex in PrepareOne(jobs, s) && forall i :: i in jobs ==> i in PrepareOne(jobs, s)
  {
    hide Processed, Failures, Shifted, Outcomes, Answered, Led, Told, Gathering, Carries;
    BeganStep(history, batch, j);
    BeganStep(history, batch + [s], j);
    CarriesMore(batch, s, j);
    if j == s.jobIndex && Failures(history, j) == 0 {
      PreparedGathering(plan, history, batch, jobs, s);
    } else if Failures(history, j) == 0 && j in jobs {
      SameGathering(plan, history + [Began(batch)], history + [Began(batch + [s])], jobs[j], j);
    }
  }

  lemma SameGathering(plan: Plan, h: seq<Event>, h': seq<Event>, job: JobState, j: nat)
    requires Gathering(plan, h, job, j) && Processed(h', j) == Processed(h, j) && Shifted(h', j) == Shifted(h, j)
    requires (Told(h', j) <==> Told(h, j)) && (Led(h', j) <==> Led(h, j))
    ensures Gathering(plan, h', job, j)
  {
  }

  lemma PreparedGathering(plan: Plan, history: seq<Event>, batch: seq<Segment>, jobs: Jobs, s: Segment)
    requires FromPlan(plan, s)
    requires var (h, j) := (history + [Began(batch)], s.jobIndex);
             if j in jobs
             then Gathering(plan, h, jobs[j], j) && (jobs[j].speech == [] || jobs[j].speech == plan.speech(j))
             else Processed(h, j) == 0 && !Told(h, j)
    ensures Gathering(plan, history + [Began(batch + [s])], PrepareOne(jobs, s)[s.jobIndex], s.jobIndex)
  {
    hide Processed, Shifted, Led, Told, Carries;
    var (h, h', j) := (history + [Began(batch)], history + [Began(batch + [s])], s.jobIndex);
    BeganStep(history, batch, j);
    BeganStep(history, batch + [s], j);
    CarriesMore(batch, s, j);
    if Processed(h, j) == 0 {
      NothingShifted(h, j);
    }
    if Led(h, j) {
      LedWasTold(h, j);
    }
    if Told(h', j) && Shifted(h', j) == [] {
      ToldInTime(h', j);
    }
    assert plan.speech(j) + [] == plan.speech(j);
  }

  lemma {:induction false} NothingShifted(history: seq<Event>, j: nat)
    requires Processed(history, j) == 0
    ensures Shifted(history, j) == []
  {
    if history != [] {
      NothingShifted(history[..|history| - 1], j);
    }
  }

  lemma FinishKeeps(plan: Plan, history: seq<Event>, jobs: Jobs, outcomes: seq<ItemOutcome>, s: Segment,
                    timeline: Timeline, j: nat)
    requires FromPlan(plan, s) && s.jobIndex in jobs && JobRight(plan, history, jobs, outcomes, j)
    requires Processed(history, s.jobIndex) < plan.count(s.jobIndex)
    ensures var (jobs', outcomes') := FinishOne(jobs, outcomes, s, timeline);
            JobRight(plan, history + [Done(s, timeline)], jobs', outcomes', j)
    ensures j == s.jobIndex && j !in FinishOne(jobs, outcomes, s, timeline).0 ==>
              Processed(history, j) + 1 == plan.count(j)
  {
    hide Processed, Failures, Shifted, Outcomes, Shift, Led, Told, Gathering, Answered, RightSeconds, Gathered;
    var e := Done(s, timeline);
    EventStep(history, e, j);
    var job := jobs[s.jobIndex];
    var longer := job.(timeline := job.timeline + Shift(timeline, s.offset), segmentsDone := job.segmentsDone + 1);
    var o := ItemOutcome(s.jobIndex, Ok(longer.timeline), longer.audioSeconds);
    OutcomeStep(outcomes, o, j, true);
    OutcomeStep(outcomes, o, j, false);
    SecondsStep(plan, jobs, outcomes, s.jobIndex, longer, o, j);
    if j == s.jobIndex {
      if Failures(history, j) == 0 {
        GatheredMore(plan, history, job, s, timeline);
      }
      if longer.segmentsDone >= longer.segmentCount && Failures(history, j) == 0 {
        AnsweredNow(plan, history + [e], outcomes, longer, j);
      }
    } else {
      LedStays(history, e, j);
      assert Shifted(history, j) + [] == Shifted(history, j);
      if j in jobs && Failures(history, j) == 0 {
        SameGathering(plan, history, history + [e], jobs[j], j);
      }
      if Answered(outcomes, j, TimelineSoFar(plan, history, j)) {
        StillAnswered(outcomes, o, j, TimelineSoFar(plan, history, j));
      }
    }
  }

  lemma SecondsStep(plan: Plan, jobs: Jobs, outcomes: seq<ItemOutcome>, i: nat, longer: JobState, o: ItemOutcome,
                    j: nat)
    requires RightSeconds(plan, jobs, outcomes, j) && i in jobs
    requires o.index == i && o.audioSeconds == longer.audioSeconds == jobs[i].audioSeconds
    ensures RightSeconds(plan, jobs - {i}, outcomes + [o], j) && RightSeconds(plan, jobs[i := longer], outcomes, j)
  {
  }

  lemma LedStays(history: seq<Event>, e: Event, j: nat)
    requires !e.Began?
    ensures (Told(history + [e], j) <==> Told(history, j)) && (Led(history + [e], j) <==> Led(history, j))
  {
    assert (history + [e])[..|history|] == history;
  }

  /** One more segment's annotations. */
  lemma GatheredMore(plan: Plan, history: seq<Event>, job: JobState, s: Segment, timeline: Timeline)
    requires Gathering(plan, history, job, s.jobIndex)
    ensures Gathering(plan, history + [Done(s, timeline)],
                      job.(timeline := job.timeline + Shift(timeline, s.offset), segmentsDone := job.segmentsDone + 1),
                      s.jobIndex)
  {
    hide Shift, Shifted, Processed, Led, Told;
    var (j, e, more) := (s.jobIndex, Done(s, timeline), Shift(timeline, s.offset));
    EventStep(history, e, j);
    LedStays(history, e, j);
    assert plan.speech(j) + Shifted(history, j) + more == plan.speech(j) + (Shifted(history, j) + more);
  }

  lemma AnsweredNow(plan: Plan, history: seq<Event>, outcomes: seq<ItemOutcome>, job: JobState, j: nat)
    requires Gathering(plan, history, job, j)
    ensures Answered(outcomes + [ItemOutcome(j, Ok(job.timeline), job.audioSeconds)], j,
                     TimelineSoFar(plan, history, j))
  {
    var o := ItemOutcome(j, Ok(job.timeline), job.audioSeconds);
    assert o in outcomes + [o];
  }

  lemma StillAnswered(outcomes: seq<ItemOutcome>, o: ItemOutcome, j: nat, timeline: Timeline)
    requires Answered(outcomes, j, timeline)
    ensures Answered(outcomes + [o], j, timeline)
  {
    var a :| a in outcomes && a.index == j && a.result == Ok(timeline);
    assert a in outcomes + [o];
  }

  /** A failed batch answers each of its jobs with one error. */
  lemma FailKeeps(plan: Plan, history: seq<Event>, jobs: Jobs, outcomes: seq<ItemOutcome>, segments: seq<Segment>,
                  jobs': Jobs, outcomes': seq<ItemOutcome>, j: nat)
    requires JobRight(plan, history, jobs, outcomes, j)
    requires SegmentsOf(segments, j) > 0 ==> j in jobs && j !in jobs'
    requires SegmentsOf(segments, j) == 0 ==> (j in jobs <==> j in jobs') && (j in jobs ==> jobs'[j] == jobs[j])
    requires Outcomes(outcomes', j, true) == Outcomes(outcomes, j, true)
    requires Outcomes(outcomes', j, false) ==
               Outcomes(outcomes, j, false) + if SegmentsOf(segments, j) > 0 then 1 else 0
    requires forall o :: o in outcomes ==> o in outcomes'
    requires RightSeconds(plan, jobs', outcomes', j)
    ensures JobRight(plan, history + [FailedBatch(segments)], jobs', outcomes', j)
  {
    hide Processed, Failures, Shifted, Outcomes, Gathered, Led, Told, RightSeconds;
    EventStep(history, FailedBatch(segments), j);
    LedStays(history, FailedBatch(segments), j);
    assert Shifted(history, j) + [] == Shifted(history, j);
  }
}
