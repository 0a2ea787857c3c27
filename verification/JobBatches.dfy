/** Jobs recognised whole, and the outcomes of jobs without segments: each of their messages gets one. */
module JobBatches {
  import opened Prelude
  import opened SegmentJobs
  import opened AsrMessages
  import opened SegmentBatches

  function SpeechOf(job: AsrJob): seq<Annotation> {
    if job.kind.FullSpeech? then job.kind.speech else []
  }

  /** What a job recognised whole may be answered with: silence needs no call; otherwise the job's speech
      annotations and then the recogniser's timeline for its samples, or the error of the call they were in. */
  ghost predicate JobAnswer(asr: Recognise, job: AsrJob, o: ItemOutcome) {
    && o.index == job.index
    && o.audioSeconds == job.audioSeconds
    && if job.kind.NoSpeech? then o.result == Ok([]) else Answer(asr, job, o.result)
  }

  ghost predicate Answer(asr: Recognise, job: AsrJob, result: Outcome<Timeline>) {
    match result
    case Ok(timeline) =>
      exists call, waves, k: nat ::
        && k < |waves| && Complete(asr, call, waves) && waves[k] == job.waveform
        && timeline == SpeechOf(job) + asr(call, waves).value[k]
    case Err(_) => exists call, waves :: job.waveform in waves && !Complete(asr, call, waves)
  }

  /** The timeline came from the recogniser, for the job's own samples. */
  ghost predicate CameFrom(asr: Recognise, job: AsrJob, timeline: Timeline) {
    exists call, waves, k: nat ::
      k < |waves| && Complete(asr, call, waves) && waves[k] == job.waveform && timeline == asr(call, waves).value[k]
  }

  /** Silence is an empty timeline. Where there is speech throughout, the annotations of it come first, and then what
      the recogniser returned; without speech detection it is what the recogniser returned. */
  lemma AnswerMeans(asr: Recognise, job: AsrJob, o: ItemOutcome)
    requires JobAnswer(asr, job, o)
    ensures o.audioSeconds == job.audioSeconds
    ensures o.result.Ok? ==>
              match job.kind
              case NoSpeech => o.result.value == []
              case FullSpeech(speech) =>
                speech <= o.result.value && CameFrom(asr, job, o.result.value[|speech|..])
              case Disabled => CameFrom(asr, job, o.result.value)
    ensures job.kind.NoSpeech? ==> o.result.Ok?
  {
    if o.result.Ok? && !job.kind.NoSpeech? {
      var call, waves, k: nat :|
        && k < |waves| && Complete(asr, call, waves) && waves[k] == job.waveform
        && o.result.value == SpeechOf(job) + asr(call, waves).value[k];
      assert o.result.value[|SpeechOf(job)|..] == asr(call, waves).value[k];
    }
  }

  ghost predicate AllAnswer(asr: Recognise, jobs: seq<AsrJob>, outcomes: seq<ItemOutcome>) {
    forall o :: o in outcomes ==> exists job :: job in jobs && JobAnswer(asr, job, o)
  }

  lemma JobStep(jobs: seq<AsrJob>, job: AsrJob, j: nat)
    ensures JobsOf(jobs + [job], j) == JobsOf(jobs, j) + if job.index == j then 1 else 0
  {
    assert (jobs + [job])[..|jobs|] == jobs;
  }

  lemma AnswerStep(outcomes: seq<ItemOutcome>, o: ItemOutcome, j: nat)
    ensures Answers(outcomes + [o], j) == Answers(outcomes, j) + if o.index == j then 1 else 0
  {
    OutcomeStep(outcomes, o, j, true);
    OutcomeStep(outcomes, o, j, false);
  }

  // ----- the order of a batch's outcomes

  ghost predicate SortedByIndex(outcomes: seq<ItemOutcome>) {
    forall a, b :: 0 <= a < b < |outcomes| ==> outcomes[a].index <= outcomes[b].index
  }

  function Insert(outcomes: seq<ItemOutcome>, o: ItemOutcome): seq<ItemOutcome> {
    if outcomes == [] || outcomes[|outcomes| - 1].index <= o.index then outcomes + [o]
    else Insert(outcomes[..|outcomes| - 1], o) + [outcomes[|outcomes| - 1]]
  }

  function SortByIndex(outcomes: seq<ItemOutcome>): seq<ItemOutcome> {
    if outcomes == [] then [] else Insert(SortByIndex(outcomes[..|outcomes| - 1]), outcomes[|outcomes| - 1])
  }

  lemma {:induction false} InsertMembers(outcomes: seq<ItemOutcome>, o: ItemOutcome)
    ensures multiset(Insert(outcomes, o)) == multiset(outcomes) + multiset{o}
  {
    if outcomes != [] && outcomes[|outcomes| - 1].index > o.index {
      var n := |outcomes| - 1;
      InsertMembers(outcomes[..n], o);
      assert outcomes == outcomes[..n] + [outcomes[n]];
    }
  }

  lemma {:induction false} InsertSorts(outcomes: seq<ItemOutcome>, o: ItemOutcome)
    requires SortedByIndex(outcomes)
    ensures SortedByIndex(Insert(outcomes, o))
  {
    if outcomes != [] && outcomes[|outcomes| - 1].index > o.index {
      var (n, rest) := (|outcomes| - 1, Insert(outcomes[..|outcomes| - 1], o));
      InsertSorts(outcomes[..n], o);
      forall a | 0 <= a < |rest|
        ensures rest[a].index <= outcomes[n].index
      {
        InsertMembers(outcomes[..n], o);
        assert rest[a] in multiset(outcomes[..n]) + multiset{o};
      }
      LastStays(rest, outcomes[n]);
    }
  }

  lemma LastStays(rest: seq<ItemOutcome>, last: ItemOutcome)
    requires SortedByIndex(rest) && forall a :: 0 <= a < |rest| ==> rest[a].index <= last.index
    ensures SortedByIndex(rest + [last])
  {
  }

  lemma {:induction false} InsertCounts(outcomes: seq<ItemOutcome>, o: ItemOutcome, j: nat)
    ensures Answers(Insert(outcomes, o), j) == Answers(outcomes + [o], j)
  {
    if outcomes != [] && outcomes[|outcomes| - 1].index > o.index {
      var n := |outcomes| - 1;
      InsertCounts(outcomes[..n], o, j);
      assert outcomes == outcomes[..n] + [outcomes[n]];
      hide Answers;
      AnswerStep(Insert(outcomes[..n], o), outcomes[n], j);
      AnswerStep(outcomes[..n], o, j);
      AnswerStep(outcomes[..n], outcomes[n], j);
      AnswerStep(outcomes, o, j);
    }
  }

  /** A stable sort: the same outcomes, in the order of their jobs. */
  lemma {:induction false} SortKeeps(outcomes: seq<ItemOutcome>)
    ensures SortedByIndex(SortByIndex(outcomes)) && multiset(SortByIndex(outcomes)) == multiset(outcomes)
    ensures forall j: nat :: Answers(SortByIndex(outcomes), j) == Answers(outcomes, j)
  {
    if outcomes != [] {
      var n := |outcomes| - 1;
      SortKeeps(outcomes[..n]);
      InsertSorts(SortByIndex(outcomes[..n]), outcomes[n]);
      InsertMembers(SortByIndex(outcomes[..n]), outcomes[n]);
      assert outcomes == outcomes[..n] + [outcomes[n]];
      hide Outcomes, Insert;
      forall j: nat
        ensures Answers(SortByIndex(outcomes), j) == Answers(outcomes, j)
      {
        InsertCounts(SortByIndex(outcomes[..n]), outcomes[n], j);
        AnswerStep(SortByIndex(outcomes[..n]), outcomes[n], j);
        AnswerStep(outcomes[..n], outcomes[n], j);
      }
    }
  }

  // ----- the books

  /** Of the jobs taken so far, some are answered and some are still to be recognised. */
  ghost predicate Tally(taken: seq<AsrJob>, outcomes: seq<ItemOutcome>, raw: seq<AsrJob>) {
    forall j: nat :: Answers(outcomes, j) + JobsOf(raw, j) == JobsOf(taken, j)
  }

  lemma TallyAnswered(asr: Recognise, taken: seq<AsrJob>, outcomes: seq<ItemOutcome>, raw: seq<AsrJob>, job: AsrJob,
                      o: ItemOutcome)
    requires Tally(taken, outcomes, raw) && AllAnswer(asr, taken, outcomes) && JobAnswer(asr, job, o)
    ensures Tally(taken + [job], outcomes + [o], raw) && AllAnswer(asr, taken + [job], outcomes + [o])
  {
    hide JobsOf, Answers, Answer;
    forall j: nat
      ensures Answers(outcomes + [o], j) + JobsOf(raw, j) == JobsOf(taken + [job], j)
    {
      AnswerStep(outcomes, o, j);
      JobStep(taken, job, j);
    }
    assert job in taken + [job];
    forall p | p in outcomes
      ensures exists x :: x in taken + [job] && JobAnswer(asr, x, p)
    {
      var x :| x in taken && JobAnswer(asr, x, p);
      assert x in taken + [job];
    }
  }

  lemma TallyRaw(asr: Recognise, taken: seq<AsrJob>, outcomes: seq<ItemOutcome>, raw: seq<AsrJob>, job: AsrJob)
    requires Tally(taken, outcomes, raw) && AllAnswer(asr, taken, outcomes)
    ensures Tally(taken + [job], outcomes, raw + [job]) && AllAnswer(asr, taken + [job], outcomes)
  {
    hide JobsOf, Answers, JobAnswer;
    forall j: nat
      ensures Answers(outcomes, j) + JobsOf(raw + [job], j) == JobsOf(taken + [job], j)
    {
      JobStep(raw, job, j);
      JobStep(taken, job, j);
    }
    forall p | p in outcomes
      ensures exists x :: x in taken + [job] && JobAnswer(asr, x, p)
    {
      var x :| x in taken && JobAnswer(asr, x, p);
      assert x in taken + [job];
    }
  }

  /** The recognised jobs of a batch are answered one after the other. */
  ghost predicate Recognised(asr: Recognise, batch: seq<AsrJob>, raw: seq<AsrJob>, k: nat, before: seq<ItemOutcome>,
                             outcomes: seq<ItemOutcome>)
  {
    && k <= |raw|
    && AllAnswer(asr, batch, outcomes)
    && forall j: nat :: Answers(outcomes, j) == Answers(before, j) + JobsOf(raw[..k], j)
  }

  lemma TallyNothing(asr: Recognise, batch: seq<AsrJob>)
    ensures Tally(batch[..0], [], []) && AllAnswer(asr, batch[..0], [])
  {
  }

  lemma RecognisedNothing(asr: Recognise, batch: seq<AsrJob>, raw: seq<AsrJob>, outcomes: seq<ItemOutcome>)
    requires AllAnswer(asr, batch, outcomes)
    ensures Recognised(asr, batch, raw, 0, outcomes, outcomes)
  {
  }

  lemma SilentAnswer(asr: Recognise, job: AsrJob)
    requires job.kind.NoSpeech?
    ensures JobAnswer(asr, job, ItemOutcome(job.index, Ok([]), job.audioSeconds))
  {
  }

  /** The `k`-th result of a call answers the job whose samples were its `k`-th input. */
  lemma RawAnswer(asr: Recognise, job: AsrJob, call: nat, waves: seq<seq<real>>, k: nat, o: ItemOutcome)
    requires !job.kind.NoSpeech? && o.index == job.index && o.audioSeconds == job.audioSeconds
    requires k < |waves| && waves[k] == job.waveform
    requires if Complete(asr, call, waves) then o.result ==
               Ok(SpeechOf(job) + asr(call, waves).value[k]) else o.result.Err?
    ensures JobAnswer(asr, job, o)
  {
    assert waves[k] in waves;
  }

  lemma RecognisedStep(asr: Recognise, batch: seq<AsrJob>, raw: seq<AsrJob>, k: nat, before: seq<ItemOutcome>,
                       outcomes: seq<ItemOutcome>, o: ItemOutcome)
    requires Recognised(asr, batch, raw, k, before, outcomes) && k < |raw| && raw[k] in batch
    requires JobAnswer(asr, raw[k], o)
    ensures Recognised(asr, batch, raw, k + 1, before, outcomes + [o])
  {
    hide JobsOf, Answers, Answer;
    assert raw[..k + 1] == raw[..k] + [raw[k]];
    forall j: nat
      ensures Answers(outcomes + [o], j) == Answers(before, j) + JobsOf(raw[..k + 1], j)
    {
      AnswerStep(outcomes, o, j);
      JobStep(raw[..k], raw[k], j);
    }
  }

  lemma BatchSorted(asr: Recognise, batch: seq<AsrJob>, raw: seq<AsrJob>, before: seq<ItemOutcome>,
                    outcomes: seq<ItemOutcome>)
    requires Tally(batch, before, raw) && Recognised(asr, batch, raw, |raw|, before, outcomes)
    ensures Tally(batch, SortByIndex(outcomes), []) && AllAnswer(asr, batch, SortByIndex(outcomes))
    ensures SortedByIndex(SortByIndex(outcomes))
  {
    hide Answers, JobAnswer, SortByIndex;
    assert raw[..|raw|] == raw;
    SortKeeps(outcomes);
    forall o | o in SortByIndex(outcomes)
      ensures o in outcomes
    {
      assert o in multiset(SortByIndex(outcomes));
    }
  }

  // ----- jobs without segments, over a whole run

  /** The answer a whole-job or failure message may get. */
  ghost predicate MessageAnswer(asr: Recognise, m: Message, o: ItemOutcome) {
    match m
    case JobMessage(job) => JobAnswer(asr, job, o)
    case FailureMessage(outcome) => o == outcome
    case SegmentMessage(_) => false
  }

  ghost predicate OthersGenuine(asr: Recognise, plan: Plan, handled: seq<Message>, sent: seq<ItemOutcome>) {
    forall o :: o in sent && plan.count(o.index) == 0 ==> exists m :: m in handled && MessageAnswer(asr, m, o)
  }

  /** A message about a job without segments. */
  ghost predicate Whole(plan: Plan, m: Message) {
    match m
    case JobMessage(job) => plan.count(job.index) == 0
    case FailureMessage(outcome) => plan.count(outcome.index) == 0
    case SegmentMessage(_) => false
  }

  lemma WholeKind(plan: Plan, m: Message)
    requires Whole(plan, m)
    ensures !m.SegmentMessage?
  {
  }

  /** Messages other than segments come from jobs without segments. */
  lemma BatchWhole(plan: Plan, all: seq<Message>, handled: seq<Message>, messages: seq<Message>, pending: seq<Message>,
                   queue: seq<Message>)
    requires WellSent(plan, all) && Conserved(all, handled, messages, pending, queue)
    requires forall m :: m in messages ==> !m.SegmentMessage?
    ensures forall m :: m in messages ==> Whole(plan, m)
  {
    forall m | m in messages
      ensures Whole(plan, m)
    {
      assert m in multiset(messages);
      assert m in multiset(all);
      var j := if m.JobMessage? then m.job.index else m.outcome.index;
      SomeOther(all, m, j);
    }
  }

  lemma {:induction false} SomeOther(messages: seq<Message>, m: Message, j: nat)
    requires m in messages && IsOtherOf(m, j)
    ensures OtherCount(messages, j) > 0
  {
    if messages[|messages| - 1] != m {
      SomeOther(messages[..|messages| - 1], m, j);
    }
  }

  lemma OutcomeKeepsAll(plan: Plan, history: seq<Event>, jobs: Jobs, sent: seq<ItemOutcome>, o: ItemOutcome)
    requires AllRight(plan, history, jobs, sent) && plan.count(o.index) == 0
    ensures AllRight(plan, history, jobs, sent + [o])
  {
    forall j: nat | plan.count(j) > 0
      ensures JobRight(plan, history, jobs, sent + [o], j)
    {
      OtherOutcomeKeeps(plan, history, jobs, sent, o, j);
    }
  }

  lemma OtherOutcomeKeeps(plan: Plan, history: seq<Event>, jobs: Jobs, sent: seq<ItemOutcome>, o: ItemOutcome, j: nat)
    requires JobRight(plan, history, jobs, sent, j) && o.index != j
    ensures JobRight(plan, history, jobs, sent + [o], j)
  {
    hide Outcomes, Processed, Failures, Shifted, Answered, Led, Told, Gathering;
    OutcomeStep(sent, o, j, true);
    OutcomeStep(sent, o, j, false);
    if Answered(sent, j, TimelineSoFar(plan, history, j)) {
      StillAnswered(sent, o, j, TimelineSoFar(plan, history, j));
    }
  }

  lemma MessageStep(messages: seq<Message>, m: Message, j: nat)
    ensures OtherCount(messages + [m], j) == OtherCount(messages, j) + if IsOtherOf(m, j) then 1 else 0
    ensures SegmentCount(messages + [m], j) == SegmentCount(messages, j) + if IsSegmentOf(m, j) then 1 else 0
    ensures SegmentsIn(messages + [m]) == SegmentsIn(messages) + if m.SegmentMessage? then [m.segment] else []
  {
    assert (messages + [m])[..|messages|] == messages;
  }

  /** Everything the worker keeps true, with the jobs of the current batch still `waiting`. */
  ghost predicate Books(asr: Recognise, plan: Plan, history: seq<Event>, jobs: Jobs, handled: seq<Message>,
                        sent: seq<ItemOutcome>, waiting: seq<AsrJob>)
  {
    && AllRight(plan, history, jobs, sent)
    && OthersTally(plan, handled, sent, waiting)
    && OthersGenuine(asr, plan, handled, sent)
    && HistoryOf(history, handled)
    && (forall job :: job in waiting ==> JobMessage(job) in handled && plan.count(job.index) == 0)
    && forall e :: e in history ==> Genuine(asr, e)
  }

  lemma NothingYet(asr: Recognise, plan: Plan)
    ensures Books(asr, plan, [], map[], [], [], [])
  {
    forall j: nat
      ensures JobRight(plan, [], map[], [], j)
    {
      NewJobRight(plan, j);
    }
  }

  lemma HandledMore(asr: Recognise, plan: Plan, history: seq<Event>, handled: seq<Message>, sent: seq<ItemOutcome>,
                    m: Message)
    requires HistoryOf(history, handled) && OthersGenuine(asr, plan, handled, sent) && !m.SegmentMessage?
    ensures HistoryOf(history, handled + [m]) && OthersGenuine(asr, plan, handled + [m], sent)
  {
    hide SegmentCount, OtherCount, SegmentsIn, Processed, MessageAnswer;
    MessageStep(handled, m, 0);
    assert SegmentsIn(handled) + [] == SegmentsIn(handled);
    forall j: nat
      ensures SegmentCount(handled + [m], j) == SegmentCount(handled, j)
    {
      MessageStep(handled, m, j);
    }
    forall o | o in sent && plan.count(o.index) == 0
      ensures exists x :: x in handled + [m] && MessageAnswer(asr, x, o)
    {
      var x :| x in handled && MessageAnswer(asr, x, o);
      assert x in handled + [m];
    }
  }

  /** A batch of segments leaves the other jobs' answers as they were. */
  lemma SegmentsKeepOthers(asr: Recognise, plan: Plan, handled: seq<Message>, before: seq<ItemOutcome>,
                           sent: seq<ItemOutcome>, more: seq<Message>)
    requires OthersGenuine(asr, plan, handled, before) && OnlySegmentJobs(plan, before, sent)
    ensures OthersGenuine(asr, plan, handled + more, sent)
  {
    hide MessageAnswer;
    forall o | o in sent && plan.count(o.index) == 0
      ensures exists m :: m in handled + more && MessageAnswer(asr, m, o)
    {
      var m :| m in handled && MessageAnswer(asr, m, o);
      assert m in handled + more;
    }
  }

  /** A failure message is passed on. */
  lemma FailurePassed(asr: Recognise, plan: Plan, history: seq<Event>, jobs: Jobs, handled: seq<Message>,
                      sent: seq<ItemOutcome>, waiting: seq<AsrJob>, m: Message)
    requires Books(asr, plan, history, jobs, handled, sent, waiting) && m.FailureMessage? && Whole(plan, m)
    ensures Books(asr, plan, history, jobs, handled + [m], sent + [m.outcome], waiting)
  {
    hide JobRight, Answers, OtherCount, JobsOf, HistoryOf, Genuine;
    OutcomeKeepsAll(plan, history, jobs, sent, m.outcome);
    HandledMore(asr, plan, history, handled, sent, m);
    forall j: nat | plan.count(j) == 0
      ensures Answers(sent + [m.outcome], j) + JobsOf(waiting, j) == OtherCount(handled + [m], j)
    {
      AnswerStep(sent, m.outcome, j);
      MessageStep(handled, m, j);
    }
    assert m in handled + [m] && MessageAnswer(asr, m, m.outcome);
  }

  /** A job message is taken into the batch. */
  lemma JobTaken(asr: Recognise, plan: Plan, history: seq<Event>, jobs: Jobs, handled: seq<Message>,
                 sent: seq<ItemOutcome>, waiting: seq<AsrJob>, m: Message)
    requires Books(asr, plan, history, jobs, handled, sent, waiting) && m.JobMessage? && Whole(plan, m)
    ensures Books(asr, plan, history, jobs, handled + [m], sent, waiting + [m.job])
  {
    hide AllRight, Answers, OtherCount, JobsOf, HistoryOf, OthersGenuine, Genuine;
    HandledMore(asr, plan, history, handled, sent, m);
    forall j: nat | plan.count(j) == 0
      ensures Answers(sent, j) + JobsOf(waiting + [m.job], j) == OtherCount(handled + [m], j)
    {
      JobStep(waiting, m.job, j);
      MessageStep(handled, m, j);
    }
  }

  /** The outcomes of a batch settle the jobs that waited for it. */
  lemma BatchSettled(asr: Recognise, plan: Plan, history: seq<Event>, jobs: Jobs, handled: seq<Message>,
                     sent: seq<ItemOutcome>, waiting: seq<AsrJob>, outcomes: seq<ItemOutcome>)
    requires Books(asr, plan, history, jobs, handled, sent, waiting) && Tally(waiting, outcomes, [])
    requires AllAnswer(asr, waiting, outcomes)
    ensures Books(asr, plan, history, jobs, handled, sent + outcomes, [])
  {
    hide JobRight, Answers, OtherCount, HistoryOf, Genuine, JobAnswer;
    SettledRight(asr, plan, history, jobs, sent, waiting, outcomes);
    forall j: nat | plan.count(j) == 0
      ensures Answers(sent + outcomes, j) + JobsOf([], j) == OtherCount(handled, j)
    {
      AnswersAdd(sent, outcomes, j);
    }
    forall o | o in outcomes
      ensures exists m :: m in handled && MessageAnswer(asr, m, o)
    {
      var job :| job in waiting && JobAnswer(asr, job, o);
      assert MessageAnswer(asr, JobMessage(job), o);
    }
  }

  lemma {:induction false} SettledRight(asr: Recognise, plan: Plan, history: seq<Event>, jobs: Jobs,
                                        sent: seq<ItemOutcome>, waiting: seq<AsrJob>, outcomes: seq<ItemOutcome>)
    requires AllRight(plan, history, jobs, sent) && AllAnswer(asr, waiting, outcomes)
    requires forall job :: job in waiting ==> plan.count(job.index) == 0
    ensures AllRight(plan, history, jobs, sent + outcomes)
  {
    hide JobRight, Answer;
    if outcomes == [] {
      assert sent + outcomes == sent;
    } else {
      var n := |outcomes| - 1;
      assert forall o :: o in outcomes[..n] ==> o in outcomes;
      SettledRight(asr, plan, history, jobs, sent, waiting, outcomes[..n]);
      assert outcomes[n] in outcomes;
      OutcomeKeepsAll(plan, history, jobs, sent + outcomes[..n], outcomes[n]);
      assert sent + outcomes == sent + outcomes[..n] + [outcomes[n]];
    }
  }

  lemma {:induction false} AnswersAdd(a: seq<ItemOutcome>, b: seq<ItemOutcome>, j: nat)
    ensures Answers(a + b, j) == Answers(a, j) + Answers(b, j)
  {
    if b == [] {
      assert a + b == a;
    } else {
      var n := |b| - 1;
      AnswersAdd(a, b[..n], j);
      assert a + b == a + b[..n] + [b[n]] && b == b[..n] + [b[n]];
      hide Answers;
      AnswerStep(a + b[..n], b[n], j);
      AnswerStep(b[..n], b[n], j);
    }
  }
}
