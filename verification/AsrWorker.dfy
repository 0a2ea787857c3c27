/** The ASR worker: take messages as they come, batch what goes together, set aside what does not. No
    message is lost or answered twice, however the arrivals fall. */
module AsrWorker {
  import opened Prelude
  import opened SegmentJobs
  import opened AsrMessages
  import opened SegmentBatches
  import opened JobBatches
  import opened SegmentOrder

  class Worker {
    const maxBatchSize: nat
    const asr: Recognise
    var calls: nat
    var jobs: Jobs
    var pending: seq<Message>
    var sent: seq<ItemOutcome>
    ghost var history: seq<Event>
    ghost var handled: seq<Message>

    constructor (maxBatchSize: nat, asr: Recognise)
      ensures this.maxBatchSize == maxBatchSize && this.asr == asr
      ensures jobs == map[] && pending == [] && sent == [] && history == [] && handled == []
    {
      this.maxBatchSize, this.asr, calls := maxBatchSize, asr, 0;
      jobs, pending, sent, history, handled := map[], [], [], [], [];
    }

    /** What holds between messages. */
    ghost predicate Sound(plan: Plan)
      reads this
    {
      && Books(asr, plan, history, jobs, handled, sent, [])
      && SmallBatches(history, maxBatchSize) && Aligned(history)
    }

    method TranscribeBatch(waves: seq<seq<real>>) returns (r: Outcome<seq<Timeline>>)
      modifies this`calls
      ensures r == asr(old(calls), waves)
    {
      r := asr(calls, waves);
      calls := calls + 1;
    }

    // ----- segments

    method PrepareSegmentJobState(segments: seq<Segment>, ghost plan: Plan)
      requires Awaited(plan, handled, segments) && HistoryOf(history, handled) && AllRight(plan, history, jobs, sent)
      modifies this`jobs, this`history
      ensures history == old(history) + [Began(segments)] && HistoryOf(history, handled)
      ensures AllRight(plan, history, jobs, sent) && forall k :: 0 <= k < |segments| ==> segments[k].jobIndex in jobs
    {
      hide JobRight, PrepareOne;
      BeganNothing(plan, history, jobs, sent);
      for k := 0 to |segments|
        invariant history == old(history) && AllRight(plan, history + [Began(segments[..k])], jobs, sent)
        invariant forall l :: 0 <= l < k ==> segments[l].jobIndex in jobs
      {
        var s := segments[k];
        StillMissing(plan, handled, segments, k);
        PrepareAll(plan, history, segments[..k], jobs, sent, s);
        assert segments[..k + 1] == segments[..k] + [s];
        jobs := PrepareOne(jobs, s);
      }
      assert segments[..|segments|] == segments;
      BeganKeeps(history, segments, handled);
      history := history + [Began(segments)];
    }

    /** One timeline per segment: gather them, and answer the jobs that are complete. */
    method FinishSegments(segments: seq<Segment>, timelines: seq<Timeline>, ghost plan: Plan)
      requires Awaited(plan, handled, segments) && HistoryOf(history, handled) && AllRight(plan, history, jobs, sent)
      requires |timelines| == |segments| && forall k :: 0 <= k < |segments| ==> segments[k].jobIndex in jobs
      requires forall k :: 0 <= k < |segments| ==> Genuine(asr, Done(segments[k], timelines[k]))
      requires OthersTally(plan, handled, sent, []) && (forall e :: e in history ==> Genuine(asr, e))
      requires SmallBatches(history, maxBatchSize) && Nested(history)
      modifies this`jobs, this`sent, this`history
      ensures SmallBatches(history, maxBatchSize) && Nested(history) && Begun(history) == old(Begun(history))
      ensures AllRight(plan, history, jobs, sent) && OthersTally(plan, handled, sent, [])
      ensures OnlySegmentJobs(plan, old(sent), sent)
      ensures EventSegments(history) == SegmentsIn(handled) + segments
      ensures forall j: nat :: Processed(history, j) == SegmentCount(handled, j) + SegmentsOf(segments, j)
      ensures forall e :: e in history ==> Genuine(asr, e)
    {
      hide JobRight, FinishOne, Genuine, OthersTally, Finishing, Awaited, Nested, Begun;
      ghost var before := sent;
      FinishStart(plan, history, jobs, sent, handled, segments);
      for k := 0 to |segments|
        invariant Finishing(plan, history, jobs, sent, handled, segments, k) && OnlySegmentJobs(plan, before, sent)
        invariant (forall e :: e in history ==> Genuine(asr, e)) && SmallBatches(history, maxBatchSize)
        invariant Nested(history) && Begun(history) == old(Begun(history))
      {
        BegunStep(history, Done(segments[k], timelines[k]));
        FinishStep(plan, history, jobs, sent, timelines[k], handled, segments, k);
        var finished := FinishOne(jobs, sent, segments[k], timelines[k]);
        history := history + [Done(segments[k], timelines[k])];
        jobs, sent := finished.0, finished.1;
      }
      FinishEnd(plan, history, jobs, sent, handled, segments);
    }

    /** The batch failed: each of its jobs is answered with an error, once. */
    method FailSegments(segments: seq<Segment>, reason: string, ghost plan: Plan)
      requires Awaited(plan, handled, segments) && HistoryOf(history, handled) && AllRight(plan, history, jobs, sent)
      requires forall k :: 0 <= k < |segments| ==> segments[k].jobIndex in jobs
      requires Genuine(asr, FailedBatch(segments)) && 1 <= |segments| <= Max(maxBatchSize, 1)
      requires OthersTally(plan, handled, sent, []) && (forall e :: e in history ==> Genuine(asr, e))
      requires SmallBatches(history, maxBatchSize) && Nested(history)
      modifies this`jobs, this`sent, this`history
      ensures SmallBatches(history, maxBatchSize) && Nested(history) && Begun(history) == old(Begun(history))
      ensures AllRight(plan, history, jobs, sent) && OthersTally(plan, handled, sent, [])
      ensures OnlySegmentJobs(plan, old(sent), sent)
      ensures EventSegments(history) == SegmentsIn(handled) + segments
      ensures forall j: nat :: Processed(history, j) == SegmentCount(handled, j) + SegmentsOf(segments, j)
      ensures forall e :: e in history ==> Genuine(asr, e)
    {
      hide JobRight, Genuine, OthersTally, FailOne, Failing, Processed, SegmentCount, Nested, Begun;
      ghost var (jobsBefore, sentBefore) := (jobs, sent);
      FailingStarts(jobs, sent, segments);
      for k := 0 to |segments|
        invariant history == old(history)
        invariant Failing(jobsBefore, sentBefore, segments, k, jobs, sent)
      {
        FailingStep(jobsBefore, sentBefore, segments, k, jobs, sent, reason);
        var failed := FailOne(jobs, sent, segments[k].jobIndex, reason);
        jobs, sent := failed.0, failed.1;
      }
      FailedAll(plan, history, handled, jobsBefore, sentBefore, segments, jobs, sent);
      BegunStep(history, FailedBatch(segments));
      history := history + [FailedBatch(segments)];
    }

    /** One micro-batch of segments, from the entry of its jobs to their answers. */
    method RunSegmentBatch(segments: seq<Segment>, ghost plan: Plan)
      requires Sound(plan) && Awaited(plan, handled, segments) && 1 <= |segments| <= Max(maxBatchSize, 1)
      modifies this
      ensures Sound(plan) && handled == old(handled) + AsMessages(segments) && pending == old(pending)
      ensures Begun(history) == old(Begun(history)) + [segments]
    {
      hide JobRight, Genuine, OthersTally, OthersGenuine, HistoryOf, AllRight, Awaited, MessageAnswer, Nested, Begun,
           SegmentsIn, Flatten, EventSegments, OnlySegmentJobs, SegmentCount, SegmentsOf, Processed;
      ghost var before := sent;
      HistorySegments(history, handled);
      BegunStep(history, Began(segments));
      FlattenMore(Begun(history), segments);
      PrepareSegmentJobState(segments, plan);
      BeganGenuine(asr, segments);
      ghost var call := calls;
      var batch := TranscribeBatch(WavesOf(segments));
      if batch.Ok? && |batch.value| == |segments| {
        AllGenuine(asr, call, segments, batch.value);
        FinishSegments(segments, batch.value, plan);
      } else {
        FailureGenuine(asr, call, segments);
        FailSegments(segments, "ASR segment batch failed", plan);
      }
      HandledBatch(plan, history, handled, segments, sent);
      SegmentsKeepOthers(asr, plan, handled, before, sent, AsMessages(segments));
      handled := handled + AsMessages(segments);
    }

    // ----- micro-batches

    /** A first segment's companions: those already there, then those that arrive in time. Anything else is
        set aside. */
    method CollectSegmentMicrobatch(first: Segment, rx: Channel) returns (segments: seq<Segment>)
      modifies this`pending, rx
      ensures 1 <= |segments| <= Max(maxBatchSize, 1) && segments[0] == first
      ensures Regrouped([SegmentMessage(first)] + old(pending) + old(rx.queue), AsMessages(segments), pending, rx.queue)
      ensures TookSegments(maxBatchSize, first, old(pending), old(rx.queue), segments, pending, rx.queue)
      ensures rx.AlwaysReady() ==> |segments| == Max(maxBatchSize, 1) || rx.queue == []
    {
      hide TookSegments;
      segments := [first];
      ghost var all := [SegmentMessage(first)] + pending + rx.queue;
      TookNothing(maxBatchSize, first, AsrJob(0, Disabled, [], 0.0), pending, rx.queue);
      assert AsMessages(segments) == [SegmentMessage(first)];
      if maxBatchSize <= 1 {
        return;
      }
      var open := true;
      while |segments| < maxBatchSize && open
        invariant 1 <= |segments| <= maxBatchSize && segments[0] == first
        invariant Regrouped(all, AsMessages(segments), pending, rx.queue)
        invariant TookSegments(maxBatchSize, first, old(pending), old(rx.queue), segments, pending, rx.queue)
        decreases |rx.queue|, open
      {
        ghost var p, q := pending, rx.queue;
        ghost var taken := segments;
        segments, open := TakeSegment(all, segments, rx);
        if open {
          TookOneMore(maxBatchSize, first, old(pending), old(rx.queue), taken, p, q);
        }
      }
      open := |segments| < maxBatchSize;
      while |segments| < maxBatchSize && open
        invariant 1 <= |segments| <= maxBatchSize && segments[0] == first
        invariant Regrouped(all, AsMessages(segments), pending, rx.queue)
        invariant TookSegments(maxBatchSize, first, old(pending), old(rx.queue), segments, pending, rx.queue)
        invariant !open ==> |segments| == maxBatchSize || rx.queue == [] || !rx.AlwaysReady()
        decreases |rx.queue|, open
      {
        ghost var p, q := pending, rx.queue;
        ghost var taken := segments;
        segments, open := TakeSegment(all, segments, rx);
        if open {
          TookOneMore(maxBatchSize, first, old(pending), old(rx.queue), taken, p, q);
        }
      }
    }

    /** One attempt to receive a segment: take it, or set aside what came instead. */
    method TakeSegment(ghost all: seq<Message>, taken: seq<Segment>, rx: Channel)
      returns (segments: seq<Segment>, received: bool)
      requires Regrouped(all, AsMessages(taken), pending, rx.queue)
      modifies this`pending, rx
      ensures Regrouped(all, AsMessages(segments), pending, rx.queue)
      ensures if received then old(rx.queue) != [] && rx.queue == old(rx.queue)[1..]
              else segments == taken && pending == old(pending) && rx.queue == old(rx.queue)
      ensures received ==>
                var m := old(rx.queue)[0];
                if m.SegmentMessage? then segments == taken + [m.segment] && pending == old(pending)
                else segments == taken && pending == old(pending) + [m]
      ensures !received ==> rx.queue == [] || !rx.AlwaysReady()
    {
      segments := taken;
      var m := rx.TryRecv();
      received := m.Some?;
      if m.None? {
        return;
      }
      if m.value.SegmentMessage? {
        RegroupTake(all, AsMessages(taken), pending, old(rx.queue));
        segments := segments + [m.value.segment];
        assert AsMessages(segments) == AsMessages(taken) + [m.value];
      } else {
        RegroupHold(all, AsMessages(taken), pending, old(rx.queue));
        pending := pending + [m.value];
      }
    }

    /** A first job's companions: those already there, then whatever arrives until the batch is full or the
        senders are gone. Segments are set aside. */
    method CollectJobMicrobatch(first: AsrJob, rx: Channel) returns (messages: seq<Message>)
      modifies this`pending, rx
      ensures 1 <= |messages| <= Max(maxBatchSize, 1) && messages[0] == JobMessage(first)
      ensures forall m :: m in messages ==> !m.SegmentMessage?
      ensures Regrouped([JobMessage(first)] + old(pending) + old(rx.queue), messages, pending, rx.queue)
      ensures TookJobs(maxBatchSize, first, old(pending), old(rx.queue), messages, pending, rx.queue)
      ensures |messages| == Max(maxBatchSize, 1) || rx.queue == []
    {
      hide TookJobs;
      messages := [JobMessage(first)];
      ghost var all := [JobMessage(first)] + pending + rx.queue;
      TookNothing(maxBatchSize, Segment(0, 0.0, [], 0, 0, []), first, pending, rx.queue);
      if maxBatchSize <= 1 {
        return;
      }
      var open := true;
      while |messages| < maxBatchSize && open
        invariant 1 <= |messages| <= maxBatchSize && messages[0] == JobMessage(first)
        invariant forall m :: m in messages ==> !m.SegmentMessage?
        invariant Regrouped(all, messages, pending, rx.queue)
        invariant TookJobs(maxBatchSize, first, old(pending), old(rx.queue), messages, pending, rx.queue)
        decreases |rx.queue|, open
      {
        ghost var p, q := pending, rx.queue;
        ghost var taken := messages;
        messages, open := TakeJob(all, messages, rx, false);
        if open {
          TookOneMoreJob(maxBatchSize, first, old(pending), old(rx.queue), taken, p, q);
        }
      }
      open := |messages| < maxBatchSize;
      while |messages| < maxBatchSize && open
        invariant 1 <= |messages| <= maxBatchSize && messages[0] == JobMessage(first)
        invariant forall m :: m in messages ==> !m.SegmentMessage?
        invariant Regrouped(all, messages, pending, rx.queue)
        invariant TookJobs(maxBatchSize, first, old(pending), old(rx.queue), messages, pending, rx.queue)
        invariant !open ==> |messages| == maxBatchSize || rx.queue == []
        decreases |rx.queue|, open
      {
        ghost var p, q := pending, rx.queue;
        ghost var taken := messages;
        messages, open := TakeJob(all, messages, rx, true);
        if open {
          TookOneMoreJob(maxBatchSize, first, old(pending), old(rx.queue), taken, p, q);
        }
      }
    }

    /** One attempt to receive a job or a failure, waiting for it if need be; a segment is set aside. */
    method TakeJob(ghost all: seq<Message>, taken: seq<Message>, rx: Channel, wait: bool)
      returns (messages: seq<Message>, received: bool)
      requires Regrouped(all, taken, pending, rx.queue) && forall m :: m in taken ==> !m.SegmentMessage?
      modifies this`pending, rx
      ensures Regrouped(all, messages, pending, rx.queue) && forall m :: m in messages ==> !m.SegmentMessage?
      ensures if received then old(rx.queue) != [] && rx.queue == old(rx.queue)[1..]
              else messages == taken && pending == old(pending) && rx.queue == old(rx.queue)
      ensures received ==>
                var m := old(rx.queue)[0];
                if m.SegmentMessage? then messages == taken && pending == old(pending) + [m]
                else messages == taken + [m] && pending == old(pending)
      ensures !received && wait ==> rx.queue == []
    {
      messages := taken;
      var m;
      if wait {
        m := rx.Recv();
      } else {
        m := rx.TryRecv();
      }
      received := m.Some?;
      if m.None? {
        return;
      }
      if m.value.SegmentMessage? {
        RegroupHold(all, taken, pending, old(rx.queue));
        pending := pending + [m.value];
      } else {
        RegroupTake(all, taken, pending, old(rx.queue));
        messages := messages + [m.value];
      }
    }

    // ----- jobs recognised whole

    /** One outcome for each job of the batch, from the recogniser's answer for that job's own samples. */
    method RunAsrJobsBatch(batch: seq<AsrJob>) returns (outcomes: seq<ItemOutcome>)
      modifies this`calls
      ensures Tally(batch, outcomes, []) && AllAnswer(asr, batch, outcomes) && SortedByIndex(outcomes)
    {
      hide Tally, JobAnswer, AllAnswer, Recognised;
      outcomes := [];
      var raw: seq<AsrJob> := [];
      TallyNothing(asr, batch);
      for k := 0 to |batch|
        invariant Tally(batch[..k], outcomes, raw) && AllAnswer(asr, batch[..k], outcomes)
        invariant forall job :: job in raw ==> job in batch && !job.kind.NoSpeech?
      {
        var job := batch[k];
        assert batch[..k + 1] == batch[..k] + [job];
        match job.kind {
          case NoSpeech =>
            var o := ItemOutcome(job.index, Ok([]), job.audioSeconds);
            SilentAnswer(asr, job);
            TallyAnswered(asr, batch[..k], outcomes, raw, job, o);
            outcomes := outcomes + [o];
          case FullSpeech(_) =>
            TallyRaw(asr, batch[..k], outcomes, raw, job);
            raw := raw + [job];
          case Disabled =>
            TallyRaw(asr, batch[..k], outcomes, raw, job);
            raw := raw + [job];
        }
      }
      assert batch[..|batch|] == batch;
      ghost var before := outcomes;
      RecognisedNothing(asr, batch, raw, outcomes);
      if raw != [] {
        var waves: seq<seq<real>> := seq(|raw|, k requires 0 <= k < |raw| => raw[k].waveform);
        ghost var call := calls;
        var result := TranscribeBatch(waves);
        var complete := result.Ok? && |result.value| == |raw|;
        for k := 0 to |raw|
          invariant Recognised(asr, batch, raw, k, before, outcomes)
        {
          assert raw[k] in raw && waves[k] in waves;
          var answer: Outcome<Timeline> :=
            if complete then Ok(SpeechOf(raw[k]) + result.value[k]) else Err("ASR batch failed");
          var o := ItemOutcome(raw[k].index, answer, raw[k].audioSeconds);
          RawAnswer(asr, raw[k], call, waves, k, o);
          RecognisedStep(asr, batch, raw, k, before, outcomes, o);
          outcomes := outcomes + [o];
        }
      }
      BatchSorted(asr, batch, raw, before, outcomes);
      outcomes := SortByIndex(outcomes);
    }

    /** A micro-batch of jobs: failures are passed on, the jobs recognised together. */
    method RunJobBatch(messages: seq<Message>, ghost plan: Plan)
      requires Sound(plan) && forall m :: m in messages ==> Whole(plan, m)
      modifies this
      ensures Sound(plan) && handled == old(handled) + messages && pending == old(pending)
      ensures history == old(history)
    {
      hide Books, Whole, Nested, Begun;
      var batch: seq<AsrJob> := [];
      for k := 0 to |messages|
        invariant Books(asr, plan, history, jobs, handled, sent, batch)
        invariant handled == old(handled) + messages[..k] && pending == old(pending) && history == old(history)
      {
        var m := messages[k];
        assert m in messages;
        WholeKind(plan, m);
        match m {
          case FailureMessage(outcome) =>
            FailurePassed(asr, plan, history, jobs, handled, sent, batch, m);
            sent := sent + [outcome];
          case JobMessage(job) =>
            JobTaken(asr, plan, history, jobs, handled, sent, batch, m);
            batch := batch + [job];
        }
        handled := handled + [m];
      }
      assert messages[..|messages|] == messages;
      if batch != [] {
        var outcomes := RunAsrJobsBatch(batch);
        BatchSettled(asr, plan, history, jobs, handled, sent, batch, outcomes);
        sent := sent + outcomes;
      }
    }

    // ----- the worker's loop

    /** Messages set aside come before new ones. */
    method RecvAsrMessage(rx: Channel) returns (m: Option<Message>)
      modifies this`pending, rx
      ensures m.None? ==> old(pending) == [] && old(rx.queue) == [] && pending == [] && rx.queue == []
      ensures m.Some? ==> old(pending + rx.queue) == [m.value] + (pending + rx.queue)
      ensures m.Some? ==>
                if old(pending) != []
                then m.value == old(pending)[0] && pending == old(pending)[1..] && rx.queue == old(rx.queue)
                else
                  && old(rx.queue) != [] && m.value == old(rx.queue)[0]
                  && pending == [] && rx.queue == old(rx.queue)[1..]
    {
      if pending != [] {
        m := Some(pending[0]);
        pending := pending[1..];
      } else {
        m := rx.Recv();
      }
    }

    /** One message, with the companions its batch collects. */
    method Handle(m: Message, rx: Channel, ghost plan: Plan, ghost all: seq<Message>)
      requires WellSent(plan, all) && Sound(plan)
      requires multiset(all) == multiset(handled) + multiset([m] + pending + rx.queue)
      modifies this, rx
      ensures Sound(plan) && Conserved(all, handled, [], pending, rx.queue)
      ensures |pending| + |rx.queue| <= old(|pending| + |rx.queue|)
      ensures LoopTakes(maxBatchSize, rx.AlwaysReady(), m, Loop(old(Begun(history)), old(pending), old(rx.queue)),
                        Loop(Begun(history), pending, rx.queue))
    {
      hide Books, WellSent, Whole, Awaited, Conserved, Regrouped, TookSegments, TookJobs, Begun, Aligned;
      ghost var before := [m] + pending + rx.queue;
      match m {
        case SegmentMessage(first) =>
          var segments := CollectSegmentMicrobatch(first, rx);
          BatchConserved(all, handled, before, AsMessages(segments), pending, rx.queue);
          BatchAwaited(plan, all, handled, segments, pending, rx.queue);
          RunSegmentBatch(segments, plan);
        case JobMessage(first) =>
          var messages := CollectJobMicrobatch(first, rx);
          BatchConserved(all, handled, before, messages, pending, rx.queue);
          BatchWhole(plan, all, handled, messages, pending, rx.queue);
          RunJobBatch(messages, plan);
        case FailureMessage(outcome) =>
          RegroupedAlone(m, pending, rx.queue);
          BatchConserved(all, handled, before, [m], pending, rx.queue);
          BatchWhole(plan, all, handled, [m], pending, rx.queue);
          assert m in [m];
          FailurePassed(asr, plan, history, jobs, handled, sent, [], m);
          sent := sent + [outcome];
          handled := handled + [m];
      }
    }

    /** Until every sender is gone: each message is handled, none twice. */
    method Run(rx: Channel, ghost plan: Plan)
      requires jobs == map[] && pending == [] && sent == [] && history == [] && handled == []
      requires WellSent(plan, rx.queue)
      modifies this, rx
      ensures pending == [] && rx.queue == []
      ensures multiset(handled) == multiset(old(rx.queue)) && Sound(plan)
      ensures LoopEnds(maxBatchSize, rx.AlwaysReady(), Loop([], [], old(rx.queue)), Begun(history))
    {
      hide Books, WellSent, Conserved, LoopTakes, LoopEnds, LeadsTo, Begun, Aligned;
      ghost var all := rx.queue;
      NothingHandled(all);
      ghost var start := Loop([], [], all);
      NothingYet(asr, plan);
      NothingAligned();
      LoopStarts(maxBatchSize, rx.AlwaysReady(), start);
      while true
        invariant Sound(plan) && Conserved(all, handled, [], pending, rx.queue)
        invariant LeadsTo(maxBatchSize, rx.AlwaysReady(), start, Loop(Begun(history), pending, rx.queue))
        decreases |pending| + |rx.queue|
      {
        ghost var p, q := pending, rx.queue;
        ghost var now := Loop(Begun(history), pending, rx.queue);
        var m := RecvAsrMessage(rx);
        if m.None? {
          LoopOver(maxBatchSize, rx.AlwaysReady(), start, now);
          AllConserved(all, handled);
          return;
        }
        NextConserved(all, handled, p, q, m.value, pending, rx.queue);
        Handle(m.value, rx, plan, all);
        LoopGoesOn(maxBatchSize, rx.AlwaysReady(), start, now, Loop(Begun(history), pending, rx.queue));
      }
    }
  }
}
