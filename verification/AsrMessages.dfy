/** Messages on their way to the ASR worker, and how many of them concern a job. */
module AsrMessages {
  import opened Prelude
  import opened SegmentJobs

  datatype JobKind = NoSpeech | FullSpeech(speech: seq<Annotation>) | Disabled

  datatype AsrJob = AsrJob(index: nat, kind: JobKind, waveform: seq<real>, audioSeconds: real)

  datatype Message = JobMessage(job: AsrJob) | SegmentMessage(segment: Segment) | FailureMessage(outcome: ItemOutcome)

  predicate IsSegmentOf(m: Message, j: nat) {
    m.SegmentMessage? && m.segment.jobIndex == j
  }

  predicate IsOtherOf(m: Message, j: nat) {
    (m.JobMessage? && m.job.index == j) || (m.FailureMessage? && m.outcome.index == j)
  }

  /** Segments of the job, and whole-job or failure messages of the job. */
  ghost function SegmentCount(messages: seq<Message>, j: nat): nat {
    if messages ==
      [] then 0 else SegmentCount(messages[..|messages| - 1], j) + if IsSegmentOf(messages[|messages| - 1], j) then 1
        else 0
  }

  ghost function OtherCount(messages: seq<Message>, j: nat): nat {
    if messages ==
      [] then 0 else OtherCount(messages[..|messages| - 1], j) + if IsOtherOf(messages[|messages| - 1], j) then 1 else 0
  }

  /** The segments among the messages, in order. */
  ghost function SegmentsIn(messages: seq<Message>): seq<Segment> {
    if messages == [] then [] else
      var m := messages[|messages| - 1];
      SegmentsIn(messages[..|messages| - 1]) + if m.SegmentMessage? then [m.segment] else []
  }

  /** The messages that are no segments, in order. */
  ghost function NotSegments(messages: seq<Message>): seq<Message> {
    if messages == [] then [] else
      var m := messages[|messages| - 1];
      NotSegments(messages[..|messages| - 1]) + if m.SegmentMessage? then [] else [m]
  }

  /** The messages that are segments, in order. */
  ghost function SegmentMessages(messages: seq<Message>): seq<Message> {
    if messages == [] then [] else
      var m := messages[|messages| - 1];
      SegmentMessages(messages[..|messages| - 1]) + if m.SegmentMessage? then [m] else []
  }

  lemma NextArrival(queue: seq<Message>, n: nat)
    requires n < |queue|
    ensures SegmentsIn(queue[..n + 1]) ==
              SegmentsIn(queue[..n]) + if queue[n].SegmentMessage? then [queue[n].segment] else []
    ensures NotSegments(queue[..n + 1]) == NotSegments(queue[..n]) + if queue[n].SegmentMessage? then [] else [queue[n]]
    ensures SegmentMessages(queue[..n + 1]) ==
              SegmentMessages(queue[..n]) + if queue[n].SegmentMessage? then [queue[n]] else []
  {
    assert queue[..n + 1][..n] == queue[..n];
  }

  /** A micro-batch took the first `n` arrivals: their segments join the first one, everything else is set aside. It
      stops when it is full. */
  ghost predicate TookSegments(cap: nat, first: Segment, pending: seq<Message>, queue: seq<Message>,
                               segments: seq<Segment>, pending': seq<Message>, queue': seq<Message>)
  {
    |queue'| <= |queue| &&
    var n := |queue| - |queue'|;
    && queue' == queue[n..]
    && segments == [first] + SegmentsIn(queue[..n])
    && pending' == pending + NotSegments(queue[..n])
    && forall k: nat :: k < n ==> |SegmentsIn(queue[..k])| + 1 < cap
  }

  /** The other way round: jobs and failures join the first job, segments are set aside. */
  ghost predicate TookJobs(cap: nat, first: AsrJob, pending: seq<Message>, queue: seq<Message>,
                           messages: seq<Message>, pending': seq<Message>, queue': seq<Message>)
  {
    |queue'| <= |queue| &&
    var n := |queue| - |queue'|;
    && queue' == queue[n..]
    && messages == [JobMessage(first)] + NotSegments(queue[..n])
    && pending' == pending + SegmentMessages(queue[..n])
    && forall k: nat :: k < n ==> |NotSegments(queue[..k])| + 1 < cap
  }

  lemma TookNothing(cap: nat, segment: Segment, job: AsrJob, pending: seq<Message>, queue: seq<Message>)
    ensures TookSegments(cap, segment, pending, queue, [segment], pending, queue)
    ensures TookJobs(cap, job, pending, queue, [JobMessage(job)], pending, queue)
  {
    assert queue[..0] == [] && queue[0..] == queue;
  }

  lemma TookOneMore(cap: nat, first: Segment, pending: seq<Message>, queue: seq<Message>, segments: seq<Segment>,
                    pending': seq<Message>, queue': seq<Message>)
    requires TookSegments(cap, first, pending, queue, segments, pending', queue')
    requires queue' != [] && |segments| < cap
    ensures var m := queue'[0];
            if m.SegmentMessage?
            then TookSegments(cap, first, pending, queue, segments + [m.segment], pending', queue'[1..])
            else TookSegments(cap, first, pending, queue, segments, pending' + [m], queue'[1..])
  {
    hide SegmentsIn, NotSegments, SegmentMessages;
    var n := |queue| - |queue'|;
    NextArrival(queue, n);
    assert queue'[0] == queue[n] && queue'[1..] == queue[n + 1..];
  }

  lemma TookOneMoreJob(cap: nat, first: AsrJob, pending: seq<Message>, queue: seq<Message>, messages: seq<Message>,
                       pending': seq<Message>, queue': seq<Message>)
    requires TookJobs(cap, first, pending, queue, messages, pending', queue')
    requires queue' != [] && |messages| < cap
    ensures var m := queue'[0];
            if m.SegmentMessage?
            then TookJobs(cap, first, pending, queue, messages, pending' + [m], queue'[1..])
            else TookJobs(cap, first, pending, queue, messages + [m], pending', queue'[1..])
  {
    hide SegmentsIn, NotSegments, SegmentMessages;
    var n := |queue| - |queue'|;
    NextArrival(queue, n);
    assert queue'[0] == queue[n] && queue'[1..] == queue[n + 1..];
  }

  lemma {:induction false} CountsAdd(a: seq<Message>, b: seq<Message>, j: nat)
    ensures SegmentCount(a + b, j) == SegmentCount(a, j) + SegmentCount(b, j)
    ensures OtherCount(a + b, j) == OtherCount(a, j) + OtherCount(b, j)
  {
    if b == [] {
      assert a + b == a;
    } else {
      CountsAdd(a, b[..|b| - 1], j);
      assert (a + b)[..|a + b| - 1] == a + b[..|b| - 1];
    }
  }

  lemma WithoutOne(a: seq<Message>, i: nat)
    requires i < |a|
    ensures multiset(a) == multiset(a[..i] + a[i + 1..]) + multiset{a[i]}
  {
    assert a == a[..i] + [a[i]] + a[i + 1..];
  }

  /** The last message of one order is somewhere in the other; without it the orders still agree. */
  lemma LastElsewhere(a: seq<Message>, b: seq<Message>) returns (i: nat)
    requires multiset(a) == multiset(b) && a != []
    ensures i < |b| && b[i] == a[|a| - 1] && multiset(a[..|a| - 1]) == multiset(b[..i] + b[i + 1..])
  {
    var k := |a| - 1;
    var m := a[k];
    assert m in multiset(a);
    assert m in b;
    i :| 0 <= i < |b| && b[i] == m;
    WithoutOne(a, k);
    WithoutOne(b, i);
    assert a[..k] + a[k + 1..] == a[..k];
    assert multiset(a[..k]) == multiset(a) - multiset{m} == multiset(b) - multiset{m} == multiset(b[..i] + b[i + 1..]);
  }

  /** The counts do not depend on the order. */
  lemma {:induction false} CountsUnordered(a: seq<Message>, b: seq<Message>, j: nat)
    requires multiset(a) == multiset(b)
    ensures SegmentCount(a, j) == SegmentCount(b, j) && OtherCount(a, j) == OtherCount(b, j)
    decreases |a|
  {
    hide SegmentCount, OtherCount;
    if a == [] {
      assert multiset(b) == multiset{};
      assert b == [];
    } else {
      var k := |a| - 1;
      var i := LastElsewhere(a, b);
      CountsUnordered(a[..k], b[..i] + b[i + 1..], j);
      assert a == a[..k] + [a[k]] && b == b[..i] + [a[k]] + b[i + 1..];
      CountsAdd(a[..k], [a[k]], j);
      CountsAdd(b[..i] + [a[k]], b[i + 1..], j);
      CountsAdd(b[..i], [a[k]], j);
      CountsAdd(b[..i], b[i + 1..], j);
    }
  }

  /** The messages set aside or still to arrive are now partly taken; none is lost or duplicated. */
  ghost predicate Regrouped(all: seq<Message>, taken: seq<Message>, pending: seq<Message>, queue: seq<Message>) {
    multiset(all) == multiset(taken) + multiset(pending) + multiset(queue)
  }

  lemma FirstArrival(queue: seq<Message>)
    requires queue != []
    ensures multiset(queue) == multiset{queue[0]} + multiset(queue[1..])
  {
    assert queue == [queue[0]] + queue[1..];
  }

  lemma RegroupedAlone(m: Message, pending: seq<Message>, queue: seq<Message>)
    ensures Regrouped([m] + pending + queue, [m], pending, queue)
  {
  }

  lemma RegroupTake(all: seq<Message>, taken: seq<Message>, pending: seq<Message>, queue: seq<Message>)
    requires Regrouped(all, taken, pending, queue) && queue != []
    ensures Regrouped(all, taken + [queue[0]], pending, queue[1..])
  {
    FirstArrival(queue);
  }

  lemma RegroupHold(all: seq<Message>, taken: seq<Message>, pending: seq<Message>, queue: seq<Message>)
    requires Regrouped(all, taken, pending, queue) && queue != []
    ensures Regrouped(all, taken, pending + [queue[0]], queue[1..])
  {
    FirstArrival(queue);
  }

  function AsMessages(segments: seq<Segment>): (messages: seq<Message>)
    ensures |messages| == |segments|
  {
    seq(|segments|, k requires 0 <= k < |segments| => SegmentMessage(segments[k]))
  }

  lemma {:induction false} SegmentsCount(segments: seq<Segment>, j: nat)
    ensures SegmentCount(AsMessages(segments), j) == SegmentsOf(segments, j) && OtherCount(AsMessages(segments), j) == 0
  {
    if segments != [] {
      SegmentsCount(segments[..|segments| - 1], j);
      assert AsMessages(segments)[..|segments| - 1] == AsMessages(segments[..|segments| - 1]);
    }
  }

  /** What the stages before the worker send: each segment says how many its job has, and a job sends
      either segments, or one message for the whole of it. */
  ghost predicate WellSent(plan: Plan, all: seq<Message>) {
    && (forall j: nat :: plan.count(j) == SegmentCount(all, j))
    && (forall j: nat :: OtherCount(all, j) <= 1 && (plan.count(j) > 0 ==> OtherCount(all, j) == 0))
    && (forall m :: m in all && m.SegmentMessage? ==> FromPlan(plan, m.segment))
    && (forall m :: m in all && m.FailureMessage? ==> m.outcome.result.Err?)
  }

  type Recognise = (nat, seq<seq<real>>) -> Outcome<seq<Timeline>>

  function WavesOf(segments: seq<Segment>): (waves: seq<seq<real>>)
    ensures |waves| == |segments| && forall k :: 0 <= k < |segments| ==> waves[k] == segments[k].waveform
  {
    seq(|segments|, k requires 0 <= k < |segments| => segments[k].waveform)
  }

  /** The call returned one timeline per input. */
  predicate Complete(asr: Recognise, call: nat, waves: seq<seq<real>>) {
    asr(call, waves).Ok? && |asr(call, waves).value| == |waves|
  }

  /** The event's timeline is what the recogniser returned for the segment's samples; the call of a failed
      batch was for the samples of its segments. */
  ghost predicate Genuine(asr: Recognise, e: Event) {
    match e
    case Began(_) => true
    case Done(s, t) =>
      exists call, waves, k: nat ::
        k < |waves| && Complete(asr, call, waves) && waves[k] == s.waveform && asr(call, waves).value[k] == t
    case FailedBatch(segments) => exists call :: !Complete(asr, call, WavesOf(segments))
  }

  /** Messages still to arrive, in arrival order; `ready(n)` tells whether the next one is there when the
      worker polls for the `n`-th time. */
  class Channel {
    const ready: nat -> bool
    var queue: seq<Message>
    var polls: nat

    /** Nothing keeps the worker waiting: whatever will arrive is there when it polls. */
    ghost predicate AlwaysReady() {
      forall n :: ready(n)
    }

    constructor (ready: nat -> bool, queue: seq<Message>)
      ensures this.ready == ready && this.queue == queue
    {
      this.ready, this.queue, this.polls := ready, queue, 0;
    }

    /** Wait for the next message; nothing when all senders are gone. */
    method Recv() returns (m: Option<Message>)
      modifies this
      ensures if old(queue) == [] then m == None && queue == []
              else m == Some(old(queue)[0]) && queue == old(queue)[1..]
    {
      if queue == [] {
        return None;
      }
      m := Some(queue[0]);
      queue := queue[1..];
    }

    /** The next message if it is there already, or arrives in time. */
    method TryRecv() returns (m: Option<Message>)
      modifies this
      ensures m.None? ==> queue == old(queue) && (old(queue) == [] || !AlwaysReady())
      ensures m.Some? ==> old(queue) != [] && m == Some(old(queue)[0]) && queue == old(queue)[1..]
    {
      polls := polls + 1;
      if queue == [] || !ready(polls) {
        return None;
      }
      m := Some(queue[0]);
      queue := queue[1..];
    }
  }
}
