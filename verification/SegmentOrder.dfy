/** The order in which the segments of jobs are recognised: segments that the worker has set aside are overtaken by
    later ones. */
module SegmentOrder {
  import opened Prelude
  import opened SegmentJobs
  import opened AsrMessages
  import opened SegmentBatches

  /** The batches that have begun, in order. */
  ghost function Begun(history: seq<Event>): seq<seq<Segment>> {
    if history == [] then [] else
      var e := history[|history| - 1];
      Begun(history[..|history| - 1]) + if e.Began? then [e.batch] else []
  }

  lemma BegunStep(history: seq<Event>, e: Event)
    ensures Begun(history + [e]) == Begun(history) + if e.Began? then [e.batch] else []
    ensures EventSegments(history + [e]) == EventSegments(history) + SegmentsOfEvent(e)
    ensures Nested(history + [e]) <==>
              Nested(history) && (e.Began? ==> Flatten(Begun(history)) == EventSegments(history))
  {
    assert (history + [e])[..|history|] == history;
  }

  /** A batch begins only when the ones before are done with. */
  ghost predicate Nested(history: seq<Event>) {
    history == [] ||
    var (before, e) := (history[..|history| - 1], history[|history| - 1]);
    Nested(before) && (e.Began? ==> Flatten(Begun(before)) == EventSegments(before))
  }

  /** Every batch that has begun is done with. */
  ghost predicate Aligned(history: seq<Event>) {
    Nested(history) && Flatten(Begun(history)) == EventSegments(history)
  }

  // ----- the worker's loop, as far as the order of segments goes

  /** The batches begun so far, the messages set aside, and those still to arrive. */
  datatype Loop = Loop(batches: seq<seq<Segment>>, pending: seq<Message>, queue: seq<Message>)

  /** What the message `m` makes of the loop; `ready` says that the worker never waits for an arrival in vain. */
  ghost predicate LoopTakes(cap: nat, ready: bool, m: Message, s: Loop, s': Loop) {
    match m
    case SegmentMessage(first) =>
      exists segments ::
        && TookSegments(cap, first, s.pending, s.queue, segments, s'.pending, s'.queue)
        && s'.batches == s.batches + [segments]
        && |segments| <= Max(cap, 1) && (ready ==> |segments| == Max(cap, 1) || s'.queue == [])
    case JobMessage(first) =>
      exists messages ::
        && TookJobs(cap, first, s.pending, s.queue, messages, s'.pending, s'.queue)
        && s'.batches == s.batches
        && |messages| <= Max(cap, 1) && (|messages| == Max(cap, 1) || s'.queue == [])
    case FailureMessage(_) => s' == s
  }

  /** The next message: set-aside ones first. */
  ghost predicate LoopStep(cap: nat, ready: bool, s: Loop, s': Loop) {
    if s.pending != [] then LoopTakes(cap, ready, s.pending[0], s.(pending := s.pending[1..]), s')
    else s.queue != [] && LoopTakes(cap, ready, s.queue[0], s.(queue := s.queue[1..]), s')
  }

  /** From `s` the loop can end with these batches. */
  ghost predicate LoopEnds(cap: nat, ready: bool, s: Loop, batches: seq<seq<Segment>>)
    decreases |s.pending| + |s.queue|
  {
    if s.pending == [] && s.queue == [] then batches == s.batches
    else exists s': Loop ::
           && |s'.pending| + |s'.queue| < |s.pending| + |s.queue|
           && LoopStep(cap, ready, s, s') && LoopEnds(cap, ready, s', batches)
  }

  /** However the loop ends from `s`, it can end that way from `start`. */
  ghost predicate LeadsTo(cap: nat, ready: bool, start: Loop, s: Loop) {
    forall b :: LoopEnds(cap, ready, s, b) ==> LoopEnds(cap, ready, start, b)
  }

  lemma LoopStarts(cap: nat, ready: bool, start: Loop)
    ensures LeadsTo(cap, ready, start, start)
  {
  }

  lemma LoopOver(cap: nat, ready: bool, start: Loop, s: Loop)
    requires LeadsTo(cap, ready, start, s) && s.pending == [] && s.queue == []
    ensures LoopEnds(cap, ready, start, s.batches)
  {
    assert LoopEnds(cap, ready, s, s.batches);
  }

  lemma NothingAligned()
    ensures Aligned([]) && Begun([]) == []
  {
  }

  lemma HistorySegments(history: seq<Event>, handled: seq<Message>)
    requires HistoryOf(history, handled)
    ensures EventSegments(history) == SegmentsIn(handled)
  {
  }

  lemma LoopGoesOn(cap: nat, ready: bool, start: Loop, s: Loop, s': Loop)
    requires LeadsTo(cap, ready, start, s)
    requires LoopStep(cap, ready, s, s') && |s'.pending| + |s'.queue| < |s.pending| + |s.queue|
    ensures LeadsTo(cap, ready, start, s')
  {
    hide LoopStep;
    forall b | LoopEnds(cap, ready, s', b)
      ensures LoopEnds(cap, ready, start, b)
    {
      assert LoopEnds(cap, ready, s, b);
    }
  }

  // ----- when the order is kept

  /** Either nothing is batched, or there are no messages that segments are set aside for. */
  predicate Orderly(cap: nat, messages: seq<Message>) {
    cap <= 1 || forall m :: m in messages ==> !m.JobMessage?
  }

  /** The segments recognised and to come are in the order of `order`, and none is set aside. */
  ghost predicate InOrder(s: Loop, order: seq<Segment>) {
    SegmentsIn(s.pending) == [] && Flatten(s.batches) + SegmentsIn(s.queue) == order
  }

  lemma {:induction false} SegmentsConcat(a: seq<Message>, b: seq<Message>)
    ensures SegmentsIn(a + b) == SegmentsIn(a) + SegmentsIn(b)
    ensures NotSegments(a + b) == NotSegments(a) + NotSegments(b)
  {
    if b == [] {
      assert a + b == a;
    } else {
      SegmentsConcat(a, b[..|b| - 1]);
      assert (a + b)[..|a + b| - 1] == a + b[..|b| - 1];
    }
  }

  lemma SegmentsOfFirst(messages: seq<Message>)
    requires messages != []
    ensures SegmentsIn(messages) ==
              (if messages[0].SegmentMessage? then [messages[0].segment] else []) + SegmentsIn(messages[1..])
  {
    assert messages == [messages[0]] + messages[1..];
    SegmentsConcat([messages[0]], messages[1..]);
    assert [messages[0]][..0] == [];
  }

  lemma {:induction false} NoneInOthers(messages: seq<Message>)
    ensures SegmentsIn(NotSegments(messages)) == []
    ensures forall m :: m in NotSegments(messages) ==> m in messages
  {
    if messages != [] {
      var n := |messages| - 1;
      NoneInOthers(messages[..n]);
      SegmentsConcat(NotSegments(messages[..n]), [messages[n]]);
      assert [messages[n]][..0] == [];
      assert NotSegments(messages[..n]) + [] == NotSegments(messages[..n]);
    }
  }

  lemma FlattenMore(batches: seq<seq<Segment>>, batch: seq<Segment>)
    ensures Flatten(batches + [batch]) == Flatten(batches) + batch
  {
    assert (batches + [batch])[..|batches|] == batches;
  }

  /** A batch of segments takes them in the order of their arrival. */
  lemma SegmentsTakenInOrder(cap: nat, first: Segment, s: Loop, segments: seq<Segment>, s': Loop, order: seq<Segment>)
    requires TookSegments(cap, first, s.pending, s.queue, segments, s'.pending, s'.queue)
    requires s'.batches == s.batches + [segments]
    requires SegmentsIn(s.pending) == [] && Flatten(s.batches) + ([first] + SegmentsIn(s.queue)) == order
    ensures InOrder(s', order) && forall m :: m in s'.pending + s'.queue ==> m in s.pending + s.queue
  {
    hide SegmentsIn, NotSegments, Flatten;
    var n := |s.queue| - |s'.queue|;
    assert s.queue == s.queue[..n] + s.queue[n..];
    SegmentsConcat(s.queue[..n], s.queue[n..]);
    NoneInOthers(s.queue[..n]);
    SegmentsConcat(s.pending, NotSegments(s.queue[..n]));
    FlattenMore(s.batches, segments);
    assert forall m :: m in s.queue[..n] ==> m in s.queue;
    assert forall m :: m in s'.queue ==> m in s.queue;
  }

  /** Without batching a job takes nothing with it. */
  lemma JobAlone(cap: nat, first: AsrJob, s: Loop, messages: seq<Message>, s': Loop)
    requires cap <= 1 && TookJobs(cap, first, s.pending, s.queue, messages, s'.pending, s'.queue)
    ensures s'.pending == s.pending && s'.queue == s.queue
  {
    hide NotSegments;
    ghost var none := |NotSegments(s.queue[..0])|;
    assert s.queue[..0] == [] && s.queue[0..] == s.queue;
    assert SegmentMessages([]) == [];
  }

  lemma OrderStep(cap: nat, ready: bool, s: Loop, s': Loop, order: seq<Segment>)
    requires Orderly(cap, s.pending + s.queue) && InOrder(s, order) && LoopStep(cap, ready, s, s')
    ensures Orderly(cap, s'.pending + s'.queue) && InOrder(s', order)
  {
    hide SegmentsIn, NotSegments, SegmentMessages, Flatten, TookSegments, TookJobs;
    var (m, t) := if s.pending != [] then (s.pending[0], s.(pending := s.pending[1..]))
                  else (s.queue[0], s.(queue := s.queue[1..]));
    assert m in s.pending + s.queue;
    assert forall x :: x in t.pending + t.queue ==> x in s.pending + s.queue;
    if s.pending != [] {
      SegmentsOfFirst(s.pending);
    } else {
      SegmentsOfFirst(s.queue);
    }
    match m
    case SegmentMessage(first) =>
      var segments :| TookSegments(cap, first, t.pending, t.queue, segments, s'.pending, s'.queue) &&
        s'.batches == t.batches + [segments];
      SegmentsTakenInOrder(cap, first, t, segments, s', order);
    case JobMessage(first) =>
      var messages :| TookJobs(cap, first, t.pending, t.queue, messages, s'.pending, s'.queue) &&
        s'.batches == t.batches;
      JobAlone(cap, first, t, messages, s');
    case FailureMessage(_) =>
  }

  /** Where nothing is set aside for another message, the segments are recognised in the order they arrived. */
  lemma {:induction false} OrderKept(cap: nat, ready: bool, s: Loop, batches: seq<seq<Segment>>, order: seq<Segment>)
    requires Orderly(cap, s.pending + s.queue) && InOrder(s, order) && LoopEnds(cap, ready, s, batches)
    ensures Flatten(batches) == order
    decreases |s.pending| + |s.queue|
  {
    hide Flatten, LoopStep, SegmentsIn, Orderly;
    if s.pending == [] && s.queue == [] {
      NoSegments();
    } else {
      var s': Loop :| |s'.pending| + |s'.queue| < |s.pending| + |s.queue| && LoopStep(cap, ready, s, s') &&
        LoopEnds(cap, ready, s', batches);
      OrderStep(cap, ready, s, s', order);
      OrderKept(cap, ready, s', batches, order);
    }
  }

  lemma NoSegments()
    ensures SegmentsIn([]) == []
  {
  }

  // ----- and what it is good for

  /** The first of the job's segments carries its speech annotations. */
  ghost predicate FirstCarries(segments: seq<Segment>, j: nat) {
    exists k: nat :: FirstAt(segments, j, k) && segments[k].speech != []
  }

  ghost predicate FirstAt(segments: seq<Segment>, j: nat, k: nat) {
    k < |segments| && segments[k].jobIndex == j && forall l :: 0 <= l < k ==> segments[l].jobIndex != j
  }

  lemma {:induction false} ProcessedIs(history: seq<Event>, j: nat)
    ensures Processed(history, j) == SegmentsOf(EventSegments(history), j)
  {
    if history != [] {
      var (before, e) := (history[..|history| - 1], history[|history| - 1]);
      ProcessedIs(before, j);
      SegmentsOfConcat(EventSegments(before), SegmentsOfEvent(e), j);
      if e.Done? {
        assert [e.segment][..0] == [];
      }
    }
  }

  lemma {:induction false} SegmentsOfConcat(a: seq<Segment>, b: seq<Segment>, j: nat)
    ensures SegmentsOf(a + b, j) == SegmentsOf(a, j) + SegmentsOf(b, j)
  {
    if b == [] {
      assert a + b == a;
    } else {
      SegmentsOfConcat(a, b[..|b| - 1], j);
      assert (a + b)[..|a + b| - 1] == a + b[..|b| - 1];
    }
  }

  lemma {:induction false} NoneOf(segments: seq<Segment>, j: nat)
    requires forall k :: 0 <= k < |segments| ==> segments[k].jobIndex != j
    ensures SegmentsOf(segments, j) == 0
  {
    if segments != [] {
      NoneOf(segments[..|segments| - 1], j);
    }
  }

  /** If the first of a job's segments to be recognised carries its speech annotations, they come first. */
  lemma {:induction false} FirstLeads(history: seq<Event>, j: nat)
    requires Nested(history) && FirstCarries(Flatten(Begun(history)), j)
    ensures Led(history, j)
  {
    hide Flatten, Processed, Shifted, EventSegments, SegmentsOf;
    if history == [] {
      NothingBegun();
    } else {
      var (before, e) := (history[..|history| - 1], history[|history| - 1]);
      var earlier := Flatten(Begun(before));
      if FirstCarries(earlier, j) {
        FirstLeads(before, j);
      } else {
        assert Begun(before) + [] == Begun(before);
        FlattenMore(Begun(before), e.batch);
        LaterCarries(earlier, e.batch, j);
        ProcessedIs(before, j);
        NothingShifted(before, j);
      }
    }
  }

  lemma LaterCarries(earlier: seq<Segment>, batch: seq<Segment>, j: nat)
    requires FirstCarries(earlier + batch, j) && !FirstCarries(earlier, j)
    ensures Carries(batch, j) && SegmentsOf(earlier, j) == 0
  {
    var all := earlier + batch;
    assert forall l :: 0 <= l < |earlier| ==> all[l] == earlier[l];
    var k: nat :| FirstAt(all, j, k) && all[k].speech != [];
    assert k < |earlier| ==> FirstAt(earlier, j, k);
    assert batch[k - |earlier|] == all[k];
    NoneOf(earlier, j);
  }

  lemma NothingBegun()
    ensures Flatten(Begun([])) == []
  {
  }
}
