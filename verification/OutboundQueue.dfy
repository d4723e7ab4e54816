/**
  The server's outbound frame queue (core/control/server.go): many producers, one writer, a bounded
  queue that sheds the oldest events first and gives the client up when only responses are left.
  Each critical section is one atomic step; a run is any interleaving of them.
 */
module OutboundQueue {

  const OUT_QUEUE_DEPTH: nat := 512

  datatype Frame = Frame(line: string, event: bool)

  /** Where the writer goroutine is between its critical sections. */
  datatype Writer = Idle | Writing(frame: Frame) | Exited

  /** The queue, its flags and the writer; accepted and written are the histories the laws speak of. */
  datatype State = State(queue: seq<Frame>, closed: bool, failed: bool, writer: Writer,
                         accepted: seq<Frame>, written: seq<Frame>)

  const INITIAL := State([], false, false, Idle, [], [])

  datatype Step = Enqueue(frame: Frame) | Take | Wrote(ok: bool) | Close

  // ----- The steps -----

  /** The position of the oldest event, or |queue| when all frames are responses. */
  function OldestEvent(queue: seq<Frame>): (i: nat)
    ensures i <= |queue|
    ensures forall k :: 0 <= k < i ==> !queue[k].event
    ensures i < |queue| ==> queue[i].event
  {
    if queue == [] || queue[0].event then 0 else 1 + OldestEvent(queue[1..])
  }

  function Without(queue: seq<Frame>, i: nat): seq<Frame>
    requires i < |queue|
  {
    queue[..i] + queue[i + 1..]
  }

  function Fail(s: State): State {
    s.(failed := true, queue := [])
  }

  function EnqueueStep(s: State, f: Frame): State {
    if s.closed || s.failed then s
    else if |s.queue| < OUT_QUEUE_DEPTH then s.(queue := s.queue + [f], accepted := s.accepted + [f])
    else if OldestEvent(s.queue) < |s.queue| then
      s.(queue := Without(s.queue, OldestEvent(s.queue)) + [f], accepted := s.accepted + [f])
    else Fail(s)
  }

  function TakeStep(s: State): State {
    if s.failed || (s.closed && s.queue == []) then s.(writer := Exited)
    else if s.queue == [] then s
    else s.(writer := Writing(s.queue[0]), queue := s.queue[1..])
  }

  function WroteStep(s: State, ok: bool): State
    requires s.writer.Writing?
  {
    if ok then s.(writer := Idle, written := s.written + [s.writer.frame])
    else Fail(s).(writer := Exited)
  }

  /** One critical section; a step whose thread is elsewhere, or waiting, changes nothing. */
  function Next(s: State, step: Step): State {
    match step
    case Enqueue(f) => EnqueueStep(s, f)
    case Take => if s.writer.Idle? then TakeStep(s) else s
    case Wrote(ok) => if s.writer.Writing? then WroteStep(s, ok) else s
    case Close => s.(closed := true)
  }

  function Run(s: State, steps: seq<Step>): State
    decreases |steps|
  {
    if steps == [] then s else Run(Next(s, steps[0]), steps[1..])
  }

  // ----- The code -----

  class Server {
    var queue: seq<Frame>
    var closed: bool
    var failed: bool
    var stalled: bool  // the channel the session owner watches; closing it twice would panic
    var writer: Writer
    ghost var accepted: seq<Frame>
    ghost var written: seq<Frame>

    ghost function Abstract(): State
      reads this
    {
      State(queue, closed, failed, writer, accepted, written)
    }

    predicate Valid()
      reads this
    {
      stalled == failed
    }

    constructor ()
      ensures Valid() && Abstract() == INITIAL
    {
      queue, closed, failed, stalled, writer := [], false, false, false, Idle;
      accepted, written := [], [];
    }

    method Enqueue(line: string, event: bool)
      requires Valid()
      modifies this
      ensures Valid() && Abstract() == Next(old(Abstract()), Step.Enqueue(Frame(line, event)))
    {
      if closed || failed {
        return;
      }
      if |queue| >= OUT_QUEUE_DEPTH {
        var dropped := DropOldestEventLocked();
        if !dropped {
          FailStreamLocked();
          return;
        }
      }
      queue := queue + [Frame(line, event)];
      accepted := accepted + [Frame(line, event)];
    }

    method DropOldestEventLocked() returns (dropped: bool)
      modifies this`queue
      ensures dropped <==> exists f :: f in old(queue) && f.event
      ensures dropped == (OldestEvent(old(queue)) < |old(queue)|)
      ensures queue == if dropped then Without(old(queue), OldestEvent(old(queue))) else old(queue)
    {
      for i := 0 to |queue|
        invariant queue == old(queue)
        invariant forall k :: 0 <= k < i ==> !queue[k].event
      {
        if queue[i].event {
          queue := queue[..i] + queue[i + 1..];
          return true;
        }
      }
      return false;
    }

    method FailStreamLocked()
      requires Valid()
      modifies this
      ensures Valid() && Abstract() == Fail(old(Abstract())).(queue := if old(failed) then old(queue) else [])
    {
      if failed {
        return;
      }
      failed := true;
      queue := [];
      stalled := true;
    }

    /** The writer's critical section, once the condition variable lets it run. */
    method TakeFrame()
      requires Valid() && writer.Idle?
      requires queue != [] || closed || failed
      modifies this
      ensures Valid() && Abstract() == Next(old(Abstract()), Take)
    {
      if failed || (closed && |queue| == 0) {
        writer := Exited;
        return;
      }
      writer := Writing(queue[0]);
      queue := queue[1..];
    }

    /** What the writer does with the outcome of writing its frame. */
    method FinishWrite(ok: bool)
      requires Valid() && writer.Writing? && (failed ==> queue == [])
      modifies this
      ensures Valid() && Abstract() == Next(old(Abstract()), Wrote(ok))
    {
      if ok {
        written := written + [writer.frame];
        writer := Idle;
      } else {
        FailStreamLocked();
        writer := Exited;
      }
    }

    method StopWriter()
      requires Valid()
      modifies this`closed
      ensures Valid() && Abstract() == Next(old(Abstract()), Close)
    {
      closed := true;
    }
  }

  // ----- What is promised -----

  function InFlight(s: State): seq<Frame> {
    if s.writer.Writing? then [s.writer.frame] else []
  }

  /** What has reached the stream, is being written, and is still to be written, in that order. */
  function Outgoing(s: State): seq<Frame> {
    s.written + InFlight(s) + s.queue
  }

  function Responses(fs: seq<Frame>): seq<Frame> {
    if fs == [] then [] else Responses(fs[..|fs| - 1]) + if fs[|fs| - 1].event then [] else [fs[|fs| - 1]]
  }

  function Events(fs: seq<Frame>): seq<Frame> {
    if fs == [] then [] else Events(fs[..|fs| - 1]) + if fs[|fs| - 1].event then [fs[|fs| - 1]] else []
  }

  /** a can be had from b by leaving frames out, keeping the order. */
  predicate Subsequence(a: seq<Frame>, b: seq<Frame>) {
    a == [] ||
    (b != [] &&
     ((a[|a| - 1] == b[|b| - 1] && Subsequence(a[..|a| - 1], b[..|b| - 1])) || Subsequence(a, b[..|b| - 1])))
  }

  predicate Suffix(a: seq<Frame>, b: seq<Frame>) {
    |a| <= |b| && b[|b| - |a|..] == a
  }

  ghost predicate Inv(s: State) {
    && |s.queue| <= OUT_QUEUE_DEPTH
    && (s.failed ==> s.queue == [])
    && (!s.failed ==> Responses(Outgoing(s)) == Responses(s.accepted))
    && (!s.failed ==> Suffix(Events(s.queue), Events(s.accepted)))
    && Subsequence(Outgoing(s), s.accepted)
    && (s.writer.Exited? && !s.failed ==> s.closed && s.queue == [])
  }

  // ----- Sequences -----

  lemma {:induction false} ResponsesConcat(a: seq<Frame>, b: seq<Frame>)
    ensures Responses(a + b) == Responses(a) + Responses(b)
  {
    if b == [] {
      assert a + b == a;
    } else {
      var front := b[..|b| - 1];
      ResponsesConcat(a, front);
      assert (a + b)[..|a + b| - 1] == a + front;
    }
  }

  lemma {:induction false} EventsConcat(a: seq<Frame>, b: seq<Frame>)
    ensures Events(a + b) == Events(a) + Events(b)
  {
    if b == [] {
      assert a + b == a;
    } else {
      var front := b[..|b| - 1];
      EventsConcat(a, front);
      assert (a + b)[..|a + b| - 1] == a + front;
    }
  }

  lemma OfOneFrame(f: Frame)
    ensures Responses([f]) == if f.event then [] else [f]
    ensures Events([f]) == if f.event then [f] else []
  {
    assert [f][..0] == [];
  }

  lemma {:induction false} NoEventsInResponses(fs: seq<Frame>)
    requires forall k :: 0 <= k < |fs| ==> !fs[k].event
    ensures Events(fs) == []
  {
    if fs == [] {
    } else {
      NoEventsInResponses(fs[..|fs| - 1]);
    }
  }

  lemma SubsequenceBothGrow(a: seq<Frame>, b: seq<Frame>, f: Frame)
    requires Subsequence(a, b)
    ensures Subsequence(a + [f], b + [f])
  {
    assert (a + [f])[..|a|] == a && (b + [f])[..|b|] == b;
  }

  lemma {:induction false} SubsequenceOfSubsequence(a: seq<Frame>, b: seq<Frame>, c: seq<Frame>)
    requires Subsequence(a, b) && Subsequence(b, c)
    ensures Subsequence(a, c)
    decreases |b| + |c|
  {
    if a == [] {
    } else {
      var b', c' := b[..|b| - 1], c[..|c| - 1];
      if Subsequence(b, c') {
        SubsequenceOfSubsequence(a, b, c');
      } else if a[|a| - 1] == b[|b| - 1] && Subsequence(a[..|a| - 1], b') {
        SubsequenceOfSubsequence(a[..|a| - 1], b', c');
      } else {
        SubsequenceOfSubsequence(a, b', c');
      }
    }
  }

  lemma {:induction false} SubsequenceOfItself(a: seq<Frame>)
    ensures Subsequence(a, a)
  {
    if a == [] {
    } else {
      SubsequenceOfItself(a[..|a| - 1]);
    }
  }

  lemma {:induction false} PrefixIsSubsequence(a: seq<Frame>, out: seq<Frame>)
    ensures Subsequence(a, a + out)
  {
    if out == [] {
      SubsequenceOfItself(a);
      assert a + [] == a;
    } else {
      PrefixIsSubsequence(a, out[..|out| - 1]);
      assert (a + out)[..|a + out| - 1] == a + out[..|out| - 1];
    }
  }

  lemma {:induction false} SubsequenceSharesItsEnd(a: seq<Frame>, b: seq<Frame>, rest: seq<Frame>)
    requires Subsequence(a, b)
    ensures Subsequence(a + rest, b + rest)
  {
    if rest == [] {
      assert a + [] == a && b + [] == b;
    } else {
      var front, last := rest[..|rest| - 1], rest[|rest| - 1];
      SubsequenceSharesItsEnd(a, b, front);
      SubsequenceBothGrow(a + front, b + front, last);
      assert a + rest == a + front + [last] && b + rest == b + front + [last];
    }
  }

  lemma LeavingOutTheMiddle(a: seq<Frame>, out: seq<Frame>, b: seq<Frame>)
    ensures Subsequence(a + b, a + out + b)
  {
    PrefixIsSubsequence(a, out);
    SubsequenceSharesItsEnd(a, a + out, b);
  }

  // ----- Every step keeps the promise -----

  lemma SheddingKeepsResponses(sent: seq<Frame>, q: seq<Frame>, i: nat)
    requires i < |q| && q[i].event
    ensures Responses(sent + Without(q, i)) == Responses(sent + q)
  {
    var before, after := sent + q[..i], q[i + 1..];
    assert sent + q == before + [q[i]] + after;
    assert sent + Without(q, i) == before + after;
    ResponsesConcat(before + [q[i]], after);
    ResponsesConcat(before, [q[i]]);
    ResponsesConcat(before, after);
    OfOneFrame(q[i]);
  }

  lemma EventsAround(before: seq<Frame>, f: Frame, after: seq<Frame>)
    requires f.event && Events(before) == []
    ensures Events(before + [f] + after) == [f] + Events(after)
    ensures Events(before + after) == Events(after)
  {
    EventsConcat(before + [f], after);
    EventsConcat(before, [f]);
    EventsConcat(before, after);
    OfOneFrame(f);
  }

  lemma SheddingDropsTheOldestEvent(q: seq<Frame>, i: nat)
    requires i < |q| && q[i].event && forall k :: 0 <= k < i ==> !q[k].event
    ensures Events(q) == [q[i]] + Events(Without(q, i))
  {
    var before, after := q[..i], q[i + 1..];
    NoEventsInResponses(before);
    Around(q, i);
    EventsAround(before, q[i], after);
  }

  lemma Around(q: seq<Frame>, i: nat)
    requires i < |q|
    ensures q == q[..i] + [q[i]] + q[i + 1..]
  {
  }

  lemma SheddingKeepsOrder(sent: seq<Frame>, q: seq<Frame>, i: nat, accepted: seq<Frame>)
    requires i < |q| && Subsequence(sent + q, accepted)
    ensures Subsequence(sent + Without(q, i), accepted)
  {
    var before, after := sent + q[..i], q[i + 1..];
    assert sent + q == before + [q[i]] + after;
    assert sent + Without(q, i) == before + after;
    LeavingOutTheMiddle(before, [q[i]], after);
    SubsequenceOfSubsequence(before + after, before + [q[i]] + after, accepted);
  }

  lemma SuffixWithoutItsFirst(f: Frame, a: seq<Frame>, b: seq<Frame>)
    requires Suffix([f] + a, b)
    ensures Suffix(a, b)
  {
    assert b[|b| - |a|..] == b[|b| - |a| - 1..][1..] == ([f] + a)[1..] == a;
  }

  lemma SuffixesGrow(a: seq<Frame>, b: seq<Frame>, c: seq<Frame>)
    requires Suffix(a, b)
    ensures Suffix(a + c, b + c)
  {
    assert (b + c)[|b| - |a|..] == b[|b| - |a|..] + c;
  }

  lemma ShedKeepsInv(s: State)
    requires Inv(s) && !s.failed && !s.closed && OldestEvent(s.queue) < |s.queue|
    ensures Inv(s.(queue := Without(s.queue, OldestEvent(s.queue))))
  {
    var i, sent := OldestEvent(s.queue), s.written + InFlight(s);
    SheddingKeepsResponses(sent, s.queue, i);
    SheddingDropsTheOldestEvent(s.queue, i);
    SheddingKeepsOrder(sent, s.queue, i, s.accepted);
    SuffixWithoutItsFirst(s.queue[i], Events(Without(s.queue, i)), Events(s.accepted));
  }

  lemma Accepted(s: State, f: Frame)
    requires Inv(s) && !s.failed && !s.closed && |s.queue| < OUT_QUEUE_DEPTH
    ensures Inv(s.(queue := s.queue + [f], accepted := s.accepted + [f]))
  {
    var s' := s.(queue := s.queue + [f], accepted := s.accepted + [f]);
    var out := Outgoing(s);
    assert Outgoing(s') == out + [f];
    ResponsesConcat(out, [f]);
    ResponsesConcat(s.accepted, [f]);
    EventsConcat(s.queue, [f]);
    EventsConcat(s.accepted, [f]);
    SuffixesGrow(Events(s.queue), Events(s.accepted), Events([f]));
    SubsequenceBothGrow(out, s.accepted, f);
  }

  lemma EnqueueKeepsInv(s: State, f: Frame)
    requires Inv(s)
    ensures Inv(EnqueueStep(s, f))
  {
    if s.closed || s.failed {
    } else if |s.queue| < OUT_QUEUE_DEPTH {
      Accepted(s, f);
    } else {
      var i := OldestEvent(s.queue);
      if i < |s.queue| {
        ShedKeepsInv(s);
        Accepted(s.(queue := Without(s.queue, i)), f);
      } else {
        FailKeepsInv(s);
      }
    }
  }

  lemma FailKeepsInv(s: State)
    requires Inv(s)
    ensures Inv(Fail(s))
  {
    var sent := s.written + InFlight(s);
    assert Outgoing(Fail(s)) == sent + [];
    assert Outgoing(s) == sent + s.queue + [];
    LeavingOutTheMiddle(sent, s.queue, []);
    SubsequenceOfSubsequence(Outgoing(Fail(s)), Outgoing(s), s.accepted);
  }

  lemma TakeKeepsInv(s: State)
    requires Inv(s) && s.writer.Idle?
    ensures Inv(TakeStep(s))
  {
    if !s.failed && s.queue != [] {
      TakingTheHead(s);
    }
  }

  lemma TakingTheHead(s: State)
    requires Inv(s) && s.writer.Idle? && !s.failed && s.queue != []
    ensures Inv(s.(writer := Writing(s.queue[0]), queue := s.queue[1..]))
  {
    var f, rest := s.queue[0], s.queue[1..];
    var s' := s.(writer := Writing(f), queue := rest);
    assert s.queue == [f] + rest;
    assert Outgoing(s') == Outgoing(s);
    EventsAfterTheHead(f, rest, s.accepted);
  }

  lemma EventsAfterTheHead(f: Frame, rest: seq<Frame>, accepted: seq<Frame>)
    requires Suffix(Events([f] + rest), Events(accepted))
    ensures Suffix(Events(rest), Events(accepted))
  {
    EventsConcat([f], rest);
    OfOneFrame(f);
    if f.event {
      SuffixWithoutItsFirst(f, Events(rest), Events(accepted));
    } else {
      assert [] + Events(rest) == Events(rest);
    }
  }

  lemma WroteKeepsInv(s: State, ok: bool)
    requires Inv(s) && s.writer.Writing?
    ensures Inv(WroteStep(s, ok))
  {
    var s' := WroteStep(s, ok);
    if ok {
      assert Outgoing(s') == Outgoing(s);
    } else {
      assert Outgoing(s') == s.written + [];
      assert Outgoing(s) == s.written + (InFlight(s) + s.queue) + [];
      LeavingOutTheMiddle(s.written, InFlight(s) + s.queue, []);
      SubsequenceOfSubsequence(Outgoing(s'), Outgoing(s), s.accepted);
    }
  }

  lemma NextKeepsInv(s: State, step: Step)
    requires Inv(s)
    ensures Inv(Next(s, step))
  {
    match step
    case Enqueue(f) => EnqueueKeepsInv(s, f);
    case Take => if s.writer.Idle? { TakeKeepsInv(s); }
    case Wrote(ok) => if s.writer.Writing? { WroteKeepsInv(s, ok); }
    case Close => assert Outgoing(Next(s, Close)) == Outgoing(s);
  }

  lemma {:induction false} RunKeepsInv(s: State, steps: seq<Step>)
    requires Inv(s)
    ensures Inv(Run(s, steps))
    decreases |steps|
  {
    if steps == [] {
    } else {
      NextKeepsInv(s, steps[0]);
      RunKeepsInv(Next(s, steps[0]), steps[1..]);
    }
  }

  /** An enqueue gives the client up exactly when the backlog is full of responses. */
  lemma GivesUpOnlyOnResponses(s: State, f: Frame)
    requires Inv(s) && !s.failed
    ensures EnqueueStep(s, f).failed <==>
            !s.closed && |s.queue| == OUT_QUEUE_DEPTH && Responses(s.queue) == s.queue
  {
    AllResponses(s.queue);
    var i := OldestEvent(s.queue);
    assert i < |s.queue| <==> exists k :: 0 <= k < |s.queue| && s.queue[k].event;
  }

  lemma {:induction false} ResponsesAreFewer(fs: seq<Frame>)
    ensures |Responses(fs)| <= |fs|
    ensures |Responses(fs)| == |fs| ==> forall k :: 0 <= k < |fs| ==> !fs[k].event
  {
    if fs == [] {
    } else {
      ResponsesAreFewer(fs[..|fs| - 1]);
    }
  }

  lemma {:induction false} ResponsesOfResponses(fs: seq<Frame>)
    requires forall k :: 0 <= k < |fs| ==> !fs[k].event
    ensures Responses(fs) == fs
  {
    if fs == [] {
    } else {
      ResponsesOfResponses(fs[..|fs| - 1]);
      assert fs == fs[..|fs| - 1] + [fs[|fs| - 1]];
    }
  }

  lemma AllResponses(fs: seq<Frame>)
    ensures Responses(fs) == fs <==> forall k :: 0 <= k < |fs| ==> !fs[k].event
  {
    ResponsesAreFewer(fs);
    if forall k :: 0 <= k < |fs| ==> !fs[k].event {
      ResponsesOfResponses(fs);
    }
  }

  /** After a failure nothing more is accepted, and at most the frame in flight is still written. */
  lemma {:induction false} FailureIsFinal(s: State, steps: seq<Step>)
    requires Inv(s) && s.failed
    ensures var s' := Run(s, steps);
            && s'.failed && s'.queue == [] && s'.accepted == s.accepted
            && s.written <= s'.written <= s.written + InFlight(s)
    decreases |steps|
  {
    if steps == [] {
    } else {
      var s1 := Next(s, steps[0]);
      NextKeepsInv(s, steps[0]);
      FailedStep(s, steps[0]);
      FailureIsFinal(s1, steps[1..]);
    }
  }

  lemma ClosedStep(s: State, step: Step)
    requires Inv(s) && s.closed && !s.failed
    ensures var s1 := Next(s, step);
            s1.closed && s1.accepted == s.accepted && (!s1.failed ==> Outgoing(s1) == Outgoing(s))
  {
    match step
    case Take =>
      if s.writer.Idle? && s.queue != [] {
        assert s.queue == [s.queue[0]] + s.queue[1..];
        assert s.written + [] + s.queue == s.written + [s.queue[0]] + s.queue[1..];
      }
    case Wrote(ok) =>
      if s.writer.Writing? && ok {
        assert s.written + [s.writer.frame] + s.queue == s.written + [s.writer.frame] + [] + s.queue;
      }
    case _ =>
  }

  lemma FailedStep(s: State, step: Step)
    requires Inv(s) && s.failed
    ensures var s1 := Next(s, step);
            && s1.failed && s1.accepted == s.accepted
            && s.written <= s1.written && s1.written + InFlight(s1) <= s.written + InFlight(s)
  {
  }

  /** Once closed, what was pending is all that is still written, and an exit comes after the last of it. */
  lemma {:induction false} CloseFlushes(s: State, steps: seq<Step>)
    requires Inv(s) && s.closed && !s.failed
    ensures var s' := Run(s, steps);
            && s'.accepted == s.accepted
            && (!s'.failed ==> Outgoing(s') == Outgoing(s))
            && (!s'.failed && s'.writer.Exited? ==> s'.written == Outgoing(s))
    decreases |steps|
  {
    if steps == [] {
    } else {
      var s1 := Next(s, steps[0]);
      NextKeepsInv(s, steps[0]);
      ClosedStep(s, steps[0]);
      if s1.failed {
        FailureIsFinal(s1, steps[1..]);
      } else {
        CloseFlushes(s1, steps[1..]);
      }
    }
  }

  /** Steps the writer still has to make once no more frames are accepted. */
  function WorkLeft(s: State): nat {
    match s.writer
    case Exited => 0
    case Idle => 1 + 2 * |s.queue|
    case Writing(_) => 2 + 2 * |s.queue|
  }

  /** The writer's own step here: take a frame, or be told how the write went. */
  predicate IsWriterStep(s: State, step: Step) {
    (s.writer.Idle? && step.Take?) || (s.writer.Writing? && step.Wrote?)
  }

  function WriterSteps(s: State, steps: seq<Step>): nat
    decreases |steps|
  {
    if steps == [] then 0
    else (if IsWriterStep(s, steps[0]) then 1 else 0) + WriterSteps(Next(s, steps[0]), steps[1..])
  }

  ghost predicate Stopped(s: State) {
    Inv(s) && (s.closed || s.failed)
  }

  lemma StoppedStays(s: State, step: Step)
    requires Stopped(s)
    ensures Stopped(Next(s, step))
  {
    NextKeepsInv(s, step);
  }

  lemma StepNearsTheExit(s: State, step: Step)
    requires (s.closed || s.failed) && (s.failed ==> s.queue == [])
    ensures WorkLeft(Next(s, step)) + (if IsWriterStep(s, step) then 1 else 0) <= WorkLeft(s)
  {
  }

  /** A writer that has not exited has a step to make, and work left. */
  lemma WriterIsOut(s: State)
    ensures s.writer.Exited? <==> !IsWriterStep(s, Take) && !IsWriterStep(s, Wrote(true))
    ensures WorkLeft(s) == 0 <==> s.writer.Exited?
  {
  }

  /**
    After a close or a failure the writer makes at most WorkLeft(s) more steps in any run, whatever
    else happens between them, and until it has exited one of its steps is still to be made.
   */
  lemma {:induction false} StoppedWriterExits(s: State, steps: seq<Step>)
    requires Stopped(s)
    ensures var s' := Run(s, steps);
            && WriterSteps(s, steps) + WorkLeft(s') <= WorkLeft(s) <= 2 + 2 * OUT_QUEUE_DEPTH
            && (s'.writer.Exited? <==> !IsWriterStep(s', Take) && !IsWriterStep(s', Wrote(true)))
            && (WriterSteps(s, steps) == WorkLeft(s) ==> s'.writer.Exited?)
    decreases |steps|
  {
    WriterIsOut(Run(s, steps));
    if steps == [] {
    } else {
      var s1 := Next(s, steps[0]);
      StoppedStays(s, steps[0]);
      StepNearsTheExit(s, steps[0]);
      StoppedWriterExits(s1, steps[1..]);
      assert Run(s, steps) == Run(s1, steps[1..]);
    }
  }
}
