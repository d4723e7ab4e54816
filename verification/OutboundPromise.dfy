/**
  What the outbound queue (core/control/server.go) promises its producers, told by the steps alone: which of the
  frames they offered are taken on, which of those may be shed, and that the writer sends the rest in order.
 */
module OutboundPromise {
  import opened OutboundQueue

  // ----- What was offered, by the steps alone -----

  /** The frames the producers hand over, whatever becomes of them. */
  function Offered(steps: seq<Step>): seq<Frame> {
    if steps == [] then []
    else Offered(steps[..|steps| - 1]) + if steps[|steps| - 1].Enqueue? then [steps[|steps| - 1].frame] else []
  }

  function After(steps: seq<Step>): State {
    Run(INITIAL, steps)
  }

  predicate Open(s: State) {
    !s.closed && !s.failed
  }

  /** How many steps are over before the one that closes the queue or gives the client up. */
  function OpenFor(steps: seq<Step>): (n: nat)
    ensures n <= |steps|
  {
    if steps == [] then 0
    else if Open(After(steps)) then |steps|
    else OpenFor(steps[..|steps| - 1])
  }

  /** The frames offered before the first close or failure: the enqueue that gives the client up is not among them. */
  function OfferedInTime(steps: seq<Step>): seq<Frame> {
    Offered(steps[..OpenFor(steps)])
  }

  /** How many frames were offered to an open queue that was full. */
  function Overflows(steps: seq<Step>): nat {
    if steps == [] then 0
    else
      var front, last := steps[..|steps| - 1], steps[|steps| - 1];
      Overflows(front)
      + if last.Enqueue? && Open(After(front)) && |After(front).queue| == 512 then 1 else 0
  }

  lemma {:induction false} RunOneMore(s: State, steps: seq<Step>, step: Step)
    ensures Run(s, steps + [step]) == Next(Run(s, steps), step)
    decreases |steps|
  {
    if steps == [] {
      assert [] + [step] == [step] && [step][1..] == [];
    } else {
      RunOneMore(Next(s, steps[0]), steps[1..], step);
      assert (steps + [step])[1..] == steps[1..] + [step];
    }
  }

  lemma LastStep(steps: seq<Step>)
    requires steps != []
    ensures var front, last := steps[..|steps| - 1], steps[|steps| - 1]; After(steps) == Next(After(front), last)
  {
    var front, last := steps[..|steps| - 1], steps[|steps| - 1];
    RunOneMore(INITIAL, front, last);
    assert steps == front + [last];
  }

  // ----- What is taken on -----

  /** A step takes on the frame it offers, unless the queue is closed, failed, or gives the client up over it. */
  lemma StepTakesOn(s: State, step: Step)
    ensures !Open(s) ==> !Open(Next(s, step)) && Next(s, step).accepted == s.accepted
    ensures Open(s) ==>
              Next(s, step).accepted == s.accepted + if step.Enqueue? && Open(Next(s, step)) then [step.frame] else []
    ensures Open(s) && !Open(Next(s, step)) && step.Enqueue? ==> Next(s, step).failed
  {
  }

  /** In every run, what is taken on is exactly what was offered before the first close or failure. */
  lemma {:induction false} AcceptedIsWhatWasOffered(steps: seq<Step>)
    ensures After(steps).accepted == OfferedInTime(steps)
    ensures Open(After(steps)) ==> OpenFor(steps) == |steps|
  {
    if steps == [] {
    } else {
      var front, last := steps[..|steps| - 1], steps[|steps| - 1];
      AcceptedIsWhatWasOffered(front);
      LastStep(steps);
      StepTakesOn(After(front), last);
      if Open(After(steps)) {
        assert steps[..|steps|] == steps && front[..|front|] == front;
      } else {
        assert steps[..OpenFor(front)] == front[..OpenFor(front)];
      }
    }
  }

  /** The queue is closed exactly once a close has been asked for. */
  lemma {:induction false} ClosedIff(steps: seq<Step>)
    ensures After(steps).closed <==> Close in steps
  {
    if steps == [] {
    } else {
      var front, last := steps[..|steps| - 1], steps[|steps| - 1];
      ClosedIff(front);
      LastStep(steps);
      assert steps == front + [last];
    }
  }

  /**
    The stream fails at exactly two points: a write that fails, and a frame offered to an open queue in which all
    512 frames are responses.
   */
  lemma FailsIff(steps: seq<Step>, step: Step)
    ensures var s := After(steps);
            After(steps + [step]).failed
            <==> || s.failed
                 || (step == Wrote(false) && s.writer.Writing?)
                 || (step.Enqueue? && !s.closed && |s.queue| == 512
                     && forall f :: f in s.queue ==> !f.event)
  {
    var s := After(steps);
    RunOneMore(INITIAL, steps, step);
    RunKeepsInv(INITIAL, steps);
    if step.Enqueue? && !s.failed {
      GivesUpOnlyOnResponses(s, step.frame);
      AllResponses(s.queue);
    }
  }

  // ----- What is shed -----

  lemma {:induction false} EnqueueLoses(s: State, f: Frame)
    requires |s.queue| <= OUT_QUEUE_DEPTH && !EnqueueStep(s, f).failed
    ensures var s' := EnqueueStep(s, f);
            && !s.failed && s'.written == s.written && s'.writer == s.writer
            && |s'.queue| - |s'.accepted| == |s.queue| - |s.accepted|
                 - if Open(s) && |s.queue| == OUT_QUEUE_DEPTH then 1 else 0
  {
    if Open(s) && |s.queue| == OUT_QUEUE_DEPTH {
      assert |Without(s.queue, OldestEvent(s.queue)) + [f]| == |s.queue|;
    }
  }

  lemma {:induction false} StepLoses(s: State, step: Step)
    requires |s.queue| <= OUT_QUEUE_DEPTH && !Next(s, step).failed
    ensures !s.failed
    ensures |Outgoing(Next(s, step))| - |Next(s, step).accepted| == |Outgoing(s)| - |s.accepted|
              - if step.Enqueue? && Open(s) && |s.queue| == OUT_QUEUE_DEPTH then 1 else 0
  {
    match step
    case Enqueue(f) => EnqueueLoses(s, f);
    case _ => assert Next(s, step).accepted == s.accepted;
  }

  /** Each overflow costs one frame, and nothing else does. */
  lemma {:induction false} OverflowsAreTheLosses(steps: seq<Step>)
    ensures var s := After(steps);
            !s.failed ==> |Outgoing(s)| + Overflows(steps) == |s.accepted|
  {
    if steps == [] {
    } else {
      var front, last := steps[..|steps| - 1], steps[|steps| - 1];
      OverflowsAreTheLosses(front);
      LastStep(steps);
      RunKeepsInv(INITIAL, front);
      if !After(steps).failed {
        StepLoses(After(front), last);
      }
    }
  }

  lemma {:induction false} FullSubsequence(a: seq<Frame>, b: seq<Frame>)
    requires Subsequence(a, b)
    ensures |a| <= |b|
    ensures |a| == |b| ==> a == b
    decreases |a| + |b|
  {
    if a == [] || b == [] {
    } else {
      var a', b' := a[..|a| - 1], b[..|b| - 1];
      if Subsequence(a, b') {
        FullSubsequence(a, b');
      } else {
        FullSubsequence(a', b');
        assert a == a' + [a[|a| - 1]] && b == b' + [b[|b| - 1]];
      }
    }
  }

  /**
    In every reachable state the queue is bounded and, while the stream has not failed, what went out or will go out
    is the frames offered in time, in order, every response among them, less one event for each frame that found the
    queue full; the queued events are the newest ones offered.  Without an overflow nothing is missing at all.
   */
  lemma EveryRunKeepsThePromise(steps: seq<Step>)
    ensures var s, offered := After(steps), OfferedInTime(steps);
            && |s.queue| <= 512
            && Subsequence(Outgoing(s), offered)
            && (!s.failed ==> Responses(Outgoing(s)) == Responses(offered))
            && (!s.failed ==> Suffix(Events(s.queue), Events(offered)))
            && (!s.failed ==> |Outgoing(s)| + Overflows(steps) == |offered|)
            && (!s.failed && Overflows(steps) == 0 ==> Outgoing(s) == offered)
  {
    RunKeepsInv(INITIAL, steps);
    AcceptedIsWhatWasOffered(steps);
    OverflowsAreTheLosses(steps);
    FullSubsequence(Outgoing(After(steps)), After(steps).accepted);
  }

  // ----- What is sent -----

  /** n turns of the writer: take a frame, and have it written. */
  function Turns(n: nat): seq<Step> {
    if n == 0 then [] else [Take, Wrote(true)] + Turns(n - 1)
  }

  /** Left alone, an idle writer sends the first n queued frames in n turns, open or closed. */
  lemma {:induction false} TheWriterSendsInOrder(s: State, n: nat)
    requires s.writer.Idle? && !s.failed && n <= |s.queue|
    ensures Run(s, Turns(n)) == s.(queue := s.queue[n..], written := s.written + s.queue[..n])
    decreases n
  {
    if n == 0 {
      assert s.written + [] == s.written;
    } else {
      var taken := Next(s, Take);
      var sent := Next(taken, Wrote(true));
      var turns := [Take, Wrote(true)] + Turns(n - 1);
      assert turns[0] == Take && turns[1..] == [Wrote(true)] + Turns(n - 1);
      assert turns[1..][0] == Wrote(true) && turns[1..][1..] == Turns(n - 1);
      TheWriterSendsInOrder(sent, n - 1);
      assert s.queue[1..][n - 1..] == s.queue[n..];
      assert s.written + [s.queue[0]] + s.queue[1..][..n - 1] == s.written + s.queue[..n];
    }
  }
}
