/**
  Moving a running tunnel to another exit (core/control/hotswitch.go): point the selector, confirm that traffic
  flows, and only then say so; otherwise put the old exit back.
 */
module HotSwitch {
  import FallbackWalk
  import opened Lifecycle
  import opened Wrappers

  /** What the calls of one switch answer; probes: each confirmation attempt within the budget. */
  datatype Calls = Calls(select: bool, probes: seq<bool>, revert: bool)

  /** The switch was confirmed: some probe within the budget came back. */
  predicate Carries(calls: Calls) {
    true in calls.probes
  }

  /** The attempts view a client is shown. */
  datatype Snapshot = Snapshot(items: seq<FallbackWalk.Item>, outcome: FallbackWalk.Outcome)

  /** The part of the daemon a switch reads and writes. */
  datatype Exit = Exit(tunnel: Tunnel, selected: Option<Tag>, lastGood: Option<string>, intent: Option<string>,
                       attempts: Option<Snapshot>)

  /** One exit, carrying traffic. */
  function SingleExit(node: string): Snapshot {
    Snapshot([FallbackWalk.Item(node, FallbackWalk.OK, None, FallbackWalk.NoReason)], FallbackWalk.Success)
  }

  /** liveSwitchTarget: the target's tag and the current node's, if the running engine can be moved there. */
  function Resolved(generation: nat, sameProfile: bool, members: seq<Tag>, t: Tunnel,
                    target: string): Option<(Tag, Tag)> {
    if sameProfile && Steerable(t, generation, target) && TagOf(t.live.value.tagOf, target) in members
    then Some((TagOf(t.live.value.tagOf, target), TagOf(t.live.value.tagOf, t.node)))
    else None
  }

  class LiveExit {
    var generation: nat
    var liveProfile: string             // the running configuration's
    var stateProfile: string            // the published state's
    var members: seq<Tag>               // the running selector's
    var exit: Exit

    constructor (generation: nat, liveProfile: string, stateProfile: string, members: seq<Tag>, exit: Exit)
      ensures this.generation == generation && this.members == members && this.exit == exit
      ensures this.liveProfile == liveProfile && this.stateProfile == stateProfile
    {
      this.generation, this.members, this.exit := generation, members, exit;
      this.liveProfile, this.stateProfile := liveProfile, stateProfile;
    }

    predicate OfProfile(profile: string)
      reads this
    {
      liveProfile == profile && stateProfile == profile
    }

    /** What the request resolves to now. */
    function Found(profile: string, target: string): Option<(Tag, Tag)>
      reads this
    {
      Resolved(generation, OfProfile(profile), members, exit.tunnel, target)
    }

    method LiveSwitchTarget(profile: string, target: string) returns (found: Option<(Tag, Tag)>)
      ensures found == Found(profile, target)
    {
      if exit.tunnel.status != Connected || exit.tunnel.live.None? {
        return None;
      }
      var live := exit.tunnel.live.value;
      if live.gen != generation || liveProfile != profile || stateProfile != profile {
        return None;
      }
      if target == "" || target == exit.tunnel.node {
        return None;
      }
      var tag := TagOf(live.tagOf, target);
      if tag == "" {
        return None;
      }
      for i := 0 to |members|
        invariant tag !in members[..i]
      {
        if members[i] == tag {
          return Some((tag, TagOf(live.tagOf, exit.tunnel.node)));
        }
      }
      assert members[..|members|] == members;
      return None;
    }

    method ConfirmSwitch(calls: Calls) returns (ok: bool)
      ensures ok == Carries(calls)
    {
      for i := 0 to |calls.probes|
        invariant true !in calls.probes[..i]
      {
        if calls.probes[i] {
          return true;
        }
      }
      assert calls.probes[..|calls.probes|] == calls.probes;
      return false;
    }

    method CommitSwitch(target: string, remember: bool)
      modifies this`exit
      ensures exit == Exit(old(exit).tunnel.(status := Connected, node := target), old(exit).selected, Some(target),
                           if remember then Some(target) else old(exit).intent, Some(SingleExit(target)))
    {
      exit := exit.(lastGood := Some(target));
      if remember {
        exit := exit.(intent := Some(target));
      }
      exit := exit.(attempts := Some(SingleExit(target)));
      exit := exit.(tunnel := exit.tunnel.(status := Connected, node := target));
    }

    /** remember: the user asked for this exit. */
    method SwitchNode(profile: string, target: string, remember: bool, calls: Calls) returns (moved: bool)
      modifies this`exit
      ensures (moved, exit)
              == Outcome(generation, OfProfile(profile), members, old(exit), target, remember, calls)
      ensures moved <==> liveProfile == profile && stateProfile == profile && calls.select
                         && (exists i :: 0 <= i < |calls.probes| && calls.probes[i])
                         && CanMove(generation, members, old(exit).tunnel, target)
    {
      SwitchMovesIff(generation, OfProfile(profile), members, exit, target, remember, calls);
      var found := LiveSwitchTarget(profile, target);
      if found.None? {
        return false;
      }
      var (tag, prevTag) := found.value;
      if !calls.select {
        return false;
      }
      exit := exit.(selected := Some(tag));
      var confirmed := ConfirmSwitch(calls);
      if !confirmed {
        if prevTag != "" {
          if calls.revert {
            exit := exit.(selected := Some(prevTag));
          }
        }
        return false;
      }
      CommitSwitch(target, remember);
      return true;
    }
  }

  /** The selector after an unconfirmed move. */
  function AfterRevert(tags: (Tag, Tag), revert: bool): Option<Tag> {
    if tags.1 != "" && revert then Some(tags.1) else Some(tags.0)
  }

  // ----- The transaction -----

  /** What the user sees, before and after, when nobody interferes. */
  function Outcome(generation: nat, sameProfile: bool, members: seq<Tag>, e: Exit, target: string, remember: bool,
                   calls: Calls): (bool, Exit)
  {
    var found := Resolved(generation, sameProfile, members, e.tunnel, target);
    if found.None? || !calls.select then (false, e)
    else if !Carries(calls) then (false, e.(selected := AfterRevert(found.value, calls.revert)))
    else (true, Exit(e.tunnel.(node := target), Some(found.value.0), Some(target),
                     if remember then Some(target) else e.intent, Some(SingleExit(target))))
  }

  /** The selector stands on the published node's tag. */
  predicate OnNode(e: Exit) {
    e.tunnel.live.Some? && Agrees(e.tunnel.live.value.tagOf, e.tunnel.node, e.selected)
  }

  /**
    All or nothing: a switch that reports success is on the target, by name and by selector; one that does not changes
    nothing at all, unless the selector was moved, no probe came back, and the call to put it back failed too.
   */
  lemma SwitchIsATransaction(generation: nat, sameProfile: bool, members: seq<Tag>, e: Exit, target: string,
                             remember: bool, calls: Calls)
    requires OnNode(e)
    ensures var (moved, e') := Outcome(generation, sameProfile, members, e, target, remember, calls);
            && (moved ==> OnNode(e') && e'.tunnel.node == target && e'.tunnel.status == Connected)
            && (!moved ==>
                  (e' == e <==> calls.revert || !calls.select || Carries(calls)
                                || Resolved(generation, sameProfile, members, e.tunnel, target).None?
                                || TagOf(e.tunnel.live.value.tagOf, target)
                                   == TagOf(e.tunnel.live.value.tagOf, e.tunnel.node)))
            && (!moved ==> e'.tunnel == e.tunnel && e'.lastGood == e.lastGood && e'.intent == e.intent
                           && e'.attempts == e.attempts)
  {
  }

  /**
    The running engine can be steered to the target: it is connected under the configuration of this generation, and
    the target is another server of it whose tag is one of the selector's.
   */
  ghost predicate CanMove(generation: nat, members: seq<Tag>, t: Tunnel, target: string) {
    && t.status == Connected && t.live.Some? && t.live.value.gen == generation
    && target != "" && target != t.node
    && target in t.live.value.tagOf && t.live.value.tagOf[target] != ""
    && exists i :: 0 <= i < |members| && members[i] == t.live.value.tagOf[target]
  }

  /** A switch succeeds exactly if the engine can be steered there, takes it, and some probe comes back in time. */
  lemma SwitchMovesIff(generation: nat, sameProfile: bool, members: seq<Tag>, e: Exit, target: string,
                       remember: bool, calls: Calls)
    ensures Outcome(generation, sameProfile, members, e, target, remember, calls).0
            <==> sameProfile && calls.select && (exists i :: 0 <= i < |calls.probes| && calls.probes[i])
                 && CanMove(generation, members, e.tunnel, target)
  {
    assert Carries(calls) <==> exists i :: 0 <= i < |calls.probes| && calls.probes[i];
  }

  /**
    A switch that succeeds leaves the tunnel as it is but for its exit: the target is published, selected by the tag the
    running configuration gives it, last known good, and shown as the one exit that carries traffic; the intent is the
    target's if the user asked for it and unchanged if the watchdog did.
   */
  lemma SwitchTellsEveryone(generation: nat, sameProfile: bool, members: seq<Tag>, e: Exit, target: string,
                            remember: bool, calls: Calls)
    requires Outcome(generation, sameProfile, members, e, target, remember, calls).0
    ensures var e' := Outcome(generation, sameProfile, members, e, target, remember, calls).1;
            && CanMove(generation, members, e.tunnel, target)
            && e'.tunnel == Tunnel(Connected, target, e.tunnel.live)
            && e'.selected == Some(e.tunnel.live.value.tagOf[target])
            && e'.lastGood == Some(target)
            && (remember ==> e'.intent == Some(target)) && (!remember ==> e'.intent == e.intent)
            && e'.attempts.Some? && e'.attempts.value.outcome == FallbackWalk.Success
            && |e'.attempts.value.items| == 1
            && var item := e'.attempts.value.items[0];
               item == FallbackWalk.Item(target, FallbackWalk.OK, None, FallbackWalk.NoReason)
  {
    SwitchMovesIff(generation, sameProfile, members, e, target, remember, calls);
  }

  /** A switch that fails has pointed the selector away exactly if the engine took it there and would not take it back. */
  lemma AFailedSwitchStaysPut(generation: nat, sameProfile: bool, members: seq<Tag>, e: Exit, target: string,
                              remember: bool, calls: Calls)
    requires !Outcome(generation, sameProfile, members, e, target, remember, calls).0
    ensures var e' := Outcome(generation, sameProfile, members, e, target, remember, calls).1;
            && e' == e.(selected := e'.selected)
            && (if !sameProfile || !calls.select || !CanMove(generation, members, e.tunnel, target)
                then e'.selected == e.selected
                else
                  var tags, node := e.tunnel.live.value.tagOf, e.tunnel.node;
                  if node in tags && tags[node] != "" && calls.revert then e'.selected == Some(tags[node])
                  else e'.selected == Some(tags[target]))
  {
    SwitchMovesIff(generation, sameProfile, members, e, target, remember, calls);
  }

  // ----- The same switch in the lifecycle -----

  /** The calls' answers, one for each of the lifecycle's steps. */
  function Answers(ok: bool): Answer {
    Answer(ok, false, "", map[])
  }

  function Step1(s: State, ok: bool): State {
    match NextSwitch(s, Answers(ok))
    case Some(t) => t
    case None => s
  }

  /** Resolve, select, confirm, and commit or revert, with nobody between. */
  function Alone(s: State, resolved: bool, calls: Calls): State {
    Step1(Step1(Step1(Step1(s, resolved), calls.select), Carries(calls)), calls.revert)
  }

  /** Left alone, the lifecycle's steps of a user's switch do what switchNode does. */
  lemma StepsAreTheSwitch(s: State, target: string, sameProfile: bool, members: seq<Tag>, e: Exit, remember: bool,
                          calls: Calls)
    requires s.locks.conn == Switching(false, target, Resolve)
    requires e.tunnel == s.tunnel && e.selected == s.engine.selected
    ensures var resolved := Resolved(s.clock.generation, sameProfile, members, s.tunnel, target).Some?;
            var (moved, e') := Outcome(s.clock.generation, sameProfile, members, e, target, remember, calls);
            var t := Alone(s, resolved, calls);
            t.locks.conn == Free && t.tunnel == e'.tunnel && t.engine.selected == e'.selected
  {
    var resolved := Resolved(s.clock.generation, sameProfile, members, s.tunnel, target);
    var s1 := Step1(s, resolved.Some?);
    if resolved.Some? {
      assert s1 == To(s, Switching(false, target, Select(resolved.value.0, resolved.value.1)));
      var s2 := Step1(s1, calls.select);
      if calls.select {
        var s3 := Step1(s2, Carries(calls));
        assert s3.locks.conn == Switching(false, target, if Carries(calls) then Commit(resolved.value.0)
                                                         else Revert(resolved.value.0, resolved.value.1));
      }
    }
  }
}
