/**
  What the three layers over the proxy settings do when they are let (core/control/proxy.go and session_proxy.go):
  which calls succeed, whom they change, and exactly when a cleanup may go over to another session.
 */
module ProxyUndisturbed {
  import opened Wrappers
  import opened UserProxyLease
  import opened ProxyJournal
  import opened ProxyRollback
  import opened SystemProxy
  import opened ProxyOwnership

  /** Every call of a command finds this user at the console, and nothing goes wrong in it. */
  predicate Undisturbed(s: Session, u: ProxyUser) {
    |s.script| >= 8 && forall i :: 0 <= i < |s.script| ==> s.script[i] == Behaviour(Some(u), Some([]), true)
  }

  /** The user's settings are as they were, and nothing of ours is left. */
  function Theirs(site: Site, sid: string): Account {
    Account(site.own(sid), None, false)
  }

  /** The account is a journal of its user's own settings, and not one a restore has to leave alone. */
  predicate Recoverable(site: Site, sid: string, a: Account) {
    !a.cut && Journal(site.valid, site.own(sid), a.settings, a.lease) && !Ambiguous(a.settings, a.lease)
  }

  /** Nobody's account differs, but for this user's. */
  ghost predicate OthersUntouched(site: Site, s: Session, s': Session, sid: string) {
    forall other :: other != sid ==> AccountOf(site, s', other) == AccountOf(site, s, other)
  }

  // ----- One call into a session -----

  lemma ApplyRuns(site: Site, s: Session, sid: string, target: string)
    requires site.valid(target) && Upcoming(s).run == Some([]) && Recoverable(site, sid, AccountOf(site, s, sid))
    ensures var (s', ok) := RunApply(site, s, sid, target);
            && ok && AccountOf(site, s', sid) == Ours(site, sid, target)
            && s' == Proceed(s).(accounts := s.accounts[sid := Ours(site, sid, target)],
                                 appliedFor := s.appliedFor + {sid})
  {
    var a := AccountOf(site, s, sid);
    AnUndisturbedApplyTakesOver(site.valid, site.own(sid), a.settings, a.lease, target);
  }

  lemma RestoreRuns(site: Site, s: Session, sid: string)
    requires Upcoming(s).run == Some([]) && Recoverable(site, sid, AccountOf(site, s, sid))
    ensures var (s', ok) := RunRestore(site, s, sid);
            && ok && AccountOf(site, s', sid) == Theirs(site, sid)
            && s' == Proceed(s).(accounts := s.accounts[sid := Theirs(site, sid)], restoredFor := s.restoredFor + {sid})
  {
    var a := AccountOf(site, s, sid);
    RestoreOfAJournal(site.valid, site.own(sid), a.settings, a.lease);
    NoScriptStays(site.valid, a.settings, a.lease);
  }

  lemma OthersStay(site: Site, s: Session, s': Session, sid: string, a: Account)
    requires s'.accounts == s.accounts[sid := a]
    ensures OthersUntouched(site, s, s', sid) && AccountOf(site, s', sid) == a
  {
  }

  // ----- The session controller -----

  /** Undisturbed, enable takes over the settings of its owner, who is the console user if there was none. */
  lemma EnableTakesOver(site: Site, s: Session, u: ProxyUser, target: string)
    requires Undisturbed(s, u) && site.valid(target)
    requires Recoverable(site, (if s.owner.Some? then s.owner.value else u).sid,
                         AccountOf(site, s, (if s.owner.Some? then s.owner.value else u).sid))
    ensures var user := if s.owner.Some? then s.owner.value else u;
            var (s', ok) := Enable(site, s, target);
            && ok && s'.owner == Some(user)
            && AccountOf(site, s', user.sid) == Ours(site, user.sid, target)
            && OthersUntouched(site, s, s', user.sid)
            && s'.script == s.script[if s.owner.Some? then 1 else 2..]
  {
    var user := if s.owner.Some? then s.owner.value else u;
    var s1 := if s.owner.Some? then s else Proceed(s).(owner := Some(u));
    assert AccountOf(site, s1, user.sid) == AccountOf(site, s, user.sid);
    ApplyRuns(site, s1, user.sid, target);
    OthersStay(site, s, Enable(site, s, target).0, user.sid, Ours(site, user.sid, target));
  }

  /** Whatever happens, an enable for an owner changes no other account and looks for no other user. */
  lemma EnableKeepsItsOwner(site: Site, s: Session, target: string)
    requires s.owner.Some?
    ensures var s' := Enable(site, s, target).0;
            && s'.owner == s.owner && OthersUntouched(site, s, s', s.owner.value.sid)
            && s'.restoredFor == s.restoredFor && s'.appliedFor == s.appliedFor + {s.owner.value.sid}
  {
  }

  /** Undisturbed, disable gives its owner's settings back and forgets the owner; without one there is nothing to do. */
  lemma DisableGivesBack(site: Site, s: Session)
    requires s.owner.Some? ==>
               && Upcoming(s).run == Some([])
               && Recoverable(site, s.owner.value.sid, AccountOf(site, s, s.owner.value.sid))
    ensures var (s', ok) := Disable(site, s);
            && ok && s'.owner == None
            && (s.owner.None? ==> s' == s)
            && (s.owner.Some? ==>
                  && AccountOf(site, s', s.owner.value.sid) == Theirs(site, s.owner.value.sid)
                  && OthersUntouched(site, s, s', s.owner.value.sid) && s'.script == s.script[1..])
  {
    if s.owner.Some? {
      var sid := s.owner.value.sid;
      RestoreRuns(site, s, sid);
      OthersStay(site, s, Disable(site, s).0, sid, Theirs(site, sid));
    }
  }

  /** The user at the console is the owner, logged on again. */
  predicate LoggedOnAgain(owner: ProxyUser, console: Option<ProxyUser>) {
    console.Some? && console.value.sid == owner.sid && owner.sid != "" && console.value.session != owner.session
  }

  /**
    A disable whose owner's session is gone cleans up in another one exactly if the same user has logged on again: then
    the settings are given back there, and otherwise no account changes and the cleanup stays owed to that owner.
   */
  lemma DisableGoesOverIff(site: Site, s: Session)
    requires s.owner.Some? && |s.script| >= 3 && s.script[0].run.None? && s.script[2].run == Some([])
    requires Recoverable(site, s.owner.value.sid, AccountOf(site, s, s.owner.value.sid))
    ensures var (s', ok) := Disable(site, s); var owner := s.owner.value;
            && (ok <==> LoggedOnAgain(owner, s.script[1].user))
            && (ok ==> s'.owner == None && AccountOf(site, s', owner.sid) == Theirs(site, owner.sid)
                       && OthersUntouched(site, s, s', owner.sid))
            && (!ok ==> s'.owner == s.owner && s'.accounts == s.accounts)
  {
    var owner := s.owner.value;
    var s1 := RunRestore(site, s, owner.sid).0;
    assert s1 == Proceed(s).(restoredFor := s.restoredFor + {owner.sid});
    assert s.script[1..][0] == s.script[1] && s.script[1..][1..][0] == s.script[2];
    if LoggedOnAgain(owner, s.script[1].user) {
      var s2 := Proceed(s1).(owner := s.script[1].user);
      assert AccountOf(site, s2, owner.sid) == AccountOf(site, s, owner.sid);
      RestoreRuns(site, s2, owner.sid);
      OthersStay(site, s, Disable(site, s).0, owner.sid, Theirs(site, owner.sid));
    }
  }

  /** Whatever happens, a disable changes no account and restores for no user but its owner's. */
  lemma DisableTouchesOnlyItsOwner(site: Site, s: Session)
    requires s.owner.Some?
    ensures var (s', ok) := Disable(site, s); var sid := s.owner.value.sid;
            && OthersUntouched(site, s, s', sid)
            && s'.restoredFor == s.restoredFor + {sid} && s'.appliedFor == s.appliedFor
            && (s'.owner.Some? <==> !ok) && (!ok ==> s'.owner.value.sid == sid)
  {
  }

  /** Undisturbed, reconciliation finds something exactly if there is an owner or the console user holds a lease. */
  lemma ReconcileFindsIff(site: Site, s: Session, u: ProxyUser)
    requires Undisturbed(s, u)
    requires Recoverable(site, (if s.owner.Some? then s.owner.value else u).sid,
                         AccountOf(site, s, (if s.owner.Some? then s.owner.value else u).sid))
    ensures var user := if s.owner.Some? then s.owner.value else u;
            var (s', found, ok) := Reconcile(site, s);
            && ok && s'.owner == None
            && (found <==> s.owner.Some? || AccountOf(site, s, u.sid).lease.Some?)
            && AccountOf(site, s', user.sid) == Theirs(site, user.sid)
            && OthersUntouched(site, s, s', user.sid)
  {
    if s.owner.Some? {
      DisableGivesBack(site, s);
    } else {
      var a := AccountOf(site, s, u.sid);
      var s2 := HasLease(site, Proceed(s), u.sid).0;
      assert s.script[1..][0] == s.script[1];
      assert AccountOf(site, Proceed(s), u.sid) == a;
      if a.lease.Some? {
        var s3 := s2.(owner := Some(u));
        assert s.script[1..][1..][0] == s.script[2];
        assert Upcoming(s3) == s.script[2];
        assert AccountOf(site, s3, u.sid) == a;
        DisableGivesBack(site, s3);
        forall other | other != u.sid
          ensures AccountOf(site, Disable(site, s3).0, other) == AccountOf(site, s, other)
        {
          assert AccountOf(site, s3, other) == AccountOf(site, s, other);
        }
      }
    }
  }

  /** Without an owner it stops at the first question that has no answer, and has changed nothing. */
  lemma ReconcileAsksFirst(site: Site, s: Session)
    requires s.owner.None? && |s.script| >= 2
    ensures var (s', found, ok) := Reconcile(site, s);
            s.script[0].user.None? || !s.script[1].lookup ==>
              !found && !ok && s'.owner == None && s'.accounts == s.accounts && s'.restoredFor == s.restoredFor
  {
    assert s.script[1..][0] == s.script[1];
  }

  // ----- The daemon's guard -----

  /** Undisturbed, disarming leaves nothing armed, no owner and the owner's settings their own. */
  lemma DisarmGivesBack(site: Site, g: Guard, u: ProxyUser)
    requires GuardInv(site, g, false) && Undisturbed(g.session, u)
    requires g.session.owner.Some? ==>
               Recoverable(site, g.session.owner.value.sid, AccountOf(site, g.session, g.session.owner.value.sid))
    ensures var (g', ok) := Disarm(site, g);
            && ok && !g'.armed && !g'.applied && g'.session.owner == None
            && (g.session.owner.None? ==> g'.session == g.session)
            && (g.session.owner.Some? ==>
                  var sid := g.session.owner.value.sid;
                  && AccountOf(site, g'.session, sid) == Theirs(site, sid)
                  && OthersUntouched(site, g.session, g'.session, sid)
                  && g'.session.script == g.session.script[1..])
  {
    if g.armed {
      DisableGivesBack(site, g.session);
    }
  }

  lemma ArmFromNothing(site: Site, g: Guard, u: ProxyUser, hostport: string)
    requires g.session.owner.None? && site.valid(hostport) && |g.session.script| >= 2
    requires forall i :: 0 <= i < |g.session.script| ==> g.session.script[i] == Behaviour(Some(u), Some([]), true)
    requires Recoverable(site, u.sid, AccountOf(site, g.session, u.sid))
    ensures var (g', ok) := EnableOrRollBack(site, g, hostport);
            && ok && g'.armed && g'.applied && g'.target == hostport && g'.session.owner == Some(u)
            && AccountOf(site, g'.session, u.sid) == Ours(site, u.sid, hostport)
            && OthersUntouched(site, g.session, g'.session, u.sid)
  {
    var s1 := Proceed(g.session).(owner := Some(u));
    assert AccountOf(site, s1, u.sid) == AccountOf(site, g.session, u.sid);
    ApplyRuns(site, s1, u.sid, hostport);
    OthersStay(site, g.session, Enable(site, g.session, hostport).0, u.sid, Ours(site, u.sid, hostport));
  }

  /**
    Undisturbed, arming ends armed and applied at the target: nothing is called if that is so already; otherwise the
    console user's settings are ours, with their own remembered, and those of an owner before are given back.
   */
  lemma ArmApplies(site: Site, g: Guard, u: ProxyUser, hostport: string)
    requires GuardInv(site, g, false) && Undisturbed(g.session, u) && site.valid(hostport)
    requires Recoverable(site, u.sid, AccountOf(site, g.session, u.sid))
    requires g.session.owner.Some? ==>
               Recoverable(site, g.session.owner.value.sid, AccountOf(site, g.session, g.session.owner.value.sid))
    ensures var (g', ok) := Arm(site, g, hostport);
            && ok && g'.armed && g'.applied && g'.target == hostport
            && if g.applied && g.target == hostport then g' == g
               else
                 && g'.session.owner == Some(u)
                 && AccountOf(site, g'.session, u.sid) == Ours(site, u.sid, hostport)
                 && (g.session.owner.Some? && g.session.owner.value.sid != u.sid ==>
                       AccountOf(site, g'.session, g.session.owner.value.sid) == Theirs(site, g.session.owner.value.sid))
  {
    if g.applied && g.target == hostport {
    } else if g.armed {
      DisarmGivesBack(site, g, u);
      var g1 := Disarm(site, g).0;
      assert AccountOf(site, g1.session, u.sid) == AccountOf(site, g.session, u.sid)
             || AccountOf(site, g1.session, u.sid) == Theirs(site, u.sid);
      ArmFromNothing(site, g1, u, hostport);
    } else {
      ArmFromNothing(site, g, u, hostport);
    }
  }

  /**
    An arming whose enable fails, wherever it fails, rolls back: if the owner's account is one that can be undone and
    nothing goes wrong in doing so, nothing is armed, nobody is owned, and the settings are the user's own again.
   */
  lemma AFailedArmRollsBack(site: Site, g: Guard, hostport: string)
    requires g.session.owner.None? && !Enable(site, g.session, hostport).1
    requires var s := Enable(site, g.session, hostport).0;
             s.owner.Some? ==>
               && Upcoming(s).run == Some([])
               && Recoverable(site, s.owner.value.sid, AccountOf(site, s, s.owner.value.sid))
    ensures var (g', ok) := EnableOrRollBack(site, g, hostport);
            && !ok && !g'.armed && !g'.applied && g'.target == "" && g'.session.owner == None
            && var s := Enable(site, g.session, hostport).0;
               (s.owner.Some? ==> AccountOf(site, g'.session, s.owner.value.sid) == Theirs(site, s.owner.value.sid))
  {
    DisableGivesBack(site, Enable(site, g.session, hostport).0);
  }

  /** Undisturbed, startup reports a stale proxy exactly if the console user holds a lease, and clears it. */
  lemma StartupClearsIff(site: Site, g: Guard, u: ProxyUser)
    requires g == Guard(false, false, "", g.session) && g.session.owner.None? && Undisturbed(g.session, u)
    requires Recoverable(site, u.sid, AccountOf(site, g.session, u.sid))
    ensures var (g', cleared, ok) := ReconcileAtStartup(site, g);
            && ok && (cleared <==> AccountOf(site, g.session, u.sid).lease.Some?)
            && !g'.armed && !g'.applied && g'.session.owner == None
            && AccountOf(site, g'.session, u.sid) == Theirs(site, u.sid)
            && OthersUntouched(site, g.session, g'.session, u.sid)
  {
    ReconcileFindsIff(site, g.session, u);
  }
}
