/**
  Ownership of the proxy settings over whole runs of the daemon: arming, disarming and startup
  reconciliation with any failure at any call, users logging in and out, and restarts.
 */
module ProxyOwnership {
  import opened Wrappers
  import opened UserProxyLease
  import opened ProxyJournal
  import opened SystemProxy

  // ----- The invariants -----

  /** The account is a journal of its user's own settings, unless a rollback was once cut short there. */
  predicate Intact(site: Site, sid: string, a: Account) {
    a.cut || Journal(site.valid, site.own(sid), a.settings, a.lease)
  }

  ghost predicate Sane(site: Site, s: Session) {
    forall sid :: Intact(site, sid, AccountOf(site, s, sid))
  }

  /** Only the owner's account can hold a lease. */
  ghost predicate OnlyOwnerHoldsLease(site: Site, s: Session) {
    forall sid :: AccountOf(site, s, sid).lease.Some? ==> s.owner.Some? && s.owner.value.sid == sid
  }

  /** The users a restore may run for: those an apply ran for, and those seen to hold a lease. */
  function Entitled(s: Session): set<string> {
    s.appliedFor + s.leaseSeen
  }

  ghost predicate SessionInv(site: Site, s: Session, clean: bool) {
    && Sane(site, s)
    && s.restoredFor <= Entitled(s)
    && (s.owner.Some? ==> s.owner.value.sid in Entitled(s))
    && (clean ==> OnlyOwnerHoldsLease(site, s))
  }

  /** The account while our proxy is in place. */
  function Ours(site: Site, sid: string, target: string): Account {
    Account(Wanted(target), Some(Lease(1, site.own(sid), Wanted(target), true)), false)
  }

  predicate HoldsOurs(site: Site, sid: string, a: Account, target: string) {
    a.cut || a == Ours(site, sid, target)
  }

  /**
    The guard's fields tell the truth: an owner only while armed, and applied only while the owner's
    account holds exactly our settings for the recorded target.
   */
  ghost predicate GuardInv(site: Site, g: Guard, clean: bool) {
    && SessionInv(site, g.session, clean)
    && (g.session.owner.Some? ==> g.armed)
    && (g.applied ==>
          && g.armed && g.session.owner.Some?
          && HoldsOurs(site, g.session.owner.value.sid, AccountOf(site, g.session, g.session.owner.value.sid),
                       g.target))
  }

  // ----- Calls -----

  lemma ProceedKeeps(site: Site, s: Session, clean: bool)
    requires SessionInv(site, s, clean)
    ensures SessionInv(site, Proceed(s), clean)
    ensures forall sid :: AccountOf(site, Proceed(s), sid) == AccountOf(site, s, sid)
  {
    var s1 := Proceed(s);
    forall sid
      ensures AccountOf(site, s1, sid) == AccountOf(site, s, sid)
    {
    }
    forall sid | AccountOf(site, s1, sid).lease.Some? && clean
      ensures s1.owner.Some? && s1.owner.value.sid == sid
    {
      assert AccountOf(site, s, sid).lease.Some?;
    }
    forall sid
      ensures Intact(site, sid, AccountOf(site, s1, sid))
    {
      assert AccountOf(site, s1, sid) == AccountOf(site, s, sid);
    }
  }

  /** Replacing the owner's account by a journal of the same user keeps the invariant. */
  lemma OwnersAccountChanges(site: Site, s: Session, s': Session, sid: string, a: Account, clean: bool)
    requires SessionInv(site, s, clean)
    requires s.owner.Some? && s.owner.value.sid == sid
    requires Intact(site, sid, a)
    requires s'.accounts == s.accounts[sid := a] && s'.owner == s.owner
    requires s'.restoredFor <= Entitled(s') && Entitled(s) <= Entitled(s')
    ensures SessionInv(site, s', clean)
    ensures AccountOf(site, s', sid) == a
  {
    forall u
      ensures AccountOf(site, s', u) == if u == sid then a else AccountOf(site, s, u)
    {
    }
    forall u
      ensures Intact(site, u, AccountOf(site, s', u))
    {
      assert AccountOf(site, s', u) == if u == sid then a else AccountOf(site, s, u);
    }
    forall u | clean && AccountOf(site, s', u).lease.Some?
      ensures s'.owner.Some? && s'.owner.value.sid == u
    {
      assert u == sid || AccountOf(site, s, u).lease.Some?;
    }
  }

  /** Whatever happened before, a restore that reports success has left no lease. */
  lemma RestoreClears(valid: string -> bool, m: Machine)
    ensures Restore(valid, m).1 == Done ==> Restore(valid, m).0.lease == None
  {
  }

  lemma RunRestoreKeeps(site: Site, s: Session, clean: bool)
    requires SessionInv(site, s, clean) && s.owner.Some?
    ensures var (s', ok) := RunRestore(site, s, s.owner.value.sid);
            && SessionInv(site, s', clean) && s'.owner == s.owner
            && (ok ==> AccountOf(site, s', s.owner.value.sid).lease == None)
  {
    var sid := s.owner.value.sid;
    var a := AccountOf(site, s, sid);
    ProceedKeeps(site, s, clean);
    if Upcoming(s).run.Some? {
      var m := Machine(a.settings, a.lease, Upcoming(s).run.value, a.cut);
      RestoreClears(site.valid, m);
      if !a.cut {
        RestoreKeepsJournal(site.valid, site.own(sid), m, false);
      }
      var m' := Restore(site.valid, m).0;
      OwnersAccountChanges(site, s, RunRestore(site, s, sid).0, sid, Account(m'.settings, m'.lease, m'.cut), clean);
    } else {
      SameAccountsSameInv(site, Proceed(s), RunRestore(site, s, sid).0, clean);
    }
  }

  lemma SameAccountsSameInv(site: Site, s: Session, s': Session, clean: bool)
    requires SessionInv(site, s, clean)
    requires s'.accounts == s.accounts && s'.restoredFor <= Entitled(s')
    requires s'.owner == s.owner && Entitled(s) <= Entitled(s')
    ensures SessionInv(site, s', clean)
    ensures forall sid :: AccountOf(site, s', sid) == AccountOf(site, s, sid)
  {
    forall sid
      ensures AccountOf(site, s', sid) == AccountOf(site, s, sid)
    {
    }
    forall u
      ensures Intact(site, u, AccountOf(site, s', u))
    {
      assert AccountOf(site, s', u) == AccountOf(site, s, u);
    }
    forall u | clean && AccountOf(site, s', u).lease.Some?
      ensures s'.owner.Some? && s'.owner.value.sid == u
    {
      assert AccountOf(site, s, u).lease.Some?;
    }
  }

  lemma RunApplyKeeps(site: Site, s: Session, target: string, clean: bool)
    requires s.owner.Some? && SessionInv(site, s.(appliedFor := s.appliedFor + {s.owner.value.sid}), clean)
    ensures var (s', ok) := RunApply(site, s, s.owner.value.sid, target);
            && SessionInv(site, s', clean) && s'.owner == s.owner
            && (ok ==> HoldsOurs(site, s.owner.value.sid, AccountOf(site, s', s.owner.value.sid), target))
  {
    var sid := s.owner.value.sid;
    var s0 := s.(appliedFor := s.appliedFor + {sid});
    var a := AccountOf(site, s0, sid);
    ProceedKeeps(site, s0, clean);
    assert Upcoming(s0) == Upcoming(s);
    if Upcoming(s).run.Some? {
      var m := Machine(a.settings, a.lease, Upcoming(s).run.value, a.cut);
      if !a.cut {
        ApplyKeepsJournal(site.valid, site.own(sid), m, target, false);
      }
      var m' := Apply(site.valid, m, target).0;
      var after := Account(m'.settings, m'.lease, m'.cut);
      OwnersAccountChanges(site, s0, RunApply(site, s, sid, target).0, sid, after, clean);
    } else {
      SameAccountsSameInv(site, Proceed(s0), RunApply(site, s, sid, target).0, clean);
    }
  }

  // ----- The session controller -----

  /** An owner whose account holds no lease can be forgotten. */
  lemma ForgetOwner(site: Site, s: Session, clean: bool)
    requires SessionInv(site, s, clean) && s.owner.Some?
    requires AccountOf(site, s, s.owner.value.sid).lease == None
    ensures SessionInv(site, s.(owner := None), clean)
  {
    var s' := s.(owner := None);
    forall sid
      ensures AccountOf(site, s', sid) == AccountOf(site, s, sid)
    {
    }
    forall u
      ensures Intact(site, u, AccountOf(site, s', u))
    {
      assert AccountOf(site, s', u) == AccountOf(site, s, u);
    }
    forall u
      ensures clean ==> AccountOf(site, s', u).lease == None
    {
      assert AccountOf(site, s', u) == AccountOf(site, s, u);
    }
  }

  /** The owner may change its session, or an owner be taken on when nobody else holds a lease. */
  lemma ClaimOwner(site: Site, s: Session, u: ProxyUser, clean: bool)
    requires SessionInv(site, s, clean)
    requires s.owner.Some? ==> s.owner.value.sid == u.sid
    requires u.sid in Entitled(s)
    ensures SessionInv(site, s.(owner := Some(u)), clean)
  {
    var s' := s.(owner := Some(u));
    forall sid
      ensures AccountOf(site, s', sid) == AccountOf(site, s, sid)
    {
    }
    forall v
      ensures Intact(site, v, AccountOf(site, s', v))
    {
      assert AccountOf(site, s', v) == AccountOf(site, s, v);
    }
    forall v | clean && AccountOf(site, s', v).lease.Some?
      ensures v == u.sid
    {
      assert AccountOf(site, s, v).lease.Some?;
    }
  }

  lemma EnableKeeps(site: Site, s: Session, target: string, clean: bool)
    requires SessionInv(site, s, clean)
    ensures var (s', ok) := Enable(site, s, target);
            && SessionInv(site, s', clean)
            && (s.owner.Some? ==> s'.owner == s.owner)
            && (ok ==> s'.owner.Some? &&
                       HoldsOurs(site, s'.owner.value.sid, AccountOf(site, s', s'.owner.value.sid), target))
  {
    if s.owner.Some? {
      SameAccountsSameInv(site, s, s.(appliedFor := s.appliedFor + {s.owner.value.sid}), clean);
      RunApplyKeeps(site, s, target, clean);
    } else {
      ProceedKeeps(site, s, clean);
      var u := Upcoming(s).user;
      if u.Some? {
        var s1 := Proceed(s).(appliedFor := s.appliedFor + {u.value.sid});
        SameAccountsSameInv(site, Proceed(s), s1, clean);
        ClaimOwner(site, s1, u.value, clean);
        var s2 := Proceed(s).(owner := u);
        assert s2.(appliedFor := s2.appliedFor + {u.value.sid}) == s1.(owner := u);
        RunApplyKeeps(site, s2, target, clean);
      }
    }
  }

  /** A failed disable keeps its owner, up to a newer session of the same user. */
  lemma DisableKeeps(site: Site, s: Session, clean: bool)
    requires SessionInv(site, s, clean)
    ensures var (s', ok) := Disable(site, s);
            && SessionInv(site, s', clean)
            && (ok ==> s'.owner == None)
            && (ok && s.owner.Some? ==> AccountOf(site, s', s.owner.value.sid).lease == None)
            && (!ok ==> s.owner.Some? && s'.owner.Some? && s'.owner.value.sid == s.owner.value.sid)
  {
    if s.owner.Some? {
      var owner := s.owner.value;
      RunRestoreKeeps(site, s, clean);
      var (s1, ok) := RunRestore(site, s, owner.sid);
      if ok {
        ForgetOwner(site, s1, clean);
        assert AccountOf(site, s1.(owner := None), owner.sid) == AccountOf(site, s1, owner.sid);
      } else {
        RetryKeeps(site, s1, clean);
      }
    }
  }

  lemma RetryKeeps(site: Site, s: Session, clean: bool)
    requires SessionInv(site, s, clean) && s.owner.Some?
    ensures var (s', ok) := RetryDisable(site, s, s.owner.value);
            && SessionInv(site, s', clean)
            && (ok ==> s'.owner == None && AccountOf(site, s', s.owner.value.sid).lease == None)
            && (!ok ==> s'.owner.Some? && s'.owner.value.sid == s.owner.value.sid)
  {
    var owner, u := s.owner.value, Upcoming(s).user;
    ProceedKeeps(site, s, clean);
    if u.Some? && u.value.sid == owner.sid {
      ClaimOwner(site, Proceed(s), u.value, clean);
      var s1 := Proceed(s).(owner := u);
      RunRestoreKeeps(site, s1, clean);
      var (s2, ok) := RunRestore(site, s1, u.value.sid);
      if ok {
        ForgetOwner(site, s2, clean);
        assert AccountOf(site, s2.(owner := None), owner.sid) == AccountOf(site, s2, owner.sid);
      }
    }
  }

  lemma ReconcileKeeps(site: Site, s: Session, clean: bool)
    requires SessionInv(site, s, clean)
    ensures var (s', found, ok) := Reconcile(site, s);
            && SessionInv(site, s', clean)
            && (found && ok ==> s'.owner == None)
            && (!found ==> s'.owner == s.owner && s'.accounts == s.accounts)
            && (s'.owner.Some? ==> found)
  {
    if s.owner.Some? {
      DisableKeeps(site, s, clean);
    } else {
      ProceedKeeps(site, s, clean);
      var s1, u := Proceed(s), Upcoming(s).user;
      if u.Some? {
        ProceedKeeps(site, s1, clean);
        var (s2, has) := HasLease(site, s1, u.value.sid);
        SameAccountsSameInv(site, Proceed(s1), s2, clean);
        if has == Some(true) {
          LeaseSeenIsClaimed(site, s2, u.value, clean);
          DisableKeeps(site, s2.(owner := u), clean);
        }
      }
    }
  }

  lemma LeaseSeenIsClaimed(site: Site, s: Session, u: ProxyUser, clean: bool)
    requires SessionInv(site, s, clean) && s.owner.None? && u.sid in s.leaseSeen
    ensures SessionInv(site, s.(owner := Some(u)), clean)
  {
    ClaimOwner(site, s, u, clean);
  }

  // ----- The guard -----

  lemma DisarmKeeps(site: Site, g: Guard, clean: bool)
    requires SessionInv(site, g.session, clean) && (g.session.owner.Some? ==> g.armed)
    ensures var (g', ok) := Disarm(site, g);
            && GuardInv(site, g', clean)
            && !g'.applied
            && (ok ==> !g'.armed && g'.session.owner == None)
            && (!ok ==> g'.armed && g'.session.owner.Some? && g.session.owner.Some? &&
                        g'.session.owner.value.sid == g.session.owner.value.sid)
  {
    DisableKeeps(site, g.session, clean);
  }

  lemma EnableOrRollBackKeeps(site: Site, g: Guard, hostport: string, clean: bool)
    requires SessionInv(site, g.session, clean)
    ensures var (g', ok) := EnableOrRollBack(site, g, hostport);
            GuardInv(site, g', clean) && (ok <==> g'.applied) && (ok ==> g'.target == hostport)
  {
    EnableKeeps(site, g.session, hostport, clean);
    var (session, ok) := Enable(site, g.session, hostport);
    if !ok {
      DisarmKeeps(site, g.(armed := true, session := session), clean);
    }
  }

  lemma ArmKeeps(site: Site, g: Guard, hostport: string, clean: bool)
    requires GuardInv(site, g, clean)
    ensures var (g', ok) := Arm(site, g, hostport);
            GuardInv(site, g', clean) && (ok <==> g'.applied) && (ok ==> g'.target == hostport)
  {
    if g.applied && g.target == hostport {
    } else if g.armed {
      DisarmKeeps(site, g, clean);
      var (g1, ok) := Disarm(site, g);
      if ok {
        EnableOrRollBackKeeps(site, g1, hostport, clean);
      }
    } else {
      EnableOrRollBackKeeps(site, g, hostport, clean);
    }
  }

  lemma ReconcileAtStartupKeeps(site: Site, g: Guard, clean: bool)
    requires GuardInv(site, g, clean)
    ensures GuardInv(site, ReconcileAtStartup(site, g).0, clean)
  {
    ReconcileKeeps(site, g.session, clean);
  }

  // ----- Whole runs -----

  datatype Command =
    | DoArm(hostport: string, script: seq<Behaviour>)
    | DoDisarm(script: seq<Behaviour>)
    | DoReconcile(script: seq<Behaviour>)
    | Restart

  function Perform(site: Site, g: Guard, c: Command): Guard {
    match c
    case DoArm(hostport, script) => Arm(site, g.(session := g.session.(script := script)), hostport).0
    case DoDisarm(script) => Disarm(site, g.(session := g.session.(script := script))).0
    case DoReconcile(script) => ReconcileAtStartup(site, g.(session := g.session.(script := script))).0
    case Restart => Guard(false, false, "", StartSession(g.session.accounts))
  }

  function RunAll(site: Site, g: Guard, cs: seq<Command>): Guard
    decreases |cs|
  {
    if cs == [] then g else RunAll(site, Perform(site, g, cs[0]), cs[1..])
  }

  lemma WithScript(site: Site, g: Guard, script: seq<Behaviour>, clean: bool)
    requires GuardInv(site, g, clean)
    ensures GuardInv(site, g.(session := g.session.(script := script)), clean)
  {
    SameAccountsSameInv(site, g.session, g.session.(script := script), clean);
    if g.session.owner.Some? {
      assert AccountOf(site, g.session.(script := script), g.session.owner.value.sid)
          == AccountOf(site, g.session, g.session.owner.value.sid);
    }
  }

  lemma RestartKeeps(site: Site, g: Guard)
    requires GuardInv(site, g, false)
    ensures GuardInv(site, Perform(site, g, Restart), false)
  {
    var s' := StartSession(g.session.accounts);
    forall u
      ensures Intact(site, u, AccountOf(site, s', u))
    {
      assert AccountOf(site, s', u) == AccountOf(site, g.session, u);
    }
  }

  lemma {:induction false} RunsKeepOwnership(site: Site, g: Guard, cs: seq<Command>, clean: bool)
    requires GuardInv(site, g, clean)
    requires clean ==> forall i :: 0 <= i < |cs| ==> !cs[i].Restart?
    ensures GuardInv(site, RunAll(site, g, cs), clean)
    decreases |cs|
  {
    if cs == [] {
    } else {
      if cs[0].Restart? {
        RestartKeeps(site, g);
      } else {
        WithScript(site, g, cs[0].script, clean);
        var g0 := g.(session := g.session.(script := cs[0].script));
        match cs[0] {
          case DoArm(hostport, _) => ArmKeeps(site, g0, hostport, clean);
          case DoDisarm(_) => DisarmKeeps(site, g0, clean);
          case DoReconcile(_) => ReconcileAtStartupKeeps(site, g0, clean);
        }
      }
      RunsKeepOwnership(site, Perform(site, g, cs[0]), cs[1..], clean);
    }
  }

  /** A machine on which no user holds a lease, and everyone has their own settings. */
  const CLEAN := Guard(false, false, "", StartSession(map[]))

  /**
    Starting clean, whatever fails: while any user's settings may differ from their own, the daemon is
    armed and owns exactly that user, whose lease still remembers the original; unless a rollback over that
    user's confirmed lease was cut short.
   */
  lemma DifferingSettingsAreOwned(site: Site, cs: seq<Command>, sid: string)
    requires forall i :: 0 <= i < |cs| ==> !cs[i].Restart?
    ensures var g := RunAll(site, CLEAN, cs);
            var a := AccountOf(site, g.session, sid);
            && (a.settings != site.own(sid) && !a.cut ==>
                  && g.armed && g.session.owner.Some? && g.session.owner.value.sid == sid
                  && a.lease.Some? && a.lease.value.before == site.own(sid))
            && (g.applied ==> g.armed && g.session.owner.Some?)
            && (g.applied && g.session.owner.value.sid == sid && !a.cut ==> a == Ours(site, sid, g.target))
  {
    forall u
      ensures AccountOf(site, CLEAN.session, u) == Account(site.own(u), None, false)
    {
    }
    RunsKeepOwnership(site, CLEAN, cs, true);
    var a := AccountOf(site, RunAll(site, CLEAN, cs).session, sid);
    assert Intact(site, sid, a);
  }

  /**
    Over restarts too, every account without a cut rollback stays a journal of its user's own settings, and a restore
    has only ever run for a user an apply ran for or who was seen to hold a lease.
   */
  lemma RestoresAreEntitled(site: Site, cs: seq<Command>, sid: string)
    ensures var g := RunAll(site, CLEAN, cs);
            var a := AccountOf(site, g.session, sid);
            && Intact(site, sid, a)
            && g.session.restoredFor <= g.session.appliedFor + g.session.leaseSeen
            && (g.session.owner.Some? ==> g.armed)
  {
    forall u
      ensures AccountOf(site, CLEAN.session, u) == Account(site.own(u), None, false)
    {
    }
    RunsKeepOwnership(site, CLEAN, cs, false);
    var a := AccountOf(site, RunAll(site, CLEAN, cs).session, sid);
    assert Intact(site, sid, a);
  }

  /** After a restart, a startup reconciliation without an error leaves the console user's settings their own. */
  lemma ReconciliationRecovers(site: Site, g: Guard, script: seq<Behaviour>)
    requires GuardInv(site, g, false)
    requires script != [] && script[0].user.Some?
    ensures var restarted := Perform(site, g, Restart);
            var ready := restarted.(session := restarted.session.(script := script));
            var (g', cleared, ok) := ReconcileAtStartup(site, ready);
            var sid := script[0].user.value.sid;
            var a := AccountOf(site, g'.session, sid);
            ok ==> !g'.armed && a.lease == None && (a.cut || a.settings == site.own(sid))
  {
    RestartKeeps(site, g);
    var restarted := Perform(site, g, Restart);
    WithScript(site, restarted, script, false);
    var s, u := restarted.session.(script := script), script[0].user.value;
    ReconcileKeeps(site, s, false);
    ProceedKeeps(site, s, false);
    var s1 := Proceed(s);
    ProceedKeeps(site, s1, false);
    var (s2, has) := HasLease(site, s1, u.sid);
    SameAccountsSameInv(site, Proceed(s1), s2, false);
    if has == Some(true) {
      LeaseSeenIsClaimed(site, s2, u, false);
      DisableKeeps(site, s2.(owner := Some(u)), false);
    }
    var a := AccountOf(site, Reconcile(site, s).0, u.sid);
    assert Intact(site, u.sid, a);
  }
}
