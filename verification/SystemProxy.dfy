/**
  Ownership of the operating system's proxy pointer across three layers: the daemon's guard
  (core/control/proxy.go), the per-user session controller (core/control/session_proxy.go) and, in
  each user's account, the lease of module UserProxyLease.
 */
module SystemProxy {
  import opened Wrappers
  import opened UserProxyLease

  /** A session id can be reused after a logout; the SID names the user. */
  datatype ProxyUser = ProxyUser(sid: string, session: nat)

  /** One user's settings and lease, as they are stored; cut is the history of the user's machine. */
  datatype Account = Account(settings: Settings, lease: Option<Lease>, cut: bool)

  /**
    What the environment does with the next call: which user is at the console, whether the helper can
    be run for the user asked for (and then what happens inside it), whether the lease can be looked up.
   */
  datatype Behaviour = Behaviour(user: Option<ProxyUser>, run: Option<seq<Answer>>, lookup: bool)

  /** The session controller and the accounts; the last three fields are histories. */
  datatype Session = Session(
    owner: Option<ProxyUser>, accounts: map<string, Account>, script: seq<Behaviour>,
    appliedFor: set<string>, leaseSeen: set<string>, restoredFor: set<string>)

  /** The daemon's own fields over the controller. */
  datatype Guard = Guard(armed: bool, applied: bool, target: string, session: Session)

  const SILENT := Behaviour(None, None, false)

  /** The parameters: which targets are valid, and each user's own settings. */
  datatype Site = Site(valid: string -> bool, own: string -> Settings)

  function StartSession(accounts: map<string, Account>): Session {
    Session(None, accounts, [], {}, {}, {})
  }

  function AccountOf(site: Site, s: Session, sid: string): Account {
    if sid in s.accounts then s.accounts[sid] else Account(site.own(sid), None, false)
  }

  function Upcoming(s: Session): Behaviour {
    if s.script == [] then SILENT else s.script[0]
  }

  function Proceed(s: Session): Session {
    if s.script == [] then s else s.(script := s.script[1..])
  }

  // ----- Calls to the session -----

  function Current(s: Session): (Session, Option<ProxyUser>) {
    (Proceed(s), Upcoming(s).user)
  }

  /** Runs the helper in the user's session; it fails when that session is gone. */
  function RunApply(site: Site, s: Session, sid: string, target: string): (Session, bool) {
    var s1 := Proceed(s).(appliedFor := s.appliedFor + {sid});
    if Upcoming(s).run.None? then (s1, false) else
    var a := AccountOf(site, s, sid);
    var (m, outcome) := Apply(site.valid, Machine(a.settings, a.lease, Upcoming(s).run.value, a.cut), target);
    (s1.(accounts := s.accounts[sid := Account(m.settings, m.lease, m.cut)]), outcome == Done)
  }

  function RunRestore(site: Site, s: Session, sid: string): (Session, bool) {
    var s1 := Proceed(s).(restoredFor := s.restoredFor + {sid});
    if Upcoming(s).run.None? then (s1, false) else
    var a := AccountOf(site, s, sid);
    var (m, outcome) := Restore(site.valid, Machine(a.settings, a.lease, Upcoming(s).run.value, a.cut));
    (s1.(accounts := s.accounts[sid := Account(m.settings, m.lease, m.cut)]), outcome == Done)
  }

  function HasLease(site: Site, s: Session, sid: string): (Session, Option<bool>) {
    var has := AccountOf(site, s, sid).lease.Some?;
    if !Upcoming(s).lookup then (Proceed(s), None)
    else (Proceed(s).(leaseSeen := if has then s.leaseSeen + {sid} else s.leaseSeen), Some(has))
  }

  // ----- The session controller -----

  function Enable(site: Site, s: Session, target: string): (Session, bool) {
    if s.owner.None? then
      var (s1, u) := Current(s);
      if u.None? then (s1, false) else RunApply(site, s1.(owner := u), u.value.sid, target)
    else RunApply(site, s, s.owner.value.sid, target)
  }

  /** A new session of the same user may take over the cleanup of the one that is gone. */
  function RetryDisable(site: Site, s: Session, owner: ProxyUser): (Session, bool) {
    var (s1, u) := Current(s);
    if u.None? || u.value.sid == "" || u.value.sid != owner.sid || u.value.session == owner.session then (s1, false)
    else
      var (s2, ok) := RunRestore(site, s1.(owner := u), u.value.sid);
      (if ok then s2.(owner := None) else s2, ok)
  }

  function Disable(site: Site, s: Session): (Session, bool) {
    if s.owner.None? then (s, true) else
    var (s1, ok) := RunRestore(site, s, s.owner.value.sid);
    if ok then (s1.(owner := None), true) else RetryDisable(site, s1, s.owner.value)
  }

  /** Whether something of ours was found, and whether there was no error. */
  function Reconcile(site: Site, s: Session): (Session, bool, bool) {
    if s.owner.Some? then
      var (s1, ok) := Disable(site, s);
      (s1, true, ok)
    else
      var (s1, u) := Current(s);
      if u.None? then (s1, false, false) else
      var (s2, has) := HasLease(site, s1, u.value.sid);
      if has.None? then (s2, false, false)
      else if !has.value then (s2, false, true)
      else
        var (s3, ok) := Disable(site, s2.(owner := u));
        (s3, true, ok)
  }

  // ----- The daemon's guard -----

  function Disarm(site: Site, g: Guard): (Guard, bool) {
    var g0 := g.(applied := false);
    if !g.armed then (g0, true) else
    var (session, ok) := Disable(site, g.session);
    if ok then (Guard(false, false, "", session), true) else (g0.(session := session), false)
  }

  function EnableOrRollBack(site: Site, g: Guard, hostport: string): (Guard, bool) {
    var (session, ok) := Enable(site, g.session, hostport);
    if ok then (Guard(true, true, hostport, session), true)
    else (Disarm(site, g.(armed := true, session := session)).0, false)
  }

  function Arm(site: Site, g: Guard, hostport: string): (Guard, bool) {
    if g.applied && g.target == hostport then (g, true)
    else if g.armed then
      var (g1, ok) := Disarm(site, g);
      if ok then EnableOrRollBack(site, g1, hostport) else (g1, false)
    else EnableOrRollBack(site, g, hostport)
  }

  /** Whether a stale proxy was cleared, and whether there was no error. */
  function ReconcileAtStartup(site: Site, g: Guard): (Guard, bool, bool) {
    var (session, found, ok) := Reconcile(site, g.session);
    (if found then Guard(!ok, false, "", session) else g.(session := session), found && ok, ok)
  }

  // ----- The code -----

  class SessionSystemProxy {
    const site: Site
    var owner: Option<ProxyUser>
    var accounts: map<string, Account>
    var script: seq<Behaviour>
    ghost var appliedFor: set<string>
    ghost var leaseSeen: set<string>
    ghost var restoredFor: set<string>

    constructor (site: Site, accounts: map<string, Account>, script: seq<Behaviour>)
      ensures this.site == site && Abstract() == StartSession(accounts).(script := script)
    {
      this.site, this.owner, this.accounts, this.script := site, None, accounts, script;
      appliedFor, leaseSeen, restoredFor := {}, {}, {};
    }

    ghost function Abstract(): Session
      reads this
    {
      Session(owner, accounts, script, appliedFor, leaseSeen, restoredFor)
    }

    method Next() returns (a: Behaviour)
      modifies this`script
      ensures a == Upcoming(old(Abstract())) && Abstract() == Proceed(old(Abstract()))
    {
      if script == [] {
        return SILENT;
      }
      a := script[0];
      script := script[1..];
    }

    method Run(user: ProxyUser, apply: bool, target: string) returns (ok: bool)
      modifies this`script, this`accounts, this`appliedFor, this`restoredFor
      ensures (Abstract(), ok) == if apply then RunApply(site, old(Abstract()), user.sid, target)
                                  else RunRestore(site, old(Abstract()), user.sid)
    {
      var a := Next();
      if apply {
        appliedFor := appliedFor + {user.sid};
      } else {
        restoredFor := restoredFor + {user.sid};
      }
      if a.run.None? {
        return false;
      }
      var account := if user.sid in accounts then accounts[user.sid] else Account(site.own(user.sid), None, false);
      var helper := new UserProxy(site.valid, account.settings, account.lease, account.cut, a.run.value);
      var outcome;
      if apply {
        outcome := helper.ApplyUserProxy(target);
      } else {
        outcome := helper.RestoreUserProxy();
      }
      accounts := accounts[user.sid := Account(helper.settings, helper.lease, helper.cut)];
      ok := outcome == Done;
    }

    method EnableProxy(target: string) returns (ok: bool)
      modifies this
      ensures (Abstract(), ok) == Enable(site, old(Abstract()), target)
    {
      if owner.None? {
        var a := Next();
        if a.user.None? {
          return false;
        }
        owner := a.user;
      }
      ok := Run(owner.value, true, target);
    }

    method DisableProxy() returns (ok: bool)
      modifies this
      ensures (Abstract(), ok) == Disable(site, old(Abstract()))
    {
      if owner.None? {
        return true;
      }
      ok := Run(owner.value, false, "");
      if !ok {
        var a := Next();
        if a.user.None? || a.user.value.sid == "" || a.user.value.sid != owner.value.sid
           || a.user.value.session == owner.value.session {
          return false;
        }
        owner := a.user;
        ok := Run(owner.value, false, "");
        if !ok {
          return false;
        }
      }
      owner := None;
    }

    method ReconcileProxy() returns (found: bool, ok: bool)
      modifies this
      ensures (Abstract(), found, ok) == Reconcile(site, old(Abstract()))
    {
      if owner.Some? {
        ok := DisableProxy();
        return true, ok;
      }
      var a := Next();
      if a.user.None? {
        return false, false;
      }
      var sid := a.user.value.sid;
      var looked := Next();
      if !looked.lookup {
        return false, false;
      }
      if !(sid in accounts && accounts[sid].lease.Some?) {
        return false, true;
      }
      leaseSeen := leaseSeen + {sid};
      owner := a.user;
      ok := DisableProxy();
      found := true;
    }
  }

  class SystemProxyGuard {
    const proxy: SessionSystemProxy
    var proxyArmed: bool
    var proxyApplied: bool
    var proxyTarget: string

    constructor (proxy: SessionSystemProxy)
      ensures this.proxy == proxy && Abstract() == Guard(false, false, "", proxy.Abstract())
    {
      this.proxy := proxy;
      proxyArmed, proxyApplied, proxyTarget := false, false, "";
    }

    ghost function Abstract(): Guard
      reads this, proxy
    {
      Guard(proxyArmed, proxyApplied, proxyTarget, proxy.Abstract())
    }

    method DisarmSystemProxy() returns (ok: bool)
      modifies this, proxy
      ensures (Abstract(), ok) == Disarm(proxy.site, old(Abstract()))
    {
      var armed := proxyArmed;
      proxyApplied := false;
      if !armed {
        return true;
      }
      ok := proxy.DisableProxy();
      if !ok {
        return false;
      }
      proxyArmed := false;
      proxyTarget := "";
    }

    method ArmSystemProxy(hostport: string) returns (ok: bool)
      modifies this, proxy
      ensures (Abstract(), ok) == Arm(proxy.site, old(Abstract()), hostport)
    {
      if proxyApplied && proxyTarget == hostport {
        return true;
      }
      if proxyArmed {
        var restored := DisarmSystemProxy();
        if !restored {
          return false;
        }
      }
      proxyArmed := true;
      ok := proxy.EnableProxy(hostport);
      if !ok {
        var rollback := DisarmSystemProxy();
        return false;
      }
      proxyApplied := true;
      proxyTarget := hostport;
    }

    method ReconcileSystemProxyAtStartup() returns (cleared: bool, ok: bool)
      modifies this, proxy
      ensures (Abstract(), cleared, ok) == ReconcileAtStartup(proxy.site, old(Abstract()))
    {
      var found;
      found, ok := proxy.ReconcileProxy();
      if found {
        proxyArmed := !ok;
        proxyApplied := false;
        proxyTarget := "";
      }
      cleared := found && ok;
    }
  }
}
