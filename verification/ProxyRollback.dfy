/**
  What an apply leaves behind by itself (core/control/user_proxy_lease.go), without a later restore: our settings when
  every call goes well, the user's own when one goes wrong, and never a half-finished write it could have undone.
 */
module ProxyRollback {
  import opened Wrappers
  import opened UserProxyLease
  import opened ProxyJournal

  /** The calls of an apply over no lease, in order: load, read, save, write, read back, confirm. */
  const LOAD := 0
  const READ := 1
  const SAVE := 2
  const WRITE := 3
  const READ_BACK := 4
  const CONFIRM := 5

  /** Every call goes well up to the last of the script, which does not kill the process. */
  predicate OneFault(script: seq<Answer>) {
    && 0 < |script| <= 6
    && (forall i :: 0 <= i < |script| - 1 ==> script[i].ret == Fine)
    && !script[|script| - 1].ret.Crash?
  }

  /** What the settings are once the apply's write has reached these fields. */
  function Torn(own: Settings, target: string, reached: Fields): Settings {
    Overlay(own, Wanted(target), reached)
  }

  /** The write moved something but not the server: nobody can tell it from an edit of the user's. */
  predicate TornAway(own: Settings, target: string, torn: Settings) {
    torn.server == own.server != target && torn != own
  }

  function Unconfirmed(own: Settings, target: string): Lease {
    Lease(1, own, Wanted(target), false)
  }

  /** A rollback during which nothing more goes wrong undoes our write, or leaves a torn one that it cannot tell. */
  lemma RollbackUndoes(valid: string -> bool, own: Settings, target: string, settings: Settings, confirmed: bool)
    requires valid(target)
    requires exists reached :: settings == Torn(own, target, reached)
    requires confirmed ==> settings == Wanted(target)
    ensures var l := Unconfirmed(own, target).(confirmed := confirmed);
            RollBackAfterError(valid, Machine(settings, Some(l), [], false))
            == (Machine(if TornAway(own, target, settings) then settings else own,
                        if TornAway(own, target, settings) then Some(l) else None, [], false), Failed)
  {
    var l := Unconfirmed(own, target).(confirmed := confirmed);
    RestoreOfAJournal(valid, own, settings, Some(l));
    RestoreKeepsJournal(valid, own, Machine(settings, Some(l), [], false), false);
    NoScriptStays(valid, settings, Some(l));
  }

  lemma NoScriptStays(valid: string -> bool, settings: Settings, lease: Option<Lease>)
    ensures Restore(valid, Machine(settings, lease, [], false)).0.script == []
    ensures !Restore(valid, Machine(settings, lease, [], false)).0.cut
  {
  }

  /** With the first three calls well, the apply comes to its write, with the lease written ahead. */
  lemma ComesToTheWrite(valid: string -> bool, own: Settings, target: string, script: seq<Answer>)
    requires valid(target) && |script| > WRITE
    requires script[LOAD].ret == Fine && script[READ].ret == Fine && script[SAVE].ret == Fine
    ensures var l := Unconfirmed(own, target);
            var (m, wrote) := Write(Machine(own, Some(l), script[WRITE..], false), Wanted(target), ByApply);
            Apply(valid, Machine(own, None, script, false), target)
            == if wrote.Gone? then (m, Crashed)
               else if wrote.Refused? then RollBackAfterError(valid, m)
               else CheckTaken(valid, m, l)
  {
    assert script[1..][1..] == script[2..] && script[2..][1..] == script[3..];
  }

  /**
    An apply over no lease, to which at most one thing happens at or after its write: it ends with our settings and a
    confirmed lease exactly when nothing did, and otherwise reports the failure having put the user's own settings
    back and dropped the lease - whichever fields the write reached, whether it said so or not, and whether or not
    the failed confirmation was stored - unless the write moved something else but not the server.
   */
  lemma AFailedApplyIsRolledBack(valid: string -> bool, own: Settings, target: string, script: seq<Answer>)
    requires valid(target) && OneFault(script) && |script| > WRITE
    requires |script| > CONFIRM ==> Torn(own, target, script[WRITE].reached) == Wanted(target)
    ensures var (m, r) := Apply(valid, Machine(own, None, script, false), target);
            var torn := Torn(own, target, script[WRITE].reached);
            if script[|script| - 1].ret == Fine && torn == Wanted(target) then
              r == Done && m.settings == Wanted(target) && m.lease == Some(Lease(1, own, Wanted(target), true))
            else
              && r == Failed
              && (TornAway(own, target, torn) ==> m.settings == torn && m.lease == Some(Unconfirmed(own, target)))
              && (!TornAway(own, target, torn) ==> m.settings == own && m.lease == None)
  {
    var l, torn := Unconfirmed(own, target), Torn(own, target, script[WRITE].reached);
    ComesToTheWrite(valid, own, target, script);
    RollbackUndoes(valid, own, target, torn, false);
    assert script[WRITE..][1..] == script[READ_BACK..];
    var (m, wrote) := Write(Machine(own, Some(l), script[WRITE..], false), Wanted(target), ByApply);
    assert m == Machine(torn, Some(l), script[READ_BACK..], false);
    if wrote.Refused? {
      assert m.script == [];
    } else {
      TheCheckDecides(valid, own, target, torn, script[READ_BACK..]);
    }
  }

  /** The read-back and the confirmation, the last of which may fail. */
  lemma TheCheckDecides(valid: string -> bool, own: Settings, target: string, torn: Settings, script: seq<Answer>)
    requires valid(target) && |script| <= 2
    requires |script| > 0 ==> !script[|script| - 1].ret.Crash?
    requires |script| == 2 ==> script[0].ret == Fine && torn == Wanted(target)
    requires exists reached :: torn == Torn(own, target, reached)
    ensures var l := Unconfirmed(own, target);
            var (m, r) := CheckTaken(valid, Machine(torn, Some(l), script, false), l);
            if (|script| > 0 ==> script[|script| - 1].ret == Fine) && torn == Wanted(target) then
              r == Done && m.settings == Wanted(target) && m.lease == Some(l.(confirmed := true))
            else
              && r == Failed
              && (TornAway(own, target, torn) ==> m.settings == torn && m.lease == Some(l))
              && (!TornAway(own, target, torn) ==> m.settings == own && m.lease == None)
  {
    var l := Unconfirmed(own, target);
    RollbackUndoes(valid, own, target, torn, false);
    if torn == Wanted(target) {
      RollbackUndoes(valid, own, target, torn, true);
      assert |script| == 2 ==> script[1..][0] == script[1] && script[1..][1..] == [];
    }
    assert |script| == 1 ==> script[1..] == [];
  }

  /** A call that fails before the write changes no setting; only the failed save may leave its lease behind. */
  lemma AnEarlyFailureTouchesNothing(valid: string -> bool, own: Settings, target: string, script: seq<Answer>)
    requires valid(target) && OneFault(script) && |script| <= WRITE && script[|script| - 1].ret == Error
    ensures var (m, r) := Apply(valid, Machine(own, None, script, false), target);
            && r == Failed && m.settings == own
            && m.lease == if |script| - 1 == SAVE && script[SAVE].stored then Some(Unconfirmed(own, target)) else None
  {
    if |script| > 1 {
      assert script[1..][0] == script[1];
    }
    if |script| > 2 {
      assert script[1..][1..] == script[2..] && script[2..][0] == script[2];
    }
  }

  /** A target that is no loopback address is refused before anything is looked at. */
  lemma AnInvalidTargetTouchesNothing(valid: string -> bool, m: Machine, target: string)
    ensures !valid(target) ==> Apply(valid, m, target) == (m, Failed)
  {
  }

  /**
    An apply to which nothing happens, over whatever journal is there: it takes the settings over, leaving a confirmed
    lease of the user's own, exactly when the journal's own settings are not ambiguous; those it leaves alone.
   */
  lemma AnUndisturbedApplyTakesOver(valid: string -> bool, own: Settings, settings: Settings, lease: Option<Lease>,
                                    target: string)
    requires valid(target) && Journal(valid, own, settings, lease)
    ensures Apply(valid, Machine(settings, lease, [], false), target)
            == if Ambiguous(settings, lease) then (Machine(settings, lease, [], false), Failed)
               else (Machine(Wanted(target), Some(Lease(1, own, Wanted(target), true)), [], false), Done)
  {
    RestoreOfAJournal(valid, own, settings, lease);
    NoScriptStays(valid, settings, lease);
    if lease.Some? && !Ambiguous(settings, lease) {
      TakingOver(valid, own, target);
    }
  }

  lemma TakingOver(valid: string -> bool, own: Settings, target: string)
    requires valid(target)
    ensures TakeOver(valid, Machine(own, None, [], false), target)
            == (Machine(Wanted(target), Some(Lease(1, own, Wanted(target), true)), [], false), Done)
  {
  }

  /** A lease of another format, or for settings that are not ours to have written. */
  predicate Foreign(valid: string -> bool, l: Lease) {
    l.version != 1 || !valid(l.applied.server)
  }

  /** A foreign lease is never acted on: whatever happens, a restore over it, or an apply, fails and changes nothing. */
  lemma AForeignLeaseIsLeftAlone(valid: string -> bool, m: Machine, target: string)
    requires m.lease.Some? && Foreign(valid, m.lease.value)
    ensures var (m', r) := Restore(valid, m); r != Done && m'.settings == m.settings && m'.lease == m.lease
    ensures var (m', r) := Apply(valid, m, target); r != Done && m'.settings == m.settings && m'.lease == m.lease
  {
  }
}
