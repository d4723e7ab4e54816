/**
  What the proxy lease guarantees: over unbounded runs of apply and restore, with a failure or the
  death of the process at any call, the user's own settings are never lost.
 */
module ProxyJournal {
  import opened Wrappers
  import opened UserProxyLease

  // ----- The invariants -----

  /** Every field is the one before our write or the one we wrote. */
  predicate Mixed(s: Settings, l: Lease) {
    && (s.flags == l.before.flags || s.flags == l.applied.flags)
    && (s.server == l.before.server || s.server == l.applied.server)
    && (s.bypass == l.before.bypass || s.bypass == l.applied.bypass)
    && (s.pac == l.before.pac || s.pac == l.applied.pac)
  }

  /**
    The journal: without a lease the settings are the user's own; with one it remembers them and the
    settings mix the two writes; over a confirmed lease they are still at our server, or the user's again.
   */
  predicate Journal(valid: string -> bool, own: Settings, settings: Settings, lease: Option<Lease>) {
    match lease
    case None => settings == own
    case Some(l) =>
      && l.version == 1 && l.before == own && valid(l.applied.server) && l.applied == Wanted(l.applied.server)
      && Mixed(settings, l)
      && (l.confirmed ==> settings == l.before || settings.server == l.applied.server)
  }

  /** With writes that happen whole or not at all the settings are never a mixture. */
  predicate WholeJournal(valid: string -> bool, own: Settings, settings: Settings, lease: Option<Lease>) {
    && Journal(valid, own, settings, lease)
    && (lease.Some? ==> settings == lease.value.before || settings == lease.value.applied)
  }

  predicate Whole(f: Fields) {
    f == NO_FIELD || f == ALL_FIELDS
  }

  predicate WritesWhole(script: seq<Answer>) {
    forall i :: 0 <= i < |script| ==> Whole(script[i].rolledBack) && Whole(script[i].reached)
  }

  predicate Good(valid: string -> bool, own: Settings, m: Machine, whole: bool) {
    && !m.cut && (whole ==> WritesWhole(m.script))
    && if whole then WholeJournal(valid, own, m.settings, m.lease) else Journal(valid, own, m.settings, m.lease)
  }

  /** The next restore will drop the lease and leave settings that are not the user's. */
  predicate Lost(valid: string -> bool, own: Settings, m: Machine) {
    && m.lease.Some? && m.lease.value.version == 1 && valid(m.lease.value.applied.server) && m.lease.value.confirmed
    && m.settings.server != m.lease.value.applied.server && m.settings != own
  }

  /** What an operation leaves of a journal: a journal, or the original is lost if a rollback was cut short in it. */
  predicate Kept(valid: string -> bool, own: Settings, m: Machine, whole: bool) {
    if m.cut then !whole && Lost(valid, own, m) else Good(valid, own, m, whole)
  }

  /** The user has moved back to the old server and changed something, or our write was torn there. */
  predicate Ambiguous(settings: Settings, lease: Option<Lease>) {
    && lease.Some? && !lease.value.confirmed
    && settings.server == lease.value.before.server != lease.value.applied.server
    && settings != lease.value.before
  }

  // ----- One operation -----

  lemma AdvanceKeepsGood(valid: string -> bool, own: Settings, m: Machine, whole: bool)
    requires Good(valid, own, m, whole)
    ensures Good(valid, own, Advance(m), whole)
    ensures whole ==> Whole(Coming(m).rolledBack) && Whole(Coming(m).reached)
  {
  }

  lemma DeleteKeepsJournal(valid: string -> bool, own: Settings, m: Machine, whole: bool)
    requires Good(valid, own, m, whole) && m.settings == own
    ensures var (m', r) := DeleteLease(m);
            && Good(valid, own, m', whole) && m'.settings == own
            && m'.lease in {None, m.lease} && (r == Done ==> m'.lease == None)
  {
  }

  /** A rollback write that is cut short over a confirmed lease loses the original; any other leaves a journal. */
  lemma RollbackWriteKeepsJournal(valid: string -> bool, own: Settings, m: Machine, whole: bool)
    requires Good(valid, own, m, whole) && m.lease.Some?
    requires m.settings.server == m.lease.value.applied.server
    ensures var (m', r) := Write(m, own, ByRestore);
            && Kept(valid, own, m', whole) && m'.lease == m.lease
            && (m'.cut ==> m'.settings != own)
  {
    AdvanceKeepsGood(valid, own, m, whole);
  }

  lemma WriteBackKeepsJournal(valid: string -> bool, own: Settings, m: Machine, whole: bool)
    requires Good(valid, own, m, whole) && m.lease.Some?
    requires m.settings.server == m.lease.value.applied.server
    ensures var (m', r) := WriteBack(m, own);
            && Kept(valid, own, m', whole) && m'.lease in {None, m.lease}
            && (r == Done ==> !m'.cut && m'.settings == own && m'.lease == None)
  {
    RollbackWriteKeepsJournal(valid, own, m, whole);
    var (m1, wrote) := Write(m, own, ByRestore);
    var (m2, got) := Read(m1);
    if m2.settings == own {
      DeleteKeepsJournal(valid, own, m2, whole);
    }
  }

  /** With our server still in place, undoing our fields gives the user's settings back. */
  lemma RollingBackGivesTheOriginal(valid: string -> bool, own: Settings, settings: Settings, l: Lease)
    requires Journal(valid, own, settings, Some(l)) && settings.server == l.applied.server
    ensures RolledBack(settings, l) == own
  {
  }

  lemma RestoreLeaseKeepsJournal(valid: string -> bool, own: Settings, m: Machine, whole: bool)
    requires Good(valid, own, m, whole) && m.lease.Some?
    ensures var (m', r) := RestoreLease(m, m.lease.value);
            && Kept(valid, own, m', whole) && m'.lease in {None, m.lease}
            && (r == Done ==> !m'.cut && m'.settings == own && m'.lease == None)
  {
    var l, m1 := m.lease.value, Advance(m);
    AdvanceKeepsGood(valid, own, m, whole);
    if Coming(m).ret.Fine? {
      if m1.settings.server == l.applied.server {
        RollingBackGivesTheOriginal(valid, own, m1.settings, l);
        WriteBackKeepsJournal(valid, own, m1, whole);
      }
      if m1.settings == own {
        DeleteKeepsJournal(valid, own, m1, whole);
      }
    }
  }

  lemma RestoreKeepsJournal(valid: string -> bool, own: Settings, m: Machine, whole: bool)
    requires Good(valid, own, m, whole)
    ensures var (m', r) := Restore(valid, m);
            && Kept(valid, own, m', whole) && m'.lease in {None, m.lease}
            && (r == Done ==> !m'.cut && m'.settings == own && m'.lease == None)
  {
    AdvanceKeepsGood(valid, own, m, whole);
    if m.lease.Some? {
      RestoreLeaseKeepsJournal(valid, own, Advance(m), whole);
    }
  }

  lemma ConfirmKeepsJournal(valid: string -> bool, own: Settings, m: Machine, l: Lease, whole: bool)
    requires Good(valid, own, m, whole) && m.lease == Some(l) && m.settings == l.applied
    ensures var (m', r) := Confirm(valid, m, l);
            && Kept(valid, own, m', whole)
            && m'.lease in {None, m.lease, Some(l.(confirmed := true))}
            && (r == Done ==> !m'.cut && m'.settings == l.applied && m'.lease == Some(l.(confirmed := true)))
  {
    AdvanceKeepsGood(valid, own, m, whole);
    var (m1, saved) := Save(m, l.(confirmed := true));
    assert Good(valid, own, m1, whole);
    RestoreKeepsJournal(valid, own, m1, whole);
  }

  lemma CheckTakenKeepsJournal(valid: string -> bool, own: Settings, m: Machine, l: Lease, whole: bool)
    requires Good(valid, own, m, whole) && m.lease == Some(l)
    ensures var (m', r) := CheckTaken(valid, m, l);
            && Kept(valid, own, m', whole)
            && m'.lease in {None, m.lease, Some(l.(confirmed := true))}
            && (r == Done ==> !m'.cut && m'.settings == l.applied && m'.lease == Some(l.(confirmed := true)))
  {
    AdvanceKeepsGood(valid, own, m, whole);
    var m1 := Advance(m);
    RestoreKeepsJournal(valid, own, m1, whole);
    if m1.settings == l.applied {
      ConfirmKeepsJournal(valid, own, m1, l, whole);
    }
  }

  /** The lease is written ahead: from here on every state of the settings write is recorded. */
  lemma WriteAheadKeepsJournal(valid: string -> bool, own: Settings, m: Machine, l: Lease, whole: bool)
    requires Good(valid, own, m, whole) && m.settings == own && m.lease == None
    requires valid(l.applied.server) && l == Lease(1, own, Wanted(l.applied.server), false)
    ensures var (m1, saved) := Save(m, l);
            && Good(valid, own, m1, whole)
            && (saved.Got? ==> m1.lease == Some(l) && Good(valid, own, Write(m1, l.applied, ByApply).0, whole))
  {
    AdvanceKeepsGood(valid, own, m, whole);
    var (m1, saved) := Save(m, l);
    AdvanceKeepsGood(valid, own, m1, whole);
  }

  lemma TakeOverKeepsJournal(valid: string -> bool, own: Settings, m: Machine, target: string, whole: bool)
    requires Good(valid, own, m, whole) && m.settings == own && m.lease == None && valid(target)
    ensures var (m', r) := TakeOver(valid, m, target);
            && Kept(valid, own, m', whole)
            && (m'.lease.Some? ==> m'.lease.value.applied == Wanted(target))
            && (r == Done ==> !m'.cut && m'.settings == Wanted(target) &&
                              m'.lease == Some(Lease(1, own, Wanted(target), true)))
  {
    AdvanceKeepsGood(valid, own, m, whole);
    var m1, l := Advance(m), Lease(1, own, Wanted(target), false);
    WriteAheadKeepsJournal(valid, own, m1, l, whole);
    var (m2, saved) := Save(m1, l);
    if saved.Got? {
      var (m3, wrote) := Write(m2, l.applied, ByApply);
      RestoreKeepsJournal(valid, own, m3, whole);
      CheckTakenKeepsJournal(valid, own, m3, l, whole);
    }
  }

  lemma ApplyOverLeaseKeepsJournal(valid: string -> bool, own: Settings, m: Machine, target: string, whole: bool)
    requires Good(valid, own, m, whole) && m.lease.Some? && valid(target)
    ensures var (m', r) := ApplyOverLease(valid, m, m.lease.value, target);
            && Kept(valid, own, m', whole)
            && (r == Done ==> !m'.cut && m'.settings == Wanted(target) &&
                              m'.lease == Some(Lease(1, own, Wanted(target), true)))
  {
    AdvanceKeepsGood(valid, own, m, whole);
    var m1, l := Advance(m), m.lease.value;
    if l.applied.server == target && m1.settings == l.applied {
      AdvanceKeepsGood(valid, own, m1, whole);
      assert Good(valid, own, Save(m1, l.(confirmed := true)).0, whole);
    } else {
      RestoreKeepsJournal(valid, own, m1, whole);
      var (m2, restored) := Restore(valid, m1);
      if restored == Done {
        TakeOverKeepsJournal(valid, own, m2, target, whole);
      }
    }
  }

  lemma ApplyKeepsJournal(valid: string -> bool, own: Settings, m: Machine, target: string, whole: bool)
    requires Good(valid, own, m, whole)
    ensures var (m', r) := Apply(valid, m, target);
            && Kept(valid, own, m', whole)
            && (m.lease == None && m'.lease.Some? ==> m'.lease.value.applied == Wanted(target))
            && (r == Done ==> !m'.cut && m'.settings == Wanted(target) &&
                              m'.lease == Some(Lease(1, own, Wanted(target), true)))
  {
    if valid(target) {
      AdvanceKeepsGood(valid, own, m, whole);
      if m.lease.None? {
        TakeOverKeepsJournal(valid, own, Advance(m), target, whole);
      } else {
        ApplyOverLeaseKeepsJournal(valid, own, Advance(m), target, whole);
      }
    }
  }

  // ----- Unbounded runs -----

  /** One call of the helper process, with what the environment does during it. */
  datatype Operation = ApplyTo(target: string, script: seq<Answer>) | RestoreIt(script: seq<Answer>)

  function Perform(valid: string -> bool, m: Machine, op: Operation): (m': Machine)
    ensures m.cut ==> m'.cut
  {
    match op
    case ApplyTo(target, script) => Apply(valid, m.(script := script), target).0
    case RestoreIt(script) => Restore(valid, m.(script := script)).0
  }

  function RunAll(valid: string -> bool, m: Machine, ops: seq<Operation>): (m': Machine)
    ensures m.cut ==> m'.cut
    decreases |ops|
  {
    if ops == [] then m else RunAll(valid, Perform(valid, m, ops[0]), ops[1..])
  }

  lemma PerformKeepsJournal(valid: string -> bool, own: Settings, m: Machine, op: Operation, whole: bool)
    requires Good(valid, own, m.(script := op.script), whole)
    ensures Kept(valid, own, Perform(valid, m, op).(script := []), whole)
  {
    match op
    case ApplyTo(target, script) => ApplyKeepsJournal(valid, own, m.(script := script), target, whole);
    case RestoreIt(script) => RestoreKeepsJournal(valid, own, m.(script := script), whole);
  }

  /** Over unbounded runs of apply and restore, with anything happening at any call, until a rollback is cut short. */
  lemma {:induction false} RunsKeepTheJournal(valid: string -> bool, own: Settings, m: Machine,
                                             ops: seq<Operation>, whole: bool)
    requires Good(valid, own, m.(script := []), whole)
    requires whole ==> forall i :: 0 <= i < |ops| ==> WritesWhole(ops[i].script)
    ensures RunAll(valid, m, ops).cut ==> !whole
    ensures !RunAll(valid, m, ops).cut ==> Good(valid, own, RunAll(valid, m, ops).(script := []), whole)
    decreases |ops|
  {
    if ops == [] {
    } else {
      PerformKeepsJournal(valid, own, m, ops[0], whole);
      var m' := Perform(valid, m, ops[0]);
      if !m'.cut {
        RunsKeepTheJournal(valid, own, m', ops[1..], whole);
      }
    }
  }

  /**
    A fault-free restore of a journal ends at exactly the user's settings with the lease gone, except
    that it refuses, touching nothing, exactly when the settings are ambiguous.
   */
  lemma RestoreOfAJournal(valid: string -> bool, own: Settings, settings: Settings, lease: Option<Lease>)
    requires Journal(valid, own, settings, lease)
    ensures var (m', r) := Restore(valid, Machine(settings, lease, [], false));
            if Ambiguous(settings, lease)
            then r == Failed && m'.settings == settings && m'.lease == lease
            else r == Done && m'.settings == own && m'.lease == None
  {
    if lease.Some? && settings.server == lease.value.applied.server {
      RollingBackGivesTheOriginal(valid, own, settings, lease.value);
    }
  }

  /** One more restore, with nothing going wrong. */
  function Recover(valid: string -> bool, m: Machine): (Machine, Outcome) {
    Restore(valid, m.(script := []))
  }

  predicate Recovered(own: Settings, m: Machine, after: (Machine, Outcome)) {
    if Ambiguous(m.settings, m.lease) then
      after.1 == Failed && after.0.settings == m.settings && after.0.lease == m.lease
    else after.1 == Done && after.0.settings == own && after.0.lease == None
  }

  lemma LostIsLost(valid: string -> bool, own: Settings, m: Machine)
    requires Lost(valid, own, m)
    ensures var (m', r) := Recover(valid, m); r == Done && m'.lease == None && m'.settings != own
  {
  }

  /**
    From clean, after any run with a crash or an error at any call and torn writes anywhere, one more
    restore gives the user's own settings back or refuses an ambiguous state and leaves it alone, unless
    a restore's own write was cut short over a confirmed lease.
   */
  lemma NoRunLosesTheOriginal(valid: string -> bool, own: Settings, ops: seq<Operation>)
    ensures var m := RunAll(valid, Machine(own, None, [], false), ops);
            !m.cut ==> Recovered(own, m, Recover(valid, m))
  {
    RunsKeepTheJournal(valid, own, Machine(own, None, [], false), ops, false);
    var m := RunAll(valid, Machine(own, None, [], false), ops);
    if !m.cut {
      RestoreOfAJournal(valid, own, m.settings, m.lease);
    }
  }

  /** ... and that condition is exact: the first such cut, inside whichever operation, loses the original silently. */
  lemma TheFirstCutLosesTheOriginal(valid: string -> bool, own: Settings, ops: seq<Operation>, op: Operation)
    ensures var m := RunAll(valid, Machine(own, None, [], false), ops);
            var m' := Perform(valid, m, op);
            var (m'', r) := Recover(valid, m');
            !m.cut && m'.cut ==> r == Done && m''.lease == None && m''.settings != own
  {
    RunsKeepTheJournal(valid, own, Machine(own, None, [], false), ops, false);
    var m := RunAll(valid, Machine(own, None, [], false), ops);
    if !m.cut && Perform(valid, m, op).cut {
      PerformKeepsJournal(valid, own, m, op, false);
      LostIsLost(valid, own, Perform(valid, m, op).(script := []));
    }
  }

  /** When no write is torn, every state of every run is restored to the user's own settings. */
  lemma WholeWritesAreAlwaysUndone(valid: string -> bool, own: Settings, ops: seq<Operation>)
    requires forall i :: 0 <= i < |ops| ==> WritesWhole(ops[i].script)
    ensures var m := RunAll(valid, Machine(own, None, [], false), ops);
            && (m.lease == None ==> m.settings == own)
            && (m.lease.Some? ==> m.lease.value.before == own &&
                                  (m.settings == own || m.settings == m.lease.value.applied))
            && Recover(valid, m) == (Machine(own, None, [], false), Done)
  {
    RunsKeepTheJournal(valid, own, Machine(own, None, [], false), ops, true);
    var m := RunAll(valid, Machine(own, None, [], false), ops);
    RestoreOfAJournal(valid, own, m.settings, m.lease);
  }

  /**
    A torn or failed apply from clean, at any of its calls, followed by a restore: undone, or refused
    exactly when the server is still the old one and something else changed, or, if its own rollback
    was cut short over the confirmed lease, lost.
   */
  lemma InterruptedApplyIsUndoneOrRefused(valid: string -> bool, own: Settings, target: string, script: seq<Answer>)
    ensures var (m, _) := Apply(valid, Machine(own, None, script, false), target);
            var (m', r) := Recover(valid, m);
            && (m.cut <==> r == Done && m'.settings != own)
            && (r == Done ==> m'.lease == None)
            && (r != Done ==> r == Failed && m'.settings == m.settings && m'.lease == m.lease)
            && (r != Done <==> m.lease.Some? && !m.lease.value.confirmed &&
                               m.settings.server == own.server != target && m.settings != own)
  {
    ApplyKeepsJournal(valid, own, Machine(own, None, script, false), target, false);
    var (m, _) := Apply(valid, Machine(own, None, script, false), target);
    if m.cut {
      LostIsLost(valid, own, m);
    } else {
      RestoreOfAJournal(valid, own, m.settings, m.lease);
    }
  }

  // ----- Edits made by others -----

  /** The field is as it was, or held our value and is back to the one before it. */
  predicate KeptOrUndone<T(==)>(was: T, now: T, applied: T, before: T) {
    now == was || (was == applied && now == before)
  }

  /** Only fields that hold our value were changed, and none once the server is someone else's. */
  predicate OnlyOursUndone(was: Settings, now: Settings, lease: Option<Lease>) {
    match lease
    case None => now == was
    case Some(l) =>
      && (was.server != l.applied.server ==> now == was)
      && KeptOrUndone(was.flags, now.flags, l.applied.flags, l.before.flags)
      && KeptOrUndone(was.server, now.server, l.applied.server, l.before.server)
      && KeptOrUndone(was.bypass, now.bypass, l.applied.bypass, l.before.bypass)
      && KeptOrUndone(was.pac, now.pac, l.applied.pac, l.before.pac)
  }

  lemma ARestoreUndoesOnlyOurs(valid: string -> bool, m: Machine)
    ensures var (m', _) := Restore(valid, m);
            OnlyOursUndone(m.settings, m'.settings, m.lease) && m'.lease in {None, m.lease}
  {
    var (m1, lease) := Load(m);
    if lease.Got? && m.lease.Some? {
      ALeasesRestoreUndoesOnlyOurs(m1, m.lease.value);
    }
  }

  lemma ALeasesRestoreUndoesOnlyOurs(m: Machine, l: Lease)
    requires m.lease == Some(l)
    ensures var (m', _) := RestoreLease(m, l);
            OnlyOursUndone(m.settings, m'.settings, m.lease) && m'.lease in {None, m.lease}
  {
    var (m1, read) := Read(m);
    if read.Got? && m.settings.server == l.applied.server && RolledBack(m.settings, l) != m.settings {
      var (m2, wrote) := Write(m1, RolledBack(m.settings, l), ByRestore);
      assert OnlyOursUndone(m.settings, m2.settings, m.lease);
    }
  }

  /** Restores one after the other, each with its own script. */
  function RestoreAll(valid: string -> bool, m: Machine, scripts: seq<seq<Answer>>): Machine
    decreases |scripts|
  {
    if scripts == [] then m else RestoreAll(valid, Restore(valid, m.(script := scripts[0])).0, scripts[1..])
  }

  /**
    Whatever anyone has done to the settings, and whatever the lease says, restores one after the other with
    anything happening at any of their calls undo only fields that hold our value, and nothing at all while the
    server is someone else's.
   */
  lemma {:induction false} OutsideEditsSurvive(valid: string -> bool, m: Machine, scripts: seq<seq<Answer>>)
    ensures OnlyOursUndone(m.settings, RestoreAll(valid, m, scripts).settings, m.lease)
    decreases |scripts|
  {
    if scripts == [] {
    } else {
      var m' := Restore(valid, m.(script := scripts[0])).0;
      ARestoreUndoesOnlyOurs(valid, m.(script := scripts[0]));
      OutsideEditsSurvive(valid, m', scripts[1..]);
      UndoneTwice(m.settings, m'.settings, RestoreAll(valid, m, scripts).settings, m.lease, m'.lease);
    }
  }

  lemma UndoneTwice(was: Settings, between: Settings, now: Settings, lease: Option<Lease>, left: Option<Lease>)
    requires OnlyOursUndone(was, between, lease) && OnlyOursUndone(between, now, left) && left in {None, lease}
    ensures OnlyOursUndone(was, now, lease)
  {
  }

  /** Without a fault, and with a well-formed lease, all such fields are undone, or the settings are ambiguous. */
  lemma AFaultFreeRestoreUndoesOurs(valid: string -> bool, settings: Settings, l: Lease)
    requires l.version == 1 && valid(l.applied.server)
    ensures var (m', r) := Restore(valid, Machine(settings, Some(l), [], false));
            && (settings.server != l.applied.server ==> m'.settings == settings)
            && (settings.server == l.applied.server ==>
                  && r == Done
                  && m'.settings.flags == (if settings.flags == l.applied.flags then l.before.flags else settings.flags)
                  && m'.settings.server == l.before.server
                  && m'.settings.bypass
                     == (if settings.bypass == l.applied.bypass then l.before.bypass else settings.bypass)
                  && m'.settings.pac == (if settings.pac == l.applied.pac then l.before.pac else settings.pac))
            && (r == Done <==> m'.lease == None)
            && (r == Done || (r == Failed && m'.settings == settings && m'.lease == Some(l)))
            && (r == Failed <==> Ambiguous(settings, Some(l)))
  {
  }

  // ----- What a torn restore does -----

  /**
    Any restore of any journal, with anything happening at any of its calls, followed by a fault-free
    one: the user's settings are back, or an ambiguous mixture is refused, or, exactly when the first
    one's write was cut short over a confirmed lease, the lease is dropped and the mixture stays.
   */
  lemma TornRestoreIsRecoveredIff(valid: string -> bool, own: Settings, settings: Settings, lease: Option<Lease>,
                                  script: seq<Answer>)
    requires Journal(valid, own, settings, lease)
    ensures var (m, _) := Restore(valid, Machine(settings, lease, script, false));
            var (m', r) := Recover(valid, m);
            && (m.cut <==> r == Done && m'.settings != own)
            && (m.cut ==> m'.lease == None)
            && (!m.cut ==> Recovered(own, m, (m', r)))
  {
    RestoreKeepsJournal(valid, own, Machine(settings, lease, script, false), false);
    var (m, _) := Restore(valid, Machine(settings, lease, script, false));
    if m.cut {
      LostIsLost(valid, own, m);
    } else {
      RestoreOfAJournal(valid, own, m.settings, m.lease);
    }
  }

  /** An apply to which nothing happens, and its lease. */
  lemma AppliedIsConfirmed(valid: string -> bool, own: Settings, target: string)
    requires valid(target)
    ensures Perform(valid, Machine(own, None, [], false), ApplyTo(target, []))
            == Machine(Wanted(target), Some(Lease(1, own, Wanted(target), true)), [], false)
  {
  }

  /** A concrete run from clean, an apply and a torn restore: the write reaches the server field alone. */
  lemma TornRestoreCanLoseTheOriginal(valid: string -> bool, own: Settings, target: string, l: Lease)
    requires valid(target) && target == "127.0.0.1:2080" && own == Settings(9, "corp.example:8080", "", "")
    requires l == Lease(1, own, Wanted(target), true)
    ensures Perform(valid, Machine(own, None, [], false), ApplyTo(target, []))
            == Machine(Wanted(target), Some(l), [], false)
    ensures var cut := Answer(Crash, false, NO_FIELD, Fields(false, true, false, false));
            var (m, r) := Restore(valid, Machine(Wanted(target), Some(l), [NORMAL, NORMAL, cut], false));
            var (m', r') := Recover(valid, m);
            r == Crashed && m.cut && r' == Done && m'.lease == None && m'.settings != own
  {
    AppliedIsConfirmed(valid, own, target);
    assert own.server[0] != target[0];
    var cut := Answer(Crash, false, NO_FIELD, Fields(false, true, false, false));
    var m0 := Machine(Wanted(target), Some(l), [NORMAL, NORMAL, cut], false);
    var (m1, lease) := Load(m0);
    assert m1.script == [NORMAL, cut];
    var (m2, current) := Read(m1);
    assert m2.script == [cut];
    assert RolledBack(Wanted(target), l) == own;
    var (m3, wrote) := Write(m2, own, ByRestore);
    assert m3.settings == Settings(3, own.server, BYPASS, "") && wrote.Gone?;
  }
}
