/**
  The write-ahead lease over the user's proxy settings (core/control/user_proxy_lease.go).
  Every call to the operating system or to the lease store may succeed, fail with or without having
  had its effect, or be the last thing the process does; a script of answers says which.  What the
  journal guarantees is proved for every script and for unbounded runs of apply and restore.
 */
module UserProxyLease {
  import opened Wrappers

  datatype Settings = Settings(flags: int, server: string, bypass: string, pac: string)

  datatype Lease = Lease(version: int, before: Settings, applied: Settings, confirmed: bool)

  const BYPASS := "localhost;127.0.0.1;[::1]"

  /** The settings that point the user at our loopback inbound. */
  function Wanted(target: string): Settings {
    Settings(3, target, BYPASS, "")
  }

  // ----- The environment -----

  datatype Returned = Fine | Error | Crash

  datatype Fields = Fields(flags: bool, server: bool, bypass: bool, pac: bool)

  const NO_FIELD := Fields(false, false, false, false)
  const ALL_FIELDS := Fields(true, true, true, true)

  /**
    What the environment does with the next call, whichever call that is: how it returns, whether a
    save or delete that does not return normally happened all the same, and the fields that a
    settings write of apply, or of restore, reaches.
   */
  datatype Answer = Answer(ret: Returned, stored: bool, reached: Fields, rolledBack: Fields)

  const NORMAL := Answer(Fine, true, ALL_FIELDS, ALL_FIELDS)

  /**
    The durable state and the answers still to come; past the script every call goes well.  cut is a
    history: some restore's own settings write was cut short (CutShort) over a confirmed lease.
   */
  datatype Machine = Machine(settings: Settings, lease: Option<Lease>, script: seq<Answer>, cut: bool)

  datatype Reply<+T> = Got(value: T) | Refused | Gone

  /** How an operation ended: done, with an error, or by the death of the process. */
  datatype Outcome = Done | Failed | Crashed

  datatype Writer = ByApply | ByRestore

  function Coming(m: Machine): Answer {
    if m.script == [] then NORMAL else m.script[0]
  }

  function Advance(m: Machine): Machine {
    if m.script == [] then m else m.(script := m.script[1..])
  }

  function ReplyOf<T>(ret: Returned, value: T): Reply<T> {
    match ret
    case Fine => Got(value)
    case Error => Refused
    case Crash => Gone
  }

  function OutcomeOf<T>(r: Reply<T>): Outcome {
    match r
    case Got(_) => Done
    case Refused => Failed
    case Gone => Crashed
  }

  /** s with the chosen fields replaced by those of t. */
  function Overlay(s: Settings, t: Settings, which: Fields): Settings {
    Settings(if which.flags then t.flags else s.flags,
             if which.server then t.server else s.server,
             if which.bypass then t.bypass else s.bypass,
             if which.pac then t.pac else s.pac)
  }

  function Read(m: Machine): (Machine, Reply<Settings>) {
    (Advance(m), ReplyOf(Coming(m).ret, m.settings))
  }

  function Load(m: Machine): (Machine, Reply<Option<Lease>>) {
    (Advance(m), ReplyOf(Coming(m).ret, m.lease))
  }

  /** A rollback reached the server field, where the two writes differ there, and left another field as it was. */
  predicate CutShort(l: Lease, settings: Settings, reached: Fields) {
    reached.server && l.before.server != l.applied.server && Overlay(settings, l.before, reached) != l.before
  }

  function Write(m: Machine, s: Settings, who: Writer): (r: (Machine, Reply<()>))
    ensures m.cut ==> r.0.cut
  {
    var reached := if who == ByApply then Coming(m).reached else Coming(m).rolledBack;
    var cut := && who == ByRestore && m.lease.Some? && m.lease.value.confirmed
               && CutShort(m.lease.value, m.settings, reached);
    (Advance(m).(settings := Overlay(m.settings, s, reached), cut := m.cut || cut), ReplyOf(Coming(m).ret, ()))
  }

  function Save(m: Machine, l: Lease): (Machine, Reply<()>) {
    var happened := Coming(m).ret.Fine? || Coming(m).stored;
    (Advance(m).(lease := if happened then Some(l) else m.lease), ReplyOf(Coming(m).ret, ()))
  }

  function Delete(m: Machine): (Machine, Reply<()>) {
    var happened := Coming(m).ret.Fine? || Coming(m).stored;
    (Advance(m).(lease := if happened then None else m.lease), ReplyOf(Coming(m).ret, ()))
  }

  // ----- Apply and restore, as functions of the machine -----

  /** Only the fields still equal to our write go back to what they were. */
  function RolledBack(current: Settings, l: Lease): Settings {
    Overlay(current, l.before, Fields(current.flags == l.applied.flags, current.server == l.applied.server,
                                      current.bypass == l.applied.bypass, current.pac == l.applied.pac))
  }

  /** The settings moved off our server to somewhere the lease can be dropped for. */
  predicate SafeToForget(current: Settings, l: Lease) {
    l.confirmed || current == l.before || current.server != l.before.server
  }

  function DeleteLease(m: Machine): (Machine, Outcome) {
    var (m', r) := Delete(m);
    (m', OutcomeOf(r))
  }

  function WriteBack(m: Machine, want: Settings): (r: (Machine, Outcome))
    ensures m.cut ==> r.0.cut
  {
    var (m1, wrote) := Write(m, want, ByRestore);
    if !wrote.Got? then (m1, OutcomeOf(wrote)) else
    var (m2, got) := Read(m1);
    if !got.Got? then (m2, OutcomeOf(got))
    else if got.value != want then (m2, Failed)
    else DeleteLease(m2)
  }

  function RestoreLease(m: Machine, l: Lease): (r: (Machine, Outcome))
    ensures m.cut ==> r.0.cut
  {
    var (m1, read) := Read(m);
    if !read.Got? then (m1, OutcomeOf(read)) else
    var current := read.value;
    if current.server != l.applied.server then
      if SafeToForget(current, l) then DeleteLease(m1) else (m1, Failed)
    else if RolledBack(current, l) != current then WriteBack(m1, RolledBack(current, l))
    else DeleteLease(m1)
  }

  function Restore(valid: string -> bool, m: Machine): (r: (Machine, Outcome))
    ensures m.cut ==> r.0.cut
  {
    var (m1, lease) := Load(m);
    if !lease.Got? then (m1, OutcomeOf(lease))
    else if lease.value.None? then (m1, Done)
    else if lease.value.value.version != 1 || !valid(lease.value.value.applied.server) then (m1, Failed)
    else RestoreLease(m1, lease.value.value)
  }

  /** After an error of its own apply reports that error, whatever the rollback says. */
  function RollBackAfterError(valid: string -> bool, m: Machine): (r: (Machine, Outcome))
    ensures m.cut ==> r.0.cut
  {
    var (m', r) := Restore(valid, m);
    (m', if r == Crashed then Crashed else Failed)
  }

  function Confirm(valid: string -> bool, m: Machine, l: Lease): (r: (Machine, Outcome))
    ensures m.cut ==> r.0.cut
  {
    var (m1, saved) := Save(m, l.(confirmed := true));
    if saved.Refused? then RollBackAfterError(valid, m1) else (m1, OutcomeOf(saved))
  }

  function CheckTaken(valid: string -> bool, m: Machine, l: Lease): (r: (Machine, Outcome))
    ensures m.cut ==> r.0.cut
  {
    var (m1, got) := Read(m);
    if got.Gone? then (m1, Crashed)
    else if got.Refused? || got.value != l.applied then RollBackAfterError(valid, m1)
    else Confirm(valid, m1, l)
  }

  function TakeOver(valid: string -> bool, m: Machine, target: string): (r: (Machine, Outcome))
    ensures m.cut ==> r.0.cut
  {
    var (m1, before) := Read(m);
    if !before.Got? then (m1, OutcomeOf(before)) else
    var l := Lease(1, before.value, Wanted(target), false);
    var (m2, saved) := Save(m1, l);
    if !saved.Got? then (m2, OutcomeOf(saved)) else
    var (m3, wrote) := Write(m2, l.applied, ByApply);
    if wrote.Gone? then (m3, Crashed)
    else if wrote.Refused? then RollBackAfterError(valid, m3)
    else CheckTaken(valid, m3, l)
  }

  function ApplyOverLease(valid: string -> bool, m: Machine, l: Lease, target: string): (r: (Machine, Outcome))
    ensures m.cut ==> r.0.cut
  {
    var (m1, read) := Read(m);
    if !read.Got? then (m1, OutcomeOf(read))
    else if l.version == 1 && l.applied.server == target && read.value == l.applied then
      if l.confirmed then (m1, Done) else
      var (m2, saved) := Save(m1, l.(confirmed := true));
      (m2, OutcomeOf(saved))
    else
      var (m2, restored) := Restore(valid, m1);
      if restored == Done then TakeOver(valid, m2, target) else (m2, restored)
  }

  function Apply(valid: string -> bool, m: Machine, target: string): (r: (Machine, Outcome))
    ensures m.cut ==> r.0.cut
  {
    if !valid(target) then (m, Failed) else
    var (m1, lease) := Load(m);
    if !lease.Got? then (m1, OutcomeOf(lease))
    else if lease.value.Some? then ApplyOverLease(valid, m1, lease.value.value, target)
    else TakeOver(valid, m1, target)
  }

  // ----- The code, step by step -----

  class UserProxy {
    /** Whether a target is a loopback IP and a port; the parsing is the standard library's. */
    const valid: string -> bool
    var settings: Settings
    var lease: Option<Lease>
    var script: seq<Answer>
    var cut: bool

    function Abstract(): Machine
      reads this
    {
      Machine(settings, lease, script, cut)
    }

    constructor (valid: string -> bool, settings: Settings, lease: Option<Lease>, cut: bool, script: seq<Answer>)
      ensures this.valid == valid && Abstract() == Machine(settings, lease, script, cut)
    {
      this.valid, this.settings, this.lease, this.cut, this.script := valid, settings, lease, cut, script;
    }

    method Next() returns (a: Answer)
      modifies this`script
      ensures a == Coming(old(Abstract())) && Abstract() == Advance(old(Abstract()))
    {
      if script == [] {
        return NORMAL;
      }
      a := script[0];
      script := script[1..];
    }

    method ReadSettings() returns (r: Reply<Settings>)
      modifies this`script
      ensures (Abstract(), r) == Read(old(Abstract()))
    {
      var a := Next();
      r := ReplyOf(a.ret, settings);
    }

    method LoadLease() returns (r: Reply<Option<Lease>>)
      modifies this`script
      ensures (Abstract(), r) == Load(old(Abstract()))
    {
      var a := Next();
      r := ReplyOf(a.ret, lease);
    }

    method WriteSettings(s: Settings, who: Writer) returns (r: Reply<()>)
      modifies this`script, this`settings, this`cut
      ensures (Abstract(), r) == Write(old(Abstract()), s, who)
    {
      var a := Next();
      if who == ByRestore && lease.Some? && lease.value.confirmed && CutShort(lease.value, settings, a.rolledBack) {
        cut := true;
      }
      settings := Overlay(settings, s, if who == ByApply then a.reached else a.rolledBack);
      r := ReplyOf(a.ret, ());
    }

    method SaveLease(l: Lease) returns (r: Reply<()>)
      modifies this`script, this`lease
      ensures (Abstract(), r) == Save(old(Abstract()), l)
    {
      var a := Next();
      if a.ret.Fine? || a.stored {
        lease := Some(l);
      }
      r := ReplyOf(a.ret, ());
    }

    method DropLease() returns (r: Reply<()>)
      modifies this`script, this`lease
      ensures (Abstract(), r) == Delete(old(Abstract()))
    {
      var a := Next();
      if a.ret.Fine? || a.stored {
        lease := None;
      }
      r := ReplyOf(a.ret, ());
    }

    method RestoreUserProxy() returns (outcome: Outcome)
      modifies this
      ensures (Abstract(), outcome) == Restore(valid, old(Abstract()))
    {
      var loaded := LoadLease();
      if !loaded.Got? {
        return OutcomeOf(loaded);
      }
      if loaded.value.None? {
        return Done;
      }
      var l := loaded.value.value;
      if l.version != 1 || !valid(l.applied.server) {
        return Failed;
      }
      var read := ReadSettings();
      if !read.Got? {
        return OutcomeOf(read);
      }
      var current := read.value;
      if current.server != l.applied.server {
        if l.confirmed || current == l.before || current.server != l.before.server {
          var deleted := DropLease();
          return OutcomeOf(deleted);
        }
        return Failed;
      }
      var want := current;
      if current.flags == l.applied.flags {
        want := want.(flags := l.before.flags);
      }
      if current.server == l.applied.server {
        want := want.(server := l.before.server);
      }
      if current.bypass == l.applied.bypass {
        want := want.(bypass := l.before.bypass);
      }
      if current.pac == l.applied.pac {
        want := want.(pac := l.before.pac);
      }
      if want != current {
        var wrote := WriteSettings(want, ByRestore);
        if !wrote.Got? {
          return OutcomeOf(wrote);
        }
        var got := ReadSettings();
        if !got.Got? {
          return OutcomeOf(got);
        }
        if got.value != want {
          return Failed;
        }
      }
      var deleted := DropLease();
      return OutcomeOf(deleted);
    }

    method JoinRollback() returns (outcome: Outcome)
      modifies this
      ensures (Abstract(), outcome) == RollBackAfterError(valid, old(Abstract()))
    {
      var r := RestoreUserProxy();
      return if r == Crashed then Crashed else Failed;
    }

    method ApplyUserProxy(target: string) returns (outcome: Outcome)
      modifies this
      ensures (Abstract(), outcome) == Apply(valid, old(Abstract()), target)
    {
      if !valid(target) {
        return Failed;
      }
      var loaded := LoadLease();
      if !loaded.Got? {
        return OutcomeOf(loaded);
      }
      if loaded.value.Some? {
        var l := loaded.value.value;
        var current := ReadSettings();
        if !current.Got? {
          return OutcomeOf(current);
        }
        if l.version == 1 && l.applied.server == target && current.value == l.applied {
          if !l.confirmed {
            var saved := SaveLease(l.(confirmed := true));
            return OutcomeOf(saved);
          }
          return Done;
        }
        var restored := RestoreUserProxy();
        if restored != Done {
          return restored;
        }
      }
      outcome := TakeOverSettings(target);
    }

    method TakeOverSettings(target: string) returns (outcome: Outcome)
      modifies this
      ensures (Abstract(), outcome) == TakeOver(valid, old(Abstract()), target)
    {
      var before := ReadSettings();
      if !before.Got? {
        return OutcomeOf(before);
      }
      var want := Settings(3, target, BYPASS, "");
      var newLease := Lease(1, before.value, want, false);
      var saved := SaveLease(newLease);
      if !saved.Got? {
        return OutcomeOf(saved);
      }
      var wrote := WriteSettings(want, ByApply);
      if wrote.Gone? {
        return Crashed;
      }
      if wrote.Refused? {
        outcome := JoinRollback();
        return;
      }
      var got := ReadSettings();
      if got.Gone? {
        return Crashed;
      }
      if got.Refused? || got.value != want {
        outcome := JoinRollback();
        return;
      }
      newLease := newLease.(confirmed := true);
      var confirmed := SaveLease(newLease);
      if confirmed.Refused? {
        outcome := JoinRollback();
        return;
      }
      return OutcomeOf(confirmed);
    }
  }
}
