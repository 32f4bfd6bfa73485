/** Installing and uninstalling the listener service. The host is an object that answers from a script: for every
    script, every call into it may succeed or fail, a failed call may leave its own part of the host in any state,
    and the service moves on its own between calls. */
module ListenerInstall {
  import opened Wrappers

  type Bytes = string
  type Command = seq<string>

  datatype Config = Config(executable: string, settings: string)

  /** The printer and reader of the config file. */
  datatype Format = Format(content: Config -> Bytes, read: Bytes -> Option<Config>)

  const CONFIG_FILE := "listener.json"

  function ServiceCommand(c: Config): Command
  {
    [c.executable, "listener", "_run", "--runtime-config", CONFIG_FILE]
  }

  datatype Health = Absent | Stopped | Healthy | Unhealthy

  /** `RolledBack` re-raises the original failure; `RollbackFailed` reports rollback errors as well. */
  datatype Outcome = AlreadyHealthy | Refused | Installed | RolledBack | RollbackFailed

  /** What the host answers to one call: whether it succeeds, what a failed call leaves behind, how the service
      has moved meanwhile, and whether the process and its custody are settled as the caller waits for. */
  datatype Answer = Answer(
    ok: bool,
    registration: Option<Command>,
    config: Option<Bytes>,
    stateRoot: bool,
    running: bool,
    sound: bool,
    lockHeld: bool,
    settled: bool)

  /** The order in which `listener_status` decides; everything past `running` is `sound`. */
  function HealthOf(registration: Option<Command>, running: bool, sound: bool): Health
  {
    if registration.None? then Absent else if !running then Stopped else if sound then Healthy else Unhealthy
  }

  /** One look at the service that ends the wait: the health is wanted, a service that is down has let go of its
      lock, and the process and its custody are settled. */
  predicate GoodLook(a: Answer, registration: Option<Command>, expected: set<Health>)
  {
    var health := HealthOf(registration, a.running, a.sound);
    health in expected && (health in {Absent, Stopped} ==> !a.lockHeld) && a.settled
  }

  /** Where the script is after the first good look of a wait, if there is one before the time is over. */
  function PastLook(
    script: nat -> Answer, registration: Option<Command>, expected: set<Health>, at: nat, polls: nat): Option<nat>
    decreases polls
  {
    if polls == 0 then None
    else if GoodLook(script(at), registration, expected) then Some(at + 1)
    else PastLook(script, registration, expected, at + 1, polls - 1)
  }

  lemma {:induction false} PastLookIff(
    script: nat -> Answer, registration: Option<Command>, expected: set<Health>, at: nat, polls: nat)
    ensures var r := PastLook(script, registration, expected, at, polls);
      && (r.Some? ==> at < r.value <= at + polls && GoodLook(script(r.value - 1), registration, expected))
      && (forall k :: at <= k < (if r.Some? then r.value - 1 else at + polls) ==> !GoodLook(script(k), registration, expected))
    decreases polls
  {
    if polls > 0 && !GoodLook(script(at), registration, expected) {
      PastLookIff(script, registration, expected, at + 1, polls - 1);
    }
  }

  class Host {
    const script: nat -> Answer
    var at: nat
    var config: Option<Bytes>
    var registration: Option<Command>
    var enabled: bool
    var staged: Option<Bytes>
    var running: bool
    var sound: bool
    var lockHeld: bool
    var stateRoot: bool

    constructor (script: nat -> Answer, config: Option<Bytes>)
      ensures this.script == script && at == 0 && this.config == config && registration.None? && staged.None?
    {
      this.script, at, this.config := script, 0, config;
      registration, enabled, staged := None, false, None;
      running, sound, lockHeld, stateRoot := false, false, false, config.Some?;
    }

    function HealthNow(): Health
      reads this
    {
      HealthOf(registration, running, sound)
    }

    /** The answer to the next call. */
    method Ask() returns (a: Answer)
      modifies `at
      ensures a == script(old(at)) && at == old(at) + 1
    {
      a := script(at);
      at := at + 1;
    }

    /** The service and its process move on their own; files and registration do not. */
    method Elapse() returns (settled: bool)
      modifies `at, `running, `sound, `lockHeld
      ensures at == old(at) + 1 && settled == script(old(at)).settled
      ensures running == script(old(at)).running && sound == script(old(at)).sound && lockHeld == script(old(at)).lockHeld
    {
      var a := Ask();
      running, sound, lockHeld, settled := a.running, a.sound, a.lockHeld, a.settled;
    }

    /** Polls until the first good look, or times out. */
    method WaitForHealth(expected: set<Health>, polls: nat) returns (ok: bool)
      modifies `at, `running, `sound, `lockHeld
      ensures ok <==> PastLook(script, registration, expected, old(at), polls).Some?
      ensures ok ==> HealthNow() in expected && Some(at) == PastLook(script, registration, expected, old(at), polls)
    {
      ok := false;
      var left := polls;
      while left > 0 && !ok
        invariant left <= polls && at <= old(at) + polls
        invariant ok ==> HealthNow() in expected
        invariant !ok ==> at == old(at) + (polls - left)
        invariant PastLook(script, registration, expected, old(at), polls)
               == if ok then Some(at) else PastLook(script, registration, expected, at, left)
      {
        var settled := Elapse();
        ok := HealthNow() in expected && (HealthNow() in {Absent, Stopped} ==> !lockHeld) && settled;
        left := left - 1;
      }
    }

    method Register(command: Command) returns (ok: bool)
      modifies `at, `registration, `enabled
      ensures ok == script(old(at)).ok && at == old(at) + 1
      ensures ok ==> registration == Some(command)
    {
      var a := Ask();
      ok := a.ok;
      registration, enabled := if ok then Some(command) else a.registration, a.settled;
    }

    method Unregister() returns (ok: bool)
      modifies `at, `registration
      ensures ok == script(old(at)).ok && at == old(at) + 1
      ensures ok ==> registration == None
    {
      var a := Ask();
      ok := a.ok;
      registration := if ok then None else a.registration;
    }

    method Stop() returns (ok: bool)
      modifies `at, `running
      ensures ok == script(old(at)).ok && at == old(at) + 1
    {
      var a := Ask();
      ok, running := a.ok, a.running;
    }

    method Stage(content: Bytes) returns (ok: bool)
      requires staged.None?
      modifies `at, `staged
      ensures ok == script(old(at)).ok && at == old(at) + 1
      ensures staged == if ok then Some(content) else None
    {
      var a := Ask();
      ok := a.ok;
      if ok { staged := Some(content); }
    }

    /** `os.replace` of the staged file: all or nothing. */
    method Promote() returns (ok: bool)
      requires staged.Some?
      modifies `at, `config, `staged
      ensures ok == script(old(at)).ok && at == old(at) + 1
      ensures if ok then config == old(staged) && staged.None? else config == old(config) && staged == old(staged)
    {
      var a := Ask();
      ok := a.ok;
      if ok { config, staged := staged, None; }
    }

    method DiscardStaged()
      modifies `staged
      ensures staged.None?
    {
      staged := None;
    }

    method AtomicWrite(content: Bytes) returns (ok: bool)
      modifies `at, `config
      ensures ok == script(old(at)).ok && at == old(at) + 1
      ensures config == if ok then Some(content) else old(config)
    {
      var a := Ask();
      ok := a.ok;
      if ok { config := Some(content); }
    }

    method RemoveConfig() returns (ok: bool)
      modifies `at, `config
      ensures ok == script(old(at)).ok && at == old(at) + 1
      ensures config == if ok then None else old(config)
    {
      var a := Ask();
      ok := a.ok;
      if ok { config := None; }
    }

    /** Reading the pid of the heartbeat, and creating the database and clearing the stop request: only success or
        failure matters. */
    method Touch() returns (ok: bool)
      modifies `at
      ensures ok == script(old(at)).ok && at == old(at) + 1
    {
      var a := Ask();
      ok := a.ok;
    }

    method RemoveStateRoot() returns (ok: bool)
      modifies `at, `stateRoot, `config
      ensures ok == script(old(at)).ok && at == old(at) + 1
      ensures ok ==> !stateRoot && config.None?
    {
      var a := Ask();
      ok := a.ok;
      stateRoot, config := if ok then false else a.stateRoot, if ok then None else a.config;
    }
  }

  // ---------------------------------------------------------------- installing

  /** Where the script is once the old service was stopped and a look showed it down with its lock released. */
  function PastStop(script: nat -> Answer, registration: Option<Command>, at: nat, polls: nat): Option<nat>
  {
    if script(at).ok then PastLook(script, registration, {Absent, Stopped}, at + 1, polls) else None
  }

  /** The new config is promoted, the store created, the service registered and, if anyone waits for it, healthy. */
  predicate Renews(script: nat -> Answer, requested: Config, wait: bool, at: nat, polls: nat)
  {
    && script(at).ok && script(at + 1).ok && script(at + 2).ok
    && (wait ==> PastLook(script, Some(ServiceCommand(requested)), {Healthy}, at + 3, polls).Some?)
  }

  /** The body of the inner `try`: stops the old service, replaces the config, registers the new. */
  method Replace(h: Host, wasInstalled: bool, requested: Config, content: Bytes, wait: bool, polls: nat)
    returns (ok: bool)
    requires h.staged == Some(content)
    modifies h`at, h`config, h`registration, h`enabled, h`staged, h`running, h`sound, h`lockHeld
    ensures ok ==> h.config == Some(content) && h.registration == Some(ServiceCommand(requested))
    ensures ok && wait ==> h.HealthNow() == Healthy
    ensures h.config == old(h.config) || h.config == Some(content)
    ensures !wasInstalled && !h.script(old(h.at)).ok ==> !ok && h.at == old(h.at) + 1 && h.registration == old(h.registration)
    ensures ok <==>
      (var from := if wasInstalled then PastStop(h.script, old(h.registration), old(h.at), polls) else Some(old(h.at));
       from.Some? && Renews(h.script, requested, wait, from.value, polls))
    ensures wasInstalled && h.config != old(h.config) ==> PastStop(h.script, old(h.registration), old(h.at), polls).Some?
  {
    if wasInstalled {
      ok := StopOld(h, polls);
      if !ok { return; }
    }
    ok := Renew(h, requested, content, wait, polls);
  }

  method StopOld(h: Host, polls: nat) returns (ok: bool)
    modifies h`at, h`running, h`sound, h`lockHeld
    ensures ok <==> PastStop(h.script, h.registration, old(h.at), polls).Some?
    ensures ok ==> PastStop(h.script, h.registration, old(h.at), polls) == Some(h.at)
  {
    ok := h.Stop();
    if ok {
      ok := h.WaitForHealth({Absent, Stopped}, polls);
    }
  }

  method Renew(h: Host, requested: Config, content: Bytes, wait: bool, polls: nat) returns (ok: bool)
    requires h.staged == Some(content)
    modifies h`at, h`config, h`registration, h`enabled, h`staged, h`running, h`sound, h`lockHeld
    ensures ok <==> Renews(h.script, requested, wait, old(h.at), polls)
    ensures ok ==> h.config == Some(content) && h.registration == Some(ServiceCommand(requested))
    ensures ok && wait ==> h.HealthNow() == Healthy
    ensures h.config == old(h.config) || h.config == Some(content)
    ensures !h.script(old(h.at)).ok ==> h.at == old(h.at) + 1 && h.registration == old(h.registration)
  {
    ok := h.Promote();
    if !ok { return; }
    ok := h.Touch();
    if !ok { return; }
    ok := h.Register(ServiceCommand(requested));
    if !ok { return; }
    if wait {
      ok := h.WaitForHealth({Healthy}, polls);
    }
  }

  /** The host answers every call of a rollback well: the failed service is removed and seen absent with its lock
      released, and the config is removed or what was there before is back and healthy. */
  predicate RollsBackWell(script: nat -> Answer, previous: Option<(Config, Bytes)>, at: nat, polls: nat)
  {
    var k := PastRemoval(script, at + 1, polls);
    script(at).ok && k.Some? && Restores(script, previous, k.value, polls)
  }

  function PastRemoval(script: nat -> Answer, at: nat, polls: nat): Option<nat>
  {
    if script(at).ok then PastLook(script, None, {Absent}, at + 1, polls) else None
  }

  predicate Restores(script: nat -> Answer, previous: Option<(Config, Bytes)>, at: nat, polls: nat)
  {
    script(at).ok &&
    (previous.Some? ==>
       && script(at + 1).ok && script(at + 2).ok
       && PastLook(script, Some(ServiceCommand(previous.value.0)), {Healthy}, at + 3, polls).Some?)
  }

  /** The rollback: `errors` counts the blocks that failed. */
  method RollBack(h: Host, previous: Option<(Config, Bytes)>, polls: nat) returns (errors: nat)
    modifies h`at, h`config, h`registration, h`enabled, h`running, h`sound, h`lockHeld
    ensures errors == 0 && previous.None? ==> h.config.None? && h.registration.None?
    ensures errors == 0 && previous.Some? ==>
      && h.config == Some(previous.value.1)
      && h.registration == Some(ServiceCommand(previous.value.0))
      && h.HealthNow() == Healthy
    ensures errors == 0 <==> RollsBackWell(h.script, previous, old(h.at), polls)
    ensures h.config == old(h.config) || h.config == if previous.Some? then Some(previous.value.1) else None
  {
    errors := 0;
    var ok := h.Touch();
    if !ok {
      errors := errors + 1;
    }
    ok := RemoveFailed(h, polls);
    if !ok {
      errors := errors + 1;
    }
    ok := RestorePrevious(h, previous, polls);
    if !ok {
      errors := errors + 1;
    }
  }

  method RemoveFailed(h: Host, polls: nat) returns (ok: bool)
    modifies h`at, h`registration, h`running, h`sound, h`lockHeld
    ensures ok <==> PastRemoval(h.script, old(h.at), polls).Some?
    ensures ok ==> h.registration.None? && PastRemoval(h.script, old(h.at), polls) == Some(h.at)
  {
    ok := h.Unregister();
    if ok {
      ok := h.WaitForHealth({Absent}, polls);
    }
  }

  method RestorePrevious(h: Host, previous: Option<(Config, Bytes)>, polls: nat) returns (ok: bool)
    modifies h`at, h`config, h`registration, h`enabled, h`running, h`sound, h`lockHeld
    ensures ok <==> Restores(h.script, previous, old(h.at), polls)
    ensures h.config == old(h.config) || h.config == if previous.Some? then Some(previous.value.1) else None
    ensures ok && previous.None? ==> h.config.None? && h.registration == old(h.registration)
    ensures ok && previous.Some? ==>
      && h.config == Some(previous.value.1)
      && h.registration == Some(ServiceCommand(previous.value.0))
      && h.HealthNow() == Healthy
  {
    if previous.None? {
      ok := h.RemoveConfig();
      return;
    }
    ok := h.AtomicWrite(previous.value.1);
    if !ok { return; }
    ok := h.Touch();
    if !ok { return; }
    ok := h.Register(ServiceCommand(previous.value.0));
    if !ok { return; }
    ok := h.WaitForHealth({Healthy}, polls);
  }

  /** A fresh installation that fails when the staged config is promoted. */
  predicate FailsAtPromotion(script: nat -> Answer, at: nat, polls: nat)
  {
    script(at).ok && script(at + 1).ok && !script(at + 2).ok && RollsBackWell(script, None, at + 3, polls)
  }

  /** The outer `try`: replaces what is there, or rolls back. */
  method Transact(h: Host, previous: Option<(Config, Bytes)>, requested: Config, content: Bytes, wait: bool, polls: nat)
    returns (r: Outcome)
    requires h.staged == Some(content)
    modifies h`at, h`config, h`registration, h`enabled, h`staged, h`running, h`sound, h`lockHeld
    ensures r in {Installed, RolledBack, RollbackFailed}
    ensures r == Installed ==>
      && h.config == Some(content) && h.registration == Some(ServiceCommand(requested))
      && (wait ==> h.HealthNow() == Healthy)
    ensures r == RolledBack && previous.Some? ==>
      && h.config == Some(previous.value.1) && h.registration == Some(ServiceCommand(previous.value.0))
      && h.HealthNow() == Healthy
    ensures r == RolledBack && previous.None? ==> h.config.None? && h.registration.None?
    ensures previous.None? ==> (r == Installed <==> Renews(h.script, requested, wait, old(h.at), polls))
    ensures previous.None? && !h.script(old(h.at)).ok && RollsBackWell(h.script, None, old(h.at) + 1, polls) ==> r == RolledBack
    ensures previous.Some? && old(h.config) == Some(previous.value.1) && h.config != old(h.config) ==>
      PastStop(h.script, old(h.registration), old(h.at), polls).Some?
  {
    var ok := Replace(h, previous.Some?, requested, content, wait, polls);
    if ok {
      return Installed;
    }
    var errors := RollBack(h, previous, polls);
    r := if errors == 0 then RolledBack else RollbackFailed;
  }

  /** Installation is a transaction: it succeeds with the requested config and command, or leaves
      things alone, or restores what was there. A service that was installed ends with its exact
      former config bytes, registered with the command of its former config, and healthy; an
      installation that starts from nothing ends with no config and no registration. */
  method Install(h: Host, f: Format, requested: Config, wait: bool, polls: nat) returns (r: Outcome)
    requires h.staged.None?
    modifies h`at, h`config, h`registration, h`enabled, h`staged, h`running, h`sound, h`lockHeld
    ensures h.staged.None?
    ensures r in {AlreadyHealthy, Refused} ==> h.config == old(h.config) && h.registration == old(h.registration)
    ensures r == AlreadyHealthy <==>
      && old(h.config) == Some(f.content(requested)) && f.read(f.content(requested)).Some?
      && old(h.enabled) && old(h.HealthNow()) == Healthy
    ensures r == AlreadyHealthy ==> h.HealthNow() == Healthy
    ensures r == Refused <==>
      || (old(h.registration).Some? && (old(h.config).None? || f.read(old(h.config).value).None?))
      || (r != AlreadyHealthy && !(h.script(old(h.at)).ok && h.script(old(h.at) + 1).ok))
    ensures r == Installed ==>
      && h.config == Some(f.content(requested))
      && h.registration == Some(ServiceCommand(requested))
      && (wait ==> h.HealthNow() == Healthy)
    ensures r == RolledBack && old(h.registration).Some? ==>
      && old(h.config).Some? && f.read(old(h.config).value).Some?
      && h.config == old(h.config)
      && h.registration == Some(ServiceCommand(f.read(old(h.config).value).value))
      && h.HealthNow() == Healthy
    ensures r == RolledBack && old(h.registration).None? ==> h.config.None? && h.registration.None?
    // Rolling back restores config and registration exactly when the service was registered with
    // the command of its own config, or was not installed and had no config file lying about.
    ensures r == RolledBack ==>
      (h.config == old(h.config) && h.registration == old(h.registration) <==>
        if old(h.registration).None? then old(h.config).None?
        else old(h.config).Some? && f.read(old(h.config).value).Some?
             && old(h.registration) == Some(ServiceCommand(f.read(old(h.config).value).value)))
    ensures old(h.registration).None? && FailsAtPromotion(h.script, old(h.at), polls) ==> r == RolledBack
    // A fresh installation succeeds exactly when every call does and, if anyone waits for it, a look shows it healthy.
    ensures old(h.registration).None? ==>
      (r == Installed <==> h.script(old(h.at)).ok && h.script(old(h.at) + 1).ok
                           && Renews(h.script, requested, wait, old(h.at) + 2, polls))
    // The config of an installed service is not touched before the service was seen down with its lock released.
    ensures old(h.registration).Some? && h.config != old(h.config) ==>
      PastStop(h.script, old(h.registration), old(h.at) + 2, polls).Some?
  {
    var installed := h.registration.Some?;
    var previous: Option<(Config, Bytes)> := None;
    var content := f.content(requested);
    if installed {
      if h.config.None? {
        return Refused;
      }
      var parsed := f.read(h.config.value);
      if parsed.None? {
        return Refused;
      }
      previous := Some((parsed.value, h.config.value));
      if h.config.value == content && h.enabled && h.running && h.HealthNow() == Healthy {
        return AlreadyHealthy;
      }
    }
    var ok := h.Touch();
    if !ok {
      return Refused;
    }
    ok := h.Stage(content);
    if !ok {
      return Refused;
    }
    r := Transact(h, previous, requested, content, wait, polls);
    h.DiscardStaged();
  }

  /** A config file lies about, the service is not registered, and only promotion will fail. */
  predicate HasStray(h: Host, polls: nat, stray: Bytes)
    reads h
  {
    h.config == Some(stray) && h.registration.None? && h.staged.None? && FailsAtPromotion(h.script, h.at, polls)
  }

  method HostWithStray(polls: nat, stray: Bytes) returns (h: Host)
    requires polls > 0
    ensures fresh(h) && HasStray(h, polls, stray)
  {
    h := new Host((n: nat) => Answer(n != 2, None, None, false, false, false, false, true), Some(stray));
  }

  /** On every such host the rollback reports no error and the file is gone. */
  method StrayConfigIsLost(h: Host, f: Format, requested: Config, wait: bool, polls: nat, stray: Bytes) returns (r: Outcome)
    requires HasStray(h, polls, stray)
    modifies h
    ensures r == RolledBack && h.config.None? && old(h.config) == Some(stray)
  {
    r := Install(h, f, requested, wait, polls);
  }

  // -------------------------------------------------------------- uninstalling

  /** One round of looks, one after the other: first the lock is free, then the process is gone. */
  predicate QuietRound(script: nat -> Answer, at: nat)
  {
    !script(at).lockHeld && script(at + 1).settled
  }

  /** The round that begins after i others. */
  predicate QuietAfter(script: nat -> Answer, at: nat, i: nat)
  {
    QuietRound(script, at + 2 * i)
  }

  predicate SomeQuiet(script: nat -> Answer, at: nat, polls: nat)
  {
    exists i :: 0 <= i <= polls && QuietAfter(script, at, i)
  }

  /** `_wait_for_native_absence`: polls until one round of looks shows the registration absent, the lock released
      and the process gone, or times out. The service may move between two looks. */
  method WaitForAbsence(h: Host, polls: nat) returns (seen: Option<nat>)
    modifies h`at, h`running, h`sound, h`lockHeld
    ensures seen.Some? ==> old(h.at) <= seen.value && h.at == seen.value + 2 && QuietRound(h.script, seen.value)
    ensures seen.Some? <==> h.registration.None? && SomeQuiet(h.script, old(h.at), polls)
  {
    seen := None;
    var installed := h.registration.Some?;
    var i := 0;
    while true
      invariant i <= polls && seen.None? && installed == h.registration.Some? && h.at == old(h.at) + 2 * i
      invariant forall j :: 0 <= j < i ==> installed || !QuietAfter(h.script, old(h.at), j)
      decreases polls - i
    {
      assert QuietAfter(h.script, old(h.at), i) == QuietRound(h.script, h.at);
      var _ := h.Elapse();
      var lockFree := !h.lockHeld;
      var processGone := h.Elapse();
      if !installed && lockFree && processGone {
        return Some(h.at - 2);
      }
      if i == polls {
        return None;
      }
      i := i + 1;
      installed := h.registration.Some?;
    }
  }

  /** State is deleted only after one round of looks showed the registration absent, the lock released and the
      process gone. Success means that every call succeeded and all of it is gone. */
  method Uninstall(h: Host, polls: nat) returns (ok: bool, seen: Option<nat>)
    modifies h
    ensures seen.Some? ==> old(h.at) + 2 <= seen.value && QuietRound(h.script, seen.value) && h.registration.None?
    ensures seen.None? ==> !ok && h.stateRoot == old(h.stateRoot) && h.config == old(h.config)
    // A listener that holds its lock, or whose process is still there, at every look loses nothing.
    ensures (forall k :: old(h.at) <= k ==> h.script(k).lockHeld) || (forall k :: old(h.at) <= k ==> !h.script(k).settled) ==>
      !ok && h.stateRoot == old(h.stateRoot) && h.config == old(h.config)
    ensures ok <==>
      && h.script(old(h.at)).ok && h.script(old(h.at) + 1).ok
      && seen.Some? && h.script(seen.value + 2).ok
    ensures h.script(old(h.at)).ok && h.script(old(h.at) + 1).ok ==>
      (seen.Some? <==> SomeQuiet(h.script, old(h.at) + 2, polls))
    ensures ok ==> !h.stateRoot && h.config.None? && h.registration.None?
  {
    seen := None;
    ok := h.Touch();
    if !ok {
      return;
    }
    var unregistered := h.Unregister();
    seen := WaitForAbsence(h, polls);
    var removed := false;
    if seen.Some? {
      removed := h.RemoveStateRoot();
    }
    ok := unregistered && removed;
  }
}
