/**
 * The service manager: enables and starts systemd units with systemctl,
 * checking each exit status.
 */
module Services {
  import opened Text
  import opened Exec

  /** The only init system there is; every operation dispatches on it. */
  datatype InitSystem = Systemd

  function SystemctlEnable(service: string): Effect {
    Cmd("systemctl", ["enable", service], None)
  }

  function SystemctlStart(service: string): Effect {
    Cmd("systemctl", ["start", service], None)
  }

  /** A launch failure propagates as it is (`?` without context). */
  function EnableStep(service: string): Action {
    Check(SystemctlEnable(service), SpawnFailed, Message("Failed to enable service: " + service))
  }

  function StartStep(service: string): Action {
    Check(SystemctlStart(service), SpawnFailed, Message("Failed to start service: " + service))
  }

  /** The services set up on every installed system, in this order. */
  const EssentialServices: seq<string> :=
    ["NetworkManager", "bluetooth", "pipewire", "pipewire-pulse", "sddm"]

  /** Enable then start each service, in list order. */
  function SetupPlan(services: seq<string>): (plan: seq<Action>)
    ensures |plan| == 2 * |services|
  {
    seq(2 * |services|, k requires 0 <= k < 2 * |services| =>
      if k % 2 == 0 then EnableStep(services[k / 2]) else StartStep(services[k / 2]))
  }

  /** Service i is enabled by step 2i and started by step 2i + 1. */
  lemma SetupPlanAt(services: seq<string>, i: nat)
    requires i < |services|
    ensures SetupPlan(services)[2 * i] == EnableStep(services[i])
    ensures SetupPlan(services)[2 * i + 1] == StartStep(services[i])
  {
    assert (2 * i) / 2 == i && (2 * i) % 2 == 0;
    assert (2 * i + 1) / 2 == i && (2 * i + 1) % 2 == 1;
  }

  /** The k-th command of setting up the services: enable or start of service k / 2. */
  function SetupCommand(services: seq<string>, k: nat): Effect
    requires k < 2 * |services|
  {
    if k % 2 == 0 then SystemctlEnable(services[k / 2]) else SystemctlStart(services[k / 2])
  }

  datatype ServiceManager = ServiceManager(initSystem: InitSystem) {

    static function New(): (sm: ServiceManager)
      ensures sm.initSystem == Systemd
    {
      ServiceManager(Systemd)
    }

    /** enable_service */
    method EnableService(sh: Shell, service: string) returns (r: Result<()>)
      modifies sh
      ensures sh.Ran(old(sh.trace), [EnableStep(service)], r)
    {
      ghost var t0 := sh.trace;
      match initSystem
      case Systemd =>
        var status := sh.Run(SystemctlEnable(service));
        if status.SpawnError? {
          r := Err(SpawnFailed);
        } else if status.code != 0 {
          r := Err(Message("Failed to enable service: " + service));
        } else {
          r := Ok(());
        }
        assert Execute(sh.env, t0, [EnableStep(service)]) == Trail([SystemctlEnable(service)] + [], r);
    }

    /** start_service */
    method StartService(sh: Shell, service: string) returns (r: Result<()>)
      modifies sh
      ensures sh.Ran(old(sh.trace), [StartStep(service)], r)
    {
      ghost var t0 := sh.trace;
      match initSystem
      case Systemd =>
        var status := sh.Run(SystemctlStart(service));
        if status.SpawnError? {
          r := Err(SpawnFailed);
        } else if status.code != 0 {
          r := Err(Message("Failed to start service: " + service));
        } else {
          r := Ok(());
        }
        assert Execute(sh.env, t0, [StartStep(service)]) == Trail([SystemctlStart(service)] + [], r);
    }

    /** setup_essential_services */
    method SetupEssentialServices(sh: Shell) returns (r: Result<()>)
      modifies sh
      ensures sh.Ran(old(sh.trace), SetupPlan(EssentialServices), r)
    {
      ghost var t0 := sh.trace;
      var services := EssentialServices;
      ghost var plan := SetupPlan(services);
      var i := 0;
      while i < |services|
        invariant 0 <= i <= |services|
        invariant sh.Ran(t0, plan[..2 * i], Ok(()))
      {
        var service := services[i];
        SetupPlanAt(services, i);
        ghost var t1 := sh.trace;
        r := EnableService(sh, service);
        AdvanceSingle(sh.env, t0, plan, 2 * i, t1, sh.trace, r);
        if r.Err? {
          return;
        }
        ghost var t2 := sh.trace;
        r := StartService(sh, service);
        AdvanceSingle(sh.env, t0, plan, 2 * i + 1, t2, sh.trace, r);
        if r.Err? {
          return;
        }
        i := i + 1;
      }
      assert plan[..2 * i] == plan;
      r := Ok(());
    }
  }

  /**
   * What setting up a list of services does: for each service in order,
   * `systemctl enable` and then `systemctl start`, up to the first command
   * that fails to launch or exits non-zero; every earlier command exited 0;
   * the failing command's error names its service and what was being done;
   * success exactly when all 2 * |services| commands ran and exited 0.
   */
  lemma SetupOutcome(env: Env, t: seq<Effect>, services: seq<string>)
    ensures var r := Execute(env, t, SetupPlan(services));
            var n := |r.issued|;
            && n <= 2 * |services|
            && (forall k :: 0 <= k < n ==> r.issued[k] == SetupCommand(services, k))
            && (forall k :: 0 <= k < n - 1 ==> ExitedZero(env, t, r.issued, k))
            && (r.result.Ok? <==> n == 2 * |services| && forall k :: 0 <= k < n ==> ExitedZero(env, t, r.issued, k))
            && (r.result.Err? ==>
                  var service := services[(n - 1) / 2];
                  && !ExitedZero(env, t, r.issued, n - 1)
                  && r.result.error ==
                       if env.spawn(t + r.issued).SpawnError? then SpawnFailed
                       else if n % 2 == 1 then Message("Failed to enable service: " + service)
                       else Message("Failed to start service: " + service))
  {
    var plan := SetupPlan(services);
    assert CheckOnly(plan);
    CheckedOutcome(env, t, plan);
  }

  /**
   * Each service is enabled before it is started, and no command for a later
   * service is issued before both commands for an earlier one have run.
   */
  lemma EnableBeforeStart(env: Env, t: seq<Effect>, services: seq<string>, i: nat)
    requires i < |services|
    requires SystemctlStart(services[i]) in Execute(env, t, SetupPlan(services)).issued
    requires forall j :: 0 <= j < |services| && j != i ==> services[j] != services[i]
    ensures SystemctlEnable(services[i]) in Execute(env, t, SetupPlan(services)).issued
    ensures var r := Execute(env, t, SetupPlan(services));
            forall k :: 0 <= k < |r.issued| && r.issued[k] == SystemctlStart(services[i]) ==>
              k == 2 * i + 1 && r.issued[k - 1] == SystemctlEnable(services[i])
  {
    var r := Execute(env, t, SetupPlan(services));
    SetupOutcome(env, t, services);
    var k :| 0 <= k < |r.issued| && r.issued[k] == SystemctlStart(services[i]);
    assert k % 2 == 1 && services[k / 2] == services[i];
    assert r.issued[k - 1] == SetupCommand(services, k - 1);
    forall k' | 0 <= k' < |r.issued| && r.issued[k'] == SystemctlStart(services[i])
      ensures k' == 2 * i + 1 && r.issued[k' - 1] == SystemctlEnable(services[i])
    {
      assert r.issued[k'] == SetupCommand(services, k');
      assert k' % 2 == 1 && services[k' / 2] == services[i];
      assert r.issued[k' - 1] == SetupCommand(services, k' - 1);
    }
  }
}
