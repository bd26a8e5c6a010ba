/**
 * The package manager: installs packages with pacman, one command per package,
 * stopping at the first one that cannot be launched or does not succeed.
 */
module PackageManagement {
  import opened Text
  import opened Exec

  /** The only backend there is. */
  datatype Backend = Pacman

  function PacmanInstall(package: string): Effect {
    Cmd("pacman", ["-S", "--noconfirm", package], None)
  }

  const PacmanUpdate: Effect := Cmd("pacman", ["-Syu", "--noconfirm"], None)

  /** Installing one package: a launch failure gets context, a failed status its own message. */
  function InstallStep(package: string): Action {
    Check(PacmanInstall(package),
          Context("Failed to install package: " + package, SpawnFailed),
          Message("Package installation failed: " + package))
  }

  function InstallPlan(packages: seq<string>): (plan: seq<Action>)
    ensures |plan| == |packages|
  {
    seq(|packages|, k requires 0 <= k < |packages| => InstallStep(packages[k]))
  }

  const UpdatePlan: seq<Action> :=
    [Check(PacmanUpdate, Context("Failed to update system", SpawnFailed), Message("System update failed"))]

  /** Installing packages would issue one pacman command per package, in list order. */
  lemma InstallEffects(packages: seq<string>)
    ensures Effects(InstallPlan(packages)) == seq(|packages|, k requires 0 <= k < |packages| => PacmanInstall(packages[k]))
    ensures forall e :: e in Effects(InstallPlan(packages)) ==> e.Cmd? && e.program == "pacman"
  {
    var plan := InstallPlan(packages);
    assert NoFail(plan) by {
      forall a | a in plan ensures !a.Fail? { }
    }
    EffectsNoFail(plan);
    forall k | 0 <= k < |packages| ensures Effects(plan)[k] == PacmanInstall(packages[k]) {
      assert EffectsOf(plan[k]) == [Effects(plan)[k]];
    }
  }

  /** The error install_packages returns for a package, given how its pacman turned out. */
  function InstallError(package: string, o: Outcome): Error {
    if o.SpawnError? then Context("Failed to install package: " + package, SpawnFailed)
    else Message("Package installation failed: " + package)
  }

  datatype PackageManager = PackageManager(backend: Backend) {

    static function New(): (pm: PackageManager)
      ensures pm.backend == Pacman
    {
      PackageManager(Pacman)
    }

    /** install_packages */
    method InstallPackages(sh: Shell, packages: seq<string>) returns (r: Result<()>)
      modifies sh
      ensures sh.Ran(old(sh.trace), InstallPlan(packages), r)
    {
      ghost var t0 := sh.trace;
      ghost var plan := InstallPlan(packages);
      match backend
      case Pacman =>
        var i := 0;
        while i < |packages|
          invariant 0 <= i <= |packages|
          invariant sh.Ran(t0, plan[..i], Ok(()))
        {
          var package := packages[i];
          ghost var t1 := sh.trace;
          var status := sh.Run(PacmanInstall(package));
          if status.SpawnError? {
            r := Err(Context("Failed to install package: " + package, SpawnFailed));
            Advance(sh.env, t0, plan, i, t1, sh.trace, r);
            return;
          }
          if status.code != 0 {
            r := Err(Message("Package installation failed: " + package));
            Advance(sh.env, t0, plan, i, t1, sh.trace, r);
            return;
          }
          Advance(sh.env, t0, plan, i, t1, sh.trace, Ok(()));
          i := i + 1;
        }
        assert plan[..i] == plan;
      r := Ok(());
    }

    /** update_system */
    method UpdateSystem(sh: Shell) returns (r: Result<()>)
      modifies sh
      ensures sh.Ran(old(sh.trace), UpdatePlan, r)
    {
      ghost var t0 := sh.trace;
      match backend
      case Pacman =>
        var status := sh.Run(PacmanUpdate);
        if status.SpawnError? {
          r := Err(Context("Failed to update system", SpawnFailed));
        } else if status.code != 0 {
          r := Err(Message("System update failed"));
        } else {
          r := Ok(());
        }
        assert Execute(sh.env, t0, UpdatePlan) == Trail([PacmanUpdate] + [], r);
    }
  }

  /**
   * What installing a list of packages does: one `pacman -S --noconfirm`
   * per package, in list order, up to the first that fails to launch or
   * exits non-zero; every earlier one exited 0; the failing one's error names
   * its package; success exactly when every package was installed with
   * status 0 (so an empty list succeeds without a command).
   */
  lemma InstallOutcome(env: Env, t: seq<Effect>, packages: seq<string>)
    ensures var r := Execute(env, t, InstallPlan(packages));
            var n := |r.issued|;
            && n <= |packages|
            && (forall k :: 0 <= k < n ==> r.issued[k] == PacmanInstall(packages[k]))
            && (forall k :: 0 <= k < n - 1 ==> ExitedZero(env, t, r.issued, k))
            && (r.result.Ok? <==> n == |packages| && forall k :: 0 <= k < n ==> ExitedZero(env, t, r.issued, k))
            && (r.result.Err? ==>
                  && !ExitedZero(env, t, r.issued, n - 1)
                  && r.result.error == InstallError(packages[n - 1], env.spawn(t + r.issued)))
  {
    var plan := InstallPlan(packages);
    assert CheckOnly(plan);
    CheckedOutcome(env, t, plan);
  }

  /** update_system issues exactly one `pacman -Syu --noconfirm` and fails unless it exited 0. */
  lemma UpdateOutcome(env: Env, t: seq<Effect>)
    ensures var r := Execute(env, t, UpdatePlan);
            && r.issued == [PacmanUpdate]
            && (r.result.Ok? <==> env.spawn(t + [PacmanUpdate]).Exit? && env.spawn(t + [PacmanUpdate]).code == 0)
            && (env.spawn(t + [PacmanUpdate]).SpawnError? ==> r.result == Err(Context("Failed to update system", SpawnFailed)))
  {
  }
}
