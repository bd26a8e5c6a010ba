/**
 * The boot manager: installs systemd-boot on the EFI system partition and
 * writes its loader settings and the boot entry. bootctl's exit status is
 * checked; a failed install stops before any file is written.
 */
module Bootloader {
  import opened Text
  import opened Exec
  import PackageManagement

  const EspPath: string := "/boot/efi"

  const BootloaderPackages: seq<string> := ["systemd-boot", "efibootmgr", "efivar", "efitools"]

  /** The lines of loader/loader.conf; the text starts with an empty line and ends with a newline. */
  const LoaderLines: seq<string> := ["", "default  xbitos.conf", "timeout  4", "console-mode max", "editor   no"]

  /** loader/loader.conf: the default entry, a 4 second timeout, maximal console mode, no editor. */
  const LoaderConf: string := Unlines(LoaderLines)

  /** The lines of the boot entry before its options line. */
  const EntryHeadLines: seq<string> :=
    ["", "title   xBitOS", "linux   /vmlinuz-linux-zen", "initrd  /amd-ucode.img", "initrd  /intel-ucode.img",
     "initrd  /initramfs-linux-zen.img"]

  const EntryHead: string := Unlines(EntryHeadLines)

  /** The boot entry for xBitOS, booting linux-zen with the given kernel command line. */
  function BootEntry(kernelParams: string): (entry: string)
    ensures EntryHead <= entry
  {
    EntryHead + "options " + kernelParams + "\n"
  }

  function BootctlInstall(esp: string): Effect {
    Cmd("bootctl", ["install", "--path", esp], None)
  }

  const BootctlUpdate: Effect := Cmd("bootctl", ["update"], None)

  function LoaderConfPath(esp: string): string {
    PathJoin(esp, "loader/loader.conf")
  }

  function EntryPath(esp: string): string {
    PathJoin(esp, "loader/entries/xbitos.conf")
  }

  function InstallStep(esp: string): Action {
    Check(BootctlInstall(esp), SpawnFailed, Message("Failed to install systemd-boot"))
  }

  /** Writing loader.conf into the ESP. */
  function LoaderFile(esp: string): Effect {
    WriteFile(LoaderConfPath(esp), LoaderConf)
  }

  /** Writing the xBitOS entry into the ESP. */
  function EntryFile(esp: string, kernelParams: string): Effect {
    WriteFile(EntryPath(esp), BootEntry(kernelParams))
  }

  /** The two loader files, loader.conf first. */
  function EntryEffects(esp: string, kernelParams: string): seq<Effect> {
    [LoaderFile(esp), EntryFile(esp, kernelParams)]
  }

  function EntriesPlan(esp: string, kernelParams: string): seq<Action> {
    Performs(EntryEffects(esp, kernelParams))
  }

  /** setup_bootloader: the tools, then bootctl install, then the loader files. */
  function SetupPlan(esp: string, kernelParams: string): seq<Action> {
    PackageManagement.InstallPlan(BootloaderPackages) + [InstallStep(esp)] + EntriesPlan(esp, kernelParams)
  }

  const UpdatePlan: seq<Action> := [Check(BootctlUpdate, SpawnFailed, Message("Failed to update bootloader"))]

  /**
   * The boot manager. The kernel command line comes from the kernel manager,
   * whose module is not part of this model; it is passed in as a value.
   */
  datatype BootManager = BootManager(espPath: string) {

    static function New(): (bm: BootManager)
      ensures bm.espPath == EspPath
    {
      BootManager("/boot/efi")
    }

    /** setup_bootloader */
    method SetupBootloader(sh: Shell, kernelParams: string) returns (r: Result<()>)
      modifies sh
      ensures sh.Ran(old(sh.trace), SetupPlan(espPath, kernelParams), r)
    {
      ghost var t0 := sh.trace;
      ghost var p0 := PackageManagement.InstallPlan(BootloaderPackages);
      ghost var p1 := [InstallStep(espPath)];
      ghost var p2 := EntriesPlan(espPath, kernelParams);
      var pkgManager := PackageManagement.PackageManager.New();
      r := pkgManager.InstallPackages(sh, ["systemd-boot", "efibootmgr", "efivar", "efitools"]);
      if r.Err? {
        RanStop(sh.env, t0, p0, p1, sh.trace, r);
        RanStop(sh.env, t0, p0 + p1, p2, sh.trace, r);
        return;
      }
      ghost var t1 := sh.trace;
      r := InstallSystemdBoot(sh);
      RanSeq(sh.env, t0, p0, t1, p1, sh.trace, r);
      if r.Err? {
        RanStop(sh.env, t0, p0 + p1, p2, sh.trace, r);
        return;
      }
      ghost var t2 := sh.trace;
      r := ConfigureBootEntries(sh, kernelParams);
      RanSeq(sh.env, t0, p0 + p1, t2, p2, sh.trace, r);
    }

    /** install_systemd_boot: bootctl install into the ESP; a non-zero status is an error. */
    method InstallSystemdBoot(sh: Shell) returns (r: Result<()>)
      modifies sh
      ensures sh.Ran(old(sh.trace), [InstallStep(espPath)], r)
    {
      ghost var t0 := sh.trace;
      var status := sh.Run(BootctlInstall(espPath));
      if status.SpawnError? {
        r := Err(SpawnFailed);
      } else if status.code != 0 {
        r := Err(Message("Failed to install systemd-boot"));
      } else {
        r := Ok(());
      }
      assert Execute(sh.env, t0, [InstallStep(espPath)]) == Trail([BootctlInstall(espPath)] + [], r);
    }

    /** configure_boot_entries: writes loader.conf, then the xBitOS entry. */
    method ConfigureBootEntries(sh: Shell, kernelParams: string) returns (r: Result<()>)
      modifies sh
      ensures sh.Ran(old(sh.trace), EntriesPlan(espPath, kernelParams), r)
    {
      ghost var t0 := sh.trace;
      ghost var ops := EntryEffects(espPath, kernelParams);
      assert Performs(ops)[..0] == [];
      r := sh.AttemptStep(t0, ops, 0, LoaderFile(espPath));
      if r.Err? { return; }
      r := sh.AttemptStep(t0, ops, 1, EntryFile(espPath, kernelParams));
    }

    /** update_boot_configuration: bootctl update; a non-zero status is an error. */
    method UpdateBootConfiguration(sh: Shell) returns (r: Result<()>)
      modifies sh
      ensures sh.Ran(old(sh.trace), UpdatePlan, r)
    {
      ghost var t0 := sh.trace;
      var status := sh.Run(BootctlUpdate);
      if status.SpawnError? {
        r := Err(SpawnFailed);
      } else if status.code != 0 {
        r := Err(Message("Failed to update bootloader"));
      } else {
        r := Ok(());
      }
      assert Execute(sh.env, t0, UpdatePlan) == Trail([BootctlUpdate] + [], r);
    }
  }

  // ---------------------------------------------------------------------------
  // Properties

  /** Read line by line, loader.conf holds exactly its settings. */
  lemma LoaderConfLines()
    ensures Lines(LoaderConf) == LoaderLines
  {
    LinesUnlines(LoaderLines);
  }

  lemma HeadLinesSingle()
    ensures forall i :: 0 <= i < |EntryHeadLines| ==> SingleLine(EntryHeadLines[i])
  {
  }

  /**
   * Read line by line, the entry is its title, the zen kernel, the initrds
   * in the order amd-ucode, intel-ucode, initramfs, and an options line that
   * carries the kernel command line verbatim (when it is one line).
   */
  lemma EntryLines(kernelParams: string)
    requires SingleLine(kernelParams)
    ensures Lines(BootEntry(kernelParams)) == EntryHeadLines + ["options " + kernelParams]
  {
    var options := "options " + kernelParams;
    var ls := EntryHeadLines + [options];
    assert forall i :: 0 <= i < |ls| ==> SingleLine(ls[i]) by {
      HeadLinesSingle();
      assert SingleLine(options) by {
        assert options[8..] == kernelParams;
      }
      forall i | 0 <= i < |ls| ensures SingleLine(ls[i]) {
        if i < |EntryHeadLines| { assert ls[i] == EntryHeadLines[i]; }
      }
    }
    assert BootEntry(kernelParams) == Unlines(ls) by {
      UnlinesAppend(EntryHeadLines, [options]);
      assert Unlines([options]) == options + "\n" + [];
      AppendAssoc(EntryHead, options, "\n");
      AppendAssoc(EntryHead, "options ", kernelParams);
    }
    LinesUnlines(ls);
  }

  /** The pacman commands for the bootloader tools, in list order. */
  const ToolEffects: seq<Effect> :=
    [PackageManagement.PacmanInstall("systemd-boot"),
     PackageManagement.PacmanInstall("efibootmgr"),
     PackageManagement.PacmanInstall("efivar"),
     PackageManagement.PacmanInstall("efitools")]

  /** The effects setting up the bootloader issues, in order, when nothing stops it. */
  function SetupEffects(esp: string, kernelParams: string): seq<Effect> {
    ToolEffects + [BootctlInstall(esp)] + EntryEffects(esp, kernelParams)
  }

  lemma ToolPlanEffects()
    ensures Effects(PackageManagement.InstallPlan(BootloaderPackages)) == ToolEffects
  {
    PackageManagement.InstallEffects(BootloaderPackages);
    var es := Effects(PackageManagement.InstallPlan(BootloaderPackages));
    assert |es| == 4;
    forall k | 0 <= k < 4 ensures es[k] == ToolEffects[k] {
      assert es[k] == PackageManagement.PacmanInstall(BootloaderPackages[k]);
    }
  }

  lemma EntriesPlanEffects(esp: string, kernelParams: string)
    ensures Effects(EntriesPlan(esp, kernelParams)) == EntryEffects(esp, kernelParams)
  {
    EffectsPerforms(EntryEffects(esp, kernelParams));
  }

  lemma SetupPlanEffects(esp: string, kernelParams: string)
    ensures Effects(SetupPlan(esp, kernelParams)) == SetupEffects(esp, kernelParams)
    ensures NoFail(SetupPlan(esp, kernelParams))
  {
    var p0 := PackageManagement.InstallPlan(BootloaderPackages);
    var p1 := [InstallStep(esp)];
    var p2 := EntriesPlan(esp, kernelParams);
    assert Effects(SetupPlan(esp, kernelParams)) == Effects(p0) + Effects(p1) + Effects(p2) by {
      EffectsAppend(p0 + p1, p2);
      EffectsAppend(p0, p1);
    }
    ToolPlanEffects();
    EntriesPlanEffects(esp, kernelParams);
    EffectsSingle(InstallStep(esp));
    SetupPlanNoFail(esp, kernelParams);
  }

  lemma SetupPlanNoFail(esp: string, kernelParams: string)
    ensures NoFail(SetupPlan(esp, kernelParams))
  {
    var p0 := PackageManagement.InstallPlan(BootloaderPackages);
    var p1 := [InstallStep(esp)];
    var p2 := EntriesPlan(esp, kernelParams);
    assert NoFail(p0) by {
      forall a | a in p0 ensures !a.Fail? {
        var k :| 0 <= k < |p0| && p0[k] == a;
      }
    }
    assert NoFail(p1);
    NoFailAppend(p0, p1);
    NoFailAppend(p0 + p1, p2);
  }

  /**
   * setup_bootloader issues a prefix of: pacman for systemd-boot, efibootmgr,
   * efivar and efitools, `bootctl install --path <esp>`, the loader.conf
   * write and the entry write; all of them when it succeeds.
   */
  lemma SetupOrder(env: Env, t: seq<Effect>, esp: string, kernelParams: string)
    ensures var r := Execute(env, t, SetupPlan(esp, kernelParams));
            r.issued <= SetupEffects(esp, kernelParams)
            && (r.result.Ok? ==> r.issued == SetupEffects(esp, kernelParams))
  {
    SetupPlanEffects(esp, kernelParams);
    IssuedPrefix(env, t, SetupPlan(esp, kernelParams));
  }

  /** No loader file is written unless `bootctl install` ran and exited 0. */
  lemma BootctlGuardsFiles(env: Env, t: seq<Effect>, esp: string, kernelParams: string)
    ensures var r := Execute(env, t, SetupPlan(esp, kernelParams));
            forall k :: 0 <= k < |r.issued| && r.issued[k].WriteFile? ==>
              5 <= k && r.issued[4] == BootctlInstall(esp) && ExitedZero(env, t, r.issued, 4)
  {
    var plan := SetupPlan(esp, kernelParams);
    var r := Execute(env, t, plan);
    SetupOrder(env, t, esp, kernelParams);
    SetupPlanEffects(esp, kernelParams);
    var effects := SetupEffects(esp, kernelParams);
    if 5 < |r.issued| {
      assert plan[4] == InstallStep(esp);
      CheckPassedAt(env, t, plan, 4);
    }
    assert forall k :: 0 <= k < 5 ==> effects[k].Cmd?;
    forall k | 0 <= k < |r.issued| && r.issued[k].WriteFile?
      ensures 5 <= k
    {
      assert r.issued[k] == effects[k];
    }
  }

  /**
   * When `bootctl install` is the command that stops the run, the error is
   * the launch failure or "Failed to install systemd-boot".
   */
  lemma BootctlFailure(env: Env, t: seq<Effect>, esp: string, kernelParams: string)
    ensures var r := Execute(env, t, SetupPlan(esp, kernelParams));
            r.result.Err? && |r.issued| == 5 ==>
              r.issued[4] == BootctlInstall(esp)
              && r.result.error == (if env.spawn(t + r.issued).SpawnError? then SpawnFailed
                                    else Message("Failed to install systemd-boot"))
  {
    var plan := SetupPlan(esp, kernelParams);
    var r := Execute(env, t, plan);
    if r.result.Err? && |r.issued| == 5 {
      SetupPlanEffects(esp, kernelParams);
      assert plan[4] == InstallStep(esp);
      LastFailed(env, t, plan);
      assert r.issued[..5] == r.issued;
      CheckStep(env, t + r.issued[..4], plan[4]);
      assert t + r.issued == t + r.issued[..4] + [r.issued[4]];
    }
  }

  /** update_boot_configuration issues one `bootctl update` and fails unless it exited 0. */
  lemma UpdateOutcome(env: Env, t: seq<Effect>)
    ensures var r := Execute(env, t, UpdatePlan);
            var o := env.spawn(t + [BootctlUpdate]);
            && r.issued == [BootctlUpdate]
            && (r.result.Ok? <==> o.Exit? && o.code == 0)
            && (o.Exit? && o.code != 0 ==> r.result == Err(Message("Failed to update bootloader")))
  {
    CheckStep(env, t, UpdatePlan[0]);
    ExecuteSingle(env, t, UpdatePlan[0]);
  }
}
