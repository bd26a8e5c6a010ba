/**
 * The system installer: storage, base system, configuration, desktop, user
 * account and bootloader, in that order, stopping at the first stage that
 * returns an error. Commands inside the new system run through arch-chroot;
 * only a failure to launch arch-chroot stops them.
 */
module Installer {
  import opened Text
  import opened Exec
  import Storage
  import Bootloader

  /** What the user chose for the installation. */
  datatype InstallConfig = InstallConfig(
    hostname: string,
    username: string,
    password: string,
    timezone: string,
    locale: string,
    keyboard: string,
    disk: string,
    useEncryption: bool,
    desktopEnvironment: string)

  const DefaultMountPoint: string := "/mnt"

  /** The routine prepare_storage calls for an encrypted installation; it is not part of this model. */
  const EncryptedStorageRoutine: string := "setup_encrypted_storage"

  /** The display manager's Hyprland setup; it is not part of this model. */
  const HyprlandRoutine: string := "setup_hyprland"

  // ---------------------------------------------------------------------------
  // Strings the installer builds

  /** The line written to etc/locale.gen: the locale and its encoding. */
  function LocaleGen(locale: string): string {
    locale + " UTF-8"
  }

  function ZoneinfoPath(timezone: string): string {
    "/usr/share/zoneinfo/" + timezone
  }

  const UseraddPrefix: string := "useradd -m -G wheel -s /bin/bash "

  /** The shell commands configure_system runs inside the new system. */
  function ConfigureCommands(c: InstallConfig): seq<string> {
    ["locale-gen",
     "hwclock --systohc",
     "echo LANG=" + c.locale + ".UTF-8 > /etc/locale.conf",
     "echo KEYMAP=" + c.keyboard + " > /etc/vconsole.conf"]
  }

  /** The shell commands setup_user runs inside the new system. */
  function UserCommands(c: InstallConfig): seq<string> {
    [UseraddPrefix + c.username,
     "echo '" + c.username + ":" + c.password + "' | chpasswd",
     "echo '%wheel ALL=(ALL) ALL' > /etc/sudoers.d/wheel"]
  }

  // ---------------------------------------------------------------------------
  // Commands and plans

  function ArchChroot(mountPoint: string, command: string): Effect {
    Cmd("arch-chroot", [mountPoint, "sh", "-c", command], None)
  }

  function ChrootCmds(mountPoint: string, commands: seq<string>): (cmds: seq<Effect>)
    ensures |cmds| == |commands|
  {
    seq(|commands|, i requires 0 <= i < |commands| => ArchChroot(mountPoint, commands[i]))
  }

  /** chroot_execute: one arch-chroot per command, launched with `.status()?`. */
  function ChrootPlan(mountPoint: string, commands: seq<string>): seq<Action> {
    Launches(ChrootCmds(mountPoint, commands))
  }

  function Pacstrap(mountPoint: string): Effect {
    Cmd("pacstrap", [mountPoint, "base", "base-devel", "linux-zen", "linux-zen-headers", "linux-firmware"], None)
  }

  function Genfstab(mountPoint: string): Effect {
    Cmd("genfstab", ["-U", mountPoint], None)
  }

  /** prepare_storage: the encrypted routine, or the storage manager's full setup on the chosen disk. */
  function StoragePlan(c: InstallConfig): seq<Action> {
    if c.useEncryption then [Perform(Call(EncryptedStorageRoutine))]
    else Storage.SetupPlan(c.disk)
  }

  /** install_base_system: pacstrap, then genfstab; its output is not used. */
  function BasePlan(mountPoint: string): seq<Action> {
    [Launch(Pacstrap(mountPoint)), Launch(Genfstab(mountPoint))]
  }

  function TimezonePlan(c: InstallConfig, mountPoint: string): seq<Action> {
    [Perform(Symlink(ZoneinfoPath(c.timezone), PathJoin(mountPoint, "etc/localtime")))]
  }

  function ConfigFilesPlan(c: InstallConfig, mountPoint: string): seq<Action> {
    [Perform(WriteFile(PathJoin(mountPoint, "etc/locale.gen"), LocaleGen(c.locale))),
     Perform(WriteFile(PathJoin(mountPoint, "etc/hostname"), c.hostname))]
  }

  function ConfigurePlan(c: InstallConfig, mountPoint: string): seq<Action> {
    TimezonePlan(c, mountPoint) + ConfigFilesPlan(c, mountPoint) + ChrootPlan(mountPoint, ConfigureCommands(c))
  }

  /** install_desktop: only Hyprland is supported. */
  function DesktopPlan(c: InstallConfig): seq<Action> {
    if c.desktopEnvironment == "hyprland" then [Perform(Call(HyprlandRoutine))]
    else [Fail(Message("Unsupported desktop environment"))]
  }

  function UserPlan(c: InstallConfig, mountPoint: string): seq<Action> {
    ChrootPlan(mountPoint, UserCommands(c))
  }

  function BootPlan(kernelParams: string): seq<Action> {
    Bootloader.SetupPlan(Bootloader.EspPath, kernelParams)
  }

  /** The stages before the bootloader. */
  function SystemPlan(c: InstallConfig, mountPoint: string): seq<Action> {
    StoragePlan(c) + BasePlan(mountPoint) + ConfigurePlan(c, mountPoint) + DesktopPlan(c) + UserPlan(c, mountPoint)
  }

  /** install_system: every stage in order. */
  function InstallPlan(c: InstallConfig, mountPoint: string, kernelParams: string): seq<Action> {
    SystemPlan(c, mountPoint) + BootPlan(kernelParams)
  }

  // ---------------------------------------------------------------------------
  // The installer

  /**
   * The installer for one configuration. The kernel command line the boot
   * entry carries comes from the kernel manager, which is not part of this
   * model; it is passed in as a value.
   */
  datatype SystemInstaller = SystemInstaller(config: InstallConfig, mountPoint: string) {

    static function New(config: InstallConfig): (si: SystemInstaller)
      ensures si.config == config && si.mountPoint == DefaultMountPoint
    {
      SystemInstaller(config, "/mnt")
    }

    /** install_system */
    method InstallSystem(sh: Shell, kernelParams: string) returns (r: Result<()>)
      modifies sh
      ensures sh.Ran(old(sh.trace), InstallPlan(config, mountPoint, kernelParams), r)
    {
      ghost var t0 := sh.trace;
      ghost var p0 := StoragePlan(config);
      ghost var p1 := BasePlan(mountPoint);
      ghost var p2 := ConfigurePlan(config, mountPoint);
      ghost var p3 := DesktopPlan(config);
      ghost var p4 := UserPlan(config, mountPoint);
      ghost var p5 := BootPlan(kernelParams);
      r := PrepareStorage(sh);
      if r.Err? {
        RanStop(sh.env, t0, p0, p1, sh.trace, r);
        RanStop(sh.env, t0, p0 + p1, p2, sh.trace, r);
        RanStop(sh.env, t0, p0 + p1 + p2, p3, sh.trace, r);
        RanStop(sh.env, t0, p0 + p1 + p2 + p3, p4, sh.trace, r);
        RanStop(sh.env, t0, p0 + p1 + p2 + p3 + p4, p5, sh.trace, r);
        return;
      }
      ghost var t1 := sh.trace;
      r := InstallBaseSystem(sh);
      RanSeq(sh.env, t0, p0, t1, p1, sh.trace, r);
      if r.Err? {
        RanStop(sh.env, t0, p0 + p1, p2, sh.trace, r);
        RanStop(sh.env, t0, p0 + p1 + p2, p3, sh.trace, r);
        RanStop(sh.env, t0, p0 + p1 + p2 + p3, p4, sh.trace, r);
        RanStop(sh.env, t0, p0 + p1 + p2 + p3 + p4, p5, sh.trace, r);
        return;
      }
      ghost var t2 := sh.trace;
      r := ConfigureSystem(sh);
      RanSeq(sh.env, t0, p0 + p1, t2, p2, sh.trace, r);
      if r.Err? {
        RanStop(sh.env, t0, p0 + p1 + p2, p3, sh.trace, r);
        RanStop(sh.env, t0, p0 + p1 + p2 + p3, p4, sh.trace, r);
        RanStop(sh.env, t0, p0 + p1 + p2 + p3 + p4, p5, sh.trace, r);
        return;
      }
      ghost var t3 := sh.trace;
      r := InstallDesktop(sh);
      RanSeq(sh.env, t0, p0 + p1 + p2, t3, p3, sh.trace, r);
      if r.Err? {
        RanStop(sh.env, t0, p0 + p1 + p2 + p3, p4, sh.trace, r);
        RanStop(sh.env, t0, p0 + p1 + p2 + p3 + p4, p5, sh.trace, r);
        return;
      }
      ghost var t4 := sh.trace;
      r := SetupUser(sh);
      RanSeq(sh.env, t0, p0 + p1 + p2 + p3, t4, p4, sh.trace, r);
      if r.Err? {
        RanStop(sh.env, t0, p0 + p1 + p2 + p3 + p4, p5, sh.trace, r);
        return;
      }
      ghost var t5 := sh.trace;
      r := SetupBootloader(sh, kernelParams);
      RanSeq(sh.env, t0, p0 + p1 + p2 + p3 + p4, t5, p5, sh.trace, r);
    }

    /** prepare_storage */
    method PrepareStorage(sh: Shell) returns (r: Result<()>)
      modifies sh
      ensures sh.Ran(old(sh.trace), StoragePlan(config), r)
    {
      ghost var t0 := sh.trace;
      var storageManager := Storage.StorageManager.New(config.disk);
      if config.useEncryption {
        r := sh.Attempt(Call(EncryptedStorageRoutine));
        ExecuteSingle(sh.env, t0, Perform(Call(EncryptedStorageRoutine)));
      } else {
        r := storageManager.SetupStorage(sh);
      }
    }

    /** install_base_system */
    method InstallBaseSystem(sh: Shell) returns (r: Result<()>)
      modifies sh
      ensures sh.Ran(old(sh.trace), BasePlan(mountPoint), r)
    {
      ghost var t0 := sh.trace;
      ghost var plan := BasePlan(mountPoint);
      assert plan[..0] == [];
      r := sh.Status(Cmd("pacstrap", [mountPoint, "base", "base-devel", "linux-zen", "linux-zen-headers", "linux-firmware"], None));
      Advance(sh.env, t0, plan, 0, t0, sh.trace, r);
      if r.Err? { return; }
      ghost var t1 := sh.trace;
      var output := sh.Run(Cmd("genfstab", ["-U", mountPoint], None));
      r := if output.SpawnError? then Err(SpawnFailed) else Ok(());
      Advance(sh.env, t0, plan, 1, t1, sh.trace, r);
      assert plan[..2] == plan;
    }

    /** configure_system */
    method ConfigureSystem(sh: Shell) returns (r: Result<()>)
      modifies sh
      ensures sh.Ran(old(sh.trace), ConfigurePlan(config, mountPoint), r)
    {
      ghost var t0 := sh.trace;
      ghost var q0, q1 := TimezonePlan(config, mountPoint), ConfigFilesPlan(config, mountPoint);
      ghost var q2 := ChrootPlan(mountPoint, ConfigureCommands(config));
      r := SetupTimezone(sh);
      if r.Err? {
        RanStop(sh.env, t0, q0, q1, sh.trace, r);
        RanStop(sh.env, t0, q0 + q1, q2, sh.trace, r);
        return;
      }
      ghost var t1 := sh.trace;
      r := WriteConfigFiles(sh);
      RanSeq(sh.env, t0, q0, t1, q1, sh.trace, r);
      if r.Err? {
        RanStop(sh.env, t0, q0 + q1, q2, sh.trace, r);
        return;
      }
      ghost var t2 := sh.trace;
      r := ChrootExecute(sh, ["locale-gen",
                              "hwclock --systohc",
                              "echo LANG=" + config.locale + ".UTF-8 > /etc/locale.conf",
                              "echo KEYMAP=" + config.keyboard + " > /etc/vconsole.conf"]);
      RanSeq(sh.env, t0, q0 + q1, t2, q2, sh.trace, r);
    }

    /** The two files configure_system writes: etc/locale.gen, then etc/hostname. */
    method WriteConfigFiles(sh: Shell) returns (r: Result<()>)
      modifies sh
      ensures sh.Ran(old(sh.trace), ConfigFilesPlan(config, mountPoint), r)
    {
      ghost var t0 := sh.trace;
      ghost var plan := ConfigFilesPlan(config, mountPoint);
      assert plan[..0] == [];
      var localeGen := config.locale + " UTF-8";
      r := sh.Attempt(WriteFile(PathJoin(mountPoint, "etc/locale.gen"), localeGen));
      Advance(sh.env, t0, plan, 0, t0, sh.trace, r);
      if r.Err? { return; }
      ghost var t1 := sh.trace;
      r := sh.Attempt(WriteFile(PathJoin(mountPoint, "etc/hostname"), config.hostname));
      Advance(sh.env, t0, plan, 1, t1, sh.trace, r);
      assert plan[..2] == plan;
    }

    /** install_desktop */
    method InstallDesktop(sh: Shell) returns (r: Result<()>)
      modifies sh
      ensures sh.Ran(old(sh.trace), DesktopPlan(config), r)
    {
      ghost var t0 := sh.trace;
      match config.desktopEnvironment
      case "hyprland" =>
        r := sh.Attempt(Call(HyprlandRoutine));
        ExecuteSingle(sh.env, t0, Perform(Call(HyprlandRoutine)));
      case _ =>
        r := Err(Message("Unsupported desktop environment"));
        assert Execute(sh.env, t0, DesktopPlan(config)) == Trail([], r);
        assert t0 + [] == t0;
    }

    /** setup_user */
    method SetupUser(sh: Shell) returns (r: Result<()>)
      modifies sh
      ensures sh.Ran(old(sh.trace), UserPlan(config, mountPoint), r)
    {
      r := ChrootExecute(sh, ["useradd -m -G wheel -s /bin/bash " + config.username,
                              "echo '" + config.username + ":" + config.password + "' | chpasswd",
                              "echo '%wheel ALL=(ALL) ALL' > /etc/sudoers.d/wheel"]);
    }

    /** setup_bootloader */
    method SetupBootloader(sh: Shell, kernelParams: string) returns (r: Result<()>)
      modifies sh
      ensures sh.Ran(old(sh.trace), BootPlan(kernelParams), r)
    {
      var bootManager := Bootloader.BootManager.New();
      r := bootManager.SetupBootloader(sh, kernelParams);
    }

    /** chroot_execute: each command through `arch-chroot <mount point> sh -c`, exit statuses ignored. */
    method ChrootExecute(sh: Shell, commands: seq<string>) returns (r: Result<()>)
      modifies sh
      ensures sh.Ran(old(sh.trace), ChrootPlan(mountPoint, commands), r)
    {
      ghost var t0 := sh.trace;
      ghost var plan := ChrootPlan(mountPoint, commands);
      var i := 0;
      while i < |commands|
        invariant 0 <= i <= |commands|
        invariant sh.Ran(t0, plan[..i], Ok(()))
      {
        ghost var t1 := sh.trace;
        r := sh.Status(Cmd("arch-chroot", [mountPoint, "sh", "-c", commands[i]], None));
        Advance(sh.env, t0, plan, i, t1, sh.trace, r);
        if r.Err? { return; }
        i := i + 1;
      }
      assert plan[..i] == plan;
      r := Ok(());
    }

    /** setup_timezone (the Unix variant): links the zone file as etc/localtime. */
    method SetupTimezone(sh: Shell) returns (r: Result<()>)
      modifies sh
      ensures sh.Ran(old(sh.trace), TimezonePlan(config, mountPoint), r)
    {
      ghost var t0 := sh.trace;
      r := sh.Attempt(Symlink("/usr/share/zoneinfo/" + config.timezone, PathJoin(mountPoint, "etc/localtime")));
      ExecuteSingle(sh.env, t0, TimezonePlan(config, mountPoint)[0]);
    }
  }

  // ---------------------------------------------------------------------------
  // Properties of the strings

  /** etc/locale.gen holds two words: the locale, then "UTF-8". */
  lemma LocaleGenWords(locale: string)
    requires IsWord(locale)
    ensures Tokens(LocaleGen(locale)) == [locale, "UTF-8"]
  {
    assert JoinWith(" ", [locale, "UTF-8"]) == LocaleGen(locale);
    TokensOfJoin([locale, "UTF-8"]);
  }

  /** The program and flags that start every useradd command line. */
  const UseraddFlags: seq<string> := ["useradd", "-m", "-G", "wheel", "-s", "/bin/bash"]

  lemma UseraddFlagsJoined()
    ensures JoinWith(" ", UseraddFlags) + " " == UseraddPrefix
  {
  }

  lemma UseraddFlagWords()
    ensures forall i :: 0 <= i < |UseraddFlags| ==> IsWord(UseraddFlags[i])
  {
    VisibleWord("useradd");
    VisibleWord("-m");
    VisibleWord("-G");
    VisibleWord("wheel");
    VisibleWord("-s");
    VisibleWord("/bin/bash");
  }

  /**
   * The first user command creates the account, with a home directory, in
   * the wheel group and with bash as its shell; a user name that is one word
   * reaches useradd as its last argument.
   */
  lemma UseraddWords(c: InstallConfig)
    requires IsWord(c.username)
    ensures Tokens(UserCommands(c)[0]) == ["useradd", "-m", "-G", "wheel", "-s", "/bin/bash", c.username]
  {
    UseraddFlagWords();
    UseraddFlagsJoined();
    JoinSnoc(" ", UseraddFlags, c.username);
    var ws := UseraddFlags + [c.username];
    assert forall i :: 0 <= i < |ws| ==> IsWord(ws[i]) by {
      forall i | 0 <= i < |ws| ensures IsWord(ws[i]) {
        if i < |UseraddFlags| { assert ws[i] == UseraddFlags[i]; }
      }
    }
    TokensOfJoin(ws);
  }

  // ---------------------------------------------------------------------------
  // Properties of chroot_execute

  /**
   * chroot_execute issues `arch-chroot <mount point> sh -c <command>` for a
   * prefix of the commands, in order; it fails only with a launch failure,
   * on the last arch-chroot it issued; and when arch-chroot can always be
   * launched, every command is issued and the result is Ok, whatever their
   * exit statuses.
   */
  lemma ChrootOutcome(env: Env, t: seq<Effect>, mountPoint: string, commands: seq<string>)
    ensures var r := Execute(env, t, ChrootPlan(mountPoint, commands));
            && r.issued <= ChrootCmds(mountPoint, commands)
            && (r.result.Ok? ==> r.issued == ChrootCmds(mountPoint, commands))
            && (r.result.Err? ==> r.result.error == SpawnFailed && env.spawn(t + r.issued).SpawnError?)
            && ((forall tr :: !env.spawn(tr).SpawnError?) ==> r.result.Ok?)
  {
    var plan := ChrootPlan(mountPoint, commands);
    EffectsLaunches(ChrootCmds(mountPoint, commands));
    IssuedPrefix(env, t, plan);
    if Execute(env, t, plan).result.Err? {
      LaunchOnlyFailure(env, t, plan);
    }
    if forall tr :: !env.spawn(tr).SpawnError? {
      assert NoFail(plan) && Unchecked(plan) by {
        forall a | a in plan ensures !a.Fail? && !a.Check? { assert a.Launch?; }
      }
      assert forall tr :: env.io(tr) ==> env.io(tr);
      LaunchOnlyRuns(env, t, plan);
    }
  }

  /** A launch-only plan in which every program can be launched succeeds. */
  lemma {:induction false} LaunchOnlyRuns(env: Env, t: seq<Effect>, plan: seq<Action>)
    requires LaunchOnly(plan)
    requires forall tr :: !env.spawn(tr).SpawnError?
    ensures Execute(env, t, plan).result.Ok?
    decreases |plan|
  {
    if plan != [] {
      assert plan[0] in plan;
      assert LaunchOnly(plan[1..]) by {
        forall a | a in plan[1..] ensures a.Launch? { assert a in plan; }
      }
      LaunchOnlyRuns(env, t + Step(env, t, plan[0]).issued, plan[1..]);
    }
  }

  /** chroot_execute never looks at an exit status: only whether arch-chroot could be launched matters. */
  lemma ChrootIgnoresStatus(env1: Env, env2: Env, t: seq<Effect>, mountPoint: string, commands: seq<string>)
    requires SameLaunches(env1, env2)
    ensures Execute(env1, t, ChrootPlan(mountPoint, commands)) == Execute(env2, t, ChrootPlan(mountPoint, commands))
  {
    var plan := ChrootPlan(mountPoint, commands);
    assert Unchecked(plan) by {
      forall a | a in plan ensures !a.Check? { assert a.Launch?; }
    }
    StatusIgnored(env1, env2, t, plan);
  }

  /**
   * The user stage creates the account first, then sets its password, then
   * adds the sudoers rule; it stops early only when arch-chroot cannot be
   * launched.
   */
  lemma UseraddFirst(env: Env, t: seq<Effect>, c: InstallConfig, mountPoint: string)
    ensures var r := Execute(env, t, UserPlan(c, mountPoint));
            var sequence := [ArchChroot(mountPoint, "useradd -m -G wheel -s /bin/bash " + c.username),
                             ArchChroot(mountPoint, "echo '" + c.username + ":" + c.password + "' | chpasswd"),
                             ArchChroot(mountPoint, "echo '%wheel ALL=(ALL) ALL' > /etc/sudoers.d/wheel")];
            && r.issued <= sequence
            && (r.result.Ok? ==> r.issued == sequence)
            && (r.result.Err? ==> r.result.error == SpawnFailed)
  {
    ChrootOutcome(env, t, mountPoint, UserCommands(c));
    assert ChrootCmds(mountPoint, UserCommands(c))
        == [ArchChroot(mountPoint, "useradd -m -G wheel -s /bin/bash " + c.username),
            ArchChroot(mountPoint, "echo '" + c.username + ":" + c.password + "' | chpasswd"),
            ArchChroot(mountPoint, "echo '%wheel ALL=(ALL) ALL' > /etc/sudoers.d/wheel")];
  }

  // ---------------------------------------------------------------------------
  // Properties of the stages

  /**
   * prepare_storage calls the encrypted-storage routine exactly when the
   * configuration asks for encryption; otherwise it runs the storage
   * manager's setup on the configured disk.
   */
  lemma EncryptedBranch(c: InstallConfig)
    ensures Call(EncryptedStorageRoutine) in Effects(StoragePlan(c)) <==> c.useEncryption
    ensures !c.useEncryption ==> Effects(StoragePlan(c)) == Effects(Storage.SetupPlan(c.disk))
  {
    if c.useEncryption {
      assert Effects(StoragePlan(c)) == [Call(EncryptedStorageRoutine)] + [];
    } else {
      Storage.SetupEffectKinds(c.disk);
    }
  }

  /** The programs the stages before the bootloader may run. */
  const SystemPrograms: set<string> := Storage.StoragePrograms + {"pacstrap", "genfstab", "arch-chroot"}

  lemma ChrootEffectKinds(mountPoint: string, commands: seq<string>)
    ensures forall e :: e in Effects(ChrootPlan(mountPoint, commands)) ==> e.Cmd? && e.program == "arch-chroot"
  {
    EffectsLaunches(ChrootCmds(mountPoint, commands));
  }

  lemma StorageStageKinds(c: InstallConfig)
    ensures forall e :: e in Effects(StoragePlan(c)) && e.Cmd? ==> e.program in Storage.StoragePrograms
  {
    if c.useEncryption {
      assert Effects(StoragePlan(c)) == [Call(EncryptedStorageRoutine)] + [];
    } else {
      Storage.SetupEffectKinds(c.disk);
    }
  }

  lemma BaseStageKinds(mountPoint: string)
    ensures Effects(BasePlan(mountPoint)) == [Pacstrap(mountPoint), Genfstab(mountPoint)]
  {
    var p := BasePlan(mountPoint);
    assert Effects(p[1..][1..]) == [] by { assert p[1..][1..] == []; }
    assert Effects(p[1..]) == EffectsOf(p[1]) + [];
  }

  lemma ConfigureStageKinds(c: InstallConfig, mountPoint: string)
    ensures forall e :: e in Effects(ConfigurePlan(c, mountPoint)) && e.Cmd? ==> e.program == "arch-chroot"
  {
    ConfigureEffects(c, mountPoint);
  }

  lemma DesktopStageKinds(c: InstallConfig)
    ensures forall e :: e in Effects(DesktopPlan(c)) ==> !e.Cmd?
  {
    var p := DesktopPlan(c);
    assert Effects(p) == EffectsOf(p[0]) + [];
  }

  /** Every command among the effects runs one of the given programs. */
  predicate RunsOnly(effects: seq<Effect>, programs: set<string>) {
    forall e :: e in effects && e.Cmd? ==> e.program in programs
  }

  lemma RunsOnlyAppend(p: seq<Action>, q: seq<Action>, programs: set<string>)
    requires RunsOnly(Effects(p), programs) && RunsOnly(Effects(q), programs)
    ensures RunsOnly(Effects(p + q), programs)
  {
    EffectsAppend(p, q);
  }

  /** Before the bootloader stage, the installer runs only storage tools, pacstrap, genfstab and arch-chroot. */
  lemma SystemEffectKinds(c: InstallConfig, mountPoint: string)
    ensures forall e :: e in Effects(SystemPlan(c, mountPoint)) && e.Cmd? ==> e.program in SystemPrograms
  {
    var p0, p1, p2, p3, p4 := StoragePlan(c), BasePlan(mountPoint), ConfigurePlan(c, mountPoint), DesktopPlan(c), UserPlan(c, mountPoint);
    assert RunsOnly(Effects(p0), SystemPrograms) by { StorageStageKinds(c); }
    assert RunsOnly(Effects(p1), SystemPrograms) by { BaseStageKinds(mountPoint); }
    assert RunsOnly(Effects(p2), SystemPrograms) by { ConfigureStageKinds(c, mountPoint); }
    assert RunsOnly(Effects(p3), SystemPrograms) by { DesktopStageKinds(c); }
    assert RunsOnly(Effects(p4), SystemPrograms) by { ChrootEffectKinds(mountPoint, UserCommands(c)); }
    RunsOnlyAppend(p0, p1, SystemPrograms);
    RunsOnlyAppend(p0 + p1, p2, SystemPrograms);
    RunsOnlyAppend(p0 + p1 + p2, p3, SystemPrograms);
    RunsOnlyAppend(p0 + p1 + p2 + p3, p4, SystemPrograms);
    assert RunsOnly(Effects(SystemPlan(c, mountPoint)), SystemPrograms);
  }

  /** `bootctl install` is not among the commands issued before the bootloader stage. */
  lemma BootctlNotBeforeBoot(c: InstallConfig, mountPoint: string)
    ensures Bootloader.BootctlInstall(Bootloader.EspPath) !in Effects(SystemPlan(c, mountPoint))
  {
    var bootctl := Bootloader.BootctlInstall(Bootloader.EspPath);
    assert bootctl.Cmd? && bootctl.program == "bootctl";
    assert "bootctl" !in SystemPrograms;
    var es := Effects(SystemPlan(c, mountPoint));
    if bootctl in es {
      SystemEffectKinds(c, mountPoint);
      assert false;
    }
  }

  /** When the stages before the bootloader all succeed, storage and the base system succeeded. */
  lemma SystemOkPrefix(env: Env, t: seq<Effect>, c: InstallConfig, mountPoint: string)
    requires Execute(env, t, SystemPlan(c, mountPoint)).result.Ok?
    ensures var rs := Execute(env, t, StoragePlan(c));
            rs.result.Ok? && Execute(env, t + rs.issued, BasePlan(mountPoint)).result.Ok?
  {
    var p0, p1, p2, p3, p4 := StoragePlan(c), BasePlan(mountPoint), ConfigurePlan(c, mountPoint), DesktopPlan(c), UserPlan(c, mountPoint);
    AppendOk(env, t, p0 + p1 + p2 + p3, p4);
    AppendOk(env, t, p0 + p1 + p2, p3);
    AppendOk(env, t, p0 + p1, p2);
    AppendOk(env, t, p0, p1);
  }

  /**
   * The bootloader stage is reached only after storage and the base system
   * both succeeded: if `bootctl install` was issued, preparing storage
   * returned Ok, and so did installing the base system after it.
   */
  lemma BootloaderNeedsStorageAndBase(env: Env, t: seq<Effect>, c: InstallConfig, mountPoint: string, kernelParams: string)
    requires Bootloader.BootctlInstall(Bootloader.EspPath) in Execute(env, t, InstallPlan(c, mountPoint, kernelParams)).issued
    ensures var rs := Execute(env, t, StoragePlan(c));
            rs.result.Ok? && Execute(env, t + rs.issued, BasePlan(mountPoint)).result.Ok?
  {
    BootctlNotBeforeBoot(c, mountPoint);
    ReachedOnlyAfter(env, t, SystemPlan(c, mountPoint), BootPlan(kernelParams), Bootloader.BootctlInstall(Bootloader.EspPath));
    SystemOkPrefix(env, t, c, mountPoint);
  }

  /**
   * An unsupported desktop environment ends the installation with an error
   * once configuration is done: nothing after the configuration stage is
   * issued (no user account, no bootloader), and if the earlier stages
   * succeeded the error is "Unsupported desktop environment".
   */
  lemma UnsupportedDesktopHalts(env: Env, t: seq<Effect>, c: InstallConfig, mountPoint: string, kernelParams: string)
    requires c.desktopEnvironment != "hyprland"
    ensures var r := Execute(env, t, InstallPlan(c, mountPoint, kernelParams));
            var before := Execute(env, t, StoragePlan(c) + BasePlan(mountPoint) + ConfigurePlan(c, mountPoint));
            && r.result.Err?
            && r.issued == before.issued
            && (before.result.Ok? ==> r.result.error == Message("Unsupported desktop environment"))
  {
    var pre := StoragePlan(c) + BasePlan(mountPoint) + ConfigurePlan(c, mountPoint);
    FailStops(env, t, pre, Message("Unsupported desktop environment"), UserPlan(c, mountPoint), BootPlan(kernelParams));
  }

  /** The effects of configure_system, in order, when nothing stops it. */
  function ConfigureSequence(c: InstallConfig, mountPoint: string): seq<Effect> {
    [Symlink(ZoneinfoPath(c.timezone), PathJoin(mountPoint, "etc/localtime")),
     WriteFile(PathJoin(mountPoint, "etc/locale.gen"), LocaleGen(c.locale)),
     WriteFile(PathJoin(mountPoint, "etc/hostname"), c.hostname)]
    + ChrootCmds(mountPoint, ConfigureCommands(c))
  }

  lemma ConfigureEffects(c: InstallConfig, mountPoint: string)
    ensures Effects(ConfigurePlan(c, mountPoint)) == ConfigureSequence(c, mountPoint)
  {
    var q0, q1, q2 := TimezonePlan(c, mountPoint), ConfigFilesPlan(c, mountPoint), ChrootPlan(mountPoint, ConfigureCommands(c));
    assert Effects(ConfigurePlan(c, mountPoint)) == Effects(q0) + Effects(q1) + Effects(q2) by {
      EffectsAppend(q0 + q1, q2);
      EffectsAppend(q0, q1);
    }
    assert Effects(q0) == EffectsOf(q0[0]) + [];
    assert Effects(q1) == EffectsOf(q1[0]) + (EffectsOf(q1[1]) + []) by {
      assert q1[1..][1..] == [];
    }
    EffectsLaunches(ChrootCmds(mountPoint, ConfigureCommands(c)));
  }

  /**
   * configure_system links the time zone, writes etc/locale.gen with the
   * locale line and etc/hostname with the host name verbatim, then runs
   * locale-gen, hwclock, and the LANG and KEYMAP settings, in that order,
   * stopping at the first failure.
   */
  lemma ConfigureOrder(env: Env, t: seq<Effect>, c: InstallConfig, mountPoint: string)
    ensures var r := Execute(env, t, ConfigurePlan(c, mountPoint));
            r.issued <= ConfigureSequence(c, mountPoint)
            && (r.result.Ok? ==> r.issued == ConfigureSequence(c, mountPoint))
  {
    ConfigureEffects(c, mountPoint);
    IssuedPrefix(env, t, ConfigurePlan(c, mountPoint));
  }
}
