/**
 * The ISO builder: lays out an archiso profile under a work directory,
 * fills its root filesystem, installs the installer with an autostart entry,
 * and runs mkarchiso. Every stage uses `?`, so the first error ends the
 * build; pacstrap and mkarchiso are launched with `.status()?`, so only a
 * launch failure stops there, never an exit status.
 */
module IsoBuilding {
  import opened Text
  import opened Exec

  const WorkDir: string := "/var/lib/xbitos/iso"
  const OutputDir: string := "/var/lib/xbitos/releases"

  // ---------------------------------------------------------------------------
  // Names derived from the version

  /** The volume label: "XBITOS_" and the version with every '.' removed. */
  function IsoLabel(version: string): string {
    "XBITOS_" + RemoveAll(version, '.')
  }

  /** The name create_iso reports for the image. */
  function IsoName(version: string): string {
    "xbitos-" + version + "-x86_64.iso"
  }

  // ---------------------------------------------------------------------------
  // profiledef.sh

  const ProfileHead: seq<string> := ["", "#!/usr/bin/env bash", "iso_name=\"xbitos\""]

  const ProfileTail: seq<string> :=
    ["install_dir=\"xbitos\"",
     "buildmodes=('iso')",
     "bootmodes=('bios.syslinux.mbr' " + "'bios.syslinux.eltorito' "
     + "'uefi-x64.systemd-boot.esp' " + "'uefi-x64.systemd-boot.eltorito')",
     "arch=\"x86_64\"",
     "pacman_conf=\"pacman.conf\"",
     "airootfs_image_type=\"squashfs\"",
     "airootfs_image_tool_options=" + "('-comp' 'xz' '-Xbcj' 'x86' "
     + "'-b' '1M' '-Xdict-size' '1M')"]

  function LabelLine(version: string): string {
    "iso_label=\"" + IsoLabel(version) + "\""
  }

  function VersionLine(version: string): string {
    "iso_version=\"" + version + "\""
  }

  /** The lines of profiledef.sh; the text starts with an empty line. */
  function ProfileLines(version: string): seq<string> {
    ProfileHead
    + [LabelLine(version),
       "iso_publisher=\"xBitOS <https://xbitos.org>\"",
       "iso_application=\"xBitOS Live/Rescue CD\"",
       VersionLine(version)]
    + ProfileTail
  }

  function Profiledef(version: string): string {
    Unlines(ProfileLines(version))
  }

  /** The desktop entry that starts the installer in the live session; the text starts with an empty line. */
  const Autostart: string :=
    "\n[Desktop Entry]\nType=Application\nName=Install xBitOS\nExec=xbitos-installer\nIcon=system-software-install\n"

  /** The packages setup_packages would put into the image, group by group. */
  const BasePackages: seq<string> := ["base", "base-devel", "linux-zen", "linux-firmware"]
  const DesktopPackages: seq<string> := ["hyprland", "waybar", "alacritty", "wofi", "dunst", "polkit-kde-agent"]
  const NetworkPackages: seq<string> := ["networkmanager", "network-manager-applet"]
  const AudioPackages: seq<string> := ["pipewire", "pipewire-pulse"]
  const ToolPackages: seq<string> := ["firefox", "git", "nano", "vim"]
  const ThemePackages: seq<string> := ["noto-fonts", "ttf-jetbrains-mono-nerd", "papirus-icon-theme"]
  const SystemToolPackages: seq<string> := ["gparted", "htop", "neofetch"]

  const EssentialPackages: seq<string> :=
    BasePackages + DesktopPackages + NetworkPackages + AudioPackages + ToolPackages + ThemePackages
    + SystemToolPackages

  // ---------------------------------------------------------------------------
  // Commands and plans

  function Airootfs(workDir: string): string {
    PathJoin(workDir, "airootfs")
  }

  function DirectoryEffects(workDir: string, outputDir: string): seq<Effect> {
    [CreateDirAll(workDir), CreateDirAll(outputDir), CreateDirAll(Airootfs(workDir)),
     CreateDirAll(PathJoin(workDir, "boot")), CreateDirAll(PathJoin(workDir, "efiboot"))]
  }

  function ProfileWrite(workDir: string, version: string): Effect {
    WriteFile(PathJoin(workDir, "profiledef.sh"), Profiledef(version))
  }

  function BasePacstrap(workDir: string): Effect {
    Cmd("pacstrap", [Airootfs(workDir), "base", "linux-zen", "linux-firmware", "hyprland", "networkmanager",
                     "xbitos-desktop"], None)
  }

  function InstallerEffects(workDir: string): seq<Effect> {
    [CopyFile("/usr/bin/xbitos-installer", PathJoin(workDir, "airootfs/usr/bin/xbitos-installer")),
     WriteFile(PathJoin(workDir, "airootfs/etc/xdg/autostart/installer.desktop"), Autostart)]
  }

  function Mkarchiso(workDir: string, outputDir: string): Effect {
    Cmd("mkarchiso", ["-v", "-w", "/tmp/archiso-tmp", "-o", outputDir, workDir], None)
  }

  function PackagesPacstrap(workDir: string): Effect {
    Cmd("pacstrap", [Airootfs(workDir), JoinWith(" ", EssentialPackages)], None)
  }

  function DirectoriesPlan(workDir: string, outputDir: string): seq<Action> {
    Performs(DirectoryEffects(workDir, outputDir))
  }

  function ConfigPlan(workDir: string, version: string): seq<Action> {
    [Perform(ProfileWrite(workDir, version))]
  }

  function BaseFilesPlan(workDir: string): seq<Action> {
    [Launch(BasePacstrap(workDir))]
  }

  function InstallerPlan(workDir: string): seq<Action> {
    Performs(InstallerEffects(workDir))
  }

  function CreatePlan(workDir: string, outputDir: string): seq<Action> {
    [Launch(Mkarchiso(workDir, outputDir))]
  }

  /** build_iso: the five stages in order. */
  function BuildPlan(workDir: string, outputDir: string, version: string): seq<Action> {
    DirectoriesPlan(workDir, outputDir) + ConfigPlan(workDir, version) + BaseFilesPlan(workDir)
    + InstallerPlan(workDir) + CreatePlan(workDir, outputDir)
  }

  function PackagesPlan(workDir: string): seq<Action> {
    [Launch(PackagesPacstrap(workDir))]
  }

  // ---------------------------------------------------------------------------
  // The builder

  datatype IsoBuilder = IsoBuilder(workDir: string, outputDir: string, version: string) {

    static function New(version: string): (b: IsoBuilder)
      ensures b.workDir == WorkDir && b.outputDir == OutputDir && b.version == version
    {
      IsoBuilder("/var/lib/xbitos/iso", "/var/lib/xbitos/releases", version)
    }

    /** build_iso */
    method BuildIso(sh: Shell) returns (r: Result<()>)
      modifies sh
      ensures sh.Ran(old(sh.trace), BuildPlan(workDir, outputDir, version), r)
    {
      ghost var t0 := sh.trace;
      ghost var p0 := DirectoriesPlan(workDir, outputDir);
      ghost var p1 := ConfigPlan(workDir, version);
      ghost var p2 := BaseFilesPlan(workDir);
      ghost var p3 := InstallerPlan(workDir);
      ghost var p4 := CreatePlan(workDir, outputDir);
      r := SetupDirectories(sh);
      if r.Err? {
        RanStop(sh.env, t0, p0, p1, sh.trace, r);
        RanStop(sh.env, t0, p0 + p1, p2, sh.trace, r);
        RanStop(sh.env, t0, p0 + p1 + p2, p3, sh.trace, r);
        RanStop(sh.env, t0, p0 + p1 + p2 + p3, p4, sh.trace, r);
        return;
      }
      ghost var t1 := sh.trace;
      r := SetupConfigFiles(sh);
      RanSeq(sh.env, t0, p0, t1, p1, sh.trace, r);
      if r.Err? {
        RanStop(sh.env, t0, p0 + p1, p2, sh.trace, r);
        RanStop(sh.env, t0, p0 + p1 + p2, p3, sh.trace, r);
        RanStop(sh.env, t0, p0 + p1 + p2 + p3, p4, sh.trace, r);
        return;
      }
      ghost var t2 := sh.trace;
      r := CopyBaseFiles(sh);
      RanSeq(sh.env, t0, p0 + p1, t2, p2, sh.trace, r);
      if r.Err? {
        RanStop(sh.env, t0, p0 + p1 + p2, p3, sh.trace, r);
        RanStop(sh.env, t0, p0 + p1 + p2 + p3, p4, sh.trace, r);
        return;
      }
      ghost var t3 := sh.trace;
      r := SetupInstaller(sh);
      RanSeq(sh.env, t0, p0 + p1 + p2, t3, p3, sh.trace, r);
      if r.Err? {
        RanStop(sh.env, t0, p0 + p1 + p2 + p3, p4, sh.trace, r);
        return;
      }
      ghost var t4 := sh.trace;
      var announced;
      r, announced := CreateIso(sh);
      RanSeq(sh.env, t0, p0 + p1 + p2 + p3, t4, p4, sh.trace, r);
    }

    /** setup_directories */
    method SetupDirectories(sh: Shell) returns (r: Result<()>)
      modifies sh
      ensures sh.Ran(old(sh.trace), DirectoriesPlan(workDir, outputDir), r)
    {
      ghost var t0 := sh.trace;
      ghost var ops := DirectoryEffects(workDir, outputDir);
      assert Performs(ops)[..0] == [];
      r := sh.AttemptStep(t0, ops, 0, CreateDirAll(workDir));
      if r.Err? { return; }
      r := sh.AttemptStep(t0, ops, 1, CreateDirAll(outputDir));
      if r.Err? { return; }
      r := sh.AttemptStep(t0, ops, 2, CreateDirAll(PathJoin(workDir, "airootfs")));
      if r.Err? { return; }
      r := sh.AttemptStep(t0, ops, 3, CreateDirAll(PathJoin(workDir, "boot")));
      if r.Err? { return; }
      r := sh.AttemptStep(t0, ops, 4, CreateDirAll(PathJoin(workDir, "efiboot")));
    }

    /** setup_config_files: writes profiledef.sh into the work directory. */
    method SetupConfigFiles(sh: Shell) returns (r: Result<()>)
      modifies sh
      ensures sh.Ran(old(sh.trace), ConfigPlan(workDir, version), r)
    {
      ghost var t0 := sh.trace;
      var profiledef := Profiledef(version);
      r := sh.Attempt(WriteFile(PathJoin(workDir, "profiledef.sh"), profiledef));
      ExecuteSingle(sh.env, t0, Perform(ProfileWrite(workDir, version)));
    }

    /** copy_base_files: pacstrap into airootfs; only a launch failure stops. */
    method CopyBaseFiles(sh: Shell) returns (r: Result<()>)
      modifies sh
      ensures sh.Ran(old(sh.trace), BaseFilesPlan(workDir), r)
    {
      ghost var t0 := sh.trace;
      r := sh.Status(Cmd("pacstrap", [PathJoin(workDir, "airootfs"), "base", "linux-zen", "linux-firmware",
                                      "hyprland", "networkmanager", "xbitos-desktop"], None));
      ExecuteSingle(sh.env, t0, Launch(BasePacstrap(workDir)));
    }

    /** setup_installer: copies the installer binary, then writes its autostart entry. */
    method SetupInstaller(sh: Shell) returns (r: Result<()>)
      modifies sh
      ensures sh.Ran(old(sh.trace), InstallerPlan(workDir), r)
    {
      ghost var t0 := sh.trace;
      ghost var ops := InstallerEffects(workDir);
      assert Performs(ops)[..0] == [];
      r := sh.AttemptStep(t0, ops, 0,
                          CopyFile("/usr/bin/xbitos-installer", PathJoin(workDir, "airootfs/usr/bin/xbitos-installer")));
      if r.Err? { return; }
      r := sh.AttemptStep(t0, ops, 1,
                          WriteFile(PathJoin(workDir, "airootfs/etc/xdg/autostart/installer.desktop"), Autostart));
    }

    /**
     * create_iso: runs mkarchiso; on success it announces the image name
     * (the log line, returned here as a value).
     */
    method CreateIso(sh: Shell) returns (r: Result<()>, announced: Option<string>)
      modifies sh
      ensures sh.Ran(old(sh.trace), CreatePlan(workDir, outputDir), r)
      ensures announced == if r.Ok? then Some(IsoName(version)) else None
    {
      ghost var t0 := sh.trace;
      var isoName := "xbitos-" + version + "-x86_64.iso";
      r := sh.Status(Cmd("mkarchiso", ["-v", "-w", "/tmp/archiso-tmp", "-o", outputDir, workDir], None));
      ExecuteSingle(sh.env, t0, Launch(Mkarchiso(workDir, outputDir)));
      announced := if r.Ok? then Some(isoName) else None;
    }

    /** setup_packages: one pacstrap whose second argument is the whole list joined by spaces. */
    method SetupPackages(sh: Shell) returns (r: Result<()>)
      modifies sh
      ensures sh.Ran(old(sh.trace), PackagesPlan(workDir), r)
    {
      ghost var t0 := sh.trace;
      var packages := JoinWith(" ", EssentialPackages);
      r := sh.Status(Cmd("pacstrap", [PathJoin(workDir, "airootfs"), packages], None));
      ExecuteSingle(sh.env, t0, Launch(PackagesPacstrap(workDir)));
    }
  }

  // ---------------------------------------------------------------------------
  // Properties of the names

  /**
   * The label is "XBITOS_" followed by the version's characters other than
   * '.', in order: it holds no '.', its length drops by one per '.', and a
   * version without dots appears in it verbatim.
   */
  lemma LabelOfVersion(version: string)
    ensures IsoLabel(version)[..7] == "XBITOS_"
    ensures '.' !in IsoLabel(version)
    ensures |IsoLabel(version)| == 7 + |version| - multiset(version)['.']
    ensures '.' !in version ==> IsoLabel(version) == "XBITOS_" + version
  {
    RemoveAllCount(version, '.');
    if '.' !in version {
      RemoveAllAbsent(version, '.');
    }
  }

  /** Dropping the dots makes versions that differ only in a '.' share a label ("1.0" and "10"). */
  lemma LabelIgnoresDot(before: string, after: string)
    ensures IsoLabel(before + "." + after) == IsoLabel(before + after)
  {
    RemoveAllAppend(before + ".", after, '.');
    RemoveAllAppend(before, ".", '.');
    RemoveAllAppend(before, after, '.');
    assert RemoveAll(".", '.') == [] by {
      assert RemoveAll([], '.') == [];
    }
    assert RemoveAll(before, '.') + [] == RemoveAll(before, '.');
  }

  /** The image name gives back the version it was built from, so different versions get different names. */
  lemma IsoNameVersion(version: string)
    ensures var name := IsoName(version);
            |name| == |version| + 18 && name[7..|name| - 11] == version
  {
    var name := IsoName(version);
    AppendAssoc("xbitos-", version, "-x86_64.iso");
    assert name == "xbitos-" + (version + "-x86_64.iso");
    assert name[7..] == version + "-x86_64.iso";
    assert name[7..|name| - 11] == name[7..][..|version|];
  }

  lemma IsoNameInjective(v1: string, v2: string)
    requires IsoName(v1) == IsoName(v2)
    ensures v1 == v2
  {
    IsoNameVersion(v1);
    IsoNameVersion(v2);
  }

  // ---------------------------------------------------------------------------
  // Properties of profiledef.sh

  lemma ProfileHeadLines()
    ensures forall i :: 0 <= i < |ProfileHead| ==> SingleLine(ProfileHead[i])
  {
    assert SingleLine(ProfileHead[0]) && SingleLine(ProfileHead[1]) && SingleLine(ProfileHead[2]);
  }

  lemma ProfileTailShortLines()
    ensures SingleLine(ProfileTail[0]) && SingleLine(ProfileTail[1]) && SingleLine(ProfileTail[3])
  {
  }

  lemma ProfileTailImageLines()
    ensures SingleLine(ProfileTail[4]) && SingleLine(ProfileTail[5])
  {
  }

  lemma ProfileBootmodesLine()
    ensures SingleLine(ProfileTail[2])
  {
  }

  lemma ProfileToolOptionsLine()
    ensures SingleLine(ProfileTail[6])
  {
  }

  lemma ProfileTailLines()
    ensures forall i :: 0 <= i < |ProfileTail| ==> SingleLine(ProfileTail[i])
  {
    ProfileTailShortLines();
    ProfileTailImageLines();
    ProfileBootmodesLine();
    ProfileToolOptionsLine();
  }

  lemma ProfilePublisherLine()
    ensures SingleLine("iso_publisher=\"xBitOS <https://xbitos.org>\"")
  {
  }

  lemma ProfileApplicationLine()
    ensures SingleLine("iso_application=\"xBitOS Live/Rescue CD\"")
  {
  }

  /** A line that ends with a quote is one line as long as nothing in it is a newline. */
  lemma QuotedSingleLine(prefix: string, middle: string)
    requires '\n' !in prefix && '\n' !in middle
    ensures SingleLine(prefix + middle + "\"")
  {
    var l := prefix + middle + "\"";
    assert l[|l| - 1] == '"';
    forall i | 0 <= i < |l| ensures l[i] != '\n' {
      if i < |prefix| { assert l[i] == prefix[i]; }
      else if i < |prefix| + |middle| { assert l[i] == middle[i - |prefix|]; }
    }
  }

  /**
   * Read line by line, profiledef.sh names the image "xbitos", carries the
   * label derived from the version and the version itself (for a version
   * without a newline), and otherwise holds its fixed settings.
   */
  lemma ProfileReadsBack(version: string)
    requires '\n' !in version
    ensures Lines(Profiledef(version)) == ProfileLines(version)
    ensures Lines(Profiledef(version))[2] == "iso_name=\"xbitos\""
    ensures Lines(Profiledef(version))[3] == "iso_label=\"" + "XBITOS_" + RemoveAll(version, '.') + "\""
    ensures Lines(Profiledef(version))[6] == "iso_version=\"" + version + "\""
  {
    ProfileLinesSingle(version);
    LinesUnlines(ProfileLines(version));
    ProfileLineAt(version);
    AppendAssoc("iso_label=\"", "XBITOS_", RemoveAll(version, '.'));
  }

  lemma ProfileLineAt(version: string)
    ensures |ProfileLines(version)| == 14
    ensures ProfileLines(version)[2] == ProfileHead[2]
    ensures ProfileLines(version)[3] == LabelLine(version)
    ensures ProfileLines(version)[6] == VersionLine(version)
  {
    var middle := [LabelLine(version), "iso_publisher=\"xBitOS <https://xbitos.org>\"",
                   "iso_application=\"xBitOS Live/Rescue CD\"", VersionLine(version)];
    assert ProfileLines(version) == ProfileHead + middle + ProfileTail;
    assert (ProfileHead + middle)[3] == middle[0];
    assert (ProfileHead + middle)[6] == middle[3];
  }

  lemma ProfileLinesSingle(version: string)
    requires '\n' !in version
    ensures forall i :: 0 <= i < |ProfileLines(version)| ==> SingleLine(ProfileLines(version)[i])
  {
    var ls := ProfileLines(version);
    ProfileHeadLines();
    ProfileTailLines();
    ProfilePublisherLine();
    ProfileApplicationLine();
    assert '\n' !in IsoLabel(version) by {
      assert '\n' !in RemoveAll(version, '.');
    }
    QuotedSingleLine("iso_label=\"", IsoLabel(version));
    QuotedSingleLine("iso_version=\"", version);
    forall i | 0 <= i < |ls| ensures SingleLine(ls[i]) {
      if i < 3 {
        assert ls[i] == ProfileHead[i];
      } else if i >= 7 {
        assert ls[i] == ProfileTail[i - 7];
      }
    }
  }

  // ---------------------------------------------------------------------------
  // Properties of the build

  /** The effects build_iso issues, in order, when nothing stops it. */
  function BuildEffects(workDir: string, outputDir: string, version: string): seq<Effect> {
    DirectoryEffects(workDir, outputDir) + [ProfileWrite(workDir, version)] + [BasePacstrap(workDir)]
    + InstallerEffects(workDir) + [Mkarchiso(workDir, outputDir)]
  }

  lemma BuildPlanShape(workDir: string, outputDir: string, version: string)
    ensures Effects(BuildPlan(workDir, outputDir, version)) == BuildEffects(workDir, outputDir, version)
    ensures NoFail(BuildPlan(workDir, outputDir, version)) && Unchecked(BuildPlan(workDir, outputDir, version))
  {
    BuildPlanEffects(workDir, outputDir, version);
    BuildPlanUnchecked(workDir, outputDir, version);
  }

  lemma BuildPlanEffects(workDir: string, outputDir: string, version: string)
    ensures Effects(BuildPlan(workDir, outputDir, version)) == BuildEffects(workDir, outputDir, version)
  {
    var p0, p1, p2 := DirectoriesPlan(workDir, outputDir), ConfigPlan(workDir, version), BaseFilesPlan(workDir);
    var p3, p4 := InstallerPlan(workDir), CreatePlan(workDir, outputDir);
    FiveStages(p0, p1, p2, p3, p4);
    EffectsPerforms(DirectoryEffects(workDir, outputDir));
    EffectsSingle(p1[0]);
    EffectsSingle(p2[0]);
    EffectsPerforms(InstallerEffects(workDir));
    EffectsSingle(p4[0]);
  }

  lemma BuildPlanUnchecked(workDir: string, outputDir: string, version: string)
    ensures NoFail(BuildPlan(workDir, outputDir, version)) && Unchecked(BuildPlan(workDir, outputDir, version))
  {
    var p0, p1, p2 := DirectoriesPlan(workDir, outputDir), ConfigPlan(workDir, version), BaseFilesPlan(workDir);
    var p3, p4 := InstallerPlan(workDir), CreatePlan(workDir, outputDir);
    SingleUnchecked(p1[0]);
    SingleUnchecked(p2[0]);
    SingleUnchecked(p4[0]);
    FiveStages(p0, p1, p2, p3, p4);
  }

  /**
   * build_iso issues a prefix of: the five directories (work, output,
   * airootfs, boot, efiboot), the profiledef.sh write, pacstrap, the
   * installer copy, the autostart write and mkarchiso; all of them when it
   * succeeds.
   */
  lemma BuildOrder(env: Env, t: seq<Effect>, workDir: string, outputDir: string, version: string)
    ensures var r := Execute(env, t, BuildPlan(workDir, outputDir, version));
            && r.issued <= BuildEffects(workDir, outputDir, version)
            && (r.result.Ok? ==> r.issued == BuildEffects(workDir, outputDir, version))
  {
    BuildPlanShape(workDir, outputDir, version);
    IssuedPrefix(env, t, BuildPlan(workDir, outputDir, version));
  }

  /**
   * Exit statuses never matter to build_iso: two environments that agree on
   * which programs can be launched and which file operations succeed give
   * the same run.
   */
  lemma BuildIgnoresExitStatus(env1: Env, env2: Env, t: seq<Effect>, workDir: string, outputDir: string, version: string)
    requires SameLaunches(env1, env2)
    ensures Execute(env1, t, BuildPlan(workDir, outputDir, version)) == Execute(env2, t, BuildPlan(workDir, outputDir, version))
  {
    BuildPlanShape(workDir, outputDir, version);
    StatusIgnored(env1, env2, t, BuildPlan(workDir, outputDir, version));
  }

  /** When every program can be launched and every file operation succeeds, the build issues everything and succeeds. */
  lemma BuildCompletes(env: Env, t: seq<Effect>, workDir: string, outputDir: string, version: string)
    requires forall tr :: !env.spawn(tr).SpawnError?
    requires forall tr :: env.io(tr)
    ensures Execute(env, t, BuildPlan(workDir, outputDir, version)) == Trail(BuildEffects(workDir, outputDir, version), Ok(()))
  {
    BuildPlanShape(workDir, outputDir, version);
    UncheckedCompletes(env, t, BuildPlan(workDir, outputDir, version));
  }

  // ---------------------------------------------------------------------------
  // Properties of setup_packages

  /** Every name in the group is one word. */
  lemma GroupWords(group: seq<string>)
    requires forall i :: 0 <= i < |group| ==> |group[i]| > 0
    requires forall i, j :: 0 <= i < |group| && 0 <= j < |group[i]| ==> '!' <= group[i][j] <= '~'
    ensures forall i :: 0 <= i < |group| ==> IsWord(group[i])
  {
    forall i | 0 <= i < |group| ensures IsWord(group[i]) {
      VisibleWord(group[i]);
    }
  }

  lemma WordsAppend(a: seq<string>, b: seq<string>)
    requires forall i :: 0 <= i < |a| ==> IsWord(a[i])
    requires forall i :: 0 <= i < |b| ==> IsWord(b[i])
    ensures forall i :: 0 <= i < |a + b| ==> IsWord((a + b)[i])
  {
    forall i | 0 <= i < |a + b| ensures IsWord((a + b)[i]) {
      if i >= |a| { assert (a + b)[i] == b[i - |a|]; }
    }
  }

  lemma SystemPackageWords()
    ensures forall i :: 0 <= i < |BasePackages| ==> IsWord(BasePackages[i])
    ensures forall i :: 0 <= i < |DesktopPackages| ==> IsWord(DesktopPackages[i])
    ensures forall i :: 0 <= i < |NetworkPackages| ==> IsWord(NetworkPackages[i])
  {
    GroupWords(BasePackages);
    GroupWords(DesktopPackages);
    GroupWords(NetworkPackages);
  }

  lemma ExtraPackageWords()
    ensures forall i :: 0 <= i < |AudioPackages| ==> IsWord(AudioPackages[i])
    ensures forall i :: 0 <= i < |ToolPackages| ==> IsWord(ToolPackages[i])
    ensures forall i :: 0 <= i < |ThemePackages| ==> IsWord(ThemePackages[i])
    ensures forall i :: 0 <= i < |SystemToolPackages| ==> IsWord(SystemToolPackages[i])
  {
    GroupWords(AudioPackages);
    GroupWords(ToolPackages);
    GroupWords(ThemePackages);
    GroupWords(SystemToolPackages);
  }

  lemma PackageWords()
    ensures forall i :: 0 <= i < |EssentialPackages| ==> IsWord(EssentialPackages[i])
  {
    SystemPackageWords();
    ExtraPackageWords();
    var p1 := BasePackages + DesktopPackages;
    var p2 := p1 + NetworkPackages;
    var p3 := p2 + AudioPackages;
    var p4 := p3 + ToolPackages;
    var p5 := p4 + ThemePackages;
    WordsAppend(BasePackages, DesktopPackages);
    WordsAppend(p1, NetworkPackages);
    WordsAppend(p2, AudioPackages);
    WordsAppend(p3, ToolPackages);
    WordsAppend(p4, ThemePackages);
    WordsAppend(p5, SystemToolPackages);
  }

  /**
   * setup_packages hands pacstrap exactly two arguments: the airootfs path,
   * and one string that splits on whitespace back into the whole package
   * list, in order.
   */
  lemma PackagesArgs(workDir: string)
    ensures var c := PackagesPacstrap(workDir);
            && |c.args| == 2
            && c.args[0] == Airootfs(workDir)
            && Tokens(c.args[1]) == EssentialPackages
  {
    PackageWords();
    TokensOfJoin(EssentialPackages);
  }
}
