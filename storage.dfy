/**
 * Storage provisioning: partitioning the target disk, encrypting its root
 * partition, formatting and mounting the filesystems, creating the btrfs
 * subvolumes and configuring snapper. Every tool is launched with
 * `.status()?`: only a tool that cannot be launched stops the sequence;
 * no exit status is looked at.
 */
module Storage {
  import opened Text
  import opened Exec
  import PackageManagement

  // ---------------------------------------------------------------------------
  // The partition layout

  /** Where a partition boundary lies: an offset in MiB, or a share of the disk. */
  datatype Bound = MiB(offset: nat) | Percent(share: nat)

  datatype PartitionSpec = PartitionSpec(name: string, fsType: Option<string>, start: Bound, end: Bound)

  /** The layout create_partitions lays down: ESP, boot, root. */
  const Layout: seq<PartitionSpec> := [
    PartitionSpec("ESP", Some("fat32"), MiB(1), MiB(513)),
    PartitionSpec("boot", None, MiB(513), MiB(1025)),
    PartitionSpec("root", None, MiB(1025), Percent(100))
  ]

  /** a lies before b on the disk; 100% is the end of the disk, after every MiB offset. */
  predicate Precedes(a: Bound, b: Bound) {
    match (a, b)
    case (MiB(x), MiB(y)) => x < y
    case (MiB(_), Percent(p)) => p == 100
    case _ => false
  }

  /**
   * Partitions are non-empty and laid end to end, every one but the last
   * ends at a MiB offset, and the last extends to the end of the disk.
   */
  predicate Contiguous(layout: seq<PartitionSpec>) {
    && |layout| > 0
    && (forall i :: 0 <= i < |layout| ==> Precedes(layout[i].start, layout[i].end))
    && (forall i :: 0 < i < |layout| ==> layout[i].start == layout[i - 1].end)
    && (forall i :: 0 <= i < |layout| - 1 ==> layout[i].end.MiB?)
    && layout[|layout| - 1].end == Percent(100)
  }

  lemma LayoutContiguous()
    ensures Contiguous(Layout)
    ensures Layout[0].fsType == Some("fat32") && Layout[0].start == MiB(1)
  {
  }

  /** In a contiguous layout the partitions start strictly in order. */
  lemma {:induction false} StartsIncrease(layout: seq<PartitionSpec>, i: nat, j: nat)
    requires Contiguous(layout)
    requires i < j < |layout|
    ensures Precedes(layout[i].start, layout[j].start)
    ensures layout[i].start.MiB? && layout[i].end.MiB?
    decreases j - i
  {
    assert layout[i].end.MiB?;
    assert layout[i + 1].start == layout[i].end;
    if i + 1 < j {
      StartsIncrease(layout, i + 1, j);
    }
  }

  /** How parted writes a boundary. */
  function RenderBound(b: Bound): string {
    match b
    case MiB(n) => Decimal(n) + "MiB"
    case Percent(p) => Decimal(p) + "%"
  }

  /** The arguments of `parted <device> mkpart ...` for one partition. */
  function MkpartArgs(p: PartitionSpec): seq<string> {
    ["mkpart", p.name] + (if p.fsType.Some? then [p.fsType.value] else []) + [RenderBound(p.start), RenderBound(p.end)]
  }

  /** The layout renders as the literal arguments create_partitions passes. */
  lemma LayoutArguments()
    ensures MkpartArgs(Layout[0]) == ["mkpart", "ESP", "fat32", "1MiB", "513MiB"]
    ensures MkpartArgs(Layout[1]) == ["mkpart", "boot", "513MiB", "1025MiB"]
    ensures MkpartArgs(Layout[2]) == ["mkpart", "root", "1025MiB", "100%"]
  {
    assert RenderBound(MiB(1)) == "1MiB" by {
      assert Decimal(1) == "1";
    }
    assert RenderBound(MiB(513)) == "513MiB" by {
      assert Decimal(5) == "5" && Decimal(51) == "51" && Decimal(513) == "513";
    }
    assert RenderBound(MiB(1025)) == "1025MiB" by {
      assert Decimal(10) == "10" && Decimal(102) == "102" && Decimal(1025) == "1025";
    }
    assert RenderBound(Percent(100)) == "100%" by {
      assert Decimal(10) == "10" && Decimal(100) == "100";
    }
  }

  // ---------------------------------------------------------------------------
  // Device naming

  /** Partition n of a disk: the device path followed by the partition number. */
  function PartitionPath(device: string, n: nat): (p: string)
    ensures device <= p
  {
    device + Decimal(n)
  }

  /** Different partition numbers name different devices. */
  lemma PartitionPathsDistinct(device: string, n: nat, m: nat)
    requires n != m
    ensures PartitionPath(device, n) != PartitionPath(device, m)
  {
    if PartitionPath(device, n) == PartitionPath(device, m) {
      assert Decimal(n) == PartitionPath(device, n)[|device|..];
      assert Decimal(m) == PartitionPath(device, m)[|device|..];
      DecimalInjective(n, m);
    }
  }

  const CryptName: string := "cryptroot"

  function MapperPath(name: string): string {
    "/dev/mapper/" + name
  }

  const MountPoint: string := "/mnt"

  /** The btrfs subvolumes, in creation order. */
  const Subvolumes: seq<string> := ["@", "@home", "@snapshots", "@var", "@tmp"]

  function SubvolumePath(mountPoint: string, name: string): string {
    mountPoint + "/" + name
  }

  const StoragePackages: seq<string> := ["btrfs-progs", "cryptsetup", "lvm2", "dosfstools", "e2fsprogs", "snapper"]

  const SnapperConfigPath: string := "/etc/snapper/configs/root"

  /** The snapper settings written for the root configuration (the comments are in Arabic). */
  const SnapperConfig: string :=
    "\n# تكوين Snapper\nTIMELINE_MIN_AGE=\"1800\"\nTIMELINE_LIMIT_HOURLY=\"5\"\nTIMELINE_LIMIT_DAILY=\"7\"\n"
    + "TIMELINE_LIMIT_WEEKLY=\"2\"\nTIMELINE_LIMIT_MONTHLY=\"2\"\nTIMELINE_LIMIT_YEARLY=\"0\"\n\n"
    + "# النسخ الاحتياطية قبل التحديثات\nALLOW_USERS=\"root\"\nSYNC_ACL=\"yes\"\n"

  // ---------------------------------------------------------------------------
  // Commands and plans

  function Parted(device: string, args: seq<string>): Effect {
    Cmd("parted", [device] + args, None)
  }

  function LuksFormat(partition: string): Effect {
    Cmd("cryptsetup", ["luksFormat", "--type", "luks2", "--cipher", "aes-xts-plain64", "--key-size", "512",
                       "--hash", "sha512", "--iter-time", "5000", partition], None)
  }

  function LuksOpen(partition: string, name: string): Effect {
    Cmd("cryptsetup", ["open", partition, name], None)
  }

  function MountRoot(device: string): Effect {
    Cmd("mount", [device, MountPoint], None)
  }

  function SubvolumeCreate(name: string): Effect {
    Cmd("btrfs", ["subvolume", "create", SubvolumePath(MountPoint, name)], None)
  }

  function PartitionCmds(device: string): seq<Effect> {
    [Parted(device, ["mklabel", "gpt"]),
     Parted(device, MkpartArgs(Layout[0])),
     Parted(device, MkpartArgs(Layout[1])),
     Parted(device, MkpartArgs(Layout[2]))]
  }

  function EncryptionCmds(device: string): seq<Effect> {
    [LuksFormat(PartitionPath(device, 3)),
     LuksOpen(PartitionPath(device, 3), CryptName)]
  }

  function FormatCmds(device: string, encrypted: string): seq<Effect> {
    [Cmd("mkfs.fat", ["-F32", PartitionPath(device, 1)], None),
     Cmd("mkfs.ext4", [PartitionPath(device, 2)], None),
     Cmd("mkfs.btrfs", [encrypted], None),
     MountRoot(encrypted)]
  }

  function SubvolumeCmds(names: seq<string>): (cmds: seq<Effect>)
    ensures |cmds| == |names|
  {
    seq(|names|, i requires 0 <= i < |names| => SubvolumeCreate(names[i]))
  }

  function PartitionPlan(device: string): seq<Action> {
    Launches(PartitionCmds(device))
  }

  function EncryptionPlan(device: string): seq<Action> {
    Launches(EncryptionCmds(device))
  }

  function FilesystemPlan(device: string, encrypted: string): seq<Action> {
    Launches(FormatCmds(device, encrypted) + SubvolumeCmds(Subvolumes))
  }

  const SnapperPlan: seq<Action> :=
    [Launch(Cmd("snapper", ["create-config", "/"], None)),
     Perform(WriteFile(SnapperConfigPath, SnapperConfig))]

  /** Everything setup_storage does after installing the storage tools. */
  function ProvisionPlan(device: string): seq<Action> {
    PartitionPlan(device) + EncryptionPlan(device) + FilesystemPlan(device, MapperPath(CryptName)) + SnapperPlan
  }

  /** setup_storage: tools, partitions, encryption, filesystems, snapper, in that order. */
  function SetupPlan(device: string): (plan: seq<Action>)
    ensures plan == PackageManagement.InstallPlan(StoragePackages) + ProvisionPlan(device)
  {
    PackageManagement.InstallPlan(StoragePackages) + PartitionPlan(device) + EncryptionPlan(device)
      + FilesystemPlan(device, MapperPath(CryptName)) + SnapperPlan
  }

  // ---------------------------------------------------------------------------
  // The storage manager

  datatype StorageManager = StorageManager(rootDevice: string, espPath: string) {

    static function New(device: string): (sm: StorageManager)
      ensures sm.rootDevice == device && sm.espPath == "/boot/efi"
    {
      StorageManager(device, "/boot/efi")
    }

    /** setup_storage: tools, partitions, encryption, filesystems, snapper, in that order. */
    method SetupStorage(sh: Shell) returns (r: Result<()>)
      modifies sh
      ensures sh.Ran(old(sh.trace), SetupPlan(rootDevice), r)
    {
      ghost var t0 := sh.trace;
      ghost var p0 := PackageManagement.InstallPlan(StoragePackages);
      ghost var p1 := PartitionPlan(rootDevice);
      ghost var p2 := EncryptionPlan(rootDevice);
      ghost var p3 := FilesystemPlan(rootDevice, MapperPath(CryptName));
      ghost var p4 := SnapperPlan;
      var pkgManager := PackageManagement.PackageManager.New();
      r := pkgManager.InstallPackages(sh, StoragePackages);
      if r.Err? {
        RanStop(sh.env, t0, p0, p1, sh.trace, r);
        RanStop(sh.env, t0, p0 + p1, p2, sh.trace, r);
        RanStop(sh.env, t0, p0 + p1 + p2, p3, sh.trace, r);
        RanStop(sh.env, t0, p0 + p1 + p2 + p3, p4, sh.trace, r);
        return;
      }
      ghost var t1 := sh.trace;
      r := CreatePartitions(sh);
      RanSeq(sh.env, t0, p0, t1, p1, sh.trace, r);
      if r.Err? {
        RanStop(sh.env, t0, p0 + p1, p2, sh.trace, r);
        RanStop(sh.env, t0, p0 + p1 + p2, p3, sh.trace, r);
        RanStop(sh.env, t0, p0 + p1 + p2 + p3, p4, sh.trace, r);
        return;
      }
      ghost var t2 := sh.trace;
      var encrypted := SetupEncryption(sh);
      r := Discard(encrypted);
      RanSeq(sh.env, t0, p0 + p1, t2, p2, sh.trace, r);
      if r.Err? {
        RanStop(sh.env, t0, p0 + p1 + p2, p3, sh.trace, r);
        RanStop(sh.env, t0, p0 + p1 + p2 + p3, p4, sh.trace, r);
        return;
      }
      ghost var t3 := sh.trace;
      r := SetupFilesystems(sh, encrypted.value);
      RanSeq(sh.env, t0, p0 + p1 + p2, t3, p3, sh.trace, r);
      if r.Err? {
        RanStop(sh.env, t0, p0 + p1 + p2 + p3, p4, sh.trace, r);
        return;
      }
      ghost var t4 := sh.trace;
      r := SetupSnapper(sh);
      RanSeq(sh.env, t0, p0 + p1 + p2 + p3, t4, p4, sh.trace, r);
    }

    /** create_partitions: a GPT label, then ESP, boot and root. */
    method CreatePartitions(sh: Shell) returns (r: Result<()>)
      modifies sh
      ensures sh.Ran(old(sh.trace), PartitionPlan(rootDevice), r)
    {
      ghost var t0 := sh.trace;
      ghost var cmds := PartitionCmds(rootDevice);
      LayoutArguments();
      assert Launches(cmds)[..0] == [];
      r := sh.StatusStep(t0, cmds, 0, Parted(rootDevice, ["mklabel", "gpt"]));
      if r.Err? { return; }
      r := sh.StatusStep(t0, cmds, 1, Parted(rootDevice, ["mkpart", "ESP", "fat32", "1MiB", "513MiB"]));
      if r.Err? { return; }
      r := sh.StatusStep(t0, cmds, 2, Parted(rootDevice, ["mkpart", "boot", "513MiB", "1025MiB"]));
      if r.Err? { return; }
      r := sh.StatusStep(t0, cmds, 3, Parted(rootDevice, ["mkpart", "root", "1025MiB", "100%"]));
    }

    /** setup_encryption: formats partition 3 as LUKS2, opens it, and returns the mapped device. */
    method SetupEncryption(sh: Shell) returns (r: Result<string>)
      modifies sh
      ensures sh.Ran(old(sh.trace), EncryptionPlan(rootDevice), Discard(r))
      ensures r.Ok? ==> r.value == MapperPath(CryptName)
    {
      ghost var t0 := sh.trace;
      ghost var plan := EncryptionPlan(rootDevice);
      var rootPartition := rootDevice + "3";
      var encryptedName := "cryptroot";
      assert rootPartition == PartitionPath(rootDevice, 3) by {
        assert Decimal(3) == "3";
      }
      assert plan[..0] == [];
      var s := sh.Status(LuksFormat(rootPartition));
      Advance(sh.env, t0, plan, 0, t0, sh.trace, s);
      if s.Err? { return Err(s.error); }
      ghost var t1 := sh.trace;
      s := sh.Status(LuksOpen(rootPartition, encryptedName));
      Advance(sh.env, t0, plan, 1, t1, sh.trace, s);
      if s.Err? { return Err(s.error); }
      assert plan[..2] == plan;
      r := Ok("/dev/mapper/" + encryptedName);
    }

    /** setup_filesystems: FAT32 on partition 1, ext4 on 2, btrfs on the mapped device, mounted, then the subvolumes. */
    method SetupFilesystems(sh: Shell, encryptedDevice: string) returns (r: Result<()>)
      modifies sh
      ensures sh.Ran(old(sh.trace), FilesystemPlan(rootDevice, encryptedDevice), r)
    {
      ghost var t0 := sh.trace;
      ghost var plan := FilesystemPlan(rootDevice, encryptedDevice);
      assert rootDevice + "1" == PartitionPath(rootDevice, 1) by { assert Decimal(1) == "1"; }
      assert rootDevice + "2" == PartitionPath(rootDevice, 2) by { assert Decimal(2) == "2"; }
      assert plan[..0] == [];
      r := sh.Status(Cmd("mkfs.fat", ["-F32", rootDevice + "1"], None));
      Advance(sh.env, t0, plan, 0, t0, sh.trace, r);
      if r.Err? { return; }
      ghost var t1 := sh.trace;
      r := sh.Status(Cmd("mkfs.ext4", [rootDevice + "2"], None));
      Advance(sh.env, t0, plan, 1, t1, sh.trace, r);
      if r.Err? { return; }
      ghost var t2 := sh.trace;
      r := sh.Status(Cmd("mkfs.btrfs", [encryptedDevice], None));
      Advance(sh.env, t0, plan, 2, t2, sh.trace, r);
      if r.Err? { return; }
      var mountPoint := "/mnt";
      ghost var t3 := sh.trace;
      r := sh.Status(Cmd("mount", [encryptedDevice, mountPoint], None));
      Advance(sh.env, t0, plan, 3, t3, sh.trace, r);
      if r.Err? { return; }
      var subvols := ["@", "@home", "@snapshots", "@var", "@tmp"];
      var i := 0;
      while i < |subvols|
        invariant 0 <= i <= |subvols|
        invariant sh.Ran(t0, plan[..4 + i], Ok(()))
      {
        ghost var ti := sh.trace;
        r := sh.Status(Cmd("btrfs", ["subvolume", "create", mountPoint + "/" + subvols[i]], None));
        assert plan[4 + i] == Launch(SubvolumeCreate(subvols[i]));
        Advance(sh.env, t0, plan, 4 + i, ti, sh.trace, r);
        if r.Err? { return; }
        i := i + 1;
      }
      assert plan[..4 + i] == plan;
      r := Ok(());
    }

    /** setup_snapper: creates the root configuration and writes its settings. */
    method SetupSnapper(sh: Shell) returns (r: Result<()>)
      modifies sh
      ensures sh.Ran(old(sh.trace), SnapperPlan, r)
    {
      ghost var t0 := sh.trace;
      ghost var plan := SnapperPlan;
      assert plan[..0] == [];
      r := sh.Status(Cmd("snapper", ["create-config", "/"], None));
      Advance(sh.env, t0, plan, 0, t0, sh.trace, r);
      if r.Err? { return; }
      ghost var t1 := sh.trace;
      r := sh.Attempt(WriteFile(SnapperConfigPath, SnapperConfig));
      Advance(sh.env, t0, plan, 1, t1, sh.trace, r);
      assert plan[..2] == plan;
    }
  }

  // ---------------------------------------------------------------------------
  // Properties of provisioning

  /** After the storage tools are installed, no exit status is ever looked at. */
  lemma ProvisionIgnoresExitStatus(env1: Env, env2: Env, t: seq<Effect>, device: string)
    requires SameLaunches(env1, env2)
    ensures Execute(env1, t, ProvisionPlan(device)) == Execute(env2, t, ProvisionPlan(device))
  {
    var plan := ProvisionPlan(device);
    forall a | a in plan ensures !a.Check? {
    }
    StatusIgnored(env1, env2, t, plan);
  }

  /** The effects provisioning issues, in order, when nothing stops it. */
  function ProvisionEffects(device: string): seq<Effect> {
    PartitionEffects(device) + EncryptionEffects(device) + FilesystemEffects(device) + SnapperEffects
  }

  function PartitionEffects(device: string): seq<Effect> {
    [Parted(device, ["mklabel", "gpt"]),
     Parted(device, ["mkpart", "ESP", "fat32", "1MiB", "513MiB"]),
     Parted(device, ["mkpart", "boot", "513MiB", "1025MiB"]),
     Parted(device, ["mkpart", "root", "1025MiB", "100%"])]
  }

  function EncryptionEffects(device: string): seq<Effect> {
    [LuksFormat(device + "3"), LuksOpen(device + "3", "cryptroot")]
  }

  function FilesystemEffects(device: string): seq<Effect> {
    [Cmd("mkfs.fat", ["-F32", device + "1"], None),
     Cmd("mkfs.ext4", [device + "2"], None),
     Cmd("mkfs.btrfs", ["/dev/mapper/cryptroot"], None),
     Cmd("mount", ["/dev/mapper/cryptroot", "/mnt"], None),
     Cmd("btrfs", ["subvolume", "create", "/mnt/@"], None),
     Cmd("btrfs", ["subvolume", "create", "/mnt/@home"], None),
     Cmd("btrfs", ["subvolume", "create", "/mnt/@snapshots"], None),
     Cmd("btrfs", ["subvolume", "create", "/mnt/@var"], None),
     Cmd("btrfs", ["subvolume", "create", "/mnt/@tmp"], None)]
  }

  const SnapperEffects: seq<Effect> :=
    [Cmd("snapper", ["create-config", "/"], None), WriteFile("/etc/snapper/configs/root", SnapperConfig)]

  /** The provisioning plan would issue exactly ProvisionEffects. */
  lemma ProvisionPlanEffects(device: string)
    ensures Effects(ProvisionPlan(device)) == ProvisionEffects(device)
  {
    var mapper := MapperPath(CryptName);
    var p1, p2, p3 := PartitionPlan(device), EncryptionPlan(device), FilesystemPlan(device, mapper);
    EffectsAppend(p1 + p2 + p3, SnapperPlan);
    EffectsAppend(p1 + p2, p3);
    EffectsAppend(p1, p2);
    PartitionPlanEffects(device);
    EncryptionPlanEffects(device);
    FilesystemPlanEffects(device);
    assert Effects(SnapperPlan[1..][1..]) == [] by { assert SnapperPlan[1..][1..] == []; }
    assert Effects(SnapperPlan[1..]) == EffectsOf(SnapperPlan[1]) + [];
    assert Effects(SnapperPlan) == SnapperEffects;
  }

  lemma PartitionPlanEffects(device: string)
    ensures Effects(PartitionPlan(device)) == PartitionEffects(device)
  {
    EffectsLaunches(PartitionCmds(device));
    LayoutArguments();
  }

  lemma EncryptionPlanEffects(device: string)
    ensures Effects(EncryptionPlan(device)) == EncryptionEffects(device)
  {
    EffectsLaunches(EncryptionCmds(device));
    assert PartitionPath(device, 3) == device + "3" by { assert Decimal(3) == "3"; }
  }

  lemma FilesystemPlanEffects(device: string)
    ensures Effects(FilesystemPlan(device, MapperPath(CryptName))) == FilesystemEffects(device)
  {
    EffectsLaunches(FormatCmds(device, MapperPath(CryptName)) + SubvolumeCmds(Subvolumes));
    FormatCmdsExpand(device);
    SubvolumeCmdsExpand();
    assert FilesystemEffects(device) == FilesystemEffects(device)[..4] + FilesystemEffects(device)[4..];
  }

  lemma FormatCmdsExpand(device: string)
    ensures FormatCmds(device, MapperPath(CryptName)) == FilesystemEffects(device)[..4]
  {
    assert PartitionPath(device, 1) == device + "1" by { assert Decimal(1) == "1"; }
    assert PartitionPath(device, 2) == device + "2" by { assert Decimal(2) == "2"; }
    assert MapperPath(CryptName) == "/dev/mapper/cryptroot";
  }

  lemma SubvolumeCmdsExpand()
    ensures SubvolumeCmds(Subvolumes) ==
      [Cmd("btrfs", ["subvolume", "create", "/mnt/@"], None),
       Cmd("btrfs", ["subvolume", "create", "/mnt/@home"], None),
       Cmd("btrfs", ["subvolume", "create", "/mnt/@snapshots"], None),
       Cmd("btrfs", ["subvolume", "create", "/mnt/@var"], None),
       Cmd("btrfs", ["subvolume", "create", "/mnt/@tmp"], None)]
  {
    var sv := SubvolumeCmds(Subvolumes);
    assert sv[0] == SubvolumeCreate("@") && SubvolumePath(MountPoint, "@") == "/mnt/@";
    assert sv[1] == SubvolumeCreate("@home") && SubvolumePath(MountPoint, "@home") == "/mnt/@home";
    assert sv[2] == SubvolumeCreate("@snapshots") && SubvolumePath(MountPoint, "@snapshots") == "/mnt/@snapshots";
    assert sv[3] == SubvolumeCreate("@var") && SubvolumePath(MountPoint, "@var") == "/mnt/@var";
    assert sv[4] == SubvolumeCreate("@tmp") && SubvolumePath(MountPoint, "@tmp") == "/mnt/@tmp";
  }

  /**
   * Provisioning issues a prefix of: the GPT label, the three partitions,
   * LUKS format and open of partition 3, the three filesystems, the mount
   * of /dev/mapper/cryptroot at /mnt, the subvolumes @, @home, @snapshots,
   * @var, @tmp under /mnt, and snapper's configuration; all of it when it
   * succeeds. So `luksFormat` precedes `open`, and the mount precedes every
   * subvolume.
   */
  lemma ProvisionOrder(env: Env, t: seq<Effect>, device: string)
    ensures var r := Execute(env, t, ProvisionPlan(device));
            r.issued <= ProvisionEffects(device)
            && (r.result.Ok? ==> r.issued == ProvisionEffects(device))
  {
    ProvisionPlanEffects(device);
    IssuedPrefix(env, t, ProvisionPlan(device));
  }

  /**
   * If every tool can be launched and the configuration file can be written,
   * provisioning runs to its end: encryption is never skipped, whatever
   * statuses the tools return.
   */
  lemma ProvisionCompletes(env: Env, t: seq<Effect>, device: string)
    requires forall tr :: !env.spawn(tr).SpawnError?
    requires forall tr :: env.io(tr)
    ensures Execute(env, t, ProvisionPlan(device)) == Trail(ProvisionEffects(device), Ok(()))
  {
    var plan := ProvisionPlan(device);
    assert NoFail(plan) && Unchecked(plan) by {
      forall a | a in plan ensures !a.Fail? && !a.Check? { }
    }
    UncheckedCompletes(env, t, plan);
    ProvisionPlanEffects(device);
  }

  /** The programs setting up storage may run. */
  const StoragePrograms: set<string> :=
    {"pacman", "parted", "cryptsetup", "mkfs.fat", "mkfs.ext4", "mkfs.btrfs", "mount", "btrfs", "snapper"}

  /**
   * Setting up storage runs only the storage tools (no unmount, no teardown,
   * no boot tools) and writes only snapper's configuration.
   */
  lemma SetupEffectKinds(device: string)
    ensures forall e :: e in Effects(SetupPlan(device)) ==>
              (e.Cmd? && e.program in StoragePrograms) || e == WriteFile(SnapperConfigPath, SnapperConfig)
  {
    EffectsAppend(PackageManagement.InstallPlan(StoragePackages), ProvisionPlan(device));
    PackageManagement.InstallEffects(StoragePackages);
    ProvisionPlanEffects(device);
    ProvisionEffectKinds(device);
  }

  lemma ProvisionEffectKinds(device: string)
    ensures forall e :: e in ProvisionEffects(device) ==>
              (e.Cmd? && e.program in StoragePrograms) || e == WriteFile(SnapperConfigPath, SnapperConfig)
  {
    forall e | e in ProvisionEffects(device)
      ensures (e.Cmd? && e.program in StoragePrograms) || e == WriteFile(SnapperConfigPath, SnapperConfig)
    {
      if e in PartitionEffects(device) {
        assert e.program == "parted";
      } else if e in EncryptionEffects(device) {
        assert e.program == "cryptsetup";
      } else if e in FilesystemEffects(device) {
        assert e.Cmd? && e.program in StoragePrograms;
      } else {
        assert e in SnapperEffects;
      }
    }
  }
}
