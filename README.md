# xBitOS installation and build pipeline in Dafny

xBitOS is an Arch-based distribution whose system tools are written in
Rust. This project models the part of them that provisions and assembles a
system:

- the **installer** (`SystemInstaller`): storage, base system,
  configuration, desktop, user account and bootloader, run in that order;
- the **storage manager**: GPT partitions, LUKS2 encryption of the root
  partition, the filesystems, the btrfs subvolumes and snapper;
- the **boot manager**: systemd-boot, `loader.conf` and the xBitOS boot
  entry;
- the **service manager** and the **package manager**: `systemctl` and
  `pacman`;
- the **software center**: a catalogue kept in step with `pacman -Q`;
- the **ISO builder**: an archiso profile and `mkarchiso`;
- the **package builder**: PKGBUILDs, `makepkg`, the local repository and
  the AUR.

Every process launch, file operation, directory read and call into a routine
outside the model is an `Effect` appended to the trace of a `Shell`. An
oracle `Env` decides each outcome as a function of the trace so far, so any
behaviour of the outside world can be expressed:

- whether the program could be launched, and its exit code and output;
- whether the file operation succeeded;
- which names a directory lists.

Each routine of the source is an imperative method over the `Shell`. It is
proved to run exactly a **plan**: a sequence of `Action`s executed the way
Rust's `?` operator runs them (`Exec.Execute`). The action kinds are:

- `Launch`: `.status()?` or `.output()?`, where only a launch failure
  stops the run.
- `Check`: the exit status is looked at too, and a non-zero status stops
  the run with the source's message.
- `Perform`: a file operation or routine call with `?`.
- `Fail`: an immediate `return Err(...)`.

The properties the system relies on are proved as lemmas about plans and
about the text the tools write:

- stage order and halting at the first error;
- which exit statuses are never looked at;
- what each written file reads back as;
- how package lists and names are derived.

Files:

- `text.dfy`: `str::lines`, `split_whitespace`, `join`, `contains`,
  `replace`, `Path::join` and `Path::extension`.
- `exec.dfy`: the executor, plans and the `Shell`.
- The remaining files model one source file each:
  - `package_manager.dfy` models `package_manager.rs`;
  - `services.dfy` models `services.rs`;
  - `storage.dfy` models `storage.rs`;
  - `bootloader.dfy` models `bootloader.rs`;
  - `installer.dfy` models `installer.rs`;
  - `software.dfy` models `software.rs`;
  - `iso_builder.dfy` models `iso_builder.rs`;
  - `packaging.dfy` models `packaging/builder.rs`.

Three behaviours of the code are worth stating outright:

- `chroot_execute` uses `.status()?`, so only a failure to launch
  `arch-chroot` stops it (`Installer.ChrootIgnoresStatus`).
- `setup_storage` always formats and opens the LUKS volume
  (`Storage.ProvisionCompletes`). Only `prepare_storage` chooses, between
  `setup_encrypted_storage` and `setup_storage` (`Installer.EncryptedBranch`).
- The storage, ISO and AUR launches ignore exit statuses
  (`Storage.ProvisionIgnoresExitStatus`, `IsoBuilding.BuildIgnoresExitStatus`,
  `Packaging.AurStatusIgnored`).

## Model

| member | source | states |
|---|---|---|
| Exec.ExecuteAppend | src/system/installer.rs:34-56 | running stages one after another with `?` is running the first and then, only if it succeeded, the rest from where it ended |
| Exec.FailStops | src/system/installer.rs:126-133 | an immediate `return Err` ends the run: nothing after it is issued, and its error is the result unless an earlier step failed |
| Exec.IssuedPrefix | src/system/installer.rs:34-56 | a run issues a prefix of its plan's effects, and all of them exactly when it succeeds |
| Exec.StatusIgnored | src/system/storage.rs:55-58 | a plan with no status check runs identically in any two worlds that agree on which programs launch and which file operations succeed |
| Exec.UncheckedCompletes | src/system/iso_builder.rs:22-41 | a plan with no status check and no `return Err` completes with Ok when every program launches and every file operation succeeds, whatever the exit codes |
| Exec.LaunchOnlyFailure | src/system/installer.rs:160-167 | a run of `.status()?` launches fails only with the launch error, on the last program it issued, which could not be launched |
| Exec.CheckedOutcome | src/system/package_manager.rs:22-40 | a run of status-checked commands issues a prefix of them; every one before the last exited 0; it succeeds exactly when all ran and exited 0; a failure carries the failing command's own error |
| Exec.Shell.Run | src/system/bootloader.rs:45-47 | launching a program appends it to the trace; its outcome is the world's answer for that trace |
| Exec.Shell.Status | src/system/storage.rs:55-58 | `.status()?` is an error only when the program cannot be launched |
| Exec.Shell.Attempt | src/system/installer.rs:101-104 | a file operation with `?` appends it to the trace and fails with an I/O error exactly when the world says it fails |
| Exec.Shell.ListDir | src/system/packaging/builder.rs:126 | reading a directory appends the read to the trace and yields the listed names, or nothing when the directory cannot be read |
| Text.LinesUnlines | src/system/software.rs:117 | lines that hold no newline and do not end in a carriage return, written one per line, read back as the same lines |
| Text.TokensOfJoin | src/system/software.rs:118 | words joined with single spaces split on whitespace back into the same words |
| Text.ContainsIff | src/system/software.rs:98-99 | `contains` holds exactly when the query occurs at some position |
| Text.RemoveAllCount | src/system/iso_builder.rs:67 | removing every '.' shortens the text by the number of dots it held |
| Text.PathJoin | src/system/installer.rs:102 | an absolute second path replaces the base; otherwise the result starts with the base and ends with the second path |
| Text.Extension | src/system/packaging/builder.rs:129-131 | the extension of a name (none for a dotless name, a leading-dot-only name or "..") never contains a '.' |
| Text.DecimalValue | src/system/storage.rs:84 | the decimal digits written for a partition number read back as that number |
| PackageManagement.PackageManager.New | src/system/package_manager.rs:15-20 | the manager uses pacman |
| PackageManagement.PackageManager.InstallPackages | src/system/package_manager.rs:22-40 | runs exactly the install plan: one status-checked `pacman -S --noconfirm` per package, in order |
| PackageManagement.PackageManager.UpdateSystem | src/system/package_manager.rs:42-57 | runs exactly one status-checked `pacman -Syu --noconfirm` |
| PackageManagement.InstallEffects | src/system/package_manager.rs:22-40 | installing issues `pacman -S --noconfirm <package>` for each package in list order, and nothing but pacman |
| PackageManagement.InstallOutcome | src/system/package_manager.rs:22-40 | installation stops at the first package whose pacman fails to launch or exits non-zero, and its error names that package; it succeeds exactly when every pacman exited 0, so an empty list succeeds with no command |
| PackageManagement.UpdateOutcome | src/system/package_manager.rs:42-57 | updating issues one `pacman -Syu --noconfirm` and succeeds exactly when it exited 0; a launch failure carries the context "Failed to update system" |
| Services.ServiceManager.New | src/system/services.rs:15-19 | the manager uses systemd |
| Services.ServiceManager.EnableService | src/system/services.rs:21-35 | runs one status-checked `systemctl enable <service>` |
| Services.ServiceManager.StartService | src/system/services.rs:37-51 | runs one status-checked `systemctl start <service>` |
| Services.ServiceManager.SetupEssentialServices | src/system/services.rs:53-68 | runs enable then start for NetworkManager, bluetooth, pipewire, pipewire-pulse and sddm, in that order, returning at the first error |
| Services.SetupPlanAt | src/system/services.rs:62-65 | service i is enabled by step 2i and started by step 2i + 1 |
| Services.SetupOutcome | src/system/services.rs:53-68 | the run issues enable/start pairs in service order up to the first command that fails to launch or exits non-zero; every earlier command exited 0; the error names the service and the operation; success means all 2n commands exited 0 |
| Services.EnableBeforeStart | src/system/services.rs:62-65 | a service listed once is started only if it was enabled: its start is command 2i + 1, right after its enable |
| Storage.StorageManager.New | src/system/storage.rs:13-18 | the manager keeps the given device and the ESP at /boot/efi |
| Storage.StorageManager.SetupStorage | src/system/storage.rs:20-49 | runs the storage tools' installation, then partitions, encryption, filesystems and snapper, halting at the first error |
| Storage.StorageManager.CreatePartitions | src/system/storage.rs:51-79 | runs `parted <device> mklabel gpt`, then the ESP, boot and root `mkpart` commands, each with `.status()?` |
| Storage.StorageManager.SetupEncryption | src/system/storage.rs:81-106 | runs luksFormat on partition 3 with LUKS2, aes-xts-plain64, a 512-bit key, sha512 and a 5000 ms iteration time, then opens it as cryptroot; on success it returns /dev/mapper/cryptroot |
| Storage.StorageManager.SetupFilesystems | src/system/storage.rs:108-140 | runs FAT32 on partition 1, ext4 on partition 2 and btrfs on the mapped device, mounts it at /mnt, then creates the five subvolumes |
| Storage.StorageManager.SetupSnapper | src/system/storage.rs:142-168 | runs `snapper create-config /`, then writes the root configuration to /etc/snapper/configs/root |
| Storage.LayoutContiguous | src/system/storage.rs:61-76 | the three partitions are non-empty and laid end to end from 1 MiB, with the last reaching the end of the disk |
| Storage.StartsIncrease | src/system/storage.rs:61-76 | in a contiguous layout every partition starts after all earlier ones, at a MiB offset |
| Storage.LayoutArguments | src/system/storage.rs:61-76 | the layout renders exactly as the literal `mkpart` arguments the source passes |
| Storage.PartitionPath | src/system/storage.rs:84 | a partition's path starts with its device's path |
| Storage.PartitionPathsDistinct | src/system/storage.rs:84 | different partition numbers of one device give different paths |
| Storage.ProvisionIgnoresExitStatus | src/system/storage.rs:51-168 | after the tools are installed, provisioning never looks at an exit status |
| Storage.ProvisionPlanEffects | src/system/storage.rs:37-46 | provisioning would issue exactly the partition, encryption, filesystem and snapper effects, in that order |
| Storage.ProvisionOrder | src/system/storage.rs:37-46 | provisioning issues a prefix of that sequence, all of it when it succeeds; so luksFormat precedes open and the mount precedes every subvolume |
| Storage.ProvisionCompletes | src/system/storage.rs:37-46 | when every tool launches and every file write succeeds, provisioning issues all its effects, luksFormat and open included, and succeeds |
| Storage.SetupEffectKinds | src/system/storage.rs:20-168 | setting up storage runs only pacman and the storage tools, and writes only snapper's configuration |
| Bootloader.BootManager.New | src/system/bootloader.rs:13-17 | the ESP is /boot/efi |
| Bootloader.BootManager.SetupBootloader | src/system/bootloader.rs:19-40 | runs the installation of systemd-boot, efibootmgr, efivar and efitools, then bootctl install, then the loader files, halting at the first error |
| Bootloader.BootManager.InstallSystemdBoot | src/system/bootloader.rs:42-54 | runs `bootctl install --path <esp>`; a non-zero status is the error "Failed to install systemd-boot" |
| Bootloader.BootManager.ConfigureBootEntries | src/system/bootloader.rs:56-84 | writes loader/loader.conf, then loader/entries/xbitos.conf with the kernel command line |
| Bootloader.BootManager.UpdateBootConfiguration | src/system/bootloader.rs:86-99 | runs `bootctl update`; a non-zero status is the error "Failed to update bootloader" |
| Bootloader.BootEntry | src/system/bootloader.rs:69-76 | the entry starts with its fixed title, kernel and initrd lines |
| Bootloader.LoaderConfLines | src/system/bootloader.rs:57-62 | loader.conf reads back, line by line, as an empty line, default xbitos.conf, timeout 4, console-mode max and editor no |
| Bootloader.EntryLines | src/system/bootloader.rs:69-76 | the entry reads back as its title, the zen kernel, the initrds (amd-ucode, intel-ucode, initramfs) and an options line carrying a one-line kernel command line verbatim |
| Bootloader.SetupPlanEffects | src/system/bootloader.rs:19-40 | setting up would issue the four pacman installs, bootctl install, and the two loader writes, in that order |
| Bootloader.SetupOrder | src/system/bootloader.rs:19-40 | setting up issues a prefix of that sequence, all of it when it succeeds |
| Bootloader.BootctlGuardsFiles | src/system/bootloader.rs:42-54 | no loader file is written unless `bootctl install` ran and exited 0 |
| Bootloader.BootctlFailure | src/system/bootloader.rs:47-51 | when the setup fails right after its fifth effect, that effect is `bootctl install` and the error is the launch failure or "Failed to install systemd-boot" |
| Bootloader.UpdateOutcome | src/system/bootloader.rs:86-99 | updating issues one `bootctl update` and succeeds exactly when it exited 0 |
| Installer.SystemInstaller.New | src/system/installer.rs:27-32 | the installer keeps the configuration and mounts the target at /mnt |
| Installer.SystemInstaller.InstallSystem | src/system/installer.rs:34-56 | runs storage, base system, configuration, desktop, user and bootloader, in that order, halting at the first error |
| Installer.SystemInstaller.PrepareStorage | src/system/installer.rs:58-68 | calls the encrypted-storage routine when encryption is asked for, and otherwise the storage manager's setup on the configured disk |
| Installer.SystemInstaller.InstallBaseSystem | src/system/installer.rs:70-91 | runs pacstrap of base, base-devel, linux-zen, its headers and linux-firmware into /mnt, then `genfstab -U /mnt`, both with only launch failures stopping |
| Installer.SystemInstaller.ConfigureSystem | src/system/installer.rs:93-121 | links the time zone, writes etc/locale.gen and etc/hostname, then runs the four chroot commands, halting at the first error |
| Installer.SystemInstaller.WriteConfigFiles | src/system/installer.rs:99-110 | writes etc/locale.gen with `<locale> UTF-8`, then etc/hostname with the host name |
| Installer.SystemInstaller.InstallDesktop | src/system/installer.rs:123-136 | calls the Hyprland setup for "hyprland" and fails with "Unsupported desktop environment" for anything else |
| Installer.SystemInstaller.SetupUser | src/system/installer.rs:138-149 | runs useradd, chpasswd and the sudoers rule through the chroot |
| Installer.SystemInstaller.SetupBootloader | src/system/installer.rs:151-158 | runs the boot manager's setup |
| Installer.SystemInstaller.ChrootExecute | src/system/installer.rs:160-167 | runs `arch-chroot /mnt sh -c <command>` for each command in order, with `.status()?` |
| Installer.SystemInstaller.SetupTimezone | src/system/installer.rs:169-176 | links /usr/share/zoneinfo/<zone> as etc/localtime under the mount point |
| Installer.LocaleGenWords | src/system/installer.rs:100 | etc/locale.gen holds two words: the locale, then UTF-8 |
| Installer.UseraddWords | src/system/installer.rs:143 | the first user command is useradd with a home directory, the wheel group and bash, and a one-word user name reaches it as its last argument |
| Installer.ChrootOutcome | src/system/installer.rs:160-167 | the chroot issues a prefix of the commands in order; it fails only when arch-chroot cannot be launched; when it always can, every command runs and the result is Ok |
| Installer.ChrootIgnoresStatus | src/system/installer.rs:160-167 | the chroot never looks at a command's exit status |
| Installer.UseraddFirst | src/system/installer.rs:142-146 | the user stage issues a prefix of: useradd, then chpasswd with the user's password, then the wheel sudoers rule, all three when it succeeds; it fails only with a launch error |
| Installer.EncryptedBranch | src/system/installer.rs:61-65 | the encrypted routine is called exactly when encryption is asked for; otherwise the storage plan runs on the configured disk |
| Installer.SystemEffectKinds | src/system/installer.rs:34-50 | before the bootloader stage the installer runs only pacman, the storage tools, pacstrap, genfstab and arch-chroot |
| Installer.BootctlNotBeforeBoot | src/system/installer.rs:34-53 | `bootctl install` is not issued before the bootloader stage |
| Installer.SystemOkPrefix | src/system/installer.rs:37-41 | when the stages before the bootloader succeed, storage and the base system succeeded |
| Installer.BootloaderNeedsStorageAndBase | src/system/installer.rs:34-53 | if `bootctl install` was issued, storage and the base system both returned Ok before it |
| Installer.UnsupportedDesktopHalts | src/system/installer.rs:126-132 | an unsupported desktop ends the installation after configuration: no user and no bootloader command is issued, and if earlier stages succeeded the error is "Unsupported desktop environment" |
| Installer.ConfigureEffects | src/system/installer.rs:93-121 | configuration would issue the time-zone link, the two file writes and the four chroot commands, in that order |
| Installer.ConfigureOrder | src/system/installer.rs:93-121 | configuration issues a prefix of that sequence, halting at the first failure, with the locale line and the host name written verbatim |
| Software.SoftwareCenter.constructor | src/system/software.rs:29-33 | a center starts with the fixed database and cache paths and an empty catalogue |
| Software.SoftwareCenter.New | src/system/software.rs:28-37 | runs the initialization plan on the fixed paths and returns its error, or a fresh center whose catalogue is still empty, since syncing never adds entries |
| Software.SoftwareCenter.Initialize | src/system/software.rs:39-47 | creates the database and cache directories, then updates the database; on success the catalogue is the listing applied to the old one, and otherwise it is unchanged |
| Software.SoftwareCenter.UpdateDatabase | src/system/software.rs:49-61 | runs `pacman -Sy`, then syncs the catalogue with `pacman -Q` |
| Software.SoftwareCenter.InstallPackage | src/system/software.rs:63-80 | a name outside the catalogue fails with "Package not found" before any command; otherwise runs pacman -S and then syncs |
| Software.SoftwareCenter.RemovePackage | src/system/software.rs:82-92 | runs pacman -R, then syncs |
| Software.SoftwareCenter.SearchPackages | src/system/software.rs:94-102 | the result holds exactly the entries whose name or description contains the query, unchanged |
| Software.SoftwareCenter.GetPackageInfo | src/system/software.rs:104-106 | an entry is returned exactly when the name is in the catalogue, and it is that entry |
| Software.SoftwareCenter.SyncLocalDatabase | src/system/software.rs:108-131 | runs `pacman -Q` and applies each line of its output to the catalogue; if pacman cannot be launched the catalogue is unchanged |
| Software.ApplyLine | src/system/software.rs:118-126 | applying one line never adds or removes an entry |
| Software.ApplyListing | src/system/software.rs:117-128 | applying a listing never adds or removes an entry |
| Software.ListingChangesOnlyStatus | src/system/software.rs:123-126 | a listing changes only an entry's installed flag and version, and never clears the flag |
| Software.ListingSkipsUnlisted | src/system/software.rs:119-126 | an entry that no line of at least two words names is left unchanged |
| Software.ListingLastWins | src/system/software.rs:117-128 | the last line naming an entry decides it: installed, at that line's second word |
| Software.ListingOfQueryOutput | src/system/software.rs:110-128 | reading a `name version` listing marks every listed catalogue entry installed at its listed version |
| Software.RemoveKeepsInstalled | src/system/software.rs:82-92 | syncing after a removal never clears an installed flag |
| IsoBuilding.IsoBuilder.New | src/system/iso_builder.rs:14-20 | the builder works in /var/lib/xbitos/iso and writes to /var/lib/xbitos/releases |
| IsoBuilding.IsoBuilder.BuildIso | src/system/iso_builder.rs:22-41 | runs directories, configuration, base files, installer and image creation, in order, halting at the first error |
| IsoBuilding.IsoBuilder.SetupDirectories | src/system/iso_builder.rs:43-50 | creates the work and output directories, then airootfs, boot and efiboot under the work directory |
| IsoBuilding.IsoBuilder.SetupConfigFiles | src/system/iso_builder.rs:52-73 | writes profiledef.sh for the version into the work directory |
| IsoBuilding.IsoBuilder.CopyBaseFiles | src/system/iso_builder.rs:75-90 | runs pacstrap into airootfs with the six base packages; only a launch failure stops it |
| IsoBuilding.IsoBuilder.SetupInstaller | src/system/iso_builder.rs:92-114 | copies the installer binary into the image, then writes its autostart entry |
| IsoBuilding.IsoBuilder.CreateIso | src/system/iso_builder.rs:116-130 | runs `mkarchiso -v -w /tmp/archiso-tmp -o <output> <work>` and, on success, announces `xbitos-<version>-x86_64.iso` |
| IsoBuilding.IsoBuilder.SetupPackages | src/system/iso_builder.rs:132-181 | runs one pacstrap whose second argument is the whole package list joined by spaces |
| IsoBuilding.LabelOfVersion | src/system/iso_builder.rs:56-67 | the label is XBITOS_ and the version's characters other than '.', in order: it has no '.', its length drops by one per dot, and a dotless version appears verbatim |
| IsoBuilding.LabelIgnoresDot | src/system/iso_builder.rs:56-67 | versions that differ only by a '.' get the same label ("1.0" and "10") |
| IsoBuilding.IsoNameVersion | src/system/iso_builder.rs:117 | the image name gives back the version it was made from |
| IsoBuilding.IsoNameInjective | src/system/iso_builder.rs:117 | different versions get different image names |
| IsoBuilding.ProfileReadsBack | src/system/iso_builder.rs:53-67 | profiledef.sh reads back line by line: name xbitos, the label for the version, and the version itself for a one-line version |
| IsoBuilding.BuildPlanShape | src/system/iso_builder.rs:22-41 | the build would issue the five directories, the profile write, pacstrap, the installer copy, the autostart write and mkarchiso, and never checks a status |
| IsoBuilding.BuildOrder | src/system/iso_builder.rs:22-41 | the build issues a prefix of that sequence, all of it when it succeeds |
| IsoBuilding.BuildIgnoresExitStatus | src/system/iso_builder.rs:22-41 | exit statuses never change the build's run |
| IsoBuilding.BuildCompletes | src/system/iso_builder.rs:22-41 | when every program launches and every file operation succeeds, the build issues everything and succeeds |
| IsoBuilding.PackageWords | src/system/iso_builder.rs:133-171 | every package name is one word |
| IsoBuilding.PackagesArgs | src/system/iso_builder.rs:173-178 | pacstrap gets exactly two arguments: the airootfs path, and one string that splits back into the whole package list in order |
| Packaging.PackageBuilder.New | src/system/packaging/builder.rs:26-32 | the builder uses /var/lib/xbitos/build, /var/lib/xbitos/repo and /var/cache/xbitos/aur |
| Packaging.PackageBuilder.BuildPackage | src/system/packaging/builder.rs:34-57 | creates build_root/<name>, writes the PKGBUILD, installs the build dependencies and runs makepkg -sf there, then adds to the repository, halting at the first error |
| Packaging.PackageBuilder.BuildAurPackage | src/system/packaging/builder.rs:59-79 | clones the package's AUR repository into aur_cache/<name>, then runs makepkg -si there; only launch failures stop it |
| Packaging.PackageBuilder.CreatePkgbuild | src/system/packaging/builder.rs:81-116 | writes the package's PKGBUILD into the build directory |
| Packaging.PackageBuilder.InstallBuildDeps | src/system/packaging/builder.rs:118-122 | installs the build dependencies with the package manager |
| Packaging.PackageBuilder.AddToRepo | src/system/packaging/builder.rs:124-151 | reads the build directory (an I/O error when it cannot be read), copies each selected entry into the repository, then runs repo-add in the repository |
| Packaging.SelectedMembers | src/system/packaging/builder.rs:127-132 | the selection keeps exactly the listed names whose extension is "pkg.tar.zst" |
| Packaging.NoPackageFile | src/system/packaging/builder.rs:129-131 | no file name has the extension "pkg.tar.zst", because an extension never holds a '.' |
| Packaging.SelectsNothing | src/system/packaging/builder.rs:126-139 | so the selection is empty for every directory listing |
| Packaging.AddToRepoOutcome | src/system/packaging/builder.rs:124-151 | an unreadable directory is an I/O error and nothing more happens; otherwise no file is copied, `repo-add <repo>/xbitos.db.tar.gz *.pkg.tar.zst` runs in the repository, and the call fails exactly when repo-add cannot be launched |
| Packaging.PkgbuildReadsBack | src/system/packaging/builder.rs:82-112 | the PKGBUILD reads back line by line with the name, version, release and description in their fields, and the depends, makedepends and source arrays split back into their lists |
| Packaging.ArrayLineWords | src/system/packaging/builder.rs:89-91 | an array line is one line, and the words in its parentheses split back into its list |
| Packaging.BuildOrder | src/system/packaging/builder.rs:34-57 | a package build issues a prefix of: the directory, the PKGBUILD, one pacman per build dependency, makepkg, the directory read and repo-add; all of it when it succeeds; it never copies a file |
| Packaging.AurUrlName | src/system/packaging/builder.rs:67 | the AUR address gives back the package name |
| Packaging.AurUrlInjective | src/system/packaging/builder.rs:67 | different packages are cloned from different addresses |
| Packaging.AurOutcome | src/system/packaging/builder.rs:63-76 | the AUR build clones into aur_cache/<name> and runs makepkg in that same directory; it issues a prefix of the two commands, both when it succeeds; a failure is the launch error of the last command it issued |
| Packaging.AurStatusIgnored | src/system/packaging/builder.rs:64-76 | neither a failed clone nor a failed build is noticed: exit statuses never change the run |

## Left out

- Real process execution, file contents on disk, and logging (`info!`, `error!`). Effects are recorded in a trace. An oracle decides their outcomes. Log lines are not modelled, except the ISO name that `create_iso` announces, which is returned as a value.
- Captured output matters in only two places. The software center reads `pacman -Q`'s standard output. `genfstab`'s output is discarded as in the source, so fstab is never written.
- Windows `setup_timezone` (`#[cfg(not(unix))]`): only the Unix variant is modelled.
- `StorageManager::setup_encrypted_storage` is called by `prepare_storage` but not defined in `storage.rs`. It is an opaque routine call whose success the oracle decides.
- `DisplayManager::setup_hyprland` is an opaque routine call. `display.rs` is not part of this model.
- The kernel command line comes from `kernel.rs`, which is not part of this model. It is a parameter of the boot manager and the installer.
- `to_str().unwrap()` and `to_string_lossy()` on paths: strings are sequences of characters, so the panic on a non-UTF-8 path is not modelled.
- `String::from_utf8` of pacman's output: output is already text, so that error path is not modelled.
- `Packaging.PackageBuilder.AddToRepo`: `read_dir` entries that fail (`filter_map(|entry| entry.ok())`) are not modelled. A listing yields only the names that could be read.
- `Packaging.PackageBuilder.AddToRepo`: repo-add's `*.pkg.tar.zst` is passed as a literal argument. Whether a shell would expand it is not modelled.
- `Packaging.PackageBuilder.InstallBuildDeps`: `builder.rs:120` hands `Vec<String>` where `&[&str]` is expected, which does not compile as written. The model passes the names through unchanged.
- `IsoBuilding.IsoBuilder.SetupPackages` is never called in the source. It is modelled as written, with one pacstrap argument holding all names joined by spaces.
- `Storage.StorageManager.SetupSnapper` writes `/etc/snapper/configs/root` on the host, not under the mount point, as the source does.
- `Installer.SystemInstaller.WriteConfigFiles` is a part of `configure_system` split out as a method of its own. It has no counterpart in the source.
- The software catalogue's `HashMap` is a `map` keyed by name. Search results are a map rather than a list of references, because the order of `values()` is unspecified.
