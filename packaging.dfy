/**
 * The package builder: turns a package description into a PKGBUILD in its
 * own build directory, installs the build dependencies, runs makepkg there
 * and publishes the result into the local repository with repo-add; it can
 * also fetch and build a package from the AUR. Every step uses `?`, so the
 * first error ends the build; makepkg, git and repo-add are launched with
 * `.status()?`, so only a launch failure stops there, never an exit status.
 */
module Packaging {
  import opened Text
  import opened Exec
  import PM = PackageManagement

  /** What a package is built from. */
  datatype PackageConfig = PackageConfig(
    name: string,
    version: string,
    release: string,
    description: string,
    dependencies: seq<string>,
    buildDependencies: seq<string>,
    source: seq<string>)

  // ---------------------------------------------------------------------------
  // The PKGBUILD

  /** The lines before the package's own fields; the text starts with an empty line. */
  const PkgbuildHead: seq<string> := ["", "# Maintainer: xBitOS Team <team@xbitos.org>"]

  /** The checksum line, then the build() and package() functions. */
  const PkgbuildTail: seq<string> :=
    ["sha256sums=('SKIP')", "", "build() {", "    cd \"$srcdir/$pkgname-$pkgver\"", "    ./configure --prefix=/usr",
     "    make", "}", "", "package() {", "    cd \"$srcdir/$pkgname-$pkgver\"",
     "    make DESTDIR=\"$pkgdir/\" install", "}"]

  /** A bash array line: `key=(` and the words joined by single spaces, then `)`. */
  function ArrayLine(key: string, words: seq<string>): string {
    key + "=(" + JoinWith(" ", words) + ")"
  }

  /** The package's own fields, one per line. */
  function FieldLines(config: PackageConfig): seq<string> {
    ["pkgname=" + config.name,
       "pkgver=" + config.version,
       "pkgrel=" + config.release,
       "pkgdesc=\"" + config.description + "\"",
       "arch=('x86_64')",
       ArrayLine("depends", config.dependencies),
       ArrayLine("makedepends", config.buildDependencies),
       ArrayLine("source", config.source)]
  }

  function PkgbuildLines(config: PackageConfig): seq<string> {
    PkgbuildHead + FieldLines(config) + PkgbuildTail
  }

  /** The PKGBUILD written for a package. */
  function Pkgbuild(config: PackageConfig): string {
    Unlines(PkgbuildLines(config))
  }

  // ---------------------------------------------------------------------------
  // Selecting the built packages

  /** `Path::extension` of the entry compared with "pkg.tar.zst". */
  predicate IsPackageFile(name: string) {
    Extension(name) == Some("pkg.tar.zst")
  }

  /** The directory entries add_to_repo copies, in listing order. */
  function Selected(names: seq<string>): (sel: seq<string>)
    ensures |sel| <= |names|
  {
    if names == [] then []
    else (if IsPackageFile(names[0]) then [names[0]] else []) + Selected(names[1..])
  }

  // ---------------------------------------------------------------------------
  // Commands and plans

  function PkgbuildWrite(buildDir: string, config: PackageConfig): Effect {
    WriteFile(PathJoin(buildDir, "PKGBUILD"), Pkgbuild(config))
  }

  function Makepkg(buildDir: string): Effect {
    Cmd("makepkg", ["-sf", "--noconfirm"], Some(buildDir))
  }

  function RepoAdd(repo: string): Effect {
    Cmd("repo-add", [PathJoin(repo, "xbitos.db.tar.gz"), "*.pkg.tar.zst"], Some(repo))
  }

  /** Copying each selected file from the build directory into the repository, under its own name. */
  function CopyEffects(buildDir: string, repo: string, files: seq<string>): (es: seq<Effect>)
    ensures |es| == |files|
  {
    seq(|files|, k requires 0 <= k < |files| => CopyFile(PathJoin(buildDir, files[k]), PathJoin(repo, files[k])))
  }

  function CopyPlan(buildDir: string, repo: string, files: seq<string>): seq<Action> {
    Performs(CopyEffects(buildDir, repo, files))
  }

  /** add_to_repo once the build directory has been listed: the copies, then repo-add. */
  function RepoPlan(buildDir: string, repo: string, names: seq<string>): seq<Action> {
    CopyPlan(buildDir, repo, Selected(names)) + [Launch(RepoAdd(repo))]
  }

  /**
   * add_to_repo after trace t: the build directory is read first; if it
   * cannot be read that is the error, otherwise the plan for its listing runs.
   */
  function RepoRun(env: Env, t: seq<Effect>, buildDir: string, repo: string): Trail {
    var t1 := t + [ReadDir(buildDir)];
    if !env.io(t1) then Trail([ReadDir(buildDir)], Err(IoFailed))
    else
      var run := Execute(env, t1, RepoPlan(buildDir, repo, env.listing(t1)));
      Trail([ReadDir(buildDir)] + run.issued, run.result)
  }

  /** build_package up to makepkg: the directory, the PKGBUILD, the build dependencies, makepkg. */
  function StagePlan(buildDir: string, config: PackageConfig): seq<Action> {
    [Perform(CreateDirAll(buildDir))] + [Perform(PkgbuildWrite(buildDir, config))]
    + PM.InstallPlan(config.buildDependencies) + [Launch(Makepkg(buildDir))]
  }

  /** build_package after trace t: the stages, then (if they all succeeded) add_to_repo. */
  function BuildRun(env: Env, t: seq<Effect>, b: PackageBuilder, config: PackageConfig): Trail {
    var buildDir := PathJoin(b.buildRoot, config.name);
    var staged := Execute(env, t, StagePlan(buildDir, config));
    Then(staged, RepoRun(env, t + staged.issued, buildDir, b.repoPath))
  }

  function AurUrl(name: string): string {
    "https://aur.archlinux.org/" + name + ".git"
  }

  function AurDir(aurCache: string, name: string): string {
    PathJoin(aurCache, name)
  }

  /** build_aur_package: clone the AUR repository into the cache, then build and install it there. */
  function AurCmds(aurCache: string, name: string): seq<Effect> {
    [Cmd("git", ["clone", AurUrl(name), AurDir(aurCache, name)], None),
     Cmd("makepkg", ["-si", "--noconfirm"], Some(AurDir(aurCache, name)))]
  }

  function AurPlan(aurCache: string, name: string): seq<Action> {
    Launches(AurCmds(aurCache, name))
  }

  // ---------------------------------------------------------------------------
  // The builder

  datatype PackageBuilder = PackageBuilder(buildRoot: string, repoPath: string, aurCache: string) {

    static function New(): (b: PackageBuilder)
      ensures b.buildRoot == "/var/lib/xbitos/build"
      ensures b.repoPath == "/var/lib/xbitos/repo"
      ensures b.aurCache == "/var/cache/xbitos/aur"
    {
      PackageBuilder("/var/lib/xbitos/build", "/var/lib/xbitos/repo", "/var/cache/xbitos/aur")
    }

    /** build_package */
    method BuildPackage(sh: Shell, config: PackageConfig) returns (r: Result<()>)
      modifies sh
      ensures var run := BuildRun(sh.env, old(sh.trace), this, config);
              sh.trace == old(sh.trace) + run.issued && r == run.result
    {
      ghost var t0 := sh.trace;
      var buildDir := PathJoin(buildRoot, config.name);
      ghost var p0 := [Perform(CreateDirAll(buildDir))];
      ghost var p1 := [Perform(PkgbuildWrite(buildDir, config))];
      ghost var p2 := PM.InstallPlan(config.buildDependencies);
      ghost var p3 := [Launch(Makepkg(buildDir))];
      assert StagePlan(buildDir, config) == p0 + p1 + p2 + p3;
      r := sh.Attempt(CreateDirAll(buildDir));
      ExecuteSingle(sh.env, t0, p0[0]);
      if r.Err? {
        RanStop(sh.env, t0, p0, p1, sh.trace, r);
        RanStop(sh.env, t0, p0 + p1, p2, sh.trace, r);
        RanStop(sh.env, t0, p0 + p1 + p2, p3, sh.trace, r);
        return;
      }
      ghost var t1 := sh.trace;
      r := CreatePkgbuild(sh, buildDir, config);
      RanSeq(sh.env, t0, p0, t1, p1, sh.trace, r);
      if r.Err? {
        RanStop(sh.env, t0, p0 + p1, p2, sh.trace, r);
        RanStop(sh.env, t0, p0 + p1 + p2, p3, sh.trace, r);
        return;
      }
      ghost var t2 := sh.trace;
      r := InstallBuildDeps(sh, config);
      RanSeq(sh.env, t0, p0 + p1, t2, p2, sh.trace, r);
      if r.Err? {
        RanStop(sh.env, t0, p0 + p1 + p2, p3, sh.trace, r);
        return;
      }
      ghost var t3 := sh.trace;
      r := sh.Status(Cmd("makepkg", ["-sf", "--noconfirm"], Some(buildDir)));
      ExecuteSingle(sh.env, t3, p3[0]);
      RanSeq(sh.env, t0, p0 + p1 + p2, t3, p3, sh.trace, r);
      if r.Err? {
        return;
      }
      ghost var t4 := sh.trace;
      r := AddToRepo(sh, buildDir);
      BuildGlue(sh.env, t0, this, config, t4, sh.trace, r);
    }

    /** build_aur_package */
    method BuildAurPackage(sh: Shell, packageName: string) returns (r: Result<()>)
      modifies sh
      ensures sh.Ran(old(sh.trace), AurPlan(aurCache, packageName), r)
    {
      ghost var t0 := sh.trace;
      ghost var cmds := AurCmds(aurCache, packageName);
      assert Launches(cmds)[..0] == [];
      var aurDir := PathJoin(aurCache, packageName);
      r := sh.StatusStep(t0, cmds, 0,
                         Cmd("git", ["clone", "https://aur.archlinux.org/" + packageName + ".git", aurDir], None));
      if r.Err? { return; }
      r := sh.StatusStep(t0, cmds, 1, Cmd("makepkg", ["-si", "--noconfirm"], Some(aurDir)));
    }

    /** create_pkgbuild: writes the PKGBUILD into the build directory. */
    method CreatePkgbuild(sh: Shell, buildDir: string, config: PackageConfig) returns (r: Result<()>)
      modifies sh
      ensures sh.Ran(old(sh.trace), [Perform(PkgbuildWrite(buildDir, config))], r)
    {
      ghost var t0 := sh.trace;
      var pkgbuild := Pkgbuild(config);
      r := sh.Attempt(WriteFile(PathJoin(buildDir, "PKGBUILD"), pkgbuild));
      ExecuteSingle(sh.env, t0, Perform(PkgbuildWrite(buildDir, config)));
    }

    /** install_build_deps: the package manager installs the build dependencies. */
    method InstallBuildDeps(sh: Shell, config: PackageConfig) returns (r: Result<()>)
      modifies sh
      ensures sh.Ran(old(sh.trace), PM.InstallPlan(config.buildDependencies), r)
    {
      var pkgManager := PM.PackageManager.New();
      r := pkgManager.InstallPackages(sh, config.buildDependencies);
    }

    /** add_to_repo: copies the selected entries of the build directory into the repository, then runs repo-add. */
    method AddToRepo(sh: Shell, buildDir: string) returns (r: Result<()>)
      modifies sh
      ensures var run := RepoRun(sh.env, old(sh.trace), buildDir, repoPath);
              sh.trace == old(sh.trace) + run.issued && r == run.result
    {
      ghost var t0 := sh.trace;
      var entries := sh.ListDir(buildDir);
      if entries.None? {
        r := Err(IoFailed);
        return;
      }
      ghost var t1 := sh.trace;
      var packages := Selected(entries.value);
      ghost var ops := CopyEffects(buildDir, repoPath, packages);
      assert Performs(ops)[..0] == [];
      var i := 0;
      while i < |packages|
        invariant 0 <= i <= |packages|
        invariant sh.trace == t1 + Execute(sh.env, t1, Performs(ops)[..i]).issued
        invariant Execute(sh.env, t1, Performs(ops)[..i]).result.Ok?
      {
        var package := packages[i];
        r := sh.AttemptStep(t1, ops, i, CopyFile(PathJoin(buildDir, package), PathJoin(repoPath, package)));
        if r.Err? {
          RanStop(sh.env, t1, CopyPlan(buildDir, repoPath, packages), [Launch(RepoAdd(repoPath))], sh.trace, r);
          RepoGlue(sh.env, t0, buildDir, repoPath, sh.trace, r);
          return;
        }
        i := i + 1;
      }
      assert Performs(ops)[..i] == Performs(ops);
      ghost var t3 := sh.trace;
      r := sh.Status(Cmd("repo-add", [PathJoin(repoPath, "xbitos.db.tar.gz"), "*.pkg.tar.zst"], Some(repoPath)));
      ExecuteSingle(sh.env, t3, Launch(RepoAdd(repoPath)));
      RanSeq(sh.env, t1, CopyPlan(buildDir, repoPath, packages), t3, [Launch(RepoAdd(repoPath))], sh.trace, r);
      RepoGlue(sh.env, t0, buildDir, repoPath, sh.trace, r);
    }
  }

  // ---------------------------------------------------------------------------
  // Gluing the runs together

  /** A run of the listing's plan after a readable directory is a run of add_to_repo. */
  lemma RepoGlue(env: Env, t0: seq<Effect>, buildDir: string, repo: string, t: seq<Effect>, r: Result<()>)
    requires env.io(t0 + [ReadDir(buildDir)])
    requires var t1 := t0 + [ReadDir(buildDir)];
             var run := Execute(env, t1, RepoPlan(buildDir, repo, env.listing(t1)));
             t == t1 + run.issued && r == run.result
    ensures t == t0 + RepoRun(env, t0, buildDir, repo).issued && r == RepoRun(env, t0, buildDir, repo).result
  {
    var t1 := t0 + [ReadDir(buildDir)];
    var run := Execute(env, t1, RepoPlan(buildDir, repo, env.listing(t1)));
    AppendAssoc(t0, [ReadDir(buildDir)], run.issued);
  }

  /** The stages succeeded and add_to_repo then ran: that is a run of build_package. */
  lemma BuildGlue(env: Env, t0: seq<Effect>, b: PackageBuilder, config: PackageConfig, t1: seq<Effect>,
                  t2: seq<Effect>, r: Result<()>)
    requires var staged := Execute(env, t0, StagePlan(PathJoin(b.buildRoot, config.name), config));
             t1 == t0 + staged.issued && staged.result.Ok?
    requires var repo := RepoRun(env, t1, PathJoin(b.buildRoot, config.name), b.repoPath);
             t2 == t1 + repo.issued && r == repo.result
    ensures t2 == t0 + BuildRun(env, t0, b, config).issued && r == BuildRun(env, t0, b, config).result
  {
    var buildDir := PathJoin(b.buildRoot, config.name);
    var staged := Execute(env, t0, StagePlan(buildDir, config));
    AppendAssoc(t0, staged.issued, RepoRun(env, t1, buildDir, b.repoPath).issued);
  }

  // ---------------------------------------------------------------------------
  // Properties of the selection

  /** add_to_repo keeps exactly the listed entries whose extension is "pkg.tar.zst", in listing order. */
  lemma {:induction false} SelectedMembers(names: seq<string>)
    ensures forall n :: n in Selected(names) <==> n in names && IsPackageFile(n)
    decreases |names|
  {
    if names != [] {
      SelectedMembers(names[1..]);
      assert names == [names[0]] + names[1..];
    }
  }

  /**
   * No file name has the extension "pkg.tar.zst": an extension is the text
   * after the last '.', so it never holds a '.' itself.
   */
  lemma NoPackageFile(name: string)
    ensures !IsPackageFile(name)
  {
    var e := Extension(name);
    if e.Some? {
      assert "pkg.tar.zst"[3] == '.';
      assert e.value != "pkg.tar.zst";
    }
  }

  /** So add_to_repo selects nothing, whatever the build directory holds. */
  lemma {:induction false} SelectsNothing(names: seq<string>)
    ensures Selected(names) == []
    decreases |names|
  {
    if names != [] {
      NoPackageFile(names[0]);
      SelectsNothing(names[1..]);
    }
  }

  /**
   * add_to_repo: an unreadable build directory is an I/O error and nothing
   * else happens; otherwise no file is copied and repo-add is launched in the
   * repository with the database path and the literal pattern "*.pkg.tar.zst",
   * and the call fails exactly when repo-add cannot be launched (its exit
   * status is not looked at).
   */
  lemma AddToRepoOutcome(env: Env, t: seq<Effect>, buildDir: string, repo: string)
    ensures var r := RepoRun(env, t, buildDir, repo);
            !env.io(t + [ReadDir(buildDir)]) ==> r == Trail([ReadDir(buildDir)], Err(IoFailed))
    ensures var r := RepoRun(env, t, buildDir, repo);
            env.io(t + [ReadDir(buildDir)]) ==>
              && r.issued == [ReadDir(buildDir), RepoAdd(repo)]
              && (r.result.Ok? <==> !env.spawn(t + r.issued).SpawnError?)
              && (r.result.Err? ==> r.result.error == SpawnFailed)
  {
    var t1 := t + [ReadDir(buildDir)];
    if env.io(t1) {
      SelectsNothing(env.listing(t1));
      assert RepoPlan(buildDir, repo, env.listing(t1)) == [Launch(RepoAdd(repo))];
      ExecuteSingle(env, t1, Launch(RepoAdd(repo)));
      assert t1 + [RepoAdd(repo)] == t + [ReadDir(buildDir), RepoAdd(repo)];
    }
  }

  // ---------------------------------------------------------------------------
  // Properties of the PKGBUILD

  /** Words joined with spaces hold no newline. */
  lemma {:induction false} JoinedWordsSingleLine(ws: seq<string>)
    requires forall i :: 0 <= i < |ws| ==> IsWord(ws[i])
    ensures '\n' !in JoinWith(" ", ws)
    decreases |ws|
  {
    if |ws| > 1 {
      JoinedWordsSingleLine(ws[1..]);
      assert '\n' !in ws[0] by {
        assert forall i :: 0 <= i < |ws[0]| ==> !IsWhitespace(ws[0][i]);
      }
      assert JoinWith(" ", ws) == ws[0] + " " + JoinWith(" ", ws[1..]);
    } else if |ws| == 1 {
      assert forall i :: 0 <= i < |ws[0]| ==> !IsWhitespace(ws[0][i]);
    }
  }

  /**
   * An array line is one line, and the words between its parentheses split
   * back into the list it was written from.
   */
  lemma ArrayLineWords(key: string, words: seq<string>)
    requires '\n' !in key
    requires forall i :: 0 <= i < |words| ==> IsWord(words[i])
    ensures var l := ArrayLine(key, words);
            && SingleLine(l)
            && |key| + 2 <= |l| - 1
            && l[..|key| + 2] == key + "=("
            && Tokens(l[|key| + 2..|l| - 1]) == words
  {
    var joined := JoinWith(" ", words);
    var l := ArrayLine(key, words);
    JoinedWordsSingleLine(words);
    assert l == (key + "=(") + joined + ")";
    assert l[|key| + 2..|l| - 1] == joined;
    assert '\n' !in l by {
      forall i | 0 <= i < |l| ensures l[i] != '\n' {
        if i < |key| { assert l[i] == key[i]; }
        else if i >= |key| + 2 && i < |l| - 1 { assert l[i] == joined[i - |key| - 2]; }
      }
    }
    TokensOfJoin(words);
  }

  lemma PkgbuildHeadLines()
    ensures SingleLine(PkgbuildHead[0]) && SingleLine(PkgbuildHead[1])
  {
  }

  lemma PkgbuildTailShortLines()
    ensures SingleLine(PkgbuildTail[0]) && SingleLine(PkgbuildTail[1]) && SingleLine(PkgbuildTail[2])
    ensures SingleLine(PkgbuildTail[5]) && SingleLine(PkgbuildTail[6]) && SingleLine(PkgbuildTail[7])
    ensures SingleLine(PkgbuildTail[8]) && SingleLine(PkgbuildTail[11])
  {
  }

  lemma PkgbuildTailBuildLines()
    ensures SingleLine(PkgbuildTail[3]) && SingleLine(PkgbuildTail[4])
  {
  }

  lemma PkgbuildTailPackageLines()
    ensures SingleLine(PkgbuildTail[9]) && SingleLine(PkgbuildTail[10])
  {
  }

  lemma PkgbuildFixedLines()
    ensures forall i :: 0 <= i < |PkgbuildHead| ==> SingleLine(PkgbuildHead[i])
    ensures forall i :: 0 <= i < |PkgbuildTail| ==> SingleLine(PkgbuildTail[i])
  {
    PkgbuildHeadLines();
    PkgbuildTailShortLines();
    PkgbuildTailBuildLines();
    PkgbuildTailPackageLines();
  }

  /** A line made of a key and a value that is itself one line is one line. */
  lemma FieldSingleLine(key: string, value: string)
    requires SingleLine(key) && |key| > 0 && SingleLine(value)
    ensures SingleLine(key + value)
  {
    var l := key + value;
    forall i | 0 <= i < |l| ensures l[i] != '\n' {
      if i < |key| { assert l[i] == key[i]; } else { assert l[i] == value[i - |key|]; }
    }
    if |value| > 0 { assert l[|l| - 1] == value[|value| - 1]; } else { assert l == key; }
  }

  /** The fields a PKGBUILD can be read back from: one-line values and word lists. */
  predicate Readable(config: PackageConfig) {
    && SingleLine(config.name) && SingleLine(config.version) && SingleLine(config.release)
    && '\n' !in config.description
    && (forall i :: 0 <= i < |config.dependencies| ==> IsWord(config.dependencies[i]))
    && (forall i :: 0 <= i < |config.buildDependencies| ==> IsWord(config.buildDependencies[i]))
    && (forall i :: 0 <= i < |config.source| ==> IsWord(config.source[i]))
  }

  lemma FieldLinesSingle(config: PackageConfig)
    requires Readable(config)
    ensures forall i :: 0 <= i < |FieldLines(config)| ==> SingleLine(FieldLines(config)[i])
  {
    assert SingleLine("arch=('x86_64')");
    FieldSingleLine("pkgname=", config.name);
    FieldSingleLine("pkgver=", config.version);
    FieldSingleLine("pkgrel=", config.release);
    QuotedLine("pkgdesc=\"", config.description);
    ArrayLineWords("depends", config.dependencies);
    ArrayLineWords("makedepends", config.buildDependencies);
    ArrayLineWords("source", config.source);
  }

  lemma PkgbuildLinesSingle(config: PackageConfig)
    requires Readable(config)
    ensures forall i :: 0 <= i < |PkgbuildLines(config)| ==> SingleLine(PkgbuildLines(config)[i])
  {
    var fields := FieldLines(config);
    PkgbuildFixedLines();
    FieldLinesSingle(config);
    forall i | 0 <= i < |PkgbuildLines(config)| ensures SingleLine(PkgbuildLines(config)[i]) {
      if i < 2 {
        assert PkgbuildLines(config)[i] == PkgbuildHead[i];
      } else if i < 10 {
        assert PkgbuildLines(config)[i] == fields[i - 2];
      } else {
        assert PkgbuildLines(config)[i] == PkgbuildTail[i - 10];
      }
    }
  }

  /** A line ending with a quote holds no newline as long as its parts hold none. */
  lemma QuotedLine(prefix: string, middle: string)
    requires '\n' !in prefix && '\n' !in middle
    ensures SingleLine(prefix + middle + "\"")
  {
    var l := prefix + middle + "\"";
    assert l[|l| - 1] == '"';
    forall i | 0 <= i < |l| ensures l[i] != '\n' {
      if i < |prefix| { assert l[i] == prefix[i]; }
      else if i < |prefix| + |middle| { assert l[i] == middle[i - |prefix|]; }
    }
  }

  lemma PkgbuildLineAt(config: PackageConfig)
    ensures |PkgbuildLines(config)| == 22
    ensures PkgbuildLines(config)[2] == "pkgname=" + config.name
    ensures PkgbuildLines(config)[3] == "pkgver=" + config.version
    ensures PkgbuildLines(config)[4] == "pkgrel=" + config.release
    ensures PkgbuildLines(config)[5] == "pkgdesc=\"" + config.description + "\""
    ensures PkgbuildLines(config)[7] == ArrayLine("depends", config.dependencies)
    ensures PkgbuildLines(config)[8] == ArrayLine("makedepends", config.buildDependencies)
    ensures PkgbuildLines(config)[9] == ArrayLine("source", config.source)
  {
  }

  /**
   * Read line by line, the PKGBUILD gives back its lines, and from them the
   * package's name, version, release and description, and the dependency,
   * build-dependency and source lists (for fields that are single lines and
   * lists of words).
   */
  lemma PkgbuildReadsBack(config: PackageConfig)
    requires Readable(config)
    ensures Lines(Pkgbuild(config)) == PkgbuildLines(config)
    ensures var ls := Lines(Pkgbuild(config));
            && ls[2] == "pkgname=" + config.name
            && ls[3] == "pkgver=" + config.version
            && ls[4] == "pkgrel=" + config.release
            && ls[5] == "pkgdesc=\"" + config.description + "\""
    ensures var ls := Lines(Pkgbuild(config));
            && ls[7][..9] == "depends=(" && Tokens(ls[7][9..|ls[7]| - 1]) == config.dependencies
            && ls[8][..13] == "makedepends=(" && Tokens(ls[8][13..|ls[8]| - 1]) == config.buildDependencies
            && ls[9][..8] == "source=(" && Tokens(ls[9][8..|ls[9]| - 1]) == config.source
  {
    PkgbuildLinesSingle(config);
    LinesUnlines(PkgbuildLines(config));
    PkgbuildLineAt(config);
    ArrayLineWords("depends", config.dependencies);
    ArrayLineWords("makedepends", config.buildDependencies);
    ArrayLineWords("source", config.source);
  }

  // ---------------------------------------------------------------------------
  // Properties of the builds

  /** Everything build_package issues when nothing stops it: no file is copied into the repository. */
  function BuildEffects(buildDir: string, repo: string, config: PackageConfig): seq<Effect> {
    [CreateDirAll(buildDir), PkgbuildWrite(buildDir, config)] + Effects(PM.InstallPlan(config.buildDependencies))
    + [Makepkg(buildDir), ReadDir(buildDir), RepoAdd(repo)]
  }

  lemma StageEffects(buildDir: string, config: PackageConfig)
    ensures Effects(StagePlan(buildDir, config))
            == [CreateDirAll(buildDir), PkgbuildWrite(buildDir, config)]
               + Effects(PM.InstallPlan(config.buildDependencies)) + [Makepkg(buildDir)]
  {
    var p0, p1 := [Perform(CreateDirAll(buildDir))], [Perform(PkgbuildWrite(buildDir, config))];
    var p2, p3 := PM.InstallPlan(config.buildDependencies), [Launch(Makepkg(buildDir))];
    EffectsAppend(p0, p1);
    EffectsAppend(p0 + p1, p2);
    EffectsAppend(p0 + p1 + p2, p3);
    EffectsSingle(p0[0]);
    EffectsSingle(p1[0]);
    EffectsSingle(p3[0]);
  }

  lemma PrefixOfAppend<T>(a: seq<T>, p: seq<T>, q: seq<T>)
    requires a <= p
    ensures a <= p + q
  {
    assert (p + q)[..|a|] == p[..|a|];
  }

  lemma AppendPrefix<T>(p: seq<T>, b: seq<T>, q: seq<T>)
    requires b <= q
    ensures p + b <= p + q
  {
    assert (p + q)[..|p + b|] == p + q[..|b|];
  }

  lemma PrefixMembers<T>(a: seq<T>, p: seq<T>)
    requires a <= p
    ensures forall x :: x in a ==> x in p
  {
    forall x | x in a ensures x in p {
      var k :| 0 <= k < |a| && a[k] == x;
      assert p[k] == x;
    }
  }

  lemma BuildEffectsSplit(buildDir: string, repo: string, config: PackageConfig)
    ensures BuildEffects(buildDir, repo, config) == Effects(StagePlan(buildDir, config)) + [ReadDir(buildDir), RepoAdd(repo)]
    ensures forall e :: e in BuildEffects(buildDir, repo, config) ==> !e.CopyFile?
  {
    StageEffects(buildDir, config);
    PM.InstallEffects(config.buildDependencies);
  }

  /**
   * build_package issues, in order, a prefix of: create the build directory
   * build_root/<name>, write its PKGBUILD, one pacman per build dependency,
   * makepkg in the build directory, read the build directory, repo-add; all
   * of it exactly when it succeeds. It never copies a file.
   */
  lemma BuildOrder(env: Env, t: seq<Effect>, b: PackageBuilder, config: PackageConfig)
    ensures var run := BuildRun(env, t, b, config);
            var full := BuildEffects(PathJoin(b.buildRoot, config.name), b.repoPath, config);
            && run.issued <= full
            && (run.result.Ok? ==> run.issued == full)
            && (forall e :: e in run.issued ==> !e.CopyFile?)
  {
    var buildDir := PathJoin(b.buildRoot, config.name);
    var full := BuildEffects(buildDir, b.repoPath, config);
    var staged := Execute(env, t, StagePlan(buildDir, config));
    var stageEffects := Effects(StagePlan(buildDir, config));
    var tail := [ReadDir(buildDir), RepoAdd(b.repoPath)];
    BuildEffectsSplit(buildDir, b.repoPath, config);
    IssuedPrefix(env, t, StagePlan(buildDir, config));
    var run := BuildRun(env, t, b, config);
    if staged.result.Ok? {
      var repo := RepoRun(env, t + staged.issued, buildDir, b.repoPath);
      AddToRepoOutcome(env, t + staged.issued, buildDir, b.repoPath);
      assert repo.issued <= tail;
      AppendPrefix(stageEffects, repo.issued, tail);
    } else {
      PrefixOfAppend(staged.issued, stageEffects, tail);
    }
    PrefixMembers(run.issued, full);
  }

  /** The AUR address gives back the package name. */
  lemma AurUrlName(name: string)
    ensures var url := AurUrl(name);
            && |url| == |name| + 30
            && url[..26] == "https://aur.archlinux.org/"
            && url[26..|url| - 4] == name
  {
    var url := AurUrl(name);
    AppendAssoc("https://aur.archlinux.org/", name, ".git");
    assert url[26..] == name + ".git";
    assert url[26..|url| - 4] == url[26..][..|name|];
  }

  /** So different packages are cloned from different addresses. */
  lemma AurUrlInjective(n1: string, n2: string)
    requires AurUrl(n1) == AurUrl(n2)
    ensures n1 == n2
  {
    AurUrlName(n1);
    AurUrlName(n2);
  }

  /**
   * build_aur_package issues a prefix of: git clone of the package's AUR
   * address into aur_cache/<name>, then makepkg -si in that same directory;
   * it succeeds exactly when both could be launched, and otherwise fails
   * with the launch error of the last one issued.
   */
  lemma AurOutcome(env: Env, t: seq<Effect>, aurCache: string, name: string)
    ensures var cmds := AurCmds(aurCache, name);
            cmds[0].args[2] == AurDir(aurCache, name) && cmds[1].dir == Some(AurDir(aurCache, name))
    ensures var r := Execute(env, t, AurPlan(aurCache, name));
            && r.issued <= AurCmds(aurCache, name)
            && (r.result.Ok? ==> r.issued == AurCmds(aurCache, name))
            && (r.result.Err? ==> r.result.error == SpawnFailed && env.spawn(t + r.issued).SpawnError?)
  {
    EffectsLaunches(AurCmds(aurCache, name));
    IssuedPrefix(env, t, AurPlan(aurCache, name));
    if Execute(env, t, AurPlan(aurCache, name)).result.Err? {
      LaunchOnlyFailure(env, t, AurPlan(aurCache, name));
    }
  }

  /** build_aur_package never looks at an exit status: neither a failed clone nor a failed build is noticed. */
  lemma AurStatusIgnored(env1: Env, env2: Env, t: seq<Effect>, aurCache: string, name: string)
    requires SameLaunches(env1, env2)
    ensures Execute(env1, t, AurPlan(aurCache, name)) == Execute(env2, t, AurPlan(aurCache, name))
  {
    var plan := AurPlan(aurCache, name);
    assert Unchecked(plan) by {
      forall a | a in plan ensures !a.Check? { assert a.Launch?; }
    }
    StatusIgnored(env1, env2, t, plan);
  }
}
