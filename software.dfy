/**
 * The software center: a catalogue of packages keyed by name, searched by
 * substring, and kept in step with what pacman reports as installed.
 */
module Software {
  import opened Text
  import opened Exec

  newtype u64 = x: int | 0 <= x < 0x1_0000_0000_0000_0000

  datatype SoftwarePackage = SoftwarePackage(
    name: string,
    description: string,
    version: string,
    category: string,
    dependencies: seq<string>,
    optionalDeps: seq<string>,
    size: u64,
    installed: bool)

  type Catalogue = map<string, SoftwarePackage>

  const PacmanRefresh: Effect := Cmd("pacman", ["-Sy"], None)
  const PacmanQuery: Effect := Cmd("pacman", ["-Q"], None)

  function PacmanInstall(name: string): Effect {
    Cmd("pacman", ["-S", "--noconfirm", name], None)
  }

  function PacmanRemove(name: string): Effect {
    Cmd("pacman", ["-R", "--noconfirm", name], None)
  }

  // ---------------------------------------------------------------------------
  // Plans: every launch is `.status()?` or `.output()?`, so only a launch failure stops

  const SyncPlan: seq<Action> := [Launch(PacmanQuery)]

  const UpdatePlan: seq<Action> := [Launch(PacmanRefresh)] + SyncPlan

  function InitPlan(dbPath: string, cachePath: string): seq<Action> {
    [Perform(CreateDirAll(dbPath)), Perform(CreateDirAll(cachePath))] + UpdatePlan
  }

  /** Installing: nothing at all happens for a name the catalogue does not hold. */
  function InstallPlan(known: bool, name: string): seq<Action> {
    if known then [Launch(PacmanInstall(name))] + SyncPlan
    else [Fail(Message("Package not found"))]
  }

  function RemovePlan(name: string): seq<Action> {
    [Launch(PacmanRemove(name))] + SyncPlan
  }

  /** The standard output of the program launched last, if it ran. */
  function LastOutput(env: Env, trace: seq<Effect>): string {
    var o := env.spawn(trace);
    if o.Exit? then o.stdout else ""
  }

  // ---------------------------------------------------------------------------
  // The listing parser

  /** The line reports package k as installed: it has at least two words and the first is k. */
  predicate Lists(line: string, k: string) {
    var parts := Tokens(line);
    |parts| >= 2 && parts[0] == k
  }

  /** One line of `pacman -Q` output: `name version ...` marks a known name installed at that version. */
  function ApplyLine(m: Catalogue, line: string): (r: Catalogue)
    ensures r.Keys == m.Keys
  {
    var parts := Tokens(line);
    if |parts| >= 2 && parts[0] in m then
      m[parts[0] := m[parts[0]].(installed := true, version := parts[1])]
    else m
  }

  /** The lines of a listing, applied in order; a listing never adds or drops an entry. */
  function ApplyListing(m: Catalogue, lines: seq<string>): (r: Catalogue)
    ensures r.Keys == m.Keys
    decreases |lines|
  {
    if lines == [] then m
    else ApplyLine(ApplyListing(m, lines[..|lines| - 1]), lines[|lines| - 1])
  }

  /**
   * A listing changes only the installed flag and the version of an entry,
   * and never turns an installed flag off.
   */
  lemma {:induction false} ListingChangesOnlyStatus(m: Catalogue, lines: seq<string>, k: string)
    requires k in m
    ensures k in ApplyListing(m, lines)
    ensures ApplyListing(m, lines)[k].(installed := m[k].installed, version := m[k].version) == m[k]
    ensures m[k].installed ==> ApplyListing(m, lines)[k].installed
    decreases |lines|
  {
    if lines != [] {
      ListingChangesOnlyStatus(m, lines[..|lines| - 1], k);
    }
  }

  /** An entry that no line reports (lines with fewer than two words report nothing) is left unchanged. */
  lemma {:induction false} ListingSkipsUnlisted(m: Catalogue, lines: seq<string>, k: string)
    requires k in m
    requires forall j :: 0 <= j < |lines| ==> !Lists(lines[j], k)
    ensures ApplyListing(m, lines)[k] == m[k]
    decreases |lines|
  {
    if lines != [] {
      var init := lines[..|lines| - 1];
      assert forall j :: 0 <= j < |init| ==> init[j] == lines[j];
      ListingSkipsUnlisted(m, init, k);
    }
  }

  /**
   * The last line that reports an entry decides it: installed, at the
   * version that line gives; extra words on the line are ignored.
   */
  lemma {:induction false} ListingLastWins(m: Catalogue, lines: seq<string>, k: string, j: nat)
    requires k in m
    requires j < |lines| && Lists(lines[j], k)
    requires forall j' :: j < j' < |lines| ==> !Lists(lines[j'], k)
    ensures ApplyListing(m, lines)[k] == m[k].(installed := true, version := Tokens(lines[j])[1])
    decreases |lines|
  {
    var init := lines[..|lines| - 1];
    if j == |lines| - 1 {
      ListingChangesOnlyStatus(m, init, k);
    } else {
      assert forall j' :: j < j' < |init| ==> init[j'] == lines[j'];
      ListingLastWins(m, init, k, j);
    }
  }

  /** A line `name version` written by pacman. */
  function QueryLine(name: string, version: string): string {
    name + " " + version
  }

  /**
   * Reading a whole `pacman -Q` output: when it is one `name version` line
   * per package (names and versions without whitespace, names distinct),
   * every listed name that is in the catalogue ends up installed at its
   * listed version.
   */
  lemma ListingOfQueryOutput(m: Catalogue, names: seq<string>, versions: seq<string>, i: nat)
    requires |names| == |versions| && i < |names|
    requires forall j :: 0 <= j < |names| ==> IsWord(names[j]) && IsWord(versions[j])
    requires forall j, j' :: 0 <= j < j' < |names| ==> names[j] != names[j']
    requires names[i] in m
    ensures var lines := Lines(Unlines(seq(|names|, j requires 0 <= j < |names| => QueryLine(names[j], versions[j]))));
            ApplyListing(m, lines)[names[i]] == m[names[i]].(installed := true, version := versions[i])
  {
    var ls := seq(|names|, j requires 0 <= j < |names| => QueryLine(names[j], versions[j]));
    forall j | 0 <= j < |ls| ensures SingleLine(ls[j]) && Tokens(ls[j]) == [names[j], versions[j]] {
      TokensOfJoin([names[j], versions[j]]);
      assert JoinWith(" ", [names[j], versions[j]]) == ls[j];
      assert ls[j][|ls[j]| - 1] == versions[j][|versions[j]| - 1];
    }
    LinesUnlines(ls);
    ListingLastWins(m, ls, names[i], i);
  }

  // ---------------------------------------------------------------------------
  // Search

  /** The query occurs somewhere in s. */
  ghost predicate Occurs(s: string, query: string) {
    exists i: nat :: OccursAt(s, query, i)
  }

  predicate Matches(p: SoftwarePackage, query: string) {
    Contains(p.name, query) || Contains(p.description, query)
  }

  // ---------------------------------------------------------------------------
  // The catalogue

  class SoftwareCenter {
    const dbPath: string
    const cachePath: string
    var packages: Catalogue

    constructor ()
      ensures dbPath == "/var/lib/xbitos/software" && cachePath == "/var/cache/xbitos/packages"
      ensures packages == map[]
    {
      dbPath := "/var/lib/xbitos/software";
      cachePath := "/var/cache/xbitos/packages";
      packages := map[];
    }

    /** new: an empty catalogue, initialized; the error of initialization is returned instead. */
    static method New(sh: Shell) returns (r: Result<SoftwareCenter>)
      modifies sh
      ensures sh.Ran(old(sh.trace), InitPlan("/var/lib/xbitos/software", "/var/cache/xbitos/packages"), Discard(r))
      ensures r.Ok? ==> fresh(r.value) && r.value.packages == map[]
    {
      var center := new SoftwareCenter();
      var init := center.Initialize(sh);
      if init.Err? {
        return Err(init.error);
      }
      assert ApplyListing(map[], Lines(LastOutput(sh.env, sh.trace))) == map[] by {
      }
      r := Ok(center);
    }

    /** initialize: creates the database and cache directories, then updates the database. */
    method Initialize(sh: Shell) returns (r: Result<()>)
      modifies this, sh
      ensures sh.Ran(old(sh.trace), InitPlan(dbPath, cachePath), r)
      ensures packages == if r.Ok? then ApplyListing(old(packages), Lines(LastOutput(sh.env, sh.trace))) else old(packages)
    {
      ghost var t0 := sh.trace;
      ghost var plan := InitPlan(dbPath, cachePath);
      var ok := sh.Perform(CreateDirAll(dbPath));
      if !ok {
        r := Err(IoFailed);
        ExecuteStops(sh.env, t0, plan[..1], plan[1..]);
        assert plan[..1] + plan[1..] == plan;
        return;
      }
      ghost var t1 := sh.trace;
      ok := sh.Perform(CreateDirAll(cachePath));
      if !ok {
        r := Err(IoFailed);
        Advance(sh.env, t0, plan, 1, t1, sh.trace, r);
        return;
      }
      ghost var t2 := sh.trace;
      Advance(sh.env, t0, plan, 1, t1, t2, Ok(()));
      r := UpdateDatabase(sh);
      assert plan[..2] + UpdatePlan == plan;
      RanSeq(sh.env, t0, plan[..2], t2, UpdatePlan, sh.trace, r);
    }

    /** update_database: refreshes pacman's repositories, then syncs. */
    method UpdateDatabase(sh: Shell) returns (r: Result<()>)
      modifies this, sh
      ensures sh.Ran(old(sh.trace), UpdatePlan, r)
      ensures packages == if r.Ok? then ApplyListing(old(packages), Lines(LastOutput(sh.env, sh.trace))) else old(packages)
    {
      ghost var t0 := sh.trace;
      var o := sh.Run(PacmanRefresh);
      if o.SpawnError? {
        r := Err(SpawnFailed);
        ExecuteStops(sh.env, t0, [Launch(PacmanRefresh)], SyncPlan);
        return;
      }
      ghost var t1 := sh.trace;
      ExecuteSingle(sh.env, t0, Launch(PacmanRefresh));
      r := SyncLocalDatabase(sh);
      RanSeq(sh.env, t0, [Launch(PacmanRefresh)], t1, SyncPlan, sh.trace, r);
    }

    /** install_package: a name outside the catalogue is refused before any command. */
    method InstallPackage(sh: Shell, name: string) returns (r: Result<()>)
      modifies this, sh
      ensures sh.Ran(old(sh.trace), InstallPlan(name in old(packages), name), r)
      ensures packages == if r.Ok? then ApplyListing(old(packages), Lines(LastOutput(sh.env, sh.trace))) else old(packages)
    {
      ghost var t0 := sh.trace;
      if name !in packages {
        r := Err(Message("Package not found"));
        assert Execute(sh.env, t0, InstallPlan(false, name)) == Trail([], r);
        return;
      }
      var o := sh.Run(PacmanInstall(name));
      if o.SpawnError? {
        r := Err(SpawnFailed);
        ExecuteStops(sh.env, t0, [Launch(PacmanInstall(name))], SyncPlan);
        return;
      }
      ghost var t1 := sh.trace;
      ExecuteSingle(sh.env, t0, Launch(PacmanInstall(name)));
      r := SyncLocalDatabase(sh);
      RanSeq(sh.env, t0, [Launch(PacmanInstall(name))], t1, SyncPlan, sh.trace, r);
    }

    /** remove_package */
    method RemovePackage(sh: Shell, name: string) returns (r: Result<()>)
      modifies this, sh
      ensures sh.Ran(old(sh.trace), RemovePlan(name), r)
      ensures packages == if r.Ok? then ApplyListing(old(packages), Lines(LastOutput(sh.env, sh.trace))) else old(packages)
    {
      ghost var t0 := sh.trace;
      var o := sh.Run(PacmanRemove(name));
      if o.SpawnError? {
        r := Err(SpawnFailed);
        ExecuteStops(sh.env, t0, [Launch(PacmanRemove(name))], SyncPlan);
        return;
      }
      ghost var t1 := sh.trace;
      ExecuteSingle(sh.env, t0, Launch(PacmanRemove(name)));
      r := SyncLocalDatabase(sh);
      RanSeq(sh.env, t0, [Launch(PacmanRemove(name))], t1, SyncPlan, sh.trace, r);
    }

    /** search_packages: the entries whose name or description contains the query. */
    function SearchPackages(query: string): (found: Catalogue)
      reads this
      ensures forall k :: k in found <==>
                k in packages && (Occurs(packages[k].name, query) || Occurs(packages[k].description, query))
      ensures forall k :: k in found ==> found[k] == packages[k]
    {
      assert forall k :: k in packages ==>
               (Matches(packages[k], query) <==> Occurs(packages[k].name, query) || Occurs(packages[k].description, query)) by {
        forall k | k in packages
          ensures Matches(packages[k], query) <==> Occurs(packages[k].name, query) || Occurs(packages[k].description, query)
        {
          ContainsIff(packages[k].name, query);
          ContainsIff(packages[k].description, query);
        }
      }
      map k | k in packages && Matches(packages[k], query) :: packages[k]
    }

    /** get_package_info: the entry under the name, if there is one. */
    function GetPackageInfo(name: string): (info: Option<SoftwarePackage>)
      reads this
      ensures info.Some? <==> name in packages
      ensures info.Some? ==> info.value == packages[name]
    {
      if name in packages then Some(packages[name]) else None
    }

    /**
     * sync_local_database: runs `pacman -Q` (its exit status is not looked
     * at) and applies each line of its output to the catalogue.
     */
    method SyncLocalDatabase(sh: Shell) returns (r: Result<()>)
      modifies this, sh
      ensures sh.Ran(old(sh.trace), SyncPlan, r)
      ensures packages == if r.Ok? then ApplyListing(old(packages), Lines(LastOutput(sh.env, sh.trace))) else old(packages)
    {
      ghost var t0 := sh.trace;
      var installed := sh.Run(PacmanQuery);
      ExecuteSingle(sh.env, t0, Launch(PacmanQuery));
      if installed.SpawnError? {
        r := Err(SpawnFailed);
        return;
      }
      var lines := Lines(installed.stdout);
      var i := 0;
      while i < |lines|
        modifies this
        invariant 0 <= i <= |lines|
        invariant packages == ApplyListing(old(packages), lines[..i])
      {
        var parts := Tokens(lines[i]);
        if |parts| >= 2 {
          var name := parts[0];
          var version := parts[1];
          if name in packages {
            packages := packages[name := packages[name].(installed := true, version := version)];
          }
        }
        assert lines[..i + 1][..i] == lines[..i];
        i := i + 1;
      }
      assert lines[..i] == lines;
      r := Ok(());
    }
  }

  /** Removing a package never clears an installed flag in the catalogue. */
  lemma RemoveKeepsInstalled(m: Catalogue, listing: string, k: string)
    requires k in m && m[k].installed
    ensures ApplyListing(m, Lines(listing))[k].installed
  {
    ListingChangesOnlyStatus(m, Lines(listing), k);
  }
}
