/**
 * The command executor, abstracted.
 *
 * Every process launch, every filesystem operation and every call into code
 * outside this model is an Effect appended to a trace. An environment (Env)
 * decides how each effect turns out, as a function of the trace up to and
 * including that effect: a launch either fails to spawn or exits with a code,
 * a filesystem operation succeeds or fails, a directory read lists names.
 *
 * A routine of the installer is described by its Plan: the Actions it takes,
 * in order. Execute runs a plan the way Rust's `?` operator does: the first
 * action whose result is an error ends the run, and nothing after it happens.
 */
module Exec {
  import opened Text

  /** The errors the routines return (anyhow errors, by how they are built). */
  datatype Error =
    | SpawnFailed                         // the program could not be launched
    | IoFailed                            // a filesystem operation returned an error
    | RoutineFailed(routine: string)      // a routine outside the model returned an error
    | Message(text: string)               // an error built with anyhow!(...)
    | Context(text: string, cause: Error) // an error wrapped by .context(...)

  datatype Result<+T> = Ok(value: T) | Err(error: Error)

  /** Forgets the value of a result, keeping its error. */
  function Discard<T>(r: Result<T>): (u: Result<()>)
    ensures u.Ok? <==> r.Ok?
    ensures r.Err? ==> u.error == r.error
  {
    if r.Ok? then Ok(()) else Err(r.error)
  }

  /** What the system does to the outside world. */
  datatype Effect =
    | Cmd(program: string, args: seq<string>, dir: Option<string>)  // std::process::Command
    | WriteFile(path: string, contents: string)                      // fs::write
    | CreateDirAll(path: string)                                     // fs::create_dir_all
    | CopyFile(from: string, to: string)                             // fs::copy
    | Symlink(target: string, link: string)                          // os::unix::fs::symlink
    | ReadDir(path: string)                                          // fs::read_dir
    | Call(routine: string)                                          // a routine outside the model

  /** How a launched program turned out: `.status()` / `.output()`. */
  datatype Outcome = SpawnError | Exit(code: int, stdout: string)

  /**
   * The oracle. Each function is applied to the trace that ends with the
   * effect being decided, so an answer may depend on everything before it.
   */
  datatype Env = Env(
    spawn: seq<Effect> -> Outcome,     // for Cmd
    io: seq<Effect> -> bool,           // for the filesystem effects and Call: did it succeed?
    listing: seq<Effect> -> seq<string>) // for a successful ReadDir: the entry names

  /** What an action or a plan did: the effects it issued and its result. */
  datatype Trail = Trail(issued: seq<Effect>, result: Result<()>)

  /** One step of a routine. */
  datatype Action =
    | Launch(cmd: Effect)                                   // `.status()?`: only a spawn failure stops
    | Check(cmd: Effect, spawnError: Error, statusError: Error) // and a non-zero exit status stops too
    | Perform(op: Effect)                                   // a filesystem operation or routine call with `?`
    | Fail(error: Error)                                    // an immediate `return Err(...)`

  function OpError(e: Effect): Error {
    if e.Call? then RoutineFailed(e.routine) else IoFailed
  }

  /** The effect an action issues, if any. */
  function EffectsOf(a: Action): (es: seq<Effect>)
    ensures |es| == if a.Fail? then 0 else 1
  {
    match a
    case Launch(c) => [c]
    case Check(c, _, _) => [c]
    case Perform(e) => [e]
    case Fail(_) => []
  }

  /** Running one action after trace t. */
  function Step(env: Env, t: seq<Effect>, a: Action): Trail {
    match a
    case Launch(c) =>
      Trail([c], if env.spawn(t + [c]).SpawnError? then Err(SpawnFailed) else Ok(()))
    case Check(c, spawnError, statusError) =>
      var o := env.spawn(t + [c]);
      Trail([c], if o.SpawnError? then Err(spawnError)
                 else if o.code != 0 then Err(statusError)
                 else Ok(()))
    case Perform(e) =>
      Trail([e], if env.io(t + [e]) then Ok(()) else Err(OpError(e)))
    case Fail(e) =>
      Trail([], Err(e))
  }

  /** `a?; b`: b runs only when a succeeded. */
  function Then(a: Trail, b: Trail): Trail {
    if a.result.Err? then a else Trail(a.issued + b.issued, b.result)
  }

  /** Running a plan after trace t. */
  function Execute(env: Env, t: seq<Effect>, plan: seq<Action>): Trail
    decreases |plan|
  {
    if plan == [] then Trail([], Ok(()))
    else
      var first := Step(env, t, plan[0]);
      Then(first, Execute(env, t + first.issued, plan[1..]))
  }

  /** Every effect the plan would issue if nothing failed, in order. */
  function Effects(plan: seq<Action>): seq<Effect>
    decreases |plan|
  {
    if plan == [] then [] else EffectsOf(plan[0]) + Effects(plan[1..])
  }

  predicate NoFail(plan: seq<Action>) {
    forall a :: a in plan ==> !a.Fail?
  }

  predicate LaunchOnly(plan: seq<Action>) {
    forall a :: a in plan ==> a.Launch?
  }

  predicate Unchecked(plan: seq<Action>) {
    forall a :: a in plan ==> !a.Check?
  }

  /** Two environments that agree on everything except the exit codes and output of programs. */
  ghost predicate SameLaunches(env1: Env, env2: Env) {
    && (forall tr :: env1.spawn(tr).SpawnError? == env2.spawn(tr).SpawnError?)
    && (forall tr :: env1.io(tr) == env2.io(tr))
  }

  // ---------------------------------------------------------------------------
  // Lemmas about Execute

  lemma {:induction false} EffectsAppend(p: seq<Action>, q: seq<Action>)
    ensures Effects(p + q) == Effects(p) + Effects(q)
    decreases |p|
  {
    if p == [] {
      assert p + q == q;
    } else {
      assert (p + q)[0] == p[0];
      assert (p + q)[1..] == p[1..] + q;
      EffectsAppend(p[1..], q);
    }
  }

  /** A plan without Fail actions issues exactly one effect per action. */
  lemma {:induction false} EffectsNoFail(plan: seq<Action>)
    requires NoFail(plan)
    ensures |Effects(plan)| == |plan|
    ensures forall k :: 0 <= k < |plan| ==> EffectsOf(plan[k]) == [Effects(plan)[k]]
    decreases |plan|
  {
    if plan != [] {
      assert plan[0] in plan;
      assert NoFail(plan[1..]) by {
        forall a | a in plan[1..] ensures !a.Fail? { assert a in plan; }
      }
      EffectsNoFail(plan[1..]);
      forall k | 0 <= k < |plan|
        ensures EffectsOf(plan[k]) == [Effects(plan)[k]]
      {
        if k > 0 { assert plan[k] == plan[1..][k - 1]; }
      }
    }
  }

  /** Sequencing: running p + q is running p, then (if p succeeded) q. */
  lemma {:induction false} ExecuteAppend(env: Env, t: seq<Effect>, p: seq<Action>, q: seq<Action>)
    ensures Execute(env, t, p + q)
         == Then(Execute(env, t, p), Execute(env, t + Execute(env, t, p).issued, q))
    decreases |p|
  {
    if p == [] {
      assert p + q == q;
      assert t + [] == t;
      var rq := Execute(env, t, q);
      assert [] + rq.issued == rq.issued;
    } else {
      assert (p + q)[0] == p[0];
      assert (p + q)[1..] == p[1..] + q;
      var first := Step(env, t, p[0]);
      var t1 := t + first.issued;
      assert Execute(env, t, p + q) == Then(first, Execute(env, t1, p[1..] + q));
      assert Execute(env, t, p) == Then(first, Execute(env, t1, p[1..]));
      if first.result.Ok? {
        ExecuteAppend(env, t1, p[1..], q);
        var rest := Execute(env, t1, p[1..]);
        AppendAssoc(t, first.issued, rest.issued);
        AppendAssoc(first.issued, rest.issued, Execute(env, t1 + rest.issued, q).issued);
      }
    }
  }

  /** An effect that the first part of a plan never issues is issued only after that part succeeded. */
  lemma ReachedOnlyAfter(env: Env, t: seq<Effect>, p: seq<Action>, q: seq<Action>, e: Effect)
    requires e in Execute(env, t, p + q).issued
    requires e !in Effects(p)
    ensures Execute(env, t, p).result.Ok?
  {
    var rp := Execute(env, t, p);
    if rp.result.Err? {
      ExecuteStops(env, t, p, q);
      IssuedPrefix(env, t, p);
    }
  }

  /**
   * A Fail action ends the run: whatever follows it is never run, and unless
   * an earlier action failed first, its error is the run's error.
   */
  lemma FailStops(env: Env, t: seq<Effect>, pre: seq<Action>, err: Error, q1: seq<Action>, q2: seq<Action>)
    ensures var before := Execute(env, t, pre);
            var r := Execute(env, t, pre + [Fail(err)] + q1 + q2);
            && r.result.Err?
            && r.issued == before.issued
            && (before.result.Ok? ==> r.result.error == err)
  {
    var before := Execute(env, t, pre);
    var halted := Execute(env, t, pre + [Fail(err)]);
    assert halted.result.Err? && halted.issued == before.issued
           && (before.result.Ok? ==> halted.result.error == err) by {
      ExecuteAppend(env, t, pre, [Fail(err)]);
      assert Execute(env, t + before.issued, [Fail(err)]) == Trail([], Err(err));
      assert before.issued + [] == before.issued;
    }
    ExecuteStops(env, t, pre + [Fail(err)], q1);
    ExecuteStops(env, t, pre + [Fail(err)] + q1, q2);
  }

  /** When a plan succeeds, so does its first part, and then its second. */
  lemma AppendOk(env: Env, t: seq<Effect>, p: seq<Action>, q: seq<Action>)
    requires Execute(env, t, p + q).result.Ok?
    ensures Execute(env, t, p).result.Ok?
    ensures Execute(env, t + Execute(env, t, p).issued, q).result.Ok?
  {
    ExecuteAppend(env, t, p, q);
  }

  /** Once a plan has failed, whatever follows it is never run. */
  lemma ExecuteStops(env: Env, t: seq<Effect>, p: seq<Action>, q: seq<Action>)
    requires Execute(env, t, p).result.Err?
    ensures Execute(env, t, p + q) == Execute(env, t, p)
  {
    ExecuteAppend(env, t, p, q);
  }

  /** A plan that succeeded is followed by the next one, starting where it ended. */
  lemma ExecuteContinues(env: Env, t: seq<Effect>, p: seq<Action>, q: seq<Action>)
    requires Execute(env, t, p).result.Ok?
    ensures var rp := Execute(env, t, p);
            var rq := Execute(env, t + rp.issued, q);
            Execute(env, t, p + q) == Trail(rp.issued + rq.issued, rq.result)
  {
    ExecuteAppend(env, t, p, q);
  }

  /**
   * What a run issues is a prefix of the plan's effects, and all of them
   * exactly when it succeeded.
   */
  lemma {:induction false} IssuedPrefix(env: Env, t: seq<Effect>, plan: seq<Action>)
    ensures Execute(env, t, plan).issued <= Effects(plan)
    ensures Execute(env, t, plan).result.Ok? ==> Execute(env, t, plan).issued == Effects(plan)
    decreases |plan|
  {
    if plan != [] {
      var first := Step(env, t, plan[0]);
      IssuedPrefix(env, t + first.issued, plan[1..]);
    }
  }

  /**
   * In a plan without Fail actions, every action before the last one issued
   * passed (and, when the run succeeded, the last one too): the k-th action
   * starts right after the first k issued effects and issues the next one.
   */
  lemma {:induction false} EarlierPassed(env: Env, t: seq<Effect>, plan: seq<Action>, k: nat)
    requires NoFail(plan)
    requires var r := Execute(env, t, plan);
             k < |r.issued| && (r.result.Ok? || k < |r.issued| - 1)
    ensures k < |plan|
    ensures var r := Execute(env, t, plan);
            Step(env, t + r.issued[..k], plan[k]) == Trail([r.issued[k]], Ok(()))
    decreases k
  {
    EffectsNoFail(plan);
    assert plan != [];
    assert plan[0] in plan;
    var r := Execute(env, t, plan);
    var first := Step(env, t, plan[0]);
    assert |first.issued| == 1;
    assert first.result.Ok?;
    var t1 := t + first.issued;
    var rest := Execute(env, t1, plan[1..]);
    assert r.issued == first.issued + rest.issued;
    if k == 0 {
      assert t + r.issued[..0] == t;
    } else {
      assert NoFail(plan[1..]) by {
        forall a | a in plan[1..] ensures !a.Fail? { assert a in plan; }
      }
      EarlierPassed(env, t1, plan[1..], k - 1);
      PrefixShift(t, first.issued, rest.issued, k);
      assert plan[k] == plan[1..][k - 1];
    }
  }

  /** A Check action that passed in a run: its program was issued and exited 0. */
  lemma CheckPassedAt(env: Env, t: seq<Effect>, plan: seq<Action>, k: nat)
    requires NoFail(plan) && k < |plan| && plan[k].Check?
    requires var r := Execute(env, t, plan);
             k < |r.issued| && (r.result.Ok? || k < |r.issued| - 1)
    ensures var r := Execute(env, t, plan);
            r.issued[k] == plan[k].cmd && ExitedZero(env, t, r.issued, k)
  {
    var r := Execute(env, t, plan);
    EarlierPassed(env, t, plan, k);
    CheckStep(env, t + r.issued[..k], plan[k]);
    assert t + r.issued[..k + 1] == t + r.issued[..k] + [r.issued[k]];
  }

  /** In a plan without Fail actions, a failed run ends with the action that failed. */
  lemma {:induction false} LastFailed(env: Env, t: seq<Effect>, plan: seq<Action>)
    requires NoFail(plan)
    requires Execute(env, t, plan).result.Err?
    ensures var r := Execute(env, t, plan);
            var n := |r.issued|;
            && 0 < n <= |plan|
            && Step(env, t + r.issued[..n - 1], plan[n - 1]) == Trail([r.issued[n - 1]], r.result)
    decreases |plan|
  {
    EffectsNoFail(plan);
    assert plan[0] in plan;
    var r := Execute(env, t, plan);
    var first := Step(env, t, plan[0]);
    assert |first.issued| == 1;
    if first.result.Err? {
      assert t + r.issued[..0] == t;
    } else {
      assert NoFail(plan[1..]) by {
        forall a | a in plan[1..] ensures !a.Fail? { assert a in plan; }
      }
      var t1 := t + first.issued;
      LastFailed(env, t1, plan[1..]);
      var rest := Execute(env, t1, plan[1..]);
      assert r == Trail(first.issued + rest.issued, rest.result);
      var n := |r.issued|;
      PrefixShift(t, first.issued, rest.issued, n - 1);
      assert plan[n - 1] == plan[1..][n - 2];
    }
  }

  lemma PrefixShift(t: seq<Effect>, head: seq<Effect>, tail: seq<Effect>, k: nat)
    requires |head| == 1 && 0 < k <= |tail| + 1
    ensures (head + tail)[..k] == head + tail[..k - 1]
    ensures t + (head + tail)[..k] == (t + head) + tail[..k - 1]
  {
    assert (head + tail)[..k] == head + tail[..k - 1];
    AppendAssoc(t, head, tail[..k - 1]);
  }

  /** The one effect a non-Fail action issues. */
  function Issues(a: Action): (e: Effect)
    requires !a.Fail?
    ensures EffectsOf(a) == [e]
  {
    match a
    case Launch(c) => c
    case Check(c, _, _) => c
    case Perform(e) => e
  }

  /**
   * The shape of every run of a plan without Fail actions: it issues the
   * effects of a prefix of the plan; every action before the last one issued
   * passed; it succeeds exactly when the whole plan ran and the last action
   * passed too; and a failed run returns the error of its last action.
   */
  lemma RunShape(env: Env, t: seq<Effect>, plan: seq<Action>)
    requires NoFail(plan)
    ensures var r := Execute(env, t, plan);
            var n := |r.issued|;
            && n <= |plan|
            && (forall k :: 0 <= k < n ==> r.issued[k] == Issues(plan[k]))
            && (forall k :: 0 <= k < n && (k < n - 1 || r.result.Ok?) ==>
                  Step(env, t + r.issued[..k], plan[k]).result.Ok?)
            && (r.result.Ok? ==> n == |plan|)
            && (r.result.Err? ==> 0 < n && Step(env, t + r.issued[..n - 1], plan[n - 1]).result == r.result)
  {
    var r := Execute(env, t, plan);
    var n := |r.issued|;
    IssuedPrefix(env, t, plan);
    EffectsNoFail(plan);
    forall k | 0 <= k < n ensures r.issued[k] == Issues(plan[k]) {
      assert plan[k] in plan;
      assert r.issued[k] == Effects(plan)[k];
    }
    forall k | 0 <= k < n && (k < n - 1 || r.result.Ok?)
      ensures Step(env, t + r.issued[..k], plan[k]).result.Ok?
    {
      EarlierPassed(env, t, plan, k);
    }
    if r.result.Err? {
      LastFailed(env, t, plan);
    }
  }

  predicate CheckOnly(plan: seq<Action>) {
    forall a :: a in plan ==> a.Check?
  }

  /** The launch of the k-th issued effect (counting from 0) after trace t exited with status 0. */
  ghost predicate ExitedZero(env: Env, t: seq<Effect>, issued: seq<Effect>, k: nat)
    requires k < |issued|
  {
    var o := env.spawn(t + issued[..k + 1]);
    o.Exit? && o.code == 0
  }

  /** The error a Check action returns when its program turned out as o. */
  function CheckError(a: Action, o: Outcome): Error
    requires a.Check?
  {
    if o.SpawnError? then a.spawnError else a.statusError
  }

  /** One Check action after trace t0: it passes exactly when its program exited 0. */
  lemma CheckStep(env: Env, t0: seq<Effect>, a: Action)
    requires a.Check?
    ensures var s := Step(env, t0, a);
            var o := env.spawn(t0 + [a.cmd]);
            && s.issued == [a.cmd]
            && (s.result.Ok? <==> o.Exit? && o.code == 0)
            && (s.result.Err? ==> s.result.error == CheckError(a, o))
  {
  }

  /** In a run of Check actions, every program before the last one issued exited 0 (and that one too on success). */
  lemma CheckedPassed(env: Env, t: seq<Effect>, plan: seq<Action>)
    requires CheckOnly(plan)
    ensures var r := Execute(env, t, plan);
            var n := |r.issued|;
            forall k :: 0 <= k < n && (k < n - 1 || r.result.Ok?) ==> ExitedZero(env, t, r.issued, k)
  {
    var r := Execute(env, t, plan);
    var n := |r.issued|;
    assert NoFail(plan) by {
      forall a | a in plan ensures !a.Fail? { assert a.Check?; }
    }
    forall k | 0 <= k < n && (k < n - 1 || r.result.Ok?) ensures ExitedZero(env, t, r.issued, k) {
      EarlierPassed(env, t, plan, k);
      assert plan[k] in plan;
      CheckStep(env, t + r.issued[..k], plan[k]);
      assert t + r.issued[..k + 1] == t + r.issued[..k] + [r.issued[k]];
    }
  }

  /** A failed run of Check actions ends with the program that did not exit 0, and returns that action's error. */
  lemma CheckedFailed(env: Env, t: seq<Effect>, plan: seq<Action>)
    requires CheckOnly(plan)
    requires Execute(env, t, plan).result.Err?
    ensures var r := Execute(env, t, plan);
            var n := |r.issued|;
            && 0 < n <= |plan|
            && !ExitedZero(env, t, r.issued, n - 1)
            && r.result.error == CheckError(plan[n - 1], env.spawn(t + r.issued))
  {
    var r := Execute(env, t, plan);
    var n := |r.issued|;
    assert NoFail(plan) by {
      forall a | a in plan ensures !a.Fail? { assert a.Check?; }
    }
    LastFailed(env, t, plan);
    assert plan[n - 1] in plan;
    CheckStep(env, t + r.issued[..n - 1], plan[n - 1]);
    assert t + r.issued == t + r.issued[..n - 1] + [r.issued[n - 1]];
    assert r.issued[..n] == r.issued;
  }

  /**
   * A run of Check actions: it issues their programs in order, up to the
   * first that fails to launch or exits non-zero; every earlier one exited 0;
   * a failure returns that action's own error; and the run succeeds exactly
   * when every program ran and exited 0.
   */
  lemma CheckedOutcome(env: Env, t: seq<Effect>, plan: seq<Action>)
    requires CheckOnly(plan)
    ensures var r := Execute(env, t, plan);
            var n := |r.issued|;
            && n <= |plan|
            && (forall k :: 0 <= k < n ==> r.issued[k] == plan[k].cmd)
            && (forall k :: 0 <= k < n - 1 ==> ExitedZero(env, t, r.issued, k))
            && (r.result.Ok? <==> n == |plan| && forall k :: 0 <= k < n ==> ExitedZero(env, t, r.issued, k))
            && (r.result.Err? ==>
                  && !ExitedZero(env, t, r.issued, n - 1)
                  && r.result.error == CheckError(plan[n - 1], env.spawn(t + r.issued)))
  {
    var r := Execute(env, t, plan);
    var n := |r.issued|;
    assert NoFail(plan) by {
      forall a | a in plan ensures !a.Fail? { assert a.Check?; }
    }
    IssuedPrefix(env, t, plan);
    EffectsNoFail(plan);
    forall k | 0 <= k < n ensures r.issued[k] == plan[k].cmd {
      assert plan[k] in plan;
      assert r.issued[k] == Effects(plan)[k];
    }
    CheckedPassed(env, t, plan);
    if r.result.Err? {
      CheckedFailed(env, t, plan);
    }
  }

  /** A plan of one action is that action. */
  lemma EffectsSingle(a: Action)
    ensures Effects([a]) == EffectsOf(a)
  {
    assert [a][1..] == [];
    assert EffectsOf(a) + [] == EffectsOf(a);
  }

  lemma SingleUnchecked(a: Action)
    requires !a.Fail? && !a.Check?
    ensures NoFail([a]) && Unchecked([a])
  {
  }

  lemma ExecuteSingle(env: Env, t: seq<Effect>, a: Action)
    ensures Execute(env, t, [a]) == Step(env, t, a)
  {
    var s := Step(env, t, a);
    assert s.issued + [] == s.issued;
  }

  /**
   * Running one more action of a plan: if the first i actions ran and
   * succeeded up to trace t1, and action i then issued what it issues and
   * returned r, the first i + 1 actions ran; when r is an error, that is the
   * run of the whole plan.
   */
  lemma Advance(env: Env, t0: seq<Effect>, plan: seq<Action>, i: nat, t1: seq<Effect>, t2: seq<Effect>, r: Result<()>)
    requires i < |plan|
    requires t1 == t0 + Execute(env, t0, plan[..i]).issued && Execute(env, t0, plan[..i]).result.Ok?
    requires t2 == t1 + Step(env, t1, plan[i]).issued && r == Step(env, t1, plan[i]).result
    ensures t2 == t0 + Execute(env, t0, plan[..i + 1]).issued && r == Execute(env, t0, plan[..i + 1]).result
    ensures r.Err? ==> Execute(env, t0, plan) == Execute(env, t0, plan[..i + 1])
    ensures r.Err? ==> t2 == t0 + Execute(env, t0, plan).issued && r == Execute(env, t0, plan).result
  {
    var s := Step(env, t1, plan[i]);
    assert Execute(env, t1, [plan[i]]) == Trail(s.issued + [], s.result);
    assert plan[..i + 1] == plan[..i] + [plan[i]];
    RanSeq(env, t0, plan[..i], t1, [plan[i]], t2, r);
    if r.Err? {
      assert plan == plan[..i + 1] + plan[i + 1..];
      ExecuteStops(env, t0, plan[..i + 1], plan[i + 1..]);
    }
  }

  /** Advance, when step i was run as a plan of its own. */
  lemma AdvanceSingle(env: Env, t0: seq<Effect>, plan: seq<Action>, i: nat, t1: seq<Effect>, t2: seq<Effect>, r: Result<()>)
    requires i < |plan|
    requires t1 == t0 + Execute(env, t0, plan[..i]).issued && Execute(env, t0, plan[..i]).result.Ok?
    requires t2 == t1 + Execute(env, t1, [plan[i]]).issued && r == Execute(env, t1, [plan[i]]).result
    ensures t2 == t0 + Execute(env, t0, plan[..i + 1]).issued && r == Execute(env, t0, plan[..i + 1]).result
    ensures r.Err? ==> t2 == t0 + Execute(env, t0, plan).issued && r == Execute(env, t0, plan).result
  {
    ExecuteSingle(env, t1, plan[i]);
    Advance(env, t0, plan, i, t1, t2, r);
  }

  /** Advance for a plan of file operations: the i-th step performs the i-th operation. */
  lemma AdvancePerforms(env: Env, t0: seq<Effect>, ops: seq<Effect>, i: nat, t1: seq<Effect>, t2: seq<Effect>, r: Result<()>)
    requires i < |ops|
    requires t1 == t0 + Execute(env, t0, Performs(ops)[..i]).issued && Execute(env, t0, Performs(ops)[..i]).result.Ok?
    requires t2 == t1 + [ops[i]] && r == Step(env, t1, Perform(ops[i])).result
    ensures t2 == t0 + Execute(env, t0, Performs(ops)[..i + 1]).issued && r == Execute(env, t0, Performs(ops)[..i + 1]).result
    ensures r.Err? ==> t2 == t0 + Execute(env, t0, Performs(ops)).issued && r == Execute(env, t0, Performs(ops)).result
    ensures i + 1 == |ops| ==> Performs(ops)[..i + 1] == Performs(ops)
  {
    Advance(env, t0, Performs(ops), i, t1, t2, r);
  }

  /** Advance for a plan of launches: the i-th step launches the i-th program. */
  lemma AdvanceLaunches(env: Env, t0: seq<Effect>, cmds: seq<Effect>, i: nat, t1: seq<Effect>, t2: seq<Effect>, r: Result<()>)
    requires i < |cmds|
    requires t1 == t0 + Execute(env, t0, Launches(cmds)[..i]).issued && Execute(env, t0, Launches(cmds)[..i]).result.Ok?
    requires t2 == t1 + [cmds[i]] && r == Step(env, t1, Launch(cmds[i])).result
    ensures t2 == t0 + Execute(env, t0, Launches(cmds)[..i + 1]).issued && r == Execute(env, t0, Launches(cmds)[..i + 1]).result
    ensures r.Err? ==> t2 == t0 + Execute(env, t0, Launches(cmds)).issued && r == Execute(env, t0, Launches(cmds)).result
    ensures i + 1 == |cmds| ==> Launches(cmds)[..i + 1] == Launches(cmds)
  {
    Advance(env, t0, Launches(cmds), i, t1, t2, r);
  }

  /**
   * A launch-only plan stops only when a program cannot be launched: the run
   * fails exactly with SpawnFailed, on the last program it issued.
   */
  lemma LaunchOnlyFailure(env: Env, t: seq<Effect>, plan: seq<Action>)
    requires LaunchOnly(plan)
    requires Execute(env, t, plan).result.Err?
    ensures var r := Execute(env, t, plan);
            && r.result.error == SpawnFailed
            && 0 < |r.issued|
            && env.spawn(t + r.issued).SpawnError?
  {
    assert NoFail(plan) by {
      forall a | a in plan ensures !a.Fail? { assert a.Launch?; }
    }
    LastFailed(env, t, plan);
    var r := Execute(env, t, plan);
    var n := |r.issued|;
    assert plan[n - 1] in plan;
    assert r.issued[..n - 1] + [r.issued[n - 1]] == r.issued;
    assert t + r.issued == (t + r.issued[..n - 1]) + [r.issued[n - 1]];
  }

  /**
   * A plan with neither Check nor Fail actions, in which every program can be
   * launched and every filesystem operation or routine call succeeds, runs to
   * the end and succeeds, whatever exit statuses the programs return.
   */
  lemma {:induction false} UncheckedCompletes(env: Env, t: seq<Effect>, plan: seq<Action>)
    requires NoFail(plan) && Unchecked(plan)
    requires forall tr :: !env.spawn(tr).SpawnError?
    requires forall tr :: env.io(tr)
    ensures Execute(env, t, plan) == Trail(Effects(plan), Ok(()))
    decreases |plan|
  {
    if plan != [] {
      assert plan[0] in plan;
      assert NoFail(plan[1..]) && Unchecked(plan[1..]) by {
        forall a | a in plan[1..] ensures !a.Fail? && !a.Check? { assert a in plan; }
      }
      var first := Step(env, t, plan[0]);
      assert first.result.Ok?;
      UncheckedCompletes(env, t + first.issued, plan[1..]);
    }
  }

  /** Launching each program in turn, with `.status()?`. */
  function Launches(cmds: seq<Effect>): (plan: seq<Action>)
    ensures |plan| == |cmds|
    ensures forall k :: 0 <= k < |cmds| ==> plan[k] == Launch(cmds[k])
    ensures LaunchOnly(plan)
  {
    seq(|cmds|, k requires 0 <= k < |cmds| => Launch(cmds[k]))
  }

  /** Launching programs in turn issues exactly those programs. */
  lemma {:induction false} EffectsLaunches(cmds: seq<Effect>)
    ensures Effects(Launches(cmds)) == cmds
    decreases |cmds|
  {
    if cmds != [] {
      assert Launches(cmds)[1..] == Launches(cmds[1..]);
      EffectsLaunches(cmds[1..]);
    }
  }

  /** Performing each operation in turn, each with `?`. */
  function Performs(ops: seq<Effect>): (plan: seq<Action>)
    ensures |plan| == |ops|
    ensures forall k :: 0 <= k < |ops| ==> plan[k] == Perform(ops[k])
    ensures NoFail(plan) && Unchecked(plan)
  {
    seq(|ops|, k requires 0 <= k < |ops| => Perform(ops[k]))
  }

  /** Performing operations in turn issues exactly those operations. */
  lemma {:induction false} EffectsPerforms(ops: seq<Effect>)
    ensures Effects(Performs(ops)) == ops
    decreases |ops|
  {
    if ops != [] {
      assert Performs(ops)[1..] == Performs(ops[1..]);
      EffectsPerforms(ops[1..]);
    }
  }

  lemma NoFailAppend(p: seq<Action>, q: seq<Action>)
    requires NoFail(p) && NoFail(q)
    ensures NoFail(p + q)
  {
    forall a | a in p + q ensures !a.Fail? {
      if a in p { } else { assert a in q; }
    }
  }

  lemma UncheckedAppend(p: seq<Action>, q: seq<Action>)
    requires Unchecked(p) && Unchecked(q)
    ensures Unchecked(p + q)
  {
    forall a | a in p + q ensures !a.Check? {
      if a in p { } else { assert a in q; }
    }
  }

  /** Five stages run one after another issue their effects in turn, and keep NoFail and Unchecked. */
  lemma FiveStages(p0: seq<Action>, p1: seq<Action>, p2: seq<Action>, p3: seq<Action>, p4: seq<Action>)
    ensures Effects(p0 + p1 + p2 + p3 + p4)
            == Effects(p0) + Effects(p1) + Effects(p2) + Effects(p3) + Effects(p4)
    ensures NoFail(p0) && NoFail(p1) && NoFail(p2) && NoFail(p3) && NoFail(p4)
            ==> NoFail(p0 + p1 + p2 + p3 + p4)
    ensures Unchecked(p0) && Unchecked(p1) && Unchecked(p2) && Unchecked(p3) && Unchecked(p4)
            ==> Unchecked(p0 + p1 + p2 + p3 + p4)
  {
    EffectsAppend(p0, p1);
    EffectsAppend(p0 + p1, p2);
    EffectsAppend(p0 + p1 + p2, p3);
    EffectsAppend(p0 + p1 + p2 + p3, p4);
    if NoFail(p0) && NoFail(p1) && NoFail(p2) && NoFail(p3) && NoFail(p4) {
      NoFailAppend(p0, p1);
      NoFailAppend(p0 + p1, p2);
      NoFailAppend(p0 + p1 + p2, p3);
      NoFailAppend(p0 + p1 + p2 + p3, p4);
    }
    if Unchecked(p0) && Unchecked(p1) && Unchecked(p2) && Unchecked(p3) && Unchecked(p4) {
      UncheckedAppend(p0, p1);
      UncheckedAppend(p0 + p1, p2);
      UncheckedAppend(p0 + p1 + p2, p3);
      UncheckedAppend(p0 + p1 + p2 + p3, p4);
    }
  }

  /**
   * A plan with no Check action never looks at an exit status: environments
   * that differ only in exit codes and output give the same run.
   */
  lemma {:induction false} StatusIgnored(env1: Env, env2: Env, t: seq<Effect>, plan: seq<Action>)
    requires SameLaunches(env1, env2)
    requires Unchecked(plan)
    ensures Execute(env1, t, plan) == Execute(env2, t, plan)
    decreases |plan|
  {
    if plan != [] {
      assert plan[0] in plan;
      assert Unchecked(plan[1..]) by {
        forall a | a in plan[1..] ensures !a.Check? { assert a in plan; }
      }
      var s1 := Step(env1, t, plan[0]);
      var s2 := Step(env2, t, plan[0]);
      if plan[0].Launch? {
        var c := plan[0].cmd;
        assert env1.spawn(t + [c]).SpawnError? == env2.spawn(t + [c]).SpawnError?;
      } else if plan[0].Perform? {
        var e := plan[0].op;
        assert env1.io(t + [e]) == env2.io(t + [e]);
      }
      assert s1 == s2;
      StatusIgnored(env1, env2, t + s1.issued, plan[1..]);
    }
  }

  /** The executor: a trace of effects and the oracle that answers them. */
  class Shell {
    const env: Env
    var trace: seq<Effect>

    constructor (env: Env)
      ensures this.env == env && trace == []
    {
      this.env := env;
      trace := [];
    }

    /** Launches a program and waits for it. */
    method Run(c: Effect) returns (o: Outcome)
      requires c.Cmd?
      modifies this
      ensures trace == old(trace) + [c]
      ensures o == env.spawn(trace)
    {
      trace := trace + [c];
      o := env.spawn(trace);
    }

    /** Launches a program and keeps only whether it could be launched: `.status()?`, `.output()?`. */
    method Status(c: Effect) returns (r: Result<()>)
      requires c.Cmd?
      modifies this
      ensures trace == old(trace) + [c]
      ensures r == Step(env, old(trace), Launch(c)).result
    {
      var o := Run(c);
      r := if o.SpawnError? then Err(SpawnFailed) else Ok(());
    }

    /** Performs a filesystem operation or calls a routine outside the model, with `?`. */
    method Attempt(e: Effect) returns (r: Result<()>)
      requires !e.Cmd? && !e.ReadDir?
      modifies this
      ensures trace == old(trace) + [e]
      ensures r == Step(env, old(trace), Action.Perform(e)).result
    {
      var ok := Perform(e);
      r := if ok then Ok(()) else Err(OpError(e));
    }

    /**
     * Attempt as step i of a run of file operations that has got that far:
     * the run has then reached step i + 1, or stopped here for good.
     */
    method AttemptStep(ghost t0: seq<Effect>, ghost ops: seq<Effect>, ghost i: nat, e: Effect) returns (r: Result<()>)
      requires i < |ops| && ops[i] == e && !e.Cmd? && !e.ReadDir?
      requires trace == t0 + Execute(env, t0, Performs(ops)[..i]).issued
      requires Execute(env, t0, Performs(ops)[..i]).result.Ok?
      modifies this
      ensures Ran(t0, Performs(ops)[..i + 1], r)
      ensures r.Err? ==> Ran(t0, Performs(ops), r)
      ensures i + 1 == |ops| ==> Ran(t0, Performs(ops), r)
    {
      ghost var t1 := trace;
      r := Attempt(e);
      AdvancePerforms(env, t0, ops, i, t1, trace, r);
    }

    /** Status as step i of a run of launches that has got that far. */
    method StatusStep(ghost t0: seq<Effect>, ghost cmds: seq<Effect>, ghost i: nat, c: Effect) returns (r: Result<()>)
      requires i < |cmds| && cmds[i] == c && c.Cmd?
      requires trace == t0 + Execute(env, t0, Launches(cmds)[..i]).issued
      requires Execute(env, t0, Launches(cmds)[..i]).result.Ok?
      modifies this
      ensures Ran(t0, Launches(cmds)[..i + 1], r)
      ensures r.Err? ==> Ran(t0, Launches(cmds), r)
      ensures i + 1 == |cmds| ==> Ran(t0, Launches(cmds), r)
    {
      ghost var t1 := trace;
      r := Status(c);
      AdvanceLaunches(env, t0, cmds, i, t1, trace, r);
    }

    /** Performs a filesystem operation or calls a routine outside the model. */
    method Perform(e: Effect) returns (ok: bool)
      requires !e.Cmd? && !e.ReadDir?
      modifies this
      ensures trace == old(trace) + [e]
      ensures ok == env.io(trace)
    {
      trace := trace + [e];
      ok := env.io(trace);
    }

    /** Reads a directory: the names of its entries, or None when it cannot be read. */
    method ListDir(path: string) returns (names: Option<seq<string>>)
      modifies this
      ensures trace == old(trace) + [ReadDir(path)]
      ensures names == if env.io(trace) then Some(env.listing(trace)) else None
    {
      trace := trace + [ReadDir(path)];
      names := if env.io(trace) then Some(env.listing(trace)) else None;
    }

    /** Since trace t0, exactly the given plan has run, with result r. */
    ghost predicate Ran(t0: seq<Effect>, plan: seq<Action>, r: Result<()>)
      reads this
    {
      var run := Execute(env, t0, plan);
      trace == t0 + run.issued && r == run.result
    }
  }

  /** Gluing: a plan that succeeded followed by a second plan is their concatenation. */
  lemma RanSeq(env: Env, t0: seq<Effect>, p: seq<Action>, t1: seq<Effect>, q: seq<Action>, t2: seq<Effect>, r: Result<()>)
    requires t1 == t0 + Execute(env, t0, p).issued && Execute(env, t0, p).result.Ok?
    requires t2 == t1 + Execute(env, t1, q).issued && r == Execute(env, t1, q).result
    ensures t2 == t0 + Execute(env, t0, p + q).issued && r == Execute(env, t0, p + q).result
  {
    var rp := Execute(env, t0, p);
    var rq := Execute(env, t1, q);
    ExecuteAppend(env, t0, p, q);
    AppendAssoc(t0, rp.issued, rq.issued);
  }

  /** Gluing: a plan that failed, followed by anything, is the same run. */
  lemma RanStop(env: Env, t0: seq<Effect>, p: seq<Action>, q: seq<Action>, t1: seq<Effect>, r: Result<()>)
    requires t1 == t0 + Execute(env, t0, p).issued && r == Execute(env, t0, p).result && r.Err?
    ensures t1 == t0 + Execute(env, t0, p + q).issued && r == Execute(env, t0, p + q).result
  {
    ExecuteStops(env, t0, p, q);
  }
}
