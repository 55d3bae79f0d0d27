/** The release run: the token check, the decision, the two manifest rewrites around the
    version bump, the commit, the three pushes and the publish. */
module Release {
  import opened Text
  import opened Bump
  import opened Decision

  /** A package manifest as its top-level fields; the run only ever rewrites "version". */
  type Manifest = map<string, string>

  /** The fixed inputs of one run: environment variables, the two directories and what the
      deploy manifest said when the script started. */
  datatype Config = Config(
    authToken: Option<string>,          // NPM_AUTH_TOKEN
    sha: Option<string>,                // GITHUB_SHA
    actor: Option<string>,              // GITHUB_ACTOR
    githubToken: Option<string>,        // GITHUB_TOKEN
    repository: Option<string>,         // GITHUB_REPOSITORY
    srcDir: string,                     // the working directory joined with SRC_PACKAGE_DIR
    deployDir: string,                  // the working directory joined with DEPLOY_DIR
    name: string,                       // pkg.name
    publishScript: Option<string>,      // pkg.scripts.publish
    eventCommits: Option<seq<Commit>>)  // event.commits

  /** What `execSync` sees of a child: it throws unless the status is 0. */
  datatype Completion = Completion(status: int, stdout: string)

  /** How a child started by `runInWorkspace` ends: with an exit code, or with an 'error' event. */
  datatype ChildResult = ChildExit(code: int) | ChildError

  /** The `status` that `spawnSync` reports; `null` when the child was signalled or never started. */
  datatype SpawnStatus = Status(code: int) | NoStatus

  /** Every collaborator result one run can observe. */
  datatype World = World(
    registry: Registry,
    log: LogLookup,
    view: Completion,                // npm view <name> version
    bump: Completion,                // npm version --git-tag-version=false <level>
    commit: ChildResult,
    pushFollowTags: ChildResult,
    pushTags: ChildResult,
    push: ChildResult,
    publish: SpawnStatus)

  /** An externally visible step, recorded when it starts. */
  datatype Step =
    | RegistryGet(path: string)
    | GitLog(from: string, to: Option<string>)
    | Query(command: string, cwd: string)                    // execSync whose output is used
    | Write(dir: string, version: string)                    // jq '.version="…"', written back
    | Git(args: seq<string>)                                 // git in the src directory
    | Spawn(command: string, args: seq<string>, cwd: string) // exec

  /** How a run ends: the missing-token error, the skip, an escaped exception or rejection, a
      `process.exit` with the child's status, or falling off the end. */
  datatype Outcome = MissingToken | Skipped | Rejected | Exit(status: int) | Finished

  /** One planned step and whether it succeeds, so that the run goes on past it. */
  datatype Attempt = Attempt(step: Step, ok: bool)

  /** The lookups made before the decision: the registry always; the log only for a usable
      `gitHead` that is not the current SHA. */
  function Lookups(cfg: Config, registry: Registry): (s: seq<Step>)
    ensures |s| >= 1 && s[0] == RegistryGet(cfg.name + "/latest")
    ensures 1 <= |s| <= 2
    ensures forall k :: 1 <= k < |s| ==>
              registry.Latest? && Truthy(registry.gitHead) && s[k] == GitLog(registry.gitHead.value, cfg.sha)
    ensures (exists h :: GitLog(h, cfg.sha) in s) <==>
              registry.Latest? && registry.gitHead != cfg.sha && Truthy(registry.gitHead)
  {
    [RegistryGet(cfg.name + "/latest")] +
    (if registry.Latest? && registry.gitHead != cfg.sha && Truthy(registry.gitHead)
     then [GitLog(registry.gitHead.value, cfg.sha)] else [])
  }

  function ViewCommand(name: string): string {
    "npm view " + name + " version"
  }

  function VersionCommand(l: Level): string {
    "npm version --git-tag-version=false " + LevelName(l)
  }

  /** The token-embedded remote; an unset variable reads "undefined" in the template. */
  function Remote(cfg: Config): string {
    "https://" + Interpolate(cfg.actor) + ":" + Interpolate(cfg.githubToken) + "@github.com/" +
    Interpolate(cfg.repository) + ".git"
  }

  const CommitArgs: seq<string> := ["commit", "-a", "-m", "t"]

  /** `npm run publish` when the manifest read at start-up has a truthy publish script. */
  function PublishCommand(cfg: Config): string {
    if Truthy(cfg.publishScript) then "npm run publish" else "npm publish"
  }

  /** `exec`'s `const [cmd, ...args] = str.split(' ')`. */
  function CommandLine(str: string, cwd: string): Step {
    var parts := Split(str);
    Spawn(parts[0], parts[1..], cwd)
  }

  /** `exec` splits its command on single spaces: the pieces, rejoined, are the command again. */
  lemma CommandLineRejoins(str: string, cwd: string)
    ensures var s := CommandLine(str, cwd);
            s.Spawn? && s.cwd == cwd && ' ' !in s.command && Join([s.command] + s.args) == str
  {
    var parts := Split(str);
    JoinSplit(str);
    assert [parts[0]] + parts[1..] == parts;
  }

  /** The publish step runs `npm` with `run publish` or with `publish`, in the deploy directory. */
  lemma PublishCommandLine(cfg: Config)
    ensures CommandLine(PublishCommand(cfg), cfg.deployDir) ==
            if Truthy(cfg.publishScript) then Spawn("npm", ["run", "publish"], cfg.deployDir)
            else Spawn("npm", ["publish"], cfg.deployDir)
  {
    var long := ["npm", "run", "publish"];
    var short := ["npm", "publish"];
    assert Join(long[2..]) == "publish";
    assert Join(long[1..]) == "run publish";
    assert Join(long) == "npm run publish";
    assert Join(short[1..]) == "publish";
    assert Join(short) == "npm publish";
    assert ' ' !in "npm" && ' ' !in "run" && ' ' !in "publish";
    SplitJoin(long);
    SplitJoin(short);
  }

  /** `if (ret.status) process.exit(ret.status)`: only a non-null, non-zero status exits. */
  function ExitStatus(s: SpawnStatus): (e: Option<int>)
    ensures e.Some? <==> s.Status? && s.code != 0
    ensures e.Some? ==> e.value == s.code
  {
    match s
    case Status(code) => if code != 0 then Some(code) else None
    case NoStatus => None
  }

  /** The `npm version` output with every carriage return and line feed removed and the first
      character (the "v") dropped. */
  function NormalizedVersion(out: string): (v: string)
    ensures v == (var t := WithoutLineBreaks(out); if t == [] then [] else t[1..])
    ensures forall k :: 0 <= k < |v| ==> !IsLineBreak(v[k])
  {
    ReplaceRemovesLineBreaks(out);
    var t := ReplaceLineBreaks(out);
    if |t| == 0 then "" else t[1..]
  }

  /** "v" followed by the version and a line ending normalises to the version. */
  lemma NormalizedVersionOf(x: string, eol: string)
    requires forall k :: 0 <= k < |x| ==> !IsLineBreak(x[k])
    requires forall k :: 0 <= k < |eol| ==> IsLineBreak(eol[k])
    ensures NormalizedVersion("v" + x + eol) == x
  {
    WithoutLineBreaksConcat("v" + x, eol);
    WithoutLineBreaksConcat("v", x);
    WithoutLineBreaksExtremes(x);
    WithoutLineBreaksExtremes(eol);
    assert WithoutLineBreaks("v") == "v";
    assert WithoutLineBreaks("v" + x + eol) == "v" + x;
  }

  /** A manifest `b` that differs from `a` at most in its "version" field. */
  predicate OnlyVersionChanged(a: Manifest, b: Manifest) {
    b == a || ("version" in b && b == a["version" := b["version"]])
  }

  /** The effect of one step on the manifests by directory: a write whose jq finds a
      manifest sets its "version". No other step changes the model's manifests; the rewrite
      of the src `package.json` that `npm version` itself makes is not modelled, since the
      write that follows it sets the same field. */
  function ApplyStep(m: map<string, Manifest>, s: Step): map<string, Manifest> {
    if s.Write? && s.dir in m then m[s.dir := m[s.dir]["version" := s.version]] else m
  }

  function ApplySteps(m: map<string, Manifest>, steps: seq<Step>): map<string, Manifest>
    decreases |steps|
  {
    if steps == [] then m else ApplySteps(ApplyStep(m, steps[0]), steps[1..])
  }

  /** Any sequence of steps keeps the same manifests and changes nothing but their "version". */
  lemma {:induction false} OnlyVersionWritten(m: map<string, Manifest>, steps: seq<Step>)
    ensures ApplySteps(m, steps).Keys == m.Keys
    ensures forall d :: d in m ==> OnlyVersionChanged(m[d], ApplySteps(m, steps)[d])
    decreases |steps|
  {
    if steps != [] {
      var m1 := ApplyStep(m, steps[0]);
      OnlyVersionWritten(m1, steps[1..]);
      forall d | d in m
        ensures OnlyVersionChanged(m[d], ApplySteps(m, steps)[d])
      {
        var b := ApplySteps(m, steps)[d];
        if b != m1[d] {
          assert b == m1[d]["version" := b["version"]];
          if m1[d] != m[d] {
            assert m1[d] == m[d]["version" := steps[0].version];
            assert b == m[d]["version" := b["version"]];
          }
        }
      }
    }
  }

  /** Applying two batches of steps one after the other. */
  lemma {:induction false} ApplyStepsConcat(m: map<string, Manifest>, a: seq<Step>, b: seq<Step>)
    ensures ApplySteps(m, a + b) == ApplySteps(ApplySteps(m, a), b)
    decreases |a|
  {
    if a == [] {
      assert a + b == b;
    } else {
      assert (a + b)[1..] == a[1..] + b;
      ApplyStepsConcat(ApplyStep(m, a[0]), a[1..], b);
    }
  }

  /** Steps that write nothing leave the manifests alone. */
  lemma {:induction false} ApplyStepsNoWrites(m: map<string, Manifest>, steps: seq<Step>)
    requires forall k :: 0 <= k < |steps| ==> !steps[k].Write?
    ensures ApplySteps(m, steps) == m
    decreases |steps|
  {
    if steps != [] {
      ApplyStepsNoWrites(m, steps[1..]);
    }
  }

  predicate AllOk(p: seq<Attempt>) {
    forall i :: 0 <= i < |p| ==> p[i].ok
  }

  lemma AllOkCons(p: seq<Attempt>)
    requires p != []
    ensures AllOk(p) <==> p[0].ok && AllOk(p[1..])
  {
    if p[0].ok && AllOk(p[1..]) {
      forall i | 0 <= i < |p| ensures p[i].ok {
        if i > 0 {
          assert p[1..][i - 1] == p[i];
        }
      }
    }
  }

  function StepsOf(p: seq<Attempt>): seq<Step>
    decreases |p|
  {
    if p == [] then [] else [p[0].step] + StepsOf(p[1..])
  }

  /** The attempts actually made: all of them, or those up to and including the first failing
      one, after which nothing more runs. */
  function UpToFailure(p: seq<Attempt>): seq<Attempt>
    decreases |p|
  {
    if p == [] then []
    else if !p[0].ok then [p[0]]
    else [p[0]] + UpToFailure(p[1..])
  }

  /** The attempts made are a prefix of the plan. */
  lemma {:induction false} MadePrefix(p: seq<Attempt>)
    ensures |UpToFailure(p)| <= |p| && UpToFailure(p) == p[..|UpToFailure(p)|]
    decreases |p|
  {
    if p != [] && p[0].ok {
      MadePrefix(p[1..]);
      var r := UpToFailure(p[1..]);
      assert UpToFailure(p) == [p[0]] + r;
      assert p[..|r| + 1] == [p[0]] + p[1..][..|r|];
    }
  }

  /** Every attempt made succeeds except possibly the last; the last fails exactly when some
      attempt of the plan fails, and otherwise the whole plan is made. */
  lemma {:induction false} MadeOk(p: seq<Attempt>)
    ensures var r := UpToFailure(p);
            && (forall i :: 0 <= i < |r| - 1 ==> r[i].ok)
            && (AllOk(p) ==> r == p)
            && (!AllOk(p) ==> |r| > 0 && !r[|r| - 1].ok)
    decreases |p|
  {
    if p != [] {
      AllOkCons(p);
      if p[0].ok {
        MadeOk(p[1..]);
        var r := UpToFailure(p[1..]);
        assert UpToFailure(p) == [p[0]] + r;
        assert [p[0]] + p[1..] == p;
      }
    }
  }

  /** A run makes every attempt when all succeed; otherwise it stops right after the first
      failing one. */
  lemma FatalStop(p: seq<Attempt>)
    ensures var r := UpToFailure(p);
            && |r| <= |p|
            && r == p[..|r|]
            && (forall i :: 0 <= i < |r| - 1 ==> r[i].ok)
            && (AllOk(p) <==> r == p && AllOk(r))
            && (!AllOk(p) ==> |r| > 0 && !r[|r| - 1].ok)
  {
    MadePrefix(p);
    MadeOk(p);
  }

  lemma {:induction false} StepsOfConcat(a: seq<Attempt>, b: seq<Attempt>)
    ensures StepsOf(a + b) == StepsOf(a) + StepsOf(b)
    decreases |a|
  {
    if a == [] {
      assert a + b == b;
    } else {
      assert (a + b)[1..] == a[1..] + b;
      StepsOfConcat(a[1..], b);
    }
  }

  lemma {:induction false} StepsOfIndex(p: seq<Attempt>)
    ensures |StepsOf(p)| == |p|
    ensures forall i :: 0 <= i < |p| ==> StepsOf(p)[i] == p[i].step
    decreases |p|
  {
    if p != [] {
      StepsOfIndex(p[1..]);
    }
  }

  /** One attempt on its own is made whether or not it succeeds. */
  lemma Single(m: map<string, Manifest>, a: Attempt)
    ensures UpToFailure([a]) == [a] && StepsOf([a]) == [a.step]
    ensures AllOk([a]) <==> a.ok
    ensures ApplySteps(m, [a.step]) == ApplyStep(m, a.step)
  {
    assert [a][1..] == [];
    assert [a.step][1..] == [];
  }

  /** After a prefix that succeeds entirely, the run goes on with the rest. */
  lemma {:induction false} PrefixOk(a: seq<Attempt>, b: seq<Attempt>)
    ensures AllOk(a) ==> UpToFailure(a + b) == a + UpToFailure(b)
    ensures !AllOk(a) ==> UpToFailure(a + b) == UpToFailure(a)
    ensures AllOk(a + b) <==> AllOk(a) && AllOk(b)
    decreases |a|
  {
    if a == [] {
      assert a + b == b;
    } else {
      assert (a + b)[1..] == a[1..] + b;
      PrefixOk(a[1..], b);
      AllOkCons(a);
      AllOkCons(a + b);
      if a[0].ok && AllOk(a[1..]) {
        assert [a[0]] + (a[1..] + UpToFailure(b)) == a + UpToFailure(b);
      }
    }
  }

  /** From trace `t0` and manifests `m0`, making the attempts of `planned` that are made leads to
      trace `t1` and manifests `m1`. */
  ghost predicate Reaches(t0: seq<Step>, m0: map<string, Manifest>, planned: seq<Attempt>,
                          t1: seq<Step>, m1: map<string, Manifest>)
  {
    && t1 == t0 + StepsOf(UpToFailure(planned))
    && m1 == ApplySteps(m0, StepsOf(UpToFailure(planned)))
  }

  lemma Once(t0: seq<Step>, m0: map<string, Manifest>, a: Attempt, t1: seq<Step>, m1: map<string, Manifest>)
    requires t1 == t0 + [a.step] && m1 == ApplyStep(m0, a.step)
    ensures Reaches(t0, m0, [a], t1, m1) && (AllOk([a]) <==> a.ok)
  {
    Single(m0, a);
  }

  /** Sequence concatenation is associative. Stated on its own so that `Then` does not ask the
      solver to prove it by extensionality among all of `Then`'s other facts. */
  lemma AppendAssociates(x: seq<Step>, y: seq<Step>, z: seq<Step>)
    ensures (x + y) + z == x + (y + z)
  {
  }

  /** The attempts made of `a + b`: those of `a`, and those of `b` only when all of `a` succeeded. */
  lemma MadeSteps(a: seq<Attempt>, b: seq<Attempt>)
    ensures AllOk(a + b) <==> AllOk(a) && AllOk(b)
    ensures !AllOk(a) ==> UpToFailure(a + b) == UpToFailure(a)
    ensures AllOk(a) ==> StepsOf(UpToFailure(a + b)) == StepsOf(UpToFailure(a)) + StepsOf(UpToFailure(b))
  {
    PrefixOk(a, b);
    if AllOk(a) {
      FatalStop(a);
      StepsOfConcat(a, UpToFailure(b));
    }
  }

  /** Making `a`, and `b` only when all of `a` succeeded, is making `a + b`. */
  lemma Then(t0: seq<Step>, m0: map<string, Manifest>, a: seq<Attempt>, b: seq<Attempt>,
             t1: seq<Step>, m1: map<string, Manifest>, t2: seq<Step>, m2: map<string, Manifest>)
    requires Reaches(t0, m0, a, t1, m1)
    requires AllOk(a) ==> Reaches(t1, m1, b, t2, m2)
    requires !AllOk(a) ==> t2 == t1 && m2 == m1
    ensures Reaches(t0, m0, a + b, t2, m2)
    ensures AllOk(a + b) <==> AllOk(a) && AllOk(b)
  {
    MadeSteps(a, b);
    if AllOk(a) {
      var ra, rb := StepsOf(UpToFailure(a)), StepsOf(UpToFailure(b));
      AppendAssociates(t0, ra, rb);
      ApplyStepsConcat(m0, ra, rb);
    }
  }

  /** `setVersion(v)`: the src manifest, then the deploy manifest when `deployDir !== './'`;
      a write succeeds when its directory has a manifest. */
  function Writes(cfg: Config, dirs: set<string>, version: string): seq<Attempt> {
    [Attempt(Write(cfg.srcDir, version), cfg.srcDir in dirs)] +
    (if cfg.deployDir != "./" then [Attempt(Write(cfg.deployDir, version), cfg.deployDir in dirs)] else [])
  }

  /** The steps of lines 81-86: read the published version, write it, bump, write the result. */
  function Bumping(cfg: Config, w: World, dirs: set<string>, level: Level): seq<Attempt> {
    [Attempt(Query(ViewCommand(cfg.name), cfg.srcDir), w.view.status == 0)] +
    (Writes(cfg, dirs, w.view.stdout) +
    ([Attempt(Query(VersionCommand(level), cfg.srcDir), w.bump.status == 0)] +
    Writes(cfg, dirs, NormalizedVersion(w.bump.stdout))))
  }

  /** The three pushes of lines 91-93 to the token-embedded remote. */
  function Pushes(remote: string, w: World): seq<Attempt> {
    [Attempt(Git(["push", remote, "--follow-tags"]), w.pushFollowTags == ChildExit(0)),
     Attempt(Git(["push", remote, "--tags"]), w.pushTags == ChildExit(0)),
     Attempt(Git(["push", remote]), w.push == ChildExit(0))]
  }

  /** The steps of lines 89-99: the commit, the three pushes and the publish. */
  function Tail(cfg: Config, w: World): seq<Attempt> {
    [Attempt(Git(CommitArgs), w.commit == ChildExit(0))] +
    (Pushes(Remote(cfg), w) + [Attempt(CommandLine(PublishCommand(cfg), cfg.deployDir), true)])
  }

  /** Every step after the decision, in the order `run` starts them, with whether each succeeds
      (`dirs` holds the directories that have a manifest). */
  function Plan(cfg: Config, w: World, dirs: set<string>, level: Level): seq<Attempt> {
    Bumping(cfg, w, dirs, level) + Tail(cfg, w)
  }

  /** How a run that got past the decision ends. */
  function Concluded(plan: seq<Attempt>, w: World): Outcome {
    if !AllOk(plan) then Rejected
    else if ExitStatus(w.publish).Some? then Exit(ExitStatus(w.publish).value)
    else Finished
  }

  predicate Absolute(path: string) {
    |path| > 0 && path[0] == '/'
  }

  /** The deploy directory is the absolute working directory joined with a relative one, so the
      `deployDir !== './'` test always passes and the deploy manifest is written every time,
      even when it is the src manifest. */
  lemma DeployAlwaysWritten(cfg: Config, dirs: set<string>, version: string)
    requires Absolute(cfg.deployDir)
    ensures StepsOf(Writes(cfg, dirs, version)) == [Write(cfg.srcDir, version), Write(cfg.deployDir, version)]
  {
    assert cfg.deployDir[0] != "./"[0];
    var a := Attempt(Write(cfg.srcDir, version), cfg.srcDir in dirs);
    var b := Attempt(Write(cfg.deployDir, version), cfg.deployDir in dirs);
    assert Writes(cfg, dirs, version) == [a] + [b];
    Single(map[], b);
    StepsOfConcat([a], [b]);
    Single(map[], a);
  }

  /** The two writes of one `setVersion` leave both manifests with that version, also when the
      two directories are the same. */
  lemma BothWritten(m: map<string, Manifest>, src: string, deploy: string, version: string)
    requires src in m && deploy in m
    ensures var after := ApplySteps(m, [Write(src, version), Write(deploy, version)]);
            && after.Keys == m.Keys
            && "version" in after[src] && after[src]["version"] == version
            && "version" in after[deploy] && after[deploy]["version"] == version
  {
    var s := [Write(src, version), Write(deploy, version)];
    var m1 := ApplyStep(m, s[0]);
    assert s[1..] == [Write(deploy, version)];
    assert ApplySteps(m, s) == ApplySteps(m1, s[1..]);
    Single(m1, Attempt(Write(deploy, version), true));
  }

  /** The bump phase, when it all goes through, leaves the src and deploy manifests with the
      normalised new version and no other manifest added or removed. */
  lemma BumpingSynchronizes(cfg: Config, w: World, m: map<string, Manifest>, level: Level)
    requires Absolute(cfg.deployDir)
    requires w.view.status == 0 && w.bump.status == 0
    requires cfg.srcDir in m && cfg.deployDir in m
    ensures AllOk(Bumping(cfg, w, m.Keys, level))
    ensures var after := ApplySteps(m, StepsOf(Bumping(cfg, w, m.Keys, level)));
            && after.Keys == m.Keys
            && "version" in after[cfg.srcDir] && "version" in after[cfg.deployDir]
            && after[cfg.srcDir]["version"] == NormalizedVersion(w.bump.stdout)
            && after[cfg.deployDir]["version"] == NormalizedVersion(w.bump.stdout)
  {
    var v1 := NormalizedVersion(w.bump.stdout);
    var w0 := Writes(cfg, m.Keys, w.view.stdout);
    var w1 := Writes(cfg, m.Keys, v1);
    var aView := Attempt(Query(ViewCommand(cfg.name), cfg.srcDir), true);
    var aBump := Attempt(Query(VersionCommand(level), cfg.srcDir), true);
    assert cfg.deployDir[0] != "./"[0];
    assert AllOk(w0) && AllOk(w1);
    var front := [aView] + w0 + [aBump];
    assert AllOk(front);
    assert Bumping(cfg, w, m.Keys, level) == front + w1;
    PrefixOk(front, w1);
    StepsOfConcat(front, w1);
    ApplyStepsConcat(m, StepsOf(front), StepsOf(w1));
    var m1 := ApplySteps(m, StepsOf(front));
    OnlyVersionWritten(m, StepsOf(front));
    DeployAlwaysWritten(cfg, m.Keys, v1);
    BothWritten(m1, cfg.srcDir, cfg.deployDir, v1);
  }

  /** Once the bump and both rewrites have gone through, the src and deploy manifests carry the
      same normalised version, whatever the commit, the pushes and the publish do. */
  lemma SynchronizedAfterBump(cfg: Config, w: World, m: map<string, Manifest>, level: Level)
    requires Absolute(cfg.deployDir)
    requires w.view.status == 0 && w.bump.status == 0
    requires cfg.srcDir in m && cfg.deployDir in m
    ensures var after := ApplySteps(m, StepsOf(UpToFailure(Plan(cfg, w, m.Keys, level))));
            && after.Keys == m.Keys
            && "version" in after[cfg.srcDir] && "version" in after[cfg.deployDir]
            && after[cfg.srcDir]["version"] == NormalizedVersion(w.bump.stdout)
            && after[cfg.deployDir]["version"] == NormalizedVersion(w.bump.stdout)
  {
    var bumping := Bumping(cfg, w, m.Keys, level);
    var tail := Tail(cfg, w);
    BumpingSynchronizes(cfg, w, m, level);
    FatalStop(bumping);
    MadeSteps(bumping, tail);
    var ra, rb := StepsOf(bumping), StepsOf(UpToFailure(tail));
    ApplyStepsConcat(m, ra, rb);
    TailWritesNothing(cfg, w, ApplySteps(m, ra));
  }

  /** The commit, the pushes and the publish never touch a manifest, however far they get. */
  lemma TailWritesNothing(cfg: Config, w: World, m: map<string, Manifest>)
    ensures ApplySteps(m, StepsOf(UpToFailure(Tail(cfg, w)))) == m
  {
    var tail := Tail(cfg, w);
    var ran := UpToFailure(tail);
    FatalStop(tail);
    StepsOfIndex(ran);
    assert forall k :: 0 <= k < |tail| ==> !tail[k].step.Write?;
    assert forall k :: 0 <= k < |ran| ==> ran[k] == tail[k];
    ApplyStepsNoWrites(m, StepsOf(ran));
  }

  /** The bump phase: the version query, both writes of the published version, the bump, and
      both writes of the new version. */
  lemma BumpingSteps(cfg: Config, w: World, dirs: set<string>, level: Level)
    requires Absolute(cfg.deployDir)
    ensures var v0, v1 := w.view.stdout, NormalizedVersion(w.bump.stdout);
            StepsOf(Bumping(cfg, w, dirs, level)) ==
            [Query(ViewCommand(cfg.name), cfg.srcDir), Write(cfg.srcDir, v0), Write(cfg.deployDir, v0),
             Query(VersionCommand(level), cfg.srcDir), Write(cfg.srcDir, v1), Write(cfg.deployDir, v1)]
  {
    assert cfg.deployDir[0] != "./"[0];
    var bumping := Bumping(cfg, w, dirs, level);
    assert |bumping| == 6;
    StepsOfIndex(bumping);
  }

  /** The last phase: the commit, the three pushes and the publish. */
  lemma TailSteps(cfg: Config, w: World)
    ensures StepsOf(Tail(cfg, w)) ==
            [Git(CommitArgs), Git(["push", Remote(cfg), "--follow-tags"]), Git(["push", Remote(cfg), "--tags"]),
             Git(["push", Remote(cfg)]), CommandLine(PublishCommand(cfg), cfg.deployDir)]
  {
    var tail := Tail(cfg, w);
    assert |tail| == 5;
    StepsOfIndex(tail);
  }

  /** When every step succeeds the run makes, in this order: the version query, both writes of
      the published version, the bump, both writes of the new version, the commit, the three
      pushes and the publish. */
  lemma SuccessfulRunSteps(cfg: Config, w: World, dirs: set<string>, level: Level)
    requires Absolute(cfg.deployDir)
    requires AllOk(Plan(cfg, w, dirs, level))
    ensures var v0, v1 := w.view.stdout, NormalizedVersion(w.bump.stdout);
            StepsOf(UpToFailure(Plan(cfg, w, dirs, level))) ==
            [Query(ViewCommand(cfg.name), cfg.srcDir), Write(cfg.srcDir, v0), Write(cfg.deployDir, v0),
             Query(VersionCommand(level), cfg.srcDir), Write(cfg.srcDir, v1), Write(cfg.deployDir, v1),
             Git(CommitArgs), Git(["push", Remote(cfg), "--follow-tags"]), Git(["push", Remote(cfg), "--tags"]),
             Git(["push", Remote(cfg)]), CommandLine(PublishCommand(cfg), cfg.deployDir)]
  {
    var bumping, tail := Bumping(cfg, w, dirs, level), Tail(cfg, w);
    FatalStop(bumping + tail);
    StepsOfConcat(bumping, tail);
    BumpingSteps(cfg, w, dirs, level);
    TailSteps(cfg, w);
  }

  /** The bump phase spawns nothing: its steps are queries and manifest writes. */
  lemma BumpingSpawnsNothing(cfg: Config, w: World, dirs: set<string>, level: Level)
    ensures var bumping := Bumping(cfg, w, dirs, level);
            forall k :: 0 <= k < |bumping| ==> bumping[k].step.Query? || bumping[k].step.Write?
  {
    var w0, w1 := Writes(cfg, dirs, w.view.stdout), Writes(cfg, dirs, NormalizedVersion(w.bump.stdout));
    assert forall k :: 0 <= k < |w0| ==> w0[k].step.Write?;
    assert forall k :: 0 <= k < |w1| ==> w1[k].step.Write?;
  }

  /** The last planned step is the publish: it is the only step that spawns a command, and it
      never fails. */
  lemma PublishIsLast(cfg: Config, w: World, dirs: set<string>, level: Level)
    ensures var plan := Plan(cfg, w, dirs, level);
            && |plan| > 0 && plan[|plan| - 1].ok
            && plan[|plan| - 1].step == CommandLine(PublishCommand(cfg), cfg.deployDir)
            && forall k :: 0 <= k < |plan| - 1 ==> !plan[k].step.Spawn?
  {
    var bumping, tail := Bumping(cfg, w, dirs, level), Tail(cfg, w);
    BumpingSpawnsNothing(cfg, w, dirs, level);
    assert |tail| == 5 && tail[4].ok;
    assert forall k :: 0 <= k < 4 ==> tail[k].step.Git?;
    var plan := bumping + tail;
    forall k | 0 <= k < |plan| - 1
      ensures !plan[k].step.Spawn?
    {
      if k >= |bumping| {
        assert plan[k] == tail[k - |bumping|];
      }
    }
  }

  /** A run whose plan fails somewhere is rejected before it reaches the publish: none of the
      steps it makes is a spawned `npm` command. */
  lemma FailedRunNeverPublishes(cfg: Config, w: World, dirs: set<string>, level: Level)
    requires !AllOk(Plan(cfg, w, dirs, level))
    ensures Concluded(Plan(cfg, w, dirs, level), w) == Rejected
    ensures var made := StepsOf(UpToFailure(Plan(cfg, w, dirs, level)));
            forall k :: 0 <= k < |made| ==> !made[k].Spawn?
  {
    var plan := Plan(cfg, w, dirs, level);
    var r := UpToFailure(plan);
    PublishIsLast(cfg, w, dirs, level);
    FatalStop(plan);
    StepsOfIndex(r);
    assert |r| < |plan|;
    assert forall k :: 0 <= k < |r| ==> r[k] == plan[k];
  }

  /** The working tree of one run: the package manifests by directory, and the steps started. */
  class Workspace {
    var manifests: map<string, Manifest>
    var trace: seq<Step>

    constructor (initial: map<string, Manifest>)
      ensures manifests == initial && trace == []
    {
      manifests := initial;
      trace := [];
    }

    /** `execSync(command, { cwd })`; a non-zero status throws. */
    method ExecSync(command: string, cwd: string, result: Completion) returns (ok: bool)
      modifies this
      ensures ok == (result.status == 0)
      ensures trace == old(trace) + [Query(command, cwd)] && manifests == old(manifests)
    {
      trace := trace + [Query(command, cwd)];
      ok := result.status == 0;
    }

    /** jq sets the version of the manifest in `dir`, which is then written back; jq fails, and
        `execSync` throws, when there is no manifest there. */
    method WriteVersion(dir: string, version: string) returns (ok: bool)
      modifies this
      ensures ok == (dir in old(manifests))
      ensures trace == old(trace) + [Write(dir, version)]
      ensures manifests == ApplyStep(old(manifests), Write(dir, version))
    {
      trace := trace + [Write(dir, version)];
      ok := dir in manifests;
      if ok {
        manifests := manifests[dir := manifests[dir]["version" := version]];
      }
    }

    /** `setVersion(version)`; `ok` is false when a jq call threw. */
    method SetVersion(cfg: Config, version: string) returns (ok: bool)
      modifies this
      ensures ok == AllOk(Writes(cfg, old(manifests).Keys, version))
      ensures Reaches(old(trace), old(manifests), Writes(cfg, old(manifests).Keys, version), trace, manifests)
      ensures manifests.Keys == old(manifests).Keys
      ensures forall d :: d in manifests ==> OnlyVersionChanged(old(manifests)[d], manifests[d])
      ensures ok ==> cfg.srcDir in manifests && "version" in manifests[cfg.srcDir] &&
                     manifests[cfg.srcDir]["version"] == version
      ensures ok && cfg.deployDir != "./" ==>
                cfg.deployDir in manifests && "version" in manifests[cfg.deployDir] &&
                manifests[cfg.deployDir]["version"] == version
    {
      ghost var t0, m0 := trace, manifests;
      ghost var aSrc := Attempt(Write(cfg.srcDir, version), cfg.srcDir in m0);
      ghost var aDeploy := Attempt(Write(cfg.deployDir, version), cfg.deployDir in m0);
      ghost var rest := if cfg.deployDir != "./" then [aDeploy] else [];
      assert Writes(cfg, m0.Keys, version) == [aSrc] + rest;
      ok := WriteVersion(cfg.srcDir, version);
      Once(t0, m0, aSrc, trace, manifests);
      ghost var t1, m1 := trace, manifests;
      if ok && cfg.deployDir != "./" {
        ok := WriteVersion(cfg.deployDir, version);
        Once(t1, m1, aDeploy, trace, manifests);
      } else if ok {
        assert UpToFailure(rest) == [];
      }
      Then(t0, m0, [aSrc], rest, t1, m1, trace, manifests);
      OnlyVersionWritten(m0, StepsOf(UpToFailure(Writes(cfg, m0.Keys, version))));
    }

    /** `runInWorkspace('git', args)`; it rejects unless the child exits with 0. */
    method RunInWorkspace(args: seq<string>, result: ChildResult) returns (ok: bool)
      modifies this
      ensures ok == (result == ChildExit(0))
      ensures trace == old(trace) + [Git(args)] && manifests == old(manifests)
    {
      trace := trace + [Git(args)];
      ok := result == ChildExit(0);
    }

    /** `exec(str, cwd)`: the command and arguments are the pieces of `str` between single
        spaces; a non-zero status ends the process with that status. */
    method Exec(str: string, cwd: string, status: SpawnStatus) returns (exit: Option<int>)
      modifies this
      ensures trace == old(trace) + [CommandLine(str, cwd)] && manifests == old(manifests)
      ensures exit == ExitStatus(status)
    {
      var parts := Split(str);
      trace := trace + [Spawn(parts[0], parts[1..], cwd)];
      exit := if status.Status? && status.code != 0 then Some(status.code) else None;
    }

    /** Lines 81-86 of `run`: normalise both manifests to the published version, bump it, and
        write the normalised new version. */
    method BumpVersion(cfg: Config, w: World, level: Level) returns (ok: bool)
      modifies this
      ensures ok == AllOk(Bumping(cfg, w, old(manifests).Keys, level))
      ensures Reaches(old(trace), old(manifests), Bumping(cfg, w, old(manifests).Keys, level), trace, manifests)
      ensures manifests.Keys == old(manifests).Keys
    {
      ghost var t0, m0 := trace, manifests;
      ghost var dirs := m0.Keys;
      ghost var aView := Attempt(Query(ViewCommand(cfg.name), cfg.srcDir), w.view.status == 0);
      ghost var w0 := Writes(cfg, dirs, w.view.stdout);
      ghost var aBump := Attempt(Query(VersionCommand(level), cfg.srcDir), w.bump.status == 0);
      ghost var w1 := Writes(cfg, dirs, NormalizedVersion(w.bump.stdout));
      assert Bumping(cfg, w, dirs, level) == [aView] + (w0 + ([aBump] + w1));

      ok := ExecSync(ViewCommand(cfg.name), cfg.srcDir, w.view);
      Once(t0, m0, aView, trace, manifests);
      ghost var t1, m1 := trace, manifests;
      if ok {
        var currentVersion := w.view.stdout;
        ok := SetVersion(cfg, currentVersion);
        ghost var t2, m2 := trace, manifests;
        if ok {
          ok := ExecSync(VersionCommand(level), cfg.srcDir, w.bump);
          Once(t2, m2, aBump, trace, manifests);
          ghost var t3, m3 := trace, manifests;
          if ok {
            var newVersion := NormalizedVersion(w.bump.stdout);
            ok := SetVersion(cfg, newVersion);
          }
          Then(t2, m2, [aBump], w1, t3, m3, trace, manifests);
        }
        Then(t1, m1, w0, [aBump] + w1, t2, m2, trace, manifests);
      }
      Then(t0, m0, [aView], w0 + ([aBump] + w1), t1, m1, trace, manifests);
    }

    /** Lines 91-93 of `run`: push with `--follow-tags`, with `--tags`, and plainly. */
    method PushAll(remote: string, w: World) returns (ok: bool)
      modifies this
      ensures ok == AllOk(Pushes(remote, w))
      ensures Reaches(old(trace), old(manifests), Pushes(remote, w), trace, manifests)
    {
      ghost var t0, m0 := trace, manifests;
      ghost var aFollow := Attempt(Git(["push", remote, "--follow-tags"]), w.pushFollowTags == ChildExit(0));
      ghost var aTags := Attempt(Git(["push", remote, "--tags"]), w.pushTags == ChildExit(0));
      ghost var aPush := Attempt(Git(["push", remote]), w.push == ChildExit(0));
      assert Pushes(remote, w) == [aFollow] + ([aTags] + [aPush]);

      ok := RunInWorkspace(["push", remote, "--follow-tags"], w.pushFollowTags);
      Once(t0, m0, aFollow, trace, manifests);
      ghost var t1, m1 := trace, manifests;
      if ok {
        ok := RunInWorkspace(["push", remote, "--tags"], w.pushTags);
        Once(t1, m1, aTags, trace, manifests);
        ghost var t2, m2 := trace, manifests;
        if ok {
          ok := RunInWorkspace(["push", remote], w.push);
          Once(t2, m2, aPush, trace, manifests);
        }
        Then(t1, m1, [aTags], [aPush], t2, m2, trace, manifests);
      }
      Then(t0, m0, [aFollow], [aTags] + [aPush], t1, m1, trace, manifests);
    }

    /** Lines 95-99 of `run`: the publish command chosen by the manifest read at start-up, run
        in the deploy directory. */
    method Publish(cfg: Config, status: SpawnStatus) returns (exit: Option<int>)
      modifies this
      ensures trace == old(trace) + [CommandLine(PublishCommand(cfg), cfg.deployDir)]
      ensures manifests == old(manifests)
      ensures exit == ExitStatus(status)
    {
      if Truthy(cfg.publishScript) {
        exit := Exec("npm run publish", cfg.deployDir, status);
      } else {
        exit := Exec("npm publish", cfg.deployDir, status);
      }
    }

    /** Lines 89-99 of `run`: commit, push three times, and publish from the deploy directory. */
    method CommitPushPublish(cfg: Config, w: World) returns (ok: bool, exit: Option<int>)
      modifies this
      ensures ok == AllOk(Tail(cfg, w))
      ensures ok ==> exit == ExitStatus(w.publish)
      ensures Reaches(old(trace), old(manifests), Tail(cfg, w), trace, manifests)
    {
      ghost var t0, m0 := trace, manifests;
      var remote := Remote(cfg);
      ghost var aCommit := Attempt(Git(CommitArgs), w.commit == ChildExit(0));
      ghost var pushes := Pushes(remote, w);
      ghost var aPublish := Attempt(CommandLine(PublishCommand(cfg), cfg.deployDir), true);
      assert Tail(cfg, w) == [aCommit] + (pushes + [aPublish]);
      exit := None;

      ok := RunInWorkspace(CommitArgs, w.commit);
      Once(t0, m0, aCommit, trace, manifests);
      ghost var t1, m1 := trace, manifests;
      if ok {
        ok := PushAll(remote, w);
        ghost var t2, m2 := trace, manifests;
        if ok {
          exit := Publish(cfg, w.publish);
          Once(t2, m2, aPublish, trace, manifests);
        }
        Then(t1, m1, pushes, [aPublish], t2, m2, trace, manifests);
      }
      Then(t0, m0, [aCommit], pushes + [aPublish], t1, m1, trace, manifests);
    }

    /** `run()`: nothing at all without a token; after the lookups, nothing more when the
        registry already has the current SHA; otherwise the planned steps up to the first
        failure, ending as the publish's exit status says. */
    method Run(cfg: Config, w: World) returns (outcome: Outcome)
      modifies this
      ensures outcome == MissingToken <==> !Truthy(cfg.authToken)
      ensures !Truthy(cfg.authToken) ==> trace == old(trace) && manifests == old(manifests)
      ensures Truthy(cfg.authToken) ==>
                var d := Resolve(w.registry, w.log, cfg.sha, cfg.eventCommits);
                && (d.Skip? ==>
                      && outcome == Skipped
                      && trace == old(trace) + Lookups(cfg, w.registry)
                      && manifests == old(manifests))
                && (d.NewRelease? ==>
                      var plan := Plan(cfg, w, old(manifests).Keys, d.level);
                      && Reaches(old(trace) + Lookups(cfg, w.registry), old(manifests), plan, trace, manifests)
                      && outcome == Concluded(plan, w))
    {
      if !Truthy(cfg.authToken) {
        return MissingToken;
      }
      trace := trace + Lookups(cfg, w.registry);
      var d := Resolve(w.registry, w.log, cfg.sha, cfg.eventCommits);
      if d.Skip? {
        return Skipped;
      }
      ghost var t0, m0 := trace, manifests;
      var ok := BumpVersion(cfg, w, d.level);
      ghost var t1, m1 := trace, manifests;
      var exit: Option<int> := None;
      if ok {
        ok, exit := CommitPushPublish(cfg, w);
      }
      Then(t0, m0, Bumping(cfg, w, m0.Keys, d.level), Tail(cfg, w), t1, m1, trace, manifests);
      if !ok {
        outcome := Rejected;
      } else if exit.Some? {
        outcome := Exit(exit.value);
      } else {
        outcome := Finished;
      }
    }
  }
}
