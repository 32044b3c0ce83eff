/**
 The deploy script: its compilation into operations, and the engine that runs them.
 A package has steps, each with a target directory, commands and hosts; each host of
 each step becomes one operation, which leads on to the next one if it succeeds and to
 the exit if it fails. The stop action compiles to operations that all lead to the exit.
 */
module Deploy {
  import opened Common
  import opened Tokenizer

  const EXIT := -1

  datatype DeployStep = DeployStep(targetDir: string, commands: seq<string>, stop: seq<string>, hosts: seq<string>)
  datatype Package = Package(name: string, files: seq<string>, steps: seq<DeployStep>)
  datatype Operation = Operation(id: int, target: string, commands: seq<string>, onSucceed: int, onFailed: int)

  // ----- compilation -----

  /** The target directory with a closing slash, if there is one. */
  function Directory(targetDir: string): string {
    if targetDir != "" && targetDir[|targetDir|-1] != '/' then targetDir + "/" else targetDir
  }

  function FstLine(src: string, dest: string): string {
    "fst " + src + " " + dest
  }

  /** The transfer lines of all files; `path` gives a file's absolute path. */
  function FstLines(files: seq<string>, path: string -> string, dir: string): seq<string> {
    if files == [] then []
    else FstLines(files[..|files|-1], path, dir) + [FstLine(path(files[|files|-1]), dir + files[|files|-1])]
  }

  function Commands(p: Package, d: DeployStep, path: string -> string): seq<string> {
    (if d.targetDir != "" then ["mkdir " + d.targetDir] else []) +
    FstLines(p.files, path, Directory(d.targetDir)) +
    d.commands
  }

  /** Where to run what: every host of every step, in order, with the step's commands of some kind. */
  function JobsOf(steps: seq<DeployStep>, cmds: DeployStep -> seq<string>): seq<(string, seq<string>)> {
    if steps == [] then []
    else
      var d := steps[|steps|-1];
      JobsOf(steps[..|steps|-1], cmds) + HostJobs(d.hosts, cmds(d))
  }

  function Jobs(p: Package, steps: seq<DeployStep>, path: string -> string): seq<(string, seq<string>)> {
    JobsOf(steps, d => Commands(p, d, path))
  }

  function StopJobs(steps: seq<DeployStep>): seq<(string, seq<string>)> {
    JobsOf(steps, (d: DeployStep) => d.stop)
  }

  function HostJobs(hosts: seq<string>, cmds: seq<string>): (r: seq<(string, seq<string>)>)
    ensures |r| == |hosts|
  {
    seq(|hosts|, k requires 0 <= k < |hosts| => (hosts[k], cmds))
  }

  /** The operations before the last one is closed: each leads to its successor. */
  function Chain(jobs: seq<(string, seq<string>)>): (r: seq<Operation>)
    ensures |r| == |jobs|
  {
    seq(|jobs|, k requires 0 <= k < |jobs| => Operation(k, jobs[k].0, jobs[k].1, k + 1, EXIT))
  }

  function Closed(ops: seq<Operation>): seq<Operation>
    requires ops != []
  {
    ops[..|ops|-1] + [ops[|ops|-1].(onSucceed := EXIT)]
  }

  /** The operations of the stop action: each leads straight to the exit, whatever its outcome. */
  function Unlinked(jobs: seq<(string, seq<string>)>): (r: seq<Operation>)
    ensures |r| == |jobs|
  {
    seq(|jobs|, k requires 0 <= k < |jobs| => Operation(k, jobs[k].0, jobs[k].1, EXIT, EXIT))
  }

  /** A package that can be compiled: named, with its resources present. */
  predicate Accepted(p: Package, dirExists: bool, present: string -> bool) {
    p.name != "" && dirExists && forall k :: 0 <= k < |p.files| ==> present(p.files[k])
  }

  method Compile(p: Package, action: string, dirExists: bool, present: string -> bool, path: string -> string)
      returns (result: Option<seq<Operation>>)
    requires Accepted(p, dirExists, present) && action == "deploy" ==> Jobs(p, p.steps, path) != []
    requires Accepted(p, dirExists, present) && action == "stop" ==> StopJobs(p.steps) != []
    ensures result == if !Accepted(p, dirExists, present) then None
                      else if action == "deploy" then Some(Closed(Chain(Jobs(p, p.steps, path))))
                      else if action == "stop" then Some(Unlinked(StopJobs(p.steps)))
                      else None
    ensures result.None? <==> p.name == "" || !dirExists || (exists k :: 0 <= k < |p.files| && !present(p.files[k]))
                              || (action != "deploy" && action != "stop")
  {
    if p.name == "" { return None; }
    if !dirExists { return None; }
    for k := 0 to |p.files|
      invariant forall j :: 0 <= j < k ==> present(p.files[j])
    {
      if !present(p.files[k]) { return None; }
    }
    if action == "deploy" {
      var ops := CompileSteps(p, path);
      LastIsClosed(ops);
      ops := ops[|ops| - 1 := ops[|ops|-1].(onSucceed := EXIT)];
      return Some(ops);
    } else if action == "stop" {
      var ops := CompileStop(p.steps);
      var last := ops[|ops|-1].(onSucceed := EXIT);
      assert ops[|ops| - 1 := last] == ops;
      ops := ops[|ops| - 1 := last];
      return Some(ops);
    } else {
      return None;
    }
  }

  /** The loops of the stop action. */
  method CompileStop(steps: seq<DeployStep>) returns (ops: seq<Operation>)
    ensures ops == Unlinked(StopJobs(steps))
  {
    ops := [];
    var nextId := 0;
    for n := 0 to |steps|
      invariant ops == Unlinked(StopJobs(steps[..n])) && nextId == |ops|
    {
      var d := steps[n];
      ghost var jobs := StopJobs(steps[..n]);
      assert steps[..n+1][..n] == steps[..n];
      assert jobs + HostJobs(d.hosts[..0], d.stop) == jobs;
      for h := 0 to |d.hosts|
        invariant ops == Unlinked(jobs + HostJobs(d.hosts[..h], d.stop)) && nextId == |ops|
      {
        UnlinkedAppend(jobs, d.hosts, d.stop, h);
        ops := ops + [Operation(nextId, d.hosts[h], d.stop, EXIT, EXIT)];
        nextId := nextId + 1;
      }
      assert d.hosts[..|d.hosts|] == d.hosts;
    }
    assert steps[..|steps|] == steps;
  }

  lemma UnlinkedAppend(jobs: seq<(string, seq<string>)>, hosts: seq<string>, cmds: seq<string>, h: nat)
    requires h < |hosts|
    ensures var sofar := jobs + HostJobs(hosts[..h], cmds);
            Unlinked(jobs + HostJobs(hosts[..h+1], cmds)) ==
            Unlinked(sofar) + [Operation(|sofar|, hosts[h], cmds, EXIT, EXIT)]
  {
    var sofar := jobs + HostJobs(hosts[..h], cmds);
    assert jobs + HostJobs(hosts[..h+1], cmds) == sofar + [(hosts[h], cmds)];
  }

  lemma LastIsClosed(ops: seq<Operation>)
    requires ops != []
    ensures ops[|ops| - 1 := ops[|ops|-1].(onSucceed := EXIT)] == Closed(ops)
  {
  }

  /** The loop over the steps of a package. */
  method CompileSteps(p: Package, path: string -> string) returns (ops: seq<Operation>)
    ensures ops == Chain(Jobs(p, p.steps, path))
  {
    ops := [];
    var nextId := 0;
    for n := 0 to |p.steps|
      invariant ops == Chain(Jobs(p, p.steps[..n], path)) && nextId == |ops|
    {
      var d := p.steps[n];
      JobsUnfold(p, n, path);
      var cmds := CompileCommands(p, d, path);
      ops, nextId := AddHosts(ops, nextId, d.hosts, cmds, Jobs(p, p.steps[..n], path));
    }
    assert p.steps[..|p.steps|] == p.steps;
  }

  lemma JobsUnfold(p: Package, n: nat, path: string -> string)
    requires n < |p.steps|
    ensures var d := p.steps[n];
            Jobs(p, p.steps[..n+1], path) == Jobs(p, p.steps[..n], path) + HostJobs(d.hosts, Commands(p, d, path))
  {
    var steps := p.steps[..n+1];
    assert steps[..|steps|-1] == p.steps[..n] && steps[|steps|-1] == p.steps[n];
  }

  /** The inner loop: one operation for each host. */
  method AddHosts(ops: seq<Operation>, nextId: int, hosts: seq<string>, cmds: seq<string>,
                  ghost jobs: seq<(string, seq<string>)>)
      returns (newOps: seq<Operation>, newId: int)
    requires ops == Chain(jobs) && nextId == |ops|
    ensures newOps == Chain(jobs + HostJobs(hosts, cmds)) && newId == |newOps|
  {
    newOps, newId := ops, nextId;
    assert jobs + HostJobs(hosts[..0], cmds) == jobs;
    for h := 0 to |hosts|
      invariant newOps == Chain(jobs + HostJobs(hosts[..h], cmds)) && newId == |newOps|
    {
      ghost var sofar := jobs + HostJobs(hosts[..h], cmds);
      assert jobs + HostJobs(hosts[..h+1], cmds) == sofar + [(hosts[h], cmds)];
      newOps := newOps + [Operation(newId, hosts[h], cmds, newId + 1, EXIT)];
      newId := newId + 1;
      assert newOps == Chain(sofar + [(hosts[h], cmds)]);
    }
    assert hosts[..|hosts|] == hosts;
  }

  method CompileCommands(p: Package, d: DeployStep, path: string -> string) returns (cmds: seq<string>)
    ensures cmds == Commands(p, d, path)
  {
    cmds := [];
    var targetDir := d.targetDir;
    if targetDir != "" { cmds := cmds + ["mkdir " + targetDir]; }
    if targetDir != "" && targetDir[|targetDir|-1] != '/' { targetDir := targetDir + "/"; }
    ghost var head := cmds;
    assert head + [] == head;
    for k := 0 to |p.files|
      invariant cmds == head + FstLines(p.files[..k], path, targetDir)
    {
      FstLinesUnfold(p.files, k, path, targetDir, head);
      cmds := cmds + ["fst " + path(p.files[k]) + " " + (targetDir + p.files[k])];
    }
    assert p.files[..|p.files|] == p.files;
    cmds := AddCommands(cmds, d.commands);
  }

  lemma FstLinesUnfold(files: seq<string>, k: nat, path: string -> string, dir: string, head: seq<string>)
    requires k < |files|
    ensures head + FstLines(files[..k+1], path, dir) ==
            head + FstLines(files[..k], path, dir) + ["fst " + path(files[k]) + " " + (dir + files[k])]
  {
    assert files[..k+1][..k] == files[..k];
  }

  method AddCommands(head: seq<string>, commands: seq<string>) returns (cmds: seq<string>)
    ensures cmds == head + commands
  {
    cmds := head;
    for k := 0 to |commands|
      invariant cmds == head + commands[..k]
    {
      cmds := cmds + [commands[k]];
    }
    assert commands[..|commands|] == commands;
  }

  /** A transfer line splits back into its three tokens if and only if both paths are plain. */
  lemma FstLineTokenizesExactly(src: string, dest: string)
    ensures Tokens(FstLine(src, dest), 0) == ["fst", src, dest] <==> Plain(src) && Plain(dest)
  {
    var ts := ["fst", src, dest];
    assert Join(ts[1..]) == src + [SPACE] + Join(ts[1..][1..]);
    assert Join(ts) == FstLine(src, dest);
    assert Plain(ts[0]);
    assert AllPlain(ts) <==> Plain(ts[1]) && Plain(ts[2]);
    JoinTokenizesExactly(ts);
  }

  /** A path with a space: the line is split into four tokens instead of three. */
  lemma SpacedPathIsSplit()
    ensures Tokens(FstLine("a b", "c"), 0) == ["fst", "a", "b", "c"]
  {
    var ts := ["fst", "a", "b", "c"];
    var rest := ts[1..];
    assert Join(rest[1..]) == "b" + [SPACE] + Join(rest[1..][1..]);
    assert Join(rest) == "a" + [SPACE] + Join(rest[1..]);
    assert Join(ts) == "fst" + [SPACE] + Join(rest);
    assert Join(ts) == FstLine("a b", "c");
    assert Plain(ts[0]) && Plain(ts[1]) && Plain(ts[2]) && Plain(ts[3]);
    JoinTokenizesExactly(ts);
  }

  lemma {:induction false} FstLinesTokenizeExactly(files: seq<string>, path: string -> string, dir: string, k: nat)
    requires k < |files|
    ensures |FstLines(files, path, dir)| == |files|
    ensures Tokens(FstLines(files, path, dir)[k], 0) == ["fst", path(files[k]), dir + files[k]]
            <==> Plain(path(files[k])) && Plain(dir + files[k])
  {
    FstLinesLength(files, path, dir);
    if k == |files| - 1 {
      FstLineTokenizesExactly(path(files[k]), dir + files[k]);
      FstLinesLength(files[..k], path, dir);
    } else {
      FstLinesTokenizeExactly(files[..|files|-1], path, dir, k);
    }
  }

  lemma {:induction false} FstLinesLength(files: seq<string>, path: string -> string, dir: string)
    ensures |FstLines(files, path, dir)| == |files|
  {
    if files == [] {
    } else {
      FstLinesLength(files[..|files|-1], path, dir);
    }
  }

  // ----- which commands run where, in which order -----

  lemma {:induction false} FstLineAt(files: seq<string>, path: string -> string, dir: string, k: nat)
    requires k < |files|
    ensures |FstLines(files, path, dir)| == |files|
    ensures FstLines(files, path, dir)[k] == "fst " + path(files[k]) + " " + dir + files[k]
  {
    FstLinesLength(files, path, dir);
    FstLinesLength(files[..|files|-1], path, dir);
    if k == |files| - 1 {
      assert "fst " + path(files[k]) + " " + (dir + files[k]) == "fst " + path(files[k]) + " " + dir + files[k];
    } else {
      FstLineAt(files[..|files|-1], path, dir, k);
    }
  }

  /**
   The commands of a step, in order: mkdir if a target directory is given; for each
   file its transfer, from its absolute path to its name under the target directory
   with one slash between; and the step's own commands.
   */
  lemma CommandsAre(p: Package, d: DeployStep, path: string -> string, k: nat)
    ensures var cmds, t := Commands(p, d, path), d.targetDir;
            var first := if t != "" then 1 else 0;
            && |cmds| == first + |p.files| + |d.commands|
            && (t != "" ==> cmds[0] == "mkdir " + t)
            && (k < |p.files| ==>
                  var dir := if t == "" then "" else if t[|t|-1] == '/' then t else t + "/";
                  cmds[first + k] == "fst " + path(p.files[k]) + " " + dir + p.files[k])
            && (k < |d.commands| ==> cmds[first + |p.files| + k] == d.commands[k])
  {
    FstLinesLength(p.files, path, Directory(d.targetDir));
    if k < |p.files| { FstLineAt(p.files, path, Directory(d.targetDir), k); }
  }

  /** How many hosts the steps before step n have. */
  function HostsBefore(steps: seq<DeployStep>, n: nat): nat
    requires n <= |steps|
  {
    if n == 0 then 0 else HostsBefore(steps, n - 1) + |steps[n-1].hosts|
  }

  lemma {:induction false} HostsOfPrefix(steps: seq<DeployStep>, m: nat, n: nat)
    requires n <= m <= |steps|
    ensures HostsBefore(steps[..m], n) == HostsBefore(steps, n)
  {
    if n == 0 {
    } else {
      HostsOfPrefix(steps, m, n - 1);
    }
  }

  lemma {:induction false} JobCount(steps: seq<DeployStep>, cmds: DeployStep -> seq<string>)
    ensures |JobsOf(steps, cmds)| == HostsBefore(steps, |steps|)
  {
    if steps == [] {
    } else {
      JobCount(steps[..|steps|-1], cmds);
      HostsOfPrefix(steps, |steps| - 1, |steps| - 1);
    }
  }

  lemma {:induction false} JobAt(steps: seq<DeployStep>, cmds: DeployStep -> seq<string>, n: nat, h: nat)
    requires n < |steps| && h < |steps[n].hosts|
    ensures HostsBefore(steps, n) + h < |JobsOf(steps, cmds)|
    ensures JobsOf(steps, cmds)[HostsBefore(steps, n) + h] == (steps[n].hosts[h], cmds(steps[n]))
    decreases |steps|
  {
    var m := |steps| - 1;
    JobCount(steps[..m], cmds);
    HostsOfPrefix(steps, m, m);
    HostsOfPrefix(steps, m, n);
    if n < m { JobAt(steps[..m], cmds, n, h); }
  }

  /** The jobs of both actions, in order: for each step each of its hosts, with that step's commands of the action. */
  lemma JobsAre(p: Package, steps: seq<DeployStep>, path: string -> string, n: nat, h: nat)
    requires n < |steps| && h < |steps[n].hosts|
    ensures |Jobs(p, steps, path)| == |StopJobs(steps)| == HostsBefore(steps, |steps|)
    ensures HostsBefore(steps, n) + h < HostsBefore(steps, |steps|)
    ensures Jobs(p, steps, path)[HostsBefore(steps, n) + h] == (steps[n].hosts[h], Commands(p, steps[n], path))
    ensures StopJobs(steps)[HostsBefore(steps, n) + h] == (steps[n].hosts[h], steps[n].stop)
  {
    JobCount(steps, d => Commands(p, d, path));
    JobCount(steps, (d: DeployStep) => d.stop);
    JobAt(steps, d => Commands(p, d, path), n, h);
    JobAt(steps, (d: DeployStep) => d.stop, n, h);
  }

  // ----- the engine -----

  datatype Engine = Engine(
    ops: seq<Operation>,
    nextId: int,
    running: int,              // runningOperationIdx
    started: seq<int>,         // the indices of the operations started, in order
    exiting: bool)

  function Loaded(ops: seq<Operation>): Engine
    requires ops != []
  {
    Engine(ops, ops[0].id, -1, [], false)
  }

  /** The first operation with this id, or -1. */
  function Find(ops: seq<Operation>, id: int): int {
    FindFrom(ops, id, 0)
  }

  function FindFrom(ops: seq<Operation>, id: int, k: nat): int
    requires k <= |ops|
    decreases |ops| - k
  {
    if k == |ops| then -1 else if ops[k].id == id then k else FindFrom(ops, id, k + 1)
  }

  function ExecuteNext(e: Engine): Engine {
    if e.nextId == EXIT then e.(exiting := true)
    else
      var k := Find(e.ops, e.nextId);
      if k == -1 then e.(running := -1, exiting := true) else e.(running := k, started := e.started + [k])
  }

  function OperationStopped(e: Engine, succeed: bool): Engine
    requires 0 <= e.running < |e.ops|
  {
    e.(nextId := if succeed then e.ops[e.running].onSucceed else e.ops[e.running].onFailed)
  }

  lemma {:induction false} FindIs(ops: seq<Operation>, id: int, k: nat)
    requires k <= |ops|
    ensures var f := FindFrom(ops, id, k);
            if f == -1 then forall j :: k <= j < |ops| ==> ops[j].id != id
            else k <= f < |ops| && ops[f].id == id && forall j :: k <= j < f ==> ops[j].id != id
    decreases |ops| - k
  {
    if k == |ops| {
    } else {
      FindIs(ops, id, k + 1);
    }
  }

  /** The engine starts the first operation with the next id; it exits if that is -1, or if there is no such one. */
  lemma ExecuteNextIs(e: Engine)
    ensures var e' := ExecuteNext(e);
            && e'.ops == e.ops && e'.nextId == e.nextId
            && if e.nextId == -1 || forall j :: 0 <= j < |e.ops| ==> e.ops[j].id != e.nextId
               then e'.exiting && e'.started == e.started
               else
                 && e'.exiting == e.exiting && e'.started == e.started + [e'.running]
                 && 0 <= e'.running < |e.ops| && e.ops[e'.running].id == e.nextId
                 && forall j :: 0 <= j < e'.running ==> e.ops[j].id != e.nextId
  {
    FindIs(e.ops, e.nextId, 0);
  }

  /** A single command line is an operation without a successor: it is started once, and then the engine exits. */
  lemma SingleCommandRunsOnce(target: string, cmds: seq<string>, succeed: bool)
    ensures var e := ExecuteNext(Loaded([Operation(0, target, cmds, 1, 1)]));
            && e.started == [0] && !e.exiting
            && ExecuteNext(OperationStopped(e, succeed)).exiting
            && ExecuteNext(OperationStopped(e, succeed)).started == [0]
  {
    var e := Loaded([Operation(0, target, cmds, 1, 1)]);
    assert [] + [0] == [0];
    ExecuteNextIs(e);
    assert ExecuteNext(e).running == 0;
    ExecuteNextIs(OperationStopped(ExecuteNext(e), succeed));
  }

  /** A compiled chain. */
  ghost predicate IsChain(ops: seq<Operation>) {
    && ops != []
    && forall k :: 0 <= k < |ops| ==>
         ops[k].id == k && ops[k].onFailed == EXIT && ops[k].onSucceed == if k + 1 < |ops| then k + 1 else EXIT
  }

  lemma CompiledIsChain(jobs: seq<(string, seq<string>)>)
    requires jobs != []
    ensures IsChain(Closed(Chain(jobs))) && |Closed(Chain(jobs))| == |jobs|
    ensures forall k :: 0 <= k < |jobs| ==>
              var op := Closed(Chain(jobs))[k];
              op.target == jobs[k].0 && op.commands == jobs[k].1
  {
  }

  ghost predicate OnChain(e: Engine) {
    IsChain(e.ops) && (e.nextId == EXIT || 0 <= e.nextId < |e.ops|)
  }

  lemma {:induction false} FindInChain(ops: seq<Operation>, id: nat, k: nat)
    requires IsChain(ops) && k <= id < |ops|
    ensures FindFrom(ops, id, k) == id
    decreases id - k
  {
    if k == id {
    } else {
      FindInChain(ops, id, k + 1);
    }
  }

  /** The engine's turns until it exits; `outcome` says which operations succeed. */
  ghost function Drive(e: Engine, outcome: int -> bool): Engine
    requires OnChain(e)
    decreases if e.nextId == EXIT then 0 else |e.ops| - e.nextId
  {
    var e1 := ExecuteNext(e);
    if e1.exiting then e1
    else
      FindInChain(e.ops, e.nextId, 0);
      Drive(OperationStopped(e1, outcome(e1.running)), outcome)
  }

  /** What a driven engine has started: a run of consecutive operations, cut short by the first failure only. */
  ghost predicate RanFrom(first: nat, n: nat, outcome: int -> bool, started: seq<int>) {
    && 1 <= |started| <= n - first
    && (forall k :: 0 <= k < |started| ==> started[k] == first + k)
    && (forall i :: first <= i < first + |started| - 1 ==> outcome(i))
    && (|started| < n - first ==> !outcome(first + |started| - 1))
  }

  lemma {:induction false} DriveRuns(e: Engine, outcome: int -> bool)
    requires OnChain(e) && e.nextId != EXIT && !e.exiting
    ensures var e' := Drive(e, outcome);
            && e'.exiting && |e.started| <= |e'.started| && e'.started[..|e.started|] == e.started
            && RanFrom(e.nextId, |e.ops|, outcome, e'.started[|e.started|..])
    decreases |e.ops| - e.nextId
  {
    var n, k := |e.started|, e.nextId;
    FindInChain(e.ops, k, 0);
    var e1 := ExecuteNext(e);
    assert e1.started == e.started + [k];
    var e2 := OperationStopped(e1, outcome(k));
    var e' := Drive(e2, outcome);
    assert Drive(e, outcome) == e';
    if e2.nextId == EXIT {
      assert e'.started == e.started + [k];
      assert e'.started[n..] == [k];
    } else {
      DriveRuns(e2, outcome);
      assert e'.started[..n] == e'.started[..n+1][..n];
      var tail := e'.started[n+1..];
      assert e'.started[n] == e'.started[..n+1][n] == k;
      assert e'.started[n..] == [k] + tail;
      assert RanFrom(k + 1, |e.ops|, outcome, tail);
      RanMore(k, |e.ops|, outcome, tail);
    }
  }

  lemma RanMore(first: nat, n: nat, outcome: int -> bool, tail: seq<int>)
    requires RanFrom(first + 1, n, outcome, tail) && outcome(first)
    ensures RanFrom(first, n, outcome, [first] + tail)
  {
    var all := [first] + tail;
    forall k | 0 <= k < |all| ensures all[k] == first + k {
      if k > 0 { assert all[k] == tail[k-1]; }
    }
  }

  /**
   The engine runs a compiled script to its end: operations are started in id
   order, each at most once, none after the first failure, and all of them
   exactly when every one before the last succeeds.
   */
  lemma EngineRunsInOrder(jobs: seq<(string, seq<string>)>, outcome: int -> bool)
    requires jobs != []
    ensures IsChain(Closed(Chain(jobs)))
    ensures var ops := Closed(Chain(jobs)); var e := Drive(Loaded(ops), outcome);
            && e.exiting && RanFrom(0, |jobs|, outcome, e.started)
            && (|e.started| == |jobs| <==> forall k :: 0 <= k < |jobs| - 1 ==> outcome(k))
  {
    CompiledIsChain(jobs);
    var ops := Closed(Chain(jobs));
    DriveRuns(Loaded(ops), outcome);
    var e := Drive(Loaded(ops), outcome);
    assert e.started[0..] == e.started;
    if |e.started| < |jobs| { assert !outcome(|e.started| - 1); }
  }

  /** The stop action reaches only the first host: the engine exits after its operation, whatever the outcome. */
  lemma StopRunsFirstOnly(jobs: seq<(string, seq<string>)>, succeed: bool)
    requires jobs != []
    ensures var e := ExecuteNext(Loaded(Unlinked(jobs)));
            && e.started == [0] && !e.exiting
            && ExecuteNext(OperationStopped(e, succeed)).exiting
            && ExecuteNext(OperationStopped(e, succeed)).started == [0]
  {
    var ops := Unlinked(jobs);
    assert ops[0].id == 0 && Find(ops, 0) == 0;
    assert [] + [0] == [0];
  }

  class ScriptEngine {
    var scriptOperations: seq<Operation>
    var nextOperationId: int
    var runningOperationIdx: int
    var started: seq<int>
    var exiting: bool

    ghost function State(): Engine
      reads this
    {
      Engine(scriptOperations, nextOperationId, runningOperationIdx, started, exiting)
    }

    constructor (ops: seq<Operation>)
      requires ops != []
      ensures State() == Loaded(ops)
    {
      scriptOperations, nextOperationId, runningOperationIdx := ops, ops[0].id, -1;
      started, exiting := [], false;
    }

    method OnStop(succeed: bool)
      requires 0 <= runningOperationIdx < |scriptOperations|
      modifies this
      ensures State() == OperationStopped(old(State()), succeed)
    {
      if succeed {
        nextOperationId := scriptOperations[runningOperationIdx].onSucceed;
      } else {
        nextOperationId := scriptOperations[runningOperationIdx].onFailed;
      }
    }

    method ExecuteNextOperation()
      modifies this
      ensures State() == ExecuteNext(old(State()))
    {
      if nextOperationId == EXIT {
        exiting := true;
      } else {
        runningOperationIdx := -1;
        var size := |scriptOperations|;
        var i := 0;
        while i < size
          invariant 0 <= i <= size && runningOperationIdx == -1
          invariant State() == old(State()).(running := -1)
          invariant Find(scriptOperations, nextOperationId) == FindFrom(scriptOperations, nextOperationId, i)
        {
          if scriptOperations[i].id == nextOperationId {
            runningOperationIdx := i;
            break;
          }
          i := i + 1;
        }
        if runningOperationIdx == -1 {
          exiting := true;
          return;
        }
        started := started + [runningOperationIdx];
      }
    }
  }
}
