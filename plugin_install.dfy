/**
 * The plugin installer of the plugin dialog: a queue of install and
 * uninstall actions, each of which starts one pip or conda/mamba process,
 * and a `finished` signal once no process is outstanding.
 */
module PluginInstall {
  import opened Common

  /** The `InstallerTypes` literal. */
  datatype InstallerType = Pip | Conda | Mamba

  /** One element of a process argument list; `_conda_env_path` may be `None`. */
  datatype Arg = Text(s: string) | PyNone

  datatype Kind = InstallKind | UninstallKind

  /** The closure `install`/`uninstall` put on the queue, with its captured arguments. */
  datatype Action = Action(kind: Kind, pkgs: seq<string>, installer: InstallerType, channels: seq<string>)

  /** The program a process runs: the Python interpreter (pip) or the conda/mamba executable. */
  datatype Program = PythonExecutable | Tool(installer: InstallerType)

  /** A started process: an opaque id, its program and its argument list. */
  datatype Launch = Launch(pid: nat, program: Program, args: seq<Arg>)

  /** The `started` and `finished(int)` signals. */
  datatype Signal = Started | Finished(exitCode: int)

  /** The default `channels` argument. */
  const DefaultChannels: seq<string> := ["conda-forge"]

  function Texts(ss: seq<string>): (r: seq<Arg>)
    ensures |r| == |ss| && forall i :: 0 <= i < |ss| ==> r[i] == Text(ss[i])
  {
    seq(|ss|, i requires 0 <= i < |ss| => Text(ss[i]))
  }

  function EnvArg(env: Option<string>): Arg {
    if env.Some? then Text(env.value) else PyNone
  }

  /** `["-c", channel]` for each channel, in order, as the loops extend the list. */
  function ChannelArgs(channels: seq<string>): seq<Arg> {
    if channels == [] then []
    else ChannelArgs(channels[..|channels| - 1]) + [Text("-c"), Text(channels[|channels| - 1])]
  }

  lemma {:induction false} ChannelArgsLayout(channels: seq<string>)
    ensures |ChannelArgs(channels)| == 2 * |channels|
    ensures forall i :: 0 <= i < |channels| ==>
      ChannelArgs(channels)[2 * i] == Text("-c") && ChannelArgs(channels)[2 * i + 1] == Text(channels[i])
  {
    if channels != [] {
      var init := channels[..|channels| - 1];
      ChannelArgsLayout(init);
      forall i | 0 <= i < |channels|
        ensures ChannelArgs(channels)[2 * i] == Text("-c") && ChannelArgs(channels)[2 * i + 1] == Text(channels[i])
      {
        if i < |init| {
          assert channels[i] == init[i];
        }
      }
    }
  }

  function CondaHeader(verb: string, env: Option<string>): seq<Arg> {
    [Text(verb), Text("-y"), Text("--prefix"), EnvArg(env)]
  }

  const PipInstallHeader: seq<Arg> := [Text("-m"), Text("pip"), Text("install"), Text("--upgrade")]

  const PipUninstallHeader: seq<Arg> := [Text("-m"), Text("pip"), Text("uninstall"), Text("-y")]

  /** The argument list `_install` gives its process. */
  function InstallArgs(installer: InstallerType, env: Option<string>, channels: seq<string>, pkgs: seq<string>): seq<Arg> {
    (if installer != Pip then CondaHeader("install", env) + ChannelArgs(channels) else PipInstallHeader) + Texts(pkgs)
  }

  /** The argument list `_uninstall` gives its process. */
  function UninstallArgs(installer: InstallerType, env: Option<string>, channels: seq<string>, pkgs: seq<string>): seq<Arg> {
    (if installer != Pip then CondaHeader("remove", env) + ChannelArgs(channels) else PipUninstallHeader) + Texts(pkgs)
  }

  /** The header of a conda/mamba argument list, then a `-c` pair per channel, then the packages. */
  predicate CondaLayout(args: seq<Arg>, verb: string, env: Option<string>, channels: seq<string>, pkgs: seq<string>) {
    && |args| == 4 + 2 * |channels| + |pkgs|
    && args[..4] == [Text(verb), Text("-y"), Text("--prefix"), EnvArg(env)]
    && (forall i :: 0 <= i < |channels| ==> args[4 + 2 * i] == Text("-c") && args[5 + 2 * i] == Text(channels[i]))
    && (forall i :: 0 <= i < |pkgs| ==> args[4 + 2 * |channels| + i] == Text(pkgs[i]))
  }

  /** A fixed four-element pip header, then the packages in their given order. */
  predicate PipLayout(args: seq<Arg>, header: seq<Arg>, pkgs: seq<string>)
    requires |header| == 4
  {
    && |args| == 4 + |pkgs|
    && args[..4] == header
    && (forall i :: 0 <= i < |pkgs| ==> args[4 + i] == Text(pkgs[i]))
  }

  lemma CondaArgsLayout(verb: string, env: Option<string>, channels: seq<string>, pkgs: seq<string>)
    ensures CondaLayout(CondaHeader(verb, env) + ChannelArgs(channels) + Texts(pkgs), verb, env, channels, pkgs)
  {
    var args := CondaHeader(verb, env) + ChannelArgs(channels) + Texts(pkgs);
    ChannelArgsLayout(channels);
    forall i | 0 <= i < |channels|
      ensures args[4 + 2 * i] == Text("-c") && args[5 + 2 * i] == Text(channels[i])
    {
      assert args[4 + 2 * i] == ChannelArgs(channels)[2 * i];
      assert args[5 + 2 * i] == ChannelArgs(channels)[2 * i + 1];
    }
  }

  /** `_install`'s arguments: pip gets `-m pip install --upgrade`, conda/mamba `install -y --prefix env` and channels; the packages follow. */
  lemma InstallArgsShape(installer: InstallerType, env: Option<string>, channels: seq<string>, pkgs: seq<string>)
    ensures installer == Pip ==> PipLayout(InstallArgs(installer, env, channels, pkgs), PipInstallHeader, pkgs)
    ensures installer != Pip ==> CondaLayout(InstallArgs(installer, env, channels, pkgs), "install", env, channels, pkgs)
  {
    if installer != Pip {
      CondaArgsLayout("install", env, channels, pkgs);
    }
  }

  /** `_uninstall`'s arguments: pip gets `-m pip uninstall -y`, conda/mamba `remove -y --prefix env` and channels; the packages follow. */
  lemma UninstallArgsShape(installer: InstallerType, env: Option<string>, channels: seq<string>, pkgs: seq<string>)
    ensures installer == Pip ==> PipLayout(UninstallArgs(installer, env, channels, pkgs), PipUninstallHeader, pkgs)
    ensures installer != Pip ==> CondaLayout(UninstallArgs(installer, env, channels, pkgs), "remove", env, channels, pkgs)
  {
    if installer != Pip {
      CondaArgsLayout("remove", env, channels, pkgs);
    }
  }

  function ProgramFor(installer: InstallerType): Program {
    if installer != Pip then Tool(installer) else PythonExecutable
  }

  /** The process an action starts with the given id. */
  function LaunchOf(a: Action, pid: nat, env: Option<string>): Launch {
    Launch(pid, ProgramFor(a.installer),
           if a.kind == InstallKind then InstallArgs(a.installer, env, a.channels, a.pkgs)
           else UninstallArgs(a.installer, env, a.channels, a.pkgs))
  }

  /** The packages handed to `plugin_manager.unregister` by a run of actions. */
  function Unregistered(actions: seq<Action>): seq<string> {
    if actions == [] then []
    else
      var a := actions[|actions| - 1];
      Unregistered(actions[..|actions| - 1]) + (if a.kind == UninstallKind then a.pkgs else [])
  }

  lemma UnregisteredStep(actions: seq<Action>, a: Action)
    ensures Unregistered(actions + [a]) == Unregistered(actions) + (if a.kind == UninstallKind then a.pkgs else [])
  {
    assert (actions + [a])[..|actions|] == actions;
  }

  /** The processes a run of actions starts, one per action with ids from 0. */
  function LaunchesOf(actions: seq<Action>, env: Option<string>): (r: seq<Launch>)
    ensures |r| == |actions|
  {
    if actions == [] then []
    else LaunchesOf(actions[..|actions| - 1], env) + [LaunchOf(actions[|actions| - 1], |actions| - 1, env)]
  }

  lemma LaunchesOfStep(actions: seq<Action>, a: Action, env: Option<string>)
    ensures LaunchesOf(actions + [a], env) == LaunchesOf(actions, env) + [LaunchOf(a, |actions|, env)]
  {
    assert (actions + [a])[..|actions|] == actions;
  }

  /** The i-th process started runs the i-th action, with id i. */
  lemma {:induction false} LaunchesOfAt(actions: seq<Action>, env: Option<string>, i: nat)
    requires i < |actions|
    ensures LaunchesOf(actions, env)[i] == LaunchOf(actions[i], i, env)
    ensures LaunchesOf(actions, env)[i].pid == i
  {
    var init, last := actions[..|actions| - 1], actions[|actions| - 1];
    assert actions == init + [last];
    LaunchesOfStep(init, last, env);
    if i < |init| {
      LaunchesOfAt(init, env, i);
    }
  }

  /** `install`/`uninstall` put an action at the front of the queue. */
  function Enqueue(queue: seq<Action>, a: Action): seq<Action> {
    [a] + queue
  }

  function EnqueueAll(queue: seq<Action>, actions: seq<Action>): seq<Action> {
    if actions == [] then queue
    else Enqueue(EnqueueAll(queue, actions[..|actions| - 1]), actions[|actions| - 1])
  }

  /** The order in which repeated `pop()` from the back takes the actions out. */
  function Drain(queue: seq<Action>): seq<Action> {
    Reverse(queue)
  }

  /** Queued actions run in request order, after the ones already queued. */
  lemma {:induction false} FifoOrder(queue: seq<Action>, actions: seq<Action>)
    ensures Drain(EnqueueAll(queue, actions)) == Drain(queue) + actions
  {
    if actions != [] {
      var init, a := actions[..|actions| - 1], actions[|actions| - 1];
      FifoOrder(queue, init);
      ReversePrepend(a, EnqueueAll(queue, init));
      assert init + [a] == actions;
    }
  }

  /** The first action popped from the queue is the earliest one still in it. */
  lemma PopTakesOldest(queue: seq<Action>, actions: seq<Action>)
    requires queue == [] && actions != []
    ensures var q := EnqueueAll(queue, actions); q != [] && q[|q| - 1] == actions[0]
  {
    FifoOrder(queue, actions);
    var q := EnqueueAll(queue, actions);
    assert |Drain(q)| == |actions|;
    ReverseLast(q);
  }

  predicate Distinct(s: seq<nat>) {
    forall i, j :: 0 <= i < j < |s| ==> s[i] != s[j]
  }

  /** The position of the first occurrence of `x` in `s`. */
  function FirstIndex(s: seq<nat>, x: nat): (k: nat)
    requires x in s
    ensures k < |s| && s[k] == x && x !in s[..k]
  {
    if s[0] == x then 0
    else
      assert x in s[1..] by {
        var i :| 0 <= i < |s| && s[i] == x;
        assert s[1..][i - 1] == x;
      }
      var k := 1 + FirstIndex(s[1..], x);
      assert s[..k] == [s[0]] + s[1..][..k - 1];
      k
  }

  /** Python's `list.remove(x)` on a list that holds `x`: drop its first occurrence. */
  function RemoveFirst(s: seq<nat>, x: nat): seq<nat>
    requires x in s
  {
    var k := FirstIndex(s, x);
    s[..k] + s[k + 1..]
  }

  /** Dropping index `k` shifts the later elements down by one. */
  lemma DropIndex(s: seq<nat>, k: nat)
    requires k < |s|
    ensures |s[..k] + s[k + 1..]| == |s| - 1
    ensures forall i :: 0 <= i < k ==> (s[..k] + s[k + 1..])[i] == s[i]
    ensures forall i :: k < i < |s| ==> (s[..k] + s[k + 1..])[i - 1] == s[i]
  {
  }

  /** Removing a present id from a list of distinct ids removes that id and keeps every other one, in order. */
  lemma RemoveFirstKeepsOthers(s: seq<nat>, x: nat)
    requires x in s && Distinct(s)
    ensures |RemoveFirst(s, x)| == |s| - 1
    ensures Distinct(RemoveFirst(s, x))
    ensures forall y :: y in RemoveFirst(s, x) <==> y in s && y != x
  {
    var k := FirstIndex(s, x);
    DropIndex(s, k);
    RemovedMembers(s, k);
    RemovedDistinct(s, k);
  }

  lemma RemovedMembers(s: seq<nat>, k: nat)
    requires k < |s| && Distinct(s)
    ensures forall y :: y in s[..k] + s[k + 1..] <==> y in s && y != s[k]
  {
    var r := s[..k] + s[k + 1..];
    DropIndex(s, k);
    forall y | y in r
      ensures y in s && y != s[k]
    {
      var i :| 0 <= i < |r| && r[i] == y;
      var j := if i < k then i else i + 1;
      assert y == s[j] && j != k;
    }
    forall y | y in s && y != s[k]
      ensures y in r
    {
      var i :| 0 <= i < |s| && s[i] == y;
      var j := if i < k then i else i - 1;
      assert r[j] == y;
    }
  }

  lemma RemovedDistinct(s: seq<nat>, k: nat)
    requires k < |s| && Distinct(s)
    ensures Distinct(s[..k] + s[k + 1..])
  {
    var r := s[..k] + s[k + 1..];
    DropIndex(s, k);
    forall i, j | 0 <= i < j < |r|
      ensures r[i] != r[j]
    {
      var i', j' := if i < k then i else i + 1, if j < k then j else j + 1;
      assert r[i] == s[i'] && r[j] == s[j'];
    }
  }

  /** The `Installer` object. */
  class Installer {
    /** `_queue`: pending actions, newest first. */
    var queue: seq<Action>
    /** `_processes`: the ids of processes not yet reported finished. */
    var processes: seq<nat>
    /** `_exit_code`. */
    var exitCode: int
    /** `_conda_env_path`: `sys.prefix` for a conda installer inside a conda environment. */
    var condaEnvPath: Option<string>
    /** Whether `_output_widget` is set. */
    var outputWidget: bool
    /** How often the output widget has been cleared before a start. */
    var outputClears: nat
    /** The id the next process gets. */
    var nextPid: nat
    /** Every process started so far, in order. */
    var launches: seq<Launch>
    /** Every signal emitted so far, in order. */
    var signals: seq<Signal>
    /** Every package handed to `plugin_manager.unregister`, in order. */
    var unregistered: seq<string>
    /** Every action requested through `install` or `uninstall`, in order. */
    ghost var requested: seq<Action>

    /** What holds between any two steps, also with an action on the queue. */
    ghost predicate Wf()
      reads this
    {
      && exitCode == 0
      && (forall i :: 0 <= i < |signals| && signals[i].Finished? ==> signals[i].exitCode == 0)
      && Distinct(processes)
      && (forall p :: p in processes ==> p < nextPid)
      && nextPid == |launches|
    }

    /**
     * What holds between calls: the queue is empty, the i-th process runs
     * the i-th requested action, and the unregistered packages are those of
     * the requested uninstalls.
     */
    ghost predicate Valid()
      reads this
    {
      && Wf()
      && queue == []
      && outputClears == 0
      && launches == LaunchesOf(requested, condaEnvPath)
      && unregistered == Unregistered(requested)
    }

    /**
     * `__init__`; `outputPresent` says whether an output widget is passed and
     * `condaMetaIsDir` whether `sys.prefix/conda-meta` is a directory.
     */
    constructor (outputPresent: bool, installer: InstallerType, condaMetaIsDir: bool, sysPrefix: string)
      ensures Valid()
      ensures queue == [] && processes == [] && launches == [] && signals == [] && unregistered == []
      ensures condaEnvPath == if installer != Pip && condaMetaIsDir then Some(sysPrefix) else None
      ensures outputWidget == outputPresent && requested == []
    {
      queue := [];
      processes := [];
      exitCode := 0;
      condaEnvPath := if installer != Pip && condaMetaIsDir then Some(sysPrefix) else None;
      outputWidget := outputPresent;
      outputClears := 0;
      nextPid := 0;
      launches := [];
      signals := [];
      unregistered := [];
      requested := [];
    }

    /** `set_output_widget`: only a present widget replaces the current one. */
    method SetOutputWidget(present: bool)
      requires Valid()
      modifies this`outputWidget
      ensures Valid()
      ensures outputWidget == (old(outputWidget) || present)
    {
      if present {
        outputWidget := true;
      }
    }

    /** `_create_process` and `process.start()`: register a new process with its arguments. */
    method StartProcess(program: Program, args: seq<Arg>) returns (pid: nat)
      requires Wf()
      modifies this`processes, this`nextPid, this`launches, this`outputClears
      ensures Wf()
      ensures pid == old(nextPid) && nextPid == pid + 1
      ensures processes == old(processes) + [pid] && launches == old(launches) + [Launch(pid, program, args)]
      ensures outputClears == old(outputClears) + if outputWidget && queue != [] then 1 else 0
    {
      pid := nextPid;
      assert pid !in processes;
      nextPid := nextPid + 1;
      processes := processes + [pid];
      launches := launches + [Launch(pid, program, args)];
      if outputWidget && queue != [] {
        outputClears := outputClears + 1;
      }
    }

    /** The conda/mamba header with `verb`, then a `-c` pair per channel, as the channel loop builds it. */
    method CondaArgs(verb: string, channels: seq<string>) returns (args: seq<Arg>)
      ensures args == CondaHeader(verb, condaEnvPath) + ChannelArgs(channels)
    {
      args := [Text(verb), Text("-y"), Text("--prefix"), EnvArg(condaEnvPath)];
      var i := 0;
      while i < |channels|
        invariant 0 <= i <= |channels|
        invariant args == CondaHeader(verb, condaEnvPath) + ChannelArgs(channels[..i])
      {
        assert channels[..i + 1][..i] == channels[..i];
        args := args + [Text("-c"), Text(channels[i])];
        i := i + 1;
      }
      assert channels[..i] == channels;
    }

    /** `_install`: build the argument list and start the process. */
    method RunInstall(a: Action)
      requires Wf() && queue == [] && a.kind == InstallKind
      modifies this`processes, this`nextPid, this`launches, this`outputClears
      ensures Wf()
      ensures processes == old(processes) + [old(nextPid)]
      ensures launches == old(launches) + [LaunchOf(a, old(nextPid), condaEnvPath)]
      ensures outputClears == old(outputClears)
    {
      var cmd: seq<Arg>;
      if a.installer != Pip {
        cmd := CondaArgs("install", a.channels);
      } else {
        cmd := PipInstallHeader;
      }
      var pid := StartProcess(ProgramFor(a.installer), cmd + Texts(a.pkgs));
    }

    /** `_uninstall`: build the argument list, start the process, then unregister every package. */
    method RunUninstall(a: Action)
      requires Wf() && queue == [] && a.kind == UninstallKind
      modifies this`processes, this`nextPid, this`launches, this`outputClears, this`unregistered
      ensures Wf()
      ensures processes == old(processes) + [old(nextPid)]
      ensures launches == old(launches) + [LaunchOf(a, old(nextPid), condaEnvPath)]
      ensures unregistered == old(unregistered) + a.pkgs
      ensures outputClears == old(outputClears)
    {
      var args: seq<Arg>;
      if a.installer != Pip {
        args := CondaArgs("remove", a.channels);
      } else {
        args := PipUninstallHeader;
      }
      var pid := StartProcess(ProgramFor(a.installer), args + Texts(a.pkgs));
      Unregister(a.pkgs);
    }

    /** The loop of `_uninstall` handing each package to `plugin_manager.unregister`. */
    method Unregister(pkgs: seq<string>)
      modifies this`unregistered
      ensures unregistered == old(unregistered) + pkgs
    {
      var j := 0;
      while j < |pkgs|
        invariant 0 <= j <= |pkgs|
        invariant unregistered == old(unregistered) + pkgs[..j]
      {
        assert pkgs[..j + 1] == pkgs[..j] + [pkgs[j]];
        unregistered := unregistered + [pkgs[j]];
        j := j + 1;
      }
      assert pkgs[..j] == pkgs;
    }

    /**
     * `_handle_action`: run at most one action, the oldest on the queue, then
     * emit `finished` with the exit code if no process is outstanding.
     */
    method HandleAction()
      requires Wf() && |queue| <= 1
      modifies this`queue, this`processes, this`nextPid, this`launches, this`outputClears, this`unregistered, this`signals
      ensures Wf() && queue == [] && outputClears == old(outputClears)
      ensures old(queue) == [] ==>
        && processes == old(processes) && launches == old(launches) && unregistered == old(unregistered)
        && signals == old(signals) + (if processes == [] then [Finished(exitCode)] else [])
      ensures old(queue) != [] ==>
        var a := old(queue)[0];
        && processes == old(processes) + [old(nextPid)]
        && launches == old(launches) + [LaunchOf(a, old(nextPid), condaEnvPath)]
        && unregistered == old(unregistered) + (if a.kind == UninstallKind then a.pkgs else [])
        && signals == old(signals) + [Started]
    {
      if queue != [] {
        var a := queue[|queue| - 1];
        queue := queue[..|queue| - 1];
        signals := signals + [Started];
        if a.kind == InstallKind {
          RunInstall(a);
        } else {
          RunUninstall(a);
        }
      }
      if processes == [] {
        signals := signals + [Finished(exitCode)];
      }
    }

    /** Put `a` on the queue and handle it, as `install` and `uninstall` do. */
    method Request(a: Action)
      requires Valid()
      modifies this`queue, this`processes, this`nextPid, this`launches, this`outputClears, this`unregistered,
               this`signals, this`requested
      ensures Valid()
      ensures requested == old(requested) + [a]
      ensures processes == old(processes) + [old(nextPid)]
      ensures launches == old(launches) + [LaunchOf(a, old(nextPid), condaEnvPath)]
      ensures signals == old(signals) + [Started]
    {
      ghost var reqs := requested;
      queue := Enqueue(queue, a);
      requested := requested + [a];
      HandleAction();
      UnregisteredStep(reqs, a);
      LaunchesOfStep(reqs, a, condaEnvPath);
    }

    /** `install`: the new process runs the requested install and nothing finishes yet. */
    method Install(pkgs: seq<string>, installer: InstallerType, channels: seq<string>)
      requires Valid()
      modifies this`queue, this`processes, this`nextPid, this`launches, this`outputClears, this`unregistered,
               this`signals, this`requested
      ensures Valid()
      ensures requested == old(requested) + [Action(InstallKind, pkgs, installer, channels)]
      ensures processes == old(processes) + [old(nextPid)]
      ensures launches[|launches| - 1].args == InstallArgs(installer, condaEnvPath, channels, pkgs)
      ensures unregistered == old(unregistered) && signals == old(signals) + [Started]
    {
      Request(Action(InstallKind, pkgs, installer, channels));
    }

    /** `uninstall`: the new process runs the requested uninstall and every package is unregistered. */
    method Uninstall(pkgs: seq<string>, installer: InstallerType, channels: seq<string>)
      requires Valid()
      modifies this`queue, this`processes, this`nextPid, this`launches, this`outputClears, this`unregistered,
               this`signals, this`requested
      ensures Valid()
      ensures requested == old(requested) + [Action(UninstallKind, pkgs, installer, channels)]
      ensures processes == old(processes) + [old(nextPid)]
      ensures launches[|launches| - 1].args == UninstallArgs(installer, condaEnvPath, channels, pkgs)
      ensures unregistered == old(unregistered) + pkgs && signals == old(signals) + [Started]
    {
      Request(Action(UninstallKind, pkgs, installer, channels));
    }

    /**
     * `_on_process_finished`: the exit code is reset to 0 whatever the process
     * reported, the process is dropped if it is still listed, and `finished`
     * is emitted exactly when no process is left.
     */
    method OnProcessFinished(pid: nat, code: int)
      requires Valid()
      modifies this`exitCode, this`queue, this`processes, this`nextPid, this`launches, this`outputClears,
               this`unregistered, this`signals
      ensures Valid()
      ensures launches == old(launches) && unregistered == old(unregistered)
      ensures pid in old(processes) ==> processes == RemoveFirst(old(processes), pid)
      ensures pid !in old(processes) ==> processes == old(processes)
      ensures forall q :: q in processes <==> q in old(processes) && q != pid
      ensures signals == old(signals) + (if processes == [] then [Finished(0)] else [])
    {
      if code != 0 {
        exitCode := 0;
      }
      DropProcess(pid);
      HandleAction();
    }

    /** The removal in `_on_process_finished`: drop `pid` from the running processes if it is listed. */
    method DropProcess(pid: nat)
      requires Distinct(processes)
      modifies this`processes
      ensures pid in old(processes) ==> processes == RemoveFirst(old(processes), pid)
      ensures pid !in old(processes) ==> processes == old(processes)
      ensures Distinct(processes)
      ensures forall q :: q in processes <==> q in old(processes) && q != pid
    {
      if pid in processes {
        RemoveFirstKeepsOthers(processes, pid);
        processes := RemoveFirst(processes, pid);
      }
    }
  }
}
