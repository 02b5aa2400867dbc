/** `BaseRunner.main` (vr/runners/base.py:39-80): the dispatch of a command name to the
    runner's operation, with the descriptor file opened, locked or closed according to
    the command's lock policy, and closed again when the command returns. */
module Lifecycle {
  import opened Strings
  import opened Host
  import opened BaseRender
  import opened BaseOps
  import opened Image

  datatype Command = Setup | Run | Shell | Uptest | Teardown

  /** `self.commands`, in its insertion order. */
  const CommandTable: seq<(string, Command)> := [
    ("setup", Setup), ("run", Run), ("shell", Shell), ("uptest", Uptest), ("teardown", Teardown)
  ]

  function Names(table: seq<(string, Command)>): (names: seq<string>)
    ensures |names| == |table|
    ensures forall i :: 0 <= i < |table| ==> names[i] == table[i].0
  {
    seq(|table|, i requires 0 <= i < |table| => table[i].0)
  }

  /** The names of the table, in its order. */
  lemma TableNames()
    ensures Names(CommandTable) == ["setup", "run", "shell", "uptest", "teardown"]
  {
    var n := Names(CommandTable);
    assert n[0] == "setup" && n[1] == "run" && n[2] == "shell" && n[3] == "uptest" && n[4] == "teardown";
  }

  /** The dictionary lookup `self.commands[name]`. */
  function Lookup(table: seq<(string, Command)>, name: string): (r: Option<Command>)
    ensures r.None? <==> name !in Names(table)
    ensures r.Some? ==> (name, r.value) in table
  {
    if table == [] then None
    else if table[0].0 == name then Some(table[0].1)
    else
      assert Names(table) == [table[0].0] + Names(table[1..]);
      Lookup(table[1..], name)
  }

  function NameOf(c: Command): string {
    match c
    case Setup => "setup"
    case Run => "run"
    case Shell => "shell"
    case Uptest => "uptest"
    case Teardown => "teardown"
  }

  /** Every entry of the table is a command under its own name. */
  lemma TableEntries()
    ensures forall e :: e in CommandTable ==> e.0 == NameOf(e.1)
  {
  }

  lemma NameOfInjective(c: Command, d: Command)
    ensures NameOf(c) == NameOf(d) ==> c == d
  {
  }

  /** The valid names are exactly the five command names, and each names its command. */
  lemma CommandNames(name: string, c: Command)
    ensures Lookup(CommandTable, NameOf(c)) == Some(c)
    ensures Lookup(CommandTable, name).Some? <==> name in ["setup", "run", "shell", "uptest", "teardown"]
    ensures Lookup(CommandTable, name) == Some(c) ==> name == NameOf(c)
  {
    TableNames();
    TableEntries();
    assert (NameOf(c), c) in CommandTable;
    var r := Lookup(CommandTable, NameOf(c));
    NameOfInjective(c, r.value);
  }

  /** The `SystemExit` message for an unknown command. */
  function UsageMessage(table: seq<(string, Command)>): string {
    "Command must be one of: " + Join(", ", Names(table))
  }

  /** `sep.join` of five parts. */
  lemma JoinFive(sep: string, a: string, b: string, c: string, d: string, e: string)
    ensures Join(sep, [a, b, c, d, e]) == a + sep + b + sep + c + sep + d + sep + e
  {
    var parts := [a, b, c, d, e];
    assert parts[1..] == [b, c, d, e] && parts[1..][1..] == [c, d, e] && parts[1..][1..][1..] == [d, e];
    JoinFirst(sep, parts[1..][1..][1..]);
    JoinFirst(sep, parts[1..][1..]);
    JoinFirst(sep, parts[1..]);
    JoinFirst(sep, parts);
  }

  /** The five names joined, spelled out (kept apart so that the literal comparison
      stays small). */
  lemma CommandListText()
    ensures Join(", ", ["setup", "run", "shell", "uptest", "teardown"]) == "setup, run, shell, uptest, teardown"
  {
    JoinFive(", ", "setup", "run", "shell", "uptest", "teardown");
    assert "setup" + ", " + "run" + ", " + "shell" + ", " + "uptest" + ", " + "teardown" == "setup, run, shell, uptest, teardown";
  }

  lemma UsageMessageText()
    ensures UsageMessage(CommandTable) == "Command must be one of: " + "setup, run, shell, uptest, teardown"
  {
    TableNames();
    CommandListText();
  }

  /** What a command does with the descriptor file before it runs: `lock_file` by default,
      `__close_file` for `shell` and `uptest`. */
  datatype LockPolicy = LockFile | CloseFile

  function LockOf(c: Command): (p: LockPolicy)
    ensures p == CloseFile <==> c == Shell || c == Uptest
  {
    if c == Shell || c == Uptest then CloseFile else LockFile
  }

  /** The descriptor's state once the command's policy has been applied. */
  function DescriptorAfter(p: LockPolicy): Descriptor {
    if p == LockFile then Locked else Closed
  }

  /** The runner classes: the base runner's subclasses name their proc.lxc template, and
      the image runner uses `image.lxc` and its own setup. */
  datatype RunnerKind = PlainRunner(template: string) | ImageRunner

  function SetupSpecFor(kind: RunnerKind, fs: Fs, environ: map<string, string>, owner: Owner, umask: Mode, j: Job): Res {
    match kind
    case PlainRunner(t) => BaseSetupSpec(fs, environ, owner, umask, j, t)
    case ImageRunner => ImageSetupSpec(fs, environ, owner, umask, j)
  }

  /** The URLs the runner's setup downloads. */
  function SetupFetchesFor(kind: RunnerKind, fs: Fs, owner: Owner, umask: Mode, j: Job): seq<string> {
    match kind
    case PlainRunner(_) => BaseSetupFetches(fs, owner, umask, j)
    case ImageRunner => ImageSetupFetches(fs, owner, umask, j)
  }

  class Runner {
    const kind: RunnerKind
    var commands: seq<(string, Command)>
    var config: Option<ProcConfig>

    constructor (kind: RunnerKind)
      ensures this.kind == kind && commands == [] && config == None
    {
      this.kind := kind;
      commands := [];
      config := None;
    }

    /** `self.setup()`, as the runner's class defines it. */
    method RunSetup(os: Os, j: Job) returns (outcome: Outcome)
      modifies os`fs, os`fetched, os`umask
      ensures Res(os.fs, outcome) == SetupSpecFor(kind, old(os.fs), os.environ, os.owner, old(os.umask), j)
      ensures os.fetched == old(os.fetched) + SetupFetchesFor(kind, old(os.fs), os.owner, old(os.umask), j)
      ensures os.umask == old(os.umask)
    {
      if kind.PlainRunner? {
        outcome := BaseSetup(os, j, kind.template);
      } else {
        outcome := ImageSetup(os, j);
      }
    }

    /** The call `cmd()`: the runner's operation for command `c`. */
    method Dispatch(os: Os, c: Command, j: Job) returns (outcome: Outcome)
      requires os.handoff == None
      modifies os`fs, os`fetched, os`umask, os`stdout, os`system, os`handoff
      ensures c == Setup ==>
                Res(os.fs, outcome) == SetupSpecFor(kind, old(os.fs), os.environ, os.owner, old(os.umask), j)
                && os.fetched == old(os.fetched) + SetupFetchesFor(kind, old(os.fs), os.owner, old(os.umask), j)
                && os.handoff == None
      ensures c != Setup ==> os.fetched == old(os.fetched) && os.umask == old(os.umask)
      ensures c == Teardown ==> os.fs == TeardownSpec(old(os.fs), j.paths.procPath) && outcome == Done && os.handoff == None
      ensures c == Run ==> os.handoff == Some(Handoff(StartArgs(j, None), os.descriptor)) && os.fs == old(os.fs)
      ensures c == Shell ==> os.handoff == Some(Handoff(StartArgs(j, Some(ShellCommand)), os.descriptor)) && os.fs == old(os.fs)
      ensures c == Uptest ==>
                Res(os.fs, outcome) == InstallUptesterSpec(old(os.fs), os.owner, os.umask, j)
                && (os.handoff.Some? ==> os.handoff == Some(Handoff(StartArgs(j, Some(UptestCommand(j))), os.descriptor)))
    {
      match c {
        case Setup =>
          outcome := RunSetup(os, j);
        case Run =>
          BaseOps.Run(os, j);
          outcome := Done;
        case Shell =>
          BaseOps.Shell(os, j);
          outcome := Done;
        case Uptest =>
          outcome := BaseOps.Uptest(os, j);
        case Teardown =>
          BaseOps.Teardown(os, j.paths.procPath);
          outcome := Done;
      }
    }

    /** The body of the `with` block for command `c`: the descriptor is opened, locked or
        closed by the command's policy, the command runs, and leaving the block closes
        the descriptor unless the process image was replaced. */
    method Execute(os: Os, c: Command, j: Job) returns (outcome: Outcome)
      requires os.handoff == None && os.descriptor == Unopened
      modifies os`descriptor, os`fs, os`fetched, os`umask, os`stdout, os`system, os`handoff
      ensures c == Setup ==>
                Res(os.fs, outcome) == SetupSpecFor(kind, old(os.fs), os.environ, os.owner, old(os.umask), j)
                && os.fetched == old(os.fetched) + SetupFetchesFor(kind, old(os.fs), os.owner, old(os.umask), j)
                && os.descriptor == Closed && os.handoff == None
      ensures c == Teardown ==>
                os.fs == TeardownSpec(old(os.fs), j.paths.procPath) && outcome == Done
                && os.descriptor == Closed && os.handoff == None
      ensures c == Run ==> os.handoff == Some(Handoff(StartArgs(j, None), Locked)) && os.fs == old(os.fs)
      ensures c == Shell ==> os.handoff == Some(Handoff(StartArgs(j, Some(ShellCommand)), Closed)) && os.fs == old(os.fs)
      ensures c == Uptest ==>
                Res(os.fs, outcome) == InstallUptesterSpec(old(os.fs), os.owner, os.umask, j)
                && os.descriptor == Closed
                && (os.handoff.Some? ==> os.handoff == Some(Handoff(StartArgs(j, Some(UptestCommand(j))), Closed)))
      ensures c != Setup ==> os.fetched == old(os.fetched) && os.umask == old(os.umask)
      ensures os.handoff.Some? ==> os.handoff.value.descriptor == DescriptorAfter(LockOf(c))
      ensures os.handoff.None? ==> os.descriptor == Closed
    {
      os.descriptor := Open;
      os.descriptor := DescriptorAfter(LockOf(c));
      outcome := Dispatch(os, c, j);
      if os.handoff.None? {
        os.descriptor := Closed;
      }
    }

    /** `main(command, file)` where `j` stands for the parsed descriptor file and the
        paths and collaborators that go with it. An unknown command exits before the
        descriptor is opened. */
    method HandleCommand(os: Os, command: string, j: Job) returns (outcome: Outcome)
      requires os.handoff == None && os.descriptor == Unopened
      modifies this`commands, this`config, os`descriptor
      modifies os`fs, os`fetched, os`umask, os`stdout, os`system, os`handoff
      ensures commands == CommandTable
      ensures Lookup(CommandTable, command).None? ==>
                outcome == Failed(UsageError(UsageMessage(CommandTable)))
                && os.fs == old(os.fs) && os.descriptor == Unopened && os.handoff == None && config == old(config)
                && os.stdout == old(os.stdout) && os.system == old(os.system)
                && os.fetched == old(os.fetched) && os.umask == old(os.umask)
      ensures Lookup(CommandTable, command) != Some(Setup) ==> os.fetched == old(os.fetched) && os.umask == old(os.umask)
      ensures Lookup(CommandTable, command).Some? ==> config == Some(j.cfg)
      ensures Lookup(CommandTable, command) == Some(Setup) ==>
                Res(os.fs, outcome) == SetupSpecFor(kind, old(os.fs), os.environ, os.owner, old(os.umask), j)
                && os.fetched == old(os.fetched) + SetupFetchesFor(kind, old(os.fs), os.owner, old(os.umask), j)
                && os.descriptor == Closed && os.handoff == None
      ensures Lookup(CommandTable, command) == Some(Teardown) ==>
                os.fs == TeardownSpec(old(os.fs), j.paths.procPath) && outcome == Done
                && os.descriptor == Closed && os.handoff == None
      ensures Lookup(CommandTable, command) == Some(Run) ==>
                os.handoff == Some(Handoff(StartArgs(j, None), Locked)) && os.fs == old(os.fs)
      ensures Lookup(CommandTable, command) == Some(Shell) ==>
                os.handoff == Some(Handoff(StartArgs(j, Some(ShellCommand)), Closed)) && os.fs == old(os.fs)
      ensures Lookup(CommandTable, command) == Some(Uptest) ==>
                Res(os.fs, outcome) == InstallUptesterSpec(old(os.fs), os.owner, os.umask, j)
                && os.descriptor == Closed
                && (os.handoff.Some? ==> os.handoff == Some(Handoff(StartArgs(j, Some(UptestCommand(j))), Closed)))
      ensures os.handoff.Some? ==>
                (Lookup(CommandTable, command).Some?
                 && os.handoff.value.descriptor == DescriptorAfter(LockOf(Lookup(CommandTable, command).value)))
      ensures os.handoff.None? && Lookup(CommandTable, command).Some? ==> os.descriptor == Closed
    {
      commands := CommandTable;
      var cmd := Lookup(commands, command);
      if cmd.None? {
        return Failed(UsageError(UsageMessage(commands)));
      }
      config := Some(j.cfg);
      outcome := Execute(os, cmd.value, j);
    }
  }
}
