/** The text and argument vectors `BaseRunner` computes (vr/runners/base.py): the env.sh
    script, the memory-limit and bind-mount lines of proc.lxc, the `lxc-start` argument
    vector and the container-name rule behind it, and command resolution. */
module BaseRender {
  import opened Strings
  import opened Host

  // ---------------------------------------------------------------------------
  // LXC versions and the dialect they select

  /** An LXC version as `pkg_resources.parse_version` compares it: three numbers,
      ordered lexicographically. */
  datatype Version = Version(major: nat, minor: nat, micro: nat)

  predicate Below(a: Version, b: Version) {
    a.major < b.major
    || (a.major == b.major && a.minor < b.minor)
    || (a.major == b.major && a.minor == b.minor && a.micro < b.micro)
  }

  predicate AtLeast(a: Version, b: Version) { !Below(a, b) }

  const V1: Version := Version(1, 0, 0)
  const V2: Version := Version(2, 0, 0)

  /** What a version of LXC accepts: whether the network-isolation stanza is emitted, the
      overlay mount keyword, whether the overlay takes a work directory, and whether
      `lxc-start` needs `--foreground`. */
  datatype Dialect = Dialect(network: bool, overlayKeyword: string, workdir: bool, foreground: bool)

  function DialectFor(v: Version): (d: Dialect)
    ensures d.network <==> AtLeast(v, V1)
    ensures d.overlayKeyword == (if AtLeast(v, V2) then "overlay" else "overlayfs")
    ensures d.workdir <==> AtLeast(v, V2)
    ensures d.foreground <==> AtLeast(v, V2)
  {
    if Below(v, V1) then Dialect(false, "overlayfs", false, false)
    else if Below(v, V2) then Dialect(true, "overlayfs", false, false)
    else Dialect(true, "overlay", true, true)
  }

  /** Stand-in for `get_lxc_network_config`: the isolation line when the dialect has one. */
  function NetworkConfig(v: Version): (r: string)
    ensures r == (if DialectFor(v).network then "lxc.network.type = none" else "")
  {
    if AtLeast(v, V1) then "lxc.network.type = none" else ""
  }

  /** Later versions never drop a feature an earlier one has. */
  lemma DialectMonotone(v: Version, w: Version)
    requires !Below(w, v)
    ensures DialectFor(v).network ==> DialectFor(w).network
    ensures DialectFor(v).workdir ==> DialectFor(w).workdir
    ensures DialectFor(v).foreground ==> DialectFor(w).foreground
  {
  }

  // ---------------------------------------------------------------------------
  // Configuration values

  /** A scalar of the proc.yaml descriptor: `None`, a string or an integer. */
  datatype Value = Null | Str(s: string) | Int(i: int)

  /** Python truthiness of a descriptor value. */
  predicate Truthy(v: Value) {
    match v
    case Null => false
    case Str(s) => s != ""
    case Int(i) => i != 0
  }

  /** Python truthiness of an optional string. */
  predicate Given(o: Option<string>) { o.Some? && o.value != "" }

  /** `str(v)`, which both `%s` and `{}` formatting use. */
  function Text(v: Value): string {
    match v
    case Null => "None"
    case Str(s) => s
    case Int(i) => IntToString(i)
  }

  // ---------------------------------------------------------------------------
  // env.sh (base.py:129-145)

  /** `_interpolate`: a string value `$NAME` becomes the provisioning process's `NAME`,
      or the empty string when it has none; any other value is printed as it is. */
  function Interpolate(v: Value, environ: map<string, string>): (r: string)
    ensures v.Str? && StartsWith(v.s, "$") ==>
      r == (if v.s[1..] in environ then environ[v.s[1..]] else "")
    ensures !(v.Str? && StartsWith(v.s, "$")) ==> r == Text(v)
  {
    match v
    case Str(s) => if |s| > 0 && s[0] == '$' then (if s[1..] in environ then environ[s[1..]] else "") else s
    case _ => Text(v)
  }

  /** `format_var` */
  function ExportLine(key: string, v: Value, environ: map<string, string>): string {
    "export " + key + "=\"" + Interpolate(v, environ) + "\""
  }

  /** The export lines of `env`, in its order. */
  function ExportLines(env: seq<(string, Value)>, environ: map<string, string>): (lines: seq<string>)
    ensures |lines| == |env|
    ensures forall i :: 0 <= i < |env| ==> lines[i] == ExportLine(env[i].0, env[i].1, environ)
  {
    seq(|env|, i requires 0 <= i < |env| => ExportLine(env[i].0, env[i].1, environ))
  }

  /** The text written to env.sh: the export lines joined by newlines, with one newline
      after them (so an empty env gives a lone newline). */
  function EnvSh(env: seq<(string, Value)>, environ: map<string, string>): string {
    Join("\n", ExportLines(env, environ)) + "\n"
  }

  /** Each line followed by a newline. */
  function Terminated(lines: seq<string>): string {
    if lines == [] then "" else lines[0] + "\n" + Terminated(lines[1..])
  }

  /** Reference reading of env.sh: each entry contributes its export line and a newline. */
  function EnvShLines(env: seq<(string, Value)>, environ: map<string, string>): string {
    Terminated(ExportLines(env, environ))
  }

  /** Joining non-empty lines with newlines and adding one newline terminates each line. */
  lemma {:induction false} JoinTerminated(lines: seq<string>)
    requires lines != []
    ensures Join("\n", lines) + "\n" == Terminated(lines)
    decreases |lines|
  {
    if |lines| >= 2 {
      JoinTerminated(lines[1..]);
      JoinFirst("\n", lines);
      assert Join("\n", lines) + "\n" == lines[0] + "\n" + (Join("\n", lines[1..]) + "\n");
    }
  }

  lemma {:induction false} TerminatedAppend(a: seq<string>, b: seq<string>)
    ensures Terminated(a + b) == Terminated(a) + Terminated(b)
    decreases |a|
  {
    if a != [] {
      assert (a + b)[0] == a[0] && (a + b)[1..] == a[1..] + b;
      TerminatedAppend(a[1..], b);
      assert a[0] + "\n" + (Terminated(a[1..]) + Terminated(b))
          == (a[0] + "\n" + Terminated(a[1..])) + Terminated(b);
    } else {
      assert a + b == b;
    }
  }

  /** The joined text is exactly one terminated export line per entry, in order; the
      empty env gives a single newline. */
  lemma EnvShIsLines(env: seq<(string, Value)>, environ: map<string, string>)
    ensures env != [] ==> EnvSh(env, environ) == EnvShLines(env, environ)
    ensures env == [] ==> EnvSh(env, environ) == "\n"
  {
    if env != [] {
      JoinTerminated(ExportLines(env, environ));
    }
  }

  lemma ExportLinesAppend(a: seq<(string, Value)>, b: seq<(string, Value)>, environ: map<string, string>)
    ensures ExportLines(a + b, environ) == ExportLines(a, environ) + ExportLines(b, environ)
  {
    var l, la, lb := ExportLines(a + b, environ), ExportLines(a, environ), ExportLines(b, environ);
    forall i | 0 <= i < |l|
      ensures l[i] == (la + lb)[i]
    {
      if i < |a| {
        assert (a + b)[i] == a[i];
      } else {
        assert (a + b)[i] == b[i - |a|];
      }
    }
  }

  /** Concatenating two envs concatenates their scripts: lines keep the declared order. */
  lemma EnvShLinesAppend(a: seq<(string, Value)>, b: seq<(string, Value)>, environ: map<string, string>)
    ensures EnvShLines(a + b, environ) == EnvShLines(a, environ) + EnvShLines(b, environ)
  {
    ExportLinesAppend(a, b, environ);
    TerminatedAppend(ExportLines(a, environ), ExportLines(b, environ));
  }

  // ---------------------------------------------------------------------------
  // Memory limits (base.py:330-343)

  function MemLine(limit: Value): string {
    "lxc.cgroup.memory.limit_in_bytes = " + Text(limit)
  }

  function MemswLine(limit: Value): string {
    "lxc.cgroup.memory.memsw.limit_in_bytes = " + Text(limit)
  }

  /** `get_lxc_memory_limits`: the memory line when `mem_limit` is set, then the
      memory+swap line when `memsw_limit` is set, newline-separated. */
  function MemoryLimits(mem: Value, memsw: Value): (r: string)
    ensures r == "" <==> !Truthy(mem) && !Truthy(memsw)
    ensures Truthy(mem) && Truthy(memsw) ==> r == MemLine(mem) + "\n" + MemswLine(memsw)
    ensures Truthy(mem) && !Truthy(memsw) ==> r == MemLine(mem)
    ensures !Truthy(mem) && Truthy(memsw) ==> r == MemswLine(memsw)
  {
    var lines := (if Truthy(mem) then [MemLine(mem)] else []) + (if Truthy(memsw) then [MemswLine(memsw)] else []);
    Join("\n", lines)
  }

  // ---------------------------------------------------------------------------
  // Bind mounts (base.py:269-277)

  /** The bind-mount line of one volume, with its leading newline. */
  function VolumeLine(outside: string, inside: string, containerPath: string): string {
    "\nlxc.mount.entry = " + outside + " " + containerPath + inside + " none bind 0 0"
  }

  /** The bind-mount text for `volumes`, built as the loop builds it: one line appended per
      pair. */
  function VolumeText(volumes: seq<(string, string)>, containerPath: string): string
    decreases |volumes|
  {
    if volumes == [] then ""
    else
      var last := volumes[|volumes| - 1];
      VolumeText(volumes[..|volumes| - 1], containerPath) + VolumeLine(last.0, last.1, containerPath)
  }

  /** `get_lxc_volume_str` */
  method GetLxcVolumeStr(volumes: seq<(string, string)>, containerPath: string) returns (content: string)
    ensures content == VolumeText(volumes, containerPath)
  {
    content := "";
    var i := 0;
    while i < |volumes|
      invariant 0 <= i <= |volumes|
      invariant content == VolumeText(volumes[..i], containerPath)
    {
      var (outside, inside) := volumes[i];
      assert volumes[..i + 1][..i] == volumes[..i];
      content := content + VolumeLine(outside, inside, containerPath);
      i := i + 1;
    }
    assert volumes[..i] == volumes;
  }

  /** The volume text splits along any split of the volume list, so each pair contributes
      its own line, in declared order. */
  lemma {:induction false} VolumeTextAppend(a: seq<(string, string)>, b: seq<(string, string)>, containerPath: string)
    ensures VolumeText(a + b, containerPath) == VolumeText(a, containerPath) + VolumeText(b, containerPath)
    decreases |b|
  {
    if b == [] {
      assert a + b == a;
    } else {
      var b', last := b[..|b| - 1], b[|b| - 1];
      var line := VolumeLine(last.0, last.1, containerPath);
      assert (a + b)[..|a + b| - 1] == a + b';
      assert (a + b)[|a + b| - 1] == last;
      assert VolumeText(a + b, containerPath) == VolumeText(a + b', containerPath) + line;
      assert VolumeText(b, containerPath) == VolumeText(b', containerPath) + line;
      VolumeTextAppend(a, b', containerPath);
    }
  }

  /** One pair gives exactly its line, and no volumes give the empty string. */
  lemma {:induction false} VolumeTextShape(volumes: seq<(string, string)>, containerPath: string)
    ensures VolumeText(volumes, containerPath) == "" <==> volumes == []
    ensures |volumes| == 1 ==>
      VolumeText(volumes, containerPath) == VolumeLine(volumes[0].0, volumes[0].1, containerPath)
  {
    if volumes != [] {
      var last := volumes[|volumes| - 1];
      assert |VolumeLine(last.0, last.1, containerPath)| > 0;
    }
  }

  // ---------------------------------------------------------------------------
  // The lxc-start invocation (base.py:162-178, 207-267)

  /** `hexdigest()[:8]` */
  function Prefix8(h: string): (r: string)
    ensures |r| == (if |h| < 8 then |h| else 8) && StartsWith(h, r)
  {
    if |h| <= 8 then h else h[..8]
  }

  /** The container name `lxc-start` is given: the primary name, or for a special command
      the primary name plus `-TMP` and the first eight hex digits of the command's md5. */
  function StartName(name: string, special: Option<string>, md5hex: string -> string): string {
    if Given(special) then name + "-TMP" + Prefix8(md5hex(special.value)) else name
  }

  /** An ephemeral name always differs from the primary one and is at most 12 characters
      longer; for a digest of at least eight characters (an md5 hex digest has 32) it is the
      primary name, `-TMP` and exactly the digest's first eight characters. */
  lemma EphemeralName(name: string, special: Option<string>, md5hex: string -> string)
    requires Given(special)
    ensures StartName(name, special, md5hex) != name
    ensures StartsWith(StartName(name, special, md5hex), name + "-TMP")
    ensures |StartName(name, special, md5hex)| <= |name| + 12
    ensures |md5hex(special.value)| >= 8 ==>
              StartName(name, special, md5hex) == name + "-TMP" + md5hex(special.value)[..8]
              && |StartName(name, special, md5hex)| == |name| + 12
  {
    var n := StartName(name, special, md5hex);
    assert n[..|name| + 4] == name + "-TMP";
  }

  /** The argument to `/proc.sh`: the special command, or `run`. */
  function StartCommand(special: Option<string>): string {
    if Given(special) then special.value else "run"
  }

  /** The `bash -c` script run as the app user inside the container. */
  function InnerScript(cmd: string): string {
    "cd /app;source /env.sh; exec /proc.sh \"" + cmd + "\""
  }

  function ForegroundArgs(v: Version): seq<string> {
    if AtLeast(v, V2) then ["--foreground"] else []
  }

  function LogArgs(appFolder: Option<string>): seq<string> {
    if Given(appFolder) then ["--logpriority", "debug", "--logfile", PathJoin(appFolder.value, ".lxcdebug.log")] else []
  }

  /** `get_lxc_args` */
  function LxcArgs(name: string, procPath: string, v: Version, special: Option<string>,
                   appFolder: Option<string>, user: string, md5hex: string -> string): (r: seq<string>)
    ensures |r| == 14 + |ForegroundArgs(v)| + |LogArgs(appFolder)|
    ensures r[..5] == ["lxc-start", "--name", StartName(name, special, md5hex), "--rcfile", PathJoin(procPath, "proc.lxc")]
    ensures r[5] == "--foreground" <==> AtLeast(v, V2)
    ensures r[5 + |ForegroundArgs(v)|] == "--logpriority" <==> Given(appFolder)
    ensures Given(appFolder) ==>
              r[5 + |ForegroundArgs(v)|..9 + |ForegroundArgs(v)|]
              == ["--logpriority", "debug", "--logfile", PathJoin(appFolder.value, ".lxcdebug.log")]
    ensures r[|r| - 9..] == ["--", "sudo", "-u", user, "-E", "-s", "/bin/bash", "-c", InnerScript(StartCommand(special))]
  {
    ["lxc-start", "--name", StartName(name, special, md5hex), "--rcfile", PathJoin(procPath, "proc.lxc")]
    + ForegroundArgs(v) + LogArgs(appFolder)
    + ["--", "sudo", "-u", user, "-E", "-s", "/bin/bash", "-c", InnerScript(StartCommand(special))]
  }

  /** The flag `get_lxc_args` adds for new versions is the one the dialect table asks for. */
  lemma ForegroundFollowsDialect(v: Version)
    ensures ForegroundArgs(v) == (if DialectFor(v).foreground then ["--foreground"] else [])
  {
  }

  /** `ensure_container`: the `lxc-create` command line handed to `os.system`, issued only
      from LXC 2.0.0 on. */
  function LxcCreateCommand(v: Version, name: string): (r: Option<string>)
    ensures r.Some? <==> AtLeast(v, V2)
    ensures r.Some? ==> StartsWith(r.value, "lxc-create --name " + name + " ")
  {
    if Below(v, V2) then None
    else
      // the words of the command, separated by single spaces, with output discarded
      var head := "lxc-create --name " + name + " ";
      var line := head + "--template none > /dev/null 2>&1";
      assert line[..|head|] == head;
      Some(line)
  }

  // ---------------------------------------------------------------------------
  // Command resolution (base.py:147-160)

  /** `get_cmd`: the descriptor's `cmd` when it is not `None` (even when empty), otherwise
      the Procfile's entry for the proc, with `procfile` the parsed Procfile or `None` when
      it cannot be read. */
  function ResolveCommand(cmd: Option<string>, procName: string, procfilePath: string,
                          procfile: Option<map<string, string>>): (r: Result<string>)
    ensures cmd.Some? ==> r == Ok(cmd.value)
    ensures cmd.None? ==> (r.Ok? <==> procfile.Some? && procName in procfile.value)
    ensures cmd.None? && r.Ok? ==> r.value == procfile.value[procName]
    ensures cmd.None? && procfile.Some? && procName !in procfile.value ==> r == Err(KeyError(procName))
  {
    if cmd.Some? then Ok(cmd.value)
    else if procfile.None? then Err(NotFound(procfilePath))
    else if procName in procfile.value then Ok(procfile.value[procName])
    else Err(KeyError(procName))
  }
}
