/** The abstract host the runners act on: a filesystem map from path to node, the
    process environment and umask, the state of the descriptor file, and what the
    process has handed to the outside world (standard output, downloads, shell
    commands and the final `execve`). */
module Host {
  import opened Strings

  datatype Option<T> = None | Some(value: T)

  /** Permission and file-type bits, as `st_mode` holds them. */
  type Mode = bv16

  const S_IFCHR: Mode := 0x2000      // 0o020000
  const NewFilePerms: Mode := 0x1B6  // 0o666, what open(..., 'w') asks for
  const NewDirPerms: Mode := 0x1FF   // 0o777, what os.mkdir asks for
  const ExecBits: Mode := 0x49       // 0o111, S_IXUSR | S_IXGRP | S_IXOTH

  datatype Owner = Owner(user: string, group: string)

  /** One entry of the filesystem. Symbolic links are never followed by the model. */
  datatype Node =
    | Dir(mode: Mode, owner: Owner)
    | File(content: string, mode: Mode, owner: Owner)
    | Symlink(target: string)
    | CharDev(major: nat, minor: nat, mode: Mode)

  /** Absolute path to node. */
  type Fs = map<string, Node>

  /** The exceptions the core raises or lets through. */
  datatype Error =
    | ValueError(message: string)
    | Conflict(archive: string, folder: string)
    | NotFound(path: string)
    | FileExists(path: string)
    | NotADirectory(path: string)
    | IsADirectory(path: string)
    | Unsupported(path: string)
    | DownloadError(url: string)
    | ExtractionError(archive: string)
    | KeyError(key: string)
    | UsageError(message: string)

  datatype Result<T> = Ok(value: T) | Err(error: Error)

  datatype Outcome = Done | Failed(error: Error)

  /** The filesystem after a step, and whether the step completed or raised. */
  datatype Res = Res(fs: Fs, outcome: Outcome)

  predicate IsDir(fs: Fs, p: string) { p in fs && fs[p].Dir? }

  /** `os.path.isfile`, without following links. */
  predicate IsFile(fs: Fs, p: string) { p in fs && fs[p].File? }

  predicate IsLink(fs: Fs, p: string) { p in fs && fs[p].Symlink? }

  /** `p` is `root` or lies below it. */
  predicate Within(root: string, p: string) {
    p == root || StartsWith(p, root + "/")
  }

  /** Every entry of `fs` is still in `fs'`, unchanged. */
  predicate Extends(fs: Fs, fs': Fs) {
    forall p :: p in fs ==> p in fs' && fs'[p] == fs[p]
  }

  /** `shutil.rmtree(root)`: `root` and everything below it disappear, nothing else changes. */
  function RemoveTree(fs: Fs, root: string): Fs {
    map p | p in fs && !Within(root, p) :: fs[p]
  }

  function NewDir(owner: Owner, umask: Mode): Node {
    Dir(NewDirPerms & !umask, owner)
  }

  function NewFile(content: string, owner: Owner, umask: Mode): Node {
    File(content, NewFilePerms & !umask, owner)
  }

  /** The `mkdir` helper of vr.common: nothing when `p` is already a directory, otherwise
      `os.makedirs(p)`, which creates the missing ancestors first and fails without
      creating anything when an existing component is not a directory. */
  function MakeDirs(fs: Fs, p: string, owner: Owner, umask: Mode): (r: Result<Fs>)
    ensures IsDir(fs, p) ==> r == Ok(fs)
    ensures r.Ok? ==> IsDir(r.value, p) && Extends(fs, r.value)
    ensures r.Ok? ==> forall q :: q in r.value && q !in fs ==> r.value[q] == NewDir(owner, umask)
    decreases |p|
  {
    if p in fs then
      if fs[p].Dir? then Ok(fs) else Err(FileExists(p))
    else
      var parent := Dirname(p);
      if parent == [] || |parent| >= |p| then Ok(fs[p := NewDir(owner, umask)])
      else if parent in fs && !fs[parent].Dir? then Err(NotADirectory(p))
      else
        match MakeDirs(fs, parent, owner, umask)
        case Err(e) => Err(e)
        case Ok(fs1) => Ok(fs1[p := NewDir(owner, umask)])
  }

  /** `os.makedirs` creates nothing but `p` and its missing ancestors: every new entry is
      a prefix of `p`. */
  lemma {:induction false} MakeDirsOnlyAncestors(fs: Fs, p: string, owner: Owner, umask: Mode)
    requires MakeDirs(fs, p, owner, umask).Ok?
    ensures var r := MakeDirs(fs, p, owner, umask).value;
            forall q :: q in r && q !in fs ==> StartsWith(p, q)
    decreases |p|
  {
    var parent := Dirname(p);
    if p !in fs && parent != [] && |parent| < |p| {
      MakeDirsOnlyAncestors(fs, parent, owner, umask);
      var fs1 := MakeDirs(fs, parent, owner, umask).value;
      forall q | q in fs1 && q !in fs
        ensures StartsWith(p, q)
      {
        StartsWithTrans(p, parent, q);
      }
    }
  }

  /** The parent directory `open` and `os.mknod` need: present, or a relative name. */
  predicate ParentReady(fs: Fs, p: string) {
    Dirname(p) == [] || IsDir(fs, Dirname(p))
  }

  /** `open(p, 'w').write(text)`: truncates an existing file, keeping its mode and owner,
      or creates a new one under the umask. */
  function WriteText(fs: Fs, p: string, text: string, owner: Owner, umask: Mode): (r: Result<Fs>)
    ensures r.Ok? <==> IsFile(fs, p) || (p !in fs && ParentReady(fs, p))
    ensures r.Ok? ==> p in r.value && r.value == fs[p := r.value[p]] && r.value[p].File? && r.value[p].content == text
    ensures r.Ok? && IsFile(fs, p) ==> r.value[p].mode == fs[p].mode && r.value[p].owner == fs[p].owner
  {
    if p in fs then
      match fs[p]
      case File(_, mode, o) => Ok(fs[p := File(text, mode, o)])
      case Dir(_, _) => Err(IsADirectory(p))
      case _ => Err(Unsupported(p))
    else if ParentReady(fs, p) then Ok(fs[p := NewFile(text, owner, umask)])
    else Err(NotFound(p))
  }

  /** `os.chmod(p, os.stat(p).st_mode | bits)` on a regular file. */
  function AddFileBits(fs: Fs, p: string, bits: Mode): Result<Fs> {
    if IsFile(fs, p) then Ok(fs[p := File(fs[p].content, fs[p].mode | bits, fs[p].owner)])
    else Err(NotFound(p))
  }

  /** The descriptor file opened by `main`. */
  datatype Descriptor = Unopened | Open | Locked | Closed

  /** An `os.execve` of the engine: the argument vector, and the state of the descriptor
      file at the moment the process image is replaced. */
  datatype Handoff = Handoff(argv: seq<string>, descriptor: Descriptor)

  /** The running process and the host it runs on. */
  class Os {
    var fs: Fs
    var environ: map<string, string>
    var umask: Mode
    /** The user and group new files and directories belong to. */
    const owner: Owner
    var descriptor: Descriptor
    /** Lines written to standard output by the core (only the uptest result is kept). */
    var stdout: seq<string>
    /** The URLs downloaded, in order. */
    var fetched: seq<string>
    /** The command lines passed to `os.system`, in order. */
    var system: seq<string>
    /** Set once the process image has been replaced. */
    var handoff: Option<Handoff>

    constructor (fs: Fs, environ: map<string, string>, umask: Mode, owner: Owner)
      ensures this.fs == fs && this.environ == environ && this.umask == umask
      ensures this.owner == owner && descriptor == Unopened
      ensures stdout == [] && fetched == [] && system == [] && handoff == None
    {
      this.fs := fs;
      this.environ := environ;
      this.umask := umask;
      this.owner := owner;
      descriptor := Unopened;
      stdout := [];
      fetched := [];
      system := [];
      handoff := None;
    }
  }
}
