/** What `BaseRunner` and the module-level helpers of vr/runners/base.py do to the host:
    `untar`, `ensure_file`/`download_file`, and the runner steps `make_proc_dirs`,
    `ensure_build`, the `write_*` steps, `setup`, `run`, `shell`, `uptest` and
    `teardown`. Each operation is a specification function from the old filesystem to a
    `Res`, and a method on the `Os` state proved to follow it. */
module BaseOps {
  import opened Strings
  import opened Host
  import opened BaseRender

  // ---------------------------------------------------------------------------
  // The descriptor, the derived paths and the collaborators

  /** The fields of proc.yaml (`ProcData`) the core reads. */
  datatype ProcConfig = ProcConfig(
    procName: string,
    port: int,
    user: string,
    group: string,
    host: string,
    cmd: Option<string>,
    env: seq<(string, Value)>,
    volumes: seq<(string, string)>,
    memLimit: Value,
    memswLimit: Value,
    buildUrl: Option<string>,
    buildMd5: Option<string>,
    appFolder: Option<string>,
    imageName: string,
    imageUrl: string,
    imageMd5: Option<string>,
    /** `yaml.safe_dump(config.settings, default_flow_style=False)` */
    settingsYaml: string)

  /** What the path builders of vr.common.paths return for the descriptor. */
  datatype Paths = Paths(
    containerName: string,
    procPath: string,
    containerPath: string,
    workPath: string,
    appPath: string,
    buildfilePath: string,
    buildsRoot: string,
    imagesRoot: string)

  /** Archive members, keyed by their path relative to the extraction directory. */
  type Tree = map<string, Node>

  /** The template context of proc.lxc (`get_proc_lxc_tmpl_ctx`); `image` holds the keys
      only the image runner adds. */
  datatype LxcContext = LxcContext(procPath: string, networkConfig: string, memoryLimits: string,
                                   volumes: string, image: Option<ImageContext>)

  datatype ImageContext = ImageContext(imagePath: string, workPath: string, overlayConfig: string)

  /** The template context of proc.sh (`write_proc_sh`). */
  datatype ProcShContext = ProcShContext(tmp: string, home: string, settings: string, envsh: string,
                                         port: int, cmd: string)

  /** The collaborators the core calls but whose insides are not modelled. */
  datatype Deps = Deps(
    /** `file_md5` and `hashlib.md5(...).hexdigest()` */
    md5: string -> string,
    /** the body `download_file` receives for a URL, `None` on a transport or HTTP error */
    fetch: string -> Option<string>,
    /** `tarfile.open(path, 'r:' + ext).extractall(...)` on the archive's content,
        `None` when the archive cannot be read */
    unpack: (string, string) -> Option<Tree>,
    /** `yaml.safe_load` of a Procfile, `None` when it is not a mapping */
    parseProcfile: string -> Option<map<string, string>>,
    /** `get_template(name) % ctx` for proc.lxc and proc.sh */
    renderLxc: (string, LxcContext) -> string,
    renderProcSh: ProcShContext -> string,
    /** the packaged `uptester/uptester` resource and its mode */
    uptester: string,
    uptesterMode: Mode,
    /** `get_lxc_version()` */
    version: Version)

  datatype Job = Job(cfg: ProcConfig, paths: Paths, deps: Deps)

  /** A `Result<Fs>` as a step: the new filesystem, or the old one and the error. */
  function Lift(fs: Fs, r: Result<Fs>): (res: Res)
    ensures r.Ok? ==> res == Res(r.value, Done)
    ensures r.Err? ==> res == Res(fs, Failed(r.error))
  {
    match r
    case Ok(fs') => Res(fs', Done)
    case Err(e) => Res(fs, Failed(e))
  }

  /** vr.common's `mkdir`, as a step. */
  method Mkdir(os: Os, p: string) returns (outcome: Outcome)
    modifies os`fs
    ensures Res(os.fs, outcome) == Lift(old(os.fs), MakeDirs(old(os.fs), p, os.owner, os.umask))
  {
    var r := MakeDirs(os.fs, p, os.owner, os.umask);
    if r.Ok? {
      os.fs := r.value;
      outcome := Done;
    } else {
      outcome := Failed(r.error);
    }
  }

  // ---------------------------------------------------------------------------
  // untar (base.py:368-424)

  const DirFixBits: Mode := 0x168   // 0o550, chmod ug+xr
  const FileFixBits: Mode := 0x1B0  // 0o660, chmod ug+rw

  /** The chown/chmod one walked item receives: directories get `ug+xr`, regular files
      `ug+rw`, both OR-ed into the existing mode; links and devices are left alone. */
  function FixNode(n: Node, owners: Owner): Node {
    match n
    case Dir(m, _) => Dir(m | DirFixBits, owners)
    case File(c, m, _) => File(c, m | FileFixBits, owners)
    case _ => n
  }

  function FixTree(tree: Tree, owners: Option<Owner>): (r: Tree)
    ensures r.Keys == tree.Keys
  {
    if owners.None? then tree else map k | k in tree :: FixNode(tree[k], owners.value)
  }

  /** The permission bits are added to, never taken from, the archive's own bits. */
  lemma FixNodeAddsBits(n: Node, owners: Owner)
    ensures n.Dir? ==> FixNode(n, owners) == Dir(n.mode | DirFixBits, owners)
    ensures n.Dir? ==> FixNode(n, owners).mode & n.mode == n.mode
    ensures n.Dir? ==> FixNode(n, owners).mode & DirFixBits == DirFixBits
    ensures n.File? ==> FixNode(n, owners) == File(n.content, n.mode | FileFixBits, owners)
    ensures n.File? ==> FixNode(n, owners).mode & n.mode == n.mode
    ensures n.File? ==> FixNode(n, owners).mode & FileFixBits == FileFixBits
    ensures n.Symlink? || n.CharDev? ==> FixNode(n, owners) == n
  {
  }

  /** The `contents.walk()` loop of `untar`, over the staged members. */
  method FixOwnership(tree: Tree, owners: Owner) returns (fixed: Tree)
    ensures fixed == FixTree(tree, Some(owners))
  {
    fixed := tree;
    var todo := tree.Keys;
    while todo != {}
      invariant todo <= tree.Keys && fixed.Keys == tree.Keys
      invariant forall k :: k in tree && k !in todo ==> fixed[k] == FixNode(tree[k], owners)
      invariant forall k :: k in todo ==> fixed[k] == tree[k]
      decreases todo
    {
      var item :| item in todo;
      fixed := fixed[item := FixNode(tree[item], owners)];
      todo := todo - {item};
    }
  }

  /** The path of member `rel` once the staging directory has become `folder`. */
  function Under(folder: string, rel: string): string {
    folder + "/" + rel
  }

  lemma UnderShape(folder: string, rel: string)
    ensures Within(folder, Under(folder, rel)) && Under(folder, rel) != folder
    ensures Under(folder, rel)[|folder| + 1..] == rel
  {
    assert Under(folder, rel)[..|folder + "/"|] == folder + "/";
  }

  lemma UnderInjective(folder: string)
    ensures forall r1, r2 :: Under(folder, r1) == Under(folder, r2) ==> r1 == r2
  {
    forall r1, r2 | Under(folder, r1) == Under(folder, r2) ensures r1 == r2 {
      UnderShape(folder, r1);
      UnderShape(folder, r2);
    }
  }

  /** The members of `tree`, at their places below `folder`. */
  function Moved(folder: string, tree: Tree): Fs {
    UnderInjective(folder);
    map rel | rel in tree :: Under(folder, rel) := tree[rel]
  }

  /** `shutil.move('contents', folder)` into a free `folder`: the staging directory becomes
      `folder`, its members sit below it. */
  function Place(fs: Fs, folder: string, top: Node, tree: Tree): Fs {
    fs + Moved(folder, tree) + map[folder := top]
  }

  const ExtensionMessage := "tarpath must point to a .gz or .bz2 file"

  /** The reading half of `untar`: the extension check, the archive's presence and its
      members. */
  function ReadArchive(fs: Fs, tarpath: string, unpack: (string, string) -> Option<Tree>): (r: Result<Tree>)
    ensures RPartitionTail(tarpath, '.') !in {"gz", "bz2"} ==> r == Err(ValueError(ExtensionMessage))
    ensures r.Ok? <==> RPartitionTail(tarpath, '.') in {"gz", "bz2"} && IsFile(fs, tarpath)
                       && unpack(RPartitionTail(tarpath, '.'), fs[tarpath].content).Some?
    ensures r.Ok? ==> r.value == unpack(RPartitionTail(tarpath, '.'), fs[tarpath].content).value
  {
    var ext := RPartitionTail(tarpath, '.');
    if ext != "gz" && ext != "bz2" then Err(ValueError(ExtensionMessage))
    else if !IsFile(fs, tarpath) then Err(NotFound(tarpath))
    else
      match unpack(ext, fs[tarpath].content)
      case None => Err(ExtractionError(tarpath))
      case Some(members) => Ok(members)
  }

  /** The moving half of `untar`: an existing directory is removed first when `overwrite`
      is set and is a conflict otherwise; anything else at `outfolder` makes the move fail. */
  function MoveInto(fs: Fs, owner: Owner, umask: Mode, tarpath: string, outfolder: string,
                    staged: Tree, overwrite: bool): Res
  {
    if IsDir(fs, outfolder) && !overwrite then Res(fs, Failed(Conflict(tarpath, outfolder)))
    else if outfolder in fs && !IsDir(fs, outfolder) then Res(fs, Failed(NotADirectory(outfolder)))
    else
      var base := if IsDir(fs, outfolder) then RemoveTree(fs, outfolder) else fs;
      Res(Place(base, outfolder, NewDir(owner, umask), staged), Done)
  }

  /** `untar(tarpath, outfolder, owners, overwrite)` on filesystem `fs`, for a process with
      the given owner and umask. The staging directory is not part of `fs`. */
  function UntarSpec(fs: Fs, owner: Owner, umask: Mode, tarpath: string, outfolder: string,
                     owners: Option<Owner>, overwrite: bool, unpack: (string, string) -> Option<Tree>): Res
  {
    match ReadArchive(fs, tarpath, unpack)
    case Err(e) => Res(fs, Failed(e))
    case Ok(members) => MoveInto(fs, owner, umask, tarpath, outfolder, FixTree(members, owners), overwrite)
  }

  /** The moving half of `untar`, on the host. */
  method MoveStaged(os: Os, tarpath: string, outfolder: string, staged: Tree, overwrite: bool)
    returns (outcome: Outcome)
    modifies os`fs
    ensures Res(os.fs, outcome) == MoveInto(old(os.fs), os.owner, os.umask, tarpath, outfolder, staged, overwrite)
  {
    if IsDir(os.fs, outfolder) {
      if overwrite {
        os.fs := RemoveTree(os.fs, outfolder);
      } else {
        return Failed(Conflict(tarpath, outfolder));
      }
    } else if outfolder in os.fs {
      return Failed(NotADirectory(outfolder));
    }
    os.fs := Place(os.fs, outfolder, NewDir(os.owner, os.umask), staged);
    outcome := Done;
  }

  /** `untar` */
  method Untar(os: Os, tarpath: string, outfolder: string, owners: Option<Owner>, overwrite: bool,
               unpack: (string, string) -> Option<Tree>) returns (outcome: Outcome)
    modifies os`fs
    ensures Res(os.fs, outcome) == UntarSpec(old(os.fs), os.owner, os.umask, tarpath, outfolder, owners, overwrite, unpack)
  {
    var members := ReadArchive(os.fs, tarpath, unpack);
    if members.Err? {
      return Failed(members.error);
    }
    var staged := members.value;
    if owners.Some? {
      staged := FixOwnership(staged, owners.value);
    }
    assert staged == FixTree(members.value, owners);
    outcome := MoveStaged(os, tarpath, outfolder, staged, overwrite);
  }

  /** Every failure of `untar` leaves the filesystem as it was; an existing folder with
      `overwrite` off is a conflict whenever the archive itself could be read. */
  lemma UntarAtomic(fs: Fs, owner: Owner, umask: Mode, tarpath: string, outfolder: string,
                    owners: Option<Owner>, overwrite: bool, unpack: (string, string) -> Option<Tree>)
    ensures var r := UntarSpec(fs, owner, umask, tarpath, outfolder, owners, overwrite, unpack);
            r.outcome.Failed? ==> r.fs == fs
    ensures var r := UntarSpec(fs, owner, umask, tarpath, outfolder, owners, overwrite, unpack);
            IsDir(fs, outfolder) && !overwrite ==> r.fs == fs && r.outcome.Failed?
    ensures var r := UntarSpec(fs, owner, umask, tarpath, outfolder, owners, overwrite, unpack);
            (IsDir(fs, outfolder) && !overwrite && ReadArchive(fs, tarpath, unpack).Ok?)
              ==> r.outcome == Failed(Conflict(tarpath, outfolder))
    ensures var r := UntarSpec(fs, owner, umask, tarpath, outfolder, owners, overwrite, unpack);
            r.outcome == Done <==> ReadArchive(fs, tarpath, unpack).Ok?
                                   && (IsDir(fs, outfolder) ==> overwrite) && (outfolder in fs ==> IsDir(fs, outfolder))
  {
  }

  /** Where `Place` puts the staged members: each one below `folder`, nothing else new
      below it, and everything outside it as in `base`. */
  lemma PlaceMembers(base: Fs, folder: string, top: Node, staged: Tree)
    ensures var r := Place(base, folder, top, staged);
            forall rel :: rel in staged ==> Under(folder, rel) in r && r[Under(folder, rel)] == staged[rel]
  {
    var m := Moved(folder, staged);
    forall rel | rel in staged
      ensures Under(folder, rel) in m && m[Under(folder, rel)] == staged[rel] && Under(folder, rel) != folder
    {
      UnderShape(folder, rel);
    }
  }

  lemma PlaceBelow(base: Fs, folder: string, top: Node, staged: Tree)
    ensures var r := Place(base, folder, top, staged);
            forall q :: q in r && q !in base && q != folder ==> Within(folder, q) && q[|folder| + 1..] in staged
  {
    var m := Moved(folder, staged);
    forall q | q in m
      ensures Within(folder, q) && q[|folder| + 1..] in staged
    {
      var rel :| rel in staged && q == Under(folder, rel);
      UnderShape(folder, rel);
    }
  }

  lemma PlaceOutside(base: Fs, folder: string, top: Node, staged: Tree)
    ensures var r := Place(base, folder, top, staged);
            forall q :: !Within(folder, q) ==> (q in r <==> q in base) && (q in base ==> r[q] == base[q])
  {
    PlaceBelow(base, folder, top, staged);
    assert Within(folder, folder);
  }

  /** A successful move leaves `outfolder` a fresh directory holding the staged members,
      nothing below it but those (and, when nothing was there before, paths that were
      already below it), and every path outside it as before. */
  lemma MoveIntoPlaces(fs: Fs, owner: Owner, umask: Mode, tarpath: string, outfolder: string,
                       staged: Tree, overwrite: bool)
    requires MoveInto(fs, owner, umask, tarpath, outfolder, staged, overwrite).outcome == Done
    ensures var r := MoveInto(fs, owner, umask, tarpath, outfolder, staged, overwrite).fs;
            && outfolder in r && r[outfolder] == NewDir(owner, umask)
            && (forall rel :: rel in staged ==> Under(outfolder, rel) in r && r[Under(outfolder, rel)] == staged[rel])
            && (forall q :: q in r && Within(outfolder, q) && q != outfolder && (IsDir(fs, outfolder) || q !in fs) ==>
                  q[|outfolder| + 1..] in staged)
            && (forall q :: !Within(outfolder, q) ==> (q in r <==> q in fs))
            && (forall q :: !Within(outfolder, q) && q in fs ==> r[q] == fs[q])
  {
    var base := if IsDir(fs, outfolder) then RemoveTree(fs, outfolder) else fs;
    PlaceMembers(base, outfolder, NewDir(owner, umask), staged);
    PlaceBelow(base, outfolder, NewDir(owner, umask), staged);
    PlaceOutside(base, outfolder, NewDir(owner, umask), staged);
  }

  /** A successful `untar` read the archive and moved its fixed-up members into place. */
  lemma UntarPlaces(fs: Fs, owner: Owner, umask: Mode, tarpath: string, outfolder: string,
                    owners: Option<Owner>, overwrite: bool, unpack: (string, string) -> Option<Tree>)
    requires UntarSpec(fs, owner, umask, tarpath, outfolder, owners, overwrite, unpack).outcome == Done
    ensures IsFile(fs, tarpath) && ReadArchive(fs, tarpath, unpack).Ok?
    ensures var members := ReadArchive(fs, tarpath, unpack).value;
            var r := UntarSpec(fs, owner, umask, tarpath, outfolder, owners, overwrite, unpack).fs;
            && IsDir(r, outfolder)
            && (forall rel :: rel in members ==>
                  Under(outfolder, rel) in r && r[Under(outfolder, rel)] == FixTree(members, owners)[rel])
            && (forall q :: !Within(outfolder, q) ==> (q in r <==> q in fs))
  {
    var members := ReadArchive(fs, tarpath, unpack).value;
    MoveIntoPlaces(fs, owner, umask, tarpath, outfolder, FixTree(members, owners), overwrite);
  }

  // ---------------------------------------------------------------------------
  // ensure_file and download_file (base.py:427-448)

  /** The condition of `ensure_file`: no regular file at `path`, or an md5 is given and the
      file's md5 differs from it. */
  predicate NeedsDownload(fs: Fs, path: string, md5sum: Option<string>, md5: string -> string) {
    !IsFile(fs, path) || (Given(md5sum) && md5sum.value != md5(fs[path].content))
  }

  /** `download_file`: the body is written to a temporary file and moved to `path`; onto a
      directory, `shutil.move` puts it inside as `path/basename(path)`. A transport error
      leaves nothing behind. */
  function DownloadSpec(fs: Fs, owner: Owner, umask: Mode, url: string, path: string,
                        fetch: string -> Option<string>): Res
  {
    match fetch(url)
    case None => Res(fs, Failed(DownloadError(url)))
    case Some(body) =>
      if IsDir(fs, path) then
        var inner := PathJoin(path, Basename(path));
        if inner in fs then Res(fs, Failed(FileExists(inner)))
        else Res(fs[inner := NewFile(body, owner, umask)], Done)
      else if !ParentReady(fs, path) then Res(fs, Failed(NotFound(path)))
      else Res(fs[path := NewFile(body, owner, umask)], Done)
  }

  /** `ensure_file(url, path, md5sum)` */
  function EnsureFileSpec(fs: Fs, owner: Owner, umask: Mode, url: string, path: string,
                          md5sum: Option<string>, deps: Deps): Res
  {
    if NeedsDownload(fs, path, md5sum, deps.md5) then DownloadSpec(fs, owner, umask, url, path, deps.fetch)
    else Res(fs, Done)
  }

  /** `download_file` */
  method DownloadFile(os: Os, url: string, path: string, fetch: string -> Option<string>) returns (outcome: Outcome)
    modifies os`fs, os`fetched
    ensures Res(os.fs, outcome) == DownloadSpec(old(os.fs), os.owner, os.umask, url, path, fetch)
    ensures os.fetched == old(os.fetched) + [url]
  {
    os.fetched := os.fetched + [url];
    var body := fetch(url);
    if body.None? {
      return Failed(DownloadError(url));
    }
    var dest := path;
    if IsDir(os.fs, path) {
      dest := PathJoin(path, Basename(path));
      if dest in os.fs {
        return Failed(FileExists(dest));
      }
    } else if !ParentReady(os.fs, path) {
      return Failed(NotFound(path));
    }
    os.fs := os.fs[dest := NewFile(body.value, os.owner, os.umask)];
    outcome := Done;
  }

  /** `ensure_file`: a download happens exactly when `NeedsDownload` holds. */
  method EnsureFile(os: Os, url: string, path: string, md5sum: Option<string>, deps: Deps) returns (outcome: Outcome)
    modifies os`fs, os`fetched
    ensures Res(os.fs, outcome) == EnsureFileSpec(old(os.fs), os.owner, os.umask, url, path, md5sum, deps)
    ensures os.fetched == old(os.fetched) + (if NeedsDownload(old(os.fs), path, md5sum, deps.md5) then [url] else [])
  {
    if NeedsDownload(os.fs, path, md5sum, deps.md5) {
      outcome := DownloadFile(os, url, path, deps.fetch);
    } else {
      outcome := Done;
    }
  }

  /** The server's body has the md5 that is asked for (always so when none is asked for). */
  predicate ServedMatches(deps: Deps, url: string, md5sum: Option<string>) {
    !Given(md5sum) || (deps.fetch(url).Some? && deps.md5(deps.fetch(url).value) == md5sum.value)
  }

  /** Idempotence: once `ensure_file` has succeeded for a path that is not a directory, and
      the served body has the expected md5, a second call downloads nothing and changes
      nothing. */
  lemma EnsureFileIdempotent(fs: Fs, owner: Owner, umask: Mode, url: string, path: string,
                             md5sum: Option<string>, deps: Deps)
    requires !IsDir(fs, path) && ServedMatches(deps, url, md5sum)
    requires EnsureFileSpec(fs, owner, umask, url, path, md5sum, deps).outcome == Done
    ensures var fs1 := EnsureFileSpec(fs, owner, umask, url, path, md5sum, deps).fs;
            !NeedsDownload(fs1, path, md5sum, deps.md5)
            && EnsureFileSpec(fs1, owner, umask, url, path, md5sum, deps) == Res(fs1, Done)
  {
  }

  // ---------------------------------------------------------------------------
  // make_proc_dirs (base.py:314-328)

  /** The directories `make_proc_dirs` creates, in order: the proc, container and work
      paths, then a mount point inside the container for each volume. */
  function ProcDirs(paths: Paths, volumes: seq<(string, string)>): (dirs: seq<string>)
    ensures |dirs| == 3 + |volumes|
    ensures dirs[..3] == [paths.procPath, paths.containerPath, paths.workPath]
    ensures forall i :: 0 <= i < |volumes| ==> dirs[3 + i] == PathJoin(paths.containerPath, LStrip(volumes[i].1, '/'))
  {
    [paths.procPath, paths.containerPath, paths.workPath]
    + seq(|volumes|, i requires 0 <= i < |volumes| => PathJoin(paths.containerPath, LStrip(volumes[i].1, '/')))
  }

  /** `mkdir` applied to each of `dirs` in turn, stopping at the first failure. */
  function MakeAll(fs: Fs, dirs: seq<string>, owner: Owner, umask: Mode): Res
    decreases |dirs|
  {
    if dirs == [] then Res(fs, Done)
    else
      var prev := MakeAll(fs, dirs[..|dirs| - 1], owner, umask);
      if prev.outcome.Failed? then prev else Lift(prev.fs, MakeDirs(prev.fs, dirs[|dirs| - 1], owner, umask))
  }

  lemma {:induction false} MakeAllStops(fs: Fs, dirs: seq<string>, k: nat, owner: Owner, umask: Mode)
    requires k <= |dirs| && MakeAll(fs, dirs[..k], owner, umask).outcome.Failed?
    ensures MakeAll(fs, dirs, owner, umask) == MakeAll(fs, dirs[..k], owner, umask)
    decreases |dirs| - k
  {
    if k < |dirs| {
      assert dirs[..k + 1][..k] == dirs[..k];
      MakeAllStops(fs, dirs, k + 1, owner, umask);
    } else {
      assert dirs[..k] == dirs;
    }
  }

  /** When every `mkdir` succeeds, each listed path is a directory and nothing that
      existed before has changed. */
  lemma {:induction false} MakeAllCreates(fs: Fs, dirs: seq<string>, owner: Owner, umask: Mode)
    requires MakeAll(fs, dirs, owner, umask).outcome == Done
    ensures Extends(fs, MakeAll(fs, dirs, owner, umask).fs)
    ensures forall d :: d in dirs ==> IsDir(MakeAll(fs, dirs, owner, umask).fs, d)
    decreases |dirs|
  {
    if dirs != [] {
      var init := dirs[..|dirs| - 1];
      MakeAllCreates(fs, init, owner, umask);
      var prev := MakeAll(fs, init, owner, umask);
      var r := MakeDirs(prev.fs, dirs[|dirs| - 1], owner, umask);
      assert r.Ok?;
      forall d | d in dirs ensures IsDir(r.value, d) {
        if d != dirs[|dirs| - 1] {
          assert d in init;
        }
      }
    }
  }

  /** One more `mkdir` extends the fold by one directory. */
  lemma MakeAllStep(fs: Fs, dirs: seq<string>, k: nat, owner: Owner, umask: Mode)
    requires k < |dirs|
    ensures MakeAll(fs, dirs[..k + 1], owner, umask)
            == (var prev := MakeAll(fs, dirs[..k], owner, umask);
                if prev.outcome.Failed? then prev else Lift(prev.fs, MakeDirs(prev.fs, dirs[k], owner, umask)))
  {
    assert dirs[..k + 1][..k] == dirs[..k];
  }

  /** The `mkdir` of the `k`-th directory, after the first `k` succeeded. */
  method MakeNext(os: Os, ghost fs0: Fs, ghost dirs: seq<string>, k: nat, p: string) returns (outcome: Outcome)
    requires k < |dirs| && dirs[k] == p && MakeAll(fs0, dirs[..k], os.owner, os.umask) == Res(os.fs, Done)
    modifies os`fs
    ensures Res(os.fs, outcome) == MakeAll(fs0, dirs[..k + 1], os.owner, os.umask)
  {
    MakeAllStep(fs0, dirs, k, os.owner, os.umask);
    outcome := Mkdir(os, p);
  }

  /** `make_proc_dirs` */
  method MakeProcDirs(os: Os, paths: Paths, volumes: seq<(string, string)>) returns (outcome: Outcome)
    modifies os`fs
    ensures Res(os.fs, outcome) == MakeAll(old(os.fs), ProcDirs(paths, volumes), os.owner, os.umask)
  {
    ghost var dirs := ProcDirs(paths, volumes);
    ghost var fs0 := os.fs;
    assert dirs[..0] == [];
    outcome := MakeNext(os, fs0, dirs, 0, paths.procPath);
    if outcome.Failed? {
      MakeAllStops(fs0, dirs, 1, os.owner, os.umask);
      return;
    }
    outcome := MakeNext(os, fs0, dirs, 1, paths.containerPath);
    if outcome.Failed? {
      MakeAllStops(fs0, dirs, 2, os.owner, os.umask);
      return;
    }
    outcome := MakeNext(os, fs0, dirs, 2, paths.workPath);
    if outcome.Failed? {
      MakeAllStops(fs0, dirs, 3, os.owner, os.umask);
      return;
    }
    var i := 0;
    while i < |volumes|
      invariant 0 <= i <= |volumes|
      invariant MakeAll(fs0, dirs[..3 + i], os.owner, os.umask) == Res(os.fs, Done)
    {
      var (_, inside) := volumes[i];
      outcome := MakeNext(os, fs0, dirs, 3 + i, PathJoin(paths.containerPath, LStrip(inside, '/')));
      if outcome.Failed? {
        MakeAllStops(fs0, dirs, 3 + i + 1, os.owner, os.umask);
        return;
      }
      i := i + 1;
    }
    assert dirs[..3 + i] == dirs;
    outcome := Done;
  }

  // ---------------------------------------------------------------------------
  // ensure_build (base.py:100-105, 180-194)

  /** `ensure_build`: with a build URL, create the builds root, fetch the build and unpack it
      over the app path, owned by the descriptor's user and group. */
  function EnsureBuildSpec(fs: Fs, owner: Owner, umask: Mode, j: Job): Res {
    if !Given(j.cfg.buildUrl) then Res(fs, Done)
    else
      var r1 := Lift(fs, MakeDirs(fs, j.paths.buildsRoot, owner, umask));
      if r1.outcome.Failed? then r1
      else
        var r2 := EnsureFileSpec(r1.fs, owner, umask, j.cfg.buildUrl.value, j.paths.buildfilePath, j.cfg.buildMd5, j.deps);
        if r2.outcome.Failed? then r2
        else UntarSpec(r2.fs, owner, umask, j.paths.buildfilePath, j.paths.appPath,
                       Some(Owner(j.cfg.user, j.cfg.group)), true, j.deps.unpack)
  }

  /** The URLs `ensure_build` downloads: the build URL, when there is one, the builds root
      could be made and `ensure_file` finds the build file missing or stale. */
  function EnsureBuildFetches(fs: Fs, owner: Owner, umask: Mode, j: Job): seq<string> {
    if !Given(j.cfg.buildUrl) then []
    else
      var r1 := Lift(fs, MakeDirs(fs, j.paths.buildsRoot, owner, umask));
      if r1.outcome.Done? && NeedsDownload(r1.fs, j.paths.buildfilePath, j.cfg.buildMd5, j.deps.md5)
      then [j.cfg.buildUrl.value] else []
  }

  /** `ensure_build` downloads at most the build URL, nothing without one, and nothing when
      a regular build file with the expected md5 (or with none expected) is already there. */
  lemma EnsureBuildFetchesAtMost(fs: Fs, owner: Owner, umask: Mode, j: Job)
    ensures var f := EnsureBuildFetches(fs, owner, umask, j);
            && (!Given(j.cfg.buildUrl) ==> f == [])
            && (Given(j.cfg.buildUrl) ==> f == [] || f == [j.cfg.buildUrl.value])
            && (!NeedsDownload(fs, j.paths.buildfilePath, j.cfg.buildMd5, j.deps.md5) ==> f == [])
  {
    if Given(j.cfg.buildUrl) && !NeedsDownload(fs, j.paths.buildfilePath, j.cfg.buildMd5, j.deps.md5) {
      var r1 := Lift(fs, MakeDirs(fs, j.paths.buildsRoot, owner, umask));
      if r1.outcome.Done? {
        assert r1.fs[j.paths.buildfilePath] == fs[j.paths.buildfilePath];
      }
    }
  }

  /** `ensure_build` after its `mkdir` of the builds root: what follows is `ensure_file`
      and `untar` on the new state, and only `ensure_file` downloads. */
  lemma EnsureBuildAfterMkdir(fs: Fs, fs1: Fs, owner: Owner, umask: Mode, j: Job)
    requires Given(j.cfg.buildUrl) && MakeDirs(fs, j.paths.buildsRoot, owner, umask) == Ok(fs1)
    ensures var r2 := EnsureFileSpec(fs1, owner, umask, j.cfg.buildUrl.value, j.paths.buildfilePath, j.cfg.buildMd5, j.deps);
            EnsureBuildSpec(fs, owner, umask, j)
            == if r2.outcome.Failed? then r2
               else UntarSpec(r2.fs, owner, umask, j.paths.buildfilePath, j.paths.appPath,
                              Some(Owner(j.cfg.user, j.cfg.group)), true, j.deps.unpack)
    ensures EnsureBuildFetches(fs, owner, umask, j)
            == if NeedsDownload(fs1, j.paths.buildfilePath, j.cfg.buildMd5, j.deps.md5) then [j.cfg.buildUrl.value] else []
  {
  }

  method EnsureBuild(os: Os, j: Job) returns (outcome: Outcome)
    modifies os`fs, os`fetched
    ensures Res(os.fs, outcome) == EnsureBuildSpec(old(os.fs), os.owner, os.umask, j)
    ensures os.fetched == old(os.fetched) + EnsureBuildFetches(old(os.fs), os.owner, os.umask, j)
  {
    if !Given(j.cfg.buildUrl) {
      return Done;
    }
    ghost var fs0 := os.fs;
    outcome := Mkdir(os, j.paths.buildsRoot);
    if outcome.Failed? {
      return;
    }
    EnsureBuildAfterMkdir(fs0, os.fs, os.owner, os.umask, j);
    outcome := EnsureFile(os, j.cfg.buildUrl.value, j.paths.buildfilePath, j.cfg.buildMd5, j.deps);
    if outcome.Failed? {
      return;
    }
    outcome := Untar(os, j.paths.buildfilePath, j.paths.appPath, Some(Owner(j.cfg.user, j.cfg.group)), true, j.deps.unpack);
  }

  // ---------------------------------------------------------------------------
  // The files setup writes (base.py:107-160, 196-201, 345-360)

  /** `get_cmd`, reading the Procfile from the unpacked build. */
  function GetCmd(fs: Fs, j: Job): Result<string> {
    var procfilePath := PathJoin(j.paths.appPath, "Procfile");
    var procfile := if IsFile(fs, procfilePath) then j.deps.parseProcfile(fs[procfilePath].content) else None;
    ResolveCommand(j.cfg.cmd, j.cfg.procName, procfilePath, procfile)
  }

  /** `get_proc_lxc_tmpl_ctx` of the base runner; its `proc_path` key holds the container
      path. */
  function BaseLxcContext(j: Job): (ctx: LxcContext)
    ensures ctx.procPath == j.paths.containerPath && ctx.image == None
    ensures ctx.networkConfig == NetworkConfig(j.deps.version)
    ensures ctx.memoryLimits == MemoryLimits(j.cfg.memLimit, j.cfg.memswLimit)
    ensures ctx.volumes == VolumeText(j.cfg.volumes, j.paths.containerPath)
  {
    LxcContext(j.paths.containerPath, NetworkConfig(j.deps.version),
               MemoryLimits(j.cfg.memLimit, j.cfg.memswLimit),
               VolumeText(j.cfg.volumes, j.paths.containerPath), None)
  }

  /** `write_proc_lxc`: the rendered template at `<proc_path>/proc.lxc`. */
  function WriteProcLxcSpec(fs: Fs, owner: Owner, umask: Mode, j: Job, template: string, ctx: LxcContext): Res {
    Lift(fs, WriteText(fs, PathJoin(j.paths.procPath, "proc.lxc"), j.deps.renderLxc(template, ctx), owner, umask))
  }

  /** `write_settings_yaml` */
  function WriteSettingsSpec(fs: Fs, owner: Owner, umask: Mode, j: Job): Res {
    Lift(fs, WriteText(fs, PathJoin(j.paths.containerPath, "settings.yaml"), j.cfg.settingsYaml, owner, umask))
  }

  function ProcShContextFor(j: Job, cmd: string): ProcShContext {
    ProcShContext("/tmp", "/app", "/settings.yaml", "/env.sh", j.cfg.port, cmd)
  }

  /** `write_proc_sh`: the command is resolved first, then the script is written and made
      executable for owner, group and others. */
  function WriteProcShSpec(fs: Fs, owner: Owner, umask: Mode, j: Job): Res {
    match GetCmd(fs, j)
    case Err(e) => Res(fs, Failed(e))
    case Ok(cmd) =>
      var sh := PathJoin(j.paths.containerPath, "proc.sh");
      match WriteText(fs, sh, j.deps.renderProcSh(ProcShContextFor(j, cmd)), owner, umask)
      case Err(e) => Res(fs, Failed(e))
      case Ok(fs1) => Lift(fs1, AddFileBits(fs1, sh, ExecBits))
  }

  /** `write_env_sh` */
  function WriteEnvShSpec(fs: Fs, environ: map<string, string>, owner: Owner, umask: Mode, j: Job): Res {
    Lift(fs, WriteText(fs, PathJoin(j.paths.containerPath, "env.sh"), EnvSh(j.cfg.env, environ), owner, umask))
  }

  method WriteProcLxc(os: Os, j: Job, template: string, ctx: LxcContext) returns (outcome: Outcome)
    modifies os`fs
    ensures Res(os.fs, outcome) == WriteProcLxcSpec(old(os.fs), os.owner, os.umask, j, template, ctx)
  {
    var r := WriteText(os.fs, PathJoin(j.paths.procPath, "proc.lxc"), j.deps.renderLxc(template, ctx), os.owner, os.umask);
    if r.Ok? { os.fs := r.value; outcome := Done; } else { outcome := Failed(r.error); }
  }

  method WriteSettingsYaml(os: Os, j: Job) returns (outcome: Outcome)
    modifies os`fs
    ensures Res(os.fs, outcome) == WriteSettingsSpec(old(os.fs), os.owner, os.umask, j)
  {
    var r := WriteText(os.fs, PathJoin(j.paths.containerPath, "settings.yaml"), j.cfg.settingsYaml, os.owner, os.umask);
    if r.Ok? { os.fs := r.value; outcome := Done; } else { outcome := Failed(r.error); }
  }

  method WriteProcSh(os: Os, j: Job) returns (outcome: Outcome)
    modifies os`fs
    ensures Res(os.fs, outcome) == WriteProcShSpec(old(os.fs), os.owner, os.umask, j)
  {
    var cmd := GetCmd(os.fs, j);
    if cmd.Err? {
      return Failed(cmd.error);
    }
    var sh := PathJoin(j.paths.containerPath, "proc.sh");
    var r := WriteText(os.fs, sh, j.deps.renderProcSh(ProcShContextFor(j, cmd.value)), os.owner, os.umask);
    if r.Err? {
      return Failed(r.error);
    }
    os.fs := r.value;
    var st := os.fs[sh];
    os.fs := os.fs[sh := File(st.content, st.mode | ExecBits, st.owner)];
    outcome := Done;
  }

  method WriteEnvSh(os: Os, j: Job) returns (outcome: Outcome)
    modifies os`fs
    ensures Res(os.fs, outcome) == WriteEnvShSpec(old(os.fs), os.environ, os.owner, os.umask, j)
  {
    var r := WriteText(os.fs, PathJoin(j.paths.containerPath, "env.sh"), EnvSh(j.cfg.env, os.environ), os.owner, os.umask);
    if r.Ok? { os.fs := r.value; outcome := Done; } else { outcome := Failed(r.error); }
  }

  // ---------------------------------------------------------------------------
  // setup of the base runner (base.py:82-89)

  /** The steps after `make_proc_dirs` and `ensure_build` that both runners share, in
      order: proc.lxc, settings.yaml, proc.sh, env.sh. */
  function WriteArtifactsSpec(fs: Fs, environ: map<string, string>, owner: Owner, umask: Mode,
                              j: Job, template: string, ctx: LxcContext): Res
  {
    var r1 := WriteProcLxcSpec(fs, owner, umask, j, template, ctx);
    if r1.outcome.Failed? then r1 else
    var r2 := WriteSettingsSpec(r1.fs, owner, umask, j);
    if r2.outcome.Failed? then r2 else
    var r3 := WriteProcShSpec(r2.fs, owner, umask, j);
    if r3.outcome.Failed? then r3 else
    WriteEnvShSpec(r3.fs, environ, owner, umask, j)
  }

  /** `BaseRunner.setup` for a runner whose template is `template`. */
  function BaseSetupSpec(fs: Fs, environ: map<string, string>, owner: Owner, umask: Mode, j: Job, template: string): Res {
    var r1 := MakeAll(fs, ProcDirs(j.paths, j.cfg.volumes), owner, umask);
    if r1.outcome.Failed? then r1 else
    var r2 := EnsureBuildSpec(r1.fs, owner, umask, j);
    if r2.outcome.Failed? then r2 else
    WriteArtifactsSpec(r2.fs, environ, owner, umask, j, template, BaseLxcContext(j))
  }

  method WriteArtifacts(os: Os, j: Job, template: string, ctx: LxcContext) returns (outcome: Outcome)
    modifies os`fs
    ensures Res(os.fs, outcome) == WriteArtifactsSpec(old(os.fs), os.environ, os.owner, os.umask, j, template, ctx)
  {
    outcome := WriteProcLxc(os, j, template, ctx);
    if outcome.Failed? { return; }
    outcome := WriteSettingsYaml(os, j);
    if outcome.Failed? { return; }
    outcome := WriteProcSh(os, j);
    if outcome.Failed? { return; }
    outcome := WriteEnvSh(os, j);
  }

  /** The URLs the base runner's setup downloads: those of `ensure_build`, once the proc
      directories are made. */
  function BaseSetupFetches(fs: Fs, owner: Owner, umask: Mode, j: Job): seq<string> {
    var r1 := MakeAll(fs, ProcDirs(j.paths, j.cfg.volumes), owner, umask);
    if r1.outcome.Failed? then [] else EnsureBuildFetches(r1.fs, owner, umask, j)
  }

  /** The base runner's setup seen from the state `make_proc_dirs` leaves: a failure ends
      it with nothing downloaded; otherwise `ensure_build` and the writes follow. */
  lemma BaseSetupAfterDirs(fs: Fs, fs1: Fs, outcome: Outcome, environ: map<string, string>, owner: Owner,
                           umask: Mode, j: Job, template: string)
    requires Res(fs1, outcome) == MakeAll(fs, ProcDirs(j.paths, j.cfg.volumes), owner, umask)
    ensures outcome.Failed? ==>
              BaseSetupSpec(fs, environ, owner, umask, j, template) == Res(fs1, outcome)
              && BaseSetupFetches(fs, owner, umask, j) == []
    ensures outcome.Done? ==>
              var r2 := EnsureBuildSpec(fs1, owner, umask, j);
              && BaseSetupSpec(fs, environ, owner, umask, j, template)
                 == (if r2.outcome.Failed? then r2
                     else WriteArtifactsSpec(r2.fs, environ, owner, umask, j, template, BaseLxcContext(j)))
              && BaseSetupFetches(fs, owner, umask, j) == EnsureBuildFetches(fs1, owner, umask, j)
  {
  }

  method BaseSetup(os: Os, j: Job, template: string) returns (outcome: Outcome)
    modifies os`fs, os`fetched
    ensures Res(os.fs, outcome) == BaseSetupSpec(old(os.fs), os.environ, os.owner, os.umask, j, template)
    ensures os.fetched == old(os.fetched) + BaseSetupFetches(old(os.fs), os.owner, os.umask, j)
  {
    ghost var fs0 := os.fs;
    outcome := MakeProcDirs(os, j.paths, j.cfg.volumes);
    BaseSetupAfterDirs(fs0, os.fs, outcome, os.environ, os.owner, os.umask, j, template);
    if outcome.Failed? { return; }
    outcome := EnsureBuild(os, j);
    if outcome.Failed? { return; }
    var volumes := GetLxcVolumeStr(j.cfg.volumes, j.paths.containerPath);
    var ctx := LxcContext(j.paths.containerPath, NetworkConfig(j.deps.version),
                          MemoryLimits(j.cfg.memLimit, j.cfg.memswLimit), volumes, None);
    outcome := WriteArtifacts(os, j, template, ctx);
  }

  /** A successful write step leaves a regular file at its path with the given text and
      changes no other path. */
  lemma WriteStep(fs: Fs, p: string, text: string, owner: Owner, umask: Mode)
    requires Lift(fs, WriteText(fs, p, text, owner, umask)).outcome == Done
    ensures var r := Lift(fs, WriteText(fs, p, text, owner, umask)).fs;
            IsFile(r, p) && r[p].content == text && r == fs[p := r[p]] && !IsDir(fs, p)
  {
  }

  /** A successful `write_proc_sh` leaves an executable proc.sh and changes no other path. */
  lemma WriteProcShStep(fs: Fs, owner: Owner, umask: Mode, j: Job)
    requires WriteProcShSpec(fs, owner, umask, j).outcome == Done
    ensures var sh := PathJoin(j.paths.containerPath, "proc.sh");
            var r := WriteProcShSpec(fs, owner, umask, j).fs;
            IsFile(r, sh) && r[sh].mode & ExecBits == ExecBits && r == fs[sh := r[sh]] && !IsDir(fs, sh)
  {
  }

  /** When the shared writing steps succeed, proc.lxc sits in the proc path and env.sh,
      proc.sh (executable) and settings.yaml in the container path, with the rendered
      env.sh and settings text. */
  lemma {:induction false} WriteArtifactsProduces(fs: Fs, environ: map<string, string>, owner: Owner, umask: Mode,
                                                  j: Job, template: string, ctx: LxcContext)
    requires WriteArtifactsSpec(fs, environ, owner, umask, j, template, ctx).outcome == Done
    requires PathJoin(j.paths.procPath, "proc.lxc") !in
               {PathJoin(j.paths.containerPath, "settings.yaml"), PathJoin(j.paths.containerPath, "proc.sh"),
                PathJoin(j.paths.containerPath, "env.sh")}
    ensures var r := WriteArtifactsSpec(fs, environ, owner, umask, j, template, ctx).fs;
            var c := j.paths.containerPath;
            && IsFile(r, PathJoin(j.paths.procPath, "proc.lxc"))
            && r[PathJoin(j.paths.procPath, "proc.lxc")].content == j.deps.renderLxc(template, ctx)
            && IsFile(r, PathJoin(c, "settings.yaml")) && r[PathJoin(c, "settings.yaml")].content == j.cfg.settingsYaml
            && IsFile(r, PathJoin(c, "proc.sh")) && r[PathJoin(c, "proc.sh")].mode & ExecBits == ExecBits
            && IsFile(r, PathJoin(c, "env.sh")) && r[PathJoin(c, "env.sh")].content == EnvSh(j.cfg.env, environ)
  {
    var c := j.paths.containerPath;
    var lxc, yml, sh, env := PathJoin(j.paths.procPath, "proc.lxc"), PathJoin(c, "settings.yaml"),
                             PathJoin(c, "proc.sh"), PathJoin(c, "env.sh");
    ContainerFilesDistinct(c);
    var r1 := WriteProcLxcSpec(fs, owner, umask, j, template, ctx);
    WriteStep(fs, lxc, j.deps.renderLxc(template, ctx), owner, umask);
    var r2 := WriteSettingsSpec(r1.fs, owner, umask, j);
    WriteStep(r1.fs, yml, j.cfg.settingsYaml, owner, umask);
    var r3 := WriteProcShSpec(r2.fs, owner, umask, j);
    WriteProcShStep(r2.fs, owner, umask, j);
    var r4 := WriteEnvShSpec(r3.fs, environ, owner, umask, j);
    WriteStep(r3.fs, env, EnvSh(j.cfg.env, environ), owner, umask);
  }

  /** The files setup writes into the container are three different paths. */
  lemma ContainerFilesDistinct(c: string)
    ensures PathJoin(c, "settings.yaml") != PathJoin(c, "proc.sh")
    ensures PathJoin(c, "settings.yaml") != PathJoin(c, "env.sh")
    ensures PathJoin(c, "proc.sh") != PathJoin(c, "env.sh")
  {
    var yml, sh, env := "settings.yaml", "proc.sh", "env.sh";
    assert yml[0] == 's' && sh[0] == 'p' && env[0] == 'e';
    PathJoinDistinct(c, yml, sh);
    PathJoinDistinct(c, yml, env);
    PathJoinDistinct(c, sh, env);
  }

  /** Two different relative names joined to one directory give different paths. */
  lemma PathJoinDistinct(dir: string, a: string, b: string)
    requires a != [] && b != [] && a[0] != '/' && b[0] != '/' && a[0] != b[0]
    ensures PathJoin(dir, a) != PathJoin(dir, b)
  {
    if dir == [] || dir[|dir| - 1] == '/' {
      assert PathJoin(dir, a)[|dir|..] == a && PathJoin(dir, b)[|dir|..] == b;
    } else {
      assert PathJoin(dir, a)[|dir| + 1..] == a && PathJoin(dir, b)[|dir| + 1..] == b;
    }
  }

  // ---------------------------------------------------------------------------
  // Directories survive the later setup steps

  /** Every directory of `fs` is still a directory in `fs'`. */
  ghost predicate DirsKept(fs: Fs, fs': Fs) {
    forall d :: IsDir(fs, d) ==> IsDir(fs', d)
  }

  lemma DirsKeptTrans(fs: Fs, fs': Fs, fs'': Fs)
    requires DirsKept(fs, fs') && DirsKept(fs', fs'')
    ensures DirsKept(fs, fs'')
  {
  }

  /** Writing one text file keeps every directory. */
  lemma TextKeepsDirs(fs: Fs, p: string, text: string, owner: Owner, umask: Mode)
    ensures DirsKept(fs, Lift(fs, WriteText(fs, p, text, owner, umask)).fs)
  {
    if Lift(fs, WriteText(fs, p, text, owner, umask)).outcome == Done {
      WriteStep(fs, p, text, owner, umask);
    }
  }

  lemma ProcShKeepsDirs(fs: Fs, owner: Owner, umask: Mode, j: Job)
    ensures DirsKept(fs, WriteProcShSpec(fs, owner, umask, j).fs)
  {
    if WriteProcShSpec(fs, owner, umask, j).outcome == Done {
      WriteProcShStep(fs, owner, umask, j);
    }
  }

  /** The writing steps only put regular files where there were files or nothing. */
  lemma {:induction false} WriteArtifactsKeepsDirs(fs: Fs, environ: map<string, string>, owner: Owner, umask: Mode,
                                                   j: Job, template: string, ctx: LxcContext)
    ensures DirsKept(fs, WriteArtifactsSpec(fs, environ, owner, umask, j, template, ctx).fs)
  {
    var c := j.paths.containerPath;
    var r1 := WriteProcLxcSpec(fs, owner, umask, j, template, ctx);
    TextKeepsDirs(fs, PathJoin(j.paths.procPath, "proc.lxc"), j.deps.renderLxc(template, ctx), owner, umask);
    if r1.outcome.Done? {
      var r2 := WriteSettingsSpec(r1.fs, owner, umask, j);
      TextKeepsDirs(r1.fs, PathJoin(c, "settings.yaml"), j.cfg.settingsYaml, owner, umask);
      DirsKeptTrans(fs, r1.fs, r2.fs);
      if r2.outcome.Done? {
        var r3 := WriteProcShSpec(r2.fs, owner, umask, j);
        ProcShKeepsDirs(r2.fs, owner, umask, j);
        DirsKeptTrans(fs, r2.fs, r3.fs);
        if r3.outcome.Done? {
          var r4 := WriteEnvShSpec(r3.fs, environ, owner, umask, j);
          TextKeepsDirs(r3.fs, PathJoin(c, "env.sh"), EnvSh(j.cfg.env, environ), owner, umask);
          DirsKeptTrans(fs, r3.fs, r4.fs);
        }
      }
    }
  }

  /** `ensure_file` writes a regular file at a path that is not a directory, or at a free
      path inside the directory it was given. */
  lemma EnsureFileKeepsDirs(fs: Fs, owner: Owner, umask: Mode, url: string, path: string,
                            md5sum: Option<string>, deps: Deps)
    ensures DirsKept(fs, EnsureFileSpec(fs, owner, umask, url, path, md5sum, deps).fs)
  {
    if NeedsDownload(fs, path, md5sum, deps.md5) && deps.fetch(url).Some? {
      var body := deps.fetch(url).value;
      if IsDir(fs, path) {
        var inner := PathJoin(path, Basename(path));
        if inner !in fs {
          AddingFileKeepsDirs(fs, inner, NewFile(body, owner, umask));
        }
      } else if ParentReady(fs, path) {
        AddingFileKeepsDirs(fs, path, NewFile(body, owner, umask));
      }
    }
  }

  /** Writing a non-directory over a path that is not a directory keeps every directory. */
  lemma AddingFileKeepsDirs(fs: Fs, p: string, n: Node)
    requires !IsDir(fs, p) && !n.Dir?
    ensures DirsKept(fs, fs[p := n])
  {
  }

  /** `untar` keeps every directory outside the folder it unpacks into. */
  lemma UntarKeepsDirs(fs: Fs, owner: Owner, umask: Mode, tarpath: string, outfolder: string,
                       owners: Option<Owner>, overwrite: bool, unpack: (string, string) -> Option<Tree>)
    ensures var r := UntarSpec(fs, owner, umask, tarpath, outfolder, owners, overwrite, unpack).fs;
            forall d :: IsDir(fs, d) && !Within(outfolder, d) ==> IsDir(r, d)
  {
    if UntarSpec(fs, owner, umask, tarpath, outfolder, owners, overwrite, unpack).outcome.Done? {
      var members := ReadArchive(fs, tarpath, unpack).value;
      MoveIntoPlaces(fs, owner, umask, tarpath, outfolder, FixTree(members, owners), overwrite);
    }
  }

  /** `ensure_build` keeps every directory that does not lie inside the app path. */
  lemma {:induction false} EnsureBuildKeepsDirs(fs: Fs, owner: Owner, umask: Mode, j: Job)
    ensures forall d :: IsDir(fs, d) && !Within(j.paths.appPath, d) ==> IsDir(EnsureBuildSpec(fs, owner, umask, j).fs, d)
  {
    if Given(j.cfg.buildUrl) {
      var r1 := Lift(fs, MakeDirs(fs, j.paths.buildsRoot, owner, umask));
      if r1.outcome.Done? {
        var r2 := EnsureFileSpec(r1.fs, owner, umask, j.cfg.buildUrl.value, j.paths.buildfilePath, j.cfg.buildMd5, j.deps);
        EnsureFileKeepsDirs(r1.fs, owner, umask, j.cfg.buildUrl.value, j.paths.buildfilePath, j.cfg.buildMd5, j.deps);
        var owners := Some(Owner(j.cfg.user, j.cfg.group));
        var r3 := UntarSpec(r2.fs, owner, umask, j.paths.buildfilePath, j.paths.appPath, owners, true, j.deps.unpack);
        UntarKeepsDirs(r2.fs, owner, umask, j.paths.buildfilePath, j.paths.appPath, owners, true, j.deps.unpack);
      }
    }
  }

  // ---------------------------------------------------------------------------
  // run, shell and uptest (base.py:91-98, 203-205, 279-303)

  /** The argument vector `_lxc_start` hands to `execve`. */
  function StartArgs(j: Job, special: Option<string>): seq<string> {
    LxcArgs(j.paths.containerName, j.paths.procPath, j.deps.version, special, j.cfg.appFolder, j.cfg.user, j.deps.md5)
  }

  /** `_lxc_start`: for a special command the ephemeral container is created first (from
      LXC 2.0.0 on), then the process image is replaced by `lxc-start`. */
  method LxcStart(os: Os, j: Job, special: Option<string>)
    modifies os`system, os`handoff
    ensures os.handoff == Some(Handoff(StartArgs(j, special), os.descriptor))
    ensures os.system == old(os.system) +
      (if Given(special) && AtLeast(j.deps.version, V2)
       then [LxcCreateCommand(j.deps.version, StartName(j.paths.containerName, special, j.deps.md5)).value]
       else [])
  {
    if Given(special) {
      var create := LxcCreateCommand(j.deps.version, StartName(j.paths.containerName, special, j.deps.md5));
      if create.Some? {
        os.system := os.system + [create.value];
      }
    }
    os.handoff := Some(Handoff(StartArgs(j, special), os.descriptor));
  }

  /** `run` */
  method Run(os: Os, j: Job)
    modifies os`system, os`handoff
    ensures os.handoff == Some(Handoff(StartArgs(j, None), os.descriptor))
    ensures os.system == old(os.system)
  {
    LxcStart(os, j, None);
  }

  const ShellCommand := "/bin/bash"

  /** The `lxc-create` that `_lxc_start` issues for special command `cmd`: one command for
      the `-TMP` container on LXC 2.0.0 or later, none before. */
  function EphemeralCreate(j: Job, cmd: string): (r: seq<string>)
    requires cmd != ""
    ensures |r| == (if AtLeast(j.deps.version, V2) then 1 else 0)
    ensures r != [] ==> StartsWith(r[0], "lxc-create --name " + StartName(j.paths.containerName, Some(cmd), j.deps.md5) + " ")
  {
    if AtLeast(j.deps.version, V2)
    then [LxcCreateCommand(j.deps.version, StartName(j.paths.containerName, Some(cmd), j.deps.md5)).value]
    else []
  }

  /** `shell` */
  method Shell(os: Os, j: Job)
    modifies os`system, os`handoff
    ensures os.handoff == Some(Handoff(StartArgs(j, Some(ShellCommand)), os.descriptor))
    ensures os.system == old(os.system) + EphemeralCreate(j, ShellCommand)
  {
    LxcStart(os, j, Some(ShellCommand));
  }

  /** The in-container uptest directory of a proc. */
  function UptestsPath(j: Job): string {
    PathJoin(PathJoin(j.paths.appPath, "uptests"), j.cfg.procName)
  }

  /** The special command of an uptest run: `'/uptester %s %s %s ' % (inside, host, port)`. */
  function UptestCommand(j: Job): string {
    "/uptester " + PathJoin("/app/uptests", j.cfg.procName) + " " + j.cfg.host + " " + IntToString(j.cfg.port) + " "
  }

  /** Copying the uptester into the container and adding the execute bits. */
  function InstallUptesterSpec(fs: Fs, owner: Owner, umask: Mode, j: Job): Res {
    var dest := PathJoin(j.paths.containerPath, "uptester");
    match WriteText(fs, dest, j.deps.uptester, owner, umask)
    case Err(e) => Res(fs, Failed(e))
    case Ok(fs1) =>
      Res(fs1[dest := File(j.deps.uptester, j.deps.uptesterMode | ExecBits, fs1[dest].owner)], Done)
  }

  /** The `shutil.copy` of the uptester into the container, followed by the `chmod`. */
  method InstallUptester(os: Os, j: Job) returns (outcome: Outcome)
    modifies os`fs
    ensures Res(os.fs, outcome) == InstallUptesterSpec(old(os.fs), os.owner, os.umask, j)
  {
    var dest := PathJoin(j.paths.containerPath, "uptester");
    var r := WriteText(os.fs, dest, j.deps.uptester, os.owner, os.umask);
    if r.Err? {
      return Failed(r.error);
    }
    os.fs := r.value[dest := File(j.deps.uptester, j.deps.uptesterMode | ExecBits, r.value[dest].owner)];
    outcome := Done;
  }

  /** `uptest`: after installing the uptester, with a proc name, either hand off to an
      ephemeral container running the uptests or, when the build has no uptests for the
      proc, print `[]`. */
  method Uptest(os: Os, j: Job) returns (outcome: Outcome)
    modifies os`fs, os`stdout, os`system, os`handoff
    ensures Res(os.fs, outcome) == InstallUptesterSpec(old(os.fs), os.owner, os.umask, j)
    ensures outcome == Done && j.cfg.procName != "" && IsDir(os.fs, UptestsPath(j)) ==>
              os.handoff == Some(Handoff(StartArgs(j, Some(UptestCommand(j))), os.descriptor))
              && os.stdout == old(os.stdout)
              && os.system == old(os.system) + EphemeralCreate(j, UptestCommand(j))
    ensures outcome == Done && j.cfg.procName != "" && !IsDir(os.fs, UptestsPath(j)) ==>
              os.stdout == old(os.stdout) + ["[]"] && os.handoff == old(os.handoff) && os.system == old(os.system)
    ensures !(outcome == Done && j.cfg.procName != "") ==>
              os.stdout == old(os.stdout) && os.handoff == old(os.handoff) && os.system == old(os.system)
  {
    outcome := InstallUptester(os, j);
    if outcome.Done? && j.cfg.procName != "" {
      if IsDir(os.fs, UptestsPath(j)) {
        LxcStart(os, j, Some(UptestCommand(j)));
      } else {
        os.stdout := os.stdout + ["[]"];
      }
    }
  }

  // ---------------------------------------------------------------------------
  // teardown (base.py:305-312)

  function TeardownSpec(fs: Fs, procPath: string): Fs {
    if IsDir(fs, procPath) then RemoveTree(fs, procPath) else fs
  }

  /** `teardown` removes the proc tree when it is a directory and is otherwise a no-op;
      a second teardown changes nothing, and paths outside the tree are never touched. */
  lemma TeardownIdempotent(fs: Fs, procPath: string)
    ensures !IsDir(fs, procPath) ==> TeardownSpec(fs, procPath) == fs
    ensures IsDir(fs, procPath) ==> forall q :: q in TeardownSpec(fs, procPath) ==> !Within(procPath, q)
    ensures TeardownSpec(TeardownSpec(fs, procPath), procPath) == TeardownSpec(fs, procPath)
    ensures forall q :: q in fs && !Within(procPath, q) ==>
              q in TeardownSpec(fs, procPath) && TeardownSpec(fs, procPath)[q] == fs[q]
  {
    var t := TeardownSpec(fs, procPath);
    if IsDir(fs, procPath) {
      assert Within(procPath, procPath);
      assert !IsDir(t, procPath);
    }
  }

  method Teardown(os: Os, procPath: string)
    modifies os`fs
    ensures os.fs == TeardownSpec(old(os.fs), procPath)
  {
    if IsDir(os.fs, procPath) {
      os.fs := RemoveTree(os.fs, procPath);
    }
  }
}
