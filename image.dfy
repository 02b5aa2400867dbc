/** The image runner of vr/runners/image.py: a container whose root is an overlay of a
    shared, unpacked OS image (the lower layer) and the per-proc container path (the
    upper layer), with the character devices the image needs created inside it. */
module Image {
  import opened Strings
  import opened Host
  import opened BaseRender
  import opened BaseOps

  const ImageTemplate := "image.lxc"

  /** `get_image_folder`: `<images root>/<image name>/contents`. */
  function ImageFolder(j: Job): string {
    PathJoin(PathJoin(j.paths.imagesRoot, j.cfg.imageName), "contents")
  }

  /** Joining a relative name to a directory without a trailing slash inserts one slash. */
  lemma PathJoinSlash(dir: string, name: string)
    requires dir != [] && dir[|dir| - 1] != '/'
    requires name != [] && name[0] != '/'
    ensures PathJoin(dir, name) == dir + "/" + name
  {
  }

  /** The last `c` of `p + [c] + t` is the one before `t` when `t` holds no `c`. */
  lemma {:induction false} AfterLastBefore(p: string, c: char, t: string)
    requires forall k :: 0 <= k < |t| ==> t[k] != c
    ensures AfterLast(p + [c] + t, c) == |p| + 1
    decreases |t|
  {
    var s := p + [c] + t;
    if t == [] {
      assert s[|s| - 1] == c;
    } else {
      assert s[|s| - 1] == t[|t| - 1];
      assert s[..|s| - 1] == p + [c] + t[..|t| - 1];
      AfterLastBefore(p, c, t[..|t| - 1]);
    }
  }

  /** The base name of `dir/name` is `name` when `name` holds no slash. */
  lemma BasenameUnder(dir: string, name: string)
    requires forall k :: 0 <= k < |name| ==> name[k] != '/'
    ensures Basename(dir + "/" + name) == name
  {
    AfterLastBefore(dir, '/', name);
    assert (dir + "/" + name)[|dir| + 1..] == name;
  }

  /** With a plain images root and image name the folder is `<root>/<name>/contents`. */
  lemma ImageFolderLayout(j: Job)
    requires j.paths.imagesRoot != [] && j.paths.imagesRoot[|j.paths.imagesRoot| - 1] != '/'
    requires j.cfg.imageName != [] && j.cfg.imageName[0] != '/' && j.cfg.imageName[|j.cfg.imageName| - 1] != '/'
    ensures ImageFolder(j) == j.paths.imagesRoot + "/" + j.cfg.imageName + "/contents"
    ensures Basename(ImageFolder(j)) == "contents"
  {
    var root, name := j.paths.imagesRoot, j.cfg.imageName;
    PathJoinSlash(root, name);
    var dir := root + "/" + name;
    assert dir[|dir| - 1] == name[|name| - 1];
    var leaf := "contents";
    assert forall k :: 0 <= k < |leaf| ==> leaf[k] != '/';
    PathJoinSlash(dir, leaf);
    BasenameUnder(dir, leaf);
  }

  // ---------------------------------------------------------------------------
  // prepare_image and ensure_image (image.py:18-42)

  function ResolvPath(outfolder: string): string {
    PathJoin(PathJoin(outfolder, "etc"), "resolv.conf")
  }

  /** `prepare_image`: unpack without changing owners, overwriting what is there, then
      replace a symbolic link at `etc/resolv.conf` by an empty regular file. */
  function PrepareImageSpec(fs: Fs, owner: Owner, umask: Mode, tarpath: string, outfolder: string,
                            unpack: (string, string) -> Option<Tree>): Res
  {
    var r := UntarSpec(fs, owner, umask, tarpath, outfolder, None, true, unpack);
    if r.outcome.Failed? then r
    else if IsLink(r.fs, ResolvPath(outfolder)) then Res(r.fs[ResolvPath(outfolder) := NewFile("", owner, umask)], Done)
    else r
  }

  /** After `prepare_image`, `etc/resolv.conf` is never a link; a link the image shipped
      has become an empty file, and nothing else differs from the plain unpacking. */
  lemma PrepareImageResolv(fs: Fs, owner: Owner, umask: Mode, tarpath: string, outfolder: string,
                           unpack: (string, string) -> Option<Tree>)
    requires PrepareImageSpec(fs, owner, umask, tarpath, outfolder, unpack).outcome == Done
    ensures var r := PrepareImageSpec(fs, owner, umask, tarpath, outfolder, unpack).fs;
            var u := UntarSpec(fs, owner, umask, tarpath, outfolder, None, true, unpack).fs;
            var resolv := ResolvPath(outfolder);
            && !IsLink(r, resolv)
            && (IsLink(u, resolv) ==> IsFile(r, resolv) && r[resolv].content == "")
            && (!IsLink(u, resolv) ==> r == u)
            && (forall q :: q != resolv ==> (q in r <==> q in u) && (q in u ==> r[q] == u[q]))
  {
  }

  /** The module-level `ensure_image(name, url, images_root, md5, untar_to)`: the image
      archive is kept as `<images root>/<name>/<basename of url>` and unpacked when a
      target is given. */
  function EnsureImageSpec(fs: Fs, owner: Owner, umask: Mode, name: string, url: string, imagesRoot: string,
                           md5sum: Option<string>, untarTo: Option<string>, deps: Deps): Res
  {
    var dir := PathJoin(imagesRoot, name);
    var r1 := Lift(fs, MakeDirs(fs, dir, owner, umask));
    if r1.outcome.Failed? then r1 else
    var file := PathJoin(dir, Basename(url));
    var r2 := EnsureFileSpec(r1.fs, owner, umask, url, file, md5sum, deps);
    if r2.outcome.Failed? || !Given(untarTo) then r2
    else PrepareImageSpec(r2.fs, owner, umask, file, untarTo.value, deps.unpack)
  }

  method PrepareImage(os: Os, tarpath: string, outfolder: string, unpack: (string, string) -> Option<Tree>)
    returns (outcome: Outcome)
    modifies os`fs
    ensures Res(os.fs, outcome) == PrepareImageSpec(old(os.fs), os.owner, os.umask, tarpath, outfolder, unpack)
  {
    outcome := Untar(os, tarpath, outfolder, None, true, unpack);
    if outcome.Done? && IsLink(os.fs, ResolvPath(outfolder)) {
      os.fs := os.fs[ResolvPath(outfolder) := NewFile("", os.owner, os.umask)];
    }
  }

  /** The URLs the module-level `ensure_image` downloads: the image URL, when the image
      directory could be made and the archive in it is missing or stale. */
  function EnsureImageFetches(fs: Fs, owner: Owner, umask: Mode, name: string, url: string, imagesRoot: string,
                              md5sum: Option<string>, deps: Deps): seq<string>
  {
    var dir := PathJoin(imagesRoot, name);
    match MakeDirs(fs, dir, owner, umask)
    case Err(_) => []
    case Ok(fs1) => if NeedsDownload(fs1, PathJoin(dir, Basename(url)), md5sum, deps.md5) then [url] else []
  }

  /** `ensure_image` after its `mkdir`: a failed `mkdir` ends it with nothing downloaded;
      otherwise what follows is `ensure_file` and the optional unpacking on the new state. */
  lemma EnsureImageAfterMkdir(fs: Fs, owner: Owner, umask: Mode, name: string, url: string, imagesRoot: string,
                              md5sum: Option<string>, untarTo: Option<string>, deps: Deps)
    ensures var m := MakeDirs(fs, PathJoin(imagesRoot, name), owner, umask);
            m.Err? ==>
              && EnsureImageSpec(fs, owner, umask, name, url, imagesRoot, md5sum, untarTo, deps) == Res(fs, Failed(m.error))
              && EnsureImageFetches(fs, owner, umask, name, url, imagesRoot, md5sum, deps) == []
    ensures var m := MakeDirs(fs, PathJoin(imagesRoot, name), owner, umask);
            var file := PathJoin(PathJoin(imagesRoot, name), Basename(url));
            m.Ok? ==>
              var r2 := EnsureFileSpec(m.value, owner, umask, url, file, md5sum, deps);
              && EnsureImageSpec(fs, owner, umask, name, url, imagesRoot, md5sum, untarTo, deps)
                 == (if r2.outcome.Failed? || !Given(untarTo) then r2
                     else PrepareImageSpec(r2.fs, owner, umask, file, untarTo.value, deps.unpack))
              && EnsureImageFetches(fs, owner, umask, name, url, imagesRoot, md5sum, deps)
                 == if NeedsDownload(m.value, file, md5sum, deps.md5) then [url] else []
  {
  }

  method EnsureImage(os: Os, name: string, url: string, imagesRoot: string, md5sum: Option<string>,
                     untarTo: Option<string>, deps: Deps) returns (outcome: Outcome)
    modifies os`fs, os`fetched
    ensures Res(os.fs, outcome) == EnsureImageSpec(old(os.fs), os.owner, os.umask, name, url, imagesRoot, md5sum, untarTo, deps)
    ensures os.fetched == old(os.fetched) + EnsureImageFetches(old(os.fs), os.owner, os.umask, name, url, imagesRoot, md5sum, deps)
  {
    EnsureImageAfterMkdir(os.fs, os.owner, os.umask, name, url, imagesRoot, md5sum, untarTo, deps);
    var dir := PathJoin(imagesRoot, name);
    outcome := Mkdir(os, dir);
    if outcome.Failed? { return; }
    var file := PathJoin(dir, Basename(url));
    outcome := EnsureFile(os, url, file, md5sum, deps);
    if outcome.Failed? || !Given(untarTo) { return; }
    outcome := PrepareImage(os, file, untarTo.value, deps.unpack);
  }

  /** `ImageRunner.ensure_image`: nothing at all when the image folder exists. */
  function RunnerEnsureImageSpec(fs: Fs, owner: Owner, umask: Mode, j: Job): Res {
    if ImageFolder(j) in fs then Res(fs, Done)
    else EnsureImageSpec(fs, owner, umask, j.cfg.imageName, j.cfg.imageUrl, j.paths.imagesRoot,
                         j.cfg.imageMd5, Some(ImageFolder(j)), j.deps)
  }

  /** The URLs the runner's `ensure_image` downloads: none when the image folder exists. */
  function RunnerEnsureImageFetches(fs: Fs, owner: Owner, umask: Mode, j: Job): seq<string> {
    if ImageFolder(j) in fs then []
    else EnsureImageFetches(fs, owner, umask, j.cfg.imageName, j.cfg.imageUrl, j.paths.imagesRoot, j.cfg.imageMd5, j.deps)
  }

  method RunnerEnsureImage(os: Os, j: Job) returns (outcome: Outcome)
    modifies os`fs, os`fetched
    ensures Res(os.fs, outcome) == RunnerEnsureImageSpec(old(os.fs), os.owner, os.umask, j)
    ensures os.fetched == old(os.fetched) + RunnerEnsureImageFetches(old(os.fs), os.owner, os.umask, j)
    ensures ImageFolder(j) in old(os.fs) ==> os.fetched == old(os.fetched)
  {
    if ImageFolder(j) in os.fs {
      return Done;
    }
    outcome := EnsureImage(os, j.cfg.imageName, j.cfg.imageUrl, j.paths.imagesRoot, j.cfg.imageMd5, Some(ImageFolder(j)), j.deps);
  }

  /** A non-empty relative name joined to a directory is a longer path. */
  lemma PathJoinLonger(dir: string, name: string)
    requires name != [] && name[0] != '/'
    ensures |PathJoin(dir, name)| > |dir|
  {
  }

  /** A successful `prepare_image` leaves the unpacked image folder a directory. */
  lemma PrepareImageProvides(fs: Fs, owner: Owner, umask: Mode, tarpath: string, outfolder: string,
                             unpack: (string, string) -> Option<Tree>)
    requires PrepareImageSpec(fs, owner, umask, tarpath, outfolder, unpack).outcome == Done
    ensures IsDir(PrepareImageSpec(fs, owner, umask, tarpath, outfolder, unpack).fs, outfolder)
  {
    UntarPlaces(fs, owner, umask, tarpath, outfolder, None, true, unpack);
    PathJoinLonger(outfolder, "etc");
    PathJoinLonger(PathJoin(outfolder, "etc"), "resolv.conf");
  }

  /** Once the runner's `ensure_image` has succeeded the image folder exists: it was there
      already, or it is the freshly unpacked image directory. */
  lemma {:induction false} RunnerEnsureImageProvides(fs: Fs, owner: Owner, umask: Mode, j: Job)
    requires RunnerEnsureImageSpec(fs, owner, umask, j).outcome == Done
    ensures ImageFolder(j) in RunnerEnsureImageSpec(fs, owner, umask, j).fs
    ensures ImageFolder(j) !in fs ==> IsDir(RunnerEnsureImageSpec(fs, owner, umask, j).fs, ImageFolder(j))
  {
    var folder := ImageFolder(j);
    if folder !in fs {
      var dir := PathJoin(j.paths.imagesRoot, j.cfg.imageName);
      var r1 := Lift(fs, MakeDirs(fs, dir, owner, umask));
      var file := PathJoin(dir, Basename(j.cfg.imageUrl));
      var r2 := EnsureFileSpec(r1.fs, owner, umask, j.cfg.imageUrl, file, j.cfg.imageMd5, j.deps);
      assert RunnerEnsureImageSpec(fs, owner, umask, j) == PrepareImageSpec(r2.fs, owner, umask, file, folder, j.deps.unpack);
      PrepareImageProvides(r2.fs, owner, umask, file, folder, j.deps.unpack);
    }
  }

  // ---------------------------------------------------------------------------
  // Device nodes (image.py:58-63, 113-144)

  datatype CharDevice = CharDevice(path: string, major: nat, minor: nat, perms: Mode)

  /** `char_devices`, in order. */
  const CharDevices: seq<CharDevice> := [
    CharDevice("/dev/null", 1, 3, 0x1B6),    // 0o666
    CharDevice("/dev/zero", 1, 5, 0x1B6),    // 0o666
    CharDevice("/dev/random", 1, 8, 0x124),  // 0o444
    CharDevice("/dev/urandom", 1, 9, 0x124)  // 0o444
  ]

  /** `tmp_umask`: the umask is the temporary mask between `Enter` and `Exit`, and the
      original one again after `Exit`. */
  class TmpUmask {
    const tmpMask: Mode
    var origMask: Mode

    constructor (tmpMask: Mode)
      ensures this.tmpMask == tmpMask
    {
      this.tmpMask := tmpMask;
    }

    method Enter(os: Os)
      modifies this, os`umask
      ensures origMask == old(os.umask) && os.umask == tmpMask
    {
      origMask := os.umask;
      os.umask := tmpMask;
    }

    method Exit(os: Os)
      modifies os`umask
      ensures os.umask == origMask
    {
      os.umask := origMask;
    }
  }

  /** `os.mknod(path, mode, os.makedev(major, minor))` for a character device: the
      permission bits are filtered by the umask, the parent must be a directory and the
      path must be free. */
  function MknodSpec(fs: Fs, path: string, major: nat, minor: nat, mode: Mode, umask: Mode): Res {
    if path in fs then Res(fs, Failed(FileExists(path)))
    else if !ParentReady(fs, path) then Res(fs, Failed(NotFound(path)))
    else Res(fs[path := CharDev(major, minor, mode & !umask)], Done)
  }

  /** `ensure_char_device(path, devnums, perms)`: nothing when something exists at
      `path`; otherwise, under umask 0, the parent directories and the device node. */
  function EnsureCharDeviceSpec(fs: Fs, owner: Owner, path: string, major: nat, minor: nat, perms: Mode): Res {
    if path in fs then Res(fs, Done)
    else
      var r := Lift(fs, MakeDirs(fs, Dirname(path), owner, 0));
      if r.outcome.Failed? then r
      else MknodSpec(r.fs, path, major, minor, S_IFCHR | perms, 0)
  }

  method Mknod(os: Os, path: string, major: nat, minor: nat, mode: Mode) returns (outcome: Outcome)
    modifies os`fs
    ensures Res(os.fs, outcome) == MknodSpec(old(os.fs), path, major, minor, mode, os.umask)
  {
    if path in os.fs {
      return Failed(FileExists(path));
    }
    if !ParentReady(os.fs, path) {
      return Failed(NotFound(path));
    }
    os.fs := os.fs[path := CharDev(major, minor, mode & !os.umask)];
    outcome := Done;
  }

  /** The umask is restored whether or not the device could be made. */
  method EnsureCharDevice(os: Os, path: string, major: nat, minor: nat, perms: Mode) returns (outcome: Outcome)
    modifies os`fs, os`umask
    ensures Res(os.fs, outcome) == EnsureCharDeviceSpec(old(os.fs), os.owner, path, major, minor, perms)
    ensures os.umask == old(os.umask)
  {
    if path in os.fs {
      return Done;
    }
    var mask := new TmpUmask(0);
    mask.Enter(os);
    outcome := Mkdir(os, Dirname(path));
    if outcome.Done? {
      outcome := Mknod(os, path, major, minor, S_IFCHR | perms);
    }
    mask.Exit(os);
  }

  /** A device made by `ensure_char_device` has exactly the requested permissions,
      whatever the process umask, and is a character device; an existing path is kept. */
  lemma {:induction false} CharDeviceExact(fs: Fs, owner: Owner, path: string, major: nat, minor: nat, perms: Mode)
    requires perms & !NewDirPerms == 0
    requires EnsureCharDeviceSpec(fs, owner, path, major, minor, perms).outcome == Done
    ensures var r := EnsureCharDeviceSpec(fs, owner, path, major, minor, perms).fs;
            && path in r && Extends(fs, r)
            && (path in fs ==> r == fs)
            && (path !in fs ==> r[path] == CharDev(major, minor, S_IFCHR | perms)
                                && r[path].mode & NewDirPerms == perms
                                && r[path].mode & S_IFCHR == S_IFCHR)
  {
    if path !in fs {
      var r := Lift(fs, MakeDirs(fs, Dirname(path), owner, 0));
      assert (S_IFCHR | perms) & !0 == S_IFCHR | perms;
      assert (S_IFCHR | perms) & NewDirPerms == perms;
    }
  }

  /** `ensure_char_device` for each of `devs` below the container path, in turn. */
  function CharDevicesSpec(fs: Fs, owner: Owner, containerPath: string, devs: seq<CharDevice>): Res
    decreases |devs|
  {
    if devs == [] then Res(fs, Done)
    else
      var prev := CharDevicesSpec(fs, owner, containerPath, devs[..|devs| - 1]);
      var d := devs[|devs| - 1];
      if prev.outcome.Failed? then prev
      else EnsureCharDeviceSpec(prev.fs, owner, containerPath + d.path, d.major, d.minor, d.perms)
  }

  lemma {:induction false} CharDevicesStop(fs: Fs, owner: Owner, containerPath: string, devs: seq<CharDevice>, k: nat)
    requires k <= |devs| && CharDevicesSpec(fs, owner, containerPath, devs[..k]).outcome.Failed?
    ensures CharDevicesSpec(fs, owner, containerPath, devs) == CharDevicesSpec(fs, owner, containerPath, devs[..k])
    decreases |devs| - k
  {
    if k < |devs| {
      assert devs[..k + 1][..k] == devs[..k];
      CharDevicesStop(fs, owner, containerPath, devs, k + 1);
    } else {
      assert devs[..k] == devs;
    }
  }

  /** After a successful `ensure_char_devices` every device path exists below the
      container path, and nothing that was there before has changed. */
  lemma {:induction false} CharDevicesPresent(fs: Fs, owner: Owner, containerPath: string, devs: seq<CharDevice>)
    requires CharDevicesSpec(fs, owner, containerPath, devs).outcome == Done
    ensures Extends(fs, CharDevicesSpec(fs, owner, containerPath, devs).fs)
    ensures forall d :: d in devs ==> containerPath + d.path in CharDevicesSpec(fs, owner, containerPath, devs).fs
    decreases |devs|
  {
    if devs != [] {
      var init := devs[..|devs| - 1];
      var d := devs[|devs| - 1];
      CharDevicesPresent(fs, owner, containerPath, init);
      var prev := CharDevicesSpec(fs, owner, containerPath, init);
      var p := containerPath + d.path;
      if p !in prev.fs {
        var r := Lift(prev.fs, MakeDirs(prev.fs, Dirname(p), owner, 0));
        assert Extends(prev.fs, r.fs);
      }
      var last := CharDevicesSpec(fs, owner, containerPath, devs);
      assert Extends(prev.fs, last.fs);
      forall e | e in devs ensures containerPath + e.path in last.fs {
        if e != d {
          assert e in init;
        }
      }
    }
  }

  /** `ensure_char_devices`: device paths are the container path and the device path
      concatenated. */
  method EnsureCharDevices(os: Os, containerPath: string) returns (outcome: Outcome)
    modifies os`fs, os`umask
    ensures Res(os.fs, outcome) == CharDevicesSpec(old(os.fs), os.owner, containerPath, CharDevices)
    ensures os.umask == old(os.umask)
  {
    ghost var fs0 := os.fs;
    var i := 0;
    while i < |CharDevices|
      invariant 0 <= i <= |CharDevices|
      invariant os.umask == old(os.umask)
      invariant CharDevicesSpec(fs0, os.owner, containerPath, CharDevices[..i]) == Res(os.fs, Done)
    {
      var d := CharDevices[i];
      assert CharDevices[..i + 1][..i] == CharDevices[..i];
      outcome := EnsureCharDevice(os, containerPath + d.path, d.major, d.minor, d.perms);
      if outcome.Failed? {
        CharDevicesStop(fs0, os.owner, containerPath, CharDevices, i + 1);
        return;
      }
      i := i + 1;
    }
    assert CharDevices[..i] == CharDevices;
    outcome := Done;
  }

  // ---------------------------------------------------------------------------
  // The proc.lxc context of the image runner (image.py:98-111)

  /** The overlay mount of the container root: the image as lower layer, the container
      path as upper layer and, from LXC 2.0.0 on, the work path as work layer. */
  datatype Overlay = Overlay(keyword: string, target: string, lower: string, upper: string, work: Option<string>)

  function OverlayFor(v: Version, containerPath: string, imagePath: string, workPath: string): (o: Overlay)
    ensures o.keyword == DialectFor(v).overlayKeyword
    ensures o.lower == imagePath && o.upper == containerPath && o.target == containerPath
    ensures o.work.Some? <==> DialectFor(v).workdir
    ensures o.work.Some? ==> o.work.value == workPath
  {
    var d := DialectFor(v);
    Overlay(d.overlayKeyword, containerPath, imagePath, containerPath, if d.workdir then Some(workPath) else None)
  }

  /** The configuration line of an overlay mount. */
  function OverlayLine(o: Overlay): string {
    "lxc.mount.entry = " + o.keyword + " " + o.target + " " + o.keyword
    + " lowerdir=" + o.lower + ",upperdir=" + o.upper
    + (if o.work.Some? then ",workdir=" + o.work.value else "")
    + " 0 0"
  }

  /** `get_proc_lxc_tmpl_ctx` of the image runner. */
  function ImageLxcContext(j: Job): (ctx: LxcContext)
    ensures ctx.procPath == j.paths.containerPath
    ensures ctx.image.Some? && ctx.image.value.imagePath == ImageFolder(j) && ctx.image.value.workPath == j.paths.workPath
    ensures ctx.networkConfig == NetworkConfig(j.deps.version)
    ensures ctx.memoryLimits == MemoryLimits(j.cfg.memLimit, j.cfg.memswLimit)
    ensures ctx.volumes == VolumeText(j.cfg.volumes, j.paths.containerPath)
  {
    var o := OverlayFor(j.deps.version, j.paths.containerPath, ImageFolder(j), j.paths.workPath);
    LxcContext(j.paths.containerPath, NetworkConfig(j.deps.version),
               MemoryLimits(j.cfg.memLimit, j.cfg.memswLimit),
               VolumeText(j.cfg.volumes, j.paths.containerPath),
               Some(ImageContext(ImageFolder(j), j.paths.workPath, OverlayLine(o))))
  }

  /** The overlay line opens with the dialect's keyword, and it has a `workdir` clause
      exactly when the dialect asks for one. */
  lemma {:induction false} OverlayLineShape(o: Overlay)
    ensures StartsWith(OverlayLine(o), "lxc.mount.entry = " + o.keyword + " ")
    ensures o.work.None? ==> OverlayLine(o) == "lxc.mount.entry = " + o.keyword + " " + o.target + " " + o.keyword
                                               + " lowerdir=" + o.lower + ",upperdir=" + o.upper + " 0 0"
    ensures o.work.Some? ==> Contains(OverlayLine(o), ",workdir=" + o.work.value)
  {
    var head := "lxc.mount.entry = " + o.keyword + " ";
    var line := OverlayLine(o);
    assert line[..|head|] == head;
    if o.work.Some? {
      var pre := "lxc.mount.entry = " + o.keyword + " " + o.target + " " + o.keyword
                 + " lowerdir=" + o.lower + ",upperdir=" + o.upper;
      var clause := ",workdir=" + o.work.value;
      assert line == pre + clause + " 0 0";
      assert OccursAt(line, clause, |pre|);
    }
  }

  /** The overlay line of the image context opens with the version's keyword, and names
      the work path when the version's dialect has a work layer. */
  lemma {:induction false} ImageOverlayConfig(j: Job)
    ensures var cfg := ImageLxcContext(j).image.value.overlayConfig;
            && StartsWith(cfg, "lxc.mount.entry = " + DialectFor(j.deps.version).overlayKeyword + " ")
            && (DialectFor(j.deps.version).workdir ==> Contains(cfg, ",workdir=" + j.paths.workPath))
  {
    OverlayLineShape(OverlayFor(j.deps.version, j.paths.containerPath, ImageFolder(j), j.paths.workPath));
  }

  /** A line that opens with the mount head and a keyword opens with that keyword spelled
      out (kept apart so that the literal comparison stays small). */
  lemma KeywordHead(cfg: string, kw: string)
    requires StartsWith(cfg, "lxc.mount.entry = " + kw + " ")
    ensures kw == "overlayfs" ==> StartsWith(cfg, "lxc.mount.entry = overlayfs ")
    ensures kw == "overlay" ==> StartsWith(cfg, "lxc.mount.entry = overlay ")
  {
  }

  /** LXC 0.9.9: no network stanza, the `overlayfs` keyword and no work layer. */
  lemma ImageDialectPre1(j: Job)
    requires j.deps.version == Version(0, 9, 9)
    ensures ImageLxcContext(j).networkConfig == ""
    ensures StartsWith(ImageLxcContext(j).image.value.overlayConfig, "lxc.mount.entry = overlayfs ")
    ensures OverlayFor(j.deps.version, j.paths.containerPath, ImageFolder(j), j.paths.workPath).work.None?
  {
    ImageOverlayConfig(j);
    KeywordHead(ImageLxcContext(j).image.value.overlayConfig, DialectFor(j.deps.version).overlayKeyword);
  }

  /** LXC 1.0.8: the network stanza and the `overlayfs` keyword, with no work layer. */
  lemma ImageDialect1(j: Job)
    requires j.deps.version == Version(1, 0, 8)
    ensures ImageLxcContext(j).networkConfig == "lxc.network.type = none"
    ensures StartsWith(ImageLxcContext(j).image.value.overlayConfig, "lxc.mount.entry = overlayfs ")
    ensures OverlayFor(j.deps.version, j.paths.containerPath, ImageFolder(j), j.paths.workPath).work.None?
  {
    ImageOverlayConfig(j);
    KeywordHead(ImageLxcContext(j).image.value.overlayConfig, DialectFor(j.deps.version).overlayKeyword);
  }

  /** LXC 2.0.1: the network stanza, the `overlay` keyword and a `workdir` clause. */
  lemma ImageDialect2(j: Job)
    requires j.deps.version == Version(2, 0, 1)
    ensures ImageLxcContext(j).networkConfig == "lxc.network.type = none"
    ensures StartsWith(ImageLxcContext(j).image.value.overlayConfig, "lxc.mount.entry = overlay ")
    ensures Contains(ImageLxcContext(j).image.value.overlayConfig, ",workdir=" + j.paths.workPath)
  {
    ImageOverlayConfig(j);
    KeywordHead(ImageLxcContext(j).image.value.overlayConfig, DialectFor(j.deps.version).overlayKeyword);
  }

  // ---------------------------------------------------------------------------
  // setup of the image runner (image.py:65-75)

  /** The first two steps of the image runner's setup: `mkdir(IMAGES_ROOT)`, then the
      runner's `ensure_image`. */
  function PlaceImageSpec(fs: Fs, owner: Owner, umask: Mode, j: Job): Res {
    var r1 := Lift(fs, MakeDirs(fs, j.paths.imagesRoot, owner, umask));
    if r1.outcome.Failed? then r1 else RunnerEnsureImageSpec(r1.fs, owner, umask, j)
  }

  /** The URLs those two steps download: none when the images root cannot be made. */
  function PlaceImageFetches(fs: Fs, owner: Owner, umask: Mode, j: Job): seq<string> {
    var r1 := Lift(fs, MakeDirs(fs, j.paths.imagesRoot, owner, umask));
    if r1.outcome.Failed? then [] else RunnerEnsureImageFetches(r1.fs, owner, umask, j)
  }

  function ImageSetupSpec(fs: Fs, environ: map<string, string>, owner: Owner, umask: Mode, j: Job): Res {
    var r2 := PlaceImageSpec(fs, owner, umask, j);
    if r2.outcome.Failed? then r2 else ProvisionSpec(r2.fs, environ, owner, umask, j)
  }

  /** The image runner's setup once the image is in place: `make_proc_dirs`,
      `ensure_build`, `ensure_char_devices` and the four writes. */
  function ProvisionSpec(fs: Fs, environ: map<string, string>, owner: Owner, umask: Mode, j: Job): Res {
    var r3 := MakeAll(fs, ProcDirs(j.paths, j.cfg.volumes), owner, umask);
    if r3.outcome.Failed? then r3 else
    var r4 := EnsureBuildSpec(r3.fs, owner, umask, j);
    if r4.outcome.Failed? then r4 else
    var r5 := CharDevicesSpec(r4.fs, owner, j.paths.containerPath, CharDevices);
    if r5.outcome.Failed? then r5 else
    WriteArtifactsSpec(r5.fs, environ, owner, umask, j, ImageTemplate, ImageLxcContext(j))
  }

  /** The URLs setup downloads once the image is in place: those of `ensure_build`. */
  function ProvisionFetches(fs: Fs, owner: Owner, umask: Mode, j: Job): seq<string> {
    var r3 := MakeAll(fs, ProcDirs(j.paths, j.cfg.volumes), owner, umask);
    if r3.outcome.Failed? then [] else EnsureBuildFetches(r3.fs, owner, umask, j)
  }

  /** What the steps after `ensure_image` leave behind: env.sh, proc.sh and settings.yaml
      in the container path, proc.lxc in the proc path and the work directory, provided
      the work path is not inside the app path the build is unpacked into. */
  lemma {:induction false} ProvisionProduces(fs: Fs, environ: map<string, string>, owner: Owner, umask: Mode, j: Job)
    requires ProvisionSpec(fs, environ, owner, umask, j).outcome == Done
    requires PathJoin(j.paths.procPath, "proc.lxc") !in
               {PathJoin(j.paths.containerPath, "settings.yaml"), PathJoin(j.paths.containerPath, "proc.sh"),
                PathJoin(j.paths.containerPath, "env.sh")}
    requires !Within(j.paths.appPath, j.paths.workPath)
    ensures var r := ProvisionSpec(fs, environ, owner, umask, j).fs;
            var c := j.paths.containerPath;
            && IsFile(r, PathJoin(c, "env.sh")) && IsFile(r, PathJoin(c, "proc.sh"))
            && IsFile(r, PathJoin(c, "settings.yaml")) && IsFile(r, PathJoin(j.paths.procPath, "proc.lxc"))
            && IsDir(r, j.paths.workPath)
  {
    var dirs := ProcDirs(j.paths, j.cfg.volumes);
    var r3 := MakeAll(fs, dirs, owner, umask);
    MakeAllCreates(fs, dirs, owner, umask);
    assert dirs[2] == j.paths.workPath;
    assert IsDir(r3.fs, j.paths.workPath);
    var r4 := EnsureBuildSpec(r3.fs, owner, umask, j);
    EnsureBuildKeepsDirs(r3.fs, owner, umask, j);
    var r5 := CharDevicesSpec(r4.fs, owner, j.paths.containerPath, CharDevices);
    CharDevicesPresent(r4.fs, owner, j.paths.containerPath, CharDevices);
    assert IsDir(r5.fs, j.paths.workPath);
    WriteArtifactsKeepsDirs(r5.fs, environ, owner, umask, j, ImageTemplate, ImageLxcContext(j));
    WriteArtifactsProduces(r5.fs, environ, owner, umask, j, ImageTemplate, ImageLxcContext(j));
  }

  /** What the image runner's setup leaves behind: env.sh, proc.sh and settings.yaml in
      the container path, proc.lxc in the proc path and the work directory, provided the
      work path is not inside the app path the build is unpacked into. */
  lemma {:induction false} ImageSetupProduces(fs: Fs, environ: map<string, string>, owner: Owner, umask: Mode, j: Job)
    requires ImageSetupSpec(fs, environ, owner, umask, j).outcome == Done
    requires PathJoin(j.paths.procPath, "proc.lxc") !in
               {PathJoin(j.paths.containerPath, "settings.yaml"), PathJoin(j.paths.containerPath, "proc.sh"),
                PathJoin(j.paths.containerPath, "env.sh")}
    requires !Within(j.paths.appPath, j.paths.workPath)
    ensures var r := ImageSetupSpec(fs, environ, owner, umask, j).fs;
            var c := j.paths.containerPath;
            && IsFile(r, PathJoin(c, "env.sh")) && IsFile(r, PathJoin(c, "proc.sh"))
            && IsFile(r, PathJoin(c, "settings.yaml")) && IsFile(r, PathJoin(j.paths.procPath, "proc.lxc"))
            && IsDir(r, j.paths.workPath)
  {
    var r2 := PlaceImageSpec(fs, owner, umask, j);
    ProvisionProduces(r2.fs, environ, owner, umask, j);
  }

  /** The URLs the image runner's setup downloads: those of `ensure_image` after the
      images root is made, then those of `ensure_build` after the proc directories. */
  function ImageSetupFetches(fs: Fs, owner: Owner, umask: Mode, j: Job): seq<string> {
    var image := PlaceImageFetches(fs, owner, umask, j);
    var r2 := PlaceImageSpec(fs, owner, umask, j);
    if r2.outcome.Failed? then image else image + ProvisionFetches(r2.fs, owner, umask, j)
  }

  /** The runner's `ensure_image` downloads at most the image, and nothing when the image
      folder exists. */
  lemma RunnerEnsureImageFetchesAtMost(fs: Fs, owner: Owner, umask: Mode, j: Job)
    ensures var f := RunnerEnsureImageFetches(fs, owner, umask, j);
            && (f == [] || f == [j.cfg.imageUrl])
            && (ImageFolder(j) in fs ==> f == [])
  {
  }

  /** After `ensure_image`, setup downloads at most the build, and nothing without a
      build URL. */
  lemma ProvisionFetchesAtMost(fs: Fs, owner: Owner, umask: Mode, j: Job)
    ensures var f := ProvisionFetches(fs, owner, umask, j);
            f == (if Given(j.cfg.buildUrl) then [j.cfg.buildUrl.value] else []) || f == []
  {
    var r3 := MakeAll(fs, ProcDirs(j.paths, j.cfg.volumes), owner, umask);
    EnsureBuildFetchesAtMost(r3.fs, owner, umask, j);
  }

  /** `mkdir(IMAGES_ROOT)` and `ensure_image` download at most the image, and nothing
      when the image folder exists. */
  lemma {:induction false} PlaceImageFetchesAtMost(fs: Fs, owner: Owner, umask: Mode, j: Job)
    ensures var f := PlaceImageFetches(fs, owner, umask, j);
            && (f == [] || f == [j.cfg.imageUrl])
            && (ImageFolder(j) in fs ==> f == [])
  {
    var m := MakeDirs(fs, j.paths.imagesRoot, owner, umask);
    if m.Ok? {
      assert ImageFolder(j) in fs ==> ImageFolder(j) in m.value;
      RunnerEnsureImageFetchesAtMost(m.value, owner, umask, j);
    }
  }

  /** The image setup downloads at most the image and then the build. */
  lemma {:induction false} ImageSetupFetchesAtMost(fs: Fs, owner: Owner, umask: Mode, j: Job)
    ensures var f := ImageSetupFetches(fs, owner, umask, j);
            var build := if Given(j.cfg.buildUrl) then [j.cfg.buildUrl.value] else [];
            f == [] || f == [j.cfg.imageUrl] || f == build || f == [j.cfg.imageUrl] + build
  {
    PlaceImageFetchesAtMost(fs, owner, umask, j);
    var r2 := PlaceImageSpec(fs, owner, umask, j);
    if r2.outcome.Done? {
      ProvisionFetchesAtMost(r2.fs, owner, umask, j);
    }
  }

  /** A setup with no build URL and the image folder already in place downloads nothing. */
  lemma {:induction false} ImageSetupCachedFetchesNothing(fs: Fs, owner: Owner, umask: Mode, j: Job)
    requires !Given(j.cfg.buildUrl) && ImageFolder(j) in fs
    ensures ImageSetupFetches(fs, owner, umask, j) == []
  {
    PlaceImageFetchesAtMost(fs, owner, umask, j);
    var r2 := PlaceImageSpec(fs, owner, umask, j);
    if r2.outcome.Done? {
      ProvisionFetchesAtMost(r2.fs, owner, umask, j);
    }
  }

  /** The steps of `ImageRunner.setup` after `ensure_image`. */
  method Provision(os: Os, j: Job) returns (outcome: Outcome)
    modifies os`fs, os`fetched, os`umask
    ensures Res(os.fs, outcome) == ProvisionSpec(old(os.fs), os.environ, os.owner, old(os.umask), j)
    ensures os.fetched == old(os.fetched) + ProvisionFetches(old(os.fs), os.owner, old(os.umask), j)
    ensures os.umask == old(os.umask)
  {
    outcome := MakeProcDirs(os, j.paths, j.cfg.volumes);
    if outcome.Failed? { return; }
    outcome := EnsureBuild(os, j);
    if outcome.Failed? { return; }
    outcome := EnsureCharDevices(os, j.paths.containerPath);
    if outcome.Failed? { return; }
    var volumes := GetLxcVolumeStr(j.cfg.volumes, j.paths.containerPath);
    var o := OverlayFor(j.deps.version, j.paths.containerPath, ImageFolder(j), j.paths.workPath);
    var ctx := LxcContext(j.paths.containerPath, NetworkConfig(j.deps.version),
                          MemoryLimits(j.cfg.memLimit, j.cfg.memswLimit), volumes,
                          Some(ImageContext(ImageFolder(j), j.paths.workPath, OverlayLine(o))));
    outcome := WriteArtifacts(os, j, ImageTemplate, ctx);
  }

  /** `mkdir(IMAGES_ROOT)` followed by the runner's `ensure_image`. */
  method PlaceImage(os: Os, j: Job) returns (outcome: Outcome)
    modifies os`fs, os`fetched
    ensures Res(os.fs, outcome) == PlaceImageSpec(old(os.fs), os.owner, os.umask, j)
    ensures os.fetched == old(os.fetched) + PlaceImageFetches(old(os.fs), os.owner, os.umask, j)
  {
    outcome := Mkdir(os, j.paths.imagesRoot);
    if outcome.Failed? { return; }
    outcome := RunnerEnsureImage(os, j);
  }

  /** `ImageRunner.setup` */
  method ImageSetup(os: Os, j: Job) returns (outcome: Outcome)
    modifies os`fs, os`fetched, os`umask
    ensures Res(os.fs, outcome) == ImageSetupSpec(old(os.fs), os.environ, os.owner, old(os.umask), j)
    ensures os.fetched == old(os.fetched) + ImageSetupFetches(old(os.fs), os.owner, old(os.umask), j)
    ensures os.umask == old(os.umask)
  {
    outcome := PlaceImage(os, j);
    if outcome.Failed? { return; }
    outcome := Provision(os, j);
  }
}
