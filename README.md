# vr.runners: container provisioning, modelled in Dafny

This project models what the runners of `vr.runners` do to a host when they build and start an
LXC container for one process. That process is described by a proc.yaml descriptor.

- `BaseRunner.main` looks the command up in a five-entry table (`setup`, `run`, `shell`,
  `uptest`, `teardown`). It opens the descriptor, then locks it or closes it according to the
  command's lock policy, and runs the command.
- `setup` lays out the container. It creates the proc, container and work directories and one
  mount point per volume. When a `build_url` is given, it fetches and unpacks the build. Last, it
  writes `proc.lxc`, `settings.yaml`, an executable `proc.sh` and `env.sh`.
- `run`, `shell` and `uptest` replace the process with `lxc-start`. For a special command, the
  container name gets an ephemeral `-TMP<hash>` suffix, and from LXC 2.0.0 on an `lxc-create`
  comes first. `uptest` prints `[]` when the build has no uptests for the proc.
- `teardown` removes the proc path.
- The module-level `untar` unpacks into a staging area. It adds owner and permission bits, then
  moves the result into place, overwriting the old folder or raising a conflict.
- The module-level `ensure_file` downloads only when the file is missing or its md5 differs.
- The image runner also keeps an unpacked OS image in the images cache. A `resolv.conf`
  symlink in that image is replaced by an empty file. The runner creates four character
  devices with the umask temporarily set to 0, and renders an overlay mount whose syntax
  depends on the LXC version.

## How the model is organised

- `strings.dfy` (`Strings`): the string and `os.path` helpers the core uses. These are
  `join`, `rpartition`, `lstrip`, `basename`, `dirname` and `os.path.join`.
- `host.dfy` (`Host`): the abstract host.
  - The filesystem is a map from path to `Dir`, `File`, `Symlink` or `CharDev`.
  - The exceptions are values of one error type.
  - The `Os` class holds the state the core changes: the filesystem, umask, descriptor state,
    standard output, downloads, `os.system` commands and the final `execve` hand-off.
- `base_render.dfy` (`BaseRender`): the pure renderers of `base.py`. These are `env.sh`, the
  memory and volume lines, the `lxc-start` argument vector, the ephemeral name and command
  resolution. This file also holds the LXC version dialect.
- `base_ops.dfy` (`BaseOps`): each filesystem-changing operation of `base.py`, in two forms.
  One is a specification function from the old filesystem to a `Res` (the new filesystem and
  whether the step completed or raised). The other is a method on `Os` whose contract ties
  its effect to that function. Lemmas state what the functions guarantee. A step that can
  download appends the URLs it fetched to `Os.fetched`. A `...Fetches` function beside its
  specification function says which URLs those are.
- `image.dfy` (`Image`): the same for `image.py`, with `tmp_umask` as a class.
- `lifecycle.dfy` (`Lifecycle`): the dispatch table, the lock policy, and the `Runner` class
  whose `HandleCommand` models `main`.

Collaborators the core calls but does not define are parameters of the model. They are
bundled in `BaseOps.Deps` and `BaseOps.Paths`:
- md5, the HTTP body for a URL, and tar extraction;
- Procfile parsing and template rendering;
- the LXC version;
- the path builders of `vr.common.paths`.

A raised exception is a `Failed(error)` outcome. The filesystem in the result is the one the
failing step left.

## Model

| member | source | states |
|---|---|---|
| Strings.RPartitionTail | vr/runners/base.py:391 | the extension is a suffix of the path that holds no `.` |
| Strings.RPartitionAfterSep | vr/runners/base.py:391 | when the extension is shorter than the path, the path is a head, the last `.` and the extension |
| Host.MakeDirs | vr/runners/base.py:318-328 | `mkdir` leaves an existing directory alone; on success the path is a directory, every old entry is kept and every new entry is a fresh directory |
| Host.MakeDirsOnlyAncestors | vr/runners/base.py:318-328 | the only entries `mkdir` adds are the path and prefixes of it, its missing ancestors |
| Host.WriteText | vr/runners/base.py:123-124 | `open(p, 'w')` succeeds iff `p` is a regular file or is absent with its parent present; only `p` changes, it holds the text, and an existing file keeps its mode and owner |
| BaseRender.DialectFor | vr/runners/image.py:105-110 | the network stanza is present from LXC 1.0.0 on, the overlay keyword is `overlay` from 2.0.0 on (`overlayfs` before), and the work layer and `--foreground` are present from 2.0.0 on |
| BaseRender.NetworkConfig | vr/runners/base.py:348 | the network line is `lxc.network.type = none` exactly when the dialect has one, and empty otherwise |
| BaseRender.DialectMonotone | vr/runners/base.py:243-246 | a newer LXC version never loses a dialect feature an older one has |
| BaseRender.Interpolate | vr/runners/base.py:135-138 | a string value starting with `$` becomes the environment variable named by the rest, or `""` when it is unset; any other value is emitted as it is |
| BaseRender.EnvShIsLines | vr/runners/base.py:143-145 | for a non-empty env, the export lines joined by newlines plus one final newline is exactly each export line followed by its own newline, in the env's order; an empty env gives `"\n"` |
| BaseRender.EnvShLinesAppend | vr/runners/base.py:140-145 | `env.sh` has one `export K="V"` line per key, in order: the text for `a + b` is the text for `a` followed by the text for `b` |
| BaseRender.MemoryLimits | vr/runners/base.py:330-343 | the `limit_in_bytes` line is present iff `mem_limit` is truthy, the `memsw` line iff `memsw_limit` is truthy, the `mem` line comes first, they are joined by a newline, and the result is empty iff neither is set |
| BaseRender.GetLxcVolumeStr | vr/runners/base.py:269-277 | the accumulating loop returns the volume text of the declared volumes |
| BaseRender.VolumeTextAppend | vr/runners/base.py:274-276 | the bind lines follow the declared order of the volumes, one line per pair |
| BaseRender.VolumeTextShape | vr/runners/base.py:270-277 | the volume text is empty iff there are no volumes; one volume gives exactly `\nlxc.mount.entry = <outside> <container><inside> none bind 0 0` |
| BaseRender.Prefix8 | vr/runners/base.py:223 | the hash prefix is the digest's first eight characters, or the whole digest when it is shorter |
| BaseRender.EphemeralName | vr/runners/base.py:210-225 | with a special command the container name always differs from the primary name and starts with `<name>-TMP`; for a digest of at least eight characters it is exactly `<name>-TMP` and the digest's first eight characters, twelve characters longer than the name |
| BaseRender.LxcArgs | vr/runners/base.py:207-267 | the vector starts with `lxc-start --name <name> --rcfile <proc_path>/proc.lxc`; `--foreground` follows iff the version is at least 2.0.0; the debug log arguments are present iff `app_folder` is given; it ends with `-- sudo -u <user> -E -s /bin/bash -c` and the inner script for the special command or `run` |
| BaseRender.ForegroundFollowsDialect | vr/runners/base.py:242-246 | the `--foreground` flag is present exactly when the version's dialect has it |
| BaseRender.LxcCreateCommand | vr/runners/base.py:162-178 | `ensure_container` issues a command iff the version is at least 2.0.0, and that command creates the named container |
| BaseRender.ResolveCommand | vr/runners/base.py:147-160 | a configured `cmd` wins; otherwise the command is the Procfile's entry for the proc name, a missing entry is a `KeyError`, and an unreadable Procfile is an error |
| BaseOps.Mkdir | vr/runners/base.py:189 | the method follows `mkdir` on the host |
| BaseOps.FixTree | vr/runners/base.py:403-415 | fixing owners touches no member name |
| BaseOps.FixNodeAddsBits | vr/runners/base.py:406-415 | directories get owner `user:group` and `ug+xr` OR-ed into their mode; regular files get `ug+rw` OR-ed in; the old bits are kept, and links and devices are left alone |
| BaseOps.FixOwnership | vr/runners/base.py:403-415 | the walk that fixes every member gives the fixed tree |
| BaseOps.ReadArchive | vr/runners/base.py:391-401 | an extension other than `gz` or `bz2` is a `ValueError`; reading succeeds iff the extension is allowed and the archive is a regular file, and then gives the extracted members |
| BaseOps.Untar | vr/runners/base.py:368-424 | unpacking on the host follows the untar specification |
| BaseOps.UntarAtomic | vr/runners/base.py:393-424 | every failure leaves the filesystem unchanged; an existing folder with `overwrite` off is a conflict; untar completes iff the archive is readable, an existing folder may be overwritten, and nothing other than a directory is in the way |
| BaseOps.MoveIntoPlaces | vr/runners/base.py:417-424 | after the move the folder is a fresh directory holding every staged member at its place, nothing else new lies below it, and every path outside it is as before |
| BaseOps.UntarPlaces | vr/runners/base.py:368-424 | a successful untar read a regular `.gz`/`.bz2` file and the folder then holds the extracted members with their owners fixed; nothing outside the folder appears or disappears |
| BaseOps.DownloadFile | vr/runners/base.py:440-448 | the download is recorded, and the body lands at the path (or inside it when it is a directory), or the step fails on a bad download or a missing parent |
| BaseOps.EnsureFile | vr/runners/base.py:427-437 | a download happens iff the path is not a regular file, or an md5 is given and differs from the file's md5 |
| BaseOps.EnsureFileIdempotent | vr/runners/base.py:436-437 | after a successful `ensure_file` whose served body has the expected md5, a second call downloads nothing and changes nothing |
| BaseOps.ProcDirs | vr/runners/base.py:314-328 | the directories are the proc, container and work paths, then `<container>/<inside without leading />` for each volume, in order |
| BaseOps.MakeAllStops | vr/runners/base.py:317-328 | once one `mkdir` raises, the later ones do not run |
| BaseOps.MakeAllCreates | vr/runners/base.py:317-328 | when all the `mkdir` calls succeed, every listed directory exists and nothing that was there is lost |
| BaseOps.MakeProcDirs | vr/runners/base.py:314-328 | the two loops of `make_proc_dirs` follow `mkdir` over the listed directories, in order |
| BaseOps.EnsureBuild | vr/runners/base.py:180-194 | with a `build_url` the step creates the builds root, ensures the build file and untars it into the app path as `user:group` with overwrite; without one it changes nothing; the URLs it downloads are those of `EnsureBuildFetches`, the build URL exactly when the builds root was made and its file needs downloading |
| BaseOps.EnsureBuildFetchesAtMost | vr/runners/base.py:180-194 | `ensure_build` downloads at most the build URL, nothing without a `build_url`, and nothing when a regular build file with the expected md5 (or none expected) is already there |
| BaseOps.BaseLxcContext | vr/runners/base.py:345-351 | the proc.lxc context holds the container path, the version's network stanza, the memory lines and the volume text, and no image fields |
| BaseOps.WriteProcLxc | vr/runners/base.py:353-360 | `proc.lxc` in the proc path receives the rendered template |
| BaseOps.WriteSettingsYaml | vr/runners/base.py:196-201 | `settings.yaml` in the container path receives the dumped settings |
| BaseOps.WriteProcSh | vr/runners/base.py:107-127 | `proc.sh` receives the rendered script for the resolved command and gains the three execute bits |
| BaseOps.WriteEnvSh | vr/runners/base.py:129-145 | `env.sh` receives the rendered exports |
| BaseOps.WriteArtifacts | vr/runners/base.py:86-89 | the four writing steps run in order and stop at the first failure |
| BaseOps.BaseSetup | vr/runners/base.py:82-89 | `setup` runs `make_proc_dirs`, `ensure_build` and the four writing steps in that order, stopping at the first failure; it downloads only what `ensure_build` downloads once the proc directories are made, and nothing when they cannot be made |
| BaseOps.WriteStep | vr/runners/base.py:359-360 | a successful write leaves a regular file with the text at its path and changes nothing else |
| BaseOps.WriteProcShStep | vr/runners/base.py:121-127 | a successful `write_proc_sh` leaves an executable `proc.sh` and changes nothing else |
| BaseOps.WriteArtifactsProduces | vr/runners/base.py:86-89 | after the writing steps, `proc.lxc` holds the rendered template, `settings.yaml` the settings, `proc.sh` is executable and `env.sh` holds the exports |
| BaseOps.WriteArtifactsKeepsDirs | vr/runners/base.py:86-89 | the writing steps never remove or replace a directory |
| BaseOps.EnsureFileKeepsDirs | vr/runners/base.py:427-448 | `ensure_file` never removes or replaces a directory |
| BaseOps.UntarKeepsDirs | vr/runners/base.py:417-424 | `untar` keeps every directory outside the folder it unpacks into |
| BaseOps.EnsureBuildKeepsDirs | vr/runners/base.py:180-194 | `ensure_build` keeps every directory outside the app path |
| BaseOps.LxcStart | vr/runners/base.py:203-205 | the process is handed to `lxc-start` with the argument vector, and an `lxc-create` is issued first exactly for a special command on LXC 2.0.0 or later |
| BaseOps.Run | vr/runners/base.py:91-93 | `run` hands off with the command `run` and issues no `lxc-create` |
| BaseOps.Shell | vr/runners/base.py:95-97 | `shell` hands off with `/bin/bash` as the special command, after issuing the `lxc-create` of the `-TMP` container on LXC 2.0.0 or later |
| BaseOps.InstallUptester | vr/runners/base.py:279-287 | the uptester is copied into the container and made executable |
| BaseOps.Uptest | vr/runners/base.py:279-302 | after installing the uptester: with an uptests directory for the proc it hands off the ephemeral uptest container, after the `lxc-create` of that container on LXC 2.0.0 or later; without one it prints exactly `[]` and starts nothing; without a proc name, or after a failure, it does neither |
| BaseOps.TeardownIdempotent | vr/runners/base.py:305-312 | teardown of a missing proc path changes nothing; otherwise nothing below the proc path is left, everything else is kept, and a second teardown changes nothing |
| BaseOps.Teardown | vr/runners/base.py:305-312 | the method follows the teardown specification |
| Image.ImageFolderLayout | vr/runners/image.py:95-96 | the image folder is `<images_root>/<image_name>/contents` |
| Image.PrepareImageResolv | vr/runners/image.py:28-42 | after unpacking, `etc/resolv.conf` is never a link: a link becomes an empty regular file, otherwise the unpacked tree is untouched, and no other path differs from the untar result |
| Image.PrepareImage | vr/runners/image.py:28-42 | the method follows `prepare_image` |
| Image.PrepareImageProvides | vr/runners/image.py:34-42 | a successful `prepare_image` leaves the output folder a directory |
| Image.EnsureImage | vr/runners/image.py:18-25 | the module-level `ensure_image` creates `<root>/<name>`, ensures the tarball at `<root>/<name>/<basename(url)>`, and unpacks only when `untar_to` is given; it downloads the URL exactly when that directory could be made and the tarball in it is missing or stale |
| Image.RunnerEnsureImage | vr/runners/image.py:77-93 | when the image folder exists nothing changes and nothing is downloaded; otherwise the image is ensured and unpacked into it, with the downloads of the module-level `ensure_image` |
| Image.RunnerEnsureImageProvides | vr/runners/image.py:77-96 | after a successful step the image folder exists, and it is a directory when it was absent before |
| Image.RunnerEnsureImageFetchesAtMost | vr/runners/image.py:77-93 | the runner's `ensure_image` downloads at most the image URL, and nothing when the image folder exists |
| Image.TmpUmask.constructor | vr/runners/image.py:137-138 | the context manager remembers the temporary mask |
| Image.TmpUmask.Enter | vr/runners/image.py:140-141 | entering saves the old umask and installs the temporary one |
| Image.TmpUmask.Exit | vr/runners/image.py:143-144 | leaving restores the saved umask |
| Image.Mknod | vr/runners/image.py:129-130 | the method follows `os.mknod` with the umask applied |
| Image.EnsureCharDevice | vr/runners/image.py:119-132 | the method follows `ensure_char_device`, and the process umask afterwards is what it was before, whether the step completed or raised |
| Image.CharDeviceExact | vr/runners/image.py:119-132 | when the path existed nothing changes; otherwise a character device appears with the given numbers and mode exactly `S_IFCHR \| perms`, and nothing that was there is lost |
| Image.CharDevicesStop | vr/runners/image.py:113-116 | once one device fails, the later devices are not made |
| Image.CharDevicesPresent | vr/runners/image.py:113-116 | when every device step succeeds, each device path under the container exists and nothing that was there is lost |
| Image.EnsureCharDevices | vr/runners/image.py:58-63 | the loop makes `/dev/null` 1:3 0666, `/dev/zero` 1:5 0666, `/dev/random` 1:8 0444 and `/dev/urandom` 1:9 0444 under the container path, in that order, and restores the umask |
| Image.OverlayFor | vr/runners/image.py:109-110 | the overlay mounts the image below and the container above onto the container, uses the dialect's keyword, and has a work layer exactly when the dialect has one |
| Image.OverlayLineShape | vr/runners/image.py:109-110 | the overlay line starts `lxc.mount.entry = <keyword> ` and mentions `workdir=` with the work path exactly when a work layer is present |
| Image.ImageLxcContext | vr/runners/image.py:98-111 | the image context adds the image folder and the work path to the base context |
| Image.ImageOverlayConfig | vr/runners/image.py:98-111 | the overlay line of the image context opens with `lxc.mount.entry = ` and the version's overlay keyword, and names the work path in a `,workdir=` clause whenever the version's dialect has one |
| Image.ImageDialectPre1 | tests/test_image.py:57-66 | on LXC 0.9.9 there is no network line, the overlay line opens with `lxc.mount.entry = overlayfs ` and there is no work layer |
| Image.ImageDialect1 | tests/test_image.py:47-55 | on LXC 1.0.8 the network line is `lxc.network.type = none` and the overlay line opens with `lxc.mount.entry = overlayfs ` |
| Image.ImageDialect2 | tests/test_image.py:68-77 | on LXC 2.0.1 the network line is `lxc.network.type = none`, the overlay line opens with `lxc.mount.entry = overlay ` and it holds `,workdir=` and the work path |
| Image.PlaceImage | vr/runners/image.py:67-68 | `mkdir(IMAGES_ROOT)` then the runner's `ensure_image`: a failed `mkdir` stops with nothing downloaded |
| Image.PlaceImageFetchesAtMost | vr/runners/image.py:67-68 | the first two setup steps download at most the image URL, and nothing when the image folder exists |
| Image.Provision | vr/runners/image.py:69-75 | after the image, `make_proc_dirs`, `ensure_build`, `ensure_char_devices` and the four writes run in order, stop at the first failure, download only what `ensure_build` downloads, and leave the umask as it was |
| Image.ProvisionFetchesAtMost | vr/runners/image.py:69-75 | the steps after the image download at most the build URL, and nothing without a `build_url` |
| Image.ProvisionProduces | vr/runners/image.py:69-75 | after the steps that follow the image, `env.sh`, `proc.sh` and `settings.yaml` are files in the container path, `proc.lxc` is a file in the proc path, and the work path is a directory |
| Image.ImageSetupProduces | tests/test_image.py:34-45 | after the image runner's setup, `env.sh`, `proc.sh` and `settings.yaml` are files in the container path, `proc.lxc` is a file in the proc path, and the work path is a directory |
| Image.ImageSetup | vr/runners/image.py:65-75 | the steps run in order: images root, image, proc dirs, build, devices, proc.lxc, settings.yaml, proc.sh, env.sh; setup stops at the first failure, restores the umask, and downloads what the image steps download followed by what `ensure_build` downloads |
| Image.ImageSetupFetchesAtMost | vr/runners/image.py:65-75 | the image runner's setup downloads nothing, the image, the build, or the image and then the build |
| Image.ImageSetupCachedFetchesNothing | vr/runners/image.py:65-93 | a setup with no `build_url` and the image folder already in place downloads nothing |
| Lifecycle.Lookup | vr/runners/base.py:59-63 | the lookup fails iff the name is not in the table, and otherwise gives that name's command |
| Lifecycle.CommandNames | vr/runners/base.py:40-46 | the table accepts exactly `setup`, `run`, `shell`, `uptest` and `teardown`, and each name selects its own command |
| Lifecycle.UsageMessageText | vr/runners/base.py:62-63 | the exit message is `Command must be one of: setup, run, shell, uptest, teardown` |
| Lifecycle.LockOf | vr/runners/base.py:68-71 | `shell` and `uptest` close the descriptor and every other command locks it |
| Lifecycle.Runner.RunSetup | vr/runners/base.py:82-89 | `setup` proceeds as the base runner's setup for a plain runner and as the image runner's setup (vr/runners/image.py:65-75) for the image runner, with that setup's downloads, and leaves the umask as it was |
| Lifecycle.Runner.Execute | vr/runners/base.py:65-72 | leaving the `with` block closes the descriptor after `setup`, `teardown` and an `uptest` that returns; a hand-off carries the descriptor as the command's lock policy leaves it, locked for `run` and closed for `shell` and `uptest`; each command's effect on the filesystem and the downloads is as for Dispatch |
| Lifecycle.Runner.Dispatch | vr/runners/base.py:72 | each command runs its operation: setup by runner kind with its downloads, run and shell hand off, uptest installs and may hand off, teardown removes; only setup downloads or touches the umask |
| Lifecycle.Runner.HandleCommand | vr/runners/base.py:39-72 | an unknown name exits with the usage message and touches neither the filesystem, the descriptor, the output, the engine, the downloads nor the umask; otherwise the config is loaded; `run` hands off with the descriptor locked; `shell` and `uptest` hand off with it closed; commands that return leave it closed; only `setup` downloads |

## Left out

- HTTP transfer: the body served for a URL is the `fetch` parameter, and a failed request is `None`. Its streaming and the staging `tmpdir` are not modelled.
- Tar extraction, md5 hashing, YAML load and dump, and Procfile parsing are parameters (`unpack`, `md5`, `parseProcfile`) or fields of the descriptor (`settingsYaml`); the libraries are not modelled.
- Template text: `get_template` and the `proc.sh`, `proc.lxc` and `image.lxc` templates are rendered by the `renderLxc` and `renderProcSh` parameters. The model keeps the context each template receives, not the text.
- The `vr.common` helpers are not part of this model. The path builders are the fields of `Paths`. `mkdir` is modelled as `os.makedirs` guarded by an existing directory. `lock_file` is the `Locked` descriptor state. `get_lxc_version` is the `version` parameter.
- `get_lxc_network_config` and `get_lxc_overlayfs_config_fmt` are written from the behaviour the tests assert. The network line is one fixed stanza. The overlay line has a stand-in layout: keyword, target, lowerdir, upperdir and an optional workdir.
- Image.OverlayLineShape: states only the head and the `workdir` clause of the overlay line, because its full text in `vr.common` is not part of this model.
- Symbolic links are never followed. `os.path.isdir`, `os.path.isfile` and `os.path.exists` are taken on the entry itself, and so is the `path.Path` walk in `untar`. A write through a link or onto a device is an `Unsupported` error.
- `shutil.move` is modelled for a target that is absent or a directory just removed. Its copying fallback across filesystems and its creation of missing parents are not modelled. A non-directory in the way is `NotADirectory`.
- InstallUptester: a directory at the uptester's destination is an error in the model. `shutil.copy` would copy into it instead.
- MoveIntoPlaces: "nothing else new below the folder" is stated only when the folder was a directory or the path was absent before. The map model allows entries below a path that is not a directory.
- EnsureFileIdempotent: requires that the path is not a directory, because a directory path makes `download_file` move the file inside it and the second call would download again.
- ProvisionProduces: requires that the work path is not inside the app path and that `proc.lxc` is not one of the container files, because `ensure_build` replaces the app path.
- ImageSetupProduces: requires that the work path is not inside the app path and that `proc.lxc` is not one of the container files, because `ensure_build` replaces the app path.
- The descriptor file's opening and parsing (`open(..., 'r+b')`, `yaml.safe_load`, `ProcData`) are the `Job` parameter. A file that cannot be opened or parsed is not modelled.
- `argparse`, `--version`, `invoke` and the `print` logging are not modelled. The one line kept on standard output is uptest's `[]`.
- `os.execve` is the recorded `Handoff`. A failure of `execve` or of `which('lxc-start')` is not modelled, and neither is the exit status of `os.system`.
- The lock is held across an `execve` for `run`: the code locks the descriptor for every command other than `shell` and `uptest`, and does not release it before the hand-off. The model follows the code. What becomes of the lock after the process image is replaced depends on descriptor inheritance and is not modelled.
- Concurrency is not modelled. That includes the race on the shared builds and images caches between invocations.
- Error-message wording is not modelled, beyond the two messages the core spells out. The `untar` conflict carries the paths instead of the `tarfile` module the original message interpolates.
- Dictionary order: the command table is kept in insertion order, which is how Python 3.7 and later iterate a `dict`. The package also declares Python 2.7 (setup.py:26 and setup.py:41). There the names in the `cmd_list` of `main` and in its exit message follow hash order, which the model does not capture.
- Descriptor values are `Null`, strings and integers. The booleans and floats YAML can produce are not modelled: their `str` forms in `env.sh` (`True`, `1.5`) and their truthiness (`False`, `0.0`) in the memory limits.
- Paths are plain string keys, with no normalisation. A trailing slash or a doubled `/` names a different entry in the model, where the OS sees one. `make_proc_dirs` on a volume whose inside path ends in `/` is one place where this shows.
- File contents are text (`string`), not bytes, and permission modes are 16-bit vectors. A file's owner is recorded, but `chown` failures are not modelled.
