# changes-lxc-wrapper, modelled in Dafny

This project models the core of changes-lxc-wrapper. That tool runs Changes job steps inside LXC containers, ships their console output to the Changes API and keeps a local cache of snapshot images. The model has one Dafny module for each core source file, plus four shared modules:

- `Wrappers` (`wrappers.dfy`): the `Option` and `Result` types.
- `Text` (`text.dfy`): the string helpers the source uses. These are `rsplit('/', 1)[-1]`, `rstrip`, `lstrip` and `''.join`.
- `Uuids` (`uuids.dfy`): `UUID(text)` and `str(UUID(text))` as the source uses them on text. The `urn:` and `uuid:` marks, the surrounding braces and every dash are dropped. What is left must be 32 characters, or `ValueError('badly formed hexadecimal UUID string')` is raised. Those 32 must be hexadecimal digits, or `int(hex, 16)` raises its own `ValueError`, `invalid literal for int() with base 16: '...'`. The id is written back in lower case with dashes after 8, 12, 16 and 20 digits.
- `FileTree` (`file_tree.dfy`): the filesystem as an inductive tree of named files with sizes and directories. It also holds `os.path.join`, the steps of `os.walk`, the recursive file-size sum, and the directories the collector reports four levels below a root.
- `LogReporting` (`log_reporter.dfy`): `chunked` and the `LogReporter` class.
  - `chunked` regroups buffered fragments into chunks that end at a newline when they can and are bounded by `chunk_size`.
  - `LogReporter` holds an append buffer, a `done` flag and the drain loop `process`. The threads are sequentialised: the writes and closes other threads make during each `cv.wait` form an explicit schedule of event batches.
- `SnapshotCaching` (`snapshot_cache.dfy`): `get_directory_size` and the collector, both with their loops. The `SnapshotCache` class covers `initialize`, `total_size` and `remove`.
  - `initialize` reconciles the collected paths against the listing the service returns. Ids are read as UUIDs, so an id is matched however it is written.
  - `initialize` raises when the root is a file, when `api.list_snapshots()` fails, or when an upstream id or a directory name is not a UUID. The snapshots are then left as they were.
- `Api` (`api.dfy`): the client's base-URL normalisation, the request URL, the retry loop of `request` and the endpoint paths.
  - The transport is an oracle that gives the outcome of attempt `k`.
  - The sleeps are returned as their list of delays.
- `Heartbeat` (`heartbeat.dfy`): `Heartbeater.wait` and `close`, over a schedule of ticks. Each tick is one poll's answer plus whether `close` runs during the wait after it.
- `Containers` (`container.dfy`): the container driver.
  - The pure helpers: home directory, image path, `rootfs`, and the environment, working directory and `sudo` prefix of `run`.
  - A `Container` class with `defined` and `running` flags and a log of every call it makes. The lxc runtime, the host paths and the exit status of each call come from a `Runtime` value.
  - Each operation is proved against a *plan*: the list of calls the source makes, each with the assertion that checks its result. A run stops at the first failing assertion, as a Python `assert` does.
- `Wrapper` (`wrapper.dfy`): `WrapperCommand.run` and `WrappedOutput`.
  - The job parameters are resolved from the job step or the command line, then `run` checks the snapshot rule.
  - `run` then orders the API, reporter and container events in its `try`/`except`/`finally` blocks.
  - The container operations are the `Containers.Container` methods themselves.
- `Manager` (`manager.dfy`): the snapshot manager's listing.
  - `manager.py` defines `collect_files` and `get_directory_size` again, with the same code as the snapshot cache. Both are modelled once, by `SnapshotCaching.CollectFiles` and `SnapshotCaching.GetDirectorySize`, which `Manager.Run` calls.
  - Because of that reuse, the manager and the cache agree on the collected list by construction. `Manager.AgreesWithCache` states that agreement for the derived records.

Where the code and its documentation differ, the model follows the code. `manager.py` describes an eviction policy in its docstring, but no code implements it. Likewise, `tests/cli/test_wrapper.py` patches a `run_build_script` method that `wrapper.py` does not define. The model follows `wrapper.py` and uses those tests only for the parameter values they expect. One such value is the job step's snapshot `a1028849e8cf4ff0a7d7fdfe3c4fe925`, which `str(UUID(...))` hands on as `a1028849-e8cf-4ff0-a7d7-fdfe3c4fe925`.

## Model

| member | source | states |
|---|---|---|
| Text.AfterLast | changes_lxc_wrapper/snapshot_cache.py:62 | The result holds no separator and is the suffix of the input after its last separator; it is the whole input when the input has none. |
| Text.AfterLastOfJoin | changes_lxc_wrapper/snapshot_cache.py:62 | The last component of `s + c + t` is `t` whenever `t` holds no `c`. |
| Text.RStrip | changes_lxc_wrapper/api.py:16 | The result is a prefix of the input that does not end in the character, and only copies of that character were dropped. |
| Text.LStrip | changes_lxc_wrapper/api.py:22 | The result is a suffix of the input that does not start with the character, and only copies of that character were dropped. |
| Uuids.ParseMeaning | changes_lxc_wrapper/cli/wrapper.py:124 | `str(UUID(text))` succeeds iff dropping the `urn:` and `uuid:` marks, the braces and the dashes leaves 32 hexadecimal digits. It then gives those digits in lower case, with dashes at 8-4-4-4-12, which is the written form. When other than 32 characters are left, it raises `badly formed hexadecimal UUID string`. When 32 are left but they are not all hexadecimal digits, it raises `int()`'s `invalid literal for int() with base 16:` followed by the quoted digits. |
| Uuids.SameUuid | changes_lxc_wrapper/snapshot_cache.py:62-63 | 32 hexadecimal digits, in either case, are read as their lower-case written form. The same digits with dashes are read as the same UUID, so an undashed directory name finds an upstream id written with dashes. |
| Uuids.ParseCanonical | changes_lxc_wrapper/cli/wrapper.py:130 | A text already in written form is handed on unchanged. |
| Uuids.ParseIdempotent | changes_lxc_wrapper/cli/wrapper.py:124 | Reading a written form again gives the same written form. |
| Uuids.ShortRefused | changes_lxc_wrapper/snapshot_cache.py:62 | A text shorter than 32 characters, the empty text included, raises `badly formed hexadecimal UUID string`. |
| Uuids.FormatDigits | changes_lxc_wrapper/cli/wrapper.py:124 | Dropping the marks, braces and dashes from a written form gives back its 32 digits. |
| Uuids.FormatCanonical | changes_lxc_wrapper/cli/wrapper.py:124 | 32 lower-case digits, written out, are in written form: 36 characters with dashes at 8, 13, 18 and 23. |
| Uuids.FormatGroups | changes_lxc_wrapper/cli/wrapper.py:124 | The written form puts one dash between the groups of 8, 4, 4, 4 and 12 digits. |
| FileTree.JoinShape | changes_lxc_wrapper/snapshot_cache.py:99 | A joined path starts with the directory and ends with the name. Exactly one `/` lies between them, unless the directory is empty or already ends in `/`. |
| FileTree.WalkAllSize | changes_lxc_wrapper/snapshot_cache.py:13-16 | The files of every walk step below a listing, plus the files directly in it, give the recursive size of the listing. |
| FileTree.WalkSize | changes_lxc_wrapper/snapshot_cache.py:11-17 | Summing file sizes over every step of `os.walk(path)` gives the recursive sum of file sizes below the path. A path naming a file gives 0. |
| FileTree.CollectedOneExactly | changes_lxc_wrapper/snapshot_cache.py:98-105 | A directory found through one entry is reported iff it is that entry at depth 4, or lies the remaining levels below that entry. A file entry contributes nothing. |
| FileTree.CollectedExactly | changes_lxc_wrapper/snapshot_cache.py:95-106 | The collector reports a directory iff that directory lies exactly `5 - depth` levels below the path. From the root, these are exactly the `dist/release/arch/id` directories: files are skipped at every level and nothing deeper is reported. |
| FileTree.CollectedAreDirs | changes_lxc_wrapper/snapshot_cache.py:100-105 | Every reported entry is a directory whose path begins with the root. |
| SnapshotCaching.GetDirectorySize | changes_lxc_wrapper/snapshot_cache.py:11-17 | The nested loops over `os.walk` add up to the recursive size of the directory: 0 for an empty one. |
| SnapshotCaching.CollectInto | changes_lxc_wrapper/snapshot_cache.py:95-106 | The recursive collector appends exactly the directories below `path` to the shared stack, in listing order, and keeps what the stack already held. |
| SnapshotCaching.CollectFiles | changes_lxc_wrapper/snapshot_cache.py:88-108 | `_collect_files` gives `[]` for a missing root and fails on a root that is a file. Otherwise it gives the depth-four collection of the root. |
| SnapshotCaching.LastListingMeaning | changes_lxc_wrapper/snapshot_cache.py:51-57 | The last snapshot listing a UUID is found iff some snapshot lists it. That snapshot lists it, and none after it does. |
| SnapshotCaching.ListsRead | changes_lxc_wrapper/snapshot_cache.py:52-53 | A snapshot lists a UUID iff one of its image ids, however written, is read as that UUID. |
| SnapshotCaching.AddImages | changes_lxc_wrapper/snapshot_cache.py:52-57 | The inner loop over one snapshot's images raises iff an image id, or the project id of a snapshot with images, is not a UUID. Otherwise it adds each image's UUID, mapped to the snapshot's project UUID, date and active flag, over what was there. |
| SnapshotCaching.UpstreamLookup | changes_lxc_wrapper/snapshot_cache.py:47-57 | A UUID is a key of the upstream map iff some snapshot of the listing, read as UUIDs, has an image with it. Its metadata is that of the last such snapshot. |
| SnapshotCaching.BuildUpstream | changes_lxc_wrapper/snapshot_cache.py:47-57 | The nested loops over the listing raise iff some snapshot holds an id that is not a UUID. Otherwise they build exactly the upstream map, with later snapshots overwriting earlier ones. |
| SnapshotCaching.LastLister | changes_lxc_wrapper/snapshot_cache.py:47-57 | The upstream map has a UUID iff some snapshot of the listing lists it. Its metadata is then the project UUID, date and active flag of the last snapshot that lists it. |
| SnapshotCaching.EntryMeaning | changes_lxc_wrapper/snapshot_cache.py:59-71 | A path's image has as its id the UUID that the last path component denotes, plus its own path and size. It is valid iff some listed snapshot has an image with that UUID, and then it takes the project, date and active flag of the last such snapshot. Otherwise it is inactive with no date and no project. |
| SnapshotCaching.BuildEntries | changes_lxc_wrapper/snapshot_cache.py:59-71 | The loop over the paths raises iff some directory name is not a UUID. Otherwise it builds one image per path, in order, each the entry above. |
| SnapshotCaching.NamedEntry | changes_lxc_wrapper/snapshot_cache.py:62-71 | One pass of that loop raises iff the directory name is not a UUID, and otherwise builds that path's entry. |
| SnapshotCaching.RemoveFirstSplit | changes_lxc_wrapper/snapshot_cache.py:86 | `list.remove` takes out exactly the first occurrence and keeps every other image, in order. |
| SnapshotCaching.RemoveFirstSize | changes_lxc_wrapper/snapshot_cache.py:77-86 | Removing an image lowers the sum of sizes by exactly that image's size. |
| SnapshotCaching.RemoveFirstContents | changes_lxc_wrapper/snapshot_cache.py:86 | The removal takes one copy of the image out of the multiset of images and nothing else. |
| SnapshotCaching.SnapshotCache.constructor | changes_lxc_wrapper/snapshot_cache.py:37-40 | A new cache has its root and no snapshots. |
| SnapshotCaching.SnapshotCache.Initialize | changes_lxc_wrapper/snapshot_cache.py:42-75 | A root that is a file raises. If some path is found, the service is asked once, and a failing `list_snapshots()` raises. An upstream id or a directory name that is not a UUID raises too. These are the only errors. After any of them `snapshots` is left as it was. Otherwise `snapshots` becomes the reconciled images of the collected paths, in order. Nothing is deleted. |
| SnapshotCaching.SnapshotCache.Remove | changes_lxc_wrapper/snapshot_cache.py:81-86 | An active image is refused and nothing changes. Otherwise the directory is deleted iff `on_disk`, before the list is touched. An image in the list is then removed, its first occurrence only, and `total_size` drops by exactly its size. An image not in the list raises with the list unchanged. |
| SnapshotCaching.ExampleCollected | tests/test_snapshot_cache.py:13-22 | The recorded test's cache tree gives both snapshot directories under `ubuntu/precise/i386`, in listing order. |
| SnapshotCaching.ExampleImages | tests/test_snapshot_cache.py:34-47 | Those two images have their UUIDs from the path and sizes 0 and 5, a total of 5. Removing the second leaves the first and a total of 0. |
| SnapshotCaching.NamedByUuid | tests/test_snapshot_cache.py:35-36 | A directory named by the written form of a UUID is read as that UUID. |
| SnapshotCaching.ExampleRun | tests/test_snapshot_cache.py:25-49 | The recorded test run on a cache object: `initialize` asks the service once. Removing the second image deletes its directory and leaves one image, the first, with a total size of 0. |
| Api.NewApi | changes_lxc_wrapper/api.py:15-16 | The stored base URL is the given one with its trailing slashes stripped, so it never ends in `/`. |
| Api.NewApiIdempotent | changes_lxc_wrapper/api.py:16 | Normalising a normalised base URL changes nothing. |
| Api.Request | changes_lxc_wrapper/api.py:18-47 | `request` makes at least one and at most `max_retries` attempts; with `max_retries <= 0` it makes none and gives `None`. Every attempt before the last was a retryable error, and the run stops at the first body, 404, 410 or other exception. A 404 re-raises, a 410 raises `BuildCancelled`, and a retryable error on the last allowed attempt re-raises. After `n` attempts, `n - 1` sleeps occurred. The URL is the base, one `/` and the path without its leading slashes. |
| Api.DelayAt | changes_lxc_wrapper/api.py:44 | The sleep after attempt `k` (counted from 0) is `(k + 1) ** 2` seconds. |
| Api.DelaysIncrease | changes_lxc_wrapper/api.py:40-47 | The delays strictly increase: 1, 4, 9, 16, and so on. |
| Api.OneLeadingSlash | changes_lxc_wrapper/api.py:22 | A path with exactly one leading slash is appended to the base URL as it is. |
| Api.EndpointUrls | changes_lxc_wrapper/api.py:49-62 | The job step, log append, snapshot image and snapshot list endpoints are the base URL followed by their fixed paths. |
| LogReporting.LastNewline | changes_lxc_wrapper/log_reporter.py:16 | `rfind('\n', 0, end)` finds nothing iff there is no newline before `end`. Otherwise it gives a newline position before `end` with no newline after it. |
| LogReporting.CutPoint | changes_lxc_wrapper/log_reporter.py:15-20 | One cut of the inner loop takes at least one character, at most the whole text and at most `chunk_size` characters. |
| LogReporting.CutShape | changes_lxc_wrapper/log_reporter.py:16-21 | If a newline is among the first `chunk_size` characters, the chunk ends just after the last such newline. Otherwise the chunk is exactly `chunk_size` characters without a newline. |
| LogReporting.CutIsInnerChunk | changes_lxc_wrapper/log_reporter.py:21 | A cut chunk is non-empty and at most `chunk_size` long. It ends in a newline, or is exactly `chunk_size` long without one. |
| LogReporting.FlushLines | changes_lxc_wrapper/log_reporter.py:15-22 | What the inner loop leaves held back contains no newline. |
| LogReporting.FlushLinesSpec | changes_lxc_wrapper/log_reporter.py:15-22 | The inner loop loses and reorders nothing: its chunks, followed by what it holds back, are the text. Every chunk is an inner-loop chunk. |
| LogReporting.DrainSpec | changes_lxc_wrapper/log_reporter.py:12-25 | The chunks of a drain, concatenated, are the held-back text followed by the popped fragments, in order. Each is an inner-loop chunk, except possibly the last. That last one is non-empty, holds no newline and has no length bound. |
| LogReporting.Flush | changes_lxc_wrapper/log_reporter.py:15-22 | The `while '\n' in result` loop yields exactly the inner-loop chunks and leaves exactly the held-back rest. |
| LogReporting.Chunked | changes_lxc_wrapper/log_reporter.py:7-25 | `chunked` yields chunks that, concatenated, equal the fragments concatenated: no text is lost, duplicated or reordered. Every chunk is well formed, and only the last may exceed `chunk_size`. |
| LogReporting.NothingLost | changes_lxc_wrapper/log_reporter.py:66-76 | Everything `process` ships, joined, is the buffered text followed, in order, by every fragment written until the wake-up in which `process` sees the close, including writes made after `close()` during that wait. |
| LogReporting.ChunksBounded | changes_lxc_wrapper/log_reporter.py:12-25 | Every chunk of a drain is non-empty, and one longer than 4096 holds no newline. |
| LogReporting.ShippedChunksBounded | changes_lxc_wrapper/log_reporter.py:66-76 | The same bound holds for every chunk `process` ships, across all its drains. |
| LogReporting.LogReporter.constructor | changes_lxc_wrapper/log_reporter.py:54-64 | A new reporter has an empty buffer, `done` clear and nothing sent. Its source is `'console'` unless one is given. |
| LogReporting.LogReporter.Write | changes_lxc_wrapper/log_reporter.py:78-81 | `write` appends one fragment at the back of the buffer and changes nothing else. |
| LogReporting.LogReporter.Close | changes_lxc_wrapper/log_reporter.py:83-86 | `close` sets `done` and changes nothing else; a second call changes nothing more. |
| LogReporting.LogReporter.Interleave | changes_lxc_wrapper/log_reporter.py:76 | The writes and closes of other threads during one wait append their fragments, in order, and set `done` iff a close occurred. |
| LogReporting.LogReporter.Ship | changes_lxc_wrapper/log_reporter.py:70-74 | One pass of `for chunk in chunked(self.buffer)` sends one `append_log` call per chunk of the buffer, in order, with this job step and source. It raises iff the call given as refused is among them; the calls before it have then been made and no later one is. The buffer is left empty either way. |
| LogReporting.LogReporter.Round | changes_lxc_wrapper/log_reporter.py:69-76 | One pass of the loop drains and ships the buffer, then waits while `done` is clear. A refused call ends the thread with exactly the calls before it sent. Otherwise what was sent, followed by what the buffer and the rest of the schedule will ship, is still everything `process` ships. Each pass moves on in the schedule or ends the loop. |
| LogReporting.LogReporter.Process | changes_lxc_wrapper/log_reporter.py:66-76 | `process` raises iff the `append_log` call given as refused is among the calls it makes. Then it has sent exactly the chunks before that one, and does not end normally. Otherwise it ends iff the schedule holds a close, and then with `done` set. It has then sent, in order, every chunk of the buffered text and of every fragment written until the wake-up in which `process` sees the close, including writes made after `close()` during that wait. The buffer is empty on return. |
| LogReporting.LogReporter.ProcessKeepingClose | changes_lxc_wrapper/log_reporter.py:66-76 | `process` without the `done.clear()` of line 68. A close made before it takes the lock is kept: the buffer is shipped once, up to a refused call if any, and the thread ends unless a call raised. Without an earlier close it behaves as `process`. |
| LogReporting.CloseFirstHangs | tests/test_log_reporter.py:12-21 | When `close()` takes the lock before the reporter thread, `process` as written clears `done`, and with no later close it never ends: `join()` would not return. |
| LogReporting.CloseFirstShips | tests/test_log_reporter.py:12-32 | With the close kept, the same race ends the thread, and `append_log` is called exactly with `'hello world\n'` and then `'foo bar'`, from `'console'`. |
| LogReporting.LineBufferingExample | tests/test_log_reporter.py:16-32 | The fragments `'hello '`, `'world\n'`, `'foo bar'`, drained together, give exactly the chunks `'hello world\n'` and `'foo bar'`. |
| LogReporting.LineBufferingCalls | tests/test_log_reporter.py:16-32 | When the three writes and the close all happen during the first wait, `append_log` is called exactly twice: with `'hello world\n'` and then `'foo bar'`, both for the job step and from `'console'`. |
| LogReporting.LineBufferingSplit | tests/test_log_reporter.py:12-21 | The test's outcome depends on the threads' timing. When the first wait ends after `'hello '` alone, three chunks are shipped, `'hello '`, `'world\n'` and `'foo bar'`, not the two the test expects. |
| Heartbeat.FirstStop | changes_lxc_wrapper/heartbeat.py:19-25 | This is the index of the first round that ends the loop: a `finished` status, a failing poll or a close during the wait. No earlier round ends it. |
| Heartbeat.RunMeaning | changes_lxc_wrapper/heartbeat.py:16-25 | `wait` polls once per round up to the first round that stops. It waits once after each non-terminal poll. The ending is decided by that stopping round alone. |
| Heartbeat.OnlyFinishedIsTerminal | changes_lxc_wrapper/heartbeat.py:21-25 | With no close and no failure, every status other than `finished` leads to a wait and another poll. |
| Heartbeat.RunStep | changes_lxc_wrapper/heartbeat.py:21-25 | A round that does not stop adds one poll and one wait to what follows. |
| Heartbeat.TwoPolls | tests/test_heartbeat.py:13-41 | An `in_progress` answer followed by `finished` gives exactly two polls and one wait. |
| Heartbeat.Heartbeater.constructor | changes_lxc_wrapper/heartbeat.py:5-14 | The interval is 5 unless one is given; nothing has been polled yet. |
| Heartbeat.Heartbeater.Close | changes_lxc_wrapper/heartbeat.py:27-30 | `close` sets `finished` and changes nothing else. |
| Heartbeat.Heartbeater.Wait | changes_lxc_wrapper/heartbeat.py:16-25 | `wait` clears `finished` on entry, so a close before the call still allows the first poll. Each poll is for this job step, and a wait of `interval` follows each non-terminal poll. `finished` is set on return unless a poll raised or the schedule ran out. |
| Containers.HomeDirInjective | changes_lxc_wrapper/container.py:33-34 | Different users get different home directories. |
| Containers.HomeDirEndsInUser | changes_lxc_wrapper/container.py:33-34 | The home directory's last component is the user's name, both for `root` and under `/home`. |
| Containers.ImagePathEndsInSnapshot | changes_lxc_wrapper/container.py:36-42 | The last component of `ubuntu/<release>/amd64/<snapshot>` is the snapshot id. |
| Containers.Rootfs | changes_lxc_wrapper/container.py:28-31 | The root filesystem holds no `:`. |
| Containers.RootfsCases | changes_lxc_wrapper/container.py:28-31 | A plain path is its own root filesystem, and `overlayfs:base:delta` gives the delta directory. |
| Containers.CommandEnvMeaning | changes_lxc_wrapper/container.py:123-134 | A command's environment has the seven fixed keys and the caller's keys. The caller's values win, and the fixed ones fill in the rest. |
| Containers.CommandMeaning | changes_lxc_wrapper/container.py:136-137 | A root command is unchanged; any other user's command is prefixed with `sudo -EHu <user>`. |
| Containers.SudoersNeverFails | changes_lxc_wrapper/container.py:156-167 | The sudoers file's calls are never checked, so `setup_sudoers` never fails an assertion. |
| Containers.DownloadArgsFlag | changes_lxc_wrapper/container.py:180-187 | `--no-validate` is passed to the `download` template iff validation is off. |
| Containers.UbuntuArgsFlag | changes_lxc_wrapper/container.py:200-205 | `--flush-cache` is passed to the `ubuntu` template iff it is asked for. |
| Containers.EnsureEffects | changes_lxc_wrapper/container.py:44-80 | `ensure_image_cached` only creates directories and syncs from the bucket. |
| Containers.FetchEffects | changes_lxc_wrapper/container.py:177-191 | The snapshot's own container is created from the `download` template iff it does not exist yet. The fetch clones nothing. |
| Containers.BaseChoices | changes_lxc_wrapper/container.py:176-209 | `launch` clones the snapshot iff it has one and is not asked for a clean container. It uses the `download` template iff, in addition, the snapshot has no container yet, and then with the `download` arguments. It uses the `ubuntu` template in exactly the other case. |
| Containers.BootStarts | changes_lxc_wrapper/container.py:211-225 | A boot that fails no assertion leaves the container running. |
| Containers.InstallChecked | changes_lxc_wrapper/container.py:151-154 | `assert install(pkgs) == 0` makes the same calls as `install`, and also fails when the install's own status is non-zero. |
| Containers.CreatedImageIsCached | changes_lxc_wrapper/container.py:237-266 | Once the files that `create_image` wrote exist, `ensure_image_cached` for that image finds all three files and makes no call. |
| Containers.SavedImageIsCached | changes_lxc_wrapper/container.py:252-264 | Once the config, the archive and the id file that the save wrote exist, all three files `ensure_image_cached` looks for are present. |
| Containers.DestroyEnds | changes_lxc_wrapper/container.py:268-280 | `destroy` never fails an assertion. A container that is not defined is left alone, and a defined one whose destroy call succeeds is gone and stopped. |
| Containers.Container.constructor | changes_lxc_wrapper/container.py:14-26 | The container keeps its settings. Its host name is the snapshot id, or a fresh id when there is no snapshot. Its flags are what lxc reports for the name. |
| Containers.Container.EnsureImageCached | changes_lxc_wrapper/container.py:44-80 | Nothing happens when the three files are cached. Otherwise the bucket is required, the directory is created if missing, and the sync's status is checked. |
| Containers.Container.UploadImage | changes_lxc_wrapper/container.py:82-97 | The bucket is required, and one sync from the cache to the bucket is made with its status checked. |
| Containers.Container.Run | changes_lxc_wrapper/container.py:111-149 | A container that is not running is refused with no call. Otherwise the command runs once with the constructed command, working directory and environment, and the exit status is returned, not raised. The container's state does not change. |
| Containers.Container.Install | changes_lxc_wrapper/container.py:151-154 | `apt-get update` is checked, then `apt-get install` runs and its status is returned. |
| Containers.Container.InstallAsserting | changes_lxc_wrapper/container.py:227-228 | This is the `ca-certificates` install of `launch`, whose status is asserted to be zero. |
| Containers.Container.SetupSudoers | changes_lxc_wrapper/container.py:156-167 | It writes the sudoers file, the same for every user, makes it read-only, and returns true. |
| Containers.Container.RunAsserting | changes_lxc_wrapper/container.py:108-109 | This is a run whose status is asserted to be zero. A container that is not running fails `run`'s own assertion. |
| Containers.Container.RunScript | changes_lxc_wrapper/container.py:99-109 | The host script must exist. It is copied under `/tmp/script-<id>` in the root filesystem, made executable and run, and both statuses are checked. |
| Containers.Container.CreateBase | changes_lxc_wrapper/container.py:176-209 | This makes the calls and fails the assertions of the three base branches of `launch`: clone, download and clone, or the `ubuntu` template. |
| Containers.Container.Boot | changes_lxc_wrapper/container.py:211-225 | It runs the pre-launch hook, configures, starts and waits for the network. When this does not fail, the container is running. |
| Containers.Container.PostLaunch | changes_lxc_wrapper/container.py:233-235 | The post-launch script runs as root iff one is given. |
| Containers.Container.Setup | changes_lxc_wrapper/container.py:227-235 | `ca-certificates` is installed and checked, then the sudoers file is written, then the post-launch script runs. Each step runs only if the ones before it did not fail. |
| Containers.Container.Ready | changes_lxc_wrapper/container.py:211-235 | The boot is followed by the setup in the running container, and the container is running when neither fails. |
| Containers.Container.Launch | changes_lxc_wrapper/container.py:169-235 | `launch` runs the base, then the boot, then the setup, stopping at the first failing assertion. It leaves the container running when none fails. |
| Containers.Container.CreateImage | changes_lxc_wrapper/container.py:237-266 | The container is stopped before anything is written. The config, the checked root filesystem archive and the snapshot id are then saved under the snapshot id, or a fresh id. That id is returned. |
| Containers.Container.Destroy | changes_lxc_wrapper/container.py:268-280 | A container that is not defined is left alone. A running one is stopped and waited for before it is destroyed. |
| Wrapper.DropSeparatorMeaning | changes_lxc_wrapper/cli/wrapper.py:86-89 | Only the first `--` is removed from the command; the rest is kept in order, any later `--` included. |
| Wrapper.JobStepParams | changes_lxc_wrapper/cli/wrapper.py:114-134 | A finished job step is refused. One with an expected snapshot gives that snapshot, saved, from a clean container. Otherwise it takes the step's snapshot or none, neither saved nor clean. The release is the step's, or `precise` when that is empty. Job step parameters always keep the snapshot rule. |
| Wrapper.RemoteRunParams | tests/cli/test_wrapper.py:13-19 | The recorded remote run, a queued step with no release and the snapshot `a1028849e8cf4ff0a7d7fdfe3c4fe925`, runs from the snapshot `a1028849-e8cf-4ff0-a7d7-fdfe3c4fe925` on `precise`, neither saved nor clean, as the test expects at line 73. |
| Wrapper.ExampleIdParsed | tests/cli/test_wrapper.py:17 | `str(UUID('a1028849e8cf4ff0a7d7fdfe3c4fe925'))` is `'a1028849-e8cf-4ff0-a7d7-fdfe3c4fe925'`. |
| Wrapper.LocalRuleCanFail | changes_lxc_wrapper/cli/wrapper.py:136-143 | On the command line the snapshot rule can be broken. |
| Wrapper.Prepare | changes_lxc_wrapper/cli/wrapper.py:93-143 | A job step without an API is refused, and so is a finished one. Otherwise the job step's parameters are used. Without a job step, the command line's parameters are used iff they keep the snapshot rule. Resolved parameters always keep it. |
| Wrapper.ExpectedSnapshotSaved | changes_lxc_wrapper/cli/wrapper.py:123-172 | A job step that expects a snapshot has its image created, uploaded and marked active under the expected id, in written form, whatever fresh id is drawn. |
| Wrapper.CommandsMeaning | changes_lxc_wrapper/cli/wrapper.py:159-166 | The command, the script and `changes-client` each run iff asked for, and nothing else runs between the launch and the image. |
| Wrapper.SavingMeaning | changes_lxc_wrapper/cli/wrapper.py:167-172 | The image is created, uploaded and marked active under its name iff a snapshot is saved. |
| Wrapper.LaunchFirst | changes_lxc_wrapper/cli/wrapper.py:156-166 | The launch comes first and only once. The command and `changes-client` each run iff asked for. |
| Wrapper.SavedLast | changes_lxc_wrapper/cli/wrapper.py:167-172 | When saving, the last three operations create the image, upload it and mark it active. No upload or image update happens otherwise. |
| Wrapper.FailingMeaning | changes_lxc_wrapper/cli/wrapper.py:173-181 | On a job step, `finished/failed` is reported iff the run failed, and the image is marked failed iff one was being saved. |
| Wrapper.FinallyMeaning | changes_lxc_wrapper/cli/wrapper.py:182-195 | The job step is marked finished, and the container is destroyed iff it is not kept. The reporter, when started, is closed, last. |
| Wrapper.ClosingMeaning | changes_lxc_wrapper/cli/wrapper.py:173-195 | On a job step the run's failure, and the image's when one was being saved, is reported iff the run failed; the step is marked finished; the container is destroyed iff it is not kept; and a started reporter is closed as the last event. |
| Wrapper.ClosingInOrder | changes_lxc_wrapper/cli/wrapper.py:173-195 | The closing events come in the source's order (failed step, failed image, finished step, destroy or keep, reporter closed), and each appears at most once. |
| Wrapper.FailingRising | changes_lxc_wrapper/cli/wrapper.py:173-181 | The `except` block reports the failed step before the failed image. |
| Wrapper.FinallyRising | changes_lxc_wrapper/cli/wrapper.py:182-195 | The `finally` block marks the step finished, then destroys or keeps the container, then closes the reporter. |
| Wrapper.Operate | changes_lxc_wrapper/cli/wrapper.py:152-172 | The operations begun are a non-empty prefix of the planned order: launch, command, script, `changes-client`, then the image steps. Each one before the last raised nothing. The last one raised exactly what its container call's failing assertion gives, or nothing. All of them are begun when none raises. |
| Wrapper.Continue | changes_lxc_wrapper/cli/wrapper.py:159-166 | An operation is begun iff none before it raised. If one had raised, the operations and the fault are unchanged. Otherwise the operation is added, and the fault is exactly what it raises. The operations begun stay a prefix of those planned. |
| Wrapper.SaveImage | changes_lxc_wrapper/cli/wrapper.py:167-172 | If an earlier operation raised, nothing more is begun and the fault is kept. Otherwise the image is created, uploaded and marked active, stopping at the first step that raises. The fault is exactly what that step raises: a failing create or upload assertion, or the missing API when marking it active. |
| Wrapper.Launched | changes_lxc_wrapper/cli/wrapper.py:152-166 | The launch and then each command asked for are begun in order. The run stops at the first that raises, with that fault. When none raises, all are begun and the container is running. |
| Wrapper.ContinueIf | changes_lxc_wrapper/cli/wrapper.py:159-166 | An operation that is not asked for leaves the operations and the fault as they were. One that is asked for is begun as `Continue` says. |
| Wrapper.Attempt | changes_lxc_wrapper/cli/wrapper.py:156-166 | The launch, a command, the script or `changes-client` raises exactly the failing assertion of its container call, or nothing. A successful launch leaves the container running, and no other operation changes whether it runs. |
| Wrapper.Save | changes_lxc_wrapper/cli/wrapper.py:167-172 | Create, upload and mark active are begun in order up to the first that raises: one, two or all three steps. The fault is exactly what the last one begun raises. |
| Wrapper.Create | changes_lxc_wrapper/cli/wrapper.py:168 | `create_image` raises exactly the failing assertion of its plan. |
| Wrapper.Publish | changes_lxc_wrapper/cli/wrapper.py:170-172 | The upload is begun. Marking the image active follows iff the upload raised nothing, and it raises only when there is no API. |
| Wrapper.CommandsNeverRaise | changes_lxc_wrapper/cli/wrapper.py:159-172 | A run that raised stopped at the launch, the script, or an image step. A command and `changes-client` never raise in the running container, since their exit status is not checked. |
| Wrapper.RunWith | changes_lxc_wrapper/cli/wrapper.py:145-195 | A run on resolved parameters gives the opening events, then the operations up to the first that raises, then the closing events. What it raises is exactly that fault. The launch comes first. A job step gets its final `finished` update, and a started reporter is closed last. |
| Wrapper.Finish | changes_lxc_wrapper/cli/wrapper.py:173-195 | The `except` and `finally` blocks emit exactly the closing events, destroying the container unless it is kept. |
| Wrapper.Run | changes_lxc_wrapper/cli/wrapper.py:82-195 | A refused run ends with the reporter, if started, closed. Otherwise the run gives the opening events, the `in_progress` update, the operations up to the first that raises, then the closing events. What is raised is exactly the fault of that operation. A job step always gets its final `finished` update. When reporting, the reporter starts first and is closed last. |
| Wrapper.RunAsWritten | changes_lxc_wrapper/cli/wrapper.py:145-150 | As written, every run raises and no container is launched. On a job step, the started reporter is never closed. |
| Wrapper.WrappedOutput.constructor | changes_lxc_wrapper/cli/wrapper.py:22-24 | The wrapper keeps its stream and its reporter. |
| Wrapper.WrappedOutput.Write | changes_lxc_wrapper/cli/wrapper.py:26-28 | Each chunk goes to the stream and to the reporter's buffer, and nothing is sent yet. |
| Wrapper.PatchSystemLogging | changes_lxc_wrapper/cli/wrapper.py:78-80 | Standard output and error become two distinct wrappers around the one reporter. |
| Wrapper.WriteBoth | changes_lxc_wrapper/cli/wrapper.py:78-80 | A write to standard output and then one to standard error reach the shared reporter in that order, and each stream keeps its own. |
| Manager.Run | changes_lxc_wrapper/cli/manager.py:43-60 | A missing cache path lists nothing. A cache path that is a file raises. Otherwise `run` builds one record per collected directory, in order, with the text after its last `/` and its directory size. |
| Manager.ListedIfReached | changes_lxc_wrapper/cli/manager.py:48-59 | Every directory four levels below the cache path has its record. |
| Manager.ReachedIfListed | changes_lxc_wrapper/cli/manager.py:48-59 | Every record is that of a directory four levels below the cache path. |
| Manager.CollectedNames | changes_lxc_wrapper/cli/manager.py:77-88 | When no entry name holds a `/`, every collected path ends in its directory's name. |
| Manager.ListedIds | changes_lxc_wrapper/cli/manager.py:51-59 | With plain names, each record's id is the directory's name, its path is the collected path and its size is the size of the files below it. |
| Manager.AgreesWithCache | changes_lxc_wrapper/cli/manager.py:51-59 | The manager's records and the snapshot cache's images of the same collected directories agree on path and size. The manager's id is the directory's name, which the cache reads as the image's UUID. |

## Left out

- The threads, locks, condition variables and `Event`s are left out; explicit schedules replace them. `LogReporter.process` sees one batch of writes and closes at each wait, and `Heartbeater.wait` sees one tick per round.
- The `cv.wait` timeouts are only recorded. Real time, `time()` and the printed durations are not modelled.
- The network is left out. `urlopen`, JSON decoding and `urlencode` of the request data are replaced by an oracle of attempt outcomes.
- The failures of the API calls that the core makes are parameters. For `append_log` in `LogReporter.process`, the parameter is the position of the call that raises, `refusedAt`. For `api.list_snapshots()` in `SnapshotCache.initialize`, it is a `Result`: an error there is the `ListingFailed` outcome.
- LogReporting.LogReporter.Process: after a refused call the model states the buffer empty. In the source, `chunked` is a generator that has popped only the fragments up to the chunk being shipped, so later fragments stay in the deque. Nothing reads them once the thread has ended. `LogReporter.Ship` states the same.
- lxc, `subprocess`, `aws s3 sync`, `tar`, `chmod`, `apt-get`, file writes and `shutil.rmtree` are left out. They are calls recorded in a log, and their statuses come from the `Runtime`.
- The file writes and copies of the container driver (`open(...).write` in `setup_sudoers` and `create_image`, `shutil.copy` in `run_script`) are steps whose result is not checked. Their raising, on a full disk or a missing directory, is not modelled.
- Wrapper.Attempt: after the launch, whether the container runs changes only through the container's own calls. A user command that stops the container, so that a later `run` fails `assert self.running`, is not modelled.
- `os.path.isfile(script)` in `run_script` is modelled as the script's path being among the host paths. A directory at that path is not told apart from a file.
- Containers.Container.constructor: the root filesystem item of lxc is a fixed value given when the container is built; re-reading it after `load_config` is not modelled.
- `os.walk`, `os.listdir`, `getsize` and `os.path.exists` are read from a tree value. The tree does not change while it is walked, and the listing order is the tree's order.
- `os.path.join` is modelled only for names without a leading `/`, which is all that `os.listdir` gives.
- `uuid.UUID` is modelled for text arguments, as the core calls it. Its `bytes`, `fields` and `int` forms are not used by the core and are not modelled.
- Uuids.ParseMeaning: the model accepts exactly 32 hexadecimal digits. Python's own check, `int(hex, 16)` on 32 characters, also accepts a sign, a `0x` prefix or surrounding spaces within those 32 characters, and some versions accept underscores. The model refuses those lenient forms. Its `int()` message quotes the 32 characters as they are, where Python's `repr` would also escape quotes, backslashes and non-printable characters.
- `convert_date` is not modelled: `datetime.strptime` dates are kept as their text, so a date that does not parse does not raise.
- `args.snapshot`, which argparse reads with `type=UUID`, is taken as the text given on the command line.
- `uuid4()` draws are passed in as the `Fresh` ids.
- argparse is modelled only as the parsed `Args` record. `configure_logging`, Sentry, the logging calls and every `print` are left out.
- The `except` block's `raise e` is modelled as the `Raised` outcome. `reporter_thread.join()` is modelled as the reporter being closed.
- In the wrapper, the API calls (`update_jobstep`, `update_snapshot_image`) are events that do not fail, except `update_snapshot_image` on a missing API.
- Wrapper.Run: a failing API call inside the `try` or `finally` blocks is not modelled.
- Wrapper.Operate: it states the order and prefix of the operations and what each one raised. The calls each one makes are stated by the `Containers.Container` method it calls, not repeated here.
- Wrapper.Finish: it states the closing events it returns. The container's new state after `destroy` is stated by `Containers.Container.Destroy`, not repeated here.
- `SnapshotCaching.SnapshotCache.Remove` compares images by value; Python's `list.remove` on objects without `__eq__` compares by identity. Two images with equal fields are not distinguished.
- The eviction policy in the manager's docstring has no code and is not modelled. The manager's printing of its list is left out.
- `Heartbeater` is not used by the wrapper and is modelled alone.
- `cli/helper.py` and `setup.py` are not part of this model.

Behaviour of the source that the model keeps as it is:

- `run` uses `/` as the working directory whenever one is given.
- The sudoers text does not depend on the user.
- The archive that `create_image` makes uses the raw `lxc.rootfs` item.
- The container's host name and the image id of `create_image` are drawn from separate `uuid4()` calls when there is no snapshot.
- The wrapper ignores a command's exit status.
- A local run with `--save-snapshot` and no API raises `AttributeError` when it marks the image active.

## Findings

| source | as written | input that shows it | evidently intended | confidence | as-written member | corrected member |
|---|---|---|---|---|---|---|
| changes_lxc_wrapper/cli/wrapper.py:145-150 | `Container(...)` is called without `name`, which `Container.__init__` requires (changes_lxc_wrapper/container.py:14), so every run that passes the checks raises `TypeError` before the `try` block | any arguments that pass the checks, e.g. no job step and no snapshot | the container is given a name and launched | not executed | Wrapper.RunAsWritten | Wrapper.Run |
| changes_lxc_wrapper/cli/wrapper.py:102-150 | an abort after the reporter thread starts happens outside the `try`/`finally`, so `reporter.close()` is never called and the non-daemon thread keeps the process alive. Such aborts are a failing `get_jobstep`, the finished-job assertion, the snapshot rule or the `TypeError` above | `--jobstep-id J --api-url U` where the job step's status is `finished` | the reporter, once started, is closed on every path | not executed | Wrapper.RunAsWritten | Wrapper.Run |
| changes_lxc_wrapper/log_reporter.py:67-68 | `process` clears `done` when it takes the lock. A `close()` made before that is lost, and the thread waits for another close that never comes, so `join()` blocks | the recorded test at tests/test_log_reporter.py:12-21 when the main thread's writes and `close()` take the lock before the reporter thread does | a close made before `process` starts still ends it, after the buffer is shipped | not executed | LogReporting.CloseFirstHangs | LogReporting.LogReporter.ProcessKeepingClose |
