# hifi_vcpkg in Dafny

This project models `VcpkgRepo`, the build-time vcpkg manager of `hifi_vcpkg.py`, and proves properties of the model. `VcpkgRepo` does the following:
- it derives an installation identity from the hash of a set of custom ports and the build type;
- it decides whether an existing installation is still fresh;
- it bootstraps the vcpkg tool, cleaning and fetching as needed, and installs the custom ports;
- it installs the host tools and the client libraries, plus, for Android, a catalogue of prebuilt archives;
- it derives build-type triplet files;
- it strips the target-triplet line from vcpkg's toolchain script;
- it writes a CMake configuration fragment for the outer build.

The model is split into five files:
- `wrappers.dfy`: `Option`.
- `filesystem.dfy`: the abstract filesystem. A path maps to a file with its text, a directory or a symbolic link. It provides `os.path.join`, `isfile`/`isdir`/`islink`, `shutil.rmtree`, `shutil.copytree` and writing a file.
- `text.dfy`: the string operations of the source:
  - `str.split`;
  - iterating over the lines of a file, each line keeping its `'\n'`;
  - `startswith`/`endswith`;
  - `str.replace` of one character.
- `pyformat.dfy`: Python's `str.format` for positional fields (`{}`, `{n}`, `{{`, `}}`). A lone brace, mixed numbering or an argument that is not there is an error. Fields with a conversion, a format specification or an index (`{!r}`, `{0:>5}`, `{0[1]}`) are outside the model and are treated as errors.
- `vcpkg.dfy`: the manager itself.
  - `Config` holds what `__init__` computes.
  - The class `VcpkgRepo` holds the state the source changes: `fs` (the filesystem), `buildEnv` (the environment of the install commands) and `trace` (the calls into foreign code, in order).

Every operation that changes state has a specification function `...Step(cfg, fs)` that returns a `Step`. A `Step` records three things:
- whether the operation succeeded (`false` where Python raises an exception);
- the new filesystem;
- the events it appends to the trace.

The class methods follow the source statement by statement. Each method is proved to do exactly what its step function says, through the two-state predicate `Did` or the same clauses written out. The lemmas then state what the source promises about the step functions.

The foreign helpers are modelled as follows:
- `hifi_utils.executeSubprocess` and `hifi_utils.downloadAndExtract` are trace events. What they write is given by two configuration functions, `runEffect` and `unpack`.
- `hifi_utils.hashFolder` is the constructor input `portsHash`.
- `hifi_android.getPlatformPackages` is the input sequence `androidPackages`, in dictionary order.
- `platform.system()`/`machine()` is the input `host`.
- `os.environ` is the input map `env`.
- `~` is the input `home`.

Two places where the source is easy to misread:
- `bootstrap` tests `prebuiltArchive is not None`, but `setupDependencies` tests the truthiness of the list. The two tests differ only on an empty list, which the source never builds: `str.split(';')` never returns one, and line 89 keeps `prebuiltArchive` at `None`. `BootstrapWithPrebuiltArchive` and `PrebuiltMode` model each test as written.
- The triplet written into the configuration is the host triplet, even on Android (line 349).

## Model

| member | source | states |
|---|---|---|
| FileSystem.Join | hifi_vcpkg.py:43 | the joined path is the first part, one separator, then the second part (the form `os.path.join` takes for a first part without a trailing separator) |
| FileSystem.PyJoin | hifi_vcpkg.py:43 | `os.path.join` for a relative second part and a first part that is not a bare Windows drive: no separator after an empty first part or one ending in a separator, and otherwise exactly `Join` |
| FileSystem.JoinDoublesTrailingSeparator | hifi_vcpkg.py:43 | the admitted gap: for a root with a trailing separator Python's join equals `Join` on the root without it, while `Join` gives a different path with a doubled separator |
| FileSystem.RemoveTree | hifi_vcpkg.py:166-170 | exactly the paths at or under the root are gone; every other entry is kept unchanged |
| FileSystem.CopyTree | hifi_vcpkg.py:163 | fails exactly when the source is not a directory or the destination exists; otherwise everything outside the destination is unchanged, every source entry reappears rebased under it, and into an empty destination the copy mirrors the source exactly |
| FileSystem.WriteFile | hifi_vcpkg.py:130-132 | fails exactly on a directory; otherwise the path is a file holding the text and every other path is unchanged |
| Text.Split | hifi_vcpkg.py:96 | at least one piece, no piece holds the separator, and joining the pieces with the separator gives back the text |
| Text.SplitJoinWith | hifi_vcpkg.py:96 | splitting a join of separator-free pieces gives back the pieces (the other half of the round trip) |
| Text.Lines | hifi_vcpkg.py:324 | concatenating the lines of a text gives back the text |
| Text.LinesAreLineList | hifi_vcpkg.py:324 | the lines are non-empty and every line but the last ends with its only `'\n'` |
| Text.LinesOfLineList | hifi_vcpkg.py:324 | such a line list is recovered from its concatenation (round trip) |
| Text.LinesAppendLine | hifi_vcpkg.py:228-229 | appending one line to text made of whole lines adds exactly that line |
| Text.DropPrefixed | hifi_vcpkg.py:324-328 | no kept line starts with the prefix, and there are at most as many lines as before |
| Text.DropPrefixedSubMultiset | hifi_vcpkg.py:324-328 | no line is added: the kept lines are a sub-multiset of the input lines |
| Text.DropPrefixedCounts | hifi_vcpkg.py:324-328 | every line not starting with the prefix is kept as often as it occurs; lines with the prefix occur zero times |
| Text.DropPrefixedUnchanged | hifi_vcpkg.py:330-333 | the filter returns its input exactly when no line starts with the prefix (both directions) |
| Text.ReplaceChar | hifi_vcpkg.py:349 | same length; each character is replaced when it is the one searched for, and kept otherwise |
| Text.ReplaceCharRemoves | hifi_vcpkg.py:349 | after the replacement the replaced character no longer occurs |
| PyFormat.ParseRenderRoundTrip | hifi_vcpkg.py:349 | a rendered format string parses back to its pieces |
| PyFormat.FillAutoTemplate | hifi_vcpkg.py:349 | filling a `{}` template puts the arguments, in order, between the literal segments; extra arguments are ignored |
| PyFormat.FormatAutoTemplateThenText | hifi_vcpkg.py:349 | a `{}` template followed by brace-free text formats to the segments and arguments interleaved, then that text |
| PyFormat.FormatFailsAfter | hifi_vcpkg.py:349 | text that does not parse makes the whole format call raise, whatever comes before it |
| HifiVcpkg.ShortHash | hifi_vcpkg.py:40 | `hash[:8]`: the first eight characters, or all of a shorter hash |
| HifiVcpkg.Identity | hifi_vcpkg.py:39-42 | the short hash, then `-<build type>` exactly when the build type is non-empty |
| HifiVcpkg.IdentitySeparatesBuildTypes | hifi_vcpkg.py:39-42 | two build types of the same ports never share an identity |
| HifiVcpkg.IdentityTracksHash | hifi_vcpkg.py:39-42 | the identity changes exactly when the first eight hash characters change (both directions) |
| HifiVcpkg.TagTextInjective | hifi_vcpkg.py:84-85 | the tag `<id>_1` determines the identity |
| HifiVcpkg.Location | hifi_vcpkg.py:55-71 | `HIFI_VCPKG_PATH`, then the vcpkg-root argument, are used as is and set noClean (exactly those two cases); otherwise the root is the base directory joined with the identity |
| HifiVcpkg.LocationsKeyedByIdentity | hifi_vcpkg.py:61-71 | managed installations of different identities live in different directories |
| HifiVcpkg.VarPathInjective | hifi_vcpkg.py:126-132 | different variable names use different `_env/<name>.txt` files |
| HifiVcpkg.Configure | hifi_vcpkg.py:34-124 | the identity, path and noClean flag; the tag `<id>_1`; the triplet (`arm64-android` or the host's); the client URLs are the variable file's text split at `;` (and rejoin to it); the Android precompiled path from the environment or `<root>/android` |
| HifiVcpkg.VcpkgRepo.constructor | hifi_vcpkg.py:34-124 | the configuration is `Configure` of the inputs and the host's client-URL file; the build environment is the process environment; the trace starts empty |
| HifiVcpkg.ReadVar | hifi_vcpkg.py:126-128 | present exactly when the variable file is a file, and then its text |
| HifiVcpkg.UpToDateExactly | hifi_vcpkg.py:134-153 | noClean means up to date; otherwise up to date exactly when force-build is off, the executable and tag are files, and the tag holds exactly the tag contents |
| HifiVcpkg.StaleTagMeansOutOfDate | hifi_vcpkg.py:148-152 | a tag written for any other identity makes the installation out of date |
| HifiVcpkg.TripletWithBuildType | hifi_vcpkg.py:231-234 | the triplet unchanged for an empty build type, otherwise the triplet, `-`, then the build type |
| HifiVcpkg.DerivedTripletIsNew | hifi_vcpkg.py:231-234 | with a build type the derived name differs from its base |
| HifiVcpkg.DerivedTripletInjective | hifi_vcpkg.py:231-234 | different base triplets derive different names |
| HifiVcpkg.TripletFileInjective | hifi_vcpkg.py:225-226 | different triplets use different `triplets/<t>.cmake` files |
| HifiVcpkg.DirectiveIsOneLine | hifi_vcpkg.py:229 | the build-type directive is one non-empty line whose only `'\n'` is its last character |
| HifiVcpkg.DirectiveIsOneMoreLine | hifi_vcpkg.py:228-229 | appending the build-type directive to a file of whole lines adds exactly one line |
| HifiVcpkg.WriteStep | hifi_vcpkg.py:350-351 | writing fails exactly on a directory; otherwise the file holds exactly the text and nothing else changes; no foreign call |
| HifiVcpkg.CleanStep | hifi_vcpkg.py:166-170 | always succeeds and records the call; an existing root is wiped entirely; nothing outside the root changes |
| HifiVcpkg.CleanForcesDownload | hifi_vcpkg.py:181-189 | after cleaning an existing root the executable is missing, so a fetch is needed |
| HifiVcpkg.CopyEnvStep | hifi_vcpkg.py:155-163 | records the call; nothing outside `<root>/_env` changes; when the two directories are disjoint it succeeds exactly when `<build root>/_env` is a directory and `<root>/_env` is absent or a directory, and then `<root>/_env` mirrors `<build root>/_env` |
| HifiVcpkg.FetchStep | hifi_vcpkg.py:197-205 | with `HIFI_VCPKG_BOOTSTRAP` set: `git clone` of the vcpkg repository, then the bootstrap script in the root with the bootstrap environment; otherwise one download of the client URLs into the root |
| HifiVcpkg.Prepared | hifi_vcpkg.py:181-205 | starts with `clean`; fetches exactly when the cleaned installation needs it |
| HifiVcpkg.ReplacePortsStep | hifi_vcpkg.py:207-213 | no foreign call; succeeds exactly when the custom ports are a directory and `ports` is absent, a link, or a directory not holding them; nothing outside `ports` changes; on success, when the custom ports lie apart from `ports`, `ports` mirrors them |
| HifiVcpkg.BootstrapWhenUpToDate | hifi_vcpkg.py:174-176 | an up-to-date bootstrap only calls `copyEnv` and changes nothing outside `_env` |
| HifiVcpkg.BootstrapWithPrebuiltArchive | hifi_vcpkg.py:178-179 | an out-of-date bootstrap with a prebuilt archive set does nothing |
| HifiVcpkg.NoCleanNeverCleans | hifi_vcpkg.py:136-137 | with noClean, the installation is up to date, `bootstrap` never calls `clean`, and `writeTag` and `cleanBuilds` change nothing |
| HifiVcpkg.BootstrapFetchesExactlyWhenNeeded | hifi_vcpkg.py:181-197 | a real bootstrap starts with `clean` and fetches the tool exactly when a fetch is forced or the executable or `.vcpkg-root` is missing after the clean (both directions) |
| HifiVcpkg.BootstrapEvents | hifi_vcpkg.py:173-214 | a real bootstrap's events are those of clean-and-fetch, then `copyEnv` exactly when replacing the ports succeeded |
| HifiVcpkg.BootstrapInstallsPorts | hifi_vcpkg.py:207-214 | after a successful real bootstrap, `ports` is exactly the custom ports tree; the later `copyEnv` does not disturb it |
| HifiVcpkg.RunStep | hifi_vcpkg.py:216-221 | one subprocess: the executable, `--vcpkg-root`, the root, then exactly the commands, run in the root with the build environment |
| HifiVcpkg.CopyTripletStep | hifi_vcpkg.py:223-229 | succeeds exactly when there is a build type, the source triplet is a file and the target is not a directory; the target then holds the source text plus `set(VCPKG_BUILD_TYPE <type>)\n`; nothing else changes |
| HifiVcpkg.CopyTripletKeepsSource | hifi_vcpkg.py:225-227 | the derived copy never overwrites its source triplet |
| HifiVcpkg.SetupEnv | hifi_vcpkg.py:244-245 | outside prebuilt mode a given Qt path is stored under `QT_CMAKE_PREFIX_PATH`; every other variable is kept |
| HifiVcpkg.InstallStepExecs | hifi_vcpkg.py:254-256 | a successful install runs exactly one tool command: `install --triplet <derived triplet> <port>` |
| HifiVcpkg.SetupInstallOrder | hifi_vcpkg.py:249-263 | a successful non-prebuilt setup runs exactly the host-tools install on the derived host triplet, then the client-deps install on the derived target triplet unless on Android; the Android step runs no subprocess |
| HifiVcpkg.PrebuiltSetupIdempotent | hifi_vcpkg.py:237-242 | once a prebuilt setup succeeded, running it again does nothing |
| HifiVcpkg.PackageStep | hifi_vcpkg.py:292-300 | skipped (nothing changes) when the package directory exists; otherwise one download into it, zip flag from the file name, with the package's checksum |
| HifiVcpkg.PackagesAreVerified | hifi_vcpkg.py:292-300 | every download of the package loop carries a checksum and goes to one package's directory with that package's checksum |
| HifiVcpkg.PackagesSucceed | hifi_vcpkg.py:292-300 | nothing in the package loop fails; downloads are not modelled as failing |
| HifiVcpkg.PackagesAllPresent | hifi_vcpkg.py:294-296 | when every package directory exists the loop does nothing |
| HifiVcpkg.AndroidTreeStep | hifi_vcpkg.py:282-288 | it causes only downloads: none when `installed/arm64-android` exists, otherwise one from the URL variable file (and it fails when that file cannot be read) |
| HifiVcpkg.AndroidStepOnlyDownloads | hifi_vcpkg.py:280-300 | the Android dependencies run no subprocess |
| HifiVcpkg.CleanBuildsStep | hifi_vcpkg.py:265-272 | nothing changes with noClean; otherwise an existing build-trees directory is wiped; nothing outside it changes |
| HifiVcpkg.WriteTagStep | hifi_vcpkg.py:302-309 | nothing with noClean; otherwise fails exactly when the root exists as a non-directory or the tag path is a directory; on success the root is a directory, the tag holds the tag contents, and only those two paths changed |
| HifiVcpkg.WriteTagMakesUpToDate | hifi_vcpkg.py:302-309 | after writing the tag, with the executable present and no forced build, the installation is up to date |
| HifiVcpkg.WritePrebuildTagStep | hifi_vcpkg.py:311-314 | fails exactly when `.prebuild` is a directory; otherwise it holds the tag contents and only it changed |
| HifiVcpkg.FixedScriptLines | hifi_vcpkg.py:322-328 | the lines of the fixed script are exactly the original lines not starting with `set(VCPKG_TARGET_TRIPLET `, in order |
| HifiVcpkg.FixedScriptCounts | hifi_vcpkg.py:324-328 | each kept line occurs as often as before; no line setting the triplet remains |
| HifiVcpkg.FixedScriptUnchanged | hifi_vcpkg.py:330-333 | a script without such a line is its own fix-up |
| HifiVcpkg.FixupStep | hifi_vcpkg.py:316-333 | succeeds exactly when the script is a file and `.new` is not a directory; then `.new` is gone, the script holds the fixed text and is untouched when no line was dropped; nothing else changes |
| HifiVcpkg.FixupOutcome | hifi_vcpkg.py:322-333 | the temporary copy is moved over the script exactly when a line was dropped, and removed otherwise |
| HifiVcpkg.LiteralsPlain | hifi_vcpkg.py:18-32 | the template text and the guard block hold no brace and no backslash |
| HifiVcpkg.AndroidLineFormats | hifi_vcpkg.py:346 | formatting the Android line template gives `set(HIFI_ANDROID_PRECOMPILED "<path>")\n` |
| HifiVcpkg.ConfigTemplateFills | hifi_vcpkg.py:349 | formatting the template with the five values interleaves them with its literal segments |
| HifiVcpkg.ConfigTextLayout | hifi_vcpkg.py:336-349 | the fragment is the template text with the toolchain script twice, `installed/<derived target triplet>`, `installed/<derived host triplet>/tools` and the derived host triplet, each slashed, then the Android line or the guard block |
| HifiVcpkg.ConfigTextHasNoBackslash | hifi_vcpkg.py:349 | the fragment holds no backslash |
| HifiVcpkg.AsWrittenAgreesWithoutBraces | hifi_vcpkg.py:343-349 | without braces in the precompiled path (and always off Android) the source's double formatting gives the intended text |
| HifiVcpkg.AsWrittenRejectsBrace | hifi_vcpkg.py:344-349 | a precompiled path with a lone `}` makes the source's second format raise |
| HifiVcpkg.WriteConfigStep | hifi_vcpkg.py:336-351 | fails exactly when `<build root>/vcpkg.cmake` is a directory; otherwise that file holds exactly `ConfigText` and nothing else changes |
| HifiVcpkg.WriteVarStep | hifi_vcpkg.py:130-132 | fails exactly when the variable file is a directory; afterwards `readVar` of that name gives the value and every other variable reads as before |
| HifiVcpkg.PrebuiltAsWrittenNeverExtracts | hifi_vcpkg.py:237-240 | as written, prebuilt setup without its tag raises before extracting: no event, no change |
| HifiVcpkg.PrebuiltSetupExtractsOnce | hifi_vcpkg.py:237-242 | as intended, prebuilt setup without its tag downloads the archive into the root once and writes the tag contents to `.prebuild` |
| HifiVcpkg.VcpkgRepo.Execute | hifi_vcpkg.py:221 | the subprocess event is appended and its effect merged into the filesystem |
| HifiVcpkg.VcpkgRepo.DownloadAndExtract | hifi_vcpkg.py:205 | the download event is appended and the extracted entries merged into the filesystem |
| HifiVcpkg.VcpkgRepo.WriteVar | hifi_vcpkg.py:130-132 | does exactly `WriteVarStep` |
| HifiVcpkg.VcpkgRepo.Clean | hifi_vcpkg.py:166-170 | does exactly `CleanStep` |
| HifiVcpkg.VcpkgRepo.CopyEnv | hifi_vcpkg.py:155-163 | does exactly `CopyEnvStep` |
| HifiVcpkg.VcpkgRepo.Bootstrap | hifi_vcpkg.py:173-214 | does exactly `BootstrapStep` |
| HifiVcpkg.VcpkgRepo.Prepare | hifi_vcpkg.py:181-205 | does exactly `Prepared`: clean, then fetch exactly when the tool is missing or a bootstrap is forced |
| HifiVcpkg.VcpkgRepo.FetchVcpkg | hifi_vcpkg.py:197-205 | does exactly `FetchStep` |
| HifiVcpkg.VcpkgRepo.ReplacePorts | hifi_vcpkg.py:207-213 | does exactly `ReplacePortsStep` |
| HifiVcpkg.VcpkgRepo.Run | hifi_vcpkg.py:216-221 | does exactly `RunStep` |
| HifiVcpkg.VcpkgRepo.CopyTripletForBuildType | hifi_vcpkg.py:223-229 | copy then append, as `CopyTripletStep` states |
| HifiVcpkg.VcpkgRepo.SetupDependencies | hifi_vcpkg.py:236-263 | does exactly `SetupStep`, and leaves the build environment as `SetupEnv` says |
| HifiVcpkg.VcpkgRepo.SetupPrebuilt | hifi_vcpkg.py:237-242 | does exactly `PrebuiltSetupStep` |
| HifiVcpkg.VcpkgRepo.InstallAll | hifi_vcpkg.py:249-263 | does exactly `InstallAllStep` |
| HifiVcpkg.VcpkgRepo.InstallAndroid | hifi_vcpkg.py:249-256 | the Android dependencies, then the host-tools install, composed as steps |
| HifiVcpkg.VcpkgRepo.InstallTools | hifi_vcpkg.py:253-263 | does exactly `ToolsStep` |
| HifiVcpkg.VcpkgRepo.Install | hifi_vcpkg.py:254-256 | does exactly `InstallStep` |
| HifiVcpkg.VcpkgRepo.SetupAndroidDependencies | hifi_vcpkg.py:280-300 | does exactly `AndroidStep` |
| HifiVcpkg.VcpkgRepo.FetchAndroidTree | hifi_vcpkg.py:282-288 | does exactly `AndroidTreeStep` |
| HifiVcpkg.VcpkgRepo.InstallAndroidPackages | hifi_vcpkg.py:291-300 | the loop with its skip-if-present `continue` does exactly `PackagesStep` over the catalogue |
| HifiVcpkg.VcpkgRepo.InstallAndroidPackage | hifi_vcpkg.py:293-300 | does exactly `PackageStep` |
| HifiVcpkg.VcpkgRepo.CleanBuilds | hifi_vcpkg.py:265-272 | does exactly `CleanBuildsStep` |
| HifiVcpkg.VcpkgRepo.WriteTag | hifi_vcpkg.py:302-309 | does exactly `WriteTagStep` |
| HifiVcpkg.VcpkgRepo.WritePrebuildTag | hifi_vcpkg.py:311-314 | does exactly `WritePrebuildTagStep` |
| HifiVcpkg.VcpkgRepo.FixupCmakeScript | hifi_vcpkg.py:316-333 | does exactly `FixupStep` |
| HifiVcpkg.VcpkgRepo.CopyKeptLines | hifi_vcpkg.py:322-328 | the copy loop writes exactly the kept lines, and its flag is set exactly when some line was dropped |
| HifiVcpkg.VcpkgRepo.WriteConfig | hifi_vcpkg.py:336-351 | does exactly `WriteConfigStep` |
| HifiVcpkg.VcpkgRepo.WriteText | hifi_vcpkg.py:350-351 | does exactly `WriteStep` |

## Left out

- `__init__`: the `makedirs` of the base directory and of the lock directory are not modelled, and neither is the lock file name. The lock is never taken.
- Parent directories: the filesystem does not require a path's parent to exist, so writes and copies into missing directories are not rejected.
- `cleanupDevelopmentFiles`, `cleanOldBuilds` and all `print` output: not modelled. These operations do not affect the modelled state, or they are not implemented.
- The helpers `hashFolder`, `executeSubprocess`, `downloadAndExtract`, `getPlatformPackages` and `getPackageUrl`: their internals, the MD5 check and any failure of theirs are not modelled. Their effects are the inputs `runEffect` and `unpack`, so the model does not say what a clone, the bootstrap script or an archive writes.
- `ignore_errors=True` in `rmtree`: deletion is modelled as always complete, and I/O errors are not modelled.
- Symbolic links: a link is an opaque entry. `isfile`/`isdir` are false for it, `unlink` removes it, and writing to a link path replaces it with a file instead of writing through the link.
- `os.path.realpath` of the Android precompiled path (line 345) is taken as the identity.
- `os.path.join` with an absolute second part is not modelled. Every joined part is relative.
- FileSystem.Join: every directory the source joins onto (the vcpkg root from `HIFI_VCPKG_PATH` or `--vcpkg-root`, the base directory from `HIFI_VCPKG_BASE`, `CI_WORKSPACE` or the home directory, the build root, the ports path) is taken to be non-empty, without a trailing separator and not a bare Windows drive. For such parts `Join` is `os.path.join` (`PyJoin`); `JoinDoublesTrailingSeparator` states the gap: for a root like `/opt/vcpkg/` the model's paths, and the executable path and config text built from them, hold a doubled separator where Python's do not. Using `PyJoin` throughout would need path normalisation in the filesystem, which is not modelled.
- HifiVcpkg.VcpkgRepo.constructor: requires the host's client-URL variable file to exist. When it is missing, `__init__` raises `FileNotFoundError` from `readVar`, and no object is created; that error path is not modelled.
- HifiVcpkg.PackagesSucceed: the loop can fail in the source when `downloadAndExtract` raises; download failures are not modelled, so the lemma only says that nothing else in the loop fails.
- Text mode: a file's text is the text Python reads and writes in text mode, taken to hold no `'\r'`. Universal-newline reading (a lone `'\r'` ends a line) and the `os.linesep` translation on writes (`\r\n` on Windows) are not modelled, so on Windows the bytes on disk differ from the text stated for `WriteConfigStep`, `WriteTagStep` and `CopyTripletStep`.
- `androidPackagePath` is computed even when not targeting Android. It is only read on Android, so this changes nothing.

## Findings

| source | as written | input that shows it | evidently intended | confidence | as-written member | corrected member |
|---|---|---|---|---|---|---|
| hifi_vcpkg.py:344-349 | The Android line is formatted with the precompiled path, and the result is then formatted a second time together with the CMake template. Braces in the path are read as format fields. | `HIFI_ANDROID_PRECOMPILED=/opt/sdk}` on an Android build: the second `format` raises `ValueError`, and no configuration is written | the path appears verbatim in `set(HIFI_ANDROID_PRECOMPILED "...")` | not executed | HifiVcpkg.AsWrittenRejectsBrace | HifiVcpkg.ConfigTextLayout |
| hifi_vcpkg.py:237-240 | In prebuilt mode the log message concatenates `'Extracting '` with the archive list, which raises `TypeError` before anything is extracted | a non-empty `prebuiltArchive` list and no `.prebuild` tag | extract the archive once, then write the prebuilt tag | not executed | HifiVcpkg.PrebuiltAsWrittenNeverExtracts | HifiVcpkg.PrebuiltSetupExtractsOnce |

The rest of the model uses the corrected behaviour:
- `ConfigText` and `WriteConfigStep` insert the path verbatim. `ConfigTextAsWritten` is the source's double formatting. `AsWrittenAgreesWithoutBraces` shows that the two agree when the path holds no brace.
- `SetupStep` extracts the archive and writes the tag. `SetupStepAsWritten` is the failing version. `PrebuiltSetupIdempotent` holds for the corrected setup.
- Prebuilt mode is switched off in the source (`usePrebuilt = False`, line 89), so the second finding is latent.
