# Cross-platform application installer: a verified model of its decision core

The installer is a desktop tool. The user ticks well-known applications in a
checklist (7-Zip, Visual Studio Code, Vim, VLC, Java JDK, Steam, Spotify,
Firefox, Discord). The tool then walks the selection in order, writing a log as
it goes. For each application it does two things:

- it looks up how to obtain the application on the detected platform;
- it either surfaces a package-manager command (apt, Homebrew, Snap) or
  downloads an installer and launches it.

This project models that core in Dafny and proves what it does:

- platform detection;
- the application catalog and its lookup;
- parsing of spec strings (`package:`, `brew:`, `snap:` or a URL);
- the text each handler logs, including the download file name;
- the batch loop and its log;
- the checkbox selection state.

Side effects become inputs. Each application gets an `Effects` value that says how four actions turned out:

- the `brew --version` probe;
- creating the download directory;
- the network fetch;
- launching the downloaded file.

The batch receives these as a function of the application's position in the
selection. The home directory is a field of `Host`. The confirmation dialog's
answer is a parameter of `StartInstallation`.

Modules, in dependency order:

- `TextUtil`: prefixes, repetition, decimal rendering of counts.
- `Platform`: `detect_os`.
- `Catalog`: `APPLICATIONS`, the sorted checkbox order, and the lookup.
- `Descriptor`: spec-string parsing and its inverse.
- `Executor`: the lines each handler logs.
- `Orchestrator`: the batch log as a function, with its lemmas.
- `Gui`: the class `InstallerGui`. It holds the checkbox flags and the log, and
  has a method for each method of the window class that changes state. Some
  source methods are split into several Dafny methods:
  - `download_and_install` becomes `DownloadAndInstall`, `Fetch` and `OpenDownloaded`;
  - `install_applications` becomes `InstallApplications`, `LogHeader`, `ProcessAll`, `ProcessApplication`, `InstallGuarded` and `LogFooter`;
  - `select_all` and `deselect_all` share `SetAll`.

  `detect_os` is the module function `Platform.DetectOs`. Each method is proved to leave the state described by the functions above.

Facts about the program that the model keeps:

- The program keeps no per-application result records and no summary tally. The batch ends with three fixed footer lines.
- On Linux, downloaded package files are not opened with a system handler. The log shows a `sudo dpkg -i` instruction.
- A failure to create the download directory is not a per-application download failure. It happens outside the handler's `try`, so it reaches the loop's `except` and is logged as "Error installing".
- File names can collide: `"A B"` and `"A_B"` get the same file.
- A short transfer shows up only as the exception `urlretrieve` raises, which the model treats as a failed fetch. Downloads have no timeout.

## Model

| member | source | states |
|---|---|---|
| Platform.DetectOs | installer.py:138-146 | The tag is windows, linux or mac exactly when the lower-cased name is "windows", "linux" or "darwin"; otherwise it is unknown. |
| Platform.DetectOsIgnoresCase | installer.py:138 | Names that agree up to ASCII letter case get the same tag. |
| Platform.DetectOsOfSystemNames | installer.py:138-146 | "Windows", "Linux" and "Darwin" map to the three supported tags; "FreeBSD" maps to unknown. |
| Platform.TagNameInjective | installer.py:136 | The four tags have distinct texts. |
| Catalog.PlatformSpecs | installer.py:41-45 | A catalog entry maps windows, linux and mac to the given specs and has no entry for an unknown platform. |
| Catalog.PlatformSpecsKeys | installer.py:41-45 | An entry built from three platform specs has exactly the keys windows, linux and mac. |
| Catalog.SortedNamesAreKeys | installer.py:221 | The checkbox order lists exactly the catalog's applications. |
| Catalog.SortedNamesAreSorted | installer.py:221 | The checkbox order is strictly increasing in code-point order, so there are no duplicates. |
| Catalog.StrLessTransitive | installer.py:221 | Helper for the sortedness proof of the checkbox order: the code-point string ordering is transitive. |
| Catalog.AdjacentSorted | installer.py:221 | Helper for the sortedness proof of the checkbox order: neighbours in order imply the whole sequence is sorted. |
| Catalog.Resolve | installer.py:365-373 | Three outcomes. Not found exactly when the name is absent or its entry is empty. Unsupported exactly when the entry has no spec, or an empty spec, for the platform. Otherwise the found spec is the non-empty catalog value. |
| Catalog.WellFormedInsert | installer.py:40-86 | Helper: adding a well-formed entry keeps a catalog well formed. |
| Catalog.LeadingSpecsWellFormed | installer.py:41-55 | The 7-Zip, Visual Studio Code and Vim entries have exactly the keys windows, linux and mac, each with a non-empty spec. |
| Catalog.MiddleSpecsWellFormed | installer.py:56-70 | The VLC Media Player, Java JDK and Steam entries have exactly the keys windows, linux and mac, each with a non-empty spec. |
| Catalog.TrailingSpecsWellFormed | installer.py:71-85 | The Spotify, Firefox and Discord entries have exactly the keys windows, linux and mac, each with a non-empty spec. |
| Catalog.ApplicationsWellFormed | installer.py:40-86 | Every catalog entry has exactly the keys windows, linux and mac, none other, each with a non-empty spec. |
| Catalog.ResolveKnownPlatform | installer.py:370-373 | On windows, linux or mac, every application of a well-formed catalog resolves to its spec. |
| Catalog.ResolveUnknownPlatform | installer.py:370-373 | On an unknown host, every application of a well-formed catalog is unsupported. |
| Catalog.SevenZipLinuxSpec | installer.py:43 | On linux, 7-Zip resolves to `package:p7zip-full`. |
| Descriptor.FirstColon | installer.py:389 | The index found is a colon, and no colon comes before it. |
| Descriptor.AfterFirstColonOfPrefixed | installer.py:389 | For the three prefixes, the text after the first colon is exactly the text after the prefix. |
| Descriptor.ParseSpec | installer.py:385-399 | Exactly one handler is chosen. Each prefix selects its handler, with the package set to the text after the prefix. A string with none of the prefixes is a URL, passed on unchanged. |
| Descriptor.ParseSerialize | installer.py:388-399 | Parsing the text of any acquisition that some spec string can denote gives it back, whatever the package name contains. Excluded: a URL that itself starts with `package:`, `brew:` or `snap:`, since it would be read as a package. |
| Descriptor.SerializeParse | installer.py:388-399 | Every spec string is the text of what it parses to. |
| Descriptor.PackageNameRoundTrip | installer.py:389-395 | Any package name, including ones with `@` or further colons, comes back unchanged after its prefix is stripped. |
| Descriptor.SevenZipSpecParses | installer.py:43 | `package:p7zip-full` parses as the apt package `p7zip-full`. |
| Executor.NoProcessingLinesConcat | installer.py:363 | Helper for the section-count proofs: joining two logs with no section start gives a log with none. |
| Executor.NotProcessing | installer.py:363 | A line that does not start with a newline is never a section start. |
| Executor.AptLines | installer.py:401-406 | Four lines: the package, then the `sudo apt-get install -y` command shown as an instruction. None of the four is an error line or a section start. |
| Executor.SnapLines | installer.py:421-425 | Three lines, ending with the `sudo snap install` instruction. |
| Executor.BrewStep | installer.py:408-419 | The last line is the `brew install` instruction exactly when the probe succeeded. It is the Homebrew install hint exactly when brew failed or is absent. Any other probe exception escapes, with nothing logged after the package line. |
| Executor.Extension | installer.py:431-437 | ".exe" exactly on windows, ".dmg" exactly on mac, ".deb" on every other host. |
| Executor.ReplaceSpaces | installer.py:444 | The length is kept, every space becomes an underscore, every other character is kept, and no space remains. |
| Executor.DownloadFileName | installer.py:443-444 | The name's length plus the extension's; each character sanitized; the platform extension at the end; no spaces. |
| Executor.DownloadFileNamesCollide | installer.py:444 | Two applications share a download file exactly when their names agree once spaces become underscores. |
| Executor.ManualLineStart | installer.py:469 | The manual-download line starts with the information mark. |
| Executor.AfterFetch | installer.py:453-465 | At least two lines, none a section start. The exact lines per host and launch outcome are stated by Executor.InstallerLaunched, Executor.InstallerLaunchFailed, Executor.DiskImageOpened, Executor.DiskImageOpenFailed and Executor.DpkgInstructions. |
| Executor.InstallerLaunched | installer.py:454-457 | On windows, a launch that returns logs "Opening installer..." and then "Installer launched". |
| Executor.InstallerLaunchFailed | installer.py:454-469 | On windows, a launch that raises logs exactly three lines: "Opening installer...", then "Download failed" with the exception's text, then the manual-download line. |
| Executor.DiskImageOpened | installer.py:458-461 | On mac, a launch that returns logs "Opening DMG file..." and then "DMG opened". |
| Executor.DiskImageOpenFailed | installer.py:458-469 | On mac, an `open` that raises logs exactly three lines: "Opening DMG file...", then "Download failed" with the exception's text, then the manual-download line. |
| Executor.DpkgInstructions | installer.py:462-465 | On linux and unknown hosts, whatever the launch outcome, the log is the `sudo dpkg -i` instruction for the path just downloaded, then `sudo apt-get install -f`. |
| Executor.AfterFetchOutcome | installer.py:453-469 | After a fetch, the log ends with the manual-download line exactly when the launch failed on windows or mac. The line before it then carries the exception's text. |
| Executor.FetchLines | installer.py:447-469 | At least two lines, none a section start. Executor.FetchSucceeded and Executor.FetchOutcome state what the lines are. |
| Executor.FetchSucceeded | installer.py:450-465 | A fetch that returns logs "Downloaded successfully!" first, then the host's post-fetch lines. A returned launch reports "Installer launched" on windows and "DMG opened" on mac. On linux and unknown hosts there are exactly four lines, with `sudo dpkg -i` naming the downloaded file's path. |
| Executor.FetchOutcome | installer.py:447-469 | A failed fetch logs exactly the failure and manual-download lines. The log ends with the manual-download line exactly when the fetch, or the launch on windows or mac, failed. |
| Executor.DownloadStep | installer.py:427-469 | Starts with "Downloading"; only a directory-creation failure escapes; no section starts. |
| Executor.DownloadStepLines | installer.py:429-451 | Helper: unfolds `DownloadStep` into its line groups. A failed directory creation logs only the first line. Otherwise the target path is announced before the fetch. |
| Executor.DownloadReportsFailure | installer.py:440-469 | Once the directory exists, the target path is announced. The log ends with the manual-download line exactly when the fetch or launch failed. The line before it carries that exception's text. |
| Executor.LastTwoOfConcat | installer.py:467-469 | Sequence helper for the failure-line proofs: the last two lines of a joined log come from its second part. |
| Executor.FailureLinesShape | installer.py:467-469 | The failure lines are no section starts. |
| Executor.NoLaunchOffWindowsAndMac | installer.py:462-465 | On linux and unknown hosts nothing is launched, so the launch outcome cannot change the log. |
| Executor.InstallSingle | installer.py:385-399 | Each prefix runs its own handler, with the package after the prefix; any other spec is downloaded. An exception escapes only from the brew probe or the directory creation. The first line is never an error line. |
| Orchestrator.ErrorInstallingLine | installer.py:378 | The caught-exception line is an error line. |
| Orchestrator.SectionStarts | installer.py:362-363 | One section start per name, in the order given. |
| Orchestrator.ProcessingLinesAppend | installer.py:363 | The section starts of a joined log are those of each part, in order. |
| Orchestrator.ProcessingLinesNone | installer.py:363 | A log with no section start yields none. |
| Orchestrator.ProcessingLineInjective | installer.py:363 | Distinct applications get distinct section starts. |
| Orchestrator.FramingHasNoSections | installer.py:358-360 | Header and footer lines are never section starts. |
| Orchestrator.Guarded | installer.py:375-378 | The handler's lines come first. "Error installing" with the exception's text is appended exactly when an exception escaped. Nothing else is added. A handler that logs no section start gives a guarded log with none. |
| Orchestrator.DispatchLog | installer.py:375-378 | Guarding `install_single_app` gives at least one line. The first line is never an error line. No line is a section start. |
| Orchestrator.AppLog | installer.py:362-378 | The section start comes first. Exactly one of three follows: "No configuration found" iff not found; "not supported on" iff unsupported; otherwise the guarded handler's lines. No further section starts. |
| Orchestrator.AppLogByResolution | installer.py:362-378 | Helper: unfolds `AppLog`. A section is its start followed by the lines for the lookup's outcome. |
| Orchestrator.AppsLogStep | installer.py:362 | Handling one more name appends exactly that name's section. |
| Orchestrator.AppLogHasOneSection | installer.py:363 | Each application's section contains exactly one section start, its own. |
| Orchestrator.AppsLogSections | installer.py:362-378 | For N names there are exactly N section starts, in input order, and at least 2N lines. |
| Orchestrator.BatchLogShape | installer.py:356-382 | The batch log starts with the three header lines, which carry the count. It ends with the three footer lines. It has one section start per selected name, in order, and at least 6 + 2N lines. |
| Orchestrator.BatchLogSections | installer.py:356-382 | The framing adds no section start: the batch has exactly one per selected name, in order. |
| Orchestrator.AppsLogExtends | installer.py:362-378 | The log of a prefix of the selection is a prefix of the log: sections are only appended, never revised. |
| Orchestrator.UnknownHostSkipsEverything | installer.py:365-373 | On an unknown host, each section is two lines: "not supported" for catalog applications, "No configuration found" otherwise. |
| Orchestrator.UnknownHostBatchLength | installer.py:356-382 | On an unknown host a batch of N names logs exactly 6 + 2N lines. |
| Orchestrator.AptSection | installer.py:388-390 | An application whose spec parses as an apt package gets exactly the apt instructions, whatever the host's effects. |
| Orchestrator.SevenZipOnLinux | installer.py:43 | On linux, the 7-Zip section shows only the apt instructions for `p7zip-full`. |
| TextUtil.Repeat | installer.py:358 | `"=" * n` has length n and every character is `=`. |
| TextUtil.NatToString | installer.py:359 | `str(n)`: a non-empty digit string with no leading zero. Zero is exactly "0". It is one digit exactly when n < 10. |
| TextUtil.NatToStringRoundTrip | installer.py:359 | Reading the digits back gives the count. |
| TextUtil.PrefixOfConcat | installer.py:388 | String helper for the prefix tests: `p + x` starts with `p`. |
| Gui.Checked | installer.py:331 | The selection holds exactly the names whose flag is set. |
| Gui.CheckedAll | installer.py:311-314 | With every flag set, the selection is every name, in order. |
| Gui.CheckedNone | installer.py:316-319 | With every flag cleared, the selection is empty. |
| Gui.CheckedSorted | installer.py:331 | Filtering keeps the sorted checkbox order. |
| Gui.InstallerGui.constructor | installer.py:221-223 | One unchecked box per catalog application, in sorted order; the log is empty; the host tag comes from `detect_os`. |
| Gui.InstallerGui.Selected | installer.py:331 | The selection is strictly sorted and holds exactly the checked names. |
| Gui.InstallerGui.SetAll | installer.py:313-314 | Every flag is set to the value; the set of applications is unchanged. |
| Gui.InstallerGui.SelectAll | installer.py:311-314 | Every flag becomes true, the keys are unchanged, and the selection is every name in sorted order. |
| Gui.InstallerGui.DeselectAll | installer.py:316-319 | Every flag becomes false, the keys are unchanged, and the selection is empty. |
| Gui.InstallerGui.Log | installer.py:321-327 | Appends exactly one entry to the log. |
| Gui.InstallerGui.InstallViaPackageManager | installer.py:401-406 | Appends exactly the apt lines. |
| Gui.InstallerGui.InstallViaHomebrew | installer.py:408-419 | Appends exactly the brew lines and reports the probe exception that escapes. |
| Gui.InstallerGui.InstallViaSnap | installer.py:421-425 | Appends exactly the snap lines. |
| Gui.InstallerGui.OpenDownloaded | installer.py:453-469 | Appends exactly the post-fetch lines for the host. |
| Gui.InstallerGui.Fetch | installer.py:447-469 | Appends exactly the lines of the handler's `try` block. |
| Gui.InstallerGui.DownloadAndInstall | installer.py:427-469 | Appends exactly the download lines and lets only the directory-creation exception escape. |
| Gui.InstallerGui.InstallSingleApp | installer.py:385-399 | Appends exactly the dispatched handler's lines and reports what escaped. |
| Gui.InstallerGui.InstallGuarded | installer.py:375-378 | Appends exactly the guarded lines: the handler's, plus "Error installing" when an exception escaped. |
| Gui.InstallerGui.ProcessApplication | installer.py:363-378 | Appends exactly one application's section. |
| Gui.InstallerGui.ProcessAll | installer.py:362-378 | The loop appends every section, in selection order, with no early exit. |
| Gui.InstallerGui.LogHeader | installer.py:358-360 | Appends the three header lines. |
| Gui.InstallerGui.LogFooter | installer.py:380-382 | Appends the three footer lines. |
| Gui.InstallerGui.InstallApplications | installer.py:356-382 | Appends exactly the batch log: header, one section per name, footer. |
| Gui.InstallerGui.StartInstallation | installer.py:329-354 | The batch starts exactly when the selection is non-empty and the user confirmed. It then clears the log and runs over the snapshot of the selection. Otherwise the log is untouched. |

## Left out

- The Tkinter presentation is not modelled: styles, widgets, scrolling, message boxes, `root.update()` and the completion dialog (installer.py:148-309, 383). The log is a sequence of strings, one per `log_message` call.
- The worker thread in `start_installation` is not modelled. The batch runs as a sequential method on the selection snapshot.
- Side effects are inputs rather than operations:
  - the network fetch;
  - creating the download directory;
  - `os.startfile`;
  - `subprocess.run(["open", …])`;
  - the `brew --version` probe.
- Each of these inputs is an outcome: it returned, or it raised an exception with a given message. For the brew probe, the outcomes are found, missing (`CalledProcessError`/`FileNotFoundError`) or another exception.
- `Path.home()` is the `home` text of `Host`. The path is that text joined with `\` on windows and `/` elsewhere. Path normalisation is not modelled.
- `str(e)` is the exception's message text. How Python renders exception objects is not modelled.
- Platform.DetectOs: `str.lower()` is modelled on ASCII letters only. Under full Unicode lowering the one non-ASCII character whose lowercase contains a letter of "windows", "linux" or "darwin" is U+0130 (capital I with dot above), which lowers to "i" followed by the combining dot U+0307; that mark stays in the lowered name, so it still equals none of the three targets and the tag is unchanged. The lowered text itself is not modelled for non-ASCII input.
- `platform.system()` is a parameter of the constructor.
- Gui.InstallerGui.Selected: the iteration order of the `app_vars` dictionary is modelled by the explicit `names` sequence, which the constructor fills in sorted order, as `create_ui` inserts the checkboxes; `Selected()` keeps the checked names in that order.
