// The log lines one application's installation produces: the three
// package-manager handlers, which only surface a command, and the direct
// download, whose network fetch, directory creation and process launches are
// abstract outcomes.
module Executor {
  import opened TextUtil
  import opened Platform
  import opened Descriptor

  // Message decorations, as Unicode scalar values.
  const Info := "\U{2139}\U{FE0F}"
  const Warn := "\U{26A0}\U{FE0F}"
  const CrossMark: char := '\U{274C}'
  const Cross := [CrossMark]
  const Check := "\U{2705}"
  const DownArrow := "\U{2B07}\U{FE0F}"
  const PackageMark: char := '\U{1F4E6}'
  const Package := [PackageMark]

  /** The outcome of one side effect: it returned, or it raised an exception with this text. */
  datatype Outcome = Returned | Raised(message: string)

  /** `brew --version`: exits 0; fails (CalledProcessError) or is absent (FileNotFoundError); or raises anything else. */
  datatype BrewProbe = BrewFound | BrewMissing | ProbeRaised(message: string)

  /** Everything the host decides while one application is handled. */
  datatype Effects = Effects(
    brewProbe: BrewProbe,
    makeDir: Outcome,   // download_dir.mkdir(parents=True, exist_ok=True)
    fetch: Outcome,     // urllib.request.urlretrieve(url, filepath)
    launch: Outcome)    // os.startfile(filepath) on windows, subprocess.run(["open", filepath]) on mac

  /** The host: its detected platform and `Path.home()` as text. */
  datatype Host = Host(os: OsTag, home: string)

  /** Lines appended for one application, and the exception that escaped the handler, if any. */
  datatype Step = Step(lines: seq<string>, escaped: Outcome)

  /** The first line of each application's section of the log. */
  const ProcessingPrefix := "\n" + Package + " Processing: "

  /** Only a section start begins with a newline followed by the package mark. */
  predicate IsProcessingLine(line: string) {
    |line| >= 2 && line[0] == '\n' && line[1] == PackageMark
  }

  /** No line of `lines` could be mistaken for the start of another application's section. */
  predicate NoProcessingLines(lines: seq<string>) {
    forall i :: 0 <= i < |lines| ==> !IsProcessingLine(lines[i])
  }

  /** Lines that report an error start with the cross mark. */
  predicate IsErrorLine(line: string) {
    |line| > 0 && line[0] == CrossMark
  }

  lemma NoProcessingLinesConcat(a: seq<string>, b: seq<string>)
    requires NoProcessingLines(a) && NoProcessingLines(b)
    ensures NoProcessingLines(a + b)
  {
    forall i | 0 <= i < |a + b|
      ensures !IsProcessingLine((a + b)[i])
    {
      if i < |a| {
        assert (a + b)[i] == a[i];
      } else {
        assert (a + b)[i] == b[i - |a|];
      }
    }
  }

  /** A line whose first character is not a newline is never a section start. */
  lemma NotProcessing(line: string)
    requires |line| > 0 && line[0] != '\n'
    ensures !IsProcessingLine(line)
  {
  }

  // ---- package managers ------------------------------------------------

  function AptCommand(package: string): string { "sudo apt-get install -y " + package }
  function SnapCommand(package: string): string { "sudo snap install " + package }
  function BrewCommand(package: string): string { "brew install " + package }

  const BrewInstallHint := "    " + "/bin/bash -c \"$(curl -fsSL https://raw.githubusercontent.com/Homebrew/install/HEAD/install.sh)\""

  function PackageLine(package: string): string { Info + "  Package: " + package }

  /** `install_via_package_manager`: the apt command is shown, never run. */
  function AptLines(app: string, package: string): (r: seq<string>)
    ensures |r| == 4 && r[1] == PackageLine(package)
    ensures forall i :: 0 <= i < 4 ==> !IsErrorLine(r[i])
    ensures r[3] == "    " + AptCommand(package)
    ensures NoProcessingLines(r)
  {
    var r := [
      "Installing " + app + " via package manager...",
      PackageLine(package),
      Warn + "  This requires sudo privileges. Please run the following command manually:",
      "    " + AptCommand(package)];
    NotProcessing(r[0]); NotProcessing(r[1]); NotProcessing(r[2]); NotProcessing(r[3]);
    r
  }

  /** `install_via_snap`: the snap command is shown, never run. */
  function SnapLines(app: string, package: string): (r: seq<string>)
    ensures |r| == 3 && !IsErrorLine(r[0]) && r[1] == PackageLine(package)
    ensures r[2] == Warn + "  Please run: " + SnapCommand(package)
    ensures NoProcessingLines(r)
  {
    var r := [
      "Installing " + app + " via Snap...",
      PackageLine(package),
      Warn + "  Please run: " + SnapCommand(package)];
    NotProcessing(r[0]); NotProcessing(r[1]); NotProcessing(r[2]);
    r
  }

  /**
   * `install_via_homebrew`: the brew command is shown only when the probe succeeds;
   * a failed or absent brew gets the Homebrew install hint; any other exception from
   * the probe escapes to the batch loop.
   */
  function BrewStep(app: string, package: string, probe: BrewProbe): (r: Step)
    ensures |r.lines| >= 2 && !IsErrorLine(r.lines[0]) && r.lines[1] == PackageLine(package)
    ensures r.escaped.Raised? <==> probe.ProbeRaised?
    ensures probe.ProbeRaised? ==> r.escaped.message == probe.message && |r.lines| == 2
    ensures r.lines[|r.lines| - 1] == Warn + "  Please run: " + BrewCommand(package) <==> probe.BrewFound?
    ensures r.lines[|r.lines| - 1] == BrewInstallHint <==> probe.BrewMissing?
    ensures NoProcessingLines(r.lines)
  {
    var head := ["Installing " + app + " via Homebrew...", PackageLine(package)];
    NotProcessing(head[0]); NotProcessing(head[1]);
    match probe
    case BrewFound =>
      var last := Warn + "  Please run: " + BrewCommand(package);
      NotProcessing(last);
      assert last[0] != BrewInstallHint[0];
      Step(head + [last], Returned)
    case BrewMissing =>
      var missing := Cross + " Homebrew not found. Please install Homebrew first:";
      NotProcessing(missing); NotProcessing(BrewInstallHint);
      assert (Warn + "  Please run: " + BrewCommand(package))[0] != BrewInstallHint[0];
      Step(head + [missing, BrewInstallHint], Returned)
    case ProbeRaised(message) =>
      Step(head, Raised(message))
  }

  // ---- direct download -------------------------------------------------

  /** The installer extension chosen by platform; every host other than windows and mac gets `.deb`. */
  function Extension(os: OsTag): (e: string)
    ensures |e| == 4 && e[0] == '.' && ' ' !in e
    ensures e == ".exe" <==> os == Windows
    ensures e == ".dmg" <==> os == Mac
    ensures e == ".deb" <==> (os == Linux || os == Unknown)
  {
    match os
    case Windows => ".exe"
    case Mac => ".dmg"
    case _ => ".deb"
  }

  function SanitizeChar(c: char): char {
    if c == ' ' then '_' else c
  }

  /** `s.replace(" ", "_")` */
  function ReplaceSpaces(s: string): (r: string)
    ensures |r| == |s| && ' ' !in r
    ensures forall i :: 0 <= i < |s| ==> r[i] == SanitizeChar(s[i])
  {
    if s == [] then [] else [SanitizeChar(s[0])] + ReplaceSpaces(s[1..])
  }

  /** `app_name.replace(" ", "_") + ext` */
  function DownloadFileName(app: string, os: OsTag): (r: string)
    ensures |r| == |app| + |Extension(os)|
    ensures forall i :: 0 <= i < |app| ==> r[i] == SanitizeChar(app[i])
    ensures r[|app|..] == Extension(os)
    ensures ' ' !in r
  {
    ReplaceSpaces(app) + Extension(os)
  }

  /** Two application names share a download file exactly when they agree once spaces become underscores. */
  lemma DownloadFileNamesCollide(a: string, b: string, os: OsTag)
    ensures DownloadFileName(a, os) == DownloadFileName(b, os) <==> ReplaceSpaces(a) == ReplaceSpaces(b)
  {
    var fa, fb := DownloadFileName(a, os), DownloadFileName(b, os);
    if fa == fb {
      assert |a| == |b|;
      assert fa[..|a|] == ReplaceSpaces(a);
      assert fb[..|b|] == ReplaceSpaces(b);
    }
  }

  /** The path separator `pathlib` uses on the host. */
  function Separator(os: OsTag): string {
    if os == Windows then "\\" else "/"
  }

  /** `Path.home() / "Downloads" / "InstallerDownloads" / filename`, as text. */
  function FilePath(host: Host, app: string): string {
    var sep := Separator(host.os);
    host.home + sep + "Downloads" + sep + "InstallerDownloads" + sep + DownloadFileName(app, host.os)
  }

  function ManualLine(url: string): string {
    Info + "  You can manually download from: " + url
  }

  /** The manual-download line starts with the information mark, never with a cross or a space. */
  lemma ManualLineStart(url: string)
    ensures |ManualLine(url)| > 0 && ManualLine(url)[0] == Info[0]
  {
    assert ManualLine(url) == Info + ("  You can manually download from: " + url);
  }

  function FailureLines(message: string, url: string): seq<string> {
    [Cross + " Download failed: " + message, ManualLine(url)]
  }

  /** The fetch failed, or the launch that follows it on windows and mac failed; both are caught inside the handler. */
  predicate DownloadFailed(os: OsTag, eff: Effects) {
    eff.makeDir.Returned? &&
    (eff.fetch.Raised? || ((os == Windows || os == Mac) && eff.launch.Raised?))
  }

  /** The text of the exception that ended a failed download. */
  function FailureMessage(os: OsTag, eff: Effects): string
    requires DownloadFailed(os, eff)
  {
    if eff.fetch.Raised? then eff.fetch.message else eff.launch.message
  }

  /**
   * What `download_and_install` logs once the file is fetched: windows launches the
   * installer, mac opens the disk image, every other host gets the dpkg instructions.
   */
  function AfterFetch(os: OsTag, path: string, url: string, launch: Outcome): (r: seq<string>)
    ensures |r| >= 2
    ensures NoProcessingLines(r)
  {
    match os
    case Windows =>
      var opening := Info + "  Opening installer...";
      NotProcessing(opening);
      if launch.Raised? then
        FailureLinesShape(launch.message, url);
        NoProcessingLinesConcat([opening], FailureLines(launch.message, url));
        [opening] + FailureLines(launch.message, url)
      else
        var done := Check + " Installer launched. Please follow the installation wizard.";
        NotProcessing(done);
        [opening, done]
    case Mac =>
      var opening := Info + "  Opening DMG file...";
      NotProcessing(opening);
      if launch.Raised? then
        FailureLinesShape(launch.message, url);
        NoProcessingLinesConcat([opening], FailureLines(launch.message, url));
        [opening] + FailureLines(launch.message, url)
      else
        var done := Check + " DMG opened. Please drag the app to Applications folder.";
        NotProcessing(done);
        [opening, done]
    case _ =>
      var hint := [Info + "  To install, run:", "    sudo dpkg -i " + path, "    sudo apt-get install -f"];
      NotProcessing(hint[0]); NotProcessing(hint[1]); NotProcessing(hint[2]);
      hint
  }

  /**
   * After a fetch, only a failed launch on windows or mac ends with the manual-download
   * line, right after the exception's text.
   */
  lemma AfterFetchOutcome(os: OsTag, path: string, url: string, launch: Outcome)
    ensures var r := AfterFetch(os, path, url, launch);
      && (r[|r| - 1] == ManualLine(url) <==> ((os == Windows || os == Mac) && launch.Raised?))
      && ((os == Windows || os == Mac) && launch.Raised? ==>
            r[|r| - 2] == Cross + " Download failed: " + launch.message)
  {
    var r := AfterFetch(os, path, url, launch);
    ManualLineStart(url);
    if os == Windows || os == Mac {
      if launch.Returned? {
        assert r[1][0] == Check[0];
      }
    } else {
      assert r[2] == "    sudo apt-get install -f";
    }
  }

  /** On windows, a launch that returns is reported as the installer launched. */
  lemma InstallerLaunched(path: string, url: string)
    ensures AfterFetch(Windows, path, url, Returned) ==
              [Info + "  Opening installer...", Check + " Installer launched. Please follow the installation wizard."]
  {
  }

  /** On mac, a launch that returns is reported as the disk image opened. */
  lemma DiskImageOpened(path: string, url: string)
    ensures AfterFetch(Mac, path, url, Returned) ==
              [Info + "  Opening DMG file...", Check + " DMG opened. Please drag the app to Applications folder."]
  {
  }

  /** On windows, a launch that raises follows the opening line with the failure lines. */
  lemma InstallerLaunchFailed(path: string, url: string, message: string)
    ensures AfterFetch(Windows, path, url, Raised(message)) ==
              [Info + "  Opening installer...", Cross + " Download failed: " + message, ManualLine(url)]
  {
  }

  /** On mac, opening the disk image that raises follows the opening line with the failure lines. */
  lemma DiskImageOpenFailed(path: string, url: string, message: string)
    ensures AfterFetch(Mac, path, url, Raised(message)) ==
              [Info + "  Opening DMG file...", Cross + " Download failed: " + message, ManualLine(url)]
  {
  }

  /** Every other host is told to run `dpkg -i` on the downloaded file, whatever the launch outcome. */
  lemma DpkgInstructions(os: OsTag, path: string, url: string, launch: Outcome)
    requires os == Linux || os == Unknown
    ensures AfterFetch(os, path, url, launch) ==
              [Info + "  To install, run:", "    sudo dpkg -i " + path, "    sudo apt-get install -f"]
  {
  }

  /** What `download_and_install` logs inside its `try`, after announcing the target path. */
  function FetchLines(host: Host, app: string, url: string, eff: Effects): (r: seq<string>)
    ensures |r| >= 2
    ensures NoProcessingLines(r)
  {
    if eff.fetch.Raised? then
      FailureLinesShape(eff.fetch.message, url);
      FailureLines(eff.fetch.message, url)
    else
      var fetched := Check + " Downloaded successfully!";
      var rest := AfterFetch(host.os, FilePath(host, app), url, eff.launch);
      NotProcessing(fetched);
      NoProcessingLinesConcat([fetched], rest);
      [fetched] + rest
  }

  /**
   * A failed fetch logs the exception's text and the manual-download line and nothing
   * else; the log ends with that line exactly when the fetch or the launch failed.
   */
  lemma FetchOutcome(host: Host, app: string, url: string, eff: Effects)
    ensures var r := FetchLines(host, app, url, eff);
      && (r[|r| - 1] == ManualLine(url) <==>
            (eff.fetch.Raised? || ((host.os == Windows || host.os == Mac) && eff.launch.Raised?)))
      && (eff.fetch.Raised? ==> r == FailureLines(eff.fetch.message, url))
      && (eff.fetch.Returned? && (host.os == Windows || host.os == Mac) && eff.launch.Raised? ==>
            r[|r| - 2] == Cross + " Download failed: " + eff.launch.message)
  {
    if eff.fetch.Returned? {
      var rest := AfterFetch(host.os, FilePath(host, app), url, eff.launch);
      AfterFetchOutcome(host.os, FilePath(host, app), url, eff.launch);
      LastTwoOfConcat([Check + " Downloaded successfully!"], rest);
    }
  }

  /**
   * A fetch that returns is reported as downloaded, followed by the host's post-fetch
   * lines; on linux and unknown hosts the `dpkg -i` instruction names the file just
   * downloaded.
   */
  lemma FetchSucceeded(host: Host, app: string, url: string, eff: Effects)
    requires eff.fetch.Returned?
    ensures var r := FetchLines(host, app, url, eff);
      && r == [Check + " Downloaded successfully!"] + AfterFetch(host.os, FilePath(host, app), url, eff.launch)
      && (host.os == Windows && eff.launch.Returned? ==>
            r[2] == Check + " Installer launched. Please follow the installation wizard.")
      && (host.os == Mac && eff.launch.Returned? ==>
            r[2] == Check + " DMG opened. Please drag the app to Applications folder.")
      && (host.os == Linux || host.os == Unknown ==>
            |r| == 4 && r[2] == "    sudo dpkg -i " + FilePath(host, app))
  {
    var path := FilePath(host, app);
    match host.os
    case Windows =>
      if eff.launch.Returned? {
        InstallerLaunched(path, url);
      }
    case Mac =>
      if eff.launch.Returned? {
        DiskImageOpened(path, url);
      }
    case _ =>
      DpkgInstructions(host.os, path, url, eff.launch);
  }

  /**
   * `download_and_install`. Creating the directory happens outside the `try`, so its
   * exception is the only one that escapes.
   */
  function DownloadStep(host: Host, app: string, url: string, eff: Effects): (r: Step)
    ensures |r.lines| >= 1 && r.lines[0] == "Downloading " + app + "..." && !IsErrorLine(r.lines[0])
    ensures r.escaped == eff.makeDir
    ensures NoProcessingLines(r.lines)
  {
    var started := "Downloading " + app + "...";
    NotProcessing(started);
    if eff.makeDir.Raised? then
      Step([started], eff.makeDir)
    else
      var target := DownArrow + "  Downloading to: " + FilePath(host, app);
      NotProcessing(target);
      NoProcessingLinesConcat([started, target], FetchLines(host, app, url, eff));
      Step([started, target] + FetchLines(host, app, url, eff), Returned)
  }

  /** The lines of `download_and_install`, grouped as the handler logs them. */
  lemma DownloadStepLines(host: Host, app: string, url: string, eff: Effects)
    ensures var started := "Downloading " + app + "...";
      DownloadStep(host, app, url, eff) ==
        if eff.makeDir.Raised? then Step([started], eff.makeDir)
        else Step([started] + ([DownArrow + "  Downloading to: " + FilePath(host, app)] + FetchLines(host, app, url, eff)), Returned)
  {
    var started := "Downloading " + app + "...";
    var target := DownArrow + "  Downloading to: " + FilePath(host, app);
    AppendAssociative([started], [target], FetchLines(host, app, url, eff));
  }

  /**
   * Once the directory exists the target path is announced, and the log ends with the
   * URL to fetch by hand exactly when the fetch, or the launch that follows it on
   * windows and mac, raised; the line before it carries the exception's text.
   */
  lemma DownloadReportsFailure(host: Host, app: string, url: string, eff: Effects)
    ensures var r := DownloadStep(host, app, url, eff);
      && (eff.makeDir.Returned? ==>
            |r.lines| >= 3 && r.lines[1] == DownArrow + "  Downloading to: " + FilePath(host, app))
      && (r.lines[|r.lines| - 1] == ManualLine(url) <==> DownloadFailed(host.os, eff))
      && (DownloadFailed(host.os, eff) ==>
            r.lines[|r.lines| - 2] == Cross + " Download failed: " + FailureMessage(host.os, eff))
  {
    var r := DownloadStep(host, app, url, eff);
    if eff.makeDir.Raised? {
      assert |r.lines| == 1 && r.lines[0][0] == 'D';
      ManualLineStart(url);
    } else {
      var started, target := "Downloading " + app + "...", DownArrow + "  Downloading to: " + FilePath(host, app);
      var rest := FetchLines(host, app, url, eff);
      DownloadStepLines(host, app, url, eff);
      AppendAssociative([started], [target], rest);
      assert [started] + [target] == [started, target];
      FetchOutcome(host, app, url, eff);
      LastTwoOfConcat([started, target], rest);
    }
  }

  lemma LastTwoOfConcat(a: seq<string>, b: seq<string>)
    requires |b| >= 2
    ensures var c := a + b; |c| >= 2 && c[|c| - 1] == b[|b| - 1] && c[|c| - 2] == b[|b| - 2]
  {
  }

  lemma FailureLinesShape(message: string, url: string)
    ensures NoProcessingLines(FailureLines(message, url))
  {
    NotProcessing(FailureLines(message, url)[0]);
    NotProcessing(FailureLines(message, url)[1]);
  }

  /** On hosts other than windows and mac nothing is launched: the launch outcome cannot matter. */
  lemma NoLaunchOffWindowsAndMac(host: Host, app: string, url: string, eff: Effects, launch: Outcome)
    requires host.os == Linux || host.os == Unknown
    ensures DownloadStep(host, app, url, eff) == DownloadStep(host, app, url, eff.(launch := launch))
  {
  }

  // ---- dispatch --------------------------------------------------------

  /** `install_single_app`: the spec's prefix picks the handler. */
  function InstallSingle(host: Host, app: string, spec: string, eff: Effects): (r: Step)
    ensures NoProcessingLines(r.lines) && |r.lines| >= 1 && !IsErrorLine(r.lines[0])
    ensures HasPrefix(spec, AptPrefix) ==>
              r == Step(AptLines(app, spec[|AptPrefix|..]), Returned)
    ensures HasPrefix(spec, SnapPrefix) ==>
              r == Step(SnapLines(app, spec[|SnapPrefix|..]), Returned)
    ensures HasPrefix(spec, BrewPrefix) ==>
              r == BrewStep(app, spec[|BrewPrefix|..], eff.brewProbe)
    ensures !HasPackagePrefix(spec) ==> r == DownloadStep(host, app, spec, eff)
    ensures r.escaped.Raised? ==>
              (HasPrefix(spec, BrewPrefix) && eff.brewProbe.ProbeRaised?) ||
              (!HasPackagePrefix(spec) && eff.makeDir.Raised?)
  {
    match ParseSpec(spec)
    case Apt(p) => Step(AptLines(app, p), Returned)
    case Brew(p) => BrewStep(app, p, eff.brewProbe)
    case Snap(p) => Step(SnapLines(app, p), Returned)
    case Download(url) => DownloadStep(host, app, url, eff)
  }
}
