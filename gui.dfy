// The installer window's state that the core reads and changes: the checkbox
// flags (`app_vars`), the log (`status_text`), the detected platform, and the
// methods that update them. Widgets, dialogs and the worker thread are not
// modelled; the confirmation dialog's answer is a parameter.
module Gui {
  import opened TextUtil
  import opened Platform
  import opened Catalog
  import opened Descriptor
  import opened Executor
  import opened Orchestrator

  /** `[app for app, var in app_vars.items() if var.get()]`, in the map's key order `names`. */
  function Checked(names: seq<string>, flags: map<string, bool>): (r: seq<string>)
    requires forall n :: n in names ==> n in flags
    ensures forall x :: x in r <==> x in names && flags[x]
    ensures |r| <= |names|
    decreases |names|
  {
    if names == [] then []
    else (if flags[names[0]] then [names[0]] else []) + Checked(names[1..], flags)
  }

  /** With every flag set, every name is selected, in order. */
  lemma {:induction false} CheckedAll(names: seq<string>, flags: map<string, bool>)
    requires forall n :: n in names ==> n in flags && flags[n]
    ensures Checked(names, flags) == names
    decreases |names|
  {
    if names != [] {
      CheckedAll(names[1..], flags);
    }
  }

  /** Selecting keeps the checkbox order, which is sorted. */
  lemma {:induction false} CheckedSorted(names: seq<string>, flags: map<string, bool>)
    requires forall n :: n in names ==> n in flags
    requires StrictlySorted(names)
    ensures StrictlySorted(Checked(names, flags))
    decreases |names|
  {
    if names != [] {
      var rest := Checked(names[1..], flags);
      CheckedSorted(names[1..], flags);
      assert StrictlySorted(names[1..]) by {
        forall i, j | 0 <= i < j < |names| - 1
          ensures StrLess(names[1..][i], names[1..][j])
        {
          assert StrLess(names[i + 1], names[j + 1]);
        }
      }
      if flags[names[0]] {
        var r := [names[0]] + rest;
        forall i, j | 0 <= i < j < |r|
          ensures StrLess(r[i], r[j])
        {
          if i == 0 {
            assert r[j] == rest[j - 1] && rest[j - 1] in names[1..];
            var k :| 0 <= k < |names| - 1 && names[1..][k] == r[j];
            assert StrLess(names[0], names[k + 1]);
          } else {
            assert r[i] == rest[i - 1] && r[j] == rest[j - 1];
          }
        }
      }
    }
  }

  /** With every flag cleared, nothing is selected. */
  lemma {:induction false} CheckedNone(names: seq<string>, flags: map<string, bool>)
    requires forall n :: n in names ==> n in flags && !flags[n]
    ensures Checked(names, flags) == []
    decreases |names|
  {
    if names != [] {
      CheckedNone(names[1..], flags);
    }
  }

  class InstallerGui {
    /** `os_type` and the home directory, fixed for the process. */
    const host: Host
    /** `APPLICATIONS`, the catalog the window was built from. */
    const catalog: Catalog
    /** The keys of `app_vars`, in insertion order. */
    const names: seq<string>
    /** `app_vars`: application name -> checkbox value. */
    var flags: map<string, bool>
    /** `status_text`: one entry per `log_message` call. */
    var log: seq<string>

    ghost predicate Valid()
      reads this`flags
    {
      (forall n :: n in names <==> n in flags) && StrictlySorted(names)
    }

    /** `__init__` with `create_ui`: one unchecked box per catalog application, in sorted order. */
    constructor (system: string, home: string)
      ensures Valid()
      ensures host == Host(DetectOs(system), home) && catalog == Applications && names == SortedNames
      ensures forall n :: n in flags <==> n in SortedNames
      ensures forall n :: n in flags ==> !flags[n]
      ensures log == []
    {
      host := Host(DetectOs(system), home);
      catalog := Applications;
      var order := SortedNames;
      names := order;
      var vars: map<string, bool> := map[];
      for i := 0 to |order|
        invariant forall n :: n in vars <==> n in order[..i]
        invariant forall n :: n in vars ==> !vars[n]
      {
        assert order[..i + 1] == order[..i] + [order[i]];
        vars := vars[order[i] := false];
      }
      assert order[..|order|] == order;
      flags := vars;
      log := [];
      SortedNamesAreSorted();
    }

    /** The list `start_installation` hands to the worker. */
    function Selected(): (r: seq<string>)
      reads this`flags
      requires Valid()
      ensures StrictlySorted(r)
      ensures forall x :: x in r <==> x in flags && flags[x]
    {
      CheckedSorted(names, flags);
      Checked(names, flags)
    }

    /** Sets every checkbox to `value`; the set of applications stays the same. */
    method SetAll(value: bool)
      requires Valid()
      modifies this`flags
      ensures Valid()
      ensures flags == map n | n in old(flags) :: value
    {
      for i := 0 to |names|
        invariant flags.Keys == old(flags).Keys
        invariant forall j :: 0 <= j < i ==> flags[names[j]] == value
      {
        flags := flags[names[i] := value];
      }
    }

    /** `select_all` */
    method SelectAll()
      requires Valid()
      modifies this`flags
      ensures Valid()
      ensures flags == map n | n in old(flags) :: true
      ensures Selected() == names
    {
      SetAll(true);
      CheckedAll(names, flags);
    }

    /** `deselect_all` */
    method DeselectAll()
      requires Valid()
      modifies this`flags
      ensures Valid()
      ensures flags == map n | n in old(flags) :: false
      ensures Selected() == []
    {
      SetAll(false);
      CheckedNone(names, flags);
    }

    /** `log_message` */
    method Log(message: string)
      modifies this`log
      ensures log == old(log) + [message]
    {
      log := log + [message];
    }

    /** `install_via_package_manager` */
    method InstallViaPackageManager(app: string, package: string)
      modifies this`log
      ensures log == old(log) + AptLines(app, package)
    {
      Log("Installing " + app + " via package manager...");
      Log(PackageLine(package));
      Log(Warn + "  This requires sudo privileges. Please run the following command manually:");
      Log("    " + AptCommand(package));
    }

    /** `install_via_homebrew`, with the `brew --version` probe's outcome as a parameter. */
    method InstallViaHomebrew(app: string, package: string, probe: BrewProbe) returns (escaped: Outcome)
      modifies this`log
      ensures log == old(log) + BrewStep(app, package, probe).lines
      ensures escaped == BrewStep(app, package, probe).escaped
    {
      Log("Installing " + app + " via Homebrew...");
      Log(PackageLine(package));
      match probe
      case BrewFound =>
        Log(Warn + "  Please run: " + BrewCommand(package));
        escaped := Returned;
      case BrewMissing =>
        Log(Cross + " Homebrew not found. Please install Homebrew first:");
        Log(BrewInstallHint);
        escaped := Returned;
      case ProbeRaised(message) =>
        escaped := Raised(message);
    }

    /** `install_via_snap` */
    method InstallViaSnap(app: string, package: string)
      modifies this`log
      ensures log == old(log) + SnapLines(app, package)
    {
      Log("Installing " + app + " via Snap...");
      Log(PackageLine(package));
      Log(Warn + "  Please run: " + SnapCommand(package));
    }

    /** The part of `download_and_install` after a successful fetch. */
    method OpenDownloaded(path: string, url: string, launch: Outcome)
      modifies this`log
      ensures log == old(log) + AfterFetch(host.os, path, url, launch)
    {
      match host.os
      case Windows =>
        Log(Info + "  Opening installer...");
        if launch.Raised? {
          Log(Cross + " Download failed: " + launch.message);
          Log(ManualLine(url));
        } else {
          Log(Check + " Installer launched. Please follow the installation wizard.");
        }
      case Mac =>
        Log(Info + "  Opening DMG file...");
        if launch.Raised? {
          Log(Cross + " Download failed: " + launch.message);
          Log(ManualLine(url));
        } else {
          Log(Check + " DMG opened. Please drag the app to Applications folder.");
        }
      case _ =>
        Log(Info + "  To install, run:");
        Log("    sudo dpkg -i " + path);
        Log("    sudo apt-get install -f");
    }

    /** `download_and_install`, with the directory creation, fetch and launch outcomes as parameters. */
    method DownloadAndInstall(app: string, url: string, eff: Effects) returns (escaped: Outcome)
      modifies this`log
      ensures log == old(log) + DownloadStep(host, app, url, eff).lines
      ensures escaped == DownloadStep(host, app, url, eff).escaped
    {
      var started := "Downloading " + app + "...";
      Log(started);
      DownloadStepLines(host, app, url, eff);
      if eff.makeDir.Raised? {
        return eff.makeDir;
      }
      var target := DownArrow + "  Downloading to: " + FilePath(host, app);
      Log(target);
      Fetch(app, url, eff);
      AppendAssociative(old(log) + [started], [target], FetchLines(host, app, url, eff));
      AppendAssociative(old(log), [started], [target] + FetchLines(host, app, url, eff));
      escaped := Returned;
    }

    /** The `try` block of `download_and_install`. */
    method Fetch(app: string, url: string, eff: Effects)
      modifies this`log
      ensures log == old(log) + FetchLines(host, app, url, eff)
    {
      if eff.fetch.Raised? {
        Log(Cross + " Download failed: " + eff.fetch.message);
        Log(ManualLine(url));
      } else {
        Log(Check + " Downloaded successfully!");
        OpenDownloaded(FilePath(host, app), url, eff.launch);
      }
    }

    /** `install_single_app` */
    method InstallSingleApp(app: string, spec: string, eff: Effects) returns (escaped: Outcome)
      modifies this`log
      ensures log == old(log) + InstallSingle(host, app, spec, eff).lines
      ensures escaped == InstallSingle(host, app, spec, eff).escaped
    {
      match ParseSpec(spec)
      case Apt(package) =>
        InstallViaPackageManager(app, package);
        escaped := Returned;
      case Brew(package) =>
        escaped := InstallViaHomebrew(app, package, eff.brewProbe);
      case Snap(package) =>
        InstallViaSnap(app, package);
        escaped := Returned;
      case Download(url) =>
        escaped := DownloadAndInstall(app, url, eff);
    }

    /** The `try`/`except` around `install_single_app` in the loop of `install_applications`. */
    method InstallGuarded(app: string, spec: string, eff: Effects)
      modifies this`log
      ensures log == old(log) + DispatchLog(host, app, spec, eff)
    {
      var escaped := InstallSingleApp(app, spec, eff);
      if escaped.Raised? {
        Log(ErrorInstallingLine(app, escaped.message));
      }
    }

    /** One iteration of the loop in `install_applications`. */
    method ProcessApplication(app: string, eff: Effects)
      modifies this`log
      ensures log == old(log) + AppLog(host, catalog, app, eff)
    {
      Log(ProcessingLine(app));
      AppLogByResolution(host, catalog, app, eff);
      match Resolve(catalog, app, TagName(host.os))
      case NotFound =>
        Log(NotFoundLine(app));
      case Unsupported =>
        Log(UnsupportedLine(app, TagName(host.os)));
      case Found(spec) =>
        InstallGuarded(app, spec, eff);
        AppendAssociative(old(log), [ProcessingLine(app)], DispatchLog(host, app, spec, eff));
    }

    /** The loop of `install_applications`: every selected name is processed, in order, whatever happens to the others. */
    method ProcessAll(selected: seq<string>, effects: nat -> Effects)
      modifies this`log
      ensures log == old(log) + AppsLog(host, catalog, selected, effects)
    {
      for i := 0 to |selected|
        invariant log == old(log) + AppsLog(host, catalog, selected[..i], effects)
      {
        ProcessApplication(selected[i], effects(i));
        AppsLogStep(host, catalog, selected, i, effects);
        AppendAssociative(old(log), AppsLog(host, catalog, selected[..i], effects),
                          AppLog(host, catalog, selected[i], effects(i)));
      }
      assert selected[..|selected|] == selected;
    }

    /** The three lines `install_applications` logs before the loop. */
    method LogHeader(count: nat)
      modifies this`log
      ensures log == old(log) + Header(count)
    {
      Log(Rule);
      Log(StartLine(count));
      Log(Rule);
    }

    /** The three lines `install_applications` logs after the loop. */
    method LogFooter()
      modifies this`log
      ensures log == old(log) + Footer
    {
      Log("\n" + Rule);
      Log("Installation process completed!");
      Log(Rule);
    }

    /** `install_applications`: `effects(i)` is what the host does while the i-th name is handled. */
    method InstallApplications(selected: seq<string>, effects: nat -> Effects)
      modifies this`log
      ensures log == old(log) + BatchLog(host, catalog, selected, effects)
    {
      LogHeader(|selected|);
      ProcessAll(selected, effects);
      LogFooter();
      AppendAssociative(old(log), Header(|selected|), AppsLog(host, catalog, selected, effects));
      AppendAssociative(old(log), Header(|selected|) + AppsLog(host, catalog, selected, effects), Footer);
    }

    /**
     * `start_installation`: nothing happens without a selection or without confirmation;
     * otherwise the log is cleared and the batch runs over a snapshot of the selection.
     */
    method StartInstallation(confirmed: bool, effects: nat -> Effects) returns (started: bool)
      requires Valid()
      modifies this`log
      ensures started <==> Selected() != [] && confirmed
      ensures started ==> log == BatchLog(host, catalog, Selected(), effects)
      ensures !started ==> log == old(log)
    {
      var selected := Selected();
      if selected == [] {
        return false;
      }
      if !confirmed {
        return false;
      }
      log := [];
      InstallApplications(selected, effects);
      started := true;
    }
  }
}
