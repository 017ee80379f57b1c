// The log of one installation batch, as a function of the selection, the
// catalog, the host and the per-application side-effect outcomes, and what it
// promises: framing, one section per selected application in input order, and
// no early stop.
module Orchestrator {
  import opened TextUtil
  import opened Platform
  import opened Catalog
  import opened Descriptor
  import opened Executor

  /** `"=" * 50` */
  const Rule := Repeat('=', 50)

  function StartLine(count: nat): string {
    "Starting installation for " + NatToString(count) + " application(s)..."
  }

  function Header(count: nat): seq<string> {
    [Rule, StartLine(count), Rule]
  }

  const Footer: seq<string> := ["\n" + Rule, "Installation process completed!", Rule]

  function ProcessingLine(app: string): string { ProcessingPrefix + app }
  function NotFoundLine(app: string): string { Cross + (" Error: No configuration found for " + app) }
  function UnsupportedLine(app: string, os: string): string { Cross + (" Error: " + app + " not supported on " + os) }
  function ErrorInstallingLine(app: string, message: string): (line: string)
    ensures IsErrorLine(line)
  {
    var rest := " Error installing " + app + ": " + message;
    LeadingElement(Cross, rest);
    Cross + rest
  }

  /** The section-start lines of a log, in order. */
  function ProcessingLines(log: seq<string>): seq<string> {
    if log == [] then []
    else (if IsProcessingLine(log[0]) then [log[0]] else []) + ProcessingLines(log[1..])
  }

  /** The section-start line of each application, in the order given. */
  function SectionStarts(apps: seq<string>): (r: seq<string>)
    ensures |r| == |apps| && forall i :: 0 <= i < |apps| ==> r[i] == ProcessingLine(apps[i])
  {
    if apps == [] then [] else SectionStarts(apps[..|apps| - 1]) + [ProcessingLine(apps[|apps| - 1])]
  }

  lemma {:induction false} ProcessingLinesAppend(a: seq<string>, b: seq<string>)
    ensures ProcessingLines(a + b) == ProcessingLines(a) + ProcessingLines(b)
  {
    if a == [] {
      assert a + b == b;
    } else {
      assert (a + b)[0] == a[0];
      assert (a + b)[1..] == a[1..] + b;
      ProcessingLinesAppend(a[1..], b);
    }
  }

  lemma {:induction false} ProcessingLinesNone(lines: seq<string>)
    requires NoProcessingLines(lines)
    ensures ProcessingLines(lines) == []
  {
    if lines != [] {
      ProcessingLinesNone(lines[1..]);
    }
  }

  /** Distinct applications get distinct section starts. */
  lemma ProcessingLineInjective(a: string, b: string)
    requires ProcessingLine(a) == ProcessingLine(b)
    ensures a == b
  {
    assert a == ProcessingLine(a)[|ProcessingPrefix|..];
  }

  /** Header and footer lines never start a section. */
  lemma FramingHasNoSections(count: nat)
    ensures NoProcessingLines(Header(count)) && NoProcessingLines(Footer)
  {
    NotProcessing(Rule);
    NotProcessing(StartLine(count));
    NotProcessing(Footer[1]);
    assert Footer[0][1] == '=';
  }

  /**
   * The `try`/`except` around a handler: the handler's lines, then "Error installing"
   * with the exception's text exactly when one escaped; nothing else is added.
   */
  function Guarded(app: string, step: Step): (r: seq<string>)
    ensures |step.lines| <= |r| && r[..|step.lines|] == step.lines
    ensures step.escaped.Returned? ==> r == step.lines
    ensures step.escaped.Raised? ==>
              |r| == |step.lines| + 1 && r[|r| - 1] == ErrorInstallingLine(app, step.escaped.message)
    ensures NoProcessingLines(step.lines) ==> NoProcessingLines(r)
  {
    if step.escaped.Raised? then
      var error := ErrorInstallingLine(app, step.escaped.message);
      NotProcessing(error);
      assert NoProcessingLines(step.lines) ==> NoProcessingLines(step.lines + [error]) by {
        if NoProcessingLines(step.lines) {
          NoProcessingLinesConcat(step.lines, [error]);
        }
      }
      step.lines + [error]
    else
      step.lines
  }

  /** `install_single_app` under that `try`: never starts with an error line, never starts a section. */
  function DispatchLog(host: Host, app: string, spec: string, eff: Effects): (r: seq<string>)
    ensures |r| >= 1 && !IsErrorLine(r[0])
    ensures NoProcessingLines(r)
  {
    var step := InstallSingle(host, app, spec, eff);
    assert step.lines[0] == step.lines[..|step.lines|][0];
    Guarded(app, step)
  }

  /**
   * One iteration of the loop in `install_applications`: the section start, then
   * exactly one of "no configuration", "not supported", or the dispatched handler.
   */
  function AppLog(host: Host, catalog: Catalog, app: string, eff: Effects): (r: seq<string>)
    ensures |r| >= 2 && r[0] == ProcessingLine(app)
    ensures NoProcessingLines(r[1..])
    ensures Resolve(catalog, app, TagName(host.os)).NotFound? <==> r[1..] == [NotFoundLine(app)]
    ensures Resolve(catalog, app, TagName(host.os)).Unsupported? <==>
              r[1..] == [UnsupportedLine(app, TagName(host.os))]
    ensures Resolve(catalog, app, TagName(host.os)).Found? ==>
              r[1..] == DispatchLog(host, app, Resolve(catalog, app, TagName(host.os)).spec, eff)
  {
    var os := TagName(host.os);
    var notFound := NotFoundLine(app);
    var unsupported := UnsupportedLine(app, os);
    assert |notFound| != |unsupported|;
    match Resolve(catalog, app, os)
    case NotFound =>
      NotProcessing(notFound);
      [ProcessingLine(app), notFound]
    case Unsupported =>
      NotProcessing(unsupported);
      [ProcessingLine(app), unsupported]
    case Found(spec) =>
      var lines := DispatchLog(host, app, spec, eff);
      assert ([ProcessingLine(app)] + lines)[1..] == lines;
      [ProcessingLine(app)] + lines
  }

  /** The section's lines after its start, by the lookup's outcome. */
  lemma AppLogByResolution(host: Host, catalog: Catalog, app: string, eff: Effects)
    ensures AppLog(host, catalog, app, eff) == [ProcessingLine(app)] +
      match Resolve(catalog, app, TagName(host.os))
      case NotFound => [NotFoundLine(app)]
      case Unsupported => [UnsupportedLine(app, TagName(host.os))]
      case Found(spec) => DispatchLog(host, app, spec, eff)
  {
  }

  /** The section of each application in the selection, in order. */
  function AppsLog(host: Host, catalog: Catalog, apps: seq<string>, effects: nat -> Effects): seq<string>
    decreases |apps|
  {
    if apps == [] then []
    else AppsLog(host, catalog, apps[..|apps| - 1], effects)
         + AppLog(host, catalog, apps[|apps| - 1], effects(|apps| - 1))
  }

  /** Handling one more name of the selection appends that name's section. */
  lemma AppsLogStep(host: Host, catalog: Catalog, apps: seq<string>, i: nat, effects: nat -> Effects)
    requires i < |apps|
    ensures AppsLog(host, catalog, apps[..i + 1], effects) ==
              AppsLog(host, catalog, apps[..i], effects) + AppLog(host, catalog, apps[i], effects(i))
  {
    assert apps[..i + 1][..i] == apps[..i];
  }

  /** `install_applications`: header, one section per selected name, footer. */
  function BatchLog(host: Host, catalog: Catalog, apps: seq<string>, effects: nat -> Effects): seq<string> {
    Header(|apps|) + AppsLog(host, catalog, apps, effects) + Footer
  }

  /** Each application contributes exactly one section start: its own, first. */
  lemma AppLogHasOneSection(host: Host, catalog: Catalog, app: string, eff: Effects)
    ensures ProcessingLines(AppLog(host, catalog, app, eff)) == [ProcessingLine(app)]
  {
    var r := AppLog(host, catalog, app, eff);
    assert r == [r[0]] + r[1..];
    ProcessingLinesAppend([r[0]], r[1..]);
    ProcessingLinesNone(r[1..]);
    assert ProcessingLines([r[0]]) == [r[0]];
  }

  /** The sections appear in the order of the selection, one per selected name. */
  lemma {:induction false} AppsLogSections(host: Host, catalog: Catalog, apps: seq<string>, effects: nat -> Effects)
    ensures ProcessingLines(AppsLog(host, catalog, apps, effects)) == SectionStarts(apps)
    ensures |AppsLog(host, catalog, apps, effects)| >= 2 * |apps|
    decreases |apps|
  {
    if apps != [] {
      var init, last := apps[..|apps| - 1], apps[|apps| - 1];
      AppsLogSections(host, catalog, init, effects);
      ProcessingLinesAppend(AppsLog(host, catalog, init, effects), AppLog(host, catalog, last, effects(|apps| - 1)));
      AppLogHasOneSection(host, catalog, last, effects(|apps| - 1));
    }
  }

  /**
   * The whole run: the header (with the count), one section per selected name in the
   * given order whatever each one's outcome, and the footer; the loop never stops early.
   */
  lemma BatchLogShape(host: Host, catalog: Catalog, apps: seq<string>, effects: nat -> Effects)
    ensures var log := BatchLog(host, catalog, apps, effects);
      && |log| >= 6 + 2 * |apps|
      && log[..3] == Header(|apps|)
      && log[|log| - 3..] == Footer
      && ProcessingLines(log) == SectionStarts(apps)
  {
    AppsLogSections(host, catalog, apps, effects);
    ConcatEnds(Header(|apps|), AppsLog(host, catalog, apps, effects), Footer);
    BatchLogSections(host, catalog, apps, effects);
  }

  /** The framing adds no section start, so the batch's section starts are those of its body. */
  lemma BatchLogSections(host: Host, catalog: Catalog, apps: seq<string>, effects: nat -> Effects)
    ensures ProcessingLines(BatchLog(host, catalog, apps, effects)) == SectionStarts(apps)
  {
    var body := AppsLog(host, catalog, apps, effects);
    AppsLogSections(host, catalog, apps, effects);
    FramingHasNoSections(|apps|);
    ProcessingLinesAppend(Header(|apps|) + body, Footer);
    ProcessingLinesAppend(Header(|apps|), body);
    ProcessingLinesNone(Header(|apps|));
    ProcessingLinesNone(Footer);
  }

  /** Processing a longer selection only appends: the log of a prefix of the selection is a prefix of the log. */
  lemma {:induction false} AppsLogExtends(host: Host, catalog: Catalog, apps: seq<string>, k: nat, effects: nat -> Effects)
    requires k <= |apps|
    ensures AppsLog(host, catalog, apps[..k], effects) <= AppsLog(host, catalog, apps, effects)
    decreases |apps| - k
  {
    if k < |apps| {
      AppsLogExtends(host, catalog, apps, k + 1, effects);
      AppsLogStep(host, catalog, apps, k, effects);
      PrefixOfConcatPrefix(AppsLog(host, catalog, apps[..k], effects), AppLog(host, catalog, apps[k], effects(k)),
                           AppsLog(host, catalog, apps, effects));
    } else {
      assert apps[..k] == apps;
    }
  }

  /** On an unknown host a well-formed catalog supports nothing: each section is two lines. */
  lemma UnknownHostSkipsEverything(home: string, catalog: Catalog, app: string, eff: Effects)
    requires WellFormed(catalog)
    ensures AppLog(Host(Unknown, home), catalog, app, eff) ==
              [ProcessingLine(app), if app in catalog then UnsupportedLine(app, "unknown") else NotFoundLine(app)]
  {
    var r := AppLog(Host(Unknown, home), catalog, app, eff);
    if app in catalog {
      ResolveUnknownPlatform(catalog, app);
    }
    assert r == [r[0]] + r[1..];
  }

  lemma {:induction false} UnknownHostBatchLength(home: string, catalog: Catalog, apps: seq<string>, effects: nat -> Effects)
    requires WellFormed(catalog)
    ensures |BatchLog(Host(Unknown, home), catalog, apps, effects)| == 6 + 2 * |apps|
    decreases |apps|
  {
    if apps != [] {
      var init := apps[..|apps| - 1];
      UnknownHostBatchLength(home, catalog, init, effects);
      UnknownHostSkipsEverything(home, catalog, apps[|apps| - 1], effects(|apps| - 1));
    }
  }

  /** An application whose spec is an apt package gets exactly the apt instructions, whatever the host does. */
  lemma AptSection(host: Host, catalog: Catalog, app: string, package: string, eff: Effects)
    requires Resolve(catalog, app, TagName(host.os)).Found?
    requires ParseSpec(Resolve(catalog, app, TagName(host.os)).spec) == Apt(package)
    ensures AppLog(host, catalog, app, eff) == [ProcessingLine(app)] + AptLines(app, package)
  {
    var r := AppLog(host, catalog, app, eff);
    assert r == [r[0]] + r[1..];
  }

  /** On linux, 7-Zip's section only shows the apt command for `p7zip-full`. */
  lemma SevenZipOnLinux(home: string, eff: Effects)
    ensures AppLog(Host(Linux, home), Applications, "7-Zip", eff) ==
              [ProcessingLine("7-Zip")] + AptLines("7-Zip", "p7zip-full")
  {
    SevenZipLinuxSpec();
    SevenZipSpecParses();
    AptSection(Host(Linux, home), Applications, "7-Zip", "p7zip-full", eff);
  }
}
