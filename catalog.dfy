// The application catalog and the per-platform lookup that `install_applications`
// performs before dispatching an application.
module Catalog {
  import opened Platform

  /** Application name -> platform key -> acquisition spec string. */
  type Catalog = map<string, map<string, string>>

  /** One catalog entry: the spec string for each of the three platform keys. */
  function PlatformSpecs(windows: string, linux: string, mac: string): (entry: map<string, string>)
    ensures "windows" in entry && "linux" in entry && "mac" in entry && "unknown" !in entry
    ensures entry["windows"] == windows && entry["linux"] == linux && entry["mac"] == mac
  {
    map["windows" := windows, "linux" := linux, "mac" := mac]
  }

  /** An entry built by `PlatformSpecs` has no key besides the three platform keys. */
  lemma PlatformSpecsKeys()
    ensures forall windows, linux, mac :: PlatformSpecs(windows, linux, mac).Keys == {"windows", "linux", "mac"}
  {
  }

  // The entries of `APPLICATIONS`, one constant per application.
  const SevenZipSpecs := PlatformSpecs(
    "https://www.7-zip.org/a/7z2408-x64.exe",
    "package:p7zip-full",
    "brew:p7zip")
  const VisualStudioCodeSpecs := PlatformSpecs(
    "https://code.visualstudio.com/sha/download?build=stable&os=win32-x64-user",
    "https://code.visualstudio.com/sha/download?build=stable&os=linux-deb-x64",
    "https://code.visualstudio.com/sha/download?build=stable&os=darwin-universal")
  const VimSpecs := PlatformSpecs(
    "https://github.com/vim/vim-win32-installer/releases/download/v9.1.0000/gvim_9.1.0000_x64.exe",
    "package:vim",
    "brew:vim")
  const VlcMediaPlayerSpecs := PlatformSpecs(
    "https://get.videolan.org/vlc/3.0.21/win64/vlc-3.0.21-win64.exe",
    "package:vlc",
    "https://get.videolan.org/vlc/3.0.21/macosx/vlc-3.0.21-universal.dmg")
  const JavaJdkSpecs := PlatformSpecs(
    "https://download.oracle.com/java/21/latest/jdk-21_windows-x64_bin.exe",
    "package:openjdk-21-jdk",
    "brew:openjdk@21")
  const SteamSpecs := PlatformSpecs(
    "https://cdn.akamai.steamstatic.com/client/installer/SteamSetup.exe",
    "package:steam",
    "https://cdn.akamai.steamstatic.com/client/installer/steam.dmg")
  const SpotifySpecs := PlatformSpecs(
    "https://download.scdn.co/SpotifySetup.exe",
    "snap:spotify",
    "https://download.scdn.co/Spotify.dmg")
  const FirefoxSpecs := PlatformSpecs(
    "https://download.mozilla.org/?product=firefox-latest-ssl&os=win64&lang=en-US",
    "package:firefox",
    "https://download.mozilla.org/?product=firefox-latest-ssl&os=osx&lang=en-US")
  const DiscordSpecs := PlatformSpecs(
    "https://discord.com/api/downloads/distributions/app/installers/latest?channel=stable&platform=win&arch=x64",
    "https://discord.com/api/download?platform=linux&format=deb",
    "https://discord.com/api/download?platform=osx")

  /** `APPLICATIONS` */
  const Applications: Catalog := map[
    "7-Zip" := SevenZipSpecs,
    "Visual Studio Code" := VisualStudioCodeSpecs,
    "Vim" := VimSpecs,
    "VLC Media Player" := VlcMediaPlayerSpecs,
    "Java JDK" := JavaJdkSpecs,
    "Steam" := SteamSpecs,
    "Spotify" := SpotifySpecs,
    "Firefox" := FirefoxSpecs,
    "Discord" := DiscordSpecs
  ]

  /** `sorted(APPLICATIONS.keys())`, the order in which the checkboxes are created. */
  const SortedNames: seq<string> := [
    "7-Zip", "Discord", "Firefox", "Java JDK", "Spotify", "Steam",
    "VLC Media Player", "Vim", "Visual Studio Code"
  ]

  /** Python's string ordering: lexicographic by code point. */
  predicate StrLess(a: string, b: string) {
    if a == [] then b != []
    else if b == [] then false
    else a[0] < b[0] || (a[0] == b[0] && StrLess(a[1..], b[1..]))
  }

  /** Every name sorts strictly before every later one. */
  predicate StrictlySorted(s: seq<string>) {
    forall i, j :: 0 <= i < j < |s| ==> StrLess(s[i], s[j])
  }

  lemma {:induction false} StrLessTransitive(a: string, b: string, c: string)
    requires StrLess(a, b) && StrLess(b, c)
    ensures StrLess(a, c)
    decreases |a|
  {
    if a != [] && a[0] == b[0] && b[0] == c[0] {
      StrLessTransitive(a[1..], b[1..], c[1..]);
    }
  }

  /** A sequence sorted pair by pair is sorted. */
  lemma {:induction false} AdjacentSorted(s: seq<string>)
    requires forall i :: 0 < i < |s| ==> StrLess(s[i - 1], s[i])
    ensures StrictlySorted(s)
    decreases |s|
  {
    if |s| > 1 {
      var init := s[..|s| - 1];
      AdjacentSorted(init);
      forall i | 0 <= i < |s| - 1
        ensures StrLess(s[i], s[|s| - 1])
      {
        if i < |s| - 2 {
          assert StrLess(init[i], init[|s| - 2]);
          StrLessTransitive(s[i], s[|s| - 2], s[|s| - 1]);
        }
      }
    }
  }

  /** The checkbox order lists the catalog's applications ... */
  lemma SortedNamesAreKeys()
    ensures forall n :: n in Applications <==> n in SortedNames
  {
  }

  /** ... in sorted order, so each exactly once. */
  lemma SortedNamesAreSorted()
    ensures StrictlySorted(SortedNames)
  {
    assert StrLess("7-Zip", "Discord");
    assert StrLess("Discord", "Firefox");
    assert StrLess("Firefox", "Java JDK");
    assert StrLess("Java JDK", "Spotify");
    assert StrLess("Spotify", "Steam");
    assert StrLess("Steam", "VLC Media Player");
    assert StrLess("VLC Media Player", "Vim");
    assert StrLess("Vim", "Visual Studio Code");
    AdjacentSorted(SortedNames);
  }

  /** The three outcomes of the lookup at the top of the per-application loop. */
  datatype Resolution = NotFound | Unsupported | Found(spec: string)

  /**
   * `APPLICATIONS.get(app_name)` followed by `app_info.get(self.os_type)`; Python's
   * truthiness makes an empty per-application entry "not found" and an empty spec
   * string "not supported".
   */
  function Resolve(catalog: Catalog, app: string, platformKey: string): (r: Resolution)
    ensures r.NotFound? <==> app !in catalog || catalog[app] == map[]
    ensures r.Unsupported? <==> (app in catalog && catalog[app] != map[] &&
                                 (platformKey !in catalog[app] || catalog[app][platformKey] == ""))
    ensures r.Found? ==> app in catalog && platformKey in catalog[app]
                         && r.spec == catalog[app][platformKey] && r.spec != ""
  {
    if app !in catalog || catalog[app] == map[] then NotFound
    else if platformKey !in catalog[app] || catalog[app][platformKey] == "" then Unsupported
    else Found(catalog[app][platformKey])
  }

  /** An entry has exactly the three platform keys, each with a non-empty spec. */
  predicate EntryWellFormed(entry: map<string, string>) {
    entry.Keys == {"windows", "linux", "mac"} &&
    entry["windows"] != "" && entry["linux"] != "" && entry["mac"] != ""
  }

  predicate WellFormed(catalog: Catalog) {
    forall app :: app in catalog ==> EntryWellFormed(catalog[app])
  }

  /** Adding a well-formed entry to a well-formed catalog keeps it well formed. */
  lemma WellFormedInsert(catalog: Catalog, app: string, entry: map<string, string>)
    requires WellFormed(catalog) && EntryWellFormed(entry)
    ensures WellFormed(catalog[app := entry])
  {
  }

  // Each of the nine entries of `APPLICATIONS` has exactly the three platform keys, with
  // non-empty specs; three lemmas of three entries each, in catalog order.
  lemma LeadingSpecsWellFormed()
    ensures EntryWellFormed(SevenZipSpecs) && EntryWellFormed(VisualStudioCodeSpecs) && EntryWellFormed(VimSpecs)
  {
    PlatformSpecsKeys();
  }

  lemma MiddleSpecsWellFormed()
    ensures EntryWellFormed(VlcMediaPlayerSpecs) && EntryWellFormed(JavaJdkSpecs) && EntryWellFormed(SteamSpecs)
  {
    PlatformSpecsKeys();
  }

  lemma TrailingSpecsWellFormed()
    ensures EntryWellFormed(SpotifySpecs) && EntryWellFormed(FirefoxSpecs) && EntryWellFormed(DiscordSpecs)
  {
    PlatformSpecsKeys();
  }

  /** `APPLICATIONS` is well formed: it is built one well-formed entry at a time. */
  lemma ApplicationsWellFormed()
    ensures WellFormed(Applications)
  {
    LeadingSpecsWellFormed();
    MiddleSpecsWellFormed();
    TrailingSpecsWellFormed();
    var catalog: Catalog := map[];
    WellFormedInsert(catalog, "7-Zip", SevenZipSpecs);
    catalog := catalog["7-Zip" := SevenZipSpecs];
    WellFormedInsert(catalog, "Visual Studio Code", VisualStudioCodeSpecs);
    catalog := catalog["Visual Studio Code" := VisualStudioCodeSpecs];
    WellFormedInsert(catalog, "Vim", VimSpecs);
    catalog := catalog["Vim" := VimSpecs];
    WellFormedInsert(catalog, "VLC Media Player", VlcMediaPlayerSpecs);
    catalog := catalog["VLC Media Player" := VlcMediaPlayerSpecs];
    WellFormedInsert(catalog, "Java JDK", JavaJdkSpecs);
    catalog := catalog["Java JDK" := JavaJdkSpecs];
    WellFormedInsert(catalog, "Steam", SteamSpecs);
    catalog := catalog["Steam" := SteamSpecs];
    WellFormedInsert(catalog, "Spotify", SpotifySpecs);
    catalog := catalog["Spotify" := SpotifySpecs];
    WellFormedInsert(catalog, "Firefox", FirefoxSpecs);
    catalog := catalog["Firefox" := FirefoxSpecs];
    WellFormedInsert(catalog, "Discord", DiscordSpecs);
    catalog := catalog["Discord" := DiscordSpecs];
    assert catalog == Applications;
  }

  /** In a well-formed catalog, a known application resolves to its spec on the three platforms. */
  lemma ResolveKnownPlatform(catalog: Catalog, app: string, os: OsTag)
    requires WellFormed(catalog) && app in catalog && os != Unknown
    ensures Resolve(catalog, app, TagName(os)) == Found(catalog[app][TagName(os)])
  {
    assert TagName(os) in catalog[app].Keys;
  }

  /** In a well-formed catalog, every known application is unsupported on an unknown host. */
  lemma ResolveUnknownPlatform(catalog: Catalog, app: string)
    requires WellFormed(catalog) && app in catalog
    ensures Resolve(catalog, app, TagName(Unknown)) == Unsupported
  {
    assert "unknown" !in catalog[app].Keys;
  }

  /** The catalog's linux entry for 7-Zip is the apt package `p7zip-full`. */
  lemma SevenZipLinuxSpec()
    ensures Resolve(Applications, "7-Zip", TagName(Linux)) == Found("package:p7zip-full")
  {
    assert Applications["7-Zip"] == SevenZipSpecs;
  }
}
