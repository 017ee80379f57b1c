// The acquisition spec strings of the catalog: a package-manager prefix
// (`package:`, `brew:`, `snap:`) or a direct-download URL.
module Descriptor {
  import opened TextUtil

  /** What `install_single_app` dispatches on. */
  datatype Acquisition =
    | Apt(package: string)
    | Brew(package: string)
    | Snap(package: string)
    | Download(url: string)

  const AptPrefix := "package:"
  const BrewPrefix := "brew:"
  const SnapPrefix := "snap:"

  /** True when `spec` would be read as a package reference rather than a URL. */
  predicate HasPackagePrefix(spec: string) {
    HasPrefix(spec, AptPrefix) || HasPrefix(spec, BrewPrefix) || HasPrefix(spec, SnapPrefix)
  }

  /** The position of the first colon. */
  function FirstColon(s: string): (k: nat)
    requires ':' in s
    ensures k < |s| && s[k] == ':'
    ensures forall j :: 0 <= j < k ==> s[j] != ':'
  {
    if s[0] == ':' then 0 else 1 + FirstColon(s[1..])
  }

  /** `s.split(":", 1)[1]`: everything after the first colon. */
  function AfterFirstColon(s: string): string
    requires ':' in s
  {
    s[FirstColon(s) + 1..]
  }

  /** For a prefix whose only colon is its last character, the text after the first colon is the text after the prefix. */
  lemma AfterFirstColonOfPrefixed(s: string, p: string)
    requires HasPrefix(s, p) && |p| > 0 && p[|p| - 1] == ':'
    requires forall j :: 0 <= j < |p| - 1 ==> p[j] != ':'
    ensures ':' in s && AfterFirstColon(s) == s[|p|..]
  {
    assert s[|p| - 1] == s[..|p|][|p| - 1];
  }

  /** `install_single_app`'s dispatch: the first matching prefix wins; anything else is a URL. */
  function ParseSpec(spec: string): (a: Acquisition)
    ensures a.Apt? <==> HasPrefix(spec, AptPrefix)
    ensures a.Brew? <==> HasPrefix(spec, BrewPrefix)
    ensures a.Snap? <==> HasPrefix(spec, SnapPrefix)
    ensures a.Apt? ==> a.package == spec[|AptPrefix|..]
    ensures a.Brew? ==> a.package == spec[|BrewPrefix|..]
    ensures a.Snap? ==> a.package == spec[|SnapPrefix|..]
    ensures a.Download? <==> !HasPackagePrefix(spec)
    ensures a.Download? ==> a.url == spec
  {
    if HasPrefix(spec, AptPrefix) then
      AfterFirstColonOfPrefixed(spec, AptPrefix);
      Apt(AfterFirstColon(spec))
    else if HasPrefix(spec, BrewPrefix) then
      AfterFirstColonOfPrefixed(spec, BrewPrefix);
      Brew(AfterFirstColon(spec))
    else if HasPrefix(spec, SnapPrefix) then
      AfterFirstColonOfPrefixed(spec, SnapPrefix);
      Snap(AfterFirstColon(spec))
    else
      Download(spec)
  }

  /** The catalog's text for an acquisition: the inverse of `ParseSpec`. */
  function Serialize(a: Acquisition): string {
    match a
    case Apt(p) => AptPrefix + p
    case Brew(p) => BrewPrefix + p
    case Snap(p) => SnapPrefix + p
    case Download(url) => url
  }

  /** An acquisition that some spec string denotes: a URL never looks like a package reference. */
  predicate Representable(a: Acquisition) {
    a.Download? ==> !HasPackagePrefix(a.url)
  }

  /** Parsing the text of any representable acquisition gives it back, whatever the package name contains. */
  lemma ParseSerialize(a: Acquisition)
    requires Representable(a)
    ensures ParseSpec(Serialize(a)) == a
  {
    match a
    case Apt(p) => PrefixOfConcat(AptPrefix, p);
    case Brew(p) => PrefixOfConcat(BrewPrefix, p);
    case Snap(p) => PrefixOfConcat(SnapPrefix, p);
    case Download(url) =>
  }

  /** Every spec string is the text of what it parses to, so parsing loses nothing. */
  lemma SerializeParse(spec: string)
    ensures Representable(ParseSpec(spec))
    ensures Serialize(ParseSpec(spec)) == spec
  {
    var a := ParseSpec(spec);
    match a
    case Apt(p) => assert spec == spec[..|AptPrefix|] + spec[|AptPrefix|..];
    case Brew(p) => assert spec == spec[..|BrewPrefix|] + spec[|BrewPrefix|..];
    case Snap(p) => assert spec == spec[..|SnapPrefix|] + spec[|SnapPrefix|..];
    case Download(url) =>
  }

  /** Names such as `openjdk@21` or ones with further colons come back unchanged. */
  lemma PackageNameRoundTrip(name: string)
    ensures ParseSpec(AptPrefix + name) == Apt(name)
    ensures ParseSpec(BrewPrefix + name) == Brew(name)
    ensures ParseSpec(SnapPrefix + name) == Snap(name)
  {
    ParseSerialize(Apt(name));
    ParseSerialize(Brew(name));
    ParseSerialize(Snap(name));
  }

  /** The catalog's linux text for 7-Zip, `package:p7zip-full`, names the apt package `p7zip-full`. */
  lemma SevenZipSpecParses()
    ensures ParseSpec("package:p7zip-full") == Apt("p7zip-full")
  {
    PackageNameRoundTrip("p7zip-full");
    SevenZipSpecText();
  }

  lemma SevenZipSpecText()
    ensures AptPrefix + "p7zip-full" == "package:p7zip-full"
  {
  }
}
