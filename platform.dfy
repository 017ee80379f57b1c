// Platform detection: the host's system name becomes one of four tags.
module Platform {

  /** The value of `os_type`. */
  datatype OsTag = Windows | Linux | Mac | Unknown

  /** The text of the tag, as used for catalog keys and in log lines. */
  function TagName(t: OsTag): (s: string)
    ensures s in {"windows", "linux", "mac", "unknown"}
  {
    match t
    case Windows => "windows"
    case Linux => "linux"
    case Mac => "mac"
    case Unknown => "unknown"
  }

  lemma TagNameInjective(a: OsTag, b: OsTag)
    requires TagName(a) == TagName(b)
    ensures a == b
  {
  }

  function LowerChar(c: char): (d: char)
    ensures ('A' <= c <= 'Z') ==> d as int == c as int + 32
    ensures !('A' <= c <= 'Z') ==> d == c
  {
    if 'A' <= c <= 'Z' then (c as int + 32) as char else c
  }

  /** `str.lower()`, restricted to ASCII letters. */
  function Lower(s: string): (r: string)
    ensures |r| == |s| && forall i :: 0 <= i < |s| ==> r[i] == LowerChar(s[i])
  {
    seq(|s|, i requires 0 <= i < |s| => LowerChar(s[i]))
  }

  /** `detect_os`: the lower-cased system name decides the tag. */
  function DetectOs(system: string): (t: OsTag)
    ensures t == Windows <==> Lower(system) == "windows"
    ensures t == Linux <==> Lower(system) == "linux"
    ensures t == Mac <==> Lower(system) == "darwin"
    ensures t == Unknown <==> Lower(system) !in {"windows", "linux", "darwin"}
  {
    var name := Lower(system);
    if name == "windows" then Windows
    else if name == "linux" then Linux
    else if name == "darwin" then Mac
    else Unknown
  }

  /** Two system names that agree letter by letter up to ASCII case get the same tag. */
  lemma DetectOsIgnoresCase(a: string, b: string)
    requires |a| == |b|
    requires forall i :: 0 <= i < |a| ==> LowerChar(a[i]) == LowerChar(b[i])
    ensures DetectOs(a) == DetectOs(b)
  {
    assert Lower(a) == Lower(b);
  }

  /** The names `platform.system()` reports on the three supported hosts. */
  lemma DetectOsOfSystemNames()
    ensures DetectOs("Windows") == Windows
    ensures DetectOs("Linux") == Linux
    ensures DetectOs("Darwin") == Mac
    ensures DetectOs("FreeBSD") == Unknown
  {
    assert Lower("Windows") == "windows";
    assert Lower("Linux") == "linux";
    assert Lower("Darwin") == "darwin";
    assert Lower("FreeBSD")[0] == 'f';
  }
}
