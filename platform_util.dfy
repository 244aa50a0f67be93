/** PlatformUtil: which platform the JVM runs on, read from the system
    properties through a cache that remembers the first answer for each key. */
module PlatformUtil {
  import opened Base

  /** Lower-casing of one character; only the letters A to Z are mapped. */
  function LowerChar(c: char): (r: char)
    ensures 'A' <= c <= 'Z' ==> r as int == c as int + 32
    ensures !('A' <= c <= 'Z') ==> r == c
    ensures !('A' <= r <= 'Z')
  {
    if 'A' <= c <= 'Z' then (c as int + 32) as char else c
  }

  /** String.toLowerCase, restricted to the mapping of LowerChar. */
  function ToLower(s: string): (r: string)
    ensures |r| == |s|
    ensures forall i :: 0 <= i < |s| ==> r[i] == LowerChar(s[i])
  {
    seq(|s|, i requires 0 <= i < |s| => LowerChar(s[i]))
  }

  /** `t` occurs in `s` starting at index `i`. */
  predicate OccursAt(s: string, t: string, i: int)
  {
    0 <= i && i + |t| <= |s| && s[i..i + |t|] == t
  }

  /** String.contains: `t` occurs in `s` at some position. */
  predicate Contains(s: string, t: string)
  {
    exists i | 0 <= i <= |s| :: OccursAt(s, t, i)
  }

  /** The test of isWindows on a non-null value of "os.name". */
  predicate IsWindowsName(osName: string)
  {
    Contains(ToLower(osName), "windows")
  }

  /** isWindows, given the value the cache hands out for "os.name": a null
      value makes `toLowerCase` raise a NullPointerException. */
  function IsWindowsOf(osName: JString): (r: Result<bool>)
    ensures r.Failure? <==> osName.None?
    ensures r.Failure? ==> r.error == NullPointer
    ensures r.Success? ==> (r.value <==> IsWindowsName(osName.value))
  {
    match osName
    case None => Failure(NullPointer)
    case Some(name) => Success(IsWindowsName(name))
  }

  /** devNull, for the answer of isWindows. */
  function DevNullOf(windows: bool): File
  {
    if windows then File("nul") else File("/dev/null")
  }

  /** pathKey, for the answer of isWindows. */
  function PathKeyOf(windows: bool): string
  {
    if windows then "Path" else "PATH"
  }

  /** The value `computeIfAbsent(key, System::getProperty)` hands out: the
      cached one if there is one, the system property otherwise (null when the
      property is not set). */
  function CachedValue(cache: map<string, string>, system: map<string, string>, key: string): JString
  {
    if key in cache then Some(cache[key])
    else if key in system then Some(system[key])
    else None
  }

  /** Every entry of `before` is still in `after`, with the same value. */
  ghost predicate Keeps(before: map<string, string>, after: map<string, string>)
  {
    forall k | k in before :: k in after && after[k] == before[k]
  }

  /** ToLower maps the concatenation piecewise. */
  lemma ToLowerConcat(s: string, t: string)
    ensures ToLower(s + t) == ToLower(s) + ToLower(t)
  {
    assert forall i :: 0 <= i < |s + t| ==> ToLower(s + t)[i] == (ToLower(s) + ToLower(t))[i] by {
      forall i | 0 <= i < |s + t|
        ensures ToLower(s + t)[i] == (ToLower(s) + ToLower(t))[i]
      {
        if i < |s| {
          assert (s + t)[i] == s[i];
        } else {
          assert (s + t)[i] == t[i - |s|];
        }
      }
    }
  }

  /** Any name containing "windows" in any mix of upper- and lower-case ASCII
      letters is recognised as Windows, whatever surrounds it. */
  lemma NameContainingWindowsIsWindows(p: string, w: string, q: string)
    requires ToLower(w) == "windows"
    ensures IsWindowsName(p + w + q)
  {
    ToLowerConcat(p + w, q);
    ToLowerConcat(p, w);
    var low := ToLower(p + w + q);
    assert low == ToLower(p) + "windows" + ToLower(q);
    assert OccursAt(low, "windows", |p|);
  }

  /** Lower-casing the name first does not change the answer: the test does not
      depend on which letters are upper-case. */
  lemma IsWindowsNameIgnoresCase(osName: string)
    ensures IsWindowsName(ToLower(osName)) == IsWindowsName(osName)
  {
    assert ToLower(ToLower(osName)) == ToLower(osName);
  }

  /** The Windows name of the library's own tests. */
  lemma WindowsTenIsWindows()
    ensures IsWindowsName("Windows 10")
  {
    var w := ToLower("Windows");
    assert w[0] == 'w';
    assert w == "windows";
    NameContainingWindowsIsWindows("", "Windows", " 10");
    assert "" + "Windows" + " 10" == "Windows 10";
  }

  /** Names too short to hold "windows" are not Windows, such as the Linux
      name of the library's own tests. */
  lemma ShortNameIsNotWindows(osName: string)
    requires |osName| < 7
    ensures !IsWindowsName(osName)
  {
  }

  /** A name that is not Windows. */
  lemma MacIsNotWindows()
    ensures !IsWindowsName("Mac OS X")
  {
    var mac := ToLower("Mac OS X");
    assert mac[0] == 'm' && mac[1] == 'a';
    assert !OccursAt(mac, "windows", 0) && !OccursAt(mac, "windows", 1);
  }

  /** The choices devNull and pathKey make follow one and the same test. */
  lemma DevNullAndPathKeyAgree(windows: bool)
    ensures DevNullOf(windows) == File("nul") <==> PathKeyOf(windows) == "Path"
    ensures DevNullOf(windows) == File("/dev/null") <==> PathKeyOf(windows) == "PATH"
    ensures DevNullOf(windows) == File("nul") <==> windows
  {
  }

  /** The static state of PlatformUtil: its cache of system properties. The
      system properties themselves are a parameter of every call, since they
      can change between calls; the cache keeps the first answer. */
  class Platform {
    var cache: map<string, string>

    /** The class is loaded with an empty cache. */
    constructor ()
      ensures cache == map[]
    {
      cache := map[];
    }

    /** `cache.computeIfAbsent(key, System::getProperty)` */
    method Property(system: map<string, string>, key: string) returns (r: JString)
      modifies this
      ensures r == CachedValue(old(cache), system, key)
      ensures key in old(cache) ==> cache == old(cache)
      ensures key !in old(cache) && key in system ==> cache == old(cache)[key := system[key]]
      ensures key !in old(cache) && key !in system ==> cache == old(cache)
      ensures r.Some? ==> key in cache && cache[key] == r.value
    {
      if key in cache {
        r := Some(cache[key]);
      } else if key in system {
        cache := cache[key := system[key]];
        r := Some(system[key]);
      } else {
        r := None;
      }
    }

    /** isWindows */
    method IsWindows(system: map<string, string>) returns (r: Result<bool>)
      modifies this
      ensures r == IsWindowsOf(CachedValue(old(cache), system, "os.name"))
      ensures Keeps(old(cache), cache)
      ensures forall k | k in cache :: k in old(cache) || (k == "os.name" && k in system && cache[k] == system[k])
    {
      var osName := Property(system, "os.name");
      match osName
      case None =>
        r := Failure(NullPointer);
      case Some(name) =>
        r := Success(Contains(ToLower(name), "windows"));
    }

    /** isUnix: the negation of isWindows. */
    method IsUnix(system: map<string, string>) returns (r: Result<bool>)
      modifies this
      ensures var w := IsWindowsOf(CachedValue(old(cache), system, "os.name"));
        (r.Failure? <==> w.Failure?) && (r.Failure? ==> r.error == w.error) &&
        (r.Success? ==> r.value == !w.value)
      ensures Keeps(old(cache), cache)
      ensures forall k | k in cache :: k in old(cache) || (k == "os.name" && k in system && cache[k] == system[k])
    {
      var windows := IsWindows(system);
      match windows
      case Failure(e) =>
        r := Failure(e);
      case Success(w) =>
        r := Success(!w);
    }

    /** lineSeparator */
    method LineSeparator(system: map<string, string>) returns (r: JString)
      modifies this
      ensures r == CachedValue(old(cache), system, "line.separator")
      ensures Keeps(old(cache), cache)
    {
      r := Property(system, "line.separator");
    }

    /** pathSeparator */
    method PathSeparator(system: map<string, string>) returns (r: JString)
      modifies this
      ensures r == CachedValue(old(cache), system, "path.separator")
      ensures Keeps(old(cache), cache)
    {
      r := Property(system, "path.separator");
    }

    /** devNull */
    method DevNull(system: map<string, string>) returns (r: Result<File>)
      modifies this
      ensures var w := IsWindowsOf(CachedValue(old(cache), system, "os.name"));
        (r.Failure? <==> w.Failure?) && (r.Failure? ==> r.error == w.error) &&
        (r.Success? ==> r.value == DevNullOf(w.value))
      ensures Keeps(old(cache), cache)
    {
      var windows := IsWindows(system);
      match windows
      case Failure(e) =>
        r := Failure(e);
      case Success(w) =>
        if w {
          r := Success(File("nul"));
        } else {
          r := Success(File("/dev/null"));
        }
    }

    /** pathKey */
    method PathKey(system: map<string, string>) returns (r: Result<string>)
      modifies this
      ensures var w := IsWindowsOf(CachedValue(old(cache), system, "os.name"));
        (r.Failure? <==> w.Failure?) && (r.Failure? ==> r.error == w.error) &&
        (r.Success? ==> r.value == PathKeyOf(w.value))
      ensures Keeps(old(cache), cache)
    {
      var windows := IsWindows(system);
      match windows
      case Failure(e) =>
        r := Failure(e);
      case Success(w) =>
        if w {
          r := Success("Path");
        } else {
          r := Success("PATH");
        }
    }
  }

  /** Once "os.name" is cached, a later change of the system property does not
      change what isWindows answers. */
  lemma CachedOsNameIsFrozen(cache: map<string, string>, system1: map<string, string>, system2: map<string, string>)
    requires "os.name" in cache
    ensures IsWindowsOf(CachedValue(cache, system1, "os.name")) == IsWindowsOf(CachedValue(cache, system2, "os.name"))
    ensures IsWindowsOf(CachedValue(cache, system1, "os.name")) == Success(IsWindowsName(cache["os.name"]))
  {
  }
}
