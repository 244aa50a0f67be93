/** SalmonConfig: the library's settings, read once from "salmon.properties".
    The file found through the class loader wins; without one the copy shipped
    next to SalmonConfig is read. The only setting is "auto.msdos". */
module Config {
  import opened Base
  import opened PlatformUtil

  /** What a `getResourceAsStream` call finds: no resource (a null stream), one
      whose entries load, or one that fails with an IOException after the
      entries in `props` were loaded. Parsing the properties format is not
      modelled; a resource is given by its entries. */
  datatype Resource = Missing | Readable(props: map<string, string>) | Unreadable(props: map<string, string>)

  /** The variable `prop` after initialize, and how initialize ends. */
  function InitializeSpec(primary: Resource, fallback: Resource): (r: (map<string, string>, Outcome))
    ensures r.1.Raised? <==> primary.Missing? && fallback.Missing?
    ensures r.1.Raised? ==> r.1.exc == NullPointer && r.0 == map[]
    ensures !primary.Missing? ==> r.0 == primary.props
    ensures primary.Missing? && !fallback.Missing? ==> r.0 == fallback.props
  {
    if !primary.Missing? then (primary.props, Normal)
    else if !fallback.Missing? then (fallback.props, Normal)
    else (map[], Raised(NullPointer))
  }

  /** String.equalsIgnoreCase, character by character; case is folded on the
      letters A to Z only. */
  predicate EqualsIgnoreCase(s: string, t: string)
  {
    |s| == |t| && forall i :: 0 <= i < |s| ==> s[i] == t[i] || LowerChar(s[i]) == LowerChar(t[i])
  }

  /** Boolean.valueOf(String) on a non-null string. */
  predicate ParseBoolean(s: string)
  {
    EqualsIgnoreCase(s, "true")
  }

  /** Properties.getProperty(key, defaultValue) */
  function GetProperty(props: map<string, string>, key: string, defaultValue: string): (r: string)
    ensures key in props ==> r == props[key]
    ensures key !in props ==> r == defaultValue
  {
    if key in props then props[key] else defaultValue
  }

  /** isAutoMSDos for the value of `prop` (None before initialize). */
  function AutoMSDosOf(prop: Option<map<string, string>>): (r: bool)
    ensures r <==> prop.Some? && "auto.msdos" in prop.value && ToLower(prop.value["auto.msdos"]) == "true"
  {
    FalseIsNotTrue();
    if prop.Some? then
      ParseBooleanIsLowerTrue(GetProperty(prop.value, "auto.msdos", "false"));
      ParseBoolean(GetProperty(prop.value, "auto.msdos", "false"))
    else false
  }

  /** Boolean.valueOf accepts exactly the spellings of "true" in any case. */
  lemma ParseBooleanIsLowerTrue(s: string)
    ensures ParseBoolean(s) <==> ToLower(s) == "true"
  {
    if ParseBoolean(s) {
      forall i | 0 <= i < |s|
        ensures ToLower(s)[i] == "true"[i]
      {
        assert LowerChar("true"[i]) == "true"[i];
      }
    }
    if ToLower(s) == "true" {
      forall i | 0 <= i < |s|
        ensures LowerChar(s[i]) == LowerChar("true"[i])
      {
        assert LowerChar(s[i]) == ToLower(s)[i];
      }
    }
  }

  /** The default value of getProperty reads as false. */
  lemma FalseIsNotTrue()
    ensures !ParseBoolean("false")
  {
    assert LowerChar("false"[0]) != LowerChar("true"[0]);
  }

  /** The settings files of the library's own tests: "true" switches the
      setting on; a missing entry or a value that is not a boolean leaves it off. */
  lemma AutoMSDosSettings()
    ensures AutoMSDosOf(Some(map["auto.msdos" := "true"]))
    ensures AutoMSDosOf(Some(map["auto.msdos" := "TRUE"]))
    ensures !AutoMSDosOf(Some(map[]))
    ensures !AutoMSDosOf(Some(map["auto.msdos" := "hoge"]))
    ensures !AutoMSDosOf(Some(map["auto.msdos" := "yes"]))
    ensures !AutoMSDosOf(None)
  {
    assert ToLower("TRUE") == "true" by {
      assert ToLower("TRUE")[0] == 't';
    }
    assert ToLower("hoge")[0] == 'h';
    assert ToLower("yes")[0] == 'y';
  }

  /** A settings file on the class path wins over the shipped default, whether
      or not it reads completely. */
  lemma PrimaryResourceWins(props: map<string, string>, fallback: Resource)
    ensures InitializeSpec(Readable(props), fallback) == (props, Normal)
    ensures InitializeSpec(Unreadable(props), fallback) == (props, Normal)
  {
  }

  /** Without any settings file initialize raises a NullPointerException, and
      the setting reads as off afterwards. */
  lemma NoResourceRaises()
    ensures InitializeSpec(Missing, Missing).1 == Raised(NullPointer)
    ensures !AutoMSDosOf(Some(InitializeSpec(Missing, Missing).0))
  {
  }

  /** The static state of SalmonConfig. */
  class SalmonConfig {
    /** The static field `prop`; None is null, its value before initialize. */
    var prop: Option<map<string, string>>

    constructor ()
      ensures prop == None
    {
      prop := None;
    }

    /** initialize, with the resource the class loader finds and the one next
        to the class. The IOException of a resource that fails to read is
        swallowed; the NullPointerException of `load(null)` is not. */
    method Initialize(primary: Resource, fallback: Resource) returns (out: Outcome)
      modifies this
      ensures var spec := InitializeSpec(primary, fallback);
        prop == Some(spec.0) && out == spec.1
    {
      prop := Some(map[]);
      out := Normal;
      match primary
      case Readable(props) =>
        prop := Some(props);
      case Unreadable(props) =>
        prop := Some(props);
      case Missing =>
        // loadDefault
        match fallback
        case Readable(props) =>
          prop := Some(props);
        case Unreadable(props) =>
          prop := Some(props);
        case Missing =>
          out := Raised(NullPointer);
    }

    /** isAutoMSDos */
    function IsAutoMSDos(): (r: bool)
      reads this
      ensures r == AutoMSDosOf(prop)
    {
      prop.Some? && ParseBoolean(GetProperty(prop.value, "auto.msdos", "false"))
    }
  }
}
