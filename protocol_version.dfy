/**
 * Protocol-version handling for league.v2: `MAJOR.MINOR.PATCH` strings in the
 * style of section 2 of Semantic Versioning 2.0.0 (leading zeros accepted),
 * compatibility with the current version and the registration-time checks.
 */
module ProtocolVersion {
  import opened Wrappers
  import opened Text
  import opened JsonValue
  import Helpers

  const CurrentVersion: string := "2.1.0"
  const ProtocolName: string := "league.v2"
  const MinCompatibleVersion: string := "2.0.0"

  /** What `parse_version` makes of the two version constants (see `ConstantsParse`). */
  const CurrentInfo: VersionInfo := VersionInfo(2, 1, 0, CurrentVersion)
  const MinimumInfo: VersionInfo := VersionInfo(2, 0, 0, MinCompatibleVersion)

  datatype VersionInfo = VersionInfo(major: nat, minor: nat, patch: nat, raw: string)
  {
    function ToTuple(): (nat, nat, nat)
    {
      (major, minor, patch)
    }
  }

  predicate DigitRun(s: string)
  {
    s != [] && AllDigits(s)
  }

  /**
   * The three runs `^(\d+)\.(\d+)\.(\d+)$` captures. The pattern text holds
   * no '.' inside a digit run, so the runs are what lies around the first
   * two dots.
   */
  function VersionRuns(t: string): (r: Option<(string, string, string)>)
    ensures r.Some? ==> DigitRun(r.value.0) && DigitRun(r.value.1) && DigitRun(r.value.2)
    ensures r.Some? ==> t == r.value.0 + "." + r.value.1 + "." + r.value.2
  {
    if '.' !in t then None
    else
      var (a, rest) := SplitFirst(t, '.');
      if '.' !in rest then None
      else
        var (b, c) := SplitFirst(rest, '.');
        if DigitRun(a) && DigitRun(b) && DigitRun(c) then
          assert a + ['.'] + (b + ['.'] + c) == a + "." + b + "." + c;
          Some((a, b, c))
        else None
  }

  /** `parse_version`: the pattern must match the text up to one trailing newline. */
  function ParseVersion(v: string): (r: Option<VersionInfo>)
    ensures r.Some? ==> r.value.raw == v
  {
    match VersionRuns(Helpers.AnchoredText(v))
    case None => None
    case Some((a, b, c)) => Some(VersionInfo(DecimalValue(a), DecimalValue(b), DecimalValue(c), v))
  }

  /** Three digit runs joined by dots parse to their values, with or without one trailing newline. */
  lemma ParseVersionComplete(a: string, b: string, c: string, newline: bool)
    requires DigitRun(a) && DigitRun(b) && DigitRun(c)
    ensures var v := a + "." + b + "." + c + (if newline then "\n" else "");
      ParseVersion(v) == Some(VersionInfo(DecimalValue(a), DecimalValue(b), DecimalValue(c), v))
  {
    var core := a + "." + b + "." + c;
    VersionRunsJoin(a, b, c);
    AnchoredDropsNewline(core, newline);
  }

  /** The runs of three digit runs joined by dots are those runs. */
  lemma VersionRunsJoin(a: string, b: string, c: string)
    requires DigitRun(a) && DigitRun(b) && DigitRun(c)
    ensures VersionRuns(a + "." + b + "." + c) == Some((a, b, c))
  {
    var tail := b + ['.'] + c;
    assert a + ['.'] + tail == a + "." + b + "." + c;
    NoDotInDigits(a);
    NoDotInDigits(b);
    SplitFirstAfter(a, '.', tail);
    SplitFirstAfter(b, '.', c);
  }

  /** A text not ending in a newline is its own anchored text, and so is it plus one newline. */
  lemma AnchoredDropsNewline(core: string, newline: bool)
    requires core != [] && core[|core| - 1] != '\n'
    ensures Helpers.AnchoredText(core + (if newline then "\n" else "")) == core
  {
    var v := core + (if newline then "\n" else "");
    if newline {
      assert v[..|v| - 1] == core;
    } else {
      assert v == core;
    }
  }

  lemma NoDotInDigits(s: string)
    requires AllDigits(s)
    ensures '.' !in s
  {
    forall i | 0 <= i < |s|
      ensures s[i] != '.'
    {
      assert IsDigit(s[i]);
    }
  }

  /** Whatever parses is three digit runs joined by dots, up to one trailing newline. */
  lemma ParseVersionSound(v: string)
    requires ParseVersion(v).Some?
    ensures exists a, b, c ::
      DigitRun(a) && DigitRun(b) && DigitRun(c)
      && Helpers.AnchoredText(v) == a + "." + b + "." + c
      && ParseVersion(v).value.ToTuple() == (DecimalValue(a), DecimalValue(b), DecimalValue(c))
  {
    var (a, b, c) := VersionRuns(Helpers.AnchoredText(v)).value;
    assert ParseVersion(v).value.ToTuple() == (DecimalValue(a), DecimalValue(b), DecimalValue(c));
  }

  /** The two constants the module compares against parse to 2.1.0 and 2.0.0. */
  lemma ConstantsParse()
    ensures ParseVersion(CurrentVersion) == Some(CurrentInfo)
    ensures ParseVersion(MinCompatibleVersion) == Some(MinimumInfo)
  {
    CurrentParses(CurrentVersion);
    MinimumParses(MinCompatibleVersion);
  }

  lemma CurrentParses(v: string)
    requires v == CurrentVersion
    ensures ParseVersion(v) == Some(VersionInfo(2, 1, 0, v))
  {
    assert v == "2" + "." + "1" + "." + "0";
    ParsesAs(v, "2", "1", "0");
    SmallDigitValues();
  }

  lemma MinimumParses(v: string)
    requires v == MinCompatibleVersion
    ensures ParseVersion(v) == Some(VersionInfo(2, 0, 0, v))
  {
    assert v == "2" + "." + "0" + "." + "0";
    ParsesAs(v, "2", "0", "0");
    SmallDigitValues();
  }

  lemma SmallDigitValues()
    ensures DecimalValue("0") == 0 && DecimalValue("1") == 1 && DecimalValue("2") == 2
  {
  }

  lemma ParsesAs(v: string, a: string, b: string, c: string)
    requires DigitRun(a) && DigitRun(b) && DigitRun(c)
    requires v == a + "." + b + "." + c
    ensures ParseVersion(v) == Some(VersionInfo(DecimalValue(a), DecimalValue(b), DecimalValue(c), v))
  {
    ParseVersionComplete(a, b, c, false);
    assert v == a + "." + b + "." + c + "";
  }

  /** Python's tuple `>=`: lexicographic. */
  predicate TupleGe(x: (nat, nat, nat), y: (nat, nat, nat))
  {
    x.0 > y.0 || (x.0 == y.0 && (x.1 > y.1 || (x.1 == y.1 && x.2 >= y.2)))
  }

  /**
   * `is_compatible`: the major must equal the current one and the triple must
   * reach the minimum. The constants are parsed once, as `CurrentInfo` and
   * `MinimumInfo`; since both parse, the source's guard on them never fires.
   * The minimum 2.0.0 adds nothing to the major check.
   */
  function IsCompatible(v: string): (r: bool)
  {
    match ParseVersion(v)
    case None => false
    case Some(version) =>
      version.major == CurrentInfo.major && TupleGe(version.ToTuple(), MinimumInfo.ToTuple())
  }

  lemma IsCompatibleIff(v: string)
    ensures IsCompatible(v) <==> ParseVersion(v).Some? && ParseVersion(v).value.major == 2
  {
    match ParseVersion(v)
    case None =>
    case Some(version) =>
      assert version.major == 2 ==> TupleGe(version.ToTuple(), MinimumInfo.ToTuple());
  }

  /** `get_version_mismatch_error`. */
  function GetVersionMismatchError(v: string): (r: Option<string>)
    ensures r.None? <==> IsCompatible(v)
    ensures ParseVersion(v).None? ==> r == Some("Invalid version format: " + v)
    ensures ParseVersion(v).Some? && ParseVersion(v).value.major != 2 ==>
      r == Some("Major version mismatch: got " + Decimal(ParseVersion(v).value.major) + ", expected " + Decimal(2))
  {
    if IsCompatible(v) then None
    else
      match ParseVersion(v)
      case None => Some("Invalid version format: " + v)
      case Some(version) =>
        if version.major != CurrentInfo.major then
          Some("Major version mismatch: got " + Decimal(version.major)
               + ", expected " + Decimal(CurrentInfo.major))
        else
          Some("Version " + v + " is below minimum compatible version " + MinCompatibleVersion)
  }

  /** The "below minimum" message is never produced: every incompatible version fails to parse or has the wrong major. */
  lemma NeverBelowMinimum(v: string)
    ensures GetVersionMismatchError(v) != Some("Version " + v + " is below minimum compatible version " + MinCompatibleVersion)
  {
    IsCompatibleIff(v);
    var f := "Version " + v + " is below minimum compatible version " + MinCompatibleVersion;
    assert f[0] == 'V';
    match ParseVersion(v)
    case None =>
      var e := "Invalid version format: " + v;
      assert GetVersionMismatchError(v) == Some(e);
      assert e[0] == 'I';
    case Some(version) =>
      if version.major != 2 {
        var e := "Major version mismatch: got " + Decimal(version.major) + ", expected " + Decimal(2);
        assert GetVersionMismatchError(v) == Some(e);
        assert e[0] == 'M';
      }
  }

  /** Both version constants are compatible with the current protocol. */
  lemma CompatibleConstants(current: string, minimum: string)
    requires current == CurrentVersion && minimum == MinCompatibleVersion
    ensures IsCompatible(current) && IsCompatible(minimum)
  {
    ConstantsParse();
  }

  /** `validate_protocol_header`: a falsy (absent or empty) version is not checked. */
  predicate ValidateProtocolHeader(protocol: string, version: Option<string>)
  {
    if protocol != ProtocolName then false
    else if version.Some? && version.value != "" && !IsCompatible(version.value) then false
    else true
  }

  lemma ValidateProtocolHeaderIff(protocol: string, version: Option<string>)
    ensures ValidateProtocolHeader(protocol, version) <==>
      protocol == "league.v2"
      && (version == None || version == Some("")
          || (ParseVersion(version.value).Some? && ParseVersion(version.value).value.major == 2))
  {
  }

  /** `create_version_metadata`: the three advertised protocol facts. */
  function CreateVersionMetadata(): (m: map<string, Json>)
    ensures m.Keys == {"protocol_version", "min_compatible_version", "protocol"}
    ensures forall k | k in m :: m[k].JStr?
    ensures m["protocol"] == JStr(ProtocolName)
  {
    map["protocol_version" := JStr(CurrentVersion),
        "min_compatible_version" := JStr(MinCompatibleVersion),
        "protocol" := JStr(ProtocolName)]
  }

  /** An agent that echoes the advertised metadata back is accepted. */
  lemma AdvertisedVersionsCompatible()
    ensures IsCompatible(CreateVersionMetadata()["protocol_version"].s)
    ensures IsCompatible(CreateVersionMetadata()["min_compatible_version"].s)
    ensures ValidateProtocolHeader(CreateVersionMetadata()["protocol"].s, Some(CreateVersionMetadata()["protocol_version"].s))
  {
    var m := CreateVersionMetadata();
    CompatibleConstants(m["protocol_version"].s, m["min_compatible_version"].s);
  }

  /**
   * `check_agent_compatibility`. A truthy version that is not a string makes
   * the regex call raise `TypeError`: that is the `Err` outcome.
   */
  function CheckAgentCompatibility(agentMeta: map<string, Json>): (r: Result<(bool, string), string>)
    ensures !Truthy(Get(agentMeta, "protocol_version", JNull)) ==>
      r == Ok((true, "No version specified, assuming compatible"))
    ensures r.Err? <==> Truthy(Get(agentMeta, "protocol_version", JNull)) && !Get(agentMeta, "protocol_version", JNull).JStr?
    ensures Get(agentMeta, "protocol_version", JNull).JStr? && r.Ok? ==>
      r.value.0 == (Get(agentMeta, "protocol_version", JNull).s == "" || IsCompatible(Get(agentMeta, "protocol_version", JNull).s))
  {
    var version := Get(agentMeta, "protocol_version", JNull);
    if !Truthy(version) then Ok((true, "No version specified, assuming compatible"))
    else if !version.JStr? then Err("TypeError: expected string or bytes-like object")
    else if IsCompatible(version.s) then Ok((true, "Version " + version.s + " is compatible"))
    else
      var error := GetVersionMismatchError(version.s);
      Ok((false, if error.Some? && error.value != "" then error.value else "Unknown version error"))
  }

  /** An incompatible version's message is the mismatch error itself. */
  lemma IncompatibleMessage(agentMeta: map<string, Json>, v: string)
    requires "protocol_version" in agentMeta && agentMeta["protocol_version"] == JStr(v)
    requires v != "" && !IsCompatible(v)
    ensures CheckAgentCompatibility(agentMeta) == Ok((false, GetVersionMismatchError(v).value))
  {
    assert GetVersionMismatchError(v).value != "" by {
      var e := GetVersionMismatchError(v).value;
      if ParseVersion(v).None? {
        assert e == "Invalid version format: " + v;
      } else {
        assert |e| > 0;
      }
    }
  }
}
