/**
 * The hand-written checks of the build-profile schema of `eas.json`: the
 * version check used for tool versions (`node`, `yarn`, `ndk`, ...), the
 * channel-name pattern, the cache-key length bound and the enumerated fields.
 * The schema library's own machinery is not modelled; each field is a string
 * predicate, and each regular expression is run by a small recogniser whose
 * equivalence with a declarative description is proved.
 */
module BuildProfileSchema {
  import opened Wrappers

  /** Why a field value is refused. */
  datatype FieldError =
    | InvalidVersion(message: string)
    | PatternMismatch(value: string)
    | EmptyString
    | TooLong(length: nat)
    | NotAllowed(value: string)

  predicate IsDigit(c: char) {
    '0' <= c <= '9'
  }

  /** One or more decimal digits. */
  predicate IsDigits(s: string) {
    |s| > 0 && forall i :: 0 <= i < |s| ==> IsDigit(s[i])
  }

  /** `s` is `digits.digits.digits` with its two dots at `i` and `j`. */
  predicate IsTripleAt(s: string, i: int, j: int) {
    0 < i < j < |s| - 1 && s[i] == '.' && s[j] == '.'
    && IsDigits(s[..i]) && IsDigits(s[i + 1..j]) && IsDigits(s[j + 1..])
  }

  /** Three non-empty digit runs separated by two dots, and nothing else. */
  ghost predicate IsVersionTriple(s: string) {
    exists i, j :: IsTripleAt(s, i, j)
  }

  /**
   * A recogniser for `^[0-9]+\.[0-9]+\.[0-9]+$`: `dots` dots read so far, and
   * whether the current run has a digit in it.
   */
  function MatchVersionFrom(s: string, dots: nat, inRun: bool): bool
    decreases |s|
  {
    if s == [] then dots == 2 && inRun
    else if IsDigit(s[0]) then MatchVersionFrom(s[1..], dots, true)
    else if s[0] == '.' && inRun && dots < 2 then MatchVersionFrom(s[1..], dots + 1, false)
    else false
  }

  /** Whether the version pattern matches the whole of `s`. */
  function MatchesVersionPattern(s: string): bool {
    MatchVersionFrom(s, 0, false)
  }

  /** In the last run, the recogniser accepts exactly a digit string (non-empty unless a digit was already read). */
  lemma {:induction false} LastRun(s: string, inRun: bool)
    ensures MatchVersionFrom(s, 2, inRun) <==> (forall k :: 0 <= k < |s| ==> IsDigit(s[k])) && (inRun || |s| > 0)
    decreases |s|
  {
    if s != [] {
      LastRun(s[1..], true);
      if IsDigit(s[0]) {
        forall k | 0 < k < |s| ensures s[k] == s[1..][k - 1] { }
      }
    }
  }

  /** Before the last run, an accepted string has digits up to a dot, then an accepted rest. */
  lemma {:induction false} FirstDot(s: string, dots: nat, inRun: bool) returns (j: nat)
    requires dots < 2 && MatchVersionFrom(s, dots, inRun)
    ensures j < |s| && s[j] == '.' && (inRun || j > 0)
    ensures forall k :: 0 <= k < j ==> IsDigit(s[k])
    ensures MatchVersionFrom(s[j + 1..], dots + 1, false)
    decreases |s|
  {
    if IsDigit(s[0]) {
      var j' := FirstDot(s[1..], dots, true);
      j := j' + 1;
      assert s[j + 1..] == s[1..][j' + 1..];
      forall k | 0 < k < j ensures IsDigit(s[k]) {
        assert s[k] == s[1..][k - 1];
      }
    } else {
      j := 0;
    }
  }

  /** Conversely, digits up to a dot followed by an accepted rest are accepted. */
  lemma {:induction false} ThroughDot(s: string, dots: nat, inRun: bool, j: nat)
    requires dots < 2
    requires j < |s| && s[j] == '.' && (inRun || j > 0)
    requires forall k :: 0 <= k < j ==> IsDigit(s[k])
    requires MatchVersionFrom(s[j + 1..], dots + 1, false)
    ensures MatchVersionFrom(s, dots, inRun)
    decreases j
  {
    if j > 0 {
      assert s[1..][j - 1 + 1..] == s[j + 1..];
      forall k | 0 <= k < j - 1 ensures IsDigit(s[1..][k]) {
        assert s[1..][k] == s[k + 1];
      }
      ThroughDot(s[1..], dots, true, j - 1);
    } else {
      assert s[1..] == s[j + 1..];
    }
  }

  /** Every string the recogniser accepts is a version triple. */
  lemma AcceptedIsTriple(s: string)
    requires MatchesVersionPattern(s)
    ensures IsVersionTriple(s)
  {
    var i := FirstDot(s, 0, false);
    var t := s[i + 1..];
    var j' := FirstDot(t, 1, false);
    var j := i + 1 + j';
    assert t[j' + 1..] == s[j + 1..];
    LastRun(s[j + 1..], false);
    assert s[i + 1..j] == t[..j'];
    assert IsDigits(s[..i]);
    assert IsDigits(s[i + 1..j]);
    assert IsTripleAt(s, i, j);
  }

  /** Every version triple is accepted by the recogniser. */
  lemma TripleIsAccepted(s: string)
    requires IsVersionTriple(s)
    ensures MatchesVersionPattern(s)
  {
    var i, j :| IsTripleAt(s, i, j);
    var t := s[i + 1..];
    var j' := j - i - 1;
    assert t[j' + 1..] == s[j + 1..];
    LastRun(s[j + 1..], false);
    forall k | 0 <= k < j' ensures IsDigit(t[k]) {
      assert t[k] == s[i + 1..j][k];
    }
    ThroughDot(t, 1, false, j');
    forall k | 0 <= k < i ensures IsDigit(s[k]) {
      assert s[k] == s[..i][k];
    }
    ThroughDot(s, 0, false, i);
  }

  /** The recogniser accepts exactly the version triples. */
  lemma VersionPatternIsTriple(s: string)
    ensures MatchesVersionPattern(s) <==> IsVersionTriple(s)
  {
    if MatchesVersionPattern(s) { AcceptedIsTriple(s); }
    if IsVersionTriple(s) { TripleIsAccepted(s); }
  }

  /**
   * The version check: the value is handed back unchanged when the whole of it
   * is `digits.digits.digits`, and refused with "<value> is not a valid
   * version" otherwise.
   */
  function SemverSchemaCheck(value: string): (r: Result<string, FieldError>)
    ensures r.Success? <==> IsVersionTriple(value)
    ensures r.Success? ==> r.value == value
    ensures r.Failure? ==> r.error == InvalidVersion(value + " is not a valid version")
  {
    VersionPatternIsTriple(value);
    if MatchesVersionPattern(value) then Success(value)
    else Failure(InvalidVersion(value + " is not a valid version"))
  }

  /** The number of dots in `s`. */
  function DotCount(s: string): nat {
    if s == [] then 0 else (if s[0] == '.' then 1 else 0) + DotCount(s[1..])
  }

  lemma {:induction false} DotCountSplit(s: string, i: nat)
    requires i < |s|
    ensures DotCount(s) == DotCount(s[..i]) + (if s[i] == '.' then 1 else 0) + DotCount(s[i + 1..])
  {
    if i > 0 {
      DotCountSplit(s[1..], i - 1);
      assert s[1..][..i - 1] == s[1..i];
      assert s[1..][i - 1 + 1..] == s[i + 1..];
      assert s[..i][1..] == s[1..i];
    }
  }

  lemma {:induction false} DigitsHaveNoDot(s: string)
    requires forall k :: 0 <= k < |s| ==> IsDigit(s[k])
    ensures DotCount(s) == 0
  {
    if s != [] {
      DigitsHaveNoDot(s[1..]);
    }
  }

  /** A triple has exactly two dots. */
  lemma TripleDotCount(value: string, i: int, j: int)
    requires IsTripleAt(value, i, j)
    ensures DotCount(value) == 2
  {
    var rest := value[i + 1..];
    DotCountSplit(value, i);
    DotCountSplit(rest, j - i - 1);
    assert rest[..j - i - 1] == value[i + 1..j];
    assert rest[j - i - 1 + 1..] == value[j + 1..];
    DigitsHaveNoDot(value[..i]);
    DigitsHaveNoDot(value[i + 1..j]);
    DigitsHaveNoDot(value[j + 1..]);
  }

  /** Apart from its dots, a triple is digits. */
  lemma TripleCharacters(value: string, i: int, j: int)
    requires IsTripleAt(value, i, j)
    ensures forall k :: 0 <= k < |value| ==> value[k] == '.' || IsDigit(value[k])
  {
    forall k | 0 <= k < |value| ensures value[k] == '.' || IsDigit(value[k]) {
      if k < i { assert value[k] == value[..i][k]; }
      else if i < k < j { assert value[k] == value[i + 1..j][k - i - 1]; }
      else if j < k { assert value[k] == value[j + 1..][k - j - 1]; }
    }
  }

  /** An accepted version has exactly two dots and otherwise only digits. */
  lemma AcceptedVersionShape(value: string)
    requires SemverSchemaCheck(value).Success?
    ensures DotCount(value) == 2
    ensures forall k :: 0 <= k < |value| ==> value[k] == '.' || IsDigit(value[k])
  {
    var i, j :| IsTripleAt(value, i, j);
    TripleDotCount(value, i, j);
    TripleCharacters(value, i, j);
  }

  /** `[a-z\d]`: a lower-case ASCII letter or a digit. */
  predicate IsChannelHead(c: char) {
    'a' <= c <= 'z' || IsDigit(c)
  }

  /** `[a-z\d._-]`. */
  predicate IsChannelTail(c: char) {
    IsChannelHead(c) || c == '.' || c == '_' || c == '-'
  }

  /** A recogniser for the rest of `^[a-z\d][a-z\d._-]*$` after its first character. */
  function MatchChannelTail(s: string): bool {
    s == [] || (IsChannelTail(s[0]) && MatchChannelTail(s[1..]))
  }

  /** Whether `^[a-z\d][a-z\d._-]*$` matches the whole of `s`. */
  function MatchesChannelPattern(s: string): bool {
    s != [] && IsChannelHead(s[0]) && MatchChannelTail(s[1..])
  }

  lemma {:induction false} ChannelTailAll(s: string)
    ensures MatchChannelTail(s) <==> forall k :: 0 <= k < |s| ==> IsChannelTail(s[k])
  {
    if s != [] {
      ChannelTailAll(s[1..]);
      forall k | 0 < k < |s| ensures s[k] == s[1..][k - 1] { }
    }
  }

  /**
   * `channel` and `releaseChannel`: accepted exactly when non-empty, with a
   * first character in [a-z0-9] and every later one in [a-z0-9._-].
   */
  function ValidateChannel(value: string): (r: Result<string, FieldError>)
    ensures r.Success? <==>
              |value| > 0 && IsChannelHead(value[0]) && forall k :: 1 <= k < |value| ==> IsChannelTail(value[k])
    ensures r.Success? ==> r.value == value
  {
    if value == [] then Failure(EmptyString)
    else
      ChannelTailAll(value[1..]);
      assert forall k :: 1 <= k < |value| ==> value[k] == value[1..][k - 1];
      if MatchesChannelPattern(value) then Success(value) else Failure(PatternMismatch(value))
  }

  /** The longest cache key accepted. */
  const CACHE_KEY_MAX_LENGTH: nat := 128

  /** A cache `key`: a non-empty string of at most 128 characters. */
  function ValidateCacheKey(key: string): (r: Result<string, FieldError>)
    ensures r.Success? <==> 0 < |key| <= CACHE_KEY_MAX_LENGTH
    ensures r.Success? ==> r.value == key
    ensures |key| > CACHE_KEY_MAX_LENGTH ==> r == Failure(TooLong(|key|))
  {
    if key == [] then Failure(EmptyString)
    else if |key| > CACHE_KEY_MAX_LENGTH then Failure(TooLong(|key|))
    else Success(key)
  }

  /**
   * A field restricted to a list of strings, with an optional default for
   * when the field is absent.
   */
  function ValidateAllowed(allowed: seq<string>, value: Option<string>, default: Option<string>)
    : (r: Result<Option<string>, FieldError>)
    ensures value.None? ==> r == Success(default)
    ensures value.Some? ==> (r.Success? <==> value.value in allowed)
    ensures value.Some? && r.Success? ==> r.value == value
  {
    match value
    case None => Success(default)
    case Some(v) => if v in allowed then Success(value) else Failure(NotAllowed(v))
  }

  /** `credentialsSource` of the common profile: 'local' or 'remote', 'remote' by default. */
  function ValidateCredentialsSource(value: Option<string>): (r: Result<Option<string>, FieldError>)
    ensures r.Success? <==> value.None? || value.value == "local" || value.value == "remote"
    ensures r.Success? ==> r.value == Some(value.GetOr("remote"))
  {
    ValidateAllowed(["local", "remote"], value, Some("remote"))
  }

  /** `distribution` of the common profile: 'store' or 'internal', 'store' by default. */
  function ValidateDistribution(value: Option<string>): (r: Result<Option<string>, FieldError>)
    ensures r.Success? <==> value.None? || value.value == "store" || value.value == "internal"
    ensures r.Success? ==> r.value == Some(value.GetOr("store"))
  {
    ValidateAllowed(["store", "internal"], value, Some("store"))
  }

  /** Android `buildType`: 'apk' or 'app-bundle'; absent stays absent. */
  function ValidateBuildType(value: Option<string>): (r: Result<Option<string>, FieldError>)
    ensures r.Success? <==> value.None? || value.value == "apk" || value.value == "app-bundle"
    ensures r.Success? ==> r.value == value
  {
    ValidateAllowed(["apk", "app-bundle"], value, None)
  }

  /** iOS `enterpriseProvisioning`: 'adhoc' or 'universal'; absent stays absent. */
  function ValidateEnterpriseProvisioning(value: Option<string>): (r: Result<Option<string>, FieldError>)
    ensures r.Success? <==> value.None? || value.value == "adhoc" || value.value == "universal"
    ensures r.Success? ==> r.value == value
  {
    ValidateAllowed(["adhoc", "universal"], value, None)
  }

  /** The two platform sections of a build profile. */
  datatype BuildPlatform = AndroidProfile | IosProfile

  /** `autoIncrement` is either a boolean or a string. */
  datatype AutoIncrement = Flag(enabled: bool) | Named(name: string)

  /** The named increments each platform allows. */
  function AutoIncrementNames(platform: BuildPlatform): seq<string> {
    match platform
    case AndroidProfile => ["version", "versionCode"]
    case IosProfile => ["version", "buildNumber"]
  }

  /** ASCII upper-case letters to lower case; every other character is kept. */
  function AsciiLower(c: char): (d: char)
    ensures 'A' <= c <= 'Z' ==> d as int == c as int + 32
    ensures !('A' <= c <= 'Z') ==> d == c
  {
    if 'A' <= c <= 'Z' then (c as int + 32) as char else c
  }

  function LowerCase(s: string): (r: string)
    ensures |r| == |s|
    ensures forall i :: 0 <= i < |s| ==> r[i] == AsciiLower(s[i])
  {
    seq(|s|, i requires 0 <= i < |s| => AsciiLower(s[i]))
  }

  /**
   * The string-to-boolean conversion of `Joi.boolean()`: 'true' and 'false',
   * in any mix of cases, become the boolean; any other string is not one.
   */
  function ConvertBoolean(s: string): (b: Option<bool>)
    ensures b == Some(true) <==> LowerCase(s) == "true"
    ensures b == Some(false) <==> LowerCase(s) == "false"
  {
    var lowered := LowerCase(s);
    if lowered == "true" then Some(true)
    else if lowered == "false" then Some(false)
    else None
  }

  /**
   * `autoIncrement`: the boolean alternative is tried first, so any boolean and
   * any string that converts to one is accepted as that boolean; otherwise
   * 'version' on both platforms, 'versionCode' on Android only and
   * 'buildNumber' on iOS only.
   */
  function ValidateAutoIncrement(platform: BuildPlatform, value: AutoIncrement): (r: Result<AutoIncrement, FieldError>)
    ensures r.Success? <==>
              value.Flag? || ConvertBoolean(value.name).Some? || value.name == "version"
              || (platform == AndroidProfile && value.name == "versionCode")
              || (platform == IosProfile && value.name == "buildNumber")
    ensures value.Named? && ConvertBoolean(value.name).Some? ==>
              r == Success(Flag(ConvertBoolean(value.name).value))
    ensures r.Success? && (value.Flag? || ConvertBoolean(value.name).None?) ==> r.value == value
    ensures r.Failure? ==> r.error == NotAllowed(value.name)
  {
    match value
    case Flag(_) => Success(value)
    case Named(name) =>
      var converted := ConvertBoolean(name);
      if converted.Some? then Success(Flag(converted.value))
      else if name in AutoIncrementNames(platform) then Success(value)
      else Failure(NotAllowed(name))
  }

  /** The strings 'True' and 'FALSE' pass as booleans; 'yes' and 'Version' are refused. */
  lemma {:induction false} AutoIncrementConversionExamples(platform: BuildPlatform)
    ensures ValidateAutoIncrement(platform, Named("True")) == Success(Flag(true))
    ensures ValidateAutoIncrement(platform, Named("FALSE")) == Success(Flag(false))
    ensures ValidateAutoIncrement(platform, Named("yes")).Failure?
    ensures ValidateAutoIncrement(platform, Named("Version")).Failure?
  {
    assert LowerCase("True") == "true";
    assert LowerCase("FALSE") == "false";
    assert LowerCase("yes") == "yes";
    assert LowerCase("Version") == "version";
  }
}
