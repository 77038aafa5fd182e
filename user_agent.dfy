/**
 * User-agent classification: browser name and version, operating system and
 * device type, each decided by the first of an ordered list of substring
 * tests.
 *
 * The regular expressions that extract versions are modelled by a leftmost
 * search for a literal token followed by one of three version shapes:
 * `\d+\.\d+`, `\d+\.\d+;` and `\d+[_.\d]+`. Indexing `[1]` on a failed match
 * throws in the client; here that is the outcome `Throws`.
 */
module UserAgent {
  import opened Values
  import opened Strings

  datatype Outcome<T> = Throws | Ok(value: T)

  /** `{ name, version }`; a version of `None` is `undefined`. */
  datatype BrowserInfo = BrowserInfo(name: string, version: Option<string>)

  /** The part of a pattern that follows the literal token. */
  datatype Shape =
    | Decimal           // \d+\.\d+
    | DecimalSemicolon  // \d+\.\d+;  (the `;` is not captured)
    | OsVersion         // \d+[_.\d]+

  predicate IsVersionChar(c: char) {
    IsDigit(c) || c == '_' || c == '.'
  }

  /** The length of the run of digits that starts at `i`. */
  function DigitRun(s: string, i: nat): (k: nat)
    requires i <= |s|
    ensures i + k <= |s|
    ensures forall j :: i <= j < i + k ==> IsDigit(s[j])
    ensures i + k == |s| || !IsDigit(s[i + k])
    decreases |s| - i
  {
    if i == |s| || !IsDigit(s[i]) then 0 else 1 + DigitRun(s, i + 1)
  }

  /** The length of the run of `[_.\d]` characters that starts at `i`. */
  function VersionRun(s: string, i: nat): (k: nat)
    requires i <= |s|
    ensures i + k <= |s|
    ensures forall j :: i <= j < i + k ==> IsVersionChar(s[j])
    ensures i + k == |s| || !IsVersionChar(s[i + k])
    decreases |s| - i
  {
    if i == |s| || !IsVersionChar(s[i]) then 0 else 1 + VersionRun(s, i + 1)
  }

  /** `v` has the form `\d+\.\d+`. */
  predicate DecimalText(v: string) {
    exists k :: 0 < k < |v| - 1 && v[k] == '.' &&
      (forall j :: 0 <= j < |v| && j != k ==> IsDigit(v[j]))
  }

  /** `\d+\.\d+` at position `i`. Greedy repetition needs no backtracking:
      a shorter digit run would be followed by a digit, never by the `.` the
      pattern needs next. */
  function DecimalAt(s: string, i: nat): (r: Option<string>)
    requires i <= |s|
    ensures r.Some? ==> i + |r.value| <= |s| && s[i..i + |r.value|] == r.value && DecimalText(r.value)
  {
    var k1 := DigitRun(s, i);
    if k1 > 0 && i + k1 < |s| && s[i + k1] == '.' then
      var k2 := DigitRun(s, i + k1 + 1);
      if k2 > 0 then
        var v := s[i..i + k1 + 1 + k2];
        assert v[k1] == '.' && forall j :: 0 <= j < |v| && j != k1 ==> IsDigit(v[j]);
        Some(v)
      else None
    else None
  }

  /** The text a shape captures at position `i`, if it matches there. */
  function ShapeAt(s: string, i: nat, shape: Shape): (r: Option<string>)
    requires i <= |s|
    ensures r.Some? ==> i + |r.value| <= |s| && s[i..i + |r.value|] == r.value
    ensures r.Some? && shape != OsVersion ==> DecimalText(r.value)
    ensures r.Some? && shape == DecimalSemicolon ==> i + |r.value| < |s| && s[i + |r.value|] == ';'
    ensures r.Some? && shape == OsVersion ==>
      |r.value| >= 2 && IsDigit(r.value[0]) && forall j :: 0 <= j < |r.value| ==> IsVersionChar(r.value[j])
  {
    match shape
    case Decimal => DecimalAt(s, i)
    case DecimalSemicolon =>
      var d := DecimalAt(s, i);
      if d.Some? && i + |d.value| < |s| && s[i + |d.value|] == ';' then d else None
    case OsVersion =>
      var k := VersionRun(s, i);
      if k >= 2 && IsDigit(s[i]) then Some(s[i..i + k]) else None
  }

  /** The capture of `token` followed by `shape`, matched at position `i`. */
  function MatchAt(s: string, i: nat, token: string, shape: Shape): (r: Option<string>)
    requires i <= |s|
    ensures r.Some? ==> OccursAt(s, token, i) && IsPrefix(r.value, s[i + |token|..])
  {
    if OccursAt(s, token, i) then ShapeAt(s, i + |token|, shape) else None
  }

  /** The leftmost position from `i` on where `token` followed by `shape` matches. */
  function FirstMatch(s: string, token: string, shape: Shape, i: nat): (r: Option<nat>)
    requires i <= |s|
    ensures r.None? ==> forall j :: i <= j <= |s| ==> MatchAt(s, j, token, shape).None?
    ensures r.Some? ==> i <= r.value <= |s| && MatchAt(s, r.value, token, shape).Some?
    ensures r.Some? ==> forall j :: i <= j < r.value ==> MatchAt(s, j, token, shape).None?
    decreases |s| - i
  {
    if MatchAt(s, i, token, shape).Some? then Some(i)
    else if i == |s| then None
    else FirstMatch(s, token, shape, i + 1)
  }

  /** `s.match(token + shape)[1]`: the capture at the leftmost match. */
  function Search(s: string, token: string, shape: Shape): Option<string> {
    match FirstMatch(s, token, shape, 0)
    case None => None
    case Some(j) => MatchAt(s, j, token, shape)
  }

  /** What a two-way alternation `(a)|(b)` gives for group 1. */
  datatype Capture = NoMatch | Group1(value: Option<string>)

  /** Neither alternative matches at position `j`. */
  predicate AltMisses(s: string, j: nat, t1: string, sh1: Shape, t2: string, sh2: Shape)
    requires j <= |s|
  {
    MatchAt(s, j, t1, sh1).None? && MatchAt(s, j, t2, sh2).None?
  }

  /** The leftmost position from `i` on where either alternative matches. */
  function FirstAltMatch(s: string, t1: string, sh1: Shape, t2: string, sh2: Shape, i: nat): (r: Option<nat>)
    requires i <= |s|
    ensures r.None? ==> forall j :: i <= j <= |s| ==> AltMisses(s, j, t1, sh1, t2, sh2)
    ensures r.Some? ==> i <= r.value <= |s| && !AltMisses(s, r.value, t1, sh1, t2, sh2)
    ensures r.Some? ==> forall j :: i <= j < r.value ==> AltMisses(s, j, t1, sh1, t2, sh2)
    decreases |s| - i
  {
    if !AltMisses(s, i, t1, sh1, t2, sh2) then Some(i)
    else if i == |s| then None
    else FirstAltMatch(s, t1, sh1, t2, sh2, i + 1)
  }

  /** `s.match(token1 + shape1 | token2 + shape2)[1]`: at the leftmost
      position where either alternative matches, the first alternative's
      capture, or `undefined` when only the second matches there. */
  function SearchAlt(s: string, t1: string, sh1: Shape, t2: string, sh2: Shape): Capture {
    match FirstAltMatch(s, t1, sh1, t2, sh2, 0)
    case None => NoMatch
    case Some(j) => Group1(MatchAt(s, j, t1, sh1))
  }

  /** A named branch whose version comes from a single-token pattern. */
  function Named(name: string, version: Option<string>): Outcome<BrowserInfo> {
    if version.None? then Throws else Ok(BrowserInfo(name, version))
  }

  function FromAlt(name: string, c: Capture): Outcome<BrowserInfo> {
    match c
    case NoMatch => Throws
    case Group1(v) => Ok(BrowserInfo(name, v))
  }

  const UNKNOWN_BROWSER := BrowserInfo("Unknown", Some("Unknown"))

  /** `getBrowserWithVersion`. */
  function BrowserWithVersion(ua: string): Outcome<BrowserInfo> {
    if Contains(ua, "Opera") || Contains(ua, "OPR/") then
      FromAlt("Opera", SearchAlt(ua, "Opera/", Decimal, "OPR/", Decimal))
    else if Contains(ua, "Edg/") then
      Named("Microsoft Edge (Chromium)", Search(ua, "Edg/", Decimal))
    else if Contains(ua, "Edge/") then
      Named("Microsoft Edge (Legacy)", Search(ua, "Edge/", Decimal))
    else if Contains(ua, "Chrome") && !(Contains(ua, "OPR") || Contains(ua, "Edg/")) then
      Named("Google Chrome", Search(ua, "Chrome/", Decimal))
    else if Contains(ua, "Safari") && !Contains(ua, "Chrome") then
      Named("Apple Safari", Search(ua, "Version/", Decimal))
    else if Contains(ua, "Firefox") then
      Named("Mozilla Firefox", Search(ua, "Firefox/", Decimal))
    else if Contains(ua, "MSIE") || Contains(ua, "Trident") then
      FromAlt("Microsoft Internet Explorer", SearchAlt(ua, "MSIE ", DecimalSemicolon, "rv:", Decimal))
    else if Contains(ua, "SamsungBrowser") then
      Named("Samsung Internet", Search(ua, "SamsungBrowser/", Decimal))
    else if Contains(ua, "CriOS") then
      Named("Chrome on iOS", Search(ua, "CriOS/", Decimal))
    else if Contains(ua, "FxiOS") then
      Named("Firefox on iOS", Search(ua, "FxiOS/", Decimal))
    else Ok(UNKNOWN_BROWSER)
  }

  /** Whether any browser token occurs in the user agent. */
  predicate HasBrowserToken(ua: string) {
    Contains(ua, "Opera") || Contains(ua, "OPR/") || Contains(ua, "Edg/") || Contains(ua, "Edge/") ||
    Contains(ua, "Chrome") || Contains(ua, "Safari") || Contains(ua, "Firefox") ||
    Contains(ua, "MSIE") || Contains(ua, "Trident") || Contains(ua, "SamsungBrowser") ||
    Contains(ua, "CriOS") || Contains(ua, "FxiOS")
  }

  /** With no browser token the result is `{ Unknown, Unknown }`, and a
      name other than `Unknown` is only given when some token occurs. */
  lemma UnknownWithoutToken(ua: string)
    ensures !HasBrowserToken(ua) ==> BrowserWithVersion(ua) == Ok(UNKNOWN_BROWSER)
    ensures BrowserWithVersion(ua).Ok? && BrowserWithVersion(ua).value.name != "Unknown" ==> HasBrowserToken(ua)
  {
  }

  /** The Chrome test excludes any `OPR`, with or without a slash, while the
      Opera test needs `OPR/`: a Chrome user agent that mentions a bare `OPR`
      and no other token falls through every test. */
  lemma ChromeWithBareOprIsUnknown(ua: string)
    requires Contains(ua, "Chrome") && Contains(ua, "OPR")
    requires !Contains(ua, "Opera") && !Contains(ua, "OPR/") && !Contains(ua, "Edg/") && !Contains(ua, "Edge/")
    requires !Contains(ua, "Firefox") && !Contains(ua, "MSIE") && !Contains(ua, "Trident")
    requires !Contains(ua, "SamsungBrowser") && !Contains(ua, "CriOS") && !Contains(ua, "FxiOS")
    ensures BrowserWithVersion(ua) == Ok(UNKNOWN_BROWSER)
  {
  }

  /** The Opera test comes first: an `OPR/` or `Opera` token decides the name
      whatever else the user agent says. */
  lemma OperaFirst(ua: string)
    requires Contains(ua, "Opera") || Contains(ua, "OPR/")
    ensures BrowserWithVersion(ua).Ok? ==> BrowserWithVersion(ua).value.name == "Opera"
  {
  }

  /** A Chromium Edge user agent, which also names Chrome and Safari, is
      classified as Edge. */
  lemma EdgeBeforeChrome(ua: string)
    requires Contains(ua, "Edg/") && !Contains(ua, "Opera") && !Contains(ua, "OPR/")
    ensures BrowserWithVersion(ua).Ok? ==>
      BrowserWithVersion(ua).value == BrowserInfo("Microsoft Edge (Chromium)", Search(ua, "Edg/", Decimal))
  {
  }

  /** The version of a single-token branch is the `digits.digits` text that
      follows the leftmost occurrence of the token that has one. */
  lemma VersionFollowsToken(ua: string, token: string)
    requires Search(ua, token, Decimal).Some?
    ensures var v := Search(ua, token, Decimal).value;
      DecimalText(v) && exists i :: OccursAt(ua, token, i) && IsPrefix(v, ua[i + |token|..])
  {
    var i := FirstMatch(ua, token, Decimal, 0).value;
    assert OccursAt(ua, token, i);
  }

  /** `\d+\.\d+` captures both digit runs and stops at the second dot: the
      text after `Chrome/` in `Chrome/124.0.0.0` gives `124.0`. */
  lemma DecimalStopsAtSecondDot(major: string, minor: string, rest: string)
    requires |major| > 0 && |minor| > 0
    requires forall j :: 0 <= j < |major| ==> IsDigit(major[j])
    requires forall j :: 0 <= j < |minor| ==> IsDigit(minor[j])
    requires rest == [] || !IsDigit(rest[0])
    ensures ShapeAt(major + "." + minor + rest, 0, Decimal) == Some(major + "." + minor)
  {
    var s := major + "." + minor + rest;
    var n := |major|;
    assert s[n] == '.';
    assert forall j :: 0 <= j < n ==> s[j] == major[j];
    assert forall j :: 0 <= j < |minor| ==> s[n + 1 + j] == minor[j];
    assert forall j :: n + 1 <= j < n + 1 + |minor| ==> IsDigit(s[j]) by {
      forall j | n + 1 <= j < n + 1 + |minor| ensures IsDigit(s[j]) {
        assert s[j] == minor[j - n - 1];
      }
    }
    assert n + 1 + |minor| == |s| || s[n + 1 + |minor|] == rest[0];
    DigitRunOf(s, 0, n);
    DigitRunOf(s, n + 1, |minor|);
    assert s[..n + 1 + |minor|] == major + "." + minor;
  }

  lemma DigitRunOf(s: string, i: nat, n: nat)
    requires i + n <= |s|
    requires forall j :: i <= j < i + n ==> IsDigit(s[j])
    requires i + n == |s| || !IsDigit(s[i + n])
    ensures DigitRun(s, i) == n
    decreases n
  {
    if n > 0 {
      DigitRunOf(s, i + 1, n - 1);
    }
  }

  /** What the async platform-version lookup of the Windows 10/11 branch
      yields: no `userAgentData`, a lookup that throws, or the major version
      `parseInt` reads (`None` for NaN). */
  datatype UaData = NoUaData | UaDataFails | PlatformMajor(major: Option<int>)

  /** The name for a `Windows NT` version. */
  function WindowsName(version: string, uaData: UaData): string {
    if version == "10.0" then
      match uaData
      case NoUaData => "Windows 10 or 11"
      case UaDataFails => "Windows 10 or 11"
      case PlatformMajor(major) => if major.Some? && major.value >= 13 then "Windows 11" else "Windows 10"
    else if version == "6.3" then "Windows 8.1"
    else if version == "6.2" then "Windows 8"
    else if version == "6.1" then "Windows 7"
    else if version == "6.0" then "Windows Vista"
    else if version == "5.1" then "Windows XP"
    else "Unknown"
  }

  predicate KnownWindowsVersion(version: string) {
    version in ["10.0", "6.3", "6.2", "6.1", "6.0", "5.1"]
  }

  /** Only the six listed NT versions get a name; any other stays `Unknown`,
      and platform major versions from 13 on mean Windows 11. */
  lemma WindowsNames(version: string, uaData: UaData)
    ensures WindowsName(version, uaData) == "Unknown" <==> !KnownWindowsVersion(version)
    ensures version == "10.0" && uaData.PlatformMajor? && uaData.major.Some? ==>
      (WindowsName(version, uaData) == "Windows 11" <==> uaData.major.value >= 13)
  {
  }

  function Labelled(prefix: string, v: Option<string>): Outcome<string> {
    if v.None? then Throws else Ok(prefix + ReplaceAll(v.value, '_', '.'))
  }

  /** `getOperatingSystem`; `msStream` is `window.MSStream`, `uaData` the
      outcome of the platform-version lookup. */
  function OperatingSystem(ua: string, msStream: bool, uaData: UaData): Outcome<string> {
    if Contains(ua, "Windows NT") then
      match Search(ua, "Windows NT ", Decimal)
      case None => Throws
      case Some(v) => Ok(WindowsName(v, uaData))
    else if Contains(ua, "Mac OS X") then
      Labelled("Mac OS X ", Search(ua, "Mac OS X ", OsVersion))
    else if Contains(ua, "Android") then
      match Search(ua, "Android ", Decimal)
      case None => Throws
      case Some(v) => Ok("Android " + v)
    else if (Contains(ua, "iPad") || Contains(ua, "iPhone") || Contains(ua, "iPod")) && !msStream then
      Labelled("iOS ", Search(ua, "OS ", OsVersion))
    else if Contains(ua, "Linux") then Ok("Linux")
    else Ok("Unknown")
  }

  /** Mac OS X and iOS labels carry the captured version with every `_`
      turned into `.`: the label is the prefix followed by dots and digits. */
  lemma AppleLabels(ua: string, msStream: bool, uaData: UaData)
    requires !Contains(ua, "Windows NT") && !Contains(ua, "Android")
    requires OperatingSystem(ua, msStream, uaData).Ok?
    ensures var os := OperatingSystem(ua, msStream, uaData).value;
      var prefix := if Contains(ua, "Mac OS X") then "Mac OS X " else "iOS ";
      (Contains(ua, "Mac OS X") || ((Contains(ua, "iPad") || Contains(ua, "iPhone") || Contains(ua, "iPod")) && !msStream)) ==>
        IsPrefix(prefix, os) && |os| >= |prefix| + 2 &&
        forall j :: |prefix| <= j < |os| ==> IsDigit(os[j]) || os[j] == '.'
  {
  }

  /** The `Mac OS X` test comes before the iOS one, so an iPhone or iPad user
      agent that says `like Mac OS X` is read by the Mac OS X pattern, and
      throws when no version follows `Mac OS X `. */
  lemma MacTestedBeforeIos(ua: string, msStream: bool, uaData: UaData)
    requires Contains(ua, "Mac OS X") && !Contains(ua, "Windows NT")
    ensures Search(ua, "Mac OS X ", OsVersion).None? ==> OperatingSystem(ua, msStream, uaData) == Throws
    ensures OperatingSystem(ua, msStream, uaData).Ok? ==> IsPrefix("Mac OS X ", OperatingSystem(ua, msStream, uaData).value)
  {
  }

  /** `getDeviceType`. */
  function DeviceType(ua: string): string {
    if ContainsIgnoringCase(ua, "mobi") || ContainsIgnoringCase(ua, "android") then "Mobile"
    else if ContainsIgnoringCase(ua, "tablet") || ContainsIgnoringCase(ua, "ipad") then "Tablet"
    else "Desktop"
  }

  /** Lower-casing keeps every literal occurrence. */
  lemma ContainsLower(s: string, t: string)
    requires Contains(s, t)
    ensures Contains(ToLower(s), ToLower(t))
  {
    ContainsOccurrence(s, t);
    var i :| OccursAt(s, t, i);
    assert ToLower(s)[i..i + |t|] == ToLower(t);
    assert OccursAt(ToLower(s), ToLower(t), i);
    ContainsOccurrence(ToLower(s), ToLower(t));
  }

  /** An occurrence of `t + u` is an occurrence of `t`. */
  lemma ContainsStart(s: string, t: string, u: string)
    requires Contains(s, t + u)
    ensures Contains(s, t)
  {
    ContainsOccurrence(s, t + u);
    var i :| OccursAt(s, t + u, i);
    assert s[i..i + |t|] == (t + u)[..|t|] == t;
    assert OccursAt(s, t, i);
    ContainsOccurrence(s, t);
  }

  /** A user agent that says `Android` or `Mobile` is a mobile device, even if
      it also says `Tablet` or `iPad`. */
  lemma MobileWins(ua: string)
    requires Contains(ua, "Android") || Contains(ua, "Mobile")
    ensures DeviceType(ua) == "Mobile"
  {
    if Contains(ua, "Android") {
      ContainsLower(ua, "Android");
      assert ToLower("Android") == ToLower("android") == "android";
    } else {
      assert "Mobile" == "Mobi" + "le";
      ContainsStart(ua, "Mobi", "le");
      ContainsLower(ua, "Mobi");
      assert ToLower("Mobi") == ToLower("mobi") == "mobi";
    }
  }

  /** An `iPad` user agent without a mobile token is a tablet. */
  lemma IpadIsTablet(ua: string)
    requires Contains(ua, "iPad") && !ContainsIgnoringCase(ua, "mobi") && !ContainsIgnoringCase(ua, "android")
    ensures DeviceType(ua) == "Tablet"
  {
    ContainsLower(ua, "iPad");
    assert ToLower("iPad") == ToLower("ipad") == "ipad";
  }
}
