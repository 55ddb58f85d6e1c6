/** The macOS provider: a primary query through AppleScript printing
    `name|pid`, and a fallback through `lsappinfo` whose output is scanned for
    the first double-quoted name and the first `pid=<digits>`.

    Running the helper programs is not modelled: each query receives the
    outcome of its run, the standard output or the run's error. */
module MacOS {
  import opened Wrappers
  import opened Text
  import opened Window

  const MainWorkspace := "main"

  const NoApplicationMessage := "no active application found"
  const UnexpectedFormatMessage := "unexpected AppleScript output format"
  const NoAppNameMessage := "could not parse app name from lsappinfo output"
  const AppleScriptFailed := "failed to execute AppleScript: "
  const LSAppInfoFailed := "failed to execute lsappinfo: "

  /** Both queries report the application name as title and class, and the
      fixed workspace "main". */
  function AppWindow(name: string, pid: int): (w: WindowInfo)
    ensures w.title == name && w.windowClass == name && w.pid == pid && w.workspace == MainWorkspace
  {
    WindowInfo(name, name, pid, MainWorkspace)
  }

  /** `strconv.Atoi`, with 0 in place of a parse failure. */
  function PidOrZero(text: string): (pid: int)
    ensures ParseDecimal(text).Some? ==> pid == ParseDecimal(text).value
    ensures ParseDecimal(text).None? ==> pid == 0
  {
    match ParseDecimal(text)
    case Some(p) => p
    case None => 0
  }

  // ------------------------------------------------------- primary query

  /** The `name|pid` line, already trimmed and non-empty: at least two
      `|`-separated parts are needed; the first is the name, the second the
      pid text, and any further parts are ignored. */
  function ParseAppLine(line: string): (r: Result<WindowInfo>)
    ensures r.Ok? <==> '|' in line
    ensures r.Err? ==> r.message == UnexpectedFormatMessage
    ensures r.Ok? ==>
      var i := IndexOf(line, '|').value;
      && r.value.title == line[..i]
      && r.value.pid == PidOrZero(Split(line[i + 1..], '|')[0])
      && r.value.windowClass == r.value.title
      && r.value.workspace == MainWorkspace
  {
    var parts := Split(line, '|');
    if |parts| < 2 then Err(UnexpectedFormatMessage)
    else
      SplitFirstTwo(line, '|');
      Ok(AppWindow(parts[0], PidOrZero(parts[1])))
  }

  /** A line of exactly two fields gives the name and the pid text. */
  lemma TwoFieldsRead(name: string, pidText: string)
    requires '|' !in name && '|' !in pidText
    ensures ParseAppLine(name + "|" + pidText) == Ok(AppWindow(name, PidOrZero(pidText)))
  {
    assert name + "|" + pidText == name + ['|'] + pidText;
    SplitAfterFirst(name, '|', pidText);
    assert Split(pidText, '|') == [pidText];
  }

  /** Fields after the second are ignored. */
  lemma ExtraFieldsIgnored(name: string, pidText: string, rest: string)
    requires '|' !in name && '|' !in pidText
    ensures ParseAppLine(name + "|" + pidText + "|" + rest) == Ok(AppWindow(name, PidOrZero(pidText)))
  {
    var tail := pidText + ['|'] + rest;
    assert name + "|" + pidText + "|" + rest == name + ['|'] + tail;
    SplitAfterFirst(name, '|', tail);
    SplitAfterFirst(pidText, '|', rest);
    assert Split(name + ['|'] + tail, '|')[1] == pidText;
  }

  /** "abc" is not a number. */
  lemma LettersAreNoPid()
    ensures PidOrZero("abc") == 0
  {
    assert !IsDigit("abc"[0]);
  }

  /** An unparsable pid does not fail the query: it reads as 0. */
  lemma UnparsablePidIsZero(name: string)
    requires '|' !in name
    ensures ParseAppLine(name + "|abc") == Ok(AppWindow(name, 0))
  {
    TwoFieldsRead(name, "abc");
    LettersAreNoPid();
  }

  /** `getFrontmostApp`, given the outcome of running the AppleScript. */
  function FrontmostApp(run: Result<string>): (r: Result<WindowInfo>)
    ensures run.Err? ==> r == Err(AppleScriptFailed + run.message)
    ensures run.Ok? && TrimSpace(run.value) == "" ==> r == Err(NoApplicationMessage)
    ensures run.Ok? ==> (r.Ok? <==> '|' in TrimSpace(run.value))
    ensures r.Ok? ==> r == ParseAppLine(TrimSpace(run.value))
  {
    match run
    case Err(e) => Err(AppleScriptFailed + e)
    case Ok(output) =>
      var result := TrimSpace(output);
      if result == "" then Err(NoApplicationMessage)
      else ParseAppLine(result)
  }

  // ------------------------------------------------------ fallback query

  /** A double-quoted, non-empty, quote-free text opens at `i` and closes at
      `k`: one match of the pattern `"([^"]+)"`. */
  predicate QuotedSpan(s: string, i: int, k: int) {
    && 0 <= i && i + 1 < k < |s|
    && s[i] == '"' && s[k] == '"'
    && forall m :: i < m < k ==> s[m] != '"'
  }

  /** The first quote at or after `from`. */
  function NextQuote(s: string, from: nat): (r: Option<nat>)
    ensures r.Some? ==> (from <= r.value < |s| && s[r.value] == '"'
      && forall m :: from <= m < r.value ==> s[m] != '"')
    ensures r.None? ==> forall m :: from <= m < |s| ==> s[m] != '"'
    decreases |s| - from
  {
    if from >= |s| then None
    else if s[from] == '"' then Some(from)
    else NextQuote(s, from + 1)
  }

  /** The leftmost match of `"([^"]+)"` starting at or after `from`, as the
      positions of its two quotes. */
  function FindQuoted(s: string, from: nat): (r: Option<(nat, nat)>)
    ensures r.Some? ==> (from <= r.value.0 && QuotedSpan(s, r.value.0, r.value.1)
      && forall j, k :: from <= j < r.value.0 ==> !QuotedSpan(s, j, k))
    ensures r.None? ==> forall j, k :: from <= j ==> !QuotedSpan(s, j, k)
    decreases |s| - from
  {
    if from >= |s| then None
    else if s[from] == '"' && from + 1 < |s| && s[from + 1] != '"' then
      match NextQuote(s, from + 1)
      case Some(k) => Some((from, k))
      case None => FindQuoted(s, from + 1)
    else FindQuoted(s, from + 1)
  }

  /** The name the fallback reports: the text between the quotes of the
      leftmost match. */
  function QuotedName(s: string): (r: Option<string>)
    ensures r.Some? ==> r.value != [] && '"' !in r.value
    ensures r.Some? ==> exists i, k :: (QuotedSpan(s, i, k) && r.value == s[i + 1..k]
      && forall j, k' :: 0 <= j < i ==> !QuotedSpan(s, j, k'))
    ensures r.None? <==> forall i, k :: !QuotedSpan(s, i, k)
  {
    match FindQuoted(s, 0)
    case None => None
    case Some((i, k)) =>
      Some(s[i + 1..k])
  }

  /** `pid=` followed by at least one digit starts at `i`. */
  predicate PidAt(s: string, i: int) {
    OccursAt(s, "pid=", i) && i + 4 < |s| && IsDigit(s[i + 4])
  }

  /** The leftmost start of a `pid=<digits>` match at or after `from`. */
  function FindPid(s: string, from: nat): (r: Option<nat>)
    ensures r.Some? ==> (from <= r.value && PidAt(s, r.value)
      && forall j :: from <= j < r.value ==> !PidAt(s, j))
    ensures r.None? ==> forall j :: from <= j ==> !PidAt(s, j)
    decreases |s| - from
  {
    if from >= |s| then None
    else if PidAt(s, from) then Some(from)
    else FindPid(s, from + 1)
  }

  /** The end of the run of digits starting at `j`: the match of `\d+` is
      greedy. */
  function DigitRunEnd(s: string, j: nat): (e: nat)
    requires j <= |s|
    ensures j <= e <= |s| && AllDigits(s[j..e])
    ensures e == |s| || !IsDigit(s[e])
    decreases |s| - j
  {
    if j < |s| && IsDigit(s[j]) then
      var e := DigitRunEnd(s, j + 1);
      assert s[j..e] == [s[j]] + s[j + 1..e];
      e
    else j
  }

  /** The digits of the leftmost `pid=<digits>` match, if any. */
  function PidDigits(s: string): (r: Option<string>)
    ensures r.Some? ==> |r.value| >= 1 && AllDigits(r.value)
    ensures r.Some? ==> exists i :: (PidAt(s, i) && (forall j :: 0 <= j < i ==> !PidAt(s, j))
      && r.value == s[i + 4..DigitRunEnd(s, i + 4)])
    ensures r.None? <==> forall i :: !PidAt(s, i)
  {
    match FindPid(s, 0)
    case None => None
    case Some(i) => Some(s[i + 4..DigitRunEnd(s, i + 4)])
  }

  /** `getActiveWindowLSAppInfo`, given the outcome of running `lsappinfo`.
      A missing name fails the query; a missing or unparsable pid reads as 0. */
  function LSAppInfo(run: Result<string>): (r: Result<WindowInfo>)
    ensures run.Err? ==> r == Err(LSAppInfoFailed + run.message)
    ensures run.Ok? ==> (r.Ok? <==> QuotedName(run.value).Some?)
    ensures run.Ok? && QuotedName(run.value).None? ==> r == Err(NoAppNameMessage)
    ensures r.Ok? ==> (r.value.title == QuotedName(run.value).value
      && r.value.windowClass == r.value.title && r.value.workspace == MainWorkspace)
    ensures r.Ok? && PidDigits(run.value).None? ==> r.value.pid == 0
    ensures r.Ok? && PidDigits(run.value).Some? ==> r.value.pid == PidOrZero(PidDigits(run.value).value)
  {
    match run
    case Err(e) => Err(LSAppInfoFailed + e)
    case Ok(output) =>
      match QuotedName(output)
      case None => Err(NoAppNameMessage)
      case Some(name) =>
        var pid := match PidDigits(output)
          case Some(digits) => PidOrZero(digits)
          case None => 0;
        Ok(AppWindow(name, pid))
  }

  /** The leftmost quoted name of a typical `lsappinfo` line. */
  lemma QuotedNameExample()
    ensures QuotedName("\"Finder\" pid=512") == Some("Finder")
  {
    var s := "\"Finder\" pid=512";
    assert NextQuote(s, 1) == Some(7);
    assert FindQuoted(s, 0) == Some((0, 7));
    assert s[1..7] == "Finder";
  }

  /** The digits after the first `pid=` of the same line. */
  lemma PidDigitsExample()
    ensures PidDigits("\"Finder\" pid=512") == Some("512")
  {
    var s := "\"Finder\" pid=512";
    assert PidAt(s, 9);
    assert FindPid(s, 0) == Some(9);
    assert DigitRunEnd(s, 13) == 16;
    assert s[13..16] == "512";
  }

  lemma PidTextExample()
    ensures PidOrZero("512") == 512
  {
    assert "512"[..2] == "51" && "51"[..1] == "5" && "5"[..0] == "";
    assert DigitsValue("512") == 512;
  }

  /** The whole fallback on that line: name as title and class, pid 512. */
  lemma LSAppInfoExample()
    ensures LSAppInfo(Ok("\"Finder\" pid=512")) == Ok(WindowInfo("Finder", "Finder", 512, "main"))
  {
    QuotedNameExample();
    PidDigitsExample();
    PidTextExample();
  }

  // ------------------------------------------------------- provider entry

  /** `MacOSProvider.GetActiveWindow`: the primary query's record when it
      succeeds; on any primary failure, the fallback's outcome as is. Every
      record names the application twice and the workspace "main". */
  function GetActiveWindow(primary: Result<string>, fallback: Result<string>): (r: Result<WindowInfo>)
    ensures FrontmostApp(primary).Ok? ==> r == FrontmostApp(primary)
    ensures FrontmostApp(primary).Err? ==> r == LSAppInfo(fallback)
    ensures r.Ok? ==> r.value.title == r.value.windowClass && r.value.workspace == MainWorkspace
    ensures r.Err? ==> FrontmostApp(primary).Err? && LSAppInfo(fallback).Err?
  {
    match FrontmostApp(primary)
    case Ok(w) => Ok(w)
    case Err(_) => LSAppInfo(fallback)
  }

  /** When the primary output has no `|`, the fallback decides, and when both
      fail, the error reported is the fallback's. */
  lemma MalformedPrimaryFallsBack(output: string, fallback: Result<string>)
    requires '|' !in TrimSpace(output)
    ensures GetActiveWindow(Ok(output), fallback) == LSAppInfo(fallback)
  {
  }
}
