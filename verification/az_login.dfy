/** The device-code scan of `az_login` in async_az_login.py: each output
    line of `az login --use-device-code` is stripped, blank lines are
    skipped, and the first line holding both a URL (`https://\S+`) and a
    code (`code ([A-Z0-9-]{8,})`) ends the scan. The regular expressions are
    modelled with their leftmost-match, greedy semantics. */
module AzLogin {
  import opened Wrappers
  import opened Text

  /** The two patterns searched for. */
  datatype Pattern = UrlPattern | CodePattern

  /** The literal each pattern starts with. */
  function Marker(p: Pattern): string
  {
    match p
    case UrlPattern => "https://"
    case CodePattern => "code "
  }

  /** The class repeated after the literal: `\S` for the URL, `[A-Z0-9-]`
      for the code. */
  predicate Accepts(p: Pattern, ch: char)
  {
    match p
    case UrlPattern => !IsSpace(ch)
    case CodePattern => ('A' <= ch <= 'Z') || ('0' <= ch <= '9') || ch == '-'
  }

  /** The fewest repetitions the pattern needs: `+` and `{8,}`. */
  function MinRun(p: Pattern): nat
  {
    match p
    case UrlPattern => 1
    case CodePattern => 8
  }

  /** Length of the longest run of characters the pattern accepts, starting
      at `from`. */
  function RunLength(s: string, from: nat, p: Pattern): (n: nat)
    requires from <= |s|
    ensures from + n <= |s|
    ensures forall k :: from <= k < from + n ==> Accepts(p, s[k])
    ensures from + n < |s| ==> !Accepts(p, s[from + n])
    decreases |s| - from
  {
    if from < |s| && Accepts(p, s[from]) then 1 + RunLength(s, from + 1, p) else 0
  }

  /** The pattern matches at `i`: the literal, then at least the fewest
      repetitions. */
  predicate MatchesAt(s: string, i: int, p: Pattern)
  {
    && PrefixAt(s, i, Marker(p))
    && i + |Marker(p)| + MinRun(p) <= |s|
    && forall k :: i + |Marker(p)| <= k < i + |Marker(p)| + MinRun(p) ==> Accepts(p, s[k])
  }

  /** The leftmost match at or after `from`, as `re.search` finds it. */
  function FirstMatchFrom(s: string, p: Pattern, from: nat): (r: Option<nat>)
    ensures r.Some? ==> from <= r.value && MatchesAt(s, r.value, p)
    ensures r.Some? ==> forall j :: from <= j < r.value ==> !MatchesAt(s, j, p)
    ensures r.None? ==> forall j :: from <= j ==> !MatchesAt(s, j, p)
    decreases |s| - from
  {
    if from + |Marker(p)| > |s| then None
    else if MatchesAt(s, from, p) then Some(from)
    else FirstMatchFrom(s, p, from + 1)
  }

  /** `url_match.group(0)`: the whole leftmost URL match, its run taken
      greedily, so that it ends at a space or at the end of the line. */
  function SearchUrl(s: string): (r: Option<string>)
    ensures r.Some? <==> FirstMatchFrom(s, UrlPattern, 0).Some?
    ensures r.Some? ==> PrefixAt(s, FirstMatchFrom(s, UrlPattern, 0).value, r.value)
    ensures r.Some? ==> |r.value| > 8 && r.value[..8] == "https://"
    ensures r.Some? ==> forall k :: 8 <= k < |r.value| ==> !IsSpace(r.value[k])
    ensures r.Some? ==> var end := FirstMatchFrom(s, UrlPattern, 0).value + |r.value|;
      end < |s| ==> IsSpace(s[end])
  {
    match FirstMatchFrom(s, UrlPattern, 0)
    case None => None
    case Some(i) => Some(UrlAt(s, i))
  }

  /** The whole match at a URL match: `https://` and the greedy run of
      non-space characters after it. */
  function UrlAt(s: string, i: nat): (url: string)
    requires MatchesAt(s, i, UrlPattern)
    ensures PrefixAt(s, i, url)
    ensures |url| > 8 && url[..8] == "https://"
    ensures forall k :: 8 <= k < |url| ==> !IsSpace(url[k])
    ensures i + |url| < |s| ==> IsSpace(s[i + |url|])
  {
    var n := RunLength(s, i + 8, UrlPattern);
    var url := s[i..i + 8 + n];
    assert url[..8] == s[i..i + 8];
    assert forall k :: 8 <= k < |url| ==> url[k] == s[i + k];
    url
  }

  /** `code_match.group(1)`: the run after the leftmost `code ` that is
      followed by at least eight code characters, taken greedily, so that
      it ends at a character outside the class or at the end of the line. */
  function SearchCode(s: string): (r: Option<string>)
    ensures r.Some? <==> FirstMatchFrom(s, CodePattern, 0).Some?
    ensures r.Some? ==> PrefixAt(s, FirstMatchFrom(s, CodePattern, 0).value, "code " + r.value)
    ensures r.Some? ==> |r.value| >= 8
    ensures r.Some? ==> forall k :: 0 <= k < |r.value| ==> Accepts(CodePattern, r.value[k])
    ensures r.Some? ==> var end := FirstMatchFrom(s, CodePattern, 0).value + 5 + |r.value|;
      end < |s| ==> !Accepts(CodePattern, s[end])
  {
    match FirstMatchFrom(s, CodePattern, 0)
    case None => None
    case Some(i) => Some(CodeAt(s, i))
  }

  /** The group after `code ` at a code match: the greedy run of code
      characters, at least eight long, ending where the class does. */
  function CodeAt(s: string, i: nat): (code: string)
    requires MatchesAt(s, i, CodePattern)
    ensures PrefixAt(s, i, "code " + code)
    ensures |code| >= 8
    ensures forall k :: 0 <= k < |code| ==> Accepts(CodePattern, code[k])
    ensures i + 5 + |code| < |s| ==> !Accepts(CodePattern, s[i + 5 + |code|])
  {
    assert PrefixAt(s, i, "code ");
    var n := RunLength(s, i + 5, CodePattern);
    var code := s[i + 5..i + 5 + n];
    assert forall k :: 0 <= k < n ==> code[k] == s[i + 5 + k];
    assert s[i..i + 5 + n] == s[i..i + 5] + code;
    code
  }

  /** What one output line yields, once stripped. */
  function ParseLine(raw: string): (r: Option<(string, string)>)
    ensures Strip(raw) == "" ==> r.None?
  {
    ParseStripped(Strip(raw))
  }

  /** Nothing for an empty line or one lacking "https://" or "code",
      otherwise the URL and the code when both patterns match. */
  function ParseStripped(line: string): (r: Option<(string, string)>)
  {
    if line == "" then None
    else if !(Contains(line, "https://") && Contains(line, "code")) then None
    else
      match (SearchUrl(line), SearchCode(line))
      case (Some(url), Some(code)) => Some((url, code))
      case _ => None
  }

  /** The substring test before the searches never decides anything: a
      line yields a result exactly when both patterns match it, and then
      it yields the two matches. */
  lemma PrefilterRedundant(line: string)
    ensures ParseStripped(line).Some? <==> SearchUrl(line).Some? && SearchCode(line).Some?
    ensures ParseStripped(line).Some? ==> ParseStripped(line).value == (SearchUrl(line).value, SearchCode(line).value)
  {
    var url, code := FirstMatchFrom(line, UrlPattern, 0), FirstMatchFrom(line, CodePattern, 0);
    if url.Some? && code.Some? {
      MatchContainsMarker(line, url.value, UrlPattern);
      MatchContainsMarker(line, code.value, CodePattern);
    }
  }

  /** A line the pattern matches contains its literal, and a code match
      contains "code". */
  lemma MatchContainsMarker(s: string, i: nat, p: Pattern)
    requires MatchesAt(s, i, p)
    ensures s != ""
    ensures Contains(s, Marker(p))
    ensures p == CodePattern ==> Contains(s, "code")
  {
    assert PrefixAt(s, i, Marker(p));
    if p == CodePattern {
      assert s[i..i + 4] == s[i..i + 5][..4];
      assert PrefixAt(s, i, "code");
    }
  }

  /** The scan over the output lines: the URL and code of the first line
      that yields both, if any. */
  method ScanDeviceCode(lines: seq<string>) returns (r: Option<(string, string)>)
    ensures r.None? <==> forall i :: 0 <= i < |lines| ==> ParseLine(lines[i]).None?
    ensures r.Some? ==> exists i :: (0 <= i < |lines| && ParseLine(lines[i]) == r
      && forall j :: 0 <= j < i ==> ParseLine(lines[j]).None?)
  {
    r := FirstSome(lines, ParseLine);
  }

  /** The first present result of `f` over `xs`, in order. */
  method FirstSome<T, U>(xs: seq<T>, f: T -> Option<U>) returns (r: Option<U>)
    ensures r.None? <==> forall i :: 0 <= i < |xs| ==> f(xs[i]).None?
    ensures r.Some? ==> exists i :: (0 <= i < |xs| && f(xs[i]) == r
      && forall j :: 0 <= j < i ==> f(xs[j]).None?)
  {
    var i := 0;
    while i < |xs|
      invariant 0 <= i <= |xs|
      invariant forall j :: 0 <= j < i ==> f(xs[j]).None?
    {
      var found := f(xs[i]);
      if found.Some? {
        return found;
      }
      i := i + 1;
    }
    return None;
  }
}
