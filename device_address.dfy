/** The device address: the rule the save button applies before storing an
    address typed by the user, the store that holds it, and the check each
    poll makes before it contacts the device. */
module DeviceAddress {
  import opened Wrappers

  // ---------------------------------------------------------------------
  // Trimming, as String.prototype.trim does it

  /** The characters String.prototype.trim removes: the ECMAScript WhiteSpace
      and LineTerminator characters. */
  predicate IsTrimmable(ch: char) {
    || ch == '\t' || ch == '\n' || ch == '\U{000B}' || ch == '\U{000C}' || ch == '\r'
    || ch == ' ' || ch == '\U{00A0}' || ch == '\U{1680}'
    || ('\U{2000}' <= ch <= '\U{200A}')
    || ch == '\U{2028}' || ch == '\U{2029}' || ch == '\U{202F}' || ch == '\U{205F}'
    || ch == '\U{3000}' || ch == '\U{FEFF}'
  }

  /** `s` without its leading trimmable characters. */
  function TrimStart(s: string): (r: string)
    ensures |r| <= |s| && r == s[|s| - |r|..]
    ensures forall k :: 0 <= k < |s| - |r| ==> IsTrimmable(s[k])
    ensures r == [] || !IsTrimmable(r[0])
  {
    if s != [] && IsTrimmable(s[0]) then TrimStart(s[1..]) else s
  }

  /** `s` without its trailing trimmable characters. */
  function TrimEnd(s: string): (r: string)
    ensures |r| <= |s| && r == s[..|r|]
    ensures forall k :: |r| <= k < |s| ==> IsTrimmable(s[k])
    ensures r == [] || !IsTrimmable(r[|r| - 1])
  {
    if s != [] && IsTrimmable(s[|s| - 1]) then TrimEnd(s[..|s| - 1]) else s
  }

  /** Every character of `t` is trimmable. */
  predicate AllTrimmable(t: string) {
    forall k :: 0 <= k < |t| ==> IsTrimmable(t[k])
  }

  /** `r` is the slice s[i..j] and everything outside it is trimmable. */
  predicate TrimmedSlice(s: string, r: string, i: int, j: int) {
    0 <= i <= j <= |s| && r == s[i..j] && AllTrimmable(s[..i]) && AllTrimmable(s[j..])
  }

  /** `s` without its leading and trailing trimmable characters. */
  function Trim(s: string): (r: string)
    ensures r == [] || (!IsTrimmable(r[0]) && !IsTrimmable(r[|r| - 1]))
    // a slice of `s` with only trimmable characters cut away on either side
    ensures exists i, j :: TrimmedSlice(s, r, i, j)
  {
    var front := TrimStart(s);
    var r := TrimEnd(front);
    var i := |s| - |front|;
    assert front == s[i..];
    assert TrimmedSlice(s, r, i, i + |r|);
    r
  }

  /** Trimming an already trimmed string changes nothing. */
  lemma TrimIdempotent(s: string)
    ensures Trim(Trim(s)) == Trim(s)
  {
    var t := Trim(s);
    if t != [] {
      assert TrimStart(t) == t;
      assert TrimEnd(t) == t;
    }
  }

  // ---------------------------------------------------------------------
  // The address pattern ^(\d{1,3}\.){3}\d{1,3}$

  predicate IsDigit(ch: char) {
    '0' <= ch <= '9'
  }

  /** One group of the pattern: one to three decimal digits. */
  predicate IsDigitGroup(g: string) {
    1 <= |g| <= 3 && forall k :: 0 <= k < |g| ==> IsDigit(g[k])
  }

  /** The groups joined with dots between them. */
  function JoinDots(groups: seq<string>): (s: string)
    requires groups != []
    decreases |groups|
  {
    if |groups| == 1 then groups[0] else groups[0] + "." + JoinDots(groups[1..])
  }

  /** `s` cut at every dot; the pieces contain no dot and joined back give `s`. */
  function SplitDots(s: string): (parts: seq<string>)
    ensures parts != []
    ensures forall i :: 0 <= i < |parts| ==> '.' !in parts[i]
    ensures JoinDots(parts) == s
  {
    if s == [] then [""]
    else
      var rest := SplitDots(s[1..]);
      if s[0] == '.' then
        assert s == "." + s[1..];
        [""] + rest
      else
        var parts := [[s[0]] + rest[0]] + rest[1..];
        assert parts[1..] == rest[1..];
        parts
  }

  /** The address test of the save button: four dot-separated groups of one
      to three digits, and nothing else. No group is compared with 255. */
  predicate MatchesIpPattern(s: string)
    ensures MatchesIpPattern(s) <==> InPatternLanguage(s)
  {
    MatchesIpPatternIsPattern(s);
    SplitTest(s)
  }

  /** Cut at the dots, then ask for four digit groups. */
  predicate SplitTest(s: string) {
    var parts := SplitDots(s);
    |parts| == 4 && forall i :: 0 <= i < 4 ==> IsDigitGroup(parts[i])
  }

  /** Four digit groups: the strings `(\d{1,3}\.){3}\d{1,3}` describes are the
      JoinDots of these. */
  predicate IsQuad(groups: seq<string>) {
    |groups| == 4 && forall i :: 0 <= i < 4 ==> IsDigitGroup(groups[i])
  }

  /** The language of the pattern, stated directly. */
  ghost predicate InPatternLanguage(s: string) {
    exists groups :: IsQuad(groups) && JoinDots(groups) == s
  }

  /** Splitting a dot-free prefix followed by more text. */
  lemma {:induction false} SplitDotsPrefix(a: string, t: string)
    requires '.' !in a
    ensures SplitDots(a + t) == [a + SplitDots(t)[0]] + SplitDots(t)[1..]
  {
    if a != [] {
      SplitDotsPrefix(a[1..], t);
      assert (a + t)[0] == a[0];
      assert (a + t)[1..] == a[1..] + t;
      assert [a[0]] + (a[1..] + SplitDots(t)[0]) == a + SplitDots(t)[0];
    } else {
      assert a + t == t;
      assert a + SplitDots(t)[0] == SplitDots(t)[0];
      assert SplitDots(t) == [SplitDots(t)[0]] + SplitDots(t)[1..];
    }
  }

  /** Splitting undoes joining dot-free groups. */
  lemma {:induction false} SplitJoin(groups: seq<string>)
    requires groups != []
    requires forall i :: 0 <= i < |groups| ==> '.' !in groups[i]
    ensures SplitDots(JoinDots(groups)) == groups
    decreases |groups|
  {
    var g := groups[0];
    if |groups| == 1 {
      SplitDotsPrefix(g, "");
      assert g + "" == g;
    } else {
      var rest := JoinDots(groups[1..]);
      SplitJoin(groups[1..]);
      assert g + "." + rest == g + ("." + rest);
      SplitDotsPrefix(g, "." + rest);
      assert ("." + rest)[1..] == rest;
      assert SplitDots("." + rest) == [""] + groups[1..];
      assert g + "" == g;
    }
  }

  /** The split-based test accepts exactly the language of the pattern. */
  lemma MatchesIpPatternIsPattern(s: string)
    ensures SplitTest(s) <==> InPatternLanguage(s)
  {
    if SplitTest(s) {
      assert IsQuad(SplitDots(s)) && JoinDots(SplitDots(s)) == s;
    }
    if InPatternLanguage(s) {
      var groups :| IsQuad(groups) && JoinDots(groups) == s;
      forall i | 0 <= i < |groups|
        ensures '.' !in groups[i]
      {
        assert IsDigitGroup(groups[i]);
      }
      SplitJoin(groups);
    }
  }

  /** Every four digit groups pass, whatever their value: "999.999.999.999"
      is accepted just as "192.168.1.100" is. */
  lemma QuadAccepted(groups: seq<string>)
    requires IsQuad(groups)
    ensures MatchesIpPattern(JoinDots(groups))
  {
    assert InPatternLanguage(JoinDots(groups));
  }

  /** An accepted address is 7 to 15 characters of digits and exactly three dots. */
  lemma AcceptedShape(s: string)
    requires MatchesIpPattern(s)
    ensures 7 <= |s| <= 15
    ensures forall k :: 0 <= k < |s| ==> IsDigit(s[k]) || s[k] == '.'
  {
    var p := SplitDots(s);
    assert p[1..][1..][1..] == [p[3]];
    assert JoinDots(p[1..][1..]) == p[2] + "." + p[3];
    assert JoinDots(p[1..]) == p[1] + "." + (p[2] + "." + p[3]);
    assert s == p[0] + "." + (p[1] + "." + (p[2] + "." + p[3]));
    forall k | 0 <= k < |s|
      ensures IsDigit(s[k]) || s[k] == '.'
    {
      var a, b, c := p[0], p[1], p[2];
      if k < |a| {
        assert s[k] == a[k];
      } else if k == |a| {
      } else if k < |a| + 1 + |b| {
        assert s[k] == b[k - |a| - 1];
      } else if k == |a| + 1 + |b| {
      } else if k < |a| + |b| + 2 + |c| {
        assert s[k] == c[k - |a| - |b| - 2];
      } else if k == |a| + |b| + 2 + |c| {
      } else {
        assert s[k] == p[3][k - |a| - |b| - |c| - 3];
      }
    }
  }

  // ---------------------------------------------------------------------
  // Saving an address and polling with it

  /** What pressing the save button does with the typed text. */
  datatype SaveOutcome =
    | EmptyAddress              // "Please enter an IP address"
    | InvalidAddress            // "Please enter a valid IP address"
    | Saved(address: string)    // stored; an immediate poll follows

  /** The save rule: trim, refuse an empty address, then store the trimmed
      text if it matches the pattern. */
  function SaveDecision(input: string): (r: SaveOutcome)
    ensures r == EmptyAddress <==> Trim(input) == ""
    ensures r.Saved? <==> InPatternLanguage(Trim(input))
    ensures r.Saved? ==> r.address == Trim(input) && 7 <= |r.address| <= 15
  {
    var ip := Trim(input);
    if ip == "" then EmptyAddress
    else if MatchesIpPattern(ip) then
      AcceptedShape(ip);
      Saved(ip)
    else InvalidAddress
  }

  /** What a poll does before any network request. */
  datatype PollStep =
    | NotConfigured          // no stored address: report "IP Not Set" and return
    | Fetch(url: string)     // request the device's sensor endpoint

  /** The endpoint of the device at `address`. */
  function SensorUrl(address: string): (url: string)
    // the address sits between the scheme and the endpoint path, and can be read back
    ensures |url| == |address| + 19
    ensures url[..7] == "http://" && url[|url| - 12..] == "/api/sensors"
    ensures url[7..|url| - 12] == address
  {
    "http://" + address + "/api/sensors"
  }

  /** The first step of a poll: without a stored, non-empty address there is
      no request at all. */
  function PollPlan(stored: Option<string>): (p: PollStep)
    ensures p == NotConfigured <==> stored == None || stored == Some("")
    ensures p.Fetch? ==> stored.Some? && p.url == SensorUrl(stored.value)
  {
    match stored
    case None => NotConfigured
    case Some(ip) => if ip == "" then NotConfigured else Fetch(SensorUrl(ip))
  }

  /** The browser storage slot that holds the device address. */
  class AddressStore {
    var esp32IP: Option<string>

    constructor (saved: Option<string>)
      ensures esp32IP == saved
    {
      esp32IP := saved;
    }

    /** The save button: stores the trimmed address when the rule accepts
        it; otherwise the stored address is left as it was. */
    method Save(input: string) returns (outcome: SaveOutcome)
      modifies this
      ensures outcome == SaveDecision(input)
      ensures esp32IP == if outcome.Saved? then Some(outcome.address) else old(esp32IP)
    {
      var newIP := Trim(input);
      if newIP == "" {
        outcome := EmptyAddress;
        return;
      }
      if MatchesIpPattern(newIP) {
        esp32IP := Some(newIP);
        outcome := Saved(newIP);
      } else {
        outcome := InvalidAddress;
      }
    }
  }

  /** After a successful save the next poll requests the trimmed address. */
  lemma SaveThenPoll(input: string)
    ensures var o := SaveDecision(input);
      o.Saved? ==> PollPlan(Some(o.address)) == Fetch(SensorUrl(Trim(input)))
  {
  }

  /** Text that starts and ends with a non-trimmable character is its own trim. */
  lemma TrimKeeps(s: string)
    requires s != [] && !IsTrimmable(s[0]) && !IsTrimmable(s[|s| - 1])
    ensures Trim(s) == s
  {
  }

  /** The rule has no range check on the groups: any four groups of one to
      three digits are saved as they are, "999.999.999.999" as well as
      "192.168.1.100". */
  lemma SaveWithoutRangeCheck(groups: seq<string>)
    requires IsQuad(groups)
    ensures SaveDecision(JoinDots(groups)) == Saved(JoinDots(groups))
  {
    var ip := JoinDots(groups);
    QuadAccepted(groups);
    AcceptedShape(ip);
    TrimKeeps(ip);
  }

  /** One or more decimal digits. */
  predicate IsDigitRun(g: string) {
    g != [] && forall k :: 0 <= k < |g| ==> IsDigit(g[k])
  }

  /** Runs of digits joined by dots start and end with a digit. */
  lemma {:induction false} JoinedRunsEndsAreDigits(groups: seq<string>)
    requires groups != [] && forall i :: 0 <= i < |groups| ==> IsDigitRun(groups[i])
    ensures var s := JoinDots(groups); s != [] && IsDigit(s[0]) && IsDigit(s[|s| - 1])
    decreases |groups|
  {
    if |groups| > 1 {
      var g, rest := groups[0], groups[1..];
      JoinedRunsEndsAreDigits(rest);
      var r := JoinDots(rest);
      assert JoinDots(groups) == g + "." + r;
      assert (g + "." + r)[0] == g[0];
      assert (g + "." + r)[|g| + 1 + |r| - 1] == r[|r| - 1];
    }
  }

  /** Runs of digits joined by dots are kept by trimming. */
  lemma JoinedRunsTrimKept(groups: seq<string>)
    requires groups != [] && forall i :: 0 <= i < |groups| ==> IsDigitRun(groups[i])
    ensures Trim(JoinDots(groups)) == JoinDots(groups) != ""
  {
    JoinedRunsEndsAreDigits(groups);
    DigitEndsKept(JoinDots(groups));
  }

  /** Text that starts and ends with a digit is its own trim. */
  lemma DigitEndsKept(s: string)
    requires s != [] && IsDigit(s[0]) && IsDigit(s[|s| - 1])
    ensures Trim(s) == s
  {
    TrimKeeps(s);
  }

  /** Digit runs in any number but four are refused: "1.2.3" among them. */
  lemma SaveRefusesGroupCount(groups: seq<string>)
    requires groups != [] && |groups| != 4
    requires forall i :: 0 <= i < |groups| ==> IsDigitRun(groups[i])
    ensures SaveDecision(JoinDots(groups)) == InvalidAddress
  {
    JoinedRunsTrimKept(groups);
    forall i | 0 <= i < |groups|
      ensures '.' !in groups[i]
    {
      assert IsDigitRun(groups[i]);
    }
    SplitJoin(groups);
  }

  /** Four digit runs, one of them longer than three digits, are refused:
      "1234.1.1.1" among them. */
  lemma SaveRefusesLongGroup(groups: seq<string>, i: nat)
    requires |groups| == 4 && forall j :: 0 <= j < 4 ==> IsDigitRun(groups[j])
    requires i < 4 && |groups[i]| > 3
    ensures SaveDecision(JoinDots(groups)) == InvalidAddress
  {
    JoinedRunsTrimKept(groups);
    forall j | 0 <= j < |groups|
      ensures '.' !in groups[j]
    {
      assert IsDigitRun(groups[j]);
    }
    SplitJoin(groups);
    assert !IsDigitGroup(groups[i]);
  }
}
