/** Target origins: `host:port` and `http(s)://authority`, as in section 3.2 of RFC 3986. */
module Targets {
  import opened JsonValues
  import opened Models

  /** Address questions answered by `ipaddress` and by name resolution. */
  datatype Network = Network(
    loopback: string -> bool,        // exactly this text is a loopback literal, or a localhost that resolves so
    privateLiteral: string -> bool)  // exactly this text is an IP literal that is private or link-local

  const BRACKETS: set<char> := {'[', ']'}
  const DOTS: set<char> := {'.'}

  // ----- trimming -----

  predicate EdgesOutside(s: string, cs: set<char>) {
    s != [] ==> s[0] !in cs && s[|s| - 1] !in cs
  }

  function TrimLeft(s: string, cs: set<char>): (r: string)
    ensures |r| <= |s| && (|r| == |s| ==> r == s)
    ensures r != [] ==> r[0] !in cs && r[|r| - 1] == s[|s| - 1]
    ensures s != [] ==> (s[0] in cs <==> |r| < |s|)
  {
    if s != [] && s[0] in cs then TrimLeft(s[1..], cs) else s
  }

  function TrimRight(s: string, cs: set<char>): (r: string)
    ensures |r| <= |s| && (|r| == |s| ==> r == s)
    ensures r != [] ==> r[|r| - 1] !in cs && r[0] == s[0]
    ensures s != [] ==> (s[|s| - 1] in cs <==> |r| < |s|)
  {
    if s != [] && s[|s| - 1] in cs then TrimRight(s[..|s| - 1], cs) else s
  }

  function Trim(s: string, cs: set<char>): (r: string)
    ensures |r| <= |s|
    ensures r == s <==> EdgesOutside(s, cs)
    ensures EdgesOutside(r, cs)
    ensures |r| == |s| ==> r == s
  {
    TrimRight(TrimLeft(s, cs), cs)
  }

  /** Trimming removes characters of the set at both ends, and no others. */
  lemma {:induction false} TrimExact(s: string, cs: set<char>) returns (i: nat, j: nat)
    ensures i <= j <= |s| && Trim(s, cs) == s[i..j]
    ensures forall k :: 0 <= k < i || j <= k < |s| ==> s[k] in cs
  {
    i := TrimLeftExact(s, cs);
    var left := s[i..];
    var n := TrimRightExact(left, cs);
    j := i + n;
    assert left[..n] == s[i..j];
    assert forall k :: j <= k < |s| ==> s[k] == left[k - i];
  }

  lemma {:induction false} TrimLeftExact(s: string, cs: set<char>) returns (n: nat)
    ensures n <= |s| && TrimLeft(s, cs) == s[n..]
    ensures forall k :: 0 <= k < n ==> s[k] in cs
  {
    n := 0;
    if s != [] && s[0] in cs {
      var m := TrimLeftExact(s[1..], cs);
      n := m + 1;
      assert forall k :: 1 <= k < n ==> s[k] == s[1..][k - 1];
    }
  }

  lemma {:induction false} TrimRightExact(s: string, cs: set<char>) returns (n: nat)
    ensures n <= |s| && TrimRight(s, cs) == s[..n]
    ensures forall k :: n <= k < |s| ==> s[k] in cs
  {
    n := |s|;
    if s != [] && s[|s| - 1] in cs {
      n := TrimRightExact(s[..|s| - 1], cs);
    }
  }

  /** `host.strip().strip("[]").rstrip(".").lower()` */
  function NormaliseHost(host: string): string {
    Lower(TrimRight(Trim(Trim(host, SPACES), BRACKETS), DOTS))
  }

  /** A part of a part, with what is around it. */
  lemma PartOfPart(s: string, a: nat, b: nat, c: nat, d: nat, cs: set<char>)
    requires a <= b <= |s| && c <= d <= b - a
    requires forall k :: 0 <= k < a || b <= k < |s| ==> s[k] in cs
    requires forall k :: 0 <= k < c || d <= k < b - a ==> s[a..b][k] in cs
    ensures s[a..b][c..d] == s[a + c..a + d]
    ensures forall k :: 0 <= k < a + c || a + d <= k < |s| ==> s[k] in cs
  {
    var part := s[a..b];
    var inner, outer := part[c..d], s[a + c..a + d];
    assert |inner| == |outer|;
    forall k | 0 <= k < |inner| ensures inner[k] == outer[k] {
      assert inner[k] == part[c + k] && outer[k] == s[a + c + k];
    }
    assert inner == outer;
    forall k | a <= k < a + c || a + d <= k < b ensures s[k] in cs {
      assert s[k] == part[k - a];
    }
  }

  /** What is left of a host is a lower-cased part of it; around it are only spaces, brackets and dots. */
  lemma NormaliseExact(host: string) returns (i: nat, j: nat)
    ensures i <= j <= |host| && NormaliseHost(host) == Lower(host[i..j])
    ensures forall k :: 0 <= k < i || j <= k < |host| ==> host[k] in SPACES + BRACKETS + DOTS
  {
    i, j := StrippedExact(host, SPACES, BRACKETS, DOTS);
  }

  lemma StrippedExact(s: string, spaces: set<char>, brackets: set<char>, dots: set<char>) returns (i: nat, j: nat)
    ensures i <= j <= |s| && TrimRight(Trim(Trim(s, spaces), brackets), dots) == s[i..j]
    ensures forall k :: 0 <= k < i || j <= k < |s| ==> s[k] in spaces + brackets + dots
  {
    hide Trim, TrimRight;
    var cs := spaces + brackets + dots;
    var a, b := TrimExact(s, spaces);
    var c, d := TrimExact(s[a..b], brackets);
    PartOfPart(s, a, b, c, d, cs);
    var part := s[a + c..a + d];
    var n := TrimRightExact(part, dots);
    assert forall k :: n <= k < |part| ==> part[k] in cs;
    PartOfPart(s, a + c, a + d, 0, n, cs);
    assert part[..n] == part[0..n];
    i, j := a + c, a + c + n;
  }

  // ----- splitting -----

  predicate IsUrl(target: string) {
    StartsWith(target, "http://") || StartsWith(target, "https://")
  }

  function IndexOfAny(s: string, cs: set<char>): (i: nat)
    ensures i <= |s|
    ensures forall k :: 0 <= k < i ==> s[k] !in cs
    ensures i < |s| ==> s[i] in cs
  {
    if s == [] || s[0] in cs then 0 else 1 + IndexOfAny(s[1..], cs)
  }

  /** `s.rpartition(c)`: the index of the last separator */
  function LastIndexOf(s: string, c: char): (i: Option<nat>)
    ensures i.Some? ==> i.value < |s| && s[i.value] == c && forall k :: i.value < k < |s| ==> s[k] != c
    ensures i.None? <==> c !in s
  {
    if s == [] then None
    else if s[|s| - 1] == c then Some(|s| - 1)
    else
      assert s == s[..|s| - 1] + [s[|s| - 1]];
      LastIndexOf(s[..|s| - 1], c)
  }

  predicate AllDigits(s: string) {
    |s| > 0 && forall i :: 0 <= i < |s| ==> IsDigit(s[i])
  }

  datatype Origin =
    | Tcp(host: string, port: nat)
    | Url(scheme: string, userinfo: bool, host: string, explicitPort: Option<nat>, suffix: string)

  /** `hostname` and port text of an authority without its user information */
  function SplitHostInfo(info: string): Option<(string, string)> {
    if info != [] && info[0] == '[' then
      var close := IndexOfAny(info[1..], {']'}) + 1;
      if close == |info| || '[' in info[1..close] then None
      else
        var rest := info[close + 1..];
        if rest == [] then Some((info[1..close], []))
        else if rest[0] == ':' && '[' !in rest && ']' !in rest then Some((info[1..close], rest[1..]))
        else None
    else if '[' in info || ']' in info then None
    else
      var colon := IndexOfAny(info, {':'});
      Some((info[..colon], if colon < |info| then info[colon + 1..] else []))
  }

  function UrlScheme(target: string): string {
    if StartsWith(target, "http://") then "http" else "https"
  }

  /** What follows `://` */
  function UrlRest(target: string): string
    requires IsUrl(target)
  {
    target[|UrlScheme(target)| + 3..]
  }

  function Authority(rest: string): string {
    rest[..IndexOfAny(rest, {'/', '?', '#'})]
  }

  function WithoutUser(authority: string): string {
    match LastIndexOf(authority, '@')
    case None => authority
    case Some(i) => authority[i + 1..]
  }

  function SplitUrl(scheme: string, rest: string): Option<Origin> {
    var authority := Authority(rest);
    match SplitHostInfo(WithoutUser(authority))
    case None => None
    case Some((host, port)) =>
      if host == [] || (port != [] && !(AllDigits(port) && ParseDecimal(port) <= 65535)) then None
      else
        Some(Url(scheme, '@' in authority, Lower(host),
                 if port == [] then None else Some(ParseDecimal(port)), rest[|authority|..]))
  }

  function SplitTcp(target: string): Option<Origin> {
    match LastIndexOf(target, ':')
    case None => None
    case Some(i) =>
      if i > 0 && AllDigits(target[i + 1..]) then Some(Tcp(target[..i], ParseDecimal(target[i + 1..]))) else None
  }

  /** `None` where the source raises. */
  function Split(target: string): Option<Origin> {
    if IsUrl(target) then SplitUrl(UrlScheme(target), UrlRest(target)) else SplitTcp(target)
  }

  function TargetHost(target: string): Option<string> {
    match Split(target)
    case None => None
    case Some(o) => Some(NormaliseHost(o.host))
  }

  function Bracketed(host: string): string {
    if ':' in host then "[" + host + "]" else host
  }

  function OriginPort(o: Origin): nat {
    match o
    case Tcp(_, port) => port
    case Url(scheme, _, _, explicit, _) =>
      if explicit.Some? && explicit.value != 0 then explicit.value
      else if scheme == "https" then 443 else 80
  }

  function CanonicalOf(o: Origin): string {
    var text := Bracketed(NormaliseHost(o.host)) + ":" + Decimal(OriginPort(o));
    if o.Url? then o.scheme + "://" + text else text
  }

  /** Canonical origin used by the exact campaign target allowlist. */
  function CanonicalTarget(target: string): Option<string> {
    match Split(target)
    case None => None
    case Some(o) => Some(CanonicalOf(o))
  }

  /** `target.rpartition(":")` without the separator */
  function Partition(target: string): (string, string) {
    match LastIndexOf(target, ':')
    case None => ("", target)
    case Some(i) => (target[..i], target[i + 1..])
  }

  /** `canonical_target` on targets nobody validated: `int` is less strict than `isdecimal`, and the host
      may be empty.  `None` where it raises. */
  function CanonicalText(target: string): Option<string> {
    if IsUrl(target) then CanonicalTarget(target)
    else
      var (host, raw) := Partition(target);
      var port :- ParseInt(raw);
      Some(Bracketed(NormaliseHost(host)) + ":" + PyText(Int(port)))
  }

  lemma ParseIntOfDigits(s: string)
    requires AllDigits(s)
    ensures ParseInt(s) == Some(ParseDecimal(s))
  {
    assert IsDigit(s[0]) && IsDigit(s[|s| - 1]);
  }

  /** On every target that parses, both readings give the same canonical text. */
  lemma CanonicalTextExtends(target: string)
    requires CanonicalTarget(target).Some?
    ensures CanonicalText(target) == CanonicalTarget(target)
  {
    hide IsUrl, NormaliseHost, Bracketed, ParseInt, Decimal;
    if !IsUrl(target) {
      ParseIntOfDigits(target[LastIndexOf(target, ':').value + 1..]);
    }
  }

  /** The lenient reading admits port text that no valid target has: a sign, for one. */
  lemma LenientPort(host: string, digits: string)
    requires host != [] && host[0] != 'h' && AllDigits(digits)
    ensures CanonicalTarget(host + ":" + digits).Some? && CanonicalTarget(host + ":" + ("+" + digits)).None?
    ensures CanonicalText(host + ":" + ("+" + digits)) == CanonicalTarget(host + ":" + digits)
  {
    hide IsUrl, NormaliseHost, Bracketed, Decimal, ParseDecimal, ParseInt, AllDigits;
    var signed := "+" + digits;
    SignedDigits(digits);
    LenientCut(host, digits);
    LenientCut(host, signed);
    ParseIntOfDigits(digits);
  }

  /** `int` reads over a leading plus sign; `isdecimal` does not. */
  lemma SignedDigits(digits: string)
    requires AllDigits(digits)
    ensures var signed := "+" + digits;
      && !AllDigits(signed) && ':' !in digits && ':' !in signed
      && ParseInt(signed) == Some(ParseDecimal(digits))
  {
    hide ParseDecimal;
    var signed := "+" + digits;
    assert signed[0] == '+' && signed[1..] == digits;
    assert signed[|signed| - 1] == digits[|digits| - 1];
    assert !IsSpace('+') && IsDigit(signed[|signed| - 1]);
  }

  /** How a text that is no URL is cut at its last colon. */
  lemma LenientCut(host: string, raw: string)
    requires host != [] && host[0] != 'h' && ':' !in raw
    ensures var target := host + ":" + raw;
      && !IsUrl(target)
      && LastIndexOf(target, ':') == Some(|host|)
      && target[..|host|] == host && target[|host| + 1..] == raw
  {
    var target := host + ":" + raw;
    assert target[0] == host[0] && target[|host|] == ':';
    assert forall k :: |host| < k < |target| ==> target[k] == raw[k - |host| - 1];
  }

  // ----- acceptance -----

  predicate PortInRange(o: Origin) {
    match o
    case Tcp(_, port) => 1 <= port <= 65535
    case Url(_, _, _, explicit, _) => explicit.Some? ==> 1 <= explicit.value <= 65535
  }

  /** `is_loopback_host` */
  predicate IsLoopbackHost(net: Network, host: string) {
    net.loopback(NormaliseHost(host))
  }

  /** `_validate_remote_host` */
  predicate RemoteHostAllowed(net: Network, safety: SafetyConfig, host: string) {
    && net.privateLiteral(NormaliseHost(host))
    && exists i :: 0 <= i < |safety.allowedRemoteHosts|
         && NormaliseHost(safety.allowedRemoteHosts[i]) == NormaliseHost(host)
  }

  /** `validate_authorized_target`: the host it classifies is normalised once more than the one that
      `validate_loopback_target` checks again. */
  predicate AuthorizedTarget(net: Network, safety: SafetyConfig, target: string): (ok: bool)
    ensures ok ==> CanonicalTarget(target).Some?
  {
    match Split(target)
    case None => false
    case Some(o) =>
      var host := NormaliseHost(o.host);
      && (o.Url? ==> !o.userinfo && (o.scheme == "https" ==> safety.allowHttps))
      && PortInRange(o)
      && if IsLoopbackHost(net, host) then IsLoopbackHost(net, o.host)
         else safety.allowRemote && RemoteHostAllowed(net, safety, host)
  }

  predicate IsRemoteTarget(net: Network, target: string) {
    TargetHost(target).Some? && !IsLoopbackHost(net, TargetHost(target).value)
  }

  // ----- when canonicalisation is stable -----

  /** A condition on the normalised host that a caller can read off it. */
  predicate SettledHost(o: Origin) {
    var r := NormaliseHost(o.host);
    && r != []
    && r[|r| - 1] !in BRACKETS
    && ((o.Tcp? && ':' in r) || EdgesOutside(r, SPACES))
  }

  lemma LowerFixed(s: string)
    ensures Lower(Lower(s)) == Lower(s)
  {
  }

  /** Which edges normalisation leaves behind. */
  lemma NormalisedEdges(host: string)
    ensures var r := NormaliseHost(host);
      && Lower(r) == r
      && (r != [] ==> r[0] !in BRACKETS && r[|r| - 1] !in DOTS)
  {
    var inner := Trim(Trim(host, SPACES), BRACKETS);
    var cut := TrimRight(inner, DOTS);
    LowerFixed(cut);
  }

  /** Normalising twice is harmless exactly when the first pass left no space or bracket at an edge. */
  lemma NormaliseTwice(host: string)
    ensures var r := NormaliseHost(host);
      NormaliseHost(r) == r <==> EdgesOutside(r, SPACES) && EdgesOutside(r, BRACKETS)
  {
    hide Lower, Trim, TrimRight, EdgesOutside;
    var r := NormaliseHost(host);
    NormalisedEdges(host);
    NormaliseOnce(r);
  }

  /** What normalisation leaves alone. */
  lemma NormaliseOnce(r: string)
    requires Lower(r) == r
    requires r != [] ==> r[|r| - 1] !in DOTS
    ensures NormaliseHost(r) == r <==> EdgesOutside(r, SPACES) && EdgesOutside(r, BRACKETS)
  {
    hide Trim, TrimRight, EdgesOutside;
    var a := Trim(r, SPACES);
    var b := Trim(a, BRACKETS);
    var c := TrimRight(b, DOTS);
    assert |Lower(c)| == |c|;
  }

  lemma NormaliseIsNotIdempotent()
    ensures NormaliseHost("a].") == "a]" && NormaliseHost("a]") == "a"
  {
    assert Trim("a].", SPACES) == "a]." && Trim("a].", BRACKETS) == "a].";
    assert TrimRight("a].", DOTS) == "a]" by {
      assert "a]."[..2] == "a]";
    }
    assert Trim("a]", SPACES) == "a]";
    assert Trim("a]", BRACKETS) == "a" by {
      assert "a]"[..1] == "a";
    }
    assert Lower("a]") == "a]" && Lower("a") == "a";
  }

  lemma BracketsAreNotSpaces(r: string)
    ensures Trim("[" + r + "]", SPACES) == "[" + r + "]"
  {
    var s := "[" + r + "]";
    assert s[0] == '[' && s[|s| - 1] == ']';
    assert EdgesOutside(s, SPACES);
  }

  lemma TrimBrackets(r: string)
    requires r != [] && r[0] !in BRACKETS
    ensures Trim("[" + r + "]", BRACKETS) == TrimRight(r, BRACKETS)
  {
    var s := "[" + r + "]";
    var t := r + "]";
    assert s[0] == '[' && s[1..] == t && t[0] == r[0];
    assert TrimLeft(s, BRACKETS) == TrimLeft(t, BRACKETS) == t;
    assert t[|t| - 1] == ']' && t[..|t| - 1] == r;
    assert TrimRight(t, BRACKETS) == TrimRight(r, BRACKETS);
  }

  /** Brackets around a host are peeled off again, together with any of its own. */
  lemma NormaliseBracketed(r: string)
    requires r != [] && Lower(r) == r
    requires r[0] !in BRACKETS && r[|r| - 1] !in DOTS
    ensures NormaliseHost("[" + r + "]") == r <==> r[|r| - 1] !in BRACKETS
  {
    BracketsAreNotSpaces(r);
    TrimBrackets(r);
    var inner := TrimRight(r, BRACKETS);
    var cut := TrimRight(inner, DOTS);
    assert NormaliseHost("[" + r + "]") == Lower(cut);
    assert |cut| <= |inner| <= |r|;
  }

  lemma AfterColon(host: string, port: nat)
    ensures var s := host + ":" + Decimal(port);
      && s[|host|] == ':' && s[..|host|] == host && s[|host| + 1..] == Decimal(port)
      && forall k :: |host| < k < |s| ==> IsDigit(s[k])
  {
    var s := host + ":" + Decimal(port);
    forall k | |host| < k < |s| ensures IsDigit(s[k]) {
      assert s[k] == Decimal(port)[k - |host| - 1];
    }
  }

  lemma LastColon(host: string, port: nat)
    ensures LastIndexOf(host + ":" + Decimal(port), ':') == Some(|host|)
  {
    AfterColon(host, port);
    assert (host + ":" + Decimal(port))[|host|] == ':';
  }

  lemma UrlHead(s: string)
    ensures IsUrl(s) ==> |s| > 6 && s[0] == 'h' && ((s[4] == ':' && s[5] == '/') || (s[5] == ':' && s[6] == '/'))
  {
  }

  lemma CanonicalTcpIsTcp(r: string, port: nat)
    ensures !IsUrl(Bracketed(r) + ":" + Decimal(port))
  {
    var s := Bracketed(r) + ":" + Decimal(port);
    AfterColon(Bracketed(r), port);
    assert ':' in r ==> s[0] == '[';
    assert forall k :: 0 <= k < |Bracketed(r)| ==> s[k] == Bracketed(r)[k];
    assert ':' !in r ==> forall k :: 0 <= k < |s| && s[k] == ':' ==> k == |r| && IsDigit(s[k + 1]);
    UrlHead(s);
  }

  lemma ResplitTcp(r: string, port: nat)
    ensures Split(Bracketed(r) + ":" + Decimal(port)) == if r == [] then None else Some(Tcp(Bracketed(r), port))
  {
    CanonicalTcpIsTcp(r, port);
    LastColon(Bracketed(r), port);
    AfterColon(Bracketed(r), port);
    DecimalRoundTrip(port);
  }

  predicate PlainHost(r: string) {
    forall i :: 0 <= i < |r| ==> r[i] !in {'/', '?', '#', '@', '[', ']'}
  }

  lemma BracketedParts(r: string, d: string)
    requires PlainHost(r)
    ensures var info := "[" + r + "]" + ":" + d;
      && IndexOfAny(info[1..], {']'}) == |r| && info[1..|r| + 1] == r
      && info[|r| + 2..] == ":" + d && (":" + d)[1..] == d
  {
    var tail := ("[" + r + "]" + ":" + d)[1..];
    assert tail == r + "]" + ":" + d;
    assert tail[|r|] == ']' && forall k :: 0 <= k < |r| ==> tail[k] == r[k];
  }

  lemma ResplitHostInfo(r: string, port: nat)
    requires r != [] && PlainHost(r)
    ensures SplitHostInfo(Bracketed(r) + ":" + Decimal(port)) == Some((r, Decimal(port)))
  {
    hide Decimal;
    var d := Decimal(port);
    var info := Bracketed(r) + ":" + d;
    AfterColon(Bracketed(r), port);
    if ':' in r {
      BracketedParts(r, d);
    } else {
      assert forall k :: 0 <= k < |r| ==> info[k] == r[k];
      assert IndexOfAny(info, {':'}) == |r|;
      assert forall k :: 0 <= k < |info| ==> info[k] !in BRACKETS;
    }
  }

  /** A canonical authority has no delimiter, so it is cut out whole. */
  lemma CanonicalAuthority(r: string, port: nat)
    requires PlainHost(r)
    ensures var info := Bracketed(r) + ":" + Decimal(port);
      Authority(info) == info && WithoutUser(info) == info && '@' !in info
  {
    var info := Bracketed(r) + ":" + Decimal(port);
    AfterColon(Bracketed(r), port);
    assert forall k :: 0 <= k < |Bracketed(r)| ==> info[k] == Bracketed(r)[k];
    assert ':' in r ==> forall k :: 0 < k < |r| + 1 ==> info[k] == r[k - 1];
    assert forall k :: 0 <= k < |info| ==> info[k] !in {'/', '?', '#', '@'};
    assert IndexOfAny(info, {'/', '?', '#'}) == |info|;
  }

  /** Scheme and authority are found again around `://`. */
  lemma ResplitScheme(scheme: string, info: string)
    requires scheme == "http" || scheme == "https"
    ensures var c := scheme + "://" + info;
      IsUrl(c) && UrlScheme(c) == scheme && UrlRest(c) == info
  {
    var c := scheme + "://" + info;
    assert c[..|scheme| + 3] == scheme + "://";
    assert c[4] == if scheme == "http" then ':' else 's';
  }

  lemma ResplitAuthority(scheme: string, r: string, port: nat)
    requires PlainHost(r) && port <= 65535
    ensures SplitUrl(scheme, Bracketed(r) + ":" + Decimal(port))
         == if r == [] then None else Some(Url(scheme, false, Lower(r), Some(port), []))
  {
    var info := Bracketed(r) + ":" + Decimal(port);
    CanonicalAuthority(r, port);
    if r == [] {
      assert info[0] == ':';
    } else {
      ResplitHostInfo(r, port);
      DecimalRoundTrip(port);
      assert info[|info|..] == [];
    }
  }

  lemma HostInfoIsPlain(info: string)
    requires SplitHostInfo(info).Some?
    requires forall k :: 0 <= k < |info| ==> info[k] !in {'/', '?', '#', '@'}
    ensures PlainHost(SplitHostInfo(info).value.0)
  {
    var host := SplitHostInfo(info).value.0;
    if info != [] && info[0] == '[' {
      var tail := info[1..];
      assert host == tail[..IndexOfAny(tail, {']'})];
      assert forall k :: 0 <= k < |host| ==> host[k] == info[k + 1];
    }
  }

  /** A host cut out of an authority holds no delimiter, and trimming adds none. */
  lemma UrlHostIsPlain(scheme: string, rest: string)
    requires SplitUrl(scheme, rest).Some?
    ensures PlainHost(NormaliseHost(SplitUrl(scheme, rest).value.host))
  {
    var authority := Authority(rest);
    var info := WithoutUser(authority);
    assert forall k :: 0 <= k < |authority| ==> authority[k] !in {'/', '?', '#'};
    assert forall k :: 0 <= k < |info| ==> info[k] != '@' && info[k] in authority;
    assert forall k :: 0 <= k < |info| ==> info[k] !in {'/', '?', '#', '@'};
    HostInfoIsPlain(info);
    NormalisedChars(Lower(SplitHostInfo(info).value.0));
  }

  lemma {:induction false} TrimLeftPlain(s: string, cs: set<char>)
    requires PlainHost(s)
    ensures PlainHost(TrimLeft(s, cs))
  {
    if s != [] && s[0] in cs {
      TrimLeftPlain(s[1..], cs);
    }
  }

  lemma {:induction false} TrimRightPlain(s: string, cs: set<char>)
    requires PlainHost(s)
    ensures PlainHost(TrimRight(s, cs))
  {
    if s != [] && s[|s| - 1] in cs {
      TrimRightPlain(s[..|s| - 1], cs);
    }
  }

  lemma NormalisedChars(host: string)
    requires PlainHost(host)
    ensures PlainHost(NormaliseHost(host))
  {
    TrimLeftPlain(host, SPACES);
    TrimRightPlain(TrimLeft(host, SPACES), SPACES);
    var a := Trim(host, SPACES);
    TrimLeftPlain(a, BRACKETS);
    TrimRightPlain(TrimLeft(a, BRACKETS), BRACKETS);
    var b := Trim(a, BRACKETS);
    TrimRightPlain(b, DOTS);
    var c := TrimRight(b, DOTS);
    assert PlainHost(c);
  }

  lemma CanonicalStableTcp(target: string)
    requires !IsUrl(target) && Split(target).Some?
    ensures var c := CanonicalTarget(target).value;
      CanonicalTarget(c) == Some(c) && TargetHost(c) == TargetHost(target) <==> SettledHost(Split(target).value)
  {
    var o := Split(target).value;
    var r := NormaliseHost(o.host);
    NormalisedEdges(o.host);
    ResplitTcp(r, o.port);
    if r != [] {
      if ':' in r {
        NormaliseBracketed(r);
      } else {
        NormaliseTwice(o.host);
      }
    }
  }

  /** A slash after the authority changes nothing but the suffix. */
  lemma SplitSlashed(scheme: string, r: string, port: nat)
    requires scheme == "http" || scheme == "https"
    requires PlainHost(r) && Lower(r) == r && r != [] && port <= 65535
    ensures Split(scheme + "://" + ((Bracketed(r) + ":" + Decimal(port)) + "/"))
         == Some(Url(scheme, false, r, Some(port), "/"))
  {
    hide IsUrl, UrlRest, UrlScheme, PlainHost, SplitHostInfo, WithoutUser, Decimal, ParseDecimal;
    var info := Bracketed(r) + ":" + Decimal(port);
    var rest := info + "/";
    ResplitScheme(scheme, rest);
    SlashedAuthority(r, port);
    ResplitHostInfo(r, port);
    DecimalRoundTrip(port);
    assert rest[|info|..] == "/";
  }

  lemma SlashedAuthority(r: string, port: nat)
    requires PlainHost(r)
    ensures var info := Bracketed(r) + ":" + Decimal(port);
      Authority(info + "/") == info && WithoutUser(info) == info && '@' !in info
  {
    var info := Bracketed(r) + ":" + Decimal(port);
    var rest := info + "/";
    CanonicalAuthority(r, port);
    assert forall k :: 0 <= k < |info| ==> rest[k] == info[k] && info[k] !in {'/', '?', '#'};
    assert rest[|info|] == '/';
    assert IndexOfAny(rest, {'/', '?', '#'}) == |info|;
    assert rest[..|info|] == info;
  }

  lemma UrlOriginIsPlain(target: string)
    requires IsUrl(target) && Split(target).Some?
    ensures var o := Split(target).value;
      o.Url? && o.scheme == UrlScheme(target) && OriginPort(o) <= 65535 && PlainHost(NormaliseHost(o.host))
  {
    hide NormaliseHost, PlainHost, SplitHostInfo, WithoutUser, Authority, UrlRest, IsUrl, Lower;
    UrlHostIsPlain(UrlScheme(target), UrlRest(target));
  }

  /** What a canonical URL splits into. */
  lemma ResplitUrl(scheme: string, r: string, port: nat)
    requires scheme == "http" || scheme == "https"
    requires PlainHost(r) && Lower(r) == r && port <= 65535
    ensures Split(scheme + "://" + (Bracketed(r) + ":" + Decimal(port)))
         == if r == [] then None else Some(Url(scheme, false, r, Some(port), []))
  {
    hide SplitUrl, IsUrl, UrlRest, UrlScheme, Bracketed, Decimal, PlainHost, Lower;
    ResplitScheme(scheme, Bracketed(r) + ":" + Decimal(port));
    ResplitAuthority(scheme, r, port);
  }

  lemma CanonicalStableUrl(target: string)
    requires IsUrl(target) && Split(target).Some?
    ensures var c := CanonicalTarget(target).value;
      CanonicalTarget(c) == Some(c) && TargetHost(c) == TargetHost(target) <==> SettledHost(Split(target).value)
  {
    hide Split, NormaliseHost, Bracketed, Decimal, PlainHost, Lower, IsUrl;
    var o := Split(target).value;
    var r := NormaliseHost(o.host);
    UrlOriginIsPlain(target);
    NormalisedEdges(o.host);
    ResplitUrl(o.scheme, r, OriginPort(o));
    NormaliseTwice(o.host);
  }

  /** Canonicalisation is idempotent and keeps the host exactly on settled hosts. */
  lemma CanonicalStable(target: string)
    requires Split(target).Some?
    ensures var c := CanonicalTarget(target).value;
      CanonicalTarget(c) == Some(c) && TargetHost(c) == TargetHost(target) <==> SettledHost(Split(target).value)
  {
    if IsUrl(target) {
      CanonicalStableUrl(target);
    } else {
      CanonicalStableTcp(target);
    }
  }

  /** The text of `localhost` and of IP literals without a scope identifier. */
  predicate LiteralText(host: string) {
    && host != []
    && forall i :: 0 <= i < |host| ==> host[i] in {'.', ':'} || IsDigit(host[i]) || 'a' <= host[i] <= 'z'
  }

  lemma LiteralTextEdges(host: string)
    requires LiteralText(host)
    ensures EdgesOutside(host, SPACES) && host[|host| - 1] !in BRACKETS
  {
  }

  /** An accepted loopback target has a stable canonical form when loopback literals are plain text; an
      accepted remote target has one exactly when its host is settled. */
  lemma AcceptedTargetStable(net: Network, safety: SafetyConfig, target: string)
    requires forall h :: net.loopback(h) ==> LiteralText(h)
    requires AuthorizedTarget(net, safety, target)
    ensures CanonicalTarget(target).Some?
    ensures var c := CanonicalTarget(target).value;
      (CanonicalTarget(c) == Some(c) && TargetHost(c) == TargetHost(target))
      <==> (IsRemoteTarget(net, target) ==> SettledHost(Split(target).value))
  {
    hide NormaliseHost, Split;
    var o := Split(target).value;
    if !IsRemoteTarget(net, target) {
      LiteralTextEdges(NormaliseHost(o.host));
      assert LiteralText(NormaliseHost(o.host));
    }
    CanonicalStable(target);
  }

  // ----- accepted targets that are not stable -----

  /** A TCP target is what `host:port` says. */
  lemma TcpText(host: string, port: nat)
    requires host != [] && host[0] != 'h'
    ensures var target := host + ":" + Decimal(port);
      Split(target) == Some(Tcp(host, port)) && CanonicalTarget(target) == Some(CanonicalOf(Tcp(host, port)))
  {
    var target := host + ":" + Decimal(port);
    assert target[0] == host[0];
    LastColon(host, port);
    AfterColon(host, port);
    DecimalRoundTrip(port);
    hide Decimal, ParseDecimal, CanonicalOf;
  }

  /** What a trailing `].` leaves behind: normalising once keeps the bracket, normalising twice drops it. */
  lemma BracketLeft(name: string)
    requires name != [] && Lower(name) == name
    requires name[0] !in SPACES + BRACKETS && name[|name| - 1] !in BRACKETS + DOTS
    ensures NormaliseHost(name + "].") == name + "]"
    ensures NormaliseHost(name + "]") == name
    ensures NormaliseHost("[" + (name + "]") + "]") == name
  {
    var dotted, open := name + "].", name + "]";
    assert dotted[0] == open[0] == name[0] && open[|open| - 1] == ']' && dotted[|dotted| - 1] == '.';
    assert dotted[|dotted| - 2] == ']' && dotted[..|dotted| - 1] == open && open[..|open| - 1] == name;
    assert Trim(dotted, SPACES) == dotted && Trim(dotted, BRACKETS) == dotted;
    assert TrimRight(dotted, DOTS) == open;
    assert forall i :: 0 <= i < |name| ==> LowerChar(name[i]) == name[i];
    assert Lower(open) == open;
    assert Trim(open, SPACES) == open;
    assert TrimRight(open, BRACKETS) == name;
    assert Trim(open, BRACKETS) == name;
    assert TrimRight(name, DOTS) == name;
    BracketsAreNotSpaces(open);
    TrimBrackets(open);
  }

  /** The literal condition is needed: Python takes any text as a scope identifier, so `::1%a]` is a
      loopback literal, the target below is accepted, and its canonical form is not stable. */
  lemma ScopedTargetUnstable(net: Network, safety: SafetyConfig)
    requires net.loopback("::1%a]") && net.loopback("::1%a")
    ensures var target := "::1%a]." + ":" + Decimal(80);
      && AuthorizedTarget(net, safety, target) && !IsRemoteTarget(net, target)
      && CanonicalTarget(target) == Some("[::1%a]]" + ":" + Decimal(80))
      && CanonicalTarget("[::1%a]]" + ":" + Decimal(80)) == Some("[::1%a]" + ":" + Decimal(80))
  {
    hide NormaliseHost, Split, Decimal;
    assert Lower("::1%a") == "::1%a";
    BracketLeft("::1%a");
    assert "::1%a" + "]." == "::1%a]." && "::1%a" + "]" == "::1%a]" && "[" + "::1%a]" + "]" == "[::1%a]]";
    assert "[" + "::1%a" + "]" == "[::1%a]";
    assert ':' in "::1%a]" && ':' in "::1%a" by {
      assert "::1%a]"[0] == ':' && "::1%a"[0] == ':';
    }
    TcpText("::1%a].", 80);
    TcpText("[::1%a]]", 80);
    hide CanonicalTarget;
  }

  /** So is the settled host: the remote check strips a bracket that the canonical form keeps. */
  lemma BracketedRemoteUnstable(net: Network, safety: SafetyConfig)
    requires safety.allowRemote && net.privateLiteral("10.0.0.1") && !net.loopback("10.0.0.1")
    requires "10.0.0.1" in safety.allowedRemoteHosts
    ensures var target := "10.0.0.1]." + ":" + Decimal(80);
      && AuthorizedTarget(net, safety, target) && IsRemoteTarget(net, target)
      && CanonicalTarget(target) == Some("10.0.0.1]" + ":" + Decimal(80))
      && CanonicalTarget("10.0.0.1]" + ":" + Decimal(80)) == Some("10.0.0.1" + ":" + Decimal(80))
  {
    hide NormaliseHost, Split, Decimal;
    assert Lower("10.0.0.1") == "10.0.0.1";
    BracketLeft("10.0.0.1");
    assert "10.0.0.1" + "]." == "10.0.0.1]." && "10.0.0.1" + "]" == "10.0.0.1]";
    assert NormaliseHost("10.0.0.1") == "10.0.0.1" by {
      NormaliseOnce("10.0.0.1");
    }
    TcpText("10.0.0.1].", 80);
    TcpText("10.0.0.1]", 80);
    var i :| 0 <= i < |safety.allowedRemoteHosts| && safety.allowedRemoteHosts[i] == "10.0.0.1";
    hide CanonicalTarget;
  }

  // ----- which targets are accepted, as texts -----

  /** A host that may be reached: loopback in both of the readings that the code takes of it, or else a private
      literal that the operator listed. */
  predicate ReachableHost(net: Network, safety: SafetyConfig, host: string) {
    var once, twice := NormaliseHost(host), NormaliseHost(NormaliseHost(host));
    if net.loopback(twice) then net.loopback(once)
    else
      safety.allowRemote && net.privateLiteral(NormaliseHost(NormaliseHost(host)))
      && exists h :: h in safety.allowedRemoteHosts && NormaliseHost(h) == twice
  }

  lemma ReachableExactly(net: Network, safety: SafetyConfig, host: string)
    ensures (if IsLoopbackHost(net, NormaliseHost(host)) then IsLoopbackHost(net, host)
             else safety.allowRemote && RemoteHostAllowed(net, safety, NormaliseHost(host)))
         == ReachableHost(net, safety, host)
  {
    hide NormaliseHost;
    if h :| h in safety.allowedRemoteHosts && NormaliseHost(h) == NormaliseHost(NormaliseHost(host)) {
      var i :| 0 <= i < |safety.allowedRemoteHosts| && safety.allowedRemoteHosts[i] == h;
    }
  }

  /** `host:port` is accepted exactly for a reachable host and a port from 1 to 65535. */
  lemma TcpAccepted(net: Network, safety: SafetyConfig, host: string, port: nat)
    requires host != [] && host[0] != 'h'
    ensures AuthorizedTarget(net, safety, host + ":" + Decimal(port)) <==>
      1 <= port <= 65535 && ReachableHost(net, safety, host)
  {
    hide NormaliseHost, Decimal, IsLoopbackHost, RemoteHostAllowed, ReachableHost;
    TcpText(host, port);
    ReachableExactly(net, safety, host);
    hide Split;
  }

  /** A URL is accepted exactly for a reachable host, a port that is not 0, and HTTPS only where it is allowed. */
  lemma UrlAccepted(net: Network, safety: SafetyConfig, scheme: string, host: string, port: nat)
    requires scheme == "http" || scheme == "https"
    requires PlainHost(host) && Lower(host) == host && host != [] && port <= 65535
    ensures AuthorizedTarget(net, safety, scheme + "://" + ((Bracketed(host) + ":" + Decimal(port)) + "/")) <==>
      port != 0 && (scheme == "https" ==> safety.allowHttps) && ReachableHost(net, safety, host)
  {
    hide NormaliseHost, Decimal, IsLoopbackHost, RemoteHostAllowed, ReachableHost, PlainHost, Lower, Bracketed;
    SplitSlashed(scheme, host, port);
    ReachableExactly(net, safety, host);
    hide Split;
  }

  /** A URL with user information is never accepted. */
  lemma UserInfoRefused(net: Network, safety: SafetyConfig, scheme: string, user: string, rest: string)
    requires scheme == "http" || scheme == "https"
    requires forall k :: 0 <= k < |user| ==> user[k] !in {'/', '?', '#'}
    ensures !AuthorizedTarget(net, safety, scheme + "://" + (user + "@" + rest))
  {
    var text := user + "@" + rest;
    ResplitScheme(scheme, text);
    assert text[|user|] == '@' && forall k :: 0 <= k <= |user| ==> text[k] !in {'/', '?', '#'} by {
      assert forall k :: 0 <= k < |user| ==> text[k] == user[k];
    }
    var cut := IndexOfAny(text, {'/', '?', '#'});
    assert cut > |user|;
    assert Authority(text)[|user|] == '@';
    hide SplitHostInfo, WithoutUser, IsUrl, NormaliseHost, IsLoopbackHost, RemoteHostAllowed;
  }

  /** A port that is written is kept, except that 0 stands for the default one. */
  lemma ExplicitPort(scheme: string, host: string, port: nat)
    requires scheme == "http" || scheme == "https"
    requires PlainHost(host) && Lower(host) == host && host != [] && port <= 65535
    ensures var meant := if port != 0 then port else if scheme == "https" then 443 else 80;
      CanonicalTarget(scheme + "://" + ((Bracketed(host) + ":" + Decimal(port)) + "/"))
        == Some(scheme + "://" + (Bracketed(NormaliseHost(host)) + ":" + Decimal(meant)))
  {
    hide PlainHost, Lower, Split, Bracketed, NormaliseHost, Decimal;
    SplitSlashed(scheme, host, port);
    hide SplitHostInfo;
  }

  /** Without a port a URL means 80, or 443 for HTTPS. */
  lemma DefaultPort(scheme: string, host: string)
    requires scheme == "http" || scheme == "https"
    requires PlainHost(host) && Lower(host) == host && host != [] && ':' !in host
    ensures var port := if scheme == "https" then 443 else 80;
      CanonicalTarget(scheme + "://" + host)
        == Some(scheme + "://" + (Bracketed(NormaliseHost(host)) + ":" + Decimal(port)))
  {
    ResplitScheme(scheme, host);
    BareHost(host);
    assert host[|host|..] == [];
    hide IsUrl, UrlRest, UrlScheme, PlainHost, Decimal, NormaliseHost, Bracketed;
    hide Authority, WithoutUser, SplitHostInfo, AllDigits, ParseDecimal;
  }

  lemma BareHost(host: string)
    requires PlainHost(host) && host != [] && ':' !in host
    ensures Authority(host) == host && WithoutUser(host) == host && '@' !in host
    ensures SplitHostInfo(host) == Some((host, []))
  {
    assert forall k :: 0 <= k < |host| ==> host[k] !in {'/', '?', '#', '@', '[', ']'};
    assert IndexOfAny(host, {'/', '?', '#'}) == |host|;
    assert IndexOfAny(host, {':'}) == |host|;
    assert host[..|host|] == host;
  }
}
