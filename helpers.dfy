/** Formatting and validation helpers: durations, file names, truncation, and the IP,
    domain and URL validators. Each validator is its regular expression written out as
    a predicate over the string; like Python's `$`, each also accepts one trailing
    newline. */
module Helpers {
  import Strings
  import Seqs
  import Patterns

  // ---------------------------------------------------------------------------
  // format_duration

  datatype Unit = Day | Hour | Minute | Second
  {
    function Suffix(): char
    {
      match this
      case Day => 'd'
      case Hour => 'h'
      case Minute => 'm'
      case Second => 's'
    }

    function Seconds(): nat
    {
      match this
      case Day => 86400
      case Hour => 3600
      case Minute => 60
      case Second => 1
    }

    /** Position in the rendering order. */
    function Rank(): nat
    {
      match this
      case Day => 0
      case Hour => 1
      case Minute => 2
      case Second => 3
    }
  }

  /** One shown component: present only when positive. */
  function Piece(v: int, u: Unit): seq<(nat, Unit)>
  {
    if v > 0 then [(v as nat, u)] else []
  }

  /** The components `format_duration` shows for a whole number of seconds, as
      `timedelta` splits it: days (floored, so negative for negative input), then hours,
      minutes and seconds of the non-negative remainder. Zero components are left out,
      except seconds when nothing else is shown. */
  function DurationParts(n: int): seq<(nat, Unit)>
  {
    var rest := n % 86400;
    var front := Piece(n / 86400, Day) + Piece(rest / 3600, Hour) + Piece(rest % 3600 / 60, Minute);
    if rest % 60 > 0 || front == [] then front + [(rest % 60, Second)] else front
  }

  function RenderPart(p: (nat, Unit)): string
  {
    Strings.NatToString(p.0) + [p.1.Suffix()]
  }

  /** `format_duration(seconds)` for a whole number of seconds. */
  function FormatDuration(n: int): (r: string)
    ensures r != [] && r[|r| - 1] in "dhms"
  {
    DurationShape(n);
    Strings.JoinEndsAsLast(" ", Seqs.Map(DurationParts(n), RenderPart));
    Strings.Join(" ", Seqs.Map(DurationParts(n), RenderPart))
  }

  /** The seconds the parts stand for. */
  function PartsValue(parts: seq<(nat, Unit)>): int
  {
    if parts == [] then 0 else PartsValue(parts[..|parts| - 1]) + parts[|parts| - 1].0 * parts[|parts| - 1].1.Seconds()
  }

  lemma {:induction false} PartsValueConcat(a: seq<(nat, Unit)>, b: seq<(nat, Unit)>)
    ensures PartsValue(a + b) == PartsValue(a) + PartsValue(b)
    decreases |b|
  {
    if b != [] {
      var n := |b| - 1;
      assert (a + b)[..|a + b| - 1] == a + b[..n];
      PartsValueConcat(a, b[..n]);
    } else {
      assert a + b == a;
    }
  }

  lemma PieceValue(v: int, u: Unit)
    requires v >= 0
    ensures PartsValue(Piece(v, u)) == v * u.Seconds()
  {
    if v > 0 {
      assert Piece(v, u)[..0] == [];
    }
  }

  /** For a non-negative duration the shown parts add up to it. */
  lemma DurationSum(n: int)
    requires n >= 0
    ensures PartsValue(DurationParts(n)) == n
  {
    var rest := n % 86400;
    var d := Piece(n / 86400, Day);
    var h := Piece(rest / 3600, Hour);
    var m := Piece(rest % 3600 / 60, Minute);
    var s: seq<(nat, Unit)> := if rest % 60 > 0 || d + h + m == [] then [(rest % 60, Second)] else [];
    assert DurationParts(n) == d + h + m + s;
    PieceValue(n / 86400, Day);
    PieceValue(rest / 3600, Hour);
    PieceValue(rest % 3600 / 60, Minute);
    PartsValueConcat(d, h);
    PartsValueConcat(d + h, m);
    PartsValueConcat(d + h + m, s);
    if s != [] {
      assert s[..0] == [];
    }
    assert n == n / 86400 * 86400 + rest;
    assert rest == rest / 3600 * 3600 + rest % 3600 / 60 * 60 + rest % 60;
  }

  /** The parts come in the order d, h, m, s; every part but a lone `0s` is positive;
      hours stay below 24 and minutes and seconds below 60. */
  lemma DurationShape(n: int)
    ensures var parts := DurationParts(n);
            parts != []
            && (forall i, j :: 0 <= i < j < |parts| ==> parts[i].1.Rank() < parts[j].1.Rank())
            && (forall i :: 0 <= i < |parts| ==> parts[i].0 > 0 || parts == [(0, Second)])
            && (forall i :: 0 <= i < |parts| && parts[i].1 != Day ==> parts[i].0 < Limit(parts[i].1))
  {
    var rest := n % 86400;
    assert rest / 3600 < 24;
  }

  /** The bound of a component other than days. */
  function Limit(u: Unit): nat
  {
    match u
    case Day => 0
    case Hour => 24
    case Minute => 60
    case Second => 60
  }

  /** Zero seconds is shown as `0s`; so is a whole number of negative days. */
  lemma FormatZero()
    ensures FormatDuration(0) == "0s"
  {
    assert DurationParts(0) == [(0, Second)];
    assert Strings.DigitChar(0) == '0';
    assert RenderPart((0, Second)) == "0s";
    assert Seqs.Map(DurationParts(0), RenderPart) == ["0s"];
  }

  /** A negative duration loses its (negative) days: only the hours, minutes and seconds
      of its remainder modulo a day are shown. */
  lemma NegativeDurationDropsDays(n: int)
    requires n < 0
    ensures DurationParts(n) == DurationParts(n % 86400)
  {
  }

  // ---------------------------------------------------------------------------
  // the validators

  /** Python's `$`: the pattern matches the whole string, or all of it but one final
      newline. */
  predicate MatchesToEnd(s: string, text: string -> bool)
  {
    text(s) || (s != [] && s[|s| - 1] == '\n' && text(s[..|s| - 1]))
  }

  /** `25[0-5]|2[0-4][0-9]|[01]?[0-9][0-9]?` */
  predicate IsOctetPattern(p: string)
  {
    (|p| == 3 && p[0] == '2' && p[1] == '5' && '0' <= p[2] <= '5')
    || (|p| == 3 && p[0] == '2' && '0' <= p[1] <= '4' && Strings.IsDigit(p[2]))
    || (|p| == 3 && (p[0] == '0' || p[0] == '1') && Strings.IsDigit(p[1]) && Strings.IsDigit(p[2]))
    || (1 <= |p| <= 2 && Strings.IsDigits(p))
  }

  /** Four octets joined by dots. */
  predicate IsIpText(t: string)
  {
    var parts := Strings.Split(t, '.');
    |parts| == 4 && forall i :: 0 <= i < 4 ==> IsOctetPattern(parts[i])
  }

  function IpTextFn(): string -> bool { t => IsIpText(t) }

  /** `is_valid_ip(ip)` */
  predicate IsValidIp(ip: string): (b: bool)
    ensures b ==> ip != [] && Strings.IsDigit(ip[0]) && '\n' !in ip[..|ip| - 1]
  {
    IpMatchShape(ip);
    MatchesToEnd(ip, IpTextFn())
  }

  /** `[a-zA-Z0-9](?:[a-zA-Z0-9-]{0,61}[a-zA-Z0-9])?` */
  predicate IsLabel(p: string)
  {
    1 <= |p| <= 63 && Strings.IsAlnum(p[0]) && Strings.IsAlnum(p[|p| - 1])
    && forall i :: 0 <= i < |p| ==> Strings.IsAlnum(p[i]) || p[i] == '-'
  }

  /** `[a-zA-Z]{2,}` */
  predicate IsTld(p: string)
  {
    |p| >= 2 && forall i :: 0 <= i < |p| ==> Strings.IsAsciiLetter(p[i])
  }

  /** One or more labels, each followed by a dot, then a top-level name. */
  predicate IsDomainText(t: string)
  {
    var parts := Strings.Split(t, '.');
    |parts| >= 2 && (forall i :: 0 <= i < |parts| - 1 ==> IsLabel(parts[i])) && IsTld(parts[|parts| - 1])
  }

  function DomainTextFn(): string -> bool { t => IsDomainText(t) }

  /** `is_valid_domain(domain)` */
  predicate IsValidDomain(domain: string): (b: bool)
    ensures b ==> domain != [] && ':' !in domain && '\n' !in domain[..|domain| - 1]
  {
    DomainMatchShape(domain);
    MatchesToEnd(domain, DomainTextFn())
  }

  /** `(?:\d{1,3}\.){3}\d{1,3}`: four groups of one to three digits, not range-checked. */
  predicate IsQuadText(t: string)
  {
    var parts := Strings.Split(t, '.');
    |parts| == 4 && forall i :: 0 <= i < 4 ==> 1 <= |parts[i]| <= 3 && Strings.IsDigits(parts[i])
  }

  /** The end of the host part: the first `:` or `/` at or after `i`, or the end. */
  function HostEnd(r: string, i: nat): (k: nat)
    requires i <= |r|
    ensures i <= k <= |r|
    ensures forall j :: i <= j < k ==> r[j] != ':' && r[j] != '/'
    ensures k < |r| ==> r[k] == ':' || r[k] == '/'
    decreases |r| - i
  {
    if i == |r| || r[i] == ':' || r[i] == '/' then i else HostEnd(r, i + 1)
  }

  /** `(?:/.*)?`, to the end: empty, or a `/` then anything but a newline. */
  predicate IsPathText(x: string)
  {
    x == [] || (x[0] == '/' && '\n' !in x)
  }

  /** `(?::\d+)?(?:/.*)?`, to the end. */
  predicate IsTailText(x: string)
  {
    IsPathText(x)
    || (x != [] && x[0] == ':' && var e := Patterns.DigitEnd(x, 1); e > 1 && IsPathText(x[e..]))
  }

  /** A scheme, a host that is a domain or a dotted quad, an optional port and an
      optional path. */
  predicate IsUrlText(t: string)
  {
    var rest := if Strings.StartsWith(t, "https://") then t[8..] else if Strings.StartsWith(t, "http://") then t[7..] else t;
    (Strings.StartsWith(t, "https://") || Strings.StartsWith(t, "http://"))
    && var k := HostEnd(rest, 0);
       (IsDomainText(rest[..k]) || IsQuadText(rest[..k])) && IsTailText(rest[k..])
  }

  function UrlTextFn(): string -> bool { t => IsUrlText(t) }

  /** `is_valid_url(url)` */
  predicate IsValidUrl(url: string): (b: bool)
    ensures b ==> |url| >= 8 && url[0] == 'h' && (url[4] == ':' || url[5] == ':')
  {
    UrlMatchShape(url);
    MatchesToEnd(url, UrlTextFn())
  }

  // ---------------------------------------------------------------------------
  // properties of the validators

  /** The octet alternatives accept exactly the one- to three-digit numerals of value at
      most 255, leading zeros allowed. */
  lemma OctetIsByte(p: string)
    ensures IsOctetPattern(p) <==> 1 <= |p| <= 3 && Strings.IsDigits(p) && Strings.DigitsValue(p) <= 255
  {
    if 1 <= |p| <= 3 && Strings.IsDigits(p) {
      if |p| == 3 {
        DigitsValue3(p);
      } else if |p| == 2 {
        assert p[..1][..0] == [];
        assert Strings.DigitsValue(p[..1]) <= 9;
      } else {
        assert p[..0] == [];
      }
    }
  }

  lemma DigitsValue3(p: string)
    requires |p| == 3 && Strings.IsDigits(p)
    ensures Strings.DigitsValue(p) == (p[0] as int - '0' as int) * 100 + (p[1] as int - '0' as int) * 10 + (p[2] as int - '0' as int)
  {
    var a := p[..1];
    var b := p[..2];
    assert b[..1] == a && a[..0] == [];
    assert Strings.DigitsValue(a) == p[0] as int - '0' as int;
    assert Strings.DigitsValue(b) == Strings.DigitsValue(a) * 10 + (p[1] as int - '0' as int);
  }

  /** An IP text is exactly four dot-separated numerals of value at most 255. */
  lemma IpIsFourBytes(t: string)
    ensures IsIpText(t) <==>
              var parts := Strings.Split(t, '.');
              |parts| == 4 && forall i :: 0 <= i < 4 ==>
                1 <= |parts[i]| <= 3 && Strings.IsDigits(parts[i]) && Strings.DigitsValue(parts[i]) <= 255
  {
    var parts := Strings.Split(t, '.');
    forall i | 0 <= i < |parts|
      ensures IsOctetPattern(parts[i]) <==> 1 <= |parts[i]| <= 3 && Strings.IsDigits(parts[i]) && Strings.DigitsValue(parts[i]) <= 255
    {
      OctetIsByte(parts[i]);
    }
  }

  /** Every valid IP is also accepted as the host of a URL. */
  lemma IpTextIsQuad(t: string)
    requires IsIpText(t)
    ensures IsQuadText(t)
  {
    var parts := Strings.Split(t, '.');
    forall i | 0 <= i < 4
      ensures 1 <= |parts[i]| <= 3 && Strings.IsDigits(parts[i])
    {
      OctetIsByte(parts[i]);
    }
  }

  /** An IP or domain text holds no newline, so `$` admits only the one final newline
      of the whole string. */
  lemma ValidTextsHaveNoNewline(t: string)
    ensures IsIpText(t) || IsDomainText(t) ==> '\n' !in t
  {
    Strings.SplitKeepsChars(t, '.', '\n');
  }

  /** An address is valid as it stands and with one trailing newline, never with two. */
  lemma IpOneTrailingNewline(t: string)
    requires IsIpText(t)
    ensures IsValidIp(t) && IsValidIp(t + "\n") && !IsValidIp(t + "\n\n")
  {
    assert (t + "\n")[..|t|] == t;
    assert (t + "\n\n")[..|t| + 1] == t + "\n";
    ValidTextsHaveNoNewline(t + "\n");
    ValidTextsHaveNoNewline(t + "\n\n");
    assert (t + "\n")[|t|] == '\n';
    assert (t + "\n\n")[|t|] == '\n';
  }

  /** A domain is valid as it stands and with one trailing newline, never with two. */
  lemma DomainOneTrailingNewline(t: string)
    requires IsDomainText(t)
    ensures IsValidDomain(t) && IsValidDomain(t + "\n") && !IsValidDomain(t + "\n\n")
  {
    assert (t + "\n")[..|t|] == t;
    assert (t + "\n\n")[..|t| + 1] == t + "\n";
    ValidTextsHaveNoNewline(t + "\n");
    ValidTextsHaveNoNewline(t + "\n\n");
    assert (t + "\n")[|t|] == '\n';
    assert (t + "\n\n")[|t|] == '\n';
  }

  /** An address text begins with a digit. */
  lemma IpTextStartsWithDigit(u: string)
    ensures IsIpText(u) ==> u != [] && Strings.IsDigit(u[0])
  {
    if IsIpText(u) {
      var first := Strings.Split(u, '.')[0];
      Strings.SplitFirstIsPrefix(u, '.');
      assert IsOctetPattern(first);
      assert first != [] && Strings.IsDigit(first[0]);
      assert u[..|first|] == first;
      assert u[0] == first[0];
    }
  }

  /** A URL text begins with `h`, has its scheme's colon at position 4 or 5, and a
      host after it. */
  lemma UrlTextScheme(w: string)
    ensures IsUrlText(w) ==> |w| >= 8 && w[0] == 'h' && (w[4] == ':' || w[5] == ':')
  {
    assert Strings.Split([], '.') == [""];
  }

  lemma IpMatchShape(ip: string)
    ensures MatchesToEnd(ip, IpTextFn()) ==> ip != [] && Strings.IsDigit(ip[0]) && '\n' !in ip[..|ip| - 1]
  {
    if MatchesToEnd(ip, IpTextFn()) {
      var t := if IsIpText(ip) then ip else ip[..|ip| - 1];
      IpTextStartsWithDigit(t);
      ValidTextsHaveNoNewline(t);
      assert ip[0] == t[0];
      if t == ip {
        assert ip == ip[..|ip| - 1] + [ip[|ip| - 1]];
      } else {
        assert ip[..|ip| - 1] == t;
      }
    }
  }

  lemma DomainMatchShape(d: string)
    ensures MatchesToEnd(d, DomainTextFn()) ==> d != [] && ':' !in d && '\n' !in d[..|d| - 1]
  {
    if MatchesToEnd(d, DomainTextFn()) {
      var t := if IsDomainText(d) then d else d[..|d| - 1];
      DomainTextHasNoColon(t);
      ValidTextsHaveNoNewline(t);
      if t == d {
        assert d == d[..|d| - 1] + [d[|d| - 1]];
      } else {
        assert d[..|d| - 1] == t;
        assert d == t + ['\n'];
      }
    }
  }

  lemma UrlMatchShape(url: string)
    ensures MatchesToEnd(url, UrlTextFn()) ==> |url| >= 8 && url[0] == 'h' && (url[4] == ':' || url[5] == ':')
  {
    if MatchesToEnd(url, UrlTextFn()) {
      var t := if IsUrlText(url) then url else url[..|url| - 1];
      UrlTextScheme(t);
      assert forall k :: 0 <= k < |t| ==> url[k] == t[k];
    }
  }

  /** An address is never read as a URL, so an address target is port-scanned. */
  lemma IpIsNotUrl(t: string)
    requires IsValidIp(t)
    ensures !IsValidUrl(t)
  {
    var u := if IsIpText(t) then t else t[..|t| - 1];
    IpTextStartsWithDigit(u);
    assert t[0] == u[0];
    UrlTextScheme(t);
    if t != [] {
      UrlTextScheme(t[..|t| - 1]);
      assert |t| > 1 ==> t[..|t| - 1][0] == t[0];
    }
  }

  /** A domain text holds no colon. */
  lemma DomainTextHasNoColon(d: string)
    ensures IsDomainText(d) ==> ':' !in d
  {
    var parts := Strings.Split(d, '.');
    Strings.SplitKeepsChars(d, '.', ':');
    if IsDomainText(d) {
      forall i | 0 <= i < |parts|
        ensures ':' !in parts[i]
      {
        if i < |parts| - 1 {
          assert IsLabel(parts[i]);
        } else {
          assert IsTld(parts[i]);
        }
      }
    }
  }

  /** The last of four octets is a numeral, never a top-level name. */
  lemma IpTextIsNotDomainText(u: string)
    ensures IsIpText(u) ==> !IsDomainText(u)
  {
    if IsIpText(u) {
      var parts := Strings.Split(u, '.');
      assert IsOctetPattern(parts[3]);
      assert Strings.IsDigit(parts[3][0]);
      assert !Strings.IsAsciiLetter(parts[3][0]);
    }
  }

  /** A domain is neither a URL nor an address, so a domain target is enumerated for
      subdomains. */
  lemma DomainIsNeitherUrlNorIp(t: string)
    requires IsValidDomain(t)
    ensures !IsValidUrl(t) && !IsValidIp(t)
  {
    var d := if IsDomainText(t) then t else t[..|t| - 1];
    DomainTextHasNoColon(d);
    ValidTextsHaveNoNewline(d);
    ValidTextsHaveNoNewline(t);
    IpTextIsNotDomainText(d);
    UrlTextScheme(t);
    if t != [] {
      var w := t[..|t| - 1];
      UrlTextScheme(w);
      assert forall k :: 0 <= k < |w| ==> w[k] == t[k];
      assert t[|t| - 1] in t;
    }
  }

  // ---------------------------------------------------------------------------
  // sanitize_filename and truncate_string

  /** The characters `sanitize_filename` replaces. */
  predicate IsForbidden(c: char)
  {
    c == '<' || c == '>' || c == ':' || c == '"' || c == '/' || c == '\\' || c == '|' || c == '?' || c == '*'
  }

  predicate IsDotOrSpace(c: char) { c == '.' || c == ' ' }

  /** `re.sub(r'[<>:"/\\|?*]', '_', s)` */
  function ReplaceForbidden(s: string): (r: string)
    ensures |r| == |s|
    ensures forall i :: 0 <= i < |s| ==> r[i] == if IsForbidden(s[i]) then '_' else s[i]
    ensures NoForbidden(r)
  {
    seq(|s|, i requires 0 <= i < |s| => if IsForbidden(s[i]) then '_' else s[i])
  }

  /** `s.lstrip('. ')` */
  function LStripDotsSpaces(s: string): (r: string)
    ensures |r| <= |s| && r == s[|s| - |r|..]
    ensures r != [] ==> !IsDotOrSpace(r[0])
  {
    if s != [] && IsDotOrSpace(s[0]) then LStripDotsSpaces(s[1..]) else s
  }

  /** `s.rstrip('. ')` */
  function RStripDotsSpaces(s: string): (r: string)
    ensures |r| <= |s| && r == s[..|r|]
    ensures r != [] ==> !IsDotOrSpace(r[|r| - 1])
  {
    if s != [] && IsDotOrSpace(s[|s| - 1]) then RStripDotsSpaces(s[..|s| - 1]) else s
  }

  /** `sanitize_filename(s)`: forbidden characters replaced by `_`, dots and spaces
      stripped from both ends, then cut to 200 characters. */
  function SanitizeFilename(s: string): (r: string)
    ensures |r| <= 200 && NoForbidden(r)
    ensures r != [] ==> !IsDotOrSpace(r[0])
  {
    SanitizedShape(s);
    var t := RStripDotsSpaces(LStripDotsSpaces(ReplaceForbidden(s)));
    if |t| > 200 then t[..200] else t
  }

  /** After replacing and stripping, no forbidden character is left anywhere and the
      first character is neither a dot nor a space, so every prefix keeps both. */
  lemma SanitizedShape(s: string)
    ensures var t := RStripDotsSpaces(LStripDotsSpaces(ReplaceForbidden(s)));
            var r := if |t| > 200 then t[..200] else t;
            |r| <= 200 && NoForbidden(r) && (r != [] ==> !IsDotOrSpace(r[0]))
  {
    var a := ReplaceForbidden(s);
    var b := LStripDotsSpaces(a);
    var t := RStripDotsSpaces(b);
    NoForbiddenSlice(a, |a| - |b|, |a|);
    NoForbiddenSlice(b, 0, |t|);
    NoForbiddenSlice(t, 0, if |t| > 200 then 200 else |t|);
    assert t != [] ==> t[0] == b[0];
  }

  predicate NoForbidden(s: string)
  {
    forall i :: 0 <= i < |s| ==> !IsForbidden(s[i])
  }

  lemma NoForbiddenSlice(s: string, i: nat, j: nat)
    requires i <= j <= |s| && NoForbidden(s)
    ensures NoForbidden(s[i..j])
  {
    assert forall k :: 0 <= k < j - i ==> s[i..j][k] == s[i + k];
  }

  /** Cutting at 200 characters can leave a trailing dot, which a second pass strips:
      sanitizing is not idempotent. */
  lemma SanitizeNotIdempotent()
    ensures var s := seq(199, i => 'a') + ".b";
            SanitizeFilename(SanitizeFilename(s)) != SanitizeFilename(s)
  {
    var s := seq(199, i => 'a') + ".b";
    assert ReplaceForbidden(s) == s;
    assert LStripDotsSpaces(s) == s;
    assert RStripDotsSpaces(s) == s;
    var once := s[..200];
    assert SanitizeFilename(s) == once;
    assert once[199] == '.';
    assert |SanitizeFilename(once)| < 200;
  }

  /** `s[:k]` for any integer `k`: a negative `k` counts from the end. */
  function SliceTo(s: string, k: int): (r: string)
    ensures |r| <= |s| && r == s[..|r|]
  {
    if k >= 0 then (if k <= |s| then s[..k] else s)
    else if |s| + k <= 0 then []
    else s[..|s| + k]
  }

  /** `truncate_string(s, max_length, suffix)` */
  function TruncateString(s: string, maxLength: int, suffix: string): (r: string)
    ensures |s| <= maxLength ==> r == s
    ensures |s| > maxLength ==>
              |suffix| <= |r| <= |s| + |suffix| && r[|r| - |suffix|..] == suffix && r[..|r| - |suffix|] == s[..|r| - |suffix|]
  {
    if |s| <= maxLength then s else SliceTo(s, maxLength - |suffix|) + suffix
  }

  /** A string that fits is returned unchanged; a longer one is cut to exactly
      `max_length` characters ending in the suffix, when the suffix fits. */
  lemma TruncateSpec(s: string, maxLength: int, suffix: string)
    ensures |s| <= maxLength ==> TruncateString(s, maxLength, suffix) == s
    ensures |s| > maxLength >= |suffix| ==>
              var r := TruncateString(s, maxLength, suffix);
              |r| == maxLength && r == s[..maxLength - |suffix|] + suffix
  {
  }

  /** When the suffix is longer than `max_length`, the slice index is negative and the
      result outgrows the limit. */
  lemma TruncateShortLimit()
    ensures TruncateString("abcdef", 2, "...") == "abcde..."
  {
  }
}
