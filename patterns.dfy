/** The regular expressions of the adapters, each written out as the match it finds.
    Every function tries the pattern anchored at one position exactly as Python's
    backtracking matcher would (greedy quantifiers that give characters back only as
    far as the rest of the pattern needs), and the searches try the positions from
    left to right, as `re.search` and `re.findall` do. `\s` is `Strings.IsSpace`;
    `\d`, `\w` and the case folding of `re.IGNORECASE` are ASCII here. */
module Patterns {
  import opened Outcomes
  import Strings

  // ---------------------------------------------------------------------------
  // maximal runs

  /** End of the run of whitespace that starts at `i`. */
  function SpaceEnd(s: string, i: nat): (e: nat)
    requires i <= |s|
    ensures i <= e <= |s|
    ensures forall k :: i <= k < e ==> Strings.IsSpace(s[k])
    ensures e < |s| ==> !Strings.IsSpace(s[e])
    decreases |s| - i
  {
    if i < |s| && Strings.IsSpace(s[i]) then SpaceEnd(s, i + 1) else i
  }

  /** End of the run of non-whitespace that starts at `i`. */
  function NonSpaceEnd(s: string, i: nat): (e: nat)
    requires i <= |s|
    ensures i <= e <= |s|
    ensures forall k :: i <= k < e ==> !Strings.IsSpace(s[k])
    ensures e < |s| ==> Strings.IsSpace(s[e])
    decreases |s| - i
  {
    if i < |s| && !Strings.IsSpace(s[i]) then NonSpaceEnd(s, i + 1) else i
  }

  /** End of the run of digits that starts at `i`. */
  function DigitEnd(s: string, i: nat): (e: nat)
    requires i <= |s|
    ensures i <= e <= |s|
    ensures forall k :: i <= k < e ==> Strings.IsDigit(s[k])
    ensures e < |s| ==> !Strings.IsDigit(s[e])
    decreases |s| - i
  {
    if i < |s| && Strings.IsDigit(s[i]) then DigitEnd(s, i + 1) else i
  }

  /** Position of the first newline at or after `i`, or the end: how far `.` reaches. */
  function LineEnd(s: string, i: nat): (e: nat)
    requires i <= |s|
    ensures i <= e <= |s|
    ensures forall k :: i <= k < e ==> s[k] != '\n'
    ensures e < |s| ==> s[e] == '\n'
    decreases |s| - i
  {
    if i < |s| && s[i] != '\n' then LineEnd(s, i + 1) else i
  }

  /** `lit` occurs at `i`, ignoring ASCII case. */
  predicate OccursAtIgnoreCase(s: string, lit: string, i: nat)
  {
    i + |lit| <= |s| && Strings.Lower(s[i..i + |lit|]) == Strings.Lower(lit)
  }

  // ---------------------------------------------------------------------------
  // `<key>\s+(.+)`, ignoring case

  /** The largest `p` with `lo < p < hi` and `s[p]` not a newline. */
  function LastNonNewline(s: string, lo: nat, hi: nat): (r: Option<nat>)
    requires hi <= |s|
    ensures r.Some? ==> lo < r.value < hi && s[r.value] != '\n'
    decreases hi
  {
    if hi <= lo + 1 then None
    else if s[hi - 1] != '\n' then Some(hi - 1)
    else LastNonNewline(s, lo, hi - 1)
  }

  /** The group of `<key>\s+(.+)` anchored at `i`, as its bounds. `\s+` takes the whole
      run of whitespace when a character other than a newline follows it; at the very
      end of the text it gives back characters until `.+` can take one. */
  function LabelValueAt(s: string, key: string, i: nat): (r: Option<(nat, nat)>)
    requires i <= |s|
    ensures r.Some? ==> i + |key| < r.value.0 < r.value.1 <= |s|
    ensures r.Some? ==> forall k :: r.value.0 <= k < r.value.1 ==> s[k] != '\n'
  {
    if !OccursAtIgnoreCase(s, key, i) then None
    else
      var j := i + |key|;
      var k := SpaceEnd(s, j);
      if k == j then None
      else
        var p := if k < |s| then Some(k) else LastNonNewline(s, j, k);
        if p.None? then None else Some((p.value, LineEnd(s, p.value)))
  }

  /** `re.search(key + r"\s+(.+)", s[from:], re.IGNORECASE)`: the group bounds of the
      leftmost match. */
  function SearchLabel(s: string, key: string, from: nat): (r: Option<(nat, nat)>)
    requires from <= |s|
    ensures r.Some? ==> from < r.value.0 < r.value.1 <= |s|
    ensures r.Some? ==> forall k :: r.value.0 <= k < r.value.1 ==> s[k] != '\n'
    decreases |s| - from
  {
    var here := LabelValueAt(s, key, from);
    if here.Some? then here
    else if from == |s| then None
    else SearchLabel(s, key, from + 1)
  }

  /** The group of the first match of `<key>\s+(.+)`, if any. */
  function LabelValue(s: string, key: string): (r: Option<string>)
    ensures r.Some? ==> r.value != [] && '\n' !in r.value
  {
    match SearchLabel(s, key, 0)
    case None => None
    case Some((p, e)) =>
      var g := s[p..e];
      assert forall k :: 0 <= k < |g| ==> g[k] == s[p + k];
      Some(g)
  }

  /** `re.findall(key + r"\s+(.+)", s[from:], re.IGNORECASE)`: the groups of the
      successive non-overlapping matches. */
  function LabelValues(s: string, key: string, from: nat): (r: seq<string>)
    requires from <= |s|
    ensures forall k :: 0 <= k < |r| ==> r[k] != []
    decreases |s| - from
  {
    match SearchLabel(s, key, from)
    case None => []
    case Some((p, e)) => [s[p..e]] + LabelValues(s, key, e)
  }

  // ---------------------------------------------------------------------------
  // `OSVDB-(\d+)`

  /** The digits of the leftmost `OSVDB-<digits>` at or after `from`. */
  function SearchOsvdb(s: string, from: nat): (r: Option<string>)
    requires from <= |s|
    ensures r.Some? ==> Strings.IsDigits(r.value)
    decreases |s| - from
  {
    if from + 6 < |s| && s[from..from + 6] == "OSVDB-" && Strings.IsDigit(s[from + 6]) then
      var e := DigitEnd(s, from + 6);
      var g := s[from + 6..e];
      assert forall k :: 0 <= k < |g| ==> g[k] == s[from + 6 + k];
      Some(g)
    else if from == |s| then None
    else SearchOsvdb(s, from + 1)
  }

  // ---------------------------------------------------------------------------
  // `https?://[^\s]+`

  /** The end of `https?://[^\s]+` anchored at `i`. */
  function UrlAt(s: string, i: nat): (r: Option<nat>)
    requires i <= |s|
    ensures r.Some? ==> i + 8 <= r.value <= |s| && s[i..i + 4] == "http"
  {
    var rest :=
      if Strings.OccursAt(s, "https://", i) then i + 8
      else if Strings.OccursAt(s, "http://", i) then i + 7
      else i;
    if rest == i then None
    else
      assert s[i..i + 4] == (if rest == i + 8 then s[i..i + 8] else s[i..i + 7])[..4];
      var e := NonSpaceEnd(s, rest);
      if e == rest then None else Some(e)
  }

  /** `re.search(r"https?://[^\s]+", s[from:]).group(0)` */
  function SearchUrl(s: string, from: nat): (r: Option<string>)
    requires from <= |s|
    ensures r.Some? ==> Strings.StartsWith(r.value, "http")
    decreases |s| - from
  {
    match UrlAt(s, from)
    case Some(e) =>
      assert s[from..e][..4] == s[from..from + 4];
      assert Strings.StartsWith(s[from..e], "http");
      Some(s[from..e])
    case None => if from == |s| then None else SearchUrl(s, from + 1)
  }

  // ---------------------------------------------------------------------------
  // `(\S+)\s+->\s+\[(.+)\]`

  /** The largest `k` with `lo <= k < hi` and `s[k] == ']'`. */
  function LastClose(s: string, lo: nat, hi: nat): (r: Option<nat>)
    requires hi <= |s|
    ensures r.Some? ==> lo <= r.value < hi && s[r.value] == ']'
    decreases hi
  {
    if hi <= lo then None
    else if s[hi - 1] == ']' then Some(hi - 1)
    else LastClose(s, lo, hi - 1)
  }

  /** The two groups of `(\S+)\s+->\s+\[(.+)\]` anchored at `i`. `\S+` and the `\s+`
      after it must take their whole runs, since what follows them differs from what
      they match; `.+` takes the line up to its last `]`. */
  function ArrowAt(s: string, i: nat): (r: Option<(string, string)>)
    requires i <= |s|
    ensures r.Some? ==> r.value.0 != [] && r.value.1 != []
  {
    var j := NonSpaceEnd(s, i);
    if j == i then None
    else
      var k := SpaceEnd(s, j);
      if k == j || !Strings.OccursAt(s, "->", k) then None
      else
        var m := SpaceEnd(s, k + 2);
        if m == k + 2 || m == |s| || s[m] != '[' then None
        else
          match LastClose(s, m + 2, LineEnd(s, m + 1))
          case None => None
          case Some(close) => Some((s[i..j], s[m + 1..close]))
  }

  /** `re.search(r"(\S+)\s+->\s+\[(.+)\]", s[from:])` */
  function SearchArrow(s: string, from: nat): (r: Option<(string, string)>)
    requires from <= |s|
    ensures r.Some? ==> r.value.0 != [] && r.value.1 != []
    decreases |s| - from
  {
    var here := ArrowAt(s, from);
    if here.Some? || from == |s| then here else SearchArrow(s, from + 1)
  }

  // ---------------------------------------------------------------------------
  // `\b(?:\d{1,3}\.){3}\d{1,3}\b`

  /** `\w`, ASCII */
  predicate IsWordChar(c: char)
  {
    Strings.IsAlnum(c) || c == '_'
  }

  /** Where a run of one to three digits at `p` that the pattern requires to be
      followed by `.` ends, after the dot. A longer run cannot match: no shorter prefix
      of it is followed by a dot. */
  function OctetDot(s: string, p: nat): (r: Option<nat>)
    requires p <= |s|
    ensures r.Some? ==> p + 2 <= r.value <= p + 4 && r.value <= |s| && s[r.value - 1] == '.'
    ensures r.Some? ==> forall k :: p <= k < r.value - 1 ==> Strings.IsDigit(s[k])
  {
    var e := DigitEnd(s, p);
    if 1 <= e - p <= 3 && e < |s| && s[e] == '.' then Some(e + 1) else None
  }

  /** Where the last run of one to three digits ends, when a word boundary follows. */
  function OctetEnd(s: string, p: nat): (r: Option<nat>)
    requires p <= |s|
    ensures r.Some? ==> p + 1 <= r.value <= p + 3 && r.value <= |s|
    ensures r.Some? ==> forall k :: p <= k < r.value ==> Strings.IsDigit(s[k])
    ensures r.Some? ==> r.value == |s| || !IsWordChar(s[r.value])
  {
    var e := DigitEnd(s, p);
    if 1 <= e - p <= 3 && (e == |s| || !IsWordChar(s[e])) then Some(e) else None
  }

  /** The end of a dotted quad anchored at `i`, which needs a word boundary before it. */
  function QuadAt(s: string, i: nat): (r: Option<nat>)
    requires i <= |s|
    ensures r.Some? ==> i + 7 <= r.value <= i + 15 && r.value <= |s|
    ensures r.Some? ==> forall k :: i <= k < r.value ==> Strings.IsDigit(s[k]) || s[k] == '.'
  {
    if i < |s| && Strings.IsDigit(s[i]) && (i == 0 || !IsWordChar(s[i - 1])) then
      match OctetDot(s, i)
      case None => None
      case Some(a) =>
        match OctetDot(s, a)
        case None => None
        case Some(b) =>
          match OctetDot(s, b)
          case None => None
          case Some(c) => OctetEnd(s, c)
    else None
  }

  /** A dotted quad as the pattern finds one: seven to fifteen characters, digits and
      dots only, starting and ending with a digit. */
  predicate QuadShaped(x: string)
  {
    7 <= |x| <= 15 && Strings.IsDigit(x[0]) && Strings.IsDigit(x[|x| - 1])
    && forall k :: 0 <= k < |x| ==> Strings.IsDigit(x[k]) || x[k] == '.'
  }

  /** `re.findall(r"\b(?:\d{1,3}\.){3}\d{1,3}\b", s[from:])`, left to right and without
      overlaps. */
  function FindQuads(s: string, from: nat): (r: seq<string>)
    requires from <= |s|
    ensures forall k :: 0 <= k < |r| ==> QuadShaped(r[k])
    decreases |s| - from
  {
    if from == |s| then []
    else
      match QuadAt(s, from)
      case None => FindQuads(s, from + 1)
      case Some(e) =>
        var x := s[from..e];
        assert forall k :: 0 <= k < |x| ==> x[k] == s[from + k];
        [x] + FindQuads(s, e)
  }
}
