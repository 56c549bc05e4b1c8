/** Task chaining: a table of rules, each naming a follow-up tool for the assets its
    condition accepts. The follow-ups for an asset are the matching rules' entries,
    sorted by descending priority with ties in rule order. */
module Rules {
  import opened Json
  import opened Models

  /** A chaining rule; `priority` is 5 unless given. */
  datatype ChainRule = ChainRule(name: string, condition: Asset -> bool, targetTool: string, reason: string, priority: int := 5)

  /** A follow-up `(tool, reason, priority)`. */
  datatype NextTool = NextTool(tool: string, reason: string, priority: int)

  predicate IsWordPress(a: Asset)
  {
    a.assetType == "http_service" && "technology" in a.metadata && a.metadata["technology"] == JStr("WordPress")
  }

  const DomainToDns: ChainRule := ChainRule("domain_to_dns", (a: Asset) => a.assetType == "domain", "dnsrecon", "Enumerate DNS records", 10)
  const DomainToWhois: ChainRule := ChainRule("domain_to_whois", (a: Asset) => a.assetType == "domain", "whois", "Get WHOIS information", 9)
  const DomainToSubfinder: ChainRule := ChainRule("domain_to_subfinder", (a: Asset) => a.assetType == "domain", "subfinder", "Find subdomains", 10)
  const DomainToAmass: ChainRule := ChainRule("domain_to_amass", (a: Asset) => a.assetType == "domain", "amass", "Deep subdomain enumeration", 8)
  const SubdomainToDnsx: ChainRule := ChainRule("subdomain_to_dnsx", (a: Asset) => a.assetType == "subdomain", "dnsx", "Resolve subdomain IPs", 9)
  const SubdomainToHttpx: ChainRule := ChainRule("subdomain_to_httpx", (a: Asset) => a.assetType == "subdomain", "httpx", "Probe for HTTP services", 8)
  const HttpToWhatweb: ChainRule := ChainRule("http_to_whatweb", (a: Asset) => a.assetType == "http_service", "whatweb", "Identify web technologies", 7)
  const HttpToWafw00f: ChainRule := ChainRule("http_to_wafw00f", (a: Asset) => a.assetType == "http_service", "wafw00f", "Detect WAF", 6)
  const HttpToNuclei: ChainRule := ChainRule("http_to_nuclei", (a: Asset) => a.assetType == "http_service", "nuclei", "Scan for vulnerabilities", 7)
  const WordpressToWpscan: ChainRule := ChainRule("wordpress_to_wpscan", IsWordPress, "wpscan", "Scan WordPress site", 8)
  const IpToNmap: ChainRule := ChainRule("ip_to_nmap", (a: Asset) => a.assetType == "ip", "nmap", "Scan for open ports", 9)
  const IpToRustscan: ChainRule := ChainRule("ip_to_rustscan", (a: Asset) => a.assetType == "ip", "rustscan", "Fast port scan", 8)

  /** The default table, in the order the engine consults it. */
  function DefaultRules(): seq<ChainRule>
  {
    [ DomainToDns,
      DomainToWhois,
      DomainToSubfinder,
      DomainToAmass,
      SubdomainToDnsx,
      SubdomainToHttpx,
      HttpToWhatweb,
      HttpToWafw00f,
      HttpToNuclei,
      WordpressToWpscan,
      IpToNmap,
      IpToRustscan ]
  }

  function Entry(r: ChainRule): NextTool
  {
    NextTool(r.targetTool, r.reason, r.priority)
  }

  /** What one rule contributes for `asset`: its entry when its condition holds. */
  function Contribution(r: ChainRule, asset: Asset): seq<NextTool>
  {
    if r.condition(asset) then [Entry(r)] else []
  }

  /** The entries of the matching rules, in rule order (before sorting). */
  function Matches(rules: seq<ChainRule>, asset: Asset): seq<NextTool>
  {
    if rules == [] then [] else Matches(rules[..|rules| - 1], asset) + Contribution(rules[|rules| - 1], asset)
  }

  lemma MatchesSnoc(rules: seq<ChainRule>, r: ChainRule, asset: Asset)
    ensures Matches(rules + [r], asset) == Matches(rules, asset) + Contribution(r, asset)
  {
    assert (rules + [r])[..|rules|] == rules;
  }

  // ---------------------------------------------------------------------------
  // stable sort by descending priority

  predicate SortedDesc(s: seq<NextTool>)
  {
    forall i, j :: 0 <= i < j < |s| ==> s[i].priority >= s[j].priority
  }

  /** The entries of priority `p`, in order. */
  function WithPriority(s: seq<NextTool>, p: int): seq<NextTool>
  {
    if s == [] then []
    else WithPriority(s[..|s| - 1], p) + (if s[|s| - 1].priority == p then [s[|s| - 1]] else [])
  }

  lemma {:induction false} WithPriorityConcat(a: seq<NextTool>, b: seq<NextTool>, p: int)
    ensures WithPriority(a + b, p) == WithPriority(a, p) + WithPriority(b, p)
  {
    if b == [] {
      assert a + b == a;
    } else {
      var b' := b[..|b| - 1];
      assert (a + b)[..|a + b| - 1] == a + b';
      WithPriorityConcat(a, b', p);
    }
  }

  lemma {:induction false} WithPriorityNone(s: seq<NextTool>, p: int)
    requires forall i :: 0 <= i < |s| ==> s[i].priority != p
    ensures WithPriority(s, p) == []
  {
    if s != [] {
      WithPriorityNone(s[..|s| - 1], p);
    }
  }

  /** Where a stable descending insertion puts `x`: after every entry of at least its
      priority. */
  function InsertPos(t: seq<NextTool>, x: NextTool): (k: nat)
    ensures k <= |t|
    ensures forall i :: k <= i < |t| ==> t[i].priority < x.priority
    ensures SortedDesc(t) ==> forall i :: 0 <= i < k ==> t[i].priority >= x.priority
  {
    if t == [] then 0
    else if t[|t| - 1].priority >= x.priority then |t|
    else InsertPos(t[..|t| - 1], x)
  }

  function Insert(t: seq<NextTool>, x: NextTool): seq<NextTool>
  {
    var k := InsertPos(t, x);
    t[..k] + [x] + t[k..]
  }

  /** `sorted(s, key=priority, reverse=True)`, which is stable. */
  function SortDesc(s: seq<NextTool>): seq<NextTool>
  {
    if s == [] then [] else Insert(SortDesc(s[..|s| - 1]), s[|s| - 1])
  }

  /** `get_next_tools(asset)` */
  function NextTools(rules: seq<ChainRule>, asset: Asset): (r: seq<NextTool>)
    ensures SortedDesc(r)
    ensures forall p :: WithPriority(r, p) == WithPriority(Matches(rules, asset), p)
  {
    SortDescSpec(Matches(rules, asset));
    SortDesc(Matches(rules, asset))
  }

  lemma InsertSorted(t: seq<NextTool>, x: NextTool)
    requires SortedDesc(t)
    ensures SortedDesc(Insert(t, x))
  {
    var k := InsertPos(t, x);
    var r := Insert(t, x);
    forall i, j | 0 <= i < j < |r|
      ensures r[i].priority >= r[j].priority
    {
      if i < k && j == k {
      } else if i < k && j > k {
        assert r[j] == t[j - 1];
      } else if i == k {
        assert r[j] == t[j - 1];
      } else if i > k {
        assert r[i] == t[i - 1] && r[j] == t[j - 1];
      }
    }
  }

  lemma InsertWithPriority(t: seq<NextTool>, x: NextTool, p: int)
    requires SortedDesc(t)
    ensures WithPriority(Insert(t, x), p) == WithPriority(t, p) + (if x.priority == p then [x] else [])
  {
    var k := InsertPos(t, x);
    var a, b := t[..k], t[k..];
    assert t == a + b;
    assert Insert(t, x) == (a + [x]) + b;
    WithPriorityConcat(a + [x], b, p);
    WithPriorityConcat(a, [x], p);
    WithPriorityConcat(a, b, p);
    assert [x][..0] == [];
    if x.priority == p {
      WithPriorityNone(b, p);
    }
  }

  lemma {:induction false} SortDescSorted(s: seq<NextTool>)
    ensures SortedDesc(SortDesc(s))
  {
    if s != [] {
      SortDescSorted(s[..|s| - 1]);
      InsertSorted(SortDesc(s[..|s| - 1]), s[|s| - 1]);
    }
  }

  /** Sorting keeps, for every priority, that priority's entries in their original
      order: the sort is stable and loses or adds nothing. */
  lemma {:induction false} SortDescStable(s: seq<NextTool>, p: int)
    ensures WithPriority(SortDesc(s), p) == WithPriority(s, p)
  {
    if s != [] {
      var pre := s[..|s| - 1];
      SortDescStable(pre, p);
      SortDescSorted(pre);
      InsertWithPriority(SortDesc(pre), s[|s| - 1], p);
    }
  }

  /** The stable sort's specification: sorted, and per priority the same entries in the
      same order. */
  lemma SortDescSpec(s: seq<NextTool>)
    ensures SortedDesc(SortDesc(s))
    ensures forall p :: WithPriority(SortDesc(s), p) == WithPriority(s, p)
  {
    SortDescSorted(s);
    forall p
      ensures WithPriority(SortDesc(s), p) == WithPriority(s, p)
    {
      SortDescStable(s, p);
    }
  }

  lemma {:induction false} MatchesMembership(rules: seq<ChainRule>, asset: Asset, x: NextTool)
    ensures x in Matches(rules, asset) <==>
            exists i :: 0 <= i < |rules| && rules[i].condition(asset) && x == Entry(rules[i])
  {
    if rules != [] {
      var pre := rules[..|rules| - 1];
      MatchesMembership(pre, asset, x);
      if exists i :: 0 <= i < |rules| && rules[i].condition(asset) && x == Entry(rules[i]) {
        var i :| 0 <= i < |rules| && rules[i].condition(asset) && x == Entry(rules[i]);
        if i < |pre| {
          assert pre[i] == rules[i];
        }
      }
    }
  }

  lemma {:induction false} WithPriorityMembership(s: seq<NextTool>, p: int, x: NextTool)
    ensures x in WithPriority(s, p) <==> x in s && x.priority == p
  {
    if s != [] {
      WithPriorityMembership(s[..|s| - 1], p, x);
      assert s == s[..|s| - 1] + [s[|s| - 1]];
    }
  }

  /** The follow-ups are sorted by descending priority, ties keep rule order, and the
      entries are exactly those of the matching rules. */
  lemma NextToolsSpec(rules: seq<ChainRule>, asset: Asset)
    ensures SortedDesc(NextTools(rules, asset))
    ensures forall p :: WithPriority(NextTools(rules, asset), p) == WithPriority(Matches(rules, asset), p)
    ensures forall x :: x in NextTools(rules, asset) <==>
              exists i :: 0 <= i < |rules| && rules[i].condition(asset) && x == Entry(rules[i])
  {
    var m := Matches(rules, asset);
    SortDescSorted(m);
    forall p
      ensures WithPriority(NextTools(rules, asset), p) == WithPriority(m, p)
    {
      SortDescStable(m, p);
    }
    forall x
      ensures x in NextTools(rules, asset) <==>
              exists i :: 0 <= i < |rules| && rules[i].condition(asset) && x == Entry(rules[i])
    {
      MatchesMembership(rules, asset, x);
      SortDescStable(m, x.priority);
      WithPriorityMembership(m, x.priority, x);
      WithPriorityMembership(SortDesc(m), x.priority, x);
    }
  }

  /** A rule added last comes after every existing follow-up of its priority. */
  lemma AddedRuleComesLastInItsPriority(rules: seq<ChainRule>, r: ChainRule, asset: Asset, p: int)
    ensures WithPriority(NextTools(rules + [r], asset), p)
            == WithPriority(NextTools(rules, asset), p) + (if r.condition(asset) && r.priority == p then [Entry(r)] else [])
  {
    assert (rules + [r])[..|rules|] == rules;
    var extra := if r.condition(asset) then [Entry(r)] else [];
    assert Matches(rules + [r], asset) == Matches(rules, asset) + extra;
    SortDescStable(Matches(rules + [r], asset), p);
    SortDescStable(Matches(rules, asset), p);
    WithPriorityConcat(Matches(rules, asset), extra, p);
  }

  class RulesEngine {
    var rules: seq<ChainRule>

    constructor ()
      ensures rules == DefaultRules()
    {
      rules := DefaultRules();
    }

    /** Collects the entries of the matching rules in a loop, then sorts them stably by
        descending priority. */
    method GetNextTools(asset: Asset) returns (r: seq<NextTool>)
      ensures r == NextTools(rules, asset)
    {
      var table := rules;
      var matches: seq<NextTool> := [];
      for i := 0 to |table|
        invariant matches == Matches(table[..i], asset)
      {
        MatchesPrefix(table, i, asset);
        if table[i].condition(asset) {
          matches := matches + [Entry(table[i])];
        }
      }
      assert table[..|table|] == table;
      r := [];
      for j := 0 to |matches|
        invariant r == SortDesc(matches[..j])
      {
        SortDescPrefix(matches, j);
        r := Insert(r, matches[j]);
      }
      assert matches[..|matches|] == matches;
    }

    /** Appends a custom rule at the end of the table. */
    method AddRule(rule: ChainRule)
      modifies this
      ensures rules == old(rules) + [rule]
    {
      rules := rules + [rule];
    }
  }

  // ---------------------------------------------------------------------------
  // the default table

  /** The matches of the default table are the contributions of its twelve rules. */
  lemma DefaultMatches(a: Asset)
    ensures Matches(DefaultRules(), a) == Contribution(DomainToDns, a)
      + Contribution(DomainToWhois, a)
      + Contribution(DomainToSubfinder, a)
      + Contribution(DomainToAmass, a)
      + Contribution(SubdomainToDnsx, a)
      + Contribution(SubdomainToHttpx, a)
      + Contribution(HttpToWhatweb, a)
      + Contribution(HttpToWafw00f, a)
      + Contribution(HttpToNuclei, a)
      + Contribution(WordpressToWpscan, a)
      + Contribution(IpToNmap, a)
      + Contribution(IpToRustscan, a)
  {
    DefaultMatchesUpTo8(a);
    var d := DefaultRules();
    MatchesPrefix(d, 8, a);
    MatchesPrefix(d, 9, a);
    MatchesPrefix(d, 10, a);
    MatchesPrefix(d, 11, a);
    assert d[..12] == d;
  }

  /** The matches of the first eight default rules. */
  lemma DefaultMatchesUpTo8(a: Asset)
    ensures Matches(DefaultRules()[..8], a) == Contribution(DomainToDns, a)
      + Contribution(DomainToWhois, a)
      + Contribution(DomainToSubfinder, a)
      + Contribution(DomainToAmass, a)
      + Contribution(SubdomainToDnsx, a)
      + Contribution(SubdomainToHttpx, a)
      + Contribution(HttpToWhatweb, a)
      + Contribution(HttpToWafw00f, a)
  {
    DefaultMatchesUpTo4(a);
    var d := DefaultRules();
    MatchesPrefix(d, 4, a);
    MatchesPrefix(d, 5, a);
    MatchesPrefix(d, 6, a);
    MatchesPrefix(d, 7, a);
  }

  /** The matches of the first four default rules. */
  lemma DefaultMatchesUpTo4(a: Asset)
    ensures Matches(DefaultRules()[..4], a) == Contribution(DomainToDns, a)
      + Contribution(DomainToWhois, a)
      + Contribution(DomainToSubfinder, a)
      + Contribution(DomainToAmass, a)
  {
    var d := DefaultRules();
    assert d[..0] == [];
    MatchesPrefix(d, 0, a);
    MatchesPrefix(d, 1, a);
    MatchesPrefix(d, 2, a);
    MatchesPrefix(d, 3, a);
  }

  lemma MatchesPrefix(rules: seq<ChainRule>, k: nat, asset: Asset)
    requires k < |rules|
    ensures Matches(rules[..k + 1], asset) == Matches(rules[..k], asset) + Contribution(rules[k], asset)
  {
    assert rules[..k + 1][..k] == rules[..k];
  }

  lemma SortDescSnoc(s: seq<NextTool>, x: NextTool)
    ensures SortDesc(s + [x]) == Insert(SortDesc(s), x)
  {
    assert (s + [x])[..|s|] == s;
  }

  lemma SortDescPrefix(s: seq<NextTool>, j: nat)
    requires j < |s|
    ensures SortDesc(s[..j + 1]) == Insert(SortDesc(s[..j]), s[j])
  {
    assert s[..j + 1] == s[..j] + [s[j]];
    SortDescSnoc(s[..j], s[j]);
  }

  lemma InsertAtEnd(t: seq<NextTool>, x: NextTool)
    requires t == [] || t[|t| - 1].priority >= x.priority
    ensures Insert(t, x) == t + [x]
  {
  }

  lemma InsertBeforeLast(t: seq<NextTool>, x: NextTool)
    requires t != [] && t[|t| - 1].priority < x.priority
    ensures Insert(t, x) == Insert(t[..|t| - 1], x) + [t[|t| - 1]]
  {
    var t' := t[..|t| - 1];
    var k := InsertPos(t', x);
    assert t[..k] == t'[..k];
    assert t[k..] == t'[k..] + [t[|t| - 1]];
  }

  lemma SortOne(e0: NextTool)
    ensures SortDesc([e0]) == [e0]
  {
    assert [e0][..0] == [];
    InsertAtEnd([], e0);
  }

  lemma SortTwo(e0: NextTool, e1: NextTool)
    requires e0.priority >= e1.priority
    ensures SortDesc([e0, e1]) == [e0, e1]
  {
    assert [e0, e1][..1] == [e0];
    SortOne(e0);
    InsertAtEnd([e0], e1);
  }

  /** An entry of higher priority than all others goes first. */
  lemma {:induction false} InsertFirst(t: seq<NextTool>, x: NextTool)
    requires forall i :: 0 <= i < |t| ==> t[i].priority < x.priority
    ensures InsertPos(t, x) == 0 && Insert(t, x) == [x] + t
  {
    if t != [] {
      InsertFirst(t[..|t| - 1], x);
    }
  }

  /** Sorting three entries whose priorities ascend from the second to the third. */
  lemma SortThree(e0: NextTool, e1: NextTool, e2: NextTool)
    requires e0.priority >= e2.priority > e1.priority
    ensures SortDesc([e0, e1, e2]) == [e0, e2, e1]
  {
    assert SortDesc([e0, e1, e2]) == Insert([e0, e1], e2) by {
      assert [e0, e1, e2][..2] == [e0, e1];
      SortTwo(e0, e1);
    }
    assert Insert([e0, e1], e2) == Insert([e0], e2) + [e1] by {
      InsertBeforeLast([e0, e1], e2);
      assert [e0, e1][..1] == [e0];
    }
    InsertAtEnd([e0], e2);
  }

  lemma DomainMatches(a: Asset)
    requires a.assetType == "domain"
    ensures Matches(DefaultRules(), a)
            == [Entry(DomainToDns), Entry(DomainToWhois), Entry(DomainToSubfinder), Entry(DomainToAmass)]
  {
    DefaultMatches(a);
  }

  lemma HttpServiceMatches(a: Asset)
    requires a.assetType == "http_service"
    ensures Matches(DefaultRules(), a)
            == [Entry(HttpToWhatweb), Entry(HttpToWafw00f), Entry(HttpToNuclei)]
               + (if IsWordPress(a) then [Entry(WordpressToWpscan)] else [])
  {
    DefaultMatches(a);
  }

  /** A domain asset is followed by dnsrecon, subfinder, whois and amass, in that
      order. */
  lemma DomainFollowUps(a: Asset)
    requires a.assetType == "domain"
    ensures NextTools(DefaultRules(), a)
            == [Entry(DomainToDns), Entry(DomainToSubfinder), Entry(DomainToWhois), Entry(DomainToAmass)]
  {
    DomainMatches(a);
    var e0, e1, e2, e3 := Entry(DomainToDns), Entry(DomainToWhois), Entry(DomainToSubfinder), Entry(DomainToAmass);
    SortThree(e0, e1, e2);
    SortDescSnoc([e0, e1, e2], e3);
    assert [e0, e1, e2, e3] == [e0, e1, e2] + [e3];
    InsertAtEnd([e0, e2, e1], e3);
  }

  /** A subdomain asset is followed by dnsx, then httpx. */
  lemma SubdomainFollowUps(a: Asset)
    requires a.assetType == "subdomain"
    ensures NextTools(DefaultRules(), a) == [Entry(SubdomainToDnsx), Entry(SubdomainToHttpx)]
  {
    DefaultMatches(a);
    var e0, e1 := Entry(SubdomainToDnsx), Entry(SubdomainToHttpx);
    assert Matches(DefaultRules(), a) == [e0, e1];
    SortTwo(e0, e1);
  }

  /** An HTTP service is followed by whatweb, nuclei and wafw00f; wpscan comes first
      exactly when its metadata names WordPress as its technology. */
  lemma HttpServiceFollowUps(a: Asset)
    requires a.assetType == "http_service"
    ensures NextTools(DefaultRules(), a)
            == (if IsWordPress(a) then [Entry(WordpressToWpscan)] else [])
               + [Entry(HttpToWhatweb), Entry(HttpToNuclei), Entry(HttpToWafw00f)]
  {
    HttpServiceMatches(a);
    var e0, e1, e2, e3 := Entry(HttpToWhatweb), Entry(HttpToWafw00f), Entry(HttpToNuclei), Entry(WordpressToWpscan);
    SortThree(e0, e1, e2);
    if IsWordPress(a) {
      SortSnocFirst([e0, e1, e2], [e0, e2, e1], e3);
    } else {
      assert [e0, e1, e2] + [] == [e0, e1, e2];
    }
  }

  /** An entry that outranks every entry already sorted goes first. */
  lemma SortSnocFirst(s: seq<NextTool>, t: seq<NextTool>, x: NextTool)
    requires SortDesc(s) == t
    requires forall i :: 0 <= i < |t| ==> t[i].priority < x.priority
    ensures SortDesc(s + [x]) == [x] + t
  {
    SortDescSnoc(s, x);
    InsertFirst(t, x);
  }

  /** An IP asset is followed by nmap, then rustscan. */
  lemma IpFollowUps(a: Asset)
    requires a.assetType == "ip"
    ensures NextTools(DefaultRules(), a) == [Entry(IpToNmap), Entry(IpToRustscan)]
  {
    DefaultMatches(a);
    var e0, e1 := Entry(IpToNmap), Entry(IpToRustscan);
    assert Matches(DefaultRules(), a) == [e0, e1];
    SortTwo(e0, e1);
  }

  /** Every other asset type (port, technology, ...) chains nothing. */
  lemma OtherTypesHaveNoFollowUps(a: Asset)
    requires a.assetType != "domain" && a.assetType != "subdomain"
    requires a.assetType != "http_service" && a.assetType != "ip"
    ensures NextTools(DefaultRules(), a) == []
  {
    DefaultMatches(a);
  }
}
