/** The orchestrator: the choice of the first task, the handling of discovered assets
    and findings (deduplication, scoring, follow-up tasks chosen by the rules), the
    outcome of running one task, the decision taken by one turn of the orchestration
    loop, and the pause and stop flags. The loop's waiting and its concurrent task
    launches are outside the model; each method here is one synchronous step. Clock
    readings are the `now` parameters. */
module Orchestrator {
  import opened Outcomes
  import opened Json
  import opened Models
  import opened Plan
  import opened Base
  import Events
  import Rules
  import Scoring
  import Registry
  import Helpers
  import Seqs

  datatype ScanMode = Auto | Interactive | Passive
  {
    function Value(): string
    {
      match this
      case Auto => "auto"
      case Interactive => "interactive"
      case Passive => "passive"
    }
  }

  /** The settings the orchestrator reads; unless given, the mode is automatic and at
      most three tasks run at once. */
  datatype ScanConfig = ScanConfig(target: string, mode: ScanMode := Auto, maxParallel: int := 3)

  // ---------------------------------------------------------------------------
  // the first task

  /** The tool of the first task: `httpx` for a URL, `nmap` for an address, and
      `subfinder` for anything else, taken to be a domain. */
  function InitialTool(target: string): (r: string)
    ensures r == "httpx" <==> Helpers.IsValidUrl(target)
    ensures r == "nmap" <==> Helpers.IsValidIp(target)
    ensures r == "subfinder" <==> !Helpers.IsValidUrl(target) && !Helpers.IsValidIp(target)
  {
    TargetKindsDisjoint(target);
    if Helpers.IsValidUrl(target) then "httpx"
    else if Helpers.IsValidIp(target) then "nmap"
    else "subfinder"
  }

  function InitialDescription(target: string): string
  {
    if Helpers.IsValidUrl(target) then "Probe HTTP service: " + target
    else if Helpers.IsValidIp(target) then "Port scan: " + target
    else "Find subdomains for: " + target
  }

  /** No text is both a URL and an address, and a domain is neither. */
  lemma TargetKindsDisjoint(target: string)
    ensures Helpers.IsValidIp(target) ==> !Helpers.IsValidUrl(target)
    ensures Helpers.IsValidDomain(target) ==> !Helpers.IsValidUrl(target) && !Helpers.IsValidIp(target)
  {
    if Helpers.IsValidIp(target) {
      Helpers.IpIsNotUrl(target);
    }
    if Helpers.IsValidDomain(target) {
      Helpers.DomainIsNeitherUrlNorIp(target);
    }
  }

  /** A valid address is port-scanned and a valid domain enumerated, whatever else
      the address or domain looks like. */
  lemma InitialToolByTargetKind(target: string)
    ensures Helpers.IsValidUrl(target) ==> InitialTool(target) == "httpx"
    ensures Helpers.IsValidIp(target) ==> InitialTool(target) == "nmap"
    ensures Helpers.IsValidDomain(target) ==> InitialTool(target) == "subfinder"
  {
    if Helpers.IsValidIp(target) {
      Helpers.IpIsNotUrl(target);
    }
    if Helpers.IsValidDomain(target) {
      Helpers.DomainIsNeitherUrlNorIp(target);
    }
  }

  // ---------------------------------------------------------------------------
  // deduplication of assets

  /** The key under which an asset counts as seen: `type:value`. */
  function AssetKey(a: Asset): string
  {
    a.assetType + ":" + a.value
  }

  function KeysOf(s: seq<Asset>): set<string>
  {
    if s == [] then {} else KeysOf(s[..|s| - 1]) + {AssetKey(s[|s| - 1])}
  }

  lemma {:induction false} KeysOfMembership(s: seq<Asset>, a: Asset)
    ensures a in s ==> AssetKey(a) in KeysOf(s)
  {
    if s != [] && a in s {
      var pre := s[..|s| - 1];
      assert s == pre + [s[|s| - 1]];
      if a != s[|s| - 1] {
        assert a in pre;
        KeysOfMembership(pre, a);
      }
    }
  }

  /** The assets of `s` that are kept, in order, when the keys in `seen` are already
      taken: the first asset of each key not yet seen. */
  function NewAssets(seen: set<string>, s: seq<Asset>): seq<Asset>
  {
    if s == [] then []
    else
      var pre := s[..|s| - 1];
      var a := s[|s| - 1];
      NewAssets(seen, pre) + (if AssetKey(a) in seen + KeysOf(pre) then [] else [a])
  }

  /** An asset as the session records it: scored by the asset rules. */
  function Scored(rules: seq<Scoring.ScoringRule>, a: Asset): Asset
  {
    a.(score := Scoring.AssetScore(rules, a))
  }

  /** The assets of `s`, each scored. */
  function ScoredAll(rules: seq<Scoring.ScoringRule>, s: seq<Asset>): (r: seq<Asset>)
    ensures |r| == |s|
    ensures forall i :: 0 <= i < |s| ==> r[i] == Scored(rules, s[i])
  {
    if s == [] then [] else ScoredAll(rules, s[..|s| - 1]) + [Scored(rules, s[|s| - 1])]
  }

  lemma {:induction false} ScoredAllConcat(rules: seq<Scoring.ScoringRule>, x: seq<Asset>, y: seq<Asset>)
    ensures ScoredAll(rules, x + y) == ScoredAll(rules, x) + ScoredAll(rules, y)
  {
    assert |ScoredAll(rules, x + y)| == |ScoredAll(rules, x) + ScoredAll(rules, y)|;
    forall i | 0 <= i < |x + y|
      ensures ScoredAll(rules, x + y)[i] == (ScoredAll(rules, x) + ScoredAll(rules, y))[i]
    {
      if i < |x| {
        assert (x + y)[i] == x[i];
      } else {
        assert (x + y)[i] == y[i - |x|];
      }
    }
  }

  lemma {:induction false} KeysOfConcat(x: seq<Asset>, y: seq<Asset>)
    ensures KeysOf(x + y) == KeysOf(x) + KeysOf(y)
  {
    if y == [] {
      assert x + y == x;
    } else {
      var pre := y[..|y| - 1];
      assert (x + y)[..|x + y| - 1] == x + pre;
      KeysOfConcat(x, pre);
    }
  }

  lemma NewAssetsStep(seen: set<string>, s: seq<Asset>, a: Asset)
    ensures NewAssets(seen, s + [a]) == NewAssets(seen, s) + (if AssetKey(a) in seen + KeysOf(s) then [] else [a])
  {
    assert (s + [a])[..|s|] == s;
  }

  /** Handling `x` and then `y` keeps what handling `x` keeps, then what `y` adds to
      the keys seen so far. */
  lemma {:induction false} NewAssetsConcat(seen: set<string>, x: seq<Asset>, y: seq<Asset>)
    ensures NewAssets(seen, x + y) == NewAssets(seen, x) + NewAssets(seen + KeysOf(x), y)
    decreases |y|
  {
    if y == [] {
      assert x + y == x;
    } else {
      var pre := y[..|y| - 1];
      var a := y[|y| - 1];
      assert x + y == (x + pre) + [a];
      NewAssetsConcat(seen, x, pre);
      NewAssetsStep(seen, x + pre, a);
      KeysOfConcat(x, pre);
    }
  }

  /** The kept assets come from `s` and carry keys not in `seen`. */
  lemma {:induction false} NewAssetsFrom(seen: set<string>, s: seq<Asset>)
    ensures forall a :: a in NewAssets(seen, s) ==> a in s && AssetKey(a) !in seen
  {
    if s != [] {
      NewAssetsFrom(seen, s[..|s| - 1]);
      assert s == s[..|s| - 1] + [s[|s| - 1]];
    }
  }

  lemma KeysOfSnoc(s: seq<Asset>, a: Asset)
    ensures KeysOf(s + [a]) == KeysOf(s) + {AssetKey(a)}
  {
    assert (s + [a])[..|s|] == s;
  }

  /** The kept assets cover exactly the keys of `s` not in `seen`. */
  lemma {:induction false} NewAssetsKeys(seen: set<string>, s: seq<Asset>)
    ensures KeysOf(NewAssets(seen, s)) == KeysOf(s) - seen
  {
    if s != [] {
      var pre, a := s[..|s| - 1], s[|s| - 1];
      assert s == pre + [a];
      NewAssetsKeys(seen, pre);
      KeysOfSnoc(pre, a);
      NewAssetsStep(seen, pre, a);
      var p := NewAssets(seen, pre);
      if AssetKey(a) in seen + KeysOf(pre) {
        assert p + [] == p;
        MinusAbsorbs(KeysOf(pre), seen, AssetKey(a));
      } else {
        KeysOfSnoc(p, a);
        MinusAdds(KeysOf(pre), seen, AssetKey(a));
      }
    }
  }

  lemma MinusAbsorbs(keys: set<string>, seen: set<string>, k: string)
    requires k in seen + keys
    ensures (keys + {k}) - seen == keys - seen
  {
  }

  lemma MinusAdds(keys: set<string>, seen: set<string>, k: string)
    requires k !in seen
    ensures (keys + {k}) - seen == (keys - seen) + {k}
  {
  }

  /** No key is kept twice. */
  lemma {:induction false} NewAssetsDistinct(seen: set<string>, s: seq<Asset>)
    ensures var r := NewAssets(seen, s);
            forall i, j :: 0 <= i < j < |r| ==> AssetKey(r[i]) != AssetKey(r[j])
  {
    if s != [] {
      var pre := s[..|s| - 1];
      var a := s[|s| - 1];
      NewAssetsDistinct(seen, pre);
      var p := NewAssets(seen, pre);
      NewAssetsKeys(seen, pre);
      forall i | 0 <= i < |p|
        ensures AssetKey(p[i]) in KeysOf(pre)
      {
        KeysOfMembership(p, p[i]);
      }
    }
  }

  /** Assets whose keys are all taken add nothing: handling the same assets a second
      time keeps nothing more. */
  lemma {:induction false} NewAssetsNone(seen: set<string>, s: seq<Asset>)
    requires KeysOf(s) <= seen
    ensures NewAssets(seen, s) == []
  {
    if s != [] {
      var pre := s[..|s| - 1];
      assert s == pre + [s[|s| - 1]];
      NewAssetsNone(seen, pre);
    }
  }

  lemma NewAssetsAgain(seen: set<string>, s: seq<Asset>)
    ensures NewAssets(seen + KeysOf(s), s) == []
  {
    NewAssetsNone(seen + KeysOf(s), s);
  }

  /** The key tells assets apart whenever their types hold no colon, as none of the
      adapters' types do. */
  lemma AssetKeyDistinguishes(a: Asset, b: Asset)
    requires ':' !in a.assetType && ':' !in b.assetType
    ensures AssetKey(a) == AssetKey(b) <==> a.assetType == b.assetType && a.value == b.value
  {
    var ka, kb := AssetKey(a), AssetKey(b);
    var n, m := |a.assetType|, |b.assetType|;
    if n < m {
      assert ka[n] == ':' && kb[n] == b.assetType[n];
      assert b.assetType[n] in b.assetType;
      assert ka[n] != kb[n];
    } else if n > m {
      assert kb[m] == ':' && ka[m] == a.assetType[m];
      assert a.assetType[m] in a.assetType;
      assert ka[m] != kb[m];
    } else {
      assert a.assetType == ka[..n] && b.assetType == kb[..n];
      assert a.value == ka[n + 1..] && b.value == kb[n + 1..];
    }
  }

  // ---------------------------------------------------------------------------
  // follow-up tasks

  /** `registry.get(name)` finds an adapter and its binary is on the path. */
  predicate Usable(tools: map<string, ToolAdapter>, onPath: set<string>, name: string)
  {
    name in tools && IsAvailable(tools[name], onPath)
  }

  /** The proposals whose tool is usable, in order. */
  function Available(next: seq<Rules.NextTool>, tools: map<string, ToolAdapter>, onPath: set<string>): seq<Rules.NextTool>
  {
    if next == [] then []
    else
      var x := next[|next| - 1];
      Available(next[..|next| - 1], tools, onPath) + (if Usable(tools, onPath, x.tool) then [x] else [])
  }

  lemma {:induction false} AvailableMembership(next: seq<Rules.NextTool>, tools: map<string, ToolAdapter>, onPath: set<string>, x: Rules.NextTool)
    ensures x in Available(next, tools, onPath) <==> x in next && Usable(tools, onPath, x.tool)
  {
    if next != [] {
      var pre := next[..|next| - 1];
      assert next == pre + [next[|next| - 1]];
      AvailableMembership(pre, tools, onPath, x);
    }
  }

  lemma AvailableSnoc(next: seq<Rules.NextTool>, tools: map<string, ToolAdapter>, onPath: set<string>, x: Rules.NextTool)
    ensures Available(next + [x], tools, onPath)
            == Available(next, tools, onPath) + (if Usable(tools, onPath, x.tool) then [x] else [])
  {
    assert (next + [x])[..|next|] == next;
  }

  lemma AvailablePrefix(next: seq<Rules.NextTool>, i: nat, tools: map<string, ToolAdapter>, onPath: set<string>)
    requires i < |next|
    ensures Available(next[..i + 1], tools, onPath)
            == Available(next[..i], tools, onPath) + (if Usable(tools, onPath, next[i].tool) then [next[i]] else [])
  {
    assert next[..i + 1][..i] == next[..i];
  }

  /** The follow-ups that become tasks: in automatic mode, the next tools the rules
      propose whose adapter is registered and available, in the rules' order; none in
      any other mode. */
  function FollowUps(mode: ScanMode, next: seq<Rules.NextTool>, tools: map<string, ToolAdapter>, onPath: set<string>): seq<Rules.NextTool>
  {
    if mode == Auto then Available(next, tools, onPath) else []
  }

  /** The tool names of proposals, in order. */
  function Tools(fs: seq<Rules.NextTool>): (r: seq<string>)
    ensures |r| == |fs|
    ensures forall i :: 0 <= i < |fs| ==> r[i] == fs[i].tool
  {
    if fs == [] then [] else Tools(fs[..|fs| - 1]) + [fs[|fs| - 1].tool]
  }

  lemma ToolsSnoc(fs: seq<Rules.NextTool>, x: Rules.NextTool)
    ensures Tools(fs + [x]) == Tools(fs) + [x.tool]
  {
    assert (fs + [x])[..|fs|] == fs;
  }

  predicate Urgent(t: Rules.NextTool) { t.priority > 8 }

  predicate NotUrgent(t: Rules.NextTool) { t.priority <= 8 }

  function ToolOf(t: Rules.NextTool): string { t.tool }

  /** The queue of tool names after adding each follow-up in turn, a priority above 8
      going to the front. */
  function Enqueue(pending: seq<string>, fs: seq<Rules.NextTool>): seq<string>
  {
    if fs == [] then pending
    else
      var f := fs[|fs| - 1];
      Pushed(Enqueue(pending, fs[..|fs| - 1]), f.tool, f.priority > 8)
  }

  function Reversed<T>(s: seq<T>): (r: seq<T>)
    ensures |r| == |s|
  {
    if s == [] then [] else [s[|s| - 1]] + Reversed(s[..|s| - 1])
  }

  lemma ReversedSnoc<T>(s: seq<T>, x: T)
    ensures Reversed(s + [x]) == [x] + Reversed(s)
  {
    assert (s + [x])[..|s|] == s;
  }

  lemma FilterSnoc<T>(s: seq<T>, x: T, p: T -> bool)
    ensures Seqs.Filter(s + [x], p) == Seqs.Filter(s, p) + (if p(x) then [x] else [])
  {
    assert (s + [x])[..|s|] == s;
  }

  lemma MapSnoc<A, B>(s: seq<A>, x: A, g: A -> B)
    ensures Seqs.Map(s + [x], g) == Seqs.Map(s, g) + [g(x)]
  {
    assert (s + [x])[..|s|] == s;
  }

  /** The tools of the urgent follow-ups, the last one added first. */
  function Front(fs: seq<Rules.NextTool>): seq<string>
  {
    if fs == [] then []
    else if fs[|fs| - 1].priority > 8 then [fs[|fs| - 1].tool] + Front(fs[..|fs| - 1])
    else Front(fs[..|fs| - 1])
  }

  /** The tools of the other follow-ups, in the order added. */
  function Back(fs: seq<Rules.NextTool>): seq<string>
  {
    if fs == [] then []
    else if fs[|fs| - 1].priority > 8 then Back(fs[..|fs| - 1])
    else Back(fs[..|fs| - 1]) + [fs[|fs| - 1].tool]
  }

  /** The urgent follow-ups end up in front of what was pending, the others behind it. */
  lemma {:induction false} EnqueueShape(pending: seq<string>, fs: seq<Rules.NextTool>)
    ensures Enqueue(pending, fs) == Front(fs) + pending + Back(fs)
  {
    if fs != [] {
      EnqueueShape(pending, fs[..|fs| - 1]);
    }
  }

  /** The front holds the urgent follow-ups in reverse order of addition. */
  lemma {:induction false} FrontSpec(fs: seq<Rules.NextTool>)
    ensures Front(fs) == Reversed(Seqs.Map(Seqs.Filter(fs, Urgent), ToolOf))
  {
    if fs != [] {
      var pre, f := fs[..|fs| - 1], fs[|fs| - 1];
      assert fs == pre + [f];
      FrontSpec(pre);
      FrontSnoc(pre, f);
      FilterSnoc(pre, f, Urgent);
      var u := Seqs.Filter(pre, Urgent);
      if f.priority > 8 {
        MapSnoc(u, f, ToolOf);
        ReversedSnoc(Seqs.Map(u, ToolOf), f.tool);
      } else {
        assert u + [] == u;
      }
    }
  }

  lemma FrontSnoc(fs: seq<Rules.NextTool>, f: Rules.NextTool)
    ensures Front(fs + [f]) == (if f.priority > 8 then [f.tool] else []) + Front(fs)
  {
    assert (fs + [f])[..|fs|] == fs;
    assert [] + Front(fs) == Front(fs);
  }

  /** The back holds the other follow-ups in order of addition. */
  lemma {:induction false} BackSpec(fs: seq<Rules.NextTool>)
    ensures Back(fs) == Seqs.Map(Seqs.Filter(fs, NotUrgent), ToolOf)
  {
    if fs != [] {
      var pre, f := fs[..|fs| - 1], fs[|fs| - 1];
      assert fs == pre + [f];
      BackSpec(pre);
      FilterSnoc(pre, f, NotUrgent);
      if f.priority <= 8 {
        MapSnoc(Seqs.Filter(pre, NotUrgent), f, ToolOf);
      } else {
        assert !NotUrgent(f);
        assert Seqs.Filter(fs, NotUrgent) == Seqs.Filter(pre, NotUrgent);
      }
    }
  }

  /** The queue after the follow-ups: the urgent ones in reverse order, then what was
      pending, then the others in order. */
  lemma EnqueueOrder(pending: seq<string>, fs: seq<Rules.NextTool>)
    ensures Enqueue(pending, fs)
            == Reversed(Seqs.Map(Seqs.Filter(fs, Urgent), ToolOf)) + pending + Seqs.Map(Seqs.Filter(fs, NotUrgent), ToolOf)
  {
    EnqueueShape(pending, fs);
    FrontSpec(fs);
    BackSpec(fs);
  }

  /** The pending queue after pushing the tasks `ts` made for the follow-ups `fs`, one
      after another, each to the front when its follow-up's priority is above 8. */
  function PushAll(pending: seq<Task>, ts: seq<Task>, fs: seq<Rules.NextTool>): seq<Task>
    requires |ts| == |fs|
  {
    if ts == [] then pending
    else Pushed(PushAll(pending, ts[..|ts| - 1], fs[..|fs| - 1]), ts[|ts| - 1], fs[|fs| - 1].priority > 8)
  }

  lemma PushAllSnoc(pending: seq<Task>, ts: seq<Task>, fs: seq<Rules.NextTool>, t: Task, f: Rules.NextTool)
    requires |ts| == |fs|
    ensures PushAll(pending, ts + [t], fs + [f]) == Pushed(PushAll(pending, ts, fs), t, f.priority > 8)
  {
    assert (ts + [t])[..|ts|] == ts;
    assert (fs + [f])[..|fs|] == fs;
  }

  /** What the follow-up loop keeps: the tasks added so far are named after the usable
      follow-ups seen so far, and the queue is the first queue with them pushed. */
  predicate Chained(pending0: seq<Task>, added: seq<Task>, pending: seq<Task>, fs: seq<Rules.NextTool>)
  {
    |added| == |fs| && TaskNames(added) == Tools(fs) && pending == PushAll(pending0, added, fs)
  }

  lemma ChainedStep(pending0: seq<Task>, added: seq<Task>, before: seq<Task>, after: seq<Task>,
                    one: seq<Task>, fs: seq<Rules.NextTool>, f: Rules.NextTool, usable: bool)
    requires Chained(pending0, added, before, fs)
    requires usable ==> |one| == 1 && one[0].name == f.tool && after == Pushed(before, one[0], f.priority > 8)
    requires !usable ==> one == [] && after == before
    ensures Chained(pending0, added + one, after, fs + (if usable then [f] else []))
  {
    if usable {
      PushAllSnoc(pending0, added, fs, one[0], f);
      ToolsSnoc(fs, f);
      TaskNamesConcat(added, one);
      assert TaskNames(one) == [f.tool];
    } else {
      assert added + one == added;
      assert fs + [] == fs;
    }
  }

  /** Tasks named after the follow-ups are queued as `Enqueue` queues the names. */
  lemma {:induction false} PushAllNames(pending: seq<Task>, ts: seq<Task>, fs: seq<Rules.NextTool>)
    requires |ts| == |fs|
    requires TaskNames(ts) == Tools(fs)
    ensures TaskNames(PushAll(pending, ts, fs)) == Enqueue(TaskNames(pending), fs)
  {
    if ts != [] {
      var pt, pf := ts[..|ts| - 1], fs[..|fs| - 1];
      assert ts == pt + [ts[|ts| - 1]];
      TaskNamesConcat(pt, [ts[|ts| - 1]]);
      assert TaskNames(pt) == Tools(pf);
      PushAllNames(pending, pt, pf);
      TaskNamesPushed(PushAll(pending, pt, pf), ts[|ts| - 1], fs[|fs| - 1].priority > 8);
    }
  }

  /** Pushing adds exactly the new tasks to the queue. */
  lemma {:induction false} PushAllContents(pending: seq<Task>, ts: seq<Task>, fs: seq<Rules.NextTool>)
    requires |ts| == |fs|
    ensures multiset(PushAll(pending, ts, fs)) == multiset(pending) + multiset(ts)
  {
    if ts != [] {
      var pt, pf := ts[..|ts| - 1], fs[..|fs| - 1];
      assert ts == pt + [ts[|ts| - 1]];
      PushAllContents(pending, pt, pf);
      PushedContents(PushAll(pending, pt, pf), ts[|ts| - 1], fs[|fs| - 1].priority > 8);
    }
  }

  /** A follow-up task is planned for a tool exactly when, in automatic mode, a rule
      matching the asset proposes it and its adapter is registered and available. */
  lemma FollowUpsSpec(mode: ScanMode, rules: seq<Rules.ChainRule>, asset: Asset, tools: map<string, ToolAdapter>, onPath: set<string>, x: Rules.NextTool)
    ensures x in FollowUps(mode, Rules.NextTools(rules, asset), tools, onPath) <==>
              mode == Auto && Usable(tools, onPath, x.tool)
              && exists i :: 0 <= i < |rules| && rules[i].condition(asset) && x == Rules.Entry(rules[i])
  {
    Rules.NextToolsSpec(rules, asset);
    AvailableMembership(Rules.NextTools(rules, asset), tools, onPath, x);
  }

  // ---------------------------------------------------------------------------
  // one turn of the orchestration loop

  datatype Decision = Exit | Wait | Dispatch

  /** What a turn of the loop does: leave once stopped; wait while paused or while
      `max_parallel` tasks are running; otherwise dispatch the next pending task, and
      when none is pending, leave if nothing is running and wait otherwise. */
  function LoopDecision(stopped: bool, paused: bool, running: nat, maxParallel: int, pendingEmpty: bool): (d: Decision)
    ensures d == Wait <==> !stopped && (paused || running >= maxParallel || (pendingEmpty && running > 0))
  {
    if stopped then Exit
    else if paused then Wait
    else if running >= maxParallel then Wait
    else if !pendingEmpty then Dispatch
    else if running == 0 then Exit
    else Wait
  }

  /** A task is dispatched only when not stopped, not paused, below capacity, with a
      task pending; the loop ends only when stopped or, below capacity and not paused,
      with nothing pending or running. */
  lemma LoopDecisionSpec(stopped: bool, paused: bool, running: nat, maxParallel: int, pendingEmpty: bool)
    ensures LoopDecision(stopped, paused, running, maxParallel, pendingEmpty) == Dispatch <==>
              !stopped && !paused && running < maxParallel && !pendingEmpty
    ensures LoopDecision(stopped, paused, running, maxParallel, pendingEmpty) == Exit <==>
              stopped || (!paused && running < maxParallel && pendingEmpty && running == 0)
  {
  }

  /** With `max_parallel` at most 0 the loop never dispatches and never ends unless it
      is stopped. */
  lemma NoCapacityNeverEnds(paused: bool, running: nat, maxParallel: int, pendingEmpty: bool)
    requires maxParallel <= 0
    ensures LoopDecision(false, paused, running, maxParallel, pendingEmpty) == Wait
  {
  }

  datatype Turn = Exited | Waited | Dispatched(task: Task)
  {
    function Kind(): Decision
    {
      match this
      case Exited => Exit
      case Waited => Wait
      case Dispatched(_) => Dispatch
    }
  }

  // ---------------------------------------------------------------------------
  // events and progress

  function Published(t: Events.EventType, data: map<string, Json>, now: int): Events.Event
  {
    Events.Event(t, data, now, Some("orchestrator"))
  }

  function AssetEvent(a: Asset, now: int): Events.Event
  {
    Published(Events.AssetDiscovered, map["type" := JStr(a.assetType), "value" := JStr(a.value)], now)
  }

  function FindingEvent(f: Finding, now: int): Events.Event
  {
    Published(Events.FindingDiscovered, map["severity" := JStr(f.severity.Value()), "title" := JStr(f.title)], now)
  }

  /** `result.metadata.get("progress", 50)` */
  function ProgressOf(metadata: map<string, int>): int
  {
    if "progress" in metadata then metadata["progress"] else 50
  }

  /** The task's target: `metadata["target"]`, else the scan's target. */
  function TargetOf(metadata: map<string, string>, scanTarget: string): string
  {
    if "target" in metadata then metadata["target"] else scanTarget
  }

  /** The assets of the successful results, in stream order. */
  function AllAssets(results: seq<ToolResult>): seq<Asset>
  {
    if results == [] then []
    else
      var r := results[|results| - 1];
      AllAssets(results[..|results| - 1]) + (if r.success then r.assets else [])
  }

  /** The findings of the successful results, in stream order. */
  function AllFindings(results: seq<ToolResult>): seq<Finding>
  {
    if results == [] then []
    else
      var r := results[|results| - 1];
      AllFindings(results[..|results| - 1]) + (if r.success then r.findings else [])
  }

  /** The task's progress after the results: each successful one sets it. */
  function LastProgress(progress: int, results: seq<ToolResult>): int
  {
    if results == [] then progress
    else
      var r := results[|results| - 1];
      if r.success then ProgressOf(r.metadata) else LastProgress(progress, results[..|results| - 1])
  }

  /** An unsuccessful result adds no asset or finding and leaves the progress alone. */
  lemma FailedResultAddsNothing(progress: int, results: seq<ToolResult>, f: ToolResult)
    requires !f.success
    ensures AllAssets(results + [f]) == AllAssets(results)
    ensures AllFindings(results + [f]) == AllFindings(results)
    ensures LastProgress(progress, results + [f]) == LastProgress(progress, results)
  {
    assert (results + [f])[..|results|] == results;
  }

  /** A tool that times out after some lines contributes exactly the assets and
      findings of its partial results. */
  lemma TimedOutRunKeepsPartials(run: ToolRun, texts: seq<string>, rest: seq<Read>)
    requires forall o :: run.parsePartial(o).Done?
    ensures var results := ExecuteResults(run, true, Lines(texts) + [ReadTimeout] + rest);
            var partials := Partials(run, "", texts);
            AllAssets(results) == AllAssets(partials) && AllFindings(results) == AllFindings(partials)
  {
    TimeoutEndsTheRun(run, "", texts, rest);
    FailedResultAddsNothing(0, Partials(run, "", texts), Failure(run.config, TimeoutMessage(run.config)));
  }

  /** A tool whose process fails after some lines contributes exactly the assets and
      findings of its partial results. */
  lemma CrashedRunKeepsPartials(run: ToolRun, texts: seq<string>, message: string, rest: seq<Read>)
    requires forall o :: run.parsePartial(o).Done?
    ensures var results := ExecuteResults(run, true, Lines(texts) + [Raise(message)] + rest);
            var partials := Partials(run, "", texts);
            AllAssets(results) == AllAssets(partials) && AllFindings(results) == AllFindings(partials)
  {
    RaiseEndsTheRun(run, "", texts, message, rest);
    FailedResultAddsNothing(0, Partials(run, "", texts), Failure(run.config, message));
  }

  function ProgressEvent(progress: int, now: int): Events.Event
  {
    Published(Events.TaskProgress, map["progress" := JInt(progress)], now)
  }

  /** The session with only its assets, findings and tasks possibly changed. */
  predicate SameHeader(s: ScanSession, t: ScanSession)
  {
    s.target == t.target && s.startedAt == t.startedAt && s.completedAt == t.completedAt
  }

  /** The seen keys and the session's assets after handling the assets `s` one by one,
      starting from the keys `seen0` and the assets `assets0`. */
  predicate Recorded(rules: seq<Scoring.ScoringRule>, seen0: set<string>, assets0: seq<Asset>, s: seq<Asset>,
                     seen: set<string>, assets: seq<Asset>)
  {
    seen == seen0 + KeysOf(s) && assets == assets0 + ScoredAll(rules, NewAssets(seen0, s))
  }

  /** Handling a single asset, from nothing handled. */
  lemma RecordedSingle(rules: seq<Scoring.ScoringRule>, seen0: set<string>, assets0: seq<Asset>, a: Asset,
                       seen: set<string>, assets: seq<Asset>)
    requires AssetKey(a) in seen0 ==> seen == seen0 && assets == assets0
    requires AssetKey(a) !in seen0 ==> seen == seen0 + {AssetKey(a)} && assets == assets0 + [Scored(rules, a)]
    ensures Recorded(rules, seen0, assets0, [a], seen, assets)
  {
    assert [a][..0] == [];
    if AssetKey(a) in seen0 {
      assert assets0 + [] == assets0;
    }
  }

  /** Handling `x` and then `y` records what handling `x + y` records. */
  lemma RecordedConcat(rules: seq<Scoring.ScoringRule>, seen0: set<string>, assets0: seq<Asset>, x: seq<Asset>, y: seq<Asset>,
                       seen: set<string>, assets: seq<Asset>, seen': set<string>, assets': seq<Asset>)
    requires Recorded(rules, seen0, assets0, x, seen, assets)
    requires Recorded(rules, seen, assets, y, seen', assets')
    ensures Recorded(rules, seen0, assets0, x + y, seen', assets')
  {
    KeysOfConcat(x, y);
    NewAssetsConcat(seen0, x, y);
    ScoredAllConcat(rules, NewAssets(seen0, x), NewAssets(seen0 + KeysOf(x), y));
    Seqs.ConcatAssoc(assets0, ScoredAll(rules, NewAssets(seen0, x)), ScoredAll(rules, NewAssets(seen0 + KeysOf(x), y)));
  }

  /** The queue holds what it held plus the tasks `added`. */
  predicate Grew(pending0: seq<Task>, added: seq<Task>, pending: seq<Task>)
  {
    multiset(pending) == multiset(pending0) + multiset(added)
  }

  lemma ChainedGrew(pending0: seq<Task>, added: seq<Task>, pending: seq<Task>, fs: seq<Rules.NextTool>)
    requires Chained(pending0, added, pending, fs)
    ensures Grew(pending0, added, pending)
  {
    PushAllContents(pending0, added, fs);
  }

  lemma GrewTrans(p0: seq<Task>, a1: seq<Task>, p1: seq<Task>, a2: seq<Task>, p2: seq<Task>)
    requires Grew(p0, a1, p1) && Grew(p1, a2, p2)
    ensures Grew(p0, a1 + a2, p2)
  {
    assert multiset(a1 + a2) == multiset(a1) + multiset(a2);
  }

  /** The error of a task whose tool cannot run. */
  function UnusableError(tools: map<string, ToolAdapter>, name: string): string
  {
    if name !in tools then "Tool not found: " + name else "Tool not available: " + name
  }

  // ---------------------------------------------------------------------------
  // the orchestrator

  class Orchestrator {
    const config: ScanConfig
    const registry: Registry.ToolRegistry
    const bus: Events.EventBus
    const plan: ReconPlan
    const rulesEngine: Rules.RulesEngine
    const scoringEngine: Scoring.ScoringEngine
    /** The binaries `shutil.which` finds. */
    const onPath: set<string>
    var session: ScanSession
    var paused: bool
    var stopped: bool
    var seenAssets: set<string>

    predicate Valid()
      reads this, registry, bus
    {
      registry.Valid() && bus.Valid()
    }

    /** A new orchestrator has an empty session for the target, an empty plan, the
        default rules and scoring, no asset seen, and is neither paused nor stopped. */
    constructor (config: ScanConfig, registry: Registry.ToolRegistry, bus: Events.EventBus, onPath: set<string>, now: int)
      requires registry.Valid() && bus.Valid()
      ensures Valid()
      ensures this.config == config && this.registry == registry && this.bus == bus && this.onPath == onPath
      ensures fresh(plan) && fresh(rulesEngine) && fresh(scoringEngine)
      ensures session == NewSession(config.target, now) && seenAssets == {}
      ensures plan.AllTasks() == [] && !paused && !stopped
      ensures rulesEngine.rules == Rules.DefaultRules()
      ensures scoringEngine.assetRules == Scoring.DefaultAssetRules()
    {
      this.config := config;
      this.registry := registry;
      this.bus := bus;
      this.onPath := onPath;
      session := NewSession(config.target, now);
      plan := new ReconPlan();
      rulesEngine := new Rules.RulesEngine();
      scoringEngine := new Scoring.ScoringEngine();
      paused := false;
      stopped := false;
      seenAssets := {};
    }

    /** `_create_initial_task()` */
    method CreateInitialTask() returns (task: Task)
      ensures fresh(task)
      ensures task.name == InitialTool(config.target) && task.description == InitialDescription(config.target)
      ensures task.metadata == map["target" := config.target] && task.status == Pending
    {
      var target := config.target;
      var toolName, description;
      if Helpers.IsValidUrl(target) {
        toolName, description := "httpx", "Probe HTTP service: " + target;
      } else if Helpers.IsValidIp(target) {
        toolName, description := "nmap", "Port scan: " + target;
      } else {
        toolName, description := "subfinder", "Find subdomains for: " + target;
      }
      task := new Task(toolName, description, map["target" := target]);
    }

    /** The opening of `start()`: announce the scan, then queue the first task at the
        back and record it in the session. */
    method Begin(now: int) returns (initial: Task)
      requires Valid()
      modifies this, plan, bus
      ensures Valid()
      ensures fresh(initial) && initial.name == InitialTool(config.target) && initial.metadata == map["target" := config.target]
      ensures plan.pending == old(plan.pending) + [initial]
      ensures plan.running == old(plan.running) && plan.completed == old(plan.completed)
      ensures plan.failed == old(plan.failed) && plan.skipped == old(plan.skipped)
      ensures session == old(session).(tasks := old(session.tasks) + [initial])
      ensures bus.history == Events.Capped(old(bus.history) + [Published(Events.ScanStarted, map["target" := JStr(config.target)], now)])
      ensures seenAssets == old(seenAssets) && paused == old(paused) && stopped == old(stopped)
    {
      var _ := bus.Publish(Published(Events.ScanStarted, map["target" := JStr(config.target)], now));
      initial := CreateInitialTask();
      plan.AddTask(initial, false);
      session := session.(tasks := session.tasks + [initial]);
    }

    /** The close of `start()`: the session is completed at `now`, and the completion is
        announced with the numbers of assets and findings. */
    method Finish(now: int)
      requires Valid()
      modifies this, bus
      ensures Valid()
      ensures session == old(session).(completedAt := Some(now))
      ensures bus.history == Events.Capped(old(bus.history) + [Published(Events.ScanCompleted,
                map["assets" := JInt(|session.assets|), "findings" := JInt(|session.findings|)], now)])
      ensures seenAssets == old(seenAssets) && paused == old(paused) && stopped == old(stopped)
    {
      session := session.(completedAt := Some(now));
      var _ := bus.Publish(Published(Events.ScanCompleted,
        map["assets" := JInt(|session.assets|), "findings" := JInt(|session.findings|)], now));
    }

    /** One turn of `_orchestration_loop`: the decision, and the pop of the next task
        when the loop gets that far. */
    method Step() returns (turn: Turn)
      modifies plan
      ensures turn.Kind() == LoopDecision(stopped, paused, |old(plan.running)|, config.maxParallel, old(plan.pending) == [])
      ensures turn.Dispatched? ==> (Some(turn.task), plan.pending) == Popped(old(plan.pending))
      ensures !turn.Dispatched? ==> plan.pending == old(plan.pending)
      ensures plan.running == old(plan.running) && plan.completed == old(plan.completed)
      ensures plan.failed == old(plan.failed) && plan.skipped == old(plan.skipped)
    {
      if stopped {
        return Exited;
      }
      if paused {
        return Waited;
      }
      if |plan.running| >= config.maxParallel {
        return Waited;
      }
      var next := plan.GetNextTask();
      if next.None? {
        if plan.running == [] {
          return Exited;
        }
        return Waited;
      }
      turn := Dispatched(next.value);
    }

    /** `pause()` */
    method Pause()
      modifies this
      ensures paused && stopped == old(stopped)
      ensures session == old(session) && seenAssets == old(seenAssets)
    {
      paused := true;
    }

    /** `resume()` */
    method Resume()
      modifies this
      ensures !paused && stopped == old(stopped)
      ensures session == old(session) && seenAssets == old(seenAssets)
    {
      paused := false;
    }

    /** `stop()` */
    method Stop()
      modifies this
      ensures stopped && paused == old(paused)
      ensures session == old(session) && seenAssets == old(seenAssets)
    {
      stopped := true;
    }

    /** `_execute_task(task)`: a task whose tool is not registered, or not available,
        fails at once with a message saying which, and nothing else happens. Otherwise
        the task runs from `now` and is announced, the stream `run` yields on the
        task's target is handled result by result, and the task then completes, or
        fails with the message of the exception that ended the stream. */
    method ExecuteTask(task: Task, run: string -> (seq<ToolResult>, Option<string>), now: int) returns (ghost added: seq<Task>)
      requires registry.Valid() && bus.Valid()
      modifies this, plan, bus, task
      ensures bus.Valid() && bus.subscribers == old(bus.subscribers)
      ensures paused == old(paused) && stopped == old(stopped) && plan.skipped == old(plan.skipped)
      ensures plan.running == Left(old(plan.running), task) && task.completedAt == Some(now)
      ensures !Usable(registry.tools, onPath, task.name) ==>
                added == [] && task.status == Failed && task.error == Some(UnusableError(registry.tools, task.name))
                && task.progress == old(task.progress) && task.startedAt == old(task.startedAt)
                && plan.failed == old(plan.failed) + [task] && plan.completed == old(plan.completed)
                && plan.pending == old(plan.pending)
                && session == old(session) && seenAssets == old(seenAssets) && bus.history == old(bus.history)
      ensures Usable(registry.tools, onPath, task.name) ==>
                var results := run(TargetOf(task.metadata, config.target)).0;
                var raised := run(TargetOf(task.metadata, config.target)).1;
                task.startedAt == Some(now)
                && SameHeader(session, old(session)) && session.tasks == old(session.tasks) + added
                && Recorded(scoringEngine.assetRules, old(seenAssets), old(session.assets), AllAssets(results), seenAssets, session.assets)
                && session.findings == old(session.findings) + AllFindings(results)
                && Grew(old(plan.pending), added, plan.pending)
                && bus.history != []
                && (raised.None? ==>
                      task.status == Completed && task.progress == 100 && task.error == old(task.error)
                      && plan.completed == old(plan.completed) + [task] && plan.failed == old(plan.failed)
                      && bus.history[|bus.history| - 1] == Published(Events.TaskCompleted, map["name" := JStr(task.name)], now))
                && (raised.Some? ==>
                      task.status == Failed && task.error == raised && task.progress == LastProgress(old(task.progress), results)
                      && plan.failed == old(plan.failed) + [task] && plan.completed == old(plan.completed)
                      && bus.history[|bus.history| - 1] == Published(Events.TaskFailed, map["error" := JStr(raised.value)], now))
      ensures forall t :: t in added ==> fresh(t) && t.status == Pending
    {
      added := [];
      var tool := registry.Get(task.name);
      if tool.None? {
        plan.MarkFailed(task, "Tool not found: " + task.name, now);
        return;
      }
      if !IsAvailable(tool.value, onPath) {
        plan.MarkFailed(task, "Tool not available: " + task.name, now);
        return;
      }
      var target := TargetOf(task.metadata, config.target);
      added := RunTask(task, run(target).0, run(target).1, now);
    }

    /** `_execute_task` with the tool's own `execute` as the stream: `runOf(target)` is
        the tool's run and what its process delivered. `execute` turns a timeout, a
        failing process and a failed parse into an unsuccessful result instead of an
        exception, so a task whose tool can run always ends completed, with the assets
        and findings of the successful results. */
    method ExecuteToolTask(task: Task, runOf: string -> (ToolRun, seq<Read>), now: int) returns (ghost added: seq<Task>)
      requires registry.Valid() && bus.Valid()
      modifies this, plan, bus, task
      ensures bus.Valid() && plan.running == Left(old(plan.running), task) && task.completedAt == Some(now)
      ensures !Usable(registry.tools, onPath, task.name) ==>
                added == [] && task.status == Failed && task.error == Some(UnusableError(registry.tools, task.name))
                && plan.failed == old(plan.failed) + [task] && plan.completed == old(plan.completed)
                && session == old(session)
      ensures Usable(registry.tools, onPath, task.name) ==>
                var target := TargetOf(task.metadata, config.target);
                var results := ExecuteResults(runOf(target).0, true, runOf(target).1);
                task.status == Completed && task.progress == 100
                && plan.completed == old(plan.completed) + [task] && plan.failed == old(plan.failed)
                && Recorded(scoringEngine.assetRules, old(seenAssets), old(session.assets), AllAssets(results), seenAssets, session.assets)
                && session.findings == old(session.findings) + AllFindings(results)
    {
      added := ExecuteTask(task, target => (ExecuteResults(runOf(target).0, true, runOf(target).1), None), now);
    }

    /** The part of `_execute_task` once the tool can run: `results` is what the tool
        yields, `raised` the message of the exception that ended it, if any. */
    method RunTask(task: Task, results: seq<ToolResult>, raised: Option<string>, now: int) returns (ghost added: seq<Task>)
      requires registry.Valid() && bus.Valid()
      modifies this, plan, bus, task
      ensures bus.Valid() && bus.subscribers == old(bus.subscribers)
      ensures paused == old(paused) && stopped == old(stopped) && plan.skipped == old(plan.skipped)
      ensures plan.running == Left(old(plan.running), task) && task.completedAt == Some(now)
      ensures task.startedAt == Some(now)
      ensures SameHeader(session, old(session)) && session.tasks == old(session.tasks) + added
      ensures Recorded(scoringEngine.assetRules, old(seenAssets), old(session.assets), AllAssets(results), seenAssets, session.assets)
      ensures session.findings == old(session.findings) + AllFindings(results)
      ensures Grew(old(plan.pending), added, plan.pending)
      ensures bus.history != []
      ensures raised.None? ==>
                task.status == Completed && task.progress == 100 && task.error == old(task.error)
                && plan.completed == old(plan.completed) + [task] && plan.failed == old(plan.failed)
                && bus.history[|bus.history| - 1] == Published(Events.TaskCompleted, map["name" := JStr(task.name)], now)
      ensures raised.Some? ==>
                task.status == Failed && task.error == raised && task.progress == LastProgress(old(task.progress), results)
                && plan.failed == old(plan.failed) + [task] && plan.completed == old(plan.completed)
                && bus.history[|bus.history| - 1] == Published(Events.TaskFailed, map["error" := JStr(raised.value)], now)
      ensures forall t :: t in added ==> fresh(t) && t.status == Pending
    {
      ghost var running0 := plan.running;
      plan.MarkRunning(task, now);
      var _ := bus.Publish(Published(Events.TaskStarted, map["name" := JStr(task.name)], now));
      added := HandleResults(task, results, now);
      JoinThenLeave(running0, task);
      EndTask(task, raised, now);
    }

    /** The end of `_execute_task`: completed when the stream ended normally, failed
        with the exception's message otherwise, and announced either way. */
    method EndTask(task: Task, raised: Option<string>, now: int)
      requires bus.Valid()
      modifies plan, bus, task
      ensures bus.Valid() && bus.subscribers == old(bus.subscribers)
      ensures plan.running == Left(old(plan.running), task) && task.completedAt == Some(now)
      ensures plan.pending == old(plan.pending) && plan.skipped == old(plan.skipped)
      ensures task.startedAt == old(task.startedAt)
      ensures bus.history != []
      ensures raised.None? ==>
                task.status == Completed && task.progress == 100 && task.error == old(task.error)
                && plan.completed == old(plan.completed) + [task] && plan.failed == old(plan.failed)
                && bus.history[|bus.history| - 1] == Published(Events.TaskCompleted, map["name" := JStr(task.name)], now)
      ensures raised.Some? ==>
                task.status == Failed && task.error == raised && task.progress == old(task.progress)
                && plan.failed == old(plan.failed) + [task] && plan.completed == old(plan.completed)
                && bus.history[|bus.history| - 1] == Published(Events.TaskFailed, map["error" := JStr(raised.value)], now)
    {
      if raised.None? {
        plan.MarkCompleted(task, now);
        var _ := bus.Publish(Published(Events.TaskCompleted, map["name" := JStr(task.name)], now));
      } else {
        plan.MarkFailed(task, raised.value, now);
        var _ := bus.Publish(Published(Events.TaskFailed, map["error" := JStr(raised.value)], now));
      }
    }

    /** The `async for` of `_execute_task`: the results handled in stream order. */
    method HandleResults(task: Task, results: seq<ToolResult>, now: int) returns (ghost added: seq<Task>)
      requires registry.Valid() && bus.Valid()
      modifies this, plan, bus, task
      ensures bus.Valid() && bus.subscribers == old(bus.subscribers)
      ensures plan.running == old(plan.running) && plan.completed == old(plan.completed)
      ensures plan.failed == old(plan.failed) && plan.skipped == old(plan.skipped)
      ensures paused == old(paused) && stopped == old(stopped)
      ensures task.status == old(task.status) && task.startedAt == old(task.startedAt)
      ensures task.completedAt == old(task.completedAt) && task.error == old(task.error)
      ensures task.progress == LastProgress(old(task.progress), results)
      ensures SameHeader(session, old(session)) && session.tasks == old(session.tasks) + added
      ensures Recorded(scoringEngine.assetRules, old(seenAssets), old(session.assets), AllAssets(results), seenAssets, session.assets)
      ensures session.findings == old(session.findings) + AllFindings(results)
      ensures Grew(old(plan.pending), added, plan.pending)
      ensures forall t :: t in added ==> fresh(t) && t.status == Pending
    {
      added := [];
      ghost var progress0, seen0, assets0, findings0 := task.progress, seenAssets, session.assets, session.findings;
      ghost var pending0, tasks0, header0 := plan.pending, session.tasks, session;
      ghost var subscribers0, running0, completed0, failed0, skipped0 := bus.subscribers, plan.running, plan.completed, plan.failed, plan.skipped;
      ghost var paused0, stopped0, status0, startedAt0, completedAt0, error0 := paused, stopped, task.status, task.startedAt, task.completedAt, task.error;
      for k := 0 to |results|
        invariant bus.Valid() && bus.subscribers == subscribers0
        invariant plan.running == running0 && plan.completed == completed0
        invariant plan.failed == failed0 && plan.skipped == skipped0
        invariant paused == paused0 && stopped == stopped0
        invariant task.status == status0 && task.startedAt == startedAt0
        invariant task.completedAt == completedAt0 && task.error == error0
        invariant task.progress == LastProgress(progress0, results[..k])
        invariant SameHeader(session, header0) && session.tasks == tasks0 + added
        invariant Recorded(scoringEngine.assetRules, seen0, assets0, AllAssets(results[..k]), seenAssets, session.assets)
        invariant session.findings == findings0 + AllFindings(results[..k])
        invariant Grew(pending0, added, plan.pending)
        invariant forall t :: t in added ==> fresh(t) && t.status == Pending
      {
        assert results[..k + 1] == results[..k] + [results[k]];
        ghost var more := HandleNextResult(task, results[..k], results[k], now, progress0, seen0,
          assets0, findings0, pending0, tasks0, added);
        added := added + more;
      }
      assert results[..|results|] == results;
    }

    /** One turn of `HandleResults`: `result` handled after the results `done`. */
    method HandleNextResult(task: Task, ghost done: seq<ToolResult>, result: ToolResult, now: int, ghost progress0: int,
                            ghost seen0: set<string>, ghost assets0: seq<Asset>, ghost findings0: seq<Finding>,
                            ghost pending0: seq<Task>, ghost tasks0: seq<Task>, ghost added: seq<Task>) returns (ghost more: seq<Task>)
      requires registry.Valid() && bus.Valid()
      requires task.progress == LastProgress(progress0, done)
      requires Recorded(scoringEngine.assetRules, seen0, assets0, AllAssets(done), seenAssets, session.assets)
      requires session.findings == findings0 + AllFindings(done)
      requires Grew(pending0, added, plan.pending) && session.tasks == tasks0 + added
      modifies this, plan, bus, task
      ensures bus.Valid() && bus.subscribers == old(bus.subscribers)
      ensures plan.running == old(plan.running) && plan.completed == old(plan.completed)
      ensures plan.failed == old(plan.failed) && plan.skipped == old(plan.skipped)
      ensures paused == old(paused) && stopped == old(stopped)
      ensures task.status == old(task.status) && task.startedAt == old(task.startedAt)
      ensures task.completedAt == old(task.completedAt) && task.error == old(task.error)
      ensures task.progress == LastProgress(progress0, done + [result])
      ensures SameHeader(session, old(session)) && session.tasks == tasks0 + (added + more)
      ensures Recorded(scoringEngine.assetRules, seen0, assets0, AllAssets(done + [result]), seenAssets, session.assets)
      ensures session.findings == findings0 + AllFindings(done + [result])
      ensures Grew(pending0, added + more, plan.pending)
      ensures forall t :: t in more ==> fresh(t) && t.status == Pending
    {
      assert (done + [result])[..|done|] == done;
      ghost var seen, assets, pending := seenAssets, session.assets, plan.pending;
      more := HandleResult(task, result, now);
      RecordedConcat(scoringEngine.assetRules, seen0, assets0, AllAssets(done),
        if result.success then result.assets else [], seen, assets, seenAssets, session.assets);
      GrewTrans(pending0, added, pending, more, plan.pending);
      Seqs.ConcatAssoc(tasks0, added, more);
      Seqs.ConcatAssoc(findings0, AllFindings(done), if result.success then result.findings else []);
    }

    /** One result of the stream: a successful one has its assets and then its findings
        handled, sets the task's progress (50 unless the result says) and announces it;
        an unsuccessful one is ignored. */
    method HandleResult(task: Task, result: ToolResult, now: int) returns (ghost added: seq<Task>)
      requires registry.Valid() && bus.Valid()
      modifies this, plan, bus, task
      ensures bus.Valid() && bus.subscribers == old(bus.subscribers)
      ensures plan.running == old(plan.running) && plan.completed == old(plan.completed)
      ensures plan.failed == old(plan.failed) && plan.skipped == old(plan.skipped)
      ensures paused == old(paused) && stopped == old(stopped)
      ensures task.status == old(task.status) && task.startedAt == old(task.startedAt)
      ensures task.completedAt == old(task.completedAt) && task.error == old(task.error)
      ensures SameHeader(session, old(session)) && session.tasks == old(session.tasks) + added
      ensures Recorded(scoringEngine.assetRules, old(seenAssets), old(session.assets),
                if result.success then result.assets else [], seenAssets, session.assets)
      ensures session.findings == old(session.findings) + (if result.success then result.findings else [])
      ensures Grew(old(plan.pending), added, plan.pending)
      ensures forall t :: t in added ==> fresh(t) && t.status == Pending
      ensures result.success ==>
                task.progress == ProgressOf(result.metadata)
                && bus.history != [] && bus.history[|bus.history| - 1] == ProgressEvent(task.progress, now)
      ensures !result.success ==> added == [] && task.progress == old(task.progress) && bus.history == old(bus.history)
    {
      added := [];
      if !result.success {
        assert Recorded(scoringEngine.assetRules, seenAssets, session.assets, [], seenAssets, session.assets);
        return;
      }
      added := HandleAssets(result.assets, now);
      HandleFindings(result.findings, now);
      task.progress := ProgressOf(result.metadata);
      var _ := bus.Publish(ProgressEvent(task.progress, now));
    }

    /** The assets of one result, handled in order. */
    method HandleAssets(assets: seq<Asset>, now: int) returns (ghost added: seq<Task>)
      requires registry.Valid() && bus.Valid()
      modifies this, plan, bus
      ensures bus.Valid() && bus.subscribers == old(bus.subscribers)
      ensures plan.running == old(plan.running) && plan.completed == old(plan.completed)
      ensures plan.failed == old(plan.failed) && plan.skipped == old(plan.skipped)
      ensures paused == old(paused) && stopped == old(stopped)
      ensures SameHeader(session, old(session)) && session.tasks == old(session.tasks) + added
      ensures session.findings == old(session.findings)
      ensures Recorded(scoringEngine.assetRules, old(seenAssets), old(session.assets), assets, seenAssets, session.assets)
      ensures Grew(old(plan.pending), added, plan.pending)
      ensures forall t :: t in added ==> fresh(t) && t.status == Pending
    {
      added := [];
      ghost var seen0, assets0, findings0 := seenAssets, session.assets, session.findings;
      ghost var pending0, tasks0, header0 := plan.pending, session.tasks, session;
      assert Recorded(scoringEngine.assetRules, seen0, assets0, assets[..0], seenAssets, session.assets);
      for i := 0 to |assets|
        invariant bus.Valid() && bus.subscribers == old(bus.subscribers)
        invariant plan.running == old(plan.running) && plan.completed == old(plan.completed)
        invariant plan.failed == old(plan.failed) && plan.skipped == old(plan.skipped)
        invariant paused == old(paused) && stopped == old(stopped)
        invariant SameHeader(session, header0) && session.tasks == tasks0 + added
        invariant session.findings == findings0
        invariant Recorded(scoringEngine.assetRules, seen0, assets0, assets[..i], seenAssets, session.assets)
        invariant Grew(pending0, added, plan.pending)
        invariant forall t :: t in added ==> fresh(t) && t.status == Pending
      {
        assert assets[..i + 1] == assets[..i] + [assets[i]];
        ghost var more := HandleNextAsset(assets[..i], assets[i], now, seen0, assets0, pending0, tasks0, added);
        added := added + more;
      }
      assert assets[..|assets|] == assets;
    }

    /** One turn of `HandleAssets`: `asset` handled after the assets `done`. */
    method HandleNextAsset(ghost done: seq<Asset>, asset: Asset, now: int, ghost seen0: set<string>, ghost assets0: seq<Asset>,
                           ghost pending0: seq<Task>, ghost tasks0: seq<Task>, ghost added: seq<Task>) returns (ghost more: seq<Task>)
      requires registry.Valid() && bus.Valid()
      requires Recorded(scoringEngine.assetRules, seen0, assets0, done, seenAssets, session.assets)
      requires Grew(pending0, added, plan.pending) && session.tasks == tasks0 + added
      modifies this, plan, bus
      ensures bus.Valid() && bus.subscribers == old(bus.subscribers)
      ensures plan.running == old(plan.running) && plan.completed == old(plan.completed)
      ensures plan.failed == old(plan.failed) && plan.skipped == old(plan.skipped)
      ensures paused == old(paused) && stopped == old(stopped)
      ensures SameHeader(session, old(session)) && session.tasks == tasks0 + (added + more)
      ensures session.findings == old(session.findings)
      ensures Recorded(scoringEngine.assetRules, seen0, assets0, done + [asset], seenAssets, session.assets)
      ensures Grew(pending0, added + more, plan.pending)
      ensures forall t :: t in more ==> fresh(t) && t.status == Pending
    {
      ghost var seen, recorded, pending := seenAssets, session.assets, plan.pending;
      more := HandleAsset(asset, now);
      RecordedConcat(scoringEngine.assetRules, seen0, assets0, done, [asset], seen, recorded, seenAssets, session.assets);
      GrewTrans(pending0, added, pending, more, plan.pending);
      Seqs.ConcatAssoc(tasks0, added, more);
    }

    /** The findings of one result, handled in order. */
    method HandleFindings(findings: seq<Finding>, now: int)
      requires registry.Valid() && bus.Valid()
      modifies this, bus
      ensures bus.Valid() && bus.subscribers == old(bus.subscribers)
      ensures session == old(session).(findings := old(session.findings) + findings)
      ensures seenAssets == old(seenAssets) && paused == old(paused) && stopped == old(stopped)
    {
      var j := 0;
      while j < |findings|
        invariant 0 <= j <= |findings|
        invariant bus.Valid() && bus.subscribers == old(bus.subscribers)
        invariant session == old(session).(findings := old(session.findings) + findings[..j])
        invariant seenAssets == old(seenAssets) && paused == old(paused) && stopped == old(stopped)
      {
        assert findings[..j + 1] == findings[..j] + [findings[j]];
        HandleFinding(findings[j], now);
        j := j + 1;
      }
      assert findings[..|findings|] == findings;
    }

    /** `_handle_finding(finding)`: recorded in the session and announced. */
    method HandleFinding(finding: Finding, now: int)
      requires Valid()
      modifies this, bus
      ensures Valid()
      ensures session == old(session).(findings := old(session.findings) + [finding])
      ensures bus.history == Events.Capped(old(bus.history) + [FindingEvent(finding, now)])
      ensures bus.subscribers == old(bus.subscribers)
      ensures seenAssets == old(seenAssets) && paused == old(paused) && stopped == old(stopped)
    {
      session := session.(findings := session.findings + [finding]);
      var _ := bus.Publish(FindingEvent(finding, now));
    }

    /** `_handle_asset(asset)`: an asset whose key was seen changes nothing. A new one is
        marked seen, scored, recorded and announced; in automatic mode each tool the
        rules propose for the scored asset that is registered and available becomes a
        pending task on the asset's value (`added`, in the rules' order), at the front
        when its priority is above 8. */
    method HandleAsset(asset: Asset, now: int) returns (ghost added: seq<Task>)
      requires registry.Valid() && bus.Valid()
      modifies this, plan, bus
      ensures bus.Valid()
      ensures plan.running == old(plan.running) && plan.completed == old(plan.completed)
      ensures plan.failed == old(plan.failed) && plan.skipped == old(plan.skipped)
      ensures paused == old(paused) && stopped == old(stopped) && bus.subscribers == old(bus.subscribers)
      ensures Recorded(scoringEngine.assetRules, old(seenAssets), old(session.assets), [asset], seenAssets, session.assets)
      ensures SameHeader(session, old(session)) && session.tasks == old(session.tasks) + added
      ensures session.findings == old(session.findings)
      ensures AssetKey(asset) in old(seenAssets) ==>
                added == [] && plan.pending == old(plan.pending) && bus.history == old(bus.history)
      ensures AssetKey(asset) !in old(seenAssets) ==>
                bus.history == Events.Capped(old(bus.history) + [AssetEvent(asset, now)])
                && Chained(old(plan.pending), added, plan.pending,
                     FollowUps(config.mode, Rules.NextTools(rulesEngine.rules, Scored(scoringEngine.assetRules, asset)), registry.tools, onPath))
      ensures Grew(old(plan.pending), added, plan.pending)
      ensures forall t :: t in added ==> fresh(t) && t.status == Pending && t.metadata == map["target" := asset.value]
    {
      added := [];
      if AssetKey(asset) in seenAssets {
        RecordedSingle(scoringEngine.assetRules, seenAssets, session.assets, asset, seenAssets, session.assets);
        assert plan.pending + [] == plan.pending;
        return;
      }
      added := HandleNewAsset(asset, now);
    }

    /** The branch of `_handle_asset` for an asset whose key was not seen. */
    method HandleNewAsset(asset: Asset, now: int) returns (ghost added: seq<Task>)
      requires registry.Valid() && bus.Valid()
      requires AssetKey(asset) !in seenAssets
      modifies this, plan, bus
      ensures bus.Valid()
      ensures plan.running == old(plan.running) && plan.completed == old(plan.completed)
      ensures plan.failed == old(plan.failed) && plan.skipped == old(plan.skipped)
      ensures paused == old(paused) && stopped == old(stopped) && bus.subscribers == old(bus.subscribers)
      ensures Recorded(scoringEngine.assetRules, old(seenAssets), old(session.assets), [asset], seenAssets, session.assets)
      ensures SameHeader(session, old(session)) && session.tasks == old(session.tasks) + added
      ensures session.findings == old(session.findings)
      ensures bus.history == Events.Capped(old(bus.history) + [AssetEvent(asset, now)])
      ensures Chained(old(plan.pending), added, plan.pending,
                FollowUps(config.mode, Rules.NextTools(rulesEngine.rules, Scored(scoringEngine.assetRules, asset)), registry.tools, onPath))
      ensures Grew(old(plan.pending), added, plan.pending)
      ensures forall t :: t in added ==> fresh(t) && t.status == Pending && t.metadata == map["target" := asset.value]
    {
      var scored := RecordAsset(asset, now);
      RecordedSingle(scoringEngine.assetRules, old(seenAssets), old(session.assets), asset, seenAssets, session.assets);
      added := FollowUpAsset(scored);
    }

    /** The part of `_handle_asset` after the asset is recorded: in automatic mode the
        follow-ups the rules propose for it, each registered and available tool queued. */
    method FollowUpAsset(asset: Asset) returns (ghost added: seq<Task>)
      requires registry.Valid()
      modifies this, plan
      ensures plan.running == old(plan.running) && plan.completed == old(plan.completed)
      ensures plan.failed == old(plan.failed) && plan.skipped == old(plan.skipped)
      ensures paused == old(paused) && stopped == old(stopped) && seenAssets == old(seenAssets)
      ensures session == old(session).(tasks := old(session.tasks) + added)
      ensures Chained(old(plan.pending), added, plan.pending,
                FollowUps(config.mode, Rules.NextTools(rulesEngine.rules, asset), registry.tools, onPath))
      ensures Grew(old(plan.pending), added, plan.pending)
      ensures forall t :: t in added ==> fresh(t) && t.status == Pending && t.metadata == map["target" := asset.value]
    {
      added := [];
      if config.mode == Auto {
        var next := rulesEngine.GetNextTools(asset);
        added := AddFollowUps(asset, next);
        ChainedGrew(old(plan.pending), added, plan.pending, Available(next, registry.tools, onPath));
      } else {
        assert Chained(plan.pending, [], plan.pending, []);
        assert plan.pending == plan.pending + [];
        assert session == session.(tasks := session.tasks + []);
      }
    }

    /** The part of `_handle_asset` for an unseen asset before the follow-ups: mark its
        key seen, score it, add it to the session and announce it. */
    method RecordAsset(asset: Asset, now: int) returns (scored: Asset)
      requires bus.Valid()
      modifies this, bus
      ensures bus.Valid() && bus.subscribers == old(bus.subscribers)
      ensures scored == Scored(scoringEngine.assetRules, asset)
      ensures seenAssets == old(seenAssets) + {AssetKey(asset)}
      ensures session == old(session).(assets := old(session.assets) + [scored])
      ensures bus.history == Events.Capped(old(bus.history) + [AssetEvent(asset, now)])
      ensures paused == old(paused) && stopped == old(stopped)
    {
      seenAssets := seenAssets + {AssetKey(asset)};
      var score := scoringEngine.ScoreAsset(asset);
      scored := asset.(score := score);
      session := session.(assets := session.assets + [scored]);
      var _ := bus.Publish(AssetEvent(scored, now));
    }

    /** The loop of `_handle_asset` over the tools `next` proposed for `asset`. */
    method AddFollowUps(asset: Asset, next: seq<Rules.NextTool>) returns (ghost added: seq<Task>)
      requires registry.Valid()
      modifies this, plan
      ensures plan.running == old(plan.running) && plan.completed == old(plan.completed)
      ensures plan.failed == old(plan.failed) && plan.skipped == old(plan.skipped)
      ensures paused == old(paused) && stopped == old(stopped) && seenAssets == old(seenAssets)
      ensures session == old(session).(tasks := old(session.tasks) + added)
      ensures Chained(old(plan.pending), added, plan.pending, Available(next, registry.tools, onPath))
      ensures forall t :: t in added ==> fresh(t) && t.status == Pending && t.metadata == map["target" := asset.value]
    {
      added := [];
      ghost var pending0, session0 := plan.pending, session;
      ghost var running0, completed0, failed0, skipped0 := plan.running, plan.completed, plan.failed, plan.skipped;
      for i := 0 to |next|
        invariant plan.running == running0 && plan.completed == completed0
        invariant plan.failed == failed0 && plan.skipped == skipped0
        invariant paused == old(paused) && stopped == old(stopped) && seenAssets == old(seenAssets)
        invariant session == session0.(tasks := session0.tasks + added)
        invariant Chained(pending0, added, plan.pending, Available(next[..i], registry.tools, onPath))
        invariant forall t :: t in added ==> fresh(t) && t.status == Pending && t.metadata == map["target" := asset.value]
      {
        var proposed := next[i];
        ghost var done := Available(next[..i], registry.tools, onPath);
        ghost var before := plan.pending;
        ghost var usable := Usable(registry.tools, onPath, proposed.tool);
        AvailablePrefix(next, i, registry.tools, onPath);
        ghost var one := AddFollowUp(asset, proposed);
        ChainedStep(pending0, added, before, plan.pending, one, done, proposed, usable);
        added := added + one;
      }
      assert next[..|next|] == next;
    }

    /** One pass of that loop: `proposed` becomes a pending task on the asset's value
        when its tool is registered and available, and is skipped otherwise. */
    method AddFollowUp(asset: Asset, proposed: Rules.NextTool) returns (ghost added: seq<Task>)
      requires registry.Valid()
      modifies this, plan
      ensures plan.running == old(plan.running) && plan.completed == old(plan.completed)
      ensures plan.failed == old(plan.failed) && plan.skipped == old(plan.skipped)
      ensures paused == old(paused) && stopped == old(stopped) && seenAssets == old(seenAssets)
      ensures session == old(session).(tasks := old(session.tasks) + added)
      ensures Usable(registry.tools, onPath, proposed.tool) ==>
                |added| == 1 && added[0].name == proposed.tool
                && added[0].description == proposed.reason + ": " + asset.value
                && plan.pending == Pushed(old(plan.pending), added[0], proposed.priority > 8)
      ensures !Usable(registry.tools, onPath, proposed.tool) ==> added == [] && plan.pending == old(plan.pending)
      ensures forall t :: t in added ==> fresh(t) && t.status == Pending && t.metadata == map["target" := asset.value]
    {
      added := [];
      var tool := registry.Get(proposed.tool);
      if tool.Some? && IsAvailable(tool.value, onPath) {
        var task := new Task(proposed.tool, proposed.reason + ": " + asset.value, map["target" := asset.value]);
        plan.AddTask(task, proposed.priority > 8);
        session := session.(tasks := session.tasks + [task]);
        added := [task];
      }
    }
  }

  lemma EnqueueSnoc(pending: seq<string>, fs: seq<Rules.NextTool>, f: Rules.NextTool)
    ensures Enqueue(pending, fs + [f]) == Pushed(Enqueue(pending, fs), f.tool, f.priority > 8)
  {
    assert (fs + [f])[..|fs|] == fs;
  }
}
