/** The adapter base: tool results and configuration, the default partial parser, and
    which results `execute` yields for a run of the tool. The subprocess is replaced by
    the sequence of what reading its stdout produced (a line, a read timeout, or an
    exception), its exit code and its stderr; the adapter's parsers are parameters. */
module Base {
  import opened Outcomes
  import opened Models
  import Strings

  datatype ToolCategory = Dns | Subdomain | PortScan | WebProbe | Vulnerability | Osint | Technology | Fuzzing

  datatype ToolResult = ToolResult(
    toolName: string,
    success: bool,
    assets: seq<Asset> := [],
    findings: seq<Finding> := [],
    rawOutput: string := "",
    error: Option<string> := None,
    metadata: map<string, int> := map[])

  /** Tool configuration; unless given, the timeout is 300 seconds, the tool does not
      need root, and it produces, consumes and triggers nothing. */
  datatype ToolConfig = ToolConfig(
    name: string,
    binary: string,
    category: ToolCategory,
    description: string,
    timeout: int := 300,
    requiresRoot: bool := false,
    produces: seq<string> := [],
    consumes: seq<string> := [],
    triggers: seq<string> := [])

  /** What a parser has gathered: assets and findings, each in discovery order. */
  datatype Found = Found(assets: seq<Asset>, findings: seq<Finding>)
  {
    function Plus(other: Found): Found
    {
      Found(assets + other.assets, findings + other.findings)
    }
  }

  /** A loop that appends what each element gives to both lists. */
  function Gather<A>(s: seq<A>, g: A -> Found): Found
  {
    if s == [] then Found([], []) else Gather(s[..|s| - 1], g).Plus(g(s[|s| - 1]))
  }

  lemma GatherStep<A>(s: seq<A>, i: nat, g: A -> Found)
    requires i < |s|
    ensures Gather(s[..i + 1], g) == Gather(s[..i], g).Plus(g(s[i]))
  {
    assert s[..i + 1][..i] == s[..i];
  }

  /** What a loop gathers is exactly what the elements give. */
  lemma {:induction false} GatherMembership<A>(s: seq<A>, g: A -> Found, a: Asset, f: Finding)
    ensures a in Gather(s, g).assets <==> exists i :: 0 <= i < |s| && a in g(s[i]).assets
    ensures f in Gather(s, g).findings <==> exists i :: 0 <= i < |s| && f in g(s[i]).findings
  {
    if s != [] {
      var n := |s| - 1;
      var pre := s[..n];
      GatherMembership(pre, g, a, f);
      if exists i :: 0 <= i < |s| && a in g(s[i]).assets {
        var i :| 0 <= i < |s| && a in g(s[i]).assets;
        if i < n {
          assert pre[i] == s[i];
        }
      }
      if a in Gather(pre, g).assets {
        var i :| 0 <= i < n && a in g(pre[i]).assets;
        assert pre[i] == s[i];
      }
      if exists i :: 0 <= i < |s| && f in g(s[i]).findings {
        var i :| 0 <= i < |s| && f in g(s[i]).findings;
        if i < n {
          assert pre[i] == s[i];
        }
      }
      if f in Gather(pre, g).findings {
        var i :| 0 <= i < n && f in g(pre[i]).findings;
        assert pre[i] == s[i];
      }
    }
  }

  /** A loop over elements that each give at most `k` findings per asset gives at most
      `k` findings per asset. */
  lemma {:induction false} GatherFindingsPerAsset<A>(s: seq<A>, g: A -> Found, k: nat)
    requires forall i :: 0 <= i < |s| ==> |g(s[i]).findings| <= k * |g(s[i]).assets|
    ensures |Gather(s, g).findings| <= k * |Gather(s, g).assets|
  {
    if s != [] {
      var n := |s| - 1;
      assert forall i :: 0 <= i < n ==> s[..n][i] == s[i];
      GatherFindingsPerAsset(s[..n], g, k);
      var pre := Gather(s[..n], g);
      var last := g(s[n]);
      assert k * (|pre.assets| + |last.assets|) == k * |pre.assets| + k * |last.assets|;
    }
  }

  /** A loop that appends what each element gives to both lists and lets an exception
      escape: the results in order, or the first exception raised. */
  function CollectFound<A>(s: seq<A>, g: A -> Outcome<Found>): Outcome<Found>
  {
    if s == [] then Done(Found([], []))
    else
      var pre :- CollectFound(s[..|s| - 1], g);
      var here :- g(s[|s| - 1]);
      Done(pre.Plus(here))
  }

  lemma CollectFoundStep<A>(s: seq<A>, i: nat, g: A -> Outcome<Found>, acc: Found)
    requires i < |s| && CollectFound(s[..i], g) == Done(acc)
    ensures CollectFound(s[..i + 1], g) == if g(s[i]).Raised? then Raised(g(s[i]).exception) else Done(acc.Plus(g(s[i]).value))
  {
    assert s[..i + 1][..i] == s[..i];
  }

  /** Once an element raises, so does the whole loop, with the same exception. */
  lemma {:induction false} CollectFoundRaisedStays<A>(s: seq<A>, i: nat, g: A -> Outcome<Found>)
    requires i <= |s| && CollectFound(s[..i], g).Raised?
    ensures CollectFound(s, g) == CollectFound(s[..i], g)
    decreases |s| - i
  {
    if i < |s| {
      assert s[..i + 1][..i] == s[..i];
      CollectFoundRaisedStays(s, i + 1, g);
    } else {
      assert s[..i] == s;
    }
  }

  /** A completed loop completed every element. */
  lemma {:induction false} CollectFoundDoneEach<A>(s: seq<A>, g: A -> Outcome<Found>)
    requires CollectFound(s, g).Done?
    ensures forall i :: 0 <= i < |s| ==> g(s[i]).Done?
  {
    if s != [] {
      var n := |s| - 1;
      CollectFoundDoneEach(s[..n], g);
      assert forall i :: 0 <= i < n ==> s[..n][i] == s[i];
    }
  }

  /** The assets of a completed loop are exactly those the elements gave. */
  lemma {:induction false} CollectFoundAssets<A>(s: seq<A>, g: A -> Outcome<Found>, a: Asset)
    requires CollectFound(s, g).Done?
    ensures a in CollectFound(s, g).value.assets <==> exists i :: 0 <= i < |s| && g(s[i]).Done? && a in g(s[i]).value.assets
  {
    if s != [] {
      var n := |s| - 1;
      var pre := s[..n];
      CollectFoundAssets(pre, g, a);
      if exists i :: 0 <= i < |s| && g(s[i]).Done? && a in g(s[i]).value.assets {
        var i :| 0 <= i < |s| && g(s[i]).Done? && a in g(s[i]).value.assets;
        if i < n {
          assert pre[i] == s[i];
        }
      }
      if a in CollectFound(pre, g).value.assets {
        var i :| 0 <= i < n && g(pre[i]).Done? && a in g(pre[i]).value.assets;
        assert pre[i] == s[i];
      }
    }
  }

  /** The findings of a completed loop are exactly those the elements gave. */
  lemma {:induction false} CollectFoundFindings<A>(s: seq<A>, g: A -> Outcome<Found>, f: Finding)
    requires CollectFound(s, g).Done?
    ensures f in CollectFound(s, g).value.findings <==> exists i :: 0 <= i < |s| && g(s[i]).Done? && f in g(s[i]).value.findings
  {
    if s != [] {
      var n := |s| - 1;
      var pre := s[..n];
      CollectFoundFindings(pre, g, f);
      if exists i :: 0 <= i < |s| && g(s[i]).Done? && f in g(s[i]).value.findings {
        var i :| 0 <= i < |s| && g(s[i]).Done? && f in g(s[i]).value.findings;
        if i < n {
          assert pre[i] == s[i];
        }
      }
      if f in CollectFound(pre, g).value.findings {
        var i :| 0 <= i < n && g(pre[i]).Done? && f in g(pre[i]).value.findings;
        assert pre[i] == s[i];
      }
    }
  }

  /** A registered adapter, known to the core by its configuration. */
  datatype ToolAdapter = ToolAdapter(config: ToolConfig)

  /** `is_available`: the binary is found on the search path, given as the set of
      binaries that `shutil.which` finds. */
  predicate IsAvailable(tool: ToolAdapter, onPath: set<string>)
  {
    tool.config.binary in onPath
  }

  /** The partial parser of adapters that do not override it: never a result worth
      yielding. */
  function DefaultParsePartial(config: ToolConfig, output: string): (r: ToolResult)
    ensures !r.success && r.assets == [] && r.findings == [] && r.toolName == config.name
  {
    ToolResult(config.name, false)
  }

  function Failure(config: ToolConfig, error: string): ToolResult
  {
    ToolResult(config.name, false, error := Some(error))
  }

  function TimeoutMessage(config: ToolConfig): string
  {
    "Timeout after " + Strings.IntToString(config.timeout) + "s"
  }

  function NotFoundMessage(config: ToolConfig): string
  {
    "Tool binary '" + config.binary + "' not found"
  }

  /** What one read of the tool's stdout gave. */
  datatype Read = Line(text: string) | ReadTimeout | Raise(message: string)

  /** One run of an adapter's tool: its configuration, its two parsers (which may
      raise), and how the process ended. */
  datatype ToolRun = ToolRun(
    config: ToolConfig,
    parsePartial: string -> Outcome<ToolResult>,
    parseOutput: string -> Outcome<ToolResult>,
    exitCode: int,
    stderr: string)

  /** A partial result is yielded only when successful and not empty. */
  predicate WorthYielding(r: ToolResult)
  {
    r.success && (r.assets != [] || r.findings != [])
  }

  /** The final result: the full output parsed, its error replaced by stderr when the
      tool exited non-zero and the parse did not succeed. */
  function FinalResult(run: ToolRun, parsed: Outcome<ToolResult>): ToolResult
  {
    match parsed
    case Raised(e) => Failure(run.config, e)
    case Done(r) => if run.exitCode != 0 && !r.success then r.(error := Some(run.stderr)) else r
  }

  /** The results yielded from `trace`, with `stdout` read so far. */
  function Yielded(run: ToolRun, stdout: string, trace: seq<Read>): (r: seq<ToolResult>)
    ensures 1 <= |r| <= |trace| + 1
    decreases |trace|
  {
    if trace == [] then [FinalResult(run, run.parseOutput(stdout))]
    else
      match trace[0]
      case Line(text) =>
        var out := stdout + text;
        (match run.parsePartial(out)
         case Raised(e) => [Failure(run.config, e)]
         case Done(p) => (if WorthYielding(p) then [p] else []) + Yielded(run, out, trace[1..]))
      case ReadTimeout => [Failure(run.config, TimeoutMessage(run.config))]
      case Raise(m) => [Failure(run.config, m)]
  }

  /** `execute(target)` for a tool whose run produced `trace`. */
  function ExecuteResults(run: ToolRun, available: bool, trace: seq<Read>): (r: seq<ToolResult>)
    ensures |r| >= 1 && forall i :: 0 <= i < |r| - 1 ==> WorthYielding(r[i])
    ensures !available ==> |r| == 1 && !r[0].success
  {
    YieldedShape(run, "", trace);
    if !available then [Failure(run.config, NotFoundMessage(run.config))]
    else Yielded(run, "", trace)
  }

  /** The read loop of `execute`: accumulates stdout, yields worthwhile partial results,
      stops with a failure on a timeout or an exception, and parses the whole output at
      the end. */
  method Execute(run: ToolRun, available: bool, trace: seq<Read>) returns (results: seq<ToolResult>)
    ensures results == ExecuteResults(run, available, trace)
  {
    if !available {
      return [Failure(run.config, NotFoundMessage(run.config))];
    }
    var stdout := "";
    results := [];
    var i := 0;
    while i < |trace|
      invariant 0 <= i <= |trace|
      invariant results + Yielded(run, stdout, trace[i..]) == Yielded(run, "", trace)
    {
      YieldedAt(run, stdout, trace, i);
      match trace[i] {
        case Line(text) =>
          var out := stdout + text;
          var partial := run.parsePartial(out);
          match partial {
            case Raised(e) =>
              return results + [Failure(run.config, e)];
            case Done(p) =>
              var here := if WorthYielding(p) then [p] else [];
              assert results + (here + Yielded(run, out, trace[i + 1..]))
                  == (results + here) + Yielded(run, out, trace[i + 1..]);
              results := results + here;
              stdout := out;
          }
        case ReadTimeout =>
          return results + [Failure(run.config, TimeoutMessage(run.config))];
        case Raise(m) =>
          return results + [Failure(run.config, m)];
      }
      i := i + 1;
    }
    assert trace[i..] == [];
    results := results + [FinalResult(run, run.parseOutput(stdout))];
  }

  /** One read of the loop, from position `i` of the trace. */
  lemma YieldedAt(run: ToolRun, stdout: string, trace: seq<Read>, i: nat)
    requires i < |trace|
    ensures trace[i].Line? && run.parsePartial(stdout + trace[i].text).Raised? ==>
              Yielded(run, stdout, trace[i..]) == [Failure(run.config, run.parsePartial(stdout + trace[i].text).exception)]
    ensures trace[i].Line? && run.parsePartial(stdout + trace[i].text).Done? ==>
              var p := run.parsePartial(stdout + trace[i].text).value;
              Yielded(run, stdout, trace[i..])
              == (if WorthYielding(p) then [p] else []) + Yielded(run, stdout + trace[i].text, trace[i + 1..])
    ensures trace[i].ReadTimeout? ==> Yielded(run, stdout, trace[i..]) == [Failure(run.config, TimeoutMessage(run.config))]
    ensures trace[i].Raise? ==> Yielded(run, stdout, trace[i..]) == [Failure(run.config, trace[i].message)]
  {
    assert trace[i..][0] == trace[i];
    assert trace[i..][1..] == trace[i + 1..];
  }

  // ---------------------------------------------------------------------------
  // properties of the yielded results

  /** An unavailable binary yields one failure that names the binary. */
  lemma UnavailableYieldsOneFailure(run: ToolRun, trace: seq<Read>)
    ensures var r := ExecuteResults(run, false, trace);
            |r| == 1 && !r[0].success && r[0].toolName == run.config.name
            && r[0].error == Some("Tool binary '" + run.config.binary + "' not found")
  {
  }

  /** Every result but the last is a successful, non-empty partial result, and there is
      always a last one. */
  lemma {:induction false} YieldedShape(run: ToolRun, stdout: string, trace: seq<Read>)
    ensures var r := Yielded(run, stdout, trace);
            |r| >= 1 && forall i :: 0 <= i < |r| - 1 ==> WorthYielding(r[i])
    decreases |trace|
  {
    if trace != [] && trace[0].Line? {
      var out := stdout + trace[0].text;
      if run.parsePartial(out).Done? {
        YieldedShape(run, out, trace[1..]);
      }
    }
  }

  /** Whole-output text after reading `lines`. */
  function Concat(lines: seq<string>): string
  {
    if lines == [] then "" else Concat(lines[..|lines| - 1]) + lines[|lines| - 1]
  }

  function Lines(texts: seq<string>): (r: seq<Read>)
    ensures |r| == |texts| && forall i :: 0 <= i < |r| ==> r[i] == Line(texts[i])
  {
    seq(|texts|, i requires 0 <= i < |texts| => Line(texts[i]))
  }

  /** The partial results of a run: every non-empty successful parse of the output so
      far. */
  function Partials(run: ToolRun, stdout: string, texts: seq<string>): seq<ToolResult>
    decreases |texts|
  {
    if texts == [] then []
    else
      var out := stdout + texts[0];
      var p := run.parsePartial(out);
      (if p.Done? && WorthYielding(p.value) then [p.value] else []) + Partials(run, out, texts[1..])
  }

  /** A run that reads lines and then stops with a read timeout yields its partial
      results and then exactly one timeout failure, without parsing the whole output. */
  lemma {:induction false} TimeoutEndsTheRun(run: ToolRun, stdout: string, texts: seq<string>, rest: seq<Read>)
    requires forall o :: run.parsePartial(o).Done?
    ensures Yielded(run, stdout, Lines(texts) + [ReadTimeout] + rest)
            == Partials(run, stdout, texts) + [Failure(run.config, "Timeout after " + Strings.IntToString(run.config.timeout) + "s")]
    decreases |texts|
  {
    var trace := Lines(texts) + [ReadTimeout] + rest;
    if texts == [] {
      assert trace[0] == ReadTimeout;
    } else {
      assert trace[0] == Line(texts[0]);
      assert trace[1..] == Lines(texts[1..]) + [ReadTimeout] + rest;
      TimeoutEndsTheRun(run, stdout + texts[0], texts[1..], rest);
    }
  }

  /** A run whose reading raises after some lines yields its partial results and then
      exactly one failure carrying the exception's message. */
  lemma {:induction false} RaiseEndsTheRun(run: ToolRun, stdout: string, texts: seq<string>, message: string, rest: seq<Read>)
    requires forall o :: run.parsePartial(o).Done?
    ensures Yielded(run, stdout, Lines(texts) + [Raise(message)] + rest)
            == Partials(run, stdout, texts) + [Failure(run.config, message)]
    decreases |texts|
  {
    var trace := Lines(texts) + [Raise(message)] + rest;
    if texts == [] {
      assert trace[0] == Raise(message);
    } else {
      assert trace[0] == Line(texts[0]);
      assert trace[1..] == Lines(texts[1..]) + [Raise(message)] + rest;
      RaiseEndsTheRun(run, stdout + texts[0], texts[1..], message, rest);
    }
  }

  lemma {:induction false} ConcatCons(texts: seq<string>)
    requires texts != []
    ensures Concat(texts) == texts[0] + Concat(texts[1..])
    decreases |texts|
  {
    if |texts| == 1 {
      assert texts[1..] == [];
      assert texts[..0] == [];
    } else {
      var pre := texts[..|texts| - 1];
      ConcatCons(pre);
      assert pre[1..] == texts[1..][..|texts[1..]| - 1];
      assert pre[0] == texts[0];
    }
  }

  /** A run that reads only lines ends with the parse of all of them concatenated. */
  lemma {:induction false} CompleteRunEndsWithFullParse(run: ToolRun, stdout: string, texts: seq<string>)
    requires forall o :: run.parsePartial(o).Done?
    ensures Yielded(run, stdout, Lines(texts))
            == Partials(run, stdout, texts) + [FinalResult(run, run.parseOutput(stdout + Concat(texts)))]
    decreases |texts|
  {
    if texts == [] {
      assert stdout + Concat(texts) == stdout;
    } else {
      assert Lines(texts)[1..] == Lines(texts[1..]);
      CompleteRunEndsWithFullParse(run, stdout + texts[0], texts[1..]);
      ConcatCons(texts);
      assert stdout + texts[0] + Concat(texts[1..]) == stdout + Concat(texts);
    }
  }

  /** The error of the final result is replaced by stderr exactly when the exit code is
      non-zero and the parse did not succeed; otherwise the parse is yielded as is. */
  lemma FinalResultError(run: ToolRun, r: ToolResult)
    ensures run.exitCode != 0 && !r.success ==> FinalResult(run, Done(r)) == r.(error := Some(run.stderr))
    ensures run.exitCode == 0 || r.success ==> FinalResult(run, Done(r)) == r
  {
  }
}
