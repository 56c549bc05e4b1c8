/** The records of a reconnaissance scan: tasks, findings, assets and the scan session
    that collects them. Ids (uuid4) are left out; timestamps are opaque integers. */
module Models {
  import opened Outcomes
  import opened Json
  import Seqs

  datatype TaskStatus = Pending | Running | Completed | Failed | Skipped
  {
    function Value(): string
    {
      match this
      case Pending => "pending"
      case Running => "running"
      case Completed => "completed"
      case Failed => "failed"
      case Skipped => "skipped"
    }
  }

  datatype Severity = Critical | High | Medium | Low | Info
  {
    function Value(): string
    {
      match this
      case Critical => "critical"
      case High => "high"
      case Medium => "medium"
      case Low => "low"
      case Info => "info"
    }

    /** Terminal colour of the severity. */
    function Color(): string
    {
      match this
      case Critical => "bright_red"
      case High => "red"
      case Medium => "yellow"
      case Low => "blue"
      case Info => "cyan"
    }

    /** Coloured-circle icon of the severity. */
    function Icon(): string
    {
      match this
      case Critical => "\U{1F534}"
      case High => "\U{1F7E0}"
      case Medium => "\U{1F7E1}"
      case Low => "\U{1F535}"
      case Info => "\U{26AA}"
    }
  }

  const AllSeverities: seq<Severity> := [Critical, High, Medium, Low, Info]

  /** Colour and icon tell the five severities apart. */
  lemma SeverityPresentationDistinct(a: Severity, b: Severity)
    ensures a != b ==> a.Color() != b.Color() && a.Icon() != b.Icon() && a.Value() != b.Value()
  {
    if a != b {
      match a
      case Critical => assert a.Color()[0] == 'b' && a.Color()[1] == 'r';
      case High => assert a.Color()[0] == 'r';
      case Medium => assert a.Color()[0] == 'y';
      case Low => assert a.Color()[0] == 'b' && a.Color()[1] == 'l';
      case Info => assert a.Color()[0] == 'c';
    }
  }

  /** A reconnaissance task: running tool `name` against `metadata["target"]`. The
      source never reassigns name, description or metadata after construction. */
  class Task {
    const name: string
    const description: string
    const metadata: map<string, string>
    var status: TaskStatus
    var progress: int
    var startedAt: Option<int>
    var completedAt: Option<int>
    var error: Option<string>

    /** A new task is pending, at progress 0, never started or completed, and without
        error. */
    constructor (name: string, description: string, metadata: map<string, string>)
      ensures this.name == name && this.description == description && this.metadata == metadata
      ensures status == Pending && progress == 0
      ensures startedAt == None && completedAt == None && error == None
    {
      this.name := name;
      this.description := description;
      this.metadata := metadata;
      status := Pending;
      progress := 0;
      startedAt := None;
      completedAt := None;
      error := None;
    }
  }

  datatype Finding = Finding(
    severity: Severity,
    title: string,
    host: string,
    description: string,
    discoveredBy: string,
    evidence: Option<string> := None,
    recommendations: seq<string> := [],
    metadata: map<string, Json> := map[])

  /** A discovered asset. `assetType` is the source's `type` field. A new asset has
      score 0 until the orchestrator scores it. */
  datatype Asset = Asset(
    assetType: string,
    value: string,
    discoveredBy: string,
    metadata: map<string, Json> := map[],
    score: int := 0)

  datatype ScanSession = ScanSession(
    target: string,
    startedAt: int,
    completedAt: Option<int>,
    tasks: seq<Task>,
    findings: seq<Finding>,
    assets: seq<Asset>)
  {
    /** Number of critical findings. */
    function CriticalCount(): (n: nat)
      ensures n <= |findings|
    {
      Seqs.CountIsFilterLength(findings, IsCritical);
      Seqs.Count(findings, IsCritical)
    }

    /** Number of high-severity findings. */
    function HighCount(): (n: nat)
      ensures n <= |findings|
    {
      Seqs.CountIsFilterLength(findings, IsHigh);
      Seqs.Count(findings, IsHigh)
    }
  }

  predicate IsCritical(f: Finding) { f.severity == Critical }

  predicate IsHigh(f: Finding) { f.severity == High }

  /** A session as the orchestrator creates it: no tasks, findings or assets, and not
      completed. */
  function NewSession(target: string, now: int): (s: ScanSession)
    ensures s.target == target && s.startedAt == now && s.completedAt == None
    ensures s.tasks == [] && s.findings == [] && s.assets == []
    ensures s.CriticalCount() == 0 && s.HighCount() == 0
  {
    ScanSession(target, now, None, [], [], [])
  }

  /** The counters see exactly the severity of each new finding. */
  lemma CountsAfterFinding(s: ScanSession, f: Finding)
    ensures s.(findings := s.findings + [f]).CriticalCount()
            == s.CriticalCount() + (if f.severity == Critical then 1 else 0)
    ensures s.(findings := s.findings + [f]).HighCount()
            == s.HighCount() + (if f.severity == High then 1 else 0)
  {
    assert (s.findings + [f])[..|s.findings|] == s.findings;
  }

  /** No finding is counted as both critical and high. */
  lemma {:induction false} CountsDisjoint(findings: seq<Finding>)
    ensures Seqs.Count(findings, IsCritical) + Seqs.Count(findings, IsHigh) <= |findings|
  {
    if findings != [] {
      CountsDisjoint(findings[..|findings| - 1]);
    }
  }
}
