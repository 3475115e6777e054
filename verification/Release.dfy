/**
 * The release boundary as a state machine: builders, verifiers, promoters and the supervisor
 * share a repository, receipts, status files, promotion locks and one temporary result file.
 * Every action is one shell-level step, so any other process may act between two of them.
 */
module Release {
  import opened Values

  type RunId = string
  type IdeaId = string
  type Content = string
  type Pid = nat
  type Commit = nat

  /** sha256 as an injective function; a missing suite directory hashes to a fixed value. */
  datatype Digest = Sha256(content: Content) | NoFiles

  // ------------------------------------------------------------------ commits

  /** Commit i's parents are earlier commits. */
  type Dag = seq<set<Commit>>

  ghost predicate DagValid(dag: Dag) {
    forall i, p :: 0 <= i < |dag| && p in dag[i] ==> p < i
  }

  /** `git merge-base --is-ancestor`: a commit is its own ancestor. */
  predicate Ancestor(dag: Dag, a: Commit, b: Commit)
    decreases b
  {
    a == b || (b < |dag| && exists p :: p in dag[b] && p < b && Ancestor(dag, a, p))
  }

  // ------------------------------------------------------------------ gates and receipts

  datatype Gate = Yes | No | Unknown | NotApplicable
  datatype Gates = Gates(contract: Gate, acceptance: Gate, shape: Gate, implementation: Gate, tests: Gate)
  datatype Result = PASS | FAIL | ERROR

  /** What running the checks gave; `ownExit` is None when the candidate has no tests directory. */
  datatype Checks = Checks(acceptanceExit: int, ownExit: Option<int>, shapeOk: bool, sources: nat)

  predicate TestsRequired(artifactType: string) {
    artifactType != "web" && artifactType != "static-site" && artifactType != "webapp"
  }

  function GateOf(b: bool): Gate { if b then Yes else No }

  function GatesOf(artifactType: string, c: Checks): Gates {
    Gates(Yes, GateOf(c.acceptanceExit == 0), GateOf(c.shapeOk), GateOf(c.sources >= 1),
          if !TestsRequired(artifactType) then NotApplicable
          else if c.ownExit.None? then Unknown
          else GateOf(c.ownExit.value == 0))
  }

  function Listed(g: Gates): seq<Gate> { [g.contract, g.acceptance, g.shape, g.implementation, g.tests] }

  function Verdict(g: Gates): Result {
    if No in Listed(g) then FAIL
    else if Unknown in Listed(g) then ERROR
    else PASS
  }

  datatype Receipt =
    | Full(run: RunId, result: Result, gates: Gates, candidate: Commit, base: Commit, spec: Digest, acceptance: Digest)
    | Failed(run: RunId)

  // ------------------------------------------------------------------ processes

  /** run.json, never rewritten once the run exists. */
  datatype Run = Run(idea: IdeaId, artifactType: string, base: Commit, spec: Digest)

  datatype Status = RUNNING | VERIFIED | REJECTED | ERRORED | PROMOTED | PROMOTION_FAILED

  datatype VerifierAt = AtClone | AtDigest | AtCopy | AtJudge | AtReceipt | AtTmp | AtRead | AtClear | AtValidate
                      | Exited(code: nat)

  datatype Verifier = Verifier(run: RunId, at: VerifierAt, json: Run, candidate: Commit, digest: Digest,
                               copied: Option<Content>, checks: Checks, result: Result)

  datatype PromoterAt = AtLock | AtReceiptRead | AtHead | AtAncestry | AtSpec | AtSuite | AtMerge
                      | AtRecord(status: Status) | AtRelease(code: nat) | Left(code: nat)

  /** `specSeen` and `suiteSeen` are the digests the promoter recomputed from the live files. */
  datatype Promoter = Promoter(run: RunId, at: PromoterAt, receipt: Receipt, specSeen: Digest, suiteSeen: Digest)

  datatype Supervisor = Idle | Verifying(run: RunId, child: Pid) | Approved(run: RunId) | Promoting(run: RunId, child: Pid)

  // ------------------------------------------------------------------ history

  /** One judged candidate: `digest` is what the receipt records, `copied` what the tests ran on. */
  datatype Verification = Verification(run: RunId, candidate: Commit, digest: Digest, copied: Option<Content>,
                                       artifactType: string, checks: Checks)

  /** One successful `git merge` of a promoter. */
  datatype Merge = Merge(run: RunId, candidate: Commit, spec: Digest, suite: Digest, advanced: bool)

  datatype State = State(
    dag: Dag,
    head: Commit,
    branches: map<RunId, Commit>,
    runs: map<RunId, Run>,
    specs: map<RunId, Content>,
    suites: map<IdeaId, Content>,
    receipts: map<RunId, Receipt>,
    status: map<RunId, seq<Status>>,
    locks: set<RunId>,
    tmp: Option<Result>,
    verifiers: map<Pid, Verifier>,
    promoters: map<Pid, Promoter>,
    supervisor: Supervisor,
    verifications: set<Verification>,
    merges: seq<Merge>)

  const START: State :=
    State([{}], 0, map[], map[], map[], map[], map[], map[], {}, None, map[], map[], Idle, {}, [])

  // ------------------------------------------------------------------ actions

  /** Builders, file writers, other committers, and whoever starts a script by hand. */
  datatype EnvironmentAction =
    | CreateRun(run: RunId, idea: IdeaId, artifactType: string, spec: Content)
    | BuilderCommit(run: RunId)
    | MoveBranch(run: RunId, to: Option<Commit>)
    | WriteSpec(run: RunId, file: Option<Content>)
    | WriteSuite(idea: IdeaId, suite: Option<Content>)
    | CommitOnMain
    | StartVerifier(pid: Pid, run: RunId)
    | StartPromoter(pid: Pid, run: RunId)

  datatype VerifierAction =
    | Clone | DigestSuite | CopySuite | Judge(checks: Checks) | WriteReceipt
    | WriteTmp | ReadTmp | ClearTmp | Validate | KillVerifier

  datatype PromoterAction =
    | TakeLock | ReadReceipt | CheckHead | CheckAncestry | CheckSpec | CheckSuite
    | MergeExact(conflict: bool) | RecordStatus | ReleaseLock | KillPromoter(unlocks: bool)

  datatype SupervisorAction =
    | Supervise(pid: Pid, run: RunId) | RecordVerdict | LaunchPromoter(pid: Pid) | FinishPromotion | KillSupervisor

  datatype Action =
    | Environment(env: EnvironmentAction)
    | Verify(vid: Pid, step: VerifierAction)
    | Promote(pid: Pid, move: PromoterAction)
    | Supervision(sup: SupervisorAction)

  function SuiteDigest(s: State, idea: IdeaId): Digest {
    if idea in s.suites then Sha256(s.suites[idea]) else NoFiles
  }

  function Last(h: seq<Status>): Option<Status> { if h == [] then None else Some(h[|h| - 1]) }

  function History(s: State, run: RunId): seq<Status> { if run in s.status then s.status[run] else [] }

  function Append(s: State, run: RunId, x: Status): map<RunId, seq<Status>> { s.status[run := History(s, run) + [x]] }

  /** An id is not reused while its process lives or the supervisor still waits for it. */
  predicate Fresh(s: State, pid: Pid) {
    && pid !in s.verifiers && pid !in s.promoters
    && !((s.supervisor.Verifying? || s.supervisor.Promoting?) && s.supervisor.child == pid)
  }

  /** The checks a promoter makes before it asks for the lock. */
  predicate MayPromote(s: State, run: RunId) {
    run in s.receipts && run in s.runs && Last(History(s, run)) != Some(PROMOTED)
  }

  // ------------------------------------------------------------------ environment

  predicate EnvironmentEnabled(s: State, a: EnvironmentAction) {
    match a
    case CreateRun(run, _, _, _) => run !in s.runs
    case BuilderCommit(run) => run in s.branches
    case MoveBranch(run, to) => run in s.runs && (to.Some? ==> to.value < |s.dag|)
    case WriteSpec(run, _) => run in s.runs
    case WriteSuite(_, _) => true
    case CommitOnMain => true
    case StartVerifier(pid, run) => Fresh(s, pid) && run in s.runs
    case StartPromoter(pid, run) => Fresh(s, pid) && MayPromote(s, run)
  }

  function NewVerifier(s: State, run: RunId): Verifier
    requires run in s.runs
  {
    Verifier(run, AtClone, s.runs[run], 0, NoFiles, None, Checks(1, None, false, 0), ERROR)
  }

  function NewPromoter(run: RunId): Promoter { Promoter(run, AtLock, Failed(run), NoFiles, NoFiles) }

  function EnvironmentStep(s: State, a: EnvironmentAction): (t: State)
    requires EnvironmentEnabled(s, a)
    ensures t.receipts == s.receipts && t.locks == s.locks && t.tmp == s.tmp && t.supervisor == s.supervisor
    ensures t.verifications == s.verifications && t.merges == s.merges
    ensures a.StartVerifier? || t.verifiers == s.verifiers
    ensures a.StartPromoter? || t.promoters == s.promoters
    ensures a.CreateRun? || (t.runs == s.runs && t.status == s.status)
    ensures a.CommitOnMain? || t.head == s.head
  {
    match a
    case CreateRun(run, idea, artifactType, spec) =>
      s.(runs := s.runs[run := Run(idea, artifactType, s.head, Sha256(spec))],
         specs := s.specs[run := spec],
         branches := s.branches[run := s.head],
         status := s.status[run := [RUNNING]])
    case BuilderCommit(run) =>
      s.(dag := s.dag + [{s.branches[run]}], branches := s.branches[run := |s.dag|])
    case MoveBranch(run, to) =>
      s.(branches := if to.Some? then s.branches[run := to.value] else s.branches - {run})
    case WriteSpec(run, file) => s.(specs := if file.Some? then s.specs[run := file.value] else s.specs - {run})
    case WriteSuite(idea, suite) => s.(suites := if suite.Some? then s.suites[idea := suite.value] else s.suites - {idea})
    case CommitOnMain => s.(dag := s.dag + [{s.head}], head := |s.dag|)
    case StartVerifier(pid, run) => s.(verifiers := s.verifiers[pid := NewVerifier(s, run)])
    case StartPromoter(pid, run) => s.(promoters := s.promoters[pid := NewPromoter(run)])
  }

  // ------------------------------------------------------------------ verifier

  function Awaited(a: VerifierAction): VerifierAt
    requires !a.KillVerifier?
  {
    match a
    case Clone => AtClone
    case DigestSuite => AtDigest
    case CopySuite => AtCopy
    case Judge(_) => AtJudge
    case WriteReceipt => AtReceipt
    case WriteTmp => AtTmp
    case ReadTmp => AtRead
    case ClearTmp => AtClear
    case Validate => AtValidate
  }

  predicate VerifierEnabled(s: State, pid: Pid, a: VerifierAction) {
    pid in s.verifiers && (a.KillVerifier? || s.verifiers[pid].at == Awaited(a))
  }

  function ReceiptOf(v: Verifier): Receipt {
    var gates := GatesOf(v.json.artifactType, v.checks);
    Full(v.run, Verdict(gates), gates, v.candidate, v.json.base, v.json.spec, v.digest)
  }

  function VerificationOf(v: Verifier): Verification {
    Verification(v.run, v.candidate, v.digest, v.copied, v.json.artifactType, v.checks)
  }

  /** `fail_err` after the clone failed or the written receipt did not stand up. */
  predicate Fails(s: State, v: Verifier, a: VerifierAction) {
    || (a.Clone? && (v.run !in s.branches || v.json.idea !in s.suites))
    || (a.Validate? && !(v.run in s.receipts && s.receipts[v.run].Full? && s.receipts[v.run].result == v.result))
  }

  function MovedVerifier(s: State, v: Verifier, a: VerifierAction): Verifier {
    if Fails(s, v, a) then v.(at := Exited(3))
    else
      match a
      case Clone => v.(at := AtDigest, candidate := if v.run in s.branches then s.branches[v.run] else v.candidate)
      case DigestSuite => v.(at := AtCopy, digest := SuiteDigest(s, v.json.idea))
      case CopySuite =>
        v.(at := AtJudge, copied := if v.json.idea in s.suites then Some(s.suites[v.json.idea]) else None)
      case Judge(checks) => v.(at := AtReceipt, checks := checks)
      case WriteReceipt => v.(at := AtTmp)
      case WriteTmp => v.(at := AtRead)
      case ReadTmp => v.(at := AtClear, result := if s.tmp.Some? then s.tmp.value else ERROR)
      case ClearTmp => v.(at := AtValidate)
      case Validate => v.(at := Exited(if v.result == PASS then 0 else 1))
      case KillVerifier => v
  }

  /** A failing verifier replaces whatever receipt was there by an ERROR receipt. */
  function ReceiptsAfter(s: State, v: Verifier, a: VerifierAction): map<RunId, Receipt> {
    if Fails(s, v, a) then s.receipts[v.run := Failed(v.run)]
    else if a.WriteReceipt? then s.receipts[v.run := ReceiptOf(v)]
    else s.receipts
  }

  function VerifierStep(s: State, pid: Pid, a: VerifierAction): State
    requires VerifierEnabled(s, pid, a)
  {
    var v := s.verifiers[pid];
    s.(verifiers := if a.KillVerifier? then s.verifiers - {pid} else s.verifiers[pid := MovedVerifier(s, v, a)],
       receipts := ReceiptsAfter(s, v, a),
       verifications := if a.WriteReceipt? then s.verifications + {VerificationOf(v)} else s.verifications,
       tmp := if a.WriteTmp? then Some(ReceiptOf(v).result) else if a.ClearTmp? then None else s.tmp)
  }

  // ------------------------------------------------------------------ promoter

  predicate PromoterEnabled(s: State, pid: Pid, a: PromoterAction) {
    pid in s.promoters &&
    match a
    case TakeLock => s.promoters[pid].at == AtLock
    case ReadReceipt => s.promoters[pid].at == AtReceiptRead
    case CheckHead => s.promoters[pid].at == AtHead
    case CheckAncestry => s.promoters[pid].at == AtAncestry
    case CheckSpec => s.promoters[pid].at == AtSpec
    case CheckSuite => s.promoters[pid].at == AtSuite
    case MergeExact(_) => s.promoters[pid].at == AtMerge
    case RecordStatus => s.promoters[pid].at.AtRecord?
    case ReleaseLock => s.promoters[pid].at.AtRelease?
    case KillPromoter(_) => true
  }

  /** Between a successful mkdir and the exit trap. */
  predicate HoldsLock(p: Promoter) { !p.at.AtLock? && !p.at.Left? }

  /** Past the lock a check either lets the promoter go on or sends it to release its lock with code 1. */
  function Checked(p: Promoter, ok: bool, next: PromoterAt): Promoter { p.(at := if ok then next else AtRelease(1)) }

  /** Where the promoter stands after a step that does not end it. */
  function MovedPromoter(s: State, p: Promoter, a: PromoterAction): Promoter
    requires p.at.AtRelease? || !a.ReleaseLock?
    requires p.at.AtRecord? || !a.RecordStatus?
  {
    match a
    case TakeLock => p.(at := if p.run in s.locks then Left(1) else AtReceiptRead)
    case ReadReceipt =>
      if p.run !in s.receipts then p.(at := AtRelease(3))
      else
        var r := s.receipts[p.run];
        Checked(p.(receipt := r), r.Full? && r.run == p.run && r.result == PASS, AtHead)
    case CheckHead =>
      Checked(p, p.receipt.Full? && p.run in s.branches && s.branches[p.run] == p.receipt.candidate, AtAncestry)
    case CheckAncestry =>
      Checked(p, p.receipt.Full? && Ancestor(s.dag, p.receipt.base, p.receipt.candidate), AtSpec)
    case CheckSpec =>
      var seen := if p.run in s.specs then Sha256(s.specs[p.run]) else NoFiles;
      Checked(p.(specSeen := seen), p.receipt.Full? && p.run in s.specs && seen == p.receipt.spec, AtSuite)
    case CheckSuite =>
      var seen := if p.run in s.runs then SuiteDigest(s, s.runs[p.run].idea) else NoFiles;
      Checked(p.(suiteSeen := seen), p.receipt.Full? && p.run in s.runs && seen == p.receipt.acceptance, AtMerge)
    case MergeExact(conflict) =>
      if !p.receipt.Full? then p.(at := AtRelease(1))
      else p.(at := AtRecord(if conflict then PROMOTION_FAILED else PROMOTED))
    case RecordStatus => p.(at := AtRelease(if p.at.status == PROMOTED then 0 else 3))
    case ReleaseLock => p.(at := Left(p.at.code))
    case KillPromoter(_) => p
  }

  predicate Merges(s: State, p: Promoter, a: PromoterAction) {
    a.MergeExact? && !a.conflict && p.receipt.Full?
  }

  /** `git merge --no-ff` of the exact commit moves nothing if the commit is already on main. */
  predicate Advances(s: State, p: Promoter, a: PromoterAction) {
    Merges(s, p, a) && !Ancestor(s.dag, p.receipt.candidate, s.head)
  }

  function MergesAfter(s: State, p: Promoter, a: PromoterAction): seq<Merge> {
    if Merges(s, p, a)
    then s.merges + [Merge(p.run, p.receipt.candidate, p.specSeen, p.suiteSeen, Advances(s, p, a))]
    else s.merges
  }

  function LocksAfter(s: State, p: Promoter, a: PromoterAction): set<RunId> {
    if a.TakeLock? then s.locks + {p.run}
    else if a.ReleaseLock? || (a.KillPromoter? && a.unlocks && HoldsLock(p)) then s.locks - {p.run}
    else s.locks
  }

  function PromoterStep(s: State, pid: Pid, a: PromoterAction): State
    requires PromoterEnabled(s, pid, a)
  {
    var p := s.promoters[pid];
    s.(promoters := if a.KillPromoter? then s.promoters - {pid} else s.promoters[pid := MovedPromoter(s, p, a)],
       dag := if Advances(s, p, a) then s.dag + [{s.head, p.receipt.candidate}] else s.dag,
       head := if Advances(s, p, a) then |s.dag| else s.head,
       merges := MergesAfter(s, p, a),
       locks := LocksAfter(s, p, a),
       status := if a.RecordStatus? then Append(s, p.run, p.at.status) else s.status)
  }

  // ------------------------------------------------------------------ supervisor

  /** Exit 0 is VERIFIED; 1, or no code at all because the child was killed, is REJECTED; the rest is ERROR. */
  function VerdictStatus(s: State, child: Pid): Status {
    if child !in s.verifiers then REJECTED
    else if s.verifiers[child].at == Exited(0) then VERIFIED
    else if s.verifiers[child].at == Exited(1) then REJECTED
    else ERRORED
  }

  predicate SupervisorEnabled(s: State, a: SupervisorAction) {
    match a
    case Supervise(pid, run) =>
      && s.supervisor.Idle? && Fresh(s, pid) && run in s.runs && run in s.branches
      && Last(History(s, run)) in {None, Some(RUNNING)} && s.branches[run] != s.runs[run].base
    case RecordVerdict =>
      && s.supervisor.Verifying?
      && (s.supervisor.child in s.verifiers ==> s.verifiers[s.supervisor.child].at.Exited?)
    case LaunchPromoter(pid) => s.supervisor.Approved? && Fresh(s, pid)
    case FinishPromotion =>
      && s.supervisor.Promoting?
      && (s.supervisor.child in s.promoters ==> s.promoters[s.supervisor.child].at.Left?)
    case KillSupervisor => true
  }

  function SupervisorStep(s: State, a: SupervisorAction): (t: State)
    requires SupervisorEnabled(s, a)
    ensures t.dag == s.dag && t.head == s.head && t.branches == s.branches && t.runs == s.runs && t.specs == s.specs
    ensures t.suites == s.suites && t.receipts == s.receipts && t.locks == s.locks && t.tmp == s.tmp
    ensures t.verifications == s.verifications && t.merges == s.merges
    ensures a.Supervise? || t.verifiers == s.verifiers
    ensures a.LaunchPromoter? || t.promoters == s.promoters
    ensures a.RecordVerdict? || t.status == s.status
  {
    match a
    case Supervise(pid, run) =>
      s.(verifiers := s.verifiers[pid := NewVerifier(s, run)], supervisor := Verifying(run, pid))
    case RecordVerdict =>
      var run := s.supervisor.run;
      var x := VerdictStatus(s, s.supervisor.child);
      s.(status := Append(s, run, x), supervisor := if x == VERIFIED then Approved(run) else Idle)
    case LaunchPromoter(pid) =>
      var run := s.supervisor.run;
      if MayPromote(s, run)
      then s.(promoters := s.promoters[pid := NewPromoter(run)], supervisor := Promoting(run, pid))
      else s.(supervisor := Idle)
    case FinishPromotion => s.(supervisor := Idle)
    case KillSupervisor => s.(supervisor := Idle)
  }

  // ------------------------------------------------------------------ all together

  predicate Enabled(s: State, a: Action) {
    match a
    case Environment(e) => EnvironmentEnabled(s, e)
    case Verify(pid, v) => VerifierEnabled(s, pid, v)
    case Promote(pid, p) => PromoterEnabled(s, pid, p)
    case Supervision(x) => SupervisorEnabled(s, x)
  }

  function Do(s: State, a: Action): State
    requires Enabled(s, a)
  {
    match a
    case Environment(e) => EnvironmentStep(s, e)
    case Verify(pid, v) => VerifierStep(s, pid, v)
    case Promote(pid, p) => PromoterStep(s, pid, p)
    case Supervision(x) => SupervisorStep(s, x)
  }
}
