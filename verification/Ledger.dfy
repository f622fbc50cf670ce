/** The controller's five tables and what each request does to them in one transaction. */
module Ledger {
  import opened Common
  import opened HashChain
  import opened Text
  import opened Protocol

  datatype Row = Row(objective: string, state: RunState, iteration: nat, maxIterations: int, policy: Policy,
                     createdAt: int, updatedAt: int, version: nat)

  datatype Lease = Lease(worker: string, token: string, expiresAt: int, createdAt: int)

  datatype Claim = Claim(run: string, worker: string, instruction: Instruction, token: string, expiresAt: int)

  /** What the request hash covers: the operation's name and its arguments. */
  datatype Request =
    | CreateRun(objective: string, maxIterations: int)
    | SubmitInstruction(instruction: Instruction)
    | ClaimTurn(worker: string, seconds: int)
    | SubmitResult(worker: string, token: string, result: ExecutionResult)
    | ReportProgress(worker: string, token: string, message: string)
    | ReportBlocker(worker: string, token: string, reason: string)
    | RequestHuman(reason: string)
    | PauseRun(reason: string)
    | ResumeRun
    | StopRun(reason: string)
    | FailRun(reason: string)
    | CompleteRun(rationale: string)

  /** The stored response of an operation. */
  datatype Response = Created(run: string) | Reached(state: RunState) | Granted(claim: Claim)

  datatype Operation = Operation(request: Request, response: Response, at: int)

  datatype Artifact = Artifact(run: string, kind: string, content: string, at: int)

  /** The tables. `eventIds` is the primary key of the event table. */
  datatype Store = Store(
    runs: map<string, Row>,
    events: map<string, seq<Event>>,
    eventIds: set<string>,
    leases: map<string, Lease>,
    operations: map<(string, string), Operation>,
    artifacts: map<string, Artifact>)

  datatype Error =
    | BadInput | NotFound | Conflict | DuplicateDelivery | BeyondPolicy | BadLease | IllegalMove | Corrupt | Collision

  /** A fault of the reducer reaches the caller as the exception of its class. */
  function Raised(f: Fault): Error {
    match f
    case Validation => BadInput
    case Illegal => IllegalMove
    case Integrity => Corrupt
  }

  /** What a call gets from its surroundings: one clock reading and fresh identifiers. `replays` gives the ids
      its replays mint for handoffs without one: 0 is the replay that opens the transaction, 1 the one after
      its last event, 2 the one after an event before. */
  datatype Env = Env(now: int, mint: nat -> Uuid, replays: nat -> nat -> Uuid)

  const CREATE_SCOPE := "__create_run__"

  function Log(st: Store, run: string): seq<Event> {
    if run in st.events then st.events[run] else []
  }

  function LeaseOf(st: Store, run: string): Option<Lease> {
    if run in st.leases then Some(st.leases[run]) else None
  }

  predicate LiveToken(leases: map<string, Lease>, token: string) {
    exists r :: r in leases && leases[r].token == token
  }

  // ---- scripts: what a request does to one run ----

  /** A sequence of table writes ending in a refusal or in success, for a claim with what it granted. */
  datatype Script =
    | Finish(grant: Option<Claim>)
    | Refuse(error: Error)
    | Append(payload: Payload, actor: Actor, key: string, next: Script)
    | Drop(next: Script)
    | Take(lease: Lease, next: Script)

  function Raw(log: seq<Event>, i: nat): Option<string>
    requires i < |log|
  {
    var p := log[i].content.payload;
    if p.InstructionSubmitted? then Some(p.instruction.id) else None
  }

  /** Has this handoff id been used in the run? The comparison is with the id as recorded. */
  predicate IdUsed(log: seq<Event>, id: string) {
    exists i :: 0 <= i < |log| && Raw(log, i) == Some(id)
  }

  predicate Expired(lease: Lease, now: int) {
    lease.expiresAt <= now
  }

  predicate Holds(lease: Option<Lease>, worker: string, token: string, now: int) {
    lease.Some? && lease.value.worker == worker && lease.value.token == token && !Expired(lease.value, now)
  }

  /** Review starts on its own when a result is waiting. */
  function Reviewed(s: Snapshot, key: string, next: Script): Script {
    if s.state.CodexComplete? then Append(ReviewStarted, Planner, key + ":review", next) else next
  }

  predicate Reviewable(s: Snapshot) {
    s.state.CodexComplete? || s.state.Reviewing?
  }

  function InstructScript(s: Snapshot, log: seq<Event>, i: Instruction, key: string): Script {
    if IdUsed(log, i.id) then Refuse(Conflict) else Reviewed(s, key, InstructNext(s, i, key))
  }

  function InstructNext(s: Snapshot, i: Instruction, key: string): Script {
    if !s.state.Planning? && !Reviewable(s) then Refuse(IllegalMove)
    else if s.iteration >= s.maxIterations then
      Append(Failed("iteration limit reached"), System, key + ":limit", Finish(None))
    else Append(InstructionSubmitted(i), Planner, key, Finish(None))
  }

  /** Give an expired turn back, then go on with `next`. */
  function RecoverScript(s: Snapshot, lease: Option<Lease>, tag: string, now: int, next: Script): Script {
    if !s.state.CodexRunning? then next
    else if lease.None? then Refuse(Corrupt)
    else if Expired(lease.value, now) then Drop(Append(LeaseExpired, System, "lease-expired:" + tag, next))
    else next
  }

  predicate Recoverable(s: Snapshot, lease: Option<Lease>, now: int) {
    s.state.CodexRunning? && lease.Some? && Expired(lease.value, now)
  }

  /** The handoff as a claim hands it out: under the id minted by the replay the claim is made from. */
  function HandedOut(s: Snapshot, log: seq<Event>, free: bool, env: Env): Option<Instruction> {
    NamedOption(s.instruction, MintedIn(log, env.replays(if free then 2 else 0)))
  }

  function ClaimScript(s: Snapshot, log: seq<Event>, lease: Option<Lease>, run: string, worker: string, seconds: int,
                       key: string, env: Env): Script {
    var free := Recoverable(s, lease, env.now);
    RecoverScript(s, lease, env.mint(4), env.now,
                  ClaimNext(s.state.ReadyForCodex? || free, HandedOut(s, log, free, env), lease.Some? && !free,
                            run, worker, seconds, key, env))
  }

  function ClaimNext(ready: bool, i: Option<Instruction>, held: bool, run: string, worker: string, seconds: int,
                     key: string, env: Env): Script {
    if !ready || i.None? || held then Refuse(Conflict) else GrantScript(i.value, run, worker, seconds, key, env)
  }

  function GrantScript(i: Instruction, run: string, worker: string, seconds: int, key: string, env: Env): Script {
    var expires := env.now + seconds * 1000000;
    Take(Lease(worker, env.mint(1), expires, env.now),
      Append(TurnClaimed(worker, expires), Worker, key, Finish(Some(Claim(run, worker, i, env.mint(1), expires)))))
  }

  function ResultScript(s: Snapshot, lease: Option<Lease>, worker: string, token: string, result: ExecutionResult,
                        key: string, now: int): Script {
    if !s.state.CodexRunning? then Refuse(IllegalMove)
    else if !Holds(lease, worker, token, now) then Refuse(BadLease)
    else Drop(Append(ResultSubmitted(result), Worker, key, Finish(None)))
  }

  function HumanScript(s: Snapshot, reason: string, key: string): Script {
    Reviewed(s, key, HumanNext(s, reason, key))
  }

  function HumanNext(s: Snapshot, reason: string, key: string): Script {
    var ask := Append(HumanRequested(reason), Planner, key, Finish(None));
    if s.state.CodexRunning? then Drop(ask) else if Reviewable(s) then ask else Refuse(IllegalMove)
  }

  function PauseScript(s: Snapshot, reason: string, key: string): Script {
    var pause := Append(Paused(reason, Some(Safe(s.state))), Control, key, Finish(None));
    if s.state.Terminal() || s.state.PausedState? then Refuse(IllegalMove)
    else if s.state.CodexRunning? then Drop(pause) else pause
  }

  function CompleteScript(s: Snapshot, rationale: string, key: string): Script {
    Reviewed(s, key, CompleteNext(s, rationale, key))
  }

  function CompleteNext(s: Snapshot, rationale: string, key: string): Script {
    if !Reviewable(s) then Refuse(IllegalMove)
    else if s.lastResult.None? || s.lastResult.value.evidence == [] then Refuse(BeyondPolicy)
    else Append(Completed(rationale), Planner, key, Finish(None))
  }

  function ScriptFor(s: Snapshot, log: seq<Event>, lease: Option<Lease>, run: string, request: Request, key: string,
                     env: Env): Script {
    match request
    case CreateRun(_, _) => Refuse(NotFound)
    case SubmitInstruction(i) => InstructScript(s, log, i, key)
    case ClaimTurn(worker, seconds) => ClaimScript(s, log, lease, run, worker, seconds, key, env)
    case SubmitResult(worker, token, result) => ResultScript(s, lease, worker, token, result, key, env.now)
    case ReportProgress(worker, token, message) =>
      if !Holds(lease, worker, token, env.now) then Refuse(BadLease)
      else Append(ProgressReported(message), Worker, key, Finish(None))
    case ReportBlocker(worker, token, reason) =>
      if !Holds(lease, worker, token, env.now) then Refuse(BadLease)
      else Drop(Append(HumanRequested(reason), Worker, key, Finish(None)))
    case RequestHuman(reason) => HumanScript(s, reason, key)
    case PauseRun(reason) => PauseScript(s, reason, key)
    case ResumeRun =>
      if !s.state.PausedState? then Refuse(IllegalMove)
      else Append(Resumed, Control, key, Finish(None))
    case StopRun(reason) =>
      if s.state.Terminal() then Refuse(IllegalMove)
      else Drop(Append(Stopped(reason), Control, key, Finish(None)))
    case FailRun(reason) => Drop(Append(Failed(reason), Control, key, Finish(None)))
    case CompleteRun(rationale) => CompleteScript(s, rationale, key)
  }

  // ---- table writes ----

  function Added(hash: Hash<Content>, st: Store, run: string, c: Content): Store {
    var log := Log(st, run);
    st.(events := st.events[run := log + [Next(hash, GENESIS, log, c)]], eventIds := st.eventIds + {c.id})
  }

  function Synced(st: Store, run: string, s: Snapshot, now: int): Store
    requires run in st.runs
  {
    var row := st.runs[run];
    st.(runs := st.runs[run := row.(state := s.state, iteration := s.iteration, updatedAt := now,
                                    version := row.version + 1)])
  }

  /** Run a script against the tables, keeping the snapshot by applying each event to it. `n` numbers
      the identifiers taken so far. Any fault leaves nothing behind. */
  function Enact(hash: Hash<Content>, st: Store, run: string, s: Snapshot, script: Script, env: Env,
                 n: nat): Result<Enacted, Error>
    requires run in st.runs
    decreases script
  {
    match script
    case Finish(grant) => Ok(Enacted(st, s, grant))
    case Refuse(error) => Err(error)
    case Drop(next) => Enact(hash, Dropped(st, run), run, s, next, env, n)
    case Take(lease, next) =>
      if run in st.leases || LiveToken(st.leases, lease.token) then Err(Collision)
      else Enact(hash, Leased(st, run, lease), run, s, next, env, n)
    case Append(payload, actor, key, next) =>
      match AppendAndSync(hash, st, run, s, Content(env.mint(n), run, payload, actor, Some(key), env.now))
      case Err(e) => Err(e)
      case Ok(done) => Enact(hash, done.0, run, done.1, next, env, n + 1)
  }

  datatype Enacted = Enacted(store: Store, snapshot: Snapshot, grant: Option<Claim>)

  function Dropped(st: Store, run: string): Store {
    st.(leases := st.leases - {run})
  }

  function Leased(st: Store, run: string, lease: Lease): Store {
    st.(leases := st.leases[run := lease])
  }

  function AppendAndSync(hash: Hash<Content>, st: Store, run: string, s: Snapshot,
                         c: Content): (r: Result<(Store, Snapshot), Error>)
    requires run in st.runs
    ensures r.Ok? ==> run in r.value.0.runs
  {
    if c.id in st.eventIds then Err(Collision)
    else
      match Apply(s, c)
      case Err(f) => Err(Raised(f))
      case Ok(t) => Ok((Synced(Added(hash, st, run, c), run, t, c.at), t))
  }

  // ---- one call ----

  datatype Config = Config(ceiling: int, leaseSeconds: int, policy: Policy)

  /** A handoff as submitted: an object built by the caller, or a mapping still to be read. */
  datatype Handoff = TypedHandoff(instruction: Instruction)
                   | MappedHandoff(id: Option<string>, fields: Instruction)

  datatype Report = TypedReport(result: ExecutionResult) | MappedReport(result: ExecutionResult)

  /** The arguments of a public method, before they are checked. */
  datatype Input =
    | Begin(objective: string, maxIterations: int)
    | Submit(handoff: Handoff)
    | TakeTurn(worker: string, seconds: Option<int>)
    | Deliver(worker: string, token: string, report: Report)
    | Note(worker: string, token: string, message: string)
    | Block(worker: string, token: string, reason: string)
    | AskHuman(reason: string)
    | AskPause(reason: string)
    | AskResume
    | AskStop(reason: string)
    | AskFail(reason: string)
    | AskComplete(rationale: string)

  /** A public call; creating a run ignores `run`. */
  datatype Call = Call(run: string, input: Input, key: Option<string>)

  datatype Answer = Current(snapshot: Snapshot) | Claimed(claim: Claim)

  function ReadHandoff(h: Handoff, minted: Uuid): Option<Instruction> {
    match h
    case TypedHandoff(i) => Some(i)
    case MappedHandoff(id, fields) =>
      ReadInstruction(fields.(id := if id.None? || id.value == "" then minted else id.value))
  }

  function ReadReport(r: Report): Option<ExecutionResult> {
    match r
    case TypedReport(result) => Some(result)
    case MappedReport(result) => ReadResult(result)
  }

  function NotBlank(s: string, make: string -> Request): Result<Request, Error> {
    match Required(s)
    case None => Err(BadInput)
    case Some(t) => Ok(make(t))
  }

  /** The checks made before the transaction opens. */
  function Read(config: Config, input: Input, env: Env): Result<Request, Error> {
    match input
    case Begin(objective, max) =>
      if Required(objective).None? then Err(BadInput)
      else if !(1 <= max <= config.ceiling) then Err(BeyondPolicy)
      else Ok(CreateRun(Strip(objective), max))
    case Submit(handoff) =>
      (match ReadHandoff(handoff, env.mint(5)) case None => Err(BadInput) case Some(i) => Ok(SubmitInstruction(i)))
    case TakeTurn(worker, seconds) =>
      var duration := if seconds.Some? then seconds.value else config.leaseSeconds;
      if Required(worker).None? || duration < 1 then Err(BadInput) else Ok(ClaimTurn(Strip(worker), duration))
    case Deliver(worker, token, report) =>
      (match ReadReport(report) case None => Err(BadInput) case Some(r) => Ok(SubmitResult(worker, token, r)))
    case Note(worker, token, message) => NotBlank(message, t => ReportProgress(worker, token, t))
    case Block(worker, token, reason) => NotBlank(reason, t => ReportBlocker(worker, token, t))
    case AskHuman(reason) => NotBlank(reason, t => RequestHuman(t))
    case AskPause(reason) => NotBlank(reason, t => PauseRun(t))
    case AskResume => Ok(ResumeRun)
    case AskStop(reason) => NotBlank(reason, t => StopRun(t))
    case AskFail(reason) => NotBlank(reason, t => FailRun(t))
    case AskComplete(rationale) => NotBlank(rationale, t => CompleteRun(t))
  }

  function KeyFor(key: Option<string>, env: Env): Result<string, Error> {
    if key.None? then Ok("generated:" + env.mint(0))
    else if Required(key.value).None? then Err(BadInput)
    else Ok(Strip(key.value))
  }

  function Remembered(st: Store, scope: string, key: string, op: Operation): Store {
    st.(operations := st.operations[(scope, key) := op])
  }

  /** What all readings of the run agree on. */
  function SnapshotOf(hash: Hash<Content>, st: Store, run: string): Result<Snapshot, Error> {
    if run !in st.runs then Err(NotFound)
    else
      match Replay(hash, Log(st, run))
      case Err(f) => Err(Raised(f))
      case Ok(s) => Ok(s)
  }

  /** The run as one replay reads it. */
  function ReadRun(hash: Hash<Content>, st: Store, run: string, mints: nat -> Uuid): Result<Snapshot, Error> {
    if run !in st.runs then Err(NotFound)
    else
      match ReplayOnce(hash, Log(st, run), mints)
      case Err(f) => Err(Raised(f))
      case Ok(s) => Ok(s)
  }

  function AsCurrent(r: Result<Snapshot, Error>): Result<Answer, Error> {
    match r
    case Err(e) => Err(e)
    case Ok(s) => Ok(Current(s))
  }

  /** A repeated delivery: only a claim answers with what it answered before. */
  function Repeat(hash: Hash<Content>, st: Store, run: string, op: Operation, request: Request, mints: nat -> Uuid)
    : Result<Answer, Error>
  {
    if op.request != request then Err(DuplicateDelivery)
    else if request.ClaimTurn? then
      if !op.response.Granted? then Err(Corrupt)
      else
        match ReadInstruction(op.response.claim.instruction)
        case None => Err(BadInput)
        case Some(i) => Ok(Claimed(op.response.claim.(run := run, instruction := i)))
    else
      AsCurrent(ReadRun(hash, st, if request.CreateRun? && op.response.Created? then op.response.run else run, mints))
  }

  function NewRow(objective: string, max: int, policy: Policy, now: int): Row {
    Row(objective, New, 0, max, policy, now, now, 1)
  }

  /** The first two events of a run. The first is not counted into the row's version, which starts at one. */
  function Opened(hash: Hash<Content>, st: Store, run: string, objective: string, max: int, policy: Policy, key: string,
                  env: Env)
    : Result<(Store, Snapshot), Error>
  {
    if run in st.runs || env.mint(2) in st.eventIds then Err(Collision)
    else
      var first := Content(env.mint(2), run, RunCreated(objective, max, policy), Control, Some(key + ":created"),
                           env.now);
      var planning := Content(env.mint(3), run, PlanningStarted, System, Some(key + ":planning"), env.now);
      var row := NewRow(objective, max, policy, env.now);
      match Create(first)
      case Err(f) => Err(Raised(f))
      case Ok(s) => AppendAndSync(hash, Added(hash, st.(runs := st.runs[run := row]), run, first), run, s, planning)
  }

  function HandleCreate(hash: Hash<Content>, config: Config, st: Store, objective: string, max: int, key: string,
                        env: Env)
    : Result<(Store, Answer), Error>
  {
    var request := CreateRun(objective, max);
    if (CREATE_SCOPE, key) in st.operations then
      match Repeat(hash, st, CREATE_SCOPE, st.operations[(CREATE_SCOPE, key)], request, env.replays(0))
      case Err(e) => Err(e)
      case Ok(answer) => Ok((st, answer))
    else
      match Opened(hash, st, env.mint(1), objective, max, config.policy, key, env)
      case Err(e) => Err(e)
      case Ok((done, s)) => Ok((Remembered(done, CREATE_SCOPE, key, Operation(request, Created(env.mint(1)), env.now)),
                                Current(s)))
  }

  function HandleRun(hash: Hash<Content>, st: Store, run: string, request: Request, key: string, env: Env)
    : Result<(Store, Answer), Error>
  {
    if run !in st.runs then Err(NotFound)
    else if (run, key) in st.operations then
      match Repeat(hash, st, run, st.operations[(run, key)], request, env.replays(0))
      case Err(e) => Err(e)
      case Ok(answer) => Ok((st, answer))
    else
      match SnapshotOf(hash, st, run)
      case Err(e) => Err(e)
      case Ok(s) =>
        match Enact(hash, st, run, s, ScriptFor(s, Log(st, run), LeaseOf(st, run), run, request, key, env), env, 2)
        case Err(e) => Err(e)
        case Ok(done) => Ok(Concluded(done, run, key, request, env))
  }

  /** What is remembered of a first delivery: the claim that was granted, or the state reached. */
  function OperationOf(request: Request, done: Enacted, now: int): Operation {
    Operation(request, if done.grant.Some? then Granted(done.grant.value) else Reached(done.snapshot.state), now)
  }

  function Concluded(done: Enacted, run: string, key: string, request: Request, env: Env): (Store, Answer) {
    (Remembered(done.store, run, key, OperationOf(request, done, env.now)),
     if done.grant.Some? then Claimed(done.grant.value)
     else Current(Seen(done.snapshot, MintedIn(Log(done.store, run), env.replays(1)))))
  }

  function Handle(hash: Hash<Content>, config: Config, st: Store, call: Call,
                  env: Env): Result<(Store, Answer), Error> {
    match (Read(config, call.input, env), KeyFor(call.key, env))
    case (Err(e), _) => Err(e)
    case (_, Err(e)) => Err(e)
    case (Ok(request), Ok(key)) =>
      if request.CreateRun? then HandleCreate(hash, config, st, request.objective, request.maxIterations, key, env)
      else HandleRun(hash, st, call.run, request, key, env)
  }

  /** A call that fails leaves the tables as they were. */
  function After(hash: Hash<Content>, config: Config, st: Store, call: Call, env: Env): Store {
    match Handle(hash, config, st, call, env)
    case Ok((done, _)) => done
    case Err(_) => st
  }

  // ---- recovering expired leases ----

  /** One row of the sweep. */
  function Recover(hash: Hash<Content>, st: Store, run: string, env: Env, n: nat): Result<(Store, bool), Error> {
    match SnapshotOf(hash, st, run)
    case Err(e) => Err(e)
    case Ok(s) =>
      match Enact(hash, st, run, s, RecoverScript(s, LeaseOf(st, run), env.mint(n), env.now, Finish(None)), env, n + 1)
      case Err(e) => Err(e)
      case Ok(done) => Ok((done.store, s.state.CodexRunning? && done.snapshot.state.ReadyForCodex?))
  }

  function Proceed(hash: Hash<Content>, before: Result<(Store, seq<string>), Error>, run: string, env: Env, n: nat)
    : Result<(Store, seq<string>), Error>
  {
    match before
    case Err(e) => Err(e)
    case Ok((mid, recovered)) =>
      match Recover(hash, mid, run, env, n)
      case Err(e) => Err(e)
      case Ok((done, expired)) => Ok((done, if expired then recovered + [run] else recovered))
  }

  /** The sweep over the rows in the order given, all in one transaction. */
  function Sweep(hash: Hash<Content>, st: Store, rows: seq<string>, env: Env): Result<(Store, seq<string>), Error> {
    if rows == [] then Ok((st, []))
    else Proceed(hash, Sweep(hash, st, rows[..|rows| - 1], env), rows[|rows| - 1], env, 2 * |rows|)
  }

  /** Strings in ascending order of their characters, as the database sorts them. */
  predicate Before(a: string, b: string) {
    b != "" && (a == "" || a[0] < b[0] || (a[0] == b[0] && Before(a[1..], b[1..])))
  }

  /** The rows of the lease table in order. */
  ghost predicate Lists(rows: seq<string>, leases: map<string, Lease>) {
    (forall r :: r in rows <==> r in leases) && forall i, j :: 0 <= i < j < |rows| ==> Before(rows[i], rows[j])
  }

  // ---- every way the tables change ----

  function Attach(st: Store, run: string, kind: string, content: string, env: Env): Result<Store, Error> {
    if Required(kind).None? then Err(BadInput)
    else if run !in st.runs then Err(NotFound)
    else if env.mint(1) in st.artifacts then Err(Collision)
    else Ok(st.(artifacts := st.artifacts[env.mint(1) := Artifact(run, Strip(kind), content, env.now)]))
  }

  datatype Move =
    | Called(call: Call, env: Env)
    | Restarted(rows: seq<string>, env: Env)
    | Attached(run: string, kind: string, content: string, env: Env)

  /** The tables after one move; a move that fails leaves them as they were. */
  ghost function Made(hash: Hash<Content>, config: Config, st: Store, move: Move): Store {
    match move
    case Called(call, env) => After(hash, config, st, call, env)
    case Restarted(rows, env) =>
      (match Sweep(hash, st, rows, env) case Ok((done, _)) => if Lists(rows, st.leases) then done else st
       case Err(_) => st)
    case Attached(run, kind, content, env) =>
      (match Attach(st, run, kind, content, env) case Ok(done) => done case Err(_) => st)
  }

  ghost function AfterAll(hash: Hash<Content>, config: Config, st: Store, moves: seq<Move>): Store {
    if moves == [] then st
    else Made(hash, config, AfterAll(hash, config, st, moves[..|moves| - 1]), moves[|moves| - 1])
  }
}
