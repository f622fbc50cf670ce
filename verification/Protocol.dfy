/** The event log of one run: the reducer, chain verification and replay. */
module Protocol {
  import opened Common
  import opened HashChain
  import opened Text

  /** A minted identifier: never empty, never with outer white space. */
  type Uuid = s: string | s != "" && Tight(s) witness SomeUuid()

  function SomeUuid(): (s: string)
    ensures s != "" && Tight(s)
  {
    "u"
  }

  datatype RunState =
    | New | Planning | ReadyForCodex | CodexRunning | CodexComplete | Reviewing
    | HumanRequired | FailedState | CompleteState | PausedState | StoppedState
  {
    predicate Terminal() { HumanRequired? || FailedState? || CompleteState? || StoppedState? }
  }

  datatype Actor = Planner | Worker | Control | System

  /** A handoff; its optional lists are not modelled. */
  datatype Instruction = Instruction(id: string, goal: string, context: seq<string>, constraints: seq<string>,
                                     doneWhen: string)

  datatype Verdict = Succeeded | NotSucceeded

  datatype ExecutionResult = ExecutionResult(verdict: Verdict, summary: string, evidence: seq<string>,
                                             nextAction: string)

  type Policy = map<string, string>

  datatype Payload =
    | RunCreated(objective: string, maxIterations: int, policy: Policy)
    | PlanningStarted
    | InstructionSubmitted(instruction: Instruction)
    | TurnClaimed(worker: string, expiresAt: int)
    | ResultSubmitted(result: ExecutionResult)
    | ReviewStarted
    | HumanRequested(reason: string)
    | Paused(reason: string, resume: Option<RunState>)
    | Resumed
    | LeaseExpired
    | ProgressReported(message: string)
    | Completed(rationale: string)
    | Failed(reason: string)
    | Stopped(reason: string)

  datatype Content = Content(id: string, run: string, payload: Payload, actor: Actor, key: Option<string>, at: int)

  type Event = Entry<Content>

  const GENESIS: Digest := ""

  datatype Snapshot = Snapshot(
    run: string,
    objective: string,
    state: RunState,
    iteration: nat,
    maxIterations: int,
    policy: Policy,
    instruction: Option<Instruction>,
    lastResult: Option<ExecutionResult>,
    pausedFrom: Option<RunState>,
    humanReason: Option<string>,
    failureReason: Option<string>,
    stopReason: Option<string>)

  datatype Fault = Validation | Illegal | Integrity

  // ---- reading handoffs and results ----

  /** An empty id is replaced by a minted one, every time the object is read. */
  function Named(raw: Instruction, minted: Uuid): Instruction {
    if raw.id == "" then raw.(id := minted) else raw
  }

  /** Reading an instruction object: required texts are stripped and may not be blank. */
  function ReadInstruction(raw: Instruction): Option<Instruction> {
    if |raw.context| == 0 || |raw.constraints| == 0 then None
    else
      match (Required(raw.id), Required(raw.goal), RequiredEach(raw.context), RequiredEach(raw.constraints),
             Required(raw.doneWhen))
      case (Some(id), Some(goal), Some(context), Some(constraints), Some(doneWhen)) =>
        Some(Instruction(id, goal, context, constraints, doneWhen))
      case _ => None
  }

  /** What every reading of a recorded handoff agrees on. An empty id stands for one that each reading
      mints anew. */
  function Kept(raw: Instruction): Option<Instruction> {
    match ReadInstruction(Named(raw, SomeUuid()))
    case None => None
    case Some(i) => Some(i.(id := if raw.id == "" then "" else i.id))
  }

  function NamedOption(i: Option<Instruction>, minted: Uuid): Option<Instruction> {
    if i.None? then None else Some(Named(i.value, minted))
  }

  /** One reading is what all agree on, under the id this reading mints. */
  lemma ReadingNames(raw: Instruction, minted: Uuid)
    ensures ReadInstruction(Named(raw, minted)) == NamedOption(Kept(raw), minted)
  {
    TightStrip(minted);
    TightStrip(SomeUuid());
  }

  function ReadResult(raw: ExecutionResult): Option<ExecutionResult> {
    match (Required(raw.summary), Required(raw.nextAction))
    case (Some(summary), Some(nextAction)) => Some(raw.(summary := summary, nextAction := nextAction))
    case _ => None
  }

  /** Reading what was read changes nothing. */
  lemma ReadInstructionAgain(raw: Instruction)
    requires ReadInstruction(raw).Some?
    ensures ReadInstruction(ReadInstruction(raw).value) == ReadInstruction(raw)
  {
    var i := ReadInstruction(raw).value;
    TightStrip(i.id);
    TightStrip(i.goal);
    TightStrip(i.doneWhen);
    RequiredEachAgain(i.context);
    RequiredEachAgain(i.constraints);
  }

  /** A recorded handoff survives every reading, up to the minted id. */
  lemma KeptAgain(raw: Instruction)
    requires Kept(raw).Some?
    ensures Kept(Kept(raw).value) == Kept(raw)
  {
    var read := ReadInstruction(Named(raw, SomeUuid())).value;
    ReadInstructionAgain(Named(raw, SomeUuid()));
    TightStrip(SomeUuid());
    assert Named(Kept(raw).value, SomeUuid()) == read;
  }

  lemma ReadResultAgain(raw: ExecutionResult)
    requires ReadResult(raw).Some?
    ensures ReadResult(ReadResult(raw).value) == ReadResult(raw)
  {
    var r := ReadResult(raw).value;
    TightStrip(r.summary);
    TightStrip(r.nextAction);
  }

  function Create(e: Content): Result<Snapshot, Fault> {
    if !e.payload.RunCreated? then Err(Illegal)
    else
      match Required(e.payload.objective)
      case None => Err(Validation)
      case Some(objective) =>
        if e.payload.maxIterations < 1 then Err(Integrity)
        else Ok(Snapshot(e.run, objective, New, 0, e.payload.maxIterations, e.payload.policy,
                         None, None, None, None, None, None))
  }

  function Moved(s: Snapshot, from: set<RunState>, to: RunState): Result<Snapshot, Fault> {
    if s.state in from then Ok(s.(state := to)) else Err(Illegal)
  }

  /** The state a pause must preserve: a running turn goes back to ready. */
  function Safe(state: RunState): RunState {
    if state.CodexRunning? then ReadyForCodex else state
  }

  function Instruct(s: Snapshot, read: Option<Instruction>): Result<Snapshot, Fault> {
    if s.state !in {Planning, Reviewing} || s.iteration >= s.maxIterations then Err(Illegal)
    else
      match read
      case None => Err(Validation)
      case Some(i) =>
        Ok(s.(state := ReadyForCodex, iteration := s.iteration + 1, instruction := Some(i), lastResult := None,
              humanReason := None, failureReason := None))
  }

  function TakeResult(s: Snapshot, raw: ExecutionResult): Result<Snapshot, Fault> {
    if !s.state.CodexRunning? then Err(Illegal)
    else
      match ReadResult(raw)
      case None => Err(Validation)
      case Some(r) => Ok(s.(state := CodexComplete, lastResult := Some(r)))
  }

  function Escalate(s: Snapshot, reason: string): Result<Snapshot, Fault> {
    if s.state !in {CodexRunning, CodexComplete, Reviewing} then Err(Illegal)
    else if Required(reason).None? then Err(Validation)
    else Ok(s.(state := HumanRequired, humanReason := Required(reason)))
  }

  function Pause(s: Snapshot, resume: Option<RunState>): Result<Snapshot, Fault> {
    if s.state.Terminal() || s.state.PausedState? then Err(Illegal)
    else if resume != Some(Safe(s.state)) then Err(Integrity)
    else Ok(s.(state := PausedState, pausedFrom := resume))
  }

  function Resume(s: Snapshot): Result<Snapshot, Fault> {
    if !s.state.PausedState? then Err(Illegal)
    else if s.pausedFrom.None? then Err(Integrity)
    else Ok(s.(state := s.pausedFrom.value, pausedFrom := None))
  }

  function Fail(s: Snapshot, reason: string): Result<Snapshot, Fault> {
    if s.state.Terminal() then Err(Illegal)
    else if Required(reason).None? then Err(Validation)
    else Ok(s.(state := FailedState, failureReason := Required(reason)))
  }

  function Stop(s: Snapshot, reason: string): Result<Snapshot, Fault> {
    if s.state.Terminal() then Err(Illegal)
    else if Required(reason).None? then Err(Validation)
    else Ok(s.(state := StoppedState, stopReason := Required(reason)))
  }

  /** The reducer, given what the handoff in the event reads as. */
  function ApplyRead(s: Snapshot, e: Content, read: Option<Instruction>): Result<Snapshot, Fault> {
    if s.run != e.run then Err(Integrity)
    else
      match e.payload
      case RunCreated(_, _, _) => Err(Integrity)
      case PlanningStarted => Moved(s, {New}, Planning)
      case InstructionSubmitted(_) => Instruct(s, read)
      case TurnClaimed(_, _) => Moved(s, {ReadyForCodex}, CodexRunning)
      case ResultSubmitted(raw) => TakeResult(s, raw)
      case ReviewStarted => Moved(s, {CodexComplete}, Reviewing)
      case HumanRequested(reason) => Escalate(s, reason)
      case Paused(_, resume) => Pause(s, resume)
      case Resumed => Resume(s)
      case LeaseExpired => Moved(s, {CodexRunning}, ReadyForCodex)
      case ProgressReported(_) => Moved(s, {CodexRunning}, CodexRunning)
      case Completed(_) => Moved(s, {Reviewing}, CompleteState)
      case Failed(reason) => Fail(s, reason)
      case Stopped(reason) => Stop(s, reason)
  }

  function HandoffIn(e: Content): Option<Instruction> {
    if e.payload.InstructionSubmitted? then Some(e.payload.instruction) else None
  }

  /** The event as the reducer applies it, with the id it mints if the handoff in the event has none. */
  function ApplyEvent(s: Snapshot, e: Content, minted: Uuid): Result<Snapshot, Fault> {
    ApplyRead(s, e, if HandoffIn(e).Some? then ReadInstruction(Named(HandoffIn(e).value, minted)) else None)
  }

  /** What all its applications agree on. */
  function Apply(s: Snapshot, e: Content): Result<Snapshot, Fault> {
    ApplyRead(s, e, if HandoffIn(e).Some? then Kept(HandoffIn(e).value) else None)
  }

  /** The snapshot one replay sees: the current handoff under the id this replay mints, if it has none. */
  function Seen(s: Snapshot, minted: Uuid): Snapshot {
    s.(instruction := NamedOption(s.instruction, minted))
  }

  function SeenResult(r: Result<Snapshot, Fault>, minted: Uuid): Result<Snapshot, Fault> {
    if r.Ok? then Ok(Seen(r.value, minted)) else r
  }

  /** Apply the events in order, stopping at the first fault. */
  function Fold(cs: seq<Content>): Result<Snapshot, Fault>
    requires cs != []
  {
    var last := cs[|cs| - 1];
    if |cs| == 1 then Create(last)
    else
      match Fold(cs[..|cs| - 1])
      case Err(f) => Err(f)
      case Ok(s) => Apply(s, last)
  }

  /** The same as a replay runs, minting `mints(i)` for the event at i should its handoff have no id. */
  function FoldEvents(cs: seq<Content>, mints: nat -> Uuid): Result<Snapshot, Fault>
    requires cs != []
  {
    var last := cs[|cs| - 1];
    if |cs| == 1 then Create(last)
    else
      match FoldEvents(cs[..|cs| - 1], mints)
      case Err(f) => Err(f)
      case Ok(s) => ApplyEvent(s, last, mints(|cs| - 1))
  }

  /** The id minted for the latest handoff. */
  function Minted(cs: seq<Content>, mints: nat -> Uuid): Uuid {
    if cs == [] then mints(0)
    else if HandoffIn(cs[|cs| - 1]).Some? then mints(|cs| - 1)
    else Minted(cs[..|cs| - 1], mints)
  }

  lemma InstructSees(s: Snapshot, raw: Instruction, was: Uuid, minted: Uuid)
    ensures Instruct(Seen(s, was), ReadInstruction(Named(raw, minted))) == SeenResult(Instruct(s, Kept(raw)), minted)
  {
    ReadingNames(raw, minted);
  }

  /** No other event looks at the current handoff. */
  lemma OthersSee(s: Snapshot, e: Content, i: Option<Instruction>)
    requires HandoffIn(e).None?
    ensures var r, t := ApplyRead(s, e, None), ApplyRead(s.(instruction := i), e, None);
            if r.Ok? then t == Ok(r.value.(instruction := i)) && r.value.instruction == s.instruction else t == r
  {
  }

  lemma ApplySees(s: Snapshot, e: Content, was: Uuid, minted: Uuid)
    ensures ApplyEvent(Seen(s, was), e, minted) == SeenResult(Apply(s, e), if HandoffIn(e).Some? then minted else was)
  {
    if HandoffIn(e).Some? {
      InstructSees(s, e.payload.instruction, was, minted);
    } else {
      OthersSee(s, e, NamedOption(s.instruction, was));
    }
  }

  /** A replay is fixed by the log except for one thing: the id it mints for a latest handoff without one. */
  lemma {:induction false} FoldSees(cs: seq<Content>, mints: nat -> Uuid)
    requires cs != []
    ensures FoldEvents(cs, mints) == SeenResult(Fold(cs), Minted(cs, mints))
  {
    if |cs| > 1 {
      var short, last := cs[..|cs| - 1], cs[|cs| - 1];
      FoldSees(short, mints);
      if Fold(short).Ok? {
        ApplySees(Fold(short).value, last, Minted(short, mints), mints(|cs| - 1));
      }
    }
  }

  function Contents(es: seq<Event>): seq<Content> {
    seq(|es|, i requires 0 <= i < |es| => es[i].content)
  }

  predicate OneRun(es: seq<Event>) {
    forall i :: 0 <= i < |es| ==> es[i].content.run == es[0].content.run
  }

  predicate Verified(hash: Hash<Content>, es: seq<Event>) {
    OneRun(es) && Linked(hash, GENESIS, es)
  }

  /** What all replays of a stream agree on. */
  function Replay(hash: Hash<Content>, es: seq<Event>): Result<Snapshot, Fault> {
    if es == [] || !Verified(hash, es) then Err(Integrity) else Fold(Contents(es))
  }

  /** One replay, with the ids it mints. */
  function ReplayOnce(hash: Hash<Content>, es: seq<Event>, mints: nat -> Uuid): Result<Snapshot, Fault> {
    if es == [] || !Verified(hash, es) then Err(Integrity) else FoldEvents(Contents(es), mints)
  }

  function MintedIn(es: seq<Event>, mints: nat -> Uuid): Uuid {
    Minted(Contents(es), mints)
  }

  lemma ReplaySees(hash: Hash<Content>, es: seq<Event>, mints: nat -> Uuid)
    ensures ReplayOnce(hash, es, mints) == SeenResult(Replay(hash, es), MintedIn(es, mints))
  {
    if es != [] {
      FoldSees(Contents(es), mints);
    }
  }

  // ---- the replay as it runs ----

  /** One pass carrying the expected ordinal and the previous digest accepts exactly the verified streams. */
  method VerifyEventChain(hash: Hash<Content>, es: seq<Event>) returns (ok: bool)
    ensures ok <==> Verified(hash, es)
    ensures ok <==> forall i :: 0 <= i < |es| ==>
                      es[i].content.run == es[0].content.run && Follows(hash, GENESIS, es, i)
  {
    LinkedIff(hash, GENESIS, es);
    var expected, previous := 1, GENESIS;
    for i := 0 to |es|
      invariant expected == i + 1 && previous == Head(es[..i], GENESIS)
      invariant forall j :: 0 <= j < i ==> es[j].content.run == es[0].content.run && LinkedAt(hash, GENESIS, es, j)
    {
      var e := es[i];
      if e.content.run != es[0].content.run || e.ordinal != expected || e.previous != previous
         || e.digest != hash(e.ordinal, e.content, e.previous) {
        assert e.content.run != es[0].content.run || !LinkedAt(hash, GENESIS, es, i);
        return false;
      }
      expected, previous := expected + 1, e.digest;
      assert es[..i + 1] == es[..i] + [e];
    }
    return true;
  }

  method ReplayEvents(hash: Hash<Content>, es: seq<Event>, mints: nat -> Uuid) returns (r: Result<Snapshot, Fault>)
    ensures r == ReplayOnce(hash, es, mints)
  {
    if es == [] {
      return Err(Integrity);
    }
    var ok := VerifyEventChain(hash, es);
    if !ok {
      return Err(Integrity);
    }
    r := Create(es[0].content);
    ghost var cs := Contents(es);
    for i := 1 to |es|
      invariant r == FoldEvents(cs[..i], mints)
    {
      assert cs[..i + 1][..i] == cs[..i];
      if r.Err? {
        FaultStays(cs, i, mints);
        return;
      }
      r := ApplyEvent(r.value, es[i].content, mints(i));
    }
    assert cs[..|es|] == cs;
  }

  lemma {:induction false} FaultStays(cs: seq<Content>, n: nat, mints: nat -> Uuid)
    requires 0 < n <= |cs| && FoldEvents(cs[..n], mints).Err?
    ensures FoldEvents(cs, mints) == FoldEvents(cs[..n], mints)
    decreases |cs|
  {
    if n == |cs| {
      assert cs[..n] == cs;
    } else {
      assert cs[..|cs| - 1][..n] == cs[..n];
      FaultStays(cs[..|cs| - 1], n, mints);
    }
  }
}
