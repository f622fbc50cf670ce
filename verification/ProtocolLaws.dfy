/** What holds of every legal history of a run. */
module ProtocolLaws {
  import opened Common
  import opened Text
  import opened Protocol

  ghost predicate Legal(cs: seq<Content>) {
    cs != [] && Fold(cs).Ok?
  }

  function At(cs: seq<Content>): Snapshot
    requires cs != [] && Fold(cs).Ok?
  {
    Fold(cs).value
  }

  /** The working phase: a paused run is still in the phase it will resume to. */
  function Phase(s: Snapshot): RunState {
    if s.state.PausedState? && s.pausedFrom.Some? then s.pausedFrom.value else s.state
  }

  predicate InTurn(phase: RunState) {
    phase in {ReadyForCodex, CodexRunning}
  }

  predicate Answered(phase: RunState) {
    phase in {CodexComplete, Reviewing, CompleteState}
  }

  /** The shape of every reachable snapshot. Only PAUSED says something about `pausedFrom`: a run
      failed or stopped while paused keeps the field. */
  ghost predicate Sound(s: Snapshot) {
    && 0 <= s.iteration <= s.maxIterations && 1 <= s.maxIterations
    && (s.state.PausedState? ==>
          s.pausedFrom.Some? && s.pausedFrom.value in {New, Planning, ReadyForCodex, CodexComplete, Reviewing})
    && (Phase(s) in {New, Planning} ==> s.iteration == 0)
    && (InTurn(Phase(s)) ==> s.iteration >= 1 && s.instruction.Some? && s.lastResult.None?)
    && (Answered(Phase(s)) ==> s.iteration >= 1 && s.instruction.Some? && s.lastResult.Some?)
  }

  lemma ApplySound(s: Snapshot, e: Content)
    requires Sound(s) && Apply(s, e).Ok?
    ensures Sound(Apply(s, e).value)
  {
  }

  lemma {:induction false} FoldSound(cs: seq<Content>)
    requires Legal(cs)
    ensures Sound(At(cs))
  {
    if |cs| > 1 {
      FoldSound(cs[..|cs| - 1]);
      ApplySound(At(cs[..|cs| - 1]), cs[|cs| - 1]);
    }
  }

  /** The field is set exactly while the run is paused, and for good once a paused run fails or stops. */
  lemma {:induction false} PausedFromSet(cs: seq<Content>)
    requires Legal(cs)
    ensures At(cs).pausedFrom.Some? <==>
            || At(cs).state.PausedState?
            || (|cs| > 1 && Legal(cs[..|cs| - 1]) && At(cs[..|cs| - 1]).state.PausedState?
                && (At(cs).state.FailedState? || At(cs).state.StoppedState?))
  {
    FoldSound(cs);
    if |cs| > 1 {
      PausedFromSet(cs[..|cs| - 1]);
      FoldSound(cs[..|cs| - 1]);
    }
  }

  /** So a failed run may still carry the state it was paused in. */
  lemma PausedFromOutlivesPause(run: string, key: Option<string>, id: string)
    ensures var cs := [Content(id, run, RunCreated("o", 1, map[]), Control, key, 0),
                       Content(id, run, Paused("r", Some(New)), Control, key, 0),
                       Content(id, run, Failed("r"), Control, key, 0)];
            Legal(cs) && At(cs).state.FailedState? && At(cs).pausedFrom == Some(New)
  {
    var a := Content(id, run, RunCreated("o", 1, map[]), Control, key, 0);
    var b := Content(id, run, Paused("r", Some(New)), Control, key, 0);
    var cs := [a, b, Content(id, run, Failed("r"), Control, key, 0)];
    Text.TightStrip("o");
    Text.TightStrip("r");
    assert cs[..2] == [a, b] && [a, b][..1] == [a];
    assert Fold([a]).Ok? && Fold([a, b]).Ok?;
  }

  // ---- ids minted by replays ----

  /** The latest handoff, as recorded. */
  function LatestHandoff(cs: seq<Content>): Option<Instruction> {
    if cs == [] then None
    else if HandoffIn(cs[|cs| - 1]).Some? then HandoffIn(cs[|cs| - 1])
    else LatestHandoff(cs[..|cs| - 1])
  }

  /** The latest handoff was recorded with an empty id. */
  predicate Nameless(cs: seq<Content>) {
    LatestHandoff(cs).Some? && LatestHandoff(cs).value.id == ""
  }

  /** The handoff in a snapshot is the latest recorded one, as it reads. */
  lemma {:induction false} CurrentIsLatest(cs: seq<Content>)
    requires Legal(cs)
    ensures At(cs).instruction == if LatestHandoff(cs).Some? then Kept(LatestHandoff(cs).value) else None
    ensures LatestHandoff(cs).Some? ==> At(cs).instruction.Some?
  {
    var short, last := cs[..|cs| - 1], cs[|cs| - 1];
    if |cs| == 1 {
      assert LatestHandoff(short).None?;
    } else {
      CurrentIsLatest(short);
      HandoffApplies(At(short), last);
    }
  }

  lemma HandoffApplies(s: Snapshot, e: Content)
    requires Apply(s, e).Ok?
    ensures Apply(s, e).value.instruction == if HandoffIn(e).Some? then Kept(HandoffIn(e).value) else s.instruction
    ensures HandoffIn(e).Some? ==> Apply(s, e).value.instruction.Some?
  {
  }

  lemma {:induction false} MintedSame(cs: seq<Content>, mints: nat -> Uuid, id: Uuid)
    requires forall i :: mints(i) == id
    ensures Minted(cs, mints) == id
    decreases |cs|
  {
    if cs != [] && HandoffIn(cs[|cs| - 1]).None? {
      MintedSame(cs[..|cs| - 1], mints, id);
    }
  }

  /** Whatever ids they mint, two replays of a legal history agree on all but the id of the handoff. */
  lemma ReplaysAlike(cs: seq<Content>, mints: nat -> Uuid)
    requires Legal(cs)
    ensures FoldEvents(cs, mints) == Ok(Seen(At(cs), Minted(cs, mints)))
    ensures !Nameless(cs) ==> FoldEvents(cs, mints) == Ok(At(cs))
    ensures Nameless(cs) ==> FoldEvents(cs, mints).value.instruction.Some?
                             && FoldEvents(cs, mints).value.instruction.value.id == Minted(cs, mints)
  {
    FoldSees(cs, mints);
    CurrentIsLatest(cs);
  }

  lemma TwoUuids() returns (a: Uuid, b: Uuid)
    ensures a != b
  {
    a, b := "u", "v";
  }

  /** All replays of a legal history agree exactly when its latest handoff was recorded with an id. */
  lemma ReplaysAgree(cs: seq<Content>)
    requires Legal(cs)
    ensures (forall m: nat -> Uuid, m': nat -> Uuid :: FoldEvents(cs, m) == FoldEvents(cs, m')) <==> !Nameless(cs)
  {
    forall m: nat -> Uuid, m': nat -> Uuid ensures !Nameless(cs) ==> FoldEvents(cs, m) == FoldEvents(cs, m') {
      ReplaysAlike(cs, m);
      ReplaysAlike(cs, m');
    }
    if Nameless(cs) {
      var a, b := TwoUuids();
      var m, m' := (_: nat) => a, (_: nat) => b;
      MintedSame(cs, m, a);
      MintedSame(cs, m', b);
      ReplaysAlike(cs, m);
      ReplaysAlike(cs, m');
      assert FoldEvents(cs, m) != FoldEvents(cs, m');
    }
  }

  // ---- counting ----

  function Count(cs: seq<Content>, which: Payload -> bool): nat {
    if cs == [] then 0 else Count(cs[..|cs| - 1], which) + if which(cs[|cs| - 1].payload) then 1 else 0
  }

  predicate IsClaim(p: Payload) { p.TurnClaimed? }
  predicate IsResult(p: Payload) { p.ResultSubmitted? }
  predicate IsExpiry(p: Payload) { p.LeaseExpired? }
  predicate IsInstruction(p: Payload) { p.InstructionSubmitted? }
  predicate IsStop(p: Payload) { p.Paused? || p.HumanRequested? || p.Failed? || p.Stopped? }

  /** Neither a claim, an expiry, a progress report, a pause nor a resume. */
  predicate IsWork(p: Payload) {
    !(p.TurnClaimed? || p.LeaseExpired? || p.ProgressReported? || p.Paused? || p.Resumed?)
  }

  /** Pauses, escalations, failures and stops applied while a worker held the turn. */
  function Interruptions(cs: seq<Content>): nat
    requires Legal(cs)
  {
    if |cs| == 1 then 0
    else
      var short := cs[..|cs| - 1];
      Interruptions(short) + if At(short).state.CodexRunning? && IsStop(cs[|cs| - 1].payload) then 1 else 0
  }

  /** Every claim is accounted for: answered, expired, interrupted, or still running. */
  lemma {:induction false} ClaimConservation(cs: seq<Content>)
    requires Legal(cs)
    ensures Count(cs, IsClaim) == Count(cs, IsResult) + Count(cs, IsExpiry) + Interruptions(cs)
                                  + (if At(cs).state.CodexRunning? then 1 else 0)
  {
    var short := cs[..|cs| - 1];
    if |cs| == 1 {
      assert Count(short, IsClaim) == Count(short, IsResult) == Count(short, IsExpiry) == 0;
    } else {
      FoldSound(short);
      ClaimConservation(short);
      ClaimStep(At(short), cs[|cs| - 1]);
    }
  }

  lemma ClaimStep(s: Snapshot, e: Content)
    requires Sound(s) && Apply(s, e).Ok?
    ensures var t, p := Apply(s, e).value, e.payload;
            (if t.state.CodexRunning? then 1 else 0) + (if IsResult(p) then 1 else 0) + (if IsExpiry(p) then 1 else 0)
            + (if s.state.CodexRunning? && IsStop(p) then 1 else 0)
            == (if s.state.CodexRunning? then 1 else 0) + (if IsClaim(p) then 1 else 0)
  {
  }

  /** Instructions ahead of results: one exactly while the (possibly paused) phase is a turn. */
  ghost predicate Ahead(s: Snapshot, results: nat) {
    && results <= s.iteration <= results + 1
    && (InTurn(Phase(s)) ==> s.iteration == results + 1)
    && (Answered(Phase(s)) || Phase(s) in {New, Planning} ==> s.iteration == results)
  }

  lemma AheadStep(s: Snapshot, e: Content, results: nat)
    requires Sound(s) && Apply(s, e).Ok? && Ahead(s, results)
    ensures Ahead(Apply(s, e).value, results + if IsResult(e.payload) then 1 else 0)
    ensures Apply(s, e).value.iteration == s.iteration + if IsInstruction(e.payload) then 1 else 0
    ensures Apply(s, e).value.maxIterations == s.maxIterations
  {
  }

  /** Instructions are counted by the iteration, which never passes its maximum, and they run ahead of
      the results by one exactly while the (possibly paused) phase is a turn. */
  lemma {:induction false} InstructionConservation(cs: seq<Content>)
    requires Legal(cs)
    ensures Count(cs, IsInstruction) == At(cs).iteration <= At(cs).maxIterations
    ensures Ahead(At(cs), Count(cs, IsResult))
  {
    var short := cs[..|cs| - 1];
    FoldSound(cs);
    if |cs| == 1 {
      assert Count(short, IsInstruction) == Count(short, IsResult) == 0;
    } else {
      FoldSound(short);
      InstructionConservation(short);
      AheadStep(At(short), cs[|cs| - 1], Count(short, IsResult));
    }
  }

  /** How much work a live run has recorded, as its phase and iteration fix it. */
  function WorkAt(phase: RunState, iteration: nat): nat {
    match phase
    case New => 1
    case Planning => 2
    case CodexComplete => 3 * iteration + 1
    case Reviewing => 3 * iteration + 2
    case _ => 3 * iteration
  }

  lemma {:induction false} WorkConservation(cs: seq<Content>)
    requires Legal(cs)
    ensures !At(cs).state.Terminal() ==> Count(cs, IsWork) == WorkAt(Phase(At(cs)), At(cs).iteration)
    ensures Count(cs, IsWork) <= 3 * At(cs).iteration + 3
  {
    var short := cs[..|cs| - 1];
    if |cs| == 1 {
      assert Count(short, IsWork) == 0;
    } else {
      FoldSound(short);
      WorkConservation(short);
      WorkStep(At(short), cs[|cs| - 1]);
    }
  }

  lemma WorkStep(s: Snapshot, e: Content)
    requires Sound(s) && Apply(s, e).Ok?
    ensures var t := Apply(s, e).value;
            var before, after := WorkAt(Phase(s), s.iteration), WorkAt(Phase(t), t.iteration);
            && !s.state.Terminal()
            && (!t.state.Terminal() ==> after == before + if IsWork(e.payload) then 1 else 0)
            && (t.state.Terminal() ==> t.iteration == s.iteration && before + 1 <= 3 * t.iteration + 3)
  {
  }

  /** No legal history outgrows its iteration limit. */
  lemma BoundedProgress(cs: seq<Content>)
    requires Legal(cs)
    ensures Count(cs, IsWork) <= 3 * At(cs).maxIterations + 3
  {
    WorkConservation(cs);
    FoldSound(cs);
  }

  lemma Extended(cs: seq<Content>, s: Snapshot, e: Content, t: Snapshot) returns (cs': seq<Content>)
    requires cs != [] && Fold(cs) == Ok(s) && Apply(s, e) == Ok(t)
    ensures cs' != [] && Fold(cs') == Ok(t)
    ensures Count(cs', IsWork) == Count(cs, IsWork) + if IsWork(e.payload) then 1 else 0
  {
    cs' := cs + [e];
    LegalStep(cs, e);
  }

  lemma CycleStates(s: Snapshot, e: Content, i: Instruction, r: ExecutionResult)
    returns (a: Snapshot, b: Snapshot, c: Snapshot, d: Snapshot)
    requires s.run == e.run && Kept(i).Some? && ReadResult(r).Some?
    requires (s.state.Planning? || s.state.Reviewing?) && s.iteration < s.maxIterations
    ensures Apply(s, e.(payload := InstructionSubmitted(i))) == Ok(a)
    ensures Apply(a, e.(payload := TurnClaimed("w", 1))) == Ok(b)
    ensures Apply(b, e.(payload := ResultSubmitted(r))) == Ok(c)
    ensures Apply(c, e.(payload := ReviewStarted)) == Ok(d)
    ensures d.state.Reviewing? && d.run == s.run && d.iteration == s.iteration + 1 && d.maxIterations == s.maxIterations
  {
    a := Instruct(s, Kept(i)).value;
    b := a.(state := CodexRunning);
    c := TakeResult(b, r).value;
    d := c.(state := Reviewing);
  }

  /** One iteration: instruct, claim, answer, review. */
  lemma Cycle(cs: seq<Content>, s: Snapshot, e: Content, i: Instruction, r: ExecutionResult)
    returns (cs': seq<Content>, d: Snapshot)
    requires cs != [] && Fold(cs) == Ok(s) && s.run == e.run && Kept(i).Some? && ReadResult(r).Some?
    requires (s.state.Planning? || s.state.Reviewing?) && s.iteration < s.maxIterations
    ensures cs' != [] && Fold(cs') == Ok(d) && d.state.Reviewing? && d.run == s.run
    ensures d.iteration == s.iteration + 1 && d.maxIterations == s.maxIterations
    ensures Count(cs', IsWork) == Count(cs, IsWork) + 3
  {
    var a, b, c;
    a, b, c, d := CycleStates(s, e, i, r);
    cs' := Extended(cs, s, e.(payload := InstructionSubmitted(i)), a);
    cs' := Extended(cs', a, e.(payload := TurnClaimed("w", 1)), b);
    cs' := Extended(cs', b, e.(payload := ResultSubmitted(r)), c);
    cs' := Extended(cs', c, e.(payload := ReviewStarted), d);
  }

  lemma {:induction false} Planned(e: Content, max: nat, n: nat, i: Instruction, r: ExecutionResult)
    returns (cs: seq<Content>, s: Snapshot)
    requires n <= max && 1 <= max && Kept(i).Some? && ReadResult(r).Some?
    ensures cs != [] && Fold(cs) == Ok(s) && s.run == e.run && s.iteration == n && s.maxIterations == max
    ensures s.state == if n == 0 then Planning else Reviewing
    ensures Count(cs, IsWork) == 2 + 3 * n
  {
    if n == 0 {
      Text.TightStrip("o");
      var first := e.(payload := RunCreated("o", max, map[]));
      LegalStep([], first);
      assert [] + [first] == [first];
      s := Create(first).value.(state := Planning);
      cs := Extended([first], Create(first).value, e.(payload := PlanningStarted), s);
    } else {
      cs, s := Planned(e, max, n - 1, i, r);
      cs, s := Cycle(cs, s, e, i, r);
    }
  }

  lemma CompleteApplies(s: Snapshot, e: Content)
    requires s.run == e.run && s.state.Reviewing?
    ensures Apply(s, e.(payload := Completed("r"))) == Ok(s.(state := CompleteState))
  {
  }

  /** The bound is reached under every limit: some legal history records that many such events. */
  lemma BoundReached(e: Content, max: nat, i: Instruction, r: ExecutionResult) returns (cs: seq<Content>)
    requires 1 <= max && Kept(i).Some? && ReadResult(r).Some?
    ensures Legal(cs) && At(cs).maxIterations == max && Count(cs, IsWork) == 3 * max + 3
  {
    var s;
    cs, s := Planned(e, max, max, i, r);
    CompleteApplies(s, e);
    cs := Extended(cs, s, e.(payload := Completed("r")), s.(state := CompleteState));
  }

  lemma LegalStep(cs: seq<Content>, e: Content)
    ensures cs == [] ==> Fold(cs + [e]) == Create(e)
    ensures Legal(cs) ==> Fold(cs + [e]) == Apply(At(cs), e)
    ensures Count(cs + [e], IsWork) == Count(cs, IsWork) + if IsWork(e.payload) then 1 else 0
  {
    assert (cs + [e])[..|cs|] == cs;
  }

  /** The end is absorbing: no event at all applies to a terminal run. */
  lemma TerminalAbsorbs(s: Snapshot, e: Content)
    requires s.state.Terminal()
    ensures Apply(s, e).Err?
  {
  }

  /** Hence a terminal history has no legal extension. */
  lemma {:induction false} TerminalIsFinal(cs: seq<Content>, more: seq<Content>)
    requires Legal(cs) && At(cs).state.Terminal() && more != []
    ensures !Legal(cs + more)
    decreases |more|
  {
    var short := more[..|more| - 1];
    assert (cs + more)[..|cs + more| - 1] == cs + short;
    if short == [] {
      assert cs + short == cs;
    } else {
      TerminalIsFinal(cs, short);
    }
  }

  /** Every nonempty prefix of a legal history is legal, and the run, its limit and policy never change. */
  lemma {:induction false} PrefixLegal(cs: seq<Content>, n: nat)
    requires Legal(cs) && 0 < n <= |cs|
    ensures Legal(cs[..n])
    ensures At(cs[..n]).run == At(cs).run && At(cs[..n]).maxIterations == At(cs).maxIterations
    ensures At(cs[..n]).objective == At(cs).objective && At(cs[..n]).policy == At(cs).policy
    ensures At(cs[..n]).iteration <= At(cs).iteration
    decreases |cs|
  {
    if n == |cs| {
      assert cs[..n] == cs;
    } else {
      assert cs[..|cs| - 1][..n] == cs[..n];
      PrefixLegal(cs[..|cs| - 1], n);
    }
  }

  // ---- the life cycle as a graph ----

  predicate Over(state: RunState) {
    state.HumanRequired? || state.FailedState? || state.CompleteState? || state.StoppedState?
  }

  /** The edges of the life cycle. `back` is the state a paused run was paused in. */
  predicate Edge(from: RunState, back: Option<RunState>, p: Payload, to: RunState) {
    match p
    case RunCreated(_, _, _) => false
    case PlanningStarted => from.New? && to.Planning?
    case InstructionSubmitted(_) => (from.Planning? || from.Reviewing?) && to.ReadyForCodex?
    case TurnClaimed(_, _) => from.ReadyForCodex? && to.CodexRunning?
    case ResultSubmitted(_) => from.CodexRunning? && to.CodexComplete?
    case ReviewStarted => from.CodexComplete? && to.Reviewing?
    case HumanRequested(_) => (from.CodexRunning? || from.CodexComplete? || from.Reviewing?) && to.HumanRequired?
    case Paused(_, resume) =>
      !Over(from) && !from.PausedState? && to.PausedState?
      && resume == Some(if from.CodexRunning? then RunState.ReadyForCodex else from)
    case Resumed => from.PausedState? && back == Some(to)
    case LeaseExpired => from.CodexRunning? && to.ReadyForCodex?
    case ProgressReported(_) => from.CodexRunning? && to.CodexRunning?
    case Completed(_) => from.Reviewing? && to.CompleteState?
    case Failed(_) => !Over(from) && to.FailedState?
    case Stopped(_) => !Over(from) && to.StoppedState?
  }

  /** What the event carries can be read, and the limit leaves room for it. */
  predicate Sayable(s: Snapshot, p: Payload) {
    match p
    case InstructionSubmitted(i) => s.iteration < s.maxIterations && Kept(i).Some?
    case ResultSubmitted(r) => Strip(r.summary) != "" && Strip(r.nextAction) != ""
    case HumanRequested(reason) => Strip(reason) != ""
    case Failed(reason) => Strip(reason) != ""
    case Stopped(reason) => Strip(reason) != ""
    case _ => true
  }

  /** An event of the run applies exactly along an edge. */
  lemma ApplyEdge(s: Snapshot, e: Content, to: RunState)
    requires s.run == e.run
    ensures (Apply(s, e).Ok? && Apply(s, e).value.state == to) <==>
              Edge(s.state, s.pausedFrom, e.payload, to) && Sayable(s, e.payload)
  {
  }

  /** So every legal history walks along the edges from the moment it was created. */
  lemma HistoryWalks(cs: seq<Content>, k: nat)
    requires Legal(cs) && 0 < k < |cs|
    ensures Legal(cs[..k]) && Legal(cs[..k + 1])
    ensures Edge(At(cs[..k]).state, At(cs[..k]).pausedFrom, cs[k].payload, At(cs[..k + 1]).state)
  {
    PrefixLegal(cs, k);
    PrefixLegal(cs, k + 1);
    assert cs[..k + 1][..k] == cs[..k] && cs[..k + 1][k] == cs[k];
    ApplyEdge(At(cs[..k]), cs[k], At(cs[..k + 1]).state);
  }
}
