/** Concrete schedules from the empty tables: both orders in which an id is repeated unnoticed, and a run
    whose handoff is another one at every reading. */
module HandoffRuns {
  import opened Common
  import opened HashChain
  import opened Text
  import opened Protocol
  import opened ProtocolLaws
  import opened Ledger
  import opened LedgerLaws
  import opened LeaseLaws
  import opened HandoffLaws

  /** The n-th of a row of different identifiers. */
  function Id(n: nat): (id: Uuid)
    ensures |id| == n + 1
  {
    seq(n + 1, _ => 'u')
  }

  /** What the t-th call of a schedule gets: time stands still, and no identifier comes twice. */
  function Tick(t: nat): Env {
    Env(0, k => Id(10 * t + k), r => i => Id(r + i))
  }

  /** All identifiers of the tables are shorter than those of the t-th call. */
  ghost predicate Below(st: Store, t: nat) {
    && (forall id :: id in st.eventIds ==> |id| <= 10 * t)
    && (forall k :: k in st.operations ==> |k.1| <= 10 * t + 10)
    && (forall r :: r in st.leases ==> |st.leases[r].token| <= 10 * t)
  }

  function CallAt(t: nat, run: string, input: Input): Move {
    Called(Call(run, input, None), Tick(t))
  }

  /** The key generated for a call without one. */
  function KeyAt(t: nat): (key: string)
    ensures KeyFor(None, Tick(t)) == Ok(key) && |key| == 10 * t + 11
  {
    assert |"generated:"| == 10;
    "generated:" + Id(10 * t)
  }

  /** A call whose script goes through. */
  lemma Goes(hash: Hash<Content>, config: Config, st: Store, t: nat, run: string, input: Input, request: Request,
             s: Snapshot, done: Enacted)
    requires Coherent(hash, st) && Below(st, t) && Settled(hash, st, run, s) && !request.CreateRun?
    requires Read(config, input, Tick(t)) == Ok(request)
    requires Enact(hash, st, run, s, ScriptFor(s, st.events[run], LeaseOf(st, run), run, request, KeyAt(t), Tick(t)),
                   Tick(t), 2)
             == Ok(done)
    requires Below(done.store, t + 1)
    ensures var after := Made(hash, config, st, CallAt(t, run, input));
            && Coherent(hash, after) && Below(after, t + 1) && Settled(hash, after, run, done.snapshot)
            && after.events == done.store.events && after.leases == done.store.leases
  {
    var key := KeyAt(t);
    var script := ScriptFor(s, st.events[run], LeaseOf(st, run), run, request, key, Tick(t));
    SnapshotOk(hash, st, run, s);
    assert (run, key) !in st.operations;
    CallKeeps(hash, config, st, Call(run, input, None), Tick(t));
    RequestSane(hash, st, run, s, request, key, Tick(t));
    EnactSettles(hash, st, run, s, script, Tick(t), 2, done);
    EnactOnly(hash, st, run, s, script, Tick(t), 2);
    assert Made(hash, config, st, CallAt(t, run, input)) ==
           Remembered(done.store, run, key, OperationOf(request, done, 0));
  }

  /** Appending one event that applies. */
  lemma Appends(hash: Hash<Content>, st: Store, t: nat, run: string, s: Snapshot, n: nat, payload: Payload,
                actor: Actor, key: string, u: Snapshot, next: Script)
    returns (done: Store)
    requires run in st.runs && run in st.events && 2 <= n < 10 && |st.events[run]| >= 1
    requires forall id :: id in st.eventIds ==> |id| <= 10 * t + n
    requires Apply(s, Content(Tick(t).mint(n), run, payload, actor, Some(key), 0)) == Ok(u)
    ensures run in done.runs && run in done.events && done.leases == st.leases && done.operations == st.operations
    ensures Enact(hash, st, run, s, Append(payload, actor, key, next), Tick(t), n) ==
            Enact(hash, done, run, u, next, Tick(t), n + 1)
    ensures forall id :: id in done.eventIds ==> |id| <= 10 * t + n + 1
    ensures |done.events[run]| == |st.events[run]| + 1 && st.events[run] <= done.events[run]
    ensures done.events[run][|st.events[run]|].content.payload == payload
  {
    var c := Content(Tick(t).mint(n), run, payload, actor, Some(key), 0);
    done := AppendAndSync(hash, st, run, s, c).value.0;
  }

  // ---- the calls of the schedules ----

  /** The events of a run so far. */
  function Payloads(log: seq<Event>): seq<Payload> {
    seq(|log|, i requires 0 <= i < |log| => log[i].content.payload)
  }

  lemma PayloadsNext(log: seq<Event>, log': seq<Event>)
    requires |log'| == |log| + 1 && log <= log'
    ensures Payloads(log') == Payloads(log) + [log'[|log|].content.payload]
  {
  }

  lemma TwoMore(log: seq<Event>, log': seq<Event>, log'': seq<Event>, last: Payload)
    requires |log'| == |log| + 1 && log <= log' && Payloads(log'') == Payloads(log') + [last]
    ensures Payloads(log'') == Payloads(log) + [log'[|log|].content.payload, last]
  {
  }

  /** Where a schedule stands. */
  ghost predicate Stands(hash: Hash<Content>, st: Store, t: nat, run: string, s: Snapshot, payloads: seq<Payload>) {
    && Coherent(hash, st) && Below(st, t) && Settled(hash, st, run, s)
    && payloads != [] && Payloads(st.events[run]) == payloads
  }

  function FirstRun(): string {
    Id(1)
  }

  function Started(config: Config): (payloads: seq<Payload>)
    ensures |payloads| == 2 && forall k :: 0 <= k < 2 ==> !payloads[k].InstructionSubmitted?
  {
    [RunCreated("o", 2, config.policy), PlanningStarted]
  }

  function Opening(): Move {
    CallAt(0, "", Begin("o", 2))
  }

  lemma Opens(hash: Hash<Content>, config: Config) returns (s: Snapshot)
    requires config.ceiling >= 2
    ensures Stands(hash, Made(hash, config, EMPTY, Opening()), 1, FirstRun(), s, Started(config))
    ensures s.state.Planning? && s.iteration == 0 && s.maxIterations == 2
  {
    OpeningCoherent(hash, config);
    s := OpensAs(hash, config, Made(hash, config, EMPTY, Opening()), FirstRun(), KeyAt(0), Tick(0));
  }

  lemma OpensAs(hash: Hash<Content>, config: Config, made: Store, run: string, key: string, env: Env)
    returns (s: Snapshot)
    requires config.ceiling >= 2 && run == FirstRun() && key == KeyAt(0) && env == Tick(0)
    requires made == Made(hash, config, EMPTY, Opening()) && Coherent(hash, made)
    ensures Stands(hash, made, 1, run, s, Started(config))
    ensures s.state.Planning? && s.iteration == 0 && s.maxIterations == 2
  {
    var done: Store;
    done, s := FirstOpened(hash, run, "o", 2, config.policy, key, env);
    OpeningMade(hash, config, done, s);
    OpenedStands(hash, done, run, s, key, OpeningOperation(), Started(config));
  }

  lemma OpeningCoherent(hash: Hash<Content>, config: Config)
    ensures Coherent(hash, Made(hash, config, EMPTY, Opening()))
  {
    CallKeeps(hash, config, EMPTY, Call("", Begin("o", 2), None), Tick(0));
  }

  lemma OpenedStands(hash: Hash<Content>, done: Store, run: string, s: Snapshot, key: string, o: Operation,
                     payloads: seq<Payload>)
    requires Coherent(hash, Remembered(done, CREATE_SCOPE, key, o)) && |key| <= 20
    requires Settled(hash, done, run, s) && Payloads(done.events[run]) == payloads && payloads != []
    requires done.operations == map[] && done.leases == map[] && forall id :: id in done.eventIds ==> |id| <= 10
    ensures Stands(hash, Remembered(done, CREATE_SCOPE, key, o), 1, run, s, payloads)
  {
  }

  function OpeningOperation(): Operation {
    Operation(CreateRun("o", 2), Created(FirstRun()), 0)
  }

  lemma OpeningMade(hash: Hash<Content>, config: Config, done: Store, s: Snapshot)
    requires config.ceiling >= 2 && Opened(hash, EMPTY, FirstRun(), "o", 2, config.policy, KeyAt(0), Tick(0)) ==
             Ok((done, s))
    ensures Made(hash, config, EMPTY, Opening()) == Remembered(done, CREATE_SCOPE, KeyAt(0), OpeningOperation())
  {
    TightStrip("o");
  }

  lemma Begins(first: Content, planning: Content, objective: string) returns (s: Snapshot)
    requires Tight(objective) && objective != "" && first.payload.RunCreated? && first.payload.objective == objective
    requires first.payload.maxIterations >= 1 && planning.payload.PlanningStarted? && planning.run == first.run
    ensures Create(first).Ok? && Apply(Create(first).value, planning) == Ok(s)
    ensures s.state.Planning? && s.iteration == 0 && s.maxIterations == first.payload.maxIterations
  {
    TightStrip(objective);
    s := Create(first).value.(state := Planning);
  }

  /** A run opened on the empty tables. */
  lemma FirstOpened(hash: Hash<Content>, run: string, objective: string, max: int, policy: Policy, key: string,
                    env: Env)
    returns (done: Store, s: Snapshot)
    requires Tight(objective) && objective != "" && max >= 1 && env.mint(2) != env.mint(3)
    ensures Opened(hash, EMPTY, run, objective, max, policy, key, env) == Ok((done, s))
    ensures Settled(hash, done, run, s) && s.state.Planning? && s.iteration == 0 && s.maxIterations == max
    ensures Payloads(done.events[run]) == [RunCreated(objective, max, policy), PlanningStarted]
    ensures done.operations == map[] && done.leases == map[] && done.eventIds == {env.mint(2), env.mint(3)}
  {
    var first := Content(env.mint(2), run, RunCreated(objective, max, policy), Control, Some(key + ":created"),
                         env.now);
    var planning := Content(env.mint(3), run, PlanningStarted, System, Some(key + ":planning"), env.now);
    s := Begins(first, planning, objective);
    done := OpensRows(hash, run, objective, max, policy, key, env, first, planning, s);
    OpenedSettled(hash, EMPTY, run, objective, max, policy, key, env, done, s);
  }

  lemma OpensRows(hash: Hash<Content>, run: string, objective: string, max: int, policy: Policy, key: string, env: Env,
                  first: Content, planning: Content, s: Snapshot)
    returns (done: Store)
    requires Tight(objective) && objective != "" && max >= 1 && env.mint(2) != env.mint(3)
    requires first == Content(env.mint(2), run, RunCreated(objective, max, policy), Control, Some(key + ":created"),
                              env.now)
    requires planning == Content(env.mint(3), run, PlanningStarted, System, Some(key + ":planning"), env.now)
    requires Create(first).Ok? && Apply(Create(first).value, planning) == Ok(s)
    ensures Opened(hash, EMPTY, run, objective, max, policy, key, env) == Ok((done, s))
    ensures run in done.events && Payloads(done.events[run]) == [RunCreated(objective, max, policy), PlanningStarted]
    ensures done.operations == map[] && done.leases == map[] && done.eventIds == {env.mint(2), env.mint(3)}
  {
    TightStrip(objective);
    assert planning.id !in {first.id};
    done := Opened(hash, EMPTY, run, objective, max, policy, key, env).value.0;
    OpenedRows(hash, EMPTY, run, objective, max, policy, key, env, done, s, first, planning);
  }

  /** The script of a request at this point. */
  function ScriptAt(st: Store, t: nat, run: string, s: Snapshot, request: Request): Script
    requires run in st.events
  {
    ScriptFor(s, st.events[run], LeaseOf(st, run), run, request, KeyAt(t), Tick(t))
  }

  lemma Extends(hash: Hash<Content>, config: Config, st: Store, t: nat, run: string, input: Input, request: Request,
                s: Snapshot, script: Script, done: Enacted, payloads: seq<Payload>, more: seq<Payload>)
    requires Stands(hash, st, t, run, s, payloads) && !request.CreateRun? && Read(config, input, Tick(t)) == Ok(request)
    requires script == ScriptAt(st, t, run, s, request) && Enact(hash, st, run, s, script, Tick(t), 2) == Ok(done)
    requires Below(done.store, t + 1) && run in done.store.events && Payloads(done.store.events[run]) == payloads + more
    ensures Stands(hash, Made(hash, config, st, CallAt(t, run, input)), t + 1, run, done.snapshot, payloads + more)
    ensures Made(hash, config, st, CallAt(t, run, input)).leases == done.store.leases
  {
    Goes(hash, config, st, t, run, input, request, s, done);
  }

  /** A request that records one event, after dropping the lease or not. */
  lemma OneEvent(hash: Hash<Content>, config: Config, st: Store, t: nat, run: string, input: Input, request: Request,
                 s: Snapshot, u: Snapshot, payloads: seq<Payload>, payload: Payload, actor: Actor, drop: bool)
    requires Stands(hash, st, t, run, s, payloads) && !request.CreateRun? && Read(config, input, Tick(t)) == Ok(request)
    requires var last := Append(payload, actor, KeyAt(t), Finish(None));
             ScriptAt(st, t, run, s, request) == if drop then Drop(last) else last
    requires Apply(s, Content(Tick(t).mint(2), run, payload, actor, Some(KeyAt(t)), 0)) == Ok(u)
    ensures Stands(hash, Made(hash, config, st, CallAt(t, run, input)), t + 1, run, u, payloads + [payload])
  {
    var from := if drop then Dropped(st, run) else st;
    var done := Appends(hash, from, t, run, s, 2, payload, actor, KeyAt(t), u, Finish(None));
    PayloadsNext(st.events[run], done.events[run]);
    Extends(hash, config, st, t, run, input, request, s, ScriptAt(st, t, run, s, request), Enacted(done, u, None),
            payloads, [payload]);
  }

  lemma SubmitScript(st: Store, t: nat, run: string, s: Snapshot, i: Instruction)
    requires run in st.events && !IdUsed(st.events[run], i.id) && s.iteration < s.maxIterations
    requires s.state.Planning? || s.state.CodexComplete?
    ensures var last := Append(InstructionSubmitted(i), Planner, KeyAt(t), Finish(None));
            ScriptAt(st, t, run, s, SubmitInstruction(i)) ==
            if s.state.Planning? then last else Append(ReviewStarted, Planner, KeyAt(t) + ":review", last)
  {
  }

  lemma SubmitReads(config: Config, t: nat, h: Handoff, i: Instruction)
    requires ReadHandoff(h, Tick(t).mint(5)) == Some(i)
    ensures Read(config, Submit(h), Tick(t)) == Ok(SubmitInstruction(i))
  {
  }

  lemma HandoffApplies(s: Snapshot, i: Instruction, c: Content) returns (u: Snapshot)
    requires s.state.Planning? || s.state.Reviewing?
    requires s.iteration < s.maxIterations && Kept(i).Some? && c.payload == InstructionSubmitted(i) && c.run == s.run
    ensures Apply(s, c) == Ok(u)
    ensures u.state.ReadyForCodex? && u.instruction == Kept(i) && u.iteration == s.iteration + 1
            && u.maxIterations == s.maxIterations
  {
    u := Instruct(s, Kept(i)).value;
  }

  lemma Submits(hash: Hash<Content>, config: Config, st: Store, t: nat, run: string, s: Snapshot,
                payloads: seq<Payload>, h: Handoff, i: Instruction)
    returns (u: Snapshot)
    requires Stands(hash, st, t, run, s, payloads) && s.state.Planning? && s.iteration < s.maxIterations
    requires ReadHandoff(h, Tick(t).mint(5)) == Some(i) && Kept(i).Some? && !IdUsed(st.events[run], i.id)
    ensures Stands(hash, Made(hash, config, st, CallAt(t, run, Submit(h))), t + 1, run, u,
                   payloads + [InstructionSubmitted(i)])
    ensures u.state.ReadyForCodex? && u.instruction.Some? && u.iteration == s.iteration + 1
            && u.maxIterations == s.maxIterations
  {
    u := HandoffApplies(s, i, Content(Tick(t).mint(2), run, InstructionSubmitted(i), Planner, Some(KeyAt(t)), 0));
    SubmitScript(st, t, run, s, i);
    SubmitReads(config, t, h, i);
    OneEvent(hash, config, st, t, run, Submit(h), SubmitInstruction(i), s, u, payloads, InstructionSubmitted(i),
             Planner, false);
  }

  lemma ClaimScriptIs(config: Config, st: Store, t: nat, run: string, s: Snapshot) returns (i: Instruction)
    requires run in st.events && run !in st.leases && s.state.ReadyForCodex? && s.instruction.Some?
    ensures Read(config, TakeTurn("w", Some(1)), Tick(t)) == Ok(ClaimTurn("w", 1))
    ensures ScriptAt(st, t, run, s, ClaimTurn("w", 1)) == GrantScript(i, run, "w", 1, KeyAt(t), Tick(t))
  {
    TightStrip("w");
    i := HandedOut(s, st.events[run], false, Tick(t)).value;
  }

  lemma Claims(hash: Hash<Content>, config: Config, st: Store, t: nat, run: string, s: Snapshot, payloads: seq<Payload>)
    returns (u: Snapshot)
    requires Stands(hash, st, t, run, s, payloads) && s.state.ReadyForCodex? && s.instruction.Some?
    ensures var after := Made(hash, config, st, CallAt(t, run, TakeTurn("w", Some(1))));
            && Stands(hash, after, t + 1, run, u, payloads + [TurnClaimed("w", 1000000)])
            && run in after.leases && after.leases[run] == Lease("w", Tick(t).mint(1), 1000000, 0)
    ensures u == s.(state := CodexRunning)
  {
    u := s.(state := CodexRunning);
    var i := ClaimScriptIs(config, st, t, run, s);
    var done := Grants(hash, st, t, run, s, i, u);
    PayloadsNext(st.events[run], done.store.events[run]);
    Extends(hash, config, st, t, run, TakeTurn("w", Some(1)), ClaimTurn("w", 1), s,
            GrantScript(i, run, "w", 1, KeyAt(t), Tick(t)), done, payloads, [TurnClaimed("w", 1000000)]);
  }

  function ClaimAt(t: nat, run: string, i: Instruction): Claim {
    Claim(run, "w", i, Tick(t).mint(1), 1000000)
  }

  lemma NewToken(st: Store, t: nat)
    requires Below(st, t)
    ensures !LiveToken(st.leases, Tick(t).mint(1)) && |Tick(t).mint(1)| <= 10 * t + 10
  {
  }

  lemma GrantHolds(hash: Hash<Content>, st: Store, t: nat, run: string, s: Snapshot, i: Instruction)
    requires run in st.runs && run !in st.leases && Below(st, t)
    ensures Enact(hash, st, run, s, GrantScript(i, run, "w", 1, KeyAt(t), Tick(t)), Tick(t), 2) ==
            Enact(hash, Leased(st, run, Lease("w", Tick(t).mint(1), 1000000, 0)), run, s,
                  Append(TurnClaimed("w", 1000000), Worker, KeyAt(t), Finish(Some(ClaimAt(t, run, i)))), Tick(t), 2)
  {
    NewToken(st, t);
    GrantEnacts(hash, st, run, s, i, "w", 1, KeyAt(t), Tick(t), 2);
  }

  lemma ClaimApplies(s: Snapshot, c: Content)
    requires s.state.ReadyForCodex? && c.payload.TurnClaimed? && c.run == s.run
    ensures Apply(s, c) == Ok(s.(state := CodexRunning))
  {
  }

  lemma Grants(hash: Hash<Content>, st: Store, t: nat, run: string, s: Snapshot, i: Instruction, u: Snapshot)
    returns (done: Enacted)
    requires run in st.runs && run in st.events && |st.events[run]| >= 1 && Below(st, t) && run !in st.leases
    requires s.run == run && s.state.ReadyForCodex? && u == s.(state := CodexRunning)
    ensures Enact(hash, st, run, s, GrantScript(i, run, "w", 1, KeyAt(t), Tick(t)), Tick(t), 2) == Ok(done)
    ensures done.snapshot == u && Below(done.store, t + 1)
    ensures done.store.leases == st.leases[run := Lease("w", Tick(t).mint(1), 1000000, 0)]
    ensures run in done.store.events && |done.store.events[run]| == |st.events[run]| + 1
            && st.events[run] <= done.store.events[run]
    ensures done.store.events[run][|st.events[run]|].content.payload == TurnClaimed("w", 1000000)
  {
    NewToken(st, t);
    GrantHolds(hash, st, t, run, s, i);
    ClaimApplies(s, Content(Tick(t).mint(2), run, TurnClaimed("w", 1000000), Worker, Some(KeyAt(t)), 0));
    var held := Leased(st, run, Lease("w", Tick(t).mint(1), 1000000, 0));
    var end := Finish(Some(ClaimAt(t, run, i)));
    var store := Appends(hash, held, t, run, s, 2, TurnClaimed("w", 1000000), Worker, KeyAt(t), u, end);
    done := Enacted(store, u, end.grant);
  }

  function SomeResult(): ExecutionResult {
    ExecutionResult(Succeeded, "s", ["e"], "n")
  }

  lemma ResultReads()
    ensures ReadResult(SomeResult()) == Some(SomeResult())
  {
    TightStrip("s");
    TightStrip("n");
  }

  function Answer(token: string): Input {
    Deliver("w", token, TypedReport(SomeResult()))
  }

  lemma ResultApplies(s: Snapshot, c: Content)
    requires s.state.CodexRunning? && c.payload == ResultSubmitted(SomeResult()) && c.run == s.run
    ensures Apply(s, c) == Ok(s.(state := CodexComplete, lastResult := Some(SomeResult())))
  {
    ResultReads();
  }

  lemma AnswerScript(config: Config, st: Store, t: nat, run: string, s: Snapshot, token: string)
    requires run in st.events && s.state.CodexRunning?
    requires run in st.leases && st.leases[run].worker == "w" && st.leases[run].token == token
             && st.leases[run].expiresAt > 0
    ensures Read(config, Answer(token), Tick(t)) == Ok(SubmitResult("w", token, SomeResult()))
    ensures ScriptAt(st, t, run, s, SubmitResult("w", token, SomeResult())) ==
            Drop(Append(ResultSubmitted(SomeResult()), Worker, KeyAt(t), Finish(None)))
  {
  }

  lemma Answers(hash: Hash<Content>, config: Config, st: Store, t: nat, run: string, s: Snapshot,
                payloads: seq<Payload>, token: string)
    returns (u: Snapshot)
    requires Stands(hash, st, t, run, s, payloads) && s.state.CodexRunning?
    requires run in st.leases && st.leases[run].worker == "w" && st.leases[run].token == token
             && st.leases[run].expiresAt > 0
    ensures Stands(hash, Made(hash, config, st, CallAt(t, run, Answer(token))), t + 1, run, u,
                   payloads + [ResultSubmitted(SomeResult())])
    ensures u == s.(state := CodexComplete, lastResult := Some(SomeResult()))
  {
    u := s.(state := CodexComplete, lastResult := Some(SomeResult()));
    ResultApplies(s, Content(Tick(t).mint(2), run, ResultSubmitted(SomeResult()), Worker, Some(KeyAt(t)), 0));
    AnswerScript(config, st, t, run, s, token);
    OneEvent(hash, config, st, t, run, Answer(token), SubmitResult("w", token, SomeResult()), s, u, payloads,
             ResultSubmitted(SomeResult()), Worker, true);
  }

  lemma SubmitsAgain(hash: Hash<Content>, config: Config, st: Store, t: nat, run: string, s: Snapshot,
                     payloads: seq<Payload>, h: Handoff, i: Instruction)
    returns (u: Snapshot)
    requires Stands(hash, st, t, run, s, payloads) && s.state.CodexComplete? && s.iteration < s.maxIterations
    requires ReadHandoff(h, Tick(t).mint(5)) == Some(i) && Kept(i).Some? && !IdUsed(st.events[run], i.id)
    ensures Stands(hash, Made(hash, config, st, CallAt(t, run, Submit(h))), t + 1, run, u,
                   payloads + [ReviewStarted, InstructionSubmitted(i)])
  {
    SubmitScript(st, t, run, s, i);
    var done := Reviews(hash, st, t, run, s, i);
    u := done.snapshot;
    assert Payloads(done.store.events[run]) == payloads + [ReviewStarted, InstructionSubmitted(i)];
    Extends(hash, config, st, t, run, Submit(h), SubmitInstruction(i), s, ScriptAt(st, t, run, s, SubmitInstruction(i)),
            done, payloads, [ReviewStarted, InstructionSubmitted(i)]);
  }

  lemma Reviews(hash: Hash<Content>, st: Store, t: nat, run: string, s: Snapshot, i: Instruction)
    returns (done: Enacted)
    requires run in st.runs && run in st.events && |st.events[run]| >= 1 && Below(st, t)
    requires s.run == run && s.state.CodexComplete? && s.iteration < s.maxIterations && Kept(i).Some?
    ensures var last := Append(InstructionSubmitted(i), Planner, KeyAt(t), Finish(None));
            Enact(hash, st, run, s, Append(ReviewStarted, Planner, KeyAt(t) + ":review", last), Tick(t), 2) == Ok(done)
    ensures Below(done.store, t + 1) && run in done.store.events
    ensures Payloads(done.store.events[run]) == Payloads(st.events[run]) + [ReviewStarted, InstructionSubmitted(i)]
  {
    var v := s.(state := RunState.Reviewing);
    var last := Append(InstructionSubmitted(i), Planner, KeyAt(t), Finish(None));
    ReviewApplies(s, Content(Tick(t).mint(2), run, ReviewStarted, Planner, Some(KeyAt(t) + ":review"), 0));
    var mid := Appends(hash, st, t, run, s, 2, ReviewStarted, Planner, KeyAt(t) + ":review", v, last);
    done := Reviewed(hash, mid, t, run, v, i);
    TwoMore(st.events[run], mid.events[run], done.store.events[run], InstructionSubmitted(i));
  }

  /** The second event of the pair. */
  lemma Reviewed(hash: Hash<Content>, st: Store, t: nat, run: string, s: Snapshot, i: Instruction)
    returns (done: Enacted)
    requires run in st.runs && run in st.events && |st.events[run]| >= 1
    requires forall id :: id in st.eventIds ==> |id| <= 10 * t + 3
    requires forall k :: k in st.operations ==> |k.1| <= 10 * t + 10
    requires forall r :: r in st.leases ==> |st.leases[r].token| <= 10 * t
    requires s.run == run && s.state.Reviewing? && s.iteration < s.maxIterations && Kept(i).Some?
    ensures Enact(hash, st, run, s, Append(InstructionSubmitted(i), Planner, KeyAt(t), Finish(None)), Tick(t), 3) ==
            Ok(done)
    ensures Below(done.store, t + 1) && run in done.store.events
    ensures Payloads(done.store.events[run]) == Payloads(st.events[run]) + [InstructionSubmitted(i)]
  {
    var u := HandoffApplies(s, i, Content(Tick(t).mint(3), run, InstructionSubmitted(i), Planner, Some(KeyAt(t)), 0));
    var store := Appends(hash, st, t, run, s, 3, InstructionSubmitted(i), Planner, KeyAt(t), u, Finish(None));
    PayloadsNext(st.events[run], store.events[run]);
    done := Enacted(store, u, None);
  }

  lemma FailureApplies(s: Snapshot, c: Content) returns (u: Snapshot)
    requires !s.state.Terminal() && c.payload == Failed("r") && c.run == s.run
    ensures Apply(s, c) == Ok(u) && u.state.FailedState? && u.instruction == s.instruction
  {
    TightStrip("r");
    u := Fail(s, "r").value;
  }

  lemma FailScript(config: Config, st: Store, t: nat, run: string, s: Snapshot)
    requires run in st.events
    ensures Read(config, AskFail("r"), Tick(t)) == Ok(FailRun("r"))
    ensures ScriptAt(st, t, run, s, FailRun("r")) == Drop(Append(Failed("r"), Control, KeyAt(t), Finish(None)))
  {
    TightStrip("r");
  }

  lemma Fails(hash: Hash<Content>, config: Config, st: Store, t: nat, run: string, s: Snapshot, payloads: seq<Payload>)
    returns (u: Snapshot)
    requires Stands(hash, st, t, run, s, payloads) && !s.state.Terminal()
    ensures Stands(hash, Made(hash, config, st, CallAt(t, run, AskFail("r"))), t + 1, run, u, payloads + [Failed("r")])
    ensures u.state.FailedState? && u.instruction == s.instruction
  {
    u := FailureApplies(s, Content(Tick(t).mint(2), run, Failed("r"), Control, Some(KeyAt(t)), 0));
    FailScript(config, st, t, run, s);
    OneEvent(hash, config, st, t, run, AskFail("r"), FailRun("r"), s, u, payloads, Failed("r"), Control, true);
  }

  // ---- schedules, call by call ----

  /** The tables before the k-th move and after it. */
  ghost predicate PlayedAt(hash: Hash<Content>, config: Config, stores: seq<Store>, moves: seq<Move>, k: nat)
    requires k < |moves| && |stores| == |moves| + 1
  {
    stores[k + 1] == Made(hash, config, stores[k], moves[k])
  }

  /** The tables between the moves of a schedule from the empty ones. */
  ghost predicate Plays(hash: Hash<Content>, config: Config, stores: seq<Store>, moves: seq<Move>) {
    && |stores| == |moves| + 1 && stores[0] == EMPTY
    && forall k {:trigger PlayedAt(hash, config, stores, moves, k)} :: 0 <= k < |moves| ==>
       PlayedAt(hash, config, stores, moves, k)
  }

  lemma {:induction false} Played(hash: Hash<Content>, config: Config, moves: seq<Move>) returns (stores: seq<Store>)
    ensures Plays(hash, config, stores, moves) && stores[|moves|] == AfterAll(hash, config, EMPTY, moves)
  {
    if moves == [] {
      stores := [EMPTY];
    } else {
      var short := moves[..|moves| - 1];
      var before := Played(hash, config, short);
      stores := before + [AfterAll(hash, config, EMPTY, moves)];
      forall k | 0 <= k < |moves| ensures PlayedAt(hash, config, stores, moves, k) {
        if k < |short| {
          assert PlayedAt(hash, config, before, short, k);
        }
      }
    }
  }

  /** Where a schedule stands, as one fact that is taken apart only where needed. */
  ghost predicate Reached(hash: Hash<Content>, st: Store, t: nat, run: string, s: Snapshot, payloads: seq<Payload>) {
    forall k: nat :: k == t ==> Stands(hash, st, k, run, s, payloads)
  }

  lemma AtOpening(hash: Hash<Content>, config: Config, stores: seq<Store>, moves: seq<Move>) returns (u: Snapshot)
    requires config.ceiling >= 2 && Plays(hash, config, stores, moves) && moves != [] && moves[0] == Opening()
    ensures Reached(hash, stores[1], 1, FirstRun(), u, Started(config))
    ensures u.state.Planning? && u.iteration == 0 && u.maxIterations == 2
  {
    assert PlayedAt(hash, config, stores, moves, 0);
    u := Opens(hash, config);
  }

  lemma AtSubmit(hash: Hash<Content>, config: Config, stores: seq<Store>, moves: seq<Move>, t: nat, run: string,
                 s: Snapshot, payloads: seq<Payload>, h: Handoff, i: Instruction)
    returns (u: Snapshot)
    requires Plays(hash, config, stores, moves) && t < |moves| && moves[t] == CallAt(t, run, Submit(h))
    requires Reached(hash, stores[t], t, run, s, payloads) && s.state.Planning? && s.iteration < s.maxIterations
    requires ReadHandoff(h, Tick(t).mint(5)) == Some(i) && Kept(i).Some? && NewId(payloads, i.id)
    ensures Reached(hash, stores[t + 1], t + 1, run, u, payloads + [InstructionSubmitted(i)])
    ensures u.state.ReadyForCodex? && u.instruction.Some? && u.iteration == s.iteration + 1
            && u.maxIterations == s.maxIterations
  {
    assert Stands(hash, stores[t], t, run, s, payloads);
    FreshId(stores[t].events[run], payloads, i.id);
    assert PlayedAt(hash, config, stores, moves, t);
    u := Submits(hash, config, stores[t], t, run, s, payloads, h, i);
  }

  lemma AtClaim(hash: Hash<Content>, config: Config, stores: seq<Store>, moves: seq<Move>, t: nat, run: string,
                s: Snapshot, payloads: seq<Payload>)
    returns (u: Snapshot)
    requires Plays(hash, config, stores, moves) && t < |moves| && moves[t] == CallAt(t, run, TakeTurn("w", Some(1)))
    requires Reached(hash, stores[t], t, run, s, payloads) && s.state.ReadyForCodex? && s.instruction.Some?
    ensures Reached(hash, stores[t + 1], t + 1, run, u, payloads + [TurnClaimed("w", 1000000)])
    ensures run in stores[t + 1].leases && stores[t + 1].leases[run] == Lease("w", Tick(t).mint(1), 1000000, 0)
    ensures u == s.(state := CodexRunning)
  {
    assert Stands(hash, stores[t], t, run, s, payloads);
    assert PlayedAt(hash, config, stores, moves, t);
    u := Claims(hash, config, stores[t], t, run, s, payloads);
  }

  lemma AtAnswer(hash: Hash<Content>, config: Config, stores: seq<Store>, moves: seq<Move>, t: nat, run: string,
                 s: Snapshot, payloads: seq<Payload>, token: string)
    returns (u: Snapshot)
    requires Plays(hash, config, stores, moves) && t < |moves| && moves[t] == CallAt(t, run, Answer(token))
    requires Reached(hash, stores[t], t, run, s, payloads) && s.state.CodexRunning?
    requires run in stores[t].leases && stores[t].leases[run] == Lease("w", token, 1000000, 0)
    ensures Reached(hash, stores[t + 1], t + 1, run, u, payloads + [ResultSubmitted(SomeResult())])
    ensures u == s.(state := CodexComplete, lastResult := Some(SomeResult()))
  {
    assert Stands(hash, stores[t], t, run, s, payloads);
    assert PlayedAt(hash, config, stores, moves, t);
    u := Answers(hash, config, stores[t], t, run, s, payloads, token);
  }

  lemma AtSubmitAgain(hash: Hash<Content>, config: Config, stores: seq<Store>, moves: seq<Move>, t: nat, run: string,
                      s: Snapshot, payloads: seq<Payload>, h: Handoff, i: Instruction)
    returns (u: Snapshot)
    requires Plays(hash, config, stores, moves) && t < |moves| && moves[t] == CallAt(t, run, Submit(h))
    requires Reached(hash, stores[t], t, run, s, payloads) && s.state.CodexComplete? && s.iteration < s.maxIterations
    requires ReadHandoff(h, Tick(t).mint(5)) == Some(i) && Kept(i).Some? && NewId(payloads, i.id)
    ensures Reached(hash, stores[t + 1], t + 1, run, u, payloads + [ReviewStarted, InstructionSubmitted(i)])
  {
    assert Stands(hash, stores[t], t, run, s, payloads);
    FreshId(stores[t].events[run], payloads, i.id);
    assert PlayedAt(hash, config, stores, moves, t);
    u := SubmitsAgain(hash, config, stores[t], t, run, s, payloads, h, i);
  }

  lemma AtFailure(hash: Hash<Content>, config: Config, stores: seq<Store>, moves: seq<Move>, t: nat, run: string,
                  s: Snapshot, payloads: seq<Payload>)
    returns (u: Snapshot)
    requires Plays(hash, config, stores, moves) && t < |moves| && moves[t] == CallAt(t, run, AskFail("r"))
    requires Reached(hash, stores[t], t, run, s, payloads) && !s.state.Terminal()
    ensures Reached(hash, stores[t + 1], t + 1, run, u, payloads + [Failed("r")])
    ensures u.state.FailedState? && u.instruction == s.instruction
  {
    assert Stands(hash, stores[t], t, run, s, payloads);
    assert PlayedAt(hash, config, stores, moves, t);
    u := Fails(hash, config, stores[t], t, run, s, payloads);
  }

  // ---- two handoffs of one run ----

  /** No recorded payload carries this id. */
  predicate NewId(payloads: seq<Payload>, id: string) {
    forall k :: 0 <= k < |payloads| && payloads[k].InstructionSubmitted? ==> payloads[k].instruction.id != id
  }

  lemma FreshId(log: seq<Event>, payloads: seq<Payload>, id: string)
    requires Payloads(log) == payloads && NewId(payloads, id)
    ensures !IdUsed(log, id)
  {
    forall k | 0 <= k < |log| ensures Raw(log, k) != Some(id) {
      assert payloads[k] == log[k].content.payload;
    }
  }

  /** Create a run, submit a handoff, let a worker answer it, submit another. */
  function TwoHandoffs(first: Handoff, second: Handoff): seq<Move> {
    [Opening(), CallAt(1, FirstRun(), Submit(first)), CallAt(2, FirstRun(), TakeTurn("w", Some(1))),
     CallAt(3, FirstRun(), Answer(Id(21))), CallAt(4, FirstRun(), Submit(second))]
  }

  /** What it leaves of the run. */
  function TwoPayloads(start: seq<Payload>, i: Instruction, j: Instruction): seq<Payload> {
    AnsweredPayloads(start, i) + [ReviewStarted, InstructionSubmitted(j)]
  }

  function AnsweredPayloads(start: seq<Payload>, i: Instruction): seq<Payload> {
    start + [InstructionSubmitted(i)] + [TurnClaimed("w", 1000000)] + [ResultSubmitted(SomeResult())]
  }

  lemma StillNew(start: seq<Payload>, i: Instruction, id: string)
    requires NewId(start, id) && i.id != id
    ensures NewId(AnsweredPayloads(start, i), id)
  {
  }

  lemma Answered(hash: Hash<Content>, config: Config, stores: seq<Store>, moves: seq<Move>, run: string, s: Snapshot,
                 payloads: seq<Payload>, token: string)
    returns (u: Snapshot)
    requires Plays(hash, config, stores, moves) && |moves| >= 4 && moves[2] == CallAt(2, run, TakeTurn("w", Some(1)))
    requires moves[3] == CallAt(3, run, Answer(token)) && token == Tick(2).mint(1)
    requires Reached(hash, stores[2], 2, run, s, payloads) && s.state.ReadyForCodex? && s.instruction.Some?
    ensures Reached(hash, stores[4], 4, run, u,
                    payloads + [TurnClaimed("w", 1000000)] + [ResultSubmitted(SomeResult())])
    ensures u.state.CodexComplete? && u.iteration == s.iteration && u.maxIterations == s.maxIterations
  {
    var v := AtClaim(hash, config, stores, moves, 2, run, s, payloads);
    u := AtAnswer(hash, config, stores, moves, 3, run, v, payloads + [TurnClaimed("w", 1000000)], token);
  }

  lemma SecondSubmitted(hash: Hash<Content>, config: Config, stores: seq<Store>, moves: seq<Move>, run: string,
                        s: Snapshot, payloads: seq<Payload>, h: Handoff, j: Instruction)
    requires Plays(hash, config, stores, moves) && |moves| == 5 && moves[4] == CallAt(4, run, Submit(h))
    requires ReadHandoff(h, Tick(4).mint(5)) == Some(j) && Kept(j).Some? && NewId(payloads, j.id)
    requires Reached(hash, stores[4], 4, run, s, payloads) && s.state.CodexComplete? && s.iteration < s.maxIterations
    ensures run in stores[5].runs && run in stores[5].events
    ensures Payloads(stores[5].events[run]) == payloads + [ReviewStarted, InstructionSubmitted(j)]
  {
    var u := AtSubmitAgain(hash, config, stores, moves, 4, run, s, payloads, h, j);
    assert Stands(hash, stores[5], 5, run, u, payloads + [ReviewStarted, InstructionSubmitted(j)]);
  }

  lemma FromSubmitted(hash: Hash<Content>, config: Config, stores: seq<Store>, moves: seq<Move>, run: string,
                      s: Snapshot, start: seq<Payload>, i: Instruction, token: string, h: Handoff, j: Instruction)
    requires Plays(hash, config, stores, moves) && |moves| == 5 && moves[2] == CallAt(2, run, TakeTurn("w", Some(1)))
    requires moves[3] == CallAt(3, run, Answer(token)) && token == Tick(2).mint(1)
             && moves[4] == CallAt(4, run, Submit(h))
    requires ReadHandoff(h, Tick(4).mint(5)) == Some(j) && Kept(j).Some? && i.id != j.id && NewId(start, j.id)
    requires Reached(hash, stores[2], 2, run, s, start + [InstructionSubmitted(i)])
    requires s.state.ReadyForCodex? && s.instruction.Some? && s.iteration < s.maxIterations
    ensures run in stores[5].runs && run in stores[5].events
    ensures Payloads(stores[5].events[run]) == TwoPayloads(start, i, j)
  {
    var u := Answered(hash, config, stores, moves, run, s, start + [InstructionSubmitted(i)], token);
    StillNew(start, i, j.id);
    SecondSubmitted(hash, config, stores, moves, run, u, AnsweredPayloads(start, i), h, j);
  }

  lemma FromOpened(hash: Hash<Content>, config: Config, stores: seq<Store>, moves: seq<Move>, run: string, s: Snapshot,
                   start: seq<Payload>, g: Handoff, i: Instruction, token: string, h: Handoff, j: Instruction)
    requires Plays(hash, config, stores, moves) && |moves| == 5 && moves[1] == CallAt(1, run, Submit(g))
    requires moves[2] == CallAt(2, run, TakeTurn("w", Some(1))) && moves[3] == CallAt(3, run, Answer(token))
    requires moves[4] == CallAt(4, run, Submit(h)) && token == Tick(2).mint(1)
    requires ReadHandoff(g, Tick(1).mint(5)) == Some(i) && ReadHandoff(h, Tick(4).mint(5)) == Some(j)
    requires Kept(i).Some? && Kept(j).Some? && i.id != j.id && NewId(start, i.id) && NewId(start, j.id)
    requires Reached(hash, stores[1], 1, run, s, start) && s.state.Planning? && s.iteration + 1 < s.maxIterations
    ensures run in stores[5].runs && run in stores[5].events
    ensures Payloads(stores[5].events[run]) == TwoPayloads(start, i, j)
  {
    var u := AtSubmit(hash, config, stores, moves, 1, run, s, start, g, i);
    FromSubmitted(hash, config, stores, moves, run, u, start, i, token, h, j);
  }

  lemma BothRecorded(hash: Hash<Content>, config: Config, first: Handoff, second: Handoff, i: Instruction,
                     j: Instruction)
    requires config.ceiling >= 2 && ReadHandoff(first, Tick(1).mint(5)) == Some(i)
             && ReadHandoff(second, Tick(4).mint(5)) == Some(j)
    requires Kept(i).Some? && Kept(j).Some? && i.id != j.id
    ensures var st := AfterAll(hash, config, EMPTY, TwoHandoffs(first, second));
            FirstRun() in st.runs && FirstRun() in st.events
            && Payloads(st.events[FirstRun()]) == TwoPayloads(Started(config), i, j)
  {
    var moves, run, start := TwoHandoffs(first, second), FirstRun(), Started(config);
    var stores := Played(hash, config, moves);
    var s := AtOpening(hash, config, stores, moves);
    FromOpened(hash, config, stores, moves, run, s, start, first, i, Id(21), second, j);
  }

  lemma RepeatsThere(log: seq<Event>, config: Config, i: Instruction, j: Instruction)
    requires Payloads(log) == TwoPayloads(Started(config), i, j) && ReadAlike(i.id, j.id)
    ensures ReadRepeats(log)
  {
    assert |log| == 7;
    assert Payloads(log)[2] == log[2].content.payload && Payloads(log)[6] == log[6].content.payload;
    assert Raw(log, 2) == Some(i.id) && Raw(log, 6) == Some(j.id);
  }

  function Plain(id: string): Instruction {
    Instruction(id, "g", ["c"], ["d"], "e")
  }

  lemma PlainReads(id: string)
    requires Strip(id) != ""
    ensures ReadInstruction(Plain(id)) == Some(Plain(Strip(id))) && Kept(Plain(id)) == Some(Plain(Strip(id)))
  {
    assert id != "";
    TightStrip("g");
    TightStrip("e");
    OneReads("c");
    OneReads("d");
  }

  lemma OneReads(s: string)
    requires s != "" && Tight(s)
    ensures RequiredEach([s]) == Some([s])
  {
    RequiredEachAgain([s]);
  }

  lemma Padded()
    ensures Strip(" a") == "a" && Strip("a") == "a"
  {
    assert StripLeft(" a") == "a" by {
      assert " a"[1..] == "a";
    }
    TightStrip("a");
  }

  /** A typed handoff called " a" is accepted after one called "a", and every reading calls both "a". */
  lemma TypedRepeats(hash: Hash<Content>, config: Config)
    requires config.ceiling >= 2
    ensures var st := AfterAll(hash, config, EMPTY, TwoHandoffs(TypedHandoff(Plain("a")), TypedHandoff(Plain(" a"))));
            FirstRun() in st.events && ReadRepeats(st.events[FirstRun()])
  {
    Padded();
    PlainReads("a");
    PlainReads(" a");
    BothRecorded(hash, config, TypedHandoff(Plain("a")), TypedHandoff(Plain(" a")), Plain("a"), Plain(" a"));
    var st := AfterAll(hash, config, EMPTY, TwoHandoffs(TypedHandoff(Plain("a")), TypedHandoff(Plain(" a"))));
    RepeatsThere(st.events[FirstRun()], config, Plain("a"), Plain(" a"));
  }

  /** So is a handoff given as a mapping and called "a", after a typed one called " a". */
  lemma MappedRepeats(hash: Hash<Content>, config: Config)
    requires config.ceiling >= 2
    ensures var st := AfterAll(hash, config, EMPTY,
                               TwoHandoffs(TypedHandoff(Plain(" a")), MappedHandoff(Some("a"), Plain("a"))));
            FirstRun() in st.events && ReadRepeats(st.events[FirstRun()])
  {
    Padded();
    PlainReads("a");
    PlainReads(" a");
    BothRecorded(hash, config, TypedHandoff(Plain(" a")), MappedHandoff(Some("a"), Plain("a")), Plain(" a"),
                 Plain("a"));
    var st := AfterAll(hash, config, EMPTY,
                       TwoHandoffs(TypedHandoff(Plain(" a")), MappedHandoff(Some("a"), Plain("a"))));
    RepeatsThere(st.events[FirstRun()], config, Plain(" a"), Plain("a"));
  }

  // ---- a handoff without an id ----

  /** Create a run, submit a typed handoff, and fail the run. */
  function NamelessRun(i: Instruction): seq<Move> {
    [Opening(), CallAt(1, FirstRun(), Submit(TypedHandoff(i))), CallAt(2, FirstRun(), AskFail("r"))]
  }

  /** There is such a handoff. */
  lemma NamelessReads()
    ensures Kept(Plain("")) == Some(Plain(""))
  {
    TightStrip(SomeUuid());
    PlainReads(SomeUuid());
    assert Named(Plain(""), SomeUuid()) == Plain(SomeUuid());
  }

  lemma NamelessEnds(hash: Hash<Content>, config: Config, i: Instruction, stores: seq<Store>, moves: seq<Move>,
                     run: string, s: Snapshot, start: seq<Payload>)
    returns (u: Snapshot)
    requires Plays(hash, config, stores, moves) && |moves| == 3 && Kept(i).Some? && NewId(start, i.id)
    requires moves[1] == CallAt(1, run, Submit(TypedHandoff(i))) && moves[2] == CallAt(2, run, AskFail("r"))
    requires Reached(hash, stores[1], 1, run, s, start) && s.state.Planning? && s.iteration < s.maxIterations
    ensures Reached(hash, stores[3], 3, run, u, start + [InstructionSubmitted(i)] + [Failed("r")])
    ensures u.state.FailedState?
  {
    var mid := AtSubmit(hash, config, stores, moves, 1, run, s, start, TypedHandoff(i), i);
    u := AtFailure(hash, config, stores, moves, 2, run, mid, start + [InstructionSubmitted(i)]);
  }

  lemma NamelessDiffers(hash: Hash<Content>, st: Store, t: nat, run: string, s: Snapshot, start: seq<Payload>,
                        i: Instruction)
    returns (m: nat -> Uuid, m': nat -> Uuid)
    requires Reached(hash, st, t, run, s, start + [InstructionSubmitted(i)] + [Failed("r")]) && |start| == 2
             && i.id == ""
    ensures Coherent(hash, st) && Settled(hash, st, run, s)
    ensures ReadRun(hash, st, run, m).Ok? && ReadRun(hash, st, run, m').Ok?
    ensures ReadRun(hash, st, run, m) != ReadRun(hash, st, run, m')
  {
    assert Stands(hash, st, t, run, s, start + [InstructionSubmitted(i)] + [Failed("r")]);
    NamelessThere(st.events[run], start + [InstructionSubmitted(i)] + [Failed("r")], i);
    m, m' := Differ(hash, st, run, s);
  }

  /** The run of a readable typed handoff with an empty id has ended, and yet two readings of it differ in
      the id of that handoff. */
  lemma EndedReadingsDiffer(hash: Hash<Content>, config: Config, i: Instruction)
    returns (s: Snapshot, m: nat -> Uuid, m': nat -> Uuid)
    requires config.ceiling >= 2 && i.id == "" && Kept(i).Some?
    ensures var st := AfterAll(hash, config, EMPTY, NamelessRun(i));
            && Coherent(hash, st) && Settled(hash, st, FirstRun(), s) && s.state.FailedState?
            && ReadRun(hash, st, FirstRun(), m).Ok? && ReadRun(hash, st, FirstRun(), m').Ok?
            && ReadRun(hash, st, FirstRun(), m) != ReadRun(hash, st, FirstRun(), m')
  {
    var stores := Played(hash, config, NamelessRun(i));
    s := AtOpening(hash, config, stores, NamelessRun(i));
    s := NamelessEnds(hash, config, i, stores, NamelessRun(i), FirstRun(), s, Started(config));
    m, m' := NamelessDiffers(hash, stores[3], 3, FirstRun(), s, Started(config), i);
  }

  lemma NamelessThere(log: seq<Event>, payloads: seq<Payload>, i: Instruction)
    requires Payloads(log) == payloads && |payloads| == 4 && i.id == ""
    requires payloads[2] == InstructionSubmitted(i) && payloads[3] == Failed("r")
    ensures Nameless(Contents(log))
  {
    var cs := Contents(log);
    assert |log| == 4 && log[2].content.payload == payloads[2] && log[3].content.payload == payloads[3];
    assert cs[..3][2] == cs[2];
    assert HandoffIn(cs[3]).None? && HandoffIn(cs[2]) == Some(i);
    assert LatestHandoff(cs[..3]) == Some(i);
  }

  lemma Differ(hash: Hash<Content>, st: Store, run: string, s: Snapshot) returns (m: nat -> Uuid, m': nat -> Uuid)
    requires Settled(hash, st, run, s) && Nameless(Contents(st.events[run]))
    ensures ReadRun(hash, st, run, m).Ok? && ReadRun(hash, st, run, m').Ok?
    ensures ReadRun(hash, st, run, m) != ReadRun(hash, st, run, m')
  {
    ReadingsAgree(hash, st, run, s);
    m, m' :| ReadRun(hash, st, run, m) != ReadRun(hash, st, run, m');
    SnapshotOk(hash, st, run, s);
    ReadRunSees(hash, st, run, s, m);
    ReadRunSees(hash, st, run, s, m');
  }
}
