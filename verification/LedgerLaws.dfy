/** What every sequence of controller calls keeps, and what a repeated call can no longer do. */
module LedgerLaws {
  import opened Common
  import opened HashChain
  import opened Text
  import opened Protocol
  import opened ProtocolLaws
  import opened Ledger

  // ---- one run's rows ----

  /** The handoff in a snapshot reads back as itself. */
  ghost predicate ReadBack(s: Snapshot) {
    s.instruction.Some? ==> Kept(s.instruction.value) == s.instruction
  }

  lemma ApplyReadBack(s: Snapshot, c: Content)
    requires ReadBack(s) && Apply(s, c).Ok?
    ensures ReadBack(Apply(s, c).value)
  {
    if c.payload.InstructionSubmitted? {
      assert Apply(s, c).value.instruction == Kept(c.payload.instruction);
      KeptAgain(c.payload.instruction);
    } else {
      assert Apply(s, c).value.instruction == s.instruction;
    }
  }

  /** The log replays to `s`, and the cached row agrees with it. */
  ghost predicate LogOk(hash: Hash<Content>, run: string, row: Row, log: seq<Event>, s: Snapshot) {
    && log != [] && Verified(hash, log) && Fold(Contents(log)) == Ok(s)
    && log[0].content.run == run && s.run == run && Sound(s) && ReadBack(s)
    && row.state == s.state && row.iteration == s.iteration
    && row.objective == s.objective && row.maxIterations == s.maxIterations && row.policy == s.policy
    && row.version == |log|
  }

  function HandoffIds(log: seq<Event>): set<string> {
    set i | 0 <= i < |log| && Raw(log, i).Some? :: Raw(log, i).value
  }

  ghost predicate DistinctHandoffs(log: seq<Event>) {
    forall i, j :: 0 <= i < j < |log| && Raw(log, i).Some? ==> Raw(log, i) != Raw(log, j)
  }

  predicate Evidenced(s: Snapshot) {
    s.lastResult.Some? && s.lastResult.value.evidence != []
  }

  ghost predicate RunOk(hash: Hash<Content>, run: string, row: Row, log: seq<Event>, leased: bool) {
    exists s :: LogOk(hash, run, row, log, s) && (leased <==> s.state.CodexRunning?)
                && (s.state.CompleteState? ==> Evidenced(s)) && DistinctHandoffs(log)
  }

  /** Every stored operation can be answered, and the other tables agree with one another. */
  ghost predicate Coherent(hash: Hash<Content>, st: Store) {
    Agree(hash, st) && OperationsOk(st.operations, st.runs.Keys)
  }

  ghost predicate Agree(hash: Hash<Content>, st: Store) {
    && st.events.Keys == st.runs.Keys && st.leases.Keys <= st.runs.Keys
    && RunsOk(hash, st.runs, st.events, st.leases)
    && IdsIndexed(st.events, st.eventIds)
    && DistinctTokens(st.leases)
  }

  ghost predicate IdsIndexed(events: map<string, seq<Event>>, eventIds: set<string>) {
    forall r, i :: r in events && 0 <= i < |events[r]| ==> events[r][i].content.id in eventIds
  }

  ghost predicate DistinctTokens(leases: map<string, Lease>) {
    forall q, r :: q in leases && r in leases && leases[q].token == leases[r].token ==> q == r
  }

  /** A stored operation can still be answered. */
  ghost predicate Answerable(op: Operation, runs: set<string>) {
    && (op.request.CreateRun? ==> op.response.Created? && op.response.run in runs)
    && (op.request.ClaimTurn? ==>
        op.response.Granted? && ReadInstruction(op.response.claim.instruction) == Some(op.response.claim.instruction))
  }

  // ---- appending one event ----

  lemma ContentsSnoc(log: seq<Event>, e: Event)
    ensures Contents(log + [e]) == Contents(log) + [e.content]
    ensures Contents(log + [e])[..|log|] == Contents(log)
  {
  }

  /** An event that is no handoff leaves the current one, and so the id minted for it. */
  lemma MintedOnward(log: seq<Event>, e: Event, mints: nat -> Uuid)
    requires HandoffIn(e.content).None?
    ensures MintedIn(log + [e], mints) == MintedIn(log, mints)
  {
    ContentsSnoc(log, e);
  }

  /** Replaying a log with one more event is applying that event to the snapshot so far. */
  lemma ReplayNext(hash: Hash<Content>, log: seq<Event>, s: Snapshot, c: Content)
    requires log != [] && Verified(hash, log) && Fold(Contents(log)) == Ok(s)
    requires c.run == log[0].content.run
    ensures Verified(hash, log + [Next(hash, GENESIS, log, c)])
    ensures Fold(Contents(log + [Next(hash, GENESIS, log, c)])) == Apply(s, c)
    ensures Replay(hash, log + [Next(hash, GENESIS, log, c)]) == Apply(s, c)
  {
    var e := Next(hash, GENESIS, log, c);
    ExtendsLinked(hash, GENESIS, log, e);
    ContentsSnoc(log, e);
  }

  lemma ReviewApplies(s: Snapshot, c: Content)
    requires s.state.CodexComplete? && c.payload.ReviewStarted? && c.run == s.run
    ensures Apply(s, c) == Ok(s.(state := RunState.Reviewing))
  {
  }

  lemma ExpiryRestores(s: Snapshot, c: Content)
    requires s.state.CodexRunning? && c.payload.LeaseExpired? && c.run == s.run
    ensures Apply(s, c) == Ok(s.(state := ReadyForCodex))
  {
  }

  lemma LogOkNext(hash: Hash<Content>, run: string, row: Row, log: seq<Event>, s: Snapshot, c: Content, t: Snapshot,
                  now: int)
    requires LogOk(hash, run, row, log, s) && c.run == run && Apply(s, c) == Ok(t)
    ensures LogOk(hash, run, row.(state := t.state, iteration := t.iteration, updatedAt := now,
                                  version := row.version + 1), log + [Next(hash, GENESIS, log, c)], t)
  {
    ReplayNext(hash, log, s, c);
    ApplySound(s, c);
    ApplyReadBack(s, c);
    ApplyFixed(s, c);
  }

  lemma ApplyFixed(s: Snapshot, c: Content)
    requires Apply(s, c).Ok?
    ensures var t := Apply(s, c).value;
            t.run == s.run && t.objective == s.objective && t.maxIterations == s.maxIterations && t.policy == s.policy
  {
  }

  lemma HandoffsNext(log: seq<Event>, e: Event)
    requires DistinctHandoffs(log)
    requires e.content.payload.InstructionSubmitted? ==> e.content.payload.instruction.id !in HandoffIds(log)
    ensures DistinctHandoffs(log + [e])
    ensures HandoffIds(log + [e]) ==
            HandoffIds(log) + if e.content.payload.InstructionSubmitted? then {e.content.payload.instruction.id} else {}
  {
    var more := log + [e];
    assert forall i :: 0 <= i < |log| ==> Raw(more, i) == Raw(log, i);
    assert forall i :: 0 <= i < |log| && Raw(log, i).Some? ==> Raw(log, i).value in HandoffIds(log);
    assert Raw(more, |log|) == if e.content.payload.InstructionSubmitted? then Some(e.content.payload.instruction.id)
      else None;
    forall x ensures x in HandoffIds(more) <==>
        x in HandoffIds(log) + if e.content.payload.InstructionSubmitted? then {e.content.payload.instruction.id}
          else {} {
      if x in HandoffIds(log) {
        var i :| 0 <= i < |log| && Raw(log, i) == Some(x);
        assert Raw(more, i) == Some(x);
      }
    }
  }

  // ---- what a script keeps ----

  /** Everything outside the run's own rows is as before; the record of its events only grows. */
  ghost predicate OnlyRun(st: Store, st': Store, run: string) {
    && st'.runs.Keys == st.runs.Keys && (forall r :: r in st.runs && r != run ==> st'.runs[r] == st.runs[r])
    && st'.events.Keys == st.events.Keys && (forall r :: r in st.events && r != run ==> st'.events[r] == st.events[r])
    && (forall r :: r != run ==> (r in st'.leases <==> r in st.leases))
    && (forall r :: r != run && r in st.leases ==> st'.leases[r] == st.leases[r])
    && st.eventIds <= st'.eventIds
    && st'.operations == st.operations && st'.artifacts == st.artifacts
  }

  lemma {:induction false} EnactOnly(hash: Hash<Content>, st: Store, run: string, s: Snapshot, script: Script, env: Env,
                                     n: nat)
    requires run in st.runs && run in st.events && Enact(hash, st, run, s, script, env, n).Ok?
    ensures OnlyRun(st, Enact(hash, st, run, s, script, env, n).value.store, run)
    decreases script
  {
    match script
    case Finish(_) =>
    case Refuse(_) =>
    case Drop(next) => EnactOnly(hash, Dropped(st, run), run, s, next, env, n);
    case Take(lease, next) => EnactOnly(hash, Leased(st, run, lease), run, s, next, env, n);
    case Append(payload, actor, key, next) =>
      var c := Content(env.mint(n), run, payload, actor, Some(key), env.now);
      var done := AppendAndSync(hash, st, run, s, c).value;
      EnactOnly(hash, done.0, run, done.1, next, env, n + 1);
  }

  lemma {:induction false} EnactLog(hash: Hash<Content>, st: Store, run: string, s: Snapshot, script: Script, env: Env,
                                    n: nat)
    requires run in st.runs && run in st.events && LogOk(hash, run, st.runs[run], st.events[run], s)
    requires Enact(hash, st, run, s, script, env, n).Ok?
    ensures var done := Enact(hash, st, run, s, script, env, n).value;
            run in done.store.runs && run in done.store.events
            && LogOk(hash, run, done.store.runs[run], done.store.events[run], done.snapshot)
            && st.events[run] <= done.store.events[run]
    decreases script
  {
    match script
    case Finish(_) =>
    case Refuse(_) =>
    case Drop(next) => EnactLog(hash, Dropped(st, run), run, s, next, env, n);
    case Take(lease, next) => EnactLog(hash, Leased(st, run, lease), run, s, next, env, n);
    case Append(payload, actor, key, next) =>
      var c := Content(env.mint(n), run, payload, actor, Some(key), env.now);
      var done := AppendAndSync(hash, st, run, s, c).value;
      LogOkNext(hash, run, st.runs[run], st.events[run], s, c, done.1, c.at);
      EnactLog(hash, done.0, run, done.1, next, env, n + 1);
  }

  /** A script that ends well leaves a lease exactly when it leaves the run running. */
  predicate SaneLease(script: Script, running: bool, leased: bool) {
    match script
    case Finish(_) => leased == running
    case Refuse(_) => true
    case Drop(next) => SaneLease(next, running, false)
    case Take(_, next) => SaneLease(next, running, true)
    case Append(p, _, _, next) => SaneLease(next, p.TurnClaimed? || (p.ProgressReported? && running), leased)
  }

  lemma RunningAfter(s: Snapshot, c: Content)
    requires Sound(s) && Apply(s, c).Ok?
    ensures Apply(s, c).value.state.CodexRunning? <==>
              c.payload.TurnClaimed? || (c.payload.ProgressReported? && s.state.CodexRunning?)
  {
  }

  lemma {:induction false} EnactLease(hash: Hash<Content>, st: Store, run: string, s: Snapshot, script: Script,
                                      env: Env, n: nat)
    requires run in st.runs && Sound(s) && SaneLease(script, s.state.CodexRunning?, run in st.leases)
    requires Enact(hash, st, run, s, script, env, n).Ok?
    ensures var done := Enact(hash, st, run, s, script, env, n).value;
            run in done.store.leases <==> done.snapshot.state.CodexRunning?
    decreases script
  {
    match script
    case Finish(_) =>
    case Refuse(_) =>
    case Drop(next) => EnactLease(hash, Dropped(st, run), run, s, next, env, n);
    case Take(lease, next) => EnactLease(hash, Leased(st, run, lease), run, s, next, env, n);
    case Append(payload, actor, key, next) =>
      var c := Content(env.mint(n), run, payload, actor, Some(key), env.now);
      var done := AppendAndSync(hash, st, run, s, c).value;
      RunningAfter(s, c);
      ApplySound(s, c);
      EnactLease(hash, done.0, run, done.1, next, env, n + 1);
  }

  /** A script completes the run only with evidence at hand. */
  predicate SaneEnd(script: Script, evidenced: bool) {
    match script
    case Finish(_) => true
    case Refuse(_) => true
    case Drop(next) => SaneEnd(next, evidenced)
    case Take(_, next) => SaneEnd(next, evidenced)
    case Append(p, _, _, next) =>
      (p.Completed? ==> evidenced) && SaneEnd(next, evidenced && !p.InstructionSubmitted? && !p.ResultSubmitted?)
  }

  lemma CompleteAfter(s: Snapshot, c: Content)
    requires Sound(s) && Apply(s, c).Ok?
    ensures Apply(s, c).value.state.CompleteState? <==> c.payload.Completed?
    ensures !c.payload.InstructionSubmitted? && !c.payload.ResultSubmitted? ==>
              Apply(s, c).value.lastResult == s.lastResult
  {
  }

  lemma {:induction false} EnactEnd(hash: Hash<Content>, st: Store, run: string, s: Snapshot, script: Script, env: Env,
                                    n: nat, evidenced: bool)
    requires run in st.runs && Sound(s) && (evidenced ==> Evidenced(s)) && (s.state.CompleteState? ==> Evidenced(s))
    requires SaneEnd(script, evidenced)
    requires Enact(hash, st, run, s, script, env, n).Ok?
    ensures var t := Enact(hash, st, run, s, script, env, n).value.snapshot;
            t.state.CompleteState? ==> Evidenced(t)
    decreases script
  {
    match script
    case Finish(_) =>
    case Refuse(_) =>
    case Drop(next) => EnactEnd(hash, Dropped(st, run), run, s, next, env, n, evidenced);
    case Take(lease, next) => EnactEnd(hash, Leased(st, run, lease), run, s, next, env, n, evidenced);
    case Append(payload, actor, key, next) =>
      var c := Content(env.mint(n), run, payload, actor, Some(key), env.now);
      var done := AppendAndSync(hash, st, run, s, c).value;
      CompleteAfter(s, c);
      ApplySound(s, c);
      EnactEnd(hash, done.0, run, done.1, next, env, n + 1,
               evidenced && !payload.InstructionSubmitted? && !payload.ResultSubmitted?);
  }

  /** A script submits only handoffs whose id is new. */
  predicate SaneHandoff(script: Script, ids: set<string>) {
    match script
    case Finish(_) => true
    case Refuse(_) => true
    case Drop(next) => SaneHandoff(next, ids)
    case Take(_, next) => SaneHandoff(next, ids)
    case Append(p, _, _, next) =>
      if p.InstructionSubmitted? then p.instruction.id !in ids && SaneHandoff(next, ids + {p.instruction.id})
      else SaneHandoff(next, ids)
  }

  lemma {:induction false} EnactHandoffs(hash: Hash<Content>, st: Store, run: string, s: Snapshot, script: Script,
                                         env: Env, n: nat)
    requires run in st.runs && run in st.events && DistinctHandoffs(st.events[run])
    requires SaneHandoff(script, HandoffIds(st.events[run]))
    requires Enact(hash, st, run, s, script, env, n).Ok?
    ensures var done := Enact(hash, st, run, s, script, env, n).value;
            run in done.store.events && DistinctHandoffs(done.store.events[run])
    decreases script
  {
    match script
    case Finish(_) =>
    case Refuse(_) =>
    case Drop(next) => EnactHandoffs(hash, Dropped(st, run), run, s, next, env, n);
    case Take(lease, next) => EnactHandoffs(hash, Leased(st, run, lease), run, s, next, env, n);
    case Append(payload, actor, key, next) =>
      var c := Content(env.mint(n), run, payload, actor, Some(key), env.now);
      var done := AppendAndSync(hash, st, run, s, c).value;
      var e := Next(hash, GENESIS, st.events[run], c);
      HandoffsNext(st.events[run], e);
      assert HandoffIds(st.events[run]) + {} == HandoffIds(st.events[run]);
      EnactHandoffs(hash, done.0, run, done.1, next, env, n + 1);
  }

  lemma {:induction false} EnactKeys(hash: Hash<Content>, st: Store, run: string, s: Snapshot, script: Script, env: Env,
                                     n: nat)
    requires run in st.runs && run in st.events && IdsIndexed(st.events, st.eventIds) && DistinctTokens(st.leases)
    requires Enact(hash, st, run, s, script, env, n).Ok?
    ensures var done := Enact(hash, st, run, s, script, env, n).value.store;
            IdsIndexed(done.events, done.eventIds) && DistinctTokens(done.leases)
    decreases script
  {
    match script
    case Finish(_) =>
    case Refuse(_) =>
    case Drop(next) => EnactKeys(hash, Dropped(st, run), run, s, next, env, n);
    case Take(lease, next) => EnactKeys(hash, Leased(st, run, lease), run, s, next, env, n);
    case Append(payload, actor, key, next) =>
      var c := Content(env.mint(n), run, payload, actor, Some(key), env.now);
      var done := AppendAndSync(hash, st, run, s, c).value;
      IndexedNext(hash, st, run, c);
      EnactKeys(hash, done.0, run, done.1, next, env, n + 1);
  }

  lemma IndexedNext(hash: Hash<Content>, st: Store, run: string, c: Content)
    requires IdsIndexed(st.events, st.eventIds)
    ensures IdsIndexed(Added(hash, st, run, c).events, Added(hash, st, run, c).eventIds)
  {
    var after := Added(hash, st, run, c);
    forall r, i | r in after.events && 0 <= i < |after.events[r]|
      ensures after.events[r][i].content.id in after.eventIds {
      if r != run || i < |Log(st, run)| {
        assert after.events[r][i] == Log(st, r)[i];
      }
    }
  }

  /** What taking the lease row of a claim and recording the claim lead to. */
  function Taken(hash: Hash<Content>, st: Store, run: string, s: Snapshot, claim: Claim, key: string, env: Env, n: nat)
    : Result<Enacted, Error>
    requires run in st.runs
  {
    if run in st.leases || LiveToken(st.leases, claim.token) then Err(Collision)
    else Enact(hash, Leased(st, run, Lease(claim.worker, claim.token, claim.expiresAt, env.now)), run, s,
               Append(TurnClaimed(claim.worker, claim.expiresAt), Worker, key, Finish(Some(claim))), env, n)
  }

  lemma GrantEnacts(hash: Hash<Content>, st: Store, run: string, s: Snapshot, i: Instruction, worker: string,
                    seconds: int, key: string, env: Env, n: nat)
    requires run in st.runs
    ensures Enact(hash, st, run, s, GrantScript(i, run, worker, seconds, key, env), env, n) ==
            Taken(hash, st, run, s, Claim(run, worker, i, env.mint(1), env.now + seconds * 1000000), key, env, n)
  {
  }

  // ---- every request's script is sane ----

  lemma ClaimSane(s: Snapshot, log: seq<Event>, lease: Option<Lease>, run: string, worker: string, seconds: int,
                  key: string, env: Env, ids: set<string>)
    requires Sound(s) && (lease.Some? <==> s.state.CodexRunning?)
    ensures SaneLease(ClaimScript(s, log, lease, run, worker, seconds, key, env), s.state.CodexRunning?, lease.Some?)
    ensures SaneEnd(ClaimScript(s, log, lease, run, worker, seconds, key, env), Evidenced(s))
    ensures SaneHandoff(ClaimScript(s, log, lease, run, worker, seconds, key, env), ids)
  {
    var i := HandedOut(s, log, Recoverable(s, lease, env.now), env);
    if i.Some? {
      var grant := GrantScript(i.value, run, worker, seconds, key, env);
      assert SaneLease(grant, false, false) && SaneEnd(grant, Evidenced(s)) && SaneHandoff(grant, ids);
    }
  }

  lemma ScriptSane(s: Snapshot, log: seq<Event>, lease: Option<Lease>, run: string, request: Request, key: string,
                   env: Env)
    requires Sound(s) && (lease.Some? <==> s.state.CodexRunning?)
    ensures SaneLease(ScriptFor(s, log, lease, run, request, key, env), s.state.CodexRunning?, lease.Some?)
    ensures SaneEnd(ScriptFor(s, log, lease, run, request, key, env), Evidenced(s))
  {
    if request.ClaimTurn? {
      ClaimSane(s, log, lease, run, request.worker, request.seconds, key, env, {});
    }
  }

  lemma ScriptHandoffs(s: Snapshot, log: seq<Event>, lease: Option<Lease>, run: string, request: Request, key: string,
                       env: Env)
    requires Sound(s) && (lease.Some? <==> s.state.CodexRunning?)
    ensures SaneHandoff(ScriptFor(s, log, lease, run, request, key, env), HandoffIds(log))
  {
    assert forall x :: x in HandoffIds(log) <==> IdUsed(log, x);
    if request.ClaimTurn? {
      ClaimSane(s, log, lease, run, request.worker, request.seconds, key, env, HandoffIds(log));
    }
  }

  // ---- one call ----

  /** The grant stored for a claim can be read back. */
  lemma {:induction false} EnactGrant(hash: Hash<Content>, st: Store, run: string, s: Snapshot, script: Script,
                                      env: Env, n: nat)
    requires run in st.runs && Enact(hash, st, run, s, script, env, n).Ok?
    ensures Enact(hash, st, run, s, script, env, n).value.grant == Grant(script)
    decreases script
  {
    match script
    case Finish(_) =>
    case Refuse(_) =>
    case Drop(next) => EnactGrant(hash, Dropped(st, run), run, s, next, env, n);
    case Take(lease, next) => EnactGrant(hash, Leased(st, run, lease), run, s, next, env, n);
    case Append(payload, actor, key, next) =>
      var c := Content(env.mint(n), run, payload, actor, Some(key), env.now);
      var done := AppendAndSync(hash, st, run, s, c).value;
      EnactGrant(hash, done.0, run, done.1, next, env, n + 1);
  }

  function Grant(script: Script): Option<Claim> {
    match script
    case Finish(grant) => grant
    case Refuse(_) => None
    case Drop(next) => Grant(next)
    case Take(_, next) => Grant(next)
    case Append(_, _, _, next) => Grant(next)
  }

  lemma {:induction false} EnactRefused(hash: Hash<Content>, st: Store, run: string, s: Snapshot, script: Script,
                                        env: Env, n: nat)
    requires run in st.runs && Refused(script)
    ensures Enact(hash, st, run, s, script, env, n).Err?
    decreases script
  {
    match script
    case Finish(_) =>
    case Refuse(_) =>
    case Drop(next) => EnactRefused(hash, Dropped(st, run), run, s, next, env, n);
    case Take(lease, next) => if !(run in st.leases || LiveToken(st.leases, lease.token)) {
      EnactRefused(hash, Leased(st, run, lease), run, s, next, env, n);
    }
    case Append(payload, actor, key, next) =>
      var c := Content(env.mint(n), run, payload, actor, Some(key), env.now);
      var done := AppendAndSync(hash, st, run, s, c);
      if done.Ok? {
        EnactRefused(hash, done.value.0, run, done.value.1, next, env, n + 1);
      }
  }

  predicate Refused(script: Script) {
    match script
    case Finish(_) => false
    case Refuse(_) => true
    case Drop(next) => Refused(next)
    case Take(_, next) => Refused(next)
    case Append(_, _, _, next) => Refused(next)
  }

  lemma ClaimGrant(s: Snapshot, log: seq<Event>, lease: Option<Lease>, run: string, worker: string, seconds: int,
                   key: string, env: Env)
    ensures var script := ClaimScript(s, log, lease, run, worker, seconds, key, env);
            !Refused(script) ==>
              Grant(script).Some? && Some(Grant(script).value.instruction) ==
                HandedOut(s, log, Recoverable(s, lease, env.now), env)
  {
    var script := ClaimScript(s, log, lease, run, worker, seconds, key, env);
    var i := HandedOut(s, log, Recoverable(s, lease, env.now), env);
    if i.Some? {
      var grant := GrantScript(i.value, run, worker, seconds, key, env);
      var claim := Claim(run, worker, i.value, env.mint(1), env.now + seconds * 1000000);
      assert Grant(grant.next) == Some(claim) && Grant(grant) == Some(claim);
      assert Recoverable(s, lease, env.now) ==>
               script == Drop(Append(LeaseExpired, System, "lease-expired:" + env.mint(4), grant));
    } else if script.Drop? {
      assert Refused(script.next);
    }
  }

  lemma GrantOf(s: Snapshot, log: seq<Event>, lease: Option<Lease>, run: string, request: Request, key: string,
                env: Env)
    requires !Refused(ScriptFor(s, log, lease, run, request, key, env))
    ensures var grant := Grant(ScriptFor(s, log, lease, run, request, key, env));
            && (grant.Some? <==> request.ClaimTurn?)
            && (grant.Some? ==> Some(grant.value.instruction) == HandedOut(s, log, Recoverable(s, lease, env.now), env))
  {
    var script := ScriptFor(s, log, lease, run, request, key, env);
    if request.ClaimTurn? {
      ClaimGrant(s, log, lease, run, request.worker, request.seconds, key, env);
    } else if script.Drop? || (script.Append? && script.next.Append?) {
      assert Grant(script.next) == None;
    }
  }

  lemma SnapshotOk(hash: Hash<Content>, st: Store, run: string, s: Snapshot)
    requires run in st.runs && run in st.events && LogOk(hash, run, st.runs[run], st.events[run], s)
    ensures SnapshotOf(hash, st, run) == Ok(s)
  {
  }

  /** One reading of the run: what all agree on, with the current handoff under the id it mints. */
  lemma ReadRunSees(hash: Hash<Content>, st: Store, run: string, s: Snapshot, mints: nat -> Uuid)
    requires SnapshotOf(hash, st, run) == Ok(s)
    ensures ReadRun(hash, st, run, mints) == Ok(Seen(s, MintedIn(Log(st, run), mints)))
  {
    ReplaySees(hash, Log(st, run), mints);
  }

  /** What is known of one run between calls. */
  ghost predicate Settled(hash: Hash<Content>, st: Store, run: string, s: Snapshot) {
    && run in st.runs && run in st.events && LogOk(hash, run, st.runs[run], st.events[run], s)
    && (run in st.leases <==> s.state.CodexRunning?) && (s.state.CompleteState? ==> Evidenced(s))
    && DistinctHandoffs(st.events[run])
  }

  /** A script with nothing improper in it. */
  ghost predicate Sane(script: Script, s: Snapshot, leased: bool, log: seq<Event>) {
    && SaneLease(script, s.state.CodexRunning?, leased)
    && SaneEnd(script, Evidenced(s))
    && SaneHandoff(script, HandoffIds(log))
  }

  /** A proper script that succeeds leaves its run settled. */
  lemma EnactSettles(hash: Hash<Content>, st: Store, run: string, s: Snapshot, script: Script, env: Env, n: nat,
                     done: Enacted)
    requires Settled(hash, st, run, s) && Sane(script, s, run in st.leases, st.events[run])
    requires Enact(hash, st, run, s, script, env, n) == Ok(done)
    ensures Settled(hash, done.store, run, done.snapshot)
  {
    EnactLog(hash, st, run, s, script, env, n);
    EnactLease(hash, st, run, s, script, env, n);
    EnactEnd(hash, st, run, s, script, env, n, Evidenced(s));
    EnactHandoffs(hash, st, run, s, script, env, n);
  }

  lemma EnactAgrees(hash: Hash<Content>, st: Store, run: string, s: Snapshot, script: Script, env: Env, n: nat,
                    done: Enacted)
    requires Agree(hash, st) && Settled(hash, st, run, s) && Sane(script, s, run in st.leases, st.events[run])
    requires Enact(hash, st, run, s, script, env, n) == Ok(done)
    ensures Agree(hash, done.store) && OnlyRun(st, done.store, run)
  {
    EnactSettles(hash, st, run, s, script, env, n, done);
    EnactOnly(hash, st, run, s, script, env, n);
    EnactKeys(hash, st, run, s, script, env, n);
    RunsOkUpdate(hash, st, done.store, run, done.snapshot);
  }

  ghost predicate RunsOk(hash: Hash<Content>, runs: map<string, Row>, events: map<string, seq<Event>>,
                         leases: map<string, Lease>)
    requires events.Keys == runs.Keys
  {
    forall r {:trigger RunAt(hash, runs, events, leases, r)} :: r in runs ==> RunAt(hash, runs, events, leases, r)
  }

  ghost predicate RunAt(hash: Hash<Content>, runs: map<string, Row>, events: map<string, seq<Event>>,
                        leases: map<string, Lease>, r: string)
    requires r in runs && r in events
  {
    RunOk(hash, r, runs[r], events[r], r in leases)
  }

  lemma RunsOkUpdate(hash: Hash<Content>, st: Store, st': Store, run: string, t: Snapshot)
    requires st.events.Keys == st.runs.Keys && RunsOk(hash, st.runs, st.events, st.leases) && run in st.runs
             && OnlyRun(st, st', run)
    requires Settled(hash, st', run, t)
    ensures RunsOk(hash, st'.runs, st'.events, st'.leases)
  {
    forall r | r in st'.runs ensures RunAt(hash, st'.runs, st'.events, st'.leases, r) {
      if r != run {
        assert RunAt(hash, st.runs, st.events, st.leases, r);
      }
    }
  }

  ghost predicate OperationsOk(operations: map<(string, string), Operation>, runs: set<string>) {
    forall k :: k in operations ==> Answerable(operations[k], runs)
  }

  lemma RunOperationAnswerable(hash: Hash<Content>, st: Store, run: string, s: Snapshot, request: Request, key: string,
                               env: Env, done: Enacted)
    requires run in st.runs && ReadBack(s) && !request.CreateRun?
    requires Enact(hash, st, run, s, ScriptFor(s, Log(st, run), LeaseOf(st, run), run, request, key, env), env, 2) ==
             Ok(done)
    ensures Answerable(OperationOf(request, done, env.now), st.runs.Keys)
    ensures done.grant.Some? <==> request.ClaimTurn?
  {
    var script := ScriptFor(s, Log(st, run), LeaseOf(st, run), run, request, key, env);
    if Refused(script) {
      EnactRefused(hash, st, run, s, script, env, 2);
    }
    EnactGrant(hash, st, run, s, script, env, 2);
    GrantOf(s, Log(st, run), LeaseOf(st, run), run, request, key, env);
    if s.instruction.Some? {
      HandedOutReads(s.instruction.value,
                     MintedIn(Log(st, run), env.replays(if Recoverable(s, LeaseOf(st, run), env.now) then 2 else 0)));
    }
  }

  /** A handoff handed out has an id, and reads back as itself. */
  lemma HandedOutReads(i: Instruction, minted: Uuid)
    requires Kept(i) == Some(i)
    ensures ReadInstruction(Named(i, minted)) == Some(Named(i, minted))
  {
    ReadingNames(i, minted);
  }

  lemma RequestSane(hash: Hash<Content>, st: Store, run: string, s: Snapshot, request: Request, key: string, env: Env)
    requires Settled(hash, st, run, s)
    ensures Sane(ScriptFor(s, st.events[run], LeaseOf(st, run), run, request, key, env), s, run in st.leases,
                 st.events[run])
  {
    ScriptSane(s, st.events[run], LeaseOf(st, run), run, request, key, env);
    ScriptHandoffs(s, st.events[run], LeaseOf(st, run), run, request, key, env);
  }

  lemma RememberKeeps(hash: Hash<Content>, st: Store, scope: string, key: string, op: Operation)
    requires Coherent(hash, st) && Answerable(op, st.runs.Keys)
    ensures Coherent(hash, Remembered(st, scope, key, op))
  {
    var more := Remembered(st, scope, key, op).operations;
    forall k | k in more ensures Answerable(more[k], st.runs.Keys) {
      assert k == (scope, key) || k in st.operations;
    }
  }

  lemma FreshRunKeeps(hash: Hash<Content>, st: Store, run: string, s: Snapshot, script: Script, request: Request,
                      key: string, env: Env, done: Enacted)
    requires Coherent(hash, st) && Settled(hash, st, run, s) && Sane(script, s, run in st.leases, st.events[run])
    requires Enact(hash, st, run, s, script, env, 2) == Ok(done)
             && Answerable(OperationOf(request, done, env.now), st.runs.Keys)
    ensures Coherent(hash, Concluded(done, run, key, request, env).0)
  {
    EnactAgrees(hash, st, run, s, script, env, 2, done);
    assert done.store.operations == st.operations && done.store.runs.Keys == st.runs.Keys;
    RememberKeeps(hash, done.store, run, key, OperationOf(request, done, env.now));
  }

  lemma RunSnapshot(hash: Hash<Content>, st: Store, run: string) returns (s: Snapshot)
    requires Agree(hash, st) && run in st.runs
    ensures Settled(hash, st, run, s) && SnapshotOf(hash, st, run) == Ok(s)
  {
    assert RunAt(hash, st.runs, st.events, st.leases, run);
    s :| LogOk(hash, run, st.runs[run], st.events[run], s) && (run in st.leases <==> s.state.CodexRunning?)
         && (s.state.CompleteState? ==> Evidenced(s)) && DistinctHandoffs(st.events[run]);
    SnapshotOk(hash, st, run, s);
  }

  /** What a first delivery to a run does: one script, enacted from the run's snapshot. */
  lemma RunEnacts(hash: Hash<Content>, st: Store, run: string, request: Request, key: string, env: Env)
    returns (s: Snapshot, script: Script, done: Enacted)
    requires Agree(hash, st) && (run, key) !in st.operations && HandleRun(hash, st, run, request, key, env).Ok?
    ensures Settled(hash, st, run, s)
            && script == ScriptFor(s, st.events[run], LeaseOf(st, run), run, request, key, env)
    ensures Enact(hash, st, run, s, script, env, 2) == Ok(done)
    ensures HandleRun(hash, st, run, request, key, env) == Ok(Concluded(done, run, key, request, env))
    ensures OnlyRun(st, done.store, run)
  {
    s := RunSnapshot(hash, st, run);
    script := ScriptFor(s, st.events[run], LeaseOf(st, run), run, request, key, env);
    done := Enact(hash, st, run, s, script, env, 2).value;
    EnactOnly(hash, st, run, s, script, env, 2);
  }

  lemma HandleRunKeeps(hash: Hash<Content>, st: Store, run: string, request: Request, key: string, env: Env)
    requires Coherent(hash, st) && !request.CreateRun? && HandleRun(hash, st, run, request, key, env).Ok?
    ensures Coherent(hash, HandleRun(hash, st, run, request, key, env).value.0)
  {
    if (run, key) !in st.operations {
      var s, script, done := RunEnacts(hash, st, run, request, key, env);
      RequestSane(hash, st, run, s, request, key, env);
      RunOperationAnswerable(hash, st, run, s, request, key, env, done);
      FreshRunKeeps(hash, st, run, s, script, request, key, env, done);
    }
  }

  // ---- creating a run ----

  lemma FirstEvent(hash: Hash<Content>, run: string, first: Content, s: Snapshot)
    requires Create(first) == Ok(s) && first.run == run
             && Required(first.payload.objective) == Some(first.payload.objective)
    ensures LogOk(hash, run, NewRow(first.payload.objective, first.payload.maxIterations, first.payload.policy,
                                    first.at), [Next(hash, GENESIS, [], first)], s)
  {
    var e := Next(hash, GENESIS, [], first);
    ExtendsLinked(hash, GENESIS, [], e);
    assert [] + [e] == [e] && Contents([e]) == [first];
  }

  /** A run is born settled, in PLANNING, with its two events and version two. */
  lemma OpenedSettled(hash: Hash<Content>, st: Store, run: string, objective: string, max: int, policy: Policy,
                      key: string, env: Env, done: Store, t: Snapshot)
    requires Agree(hash, st) && Required(objective) == Some(objective)
    requires Opened(hash, st, run, objective, max, policy, key, env) == Ok((done, t))
    ensures Settled(hash, done, run, t)
  {
    var first := Content(env.mint(2), run, RunCreated(objective, max, policy), Control, Some(key + ":created"),
                         env.now);
    var planning := Content(env.mint(3), run, PlanningStarted, System, Some(key + ":planning"), env.now);
    var s := Create(first).value;
    var row, log := NewRow(objective, max, policy, env.now), [Next(hash, GENESIS, [], first)];
    FirstEvent(hash, run, first, s);
    LogOkNext(hash, run, row, log, s, planning, t, env.now);
    OpenedRows(hash, st, run, objective, max, policy, key, env, done, t, first, planning);
  }

  lemma OpenedRows(hash: Hash<Content>, st: Store, run: string, objective: string, max: int, policy: Policy,
                   key: string, env: Env, done: Store, t: Snapshot, first: Content, planning: Content)
    requires st.events.Keys == st.runs.Keys && st.leases.Keys <= st.runs.Keys
    requires Opened(hash, st, run, objective, max, policy, key, env) == Ok((done, t))
    requires first == Content(env.mint(2), run, RunCreated(objective, max, policy), Control, Some(key + ":created"),
                              env.now)
    requires planning == Content(env.mint(3), run, PlanningStarted, System, Some(key + ":planning"), env.now)
    ensures Create(first).Ok? && Apply(Create(first).value, planning) == Ok(t)
    ensures var row, log := NewRow(objective, max, policy, env.now), [Next(hash, GENESIS, [], first)];
            && run in done.runs && run in done.events && run !in done.leases
            && done.runs[run] == row.(state := t.state, iteration := t.iteration, updatedAt := env.now, version := 2)
            && done.events[run] == log + [Next(hash, GENESIS, log, planning)]
  {
    assert run !in st.events;
  }

  /** Creating a run adds one row and its events, and touches no other run. */
  ghost predicate OnlyAdded(st: Store, st': Store, run: string) {
    && run !in st.runs && st'.runs.Keys == st.runs.Keys + {run}
       && (forall r :: r in st.runs ==> st'.runs[r] == st.runs[r])
    && st'.events.Keys == st.events.Keys + {run} && (forall r :: r in st.events ==> st'.events[r] == st.events[r])
    && st'.leases == st.leases && st'.operations == st.operations && st'.artifacts == st.artifacts
    && st.eventIds <= st'.eventIds
  }

  lemma AppendOnly(hash: Hash<Content>, st: Store, run: string, s: Snapshot, c: Content, done: Store, t: Snapshot)
    requires run in st.runs && run in st.events && AppendAndSync(hash, st, run, s, c) == Ok((done, t))
    ensures OnlyRun(st, done, run) && done.leases == st.leases
  {
  }

  lemma AddedOnly(hash: Hash<Content>, st: Store, run: string, row: Row, c: Content)
    requires st.events.Keys == st.runs.Keys && run !in st.runs
    ensures OnlyAdded(st, Added(hash, st.(runs := st.runs[run := row]), run, c), run)
  {
    assert run !in st.events;
  }

  lemma OpenedOnly(hash: Hash<Content>, st: Store, run: string, objective: string, max: int, policy: Policy,
                   key: string, env: Env, done: Store, t: Snapshot)
    requires Agree(hash, st)
    requires Opened(hash, st, run, objective, max, policy, key, env) == Ok((done, t))
    ensures OnlyAdded(st, done, run)
  {
    var first := Content(env.mint(2), run, RunCreated(objective, max, policy), Control, Some(key + ":created"),
                         env.now);
    var planning := Content(env.mint(3), run, PlanningStarted, System, Some(key + ":planning"), env.now);
    var row := NewRow(objective, max, policy, env.now);
    var mid := Added(hash, st.(runs := st.runs[run := row]), run, first);
    AddedOnly(hash, st, run, row, first);
    AppendOnly(hash, mid, run, Create(first).value, planning, done, t);
  }

  lemma OpenedIndexed(hash: Hash<Content>, st: Store, run: string, objective: string, max: int, policy: Policy,
                      key: string, env: Env, done: Store, t: Snapshot)
    requires Agree(hash, st)
    requires Opened(hash, st, run, objective, max, policy, key, env) == Ok((done, t))
    ensures IdsIndexed(done.events, done.eventIds)
  {
    var first := Content(env.mint(2), run, RunCreated(objective, max, policy), Control, Some(key + ":created"),
                         env.now);
    var planning := Content(env.mint(3), run, PlanningStarted, System, Some(key + ":planning"), env.now);
    var row := NewRow(objective, max, policy, env.now);
    IndexedNext(hash, st.(runs := st.runs[run := row]), run, first);
    IndexedNext(hash, Added(hash, st.(runs := st.runs[run := row]), run, first), run, planning);
  }

  lemma OpenedAgrees(hash: Hash<Content>, st: Store, done: Store, run: string, t: Snapshot)
    requires Agree(hash, st) && OnlyAdded(st, done, run) && Settled(hash, done, run, t)
    requires IdsIndexed(done.events, done.eventIds)
    ensures Agree(hash, done)
  {
    forall r | r in done.runs ensures RunOk(hash, r, done.runs[r], done.events[r], r in done.leases) {
      if r != run {
        assert RunAt(hash, st.runs, st.events, st.leases, r);
      }
    }
  }

  lemma OperationsGrow(operations: map<(string, string), Operation>, runs: set<string>, more: set<string>)
    requires OperationsOk(operations, runs) && runs <= more
    ensures OperationsOk(operations, more)
  {
    forall k | k in operations ensures Answerable(operations[k], more) {
      assert Answerable(operations[k], runs);
    }
  }

  lemma HandleCreateKeeps(hash: Hash<Content>, config: Config, st: Store, objective: string, max: int, key: string,
                          env: Env)
    requires Coherent(hash, st) && Required(objective) == Some(objective)
    requires HandleCreate(hash, config, st, objective, max, key, env).Ok?
    ensures Coherent(hash, HandleCreate(hash, config, st, objective, max, key, env).value.0)
  {
    if (CREATE_SCOPE, key) !in st.operations {
      var run := env.mint(1);
      var (done, t) := Opened(hash, st, run, objective, max, config.policy, key, env).value;
      OpenedSettled(hash, st, run, objective, max, config.policy, key, env, done, t);
      OpenedOnly(hash, st, run, objective, max, config.policy, key, env, done, t);
      OpenedIndexed(hash, st, run, objective, max, config.policy, key, env, done, t);
      OpenedAgrees(hash, st, done, run, t);
      OperationsGrow(st.operations, st.runs.Keys, done.runs.Keys);
      RememberKeeps(hash, done, CREATE_SCOPE, key, Operation(CreateRun(objective, max), Created(run), env.now));
    }
  }

  lemma ReadCreate(config: Config, input: Input, env: Env)
    ensures Read(config, input, env).Ok? && Read(config, input, env).value.CreateRun? ==>
              Required(Read(config, input, env).value.objective) == Some(Read(config, input, env).value.objective)
  {
    if input.Begin? && Required(input.objective).Some? {
      TightStrip(Strip(input.objective));
    }
  }

  lemma ReadKind(config: Config, input: Input, env: Env)
    ensures Read(config, input, env).Ok? ==> (Read(config, input, env).value.CreateRun? <==> input.Begin?)
  {
  }

  /** A successful call is a creation or a delivery to the run it names. */
  lemma Dispatch(hash: Hash<Content>, config: Config, st: Store, call: Call, env: Env)
    returns (request: Request, key: string)
    requires Handle(hash, config, st, call, env).Ok?
    ensures Read(config, call.input, env) == Ok(request) && KeyFor(call.key, env) == Ok(key)
    ensures request.CreateRun? <==> call.input.Begin?
    ensures !request.CreateRun? ==> HandleRun(hash, st, call.run, request, key, env).Ok?
                                    && After(hash, config, st, call, env) ==
                                       HandleRun(hash, st, call.run, request, key, env).value.0
    ensures request.CreateRun? ==>
              var r := HandleCreate(hash, config, st, request.objective, request.maxIterations, key, env);
              r.Ok? && After(hash, config, st, call, env) == r.value.0
  {
    ReadKind(config, call.input, env);
    request, key := Read(config, call.input, env).value, KeyFor(call.key, env).value;
  }

  /** Every public call keeps the tables in agreement. */
  lemma CallKeeps(hash: Hash<Content>, config: Config, st: Store, call: Call, env: Env)
    requires Coherent(hash, st)
    ensures Coherent(hash, After(hash, config, st, call, env))
  {
    if Handle(hash, config, st, call, env).Ok? {
      var request, key := Dispatch(hash, config, st, call, env);
      ReadCreate(config, call.input, env);
      if request.CreateRun? {
        HandleCreateKeeps(hash, config, st, request.objective, request.maxIterations, key, env);
      } else {
        HandleRunKeeps(hash, st, call.run, request, key, env);
      }
    }
  }

  // ---- repeated deliveries ----

  /** The operation slot a call goes to. */
  function Slot(config: Config, call: Call, env: Env): Option<(string, string)> {
    match (Read(config, call.input, env), KeyFor(call.key, env))
    case (Ok(request), Ok(key)) => Some((if request.CreateRun? then CREATE_SCOPE else call.run, key))
    case _ => None
  }

  predicate Spent(config: Config, st: Store, call: Call, env: Env) {
    Slot(config, call, env).Some? && Slot(config, call, env).value in st.operations
  }

  /** A call whose key is used leaves every table as it is, answered or refused. */
  lemma SpentChangesNothing(hash: Hash<Content>, config: Config, st: Store, call: Call, env: Env)
    requires Spent(config, st, call, env)
    ensures After(hash, config, st, call, env) == st
  {
  }

  lemma CreateSpends(hash: Hash<Content>, config: Config, st: Store, objective: string, max: int, key: string, env: Env)
    requires Coherent(hash, st) && HandleCreate(hash, config, st, objective, max, key, env).Ok?
    ensures HandleCreate(hash, config, st, objective, max, key, env).value.0.operations.Keys ==
            st.operations.Keys + {(CREATE_SCOPE, key)}
  {
    if (CREATE_SCOPE, key) !in st.operations {
      var (done, t) := Opened(hash, st, env.mint(1), objective, max, config.policy, key, env).value;
      OpenedOnly(hash, st, env.mint(1), objective, max, config.policy, key, env, done, t);
      RememberSpends(done, CREATE_SCOPE, key, Operation(CreateRun(objective, max), Created(env.mint(1)), env.now));
    }
  }

  lemma RememberSpends(st: Store, scope: string, key: string, op: Operation)
    ensures Remembered(st, scope, key, op).operations.Keys == st.operations.Keys + {(scope, key)}
  {
    KeysAfter(st.operations, (scope, key), op);
  }

  lemma RepeatSame(hash: Hash<Content>, st: Store, run: string, request: Request, key: string, env: Env)
    requires (run, key) in st.operations && HandleRun(hash, st, run, request, key, env).Ok?
    ensures HandleRun(hash, st, run, request, key, env).value.0 == st
  {
  }

  lemma RunSpends(hash: Hash<Content>, st: Store, run: string, request: Request, key: string, env: Env, after: Store)
    requires Coherent(hash, st) && HandleRun(hash, st, run, request, key, env).Ok?
    requires after == HandleRun(hash, st, run, request, key, env).value.0
    ensures after.operations.Keys == st.operations.Keys + {(run, key)}
  {
    if (run, key) in st.operations {
      RepeatSame(hash, st, run, request, key, env);
      assert {(run, key)} <= st.operations.Keys;
    } else {
      var s, script, done := RunEnacts(hash, st, run, request, key, env);
      var op := OperationOf(request, done, env.now);
      assert after == Remembered(done.store, run, key, op);
      RememberSpends(done.store, run, key, op);
    }
  }

  /** A key is used up exactly by the call that succeeds with it. */
  lemma SuccessSpendsKey(hash: Hash<Content>, config: Config, st: Store, call: Call, env: Env)
    requires Coherent(hash, st)
    ensures After(hash, config, st, call, env).operations.Keys ==
            st.operations.Keys + if Handle(hash, config, st, call, env).Ok? then {Slot(config, call, env).value} else {}
  {
    if Handle(hash, config, st, call, env).Ok? {
      var request, key := Dispatch(hash, config, st, call, env);
      if request.CreateRun? {
        CreateSpends(hash, config, st, request.objective, request.maxIterations, key, env);
      } else {
        RunSpends(hash, st, call.run, request, key, env, After(hash, config, st, call, env));
      }
    }
  }

  predicate Retried(config: Config, st: Store, move: Move) {
    move.Called? && Spent(config, st, move.call, move.env)
  }

  /** A schedule without the calls whose key was used when they arrived. */
  ghost function Erased(hash: Hash<Content>, config: Config, st: Store, moves: seq<Move>): seq<Move> {
    if moves == [] then []
    else
      var short, last := moves[..|moves| - 1], moves[|moves| - 1];
      Erased(hash, config, st, short) + if Retried(config, AfterAll(hash, config, st, short), last) then [] else [last]
  }

  /** Retries can be deleted from any schedule without changing a table. */
  lemma {:induction false} RetryErasure(hash: Hash<Content>, config: Config, st: Store, moves: seq<Move>)
    ensures AfterAll(hash, config, st, Erased(hash, config, st, moves)) == AfterAll(hash, config, st, moves)
    decreases |moves|
  {
    if moves != [] {
      var short, last := moves[..|moves| - 1], moves[|moves| - 1];
      RetryErasure(hash, config, st, short);
      var kept := Erased(hash, config, st, short);
      if Retried(config, AfterAll(hash, config, st, short), last) {
        SpentChangesNothing(hash, config, AfterAll(hash, config, st, short), last.call, last.env);
        assert kept + [] == kept;
      } else {
        assert (kept + [last])[..|kept|] == kept;
      }
    }
  }

  /** The same request again is answered: a claim with the stored claim, anything else with the run's
      present snapshot. A different request under the key is refused. */
  lemma RetryAnswer(hash: Hash<Content>, config: Config, st: Store, call: Call, env: Env)
    requires Coherent(hash, st) && Spent(config, st, call, env)
    ensures var request, op := Read(config, call.input, env).value, st.operations[Slot(config, call, env).value];
            match Handle(hash, config, st, call, env)
            case Ok((_, Claimed(claim))) => op.request == request
                                            && op.response == Granted(claim.(run := op.response.claim.run))
            case Ok((_, Current(s))) => op.request == request && !request.ClaimTurn?
                                        && ReadRun(hash, st, if request.CreateRun? then op.response.run else call.run,
                                                   env.replays(0)) == Ok(s)
            case Err(e) => if !request.CreateRun? && call.run !in st.runs then e == NotFound
                           else op.request != request && e == DuplicateDelivery
  {
    var request, slot := Read(config, call.input, env).value, Slot(config, call, env).value;
    assert Answerable(st.operations[slot], st.runs.Keys);
    if st.operations[slot].request == request && !request.ClaimTurn? && (request.CreateRun? || call.run in st.runs) {
      var run := if request.CreateRun? then st.operations[slot].response.run else call.run;
      var s := RunSnapshot(hash, st, run);
      ReadRunSees(hash, st, run, s, env.replays(0));
    }
  }

  /** A handoff sent without an id: the first delivery is recorded under the id minted for it. */
  predicate Unnamed(call: Call) {
    && call.input.Submit? && call.input.handoff.MappedHandoff?
    && (call.input.handoff.id.None? || call.input.handoff.id.value == "")
  }

  lemma UnnamedReads(config: Config, call: Call, env: Env, again: Env)
    requires Unnamed(call) && Read(config, call.input, env).Ok?
    ensures Read(config, call.input, again).Ok?
    ensures Read(config, call.input, again) == Read(config, call.input, env) <==> again.mint(5) == env.mint(5)
    ensures Read(config, call.input, env).value.SubmitInstruction?
  {
    TightStrip(env.mint(5));
    TightStrip(again.mint(5));
  }

  /** The very same call sent again is refused exactly when another id is minted for it, since the minted
      id is part of the request that the key stands for; and either way it changes no table. */
  lemma UnnamedRetry(hash: Hash<Content>, config: Config, st: Store, call: Call, env: Env, again: Env)
    requires Coherent(hash, st) && Unnamed(call) && call.key.Some? && Slot(config, call, env).Some?
    requires !Spent(config, st, call, env) && Handle(hash, config, st, call, env).Ok?
    ensures var after := After(hash, config, st, call, env);
            && (Handle(hash, config, after, call, again) == Err(DuplicateDelivery) <==> again.mint(5) != env.mint(5))
            && After(hash, config, after, call, again) == after
  {
    var after := After(hash, config, st, call, env);
    var request, key := Dispatch(hash, config, st, call, env);
    UnnamedReads(config, call, env, again);
    var s, script, done := RunEnacts(hash, st, call.run, request, key, env);
    CallKeeps(hash, config, st, call, env);
    assert after == Remembered(done.store, call.run, key, OperationOf(request, done, env.now));
    assert call.run in after.runs;
    RetryAnswer(hash, config, after, call, again);
    SpentChangesNothing(hash, config, after, call, again);
  }
}
