/** What calls leave alone: other runs, ended runs, dead tokens; and what the lease sweep recovers. */
module LeaseLaws {
  import opened Common
  import opened HashChain
  import opened Protocol
  import opened ProtocolLaws
  import opened Ledger
  import opened LedgerLaws

  // ---- ended runs ----

  /** No row of `run` differs. */
  ghost predicate SameRun(st: Store, st': Store, run: string) {
    && (run in st.runs <==> run in st'.runs) && (run in st.runs ==> st'.runs[run] == st.runs[run])
    && (run in st.events <==> run in st'.events) && (run in st.events ==> st'.events[run] == st.events[run])
    && (run in st.leases <==> run in st'.leases) && (run in st.leases ==> st'.leases[run] == st.leases[run])
  }

  lemma {:induction false} EnactTerminal(hash: Hash<Content>, st: Store, run: string, s: Snapshot, script: Script,
                                         env: Env, n: nat)
    requires run in st.runs && s.state.Terminal() && Enact(hash, st, run, s, script, env, n).Ok?
    ensures var done := Enact(hash, st, run, s, script, env, n).value;
            done.store.runs == st.runs && done.store.events == st.events && done.snapshot == s
    decreases script
  {
    match script
    case Finish(_) =>
    case Refuse(_) =>
    case Drop(next) => EnactTerminal(hash, Dropped(st, run), run, s, next, env, n);
    case Take(lease, next) => EnactTerminal(hash, Leased(st, run, lease), run, s, next, env, n);
    case Append(payload, actor, key, next) =>
      TerminalAbsorbs(s, Content(env.mint(n), run, payload, actor, Some(key), env.now));
  }

  lemma RunCallElsewhere(hash: Hash<Content>, st: Store, run: string, request: Request, key: string, env: Env,
                         after: Store, other: string)
    requires Agree(hash, st) && other != run && HandleRun(hash, st, run, request, key, env).Ok?
    requires after == HandleRun(hash, st, run, request, key, env).value.0
    ensures SameRun(st, after, other)
  {
    if (run, key) in st.operations {
      RepeatSame(hash, st, run, request, key, env);
    } else {
      var s, script, done := RunEnacts(hash, st, run, request, key, env);
      assert after == Remembered(done.store, run, key, OperationOf(request, done, env.now));
    }
  }

  lemma CreateElsewhere(hash: Hash<Content>, config: Config, st: Store, objective: string, max: int, key: string,
                        env: Env, after: Store, other: string)
    requires Agree(hash, st) && other in st.runs && HandleCreate(hash, config, st, objective, max, key, env).Ok?
    requires after == HandleCreate(hash, config, st, objective, max, key, env).value.0
    ensures SameRun(st, after, other)
  {
    if (CREATE_SCOPE, key) !in st.operations {
      var (done, t) := Opened(hash, st, env.mint(1), objective, max, config.policy, key, env).value;
      OpenedOnly(hash, st, env.mint(1), objective, max, config.policy, key, env, done, t);
    }
  }

  /** A call rewrites the rows of no run but the one it names; creation rewrites none. */
  lemma OthersUntouched(hash: Hash<Content>, config: Config, st: Store, call: Call, env: Env, other: string)
    requires Coherent(hash, st) && other in st.runs && (call.run != other || call.input.Begin?)
    ensures SameRun(st, After(hash, config, st, call, env), other)
  {
    if Handle(hash, config, st, call, env).Ok? {
      var request, key := Dispatch(hash, config, st, call, env);
      if request.CreateRun? {
        CreateElsewhere(hash, config, st, request.objective, request.maxIterations, key, env,
                        After(hash, config, st, call, env), other);
      } else {
        RunCallElsewhere(hash, st, call.run, request, key, env, After(hash, config, st, call, env), other);
      }
    }
  }

  lemma TerminalCall(hash: Hash<Content>, st: Store, run: string, request: Request, key: string, env: Env, s: Snapshot,
                     after: Store)
    requires Coherent(hash, st) && Settled(hash, st, run, s) && s.state.Terminal() && !request.CreateRun?
    requires HandleRun(hash, st, run, request, key, env).Ok?
             && after == HandleRun(hash, st, run, request, key, env).value.0
    ensures after.runs == st.runs && after.events == st.events
  {
    if (run, key) in st.operations {
      RepeatSame(hash, st, run, request, key, env);
    } else {
      var s', script, done := RunEnacts(hash, st, run, request, key, env);
      EnactTerminal(hash, st, run, s', script, env, 2);
      assert after == Remembered(done.store, run, key, OperationOf(request, done, env.now));
    }
  }

  lemma TerminalOwn(hash: Hash<Content>, config: Config, st: Store, call: Call, env: Env, s: Snapshot, after: Store)
    requires Coherent(hash, st) && Settled(hash, st, call.run, s) && s.state.Terminal() && !call.input.Begin?
    requires after == After(hash, config, st, call, env)
    ensures after.runs == st.runs && after.events == st.events
  {
    if Handle(hash, config, st, call, env).Ok? {
      var request, key := Dispatch(hash, config, st, call, env);
      TerminalCall(hash, st, call.run, request, key, env, s, after);
    }
  }

  lemma TerminalStep(hash: Hash<Content>, config: Config, st: Store, call: Call, env: Env, run: string, s: Snapshot,
                     after: Store)
    requires Coherent(hash, st) && Settled(hash, st, run, s) && s.state.Terminal()
    requires after == After(hash, config, st, call, env)
    ensures run in after.runs && after.runs[run] == st.runs[run] && run in after.events
            && after.events[run] == st.events[run]
  {
    if call.run != run || call.input.Begin? {
      OthersUntouched(hash, config, st, call, env, run);
    } else {
      TerminalOwn(hash, config, st, call, env, s, after);
    }
  }

  lemma StillSettled(hash: Hash<Content>, st: Store, after: Store, run: string, s: Snapshot)
    requires Settled(hash, st, run, s) && Agree(hash, after) && !s.state.CodexRunning?
    requires run in after.runs && after.runs[run] == st.runs[run] && run in after.events
             && after.events[run] == st.events[run]
    ensures SameRun(st, after, run) && Settled(hash, after, run, s)
  {
    var t := RunSnapshot(hash, after, run);
  }

  // ---- tokens ----

  /** The lease token a worker's request presents. */
  function Presented(request: Request): Option<string> {
    match request
    case SubmitResult(_, token, _) => Some(token)
    case ReportProgress(_, token, _) => Some(token)
    case ReportBlocker(_, token, _) => Some(token)
    case _ => None
  }

  lemma DeadTokenRefused(hash: Hash<Content>, st: Store, run: string, request: Request, key: string, env: Env)
    requires Agree(hash, st) && Presented(request).Some? && !LiveToken(st.leases, Presented(request).value)
    ensures (run, key) !in st.operations ==> HandleRun(hash, st, run, request, key, env).Err?
  {
    if run in st.runs {
      var s := RunSnapshot(hash, st, run);
      assert ScriptFor(s, Log(st, run), LeaseOf(st, run), run, request, key, env).Refuse?;
    }
  }

  /** A worker whose token is not live changes nothing. */
  lemma DeadTokenCall(hash: Hash<Content>, st: Store, run: string, request: Request, key: string, env: Env)
    requires Agree(hash, st) && Presented(request).Some? && !LiveToken(st.leases, Presented(request).value)
    requires HandleRun(hash, st, run, request, key, env).Ok?
    ensures HandleRun(hash, st, run, request, key, env).value.0 == st
  {
    DeadTokenRefused(hash, st, run, request, key, env);
    RepeatSame(hash, st, run, request, key, env);
  }

  lemma DeadTokenSilent(hash: Hash<Content>, config: Config, st: Store, call: Call, env: Env, token: string)
    requires Coherent(hash, st) && !LiveToken(st.leases, token)
    requires Read(config, call.input, env).Ok? && Presented(Read(config, call.input, env).value) == Some(token)
    ensures After(hash, config, st, call, env) == st
  {
    if Handle(hash, config, st, call, env).Ok? {
      var request, key := Dispatch(hash, config, st, call, env);
      DeadTokenCall(hash, st, call.run, request, key, env);
    }
  }

  /** Scripts take only tokens minted for them. */
  predicate TakesOnly(script: Script, token: string) {
    match script
    case Finish(_) => true
    case Refuse(_) => true
    case Drop(next) => TakesOnly(next, token)
    case Take(lease, next) => lease.token == token && TakesOnly(next, token)
    case Append(_, _, _, next) => TakesOnly(next, token)
  }

  lemma {:induction false} EnactTokens(hash: Hash<Content>, st: Store, run: string, s: Snapshot, script: Script,
                                       env: Env, n: nat, dead: string)
    requires run in st.runs && Enact(hash, st, run, s, script, env, n).Ok?
    requires TakesOnly(script, env.mint(1)) && env.mint(1) != dead && !LiveToken(st.leases, dead)
    ensures !LiveToken(Enact(hash, st, run, s, script, env, n).value.store.leases, dead)
    decreases script
  {
    match script
    case Finish(_) =>
    case Refuse(_) =>
    case Drop(next) => EnactTokens(hash, Dropped(st, run), run, s, next, env, n, dead);
    case Take(lease, next) => EnactTokens(hash, Leased(st, run, lease), run, s, next, env, n, dead);
    case Append(payload, actor, key, next) =>
      var c := Content(env.mint(n), run, payload, actor, Some(key), env.now);
      var done := AppendAndSync(hash, st, run, s, c).value;
      EnactTokens(hash, done.0, run, done.1, next, env, n + 1, dead);
  }

  lemma ScriptTakes(s: Snapshot, log: seq<Event>, lease: Option<Lease>, run: string, request: Request, key: string,
                    env: Env)
    ensures TakesOnly(ScriptFor(s, log, lease, run, request, key, env), env.mint(1))
  {
    var i := HandedOut(s, log, Recoverable(s, lease, env.now), env);
    if request.ClaimTurn? && i.Some? {
      assert TakesOnly(GrantScript(i.value, run, request.worker, request.seconds, key, env), env.mint(1));
    }
  }

  lemma TokenStaysDeadRun(hash: Hash<Content>, st: Store, run: string, request: Request, key: string, env: Env,
                          after: Store, token: string)
    requires Agree(hash, st) && HandleRun(hash, st, run, request, key, env).Ok?
    requires after == HandleRun(hash, st, run, request, key, env).value.0
    requires !LiveToken(st.leases, token) && env.mint(1) != token
    ensures !LiveToken(after.leases, token)
  {
    if (run, key) in st.operations {
      RepeatSame(hash, st, run, request, key, env);
    } else {
      var s, script, done := RunEnacts(hash, st, run, request, key, env);
      ScriptTakes(s, st.events[run], LeaseOf(st, run), run, request, key, env);
      EnactTokens(hash, st, run, s, script, env, 2, token);
      assert after == Remembered(done.store, run, key, OperationOf(request, done, env.now));
    }
  }

  lemma TokenStaysDead(hash: Hash<Content>, config: Config, st: Store, call: Call, env: Env, token: string)
    requires Coherent(hash, st) && !LiveToken(st.leases, token) && env.mint(1) != token
    ensures !LiveToken(After(hash, config, st, call, env).leases, token)
  {
    if Handle(hash, config, st, call, env).Ok? {
      var request, key := Dispatch(hash, config, st, call, env);
      var after := After(hash, config, st, call, env);
      if !request.CreateRun? {
        TokenStaysDeadRun(hash, st, call.run, request, key, env, after, token);
      } else if (CREATE_SCOPE, key) !in st.operations {
        var (done, t) := Opened(hash, st, env.mint(1), request.objective, request.maxIterations, config.policy, key,
                                env).value;
        OpenedOnly(hash, st, env.mint(1), request.objective, request.maxIterations, config.policy, key, env, done, t);
      }
    }
  }

  // ---- the sweep ----

  /** At one clock reading a leased turn is either usable by its holder or recoverable, never both. */
  lemma UsableXorRecoverable(hash: Hash<Content>, st: Store, run: string, s: Snapshot, now: int)
    requires Settled(hash, st, run, s) && run in st.leases
    ensures Holds(LeaseOf(st, run), st.leases[run].worker, st.leases[run].token, now) <==>
              !Recoverable(s, LeaseOf(st, run), now)
  {
  }

  function ExpiredRows(leases: map<string, Lease>, rows: seq<string>, now: int): seq<string>
    requires forall r :: r in rows ==> r in leases
  {
    if rows == [] then []
    else
      var last := rows[|rows| - 1];
      ExpiredRows(leases, rows[..|rows| - 1], now) + if Expired(leases[last], now) then [last] else []
  }

  /** The turn of `run` was given back: one LEASE_EXPIRED event, the lease gone, the handoff kept. */
  ghost predicate GivenBack(hash: Hash<Content>, st: Store, st': Store, run: string) {
    && run in st.events && run in st'.events && run !in st'.leases
    && |st'.events[run]| == |st.events[run]| + 1 && st.events[run] <= st'.events[run]
    && st'.events[run][|st.events[run]|].content.payload == LeaseExpired
    && SnapshotOf(hash, st, run).Ok? && SnapshotOf(hash, st, run).value.state.CodexRunning?
    && SnapshotOf(hash, st', run) == Ok(SnapshotOf(hash, st, run).value.(state := ReadyForCodex))
  }

  /** The sweep's effect row by row. */
  ghost predicate Swept(hash: Hash<Content>, st: Store, st': Store, rows: seq<string>, now: int) {
    && st'.operations == st.operations && st'.artifacts == st.artifacts && st'.runs.Keys == st.runs.Keys
    && forall r :: if r in rows && r in st.leases && Expired(st.leases[r], now) then GivenBack(hash, st, st', r)
                   else SameRun(st, st', r)
  }

  lemma RecoverKept(hash: Hash<Content>, st: Store, run: string, env: Env, n: nat)
    requires Agree(hash, st) && run in st.leases && !Expired(st.leases[run], env.now)
    ensures Recover(hash, st, run, env, n) == Ok((st, false))
  {
    var s := RunSnapshot(hash, st, run);
  }

  function ExpiryScript(env: Env, n: nat): Script {
    Drop(Append(LeaseExpired, System, "lease-expired:" + env.mint(n), Finish(None)))
  }

  lemma ExpirySane(s: Snapshot, log: seq<Event>, env: Env, n: nat)
    ensures Sane(ExpiryScript(env, n), s, true, log)
  {
    var last := Append(LeaseExpired, System, "lease-expired:" + env.mint(n), Finish(None));
    assert SaneLease(last, s.state.CodexRunning?, false);
    assert SaneEnd(last, Evidenced(s)) && SaneHandoff(last, HandoffIds(log));
  }

  lemma RecoverEnacts(hash: Hash<Content>, st: Store, run: string, env: Env, n: nat) returns (s: Snapshot)
    requires Agree(hash, st) && run in st.leases && Expired(st.leases[run], env.now)
    ensures Settled(hash, st, run, s) && SnapshotOf(hash, st, run) == Ok(s) && s.state.CodexRunning?
    ensures ExpiryScript(env, n) == RecoverScript(s, LeaseOf(st, run), env.mint(n), env.now, Finish(None))
  {
    s := RunSnapshot(hash, st, run);
  }

  lemma ExpiryApplies(hash: Hash<Content>, st: Store, run: string, s: Snapshot, env: Env, n: nat, script: Script)
    requires run in st.runs && run in st.events && s.run == run && s.state.CodexRunning?
    requires script == ExpiryScript(env, n)
    ensures match Enact(hash, st, run, s, script, env, n + 1)
            case Err(e) => e == Collision && env.mint(n + 1) in st.eventIds
            case Ok(done) => run in done.store.events && run !in done.store.leases
                             && done.snapshot == s.(state := ReadyForCodex)
                             && |done.store.events[run]| == |st.events[run]| + 1
                                && st.events[run] <= done.store.events[run]
                             && done.store.events[run][|st.events[run]|].content.payload == LeaseExpired
  {
    var c := Content(env.mint(n + 1), run, LeaseExpired, System, Some("lease-expired:" + env.mint(n)), env.now);
    var mid := Dropped(st, run);
    assert Enact(hash, st, run, s, script, env, n + 1) == Enact(hash, mid, run, s, script.next, env, n + 1);
    var r := AppendAndSync(hash, mid, run, s, c);
    if r.Ok? {
      assert Enact(hash, r.value.0, run, r.value.1, Finish(None), env, n + 2) ==
             Ok(Enacted(r.value.0, r.value.1, None));
    }
  }

  /** A row whose lease has expired is given back, unless the new event's identifier is already taken. */
  lemma RecoverExpired(hash: Hash<Content>, st: Store, run: string, env: Env, n: nat)
    requires Agree(hash, st) && run in st.leases && Expired(st.leases[run], env.now)
    ensures match Recover(hash, st, run, env, n)
            case Err(e) => e == Collision && env.mint(n + 1) in st.eventIds
            case Ok((done, recovered)) => recovered && Agree(hash, done) && OnlyRun(st, done, run)
                                          && GivenBack(hash, st, done, run)
  {
    var s := RecoverEnacts(hash, st, run, env, n);
    var script := ExpiryScript(env, n);
    ExpirySane(s, st.events[run], env, n);
    ExpiryApplies(hash, st, run, s, env, n, script);
    var r := Enact(hash, st, run, s, script, env, n + 1);
    if r.Ok? {
      EnactAgrees(hash, st, run, s, script, env, n + 1, r.value);
      EnactSettles(hash, st, run, s, script, env, n + 1, r.value);
      SnapshotOk(hash, r.value.store, run, r.value.snapshot);
    }
  }

  ghost predicate SweepResult(hash: Hash<Content>, st: Store, rows: seq<string>, now: int,
                              r: Result<(Store, seq<string>), Error>)
    requires forall k :: k in rows ==> k in st.leases
  {
    match r
    case Err(e) => e == Collision
    case Ok((done, recovered)) =>
      recovered == ExpiredRows(st.leases, rows, now) && Agree(hash, done) && Swept(hash, st, done, rows, now)
  }

  lemma SweptNone(hash: Hash<Content>, st: Store, now: int)
    requires Agree(hash, st)
    ensures SweepResult(hash, st, [], now, Ok((st, [])))
  {
  }

  lemma ExpiredRowsSnoc(leases: map<string, Lease>, rows: seq<string>, last: string, now: int)
    requires forall r :: r in rows + [last] ==> r in leases
    requires forall r :: r in rows ==> r in leases
    ensures last in leases
    ensures ExpiredRows(leases, rows + [last], now) == ExpiredRows(leases, rows, now) + if Expired(leases[last], now)
      then [last] else []
  {
    assert last in rows + [last];
    assert (rows + [last])[..|rows|] == rows;
  }

  /** The sweep recovers exactly the rows whose lease has expired at its one clock reading, in the order
      of the rows, and touches nothing else; it can fail only on a taken event identifier. */
  lemma {:induction false} SweepExact(hash: Hash<Content>, st: Store, rows: seq<string>, env: Env)
    requires Agree(hash, st) && (forall r :: r in rows ==> r in st.leases)
    requires forall i, j :: 0 <= i < j < |rows| ==> rows[i] != rows[j]
    ensures SweepResult(hash, st, rows, env.now, Sweep(hash, st, rows, env))
    decreases |rows|
  {
    if rows == [] {
      SweptNone(hash, st, env.now);
    } else {
      var short, last := rows[..|rows| - 1], rows[|rows| - 1];
      assert rows == short + [last];
      SweepExact(hash, st, short, env);
      ProceedStep(hash, st, short, last, env, Sweep(hash, st, short, env), 2 * |rows|);
    }
  }

  lemma ProceedStep(hash: Hash<Content>, st: Store, short: seq<string>, last: string, env: Env,
                    before: Result<(Store, seq<string>), Error>, n: nat)
    requires (forall r :: r in short + [last] ==> r in st.leases) && last !in short
    requires (forall r :: r in short ==> r in st.leases) && SweepResult(hash, st, short, env.now, before)
    ensures SweepResult(hash, st, short + [last], env.now, Proceed(hash, before, last, env, n))
  {
    ExpiredRowsSnoc(st.leases, short, last, env.now);
    if before.Ok? {
      SweepStep(hash, st, before.value.0, short, last, env, n);
    }
  }

  lemma SweepStep(hash: Hash<Content>, st: Store, mid: Store, short: seq<string>, last: string, env: Env, n: nat)
    requires Agree(hash, mid) && Swept(hash, st, mid, short, env.now) && last in st.leases && last !in short
    ensures match Recover(hash, mid, last, env, n)
            case Err(e) => e == Collision
            case Ok((done, recovered)) => recovered == Expired(st.leases[last], env.now) && Agree(hash, done)
                                          && Swept(hash, st, done, short + [last], env.now)
  {
    assert SameRun(st, mid, last);
    if Expired(st.leases[last], env.now) {
      RecoverExpired(hash, mid, last, env, n);
      var r := Recover(hash, mid, last, env, n);
      if r.Ok? {
        SweptNext(hash, st, mid, r.value.0, short, last, env.now);
      }
    } else {
      RecoverKept(hash, mid, last, env, n);
      SweptSkip(hash, st, mid, short, last, env.now);
    }
  }

  lemma GivenBackFrom(hash: Hash<Content>, st: Store, mid: Store, done: Store, run: string)
    requires SameRun(st, mid, run) && GivenBack(hash, mid, done, run)
    ensures GivenBack(hash, st, done, run)
  {
    assert SnapshotOf(hash, st, run) == SnapshotOf(hash, mid, run);
  }

  lemma GivenBackStays(hash: Hash<Content>, st: Store, mid: Store, done: Store, run: string)
    requires GivenBack(hash, st, mid, run) && SameRun(mid, done, run)
    ensures GivenBack(hash, st, done, run)
  {
    assert SnapshotOf(hash, done, run) == SnapshotOf(hash, mid, run);
  }

  lemma SweptNext(hash: Hash<Content>, st: Store, mid: Store, done: Store, short: seq<string>, last: string, now: int)
    requires Swept(hash, st, mid, short, now) && OnlyRun(mid, done, last) && GivenBack(hash, mid, done, last)
    requires last !in short && last in st.leases && Expired(st.leases[last], now)
    ensures Swept(hash, st, done, short + [last], now)
  {
    forall r ensures if r in short + [last] && r in st.leases && Expired(st.leases[r], now)
      then GivenBack(hash, st, done, r)
                     else SameRun(st, done, r) {
      if r == last {
        GivenBackFrom(hash, st, mid, done, r);
      } else {
        assert SameRun(mid, done, r);
        if r in short && r in st.leases && Expired(st.leases[r], now) {
          GivenBackStays(hash, st, mid, done, r);
        }
      }
    }
  }

  lemma SweptSkip(hash: Hash<Content>, st: Store, mid: Store, short: seq<string>, last: string, now: int)
    requires Swept(hash, st, mid, short, now) && last in st.leases && !Expired(st.leases[last], now)
    ensures Swept(hash, st, mid, short + [last], now)
  {
    forall r ensures if r in short + [last] && r in st.leases && Expired(st.leases[r], now)
      then GivenBack(hash, st, mid, r)
                     else SameRun(st, mid, r) {
      assert r in short || r == last <==> r in short + [last];
    }
  }

  lemma {:induction false} SweepStops(hash: Hash<Content>, st: Store, rows: seq<string>, n: nat, env: Env)
    requires n <= |rows| && Sweep(hash, st, rows[..n], env).Err?
    ensures Sweep(hash, st, rows, env) == Sweep(hash, st, rows[..n], env)
    decreases |rows|
  {
    if n == |rows| {
      assert rows[..n] == rows;
    } else {
      assert rows[..|rows| - 1][..n] == rows[..n];
      SweepStops(hash, st, rows[..|rows| - 1], n, env);
    }
  }

  lemma SweepAdvance(hash: Hash<Content>, st: Store, rows: seq<string>, i: nat, env: Env, mid: Store,
                     recovered: seq<string>, r: Result<(Store, bool), Error>)
    requires i < |rows| && Sweep(hash, st, rows[..i], env) == Ok((mid, recovered))
    requires r == Recover(hash, mid, rows[i], env, 2 * (i + 1))
    ensures Sweep(hash, st, rows[..i + 1], env) ==
            if r.Err? then Err(r.error) else Ok((r.value.0, if r.value.1 then recovered + [rows[i]] else recovered))
  {
    assert rows[..i + 1][..i] == rows[..i];
  }

  /** Midway through the sweep the tables agree, and the rows still to come are as they were. */
  lemma MidSweep(hash: Hash<Content>, st: Store, rows: seq<string>, n: nat, env: Env, mid: Store,
                 recovered: seq<string>)
    requires Agree(hash, st) && Lists(rows, st.leases) && n < |rows|
    requires Sweep(hash, st, rows[..n], env) == Ok((mid, recovered))
    ensures Agree(hash, mid) && rows[n] in mid.leases
  {
    ListsDistinct(rows, st.leases);
    SweepExact(hash, st, rows[..n], env);
    assert rows[n] in rows && rows[n] !in rows[..n];
    assert SameRun(st, mid, rows[n]);
  }

  // ---- whole schedules ----

  lemma BeforeIrreflexive(a: string)
    ensures !Before(a, a)
  {
  }

  lemma ListsDistinct(rows: seq<string>, leases: map<string, Lease>)
    requires Lists(rows, leases)
    ensures forall i, j :: 0 <= i < j < |rows| ==> rows[i] != rows[j]
  {
    forall i, j | 0 <= i < j < |rows| ensures rows[i] != rows[j] {
      BeforeIrreflexive(rows[i]);
    }
  }

  /** A restart leaves the rows as they are or sweeps them. */
  lemma RestartSweeps(hash: Hash<Content>, config: Config, st: Store, move: Move, after: Store)
    requires Agree(hash, st) && move.Restarted? && after == Made(hash, config, st, move)
    ensures after == st || (Agree(hash, after) && Swept(hash, st, after, move.rows, move.env.now))
  {
    if Lists(move.rows, st.leases) {
      ListsDistinct(move.rows, st.leases);
      SweepExact(hash, st, move.rows, move.env);
    }
  }

  lemma AttachOnly(hash: Hash<Content>, config: Config, st: Store, move: Move, after: Store)
    requires move.Attached? && after == Made(hash, config, st, move)
    ensures after == st.(artifacts := after.artifacts)
  {
  }

  /** Every public operation keeps the tables coherent. */
  lemma MoveKeeps(hash: Hash<Content>, config: Config, st: Store, move: Move, after: Store)
    requires Coherent(hash, st) && after == Made(hash, config, st, move)
    ensures Coherent(hash, after)
  {
    match move
    case Called(call, env) => CallKeeps(hash, config, st, call, env);
    case Attached(_, _, _, _) => AttachOnly(hash, config, st, move, after);
    case Restarted(_, _) => RestartSweeps(hash, config, st, move, after);
  }

  const EMPTY := Store(map[], map[], {}, map[], map[], map[])

  /** Every reachable set of tables is coherent. */
  lemma {:induction false} ReachableCoherent(hash: Hash<Content>, config: Config, moves: seq<Move>)
    ensures Coherent(hash, AfterAll(hash, config, EMPTY, moves))
  {
    if moves != [] {
      var short := moves[..|moves| - 1];
      ReachableCoherent(hash, config, short);
      MoveKeeps(hash, config, AfterAll(hash, config, EMPTY, short), moves[|moves| - 1],
                AfterAll(hash, config, EMPTY, moves));
    }
  }

  /** What coherence says of one run, spelled out: the log verifies and replays, the cached row agrees with
      the replay, its version counts the events, a lease row exists iff the run is running, a completed
      run has evidence, and no handoff id was submitted twice. */
  lemma ReachableRun(hash: Hash<Content>, config: Config, moves: seq<Move>, run: string)
    requires run in AfterAll(hash, config, EMPTY, moves).runs
    ensures var st := AfterAll(hash, config, EMPTY, moves);
            && run in st.events && Verified(hash, st.events[run])
            && match Replay(hash, st.events[run])
               case Err(_) => false
               case Ok(s) => && st.runs[run].state == s.state
                             && st.runs[run].iteration == s.iteration <= s.maxIterations
                             && st.runs[run].version == |st.events[run]|
                             && (run in st.leases <==> s.state.CodexRunning?)
                             && (s.state.CompleteState? ==> s.lastResult.Some? && s.lastResult.value.evidence != [])
                             && DistinctHandoffs(st.events[run])
  {
    ReachableCoherent(hash, config, moves);
    var s := RunSnapshot(hash, AfterAll(hash, config, EMPTY, moves), run);
  }

  lemma TerminalRestart(hash: Hash<Content>, st: Store, rows: seq<string>, now: int, run: string, s: Snapshot,
                        after: Store)
    requires Settled(hash, st, run, s) && s.state.Terminal() && Swept(hash, st, after, rows, now)
    ensures SameRun(st, after, run)
  {
  }

  lemma TerminalMove(hash: Hash<Content>, config: Config, st: Store, move: Move, run: string, s: Snapshot, after: Store)
    requires Coherent(hash, st) && Settled(hash, st, run, s) && s.state.Terminal()
             && after == Made(hash, config, st, move)
    ensures run in after.runs && after.runs[run] == st.runs[run] && run in after.events
            && after.events[run] == st.events[run]
  {
    match move
    case Called(call, env) => TerminalStep(hash, config, st, call, env, run, s, after);
    case Attached(_, _, _, _) => AttachOnly(hash, config, st, move, after);
    case Restarted(rows, env) =>
      RestartSweeps(hash, config, st, move, after);
      if after != st {
        TerminalRestart(hash, st, rows, env.now, run, s, after);
      }
  }

  /** Once a run has ended, no schedule changes its row, its events, its snapshot or gives it a lease. */
  lemma {:induction false} EndedRunsStay(hash: Hash<Content>, config: Config, st: Store, moves: seq<Move>, run: string,
                                         s: Snapshot)
    requires Coherent(hash, st) && Settled(hash, st, run, s) && s.state.Terminal()
    ensures var after := AfterAll(hash, config, st, moves);
            Coherent(hash, after) && SameRun(st, after, run) && Settled(hash, after, run, s)
    decreases |moves|
  {
    if moves != [] {
      var short, last := moves[..|moves| - 1], moves[|moves| - 1];
      EndedRunsStay(hash, config, st, short, run, s);
      var mid := AfterAll(hash, config, st, short);
      var after := Made(hash, config, mid, last);
      MoveKeeps(hash, config, mid, last, after);
      TerminalMove(hash, config, mid, last, run, s, after);
      StillSettled(hash, mid, after, run, s);
    }
  }

  lemma SweptTokens(hash: Hash<Content>, st: Store, after: Store, rows: seq<string>, now: int, token: string)
    requires Swept(hash, st, after, rows, now) && !LiveToken(st.leases, token)
    ensures !LiveToken(after.leases, token)
  {
    forall r | r in after.leases ensures after.leases[r].token != token {
      assert SameRun(st, after, r);
    }
  }

  lemma DeadMove(hash: Hash<Content>, config: Config, st: Store, move: Move, token: string, after: Store)
    requires Coherent(hash, st) && !LiveToken(st.leases, token) && move.env.mint(1) != token
             && after == Made(hash, config, st, move)
    ensures !LiveToken(after.leases, token)
  {
    match move
    case Called(call, env) => TokenStaysDead(hash, config, st, call, env, token);
    case Attached(_, _, _, _) => AttachOnly(hash, config, st, move, after);
    case Restarted(rows, env) =>
      RestartSweeps(hash, config, st, move, after);
      if after != st {
        SweptTokens(hash, st, after, rows, env.now, token);
      }
  }

  lemma {:induction false} DeadMoves(hash: Hash<Content>, config: Config, st: Store, moves: seq<Move>, token: string)
    requires Coherent(hash, st) && !LiveToken(st.leases, token)
    requires forall k :: 0 <= k < |moves| ==> moves[k].env.mint(1) != token
    ensures Coherent(hash, AfterAll(hash, config, st, moves))
            && !LiveToken(AfterAll(hash, config, st, moves).leases, token)
    decreases |moves|
  {
    if moves != [] {
      var short, last := moves[..|moves| - 1], moves[|moves| - 1];
      DeadMoves(hash, config, st, short, token);
      var mid := AfterAll(hash, config, st, short);
      var after := Made(hash, config, mid, last);
      MoveKeeps(hash, config, mid, last, after);
      DeadMove(hash, config, mid, last, token, after);
    }
  }

  /** A removed token that is never minted again never again causes an event: after any schedule, a
      worker presenting it changes no table. */
  lemma RemovedTokenIsDead(hash: Hash<Content>, config: Config, st: Store, moves: seq<Move>, token: string, call: Call,
                           env: Env)
    requires Coherent(hash, st) && !LiveToken(st.leases, token)
    requires forall k :: 0 <= k < |moves| ==> moves[k].env.mint(1) != token
    requires Read(config, call.input, env).Ok? && Presented(Read(config, call.input, env).value) == Some(token)
    ensures var after := AfterAll(hash, config, st, moves);
            After(hash, config, after, call, env) == after
  {
    DeadMoves(hash, config, st, moves, token);
    DeadTokenSilent(hash, config, AfterAll(hash, config, st, moves), call, env, token);
  }
}
