/** The controller object: its tables, and each public operation as one transaction over them. */
module Controller {
  import opened Common
  import opened HashChain
  import opened Text
  import opened Protocol
  import opened Ledger
  import opened LedgerLaws
  import L = LeaseLaws

  lemma ClaimSplits(s: Snapshot, log: seq<Event>, lease: Option<Lease>, run: string, worker: string, seconds: int,
                    key: string, env: Env, next: Script)
    requires var free := Recoverable(s, lease, env.now);
             next == ClaimNext(s.state.ReadyForCodex? || free, HandedOut(s, log, free, env), lease.Some? && !free,
                               run, worker, seconds, key, env)
    ensures ClaimScript(s, log, lease, run, worker, seconds, key, env) ==
            RecoverScript(s, lease, env.mint(4), env.now, next)
  {
  }

  /** A body ended as its script should; the snapshot it holds is the one its last replay read. */
  ghost predicate Ended(should: Result<Enacted, Error>, r: Result<Snapshot, Error>, grant: Option<Claim>, after: Store,
                        run: string, mints: nat -> Uuid)
  {
    match should
    case Err(e) => r == Err(e)
    case Ok(done) =>
      r == Ok(Seen(done.snapshot, MintedIn(Log(done.store, run), mints))) && after == done.store && grant == done.grant
  }

  class Controller {
    const hash: Hash<Content>
    const config: Config
    var runs: map<string, Row>
    var events: map<string, seq<Event>>
    var eventIds: set<string>
    var leases: map<string, Lease>
    var operations: map<(string, string), Operation>
    var artifacts: map<string, Artifact>

    function Look(): Store
      reads this
    {
      Store(runs, events, eventIds, leases, operations, artifacts)
    }

    ghost predicate Valid()
      reads this
    {
      Coherent(hash, Look())
    }

    constructor (hash: Hash<Content>, config: Config)
      ensures Valid() && Look() == L.EMPTY && this.hash == hash && this.config == config
    {
      this.hash, this.config := hash, config;
      runs, events, eventIds, leases, operations, artifacts := map[], map[], {}, map[], map[], map[];
    }

    // ---- table access ----

    method Restore(saved: Store)
      modifies this
      ensures Look() == saved
    {
      runs, events, eventIds := saved.runs, saved.events, saved.eventIds;
      leases, operations, artifacts := saved.leases, saved.operations, saved.artifacts;
    }

    /** One reading of the run, minting an id for each handoff recorded without one. */
    method ReadSnapshot(run: string, mints: nat -> Uuid) returns (r: Result<Snapshot, Error>)
      ensures r == ReadRun(hash, Look(), run, mints)
    {
      if run !in runs {
        return Err(NotFound);
      }
      var replayed := ReplayEvents(hash, Log(Look(), run), mints);
      return if replayed.Ok? then Ok(replayed.value) else Err(Raised(replayed.error));
    }

    /** Insert the next event of a run; its identifier is the table's primary key. */
    method AppendEvent(run: string, c: Content) returns (ok: bool)
      modifies this`events, this`eventIds
      ensures ok == (c.id !in old(eventIds))
      ensures Look() == if ok then Added(hash, old(Look()), run, c) else old(Look())
    {
      if c.id in eventIds {
        return false;
      }
      var log := if run in events then events[run] else [];
      var previous := if log == [] then GENESIS else log[|log| - 1].digest;
      var e := Entry(|log| + 1, c, previous, hash(|log| + 1, c, previous));
      events, eventIds := events[run := log + [e]], eventIds + {c.id};
      return true;
    }

    method SyncSnapshot(run: string, s: Snapshot, now: int)
      requires run in runs
      modifies this`runs
      ensures Look() == Synced(old(Look()), run, s, now)
    {
      var row := runs[run];
      runs := runs[run := row.(state := s.state, iteration := s.iteration, updatedAt := now,
                               version := row.version + 1)];
    }

    /** Append, replay the whole log, and refresh the cached row. Replaying from the start is the same
        as applying the one new event, so this is the single step of a script. */
    method AppendAndSync(run: string, payload: Payload, actor: Actor, key: string, env: Env, n: nat, mints: nat -> Uuid,
                         ghost s: Snapshot)
      returns (r: Result<Snapshot, Error>)
      requires run in runs && run in events && LogOk(hash, run, runs[run], events[run], s)
      modifies this`runs, this`events, this`eventIds
      ensures var c := Content(env.mint(n), run, payload, actor, Some(key), env.now);
              match Ledger.AppendAndSync(hash, old(Look()), run, s, c)
              case Err(e) => r == Err(e)
              case Ok((st, t)) => r == Ok(Seen(t, MintedIn(Log(st, run), mints))) && Look() == st && run in events
                                  && LogOk(hash, run, runs[run], events[run], t)
    {
      var c := Content(env.mint(n), run, payload, actor, Some(key), env.now);
      ghost var log := events[run];
      var stored := AppendEvent(run, c);
      if !stored {
        return Err(Collision);
      }
      ReplayNext(hash, log, s, c);
      ReplaySees(hash, events[run], mints);
      r := ReadSnapshot(run, mints);
      if r.Ok? {
        LogOkNext(hash, run, runs[run], log, s, c, Apply(s, c).value, env.now);
        SyncSnapshot(run, r.value, env.now);
      }
    }

    method DropLease(run: string)
      modifies this`leases
      ensures Look() == Dropped(old(Look()), run)
    {
      leases := leases - {run};
    }

    /** Insert a lease row; the run is its primary key and the token is unique. */
    method TakeLease(run: string, lease: Lease) returns (ok: bool)
      modifies this`leases
      ensures ok == !(run in old(leases) || LiveToken(old(leases), lease.token))
      ensures Look() == if ok then Leased(old(Look()), run, lease) else old(Look())
    {
      ok := !(run in leases) && !LiveToken(leases, lease.token);
      if ok {
        leases := leases[run := lease];
      }
    }

    // ---- the body of each operation, inside its transaction ----

    /** How a body ended, against the script it should have carried out. */
    ghost predicate Carried(st: Store, run: string, s: Snapshot, script: Script, env: Env, n: nat,
                            r: Result<Snapshot, Error>, grant: Option<Claim>)
      requires run in st.runs
      reads this
    {
      Ended(Enact(hash, st, run, s, script, env, n), r, grant, Look(), run, env.replays(1))
    }

    /** A first part of a script was carried out: the rest starts from here, or it all failed. */
    ghost predicate Carries(st: Store, run: string, s: Snapshot, script: Script, env: Env, n: nat,
                            r: Result<Snapshot, Error>, t: Snapshot, next: Script, n': nat)
      requires run in st.runs
      reads this
    {
      match r
      case Err(e) => Enact(hash, st, run, s, script, env, n) == Err(e)
      case Ok(_) => run in runs && Enact(hash, st, run, s, script, env, n) == Enact(hash, Look(), run, t, next, env, n')
    }

    /** `seen` is the run as a replay with these minted ids read it, `s` what all replays agree on. */
    ghost predicate Reads(run: string, seen: Snapshot, s: Snapshot, mints: nat -> Uuid)
      reads this
    {
      && run in runs && run in events && LogOk(hash, run, runs[run], events[run], s)
      && seen == Seen(s, MintedIn(events[run], mints))
    }

    /** The reading that opens a body. */
    method Open(run: string, env: Env, ghost s: Snapshot) returns (seen: Snapshot)
      requires Settled(hash, Look(), run, s)
      ensures Reads(run, seen, s, env.replays(0))
    {
      SnapshotOk(hash, Look(), run, s);
      ReadRunSees(hash, Look(), run, s, env.replays(0));
      var r := ReadSnapshot(run, env.replays(0));
      return r.value;
    }

    /** REVIEW_STARTED when a result is waiting; what follows starts from there. */
    method StartReview(run: string, before: Snapshot, key: string, env: Env, ghost s: Snapshot, ghost next: Script)
      returns (r: Result<Snapshot, Error>, ghost t: Snapshot)
      requires Reads(run, before, s, env.replays(0))
      modifies this`runs, this`events, this`eventIds
      ensures t == if s.state.CodexComplete? then s.(state := RunState.Reviewing) else s
      ensures r.Ok? ==> Reads(run, r.value, t, if s.state.CodexComplete? then env.replays(2) else env.replays(0))
      ensures Carries(old(Look()), run, s, Reviewed(s, key, next), env, 2, r, t, next,
                      if s.state.CodexComplete? then 3 else 2)
    {
      r, t := Ok(before), s;
      if before.state.CodexComplete? {
        t := s.(state := RunState.Reviewing);
        ReviewApplies(s, Content(env.mint(2), run, ReviewStarted, Planner, Some(key + ":review"), env.now));
        r := AppendAndSync(run, ReviewStarted, Planner, key + ":review", env, 2, env.replays(2), s);
      }
    }

    /** The event that ends a body. */
    method Last(run: string, payload: Payload, actor: Actor, key: string, env: Env, n: nat, ghost s: Snapshot,
                ghost grant: Option<Claim>)
      returns (r: Result<Snapshot, Error>)
      requires run in runs && run in events && LogOk(hash, run, runs[run], events[run], s)
      modifies this`runs, this`events, this`eventIds
      ensures Carried(old(Look()), run, s, Append(payload, actor, key, Finish(grant)), env, n, r, grant)
    {
      r := AppendAndSync(run, payload, actor, key, env, n, env.replays(1), s);
    }

    /** The same, after deleting the run's lease row. */
    method LastDropping(run: string, payload: Payload, actor: Actor, key: string, env: Env, ghost s: Snapshot)
      returns (r: Result<Snapshot, Error>)
      requires run in runs && run in events && LogOk(hash, run, runs[run], events[run], s)
      modifies this`runs, this`events, this`eventIds, this`leases
      ensures Carried(old(Look()), run, s, Drop(Append(payload, actor, key, Finish(None))), env, 2, r, None)
    {
      DropLease(run);
      r := Last(run, payload, actor, key, env, 2, s, None);
    }

    method InstructionIdExists(run: string, id: string) returns (used: bool)
      requires run in events
      ensures used == IdUsed(events[run], id)
    {
      var log := events[run];
      for i := 0 to |log|
        invariant forall j :: 0 <= j < i ==> Raw(log, j) != Some(id)
      {
        if Raw(log, i) == Some(id) {
          return true;
        }
      }
      return false;
    }

    method InstructBody(run: string, i: Instruction, key: string, env: Env, ghost s: Snapshot)
      returns (r: Result<Snapshot, Error>)
      requires Settled(hash, Look(), run, s)
      modifies this`runs, this`events, this`eventIds
      ensures Carried(old(Look()), run, s, InstructScript(s, old(events[run]), i, key), env, 2, r, None)
    {
      var before := Open(run, env, s);
      var used := InstructionIdExists(run, i.id);
      if used {
        return Err(Conflict);
      }
      r := SubmitNew(run, before, i, key, env, s);
    }

    method SubmitNew(run: string, before: Snapshot, i: Instruction, key: string, env: Env, ghost s: Snapshot)
      returns (r: Result<Snapshot, Error>)
      requires Reads(run, before, s, env.replays(0))
      modifies this`runs, this`events, this`eventIds
      ensures Carried(old(Look()), run, s, Reviewed(s, key, InstructNext(s, i, key)), env, 2, r, None)
    {
      var n := if before.state.CodexComplete? then 3 else 2;
      ghost var t;
      r, t := StartReview(run, before, key, env, s, InstructNext(s, i, key));
      if r.Err? {
        return;
      }
      if !r.value.state.Planning? && !r.value.state.Reviewing? {
        return Err(IllegalMove);
      }
      if r.value.iteration >= r.value.maxIterations {
        r := Last(run, Failed("iteration limit reached"), System, key + ":limit", env, n, t, None);
      } else {
        r := Last(run, InstructionSubmitted(i), Planner, key, env, n, t, None);
      }
    }

    method HumanBody(run: string, reason: string, key: string, env: Env, ghost s: Snapshot)
      returns (r: Result<Snapshot, Error>)
      requires Settled(hash, Look(), run, s)
      modifies this`runs, this`events, this`eventIds, this`leases
      ensures Carried(old(Look()), run, s, HumanScript(s, reason, key), env, 2, r, None)
    {
      var before := Open(run, env, s);
      var n := if before.state.CodexComplete? then 3 else 2;
      ghost var t;
      r, t := StartReview(run, before, key, env, s, HumanNext(s, reason, key));
      if r.Err? {
        return;
      }
      if !r.value.state.CodexRunning? && !r.value.state.Reviewing? {
        return Err(IllegalMove);
      }
      if r.value.state.CodexRunning? {
        r := LastDropping(run, HumanRequested(reason), Planner, key, env, t);
      } else {
        r := Last(run, HumanRequested(reason), Planner, key, env, n, t, None);
      }
    }

    method CompleteBody(run: string, rationale: string, key: string, env: Env, ghost s: Snapshot)
      returns (r: Result<Snapshot, Error>)
      requires Settled(hash, Look(), run, s)
      modifies this`runs, this`events, this`eventIds
      ensures Carried(old(Look()), run, s, CompleteScript(s, rationale, key), env, 2, r, None)
    {
      var before := Open(run, env, s);
      var n := if before.state.CodexComplete? then 3 else 2;
      ghost var t;
      r, t := StartReview(run, before, key, env, s, CompleteNext(s, rationale, key));
      if r.Err? {
        return;
      }
      if !r.value.state.Reviewing? {
        return Err(IllegalMove);
      }
      if r.value.lastResult.None? || r.value.lastResult.value.evidence == [] {
        return Err(BeyondPolicy);
      }
      r := Last(run, Completed(rationale), Planner, key, env, n, t, None);
    }

    method PauseBody(run: string, reason: string, key: string, env: Env, ghost s: Snapshot)
      returns (r: Result<Snapshot, Error>)
      requires Settled(hash, Look(), run, s)
      modifies this`runs, this`events, this`eventIds, this`leases
      ensures Carried(old(Look()), run, s, PauseScript(s, reason, key), env, 2, r, None)
    {
      var before := Open(run, env, s);
      if before.state.Terminal() || before.state.PausedState? {
        return Err(IllegalMove);
      }
      if before.state.CodexRunning? {
        r := LastDropping(run, Paused(reason, Some(ReadyForCodex)), Control, key, env, s);
      } else {
        r := Last(run, Paused(reason, Some(before.state)), Control, key, env, 2, s, None);
      }
    }

    /** Delete the lease row of an expired turn and record the expiry; `next` starts from there. */
    method ExpireLease(run: string, tag: Uuid, env: Env, n: nat, ghost s: Snapshot, ghost next: Script)
      returns (r: Result<Snapshot, Error>)
      requires run in runs && run in events && LogOk(hash, run, runs[run], events[run], s) && s.state.CodexRunning?
      modifies this`runs, this`events, this`eventIds, this`leases
      ensures r.Ok? ==> Reads(run, r.value, s.(state := ReadyForCodex), env.replays(2)) && run !in leases
      ensures r.Ok? ==> MintedIn(events[run], env.replays(2)) == MintedIn(old(events[run]), env.replays(2))
      ensures Carries(old(Look()), run, s, Drop(Append(LeaseExpired, System, "lease-expired:" + tag, next)), env, n,
                      r, s.(state := ReadyForCodex), next, n + 1)
    {
      DropLease(run);
      r := RecordExpiry(run, "lease-expired:" + tag, env, n, s);
    }

    method RecordExpiry(run: string, key: string, env: Env, n: nat, ghost s: Snapshot)
      returns (r: Result<Snapshot, Error>)
      requires run in runs && run in events && LogOk(hash, run, runs[run], events[run], s) && s.state.CodexRunning?
      modifies this`runs, this`events, this`eventIds
      ensures match Ledger.AppendAndSync(hash, old(Look()), run, s,
                                         Content(env.mint(n), run, LeaseExpired, System, Some(key), env.now))
              case Err(e) => r == Err(e)
              case Ok((st, t)) => r.Ok? && Look() == st && t == s.(state := ReadyForCodex)
                                  && Reads(run, r.value, t, env.replays(2))
      ensures r.Ok? ==>
                run in events && MintedIn(events[run], env.replays(2)) == MintedIn(old(events[run]), env.replays(2))
    {
      var c := Content(env.mint(n), run, LeaseExpired, System, Some(key), env.now);
      ExpiryRestores(s, c);
      MintedOnward(events[run], Next(hash, GENESIS, events[run], c), env.replays(2));
      r := AppendAndSync(run, LeaseExpired, System, key, env, n, env.replays(2), s);
    }

    /** Give an expired turn back. A running turn always has its lease row. */
    method RecoverExpiredLease(run: string, before: Snapshot, tag: Uuid, env: Env, n: nat, ghost s: Snapshot,
                               ghost next: Script)
      returns (r: Result<Snapshot, Error>, k: nat, ghost t: Snapshot)
      requires Reads(run, before, s, env.replays(0))
      modifies this`runs, this`events, this`eventIds, this`leases
      ensures r.Ok? ==> run in runs && run in events && LogOk(hash, run, runs[run], events[run], t)
      ensures r.Ok? ==> r.value.state == t.state
      ensures r.Ok? ==>
                r.value.instruction == HandedOut(s, old(events[run]),
                                                 Recoverable(s, LeaseOf(old(Look()), run), env.now), env)
      ensures r.Ok? ==> if Recoverable(s, LeaseOf(old(Look()), run), env.now)
                        then t == s.(state := ReadyForCodex) && run !in leases
                        else t == s && Look() == old(Look())
      ensures Carries(old(Look()), run, s, RecoverScript(s, LeaseOf(old(Look()), run), tag, env.now, next), env, n,
                      r, t, next, k)
    {
      r, k, t := Ok(before), n, s;
      if !before.state.CodexRunning? {
        return;
      }
      if run !in leases {
        return Err(Corrupt), n, s;
      }
      if leases[run].expiresAt > env.now {
        return;
      }
      k, t := n + 1, s.(state := ReadyForCodex);
      r := ExpireLease(run, tag, env, n, s, next);
    }

    method ClaimBody(run: string, worker: string, seconds: int, key: string, env: Env, ghost s: Snapshot)
      returns (r: Result<Snapshot, Error>, grant: Option<Claim>)
      requires Settled(hash, Look(), run, s)
      modifies this`runs, this`events, this`eventIds, this`leases
      ensures Carried(old(Look()), run, s,
                      ClaimScript(s, old(events[run]), LeaseOf(old(Look()), run), run, worker, seconds, key, env), env,
                        2, r, grant)
    {
      var before := Open(run, env, s);
      r, grant := ClaimFrom(run, before, worker, seconds, key, env, s);
    }

    /** Recover the turn if its lease has expired, then claim it. */
    method ClaimFrom(run: string, before: Snapshot, worker: string, seconds: int, key: string, env: Env,
                     ghost s: Snapshot)
      returns (r: Result<Snapshot, Error>, grant: Option<Claim>)
      requires Reads(run, before, s, env.replays(0))
      modifies this`runs, this`events, this`eventIds, this`leases
      ensures Carried(old(Look()), run, s,
                      ClaimScript(s, old(events[run]), LeaseOf(old(Look()), run), run, worker, seconds, key, env), env,
                        2, r, grant)
    {
      ghost var free := Recoverable(s, LeaseOf(Look(), run), env.now);
      ghost var next := ClaimNext(s.state.ReadyForCodex? || free, HandedOut(s, events[run], free, env),
                                  run in leases && !free, run, worker, seconds, key, env);
      ClaimSplits(s, events[run], LeaseOf(Look(), run), run, worker, seconds, key, env, next);
      ghost var should := Enact(hash, Look(), run, s,
                                RecoverScript(s, LeaseOf(Look(), run), env.mint(4), env.now, next), env, 2);
      var k;
      ghost var t;
      grant := None;
      r, k, t := RecoverExpiredLease(run, before, env.mint(4), env, 2, s, next);
      if r.Ok? {
        ghost var rest := Enact(hash, Look(), run, t, next, env, k);
        assert should == rest;
        assert next == ClaimNext(t.state.ReadyForCodex?, r.value.instruction, run in leases, run, worker, seconds, key,
                                 env);
        r, grant := ClaimReady(run, r.value, worker, seconds, key, env, k, t);
        assert Ended(rest, r, grant, Look(), run, env.replays(1));
      }
    }

    /** Claim the turn if there is one to claim. */
    method ClaimReady(run: string, seen: Snapshot, worker: string, seconds: int, key: string, env: Env, n: nat,
                      ghost s: Snapshot)
      returns (r: Result<Snapshot, Error>, grant: Option<Claim>)
      requires run in runs && run in events && LogOk(hash, run, runs[run], events[run], s) && seen.state == s.state
      modifies this`runs, this`events, this`eventIds, this`leases
      ensures Carried(old(Look()), run, s,
                      ClaimNext(s.state.ReadyForCodex?, seen.instruction, run in old(leases), run, worker, seconds, key,
                                env), env, n, r, grant)
    {
      if !seen.state.ReadyForCodex? || seen.instruction.None? {
        return Err(Conflict), None;
      }
      if run in leases {
        return Err(Conflict), None;
      }
      r, grant := GrantTurn(run, seen.instruction.value, worker, seconds, key, env, n, s);
    }

    method GrantTurn(run: string, i: Instruction, worker: string, seconds: int, key: string, env: Env, n: nat,
                     ghost s: Snapshot)
      returns (r: Result<Snapshot, Error>, grant: Option<Claim>)
      requires run in runs && run in events && LogOk(hash, run, runs[run], events[run], s)
      modifies this`runs, this`events, this`eventIds, this`leases
      ensures Carried(old(Look()), run, s, GrantScript(i, run, worker, seconds, key, env), env, n, r, grant)
    {
      GrantEnacts(hash, Look(), run, s, i, worker, seconds, key, env, n);
      var claim := Claim(run, worker, i, env.mint(1), env.now + seconds * 1000000);
      r, grant := RecordClaim(run, claim, key, env, n, s);
    }

    /** The lease row and the event that go with a claim. */
    method RecordClaim(run: string, claim: Claim, key: string, env: Env, n: nat, ghost s: Snapshot)
      returns (r: Result<Snapshot, Error>, grant: Option<Claim>)
      requires run in runs && run in events && LogOk(hash, run, runs[run], events[run], s)
      modifies this`runs, this`events, this`eventIds, this`leases
      ensures Ended(Taken(hash, old(Look()), run, s, claim, key, env, n), r, grant, Look(), run, env.replays(1))
    {
      grant := Some(claim);
      var taken := TakeLease(run, Lease(claim.worker, claim.token, claim.expiresAt, env.now));
      if !taken {
        return Err(Collision), None;
      }
      r := Last(run, TurnClaimed(claim.worker, claim.expiresAt), Worker, key, env, n, s, grant);
    }

    /** Does this worker hold the run's turn right now? */
    method AssertLease(run: string, worker: string, token: string, now: int) returns (ok: bool)
      ensures ok == Holds(LeaseOf(Look(), run), worker, token, now)
    {
      if run !in leases {
        return false;
      }
      var lease := leases[run];
      if lease.worker != worker || lease.token != token {
        return false;
      }
      return lease.expiresAt > now;
    }

    method ResultBody(run: string, worker: string, token: string, result: ExecutionResult, key: string, env: Env,
                      ghost s: Snapshot)
      returns (r: Result<Snapshot, Error>)
      requires Settled(hash, Look(), run, s)
      modifies this`runs, this`events, this`eventIds, this`leases
      ensures Carried(old(Look()), run, s,
                      ResultScript(s, LeaseOf(old(Look()), run), worker, token, result, key, env.now), env, 2, r, None)
    {
      var before := Open(run, env, s);
      if !before.state.CodexRunning? {
        return Err(IllegalMove);
      }
      var held := AssertLease(run, worker, token, env.now);
      if !held {
        return Err(BadLease);
      }
      r := LastDropping(run, ResultSubmitted(result), Worker, key, env, s);
    }

    method ProgressBody(run: string, request: Request, key: string, env: Env, ghost s: Snapshot)
      returns (r: Result<Snapshot, Error>)
      requires Settled(hash, Look(), run, s) && (request.ReportProgress? || request.ReportBlocker?)
      modifies this`runs, this`events, this`eventIds, this`leases
      ensures Carried(old(Look()), run, s,
                      ScriptFor(s, old(events[run]), LeaseOf(old(Look()), run), run, request, key, env), env, 2, r,
                        None)
    {
      var held := AssertLease(run, request.worker, request.token, env.now);
      if !held {
        return Err(BadLease);
      }
      if request.ReportProgress? {
        r := Last(run, ProgressReported(request.message), Worker, key, env, 2, s, None);
      } else {
        r := LastDropping(run, HumanRequested(request.reason), Worker, key, env, s);
      }
    }

    method ResumeBody(run: string, key: string, env: Env, ghost s: Snapshot) returns (r: Result<Snapshot, Error>)
      requires Settled(hash, Look(), run, s)
      modifies this`runs, this`events, this`eventIds
      ensures Carried(old(Look()), run, s,
                      ScriptFor(s, old(events[run]), LeaseOf(old(Look()), run), run, Request.ResumeRun, key, env), env,
                        2, r, None)
    {
      var before := Open(run, env, s);
      if !before.state.PausedState? {
        return Err(IllegalMove);
      }
      r := Last(run, Resumed, Control, key, env, 2, s, None);
    }

    /** Stopping checks the state first; failing lets the replay refuse it. */
    method EndBody(run: string, request: Request, key: string, env: Env, ghost s: Snapshot)
      returns (r: Result<Snapshot, Error>)
      requires Settled(hash, Look(), run, s) && (request.StopRun? || request.FailRun?)
      modifies this`runs, this`events, this`eventIds, this`leases
      ensures Carried(old(Look()), run, s,
                      ScriptFor(s, old(events[run]), LeaseOf(old(Look()), run), run, request, key, env), env, 2, r,
                        None)
    {
      if request.StopRun? {
        var before := Open(run, env, s);
        if before.state.Terminal() {
          return Err(IllegalMove);
        }
      }
      r := LastDropping(run, if request.StopRun? then Stopped(request.reason) else Failed(request.reason), Control, key,
                        env, s);
    }

    // ---- the transaction around a body ----

    /** What a call reports, and that it either changed the tables as it should or not at all. */
    ghost predicate Did(st: Store, should: Result<(Store, Answer), Error>, r: Result<Answer, Error>)
      reads this
    {
      match should
      case Err(e) => r == Err(e) && Look() == st
      case Ok((after, answer)) => r == Ok(answer) && Look() == after
    }

    /** Look up the run and the key: a missing run or a repeated delivery is settled here. */
    method Recall(run: string, key: string, request: Request, env: Env)
      returns (settled: bool, r: Result<Answer, Error>)
      requires Valid() && !request.CreateRun?
      ensures settled <==> run !in runs || (run, key) in operations
      ensures settled ==> r == if run !in runs then Err(NotFound) else
                                Repeat(hash, Look(), run, operations[(run, key)], request, env.replays(0))
    {
      settled, r := true, Err(NotFound);
      if run !in runs {
        return;
      }
      if (run, key) !in operations {
        return false, r;
      }
      var op := operations[(run, key)];
      if op.request != request {
        return true, Err(DuplicateDelivery);
      }
      if request.ClaimTurn? {
        if !op.response.Granted? {
          return true, Err(Corrupt);
        }
        var i := ReadInstruction(op.response.claim.instruction);
        return true, if i.None? then Err(BadInput)
          else Ok(Claimed(op.response.claim.(run := run, instruction := i.value)));
      }
      var snapshot := ReadSnapshot(run, env.replays(0));
      return true, AsCurrent(snapshot);
    }

    /** The body a request calls for. */
    method Body(run: string, request: Request, key: string, env: Env, ghost s: Snapshot)
      returns (r: Result<Snapshot, Error>, grant: Option<Claim>)
      requires Settled(hash, Look(), run, s) && !request.CreateRun?
      modifies this`runs, this`events, this`eventIds, this`leases
      ensures Carried(old(Look()), run, s,
                      ScriptFor(s, old(events[run]), LeaseOf(old(Look()), run), run, request, key, env), env, 2, r,
                        grant)
    {
      grant := None;
      match request
      case SubmitInstruction(i) => r := InstructBody(run, i, key, env, s);
      case ClaimTurn(worker, seconds) => r, grant := ClaimBody(run, worker, seconds, key, env, s);
      case SubmitResult(worker, token, result) => r := ResultBody(run, worker, token, result, key, env, s);
      case ReportProgress(_, _, _) => r := ProgressBody(run, request, key, env, s);
      case ReportBlocker(_, _, _) => r := ProgressBody(run, request, key, env, s);
      case RequestHuman(reason) => r := HumanBody(run, reason, key, env, s);
      case PauseRun(reason) => r := PauseBody(run, reason, key, env, s);
      case ResumeRun => r := ResumeBody(run, key, env, s);
      case StopRun(_) => r := EndBody(run, request, key, env, s);
      case FailRun(_) => r := EndBody(run, request, key, env, s);
      case CompleteRun(rationale) => r := CompleteBody(run, rationale, key, env, s);
    }

    /** Commit a body and remember the operation, or roll everything back. */
    method Conclude(saved: Store, run: string, request: Request, key: string, env: Env, ghost s: Snapshot,
                    body: Result<Snapshot, Error>, grant: Option<Claim>)
      returns (r: Result<Answer, Error>)
      requires run in saved.runs && (run, key) !in saved.operations && SnapshotOf(hash, saved, run) == Ok(s)
      requires Carried(saved, run, s, ScriptFor(s, Log(saved, run), LeaseOf(saved, run), run, request, key, env), env,
                       2, body, grant)
      modifies this
      ensures Did(saved, HandleRun(hash, saved, run, request, key, env), r)
    {
      if body.Err? {
        Restore(saved);
        return Err(body.error);
      }
      var response := if grant.Some? then Granted(grant.value) else Reached(body.value.state);
      operations := operations[(run, key) := Operation(request, response, env.now)];
      return Ok(if grant.Some? then Claimed(grant.value) else Current(body.value));
    }

    /** One delivery to a run, in one transaction. */
    method Transact(run: string, request: Request, key: string, env: Env) returns (r: Result<Answer, Error>)
      requires Valid() && !request.CreateRun?
      modifies this
      ensures Did(old(Look()), HandleRun(hash, old(Look()), run, request, key, env), r)
    {
      var settled;
      settled, r := Recall(run, key, request, env);
      if settled {
        return;
      }
      var saved := Look();
      ghost var s := RunSnapshot(hash, saved, run);
      var body, grant := Body(run, request, key, env, s);
      r := Conclude(saved, run, request, key, env, s, body, grant);
    }

    // ---- the public operations ----

    /** The specification of a public call: it does what the ledger says, all or nothing. */
    ghost predicate Served(st: Store, run: string, input: Input, key: Option<string>, env: Env,
                           r: Result<Answer, Error>)
      reads this
    {
      Did(st, Handle(hash, config, st, Call(run, input, key), env), r) && Valid()
    }

    /** After its input is read, a call to a run is one transaction. */
    method Serve(run: string, ghost input: Input, request: Request, key: Option<string>, env: Env)
      returns (r: Result<Answer, Error>)
      requires Valid() && !request.CreateRun? && Read(config, input, env) == Ok(request)
      modifies this
      ensures Served(old(Look()), run, input, key, env, r)
    {
      CallKeeps(hash, config, Look(), Call(run, input, key), env);
      var slot := KeyFor(key, env);
      if slot.Err? {
        return Err(slot.error);
      }
      r := Transact(run, request, slot.value, env);
    }

    method SubmitInstruction(run: string, handoff: Handoff, key: Option<string>, env: Env)
      returns (r: Result<Answer, Error>)
      requires Valid()
      modifies this
      ensures Served(old(Look()), run, Submit(handoff), key, env, r)
    {
      var i := ReadHandoff(handoff, env.mint(5));
      if i.None? {
        return Err(BadInput);
      }
      r := Serve(run, Submit(handoff), Request.SubmitInstruction(i.value), key, env);
    }

    method ClaimTurn(run: string, worker: string, seconds: Option<int>, key: Option<string>, env: Env)
      returns (r: Result<Answer, Error>)
      requires Valid()
      modifies this
      ensures Served(old(Look()), run, TakeTurn(worker, seconds), key, env, r)
    {
      var name := Required(worker);
      var duration := if seconds.Some? then seconds.value else config.leaseSeconds;
      if name.None? || duration < 1 {
        return Err(BadInput);
      }
      r := Serve(run, TakeTurn(worker, seconds), Request.ClaimTurn(name.value, duration), key, env);
    }

    method SubmitResult(run: string, worker: string, token: string, report: Report, key: Option<string>, env: Env)
      returns (r: Result<Answer, Error>)
      requires Valid()
      modifies this
      ensures Served(old(Look()), run, Deliver(worker, token, report), key, env, r)
    {
      var result := ReadReport(report);
      if result.None? {
        return Err(BadInput);
      }
      r := Serve(run, Deliver(worker, token, report), Request.SubmitResult(worker, token, result.value), key, env);
    }

    method ReportProgress(run: string, worker: string, token: string, message: string, key: Option<string>, env: Env)
      returns (r: Result<Answer, Error>)
      requires Valid()
      modifies this
      ensures Served(old(Look()), run, Note(worker, token, message), key, env, r)
    {
      var text := Required(message);
      if text.None? {
        return Err(BadInput);
      }
      r := Serve(run, Note(worker, token, message), Request.ReportProgress(worker, token, text.value), key, env);
    }

    method ReportBlocker(run: string, worker: string, token: string, reason: string, key: Option<string>, env: Env)
      returns (r: Result<Answer, Error>)
      requires Valid()
      modifies this
      ensures Served(old(Look()), run, Block(worker, token, reason), key, env, r)
    {
      var text := Required(reason);
      if text.None? {
        return Err(BadInput);
      }
      r := Serve(run, Block(worker, token, reason), Request.ReportBlocker(worker, token, text.value), key, env);
    }

    method RequestHuman(run: string, reason: string, key: Option<string>, env: Env) returns (r: Result<Answer, Error>)
      requires Valid()
      modifies this
      ensures Served(old(Look()), run, AskHuman(reason), key, env, r)
    {
      var text := Required(reason);
      if text.None? {
        return Err(BadInput);
      }
      r := Serve(run, AskHuman(reason), Request.RequestHuman(text.value), key, env);
    }

    method PauseRun(run: string, reason: string, key: Option<string>, env: Env) returns (r: Result<Answer, Error>)
      requires Valid()
      modifies this
      ensures Served(old(Look()), run, AskPause(reason), key, env, r)
    {
      var text := Required(reason);
      if text.None? {
        return Err(BadInput);
      }
      r := Serve(run, AskPause(reason), Request.PauseRun(text.value), key, env);
    }

    method ResumeRun(run: string, key: Option<string>, env: Env) returns (r: Result<Answer, Error>)
      requires Valid()
      modifies this
      ensures Served(old(Look()), run, AskResume, key, env, r)
    {
      r := Serve(run, AskResume, Request.ResumeRun, key, env);
    }

    method StopRun(run: string, reason: string, key: Option<string>, env: Env) returns (r: Result<Answer, Error>)
      requires Valid()
      modifies this
      ensures Served(old(Look()), run, AskStop(reason), key, env, r)
    {
      var text := Required(reason);
      if text.None? {
        return Err(BadInput);
      }
      r := Serve(run, AskStop(reason), Request.StopRun(text.value), key, env);
    }

    method FailRun(run: string, reason: string, key: Option<string>, env: Env) returns (r: Result<Answer, Error>)
      requires Valid()
      modifies this
      ensures Served(old(Look()), run, AskFail(reason), key, env, r)
    {
      var text := Required(reason);
      if text.None? {
        return Err(BadInput);
      }
      r := Serve(run, AskFail(reason), Request.FailRun(text.value), key, env);
    }

    method CompleteRun(run: string, rationale: string, key: Option<string>, env: Env) returns (r: Result<Answer, Error>)
      requires Valid()
      modifies this
      ensures Served(old(Look()), run, AskComplete(rationale), key, env, r)
    {
      var text := Required(rationale);
      if text.None? {
        return Err(BadInput);
      }
      r := Serve(run, AskComplete(rationale), Request.CompleteRun(text.value), key, env);
    }

    /** Insert the run with its first two events. */
    method OpenRun(run: string, objective: string, max: int, key: string, env: Env) returns (r: Result<Snapshot, Error>)
      requires Valid() && Required(objective) == Some(objective)
      modifies this`runs, this`events, this`eventIds
      ensures match Opened(hash, old(Look()), run, objective, max, config.policy, key, env)
              case Err(e) => r == Err(e)
              case Ok((st, t)) => r == Ok(t) && Look() == st
    {
      if run in runs {
        return Err(Collision);
      }
      var row := NewRow(objective, max, config.policy, env.now);
      runs := runs[run := row];
      var first := Content(env.mint(2), run, RunCreated(objective, max, config.policy), Control, Some(key + ":created"),
                           env.now);
      var stored := AppendEvent(run, first);
      if !stored {
        return Err(Collision);
      }
      if max < 1 {
        return Err(Corrupt);
      }
      FirstEvent(hash, run, first, Create(first).value);
      r := AppendAndSync(run, PlanningStarted, System, key + ":planning", env, 3, env.replays(1), Create(first).value);
    }

    method CreateRun(objective: string, max: int, key: Option<string>, env: Env) returns (r: Result<Answer, Error>)
      requires Valid()
      modifies this
      ensures Served(old(Look()), "", Begin(objective, max), key, env, r)
    {
      CallKeeps(hash, config, Look(), Call("", Begin(objective, max), key), env);
      ReadCreate(config, Begin(objective, max), env);
      var text := Required(objective);
      if text.None? {
        return Err(BadInput);
      }
      if !(1 <= max <= config.ceiling) {
        return Err(BeyondPolicy);
      }
      var slot := KeyFor(key, env);
      if slot.Err? {
        return Err(slot.error);
      }
      r := Begun(text.value, max, slot.value, env);
    }

    /** The transaction of a creation. */
    method Begun(objective: string, max: int, key: string, env: Env) returns (r: Result<Answer, Error>)
      requires Valid() && Required(objective) == Some(objective)
      modifies this
      ensures Did(old(Look()), HandleCreate(hash, config, old(Look()), objective, max, key, env), r)
    {
      var request := Request.CreateRun(objective, max);
      if (CREATE_SCOPE, key) in operations {
        return Repeat(hash, Look(), CREATE_SCOPE, operations[(CREATE_SCOPE, key)], request, env.replays(0));
      }
      var saved, run := Look(), env.mint(1);
      var snapshot := OpenRun(run, objective, max, key, env);
      if snapshot.Err? {
        Restore(saved);
        return Err(snapshot.error);
      }
      operations := operations[(CREATE_SCOPE, key) := Operation(request, Created(run), env.now)];
      return Ok(Current(snapshot.value));
    }

    /** The sweep after a restart, over the lease rows in the database's order; one transaction. */
    method RecoverExpiredLeases(rows: seq<string>, env: Env) returns (r: Result<seq<string>, Error>)
      requires Valid() && Lists(rows, leases)
      modifies this
      ensures Valid() && Look() == Made(hash, config, old(Look()), Restarted(rows, env))
      ensures match Sweep(hash, old(Look()), rows, env)
              case Err(e) => r == Err(e)
              case Ok((_, recovered)) => r == Ok(recovered)
    {
      var saved := Look();
      L.MoveKeeps(hash, config, saved, Restarted(rows, env), Made(hash, config, saved, Restarted(rows, env)));
      r := SweepRows(rows, env);
      if r.Err? {
        Restore(saved);
      }
    }

    /** The loop of the sweep. */
    method SweepRows(rows: seq<string>, env: Env) returns (r: Result<seq<string>, Error>)
      requires Agree(hash, Look()) && Lists(rows, leases)
      modifies this`runs, this`events, this`eventIds, this`leases
      ensures match Sweep(hash, old(Look()), rows, env)
              case Err(e) => r == Err(e)
              case Ok((done, recovered)) => r == Ok(recovered) && Look() == done
    {
      ghost var saved := Look();
      var recovered: seq<string> := [];
      for i := 0 to |rows|
        invariant Sweep(hash, saved, rows[..i], env) == Ok((Look(), recovered))
      {
        L.MidSweep(hash, saved, rows, i, env, Look(), recovered);
        ghost var mid := Look();
        var step := RecoverRow(rows[i], env, 2 * (i + 1));
        L.SweepAdvance(hash, saved, rows, i, env, mid, recovered, Recover(hash, mid, rows[i], env, 2 * (i + 1)));
        if step.Err? {
          L.SweepStops(hash, saved, rows, i + 1, env);
          return Err(step.error);
        }
        recovered := if step.value then recovered + [rows[i]] else recovered;
      }
      assert rows[..|rows|] == rows;
      return Ok(recovered);
    }

    method RecoverRow(run: string, env: Env, n: nat)
      returns (step: Result<bool, Error>)
      requires Agree(hash, Look()) && run in leases
      modifies this`runs, this`events, this`eventIds, this`leases
      ensures match Recover(hash, old(Look()), run, env, n)
              case Err(e) => step == Err(e)
              case Ok((done, expired)) => step == Ok(expired) && Look() == done
    {
      ghost var s := RunSnapshot(hash, Look(), run);
      var before := Open(run, env, s);
      var after, k;
      ghost var t;
      after, k, t := RecoverExpiredLease(run, before, env.mint(n), env, n + 1, s, Finish(None));
      step := if after.Err? then Err(after.error)
        else Ok(before.state.CodexRunning? && after.value.state.ReadyForCodex?);
    }

    method AddArtifact(run: string, kind: string, content: string, env: Env) returns (r: Result<string, Error>)
      requires Valid()
      modifies this`artifacts
      ensures Valid()
      ensures match Attach(old(Look()), run, kind, content, env)
              case Err(e) => r == Err(e) && Look() == old(Look())
              case Ok(st) => r == Ok(env.mint(1)) && Look() == st
      ensures r == if Strip(kind) == "" then Err(BadInput) else if run !in runs then Err(NotFound)
                   else if env.mint(1) in old(artifacts) then Err(Collision) else Ok(env.mint(1))
      ensures artifacts == if r.Err? then old(artifacts)
                           else old(artifacts)[r.value := Artifact(run, Strip(kind), content, env.now)]
    {
      var name := Required(kind);
      if name.None? {
        return Err(BadInput);
      }
      if run !in runs {
        return Err(NotFound);
      }
      if env.mint(1) in artifacts {
        return Err(Collision);
      }
      artifacts := artifacts[env.mint(1) := Artifact(run, name.value, content, env.now)];
      return Ok(env.mint(1));
    }
  }
}
