/** What each public call of the controller does, spelled out: when it succeeds and with which error it fails
    otherwise, which events it records under whose name, what becomes of the lease, and what it answers. */
module OperationLaws {
  import opened Common
  import opened HashChain
  import opened Text
  import opened Protocol
  import opened ProtocolLaws
  import opened Ledger
  import opened LedgerLaws

  // ---- what a call leaves ----

  /** The log with these contents appended: numbered, chained and signed one after the other. */
  function Chained(hash: Hash<Content>, log: seq<Event>, contents: seq<Content>): seq<Event>
    decreases |contents|
  {
    if contents == [] then log
    else
      var c, previous := contents[0], if log == [] then GENESIS else log[|log| - 1].digest;
      Chained(hash, log + [Entry(|log| + 1, c, previous, hash(|log| + 1, c, previous))], contents[1..])
  }

  /** The tables with these events recorded for the run, the row following its snapshot, and this lease. */
  function Rows(hash: Hash<Content>, st: Store, run: string, contents: seq<Content>, lease: Option<Lease>, t: Snapshot,
                now: int): Store
    requires run in st.runs && run in st.events
  {
    var row := st.runs[run];
    Store(st.runs[run := row.(state := t.state, iteration := t.iteration, updatedAt := now,
                              version := row.version + |contents|)],
          st.events[run := Chained(hash, st.events[run], contents)],
          st.eventIds + (set c | c in contents :: c.id),
          if lease.Some? then st.leases[run := lease.value] else st.leases - {run},
          st.operations, st.artifacts)
  }

  /** The same with the operation remembered under its key. */
  function Leaves(hash: Hash<Content>, st: Store, run: string, contents: seq<Content>, lease: Option<Lease>,
                  t: Snapshot, now: int, key: string, request: Request, response: Response): Store
    requires run in st.runs && run in st.events
  {
    var rows := Rows(hash, st, run, contents, lease, t, now);
    rows.(operations := st.operations[(run, key) := Operation(request, response, now)])
  }

  /** A call that recorded these events and answered with the run as they leave it. */
  ghost predicate Recorded(hash: Hash<Content>, st: Store, run: string, contents: seq<Content>, lease: Option<Lease>,
                           t: Snapshot, key: string, request: Request, env: Env, r: Result<(Store, Answer), Error>)
  {
    && run in st.runs && run in st.events
    && var log := Chained(hash, st.events[run], contents);
       r == Ok((Leaves(hash, st, run, contents, lease, t, env.now, key, request, Reached(t.state)),
                Current(Seen(t, MintedIn(log, env.replays(1))))))
  }

  /** The run as the tables have it. */
  ghost predicate Known(hash: Hash<Content>, st: Store, run: string, s: Snapshot) {
    Coherent(hash, st) && Settled(hash, st, run, s)
  }

  /** A first delivery under this key to a run of which `s` is known, with new identifiers at hand. */
  ghost predicate Fresh(hash: Hash<Content>, st: Store, call: Call, s: Snapshot, key: string, env: Env) {
    && call.run in st.runs && call.run in st.events && (forall x :: x == st ==> Known(hash, x, call.run, s))
    && (if call.key.None? then key == "generated:" + env.mint(0) else key == Strip(call.key.value) && key != "")
    && (call.run, key) !in st.operations
    && env.mint(2) !in st.eventIds && env.mint(3) !in st.eventIds && env.mint(2) != env.mint(3)
  }

  /** The run is leased to this worker under this token, and not yet expired. */
  predicate Live(st: Store, run: string, worker: string, token: string, now: int) {
    && run in st.leases && st.leases[run].worker == worker && st.leases[run].token == token
    && now < st.leases[run].expiresAt
  }

  predicate Ended(state: RunState) {
    state.HumanRequired? || state.FailedState? || state.CompleteState? || state.StoppedState?
  }

  // ---- from scripts to tables ----

  lemma ChainedOne(hash: Hash<Content>, log: seq<Event>, c: Content)
    ensures Chained(hash, log, [c]) == log + [Next(hash, GENESIS, log, c)]
  {
    assert [c][1..] == [];
  }

  lemma ChainedTwo(hash: Hash<Content>, log: seq<Event>, c: Content, d: Content)
    ensures Chained(hash, log, [c, d]) == Chained(hash, Chained(hash, log, [c]), [d])
  {
    assert [c][1..] == [] && [c, d][1..] == [d];
  }

  /** The tables with the lease of the run put as given, before any event. */
  function Leasing(st: Store, run: string, lease: Option<Lease>): Store {
    st.(leases := if lease.Some? then st.leases[run := lease.value] else st.leases - {run})
  }

  lemma OneId(c: Content)
    ensures (set x | x in [c] :: x.id) == {c.id}
  {
  }

  lemma TwoIds(ids: set<string>, c: Content, d: Content)
    ensures ids + {c.id} + {d.id} == ids + (set x | x in [c, d] :: x.id)
  {
    assert (set x | x in [c, d] :: x.id) == {c.id, d.id};
  }

  lemma PutTwice<V>(m: map<string, V>, k: string, a: V, b: V)
    ensures m[k := a][k := b] == m[k := b]
  {
  }

  lemma LeaseTwice(st: Store, run: string, lease: Option<Lease>)
    ensures Leasing(Leasing(st, run, lease), run, lease) == Leasing(st, run, lease)
  {
    if lease.None? {
      assert st.leases - {run} - {run} == st.leases - {run};
    } else {
      PutTwice(st.leases, run, lease.value, lease.value);
    }
  }

  lemma RowsOne(hash: Hash<Content>, st: Store, run: string, s: Snapshot, c: Content, lease: Option<Lease>, t: Snapshot)
    requires run in st.runs && run in st.events && Apply(s, c) == Ok(t) && c.id !in st.eventIds
    ensures AppendAndSync(hash, Leasing(st, run, lease), run, s, c) == Ok((Rows(hash, st, run, [c], lease, t, c.at), t))
  {
    ChainedOne(hash, st.events[run], c);
    OneId(c);
  }

  lemma EnactNext(hash: Hash<Content>, st: Store, run: string, s: Snapshot, c: Content, next: Script, env: Env, n: nat,
                  done: Store, t: Snapshot)
    requires run in st.runs && c.key.Some?
    requires c == Content(env.mint(n), run, c.payload, c.actor, c.key, env.now)
    requires AppendAndSync(hash, st, run, s, c) == Ok((done, t)) && run in done.runs
    ensures Enact(hash, st, run, s, Append(c.payload, c.actor, c.key.value, next), env, n) ==
            Enact(hash, done, run, t, next, env, n + 1)
  {
  }

  lemma EnactOne(hash: Hash<Content>, st: Store, run: string, s: Snapshot, c: Content, lease: Option<Lease>,
                 t: Snapshot, grant: Option<Claim>, env: Env, n: nat)
    requires run in st.runs && run in st.events && Apply(s, c) == Ok(t) && c.key.Some?
    requires c == Content(env.mint(n), run, c.payload, c.actor, c.key, env.now) && c.id !in st.eventIds
    ensures Enact(hash, Leasing(st, run, lease), run, s, Append(c.payload, c.actor, c.key.value, Finish(grant)), env, n)
            == Ok(Enacted(Rows(hash, st, run, [c], lease, t, env.now), t, grant))
  {
    RowsOne(hash, st, run, s, c, lease, t);
    EnactNext(hash, Leasing(st, run, lease), run, s, c, Finish(grant), env, n,
              Rows(hash, st, run, [c], lease, t, env.now), t);
  }

  lemma RowsTwo(hash: Hash<Content>, st: Store, run: string, c: Content, mid: Snapshot, d: Content,
                lease: Option<Lease>, t: Snapshot, now: int)
    requires run in st.runs && run in st.events
    ensures var first := Rows(hash, st, run, [c], lease, mid, now);
            Leasing(first, run, lease) == first
            && Rows(hash, first, run, [d], lease, t, now) == Rows(hash, st, run, [c, d], lease, t, now)
  {
    var row := st.runs[run];
    OneId(c);
    OneId(d);
    TwoIds(st.eventIds, c, d);
    ChainedTwo(hash, st.events[run], c, d);
    LeaseTwice(st, run, lease);
    PutTwice(st.runs, run, row.(state := mid.state, iteration := mid.iteration, updatedAt := now,
                                version := row.version + 1),
             row.(state := t.state, iteration := t.iteration, updatedAt := now, version := row.version + 2));
    PutTwice(st.events, run, Chained(hash, st.events[run], [c]), Chained(hash, st.events[run], [c, d]));
  }

  lemma EnactTwo(hash: Hash<Content>, st: Store, run: string, s: Snapshot, c: Content, d: Content,
                 lease: Option<Lease>, mid: Snapshot, t: Snapshot, grant: Option<Claim>, env: Env, n: nat)
    requires run in st.runs && run in st.events && Apply(s, c) == Ok(mid) && Apply(mid, d) == Ok(t)
    requires c == Content(env.mint(n), run, c.payload, c.actor, c.key, env.now) && c.key.Some?
    requires d == Content(env.mint(n + 1), run, d.payload, d.actor, d.key, env.now) && d.key.Some?
    requires c.id !in st.eventIds && d.id !in st.eventIds && c.id != d.id
    ensures Enact(hash, Leasing(st, run, lease), run, s,
                  Append(c.payload, c.actor, c.key.value, Append(d.payload, d.actor, d.key.value, Finish(grant))),
                  env, n)
            == Ok(Enacted(Rows(hash, st, run, [c, d], lease, t, env.now), t, grant))
  {
    var first := Rows(hash, st, run, [c], lease, mid, env.now);
    RowsOne(hash, st, run, s, c, lease, mid);
    EnactNext(hash, Leasing(st, run, lease), run, s, c, Append(d.payload, d.actor, d.key.value, Finish(grant)), env, n,
              first, mid);
    OneId(c);
    RowsTwo(hash, st, run, c, mid, d, lease, t, env.now);
    EnactOne(hash, first, run, mid, d, lease, t, grant, env, n + 1);
  }

  lemma FreshKnown(hash: Hash<Content>, st: Store, call: Call, s: Snapshot, key: string, env: Env)
    requires Fresh(hash, st, call, s, key, env)
    ensures SnapshotOf(hash, st, call.run) == Ok(s) && (call.run in st.leases <==> s.state.CodexRunning?)
    ensures s.run == call.run && (s.state.PausedState? ==> s.pausedFrom.Some?)
    ensures s.state.ReadyForCodex? || s.state.CodexRunning? ==> s.instruction.Some?
  {
    assert Known(hash, st, call.run, s);
    SnapshotOk(hash, st, call.run, s);
  }

  lemma LeaseAsIs(st: Store, run: string)
    ensures Leasing(st, run, LeaseOf(st, run)) == st
    ensures Leasing(st, run, None) == Dropped(st, run)
  {
    if run !in st.leases {
      assert st.leases - {run} == st.leases;
    } else {
      assert st.leases[run := st.leases[run]] == st.leases;
    }
  }

  // Three facts that the laws below pass on without looking into them.

  /** What the call returns. */
  ghost predicate Returns(hash: Hash<Content>, config: Config, st: Store, call: Call, env: Env,
                          r: Result<(Store, Answer), Error>)
  {
    forall c :: c == call ==> r == Handle(hash, config, st, c, env)
  }

  /** What the input is read as, and the script that carries it out. */
  ghost predicate Means(config: Config, st: Store, call: Call, env: Env, s: Snapshot, key: string, request: Request,
                        script: Script)
    requires call.run in st.events
  {
    && !request.CreateRun?
    && forall i :: i == call.input ==>
         Read(config, i, env) == Ok(request)
         && ScriptFor(s, st.events[call.run], LeaseOf(st, call.run), call.run, request, key, env) == script
  }

  lemma MeansIt(config: Config, st: Store, call: Call, env: Env, s: Snapshot, key: string, request: Request,
                script: Script)
    requires call.run in st.events && !request.CreateRun? && Read(config, call.input, env) == Ok(request)
    requires ScriptFor(s, st.events[call.run], LeaseOf(st, call.run), call.run, request, key, env) == script
    ensures Means(config, st, call, env, s, key, request, script)
  {
  }

  /** What the event makes of the run, or the fault it raises. */
  ghost predicate Makes(s: Snapshot, c: Content, r: Result<Snapshot, Fault>) {
    forall d :: d == c ==> Apply(s, d) == r
  }

  /** The event that the call records in n-th place. */
  predicate Noted(c: Content, call: Call, env: Env, n: nat) {
    c == Content(env.mint(n), call.run, c.payload, c.actor, c.key, env.now) && c.key.Some?
  }

  /** A first delivery does what its script does. */
  lemma Delivers(hash: Hash<Content>, config: Config, st: Store, call: Call, env: Env, s: Snapshot, key: string,
                 request: Request, script: Script, done: Result<Enacted, Error>, r: Result<(Store, Answer), Error>)
    requires Fresh(hash, st, call, s, key, env) && Means(config, st, call, env, s, key, request, script)
    requires done == Enact(hash, st, call.run, s, script, env, 2) && Returns(hash, config, st, call, env, r)
    ensures r == if done.Err? then Err(done.error) else Ok(Concluded(done.value, call.run, key, request, env))
  {
    FreshKnown(hash, st, call, s, key, env);
    assert Read(config, call.input, env) == Ok(request);
    assert r == Handle(hash, config, st, call, env);
  }

  lemma Refuses(hash: Hash<Content>, config: Config, st: Store, call: Call, env: Env, s: Snapshot, key: string,
                request: Request, e: Error, r: Result<(Store, Answer), Error>)
    requires Fresh(hash, st, call, s, key, env) && Means(config, st, call, env, s, key, request, Refuse(e))
    requires Returns(hash, config, st, call, env, r)
    ensures r == Err(e)
  {
    Delivers(hash, config, st, call, env, s, key, request, Refuse(e), Err(e), r);
  }

  /** An input that cannot be read is refused before anything else. */
  lemma Unreadable(hash: Hash<Content>, config: Config, st: Store, call: Call, env: Env, e: Error,
                   r: Result<(Store, Answer), Error>)
    requires Read(config, call.input, env) == Err(e) && Returns(hash, config, st, call, env, r)
    ensures r == Err(e)
  {
    assert r == Handle(hash, config, st, call, env);
  }

  function Recording(c: Content, drop: bool): Script
    requires c.key.Some?
  {
    var record := Append(c.payload, c.actor, c.key.value, Finish(None));
    if drop then Drop(record) else record
  }

  /** One event, with the lease given up before it or left as it is. */
  lemma RecordsOne(hash: Hash<Content>, config: Config, st: Store, call: Call, env: Env, s: Snapshot, key: string,
                   request: Request, c: Content, drop: bool, t: Snapshot, r: Result<(Store, Answer), Error>)
    requires Fresh(hash, st, call, s, key, env) && Noted(c, call, env, 2)
    requires Means(config, st, call, env, s, key, request, Recording(c, drop)) && Makes(s, c, Ok(t))
    requires Returns(hash, config, st, call, env, r)
    ensures Recorded(hash, st, call.run, [c], if drop then None else LeaseOf(st, call.run), t, key, request, env, r)
  {
    var run, lease := call.run, if drop then None else LeaseOf(st, call.run);
    LeaseAsIs(st, run);
    assert Apply(s, c) == Ok(t);
    EnactOne(hash, st, run, s, c, lease, t, None, env, 2);
    Delivers(hash, config, st, call, env, s, key, request, Recording(c, drop),
             Ok(Enacted(Rows(hash, st, run, [c], lease, t, env.now), t, None)), r);
  }

  /** The one event does not apply: nothing is recorded. */
  lemma Spoils(hash: Hash<Content>, config: Config, st: Store, call: Call, env: Env, s: Snapshot, key: string,
               request: Request, c: Content, drop: bool, f: Fault, r: Result<(Store, Answer), Error>)
    requires Fresh(hash, st, call, s, key, env) && Noted(c, call, env, 2)
    requires Means(config, st, call, env, s, key, request, Recording(c, drop)) && Makes(s, c, Err(f))
    requires Returns(hash, config, st, call, env, r)
    ensures r == Err(Raised(f))
  {
    assert Apply(s, c) == Err(f);
    Delivers(hash, config, st, call, env, s, key, request, Recording(c, drop), Err(Raised(f)), r);
  }

  /** Two events, with the lease left as it is. */
  lemma RecordsTwo(hash: Hash<Content>, config: Config, st: Store, call: Call, env: Env, s: Snapshot, key: string,
                   request: Request, c: Content, mid: Snapshot, d: Content, t: Snapshot,
                   r: Result<(Store, Answer), Error>)
    requires Fresh(hash, st, call, s, key, env) && Noted(c, call, env, 2) && Noted(d, call, env, 3)
    requires Means(config, st, call, env, s, key, request, Append(c.payload, c.actor, c.key.value, Recording(d, false)))
    requires Makes(s, c, Ok(mid)) && Makes(mid, d, Ok(t)) && Returns(hash, config, st, call, env, r)
    ensures Recorded(hash, st, call.run, [c, d], LeaseOf(st, call.run), t, key, request, env, r)
  {
    var run, lease := call.run, LeaseOf(st, call.run);
    LeaseAsIs(st, run);
    assert Apply(s, c) == Ok(mid) && Apply(mid, d) == Ok(t);
    EnactTwo(hash, st, run, s, c, d, lease, mid, t, None, env, 2);
    Delivers(hash, config, st, call, env, s, key, request,
             Append(c.payload, c.actor, c.key.value, Recording(d, false)),
             Ok(Enacted(Rows(hash, st, run, [c, d], lease, t, env.now), t, None)), r);
  }

  /** The second event does not apply: the first is undone with it. */
  lemma SpoilsSecond(hash: Hash<Content>, config: Config, st: Store, call: Call, env: Env, s: Snapshot, key: string,
                     request: Request, c: Content, mid: Snapshot, next: Script, e: Error,
                     r: Result<(Store, Answer), Error>)
    requires Fresh(hash, st, call, s, key, env) && Noted(c, call, env, 2)
    requires Means(config, st, call, env, s, key, request, Append(c.payload, c.actor, c.key.value, next))
    requires Makes(s, c, Ok(mid)) && Returns(hash, config, st, call, env, r)
    requires forall store: Store :: call.run in store.runs && env.mint(3) !in store.eventIds ==>
                                      Enact(hash, store, call.run, mid, next, env, 3) == Err(e)
    ensures r == Err(e)
  {
    var run := call.run;
    LeaseAsIs(st, run);
    assert Apply(s, c) == Ok(mid);
    RowsOne(hash, st, run, s, c, LeaseOf(st, run), mid);
    var first := Rows(hash, st, run, [c], LeaseOf(st, run), mid, env.now);
    EnactNext(hash, st, run, s, c, next, env, 2, first, mid);
    OneId(c);
    Delivers(hash, config, st, call, env, s, key, request, Append(c.payload, c.actor, c.key.value, next), Err(e), r);
  }

  // ---- the worker's calls ----

  /** What is read of a required text. */
  lemma ReadsText(text: string)
    ensures Required(text) == if Strip(text) == "" then None else Some(Strip(text))
    ensures Strip(Strip(text)) == Strip(text)
  {
    StripTight(text);
    TightStrip(Strip(text));
  }

  /** The result as it is recorded: as submitted, a mapping with its texts stripped. */
  function RecordedResult(report: Report): ExecutionResult {
    if report.MappedReport? then ReadTexts(report.result) else report.result
  }

  function ReadTexts(e: ExecutionResult): ExecutionResult {
    ExecutionResult(e.verdict, Strip(e.summary), e.evidence, Strip(e.nextAction))
  }

  predicate Blank(e: ExecutionResult) {
    Strip(e.summary) == "" || Strip(e.nextAction) == ""
  }

  lemma ResultMeans(config: Config, st: Store, call: Call, env: Env, s: Snapshot, key: string, request: Request,
                    c: Content)
    requires call.input.Deliver? && call.run in st.events && c.key == Some(key) && c.actor.Worker?
    requires request == SubmitResult(call.input.worker, call.input.token, RecordedResult(call.input.report))
    requires c.payload == ResultSubmitted(request.result)
    ensures if call.input.report.MappedReport? && Blank(call.input.report.result) then
              Read(config, call.input, env) == Err(BadInput)
            else Means(config, st, call, env, s, key, request,
                       if !s.state.CodexRunning? then Refuse(IllegalMove)
                       else if !Live(st, call.run, call.input.worker, call.input.token, env.now) then Refuse(BadLease)
                       else Recording(c, true))
  {
    ReadsText(call.input.report.result.summary);
    ReadsText(call.input.report.result.nextAction);
    if !(call.input.report.MappedReport? && Blank(call.input.report.result)) {
      MeansIt(config, st, call, env, s, key, request,
              if !s.state.CodexRunning? then Refuse(IllegalMove)
              else if !Live(st, call.run, call.input.worker, call.input.token, env.now) then Refuse(BadLease)
              else Recording(c, true));
    }
  }

  lemma ResultMakes(s: Snapshot, c: Content, report: Report)
    requires c.payload == ResultSubmitted(RecordedResult(report)) && c.run == s.run && s.state.CodexRunning?
    ensures Makes(s, c, if Blank(report.result) then Err(Validation)
                        else Ok(s.(state := CodexComplete, lastResult := Some(ReadTexts(report.result)))))
  {
    ReadsText(report.result.summary);
    ReadsText(report.result.nextAction);
    ReadsText(Strip(report.result.summary));
    ReadsText(Strip(report.result.nextAction));
  }

  /** A result: taken from the worker who holds the live lease of a running turn, and recorded as it was
      submitted; the lease is gone and the run waits for review with the result. */
  lemma ResultLaw(hash: Hash<Content>, config: Config, st: Store, call: Call, env: Env, s: Snapshot, key: string,
                  r: Result<(Store, Answer), Error>)
    requires call.input.Deliver? && Fresh(hash, st, call, s, key, env) && Returns(hash, config, st, call, env, r)
    ensures var worker, token, report := call.input.worker, call.input.token, call.input.report;
            if report.MappedReport? && Blank(report.result) then r == Err(BadInput)
            else if !s.state.CodexRunning? then r == Err(IllegalMove)
            else if !Live(st, call.run, worker, token, env.now) then r == Err(BadLease)
            else if Blank(report.result) then r == Err(BadInput)
            else
              Recorded(hash, st, call.run,
                       [Content(env.mint(2), call.run, ResultSubmitted(RecordedResult(report)), Worker, Some(key),
                                env.now)],
                       None, s.(state := CodexComplete, lastResult := Some(ReadTexts(report.result))), key,
                       SubmitResult(worker, token, RecordedResult(report)), env, r)
  {
    FreshKnown(hash, st, call, s, key, env);
    var report := call.input.report;
    var request := SubmitResult(call.input.worker, call.input.token, RecordedResult(report));
    var c := Content(env.mint(2), call.run, ResultSubmitted(RecordedResult(report)), Worker, Some(key), env.now);
    ResultMeans(config, st, call, env, s, key, request, c);
    if report.MappedReport? && Blank(report.result) {
      Unreadable(hash, config, st, call, env, BadInput, r);
    } else if !s.state.CodexRunning? {
      Refuses(hash, config, st, call, env, s, key, request, IllegalMove, r);
    } else if !Live(st, call.run, call.input.worker, call.input.token, env.now) {
      Refuses(hash, config, st, call, env, s, key, request, BadLease, r);
    } else {
      ResultMakes(s, c, report);
      if Blank(report.result) {
        Spoils(hash, config, st, call, env, s, key, request, c, true, Validation, r);
      } else {
        RecordsOne(hash, config, st, call, env, s, key, request, c, true,
                   s.(state := CodexComplete, lastResult := Some(ReadTexts(report.result))), r);
      }
    }
  }

  lemma ProgressMeans(config: Config, st: Store, call: Call, env: Env, s: Snapshot, key: string, text: string,
                      c: Content)
    requires call.input.Note? && call.run in st.events && text == Strip(call.input.message) && text != ""
    requires c.key == Some(key) && c.actor.Worker? && c.payload == ProgressReported(text)
    ensures Means(config, st, call, env, s, key, ReportProgress(call.input.worker, call.input.token, text),
                  if !Live(st, call.run, call.input.worker, call.input.token, env.now) then Refuse(BadLease)
                  else Recording(c, false))
  {
    ReadsText(call.input.message);
    MeansIt(config, st, call, env, s, key, ReportProgress(call.input.worker, call.input.token, text),
            if !Live(st, call.run, call.input.worker, call.input.token, env.now) then Refuse(BadLease)
            else Recording(c, false));
  }

  lemma NothingSaid(config: Config, input: Input, env: Env)
    requires match input
             case Note(_, _, message) => Strip(message) == ""
             case Block(_, _, reason) => Strip(reason) == ""
             case AskHuman(reason) => Strip(reason) == ""
             case AskPause(reason) => Strip(reason) == ""
             case AskStop(reason) => Strip(reason) == ""
             case AskFail(reason) => Strip(reason) == ""
             case AskComplete(rationale) => Strip(rationale) == ""
             case _ => false
    ensures Read(config, input, env) == Err(BadInput)
  {
  }

  /** Progress is noted under a live lease, which stays. */
  lemma ProgressLaw(hash: Hash<Content>, config: Config, st: Store, call: Call, env: Env, s: Snapshot, key: string,
                    r: Result<(Store, Answer), Error>)
    requires call.input.Note? && Fresh(hash, st, call, s, key, env) && Returns(hash, config, st, call, env, r)
    ensures var worker, token, text := call.input.worker, call.input.token, Strip(call.input.message);
            if text == "" then r == Err(BadInput)
            else if !Live(st, call.run, worker, token, env.now) then r == Err(BadLease)
            else
              Recorded(hash, st, call.run,
                       [Content(env.mint(2), call.run, ProgressReported(text), Worker, Some(key), env.now)],
                       Some(st.leases[call.run]), s, key, ReportProgress(worker, token, text), env, r)
  {
    FreshKnown(hash, st, call, s, key, env);
    var text := Strip(call.input.message);
    var request := ReportProgress(call.input.worker, call.input.token, text);
    var c := Content(env.mint(2), call.run, ProgressReported(text), Worker, Some(key), env.now);
    if text == "" {
      NothingSaid(config, call.input, env);
      Unreadable(hash, config, st, call, env, BadInput, r);
    } else {
      ProgressMeans(config, st, call, env, s, key, text, c);
      if !Live(st, call.run, call.input.worker, call.input.token, env.now) {
        Refuses(hash, config, st, call, env, s, key, request, BadLease, r);
      } else {
        ProgressMakes(s, c);
        RecordsOne(hash, config, st, call, env, s, key, request, c, false, s, r);
      }
    }
  }

  lemma ProgressMakes(s: Snapshot, c: Content)
    requires c.payload.ProgressReported? && c.run == s.run && s.state.CodexRunning?
    ensures Makes(s, c, Ok(s))
  {
  }

  /** A human is asked for, out of a running turn or a review. */
  lemma HumanMakes(s: Snapshot, c: Content)
    requires c.payload.HumanRequested? && c.run == s.run && (s.state.CodexRunning? || s.state.Reviewing?)
    requires Strip(c.payload.reason) == c.payload.reason != ""
    ensures Makes(s, c, Ok(s.(state := HumanRequired, humanReason := Some(c.payload.reason))))
  {
    ReadsText(c.payload.reason);
  }

  lemma BlockerMeans(config: Config, st: Store, call: Call, env: Env, s: Snapshot, key: string, text: string,
                     c: Content)
    requires call.input.Block? && call.run in st.events && text == Strip(call.input.reason) && text != ""
    requires c.key == Some(key) && c.actor.Worker? && c.payload == HumanRequested(text)
    ensures Means(config, st, call, env, s, key, ReportBlocker(call.input.worker, call.input.token, text),
                  if !Live(st, call.run, call.input.worker, call.input.token, env.now) then Refuse(BadLease)
                  else Recording(c, true))
  {
    ReadsText(call.input.reason);
    MeansIt(config, st, call, env, s, key, ReportBlocker(call.input.worker, call.input.token, text),
            if !Live(st, call.run, call.input.worker, call.input.token, env.now) then Refuse(BadLease)
            else Recording(c, true));
  }

  /** A blocker ends the turn and asks for a human. */
  lemma BlockerLaw(hash: Hash<Content>, config: Config, st: Store, call: Call, env: Env, s: Snapshot, key: string,
                   r: Result<(Store, Answer), Error>)
    requires call.input.Block? && Fresh(hash, st, call, s, key, env) && Returns(hash, config, st, call, env, r)
    ensures var worker, token, text := call.input.worker, call.input.token, Strip(call.input.reason);
            if text == "" then r == Err(BadInput)
            else if !Live(st, call.run, worker, token, env.now) then r == Err(BadLease)
            else
              Recorded(hash, st, call.run,
                       [Content(env.mint(2), call.run, HumanRequested(text), Worker, Some(key), env.now)],
                       None, s.(state := HumanRequired, humanReason := Some(text)), key,
                       ReportBlocker(worker, token, text), env, r)
  {
    FreshKnown(hash, st, call, s, key, env);
    var text := Strip(call.input.reason);
    ReadsText(call.input.reason);
    var request := ReportBlocker(call.input.worker, call.input.token, text);
    var c := Content(env.mint(2), call.run, HumanRequested(text), Worker, Some(key), env.now);
    if text == "" {
      NothingSaid(config, call.input, env);
      Unreadable(hash, config, st, call, env, BadInput, r);
    } else {
      BlockerMeans(config, st, call, env, s, key, text, c);
      if !Live(st, call.run, call.input.worker, call.input.token, env.now) {
        Refuses(hash, config, st, call, env, s, key, request, BadLease, r);
      } else {
        HumanMakes(s, c);
        RecordsOne(hash, config, st, call, env, s, key, request, c, true,
                   s.(state := HumanRequired, humanReason := Some(text)), r);
      }
    }
  }

  // ---- the planner's and the controller's calls ----

  /** The review that starts when a result is waiting. */
  function Review(call: Call, key: string, env: Env): Content {
    Content(env.mint(2), call.run, ReviewStarted, Planner, Some(key + ":review"), env.now)
  }

  lemma ReviewMakes(s: Snapshot, c: Content)
    requires c.payload.ReviewStarted? && c.run == s.run && s.state.CodexComplete?
    ensures Makes(s, c, Ok(s.(state := RunState.Reviewing)))
  {
  }

  lemma HumanMeans(config: Config, st: Store, call: Call, env: Env, s: Snapshot, key: string, text: string, c: Content)
    requires call.input.AskHuman? && call.run in st.events && text == Strip(call.input.reason) && text != ""
    requires c.key == Some(key) && c.actor.Planner? && c.payload == HumanRequested(text)
    ensures Means(config, st, call, env, s, key, RequestHuman(text),
                  if s.state.CodexRunning? || s.state.Reviewing? then Recording(c, s.state.CodexRunning?)
                  else if s.state.CodexComplete? then
                    Append(ReviewStarted, Planner, key + ":review", Recording(c, false))
                  else Refuse(IllegalMove))
  {
    ReadsText(call.input.reason);
    MeansIt(config, st, call, env, s, key, RequestHuman(text),
            if s.state.CodexRunning? || s.state.Reviewing? then Recording(c, s.state.CodexRunning?)
            else if s.state.CodexComplete? then Append(ReviewStarted, Planner, key + ":review", Recording(c, false))
            else Refuse(IllegalMove));
  }

  /** A human is asked for while a turn runs, which ends it, or in review, which starts if a result is waiting. */
  lemma HumanLaw(hash: Hash<Content>, config: Config, st: Store, call: Call, env: Env, s: Snapshot, key: string,
                 r: Result<(Store, Answer), Error>)
    requires call.input.AskHuman? && Fresh(hash, st, call, s, key, env) && Returns(hash, config, st, call, env, r)
    ensures var text := Strip(call.input.reason);
            var t := s.(state := HumanRequired, humanReason := Some(text));
            if text == "" then r == Err(BadInput)
            else if s.state.CodexRunning? || s.state.Reviewing? then
              Recorded(hash, st, call.run,
                       [Content(env.mint(2), call.run, HumanRequested(text), Planner, Some(key), env.now)],
                       None, t, key, RequestHuman(text), env, r)
            else if s.state.CodexComplete? then
              Recorded(hash, st, call.run,
                       [Content(env.mint(2), call.run, ReviewStarted, Planner, Some(key + ":review"), env.now),
                        Content(env.mint(3), call.run, HumanRequested(text), Planner, Some(key), env.now)],
                       None, t, key, RequestHuman(text), env, r)
            else r == Err(IllegalMove)
  {
    FreshKnown(hash, st, call, s, key, env);
    var text := Strip(call.input.reason);
    ReadsText(call.input.reason);
    var n := if s.state.CodexComplete? then 3 else 2;
    var c := Content(env.mint(n), call.run, HumanRequested(text), Planner, Some(key), env.now);
    var t := s.(state := HumanRequired, humanReason := Some(text));
    if text == "" {
      NothingSaid(config, call.input, env);
      Unreadable(hash, config, st, call, env, BadInput, r);
    } else {
      HumanMeans(config, st, call, env, s, key, text, c);
      if s.state.CodexRunning? || s.state.Reviewing? {
        HumanMakes(s, c);
        RecordsOne(hash, config, st, call, env, s, key, RequestHuman(text), c, s.state.CodexRunning?, t, r);
      } else if s.state.CodexComplete? {
        var mid := s.(state := RunState.Reviewing);
        ReviewMakes(s, Review(call, key, env));
        HumanMakes(mid, c);
        RecordsTwo(hash, config, st, call, env, s, key, RequestHuman(text), Review(call, key, env), mid, c, t, r);
      } else {
        Refuses(hash, config, st, call, env, s, key, RequestHuman(text), IllegalMove, r);
      }
    }
  }

  /** Where a paused run goes back to: a running turn is to be claimed again. */
  function Back(state: RunState): RunState {
    if state.CodexRunning? then ReadyForCodex else state
  }

  lemma PauseMeans(config: Config, st: Store, call: Call, env: Env, s: Snapshot, key: string, text: string, c: Content)
    requires call.input.AskPause? && call.run in st.events && text == Strip(call.input.reason) && text != ""
    requires c.key == Some(key) && c.actor.Control? && c.payload == Paused(text, Some(Back(s.state)))
    ensures Means(config, st, call, env, s, key, PauseRun(text),
                  if Ended(s.state) || s.state.PausedState? then Refuse(IllegalMove)
                  else Recording(c, s.state.CodexRunning?))
  {
    ReadsText(call.input.reason);
    MeansIt(config, st, call, env, s, key, PauseRun(text),
            if Ended(s.state) || s.state.PausedState? then Refuse(IllegalMove)
            else Recording(c, s.state.CodexRunning?));
  }

  lemma PauseMakes(s: Snapshot, c: Content)
    requires c.payload.Paused? && c.payload.resume == Some(Back(s.state)) && c.run == s.run
    requires !Ended(s.state) && !s.state.PausedState?
    ensures Makes(s, c, Ok(s.(state := PausedState, pausedFrom := Some(Back(s.state)))))
  {
  }

  /** A run that has not ended and is not paused is paused; a running turn ends. */
  lemma PauseLaw(hash: Hash<Content>, config: Config, st: Store, call: Call, env: Env, s: Snapshot, key: string,
                 r: Result<(Store, Answer), Error>)
    requires call.input.AskPause? && Fresh(hash, st, call, s, key, env) && Returns(hash, config, st, call, env, r)
    ensures var text := Strip(call.input.reason);
            if text == "" then r == Err(BadInput)
            else if Ended(s.state) || s.state.PausedState? then r == Err(IllegalMove)
            else
              Recorded(hash, st, call.run,
                       [Content(env.mint(2), call.run, Paused(text, Some(Back(s.state))), Control, Some(key), env.now)],
                       None, s.(state := PausedState, pausedFrom := Some(Back(s.state))), key, PauseRun(text), env, r)
  {
    FreshKnown(hash, st, call, s, key, env);
    var text := Strip(call.input.reason);
    var c := Content(env.mint(2), call.run, Paused(text, Some(Back(s.state))), Control, Some(key), env.now);
    if text == "" {
      NothingSaid(config, call.input, env);
      Unreadable(hash, config, st, call, env, BadInput, r);
    } else {
      PauseMeans(config, st, call, env, s, key, text, c);
      if Ended(s.state) || s.state.PausedState? {
        Refuses(hash, config, st, call, env, s, key, PauseRun(text), IllegalMove, r);
      } else {
        PauseMakes(s, c);
        RecordsOne(hash, config, st, call, env, s, key, PauseRun(text), c, s.state.CodexRunning?,
                   s.(state := PausedState, pausedFrom := Some(Back(s.state))), r);
      }
    }
  }

  lemma ResumeMeans(config: Config, st: Store, call: Call, env: Env, s: Snapshot, key: string, c: Content)
    requires call.input.AskResume? && call.run in st.events
    requires c.key == Some(key) && c.actor.Control? && c.payload == Resumed
    ensures Means(config, st, call, env, s, key, ResumeRun,
                  if !s.state.PausedState? then Refuse(IllegalMove) else Recording(c, false))
  {
    MeansIt(config, st, call, env, s, key, ResumeRun,
            if !s.state.PausedState? then Refuse(IllegalMove) else Recording(c, false));
  }

  lemma ResumeMakes(s: Snapshot, c: Content)
    requires c.payload.Resumed? && c.run == s.run && s.state.PausedState? && s.pausedFrom.Some?
    ensures Makes(s, c, Ok(s.(state := s.pausedFrom.value, pausedFrom := None)))
  {
  }

  /** A paused run goes back to where it was. */
  lemma ResumeLaw(hash: Hash<Content>, config: Config, st: Store, call: Call, env: Env, s: Snapshot, key: string,
                  r: Result<(Store, Answer), Error>)
    requires call.input.AskResume? && Fresh(hash, st, call, s, key, env) && Returns(hash, config, st, call, env, r)
    ensures if !s.state.PausedState? then r == Err(IllegalMove)
            else
              && s.pausedFrom.Some?
              && Recorded(hash, st, call.run, [Content(env.mint(2), call.run, Resumed, Control, Some(key), env.now)],
                          None, s.(state := s.pausedFrom.value, pausedFrom := None), key, ResumeRun, env, r)
  {
    FreshKnown(hash, st, call, s, key, env);
    var c := Content(env.mint(2), call.run, Resumed, Control, Some(key), env.now);
    ResumeMeans(config, st, call, env, s, key, c);
    if !s.state.PausedState? {
      Refuses(hash, config, st, call, env, s, key, ResumeRun, IllegalMove, r);
    } else {
      ResumeMakes(s, c);
      RecordsOne(hash, config, st, call, env, s, key, ResumeRun, c, false,
                 s.(state := s.pausedFrom.value, pausedFrom := None), r);
    }
  }

  lemma StopMeans(config: Config, st: Store, call: Call, env: Env, s: Snapshot, key: string, text: string, c: Content)
    requires call.input.AskStop? && call.run in st.events && text == Strip(call.input.reason) && text != ""
    requires c.key == Some(key) && c.actor.Control? && c.payload == Stopped(text)
    ensures Means(config, st, call, env, s, key, StopRun(text),
                  if Ended(s.state) then Refuse(IllegalMove) else Recording(c, true))
  {
    ReadsText(call.input.reason);
    MeansIt(config, st, call, env, s, key, StopRun(text),
            if Ended(s.state) then Refuse(IllegalMove) else Recording(c, true));
  }

  lemma StopMakes(s: Snapshot, c: Content)
    requires c.payload.Stopped? && c.run == s.run && !Ended(s.state)
             && Strip(c.payload.reason) == c.payload.reason != ""
    ensures Makes(s, c, Ok(s.(state := StoppedState, stopReason := Some(c.payload.reason))))
  {
    ReadsText(c.payload.reason);
  }

  /** A run that has not ended is stopped, its turn with it. */
  lemma StopLaw(hash: Hash<Content>, config: Config, st: Store, call: Call, env: Env, s: Snapshot, key: string,
                r: Result<(Store, Answer), Error>)
    requires call.input.AskStop? && Fresh(hash, st, call, s, key, env) && Returns(hash, config, st, call, env, r)
    ensures var text := Strip(call.input.reason);
            if text == "" then r == Err(BadInput)
            else if Ended(s.state) then r == Err(IllegalMove)
            else
              Recorded(hash, st, call.run,
                       [Content(env.mint(2), call.run, Stopped(text), Control, Some(key), env.now)],
                       None, s.(state := StoppedState, stopReason := Some(text)), key, StopRun(text), env, r)
  {
    FreshKnown(hash, st, call, s, key, env);
    var text := Strip(call.input.reason);
    ReadsText(call.input.reason);
    var c := Content(env.mint(2), call.run, Stopped(text), Control, Some(key), env.now);
    if text == "" {
      NothingSaid(config, call.input, env);
      Unreadable(hash, config, st, call, env, BadInput, r);
    } else {
      StopMeans(config, st, call, env, s, key, text, c);
      if Ended(s.state) {
        Refuses(hash, config, st, call, env, s, key, StopRun(text), IllegalMove, r);
      } else {
        StopMakes(s, c);
        RecordsOne(hash, config, st, call, env, s, key, StopRun(text), c, true,
                   s.(state := StoppedState, stopReason := Some(text)), r);
      }
    }
  }

  lemma FailMeans(config: Config, st: Store, call: Call, env: Env, s: Snapshot, key: string, text: string, c: Content)
    requires call.input.AskFail? && call.run in st.events && text == Strip(call.input.reason) && text != ""
    requires c.key == Some(key) && c.actor.Control? && c.payload == Failed(text)
    ensures Means(config, st, call, env, s, key, FailRun(text), Recording(c, true))
  {
    ReadsText(call.input.reason);
    MeansIt(config, st, call, env, s, key, FailRun(text), Recording(c, true));
  }

  lemma FailMakes(s: Snapshot, c: Content)
    requires c.payload.Failed? && c.run == s.run && Strip(c.payload.reason) == c.payload.reason != ""
    ensures Makes(s, c, if Ended(s.state) then Err(Illegal)
                        else Ok(s.(state := FailedState, failureReason := Some(c.payload.reason))))
  {
    ReadsText(c.payload.reason);
  }

  /** A run that has not ended is failed, its turn with it. */
  lemma FailLaw(hash: Hash<Content>, config: Config, st: Store, call: Call, env: Env, s: Snapshot, key: string,
                r: Result<(Store, Answer), Error>)
    requires call.input.AskFail? && Fresh(hash, st, call, s, key, env) && Returns(hash, config, st, call, env, r)
    ensures var text := Strip(call.input.reason);
            if text == "" then r == Err(BadInput)
            else if Ended(s.state) then r == Err(IllegalMove)
            else
              Recorded(hash, st, call.run,
                       [Content(env.mint(2), call.run, Failed(text), Control, Some(key), env.now)],
                       None, s.(state := FailedState, failureReason := Some(text)), key, FailRun(text), env, r)
  {
    FreshKnown(hash, st, call, s, key, env);
    var text := Strip(call.input.reason);
    ReadsText(call.input.reason);
    var c := Content(env.mint(2), call.run, Failed(text), Control, Some(key), env.now);
    if text == "" {
      NothingSaid(config, call.input, env);
      Unreadable(hash, config, st, call, env, BadInput, r);
    } else {
      FailMeans(config, st, call, env, s, key, text, c);
      FailMakes(s, c);
      if Ended(s.state) {
        Spoils(hash, config, st, call, env, s, key, FailRun(text), c, true, Illegal, r);
      } else {
        RecordsOne(hash, config, st, call, env, s, key, FailRun(text), c, true,
                   s.(state := FailedState, failureReason := Some(text)), r);
      }
    }
  }

  lemma CompleteMeans(config: Config, st: Store, call: Call, env: Env, s: Snapshot, key: string, text: string,
                      c: Content)
    requires call.input.AskComplete? && call.run in st.events && text == Strip(call.input.rationale) && text != ""
    requires c.key == Some(key) && c.actor.Planner? && c.payload == Completed(text)
    ensures Means(config, st, call, env, s, key, CompleteRun(text),
                  if !s.state.CodexComplete? && !s.state.Reviewing? then Refuse(IllegalMove)
                  else Reviewed(s, key, if Evidenced(s) then Recording(c, false) else Refuse(BeyondPolicy)))
  {
    ReadsText(call.input.rationale);
    MeansIt(config, st, call, env, s, key, CompleteRun(text),
            if !s.state.CodexComplete? && !s.state.Reviewing? then Refuse(IllegalMove)
            else Reviewed(s, key, if Evidenced(s) then Recording(c, false) else Refuse(BeyondPolicy)));
  }

  lemma CompleteMakes(s: Snapshot, c: Content)
    requires c.payload.Completed? && c.run == s.run && s.state.Reviewing?
    ensures Makes(s, c, Ok(s.(state := CompleteState)))
  {
  }

  /** A refusal after the review was started. */
  lemma RefusesSecond(hash: Hash<Content>, config: Config, st: Store, call: Call, env: Env, s: Snapshot, key: string,
                      request: Request, e: Error, r: Result<(Store, Answer), Error>)
    requires Fresh(hash, st, call, s, key, env) && Returns(hash, config, st, call, env, r) && s.run == call.run
    requires Means(config, st, call, env, s, key, request, Reviewed(s, key, Refuse(e)))
    ensures r == Err(e)
  {
    if s.state.CodexComplete? {
      ReviewMakes(s, Review(call, key, env));
      SpoilsSecond(hash, config, st, call, env, s, key, request, Review(call, key, env),
                   s.(state := RunState.Reviewing), Refuse(e), e, r);
    } else {
      Refuses(hash, config, st, call, env, s, key, request, e, r);
    }
  }

  /** A run in review, which starts if a result is waiting, is completed with evidence at hand. */
  lemma CompleteLaw(hash: Hash<Content>, config: Config, st: Store, call: Call, env: Env, s: Snapshot, key: string,
                    r: Result<(Store, Answer), Error>)
    requires call.input.AskComplete? && Fresh(hash, st, call, s, key, env) && Returns(hash, config, st, call, env, r)
    ensures var text := Strip(call.input.rationale);
            if text == "" then r == Err(BadInput)
            else if !s.state.CodexComplete? && !s.state.Reviewing? then r == Err(IllegalMove)
            else if s.lastResult.None? || s.lastResult.value.evidence == [] then r == Err(BeyondPolicy)
            else if s.state.Reviewing? then
              Recorded(hash, st, call.run,
                       [Content(env.mint(2), call.run, Completed(text), Planner, Some(key), env.now)],
                       None, s.(state := CompleteState), key, CompleteRun(text), env, r)
            else
              Recorded(hash, st, call.run,
                       [Content(env.mint(2), call.run, ReviewStarted, Planner, Some(key + ":review"), env.now),
                        Content(env.mint(3), call.run, Completed(text), Planner, Some(key), env.now)],
                       None, s.(state := CompleteState), key, CompleteRun(text), env, r)
  {
    FreshKnown(hash, st, call, s, key, env);
    var text, n := Strip(call.input.rationale), if s.state.CodexComplete? then 3 else 2;
    var c := Content(env.mint(n), call.run, Completed(text), Planner, Some(key), env.now);
    if text == "" {
      NothingSaid(config, call.input, env);
      Unreadable(hash, config, st, call, env, BadInput, r);
    } else {
      CompleteMeans(config, st, call, env, s, key, text, c);
      if !s.state.CodexComplete? && !s.state.Reviewing? {
        Refuses(hash, config, st, call, env, s, key, CompleteRun(text), IllegalMove, r);
      } else if !Evidenced(s) {
        RefusesSecond(hash, config, st, call, env, s, key, CompleteRun(text), BeyondPolicy, r);
      } else if s.state.Reviewing? {
        CompleteMakes(s, c);
        RecordsOne(hash, config, st, call, env, s, key, CompleteRun(text), c, false, s.(state := CompleteState), r);
      } else {
        var mid := s.(state := RunState.Reviewing);
        ReviewMakes(s, Review(call, key, env));
        CompleteMakes(mid, c);
        RecordsTwo(hash, config, st, call, env, s, key, CompleteRun(text), Review(call, key, env), mid, c,
                   s.(state := CompleteState), r);
      }
    }
  }

  // ---- handing a turn over ----

  function StripEach(texts: seq<string>): seq<string> {
    seq(|texts|, k requires 0 <= k < |texts| => Strip(texts[k]))
  }

  predicate AllSaid(texts: seq<string>) {
    forall k :: 0 <= k < |texts| ==> Strip(texts[k]) != ""
  }

  lemma {:induction false} EachReads(texts: seq<string>)
    ensures RequiredEach(texts) == if AllSaid(texts) then Some(StripEach(texts)) else None
  {
    if texts == [] {
      assert StripEach(texts) == [];
    } else {
      EachReads(texts[1..]);
      assert texts == [texts[0]] + texts[1..];
      assert AllSaid(texts) <==> Strip(texts[0]) != "" && AllSaid(texts[1..]);
      assert StripEach(texts) == [Strip(texts[0])] + StripEach(texts[1..]);
    }
  }

  function ReadFields(i: Instruction): Instruction {
    Instruction(Strip(i.id), Strip(i.goal), StripEach(i.context), StripEach(i.constraints), Strip(i.doneWhen))
  }

  /** Every required part of a handoff but its id is there. */
  predicate Filled(i: Instruction) {
    && Strip(i.goal) != "" && Strip(i.doneWhen) != ""
    && i.context != [] && AllSaid(i.context) && i.constraints != [] && AllSaid(i.constraints)
  }

  /** A handoff can be read from its record: it is filled, and its id, if it has one, is not blank. */
  predicate Readable(i: Instruction) {
    Filled(i) && (i.id == "" || Strip(i.id) != "")
  }

  lemma InstructionReads(i: Instruction)
    ensures ReadInstruction(i) == if Filled(i) && Strip(i.id) != "" then Some(ReadFields(i)) else None
  {
    EachReads(i.context);
    EachReads(i.constraints);
  }

  lemma KeptReads(i: Instruction)
    ensures Protocol.Kept(i) == if Readable(i) then Some(ReadFields(i)) else None
  {
    InstructionReads(Named(i, SomeUuid()));
    TightStrip(SomeUuid());
    TightStrip("");
  }

  /** The handoff as it is recorded: as submitted, a mapping as it reads, under a new id if it has none. */
  function RecordedHandoff(h: Handoff, minted: Uuid): Instruction {
    match h
    case TypedHandoff(i) => i
    case MappedHandoff(id, fields) =>
      ReadFields(fields.(id := if id.None? || id.value == "" then minted else id.value))
  }

  predicate Fit(h: Handoff) {
    h.MappedHandoff? ==> Filled(h.fields) && (h.id.None? || h.id.value == "" || Strip(h.id.value) != "")
  }

  lemma HandoffReads(h: Handoff, minted: Uuid)
    ensures ReadHandoff(h, minted) == if Fit(h) then Some(RecordedHandoff(h, minted)) else None
  {
    if h.MappedHandoff? {
      var i := h.fields.(id := if h.id.None? || h.id.value == "" then minted else h.id.value);
      TightStrip(minted);
      InstructionReads(i);
    }
  }

  /** This very id was recorded for a handoff of the run. */
  ghost predicate Repeats(log: seq<Event>, id: string) {
    exists k :: 0 <= k < |log| && log[k].content.payload.InstructionSubmitted?
                && log[k].content.payload.instruction.id == id
  }

  lemma RepeatsUsed(log: seq<Event>, id: string)
    ensures Repeats(log, id) <==> IdUsed(log, id)
  {
    if Repeats(log, id) {
      var k :| 0 <= k < |log| && log[k].content.payload.InstructionSubmitted?
               && log[k].content.payload.instruction.id == id;
      assert Raw(log, k) == Some(id);
    }
    if IdUsed(log, id) {
      var k :| 0 <= k < |log| && Raw(log, k) == Some(id);
      assert log[k].content.payload.instruction.id == id;
    }
  }

  const LIMIT := "iteration limit reached"

  lemma LimitReads()
    ensures Strip(LIMIT) == LIMIT != ""
  {
    assert Tight(LIMIT);
    TightStrip(LIMIT);
  }

  predicate Plannable(state: RunState) {
    state.Planning? || state.Reviewing? || state.CodexComplete?
  }

  /** The event a submission records in the end: the handoff, or the failure of a run at its limit. */
  function Submission(call: Call, s: Snapshot, i: Instruction, key: string, env: Env): Content {
    var id := env.mint(if s.state.CodexComplete? then 3 else 2);
    if s.iteration >= s.maxIterations then
      Content(id, call.run, Failed("iteration limit reached"), System, Some(key + ":limit"), env.now)
    else Content(id, call.run, InstructionSubmitted(i), Planner, Some(key), env.now)
  }

  lemma SubmitMeans(config: Config, st: Store, call: Call, env: Env, s: Snapshot, key: string, i: Instruction)
    requires call.input.Submit? && call.run in st.events && i == RecordedHandoff(call.input.handoff, env.mint(5))
    ensures if !Fit(call.input.handoff) then Read(config, call.input, env) == Err(BadInput)
            else Means(config, st, call, env, s, key, SubmitInstruction(i),
                       if Repeats(st.events[call.run], i.id) then Refuse(Conflict)
                       else if !Plannable(s.state) then Refuse(IllegalMove)
                       else Reviewed(s, key, Recording(Submission(call, s, i, key, env), false)))
  {
    HandoffReads(call.input.handoff, env.mint(5));
    RepeatsUsed(st.events[call.run], i.id);
    if Fit(call.input.handoff) {
      SubmitScript(st, call, env, s, key, i);
      MeansIt(config, st, call, env, s, key, SubmitInstruction(i),
              if Repeats(st.events[call.run], i.id) then Refuse(Conflict)
              else if !Plannable(s.state) then Refuse(IllegalMove)
              else Reviewed(s, key, Recording(Submission(call, s, i, key, env), false)));
    }
  }

  lemma SubmitScript(st: Store, call: Call, env: Env, s: Snapshot, key: string, i: Instruction)
    requires call.run in st.events
    ensures InstructScript(s, st.events[call.run], i, key) ==
            if IdUsed(st.events[call.run], i.id) then Refuse(Conflict)
            else if !Plannable(s.state) then Refuse(IllegalMove)
            else Reviewed(s, key, Recording(Submission(call, s, i, key, env), false))
  {
  }

  /** What a submission makes of a run in planning or review. */
  function Submitted(s: Snapshot, i: Instruction): Result<Snapshot, Fault> {
    if s.iteration >= s.maxIterations
      then Ok(s.(state := FailedState, failureReason := Some("iteration limit reached")))
    else if !Readable(i) then Err(Validation)
    else Ok(s.(state := ReadyForCodex, iteration := s.iteration + 1, instruction := Some(ReadFields(i)),
               lastResult := None, humanReason := None, failureReason := None))
  }

  lemma SubmitMakes(s: Snapshot, i: Instruction, c: Content)
    requires c.run == s.run && (s.state.Planning? || s.state.Reviewing?)
    requires c.payload == if s.iteration >= s.maxIterations then Failed("iteration limit reached")
                          else InstructionSubmitted(i)
    ensures Makes(s, c, Submitted(s, i))
  {
    LimitReads();
    ReadsText(LIMIT);
    KeptReads(i);
  }

  lemma EnactSpoils(hash: Hash<Content>, run: string, s: Snapshot, c: Content, f: Fault, env: Env, n: nat)
    requires c == Content(env.mint(n), run, c.payload, c.actor, c.key, env.now) && c.key.Some? && Makes(s, c, Err(f))
    ensures forall store: Store :: run in store.runs && env.mint(n) !in store.eventIds ==>
                                     Enact(hash, store, run, s, Recording(c, false), env, n) == Err(Raised(f))
  {
    assert Apply(s, c) == Err(f);
  }

  /** One event in planning or review, which starts before it if a result is waiting. */
  lemma RecordsReviewed(hash: Hash<Content>, config: Config, st: Store, call: Call, env: Env, s: Snapshot, key: string,
                        request: Request, c: Content, made: Result<Snapshot, Fault>, r: Result<(Store, Answer), Error>)
    requires Fresh(hash, st, call, s, key, env) && Returns(hash, config, st, call, env, r) && s.run == call.run
    requires Noted(c, call, env, if s.state.CodexComplete? then 3 else 2)
    requires Means(config, st, call, env, s, key, request, Reviewed(s, key, Recording(c, false)))
    requires Makes(if s.state.CodexComplete? then s.(state := RunState.Reviewing) else s, c, made)
    ensures match made
            case Err(f) => r == Err(Raised(f))
            case Ok(t) => Recorded(hash, st, call.run,
                                   if s.state.CodexComplete? then [Review(call, key, env), c]
                                     else [c], LeaseOf(st, call.run), t, key, request, env, r)
  {
    if s.state.CodexComplete? {
      var mid := s.(state := RunState.Reviewing);
      ReviewMakes(s, Review(call, key, env));
      if made.Err? {
        EnactSpoils(hash, call.run, mid, c, made.error, env, 3);
        SpoilsSecond(hash, config, st, call, env, s, key, request, Review(call, key, env), mid, Recording(c, false),
                     Raised(made.error), r);
      } else {
        RecordsTwo(hash, config, st, call, env, s, key, request, Review(call, key, env), mid, c, made.value, r);
      }
    } else if made.Err? {
      Spoils(hash, config, st, call, env, s, key, request, c, false, made.error, r);
    } else {
      RecordsOne(hash, config, st, call, env, s, key, request, c, false, made.value, r);
    }
  }

  lemma SubmissionMakes(call: Call, s: Snapshot, i: Instruction, key: string, env: Env)
    requires Plannable(s.state) && s.run == call.run
    ensures var c := Submission(call, s, i, key, env);
            Noted(c, call, env, if s.state.CodexComplete? then 3 else 2)
            && Makes(if s.state.CodexComplete? then s.(state := RunState.Reviewing) else s, c, Submitted(s, i))
  {
    var mid := if s.state.CodexComplete? then s.(state := RunState.Reviewing) else s;
    SubmitMakes(mid, i, Submission(call, s, i, key, env));
    assert Submitted(mid, i) == Submitted(s, i);
  }

  lemma SubmissionTaken(hash: Hash<Content>, config: Config, st: Store, call: Call, env: Env, s: Snapshot, key: string,
                        i: Instruction, r: Result<(Store, Answer), Error>)
    requires Fresh(hash, st, call, s, key, env) && Returns(hash, config, st, call, env, r) && Plannable(s.state)
    requires Means(config, st, call, env, s, key, SubmitInstruction(i),
                   Reviewed(s, key, Recording(Submission(call, s, i, key, env), false)))
    ensures var review := if s.state.CodexComplete? then [Review(call, key, env)] else [];
            var made := Submitted(s, i);
            if made.Err? then r == Err(Raised(made.error))
            else Recorded(hash, st, call.run, review + [Submission(call, s, i, key, env)], None, made.value, key,
                          SubmitInstruction(i), env, r)
  {
    FreshKnown(hash, st, call, s, key, env);
    SubmissionMakes(call, s, i, key, env);
    var c := Submission(call, s, i, key, env);
    RecordsReviewed(hash, config, st, call, env, s, key, SubmitInstruction(i), c, Submitted(s, i), r);
    assert [Review(call, key, env)] + [c] == [Review(call, key, env), c] && [] + [c] == [c];
  }

  /** What a submission records, said in full. */
  ghost predicate HandsOver(hash: Hash<Content>, st: Store, call: Call, env: Env, s: Snapshot, key: string,
                            i: Instruction, r: Result<(Store, Answer), Error>)
  {
    var id := env.mint(if s.state.CodexComplete? then 3 else 2);
    var review := if s.state.CodexComplete? then [Review(call, key, env)] else [];
    if s.iteration >= s.maxIterations then
      var over := "iteration limit reached";
      Recorded(hash, st, call.run,
               review + [Content(id, call.run, Failed(over), System, Some(key + ":limit"), env.now)], None,
               s.(state := FailedState, failureReason := Some(over)), key, SubmitInstruction(i), env, r)
    else if !Readable(i) then r == Err(BadInput)
    else
      Recorded(hash, st, call.run,
               review + [Content(id, call.run, InstructionSubmitted(i), Planner, Some(key), env.now)], None,
               s.(state := ReadyForCodex, iteration := s.iteration + 1, instruction := Some(ReadFields(i)),
                  lastResult := None, humanReason := None, failureReason := None),
               key, SubmitInstruction(i), env, r)
  }

  lemma SubmissionSaid(hash: Hash<Content>, st: Store, call: Call, env: Env, s: Snapshot, key: string, i: Instruction,
                       r: Result<(Store, Answer), Error>)
    requires var review := if s.state.CodexComplete? then [Review(call, key, env)] else [];
             var made := Submitted(s, i);
             if made.Err? then r == Err(Raised(made.error))
             else Recorded(hash, st, call.run, review + [Submission(call, s, i, key, env)], None, made.value, key,
                           SubmitInstruction(i), env, r)
    ensures HandsOver(hash, st, call, env, s, key, i, r)
  {
  }

  /** A handoff: taken in planning or review, under an id not used before; recorded as submitted, a mapping as
      it reads, and a run at its limit fails instead. */
  lemma SubmitLaw(hash: Hash<Content>, config: Config, st: Store, call: Call, env: Env, s: Snapshot, key: string,
                  r: Result<(Store, Answer), Error>)
    requires call.input.Submit? && Fresh(hash, st, call, s, key, env) && Returns(hash, config, st, call, env, r)
    ensures var i := RecordedHandoff(call.input.handoff, env.mint(5));
            if !Fit(call.input.handoff) then r == Err(BadInput)
            else if Repeats(st.events[call.run], i.id) then r == Err(Conflict)
            else if !Plannable(s.state) then r == Err(IllegalMove)
            else HandsOver(hash, st, call, env, s, key, i, r)
  {
    var i := RecordedHandoff(call.input.handoff, env.mint(5));
    SubmitMeans(config, st, call, env, s, key, i);
    if !Fit(call.input.handoff) {
      Unreadable(hash, config, st, call, env, BadInput, r);
    } else if Repeats(st.events[call.run], i.id) {
      Refuses(hash, config, st, call, env, s, key, SubmitInstruction(i), Conflict, r);
    } else if !Plannable(s.state) {
      Refuses(hash, config, st, call, env, s, key, SubmitInstruction(i), IllegalMove, r);
    } else {
      SubmissionTaken(hash, config, st, call, env, s, key, i, r);
      SubmissionSaid(hash, st, call, env, s, key, i, r);
    }
  }

  // ---- taking a turn ----

  /** A turn is running whose lease has run out. */
  predicate Overdue(st: Store, run: string, s: Snapshot, now: int) {
    s.state.CodexRunning? && run in st.leases && st.leases[run].expiresAt <= now
  }

  predicate Unheld(st: Store, token: string) {
    forall q :: q in st.leases ==> st.leases[q].token != token
  }

  /** The lease a worker gets. */
  function NewLease(call: Call, env: Env, seconds: int): Lease
    requires call.input.TakeTurn?
  {
    Lease(Strip(call.input.worker), env.mint(1), env.now + seconds * 1000000, env.now)
  }

  /** What the worker is told: the current handoff, under the id minted by this reading if it has none. */
  function NewClaim(st: Store, call: Call, env: Env, s: Snapshot, seconds: int): Claim
    requires call.input.TakeTurn? && call.run in st.events && s.instruction.Some?
  {
    var i := s.instruction.value;
    var minted := MintedIn(st.events[call.run], env.replays(if Overdue(st, call.run, s, env.now) then 2 else 0));
    Claim(call.run, Strip(call.input.worker), if i.id == "" then i.(id := minted) else i, env.mint(1),
          env.now + seconds * 1000000)
  }

  function Expiry(call: Call, env: Env): Content {
    Content(env.mint(2), call.run, LeaseExpired, System, Some("lease-expired:" + env.mint(4)), env.now)
  }

  function Claiming(st: Store, call: Call, env: Env, s: Snapshot, key: string, seconds: int): Content
    requires call.input.TakeTurn?
  {
    Content(env.mint(if Overdue(st, call.run, s, env.now) then 3 else 2), call.run,
            TurnClaimed(Strip(call.input.worker), env.now + seconds * 1000000), Worker, Some(key), env.now)
  }

  function Granting(lease: Lease, d: Content, claim: Claim): Script
    requires d.key.Some?
  {
    Take(lease, Append(d.payload, d.actor, d.key.value, Finish(Some(claim))))
  }

  function Expiring(c: Content, next: Script): Script
    requires c.key.Some?
  {
    Drop(Append(c.payload, c.actor, c.key.value, next))
  }

  function Duration(config: Config, input: Input): int
    requires input.TakeTurn?
  {
    if input.seconds.Some? then input.seconds.value else config.leaseSeconds
  }

  lemma ClaimMeans(config: Config, st: Store, call: Call, env: Env, s: Snapshot, key: string, seconds: int)
    requires call.input.TakeTurn? && call.run in st.events && seconds == Duration(config, call.input)
    requires call.run in st.leases <==> s.state.CodexRunning?
    requires s.state.ReadyForCodex? || s.state.CodexRunning? ==> s.instruction.Some?
    ensures if Strip(call.input.worker) == "" || seconds < 1 then Read(config, call.input, env) == Err(BadInput)
            else Means(config, st, call, env, s, key, ClaimTurn(Strip(call.input.worker), seconds),
                       ClaimPlan(st, call, env, s, key, seconds))
  {
    ReadsText(call.input.worker);
    if Strip(call.input.worker) != "" && seconds >= 1 {
      MeansIt(config, st, call, env, s, key, ClaimTurn(Strip(call.input.worker), seconds),
              ClaimPlan(st, call, env, s, key, seconds));
    }
  }

  function ClaimPlan(st: Store, call: Call, env: Env, s: Snapshot, key: string, seconds: int): Script
    requires call.input.TakeTurn? && call.run in st.events
    requires s.state.ReadyForCodex? || s.state.CodexRunning? ==> s.instruction.Some?
  {
    if !s.state.ReadyForCodex? && !Overdue(st, call.run, s, env.now) then Refuse(Conflict)
    else
      var grant := Granting(NewLease(call, env, seconds), Claiming(st, call, env, s, key, seconds),
                            NewClaim(st, call, env, s, seconds));
      if s.state.ReadyForCodex? then grant else Expiring(Expiry(call, env), grant)
  }

  lemma ClaimMakes(s: Snapshot, d: Content)
    requires d.payload.TurnClaimed? && d.run == s.run && s.state.ReadyForCodex?
    ensures Makes(s, d, Ok(s.(state := CodexRunning)))
  {
  }

  lemma ExpiryMakes(s: Snapshot, c: Content)
    requires c.payload.LeaseExpired? && c.run == s.run && s.state.CodexRunning?
    ensures Makes(s, c, Ok(s.(state := ReadyForCodex)))
  {
  }

  /** Taking a free lease and recording the claim. */
  lemma EnactGrant(hash: Hash<Content>, st: Store, run: string, s: Snapshot, lease: Lease, d: Content, claim: Claim,
                   t: Snapshot, env: Env, n: nat)
    requires run in st.runs && run in st.events && run !in st.leases && Unheld(st, lease.token)
    requires d == Content(env.mint(n), run, d.payload, d.actor, d.key, env.now) && d.key.Some?
    requires d.id !in st.eventIds && Makes(s, d, Ok(t))
    ensures Enact(hash, st, run, s, Granting(lease, d, claim), env, n) ==
            Ok(Enacted(Rows(hash, st, run, [d], Some(lease), t, env.now), t, Some(claim)))
  {
    assert Apply(s, d) == Ok(t);
    EnactOne(hash, st, run, s, d, Some(lease), t, Some(claim), env, n);
    assert Leased(st, run, lease) == Leasing(st, run, Some(lease));
  }

  /** The rows after an expired lease was given up and a new one taken. */
  lemma RowsOver(hash: Hash<Content>, st: Store, run: string, c: Content, mid: Snapshot, d: Content, lease: Lease,
                 t: Snapshot, now: int)
    requires run in st.runs && run in st.events
    ensures Rows(hash, Rows(hash, st, run, [c], None, mid, now), run, [d], Some(lease), t, now) ==
            Rows(hash, st, run, [c, d], Some(lease), t, now)
  {
    var row := st.runs[run];
    OneId(c);
    OneId(d);
    TwoIds(st.eventIds, c, d);
    ChainedTwo(hash, st.events[run], c, d);
    assert (st.leases - {run})[run := lease] == st.leases[run := lease];
    PutTwice(st.runs, run, row.(state := mid.state, iteration := mid.iteration, updatedAt := now,
                                version := row.version + 1),
             row.(state := t.state, iteration := t.iteration, updatedAt := now, version := row.version + 2));
    PutTwice(st.events, run, Chained(hash, st.events[run], [c]), Chained(hash, st.events[run], [c, d]));
  }

  lemma EnactExpired(hash: Hash<Content>, st: Store, run: string, s: Snapshot, c: Content, mid: Snapshot, lease: Lease,
                     d: Content, claim: Claim, t: Snapshot, env: Env)
    requires run in st.runs && run in st.events && Unheld(st, lease.token)
    requires c == Content(env.mint(2), run, c.payload, c.actor, c.key, env.now) && c.key.Some?
    requires d == Content(env.mint(3), run, d.payload, d.actor, d.key, env.now) && d.key.Some?
    requires c.id !in st.eventIds && d.id !in st.eventIds && c.id != d.id && Makes(s, c, Ok(mid))
             && Makes(mid, d, Ok(t))
    ensures Enact(hash, st, run, s, Expiring(c, Granting(lease, d, claim)), env, 2) ==
            Ok(Enacted(Rows(hash, st, run, [c, d], Some(lease), t, env.now), t, Some(claim)))
  {
    assert Apply(s, c) == Ok(mid);
    var first := Rows(hash, st, run, [c], None, mid, env.now);
    LeaseAsIs(st, run);
    RowsOne(hash, st, run, s, c, None, mid);
    EnactNext(hash, Leasing(st, run, None), run, s, c, Granting(lease, d, claim), env, 2, first, mid);
    OneId(c);
    EnactGrant(hash, first, run, mid, lease, d, claim, t, env, 3);
    RowsOver(hash, st, run, c, mid, d, lease, t, env.now);
  }

  /** The claim is granted: these events, this lease, this answer, which is also what is stored. */
  ghost predicate Grants(hash: Hash<Content>, st: Store, run: string, contents: seq<Content>, lease: Lease, t: Snapshot,
                         key: string, request: Request, claim: Claim, now: int, r: Result<(Store, Answer), Error>)
  {
    && run in st.runs && run in st.events
    && r == Ok((Leaves(hash, st, run, contents, Some(lease), t, now, key, request, Granted(claim)), Claimed(claim)))
  }

  lemma Claims(hash: Hash<Content>, config: Config, st: Store, call: Call, env: Env, s: Snapshot, key: string,
               seconds: int, r: Result<(Store, Answer), Error>)
    requires call.input.TakeTurn? && Fresh(hash, st, call, s, key, env) && Returns(hash, config, st, call, env, r)
    requires (s.state.ReadyForCodex? || Overdue(st, call.run, s, env.now)) && s.instruction.Some?
    requires Unheld(st, env.mint(1))
    requires Means(config, st, call, env, s, key, ClaimTurn(Strip(call.input.worker), seconds),
                   ClaimPlan(st, call, env, s, key, seconds))
    ensures Grants(hash, st, call.run,
                   (if s.state.ReadyForCodex? then [] else [Expiry(call, env)])
                     + [Claiming(st, call, env, s, key, seconds)],
                   NewLease(call, env, seconds), s.(state := CodexRunning), key,
                   ClaimTurn(Strip(call.input.worker), seconds), NewClaim(st, call, env, s, seconds), env.now, r)
  {
    FreshKnown(hash, st, call, s, key, env);
    var run, request := call.run, ClaimTurn(Strip(call.input.worker), seconds);
    var lease, claim := NewLease(call, env, seconds), NewClaim(st, call, env, s, seconds);
    var c, d, t := Expiry(call, env), Claiming(st, call, env, s, key, seconds), s.(state := CodexRunning);
    if s.state.ReadyForCodex? {
      ClaimMakes(s, d);
      EnactGrant(hash, st, run, s, lease, d, claim, t, env, 2);
      Delivers(hash, config, st, call, env, s, key, request, Granting(lease, d, claim),
               Ok(Enacted(Rows(hash, st, run, [d], Some(lease), t, env.now), t, Some(claim))), r);
      assert [] + [d] == [d];
    } else {
      var mid := s.(state := ReadyForCodex);
      ExpiryMakes(s, c);
      ClaimMakes(mid, d);
      EnactExpired(hash, st, run, s, c, mid, lease, d, claim, t, env);
      Delivers(hash, config, st, call, env, s, key, request, Expiring(c, Granting(lease, d, claim)),
               Ok(Enacted(Rows(hash, st, run, [c, d], Some(lease), t, env.now), t, Some(claim))), r);
      assert [c] + [d] == [c, d];
    }
  }

  /** A turn: taken when it is ready, or when the lease of a running one has run out, which is recorded first.
      The worker gets a new token for the time asked for, the run is running, and the answer is the handoff. */
  lemma ClaimLaw(hash: Hash<Content>, config: Config, st: Store, call: Call, env: Env, s: Snapshot, key: string,
                 r: Result<(Store, Answer), Error>)
    requires call.input.TakeTurn? && Fresh(hash, st, call, s, key, env) && Returns(hash, config, st, call, env, r)
    requires Unheld(st, env.mint(1))
    ensures var worker, seconds := Strip(call.input.worker), Duration(config, call.input);
            if worker == "" || seconds < 1 then r == Err(BadInput)
            else if !s.state.ReadyForCodex? && !Overdue(st, call.run, s, env.now) then r == Err(Conflict)
            else
              && s.instruction.Some?
              && Grants(hash, st, call.run,
                        (if s.state.ReadyForCodex? then [] else [Expiry(call, env)])
                          + [Claiming(st, call, env, s, key, seconds)],
                        NewLease(call, env, seconds), s.(state := CodexRunning), key, ClaimTurn(worker, seconds),
                        NewClaim(st, call, env, s, seconds), env.now, r)
  {
    FreshKnown(hash, st, call, s, key, env);
    var worker, seconds := Strip(call.input.worker), Duration(config, call.input);
    ClaimMeans(config, st, call, env, s, key, seconds);
    if worker == "" || seconds < 1 {
      Unreadable(hash, config, st, call, env, BadInput, r);
    } else if !s.state.ReadyForCodex? && !Overdue(st, call.run, s, env.now) {
      Refuses(hash, config, st, call, env, s, key, ClaimTurn(worker, seconds), Conflict, r);
    } else {
      Claims(hash, config, st, call, env, s, key, seconds, r);
    }
  }

  // ---- calls that end before any run is looked at ----

  /** What no call on a run takes: a text with nothing in it, a duration below one, a mapping that lacks
      something. */
  predicate Amiss(config: Config, input: Input)
    requires !input.Begin?
  {
    match input
    case Submit(handoff) => !Fit(handoff)
    case TakeTurn(worker, _) => Strip(worker) == "" || Duration(config, input) < 1
    case Deliver(_, _, report) => report.MappedReport? && Blank(report.result)
    case Note(_, _, text) => Strip(text) == ""
    case Block(_, _, text) => Strip(text) == ""
    case AskHuman(text) => Strip(text) == ""
    case AskPause(text) => Strip(text) == ""
    case AskResume => false
    case AskStop(text) => Strip(text) == ""
    case AskFail(text) => Strip(text) == ""
    case AskComplete(text) => Strip(text) == ""
  }

  lemma AmissReads(config: Config, input: Input, env: Env)
    requires !input.Begin?
    ensures if Amiss(config, input) then Read(config, input, env) == Err(BadInput)
            else Read(config, input, env).Ok? && !Read(config, input, env).value.CreateRun?
  {
    if input.Submit? {
      HandoffReads(input.handoff, env.mint(5));
    }
  }

  /** A bad input or a blank key is refused first, and then a run that does not exist. */
  lemma UnknownLaw(hash: Hash<Content>, config: Config, st: Store, call: Call, env: Env,
                   r: Result<(Store, Answer), Error>)
    requires !call.input.Begin? && Returns(hash, config, st, call, env, r)
    ensures if Amiss(config, call.input) || (call.key.Some? && Strip(call.key.value) == "") then r == Err(BadInput)
            else call.run !in st.runs ==> r == Err(NotFound)
  {
    AmissReads(config, call.input, env);
    assert r == Handle(hash, config, st, call, env);
  }

  // ---- giving an expired turn back ----

  /** One row of the sweep: an expired lease goes, the expiry is recorded, and the run is ready again with the
      handoff it had; any other row stays. */
  lemma RecoverLaw(hash: Hash<Content>, st: Store, run: string, s: Snapshot, env: Env, n: nat)
    requires Known(hash, st, run, s) && env.mint(n + 1) !in st.eventIds
    ensures var c := Content(env.mint(n + 1), run, LeaseExpired, System, Some("lease-expired:" + env.mint(n)), env.now);
            run in st.runs && run in st.events &&
            Recover(hash, st, run, env, n) ==
            if Overdue(st, run, s, env.now) then
              Ok((Rows(hash, st, run, [c], None, s.(state := ReadyForCodex), env.now), true))
            else Ok((st, false))
  {
    KnownRun(hash, st, run, s);
    RecoversOne(hash, st, run, s, env, n);
  }

  lemma KnownRun(hash: Hash<Content>, st: Store, run: string, s: Snapshot)
    requires Known(hash, st, run, s)
    ensures run in st.runs && run in st.events && s.run == run && SnapshotOf(hash, st, run) == Ok(s)
    ensures run in st.leases <==> s.state.CodexRunning?
  {
    SnapshotOk(hash, st, run, s);
  }

  lemma RecoversOne(hash: Hash<Content>, st: Store, run: string, s: Snapshot, env: Env, n: nat)
    requires run in st.runs && run in st.events && s.run == run && SnapshotOf(hash, st, run) == Ok(s)
    requires (run in st.leases <==> s.state.CodexRunning?) && env.mint(n + 1) !in st.eventIds
    ensures var c := Content(env.mint(n + 1), run, LeaseExpired, System, Some("lease-expired:" + env.mint(n)), env.now);
            Recover(hash, st, run, env, n) ==
            if Overdue(st, run, s, env.now) then
              Ok((Rows(hash, st, run, [c], None, s.(state := ReadyForCodex), env.now), true))
            else Ok((st, false))
  {
    var c := Content(env.mint(n + 1), run, LeaseExpired, System, Some("lease-expired:" + env.mint(n)), env.now);
    if Overdue(st, run, s, env.now) {
      LeaseAsIs(st, run);
      ExpiryMakes(s, c);
      assert Apply(s, c) == Ok(s.(state := ReadyForCodex));
      EnactOne(hash, st, run, s, c, None, s.(state := ReadyForCodex), None, env, n + 1);
    }
  }

  // ---- creating a run ----

  /** A first creation under this key, with new identifiers at hand. */
  ghost predicate FreshRun(st: Store, call: Call, key: string, env: Env) {
    && (if call.key.None? then key == "generated:" + env.mint(0) else key == Strip(call.key.value) && key != "")
    && (CREATE_SCOPE, key) !in st.operations && env.mint(1) !in st.runs && env.mint(1) !in st.events
    && env.mint(2) !in st.eventIds && env.mint(3) !in st.eventIds && env.mint(2) != env.mint(3)
  }

  /** The two events a run begins with. */
  function Beginning(run: string, objective: string, max: int, policy: Policy, key: string, env: Env): seq<Content> {
    [Content(env.mint(2), run, RunCreated(objective, max, policy), Control, Some(key + ":created"), env.now),
     Content(env.mint(3), run, PlanningStarted, System, Some(key + ":planning"), env.now)]
  }

  lemma CreateReads(config: Config, input: Input, env: Env)
    requires input.Begin?
    ensures Read(config, input, env) ==
            if Strip(input.objective) == "" then Err(BadInput)
            else if !(1 <= input.maxIterations <= config.ceiling) then Err(BeyondPolicy)
            else Ok(CreateRun(Strip(input.objective), input.maxIterations))
  {
  }

  lemma Opens(hash: Hash<Content>, st: Store, run: string, objective: string, max: int, policy: Policy, key: string,
              env: Env)
    requires run !in st.runs && run !in st.events && Strip(objective) == objective != "" && max >= 1
    requires env.mint(2) !in st.eventIds && env.mint(3) !in st.eventIds && env.mint(2) != env.mint(3)
    ensures var contents := Beginning(run, objective, max, policy, key, env);
            Opened(hash, st, run, objective, max, policy, key, env) ==
            Ok((Store(st.runs[run := Row(objective, Planning, 0, max, policy, env.now, env.now, 2)],
                      st.events[run := Chained(hash, [], contents)], st.eventIds + {env.mint(2), env.mint(3)},
                      st.leases, st.operations, st.artifacts),
                Snapshot(run, objective, Planning, 0, max, policy, None, None, None, None, None, None)))
  {
    var contents := Beginning(run, objective, max, policy, key, env);
    var s := Snapshot(run, objective, New, 0, max, policy, None, None, None, None, None, None);
    ReadsText(objective);
    ChainedOne(hash, [], contents[0]);
    ChainedTwo(hash, [], contents[0], contents[1]);
    ChainedOne(hash, Chained(hash, [], [contents[0]]), contents[1]);
    assert contents == [contents[0], contents[1]];
    assert Create(contents[0]) == Ok(s);
    assert Apply(s, contents[1]) == Ok(s.(state := Planning));
    var row := NewRow(objective, max, policy, env.now);
    PutTwice(st.runs, run, row, Row(objective, Planning, 0, max, policy, env.now, env.now, 2));
    PutTwice(st.events, run, Chained(hash, [], [contents[0]]), Chained(hash, [], contents));
    assert st.eventIds + {env.mint(2)} + {env.mint(3)} == st.eventIds + {env.mint(2), env.mint(3)};
  }

  /** A run: created with an objective and a limit within the ceiling, in planning, with its two events. */
  lemma CreateLaw(hash: Hash<Content>, config: Config, st: Store, call: Call, env: Env, key: string,
                  r: Result<(Store, Answer), Error>)
    requires call.input.Begin? && FreshRun(st, call, key, env) && Returns(hash, config, st, call, env, r)
    ensures var objective, max, run, policy := Strip(call.input.objective), call.input.maxIterations, env.mint(1),
                                               config.policy;
            if objective == "" then r == Err(BadInput)
            else if !(1 <= max <= config.ceiling) then r == Err(BeyondPolicy)
            else
              r == Ok((Store(st.runs[run := Row(objective, Planning, 0, max, policy, env.now, env.now, 2)],
                             st.events[run := Chained(hash, [], Beginning(run, objective, max, policy, key, env))],
                             st.eventIds + {env.mint(2), env.mint(3)}, st.leases,
                             st.operations[(CREATE_SCOPE, key) := Operation(CreateRun(objective, max), Created(run),
                                                                           env.now)],
                             st.artifacts),
                       Current(Snapshot(run, objective, Planning, 0, max, policy, None, None, None, None, None, None))))
  {
    var objective, max := Strip(call.input.objective), call.input.maxIterations;
    ReadsText(call.input.objective);
    CreateReads(config, call.input, env);
    assert r == Handle(hash, config, st, call, env);
    if objective != "" && 1 <= max <= config.ceiling {
      Opens(hash, st, env.mint(1), objective, max, config.policy, key, env);
    }
  }
}
