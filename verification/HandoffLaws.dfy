/** Ids of handoffs, as they are recorded and as they are read: what the uniqueness check misses, and what
    changes from one reading of a run to the next. */
module HandoffLaws {
  import opened Common
  import opened HashChain
  import opened Text
  import opened Protocol
  import opened ProtocolLaws
  import opened Ledger
  import opened LedgerLaws
  import opened LeaseLaws

  // ---- which ids are ever recorded ----

  /** Every recorded handoff id meets `ok`. */
  ghost predicate RecordedOk(log: seq<Event>, ok: string -> bool) {
    forall k :: 0 <= k < |log| && Raw(log, k).Some? ==> ok(Raw(log, k).value)
  }

  ghost predicate AllRecordedOk(events: map<string, seq<Event>>, ok: string -> bool) {
    forall r :: r in events ==> RecordedOk(events[r], ok)
  }

  /** The handoff a move submits, as the transaction gets it. */
  function Submitted(config: Config, move: Move): Option<Instruction> {
    if !move.Called? then None
    else
      match Read(config, move.call.input, move.env)
      case Ok(SubmitInstruction(i)) => Some(i)
      case _ => None
  }

  predicate AppendsOnly(script: Script, ok: string -> bool) {
    match script
    case Finish(_) => true
    case Refuse(_) => true
    case Drop(next) => AppendsOnly(next, ok)
    case Take(_, next) => AppendsOnly(next, ok)
    case Append(p, _, _, next) => (p.InstructionSubmitted? ==> ok(p.instruction.id)) && AppendsOnly(next, ok)
  }

  lemma RecordedNext(log: seq<Event>, e: Event, ok: string -> bool)
    requires RecordedOk(log, ok)
    requires e.content.payload.InstructionSubmitted? ==> ok(e.content.payload.instruction.id)
    ensures RecordedOk(log + [e], ok)
  {
    forall k | 0 <= k < |log + [e]| && Raw(log + [e], k).Some? ensures ok(Raw(log + [e], k).value) {
      assert k < |log| ==> Raw(log + [e], k) == Raw(log, k);
    }
  }

  lemma {:induction false} EnactRecords(hash: Hash<Content>, st: Store, run: string, s: Snapshot, script: Script,
                                        env: Env, n: nat, ok: string -> bool)
    requires run in st.runs && run in st.events && RecordedOk(st.events[run], ok) && AppendsOnly(script, ok)
    requires Enact(hash, st, run, s, script, env, n).Ok?
    ensures var done := Enact(hash, st, run, s, script, env, n).value.store;
            run in done.events && RecordedOk(done.events[run], ok)
    decreases script
  {
    match script
    case Finish(_) =>
    case Refuse(_) =>
    case Drop(next) => EnactRecords(hash, Dropped(st, run), run, s, next, env, n, ok);
    case Take(lease, next) => EnactRecords(hash, Leased(st, run, lease), run, s, next, env, n, ok);
    case Append(payload, actor, key, next) =>
      var c := Content(env.mint(n), run, payload, actor, Some(key), env.now);
      var done := AppendAndSync(hash, st, run, s, c).value;
      RecordedNext(st.events[run], Next(hash, GENESIS, st.events[run], c), ok);
      EnactRecords(hash, done.0, run, done.1, next, env, n + 1, ok);
  }

  lemma ScriptAppends(s: Snapshot, log: seq<Event>, lease: Option<Lease>, run: string, request: Request, key: string,
                      env: Env, ok: string -> bool)
    requires request.SubmitInstruction? ==> ok(request.instruction.id)
    ensures AppendsOnly(ScriptFor(s, log, lease, run, request, key, env), ok)
  {
    var i := HandedOut(s, log, Recoverable(s, lease, env.now), env);
    if request.ClaimTurn? && i.Some? {
      assert AppendsOnly(GrantScript(i.value, run, request.worker, request.seconds, key, env), ok);
    }
  }

  lemma RunRecords(hash: Hash<Content>, st: Store, run: string, request: Request, key: string, env: Env, after: Store,
                   ok: string -> bool)
    requires Agree(hash, st) && AllRecordedOk(st.events, ok) && HandleRun(hash, st, run, request, key, env).Ok?
    requires after == HandleRun(hash, st, run, request, key, env).value.0
    requires request.SubmitInstruction? ==> ok(request.instruction.id)
    ensures AllRecordedOk(after.events, ok)
  {
    if (run, key) in st.operations {
      RepeatSame(hash, st, run, request, key, env);
    } else {
      var s, script, done := RunEnacts(hash, st, run, request, key, env);
      ScriptAppends(s, st.events[run], LeaseOf(st, run), run, request, key, env, ok);
      EnactRecords(hash, st, run, s, script, env, 2, ok);
      assert after == Remembered(done.store, run, key, OperationOf(request, done, env.now));
    }
  }

  lemma OpenedRecords(hash: Hash<Content>, st: Store, run: string, objective: string, max: int, policy: Policy,
                      key: string, env: Env, done: Store, t: Snapshot, ok: string -> bool)
    requires Agree(hash, st) && AllRecordedOk(st.events, ok)
    requires Opened(hash, st, run, objective, max, policy, key, env) == Ok((done, t))
    ensures AllRecordedOk(done.events, ok)
  {
    OpenedOnly(hash, st, run, objective, max, policy, key, env, done, t);
    OpeningRecords(hash, st, run, objective, max, policy, key, env, done, t, ok);
  }

  lemma OpeningRecords(hash: Hash<Content>, st: Store, run: string, objective: string, max: int, policy: Policy,
                       key: string, env: Env, done: Store, t: Snapshot, ok: string -> bool)
    requires st.events.Keys == st.runs.Keys && st.leases.Keys <= st.runs.Keys
    requires Opened(hash, st, run, objective, max, policy, key, env) == Ok((done, t))
    ensures run in done.events && RecordedOk(done.events[run], ok)
  {
    var first := Content(env.mint(2), run, RunCreated(objective, max, policy), Control, Some(key + ":created"),
                         env.now);
    var planning := Content(env.mint(3), run, PlanningStarted, System, Some(key + ":planning"), env.now);
    OpenedRows(hash, st, run, objective, max, policy, key, env, done, t, first, planning);
  }

  lemma CreateRecords(hash: Hash<Content>, config: Config, st: Store, objective: string, max: int, key: string,
                      env: Env, after: Store, ok: string -> bool)
    requires Agree(hash, st) && AllRecordedOk(st.events, ok)
             && HandleCreate(hash, config, st, objective, max, key, env).Ok?
    requires after == HandleCreate(hash, config, st, objective, max, key, env).value.0
    ensures AllRecordedOk(after.events, ok)
  {
    if (CREATE_SCOPE, key) !in st.operations {
      var (done, t) := Opened(hash, st, env.mint(1), objective, max, config.policy, key, env).value;
      OpenedRecords(hash, st, env.mint(1), objective, max, config.policy, key, env, done, t, ok);
    }
  }

  lemma CallRecords(hash: Hash<Content>, config: Config, st: Store, call: Call, env: Env, ok: string -> bool)
    requires Coherent(hash, st) && AllRecordedOk(st.events, ok)
    requires Submitted(config, Called(call, env)).Some? ==> ok(Submitted(config, Called(call, env)).value.id)
    ensures AllRecordedOk(After(hash, config, st, call, env).events, ok)
  {
    if Handle(hash, config, st, call, env).Ok? {
      var request, key := Dispatch(hash, config, st, call, env);
      var after := After(hash, config, st, call, env);
      if request.CreateRun? {
        CreateRecords(hash, config, st, request.objective, request.maxIterations, key, env, after, ok);
      } else {
        RunRecords(hash, st, call.run, request, key, env, after, ok);
      }
    }
  }

  lemma SweptRecords(hash: Hash<Content>, st: Store, after: Store, rows: seq<string>, now: int, ok: string -> bool)
    requires Swept(hash, st, after, rows, now) && AllRecordedOk(st.events, ok)
    ensures AllRecordedOk(after.events, ok)
  {
    forall r | r in after.events ensures RecordedOk(after.events[r], ok) {
      if r in rows && r in st.leases && Expired(st.leases[r], now) {
        assert GivenBack(hash, st, after, r);
        ExpiryRecords(st.events[r], after.events[r], ok);
      } else {
        assert SameRun(st, after, r);
      }
    }
  }

  lemma ExpiryRecords(log: seq<Event>, log': seq<Event>, ok: string -> bool)
    requires RecordedOk(log, ok) && |log'| == |log| + 1 && log <= log' && log'[|log|].content.payload == LeaseExpired
    ensures RecordedOk(log', ok)
  {
    assert log' == log + [log'[|log|]];
    RecordedNext(log, log'[|log|], ok);
  }

  lemma MoveRecords(hash: Hash<Content>, config: Config, st: Store, move: Move, after: Store, ok: string -> bool)
    requires Coherent(hash, st) && AllRecordedOk(st.events, ok) && after == Made(hash, config, st, move)
    requires Submitted(config, move).Some? ==> ok(Submitted(config, move).value.id)
    ensures AllRecordedOk(after.events, ok)
  {
    match move
    case Called(call, env) => CallRecords(hash, config, st, call, env, ok);
    case Attached(_, _, _, _) => AttachOnly(hash, config, st, move, after);
    case Restarted(rows, env) =>
      RestartSweeps(hash, config, st, move, after);
      if after != st {
        SweptRecords(hash, st, after, rows, env.now, ok);
      }
  }

  /** What holds of every id submitted holds of every id recorded. */
  lemma {:induction false} RecordedFromSubmitted(hash: Hash<Content>, config: Config, moves: seq<Move>,
                                                 ok: string -> bool)
    requires forall k :: 0 <= k < |moves| && Submitted(config, moves[k]).Some? ==>
               ok(Submitted(config, moves[k]).value.id)
    ensures AllRecordedOk(AfterAll(hash, config, EMPTY, moves).events, ok)
  {
    if moves != [] {
      var short, last := moves[..|moves| - 1], moves[|moves| - 1];
      RecordedFromSubmitted(hash, config, short, ok);
      ReachableCoherent(hash, config, short);
      MoveRecords(hash, config, AfterAll(hash, config, EMPTY, short), last, AfterAll(hash, config, EMPTY, moves), ok);
    }
  }

  /** All typed handoffs of a schedule have ids that meet `ok`. */
  ghost predicate TypedIds(moves: seq<Move>, ok: string -> bool) {
    forall k :: 0 <= k < |moves| && moves[k].Called? && moves[k].call.input.Submit?
                && moves[k].call.input.handoff.TypedHandoff?
                ==> ok(moves[k].call.input.handoff.instruction.id)
  }

  /** A mapping is read before it is submitted, so its id has neither outer white space nor is it empty. */
  lemma MappedIds(config: Config, move: Move)
    requires Submitted(config, move).Some?
    ensures move.call.input.Submit?
    ensures move.call.input.handoff.MappedHandoff? ==>
              Tight(Submitted(config, move).value.id) && Submitted(config, move).value.id != ""
    ensures move.call.input.handoff.TypedHandoff? ==>
              Submitted(config, move).value == move.call.input.handoff.instruction
  {
  }

  // ---- ids as they are read ----

  /** Two recorded ids that every reading turns into one. An empty id is read under a minted one. */
  predicate ReadAlike(a: string, b: string) {
    a != "" && b != "" && Strip(a) == Strip(b)
  }

  /** Two handoffs of the run are read under one id. */
  ghost predicate ReadRepeats(log: seq<Event>) {
    exists j, k :: 0 <= j < k < |log| && Raw(log, j).Some? && Raw(log, k).Some?
                   && ReadAlike(Raw(log, j).value, Raw(log, k).value)
  }

  /** Every recorded handoff can be read. */
  lemma {:induction false} RecordedReadable(cs: seq<Content>, k: nat)
    requires Legal(cs) && k < |cs| && HandoffIn(cs[k]).Some?
    ensures Kept(HandoffIn(cs[k]).value).Some?
  {
    PrefixLegal(cs, k + 1);
    assert cs[..k + 1][..k] == cs[..k];
    assert k > 0 ==> Fold(cs[..k + 1]) == Apply(At(cs[..k]), cs[k]);
  }

  lemma KeptIds(i: Instruction)
    requires Kept(i).Some?
    ensures i.id == "" || Strip(i.id) != ""
  {
  }

  lemma UsedIsRefused(hash: Hash<Content>, st: Store, run: string, s: Snapshot, i: Instruction, key: string, env: Env)
    requires run in st.runs && run in st.events
    ensures IdUsed(st.events[run], i.id) ==>
              Enact(hash, st, run, s, InstructScript(s, st.events[run], i, key), env, 2).Err?
  {
  }

  /** Below the iteration limit only a handoff that can be read is recorded; at the limit the run fails instead. */
  lemma InstructsReadable(hash: Hash<Content>, st: Store, run: string, s: Snapshot, i: Instruction, key: string,
                          env: Env)
    requires run in st.runs && run in st.events && s.iteration < s.maxIterations
    requires Enact(hash, st, run, s, InstructScript(s, st.events[run], i, key), env, 2).Ok?
    ensures Kept(i).Some?
  {
    var next := InstructNext(s, i, key);
    if s.state.CodexComplete? {
      var c := Content(env.mint(2), run, ReviewStarted, Planner, Some(key + ":review"), env.now);
      var (mid, t) := AppendAndSync(hash, st, run, s, c).value;
      assert Enact(hash, mid, run, t, next, env, 3).Ok? && t.iteration == s.iteration;
      LastReadable(hash, mid, run, t, i, key, env, 3);
    } else {
      LastReadable(hash, st, run, s, i, key, env, 2);
    }
  }

  lemma LastReadable(hash: Hash<Content>, st: Store, run: string, s: Snapshot, i: Instruction, key: string, env: Env,
                     n: nat)
    requires run in st.runs && Enact(hash, st, run, s, Append(InstructionSubmitted(i), Planner, key, Finish(None)), env,
                                     n).Ok?
    ensures Kept(i).Some?
  {
  }

  /** The id of an accepted handoff is new as recorded; below the limit the handoff is readable, like every
      recorded one. */
  lemma AcceptedHandoff(hash: Hash<Content>, config: Config, st: Store, call: Call, env: Env, i: Instruction)
    returns (s: Snapshot)
    requires Coherent(hash, st) && Submitted(config, Called(call, env)) == Some(i)
    requires Handle(hash, config, st, call, env).Ok? && !Spent(config, st, call, env)
    ensures Settled(hash, st, call.run, s) && !IdUsed(st.events[call.run], i.id)
    ensures s.iteration < s.maxIterations ==> Kept(i).Some?
    ensures forall k :: 0 <= k < |st.events[call.run]| && Raw(st.events[call.run], k).Some? ==>
              Raw(st.events[call.run], k).value == "" || Strip(Raw(st.events[call.run], k).value) != ""
  {
    var request, key := Dispatch(hash, config, st, call, env);
    var script, done;
    s, script, done := RunEnacts(hash, st, call.run, request, key, env);
    var log := st.events[call.run];
    UsedIsRefused(hash, st, call.run, s, i, key, env);
    if s.iteration < s.maxIterations {
      InstructsReadable(hash, st, call.run, s, i, key, env);
    }
    forall k | 0 <= k < |log| && Raw(log, k).Some? ensures Raw(log, k).value == "" || Strip(Raw(log, k).value) != "" {
      RecordedReadable(Contents(log), k);
      KeptIds(HandoffIn(Contents(log)[k]).value);
    }
  }

  /** On any coherent tables: an accepted handoff repeats, as read, an id of the run exactly when some
      recorded id differs from its own and strips to the same text. The check at submission compares ids as
      recorded and so misses exactly these. (At the iteration limit the run fails and no handoff is
      recorded, so there the handoff must be supposed readable.) */
  lemma MissedRepeat(hash: Hash<Content>, config: Config, st: Store, call: Call, env: Env, i: Instruction, s: Snapshot)
    requires Coherent(hash, st) && Submitted(config, Called(call, env)) == Some(i)
    requires Handle(hash, config, st, call, env).Ok? && !Spent(config, st, call, env)
    requires Settled(hash, st, call.run, s) && (s.iteration < s.maxIterations || Kept(i).Some?)
    ensures call.run in st.events
    ensures var log := st.events[call.run];
            (exists k :: 0 <= k < |log| && Raw(log, k).Some? && ReadAlike(Raw(log, k).value, i.id)) <==>
            (exists k :: 0 <= k < |log| && Raw(log, k).Some? && Raw(log, k).value != i.id
                         && Strip(Raw(log, k).value) == Strip(i.id))
  {
    var t := AcceptedHandoff(hash, config, st, call, env, i);
    assert t == s;
    KeptIds(i);
    var log := st.events[call.run];
    if k :| 0 <= k < |log| && Raw(log, k).Some? && Raw(log, k).value != i.id
            && Strip(Raw(log, k).value) == Strip(i.id) {
      assert ReadAlike(Raw(log, k).value, i.id);
    }
    if k :| 0 <= k < |log| && Raw(log, k).Some? && ReadAlike(Raw(log, k).value, i.id) {
      assert Raw(log, k) != Some(i.id);
    }
  }

  /** If every typed handoff of a schedule comes with its id stripped, no run ever has two handoffs that are
      read under one id. */
  lemma StrippedIdsStayDistinct(hash: Hash<Content>, config: Config, moves: seq<Move>, run: string)
    requires TypedIds(moves, Tight) && run in AfterAll(hash, config, EMPTY, moves).runs
    ensures run in AfterAll(hash, config, EMPTY, moves).events
            && !ReadRepeats(AfterAll(hash, config, EMPTY, moves).events[run])
  {
    forall k | 0 <= k < |moves| && Submitted(config, moves[k]).Some?
      ensures Tight(Submitted(config, moves[k]).value.id) {
      MappedIds(config, moves[k]);
    }
    RecordedFromSubmitted(hash, config, moves, Tight);
    ReachableRun(hash, config, moves, run);
    DistinctAsRead(AfterAll(hash, config, EMPTY, moves).events[run]);
  }

  lemma DistinctAsRead(log: seq<Event>)
    requires RecordedOk(log, Tight) && DistinctHandoffs(log)
    ensures !ReadRepeats(log)
  {
    forall j, k | 0 <= j < k < |log| && Raw(log, j).Some? && Raw(log, k).Some?
      ensures !ReadAlike(Raw(log, j).value, Raw(log, k).value)
    {
      TightStrip(Raw(log, j).value);
      TightStrip(Raw(log, k).value);
    }
  }

  // ---- readings of one run ----

  /** The readings of a run agree exactly when its latest handoff was recorded with an id. */
  lemma ReadingsAgree(hash: Hash<Content>, st: Store, run: string, s: Snapshot)
    requires Settled(hash, st, run, s)
    ensures (forall m: nat -> Uuid, m': nat -> Uuid :: ReadRun(hash, st, run, m) == ReadRun(hash, st, run, m'))
            <==> !Nameless(Contents(st.events[run]))
  {
    var cs := Contents(st.events[run]);
    ReplaysAgree(cs);
    forall m: nat -> Uuid ensures FoldEvents(cs, m).Ok? && ReadRun(hash, st, run, m) == Ok(FoldEvents(cs, m).value) {
      FoldSees(cs, m);
    }
    if !Nameless(cs) {
      forall m: nat -> Uuid, m': nat -> Uuid ensures ReadRun(hash, st, run, m) == ReadRun(hash, st, run, m') {
        assert FoldEvents(cs, m) == FoldEvents(cs, m');
      }
    } else {
      var m: nat -> Uuid, m': nat -> Uuid :| FoldEvents(cs, m) != FoldEvents(cs, m');
      assert ReadRun(hash, st, run, m) != ReadRun(hash, st, run, m');
    }
  }

  /** An ended run reads the same now and after any schedule exactly when its latest handoff was recorded
      with an id; otherwise the id of that handoff, and nothing else, is another one at every reading. */
  lemma EndedReadings(hash: Hash<Content>, config: Config, st: Store, moves: seq<Move>, run: string, s: Snapshot)
    requires Coherent(hash, st) && Settled(hash, st, run, s) && s.state.Terminal()
    ensures var after := AfterAll(hash, config, st, moves);
            && ((forall m: nat -> Uuid, m': nat -> Uuid :: ReadRun(hash, st, run, m) == ReadRun(hash, after, run, m'))
                <==> !Nameless(Contents(st.events[run])))
            && (forall m: nat -> Uuid :: ReadRun(hash, after, run, m) == Ok(Seen(s, MintedIn(st.events[run], m))))
  {
    var after := AfterAll(hash, config, st, moves);
    EndedRunsStay(hash, config, st, moves, run, s);
    ReadingsAgree(hash, st, run, s);
    forall m: nat -> Uuid
      ensures ReadRun(hash, after, run, m) == ReadRun(hash, st, run, m) == Ok(Seen(s, MintedIn(st.events[run], m)))
    {
      SnapshotOk(hash, st, run, s);
      ReadRunSees(hash, st, run, s, m);
    }
  }

  predicate HasId(id: string) {
    id != ""
  }

  lemma {:induction false} NamelessIsRecorded(log: seq<Event>)
    requires Nameless(Contents(log))
    ensures !RecordedOk(log, HasId)
    decreases |log|
  {
    var last := |log| - 1;
    if HandoffIn(log[last].content).Some? {
      assert Raw(log, last) == Some("");
    } else {
      assert Contents(log)[..last] == Contents(log[..last]);
      NamelessIsRecorded(log[..last]);
      var k :| 0 <= k < last && Raw(log[..last], k).Some? && !HasId(Raw(log[..last], k).value);
      assert Raw(log, k) == Raw(log[..last], k);
    }
  }

  /** If no typed handoff of a schedule has an empty id, the readings of every run agree. */
  lemma NamedHandoffsReadAlike(hash: Hash<Content>, config: Config, moves: seq<Move>, run: string, m: nat -> Uuid,
                               m': nat -> Uuid)
    requires TypedIds(moves, HasId) && run in AfterAll(hash, config, EMPTY, moves).runs
    ensures var st := AfterAll(hash, config, EMPTY, moves); ReadRun(hash, st, run, m) == ReadRun(hash, st, run, m')
  {
    forall k | 0 <= k < |moves| && Submitted(config, moves[k]).Some?
      ensures HasId(Submitted(config, moves[k]).value.id) {
      MappedIds(config, moves[k]);
    }
    var st := AfterAll(hash, config, EMPTY, moves);
    RecordedFromSubmitted(hash, config, moves, HasId);
    ReachableCoherent(hash, config, moves);
    var s := RunSnapshot(hash, st, run);
    ReadingsAgree(hash, st, run, s);
    if Nameless(Contents(st.events[run])) {
      NamelessIsRecorded(st.events[run]);
    }
  }
}
