/** Opening the discovery session: a bounded number of attempts against one aggregate deadline. */
module Discovery {
  const MAX_ATTEMPTS := 5
  const AGGREGATE_SECONDS := 90.0
  const CLEANUP_SECONDS := 3.0
  const BACKOFF: seq<real> := [0.1, 0.2, 0.4, 0.8]

  datatype Class =
    | Cleanup | Spawn | ExecutableValidation | ProcessGroupValidation | StdinWrite | InitializeResponseTimeout
    | EarlyEof | NonzeroEarlyExit | RejectedStderr | InitializedNotification | ResponseShapeIdentity | Internal

  /** What is known when an attempt fails before it was initialized. */
  datatype Failure = Failure(message: string, osError: bool, launched: bool, cleanupIssue: bool, responseObserved: bool)

  datatype Diagnostic = Diagnostic(kind: Class, retryable: bool)

  predicate Mentions(message: string, token: string) {
    exists i :: 0 <= i <= |message| && token <= message[i..]
  }

  /** The message speaks of what the peer answered. */
  predicate OfAnswer(m: string) {
    || Mentions(m, "response") || Mentions(m, "JSON") || Mentions(m, "structural bound") || Mentions(m, "invalid key")
    || Mentions(m, "version does not match")
  }

  function ClassOf(f: Failure): Class {
    if f.cleanupIssue then Cleanup
    else if f.osError && !f.launched then Spawn
    else if Mentions(f.message, "executable") || Mentions(f.message, "Codex Desktop identity") then ExecutableValidation
    else if Mentions(f.message, "process-group") || Mentions(f.message, "owned process group")
      then ProcessGroupValidation
    else if Mentions(f.message, "transport write") then StdinWrite
    else if Mentions(f.message, "transport read deadline") || Mentions(f.message, "session deadline")
      then InitializeResponseTimeout
    else if Mentions(f.message, "missing, partial, or oversized") then EarlyEof
    else if Mentions(f.message, "exited before protocol completion") then NonzeroEarlyExit
    else if Mentions(f.message, "stderr rejected") then RejectedStderr
    else if Mentions(f.message, "notification") && f.responseObserved then InitializedNotification
    else if OfAnswer(f.message) then ResponseShapeIdentity
    else Internal
  }

  /** Failures of the transport before the peer has answered. */
  predicate Passing(c: Class) {
    c.Spawn? || c.StdinWrite? || c.InitializeResponseTimeout? || c.EarlyEof? || c.NonzeroEarlyExit?
  }

  /** The message speaks of who the peer is. */
  predicate OfIdentity(m: string) {
    || Mentions(m, "executable") || Mentions(m, "Codex Desktop identity")
    || Mentions(m, "process-group") || Mentions(m, "owned process group")
  }

  /** The message speaks of the transport breaking off. */
  predicate OfTransport(m: string) {
    || Mentions(m, "transport write") || Mentions(m, "transport read deadline") || Mentions(m, "session deadline")
    || Mentions(m, "missing, partial, or oversized") || Mentions(m, "exited before protocol completion")
  }

  /** An attempt may be repeated exactly when nothing was heard, the process was cleaned up, and either it was
      never launched or the transport broke off with the peer's identity not in question. */
  function Classify(f: Failure): (d: Diagnostic)
    ensures d.retryable <==>
              && !f.responseObserved && !f.cleanupIssue
              && ((f.osError && !f.launched) || (!OfIdentity(f.message) && OfTransport(f.message)))
    ensures d.kind.Cleanup? <==> f.cleanupIssue
    ensures d.kind.Spawn? <==> !f.cleanupIssue && f.osError && !f.launched
    ensures d.kind.ExecutableValidation? || d.kind.ProcessGroupValidation? <==>
              !f.cleanupIssue && !(f.osError && !f.launched) && OfIdentity(f.message)
    ensures match d.kind
            case ExecutableValidation =>
              Mentions(f.message, "executable") || Mentions(f.message, "Codex Desktop identity")
            case StdinWrite => Mentions(f.message, "transport write")
            case InitializeResponseTimeout =>
              Mentions(f.message, "transport read deadline") || Mentions(f.message, "session deadline")
            case EarlyEof => Mentions(f.message, "missing, partial, or oversized")
            case NonzeroEarlyExit => Mentions(f.message, "exited before protocol completion")
            case RejectedStderr => Mentions(f.message, "stderr rejected") && !OfTransport(f.message)
            case InitializedNotification => Mentions(f.message, "notification") && f.responseObserved
            case ResponseShapeIdentity => OfAnswer(f.message) && !OfTransport(f.message)
                                          && !Mentions(f.message, "stderr rejected")
            case Internal => !OfAnswer(f.message) && !OfTransport(f.message) && !Mentions(f.message, "stderr rejected")
            case _ => true
  {
    var c := ClassOf(f);
    Diagnostic(c, !f.responseObserved && !f.cleanupIssue && Passing(c))
  }

  /** One attempt: it yields a session and later ends well or not; or it fails before; or something
      escapes that the loop does not catch. The process has been cleaned up in every case. */
  datatype Trial = Opened(endsWell: bool) | Broke(failure: Failure) | Foreign

  type Trials = nat -> Trial
  type Clock = nat -> real

  datatype Verdict =
    | BadBound
    | InitError(diagnostic: Diagnostic, attempts: nat)
    | Escaped(attempts: nat)
    | Served(attempts: nat, transient: seq<Diagnostic>)

  type Classifier = Failure -> Diagnostic

  const NOT_STARTED := Diagnostic(InitializeResponseTimeout, false)

  /** An attempt that may be followed by another. */
  predicate Transient(classify: Classifier, t: Trial) {
    t.Broke? && classify(t.failure).retryable
  }

  /** Each launch was admitted by its own reading, before `latest`, the aggregate deadline of 90 seconds
      less the cleanup reserve of 3. */
  ghost predicate InTime(launches: seq<real>, clock: Clock, latest: real) {
    forall k :: 0 <= k < |launches| ==> launches[k] == clock(2 * k + 1) < latest
  }

  /** The diagnostics of the first attempts, all of them retryable. */
  ghost predicate Recorded(classify: Classifier, trials: Trials, transient: seq<Diagnostic>) {
    forall k :: 0 <= k < |transient| ==> RecordedAt(classify, trials, transient, k)
  }

  ghost predicate RecordedAt(classify: Classifier, trials: Trials, transient: seq<Diagnostic>, k: nat)
    requires k < |transient|
  {
    Transient(classify, trials(k + 1)) && transient[k] == classify(trials(k + 1).failure)
  }

  lemma RecordedNext(classify: Classifier, trials: Trials, transient: seq<Diagnostic>)
    requires Recorded(classify, trials, transient) && Transient(classify, trials(|transient| + 1))
    ensures Recorded(classify, trials, transient + [classify(trials(|transient| + 1).failure)])
  {
    var more := transient + [classify(trials(|transient| + 1).failure)];
    forall k | 0 <= k < |more| ensures RecordedAt(classify, trials, more, k) {
      assert k < |transient| ==> RecordedAt(classify, trials, transient, k);
    }
  }

  /** What the number of launches and the verdict say about the attempts. */
  ghost predicate Accounted(classify: Classifier, trials: Trials, launched: nat, transient: seq<Diagnostic>,
                            v: Verdict) {
    && Recorded(classify, trials, transient)
    && match v
       case BadBound => launched == 0
       case InitError(d, n) =>
         && n == launched
         && ((d == NOT_STARTED && |transient| == n)
             || (n > 0 && trials(n).Broke? && d == classify(trials(n).failure) && n - 1 <= |transient| <= n))
       case Escaped(n) => n == launched == |transient| + 1 && (trials(n).Foreign? || trials(n) == Opened(false))
       case Served(n, recorded) => n == launched == |transient| + 1 && trials(n) == Opened(true)
                                   && recorded == transient
  }

  /** It gives up only for a reason: no time left to start, a failure that may not be retried, the last
      attempt, or no time left after the pause. The k-th attempt takes the readings 2k - 1 and 2k. */
  ghost predicate Justified(classify: Classifier, trials: Trials, clock: Clock, max: int, v: Verdict) {
    v.InitError? && 1 <= max <= 5 ==>
      var n, latest := v.attempts, clock(0) + 87.0;
      || (n < max && v.diagnostic == NOT_STARTED && clock(2 * n + 1) >= latest)
      || (0 < n <= max && trials(n).Broke? && v.diagnostic == classify(trials(n).failure)
          && (!v.diagnostic.retryable || n == max || clock(2 * n) + [0.1, 0.2, 0.4, 0.8][n - 1] >= latest))
  }

  /** The loop. `clock(i)` is the i-th reading of the monotonic clock, `trials(k)` the k-th attempt; the
      launches are recorded with the reading that admitted them. */
  method OpenInitializedDiscovery(max: int, clock: Clock, trials: Trials, classify: Classifier)
    returns (v: Verdict, ghost launches: seq<real>, transient: seq<Diagnostic>)
    ensures v.BadBound? <==> !(1 <= max <= 5)
    ensures !v.BadBound? ==> |launches| <= max && InTime(launches, clock, clock(0) + 87.0)
    ensures Accounted(classify, trials, |launches|, transient, v) && Justified(classify, trials, clock, max, v)
  {
    launches, transient := [], [];
    if !(1 <= max <= MAX_ATTEMPTS) {
      return BadBound, launches, transient;
    }
    var reading: nat := 1;
    var latestStart := clock(0) + AGGREGATE_SECONDS - CLEANUP_SECONDS;
    var attempt := 1;
    while attempt <= max
      invariant 1 <= attempt <= max && reading == 2 * attempt - 1 && |launches| == |transient| == attempt - 1
      invariant InTime(launches, clock, latestStart)
      invariant Recorded(classify, trials, transient)
      decreases max - attempt
    {
      var now := clock(reading);
      reading := reading + 1;
      if now >= latestStart {
        return InitError(NOT_STARTED, attempt - 1), launches, transient;
      }
      launches := launches + [now];
      var trial := trials(attempt);
      if trial.Foreign? {
        return Escaped(attempt), launches, transient;
      }
      if trial.Opened? {
        return if trial.endsWell then Served(attempt, transient) else Escaped(attempt), launches, transient;
      }
      var diagnostic := classify(trial.failure);
      if !diagnostic.retryable || attempt == max {
        return InitError(diagnostic, attempt), launches, transient;
      }
      RecordedNext(classify, trials, transient);
      transient := transient + [diagnostic];
      var delay := BACKOFF[attempt - 1];
      now := clock(reading);
      reading := reading + 1;
      if now + delay >= latestStart {
        return InitError(diagnostic, attempt), launches, transient;
      }
      attempt := attempt + 1;
    }
    // The raise below the loop is never reached: the last attempt always returns or raises.
    assert false;
  }

  /** Nothing is retried once a response was seen, a session was yielded, or the cleanup had an issue. */
  lemma NoRetryAfterResponse(trials: Trials, launched: nat, transient: seq<Diagnostic>, v: Verdict, k: nat)
    requires Accounted(Classify, trials, launched, transient, v) && 0 < k < launched
    ensures trials(k).Broke? && !trials(k).failure.responseObserved && !trials(k).failure.cleanupIssue
  {
    assert RecordedAt(Classify, trials, transient, k - 1);
  }
}
