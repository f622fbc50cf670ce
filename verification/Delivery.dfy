/** Any number of delivery runs sharing one journal file, interleaved and crashing anywhere.
    Every step is one system call or one decision of the driver. */
module Delivery {
  import opened Common
  import opened HashChain
  import opened Journal

  type Pid = nat

  /** The journal path. `durable` bytes survive a power loss; `linked` says the directory entry does. */
  datatype Disk = Absent | File(bytes: seq<byte>, durable: nat, linked: bool)

  datatype Job = Job(attempt: string, payload: string, alias: string, thread: string, capability: nat, deferred: bool) {
    function Pair(): (string, string) { (payload, alias) }
    function Says(kind: Kind): Content { Content(attempt, kind, payload, alias, thread) }
  }

  /** Where a run stands. `records` is the in-memory copy of the journal it validated. */
  datatype Pc =
    | Fresh
    | Armed
    | Opened(created: bool)
    | Locked(created: bool)
    | Inspected(created: bool)
    | Holding(records: seq<Record>)
    | Preparing(records: seq<Record>)
    | Appending(records: seq<Record>, kind: Kind)
    | Written(records: seq<Record>, kind: Kind)
    | Started(records: seq<Record>)
    | TurnSent(records: seq<Record>)
    | TurnDone(records: seq<Record>)
    | Done(outcome: Outcome)
    | Raised

  datatype Sys = Sys(disk: Disk, lock: Option<Pid>, pcs: map<Pid, Pc>, sent: seq<Pid>, used: set<nat>)

  datatype Step =
    | Consume(p: Pid, accepted: bool)
    | Create(p: Pid)
    | Open(p: Pid)
    | TakeLock(p: Pid)
    | Inspect(p: Pid)
    | Read(p: Pid)
    | CheckPrior(p: Pid)
    | Prepare(p: Pid, ok: bool)
    | Write(p: Pid)
    | WritePart(p: Pid, n: nat)
    | Sync(p: Pid)
    | SendTurn(p: Pid)
    | Wait(p: Pid, completed: bool)
    | Cleanup(p: Pid, issue: bool)
    | Abort(p: Pid)
    | PowerLoss(keep: nat, found: bool)

  predicate HoldsLock(pc: Pc) {
    pc.Locked? || pc.Inspected? || HasRecords(pc)
  }

  predicate HasRecords(pc: Pc) {
    pc.Holding? || pc.Preparing? || pc.Appending? || pc.Written? || pc.Started? || pc.TurnSent? || pc.TurnDone?
  }

  /** A run that created the file and has not yet validated it. */
  predicate Creator(pc: Pc) {
    (pc.Opened? || pc.Locked? || pc.Inspected?) && pc.created
  }

  function NewRecord(c: Codec, job: Job, rs: seq<Record>, kind: Kind): Record {
    Next(c.hash, ZERO, rs, job.Says(kind))
  }

  /** Move `p` to `pc`; the lock goes with the descriptor, so it is free once the run is over. */
  function Goto(s: Sys, p: Pid, pc: Pc): Sys {
    s.(pcs := s.pcs[p := pc], lock := if s.lock == Some(p) && !HoldsLock(pc) then None else s.lock)
  }

  function AfterSync(rs: seq<Record>, kind: Kind): Pc {
    match kind
    case AttemptStarted => Started(rs)
    case Delivered => Done(Outcome.Delivered)
    case FailedBeforeWrite => Done(Outcome.FailedBeforeWrite)
    case Uncertain => Done(Outcome.Uncertain)
  }

  // One function per step: the state it leads to, or None when it is not possible from here.

  /** The one-use capability comes first: a second use raises, and so does a refused first use. */
  function Consumed(jobs: map<Pid, Job>, s: Sys, p: Pid, accepted: bool): Option<Sys>
    requires p in jobs && p in s.pcs
  {
    if !s.pcs[p].Fresh? then None
    else if jobs[p].capability in s.used then Some(Goto(s, p, Raised))
    else Some(Goto(s.(used := s.used + {jobs[p].capability}), p, if accepted then Armed else Raised))
  }

  function Created(s: Sys, p: Pid): Option<Sys>
    requires p in s.pcs
  {
    if s.pcs[p].Armed? && s.disk.Absent? then Some(Goto(s.(disk := File([], 0, false)), p, Opened(true))) else None
  }

  function OpenedExisting(s: Sys, p: Pid): Option<Sys>
    requires p in s.pcs
  {
    if s.pcs[p].Armed? && s.disk.File? then Some(Goto(s, p, Opened(false))) else None
  }

  /** The lock is exclusive and never waited for. */
  function LockTaken(s: Sys, p: Pid): Option<Sys>
    requires p in s.pcs
  {
    if !s.pcs[p].Opened? then None
    else if s.lock.Some? then Some(Goto(s, p, Raised))
    else Some(Goto(s.(lock := Some(p)), p, Locked(s.pcs[p].created)))
  }

  /** Only the creator may adopt an empty file, and it first makes the directory entry durable. */
  function Examined(s: Sys, p: Pid): Option<Sys>
    requires p in s.pcs
  {
    if !s.pcs[p].Locked? then None
    else if s.disk.Absent? || (!s.pcs[p].created && s.disk.bytes == []) then Some(Goto(s, p, Raised))
    else if s.pcs[p].created then Some(Goto(s.(disk := s.disk.(linked := true)), p, Inspected(true)))
    else Some(Goto(s, p, Inspected(false)))
  }

  function Validated(c: Codec, s: Sys, p: Pid): Option<Sys>
    requires p in s.pcs
  {
    if !s.pcs[p].Inspected? then None
    else if s.disk.Absent? || |s.disk.bytes| > MAX_JOURNAL_BYTES then Some(Goto(s, p, Raised))
    else
      match Validate(c, s.disk.bytes)
      case Err(_) => Some(Goto(s, p, Raised))
      case Ok(rs) => Some(Goto(s, p, Holding(rs)))
  }

  function Checked(jobs: map<Pid, Job>, s: Sys, p: Pid): Option<Sys>
    requires p in jobs && p in s.pcs
  {
    if !s.pcs[p].Holding? then None
    else
      var prior := TerminalFor(s.pcs[p].records, jobs[p].Pair());
      if prior == Some(Outcome.Delivered) || prior == Some(Outcome.Uncertain) then Some(Goto(s, p, Raised))
      else Some(Goto(s, p, Preparing(s.pcs[p].records)))
  }

  function Prepared(s: Sys, p: Pid, ok: bool): Option<Sys>
    requires p in s.pcs
  {
    if !s.pcs[p].Preparing? then None
    else Some(Goto(s, p, Appending(s.pcs[p].records, if ok then Kind.AttemptStarted else Kind.FailedBeforeWrite)))
  }

  function LineWritten(c: Codec, jobs: map<Pid, Job>, s: Sys, p: Pid): Option<Sys>
    requires p in jobs && p in s.pcs
  {
    if !s.pcs[p].Appending? || s.disk.Absent? then None
    else
      var Appending(rs, kind) := s.pcs[p];
      var bytes := s.disk.bytes + Line(c, NewRecord(c, jobs[p], rs, kind));
      Some(Goto(s.(disk := s.disk.(bytes := bytes)), p, Written(rs, kind)))
  }

  /** A crash or a short write inside the line: only its first n bytes reach the file. */
  function LineTorn(c: Codec, jobs: map<Pid, Job>, s: Sys, p: Pid, n: nat): Option<Sys>
    requires p in jobs && p in s.pcs
  {
    if !s.pcs[p].Appending? || s.disk.Absent? then None
    else
      var Appending(rs, kind) := s.pcs[p];
      var line := Line(c, NewRecord(c, jobs[p], rs, kind));
      if n >= |line| then None
      else Some(Goto(s.(disk := s.disk.(bytes := s.disk.bytes + line[..n])), p, Raised))
  }

  function Synced(c: Codec, jobs: map<Pid, Job>, s: Sys, p: Pid): Option<Sys>
    requires p in jobs && p in s.pcs
  {
    if !s.pcs[p].Written? || s.disk.Absent? then None
    else
      var Written(rs, kind) := s.pcs[p];
      var disk := s.disk.(durable := |s.disk.bytes|);
      Some(Goto(s.(disk := disk), p, AfterSync(rs + [NewRecord(c, jobs[p], rs, kind)], kind)))
  }

  function TurnWritten(s: Sys, p: Pid): Option<Sys>
    requires p in s.pcs
  {
    if !s.pcs[p].Started? then None else Some(Goto(s.(sent := s.sent + [p]), p, TurnSent(s.pcs[p].records)))
  }

  /** The wait ends; from Started the request could not even be written, so it cannot have completed. */
  function Waited(jobs: map<Pid, Job>, s: Sys, p: Pid, completed: bool): Option<Sys>
    requires p in jobs && p in s.pcs
  {
    if !(s.pcs[p].TurnSent? || (s.pcs[p].Started? && !completed)) then None
    else
      var rs := s.pcs[p].records;
      Some(Goto(s, p, if !completed then Appending(rs, Kind.Uncertain)
                      else if jobs[p].deferred then TurnDone(rs) else Appending(rs, Kind.Delivered)))
  }

  function Cleaned(s: Sys, p: Pid, issue: bool): Option<Sys>
    requires p in s.pcs
  {
    if !s.pcs[p].TurnDone? then None
    else Some(Goto(s, p, Appending(s.pcs[p].records, if issue then Kind.Uncertain else Kind.Delivered)))
  }

  function Aborted(s: Sys, p: Pid): Option<Sys>
    requires p in s.pcs
  {
    if s.pcs[p].Done? then None else Some(Goto(s, p, Raised))
  }

  /** All runs die; the file keeps its durable bytes and some prefix of the rest. One whose directory entry
      was not yet durable may be gone, or still be `found`. */
  function PoweredOff(s: Sys, keep: nat, found: bool): Option<Sys> {
    if s.disk.File? && !(s.disk.durable <= keep <= |s.disk.bytes|) then None
    else
      var disk := if s.disk.File? && (s.disk.linked || found) then File(s.disk.bytes[..keep], keep, true) else Absent;
      Some(s.(disk := disk, lock := None, pcs := Survivors(s.pcs)))
  }

  function Exec(c: Codec, jobs: map<Pid, Job>, s: Sys, step: Step): Option<Sys>
    requires s.pcs.Keys == jobs.Keys
    ensures Exec(c, jobs, s, step).Some? ==> Exec(c, jobs, s, step).value.pcs.Keys == jobs.Keys
  {
    if step.PowerLoss? then PoweredOff(s, step.keep, step.found)
    else if step.p !in jobs then None
    else
      match step
      case Consume(p, accepted) => Consumed(jobs, s, p, accepted)
      case Create(p) => Created(s, p)
      case Open(p) => OpenedExisting(s, p)
      case TakeLock(p) => LockTaken(s, p)
      case Inspect(p) => Examined(s, p)
      case Read(p) => Validated(c, s, p)
      case CheckPrior(p) => Checked(jobs, s, p)
      case Prepare(p, ok) => Prepared(s, p, ok)
      case Write(p) => LineWritten(c, jobs, s, p)
      case WritePart(p, n) => LineTorn(c, jobs, s, p, n)
      case Sync(p) => Synced(c, jobs, s, p)
      case SendTurn(p) => TurnWritten(s, p)
      case Wait(p, completed) => Waited(jobs, s, p, completed)
      case Cleanup(p, issue) => Cleaned(s, p, issue)
      case Abort(p) => Aborted(s, p)
  }

  predicate Initial(jobs: map<Pid, Job>, s: Sys) {
    && s.pcs.Keys == jobs.Keys
    && (forall p :: p in s.pcs ==> s.pcs[p] == Fresh)
    && s.disk == Absent && s.lock == None && s.sent == [] && s.used == {}
  }

  /** The state after a schedule, or None when some step of it was not possible. */
  function Run(c: Codec, jobs: map<Pid, Job>, s: Sys, steps: seq<Step>): Option<Sys>
    requires s.pcs.Keys == jobs.Keys
    ensures Run(c, jobs, s, steps).Some? ==> Run(c, jobs, s, steps).value.pcs.Keys == jobs.Keys
  {
    if steps == [] then Some(s)
    else
      match Run(c, jobs, s, steps[..|steps| - 1])
      case None => None
      case Some(t) => Exec(c, jobs, t, steps[|steps| - 1])
  }

  // ---- the invariant ----

  /** What is on disk: whole linked records, then possibly a torn tail. */
  ghost predicate FileShape(c: Codec, disk: Disk, log: seq<Record>, tail: seq<byte>) {
    && Linked(c.hash, ZERO, log)
    && NoBreak(tail)
    && match disk
       case Absent => log == [] && tail == []
       case File(bytes, durable, linked) =>
         bytes == Bytes(c, log) + tail && durable <= |bytes| && (bytes != [] ==> linked)
  }

  /** A record with this content lies wholly inside the durable part of the file. */
  ghost predicate Durable(c: Codec, disk: Disk, log: seq<Record>, content: Content) {
    disk.File? && exists i :: 0 <= i < |log| && log[i].content == content && |Bytes(c, log[..i + 1])| <= disk.durable
  }

  ghost predicate Lifecycles(log: seq<Record>) {
    forall pair :: Lifecycle(Project(log, pair))
  }

  ghost predicate LockHeld(lock: Option<Pid>, pcs: map<Pid, Pc>) {
    && (forall p :: p in pcs && HoldsLock(pcs[p]) ==> lock == Some(p))
    && (lock.Some? ==> lock.value in pcs && HoldsLock(pcs[lock.value]))
  }

  ghost predicate Creators(disk: Disk, pcs: map<Pid, Pc>) {
    && (forall p :: p in pcs && (pcs[p].Opened? || HoldsLock(pcs[p])) ==> disk.File?)
    && (forall p :: p in pcs && pcs[p] == Inspected(false) ==> disk.bytes != [])
    && (forall p :: p in pcs && (pcs[p] == Inspected(true) || HasRecords(pcs[p])) ==> disk.linked)
    && (forall p, q :: p in pcs && q in pcs && Creator(pcs[p]) && Creator(pcs[q]) ==> p == q)
    && (forall p, q :: p in pcs && q in pcs && Creator(pcs[p]) ==> disk.bytes == [] && !HasRecords(pcs[q]))
  }

  /** What holds of one run, given the log. */
  ghost predicate PcOk(c: Codec, job: Job, disk: Disk, log: seq<Record>, tail: seq<byte>, pc: Pc) {
    match pc
    case Holding(rs) => rs == log && tail == []
    case Preparing(rs) => rs == log && tail == [] && AllFailed(Project(log, job.Pair()))
    case Appending(rs, kind) => rs == log && tail == [] && MayAppend(Project(log, job.Pair()), kind)
    case Written(rs, kind) =>
      log == rs + [NewRecord(c, job, rs, kind)] && tail == [] && MayAppend(Project(rs, job.Pair()), kind)
    case Started(rs) => AttemptOpen(c, job, disk, log, tail, rs)
    case TurnSent(rs) => AttemptOpen(c, job, disk, log, tail, rs)
    case TurnDone(rs) => AttemptOpen(c, job, disk, log, tail, rs)
    case Done(outcome) => Durable(c, disk, log, job.Says(KindOf(outcome)))
    case _ => true
  }

  ghost predicate AllPcsOk(c: Codec, jobs: map<Pid, Job>, disk: Disk, log: seq<Record>, tail: seq<byte>,
                           pcs: map<Pid, Pc>)
    requires pcs.Keys == jobs.Keys
  {
    forall p :: p in jobs ==> PcOk(c, jobs[p], disk, log, tail, pcs[p])
  }

  predicate MayAppend(ks: seq<Kind>, kind: Kind) {
    if kind.AttemptStarted? || kind.FailedBeforeWrite? then AllFailed(ks) else OpenAttempt(ks)
  }

  ghost predicate AttemptOpen(c: Codec, job: Job, disk: Disk, log: seq<Record>, tail: seq<byte>, rs: seq<Record>) {
    && rs == log && tail == []
    && OpenAttempt(Project(log, job.Pair()))
    && Durable(c, disk, log, job.Says(Kind.AttemptStarted))
  }

  predicate MayHaveSent(pc: Pc) {
    match pc
    case TurnSent(_) => true
    case TurnDone(_) => true
    case Appending(_, kind) => kind.Delivered? || kind.Uncertain?
    case Written(_, kind) => kind.Delivered? || kind.Uncertain?
    case Done(outcome) => !outcome.FailedBeforeWrite?
    case Raised => true
    case _ => false
  }

  predicate MustHaveSent(pc: Pc) {
    match pc
    case TurnSent(_) => true
    case TurnDone(_) => true
    case Appending(_, kind) => kind.Delivered?
    case Written(_, kind) => kind.Delivered?
    case Done(outcome) => outcome.Delivered?
    case _ => false
  }

  /** About to send: the pair's start is on disk and nobody has sent for the pair. */
  predicate AboutToSend(pc: Pc) {
    pc.Started? || (pc.Written? && pc.kind.AttemptStarted?)
  }

  ghost predicate SentOk(c: Codec, jobs: map<Pid, Job>, disk: Disk, log: seq<Record>, pcs: map<Pid, Pc>, sent: seq<Pid>)
    requires pcs.Keys == jobs.Keys
  {
    && SentDurable(c, jobs, disk, log, sent)
    && SentPcs(jobs, pcs, sent)
    && (forall i, j :: 0 <= i < j < |sent| ==> jobs[sent[i]].Pair() != jobs[sent[j]].Pair())
  }

  ghost predicate SentDurable(c: Codec, jobs: map<Pid, Job>, disk: Disk, log: seq<Record>, sent: seq<Pid>) {
    forall q :: q in sent ==> q in jobs && Durable(c, disk, log, jobs[q].Says(Kind.AttemptStarted))
  }

  ghost predicate SentPcs(jobs: map<Pid, Job>, pcs: map<Pid, Pc>, sent: seq<Pid>)
    requires pcs.Keys == jobs.Keys
  {
    && (forall q :: q in sent ==> q in jobs && MayHaveSent(pcs[q]))
    && (forall p :: p in jobs && MustHaveSent(pcs[p]) ==> p in sent)
    && (forall p, q :: p in jobs && AboutToSend(pcs[p]) && q in sent ==> jobs[q].Pair() != jobs[p].Pair())
  }

  /** Got past the one-use capability: live and beyond it, finished, or known to have sent. */
  predicate Past(pcs: map<Pid, Pc>, sent: seq<Pid>, p: Pid) {
    p in pcs && ((pcs[p] != Fresh && pcs[p] != Raised) || p in sent)
  }

  ghost predicate Capabilities(jobs: map<Pid, Job>, pcs: map<Pid, Pc>, sent: seq<Pid>, used: set<nat>)
    requires pcs.Keys == jobs.Keys
  {
    && (forall p :: p in jobs && Past(pcs, sent, p) ==> jobs[p].capability in used)
    && (forall p, q :: p in jobs && q in jobs && Past(pcs, sent, p) && Past(pcs, sent, q) && p != q ==>
          jobs[p].capability != jobs[q].capability)
  }

  ghost predicate Inv(c: Codec, jobs: map<Pid, Job>, s: Sys, log: seq<Record>, tail: seq<byte>) {
    && s.pcs.Keys == jobs.Keys
    && FileShape(c, s.disk, log, tail)
    && Lifecycles(log)
    && LockHeld(s.lock, s.pcs)
    && Creators(s.disk, s.pcs)
    && AllPcsOk(c, jobs, s.disk, log, tail, s.pcs)
    && SentOk(c, jobs, s.disk, log, s.pcs, s.sent)
    && Capabilities(jobs, s.pcs, s.sent, s.used)
  }

  // ---- moving one run: each part of the invariant on its own ----

  lemma MovePcs(c: Codec, jobs: map<Pid, Job>, disk: Disk, log: seq<Record>, tail: seq<byte>, pcs: map<Pid, Pc>, p: Pid,
                pc: Pc)
    requires pcs.Keys == jobs.Keys && p in jobs
    requires forall q :: q in jobs && q != p ==> PcOk(c, jobs[q], disk, log, tail, pcs[q])
    requires PcOk(c, jobs[p], disk, log, tail, pc)
    ensures pcs[p := pc].Keys == jobs.Keys
    ensures AllPcsOk(c, jobs, disk, log, tail, pcs[p := pc])
  {
    var after := pcs[p := pc];
    forall q | q in jobs ensures PcOk(c, jobs[q], disk, log, tail, after[q]) {
      if q != p {
        assert after[q] == pcs[q];
      }
    }
  }

  lemma MoveLock(s: Sys, p: Pid, pc: Pc)
    requires LockHeld(s.lock, s.pcs) && p in s.pcs && (HoldsLock(pc) ==> s.lock == Some(p))
    ensures LockHeld(Goto(s, p, pc).lock, Goto(s, p, pc).pcs)
  {
  }

  lemma MoveCreators(disk: Disk, pcs: map<Pid, Pc>, p: Pid, pc: Pc)
    requires Creators(disk, pcs) && p in pcs
    requires Creator(pc) ==> Creator(pcs[p])
    requires pc.Opened? || HoldsLock(pc) ==> disk.File?
    requires pc == Inspected(false) ==> disk.bytes != []
    requires pc == Inspected(true) || HasRecords(pc) ==> disk.linked
    requires HasRecords(pc) ==> HasRecords(pcs[p]) || forall q :: q in pcs && q != p ==> !Creator(pcs[q])
    requires HasRecords(pc) ==> !Creator(pc)
    ensures Creators(disk, pcs[p := pc])
  {
  }

  lemma MoveSent(jobs: map<Pid, Job>, pcs: map<Pid, Pc>, sent: seq<Pid>, p: Pid, pc: Pc)
    requires pcs.Keys == jobs.Keys && p in jobs && SentPcs(jobs, pcs, sent)
    requires p in sent ==> MayHaveSent(pc)
    requires MustHaveSent(pc) ==> p in sent
    requires AboutToSend(pc) ==> forall q :: q in sent ==> jobs[q].Pair() != jobs[p].Pair()
    ensures pcs[p := pc].Keys == jobs.Keys && SentPcs(jobs, pcs[p := pc], sent)
  {
  }

  lemma MoveCapabilities(jobs: map<Pid, Job>, pcs: map<Pid, Pc>, sent: seq<Pid>, used: set<nat>, p: Pid, pc: Pc)
    requires pcs.Keys == jobs.Keys && p in jobs && Capabilities(jobs, pcs, sent, used)
    requires pc != Fresh && pc != Raised ==> Past(pcs, sent, p)
    ensures pcs[p := pc].Keys == jobs.Keys && Capabilities(jobs, pcs[p := pc], sent, used)
  {
    var after := pcs[p := pc];
    assert after.Keys == jobs.Keys;
    assert forall q :: q in jobs && Past(after, sent, q) ==> Past(pcs, sent, q);
  }

  /** A move that touches nothing but the run itself (and gives the lock up when the run ends). */
  lemma MoveKeeps(c: Codec, jobs: map<Pid, Job>, s: Sys, p: Pid, pc: Pc, log: seq<Record>, tail: seq<byte>)
    requires Inv(c, jobs, s, log, tail) && p in jobs
    requires PcOk(c, jobs[p], s.disk, log, tail, pc)
    requires HoldsLock(pc) ==> s.lock == Some(p)
    requires Creator(pc) ==> Creator(s.pcs[p])
    requires pc.Opened? || HoldsLock(pc) ==> s.disk.File?
    requires pc == Inspected(false) ==> s.disk.bytes != []
    requires pc == Inspected(true) || HasRecords(pc) ==> s.disk.linked
    requires HasRecords(pc) ==> HasRecords(s.pcs[p]) || forall q :: q in s.pcs && q != p ==> !Creator(s.pcs[q])
    requires p in s.sent ==> MayHaveSent(pc)
    requires MustHaveSent(pc) ==> p in s.sent
    requires !AboutToSend(pc)
    requires pc != Fresh && pc != Raised ==> Past(s.pcs, s.sent, p)
    ensures Inv(c, jobs, Goto(s, p, pc), log, tail)
  {
    MovePcs(c, jobs, s.disk, log, tail, s.pcs, p, pc);
    MoveLock(s, p, pc);
    MoveCreators(s.disk, s.pcs, p, pc);
    MoveSent(jobs, s.pcs, s.sent, p, pc);
    MoveCapabilities(jobs, s.pcs, s.sent, s.used, p, pc);
  }

  // ---- every step keeps the invariant ----

  lemma ConsumeCapability(jobs: map<Pid, Job>, pcs: map<Pid, Pc>, sent: seq<Pid>, used: set<nat>, p: Pid, pc: Pc)
    requires pcs.Keys == jobs.Keys && p in jobs && Capabilities(jobs, pcs, sent, used)
    requires jobs[p].capability !in used
    ensures pcs[p := pc].Keys == jobs.Keys
    ensures Capabilities(jobs, pcs[p := pc], sent, used + {jobs[p].capability})
  {
    var after := pcs[p := pc];
    assert after.Keys == jobs.Keys;
    assert forall q :: q in jobs && q != p && Past(after, sent, q) ==> Past(pcs, sent, q);
  }

  lemma StepConsume(c: Codec, jobs: map<Pid, Job>, s: Sys, p: Pid, accepted: bool, log: seq<Record>, tail: seq<byte>)
    requires Inv(c, jobs, s, log, tail) && p in jobs
    requires Consumed(jobs, s, p, accepted).Some?
    ensures Inv(c, jobs, Consumed(jobs, s, p, accepted).value, log, tail)
  {
    assert p !in s.sent;
    if jobs[p].capability in s.used {
      MoveKeeps(c, jobs, s, p, Raised, log, tail);
    } else {
      ConsumeNew(c, jobs, s, p, if accepted then Armed else Raised, log, tail);
    }
  }

  lemma ConsumeNew(c: Codec, jobs: map<Pid, Job>, s: Sys, p: Pid, pc: Pc, log: seq<Record>, tail: seq<byte>)
    requires Inv(c, jobs, s, log, tail) && p in jobs && s.pcs[p].Fresh? && p !in s.sent
    requires jobs[p].capability !in s.used && (pc.Armed? || pc.Raised?)
    ensures Inv(c, jobs, Goto(s.(used := s.used + {jobs[p].capability}), p, pc), log, tail)
  {
    MovePcs(c, jobs, s.disk, log, tail, s.pcs, p, pc);
    MoveLock(s, p, pc);
    MoveCreators(s.disk, s.pcs, p, pc);
    MoveSent(jobs, s.pcs, s.sent, p, pc);
    ConsumeCapability(jobs, s.pcs, s.sent, s.used, p, pc);
  }

  lemma LockAcquired(pcs: map<Pid, Pc>, p: Pid, pc: Pc)
    requires LockHeld(None, pcs) && p in pcs && HoldsLock(pc)
    ensures LockHeld(Some(p), pcs[p := pc])
  {
  }

  lemma StepTakeLock(c: Codec, jobs: map<Pid, Job>, s: Sys, p: Pid, log: seq<Record>, tail: seq<byte>)
    requires Inv(c, jobs, s, log, tail) && p in jobs
    requires LockTaken(s, p).Some?
    ensures Inv(c, jobs, LockTaken(s, p).value, log, tail)
  {
    if s.lock.None? {
      var pc := Locked(s.pcs[p].created);
      MovePcs(c, jobs, s.disk, log, tail, s.pcs, p, pc);
      LockAcquired(s.pcs, p, pc);
      MoveCreators(s.disk, s.pcs, p, pc);
      MoveSent(jobs, s.pcs, s.sent, p, pc);
      MoveCapabilities(jobs, s.pcs, s.sent, s.used, p, pc);
    } else {
      MoveKeeps(c, jobs, s, p, Raised, log, tail);
    }
  }

  lemma StepOpen(c: Codec, jobs: map<Pid, Job>, s: Sys, p: Pid, log: seq<Record>, tail: seq<byte>)
    requires Inv(c, jobs, s, log, tail) && p in jobs
    requires OpenedExisting(s, p).Some?
    ensures Inv(c, jobs, OpenedExisting(s, p).value, log, tail)
  {
    MoveKeeps(c, jobs, s, p, Opened(false), log, tail);
  }

  lemma StepRead(c: Codec, jobs: map<Pid, Job>, s: Sys, p: Pid, log: seq<Record>, tail: seq<byte>)
    requires Lawful(c) && Inv(c, jobs, s, log, tail) && p in jobs
    requires Validated(c, s, p).Some?
    ensures Inv(c, jobs, Validated(c, s, p).value, log, tail)
  {
    if tail == [] {
      RoundTrip(c, log);
      assert s.disk.bytes == Bytes(c, log);
      MoveKeeps(c, jobs, s, p, if |s.disk.bytes| > MAX_JOURNAL_BYTES then Raised else Holding(log), log, tail);
    } else {
      TornTailRefused(c, log, tail);
      MoveKeeps(c, jobs, s, p, Raised, log, tail);
    }
  }

  lemma StepCheckPrior(c: Codec, jobs: map<Pid, Job>, s: Sys, p: Pid, log: seq<Record>, tail: seq<byte>)
    requires Inv(c, jobs, s, log, tail) && p in jobs
    requires Checked(jobs, s, p).Some?
    ensures Inv(c, jobs, Checked(jobs, s, p).value, log, tail)
  {
    var pc := CheckedMove(jobs, s, p, log);
    MoveKeeps(c, jobs, s, p, pc, log, tail);
  }

  /** A run goes on exactly over a history of failed attempts. */
  lemma CheckedMove(jobs: map<Pid, Job>, s: Sys, p: Pid, log: seq<Record>) returns (pc: Pc)
    requires p in jobs && p in s.pcs && s.pcs[p].Holding? && s.pcs[p].records == log && Lifecycles(log)
    ensures Checked(jobs, s, p) == Some(Goto(s, p, pc))
    ensures pc == if AllFailed(Project(log, jobs[p].Pair())) then Preparing(log) else Raised
  {
    var ks := Project(log, jobs[p].Pair());
    RetryableIffAllFailed(ks);
    pc := if AllFailed(ks) then Preparing(log) else Raised;
  }

  lemma StepPrepare(c: Codec, jobs: map<Pid, Job>, s: Sys, p: Pid, ok: bool, log: seq<Record>, tail: seq<byte>)
    requires Inv(c, jobs, s, log, tail) && p in jobs
    requires Prepared(s, p, ok).Some?
    ensures Inv(c, jobs, Prepared(s, p, ok).value, log, tail)
  {
    MoveKeeps(c, jobs, s, p, Prepared(s, p, ok).value.pcs[p], log, tail);
  }

  lemma StepWait(c: Codec, jobs: map<Pid, Job>, s: Sys, p: Pid, completed: bool, log: seq<Record>, tail: seq<byte>)
    requires Inv(c, jobs, s, log, tail) && p in jobs
    requires Waited(jobs, s, p, completed).Some?
    ensures Inv(c, jobs, Waited(jobs, s, p, completed).value, log, tail)
  {
    MoveKeeps(c, jobs, s, p, Waited(jobs, s, p, completed).value.pcs[p], log, tail);
  }

  lemma StepCleanup(c: Codec, jobs: map<Pid, Job>, s: Sys, p: Pid, issue: bool, log: seq<Record>, tail: seq<byte>)
    requires Inv(c, jobs, s, log, tail) && p in jobs
    requires Cleaned(s, p, issue).Some?
    ensures Inv(c, jobs, Cleaned(s, p, issue).value, log, tail)
  {
    MoveKeeps(c, jobs, s, p, Cleaned(s, p, issue).value.pcs[p], log, tail);
  }

  lemma StepAbort(c: Codec, jobs: map<Pid, Job>, s: Sys, p: Pid, log: seq<Record>, tail: seq<byte>)
    requires Inv(c, jobs, s, log, tail) && p in jobs
    requires Aborted(s, p).Some?
    ensures Inv(c, jobs, Aborted(s, p).value, log, tail)
  {
    MoveKeeps(c, jobs, s, p, Raised, log, tail);
  }

  lemma StepSendTurn(c: Codec, jobs: map<Pid, Job>, s: Sys, p: Pid, log: seq<Record>, tail: seq<byte>)
    requires Inv(c, jobs, s, log, tail) && p in jobs
    requires TurnWritten(s, p).Some?
    ensures Inv(c, jobs, TurnWritten(s, p).value, log, tail)
  {
    var pc := TurnSent(s.pcs[p].records);
    MovePcs(c, jobs, s.disk, log, tail, s.pcs, p, pc);
    MoveLock(s, p, pc);
    MoveCreators(s.disk, s.pcs, p, pc);
    SendPcs(jobs, s.pcs, s.sent, p, pc);
    SendSent(c, jobs, s.disk, log, s.pcs, s.sent, p);
    SendCapabilities(jobs, s.pcs, s.sent, s.used, p, pc);
  }

  lemma SendPcs(jobs: map<Pid, Job>, pcs: map<Pid, Pc>, sent: seq<Pid>, p: Pid, pc: Pc)
    requires pcs.Keys == jobs.Keys && p in jobs && SentPcs(jobs, pcs, sent)
    requires pcs[p].Started? && pc.TurnSent?
    requires forall q :: q in jobs && q != p ==> !AboutToSend(pcs[q])
    ensures pcs[p := pc].Keys == jobs.Keys && SentPcs(jobs, pcs[p := pc], sent + [p])
  {
  }

  lemma SendSent(c: Codec, jobs: map<Pid, Job>, disk: Disk, log: seq<Record>, pcs: map<Pid, Pc>, sent: seq<Pid>, p: Pid)
    requires pcs.Keys == jobs.Keys && p in jobs && SentOk(c, jobs, disk, log, pcs, sent)
    requires pcs[p].Started? && Durable(c, disk, log, jobs[p].Says(Kind.AttemptStarted))
    ensures SentDurable(c, jobs, disk, log, sent + [p])
    ensures var after := sent + [p];
            forall i, j :: 0 <= i < j < |after| ==> jobs[after[i]].Pair() != jobs[after[j]].Pair()
  {
    var after := sent + [p];
    forall i, j | 0 <= i < j < |after| ensures jobs[after[i]].Pair() != jobs[after[j]].Pair() {
      assert after[i] == sent[i] && (j < |sent| ==> after[j] == sent[j]);
      assert sent[i] in sent;
    }
  }

  lemma SendCapabilities(jobs: map<Pid, Job>, pcs: map<Pid, Pc>, sent: seq<Pid>, used: set<nat>, p: Pid, pc: Pc)
    requires pcs.Keys == jobs.Keys && p in jobs && Capabilities(jobs, pcs, sent, used)
    requires pcs[p].Started?
    ensures pcs[p := pc].Keys == jobs.Keys && Capabilities(jobs, pcs[p := pc], sent + [p], used)
  {
    var after := pcs[p := pc];
    assert after.Keys == jobs.Keys;
    assert forall q :: q in jobs && Past(after, sent + [p], q) ==> Past(pcs, sent, q);
  }

  lemma CreatePcs(c: Codec, jobs: map<Pid, Job>, pcs: map<Pid, Pc>, log: seq<Record>, tail: seq<byte>, disk: Disk)
    requires pcs.Keys == jobs.Keys && Creators(Absent, pcs)
    requires AllPcsOk(c, jobs, Absent, log, tail, pcs)
    ensures AllPcsOk(c, jobs, disk, log, tail, pcs)
  {
    forall q | q in jobs ensures PcOk(c, jobs[q], disk, log, tail, pcs[q]) {
      assert PcOk(c, jobs[q], Absent, log, tail, pcs[q]);
      assert !pcs[q].Opened? && !HoldsLock(pcs[q]);
    }
  }

  lemma CreateCreators(pcs: map<Pid, Pc>, p: Pid)
    requires p in pcs && Creators(Absent, pcs)
    ensures Creators(File([], 0, false), pcs[p := Opened(true)])
  {
  }

  lemma NobodySent(c: Codec, jobs: map<Pid, Job>, log: seq<Record>, sent: seq<Pid>)
    requires SentDurable(c, jobs, Absent, log, sent)
    ensures forall q :: q !in sent
  {
  }

  lemma StepCreate(c: Codec, jobs: map<Pid, Job>, s: Sys, p: Pid, log: seq<Record>, tail: seq<byte>)
    requires Inv(c, jobs, s, log, tail) && p in jobs
    requires Created(s, p).Some?
    ensures Inv(c, jobs, Created(s, p).value, log, tail)
  {
    var disk := File([], 0, false);
    NobodySent(c, jobs, log, s.sent);
    CreatePcs(c, jobs, s.pcs, log, tail, disk);
    MovePcs(c, jobs, disk, log, tail, s.pcs, p, Opened(true));
    MoveLock(s, p, Opened(true));
    CreateCreators(s.pcs, p);
    MoveSent(jobs, s.pcs, s.sent, p, Opened(true));
    MoveCapabilities(jobs, s.pcs, s.sent, s.used, p, Opened(true));
  }

  // ---- the lock holder changes the file ----

  /** Facts about durable content only grow with the file and its durable length. */
  lemma DurableGrows(c: Codec, disk: Disk, log: seq<Record>, disk': Disk, log': seq<Record>, content: Content)
    requires Durable(c, disk, log, content)
    requires log <= log' && disk'.File? && disk.durable <= disk'.durable
    ensures Durable(c, disk', log', content)
  {
    var i :| 0 <= i < |log| && log[i].content == content && |Bytes(c, log[..i + 1])| <= disk.durable;
    assert log'[..i + 1] == log[..i + 1];
  }

  lemma SentGrows(c: Codec, jobs: map<Pid, Job>, disk: Disk, log: seq<Record>, disk': Disk, log': seq<Record>,
                  sent: seq<Pid>)
    requires SentDurable(c, jobs, disk, log, sent)
    requires log <= log' && disk.File? && disk'.File? && disk.durable <= disk'.durable
    ensures SentDurable(c, jobs, disk', log', sent)
  {
    forall q | q in sent ensures Durable(c, disk', log', jobs[q].Says(Kind.AttemptStarted)) {
      DurableGrows(c, disk, log, disk', log', jobs[q].Says(Kind.AttemptStarted));
    }
  }

  /** Nobody but the lock holder has a copy of the records, so nobody else notices the change. */
  lemma OthersKeep(c: Codec, jobs: map<Pid, Job>, disk: Disk, pcs: map<Pid, Pc>, p: Pid, log: seq<Record>,
                   tail: seq<byte>, disk': Disk, log': seq<Record>, tail': seq<byte>)
    requires pcs.Keys == jobs.Keys && LockHeld(Some(p), pcs)
    requires AllPcsOk(c, jobs, disk, log, tail, pcs)
    requires disk.File? && log <= log' && disk'.File? && disk.durable <= disk'.durable
    ensures forall q :: q in jobs && q != p ==> PcOk(c, jobs[q], disk', log', tail', pcs[q])
  {
    forall q | q in jobs && q != p ensures PcOk(c, jobs[q], disk', log', tail', pcs[q]) {
      assert PcOk(c, jobs[q], disk, log, tail, pcs[q]) && !HoldsLock(pcs[q]);
      if pcs[q].Done? {
        DurableGrows(c, disk, log, disk', log', jobs[q].Says(KindOf(pcs[q].outcome)));
      }
    }
  }

  lemma StepInspect(c: Codec, jobs: map<Pid, Job>, s: Sys, p: Pid, log: seq<Record>, tail: seq<byte>)
    requires Inv(c, jobs, s, log, tail) && p in jobs
    requires Examined(s, p).Some?
    ensures Inv(c, jobs, Examined(s, p).value, log, tail)
  {
    if s.pcs[p].created {
      StepAdopt(c, jobs, s, p, log, tail);
    } else {
      MoveKeeps(c, jobs, s, p, if s.disk.bytes == [] then Raised else Inspected(false), log, tail);
    }
  }

  lemma AdoptCreators(disk: Disk, pcs: map<Pid, Pc>, p: Pid)
    requires Creators(disk, pcs) && p in pcs && disk.File? && pcs[p] == Locked(true)
    ensures Creators(disk.(linked := true), pcs[p := Inspected(true)])
  {
  }

  lemma StepAdopt(c: Codec, jobs: map<Pid, Job>, s: Sys, p: Pid, log: seq<Record>, tail: seq<byte>)
    requires Inv(c, jobs, s, log, tail) && p in jobs
    requires s.pcs[p] == Locked(true)
    ensures Examined(s, p).Some? && Inv(c, jobs, Examined(s, p).value, log, tail)
  {
    var disk := s.disk.(linked := true);
    OthersKeep(c, jobs, s.disk, s.pcs, p, log, tail, disk, log, tail);
    MovePcs(c, jobs, disk, log, tail, s.pcs, p, Inspected(true));
    MoveLock(s, p, Inspected(true));
    AdoptCreators(s.disk, s.pcs, p);
    SentGrows(c, jobs, s.disk, log, disk, log, s.sent);
    MoveSent(jobs, s.pcs, s.sent, p, Inspected(true));
    MoveCapabilities(jobs, s.pcs, s.sent, s.used, p, Inspected(true));
  }

  lemma WriteCreators(disk: Disk, pcs: map<Pid, Pc>, p: Pid, pc: Pc, disk': Disk)
    requires Creators(disk, pcs) && p in pcs && HasRecords(pcs[p])
    requires HasRecords(pc) || pc.Raised? || pc.Done?
    requires disk'.File? && disk'.linked == disk.linked && (disk.bytes != [] ==> disk'.bytes != [])
    ensures Creators(disk', pcs[p := pc])
  {
  }

  /** A record the driver may append keeps every pair inside its life cycle. */
  lemma AppendLifecycles(c: Codec, job: Job, log: seq<Record>, kind: Kind)
    requires Lifecycles(log) && MayAppend(Project(log, job.Pair()), kind)
    ensures Lifecycles(log + [NewRecord(c, job, log, kind)])
  {
    var r := NewRecord(c, job, log, kind);
    forall pair ensures Lifecycle(Project(log + [r], pair)) {
      ProjectSnoc(log, r, pair);
      assert Lifecycle(Project(log, pair));
      if r.content.Pair() == pair {
        var ks := Project(log, pair);
        assert (ks + [kind])[..|ks|] == ks;
      } else {
        assert Project(log, pair) + [] == Project(log, pair);
      }
    }
  }

  /** While everything recorded for a pair failed before writing, nobody has sent for it. */
  lemma UnsentPair(c: Codec, jobs: map<Pid, Job>, disk: Disk, log: seq<Record>, sent: seq<Pid>, pair: (string, string))
    requires SentDurable(c, jobs, disk, log, sent) && AllFailed(Project(log, pair))
    ensures forall q :: q in sent ==> jobs[q].Pair() != pair
  {
    forall q | q in sent ensures jobs[q].Pair() != pair {
      var i :| 0 <= i < |log| && log[i].content == jobs[q].Says(Kind.AttemptStarted);
      ProjectHas(log, i);
    }
  }

  lemma StepWrite(c: Codec, jobs: map<Pid, Job>, s: Sys, p: Pid, log: seq<Record>, tail: seq<byte>)
    requires Inv(c, jobs, s, log, tail) && p in jobs
    requires LineWritten(c, jobs, s, p).Some?
    ensures Inv(c, jobs, LineWritten(c, jobs, s, p).value, log + [NewRecord(c, jobs[p], log, s.pcs[p].kind)], [])
  {
    var kind := s.pcs[p].kind;
    var r := NewRecord(c, jobs[p], log, kind);
    var log' := log + [r];
    var pc := Written(log, kind);
    var disk := s.disk.(bytes := s.disk.bytes + Line(c, r));
    WriteShape(c, s.disk, log, r);
    ExtendsLinked(c.hash, ZERO, log, r);
    AppendLifecycles(c, jobs[p], log, kind);
    OthersKeep(c, jobs, s.disk, s.pcs, p, log, tail, disk, log', []);
    MovePcs(c, jobs, disk, log', [], s.pcs, p, pc);
    MoveLock(s, p, pc);
    WriteCreators(s.disk, s.pcs, p, pc, disk);
    SentGrows(c, jobs, s.disk, log, disk, log', s.sent);
    if kind.AttemptStarted? {
      UnsentPair(c, jobs, s.disk, log, s.sent, jobs[p].Pair());
    }
    MoveSent(jobs, s.pcs, s.sent, p, pc);
    MoveCapabilities(jobs, s.pcs, s.sent, s.used, p, pc);
  }

  lemma WriteShape(c: Codec, disk: Disk, log: seq<Record>, r: Record)
    requires FileShape(c, disk, log, []) && disk.File? && disk.linked
    requires r == Next(c.hash, ZERO, log, r.content)
    ensures FileShape(c, disk.(bytes := disk.bytes + Line(c, r)), log + [r], [])
  {
    BytesSnoc(c, log, r);
    ExtendsLinked(c.hash, ZERO, log, r);
    assert disk.bytes == Bytes(c, log);
    var bytes := disk.bytes + Line(c, r);
    assert bytes == Bytes(c, log + [r]) == Bytes(c, log + [r]) + [];
  }

  lemma StepWritePart(c: Codec, jobs: map<Pid, Job>, s: Sys, p: Pid, n: nat, log: seq<Record>, tail: seq<byte>)
    requires Lawful(c) && Inv(c, jobs, s, log, tail) && p in jobs
    requires LineTorn(c, jobs, s, p, n).Some?
    ensures Inv(c, jobs, LineTorn(c, jobs, s, p, n).value, log, Line(c, NewRecord(c, jobs[p], log, s.pcs[p].kind))[..n])
  {
    var r := NewRecord(c, jobs[p], log, s.pcs[p].kind);
    var torn := Line(c, r)[..n];
    assert torn == c.enc(r)[..n];
    var disk := s.disk.(bytes := s.disk.bytes + torn);
    assert s.disk.bytes == Bytes(c, log);
    assert FileShape(c, disk, log, torn);
    OthersKeep(c, jobs, s.disk, s.pcs, p, log, tail, disk, log, torn);
    MovePcs(c, jobs, disk, log, torn, s.pcs, p, Raised);
    MoveLock(s, p, Raised);
    WriteCreators(s.disk, s.pcs, p, Raised, disk);
    SentGrows(c, jobs, s.disk, log, disk, log, s.sent);
    MoveSent(jobs, s.pcs, s.sent, p, Raised);
    MoveCapabilities(jobs, s.pcs, s.sent, s.used, p, Raised);
  }

  lemma SyncedPc(c: Codec, job: Job, disk: Disk, log: seq<Record>, rs: seq<Record>, kind: Kind)
    requires log == rs + [NewRecord(c, job, rs, kind)] && MayAppend(Project(rs, job.Pair()), kind)
    requires disk.File? && disk.durable == |Bytes(c, log)|
    ensures PcOk(c, job, disk, log, [], AfterSync(log, kind))
  {
    var ks := Project(rs, job.Pair());
    ProjectSnoc(rs, log[|rs|], job.Pair());
    assert (ks + [kind])[..|ks|] == ks;
    assert log[..|rs| + 1] == log && log[|rs|].content == job.Says(kind);
    assert Durable(c, disk, log, job.Says(kind));
  }

  lemma StepSync(c: Codec, jobs: map<Pid, Job>, s: Sys, p: Pid, log: seq<Record>, tail: seq<byte>)
    requires Inv(c, jobs, s, log, tail) && p in jobs
    requires Synced(c, jobs, s, p).Some?
    ensures Inv(c, jobs, Synced(c, jobs, s, p).value, log, tail)
  {
    var Written(rs, kind) := s.pcs[p];
    var disk := s.disk.(durable := |s.disk.bytes|);
    var pc := AfterSync(log, kind);
    assert s.disk.bytes == Bytes(c, log);
    SyncedPc(c, jobs[p], disk, log, rs, kind);
    OthersKeep(c, jobs, s.disk, s.pcs, p, log, tail, disk, log, tail);
    MovePcs(c, jobs, disk, log, tail, s.pcs, p, pc);
    MoveLock(s, p, pc);
    WriteCreators(s.disk, s.pcs, p, pc, disk);
    SentGrows(c, jobs, s.disk, log, disk, log, s.sent);
    MoveSent(jobs, s.pcs, s.sent, p, pc);
    MoveCapabilities(jobs, s.pcs, s.sent, s.used, p, pc);
  }

  // ---- power loss ----

  lemma EmptyImage(c: Codec, log: seq<Record>, tail: seq<byte>)
    requires Bytes(c, log) + tail == []
    ensures log == [] && tail == []
  {
  }

  lemma WholeLine(c: Codec, log: seq<Record>, j: nat, i: nat)
    requires j <= |log| && i < |log|
    ensures j <= i ==> |Bytes(c, log[..i + 1])| >= |Bytes(c, log[..j])| + |Line(c, log[j])|
  {
    if j <= i {
      assert log[..i + 1] == (log[..j] + [log[j]]) + log[j + 1..i + 1];
      BytesConcat(c, log[..j] + [log[j]], log[j + 1..i + 1]);
      BytesSnoc(c, log[..j], log[j]);
    }
  }

  /** Cutting the image at or after its durable length keeps every durable record. */
  lemma CutKeeps(c: Codec, disk: Disk, log: seq<Record>, tail: seq<byte>, keep: nat) returns (j: nat, tail': seq<byte>)
    requires Lawful(c) && FileShape(c, disk, log, tail)
    requires disk.File? && disk.durable <= keep <= |disk.bytes|
    ensures j <= |log| && FileShape(c, File(disk.bytes[..keep], keep, true), log[..j], tail')
    ensures forall content :: Durable(c, disk, log, content)
                              ==> Durable(c, File(disk.bytes[..keep], keep, true), log[..j], content)
  {
    var whole := Bytes(c, log);
    if keep <= |whole| {
      j, tail' := CutShape(c, log, keep);
      assert disk.bytes[..keep] == whole[..keep];
    } else {
      j, tail' := |log|, tail[..keep - |whole|];
      assert log[..j] == log;
    }
    PrefixLinked(c.hash, ZERO, log, j);
    assert disk.bytes[..keep] == Bytes(c, log[..j]) + tail';
    forall content | Durable(c, disk, log, content)
      ensures Durable(c, File(disk.bytes[..keep], keep, true), log[..j], content)
    {
      var i :| 0 <= i < |log| && log[i].content == content && |Bytes(c, log[..i + 1])| <= disk.durable;
      // A record at j or later would have to fit in the torn tail, which is shorter than its line.
      WholeLine(c, log, j, i);
      assert i < j;
      assert log[..j][..i + 1] == log[..i + 1];
    }
  }

  function Survivors(pcs: map<Pid, Pc>): map<Pid, Pc> {
    map p | p in pcs :: if pcs[p].Fresh? || pcs[p].Done? then pcs[p] else Raised
  }

  lemma SurvivorsOk(c: Codec, jobs: map<Pid, Job>, disk: Disk, log: seq<Record>, tail: seq<byte>, pcs: map<Pid, Pc>,
                    disk': Disk, log': seq<Record>, tail': seq<byte>)
    requires pcs.Keys == jobs.Keys && AllPcsOk(c, jobs, disk, log, tail, pcs)
    requires forall content :: Durable(c, disk, log, content) ==> Durable(c, disk', log', content)
    ensures Survivors(pcs).Keys == jobs.Keys && AllPcsOk(c, jobs, disk', log', tail', Survivors(pcs))
  {
    var after := Survivors(pcs);
    assert after.Keys == pcs.Keys;
    forall p | p in jobs ensures PcOk(c, jobs[p], disk', log', tail', after[p]) {
      assert PcOk(c, jobs[p], disk, log, tail, pcs[p]);
    }
  }

  lemma SurvivorsLock(pcs: map<Pid, Pc>, disk: Disk)
    ensures LockHeld(None, Survivors(pcs)) && Creators(disk, Survivors(pcs))
  {
  }

  lemma SurvivorsSent(jobs: map<Pid, Job>, pcs: map<Pid, Pc>, sent: seq<Pid>)
    requires pcs.Keys == jobs.Keys && SentPcs(jobs, pcs, sent)
    ensures Survivors(pcs).Keys == jobs.Keys && SentPcs(jobs, Survivors(pcs), sent)
  {
    assert Survivors(pcs).Keys == pcs.Keys;
  }

  lemma SurvivorsCapabilities(jobs: map<Pid, Job>, pcs: map<Pid, Pc>, sent: seq<Pid>, used: set<nat>)
    requires pcs.Keys == jobs.Keys && Capabilities(jobs, pcs, sent, used)
    ensures Survivors(pcs).Keys == jobs.Keys && Capabilities(jobs, Survivors(pcs), sent, used)
  {
    var after := Survivors(pcs);
    assert after.Keys == pcs.Keys;
    assert forall q :: q in jobs && Past(after, sent, q) ==> Past(pcs, sent, q);
  }

  lemma LifecycleCut(log: seq<Record>, j: nat, pair: (string, string))
    requires Lifecycle(Project(log, pair)) && j <= |log|
    ensures Lifecycle(Project(log[..j], pair))
  {
    var ks := Project(log, pair);
    var n := |Project(log[..j], pair)|;
    ProjectPrefix(log, j, pair);
    LifecyclePrefix(ks, n);
    assert Project(log[..j], pair) == ks[..n];
  }

  lemma LifecyclesCut(log: seq<Record>, j: nat)
    requires Lifecycles(log) && j <= |log|
    ensures Lifecycles(log[..j])
  {
    forall pair ensures Lifecycle(Project(log[..j], pair)) {
      LifecycleCut(log, j, pair);
    }
  }

  lemma StepPowerLoss(c: Codec, jobs: map<Pid, Job>, s: Sys, keep: nat, found: bool, log: seq<Record>, tail: seq<byte>)
    returns (log': seq<Record>, tail': seq<byte>)
    requires Lawful(c) && Inv(c, jobs, s, log, tail)
    requires PoweredOff(s, keep, found).Some?
    ensures Inv(c, jobs, PoweredOff(s, keep, found).value, log', tail')
    ensures forall content :: Durable(c, s.disk, log, content) ==>
              Durable(c, PoweredOff(s, keep, found).value.disk, log', content)
  {
    var disk := PoweredOff(s, keep, found).value.disk;
    if disk.File? {
      var j;
      j, tail' := CutKeeps(c, s.disk, log, tail, keep);
      log' := log[..j];
      LifecyclesCut(log, j);
    } else {
      if s.disk.File? {
        EmptyImage(c, log, tail);
      }
      log', tail' := log, tail;
    }
    SurvivorsOk(c, jobs, s.disk, log, tail, s.pcs, disk, log', tail');
    SurvivorsLock(s.pcs, disk);
    SurvivorsSent(jobs, s.pcs, s.sent);
    SurvivorsCapabilities(jobs, s.pcs, s.sent, s.used);
  }

  // ---- whole runs ----

  /** The log a step leaves behind: only a whole written line extends it. */
  function LogAfter(c: Codec, jobs: map<Pid, Job>, s: Sys, step: Step, log: seq<Record>): seq<Record> {
    if step.Write? && step.p in jobs && step.p in s.pcs && s.pcs[step.p].Appending?
    then log + [NewRecord(c, jobs[step.p], log, s.pcs[step.p].kind)]
    else log
  }

  function TailAfter(c: Codec, jobs: map<Pid, Job>, s: Sys, step: Step, log: seq<Record>, tail: seq<byte>): seq<byte> {
    if step.Write? then []
    else if step.WritePart? && step.p in jobs && step.p in s.pcs && s.pcs[step.p].Appending? then
      var line := Line(c, NewRecord(c, jobs[step.p], log, s.pcs[step.p].kind));
      if step.n < |line| then line[..step.n] else tail
    else tail
  }

  lemma StepDisk(c: Codec, jobs: map<Pid, Job>, s: Sys, step: Step)
    requires s.pcs.Keys == jobs.Keys && !step.PowerLoss?
    requires Exec(c, jobs, s, step).Some?
    ensures var t := Exec(c, jobs, s, step).value;
            s.disk.File? && s.disk.durable <= |s.disk.bytes| ==> t.disk.File? && s.disk.durable <= t.disk.durable
  {
  }

  lemma OpeningStep(c: Codec, jobs: map<Pid, Job>, s: Sys, step: Step, log: seq<Record>, tail: seq<byte>)
    returns (t: Sys)
    requires Lawful(c) && Inv(c, jobs, s, log, tail)
    requires step.Consume? || step.Create? || step.Open? || step.TakeLock? || step.Inspect? || step.Read?
             || step.CheckPrior?
    requires Exec(c, jobs, s, step).Some?
    ensures Exec(c, jobs, s, step) == Some(t) && Inv(c, jobs, t, log, tail)
  {
    match step
    case Consume(p, accepted) =>
      StepConsume(c, jobs, s, p, accepted, log, tail);
      t := Consumed(jobs, s, p, accepted).value;
    case Create(p) => StepCreate(c, jobs, s, p, log, tail); t := Created(s, p).value;
    case Open(p) => StepOpen(c, jobs, s, p, log, tail); t := OpenedExisting(s, p).value;
    case TakeLock(p) => StepTakeLock(c, jobs, s, p, log, tail); t := LockTaken(s, p).value;
    case Inspect(p) => StepInspect(c, jobs, s, p, log, tail); t := Examined(s, p).value;
    case Read(p) => StepRead(c, jobs, s, p, log, tail); t := Validated(c, s, p).value;
    case CheckPrior(p) => StepCheckPrior(c, jobs, s, p, log, tail); t := Checked(jobs, s, p).value;
  }

  lemma SessionStep(c: Codec, jobs: map<Pid, Job>, s: Sys, step: Step, log: seq<Record>, tail: seq<byte>)
    returns (t: Sys)
    requires Inv(c, jobs, s, log, tail)
    requires step.Prepare? || step.Wait? || step.Cleanup?
    requires Exec(c, jobs, s, step).Some?
    ensures Exec(c, jobs, s, step) == Some(t) && Inv(c, jobs, t, log, tail)
  {
    match step
    case Prepare(p, ok) => StepPrepare(c, jobs, s, p, ok, log, tail); t := Prepared(s, p, ok).value;
    case Wait(p, completed) => StepWait(c, jobs, s, p, completed, log, tail); t := Waited(jobs, s, p, completed).value;
    case Cleanup(p, issue) => StepCleanup(c, jobs, s, p, issue, log, tail); t := Cleaned(s, p, issue).value;
  }

  lemma DiskStep(c: Codec, jobs: map<Pid, Job>, s: Sys, step: Step, log: seq<Record>, tail: seq<byte>)
    requires Lawful(c) && Inv(c, jobs, s, log, tail) && (step.Write? || step.WritePart? || step.Sync?)
    requires Exec(c, jobs, s, step).Some?
    ensures Inv(c, jobs, Exec(c, jobs, s, step).value, LogAfter(c, jobs, s, step, log),
                TailAfter(c, jobs, s, step, log, tail))
  {
    if step.Write? {
      StepWrite(c, jobs, s, step.p, log, tail);
    } else if step.WritePart? {
      StepWritePart(c, jobs, s, step.p, step.n, log, tail);
    } else {
      StepSync(c, jobs, s, step.p, log, tail);
    }
  }

  lemma RunStep(c: Codec, jobs: map<Pid, Job>, s: Sys, step: Step, log: seq<Record>, tail: seq<byte>)
    requires Lawful(c) && Inv(c, jobs, s, log, tail) && !step.PowerLoss?
    requires Exec(c, jobs, s, step).Some?
    ensures Inv(c, jobs, Exec(c, jobs, s, step).value, LogAfter(c, jobs, s, step, log),
                TailAfter(c, jobs, s, step, log, tail))
  {
    if step.Write? || step.WritePart? || step.Sync? {
      DiskStep(c, jobs, s, step, log, tail);
    } else if step.Abort? {
      StepAbort(c, jobs, s, step.p, log, tail);
    } else if step.SendTurn? {
      StepSendTurn(c, jobs, s, step.p, log, tail);
    } else if step.Prepare? || step.Wait? || step.Cleanup? {
      var t := SessionStep(c, jobs, s, step, log, tail);
    } else {
      var t := OpeningStep(c, jobs, s, step, log, tail);
    }
  }

  /** Every step keeps the invariant and every durable record. */
  lemma StepKeeps(c: Codec, jobs: map<Pid, Job>, s: Sys, step: Step, log: seq<Record>, tail: seq<byte>)
    returns (log': seq<Record>, tail': seq<byte>)
    requires Lawful(c) && Inv(c, jobs, s, log, tail)
    requires Exec(c, jobs, s, step).Some?
    ensures Inv(c, jobs, Exec(c, jobs, s, step).value, log', tail')
    ensures forall content :: Durable(c, s.disk, log, content)
                              ==> Durable(c, Exec(c, jobs, s, step).value.disk, log', content)
  {
    if step.PowerLoss? {
      log', tail' := StepPowerLoss(c, jobs, s, step.keep, step.found, log, tail);
    } else {
      RunStep(c, jobs, s, step, log, tail);
      log', tail' := LogAfter(c, jobs, s, step, log), TailAfter(c, jobs, s, step, log, tail);
      StepDisk(c, jobs, s, step);
      if s.disk.File? {
        GrowsFrom(c, s.disk, log, Exec(c, jobs, s, step).value.disk, log');
      }
    }
  }

  lemma GrowsFrom(c: Codec, disk: Disk, log: seq<Record>, disk': Disk, log': seq<Record>)
    requires log <= log' && disk.File? && disk'.File? && disk.durable <= disk'.durable
    ensures forall content :: Durable(c, disk, log, content) ==> Durable(c, disk', log', content)
  {
    forall content | Durable(c, disk, log, content) ensures Durable(c, disk', log', content) {
      DurableGrows(c, disk, log, disk', log', content);
    }
  }

  lemma InitialInv(c: Codec, jobs: map<Pid, Job>, s: Sys)
    requires Initial(jobs, s)
    ensures Inv(c, jobs, s, [], [])
  {
  }

  lemma {:induction false} RunKeeps(c: Codec, jobs: map<Pid, Job>, s: Sys, steps: seq<Step>, log: seq<Record>,
                                    tail: seq<byte>)
    returns (log': seq<Record>, tail': seq<byte>)
    requires Lawful(c) && Inv(c, jobs, s, log, tail)
    requires Run(c, jobs, s, steps).Some?
    ensures Inv(c, jobs, Run(c, jobs, s, steps).value, log', tail')
    ensures forall content :: Durable(c, s.disk, log, content)
                              ==> Durable(c, Run(c, jobs, s, steps).value.disk, log', content)
  {
    if steps == [] {
      log', tail' := log, tail;
    } else {
      var short := steps[..|steps| - 1];
      var mid, rest := RunKeeps(c, jobs, s, short, log, tail);
      log', tail' := StepKeeps(c, jobs, Run(c, jobs, s, short).value, steps[|steps| - 1], mid, rest);
    }
  }

  // ---- what every schedule guarantees ----

  /** At most one turn/start is ever written for a pair, and at most one per confirmation. */
  lemma AtMostOnce(c: Codec, jobs: map<Pid, Job>, s: Sys, steps: seq<Step>)
    requires Lawful(c) && Initial(jobs, s) && Run(c, jobs, s, steps).Some?
    ensures var sent := Run(c, jobs, s, steps).value.sent;
            forall i, j :: 0 <= i < j < |sent| ==>
              && sent[i] in jobs && sent[j] in jobs
              && jobs[sent[i]].Pair() != jobs[sent[j]].Pair()
              && jobs[sent[i]].capability != jobs[sent[j]].capability
  {
    InitialInv(c, jobs, s);
    var log, tail := RunKeeps(c, jobs, s, steps, [], []);
    var t := Run(c, jobs, s, steps).value;
    DistinctCapabilities(jobs, t.pcs, t.sent, t.used);
  }

  lemma SentAreJobs(c: Codec, jobs: map<Pid, Job>, s: Sys, steps: seq<Step>)
    requires Lawful(c) && Initial(jobs, s) && Run(c, jobs, s, steps).Some?
    ensures forall q :: q in Run(c, jobs, s, steps).value.sent ==> q in jobs
  {
    InitialInv(c, jobs, s);
    var log, tail := RunKeeps(c, jobs, s, steps, [], []);
  }

  lemma DistinctCapabilities(jobs: map<Pid, Job>, pcs: map<Pid, Pc>, sent: seq<Pid>, used: set<nat>)
    requires pcs.Keys == jobs.Keys && Capabilities(jobs, pcs, sent, used)
    requires forall q :: q in sent ==> q in jobs
    requires forall i, j :: 0 <= i < j < |sent| ==> jobs[sent[i]].Pair() != jobs[sent[j]].Pair()
    ensures forall i, j :: 0 <= i < j < |sent| ==> jobs[sent[i]].capability != jobs[sent[j]].capability
  {
    forall i, j | 0 <= i < j < |sent| ensures jobs[sent[i]].capability != jobs[sent[j]].capability {
      assert Past(pcs, sent, sent[i]) && Past(pcs, sent, sent[j]);
    }
  }

  /** A returned outcome tells the truth about the wire and is durably recorded. */
  lemma OutcomesAreTrue(c: Codec, jobs: map<Pid, Job>, s: Sys, steps: seq<Step>, p: Pid)
    requires Lawful(c) && Initial(jobs, s) && Run(c, jobs, s, steps).Some? && p in jobs
    requires Run(c, jobs, s, steps).value.pcs[p].Done?
    ensures var t := Run(c, jobs, s, steps).value;
            && (t.pcs[p].outcome.FailedBeforeWrite? ==> p !in t.sent)
            && (t.pcs[p].outcome.Delivered? ==> exists i :: 0 <= i < |t.sent| && t.sent[i] == p
                                                            && forall j :: 0 <= j < |t.sent| && j != i ==>
                                                               t.sent[j] != p)
            && exists log :: Linked(c.hash, ZERO, log)
                             && Durable(c, t.disk, log, jobs[p].Says(KindOf(t.pcs[p].outcome)))
                             && t.disk.File? && Bytes(c, log) <= t.disk.bytes
  {
    InitialInv(c, jobs, s);
    var log, tail := RunKeeps(c, jobs, s, steps, [], []);
    var t := Run(c, jobs, s, steps).value;
    assert PcOk(c, jobs[p], t.disk, log, tail, t.pcs[p]);
    assert Bytes(c, log) <= t.disk.bytes;
    if t.pcs[p].outcome.Delivered? {
      var i :| 0 <= i < |t.sent| && t.sent[i] == p;
      assert forall j :: 0 <= j < |t.sent| && j != i ==> t.sent[j] != p;
    }
  }

  /** Whatever happened, a reader either finds a torn tail or finds every pair inside its life cycle. */
  lemma JournalLanguage(c: Codec, jobs: map<Pid, Job>, s: Sys, steps: seq<Step>)
    requires Lawful(c) && Initial(jobs, s) && Run(c, jobs, s, steps).Some?
    requires Run(c, jobs, s, steps).value.disk.File?
    ensures match Validate(c, Run(c, jobs, s, steps).value.disk.bytes)
            case Ok(rs) => Lifecycles(rs)
            case Err(e) => e == PartialTail
  {
    InitialInv(c, jobs, s);
    var log, tail := RunKeeps(c, jobs, s, steps, [], []);
    if tail == [] {
      RoundTrip(c, log);
      assert Run(c, jobs, s, steps).value.disk.bytes == Bytes(c, log);
    } else {
      TornTailRefused(c, log, tail);
    }
  }

  /** A request is on the wire only when its start record is already durable. */
  lemma StartBeforeSend(c: Codec, jobs: map<Pid, Job>, s: Sys, steps: seq<Step>, p: Pid)
    requires Lawful(c) && Initial(jobs, s) && Run(c, jobs, s, steps).Some?
    requires p in Run(c, jobs, s, steps).value.sent
    ensures var t := Run(c, jobs, s, steps).value;
            p in jobs && exists log :: Linked(c.hash, ZERO, log) && t.disk.File? && Bytes(c, log) <= t.disk.bytes
                                       && Durable(c, t.disk, log, jobs[p].Says(Kind.AttemptStarted))
  {
    InitialInv(c, jobs, s);
    var log, tail := RunKeeps(c, jobs, s, steps, [], []);
    assert Bytes(c, log) <= Run(c, jobs, s, steps).value.disk.bytes;
  }

  /** Still on the way to recording a start. */
  predicate MayStillStart(pc: Pc) {
    pc.Preparing? || (pc.Appending? && pc.kind.AttemptStarted?)
  }

  /** Once a start record is durable, no later schedule, crash or reopening lets the pair start again. */
  lemma StartIsFinal(c: Codec, jobs: map<Pid, Job>, s: Sys, before: seq<Step>, p: Pid, after: seq<Step>)
    requires Lawful(c) && Initial(jobs, s) && p in jobs
    requires Run(c, jobs, s, before).Some? && Run(c, jobs, s, before).value.pcs[p].Started?
    requires Run(c, jobs, Run(c, jobs, s, before).value, after).Some?
    ensures var t := Run(c, jobs, Run(c, jobs, s, before).value, after).value;
            forall q :: q in jobs && jobs[q].Pair() == jobs[p].Pair() ==> !MayStillStart(t.pcs[q])
  {
    InitialInv(c, jobs, s);
    var mid := Run(c, jobs, s, before).value;
    var log, tail := RunKeeps(c, jobs, s, before, [], []);
    StartedIsDurable(c, jobs, mid, p, log, tail);
    var log', tail' := RunKeeps(c, jobs, mid, after, log, tail);
    DurableStartBlocks(c, jobs, Run(c, jobs, mid, after).value, p, log', tail');
  }

  lemma StartedIsDurable(c: Codec, jobs: map<Pid, Job>, s: Sys, p: Pid, log: seq<Record>, tail: seq<byte>)
    requires Inv(c, jobs, s, log, tail) && p in jobs && s.pcs[p].Started?
    ensures Durable(c, s.disk, log, jobs[p].Says(Kind.AttemptStarted))
  {
    assert PcOk(c, jobs[p], s.disk, log, tail, s.pcs[p]);
  }

  lemma DurableStartBlocks(c: Codec, jobs: map<Pid, Job>, s: Sys, p: Pid, log: seq<Record>, tail: seq<byte>)
    requires s.pcs.Keys == jobs.Keys && AllPcsOk(c, jobs, s.disk, log, tail, s.pcs) && p in jobs
    requires Durable(c, s.disk, log, jobs[p].Says(Kind.AttemptStarted))
    ensures forall q :: q in jobs && jobs[q].Pair() == jobs[p].Pair() ==> !MayStillStart(s.pcs[q])
  {
    var i :| 0 <= i < |log| && log[i].content == jobs[p].Says(Kind.AttemptStarted);
    ProjectHas(log, i);
    assert !AllFailed(Project(log, jobs[p].Pair()));
    forall q | q in jobs && jobs[q].Pair() == jobs[p].Pair() ensures !MayStillStart(s.pcs[q]) {
      assert PcOk(c, jobs[q], s.disk, log, tail, s.pcs[q]);
    }
  }
}
