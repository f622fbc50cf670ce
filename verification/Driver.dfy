/** The delivery driver as it runs in one process: every system call it makes is a step of the
    shared machine, so whatever holds of all schedules holds of its runs. */
module Driver {
  import opened Common
  import opened HashChain
  import opened Journal
  import D = Delivery
  import S = Session
  import L = SessionLaws
  import A = SessionAnswers

  /** How one append went: how many bytes the write took, and whether the sync succeeded. */
  datatype Fate = Fate(written: nat, synced: bool)

  /** What one run is asked to deliver: the text, the alias and the route it resolves to, under an attempt
      id and a one-use confirmation. With `deferred` a success is recorded after the peer was cleaned up. */
  datatype Ask = Ask(attempt: string, text: string, alias: string, route: S.Route, capability: nat, deferred: bool)

  /** The journal names the text and the thread by their digests. */
  function JobOf(sha: string -> Digest, a: Ask): D.Job {
    D.Job(a.attempt, sha(a.text), a.alias, sha(a.route.thread), a.capability, a.deferred)
  }

  /** The record that follows `rs`: numbered, chained and signed, and naming what was asked for. */
  predicate Continues(c: Codec, sha: string -> Digest, a: Ask, kind: Kind, rs: seq<Record>, r: Record) {
    && r.ordinal == |rs| + 1
    && r.previous == (if rs == [] then ZERO else rs[|rs| - 1].digest)
    && r.digest == c.hash(r.ordinal, r.content, r.previous)
    && r.content.attempt == a.attempt && r.content.alias == a.alias && r.content.kind == kind
    && r.content.payload == sha(a.text) && r.content.thread == sha(a.route.thread)
  }

  /** The records a returned outcome stands for: a failure, or a start and how it ended. */
  predicate Added(c: Codec, sha: string -> Digest, a: Ask, o: Outcome, rs: seq<Record>, added: seq<Record>) {
    if o.FailedBeforeWrite? then |added| == 1 && Continues(c, sha, a, Kind.FailedBeforeWrite, rs, added[0])
    else
      && |added| == 2 && Continues(c, sha, a, Kind.AttemptStarted, rs, added[0])
      && Continues(c, sha, a, if o.Delivered? then Kind.Delivered else Kind.Uncertain, rs + [added[0]], added[1])
  }

  lemma NewContinues(c: Codec, sha: string -> Digest, a: Ask, rs: seq<Record>, kind: Kind)
    ensures Continues(c, sha, a, kind, rs, D.NewRecord(c, JobOf(sha, a), rs, kind))
  {
  }

  lemma InspectStep(c: Codec, jobs: map<D.Pid, D.Job>, s: D.Sys, p: D.Pid, created: bool, ok: bool)
    requires s.pcs.Keys == jobs.Keys && p in jobs && s.pcs[p] == D.Locked(created) && s.disk.File? && s.lock == Some(p)
    requires ok == (created || s.disk.bytes != [])
    ensures D.Exec(c, jobs, s, D.Inspect(p)) ==
            Some(D.Sys(if created then s.disk.(linked := true) else s.disk, if ok then s.lock else None,
                       s.pcs[p := if ok then D.Inspected(created) else D.Raised], s.sent, s.used))
  {
  }

  lemma ReadStep(c: Codec, jobs: map<D.Pid, D.Job>, s: D.Sys, p: D.Pid, created: bool, r: Option<seq<Record>>)
    requires s.pcs.Keys == jobs.Keys && p in jobs && s.pcs[p] == D.Inspected(created) && s.disk.File?
             && s.lock == Some(p)
    requires r == if |s.disk.bytes| > MAX_JOURNAL_BYTES then None else Accepted(Validate(c, s.disk.bytes))
    ensures D.Exec(c, jobs, s, D.Read(p)) ==
            Some(D.Sys(s.disk, if r.Some? then s.lock else None,
                       s.pcs[p := if r.Some? then D.Holding(r.value) else D.Raised], s.sent, s.used))
  {
    var checked := Validate(c, s.disk.bytes);
  }

  function Accepted(r: Result<seq<Record>, Refusal>): Option<seq<Record>> {
    match r
    case Ok(rs) => Some(rs)
    case Err(_) => None
  }

  lemma PriorStep(c: Codec, jobs: map<D.Pid, D.Job>, s: D.Sys, p: D.Pid, records: seq<Record>, ok: bool)
    requires s.pcs.Keys == jobs.Keys && p in jobs && s.pcs[p] == D.Holding(records) && s.lock == Some(p)
    requires ok == (TerminalFor(records, jobs[p].Pair()) in {None, Some(Outcome.FailedBeforeWrite)})
    ensures D.Exec(c, jobs, s, D.CheckPrior(p)) ==
            Some(D.Sys(s.disk, if ok then s.lock else None,
                       s.pcs[p := if ok then D.Preparing(records) else D.Raised], s.sent, s.used))
  {
    var prior := TerminalFor(records, jobs[p].Pair());
  }

  lemma WriteStep(c: Codec, jobs: map<D.Pid, D.Job>, s: D.Sys, p: D.Pid, records: seq<Record>, kind: Kind)
    requires s.pcs.Keys == jobs.Keys && p in jobs && s.pcs[p] == D.Appending(records, kind) && s.disk.File?
             && s.lock == Some(p)
    ensures var line := Line(c, D.NewRecord(c, jobs[p], records, kind));
            D.Exec(c, jobs, s, D.Write(p)) ==
            Some(D.Sys(s.disk.(bytes := s.disk.bytes + line), s.lock, s.pcs[p := D.Written(records, kind)], s.sent,
                       s.used))
  {
  }

  lemma TornStep(c: Codec, jobs: map<D.Pid, D.Job>, s: D.Sys, p: D.Pid, records: seq<Record>, kind: Kind, n: nat)
    requires s.pcs.Keys == jobs.Keys && p in jobs && s.pcs[p] == D.Appending(records, kind) && s.disk.File?
             && s.lock == Some(p)
    requires n < |Line(c, D.NewRecord(c, jobs[p], records, kind))|
    ensures var line := Line(c, D.NewRecord(c, jobs[p], records, kind));
            D.Exec(c, jobs, s, D.WritePart(p, n)) ==
            Some(D.Sys(s.disk.(bytes := s.disk.bytes + line[..n]), None, s.pcs[p := D.Raised], s.sent, s.used))
  {
  }

  lemma SyncStep(c: Codec, jobs: map<D.Pid, D.Job>, s: D.Sys, p: D.Pid, records: seq<Record>, kind: Kind)
    requires s.pcs.Keys == jobs.Keys && p in jobs && s.pcs[p] == D.Written(records, kind) && s.disk.File?
             && s.lock == Some(p)
    ensures D.Exec(c, jobs, s, D.Sync(p)) ==
            Some(D.Sys(s.disk.(durable := |s.disk.bytes|), if kind.AttemptStarted? then s.lock else None,
                       s.pcs[p := D.AfterSync(records + [D.NewRecord(c, jobs[p], records, kind)], kind)], s.sent,
                         s.used))
  {
  }

  lemma AbortStep(c: Codec, jobs: map<D.Pid, D.Job>, s: D.Sys, p: D.Pid)
    requires s.pcs.Keys == jobs.Keys && p in jobs && !s.pcs[p].Done? && s.lock == Some(p)
    ensures D.Exec(c, jobs, s, D.Abort(p)) == Some(D.Sys(s.disk, None, s.pcs[p := D.Raised], s.sent, s.used))
  {
  }

  /** The journal path, its lock and the consumed capabilities, with the schedule so far. */
  class Host {
    const codec: Codec
    const sha: string -> Digest
    const jobs: map<D.Pid, D.Job>
    var disk: D.Disk
    var lock: Option<D.Pid>
    var used: set<nat>
    ghost const origin: D.Sys
    ghost var pcs: map<D.Pid, D.Pc>
    ghost var sent: seq<D.Pid>
    ghost var trace: seq<D.Step>

    ghost function State(): D.Sys
      reads this
    {
      D.Sys(disk, lock, pcs, sent, used)
    }

    /** What happened so far is a run of the machine from the initial state. */
    ghost predicate Valid()
      reads this
    {
      && Lawful(codec) && D.Initial(jobs, origin)
      && D.Run(codec, jobs, origin, trace) == Some(State())
    }

    constructor (codec: Codec, sha: string -> Digest, asks: map<D.Pid, Ask>)
      requires Lawful(codec)
      ensures Valid() && this.codec == codec && this.sha == sha && trace == [] && disk == D.Absent
      ensures jobs == map p | p in asks :: JobOf(sha, asks[p])
    {
      this.codec, this.sha, jobs := codec, sha, map p | p in asks :: JobOf(sha, asks[p]);
      disk, lock, used := D.Absent, None, {};
      pcs, sent, trace := map p | p in asks :: D.Fresh, [], [];
      origin := D.Sys(D.Absent, None, map p | p in asks :: D.Fresh, [], {});
    }

    lemma Sound()
      requires Valid()
      ensures pcs.Keys == jobs.Keys
      ensures forall p :: p in pcs && D.HoldsLock(pcs[p]) ==> lock == Some(p)
      ensures lock.Some? ==> lock.value in pcs && D.HoldsLock(pcs[lock.value])
      ensures forall p :: p in pcs && (pcs[p].Opened? || D.HoldsLock(pcs[p])) ==> disk.File?
    {
      D.InitialInv(codec, jobs, origin);
      var log, tail := D.RunKeeps(codec, jobs, origin, trace, [], []);
    }

    /** Record that `step` led from `before` to the present state. */
    ghost method Log(before: D.Sys, step: D.Step)
      requires Lawful(codec) && D.Initial(jobs, origin) && D.Run(codec, jobs, origin, trace) == Some(before)
      requires D.Exec(codec, jobs, before, step) == Some(State())
      modifies this`trace
      ensures Valid() && trace == old(trace) + [step]
    {
      RunSnoc(codec, jobs, origin, trace, step, before);
      trace := trace + [step];
    }

    method Consume(p: D.Pid, accepted: bool) returns (ok: bool)
      requires Valid() && p in jobs && pcs[p] == D.Fresh
      modifies this
      ensures Valid() && disk == old(disk) && sent == old(sent) && lock == old(lock)
      ensures used == old(used) + {jobs[p].capability}
      ensures ok == (jobs[p].capability !in old(used) && accepted)
      ensures pcs == old(pcs)[p := if ok then D.Armed else D.Raised]
    {
      Sound();
      ghost var before := State();
      ok := jobs[p].capability !in used && accepted;
      assert jobs[p].capability in used ==> used + {jobs[p].capability} == used;
      used := used + {jobs[p].capability};
      pcs := pcs[p := if ok then D.Armed else D.Raised];
      Log(before, D.Consume(p, accepted));
    }

    /** O_CREAT | O_EXCL, and failing that a plain open. */
    method Open(p: D.Pid) returns (created: bool)
      requires Valid() && p in jobs && pcs[p] == D.Armed
      modifies this`disk, this`pcs, this`trace
      ensures Valid() && created == old(disk).Absent?
      ensures disk == if created then D.File([], 0, false) else old(disk)
      ensures pcs == old(pcs)[p := D.Opened(created)]
    {
      Sound();
      ghost var before := State();
      created := disk.Absent?;
      if created {
        disk := D.File([], 0, false);
      }
      pcs := pcs[p := D.Opened(created)];
      Log(before, if created then D.Create(p) else D.Open(p));
    }

    method Flock(p: D.Pid, created: bool) returns (ok: bool)
      requires Valid() && p in jobs && pcs[p] == D.Opened(created)
      modifies this`lock, this`pcs, this`trace
      ensures Valid() && ok == old(lock).None?
      ensures pcs == old(pcs)[p := if ok then D.Locked(created) else D.Raised]
    {
      Sound();
      ghost var before := State();
      ok := lock.None?;
      if ok {
        lock := Some(p);
      }
      pcs := pcs[p := if ok then D.Locked(created) else D.Raised];
      Log(before, D.TakeLock(p));
    }

    method Inspect(p: D.Pid, created: bool) returns (ok: bool)
      requires Valid() && p in jobs && pcs[p] == D.Locked(created)
      modifies this`disk, this`lock, this`pcs, this`trace
      ensures Valid() && old(disk).File? && ok == (created || old(disk).bytes != [])
      ensures disk == if created then old(disk).(linked := true) else old(disk)
      ensures pcs == old(pcs)[p := if ok then D.Inspected(created) else D.Raised]
    {
      Sound();
      ghost var before := State();
      ok := created || disk.bytes != [];
      if created {
        disk := disk.(linked := true);
      } else if !ok {
        lock := None;
      }
      pcs := pcs[p := if ok then D.Inspected(created) else D.Raised];
      InspectStep(codec, jobs, before, p, created, ok);
      Log(before, D.Inspect(p));
    }

    method Load(p: D.Pid, ghost created: bool) returns (r: Option<seq<Record>>)
      requires Valid() && p in jobs && pcs[p] == D.Inspected(created)
      modifies this`lock, this`pcs, this`trace
      ensures Valid() && disk.File?
      ensures r == if |disk.bytes| > MAX_JOURNAL_BYTES then None else Accepted(Validate(codec, disk.bytes))
      ensures pcs == old(pcs)[p := if r.Some? then D.Holding(r.value) else D.Raised]
    {
      Sound();
      ghost var before := State();
      var raw := ReadChunks(disk.bytes);
      r := None;
      if raw.Some? {
        var checked := ValidateLines(codec, raw.value);
        r := Accepted(checked);
      }
      if r.None? {
        lock := None;
      }
      pcs := pcs[p := if r.Some? then D.Holding(r.value) else D.Raised];
      ReadStep(codec, jobs, before, p, created, r);
      Log(before, D.Read(p));
    }

    /** The bounded reading loop over the file. */
    static method ReadChunks(image: seq<byte>) returns (raw: Option<seq<byte>>)
      ensures raw == if |image| > MAX_JOURNAL_BYTES then None else Some(image)
    {
      var got: seq<byte> := [];
      while |got| < |image|
        invariant |got| <= |image| && got == image[..|got|] && |got| <= MAX_JOURNAL_BYTES
      {
        var width := if |image| - |got| < CHUNK_BYTES then |image| - |got| else CHUNK_BYTES;
        got := got + image[|got|..|got| + width];
        if |got| > MAX_JOURNAL_BYTES {
          return None;
        }
      }
      assert image[..|image|] == image;
      return Some(got);
    }

    method CheckPrior(p: D.Pid, records: seq<Record>) returns (ok: bool)
      requires Valid() && p in jobs && pcs[p] == D.Holding(records)
      modifies this`lock, this`pcs, this`trace
      ensures Valid()
      ensures ok == (TerminalFor(records, jobs[p].Pair()) in {None, Some(Outcome.FailedBeforeWrite)})
      ensures pcs == old(pcs)[p := if ok then D.Preparing(records) else D.Raised]
    {
      Sound();
      ghost var before := State();
      var prior := TerminalFor(records, jobs[p].Pair());
      ok := prior != Some(Outcome.Delivered) && prior != Some(Outcome.Uncertain);
      if !ok {
        lock := None;
      }
      pcs := pcs[p := if ok then D.Preparing(records) else D.Raised];
      PriorStep(codec, jobs, before, p, records, ok);
      Log(before, D.CheckPrior(p));
    }

    /** One write call: all of the line or only a part of it, which raises. */
    method Write(p: D.Pid, records: seq<Record>, kind: Kind, line: seq<byte>, limit: nat) returns (ok: bool)
      requires Valid() && p in jobs && pcs[p] == D.Appending(records, kind)
      requires line == Line(codec, D.NewRecord(codec, jobs[p], records, kind))
      modifies this`disk, this`lock, this`pcs, this`trace
      ensures Valid() && old(disk).File? && ok == (limit >= |line|)
      ensures disk == old(disk).(bytes := old(disk).bytes + if ok then line else line[..limit])
      ensures pcs == old(pcs)[p := if ok then D.Written(records, kind) else D.Raised]
    {
      Sound();
      ghost var before := State();
      ok := limit >= |line|;
      if ok {
        WriteStep(codec, jobs, before, p, records, kind);
        disk := disk.(bytes := disk.bytes + line);
        pcs := pcs[p := D.Written(records, kind)];
        Log(before, D.Write(p));
      } else {
        TornStep(codec, jobs, before, p, records, kind, limit);
        disk := disk.(bytes := disk.bytes + line[..limit]);
        lock := None;
        pcs := pcs[p := D.Raised];
        Log(before, D.WritePart(p, limit));
      }
    }

    /** The sync after a whole line; a failing one raises with the line already in the file. */
    method Fsync(p: D.Pid, records: seq<Record>, kind: Kind, synced: bool)
      requires Valid() && p in jobs && pcs[p] == D.Written(records, kind)
      modifies this`disk, this`lock, this`pcs, this`trace
      ensures Valid() && old(disk).File?
      ensures disk == if synced then old(disk).(durable := |old(disk).bytes|) else old(disk)
      ensures pcs == old(pcs)[p := if synced
                              then D.AfterSync(records + [D.NewRecord(codec, jobs[p], records, kind)], kind)
                                   else D.Raised]
    {
      Sound();
      ghost var before := State();
      if synced {
        SyncStep(codec, jobs, before, p, records, kind);
        disk := disk.(durable := |disk.bytes|);
        lock := if kind.AttemptStarted? then lock else None;
        pcs := pcs[p := D.AfterSync(records + [D.NewRecord(codec, jobs[p], records, kind)], kind)];
        Log(before, D.Sync(p));
      } else {
        AbortStep(codec, jobs, before, p);
        lock := None;
        pcs := pcs[p := D.Raised];
        Log(before, D.Abort(p));
      }
    }

    /** A step of `p` that touches neither the file nor the lock nor the capabilities. */
    ghost method Advance(p: D.Pid, step: D.Step, pc: D.Pc, wrote: bool)
      requires Valid() && p in jobs && pcs[p] != D.Fresh
      requires D.Exec(codec, jobs, State(), step) ==
               Some(State().(pcs := pcs[p := pc], sent := if wrote then sent + [p] else sent))
      modifies this`pcs, this`sent, this`trace
      ensures Valid() && pcs == old(pcs)[p := pc] && sent == if wrote then old(sent) + [p] else old(sent)
    {
      ghost var before, after := State(), State().(pcs := pcs[p := pc], sent := if wrote then sent + [p] else sent);
      pcs, sent := after.pcs, after.sent;
      assert State() == after;
      Log(before, step);
    }
  }

  /** An open journal of one run: the descriptor and the validated records. */
  class Handle {
    const host: Host
    const p: D.Pid
    const ask: Ask
    var records: seq<Record>

    constructor (host: Host, p: D.Pid, ask: Ask)
      ensures this.host == host && this.p == p && this.ask == ask && records == []
    {
      this.host, this.p, this.ask, records := host, p, ask, [];
    }

    /** This run's job is the journal's view of what it is asked to deliver. */
    predicate Bound() {
      p in host.jobs && host.jobs[p] == JobOf(host.sha, ask)
    }

    /** Open and lock the file, and refuse an empty one this run did not create. */
    method Acquire() returns (ok: bool, created: bool)
      requires host.Valid() && p in host.jobs && host.pcs[p] == D.Armed
      modifies host`disk, host`lock, host`pcs, host`trace
      ensures host.Valid() && p in host.pcs && created == old(host.disk).Absent?
      ensures host.pcs[p] == if ok then D.Inspected(created) else D.Raised
      ensures ok ==> host.disk.File? && host.disk.bytes == (if created then [] else old(host.disk).bytes)
      ensures ok <==> old(host.lock).None? && (old(host.disk).Absent? || old(host.disk).bytes != [])
    {
      created := host.Open(p);
      ok := host.Flock(p, created);
      if ok {
        ok := host.Inspect(p, created);
      }
    }

    /** Open, lock, read and validate; any refusal closes the file again. */
    method Enter() returns (ok: bool)
      requires host.Valid() && p in host.jobs && host.pcs[p] == D.Armed
      modifies this, host`disk, host`lock, host`pcs, host`trace
      ensures host.Valid() && p in host.pcs
      ensures ok <==> Openable(host.codec, old(host.disk), old(host.lock))
      ensures ok ==> Entered(host.codec, old(host.disk), host.disk, records)
      ensures host.pcs[p] == if ok then D.Holding(records) else D.Raised
    {
      var created;
      ok, created := Acquire();
      if ok {
        var loaded := host.Load(p, created);
        ok := loaded.Some?;
        records := if ok then loaded.value else [];
      }
    }

    method Append(kind: Kind, fate: Fate) returns (ok: bool)
      requires host.Valid() && Bound() && host.pcs[p] == D.Appending(records, kind)
      modifies this, host`disk, host`lock, host`pcs, host`trace
      ensures host.Valid() && old(host.disk).File? && host.disk.File?
      ensures ok <==> Whole(host.codec, host.jobs[p], old(records), kind, fate)
      ensures ok ==> records == old(records) + [D.NewRecord(host.codec, host.jobs[p], old(records), kind)]
      ensures ok ==> Continues(host.codec, host.sha, ask, kind, old(records), records[|records| - 1])
      ensures ok ==> host.disk.bytes == old(host.disk).bytes + Line(host.codec, records[|records| - 1])
      ensures ok ==> host.disk.durable == |host.disk.bytes|
      ensures p in host.pcs && host.pcs[p] == if ok then D.AfterSync(records, kind) else D.Raised
    {
      var record := D.NewRecord(host.codec, host.jobs[p], records, kind);
      NewContinues(host.codec, host.sha, ask, records, kind);
      ok := host.Write(p, records, kind, Line(host.codec, record), fate.written);
      if ok {
        host.Fsync(p, records, kind, fate.synced);
        ok := fate.synced;
        if ok {
          records := records + [record];
        }
      }
    }
  }

  /** An existing journal must hold something, within the bound, that validates; and nobody may hold it. */
  predicate Openable(codec: Codec, disk: D.Disk, lock: Option<D.Pid>) {
    lock.None? && (disk.Absent? || (disk.bytes != [] && |disk.bytes| <= MAX_JOURNAL_BYTES
                                    && Validate(codec, disk.bytes).Ok?))
  }

  /** The append goes through: the whole line is written, and then synced. */
  predicate Whole(c: Codec, job: D.Job, rs: seq<Record>, kind: Kind, fate: Fate) {
    fate.written >= |Line(c, D.NewRecord(c, job, rs, kind))| && fate.synced
  }

  /** What a successful opening found: the records the file holds, none if it was just created. */
  ghost predicate Entered(codec: Codec, before: D.Disk, after: D.Disk, records: seq<Record>) {
    && after.File? && Validate(codec, after.bytes) == Ok(records)
    && (if before.File? then before.bytes == after.bytes && before.bytes != [] else after.bytes == [])
  }

  // ---- one delivery run ----

  /** The records a run leaves behind `rs` when it appends these kinds in turn. */
  function Extend(c: Codec, job: D.Job, rs: seq<Record>, kinds: seq<Kind>): seq<Record>
    decreases |kinds|
  {
    if kinds == [] then rs else Extend(c, job, rs + [D.NewRecord(c, job, rs, kinds[0])], kinds[1..])
  }

  lemma ExtendOnce(c: Codec, job: D.Job, rs: seq<Record>, kind: Kind)
    ensures Extend(c, job, rs, [kind]) == rs + [D.NewRecord(c, job, rs, kind)]
  {
    assert [kind][1..] == [];
  }

  lemma ExtendTwice(c: Codec, job: D.Job, rs: seq<Record>, first: Kind, second: Kind)
    ensures Extend(c, job, rs, [first, second]) ==
            Extend(c, job, rs, [first]) + [D.NewRecord(c, job, Extend(c, job, rs, [first]), second)]
  {
    ExtendOnce(c, job, rs, first);
    ExtendOnce(c, job, Extend(c, job, rs, [first]), second);
    assert [first, second][1..] == [second];
  }

  function KindsOf(o: Outcome): seq<Kind> {
    if o.FailedBeforeWrite? then [Kind.FailedBeforeWrite] else [Kind.AttemptStarted, KindOf(o)]
  }

  /** The file grew by exactly the lines of the records added after `rs`. */
  ghost predicate Grew(c: Codec, before: seq<byte>, after: seq<byte>, rs: seq<Record>, rs': seq<Record>) {
    rs <= rs' && after == before + Bytes(c, rs'[|rs|..])
  }

  lemma GrewTwice(c: Codec, b0: seq<byte>, b1: seq<byte>, rs0: seq<Record>, rs1: seq<Record>, r: Record)
    requires Grew(c, b0, b1, rs0, rs1)
    ensures Grew(c, b0, b1 + Line(c, r), rs0, rs1 + [r])
  {
    assert (rs1 + [r])[|rs0|..] == rs1[|rs0|..] + [r];
    BytesSnoc(c, rs1[|rs0|..], r);
  }

  lemma PrepareStep(c: Codec, jobs: map<D.Pid, D.Job>, s: D.Sys, p: D.Pid, records: seq<Record>, ok: bool)
    requires s.pcs.Keys == jobs.Keys && p in jobs && s.pcs[p] == D.Preparing(records)
    ensures D.Exec(c, jobs, s, D.Prepare(p, ok)) ==
            Some(s.(pcs := s.pcs[p := D.Appending(records,
                                                  if ok then Kind.AttemptStarted else Kind.FailedBeforeWrite)]))
  {
  }

  lemma SendStep(c: Codec, jobs: map<D.Pid, D.Job>, s: D.Sys, p: D.Pid, records: seq<Record>)
    requires s.pcs.Keys == jobs.Keys && p in jobs && s.pcs[p] == D.Started(records)
    ensures D.Exec(c, jobs, s, D.SendTurn(p)) == Some(s.(pcs := s.pcs[p := D.TurnSent(records)], sent := s.sent + [p]))
  {
  }

  lemma WaitStep(c: Codec, jobs: map<D.Pid, D.Job>, s: D.Sys, p: D.Pid, records: seq<Record>, completed: bool, pc: D.Pc)
    requires s.pcs.Keys == jobs.Keys && p in jobs
    requires s.pcs[p] == D.TurnSent(records) || (s.pcs[p] == D.Started(records) && !completed)
    requires pc == if !completed then D.Appending(records, Kind.Uncertain)
                   else if jobs[p].deferred then D.TurnDone(records) else D.Appending(records, Kind.Delivered)
    ensures D.Exec(c, jobs, s, D.Wait(p, completed)) == Some(s.(pcs := s.pcs[p := pc]))
  {
  }

  /** The turn/start of this session, seen through: its own turn started and then completed. */
  ghost predicate SeenThrough(peer: S.Peer, thread: string, upTo: nat) {
    exists turn: string, started: nat ::
      && started < upTo - 1
      && L.IsTurnNote(peer(started), S.TurnStarted, thread, turn)
      && L.IsTurnNote(peer(upTo - 1), S.TurnCompleted, thread, turn)
      && peer(upTo - 1).message.body.turn.status.Completed?
  }

  lemma StartedTurn(peer: S.Peer, fates: S.Fates, v: S.View, thread: string, text: string, turn: string, w: S.View)
    requires S.StartAndWaitRun(peer, fates, v, thread, text) == S.Returned(turn, w)
    ensures SeenThrough(peer, thread, w.received)
  {
    var asked := S.RequestRun(peer, fates, v, S.TurnStart, S.TurnParams(thread, text));
    var started := L.SeenStartedThenCompleted(peer, asked.view, thread, asked.value.turn.id, turn, w);
  }

  /** What is recorded first: a start once the session is prepared, else a failure before any write. */
  function FirstKind(peer: S.Peer, fates: S.Fates, route: S.Route): Kind {
    if S.PrepareRun(peer, fates, S.Fresh(S.Full), route).Returned? then Kind.AttemptStarted else Kind.FailedBeforeWrite
  }

  method Ready(handle: Handle, session: S.Session, route: S.Route) returns (kind: Kind)
    requires handle.host.Valid() && handle.p in handle.host.jobs
             && handle.host.pcs[handle.p] == D.Preparing(handle.records)
    requires session.Look() == S.Fresh(S.Full)
    modifies session, handle.host`pcs, handle.host`sent, handle.host`trace
    ensures handle.host.Valid() && handle.host.sent == old(handle.host.sent) && L.NoTurnYet(session.Look())
    ensures kind == FirstKind(session.peer, session.fates, route)
    ensures session.Look() == S.PrepareRun(session.peer, session.fates, S.Fresh(S.Full), route).view
    ensures handle.host.pcs[handle.p] == D.Appending(handle.records, kind)
  {
    var prepared := session.Prepare(route);
    L.PrepareNoTurn(session.peer, session.fates, S.Fresh(S.Full), route);
    kind := if prepared.Some? then Kind.AttemptStarted else Kind.FailedBeforeWrite;
    ghost var host, p := handle.host, handle.p;
    host.Sound();
    PrepareStep(host.codec, host.jobs, host.State(), p, handle.records, prepared.Some?);
    host.Advance(p, D.Prepare(p, prepared.Some?), D.Appending(handle.records, kind), false);
  }

  /** Prepare the session and record what is about to happen: a start, or a failure before any write. */
  method Announce(handle: Handle, session: S.Session, route: S.Route, fate: Fate) returns (r: Option<Kind>)
    requires handle.host.Valid() && handle.Bound()
             && handle.host.pcs[handle.p] == D.Preparing(handle.records)
    requires session.Look() == S.Fresh(S.Full)
    modifies handle, session, handle.host`disk, handle.host`lock, handle.host`pcs, handle.host`sent, handle.host`trace
    ensures handle.host.Valid() && old(handle.host.disk).File? && handle.host.disk.File?
    ensures handle.host.sent == old(handle.host.sent) && L.NoTurnYet(session.Look())
    ensures session.Look() == S.PrepareRun(session.peer, session.fates, S.Fresh(S.Full), route).view
    ensures var kind := FirstKind(session.peer, session.fates, route);
            r == if Whole(handle.host.codec, handle.host.jobs[handle.p], old(handle.records), kind, fate)
              then Some(kind) else None
    ensures match r
            case None => handle.host.pcs[handle.p] == D.Raised
            case Some(kind) =>
              && handle.records == Extend(handle.host.codec, handle.host.jobs[handle.p], old(handle.records), [kind])
              && handle.host.pcs[handle.p] == D.AfterSync(handle.records, kind)
              && handle.host.disk.durable == |handle.host.disk.bytes|
              && Grew(handle.host.codec, old(handle.host.disk).bytes, handle.host.disk.bytes, old(handle.records),
                      handle.records)
  {
    var kind := Ready(handle, session, route);
    var ok := handle.Append(kind, fate);
    if !ok {
      return None;
    }
    GrewTwice(handle.host.codec, old(handle.host.disk).bytes, old(handle.host.disk).bytes, old(handle.records),
              old(handle.records), handle.records[|handle.records| - 1]);
    return Some(kind);
  }

  /** Request the turn and wait for it. The machine learns whether the request reached the wire. */
  method Turn(handle: Handle, session: S.Session, thread: string, text: string) returns (completed: bool)
    requires handle.host.Valid() && handle.Bound()
             && handle.host.pcs[handle.p] == D.Started(handle.records)
    requires L.NoTurnYet(session.Look())
    modifies session, handle.host`pcs, handle.host`sent, handle.host`trace
    ensures handle.host.Valid()
    ensures handle.host.pcs[handle.p] ==
              if !completed then D.Appending(handle.records, Kind.Uncertain)
              else if handle.host.jobs[handle.p].deferred then D.TurnDone(handle.records)
              else D.Appending(handle.records, Kind.Delivered)
    ensures L.TurnCalls(session.wire) <= 1
    ensures handle.host.sent == old(handle.host.sent) + if L.TurnCalls(session.wire) == 1 then [handle.p] else []
    ensures completed <==> S.StartAndWaitRun(session.peer, session.fates, old(session.Look()), thread, text).Returned?
    ensures completed ==> L.TurnCalls(session.wire) == 1 && SeenThrough(session.peer, thread, session.received)
    ensures L.TurnsName(session.wire, thread, text)
  {
    ghost var host, p, v := handle.host, handle.p, session.Look();
    var turn := session.StartAndWait(thread, text);
    completed := turn.Some?;
    L.OneTurn(session.peer, session.fates, v, thread, text);
    L.StartNames(session.peer, session.fates, v, thread, text);
    if completed {
      StartedTurn(session.peer, session.fates, v, thread, text, turn.value, session.Look());
    }
    host.Sound();
    ghost var after := if !completed then D.Appending(handle.records, Kind.Uncertain)
                       else if host.jobs[p].deferred then D.TurnDone(handle.records)
                       else D.Appending(handle.records, Kind.Delivered);
    if L.TurnCalls(session.wire) == 1 {
      SendStep(host.codec, host.jobs, host.State(), p, handle.records);
      host.Advance(p, D.SendTurn(p), D.TurnSent(handle.records), true);
      host.Sound();
    }
    WaitStep(host.codec, host.jobs, host.State(), p, handle.records, completed, after);
    host.Advance(p, D.Wait(p, completed), after, false);
  }

  /** Record how a started attempt ended. */
  method Conclude(handle: Handle, kind: Kind, fate: Fate, ghost rs: seq<Record>, ghost bytes: seq<byte>)
    returns (ok: bool)
    requires handle.host.Valid() && handle.Bound() && kind in {Kind.Delivered, Kind.Uncertain}
    requires handle.host.pcs[handle.p] == D.Appending(handle.records, kind)
    requires handle.host.disk.File? && Grew(handle.host.codec, bytes, handle.host.disk.bytes, rs, handle.records)
    requires handle.records == Extend(handle.host.codec, handle.host.jobs[handle.p], rs, [Kind.AttemptStarted])
    modifies handle, handle.host`disk, handle.host`lock, handle.host`pcs, handle.host`trace
    ensures handle.host.Valid()
    ensures handle.host.pcs[handle.p] == if ok then D.AfterSync(handle.records, kind) else D.Raised
    ensures ok <==> Whole(handle.host.codec, handle.host.jobs[handle.p], old(handle.records), kind, fate)
    ensures ok ==>
              handle.records == Extend(handle.host.codec, handle.host.jobs[handle.p], rs, [Kind.AttemptStarted, kind])
    ensures ok ==> handle.host.disk.File? && handle.host.disk.durable == |handle.host.disk.bytes|
    ensures ok ==> Grew(handle.host.codec, bytes, handle.host.disk.bytes, rs, handle.records)
  {
    ghost var first, started := handle.host.disk.bytes, handle.records;
    ok := handle.Append(kind, fate);
    if ok {
      GrewTwice(handle.host.codec, bytes, first, rs, started, handle.records[|handle.records| - 1]);
      ExtendTwice(handle.host.codec, handle.host.jobs[handle.p], rs, Kind.AttemptStarted, kind);
    }
  }

  lemma CleanupStep(c: Codec, jobs: map<D.Pid, D.Job>, s: D.Sys, p: D.Pid, records: seq<Record>, issue: bool)
    requires s.pcs.Keys == jobs.Keys && p in jobs && s.pcs[p] == D.TurnDone(records)
    ensures D.Exec(c, jobs, s, D.Cleanup(p, issue)) ==
            Some(s.(pcs := s.pcs[p := D.Appending(records, if issue then Kind.Uncertain else Kind.Delivered)]))
  {
  }

  /** What is fixed from outside for one run: whether the confirmation is still good, how the appends go, and
      whether cleaning up the peer process reports an issue. */
  datatype Order = Order(timely: bool, first: Fate, last: Fate, issue: bool)

  /** What a returned outcome says about the file and the wire. */
  ghost predicate Recorded(c: Codec, job: D.Job, o: Outcome, before: seq<byte>, after: D.Disk, rs: seq<Record>,
                           calls: nat) {
    && after.File? && after.durable == |after.bytes|
    && Grew(c, before, after.bytes, rs, Extend(c, job, rs, KindsOf(o)))
    && (if o.FailedBeforeWrite? then calls == 0 else if o.Delivered? then calls == 1 else calls <= 1)
  }

  function BytesOf(disk: D.Disk): seq<byte> {
    if disk.File? then disk.bytes else []
  }

  /** A run gets as far as preparing its session exactly with an unused and timely confirmation, a journal
      it can open and lock, and a pair all of whose recorded attempts failed before writing. */
  predicate Admitted(c: Codec, job: D.Job, disk: D.Disk, lock: Option<D.Pid>, used: set<nat>, timely: bool) {
    && job.capability !in used && timely && Openable(c, disk, lock)
    && Validate(c, BytesOf(disk)).Ok?
    && TerminalFor(Validate(c, BytesOf(disk)).value, job.Pair()) in {None, Some(Outcome.FailedBeforeWrite)}
  }

  /** The outcome the peer's behaviour calls for. */
  function Told(peer: S.Peer, fates: S.Fates, a: Ask, issue: bool): Outcome {
    match S.PrepareRun(peer, fates, S.Fresh(S.Full), a.route)
    case Raised(_) => Outcome.FailedBeforeWrite
    case Returned(_, view) => Turned(peer, fates, view, a, issue)
  }

  function Turned(peer: S.Peer, fates: S.Fates, view: S.View, a: Ask, issue: bool): Outcome {
    if S.StartAndWaitRun(peer, fates, view, a.route.thread, a.text).Returned? && !(a.deferred && issue)
    then Outcome.Delivered else Outcome.Uncertain
  }

  /** The conversation that prepares a new session for the route, and the turn told after it. */
  ghost predicate SaysPrepared(peer: S.Peer, fates: S.Fates, a: Ask, t: A.Talk) {
    A.Prepares(peer, fates, S.Fresh(S.Full), a.route, t)
  }

  ghost predicate SaysTurned(peer: S.Peer, fates: S.Fates, a: Ask, t: A.Talk, u: A.Tale) {
    SaysPrepared(peer, fates, a, t) && A.Turns(peer, fates, A.Sealed(t.again), a.route.thread, a.text, u)
  }

  /** The outcome in terms of the peer's messages: nothing was to be written unless the peer says all that a
      preparation takes; delivered means that it also tells the turn through, and no clean-up issue spoils it. */
  ghost predicate Deserved(peer: S.Peer, fates: S.Fates, a: Ask, issue: bool, o: Outcome) {
    match o
    case FailedBeforeWrite => forall t :: !SaysPrepared(peer, fates, a, t)
    case Delivered => !(a.deferred && issue) && exists t, u :: SaysTurned(peer, fates, a, t, u)
    case Uncertain => (exists t :: SaysPrepared(peer, fates, a, t))
                      && ((a.deferred && issue) || forall t, u :: !SaysTurned(peer, fates, a, t, u))
  }

  lemma ToldDeserved(peer: S.Peer, fates: S.Fates, a: Ask, issue: bool, o: Outcome)
    requires o == Told(peer, fates, a, issue)
    ensures Deserved(peer, fates, a, issue, o)
  {
    var run := S.PrepareRun(peer, fates, S.Fresh(S.Full), a.route);
    if run.Raised? {
      forall t ensures !SaysPrepared(peer, fates, a, t) {
        if SaysPrepared(peer, fates, a, t) {
          A.PrepareMeets(peer, fates, S.Fresh(S.Full), a.route, t);
        }
      }
    } else {
      var t := A.PrepareFinds(peer, fates, S.Fresh(S.Full), a.route, run.view);
      assert SaysPrepared(peer, fates, a, t);
      TurnedDeserved(peer, fates, a, t, run.view);
    }
  }

  lemma TurnedDeserved(peer: S.Peer, fates: S.Fates, a: Ask, t: A.Talk, view: S.View)
    requires SaysPrepared(peer, fates, a, t) && view == A.Sealed(t.again)
    ensures S.StartAndWaitRun(peer, fates, view, a.route.thread, a.text).Returned? <==>
              exists t', u :: SaysTurned(peer, fates, a, t', u)
  {
    A.PrepareMeets(peer, fates, S.Fresh(S.Full), a.route, t);
    var turn := S.StartAndWaitRun(peer, fates, view, a.route.thread, a.text);
    if turn.Returned? {
      var u := A.TaleFinds(peer, fates, view, a.route.thread, a.text, turn.value, turn.view);
      assert SaysTurned(peer, fates, a, t, u);
    }
    if t', u :| SaysTurned(peer, fates, a, t', u) {
      A.PrepareMeets(peer, fates, S.Fresh(S.Full), a.route, t');
      A.TaleMeets(peer, fates, view, a.route.thread, a.text, u);
    }
  }

  /** The appends that an outcome takes all go through. */
  predicate WrittenOut(c: Codec, job: D.Job, rs: seq<Record>, o: Outcome, order: Order) {
    && Whole(c, job, rs, KindsOf(o)[0], order.first)
    && (!o.FailedBeforeWrite? ==> Whole(c, job, Extend(c, job, rs, [Kind.AttemptStarted]), KindOf(o), order.last))
  }

  /** Use up the confirmation, take the journal, and refuse a pair that is already settled. */
  method Begin(handle: Handle, timely: bool) returns (ok: bool)
    requires handle.host.Valid() && handle.Bound() && handle.host.pcs[handle.p] == D.Fresh
    modifies handle, handle.host
    ensures handle.host.Valid() && handle.host.sent == old(handle.host.sent)
    ensures handle.host.pcs[handle.p] == if ok then D.Preparing(handle.records) else D.Raised
    ensures ok ==> Entered(handle.host.codec, old(handle.host.disk), handle.host.disk, handle.records)
    ensures ok <==>
              Admitted(handle.host.codec, handle.host.jobs[handle.p], old(handle.host.disk), old(handle.host.lock),
                       old(handle.host.used), timely)
  {
    ok := handle.host.Consume(handle.p, timely);
    if ok {
      ok := handle.Enter();
    }
    if ok {
      ok := handle.host.CheckPrior(handle.p, handle.records);
    }
  }

  /** The turn, and after a deferred success the cleanup verdict: what is left to record. */
  method Settle(handle: Handle, session: S.Session, order: Order) returns (outcome: Outcome)
    requires handle.host.Valid() && handle.Bound()
             && handle.host.pcs[handle.p] == D.Started(handle.records)
    requires L.NoTurnYet(session.Look())
    modifies session, handle.host`pcs, handle.host`sent, handle.host`trace
    ensures handle.host.Valid() && !outcome.FailedBeforeWrite?
    ensures outcome == Turned(session.peer, session.fates, old(session.Look()), handle.ask, order.issue)
    ensures handle.host.pcs[handle.p] == D.Appending(handle.records, KindOf(outcome))
    ensures L.TurnCalls(session.wire) <= 1
    ensures handle.host.sent == old(handle.host.sent) + if L.TurnCalls(session.wire) == 1 then [handle.p] else []
    ensures outcome.Delivered? ==>
              L.TurnCalls(session.wire) == 1
              && SeenThrough(session.peer, handle.ask.route.thread, session.received)
    ensures L.TurnsName(session.wire, handle.ask.route.thread, handle.ask.text)
  {
    var host, p := handle.host, handle.p;
    var completed := Turn(handle, session, handle.ask.route.thread, handle.ask.text);
    outcome := if completed then Outcome.Delivered else Outcome.Uncertain;
    if completed && handle.ask.deferred {
      if order.issue {
        outcome := Outcome.Uncertain;
      }
      host.Sound();
      CleanupStep(host.codec, host.jobs, host.State(), p, handle.records, order.issue);
      host.Advance(p, D.Cleanup(p, order.issue), D.Appending(handle.records, KindOf(outcome)), false);
    }
  }

  function Final(r: Option<Outcome>): D.Pc {
    if r.Some? then D.Done(r.value) else D.Raised
  }

  lemma SyncedOutcome(records: seq<Record>, o: Outcome)
    ensures D.AfterSync(records, KindOf(o)) == Final(Some(o))
  {
  }

  /** From the durable start to the recorded outcome. */
  method Finish(handle: Handle, session: S.Session, order: Order, ghost rs: seq<Record>, ghost bytes: seq<byte>)
    returns (r: Option<Outcome>)
    requires handle.host.Valid() && handle.Bound()
             && handle.host.pcs[handle.p] == D.Started(handle.records)
    requires handle.host.disk.File? && Grew(handle.host.codec, bytes, handle.host.disk.bytes, rs, handle.records)
    requires handle.records == Extend(handle.host.codec, handle.host.jobs[handle.p], rs, [Kind.AttemptStarted])
    requires L.NoTurnYet(session.Look())
    modifies handle, session, handle.host`disk, handle.host`lock, handle.host`pcs, handle.host`sent, handle.host`trace
    ensures handle.host.Valid() && handle.host.pcs[handle.p] == Final(r) && L.TurnCalls(session.wire) <= 1
    ensures var o := Turned(session.peer, session.fates, old(session.Look()), handle.ask, order.issue);
            r == if Whole(handle.host.codec, handle.host.jobs[handle.p], old(handle.records), KindOf(o), order.last)
              then Some(o) else None
    ensures handle.host.sent == old(handle.host.sent) + if L.TurnCalls(session.wire) == 1 then [handle.p] else []
    ensures r.Some? ==> Recorded(handle.host.codec, handle.host.jobs[handle.p], r.value, bytes, handle.host.disk, rs,
                                 L.TurnCalls(session.wire))
    ensures r == Some(Outcome.Delivered) ==>
              SeenThrough(session.peer, handle.ask.route.thread, session.received)
    ensures L.TurnsName(session.wire, handle.ask.route.thread, handle.ask.text)
  {
    var outcome := Settle(handle, session, order);
    var ok := Conclude(handle, KindOf(outcome), order.last, rs, bytes);
    SyncedOutcome(handle.records, outcome);
    r := if ok then Some(outcome) else None;
  }

  /** The first kind recorded and the outcome told agree on whether anything was to be written. */
  lemma ToldFirst(peer: S.Peer, fates: S.Fates, a: Ask, issue: bool, o: Outcome)
    requires o == Told(peer, fates, a, issue)
    ensures FirstKind(peer, fates, a.route) == KindsOf(o)[0]
    ensures FirstKind(peer, fates, a.route) == Kind.FailedBeforeWrite <==> o.FailedBeforeWrite?
    ensures !o.FailedBeforeWrite? ==>
              o == Turned(peer, fates, S.PrepareRun(peer, fates, S.Fresh(S.Full), a.route).view, a, issue)
  {
  }

  lemma FailedRecorded(c: Codec, job: D.Job, before: seq<byte>, after: D.Disk, rs: seq<Record>, records: seq<Record>,
                       view: S.View)
    requires after.File? && after.durable == |after.bytes| && Grew(c, before, after.bytes, rs, records)
    requires records == Extend(c, job, rs, [Kind.FailedBeforeWrite]) && L.NoTurnYet(view)
    ensures Recorded(c, job, Outcome.FailedBeforeWrite, before, after, rs, L.TurnCalls(view.wire))
            && L.TurnCalls(view.wire) == 0
  {
  }

  /** The delivery proper, with the journal open and the pair still free. */
  method Deliver(handle: Handle, session: S.Session, order: Order) returns (r: Option<Outcome>)
    requires handle.host.Valid() && handle.Bound()
             && handle.host.pcs[handle.p] == D.Preparing(handle.records)
    requires session.Look() == S.Fresh(S.Full)
    modifies handle, session, handle.host`disk, handle.host`lock, handle.host`pcs, handle.host`sent, handle.host`trace
    ensures handle.host.Valid() && old(handle.host.disk).File?
    ensures handle.host.pcs[handle.p] == Final(r)
    ensures L.TurnCalls(session.wire) <= 1
    ensures handle.host.sent == old(handle.host.sent) + if L.TurnCalls(session.wire) == 1 then [handle.p] else []
    ensures var o := Told(session.peer, session.fates, handle.ask, order.issue);
            r == if WrittenOut(handle.host.codec, handle.host.jobs[handle.p], old(handle.records), o, order)
              then Some(o) else None
    ensures r.Some? ==> Recorded(handle.host.codec, handle.host.jobs[handle.p], r.value, old(handle.host.disk).bytes,
                                 handle.host.disk, old(handle.records), L.TurnCalls(session.wire))
    ensures r == Some(Outcome.Delivered) ==>
              SeenThrough(session.peer, handle.ask.route.thread, session.received)
    ensures L.TurnsName(session.wire, handle.ask.route.thread, handle.ask.text)
  {
    var host, p := handle.host, handle.p;
    host.Sound();
    ghost var bytes, rs := host.disk.bytes, handle.records;
    ToldFirst(session.peer, session.fates, handle.ask, order.issue,
              Told(session.peer, session.fates, handle.ask, order.issue));
    var announced := Announce(handle, session, handle.ask.route, order.first);
    L.NoTurnNames(session.wire, handle.ask.route.thread, handle.ask.text);
    if announced.None? {
      return None;
    }
    if announced == Some(Kind.FailedBeforeWrite) {
      SyncedOutcome(handle.records, Outcome.FailedBeforeWrite);
      FailedRecorded(host.codec, host.jobs[p], bytes, host.disk, rs, handle.records, session.Look());
      return Some(Outcome.FailedBeforeWrite);
    }
    r := Finish(handle, session, order, rs, bytes);
  }

  /** The records that stand for an outcome, after `rs`. */
  function Records(c: Codec, sha: string -> Digest, a: Ask, o: Outcome, rs: seq<Record>): (added: seq<Record>)
    ensures Added(c, sha, a, o, rs, added)
  {
    var first := D.NewRecord(c, JobOf(sha, a), rs, KindsOf(o)[0]);
    if o.FailedBeforeWrite? then [first] else [first, D.NewRecord(c, JobOf(sha, a), rs + [first], KindOf(o))]
  }

  lemma RecordedGrew(c: Codec, sha: string -> Digest, a: Ask, o: Outcome, before: seq<byte>, after: D.Disk,
                     rs: seq<Record>, calls: nat)
    requires Recorded(c, JobOf(sha, a), o, before, after, rs, calls)
    ensures after.bytes == before + Bytes(c, Records(c, sha, a, o, rs))
  {
    var added := Records(c, sha, a, o, rs);
    ExtendOnce(c, JobOf(sha, a), rs, KindsOf(o)[0]);
    if o.FailedBeforeWrite? {
      assert (rs + added)[|rs|..] == added;
    } else {
      ExtendTwice(c, JobOf(sha, a), rs, KindsOf(o)[0], KindOf(o));
      assert (rs + [added[0]] + [added[1]])[|rs|..] == added;
    }
  }

  predicate OfPair(r: Record, payload: Digest, alias: string) {
    r.content.payload == payload && r.content.alias == alias
  }

  /** Nothing is recorded for this text and alias, or the last record says that nothing was written. */
  ghost predicate LastFailed(rs: seq<Record>, payload: Digest, alias: string) {
    forall i :: 0 <= i < |rs| && OfPair(rs[i], payload, alias)
                && (forall j :: i < j < |rs| ==> !OfPair(rs[j], payload, alias)) ==>
      rs[i].content.kind == Kind.FailedBeforeWrite
  }

  lemma {:induction false} LastDecides(rs: seq<Record>, payload: Digest, alias: string)
    ensures LastFailed(rs, payload, alias) <==>
              TerminalFor(rs, (payload, alias)) in {None, Some(Outcome.FailedBeforeWrite)}
    decreases |rs|
  {
    if rs != [] {
      var short, last := rs[..|rs| - 1], rs[|rs| - 1];
      LastDecides(short, payload, alias);
      assert rs == short + [last];
      ProjectSnoc(short, last, (payload, alias));
      if OfPair(last, payload, alias) {
        assert LastFailed(rs, payload, alias) <==> last.content.kind == Kind.FailedBeforeWrite;
      } else {
        LastDropped(short, last, payload, alias);
      }
    }
  }

  lemma LastDropped(rs: seq<Record>, last: Record, payload: Digest, alias: string)
    requires !OfPair(last, payload, alias)
    ensures LastFailed(rs + [last], payload, alias) <==> LastFailed(rs, payload, alias)
  {
    var more := rs + [last];
    assert forall i :: 0 <= i < |rs| ==> more[i] == rs[i];
    if LastFailed(more, payload, alias) {
      forall i | 0 <= i < |rs| && OfPair(rs[i], payload, alias)
                 && (forall j :: i < j < |rs| ==> !OfPair(rs[j], payload, alias))
        ensures rs[i].content.kind == Kind.FailedBeforeWrite
      {
        assert OfPair(more[i], payload, alias);
      }
    }
  }

  /** Nothing stands in the way of a run: its confirmation is unused and good, nobody holds the journal, which is
      new, or not empty, within its bound and valid, and the last record of its text and alias is a failure. */
  ghost predicate Free(c: Codec, sha: string -> Digest, a: Ask, disk: D.Disk, lock: Option<D.Pid>, used: set<nat>,
                       timely: bool)
  {
    && a.capability !in used && timely && lock.None?
    && (disk.Absent? || (0 < |disk.bytes| <= 8 * 1024 * 1024 && Validate(c, disk.bytes).Ok?
                         && LastFailed(Validate(c, disk.bytes).value, sha(a.text), a.alias)))
  }

  lemma AdmittedFree(c: Codec, sha: string -> Digest, a: Ask, disk: D.Disk, lock: Option<D.Pid>, used: set<nat>,
                     timely: bool)
    ensures Admitted(c, JobOf(sha, a), disk, lock, used, timely) <==> Free(c, sha, a, disk, lock, used, timely)
    ensures Free(c, sha, a, disk, lock, used, timely) ==> Validate(c, BytesOf(disk)).Ok?
  {
    if Validate(c, BytesOf(disk)).Ok? {
      LastDecides(Validate(c, BytesOf(disk)).value, sha(a.text), a.alias);
    }
  }

  /** The lines of these records are written in full and synced. */
  predicate Through(c: Codec, added: seq<Record>, order: Order) {
    && added != [] && order.first.written >= |Line(c, added[0])| && order.first.synced
    && (|added| > 1 ==> order.last.written >= |Line(c, added[1])| && order.last.synced)
  }

  lemma WrittenThrough(c: Codec, sha: string -> Digest, a: Ask, o: Outcome, rs: seq<Record>, order: Order)
    ensures WrittenOut(c, JobOf(sha, a), rs, o, order) <==> Through(c, Records(c, sha, a, o, rs), order)
  {
    ExtendOnce(c, JobOf(sha, a), rs, Kind.AttemptStarted);
  }

  /** What a returned outcome says of the journal: what the file held before, and the records added. */
  ghost predicate Noted(c: Codec, r: Option<Outcome>, before: seq<byte>, after: D.Disk, rs: seq<Record>,
                        added: seq<Record>)
  {
    r.Some? ==>
      && Validate(c, before) == Ok(rs) && after.File? && after.bytes == before + Bytes(c, added)
      && after.durable == |after.bytes|
  }

  /** The run proper, on the handle it is given. */
  method Carry(handle: Handle, session: S.Session, order: Order)
    returns (r: Option<Outcome>)
    requires handle.host.Valid() && handle.Bound() && handle.host.pcs[handle.p] == D.Fresh
    requires session.Look() == S.Fresh(S.Full)
    modifies handle, session, handle.host
    ensures handle.host.Valid() && handle.host.pcs[handle.p] == Final(r) && L.TurnCalls(session.wire) <= 1
    ensures handle.host.sent == old(handle.host.sent) + if L.TurnCalls(session.wire) == 1 then [handle.p] else []
    ensures L.TurnCalls(session.wire) == 1 ==>
              Admitted(handle.host.codec, handle.host.jobs[handle.p], old(handle.host.disk), old(handle.host.lock),
                       old(handle.host.used), order.timely)
    ensures var o := Told(session.peer, session.fates, handle.ask, order.issue);
            r == if Admitted(handle.host.codec, handle.host.jobs[handle.p], old(handle.host.disk),
                             old(handle.host.lock), old(handle.host.used), order.timely)
                    && WrittenOut(handle.host.codec, handle.host.jobs[handle.p],
                                  Validate(handle.host.codec, BytesOf(old(handle.host.disk))).value, o, order)
                 then Some(o) else None
    ensures var rs := Validate(handle.host.codec, BytesOf(old(handle.host.disk)));
            r.Some? ==>
              rs.Ok? && Noted(handle.host.codec, r, BytesOf(old(handle.host.disk)), handle.host.disk, rs.value,
                              Records(handle.host.codec, handle.host.sha, handle.ask, r.value, rs.value))
    ensures r == Some(Outcome.FailedBeforeWrite) ==> L.TurnCalls(session.wire) == 0
    ensures r == Some(Outcome.Delivered) ==> L.TurnCalls(session.wire) == 1
                                             && SeenThrough(session.peer, handle.ask.route.thread, session.received)
    ensures L.TurnsName(session.wire, handle.ask.route.thread, handle.ask.text)
  {
    var ok := Begin(handle, order.timely);
    ghost var rs := handle.records;
    r := None;
    if ok {
      r := Deliver(handle, session, order);
      if r.Some? {
        RecordedGrew(handle.host.codec, handle.host.sha, handle.ask, r.value, BytesOf(old(handle.host.disk)),
                     handle.host.disk, rs, L.TurnCalls(session.wire));
      }
    }
  }

  /** What is returned in terms of what stands in the way and what goes through. */
  ghost predicate Accounts(c: Codec, sha: string -> Digest, a: Ask, disk: D.Disk, lock: Option<D.Pid>, used: set<nat>,
                           order: Order, o: Outcome, r: Option<Outcome>, rs: seq<Record>, added: seq<Record>)
  {
    var free := Free(c, sha, a, disk, lock, used, order.timely);
    && (free ==> Validate(c, BytesOf(disk)) == Ok(rs) && Added(c, sha, a, o, rs, added))
    && r == if free && Through(c, added, order) then Some(o) else None
  }

  lemma Accounted(c: Codec, sha: string -> Digest, a: Ask, disk: D.Disk, lock: Option<D.Pid>, used: set<nat>,
                  order: Order, o: Outcome, r: Option<Outcome>, after: D.Disk)
    returns (rs: seq<Record>, added: seq<Record>)
    requires var job := JobOf(sha, a);
             r == if Admitted(c, job, disk, lock, used, order.timely)
                     && WrittenOut(c, job, Validate(c, BytesOf(disk)).value, o, order) then Some(o) else None
    requires r.Some? ==> Validate(c, BytesOf(disk)).Ok?
                         && Noted(c, r, BytesOf(disk), after, Validate(c, BytesOf(disk)).value,
                                  Records(c, sha, a, o, Validate(c, BytesOf(disk)).value))
    ensures Accounts(c, sha, a, disk, lock, used, order, o, r, rs, added)
    ensures Noted(c, r, BytesOf(disk), after, rs, added)
  {
    AdmittedFree(c, sha, a, disk, lock, used, order.timely);
    rs, added := [], [];
    if Validate(c, BytesOf(disk)).Ok? {
      rs := Validate(c, BytesOf(disk)).value;
      added := Records(c, sha, a, o, rs);
      WrittenThrough(c, sha, a, o, rs, order);
    }
  }

  /** One supervised delivery, from the capability to the recorded outcome (None when it raises). `o` is the
      outcome that the peer's messages call for, and `added` the records that stand for it after `rs`. */
  method Perform(host: Host, p: D.Pid, ask: Ask, peer: S.Peer, fates: S.Fates, order: Order)
    returns (r: Option<Outcome>, session: S.Session, ghost o: Outcome, ghost rs: seq<Record>, ghost added: seq<Record>)
    requires host.Valid() && p in host.jobs && host.jobs[p] == JobOf(host.sha, ask) && host.pcs[p] == D.Fresh
    modifies host
    ensures host.Valid() && fresh(session) && session.peer == peer && session.fates == fates
    ensures host.pcs[p] == Final(r)
    ensures Deserved(peer, fates, ask, order.issue, o)
    ensures Accounts(host.codec, host.sha, ask, old(host.disk), old(host.lock), old(host.used), order, o, r, rs, added)
    ensures L.TurnCalls(session.wire) == 1 ==>
              Free(host.codec, host.sha, ask, old(host.disk), old(host.lock), old(host.used), order.timely)
    ensures Noted(host.codec, r, BytesOf(old(host.disk)), host.disk, rs, added)
    ensures L.TurnCalls(session.wire) <= 1
    ensures host.sent == old(host.sent) + if L.TurnCalls(session.wire) == 1 then [p] else []
    ensures L.TurnsName(session.wire, ask.route.thread, ask.text)
    ensures r == Some(Outcome.FailedBeforeWrite) ==> L.TurnCalls(session.wire) == 0
    ensures r == Some(Outcome.Delivered) ==> L.TurnCalls(session.wire) == 1
                                             && SeenThrough(peer, ask.route.thread, session.received)
  {
    session := new S.Session(peer, fates, S.Full);
    var handle := new Handle(host, p, ask);
    r := Carry(handle, session, order);
    o := Told(peer, fates, ask, order.issue);
    ToldDeserved(peer, fates, ask, order.issue, o);
    AdmittedFree(host.codec, host.sha, ask, old(host.disk), old(host.lock), old(host.used), order.timely);
    rs, added := Accounted(host.codec, host.sha, ask, old(host.disk), old(host.lock), old(host.used), order, o, r,
                           host.disk);
  }

  lemma {:induction false} PrefixRuns(c: Codec, jobs: map<D.Pid, D.Job>, s: D.Sys, steps: seq<D.Step>, n: nat)
    requires s.pcs.Keys == jobs.Keys && D.Run(c, jobs, s, steps).Some? && n <= |steps|
    ensures D.Run(c, jobs, s, steps[..n]).Some?
    decreases |steps|
  {
    if n == |steps| {
      assert steps[..n] == steps;
    } else {
      var short := steps[..|steps| - 1];
      assert short[..n] == steps[..n];
      PrefixRuns(c, jobs, s, short, n);
    }
  }

  lemma RunSnoc(c: Codec, jobs: map<D.Pid, D.Job>, s: D.Sys, steps: seq<D.Step>, step: D.Step, t: D.Sys)
    requires s.pcs.Keys == jobs.Keys && D.Run(c, jobs, s, steps) == Some(t)
    ensures t.pcs.Keys == jobs.Keys && D.Run(c, jobs, s, steps + [step]) == D.Exec(c, jobs, t, step)
  {
    assert (steps + [step])[..|steps|] == steps;
  }

  lemma AbortPossible(c: Codec, jobs: map<D.Pid, D.Job>, t: D.Sys, p: D.Pid)
    requires t.pcs.Keys == jobs.Keys && p in jobs && !t.pcs[p].Done?
    ensures D.Exec(c, jobs, t, D.Abort(p)).Some?
  {
  }

  /** A run may die after any of its steps: every prefix of a schedule followed by the death of a live
      process is again a schedule, so the guarantees over all schedules cover every crash point. */
  lemma CrashAnywhere(c: Codec, jobs: map<D.Pid, D.Job>, s: D.Sys, steps: seq<D.Step>, n: nat, p: D.Pid)
    requires s.pcs.Keys == jobs.Keys && D.Run(c, jobs, s, steps).Some? && n <= |steps| && p in jobs
    requires D.Run(c, jobs, s, steps[..n]).Some? ==> !D.Run(c, jobs, s, steps[..n]).value.pcs[p].Done?
    ensures D.Run(c, jobs, s, steps[..n] + [D.Abort(p)]).Some?
  {
    PrefixRuns(c, jobs, s, steps, n);
    var t := D.Run(c, jobs, s, steps[..n]).value;
    RunSnoc(c, jobs, s, steps[..n], D.Abort(p), t);
    AbortPossible(c, jobs, t, p);
  }
}
