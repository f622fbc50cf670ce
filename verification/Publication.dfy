/** Preparing a publication: five files put in place one after another, each atomically, so that an
    interrupted run can be repeated. */
module Publication {
  import opened Common

  type Bytes = string
  type Digest = string
  datatype Path = Path(directory: seq<string>, name: string)

  type Files = map<Path, Bytes>

  function PartialOf(p: Path): Path {
    Path(p.directory, "." + p.name + ".ultracode-partial")
  }

  lemma PartialInjective(p: Path, q: Path)
    requires PartialOf(p) == PartialOf(q)
    ensures p == q
  {
    var a, b := PartialOf(p).name, PartialOf(q).name;
    var tail := |".ultracode-partial"|;
    assert a[1..|a| - tail] == p.name && b[1..|b| - tail] == q.name;
  }

  /** A file written once, or a control document replaced from its expected bytes. */
  datatype Guard = Once | Replaces(expected: Digest)

  datatype Payload = Payload(path: Path, content: Bytes, guard: Guard)

  datatype Refusal = Preflight | Malformed | Missing | Frontier | Conflict | AdjacentPartial

  datatype Sha = Sha(of: Bytes -> Digest, wellFormed: Digest -> bool)

  /** What a step would do to the files: nothing, an atomic write, or a refusal. */
  datatype Move = Keep | Place | Stop(why: Refusal)

  function MoveFor(sha: Sha, files: Files, p: Payload): Move {
    match p.guard
    case Once =>
      if p.path in files then if files[p.path] == p.content then Keep else Stop(Conflict)
      else if PartialOf(p.path) in files then Stop(AdjacentPartial) else Place
    case Replaces(expected) =>
      if !sha.wellFormed(expected) then Stop(Malformed)
      else if p.path !in files then Stop(Missing)
      else if files[p.path] == p.content then Keep
      else if sha.of(files[p.path]) != expected then Stop(Frontier)
      else if PartialOf(p.path) in files then Stop(AdjacentPartial) else Place
  }

  /** The files after each effect of an atomic write: the partial created, part of it written (`torn`
      bytes), all of it written, and the partial renamed over the target. */
  function Writes(files: Files, p: Payload, torn: nat): seq<Files> {
    var partial := PartialOf(p.path);
    [files[partial := ""],
     files[partial := p.content[..if torn < |p.content| then torn else |p.content|]],
     files[partial := p.content],
     files[p.path := p.content]]
  }

  /** The states a run goes through, one per effect, and the refusal that ended it, if any. */
  datatype Run = Run(states: seq<Files>, refusal: Option<Refusal>)

  function Final(files: Files, states: seq<Files>): Files {
    if states == [] then files else states[|states| - 1]
  }

  function StepRun(sha: Sha, files: Files, p: Payload, torn: nat): Run {
    match MoveFor(sha, files, p)
    case Keep => Run([], None)
    case Place => Run(Writes(files, p, torn), None)
    case Stop(why) => Run([], Some(why))
  }

  function StepsRun(sha: Sha, files: Files, ps: seq<Payload>, torn: nat): Run
    decreases |ps|
  {
    if ps == [] then Run([], None)
    else
      var first := StepRun(sha, files, ps[0], torn);
      Then(first, StepsRun(sha, Final(files, first.states), ps[1..], torn))
  }

  /** A run and, unless it was refused, another after it. */
  function Then(first: Run, rest: Run): Run {
    if first.refusal.Some? then first else Run(first.states + rest.states, rest.refusal)
  }

  /** A publication request, reduced to whether its checks pass and the five files it determines:
      response, checksum and handoff written once, then the feature and state documents replaced. */
  datatype Request = Request(sound: bool, response: Payload, checksum: Payload, handoff: Payload, feature: Payload,
                             state: Payload) {
    function Payloads(): seq<Payload> { [response, checksum, handoff, feature, state] }
  }

  predicate WellGuarded(r: Request) {
    r.response.guard.Once? && r.checksum.guard.Once? && r.handoff.guard.Once? && r.feature.guard.Replaces?
      && r.state.guard.Replaces?
  }

  /** The check on a control document before anything is written. */
  function Expected(sha: Sha, files: Files, p: Payload): Option<Refusal>
    requires p.guard.Replaces?
  {
    if !sha.wellFormed(p.guard.expected) then Some(Malformed)
    else if p.path !in files then Some(Missing)
    else if files[p.path] != p.content && sha.of(files[p.path]) != p.guard.expected then Some(Frontier)
    else None
  }

  function PrepareRun(sha: Sha, files: Files, r: Request, torn: nat): Run
    requires WellGuarded(r)
  {
    if !r.sound then Run([], Some(Preflight))
    else if Expected(sha, files, r.feature).Some? then Run([], Expected(sha, files, r.feature))
    else if Expected(sha, files, r.state).Some? then Run([], Expected(sha, files, r.state))
    else StepsRun(sha, files, r.Payloads(), torn)
  }

  /** Five different targets, none of them another's partial. */
  ghost predicate Separate(ps: seq<Payload>) {
    && (forall i, j :: 0 <= i < j < |ps| ==> ps[i].path != ps[j].path)
    && (forall i, j :: 0 <= i < |ps| && 0 <= j < |ps| ==> ps[i].path != PartialOf(ps[j].path))
  }

  lemma FinalConcat(files: Files, a: seq<Files>, b: seq<Files>)
    ensures Final(files, a + b) == Final(Final(files, a), b)
  {
    if b == [] {
      assert a + b == a;
    }
  }

  // ---- what a request meets in the files ----

  /** A payload can go to its place: a write-once target is absent with no partial in the way, or holds these
      bytes already; a control document is there, under a well-formed digest, and holds either the new bytes
      or the expected old ones, then with no partial in the way. */
  predicate Passes(sha: Sha, files: Files, p: Payload) {
    if p.guard.Once? then if p.path in files then files[p.path] == p.content else PartialOf(p.path) !in files
    else
      && sha.wellFormed(p.guard.expected) && p.path in files
      && (files[p.path] == p.content || (sha.of(files[p.path]) == p.guard.expected && PartialOf(p.path) !in files))
  }

  /** It cannot, for this reason. */
  predicate Bars(sha: Sha, files: Files, p: Payload, why: Refusal) {
    var malformed := p.guard.Replaces? && !sha.wellFormed(p.guard.expected);
    var expected := p.guard.Replaces? && p.path in files && sha.of(files[p.path]) == p.guard.expected;
    match why
    case Preflight => false
    case Malformed => malformed
    case Missing => p.guard.Replaces? && !malformed && p.path !in files
    case Frontier => p.guard.Replaces? && !malformed && p.path in files && files[p.path] != p.content && !expected
    case Conflict => p.guard.Once? && p.path in files && files[p.path] != p.content
    case AdjacentPartial =>
      PartialOf(p.path) in files
      && if p.guard.Once? then p.path !in files else !malformed && expected && files[p.path] != p.content
  }

  ghost predicate AllPass(sha: Sha, files: Files, ps: seq<Payload>) {
    forall i :: 0 <= i < |ps| ==> Passes(sha, files, ps[i])
  }

  /** The first payload that cannot go to its place, and why. */
  ghost predicate Stops(sha: Sha, files: Files, ps: seq<Payload>, why: Refusal) {
    exists i :: 0 <= i < |ps| && Bars(sha, files, ps[i], why) && forall j :: 0 <= j < i ==> Passes(sha, files, ps[j])
  }

  /** The files with every payload in place. */
  function Placed(files: Files, ps: seq<Payload>): Files
    decreases |ps|
  {
    if ps == [] then files else Placed(files[ps[0].path := ps[0].content], ps[1..])
  }

  lemma StepMeets(sha: Sha, files: Files, p: Payload, torn: nat)
    ensures var run := StepRun(sha, files, p, torn);
            if Passes(sha, files, p) then run.refusal.None? && Final(files, run.states) == files[p.path := p.content]
            else run.refusal.Some? && Bars(sha, files, p, run.refusal.value)
  {
  }

  /** A payload meets the same in both. */
  ghost predicate Alike(sha: Sha, files: Files, mid: Files, p: Payload) {
    && (Passes(sha, mid, p) <==> Passes(sha, files, p))
    && forall why :: Bars(sha, mid, p, why) <==> Bars(sha, files, p, why)
  }

  /** One file in place changes nothing for a payload with another target and another partial. */
  lemma PlacedSpares(sha: Sha, files: Files, p: Payload, q: Payload)
    requires p.path != q.path && p.path != PartialOf(q.path)
    ensures Alike(sha, files, files[p.path := p.content], q)
  {
  }

  lemma SeparateRest(ps: seq<Payload>)
    requires ps != [] && Separate(ps)
    ensures Separate(ps[1..])
    ensures forall i :: 0 <= i < |ps[1..]| ==> ps[0].path != ps[1..][i].path && ps[0].path != PartialOf(ps[1..][i].path)
  {
    var rest := ps[1..];
    assert forall i :: 0 <= i < |rest| ==> rest[i] == ps[i + 1];
  }

  lemma RestSpared(sha: Sha, files: Files, ps: seq<Payload>)
    requires ps != [] && Separate(ps)
    ensures forall i :: 0 <= i < |ps[1..]| ==> Alike(sha, files, files[ps[0].path := ps[0].content], ps[1..][i])
  {
    SeparateRest(ps);
    forall i | 0 <= i < |ps[1..]| ensures Alike(sha, files, files[ps[0].path := ps[0].content], ps[1..][i]) {
      PlacedSpares(sha, files, ps[0], ps[1..][i]);
    }
  }

  /** Payloads with separate targets do not meet: the steps go through exactly when each payload can go to
      its place in the files as they were, and stop at the first that cannot. */
  lemma {:induction false} StepsMeet(sha: Sha, files: Files, ps: seq<Payload>, torn: nat)
    requires Separate(ps)
    ensures var run := StepsRun(sha, files, ps, torn);
            && (run.refusal.None? <==> AllPass(sha, files, ps))
            && (run.refusal.None? ==> Final(files, run.states) == Placed(files, ps))
            && (run.refusal.Some? ==> Stops(sha, files, ps, run.refusal.value))
    decreases |ps|
  {
    if ps != [] {
      StepMeets(sha, files, ps[0], torn);
      var first := StepRun(sha, files, ps[0], torn);
      if first.refusal.None? {
        SeparateRest(ps);
        RestSpared(sha, files, ps);
        var mid := Final(files, first.states);
        StepsMeet(sha, mid, ps[1..], torn);
        LaterMeets(sha, files, mid, ps, StepsRun(sha, mid, ps[1..], torn).refusal);
        FinalConcat(files, first.states, StepsRun(sha, mid, ps[1..], torn).states);
      }
    }
  }

  lemma LaterMeets(sha: Sha, files: Files, mid: Files, ps: seq<Payload>, refusal: Option<Refusal>)
    requires ps != [] && Passes(sha, files, ps[0])
    requires forall i :: 0 <= i < |ps[1..]| ==> Alike(sha, files, mid, ps[1..][i])
    ensures AllPass(sha, mid, ps[1..]) <==> AllPass(sha, files, ps)
    ensures refusal.Some? && Stops(sha, mid, ps[1..], refusal.value) ==> Stops(sha, files, ps, refusal.value)
  {
    assert forall i :: 0 < i < |ps| ==> ps[i] == ps[1..][i - 1] && Alike(sha, files, mid, ps[1..][i - 1]);
    if AllPass(sha, files, ps) {
      forall i | 0 <= i < |ps[1..]| ensures Passes(sha, mid, ps[1..][i]) {
        assert Passes(sha, files, ps[i + 1]);
      }
    }
    if refusal.Some? && Stops(sha, mid, ps[1..], refusal.value) {
      var i :| 0 <= i < |ps[1..]| && Bars(sha, mid, ps[1..][i], refusal.value)
               && forall j :: 0 <= j < i ==> Passes(sha, mid, ps[1..][j]);
      assert Bars(sha, files, ps[i + 1], refusal.value);
      assert forall j :: 0 < j < i + 1 ==> ps[j] == ps[1..][j - 1];
    }
  }

  /** A control document as it must be before anything is written. */
  predicate Acceptable(sha: Sha, files: Files, p: Payload) {
    && p.guard.Replaces? && sha.wellFormed(p.guard.expected) && p.path in files
    && (files[p.path] == p.content || sha.of(files[p.path]) == p.guard.expected)
  }

  lemma ExpectedMeets(sha: Sha, files: Files, p: Payload)
    requires p.guard.Replaces?
    ensures Expected(sha, files, p).None? <==> Acceptable(sha, files, p)
    ensures Expected(sha, files, p).Some? ==> Bars(sha, files, p, Expected(sha, files, p).value)
    ensures Passes(sha, files, p) ==> Acceptable(sha, files, p)
    ensures Acceptable(sha, files, p) ==> forall why :: Bars(sha, files, p, why) ==> why.AdjacentPartial?
  {
  }

  /** A request whose checks pass goes through exactly when each of its five payloads can go to its place,
      and then all five are there and no other file has changed. Otherwise the refusal is that of the first
      control document that is not acceptable, and failing that of the first payload in order. */
  lemma PrepareMeets(sha: Sha, files: Files, r: Request, torn: nat)
    requires WellGuarded(r) && Separate(r.Payloads())
    ensures var run := PrepareRun(sha, files, r, torn);
            && (run.refusal.None? <==> r.sound && AllPass(sha, files, r.Payloads()))
            && (run.refusal.None? ==> Final(files, run.states) == Placed(files, r.Payloads()))
            && (run.refusal.Some? ==> Refuses(sha, files, r, run.refusal.value))
  {
    var ps := r.Payloads();
    assert ps[3] == r.feature && ps[4] == r.state;
    ExpectedMeets(sha, files, r.feature);
    ExpectedMeets(sha, files, r.state);
    StepsMeet(sha, files, ps, torn);
  }

  /** What a refused request met. */
  ghost predicate Refuses(sha: Sha, files: Files, r: Request, why: Refusal) {
    if !r.sound then why == Preflight
    else if !Acceptable(sha, files, r.feature) then Bars(sha, files, r.feature, why)
    else if !Acceptable(sha, files, r.state) then Bars(sha, files, r.state, why)
    else Stops(sha, files, r.Payloads(), why)
  }

  /** The ordinary first publication goes through: the write-once targets and all partials are absent, and
      the control documents hold the expected old bytes. */
  lemma FirstPublication(sha: Sha, files: Files, r: Request, torn: nat)
    requires WellGuarded(r) && Separate(r.Payloads()) && r.sound
    requires forall p :: p in r.Payloads() ==> PartialOf(p.path) !in files
    requires forall p :: p in [r.response, r.checksum, r.handoff] ==> p.path !in files
    requires forall p :: p in [r.feature, r.state] ==>
                           && sha.wellFormed(p.guard.expected) && p.path in files
                           && sha.of(files[p.path]) == p.guard.expected
    ensures PrepareRun(sha, files, r, torn).refusal.None?
    ensures Final(files, PrepareRun(sha, files, r, torn).states) ==
            files[r.response.path := r.response.content][r.checksum.path := r.checksum.content]
            [r.handoff.path := r.handoff.content][r.feature.path := r.feature.content]
            [r.state.path := r.state.content]
  {
    var ps := r.Payloads();
    assert ps[0] == r.response && ps[1] == r.checksum && ps[2] == r.handoff && ps[3] == r.feature && ps[4] == r.state;
    PrepareMeets(sha, files, r, torn);
    PlacedFive(files, r);
  }

  lemma PlacedFive(files: Files, r: Request)
    ensures Placed(files, r.Payloads()) ==
            files[r.response.path := r.response.content][r.checksum.path := r.checksum.content]
            [r.handoff.path := r.handoff.content][r.feature.path := r.feature.content]
            [r.state.path := r.state.content]
  {
    var four, three, two, one := [r.checksum, r.handoff, r.feature, r.state], [r.handoff, r.feature, r.state],
      [r.feature, r.state], [r.state];
    assert r.Payloads()[1..] == four && four[1..] == three && three[1..] == two && two[1..] == one && one[1..] == [];
    PlacedTwo(files[r.response.path := r.response.content], four);
    PlacedTwo(files[r.response.path := r.response.content][r.checksum.path := r.checksum.content]
              [r.handoff.path := r.handoff.content], two);
  }

  lemma PlacedTwo(files: Files, ps: seq<Payload>)
    requires |ps| >= 2
    ensures Placed(files, ps) ==
            Placed(files[ps[0].path := ps[0].content][ps[1].path := ps[1].content], ps[1..][1..])
  {
  }

  // ---- the coordinator ----

  /** How a call ended. A crashed one left the files as they were after its last effect. */
  datatype Outcome = Prepared | Refused(why: Refusal) | Crashed

  /** How many of `n` more effects a process performs that dies after `limit` effects and has done `count`. */
  function Lived(limit: Option<nat>, count: nat, n: nat): (m: nat)
    ensures m <= n
  {
    if limit.None? || count + n <= limit.value then n
    else if limit.value <= count then 0
    else limit.value - count
  }

  /** The first effects of `run` follow `states0`: all of them, unless the process died before. */
  ghost predicate Performed(limit: Option<nat>, states0: seq<Files>, run: seq<Files>, states: seq<Files>, alive: bool) {
    var m := Lived(limit, |states0|, |run|);
    alive == (m == |run|) && states == states0 + run[..m]
  }

  lemma PerformedNone(limit: Option<nat>, states: seq<Files>)
    ensures Performed(limit, states, [], states, true)
  {
    assert states + [] == states;
  }

  lemma PerformedMore(limit: Option<nat>, s0: seq<Files>, a: seq<Files>, s1: seq<Files>, b: seq<Files>, s2: seq<Files>,
                      alive: bool)
    requires Performed(limit, s0, a, s1, true) && Performed(limit, s1, b, s2, alive)
    ensures Performed(limit, s0, a + b, s2, alive)
  {
    var m := Lived(limit, |s1|, |b|);
    assert a[..|a|] == a;
    assert (a + b)[..|a| + m] == a + b[..m];
    Assoc(s0, a, b[..m]);
  }

  lemma PerformedDead(limit: Option<nat>, s0: seq<Files>, a: seq<Files>, b: seq<Files>, s: seq<Files>)
    requires Performed(limit, s0, a, s, false)
    ensures Performed(limit, s0, a + b, s, false)
  {
    var m := Lived(limit, |s0|, |a|);
    assert (a + b)[..m] == a[..m];
  }

  class Coordinator {
    const sha: Sha
    const torn: nat
    // The process dies after this many effects; None if it does not die.
    const limit: Option<nat>
    ghost const origin: Files
    var files: Files
    var effects: nat
    ghost var states: seq<Files>

    ghost predicate Valid()
      reads this
    {
      effects == |states| && files == Final(origin, states)
    }

    constructor (sha: Sha, files: Files, torn: nat, limit: Option<nat>)
      ensures Valid() && this.sha == sha && this.files == files == origin && this.torn == torn && this.limit == limit
              && states == []
    {
      this.sha, this.files, this.torn, this.limit, effects, states := sha, files, torn, limit, 0, [];
      origin := files;
    }

    /** One effect on the file system, if the process is still alive. */
    method Effect(after: Files) returns (alive: bool)
      requires Valid()
      modifies this
      ensures Valid() && Performed(limit, old(states), [after], states, alive)
    {
      alive := limit.None? || effects < limit.value;
      if alive {
        files, effects, states := after, effects + 1, states + [after];
      }
    }

    /** A further effect, if the process survived the ones before. */
    method Next(ghost start: seq<Files>, ghost done: seq<Files>, so: bool, after: Files) returns (alive: bool)
      requires Valid() && Performed(limit, start, done, states, so)
      modifies this
      ensures Valid() && Performed(limit, start, done + [after], states, alive)
    {
      alive := false;
      if so {
        ghost var mid := states;
        alive := Effect(after);
        PerformedMore(limit, start, done, mid, [after], states, alive);
      } else {
        PerformedDead(limit, start, done, [after], states);
      }
    }

    method WriteAtomic(p: Payload) returns (alive: bool)
      requires Valid()
      modifies this
      ensures Valid() && Performed(limit, old(states), Writes(old(files), p, torn), states, alive)
    {
      ghost var start, run := states, Writes(files, p, torn);
      var partial, before := PartialOf(p.path), files;
      var k := if torn < |p.content| then torn else |p.content|;
      PerformedNone(limit, states);
      alive := Next(start, [], true, before[partial := ""]);
      alive := Next(start, [] + [run[0]], alive, before[partial := p.content[..k]]);
      alive := Next(start, [] + [run[0]] + [run[1]], alive, before[partial := p.content]);
      alive := Next(start, [] + [run[0]] + [run[1]] + [run[2]], alive, before[p.path := p.content]);
      assert run == [] + [run[0]] + [run[1]] + [run[2]] + [run[3]];
    }

    method WriteOnce(p: Payload) returns (alive: bool, refusal: Option<Refusal>)
      requires Valid() && p.guard.Once?
      modifies this
      ensures Valid() && Performed(limit, old(states), StepRun(sha, old(files), p, torn).states, states, alive)
      ensures refusal == StepRun(sha, old(files), p, torn).refusal
    {
      PerformedNone(limit, states);
      alive, refusal := true, None;
      if p.path in files {
        if files[p.path] != p.content {
          refusal := Some(Conflict);
        }
        return;
      }
      if PartialOf(p.path) in files {
        refusal := Some(AdjacentPartial);
        return;
      }
      alive := WriteAtomic(p);
    }

    method ReplaceExpected(p: Payload) returns (alive: bool, refusal: Option<Refusal>)
      requires Valid() && p.guard.Replaces?
      modifies this
      ensures Valid() && Performed(limit, old(states), StepRun(sha, old(files), p, torn).states, states, alive)
      ensures refusal == StepRun(sha, old(files), p, torn).refusal
    {
      PerformedNone(limit, states);
      alive, refusal := true, None;
      if !sha.wellFormed(p.guard.expected) {
        refusal := Some(Malformed);
        return;
      }
      if p.path !in files {
        refusal := Some(Missing);
        return;
      }
      if files[p.path] == p.content {
        return;
      }
      if sha.of(files[p.path]) != p.guard.expected {
        refusal := Some(Frontier);
        return;
      }
      if PartialOf(p.path) in files {
        refusal := Some(AdjacentPartial);
        return;
      }
      alive := WriteAtomic(p);
    }

    method RequireExpected(p: Payload) returns (refusal: Option<Refusal>)
      requires p.guard.Replaces?
      ensures refusal == Expected(sha, files, p)
      ensures refusal.None? <==> Acceptable(sha, files, p)
    {
      if !sha.wellFormed(p.guard.expected) {
        return Some(Malformed);
      }
      if p.path !in files {
        return Some(Missing);
      }
      var current := files[p.path];
      return if current != p.content && sha.of(current) != p.guard.expected then Some(Frontier) else None;
    }

    /** The loop over the payloads. */
    method Steps(ps: seq<Payload>) returns (outcome: Outcome)
      requires Valid()
      modifies this
      ensures Valid() && Performed(limit, old(states), StepsRun(sha, old(files), ps, torn).states, states,
                                   !outcome.Crashed?)
      ensures !outcome.Crashed? ==> outcome == OutcomeOf(StepsRun(sha, old(files), ps, torn).refusal)
    {
      ghost var states0, whole := states, StepsRun(sha, files, ps, torn);
      ghost var done: seq<Files> := [];
      PerformedNone(limit, states);
      assert ps[0..] == ps;
      assert done + whole.states == whole.states;
      for i := 0 to |ps|
        invariant Valid() && Performed(limit, states0, done, states, true)
        invariant whole.states == done + StepsRun(sha, files, ps[i..], torn).states
        invariant whole.refusal == StepsRun(sha, files, ps[i..], torn).refusal
      {
        assert ps[i..][0] == ps[i] && ps[i..][1..] == ps[i + 1..];
        ghost var start, files1 := states, files;
        ghost var step := StepRun(sha, files, ps[i], torn);
        ghost var rest := StepsRun(sha, Final(files, step.states), ps[i + 1..], torn);
        var alive, refusal;
        if ps[i].guard.Once? {
          alive, refusal := WriteOnce(ps[i]);
        } else {
          alive, refusal := ReplaceExpected(ps[i]);
        }
        PerformedMore(limit, states0, done, start, step.states, states, alive);
        if !alive {
          PerformedDead(limit, states0, done + step.states, rest.states, states);
          Assoc(done, step.states, rest.states);
          return Crashed;
        }
        if refusal.Some? {
          return Refused(refusal.value);
        }
        Assoc(done, step.states, rest.states);
        StepFinal(origin, start, step.states, states, limit);
        done := done + step.states;
      }
      assert done + [] == done;
      return Prepared;
    }

    /** The whole preparation: every check first, then the five files in order. */
    method Prepare(r: Request) returns (outcome: Outcome)
      requires Valid() && WellGuarded(r)
      modifies this
      ensures Valid() && Performed(limit, old(states), PrepareRun(sha, old(files), r, torn).states, states,
                                   !outcome.Crashed?)
      ensures !outcome.Crashed? ==> outcome == OutcomeOf(PrepareRun(sha, old(files), r, torn).refusal)
      ensures Separate(r.Payloads()) && !outcome.Crashed? ==>
                (outcome.Prepared? <==> r.sound && AllPass(sha, old(files), r.Payloads()))
      ensures Separate(r.Payloads()) && outcome.Prepared? ==>
                files == old(files)[r.response.path := r.response.content][r.checksum.path := r.checksum.content]
                         [r.handoff.path := r.handoff.content][r.feature.path := r.feature.content]
                         [r.state.path := r.state.content]
      ensures Separate(r.Payloads()) && outcome.Refused? ==> Refuses(sha, old(files), r, outcome.why)
    {
      ghost var before, states0 := files, states;
      PerformedNone(limit, states);
      if Separate(r.Payloads()) {
        PrepareMeets(sha, files, r, torn);
        PlacedFive(files, r);
      }
      if !r.sound {
        return Refused(Preflight);
      }
      var refusal := RequireExpected(r.feature);
      if refusal.Some? {
        return Refused(refusal.value);
      }
      refusal := RequireExpected(r.state);
      if refusal.Some? {
        return Refused(refusal.value);
      }
      outcome := Steps(r.Payloads());
      if !outcome.Crashed? {
        StepFinal(origin, states0, PrepareRun(sha, before, r, torn).states, states, limit);
      }
    }
  }

  function OutcomeOf(refusal: Option<Refusal>): Outcome {
    if refusal.Some? then Refused(refusal.value) else Prepared
  }

  lemma StepFinal(origin: Files, s0: seq<Files>, step: seq<Files>, s1: seq<Files>, limit: Option<nat>)
    requires Performed(limit, s0, step, s1, true)
    ensures Final(origin, s1) == Final(Final(origin, s0), step)
  {
    assert step[..|step|] == step;
    FinalConcat(origin, s0, step);
  }
}
