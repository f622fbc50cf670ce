/** Interrupted preparations: what a second run finds, and what is in place at every moment. */
module PublicationLaws {
  import opened Common
  import opened Publication

  ghost predicate InPlace(f: Files, p: Payload) {
    p.path in f && f[p.path] == p.content
  }

  /** A step on this payload would pass it over. */
  ghost predicate Settled(sha: Sha, f: Files, p: Payload) {
    InPlace(f, p) && (p.guard.Replaces? ==> sha.wellFormed(p.guard.expected))
  }

  ghost predicate AllSettled(sha: Sha, f: Files, ps: seq<Payload>) {
    forall i :: 0 <= i < |ps| ==> Settled(sha, f, ps[i])
  }

  /** The interruption left no partial of its own behind. */
  ghost predicate Clean(f: Files, g: Files, ps: seq<Payload>) {
    forall i :: 0 <= i < |ps| && PartialOf(ps[i].path) in g ==> PartialOf(ps[i].path) in f
  }

  /** Where the files stand after the first n effects. */
  function At(f: Files, run: Run, n: nat): Files
    requires n <= |run.states|
  {
    Final(f, run.states[..n])
  }

  lemma {:induction false} SettledSkip(sha: Sha, f: Files, before: seq<Payload>, ps: seq<Payload>, torn: nat)
    requires AllSettled(sha, f, before)
    ensures StepsRun(sha, f, before + ps, torn) == StepsRun(sha, f, ps, torn)
    decreases |before|
  {
    if before == [] {
      assert before + ps == ps;
    } else {
      assert Settled(sha, f, before[0]);
      assert (before + ps)[1..] == before[1..] + ps;
      SettledSkip(sha, f, before[1..], ps, torn);
      var rest := StepsRun(sha, f, ps, torn);
      assert [] + rest.states == rest.states;
    }
  }

  /** Where a run ends does not depend on how its writes were torn. */
  lemma {:induction false} TornIrrelevant(sha: Sha, f: Files, ps: seq<Payload>, t: nat, u: nat)
    ensures Final(f, StepsRun(sha, f, ps, t).states) == Final(f, StepsRun(sha, f, ps, u).states)
    ensures StepsRun(sha, f, ps, t).refusal == StepsRun(sha, f, ps, u).refusal
    decreases |ps|
  {
    if ps != [] {
      var a, b := StepRun(sha, f, ps[0], t), StepRun(sha, f, ps[0], u);
      if a.refusal.None? {
        var mid := Final(f, a.states);
        assert mid == Final(f, b.states);
        TornIrrelevant(sha, mid, ps[1..], t, u);
        FinalConcat(f, a.states, StepsRun(sha, mid, ps[1..], t).states);
        FinalConcat(f, b.states, StepsRun(sha, mid, ps[1..], u).states);
      }
    }
  }

  /** The same content, or the same absence, at a path. */
  ghost predicate SameAt(f: Files, g: Files, x: Path) {
    (x in f <==> x in g) && (x in f ==> f[x] == g[x])
  }

  ghost predicate Apart(x: Path, ps: seq<Payload>) {
    forall i :: 0 <= i < |ps| ==> x != ps[i].path && x != PartialOf(ps[i].path)
  }

  lemma WritesElsewhere(f: Files, p: Payload, torn: nat, m: nat, x: Path)
    requires m <= 4 && x != p.path && x != PartialOf(p.path)
    ensures SameAt(f, Final(f, Writes(f, p, torn)[..m]), x)
  {
  }

  /** The state after n effects of a step and the steps behind it. */
  lemma SplitAt(f: Files, first: seq<Files>, rest: seq<Files>, n: nat)
    requires n <= |first| + |rest|
    ensures Final(f, (first + rest)[..n]) ==
            if n < |first| then Final(f, first[..n]) else Final(Final(f, first), rest[..n - |first|])
  {
    if n < |first| {
      assert (first + rest)[..n] == first[..n];
    } else {
      assert (first + rest)[..n] == first + rest[..n - |first|];
      FinalConcat(f, first, rest[..n - |first|]);
    }
  }

  lemma ThenAt(f: Files, first: Run, rest: Run, n: nat)
    requires n <= |Then(first, rest).states| && (first.refusal.Some? ==> first.states == [])
    ensures n < |first.states| ==> At(f, Then(first, rest), n) == Final(f, first.states[..n])
    ensures n >= |first.states| && n > 0 ==>
              first.refusal.None? && n - |first.states| <= |rest.states|
              && At(f, Then(first, rest), n) == At(Final(f, first.states), rest, n - |first.states|)
  {
    if first.refusal.None? {
      SplitAt(f, first.states, rest.states, n);
    }
  }

  lemma RefusedStepIdle(sha: Sha, f: Files, p: Payload, torn: nat)
    ensures StepRun(sha, f, p, torn).refusal.Some? ==> StepRun(sha, f, p, torn).states == []
  {
  }

  /** A moment of a run is one of its first step, or one of the run of the remaining steps from where the
      first one ended. */
  lemma StepsAt(sha: Sha, f: Files, ps: seq<Payload>, torn: nat, n: nat) returns (first: Run, mid: Files, later: Run)
    requires ps != [] && n <= |StepsRun(sha, f, ps, torn).states|
    ensures first == StepRun(sha, f, ps[0], torn) && mid == Final(f, first.states)
            && later == StepsRun(sha, mid, ps[1..], torn)
    ensures n < |first.states| ==> At(f, StepsRun(sha, f, ps, torn), n) == Final(f, first.states[..n])
    ensures n >= |first.states| && n > 0 ==>
              first.refusal.None? && n - |first.states| <= |later.states|
              && At(f, StepsRun(sha, f, ps, torn), n) == At(mid, later, n - |first.states|)
  {
    RefusedStepIdle(sha, f, ps[0], torn);
    first := StepRun(sha, f, ps[0], torn);
    mid := Final(f, first.states);
    later := StepsRun(sha, mid, ps[1..], torn);
    ThenAt(f, first, later, n);
  }

  /** A run touches only its targets and their partials. */
  lemma {:induction false} Untouched(sha: Sha, f: Files, ps: seq<Payload>, torn: nat, n: nat, x: Path)
    requires n <= |StepsRun(sha, f, ps, torn).states| && Apart(x, ps)
    ensures SameAt(f, At(f, StepsRun(sha, f, ps, torn), n), x)
    decreases |ps|
  {
    if ps != [] {
      var first := StepRun(sha, f, ps[0], torn);
      if first.refusal.None? {
        var mid := Final(f, first.states);
        var rest := StepsRun(sha, mid, ps[1..], torn);
        SplitAt(f, first.states, rest.states, n);
        if first.states != [] {
          WritesElsewhere(f, ps[0], torn, if n < 4 then n else 4, x);
          assert first.states[..4] == first.states;
        }
        if n > |first.states| {
          Untouched(sha, mid, ps[1..], torn, n - |first.states|, x);
        }
      }
    }
  }

  lemma SeparateParts(before: seq<Payload>, p: Payload, rest: seq<Payload>)
    requires Separate(before + ([p] + rest))
    ensures before + [p] + rest == before + ([p] + rest)
    ensures p.path != PartialOf(p.path) && Apart(p.path, rest) && Apart(PartialOf(p.path), rest)
    ensures forall i :: 0 <= i < |before| ==>
              before[i].path != p.path && before[i].path != PartialOf(p.path) && Apart(before[i].path, rest)
  {
    var all := before + ([p] + rest);
    Assoc(before, [p], rest);
    assert all[|before|] == p;
    assert forall i :: 0 <= i < |before| ==> all[i] == before[i];
    assert forall i :: 0 <= i < |rest| ==> all[|before| + 1 + i] == rest[i];
    forall i | 0 <= i < |rest| ensures PartialOf(p.path) != PartialOf(rest[i].path) {
      if PartialOf(p.path) == PartialOf(rest[i].path) {
        PartialInjective(p.path, rest[i].path);
      }
    }
  }

  // ---- interrupted inside a step ----

  lemma HalfWritten(sha: Sha, f: Files, p: Payload, x: Bytes, g: Files)
    requires MoveFor(sha, f, p).Place? && p.path != PartialOf(p.path) && g == f[PartialOf(p.path) := x]
    ensures MoveFor(sha, g, p) == Stop(AdjacentPartial)
  {
  }

  /** A rerun after an interruption: the same end, or refused because of the partial that was left. */
  ghost predicate Resumes(sha: Sha, f: Files, g: Files, ps: seq<Payload>, run: Run, again: Run) {
    if Clean(f, g, ps) then Final(g, again.states) == Final(f, run.states) && again.refusal == run.refusal
    else again == Run([], Some(AdjacentPartial))
  }

  lemma SettledAfter(sha: Sha, f: Files, g: Files, before: seq<Payload>)
    requires AllSettled(sha, f, before) && forall i :: 0 <= i < |before| ==> SameAt(f, g, before[i].path)
    ensures AllSettled(sha, g, before)
  {
    forall i | 0 <= i < |before| ensures Settled(sha, g, before[i]) {
      assert Settled(sha, f, before[i]) && SameAt(f, g, before[i].path);
    }
  }

  lemma InsideStep(sha: Sha, before: seq<Payload>, f: Files, p: Payload, rest: seq<Payload>, torn: nat, again: nat,
                   n: nat)
    requires Separate(before + ([p] + rest)) && AllSettled(sha, f, before) && MoveFor(sha, f, p).Place? && 0 < n < 4
    ensures var g := Final(f, Writes(f, p, torn)[..n]);
            !Clean(f, g, [p] + rest) && StepsRun(sha, g, before + ([p] + rest), again) == Run([], Some(AdjacentPartial))
  {
    SeparateParts(before, p, rest);
    var g := Final(f, Writes(f, p, torn)[..n]);
    assert g == f[PartialOf(p.path) := g[PartialOf(p.path)]];
    HalfWritten(sha, f, p, g[PartialOf(p.path)], g);
    SettledAfter(sha, f, g, before);
    SettledSkip(sha, g, before, [p] + rest, again);
    assert ([p] + rest)[0] == p && PartialOf(p.path) !in f;
  }

  lemma StoppedInside(sha: Sha, before: seq<Payload>, f: Files, ps: seq<Payload>, torn: nat, again: nat, n: nat,
                      first: Run)
    requires ps != [] && Separate(before + ([ps[0]] + ps[1..])) && AllSettled(sha, f, before)
    requires first == StepRun(sha, f, ps[0], torn) && 0 < n < |first.states|
    ensures var g := Final(f, first.states[..n]);
            !Clean(f, g, ps) && StepsRun(sha, g, before + ps, again) == Run([], Some(AdjacentPartial))
  {
    HeadTail(ps);
    InsideStep(sha, before, f, ps[0], ps[1..], torn, again, n);
  }

  /** `all` are the payloads settled before and those to come. */
  lemma {:induction false} StepsResume(sha: Sha, before: seq<Payload>, f: Files, ps: seq<Payload>, all: seq<Payload>,
                                       torn: nat, again: nat, n: nat)
    requires all == before + ps && Separate(all) && AllSettled(sha, f, before)
             && n <= |StepsRun(sha, f, ps, torn).states|
    ensures var run := StepsRun(sha, f, ps, torn);
            Resumes(sha, f, At(f, run, n), ps, run, StepsRun(sha, At(f, run, n), all, again))
    decreases |ps|
  {
    if n == 0 || n < |StepRun(sha, f, ps[0], torn).states| {
      ResumesEarly(sha, before, f, ps, torn, again, n);
    } else {
      HeadTail(ps);
      SeparateParts(before, ps[0], ps[1..]);
      var first, mid, later := StepsAt(sha, f, ps, torn, n);
      PassedStep(sha, before, f, ps[0], ps[1..], torn, mid);
      StepsResume(sha, before + [ps[0]], mid, ps[1..], all, torn, again, n - |first.states|);
      ResumesLater(sha, before, f, ps, all, torn, again, n - |first.states|, first, mid, later);
    }
  }

  /** Stopped before the first step was over. */
  lemma ResumesEarly(sha: Sha, before: seq<Payload>, f: Files, ps: seq<Payload>, torn: nat, again: nat, n: nat)
    requires Separate(before + ps) && AllSettled(sha, f, before) && n <= |StepsRun(sha, f, ps, torn).states|
    requires n == 0 || (ps != [] && n < |StepRun(sha, f, ps[0], torn).states|)
    ensures var run := StepsRun(sha, f, ps, torn);
            Resumes(sha, f, At(f, run, n), ps, run, StepsRun(sha, At(f, run, n), before + ps, again))
  {
    if n == 0 {
      ResumesAtStart(sha, before, f, ps, torn, again);
    } else {
      HeadTail(ps);
      var first, mid, later := StepsAt(sha, f, ps, torn, n);
      StoppedInside(sha, before, f, ps, torn, again, n, first);
    }
  }

  lemma ResumesAtStart(sha: Sha, before: seq<Payload>, f: Files, ps: seq<Payload>, torn: nat, again: nat)
    requires Separate(before + ps) && AllSettled(sha, f, before)
    ensures var run := StepsRun(sha, f, ps, torn);
            Resumes(sha, f, At(f, run, 0), ps, run, StepsRun(sha, At(f, run, 0), before + ps, again))
  {
    assert StepsRun(sha, f, ps, torn).states[..0] == [];
    SettledSkip(sha, f, before, ps, again);
    TornIrrelevant(sha, f, ps, torn, again);
  }

  /** What holds of the run after its first step holds of the whole run. */
  lemma ResumesLater(sha: Sha, before: seq<Payload>, f: Files, ps: seq<Payload>, all: seq<Payload>, torn: nat,
                     again: nat, m: nat, first: Run, mid: Files, later: Run)
    requires ps != [] && Separate(all) && all == before + ([ps[0]] + ps[1..]) && first == StepRun(sha, f, ps[0], torn)
             && first.refusal.None?
    requires mid == Final(f, first.states) && later == StepsRun(sha, mid, ps[1..], torn) && m <= |later.states|
    requires mid == f || mid == f[ps[0].path := ps[0].content]
    requires Resumes(sha, mid, At(mid, later, m), ps[1..], later, StepsRun(sha, At(mid, later, m), all, again))
    ensures Resumes(sha, f, At(mid, later, m), ps, StepsRun(sha, f, ps, torn),
                    StepsRun(sha, At(mid, later, m), all, again))
  {
    var g := At(mid, later, m);
    HeadTail(ps);
    SeparateParts(before, ps[0], ps[1..]);
    Untouched(sha, mid, ps[1..], torn, m, PartialOf(ps[0].path));
    CleanAfter(f, mid, g, ps[0], ps[1..]);
    ResumesEarlier(sha, f, g, ps, first, later, StepsRun(sha, g, all, again));
  }

  lemma ResumesEarlier(sha: Sha, f: Files, g: Files, ps: seq<Payload>, first: Run, later: Run, rerun: Run)
    requires ps != [] && first.refusal.None? && Resumes(sha, Final(f, first.states), g, ps[1..], later, rerun)
    requires Clean(f, g, ps) <==> Clean(Final(f, first.states), g, ps[1..])
    ensures Resumes(sha, f, g, ps, Then(first, later), rerun)
  {
    FinalConcat(f, first.states, later.states);
  }

  /** After a step that was not refused its payload is settled, and so are those before it. */
  lemma PassedStep(sha: Sha, before: seq<Payload>, f: Files, p: Payload, rest: seq<Payload>, torn: nat, mid: Files)
    requires Separate(before + ([p] + rest)) && AllSettled(sha, f, before)
    requires StepRun(sha, f, p, torn).refusal.None? && mid == Final(f, StepRun(sha, f, p, torn).states)
    ensures AllSettled(sha, mid, before + [p])
    ensures mid == f || mid == f[p.path := p.content]
  {
    SeparateParts(before, p, rest);
    SettledAfter(sha, f, mid, before);
    assert Settled(sha, mid, p);
  }

  lemma CleanAfter(f: Files, mid: Files, g: Files, p: Payload, rest: seq<Payload>)
    requires mid == f || mid == f[p.path := p.content]
    requires p.path != PartialOf(p.path) && Apart(p.path, rest) && SameAt(mid, g, PartialOf(p.path))
    requires forall i :: 0 <= i < |rest| ==> p.path != PartialOf(rest[i].path)
    ensures Clean(f, g, [p] + rest) <==> Clean(mid, g, rest)
  {
    var ps := [p] + rest;
    assert ps[0] == p && forall i :: 0 <= i < |rest| ==> ps[i + 1] == rest[i];
  }

  // ---- the whole preparation ----

  /** At a path that is no partial: what was there before, or the exact bytes of a payload for it. */
  ghost predicate OldOrNew(f: Files, g: Files, ps: seq<Payload>, x: Path) {
    SameAt(f, g, x) || exists k :: 0 <= k < |ps| && ps[k].path == x && InPlace(g, ps[k])
  }

  lemma OldOrNewStep(f: Files, mid: Files, g: Files, p: Payload, rest: seq<Payload>, x: Path)
    requires (mid == f || mid == f[p.path := p.content]) && OldOrNew(mid, g, rest, x)
    ensures OldOrNew(f, g, [p] + rest, x)
  {
    var ps := [p] + rest;
    assert ps[0] == p && forall i :: 0 <= i < |rest| ==> ps[i + 1] == rest[i];
    if SameAt(mid, g, x) {
      if mid != f && x == p.path {
        assert InPlace(g, ps[0]);
      }
    } else {
      var k :| 0 <= k < |rest| && rest[k].path == x && InPlace(g, rest[k]);
      assert ps[k + 1].path == x && InPlace(g, ps[k + 1]);
    }
  }

  /** The first effects of one step: its target untouched until the last one. */
  lemma StepMoment(sha: Sha, f: Files, p: Payload, torn: nat, m: nat, x: Path)
    requires m <= |StepRun(sha, f, p, torn).states| && p.path != PartialOf(p.path) && x != PartialOf(p.path)
    ensures var g := Final(f, StepRun(sha, f, p, torn).states[..m]);
            if m == |StepRun(sha, f, p, torn).states| then g == f || g == f[p.path := p.content] else SameAt(f, g, x)
  {
  }

  lemma {:induction false} Moment(sha: Sha, f: Files, ps: seq<Payload>, torn: nat, n: nat, x: Path)
    requires n <= |StepsRun(sha, f, ps, torn).states| && Separate(ps)
    requires forall i :: 0 <= i < |ps| ==> x != PartialOf(ps[i].path)
    ensures OldOrNew(f, At(f, StepsRun(sha, f, ps, torn), n), ps, x)
    decreases |ps|
  {
    if n == 0 || ps == [] {
      assert StepsRun(sha, f, ps, torn).states[..0] == [];
    } else {
      var first, mid, later := StepsAt(sha, f, ps, torn, n);
      SeparateHead(ps);
      if n < |first.states| {
        MomentFirst(sha, f, ps, torn, n, x);
      } else {
        SeparateTail(ps);
        Moment(sha, mid, ps[1..], torn, n - |first.states|, x);
        MomentLater(sha, f, ps, torn, first, mid, At(mid, later, n - |first.states|), x);
      }
    }
  }

  lemma MomentFirst(sha: Sha, f: Files, ps: seq<Payload>, torn: nat, n: nat, x: Path)
    requires ps != [] && n < |StepRun(sha, f, ps[0], torn).states|
    requires ps[0].path != PartialOf(ps[0].path) && x != PartialOf(ps[0].path)
    ensures OldOrNew(f, Final(f, StepRun(sha, f, ps[0], torn).states[..n]), ps, x)
  {
    StepMoment(sha, f, ps[0], torn, n, x);
  }

  lemma MomentLater(sha: Sha, f: Files, ps: seq<Payload>, torn: nat, first: Run, mid: Files, g: Files, x: Path)
    requires ps != [] && ps[0].path != PartialOf(ps[0].path) && x != PartialOf(ps[0].path)
    requires first == StepRun(sha, f, ps[0], torn) && mid == Final(f, first.states) && OldOrNew(mid, g, ps[1..], x)
    ensures OldOrNew(f, g, ps, x)
  {
    assert first.states[..|first.states|] == first.states;
    StepMoment(sha, f, ps[0], torn, |first.states|, x);
    OldOrNewStep(f, mid, g, ps[0], ps[1..], x);
    HeadTail(ps);
  }

  lemma SeparateHead(ps: seq<Payload>)
    requires ps != [] && Separate(ps)
    ensures ps[0].path != PartialOf(ps[0].path) && Apart(PartialOf(ps[0].path), ps[1..]) && Apart(ps[0].path, ps[1..])
    ensures forall i :: 0 <= i < |ps[1..]| ==> ps[0].path != PartialOf(ps[1..][i].path)
  {
    HeadTail(ps);
    assert [] + ([ps[0]] + ps[1..]) == ps;
    SeparateParts([], ps[0], ps[1..]);
  }

  lemma SeparateTail(ps: seq<Payload>)
    requires ps != [] && Separate(ps)
    ensures Separate(ps[1..])
  {
    var rest := ps[1..];
    forall i, j | 0 <= i < j < |rest| ensures rest[i].path != rest[j].path {
      assert rest[i] == ps[i + 1] && rest[j] == ps[j + 1];
    }
    forall i, j | 0 <= i < |rest| && 0 <= j < |rest| ensures rest[i].path != PartialOf(rest[j].path) {
      assert rest[i] == ps[i + 1] && rest[j] == ps[j + 1];
    }
  }

  /** A control document that was acceptable stays acceptable while its own publication proceeds. */
  lemma StillExpected(sha: Sha, f: Files, ps: seq<Payload>, torn: nat, n: nat, k: nat)
    requires n <= |StepsRun(sha, f, ps, torn).states| && Separate(ps) && k < |ps| && ps[k].guard.Replaces?
    requires Expected(sha, f, ps[k]).None?
    ensures Expected(sha, At(f, StepsRun(sha, f, ps, torn), n), ps[k]).None?
  {
    var g := At(f, StepsRun(sha, f, ps, torn), n);
    Moment(sha, f, ps, torn, n, ps[k].path);
    if !SameAt(f, g, ps[k].path) {
      var j :| 0 <= j < |ps| && ps[j].path == ps[k].path && InPlace(g, ps[j]);
      assert j == k by { DistinctPaths(ps, j, k); }
    }
  }

  lemma DistinctPaths(ps: seq<Payload>, j: nat, k: nat)
    requires Separate(ps) && j < |ps| && k < |ps| && ps[j].path == ps[k].path
    ensures j == k
  {
  }

  /** Interrupting a preparation after any effect and repeating the request: if the interruption left no
      partial of its own, the second run ends in the same files and the same verdict as an uninterrupted
      one; if it did, the second run changes nothing and names the unexplained partial. */
  lemma PrepareResumes(sha: Sha, f: Files, r: Request, torn: nat, again: nat, n: nat)
    requires WellGuarded(r) && Separate(r.Payloads()) && n <= |PrepareRun(sha, f, r, torn).states|
    ensures var run := PrepareRun(sha, f, r, torn);
            Resumes(sha, f, At(f, run, n), r.Payloads(), run, PrepareRun(sha, At(f, run, n), r, again))
  {
    var run := PrepareRun(sha, f, r, torn);
    if n == 0 {
      assert run.states[..0] == [];
      TornIrrelevant(sha, f, r.Payloads(), torn, again);
    } else {
      var ps := r.Payloads();
      assert ps[3] == r.feature && ps[4] == r.state;
      StillExpected(sha, f, ps, torn, n, 3);
      StillExpected(sha, f, ps, torn, n, 4);
      assert [] + ps == ps;
      StepsResume(sha, [], f, ps, ps, torn, again, n);
    }
  }

  /** The first steps of a run are a run of the first payloads. */
  lemma {:induction false} DonePrefix(sha: Sha, f: Files, ps: seq<Payload>, torn: nat, done: nat)
    requires done <= |ps| && StepsRun(sha, f, ps[..done], torn).refusal.None?
    ensures StepsRun(sha, f, ps[..done], torn).states <= StepsRun(sha, f, ps, torn).states
    decreases |ps|
  {
    if done > 0 {
      var short := ps[..done];
      assert short[0] == ps[0] && short[1..] == ps[1..][..done - 1];
      var first := StepRun(sha, f, ps[0], torn);
      DonePrefix(sha, Final(f, first.states), ps[1..], torn, done - 1);
    }
  }

  lemma {:induction false} DoneClean(sha: Sha, f: Files, ps: seq<Payload>, torn: nat, done: nat)
    requires Separate(ps) && done <= |ps| && StepsRun(sha, f, ps[..done], torn).refusal.None?
    ensures Clean(f, Final(f, StepsRun(sha, f, ps[..done], torn).states), ps)
    decreases |ps|
  {
    if done > 0 {
      var p, rest := ps[0], ps[1..];
      assert ps[..done][0] == p && ps[..done][1..] == rest[..done - 1];
      var first := StepRun(sha, f, p, torn);
      var mid := Final(f, first.states);
      var short := StepsRun(sha, mid, rest[..done - 1], torn);
      SeparateHead(ps);
      SeparateTail(ps);
      DoneClean(sha, mid, rest, torn, done - 1);
      FinalConcat(f, first.states, short.states);
      StepMoment(sha, f, p, torn, |first.states|, p.path);
      assert first.states[..|first.states|] == first.states && short.states[..|short.states|] == short.states;
      Untouched(sha, mid, rest[..done - 1], torn, |short.states|, PartialOf(p.path));
      CleanAfter(f, mid, Final(mid, short.states), p, rest);
      HeadTail(ps);
    }
  }

  /** Stopping after a completed step leaves no partial, so that the rerun ends as the uninterrupted run. */
  lemma CompletedStepsResume(sha: Sha, f: Files, r: Request, torn: nat, again: nat, done: nat)
    requires WellGuarded(r) && Separate(r.Payloads()) && done <= 5 && PrepareRun(sha, f, r, torn).states != []
    requires StepsRun(sha, f, r.Payloads()[..done], torn).refusal.None?
    ensures var g, run := Final(f, StepsRun(sha, f, r.Payloads()[..done], torn).states), PrepareRun(sha, f, r, torn);
            var rerun := PrepareRun(sha, g, r, again);
            Final(g, rerun.states) == Final(f, run.states) && rerun.refusal == run.refusal
  {
    var ps := r.Payloads();
    DonePrefix(sha, f, ps, torn, done);
    DoneClean(sha, f, ps, torn, done);
    PrepareResumes(sha, f, r, torn, again, |StepsRun(sha, f, ps[..done], torn).states|);
  }

  // ---- what is in place at every moment ----

  /** A later file in place means every earlier one is: state, then feature, handoff, checksum, response. */
  ghost predicate InOrder(f: Files, ps: seq<Payload>) {
    forall i, j :: 0 <= i < j < |ps| && InPlace(f, ps[j]) ==> InPlace(f, ps[i])
  }

  lemma {:induction false} StepsInOrder(sha: Sha, before: seq<Payload>, f: Files, ps: seq<Payload>, torn: nat, n: nat)
    requires Separate(before + ps) && AllSettled(sha, f, before) && InOrder(f, before + ps)
    requires n <= |StepsRun(sha, f, ps, torn).states|
    ensures InOrder(At(f, StepsRun(sha, f, ps, torn), n), before + ps)
    decreases |ps|
  {
    var run := StepsRun(sha, f, ps, torn);
    if n == 0 {
      assert run.states[..0] == [];
    } else {
      var p, rest := ps[0], ps[1..];
      HeadTail(ps);
      var first, mid, later := StepsAt(sha, f, ps, torn, n);
      if n < |first.states| {
        assert (before + ps)[|before|] == p;
        SameTargetsOrder(f, Final(f, first.states[..n]), before + ps, p, torn, n);
      } else {
        NextInOrder(sha, before, f, p, rest, torn, mid);
        StepsInOrder(sha, before + [p], mid, rest, torn, n - |first.states|);
      }
    }
  }

  /** A completed step hands the order on. */
  lemma NextInOrder(sha: Sha, before: seq<Payload>, f: Files, p: Payload, rest: seq<Payload>, torn: nat, mid: Files)
    requires Separate(before + ([p] + rest)) && AllSettled(sha, f, before) && InOrder(f, before + ([p] + rest))
    requires StepRun(sha, f, p, torn).refusal.None? && mid == Final(f, StepRun(sha, f, p, torn).states)
    ensures before + [p] + rest == before + ([p] + rest)
    ensures AllSettled(sha, mid, before + [p]) && InOrder(mid, before + [p] + rest)
  {
    SeparateParts(before, p, rest);
    PassedStep(sha, before, f, p, rest, torn, mid);
    PlacedInOrder(sha, before, f, mid, p, rest);
  }

  lemma SameTargetsOrder(f: Files, g: Files, ps: seq<Payload>, p: Payload, torn: nat, n: nat)
    requires Separate(ps) && p in ps && InOrder(f, ps) && n < 4 && g == Final(f, Writes(f, p, torn)[..n])
    ensures InOrder(g, ps)
  {
    forall k | 0 <= k < |ps| ensures InPlace(g, ps[k]) <==> InPlace(f, ps[k]) {
      var i :| 0 <= i < |ps| && ps[i] == p;
      assert ps[k].path != PartialOf(ps[i].path);
    }
  }

  lemma PlacedInOrder(sha: Sha, before: seq<Payload>, f: Files, mid: Files, p: Payload, rest: seq<Payload>)
    requires Separate(before + ([p] + rest)) && InOrder(f, before + ([p] + rest)) && AllSettled(sha, mid, before + [p])
    requires mid == f || mid == f[p.path := p.content]
    ensures InOrder(mid, before + [p] + rest)
  {
    var ps := before + [p] + rest;
    SeparateParts(before, p, rest);
    assert ps == before + ([p] + rest);
    forall i, j | 0 <= i < j < |ps| && InPlace(mid, ps[j]) ensures InPlace(mid, ps[i]) {
      if i <= |before| {
        assert ps[i] == (before + [p])[i];
        assert Settled(sha, mid, (before + [p])[i]);
      } else {
        assert ps[i] == rest[i - |before| - 1] && ps[j] == rest[j - |before| - 1];
        assert InPlace(f, ps[j]);
      }
    }
  }

  /** At every moment of a preparation, torn writes included: the state document in place implies the
      feature document, the handoff, the checksum and the response in place with their exact bytes. */
  lemma AlwaysInOrder(sha: Sha, f: Files, r: Request, torn: nat, n: nat)
    requires WellGuarded(r) && Separate(r.Payloads()) && InOrder(f, r.Payloads())
    requires n <= |PrepareRun(sha, f, r, torn).states|
    ensures InOrder(At(f, PrepareRun(sha, f, r, torn), n), r.Payloads())
  {
    var ps := r.Payloads();
    if n == 0 {
      assert PrepareRun(sha, f, r, torn).states[..0] == [];
    } else {
      assert [] + ps == ps;
      StepsInOrder(sha, [], f, ps, torn, n);
    }
  }

  /** A run that is not refused ends with all five files in place. */
  lemma {:induction false} CompletedInPlace(sha: Sha, before: seq<Payload>, f: Files, ps: seq<Payload>, torn: nat)
    requires Separate(before + ps) && AllSettled(sha, f, before) && StepsRun(sha, f, ps, torn).refusal.None?
    ensures AllSettled(sha, Final(f, StepsRun(sha, f, ps, torn).states), before + ps)
    decreases |ps|
  {
    if ps == [] {
      assert before + ps == before;
    } else {
      var p, rest := ps[0], ps[1..];
      HeadTail(ps);
      var first := StepRun(sha, f, p, torn);
      var mid := Final(f, first.states);
      SeparateParts(before, p, rest);
      PassedStep(sha, before, f, p, rest, torn, mid);
      CompletedInPlace(sha, before + [p], mid, rest, torn);
      FinalConcat(f, first.states, StepsRun(sha, mid, rest, torn).states);
    }
  }

  /** A control document that is neither the expected old bytes nor the new bytes: nothing is written,
      and whatever is written at all, both control documents had been one or the other. */
  lemma UnexpectedControlWritesNothing(sha: Sha, f: Files, r: Request, torn: nat, control: Payload)
    requires WellGuarded(r) && (control == r.feature || control == r.state)
    requires PrepareRun(sha, f, r, torn).states != []
    ensures control.path in f && (f[control.path] == control.content
                                  || sha.of(f[control.path]) == control.guard.expected)
  {
  }
}
