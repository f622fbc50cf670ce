/** One pilot as it runs in its process. Every system call it makes is a step of the shared machine, and
    before each of them the other processes take a turn of any length. */
module Ceremony {
  import opened Common
  import opened Pilot

  /** A name that turned out to be in use: the reason behind the error "file exists". */
  datatype Taken = TakenFile(file: File) | TakenRoot(root: Root)

  /** How a private write or a publication ended. */
  datatype Written = Done | Exists(what: Taken) | Failed

  /** Where the operating system refuses, if it does: the directories above, the temporary, its filling, the
      link, or the removal of the temporary; `left` says that the clean-up cannot remove it either. */
  datatype Fault = Smooth | Unsafe | NoTemp | NoFill | NoLink(left: bool) | NoUnlink(left: bool)

  datatype Draw = Draw(nonce: string, fault: Fault)

  /** Whether the new root can be made, and synced. */
  datatype Ground = Firm | NoRoot | Unsynced

  datatype Phase = PreCheck | Discovery | ListShown | RoutePublished | PreviewShown | Delivery

  datatype Outcome =
    | Delivered
    | TargetNotSelected
    | ToolingFailureBeforeList
    | RouteConflict
    | HumanDeclined
    | FailedBeforeWrite
    | Uncertain
    | PostListTerminal

  /** The exceptions the ceremony tells apart. */
  datatype Raise = Terminal | FileExists | Tooling

  /** What the delivery does; `begun` says it came as far as its journal. */
  datatype Attempt = Returned(outcome: Outcome) | Declined(begun: bool) | Refused(begun: bool)
    | Escaped(raise: Raise, begun: bool) {
    predicate Begun() { Returned? || begun }
  }

  /** Everything the ceremony is told from outside: `upset` is what the terminal check or the making of the
      private directories raises before publication, `halt` what the caller's hook or the terminal check
      raises after the preview, and the published bytes are `readable` at first and `reread` at the end. */
  datatype Fortune = Fortune(
    ready: bool, listed: bool, selected: bool, upset: Option<Raise>, ground: Ground, readable: bool, shown: bool,
    halt: Option<Raise>, attempt: Attempt, reread: bool, journalGood: bool)

  datatype Report = Report(outcome: Outcome, phase: Phase, listShown: bool, guardFailed: bool, cause: Option<Raise>,
                           taken: Option<Taken>)

  predicate Even(draws: Stage -> Draw, a: Stage, b: Stage) {
    draws(a).fault.Smooth? && draws(b).fault.Smooth?
  }

  /** A ceremony stops short of the delivery only for a reason: something outside fails, the person
      declines, or a name is taken. */
  predicate Excused(f: Fortune, draws: Stage -> Draw, phase: Phase, raised: Option<Raise>, taken: Option<Taken>) {
    && (taken.Some? ==> raised == Some(FileExists) && (phase.PreCheck? || phase.ListShown?))
    && match phase
       case PreCheck => !f.ready || taken.Some?
       case Discovery => !f.listed
       case ListShown => !f.selected || f.upset.Some? || taken.Some? || !f.ground.Firm?
                         || !Even(draws, Registering, Locating)
       case RoutePublished => !f.readable || !f.shown
       case PreviewShown => f.halt.Some? || !Even(draws, Marking, Composing)
       case Delivery => raised.None? <==> f.attempt.Returned?
  }

  /** The outcome in force when the try body ends, given how far it came and what it raised. */
  function Verdict(f: Fortune, phase: Phase, routed: bool, raised: Option<Raise>): Outcome
    requires raised.None? ==> f.attempt.Returned?
  {
    match raised
    case None => f.attempt.outcome
    case Some(Terminal) => if !routed then TargetNotSelected else if f.attempt.Declined? then HumanDeclined
      else PostListTerminal
    case Some(FileExists) => if phase.PreCheck? then RouteConflict else ToolingFailureBeforeList
    case Some(Tooling) => ToolingFailureBeforeList
  }

  /** An exception from outside: only "file exists" is told apart. */
  function Outside(e: Raise): Raise {
    if e.FileExists? then FileExists else Tooling
  }

  lemma {:induction false} RunConcat(plans: map<Pid, Plan>, s: Sys, xs: seq<Step>, t: Sys, ys: seq<Step>)
    requires s.pcs.Keys == plans.Keys && t.pcs.Keys == plans.Keys && Run(plans, s, xs) == Some(t)
    ensures Run(plans, s, xs + ys) == Run(plans, t, ys)
  {
    if ys == [] {
      assert xs + ys == xs;
    } else {
      var short := ys[..|ys| - 1];
      RunConcat(plans, s, xs, t, short);
      assert (xs + ys)[..|xs + ys| - 1] == xs + short && (xs + ys)[|xs + ys| - 1] == ys[|ys| - 1];
    }
  }

  lemma RunSnoc(plans: map<Pid, Plan>, s: Sys, xs: seq<Step>, t: Sys, step: Step)
    requires s.pcs.Keys == plans.Keys && t.pcs.Keys == plans.Keys && Run(plans, s, xs) == Some(t)
    ensures Run(plans, s, xs + [step]) == Exec(plans, t, step)
  {
    assert (xs + [step])[..|xs + [step]| - 1] == xs;
  }

  // ---- what the others leave alone ----

  /** Whatever `p` has: its place, its home, and whether it passed or delivered. */
  predicate Unmoved(s: Sys, t: Sys, p: Pid)
    requires p in s.pcs && p in t.pcs
  {
    && t.pcs[p] == s.pcs[p] && (p in t.passed <==> p in s.passed) && (p in t.delivered <==> p in s.delivered)
    && (p in t.homes <==> p in s.homes) && (p in s.homes ==> t.homes[p] == s.homes[p])
  }

  lemma StepSpares(plans: map<Pid, Plan>, s: Sys, step: Step, p: Pid)
    requires s.pcs.Keys == plans.Keys && p in plans && step.p != p && Exec(plans, s, step).Some?
    ensures Unmoved(s, Exec(plans, s, step).value, p)
  {
  }

  lemma {:induction false} RunSpares(plans: map<Pid, Plan>, s: Sys, steps: seq<Step>, p: Pid)
    requires s.pcs.Keys == plans.Keys && p in plans && Run(plans, s, steps).Some? && Others(steps, p)
    ensures Unmoved(s, Run(plans, s, steps).value, p)
  {
    if steps != [] {
      var short := steps[..|steps| - 1];
      RunSpares(plans, s, short, p);
      StepSpares(plans, Run(plans, s, short).value, steps[|steps| - 1], p);
    }
  }

  predicate Others(steps: seq<Step>, me: Pid) {
    forall k :: 0 <= k < |steps| ==> steps[k].p != me
  }

  /** The state after a turn of the others. */
  function Turned(plans: map<Pid, Plan>, s: Sys, steps: seq<Step>, me: Pid): Sys
    requires s.pcs.Keys == plans.Keys
    ensures Turned(plans, s, steps, me).pcs.Keys == plans.Keys
  {
    if Others(steps, me) && Run(plans, s, steps).Some? then Run(plans, s, steps).value else s
  }

  /** A step that draws neither this root nor this nonce. */
  predicate Distinct(step: Step, root: Root, nonce: string) {
    (step.MakeRoot? ==> step.root != root) && (step.MakeTemp? ==> step.nonce != nonce)
  }

  predicate Holding(pc: Pc) {
    pc.TempMade? || pc.Linked?
  }

  predicate Unrootedly(pc: Pc) {
    pc.Start? || pc.Chosen? || pc.Unrooted?
  }

  predicate BeforeLocator(pc: Pc) {
    Unrootedly(pc) || ((pc.Writing? || Holding(pc)) && pc.stage.Registering?) || (pc.Writing? && pc.stage.Locating?)
  }

  /** What random names are for: as long as nobody else draws them, a pilot's root and its temporaries are
      its own. `nonce` is that of the locator's temporary, the only one outside the root. */
  ghost predicate Sheltered(plans: map<Pid, Plan>, s: Sys, me: Pid, root: Root, nonce: string)
    requires s.pcs.Keys == plans.Keys && me in plans
  {
    var pc := s.pcs[me];
    && (Unrootedly(pc) ==> root !in s.roots)
    && (BeforeLocator(pc) ==> Temporary(Locator(plans[me].name), nonce) !in s.files)
    && (Holding(pc) ==> Temporary(plans[me].Target(pc.root, pc.stage), pc.nonce) in s.files)
    && (Holding(pc) && pc.stage.Locating? ==> pc.nonce == nonce)
    && (forall q :: q in s.pcs && q != me && Holding(s.pcs[q]) ==> s.pcs[q].nonce != nonce)
  }

  /** Another pilot's step makes neither the root nor a temporary of this nonce. */
  lemma StepDraws(plans: map<Pid, Plan>, s: Sys, step: Step, root: Root, nonce: string, target: File)
    requires s.pcs.Keys == plans.Keys && Distinct(step, root, nonce) && Exec(plans, s, step).Some?
    requires Holding(s.pcs[step.p]) ==> s.pcs[step.p].nonce != nonce
    ensures var t := Exec(plans, s, step).value;
            && (root in t.roots ==> root in s.roots)
            && (Temporary(target, nonce) in t.files ==> Temporary(target, nonce) in s.files)
            && (Holding(t.pcs[step.p]) ==> t.pcs[step.p].nonce != nonce)
            && t.pcs == s.pcs[step.p := t.pcs[step.p]]
  {
  }

  /** Nor does it take away a temporary that is not its own. */
  lemma StepLeavesTemp(plans: map<Pid, Plan>, s: Sys, step: Step, temp: File)
    requires s.pcs.Keys == plans.Keys && Exec(plans, s, step).Some? && temp.Temporary?
    requires var pc := s.pcs[step.p];
             Holding(pc) ==> temp != Temporary(plans[step.p].Target(pc.root, pc.stage), pc.nonce)
    ensures temp in s.files ==> temp in Exec(plans, s, step).value.files
  {
  }

  lemma StepShelters(plans: map<Pid, Plan>, s: Sys, step: Step, me: Pid, root: Root, nonce: string)
    requires s.pcs.Keys == plans.Keys && Roots(s.roots, s.pcs) && me in plans && Sheltered(plans, s, me, root, nonce)
    requires step.p != me && Distinct(step, root, nonce) && Exec(plans, s, step).Some?
    ensures Sheltered(plans, Exec(plans, s, step).value, me, root, nonce)
  {
    StepDraws(plans, s, step, root, nonce, Locator(plans[me].name));
    var pc := s.pcs[me];
    if Holding(pc) {
      assert RootOf(s.pcs[step.p]).Some? ==> RootOf(s.pcs[step.p]) != RootOf(pc);
      StepLeavesTemp(plans, s, step, Temporary(plans[me].Target(pc.root, pc.stage), pc.nonce));
    }
  }

  lemma {:induction false} RunShelters(plans: map<Pid, Plan>, s: Sys, steps: seq<Step>, me: Pid, root: Root,
                                       nonce: string)
    requires Inv(plans, s) && me in plans && Sheltered(plans, s, me, root, nonce)
    requires Others(steps, me) && (forall k :: 0 <= k < |steps| ==> Distinct(steps[k], root, nonce))
    requires Run(plans, s, steps).Some?
    ensures Sheltered(plans, Run(plans, s, steps).value, me, root, nonce)
  {
    if steps != [] {
      var short := steps[..|steps| - 1];
      RunShelters(plans, s, short, me, root, nonce);
      RunKeeps(plans, s, short);
      StepShelters(plans, Run(plans, s, short).value, steps[|steps| - 1], me, root, nonce);
    }
  }

  /** Clearing a root: its files one by one, and the root itself if nothing is left in it. */
  function Cleared(s: Sys, root: Root): Sys {
    var files := s.files - FilesOf(root);
    s.(files := files, roots := if Occupied(files, root) then s.roots else s.roots - {root})
  }

  /** Faults that leave the temporary behind. */
  predicate Leaves(fault: Fault) {
    fault.NoFill? || (fault.NoLink? && fault.left) || (fault.NoUnlink? && fault.left)
  }

  /** A step of the pilot itself that uses its own names. */
  predicate Mine(s: Sys, step: Step, me: Pid, root: Root, nonce: string)
    requires me in s.pcs
  {
    && step.p == me && (step.MakeRoot? ==> step.root == root)
    && (step.MakeTemp? && s.pcs[me].Writing? && s.pcs[me].stage.Locating? ==> step.nonce == nonce)
  }

  lemma OwnStepShelters(plans: map<Pid, Plan>, s: Sys, step: Step, me: Pid, root: Root, nonce: string)
    requires s.pcs.Keys == plans.Keys && me in plans && Sheltered(plans, s, me, root, nonce)
    requires Mine(s, step, me, root, nonce) && Exec(plans, s, step).Some?
    ensures Sheltered(plans, Exec(plans, s, step).value, me, root, nonce)
  {
    var t := Exec(plans, s, step).value;
    assert t.pcs == s.pcs[me := t.pcs[me]];
    OwnStepRoot(plans, s, step, me, root, nonce, t);
    OwnStepTemp(plans, s, step, me, root, nonce, t);
  }

  lemma OwnStepRoot(plans: map<Pid, Plan>, s: Sys, step: Step, me: Pid, root: Root, nonce: string, t: Sys)
    requires s.pcs.Keys == plans.Keys && me in plans && Mine(s, step, me, root, nonce)
             && Exec(plans, s, step) == Some(t)
    ensures Unrootedly(t.pcs[me]) ==> Unrootedly(s.pcs[me]) && (root in t.roots ==> root in s.roots)
    ensures BeforeLocator(t.pcs[me]) ==>
              BeforeLocator(s.pcs[me]) && forall n :: Temporary(Locator(plans[me].name), n) in t.files ==>
                Temporary(Locator(plans[me].name), n) in s.files
  {
  }

  lemma OwnStepTemp(plans: map<Pid, Plan>, s: Sys, step: Step, me: Pid, root: Root, nonce: string, t: Sys)
    requires s.pcs.Keys == plans.Keys && me in plans && Mine(s, step, me, root, nonce)
             && Exec(plans, s, step) == Some(t)
    requires var pc := s.pcs[me]; Holding(pc) ==> Temporary(plans[me].Target(pc.root, pc.stage), pc.nonce) in s.files
    requires var pc := s.pcs[me]; Holding(pc) && pc.stage.Locating? ==> pc.nonce == nonce
    ensures var pc := t.pcs[me]; Holding(pc) ==> Temporary(plans[me].Target(pc.root, pc.stage), pc.nonce) in t.files
    ensures var pc := t.pcs[me]; Holding(pc) && pc.stage.Locating? ==> pc.nonce == nonce
  {
  }

  lemma NotYet(plan: Plan, files: map<File, Bytes>, root: Root, stage: Stage)
    requires Fits(plan, files, Writing(root, stage)) && !stage.Locating?
    ensures plan.Target(root, stage) !in files
    ensures forall nonce :: Temporary(plan.Target(root, stage), nonce) !in files
  {
  }

  lemma NotLinked(plan: Plan, files: map<File, Bytes>, root: Root, stage: Stage, nonce: string)
    requires Fits(plan, files, TempMade(root, stage, nonce)) && !stage.Locating?
    ensures plan.Target(root, stage) !in files
  {
  }

  lemma NoJournal(plan: Plan, files: map<File, Bytes>, pc: Pc, root: Root)
    requires Fits(plan, files, pc) && (pc == Previewed(root) || pc == Delivering(root))
    ensures JournalFile(root) !in files && (pc.Previewed? ==> Marker(root) !in files)
  {
    assert HomeOf(JournalFile(root)) == HomeOf(Marker(root)) == Some(root);
  }

  /** A registry or locator its pilot has linked holds the pilot's bytes. */
  lemma Sealed(plans: map<Pid, Plan>, s: Sys, p: Pid, root: Root, stage: Stage)
    requires s.pcs.Keys == plans.Keys && Locators(plans, s.files, s.pcs) && Registries(plans, s.files, s.pcs)
             && p in plans
    ensures s.pcs[p] == NextStage(root, stage) && (stage.Registering? || stage.Locating?) ==>
              var target := plans[p].Target(root, stage);
              target in s.files && s.files[target] == plans[p].Content(root, stage)
    ensures s.pcs[p] == Published(root) ==> Intact(plans[p], s.files, root)
  {
    if s.pcs[p] == Published(root) {
      assert Holds(plans[p], s.files, s.pcs[p]);
    }
    if Registered(s.pcs[p]) {
      assert Keeps(plans[p], s.files, s.pcs[p]);
    }
  }

  lemma Lone(plans: map<Pid, Plan>, pcs: map<Pid, Pc>, passed: seq<Pid>, p: Pid)
    requires pcs.Keys == plans.Keys && OnePerName(plans, pcs, passed)
    ensures p in passed ==> forall q :: q in passed && q != p ==> q in plans && plans[q].name != plans[p].name
  {
    if p in passed {
      forall q | q in passed && q != p ensures q in plans && plans[q].name != plans[p].name {
        DistinctNames(plans, pcs, passed, q, p);
      }
    }
  }

  /** The files everyone shares, and the pilot this process runs. */
  class Host {
    const plans: map<Pid, Plan>
    const me: Pid
    const root: Root
    const draws: Stage -> Draw
    const others: nat -> seq<Step>
    var files: map<File, Bytes>
    var roots: set<Root>
    var pcs: map<Pid, Pc>
    var passed: seq<Pid>
    var homes: map<Pid, Root>
    var delivered: seq<Pid>
    var turns: nat
    ghost const origin: Sys
    ghost var trace: seq<Step>

    function State(): Sys
      reads this
    {
      Sys(files, roots, pcs, passed, homes, delivered)
    }

    /** No other process draws this pilot's root or the nonce of its locator. */
    ghost predicate Quiet() {
      forall n: nat, k :: 0 <= k < |others(n)| ==> Distinct(others(n)[k], root, draws(Locating).nonce)
    }

    ghost predicate Own(s: Sys)
      requires s.pcs.Keys == plans.Keys && me in plans
    {
      Sheltered(plans, s, me, root, draws(Locating).nonce)
    }

    /** What happened so far, here and elsewhere, is a run of the machine that ends here. */
    ghost predicate Sane(s: Sys)
      reads this`trace
      requires s.pcs.Keys == plans.Keys && me in plans
    {
      Initial(plans, origin) && Run(plans, origin, trace) == Some(s) && (Quiet() ==> Own(s))
    }

    ghost predicate Valid()
      reads this
    {
      && me in plans && pcs.Keys == plans.Keys && (me in passed ==> me in homes && homes[me] == root)
      && forall s: Sys :: s == State() ==> Sane(s)
    }

    lemma Screened()
      requires Valid()
      ensures Sane(State())
    {
    }

    /** Whether this pilot has passed and delivered is as before. */
    twostate predicate Still()
      reads this
    {
      (me in passed <==> me in old(passed)) && (me in delivered <==> me in old(delivered))
    }

    constructor (plans: map<Pid, Plan>, me: Pid, root: Root, draws: Stage -> Draw, others: nat -> seq<Step>)
      requires me in plans
      ensures Valid() && this.plans == plans && this.me == me && this.root == root && this.draws == draws
              && this.others == others
      ensures pcs[me] == Start && me !in passed && me !in delivered
      ensures State() == Sys(map[], {}, map p | p in plans :: Start, [], map[], []) && turns == 0
    {
      this.plans, this.me, this.root, this.draws, this.others := plans, me, root, draws, others;
      files, roots, passed, homes, delivered, turns, trace := map[], {}, [], map[], [], 0, [];
      pcs := map p | p in plans :: Start;
      origin := Sys(map[], {}, map p | p in plans :: Start, [], map[], []);
    }

    lemma Sound()
      requires Valid()
      ensures Inv(plans, State())
    {
      Screened();
      InitialInv(plans, origin);
      RunKeeps(plans, origin, trace);
    }

    lemma Neat()
      requires Valid()
      ensures Fits(plans[me], files, pcs[me])
    {
      Sound();
      FitsNow(plans, files, pcs, me);
    }

    /** A file about to be written in the root is not there, nor is any temporary of it. */
    lemma Unspent(stage: Stage)
      requires Valid() && pcs[me] == Writing(root, stage) && !stage.Locating?
      ensures plans[me].Target(root, stage) !in files
      ensures forall nonce :: Temporary(plans[me].Target(root, stage), nonce) !in files
    {
      Neat();
      NotYet(plans[me], files, root, stage);
    }

    lemma Unlinked(stage: Stage, nonce: string)
      requires Valid() && pcs[me] == TempMade(root, stage, nonce) && !stage.Locating?
      ensures plans[me].Target(root, stage) !in files
    {
      Neat();
      NotLinked(plans[me], files, root, stage, nonce);
    }

    /** A registry or locator this pilot has linked holds its bytes. */
    lemma Sealing(stage: Stage)
      requires Valid() && pcs[me] == NextStage(root, stage)
      ensures (stage.Registering? || stage.Locating?) ==>
                var target := plans[me].Target(root, stage);
                target in files && files[target] == plans[me].Content(root, stage)
      ensures stage.Locating? ==> Intact(plans[me], files, root)
    {
      Sound();
      Sealed(plans, State(), me, root, stage);
    }

    lemma Unopened()
      requires Valid() && (pcs[me] == Previewed(root) || pcs[me] == Delivering(root))
      ensures JournalFile(root) !in files && (pcs[me].Previewed? ==> Marker(root) !in files)
    {
      Neat();
      NoJournal(plans[me], files, pcs[me], root);
    }

    /** About to deliver, this pilot finds its own marker and its own message. */
    predicate Composed()
      reads this
    {
      && me in plans && Marker(root) in files && files[Marker(root)] == plans[me].marker
      && Message(root) in files && files[Message(root)] == plans[me].message
    }

    lemma Lettering()
      requires Valid() && pcs[me] == Delivering(root)
      ensures Composed()
    {
      Screened();
      DeliveryIsComposed(plans, origin, trace, me, root);
    }

    /** What this pilot published is there, and its journal if it has opened it. */
    lemma Housed()
      requires Valid() && me in passed
      ensures HomeKept(plans[me], files, root, me in delivered)
    {
      Sound();
      PassedHome(plans, State(), me);
    }

    /** No other pilot of this locator name came past publication. */
    ghost predicate Unrivalled()
      reads this
    {
      me in plans && forall q :: q in passed && q != me ==> q in plans && plans[q].name != plans[me].name
    }

    lemma Only()
      requires Valid() && me in passed
      ensures Unrivalled()
    {
      Sound();
      Lone(plans, pcs, passed, me);
    }

    ghost method Log(before: Sys, step: Step)
      requires me in plans && before.pcs.Keys == plans.Keys && Sane(before)
      requires Exec(plans, before, step) == Some(State()) && Mine(before, step, me, root, draws(Locating).nonce)
      requires me in passed ==> me in homes && homes[me] == root
      modifies this`trace
      ensures Valid()
    {
      RunSnoc(plans, origin, trace, before, step);
      if Quiet() {
        OwnStepShelters(plans, before, step, me, root, draws(Locating).nonce);
      }
      trace := trace + [step];
    }

    ghost function Turn(): Sys
      reads this
      requires pcs.Keys == plans.Keys
    {
      Turned(plans, State(), others(turns), me)
    }

    lemma TurnSpares()
      requires Valid()
      ensures Unmoved(State(), Turn(), me) && (Quiet() ==> Own(Turn()))
      ensures forall name :: Locator(name) in files ==> Locator(name) in Turn().files
    {
      Screened();
      var steps := others(turns);
      if Others(steps, me) && Run(plans, State(), steps).Some? {
        RunSpares(plans, State(), steps, me);
        forall name | Locator(name) in files ensures Locator(name) in Turn().files {
          LocatorStays(plans, State(), steps, name);
        }
        if Quiet() {
          Sound();
          RunShelters(plans, State(), steps, me, root, draws(Locating).nonce);
        }
      }
    }

    method Adopt(next: Sys, ghost steps: seq<Step>)
      requires Valid() && next.pcs.Keys == plans.Keys && Run(plans, State(), steps) == Some(next)
      requires Unmoved(State(), next, me) && (Quiet() ==> Own(next))
      modifies this
      ensures Valid() && State() == next && turns == old(turns)
    {
      Screened();
      RunConcat(plans, origin, trace, State(), steps);
      trace := trace + steps;
      files, roots, pcs := next.files, next.roots, next.pcs;
      passed, homes, delivered := next.passed, next.homes, next.delivered;
      assert State() == next;
    }

    /** The other processes take a turn. */
    method Yield()
      requires Valid()
      modifies this
      ensures Valid() && State() == old(Turn()) && turns == old(turns) + 1
      ensures pcs[me] == old(pcs[me]) && Still()
      ensures forall name :: Locator(name) in old(files) ==> Locator(name) in files
    {
      TurnSpares();
      var steps := others(turns);
      turns := turns + 1;
      if forall k :: 0 <= k < |steps| ==> steps[k].p != me {
        var next := Run(plans, State(), steps);
        if next.Some? {
          Adopt(next.value, steps);
        }
      }
    }

    /** Look for the locator: at the start, and again before publication. */
    method LocatorThere() returns (there: bool)
      requires Valid() && (pcs[me].Start? || pcs[me].Chosen?)
      modifies this
      ensures Valid() && there == (Locator(plans[me].name) in files) && Still()
      ensures State() == Goto(old(Turn()), me,
                              if there then Ended else if old(pcs[me]).Start? then Chosen else Unrooted)
      ensures turns == old(turns) + 1
    {
      Yield();
      Screened();
      ghost var before := State();
      var first := pcs[me].Start?;
      there := Locator(plans[me].name) in files;
      pcs := pcs[me := if there then Ended else if first then Chosen else Unrooted];
      Log(before, if first then Precheck(me) else Recheck(me));
    }

    /** Leave, whatever the reason. */
    method Stop()
      requires Valid()
      modifies this`pcs, this`trace
      ensures Valid() && pcs[me] == Ended && Still()
    {
      Screened();
      ghost var before := State();
      pcs := pcs[me := Ended];
      Log(before, Die(me));
    }

    /** A new root. Its name is random, and in use only if somebody else drew it. */
    method MakeRoot(ground: Ground) returns (w: Written)
      requires Valid() && pcs[me].Unrooted?
      modifies this
      ensures Valid() && pcs[me] == (if w.Done? then Writing(root, Registering) else Ended) && Still()
      ensures (w.Done? ==> ground.Firm?) && (w.Failed? ==> !ground.Firm?)
      ensures w.Exists? ==> w.what == TakenRoot(root) && root in roots && !Quiet()
      ensures forall name :: Locator(name) in old(files) ==> Locator(name) in files
    {
      Yield();
      Screened();
      if ground.NoRoot? {
        Stop();
        return Failed;
      }
      var taken := root in roots;
      PutRoot();
      if !taken && ground.Unsynced? {
        Stop();
        return Failed;
      }
      w := if taken then Exists(TakenRoot(root)) else Done;
    }

    method PutRoot()
      requires Valid() && pcs[me].Unrooted?
      modifies this`roots, this`pcs, this`trace
      ensures Valid() && pcs[me] == (if root in old(roots) then Ended else Writing(root, Registering)) && Still()
      ensures roots == old(roots) + {root}
    {
      Screened();
      ghost var before := State();
      pcs := pcs[me := if root in roots then Ended else Writing(root, Registering)];
      roots := roots + {root};
      assert root in before.roots ==> roots == before.roots;
      Log(before, Pilot.MakeRoot(me, root));
    }

    /** A write that failed before its temporary. */
    method Falter(stage: Stage)
      requires Valid() && pcs[me] == Writing(root, stage)
      modifies this`pcs, this`trace
      ensures Valid() && pcs[me] == Broken(root, stage) && Still()
    {
      Screened();
      ghost var before := State();
      pcs := pcs[me := Broken(root, stage)];
      Log(before, Break(me, false));
    }

    function TempOf(stage: Stage): File
      requires me in plans
    {
      Temporary(plans[me].Target(root, stage), draws(stage).nonce)
    }

    /** The temporary, made and filled, unless the target or the temporary is there already; with random
        names of its own, only the locator can be. */
    method MakeTemp(stage: Stage) returns (w: Written)
      requires Valid() && pcs[me] == Writing(root, stage)
      modifies this
      ensures Valid() && pcs[me] == (if w.Done? then TempMade(root, stage, draws(stage).nonce) else Broken(root, stage))
              && Still()
      ensures w.Exists? ==> w.what == TakenFile(plans[me].Target(root, stage)) || w.what == TakenFile(TempOf(stage))
      ensures w.Exists? ==>
                w.what.file in files && stage.Locating? && (Quiet() ==> w.what.file == Locator(plans[me].name))
      ensures Quiet() ==> (TempOf(stage) in files <==> w.Done?)
      ensures (w.Failed? ==> draws(stage).fault.Unsafe? || draws(stage).fault.NoTemp?)
      ensures (w.Done? ==> !draws(stage).fault.Unsafe? && !draws(stage).fault.NoTemp?)
      ensures forall name :: Locator(name) in old(files) ==> Locator(name) in files
    {
      Yield();
      Screened();
      var fault, target, temp := draws(stage).fault, plans[me].Target(root, stage), TempOf(stage);
      if !stage.Locating? {
        Unspent(stage);
      }
      if fault.Unsafe? || target in files || fault.NoTemp? || temp in files {
        Falter(stage);
        return if fault.Unsafe? then Failed else if target in files then Exists(TakenFile(target))
               else if fault.NoTemp? then Failed else Exists(TakenFile(temp));
      }
      PutTemp(stage);
      return Done;
    }

    method PutTemp(stage: Stage)
      requires Valid() && pcs[me] == Writing(root, stage)
      requires plans[me].Target(root, stage) !in files && TempOf(stage) !in files
      modifies this`files, this`pcs, this`trace
      ensures Valid() && pcs[me] == TempMade(root, stage, draws(stage).nonce) && Still()
      ensures files == old(files)[TempOf(stage) := plans[me].Content(root, stage)]
    {
      Screened();
      ghost var before := State();
      files := files[TempOf(stage) := plans[me].Content(root, stage)];
      pcs := pcs[me := TempMade(root, stage, draws(stage).nonce)];
      Log(before, Pilot.MakeTemp(me, draws(stage).nonce));
    }

    /** A write that failed past its temporary. */
    method Drop(stage: Stage, left: bool)
      requires Valid() && (pcs[me] == TempMade(root, stage, draws(stage).nonce)
                           || pcs[me] == Linked(root, stage, draws(stage).nonce))
      modifies this`files, this`pcs, this`trace
      ensures Valid() && pcs[me] == Broken(root, stage) && Still()
      ensures files == if left then old(files) else old(files) - {TempOf(stage)}
    {
      Screened();
      ghost var before := State();
      if !left {
        files := files - {TempOf(stage)};
      }
      pcs := pcs[me := Broken(root, stage)];
      assert BreakStep(plans, before, me, left) == Some(State());
      Log(before, Break(me, left));
    }

    /** The exclusive link: it fails when the target exists, and then the temporary goes, unless it is stuck. */
    method LinkTemp(stage: Stage, stuck: bool) returns (w: Written)
      requires Valid() && pcs[me] == TempMade(root, stage, draws(stage).nonce)
      modifies this
      ensures Valid() && pcs[me] == (if w.Done? then Linked(root, stage, draws(stage).nonce) else Broken(root, stage))
              && Still()
      ensures w.Exists? ==> w.what == TakenFile(Locator(plans[me].name)) && w.what.file in files && stage.Locating?
      ensures w.Failed? ==> stuck
      ensures Quiet() ==> (TempOf(stage) in files <==> !w.Exists?)
      ensures forall name :: Locator(name) in old(files) ==> Locator(name) in files
    {
      Yield();
      Screened();
      var target := plans[me].Target(root, stage);
      if !stage.Locating? {
        Unlinked(stage, draws(stage).nonce);
      }
      if target in files {
        Drop(stage, stuck);
        return if stuck then Failed else Exists(TakenFile(target));
      }
      PutLink(stage);
      return Done;
    }

    method PutLink(stage: Stage)
      requires Valid() && pcs[me] == TempMade(root, stage, draws(stage).nonce)
               && plans[me].Target(root, stage) !in files
      modifies this`files, this`pcs, this`trace
      ensures Valid() && pcs[me] == Linked(root, stage, draws(stage).nonce) && Still()
      ensures files == old(files)[plans[me].Target(root, stage) := plans[me].Content(root, stage)]
    {
      Screened();
      ghost var before := State();
      files := files[plans[me].Target(root, stage) := plans[me].Content(root, stage)];
      pcs := pcs[me := Linked(root, stage, draws(stage).nonce)];
      Log(before, Link(me));
    }

    /** Removing the temporary; that of the locator makes the pilot pass. */
    method UnlinkTemp(stage: Stage)
      requires Valid() && pcs[me] == Linked(root, stage, draws(stage).nonce)
      modifies this
      ensures Valid() && pcs[me] == NextStage(root, stage)
      ensures (me in passed <==> me in old(passed) || stage.Locating?) && (me in delivered <==> me in old(delivered))
      ensures TempOf(stage) !in files
    {
      Yield();
      if stage.Locating? {
        Pass();
      } else {
        TakeTemp(stage);
      }
    }

    method TakeTemp(stage: Stage)
      requires Valid() && pcs[me] == Linked(root, stage, draws(stage).nonce) && !stage.Locating?
      modifies this`files, this`pcs, this`trace
      ensures Valid() && pcs[me] == NextStage(root, stage) && files == old(files) - {TempOf(stage)}
    {
      Screened();
      ghost var before := State();
      files := files - {TempOf(stage)};
      pcs := pcs[me := NextStage(root, stage)];
      Log(before, Unlink(me));
    }

    method Pass()
      requires Valid() && pcs[me] == Linked(root, Locating, draws(Locating).nonce)
      modifies this`files, this`pcs, this`passed, this`homes, this`trace
      ensures Valid() && pcs[me] == Published(root) && files == old(files) - {TempOf(Locating)} && me in passed
    {
      Screened();
      ghost var before := State();
      files := files - {TempOf(Locating)};
      pcs := pcs[me := Published(root)];
      passed, homes := passed + [me], homes[me := root];
      Log(before, Unlink(me));
    }

    /** All of a file under its name, or nothing of it there. A published file holds its own bytes; only the
        locator can be found in place already; and the temporary stays behind exactly when the write failed at
        its filling, or failed at the link or the removal and the clean-up failed too. */
    method WriteExclusiveAtomic(stage: Stage) returns (w: Written)
      requires Valid() && pcs[me] == Writing(root, stage)
      modifies this
      ensures Valid() && pcs[me] == if w.Done? then NextStage(root, stage) else Broken(root, stage)
      ensures (me in passed <==> me in old(passed) || (w.Done? && stage.Locating?))
              && (me in delivered <==> me in old(delivered))
      ensures (w.Done? ==> draws(stage).fault.Smooth?) && (w.Failed? ==> !draws(stage).fault.Smooth?)
      ensures w.Done? && (stage.Registering? || stage.Locating?) ==>
                var target := plans[me].Target(root, stage);
                target in files && files[target] == plans[me].Content(root, stage)
      ensures w.Exists? ==>
                stage.Locating? && (w.what == TakenFile(Locator(plans[me].name))
                                    || w.what == TakenFile(TempOf(Locating)))
      ensures w.Exists? ==> w.what.file in files && (Quiet() ==> w.what.file == Locator(plans[me].name))
      ensures Quiet() ==> (TempOf(stage) in files <==> w.Failed? && Leaves(draws(stage).fault))
    {
      var fault := draws(stage).fault;
      w := MakeTemp(stage);
      if !w.Done? {
        return w;
      }
      if fault.NoFill? || fault.NoLink? {
        Drop(stage, Leaves(fault));
        return Failed;
      }
      w := LinkTemp(stage, Leaves(fault));
      if !w.Done? {
        return w;
      }
      if fault.NoUnlink? {
        Drop(stage, Leaves(fault));
        return Failed;
      }
      UnlinkTemp(stage);
      Sealing(stage);
    }

    method RemoveChildren()
      modifies this`files
      ensures files == old(files) - FilesOf(root)
    {
      var children := [Registry(root), Message(root), Marker(root), JournalFile(root)];
      ghost var gone: set<File> := {};
      for k := 0 to |children|
        invariant gone == set c | c in children[..k]
        invariant files == old(files) - gone
      {
        files := files - {children[k]};
        gone := gone + {children[k]};
        assert children[..k + 1] == children[..k] + [children[k]];
      }
      assert children[..|children|] == children;
      assert gone == FilesOf(root);
    }

    method ClearRoot()
      modifies this`files, this`roots
      ensures State() == Cleared(old(State()), root)
    {
      RemoveChildren();
      if !Occupied(files, root) {
        roots := roots - {root};
      }
    }

    /** A failed publication with no locator in place takes the pilot's own files away, and then its root
        unless something is left in it; with a locator in place it touches nothing. */
    method Abandon(stage: Stage)
      requires Valid() && pcs[me] == Broken(root, stage) && (stage.Registering? || stage.Locating?)
      modifies this
      ensures Valid() && pcs[me] == Ended && Still()
      ensures var s := old(Turn());
              State() == Goto(if Locator(plans[me].name) in s.files then s else Cleared(s, root), me, Ended)
      ensures Locator(plans[me].name) in old(files) ==> Locator(plans[me].name) in files
    {
      Yield();
      Screened();
      ghost var before := State();
      if Locator(plans[me].name) !in files {
        ClearRoot();
      }
      pcs := pcs[me := Ended];
      assert AbandonStep(plans, before, me) == Some(State());
      Log(before, Pilot.Abandon(me));
    }

    function LocatorFile(): Option<Taken>
      requires me in plans
    {
      Some(TakenFile(Locator(plans[me].name)))
    }

    predicate LocatorTaken(w: Written)
      requires me in plans
    {
      w.Exists? && Some(w.what) == LocatorFile()
    }

    /** Publish the route: the second locator check, a new root, the registry, then the exclusive locator. */
    method PublishRoute(ground: Ground) returns (w: Written)
      requires Valid() && pcs[me].Chosen? && me !in passed
      modifies this
      ensures Valid() && (w.Done? <==> me in passed) && (me in delivered <==> me in old(delivered))
      ensures pcs[me] == if w.Done? then Published(root) else Ended
      ensures w.Done? ==> Intact(plans[me], files, root) && ground.Firm? && Even(draws, Registering, Locating)
      ensures w.Failed? ==> !ground.Firm? || !Even(draws, Registering, Locating)
      ensures w.Exists? ==> LocatorTaken(w) || w.what == TakenRoot(root) || w.what == TakenFile(TempOf(Locating))
      ensures LocatorTaken(w) ==> Locator(plans[me].name) in files
      ensures w.Exists? && Quiet() ==> LocatorTaken(w)
      ensures Locator(plans[me].name) in old(Turn()).files ==> LocatorTaken(w)
    {
      var there := LocatorThere();
      if there {
        return Exists(TakenFile(Locator(plans[me].name)));
      }
      w := MakeRoot(ground);
      if !w.Done? {
        return w;
      }
      w := WriteExclusiveAtomic(Registering);
      var reached := Registering;
      if w.Done? {
        reached := Locating;
        w := WriteExclusiveAtomic(Locating);
      }
      if !w.Done? {
        Abandon(reached);
        return w;
      }
      Sealing(Locating);
    }

    /** Reading the route back fails only if it cannot be read: it is as published. */
    method RevalidateRoute(readable: bool) returns (ok: bool)
      requires Valid() && pcs[me] == Published(root)
      modifies this
      ensures Valid() && (ok <==> readable) && pcs[me] == (if ok then Previewed(root) else Ended) && Still()
    {
      Yield();
      Sealing(Locating);
      if !readable {
        Stop();
        return false;
      }
      Screened();
      ghost var before := State();
      ok := Intact(plans[me], files, root);
      pcs := pcs[me := if ok then Previewed(root) else Ended];
      Log(before, Revalidate(me));
    }

    /** The journal and the launch marker must not be there yet; and they never are. */
    method Reserve() returns (ok: bool)
      requires Valid() && pcs[me] == Previewed(root)
      modifies this
      ensures Valid() && ok && pcs[me] == Writing(root, Marking) && Still()
    {
      Yield();
      Unopened();
      Screened();
      ghost var before := State();
      ok := JournalFile(root) !in files && Marker(root) !in files;
      pcs := pcs[me := if ok then Writing(root, Marking) else Ended];
      Log(before, Pilot.Reserve(me));
    }

    /** The delivery creates its journal: there is none yet. */
    method OpenJournal() returns (created: bool)
      requires Valid() && pcs[me] == Delivering(root) && me !in delivered
      modifies this
      ensures Valid() && created && pcs[me] == Ended && me in delivered && Composed()
      ensures me in passed <==> me in old(passed)
    {
      Yield();
      Unopened();
      Lettering();
      created := JournalFile(root) !in files;
      PutJournal();
    }

    method PutJournal()
      requires Valid() && pcs[me] == Delivering(root) && JournalFile(root) !in files
      modifies this`files, this`delivered, this`pcs, this`trace
      ensures Valid() && pcs[me] == Ended && delivered == old(delivered) + [me]
      ensures files == old(files)[JournalFile(root) := ""]
    {
      Screened();
      ghost var before := State();
      files := files[JournalFile(root) := ""];
      delivered := delivered + [me];
      pcs := pcs[me := Ended];
      Log(before, Pilot.OpenJournal(me));
    }

    /** The launch marker and the message: their names are never taken. */
    method Compose() returns (ok: bool)
      requires Valid() && pcs[me] == Previewed(root)
      modifies this
      ensures Valid() && pcs[me] == (if ok then Delivering(root) else Ended) && Still()
      ensures ok <==> Even(draws, Marking, Composing)
      ensures ok ==> Composed()
    {
      ok := Reserve();
      var w := WriteExclusiveAtomic(Marking);
      if w.Done? {
        w := WriteExclusiveAtomic(Composing);
      }
      ok := w.Done?;
      if ok {
        Lettering();
      } else {
        Stop();
      }
    }

    /** From the published route to the delivery. Says how far it came and what was raised. */
    method Proceed(f: Fortune) returns (outcome: Outcome, phase: Phase, raised: Option<Raise>)
      requires Valid() && pcs[me] == Published(root) && me in passed && me !in delivered
      modifies this
      ensures Valid() && me in passed && pcs[me] == Ended
      ensures phase.RoutePublished? || phase.PreviewShown? || phase.Delivery?
      ensures Excused(f, draws, phase, raised, None)
      ensures me in delivered <==> phase.Delivery? && f.attempt.Begun()
      ensures raised.None? ==> f.attempt.Returned? && me in delivered
      ensures outcome == Verdict(f, phase, true, raised)
      ensures raised == Some(Terminal) <==> Settled(f, phase)
      ensures raised == Some(FileExists) <==> Obstacle(f, phase, None)
    {
      outcome, phase := ToolingFailureBeforeList, RoutePublished;
      var ok := RevalidateRoute(f.readable);
      if !ok || !f.shown {
        Stop();
        return outcome, phase, Some(Tooling);
      }
      phase := PreviewShown;
      if f.halt.Some? {
        Stop();
        return outcome, phase, Some(Outside(f.halt.value));
      }
      ok := Compose();
      if !ok {
        return outcome, phase, Some(Tooling);
      }
      phase := Delivery;
      if f.attempt.Begun() {
        var created := OpenJournal();
      } else {
        Stop();
      }
      match f.attempt
      case Returned(o) => return o, phase, None;
      case Declined(_) => return HumanDeclined, phase, Some(Terminal);
      case Refused(_) => return PostListTerminal, phase, Some(Terminal);
      case Escaped(e, _) => return outcome, phase, Some(Outside(e));
    }

    /** From the state at the first look: the locator is not there, but at the second look it is. */
    ghost predicate Late(s: Sys)
      reads this
      requires s.pcs.Keys == plans.Keys && me in plans
    {
      && Locator(plans[me].name) !in s.files
      && Locator(plans[me].name) in Turned(plans, Goto(s, me, Chosen), others(turns + 1), me).files
    }

    /** A pilot chooses its target while another one publishes under its name. */
    ghost predicate Overtaken(f: Fortune)
      reads this
      requires pcs.Keys == plans.Keys && me in plans
    {
      f.ready && f.listed && f.selected && f.upset.None? && forall s: Sys :: s == Turn() ==> Late(s)
    }

    /** From the chosen target to the end of the try body. */
    method Route(f: Fortune)
      returns (outcome: Outcome, phase: Phase, routed: bool, raised: Option<Raise>, taken: Option<Taken>)
      requires Valid() && pcs[me].Chosen? && me !in passed && me !in delivered && f.selected
      modifies this
      ensures Valid() && pcs[me] == Ended && (routed <==> me in passed)
      ensures if routed then phase.RoutePublished? || phase.PreviewShown? || phase.Delivery? else phase.ListShown?
      ensures me in delivered <==> phase.Delivery? && f.attempt.Begun()
      ensures raised.None? ==> f.attempt.Returned? && me in delivered
      ensures outcome == Verdict(f, phase, routed, raised)
      ensures raised == Some(Terminal) <==> Settled(f, phase)
      ensures Excused(f, draws, phase, raised, taken)
      ensures raised == Some(FileExists) <==> Obstacle(f, phase, taken)
      ensures taken == LocatorFile() ==> Locator(plans[me].name) in files
      ensures Quiet() && taken.Some? ==> taken == LocatorFile()
      ensures f.upset.None? && Locator(plans[me].name) in old(Turn()).files ==> taken == LocatorFile()
    {
      outcome, phase, routed, taken := ToolingFailureBeforeList, ListShown, false, None;
      if f.upset.Some? {
        Stop();
        return outcome, phase, routed, Some(Outside(f.upset.value)), None;
      }
      var w := PublishRoute(f.ground);
      if w.Exists? {
        return outcome, phase, routed, Some(FileExists), Some(w.what);
      }
      if w.Failed? {
        return outcome, phase, routed, Some(Tooling), None;
      }
      routed := true;
      outcome, phase, raised := Proceed(f);
    }

    /** The try body: precheck, listing, selection, publication, delivery. */
    method Attempted(f: Fortune)
      returns (outcome: Outcome, phase: Phase, listShown: bool, routed: bool, raised: Option<Raise>,
               taken: Option<Taken>)
      requires Valid() && pcs[me].Start? && me !in passed && me !in delivered
      modifies this
      ensures Valid() && pcs[me] == Ended && (routed <==> me in passed)
      ensures routed <==> phase.RoutePublished? || phase.PreviewShown? || phase.Delivery?
      ensures listShown <==> routed || phase.ListShown?
      ensures me in delivered <==> phase.Delivery? && f.attempt.Begun()
      ensures raised.None? ==> f.attempt.Returned? && me in delivered
      ensures outcome == Verdict(f, phase, routed, raised)
      ensures raised == Some(Terminal) <==> Settled(f, phase)
      ensures Excused(f, draws, phase, raised, taken)
      ensures raised == Some(FileExists) <==> Obstacle(f, phase, taken)
      ensures phase.PreCheck? && taken.Some? ==> taken == LocatorFile()
      ensures phase.PreCheck? <==> !f.ready || Locator(plans[me].name) in old(Turn()).files
      ensures phase.PreCheck? ==> (taken.None? <==> !f.ready)
      ensures phase.Discovery? <==> f.ready && Locator(plans[me].name) !in old(Turn()).files && !f.listed
      ensures taken == LocatorFile() ==> Locator(plans[me].name) in files
      ensures Quiet() && taken.Some? ==> taken == LocatorFile()
      ensures old(Overtaken(f)) ==> phase.ListShown? && taken == LocatorFile()
    {
      outcome, phase, listShown, routed, taken := ToolingFailureBeforeList, PreCheck, false, false, None;
      if !f.ready {
        Stop();
        return outcome, phase, listShown, routed, Some(Tooling), None;
      }
      assert Overtaken(f) ==> Late(Turn());
      var there := LocatorThere();
      if there {
        return RouteConflict, phase, listShown, routed, Some(FileExists), LocatorFile();
      }
      phase := Discovery;
      if !f.listed {
        Stop();
        return outcome, phase, listShown, routed, Some(Tooling), None;
      }
      phase, listShown := ListShown, true;
      if !f.selected {
        Stop();
        return TargetNotSelected, phase, listShown, routed, Some(Terminal), None;
      }
      outcome, phase, routed, raised, taken := Route(f);
    }

    /** Read the route back once more, and the journal if there is one. What was published is there whatever
        the other processes did, so only the journal can be bad, or the reading fail. */
    method TerminalGuard(reread: bool, journalGood: bool) returns (failed: bool)
      requires Valid() && me in passed
      modifies this
      ensures Valid() && pcs[me] == old(pcs[me]) && me in passed && Unrivalled() && Still()
      ensures failed <==> !reread || (me in delivered && !journalGood)
    {
      Yield();
      Only();
      Housed();
      failed := !(reread && Intact(plans[me], files, root) && (JournalFile(root) in files ==> journalGood));
    }

    /** The guard, for a pilot that has a route. */
    method Guarded(reread: bool, journalGood: bool) returns (failed: bool)
      requires Valid()
      modifies this
      ensures Valid() && pcs[me] == old(pcs[me]) && Still() && (me in passed ==> Unrivalled())
      ensures me !in passed ==> files == old(files)
      ensures failed <==> me in passed && (!reread || (me in delivered && !journalGood))
    {
      failed := false;
      if me in passed {
        failed := TerminalGuard(reread, journalGood);
      }
    }

    /** The whole ceremony with its exception handlers and the terminal guard. A pilot that came past
        publication is the only one of its name that ever did; only such a pilot reports an outcome of
        the delivery. With random names of its own and nothing failing around the publication, it reports a
        failure "before the list" after the list was shown exactly when another pilot's locator is in place
        and it did not pass itself. */
    method RunSupervisedPilot(f: Fortune) returns (r: Report)
      requires Valid() && pcs[me].Start? && me !in passed && me !in delivered
      requires f.attempt.Returned? ==> OfDelivery(f.attempt.outcome)
      modifies this
      ensures Valid() && pcs[me] == Ended && Excused(f, draws, r.phase, r.cause, r.taken)
      ensures me in passed <==> r.phase.RoutePublished? || r.phase.PreviewShown? || r.phase.Delivery?
      ensures me in passed ==> Unrivalled()
      ensures me in delivered <==> r.phase.Delivery? && f.attempt.Begun()
      ensures r.outcome.RouteConflict? ==> Locator(plans[me].name) in files && me !in passed
      ensures r.guardFailed <==> me in passed && (!f.reread || (me in delivered && !f.journalGood))
      ensures r.phase.PreCheck? <==> !f.ready || Locator(plans[me].name) in old(Turn()).files
      ensures r.phase.Discovery? <==> f.ready && Locator(plans[me].name) !in old(Turn()).files && !f.listed
      ensures r.listShown <==> f.ready && f.listed && Locator(plans[me].name) !in old(Turn()).files
      ensures Quiet() && Unhindered(f, draws) ==>
                r.phase.Delivery? || (Locator(plans[me].name) in files && me !in passed)
      ensures r.cause.None? <==> r.phase.Delivery? && f.attempt.Returned?
      ensures r.cause == Some(FileExists) <==> Obstacle(f, r.phase, r.taken)
      ensures r.cause.None? && !r.guardFailed ==> r.outcome == f.attempt.outcome
      ensures r.cause.None? && r.guardFailed ==>
                r.outcome == if f.attempt.outcome.Uncertain? then Uncertain else PostListTerminal
      ensures Telling(f, r)
      ensures Quiet() && r.taken.Some? ==> r.taken == LocatorFile()
      ensures Quiet() && Calm(f, draws) && f.selected && r.listShown ==>
                (r.outcome.ToolingFailureBeforeList? <==> Locator(plans[me].name) in files && me !in passed)
      ensures old(Overtaken(f)) ==> r.listShown && r.outcome.ToolingFailureBeforeList? && me !in passed
    {
      var outcome, phase, listShown, routed, raised, taken := Attempted(f);
      if raised == Some(Tooling) {
        outcome := if listShown then PostListTerminal else ToolingFailureBeforeList;
      }
      var failed := Guarded(f.reread, f.journalGood);
      if failed && outcome != Uncertain {
        outcome := PostListTerminal;
      }
      r := Report(outcome, phase, listShown, failed, raised, taken);
      OutcomeTells(f, r, routed);
      if Quiet() {
        CalmTells(f, draws, r, routed, Locator(plans[me].name) in files);
      }
    }
  }

  predicate OfDelivery(o: Outcome) {
    o.Delivered? || o.FailedBeforeWrite? || o.Uncertain?
  }

  /** Nothing outside fails around the publication, and nothing outside raises "file exists". */
  predicate Calm(f: Fortune, draws: Stage -> Draw) {
    && f.upset.None? && f.ground.Firm? && Even(draws, Registering, Locating)
    && f.halt != Some(FileExists) && !(f.attempt.Escaped? && f.attempt.raise.FileExists?)
  }

  /** Nothing outside stands between a pilot and its delivery. */
  predicate Unhindered(f: Fortune, draws: Stage -> Draw) {
    && f.ready && f.listed && f.selected && f.upset.None? && f.ground.Firm? && f.readable && f.shown && f.halt.None?
    && Even(draws, Registering, Locating) && Even(draws, Marking, Composing)
  }

  /** Where "file exists" comes from: a name that is taken, or from outside. */
  predicate Obstacle(f: Fortune, phase: Phase, taken: Option<Taken>) {
    || taken.Some?
    || (phase.ListShown? && f.selected && f.upset == Some(FileExists))
    || (phase.PreviewShown? && f.halt == Some(FileExists))
    || (phase.Delivery? && f.attempt.Escaped? && f.attempt.raise.FileExists?)
  }

  /** The two endings the person or the delivery decides on: no target, or a delivery that declined or refused. */
  predicate Settled(f: Fortune, phase: Phase) {
    (phase.ListShown? && !f.selected) || (phase.Delivery? && (f.attempt.Declined? || f.attempt.Refused?))
  }

  /** Which outcome is reported, each by its own causes. The outcome "before the list" is also given after
      the list was shown: exactly when "file exists" was raised and the guard found nothing. */
  predicate Telling(f: Fortune, r: Report) {
    && (OfDelivery(r.outcome) ==> r.cause.None? && f.attempt == Returned(r.outcome))
    && (r.outcome.TargetNotSelected? <==> r.phase.ListShown? && !f.selected)
    && (r.outcome.HumanDeclined? <==> r.phase.Delivery? && f.attempt.Declined? && !r.guardFailed)
    && (r.outcome.RouteConflict? <==> r.phase.PreCheck? && r.taken.Some?)
    && (r.outcome.ToolingFailureBeforeList? <==>
        if r.listShown then r.cause == Some(FileExists) && !r.guardFailed else !(r.phase.PreCheck? && r.taken.Some?))
    && (r.outcome.PostListTerminal? <==>
        if r.guardFailed then r.cause.Some? || f.attempt != Returned(Uncertain)
        else (r.listShown && r.cause == Some(Tooling)) || (r.phase.Delivery? && f.attempt.Refused?))
  }

  /** The handlers and the guard on top of the verdict of the try body. */
  lemma OutcomeTells(f: Fortune, r: Report, passed: bool)
    requires f.attempt.Returned? ==> OfDelivery(f.attempt.outcome)
    requires r.cause.None? <==> r.phase.Delivery? && f.attempt.Returned?
    requires r.cause == Some(Terminal) <==> Settled(f, r.phase)
    requires r.cause == Some(FileExists) <==> Obstacle(f, r.phase, r.taken)
    requires r.phase.Discovery? ==> r.taken.None?
    requires passed <==> r.phase.RoutePublished? || r.phase.PreviewShown? || r.phase.Delivery?
    requires r.listShown <==> passed || r.phase.ListShown?
    requires r.guardFailed ==> passed
    requires var o := if r.cause == Some(Tooling) && r.listShown then PostListTerminal
      else Verdict(f, r.phase, passed, r.cause);
             r.outcome == if r.guardFailed && !o.Uncertain? then PostListTerminal else o
    ensures Telling(f, r)
    ensures r.cause.None? && !r.guardFailed ==> r.outcome == f.attempt.outcome
    ensures r.cause.None? && r.guardFailed ==>
              r.outcome == if f.attempt.outcome.Uncertain? then Uncertain else PostListTerminal
  {
  }

  /** When nothing fails outside, a taken name is the one thing that stops a pilot. */
  lemma CalmTells(f: Fortune, draws: Stage -> Draw, r: Report, passed: bool, present: bool)
    requires Telling(f, r) && Excused(f, draws, r.phase, r.cause, r.taken)
    requires r.cause == Some(FileExists) <==> Obstacle(f, r.phase, r.taken)
    requires passed <==> r.phase.RoutePublished? || r.phase.PreviewShown? || r.phase.Delivery?
    requires r.listShown <==> passed || r.phase.ListShown?
    requires r.guardFailed ==> passed
    requires r.taken.Some? ==> present
    ensures Unhindered(f, draws) ==> r.phase.Delivery? || (present && !passed)
    ensures Calm(f, draws) && f.selected && r.listShown ==>
              (r.outcome.ToolingFailureBeforeList? <==> present && !passed)
  {
  }

  // ---- a pilot overtaken by another ----

  function Rooting(p: Pid, root: Root): seq<Step> {
    [Precheck(p), Recheck(p), MakeRoot(p, root)]
  }

  function WritingOne(p: Pid, nonce: string): seq<Step> {
    [MakeTemp(p, nonce), Link(p), Unlink(p)]
  }

  /** A pilot alone, from its start to past publication. */
  function Publishing(p: Pid, root: Root, nonce: string): seq<Step> {
    Rooting(p, root) + WritingOne(p, nonce) + WritingOne(p, nonce)
  }

  lemma ThreeSteps(plans: map<Pid, Plan>, s: Sys, x: Step, a: Sys, y: Step, b: Sys, z: Step, t: Sys)
    requires s.pcs.Keys == a.pcs.Keys == b.pcs.Keys == plans.Keys
    requires Exec(plans, s, x) == Some(a) && Exec(plans, a, y) == Some(b) && Exec(plans, b, z) == Some(t)
    ensures Run(plans, s, [x, y, z]) == Some(t)
  {
    assert [] + [x] == [x] && [x] + [y] == [x, y] && [x, y] + [z] == [x, y, z];
    RunSnoc(plans, s, [], s, x);
    RunSnoc(plans, s, [x], a, y);
    RunSnoc(plans, s, [x, y], b, z);
  }

  lemma UnlinkedFiles(plans: map<Pid, Plan>, s: Sys, p: Pid, root: Root, stage: Stage, nonce: string) returns (t: Sys)
    requires s.pcs.Keys == plans.Keys && p in plans && s.pcs[p] == Linked(root, stage, nonce)
    ensures Exec(plans, s, Unlink(p)) == Some(t)
            && t.files == s.files - {Temporary(plans[p].Target(root, stage), nonce)}
    ensures t.pcs[p] == NextStage(root, stage)
  {
    t := UnlinkStep(plans, s, p).value;
  }

  lemma WritesOne(plans: map<Pid, Plan>, s: Sys, p: Pid, root: Root, stage: Stage, nonce: string) returns (t: Sys)
    requires s.pcs.Keys == plans.Keys && p in plans && s.pcs[p] == Writing(root, stage)
             && (stage.Registering? || stage.Locating?)
    requires plans[p].Target(root, stage) !in s.files && Temporary(plans[p].Target(root, stage), nonce) !in s.files
    ensures t.pcs.Keys == plans.Keys && Run(plans, s, WritingOne(p, nonce)) == Some(t)
    ensures t.pcs[p] == NextStage(root, stage)
    ensures t.files == s.files[plans[p].Target(root, stage) := plans[p].Content(root, stage)]
  {
    var target, bytes := plans[p].Target(root, stage), plans[p].Content(root, stage);
    var temp := Temporary(target, nonce);
    var a := Goto(s.(files := s.files[temp := bytes]), p, TempMade(root, stage, nonce));
    var b := Goto(a.(files := a.files[target := bytes]), p, Linked(root, stage, nonce));
    t := UnlinkedFiles(plans, b, p, root, stage, nonce);
    assert s.files[temp := bytes][target := bytes] - {temp} == s.files[target := bytes];
    ThreeSteps(plans, s, MakeTemp(p, nonce), a, Link(p), b, Unlink(p), t);
  }

  lemma MakesRoot(plans: map<Pid, Plan>, s: Sys, p: Pid, root: Root) returns (t: Sys)
    requires s.pcs.Keys == plans.Keys && p in plans && s.pcs[p] == Start && s.files == map[] && root !in s.roots
    ensures t.pcs.Keys == plans.Keys && Run(plans, s, Rooting(p, root)) == Some(t)
    ensures t.pcs[p] == Writing(root, Registering) && t.files == map[]
  {
    var a, b := Goto(s, p, Chosen), Goto(s, p, Unrooted);
    assert Goto(a, p, Unrooted) == b;
    t := RootStep(b, p, root).value;
    ThreeSteps(plans, s, Precheck(p), a, Recheck(p), b, MakeRoot(p, root), t);
  }

  lemma Publishes(plans: map<Pid, Plan>, s: Sys, p: Pid, root: Root, nonce: string) returns (t: Sys)
    requires s.pcs.Keys == plans.Keys && p in plans && s.pcs[p] == Start && s.files == map[] && root !in s.roots
    ensures t.pcs.Keys == plans.Keys && Run(plans, s, Publishing(p, root, nonce)) == Some(t)
            && Locator(plans[p].name) in t.files
  {
    var a := MakesRoot(plans, s, p, root);
    var b := WritesOne(plans, a, p, root, Registering, nonce);
    t := WritesOne(plans, b, p, root, Locating, nonce);
    RunThree(plans, s, Rooting(p, root), a, WritingOne(p, nonce), b, WritingOne(p, nonce), t);
  }

  lemma RunThree(plans: map<Pid, Plan>, s: Sys, xs: seq<Step>, a: Sys, ys: seq<Step>, b: Sys, zs: seq<Step>, t: Sys)
    requires s.pcs.Keys == a.pcs.Keys == b.pcs.Keys == plans.Keys
    requires Run(plans, s, xs) == Some(a) && Run(plans, a, ys) == Some(b) && Run(plans, b, zs) == Some(t)
    ensures Run(plans, s, xs + ys + zs) == Some(t)
  {
    RunConcat(plans, s, xs, a, ys);
    RunConcat(plans, s, xs + ys, b, zs);
  }

  lemma Overtakes(plans: map<Pid, Plan>, s: Sys, me: Pid, them: Pid, root: Root, nonce: string)
    requires s.pcs.Keys == plans.Keys && me in plans && them in plans && me != them && s.pcs[them] == Start
    requires s.files == map[] && root !in s.roots
    ensures Turned(plans, s, [], me) == s
    ensures Locator(plans[them].name) in Turned(plans, Goto(s, me, Chosen), Publishing(them, root, nonce), me).files
  {
    var t := Publishes(plans, Goto(s, me, Chosen), them, root, nonce);
  }

  /** Two pilots of one name: while the first lets its user choose, the second publishes. Nothing else goes
      wrong, and the first has shown its list; still it reports a failure before the list. */
  method Overtake(mine: Plan, rival: Plan, draws: Stage -> Draw) returns (r: Report)
    requires mine.name == rival.name
    ensures r.listShown && r.outcome.ToolingFailureBeforeList?
  {
    var plans, me, them := map[0 := mine, 1 := rival], 0, 1;
    var steps := Publishing(them, "theirs", "nonce");
    var host := new Host(plans, me, "mine", draws, n => if n == 1 then steps else []);
    var f := Fortune(true, true, true, None, Firm, true, true, None, Declined(false), true, true);
    Overtakes(plans, host.State(), me, them, "theirs", "nonce");
    assert host.Turn() == host.State() && host.Late(host.State());
    r := host.RunSupervisedPilot(f);
  }
}
