/** Any number of pilot runs and the exclusive locator that makes the ceremony one-shot. A pilot writes
    four files one after another, each through a temporary and an exclusive link, and may fail or die before
    any step. A step below is one system call, with these exceptions: making a temporary and filling it is
    one step, and so are the clean-up of a failed write and that of a failed publication. */
module Pilot {
  import opened Common

  type Pid = nat
  type Bytes = string
  type Root = string

  /** The files of the ceremony. The locator's name is fixed by configuration; roots are random. */
  datatype File =
    | Locator(name: string)
    | Registry(root: Root)
    | Marker(root: Root)
    | Message(root: Root)
    | JournalFile(root: Root)
    | Temporary(target: File, nonce: string)

  /** The files in the order a pilot writes them. */
  datatype Stage = Registering | Locating | Marking | Composing

  /** One pilot: its configured locator name and the bytes it writes. */
  datatype Plan = Plan(name: string, registry: Bytes, locator: Root -> Bytes, marker: Bytes, message: Bytes) {
    function Target(root: Root, stage: Stage): File {
      match stage
      case Registering => Registry(root)
      case Locating => Locator(name)
      case Marking => Marker(root)
      case Composing => Message(root)
    }

    function Content(root: Root, stage: Stage): Bytes {
      match stage
      case Registering => registry
      case Locating => locator(root)
      case Marking => marker
      case Composing => message
    }
  }

  /** Where a pilot stands: inside a stage nothing is written yet, then the temporary, then the link. A
      broken one is on its way out of a failed write. */
  datatype Pc =
    | Start
    | Chosen
    | Unrooted
    | Writing(root: Root, stage: Stage)
    | TempMade(root: Root, stage: Stage, nonce: string)
    | Linked(root: Root, stage: Stage, nonce: string)
    | Broken(root: Root, stage: Stage)
    | Published(root: Root)
    | Previewed(root: Root)
    | Delivering(root: Root)
    | Ended

  /** `passed` lists the pilots that got past publication, each with its root in `homes`; `delivered` those
      that opened their journal. */
  datatype Sys = Sys(
    files: map<File, Bytes>, roots: set<Root>, pcs: map<Pid, Pc>, passed: seq<Pid>, homes: map<Pid, Root>,
      delivered: seq<Pid>)

  datatype Step =
    | Precheck(p: Pid)
    | Recheck(p: Pid)
    | MakeRoot(p: Pid, root: Root)
    | MakeTemp(p: Pid, nonce: string)
    | Link(p: Pid)
    | Unlink(p: Pid)
    | Revalidate(p: Pid)
    | Reserve(p: Pid)
    | OpenJournal(p: Pid)
    | Break(p: Pid, spilled: bool)
    | Abandon(p: Pid)
    | Die(p: Pid)

  function Goto(s: Sys, p: Pid, pc: Pc): Sys {
    s.(pcs := s.pcs[p := pc])
  }

  /** A failed write takes its temporary away, unless filling or removing it is what failed (`spilled`). */
  function BreakStep(plans: map<Pid, Plan>, s: Sys, p: Pid, spilled: bool): Option<Sys>
    requires p in plans && p in s.pcs
  {
    var pc := s.pcs[p];
    if pc.Writing? then Some(Goto(s, p, Broken(pc.root, pc.stage)))
    else if pc.TempMade? || pc.Linked? then
      var temp := Temporary(plans[p].Target(pc.root, pc.stage), pc.nonce);
      Some(Goto(s.(files := if spilled then s.files else s.files - {temp}), p, Broken(pc.root, pc.stage)))
    else None
  }

  function FilesOf(root: Root): set<File> {
    {Registry(root), Marker(root), Message(root), JournalFile(root)}
  }

  function Base(f: File): Option<Root> {
    match f
    case Registry(root) => Some(root)
    case Marker(root) => Some(root)
    case Message(root) => Some(root)
    case JournalFile(root) => Some(root)
    case _ => None
  }

  /** The root a file or its temporary lies in. */
  function HomeOf(f: File): Option<Root> {
    if f.Temporary? then Base(f.target) else Base(f)
  }

  predicate Occupied(files: map<File, Bytes>, root: Root) {
    exists f :: f in files && HomeOf(f) == Some(root)
  }

  /** When publication fails and there is no locator, the pilot's own files go, and its root if empty. */
  function AbandonStep(plans: map<Pid, Plan>, s: Sys, p: Pid): Option<Sys>
    requires p in plans && p in s.pcs
  {
    var pc := s.pcs[p];
    if !pc.Broken? then None
    else if (pc.stage.Registering? || pc.stage.Locating?) && Locator(plans[p].name) !in s.files then
      var files := s.files - FilesOf(pc.root);
      var roots := if Occupied(files, pc.root) then s.roots else s.roots - {pc.root};
      Some(Goto(s.(files := files, roots := roots), p, Ended))
    else Some(Goto(s, p, Ended))
  }

  function NextStage(root: Root, stage: Stage): Pc {
    match stage
    case Registering => Writing(root, Locating)
    case Locating => Published(root)
    case Marking => Writing(root, Composing)
    case Composing => Delivering(root)
  }

  function TempStep(plans: map<Pid, Plan>, s: Sys, p: Pid, nonce: string): Option<Sys>
    requires p in plans && p in s.pcs
  {
    if !s.pcs[p].Writing? then None
    else
      var Writing(root, stage) := s.pcs[p];
      var target := plans[p].Target(root, stage);
      var temp := Temporary(target, nonce);
      if target in s.files || temp in s.files then BreakStep(plans, s, p, false)
      else Some(Goto(s.(files := s.files[temp := plans[p].Content(root, stage)]), p, TempMade(root, stage, nonce)))
  }

  /** link(2) is exclusive: it fails when the target exists. */
  function LinkStep(plans: map<Pid, Plan>, s: Sys, p: Pid): Option<Sys>
    requires p in plans && p in s.pcs
  {
    if !s.pcs[p].TempMade? then None
    else
      var TempMade(root, stage, nonce) := s.pcs[p];
      var target := plans[p].Target(root, stage);
      if target in s.files then BreakStep(plans, s, p, false)
      else Some(Goto(s.(files := s.files[target := plans[p].Content(root, stage)]), p, Linked(root, stage, nonce)))
  }

  function Passed(s: Sys, p: Pid, root: Root): Sys {
    s.(passed := s.passed + [p], homes := s.homes[p := root])
  }

  function UnlinkStep(plans: map<Pid, Plan>, s: Sys, p: Pid): Option<Sys>
    requires p in plans && p in s.pcs
  {
    if !s.pcs[p].Linked? then None
    else
      var Linked(root, stage, nonce) := s.pcs[p];
      var t := s.(files := s.files - {Temporary(plans[p].Target(root, stage), nonce)});
      Some(Goto(if stage.Locating? then Passed(t, p, root) else t, p, NextStage(root, stage)))
  }

  function RootStep(s: Sys, p: Pid, root: Root): Option<Sys>
    requires p in s.pcs
  {
    if !s.pcs[p].Unrooted? then None
    else if root in s.roots then Some(Goto(s, p, Ended))
    else Some(Goto(s.(roots := s.roots + {root}), p, Writing(root, Registering)))
  }

  /** The published bytes are read back before anything is shown. */
  function RevalidateStep(plans: map<Pid, Plan>, s: Sys, p: Pid): Option<Sys>
    requires p in plans && p in s.pcs
  {
    if !s.pcs[p].Published? then None
    else Some(Goto(s, p, if Intact(plans[p], s.files, s.pcs[p].root) then Previewed(s.pcs[p].root) else Ended))
  }

  predicate Intact(plan: Plan, files: map<File, Bytes>, root: Root) {
    && Locator(plan.name) in files && files[Locator(plan.name)] == plan.locator(root)
    && Registry(root) in files && files[Registry(root)] == plan.registry
  }

  /** The delivery opens its journal, creating it if it is not there. */
  function JournalOpened(s: Sys, p: Pid, root: Root): Sys {
    var files := if JournalFile(root) in s.files then s.files else s.files[JournalFile(root) := ""];
    Goto(s.(files := files, delivered := s.delivered + [p]), p, Ended)
  }

  function Exec(plans: map<Pid, Plan>, s: Sys, step: Step): Option<Sys>
    requires s.pcs.Keys == plans.Keys
    ensures Exec(plans, s, step).Some? ==> Exec(plans, s, step).value.pcs.Keys == plans.Keys
  {
    if step.p !in plans then None
    else
      var pc := s.pcs[step.p];
      match step
      case Precheck(p) => if pc.Start?
        then Some(Goto(s, p, if Locator(plans[p].name) in s.files then Ended else Chosen)) else None
      case Recheck(p) => if pc.Chosen?
        then Some(Goto(s, p, if Locator(plans[p].name) in s.files then Ended else Unrooted)) else None
      case MakeRoot(p, root) => RootStep(s, p, root)
      case MakeTemp(p, nonce) => TempStep(plans, s, p, nonce)
      case Link(p) => LinkStep(plans, s, p)
      case Unlink(p) => UnlinkStep(plans, s, p)
      case Revalidate(p) => RevalidateStep(plans, s, p)
      case Reserve(p) =>
        if !pc.Previewed? then None
        else Some(Goto(s, p, if JournalFile(pc.root) in s.files || Marker(pc.root) in s.files then Ended
                       else Writing(pc.root, Marking)))
      case OpenJournal(p) =>
        if !pc.Delivering? then None
        else Some(JournalOpened(s, p, pc.root))
      case Break(p, spilled) => BreakStep(plans, s, p, spilled)
      case Abandon(p) => AbandonStep(plans, s, p)
      case Die(p) => Some(Goto(s, p, Ended))
  }

  function Run(plans: map<Pid, Plan>, s: Sys, steps: seq<Step>): Option<Sys>
    requires s.pcs.Keys == plans.Keys
    ensures Run(plans, s, steps).Some? ==> Run(plans, s, steps).value.pcs.Keys == plans.Keys
  {
    if steps == [] then Some(s)
    else
      match Run(plans, s, steps[..|steps| - 1])
      case None => None
      case Some(t) => Exec(plans, t, steps[|steps| - 1])
  }

  /** No ceremony has taken place yet. */
  predicate Initial(plans: map<Pid, Plan>, s: Sys) {
    && s.files == map[] && s.roots == {} && s.passed == [] && s.homes == map[] && s.delivered == []
    && s.pcs.Keys == plans.Keys && forall p :: p in s.pcs ==> s.pcs[p] == Start
  }

  // ---- the invariant ----

  /** The root a live pilot has made. */
  function RootOf(pc: Pc): Option<Root> {
    match pc
    case Writing(root, _) => Some(root)
    case TempMade(root, _, _) => Some(root)
    case Linked(root, _, _) => Some(root)
    case Broken(root, _) => Some(root)
    case Published(root) => Some(root)
    case Previewed(root) => Some(root)
    case Delivering(root) => Some(root)
    case _ => None
  }

  /** Has linked the locator, and lives. */
  predicate Holder(pc: Pc) {
    || pc.Published? || pc.Previewed? || pc.Delivering?
    || (pc.Linked? && !pc.stage.Registering?)
    || ((pc.Writing? || pc.TempMade?) && (pc.stage.Marking? || pc.stage.Composing?))
  }

  /** Has linked its registry, and lives. */
  predicate Registered(pc: Pc) {
    Holder(pc) || (pc.Linked? && pc.stage.Registering?) || ((pc.Writing? || pc.TempMade?) && pc.stage.Locating?)
  }

  ghost predicate Roots(roots: set<Root>, pcs: map<Pid, Pc>) {
    && (forall p :: p in pcs && RootOf(pcs[p]).Some? ==> RootOf(pcs[p]).value in roots)
    && (forall p, q :: p in pcs && q in pcs && p != q && RootOf(pcs[p]).Some? ==> RootOf(pcs[p]) != RootOf(pcs[q]))
  }

  predicate Holds(plan: Plan, files: map<File, Bytes>, pc: Pc) {
    RootOf(pc).Some? && Locator(plan.name) in files && files[Locator(plan.name)] == plan.locator(RootOf(pc).value)
  }

  predicate Keeps(plan: Plan, files: map<File, Bytes>, pc: Pc) {
    RootOf(pc).Some? && Registry(RootOf(pc).value) in files && files[Registry(RootOf(pc).value)] == plan.registry
  }

  /** Whoever holds the locator finds it in the file system. */
  ghost predicate Locators(plans: map<Pid, Plan>, files: map<File, Bytes>, pcs: map<Pid, Pc>)
    requires pcs.Keys == plans.Keys
  {
    forall p :: p in plans && Holder(pcs[p]) ==> Holds(plans[p], files, pcs[p])
  }

  predicate AboutToPass(pc: Pc) {
    pc.Linked? && pc.stage.Locating?
  }

  /** One pilot per locator name, ever: among those who passed, and those about to. */
  ghost predicate OnePerName(plans: map<Pid, Plan>, pcs: map<Pid, Pc>, passed: seq<Pid>)
    requires pcs.Keys == plans.Keys
  {
    && (forall p :: p in passed ==> p in plans)
    && (forall i, j :: 0 <= i < j < |passed| ==> plans[passed[i]].name != plans[passed[j]].name)
    && (forall p :: p in plans && Holder(pcs[p]) && !AboutToPass(pcs[p]) ==> p in passed)
    && (forall p, q :: p in plans && AboutToPass(pcs[p]) && q in passed ==> plans[q].name != plans[p].name)
    && (forall p, q :: p in plans && q in plans && p != q && AboutToPass(pcs[p]) && AboutToPass(pcs[q])
                       ==> plans[p].name != plans[q].name)
  }

  ghost predicate Registries(plans: map<Pid, Plan>, files: map<File, Bytes>, pcs: map<Pid, Pc>)
    requires pcs.Keys == plans.Keys
  {
    forall p :: p in plans && Registered(pcs[p]) ==> Keeps(plans[p], files, pcs[p])
  }

  /** What a pilot has linked in its root before a stage. */
  function Earlier(root: Root, stage: Stage): set<File> {
    match stage
    case Registering => {}
    case Locating => {Registry(root)}
    case Marking => {Registry(root)}
    case Composing => {Registry(root), Marker(root)}
  }

  /** The files a live pilot may find in its own root. */
  predicate Allows(plan: Plan, pc: Pc, f: File) {
    match pc
    case Writing(root, stage) => f in Earlier(root, stage)
    case TempMade(root, stage, nonce) => f in Earlier(root, stage) || f == Temporary(plan.Target(root, stage), nonce)
    case Linked(root, stage, nonce) =>
      f in Earlier(root, stage) || f == Temporary(plan.Target(root, stage), nonce) || f == plan.Target(root, stage)
    case Broken(_, _) => !f.JournalFile?
    case Published(root) => f == Registry(root)
    case Previewed(root) => f == Registry(root)
    case Delivering(root) => f == Registry(root) || f == Marker(root) || f == Message(root)
    case _ => true
  }

  /** In a live pilot's root lies only what it put there itself, and no journal. */
  ghost predicate Tidy(plans: map<Pid, Plan>, files: map<File, Bytes>, pcs: map<Pid, Pc>)
    requires pcs.Keys == plans.Keys
  {
    forall p, f :: p in plans && f in files && RootOf(pcs[p]).Some? && HomeOf(f) == RootOf(pcs[p]) ==>
      Allows(plans[p], pcs[p], f)
  }

  /** No file lies in a root nobody made. */
  ghost predicate Covered(files: map<File, Bytes>, roots: set<Root>) {
    forall f :: f in files && HomeOf(f).Some? ==> HomeOf(f).value in roots
  }

  /** What a pilot published is there, in its own bytes, and its journal once it has opened it. */
  predicate HomeKept(plan: Plan, files: map<File, Bytes>, root: Root, begun: bool) {
    Intact(plan, files, root) && (JournalFile(root) in files <==> begun)
  }

  /** Past publication: still in its root, or ended. */
  predicate Placed(pc: Pc, root: Root) {
    pc.Ended? || (RootOf(pc) == Some(root)
                  && ((Holder(pc) && !AboutToPass(pc)) || (pc.Broken? && (pc.stage.Marking? || pc.stage.Composing?))))
  }

  ghost predicate Alone(pcs: map<Pid, Pc>, p: Pid, root: Root) {
    forall q :: q in pcs && q != p ==> RootOf(pcs[q]) != Some(root)
  }

  /** Every pilot that passed, alive or not, keeps its home to itself. */
  ghost predicate Homes(plans: map<Pid, Plan>, files: map<File, Bytes>, roots: set<Root>, pcs: map<Pid, Pc>,
                        passed: seq<Pid>, homes: map<Pid, Root>, delivered: seq<Pid>)
    requires pcs.Keys == plans.Keys
  {
    forall p :: p in passed ==>
      && p in plans && p in homes && homes[p] in roots && HomeKept(plans[p], files, homes[p], p in delivered)
      && Placed(pcs[p], homes[p]) && Alone(pcs, p, homes[p])
      && forall q :: q in passed && q != p ==> q in homes && homes[q] != homes[p]
  }

  /** A delivering pilot has passed, and each delivers once. */
  ghost predicate Deliveries(pcs: map<Pid, Pc>, passed: seq<Pid>, delivered: seq<Pid>) {
    && (forall p :: p in delivered ==> p in passed && p in pcs && pcs[p] == Ended)
    && (forall i, j :: 0 <= i < j < |delivered| ==> delivered[i] != delivered[j])
  }

  ghost predicate Inv(plans: map<Pid, Plan>, s: Sys) {
    && s.pcs.Keys == plans.Keys
    && Roots(s.roots, s.pcs)
    && Locators(plans, s.files, s.pcs)
    && OnePerName(plans, s.pcs, s.passed)
    && Registries(plans, s.files, s.pcs)
    && Tidy(plans, s.files, s.pcs)
    && Covered(s.files, s.roots)
    && Homes(plans, s.files, s.roots, s.pcs, s.passed, s.homes, s.delivered)
    && Deliveries(s.pcs, s.passed, s.delivered)
  }

  lemma InitialInv(plans: map<Pid, Plan>, s: Sys)
    requires Initial(plans, s)
    ensures Inv(plans, s)
  {
  }

  // ---- each part of the invariant, when one pilot moves and files change around it ----

  lemma MoveRoots(roots: set<Root>, pcs: map<Pid, Pc>, p: Pid, pc: Pc)
    requires Roots(roots, pcs) && p in pcs && (RootOf(pc).None? || RootOf(pc) == RootOf(pcs[p]))
    ensures Roots(roots, pcs[p := pc])
  {
  }

  lemma MoveOne(plans: map<Pid, Plan>, pcs: map<Pid, Pc>, passed: seq<Pid>, p: Pid, pc: Pc)
    requires pcs.Keys == plans.Keys && OnePerName(plans, pcs, passed) && p in plans && !AboutToPass(pc)
    requires Holder(pc) ==> p in passed
    ensures OnePerName(plans, pcs[p := pc], passed)
  {
  }

  lemma MoveDeliveries(pcs: map<Pid, Pc>, passed: seq<Pid>, delivered: seq<Pid>, p: Pid, pc: Pc)
    requires Deliveries(pcs, passed, delivered) && p in pcs && (pcs[p] == Ended ==> pc == Ended)
    ensures Deliveries(pcs[p := pc], passed, delivered)
  {
  }

  /** What a step of a pilot with this root may do to the files, short of opening a journal and of clearing
      the root: nothing goes but temporaries, and what comes lies in the root or is a locator. */
  ghost predicate Local(before: map<File, Bytes>, after: map<File, Bytes>, root: Root) {
    && (forall f :: f in before && !f.Temporary? ==> f in after && after[f] == before[f])
    && (forall f :: f in after && f !in before ==> !f.JournalFile? && (HomeOf(f) == Some(root) || HomeOf(f).None?))
  }

  lemma ChangeLocators(plans: map<Pid, Plan>, before: map<File, Bytes>, after: map<File, Bytes>, pcs: map<Pid, Pc>,
                       p: Pid, pc: Pc, root: Root)
    requires pcs.Keys == plans.Keys && Locators(plans, before, pcs) && p in plans && Local(before, after, root)
    requires Holder(pc) ==> Holds(plans[p], after, pc)
    ensures Locators(plans, after, pcs[p := pc])
  {
  }

  lemma ChangeRegistries(plans: map<Pid, Plan>, before: map<File, Bytes>, after: map<File, Bytes>, pcs: map<Pid, Pc>,
                         p: Pid, pc: Pc, root: Root)
    requires pcs.Keys == plans.Keys && Registries(plans, before, pcs) && p in plans && Local(before, after, root)
    requires Registered(pc) ==> Keeps(plans[p], after, pc)
    ensures Registries(plans, after, pcs[p := pc])
  {
  }

  /** All that lies in the pilot's root is allowed there. */
  ghost predicate Fits(plan: Plan, files: map<File, Bytes>, pc: Pc) {
    forall f :: f in files && RootOf(pc).Some? && HomeOf(f) == RootOf(pc) ==> Allows(plan, pc, f)
  }

  lemma ChangeTidy(plans: map<Pid, Plan>, before: map<File, Bytes>, after: map<File, Bytes>, pcs: map<Pid, Pc>, p: Pid,
                   pc: Pc, root: Root)
    requires pcs.Keys == plans.Keys && Tidy(plans, before, pcs) && p in plans && Alone(pcs, p, root)
    requires forall f :: f in after && f !in before ==> HomeOf(f) == Some(root) || HomeOf(f).None?
    requires Fits(plans[p], after, pc)
    ensures Tidy(plans, after, pcs[p := pc])
  {
    forall q, f | q in plans && f in after && RootOf(pcs[p := pc][q]).Some? && HomeOf(f) == RootOf(pcs[p := pc][q])
      ensures Allows(plans[q], pcs[p := pc][q], f)
    {
      if q != p {
        assert f in before;
      }
    }
  }

  lemma FitsNow(plans: map<Pid, Plan>, files: map<File, Bytes>, pcs: map<Pid, Pc>, p: Pid)
    requires pcs.Keys == plans.Keys && Tidy(plans, files, pcs) && p in plans
    ensures Fits(plans[p], files, pcs[p])
  {
  }

  lemma MoveAlone(pcs: map<Pid, Pc>, p: Pid, pc: Pc, q: Pid, root: Root)
    requires p in pcs && Alone(pcs, q, root) && (p == q || RootOf(pc).None? || RootOf(pc) == RootOf(pcs[p]))
    ensures Alone(pcs[p := pc], q, root)
  {
  }

  lemma ChangeHomes(plans: map<Pid, Plan>, before: map<File, Bytes>, after: map<File, Bytes>, roots: set<Root>,
                    pcs: map<Pid, Pc>, passed: seq<Pid>, homes: map<Pid, Root>, delivered: seq<Pid>, p: Pid, pc: Pc,
                      root: Root)
    requires pcs.Keys == plans.Keys && Homes(plans, before, roots, pcs, passed, homes, delivered) && p in plans
    requires Local(before, after, root) && (RootOf(pc).None? || RootOf(pc) == RootOf(pcs[p]))
    requires p in passed ==> Placed(pc, homes[p])
    ensures Homes(plans, after, roots, pcs[p := pc], passed, homes, delivered)
  {
    forall q | q in passed ensures HomeKept(plans[q], after, homes[q], q in delivered)
      && Alone(pcs[p := pc], q, homes[q]) {
      MoveAlone(pcs, p, pc, q, homes[q]);
      assert HomeKept(plans[q], before, homes[q], q in delivered);
    }
  }

  lemma RootAlone(roots: set<Root>, pcs: map<Pid, Pc>, p: Pid, root: Root)
    requires Roots(roots, pcs) && p in pcs && RootOf(pcs[p]) == Some(root)
    ensures Alone(pcs, p, root) && root in roots
  {
  }

  /** A step of a pilot in its root keeps the invariant if its own claims hold afterwards. */
  lemma ChangeKeeps(plans: map<Pid, Plan>, s: Sys, files: map<File, Bytes>, p: Pid, pc: Pc, root: Root)
    requires Inv(plans, s) && p in plans && RootOf(s.pcs[p]) == Some(root)
             && (RootOf(pc).None? || RootOf(pc) == Some(root))
    requires Local(s.files, files, root) && Fits(plans[p], files, pc)
    requires (Holder(pc) ==> Holds(plans[p], files, pc)) && (Registered(pc) ==> Keeps(plans[p], files, pc))
    requires OnePerName(plans, s.pcs[p := pc], s.passed) && (p in s.passed ==> Placed(pc, s.homes[p]))
    ensures Inv(plans, Goto(s.(files := files), p, pc))
  {
    RootAlone(s.roots, s.pcs, p, root);
    MoveRoots(s.roots, s.pcs, p, pc);
    ChangeLocators(plans, s.files, files, s.pcs, p, pc, root);
    ChangeRegistries(plans, s.files, files, s.pcs, p, pc, root);
    ChangeTidy(plans, s.files, files, s.pcs, p, pc, root);
    assert Covered(files, s.roots);
    ChangeHomes(plans, s.files, files, s.roots, s.pcs, s.passed, s.homes, s.delivered, p, pc, root);
    MoveDeliveries(s.pcs, s.passed, s.delivered, p, pc);
  }

  /** Moving a pilot, with no file changed, to a place where it claims no more than before. */
  predicate Easier(a: Pc, b: Pc) {
    && (a.Ended? ==> b.Ended?) && (RootOf(b).None? || RootOf(b) == RootOf(a)) && !AboutToPass(b)
    && (Holder(b) ==> Holder(a) && !AboutToPass(a)) && (Registered(b) ==> Registered(a))
  }

  lemma MoveKeeps(plans: map<Pid, Plan>, s: Sys, p: Pid, pc: Pc)
    requires Inv(plans, s) && p in plans && Easier(s.pcs[p], pc) && Fits(plans[p], s.files, pc)
    requires p in s.passed ==> Placed(pc, s.homes[p])
    ensures Inv(plans, Goto(s, p, pc))
  {
    MoveRoots(s.roots, s.pcs, p, pc);
    MoveLocators(plans, s.files, s.pcs, p, pc);
    MoveRegistries(plans, s.files, s.pcs, p, pc);
    MoveFreely(plans, s.pcs, s.passed, p, pc);
    MoveTidy(plans, s.files, s.pcs, p, pc);
    MoveHomes(plans, s.files, s.roots, s.pcs, s.passed, s.homes, s.delivered, p, pc);
    MoveDeliveries(s.pcs, s.passed, s.delivered, p, pc);
  }

  lemma MoveLocators(plans: map<Pid, Plan>, files: map<File, Bytes>, pcs: map<Pid, Pc>, p: Pid, pc: Pc)
    requires pcs.Keys == plans.Keys && Locators(plans, files, pcs) && p in plans && Easier(pcs[p], pc)
    ensures Locators(plans, files, pcs[p := pc])
  {
  }

  lemma MoveRegistries(plans: map<Pid, Plan>, files: map<File, Bytes>, pcs: map<Pid, Pc>, p: Pid, pc: Pc)
    requires pcs.Keys == plans.Keys && Registries(plans, files, pcs) && p in plans && Easier(pcs[p], pc)
    ensures Registries(plans, files, pcs[p := pc])
  {
  }

  lemma MoveFreely(plans: map<Pid, Plan>, pcs: map<Pid, Pc>, passed: seq<Pid>, p: Pid, pc: Pc)
    requires pcs.Keys == plans.Keys && OnePerName(plans, pcs, passed) && p in plans && Easier(pcs[p], pc)
    ensures OnePerName(plans, pcs[p := pc], passed)
  {
    MoveOne(plans, pcs, passed, p, pc);
  }

  lemma MoveTidy(plans: map<Pid, Plan>, files: map<File, Bytes>, pcs: map<Pid, Pc>, p: Pid, pc: Pc)
    requires pcs.Keys == plans.Keys && Tidy(plans, files, pcs) && p in plans && Fits(plans[p], files, pc)
    ensures Tidy(plans, files, pcs[p := pc])
  {
  }

  lemma MoveHomes(plans: map<Pid, Plan>, files: map<File, Bytes>, roots: set<Root>, pcs: map<Pid, Pc>, passed: seq<Pid>,
                  homes: map<Pid, Root>, delivered: seq<Pid>, p: Pid, pc: Pc)
    requires pcs.Keys == plans.Keys && Homes(plans, files, roots, pcs, passed, homes, delivered) && p in plans
    requires (RootOf(pc).None? || RootOf(pc) == RootOf(pcs[p])) && (p in passed ==> Placed(pc, homes[p]))
    ensures Homes(plans, files, roots, pcs[p := pc], passed, homes, delivered)
  {
    forall q | q in passed ensures Alone(pcs[p := pc], q, homes[q]) {
      MoveAlone(pcs, p, pc, q, homes[q]);
    }
  }

  // ---- the steps ----

  /** The steps that only look: the two locator checks, the read-back, and the reservation; and dying. */
  lemma LookKeeps(plans: map<Pid, Plan>, s: Sys, step: Step)
    requires Inv(plans, s) && (step.Precheck? || step.Recheck? || step.Revalidate? || step.Reserve? || step.Die?)
    requires Exec(plans, s, step).Some?
    ensures Inv(plans, Exec(plans, s, step).value)
  {
    var t := Exec(plans, s, step).value;
    LookMoves(plans, s, step, t);
    FitsNow(plans, s.files, s.pcs, step.p);
    MoveKeeps(plans, s, step.p, t.pcs[step.p]);
  }

  lemma LookMoves(plans: map<Pid, Plan>, s: Sys, step: Step, t: Sys)
    requires s.pcs.Keys == plans.Keys
             && (step.Precheck? || step.Recheck? || step.Revalidate? || step.Reserve? || step.Die?)
    requires Exec(plans, s, step) == Some(t)
    ensures step.p in plans && t == Goto(s, step.p, t.pcs[step.p]) && Easier(s.pcs[step.p], t.pcs[step.p])
    ensures Fits(plans[step.p], s.files, s.pcs[step.p]) ==> Fits(plans[step.p], s.files, t.pcs[step.p])
    ensures forall root: Root :: Placed(s.pcs[step.p], root) ==> Placed(t.pcs[step.p], root)
  {
  }

  /** A step that changes the files of its root and claims no more than before. */
  lemma EasyKeeps(plans: map<Pid, Plan>, s: Sys, files: map<File, Bytes>, p: Pid, pc: Pc, root: Root)
    requires Inv(plans, s) && p in plans && RootOf(s.pcs[p]) == Some(root) && Easier(s.pcs[p], pc)
    requires Local(s.files, files, root) && Fits(plans[p], files, pc)
    requires p in s.passed ==> Placed(pc, s.homes[p])
    ensures Inv(plans, Goto(s.(files := files), p, pc))
  {
    MoveFreely(plans, s.pcs, s.passed, p, pc);
    EasyClaims(plans[p], s.files, files, s.pcs[p], pc, root);
    ChangeKeeps(plans, s, files, p, pc, root);
  }

  lemma EasyClaims(plan: Plan, before: map<File, Bytes>, after: map<File, Bytes>, a: Pc, b: Pc, root: Root)
    requires Local(before, after, root) && Easier(a, b)
    requires (Holder(a) ==> Holds(plan, before, a)) && (Registered(a) ==> Keeps(plan, before, a))
    ensures (Holder(b) ==> Holds(plan, after, b)) && (Registered(b) ==> Keeps(plan, after, b))
  {
  }

  lemma BreakKeeps(plans: map<Pid, Plan>, s: Sys, p: Pid, spilled: bool)
    requires Inv(plans, s) && p in plans && BreakStep(plans, s, p, spilled).Some?
    ensures Inv(plans, BreakStep(plans, s, p, spilled).value)
  {
    var t := BreakStep(plans, s, p, spilled).value;
    FitsNow(plans, s.files, s.pcs, p);
    BreakFits(plans, s, p, spilled, t);
    StaysPlaced(plans, s, p);
    EasyKeeps(plans, s, t.files, p, t.pcs[p], s.pcs[p].root);
  }

  lemma BreakFits(plans: map<Pid, Plan>, s: Sys, p: Pid, spilled: bool, t: Sys)
    requires p in plans && p in s.pcs && BreakStep(plans, s, p, spilled) == Some(t) && Fits(plans[p], s.files, s.pcs[p])
    ensures var a, b := s.pcs[p], t.pcs[p];
            && (a.Writing? || a.TempMade? || a.Linked?) && b == Broken(a.root, a.stage)
               && t == Goto(s.(files := t.files), p, b)
            && Local(s.files, t.files, a.root) && Fits(plans[p], t.files, b) && Easier(a, b)
            && forall home: Root :: Placed(a, home) ==> Placed(b, home)
  {
  }

  lemma TempStepKeeps(plans: map<Pid, Plan>, s: Sys, p: Pid, nonce: string)
    requires Inv(plans, s) && p in plans && TempStep(plans, s, p, nonce).Some?
    ensures Inv(plans, TempStep(plans, s, p, nonce).value)
  {
    var Writing(root, stage) := s.pcs[p];
    var target := plans[p].Target(root, stage);
    if target in s.files || Temporary(target, nonce) in s.files {
      BreakKeeps(plans, s, p, false);
    } else {
      var files := s.files[Temporary(target, nonce) := plans[p].Content(root, stage)];
      FitsNow(plans, s.files, s.pcs, p);
      TempFits(plans[p], s.files, files, root, stage, nonce);
      EasyKeeps(plans, s, files, p, TempMade(root, stage, nonce), root);
    }
  }

  lemma TempFits(plan: Plan, before: map<File, Bytes>, after: map<File, Bytes>, root: Root, stage: Stage, nonce: string)
    requires after == before[Temporary(plan.Target(root, stage), nonce) := plan.Content(root, stage)]
    requires Fits(plan, before, Writing(root, stage))
    ensures Local(before, after, root) && Fits(plan, after, TempMade(root, stage, nonce))
  {
  }

  /** A new file at the pilot's target: nobody else's locator, registry or journal. */
  lemma LinkKeeps(plans: map<Pid, Plan>, s: Sys, p: Pid)
    requires Inv(plans, s) && p in plans && LinkStep(plans, s, p).Some?
    ensures Inv(plans, LinkStep(plans, s, p).value)
  {
    var TempMade(root, stage, nonce) := s.pcs[p];
    var target := plans[p].Target(root, stage);
    if target in s.files {
      BreakKeeps(plans, s, p, false);
    } else {
      var pc := Linked(root, stage, nonce);
      FitsNow(plans, s.files, s.pcs, p);
      LinkOne(plans, s, p, root, stage, pc);
      LinkHolds(plans[p], s.files, s.pcs[p], pc);
      ChangeKeeps(plans, s, s.files[target := plans[p].Content(root, stage)], p, pc, root);
    }
  }

  lemma LinkHolds(plan: Plan, files: map<File, Bytes>, a: Pc, b: Pc)
    requires a.TempMade? && b == Linked(a.root, a.stage, a.nonce) && plan.Target(a.root, a.stage) !in files
    requires (Holder(a) ==> Holds(plan, files, a)) && (Registered(a) ==> Keeps(plan, files, a)) && Fits(plan, files, a)
    ensures var after := files[plan.Target(a.root, a.stage) := plan.Content(a.root, a.stage)];
            && Local(files, after, a.root) && Fits(plan, after, b)
            && (Holder(b) ==> Holds(plan, after, b)) && (Registered(b) ==> Keeps(plan, after, b))
  {
  }

  /** Only one pilot can be about to pass under a name whose locator did not exist. */
  lemma LinkOne(plans: map<Pid, Plan>, s: Sys, p: Pid, root: Root, stage: Stage, pc: Pc)
    requires s.pcs.Keys == plans.Keys && p in plans && pc.Linked? && pc.stage == stage
    requires s.pcs[p].TempMade? && s.pcs[p].stage == stage && plans[p].Target(root, stage) !in s.files
    requires Locators(plans, s.files, s.pcs) && OnePerName(plans, s.pcs, s.passed)
    requires Homes(plans, s.files, s.roots, s.pcs, s.passed, s.homes, s.delivered)
    ensures OnePerName(plans, s.pcs[p := pc], s.passed)
  {
    if stage.Locating? {
      NoneAboutToPass(plans, s.files, s.pcs, plans[p].name);
      NoneOfName(plans, s, plans[p].name);
    }
  }

  lemma NoneAboutToPass(plans: map<Pid, Plan>, files: map<File, Bytes>, pcs: map<Pid, Pc>, name: string)
    requires pcs.Keys == plans.Keys && Locators(plans, files, pcs) && Locator(name) !in files
    ensures forall q :: q in plans && AboutToPass(pcs[q]) ==> plans[q].name != name
  {
    forall q | q in plans && AboutToPass(pcs[q]) ensures plans[q].name != name {
      assert Holds(plans[q], files, pcs[q]);
    }
  }

  lemma NoneOfName(plans: map<Pid, Plan>, s: Sys, name: string)
    requires s.pcs.Keys == plans.Keys && Homes(plans, s.files, s.roots, s.pcs, s.passed, s.homes, s.delivered)
    requires Locator(name) !in s.files
    ensures forall q :: q in s.passed ==> q in plans && plans[q].name != name
  {
    forall q | q in s.passed ensures q in plans && plans[q].name != name {
      assert HomeKept(plans[q], s.files, s.homes[q], q in s.delivered);
    }
  }

  lemma UnlinkKeeps(plans: map<Pid, Plan>, s: Sys, p: Pid)
    requires Inv(plans, s) && p in plans && UnlinkStep(plans, s, p).Some?
    ensures Inv(plans, UnlinkStep(plans, s, p).value)
  {
    var Linked(root, stage, nonce) := s.pcs[p];
    var files := s.files - {Temporary(plans[p].Target(root, stage), nonce)};
    UnlinkedKeeps(plans, s, files, p, root, stage, nonce);
    if stage.Locating? {
      PassKeeps(plans, s.(files := files), p, root);
    } else {
      NextKeeps(plans, s.(files := files), p, root, stage);
    }
  }

  lemma NextKeeps(plans: map<Pid, Plan>, s: Sys, p: Pid, root: Root, stage: Stage)
    requires Inv(plans, s) && p in plans && s.pcs[p].Linked? && s.pcs[p].root == root && s.pcs[p].stage == stage
             && !stage.Locating?
    requires Fits(plans[p], s.files, NextStage(root, stage))
    ensures Inv(plans, Goto(s, p, NextStage(root, stage)))
  {
    NextIsEasier(s.pcs[p], root, stage);
    StaysPlaced(plans, s, p);
    MoveKeeps(plans, s, p, NextStage(root, stage));
  }

  lemma NextIsEasier(pc: Pc, root: Root, stage: Stage)
    requires pc.Linked? && pc.root == root && pc.stage == stage && !stage.Locating?
    ensures Easier(pc, NextStage(root, stage))
    ensures forall home: Root :: Placed(pc, home) ==> Placed(NextStage(root, stage), home)
  {
  }

  lemma StaysPlaced(plans: map<Pid, Plan>, s: Sys, p: Pid)
    requires s.pcs.Keys == plans.Keys && Homes(plans, s.files, s.roots, s.pcs, s.passed, s.homes, s.delivered)
    ensures p in s.passed ==> p in plans && p in s.homes && Placed(s.pcs[p], s.homes[p])
  {
  }

  lemma UnlinkFits(plan: Plan, before: map<File, Bytes>, after: map<File, Bytes>, root: Root, stage: Stage,
                   nonce: string)
    requires after == before - {Temporary(plan.Target(root, stage), nonce)}
             && Fits(plan, before, Linked(root, stage, nonce))
    ensures Local(before, after, root) && Fits(plan, after, NextStage(root, stage))
            && Fits(plan, after, Linked(root, stage, nonce))
  {
  }

  lemma UnlinkedKeeps(plans: map<Pid, Plan>, s: Sys, files: map<File, Bytes>, p: Pid, root: Root, stage: Stage,
                      nonce: string)
    requires Inv(plans, s) && p in plans && s.pcs[p] == Linked(root, stage, nonce)
    requires files == s.files - {Temporary(plans[p].Target(root, stage), nonce)}
    ensures Inv(plans, s.(files := files)) && Fits(plans[p], files, NextStage(root, stage))
  {
    FitsNow(plans, s.files, s.pcs, p);
    UnlinkFits(plans[p], s.files, files, root, stage, nonce);
    assert s.pcs[p := s.pcs[p]] == s.pcs;
    assert Holder(s.pcs[p]) ==> Holds(plans[p], s.files, s.pcs[p]);
    assert Keeps(plans[p], s.files, s.pcs[p]);
    ChangeKeeps(plans, s, files, p, s.pcs[p], root);
    assert Goto(s.(files := files), p, s.pcs[p]) == s.(files := files);
  }

  lemma PassOne(plans: map<Pid, Plan>, pcs: map<Pid, Pc>, passed: seq<Pid>, p: Pid, pc: Pc)
    requires pcs.Keys == plans.Keys && OnePerName(plans, pcs, passed) && p in plans && AboutToPass(pcs[p])
             && !AboutToPass(pc)
    ensures OnePerName(plans, pcs[p := pc], passed + [p])
  {
  }

  lemma PassClaims(plans: map<Pid, Plan>, files: map<File, Bytes>, pcs: map<Pid, Pc>, p: Pid, root: Root)
    requires pcs.Keys == plans.Keys && Locators(plans, files, pcs) && Registries(plans, files, pcs) && p in plans
    requires AboutToPass(pcs[p]) && RootOf(pcs[p]) == Some(root) && Fits(plans[p], files, Published(root))
    ensures Locators(plans, files, pcs[p := Published(root)]) && Registries(plans, files, pcs[p := Published(root)])
    ensures HomeKept(plans[p], files, root, false)
  {
    assert Holds(plans[p], files, pcs[p]) && Keeps(plans[p], files, pcs[p]);
    assert !Allows(plans[p], Published(root), JournalFile(root));
  }

  lemma PassHomes(plans: map<Pid, Plan>, files: map<File, Bytes>, roots: set<Root>, pcs: map<Pid, Pc>, passed: seq<Pid>,
                  homes: map<Pid, Root>, delivered: seq<Pid>, p: Pid, root: Root)
    requires pcs.Keys == plans.Keys && Homes(plans, files, roots, pcs, passed, homes, delivered) && p in plans
             && p !in passed
    requires RootOf(pcs[p]) == Some(root) && Alone(pcs, p, root) && root in roots
    requires HomeKept(plans[p], files, root, p in delivered)
    ensures Homes(plans, files, roots, pcs[p := Published(root)], passed + [p], homes[p := root], delivered)
  {
    forall q | q in passed + [p] ensures Alone(pcs[p := Published(root)], q, homes[p := root][q]) {
      MoveAlone(pcs, p, Published(root), q, homes[p := root][q]);
    }
  }

  lemma PassKeeps(plans: map<Pid, Plan>, s: Sys, p: Pid, root: Root)
    requires Inv(plans, s) && p in plans && AboutToPass(s.pcs[p]) && RootOf(s.pcs[p]) == Some(root)
    requires Fits(plans[p], s.files, Published(root))
    ensures Inv(plans, Goto(Passed(s, p, root), p, Published(root)))
  {
    var pc := Published(root);
    RootAlone(s.roots, s.pcs, p, root);
    MoveRoots(s.roots, s.pcs, p, pc);
    PassClaims(plans, s.files, s.pcs, p, root);
    PassOne(plans, s.pcs, s.passed, p, pc);
    assert HomeKept(plans[p], s.files, root, p in s.delivered);
    MoveTidy(plans, s.files, s.pcs, p, pc);
    PassHomes(plans, s.files, s.roots, s.pcs, s.passed, s.homes, s.delivered, p, root);
    MoveDeliveries(s.pcs, s.passed, s.delivered, p, pc);
  }

  lemma RootStepKeeps(plans: map<Pid, Plan>, s: Sys, p: Pid, root: Root)
    requires Inv(plans, s) && p in plans && RootStep(s, p, root).Some?
    ensures Inv(plans, RootStep(s, p, root).value)
  {
    if root in s.roots {
      MoveKeeps(plans, s, p, Ended);
    } else {
      var pc := Writing(root, Registering);
      NewRootAlone(s.roots, s.pcs, p, root, pc);
      MoveOne(plans, s.pcs, s.passed, p, pc);
      MoveTidy(plans, s.files, s.pcs, p, pc);
      NewRootHomes(plans, s, p, root, pc);
      MoveDeliveries(s.pcs, s.passed, s.delivered, p, pc);
    }
  }

  lemma NewRootAlone(roots: set<Root>, pcs: map<Pid, Pc>, p: Pid, root: Root, pc: Pc)
    requires Roots(roots, pcs) && p in pcs && root !in roots && RootOf(pc) == Some(root)
    ensures Roots(roots + {root}, pcs[p := pc])
  {
  }

  lemma NewRootHomes(plans: map<Pid, Plan>, s: Sys, p: Pid, root: Root, pc: Pc)
    requires s.pcs.Keys == plans.Keys && Homes(plans, s.files, s.roots, s.pcs, s.passed, s.homes, s.delivered)
    requires p in plans && s.pcs[p].Unrooted? && root !in s.roots && RootOf(pc) == Some(root)
    ensures Homes(plans, s.files, s.roots + {root}, s.pcs[p := pc], s.passed, s.homes, s.delivered)
  {
  }

  lemma JournalKeeps(plans: map<Pid, Plan>, s: Sys, p: Pid, root: Root)
    requires Inv(plans, s) && p in plans && s.pcs[p] == Delivering(root)
    ensures JournalFile(root) !in s.files && Inv(plans, JournalOpened(s, p, root))
  {
    JournalFree(plans, s.files, s.pcs, p, root);
    JournalOpenedKeeps(plans, s, s.files[JournalFile(root) := ""], p, root);
  }

  lemma JournalFree(plans: map<Pid, Plan>, files: map<File, Bytes>, pcs: map<Pid, Pc>, p: Pid, root: Root)
    requires pcs.Keys == plans.Keys && Tidy(plans, files, pcs) && p in plans && RootOf(pcs[p]) == Some(root)
    ensures JournalFile(root) !in files
  {
    assert !Allows(plans[p], pcs[p], JournalFile(root));
  }

  lemma JournalOpenedKeeps(plans: map<Pid, Plan>, s: Sys, files: map<File, Bytes>, p: Pid, root: Root)
    requires Inv(plans, s) && p in plans && s.pcs[p] == Delivering(root) && files == s.files[JournalFile(root) := ""]
    ensures Inv(plans, Goto(s.(files := files, delivered := s.delivered + [p]), p, Ended))
  {
    var t := Sys(files, s.roots, s.pcs[p := Ended], s.passed, s.homes, s.delivered + [p]);
    JournalEnds(plans, s.roots, s.pcs, s.passed, s.delivered, p);
    JournalPlaced(plans, s.files, files, s.roots, s.pcs, p, root);
    JournalHomes(plans, s, files, p, root);
    Assembled(plans, t);
    assert Goto(s.(files := files, delivered := s.delivered + [p]), p, Ended) == t;
  }

  lemma Assembled(plans: map<Pid, Plan>, t: Sys)
    requires t.pcs.Keys == plans.Keys && Roots(t.roots, t.pcs) && Locators(plans, t.files, t.pcs)
    requires OnePerName(plans, t.pcs, t.passed) && Registries(plans, t.files, t.pcs) && Tidy(plans, t.files, t.pcs)
    requires Covered(t.files, t.roots) && Deliveries(t.pcs, t.passed, t.delivered)
    requires Homes(plans, t.files, t.roots, t.pcs, t.passed, t.homes, t.delivered)
    ensures Inv(plans, t)
  {
  }

  lemma JournalPlaced(plans: map<Pid, Plan>, before: map<File, Bytes>, after: map<File, Bytes>, roots: set<Root>,
                      pcs: map<Pid, Pc>, p: Pid, root: Root)
    requires pcs.Keys == plans.Keys && p in plans && RootOf(pcs[p]) == Some(root)
             && after == before[JournalFile(root) := ""]
    requires Roots(roots, pcs) && Locators(plans, before, pcs) && Registries(plans, before, pcs)
             && Tidy(plans, before, pcs) && Covered(before, roots)
    ensures Locators(plans, after, pcs[p := Ended]) && Registries(plans, after, pcs[p := Ended])
    ensures Tidy(plans, after, pcs[p := Ended]) && Covered(after, roots)
  {
    RootAlone(roots, pcs, p, root);
    JournalClaims(plans, before, after, pcs, p, root);
    ChangeTidy(plans, before, after, pcs, p, Ended, root);
    JournalCovered(before, roots, root);
  }

  lemma JournalEnds(plans: map<Pid, Plan>, roots: set<Root>, pcs: map<Pid, Pc>, passed: seq<Pid>, delivered: seq<Pid>,
                    p: Pid)
    requires pcs.Keys == plans.Keys && p in plans && pcs[p].Delivering?
    requires Roots(roots, pcs) && OnePerName(plans, pcs, passed) && Deliveries(pcs, passed, delivered)
    ensures Roots(roots, pcs[p := Ended]) && OnePerName(plans, pcs[p := Ended], passed)
    ensures Deliveries(pcs[p := Ended], passed, delivered + [p])
  {
    MoveRoots(roots, pcs, p, Ended);
    MoveOne(plans, pcs, passed, p, Ended);
    DeliveredOnce(pcs, passed, delivered, p);
  }

  lemma JournalCovered(files: map<File, Bytes>, roots: set<Root>, root: Root)
    requires Covered(files, roots) && root in roots
    ensures Covered(files[JournalFile(root) := ""], roots)
  {
  }

  lemma JournalClaims(plans: map<Pid, Plan>, before: map<File, Bytes>, after: map<File, Bytes>, pcs: map<Pid, Pc>,
                      p: Pid, root: Root)
    requires pcs.Keys == plans.Keys && Locators(plans, before, pcs) && Registries(plans, before, pcs) && p in plans
    requires after == before[JournalFile(root) := ""]
    ensures Locators(plans, after, pcs[p := Ended]) && Registries(plans, after, pcs[p := Ended])
  {
  }

  lemma JournalHomes(plans: map<Pid, Plan>, s: Sys, files: map<File, Bytes>, p: Pid, root: Root)
    requires s.pcs.Keys == plans.Keys && Homes(plans, s.files, s.roots, s.pcs, s.passed, s.homes, s.delivered)
    requires p in plans && s.pcs[p] == Delivering(root) && files == s.files[JournalFile(root) := ""]
    ensures Homes(plans, files, s.roots, s.pcs[p := Ended], s.passed, s.homes, s.delivered + [p])
  {
    forall q | q in s.passed ensures HomeKept(plans[q], files, s.homes[q], q in s.delivered + [p])
                                     && Alone(s.pcs[p := Ended], q, s.homes[q]) {
      assert HomeKept(plans[q], s.files, s.homes[q], q in s.delivered);
      MoveAlone(s.pcs, p, Ended, q, s.homes[q]);
    }
  }

  lemma DeliveredOnce(pcs: map<Pid, Pc>, passed: seq<Pid>, delivered: seq<Pid>, p: Pid)
    requires Deliveries(pcs, passed, delivered) && p in pcs && pcs[p] != Ended && p in passed
    ensures Deliveries(pcs[p := Ended], passed, delivered + [p])
  {
  }

  // ---- a failed publication ----

  lemma AbandonKeeps(plans: map<Pid, Plan>, s: Sys, p: Pid)
    requires Inv(plans, s) && p in plans && AbandonStep(plans, s, p).Some?
    ensures Inv(plans, AbandonStep(plans, s, p).value)
  {
    var pc := s.pcs[p];
    if (pc.stage.Registering? || pc.stage.Locating?) && Locator(plans[p].name) !in s.files {
      RootCleared(plans, s, p, pc.root, AbandonStep(plans, s, p).value.roots);
    } else {
      MoveKeeps(plans, s, p, Ended);
    }
  }

  /** Clearing an ended pilot's own root touches nobody else. */
  lemma RootCleared(plans: map<Pid, Plan>, s: Sys, p: Pid, root: Root, roots: set<Root>)
    requires Inv(plans, s) && p in plans && RootOf(s.pcs[p]) == Some(root) && p !in s.passed
    requires roots == if Occupied(s.files - FilesOf(root), root) then s.roots else s.roots - {root}
    ensures Inv(plans, Goto(s.(files := s.files - FilesOf(root), roots := roots), p, Ended))
  {
    var files, pcs := s.files - FilesOf(root), s.pcs[p := Ended];
    RootAlone(s.roots, s.pcs, p, root);
    MoveRoots(s.roots, s.pcs, p, Ended);
    FewerRoots(s.roots, roots, pcs, root);
    RemovedLocators(plans, s.files, files, s.pcs, p, root);
    MoveOne(plans, s.pcs, s.passed, p, Ended);
    RemovedRegistries(plans, s.files, files, s.pcs, p, root);
    ChangeTidy(plans, s.files, files, s.pcs, p, Ended, root);
    RemovedHomes(plans, s, files, roots, p, root);
    MoveDeliveries(s.pcs, s.passed, s.delivered, p, Ended);
  }

  lemma FewerRoots(roots: set<Root>, roots': set<Root>, pcs: map<Pid, Pc>, root: Root)
    requires Roots(roots, pcs) && roots - {root} <= roots' <= roots && forall q :: q in pcs ==>
               RootOf(pcs[q]) != Some(root)
    ensures Roots(roots', pcs)
  {
  }

  lemma RemovedLocators(plans: map<Pid, Plan>, before: map<File, Bytes>, after: map<File, Bytes>, pcs: map<Pid, Pc>,
                        p: Pid, root: Root)
    requires pcs.Keys == plans.Keys && Locators(plans, before, pcs) && p in plans && after == before - FilesOf(root)
    ensures Locators(plans, after, pcs[p := Ended])
  {
  }

  lemma RemovedRegistries(plans: map<Pid, Plan>, before: map<File, Bytes>, after: map<File, Bytes>, pcs: map<Pid, Pc>,
                          p: Pid, root: Root)
    requires pcs.Keys == plans.Keys && Registries(plans, before, pcs) && Alone(pcs, p, root) && p in plans
    requires after == before - FilesOf(root)
    ensures Registries(plans, after, pcs[p := Ended])
  {
  }

  lemma RemovedHomes(plans: map<Pid, Plan>, s: Sys, files: map<File, Bytes>, roots: set<Root>, p: Pid, root: Root)
    requires s.pcs.Keys == plans.Keys && Homes(plans, s.files, s.roots, s.pcs, s.passed, s.homes, s.delivered)
    requires p in plans && p !in s.passed && RootOf(s.pcs[p]) == Some(root)
    requires files == s.files - FilesOf(root) && s.roots - {root} <= roots
    ensures Homes(plans, files, roots, s.pcs[p := Ended], s.passed, s.homes, s.delivered)
  {
    forall q | q in s.passed ensures HomeKept(plans[q], files, s.homes[q], q in s.delivered)
                                     && s.homes[q] in roots && Alone(s.pcs[p := Ended], q, s.homes[q]) {
      assert Alone(s.pcs, q, s.homes[q]);
      ElsewhereKept(plans[q], s.files, files, s.homes[q], q in s.delivered, root);
      MoveAlone(s.pcs, p, Ended, q, s.homes[q]);
    }
  }

  lemma ElsewhereKept(plan: Plan, before: map<File, Bytes>, after: map<File, Bytes>, home: Root, begun: bool,
                      root: Root)
    requires HomeKept(plan, before, home, begun) && home != root && after == before - FilesOf(root)
    ensures HomeKept(plan, after, home, begun)
  {
  }

  /** Every step keeps the invariant. */
  lemma StepKeeps(plans: map<Pid, Plan>, s: Sys, step: Step)
    requires Inv(plans, s) && Exec(plans, s, step).Some?
    ensures Inv(plans, Exec(plans, s, step).value)
  {
    match step
    case MakeRoot(p, root) => RootStepKeeps(plans, s, p, root);
    case MakeTemp(p, nonce) => TempStepKeeps(plans, s, p, nonce);
    case Link(p) => LinkKeeps(plans, s, p);
    case Unlink(p) => UnlinkKeeps(plans, s, p);
    case OpenJournal(p) => JournalKeeps(plans, s, p, s.pcs[p].root);
    case Break(p, spilled) => BreakKeeps(plans, s, p, spilled);
    case Abandon(p) => AbandonKeeps(plans, s, p);
    case _ => LookKeeps(plans, s, step);
  }

  lemma {:induction false} RunKeeps(plans: map<Pid, Plan>, s: Sys, steps: seq<Step>)
    requires Inv(plans, s) && Run(plans, s, steps).Some?
    ensures Inv(plans, Run(plans, s, steps).value)
  {
    if steps != [] {
      var short := steps[..|steps| - 1];
      RunKeeps(plans, s, short);
      StepKeeps(plans, Run(plans, s, short).value, steps[|steps| - 1]);
    }
  }

  // ---- what every schedule guarantees ----

  /** Over all runs and processes, wherever publication fails or a process dies, at most one pilot per
      locator name gets past publication; each of those delivers at most once. */
  lemma OneShot(plans: map<Pid, Plan>, s: Sys, steps: seq<Step>)
    requires Initial(plans, s) && Run(plans, s, steps).Some?
    ensures var t := Run(plans, s, steps).value;
            && (forall i, j :: 0 <= i < j < |t.passed| ==>
                  t.passed[i] in plans && t.passed[j] in plans && plans[t.passed[i]].name != plans[t.passed[j]].name)
            && (forall i, j :: 0 <= i < j < |t.delivered| ==>
                  t.delivered[i] in plans && t.delivered[j] in plans
                    && plans[t.delivered[i]].name != plans[t.delivered[j]].name)
  {
    InitialInv(plans, s);
    RunKeeps(plans, s, steps);
    var t := Run(plans, s, steps).value;
    forall i, j | 0 <= i < j < |t.delivered| ensures t.delivered[i] in plans && t.delivered[j] in plans
                                                     && plans[t.delivered[i]].name != plans[t.delivered[j]].name {
      DistinctNames(plans, t.pcs, t.passed, t.delivered[i], t.delivered[j]);
    }
  }

  lemma DistinctNames(plans: map<Pid, Plan>, pcs: map<Pid, Pc>, passed: seq<Pid>, p: Pid, q: Pid)
    requires pcs.Keys == plans.Keys && OnePerName(plans, pcs, passed) && p in passed && q in passed && p != q
    ensures p in plans && q in plans && plans[p].name != plans[q].name
  {
    var i :| 0 <= i < |passed| && passed[i] == p;
    var j :| 0 <= j < |passed| && passed[j] == q;
    assert i < j ==> plans[passed[i]].name != plans[passed[j]].name;
  }

  /** A pilot past publication owns what it published, alive or ended: its locator and registry hold its own
      bytes, whatever other pilots do, so reading them back succeeds; its root stays; and its journal exists
      exactly when it has opened it. */
  lemma PublishedIsIntact(plans: map<Pid, Plan>, s: Sys, steps: seq<Step>, p: Pid)
    requires Initial(plans, s) && Run(plans, s, steps).Some? && p in Run(plans, s, steps).value.passed
    ensures var t := Run(plans, s, steps).value;
            && p in plans && p in t.homes && t.homes[p] in t.roots && Intact(plans[p], t.files, t.homes[p])
            && (JournalFile(t.homes[p]) in t.files <==> p in t.delivered)
            && (RootOf(t.pcs[p]).Some? ==> RootOf(t.pcs[p]) == Some(t.homes[p]))
  {
    RunHomes(plans, s, steps);
    PassedHome(plans, Run(plans, s, steps).value, p);
  }

  lemma RunHomes(plans: map<Pid, Plan>, s: Sys, steps: seq<Step>)
    requires Initial(plans, s) && Run(plans, s, steps).Some?
    ensures var t := Run(plans, s, steps).value; Homes(plans, t.files, t.roots, t.pcs, t.passed, t.homes, t.delivered)
  {
    InitialInv(plans, s);
    RunKeeps(plans, s, steps);
  }

  lemma PassedHome(plans: map<Pid, Plan>, t: Sys, p: Pid)
    requires t.pcs.Keys == plans.Keys && Homes(plans, t.files, t.roots, t.pcs, t.passed, t.homes, t.delivered)
             && p in t.passed
    ensures p in plans && p in t.homes && t.homes[p] in t.roots
            && HomeKept(plans[p], t.files, t.homes[p], p in t.delivered)
    ensures Placed(t.pcs[p], t.homes[p])
  {
  }

  /** No two of them share a home, so each journal belongs to one pilot. */
  lemma OwnHomes(plans: map<Pid, Plan>, s: Sys, steps: seq<Step>)
    requires Initial(plans, s) && Run(plans, s, steps).Some?
    ensures var t := Run(plans, s, steps).value;
            forall p, q :: p in t.passed && q in t.passed && p != q ==>
              p in t.homes && q in t.homes && t.homes[p] != t.homes[q]
  {
    RunHomes(plans, s, steps);
  }

  /** The journal a pilot is about to open is new. */
  lemma JournalIsNew(plans: map<Pid, Plan>, s: Sys, steps: seq<Step>, p: Pid, root: Root)
    requires Initial(plans, s) && Run(plans, s, steps).Some? && p in plans
             && Run(plans, s, steps).value.pcs[p] == Delivering(root)
    ensures JournalFile(root) !in Run(plans, s, steps).value.files
  {
    InitialInv(plans, s);
    RunKeeps(plans, s, steps);
    var t := Run(plans, s, steps).value;
    JournalFree(plans, t.files, t.pcs, p, root);
  }

  /** A pilot that passed keeps the home it passed with. */
  lemma {:induction false} HomeStays(plans: map<Pid, Plan>, s: Sys, steps: seq<Step>, p: Pid)
    requires Inv(plans, s) && Run(plans, s, steps).Some? && p in s.passed
    ensures var t := Run(plans, s, steps).value;
            p in t.passed && p in s.homes && p in t.homes && t.homes[p] == s.homes[p]
  {
    if steps == [] {
      PassedHome(plans, s, p);
    } else {
      var short := steps[..|steps| - 1];
      HomeStays(plans, s, short, p);
      RunKeeps(plans, s, short);
      StepLeavesHome(plans, Run(plans, s, short).value, steps[|steps| - 1], p);
    }
  }

  lemma StepLeavesHome(plans: map<Pid, Plan>, s: Sys, step: Step, p: Pid)
    requires s.pcs.Keys == plans.Keys && OnePerName(plans, s.pcs, s.passed) && Exec(plans, s, step).Some?
    requires p in s.passed && p in s.homes
    ensures var t := Exec(plans, s, step).value; p in t.passed && p in t.homes && t.homes[p] == s.homes[p]
  {
    if step.Unlink? {
      assert AboutToPass(s.pcs[step.p]) ==> plans[p].name != plans[step.p].name;
    } else {
      OnlyUnlinkPasses(plans, s, step);
    }
  }

  lemma OnlyUnlinkPasses(plans: map<Pid, Plan>, s: Sys, step: Step)
    requires s.pcs.Keys == plans.Keys && !step.Unlink? && Exec(plans, s, step).Some?
    ensures var t := Exec(plans, s, step).value; t.passed == s.passed && t.homes == s.homes
  {
  }

  /** Before the launch marker is written there is neither a marker nor a journal in a published root, so the
      reservation of both succeeds. */
  lemma ReservationIsFree(plans: map<Pid, Plan>, s: Sys, steps: seq<Step>, p: Pid, root: Root)
    requires Initial(plans, s) && Run(plans, s, steps).Some? && p in plans
    requires var pc := Run(plans, s, steps).value.pcs[p]; pc == Published(root) || pc == Previewed(root)
    ensures var files := Run(plans, s, steps).value.files;
            forall f :: f in files && HomeOf(f) == Some(root) ==> f == Registry(root)
  {
    InitialInv(plans, s);
    RunKeeps(plans, s, steps);
    var t := Run(plans, s, steps).value;
    FitsNow(plans, t.files, t.pcs, p);
  }

  /** No step removes or rewrites a locator. */
  lemma {:induction false} LocatorStays(plans: map<Pid, Plan>, s: Sys, steps: seq<Step>, name: string)
    requires s.pcs.Keys == plans.Keys && Run(plans, s, steps).Some? && Locator(name) in s.files
    ensures var t := Run(plans, s, steps).value;
            Locator(name) in t.files && t.files[Locator(name)] == s.files[Locator(name)]
  {
    if steps != [] {
      var short := steps[..|steps| - 1];
      LocatorStays(plans, s, short, name);
      StepLeavesLocators(plans, Run(plans, s, short).value, steps[|steps| - 1], name);
    }
  }

  lemma StepLeavesLocators(plans: map<Pid, Plan>, s: Sys, step: Step, name: string)
    requires s.pcs.Keys == plans.Keys && Exec(plans, s, step).Some? && Locator(name) in s.files
    ensures var t := Exec(plans, s, step).value;
            Locator(name) in t.files && t.files[Locator(name)] == s.files[Locator(name)]
  {
  }

  /** Once a pilot has passed, its locator stays, so every later pilot of that name ends at its first check. */
  lemma LaterPilotsConflict(plans: map<Pid, Plan>, s: Sys, steps: seq<Step>, p: Pid, q: Pid)
    requires Initial(plans, s) && Run(plans, s, steps).Some? && p in Run(plans, s, steps).value.passed
    requires q in plans && p in plans && plans[q].name == plans[p].name && Run(plans, s, steps).value.pcs[q] == Start
    ensures var t := Exec(plans, Run(plans, s, steps).value, Precheck(q));
            t.Some? && t.value.pcs[q] == Ended
  {
    InitialInv(plans, s);
    RunKeeps(plans, s, steps);
  }

  // ---- what a delivery finds ----

  predicate MarkerDone(pc: Pc) {
    || pc.Delivering? || (pc.Linked? && pc.stage.Marking?)
    || ((pc.Writing? || pc.TempMade? || pc.Linked?) && pc.stage.Composing?)
  }

  predicate MessageDone(pc: Pc) {
    pc.Delivering? || (pc.Linked? && pc.stage.Composing?)
  }

  /** The marker and the message, once written, hold the pilot's bytes. */
  predicate Lettered(plan: Plan, files: map<File, Bytes>, pc: Pc) {
    && (MarkerDone(pc) ==> Marker(pc.root) in files && files[Marker(pc.root)] == plan.marker)
    && (MessageDone(pc) ==> Message(pc.root) in files && files[Message(pc.root)] == plan.message)
  }

  ghost predicate Letters(plans: map<Pid, Plan>, files: map<File, Bytes>, pcs: map<Pid, Pc>)
    requires pcs.Keys == plans.Keys
  {
    forall p :: p in plans ==> Lettered(plans[p], files, pcs[p])
  }

  /** A step leaves the marker and the message of another root alone. */
  lemma StepSparesLetters(plans: map<Pid, Plan>, s: Sys, step: Step, f: File)
    requires s.pcs.Keys == plans.Keys && Exec(plans, s, step).Some? && f in s.files && (f.Marker? || f.Message?)
    requires RootOf(s.pcs[step.p]) != Some(f.root)
    ensures var t := Exec(plans, s, step).value; f in t.files && t.files[f] == s.files[f]
  {
  }

  lemma OwnLetters(plans: map<Pid, Plan>, s: Sys, step: Step)
    requires s.pcs.Keys == plans.Keys && Exec(plans, s, step).Some?
             && Lettered(plans[step.p], s.files, s.pcs[step.p])
    ensures var t := Exec(plans, s, step).value; Lettered(plans[step.p], t.files, t.pcs[step.p])
  {
  }

  lemma LettersKept(plans: map<Pid, Plan>, s: Sys, step: Step)
    requires Inv(plans, s) && Letters(plans, s.files, s.pcs) && Exec(plans, s, step).Some?
    ensures var t := Exec(plans, s, step).value; Letters(plans, t.files, t.pcs)
  {
    var t := Exec(plans, s, step).value;
    OwnLetters(plans, s, step);
    forall p | p in plans ensures Lettered(plans[p], t.files, t.pcs[p]) {
      if p != step.p {
        OthersLettered(plans, s, step, p, t);
      }
    }
  }

  lemma OthersLettered(plans: map<Pid, Plan>, s: Sys, step: Step, p: Pid, t: Sys)
    requires s.pcs.Keys == plans.Keys && Roots(s.roots, s.pcs) && p in plans && p != step.p
    requires Exec(plans, s, step) == Some(t) && Lettered(plans[p], s.files, s.pcs[p])
    ensures Lettered(plans[p], t.files, t.pcs[p])
  {
    OthersStay(plans, s, step, p);
    if MarkerDone(s.pcs[p]) {
      StepSparesLetters(plans, s, step, Marker(s.pcs[p].root));
    }
    if MessageDone(s.pcs[p]) {
      StepSparesLetters(plans, s, step, Message(s.pcs[p].root));
    }
  }

  lemma OthersStay(plans: map<Pid, Plan>, s: Sys, step: Step, p: Pid)
    requires s.pcs.Keys == plans.Keys && p in plans && p != step.p && Exec(plans, s, step).Some?
    ensures Exec(plans, s, step).value.pcs[p] == s.pcs[p]
  {
  }

  lemma {:induction false} RunLetters(plans: map<Pid, Plan>, s: Sys, steps: seq<Step>)
    requires Initial(plans, s) && Run(plans, s, steps).Some?
    ensures var t := Run(plans, s, steps).value; Letters(plans, t.files, t.pcs)
  {
    if steps != [] {
      var short := steps[..|steps| - 1];
      RunLetters(plans, s, short);
      InitialInv(plans, s);
      RunKeeps(plans, s, short);
      LettersKept(plans, Run(plans, s, short).value, steps[|steps| - 1]);
    }
  }

  /** In every schedule, a pilot about to deliver finds its own marker and its own message in its root. */
  lemma DeliveryIsComposed(plans: map<Pid, Plan>, s: Sys, steps: seq<Step>, p: Pid, root: Root)
    requires Initial(plans, s) && Run(plans, s, steps).Some? && p in plans
    requires Run(plans, s, steps).value.pcs[p] == Delivering(root)
    ensures var files := Run(plans, s, steps).value.files;
            && Marker(root) in files && files[Marker(root)] == plans[p].marker
            && Message(root) in files && files[Message(root)] == plans[p].message
  {
    RunLetters(plans, s, steps);
  }
}
