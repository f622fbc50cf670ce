/** The whole promise of the ceremony: the exclusive locator lets one pilot through to the delivery, and the
    journal lets one request through to the wire. */
module OneTurn {
  import opened Journal
  import P = Pilot
  import D = Delivery

  /** All that ever happened on one journal: any number of runs, from a journal that did not exist. */
  datatype Story = Story(jobs: map<D.Pid, D.Job>, start: D.Sys, steps: seq<D.Step>)

  /** A possible story whose runs all deliver this message to this target. */
  ghost predicate Told(c: Codec, story: Story, pair: (string, string)) {
    && D.Initial(story.jobs, story.start) && D.Run(c, story.jobs, story.start, story.steps).Some?
    && forall q :: q in story.jobs ==> story.jobs[q].Pair() == pair
  }

  /** The turn requests written in a story. */
  function Sent(c: Codec, story: Story): seq<D.Pid>
    requires story.start.pcs.Keys == story.jobs.Keys && D.Run(c, story.jobs, story.start, story.steps).Some?
  {
    D.Run(c, story.jobs, story.start, story.steps).value.sent
  }

  /** Each of these pilots has its journal's story. */
  ghost predicate AllTold(c: Codec, pair: (string, string), stories: map<P.Pid, Story>, delivered: seq<P.Pid>) {
    forall p :: p in delivered ==> p in stories && Told(c, stories[p], pair)
  }

  /** The turn requests written by the pilots of one locator name. */
  ghost function Requests(c: Codec, pair: (string, string), plans: map<P.Pid, P.Plan>, stories: map<P.Pid, Story>,
                          delivered: seq<P.Pid>, name: string): nat
    requires AllTold(c, pair, stories, delivered) && forall p :: p in delivered ==> p in plans
  {
    if delivered == [] then 0
    else
      var p, rest := delivered[|delivered| - 1], delivered[..|delivered| - 1];
      var before := Requests(c, pair, plans, stories, rest, name);
      if plans[p].name == name then before + |Sent(c, stories[p])| else before
  }

  /** In a story a pair is sent at one place only. */
  lemma OnePlace(c: Codec, story: Story, i: nat, j: nat)
    requires Lawful(c) && D.Initial(story.jobs, story.start) && D.Run(c, story.jobs, story.start, story.steps).Some?
    requires i < |Sent(c, story)| && j < |Sent(c, story)|
    ensures var sent := Sent(c, story);
            && sent[i] in story.jobs && sent[j] in story.jobs
            && (story.jobs[sent[i]].Pair() == story.jobs[sent[j]].Pair() ==> i == j)
  {
    D.AtMostOnce(c, story.jobs, story.start, story.steps);
    D.SentAreJobs(c, story.jobs, story.start, story.steps);
    var sent := Sent(c, story);
    assert sent[i] in sent && sent[j] in sent;
  }

  lemma OneEach(c: Codec, story: Story, pair: (string, string))
    requires Lawful(c) && Told(c, story, pair)
    ensures |Sent(c, story)| <= 1
  {
    if Sent(c, story) != [] {
      OnePlace(c, story, 0, |Sent(c, story)| - 1);
    }
  }

  lemma {:induction false} NoneUnder(c: Codec, pair: (string, string), plans: map<P.Pid, P.Plan>,
                                     stories: map<P.Pid, Story>, delivered: seq<P.Pid>, name: string)
    requires AllTold(c, pair, stories, delivered)
             && (forall p :: p in delivered ==> p in plans && plans[p].name != name)
    ensures Requests(c, pair, plans, stories, delivered, name) == 0
  {
    if delivered != [] {
      NoneUnder(c, pair, plans, stories, delivered[..|delivered| - 1], name);
    }
  }

  lemma {:induction false} OneUnder(c: Codec, pair: (string, string), plans: map<P.Pid, P.Plan>,
                                    stories: map<P.Pid, Story>, delivered: seq<P.Pid>, name: string)
    requires Lawful(c) && AllTold(c, pair, stories, delivered) && (forall p :: p in delivered ==> p in plans)
    requires forall i, j :: 0 <= i < j < |delivered| ==> plans[delivered[i]].name != plans[delivered[j]].name
    ensures Requests(c, pair, plans, stories, delivered, name) <= 1
  {
    if delivered != [] {
      var last := |delivered| - 1;
      if plans[delivered[last]].name == name {
        NoneUnder(c, pair, plans, stories, delivered[..last], name);
        OneEach(c, stories[delivered[last]], pair);
      } else {
        OneUnder(c, pair, plans, stories, delivered[..last], name);
      }
    }
  }

  /** Over all pilots, and all runs that ever use their journals, wherever they die and whatever a power loss
      takes from a journal: at most one turn request per locator name. */
  lemma OneRequestPerName(plans: map<P.Pid, P.Plan>, s: P.Sys, steps: seq<P.Step>, c: Codec, pair: (string, string),
                          stories: map<P.Pid, Story>, name: string)
    requires P.Initial(plans, s) && P.Run(plans, s, steps).Some?
    requires Lawful(c) && AllTold(c, pair, stories, P.Run(plans, s, steps).value.delivered)
    ensures var delivered := P.Run(plans, s, steps).value.delivered;
            && (forall p :: p in delivered ==> p in plans)
            && Requests(c, pair, plans, stories, delivered, name) <= 1
  {
    P.InitialInv(plans, s);
    P.RunKeeps(plans, s, steps);
    P.OneShot(plans, s, steps);
    OneUnder(c, pair, plans, stories, P.Run(plans, s, steps).value.delivered, name);
  }
}
