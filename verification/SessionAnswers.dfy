/** Exactly which messages of the peer make each session call succeed, and what the call leaves behind.
    Nothing here speaks of how the calls are computed. */
module SessionAnswers {
  import opened Common
  import opened Session
  import opened SessionLaws

  // ---- what may pass while something is awaited ----

  /** A status notification that may pass: of the target while it can take a turn, or is at work on the turn
      already requested; of another thread only where that is allowed. */
  predicate MayPass(i: Inbound, v: View, unrelated: bool) {
    && i.Got? && i.message.Notification? && i.message.closed && i.message.event.StatusChanged?
    && i.message.body.StatusBody?
    && if i.message.body.thread != v.target then unrelated
       else match i.message.body.status
         case NotLoaded => true
         case Idle => true
         case Active => v.turnWritten
         case SystemError => false
  }

  ghost predicate AllPass(peer: Peer, v: View, unrelated: bool, end: nat, except: nat) {
    forall k :: v.received <= k < end && k != except ==> MayPass(peer(k), v, unrelated)
  }

  predicate WithinNotes(v: View, n: nat) {
    n == 0 || |v.inbound| + n <= 256
  }

  /** The status of the target after a message. */
  function News(i: Inbound, target: string, status: Status): Status {
    if i.Got? && i.message.Notification? && i.message.body.StatusBody? && i.message.body.thread == target
    then i.message.body.status else status
  }

  function LastStatus(peer: Peer, start: nat, end: nat, target: string, status: Status): Status
    decreases end - start
  {
    if start >= end then status else LastStatus(peer, start + 1, end, target, News(peer(start), target, status))
  }

  /** The session after the message at `at`, `n` status notifications having passed before it. */
  function After(peer: Peer, v: View, at: nat, n: nat): View {
    v.(received := at + 1, inbound := v.inbound[StatusChanged := v.inbound[StatusChanged] + n],
       status := LastStatus(peer, v.received, at, v.target, v.status))
  }

  /** The session after one status notification. */
  function Noted(v: View, i: Inbound): View {
    v.(received := v.received + 1, inbound := v.inbound + multiset{StatusChanged},
       status := News(i, v.target, v.status))
  }

  lemma AfterNone(peer: Peer, v: View)
    ensures After(peer, v, v.received, 0) == v.(received := v.received + 1)
  {
    assert v.inbound[StatusChanged := v.inbound[StatusChanged] + 0] == v.inbound;
  }

  lemma AfterNoted(peer: Peer, v: View, at: nat, n: nat)
    requires v.received < at && n > 0
    ensures After(peer, Noted(v, peer(v.received)), at, n - 1) == After(peer, v, at, n)
  {
    var more := v.inbound + multiset{StatusChanged};
    assert more[StatusChanged := more[StatusChanged] + (n - 1)] ==
           v.inbound[StatusChanged := v.inbound[StatusChanged] + n];
  }

  lemma AcceptPasses(peer: Peer, v: View, unrelated: bool)
    requires peer(v.received).Got? && peer(v.received).message.Notification?
    ensures var r := AcceptRun(v.(received := v.received + 1), peer(v.received).message, unrelated);
            && (r.Returned? <==> MayPass(peer(v.received), v, unrelated) && |v.inbound| < 256)
            && (r.Returned? ==> r.view == Noted(v, peer(v.received)))
  {
  }

  // ---- one answer ----

  /** The message at `at` is the first that is no notification; those before it pass and are within budget. */
  ghost predicate FirstAnswer(peer: Peer, v: View, unrelated: bool, at: nat, m: Message) {
    && v.received <= at && WithinNotes(v, at - v.received) && AllPass(peer, v, unrelated, at, at)
    && peer(at) == Got(m) && !m.Notification? && !m.ServerRequest?
  }

  /** Reading on past a notification. */
  lemma AwaitPast(peer: Peer, v: View, unrelated: bool)
    requires peer(v.received).Got? && peer(v.received).message.Notification?
    ensures AwaitRun(peer, v, unrelated).Returned? ==> MayPass(peer(v.received), v, unrelated) && |v.inbound| < 256
    ensures MayPass(peer(v.received), v, unrelated) && |v.inbound| < 256 ==>
              AwaitRun(peer, v, unrelated) == AwaitRun(peer, Noted(v, peer(v.received)), unrelated)
  {
    AcceptPasses(peer, v, unrelated);
  }

  lemma FirstPast(peer: Peer, v: View, unrelated: bool, at: nat, m: Message)
    requires v.received < at
    ensures FirstAnswer(peer, v, unrelated, at, m) <==>
              && MayPass(peer(v.received), v, unrelated) && |v.inbound| < 256
              && FirstAnswer(peer, Noted(v, peer(v.received)), unrelated, at, m)
  {
    var x := Noted(v, peer(v.received));
    assert forall i :: MayPass(i, x, unrelated) <==> MayPass(i, v, unrelated);
    assert |x.inbound| == |v.inbound| + 1;
  }

  /** What is read first: a notification that passes, or the answer. */
  lemma AwaitCases(peer: Peer, v: View, unrelated: bool, m: Message, w: View) returns (note: bool)
    requires AwaitRun(peer, v, unrelated) == Returned(m, w)
    ensures note ==> && MayPass(peer(v.received), v, unrelated) && |v.inbound| < 256
                     && AwaitRun(peer, Noted(v, peer(v.received)), unrelated) == Returned(m, w)
    ensures !note ==> FirstAnswer(peer, v, unrelated, v.received, m) && w == After(peer, v, v.received, 0)
  {
    note := peer(v.received).message.Notification?;
    if note {
      AwaitPast(peer, v, unrelated);
    } else {
      AfterNone(peer, v);
    }
  }

  lemma Rejoined(peer: Peer, v: View, unrelated: bool, at: nat, m: Message)
    requires MayPass(peer(v.received), v, unrelated) && |v.inbound| < 256
    requires FirstAnswer(peer, Noted(v, peer(v.received)), unrelated, at, m)
    ensures FirstAnswer(peer, v, unrelated, at, m)
            && After(peer, Noted(v, peer(v.received)), at, at - v.received - 1) == After(peer, v, at, at - v.received)
  {
    FirstPast(peer, v, unrelated, at, m);
    AfterNoted(peer, v, at, at - v.received);
  }

  lemma {:induction false} AwaitFinds(peer: Peer, v: View, unrelated: bool, m: Message, w: View) returns (at: nat)
    requires AwaitRun(peer, v, unrelated) == Returned(m, w)
    ensures FirstAnswer(peer, v, unrelated, at, m) && w == After(peer, v, at, at - v.received)
    decreases NOTIFICATION_BUDGET - |v.inbound|
  {
    var note := AwaitCases(peer, v, unrelated, m, w);
    if note {
      at := AwaitFinds(peer, Noted(v, peer(v.received)), unrelated, m, w);
      Rejoined(peer, v, unrelated, at, m);
    } else {
      at := v.received;
    }
  }

  lemma {:induction false} AwaitMeets(peer: Peer, v: View, unrelated: bool, m: Message, at: nat)
    requires FirstAnswer(peer, v, unrelated, at, m)
    ensures AwaitRun(peer, v, unrelated) == Returned(m, After(peer, v, at, at - v.received))
    decreases at - v.received
  {
    if v.received == at {
      AfterNone(peer, v);
    } else {
      FirstPast(peer, v, unrelated, at, m);
      AwaitPast(peer, v, unrelated);
      AwaitMeets(peer, Noted(v, peer(v.received)), unrelated, m, at);
      AfterNoted(peer, v, at, at - v.received);
    }
  }

  // ---- one request ----

  /** An answer: what it carries, where it was heard, and the session it leaves. */
  datatype Step = Step(payload: Payload, at: nat, view: View)

  /** The session with a request numbered and on the wire. */
  function Asked(v: View, rpc: Rpc, params: Params): View {
    v.(nextId := v.nextId + 1, methods := v.methods + [rpc], written := v.written + 1,
       turnStarts := v.turnStarts + (if rpc.TurnStart? then 1 else 0), turnWritten := v.turnWritten || rpc.TurnStart?,
       wire := v.wire + [Call(v.nextId, rpc, params)])
  }

  /** A request and its answer: the profile has the method, a turn is asked for only once, the whole request
      is written, and after notifications that may pass comes the result under the request's own number. */
  ghost predicate Exchange(peer: Peer, fates: Fates, v: View, rpc: Rpc, params: Params, s: Step) {
    var u := Asked(v, rpc, params);
    && (v.profile.Full? || rpc.Initialize? || rpc.ThreadList?) && (rpc.TurnStart? ==> v.turnStarts == 0)
    && fates(v.written).Sent?
    && FirstAnswer(peer, u, !u.turnWritten, s.at, Response(v.nextId, Result(s.payload)))
    && s.view == After(peer, u, s.at, s.at - v.received).(answered := v.answered || rpc.Initialize?)
  }

  lemma SendMeets(fates: Fates, v: View, rpc: Rpc, params: Params)
    ensures var r := SendRun(fates, v, rpc, params);
            && (r.Returned? <==> (v.profile.Full? || rpc.Initialize? || rpc.ThreadList?)
                                 && (rpc.TurnStart? ==> v.turnStarts == 0) && fates(v.written).Sent?)
            && (r.Returned? ==> r == Returned(v.nextId, Asked(v, rpc, params)))
  {
  }

  lemma RequestFinds(peer: Peer, fates: Fates, v: View, rpc: Rpc, params: Params, p: Payload, w: View)
    returns (s: Step)
    requires RequestRun(peer, fates, v, rpc, params) == Returned(p, w)
    ensures Exchange(peer, fates, v, rpc, params, s) && s.payload == p && s.view == w
  {
    SendMeets(fates, v, rpc, params);
    var u := Asked(v, rpc, params);
    var awaited := AwaitRun(peer, u, !u.turnWritten);
    var at := AwaitFinds(peer, u, !u.turnWritten, awaited.value, awaited.view);
    s := Step(p, at, w);
  }

  lemma RequestMeets(peer: Peer, fates: Fates, v: View, rpc: Rpc, params: Params, s: Step)
    requires Exchange(peer, fates, v, rpc, params, s)
    ensures RequestRun(peer, fates, v, rpc, params) == Returned(s.payload, s.view)
  {
    SendMeets(fates, v, rpc, params);
    var u := Asked(v, rpc, params);
    AwaitMeets(peer, u, !u.turnWritten, Response(v.nextId, Result(s.payload)), s.at);
  }

  /** A request returns exactly on such an exchange. */
  lemma RequestAnswered(peer: Peer, fates: Fates, v: View, rpc: Rpc, params: Params, p: Payload, w: View)
    ensures RequestRun(peer, fates, v, rpc, params) == Returned(p, w) <==>
              exists s :: Exchange(peer, fates, v, rpc, params, s) && s.payload == p && s.view == w
  {
    if RequestRun(peer, fates, v, rpc, params) == Returned(p, w) {
      var s := RequestFinds(peer, fates, v, rpc, params, p, w);
    }
    if s :| Exchange(peer, fates, v, rpc, params, s) && s.payload == p && s.view == w {
      RequestMeets(peer, fates, v, rpc, params, s);
    }
  }

  // ---- a listing ----

  function Items(steps: seq<Step>): seq<Item> {
    if steps == [] then []
    else (if steps[0].payload.Page? then steps[0].payload.items else []) + Items(steps[1..])
  }

  function Last(steps: seq<Step>): View
    requires steps != []
  {
    steps[|steps| - 1].view
  }

  /** A page that fits the listing so far: it answers the request for its cursor, holds no more items than it
      may, all of them admissible with those seen; and unless it is the last one, it names somebody and gives a
      cursor that is new and no longer than it may be. */
  ghost predicate Fits(peer: Peer, fates: Fates, v: View, archived: bool, route: Option<Route>, cursor: Option<string>,
                       seen: seq<Item>, cursors: seq<string>, s: Step) {
    && Exchange(peer, fates, v, ThreadList, ListParams(archived, cursor, route), s)
    && s.payload.Page? && |s.payload.items| <= 100 && Admissible(seen + s.payload.items, archived, route)
    && match s.payload.next
       case End => true
       case BadCursor => false
       case More(token) => Identified(s.payload.items) && 0 < |token| <= 1024 && token !in cursors
  }

  /** The pages of one listing, up to the first without a further cursor; `room` is how many there may be. */
  ghost predicate Lists(peer: Peer, fates: Fates, v: View, archived: bool, route: Option<Route>,
                        cursor: Option<string>, seen: seq<Item>, cursors: seq<string>, room: nat, steps: seq<Step>)
    decreases |steps|
  {
    && steps != [] && room > 0 && Fits(peer, fates, v, archived, route, cursor, seen, cursors, steps[0])
    && if steps[0].payload.next.End? then |steps| == 1
       else
         var token := steps[0].payload.next.token;
         Lists(peer, fates, steps[0].view, archived, route, Some(token), seen + steps[0].payload.items,
               cursors + [token], room - 1, steps[1..])
  }

  /** What a page leads to, from its items and its cursor. */
  lemma PageLeads(p: Payload, archived: bool, route: Option<Route>, so: Listing, seen: seq<Item>)
    requires TallyOf(seen, archived, route, so.tally)
    ensures var leaf := TurnPage(p, archived, route, so);
            var fits := p.Page? && |p.items| <= 100 && Admissible(seen + p.items, archived, route);
            && (leaf.Last? <==> fits && p.next.End?)
            && (leaf.Further? <==> fits && p.next.More? && Identified(p.items) && 0 < |p.next.token| <= 1024
                                   && p.next.token !in so.cursors)
            && (leaf.Last? ==> TallyOf(seen + p.items, archived, route, leaf.all.tally))
            && (leaf.Further? ==> leaf.token == p.next.token && leaf.so.cursors == so.cursors + [p.next.token]
                                  && TallyOf(seen + p.items, archived, route, leaf.so.tally))
  {
    if p.Page? {
      TakeItemsTally(seen, p.items, archived, route, so.tally.(added := 0));
      if TakeItems(p.items, archived, route, so.tally.(added := 0)).Some? {
        TakeItemsProgress(p.items, archived, route, so.tally.(added := 0));
      }
    }
  }

  lemma ItemsFirst(seen: seq<Item>, steps: seq<Step>)
    requires steps != [] && steps[0].payload.Page?
    ensures seen + Items(steps) == seen + steps[0].payload.items + Items(steps[1..])
  {
  }

  /** One page of a listing that succeeds. */
  lemma PageFound(peer: Peer, fates: Fates, v: View, archived: bool, route: Option<Route>, cursor: Option<string>,
                  so: Listing, seen: seq<Item>, all: Listing, w: View)
    returns (s: Step, next: Listing)
    requires PagesRun(peer, fates, v, archived, route, cursor, so) == Returned(all, w)
    requires TallyOf(seen, archived, route, so.tally)
    ensures Fits(peer, fates, v, archived, route, cursor, seen, so.cursors, s) && |so.pages| < MAX_LIST_PAGES
    ensures s.payload.next.End? ==>
              w == s.view && TallyOf(seen + s.payload.items, archived, route, all.tally)
    ensures !s.payload.next.End? ==>
              && next.cursors == so.cursors + [s.payload.next.token] && |next.pages| == |so.pages| + 1
              && TallyOf(seen + s.payload.items, archived, route, next.tally)
              && PagesRun(peer, fates, s.view, archived, route, Some(s.payload.next.token), next) == Returned(all, w)
  {
    var p, x, leaf := PagesStep(peer, fates, v, archived, route, cursor, so, all, w);
    s := RequestFinds(peer, fates, v, ThreadList, ListParams(archived, cursor, route), p, x);
    PageLeads(p, archived, route, so, seen);
    next := if leaf.Further? then leaf.so else so;
  }

  /** And one page that fits takes the listing on. */
  lemma PageMeets(peer: Peer, fates: Fates, v: View, archived: bool, route: Option<Route>, cursor: Option<string>,
                  so: Listing, seen: seq<Item>, s: Step)
    returns (next: Listing)
    requires |so.pages| < MAX_LIST_PAGES && TallyOf(seen, archived, route, so.tally)
    requires Fits(peer, fates, v, archived, route, cursor, seen, so.cursors, s)
    ensures TallyOf(seen + s.payload.items, archived, route, next.tally)
    ensures s.payload.next.End? ==>
              PagesRun(peer, fates, v, archived, route, cursor, so) == Returned(next, s.view)
    ensures !s.payload.next.End? ==>
              && next.cursors == so.cursors + [s.payload.next.token] && |next.pages| == |so.pages| + 1
              && PagesRun(peer, fates, v, archived, route, cursor, so) ==
                 PagesRun(peer, fates, s.view, archived, route, Some(s.payload.next.token), next)
  {
    RequestMeets(peer, fates, v, ThreadList, ListParams(archived, cursor, route), s);
    PageLeads(s.payload, archived, route, so, seen);
    PagesGo(peer, fates, v, archived, route, cursor, so, s.payload, s.view);
    var leaf := TurnPage(s.payload, archived, route, so);
    next := if leaf.Further? then leaf.so else leaf.all;
  }

  lemma PagesGo(peer: Peer, fates: Fates, v: View, archived: bool, route: Option<Route>, cursor: Option<string>,
                so: Listing, p: Payload, x: View)
    requires |so.pages| < MAX_LIST_PAGES
    requires RequestRun(peer, fates, v, ThreadList, ListParams(archived, cursor, route)) == Returned(p, x)
    ensures var leaf := TurnPage(p, archived, route, so);
            PagesRun(peer, fates, v, archived, route, cursor, so) ==
            if leaf.Refuse? then Raised(x) else if leaf.Last? then Returned(leaf.all, x)
            else PagesRun(peer, fates, x, archived, route, Some(leaf.token), leaf.so)
  {
  }

  lemma ListsCons(peer: Peer, fates: Fates, v: View, archived: bool, route: Option<Route>, cursor: Option<string>,
                  seen: seq<Item>, cursors: seq<string>, room: nat, s: Step, rest: seq<Step>)
    requires room > 0 && Fits(peer, fates, v, archived, route, cursor, seen, cursors, s)
    requires if s.payload.next.End? then rest == []
             else Lists(peer, fates, s.view, archived, route, Some(s.payload.next.token), seen + s.payload.items,
                        cursors + [s.payload.next.token], room - 1, rest)
    ensures Lists(peer, fates, v, archived, route, cursor, seen, cursors, room, [s] + rest)
    ensures Last([s] + rest) == if rest == [] then s.view else Last(rest)
    ensures seen + Items([s] + rest) == seen + s.payload.items + Items(rest)
  {
    ConsTail(s, rest);
    ItemsFirst(seen, [s] + rest);
  }

  lemma {:induction false} PagesFind(peer: Peer, fates: Fates, v: View, archived: bool, route: Option<Route>,
                                     cursor: Option<string>, so: Listing, seen: seq<Item>, all: Listing, w: View)
    returns (steps: seq<Step>)
    requires PagesRun(peer, fates, v, archived, route, cursor, so) == Returned(all, w)
    requires TallyOf(seen, archived, route, so.tally) && |so.pages| <= MAX_LIST_PAGES
    ensures Lists(peer, fates, v, archived, route, cursor, seen, so.cursors, MAX_LIST_PAGES - |so.pages|, steps)
    ensures w == Last(steps) && TallyOf(seen + Items(steps), archived, route, all.tally)
    decreases MAX_LIST_PAGES - |so.pages|
  {
    var s, next := PageFound(peer, fates, v, archived, route, cursor, so, seen, all, w);
    var rest: seq<Step> := [];
    if !s.payload.next.End? {
      rest := PagesFind(peer, fates, s.view, archived, route, Some(s.payload.next.token), next,
                        seen + s.payload.items, all, w);
    } else {
      assert seen + s.payload.items + Items(rest) == seen + s.payload.items;
    }
    ListsCons(peer, fates, v, archived, route, cursor, seen, so.cursors, MAX_LIST_PAGES - |so.pages|, s, rest);
    steps := [s] + rest;
  }

  lemma ListsSplit(peer: Peer, fates: Fates, v: View, archived: bool, route: Option<Route>, cursor: Option<string>,
                   seen: seq<Item>, cursors: seq<string>, room: nat, steps: seq<Step>)
    returns (s: Step, rest: seq<Step>)
    requires Lists(peer, fates, v, archived, route, cursor, seen, cursors, room, steps)
    ensures room > 0 && |rest| < |steps| && Fits(peer, fates, v, archived, route, cursor, seen, cursors, s)
    ensures s.payload.next.End? ==> Last(steps) == s.view && seen + Items(steps) == seen + s.payload.items
    ensures !s.payload.next.End? ==>
              && Lists(peer, fates, s.view, archived, route, Some(s.payload.next.token), seen + s.payload.items,
                       cursors + [s.payload.next.token], room - 1, rest)
              && Last(steps) == Last(rest) && seen + Items(steps) == seen + s.payload.items + Items(rest)
  {
    s, rest := steps[0], steps[1..];
    ItemsSplit(seen, steps, rest);
  }

  lemma ItemsSplit(seen: seq<Item>, steps: seq<Step>, rest: seq<Step>)
    requires steps != [] && rest == steps[1..] && steps[0].payload.Page?
    ensures seen + Items(steps) == seen + steps[0].payload.items + Items(rest)
    ensures Last(steps) == if rest == [] then steps[0].view else Last(rest)
    ensures rest == [] ==> seen + Items(steps) == seen + steps[0].payload.items
  {
    ItemsFirst(seen, steps);
    assert rest == [] ==> seen + steps[0].payload.items + Items(rest) == seen + steps[0].payload.items;
  }

  lemma {:induction false} PagesMeet(peer: Peer, fates: Fates, v: View, archived: bool, route: Option<Route>,
                                     cursor: Option<string>, so: Listing, seen: seq<Item>, room: nat, steps: seq<Step>)
    returns (all: Listing)
    requires |so.pages| + room == MAX_LIST_PAGES && TallyOf(seen, archived, route, so.tally)
    requires Lists(peer, fates, v, archived, route, cursor, seen, so.cursors, room, steps)
    ensures PagesRun(peer, fates, v, archived, route, cursor, so) == Returned(all, Last(steps))
    ensures TallyOf(seen + Items(steps), archived, route, all.tally)
    decreases |steps|
  {
    var s, rest := ListsSplit(peer, fates, v, archived, route, cursor, seen, so.cursors, room, steps);
    all := PageMeets(peer, fates, v, archived, route, cursor, so, seen, s);
    if !s.payload.next.End? {
      all := PagesMeet(peer, fates, s.view, archived, route, Some(s.payload.next.token), all, seen + s.payload.items,
                       room - 1, rest);
    }
  }

  /** The sealed target as the listing must show it. */
  function TargetEntry(route: Route, status: Status): Entry {
    Entry(route.thread, route.source, route.cwd, status)
  }

  predicate Takes(status: Status) {
    status.NotLoaded? || status.Idle?
  }

  lemma {:induction false} EligibleHas(items: seq<Item>, e: Entry)
    ensures e in EligibleOf(items) <==> WellFormed(e) in items && Takes(e.status)
  {
    if items != [] {
      var short := items[..|items| - 1];
      EligibleHas(short, e);
      assert items == short + [items[|items| - 1]];
    }
  }

  ghost predicate DistinctThreads(entries: seq<Entry>) {
    forall i, j :: 0 <= i < j < |entries| ==> entries[i].thread != entries[j].thread
  }

  lemma {:induction false} EligibleDistinct(items: seq<Item>)
    requires DistinctIds(items)
    ensures DistinctThreads(EligibleOf(items))
  {
    if items != [] {
      var short, last := items[..|items| - 1], items[|items| - 1];
      assert items == short + [last];
      DistinctSnoc(short, last);
      EligibleDistinct(short);
      EligibleAmongIds(short);
      assert last.WellFormed? ==> last.Identity() == Some(last.entry.thread);
    }
  }

  lemma {:induction false} MatchingFinds(entries: seq<Entry>, thread: string)
    requires DistinctThreads(entries)
    ensures forall i :: 0 <= i < |entries| && entries[i].thread == thread ==> Matching(entries, thread) == [entries[i]]
    ensures |Matching(entries, thread)| == 1 ==> Matching(entries, thread)[0] in entries
                                                 && Matching(entries, thread)[0].thread == thread
  {
    if entries != [] {
      var rest := entries[1..];
      assert forall i :: 0 <= i < |rest| ==> rest[i] == entries[i + 1];
      MatchingFinds(rest, thread);
      MatchingOne(rest, thread);
      MatchingFirst(entries, thread);
    }
  }

  lemma MatchingFirst(entries: seq<Entry>, thread: string)
    requires entries != [] && DistinctThreads(entries)
    ensures entries[0].thread == thread ==> Matching(entries, thread) == [entries[0]]
    ensures entries[0].thread != thread ==> Matching(entries, thread) == Matching(entries[1..], thread)
  {
    if entries[0].thread == thread {
      NoMatch(entries[1..], thread);
    }
  }

  lemma NoMatch(entries: seq<Entry>, thread: string)
    requires forall i :: 0 <= i < |entries| ==> entries[i].thread != thread
    ensures Matching(entries, thread) == []
  {
  }

  /** A well-formed item of the target's own name has its source and its directory. */
  lemma FilteredTarget(items: seq<Item>, route: Route, e: Entry)
    requires Filtered(items, Some(route)) && WellFormed(e) in items && e.thread == route.thread
    ensures e == TargetEntry(route, e.status)
  {
    var i :| 0 <= i < |items| && items[i] == WellFormed(e);
  }

  /** Two listings fit together exactly when nothing is in both and the target is among the active threads,
      in a status that takes a turn. */
  lemma CombineMeets(active: Listing, archived: Listing, a: seq<Item>, b: seq<Item>, route: Route)
    requires TallyOf(a, false, Some(route), active.tally) && TallyOf(b, true, Some(route), archived.tally)
    ensures Combine(active, archived, Some(route)).Some? ==>
              var status := Matching(Combine(active, archived, Some(route)).value.entries, route.thread)[0].status;
              IdsOf(a) !! IdsOf(b) && WellFormed(TargetEntry(route, status)) in a && Takes(status)
    ensures forall status :: IdsOf(a) !! IdsOf(b) && WellFormed(TargetEntry(route, status)) in a && Takes(status) ==>
              Combine(active, archived, Some(route)).Some?
              && Matching(Combine(active, archived, Some(route)).value.entries, route.thread)[0].status == status
  {
    var none := active.tally.ids * archived.tally.ids;
    assert forall x :: x in none <==> x in IdsOf(a) && x in IdsOf(b);
    if none == {} {
      EligibleAmongIds(a);
      KeepAll(active.tally.entries, archived.tally.ids);
      EligibleDistinct(a);
      MatchingFinds(EligibleOf(a), route.thread);
      if |Matching(EligibleOf(a), route.thread)| == 1 {
        var e := Matching(EligibleOf(a), route.thread)[0];
        EligibleHas(a, e);
        FilteredTarget(a, route, e);
      }
      forall status | WellFormed(TargetEntry(route, status)) in a && Takes(status)
        ensures Matching(EligibleOf(a), route.thread) == [TargetEntry(route, status)]
      {
        EligibleHas(a, TargetEntry(route, status));
      }
    }
  }

  // ---- preparing ----

  /** A reply that names exactly the sealed target, in a status that takes a turn. */
  predicate NamesTarget(p: Payload, route: Route, resume: bool) {
    && p.ThreadReply? && p.entry.Some? && p.entry.value == TargetEntry(route, p.entry.value.status)
    && (p.entry.value.status.NotLoaded? || p.entry.value.status.Idle?)
    && (resume ==> p.resumeCwd == route.cwd && p.resumeFieldsOk)
  }

  /** The peer names the target when asked for it. */
  ghost predicate Seals(peer: Peer, fates: Fates, v: View, rpc: Rpc, route: Route, s: Step) {
    Exchange(peer, fates, v, rpc, ThreadParams(route.thread), s) && NamesTarget(s.payload, route, rpc.ThreadResume?)
  }

  /** The session knows the status last replied. */
  function Sealed(s: Step): View {
    if s.payload.ThreadReply? && s.payload.entry.Some? then s.view.(status := s.payload.entry.value.status) else s.view
  }

  lemma TargetFinds(peer: Peer, fates: Fates, v: View, rpc: Rpc, route: Route, w: View) returns (s: Step)
    requires TargetRun(peer, fates, v, rpc, route) == Returned((), w)
    ensures Seals(peer, fates, v, rpc, route, s) && w == Sealed(s)
  {
    var asked := RequestRun(peer, fates, v, rpc, ThreadParams(route.thread));
    s := RequestFinds(peer, fates, v, rpc, ThreadParams(route.thread), asked.value, asked.view);
  }

  lemma TargetMeets(peer: Peer, fates: Fates, v: View, rpc: Rpc, route: Route, s: Step)
    requires Seals(peer, fates, v, rpc, route, s)
    ensures TargetRun(peer, fates, v, rpc, route) == Returned((), Sealed(s))
  {
    RequestMeets(peer, fates, v, rpc, ThreadParams(route.thread), s);
  }

  /** The greeting: the peer accepts the client, and the announcement is written. */
  ghost predicate Greets(peer: Peer, fates: Fates, v: View, s: Step) {
    && Exchange(peer, fates, v, Rpc.Initialize, NoParams, s) && s.payload == Initialized(true)
    && fates(s.view.written).Sent?
  }

  function Greeted(s: Step): View {
    s.view.(written := s.view.written + 1, wire := s.view.wire + [Announce])
  }

  lemma InitializeFinds(peer: Peer, fates: Fates, v: View, w: View) returns (s: Step)
    requires InitializeRun(peer, fates, v) == Returned((), w)
    ensures Greets(peer, fates, v, s) && w == Greeted(s)
  {
    var asked := RequestRun(peer, fates, v, Rpc.Initialize, NoParams);
    s := RequestFinds(peer, fates, v, Rpc.Initialize, NoParams, asked.value, asked.view);
  }

  lemma InitializeMeets(peer: Peer, fates: Fates, v: View, s: Step)
    requires Greets(peer, fates, v, s)
    ensures InitializeRun(peer, fates, v) == Returned((), Greeted(s))
  {
    RequestMeets(peer, fates, v, Rpc.Initialize, NoParams, s);
  }

  /** Both listings under the route's filter: each admissible, nothing in both, the target in the first. */
  ghost predicate Shows(peer: Peer, fates: Fates, v: View, route: Route, active: seq<Step>, archived: seq<Step>,
                        status: Status)
  {
    && Lists(peer, fates, v, false, Some(route), None, [], [], 1024, active)
    && Lists(peer, fates, Last(active), true, Some(route), None, [], [], 1024, archived)
    && IdsOf(Items(active)) !! IdsOf(Items(archived))
    && WellFormed(TargetEntry(route, status)) in Items(active) && (status.NotLoaded? || status.Idle?)
  }

  /** A listing that starts with nothing seen and no cursor. */
  ghost predicate Starts(archived: bool, route: Option<Route>, cursor: Option<string>, so: Listing, seen: seq<Item>,
                         room: nat)
  {
    && cursor.None? && so.pages == [] && so.cursors == [] && seen == [] && room == MAX_LIST_PAGES
    && TallyOf(seen, archived, route, so.tally)
  }

  lemma StartFinds(peer: Peer, fates: Fates, v: View, archived: bool, route: Option<Route>, cursor: Option<string>,
                   so: Listing, seen: seq<Item>, room: nat, all: Listing, w: View)
    returns (steps: seq<Step>)
    requires Starts(archived, route, cursor, so, seen, room)
    requires PagesRun(peer, fates, v, archived, route, cursor, so) == Returned(all, w)
    ensures Lists(peer, fates, v, archived, route, cursor, seen, so.cursors, room, steps) && w == Last(steps)
    ensures TallyOf(Items(steps), archived, route, all.tally)
  {
    steps := PagesFind(peer, fates, v, archived, route, cursor, so, seen, all, w);
    assert seen + Items(steps) == Items(steps);
  }

  lemma StartMeets(peer: Peer, fates: Fates, v: View, archived: bool, route: Option<Route>, cursor: Option<string>,
                   so: Listing, seen: seq<Item>, room: nat, steps: seq<Step>)
    returns (all: Listing)
    requires Starts(archived, route, cursor, so, seen, room)
    requires Lists(peer, fates, v, archived, route, cursor, seen, so.cursors, room, steps)
    ensures PagesRun(peer, fates, v, archived, route, cursor, so) == Returned(all, Last(steps))
    ensures TallyOf(Items(steps), archived, route, all.tally)
  {
    all := PagesMeet(peer, fates, v, archived, route, cursor, so, seen, room, steps);
    assert seen + Items(steps) == Items(steps);
  }

  lemma PageSetFinds(peer: Peer, fates: Fates, v: View, archived: bool, route: Option<Route>, all: Listing, w: View)
    returns (steps: seq<Step>)
    requires ListPageSetRun(peer, fates, v, archived, route) == Returned(all, w)
    ensures Lists(peer, fates, v, archived, route, None, [], [], 1024, steps) && w == Last(steps)
    ensures TallyOf(Items(steps), archived, route, all.tally)
  {
    steps := StartFinds(peer, fates, v, archived, route, None, Listing([], [], Tally({}, [], 0, 0)), [], 1024, all, w);
  }

  lemma PageSetMeets(peer: Peer, fates: Fates, v: View, archived: bool, route: Option<Route>, steps: seq<Step>)
    returns (all: Listing)
    requires Lists(peer, fates, v, archived, route, None, [], [], 1024, steps)
    ensures ListPageSetRun(peer, fates, v, archived, route) == Returned(all, Last(steps))
    ensures TallyOf(Items(steps), archived, route, all.tally)
  {
    all := StartMeets(peer, fates, v, archived, route, None, Listing([], [], Tally({}, [], 0, 0)), [], 1024, steps);
  }

  lemma ListFinds(peer: Peer, fates: Fates, v: View, route: Route, t: Threads, w: View)
    returns (active: seq<Step>, archived: seq<Step>, status: Status)
    requires ListThreadsRun(peer, fates, v, Some(route)) == Returned(t, w)
    ensures Shows(peer, fates, v, route, active, archived, status) && w == Last(archived).(status := status)
  {
    var a := ListPageSetRun(peer, fates, v, false, Some(route));
    active := PageSetFinds(peer, fates, v, false, Some(route), a.value, a.view);
    var b := ListPageSetRun(peer, fates, a.view, true, Some(route));
    archived := PageSetFinds(peer, fates, a.view, true, Some(route), b.value, b.view);
    CombineMeets(a.value, b.value, Items(active), Items(archived), route);
    status := Matching(t.entries, route.thread)[0].status;
  }

  lemma ListMeets(peer: Peer, fates: Fates, v: View, route: Route, active: seq<Step>, archived: seq<Step>,
                  status: Status)
    returns (t: Threads)
    requires Shows(peer, fates, v, route, active, archived, status)
    ensures ListThreadsRun(peer, fates, v, Some(route)) == Returned(t, Last(archived).(status := status))
  {
    var a := PageSetMeets(peer, fates, v, false, Some(route), active);
    var b := PageSetMeets(peer, fates, Last(active), true, Some(route), archived);
    CombineMeets(a, b, Items(active), Items(archived), route);
    t := Combine(a, b, Some(route)).value;
  }

  /** Two listings of all threads, with nothing in both. */
  ghost predicate ShowsAll(peer: Peer, fates: Fates, v: View, active: seq<Step>, archived: seq<Step>) {
    && Lists(peer, fates, v, false, None, None, [], [], 1024, active)
    && Lists(peer, fates, Last(active), true, None, None, [], [], 1024, archived)
    && IdsOf(Items(active)) !! IdsOf(Items(archived))
  }

  lemma CombineAll(active: Listing, archived: Listing, a: seq<Item>, b: seq<Item>)
    requires TallyOf(a, false, None, active.tally) && TallyOf(b, true, None, archived.tally)
    ensures Combine(active, archived, None).Some? <==> IdsOf(a) !! IdsOf(b)
    ensures Combine(active, archived, None).Some? ==>
              Combine(active, archived, None).value.entries == EligibleOf(a)
              && Combine(active, archived, None).value.rejected == Rejected(a) + Rejected(b)
  {
    var none := active.tally.ids * archived.tally.ids;
    assert forall x :: x in none <==> x in IdsOf(a) && x in IdsOf(b);
    if none == {} {
      EligibleAmongIds(a);
      KeepAll(active.tally.entries, archived.tally.ids);
    }
  }

  /** The active threads that take a turn, in the order they came, and how many items were malformed. */
  ghost predicate Offers(active: seq<Step>, archived: seq<Step>, entries: seq<Entry>, rejected: nat, w: View) {
    && archived != [] && w == Last(archived) && entries == EligibleOf(Items(active))
    && rejected == Rejected(Items(active)) + Rejected(Items(archived))
  }

  /** The listing a person chooses from succeeds exactly on two such listings. */
  lemma ListAnswered(peer: Peer, fates: Fates, v: View, entries: seq<Entry>, rejected: nat, w: View)
    ensures (exists t :: ListThreadsRun(peer, fates, v, None) == Returned(t, w) && t.entries == entries
                         && t.rejected == rejected) <==>
            exists active, archived ::
              ShowsAll(peer, fates, v, active, archived) && Offers(active, archived, entries, rejected, w)
  {
    if t :| ListThreadsRun(peer, fates, v, None) == Returned(t, w) && t.entries == entries && t.rejected == rejected {
      var active, archived := ListAllFinds(peer, fates, v, t, w);
    }
    if active, archived :|
      ShowsAll(peer, fates, v, active, archived) && Offers(active, archived, entries, rejected, w) {
      var t := ListAllMeets(peer, fates, v, active, archived);
    }
  }

  lemma ListAllFinds(peer: Peer, fates: Fates, v: View, t: Threads, w: View)
    returns (active: seq<Step>, archived: seq<Step>)
    requires ListThreadsRun(peer, fates, v, None) == Returned(t, w)
    ensures ShowsAll(peer, fates, v, active, archived) && Offers(active, archived, t.entries, t.rejected, w)
  {
    var a := ListPageSetRun(peer, fates, v, false, None);
    active := PageSetFinds(peer, fates, v, false, None, a.value, a.view);
    var b := ListPageSetRun(peer, fates, a.view, true, None);
    archived := PageSetFinds(peer, fates, a.view, true, None, b.value, b.view);
    CombineAll(a.value, b.value, Items(active), Items(archived));
  }

  lemma ListAllMeets(peer: Peer, fates: Fates, v: View, active: seq<Step>, archived: seq<Step>) returns (t: Threads)
    requires ShowsAll(peer, fates, v, active, archived)
    ensures ListThreadsRun(peer, fates, v, None) == Returned(t, Last(archived))
    ensures Offers(active, archived, t.entries, t.rejected, Last(archived))
  {
    var a := PageSetMeets(peer, fates, v, false, None, active);
    var b := PageSetMeets(peer, fates, Last(active), true, None, archived);
    CombineAll(a, b, Items(active), Items(archived));
    t := Combine(a, b, None).value;
  }

  /** All that a peer says to a session that is being prepared. */
  datatype Talk = Talk(hello: Step, active: seq<Step>, archived: seq<Step>, status: Status, read: Step, resume: Step,
                       again: Step)

  /** The conversation that prepares a session for a route: the greeting, the two listings, and then a read, a
      resume and another read, each naming the sealed target. */
  ghost predicate Prepares(peer: Peer, fates: Fates, v: View, route: Route, t: Talk) {
    && Greets(peer, fates, v.(target := route.thread), t.hello)
    && Shows(peer, fates, Greeted(t.hello), route, t.active, t.archived, t.status)
    && Seals(peer, fates, Last(t.archived).(status := t.status), ThreadRead, route, t.read)
    && Seals(peer, fates, Sealed(t.read), ThreadResume, route, t.resume)
    && Seals(peer, fates, Sealed(t.resume), ThreadRead, route, t.again)
  }

  lemma PrepareFinds(peer: Peer, fates: Fates, v: View, route: Route, z: View) returns (t: Talk)
    requires PrepareRun(peer, fates, v, route) == Returned((), z)
    ensures Prepares(peer, fates, v, route, t) && z == Sealed(t.again)
  {
    var u := v.(target := route.thread);
    var a := InitializeRun(peer, fates, u).view;
    var hello := InitializeFinds(peer, fates, u, a);
    var b := ListThreadsRun(peer, fates, a, Some(route));
    var active, archived, status := ListFinds(peer, fates, a, route, b.value, b.view);
    var c := TargetRun(peer, fates, b.view, ThreadRead, route).view;
    var read := TargetFinds(peer, fates, b.view, ThreadRead, route, c);
    var d := TargetRun(peer, fates, c, ThreadResume, route).view;
    var resume := TargetFinds(peer, fates, c, ThreadResume, route, d);
    var again := TargetFinds(peer, fates, d, ThreadRead, route, z);
    t := Talk(hello, active, archived, status, read, resume, again);
  }

  lemma PrepareMeets(peer: Peer, fates: Fates, v: View, route: Route, t: Talk)
    requires Prepares(peer, fates, v, route, t)
    ensures PrepareRun(peer, fates, v, route) == Returned((), Sealed(t.again))
  {
    InitializeMeets(peer, fates, v.(target := route.thread), t.hello);
    var all := ListMeets(peer, fates, Greeted(t.hello), route, t.active, t.archived, t.status);
    TargetMeets(peer, fates, Last(t.archived).(status := t.status), ThreadRead, route, t.read);
    TargetMeets(peer, fates, Sealed(t.read), ThreadResume, route, t.resume);
    TargetMeets(peer, fates, Sealed(t.resume), ThreadRead, route, t.again);
  }

  /** Preparation succeeds exactly on such a conversation, and leaves the session as its last reply does. */
  lemma PrepareAnswered(peer: Peer, fates: Fates, v: View, route: Route, z: View)
    ensures PrepareRun(peer, fates, v, route) == Returned((), z) <==>
              exists t :: Prepares(peer, fates, v, route, t) && z == Sealed(t.again)
  {
    if PrepareRun(peer, fates, v, route) == Returned((), z) {
      var t := PrepareFinds(peer, fates, v, route, z);
    }
    if t :| Prepares(peer, fates, v, route, t) && z == Sealed(t.again) {
      PrepareMeets(peer, fates, v, route, t);
    }
  }

  /** In the peer's own messages: the last three answers of a preparation are replies that name the target, with
      nothing but status notifications in between, and the session is left with the status of the last one. */
  lemma LastAnswers(peer: Peer, fates: Fates, v: View, route: Route, z: View) returns (i: nat, j: nat)
    requires PrepareRun(peer, fates, v, route) == Returned((), z)
    ensures v.received <= i < j < z.received - 1
    ensures RepliesWith(peer(i), route, false) && RepliesWith(peer(j), route, true)
            && RepliesWith(peer(z.received - 1), route, false)
    ensures z.status == peer(z.received - 1).message.reply.payload.entry.value.status
    ensures forall k :: i < k < z.received - 1 && k != j ==> IsStatusNote(peer(k))
  {
    var t := PrepareFinds(peer, fates, v, route, z);
    i, j := t.read.at, t.resume.at;
    var listed := Last(t.archived).(status := t.status);
    ExchangeSpan(peer, fates, listed, ThreadRead, ThreadParams(route.thread), t.read);
    ExchangeSpan(peer, fates, Sealed(t.read), ThreadResume, ThreadParams(route.thread), t.resume);
    ExchangeSpan(peer, fates, Sealed(t.resume), ThreadRead, ThreadParams(route.thread), t.again);
    PrepareOnward(peer, fates, v, route, t);
  }

  /** The inbound message is a result that names the target. */
  predicate RepliesWith(i: Inbound, route: Route, resume: bool) {
    i.Got? && i.message.Response? && i.message.reply.Result? && NamesTarget(i.message.reply.payload, route, resume)
  }

  lemma ExchangeSpan(peer: Peer, fates: Fates, v: View, rpc: Rpc, params: Params, s: Step)
    requires Exchange(peer, fates, v, rpc, params, s)
    ensures v.received <= s.at && s.view.received == s.at + 1
    ensures peer(s.at) == Got(Response(v.nextId, Result(s.payload)))
    ensures forall k :: v.received <= k < s.at ==> IsStatusNote(peer(k))
  {
  }

  lemma {:induction false} ListsOnward(peer: Peer, fates: Fates, v: View, archived: bool, route: Option<Route>,
                                       cursor: Option<string>, seen: seq<Item>, cursors: seq<string>, room: nat,
                                       steps: seq<Step>)
    requires Lists(peer, fates, v, archived, route, cursor, seen, cursors, room, steps)
    ensures v.received <= Last(steps).received
    decreases |steps|
  {
    var s, rest := ListsSplit(peer, fates, v, archived, route, cursor, seen, cursors, room, steps);
    ExchangeSpan(peer, fates, v, ThreadList, ListParams(archived, cursor, route), s);
    if !s.payload.next.End? {
      ListsOnward(peer, fates, s.view, archived, route, Some(s.payload.next.token), seen + s.payload.items,
                  cursors + [s.payload.next.token], room - 1, rest);
    }
  }

  lemma PrepareOnward(peer: Peer, fates: Fates, v: View, route: Route, t: Talk)
    requires Prepares(peer, fates, v, route, t)
    ensures v.received <= Last(t.archived).received
  {
    ExchangeSpan(peer, fates, v.(target := route.thread), Rpc.Initialize, NoParams, t.hello);
    ListsOnward(peer, fates, Greeted(t.hello), false, Some(route), None, [], [], 1024, t.active);
    ListsOnward(peer, fates, Last(t.active), true, Some(route), None, [], [], 1024, t.archived);
  }

  // ---- the turn ----

  /** The turn is seen to start at `begun` and to complete at `done`; all between are notifications that pass. */
  ghost predicate SeesTurn(peer: Peer, v: View, thread: string, turn: string, begun: nat, done: nat) {
    && v.received <= begun < done && WithinNotes(v, done - v.received - 1) && AllPass(peer, v, false, done, begun)
    && IsTurnNote(peer(begun), TurnStarted, thread, turn)
    && IsTurnNote(peer(done), TurnCompleted, thread, turn) && peer(done).message.body.turn.status.Completed?
  }

  /** The same once the start has been seen. */
  ghost predicate SeesEnd(peer: Peer, v: View, thread: string, turn: string, done: nat) {
    && v.received <= done && WithinNotes(v, done - v.received) && AllPass(peer, v, false, done, done)
    && IsTurnNote(peer(done), TurnCompleted, thread, turn) && peer(done).message.body.turn.status.Completed?
  }

  lemma WaitPast(peer: Peer, v: View, thread: string, turn: string, sawStarted: bool)
    requires IsStatusNote(peer(v.received))
    ensures WaitRun(peer, v, thread, turn, sawStarted).Returned? ==>
              MayPass(peer(v.received), v, false) && |v.inbound| < 256
    ensures MayPass(peer(v.received), v, false) && |v.inbound| < 256 ==>
              WaitRun(peer, v, thread, turn, sawStarted) ==
              WaitRun(peer, Noted(v, peer(v.received)), thread, turn, sawStarted)
  {
    AcceptPasses(peer, v, false);
  }

  lemma WaitNews(peer: Peer, v: View, thread: string, turn: string, sawStarted: bool)
    requires !IsStatusNote(peer(v.received))
    ensures WaitRun(peer, v, thread, turn, sawStarted) ==
            if !sawStarted && IsTurnNote(peer(v.received), TurnStarted, thread, turn) then
              WaitRun(peer, v.(received := v.received + 1), thread, turn, true)
            else if sawStarted && IsTurnNote(peer(v.received), TurnCompleted, thread, turn)
                    && peer(v.received).message.body.turn.status.Completed? then
              Returned(turn, v.(received := v.received + 1))
            else Raised(v.(received := v.received + 1))
  {
  }

  lemma AfterOther(peer: Peer, v: View, at: nat, n: nat)
    requires v.received < at && News(peer(v.received), v.target, v.status) == v.status
    ensures After(peer, v.(received := v.received + 1), at, n) == After(peer, v, at, n)
  {
  }

  lemma PassSame(v: View, x: View)
    requires x.target == v.target && x.turnWritten == v.turnWritten
    ensures forall i :: MayPass(i, x, false) <==> MayPass(i, v, false)
  {
  }

  lemma EndPast(peer: Peer, v: View, thread: string, turn: string, done: nat)
    requires v.received < done
    ensures SeesEnd(peer, v, thread, turn, done) <==>
              && MayPass(peer(v.received), v, false) && |v.inbound| < 256
              && SeesEnd(peer, Noted(v, peer(v.received)), thread, turn, done)
  {
    PassSame(v, Noted(v, peer(v.received)));
  }

  lemma TurnPast(peer: Peer, v: View, thread: string, turn: string, begun: nat, done: nat)
    requires v.received < begun
    ensures SeesTurn(peer, v, thread, turn, begun, done) <==>
              && MayPass(peer(v.received), v, false) && |v.inbound| < 256
              && SeesTurn(peer, Noted(v, peer(v.received)), thread, turn, begun, done)
  {
    PassSame(v, Noted(v, peer(v.received)));
  }

  lemma TurnBegins(peer: Peer, v: View, thread: string, turn: string, done: nat)
    requires v.received < done
    ensures SeesTurn(peer, v, thread, turn, v.received, done) <==>
              IsTurnNote(peer(v.received), TurnStarted, thread, turn)
              && SeesEnd(peer, v.(received := v.received + 1), thread, turn, done)
  {
    PassSame(v, v.(received := v.received + 1));
  }

  lemma EndCases(peer: Peer, v: View, thread: string, turn: string, value: string, w: View) returns (note: bool)
    requires WaitRun(peer, v, thread, turn, true) == Returned(value, w)
    ensures note ==> && MayPass(peer(v.received), v, false) && |v.inbound| < 256
                     && WaitRun(peer, Noted(v, peer(v.received)), thread, turn, true) == Returned(value, w)
    ensures !note ==> SeesEnd(peer, v, thread, turn, v.received) && w == After(peer, v, v.received, 0) && value == turn
  {
    note := IsStatusNote(peer(v.received));
    if note {
      WaitPast(peer, v, thread, turn, true);
    } else {
      WaitNews(peer, v, thread, turn, true);
      AfterNone(peer, v);
    }
  }

  lemma EndRejoined(peer: Peer, v: View, thread: string, turn: string, done: nat)
    requires MayPass(peer(v.received), v, false) && |v.inbound| < 256
    requires SeesEnd(peer, Noted(v, peer(v.received)), thread, turn, done)
    ensures SeesEnd(peer, v, thread, turn, done)
    ensures After(peer, Noted(v, peer(v.received)), done, done - v.received - 1)
            == After(peer, v, done, done - v.received)
  {
    EndPast(peer, v, thread, turn, done);
    AfterNoted(peer, v, done, done - v.received);
  }

  lemma {:induction false} EndFinds(peer: Peer, v: View, thread: string, turn: string, value: string, w: View)
    returns (done: nat)
    requires WaitRun(peer, v, thread, turn, true) == Returned(value, w)
    ensures SeesEnd(peer, v, thread, turn, done) && w == After(peer, v, done, done - v.received) && value == turn
    decreases NOTIFICATION_BUDGET - |v.inbound|
  {
    var note := EndCases(peer, v, thread, turn, value, w);
    if note {
      done := EndFinds(peer, Noted(v, peer(v.received)), thread, turn, value, w);
      EndRejoined(peer, v, thread, turn, done);
    } else {
      done := v.received;
    }
  }

  lemma {:induction false} EndMeets(peer: Peer, v: View, thread: string, turn: string, done: nat)
    requires SeesEnd(peer, v, thread, turn, done)
    ensures WaitRun(peer, v, thread, turn, true) == Returned(turn, After(peer, v, done, done - v.received))
    decreases done - v.received
  {
    if v.received == done {
      WaitNews(peer, v, thread, turn, true);
      AfterNone(peer, v);
    } else {
      EndPast(peer, v, thread, turn, done);
      WaitPast(peer, v, thread, turn, true);
      EndMeets(peer, Noted(v, peer(v.received)), thread, turn, done);
      AfterNoted(peer, v, done, done - v.received);
    }
  }

  lemma TurnCases(peer: Peer, v: View, thread: string, turn: string, value: string, w: View) returns (note: bool)
    requires WaitRun(peer, v, thread, turn, false) == Returned(value, w)
    ensures note ==> && MayPass(peer(v.received), v, false) && |v.inbound| < 256
                     && WaitRun(peer, Noted(v, peer(v.received)), thread, turn, false) == Returned(value, w)
    ensures !note ==> IsTurnNote(peer(v.received), TurnStarted, thread, turn)
                      && WaitRun(peer, v.(received := v.received + 1), thread, turn, true) == Returned(value, w)
  {
    note := IsStatusNote(peer(v.received));
    if note {
      WaitPast(peer, v, thread, turn, false);
    } else {
      WaitNews(peer, v, thread, turn, false);
    }
  }

  lemma TurnRejoined(peer: Peer, v: View, thread: string, turn: string, begun: nat, done: nat)
    requires MayPass(peer(v.received), v, false) && |v.inbound| < 256
    requires SeesTurn(peer, Noted(v, peer(v.received)), thread, turn, begun, done)
    ensures SeesTurn(peer, v, thread, turn, begun, done)
    ensures After(peer, Noted(v, peer(v.received)), done, done - v.received - 2)
            == After(peer, v, done, done - v.received - 1)
  {
    TurnPast(peer, v, thread, turn, begun, done);
    AfterNoted(peer, v, done, done - v.received - 1);
  }

  lemma TurnStarts(peer: Peer, v: View, thread: string, turn: string, done: nat)
    requires IsTurnNote(peer(v.received), TurnStarted, thread, turn)
    requires SeesEnd(peer, v.(received := v.received + 1), thread, turn, done)
    ensures SeesTurn(peer, v, thread, turn, v.received, done)
    ensures After(peer, v.(received := v.received + 1), done, done - v.received - 1)
            == After(peer, v, done, done - v.received - 1)
  {
    TurnBegins(peer, v, thread, turn, done);
    AfterOther(peer, v, done, done - v.received - 1);
  }

  lemma {:induction false} TurnFinds(peer: Peer, v: View, thread: string, turn: string, value: string, w: View)
    returns (begun: nat, done: nat)
    requires WaitRun(peer, v, thread, turn, false) == Returned(value, w)
    ensures SeesTurn(peer, v, thread, turn, begun, done) && w == After(peer, v, done, done - v.received - 1)
            && value == turn
    decreases NOTIFICATION_BUDGET - |v.inbound|
  {
    var note := TurnCases(peer, v, thread, turn, value, w);
    if note {
      begun, done := TurnFinds(peer, Noted(v, peer(v.received)), thread, turn, value, w);
      TurnRejoined(peer, v, thread, turn, begun, done);
    } else {
      begun := v.received;
      done := EndFinds(peer, v.(received := v.received + 1), thread, turn, value, w);
      TurnStarts(peer, v, thread, turn, done);
    }
  }

  lemma {:induction false} TurnMeets(peer: Peer, v: View, thread: string, turn: string, begun: nat, done: nat)
    requires SeesTurn(peer, v, thread, turn, begun, done)
    ensures WaitRun(peer, v, thread, turn, false) == Returned(turn, After(peer, v, done, done - v.received - 1))
    decreases begun - v.received
  {
    if v.received == begun {
      TurnBegins(peer, v, thread, turn, done);
      WaitNews(peer, v, thread, turn, false);
      EndMeets(peer, v.(received := v.received + 1), thread, turn, done);
      AfterOther(peer, v, done, done - v.received - 1);
    } else {
      TurnPast(peer, v, thread, turn, begun, done);
      WaitPast(peer, v, thread, turn, false);
      TurnMeets(peer, Noted(v, peer(v.received)), thread, turn, begun, done);
      AfterNoted(peer, v, done, done - v.received - 1);
    }
  }

  /** The turn as the peer tells it: a reply that it is in progress, its start and its completion. */
  datatype Tale = Tale(turn: string, reply: Step, begun: nat, done: nat)

  ghost predicate Turns(peer: Peer, fates: Fates, v: View, thread: string, text: string, t: Tale) {
    && Exchange(peer, fates, v, TurnStart, TurnParams(thread, text), t.reply)
    && t.reply.payload == TurnReply(Turn(t.turn, InProgress))
    && SeesTurn(peer, t.reply.view, thread, t.turn, t.begun, t.done)
  }

  function Told(peer: Peer, t: Tale): View
    requires t.reply.view.received < t.done
  {
    After(peer, t.reply.view, t.done, t.done - t.reply.view.received - 1)
  }

  /** A turn is started and seen through exactly when the peer tells it so. */
  lemma TurnAnswered(peer: Peer, fates: Fates, v: View, thread: string, text: string, turn: string, w: View)
    ensures StartAndWaitRun(peer, fates, v, thread, text) == Returned(turn, w) <==>
              exists t :: Turns(peer, fates, v, thread, text, t) && t.turn == turn && w == Told(peer, t)
  {
    if StartAndWaitRun(peer, fates, v, thread, text) == Returned(turn, w) {
      var t := TaleFinds(peer, fates, v, thread, text, turn, w);
    }
    if t :| Turns(peer, fates, v, thread, text, t) && t.turn == turn && w == Told(peer, t) {
      TaleMeets(peer, fates, v, thread, text, t);
    }
  }

  lemma TaleFinds(peer: Peer, fates: Fates, v: View, thread: string, text: string, turn: string, w: View)
    returns (t: Tale)
    requires StartAndWaitRun(peer, fates, v, thread, text) == Returned(turn, w)
    ensures Turns(peer, fates, v, thread, text, t) && t.turn == turn && w == Told(peer, t)
  {
    var asked := RequestRun(peer, fates, v, TurnStart, TurnParams(thread, text));
    var s := RequestFinds(peer, fates, v, TurnStart, TurnParams(thread, text), asked.value, asked.view);
    var begun, done := TurnFinds(peer, s.view, thread, s.payload.turn.id, turn, w);
    t := Tale(turn, s, begun, done);
  }

  lemma TaleMeets(peer: Peer, fates: Fates, v: View, thread: string, text: string, t: Tale)
    requires Turns(peer, fates, v, thread, text, t)
    ensures StartAndWaitRun(peer, fates, v, thread, text) == Returned(t.turn, Told(peer, t))
  {
    RequestMeets(peer, fates, v, TurnStart, TurnParams(thread, text), t.reply);
    TurnMeets(peer, t.reply.view, thread, t.turn, t.begun, t.done);
  }

  // ---- a peer that does all this ----

  /** What an obliging peer sends: the answers in turn, the target alone in the listing, and the turn. */
  function Obliging(route: Route, turn: string): Peer {
    var here := Entry(route.thread, route.source, route.cwd, Idle);
    var reply := ThreadReply(Some(here), route.cwd, true);
    (k: nat) =>
      if k == 0 then Got(Response(1, Result(Initialized(true))))
      else if k == 1 then Got(Response(2, Result(Page([WellFormed(here)], End))))
      else if k == 2 then Got(Response(3, Result(Page([], End))))
      else if k < 6 then Got(Response(k + 1, Result(reply)))
      else if k == 6 then Got(Response(7, Result(TurnReply(Turn(turn, InProgress)))))
      else if k == 7 then Got(Notification(TurnStarted, true, TurnBody(route.thread, Turn(turn, InProgress))))
      else if k == 8 then Got(Notification(TurnCompleted, true, TurnBody(route.thread, Turn(turn, Completed))))
      else Lost
  }

  /** Where a conversation without notifications stands after n answers. */
  predicate Fluent(v: View, n: nat) {
    v.profile.Full? && v.received == n && v.nextId == n + 1 && v.inbound == multiset{} && v.turnStarts == 0
  }

  lemma AtOnce(peer: Peer, fates: Fates, v: View, rpc: Rpc, params: Params, p: Payload, n: nat) returns (s: Step)
    requires Fluent(v, n) && peer(n) == Got(Response(n + 1, Result(p))) && fates(v.written).Sent?
    ensures Exchange(peer, fates, v, rpc, params, s) && s.payload == p
    ensures if rpc.TurnStart? then s.view.received == n + 1 && s.view.inbound == multiset{} else Fluent(s.view, n + 1)
  {
    var u := Asked(v, rpc, params);
    s := Step(p, n, After(peer, u, n, 0).(answered := v.answered || rpc.Initialize?));
    AfterNone(peer, u);
  }

  lemma ObligingLists(peer: Peer, fates: Fates, v: View, archived: bool, route: Option<Route>, items: seq<Item>, n: nat)
    returns (steps: seq<Step>)
    requires Fluent(v, n) && peer(n) == Got(Response(n + 1, Result(Page(items, End)))) && fates(v.written).Sent?
    requires |items| <= 100 && Admissible(items, archived, route)
    ensures Lists(peer, fates, v, archived, route, None, [], [], 1024, steps) && Items(steps) == items
    ensures Fluent(Last(steps), n + 1)
  {
    var s := AtOnce(peer, fates, v, ThreadList, ListParams(archived, None, route), Page(items, End), n);
    assert [] + items == items;
    ListsCons(peer, fates, v, archived, route, None, [], [], 1024, s, []);
    steps := [s];
    assert [s] + [] == steps && Items(steps) == items + Items(steps[1..]);
  }

  lemma ObligingSeals(peer: Peer, fates: Fates, v: View, rpc: Rpc, route: Route, p: Payload, n: nat) returns (s: Step)
    requires Fluent(v, n) && peer(n) == Got(Response(n + 1, Result(p))) && fates(v.written).Sent?
    requires !rpc.TurnStart? && NamesTarget(p, route, true)
    ensures Seals(peer, fates, v, rpc, route, s) && Fluent(Sealed(s), n + 1)
  {
    s := AtOnce(peer, fates, v, rpc, ThreadParams(route.thread), p, n);
  }

  lemma ObligingPrepares(route: Route, turn: string, fates: Fates) returns (t: Talk)
    requires forall k :: fates(k).Sent?
    ensures Prepares(Obliging(route, turn), fates, Fresh(Full), route, t) && Fluent(Sealed(t.again), 6)
  {
    var peer, here := Obliging(route, turn), Entry(route.thread, route.source, route.cwd, Idle);
    var reply := ThreadReply(Some(here), route.cwd, true);
    var hello := AtOnce(peer, fates, Fresh(Full).(target := route.thread), Rpc.Initialize, NoParams, Initialized(true),
                        0);
    var active := ObligingLists(peer, fates, Greeted(hello), false, Some(route), [WellFormed(here)], 1);
    var archived := ObligingLists(peer, fates, Last(active), true, Some(route), [], 2);
    assert [WellFormed(here)][0] == WellFormed(here);
    var read := ObligingSeals(peer, fates, Last(archived).(status := Idle), ThreadRead, route, reply, 3);
    var resume := ObligingSeals(peer, fates, Sealed(read), ThreadResume, route, reply, 4);
    var again := ObligingSeals(peer, fates, Sealed(resume), ThreadRead, route, reply, 5);
    t := Talk(hello, active, archived, Idle, read, resume, again);
  }

  /** Such a peer, and writes that all go through: the session is prepared and the turn completed. */
  lemma Obliged(route: Route, text: string, turn: string, fates: Fates) returns (t: Talk, u: Tale)
    requires forall k :: fates(k).Sent?
    ensures var peer := Obliging(route, turn);
            && Prepares(peer, fates, Fresh(Full), route, t)
            && Turns(peer, fates, Sealed(t.again), route.thread, text, u) && u.turn == turn
  {
    var peer := Obliging(route, turn);
    t := ObligingPrepares(route, turn, fates);
    var s := AtOnce(peer, fates, Sealed(t.again), TurnStart, TurnParams(route.thread, text),
                    TurnReply(Turn(turn, InProgress)), 6);
    u := Tale(turn, s, 7, 8);
  }
}
