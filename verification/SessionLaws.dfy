/** What a session guarantees whatever the peer sends: bounded reading, one turn, and a listing
    that is the plain filter of the pages received. */
module SessionLaws {
  import opened Common
  import opened Session

  // ---- how much is read ----

  /** Messages read beyond one per request and one per accepted notification. */
  function Surplus(v: View): int {
    v.received - |v.methods| - |v.inbound|
  }

  ghost predicate WithinBudget(v: View) {
    |v.inbound| <= NOTIFICATION_BUDGET
  }

  lemma {:induction false} AwaitReads(peer: Peer, v: View, allowUnrelated: bool)
    requires WithinBudget(v) && AwaitRun(peer, v, allowUnrelated).Returned?
    ensures var w := AwaitRun(peer, v, allowUnrelated).view;
            && WithinBudget(w) && Surplus(w) == Surplus(v) + 1
            && w.methods == v.methods && w.wire == v.wire && w.turnStarts == v.turnStarts && w.nextId == v.nextId
            && w.profile == v.profile
    decreases NOTIFICATION_BUDGET - |v.inbound|
  {
    var r := ReadRun(peer, v);
    if r.value.Notification? {
      AwaitReads(peer, AcceptRun(r.view, r.value, allowUnrelated).view, allowUnrelated);
    }
  }

  /** A successful request reads its answer and the notifications before it, and nothing else. */
  lemma RequestReads(peer: Peer, fates: Fates, v: View, rpc: Rpc, params: Params)
    requires WithinBudget(v) && RequestRun(peer, fates, v, rpc, params).Returned?
    ensures var w := RequestRun(peer, fates, v, rpc, params).view;
            && WithinBudget(w) && Surplus(w) == Surplus(v)
            && w.methods == v.methods + [rpc] && w.wire == v.wire + [Call(v.nextId, rpc, params)]
            && w.nextId == v.nextId + 1 && w.profile == v.profile
            && w.turnStarts == v.turnStarts + (if rpc.TurnStart? then 1 else 0)
  {
    var sent := SendRun(fates, v, rpc, params).view;
    AwaitReads(peer, sent, !rpc.TurnStart? && !sent.turnWritten);
  }

  lemma {:induction false} WaitReads(peer: Peer, v: View, thread: string, turn: string, sawStarted: bool)
    requires WithinBudget(v) && WaitRun(peer, v, thread, turn, sawStarted).Returned?
    ensures var w := WaitRun(peer, v, thread, turn, sawStarted).view;
            && WithinBudget(w) && Surplus(w) == Surplus(v) + (if sawStarted then 1 else 2)
            && w.methods == v.methods && w.wire == v.wire
    decreases !sawStarted, NOTIFICATION_BUDGET - |v.inbound|
  {
    var r := ReadRun(peer, v);
    if r.value.event.StatusChanged? {
      WaitReads(peer, AcceptRun(r.view, r.value, false).view, thread, turn, sawStarted);
    } else if r.value.event.TurnStarted? {
      WaitReads(peer, r.view, thread, turn, true);
    }
  }

  /** From the start on, only status notifications pass until the turn's own completion. */
  lemma {:induction false} SeenCompleted(peer: Peer, v: View, thread: string, turn: string, value: string, w: View)
    requires WaitRun(peer, v, thread, turn, true) == Returned(value, w)
    ensures value == turn && v.received < w.received
    ensures IsTurnNote(peer(w.received - 1), TurnCompleted, thread, turn)
    ensures peer(w.received - 1).message.body.turn.status.Completed?
    ensures forall k :: v.received <= k < w.received - 1 ==> IsStatusNote(peer(k))
    decreases NOTIFICATION_BUDGET - |v.inbound|
  {
    var r := ReadRun(peer, v);
    if Hear(r.value, thread, turn, true).StatusNews? {
      SeenCompleted(peer, AcceptRun(r.view, r.value, false).view, thread, turn, value, w);
    }
  }

  /** The turn returned was seen to start and later to complete, with only status changes around. */
  lemma {:induction false} SeenStartedThenCompleted(peer: Peer, v: View, thread: string, turn: string, value: string,
                                                    w: View)
    returns (started: nat)
    requires WaitRun(peer, v, thread, turn, false) == Returned(value, w)
    ensures value == turn && v.received <= started < w.received - 1
    ensures IsTurnNote(peer(started), TurnStarted, thread, turn)
    ensures IsTurnNote(peer(w.received - 1), TurnCompleted, thread, turn)
    ensures peer(w.received - 1).message.body.turn.status.Completed?
    ensures forall k :: v.received <= k < w.received - 1 && k != started ==> IsStatusNote(peer(k))
    decreases NOTIFICATION_BUDGET - |v.inbound|
  {
    var r := ReadRun(peer, v);
    if Hear(r.value, thread, turn, false).StatusNews? {
      started := SeenStartedThenCompleted(peer, AcceptRun(r.view, r.value, false).view, thread, turn, value, w);
    } else {
      started := v.received;
      SeenCompleted(peer, r.view, thread, turn, value, w);
    }
  }

  predicate IsTurnNote(i: Inbound, event: Event, thread: string, turn: string) {
    && i.Got? && i.message.Notification? && i.message.closed && i.message.event == event
    && i.message.body.TurnBody? && i.message.body.thread == thread && i.message.body.turn.id == turn
  }

  predicate IsStatusNote(i: Inbound) {
    i.Got? && i.message.Notification? && i.message.event.StatusChanged?
  }

  // ---- the listing against its plain reading ----

  function Flatten(pages: seq<seq<Item>>): seq<Item> {
    if pages == [] then [] else Flatten(pages[..|pages| - 1]) + pages[|pages| - 1]
  }

  /** In server order, the well-formed items that may receive a turn. */
  function EligibleOf(items: seq<Item>): seq<Entry> {
    if items == [] then []
    else
      var last := items[|items| - 1];
      EligibleOf(items[..|items| - 1]) + (if last.WellFormed? && Eligible(last.entry.status) then [last.entry] else [])
  }

  function IdsOf(items: seq<Item>): set<string> {
    set i | 0 <= i < |items| && items[i].Identity().Some? :: items[i].Identity().value
  }

  function Rejected(items: seq<Item>): nat {
    if items == [] then 0
    else Rejected(items[..|items| - 1]) + if items[|items| - 1].WellFormed? then 0 else 1
  }

  predicate DistinctIds(items: seq<Item>) {
    forall i, j :: 0 <= i < j < |items| && items[i].Identity().Some? ==> items[i].Identity() != items[j].Identity()
  }

  /** The route filter as the server was asked to apply it, and no malformed target. */
  predicate Filtered(items: seq<Item>, route: Option<Route>) {
    route.Some? ==> forall i :: 0 <= i < |items| ==>
      match items[i]
      case WellFormed(e) => e.source == route.value.source && e.cwd == route.value.cwd
      case Malformed(id) => id != route.value.thread
      case Nameless => true
  }

  /** What a tally must be after exactly `items`. */
  ghost predicate TallyOf(items: seq<Item>, archived: bool, route: Option<Route>, t: Tally) {
    && t.ids == IdsOf(items)
    && t.entries == (if archived then [] else EligibleOf(items))
    && t.rejected == Rejected(items)
    && DistinctIds(items)
    && Filtered(items, route)
    && (archived ==> Named(items))
  }

  lemma IdsSnoc(items: seq<Item>, item: Item)
    ensures IdsOf(items + [item]) == IdsOf(items) + if item.Identity().Some? then {item.Identity().value} else {}
  {
    var after := items + [item];
    assert after[|items|] == item && forall i :: 0 <= i < |items| ==> after[i] == items[i];
  }

  lemma DistinctSnoc(items: seq<Item>, item: Item)
    ensures DistinctIds(items + [item]) <==>
              DistinctIds(items) && (item.Identity().Some? ==> item.Identity().value !in IdsOf(items))
  {
    var after := items + [item];
    assert after[|items|] == item && forall i :: 0 <= i < |items| ==> after[i] == items[i];
    if item.Identity().Some? && item.Identity().value in IdsOf(items) {
      var i :| 0 <= i < |items| && items[i].Identity() == item.Identity();
      assert after[i].Identity() == after[|items|].Identity();
    }
  }

  lemma FilteredSnoc(items: seq<Item>, item: Item, route: Option<Route>)
    ensures Filtered(items + [item], route) <==> Filtered(items, route) && Filtered([item], route)
  {
    var after := items + [item];
    assert after[|items|] == item && [item][0] == item && forall i :: 0 <= i < |items| ==> after[i] == items[i];
  }

  predicate Named(items: seq<Item>) {
    forall i :: 0 <= i < |items| ==> !items[i].Nameless?
  }

  lemma NamedSnoc(items: seq<Item>, item: Item)
    ensures Named(items + [item]) <==> Named(items) && !item.Nameless?
  {
    var after := items + [item];
    assert after[|items|] == item && forall i :: 0 <= i < |items| ==> after[i] == items[i];
  }

  lemma CountsSnoc(items: seq<Item>, item: Item)
    ensures EligibleOf(items + [item]) ==
            EligibleOf(items) + if item.WellFormed? && Eligible(item.entry.status) then [item.entry] else []
    ensures Rejected(items + [item]) == Rejected(items) + if item.WellFormed? then 0 else 1
  {
    assert (items + [item])[..|items|] == items;
  }

  lemma TakeItemTally(items: seq<Item>, item: Item, archived: bool, route: Option<Route>, t: Tally)
    requires TallyOf(items, archived, route, t)
    ensures TakeItem(item, archived, route, t).Some? ==>
              TallyOf(items + [item], archived, route, TakeItem(item, archived, route, t).value)
    ensures TakeItem(item, archived, route, t).None? ==> !Admissible(items + [item], archived, route)
  {
    IdsSnoc(items, item);
    DistinctSnoc(items, item);
    FilteredSnoc(items, item, route);
    NamedSnoc(items, item);
    CountsSnoc(items, item);
    assert [item][0] == item;
  }

  /** The items a listing can accept at all. */
  predicate Admissible(items: seq<Item>, archived: bool, route: Option<Route>) {
    DistinctIds(items) && Filtered(items, route) && (archived ==> Named(items))
  }

  predicate Identified(items: seq<Item>) {
    exists i :: 0 <= i < |items| && items[i].Identity().Some?
  }

  lemma InadmissiblePrefix(items: seq<Item>, more: seq<Item>, archived: bool, route: Option<Route>)
    ensures Admissible(items + more, archived, route) ==> Admissible(items, archived, route)
  {
    assert forall i :: 0 <= i < |items| ==> (items + more)[i] == items[i];
  }

  /** A page is taken exactly when the items so far stay admissible, and then the tally stays exact. */
  lemma {:induction false} TakeItemsTally(seen: seq<Item>, items: seq<Item>, archived: bool, route: Option<Route>,
                                          t: Tally)
    requires TallyOf(seen, archived, route, t)
    ensures TakeItems(items, archived, route, t).Some? <==> Admissible(seen + items, archived, route)
    ensures TakeItems(items, archived, route, t).Some? ==>
              TallyOf(seen + items, archived, route, TakeItems(items, archived, route, t).value)
    decreases |items|
  {
    if items == [] {
      assert seen + items == seen;
    } else {
      var next := TakeItem(items[0], archived, route, t);
      TakeItemTally(seen, items[0], archived, route, t);
      assert (seen + [items[0]]) + items[1..] == seen + items;
      if next.Some? {
        TakeItemsTally(seen + [items[0]], items[1..], archived, route, next.value);
      } else {
        InadmissiblePrefix(seen + [items[0]], items[1..], archived, route);
      }
    }
  }

  /** A page counts as progress exactly when it names somebody. */
  lemma {:induction false} TakeItemsProgress(items: seq<Item>, archived: bool, route: Option<Route>, t: Tally)
    requires TakeItems(items, archived, route, t).Some?
    ensures var u := TakeItems(items, archived, route, t).value;
            u.added >= t.added && (u.added > t.added <==> Identified(items))
    decreases |items|
  {
    if items != [] {
      var next := TakeItem(items[0], archived, route, t);
      TakeItemsProgress(items[1..], archived, route, next.value);
      if Identified(items[1..]) {
        var i :| 0 <= i < |items[1..]| && items[1..][i].Identity().Some?;
        assert items[i + 1].Identity().Some?;
      } else {
        assert forall i :: 0 < i < |items| ==> items[i] == items[1..][i - 1];
      }
    }
  }

  /** Pages and cursors line up, every page that was continued named somebody, no cursor came twice. */
  ghost predicate Paged(so: Listing, archived: bool, route: Option<Route>) {
    && TallyOf(Flatten(so.pages), archived, route, so.tally)
    && (forall i :: 0 <= i < |so.cursors| && i < |so.pages| ==> Identified(so.pages[i]))
    && (forall i, j :: 0 <= i < j < |so.cursors| ==> so.cursors[i] != so.cursors[j])
  }

  lemma TurnPagePaged(p: Payload, archived: bool, route: Option<Route>, so: Listing)
    requires Paged(so, archived, route) && |so.cursors| == |so.pages|
    ensures match TurnPage(p, archived, route, so)
            case Refuse => true
            case Last(all) => Paged(all, archived, route) && |all.cursors| == |all.pages| - 1
            case Further(next, token) => Paged(next, archived, route) && |next.cursors| == |next.pages|
  {
    if TurnPage(p, archived, route, so) != Refuse {
      var start := so.tally.(added := 0);
      TakeItemsTally(Flatten(so.pages), p.items, archived, route, start);
      TakeItemsProgress(p.items, archived, route, start);
      FlattenSnoc(so.pages, p.items);
    }
  }

  lemma FlattenSnoc(pages: seq<seq<Item>>, items: seq<Item>)
    ensures Flatten(pages + [items]) == Flatten(pages) + items
  {
    assert (pages + [items])[..|pages|] == pages;
  }

  /** One request of a listing that succeeds: its page is the last, or the listing goes on from it. */
  lemma PagesStep(peer: Peer, fates: Fates, v: View, archived: bool, route: Option<Route>, cursor: Option<string>,
                  so: Listing, all: Listing, w: View)
    returns (p: Payload, x: View, leaf: Leaf)
    requires PagesRun(peer, fates, v, archived, route, cursor, so) == Returned(all, w)
    ensures |so.pages| < MAX_LIST_PAGES
    ensures RequestRun(peer, fates, v, ThreadList, ListParams(archived, cursor, route)) == Returned(p, x)
    ensures leaf == TurnPage(p, archived, route, so) && leaf != Refuse && (leaf.Last? ==> leaf.all == all && w == x)
    ensures leaf.Further? ==> PagesRun(peer, fates, x, archived, route, Some(leaf.token), leaf.so) == Returned(all, w)
  {
    var answer := RequestRun(peer, fates, v, ThreadList, ListParams(archived, cursor, route));
    p, x, leaf := answer.value, answer.view, TurnPage(answer.value, archived, route, so);
  }

  lemma {:induction false} PagesListing(peer: Peer, fates: Fates, v: View, archived: bool, route: Option<Route>,
                                        cursor: Option<string>, so: Listing, all: Listing, w: View)
    requires PagesRun(peer, fates, v, archived, route, cursor, so) == Returned(all, w)
    requires Paged(so, archived, route) && |so.cursors| == |so.pages|
    ensures Paged(all, archived, route) && |all.cursors| == |all.pages| - 1
    decreases MAX_LIST_PAGES - |so.pages|
  {
    var p, x, leaf := PagesStep(peer, fates, v, archived, route, cursor, so, all, w);
    TurnPagePaged(p, archived, route, so);
    if leaf.Further? {
      PagesListing(peer, fates, x, archived, route, Some(leaf.token), leaf.so, all, w);
    }
  }

  /** The pages among the messages the peer sent from one read to another. */
  function HeardPages(peer: Peer, start: nat, end: nat): seq<Payload>
    requires start <= end
  {
    if start == end then []
    else
      match peer(end - 1)
      case Got(Response(_, Result(Page(items, next)))) => HeardPages(peer, start, end - 1) + [Page(items, next)]
      case _ => HeardPages(peer, start, end - 1)
  }

  /** The pages of a listing from the n-th on, each with the cursor that was followed, the last with none. */
  function AsPages(so: Listing, n: nat): seq<Payload>
    requires n <= |so.pages|
  {
    seq(|so.pages| - n, i requires 0 <= i < |so.pages| - n =>
      Page(so.pages[n + i], if n + i < |so.cursors| then More(so.cursors[n + i]) else End))
  }

  lemma {:induction false} HeardConcat(peer: Peer, start: nat, mid: nat, end: nat)
    requires start <= mid <= end
    ensures HeardPages(peer, start, end) == HeardPages(peer, start, mid) + HeardPages(peer, mid, end)
    decreases end
  {
    if mid == end {
      assert HeardPages(peer, start, mid) + [] == HeardPages(peer, start, mid);
    } else {
      HeardConcat(peer, start, mid, end - 1);
    }
  }

  predicate OnlyNotes(peer: Peer, start: nat, end: nat) {
    forall k :: start <= k < end ==> peer(k).Got? && peer(k).message.Notification?
  }

  /** What waiting reads first: a notification, after which it goes on, or the message it returns. */
  lemma AwaitStep(peer: Peer, v: View, allowUnrelated: bool, m: Message, w: View) returns (note: bool, x: View)
    requires AwaitRun(peer, v, allowUnrelated) == Returned(m, w)
    ensures note ==> && peer(v.received).Got? && peer(v.received).message.Notification?
                     && x.received == v.received + 1 && |x.inbound| == |v.inbound| + 1 <= NOTIFICATION_BUDGET
                     && AwaitRun(peer, x, allowUnrelated) == Returned(m, w)
    ensures !note ==> peer(v.received) == Got(m) && w.received == v.received + 1
  {
    var r := ReadRun(peer, v);
    note := r.value.Notification?;
    x := if note then AcceptRun(r.view, r.value, allowUnrelated).view else v;
  }

  lemma NotesJoin(peer: Peer, start: nat, end: nat)
    requires OnlyNotes(peer, start + 1, end) && peer(start).Got? && peer(start).message.Notification?
    ensures OnlyNotes(peer, start, end)
  {
  }

  /** Before the message it returns, waiting reads only notifications. */
  lemma {:induction false} AwaitHears(peer: Peer, v: View, allowUnrelated: bool, m: Message, w: View)
    requires AwaitRun(peer, v, allowUnrelated) == Returned(m, w)
    ensures v.received < w.received && peer(w.received - 1) == Got(m) && OnlyNotes(peer, v.received, w.received - 1)
    decreases NOTIFICATION_BUDGET - |v.inbound|
  {
    var note, x := AwaitStep(peer, v, allowUnrelated, m, w);
    if note {
      AwaitHears(peer, x, allowUnrelated, m, w);
      NotesJoin(peer, v.received, w.received - 1);
    }
  }

  lemma {:induction false} NotesOnly(peer: Peer, start: nat, end: nat)
    requires start <= end && OnlyNotes(peer, start, end)
    ensures HeardPages(peer, start, end) == []
    decreases end
  {
    if start < end {
      NotesOnly(peer, start, end - 1);
    }
  }

  lemma RequestAwaits(peer: Peer, fates: Fates, v: View, rpc: Rpc, params: Params, p: Payload, w: View)
    returns (sent: View, m: Message, x: View)
    requires RequestRun(peer, fates, v, rpc, params) == Returned(p, w)
    ensures sent.received == v.received && AwaitRun(peer, sent, !rpc.TurnStart? && !sent.turnWritten) == Returned(m, x)
    ensures x.received == w.received && m.Response? && m.reply == Result(p)
  {
    sent := SendRun(fates, v, rpc, params).view;
    var awaited := AwaitRun(peer, sent, !rpc.TurnStart? && !sent.turnWritten);
    m, x := awaited.value, awaited.view;
  }

  lemma RequestHears(peer: Peer, fates: Fates, v: View, rpc: Rpc, params: Params, p: Payload, w: View)
    requires RequestRun(peer, fates, v, rpc, params) == Returned(p, w)
    ensures v.received < w.received && HeardPages(peer, v.received, w.received) == if p.Page? then [p] else []
  {
    var sent, m, x := RequestAwaits(peer, fates, v, rpc, params, p, w);
    AwaitedPage(peer, sent, !rpc.TurnStart? && !sent.turnWritten, m, x, p);
  }

  lemma AwaitedPage(peer: Peer, v: View, allowUnrelated: bool, m: Message, w: View, p: Payload)
    requires AwaitRun(peer, v, allowUnrelated) == Returned(m, w) && m.Response? && m.reply == Result(p)
    ensures v.received < w.received && HeardPages(peer, v.received, w.received) == if p.Page? then [p] else []
  {
    AwaitHears(peer, v, allowUnrelated, m, w);
    NotesOnly(peer, v.received, w.received - 1);
    HeardLast(peer, v.received, w.received, m, p);
  }

  lemma HeardLast(peer: Peer, start: nat, end: nat, m: Message, p: Payload)
    requires start < end && peer(end - 1) == Got(m) && m.Response? && m.reply == Result(p)
    ensures HeardPages(peer, start, end) == HeardPages(peer, start, end - 1) + if p.Page? then [p] else []
  {
  }

  /** The pages of a listing are those the peer sent meanwhile, all of them and in this order. */
  lemma {:induction false} PagesHeard(peer: Peer, fates: Fates, v: View, archived: bool, route: Option<Route>,
                                      cursor: Option<string>, so: Listing, all: Listing, w: View)
    requires PagesRun(peer, fates, v, archived, route, cursor, so) == Returned(all, w) && |so.cursors| == |so.pages|
    ensures so.pages <= all.pages && so.cursors <= all.cursors && |all.cursors| < |all.pages|
            && v.received <= w.received
    ensures HeardPages(peer, v.received, w.received) == AsPages(all, |so.pages|)
    decreases MAX_LIST_PAGES - |so.pages|
  {
    var p, x, leaf := PagesStep(peer, fates, v, archived, route, cursor, so, all, w);
    RequestHears(peer, fates, v, ThreadList, ListParams(archived, cursor, route), p, x);
    TurnedPage(p, archived, route, so);
    if leaf.Further? {
      PagesHeard(peer, fates, x, archived, route, Some(leaf.token), leaf.so, all, w);
      HeardFurther(peer, v.received, x.received, w.received, all, leaf.so, |so.pages|, p);
    }
  }

  /** What a page leaves in the listing. */
  lemma TurnedPage(p: Payload, archived: bool, route: Option<Route>, so: Listing)
    requires |so.cursors| == |so.pages|
    ensures match TurnPage(p, archived, route, so)
            case Refuse => true
            case Last(all) =>
              so.pages <= all.pages && so.cursors <= all.cursors && |all.cursors| < |all.pages|
                && AsPages(all, |so.pages|) == [p]
            case Further(next, token) =>
              && p == Page(next.pages[|so.pages|], More(token)) && next.cursors == so.cursors + [token]
              && so.pages <= next.pages && |next.cursors| == |next.pages| == |so.pages| + 1
  {
  }

  lemma HeardFurther(peer: Peer, start: nat, mid: nat, end: nat, all: Listing, so: Listing, n: nat, p: Payload)
    requires start <= mid <= end && HeardPages(peer, start, mid) == [p] && |so.pages| == |so.cursors| == n + 1
    requires so.pages <= all.pages && so.cursors <= all.cursors && HeardPages(peer, mid, end) == AsPages(all, n + 1)
    requires p == Page(so.pages[n], More(so.cursors[n]))
    ensures HeardPages(peer, start, end) == AsPages(all, n)
  {
    HeardConcat(peer, start, mid, end);
    assert AsPages(all, n) == [p] + AsPages(all, n + 1);
  }

  /** A listing of n pages makes n requests and reads nothing it need not. */
  lemma {:induction false} PagesReads(peer: Peer, fates: Fates, v: View, archived: bool, route: Option<Route>,
                                      cursor: Option<string>, so: Listing, all: Listing, w: View)
    requires WithinBudget(v) && PagesRun(peer, fates, v, archived, route, cursor, so) == Returned(all, w)
    ensures so.cursors <= all.cursors && |so.pages| < |all.pages| <= MAX_LIST_PAGES
    ensures WithinBudget(w) && Surplus(w) == Surplus(v) && w.turnStarts == v.turnStarts
    ensures |w.methods| == |v.methods| + |all.pages| - |so.pages|
    decreases MAX_LIST_PAGES - |so.pages|
  {
    var p, x, leaf := PagesStep(peer, fates, v, archived, route, cursor, so, all, w);
    RequestReads(peer, fates, v, ThreadList, ListParams(archived, cursor, route));
    if leaf.Further? {
      PagesReads(peer, fates, x, archived, route, Some(leaf.token), leaf.so, all, w);
    }
  }

  function PageCall(id: nat, archived: bool, route: Option<Route>, cursor: Option<string>): Outbound {
    Call(id, ThreadList, ListParams(archived, cursor, route))
  }

  /** `after` adds to `before` the request for `cursor` and then one per cursor from the n-th on,
      each under the next identifier. */
  ghost predicate Chained(before: seq<Outbound>, after: seq<Outbound>, id: nat, archived: bool, route: Option<Route>,
                          cursor: Option<string>, cursors: seq<string>, n: nat)
  {
    && n <= |cursors| && before <= after && |after| == |before| + 1 + |cursors| - n
    && after[|before|] == PageCall(id, archived, route, cursor)
    && forall k :: n <= k < |cursors| ==>
         after[|before| + 1 + k - n] == PageCall(id + 1 + k - n, archived, route, Some(cursors[k]))
  }

  lemma ChainedFurther(before: seq<Outbound>, after: seq<Outbound>, id: nat, archived: bool, route: Option<Route>,
                       cursor: Option<string>, cursors: seq<string>, n: nat)
    requires n < |cursors|
    requires Chained(before + [PageCall(id, archived, route, cursor)], after, id + 1, archived, route,
                     Some(cursors[n]), cursors, n + 1)
    ensures Chained(before, after, id, archived, route, cursor, cursors, n)
  {
    var mid := before + [PageCall(id, archived, route, cursor)];
    assert after[|before|] == mid[|before|];
    forall k | n <= k < |cursors|
      ensures after[|before| + 1 + k - n] == PageCall(id + 1 + k - n, archived, route, Some(cursors[k]))
    {
      assert k > n ==> after[|mid| + 1 + k - (n + 1)]
                       == PageCall(id + 1 + 1 + k - (n + 1), archived, route, Some(cursors[k]));
    }
  }

  lemma ChainedLast(before: seq<Outbound>, id: nat, archived: bool, route: Option<Route>, cursor: Option<string>,
                    cursors: seq<string>)
    ensures Chained(before, before + [PageCall(id, archived, route, cursor)], id, archived, route, cursor, cursors,
                    |cursors|)
  {
  }

  lemma PageWire(peer: Peer, fates: Fates, v: View, archived: bool, route: Option<Route>, cursor: Option<string>,
                 p: Payload, x: View)
    requires WithinBudget(v) && RequestRun(peer, fates, v, ThreadList, ListParams(archived, cursor, route)) ==
             Returned(p, x)
    ensures WithinBudget(x) && x.wire == v.wire + [PageCall(v.nextId, archived, route, cursor)]
            && x.nextId == v.nextId + 1
  {
    RequestReads(peer, fates, v, ThreadList, ListParams(archived, cursor, route));
  }

  lemma {:induction false} PagesWire(peer: Peer, fates: Fates, v: View, archived: bool, route: Option<Route>,
                                     cursor: Option<string>, so: Listing, all: Listing, w: View)
    requires WithinBudget(v) && PagesRun(peer, fates, v, archived, route, cursor, so) == Returned(all, w)
    ensures so.cursors <= all.cursors
    ensures Chained(v.wire, w.wire, v.nextId, archived, route, cursor, all.cursors, |so.cursors|)
    decreases MAX_LIST_PAGES - |so.pages|
  {
    var p, x, leaf := PagesStep(peer, fates, v, archived, route, cursor, so, all, w);
    PageWire(peer, fates, v, archived, route, cursor, p, x);
    if leaf.Further? {
      PagesWire(peer, fates, x, archived, route, Some(leaf.token), leaf.so, all, w);
      assert all.cursors[|so.cursors|] == leaf.so.cursors[|so.cursors|];
      ChainedFurther(v.wire, w.wire, v.nextId, archived, route, cursor, all.cursors, |so.cursors|);
    } else {
      ChainedLast(v.wire, v.nextId, archived, route, cursor, all.cursors);
    }
  }

  lemma EligibleAmongIds(items: seq<Item>)
    ensures forall e :: e in EligibleOf(items) ==> e.thread in IdsOf(items)
  {
    if items != [] {
      var short := items[..|items| - 1];
      EligibleAmongIds(short);
      assert forall i :: 0 <= i < |short| ==> short[i] == items[i];
      assert items[|items| - 1].WellFormed? ==> items[|items| - 1].Identity() == Some(items[|items| - 1].entry.thread);
    }
  }

  lemma KeepAll(entries: seq<Entry>, drop: set<string>)
    requires forall e :: e in entries ==> e.thread !in drop
    ensures Keep(entries, drop) == entries
  {
  }

  lemma {:induction false} MatchingOne(entries: seq<Entry>, thread: string)
    ensures |Matching(entries, thread)| == 0 ==> forall i :: 0 <= i < |entries| ==> entries[i].thread != thread
    ensures |Matching(entries, thread)| == 1 ==>
              exists i :: 0 <= i < |entries| && entries[i].thread == thread && Matching(entries, thread) == [entries[i]]
                          && forall j :: 0 <= j < |entries| && j != i ==> entries[j].thread != thread
  {
    if entries != [] {
      var rest := entries[1..];
      MatchingOne(rest, thread);
      assert forall i :: 0 < i < |entries| ==> entries[i] == rest[i - 1];
      if |Matching(entries, thread)| == 1 {
        if entries[0].thread == thread {
          assert Matching(entries, thread) == [entries[0]];
        } else {
          var i :| 0 <= i < |rest| && rest[i].thread == thread && Matching(rest, thread) == [rest[i]]
                   && forall j :: 0 <= j < |rest| && j != i ==> rest[j].thread != thread;
          assert entries[i + 1].thread == thread;
        }
      }
    }
  }

  /** What a finished pair of listings must be. */
  ghost predicate PlainListing(t: Threads, route: Option<Route>) {
    var active, archived := Flatten(t.active.pages), Flatten(t.archived.pages);
    && t.entries == EligibleOf(active)
    && Admissible(active, false, route) && Admissible(archived, true, route)
    && IdsOf(active) !! IdsOf(archived)
    && t.rejected == Rejected(active) + Rejected(archived)
    && Paged(t.active, false, route) && |t.active.cursors| == |t.active.pages| - 1
    && Paged(t.archived, true, route) && |t.archived.cursors| == |t.archived.pages| - 1
  }

  /** The thread occurs exactly once, with this status. */
  ghost predicate OccursOnce(entries: seq<Entry>, thread: string, status: Status) {
    exists i :: 0 <= i < |entries| && entries[i].thread == thread && entries[i].status == status
                && forall j :: 0 <= j < |entries| && j != i ==> entries[j].thread != thread
  }

  /** Putting two listings together drops nothing: no listed active thread is archived. */
  lemma CombinePlain(active: Listing, archived: Listing, route: Option<Route>)
    requires Paged(active, false, route) && |active.cursors| == |active.pages| - 1
    requires Paged(archived, true, route) && |archived.cursors| == |archived.pages| - 1
    ensures Combine(active, archived, route).Some? ==> PlainListing(Combine(active, archived, route).value, route)
  {
    if Combine(active, archived, route).Some? {
      var a, b := active.tally.ids, archived.tally.ids;
      assert forall x :: x in a && x in b <==> x in a * b;
      EligibleAmongIds(Flatten(active.pages));
      KeepAll(active.tally.entries, archived.tally.ids);
    }
  }

  lemma ListingHeard(peer: Peer, fates: Fates, v: View, route: Option<Route>, active: Listing, mid: View,
                     archived: Listing, w: View)
    requires ListPageSetRun(peer, fates, v, false, route) == Returned(active, mid)
    requires ListPageSetRun(peer, fates, mid, true, route) == Returned(archived, w)
    ensures v.received <= w.received
            && HeardPages(peer, v.received, w.received) == AsPages(active, 0) + AsPages(archived, 0)
  {
    var none := Listing([], [], Tally({}, [], 0, 0));
    PagesHeard(peer, fates, v, false, route, None, none, active, mid);
    PagesHeard(peer, fates, mid, true, route, None, none, archived, w);
    HeardConcat(peer, v.received, mid.received, w.received);
  }

  /** A successful listing is the plain filter of what the peer sent: its pages are those among the messages
      read, up to the first one without a further cursor for the active threads, and up to the next such
      for the archived ones; eligible active threads come in that order and under distinct ids, active and
      archived ones are disjoint, and a routed target is there exactly once. */
  lemma ListingIsPlain(peer: Peer, fates: Fates, v: View, route: Option<Route>, t: Threads, w: View)
    requires ListThreadsRun(peer, fates, v, route) == Returned(t, w)
    ensures PlainListing(t, route)
    ensures v.received <= w.received
            && HeardPages(peer, v.received, w.received) == AsPages(t.active, 0) + AsPages(t.archived, 0)
    ensures route.Some? ==> OccursOnce(t.entries, route.value.thread, w.status)
  {
    var none := Listing([], [], Tally({}, [], 0, 0));
    assert Paged(none, false, route) && Paged(none, true, route);
    var active := ListPageSetRun(peer, fates, v, false, route);
    PagesListing(peer, fates, v, false, route, None, none, active.value, active.view);
    var archived := ListPageSetRun(peer, fates, active.view, true, route);
    PagesListing(peer, fates, active.view, true, route, None, none, archived.value, archived.view);
    CombinePlain(active.value, archived.value, route);
    ListingHeard(peer, fates, v, route, active.value, active.view, archived.value, archived.view);
    if route.Some? {
      MatchingOne(t.entries, route.value.thread);
    }
  }

  // ---- whole deliveries ----

  lemma ListThreadsReads(peer: Peer, fates: Fates, v: View, route: Option<Route>, t: Threads, w: View)
    requires WithinBudget(v) && ListThreadsRun(peer, fates, v, route) == Returned(t, w)
    ensures WithinBudget(w) && Surplus(w) == Surplus(v)
    ensures |w.methods| == |v.methods| + |t.active.pages| + |t.archived.pages| <= |v.methods| + 2 * MAX_LIST_PAGES
  {
    var none := Listing([], [], Tally({}, [], 0, 0));
    var active := ListPageSetRun(peer, fates, v, false, route);
    PagesReads(peer, fates, v, false, route, None, none, active.value, active.view);
    var archived := ListPageSetRun(peer, fates, active.view, true, route);
    PagesReads(peer, fates, active.view, true, route, None, none, archived.value, archived.view);
  }

  lemma TargetReads(peer: Peer, fates: Fates, v: View, rpc: Rpc, route: Route, w: View)
    requires WithinBudget(v) && TargetRun(peer, fates, v, rpc, route) == Returned((), w)
    ensures WithinBudget(w) && Surplus(w) == Surplus(v) && |w.methods| == |v.methods| + 1
  {
    RequestReads(peer, fates, v, rpc, ThreadParams(route.thread));
  }

  /** The three calls that seal the target. */
  lemma SealReads(peer: Peer, fates: Fates, v: View, route: Route, b: View, d: View, w: View)
    requires WithinBudget(v) && TargetRun(peer, fates, v, ThreadRead, route) == Returned((), b)
    requires TargetRun(peer, fates, b, ThreadResume, route) == Returned((), d)
    requires TargetRun(peer, fates, d, ThreadRead, route) == Returned((), w)
    ensures WithinBudget(w) && Surplus(w) == Surplus(v) && |w.methods| == |v.methods| + 3
  {
    TargetReads(peer, fates, v, ThreadRead, route, b);
    TargetReads(peer, fates, b, ThreadResume, route, d);
    TargetReads(peer, fates, d, ThreadRead, route, w);
  }

  lemma PrepareReads(peer: Peer, fates: Fates, v: View, route: Route, w: View)
    requires WithinBudget(v) && PrepareRun(peer, fates, v, route) == Returned((), w)
    ensures WithinBudget(w) && Surplus(w) == Surplus(v)
    ensures |w.methods| <= |v.methods| + 2 * MAX_LIST_PAGES + 4
  {
    var aimed := v.(target := route.thread);
    RequestReads(peer, fates, aimed, Initialize, NoParams);
    var a := InitializeRun(peer, fates, aimed).view;
    var listed := ListThreadsRun(peer, fates, a, Some(route));
    ListThreadsReads(peer, fates, a, Some(route), listed.value, listed.view);
    var b := TargetRun(peer, fates, listed.view, ThreadRead, route).view;
    var d := TargetRun(peer, fates, b, ThreadResume, route).view;
    SealReads(peer, fates, listed.view, route, b, d, w);
  }

  /** A completed delivery of R requests reads exactly one answer each, the accepted notifications, and
      the turn's start and completion: at most R + 258 messages, with R at most 2053. */
  lemma DeliveryReads(peer: Peer, fates: Fates, route: Route, text: string, w: View, turn: string, x: View)
    requires PrepareRun(peer, fates, Fresh(Full), route) == Returned((), w)
    requires StartAndWaitRun(peer, fates, w, route.thread, text) == Returned(turn, x)
    ensures x.received == |x.methods| + |x.inbound| + 2
    ensures |x.inbound| <= 256 && |x.methods| <= 2053
  {
    PrepareReads(peer, fates, Fresh(Full), route, w);
    RequestReads(peer, fates, w, TurnStart, TurnParams(route.thread, text));
    var started := RequestRun(peer, fates, w, TurnStart, TurnParams(route.thread, text));
    WaitReads(peer, started.view, route.thread, started.value.turn.id, false);
  }

  // ---- how many turns are requested ----

  predicate IsTurnCall(out: Outbound) {
    out.Call? && out.rpc.TurnStart?
  }

  function TurnCalls(wire: seq<Outbound>): nat {
    if wire == [] then 0 else TurnCalls(wire[..|wire| - 1]) + if IsTurnCall(wire[|wire| - 1]) then 1 else 0
  }

  predicate NoTurnYet(v: View) {
    v.turnStarts == 0 && TurnCalls(v.wire) == 0
  }

  lemma TurnCallsSnoc(wire: seq<Outbound>, out: Outbound)
    ensures TurnCalls(wire + [out]) == TurnCalls(wire) + if IsTurnCall(out) then 1 else 0
  {
    assert (wire + [out])[..|wire|] == wire;
  }

  lemma {:induction false} AwaitWire(peer: Peer, v: View, allowUnrelated: bool)
    ensures var w := AwaitRun(peer, v, allowUnrelated).view;
            w.wire == v.wire && w.turnStarts == v.turnStarts && w.methods == v.methods
    decreases NOTIFICATION_BUDGET - |v.inbound|
  {
    var r := ReadRun(peer, v);
    if r.Returned? && r.value.Notification? {
      var accepted := AcceptRun(r.view, r.value, allowUnrelated);
      if accepted.Returned? {
        AwaitWire(peer, accepted.view, allowUnrelated);
        assert AwaitRun(peer, v, allowUnrelated) == AwaitRun(peer, accepted.view, allowUnrelated);
      }
    }
  }

  /** Whatever happens, a request puts at most itself on the wire, and an answer means it did. It is on the wire,
      in full or in part, exactly when it is allowed and its write did not fail before the first byte. */
  lemma RequestWire(peer: Peer, fates: Fates, v: View, rpc: Rpc, params: Params)
    ensures var r := RequestRun(peer, fates, v, rpc, params);
            var goes := (v.profile.Full? || rpc.Initialize? || rpc.ThreadList?)
                        && (rpc.TurnStart? ==> v.turnStarts == 0) && !fates(v.written).Unsent?;
            && r.view.wire == (if goes then v.wire + [Call(v.nextId, rpc, params)] else v.wire)
            && (r.Returned? ==> r.view.wire == v.wire + [Call(v.nextId, rpc, params)])
            && (!rpc.TurnStart? ==> r.view.turnStarts == v.turnStarts)
            && (rpc.TurnStart? && v.turnStarts > 0 ==> r.view.wire == v.wire)
  {
    var sent := SendRun(fates, v, rpc, params);
    if sent.Returned? {
      AwaitWire(peer, sent.view, !rpc.TurnStart? && !sent.view.turnWritten);
    }
  }

  lemma RequestNoTurn(peer: Peer, fates: Fates, v: View, rpc: Rpc, params: Params)
    requires NoTurnYet(v) && !rpc.TurnStart?
    ensures NoTurnYet(RequestRun(peer, fates, v, rpc, params).view)
  {
    RequestWire(peer, fates, v, rpc, params);
    TurnCallsSnoc(v.wire, Call(v.nextId, rpc, params));
  }

  lemma {:induction false} PagesNoTurn(peer: Peer, fates: Fates, v: View, archived: bool, route: Option<Route>,
                                       cursor: Option<string>, so: Listing)
    requires NoTurnYet(v)
    ensures NoTurnYet(PagesRun(peer, fates, v, archived, route, cursor, so).view)
    decreases MAX_LIST_PAGES - |so.pages|
  {
    if |so.pages| < MAX_LIST_PAGES {
      RequestNoTurn(peer, fates, v, ThreadList, ListParams(archived, cursor, route));
      var answer := RequestRun(peer, fates, v, ThreadList, ListParams(archived, cursor, route));
      if answer.Returned? {
        var leaf := TurnPage(answer.value, archived, route, so);
        if leaf.Further? {
          PagesNoTurn(peer, fates, answer.view, archived, route, Some(leaf.token), leaf.so);
        }
      }
    }
  }

  lemma ListThreadsNoTurn(peer: Peer, fates: Fates, v: View, route: Option<Route>)
    requires NoTurnYet(v)
    ensures NoTurnYet(ListThreadsRun(peer, fates, v, route).view)
  {
    var none := Listing([], [], Tally({}, [], 0, 0));
    PagesNoTurn(peer, fates, v, false, route, None, none);
    var active := ListPageSetRun(peer, fates, v, false, route);
    if active.Returned? {
      PagesNoTurn(peer, fates, active.view, true, route, None, none);
    }
  }

  lemma TargetNoTurn(peer: Peer, fates: Fates, v: View, rpc: Rpc, route: Route)
    requires NoTurnYet(v) && !rpc.TurnStart?
    ensures NoTurnYet(TargetRun(peer, fates, v, rpc, route).view)
  {
    RequestNoTurn(peer, fates, v, rpc, ThreadParams(route.thread));
  }

  /** Preparation, however it ends, never asks for a turn. */
  lemma PrepareNoTurn(peer: Peer, fates: Fates, v: View, route: Route)
    requires NoTurnYet(v)
    ensures NoTurnYet(PrepareRun(peer, fates, v, route).view)
  {
    var aimed := v.(target := route.thread);
    RequestNoTurn(peer, fates, aimed, Initialize, NoParams);
    var asked := RequestRun(peer, fates, aimed, Initialize, NoParams).view;
    TurnCallsSnoc(asked.wire, Announce);
    var a := InitializeRun(peer, fates, aimed);
    if a.Returned? {
      ListThreadsNoTurn(peer, fates, a.view, Some(route));
      var b := ListThreadsRun(peer, fates, a.view, Some(route));
      if b.Returned? {
        TargetNoTurn(peer, fates, b.view, ThreadRead, route);
        var d := TargetRun(peer, fates, b.view, ThreadRead, route);
        if d.Returned? {
          TargetNoTurn(peer, fates, d.view, ThreadResume, route);
          var e := TargetRun(peer, fates, d.view, ThreadResume, route);
          if e.Returned? {
            TargetNoTurn(peer, fates, e.view, ThreadRead, route);
          }
        }
      }
    }
  }

  lemma {:induction false} WaitWire(peer: Peer, v: View, thread: string, turn: string, sawStarted: bool)
    ensures WaitRun(peer, v, thread, turn, sawStarted).view.wire == v.wire
    decreases !sawStarted, NOTIFICATION_BUDGET - |v.inbound|
  {
    var r := ReadRun(peer, v);
    if r.Returned? {
      var heard := Hear(r.value, thread, turn, sawStarted);
      if heard.StatusNews? {
        var accepted := AcceptRun(r.view, r.value, false);
        if accepted.Returned? {
          WaitWire(peer, accepted.view, thread, turn, sawStarted);
        }
      } else if heard.Begun? {
        WaitWire(peer, r.view, thread, turn, true);
      }
    }
  }

  /** Waiting for the turn writes nothing. */
  lemma StartWire(peer: Peer, fates: Fates, v: View, thread: string, text: string)
    ensures var started := RequestRun(peer, fates, v, TurnStart, TurnParams(thread, text));
            var ended := StartAndWaitRun(peer, fates, v, thread, text);
            ended.view.wire == started.view.wire && (ended.Returned? ==> started.Returned?)
  {
    var started := RequestRun(peer, fates, v, TurnStart, TurnParams(thread, text));
    if started.Returned? && started.value.TurnReply? {
      WaitWire(peer, started.view, thread, started.value.turn.id, false);
    }
  }

  /** Starting a turn writes at most one turn/start, and exactly one when it succeeds; one that went out in part
      counts, one that failed before its first byte does not. */
  lemma OneTurn(peer: Peer, fates: Fates, v: View, thread: string, text: string)
    requires NoTurnYet(v)
    ensures TurnCalls(StartAndWaitRun(peer, fates, v, thread, text).view.wire) <= 1
    ensures TurnCalls(StartAndWaitRun(peer, fates, v, thread, text).view.wire) == 1 <==>
              v.profile.Full? && !fates(v.written).Unsent?
    ensures StartAndWaitRun(peer, fates, v, thread, text).Returned? ==>
              TurnCalls(StartAndWaitRun(peer, fates, v, thread, text).view.wire) == 1
  {
    StartWire(peer, fates, v, thread, text);
    RequestWire(peer, fates, v, TurnStart, TurnParams(thread, text));
    TurnCallsSnoc(v.wire, Call(v.nextId, TurnStart, TurnParams(thread, text)));
  }

  /** Every turn requested names this thread and carries this text. */
  predicate TurnsName(wire: seq<Outbound>, thread: string, text: string) {
    forall k :: 0 <= k < |wire| && IsTurnCall(wire[k]) ==> wire[k].params == TurnParams(thread, text)
  }

  lemma {:induction false} NoTurnNames(wire: seq<Outbound>, thread: string, text: string)
    requires TurnCalls(wire) == 0
    ensures TurnsName(wire, thread, text)
  {
    if wire != [] {
      NoTurnNames(wire[..|wire| - 1], thread, text);
      assert forall k :: 0 <= k < |wire| - 1 ==> wire[..|wire| - 1][k] == wire[k];
    }
  }

  /** The one turn a session requests is the one it was asked for. */
  lemma StartNames(peer: Peer, fates: Fates, v: View, thread: string, text: string)
    requires NoTurnYet(v)
    ensures TurnsName(StartAndWaitRun(peer, fates, v, thread, text).view.wire, thread, text)
  {
    NoTurnNames(v.wire, thread, text);
    StartWire(peer, fates, v, thread, text);
    RequestWire(peer, fates, v, TurnStart, TurnParams(thread, text));
  }
}
