/** The JSON-lines session with the app server: requests, interleaved notifications, waiting for a turn.
    The peer is an arbitrary infinite sequence of read outcomes, and so are the fates of our writes. */
module Session {
  import opened Common

  const NOTIFICATION_BUDGET := 256
  const MAX_LIST_PAGES := 1024
  const MAX_PAGE_ITEMS := 100
  const MAX_CURSOR := 1024

  datatype Rpc = Initialize | ThreadList | ThreadRead | ThreadResume | TurnStart
  datatype Event = StatusChanged | TurnStarted | TurnCompleted | ErrorEvent | UnknownEvent
  datatype Profile = Discovery | Full {
    predicate Allows(m: Rpc) { Full? || m.Initialize? || m.ThreadList? }
    predicate Hears(e: Event) { if Full? then !e.UnknownEvent? else e.StatusChanged? }
  }

  datatype Status = NotLoaded | Idle | SystemError | Active
  datatype TurnStatus = Completed | Interrupted | TurnFailed | InProgress
  datatype Turn = Turn(id: string, status: TurnStatus)

  datatype Route = Route(thread: string, source: string, cwd: string)
  datatype Entry = Entry(thread: string, source: string, cwd: string, status: Status)

  /** A listed thread: well-formed, malformed but with a safe identity, or without one. */
  datatype Item = WellFormed(entry: Entry) | Malformed(id: string) | Nameless {
    function Identity(): Option<string> {
      match this
      case WellFormed(e) => Some(e.thread)
      case Malformed(id) => Some(id)
      case Nameless => None
    }
  }

  datatype Cursor = End | More(token: string) | BadCursor

  /** Result objects, after the schema checks on their fields. */
  datatype Payload =
    | Initialized(accepted: bool)
    | Page(items: seq<Item>, next: Cursor)
    | ThreadReply(entry: Option<Entry>, resumeCwd: string, resumeFieldsOk: bool)
    | TurnReply(turn: Turn)
    | OtherPayload

  datatype Reply = Result(payload: Payload) | ErrorReply | OpenEnvelope

  datatype Body = StatusBody(thread: string, status: Status) | TurnBody(thread: string, turn: Turn) | OtherBody

  /** One inbound object: what its `id` and `rpc` fields make of it. */
  datatype Message =
    | Response(id: int, reply: Reply)
    | ServerRequest
    | Notification(event: Event, closed: bool, body: Body)
    | Shapeless

  /** One read: a message, or nothing usable (deadline, end of file, framing or JSON error). */
  datatype Inbound = Lost | Got(message: Message)

  /** One write: complete, failed after some bytes went out, or failed before any did. */
  datatype Fate = Sent | Torn | Unsent

  datatype Params =
    | NoParams
    | ListParams(archived: bool, cursor: Option<string>, filter: Option<Route>)
    | ThreadParams(thread: string)
    | TurnParams(thread: string, text: string)

  datatype Outbound = Call(id: nat, rpc: Rpc, params: Params) | Announce

  type Peer = nat -> Inbound
  type Fates = nat -> Fate

  /** The session's fields. `received` and `written` count how far the two oracles have been consulted. */
  datatype View = View(
    profile: Profile,
    nextId: nat,
    turnStarts: nat,
    turnWritten: bool,
    target: string,
    status: Status,
    methods: seq<Rpc>,
    inbound: multiset<Event>,
    answered: bool,
    received: nat,
    written: nat,
    wire: seq<Outbound>)

  /** What a session call does: return a value, or raise; either way it leaves the fields as in `view`. */
  datatype Run<+T> = Returned(value: T, view: View) | Raised(view: View)

  function Fresh(profile: Profile): View {
    View(profile, 1, 0, false, "", NotLoaded, [], multiset{}, false, 0, 0, [])
  }

  // ---- specification of each call ----

  /** A write puts its object on the wire unless it failed before the first byte. */
  function WriteRun(fates: Fates, v: View, out: Outbound): Run<()> {
    var after := v.(written := v.written + 1);
    match fates(v.written)
    case Sent => Returned((), after.(wire := v.wire + [out]))
    case Torn => Raised(after.(wire := v.wire + [out]))
    case Unsent => Raised(after)
  }

  function ReadRun(peer: Peer, v: View): Run<Message> {
    var after := v.(received := v.received + 1);
    match peer(v.received)
    case Lost => Raised(after)
    case Got(m) => Returned(m, after)
  }

  /** A notification that arrives while something else is awaited. */
  function AcceptRun(v: View, note: Message, allowUnrelated: bool): (r: Run<()>)
    requires note.Notification?
    ensures r.Returned? ==> |r.view.inbound| == |v.inbound| + 1 <= NOTIFICATION_BUDGET && r.view.received == v.received
  {
    if !note.closed then Raised(v)
    else if !v.profile.Hears(note.event) then Raised(v.(inbound := v.inbound + multiset{UnknownEvent}))
    else if |v.inbound| + 1 > NOTIFICATION_BUDGET then Raised(v)
    else
      var counted := v.(inbound := v.inbound + multiset{note.event});
      if !note.event.StatusChanged? || !note.body.StatusBody? then Raised(counted)
      else if note.body.thread != v.target then
        if allowUnrelated then Returned((), counted) else Raised(counted)
      else
        var seen := counted.(status := note.body.status);
        if note.body.status.Active? && v.turnWritten then Returned((), seen)
        else if note.body.status.NotLoaded? || note.body.status.Idle? then Returned((), seen)
        else Raised(seen)
  }

  /** Read until something other than a notification arrives. Each notification uses up budget. */
  function AwaitRun(peer: Peer, v: View, allowUnrelated: bool): Run<Message>
    decreases NOTIFICATION_BUDGET - |v.inbound|
  {
    match ReadRun(peer, v)
    case Raised(w) => Raised(w)
    case Returned(m, w) =>
      if m.ServerRequest? then Raised(w)
      else if !m.Notification? then Returned(m, w)
      else
        match AcceptRun(w, m, allowUnrelated)
        case Raised(x) => Raised(x)
        case Returned(_, x) => AwaitRun(peer, x, allowUnrelated)
  }

  /** The checks on the object that answers request `id`. */
  function Answer(m: Message, id: nat): Option<Payload> {
    if m.Response? && m.reply.Result? && m.id == id then Some(m.reply.payload) else None
  }

  /** Number a request; a second turn/start of one session never gets a number. */
  function NumberRun(v: View, rpc: Rpc): Run<nat> {
    if !v.profile.Allows(rpc) then Raised(v)
    else
      var counted := if rpc.TurnStart? then v.(turnStarts := v.turnStarts + 1) else v;
      if rpc.TurnStart? && counted.turnStarts != 1 then Raised(counted)
      else Returned(v.nextId, counted.(nextId := v.nextId + 1, methods := v.methods + [rpc]))
  }

  /** Number and write a request. */
  function SendRun(fates: Fates, v: View, rpc: Rpc, params: Params): Run<nat> {
    match NumberRun(v, rpc)
    case Raised(w) => Raised(w)
    case Returned(id, w) =>
      match WriteRun(fates, w, Call(id, rpc, params))
      case Raised(x) => Raised(x)
      case Returned(_, x) => Returned(id, if rpc.TurnStart? then x.(turnWritten := true) else x)
  }

  function RequestRun(peer: Peer, fates: Fates, v: View, rpc: Rpc, params: Params): Run<Payload> {
    match SendRun(fates, v, rpc, params)
    case Raised(w) => Raised(w)
    case Returned(id, w) =>
      match AwaitRun(peer, w, !rpc.TurnStart? && !w.turnWritten)
      case Raised(x) => Raised(x)
      case Returned(m, x) =>
        var y := if rpc.Initialize? then x.(answered := true) else x;
        match Answer(m, id)
        case None => Raised(y)
        case Some(p) => Returned(p, y)
  }

  /** What a message read while waiting for `turn` amounts to. */
  datatype Heard = Refused | StatusNews | Begun | Ended

  function Hear(m: Message, thread: string, turn: string, sawStarted: bool): Heard {
    if !m.Notification? || !m.closed || m.event.UnknownEvent? then Refused
    else if m.event.StatusChanged? then StatusNews
    else if m.event.ErrorEvent? || !m.body.TurnBody? || m.body.thread != thread || m.body.turn.id != turn then Refused
    else if m.event.TurnStarted? then if sawStarted then Refused else Begun
    else if sawStarted && m.body.turn.status.Completed? then Ended
    else Refused
  }

  /** After turn/start: exactly one `started` and then a successful `completed` of that very turn. */
  function WaitRun(peer: Peer, v: View, thread: string, turn: string, sawStarted: bool): Run<string>
    decreases !sawStarted, NOTIFICATION_BUDGET - |v.inbound|
  {
    match ReadRun(peer, v)
    case Raised(w) => Raised(w)
    case Returned(m, w) =>
      match Hear(m, thread, turn, sawStarted)
      case Refused => Raised(w)
      case StatusNews =>
        (match AcceptRun(w, m, false)
         case Raised(x) => Raised(x)
         case Returned(_, x) => WaitRun(peer, x, thread, turn, sawStarted))
      case Begun => WaitRun(peer, w, thread, turn, true)
      case Ended => Returned(turn, w)
  }

  function StartAndWaitRun(peer: Peer, fates: Fates, v: View, thread: string, text: string): Run<string> {
    match RequestRun(peer, fates, v, TurnStart, TurnParams(thread, text))
    case Raised(w) => Raised(w)
    case Returned(p, w) =>
      if p.TurnReply? && p.turn.status.InProgress? then WaitRun(peer, w, thread, p.turn.id, false) else Raised(w)
  }

  function InitializeRun(peer: Peer, fates: Fates, v: View): Run<()> {
    match RequestRun(peer, fates, v, Initialize, NoParams)
    case Raised(w) => Raised(w)
    case Returned(p, w) => if p == Initialized(true) then WriteRun(fates, w, Announce) else Raised(w)
  }

  /** What the items of one listing have contributed so far. */
  datatype Tally = Tally(ids: set<string>, entries: seq<Entry>, rejected: nat, added: nat)

  predicate Eligible(s: Status) {
    s.NotLoaded? || s.Idle?
  }

  function TakeItem(item: Item, archived: bool, route: Option<Route>, t: Tally): Option<Tally> {
    var id := item.Identity();
    if id.Some? && id.value in t.ids then None
    else
      match item
      case Malformed(id) =>
        if route.Some? && id == route.value.thread then None
        else Some(t.(ids := t.ids + {id}, added := t.added + 1, rejected := t.rejected + 1))
      case Nameless =>
        if archived then None else Some(t.(rejected := t.rejected + 1))
      case WellFormed(e) =>
        if route.Some? && (e.source != route.value.source || e.cwd != route.value.cwd) then None
        else Some(Tally(t.ids + {e.thread},
                        if !archived && Eligible(e.status) then t.entries + [e] else t.entries,
                        t.rejected, t.added + 1))
  }

  function TakeItems(items: seq<Item>, archived: bool, route: Option<Route>, t: Tally): Option<Tally> {
    if items == [] then Some(t)
    else
      match TakeItem(items[0], archived, route, t)
      case None => None
      case Some(u) => TakeItems(items[1..], archived, route, u)
  }

  /** A finished listing: the pages as received, the cursors followed, and the tally. */
  datatype Listing = Listing(pages: seq<seq<Item>>, cursors: seq<string>, tally: Tally)

  /** What a page leads to: refusal, the end of the listing, or a further page. */
  datatype Leaf = Refuse | Last(all: Listing) | Further(so: Listing, token: string)

  function TurnPage(p: Payload, archived: bool, route: Option<Route>, so: Listing): (leaf: Leaf)
    ensures leaf.Further? ==> |leaf.so.pages| == |so.pages| + 1
  {
    if !p.Page? || |p.items| > MAX_PAGE_ITEMS then Refuse
    else
      match TakeItems(p.items, archived, route, so.tally.(added := 0))
      case None => Refuse
      case Some(t) =>
        var pages := so.pages + [p.items];
        if p.next.End? then Last(Listing(pages, so.cursors, t))
        else if t.added == 0 || p.next.BadCursor? || p.next.token == "" || |p.next.token| > MAX_CURSOR
                || p.next.token in so.cursors then Refuse
        else Further(Listing(pages, so.cursors + [p.next.token], t), p.next.token)
  }

  function PagesRun(peer: Peer, fates: Fates, v: View, archived: bool, route: Option<Route>,
                    cursor: Option<string>, so: Listing): Run<Listing>
    decreases MAX_LIST_PAGES - |so.pages|
  {
    if |so.pages| >= MAX_LIST_PAGES then Raised(v)
    else
      match RequestRun(peer, fates, v, ThreadList, ListParams(archived, cursor, route))
      case Raised(w) => Raised(w)
      case Returned(p, w) =>
        match TurnPage(p, archived, route, so)
        case Refuse => Raised(w)
        case Last(all) => Returned(all, w)
        case Further(next, token) => PagesRun(peer, fates, w, archived, route, Some(token), next)
  }

  function ListPageSetRun(peer: Peer, fates: Fates, v: View, archived: bool, route: Option<Route>): Run<Listing> {
    PagesRun(peer, fates, v, archived, route, None, Listing([], [], Tally({}, [], 0, 0)))
  }

  datatype Threads = Threads(entries: seq<Entry>, active: Listing, archived: Listing, rejected: nat)

  function Keep(entries: seq<Entry>, drop: set<string>): seq<Entry> {
    if entries == [] then []
    else (if entries[0].thread in drop then [] else [entries[0]]) + Keep(entries[1..], drop)
  }

  function Matching(entries: seq<Entry>, thread: string): seq<Entry> {
    if entries == [] then []
    else (if entries[0].thread == thread then [entries[0]] else []) + Matching(entries[1..], thread)
  }

  /** Put the two listings together: disjoint, and with the routed target exactly once. */
  function Combine(active: Listing, archived: Listing, route: Option<Route>): (r: Option<Threads>)
    ensures r.Some? && route.Some? ==> |Matching(r.value.entries, route.value.thread)| == 1
  {
    if active.tally.ids * archived.tally.ids != {} then None
    else
      var eligible := Keep(active.tally.entries, archived.tally.ids);
      if route.Some? && |Matching(eligible, route.value.thread)| != 1 then None
      else Some(Threads(eligible, active, archived, active.tally.rejected + archived.tally.rejected))
  }

  function ListThreadsRun(peer: Peer, fates: Fates, v: View, route: Option<Route>): Run<Threads> {
    match ListPageSetRun(peer, fates, v, false, route)
    case Raised(w) => Raised(w)
    case Returned(active, w) =>
      match ListPageSetRun(peer, fates, w, true, route)
      case Raised(x) => Raised(x)
      case Returned(archived, x) =>
        match Combine(active, archived, route)
        case None => Raised(x)
        case Some(t) =>
          Returned(t, if route.None? then x else x.(status := Matching(t.entries, route.value.thread)[0].status))
  }

  /** The reply to thread/read or thread/resume names exactly the sealed target, and it is idle. */
  function ExactTarget(p: Payload, route: Route, resume: bool): Option<Status> {
    if !p.ThreadReply? || p.entry.None? then None
    else
      var e := p.entry.value;
      if e.source != route.source || e.cwd != route.cwd || e.thread != route.thread || !Eligible(e.status) then None
      else if resume && (p.resumeCwd != route.cwd || !p.resumeFieldsOk) then None
      else Some(e.status)
  }

  function TargetRun(peer: Peer, fates: Fates, v: View, rpc: Rpc, route: Route): Run<()> {
    match RequestRun(peer, fates, v, rpc, ThreadParams(route.thread))
    case Raised(w) => Raised(w)
    case Returned(p, w) =>
      match ExactTarget(p, route, rpc.ThreadResume?)
      case None => Raised(w)
      case Some(status) => Returned((), w.(status := status))
  }

  function PrepareRun(peer: Peer, fates: Fates, v: View, route: Route): Run<()> {
    match InitializeRun(peer, fates, v.(target := route.thread))
    case Raised(w) => Raised(w)
    case Returned(_, w) =>
      match ListThreadsRun(peer, fates, w, Some(route))
      case Raised(x) => Raised(x)
      case Returned(_, x) =>
        match TargetRun(peer, fates, x, ThreadRead, route)
        case Raised(y) => Raised(y)
        case Returned(_, y) =>
          match TargetRun(peer, fates, y, ThreadResume, route)
          case Raised(z) => Raised(z)
          case Returned(_, z) => TargetRun(peer, fates, z, ThreadRead, route)
  }

  // ---- the session object ----

  class Session {
    const peer: Peer
    const fates: Fates
    const profile: Profile
    var nextId: nat
    var turnStarts: nat
    var turnWritten: bool
    var target: string
    var status: Status
    var methods: seq<Rpc>
    var inbound: multiset<Event>
    var answered: bool
    var received: nat
    var written: nat
    var wire: seq<Outbound>

    ghost function Look(): View
      reads this
    {
      View(profile, nextId, turnStarts, turnWritten, target, status, methods, inbound, answered, received, written,
           wire)
    }

    constructor (peer: Peer, fates: Fates, profile: Profile)
      ensures Look() == Fresh(profile) && this.peer == peer && this.fates == fates
    {
      this.peer := peer;
      this.fates := fates;
      this.profile := profile;
      nextId, turnStarts, turnWritten, target, status := 1, 0, false, "", NotLoaded;
      methods, inbound, answered, received, written, wire := [], multiset{}, false, 0, 0, [];
    }

    /** Does `ok` with these fields match what `run` says? */
    ghost predicate Did<T(!new)>(run: Run<T>, r: Option<T>)
      reads this
    {
      match run
      case Returned(value, view) => r == Some(value) && Look() == view
      case Raised(view) => r == None && Look() == view
    }

    method Write(out: Outbound) returns (r: Option<()>)
      modifies this`written, this`wire
      ensures Did(WriteRun(fates, old(Look()), out), r)
      ensures wire == old(wire) + if fates(old(written)).Unsent? then [] else [out]
      ensures r.Some? <==> fates(old(written)).Sent?
    {
      var fate := fates(written);
      written := written + 1;
      if !fate.Unsent? {
        wire := wire + [out];
      }
      r := if fate.Sent? then Some(()) else None;
    }

    method Read() returns (r: Option<Message>)
      modifies this`received
      ensures Did(ReadRun(peer, old(Look())), r)
    {
      var inb := peer(received);
      received := received + 1;
      r := if inb.Got? then Some(inb.message) else None;
    }

    method AcceptInterleaved(note: Message, allowUnrelated: bool) returns (r: Option<()>)
      requires note.Notification?
      modifies this`inbound, this`status
      ensures Did(AcceptRun(old(Look()), note, allowUnrelated), r)
    {
      if !note.closed {
        return None;
      }
      if !profile.Hears(note.event) {
        inbound := inbound + multiset{UnknownEvent};
        return None;
      }
      if |inbound| + 1 > NOTIFICATION_BUDGET {
        return None;
      }
      inbound := inbound + multiset{note.event};
      if !note.event.StatusChanged? || !note.body.StatusBody? {
        return None;
      }
      if note.body.thread != target {
        return if allowUnrelated then Some(()) else None;
      }
      status := note.body.status;
      if status.Active? && turnWritten {
        return Some(());
      }
      return if Eligible(status) then Some(()) else None;
    }

    /** The reading loop of a request: ends on every peer, because each notification uses up budget. */
    method Await(allowUnrelated: bool) returns (m: Option<Message>)
      modifies this`received, this`inbound, this`status
      ensures Did(AwaitRun(peer, old(Look()), allowUnrelated), m)
    {
      ghost var before := Look();
      m := Read();
      while m.Some? && (m.value.Notification? || m.value.ServerRequest?)
        invariant Did(ReadRun(peer, before), m)
        invariant AwaitRun(peer, old(Look()), allowUnrelated) == AwaitRun(peer, before, allowUnrelated)
        decreases NOTIFICATION_BUDGET - |inbound|
      {
        if m.value.ServerRequest? {
          return None;
        }
        var accepted := AcceptInterleaved(m.value, allowUnrelated);
        if accepted.None? {
          return None;
        }
        before := Look();
        m := Read();
      }
    }

    method Number(rpc: Rpc) returns (r: Option<nat>)
      modifies this`turnStarts, this`nextId, this`methods
      ensures Did(NumberRun(old(Look()), rpc), r)
    {
      if !profile.Allows(rpc) {
        return None;
      }
      if rpc.TurnStart? {
        turnStarts := turnStarts + 1;
        if turnStarts != 1 {
          return None;
        }
      }
      r := Some(nextId);
      nextId := nextId + 1;
      methods := methods + [rpc];
    }

    method Send(rpc: Rpc, params: Params) returns (r: Option<nat>)
      modifies this`turnStarts, this`nextId, this`methods, this`written, this`wire, this`turnWritten
      ensures Did(SendRun(fates, old(Look()), rpc, params), r)
    {
      r := Number(rpc);
      if r.None? {
        return;
      }
      var sent := Write(Call(r.value, rpc, params));
      if sent.None? {
        return None;
      }
      if rpc.TurnStart? {
        turnWritten := true;
      }
    }

    method Request(rpc: Rpc, params: Params) returns (r: Option<Payload>)
      modifies this
      ensures Did(RequestRun(peer, fates, old(Look()), rpc, params), r)
    {
      var id := Send(rpc, params);
      if id.None? {
        return None;
      }
      var m := Await(!rpc.TurnStart? && !turnWritten);
      if m.None? {
        return None;
      }
      if rpc.Initialize? {
        answered := true;
      }
      return Answer(m.value, id.value);
    }

    /** Wait for the started turn. The loop ends on every peer: budget, then the one `started`. */
    method WaitTurn(thread: string, turn: string) returns (r: Option<string>)
      modifies this`received, this`inbound, this`status
      ensures Did(WaitRun(peer, old(Look()), thread, turn, false), r)
    {
      var sawStarted := false;
      while true
        invariant WaitRun(peer, old(Look()), thread, turn, false) == WaitRun(peer, Look(), thread, turn, sawStarted)
        decreases !sawStarted, NOTIFICATION_BUDGET - |inbound|
      {
        var m := Read();
        if m.None? || !m.value.Notification? || !m.value.closed || m.value.event.UnknownEvent? {
          return None;
        }
        var note := m.value;
        if note.event.StatusChanged? {
          var accepted := AcceptInterleaved(note, false);
          if accepted.None? {
            return None;
          }
        } else if note.event.ErrorEvent? || !note.body.TurnBody? || note.body.thread != thread
          || note.body.turn.id != turn {
          return None;
        } else if note.event.TurnStarted? {
          if sawStarted {
            return None;
          }
          sawStarted := true;
        } else {
          return if sawStarted && note.body.turn.status.Completed? then Some(turn) else None;
        }
      }
    }

    method StartAndWait(thread: string, text: string) returns (r: Option<string>)
      modifies this
      ensures Did(StartAndWaitRun(peer, fates, old(Look()), thread, text), r)
    {
      var started := Request(TurnStart, TurnParams(thread, text));
      if started.None? || !started.value.TurnReply? || !started.value.turn.status.InProgress? {
        return None;
      }
      r := WaitTurn(thread, started.value.turn.id);
    }

    method Initialize() returns (r: Option<()>)
      modifies this
      ensures Did(InitializeRun(peer, fates, old(Look())), r)
    {
      var reply := Request(Rpc.Initialize, NoParams);
      if reply != Some(Initialized(true)) {
        return None;
      }
      r := Write(Announce);
    }

    method ListPageSet(archived: bool, route: Option<Route>) returns (r: Option<Listing>)
      modifies this
      ensures Did(ListPageSetRun(peer, fates, old(Look()), archived, route), r)
    {
      var cursor: Option<string> := None;
      var so := Listing([], [], Tally({}, [], 0, 0));
      while |so.pages| < MAX_LIST_PAGES
        invariant ListPageSetRun(peer, fates, old(Look()), archived, route) ==
                  PagesRun(peer, fates, Look(), archived, route, cursor, so)
        decreases MAX_LIST_PAGES - |so.pages|
      {
        var page := Request(ThreadList, ListParams(archived, cursor, route));
        if page.None? || !page.value.Page? || |page.value.items| > MAX_PAGE_ITEMS {
          return None;
        }
        var items := page.value.items;
        var tally := TallyPage(items, archived, route, so.tally.(added := 0));
        if tally.None? {
          return None;
        }
        var next := page.value.next;
        if next.End? {
          return Some(Listing(so.pages + [items], so.cursors, tally.value));
        }
        if tally.value.added == 0 || next.BadCursor? || next.token == "" || |next.token| > MAX_CURSOR
           || next.token in so.cursors {
          return None;
        }
        cursor := Some(next.token);
        so := Listing(so.pages + [items], so.cursors + [next.token], tally.value);
      }
      return None;
    }

    /** The loop over one page's items. */
    static method TallyPage(items: seq<Item>, archived: bool, route: Option<Route>, start: Tally)
      returns (t: Option<Tally>)
      ensures t == TakeItems(items, archived, route, start)
    {
      var tally := start;
      for i := 0 to |items|
        invariant TakeItems(items, archived, route, start) == TakeItems(items[i..], archived, route, tally)
      {
        assert items[i..][1..] == items[i + 1..];
        var next := TakeItem(items[i], archived, route, tally);
        if next.None? {
          return None;
        }
        tally := next.value;
      }
      return Some(tally);
    }

    method ListThreads(route: Option<Route>) returns (r: Option<Threads>)
      modifies this
      ensures Did(ListThreadsRun(peer, fates, old(Look()), route), r)
    {
      var active := ListPageSet(false, route);
      if active.None? {
        return None;
      }
      var archived := ListPageSet(true, route);
      if archived.None? {
        return None;
      }
      r := Combine(active.value, archived.value, route);
      if r.Some? && route.Some? {
        status := Matching(r.value.entries, route.value.thread)[0].status;
      }
    }

    method CheckTarget(rpc: Rpc, route: Route) returns (r: Option<()>)
      modifies this
      ensures Did(TargetRun(peer, fates, old(Look()), rpc, route), r)
    {
      var reply := Request(rpc, ThreadParams(route.thread));
      if reply.None? {
        return None;
      }
      var exact := ExactTarget(reply.value, route, rpc.ThreadResume?);
      if exact.None? {
        return None;
      }
      status := exact.value;
      return Some(());
    }

    method Prepare(route: Route) returns (r: Option<()>)
      modifies this
      ensures Did(PrepareRun(peer, fates, old(Look()), route), r)
    {
      target := route.thread;
      r := Initialize();
      if r.None? {
        return;
      }
      var listed := ListThreads(Some(route));
      if listed.None? {
        return None;
      }
      r := CheckTarget(ThreadRead, route);
      if r.None? {
        return;
      }
      r := CheckTarget(ThreadResume, route);
      if r.None? {
        return;
      }
      r := CheckTarget(ThreadRead, route);
    }
  }
}
