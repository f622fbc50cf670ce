# Verification of the 42 Ultracode orchestrator

This project models the stateful core of the orchestrator in `ultracode/` and proves, with Dafny 4.11,
what that core is for. `dafny verify dfyconfig.toml` checks everything.

## What is modelled

**Supervised delivery** (`ultracode/supervised_delivery.py`). `HashChain` and `Journal` model the
append-only, hash-chained file down to its bytes, with torn and cut images. `Delivery` is the protocol as a
state machine over system calls: any number of runs contend for one journal, and crashes, short writes and
power losses may fall between any two steps and inside a write. `Session` (with `SessionLaws`) is the
JSON-lines session with its budgets and its listing, against a peer that may say anything; `SessionAnswers`
says for exactly which messages of the peer its calls succeed, without speaking of how they are computed.
`Framing` is its byte reader. `Driver` is the program of one delivery, whose every system call is a step of
the machine. `Discovery` is the retry loop that opens a session.

**The controller and its event log** (`ultracode/protocol.py`, `ultracode/controller.py`). `Protocol` and
`ProtocolLaws` are the reducer and laws over all legal histories. `Ledger` says what a call does to the five
tables as one transaction; `LedgerLaws` and `LeaseLaws` prove the invariant of all reachable stores, retries,
leases and the sweep; `OperationLaws` spells out call by call which events are recorded, what becomes of the
lease and what is answered; `HandoffLaws` and `HandoffRuns` say what becomes of handoff ids. `Controller` is
the class with the five tables as fields, whose methods write row by row, roll back on failure, and are proved
to do exactly what the ledger says.

**Control files** (`ultracode/feature_loop.py`). `Yaml` is the recursive-descent parser, as functions and as the
loops over an index that the source uses; `YamlLaws`, `YamlLocal` and `YamlPrint` prove what it accepts, that it
is local, and that it inverts a printer; `YamlTokens` that it loses and moves nothing, and what plain scalars
stand for; `YamlQuotes` that quoted scalars are JSON strings. `Documents` and `DocumentPrint` add the text
level. `Projection` and `ProjectionLaws` are the textual edit of the feature document and the proof that it
commutes with the parser; `ProjectionAccepts` proves that it goes through for every ordinary manifest.
`Publication` and `PublicationLaws` are the five-file publication under interruption.

**The one-shot ceremony** (`ultracode/route_discovery.py`). `Pilot` is the machine of all pilots over one
file system; `Ceremony` is the program of one of them, with the others acting between any two system calls.
`OneTurn` joins the pilots and the deliveries: at most one turn request per locator name.

`Common` and `Text` hold small helpers.

## How to read it

- A loop or an object with fields in the source is a method or a class here; each is proved equal to a
  function, and the laws are about those functions. The functions live beside them in the same file. What a
  call amounts to is then said again without them: over messages (`SessionAnswers`), events (`OperationLaws`),
  records (`Driver.Added`), files (`Publication.Passes`) and causes (`Ceremony.Telling`).
- An error return is a value: `None`, `Err`, `Raised`, `Refuse`.
- What the outside decides is a parameter: the peer is a function from read to message, the fate of each
  write, the clock readings, the minted identifiers, the turns of other processes. Laws hold for all of them.
- A digest is any function; injectivity is a hypothesis only of `HashChain.HeadFixesHistory`. The line codec
  of the journal is any pair of functions that decodes what it encodes and encodes without line breaks.

## Where the code differs from what one might expect

- The handoff id check compares ids as recorded, while replay strips them, although the comment at
  ultracode/controller.py:471 says that ids stay unique. " a" is accepted after "a" and "a" after " a", the
  latter also through a mapping (`HandoffRuns.TypedRepeats`, `HandoffRuns.MappedRepeats`).
  `HandoffLaws.MissedRepeat` says which repeats are missed, and `HandoffLaws.StrippedIdsStayDistinct` that
  there are none if typed handoffs come with stripped ids.
- A typed handoff with an empty id is accepted, and every replay mints another id for it
  (ultracode/protocol.py:221), so that the snapshot even of an ended run changes from one reading to the next
  (`HandoffRuns.EndedReadingsDiffer`). Readings agree exactly when the latest handoff was recorded with an id
  (`HandoffLaws.EndedReadings`), which they always do if no typed handoff comes with an empty one
  (`HandoffLaws.NamedHandoffsReadAlike`).
- A handoff sent without an id can not be retried under its key (`LedgerLaws.UnnamedRetry`).
- A repeated request is answered with the present snapshot, not with the first answer, except for a claim
  (`LedgerLaws.RetryAnswer`).
- A run that failed or stopped while paused keeps the state it was paused in, and only such a run does
  (`ProtocolLaws.PausedFromSet`).
- A publication interrupted between creating a partial and renaming it is not resumed: the rerun refuses
  because of the partial it finds (`PublicationLaws.StepsResume`). It resumes after every completed step
  (`PublicationLaws.CompletedStepsResume`).
- A pilot whose locator appears after its list was shown reports "tooling failure before list"
  (`Ceremony.Overtake`), because the handler of ultracode/route_discovery.py:631 leaves the first outcome in
  place. `Ceremony.Host.RunSupervisedPilot` says exactly when.
- `- key:` takes the whole block below it as its value, so that such an item has no second key
  (`YamlPrint.DashKeySwallows`). The printer therefore nests such mappings below a bare dash.
- A filled or half-filled temporary may stay behind a failed write; `Ceremony.Host.WriteExclusiveAtomic` says
  at which faults.

## Model

| member | source | states |
|---|---|---|
| HashChain.ExtendsLinked | ultracode/protocol.py:432-467 | After a verified chain exactly one entry with a given content keeps the chain verified: the one an append makes. |
| HashChain.PrefixLinked | ultracode/protocol.py:449-467 | Every prefix of a verified chain verifies. |
| HashChain.HeadFixesHistory | ultracode/protocol.py:432-467 | With an injective digest, two verified chains with the same last digest are the same chain, length included. |
| HashChain.LinkedIff | ultracode/protocol.py:449-467 | A chain verifies exactly when every entry follows the ones before it: next number, digest of the one before, and its own digest over number, content and predecessor. |
| Journal.ValidateLines | ultracode/supervised_delivery.py:907-937 | The one-pass validation accepts exactly the images whose tail is complete and whose lines decode and chain, and returns their records. |
| Journal.AcceptedIff | ultracode/supervised_delivery.py:907-937 | In the bytes: an image is accepted with these records exactly when it is lines without inner breaks, each ended by one, that decode one by one to records numbered, chained and signed from the first. |
| Journal.SplitGlue | ultracode/supervised_delivery.py:907-915 | Splitting takes an image apart at its line breaks and nowhere else. |
| Journal.RoundTrip | ultracode/supervised_delivery.py:907-981 | Reopening what a sequence of appends wrote yields exactly the appended records. |
| Journal.TornTailRefused | ultracode/supervised_delivery.py:907-915 | A file whose last line is unfinished is refused as a partial tail, whatever precedes it. |
| Journal.CrashPrefix | ultracode/supervised_delivery.py:907-981 | Cut at any byte, the image is refused as a partial tail, or validates to a prefix of the records; the second happens exactly on record boundaries. |
| Journal.RetryableIffAllFailed | ultracode/supervised_delivery.py:939-952 | Within the life cycle of a pair, the last record permits another attempt exactly when every record says that the attempt failed before writing. |
| Journal.LifecyclePrefix | ultracode/supervised_delivery.py:939-952 | A prefix of a permitted life cycle is a permitted life cycle, so a cut never creates an impossible history. |
| Delivery.StepKeeps | ultracode/supervised_delivery.py:2090-2172 | Every step of every process - capability, open, lock, validate, prepare, append, request, wait, cleanup, abort, power loss - keeps the invariant and every durable record. |
| Delivery.RunKeeps | ultracode/supervised_delivery.py:2090-2172 | The same over schedules of any length. |
| Delivery.AtMostOnce | ultracode/supervised_delivery.py:2090-2172 | Over every interleaving, crash and power loss, no two turn requests are ever written for the same payload and alias, nor on the same confirmation. |
| Delivery.OutcomesAreTrue | ultracode/supervised_delivery.py:2090-2172 | A returned FAILED_BEFORE_WRITE means that run wrote no request; DELIVERED means it wrote exactly one; and the outcome is durably in the journal. |
| Delivery.JournalLanguage | ultracode/supervised_delivery.py:907-981 | In every reachable state a reader finds either a torn tail or, for each pair, FAILED_BEFORE_WRITE* (ATTEMPT_STARTED (DELIVERED or UNCERTAIN)?)?. |
| Delivery.StartBeforeSend | ultracode/supervised_delivery.py:2143-2157 | A request is on the wire only when its start record is already durable. |
| Delivery.StartIsFinal | ultracode/supervised_delivery.py:867-981 | Once a start record is durable, no later schedule, crash or reopening brings any run of that pair to where it could start again. |
| Delivery.DurableStartBlocks | ultracode/supervised_delivery.py:939-952 | No live run of a pair whose start is durable is still on its way to a start. |
| Delivery.StepPowerLoss | ultracode/supervised_delivery.py:954-981 | Losing power leaves the durable bytes and some prefix of the rest, and a file whose directory entry was not yet durable may be gone or still be found, empty; the invariant holds of what is left, and durable records stay. |
| Delivery.StepWrite | ultracode/supervised_delivery.py:954-981 | A whole written line extends the log by exactly the new record. |
| Delivery.StepWritePart | ultracode/supervised_delivery.py:954-981 | A short write leaves a torn tail and the log as it was. |
| Delivery.StepConsume | ultracode/supervised_delivery.py:732-746 | The one-use capability is spent before anything else happens, accepted or not. |
| Delivery.StepAdopt | ultracode/supervised_delivery.py:867-899 | Only the process that created the file may adopt it empty, and nobody has sent anything by then. |
| Framing.Reader.Read | ultracode/supervised_delivery.py:1048-1076 | However reads split the stream, the n-th line returned is its n-th line; consumed, buffered and pending bytes stay the whole stream, with the buffer within the limit plus one; the deadline error is given exactly when a wait ran into it, the framing error only when no acceptable line is next. |
| Framing.Reader.Fill | ultracode/supervised_delivery.py:1057-1066 | The reading loop ends with a complete line, an over-full buffer or a closed pipe, unless a wait ran into the deadline, and loses no byte. |
| Framing.FrameFailsIff | ultracode/supervised_delivery.py:1067-1075 | Framing fails exactly when there is no complete line left or the next one is over the limit. |
| Framing.NextLine | ultracode/supervised_delivery.py:1067-1075 | Taking the frame after n lines is taking line n of the plain reading of the stream. |
| Session.Session.Write | ultracode/supervised_delivery.py:1022-1046 | A write puts its object on the wire unless it failed before the first byte, and succeeds only if all of it went out. |
| Session.Session.AcceptInterleaved | ultracode/supervised_delivery.py:1149-1186 | Accepts a notification that arrives while something else is awaited: budget, profile, thread and status; `SessionAnswers.RequestAnswered` and `SessionAnswers.TurnAnswered` spell out which ones pass. |
| Session.Session.Await | ultracode/supervised_delivery.py:1099-1108 | The loop reads until something other than a notification arrives and ends on every peer, since each notification uses up budget. |
| Session.Session.Request | ultracode/supervised_delivery.py:1078-1123 | Numbers, writes and awaits one request; an answer counts only if it is the answer to that request. |
| Session.Session.WaitTurn | ultracode/supervised_delivery.py:1543-1588 | The waiting loop ends on every peer, by the remaining budget plus the start not yet seen. |
| Session.Session.StartAndWait | ultracode/supervised_delivery.py:1543-1588 | Requests a turn and waits for its own start and completion. |
| Session.Session.Initialize | ultracode/supervised_delivery.py:1477-1487 | The handshake: initialize, then the initialized notification. |
| Session.Session.TallyPage | ultracode/supervised_delivery.py:1420-1443 | The loop over the items of one page computes the tally of the specification. |
| Session.Session.ListPageSet | ultracode/supervised_delivery.py:1387-1455 | The paging loop, with its bounds on pages and items, its refusal of repeated cursors and of pages that name nobody new. |
| Session.Session.ListThreads | ultracode/supervised_delivery.py:1457-1475 | Lists active and archived threads, checks them against each other, and finds the routed target. |
| Session.Session.CheckTarget | ultracode/supervised_delivery.py:1489-1521 | The reply to read or resume must name exactly the sealed target, idle or not loaded; `SessionAnswers.PrepareAnswered` and `SessionAnswers.LastAnswers` spell this out over the messages heard. |
| Session.Session.Prepare | ultracode/supervised_delivery.py:1523-1529 | Handshake, listing, read, resume and read again in this order, stopping at the first failure; `SessionAnswers.PrepareAnswered` says for exactly which conversations it succeeds. |
| SessionLaws.RequestReads | ultracode/supervised_delivery.py:1078-1123 | A successful request reads its answer and the notifications before it and nothing else, writes exactly its own call, and takes the next identifier. |
| SessionLaws.WaitReads | ultracode/supervised_delivery.py:1543-1588 | A completed wait reads exactly two messages more than it accepts notifications, and writes nothing. |
| SessionLaws.SeenStartedThenCompleted | ultracode/supervised_delivery.py:1543-1588 | The turn returned is the one requested; it was seen to start and then to complete successfully, with only status notifications around. |
| SessionLaws.OneTurn | ultracode/supervised_delivery.py:1078-1098 | Starting a turn writes at most one turn request, and exactly one when it succeeds; one that went out in part counts, one that failed before its first byte does not. |
| SessionLaws.RequestWire | ultracode/supervised_delivery.py:1078-1098 | Whatever the peer does, a request is on the wire, in full or in part, exactly when the profile has its method, it is no second turn request, and its write did not fail before the first byte; nothing else is written. |
| SessionLaws.PrepareNoTurn | ultracode/supervised_delivery.py:1523-1529 | Preparation, however it ends, never asks for a turn. |
| SessionLaws.TakeItemsTally | ultracode/supervised_delivery.py:1420-1443 | A page is accepted exactly when all items so far are admissible and distinct, and then ids, eligible entries and rejections are exactly those of the items. |
| SessionLaws.TakeItemsProgress | ultracode/supervised_delivery.py:1420-1448 | A page counts as progress exactly when it names a thread. |
| SessionLaws.PagesReads | ultracode/supervised_delivery.py:1387-1455 | A listing of n pages makes n requests, at most the bound, and reads nothing it need not. |
| SessionLaws.PagesWire | ultracode/supervised_delivery.py:1387-1455 | The requests of a listing carry the cursors the pages gave, in order, under consecutive identifiers. |
| SessionLaws.PagesHeard | ultracode/supervised_delivery.py:1387-1455 | The pages of one listing are exactly the page answers read during it, each followed by the cursor the next request carries. |
| SessionLaws.CombinePlain | ultracode/supervised_delivery.py:1457-1475 | Putting the two listings together drops nothing: active and archived ids are disjoint, so that the filter removes no entry. |
| SessionLaws.ListingIsPlain | ultracode/supervised_delivery.py:1387-1475 | The pages of a successful listing are, all of them and in order, the pages among the messages the peer sent meanwhile: up to the first without a further cursor for the active threads, up to the next such for the archived ones. What it returns is exactly their well-formed active threads that are idle or not loaded, in that order and under distinct ids; seen equals well-formed plus rejected; cursors never repeat; every continued page named someone; a routed target occurs exactly once. |
| SessionLaws.DeliveryReads | ultracode/supervised_delivery.py:1543-1588 | A completed delivery of R requests reads R plus its notifications plus two messages, with at most 256 notifications and R at most 2053. |
| SessionLaws.StartNames | ultracode/supervised_delivery.py:1543-1588 | The one turn a session requests names the thread it was given and carries the text it was given. |
| SessionLaws.PrepareReads | ultracode/supervised_delivery.py:1489-1529 | Preparation makes at most 2 x 1024 listing requests and four more. |
| SessionAnswers.RequestAnswered | ultracode/supervised_delivery.py:1078-1123 | A request returns a payload exactly when the profile has the method, a turn is asked for only once, the whole request goes out, and the first message that is no notification is the result under its own number; what passes before it is, within 256, status of the target while it can take a turn (or is at work on the requested one), or of others where that is allowed. The session after it is given in full. |
| SessionAnswers.ListAnswered | ultracode/supervised_delivery.py:1387-1475 | The listing a person chooses from succeeds exactly on two listings of fitting pages (at most 1024 pages of at most 100 admissible items, cursors new and bounded, every continued page naming somebody) with nothing in both; it offers the well-formed active threads that take a turn, in order, and counts the malformed items. |
| SessionAnswers.PrepareAnswered | ultracode/supervised_delivery.py:1489-1529 | Preparation succeeds exactly on this conversation, message by message: the greeting, the two listings under the route, disjoint and with the target in a status that takes a turn, then a read, a resume and a read reply, each with the thread, source and directory of the route and a status idle or not loaded, the resume reply with the directory again. |
| SessionAnswers.LastAnswers | ultracode/supervised_delivery.py:1489-1529 | In the messages heard: the last three answers of a successful preparation are such replies, only status notifications lie between them, and the session keeps the status of the last one. |
| SessionAnswers.TurnAnswered | ultracode/supervised_delivery.py:1543-1588 | A turn is started and completed exactly when the peer replies that it is in progress, then tells its start and then its successful completion, with only permitted status notifications between, within the budget; an active status of the target is permitted from the request on. |
| SessionAnswers.Obliged | ultracode/supervised_delivery.py:1489-1588 | For every route, text and turn there is a peer on which preparation and turn succeed, so that none of the conditions above is empty. |
| Driver.Host.Consume | ultracode/supervised_delivery.py:732-746 | The capability is used up whether or not the confirmation is still good; the run goes on only if it was unused and good. |
| Driver.Host.Flock | ultracode/supervised_delivery.py:867-899 | The lock is taken at once or the run raises. |
| Driver.Host.Inspect | ultracode/supervised_delivery.py:867-899 | An existing empty file is refused; a new one has its directory entry made durable. |
| Driver.Host.ReadChunks | ultracode/supervised_delivery.py:867-899 | The bounded reading loop returns the whole image, or refuses it when it is over the bound. |
| Driver.Host.Load | ultracode/supervised_delivery.py:867-937 | The file is read and validated; any refusal releases the lock. |
| Driver.Handle.Enter | ultracode/supervised_delivery.py:867-899 | Opening succeeds exactly when nobody holds the lock and the file is new, or is non-empty, within its bound and valid; it then holds the records of the file. |
| Driver.Handle.Append | ultracode/supervised_delivery.py:954-981 | An append goes through exactly when the whole line was written and synced; the file then ends with the line of a record with the next ordinal, the previous digest, a digest over both, the kind appended, the attempt and alias asked for and the digests of the text and the thread asked for; and the run stands at the next step. |
| Driver.Begin | ultracode/supervised_delivery.py:2105-2122 | A run is admitted exactly with an unused and good confirmation, a journal it can open, and a pair whose recorded attempts all failed before writing. |
| Driver.Announce | ultracode/supervised_delivery.py:2143-2149 | The session is prepared and a start, or a failure before any write, is recorded; nothing has been sent. |
| Driver.Turn | ultracode/supervised_delivery.py:1543-1588 | The turn completes exactly when the session says so; at most one request is written, and exactly one for a completed turn. |
| Driver.Settle | ultracode/supervised_delivery.py:2150-2172 | Delivered exactly when the turn completed and, for a deferred success, the cleanup had no issue; otherwise uncertain. |
| Driver.Perform | ultracode/supervised_delivery.py:2090-2172 | One delivery from capability to outcome. It returns exactly when nothing stood in its way (confirmation unused and good, journal free, new or valid, last record of the text and alias a failure) and its lines went through; then the outcome is the one the messages of the peer call for, said in terms of the messages, and the file is what it was plus the lines of one or two records that carry the attempt, alias, text digest and thread digest of what was asked, each under its own name and with its own kind. At most one turn is requested, and it names the thread and the text recorded. Every system call is a step of the shared machine. |
| Driver.ToldDeserved | ultracode/supervised_delivery.py:2124-2172 | The outcome by the messages: a failure before writing exactly when no preparing conversation took place; delivered exactly when one did, the turn was told to its end and no clean-up issue spoiled a deferred success. |
| Driver.LastDecides | ultracode/supervised_delivery.py:939-952 | A pair may be tried again exactly when its last record, if it has one, is a failure before writing. |
| Driver.CrashAnywhere | ultracode/supervised_delivery.py:2090-2172 | Any prefix of a schedule followed by the death of a live process is again a schedule, so the guarantees cover a crash between any two steps. |
| Protocol.ReadInstructionAgain | ultracode/protocol.py:217-233 | Reading a handoff that was read changes nothing. |
| Protocol.KeptAgain | ultracode/protocol.py:217-233 | A recorded handoff survives every replay up to its id, and with its id unless it was recorded without one: then each replay mints another. |
| Protocol.ReadResultAgain | ultracode/protocol.py:265-289 | The same for results. |
| Protocol.VerifyEventChain | ultracode/protocol.py:449-467 | The loop accepts exactly the non-empty streams of one run whose entries are numbered from one, name the digest before them, and carry the digest of their own contents. |
| Protocol.ReplayEvents | ultracode/protocol.py:657-668 | The loop computes the fold of the events, or the first fault; the ids that a replay mints for handoffs recorded without one are an input. |
| Protocol.FoldSees | ultracode/protocol.py:528-668 | What a replay sees is fixed by the log except for one thing, the id it mints for a latest handoff recorded without one; whether a log replays at all never depends on minted ids. |
| ProtocolLaws.CurrentIsLatest | ultracode/protocol.py:562-618 | The handoff in a snapshot is the latest recorded one, as it reads. |
| ProtocolLaws.ReplaysAgree | ultracode/protocol.py:217-233 | All replays of a legal history agree exactly when its latest handoff was recorded with an id. |
| ProtocolLaws.ApplySound | ultracode/protocol.py:528-635 | Every applied event keeps the snapshot sound: a paused run knows where it paused, a running or finished turn has its handoff or result, the iteration stays within its limit. |
| ProtocolLaws.FoldSound | ultracode/protocol.py:528-635 | Hence every legal history ends in a sound snapshot. |
| ProtocolLaws.PausedFromSet | ultracode/protocol.py:619-634 | Over every legal history, the state a run was paused in is set exactly while it is paused, or when it failed or stopped right out of a pause. |
| ProtocolLaws.PausedFromOutlivesPause | ultracode/protocol.py:619-634 | A failed run may still carry the state it was paused in: a concrete history. |
| ProtocolLaws.ClaimConservation | ultracode/protocol.py:562-634 | Over every legal history, claims = results + expiries + pauses, escalations, failures and stops during a turn + one if a turn is running. |
| ProtocolLaws.InstructionConservation | ultracode/protocol.py:562-618 | Instructions = iteration, within the limit; they are ahead of the results by one exactly while the working phase, paused or not, is a turn. |
| ProtocolLaws.WorkConservation | ultracode/protocol.py:528-635 | The number of work events of a live run is fixed by its phase and iteration. |
| ProtocolLaws.BoundedProgress | ultracode/protocol.py:528-635 | Without claims, expiries, progress, pauses and resumes, a legal history has at most 3 x limit + 3 events. |
| ProtocolLaws.BoundReached | ultracode/protocol.py:528-635 | The bound is reached under every limit of at least one. |
| ProtocolLaws.TerminalAbsorbs | ultracode/protocol.py:556-635 | No event applies to a finished run. |
| ProtocolLaws.TerminalIsFinal | ultracode/protocol.py:556-635 | No finished history has a legal extension. |
| ProtocolLaws.PrefixLegal | ultracode/protocol.py:657-668 | Every non-empty prefix of a legal history is legal; run, objective, limit and policy never change and the iteration never falls. |
| ProtocolLaws.ApplyEdge | ultracode/protocol.py:528-635 | An event of the run applies exactly along an edge of the life cycle, spelled out state by state, when what it carries can be read and the limit leaves room. |
| ProtocolLaws.HistoryWalks | ultracode/protocol.py:657-668 | So every legal history walks along these edges: work is reported only in a running turn, a result only out of one, a pause goes back to where it came from. |
| LedgerLaws.ReplayNext | ultracode/controller.py:302-368 | Replaying a log with one more event is applying that event to what all replays of the log agree on, and the longer log verifies. |
| LedgerLaws.LogOkNext | ultracode/controller.py:342-368 | After an event is appended and the row synchronised, the row again agrees with the replay, its version with the number of events. |
| LedgerLaws.EnactOnly | ultracode/controller.py:198-208 | A transaction on one run rewrites no row of another. |
| LedgerLaws.EnactLog | ultracode/controller.py:302-368 | The log only grows, and row, replay and log agree at the end of every transaction. |
| LedgerLaws.EnactLease | ultracode/controller.py:562-731 | A transaction leaves a lease row exactly when it leaves the run running. |
| LedgerLaws.EnactEnd | ultracode/controller.py:1042-1088 | A transaction completes a run only with a result that has evidence. |
| LedgerLaws.EnactHandoffs | ultracode/controller.py:470-550 | No handoff id is recorded twice in a run. |
| LedgerLaws.OpenedSettled | ultracode/controller.py:370-446 | A created run starts out agreed: two events, version two, planning, no lease. |
| LedgerLaws.CallKeeps | ultracode/controller.py:370-1088 | Every public call, whatever its arguments and however it ends, keeps the tables in agreement with one another and with the replayed logs. |
| LedgerLaws.SpentChangesNothing | ultracode/controller.py:223-243 | A call whose key was used in its scope changes no table, answered or refused. |
| LedgerLaws.SuccessSpendsKey | ultracode/controller.py:246-259 | A call uses up its key exactly when it succeeds; a failing call leaves it free. |
| LedgerLaws.RetryErasure | ultracode/controller.py:198-259 | Deleting from any schedule all calls whose key was used when they arrived leaves the same tables. |
| LedgerLaws.RetryAnswer | ultracode/controller.py:223-243 | A repeated request is answered: a claim with the stored claim, anything else with the present snapshot; a different request under the key is refused as a duplicate. |
| LedgerLaws.UnnamedRetry | ultracode/controller.py:481-499 | A handoff sent again without an id, under the same key, is refused exactly when another id is minted for it, since the request hash covers the minted id; either way nothing changes. |
| LeaseLaws.OthersUntouched | ultracode/controller.py:198-208 | A call changes no row of any run but the one it names. |
| LeaseLaws.EndedRunsStay | ultracode/controller.py:481-1088 | Once a run has ended, no schedule of calls, sweeps and artifacts changes its row, events or lease, nor what all replays of it agree on. Whether its snapshot reads the same each time is `HandoffLaws.EndedReadings`. |
| LeaseLaws.DeadTokenSilent | ultracode/controller.py:670-679 | A worker that presents a token no lease row holds changes no table. |
| LeaseLaws.TokenStaysDead | ultracode/controller.py:594-667 | A token that no row holds does not come back unless it is minted anew. |
| LeaseLaws.RemovedTokenIsDead | ultracode/controller.py:670-731 | After any schedule that does not mint it again, a removed token causes no event. |
| LeaseLaws.UsableXorRecoverable | ultracode/controller.py:562-578 | At one clock reading a leased turn can be used by its holder or be recovered, never both and never neither. |
| LeaseLaws.RecoverExpired | ultracode/controller.py:562-578 | Recovering an expired turn adds one LEASE_EXPIRED event, removes the lease, keeps the handoff and touches no other run; it fails only on a taken event id. |
| LeaseLaws.SweepExact | ultracode/controller.py:580-592 | The sweep gives back exactly the runs whose lease has expired, in the order of the rows, and leaves everything else as it was. |
| LeaseLaws.MoveKeeps | ultracode/controller.py:370-1103 | Every public operation, sweep and artifact included, keeps the tables coherent. |
| LeaseLaws.ReachableCoherent | ultracode/controller.py:370-1103 | All tables reachable from the empty store by any schedule are coherent. |
| LeaseLaws.ReachableRun | ultracode/controller.py:302-1088 | In every reachable store: the chain of each run verifies and replays; its row agrees in state and iteration; its version is the number of events; it has a lease exactly when it is running; a completed run has a result with evidence; handoff ids are distinct. |
| HandoffLaws.RecordedFromSubmitted | ultracode/controller.py:481-550 | What holds of the id of every handoff submitted, typed or read from a mapping, holds of every id recorded in every run, over every schedule. |
| HandoffLaws.MissedRepeat | ultracode/controller.py:470-479 | For one accepted handoff on any coherent tables: it repeats, as read, an id of its run exactly when some recorded id differs from its own and strips to the same text. These are the repeats the check misses, and all of them. |
| HandoffLaws.StrippedIdsStayDistinct | ultracode/controller.py:470-479 | If all typed handoffs of a schedule come with stripped ids, no run ever has two handoffs that are read under one id. |
| HandoffRuns.TypedRepeats | ultracode/controller.py:464-550 | From the empty tables: a run, a typed handoff "a", its result, and then a typed handoff " a" is accepted; every replay calls both "a". |
| HandoffRuns.MappedRepeats | ultracode/controller.py:464-550 | The other order, the second through a mapping: after a typed handoff " a", a mapping with id "a" is accepted. |
| HandoffLaws.ReadingsAgree | ultracode/protocol.py:217-233 | The snapshots of a settled run read at different times agree exactly when its latest handoff was recorded with an id. |
| HandoffLaws.EndedReadings | ultracode/controller.py:295-300 | An ended run reads the same now and after any schedule exactly when its latest handoff was recorded with an id; otherwise the id of that handoff, and nothing else, is what each reading mints. |
| HandoffRuns.EndedReadingsDiffer | ultracode/protocol.py:217-233 | From the empty tables: a run, any readable typed handoff with an empty id, and the run failed: two readings of the ended run differ. |
| HandoffLaws.NamedHandoffsReadAlike | ultracode/controller.py:295-300 | If no typed handoff of a schedule has an empty id, all readings of every run agree. |
| Controller.Controller.ReadSnapshot | ultracode/controller.py:295-300 | The snapshot is the verified replay of the stored events, with the id this replay mints for a handoff recorded without one. |
| Controller.Controller.AppendEvent | ultracode/controller.py:302-339 | Inserts the next chained event, unless its identifier is taken. |
| Controller.Controller.SyncSnapshot | ultracode/controller.py:342-346 | Copies state and iteration into the row and counts its version up. |
| Controller.Controller.AppendAndSync | ultracode/controller.py:348-368 | Append, full replay and synchronisation together are one application of the new event. |
| Controller.Controller.InstructionIdExists | ultracode/controller.py:470-479 | The loop finds an id exactly when a recorded handoff has it. |
| Controller.Controller.RecoverExpiredLease | ultracode/controller.py:562-578 | Gives an expired turn back, or leaves everything as it was. |
| Controller.Controller.AssertLease | ultracode/controller.py:670-679 | Holds exactly for the worker and token of the row, before its expiry. |
| Controller.Controller.Recall | ultracode/controller.py:223-265 | Settles a call to a missing run or with a used key without looking further. |
| Controller.Controller.Transact | ultracode/controller.py:198-259 | The whole transaction: its body and the remembered operation together, or the tables restored. |
| Controller.Controller.CreateRun | ultracode/controller.py:370-446 | Does what the ledger says, which `OperationLaws.CreateLaw` spells out, and answers so, or leaves every table as it was; the tables stay coherent. |
| Controller.Controller.SubmitInstruction | ultracode/controller.py:481-550 | Planning to ready, or review to ready within the limit, with a handoff id new as recorded, which for a typed handoff may be empty; exactly the change and answer of the ledger, which `OperationLaws.SubmitLaw` spells out, or no change, and coherent tables. |
| Controller.Controller.ClaimTurn | ultracode/controller.py:594-667 | Recovers an expired turn first, then grants a lease whose response is stored for retries; exactly the change and answer of the ledger, which `OperationLaws.ClaimLaw` spells out, or no change, and coherent tables. |
| Controller.Controller.SubmitResult | ultracode/controller.py:681-731 | Only under a live lease, which it ends; exactly the change and answer of the ledger, which `OperationLaws.ResultLaw` spells out, or no change, and coherent tables. |
| Controller.Controller.ReportProgress | ultracode/controller.py:733-776 | Only under a live lease, which it keeps; exactly the change and answer of the ledger, which `OperationLaws.ProgressLaw` spells out, or no change, and coherent tables. |
| Controller.Controller.ReportBlocker | ultracode/controller.py:778-841 | Only under a live lease, which it ends by escalating; exactly the change and answer of the ledger, which `OperationLaws.BlockerLaw` spells out, or no change, and coherent tables. |
| Controller.Controller.RequestHuman | ultracode/controller.py:843-889 | Escalates, ending a running turn; exactly the change and answer of the ledger, which `OperationLaws.HumanLaw` spells out, or no change, and coherent tables. |
| Controller.Controller.PauseRun | ultracode/controller.py:891-930 | Remembers the state and ends a running turn; exactly the change and answer of the ledger, which `OperationLaws.PauseLaw` spells out, or no change, and coherent tables. |
| Controller.Controller.ResumeRun | ultracode/controller.py:932-965 | Back to the remembered state; exactly the change and answer of the ledger, which `OperationLaws.ResumeLaw` spells out, or no change, and coherent tables. |
| Controller.Controller.StopRun | ultracode/controller.py:967-1003 | Ends the run and its lease; exactly the change and answer of the ledger, which `OperationLaws.StopLaw` spells out, or no change, and coherent tables. |
| Controller.Controller.FailRun | ultracode/controller.py:1005-1040 | Ends the run and its lease; exactly the change and answer of the ledger, which `OperationLaws.FailLaw` spells out, or no change, and coherent tables. |
| Controller.Controller.CompleteRun | ultracode/controller.py:1042-1088 | Only from review and with evidence; exactly the change and answer of the ledger, which `OperationLaws.CompleteLaw` spells out, or no change, and coherent tables. |
| Controller.Controller.RecoverExpiredLeases | ultracode/controller.py:580-592 | The sweep loop over the lease rows in one transaction computes the specified sweep and lists the recovered runs. |
| Controller.Controller.AddArtifact | ultracode/controller.py:1090-1103 | Adds one artifact row with the fields given to an existing run and nothing else; refused for a missing run. |
| OperationLaws.CreateLaw | ultracode/controller.py:370-446 | Creating a run: refused for a blank objective or a limit outside one to the ceiling; otherwise one row in planning at version two, the two events RUN_CREATED and PLANNING_STARTED under their actors, the remembered operation, and the snapshot answered. |
| OperationLaws.SubmitLaw | ultracode/controller.py:481-550 | Submitting a handoff: refused for an unreadable mapping, a repeated id, or outside planning and review; at the limit the run fails instead and the event says so; otherwise the event carries the handoff as recorded, after REVIEW_STARTED if a result was waiting, the iteration counts up, and result and reasons are cleared. |
| OperationLaws.ClaimLaw | ultracode/controller.py:594-667 | Claiming a turn: refused for a blank worker, a duration below one, or a run neither ready nor overdue; an overdue lease is first recorded as expired; the claim event, the new lease with its token and expiry, the stored response and the answer are given in full. |
| OperationLaws.ResultLaw | ultracode/controller.py:681-731 | Submitting a result under a live lease: the log grows by exactly one RESULT_SUBMITTED event of the worker whose payload is the result as submitted (a mapping with its texts stripped); the lease is gone; the answer is the snapshot in CODEX_COMPLETE with that verdict, that evidence and the stripped texts. Otherwise the stated error. |
| OperationLaws.ProgressLaw | ultracode/controller.py:733-776 | Progress under a live lease: one event with the stripped text, the lease and the snapshot stay. |
| OperationLaws.BlockerLaw | ultracode/controller.py:778-841 | A blocker under a live lease: one HUMAN_REQUESTED event of the worker, the lease goes, the run waits for a human for that reason. |
| OperationLaws.HumanLaw | ultracode/controller.py:843-889 | Asking for a human out of a running turn, a review, or a waiting result, which is reviewed first: the events under the planner, the lease, the reason in the snapshot; illegal from any other state. |
| OperationLaws.PauseLaw | ultracode/controller.py:891-930 | Pausing a run that has neither ended nor paused: one event with the reason and the state to go back to, a running turn going back to ready; the lease goes. |
| OperationLaws.ResumeLaw | ultracode/controller.py:932-965 | Resuming exactly a paused run: one event, back to the remembered state. |
| OperationLaws.StopLaw | ultracode/controller.py:967-1003 | Stopping a run that has not ended: one event, the lease goes, the stop reason is the stripped text. |
| OperationLaws.FailLaw | ultracode/controller.py:1005-1040 | Failing a run that has not ended: one event, the lease goes, the failure reason is the stripped text. |
| OperationLaws.CompleteLaw | ultracode/controller.py:1042-1088 | Completing a run in review or with a result waiting, which is reviewed first: beyond policy without evidence, illegal from other states; the events under the planner. |
| OperationLaws.UnknownLaw | ultracode/controller.py:209-271 | Any call on a run: a blank text, a duration below one, an incomplete mapping or a blank key is refused first, and then a run that does not exist. |
| OperationLaws.RecoverLaw | ultracode/controller.py:562-592 | One row of the sweep: a running turn whose lease has run out is given back, with one LEASE_EXPIRED event of the system, the lease gone and the run ready with its handoff; any other row stays. |
| Yaml.ParseBlock | ultracode/feature_loop.py:125-182 | The recursive descent over an index computes the block of the specification and ends after at least one line. |
| Yaml.ParseItems | ultracode/feature_loop.py:129-163 | The list loop. |
| Yaml.ParseItem | ultracode/feature_loop.py:135-162 | One list item: nested, scalar, or a mapping begun on the dash line, with its siblings and their duplicate check. |
| Yaml.ParseEntries | ultracode/feature_loop.py:165-182 | The mapping loop with its duplicate check; each round takes one entry (`Yaml.ParseEntry`). |
| Yaml.ParseEntry | ultracode/feature_loop.py:166-181 | One round: refused exactly when the mapping of the specification is, and otherwise the mapping goes on behind the entry. |
| Yaml.ParseDocument | ultracode/feature_loop.py:184-187 | The root is one mapping at indentation zero that uses up every line. |
| YamlLaws.BlockConsumes | ultracode/feature_loop.py:125-182 | A block takes at least one line, none shallower than itself, and never skips an indentation level. |
| YamlLaws.DocumentStaircase | ultracode/feature_loop.py:96-187 | A document that parses starts at zero and goes no more than one level deeper from line to line. |
| YamlLaws.OverIndentedFails | ultracode/feature_loop.py:96-187 | A single line indented too far below the line before makes the whole document fail. |
| YamlLaws.BlockKeys | ultracode/feature_loop.py:125-182 | Every mapping parsed, at any depth, has valid keys and none twice. |
| YamlLaws.DocumentKeys | ultracode/feature_loop.py:96-187 | The same for documents. |
| YamlPrint.UnquoteBack | ultracode/feature_loop.py:60-86 | Every string, JSON-quoted, reads back as itself. |
| YamlQuotes.QuotedScalar | ultracode/feature_loop.py:66-77 | A double-quoted scalar is read, and as which text, exactly by the grammar of JSON strings, section 7 of RFC 8259, short of lone surrogates: bare characters, the eight letter escapes, codes in either case, pairs of surrogates, and nothing behind the closing quote. A single-quoted one is read exactly when it is closed. |
| YamlQuotes.DoubledBack | ultracode/feature_loop.py:74-77 | Any text between single quotes, those inside it doubled, is read as that text. |
| YamlTokens.PlainScalar | ultracode/feature_loop.py:60-86 | Without quotes: refused exactly when blank or begun with a mark of what the subset leaves out; otherwise true, false or null for their words, a number for exactly its decimal text (zero for "-0" too), and any other text for itself. |
| YamlTokens.DocumentTokens | ultracode/feature_loop.py:96-187 | Whatever parses: the dashes, keys and scalars of the value, from beginning to end, are those of the lines. Nothing is lost, added, changed or moved. |
| YamlTokens.DashShorthand | ultracode/feature_loop.py:133-162 | A mapping whose first key has a scalar may begin on the dash line or below a bare dash: both are read alike or both refused, whatever follows, duplicate keys included. |
| YamlPrint.ScalarBack | ultracode/feature_loop.py:60-86 | Every supported scalar has a text without colon or outer white space that reads back as it. |
| YamlPrint.BlockBack | ultracode/feature_loop.py:125-182 | For every non-empty list or mapping of supported values, at any depth and before any shallower lines, parsing its two-space rendering returns it and stops exactly at its end. |
| YamlPrint.DocumentBack | ultracode/feature_loop.py:96-187 | Printing a mapping and parsing the lines returns the mapping. |
| YamlPrint.DashKeySwallows | ultracode/feature_loop.py:151-155 | After a dash line that ends in a bare key, all lines at the next level become that value, so that such an item can have no second key. |
| YamlLocal.BlockLocal | ultracode/feature_loop.py:125-182 | What a block parses to does not depend on the shallower lines behind it. |
| YamlLocal.EntryLocal | ultracode/feature_loop.py:165-182 | The same for one mapping entry. |
| Documents.ParseRestrictedYaml | ultracode/feature_loop.py:96-187 | The loop over the lines followed by the block parser computes the parse of the text. |
| Documents.IdleIgnored | ultracode/feature_loop.py:104-112 | A blank line or a comment, wherever it stands, changes nothing. |
| Documents.BadLineRefused | ultracode/feature_loop.py:104-112 | A tab anywhere, or an odd indentation on a line that counts, and the whole document is refused. |
| Documents.JoinSplit | ultracode/feature_loop.py:1390-1417 | Joining the lines of a text, endings kept, gives the text. |
| Documents.SplitJoin | ultracode/feature_loop.py:1390-1417 | Joining canonical lines and splitting again gives the same lines. |
| DocumentPrint.TextBackAgain | ultracode/feature_loop.py:96-187 | Parsing the printed text of a mapping returns the mapping. |
| Projection.EditAll | ultracode/feature_loop.py:1391-1409 | The single pass with its two counters and region flag yields the edited lines and counts the hits. |
| Projection.ProjectFeatureDocument | ultracode/feature_loop.py:1390-1417 | Edit, hit counts, second parse and comparisons, in order. |
| ProjectionLaws.ReadEdited | ultracode/feature_loop.py:1391-1409 | Editing the raw lines and then reading them as indented lines is the corresponding edit of the read lines. |
| ProjectionLaws.SameBelow | ultracode/feature_loop.py:1391-1409 | Root entries outside the edited regions parse to the same key and value. |
| ProjectionLaws.CountersPaired | ultracode/feature_loop.py:1400-1406 | Inside the sequence mapping only the counter under the slug can differ. |
| ProjectionLaws.RootEntry | ultracode/feature_loop.py:165-182 | Every line at indentation zero of a parsed document makes exactly one root entry. |
| ProjectionLaws.StatusIsOneLine | ultracode/feature_loop.py:1390-1417 | A projection never succeeds with a status that holds a line break, whatever the document. |
| ProjectionLaws.ProjectionCommutes | ultracode/feature_loop.py:1390-1417 | Whenever the projection succeeds, parsing its output equals parsing its input with only the status and the one counter changed: same keys in the same order, every other value untouched. |
| ProjectionAccepts.OrdinaryAccepted | ultracode/feature_loop.py:1390-1417 | The projection does go through: for the printed text of every manifest with schema, feature, status, state file and number counters, one of them under the slug, every plain status and every number; and its output parses to the manifest with these two set. |
| ProjectionAccepts.CapitalsPlain | ultracode/feature_loop.py:1390-1417 | The states of the feature loop, capitals and underscores, are such plain statuses. |
| ProjectionAccepts.ManifestIff | ultracode/feature_loop.py:205-233 | A mapping is a manifest exactly with the schema, texts for feature, status and state file, a good path, and at least one counter, all of them numbers from zero on. |
| ProjectionAccepts.ProjectedManifests | ultracode/feature_loop.py:1410-1417 | Before and after a projection there is a manifest, of the same feature and state file, afterwards with the status and the counter asked for. |
| Publication.PartialInjective | ultracode/feature_loop.py:1342-1346 | Different targets have different partial files. |
| Publication.PrepareMeets | ultracode/feature_loop.py:1429-1516 | When a preparation is refused and when not, over the files alone: malformed digest, missing control document, control document neither old nor new, a write-once target with other bytes, a partial in the way; otherwise all five files are in place and no other file has changed. |
| Publication.FirstPublication | ultracode/feature_loop.py:1429-1516 | The ordinary first publication goes through: write-once targets and partials absent, control documents with the expected digest; it ends with the five files and nothing else changed. |
| Publication.Coordinator.WriteAtomic | ultracode/feature_loop.py:1342-1356 | Create the partial, write it, rename it over the target; the process may die after any of these effects. |
| Publication.Coordinator.WriteOnce | ultracode/feature_loop.py:1358-1363 | An existing target with the same bytes is passed over, with other bytes refused. |
| Publication.Coordinator.ReplaceExpected | ultracode/feature_loop.py:1365-1387 | A control document with the new bytes is passed over, with the expected digest replaced, otherwise refused. |
| Publication.Coordinator.RequireExpected | ultracode/feature_loop.py:1420-1427 | Accepts a control document exactly when its expected digest is well formed and it is there with the new bytes or with that digest. |
| Publication.Coordinator.Steps | ultracode/feature_loop.py:1505-1516 | The loop over the five payloads stops at the first refusal. |
| Publication.Coordinator.Prepare | ultracode/feature_loop.py:1429-1516 | All checks first, then the five files in order, stopping wherever the process dies. If it lives and the targets are separate: prepared exactly when the request is sound and each payload can go to its place, said over the files as they were, and then the files are those with the five contents put in; refused only with the reason of the first control document not acceptable, or else of the first payload that cannot go. |
| PublicationLaws.StepsResume | ultracode/feature_loop.py:1505-1516 | Interrupted after any effect, a rerun of the steps ends in the same files as the uninterrupted run, or is refused because of the partial the interruption left. |
| PublicationLaws.PrepareResumes | ultracode/feature_loop.py:1429-1516 | The same for the whole preparation. |
| PublicationLaws.CompletedStepsResume | ultracode/feature_loop.py:1429-1516 | Interrupted after a completed step, no partial is left, and the rerun ends in the same files with the same answer as the uninterrupted run. |
| PublicationLaws.CompletedInPlace | ultracode/feature_loop.py:1505-1516 | A run that is not refused ends with all its files in place with their exact bytes. |
| PublicationLaws.AlwaysInOrder | ultracode/feature_loop.py:1429-1516 | If the order held before, it holds at every moment: state in place implies feature, feature implies handoff, handoff implies checksum, checksum implies response, each with its exact bytes. |
| PublicationLaws.Moment | ultracode/feature_loop.py:1342-1387 | At every moment a target holds what it held before or the exact bytes of its payload, never anything partial. |
| PublicationLaws.Untouched | ultracode/feature_loop.py:1429-1516 | No file is touched but the targets and their partials. |
| PublicationLaws.StillExpected | ultracode/feature_loop.py:1420-1427 | A control document that was acceptable stays acceptable while its own publication proceeds. |
| PublicationLaws.UnexpectedControlWritesNothing | ultracode/feature_loop.py:1501-1512 | If anything is written at all, both control documents held the expected or the new bytes. |
| PublicationLaws.TornIrrelevant | ultracode/feature_loop.py:1342-1356 | Where a run ends does not depend on how its writes were torn. |
| Discovery.Classify | ultracode/supervised_delivery.py:1920-1975 | Class and retryability spelled out: a cleanup issue decides first, then the launch, the observed response, the transport errors and the answers; retryable exactly without a response and in one of the five transport classes. |
| Discovery.OpenInitializedDiscovery | ultracode/supervised_delivery.py:1979-2046 | At most five attempts, each admitted before the aggregate deadline less the cleanup reserve; recorded transient failures are the retryable failures of the earlier attempts; it gives up only for one of the stated reasons; the back-off index is in range and the raise after the loop is unreachable. |
| Discovery.NoRetryAfterResponse | ultracode/supervised_delivery.py:1979-2046 | Every attempt that was followed by another one failed before any response and was cleaned up without an issue. |
| Pilot.StepKeeps | ultracode/route_discovery.py:169-195 | Every step of every pilot, with failures and deaths anywhere, keeps the invariant. |
| Pilot.RunKeeps | ultracode/route_discovery.py:501-663 | The same over schedules of any length. |
| Pilot.LinkOne | ultracode/route_discovery.py:185-191 | The exclusive link lets one pilot per name through, even among those that have linked and not yet passed. |
| Pilot.OneShot | ultracode/route_discovery.py:397-448 | Over all runs and processes, wherever publication fails, at most one pilot per locator name gets past publication, and at most one delivers. |
| Pilot.PublishedIsIntact | ultracode/route_discovery.py:451-465 | A pilot that got past publication, alive or ended, finds its own bytes in registry and locator for ever, whatever others do; its root stays; and its journal exists exactly when it has opened it. |
| Pilot.HomeStays | ultracode/route_discovery.py:397-448 | It keeps the root it passed with. |
| Pilot.OwnHomes | ultracode/route_discovery.py:397-448 | No two pilots that passed share a root, so that each journal belongs to one pilot. |
| Pilot.JournalIsNew | ultracode/route_discovery.py:580-608 | The journal a pilot is about to open does not exist. |
| Pilot.ReservationIsFree | ultracode/route_discovery.py:580-586 | Before it writes its launch marker, a published root holds nothing but the registry. |
| Pilot.DeliveryIsComposed | ultracode/route_discovery.py:580-608 | In every schedule, a pilot about to deliver finds its own launch marker and its own message in its root. |
| Pilot.LocatorStays | ultracode/route_discovery.py:397-448 | No step of any pilot removes or rewrites a locator. |
| Pilot.LaterPilotsConflict | ultracode/route_discovery.py:527-531 | Once a pilot has passed, every later pilot of that name ends at its first check. |
| OneTurn.OneRequestPerName | ultracode/route_discovery.py:501-663 | The whole promise: over all pilots, and all runs that ever use their journals, wherever they die and whatever a power loss takes from a journal, at most one turn request is written per locator name. |
| Ceremony.Host.WriteExclusiveAtomic | ultracode/route_discovery.py:169-195 | Succeeds only without a fault, and then a registry or locator holds its own bytes; a taken name is always that of the locator or its temporary, and with random names of its own always the locator, which is then in place. The temporary stays behind exactly when the write failed at its filling, or failed at the link or the removal and the clean-up failed as well. |
| Ceremony.Host.Abandon | ultracode/route_discovery.py:437-447 | With no locator in place the pilot removes its own four files, and its root if nothing is left in it; with a locator in place nothing. |
| Ceremony.Host.PublishRoute | ultracode/route_discovery.py:397-448 | The pilot gets past publication exactly on success, and then registry and locator hold its bytes. It is refused over a taken name: the locator, which is then in place, or, only if somebody else drew the same random name, its root or the temporary of the locator. |
| Ceremony.Host.RevalidateRoute | ultracode/route_discovery.py:451-465 | Reading the route back fails only if it cannot be read; it is always as published. |
| Ceremony.Host.Compose | ultracode/route_discovery.py:580-601 | Writing the launch marker and the message fails only at a fault: their names are never taken. Afterwards both are in place with their bytes. |
| Ceremony.Host.Reserve | ultracode/route_discovery.py:580-586 | The check on the reserved paths always succeeds. |
| Ceremony.Host.OpenJournal | ultracode/supervised_delivery.py:871-884 | The journal of a ceremony is always created by its own delivery, which finds marker and message in place. |
| Ceremony.Host.Attempted | ultracode/route_discovery.py:521-628 | Phase and exception of the try body, each if and only if its reason: before the list exactly when not ready or the locator is there, at discovery exactly when the listing failed, the exception "file exists" exactly for a taken name or one raised outside, the terminal one exactly for a declined choice or a delivery that declined or refused. |
| Ceremony.Host.TerminalGuard | ultracode/route_discovery.py:484-494 | Fails exactly when the route cannot be read or the journal the pilot opened does not open: never because of other processes. |
| Ceremony.Host.RunSupervisedPilot | ultracode/route_discovery.py:501-663 | The whole ceremony with other processes acting between any two of its system calls. With no exception and no failed guard the outcome is that of the delivery; a failed guard leaves UNCERTAIN and makes everything else POST_LIST_TERMINAL; every other outcome, and the phases before the list, if and only if its causes. With random names of its own and nothing failing, it reaches the delivery unless another locator is in place. Past publication exactly from ROUTE_PUBLISHED on, and then the only one of its name that ever was. With nothing failing around publication, "tooling failure before list" after the list means exactly that a locator is in place while the pilot has not passed. |
| Ceremony.OutcomeTells | ultracode/route_discovery.py:612-663 | Each outcome if and only if its causes, and the outcome of the delivery handed on; the outcome "tooling failure before list" is also given after the list was shown, exactly when a file-exists error was raised and the guard found nothing. |
| Ceremony.Overtake | ultracode/route_discovery.py:612-633 | Two pilots of one name, any plans: the second publishes while the first lets its user choose; the first, with nothing else failing, reports a failure before the list after showing it. |
| Ceremony.RunShelters | ultracode/route_discovery.py:397-448 | What random names are for: as long as others draw neither the root nor the nonce of a pilot, no schedule of theirs makes its root, makes or removes its temporaries. |
| Text.StripAround | ultracode/protocol.py:171-189 | Stripping takes the white space around a text and nothing else. |
| Text.RequiredEachAgain | ultracode/protocol.py:171-189 | Reading a list of required texts that was read changes nothing. |

## Left out

- Driver.Perform: models one process that runs without interruption; interleaving with other processes and crashes inside it are covered by the machine in `Delivery`, of which each of its system calls is a step, and by `Driver.CrashAnywhere`. A failing alias resolution, a failing launch and exceptions that are not caught, which raise too, are not among its inputs; in the machine they are the abort step.
- Delivery.OutcomesAreTrue: the machine frees the lock when the last record is durable, a moment before the descriptor is closed; nothing is written in between.
- Delivery.StepPowerLoss: models a power loss as the loss of a suffix of the unsynced bytes; blocks written out of order are not modelled, nor is a journal removed by hand.
- Delivery.AtMostOnce: counts requests handed to the operating system, as the source does; what the peer does with a request is not modelled.
- Framing.Reader.Read: models the branch that reads a descriptor; the `readline` branch for streams without a descriptor is not modelled.
- Session.Session.Write: the write loop and its deadline are one outcome per write (nothing written, a part written, all written); the encoding of objects is not modelled.
- Session.Session.TallyPage: the field-by-field checks of threads and turns are an opaque verdict with the fields that the session uses; thread names and previews are left out.
- Discovery.OpenInitializedDiscovery: the process of an attempt has ended when the attempt has, as the `with` block of the source provides; elapsed-time and byte buckets of a diagnostic are left out.
- Controller.Controller.Transact: models a transaction as atomic and alone, as `BEGIN IMMEDIATE` provides; SQL, WAL and the connection are not modelled. One call has one clock reading where the source may take several.
- Controller.Controller.CreateRun: identifiers come from the environment, and a collision is an error that rolls back.
- Controller.Controller.ClaimTurn: lease times are integers; the overflow error of a huge lease duration is not modelled.
- Controller.Controller.SubmitResult: optional lists of a result and of a handoff (commands, changed files and the like) are not modelled, since no rule depends on them; secret redaction is the identity.
- LeaseLaws.TokenStaysDead: needs that the minted token differs from the old one, which random tokens provide.
- Yaml.ParseDocument: an escape for a lone surrogate is refused, since it has no character here; error messages and line numbers are left out.
- Documents.ParseRestrictedYaml: white space is the set of characters listed in `Text.IsSpace` and line breaks those in `Documents.IsLineBreak`.
- Projection.ProjectFeatureDocument: the path check of the manifest is a parameter; its other fields are left out.
- Publication.Coordinator.WriteAtomic: a write that fails while the process lives removes its partial and raises; only dying processes are modelled, which may leave it. Symbolic links and directories are not modelled.
- Publication.Coordinator.Prepare: the five contents are parameters; how the handoff and the state document are put together, the Git checks and the privacy scan before the first write are not modelled.
- PublicationLaws.AlwaysInOrder: speaks of five separate targets none of which is the partial of another, as in the repository's layout; and it needs that the order already held before.
- Ceremony.Host.Abandon: the deletions of a failed publication are one step of the machine, since no other pilot touches that root.
- Ceremony.Host.Attempted: exceptions the source does not catch, which end the process after the guard without an outcome, are not modelled.
- Pilot.OneShot: a step that links or unlinks is taken as synced; power losses between the two are not modelled for the files of the ceremony.
- OneTurn.OneRequestPerName: each journal's story begins with no journal, as `Pilot.JournalIsNew` and `Pilot.OwnHomes` provide; a journal named by hand from elsewhere is not modelled.
- HandoffLaws.EndedReadings: the recorded operations and the artifacts of an ended run are not part of a reading.
- Ceremony.Host.RunSupervisedPilot: terminal input and output, the sanitized report, file modes and symbolic links are not modelled; the delivery itself is `Driver.Perform`, of which only the outcome enters here.
- Subprocess launch, signals and process-group cleanup are reduced to the cleanup verdict given to `Driver.Perform`.
- The stderr, privacy and redaction scanners are not part of this model: regular expressions over text.
- The policy registry, Git object reads, frontier guard and alias resolver of ultracode/feature_loop.py are not part of this model: finite tables and conjunctions of checks.
- ultracode/mcp/server.py, ultracode/cli.py, ultracode/executor.py, ultracode/dogfood.py and ultracode/supervised_handoff.py would only add easy members.
