# Verification of the lookup and verifier protocols

A Dafny 4.11 model of the two cooperating services in this repository, the lookup
server with its crawler and the verifier, with proofs about every run of their
protocols. `dafny verify dfyconfig.toml` checks everything.

Each protocol is a step machine: one step per code segment between two suspension
points, with the scheduler free to take any step that is possible, and, where
times matter, on a clock that never goes back. A run is any finite sequence of
such steps; the main results are about all of them.

| files | what they cover |
|---|---|
| `DomainIndex`, `ScheduleStores`, `RowTable`, `Backoff` | the parts of the crawler's state and what each code segment does to them |
| `CrawlerModel` | the crawler's step machine: scheduler, tracker, updater and any number of fetch tasks over shared domain records, the bounded queue, the index list and the table of resources |
| `CrawlerIndex`, `CrawlerTiming`, `CrawlerBackoff`, `CrawlerRows`, `CrawlerRecovery` | what every crawler run keeps |
| `Selection`, `CrawlerDecisions`, `CrawlerOutcomes`, `CrawlerMarks`, `StartRecords` | what the scheduler chooses, what each decision, fetch and handler call leaves, and what the crawler begins with |
| `CrawlerStart`, `CrawlerLimits`, `CrawlerStages`, `CrawlerTwice`, `CrawlerStale` | the starting state, and exactly where the promises end |
| `ObjectHandler`, `HandlerProofs`, `HandlerReports`, `HandlerCalls` | the recursion over JSON trees, the calls for each kind of object, the trust rule, what is reported, the walk over collection pages |
| `Json`, `CanonicalJson`, `PrefixFree`, `JsonReader`, `SigningData`, `SignedText` | the signed text: compact sorted JSON, a reader of it, and the signed projection of an actor |
| `LookupStore`, `LookupAnswers`, `SigningProtocol`, `PageCursor` | numbered versions, signatures and pages, from signing to serving |
| `VerifierWorker`, `WorkerSteps`, `WorkerChain`, `WorkerPages`, `WorkerLimits`, `WorkerRuns` | the verifier's worker: crawl, task chains, slots, checkpoint, submitter |
| `Breaker` | the verifier's circuit breaker |
| `ScheduleQueue`, `CrawlerObject`, `CrawlerSetup`, `FifoQueue`, `HandlerObject`, `LookupDatabase`, `BoundedFetcher`, `WorkerObject` | classes with the program's own fields and loops, changed in place; each method is proved to have the effect of the step machine's segment |

Times are reals. The breaker's weights 0.4 and 1 and its threshold 5 are 2, 5 and
25 fifths. A Python string is a sequence of code points.

What comes from outside is a parameter or left open: Python's `urlparse(..).netloc`
and `str`, the MD5 digest, WebFinger answers, RSA (a scheme whose own signatures
check), which rows a query returns and in which order, whether a fetch succeeds,
which object it returns, and which task moves next.

Where the code and its comments or intentions part, the code is modelled:

- `src/verifier/config.py:60-62` says the domain retry periods add up to 56 days;
  they add up to 976,562 seconds, a little over 11 days (`Breaker.TimerTotal`).
- `get_page_count` on an empty table finds one row holding no number and fails
  instead of counting 0 pages (`PageCursor.PageCount`).
- The two reads of a page request are not one transaction. A page that was still
  open at the first read can be passed over with an actor that nobody saw
  (`PageCursor.SafeExactlyWhenFull`).
- A row whose auxiliary data is `null`, or a batch element without its keys, makes
  `add_signatures` drop the rest of the batch (`SigningProtocol.NullAuxAbandons`,
  `SigningProtocol.NoUriAbandons`, `SigningProtocol.WellFormedExactly`).
- When the verifier's last page is read again while its actors are unfinished, a
  task can raise in its clean-up and keep its slot (`WorkerRuns.SlotLost`). Either
  way that this ends the crawl is reached by a run: the failed task comes to be the
  oldest by five queue sizes (`WorkerRuns.CrawlLost`, `WorkerLimits.LostSlotStopsTheCrawl`),
  or no slot is left (`WorkerRuns.AllSlotsLost`, `WorkerLimits.NoSlotsStopsTheCrawl`).
- A refused submission that is accepted on the next try ends the submitter when the
  page has other unfinished actors (`WorkerLimits.RefusedThenAcceptedStops`,
  `WorkerRuns.SubmitterLost`); `WorkerLimits.StopsExactly` says when it stops.
- A request period above ten seconds is undercut after a failed fetch
  (`CrawlerLimits.PoliteExactly`).
- A domain that is down leaves the list while the loop walks over it, and the domain
  behind it is passed over (`Selection.FirstFitExactly`, `Selection.FitPassedOver`).
- A new start URI of a domain that has a stored record corrupts the index list
  (`CrawlerStart.StartIndexExactly`, `CrawlerStart.RestartWithNewUri`).
- A row marked fetched while its resource is still queued can be revived there and
  be scheduled a second time (`CrawlerTwice.QueuedTwice`). Marked fetched between the
  scheduler's reading and its own mark, it waits again after a crash
  (`CrawlerTwice.MarkOverwritten`).
- A failed fetch that began before a success can count towards the streak that began
  after it, and a domain is then given up early (`CrawlerStale.StaleFailureCounts`).
- Two different strings share a JSON text when one holds a lone high surrogate
  before a lone low one; no decoded JSON holds such a pair (`CanonicalJson.SplitPairClash`).

## Model

| member | source | states |
|---|---|---|
| CrawlerIndex.IndexIsExact | src/lookup/crawler.py:79-222 | On every run, at every suspension point, the list of unscheduled domains has no duplicates, holds exactly the domains with waiting elements and nothing scheduled, which are exactly the flagged ones, and no removal from it ever failed |
| CrawlerIndex.CountersAreExact | src/lookup/crawler.py:153-177 | A domain's counter of scheduled items is the number of its items in the three stores plus the one being put, and stays between 0 and the configured bound |
| CrawlerIndex.QueueLosesNothing | src/lookup/schedule_queue.py:38-102 | Free slots and contents add up to the size, both counters are exact, and the items put are, as a multiset, the items returned and the items stored |
| DomainIndex.SelectAgree | src/lookup/crawler.py:187-200 | The selection loop keeps the list exact although its test removes names from the list being walked, and chooses distinct listed domains |
| Selection.CheckExactly | src/lookup/crawler.py:124-138 | The readiness test answers true if and only if the domain is up, does not rest after a failure, and has fewer items scheduled than allowed; it clears a flag whose time has passed, takes a domain that is down off the list, and changes nothing else |
| Selection.SelectedExactly | src/lookup/crawler.py:187-196 | The loop chooses the first fit domains, up to one chunk, of those it comes to; the one behind a domain that leaves the list is passed over |
| Selection.FirstFitExactly | src/lookup/crawler.py:187-196 | The choice is the first chunk of all fit domains, in list order, if and only if no fit one stands right behind one that leaves the list before the chunk is full |
| Selection.EmptyChoice | src/lookup/crawler.py:187-198 | When no listed domain is down, the choice is empty if and only if none is fit |
| Selection.FitPassedOver | src/lookup/crawler.py:189-196 | A list on which the only fit domain is passed over and nothing is chosen |
| Selection.SelectedOfNone | src/lookup/crawler.py:190-196 | With a chunk of 0 one domain is tried, and kept when it is fit |
| CrawlerDecisions.ChosenExactly | src/lookup/crawler.py:187-198 | The scheduler asks the domains so chosen from the shuffled list, or, without any, is free for another choice |
| CrawlerDecisions.ReadsExactly | src/lookup/crawler.py:179-185 | What the queries for all domains and for one domain bring the scheduler, and the end of a batch |
| CrawlerDecisions.GatheredExactly | src/lookup/crawler.py:199-222 | When the asked domains have answered, their answers, in order, are the next batch |
| CrawlerDecisions.EmptyAnswer | src/lookup/crawler.py:216-220 | A domain without an answer has no waiting elements and is off the list, and no other changes |
| CrawlerDecisions.ConsideredExactly | src/lookup/crawler.py:154-174 | An item is blocked if and only if its domain is down, passed over if and only if that rests or has all the items it may have, and scheduled and counted in otherwise |
| CrawlerDecisions.BlockedRow | src/lookup/crawler.py:161-164 | The row of an item to block becomes blocked, and no other row changes |
| CrawlerDecisions.QueuedRow | src/lookup/crawler.py:176-177 | The row of a scheduled item is in processing with its own priority, and the item stands behind all available ones, in a slot of its own |
| DomainIndex.CheckAgree | src/lookup/crawler.py:124-138 | The readiness test keeps the list exact, and its branch for a listed domain with scheduled items is never taken |
| DomainIndex.TakeSlotAgree | src/lookup/crawler.py:171-174 | Counting an item in takes its domain off the list without failing and keeps the list exact |
| DomainIndex.ReleaseSlotAgree | src/lookup/crawler.py:386-390 | Counting an item out lists its domain again exactly when it has waiting elements and nothing else scheduled |
| ScheduleStores.PassConserved | src/lookup/schedule_queue.py:50-73 | A round over what waits loses and duplicates nothing and leaves the counters exact |
| ScheduleStores.SortAscending | src/lookup/schedule_queue.py:57 | The sort of the waiting items is a permutation in ascending order of time |
| ScheduleStores.PassExactly | src/lookup/schedule_queue.py:50-73 | A round moves exactly the ready ones of the entries that waited behind the available ones, oldest first, and leaves exactly the others waiting |
| CrawlerDecisions.ReadyExactly | src/lookup/schedule_queue.py:60-66 | An entry is ready if and only if its domain's time has passed, or it rests, or it is down |
| CrawlerDecisions.Housekeeping | src/lookup/schedule_queue.py:50-96 | Rounds of the tracker and of the taker, and the update, are possible at any time |
| CrawlerTiming.Polite | src/lookup/crawler.py:286-350 | On every run any two fetches of one domain start more than the request period apart, for periods up to the first retry period |
| CrawlerLimits.PoliteExactly | src/lookup/crawler.py:294-350 | Spacing holds on all runs from all starting states if and only if the request period is at most the first retry period |
| CrawlerLimits.Impolite | src/lookup/crawler.py:341-350 | A run with a longer period on which a failed fetch is retried within the period |
| CrawlerTiming.OldTimeAlwaysPassed | src/lookup/crawler.py:341 | A fetch never fails before the time its domain had recorded when the fetch started |
| CrawlerTiming.AdmitEffect | src/lookup/crawler.py:286-299 | Whoever is handed a ready item fetches only if the recorded time has passed, and then reserves at least one period ahead in the same segment |
| CrawlerDecisions.TakenExactly | src/lookup/crawler.py:282-299 | A taken item is given up if and only if its domain is down, given back if and only if that rests, and fetched otherwise under the streak and time recorded so far, with the next request reserved exactly one period off unless a later time is recorded |
| CrawlerDecisions.GivenBack | src/lookup/crawler.py:286-292 | The rows of the first two become blocked, or waiting as they were |
| CrawlerOutcomes.SucceededExactly | src/lookup/crawler.py:308-334 | A fetched object without an id or with the row's own goes to the handler with the row's domain, priority and dictionary; one with another id on that domain after the row was redirected; for an id on another domain exactly that id is reported, with the row's priority; the success is counted and the streak ends |
| CrawlerOutcomes.ActorIsStored | src/lookup/crawler.py:329-334 | An actor fetched under its own id is marked with its digest and then stored with its WebFinger name, before anything else |
| CrawlerOutcomes.CollectionIsMarked | src/lookup/crawler.py:329-334 | So is a collection, stored only when collections are archived |
| CrawlerOutcomes.FailedForNow | src/lookup/crawler.py:336-356 | A temporary failure that counts leaves the row waiting as it was and its domain resting one period, or, after 56 in a row, the row failed and the domain given up |
| CrawlerOutcomes.FailedLate | src/lookup/crawler.py:341-342 | One under an older streak only ends its task |
| CrawlerOutcomes.FailedForGood | src/lookup/crawler.py:358-373 | Any other failure leaves the row failed and is counted against the domain |
| CrawlerOutcomes.BlockedExactly | src/lookup/crawler.py:366-373 | Over any sequence of successes and failures, a domain is blocked if and only if by some failure at least 50 fetches, and more than half of all, had failed |
| CrawlerOutcomes.FiftyFailures | src/lookup/crawler.py:366-373 | A new domain that only fails is blocked by exactly the 50th failure |
| CrawlerBackoff.GivenUpOnlyAfterAllRetries | src/lookup/crawler.py:335-356 | With no success in between and a streak that began at 0, the retry path gives a domain up only more than 4,359,060 seconds after its first counted failure, however many failed fetches overlap |
| CrawlerBackoff.GivenUpAfterCleanResets | src/lookup/crawler.py:335-356 | The same bound, counted from the first failure since the streak was last 0, on every run with any number of successes, if no success resets a streak while another fetch of the domain runs that began under a positive streak |
| CrawlerStale.StaleFailureCounts | src/lookup/crawler.py:308-356 | A run with such a fetch, from the starting state, on which the domain is given up in less than that time |
| CrawlerTiming.FailureEffect | src/lookup/crawler.py:341-356 | A failure of a fetch that began under an older streak leaves its domain's record as it is; one under the current streak adds 1 to the streak and sets the next request exactly one retry period off, or gives the domain up when all are used; no other domain changes |
| CrawlerBackoff.BackoffFailed | src/lookup/crawler.py:335-356 | A failed fetch keeps what the back-off has reached, through resets too: after k counted failures the next request lies at least the first k retry periods behind the first of them, and so does every fetch running at that streak |
| Backoff.RetryTotal | src/lookup/constants.py:3-5 | The 56 retry periods add up to 4,359,060 seconds |
| Backoff.RetryTimersAre | src/lookup/constants.py:3-5 | Each of the 56 retry periods: 10 seconds, five times as long each time, one day from the seventh on |
| CrawlerRows.AtMostOnceInMemory | src/lookup/crawler.py:153-177 | On runs that revive no row still in memory, a resource is at most once in the stores, in a put and with a task, and no waiting row is in memory, although batches are old snapshots and other tasks mark rows meanwhile |
| CrawlerRows.ReviveExactly | src/lookup/database/queue.py:117-126 | Reviving due rows keeps that order if and only if none of them is in memory |
| CrawlerRows.RightExactly | src/lookup/database/queue.py:117-126 | Along a run, at every suspension point no resource is in memory twice and no waiting row is in memory if and only if no update ever revives a row that is in memory at that moment |
| CrawlerLimits.MarkedThenRevived | src/lookup/obj_handler.py:62-77 | From any state in which another task is about to mark a queued resource fetched, a run to a state in which that resource is in memory and its row waits again |
| CrawlerTwice.QueuedTwice | src/lookup/crawler.py:153-177 | A run from a starting state with two waiting rows of one domain that ends with one resource twice in the queue |
| CrawlerRecovery.CrashRecovery | src/lookup/database/queue.py:69-76 | A crash after any such run, followed by the database setup, leaves no processing row, puts each back into exactly the waiting state and priority it was scheduled from, and changes no other row |
| CrawlerRecovery.RecoveryExactly | src/lookup/database/queue.py:69-76 | Along a run on which no row in memory is revived, a crash at any suspension point, followed by the database setup, puts every processing row back into the state it was scheduled from if and only if the scheduler never marks a row whose state has changed since it was read |
| CrawlerTwice.MarkOverwritten | src/lookup/crawler.py:176 | A run from a starting state after which a crash lets a row wait again that was marked fetched before the scheduler marked it |
| CrawlerRecovery.MarkExactly | src/lookup/crawler.py:176 | Marking a row as processing remembers its origin if and only if the row still has the state that was read |
| CrawlerStart.StartIndexExactly | src/lookup/crawler.py:42-66 | The list the tasks start with is exact if and only if no start URI of a domain with a stored record leads to a resource that has no row yet |
| CrawlerStart.RestartWithNewUri | src/lookup/crawler.py:42-66 | Any restart with one new start URI of a domain crawled before begins with a wrong list |
| CrawlerStart.StartIsRight | src/lookup/crawler.py:35-76 | The starting state has every property that the results about runs begin from |
| StartRecords.StartsWithRows | src/lookup/crawler.py:42-52 | The table at the start is the recovered one and, for each start URI on some domain without a row, a row waiting with priority; a name without a network location is replaced by what WebFinger finds |
| StartRecords.StartsWithRecords | src/lookup/crawler.py:54-70 | A stored domain begins with its last stored time, streak and state, resting exactly when it has failed and that time lies ahead, and with waiting elements exactly when it is up and has a waiting row; any other begins up and free at once |
| HandlerProofs.TrustRule | src/lookup/obj_handler.py:36-181 | For any JSON tree: an actor or collection is stored only for the root, exactly when the root has an id on the trusted domain (and collections are archived), and nothing is stored or marked under another domain's id |
| HandlerReports.ReportRule | src/lookup/obj_handler.py:36-108 | For any JSON tree: a resource is reported if and only if it is the root's own id, when that lies outside the trusted domain, or else the walk through the root's parts comes to it, as a string or as the id of an actor, a collection or an object of another domain |
| HandlerProofs.WalkKeepsDirection | src/lookup/obj_handler.py:129-151 | Along the pages of any walk, wherever on a journey from fetched object to reported resource it begins, the first page's direction stays, through saving and reloading, and at most two pages without items are expanded; the first page may be fetched for itself or be a collection inside a fetched object |
| HandlerProofs.EmbeddedStart | src/lookup/obj_handler.py:129-151 | An actor whose outbox is a collection without an id begins such a walk: its first page is the only report, with the direction chosen and the missing items counted |
| HandlerObject.Handler.HandleValue | src/lookup/obj_handler.py:36-108 | The recursive method makes exactly the calls, in the order, of `ObjectHandler.Handle`, the function that the trust rule and the walk are about |
| HandlerObject.Handler.HandleCollection | src/lookup/obj_handler.py:129-151 | The same for a collection, whose dictionary is a local that changes step by step and ends as the specification's |
| HandlerObject.Handler.HandleField | src/lookup/obj_handler.py:165-181 | The same for one field: nothing when absent, every value of a list in order, or the one value |
| HandlerObject.MarkFetched | src/lookup/obj_handler.py:59-92 | Marking an object's row fetched, with its nested choice of the period, leaves the table that the step machine's `CrawlerModel.Marked` gives |
| HandlerCalls.IdExactly | src/common/activity_streams.py:4-9 | The id of an object is what it has under "id", else under "uri", as a string, else none |
| HandlerCalls.RootMarkedFirst | src/lookup/obj_handler.py:54-92 | For any tree: a root with an id on its domain is marked first, with its digest if and only if its type is one of the four of actors or the four of collections, and no later mark carries a digest |
| HandlerCalls.ActorCallsAre | src/lookup/obj_handler.py:110-127 | All the calls for an actor: marked, stored, followers and following reported with priority, outbox without |
| HandlerCalls.PageCallsAre | src/lookup/obj_handler.py:129-151 | All the calls for a page with any lists of strings as items: marked, stored when collections are archived, the items and then the link reported with the direction and the count handed on, and nothing more after two pages without items |
| HandlerCalls.DirectionExactly | src/lookup/obj_handler.py:138-145 | The link followed is the direction chosen before, else "first" or "next" towards "next", else "last" towards "prev" |
| HandlerCalls.NoItemsExactly | src/lookup/obj_handler.py:146-147 | A page is without items if and only if what it has under "orderedItems", or under "items" when that is falsy, is no list or an empty one |
| HandlerCalls.NoteCallsAre | src/lookup/obj_handler.py:153-160 | All the calls for a note: marked without a digest, stored when notes are archived, whom it is from and to reported with priority, its replies without |
| HandlerCalls.CreateCallsAre | src/lookup/obj_handler.py:162-163 | All the calls for a `Create`: who acted and what was made are reported |
| HandlerCalls.InsideReported | src/lookup/obj_handler.py:57-97 | An actor or a collection inside an object, or an object of another domain, is only reported, with the priority of its place |
| HandlerCalls.InsideHandled | src/lookup/obj_handler.py:57-97 | Anything else is handled there as at the root |
| HandlerCalls.ForeignReported | src/lookup/obj_handler.py:94-97 | A root with an id on another domain is only reported |
| CrawlerMarks.Remarked | src/lookup/obj_handler.py:62-92 | After a mark the row is fetched; with a digest it holds that digest and is due again one period later; a missing row is made with the domain fetched from; no other row changes |
| CrawlerMarks.DueExactly | src/lookup/database/queue.py:225-244 | A row marked with a time is due from exactly then on; a row whose state is set otherwise is never due |
| CrawlerMarks.ChangedSooner | src/lookup/obj_handler.py:68-79 | On every run a marked actor or collection that changed is due again after exactly the least period, an unchanged one after twice that or the longest, so never before the first nor after the last |
| CrawlerMarks.ReviveTable | src/lookup/database/queue.py:117-126 | Exactly the fetched rows whose time has come wait again, with priority |
| CrawlerMarks.RecoverTable | src/lookup/database/queue.py:69-76 | Exactly the processing rows wait again, each with its priority |
| CrawlerMarks.Redirected | src/lookup/crawler.py:316-319 | The row of an item whose object has another id is redirected, and no other row changes |
| CrawlerMarks.Reported | src/lookup/crawler.py:79-108 | A reported resource without a row gets one, blocked when its domain is down, else waiting with the priority of the report, and its domain is told and listed when it has nothing scheduled; one with a row keeps it; the public collection is left out |
| CrawlerMarks.NothingLeft | src/lookup/crawler.py:377-395 | A task ends when the handler is through, or raises |
| CanonicalJson.PrintCanonical | src/common/signatures.py:69 | Two decoded values have the same compact sorted text if and only if they are the same value up to the order of members |
| PrefixFree.PrefixFreeExactly | src/common/signatures.py:69 | The printer is prefix-free exactly outside the numbers: no text of a string, constant, array, object, `NaN` or infinity begins another text, while every integer's and every finite float's does |
| JsonReader.RoundTrip | src/common/signatures.py:69 | Reading a printed value by the grammar of RFC 8259, sections 3 to 7, gives the value back up to the order of members, with nothing left over |
| JsonReader.ReadBack | src/common/signatures.py:69 | The same with anything behind the value that begins with a delimiter, which is left over |
| CanonicalJson.EscapesAre | src/common/signatures.py:69 | Which characters are written as they are, with a short escape, or with four lower-case hexadecimal digits |
| CanonicalJson.LessExactly | src/common/signatures.py:69 | Member names are ordered by the first code points that differ, a prefix first |
| CanonicalJson.PrintPrefixFree | src/common/signatures.py:69 | Up to the next delimiter or the end, any text, a number's too, determines its value and what follows |
| CanonicalJson.PrintOrderFree | src/common/signatures.py:69 | The order of members never shows in the text |
| CanonicalJson.SplitPairClash | src/common/signatures.py:69 | A string that no JSON text decodes to shares its text with another |
| SigningData.SignedTextIsProjection | src/common/signatures.py:47-69 | Signed texts are equal if and only if both sides have the same under "id", "uri", "type", "following", "followers", "inbox", "outbox", "name", "url", "published" and "endpoints", null where missing, under "publicKey", an empty dictionary where missing, and under "webfinger" of the auxiliary data, and the same time |
| SignedText.TextIs | src/common/signatures.py:54-69 | The signed text, character by character: fourteen named members in the order of their names, each with what the actor, the auxiliary data or the caller gives |
| SigningData.DataExactly | src/common/signatures.py:47-53 | There is something to sign if and only if the actor is a dictionary whose key is one or missing, and the auxiliary data is a dictionary |
| SigningData.GetExactly | src/common/signatures.py:54-69 | A key's value is its first member's, and a missing key gives the default |
| SigningData.VerifyExactly | src/common/signatures.py:76-85 | A signature is valid if and only if there is such a text and the scheme accepts the signature for it; it raises if and only if only the auxiliary data is no dictionary |
| SigningData.SignedExactlyWhenSame | src/common/signatures.py:116-123 | A signature is made if and only if both actors carry a dictionary key and agree on the whole projection, and it raises if and only if one has a key and the auxiliary data is no dictionary |
| SigningData.SignedThenValid | src/common/signatures.py:76-123 | Such a signature is valid for every stored version with the same projection |
| SigningProtocol.SignedExactlyWhenConfirmed | src/verifier/worker.py:289-299 | A task signs if and only if it fetched the actor asked for, its recorded WebFinger name is null or the one resolved, and live and listed actor agree on the projection |
| SigningProtocol.RaisesExactly | src/verifier/worker.py:289-299 | It raises if and only if it fetched the actor asked for and the listed auxiliary data is no dictionary |
| SigningProtocol.JudgedExactly | src/lookup/signatures.py:24-45 | An element of a batch is stored if and only if it has all its keys, names a stored row, and its signature is accepted for that row's text; then under that row's number, with its own signature and time |
| SigningProtocol.BatchStoresExactly | src/lookup/signatures.py:17-45 | A well-formed batch leaves, for exactly the versions it holds acceptable signatures for, the last of them with its time, and changes nothing else |
| SigningProtocol.AbandonedBatch | src/lookup/signatures.py:23-49 | A bad element ends the batch; what came before it stays stored |
| SigningProtocol.WellFormedExactly | src/lookup/signatures.py:23-49 | No element ends the batch if and only if each has its keys (a signature and a time only for stored objects) and none is for a stored actor with a key and without auxiliary data |
| SigningProtocol.NullAuxAbandons | src/lookup/signatures.py:28-35 | After an actor with a key was stored with auxiliary data `null`, the first element signing it ends the batch, whatever its signature |
| SigningProtocol.NoUriAbandons | src/lookup/signatures.py:25-27 | So does the first element without a URI |
| SigningProtocol.StillToSign | src/lookup/database/signatures.py:31-43 | A well-formed batch takes exactly its accepted versions off the verifier's list of versions to sign, and touches no other list |
| SigningProtocol.ToSignExactly | src/lookup/database/signatures.py:31-43 | What a verifier has still to sign are exactly the stored numbers without a signature of its |
| SigningProtocol.NewVersionUnsigned | src/lookup/database/objects.py:31-40 | A newly stored version is on every verifier's list |
| SigningProtocol.SignedIsAccepted | src/lookup/signatures.py:24-45 | End to end: what a task signed is accepted by the server for the stored version if that still has the projection, then live and stored actor agree on it, and the signature with its time is the one kept unless the batch holds a later one for the same version |
| LookupStore.ServedSignaturesMatch | src/lookup/server.py:31-57 | Whatever replaces, submits and reads meanwhile, each signature shown with a row is accepted by the scheme, under its signer's stored key, for the text of exactly that row's JSON and auxiliary data |
| LookupAnswers.AnsweredExactly | src/lookup/server.py:31-57 | On every run, each answer with an actor's row shows exactly the signatures that the table held for its number at the moment of the second read, as stored there; an answer with any other row shows none |
| LookupAnswers.RowReadExactly | src/lookup/server.py:33-38 | On every run, the row of a request is the one stored when the request came |
| LookupAnswers.GetAnswered | src/lookup/server.py:31-57 | A request with nothing in between is answered with the stored row and all its signatures |
| LookupAnswers.TableExactly | src/lookup/database/objects.py:31-40 | On every run the table holds, for each resource, exactly what was stored last, under the number of that store |
| LookupAnswers.SubmittedAlone | src/lookup/signatures.py:17-49 | A batch submitted with nothing in between leaves exactly what the batch results are about, and no other change |
| LookupStore.NumbersNeverReused | src/lookup/database/objects.py:25-40 | A version number always denotes the same version |
| LookupDatabaseObject.LookupDatabase.AddSignatures | src/lookup/signatures.py:17-49 | The loop over a batch, with its ways to skip and to stop, leaves the tables as the specification says |
| LookupDatabaseObject.LookupDatabase.GetPageCount | src/lookup/database/objects.py:100-108 | The page count is the highest number, rounded up; there is none for an empty table |
| LookupDatabaseObject.LookupDatabase.GetActorsPage | src/lookup/database/objects.py:83-98 | A page lists each of its live actors once and nothing else |
| PageCursor.NoVersionSkipped | src/verifier/worker.py:182-207 | However stores, page requests and restarts interleave, every live actor version is on a page at or after the cursor or was delivered, if each page request reads one table or a full page |
| PageCursor.SafeExactlyWhenFull | src/lookup/server.py:79-90 | A request between its two reads can skip no version, whatever is stored meanwhile, if and only if its page was full |
| PageCursor.OpenPageSkips | src/lookup/server.py:84-85 | The stores that make a request for an open page pass an actor over |
| PageCursor.PageExactly | src/lookup/database/objects.py:83-98 | A page holds exactly the live actors with its hundred numbers |
| PageCursor.PagesExactly | src/lookup/database/objects.py:100-108 | There is a page after this one if and only if a later number was given out |
| PageCursor.OnePage | src/verifier/worker.py:182-207 | One request delivers all live actors of its page, and the cursor goes on if and only if there are later numbers |
| PageCursor.EveryActorDelivered | src/verifier/worker.py:182-207 | After any such run, a verifier that goes on asking while nothing is stored has got every live actor |
| WorkerChain.OneFetchPerDomain | src/verifier/worker.py:229-286 | On every run at most one task of a domain is between the start of its fetch and the end of its clean-up |
| WorkerChain.WaitsBackwards | src/verifier/worker.py:263-268 | Tasks wait only for tasks launched before them |
| WorkerChain.NoDeadlock | src/verifier/worker.py:263-268 | As long as a task is unfinished some task can take its next step |
| WorkerChain.SlotsExactly | src/verifier/worker.py:231-356 | Unfinished tasks, failed tasks and free slots add up to the queue size; without the failed ones they do if and only if there are none |
| WorkerSteps.NoSignatureLost | src/verifier/worker.py:80-151 | On every run without a restart, signatures come to the server, or are given up by an error, in the order in which they were made, each once, refused batches included |
| WorkerSteps.SubmitterGoesOn | src/verifier/worker.py:96-124 | Batches are the oldest signatures, refused ones go back in front, and after each answer the batch's actors are taken off their pages |
| WorkerSteps.LaunchedExactly | src/verifier/worker.py:229-245 | Launching an actor takes a slot and an id, waits for the last task of its domain, and makes its page track it |
| WorkerSteps.WaitsForOldest | src/verifier/worker.py:219-228 | A batch waits if and only if it is not empty and the oldest task is more than five queue sizes back, and then for that task |
| WorkerSteps.OldestOver | src/verifier/worker.py:226-228 | Once that task is over, the batch goes on, unless the task's entry is still there |
| WorkerSteps.TaskGoesOn | src/verifier/worker.py:263-316 | A task begins when the one it waits for is over, signs or gives up its actor, and at its end frees its slot |
| WorkerSteps.AdvancedExactly | src/verifier/worker.py:200-207 | The crawl goes on if and only if there is a further page, and submits it if and only if no page is pending |
| WorkerSteps.RemovedExactly | src/verifier/worker.py:358-364 | The five outcomes of taking an actor off a page, with the limits of three actors and ten pages |
| WorkerSteps.EndedExactly | src/verifier/worker.py:343-376 | What each of them means for a task's clean-up, the pages and the submitted updates |
| WorkerSteps.TakenOffExactly | src/verifier/worker.py:114-138 | And for the submitter, whose handlers an error runs through |
| WorkerSteps.MovedExactly | src/verifier/worker.py:365-383 | An undisturbed move drops its page after the last actor and submits the least page left |
| WorkerSteps.DroppedSubmitsLeast | src/verifier/worker.py:376-383 | Dropping a page submits the least page that is still pending, the crawl's included |
| WorkerSteps.SavedExactly | src/verifier/worker.py:153-154 | Updates reach the database one by one, in order, and a restart begins at the saved page with everything else forgotten |
| WorkerChain.FailsExactly | src/verifier/worker.py:343-378 | A task fails in its clean-up if and only if its page is tracked without it, or the dictionary it moves the last actors of a page from has another size than when the move began, or the page is untracked at the end of the move |
| WorkerPages.MoveHasDictionary | src/verifier/worker.py:358-376 | On every run, that dictionary is the one its page has now, or was dropped with a known size, even when the page is tracked again with another one |
| WorkerLimits.DisturbedMoveFails | src/verifier/worker.py:358-376 | A move fails when another task of the page takes its actor off meanwhile |
| WorkerRuns.SlotLost | src/verifier/worker.py:343-361 | A run from the start that loses a slot |
| WorkerLimits.ListedTwiceFails | src/verifier/worker.py:358-361 | Of two unfinished tasks with the same listed actor, the second to clean up fails while the page is tracked |
| WorkerLimits.LostSlotStopsTheCrawl | src/verifier/worker.py:219-228 | Once a failed task is the oldest and five queue sizes back, no task is launched until a restart |
| WorkerRuns.CrawlLost | src/verifier/worker.py:219-228 | A run from the start to such a state, with two of three slots free |
| WorkerLimits.BatchDroppedExactly | src/verifier/worker.py:219-228 | A batch that had to wait for the oldest task is dropped if and only if that task failed; else all of it goes on to be launched |
| WorkerLimits.NoSlotsExactly | src/verifier/worker.py:229-231 | On every run: no slot is free and every entry is a failed task's if and only if as many tasks failed as there are slots |
| WorkerLimits.NoSlotsStopsTheCrawl | src/verifier/worker.py:229-231 | From then on no task is launched and none moves until a restart |
| WorkerRuns.AllSlotsLost | src/verifier/worker.py:358-361 | A run from the start to such a state |
| WorkerLimits.RefusedThenAcceptedStops | src/verifier/worker.py:80-151 | A request refused once and then accepted stops the submitter when the page has other unfinished actors |
| WorkerLimits.StopsExactly | src/verifier/worker.py:80-151 | The submitter stops in a step if and only if, not while it works off an accepted request, it takes off an actor whose page is tracked without it, or the dictionary of its move has another size than when the move began, or the page of its move is untracked at the end |
| WorkerRuns.SubmitterLost | src/verifier/worker.py:80-151 | A run from the start, with one refusal followed by an acceptance, that ends with the submitter stopped and an actor unfinished |
| WorkerLimits.StoppedStays | src/verifier/worker.py:80-151 | A stopped submitter takes no batch until a restart |
| WorkerPages.CheckpointSafe | src/verifier/worker.py:358-383 | On every run, through restarts, the saved page is at most every page with unfinished actors and at most the crawl's page |
| WorkerPages.CheckpointRises | src/verifier/worker.py:154 | The saved page never decreases, across steps and restarts, whatever submitted updates a crash loses |
| WorkerPages.LeastPendingRises | src/verifier/worker.py:201-241 | The least of the pending pages and the crawl's page never decreases until a restart |
| Breaker.BreakerBounds | src/verifier/bounded_fetcher.py:40-75 | The weight rests below the threshold, a down mark uses up 5 to 13 counted failures, and the fail count is at most ten, on every run with any overlap and any restarts |
| Breaker.GivenUpLate | src/verifier/bounded_fetcher.py:65-70 | The mark that gives a domain up comes at least 976,562 seconds after the first mark since the last success, through restarts |
| Breaker.GivenUpStays | src/verifier/bounded_fetcher.py:45-58 | A given-up domain stays so, with nothing more counted, until a fetch already under way succeeds |
| Breaker.DownExactly | src/verifier/bounded_fetcher.py:55-75 | From a domain without counted failures, failures of any kinds lead to a mark with exactly the first by which temporary ones and two fifths of the others come to five; the mark puts the next try exactly one retry period off |
| Breaker.OneKindExactly | src/verifier/bounded_fetcher.py:58-65 | Temporary failures alone mark a domain with the fifth, other failures alone with the thirteenth |
| Breaker.UncountedAndReset | src/verifier/bounded_fetcher.py:50-57 | Failures while the domain is down do not count; a success frees it and ends the series, but keeps the weight counted so far |
| Breaker.RefusedExactly | src/verifier/bounded_fetcher.py:45-58 | A refused request counts as one failure that is not temporary if and only if the domain is up at the second look at the clock |
| Breaker.TimersAre | src/verifier/config.py:60-62 | Each of the nine retry periods |
| Breaker.TimerTotal | src/verifier/config.py:60-62 | The nine retry periods add up to 976,562 seconds |
| Breaker.ReservationsSpaced | src/verifier/bounded_fetcher.py:29-38 | A reserved time lies one timeout after now and after the reservation before it, and not before the next try, and is one of these three times |
| ScheduleQueueObject.ScheduleQueue.TrackWaiting | src/lookup/schedule_queue.py:50-73 | The loop over the sorted waiting items leaves the queue's fields as `ScheduleStores.Pass` says, with readiness read from each entry's own domain object |
| ScheduleQueueObject.ScheduleQueue.GetFirstAvailable | src/lookup/schedule_queue.py:79-96 | The rounds end with the queue and the item of `Rounds`, and the entry returned is one that was stored |
| ScheduleQueueObject.ScheduleQueue.Put | src/lookup/schedule_queue.py:98-102 | An item enters at the end of the available entries, with a slot taken and both counters raised; nothing else moves |
| ScheduleQueueObject.RoundsConserved | src/lookup/schedule_queue.py:79-96 | The rounds lose nothing and take out exactly the item they return |
| ScheduleQueueObject.RoundsFirst | src/lookup/schedule_queue.py:79-96 | The item returned is the first ready one; none is returned only when none was ready |
| ScheduleQueueObject.SortSlots | src/lookup/schedule_queue.py:57 | The insertion loop sorts entries, domains attached, exactly as the specification's stable sort does their items |
| ScheduleQueueObject.Domain.IsTempUnreachable | src/lookup/schedule_queue.py:29-35 | The flag is dropped exactly when the recorded time has passed, and the answer is the flag afterwards; no other field changes |
| CrawlerObject.Crawler.SelectDomains | src/lookup/crawler.py:187-200 | The loop by index over a list that its own test shortens gives the list, the records and the choice of `SelectFrom` |
| CrawlerObject.Crawler.IsDomainOk | src/lookup/crawler.py:124-138 | On the shared record and the list, the effect and answer of `CheckForScheduling`; all other records stay |
| CrawlerObject.Crawler.CollectItems | src/lookup/crawler.py:210-222 | The loop over the answers collects, in order, each answer's rows with priority and takes domains with an empty answer off the list, as `Collect` says |
| CrawlerObject.Crawler.ConsiderItem | src/lookup/crawler.py:154-174 | The scheduler's decision about one item, and the counter and list it leaves, are those of `Consider` |
| CrawlerObject.Crawler.AdmitItem | src/lookup/crawler.py:282-299 | Counting a received item out, testing its domain and reserving the next request time have, in one segment, the effect of `CrawlerModel.Admit` |
| CrawlerObject.Crawler.NoteNewRow | src/lookup/crawler.py:99-106 | The domain of a new row is marked and listed exactly when it is up, has nothing scheduled and is not listed yet |
| CrawlerObject.Crawler.NoteTemporaryFailure | src/lookup/crawler.py:341-351 | Record and outcome are those of `CrawlerModel.TemporaryFailure`, which the step machine uses: unchanged when the streak is no longer the one the fetch began under |
| CrawlerObject.Crawler.NoteFailure | src/lookup/crawler.py:366-373 | The quotient test on failed and fetched counts has the effect of `CrawlerModel.Failure`: a domain is blocked exactly when at least 50 fetches, and more than half, failed |
| CrawlerObject.Crawler.NoteFetched | src/lookup/crawler.py:308-313 | A success counts and resets the streak, with the effect of `CrawlerModel.Success`; no other record changes |
| CrawlerObject.TrackNow | src/lookup/schedule_queue.py:50-73 | A round over what waits reads readiness from the crawler's own records and leaves every entry linked to them |
| CrawlerObject.FetchNext | src/lookup/crawler.py:377-391 | A fetch task takes the first ready item, readiness being read from the shared records, and admits it with nothing in between |
| CrawlerSetup.Start | src/lookup/crawler.py:35-66 | The objects built before the tasks are created hold exactly the step machine's starting state, with the waiting domains read as they are listed |
| FifoQueueObject.FifoQueue.Setup | src/lookup/database/queue.py:69-76 | The two updates, one after the other, leave no processing row and put each into the negation of its state; they are `RowTable.Recover` |
| FifoQueueObject.FifoQueue.Insert | src/lookup/database/queue.py:84-115 | A row is inserted exactly when its resource has none, an existing one is left alone, and the answer says which |
| FifoQueueObject.FifoQueue.UpdateStateTime | src/lookup/database/queue.py:234-244 | State, times and hash of an existing row change, a missing row is not made |
| FifoQueueObject.FifoQueue.SetNextToUpdate | src/lookup/database/queue.py:117-126 | Exactly the due fetched rows wait again, with priority |
| FifoQueueObject.FifoQueue.GetWaitingDomains | src/lookup/database/queue.py:193-202 | Each domain with a waiting row, once |
| BoundedFetcherObject.BoundedFetcher.Fail | src/verifier/bounded_fetcher.py:55-75 | A failed request has the effect of `Breaker.Failed` on its domain and none on any other |
| BoundedFetcherObject.BoundedFetcher.Know | src/verifier/bounded_fetcher.py:41-44 | An unknown domain starts without failures and free at once; a known one is left alone |
| BoundedFetcherObject.BoundedFetcher.Enter | src/verifier/bounded_fetcher.py:41-58 | A refused request is counted when the second look at the clock finds the domain up again, and then only |
| BoundedFetcherObject.BoundedFetcher.ReserveTime | src/verifier/bounded_fetcher.py:29-38 | The reservation of `Breaker.Reserve` for a known domain; nothing is recorded for an unknown one |
| WorkerObjects.WorkerObject.LaunchNext | src/verifier/worker.py:229-245 | Slot, chain, page and task after launching one actor are those of the step machine's launch |
| WorkerObjects.WorkerObject.GetSignatures | src/verifier/worker.py:219-228 | Whether a batch waits for the oldest task, found by a loop over the ids, is decided as in the step machine |
| WorkerObjects.WorkerObject.RemoveFromQueue | src/verifier/worker.py:358-383 | An untracked page and a missing actor change nothing; an emptied page is dropped and the least page left, found by a loop, is submitted |
| WorkerObjects.WorkerObject.CleanUp | src/verifier/worker.py:343-356 | The clean-up of a task leaves pages, submitted updates and the task's own state as the step machine's |
| WorkerObjects.WorkerObject.AfterSpill | src/verifier/worker.py:362-383 | After one of the last actors was moved, the sizes of the page's dictionary now and at the start are compared: the task fails, goes on, or drops the page and submits the least page left |
| WorkerObjects.WorkerObject.AfterSubmittedSpill | src/verifier/worker.py:362-383 | The same in the submitter, whose handlers an exception then runs through |
| WorkerObjects.WorkerObject.DropSubmitted | src/verifier/worker.py:114-124 | The submitter's next removal leaves pages, updates and the submitter as the step machine's, exceptions included |
| WorkerObjects.WorkerObject.NextRound | src/verifier/worker.py:200-205 | The crawl moves on only below the page count, and submits its page only when no page is pending |
| WorkerObjects.WorkerObject.TakeBatch | src/verifier/worker.py:96-99 | A batch is the oldest signatures, at most one batch size, and the rest stay in order |

## Left out

- HTTP, TLS, XML, HTML pages, SQLite itself, configuration files, runners and plotting: input and output around the protocols.
- WebFinger look-ups: their answers are parameters; the cache of host metadata and its waiters are not modelled.
- `_choose_random_domain`, aliases, statistics, event counters and query parameters: not used, or easy members.
- The stored `domains` table of the crawler is read at the start but its later writes are not modelled, so nothing is claimed about a domain's state after a restart, and spacing is not claimed between fetches before and after one.
- Exceptions raised by database calls, and cancelled tasks: no step raises for these reasons; exceptions in the object handler and in the worker's clean-up are modelled.
- A code segment of the crawler reads the clock once; the source may read it a few times within one segment. The breaker's two readings are both modelled.
- `put` and the rounds of `get_first_available` are single steps even where the source would not suspend, so the machine has all the source's interleavings and more.
- The object handler's class records its calls instead of making them; for the marked row `HandlerObject.MarkFetched` makes the change.
- The key that `_init_sign` keeps per process: the scheme is given the key instead.
- The dictionary that travels with a collection walk is kept as a value; its text in the queue row is not printed and parsed again.
- CrawlerBackoff.GivenUpOnlyAfterAllRetries: only without a success in between; `CrawlerBackoff.GivenUpAfterCleanResets` is the bound with successes, which `CrawlerStale.StaleFailureCounts` breaks when a fetch from before a success fails after it.
- CrawlerRows.AtMostOnceInMemory: only on runs that revive no row in memory; after a long outage an update can become due while its resource is still queued.
- Breaker.GivenUpLate: the verifier's last written domain state is taken as durable; `set_domain_state` commits it only under `commit_after_every` (src/verifier/database.py:115-121), so a crash may bring back an earlier one.
- Float texts: which texts `float.__repr__` gives is not modelled; a finite one is any string of number characters that begins like a number, ends in a digit and is no integer's.
- CrawlerRecovery.CrashRecovery: only on runs that mark no row fetched between its reading by the scheduler and its marking, since the mark is then overwritten (`CrawlerRecovery.RecoveryExactly`); the last written state is taken as durable.
- A claim that every scheduled row reaches a final state: an ignored concurrent failure and an object without an id leave a row processing until the next start.
- A claim that signatures not yet submitted survive a crash of the verifier: a failed request removes their actors from the pages first.
- The verifier's own queue of retries, its differences table and the waiting times between its tasks: only which task may go on is modelled, not when. Spacing of requests is not claimed for the verifier.
- How many of a page's last actors a move still finds is left open in the worker's machine: it depends on which of their tasks have begun, and on the order of keys replaced by as many others. A move is suspended at least once even when none has begun.
- Task ids do not wrap; the source counts them modulo 1,000,000.
- `urlparse` gives a network location for every string; the ValueError it raises for some malformed ones is not modelled.
- Records with no `uri` or `json`, which make a launch or a task raise before its fetch, are not modelled.
- The check for internet access only delays fetch tasks; the machine lets them go on at any time.
- The two fetch concurrency limits (`fetch_semaphore`, `parallel_fetches`): any number of fetches may run.
