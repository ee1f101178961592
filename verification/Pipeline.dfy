/**
 * The publishing pipeline as a protocol. Every `await` of the approval service, the reviewer
 * portal, the scheduler tick, the manual publish route and the publish worker is one step, so a
 * running operation is a program counter plus the values it has read so far (`Proc`). Store calls
 * are atomic; a status write is conditional on the status the caller expects. `trace` records what
 * happened, one event per step. The queue is adversarial: a payload that was ever offered to it
 * may be delivered at any time and any number of times.
 */
module Pipeline {
  import opened Errors
  import opened Seqs
  import opened StateMachine

  type Id = nat  // identifiers are only ever compared
  type Token = nat
  type ProcId = nat

  // ---- data -----------------------------------------------------------------

  datatype Copy = Copy(caption: string, rest: string)
  datatype Config = Config(enabled: bool, blocks: Copy -> bool)
  datatype Item = Item(agency: Id, client: Id, status: ItemStatus, due: Option<int>, target: Option<Id>,
                       copy: Option<Copy>)
  datatype Account = Account(agency: Id, client: Id)
  datatype Share = Share(agency: Id, client: Id)
  datatype Payload = Payload(agency: Id, item: Id, account: Id)

  datatype RowState = Posting | RowPublished | RowFailed
  /** A PublishJob row; its id is its index, `actor` the worker handler that opened it. */
  datatype Row = Row(item: Id, actor: ProcId, state: RowState)

  datatype Failure = AppFailure(code: ErrorCode) | UnknownFailure
  datatype PostResult = PostOk | PostError(err: Failure)

  /** Only upstream or unknown failures are worth another attempt. */
  predicate IsRetryable(err: Failure) {
    match err
    case AppFailure(code) => code.ExternalService? || code.Internal?
    case UnknownFailure => true
  }

  /** The compliance report is clean: the gate is off, there is no copy yet, or no rule blocks it. */
  predicate Complies(copy: Option<Copy>, config: Config) {
    !config.enabled || copy.None? || !config.blocks(copy.value)
  }

  // ---- running operations ---------------------------------------------------

  datatype Scope = ByAgency(agency: Id) | ByClient(client: Id)
  datatype After = Return | EnqueueNext(payload: Payload) | SaveComment(client: Id, text: string)
  /** A status change an operation has decided on but not yet written. */
  datatype Flip = Flip(scope: Scope, gateAgency: Id, item: Id, from: ItemStatus, to: ItemStatus, after: After)

  datatype Proc =
    | Done
      // ApprovalService.move, on its own or inside the publish route
    | MoveCalled(agency: Id, item: Id, to: ItemStatus, after: After)
      // ReviewService.decide
    | DecideCalled(token: Token, item: Id, approve: bool, comment: string)
    | DecideShared(share: Share, item: Id, approve: bool, comment: string)
      // the compliance gate and the conditional update, shared by both
    | GateCalled(flip: Flip)
    | GateLoaded(flip: Flip, copy: Option<Copy>)
    | FlipReady(flip: Flip)
    | Commenting(client: Id, item: Id, text: string)
    | Claimed(payload: Payload)
      // SchedulerService.tick
    | TickCalled(now: int, limit: nat, only: Option<Id>)
    | TickAt(limit: nat, due: seq<Payload>, i: nat, ids: seq<Id>)
    | TickClaimed(limit: nat, due: seq<Payload>, i: nat, ids: seq<Id>)
    | TickReturned(limit: nat, due: seq<Payload>, ids: seq<Id>)
      // POST /api/content-items/[id]/publish
    | RouteCalled(payload: Payload)
    | RouteAccount(payload: Payload, client: Id)
      // runPublishJob
    | JobCalled(data: Payload, final: bool)
    | JobAccount(data: Payload, final: bool, client: Id)
    | JobItem(data: Payload, final: bool, client: Id, seen: Item)
    | JobOpen(data: Payload, final: bool, client: Id, seen: Item, row: nat)
    | JobPosted(data: Payload, final: bool, row: nat)
    | JobMarked(data: Payload, final: bool, row: nat)
    | JobFailing(data: Payload, giveUp: bool, row: nat)
    | JobFailed(data: Payload)

  datatype Event =
    | Tau
    | ReadStatus(actor: ProcId, item: Id, status: ItemStatus)
    | GatePassed(actor: ProcId, item: Id, copy: Option<Copy>, config: Config)
    | Moved(actor: ProcId, item: Id, from: ItemStatus, to: ItemStatus)
    | Enqueued(actor: ProcId, item: Id)
    | ClaimDropped(item: Id)
    | Posted(actor: ProcId, item: Id)
    | Warned(item: Id)        // "publish succeeded but item left scheduled before transition"
    | LostPost(item: Id)      // the row could not be marked published after a post
    | LostMove(item: Id)      // the row was marked, the status write never answered
    | RowOverwritten(item: Id) // the catch block marked that row failed

  datatype Sys = Sys(items: map<Id, Item>, accounts: map<Id, Account>, shares: map<Token, Share>,
                     configs: map<Id, Config>, fallback: Config, queue: set<Payload>, rows: seq<Row>,
                     comments: seq<(Id, string)>, procs: seq<Proc>, trace: seq<Event>)

  /** How the outside world resolves one step: the publisher, a failing store write, the due query,
      and the items whose enqueue throws. */
  datatype Choice = Choice(post: PostResult, throws: bool, due: seq<Payload>, refused: set<Id>)

  datatype Action =
    | Call(p: Proc)
    | Go(a: ProcId, c: Choice)
    | Crash(a: ProcId)
    | AddItem(item: Id, agency: Id, client: Id, due: Option<int>, copy: Option<Copy>)
    | EditCopy(item: Id, copy: Option<Copy>)
    | Retarget(item: Id, due: Option<int>, target: Option<Id>)
    | SetAccount(account: Id, to: Account)
    | SetShare(token: Token, share: Option<Share>)
    | SetConfig(agency: Id, config: Config)

  // ---- store queries --------------------------------------------------------

  /** The store's scoped lookup: the row, or nothing when it is another tenant's. */
  function Find(items: map<Id, Item>, scope: Scope, item: Id): Option<Item> {
    if item in items && (match scope
                           case ByAgency(a) => items[item].agency == a
                           case ByClient(c) => items[item].client == c)
    then Some(items[item]) else None
  }

  /** `updateMany` with the expected status in its predicate: does it match the row? */
  predicate Matches(items: map<Id, Item>, scope: Scope, item: Id, from: ItemStatus) {
    Find(items, scope, item).Some? && Find(items, scope, item).value.status == from
  }

  function FindAccount(accounts: map<Id, Account>, agency: Id, account: Id): Option<Account> {
    if account in accounts && accounts[account].agency == agency then Some(accounts[account]) else None
  }

  function ConfigOf(configs: map<Id, Config>, fallback: Config, agency: Id): Config {
    if agency in configs then configs[agency] else fallback
  }

  predicate IsDue(items: map<Id, Item>, now: int, only: Option<Id>, x: Id) {
    && x in items
    && var i := items[x];
    && i.status == Approved && i.due.Some? && i.due.value <= now && i.target.Some?
    && (only.Some? ==> i.agency == only.value)
  }

  /** A correct answer of `findDueItems`: due items, earliest first (ties in any order), capped. */
  ghost predicate IsDueList(items: map<Id, Item>, now: int, limit: nat, only: Option<Id>, due: seq<Payload>) {
    && |due| <= limit
    && (forall k :: 0 <= k < |due| ==>
          && IsDue(items, now, only, due[k].item)
          && due[k] == Payload(items[due[k].item].agency, due[k].item, items[due[k].item].target.value))
    && (forall j, k :: 0 <= j < k < |due| ==>
          && due[j].item != due[k].item
          && items[due[j].item].due.value <= items[due[k].item].due.value)
    && (forall x :: IsDue(items, now, only, x) ==>
          || (exists k :: 0 <= k < |due| && due[k].item == x)
          || (|due| == limit && forall k :: 0 <= k < |due| ==>
                items[due[k].item].due.value <= items[x].due.value))
  }

  // ---- one step -------------------------------------------------------------

  datatype Write = NoWrite | OpenRow(item: Id) | SetRow(row: nat, state: RowState) | Offer(payload: Payload)
                 | Comment(item: Id, text: string)
  datatype Effect = Effect(next: Proc, event: Event, write: Write)

  function Silent(next: Proc): Effect {
    Effect(next, Tau, NoWrite)
  }

  function Logged(next: Proc, event: Event): Effect {
    Effect(next, event, NoWrite)
  }

  /** What happens right after a won conditional update. */
  function Continue(f: Flip): Proc {
    match f.after
    case Return => Done
    case EnqueueNext(payload) => Claimed(payload)
    case SaveComment(client, text) => Commenting(client, f.item, text)
  }

  /** Only a move to `approved` goes through the compliance gate. */
  function Gated(f: Flip): Proc {
    if f.to == Approved then GateCalled(f) else FlipReady(f)
  }

  const MaxCommentLength := 2000

  /** The checks of `decide` between loading the item and the gate; `comment` is already trimmed. */
  predicate DecisionAccepted(seen: Item, approve: bool, comment: string) {
    seen.status == InReview && |comment| <= MaxCommentLength && (!approve ==> comment != "")
  }

  /** The checks of `runPublishJob` inside the try block, in the order they throw. */
  predicate PreflightPasses(client: Id, seen: Item) {
    && seen.client == client
    && seen.status == Scheduled
    && seen.copy.Some? && seen.copy.value.caption != ""
  }

  function NextInTick(limit: nat, due: seq<Payload>, i: nat, ids: seq<Id>): Proc {
    if i < |due| then TickAt(limit, due, i, ids) else TickReturned(limit, due, ids)
  }

  // Each `await` of each operation, as the effect of passing it. The comments name the code that runs on.

  /** ApprovalService.move: the read and the rule check. */
  function MoveEffect(s: Sys, a: ProcId, agency: Id, item: Id, to: ItemStatus, after: After): Effect {
    var found := Find(s.items, ByAgency(agency), item);
    if found.None? || !CanTransition(found.value.status, to) then Silent(Done)
    else Logged(Gated(Flip(ByAgency(agency), agency, item, found.value.status, to, after)),
                ReadStatus(a, item, found.value.status))
  }

  /** ReviewService.decide: the item is read and the decision checked. */
  function DecideEffect(s: Sys, share: Share, item: Id, approve: bool, comment: string): Effect {
    var found := Find(s.items, ByClient(share.client), item);
    if found.None? || !DecisionAccepted(found.value, approve, comment) then Silent(Done)
    else
      var after := if comment != "" then SaveComment(share.client, comment) else Return;
      Silent(Gated(Flip(ByClient(share.client), share.agency, item, InReview,
                        if approve then Approved else Draft, after)))
  }

  /** ComplianceService.assertApprovable: the item's copy is loaded. */
  function GateEffect(s: Sys, flip: Flip): Effect {
    var found := Find(s.items, ByAgency(flip.gateAgency), flip.item);
    if found.None? then Silent(Done) else Silent(GateLoaded(flip, found.value.copy))
  }

  /** ComplianceService.assertApprovable: the config is loaded and the report evaluated. */
  function ReportEffect(s: Sys, a: ProcId, flip: Flip, copy: Option<Copy>): Effect {
    var config := ConfigOf(s.configs, s.fallback, flip.gateAgency);
    if Complies(copy, config) then Logged(FlipReady(flip), GatePassed(a, flip.item, copy, config))
    else Silent(Done)
  }

  /** The conditional update of move and decide. */
  function FlipEffect(s: Sys, a: ProcId, flip: Flip): Effect {
    if Matches(s.items, flip.scope, flip.item, flip.from)
    then Logged(Continue(flip), Moved(a, flip.item, flip.from, flip.to))
    else Silent(Done)
  }

  function CommentEffect(s: Sys, client: Id, item: Id, text: string): Effect {
    if Find(s.items, ByClient(client), item).Some? then Effect(Done, Tau, Comment(item, text)) else Silent(Done)
  }

  /** SchedulerService.tick: the claim of one due item. */
  function ClaimEffect(s: Sys, a: ProcId, limit: nat, due: seq<Payload>, i: nat, ids: seq<Id>): Effect {
    if i >= |due| then Silent(TickReturned(limit, due, ids))
    else if Matches(s.items, ByAgency(due[i].agency), due[i].item, Approved)
    then Logged(TickClaimed(limit, due, i, ids), Moved(a, due[i].item, Approved, Scheduled))
    else Silent(NextInTick(limit, due, i + 1, ids))
  }

  /** The enqueue of a claimed item; a throw is logged and the loop goes on, the queue may have taken the job. */
  function EnqueueEffect(a: ProcId, limit: nat, due: seq<Payload>, i: nat, ids: seq<Id>, refused: set<Id>): Effect {
    if i >= |due| then Silent(TickReturned(limit, due, ids))
    else Effect(NextInTick(limit, due, i + 1, if due[i].item in refused then ids else ids + [due[i].item]),
                Enqueued(a, due[i].item), Offer(due[i]))
  }

  /** The manual publish route: the account is read. */
  function RouteEffect(s: Sys, payload: Payload): Effect {
    var account := FindAccount(s.accounts, payload.agency, payload.account);
    if account.None? then Silent(Done) else Silent(RouteAccount(payload, account.value.client))
  }

  /** The item is read; then ApprovalService.schedule is called. */
  function RouteItemEffect(s: Sys, payload: Payload, client: Id): Effect {
    var found := Find(s.items, ByAgency(payload.agency), payload.item);
    if found.None? || found.value.client != client then Silent(Done)
    else Silent(MoveCalled(payload.agency, payload.item, Scheduled, EnqueueNext(payload)))
  }

  /** runPublishJob: the account is read. */
  function JobAccountEffect(s: Sys, data: Payload, final: bool): Effect {
    var account := FindAccount(s.accounts, data.agency, data.account);
    if account.None? then Silent(Done) else Silent(JobAccount(data, final, account.value.client))
  }

  /** The item is read; a published one returns at once. */
  function JobItemEffect(s: Sys, a: ProcId, data: Payload, final: bool, client: Id): Effect {
    var found := Find(s.items, ByAgency(data.agency), data.item);
    if found.None? || found.value.status == Published then Silent(Done)
    else Logged(JobItem(data, final, client, found.value), ReadStatus(a, data.item, found.value.status))
  }

  /** The checks of the try block, then the publisher. */
  function JobPostEffect(a: ProcId, data: Payload, final: bool, client: Id, seen: Item, row: nat, post: PostResult): Effect {
    if !PreflightPasses(client, seen) then Silent(JobFailing(data, true, row))
    else match post
      case PostOk => Logged(JobPosted(data, final, row), Posted(a, data.item))
      case PostError(err) => Silent(JobFailing(data, !IsRetryable(err) || final, row))
  }

  /** The row is marked published; a throw here goes to the catch block. */
  function JobMarkEffect(data: Payload, final: bool, row: nat, throws: bool): Effect {
    if throws then Logged(JobFailing(data, final, row), LostPost(data.item))
    else Effect(JobMarked(data, final, row), Tau, SetRow(row, RowPublished))
  }

  /** scheduled -> published; a lost update is a warning, a throw goes to the catch block. */
  function JobMoveEffect(s: Sys, a: ProcId, data: Payload, final: bool, row: nat, throws: bool): Effect {
    if throws then Logged(JobFailing(data, final, row), LostMove(data.item))
    else if Matches(s.items, ByAgency(data.agency), data.item, Scheduled)
    then Logged(Done, Moved(a, data.item, Scheduled, Published))
    else Logged(Done, Warned(data.item))
  }

  /** The catch block marks the row failed, whatever it was. */
  function JobCatchEffect(s: Sys, data: Payload, giveUp: bool, row: nat): Effect {
    var overwritten := row < |s.rows| && s.rows[row].state == RowPublished;
    Effect(if giveUp then JobFailed(data) else Done,
           if overwritten then RowOverwritten(data.item) else Tau, SetRow(row, RowFailed))
  }

  /** scheduled -> failed, when there will be no retry. */
  function JobFailEffect(s: Sys, a: ProcId, data: Payload): Effect {
    if Matches(s.items, ByAgency(data.agency), data.item, Scheduled)
    then Logged(Done, Moved(a, data.item, Scheduled, Failed))
    else Silent(Done)
  }

  /** The next step of operation `a`, whose program counter is `p`; `c.due` is what the due query answers. */
  function EffectOf(s: Sys, a: ProcId, p: Proc, c: Choice): Effect {
    match p
    case Done => Silent(Done)
    case MoveCalled(agency, item, to, after) => MoveEffect(s, a, agency, item, to, after)
    case DecideCalled(token, item, approve, comment) =>
      if token in s.shares then Silent(DecideShared(s.shares[token], item, approve, comment)) else Silent(Done)
    case DecideShared(share, item, approve, comment) => DecideEffect(s, share, item, approve, comment)
    case GateCalled(flip) => GateEffect(s, flip)
    case GateLoaded(flip, copy) => ReportEffect(s, a, flip, copy)
    case FlipReady(flip) => FlipEffect(s, a, flip)
    case Commenting(client, item, text) => CommentEffect(s, client, item, text)
    case Claimed(payload) => Effect(Done, Enqueued(a, payload.item), Offer(payload))
    case TickCalled(now, limit, only) => Silent(NextInTick(limit, c.due, 0, []))
    case TickAt(limit, due, i, ids) => ClaimEffect(s, a, limit, due, i, ids)
    case TickClaimed(limit, due, i, ids) => EnqueueEffect(a, limit, due, i, ids, c.refused)
    case TickReturned(_, _, _) => Silent(p)
    case RouteCalled(payload) => RouteEffect(s, payload)
    case RouteAccount(payload, client) => RouteItemEffect(s, payload, client)
    case JobCalled(data, final) => JobAccountEffect(s, data, final)
    case JobAccount(data, final, client) => JobItemEffect(s, a, data, final, client)
    case JobItem(data, final, client, seen) =>
      Effect(JobOpen(data, final, client, seen, |s.rows|), Tau, OpenRow(data.item))
    case JobOpen(data, final, client, seen, row) => JobPostEffect(a, data, final, client, seen, row, c.post)
    case JobPosted(data, final, row) => JobMarkEffect(data, final, row, c.throws)
    case JobMarked(data, final, row) => JobMoveEffect(s, a, data, final, row, c.throws)
    case JobFailing(data, giveUp, row) => JobCatchEffect(s, data, giveUp, row)
    case JobFailed(data) => JobFailEffect(s, a, data)
  }

  predicate IsJob(p: Proc) {
    || p.JobCalled? || p.JobAccount? || p.JobItem? || p.JobOpen?
    || p.JobPosted? || p.JobMarked? || p.JobFailing? || p.JobFailed?
  }

  /** The process dies, or an await outside a try block throws: nothing further runs. */
  function CrashEffect(p: Proc): Effect {
    match p
    case Claimed(payload) => Logged(Done, ClaimDropped(payload.item))
    case TickClaimed(_, due, i, _) => if i < |due| then Logged(Done, ClaimDropped(due[i].item)) else Silent(Done)
    case JobPosted(data, _, _) => Logged(Done, LostPost(data.item))
    case JobMarked(data, _, _) => Logged(Done, LostMove(data.item))
    case _ => Silent(Done)
  }

  function ItemsAfter(items: map<Id, Item>, e: Event): map<Id, Item> {
    if e.Moved? && e.item in items then items[e.item := items[e.item].(status := e.to)] else items
  }

  function RowsAfter(rows: seq<Row>, a: ProcId, w: Write): seq<Row> {
    match w
    case OpenRow(item) => rows + [Row(item, a, Posting)]
    case SetRow(row, state) => if row < |rows| then rows[row := rows[row].(state := state)] else rows
    case _ => rows
  }

  function Apply(s: Sys, a: ProcId, e: Effect): Sys
    requires a < |s.procs|
  {
    s.(items := ItemsAfter(s.items, e.event),
       queue := if e.write.Offer? then s.queue + {e.write.payload} else s.queue,
       rows := RowsAfter(s.rows, a, e.write),
       comments := if e.write.Comment? then s.comments + [(e.write.item, e.write.text)] else s.comments,
       procs := s.procs[a := e.next],
       trace := s.trace + [e.event])
  }

  // ---- runs -----------------------------------------------------------------

  /** What may be started: the public entry points, and any delivery of an offered payload. */
  predicate Startable(s: Sys, p: Proc) {
    match p
    case MoveCalled(_, _, to, after) => (to == InReview || to == Approved || to == Draft) && after.Return?
    case DecideCalled(_, _, _, _) => true
    case TickCalled(_, _, _) => true
    case RouteCalled(_) => true
    case JobCalled(data, _) => data in s.queue
    case _ => false
  }

  predicate Finished(p: Proc) {
    p.Done? || p.TickReturned?
  }

  /** The due query answers correctly. */
  ghost predicate AnswersDueQuery(s: Sys, p: Proc, c: Choice) {
    p.TickCalled? ==> IsDueList(s.items, p.now, p.limit, p.only, c.due)
  }

  ghost predicate Enabled(s: Sys, act: Action) {
    match act
    case Call(p) => Startable(s, p)
    case Go(a, c) => a < |s.procs| && !Finished(s.procs[a]) && AnswersDueQuery(s, s.procs[a], c)
    case Crash(a) => a < |s.procs|
    case AddItem(x, _, _, _, _) => x !in s.items
    case EditCopy(x, _) => x in s.items
    case Retarget(x, _, _) => x in s.items
    case _ => true
  }

  ghost function Step(s: Sys, act: Action): Sys
    requires Enabled(s, act)
  {
    match act
    case Call(p) => s.(procs := s.procs + [p])
    case Go(a, c) => Apply(s, a, EffectOf(s, a, s.procs[a], c))
    case Crash(a) => Apply(s, a, CrashEffect(s.procs[a]))
    case AddItem(x, agency, client, due, copy) =>
      s.(items := s.items[x := Item(agency, client, Draft, due, None, copy)])
    case EditCopy(x, copy) => s.(items := s.items[x := s.items[x].(copy := copy)])
    case Retarget(x, due, target) => s.(items := s.items[x := s.items[x].(due := due, target := target)])
    case SetAccount(account, to) => s.(accounts := s.accounts[account := to])
    case SetShare(token, share) =>
      s.(shares := if share.Some? then s.shares[token := share.value] else s.shares - {token})
    case SetConfig(agency, config) => s.(configs := s.configs[agency := config])
  }

  /** Any schedule: a disabled action leaves the system as it is. */
  ghost function Run(s: Sys, acts: seq<Action>): Sys {
    if acts == [] then s
    else
      var t := Run(s, acts[..|acts| - 1]);
      if Enabled(t, Last(acts)) then Step(t, Last(acts)) else t
  }

  ghost function Start(fallback: Config): Sys {
    Sys(map[], map[], map[], map[], fallback, {}, [], [], [], [])
  }

  lemma RunOne(s: Sys, acts: seq<Action>, act: Action)
    ensures Run(s, acts + [act]) == if Enabled(Run(s, acts), act) then Step(Run(s, acts), act) else Run(s, acts)
  {
    assert (acts + [act])[..|acts|] == acts;
  }

  lemma {:induction false} RunConcat(s: Sys, a: seq<Action>, b: seq<Action>)
    ensures Run(s, a + b) == Run(Run(s, a), b)
  {
    if b == [] {
      assert a + b == a;
    } else {
      var n := |b| - 1;
      assert (a + b)[..|a + b| - 1] == a + b[..n];
      RunConcat(s, a, b[..n]);
    }
  }

  // ---- one operation on its own ---------------------------------------------

  /** The schedule that lets operation `a` take `n` steps in a row. */
  function GoOn(a: ProcId, c: Choice, n: nat): seq<Action> {
    if n == 0 then [] else GoOn(a, c, n - 1) + [Go(a, c)]
  }

  /** `p` is started and takes up to `n` steps without interference. */
  ghost function Alone(s: Sys, p: Proc, c: Choice, n: nat): Sys {
    Run(s.(procs := s.procs + [p]), GoOn(|s.procs|, c, n))
  }
}
