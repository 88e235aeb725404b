/** Command accounting across the gateway's threads (GatewayCore, GatewayApp): every
    atomic operation or locked section is one step, and any interleaving may happen.

    An MQTT message that wins an admission credit is a ticket. Refusals because the
    stopping flag was seen may happen at any time; that covers every real shutdown. */
module Accounting {
  import opened Protocol
  import opened Mailbox
  import Spec = Tracker
  import Sender

  const MAX_COMMANDS := 512
  const MAX_QUERIES := 32
  const CORE_CAPACITY := 1024
  const CORE_RESERVE := 552
  const MANAGE_CAPACITY := 1024
  const MANAGE_RESERVE := 528

  datatype CoreTask = Mqtt(ticket: nat) | Telemetry | Http | Finish(id: nat) | QueryDone | Barrier

  /** What the business thread is in the middle of. */
  datatype Work = Idle | Translating(ticket: nat) | Submitting(id: nat) | Finishing(id: nat) | Publishing(ticket: nat)
                | Releasing(ticket: nat) | Reading | Answering | Asking | Counting | AtBarrier

  datatype ManageTask = Publish(ticket: nat) | Uplink | Reload

  /** What the management worker is in the middle of. */
  datatype Managing = Free | Sending(ticket: nat) | Sent(ticket: nat) | Uplinking | Loading

  datatype Lookup = Lookup

  /** `stage` is how far the destructor has come: 0 running; 1 reactor loop left; 2 management
      reactor joined and command queue shut; 3 HTTP thread joined; 4 commands drained and
      barrier posted; 5 barrier passed, query executor closed; 6 it is joined, core mailbox
      closed; 7 core joined, management mailbox closed; 8 management joined. */
  datatype Gate = Gate(
    tickets: nat, admitted: int, entering: multiset<nat>, leaving: multiset<nat>,
    core: Box<CoreTask>, work: Work, nextId: nat, pending: map<nat, nat>, queries: int,
    commands: seq<nat>, shut: bool,
    tracker: Spec.Tracker, requests: map<Byte, nat>, todo: seq<nat>,
    lookups: Box<Lookup>, looking: bool,
    manage: Box<ManageTask>, managing: Managing, reload: bool, reloading: bool,
    stage: nat, passed: bool,
    published: multiset<nat>, released: multiset<nat>, refused: multiset<nat>)

  function Start(): Gate {
    Gate(0, 0, multiset{}, multiset{}, Box([], false), Idle, 1, map[], 0, [], false,
         Spec.Initial(), map[], [], Box([], false), false, Box([], false), Free, false, false,
         0, false, multiset{}, multiset{}, multiset{})
  }

  // ------------------------------------------------------------ unchanged parts

  predicate SameCounts(g: Gate, h: Gate) {
    h.tickets == g.tickets && h.admitted == g.admitted && h.released == g.released && h.refused == g.refused
  }

  predicate SameOutside(g: Gate, h: Gate) { h.entering == g.entering && h.leaving == g.leaving }

  predicate SameCredit(g: Gate, h: Gate) { SameCounts(g, h) && SameOutside(g, h) && h.published == g.published }

  predicate SameNames(g: Gate, h: Gate) { h.pending == g.pending && h.nextId == g.nextId }

  predicate SameCore(g: Gate, h: Gate) { h.core == g.core && h.work == g.work && SameNames(g, h) && h.queries == g.queries }

  predicate SameReactor(g: Gate, h: Gate) {
    h.commands == g.commands && h.shut == g.shut && h.tracker == g.tracker && h.requests == g.requests && h.todo == g.todo
  }

  predicate SameLookup(g: Gate, h: Gate) { h.lookups == g.lookups && h.looking == g.looking }

  predicate SameManage(g: Gate, h: Gate) {
    h.manage == g.manage && h.managing == g.managing && h.reload == g.reload && h.reloading == g.reloading
  }

  predicate SameStage(g: Gate, h: Gate) { h.stage == g.stage && h.passed == g.passed }

  // ---------------------------------------- MQTT callbacks (GatewayCore::mqttMessage)

  /** The compare-exchange that takes a credit succeeds. */
  predicate Arrive(g: Gate, h: Gate) {
    && g.admitted < MAX_COMMANDS
    && h.tickets == g.tickets + 1 && h.admitted == g.admitted + 1 && h.entering == g.entering + multiset{g.tickets}
    && h.leaving == g.leaving && h.released == g.released && h.refused == g.refused && h.published == g.published
    && SameCore(g, h) && SameReactor(g, h) && SameLookup(g, h) && SameManage(g, h) && SameStage(g, h)
  }

  /** The message is posted; if that is refused the callback has yet to undo the credit. */
  predicate Enter(g: Gate, h: Gate, t: nat) {
    && t in g.entering && h.entering == g.entering - multiset{t}
    && h.leaving == (if Takes(g.core, CORE_CAPACITY) then g.leaving else g.leaving + multiset{t})
    && h.core == Post(g.core, Mqtt(t), CORE_CAPACITY) && h.work == g.work && SameNames(g, h) && h.queries == g.queries
    && SameCounts(g, h) && h.published == g.published
    && SameReactor(g, h) && SameLookup(g, h) && SameManage(g, h) && SameStage(g, h)
  }

  predicate Leave(g: Gate, h: Gate, t: nat) {
    && t in g.leaving && h.leaving == g.leaving - multiset{t} && h.admitted == g.admitted - 1
    && h.refused == g.refused + multiset{t}
    && h.entering == g.entering && h.tickets == g.tickets && h.released == g.released && h.published == g.published
    && SameCore(g, h) && SameReactor(g, h) && SameLookup(g, h) && SameManage(g, h) && SameStage(g, h)
  }

  // ------------------------------------------------------------ business thread

  function Opened(task: CoreTask): Work {
    match task
    case Mqtt(t) => Translating(t)
    case Telemetry => Reading
    case Http => Answering
    case Finish(id) => Finishing(id)
    case QueryDone => Counting
    case Barrier => AtBarrier
  }

  /** The worker takes its next task. */
  predicate Begin(g: Gate, h: Gate) {
    && g.work.Idle? && g.core.tasks != []
    && h.core == Rest(g.core) && h.work == Opened(g.core.tasks[0]) && SameNames(g, h) && h.queries == g.queries
    && SameCredit(g, h) && SameReactor(g, h) && SameLookup(g, h) && SameManage(g, h) && SameStage(g, h)
  }

  /** Only the work in hand changes. */
  predicate Works(g: Gate, h: Gate) {
    && h.core == g.core && SameCredit(g, h) && SameReactor(g, h) && SameManage(g, h)
  }

  /** handleMqtt: a message that does not translate is answered at once, one that does
      gets an id. */
  predicate Translate(g: Gate, h: Gate, ok: bool) {
    && g.work.Translating?
    && h.nextId == (if ok then g.nextId + 1 else g.nextId)
    && h.pending == (if ok then g.pending[g.nextId := g.work.ticket] else g.pending)
    && h.work == (if ok then Submitting(g.nextId) else Publishing(g.work.ticket))
    && Works(g, h) && h.queries == g.queries && SameLookup(g, h) && SameStage(g, h)
  }

  /** `pending_.erase(id)`, and the terminal publication if it was there. */
  predicate EraseThenPublish(g: Gate, h: Gate, id: nat) {
    && h.pending == g.pending - {id} && h.work == (if id in g.pending then Publishing(g.pending[id]) else Idle)
    && h.nextId == g.nextId && Works(g, h) && h.queries == g.queries && SameLookup(g, h) && SameStage(g, h)
  }

  /** `submit_` fails: stopping was seen, or the command queue is shut or full. */
  predicate Refuses(g: Gate, stopping: bool) { stopping || g.shut || |g.commands| >= MAX_COMMANDS }

  predicate Submit(g: Gate, h: Gate, stopping: bool) {
    && g.work.Submitting?
    && if Refuses(g, stopping) then EraseThenPublish(g, h, g.work.id)
       else
         && h.commands == g.commands + [g.work.id] && h.work == Idle
         && h.shut == g.shut && h.tracker == g.tracker && h.requests == g.requests && h.todo == g.todo
         && h.core == g.core && SameNames(g, h) && h.queries == g.queries
         && SameCredit(g, h) && SameLookup(g, h) && SameManage(g, h) && SameStage(g, h)
  }

  /** reject and handleFinished, run as tasks. */
  predicate Erase(g: Gate, h: Gate) { g.work.Finishing? && EraseThenPublish(g, h, g.work.id) }

  /** publishCommand: refused, the credit would have to be released here. */
  predicate PostPublish(g: Gate, h: Gate) {
    && g.work.Publishing?
    && h.manage == Post(g.manage, Publish(g.work.ticket), MANAGE_CAPACITY + MANAGE_RESERVE)
    && h.work == (if Takes(g.manage, MANAGE_CAPACITY + MANAGE_RESERVE) then Idle else Releasing(g.work.ticket))
    && h.managing == g.managing && h.reload == g.reload && h.reloading == g.reloading
    && h.core == g.core && SameNames(g, h) && h.queries == g.queries
    && SameCredit(g, h) && SameReactor(g, h) && SameLookup(g, h) && SameStage(g, h)
  }

  predicate Release(g: Gate, h: Gate) {
    && g.work.Releasing? && h.work == Idle
    && h.admitted == g.admitted - 1 && h.released == g.released + multiset{g.work.ticket}
    && h.tickets == g.tickets && h.refused == g.refused && SameOutside(g, h) && h.published == g.published
    && h.core == g.core && SameNames(g, h) && h.queries == g.queries
    && SameReactor(g, h) && SameLookup(g, h) && SameManage(g, h) && SameStage(g, h)
  }

  /** handleTelemetry publishes readings that may be refused. */
  predicate PostUplink(g: Gate, h: Gate) {
    && g.work.Reading? && h.manage == Post(g.manage, Uplink, MANAGE_CAPACITY)
    && h.managing == g.managing && h.reload == g.reload && h.reloading == g.reloading
    && SameCore(g, h) && SameCredit(g, h) && SameReactor(g, h) && SameLookup(g, h) && SameStage(g, h)
  }

  predicate Finished(g: Gate, h: Gate) {
    && (g.work.Reading? || g.work.Answering?) && h.work == Idle
    && Works(g, h) && SameNames(g, h) && h.queries == g.queries && SameLookup(g, h) && SameStage(g, h)
  }

  /** handleHttp counts a query, then posts it. */
  predicate Ask(g: Gate, h: Gate) {
    && g.work.Answering? && g.queries < MAX_QUERIES && h.queries == g.queries + 1 && h.work == Asking
    && Works(g, h) && SameNames(g, h) && SameLookup(g, h) && SameStage(g, h)
  }

  predicate PostQuery(g: Gate, h: Gate) {
    && g.work.Asking? && h.work == Idle
    && h.lookups == Post(g.lookups, Lookup, MAX_QUERIES) && h.looking == g.looking
    && h.queries == (if Takes(g.lookups, MAX_QUERIES) then g.queries else g.queries - 1)
    && Works(g, h) && SameNames(g, h) && SameStage(g, h)
  }

  predicate Uncount(g: Gate, h: Gate) {
    && g.work.Counting? && h.queries == g.queries - 1 && h.work == Idle
    && Works(g, h) && SameNames(g, h) && SameLookup(g, h) && SameStage(g, h)
  }

  predicate Pass(g: Gate, h: Gate) {
    && g.work.AtBarrier? && h.work == Idle && h.passed && h.stage == g.stage
    && Works(g, h) && SameNames(g, h) && h.queries == g.queries && SameLookup(g, h)
  }

  // -------------------------------------------------------------------- reactor

  /** `emplace` keeps an existing entry. */
  function Emplace(m: map<Byte, nat>, k: Byte, v: nat): map<Byte, nat> { if k in m then m else m[k := v] }

  /** applyTrackerActions: requests whose command ended leave the map... */
  function Remaining(m: map<Byte, nat>, finished: seq<Spec.Completion>): map<Byte, nat>
    decreases |finished|
  {
    if finished == [] then m else Remaining(m - {finished[0].num}, finished[1..])
  }

  /** ...and their ids are to be completed. */
  function Ended(m: map<Byte, nat>, finished: seq<Spec.Completion>): seq<nat>
    decreases |finished|
  {
    if finished == [] then []
    else (if finished[0].num in m then [m[finished[0].num]] else []) + Ended(m - {finished[0].num}, finished[1..])
  }

  /** The reactor runs one callback at a time: completions in hand are posted first. */
  predicate Reacts(g: Gate, h: Gate) {
    && g.stage == 0 && g.todo == [] && Spec.Shape(g.tracker)
    && SameCredit(g, h) && SameCore(g, h) && SameLookup(g, h) && SameManage(g, h) && SameStage(g, h) && h.shut == g.shut
  }

  /** onDownlinkEvent takes a command that cannot go out, to reject it. */
  predicate PullAside(g: Gate, h: Gate, args: Bytes) {
    && Reacts(g, h) && g.commands != [] && (g.tracker.phase.Failed? || Spec.CanSubmit(g.tracker))
    && (g.tracker.phase.Failed? || !Spec.Accepts(g.tracker, args))
    && h.commands == g.commands[1..] && h.todo == [g.commands[0]]
    && h.tracker == g.tracker && h.requests == g.requests
  }

  /** Or it goes into the window under the next number. */
  predicate PullIn(g: Gate, h: Gate, kind: Byte, args: Bytes, now: int) {
    && Reacts(g, h) && g.commands != [] && Spec.Accepts(g.tracker, args)
    && h.commands == g.commands[1..] && h.todo == g.todo
    && h.tracker == Spec.Submit(g.tracker, kind, args, now).t
    && h.requests == Emplace(g.requests, g.tracker.next, g.commands[0])
  }

  /** A frame, a write, a tick or a restart drives the tracker. */
  predicate Drive(g: Gate, h: Gate, input: Sender.Input) {
    && Reacts(g, h) && !input.Offer?
    && h.commands == g.commands
    && h.tracker == Sender.React(g.tracker, input).t
    && h.requests == Remaining(g.requests, Sender.React(g.tracker, input).finished)
    && h.todo == Ended(g.requests, Sender.React(g.tracker, input).finished)
  }

  /** commandFinished or commandRejected, from the reactor or the destructor. */
  predicate PostFinish(g: Gate, h: Gate) {
    && g.todo != [] && h.todo == g.todo[1..]
    && h.core == Post(g.core, Finish(g.todo[0]), CORE_CAPACITY + CORE_RESERVE)
    && h.work == g.work && SameNames(g, h) && h.queries == g.queries
    && h.commands == g.commands && h.shut == g.shut && h.tracker == g.tracker && h.requests == g.requests
    && SameCredit(g, h) && SameLookup(g, h) && SameManage(g, h) && SameStage(g, h)
  }

  /** Telemetry from the reactor and requests from the HTTP thread, while they run. */
  predicate PostInput(g: Gate, h: Gate, task: CoreTask) {
    && (if task.Http? then g.stage < 3 else task.Telemetry? && g.stage == 0)
    && h.core == Post(g.core, task, CORE_CAPACITY)
    && h.work == g.work && SameNames(g, h) && h.queries == g.queries
    && SameReactor(g, h) && SameCredit(g, h) && SameLookup(g, h) && SameManage(g, h) && SameStage(g, h)
  }

  // --------------------------------------------------- query and management threads

  predicate LookUp(g: Gate, h: Gate) {
    && !g.looking && g.lookups.tasks != [] && h.lookups == Rest(g.lookups) && h.looking
    && SameCore(g, h) && SameCredit(g, h) && SameReactor(g, h) && SameManage(g, h) && SameStage(g, h)
  }

  predicate Answer(g: Gate, h: Gate) {
    && g.looking && !h.looking && h.lookups == g.lookups
    && h.core == Post(g.core, QueryDone, CORE_CAPACITY + CORE_RESERVE)
    && h.work == g.work && SameNames(g, h) && h.queries == g.queries
    && SameCredit(g, h) && SameReactor(g, h) && SameManage(g, h) && SameStage(g, h)
  }

  function Handling(task: ManageTask): Managing {
    match task
    case Publish(t) => Sending(t)
    case Uplink => Uplinking
    case Reload => Loading
  }

  predicate ManageBegin(g: Gate, h: Gate) {
    && g.managing.Free? && g.manage.tasks != []
    && h.manage == Rest(g.manage) && h.managing == Handling(g.manage.tasks[0])
    && h.reload == g.reload && h.reloading == g.reloading
    && SameCore(g, h) && SameCredit(g, h) && SameReactor(g, h) && SameLookup(g, h) && SameStage(g, h)
  }

  /** The client publishes the terminal answer... */
  predicate MqttPublish(g: Gate, h: Gate) {
    && g.managing.Sending? && h.managing == Sent(g.managing.ticket)
    && h.published == g.published + multiset{g.managing.ticket}
    && SameCounts(g, h) && SameOutside(g, h)
    && h.manage == g.manage && h.reload == g.reload && h.reloading == g.reloading
    && SameCore(g, h) && SameReactor(g, h) && SameLookup(g, h) && SameStage(g, h)
  }

  /** ...and only then gives the credit back. */
  predicate ReleaseCredit(g: Gate, h: Gate) {
    && g.managing.Sent? && h.managing == Free
    && h.admitted == g.admitted - 1 && h.released == g.released + multiset{g.managing.ticket}
    && h.tickets == g.tickets && h.refused == g.refused && SameOutside(g, h) && h.published == g.published
    && h.manage == g.manage && h.reload == g.reload && h.reloading == g.reloading
    && SameCore(g, h) && SameReactor(g, h) && SameLookup(g, h) && SameStage(g, h)
  }

  predicate ManageDone(g: Gate, h: Gate) {
    && (g.managing.Loading? || g.managing.Uplinking?) && h.managing == Free
    && h.reload == (if g.managing.Loading? then false else g.reload) && h.reloading == g.reloading && h.manage == g.manage
    && SameCore(g, h) && SameCredit(g, h) && SameReactor(g, h) && SameLookup(g, h) && SameStage(g, h)
  }

  /** requestReload raises the flag, then posts. */
  predicate AskReload(g: Gate, h: Gate) {
    && g.stage < 2 && !g.reloading && !g.reload && h.reload && h.reloading
    && h.manage == g.manage && h.managing == g.managing
    && SameCore(g, h) && SameCredit(g, h) && SameReactor(g, h) && SameLookup(g, h) && SameStage(g, h)
  }

  predicate PostReload(g: Gate, h: Gate) {
    && g.reloading && !h.reloading
    && h.manage == Post(g.manage, Reload, MANAGE_CAPACITY + MANAGE_RESERVE) && h.managing == g.managing
    && h.reload == Takes(g.manage, MANAGE_CAPACITY + MANAGE_RESERVE)
    && SameCore(g, h) && SameCredit(g, h) && SameReactor(g, h) && SameLookup(g, h) && SameStage(g, h)
  }

  // -------------------------------------------- main thread: destructor, in order

  /** The reactor loop is left, the management reactor joined and the command queue shut,
      the HTTP thread joined. */
  predicate Retire(g: Gate, h: Gate) {
    && g.stage < 3 && g.todo == [] && (g.stage == 1 ==> !g.reloading)
    && h.stage == g.stage + 1 && h.passed == g.passed
    && h.shut == (h.stage >= 2) && h.commands == g.commands && h.tracker == g.tracker
    && h.requests == g.requests && h.todo == g.todo
    && SameCore(g, h) && SameCredit(g, h) && SameLookup(g, h) && SameManage(g, h)
  }

  /** A command still queued is rejected. */
  predicate DrainQueue(g: Gate, h: Gate) {
    && g.stage == 3 && g.todo == [] && g.commands != []
    && h.commands == g.commands[1..] && h.todo == [g.commands[0]]
    && h.shut == g.shut && h.tracker == g.tracker && h.requests == g.requests
    && SameCore(g, h) && SameCredit(g, h) && SameLookup(g, h) && SameManage(g, h) && SameStage(g, h)
  }

  /** Then every request in flight is failed; `finished` lists their numbers. */
  predicate DrainRequests(g: Gate, h: Gate, finished: seq<Spec.Completion>) {
    && g.stage == 3 && g.todo == [] && g.commands == [] && Remaining(g.requests, finished) == map[]
    && h.requests == map[] && h.todo == Ended(g.requests, finished)
    && h.commands == g.commands && h.shut == g.shut && h.tracker == g.tracker
    && SameCore(g, h) && SameCredit(g, h) && SameLookup(g, h) && SameManage(g, h) && SameStage(g, h)
  }

  predicate PostBarrier(g: Gate, h: Gate) {
    && g.stage == 3 && g.todo == [] && g.commands == [] && g.requests == map[]
    && h.stage == 4 && h.passed == g.passed && h.core == Post(g.core, Barrier, CORE_CAPACITY + CORE_RESERVE)
    && h.work == g.work && SameNames(g, h) && h.queries == g.queries
    && SameReactor(g, h) && SameCredit(g, h) && SameLookup(g, h) && SameManage(g, h)
  }

  /** Each mailbox is closed once its producers are gone, and joined when empty. */
  predicate Close(g: Gate, h: Gate) {
    && h.stage == g.stage + 1 && h.passed == g.passed && SameCredit(g, h) && SameReactor(g, h)
    && (|| (g.stage == 4 && g.passed)
        || (g.stage == 5 && g.lookups.tasks == [] && !g.looking)
        || (g.stage == 6 && g.core.tasks == [] && g.work.Idle?)
        || (g.stage == 7 && g.manage.tasks == [] && g.managing.Free?))
    && h.lookups.tasks == g.lookups.tasks && h.lookups.closed == (h.stage >= 5) && h.looking == g.looking
    && h.core.tasks == g.core.tasks && h.core.closed == (h.stage >= 6)
    && h.work == g.work && SameNames(g, h) && h.queries == g.queries
    && h.manage.tasks == g.manage.tasks && h.manage.closed == (h.stage >= 7)
    && h.managing == g.managing && h.reload == g.reload && h.reloading == g.reloading
  }

  // ------------------------------------------------------------------- all steps

  ghost predicate CallerStep(g: Gate, h: Gate) {
    Arrive(g, h) || (exists t: nat :: Enter(g, h, t)) || exists t: nat :: Leave(g, h, t)
  }

  ghost predicate CommandStep(g: Gate, h: Gate) {
    || Begin(g, h) || (exists ok: bool :: Translate(g, h, ok)) || (exists stopping: bool :: Submit(g, h, stopping))
    || Erase(g, h) || PostPublish(g, h) || Release(g, h)
  }

  ghost predicate ServiceStep(g: Gate, h: Gate) {
    PostUplink(g, h) || Finished(g, h) || Ask(g, h) || PostQuery(g, h) || Uncount(g, h) || Pass(g, h) || LookUp(g, h) || Answer(g, h)
  }

  ghost predicate ReactorStep(g: Gate, h: Gate) {
    || (exists args: Bytes :: PullAside(g, h, args))
    || (exists kind: Byte, args: Bytes, now: int :: PullIn(g, h, kind, args, now))
    || (exists input: Sender.Input :: Drive(g, h, input))
    || PostFinish(g, h) || exists task: CoreTask :: PostInput(g, h, task)
  }

  ghost predicate ManageStep(g: Gate, h: Gate) {
    ManageBegin(g, h) || MqttPublish(g, h) || ReleaseCredit(g, h) || ManageDone(g, h) || AskReload(g, h) || PostReload(g, h)
  }

  ghost predicate MainStep(g: Gate, h: Gate) {
    || Retire(g, h) || DrainQueue(g, h) || (exists finished: seq<Spec.Completion> :: DrainRequests(g, h, finished))
    || PostBarrier(g, h) || Close(g, h)
  }

  /** Any thread may make the next step. */
  ghost predicate Step(g: Gate, h: Gate) {
    || CallerStep(g, h) || CommandStep(g, h) || ServiceStep(g, h) || ReactorStep(g, h) || ManageStep(g, h) || MainStep(g, h)
  }
}
