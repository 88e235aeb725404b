/** Every published answer has one content, fixed when the answer is made. */
module Answers {
  import opened Protocol
  import opened Mailbox
  import A = Accounting
  import AI = AccountingInv
  import AM = AccountingMoves
  import T = Tracker
  import G = Sender
  import R = Receiver
  import S = SrSystem
  import opened EndToEnd

  // ------------------------------------------------------------ where tickets are

  function Translated(w: A.Work): multiset<nat> { if w.Translating? then multiset{w.ticket} else multiset{} }
  function Answering(w: A.Work): multiset<nat> { if w.Publishing? then multiset{w.ticket} else multiset{} }
  function Ending(w: A.Work): multiset<nat> { if w.Finishing? then multiset{w.id} else multiset{} }

  /** Tickets not answered yet. */
  function Early(g: A.Gate): multiset<nat> {
    g.entering + g.leaving + Sum(g.core.tasks, AI.TicketOf) + Translated(g.work) + multiset(g.pending.Values)
  }

  /** Tickets whose answer is on its way or out. */
  function Late(g: A.Gate): multiset<nat> {
    Answering(g.work) + Sum(g.manage.tasks, AI.PublishOf) + AI.ManagingTicket(g.managing) + g.published
  }

  /** Ids whose completion is on its way. */
  function Completing(g: A.Gate): multiset<nat> { multiset(g.todo) + Sum(g.core.tasks, AI.IdOf) + Ending(g.work) }

  ghost predicate Announced(j: Joint) { forall t :: t in Late(j.gate) ==> t in j.reply }

  ghost predicate Pristine(j: Joint) { forall t :: t in j.reply ==> t < j.gate.tickets && t !in Early(j.gate) }

  ghost predicate Prepared(j: Joint) { forall id :: id in Completing(j.gate) ==> id in j.outcome }

  ghost predicate Fixed(j: Joint) { Announced(j) && Pristine(j) && Prepared(j) }

  /** Nothing becomes late, early or completing that was not, but for a new ticket. */
  ghost predicate Flows(g: A.Gate, h: A.Gate) {
    g.tickets <= h.tickets && LateFlows(g, h) && EarlyFlows(g, h) && IdsFlow(g, h)
  }

  ghost predicate LateFlows(g: A.Gate, h: A.Gate) { forall t :: t in Late(h) ==> t in Late(g) }
  ghost predicate EarlyFlows(g: A.Gate, h: A.Gate) { forall t :: t in Early(h) ==> t in Early(g) || t >= g.tickets }
  ghost predicate IdsFlow(g: A.Gate, h: A.Gate) { forall id :: id in Completing(h) ==> id in Completing(g) }

  lemma FlowsFixed(j: Joint, k: Joint)
    requires Fixed(j) && Flows(j.gate, k.gate) && k.reply == j.reply && forall id :: id in j.outcome ==> id in k.outcome
    ensures Fixed(k)
  {}

  // -------------------------------------------------------------- steps that move

  predicate SameEarly(g: A.Gate, h: A.Gate) {
    && h.entering == g.entering && h.leaving == g.leaving && h.core.tasks == g.core.tasks && h.pending == g.pending
    && Translated(h.work) == Translated(g.work)
  }

  predicate SameLate(g: A.Gate, h: A.Gate) {
    && h.manage.tasks == g.manage.tasks && h.managing == g.managing && h.published == g.published
    && Answering(h.work) == Answering(g.work)
  }

  predicate SameCompleting(g: A.Gate, h: A.Gate) {
    h.todo == g.todo && h.core.tasks == g.core.tasks && Ending(h.work) == Ending(g.work)
  }

  lemma SameFlows(g: A.Gate, h: A.Gate)
    requires SameEarly(g, h) && SameLate(g, h) && SameCompleting(g, h) && g.tickets <= h.tickets
    ensures Flows(g, h)
  {}

  lemma LateSame(g: A.Gate, h: A.Gate)
    requires SameLate(g, h)
    ensures LateFlows(g, h)
  {}

  lemma EarlySame(g: A.Gate, h: A.Gate)
    requires SameEarly(g, h)
    ensures EarlyFlows(g, h)
  {}

  lemma IdsSame(g: A.Gate, h: A.Gate)
    requires SameCompleting(g, h)
    ensures IdsFlow(g, h)
  {}

  lemma CallerFlows(g: A.Gate, h: A.Gate)
    requires A.CallerStep(g, h)
    ensures Flows(g, h)
  {
    LateSame(g, h);
    if t: nat :| A.Enter(g, h, t) {
      EnterFlows(g, h, t);
    } else {
      OutsideFlows(g, h);
      IdsSame(g, h);
    }
  }

  lemma OutsideFlows(g: A.Gate, h: A.Gate)
    requires A.Arrive(g, h) || exists t: nat :: A.Leave(g, h, t)
    ensures EarlyFlows(g, h)
  {}

  lemma EnterFlows(g: A.Gate, h: A.Gate, t: nat)
    requires A.Enter(g, h, t)
    ensures EarlyFlows(g, h) && IdsFlow(g, h)
  {
    if Takes(g.core, A.CORE_CAPACITY) {
      PostEarly(g, h, A.Mqtt(t));
      PostIds(g, h, A.Mqtt(t));
    } else {
      IdsSame(g, h);
    }
  }

  lemma PostEarly(g: A.Gate, h: A.Gate, task: A.CoreTask)
    requires h.core.tasks == g.core.tasks + [task] && h.work == g.work && h.pending == g.pending
    requires h.entering <= g.entering && h.leaving <= g.leaving && (task.Mqtt? ==> task.ticket in g.entering)
    ensures EarlyFlows(g, h)
  {
    SumSnoc(g.core.tasks, task, AI.TicketOf);
    var x, y := Sum(g.core.tasks, AI.TicketOf), Sum(h.core.tasks, AI.TicketOf);
    forall t | t in Early(h) ensures t in Early(g) {
      assert t in h.entering ==> t in g.entering;
      assert t in h.leaving ==> t in g.leaving;
      assert t in y ==> t in x || t in g.entering;
    }
  }

  lemma PostIds(g: A.Gate, h: A.Gate, task: A.CoreTask)
    requires h.core.tasks == g.core.tasks + [task] && h.work == g.work
    requires if task.Finish? then g.todo == [task.id] + h.todo else h.todo == g.todo
    ensures IdsFlow(g, h)
  {
    SumSnoc(g.core.tasks, task, AI.IdOf);
    if task.Finish? { assert multiset(g.todo) == multiset{task.id} + multiset(h.todo); }
  }

  /** A task is posted; an id it carries comes from those to be completed. */
  lemma PostFlows(g: A.Gate, h: A.Gate, task: A.CoreTask)
    requires h.core.tasks == g.core.tasks + [task] && h.work == g.work && h.pending == g.pending && SameLate(g, h)
    requires g.tickets <= h.tickets && h.entering == g.entering && h.leaving == g.leaving && !task.Mqtt?
    requires if task.Finish? then g.todo == [task.id] + h.todo else h.todo == g.todo
    ensures Flows(g, h)
  {
    LateSame(g, h);
    PostEarly(g, h, task);
    PostIds(g, h, task);
  }

  lemma BeginEarly(g: A.Gate, h: A.Gate)
    requires A.Begin(g, h)
    ensures EarlyFlows(g, h)
  {
    SumHead(g.core.tasks, AI.TicketOf);
    assert Translated(h.work) == AI.TicketOf(g.core.tasks[0]);
    assert Early(h) == Early(g);
  }

  lemma BeginIds(g: A.Gate, h: A.Gate)
    requires A.Begin(g, h)
    ensures IdsFlow(g, h)
  {
    SumHead(g.core.tasks, AI.IdOf);
    assert Ending(h.work) == AI.IdOf(g.core.tasks[0]);
    AM.Handover(Sum(g.core.tasks, AI.IdOf), Ending(g.work), multiset(g.todo),
                Sum(h.core.tasks, AI.IdOf), Ending(h.work), AI.IdOf(g.core.tasks[0]));
  }

  lemma BeginFlows(g: A.Gate, h: A.Gate)
    requires A.Begin(g, h)
    ensures Flows(g, h)
  {
    LateSame(g, h);
    BeginEarly(g, h);
    BeginIds(g, h);
  }

  lemma PublishFlows(g: A.Gate, h: A.Gate)
    requires A.PostPublish(g, h)
    ensures Flows(g, h)
  {
    EarlySame(g, h);
    IdsSame(g, h);
    PublishLate(g, h);
  }

  lemma PublishLate(g: A.Gate, h: A.Gate)
    requires A.PostPublish(g, h)
    ensures LateFlows(g, h)
  {
    SumSnoc(g.manage.tasks, A.Publish(g.work.ticket), AI.PublishOf);
  }

  /** A task without a ticket is posted to the management worker. */
  lemma ManagePostFlows(g: A.Gate, h: A.Gate, task: A.ManageTask, limit: nat)
    requires SameEarly(g, h) && SameCompleting(g, h) && g.tickets <= h.tickets && !task.Publish?
    requires h.manage == Post(g.manage, task, limit) && h.managing == g.managing && h.published == g.published && h.work == g.work
    ensures Flows(g, h)
  {
    EarlySame(g, h);
    IdsSame(g, h);
    SumSnoc(g.manage.tasks, task, AI.PublishOf);
    assert Late(h) == Late(g);
  }

  lemma UplinkFlows(g: A.Gate, h: A.Gate)
    requires A.PostUplink(g, h)
    ensures Flows(g, h)
  {
    ManagePostFlows(g, h, A.Uplink, A.MANAGE_CAPACITY);
  }

  lemma ServiceFlows(g: A.Gate, h: A.Gate)
    requires A.ServiceStep(g, h)
    ensures Flows(g, h)
  {
    if A.PostUplink(g, h) {
      UplinkFlows(g, h);
    } else if A.Answer(g, h) {
      if Takes(g.core, A.CORE_CAPACITY + A.CORE_RESERVE) { PostFlows(g, h, A.QueryDone); } else { SameFlows(g, h); }
    } else {
      SameFlows(g, h);
    }
  }

  lemma ManageBeginFlows(g: A.Gate, h: A.Gate)
    requires A.ManageBegin(g, h)
    ensures Flows(g, h)
  {
    EarlySame(g, h);
    IdsSame(g, h);
    SumHead(g.manage.tasks, AI.PublishOf);
    AM.HandlingCarries(g.manage.tasks[0]);
    assert Late(h) == Late(g);
  }

  lemma ReloadFlows(g: A.Gate, h: A.Gate)
    requires A.PostReload(g, h)
    ensures Flows(g, h)
  {
    ManagePostFlows(g, h, A.Reload, A.MANAGE_CAPACITY + A.MANAGE_RESERVE);
  }

  lemma ManageFlows(g: A.Gate, h: A.Gate)
    requires A.ManageStep(g, h)
    ensures Flows(g, h)
  {
    if A.ManageBegin(g, h) {
      ManageBeginFlows(g, h);
    } else if A.PostReload(g, h) {
      ReloadFlows(g, h);
    } else {
      EarlySame(g, h);
      IdsSame(g, h);
      AnswerMoves(g, h);
    }
  }

  lemma AnswerMoves(g: A.Gate, h: A.Gate)
    requires A.MqttPublish(g, h) || A.ReleaseCredit(g, h) || A.ManageDone(g, h) || A.AskReload(g, h)
    ensures LateFlows(g, h)
  {}

  lemma InputFlows(g: A.Gate, h: A.Gate, task: A.CoreTask)
    requires A.PostInput(g, h, task)
    ensures Flows(g, h)
  {
    if Takes(g.core, A.CORE_CAPACITY) { PostFlows(g, h, task); } else { SameFlows(g, h); }
  }

  lemma FinishFlows(g: A.Gate, h: A.Gate)
    requires A.PostFinish(g, h)
    ensures Flows(g, h)
  {
    assert g.todo == [g.todo[0]] + h.todo;
    if Takes(g.core, A.CORE_CAPACITY + A.CORE_RESERVE) {
      PostFlows(g, h, A.Finish(g.todo[0]));
    } else {
      LateSame(g, h);
      EarlySame(g, h);
      assert multiset(g.todo) == multiset{g.todo[0]} + multiset(h.todo);
    }
  }

  lemma BarrierFlows(g: A.Gate, h: A.Gate)
    requires A.PostBarrier(g, h)
    ensures Flows(g, h)
  {
    if Takes(g.core, A.CORE_CAPACITY + A.CORE_RESERVE) { PostFlows(g, h, A.Barrier); } else { SameFlows(g, h); }
  }

  lemma MovesFlows(g: A.Gate, h: A.Gate)
    requires Moves(g, h)
    ensures Flows(g, h)
  {
    if A.CallerStep(g, h) {
      CallerFlows(g, h);
    } else if A.Begin(g, h) {
      BeginFlows(g, h);
    } else if A.PostPublish(g, h) {
      PublishFlows(g, h);
    } else if A.ServiceStep(g, h) {
      ServiceFlows(g, h);
    } else if A.ManageStep(g, h) {
      ManageFlows(g, h);
    } else {
      MoreFlows(g, h);
    }
  }

  lemma MoreFlows(g: A.Gate, h: A.Gate)
    requires A.Release(g, h) || A.PostFinish(g, h) || A.Retire(g, h) || A.PostBarrier(g, h) || A.Close(g, h)
          || exists task :: A.PostInput(g, h, task)
    ensures Flows(g, h)
  {
    if A.PostFinish(g, h) {
      FinishFlows(g, h);
    } else if A.PostBarrier(g, h) {
      BarrierFlows(g, h);
    } else if task :| A.PostInput(g, h, task) {
      InputFlows(g, h, task);
    } else {
      SameFlows(g, h);
    }
  }

  // ------------------------------------------------------------ steps that settle

  /** Answers once given stay as they are. */
  ghost predicate Kept(j: Joint, k: Joint) { forall t :: t in j.reply ==> t in k.reply && k.reply[t] == j.reply[t] }

  /** A ticket that is just being answered is nowhere else. */
  lemma AnsweredIsPast(g: A.Gate, t: nat)
    requires AI.Tickets(g) && g.work == A.Publishing(t)
    ensures t < g.tickets && t !in Early(g)
  {
    assert (AI.Live(g) + AI.Over(g))[t] == AI.One(t < g.tickets);
    assert AI.Live(g)[t] >= AI.WorkTicket(g.work)[t] + Early(g)[t];
  }

  /** The work in hand turns into an answer for `t`, which was still open. */
  lemma AnswerFixed(j: Joint, k: Joint, t: nat, o: Outcome)
    requires Fixed(j) && k.gate.work == A.Publishing(t) && t in Early(j.gate) && t < k.gate.tickets && t !in Early(k.gate)
    requires k.reply == j.reply[t := o] && k.outcome == j.outcome && k.gate.tickets == j.gate.tickets
    requires EarlyFlows(j.gate, k.gate) && IdsFlow(j.gate, k.gate)
    requires k.gate.manage == j.gate.manage && k.gate.managing == j.gate.managing && k.gate.published == j.gate.published
    ensures Fixed(k) && Kept(j, k)
  {
    assert t !in j.reply;
    AnswerPristine(j, k, t, o);
    AnswerAnnounced(j, k, t, o);
    AnswerPrepared(j, k);
  }

  lemma AnswerPrepared(j: Joint, k: Joint)
    requires Prepared(j) && k.outcome == j.outcome && IdsFlow(j.gate, k.gate)
    ensures Prepared(k)
  {}

  lemma AnswerPristine(j: Joint, k: Joint, t: nat, o: Outcome)
    requires Pristine(j) && k.reply == j.reply[t := o] && k.gate.tickets == j.gate.tickets && EarlyFlows(j.gate, k.gate)
    requires t < k.gate.tickets && t !in Early(k.gate)
    ensures Pristine(k)
  {}

  lemma AnswerAnnounced(j: Joint, k: Joint, t: nat, o: Outcome)
    requires Announced(j) && k.reply == j.reply[t := o] && k.gate.work == A.Publishing(t)
    requires k.gate.manage == j.gate.manage && k.gate.managing == j.gate.managing && k.gate.published == j.gate.published
    ensures Announced(k)
  {
    forall x | x in Late(k.gate) && x != t ensures x in j.reply { assert x in Late(j.gate); }
  }

  lemma FailureFlows(g: A.Gate, h: A.Gate)
    requires A.Translate(g, h, false)
    ensures EarlyFlows(g, h) && IdsFlow(g, h) && g.work.ticket in Early(g) && h.work == A.Publishing(g.work.ticket)
  {}

  lemma EraseFlows(g: A.Gate, h: A.Gate, id: nat)
    requires A.EraseThenPublish(g, h, id) && id in g.pending && (g.work.Submitting? || g.work.Finishing?)
    ensures EarlyFlows(g, h) && IdsFlow(g, h) && g.pending[id] in Early(g) && h.work == A.Publishing(g.pending[id])
  {
    EraseEarly(g, h, id);
  }

  lemma EraseEarly(g: A.Gate, h: A.Gate, id: nat)
    requires A.EraseThenPublish(g, h, id) && id in g.pending && (g.work.Submitting? || g.work.Finishing?)
    ensures EarlyFlows(g, h) && g.pending[id] in Early(g)
  {
    assert g.pending[id] in g.pending.Values;
    forall t | t in h.pending.Values ensures t in g.pending.Values {
      var x :| x in h.pending && h.pending[x] == t;
      assert g.pending[x] == t;
    }
  }

  lemma TurnDownFixed(j: Joint, k: Joint, t: nat, stopping: bool)
    requires Fixed(j) && AI.Ids(j.gate) && AI.Tickets(k.gate) && TurnDown(j, k, t, stopping)
    ensures Fixed(k) && Kept(j, k)
  {
    if A.Translate(j.gate, k.gate, false) {
      FailureFlows(j.gate, k.gate);
    } else {
      AM.WorkIsPending(j.gate);
      EraseFlows(j.gate, k.gate, j.gate.work.id);
    }
    AnsweredIsPast(k.gate, t);
    AnswerFixed(j, k, t, Turned);
  }

  lemma SettleFixed(j: Joint, k: Joint)
    requires Fixed(j) && AI.Ids(j.gate) && AI.Tickets(k.gate) && Settle(j, k)
    ensures Fixed(k) && Kept(j, k)
  {
    var id := j.gate.work.id;
    AM.WorkIsPending(j.gate);
    assert id in Completing(j.gate);
    EraseFlows(j.gate, k.gate, id);
    AnsweredIsPast(k.gate, j.gate.pending[id]);
    AnswerFixed(j, k, j.gate.pending[id], j.outcome[id]);
  }

  lemma AcceptFixed(j: Joint, k: Joint, kind: Byte, args: Bytes)
    requires Fixed(j) && Accept(j, k, kind, args)
    ensures Fixed(k) && Kept(j, k)
  {
    LateSame(j.gate, k.gate);
    IdsSame(j.gate, k.gate);
    FileEarly(j.gate, k.gate);
    FlowsFixed(j, k);
  }

  lemma FileEarly(g: A.Gate, h: A.Gate)
    requires A.Translate(g, h, true)
    ensures EarlyFlows(g, h)
  {
    forall t | t in h.pending.Values ensures t in g.pending.Values || t == g.work.ticket {
      var x :| x in h.pending && h.pending[x] == t;
      if x != g.nextId { assert g.pending[x] == t; }
    }
  }

  lemma EnqueueFixed(j: Joint, k: Joint)
    requires Fixed(j) && Enqueue(j, k)
    ensures Fixed(k) && Kept(j, k)
  {
    SameFlows(j.gate, k.gate);
    FlowsFixed(j, k);
  }

  /** New completions are in the books. */
  lemma CompleteFixed(j: Joint, k: Joint)
    requires Fixed(j) && k.reply == j.reply && SameEarly(j.gate, k.gate) && SameLate(j.gate, k.gate)
    requires k.gate.tickets == j.gate.tickets && k.gate.work == j.gate.work
    requires (forall id :: id in k.gate.todo ==> id in k.outcome) && (forall id :: id in j.outcome ==> id in k.outcome)
    ensures Fixed(k) && Kept(j, k)
  {
    EarlySame(j.gate, k.gate);
    LateSame(j.gate, k.gate);
    forall id | id in Completing(k.gate) ensures id in k.outcome {
      if id !in k.gate.todo { assert id in Completing(j.gate); }
    }
  }

  lemma ReactorFixed(env: R.Env, j: Joint, k: Joint)
    requires Fixed(j) && T.Shape(j.sys.gw.t) && Reactor(env, j, k)
    ensures Fixed(k) && Kept(j, k)
  {
    if GiveUp(j, k) {
      CompleteFixed(j, k);
    } else if input: G.Input :| React(env, j, k, input) {
      ReactFixed(env, j, k, input);
    } else {
      var now: int :| GoOut(env, j, k, now);
      GoOutFixed(env, j, k, now);
    }
  }

  lemma ReactFixed(env: R.Env, j: Joint, k: Joint, input: G.Input)
    requires Fixed(j) && T.Shape(j.sys.gw.t) && React(env, j, k, input)
    ensures Fixed(k) && Kept(j, k)
  {
    forall id | id in k.gate.todo ensures id in k.outcome {
      var i :| 0 <= i < |k.gate.todo| && k.gate.todo[i] == id;
      assert CompletionOf(j, k, input, i, k.gate.todo[i]);
    }
    CompleteFixed(j, k);
  }

  lemma GoOutFixed(env: R.Env, j: Joint, k: Joint, now: int)
    requires Fixed(j) && T.Shape(j.sys.gw.t) && GoOut(env, j, k, now)
    ensures Fixed(k) && Kept(j, k)
  {
    SameFlows(j.gate, k.gate);
    FlowsFixed(j, k);
  }

  lemma RestFixed(j: Joint, k: Joint)
    requires Fixed(j) && Elsewhere(j, k)
    ensures Fixed(k) && Kept(j, k)
  {
    MovesFlows(j.gate, k.gate);
    FlowsFixed(j, k);
  }

  lemma BusinessFixed(j: Joint, k: Joint)
    requires AI.Ids(j.gate) && AI.Tickets(k.gate) && Fixed(j) && Business(j, k)
    ensures Fixed(k) && Kept(j, k)
  {
    if kind: Byte, args: Bytes :| Accept(j, k, kind, args) {
      AcceptFixed(j, k, kind, args);
    } else if t: nat, stopping: bool :| TurnDown(j, k, t, stopping) {
      TurnDownFixed(j, k, t, stopping);
    } else if Enqueue(j, k) {
      EnqueueFixed(j, k);
    } else {
      SettleFixed(j, k);
    }
  }

  lemma StepFixed(env: R.Env, j: Joint, k: Joint)
    requires AI.Ids(j.gate) && AI.Tickets(k.gate) && T.Shape(j.sys.gw.t) && Fixed(j) && Step(env, j, k)
    ensures Fixed(k) && Kept(j, k)
  {
    if Business(j, k) {
      BusinessFixed(j, k);
    } else if Reactor(env, j, k) {
      ReactorFixed(env, j, k);
    } else if Elsewhere(j, k) {
      RestFixed(j, k);
    }
  }

  // ------------------------------------------------------------------- every run

  /** The last step of a run, between states that keep the invariant. */
  lemma LastStep(env: R.Env, states: seq<Joint>)
    requires Run(env, states) && |states| > 1
    ensures Run(env, states[..|states| - 1])
    ensures Inv(states[|states| - 2]) && AI.Tickets(states[|states| - 1].gate) && AI.Ids(states[|states| - 1].gate)
    ensures Linked(env, states[|states| - 2], states[|states| - 1])
  {
    var n := |states| - 1;
    assert Linked(env, states[n - 1], states[n]);
    RunInv(env, states[..n]);
    StepInv(env, states[n - 1], states[n]);
  }

  lemma {:induction false} RunFixed(env: R.Env, states: seq<Joint>)
    requires Run(env, states)
    ensures Fixed(states[|states| - 1])
    ensures |states| > 1 ==> Kept(states[|states| - 2], states[|states| - 1])
  {
    if |states| == 1 {
      StartFixed(states[0]);
    } else {
      var n := |states| - 1;
      LastStep(env, states);
      RunFixed(env, states[..n]);
      StepFixed(env, states[n - 1], states[n]);
    }
  }

  lemma RunPrefix(env: R.Env, states: seq<Joint>, n: nat)
    requires Run(env, states) && 0 < n <= |states|
    ensures Run(env, states[..n])
  {}

  /** From each state to the next, answers stay. */
  ghost predicate Stays(states: seq<Joint>) { forall i :: 0 < i < |states| ==> Kept(states[i - 1], states[i]) }

  lemma RunStays(env: R.Env, states: seq<Joint>)
    requires Run(env, states)
    ensures Stays(states)
  {
    forall i | 0 < i < |states| ensures Kept(states[i - 1], states[i]) {
      RunPrefix(env, states, i + 1);
      RunFixed(env, states[..i + 1]);
    }
  }

  lemma {:induction false} StaysThroughout(states: seq<Joint>, i: nat)
    requires Stays(states) && i < |states|
    ensures Kept(states[i], states[|states| - 1])
    decreases |states| - i
  {
    if i + 1 < |states| {
      assert Kept(states[i + 1 - 1], states[i + 1]);
      StaysThroughout(states, i + 1);
    }
  }

  lemma StartFixed(j: Joint)
    requires Init(j)
    ensures Fixed(j)
  {
    assert j.gate.pending.Values == {};
  }

  /** In every run of threads, protocol, channel and node: whatever ticket has been answered
      over MQTT was given one answer, fixed when it was made; and if that answer reports
      success, the client's own command was executed, once, and produced those bytes. */
  lemma AnsweredTruthfully(env: R.Env, states: seq<Joint>, t: nat)
    requires Run(env, states) && t in states[|states| - 1].gate.published
    ensures var j := states[|states| - 1];
            && t in j.reply
            && (forall i :: 0 <= i < |states| && t in states[i].reply ==> states[i].reply[t] == j.reply[t])
            && (j.reply[t].Reported? && j.reply[t].report.done.error.NoError? ==> Granted(env, j, t, j.reply[t].report))
  {
    var j := states[|states| - 1];
    RunFixed(env, states);
    RunInv(env, states);
    assert t in Late(j.gate);
    RunStays(env, states);
    forall i | 0 <= i < |states| && t in states[i].reply ensures states[i].reply[t] == j.reply[t] {
      StaysThroughout(states, i);
    }
    if j.reply[t].Reported? && j.reply[t].report.done.error.NoError? {
      RunHook(env, states);
      InvServes(env, j, t);
    }
  }
}
