/** Why a client is told that its command was rejected. */
module Rejections {
  import opened Protocol
  import A = Accounting
  import AI = AccountingInv
  import T = Tracker
  import G = Sender
  import R = Receiver
  import S = SrSystem
  import opened EndToEnd
  import opened Answers
  import opened AnswerContent

  /** A queued command is given up at this point: it is next, and the handshake has failed
      for good or its arguments are too long; or the gateway is shutting down. */
  ghost predicate Cause(j: Joint, id: nat) {
    || (j.gate.commands != [] && j.gate.commands[0] == id && id in j.asked
        && (j.gate.tracker.phase.Failed? || |j.asked[id].args| > 53))
    || j.gate.stage == 3
  }

  predicate TurnedNow(j: Joint, k: Joint, id: nat) { id !in j.outcome && id in k.outcome && k.outcome[id] == Turned }

  lemma GiveUpCause(j: Joint, k: Joint, id: nat)
    requires GiveUp(j, k) && TurnedNow(j, k, id)
    ensures Cause(j, id)
  {}

  lemma ReactTurnsNone(env: R.Env, j: Joint, k: Joint, input: G.Input, id: nat)
    requires T.Shape(j.sys.gw.t) && React(env, j, k, input)
    ensures !TurnedNow(j, k, id)
  {
    if id in k.outcome && id !in j.outcome {
      var i :| 0 <= i < |k.gate.todo| && k.gate.todo[i] == id;
      assert CompletionOf(j, k, input, i, k.gate.todo[i]);
    }
  }

  lemma ReactorCause(env: R.Env, j: Joint, k: Joint, id: nat)
    requires T.Shape(j.sys.gw.t) && Reactor(env, j, k) && TurnedNow(j, k, id)
    ensures Cause(j, id)
  {
    if GiveUp(j, k) {
      GiveUpCause(j, k, id);
    } else if input: G.Input :| React(env, j, k, input) {
      ReactTurnsNone(env, j, k, input, id);
    }
  }

  /** The thread that notes outcomes is the reactor, or the destructor after it. */
  lemma OthersNoteNothing(env: R.Env, j: Joint, k: Joint)
    requires T.Shape(j.sys.gw.t) && Step(env, j, k) && !Reactor(env, j, k)
    ensures k.outcome == j.outcome
  {}

  /** A noted outcome stays. */
  lemma NotedStays(j: Joint, k: Joint, id: nat)
    requires Over(j) && AI.Ids(k.gate) && ComesOut(j.gate, k.gate) && Extends(j, k) && id in j.outcome
    ensures id in k.outcome && k.outcome[id] == j.outcome[id]
  {
    OutIsNew(j, k);
  }

  lemma GiveUpStays(j: Joint, k: Joint, id: nat)
    requires Over(j) && AI.Ids(k.gate) && GiveUp(j, k) && id in j.outcome
    ensures id in k.outcome && k.outcome[id] == j.outcome[id]
  {
    GiveUpComesOut(j, k);
    NotedStays(j, k, id);
  }

  lemma ReactStays(env: R.Env, j: Joint, k: Joint, input: G.Input, id: nat)
    requires T.Shape(j.sys.gw.t) && Over(j) && AI.Ids(k.gate) && React(env, j, k, input) && id in j.outcome
    ensures id in k.outcome && k.outcome[id] == j.outcome[id]
  {
    DriveComesOut(j.gate, k.gate, input);
    NotedStays(j, k, id);
  }

  lemma ReactorKeeps(env: R.Env, j: Joint, k: Joint, id: nat)
    requires T.Shape(j.sys.gw.t) && Over(j) && AI.Ids(k.gate) && Reactor(env, j, k) && id in j.outcome
    ensures id in k.outcome && k.outcome[id] == j.outcome[id]
  {
    if GiveUp(j, k) {
      GiveUpStays(j, k, id);
    } else if input: G.Input :| React(env, j, k, input) {
      ReactStays(env, j, k, input, id);
    }
  }

  lemma StepCause(env: R.Env, j: Joint, k: Joint, id: nat)
    requires T.Shape(j.sys.gw.t) && Over(j) && AI.Ids(k.gate) && Step(env, j, k) && id in k.outcome && k.outcome[id] == Turned
    ensures Cause(j, id) || (id in j.outcome && j.outcome[id] == Turned)
  {
    if !Reactor(env, j, k) {
      OthersNoteNothing(env, j, k);
    } else if id in j.outcome {
      ReactorKeeps(env, j, k, id);
    } else {
      ReactorCause(env, j, k, id);
    }
  }

  lemma LastCause(env: R.Env, states: seq<Joint>, id: nat)
    requires Run(env, states) && |states| > 1 && TurnedAt(states[|states| - 1], id)
    ensures Run(env, states[..|states| - 1])
    ensures Cause(states[|states| - 2], id) || TurnedAt(states[|states| - 2], id)
  {
    var n := |states| - 1;
    LastStep(env, states);
    RunContent(env, states[..n]);
    StepCause(env, states[n - 1], states[n], id);
  }

  predicate TurnedAt(j: Joint, id: nat) { id in j.outcome && j.outcome[id] == Turned }

  lemma StartsUnturned(env: R.Env, states: seq<Joint>, id: nat)
    requires Run(env, states) && TurnedAt(states[|states| - 1], id)
    ensures |states| > 1
  {}

  lemma {:induction false} RunCause(env: R.Env, states: seq<Joint>, id: nat) returns (i: nat)
    requires Run(env, states) && TurnedAt(states[|states| - 1], id)
    ensures i < |states| && Cause(states[i], id)
  {
    StartsUnturned(env, states, id);
    var n := |states| - 1;
    LastCause(env, states, id);
    if Cause(states[n - 1], id) {
      i := n - 1;
    } else {
      i := RunCause(env, states[..n], id);
    }
  }

  /** In every run, a client that is told of a rejection sent a message that was not taken at
      all, or its command was given up at a moment when there was cause. */
  lemma RejectedForCause(env: R.Env, states: seq<Joint>, t: nat)
    requires Run(env, states) && t in states[|states| - 1].gate.published
    ensures var j := states[|states| - 1];
            t in j.reply && (j.reply[t] == Turned ==> AsRefused(j, t) || exists id, i :: For(j, id, t) && 0 <= i < |states| && Cause(states[i], id))
  {
    var j := states[|states| - 1];
    AnswersAreExact(env, states, t);
    if j.reply[t] == Turned && !AsRefused(j, t) {
      var id :| AsCompleted(j, t, id);
      var i := RunCause(env, states, id);
    }
  }
}
