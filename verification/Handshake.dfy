/** How many OPENs one handshake hands out, over arbitrary histories of the tracker. */
module Handshake {
  import opened Protocol
  import opened Tracker
  import opened Sends
  import opened Sender

  /** `opens`: OPENs handed out since the handshake began; `late`: refusals accepted in it
      while an OPEN was still unwritten; `wrote`: OPENs of the present session number
      that were written in time. */
  datatype History = History(t: Tracker, opens: nat, late: nat, wrote: int)

  const FRESH := History(Initial(), 0, 0, 0)

  function One(b: bool): nat { if b then 1 else 0 }

  function Opens(sends: seq<Send>): nat {
    if sends == [] then 0 else One(sends[0].kind == SR_OPEN) + Opens(sends[1..])
  }

  /** The node's refusal is accepted: the handshake goes on under a higher number. */
  predicate Refused(t: Tracker, input: Input)
    requires Shape(t)
  {
    input.Got? && input.frame.kind == SR_OPEN_ACK && React(t, input).t.session != t.session
  }

  /** A new handshake begins. */
  predicate Begins(t: Tracker, input: Input)
    requires Shape(t)
  {
    React(t, input).t.session != t.session && !Refused(t, input)
  }

  function Step(h: History, input: Input): History
    requires Shape(h.t)
  {
    var turn := React(h.t, input);
    if Begins(h.t, input) then History(turn.t, Opens(turn.send), 0, 0)
    else History(turn.t, h.opens + Opens(turn.send), h.late + One(Refused(h.t, input) && h.t.openPending),
                 if Refused(h.t, input) then 0 else h.wrote + turn.t.openSends - h.t.openSends)
  }

  /** While the handshake is open its OPENs are the written ones, the one waiting to be
      written, and one for every late refusal. */
  ghost predicate Counts(h: History) {
    && Valid(h.t)
    && (h.t.phase.Opening? ==> h.opens == h.t.openSends + One(h.t.openPending) + h.late)
    && h.opens <= MAX_RETRY + 1 + h.late
  }

  lemma NoOpens(sends: seq<Send>)
    requires forall i :: 0 <= i < |sends| ==> sends[i].kind != SR_OPEN
    ensures Opens(sends) == 0
  {}

  /** A tracker that is not opening and stays in its session hands out no OPEN. */
  lemma QuietElsewhere(t: Tracker, input: Input)
    requires Valid(t) && !t.phase.Opening? && React(t, input).t.session == t.session
    ensures Opens(React(t, input).send) == 0 && !React(t, input).t.phase.Opening?
  {
    ReactKeeps(t, input);
    NoOpens(React(t, input).send);
  }

  /** A new handshake starts with one OPEN, unwritten. */
  lemma BeginsWithOne(t: Tracker, input: Input)
    requires Valid(t) && Begins(t, input)
    ensures var turn := React(t, input);
            turn.t.phase.Opening? && turn.t.openSends == 0 && turn.t.openPending && Opens(turn.send) == 1
  {
    match input
    case Restart(asked, now) =>
    case Offer(_, _, _) =>
    case Written(s, ok, now) => WriteBegins(t, s, ok, now);
    case Clock(now) => TickBegins(t, now);
    case Got(f, now) => FrameBegins(t, f, now);
  }

  lemma WriteBegins(t: Tracker, s: Send, ok: bool, now: int)
    requires Valid(t) && OnWritten(t, s, ok, now).t.session != t.session
    ensures var turn := OnWritten(t, s, ok, now);
            turn.t.phase.Opening? && turn.t.openSends == 0 && turn.t.openPending && Opens(turn.send) == 1
  {
    OpensOfOne(OpenSend(OnWritten(t, s, ok, now).t));
  }

  lemma TickBegins(t: Tracker, now: int)
    requires Valid(t) && Tick(t, now).t.session != t.session
    ensures var turn := Tick(t, now);
            turn.t.phase.Opening? && turn.t.openSends == 0 && turn.t.openPending && Opens(turn.send) == 1
  {
    OpensOfOne(OpenSend(Tick(t, now).t));
  }

  lemma FrameBegins(t: Tracker, f: Frame, now: int)
    requires Valid(t) && f.kind != SR_OPEN_ACK && OnFrame(t, f, now).t.session != t.session
    ensures var turn := OnFrame(t, f, now);
            turn.t.phase.Opening? && turn.t.openSends == 0 && turn.t.openPending && Opens(turn.send) == 1
  {
    var turn := OnFrame(t, f, now);
    assert turn.send == [ResultAck(t, f.payload[8]), OpenSend(turn.t)];
    OpensOfTwo(ResultAck(t, f.payload[8]), OpenSend(turn.t));
  }

  lemma OpensOfTwo(a: Send, b: Send)
    ensures Opens([a, b]) == One(a.kind == SR_OPEN) + One(b.kind == SR_OPEN)
  {
    assert [a, b][1..] == [b];
    OpensOfOne(b);
  }

  lemma OpensOfOne(a: Send)
    ensures Opens([a]) == One(a.kind == SR_OPEN)
  {
    assert [a][1..] == [];
  }

  // ---------------------------------------------------------- an open handshake

  lemma OpeningWrites(t: Tracker, s: Send, ok: bool, now: int)
    requires Valid(t) && t.phase.Opening?
    ensures var turn := OnWritten(t, s, ok, now);
            && turn.send == [] && turn.t.session == t.session
            && (turn.t.phase.Opening? ==> turn.t.openSends + One(turn.t.openPending) == t.openSends + One(t.openPending))
  {}

  lemma OpeningTicks(t: Tracker, now: int)
    requires Valid(t) && t.phase.Opening?
    ensures var turn := Tick(t, now);
            && turn.t.session == t.session && turn.t.openSends == t.openSends
            && (turn.t.phase.Opening? ==> One(turn.t.openPending) == One(t.openPending) + Opens(turn.send))
            && (!turn.t.phase.Opening? ==> turn.send == [])
  {}

  lemma OpeningHears(t: Tracker, f: Frame, now: int)
    requires Valid(t) && t.phase.Opening?
    ensures var turn := OnFrame(t, f, now);
            && turn.t.openSends == t.openSends
            && (if turn.t.session == t.session
                then turn.send == [] && (turn.t.phase.Opening? ==> turn.t == t)
                else f.kind == SR_OPEN_ACK && turn.t.phase.Opening? && turn.t.openPending && Opens(turn.send) == 1)
  {}

  lemma OpeningCounts(h: History, input: Input)
    requires Counts(h) && h.t.phase.Opening? && !Begins(h.t, input)
    ensures Counts(Step(h, input))
  {
    ReactKeeps(h.t, input);
    match input
    case Restart(_, _) =>
    case Offer(_, _, _) =>
    case Written(s, ok, now) => OpeningWrites(h.t, s, ok, now);
    case Clock(now) => OpeningTicks(h.t, now);
    case Got(f, now) => OpeningHears(h.t, f, now);
  }

  lemma StepCounts(h: History, input: Input)
    requires Counts(h)
    ensures Counts(Step(h, input))
  {
    ReactKeeps(h.t, input);
    if Begins(h.t, input) {
      BeginsWithOne(h.t, input);
    } else if h.t.phase.Opening? {
      OpeningCounts(h, input);
    } else {
      NotRefused(h.t, input);
      QuietElsewhere(h.t, input);
    }
  }

  lemma NotRefused(t: Tracker, input: Input)
    requires Shape(t) && !t.phase.Opening?
    ensures !Refused(t, input)
  {}

  // --------------------------------------------------------------- all histories

  ghost function After(h: History, inputs: seq<Input>): (h1: History)
    requires Counts(h)
    ensures Counts(h1)
    decreases |inputs|
  {
    if inputs == [] then h else
    StepCounts(h, inputs[0]);
    After(Step(h, inputs[0]), inputs[1..])
  }

  lemma FreshCounts()
    ensures Counts(FRESH)
  {}

  ghost predicate Reachable(h: History) { exists inputs :: (FreshCounts(); h == After(FRESH, inputs)) }

  /** In every history: the exact number of OPENs of an open handshake, and the bound of
      four for every handshake that accepts no refusal while an OPEN is unwritten. Once the
      counted budget is used up, the bound holds only for those. */
  lemma OpensExact(h: History)
    requires Reachable(h)
    ensures h.t.phase.Opening? ==> h.opens == h.t.openSends + One(h.t.openPending) + h.late
    ensures h.opens <= MAX_RETRY + 1 + h.late
    ensures h.late == 0 ==> h.opens <= MAX_RETRY + 1
    ensures h.t.phase.Opening? && h.t.openSends + One(h.t.openPending) == MAX_RETRY + 1 ==>
              (h.opens <= MAX_RETRY + 1 <==> h.late == 0)
  {
    FreshCounts();
  }

  // ----------------------------------------------------------------- three moves

  function WrittenAt(t: Tracker, now: int): Input { Written(OpenSend(t), true, now) }

  /** A refusal of the present number, with that number as the high-water mark. */
  function Refusal(t: Tracker, now: int): Input { Got(OpenAckFrame(t.session, t.session, RC_BAD_PARAM), now) }

  predicate InTime(t: Tracker, now: int) { t.phase.Opening? && now - t.openingAt < COMMAND_LIFETIME }

  lemma WriteMove(h: History, now: int)
    requires Shape(h.t) && InTime(h.t, now) && h.t.openPending
    ensures Step(h, WrittenAt(h.t, now))
         == h.(t := h.t.(openPending := false, openSends := h.t.openSends + 1, openSentAt := now), wrote := h.wrote + 1)
  {}

  lemma TickMove(h: History, now: int)
    requires Shape(h.t) && InTime(h.t, now) && !h.t.openPending && h.t.openSends <= MAX_RETRY
    requires now - h.t.openSentAt >= ACK_TIMEOUT
    ensures Step(h, Clock(now)) == h.(t := h.t.(openPending := true), opens := h.opens + 1)
  {
    OpensOfOne(OpenSend(h.t));
  }

  lemma RefuseMove(h: History, now: int)
    requires Shape(h.t) && InTime(h.t, now) && 1 <= h.t.openSends <= MAX_RETRY && h.t.session < U64_MAX
    ensures Refused(h.t, Refusal(h.t, now))
    ensures Step(h, Refusal(h.t, now))
         == History(h.t.(session := h.t.session + 1, openPending := true), h.opens + 1, h.late + One(h.t.openPending), 0)
  {
    var s := h.t.session;
    var p := U64Bytes(s) + U64Bytes(s) + [RC_BAD_PARAM];
    assert p == U64Bytes(s) + (U64Bytes(s) + [RC_BAD_PARAM]);
    assert p[8..] == U64Bytes(s) + [RC_BAD_PARAM];
    SessionRoundTrip(s, U64Bytes(s) + [RC_BAD_PARAM]);
    SessionRoundTrip(s, [RC_BAD_PARAM]);
    OpensOfOne(OpenSend(h.t.(session := s + 1, openPending := true)));
  }

  lemma OpenMove(now: int)
    ensures Step(FRESH, Restart(10, now)).t.session == 10 && Step(FRESH, Restart(10, now)).t.openingAt == now
    ensures var h := Step(FRESH, Restart(10, now));
            h.t.phase.Opening? && h.t.openPending && h.t.openSends == 0 && h.opens == 1 && h.late == 0 && h.wrote == 0
  {
    OpensOfOne(OpenSend(Step(FRESH, Restart(10, now)).t));
  }

  lemma Cons(h: History, input: Input, rest: seq<Input>)
    requires Counts(h) && Counts(Step(h, input))
    ensures After(h, [input] + rest) == After(Step(h, input), rest)
    ensures Answering(h, [input] + rest) <==> (Refused(h.t, input) ==> h.wrote > 0) && Answering(Step(h, input), rest)
  {
    assert ([input] + rest)[1..] == rest;
  }

  // ------------------------------------------------- exactly when four is enough

  predicate Silent(inputs: seq<Input>) { forall i :: 0 <= i < |inputs| ==> !inputs[i].Got? }

  /** Nobody answers: the counted budget runs out, on top of the late refusals. */
  lemma {:induction false} RunsOut(h: History, now: int) returns (inputs: seq<Input>)
    requires Counts(h) && h.t.openPending && InTime(h.t, now + ACK_TIMEOUT * (MAX_RETRY - h.t.openSends))
    ensures Silent(inputs) && After(h, inputs).opens == MAX_RETRY + 1 + h.late
    decreases MAX_RETRY - h.t.openSends
  {
    if h.t.openSends == MAX_RETRY {
      inputs := [];
    } else {
      var h1 := Step(h, WrittenAt(h.t, now));
      var h2 := Step(h1, Clock(now + ACK_TIMEOUT));
      WriteMove(h, now);
      TickMove(h1, now + ACK_TIMEOUT);
      StepCounts(h, WrittenAt(h.t, now));
      StepCounts(h1, Clock(now + ACK_TIMEOUT));
      var rest := RunsOut(h2, now + ACK_TIMEOUT);
      Cons(h1, Clock(now + ACK_TIMEOUT), rest);
      Cons(h, WrittenAt(h.t, now), [Clock(now + ACK_TIMEOUT)] + rest);
      inputs := [WrittenAt(h.t, now)] + ([Clock(now + ACK_TIMEOUT)] + rest);
    }
  }

  lemma {:induction false} SilenceIsNeverLate(h: History, inputs: seq<Input>)
    requires Counts(h) && h.late == 0 && Silent(inputs)
    ensures After(h, inputs).late == 0
    decreases |inputs|
  {
    if inputs != [] {
      StepCounts(h, inputs[0]);
      assert forall i :: 0 <= i < |inputs| - 1 ==> inputs[1..][i] == inputs[i + 1];
      SilenceIsNeverLate(Step(h, inputs[0]), inputs[1..]);
    }
  }

  ghost predicate CanExceedFour(h: History)
    requires Counts(h)
  {
    exists inputs :: Silent(inputs) && After(h, inputs).opens > MAX_RETRY + 1
  }

  /** With time left for the retries, an unanswered handshake can go beyond four OPENs if
      and only if it accepted a refusal while an OPEN was unwritten. */
  lemma BeyondFourIffLate(h: History, now: int)
    requires Counts(h) && h.t.openPending && InTime(h.t, now + ACK_TIMEOUT * (MAX_RETRY - h.t.openSends))
    ensures CanExceedFour(h) <==> h.late > 0
  {
    if h.late > 0 {
      var inputs := RunsOut(h, now);
    } else {
      forall inputs | Silent(inputs) ensures After(h, inputs).opens <= MAX_RETRY + 1 {
        SilenceIsNeverLate(h, inputs);
      }
    }
  }

  // ------------------------------------------------------------ the bound of seven

  /** Refusals come only for a number whose OPEN has been written. */
  ghost predicate Answering(h: History, inputs: seq<Input>)
    requires Counts(h)
    decreases |inputs|
  {
    inputs == [] ||
    (StepCounts(h, inputs[0]);
     (Refused(h.t, inputs[0]) ==> h.wrote > 0) && Answering(Step(h, inputs[0]), inputs[1..]))
  }

  ghost predicate LateBound(h: History) {
    h.late <= MAX_RETRY && (h.t.phase.Opening? ==> 0 <= h.wrote && h.late + h.wrote <= h.t.openSends)
  }

  lemma RefusedFacts(t: Tracker, input: Input)
    requires Valid(t) && Refused(t, input)
    ensures t.phase.Opening? && t.openSends <= MAX_RETRY && React(t, input).t.openSends == t.openSends
  {}

  lemma LateBoundStep(h: History, input: Input)
    requires Counts(h) && LateBound(h) && (Refused(h.t, input) ==> h.wrote > 0)
    ensures LateBound(Step(h, input))
  {
    if Begins(h.t, input) {
    } else if Refused(h.t, input) {
      RefusedFacts(h.t, input);
    } else if h.t.phase.Opening? {
      SendsGrow(h.t, input);
    } else {
      QuietElsewhere(h.t, input);
    }
  }

  lemma SendsGrow(t: Tracker, input: Input)
    requires Valid(t) && t.phase.Opening? && React(t, input).t.session == t.session
    ensures React(t, input).t.phase.Opening? ==> React(t, input).t.openSends >= t.openSends
  {}

  lemma {:induction false} AtMostSevenFrom(h: History, inputs: seq<Input>)
    requires Counts(h) && LateBound(h) && Answering(h, inputs)
    ensures After(h, inputs).opens <= 2 * MAX_RETRY + 1
    decreases |inputs|
  {
    if inputs != [] {
      StepCounts(h, inputs[0]);
      LateBoundStep(h, inputs[0]);
      AtMostSevenFrom(Step(h, inputs[0]), inputs[1..]);
    }
  }

  /** If the node refuses only what has reached it, no handshake hands out more than
      seven OPENs. */
  lemma AtMostSeven(inputs: seq<Input>)
    requires (FreshCounts(); Answering(FRESH, inputs))
    ensures Counts(FRESH) && After(FRESH, inputs).opens <= 2 * MAX_RETRY + 1
  {
    FreshCounts();
    AtMostSevenFrom(FRESH, inputs);
  }

  // -------------------------------------------------------- runs that show it all

  /** Write, time out, be refused while the retry is unwritten, `k` times over: two OPENs
      each time. */
  lemma {:induction false} RefusedRounds(h: History, k: nat, now: int) returns (inputs: seq<Input>)
    requires Counts(h) && h.t.openPending && h.wrote >= 0
    requires h.t.openSends + k <= MAX_RETRY && h.t.session + k <= U64_MAX && InTime(h.t, now + ACK_TIMEOUT * k)
    ensures Answering(h, inputs) && After(h, inputs).opens == h.opens + 2 * k
    decreases k, 1
  {
    if k == 0 { return []; }
    var i1, i2 := WrittenAt(h.t, now), Clock(now + ACK_TIMEOUT);
    var h1 := Step(h, i1);
    var h2 := Step(h1, i2);
    WriteMove(h, now);
    StepCounts(h, i1);
    TickMove(h1, now + ACK_TIMEOUT);
    StepCounts(h1, i2);
    var rest := RefusedThenRounds(h2, k, now + ACK_TIMEOUT);
    Cons(h1, i2, rest);
    Cons(h, i1, [i2] + rest);
    inputs := [i1] + ([i2] + rest);
  }

  lemma {:induction false} RefusedThenRounds(h: History, k: nat, now: int) returns (inputs: seq<Input>)
    requires Counts(h) && h.t.openPending && h.wrote > 0 && 0 < k
    requires 1 <= h.t.openSends && h.t.openSends + k - 1 <= MAX_RETRY && h.t.session + k <= U64_MAX
    requires InTime(h.t, now + ACK_TIMEOUT * (k - 1))
    ensures Answering(h, inputs) && After(h, inputs).opens == h.opens + 2 * k - 1
    decreases k, 0
  {
    var i3 := Refusal(h.t, now);
    RefuseMove(h, now);
    StepCounts(h, i3);
    var rest := RefusedRounds(Step(h, i3), k - 1, now);
    Cons(h, i3, rest);
    inputs := [i3] + rest;
  }

  /** The bound of four fails and the bound of seven is met: one, three, five and seven
      OPENs in one handshake, with a node that refuses only what was written. */
  lemma UpToSevenOpens(k: nat) returns (inputs: seq<Input>)
    requires k <= MAX_RETRY
    ensures Counts(FRESH) && Answering(FRESH, inputs) && After(FRESH, inputs).opens == 1 + 2 * k
  {
    FreshCounts();
    var h := Step(FRESH, Restart(10, 0));
    OpenMove(0);
    StepCounts(FRESH, Restart(10, 0));
    var rest := RefusedRounds(h, k, 0);
    Cons(FRESH, Restart(10, 0), rest);
    inputs := [Restart(10, 0)] + rest;
  }

  lemma {:induction false} RefusedAgain(h: History, n: nat, now: int) returns (inputs: seq<Input>)
    requires Counts(h) && InTime(h.t, now) && 1 <= h.t.openSends <= MAX_RETRY && h.t.session + n <= U64_MAX
    ensures After(h, inputs).opens == h.opens + n
    decreases n
  {
    if n == 0 { return []; }
    RefuseMove(h, now);
    StepCounts(h, Refusal(h.t, now));
    var rest := RefusedAgain(Step(h, Refusal(h.t, now)), n - 1, now);
    Cons(h, Refusal(h.t, now), rest);
    inputs := [Refusal(h.t, now)] + rest;
  }

  /** Against answers to OPENs never written there is no bound but the number space. */
  lemma ForgedRefusals(n: nat) returns (inputs: seq<Input>)
    requires 10 + n <= U64_MAX
    ensures Counts(FRESH) && After(FRESH, inputs).opens == 1 + n
  {
    FreshCounts();
    var h := Step(FRESH, Restart(10, 0));
    OpenMove(0);
    StepCounts(FRESH, Restart(10, 0));
    var h1 := Step(h, WrittenAt(h.t, 0));
    WriteMove(h, 0);
    StepCounts(h, WrittenAt(h.t, 0));
    var rest := RefusedAgain(h1, n, 0);
    Cons(h, WrittenAt(h.t, 0), rest);
    Cons(FRESH, Restart(10, 0), [WrittenAt(h.t, 0)] + rest);
    inputs := [Restart(10, 0)] + ([WrittenAt(h.t, 0)] + rest);
  }
}
