/** What a completion is turned into for the client (GatewayCore::handleFinished), and why
    one of its cases is never needed. */
module Terminal {
  import opened Protocol
  import T = Tracker
  import TT = TrackerTheorems
  import G = Sender
  import GT = SenderTheorems

  /** The body of a terminal answer; measured values as the node's 16-bit numbers. */
  datatype Body =
    | Failure(error: T.Error) | Refusal(code: Byte) | Invalid
    | Climate(temperature: nat, humidity: nat) | Light(level: nat) | Done

  function U16(hi: Byte, lo: Byte): nat { 256 * hi + lo }

  /** handleFinished, case by case. */
  function Answer(c: T.Completion): Body {
    if !c.error.NoError? then Failure(c.error)
    else if c.result == [] then Invalid
    else if c.result[0] != RC_OK then Refusal(c.result[0])
    else if c.kind == QUERY_TH && |c.result| == 5 then Climate(U16(c.result[1], c.result[2]), U16(c.result[3], c.result[4]))
    else if c.kind == QUERY_LIGHT && |c.result| == 3 then Light(U16(c.result[1], c.result[2]))
    else if c.kind == SET_PERIOD && |c.result| == 1 then Done
    else Invalid
  }

  /** What a node may say, and what the client then reads. */
  ghost predicate Says(kind: Byte, b: Bytes, body: Body) {
    match body
    case Failure(_) => false
    case Invalid => false
    case Refusal(code) => b == [code] && 1 <= code <= 3
    case Climate(t, h) => kind == 0x21 && t < 65536 && h < 65536 && b == [0] + BigEndian(t, 2) + BigEndian(h, 2)
    case Light(level) => kind == 0x20 && level < 65536 && b == [0] + BigEndian(level, 2)
    case Done => kind == 0x22 && b == [0]
  }

  lemma TwoBytes(hi: Byte, lo: Byte)
    ensures BigEndian(U16(hi, lo), 2) == [hi, lo] && U16(hi, lo) < 65536
  {
    assert BigEndian(U16(hi, lo) / 256, 1) == BigEndian(0, 0) + [hi];
  }

  /** A well-formed result is answered with exactly what it encodes. */
  lemma GoodIsSaid(c: T.Completion)
    requires c.error.NoError? && TT.GoodResult(c.kind, c.result)
    ensures Says(c.kind, c.result, Answer(c))
  {
    var b := c.result;
    if b[0] == 0 && c.kind == 0x21 {
      TwoBytes(b[1], b[2]);
      TwoBytes(b[3], b[4]);
      assert b == [0] + [b[1], b[2]] + [b[3], b[4]];
    } else if b[0] == 0 && c.kind == 0x20 {
      TwoBytes(b[1], b[2]);
      assert b == [0] + [b[1], b[2]];
    }
  }

  // --------------------------------------------------------- every report made

  ghost predicate Sensible(c: T.Completion) { c.error.NoError? ==> TT.GoodResult(c.kind, c.result) }

  lemma PayloadShape(kind: Byte, p: Bytes)
    requires 10 <= |p| <= PAYLOAD_MAX && T.ResultValid(kind, p)
    ensures TT.GoodResult(kind, p[10..])
  {}

  lemma FrameSensible(t: T.Tracker, f: Frame, now: int, c: T.Completion)
    requires T.Valid(t) && c in T.OnFrame(t, f, now).finished
    ensures Sensible(c)
  {
    PayloadShape(f.payload[9], f.payload);
    assert T.EntryOk(t, f.payload[8], t.entries[f.payload[8]]);
  }

  lemma ReactSensible(t: T.Tracker, input: G.Input, c: T.Completion)
    requires T.Valid(t) && c in G.React(t, input).finished
    ensures Sensible(c)
  {
    match input
    case Got(f, now) => FrameSensible(t, f, now, c);
    case Written(s, ok, now) => T.OnWrittenFails(t, s, ok, now, c);
    case Clock(now) => T.TickFails(t, now, c);
    case Restart(asked, _) => T.AbortedFails(t.entries, -1, T.SessionAborted, c);
    case Offer(_, _, _) =>
  }

  ghost predicate AllSensible(l: G.Ledger) { forall r :: r in l.reports ==> Sensible(r.done) }

  lemma AdvanceSensible(l: G.Ledger, input: G.Input)
    requires T.Valid(l.t) && AllSensible(l)
    ensures AllSensible(G.Advance(l, input))
  {
    var finished := G.React(l.t, input).finished;
    forall r | r in G.Reports(l.t.session, finished) ensures Sensible(r.done) { ReactSensible(l.t, input, r.done); }
  }

  lemma {:induction false} RunSensible(l: G.Ledger, inputs: seq<G.Input>)
    requires G.Inv(l) && AllSensible(l)
    ensures AllSensible(GT.After(l, inputs))
    decreases |inputs|
  {
    if inputs != [] {
      AdvanceSensible(l, inputs[0]);
      G.AdvanceInv(l, inputs[0]);
      RunSensible(G.Advance(l, inputs[0]), inputs[1..]);
    }
  }

  /** In every history, whatever frames came in: no client is ever answered "invalid result";
      an answer is the failure the tracker reports, or exactly what the result bytes say. */
  lemma NeverInvalid(l: G.Ledger, r: G.Report)
    requires GT.Reachable(l) && r in l.reports
    ensures if r.done.error.NoError? then Says(r.done.kind, r.done.result, Answer(r.done))
            else Answer(r.done) == Failure(r.done.error)
  {
    var l0, inputs :| G.Init(l0) && (G.InitInv(l0); l == GT.After(l0, inputs));
    G.InitInv(l0);
    RunSensible(l0, inputs);
    if r.done.error.NoError? { GoodIsSaid(r.done); }
  }
}
