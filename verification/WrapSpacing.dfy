/** Spacing calls by clock readings instead of expiry scans: enough unless a call executes
    number 255, and not enough then. */
module WrapSpacing {
  import opened Protocol
  import opened Receiver
  import opened WrapClock

  // ------------------------------------------------- the last reading is a scan

  /** Number 255 was executed on the way from `u` to `u1`, as the last thing. */
  predicate Exhausts(u: Run, u1: Run) { |u.ran| < |u1.ran| && u1.ran[|u1.ran| - 1].cmd.num == 255 }

  lemma {:induction false} DeliverEndsWithScan(env: Env, u: Run, at: nat)
    requires u.node.base < 256
    ensures var u1 := Deliver(Unbounded(env), u);
            && u.readings < u1.readings && |u.ran| <= |u1.ran|
            && (Exhausts(u, u1) || DeliverScan(env, u, at) == env.clock(u1.readings - 1))
    decreases 256 - u.node.base
  {
    var u1 := Scan(Unbounded(env), u);
    if Deliverable(u1.node) {
      var u2 := Execute(Unbounded(env), u1);
      if u2.node.base < 256 { DeliverEndsWithScan(env, u2, env.clock(u.readings)); }
    }
  }

  /** A call that does not execute number 255 makes its last reading for a scan. */
  lemma CallEndsWithScan(env: Env, u: Run, c: Call)
    requires Apply(Unbounded(env), u, c) != u && !Exhausts(u, Apply(Unbounded(env), u, c))
    ensures Apply(Unbounded(env), u, c).readings > 0
    ensures CallScan(env, u, c) == env.clock(Apply(Unbounded(env), u, c).readings - 1)
  {
    if c.Got? && Stores(Scan(Unbounded(env), u).node, c.frame) {
      StoringFrame(Unbounded(env), u, c.frame);
      DeliverEndsWithScan(env, Stored(Unbounded(env), u, c.frame), env.clock(u.readings));
    } else if c.Got? {
      OneReading(env, u, c.frame);
    }
  }

  lemma OneReading(env: Env, u: Run, f: Frame)
    requires !Stores(Scan(Unbounded(env), u).node, f)
    ensures OnFrame(Unbounded(env), u, f).readings == u.readings + 1
  {}

  // -------------------------------------------------------- spacing by readings

  /** Every reading of every call lies within 2^32 - 5000 ms of the previous call's last
      reading (of `last`, for the first call). */
  ghost predicate ReadingSpaced(env: Env, u: Run, calls: seq<Call>, last: nat)
    decreases |calls|
  {
    calls == [] ||
    (var u1 := Apply(Unbounded(env), u, calls[0]);
     && env.clock(u.readings) - last <= WRAP - RESULT_TTL
     && Near(env, u.readings, u1.readings, last)
     && ReadingSpaced(env, u1, calls[1..], if u1.readings <= u.readings then last else env.clock(u1.readings - 1)))
  }

  /** No call but possibly the last one executes number 255. */
  ghost predicate NeverExhausts(env: Env, u: Run, calls: seq<Call>)
    decreases |calls|
  {
    |calls| <= 1 ||
    (var u1 := Apply(Unbounded(env), u, calls[0]); !Exhausts(u, u1) && NeverExhausts(env, u1, calls[1..]))
  }

  lemma CallReads(env: Env, u: Run, c: Call)
    ensures Apply(Unbounded(env), u, c) == u || Apply(Unbounded(env), u, c).readings > u.readings
  {
    if c.Got? { FrameReads(Unbounded(env), u, c.frame); }
  }

  lemma {:induction false} ReadingsAreScans(env: Env, u: Run, calls: seq<Call>, last: nat)
    requires ReadingSpaced(env, u, calls, last) && NeverExhausts(env, u, calls)
    ensures Spaced(env, u, calls, last)
    decreases |calls|
  {
    if calls != [] {
      var u1 := Apply(Unbounded(env), u, calls[0]);
      CallReads(env, u, calls[0]);
      if |calls| > 1 {
        if u1 != u { CallEndsWithScan(env, u, calls[0]); }
        ReadingsAreScans(env, u1, calls[1..], if u1.readings <= u.readings then last else env.clock(u1.readings - 1));
      }
    }
  }

  /** With calls spaced by readings, and number 255 executed at most in the last of them,
      the wrapping clock is invisible. */
  lemma SpacedReadingsSuffice(env: Env, w: Run, u: Run, calls: seq<Call>, told: set<Command>, last: nat)
    requires Monotone(env.clock) && Same(w, u) && Ready(env, u, told, last) && AllTold(calls, told)
    requires ReadingSpaced(env, u, calls, last) && NeverExhausts(env, u, calls)
    ensures Same(ApplyAll(Wrapping(env), w, calls), ApplyAll(Unbounded(env), u, calls))
  {
    ReadingsAreScans(env, u, calls, last);
    WrappingClockIsInvisible(env, w, u, calls, told, last);
  }

  // ------------------------------------------------ why the exception is needed

  function Cmd(num: Byte): Command { Command(1, num, SET_PERIOD, []) }

  /** Executing number 255 takes very long; everything else takes no time. */
  function LongRun(): Env {
    Env((i: nat) => if i <= 4 then 0 else if i == 5 then WRAP - RESULT_TTL else WRAP, (_: nat) => [RC_OK], WRAP)
  }

  /** Numbers 0 to 253 are executed, 255 is buffered, 254 is missing. */
  function BeforeLast(): Run {
    Run(Node(1, 254, true, map[255 := Buffered(SET_PERIOD, [], 0)]), 1, 254, [],
        seq(254, i requires 0 <= i < 254 => Execution(Cmd(i), [RC_OK])))
  }

  ghost function AllTold256(): set<Command> { set i: nat | i < 256 :: Cmd(i) }

  /** The missing command arrives; later, any other frame. */
  function TwoCalls(): seq<Call> { [Got(CommandFrame(Cmd(254))), Got(Frame(0, []))] }

  lemma BeforeLastReady()
    ensures Ready(LongRun(), BeforeLast(), AllTold256(), 0)
  {
    var u := BeforeLast();
    assert forall i :: 0 <= i < 254 ==> Cmd(i) in AllTold256();
    assert Cmd(255) in AllTold256();
    assert Sound(u, AllTold256());
  }

  /** What the first call does under either clock: both commands run, 254 is filed at time
      zero, and the last reading is not a scan. */
  lemma FirstCall(env: Env) returns (u1: Run)
    requires env == Wrapping(LongRun()) || env == Unbounded(LongRun())
    ensures u1 == Apply(env, BeforeLast(), TwoCalls()[0])
    ensures u1.readings == 6 && u1.node.base == 256 && u1.node.active
    ensures u1.node.live.Keys == {254, 255} && u1.node.live[254] == Executed(SET_PERIOD, [], [RC_OK], 0, 0, 0)
  {
    NothingExpires(env);
    IsStored(env);
    StoringFrame(env, BeforeLast(), CommandFrame(Cmd(254)));
    u1 := BothRun(env, Stored(env, BeforeLast(), CommandFrame(Cmd(254))));
  }

  lemma NothingExpires(env: Env)
    requires env == Wrapping(LongRun()) || env == Unbounded(LongRun())
    ensures Scan(env, BeforeLast()) == BeforeLast().(readings := 2)
  {
    assert Scan(env, BeforeLast()).node.live == BeforeLast().node.live;
  }

  lemma IsStored(env: Env)
    requires Scan(env, BeforeLast()) == BeforeLast().(readings := 2) && env.Read(1) == 0
    ensures Stores(Scan(env, BeforeLast()).node, CommandFrame(Cmd(254)))
    ensures Stored(env, BeforeLast(), CommandFrame(Cmd(254))).readings == 2
    ensures Stored(env, BeforeLast(), CommandFrame(Cmd(254))).node
         == Node(1, 254, true, map[254 := Buffered(SET_PERIOD, [], 0), 255 := Buffered(SET_PERIOD, [], 0)])
  {
    BodyFields(1, 254, SET_PERIOD, []);
  }

  lemma BothRun(env: Env, s: Run) returns (u1: Run)
    requires env == Wrapping(LongRun()) || env == Unbounded(LongRun())
    requires s.node == Node(1, 254, true, map[254 := Buffered(SET_PERIOD, [], 0), 255 := Buffered(SET_PERIOD, [], 0)])
    requires s.readings == 2
    ensures u1 == Deliver(env, s)
    ensures u1.readings == 6 && u1.node.base == 256 && u1.node.active
    ensures u1.node.live.Keys == {254, 255} && u1.node.live[254] == Executed(SET_PERIOD, [], [RC_OK], 0, 0, 0)
  {
    var a := Scan(env, s);
    assert a.node.live == s.node.live;
    var b := Execute(env, a);
    var c := Scan(env, b);
    assert c.node.live == b.node.live;
    u1 := Execute(env, c);
    assert Deliver(env, u1) == u1;
    assert Deliver(env, b) == u1;
  }

  lemma SecondCall(env: Env, u1: Run)
    requires u1.readings == 6 && u1.node.base == 256
    requires u1.node.live.Keys == {254, 255} && u1.node.live[254] == Executed(SET_PERIOD, [], [RC_OK], 0, 0, 0)
    ensures env == Wrapping(LongRun()) ==> 254 in Apply(env, u1, TwoCalls()[1]).node.live
    ensures env == Unbounded(LongRun()) ==> 254 !in Apply(env, u1, TwoCalls()[1]).node.live
    ensures Apply(env, u1, TwoCalls()[1]).readings == 7
  {}

  /** A node in a sound state at rest, calls spaced as required by readings, and yet the
      counter shows: a result that is a full turn old is kept as fresh. */
  lemma LastReadingIsNotEnough()
    ensures Monotone(LongRun().clock) && Same(BeforeLast(), BeforeLast())
    ensures Ready(LongRun(), BeforeLast(), AllTold256(), 0) && AllTold(TwoCalls(), AllTold256())
    ensures ReadingSpaced(LongRun(), BeforeLast(), TwoCalls(), 0)
    ensures !Same(ApplyAll(Wrapping(LongRun()), BeforeLast(), TwoCalls()), ApplyAll(Unbounded(LongRun()), BeforeLast(), TwoCalls()))
  {
    ClockAndStart();
    BeforeLastReady();
    CallsTold();
    CallsSpaced();
    CounterShows();
  }

  lemma ClockAndStart()
    ensures Monotone(LongRun().clock) && Same(BeforeLast(), BeforeLast())
  {}

  lemma CallsTold()
    ensures AllTold(TwoCalls(), AllTold256())
  {
    BodyFields(1, 254, SET_PERIOD, []);
    assert Cmd(254) in AllTold256();
  }

  lemma CallsSpaced()
    ensures ReadingSpaced(LongRun(), BeforeLast(), TwoCalls(), 0)
  {
    var env, calls := LongRun(), TwoCalls();
    var u1 := FirstCall(Unbounded(env));
    SecondCall(Unbounded(env), u1);
    assert calls[1..] == [calls[1]];
    assert ReadingSpaced(env, Apply(Unbounded(env), u1, calls[1]), [], WRAP);
    assert ReadingSpaced(env, u1, [calls[1]], env.clock(5));
  }

  lemma CounterShows()
    ensures !Same(ApplyAll(Wrapping(LongRun()), BeforeLast(), TwoCalls()), ApplyAll(Unbounded(LongRun()), BeforeLast(), TwoCalls()))
  {
    var calls := TwoCalls();
    var w1 := FirstCall(Wrapping(LongRun()));
    var u1 := FirstCall(Unbounded(LongRun()));
    SecondCall(Wrapping(LongRun()), w1);
    SecondCall(Unbounded(LongRun()), u1);
    TwoApplied(Wrapping(LongRun()), BeforeLast(), calls[0], calls[1]);
    TwoApplied(Unbounded(LongRun()), BeforeLast(), calls[0], calls[1]);
  }

  lemma TwoApplied(env: Env, u: Run, a: Call, b: Call)
    ensures ApplyAll(env, u, [a, b]) == Apply(env, Apply(env, u, a), b)
  {
    assert [a, b][1..] == [b] && [b][1..] == [];
    assert ApplyAll(env, Apply(env, u, a), [b]) == Apply(env, Apply(env, u, a), b);
  }
}
