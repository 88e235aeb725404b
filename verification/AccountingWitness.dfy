/** The accounting model is not empty: a run in which a message is answered and the
    gateway shuts down. */
module AccountingWitness {
  import opened Mailbox
  import opened Accounting
  import opened AccountingTheorems

  lemma Extend(states: seq<Gate>, h: Gate)
    requires Run(states) && Step(states[|states| - 1], h)
    ensures Run(states + [h])
  {
    var more := states + [h];
    forall i | 0 < i < |more| ensures Step(more[i - 1], more[i]) {
      if i < |states| { assert Step(states[i - 1], states[i]); }
    }
  }

  /** After start-up: a message waits in the core mailbox. */
  function Waiting(): Gate { Start().(tickets := 1, admitted := 1, core := Box([Mqtt(0)], false)) }

  /** Its answer waits in the management mailbox. */
  function Answered(): Gate { Start().(tickets := 1, admitted := 1, manage := Box([Publish(0)], false)) }

  /** Published and released; the destructor has come to `stage`. */
  function Settled(stage: nat): Gate {
    Start().(tickets := 1, published := multiset{0}, released := multiset{0}, stage := stage, shut := stage >= 2,
             lookups := Box([], stage >= 5), core := Box([], stage >= 6), manage := Box([], stage >= 7), passed := stage >= 5)
  }

  lemma Arrives() returns (states: seq<Gate>)
    ensures Run(states) && states[|states| - 1] == Waiting()
  {
    states := [Start()];
    MayKnock();
    Extend(states, Knocking());
    states := states + [Knocking()];
    MayEnter();
    Extend(states, Waiting());
    states := states + [Waiting()];
  }

  function Knocking(): Gate { Start().(tickets := 1, admitted := 1, entering := multiset{0}) }

  lemma MayKnock()
    ensures Step(Start(), Knocking())
  {
    assert Arrive(Start(), Knocking());
  }

  lemma MayEnter()
    ensures Step(Knocking(), Waiting())
  {
    assert multiset{0} - multiset{0} == multiset{};
    assert Enter(Knocking(), Waiting(), 0);
  }

  lemma IsAnswered(states: seq<Gate>) returns (more: seq<Gate>)
    requires Run(states) && states[|states| - 1] == Waiting()
    ensures Run(more) && more[|more| - 1] == Answered()
  {
    more := states;
    var g := Start().(tickets := 1, admitted := 1, work := Translating(0));
    assert Begin(Waiting(), g);
    Extend(more, g);
    more := more + [g];
    var h := g.(work := Publishing(0));
    assert Translate(g, h, false);
    Extend(more, h);
    more := more + [h];
    assert PostPublish(h, Answered());
    Extend(more, Answered());
    more := more + [Answered()];
  }

  lemma IsPublished(states: seq<Gate>) returns (more: seq<Gate>)
    requires Run(states) && states[|states| - 1] == Answered()
    ensures Run(more) && more[|more| - 1] == Settled(0)
  {
    more := states;
    var g := Start().(tickets := 1, admitted := 1, managing := Sending(0));
    assert ManageBegin(Answered(), g);
    Extend(more, g);
    more := more + [g];
    var h := g.(managing := Sent(0), published := multiset{0});
    assert MqttPublish(g, h);
    Extend(more, h);
    more := more + [h];
    assert ReleaseCredit(h, Settled(0));
    Extend(more, Settled(0));
    more := more + [Settled(0)];
  }

  lemma {:induction false} Retires(states: seq<Gate>, stage: nat) returns (more: seq<Gate>)
    requires Run(states) && stage <= 3 && states[|states| - 1] == Settled(stage)
    ensures Run(more) && more[|more| - 1] == Settled(3)
    decreases 3 - stage
  {
    if stage == 3 { return states; }
    assert Retire(Settled(stage), Settled(stage + 1));
    Extend(states, Settled(stage + 1));
    more := Retires(states + [Settled(stage + 1)], stage + 1);
  }

  lemma PassesBarrier(states: seq<Gate>) returns (more: seq<Gate>)
    requires Run(states) && states[|states| - 1] == Settled(3)
    ensures Run(more) && more[|more| - 1] == Settled(4).(passed := true)
  {
    more := states;
    var g, h := Settled(4).(core := Box([Barrier], false)), Settled(4).(work := AtBarrier);
    MayPostBarrier(g);
    Extend(more, g);
    more := more + [g];
    MayPass(g, h);
    Extend(more, h);
    more := more + [h];
    Extend(more, Settled(4).(passed := true));
    more := more + [Settled(4).(passed := true)];
  }

  lemma MayPostBarrier(g: Gate)
    requires g == Settled(4).(core := Box([Barrier], false))
    ensures PostBarrier(Settled(3), g)
  {}

  lemma MayPass(g: Gate, h: Gate)
    requires g == Settled(4).(core := Box([Barrier], false)) && h == Settled(4).(work := AtBarrier)
    ensures Begin(g, h) && Pass(h, Settled(4).(passed := true))
  {}

  lemma {:induction false} Closes(states: seq<Gate>, stage: nat) returns (more: seq<Gate>)
    requires Run(states) && 4 <= stage <= 8 && states[|states| - 1] == Settled(stage).(passed := true)
    ensures Run(more) && more[|more| - 1] == Settled(8)
    decreases 8 - stage
  {
    if stage == 8 { return states; }
    assert Close(Settled(stage).(passed := true), Settled(stage + 1));
    Extend(states, Settled(stage + 1));
    more := Closes(states + [Settled(stage + 1)], stage + 1);
  }

  /** Runs to the very end exist, with a message answered on the way. */
  lemma AnsweredAndShutDown() returns (states: seq<Gate>)
    ensures Run(states) && Finale(states[|states| - 1])
    ensures states[|states| - 1].tickets == 1 && states[|states| - 1].published == multiset{0}
  {
    states := Arrives();
    states := IsAnswered(states);
    states := IsPublished(states);
    states := Retires(states, 0);
    states := PassesBarrier(states);
    states := Closes(states, 4);
  }
}
