/** The sending side over a whole history: one tracker, everything it handed to the
    output queue, every command it accepted and every completion it reported, under
    arbitrary inputs (also frames nobody sent and write reports nobody asked for). */
module Sender {
  import opened Protocol
  import opened Tracker
  import opened Sends

  datatype Input =
    | Restart(asked: U64, now: int)
    | Offer(kind: Byte, args: Bytes, now: int)
    | Written(send: Send, ok: bool, now: int)
    | Clock(now: int)
    | Got(frame: Frame, now: int)

  datatype Report = Report(session: U64, done: Completion)

  datatype Ledger = Ledger(t: Tracker, issued: seq<Send>, subs: seq<Command>, reports: seq<Report>)

  function React(t: Tracker, input: Input): Turn
    requires Shape(t)
  {
    match input
    case Restart(asked, now) => Start(t, asked, now)
    case Offer(kind, args, now) => Submit(t, kind, args, now)
    case Written(send, ok, now) => OnWritten(t, send, ok, now)
    case Clock(now) => Tick(t, now)
    case Got(f, now) => OnFrame(t, f, now)
  }

  function Reports(session: U64, finished: seq<Completion>): (rs: seq<Report>)
    ensures |rs| == |finished|
    ensures forall i :: 0 <= i < |rs| ==> rs[i] == Report(session, finished[i])
  {
    seq(|finished|, i requires 0 <= i < |finished| => Report(session, finished[i]))
  }

  function Submitted(t: Tracker, input: Input): seq<Command> {
    if input.Offer? && Accepts(t, input.args) then [Command(t.session, t.next, input.kind, input.args)] else []
  }

  function Advance(l: Ledger, input: Input): Ledger
    requires Shape(l.t)
  {
    var turn := React(l.t, input);
    Ledger(turn.t, l.issued + turn.send, l.subs + Submitted(l.t, input),
           l.reports + Reports(l.t.session, turn.finished))
  }

  // ================================================================ invariant

  /** The command a transmission carries. */
  function CommandOf(s: Send): Command
    requires |s.tail| >= 2
  {
    Command(s.session, s.tail[0], s.tail[1], s.tail[2..])
  }

  ghost predicate Before(a: Command, b: Command) {
    a.session < b.session || (a.session == b.session && a.num < b.num)
  }

  ghost predicate Ordered(subs: seq<Command>) {
    forall i, j :: 0 <= i < j < |subs| ==> Before(subs[i], subs[j])
  }

  /** Submissions are logged in (session, number) order and none is ahead of the window. */
  ghost predicate SubsOk(l: Ledger) {
    && Ordered(l.subs)
    && (forall c :: c in l.subs ==> c.session <= l.t.session && (c.session == l.t.session ==> c.num < l.t.next))
    && (forall q :: q in l.t.entries ==>
          Command(l.t.session, q, l.t.entries[q].kind, l.t.entries[q].args) in l.subs)
  }

  ghost predicate IssuedOk(l: Ledger) {
    && History(l.t, l.issued)
    && forall x :: x in l.issued && x.kind == SR_COMMAND ==> |x.tail| >= 2 && CommandOf(x) in l.subs
  }

  ghost predicate Closes(r: Report, c: Command) { r.session == c.session && r.done.num == c.num }

  ghost predicate InFlight(l: Ledger, c: Command) { c.session == l.t.session && c.num in l.t.entries }

  ghost predicate Ended(l: Ledger, c: Command) { exists i :: 0 <= i < |l.reports| && Closes(l.reports[i], c) }

  ghost predicate Stands(l: Ledger, r: Report) {
    exists c :: c in l.subs && Closes(r, c) && c.kind == r.done.kind && !InFlight(l, c)
  }

  /** Every submission is in flight or has been reported, and reported only once. */
  ghost predicate Accounted(l: Ledger) {
    && (forall c :: c in l.subs ==> InFlight(l, c) || Ended(l, c))
    && (forall i :: 0 <= i < |l.reports| ==> Stands(l, l.reports[i]))
    && (forall i, j :: 0 <= i < j < |l.reports| ==>
          l.reports[i].session != l.reports[j].session || l.reports[i].done.num != l.reports[j].done.num)
  }

  ghost predicate Inv(l: Ledger) { Valid(l.t) && SubsOk(l) && IssuedOk(l) && Accounted(l) }

  ghost predicate Init(l: Ledger) { l == Ledger(Initial(), [], [], []) }

  lemma InitInv(l: Ledger)
    requires Init(l)
    ensures Inv(l)
  {}

  // -------------------------------------------------------------------- steps

  lemma ReactKeeps(t: Tracker, input: Input)
    requires Valid(t)
    ensures Valid(React(t, input).t) && GoodOutput(t, React(t, input))
    ensures !input.Offer? ==> Settles(t.entries, React(t, input).t.entries, React(t, input).finished)
  {
    match input
    case Restart(asked, now) =>
      StartKeeps(t, asked, now);
      EndSessionOutput(t, asked, -1, SessionAborted, now);
    case Offer(kind, args, now) =>
      SubmitKeeps(t, kind, args, now);
      SubmitOutput(t, kind, args, now);
    case Written(send, ok, now) =>
      OnWrittenKeeps(t, send, ok, now);
      OnWrittenOutput(t, send, ok, now);
    case Clock(now) =>
      TickKeeps(t, now);
      TickOutput(t, now);
    case Got(f, now) =>
      OnFrameKeeps(t, f, now);
      OnFrameOutput(t, f, now);
  }

  lemma SubsGrow(l: Ledger, input: Input)
    requires Valid(l.t) && SubsOk(l)
    ensures SubsOk(Advance(l, input))
  {
    if input.Offer? && Accepts(l.t, input.args) {
      SubsAppend(l, input);
    } else if !input.Offer? {
      ReactKeeps(l.t, input);
      SubsMove(l, React(l.t, input).t);
      assert l.subs + [] == l.subs;
    } else {
      assert l.subs + [] == l.subs;
    }
  }

  lemma SubsAppend(l: Ledger, input: Input)
    requires Valid(l.t) && SubsOk(l) && input.Offer? && Accepts(l.t, input.args)
    ensures SubsOk(Advance(l, input))
  {
    var l1 := Advance(l, input);
    var c := Command(l.t.session, l.t.next, input.kind, input.args);
    assert l1.subs == l.subs + [c] && l1.subs[|l.subs|] == c;
    assert forall q :: q in l.t.entries ==> EntryOk(l.t, q, l.t.entries[q]);
  }

  lemma SubsMove(l: Ledger, t1: Tracker)
    requires Valid(l.t) && SubsOk(l) && Moves(l.t, t1) && forall q :: q in t1.entries ==> q in l.t.entries
    ensures SubsOk(l.(t := t1))
  {
    assert forall q :: q in l.t.entries ==> EntryOk(l.t, q, l.t.entries[q]);
  }

  lemma IssuedGrow(l: Ledger, input: Input)
    requires Valid(l.t) && SubsOk(l) && IssuedOk(l)
    ensures IssuedOk(Advance(l, input))
  {
    ReactKeeps(l.t, input);
    SubsGrow(l, input);
    var l1, turn := Advance(l, input), React(l.t, input);
    HistoryGrows(l.t, turn, l.issued);
    forall x | x in l1.issued && x.kind == SR_COMMAND ensures |x.tail| >= 2 && CommandOf(x) in l1.subs {
      if x !in l.issued {
        assert New(l.t, turn.t, x);
        var e := l1.t.entries[x.num];
        assert x.tail == [x.num, e.kind] + e.args;
        assert CommandOf(x) == Command(l1.t.session, x.num, e.kind, e.args);
      }
    }
  }

  /** Two submissions with the same session and number are the same submission. */
  lemma SameKey(subs: seq<Command>, a: Command, b: Command)
    requires Ordered(subs) && a in subs && b in subs && a.session == b.session && a.num == b.num
    ensures a == b
  {
    var i :| 0 <= i < |subs| && subs[i] == a;
    var j :| 0 <= j < |subs| && subs[j] == b;
  }

  lemma ReportsStand(l: Ledger, l1: Ledger, finished: seq<Completion>)
    requires SubsOk(l) && Accounted(l) && Moves(l.t, l1.t) && Settles(l.t.entries, l1.t.entries, finished)
    requires l1.subs == l.subs && l1.reports == l.reports + Reports(l.t.session, finished)
    ensures forall i :: 0 <= i < |l1.reports| ==> Stands(l1, l1.reports[i])
  {
    forall i | 0 <= i < |l1.reports| ensures Stands(l1, l1.reports[i]) {
      var r := l1.reports[i];
      if i < |l.reports| {
        assert Stands(l, r);
      } else {
        var d := finished[i - |l.reports|];
        var e := l.t.entries[d.num];
        assert Closes(r, Command(l.t.session, d.num, e.kind, e.args));
      }
    }
  }

  lemma ReportsCover(l: Ledger, l1: Ledger, finished: seq<Completion>, c: Command)
    requires SubsOk(l) && Accounted(l) && Moves(l.t, l1.t) && Settles(l.t.entries, l1.t.entries, finished)
    requires l1.reports == l.reports + Reports(l.t.session, finished) && c in l.subs
    ensures InFlight(l1, c) || Ended(l1, c)
  {
    if Ended(l, c) {
      var i :| 0 <= i < |l.reports| && Closes(l.reports[i], c);
      assert Closes(l1.reports[i], c);
    } else if c.num !in l1.t.entries {
      var i :| 0 <= i < |finished| && finished[i].num == c.num;
      assert Closes(l1.reports[|l.reports| + i], c);
    }
  }

  lemma ReportsDistinct(l: Ledger, finished: seq<Completion>, after: map<Byte, Pending>)
    requires Accounted(l) && Settles(l.t.entries, after, finished)
    ensures var rs := l.reports + Reports(l.t.session, finished);
            forall i, j :: 0 <= i < j < |rs| ==> rs[i].session != rs[j].session || rs[i].done.num != rs[j].done.num
  {
    var rs := l.reports + Reports(l.t.session, finished);
    forall i, j | 0 <= i < j < |rs| ensures rs[i].session != rs[j].session || rs[i].done.num != rs[j].done.num {
      if i < |l.reports| <= j { assert Stands(l, rs[i]); }
    }
  }

  lemma AccountsStep(l: Ledger, l1: Ledger, finished: seq<Completion>)
    requires SubsOk(l) && Accounted(l) && Moves(l.t, l1.t) && Settles(l.t.entries, l1.t.entries, finished)
    requires l1.subs == l.subs && l1.reports == l.reports + Reports(l.t.session, finished)
    ensures Accounted(l1)
  {
    ReportsStand(l, l1, finished);
    ReportsDistinct(l, finished, l1.t.entries);
    forall c | c in l.subs ensures InFlight(l1, c) || Ended(l1, c) { ReportsCover(l, l1, finished, c); }
  }

  lemma AccountsMove(l: Ledger, input: Input)
    requires Inv(l) && !input.Offer?
    ensures Accounted(Advance(l, input))
  {
    ReactKeeps(l.t, input);
    assert l.subs + [] == l.subs;
    AccountsStep(l, Advance(l, input), React(l.t, input).finished);
  }

  lemma AccountsGrow(l: Ledger, input: Input)
    requires Inv(l) && input.Offer?
    ensures Accounted(Advance(l, input))
  {
    var l1 := Advance(l, input);
    assert l1.reports == l.reports;
    SubmitKeeps(l.t, input.kind, input.args, input.now);
    forall c | c in l1.subs ensures InFlight(l1, c) || Ended(l1, c) {
      if c in l.subs && Ended(l, c) {
        var i :| 0 <= i < |l.reports| && Closes(l.reports[i], c);
        assert Closes(l1.reports[i], c);
      } else {
        assert l.t.next in l1.t.entries.Keys || l1.t == l.t;
        assert c.num in l.t.entries ==> c.num in l1.t.entries.Keys;
      }
    }
    forall i | 0 <= i < |l1.reports| ensures Stands(l1, l1.reports[i]) {
      var c :| c in l.subs && Closes(l.reports[i], c) && c.kind == l.reports[i].done.kind && !InFlight(l, c);
      assert c.num in l1.t.entries ==> c.num in l1.t.entries.Keys;
      assert c in l1.subs && !InFlight(l1, c);
    }
  }

  lemma AdvanceInv(l: Ledger, input: Input)
    requires Inv(l)
    ensures Inv(Advance(l, input))
  {
    ReactKeeps(l.t, input);
    SubsGrow(l, input);
    IssuedGrow(l, input);
    if input.Offer? { AccountsGrow(l, input); } else { AccountsMove(l, input); }
  }
}
