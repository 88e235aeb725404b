/** The node's receiver as it is stored and run: sixteen slots updated in place. Every
    entry point does exactly what the state machine in `Receiver` does. */
module SlotReceiver {
  import opened Protocol
  import opened Receiver

  /** state: 0 free, 1 buffered, 2 executed and awaiting its acknowledgement. Fields a
      state does not use keep whatever the slot held before. */
  datatype Slot = Slot(state: Byte, num: Byte, command: Byte, args: Bytes, result: Bytes,
                       receivedAt: nat, completedAt: nat, sentAt: nat, retries: nat)

  const FREE: Slot := Slot(0, 0, 0, [], [], 0, 0, 0, 0)

  /** The caller's hooks: a clock, an executor and a transmitter, with their logs. */
  class Hooks {
    ghost const env: Env
    const clock: nat -> nat
    const reply: nat -> Reply
    const modulus: nat
    var readings: nat
    var runs: nat
    var out: seq<Frame>
    ghost var ran: seq<Execution>

    constructor (clock: nat -> nat, reply: nat -> Reply, modulus: nat)
      ensures env == Env(clock, reply, modulus) && Valid()
      ensures readings == 0 && runs == 0 && out == [] && ran == []
    {
      this.clock, this.reply, this.modulus := clock, reply, modulus;
      env := Env(clock, reply, modulus);
      readings, runs, out, ran := 0, 0, [], [];
    }

    ghost predicate Valid() { env == Env(clock, reply, modulus) }

    method NowMs() returns (t: nat)
      requires Valid()
      modifies this`readings
      ensures t == env.Read(old(readings)) && readings == old(readings) + 1
    {
      t := if modulus == 0 then clock(readings) else clock(readings) % modulus;
      readings := readings + 1;
    }

    /** Runs a command; the k-th run answers with the k-th reply. */
    method Execute(num: Byte, command: Byte, args: Bytes) returns (r: Reply)
      requires Valid()
      modifies this`runs
      ensures r == env.reply(old(runs)) && runs == old(runs) + 1
    {
      r := reply(runs);
      runs := runs + 1;
    }

    method Emit(f: Frame)
      modifies this`out
      ensures out == old(out) + [f]
    {
      out := out + [f];
    }

    /** Wrapped subtraction, as the C code writes it. */
    method Since(now: nat, stamp: nat) returns (d: int)
      requires Valid()
      ensures d == env.Elapsed(now, stamp)
    {
      d := if modulus == 0 then now - stamp else (now - stamp) % modulus;
    }
  }

  // ------------------------------------------------------------- slots and map

  ghost function EntryOf(s: Slot): Entry {
    if s.state == 1 then Buffered(s.command, s.args, s.receivedAt)
    else Executed(s.command, s.args, s.result, s.completedAt, s.sentAt, s.retries)
  }

  /** The slots hold exactly the entries of `live`, each number once. */
  ghost predicate Represents(slots: seq<Slot>, live: map<Byte, Entry>) {
    && (forall i :: 0 <= i < |slots| ==> slots[i].state <= 2)
    && (forall i :: 0 <= i < |slots| && slots[i].state != 0 ==>
          slots[i].num in live && live[slots[i].num] == EntryOf(slots[i]))
    && (forall q :: q in live ==> Holds(slots, q))
    && (forall i, j :: 0 <= i < j < |slots| && slots[i].state != 0 && slots[j].state != 0 ==>
          slots[i].num != slots[j].num)
  }

  ghost predicate Holds(slots: seq<Slot>, q: Byte) {
    exists i :: 0 <= i < |slots| && slots[i].state != 0 && slots[i].num == q
  }

  lemma FreeOne(slots: seq<Slot>, live: map<Byte, Entry>, i: nat)
    requires Represents(slots, live) && i < |slots| && slots[i].state != 0
    ensures Represents(slots[i := slots[i].(state := 0)], live - {slots[i].num})
  {
    var s1, rest := slots[i := slots[i].(state := 0)], live - {slots[i].num};
    forall q | q in rest ensures Holds(s1, q) {
      var j :| 0 <= j < |slots| && slots[j].state != 0 && slots[j].num == q;
      assert s1[j] == slots[j];
    }
  }

  lemma ChangeOne(slots: seq<Slot>, live: map<Byte, Entry>, i: nat, s: Slot)
    requires Represents(slots, live) && i < |slots| && slots[i].state != 0
    requires s.num == slots[i].num && 0 < s.state <= 2
    ensures Represents(slots[i := s], live[s.num := EntryOf(s)])
  {
    var s1, more := slots[i := s], live[s.num := EntryOf(s)];
    forall q | q in more ensures Holds(s1, q) {
      if q == s.num {
        assert s1[i].num == q;
      } else {
        var j :| 0 <= j < |slots| && slots[j].state != 0 && slots[j].num == q;
        assert s1[j] == slots[j];
      }
    }
  }

  lemma FillOne(slots: seq<Slot>, live: map<Byte, Entry>, i: nat, s: Slot)
    requires Represents(slots, live) && i < |slots| && slots[i].state == 0
    requires s.num !in live && 0 < s.state <= 2
    ensures Represents(slots[i := s], live[s.num := EntryOf(s)])
  {
    var s1, more := slots[i := s], live[s.num := EntryOf(s)];
    forall q | q in more ensures Holds(s1, q) {
      if q == s.num {
        assert s1[i].num == q;
      } else {
        var j :| 0 <= j < |slots| && slots[j].state != 0 && slots[j].num == q;
        assert s1[j] == slots[j];
      }
    }
  }

  /** Numbers of the occupied slots. */
  ghost function Taken(slots: seq<Slot>): set<Byte> {
    set i | 0 <= i < |slots| && slots[i].state != 0 :: slots[i].num
  }

  lemma {:induction false} TakenSize(slots: seq<Slot>)
    requires forall i, j :: 0 <= i < j < |slots| && slots[i].state != 0 && slots[j].state != 0 ==>
               slots[i].num != slots[j].num
    ensures |Taken(slots)| <= |slots|
    ensures |Taken(slots)| == |slots| <==> forall i :: 0 <= i < |slots| ==> slots[i].state != 0
    decreases |slots|
  {
    if slots != [] {
      var n := |slots| - 1;
      var front, last := slots[..n], slots[n];
      TakenSize(front);
      if last.state == 0 {
        assert Taken(slots) == Taken(front);
      } else {
        assert Taken(slots) == Taken(front) + {last.num};
        assert last.num !in Taken(front);
      }
    }
  }

  /** The pool is full exactly when no slot is free. */
  lemma PoolFull(slots: seq<Slot>, live: map<Byte, Entry>)
    requires Represents(slots, live)
    ensures |live| <= |slots|
    ensures |live| == |slots| <==> forall i :: 0 <= i < |slots| ==> slots[i].state != 0
  {
    TakenSize(slots);
    forall q ensures q in Taken(slots) <==> q in live.Keys {
      if q in live { assert Holds(slots, q); }
    }
    assert Taken(slots) == live.Keys;
    assert |live| == |live.Keys|;
  }

  // ------------------------------------------------- an expiry pass, slot by slot

  /** The first i slots have been looked at: what was stale is gone, nothing else is,
      and no overdue follower of a gap was seen. */
  ghost predicate Partway(env: Env, now: nat, gap: bool, all: map<Byte, Entry>,
                          slots: seq<Slot>, live: map<Byte, Entry>, i: nat) {
    && |slots| == POOL && i <= POOL && Represents(slots, live)
    && (forall q :: q in live ==> q in all && live[q] == all[q])
    && (forall q :: q in all && q !in live ==> Stale(env, now, all[q]))
    && (forall j :: 0 <= j < i && slots[j].state != 0 ==>
          !Stale(env, now, EntryOf(slots[j])) && (gap ==> !Overdue(env, now, EntryOf(slots[j]))))
  }

  lemma PartwayFree(env: Env, now: nat, gap: bool, all: map<Byte, Entry>,
                    slots: seq<Slot>, live: map<Byte, Entry>, i: nat)
    requires Partway(env, now, gap, all, slots, live, i) && i < POOL
    requires slots[i].state == 2 && Stale(env, now, EntryOf(slots[i]))
    ensures Partway(env, now, gap, all, slots[i := slots[i].(state := 0)], live - {slots[i].num}, i + 1)
  {
    FreeOne(slots, live, i);
  }

  lemma PartwayDone(env: Env, now: nat, n: Node, slots: seq<Slot>, live: map<Byte, Entry>)
    requires Partway(env, now, Gap(n), n.live, slots, live, POOL)
    ensures Expire(env, n, now) == n.(live := live)
  {
    forall q | q in live ensures !Stale(env, now, live[q]) && (Gap(n) ==> !Overdue(env, now, live[q])) {
      assert Holds(slots, q);
    }
    assert forall q :: q in n.live && Overdue(env, now, n.live[q]) ==> q in live;
    assert live == map q | q in n.live && !Stale(env, now, n.live[q]) :: n.live[q];
  }

  // ------------------------------------------------- a resend pass, slot by slot

  /** The first i slots have been looked at; `order` lists the due ones among them. */
  ghost predicate Swept(env: Env, now: nat, n: Node, slots: seq<Slot>, live: map<Byte, Entry>,
                        order: seq<Byte>, i: nat) {
    && n.active && |slots| == POOL && i <= POOL && Represents(slots, live) && live.Keys == n.live.Keys
    && Distinct(order) && Bumped(env, now, n, live, order) && Marked(env, now, n, slots, order, i)
  }

  ghost predicate Bumped(env: Env, now: nat, n: Node, live: map<Byte, Entry>, order: seq<Byte>)
    requires live.Keys == n.live.Keys
  {
    && (forall q :: q in order ==>
          && q in n.live && Due(env, now, n.live[q])
          && live[q] == n.live[q].(retries := n.live[q].retries + 1, sentAt := now))
    && (forall q :: q in live && q !in order ==> live[q] == n.live[q])
  }

  lemma BumpedOne(env: Env, now: nat, n: Node, live: map<Byte, Entry>, order: seq<Byte>, q: Byte, e: Entry)
    requires live.Keys == n.live.Keys && Bumped(env, now, n, live, order) && q in live && q !in order
    requires Due(env, now, live[q]) && e == live[q].(retries := live[q].retries + 1, sentAt := now)
    ensures live[q := e].Keys == n.live.Keys && Bumped(env, now, n, live[q := e], order + [q])
  {
    assert live[q := e].Keys == live.Keys;
  }

  ghost predicate Marked(env: Env, now: nat, n: Node, slots: seq<Slot>, order: seq<Byte>, i: nat)
    requires |slots| == POOL && forall j :: 0 <= j < POOL && slots[j].state != 0 ==> slots[j].num in n.live
  {
    && (forall j :: 0 <= j < i && j < POOL && slots[j].state != 0 && Due(env, now, n.live[slots[j].num]) ==> slots[j].num in order)
    && (forall j :: i <= j < POOL && slots[j].state != 0 ==> slots[j].num !in order)
  }

  lemma SweptOne(env: Env, now: nat, n: Node, slots: seq<Slot>, live: map<Byte, Entry>, order: seq<Byte>, i: nat, s: Slot)
    requires Swept(env, now, n, slots, live, order, i) && i < POOL && slots[i].state == 2
    requires Due(env, now, EntryOf(slots[i])) && s == slots[i].(retries := slots[i].retries + 1, sentAt := now)
    ensures s.num in n.live && n.live[s.num] == EntryOf(slots[i])
    ensures Swept(env, now, n, slots[i := s], live[s.num := EntryOf(s)], order + [s.num], i + 1)
  {
    ChangeOne(slots, live, i, s);
    assert s.num in live.Keys;
    BumpedOne(env, now, n, live, order, s.num, EntryOf(s));
    MarkedOne(env, now, n, slots, order, i, s);
    DistinctSnoc(order, s.num);
  }

  lemma DistinctSnoc(order: seq<Byte>, q: Byte)
    requires Distinct(order) && q !in order
    ensures Distinct(order + [q])
  {}

  lemma MarkedOne(env: Env, now: nat, n: Node, slots: seq<Slot>, order: seq<Byte>, i: nat, s: Slot)
    requires |slots| == POOL && i < POOL && forall j :: 0 <= j < POOL && slots[j].state != 0 ==> slots[j].num in n.live
    requires forall j, k :: 0 <= j < k < POOL && slots[j].state != 0 && slots[k].state != 0 ==> slots[j].num != slots[k].num
    requires Marked(env, now, n, slots, order, i) && slots[i].state != 0 && s.num == slots[i].num && s.num in n.live
    ensures Marked(env, now, n, slots[i := s], order + [s.num], i + 1)
  {}

  lemma SweptNone(env: Env, now: nat, n: Node, slots: seq<Slot>, live: map<Byte, Entry>, order: seq<Byte>, i: nat)
    requires Swept(env, now, n, slots, live, order, i) && i < POOL
    requires slots[i].state != 2 || !Due(env, now, EntryOf(slots[i]))
    ensures Swept(env, now, n, slots, live, order, i + 1)
  {
    if slots[i].state != 0 { assert slots[i].num in live.Keys && live[slots[i].num] == n.live[slots[i].num]; }
  }

  /** The result of a due slot joins those already listed. */
  lemma SweptResults(env: Env, now: nat, n: Node, slots: seq<Slot>, live: map<Byte, Entry>, order: seq<Byte>, i: nat)
    requires Swept(env, now, n, slots, live, order, i) && i < POOL && slots[i].state == 2
    requires slots[i].num in n.live && n.live[slots[i].num] == EntryOf(slots[i])
    ensures forall p :: p in order + [slots[i].num] ==> p in n.live && n.live[p].Executed?
    ensures Results(n, order + [slots[i].num])
         == Results(n, order) + [ResultFrame(n.session, slots[i].num, slots[i].command, slots[i].result)]
  {
    ResultsSnoc(n, order, slots[i].num);
  }

  lemma ResultsSnoc(n: Node, order: seq<Byte>, q: Byte)
    requires forall p :: p in order ==> p in n.live && n.live[p].Executed?
    requires q in n.live && n.live[q].Executed?
    ensures Results(n, order + [q]) == Results(n, order) + [ResultOf(n, q)]
  {}

  lemma InactiveTick(env: Env, n: Node, now: nat)
    requires !n.active
    ensures Lists([], DueSet(env, n, now)) && Resend(env, n, now) == n
  {
    assert Resend(env, n, now).live == n.live;
  }

  lemma SweptAll(env: Env, now: nat, n: Node, slots: seq<Slot>, live: map<Byte, Entry>, order: seq<Byte>)
    requires Swept(env, now, n, slots, live, order, POOL)
    ensures Lists(order, DueSet(env, n, now)) && Resend(env, n, now) == n.(live := live)
  {
    forall q | q in n.live && Due(env, now, n.live[q]) ensures q in order {
      assert Holds(slots, q);
    }
    assert DueSet(env, n, now) == set q | q in order;
    assert Resend(env, n, now).live == live;
  }

  // ------------------------------------------------------------------ the class

  class NodeReceiver {
    var session: U64
    var base: nat
    var active: bool
    const slots: array<Slot>
    ghost var live: map<Byte, Entry>

    ghost predicate Valid()
      reads this, slots
    {
      && slots.Length == POOL && base <= 256 && Represents(slots[..], live)
      && forall i :: 0 <= i < POOL ==> |slots[i].result| <= RESULT_MAX
    }

    ghost function View(): Node
      reads this
    {
      Node(session, base, active, live)
    }

    ghost function State(h: Hooks): Run
      reads this, h
    {
      Run(View(), h.readings, h.runs, h.out, h.ran)
    }

    constructor ()
      ensures Valid() && fresh(slots) && View() == Node(0, 0, false, map[])
    {
      session, base, active := 0, 0, false;
      slots := new Slot[POOL](_ => FREE);
      live := map[];
    }

    method ClearEntries()
      requires Valid()
      modifies this`live, slots
      ensures Valid() && live == map[]
    {
      for i := 0 to POOL
        invariant slots.Length == POOL && forall j :: 0 <= j < POOL ==> |slots[j].result| <= RESULT_MAX
        invariant forall j :: 0 <= j < i ==> slots[j].state == 0
      {
        slots[i] := slots[i].(state := 0);
      }
      live := map[];
    }

    /** Index of the slot holding `q`, or -1. */
    method FindEntry(q: Byte) returns (k: int)
      requires Valid()
      ensures -1 <= k < POOL
      ensures k >= 0 ==> q in live && slots[k].state != 0 && slots[k].num == q && live[q] == EntryOf(slots[k])
      ensures k < 0 ==> q !in live
    {
      for i := 0 to POOL
        invariant forall j :: 0 <= j < i ==> slots[j].state == 0 || slots[j].num != q
      {
        if slots[i].state != 0 && slots[i].num == q {
          return i;
        }
      }
      assert !Holds(slots[..], q);
      return -1;
    }

    method EmitReceived(q: Byte, h: Hooks)
      modifies h`out
      ensures h.out == old(h.out) + [ReceivedFrame(session, q)]
    {
      var p := new Byte[9](_ => 0);
      WriteU64(p, 0, session);
      p[8] := q;
      assert p[..] == U64Bytes(session) + [q];
      h.Emit(Frame(SR_RECEIVED, p[..]));
    }

    method EmitOpenAck(s: U64, rc: Byte, h: Hooks)
      modifies h`out
      ensures h.out == old(h.out) + [OpenAckFrame(s, session, rc)]
    {
      var p := new Byte[17](_ => 0);
      WriteU64(p, 0, s);
      WriteU64(p, 8, session);
      p[16] := rc;
      assert p[..] == U64Bytes(s) + U64Bytes(session) + [rc];
      h.Emit(Frame(SR_OPEN_ACK, p[..]));
    }

    method EmitResult(k: nat, h: Hooks)
      requires k < slots.Length && |slots[k].result| <= RESULT_MAX
      modifies h`out
      ensures h.out == old(h.out) + [ResultFrame(session, slots[k].num, slots[k].command, slots[k].result)]
    {
      var e := slots[k];
      var p := new Byte[PAYLOAD_MAX](_ => 0);
      WriteU64(p, 0, session);
      p[8], p[9] := e.num, e.command;
      for i := 0 to |e.result|
        invariant p[..8] == U64Bytes(session) && p[8] == e.num && p[9] == e.command
        invariant p[10..10 + i] == e.result[..i] && h.out == old(h.out)
      {
        p[10 + i] := e.result[i];
        assert p[10..10 + i + 1] == p[10..10 + i] + [e.result[i]];
      }
      var n := 10 + |e.result|;
      assert p[10..n] == e.result;
      assert p[..n] == U64Bytes(session) + [e.num, e.command] + e.result;
      h.Emit(Frame(SR_RESULT, p[..n]));
    }

    /** One pass over the slots does what `Receiver.Expire` says in one stroke. */
    method Expire(now: nat, h: Hooks)
      requires Valid() && h.Valid()
      modifies this`active, this`live, slots
      ensures Valid() && View() == Receiver.Expire(h.env, old(View()), now)
    {
      ghost var n := View();
      var found := -1;
      if base < 256 { found := FindEntry(base); }
      var gap := base < 256 && found < 0;
      for i := 0 to POOL
        invariant Valid() && active == n.active && Partway(h.env, now, gap, n.live, slots[..], live, i)
      {
        var overdue := ExpireSlot(i, now, gap, n.live, h);
        if overdue {
          active := false;
          ClearEntries();
          return;
        }
      }
      PartwayDone(h.env, now, n, slots[..], live);
    }

    /** One slot of the pass; true if it is an overdue follower of a gap. */
    method ExpireSlot(i: nat, now: nat, gap: bool, ghost all: map<Byte, Entry>, h: Hooks) returns (overdue: bool)
      requires Valid() && h.Valid() && i < POOL && Partway(h.env, now, gap, all, slots[..], live, i)
      modifies this`live, slots
      ensures Valid()
      ensures overdue ==> gap && exists q :: q in all && Overdue(h.env, now, all[q])
      ensures !overdue ==> Partway(h.env, now, gap, all, slots[..], live, i + 1)
    {
      var e := slots[i];
      var waited := h.Since(now, e.receivedAt);
      var kept := h.Since(now, e.completedAt);
      if gap && e.state == 1 && waited >= COMMAND_LIFETIME {
        assert Overdue(h.env, now, all[e.num]);
        return true;
      }
      if e.state == 2 && kept >= RESULT_TTL {
        PartwayFree(h.env, now, gap, all, slots[..], live, i);
        live := live - {e.num};
        slots[i] := e.(state := 0);
      }
      return false;
    }

    /** Reads the clock and expires. */
    method Sweep(h: Hooks) returns (now: nat)
      requires Valid() && h.Valid()
      modifies this`active, this`live, slots, h`readings
      ensures Valid() && State(h) == Scan(h.env, old(State(h))) && now == h.env.Read(old(h.readings))
    {
      now := h.NowMs();
      Expire(now, h);
    }

    /** Executes from the left edge on, as long as the next number is there. */
    method Deliver(h: Hooks)
      requires Valid() && h.Valid()
      modifies this, slots, h
      ensures Valid() && State(h) == Receiver.Deliver(h.env, old(State(h)))
    {
      while base < 256
        invariant Valid()
        invariant Receiver.Deliver(h.env, State(h)) == Receiver.Deliver(h.env, old(State(h)))
        decreases 256 - base
      {
        var more := DeliverOne(h);
        if !more { return; }
      }
    }

    /** One round of the delivery loop. */
    method DeliverOne(h: Hooks) returns (more: bool)
      requires Valid() && h.Valid() && base < 256
      modifies this, slots, h
      ensures Valid() && more == Deliverable(Scan(h.env, old(State(h))).node)
      ensures more ==> State(h) == Receiver.Execute(h.env, Scan(h.env, old(State(h))))
      ensures !more ==> State(h) == Scan(h.env, old(State(h)))
    {
      var _ := Sweep(h);
      if !active { return false; }
      var k := FindEntry(base);
      if k < 0 || slots[k].state != 1 { return false; }
      ExecuteSlot(k, h);
      return true;
    }

    /** Files the result and moves the edge before anything is sent. */
    method ExecuteSlot(k: nat, h: Hooks)
      requires Valid() && h.Valid() && active && base < 256
      requires k < POOL && slots[k].state == 1 && slots[k].num == base
      modifies this, slots, h
      ensures Valid() && old(Deliverable(View())) && State(h) == Receiver.Execute(h.env, old(State(h)))
    {
      var e := slots[k];
      assert e.num in live && live[e.num] == EntryOf(e);
      var result, done := RunHook(e, h);
      File(k, result, done);
      EmitResult(k, h);
    }

    /** Calls the executor and repairs an answer of illegal length. */
    method RunHook(e: Slot, h: Hooks) returns (result: Bytes, done: nat)
      requires h.Valid()
      modifies h`readings, h`runs, h`ran
      ensures result == Normalised(h.env.reply(old(h.runs))) && |result| <= RESULT_MAX
      ensures done == h.env.Read(old(h.readings))
      ensures h.readings == old(h.readings) + 1 && h.runs == old(h.runs) + 1
      ensures h.ran == old(h.ran) + [Execution(Command(session, e.num, e.command, e.args), result)]
    {
      result := h.Execute(e.num, e.command, e.args);
      if |result| == 0 || |result| > RESULT_MAX { result := [RC_UNSUPPORTED]; }
      h.ran := h.ran + [Execution(Command(session, e.num, e.command, e.args), result)];
      done := h.NowMs();
    }

    method File(k: nat, result: Bytes, done: nat)
      requires Valid() && k < POOL && slots[k].state == 1 && slots[k].num == base < 256 && |result| <= RESULT_MAX
      modifies this`base, this`live, slots
      ensures Valid() && base == old(base) + 1
      ensures slots[k] == old(slots[k]).(state := 2, result := result, completedAt := done, sentAt := done, retries := 0)
      ensures live == old(live)[old(base) := EntryOf(slots[k])]
    {
      var filed := slots[k].(state := 2, result := result, completedAt := done, sentAt := done, retries := 0);
      ChangeOne(slots[..], live, k, filed);
      slots[k] := filed;
      live := live[base := EntryOf(filed)];
      base := base + 1;
    }

    method OnFrame(kind: Byte, p: Bytes, h: Hooks)
      requires Valid() && h.Valid() && Rest(View())
      modifies this, slots, h
      ensures Valid() && Rest(View()) && State(h) == Receiver.OnFrame(h.env, old(State(h)), Frame(kind, p))
    {
      OnFrameRest(h.env, State(h), Frame(kind, p));
      var now := Sweep(h);
      if |p| > PAYLOAD_MAX || |p| < 8 { return; }
      var s := ReadU64(p);
      if kind == SR_OPEN {
        if |p| == 8 { Open(s, h); }
        return;
      }
      if !active || s != session || |p| < 9 { return; }
      if kind == SR_RESULT_ACK {
        ResultAck(p);
        return;
      }
      if kind != SR_COMMAND || |p| < 10 { return; }
      OnCommand(now, p[8], p[9], p[10..], h);
    }

    method Open(s: U64, h: Hooks)
      requires Valid()
      modifies this, slots, h`out
      ensures Valid() && State(h) == Receiver.OnOpen(old(State(h)), s)
    {
      if s > session {
        ClearEntries();
        session, base, active := s, 0, true;
      }
      var rc := if s == session && active then RC_OK else RC_BAD_PARAM;
      EmitOpenAck(s, rc, h);
    }

    method ResultAck(p: Bytes)
      requires Valid() && |p| >= 9
      modifies this`live, slots
      ensures Valid()
      ensures forall r: Run :: r.node == old(View()) ==> View() == Receiver.OnResultAck(r, p).node
    {
      var k := FindEntry(p[8]);
      if |p| == 9 && k >= 0 && slots[k].state == 2 {
        FreeOne(slots[..], live, k);
        live := live - {slots[k].num};
        slots[k] := slots[k].(state := 0);
      }
    }

    method SameArgs(a: Bytes, b: Bytes) returns (same: bool)
      ensures same == (a == b)
    {
      if |a| != |b| { return false; }
      for i := 0 to |a|
        invariant a[..i] == b[..i]
      {
        if a[i] != b[i] { return false; }
      }
      assert a == a[..|a|] && b == b[..|a|];
      return true;
    }

    /** First free slot, or -1 exactly if the pool is full. */
    method FindFree() returns (k: int)
      requires Valid()
      ensures -1 <= k < POOL && (k < 0 <==> |live| >= POOL) && (k >= 0 ==> slots[k].state == 0)
    {
      PoolFull(slots[..], live);
      for i := 0 to POOL
        invariant forall j :: 0 <= j < i ==> slots[j].state != 0
      {
        if slots[i].state == 0 { return i; }
      }
      return -1;
    }

    method OnCommand(now: nat, q: Byte, kind: Byte, args: Bytes, h: Hooks)
      requires Valid() && h.Valid()
      modifies this, slots, h
      ensures Valid() && State(h) == Receiver.OnCommand(h.env, old(State(h)), now, q, kind, args)
    {
      var k := FindEntry(q);
      if k >= 0 {
        var same := SameArgs(slots[k].args, args);
        if slots[k].command == kind && same {
          EmitReceived(q, h);
          if slots[k].state == 2 { EmitResult(k, h); }
        }
      } else if q < base {
        EmitReceived(q, h);
      } else if q < base + WINDOW {
        StoreNew(now, q, kind, args, h);
      }
    }

    /** Stores a new command in a free slot, confirms it and delivers; a full pool does
        nothing. */
    method StoreNew(now: nat, q: Byte, kind: Byte, args: Bytes, h: Hooks)
      requires Valid() && h.Valid() && q !in live
      modifies this, slots, h
      ensures Valid()
      ensures old(|live|) >= POOL ==> State(h) == old(State(h))
      ensures old(|live|) < POOL ==>
                State(h) == Receiver.Deliver(h.env, Receiver.Emit(Store(old(State(h)), now, q, kind, args), ReceivedFrame(old(session), q)))
    {
      var k := FindFree();
      if k >= 0 {
        StoreAt(k, now, q, kind, args);
        EmitReceived(q, h);
        Deliver(h);
      }
    }

    method StoreAt(k: nat, now: nat, q: Byte, kind: Byte, args: Bytes)
      requires Valid() && k < POOL && slots[k].state == 0 && q !in live
      modifies this`live, slots
      ensures Valid() && live == old(live)[q := Buffered(kind, args, now)]
    {
      var filled := slots[k].(state := 1, num := q, command := kind, args := args, receivedAt := now);
      FillOne(slots[..], live, k, filled);
      slots[k] := filled;
      live := live[q := EntryOf(filled)];
    }

    /** Sends every result whose confirmation is overdue again, in slot order. */
    method OnTick(h: Hooks) returns (ghost order: seq<Byte>)
      requires Valid() && h.Valid() && Rest(View())
      modifies this, slots, h
      ensures Valid() && Rest(View()) && Lists(order, TickDue(h.env, old(State(h))))
      ensures State(h) == Receiver.OnTick(h.env, old(State(h)), order)
    {
      ghost var r := State(h);
      var now := Sweep(h);
      if active {
        order := ResendPass(now, h);
      } else {
        order := [];
        InactiveTick(h.env, View(), now);
        assert h.out == h.out + Results(View(), []);
      }
      OnTickRest(h.env, r, order);
    }

    method ResendPass(now: nat, h: Hooks) returns (ghost order: seq<Byte>)
      requires Valid() && h.Valid() && active
      modifies this`live, slots, h`out
      ensures Valid() && Lists(order, DueSet(h.env, old(View()), now))
      ensures forall q :: q in order ==> q in old(live) && old(live)[q].Executed?
      ensures View() == Resend(h.env, old(View()), now) && h.out == old(h.out) + Results(old(View()), order)
    {
      order := [];
      ghost var n, sent := View(), h.out;
      for i := 0 to POOL
        invariant Valid() && Swept(h.env, now, n, slots[..], live, order, i)
        invariant h.out == sent + Results(n, order)
      {
        order := ResendSlot(i, now, n, order, sent, h);
      }
      SweptAll(h.env, now, n, slots[..], live, order);
    }

    /** One slot of the resend pass. */
    method ResendSlot(i: nat, now: nat, ghost n: Node, ghost order: seq<Byte>, ghost sent: seq<Frame>, h: Hooks)
      returns (ghost order1: seq<Byte>)
      requires Valid() && h.Valid() && i < POOL && session == n.session
      requires Swept(h.env, now, n, slots[..], live, order, i) && h.out == sent + Results(n, order)
      modifies this`live, slots, h`out
      ensures Valid() && Swept(h.env, now, n, slots[..], live, order1, i + 1)
      ensures h.out == sent + Results(n, order1)
    {
      var again;
      again, order1 := BumpSlot(i, now, n, order, h);
      ghost var was, held := slots[..], live;
      if again { EmitResult(i, h); }
      assert slots[..] == was && live == held;
    }

    method Restamp(i: nat, s: Slot)
      requires Valid() && i < POOL && slots[i].state == 2 && s == slots[i].(retries := s.retries, sentAt := s.sentAt)
      modifies this`live, slots
      ensures Valid() && slots[..] == old(slots[..])[i := s] && live == old(live)[s.num := EntryOf(s)]
    {
      ChangeOne(slots[..], live, i, s);
      slots[i] := s;
      live := live[s.num := EntryOf(s)];
    }

    /** Counts the retry and restamps the slot if it is due. */
    method BumpSlot(i: nat, now: nat, ghost n: Node, ghost order: seq<Byte>, h: Hooks)
      returns (again: bool, ghost order1: seq<Byte>)
      requires Valid() && h.Valid() && i < POOL && Swept(h.env, now, n, slots[..], live, order, i)
      modifies this`live, slots
      ensures Valid() && Swept(h.env, now, n, slots[..], live, order1, i + 1)
      ensures !again ==> order1 == order
      ensures again ==> Results(n, order1) == Results(n, order)
                        + [ResultFrame(n.session, slots[i].num, slots[i].command, slots[i].result)]
    {
      var e := slots[i];
      var waited := h.Since(now, e.sentAt);
      again := e.state == 2 && e.retries < MAX_RETRY && waited >= ACK_TIMEOUT;
      if again {
        var bumped := e.(retries := e.retries + 1, sentAt := now);
        SweptOne(h.env, now, n, slots[..], live, order, i, bumped);
        SweptResults(h.env, now, n, slots[..], live, order, i);
        Restamp(i, bumped);
        order1 := order + [e.num];
      } else {
        SweptNone(h.env, now, n, slots[..], live, order, i);
        order1 := order;
      }
    }
  }
}
