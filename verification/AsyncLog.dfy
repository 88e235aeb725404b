/** The buffered logger (AsyncLogger.cpp). Each locked section is one step; the flush
    thread's work outside the lock is another, so appends may fall in between. */
module AsyncLog {

  const BUFFER_SIZE := 65536
  const MAX_QUEUED := 64
  const KEEP_ON_OVERFLOW := 2

  type Line = string
  type Block = seq<Line>

  function Size(b: Block): nat {
    if b == [] then 0 else Size(b[..|b| - 1]) + |b[|b| - 1]|
  }

  /** An owning pointer to a block. */
  datatype Owner = Null | Owns(block: Block)

  /** Under the lock: `current`, `spare`, `queue`, `dropped`. The flush thread's own:
      `newCurrent`, `newSpare`, `batch`, `writing`. The rest is history: every line
      appended, every block closed, the blocks handed to the writer, the overflow counts
      taken for reporting, and where in `closed` the handed and queued blocks are. */
  datatype Logger = Logger(current: Owner, spare: Owner, queue: seq<Block>, dropped: nat,
                           newCurrent: Owner, newSpare: Owner, batch: seq<Block>, writing: bool,
                           appended: seq<Line>, closed: seq<Block>, handed: seq<Block>, reported: nat,
                           handedAt: seq<nat>, queuedAt: seq<nat>)

  const STARTED := Logger(Owns([]), Owns([]), [], 0, Owns([]), Owns([]), [], false, [], [], [], 0, [], [])

  // ---------------------------------------------------------------------- steps

  /** A backlog at the limit loses all but its oldest blocks; one of the lost becomes the
      spare if there is none. */
  function Trim(g: Logger): Logger {
    if |g.queue| < MAX_QUEUED then g
    else g.(dropped := g.dropped + |g.queue| - KEEP_ON_OVERFLOW,
            spare := if g.spare.Null? then Owns([]) else g.spare,
            queue := g.queue[..KEEP_ON_OVERFLOW],
            queuedAt := if |g.queuedAt| >= KEEP_ON_OVERFLOW then g.queuedAt[..KEEP_ON_OVERFLOW] else g.queuedAt)
  }

  /** The current block goes to the back of the queue. */
  function Close(g: Logger, b: Block, other: Owner): Logger {
    g.(queue := g.queue + [b], queuedAt := g.queuedAt + [|g.closed|], closed := g.closed + [b], current := other)
  }

  function Append(g: Logger, line: Line): Logger
    requires g.current.Owns?
  {
    var h := g.(appended := g.appended + [line]);
    if |line| + Size(g.current.block) < BUFFER_SIZE then h.(current := Owns(g.current.block + [line]))
    else
      var t := Trim(h);
      if t.spare.Owns? then Close(t, g.current.block, Owns(t.spare.block + [line])).(spare := Null)
      else Close(t, g.current.block, Owns([line]))
  }

  function Swap(g: Logger): Logger {
    if g.current.Owns? && Size(g.current.block) > 0 then
      Close(g, g.current.block, g.newCurrent).(newCurrent := Null)
    else g
  }

  function Refill(g: Logger): Logger {
    if g.spare.Null? then g.(spare := g.newSpare, newSpare := Null) else g
  }

  function Take(g: Logger): Logger {
    g.(reported := g.reported + g.dropped, dropped := 0, handed := g.handed + g.queue,
       handedAt := g.handedAt + g.queuedAt, batch := g.queue, queue := [], queuedAt := [], writing := true)
  }

  /** The flush thread's locked section. */
  function Collect(g: Logger): Logger
    requires !g.writing
  {
    var h := Refill(Swap(g));
    if h.queue == [] then h else Take(h)
  }

  /** After writing its batch the thread keeps up to two of the blocks, emptied. */
  function Recycle(g: Logger): Logger
    requires g.writing
  {
    var n := |g.batch|;
    var first := g.newCurrent.Null? && n > 0;
    var m := if first then n - 1 else n;
    g.(newCurrent := if first then Owns([]) else g.newCurrent,
       newSpare := if g.newSpare.Null? && m > 0 then Owns([]) else g.newSpare,
       batch := [], writing := false)
  }

  /** The last locked section, after the loop. */
  function Drain(g: Logger): Logger
    requires !g.writing
  {
    Take(if g.current.Owns? && Size(g.current.block) > 0 then Close(g, g.current.block, Null) else g)
  }

  // ------------------------------------------------------------------ invariant

  function Lines(blocks: seq<Block>): seq<Line> {
    if blocks == [] then [] else Lines(blocks[..|blocks| - 1]) + blocks[|blocks| - 1]
  }

  function Held(o: Owner): Block { if o.Owns? then o.block else [] }

  /** Every appended line is in exactly one block, whole, in order. */
  predicate LinesKept(g: Logger) { Lines(g.closed) + Held(g.current) == g.appended }

  predicate Increasing(at: seq<nat>, below: nat) {
    && (forall i, j :: 0 <= i < j < |at| ==> at[i] < at[j])
    && (forall i :: 0 <= i < |at| ==> at[i] < below)
  }

  predicate Listed(blocks: seq<Block>, at: seq<nat>, closed: seq<Block>) {
    |blocks| == |at| && forall i :: 0 <= i < |blocks| ==> at[i] < |closed| && blocks[i] == closed[at[i]]
  }

  /** Handed blocks, then queued ones, are distinct closed blocks in closing order. */
  predicate Ordered(g: Logger) {
    && Listed(g.handed, g.handedAt, g.closed)
    && Listed(g.queue, g.queuedAt, g.closed)
    && Increasing(g.handedAt + g.queuedAt, |g.closed|)
  }

  /** Closed = handed out + queued + counted as dropped. */
  predicate Counted(g: Logger) { |g.closed| == |g.handed| + |g.queue| + g.dropped + g.reported }

  predicate Sized(b: Block) { Size(b) < BUFFER_SIZE || |b| == 1 }

  predicate Bounds(g: Logger) {
    && |g.queue| <= MAX_QUEUED && |g.batch| <= MAX_QUEUED + 1
    && Sized(Held(g.current)) && forall b | b in g.closed :: Sized(b)
  }

  /** The front block is never null, spare blocks are empty, and the flush thread has a
      fresh block whenever it may need one. */
  predicate Owners(g: Logger) {
    && g.current.Owns?
    && Held(g.spare) == [] && Held(g.newCurrent) == [] && Held(g.newSpare) == []
    && (g.writing ==> g.batch != [])
    && (!g.writing ==> g.newCurrent.Owns?)
  }

  predicate Inv(g: Logger) { Owners(g) && LinesKept(g) && Ordered(g) && Counted(g) && Bounds(g) }

  lemma LinesSnoc(blocks: seq<Block>, b: Block)
    ensures Lines(blocks + [b]) == Lines(blocks) + b
  {
    assert (blocks + [b])[..|blocks|] == blocks;
  }

  lemma CloseOrdered(g: Logger, b: Block, other: Owner)
    requires Ordered(g)
    ensures Ordered(Close(g, b, other))
  {
    assert g.handedAt + (g.queuedAt + [|g.closed|]) == (g.handedAt + g.queuedAt) + [|g.closed|];
  }

  lemma TrimKeeps(g: Logger)
    requires Inv(g)
    ensures Inv(Trim(g)) && |Trim(g).queue| < MAX_QUEUED
  {
    TrimOrdered(g);
  }

  lemma TrimOrdered(g: Logger)
    requires Ordered(g)
    ensures Ordered(Trim(g))
  {
    if |g.queue| >= MAX_QUEUED {
      var at := g.handedAt + g.queuedAt;
      assert g.handedAt + g.queuedAt[..KEEP_ON_OVERFLOW] == at[..|g.handedAt| + KEEP_ON_OVERFLOW];
    }
  }

  lemma AppendInv(g: Logger, line: Line)
    requires Inv(g)
    ensures Inv(Append(g, line))
  {
    if |line| + Size(g.current.block) < BUFFER_SIZE {
      FitsInv(g, line);
    } else {
      TrimKeeps(g);
      AppendCloses(g, line);
      CloseInv(Trim(g), line);
    }
  }

  lemma FitsInv(g: Logger, line: Line)
    requires Inv(g) && |line| + Size(g.current.block) < BUFFER_SIZE
    ensures Inv(g.(appended := g.appended + [line], current := Owns(g.current.block + [line])))
  {
    var b := g.current.block;
    SizeSnoc(b, line);
    assert Lines(g.closed) + (b + [line]) == (Lines(g.closed) + b) + [line];
  }

  lemma AppendCloses(g: Logger, line: Line)
    requires Owners(g) && |line| + Size(g.current.block) >= BUFFER_SIZE
    ensures Append(g, line)
         == Close(Trim(g), g.current.block, Owns([line])).(spare := Null, appended := g.appended + [line])
  {
    assert [] + [line] == [line];
  }

  /** What an append comes down to in its two cases. */
  lemma AppendForms(g: Logger, line: Line)
    requires Inv(g)
    ensures Inv(Append(g, line)) && Held(g.spare) == [] && |g.queuedAt| == |g.queue|
    ensures |line| + Size(g.current.block) < BUFFER_SIZE ==>
              Append(g, line) == g.(appended := g.appended + [line], current := Owns(g.current.block + [line]))
    ensures |line| + Size(g.current.block) >= BUFFER_SIZE ==>
              Append(g, line) == Close(Trim(g), g.current.block, Owns([line])).(spare := Null, appended := g.appended + [line])
  {
    AppendInv(g, line);
    if |line| + Size(g.current.block) >= BUFFER_SIZE { AppendCloses(g, line); }
  }

  /** Closing the front block and starting the next with one line. */
  lemma CloseInv(g: Logger, line: Line)
    requires Inv(g) && |g.queue| < MAX_QUEUED
    ensures Inv(Close(g, g.current.block, Owns([line])).(spare := Null, appended := g.appended + [line]))
  {
    CloseOrdered(g, g.current.block, Owns([line]));
    LinesSnoc(g.closed, g.current.block);
    CloseBounds(g, line);
  }

  lemma CloseBounds(g: Logger, line: Line)
    requires Bounds(g) && g.current.Owns? && |g.queue| < MAX_QUEUED
    ensures Bounds(Close(g, g.current.block, Owns([line])))
  {}

  lemma SizeSnoc(b: Block, line: Line)
    ensures Size(b + [line]) == Size(b) + |line|
  {
    assert (b + [line])[..|b|] == b;
  }

  lemma SwapInv(g: Logger)
    requires Inv(g) && !g.writing
    ensures var h := Swap(g);
            && LinesKept(h) && Ordered(h) && Counted(h)
            && h.current.Owns? && |h.queue| <= MAX_QUEUED + 1 && (h.newCurrent.Null? ==> h.queue != [])
            && Sized(Held(h.current)) && forall b | b in h.closed :: Sized(b)
  {
    if Size(g.current.block) > 0 {
      CloseOrdered(g, g.current.block, g.newCurrent);
      LinesSnoc(g.closed, g.current.block);
    }
  }

  lemma TakeOrdered(g: Logger)
    requires Ordered(g)
    ensures Ordered(Take(g))
  {
    assert (g.handedAt + g.queuedAt) + [] == g.handedAt + g.queuedAt;
  }

  lemma CollectInv(g: Logger)
    requires Inv(g) && !g.writing
    ensures Inv(Collect(g))
  {
    SwapInv(g);
    var h := Refill(Swap(g));
    assert Ordered(h);
    TakeOrdered(h);
  }

  lemma RecycleInv(g: Logger)
    requires Inv(g) && g.writing
    ensures Inv(Recycle(g))
  {}

  /** After the last section everything ever appended and not dropped has been handed to
      the writer, and no byte is left behind. */
  lemma DrainDone(g: Logger)
    requires Inv(g) && !g.writing
    ensures var h := Drain(g);
            && h.queue == [] && h.dropped == 0
            && Lines(h.closed) + Held(h.current) == h.appended && Size(Held(h.current)) == 0
            && Ordered(h) && Counted(h)
  {
    var b := g.current.block;
    if Size(b) > 0 {
      CloseOrdered(g, b, Null);
      LinesSnoc(g.closed, b);
      TakeOrdered(Close(g, b, Null));
    } else {
      TakeOrdered(g);
    }
  }

  // ------------------------------------------------------------------- every run

  datatype Step = Line(text: Line) | Locked | Written

  predicate Enabled(g: Logger, s: Step) {
    match s
    case Line(_) => true
    case Locked => !g.writing
    case Written => g.writing
  }

  /** The state after any interleaving of appends and flush rounds; a step that is not
      the flush thread's next one does nothing. */
  function After(steps: seq<Step>): (g: Logger)
    ensures Inv(g)
  {
    if steps == [] then STARTED else
      var g := After(steps[..|steps| - 1]);
      var s := steps[|steps| - 1];
      if !Enabled(g, s) then g
      else match s
        case Line(text) => AppendInv(g, text); Append(g, text)
        case Locked => CollectInv(g); Collect(g)
        case Written => RecycleInv(g); Recycle(g)
  }

  /** An append never closes a block the line still fits into, never loses anything unless 64
      blocks are queued, and then loses all but the two oldest of them. */
  lemma AppendExact(g: Logger, line: Line)
    requires Inv(g)
    ensures var h := Append(g, line); var b := g.current.block;
            && h.appended == g.appended + [line] && h.handed == g.handed && h.reported == g.reported
            && if |line| + Size(b) < 65536 then
                 h.current == Owns(b + [line]) && h.queue == g.queue && h.dropped == g.dropped && h.closed == g.closed
               else
                 && h.current == Owns([line]) && h.closed == g.closed + [b]
                 && (if |g.queue| < 64 then h.queue == g.queue + [b] && h.dropped == g.dropped
                     else h.queue == [g.queue[0], g.queue[1], b] && h.dropped == g.dropped + |g.queue| - 2)
  {
    AppendForms(g, line);
  }

  /** A flush round hands over everything closed so far, and the front block if it holds a
      byte, and takes the drop count with them. */
  lemma CollectExact(g: Logger)
    requires Inv(g) && !g.writing
    ensures var h := Collect(g); var b := g.current.block;
            var more := g.queue + if Size(b) > 0 then [b] else [];
            && h.queue == [] && h.handed == g.handed + more && h.appended == g.appended
            && h.current == Owns(if Size(b) > 0 then [] else b)
            && h.writing == (more != [])
            && (more != [] ==> h.batch == more && h.dropped == 0 && h.reported == g.reported + g.dropped)
  {
    SwapExact(g);
  }

  lemma SwapExact(g: Logger)
    requires Inv(g) && !g.writing
    ensures var h := Swap(g); var b := g.current.block;
            && h.queue == g.queue + (if Size(b) > 0 then [b] else [])
            && h.current == Owns(if Size(b) > 0 then [] else b)
            && h == g.(queue := h.queue, current := h.current, newCurrent := h.newCurrent, closed := h.closed, queuedAt := h.queuedAt)
  {
    assert g.newCurrent == Owns([]);
  }

  /** Nothing is lost unless the backlog reached its limit. */
  lemma NoOverflowNoLoss(g: Logger)
    requires Inv(g) && g.dropped + g.reported == 0
    ensures g.handed + g.queue == g.closed
    ensures Lines(g.handed + g.queue) + Held(g.current) == g.appended
  {
    var at := g.handedAt + g.queuedAt;
    forall i | 0 <= i < |at| ensures at[i] == i { AllPositions(at, |g.closed|, i); }
    assert forall i :: 0 <= i < |at| ==> (g.handed + g.queue)[i] == g.closed[at[i]];
  }

  /** As many increasing positions as there are places are all the places. */
  lemma {:induction false} AllPositions(at: seq<nat>, n: nat, i: nat)
    requires Increasing(at, n) && |at| == n && i < n
    ensures at[i] == i
  {
    AtLeast(at, n, i);
    AtMost(at, n, i);
  }

  lemma {:induction false} AtLeast(at: seq<nat>, n: nat, i: nat)
    requires Increasing(at, n) && i < |at|
    ensures at[i] >= i
  {
    if i > 0 { AtLeast(at, n, i - 1); }
  }

  lemma {:induction false} AtMost(at: seq<nat>, n: nat, i: nat)
    requires Increasing(at, n) && i < |at| && |at| == n
    ensures at[i] <= i
    decreases |at| - i
  {
    if i + 1 < |at| { AtMost(at, n, i + 1); }
  }
}
