/** AsyncLogger as it runs: owned blocks changing hands between the front, the queue and
    the flush thread. Each method is one section no other thread can interrupt. */
module LoggerObject {
  import opened Log = AsyncLog

  class AsyncLogger {
    var current: Owner
    var spare: Owner
    var queue: seq<Block>
    var dropped: nat
    var newCurrent: Owner
    var newSpare: Owner
    var batch: seq<Block>
    /** History only: its other fields are not looked at. */
    ghost var past: Logger

    ghost function State(): Logger
      reads this
    {
      past.(current := current, spare := spare, queue := queue, dropped := dropped,
            newCurrent := newCurrent, newSpare := newSpare, batch := batch)
    }

    constructor ()
      ensures State() == STARTED
    {
      current, spare, queue, dropped := Owns([]), Owns([]), [], 0;
      newCurrent, newSpare, batch := Owns([]), Owns([]), [];
      past := STARTED;
    }

    /** The front block is dereferenced: it must not be null, and never is. */
    method AppendLine(line: Line)
      requires Inv(State())
      modifies this
      ensures State() == Append(old(State()), line) && Inv(State())
    {
      ghost var g := State();
      AppendForms(g, line);
      if |line| + Size(current.block) < BUFFER_SIZE {
        GrowCurrent(line);
      } else {
        CloseAndStart(line);
      }
      assert State() == Append(g, line);
    }

    method GrowCurrent(line: Line)
      requires current.Owns?
      modifies this
      ensures State() == old(State()).(appended := old(past).appended + [line], current := Owns(old(current).block + [line]))
    {
      past := past.(appended := past.appended + [line]);
      current := Owns(current.block + [line]);
    }

    /** The line does not fit: trim a full queue, queue the front block, start the next. */
    method CloseAndStart(line: Line)
      requires current.Owns? && Held(spare) == [] && |past.queuedAt| == |queue|
      modifies this
      ensures State() == Close(Trim(old(State())), old(current).block, Owns([line]))
                         .(spare := Null, appended := old(past).appended + [line])
    {
      past := past.(appended := past.appended + [line]);
      if |queue| >= MAX_QUEUED { TrimQueue(); }
      StartNext(line);
    }

    method StartNext(line: Line)
      requires current.Owns? && Held(spare) == []
      modifies this
      ensures State() == Close(old(State()), old(current).block, Owns([line])).(spare := Null)
    {
      PushCurrent();
      if spare.Owns? {
        current, spare := spare, Null;
      } else {
        current := Owns([]);
      }
      assert current.block + [line] == [line];
      current := Owns(current.block + [line]);
    }

    method TrimQueue()
      requires |queue| >= MAX_QUEUED && |past.queuedAt| == |queue|
      modifies this
      ensures State() == Trim(old(State()))
    {
      dropped := dropped + |queue| - KEEP_ON_OVERFLOW;
      if spare.Null? { spare := Owns([]); } // the last of the lost, emptied
      queue := queue[..KEEP_ON_OVERFLOW];
      past := past.(queuedAt := past.queuedAt[..KEEP_ON_OVERFLOW]);
    }

    /** The current block moves to the queue, leaving a null pointer behind. */
    method PushCurrent()
      requires current.Owns?
      modifies this
      ensures State() == Close(old(State()), old(current).block, Null)
    {
      queue := queue + [current.block];
      past := past.(queuedAt := past.queuedAt + [|past.closed|], closed := past.closed + [current.block]);
      current := Null;
    }

    /** The flush thread's locked section. */
    method CollectBlocks()
      requires Inv(State()) && !past.writing
      modifies this
      ensures State() == Collect(old(State())) && Inv(State())
    {
      CollectInv(State());
      if current.Owns? && Size(current.block) > 0 {
        PushCurrent();
        current, newCurrent := newCurrent, Null;
      }
      if spare.Null? { spare, newSpare := newSpare, Null; }
      if queue != [] { TakeQueue(); }
    }

    method TakeQueue()
      modifies this
      ensures State() == Take(old(State()))
    {
      past := Take(State());
      dropped := 0;
      batch, queue := queue, [];
    }

    /** The thread's unlocked section, once its batch is written. */
    method RecycleBlocks()
      requires Inv(State()) && past.writing
      modifies this
      ensures State() == Recycle(old(State())) && Inv(State())
    {
      RecycleInv(State());
      if newCurrent.Null? {
        newCurrent := Owns([]);
        batch := batch[..|batch| - 1];
      }
      if newSpare.Null? && batch != [] {
        newSpare := Owns([]);
      }
      batch := [];
      past := past.(writing := false);
    }

    /** The section that empties everything when the thread ends. */
    method DrainBlocks()
      requires Inv(State()) && !past.writing
      modifies this
      ensures State() == Drain(old(State()))
    {
      if current.Owns? && Size(current.block) > 0 { PushCurrent(); }
      TakeQueue();
    }
  }
}
