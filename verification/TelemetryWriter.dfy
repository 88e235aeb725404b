/** The telemetry writer thread (TelemetryPipeline.cpp): jobs that happen to be queued
    are merged into one transaction; a database swap ends the transaction. */
module TelemetryWriter {

  const MAX_ROWS_PER_TXN := 256

  datatype Job<Row> = Batch(rows: seq<Row>) | Swap(db: nat)

  /** What the thread does: one `insertBatch`, or a swap followed by its callback. */
  datatype Act<Row> = Insert(db: nat, rows: seq<Row>) | Applied(db: nat)

  /** The same, row by row. */
  datatype Effect<Row> = Given(db: nat, row: Row) | Switched(db: nat)

  function Gives<Row>(db: nat, rows: seq<Row>): (e: seq<Effect<Row>>)
    ensures |e| == |rows| && forall i :: 0 <= i < |rows| ==> e[i] == Given(db, rows[i])
  {
    seq(|rows|, i requires 0 <= i < |rows| => Given(db, rows[i]))
  }

  function Effects<Row>(acts: seq<Act<Row>>): seq<Effect<Row>> {
    if acts == [] then [] else
      Effects(acts[..|acts| - 1]) + match acts[|acts| - 1]
                                    case Insert(db, rows) => Gives(db, rows)
                                    case Applied(db) => [Switched(db)]
  }

  /** The database in use after the jobs. */
  function InUse<Row>(jobs: seq<Job<Row>>, db: nat): nat {
    if jobs == [] then db
    else match jobs[|jobs| - 1]
      case Batch(_) => InUse(jobs[..|jobs| - 1], db)
      case Swap(other) => other
  }

  /** Each job alone: every row to the database in use, every swap at its place. */
  function OneByOne<Row>(jobs: seq<Job<Row>>, db: nat): seq<Effect<Row>> {
    if jobs == [] then [] else
      var before := jobs[..|jobs| - 1];
      OneByOne(before, db) + match jobs[|jobs| - 1]
                             case Batch(rows) => Gives(InUse(before, db), rows)
                             case Swap(other) => [Switched(other)]
  }

  lemma NextJob<Row>(jobs: seq<Job<Row>>, i: nat, db: nat)
    requires i < |jobs|
    ensures InUse(jobs[..i + 1], db) == match jobs[i] case Batch(_) => InUse(jobs[..i], db) case Swap(other) => other
    ensures OneByOne(jobs[..i + 1], db)
         == OneByOne(jobs[..i], db) + match jobs[i]
                                      case Batch(rows) => Gives(InUse(jobs[..i], db), rows)
                                      case Swap(other) => [Switched(other)]
  {
    assert jobs[..i + 1][..i] == jobs[..i];
  }

  lemma NextAct<Row>(acts: seq<Act<Row>>, a: Act<Row>)
    ensures Effects(acts + [a])
         == Effects(acts) + match a case Insert(db, rows) => Gives(db, rows) case Applied(db) => [Switched(db)]
  {
    assert (acts + [a])[..|acts|] == acts;
  }

  lemma GivesMore<Row>(db: nat, x: seq<Row>, y: seq<Row>)
    ensures Gives(db, x + y) == Gives(db, x) + Gives(db, y)
  {}

  /** No transaction is empty, and none grew by a job once it had reached the limit. */
  ghost predicate Transactions<Row>(acts: seq<Act<Row>>, widest: nat) {
    forall a | a in acts && a.Insert? :: 0 < |a.rows| < MAX_ROWS_PER_TXN + widest
  }

  /** A transaction directly followed by another has at least 256 rows. */
  ghost predicate Full<Row>(acts: seq<Act<Row>>) {
    forall i :: 0 < i < |acts| && acts[i].Insert? && acts[i - 1].Insert? ==> |acts[i - 1].rows| >= 256
  }

  ghost predicate LastFull<Row>(acts: seq<Act<Row>>) {
    acts != [] && acts[|acts| - 1].Insert? ==> |acts[|acts| - 1].rows| >= 256
  }

  ghost predicate Narrow<Row>(jobs: seq<Job<Row>>, widest: nat) {
    forall j | j in jobs && j.Batch? :: |j.rows| <= widest
  }

  /** What has been done, with the rows still held, is what the first jobs ask for. */
  ghost predicate Caught<Row>(jobs: seq<Job<Row>>, i: nat, start: nat, acts: seq<Act<Row>>, db: nat, rows: seq<Row>)
    requires i <= |jobs|
  {
    && db == InUse(jobs[..i], start)
    && Effects(acts) + Gives(db, rows) == OneByOne(jobs[..i], start)
  }

  lemma Merged<Row>(jobs: seq<Job<Row>>, i: nat, start: nat, acts: seq<Act<Row>>, db: nat, rows: seq<Row>)
    requires i < |jobs| && jobs[i].Batch? && Caught(jobs, i, start, acts, db, rows)
    ensures Caught(jobs, i + 1, start, acts, db, rows + jobs[i].rows)
  {
    NextJob(jobs, i, start);
    GivesMore(db, rows, jobs[i].rows);
    assert Effects(acts) + (Gives(db, rows) + Gives(db, jobs[i].rows))
        == (Effects(acts) + Gives(db, rows)) + Gives(db, jobs[i].rows);
  }

  lemma Inserted<Row>(jobs: seq<Job<Row>>, i: nat, start: nat, acts: seq<Act<Row>>, db: nat, rows: seq<Row>)
    requires i <= |jobs| && Caught(jobs, i, start, acts, db, rows)
    ensures Caught(jobs, i, start, acts + [Insert(db, rows)], db, [])
  {
    NextAct(acts, Insert(db, rows));
    assert Effects(acts) + Gives(db, rows) + Gives(db, []) == Effects(acts) + Gives(db, rows);
  }

  lemma Swapped<Row>(jobs: seq<Job<Row>>, i: nat, start: nat, acts: seq<Act<Row>>, db: nat)
    requires i < |jobs| && jobs[i].Swap? && Caught(jobs, i, start, acts, db, [])
    ensures Caught(jobs, i + 1, start, acts + [Applied(jobs[i].db)], jobs[i].db, [])
  {
    NextJob(jobs, i, start);
    NextAct(acts, Applied(jobs[i].db));
    assert Effects(acts) + Gives(db, []) == Effects(acts);
    var e := Effects(acts) + [Switched(jobs[i].db)];
    assert e + Gives(jobs[i].db, []) == e;
  }

  lemma FullSnoc<Row>(acts: seq<Act<Row>>, a: Act<Row>)
    requires Full(acts) && (a.Insert? ==> LastFull(acts))
    ensures Full(acts + [a]) && (LastFull(acts + [a]) <==> (a.Insert? ==> |a.rows| >= 256))
  {}

  /** `insertBatch` of the held rows, if there are any. */
  method Commit<Row>(acts: seq<Act<Row>>, db: nat, rows: seq<Row>, ghost jobs: seq<Job<Row>>, ghost i: nat,
                     ghost start: nat, ghost widest: nat) returns (done: seq<Act<Row>>)
    requires i <= |jobs| && Caught(jobs, i, start, acts, db, rows)
    requires Transactions(acts, widest) && (rows != [] ==> |rows| < MAX_ROWS_PER_TXN + widest)
    ensures Caught(jobs, i, start, done, db, []) && Transactions(done, widest)
    ensures Full(acts) && LastFull(acts) ==> Full(done) && (rows == [] || |rows| >= 256 ==> LastFull(done))
  {
    done := acts;
    if rows != [] {
      Inserted(jobs, i, start, acts, db, rows);
      if Full(acts) && LastFull(acts) { FullSnoc(acts, Insert(db, rows)); }
      done := acts + [Insert(db, rows)];
    }
  }

  /** A database swap: what is held goes to the old one first. */
  method SwapTo<Row>(acts: seq<Act<Row>>, db: nat, rows: seq<Row>, other: nat, ghost jobs: seq<Job<Row>>, ghost i: nat,
                     ghost start: nat, ghost widest: nat) returns (done: seq<Act<Row>>)
    requires i < |jobs| && jobs[i] == Swap(other) && Caught(jobs, i, start, acts, db, rows)
    requires Transactions(acts, widest) && (rows != [] ==> |rows| < MAX_ROWS_PER_TXN + widest)
    ensures Caught(jobs, i + 1, start, done, other, []) && Transactions(done, widest)
    ensures Full(acts) && LastFull(acts) ==> Full(done) && LastFull(done)
  {
    done := Commit(acts, db, rows, jobs, i, start, widest);
    Swapped(jobs, i, start, done, db);
    if Full(done) { FullSnoc(done, Applied(other)); }
    done := done + [Applied(other)];
  }

  /** The thread's loop, from start to shutdown: `jobs` are all it ever pops and
      `empty(i)` is whether the queue looks empty when job `i` is tried. As long as it never
      does, jobs are merged until a transaction is full. */
  method WriterLoop<Row>(jobs: seq<Job<Row>>, start: nat, empty: nat -> bool, ghost widest: nat)
    returns (acts: seq<Act<Row>>)
    requires Narrow(jobs, widest)
    ensures Effects(acts) == OneByOne(jobs, start)
    ensures Transactions(acts, widest)
    ensures (forall k: nat :: !empty(k)) ==> Full(acts)
  {
    ghost var busy := forall k: nat :: !empty(k);
    var db, rows: seq<Row>, i := start, [], 0;
    acts := [];
    while i < |jobs|
      invariant 0 <= i <= |jobs| && rows == []
      invariant Caught(jobs, i, start, acts, db, rows) && Transactions(acts, widest)
      invariant busy ==> Full(acts) && (i < |jobs| ==> LastFull(acts))
    {
      var merging := true;
      ghost var first := i;
      while merging
        invariant first <= i <= |jobs| && (if merging then i < |jobs| else first < i)
        invariant Caught(jobs, i, start, acts, db, rows) && Transactions(acts, widest)
        invariant busy ==> Full(acts) && LastFull(acts)
        invariant busy && !merging && i < |jobs| && rows != [] ==> |rows| >= 256
        invariant if merging then |rows| < MAX_ROWS_PER_TXN else rows != [] ==> |rows| < MAX_ROWS_PER_TXN + widest
        decreases |jobs| - i, merging
      {
        match jobs[i] {
          case Swap(other) =>
            acts := SwapTo(acts, db, rows, other, jobs, i, start, widest);
            rows, db := [], other;
            i := i + 1;
            merging := false;
          case Batch(more) =>
            assert jobs[i] in jobs;
            Merged(jobs, i, start, acts, db, rows);
            rows := rows + more;
            i := i + 1;
            merging := |rows| < MAX_ROWS_PER_TXN && i < |jobs| && !empty(i);
        }
      }
      acts := Commit(acts, db, rows, jobs, i, start, widest);
      rows := [];
    }
    assert jobs[..|jobs|] == jobs;
    assert Effects(acts) + Gives(db, rows) == Effects(acts);
  }

  // ---------------------------------------------------- what each database is given

  /** The rows a database has been given, in order. */
  function RowsOf<Row>(effects: seq<Effect<Row>>, db: nat): seq<Row> {
    if effects == [] then [] else
      RowsOf(effects[..|effects| - 1], db)
      + match effects[|effects| - 1] case Given(d, row) => (if d == db then [row] else []) case Switched(_) => []
  }

  lemma {:induction false} RowsOfConcat<Row>(x: seq<Effect<Row>>, y: seq<Effect<Row>>, db: nat)
    ensures RowsOf(x + y, db) == RowsOf(x, db) + RowsOf(y, db)
    decreases |y|
  {
    if y == [] {
      assert x + y == x;
    } else {
      assert (x + y)[..|x + y| - 1] == x + y[..|y| - 1];
      RowsOfConcat(x, y[..|y| - 1], db);
    }
  }

  lemma {:induction false} RowsOfGives<Row>(d: nat, rows: seq<Row>, db: nat)
    ensures RowsOf(Gives(d, rows), db) == if d == db then rows else []
    decreases |rows|
  {
    if rows != [] {
      var n := |rows| - 1;
      assert rows == rows[..n] + [rows[n]];
      GivesMore(d, rows[..n], [rows[n]]);
      RowsOfGives(d, rows[..n], db);
      RowsOfConcat(Gives(d, rows[..n]), Gives(d, [rows[n]]), db);
      RowsOfOne(d, rows[n], db);
    }
  }

  lemma RowsOfOne<Row>(d: nat, row: Row, db: nat)
    ensures RowsOf(Gives(d, [row]), db) == if d == db then [row] else []
  {
    var e := Gives(d, [row]);
    assert e[..0] == [] && e[0] == Given(d, row);
  }

  /** Every submitted row reaches the database in use at its place in the queue, after
      the rows submitted before it, and no other. */
  lemma RowsFollowSwaps<Row>(jobs: seq<Job<Row>>, i: nat, start: nat, db: nat)
    requires i < |jobs|
    ensures RowsOf(OneByOne(jobs[..i + 1], start), db)
         == RowsOf(OneByOne(jobs[..i], start), db)
          + if jobs[i].Batch? && InUse(jobs[..i], start) == db then jobs[i].rows else []
  {
    NextJob(jobs, i, start);
    if jobs[i].Batch? {
      RowsOfConcat(OneByOne(jobs[..i], start), Gives(InUse(jobs[..i], start), jobs[i].rows), db);
      RowsOfGives(InUse(jobs[..i], start), jobs[i].rows, db);
    } else {
      RowsOfConcat(OneByOne(jobs[..i], start), [Switched(jobs[i].db)], db);
      RowsOfSwitch<Row>(jobs[i].db, db);
    }
  }

  lemma RowsOfSwitch<Row>(d: nat, db: nat)
    ensures RowsOf<Row>([Switched(d)], db) == []
  {}
}
