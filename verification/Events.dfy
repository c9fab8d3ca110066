/**
 The event outbox and its append-only log (runtime/store.py, runtime/events.py). A flush
 appends a row's line, syncs it, and then marks the row delivered; the process may die between
 any two of these steps, and commits go on meanwhile.
 */
module Events {

  datatype Line = Line(id: string, json: string)

  datatype Row = Row(line: Line, delivered: bool)

  // ---- what log and outbox have to do with each other ----

  ghost predicate HasDistinctIds(rows: seq<Row>) {
    forall i, j | 0 <= i < j < |rows| :: rows[i].line.id != rows[j].line.id
  }

  /** The log is a prefix of the outbox, the first `d` rows are delivered, and `d` lags by at most one. */
  ghost predicate InStep(file: seq<Line>, rows: seq<Row>, d: nat) {
    && HasDistinctIds(rows)
    && d <= |file| <= d + 1 && |file| <= |rows|
    && (forall i | 0 <= i < |file| :: file[i] == rows[i].line)
    && (forall i | 0 <= i < |rows| :: rows[i].delivered <==> i < d)
  }

  /** So no event is in the log twice, and those in it are in the order of the outbox. */
  lemma LogIsExactlyOnce(file: seq<Line>, rows: seq<Row>, d: nat)
    requires InStep(file, rows, d)
    ensures forall i, j | 0 <= i < j < |file| :: file[i].id != file[j].id
    ensures forall i | 0 <= i < |file| :: file[i] == rows[i].line
    ensures forall i | d <= i < |rows| && |file| <= i :: rows[i].line !in file
  {
    forall i | |file| <= i < |rows| ensures rows[i].line !in file {
      forall j | 0 <= j < |file| ensures file[j] != rows[i].line { assert rows[j].line.id != rows[i].line.id; }
    }
  }

  function Undelivered(rows: seq<Row>): seq<Line> {
    if rows == [] then []
    else (if rows[0].delivered then [] else [rows[0].line]) + Undelivered(rows[1..])
  }

  lemma {:induction false} UndeliveredAreTheRest(rows: seq<Row>, d: nat)
    requires d <= |rows| && forall i | 0 <= i < |rows| :: rows[i].delivered <==> i < d
    ensures |Undelivered(rows)| == |rows| - d
    ensures forall k | 0 <= k < |rows| - d :: Undelivered(rows)[k] == rows[d + k].line
    decreases |rows|
  {
    if rows != [] {
      if d > 0 { UndeliveredAreTheRest(rows[1..], d - 1); } else { UndeliveredAreTheRest(rows[1..], 0); }
    }
  }

  // ---- the outbox ----

  class StateStore {
    var outbox: seq<Row>

    constructor ()
      ensures outbox == []
    {
      outbox := [];
    }

    /** A transaction that enqueues an event; a second event of the same id rolls it back. */
    method Enqueue(line: Line) returns (committed: bool)
      modifies this
      ensures committed == forall i | 0 <= i < |old(outbox)| :: old(outbox)[i].line.id != line.id
      ensures outbox == if committed then old(outbox) + [Row(line, false)] else old(outbox)
    {
      committed := true;
      for i := 0 to |outbox|
        invariant outbox == old(outbox)
        invariant committed == forall j | 0 <= j < i :: outbox[j].line.id != line.id
      {
        if outbox[i].line.id == line.id { committed := false; }
      }
      if committed { outbox := outbox + [Row(line, false)]; }
    }

    /** `outbox_rows`: the undelivered rows in insertion order. */
    method OutboxRows() returns (rows: seq<Line>)
      ensures rows == Undelivered(outbox)
    {
      rows := [];
      var i := |outbox|;
      while i > 0
        invariant 0 <= i <= |outbox| && rows == Undelivered(outbox[i..])
      {
        i := i - 1;
        assert outbox[i..][1..] == outbox[i + 1..];
        if !outbox[i].delivered { rows := [outbox[i].line] + rows; }
      }
      assert outbox[0..] == outbox;
    }

    /** `mark_event_delivered`. */
    method MarkDelivered(id: string, ghost at: nat)
      requires HasDistinctIds(outbox) && at < |outbox| && outbox[at].line.id == id
      modifies this
      ensures outbox == old(outbox)[at := Row(old(outbox)[at].line, true)]
    {
      for i := 0 to |outbox|
        invariant |outbox| == |old(outbox)|
        invariant forall j | 0 <= j < |outbox| ::
          outbox[j] == if j < i && j == at then Row(old(outbox)[j].line, true) else old(outbox)[j]
      {
        if outbox[i].line.id == id && !outbox[i].delivered { outbox := outbox[i := Row(outbox[i].line, true)]; }
      }
    }
  }

  // ---- the log ----

  class EventStore {
    var file: seq<Line>

    constructor ()
      ensures file == []
    {
      file := [];
    }

    /** `_existing_ids`. */
    method ExistingIds() returns (ids: set<string>)
      ensures ids == IdsOf(file)
    {
      ids := {};
      for i := 0 to |file|
        invariant ids == set j | 0 <= j < i :: file[j].id
      {
        ids := ids + {file[i].id};
      }
    }

    /** The durable steps that a flush of `n` rows takes: an append for each row not in the log, and a mark. */
    static function Steps(logged: nat, n: nat, d: nat): int { if d < n then n - logged + n - d else 0 }

    /**
     `_flush_locked`. The process dies after `lives` durable steps, if the flush needs more;
     one transaction of `arrivals` commits before each row.
     */
    method Flush(state: StateStore, lives: nat, arrivals: seq<Line>, ghost d: nat)
      returns (delivered: nat, died: bool, ghost d': nat)
      requires InStep(file, state.outbox, d)
      modifies this, state
      ensures InStep(file, state.outbox, d')
      ensures old(file) <= file && Keeps(old(state.outbox), state.outbox)
      ensures !died ==> d' == |old(state.outbox)| && |file| >= d' && delivered == d' - d
      ensures !died && arrivals == [] ==> file == Lines(state.outbox) && state.outbox == Delivered(old(state.outbox))
      ensures died <==> lives < Steps(|old(file)|, |old(state.outbox)|, d)
      ensures died ==> |file| - |old(file)| + d' - d == lives
    {
      hide InStep, Keeps, IdsOf;
      var existing := ExistingIds();
      var rows := state.OutboxRows();
      RowsToFlush(file, state.outbox, d);
      KeepsItself(state.outbox);
      var left: nat := lives;
      delivered, d' := 0, d;
      for k := 0 to |rows|
        invariant d' == d + k && delivered == k && |rows| == |old(state.outbox)| - d
        invariant |file| == (if k == 0 then |old(file)| else d') && left + |file| - |old(file)| + k == lives
        invariant InStep(file, state.outbox, d') && old(file) <= file && Keeps(old(state.outbox), state.outbox)
        invariant existing == IdsOf(file)
        invariant arrivals == [] ==> |state.outbox| == |old(state.outbox)|
      {
        if k < |arrivals| {
          ghost var before := state.outbox;
          Arrive(state, arrivals[k], d');
          KeepsChains(old(state.outbox), before, state.outbox);
        }
        var row := rows[k];
        RowIsNext(file, old(state.outbox), state.outbox, d, d');
        if row.id !in existing {
          if left == 0 { return delivered, true, d'; }
          left := left - 1;
          AppendKeepsStep(file, state.outbox, d');
          IdsGrow(file, row);
          file := file + [row];
          existing := existing + {row.id};
        }
        if left == 0 { return delivered, true, d'; }
        left := left - 1;
        MarkKeepsStep(file, state.outbox, d');
        ghost var before := state.outbox;
        state.MarkDelivered(row.id, d');
        KeepsMarked(old(state.outbox), before, d');
        delivered := delivered + 1;
        d' := d' + 1;
      }
      died := false;
      AllFlushed(file, old(state.outbox), state.outbox, d');
    }

    /** Another thread's transaction commits. */
    method Arrive(state: StateStore, line: Line, ghost d: nat)
      requires InStep(file, state.outbox, d)
      modifies state
      ensures InStep(file, state.outbox, d) && Keeps(old(state.outbox), state.outbox)
    {
      var _ := state.Enqueue(line);
    }
  }

  // ---- one step of a flush ----

  /** The old rows are still there, in place; they may have been delivered since. */
  ghost predicate Keeps(earlier: seq<Row>, rows: seq<Row>) {
    |earlier| <= |rows| && forall i | 0 <= i < |earlier| :: rows[i].line == earlier[i].line
  }

  function Lines(rows: seq<Row>): seq<Line> { seq(|rows|, i requires 0 <= i < |rows| => rows[i].line) }

  function Delivered(rows: seq<Row>): seq<Row> { seq(|rows|, i requires 0 <= i < |rows| => Row(rows[i].line, true)) }

  lemma KeepsChains(a: seq<Row>, b: seq<Row>, c: seq<Row>)
    requires Keeps(a, b) && Keeps(b, c)
    ensures Keeps(a, c)
  {
  }

  function IdsOf(file: seq<Line>): set<string> { set i | 0 <= i < |file| :: file[i].id }

  lemma IdsGrow(file: seq<Line>, line: Line)
    ensures IdsOf(file + [line]) == IdsOf(file) + {line.id}
  {
    var more := file + [line];
    assert more[|file|] == line;
    forall id | id in IdsOf(file) ensures id in IdsOf(more) {
      var i :| 0 <= i < |file| && file[i].id == id;
      assert more[i].id == id;
    }
  }

  lemma KeepsItself(rows: seq<Row>)
    ensures Keeps(rows, rows)
  {
  }

  lemma KeepsMarked(earlier: seq<Row>, rows: seq<Row>, d: nat)
    requires Keeps(earlier, rows) && d < |rows|
    ensures Keeps(earlier, rows[d := Row(rows[d].line, true)])
  {
  }

  lemma RowsToFlush(file: seq<Line>, rows: seq<Row>, d: nat)
    requires InStep(file, rows, d)
    ensures |Undelivered(rows)| == |rows| - d
    ensures forall k | 0 <= k < |rows| - d :: Undelivered(rows)[k] == rows[d + k].line
  {
    UndeliveredAreTheRest(rows, d);
  }

  /** The row at hand is the next of the outbox; it is in the log exactly when the log is one ahead. */
  lemma RowIsNext(file: seq<Line>, earlier: seq<Row>, rows: seq<Row>, d: nat, at: nat)
    requires InStep(file, rows, at) && Keeps(earlier, rows) && d <= at < |earlier|
    ensures HasDistinctIds(rows) && at < |rows| && rows[at].line == earlier[at].line
    ensures rows[at].line.id in IdsOf(file) <==> |file| == at + 1
    ensures |file| == at || |file| == at + 1
  {
    if |file| == at + 1 {
      assert file[at].id == rows[at].line.id;
    } else {
      forall i | 0 <= i < |file| ensures file[i].id != rows[at].line.id { assert rows[i].line.id != rows[at].line.id; }
    }
  }

  lemma AppendKeepsStep(file: seq<Line>, rows: seq<Row>, d: nat)
    requires InStep(file, rows, d) && |file| == d < |rows|
    ensures InStep(file + [rows[d].line], rows, d)
  {
  }

  lemma MarkKeepsStep(file: seq<Line>, rows: seq<Row>, d: nat)
    requires InStep(file, rows, d) && |file| == d + 1
    ensures d < |rows| && InStep(file, rows[d := Row(rows[d].line, true)], d + 1)
  {
  }

  lemma AllFlushed(file: seq<Line>, earlier: seq<Row>, rows: seq<Row>, d: nat)
    requires InStep(file, rows, d) && Keeps(earlier, rows) && d == |earlier|
    ensures |file| >= d
    ensures |rows| == |earlier| ==> file == Lines(rows) && rows == Delivered(earlier)
  {
  }
}
