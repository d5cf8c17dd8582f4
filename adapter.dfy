/**
 * The adapter itself: construction from route options and the environment,
 * the per-message insert, and the stream loop that decodes each message,
 * stamps it with its arrival time and inserts it, logging and never
 * stopping on a decode or write error.
 */
module Adapter {
  import opened Wrappers
  import opened Options
  import opened Transform

  /** A message from the router: the raw log line and its arrival time. */
  datatype Message = Message(data: string, time: int)

  /** What the database answers to one insert. */
  datatype WriteResult = Written | Failed(reason: string)

  /** One insert of a document into `db.table`. */
  datatype Write = Write(db: string, table: string, doc: Record)

  /** An error-level entry of the diagnostic log. */
  datatype LogEntry = DecodeError(err: string) | WriteError(reason: string)

  /** The document inserted for a message: its decoded fields, then `_time` set to its arrival time. */
  function Document(m: Message, tokenize: string -> Scan): Record
  {
    Decode(tokenize(m.data).records)[FieldTime := Time(m.time)]
  }

  /**
   * Every document carries `_time` equal to the arrival time, even when the
   * line itself held a `_time` field; every other field is a scanned key of
   * this message only, with the text the decoder gave it.
   */
  lemma DocumentFields(m: Message, tokenize: string -> Scan, k: string)
    ensures FieldTime in Document(m, tokenize) && Document(m, tokenize)[FieldTime] == Time(m.time)
    ensures k != FieldTime ==>
              (k in Document(m, tokenize) <==> k in ScannedKeys(tokenize(m.data).records))
    ensures k != FieldTime && k in Document(m, tokenize) ==>
              Document(m, tokenize)[k] == Decode(tokenize(m.data).records)[k] &&
              Document(m, tokenize)[k].Text?
  {
    DecodeKeys(tokenize(m.data).records);
  }

  /** A field other than `_time` holds the text of its last occurrence in the line. */
  lemma DocumentLastWins(m: Message, tokenize: string -> Scan, i: int)
    requires LastOccurrence(Flatten(tokenize(m.data).records), i)
    requires Flatten(tokenize(m.data).records)[i].0 != FieldTime
    ensures Flatten(tokenize(m.data).records)[i].0 in Document(m, tokenize)
    ensures Document(m, tokenize)[Flatten(tokenize(m.data).records)[i].0]
         == Text(Flatten(tokenize(m.data).records)[i].1)
  {
    DecodeLastWins(tokenize(m.data).records, i);
  }

  /** The inserts the stream loop issues for `ms`, one per message, in order. */
  function Inserts(db: string, table: string, ms: seq<Message>, tokenize: string -> Scan): seq<Write>
  {
    if ms == [] then []
    else Inserts(db, table, ms[..|ms| - 1], tokenize) + [Write(db, table, Document(ms[|ms| - 1], tokenize))]
  }

  /** Exactly one insert per message, the i-th for the i-th message. */
  lemma {:induction false} InsertsAt(db: string, table: string, ms: seq<Message>, tokenize: string -> Scan)
    ensures |Inserts(db, table, ms, tokenize)| == |ms|
    ensures forall i :: 0 <= i < |ms| ==>
              Inserts(db, table, ms, tokenize)[i] == Write(db, table, Document(ms[i], tokenize))
  {
    if ms != [] {
      var front := ms[..|ms| - 1];
      InsertsAt(db, table, front, tokenize);
      assert forall i :: 0 <= i < |front| ==> front[i] == ms[i];
    }
  }

  /** The documents the database accepted, in order. */
  function Stored(db: string, table: string, ms: seq<Message>, tokenize: string -> Scan,
                  outcomes: seq<WriteResult>): seq<Write>
    requires |outcomes| == |ms|
  {
    if ms == [] then []
    else
      Stored(db, table, ms[..|ms| - 1], tokenize, outcomes[..|ms| - 1])
      + (if outcomes[|ms| - 1].Written? then [Write(db, table, Document(ms[|ms| - 1], tokenize))] else [])
  }

  /** The error entries one message produces: its decode error, then its write error. */
  function MessageErrors(m: Message, tokenize: string -> Scan, outcome: WriteResult): seq<LogEntry>
  {
    (match tokenize(m.data).err case Some(e) => [DecodeError(e)] case None => [])
    + (match outcome case Failed(reason) => [WriteError(reason)] case Written => [])
  }

  /** The error entries the stream loop logs for `ms`, in order. */
  function StreamErrors(ms: seq<Message>, tokenize: string -> Scan, outcomes: seq<WriteResult>): seq<LogEntry>
    requires |outcomes| == |ms|
  {
    if ms == [] then []
    else
      StreamErrors(ms[..|ms| - 1], tokenize, outcomes[..|ms| - 1])
      + MessageErrors(ms[|ms| - 1], tokenize, outcomes[|ms| - 1])
  }

  /** How many messages the tokenizer stopped on with an error. */
  function DecodeFailures(ms: seq<Message>, tokenize: string -> Scan): nat
  {
    if ms == [] then 0
    else DecodeFailures(ms[..|ms| - 1], tokenize) + (if tokenize(ms[|ms| - 1].data).err.Some? then 1 else 0)
  }

  /** How many inserts failed. */
  function WriteFailures(outcomes: seq<WriteResult>): nat
  {
    if outcomes == [] then 0
    else WriteFailures(outcomes[..|outcomes| - 1]) + (if outcomes[|outcomes| - 1].Failed? then 1 else 0)
  }

  /** Fault isolation: one error entry per induced failure, no more and no fewer. */
  lemma {:induction false} ErrorCount(ms: seq<Message>, tokenize: string -> Scan, outcomes: seq<WriteResult>)
    requires |outcomes| == |ms|
    ensures |StreamErrors(ms, tokenize, outcomes)| == DecodeFailures(ms, tokenize) + WriteFailures(outcomes)
  {
    if ms != [] {
      ErrorCount(ms[..|ms| - 1], tokenize, outcomes[..|ms| - 1]);
    }
  }

  /** Every message is either stored or counted as a failed write. */
  lemma {:induction false} StoredCount(db: string, table: string, ms: seq<Message>,
                                       tokenize: string -> Scan, outcomes: seq<WriteResult>)
    requires |outcomes| == |ms|
    ensures |Stored(db, table, ms, tokenize, outcomes)| + WriteFailures(outcomes) == |ms|
  {
    if ms != [] {
      StoredCount(db, table, ms[..|ms| - 1], tokenize, outcomes[..|ms| - 1]);
    }
  }

  /** An insert that succeeded leaves its message's document among the stored ones. */
  lemma {:induction false} StoredWritten(db: string, table: string, ms: seq<Message>,
                                         tokenize: string -> Scan, outcomes: seq<WriteResult>, i: int)
    requires |outcomes| == |ms| && 0 <= i < |ms| && outcomes[i].Written?
    ensures Write(db, table, Document(ms[i], tokenize)) in Stored(db, table, ms, tokenize, outcomes)
  {
    if i < |ms| - 1 {
      StoredWritten(db, table, ms[..|ms| - 1], tokenize, outcomes[..|ms| - 1], i);
    }
  }

  /** Every stored entry is the document of a message whose insert succeeded. */
  lemma {:induction false} StoredOnlyWritten(db: string, table: string, ms: seq<Message>,
                                             tokenize: string -> Scan, outcomes: seq<WriteResult>, w: Write)
    requires |outcomes| == |ms|
    requires w in Stored(db, table, ms, tokenize, outcomes)
    ensures exists i :: 0 <= i < |ms| && outcomes[i].Written? && w == Write(db, table, Document(ms[i], tokenize))
  {
    var n := |ms| - 1;
    if w !in Stored(db, table, ms[..n], tokenize, outcomes[..n]) {
      assert outcomes[n].Written? && w == Write(db, table, Document(ms[n], tokenize));
    } else {
      StoredOnlyWritten(db, table, ms[..n], tokenize, outcomes[..n], w);
      var i :| 0 <= i < n && outcomes[..n][i].Written? && w == Write(db, table, Document(ms[..n][i], tokenize));
      assert ms[..n][i] == ms[i] && outcomes[..n][i] == outcomes[i];
    }
  }

  /** One turn of the stream loop extends each of the three traces by message `n`'s share. */
  lemma StreamStep(db: string, table: string, ms: seq<Message>, tokenize: string -> Scan,
                   outcomes: seq<WriteResult>, n: int)
    requires |outcomes| == |ms| && 0 <= n < |ms|
    ensures Inserts(db, table, ms[..n + 1], tokenize)
         == Inserts(db, table, ms[..n], tokenize) + [Write(db, table, Document(ms[n], tokenize))]
    ensures Stored(db, table, ms[..n + 1], tokenize, outcomes[..n + 1])
         == Stored(db, table, ms[..n], tokenize, outcomes[..n])
            + (if outcomes[n].Written? then [Write(db, table, Document(ms[n], tokenize))] else [])
    ensures StreamErrors(ms[..n + 1], tokenize, outcomes[..n + 1])
         == StreamErrors(ms[..n], tokenize, outcomes[..n]) + MessageErrors(ms[n], tokenize, outcomes[n])
  {
    assert ms[..n + 1][..n] == ms[..n];
    assert outcomes[..n + 1][..n] == outcomes[..n];
  }

  /** A trace that was `base + done` and then grew by `more` is `base + (done + more)`. */
  lemma Extend<T>(trace: seq<T>, before: seq<T>, base: seq<T>, done: seq<T>, more: seq<T>)
    requires before == base + done && trace == before + more
    ensures trace == base + (done + more)
  {
  }

  /** The adapter: its resolved sink target and debug flag, and what it has done to the sink and the log. */
  class LogfmtRethinkdbAdapter {
    const address: string
    const db: string
    const table: string
    const debug: bool
    /** Every insert attempted, in order. */
    var inserts: seq<Write>
    /** The inserts the database accepted, in order. */
    var stored: seq<Write>
    /** The error-level diagnostic log. */
    var errors: seq<LogEntry>

    /** Resolve db, table and debug from the route's options and the environment. */
    constructor (address: string, options: map<string, string>, env: map<string, string>)
      ensures this.address == address
      ensures Settings(db, table, debug) == ResolveSettings(options, env)
      ensures inserts == [] && stored == [] && errors == []
    {
      this.address := address;
      var settings := ResolveSettings(options, env);
      db, table, debug := settings.db, settings.table, settings.debug;
      inserts, stored, errors := [], [], [];
    }

    /** `insertLog`: one insert into `db.table`; a failure is logged and not retried. */
    method InsertLog(log: Record, outcome: WriteResult)
      modifies this
      ensures inserts == old(inserts) + [Write(db, table, log)]
      ensures stored == old(stored) + (if outcome.Written? then [Write(db, table, log)] else [])
      ensures errors == old(errors) + (match outcome case Failed(reason) => [WriteError(reason)] case Written => [])
    {
      inserts := inserts + [Write(db, table, log)];
      match outcome
      case Written =>
        stored := stored + [Write(db, table, log)];
      case Failed(reason) =>
        errors := errors + [WriteError(reason)];
    }

    /**
     * `Stream`: for each message in order, decode it, overwrite `_time`
     * with its arrival time and insert it. `outcomes[n]` is the database's
     * answer to the n-th insert. No error stops the loop.
     */
    method Stream(logstream: seq<Message>, tokenize: string -> Scan, outcomes: seq<WriteResult>)
      requires |outcomes| == |logstream|
      modifies this
      ensures inserts == old(inserts) + Inserts(db, table, logstream, tokenize)
      ensures stored == old(stored) + Stored(db, table, logstream, tokenize, outcomes)
      ensures errors == old(errors) + StreamErrors(logstream, tokenize, outcomes)
    {
      var n := 0;
      while n < |logstream|
        invariant 0 <= n <= |logstream|
        invariant inserts == old(inserts) + Inserts(db, table, logstream[..n], tokenize)
        invariant stored == old(stored) + Stored(db, table, logstream[..n], tokenize, outcomes[..n])
        invariant errors == old(errors) + StreamErrors(logstream[..n], tokenize, outcomes[..n])
      {
        var m := logstream[n];
        ghost var insertsBefore, storedBefore, errorsBefore := inserts, stored, errors;
        var log, err := TransformLog(tokenize(m.data));
        if err.Some? {
          errors := errors + [DecodeError(err.value)];
        }
        log := log[FieldTime := Time(m.time)];
        assert log == Document(m, tokenize);
        InsertLog(log, outcomes[n]);
        StreamStep(db, table, logstream, tokenize, outcomes, n);
        Extend(inserts, insertsBefore, old(inserts), Inserts(db, table, logstream[..n], tokenize),
               [Write(db, table, Document(m, tokenize))]);
        Extend(stored, storedBefore, old(stored), Stored(db, table, logstream[..n], tokenize, outcomes[..n]),
               if outcomes[n].Written? then [Write(db, table, Document(m, tokenize))] else []);
        Extend(errors, errorsBefore, old(errors), StreamErrors(logstream[..n], tokenize, outcomes[..n]),
               MessageErrors(m, tokenize, outcomes[n]));
        n := n + 1;
      }
      assert logstream[..n] == logstream;
      assert outcomes[..n] == outcomes;
    }
  }

  /**
   * `NewLogfmtRethinkdbAdapter`: connecting to the database comes first; a
   * connection error is returned and no adapter is built.
   */
  method NewLogfmtRethinkdbAdapter(address: string, options: map<string, string>, env: map<string, string>,
                                   connectErr: Option<string>)
    returns (r: Result<LogfmtRethinkdbAdapter, string>)
    ensures connectErr.Some? ==> r == Failure(connectErr.value)
    ensures connectErr.None? ==>
              r.Success? && fresh(r.value) && r.value.address == address &&
              Settings(r.value.db, r.value.table, r.value.debug) == ResolveSettings(options, env) &&
              r.value.inserts == [] && r.value.stored == [] && r.value.errors == []
  {
    if connectErr.Some? {
      return Failure(connectErr.value);
    }
    var a := new LogfmtRethinkdbAdapter(address, options, env);
    return Success(a);
  }

  /** `level=info msg="hello world" count=3` arriving at time t. */
  lemma HelloWorldDocument(t: int, tokenize: string -> Scan)
    requires tokenize("level=info msg=\"hello world\" count=3")
          == Scan([[("level", "info"), ("msg", "hello world"), ("count", "3")]], None)
    ensures Document(Message("level=info msg=\"hello world\" count=3", t), tokenize)
         == map["level" := Text("info"), "msg" := Text("hello world"), "count" := Text("3"), "_time" := Time(t)]
  {
    var pairs: seq<Pair> := [("level", "info"), ("msg", "hello world"), ("count", "3")];
    var records: seq<seq<Pair>> := [pairs];
    assert records[..0] == [];
    assert Flatten(records) == pairs;
    assert pairs[..2] == [("level", "info"), ("msg", "hello world")];
    assert pairs[..2][..1] == [("level", "info")];
    assert pairs[..2][..1][..0] == [];
    assert Assign(pairs[..2][..1]) == map["level" := Text("info")];
    assert Assign(pairs[..2]) == map["level" := Text("info"), "msg" := Text("hello world")];
    assert Decode(records) == map["level" := Text("info"), "msg" := Text("hello world"), "count" := Text("3")];
  }

  /** Two records `a=1` and `b=2` decode into one flat record. */
  lemma TwoRecordsDecode()
    ensures Decode([[("a", "1")], [("b", "2")]]) == map["a" := Text("1"), "b" := Text("2")]
  {
    var records: seq<seq<Pair>> := [[("a", "1")], [("b", "2")]];
    assert records[..1] == [[("a", "1")]];
    assert records[..1][..0] == [];
    assert Flatten(records) == [("a", "1"), ("b", "2")];
    var pairs: seq<Pair> := [("a", "1"), ("b", "2")];
    assert pairs[..1] == [("a", "1")];
    assert pairs[..1][..0] == [];
  }
}
