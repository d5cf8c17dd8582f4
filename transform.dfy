/**
 * Turning one log line into a record (`transformLog`). The logfmt tokenizer
 * is not part of this model: what it yields for a line is taken as given, a
 * sequence of records, each a sequence of key/value pairs in scan order,
 * plus the error that stopped scanning early, if any.
 */
module Transform {
  import opened Wrappers

  /** The reserved field that carries the arrival time (`FIELD_TIME`). */
  const FieldTime: string := "_time"

  /** A field value: decoded text, or the arrival timestamp (kept opaque as an int). */
  datatype Value = Text(text: string) | Time(instant: int)

  type Record = map<string, Value>

  type Pair = (string, string)

  /** What the tokenizer scanned from one line, and the error that stopped it early, if any. */
  datatype Scan = Scan(records: seq<seq<Pair>>, err: Option<string>)

  /** All pairs of all records, in scan order. */
  function Flatten(records: seq<seq<Pair>>): (pairs: seq<Pair>)
  {
    if records == [] then [] else Flatten(records[..|records| - 1]) + records[|records| - 1]
  }

  /** A pair is in the flattened scan exactly when some record holds it. */
  lemma {:induction false} FlattenMembers(records: seq<seq<Pair>>)
    ensures forall i, p :: 0 <= i < |records| && p in records[i] ==> p in Flatten(records)
    ensures forall p :: p in Flatten(records) ==> exists i :: 0 <= i < |records| && p in records[i]
  {
    if records != [] {
      var front := records[..|records| - 1];
      FlattenMembers(front);
      assert forall i :: 0 <= i < |front| ==> front[i] == records[i];
    }
  }

  /** Every key scanned, across all records. */
  ghost function ScannedKeys(records: seq<seq<Pair>>): set<string>
  {
    set i, p | 0 <= i < |records| && p in records[i] :: p.0
  }

  /** Assigning the pairs one after the other into an initially empty map. */
  function Assign(pairs: seq<Pair>): (log: Record)
    ensures forall k :: k in log ==> log[k].Text?
  {
    if pairs == [] then map[]
    else
      var last := pairs[|pairs| - 1];
      Assign(pairs[..|pairs| - 1])[last.0 := Text(last.1)]
  }

  /** The assigned keys are exactly the keys of the pairs. */
  lemma {:induction false} AssignKeys(pairs: seq<Pair>)
    ensures Assign(pairs).Keys == set p | p in pairs :: p.0
  {
    if pairs != [] {
      var front := pairs[..|pairs| - 1];
      AssignKeys(front);
      assert forall p :: p in pairs <==> p in front || p == pairs[|pairs| - 1];
    }
  }

  /** The record `transformLog` returns for the scanned records. */
  function Decode(records: seq<seq<Pair>>): Record
  {
    Assign(Flatten(records))
  }

  /** Index `i` holds the last occurrence of its key in `pairs`. */
  ghost predicate LastOccurrence(pairs: seq<Pair>, i: int)
  {
    0 <= i < |pairs| && forall j :: i < j < |pairs| ==> pairs[j].0 != pairs[i].0
  }

  /** Last write wins: a key maps to the value of its last occurrence. */
  lemma {:induction false} AssignLastWins(pairs: seq<Pair>, i: int)
    requires LastOccurrence(pairs, i)
    ensures pairs[i].0 in Assign(pairs) && Assign(pairs)[pairs[i].0] == Text(pairs[i].1)
  {
    var front := pairs[..|pairs| - 1];
    if i < |pairs| - 1 {
      assert LastOccurrence(front, i);
      AssignLastWins(front, i);
    }
  }

  /** Appending one pair is one more assignment. */
  lemma AssignSnoc(pairs: seq<Pair>, p: Pair)
    ensures Assign(pairs + [p]) == Assign(pairs)[p.0 := Text(p.1)]
  {
    assert (pairs + [p])[..|pairs|] == pairs;
  }

  /** Appending a record to the scanned records appends its pairs. */
  lemma FlattenSnoc(records: seq<seq<Pair>>, record: seq<Pair>)
    ensures Flatten(records + [record]) == Flatten(records) + record
  {
    assert (records + [record])[..|records|] == records;
  }

  /** One step of the inner loop: assigning pair `j` of `record` after `done`. */
  lemma AssignStep(done: seq<Pair>, record: seq<Pair>, j: int)
    requires 0 <= j < |record|
    ensures Assign(done + record[..j + 1]) == Assign(done + record[..j])[record[j].0 := Text(record[j].1)]
  {
    assert done + record[..j + 1] == (done + record[..j]) + [record[j]];
    AssignSnoc(done + record[..j], record[j]);
  }

  /** One step of the outer loop: all pairs of record `i` assigned after those before it. */
  lemma DecodeStep(records: seq<seq<Pair>>, i: int)
    requires 0 <= i < |records|
    ensures Decode(records[..i + 1]) == Assign(Flatten(records[..i]) + records[i][..|records[i]|])
  {
    assert records[i][..|records[i]|] == records[i];
    assert records[..i + 1] == records[..i] + [records[i]];
    FlattenSnoc(records[..i], records[i]);
  }

  /** The record's keys are exactly the keys scanned across all records. */
  lemma DecodeKeys(records: seq<seq<Pair>>)
    ensures Decode(records).Keys == ScannedKeys(records)
  {
    var pairs := Flatten(records);
    FlattenMembers(records);
    AssignKeys(pairs);
    forall k | k in ScannedKeys(records) ensures k in Decode(records) {
      var i, p :| 0 <= i < |records| && p in records[i] && p.0 == k;
      assert p in pairs;
    }
  }

  /**
   * Each decoded value is the text of the key's last occurrence in scan
   * order, whichever record it came from.
   */
  lemma DecodeLastWins(records: seq<seq<Pair>>, i: int)
    requires LastOccurrence(Flatten(records), i)
    ensures Flatten(records)[i].0 in Decode(records)
    ensures Decode(records)[Flatten(records)[i].0] == Text(Flatten(records)[i].1)
  {
    AssignLastWins(Flatten(records), i);
  }

  /** A key scanned nowhere is absent: nothing carries over from elsewhere. */
  lemma DecodeOnlyScanned(records: seq<seq<Pair>>, k: string)
    requires forall i, p :: 0 <= i < |records| && p in records[i] ==> p.0 != k
    ensures k !in Decode(records)
  {
    DecodeKeys(records);
  }

  /**
   * Scanning that stops early keeps what it collected: when the pairs
   * collected are a prefix of the pairs a full scan would visit (the stop may
   * fall inside a record), every key collected is also a key of the full
   * decode.
   */
  lemma DecodePrefixKeys(collected: seq<seq<Pair>>, full: seq<seq<Pair>>)
    requires Flatten(collected) <= Flatten(full)
    ensures Decode(collected).Keys <= Decode(full).Keys
  {
    var prefix, whole := Flatten(collected), Flatten(full);
    AssignKeys(prefix);
    AssignKeys(whole);
    forall k | k in Assign(prefix) ensures k in Assign(whole) {
      var p :| p in prefix && p.0 == k;
      var i :| 0 <= i < |prefix| && prefix[i] == p;
      assert whole[i] == p;
    }
  }

  /** Nothing scanned, nothing decoded. */
  lemma DecodeEmpty()
    ensures Decode([]) == map[]
  {
  }

  /**
   * `transformLog`: fill a fresh map, record by record and pair by pair, the
   * later assignment of a key overwriting the earlier one. A decode error
   * does not discard what was collected; it is handed back to be logged.
   */
  method TransformLog(scan: Scan) returns (log: Record, logged: Option<string>)
    ensures log == Decode(scan.records)
    ensures log.Keys == ScannedKeys(scan.records)
    ensures logged == scan.err
  {
    log := map[];
    var i := 0;
    while i < |scan.records|
      invariant 0 <= i <= |scan.records|
      invariant log == Decode(scan.records[..i])
    {
      var record := scan.records[i];
      ghost var done := Flatten(scan.records[..i]);
      var j := 0;
      assert done + record[..0] == done;
      while j < |record|
        invariant 0 <= j <= |record|
        invariant log == Assign(done + record[..j])
      {
        var (key, value) := record[j];
        AssignStep(done, record, j);
        log := log[key := Text(value)];
        j := j + 1;
      }
      DecodeStep(scan.records, i);
      i := i + 1;
    }
    assert scan.records[..i] == scan.records;
    DecodeKeys(scan.records);
    logged := scan.err;
  }
}
