# logfmt-rethinkdb adapter, modelled in Dafny

This project models the logspout adapter `logfmt-rethinkdb` (`rethinkdb.go`).
The adapter receives log messages from the router. It decodes each message's
logfmt text into a flat record and overwrites the reserved field `_time` with
the message's arrival time. Then it inserts the record as one document into a
RethinkDB table. A decode error or a failed insert is logged, and the stream
goes on.

Modules:

- `Options` (`options.dfy`): `getopt`, the three-level fallback from a route
  option to an environment variable to a default. A missing map key and an
  unset variable both read as `""`. Also the db/table/debug settings that the
  constructor derives.
- `Transform` (`transform.dfy`): `transformLog`. It fills a fresh map with a
  nested loop over the scanned records and their key/value pairs, and the
  last write of a key wins. The specification is `Decode`, a fold over the
  flattened pairs. Its lemmas give the key set (the union over all records),
  the value of each key (its last occurrence in scan order), and the fact
  that an early stop keeps what was collected.
- `Adapter` (`adapter.dfy`): the adapter class. It holds its sink target and
  debug flag, a trace of the inserts it attempted, the documents the
  database accepted, and the error log. It also has the constructor, the
  connection check of `NewLogfmtRethinkdbAdapter`, `insertLog` and the
  `Stream` loop. Specification functions give the traces a whole stream
  produces, and lemmas cover one insert per message in order, `_time`
  always being the arrival time, and one error entry per failure.
- `Wrappers` (`wrappers.dfy`): `Option` and `Result`.

Outside collaborators are parameters:

- The logfmt tokenizer is `tokenize: string -> Scan`. A `Scan` is the
  records scanned, each a sequence of pairs, plus the error that stopped
  scanning, if any.
- The process environment is a `map<string, string>`.
- The outcome of connecting is an `Option<string>` error.
- The database's answer to each insert is a `WriteResult`, one per message.

## Model

| member | source | states |
|---|---|---|
| Options.Getopt | rethinkdb.go:102-112 | the result is the option value, the environment value or the default, and it is empty only if the default is empty |
| Options.FirstNonEmpty | rethinkdb.go:102-112 | reference for layered fallback: the result is "" iff every candidate is empty, and otherwise it is the first non-empty candidate |
| Options.GetoptIsFirstNonEmpty | rethinkdb.go:102-112 | `getopt` equals the first non-empty of option, environment value and default |
| Options.GetoptOptionWins | rethinkdb.go:103-104 | a non-empty option is returned whatever the environment and the default are |
| Options.GetoptEnvFallback | rethinkdb.go:104-105 | with the option missing or empty, a non-empty environment value is returned |
| Options.GetoptDefaultIff | rethinkdb.go:106-108 | for a default different from both other sources, the default is returned iff the option and the environment value are both empty |
| Options.GetoptBothEmpty | rethinkdb.go:103-108 | with the option and the environment value both empty, the default is returned, whatever it is ("" included) |
| Options.GetoptNeverEmpty | rethinkdb.go:106-108 | with a non-empty default the resolved value is never empty |
| Options.ResolveSettings | rethinkdb.go:47-60 | db and table are never empty, and debug holds iff the resolved debug string is exactly "true" |
| Options.DefaultSettings | rethinkdb.go:47-49 | with nothing configured, the settings are db "logs", table "logs" and debug off |
| Options.DebugIff | rethinkdb.go:49-60 | debug is on iff the option is "true", or the option is empty and DEBUG is "true"; any other spelling leaves it off |
| Transform.Assign | rethinkdb.go:84-86 | every value assigned from scanned pairs is text |
| Transform.FlattenMembers | rethinkdb.go:83-87 | a pair is visited by the nested scan iff some record holds it |
| Transform.AssignKeys | rethinkdb.go:83-87 | the assigned keys are exactly the keys of the scanned pairs |
| Transform.AssignLastWins | rethinkdb.go:85 | a key maps to the text of its last occurrence |
| Transform.DecodeKeys | rethinkdb.go:80-87 | the record's key set is the union of the keys scanned across all records |
| Transform.DecodeLastWins | rethinkdb.go:83-87 | each key maps to the value of its last occurrence in scan order, across records |
| Transform.DecodeOnlyScanned | rethinkdb.go:80 | a key scanned from no record of the message is absent, so nothing carries over |
| Transform.DecodePrefixKeys | rethinkdb.go:88-92 | when scanning stops early, even inside a record, so that the pairs collected are a prefix of the pairs a full scan visits, every key collected is a key of the full decode |
| Transform.DecodeEmpty | rethinkdb.go:80 | nothing scanned gives the empty record |
| Transform.TransformLog | rethinkdb.go:79-93 | the nested loop's map equals `Decode` of the scanned records and has exactly the scanned keys; the decode error is handed back to be logged and discards nothing |
| Adapter.DocumentFields | rethinkdb.go:72-73 | the inserted document has `_time` equal to the arrival time even if the line held `_time`; every other field is a scanned key of this message, with the decoded text |
| Adapter.DocumentLastWins | rethinkdb.go:72-73 | a field other than `_time` holds the text of its last occurrence in the line |
| Adapter.InsertsAt | rethinkdb.go:71-75 | the stream issues exactly one insert per message, the i-th carrying the i-th message's document |
| Adapter.ErrorCount | rethinkdb.go:71-99 | the error log grows by exactly the number of decode failures plus the number of failed inserts |
| Adapter.StoredCount | rethinkdb.go:95-99 | the number of stored documents plus the number of failed inserts is the number of messages |
| Adapter.StoredWritten | rethinkdb.go:95-99 | a message whose insert succeeded has its document, with `_time`, stored in `db.table` |
| Adapter.StoredOnlyWritten | rethinkdb.go:95-99 | every stored entry is the document of some message whose insert succeeded |
| Adapter.LogfmtRethinkdbAdapter.constructor | rethinkdb.go:47-60 | db, table and debug are the resolved settings, and the traces start empty |
| Adapter.LogfmtRethinkdbAdapter.InsertLog | rethinkdb.go:95-100 | one insert into `db.table` is attempted; on success the document is stored, on failure one error entry is logged and nothing is stored |
| Adapter.LogfmtRethinkdbAdapter.Stream | rethinkdb.go:68-77 | the insert trace, the stored documents and the error log each grow by exactly what the specification functions give for the whole stream, in order; no failure stops the loop |
| Adapter.NewLogfmtRethinkdbAdapter | rethinkdb.go:39-64 | a connection error is returned and no adapter is built; otherwise a fresh adapter with the resolved settings and empty traces |
| Adapter.HelloWorldDocument | rethinkdb.go:72-74 | `level=info msg="hello world" count=3` arriving at t becomes `{level: "info", msg: "hello world", count: "3", _time: t}` |
| Adapter.TwoRecordsDecode | rethinkdb.go:83-87 | two records `a=1` and `b=2` decode into the one flat record `{a: "1", b: "2"}` |

## Left out

- The logfmt tokenizer (quoting, bare keys, record boundaries, `ScanRecord`/`ScanKeyval`, rethinkdb.go:82-87) belongs to the go-logfmt library, which is not part of this model. It is the parameter `tokenize`. Its purity makes decoding the same line twice give the same record.
- Connecting to RethinkDB and `Insert(...).RunWrite` (rethinkdb.go:39-45, 96) are network I/O. Connecting is an `Option<string>` error, and each insert's result is a `WriteResult` taken from `outcomes`. `Stream` requires one outcome per message only so that it has an answer for every insert it makes.
- Logger construction and the info and debug log lines (rethinkdb.go:32-35, 62, 69) are left out, and so is the error log line of a failed connect (rethinkdb.go:43). The adapter keeps only the error entries logged during streaming, as `errors`.
- Transform.TransformLog: returns the decode error to its caller instead of logging it. `Stream` appends it to the error log, before that message's write error, which is the order the source logs them in.
- The router's `init` registration (rethinkdb.go:18-20), the `route` and `session` fields and `os.Getenv` are left out. The route is its address and options, and the environment is a map.
- Channel blocking and closing are left out. The stream is a finite sequence, and the loop ends when the sequence is exhausted.
- The arrival time `m.Time` is an opaque `int`.
- Error entries carry only the error value (rethinkdb.go:89, 98). The `ts`, `caller` and `level` fields that the go-kit logger adds to each entry (rethinkdb.go:33-35) are dropped along with the logger construction.
