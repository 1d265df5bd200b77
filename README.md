# gory request logging kernel, in Dafny

gory is a Go web-service skeleton built on gin and logrus. Its logging
kernel has three parts, and this project models all three:

- **`GoryFormatter.Format`** turns one logrus entry into one text line. The
  tokens are joined by single spaces, in this order:
  1. the header `"<time> <level> <pn>[<pid>]:"`;
  2. a bracketed request group `[ip - status method uri id]`, present only when the entry has request fields;
  3. one `k => v` token per meta entry;
  4. the message;
  5. an optional `<cost>ms`;
  6. a final newline.
- **The request log context.** `AddLogArgs` and `AddLogMeta` update a per-request bag. The bag has two lazily created tables, `args` and `metas`.
- **The logging middleware (`LoggerMiddlerware`).** It binds the request fields before the handler chain runs. After the chain returns, it writes exactly one Info record. That record:
  - holds the status, the metas and the cost;
  - has the message `<handler>(k=%#v,...)`, built from the args table.

The kernel exists twice: in `log/log.go` and in `gory.go`.

- `Format` in gory.go:71-114 is a verbatim copy of `Format` in log/log.go:47-90. The same holds for `addLogArgs`/`addLogMeta` (gory.go:173-191) and `AddLogArgs`/`AddLogMeta` (log/log.go:135-153). Each is modelled once; its table row cites the log/log.go copy and names the gory.go one.
- The two middlewares differ in one place. log/log.go passes the handler name through `filepath.Base`; gory.go does not. Each is modelled as its own `LoggerMiddleware`, and both share `Middleware.HandleRequest`.

The project has six modules:

- **Wrappers**: `Option`, `Result` and `Outcome` (a panic).
- **GoText**: the Go library formatting the kernel relies on:
  - `strings.Join`;
  - `%v` of an int;
  - `strconv.Quote`, which is what `%#v` of a string prints;
  - `filepath.Base`.
- **Formatter**: records, map iteration orders, and `Format`.
- **RequestLog**: the `LogCtx` class and its two accessors.
- **Middleware**: the log/log.go middleware.
- **Gory**: the gory.go middleware and its example handlers.

Go's map iteration order is unspecified. Each range loop over a table therefore takes its visiting order as a parameter, which may be any sequence that lists every key exactly once (`Enumerates`). A handler's run is modelled as the sequence of accessor calls it makes.

## Model

| member | source | states |
|---|---|---|
| Formatter.Format | log/log.go:47-90 | The line is the space-joined token list in the order header, request group, meta tokens, message, cost, newline (`Line`); the error result is always nil. gory.go:71-114 is the same code |
| Formatter.RequestInfo | log/log.go:58-74 | The request group parts are the present keys in the order ip, "-", status, method, URI, id; each is rendered with `%v` |
| Formatter.GroupLayout | log/log.go:58-77 | There is one part per present key, plus "-" exactly when the ip is present. The group is non-empty iff one of the five request keys is present. The ip and its "-" come first and the id last; with all five keys the parts are exactly [ip, "-", status, method, uri, id] |
| Formatter.GroupPresence | log/log.go:58-77 | The group has two parts for the ip and one for each other present key, so the bracketed group token is written exactly when one of the five request keys is present |
| Formatter.TokenLayout | log/log.go:47-90 | The line has 3 + g + n + c tokens (g: group present, n: meta entries, c: cost present). The header is token 0 and the group token 1 when present. Meta key i visited is at 1+g+i as "k => v". Then come the message, then "<cost>ms" when cost is present, and "\n" last |
| Formatter.MetaTokensAreEntries | log/log.go:78-83 | The multiset of meta tokens is exactly the metas map's entries rendered "k => v", one per entry, whatever the iteration order; without metas there are none |
| Formatter.MapTokensAreEntries | log/log.go:79-82 | For any range order of a map, the multiset of appended tokens is exactly the map's entries rendered one token each |
| Formatter.MapTokensOrderIrrelevant | log/log.go:79-82 | Two iteration orders of the same map produce the same multiset of tokens |
| Formatter.EnumerationCovers | log/log.go:80-82 | A range order of a map visits every key of the map |
| Formatter.AppendEntryTokens | log/log.go:79-82 | The range loop appends to the list it is given exactly the tokens `MapTokens` assigns to the visited keys, in visit order; the same loop builds the arg tokens (log/log.go:123-126) |
| Formatter.MapTokensSnoc | log/log.go:80-82 | Visiting one more key appends exactly that key's token to the tokens of the keys visited before |
| Formatter.MapTokensAt | log/log.go:80-82 | The i-th token appended by the range loop renders the i-th visited key and its value |
| Formatter.TokenFrame | log/log.go:47-90 | Around the metas, the line has the header first, the group token second when present, then the message, the cost token when present, and "\n" last |
| Formatter.MetaTokenPosition | log/log.go:78-83 | The token of the i-th visited meta key sits right after the header and the group token |
| Formatter.LineFrame | log/log.go:84-89 | Every line starts with the header followed by a space and ends in " \n" |
| Formatter.BareLine | log/log.go:75-89 | A record with no request keys, no metas and no cost formats as header + " " + message + " \n" |
| Formatter.TwoMetasExample | log/log.go:78-83 | Metas {"a": "1", "b": "2"} give the meta tokens "a => 1" and "b => 2", in one order or the other |
| Formatter.GoSyntaxReadsBack | log/log.go:125 | `%#v` of a string unquotes back to the string, and `%#v` of an int parses back to the int |
| GoText.EscapeRoundTrip | log/log.go:125 | Unescaping the escaped body of a quoted string gives the string back |
| GoText.QuoteRoundTrip | log/log.go:125 | A quoted string value reads back as itself |
| GoText.EscapeThen | log/log.go:125 | Unescaping an escaped string followed by any text reads the whole string back and then goes on with the text, failing exactly when the text fails |
| GoText.QuoteSelfDelimiting | log/log.go:125 | A quoted value followed by any non-empty text never reads back as one quoted value, so a quoted arg value cannot run into its neighbours |
| GoText.QuotePlain | log/log.go:125 | A string of letters, digits and '_' is quoted by wrapping it in double quotes |
| GoText.IntDecimalRoundTrip | log/log.go:63-65 | The decimal text printed for an int (the status code) parses back to that int |
| GoText.BaseName | log/log.go:130 | `filepath.Base` is non-empty and is "/" or free of '/'. It is "." for the empty name, "/" for a name of slashes only, and the name itself for a non-empty name without '/'. Otherwise it is the last element: the suffix after the last '/' once trailing slashes are dropped |
| GoText.BaseNameIsLastElement | log/log.go:130 | For a path that is not all slashes, the base name is a suffix of the path without its trailing slashes. It holds no '/' and is either that whole path or preceded by a '/' |
| GoText.BaseNameLastElement | log/log.go:130 | For an element without '/', the base name of dir + "/" + elem is exactly elem |
| RequestLog.Put | log/log.go:137-142 | After `table[key] = value`, key maps to value and the key set is the old one plus key. A table created on first use holds only {key: value}. Every other key keeps its old lookup |
| RequestLog.LogCtx.constructor | log/log.go:109-110 | The context the middleware attaches has neither table |
| RequestLog.LogCtx.AddLogArgs | log/log.go:135-143 | Without an attached context it panics with "Key \"_logCtx\" does not exist" and changes nothing. Otherwise args becomes Put(old args, key, value), creating the table if absent, and metas is unchanged. gory.go:173-181 (`addLogArgs`) is the same code |
| RequestLog.LogCtx.AddLogMeta | log/log.go:145-153 | The mirror image on metas: it panics without a context, creates metas lazily, sets one key, and leaves args unchanged. gory.go:183-191 (`addLogMeta`) is the same code |
| RequestLog.ReplayLastWriteWins | log/log.go:135-153 | After any sequence of accessor calls, each table exists iff its accessor was called, and it maps each key to the value of the last call for that key |
| RequestLog.OverwriteExample | log/log.go:142 | Writing "x" twice leaves only the second value |
| Middleware.OverwriteMessage | log/log.go:122-131 | After writing "x" as 1 and then 2, the logged message is handler(x=2) |
| Middleware.RenderArgs | log/log.go:122-127 | The range loop over args appends one "k=%#v" token per visited key, and nothing when args was never created |
| Middleware.MessageShape | log/log.go:122-131 | The message is the handler name, "(", the comma-joined arg tokens and ")". There is one token per args entry, as a multiset of the entries whatever the order, and "()" when AddLogArgs was never called |
| Middleware.PostPhase | log/log.go:115-131 | After c.Next() the record is the bound view plus StatusCode, the metas (only when present) and the Cost. It is logged at Info with the rendered message |
| Middleware.PostEntryFields | log/log.go:102-121 | The Info record is at Info level with the start time. Its request group is always the full [ip, "-", status, method, uri, id]. It carries metas iff AddLogMeta created them, and it always carries a cost |
| Middleware.RequestLine | log/log.go:102-131 | The Info record's line has 5 + n tokens: the header, the full "[ip - status method uri id]" group, the n meta tokens, the message, "<cost>ms" and "\n" |
| Middleware.JoinRequestGroup | log/log.go:75-77 | The six group parts render as "ip - status method uri id" |
| Middleware.OneInfoRecord | log/log.go:97-131 | The middleware writes exactly one Info record per request, and it is the last record. Its request id is the generated uuid, or the nil UUID when generation failed. There are two records exactly on failure, and then the first is the Error record "Generate request id got error => <err>" |
| Middleware.HandleRequest | log/log.go:96-132 | The closure's records: the Error record if uuid generation failed, then the Info record for the context the handler calls left behind |
| Middleware.LoggerMiddleware | log/log.go:92-133 | The log/log.go middleware uses `filepath.Base` of the handler name as the message prefix |
| Middleware.WordArgToken | log/log.go:125 | A word-character string arg renders as k="text" |
| Middleware.TwoKeyOrders | log/log.go:124 | A range over a two-key table visits the keys in one order or the other |
| Middleware.TwoArgMessage | log/log.go:122-131 | The message for a two-entry args table lists both tokens in visit order |
| Middleware.PingState | router/goffer/goffer.go:14-22 | The goffer ping handler leaves metas {"meta": "this_is_meta_data"} and args {"args1": "this_is_args1", "args2": 2} |
| Middleware.PingShapedMessage | router/goffer/goffer.go:17-18 | Args {"args1": text, "args2": 2} render as handler(args1="text",args2=2) or with the two tokens swapped |
| Middleware.PingMessage | router/goffer/goffer.go:14-22 | The goffer ping handler's message is handler(args1="this_is_args1",args2=2), or the same with the two args swapped |
| Gory.LoggerMiddleware | gory.go:135-171 | The gory.go middleware uses the raw handler name as the message prefix |
| Gory.VariantsAgree | gory.go:162-169 | For a non-empty handler name without '/', the two middlewares write the same records |
| Gory.VariantsDiffer | gory.go:169 | For a handler name with '/' that is not all slashes, log/log.go's message prefix differs from gory.go's whole name. It is the name's last element: it has no '/' and is the suffix of the name without its trailing slashes, either all of it or preceded by a '/' |
| Gory.PackagedHandler | gory.go:169 | For a handler named dir + "/" + elem, log/log.go's middleware writes the records gory.go's would write for a handler named elem |
| Gory.RootPingLine | gory.go:240-250 | The root /ping handler's line has six tokens. After the header come the full request group, "meta => this_is_meta_data", the message with args1="this_is_args1" and args2=2 in either order, "<cost>ms" and "\n" |
| Gory.GofferPingLine | gory.go:252-254 | The gory.go goffer /ping handler never writes to the context. Its line is exactly header, request group, handler + "()", "<cost>ms" and "\n" |

## Left out

- InitLogger (log/log.go:18-36, gory.go:116-133) chooses syslog or stdout and the level from gin's mode. That is I/O and library configuration. A formatter is an input (`GoryFormatter(pn, pid)`).
- Serve, LoadEnv, NewRouter, main, GetLogger and route registration (gory.go, router/init.go) are left out. They are concurrency, networking, file and YAML I/O, or plumbing.
- uuid generation is random. Its outcome is an input `Result`. On failure the model does what the code does: it writes the Error record "Generate request id got error => <err>" first, then binds the nil UUID "00000000-0000-0000-0000-000000000000" as the request id (log/log.go:98-107). The Info record always carries a request id; on failure it is uuid.Nil.
- The cost is an opaque, already rendered string. Its computation reads the wall clock and divides in float64 (log/log.go:119-121).
- The entry time is an opaque, already rendered string. It comes from `time.RFC3339` formatting.
- Log levels are rendered by logrus's names ("warning" for WarnLevel).
- The gin and logrus machinery is not modelled: context storage, `WithField` copying, `c.Writer.Status()`, `c.HandlerName()`, `c.JSON` and the sleep in the example handlers. Their results are inputs.
- Writing the formatted line to the output is not modelled.
- The middleware also stores its bound logger view under "logger" (log/log.go:108, gory.go:151). Handler code may log through it. Those records are not modelled: a handler is modelled only by its accessor calls. The one-Info-record property is about the records the middleware itself writes.
- Values stored by handlers are limited to strings, ints and booleans (`Value`). `%v` and `%#v` of other Go types are not modelled.
- GoText.Quote escapes '"', '\' and the seven named control characters. It does not model strconv.Quote's `\x`/`\u` escapes for other non-printable characters or invalid UTF-8.
- Strings are sequences of characters; the byte slice that Format returns is not modelled as bytes.
- Middleware.LoggerMiddleware: `filepath.Base` is modelled for '/'-separated names only (no Windows volume names).
