# gows core, modelled in Dafny

`gows` is a small Go scaffold for HTTP micro-services. This project models its core: 

- **Request routing and dispatch.** The server registers routes on a mux: static files, `/ping`, local aliases, reverse-proxy routes, and controllers under `/ws/<ver>/<pattern>/`. The dispatcher splits a request path, title-cases the method selector, binds the request and the response onto the controller, and calls the method with the remaining path elements. It answers errors with a JSON envelope. The proxy director rewrites the outgoing request in place.
- **Helpers.** Slash joining, input sanitising, and IPv4 text ↔ number conversion. The six reserved IPv4 blocks, and the right-to-left search for the client's public address in `X-Forwarded-For` / `X-Real-Ip`.
- **The MySQL layer.**
  - A registry of named connections.
  - A statement classifier that sends `sel…` statements down the row path and everything else down the affected-count path.
  - The row loop.
  - The decoders that turn a scanned cell into a byte slice, bool, string, integer of each width, or time.
- **The controller base.** Its request, response and directory fields, and the template path.

Modules, one per source file, plus models of the Go library behaviour the code relies on:

| file | module | models |
|---|---|---|
| `wrappers.dfy` | `Wrappers` | `Option`, `Result`, and `Outcome`, which records whether a call returned or panicked |
| `gotext.dfy` | `GoText` | `strings.Split`, `TrimLeft`, `TrimSpace`, `ToLower`, `Title`; `strconv.FormatInt`, `ParseUint`, `ParseInt`, `Atoi` (base 10) |
| `gonet.dfy` | `GoNet` | `net.ParseIP` (dotted quads exactly; IPv6 text through a parser parameter), `IP.IsGlobalUnicast` |
| `gohttp.dfy` | `GoHttp` | `http.Header` `Get`/`Set`/`Add`, `url.URL`, the request and the response writer |
| `controller.dfy` | `Controllers` | `BaseController.go` (and the interface of `BaseControllerInterface.go`) |
| `functions.dfy` | `Functions` | `functions.go` |
| `mysql.dfy` | `Database` | `Mysql.go` and the record of `MysqlDB.go` |
| `server.dfy` | `Server` | `WebServer.go` |

Modelling choices:

- **Strings.** A Go string is a `seq<char>` whose characters stand for bytes. `int` and `uint` are 64 bits wide.
- **Panics.**
  - A panic a request can trigger becomes an `Outcome` of `Panicked`. This covers the index out of range and the failed `func([]string)` assertion in the dispatcher, a driver call through a nil `*sql.DB`, a duplicate or empty mux pattern, and an unparsable proxy target URL.
  - The one panic that only a caller can cause becomes a precondition: `IP2Long` on text `net.ParseIP` rejects.
- **Reflection.** The controller's exported methods form a fixed table from name to signature. A call is recorded in the controller's `calls` log; the method bodies belong to the concrete controller and are not part of the code modelled here.
- **Foreign code.** The SQL driver (`sql.Open`, `Ping`, `Query` with `rows.Scan`, `Exec` with `RowsAffected`; the statement's bound arguments are handed to `Query` and `Exec` as they are), `time.Parse`, `ioutil.ReadFile`, `url.Parse`, IPv6 text parsing and `net.SplitHostPort` are parameters. Their results are given as functions of their inputs.
- **Global state.** The package-level `mysqlConnections` map is a `Database.Registry` object. Every `Database.Mysql` instance holds a reference to it, so all instances share one registry. The `http.ServeMux` pattern table is the `routes` field of `Server.WebServer`.

Behaviours of the code that a reader might not expect, which the model keeps:

- `CloseConnection` leaves the closed handle in the registry.
- `Query` reads only the first result set.
- The dispatcher counts every element that `strings.Split` yields, empty ones included. Empty arguments from `//` or a trailing `/` are therefore passed on.
- The director always sets the scheme to `http`, even for an `https` target.
- IPv6 entries in the forwarding headers are compared with the six IPv4 blocks through their last four bytes. This is because `IP2Long` reads bytes 12 to 15 of the 16-byte form, whatever the address family.

## Model

| member | source | states |
|---|---|---|
| GoText.BytesToString | Mysql.go:201-202 | `string(by)` keeps the length and every byte value |
| GoText.Split | functions.go:68 | `strings.Split` yields at least one piece |
| GoText.SplitLength | functions.go:68-70 | the number of elements is one more than the number of separators |
| GoText.SplitPiecesFree | functions.go:68 | no piece contains the separator |
| GoText.SplitJoin | functions.go:186 | joining the pieces with the separator gives back the text |
| GoText.JoinSplit | functions.go:186 | splitting a join of separator-free pieces gives back the pieces |
| GoText.SplitConcat | functions.go:68 | the pieces of `a + sep + b` are the pieces of `a` then those of `b` |
| GoText.SplitNoSep | functions.go:68 | text without the separator is a single piece |
| GoText.TrimLeft | Mysql.go:98-100 | the result is a suffix, does not start with the trimmed character, and only that character was dropped |
| GoText.TrimSpace | functions.go:188 | the result is the infix of the text that begins after its leading white space, and everything cut from either end is white space; the result neither starts nor ends with white space; it is empty iff the text is all white space; text with nothing to trim is unchanged |
| GoText.ToLower | Mysql.go:106 | same length, every character lowered |
| GoText.Title | functions.go:83 | same length; a character is uppercased iff it starts the text or follows a separator, the rest is kept |
| GoText.DecimalText | functions.go:173-176 | `FormatInt` of a non-negative number is decimal with no leading zero |
| GoText.DecimalTextValue | functions.go:173-176 | reading `FormatInt`'s text gives the number back |
| GoText.DecimalTextOfValue | functions.go:173-176 | formatting the value of canonical decimal text gives the text back |
| GoText.ParseUint | Mysql.go:309-407 | the value is at most the width's maximum; no error iff the text is a decimal in range, and then the value is that decimal; an out-of-range decimal gives the maximum and a range error; a range error happens iff some run of leading digits exceeds the maximum, even when a stray character follows; a syntax error gives 0 |
| GoText.ParseInt | Mysql.go:208-307 | the value is within the width's bounds; no error iff the text is an optionally signed decimal in range, and then the value is it; an overflow is clamped to the nearer bound with a range error; the digits after the sign are read at the requested width, so an overflow in the leading digits gives the sign's bound and a range error even when a stray character follows; the error is a range error iff the leading digits overflow or the text is a decimal out of range, and otherwise a syntax error, which gives 0 |
| GoText.ScanRangeHasPrefix | Mysql.go:309-407 | a range error from the digit loop means some run of leading digits exceeds the maximum |
| GoText.PrefixForcesRange | Mysql.go:309-407 | a run of leading digits above the maximum forces the range error |
| GoText.ParseIntNarrowOverflow | Mysql.go:229-247 | `ToInt8`'s parse of `300x` is 127 with a range error, of `-300x` is -128 with a range error, and of `200x` is 0 with a syntax error |
| GoNet.ParseIPv4 | functions.go:167 | `net.ParseIP` accepts text in the IPv4 branch iff it is four canonical octets separated by dots |
| GoNet.DottedQuadParses | functions.go:167 | a dotted quad always takes the IPv4 branch |
| GoNet.ParseIP | functions.go:189 | text with no '.' or ':' is rejected; when '.' comes first the text is read as IPv4 and accepted iff it is a dotted quad; when ':' comes first the IPv6 parser decides |
| GoNet.GlobalUnicastIPv4 | functions.go:190 | `IsGlobalUnicast` of a.b.c.d holds iff it is not 255.255.255.255, not 0.0.0.0, not in 127/8, not in 224/4 and not in 169.254/16 |
| GoHttp.HeaderSet | WebServer.go:73 | the key now has exactly the one value; other keys are unchanged |
| GoHttp.HeaderAdd | WebServer.go:76-77 | the value is appended after the key's existing values; other keys are unchanged |
| GoHttp.HeaderGet | functions.go:184 | "" when the key has no value, otherwise its first value |
| GoHttp.HeaderGetAfterUpdate | WebServer.go:73-77 | `Get` after `Set` reads the value set; `Get` after `Add` reads the added value only if the key had none, else its first value; other keys read as before |
| GoHttp.ResponseWriter.SetHeader | functions.go:103 | the header is set and the body is unchanged |
| GoHttp.ResponseWriter.WriteString | functions.go:105 | the text is appended to the body and the header is unchanged |
| Controllers.TemplatePathComponents | BaseController.go:25-32 | a template path is the service root's components, then `tpl`, then the template name's |
| Controllers.Controller.constructor | BaseController.go:10-15 | the method table is the base methods overridden by the concrete type's; the fields start at their zero values |
| Controllers.Controller.SetRequest | BaseController.go:17-19 | only the request field changes |
| Controllers.Controller.SetResponse | BaseController.go:21-23 | only the response field changes |
| Controllers.Controller.SetDirs | BaseController.go:25-28 | the root is the executable's directory and the template directory is `<root>/tpl`; the other fields are unchanged |
| Controllers.Controller.GetTemplate | BaseController.go:30-40 | either the file's contents and no error, or no contents and the read error, for the file `<templateDir>/<tpl>` |
| Controllers.Controller.Invoke | functions.go:95-97 | exactly one call, with these arguments, is added; the fields are unchanged |
| Functions.SingleJoiningSlash | functions.go:32-42 | the result is `a` without a trailing slash, one slash, then `b` without a leading slash |
| Functions.SingleJoiningSlashExamples | functions.go:32-42 | `/api/` and `/api` joined with `/v1/x` both give `/api/v1/x` |
| Functions.SingleJoiningSlashIgnoresEdgeSlash | functions.go:32-42 | for all paths: one slash added to the end of a base path that has none, or to the start of a request path that has none, leaves the joined path unchanged |
| Functions.Strip | functions.go:50-62 | no listed character survives; text without them is unchanged |
| Functions.Sanitize | functions.go:44-64 | empty text gives empty text; no listed character remains |
| Functions.SanitizeConcat | functions.go:44-64 | sanitising works character by character across a concatenation |
| Functions.SanitizeChar | functions.go:50-61 | a single character is deleted iff it is one of the eleven listed |
| Functions.SanitizeIdempotent | functions.go:44-64 | sanitising twice equals sanitising once |
| Functions.QuadTextParses | functions.go:171-178 | four formatted octets joined by dots split back into those fields and parse as those octets |
| Functions.Long2IP | functions.go:171-180 | the text is a dotted quad naming bits 31-24, 23-16, 15-8 and 7-0 of the number |
| Functions.IP2Long | functions.go:165-169 | the value is below 2^32 |
| Functions.OctetsRecombine | functions.go:173-176 | the four octets reassembled give the number modulo 2^32 |
| Functions.OctetsOfNumber | functions.go:167 | the big-endian number of four octets has those octets |
| Functions.IP2LongOfLong2IP | functions.go:165-180 | formatting an int64 and reading it back gives its low 32 bits |
| Functions.Long2IPOfIP2Long | functions.go:165-180 | reading a dotted quad and formatting it again gives the same text |
| Functions.ReservedRanges | functions.go:220 | the six numeric ranges are exactly the blocks 10/8, 100.64/10, 172.16/12, 192.0.0/24, 192.168/16 and 198.18/15 |
| Functions.IsIPInPrivateSubnet | functions.go:216-226 | true iff the address lies in one of the six blocks |
| Functions.LastAcceptedBelow | functions.go:186-194 | the index found holds an accepted (trimmed) entry and every later entry is rejected; with no index, every entry is rejected |
| Functions.ScanRightToLeft | functions.go:186-194 | the descending loop finds the rightmost accepted entry, trimmed, or nothing |
| Functions.RightmostPublic | functions.go:186-194 | an entry found is the trimmed text of some entry, is public, and every entry to its right is not public; nothing is found iff no trimmed entry is public |
| Functions.RemoteAddress | functions.go:182-214 | if `X-Forwarded-For` has a public entry, its rightmost one and no error; else if `X-Real-Ip` has one, its rightmost one and no error; else the host and error of splitting `RemoteAddr` |
| Functions.GetRemoteAddress | functions.go:182-214 | the rightmost public `X-Forwarded-For` entry, else the rightmost public `X-Real-Ip` entry, else the host part of `RemoteAddr` |
| Functions.ForwardedForWins | functions.go:184-194 | a public last entry of `X-Forwarded-For` is the answer, whatever precedes it |
| Functions.EnvelopePayloads | functions.go:101-115 | the payload sits verbatim, unescaped, at a fixed place inside each envelope, and a success envelope never equals an error envelope |
| Functions.JSON | functions.go:101-107 | Content-Type is `application/json` and the success envelope is appended |
| Functions.JSONError | functions.go:109-115 | Content-Type is `application/json` and the error envelope is appended |
| Functions.PlanFor | functions.go:66-99 | a method name is the title-cased fifth element; not-found means the name is absent, a wrong signature means it is present but not `func([]string)`; a call happens iff there are 5 or more elements and the name has that signature, and then the arguments are the elements after the fifth |
| Functions.PlanCountsSlashes | functions.go:68-83 | the parameter-count error happens iff the path has fewer than 3 slashes; the index panic happens iff it has exactly 3 |
| Functions.PlanForControllerPath | functions.go:68-97 | `/<g>/<v>/<r>/<m>/<a1>/…/<an>` calls `Title(m)` with exactly a1…an, in order |
| Functions.ControllerPathElements | functions.go:68-75 | such a path splits into "", g, v, r, m, then the arguments |
| Functions.InvokeCtrlMethod | functions.go:66-99 | per case: with fewer than 4 elements, a JSON error and no binding or call; with 4, a panic before binding; an unknown name gives a binding and a JSON error; a wrong signature gives a binding and a panic; otherwise a binding and exactly one call with the arguments |
| Database.ToByteSlice | Mysql.go:158-172 | NULL gives isNull; a non-byte cell gives "can't convert to []byte"; bytes are returned unchanged |
| Database.ToBool | Mysql.go:174-188 | isNull iff the cell is NULL; an empty slice or a non-byte cell gives false, not null, and "can't convert to bool"; otherwise no error and true iff the first byte equals 1 |
| Database.ToString | Mysql.go:190-206 | the text has the bytes' length and values; NULL and non-byte cells as for the other decoders |
| Database.ToInteger | Mysql.go:208-407 | for each of the ten integer accessors: the value fits the type; no error iff the text is a decimal in range, and then the value is it; out of range gives the nearer bound and a range error, also when the overflow is in the leading digits and a stray character follows; the error is a range error exactly in those cases and a syntax error otherwise; the error names the strconv function and the text |
| Database.UnsignedRejectsSign | Mysql.go:309-407 | the unsigned accessors reject a leading `+` or `-` |
| Database.DecimalReadingOfText | Mysql.go:223 | the reference reading recovers every integer from its decimal text |
| Database.ToIntegerOfText | Mysql.go:208-407 | every in-range value sent as text decodes to itself with no error |
| Database.Rfc3339Text | Mysql.go:468 | one character longer; position 10 is `T`, the last is `Z`, every other character is kept |
| Database.Rfc3339Example | Mysql.go:467-468 | the DATETIME text `2021-03-04 05:06:07` is rewritten to the RFC 3339 text `2021-03-04T05:06:07Z` |
| Database.ToTime | Mysql.go:449-472 | NULL gives the Unix epoch with isNull; non-bytes or fewer than 19 characters give "can't convert to Time"; otherwise the rewritten text is parsed and a parse failure is reported |
| Database.OpenSpec | Mysql.go:23-41 | an unknown name gives "connection not found"; a handle comes back iff the name is known, the open succeeds and the ping reports nothing, and it is the opened handle |
| Database.IsSelectLetters | Mysql.go:106 | the row path is taken iff the statement's first three characters are s, e, l in either case |
| Database.Statement | Mysql.go:98-100 | the statement is the text after its leading spaces, and does not start with a space |
| Database.ScanRow | Mysql.go:127-129 | a scanned row has exactly one cell per column |
| Database.Materialize | Mysql.go:119-133 | all rows scan iff there is no error; then there is one row per driver row, in order, each of full width; otherwise the error is the first failing row's |
| Database.QuerySpec | Mysql.go:87-151 | empty arguments give no rows, count 0 and no error; an unknown name gives "connection not found"; a short statement gives nothing; rows imply the select path and count = number of rows; an error implies no rows and count 0; a panic needs a nil handle |
| Database.RunStatement | Mysql.go:102-149 | a panic happens iff the statement has 3 or more characters and the handle is nil; rows imply the select path, no error and count = number of rows; a nonzero count without rows implies the exec path |
| Database.SelectRowsShape | Mysql.go:106-135 | on the row path, the rows are the driver's rows in order, each with one cell per column |
| Database.SelectTakesRowPath | Mysql.go:106-135 | a select statement on an open handle gives the driver's query error, else the first scan error, else all the rows and their number |
| Database.ExecPathCount | Mysql.go:139-149 | a non-select statement on an open handle gives the driver's exec error, else the `RowsAffected` error, else the affected count with no rows |
| Database.QueryIgnoresLeadingSpaces | Mysql.go:98-106 | leading spaces change neither the classification nor the result |
| Database.StatementOfPadded | Mysql.go:98-100 | any number of leading spaces is dropped |
| Database.MaterializeStep | Mysql.go:119-133 | one loop turn moves a scanned row onto the result set |
| Database.Registry.constructor | functions.go:24-29 | the package's registry starts empty |
| Database.Mysql.constructor | Mysql.go:11-15 | the new instance works on the registry it is given, so instances share their connections; the registry is not changed |
| Database.Mysql.AddConnection | Mysql.go:17-21 | the entry is stored (replacing any old one) with no handle; other entries are unchanged |
| Database.Mysql.OpenConnection | Mysql.go:23-41 | an unknown name gives "connection not found"; otherwise an open error, then a ping error, else the handle; the registry is not written |
| Database.Mysql.CloseConnection | Mysql.go:43-59 | the stored handle, if any, is the one closed; the registry is not written |
| Database.Mysql.AddAndOpenConnection | Mysql.go:61-74 | the entry is always stored, and it carries the handle only if opening succeeded |
| Database.Mysql.GetConnection | Mysql.go:76-85 | the stored handle, nil included, or "connection not found" |
| Database.Mysql.Query | Mysql.go:87-151 | the result is `QuerySpec` of the shared registry, the driver, the name, the statement and its bound arguments, which reach the driver unchanged |
| Database.Mysql.ReadRows | Mysql.go:119-133 | the row loop yields `Materialize` of the driver's rows |
| Database.Mysql.Exec | Mysql.go:153-156 | `Query`'s count and error for the same name, statement and bound arguments, or its panic |
| Server.WebServer.constructor | WebServer.go:32-34 | the address is stored and the mux is empty |
| Server.WebServer.Handle | WebServer.go:26-30 | an empty or already registered pattern panics and changes nothing; otherwise exactly that pattern is added |
| Server.WebServer.RegisterLocalRoute | WebServer.go:40-49 | the pattern is bound to an alias of `path` |
| Server.WebServer.RegisterRemoteRoute | WebServer.go:51-87 | an unparsable target panics before registering; otherwise the pattern is bound to a proxy for the parsed target |
| Server.WebServer.RegisterController | WebServer.go:130-146 | an empty pattern or version, or a nil controller, gives "parameters can't be zero-valued" and registers nothing; otherwise exactly `/ws/<ver>/<pattern>/` is added |
| Server.NewWebServer | WebServer.go:17-38 | an empty address gives nil and "parameter can't be zero-valued"; otherwise a new server with the address and exactly `/includes/` and `/ping` |
| Server.ServePing | WebServer.go:28-30 | the body gets `pong` |
| Server.ServeLocalAlias | WebServer.go:42-47 | only the request path changes, to the fixed path |
| Server.MergeQuery | WebServer.go:65-69 | an empty side gives the other side; otherwise the `&`-separated parameters are the target's followed by the inbound ones |
| Server.DirectedHeader | WebServer.go:71-77 | a missing User-Agent becomes one empty value and a present one is kept; the inbound host is appended to X-Forwarded-Host and the target host to X-Origin-Host; no other header changes |
| Server.Director | WebServer.go:57-79 | scheme `http`, the target's host, the joined path and the merged query; the header per `DirectedHeader`; no other URL or request field changes |
| Server.ControllerPrefixReachesMethod | WebServer.go:138 | every path under a controller prefix splits into at least 5 elements, so the dispatcher reaches the method lookup |
| Server.ControllerPrefixElements | WebServer.go:138 | after the prefix, the path's pieces are the method selector and its arguments |

## Left out

- `ToFloat32` / `ToFloat64` (Mysql.go:409-447): Dafny has no binary floating point.
- `Gzip` / `Gunzip` (functions.go:117-163): thin wrappers over `compress/gzip`.
- `ListenAndServe`, `ListenAndServeTLS` and the TLS configuration (WebServer.go:89-128), and `GetMicroServiceRootDir`: network and process setup.
- `init` (functions.go:27-30): the absolute path of the executable is a parameter of `SetDirs`, and the registry starts empty in `Database.Registry.constructor`.
- `ctrl.SetWebServer(ws)` (WebServer.go:136) is called on the controller but is declared neither in the interface nor in `BaseController`. The model treats it as a no-op.
- `http.ServeMux` pattern matching, `httputil.ReverseProxy` forwarding, and the re-dispatch after the path rewrite of a local route: the route table is modelled, but not how a request is matched against it.
- The driver's internals: the connection pool, `rows.Err`, `rows.Close`, and result sets after the first.
- Database.ToTime: the RFC 3339 parse itself is a parameter; only the length guard and the text rewrite are modelled.
- A call through a nil `*sql.DB` is recorded as a panic outcome with a reason, not as Go's runtime error value.
- Functions.IP2Long: the panic on text that `net.ParseIP` rejects is a precondition, not an outcome. `Functions.IsIPInPrivateSubnet` inherits it.
- GoText.TrimSpace: only ASCII white space is trimmed. Unicode spaces are not.
- GoText.Title: word separators are judged on ASCII. Letters outside ASCII are not case-mapped.
- GoText.ToLower: only ASCII letters are lowered.
- The accessors' assertion that a cell is a `*interface{}`: the model's input is the value it refers to.
- Controllers.PathSeparator is '/': the model follows Unix-like systems, and Windows' `os.PathSeparator` ('\\') is not modelled.
- Functions.InvokeCtrlMethod: what the called controller method writes to the response is not modelled, since method bodies belong to the concrete controller; the response contract covers the dispatcher's own writes.
- Concurrency: sharing a controller between requests, and the unsynchronised global registry. Everything is single-threaded.
