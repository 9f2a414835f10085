/**
 * Mysql.go (with the record of MysqlDB.go): the result-cell decoders, the
 * registry of named connections, and the statement classifier that sends
 * a statement to the row path or to the affected-count path. The SQL
 * driver is an oracle given as a parameter.
 */
module Database {
  import opened Wrappers
  import opened GoText

  // ---------------------------------------------------------------------
  // Result cells and their decoders
  // ---------------------------------------------------------------------

  /** What a scanned `*interface{}` points to: SQL NULL, the driver's raw
      bytes, or a value of another Go type (named). */
  datatype Cell = Null | Bytes(bytes: seq<byte>) | Other(goType: string)

  /** Why a decoder failed: the cell is not a byte slice (or not a usable
      one), `strconv` rejected the text (`*strconv.NumError` with the
      function name, the input and the kind), or `time.Parse` failed. */
  datatype ConvError =
    | CantConvert(target: string)
    | NumError(fn: string, num: string, kind: NumErrorKind)
    | TimeParseError(msg: string)

  /** A decoder's three results: the value, whether the cell was NULL, and
      the error. */
  datatype Conv<+T> = Conv(value: T, isNull: bool, err: Option<ConvError>)

  /** `ToByteSlice`: the bytes unchanged. */
  function ToByteSlice(c: Cell): (r: Conv<seq<byte>>)
    ensures c.Null? ==> r == Conv([], true, None)
    ensures c.Other? ==> r == Conv([], false, Some(CantConvert("[]byte")))
    ensures c.Bytes? ==> r == Conv(c.bytes, false, None)
  {
    match c
    case Null => Conv([], true, None)
    case Other(_) => Conv([], false, Some(CantConvert("[]byte")))
    case Bytes(b) => Conv(b, false, None)
  }

  /** `ToBool`: true exactly when the first byte is 1 (the value, not the
      character '1'); an empty byte slice cannot be converted. */
  function ToBool(c: Cell): (r: Conv<bool>)
    ensures r.isNull <==> c.Null?
    ensures c.Null? ==> r == Conv(false, true, None)
    ensures c.Other? ==> r == Conv(false, false, Some(CantConvert("bool")))
    ensures c.Bytes? && |c.bytes| == 0 ==> r == Conv(false, false, Some(CantConvert("bool")))
    ensures !r.isNull ==> (r.err == None <==> c.Bytes? && |c.bytes| > 0)
    ensures r.err.Some? ==> !r.value && r.err == Some(CantConvert("bool"))
    ensures r.err == None && !r.isNull ==> (r.value <==> c.bytes[0] == 1)
  {
    match c
    case Null => Conv(false, true, None)
    case Other(_) => Conv(false, false, Some(CantConvert("bool")))
    case Bytes(b) =>
      if |b| == 0 then Conv(false, false, Some(CantConvert("bool")))
      else Conv(b[0] == 1, false, None)
  }

  /** `ToString`: the bytes as text, one character per byte. */
  function ToString(c: Cell): (r: Conv<string>)
    ensures c.Null? ==> r == Conv("", true, None)
    ensures c.Other? ==> r == Conv("", false, Some(CantConvert("string")))
    ensures c.Bytes? ==> (!r.isNull && r.err == None && |r.value| == |c.bytes|
      && forall i :: 0 <= i < |c.bytes| ==> r.value[i] as int == c.bytes[i])
  {
    match c
    case Null => Conv("", true, None)
    case Other(_) => Conv("", false, Some(CantConvert("string")))
    case Bytes(b) => Conv(BytesToString(b), false, None)
  }

  /** The integer decoders: `ToInt` (`strconv.Atoi`), `ToInt8` … `ToInt64`
      (`strconv.ParseInt`), `ToUint` and `ToUint8` … `ToUint64`
      (`strconv.ParseUint`). `int` and `uint` are 64 bits wide. */
  datatype IntKind = Int | Int8 | Int16 | Int32 | Int64 | Uint | Uint8 | Uint16 | Uint32 | Uint64

  function KindWidth(k: IntKind): Width
  {
    match k
    case Int8 | Uint8 => W8
    case Int16 | Uint16 => W16
    case Int32 | Uint32 => W32
    case Int | Int64 | Uint | Uint64 => W64
  }

  predicate IsSigned(k: IntKind)
  {
    k.Int? || k.Int8? || k.Int16? || k.Int32? || k.Int64?
  }

  /** The Go type name used in the "can't convert to" error. */
  function TypeName(k: IntKind): string
  {
    match k
    case Int => "int"
    case Int8 => "int8"
    case Int16 => "int16"
    case Int32 => "int32"
    case Int64 => "int64"
    case Uint => "uint"
    case Uint8 => "uint8"
    case Uint16 => "uint16"
    case Uint32 => "uint32"
    case Uint64 => "uint64"
  }

  /** The `strconv` function named in the `NumError`. */
  function ParserName(k: IntKind): string
  {
    if k.Int? then "Atoi" else if IsSigned(k) then "ParseInt" else "ParseUint"
  }

  function KindMin(k: IntKind): int
  {
    if IsSigned(k) then MinInt(KindWidth(k)) else 0
  }

  function KindMax(k: IntKind): int
  {
    if IsSigned(k) then MaxInt(KindWidth(k)) else MaxUint(KindWidth(k))
  }

  /** The reference reading of the cell text for kind `k`: signed kinds
      take an optional sign, unsigned kinds digits only. */
  function DecimalReading(k: IntKind, s: string): Option<int>
  {
    if IsSigned(k) then SignedDecimal(s)
    else if IsDecimal(s) then Some(DecimalValue(s))
    else None
  }

  /** The integer decoder for kind `k`. The value always fits the kind;
      the error is absent exactly when the text is a decimal of the kind's
      range, and then the value is that decimal; out-of-range decimals give
      the nearest bound and a range error, anything else 0 and a syntax
      error. Digits that overflow the kind's unsigned width before any
      stray character give the range error, not the syntax error. */
  function ToInteger(c: Cell, k: IntKind): (r: Conv<int>)
    ensures c.Null? ==> r == Conv(0, true, None)
    ensures c.Other? ==> r == Conv(0, false, Some(CantConvert(TypeName(k))))
    ensures KindMin(k) <= r.value <= KindMax(k)
    ensures c.Bytes? ==> (!r.isNull &&
      var s := BytesToString(c.bytes);
      var d := DecimalReading(k, s);
      && (r.err == None <==> d.Some? && KindMin(k) <= d.value <= KindMax(k))
      && (r.err == None ==> r.value == d.value)
      && (d.Some? && d.value > KindMax(k) ==> r == Conv(KindMax(k), false, Some(NumError(ParserName(k), s, ErrRange))))
      && (d.Some? && d.value < KindMin(k) ==> r == Conv(KindMin(k), false, Some(NumError(ParserName(k), s, ErrRange))))
      && (r.err.Some? ==> r.err.value.NumError? && r.err.value.fn == ParserName(k) && r.err.value.num == s)
      && (r.err == Some(NumError(ParserName(k), s, ErrSyntax)) ==> r.value == 0)
      && (r.err == Some(NumError(ParserName(k), s, ErrRange)) ==> r.value == KindMin(k) || r.value == KindMax(k))
      && (r.err == Some(NumError(ParserName(k), s, ErrRange)) <==>
            DigitPrefixExceeds(if IsSigned(k) then UnsignedPart(s) else s, MaxUint(KindWidth(k)))
            || (d.Some? && !(KindMin(k) <= d.value <= KindMax(k))))
      && (r.err.Some? && r.err != Some(NumError(ParserName(k), s, ErrRange)) ==>
            r.err == Some(NumError(ParserName(k), s, ErrSyntax)))
      && (DigitPrefixExceeds(if IsSigned(k) then UnsignedPart(s) else s, MaxUint(KindWidth(k))) ==>
            s != [] && r == Conv(if IsSigned(k) && s[0] == '-' then KindMin(k) else KindMax(k), false,
                                 Some(NumError(ParserName(k), s, ErrRange)))))
  {
    match c
    case Null => Conv(0, true, None)
    case Other(_) => Conv(0, false, Some(CantConvert(TypeName(k))))
    case Bytes(b) =>
      var s := BytesToString(b);
      var parsed := if IsSigned(k) then ParseInt(s, KindWidth(k)) else ParseUint(s, KindWidth(k));
      var v, e := parsed.0, parsed.1;
      assert e.Some? && e.value != ErrRange ==> e.value == ErrSyntax;
      Conv(v, false, if e.Some? then Some(NumError(ParserName(k), s, e.value)) else None)
  }

  /** The unsigned decoders never accept a sign, not even `+`. */
  lemma UnsignedRejectsSign(b: seq<byte>, k: IntKind)
    requires !IsSigned(k) && |b| > 0 && (b[0] == '+' as int || b[0] == '-' as int)
    ensures ToInteger(Bytes(b), k).err.Some? && ToInteger(Bytes(b), k).value == 0
  {
    assert !IsDigit(BytesToString(b)[0]);
  }

  /** How the MySQL text protocol sends an integer: an optional '-' and
      the decimal digits, with no leading zero. */
  function IntegerText(x: int): (s: string)
    ensures forall i :: 0 <= i < |s| ==> s[i] == '-' || IsDigit(s[i])
  {
    if x < 0 then "-" + DecimalText(-x) else DecimalText(x)
  }

  /** The reference reading recovers every integer from its text. */
  lemma DecimalReadingOfText(x: int, k: IntKind)
    requires IsSigned(k) || x >= 0
    ensures DecimalReading(k, IntegerText(x)) == Some(x)
  {
    var s := IntegerText(x);
    if x < 0 {
      DecimalTextValue(-x);
      assert s[1..] == DecimalText(-x);
    } else {
      DecimalTextValue(x);
      assert IsDigit(s[0]);
    }
  }

  /** Round trip: every value of a kind's range, sent as text, decodes
      to itself with no error. */
  lemma ToIntegerOfText(x: int, k: IntKind)
    requires KindMin(k) <= x <= KindMax(k)
    ensures forall i :: 0 <= i < |IntegerText(x)| ==> IntegerText(x)[i] as int < 256
    ensures ToInteger(Bytes(StringToBytes(IntegerText(x))), k) == Conv(x, false, None)
  {
    var s := IntegerText(x);
    assert forall i :: 0 <= i < |s| ==> s[i] as int < 256;
    DecimalReadingOfText(x, k);
  }

  /** What `ToTime` yields: `time.Unix(0, 0)`, the zero `time.Time` that a
      failed `time.Parse` returns, or the instant the RFC 3339 text names. */
  datatype TimeValue = UnixEpoch | ZeroTime | ParsedFrom(rfc3339: string)

  /** MySQL's `YYYY-MM-DD HH:MM:SS...` rewritten to RFC 3339 (section 5.6)
      in UTC: the character between date and time becomes 'T', and 'Z' is
      appended. */
  function Rfc3339Text(s: string): (r: string)
    requires |s| >= 11
    ensures |r| == |s| + 1
    ensures r[10] == 'T' && r[|s|] == 'Z'
    ensures forall i :: 0 <= i < |s| && i != 10 ==> r[i] == s[i]
  {
    s[..10] + "T" + s[11..] + "Z"
  }

  /** The DATETIME text `2021-03-04 05:06:07` is rewritten to the RFC 3339
      text `2021-03-04T05:06:07Z`. */
  lemma Rfc3339Example()
    ensures Rfc3339Text("2021-03-04 05:06:07") == "2021-03-04T05:06:07Z"
  {
  }

  /** `ToTime`: text shorter than 19 characters cannot be a DATETIME;
      longer text is rewritten and handed to `time.Parse` (whose verdict,
      an error message or none, is `parseError`). */
  function ToTime(c: Cell, parseError: string -> Option<string>): (r: Conv<TimeValue>)
    ensures c.Null? ==> r == Conv(UnixEpoch, true, None)
    ensures c.Other? ==> r == Conv(UnixEpoch, false, Some(CantConvert("Time")))
    ensures c.Bytes? && |c.bytes| < 19 ==> r == Conv(UnixEpoch, false, Some(CantConvert("Time")))
    ensures c.Bytes? && |c.bytes| >= 19 ==> (!r.isNull &&
      var text := Rfc3339Text(BytesToString(c.bytes));
      && (r.err == None <==> parseError(text) == None)
      && (r.err == None ==> r.value == ParsedFrom(text))
      && (r.err.Some? ==> r == Conv(ZeroTime, false, Some(TimeParseError(parseError(text).value)))))
  {
    match c
    case Null => Conv(UnixEpoch, true, None)
    case Other(_) => Conv(UnixEpoch, false, Some(CantConvert("Time")))
    case Bytes(b) =>
      var s := BytesToString(b);
      if |s| < 19 then Conv(UnixEpoch, false, Some(CantConvert("Time")))
      else
        var text := s[..10] + "T" + s[11..] + "Z";
        match parseError(text)
        case None => Conv(ParsedFrom(text), false, None)
        case Some(e) => Conv(ZeroTime, false, Some(TimeParseError(e)))
  }

  // ---------------------------------------------------------------------
  // The driver oracle
  // ---------------------------------------------------------------------

  /** An open `*sql.DB`. */
  datatype Handle = Handle(id: nat)

  /** `*sql.Rows`: the column names and, row by row, what `rows.Scan`
      receives from the driver (the values, or the driver's error). */
  datatype Rows = Rows(columns: seq<string>, steps: seq<Result<seq<Cell>, string>>)

  /** `sql.Result`: `RowsAffected` may itself fail. */
  datatype ExecResult = ExecResult(rowsAffected: Result<int, string>)

  /** The driver calls the code makes, as functions of their inputs:
      `sql.Open("mysql", dsn)`, `db.Ping`, `db.Query`, `db.Exec`. The last
      two also receive the `args ...interface{}` bound to the statement's
      placeholders, each given as a value of the same shape as a cell. */
  datatype Driver = Driver(
    open: string -> Result<Handle, string>,
    ping: Handle -> Option<string>,
    query: (Handle, string, seq<Cell>) -> Result<Rows, string>,
    exec: (Handle, string, seq<Cell>) -> Result<ExecResult, string>)

  /** `MysqlConnConfig`: the connection parameters and the handle, nil
      (None) until opened through `AddAndOpenConnection`. */
  datatype ConnConfig = ConnConfig(host: string, user: string, pass: string, dbName: string,
                                   port: string, db: Option<Handle>)

  /** The go-sql-driver data source name `user:pass@tcp(host:port)/db`. */
  function Dsn(c: ConnConfig): string
  {
    c.user + ":" + c.pass + "@tcp(" + c.host + ":" + c.port + ")/" + c.dbName
  }

  /** `OpenConnection` on a registry: open, then ping; the first failure
      is the error. */
  function OpenSpec(connections: map<string, ConnConfig>, driver: Driver, conn: string): (r: Result<Handle, string>)
    ensures conn !in connections ==> r == Err("connection not found")
    ensures r.Ok? <==> conn in connections && driver.open(Dsn(connections[conn])).Ok?
                       && driver.ping(driver.open(Dsn(connections[conn])).value).None?
    ensures r.Ok? ==> r.value == driver.open(Dsn(connections[conn])).value
  {
    if conn !in connections then Err("connection not found")
    else match driver.open(Dsn(connections[conn]))
      case Err(e) => Err(e)
      case Ok(h) =>
        match driver.ping(h)
        case Some(e) => Err(e)
        case None => Ok(h)
  }

  // ---------------------------------------------------------------------
  // Query classification and the row loop
  // ---------------------------------------------------------------------

  /** The text `Query` sends: `sql` without its leading spaces. */
  function Statement(sql: string): (r: string)
    ensures r == [] || r[0] != ' '
    ensures |r| <= |sql| && sql == seq(|sql| - |r|, _ => ' ') + r
  {
    var r := if sql != [] && sql[0] == ' ' then TrimLeft(sql, ' ') else sql;
    assert sql == seq(|sql| - |r|, _ => ' ') + r;
    r
  }

  /** The row path is taken when the first three characters lowercase to
      "sel". */
  predicate IsSelect(stmt: string)
  {
    |stmt| >= 3 && ToLower(stmt[..3]) == "sel"
  }

  /** The row path is chosen by the letters s, e, l in either case and
      nothing else: "SELECT", "Select" and "sElEcT" all qualify. */
  lemma IsSelectLetters(stmt: string)
    ensures IsSelect(stmt) <==>
      |stmt| >= 3 && stmt[0] in "sS" && stmt[1] in "eE" && stmt[2] in "lL"
  {
    if |stmt| >= 3 {
      var low := ToLower(stmt[..3]);
      assert low == "sel" <==> low[0] == 's' && low[1] == 'e' && low[2] == 'l';
    }
  }

  /** `rows.Scan` into `numCols` destinations: the driver's error, the
      arity error of `database/sql`, or the row. */
  function ScanRow(numCols: nat, step: Result<seq<Cell>, string>): (r: Result<seq<Cell>, string>)
    ensures r.Ok? ==> step.Ok? && r.value == step.value && |r.value| == numCols
    ensures step.Ok? && |step.value| == numCols ==> r.Ok?
  {
    match step
    case Err(e) => Err(e)
    case Ok(values) =>
      if |values| != numCols then
        Err("sql: expected " + DecimalText(|values|) + " destination arguments in Scan, not " + DecimalText(numCols))
      else Ok(values)
  }

  /** The rows the loop materialises, or the first scan error. */
  function Materialize(numCols: nat, steps: seq<Result<seq<Cell>, string>>): (r: Result<seq<seq<Cell>>, string>)
    ensures r.Ok? <==> forall k :: 0 <= k < |steps| ==> ScanRow(numCols, steps[k]).Ok?
    ensures r.Ok? ==> (|r.value| == |steps|
      && forall k :: 0 <= k < |steps| ==> r.value[k] == steps[k].value && |r.value[k]| == numCols)
    ensures r.Err? ==> exists k :: (0 <= k < |steps| && ScanRow(numCols, steps[k]) == Err(r.error)
      && forall j :: 0 <= j < k ==> ScanRow(numCols, steps[j]).Ok?)
  {
    if steps == [] then Ok([])
    else
      match ScanRow(numCols, steps[0])
      case Err(e) => Err(e)
      case Ok(row) =>
        var rest := Materialize(numCols, steps[1..]);
        if rest.Err? then
          var k :| 0 <= k < |steps[1..]| && ScanRow(numCols, steps[1..][k]) == Err(rest.error)
            && forall j :: 0 <= j < k ==> ScanRow(numCols, steps[1..][j]).Ok?;
          assert ScanRow(numCols, steps[k + 1]) == Err(rest.error);
          Err(rest.error)
        else
          assert forall k :: 1 <= k < |steps| ==> steps[k] == steps[1..][k - 1];
          Ok([row] + rest.value)
  }

  /** How `Query` ended: the rows (nil on every path but the row path),
      the count and the error; or a panic from calling the driver through
      a nil `*sql.DB`. */
  datatype QueryReply =
    | Replied(rows: Option<seq<seq<Cell>>>, count: int, err: Option<string>)
    | QueryPanicked(reason: string)


  /** `Query(conn, sql, args...)` on a registry and a driver. */
  function QuerySpec(connections: map<string, ConnConfig>, driver: Driver, conn: string, sql: string, args: seq<Cell>): (r: QueryReply)
    ensures conn == "" || sql == "" ==> r == Replied(None, 0, None)
    ensures conn != "" && sql != "" && conn !in connections ==> r == Replied(None, 0, Some("connection not found"))
    ensures conn != "" && sql != "" && conn in connections && |Statement(sql)| < 3 ==> r == Replied(None, 0, None)
    ensures r.QueryPanicked? ==> conn in connections && connections[conn].db == None && |Statement(sql)| >= 3
    ensures r.Replied? && r.rows.Some? ==> IsSelect(Statement(sql)) && r.err == None && r.count == |r.rows.value|
    ensures r.Replied? && r.err.Some? ==> r.rows == None && r.count == 0
  {
    if conn == "" || sql == "" then Replied(None, 0, None)
    else if conn !in connections then Replied(None, 0, Some("connection not found"))
    else RunStatement(connections[conn].db, driver, Statement(sql), args)
  }

  /** `Query` once the connection is found and the statement trimmed. */
  function RunStatement(db: Option<Handle>, driver: Driver, stmt: string, args: seq<Cell>): (r: QueryReply)
    ensures r.QueryPanicked? <==> |stmt| >= 3 && db.None?
    ensures r.Replied? && r.rows.Some? ==> IsSelect(stmt) && r.err == None && r.count == |r.rows.value|
    ensures r.Replied? && r.count != 0 && r.rows.None? ==> |stmt| >= 3 && !IsSelect(stmt)
  {
    if |stmt| < 3 then Replied(None, 0, None)
    else if db.None? then QueryPanicked(NilDereference)
    else if IsSelect(stmt) then
      match driver.query(db.value, stmt, args)
      case Err(e) => Replied(None, 0, Some(e))
      case Ok(rows) =>
        match Materialize(|rows.columns|, rows.steps)
        case Err(e) => Replied(None, 0, Some(e))
        case Ok(resultSet) => Replied(Some(resultSet), |resultSet|, None)
    else
      match driver.exec(db.value, stmt, args)
      case Err(e) => Replied(None, 0, Some(e))
      case Ok(res) =>
        match res.rowsAffected
        case Err(e) => Replied(None, 0, Some(e))
        case Ok(n) => Replied(None, n, None)
  }

  /** On the row path every materialised row has one cell per column of
      the result, and the rows are the driver's rows in order. */
  lemma SelectRowsShape(connections: map<string, ConnConfig>, driver: Driver, conn: string, sql: string,
                        args: seq<Cell>)
    requires QuerySpec(connections, driver, conn, sql, args).Replied?
    requires QuerySpec(connections, driver, conn, sql, args).rows.Some?
    ensures conn in connections && connections[conn].db.Some?
    ensures var rows := driver.query(connections[conn].db.value, Statement(sql), args);
      && rows.Ok?
      && var resultSet := QuerySpec(connections, driver, conn, sql, args).rows.value;
      && |resultSet| == |rows.value.steps|
      && forall k :: 0 <= k < |resultSet| ==>
           |resultSet[k]| == |rows.value.columns| && resultSet[k] == rows.value.steps[k].value
  {
  }

  /** A select statement on an open handle takes the row path: the
      driver's query error, else the first scan error, else all the rows
      and their number. */
  lemma SelectTakesRowPath(connections: map<string, ConnConfig>, driver: Driver, conn: string, sql: string,
                           args: seq<Cell>)
    requires conn != "" && sql != "" && conn in connections && connections[conn].db.Some?
    requires |Statement(sql)| >= 3 && IsSelect(Statement(sql))
    ensures var rows := driver.query(connections[conn].db.value, Statement(sql), args);
      && (rows.Err? ==> QuerySpec(connections, driver, conn, sql, args) == Replied(None, 0, Some(rows.error)))
      && (rows.Ok? ==>
            var collected := Materialize(|rows.value.columns|, rows.value.steps);
            && (collected.Err? ==> QuerySpec(connections, driver, conn, sql, args) == Replied(None, 0, Some(collected.error)))
            && (collected.Ok? ==>
                  QuerySpec(connections, driver, conn, sql, args) == Replied(Some(collected.value), |collected.value|, None)))
  {
  }

  /** A statement that is not a select takes the exec path: the driver's
      exec error, else the `RowsAffected` error, else the affected count. */
  lemma ExecPathCount(connections: map<string, ConnConfig>, driver: Driver, conn: string, sql: string,
                      args: seq<Cell>)
    requires conn != "" && sql != "" && conn in connections && connections[conn].db.Some?
    requires |Statement(sql)| >= 3 && !IsSelect(Statement(sql))
    ensures var res := driver.exec(connections[conn].db.value, Statement(sql), args);
      && (res.Err? ==> QuerySpec(connections, driver, conn, sql, args) == Replied(None, 0, Some(res.error)))
      && (res.Ok? && res.value.rowsAffected.Err? ==>
            QuerySpec(connections, driver, conn, sql, args) == Replied(None, 0, Some(res.value.rowsAffected.error)))
      && (res.Ok? && res.value.rowsAffected.Ok? ==>
            QuerySpec(connections, driver, conn, sql, args) == Replied(None, res.value.rowsAffected.value, None))
  {
  }

  /** Leading spaces do not change how a statement is classified or run. */
  lemma QueryIgnoresLeadingSpaces(connections: map<string, ConnConfig>, driver: Driver, conn: string,
                                  sql: string, args: seq<Cell>, spaces: nat)
    requires sql != []
    ensures QuerySpec(connections, driver, conn, seq(spaces, _ => ' ') + sql, args)
         == QuerySpec(connections, driver, conn, sql, args)
  {
    var padded := seq(spaces, _ => ' ') + sql;
    assert padded != [] by { assert padded[|padded| - 1] == sql[|sql| - 1]; }
    StatementOfPadded(sql, spaces);
  }

  lemma StatementOfPadded(sql: string, spaces: nat)
    ensures Statement(seq(spaces, _ => ' ') + sql) == Statement(sql)
  {
    StatementIsTrimLeft(seq(spaces, _ => ' ') + sql);
    StatementIsTrimLeft(sql);
    TrimLeftPadded(sql, spaces);
  }

  lemma StatementIsTrimLeft(s: string)
    ensures Statement(s) == TrimLeft(s, ' ')
  {
  }

  lemma {:induction false} TrimLeftPadded(sql: string, spaces: nat)
    ensures TrimLeft(seq(spaces, _ => ' ') + sql, ' ') == TrimLeft(sql, ' ')
  {
    if spaces > 0 {
      var padded := seq(spaces, _ => ' ') + sql;
      assert padded[1..] == seq(spaces - 1, _ => ' ') + sql;
      TrimLeftPadded(sql, spaces - 1);
    } else {
      assert seq(spaces, _ => ' ') + sql == sql;
    }
  }

  // ---------------------------------------------------------------------
  // The connection registry
  // ---------------------------------------------------------------------

  /** The package-level `mysqlConnections` map, made empty by `init`.
      Every `*Mysql` reads and writes this one map. */
  class Registry {
    var connections: map<string, ConnConfig>

    /** `mysqlConnections = make(map[string]*MysqlConnConfig)`. */
    constructor ()
      ensures connections == map[]
    {
      connections := map[];
    }
  }

  /** `*Mysql`, an empty struct: its methods work on the shared registry,
      so two instances see each other's connections. */
  class Mysql {
    const registry: Registry

    /** `NewMysql`: a new instance on the package's registry, which it
        leaves as it is. */
    constructor (registry: Registry)
      ensures this.registry == registry
    {
      this.registry := registry;
    }

    /** `AddConnection`: store the parameters with no handle, replacing any
        entry of that name; the other entries stay as they were. */
    method AddConnection(conn: string, host: string, user: string, pass: string, dbName: string, port: string)
      modifies registry
      ensures registry.connections == old(registry.connections)[conn := ConnConfig(host, user, pass, dbName, port, None)]
    {
      registry.connections := registry.connections[conn := ConnConfig(host, user, pass, dbName, port, None)];
    }

    /** `OpenConnection`: open and ping the named connection. The registry
        is not written: the handle is only returned. */
    method OpenConnection(conn: string, driver: Driver) returns (db: Option<Handle>, err: Option<string>)
      ensures OpenSpec(registry.connections, driver, conn).Ok? ==> db == Some(OpenSpec(registry.connections, driver, conn).value) && err == None
      ensures OpenSpec(registry.connections, driver, conn).Err? ==> db == None && err == Some(OpenSpec(registry.connections, driver, conn).error)
      ensures conn !in registry.connections ==> err == Some("connection not found")
    {
      if conn !in registry.connections {
        return None, Some("connection not found");
      }
      var config := registry.connections[conn];
      var handle := driver.open(config.user + ":" + config.pass + "@tcp(" + config.host + ":" + config.port + ")/" + config.dbName);
      if handle.Err? {
        return None, Some(handle.error);
      }
      var pingErr := driver.ping(handle.value);
      if pingErr.Some? {
        return None, pingErr;
      }
      return Some(handle.value), None;
    }

    /** `CloseConnection`: close the stored handle, if any, ignoring the
        error; returns the handle that was closed. The entry keeps its
        (now closed) handle. */
    method CloseConnection(conn: string) returns (closed: Option<Handle>)
      ensures conn in registry.connections ==> closed == registry.connections[conn].db
      ensures conn !in registry.connections ==> closed == None
    {
      if conn !in registry.connections {
        return None;
      }
      var config := registry.connections[conn];
      if config.db.None? {
        return None;
      }
      return config.db;
    }

    /** `AddAndOpenConnection`: register, open, and store the handle only
        when opening succeeded. */
    method AddAndOpenConnection(conn: string, host: string, user: string, pass: string, dbName: string,
                                port: string, driver: Driver) returns (db: Option<Handle>, err: Option<string>)
      modifies registry
      ensures var added := old(registry.connections)[conn := ConnConfig(host, user, pass, dbName, port, None)];
        match OpenSpec(added, driver, conn)
        case Ok(h) =>
          db == Some(h) && err == None
          && registry.connections == old(registry.connections)[conn := ConnConfig(host, user, pass, dbName, port, Some(h))]
        case Err(e) => db == None && err == Some(e) && registry.connections == added
    {
      AddConnection(conn, host, user, pass, dbName, port);
      db, err := OpenConnection(conn, driver);
      if err.Some? {
        return None, err;
      }
      registry.connections := registry.connections[conn := registry.connections[conn].(db := db)];
    }

    /** `GetConnection`: the stored handle, nil included, or an error for
        an unknown name. */
    method GetConnection(conn: string) returns (db: Option<Handle>, err: Option<string>)
      ensures conn in registry.connections ==> db == registry.connections[conn].db && err == None
      ensures conn !in registry.connections ==> db == None && err == Some("connection not found")
    {
      if conn !in registry.connections {
        return None, Some("connection not found");
      }
      return registry.connections[conn].db, None;
    }

    /** `Query`: classify the statement, then either materialise the rows,
        allocating one cell per column for each, or report the affected
        count. */
    method Query(conn: string, sql: string, args: seq<Cell>, driver: Driver) returns (reply: QueryReply)
      ensures reply == QuerySpec(registry.connections, driver, conn, sql, args)
    {
      if conn == "" || sql == "" {
        return Replied(None, 0, None);
      }
      var db, err := GetConnection(conn);
      if err.Some? {
        return Replied(None, 0, err);
      }
      var stmt := sql;
      if stmt[0] == ' ' {
        stmt := TrimLeft(stmt, ' ');
      }
      if |stmt| < 3 {
        return Replied(None, 0, None);
      }
      if db.None? {
        return QueryPanicked(NilDereference);
      }
      if ToLower(stmt[..3]) == "sel" {
        var rows := driver.query(db.value, stmt, args);
        if rows.Err? {
          return Replied(None, 0, Some(rows.error));
        }
        var collected := ReadRows(|rows.value.columns|, rows.value.steps);
        if collected.Err? {
          return Replied(None, 0, Some(collected.error));
        }
        var resultSet := collected.value;
        return Replied(Some(resultSet), |resultSet|, None);
      }
      var res := driver.exec(db.value, stmt, args);
      if res.Err? {
        return Replied(None, 0, Some(res.error));
      }
      var count := res.value.rowsAffected;
      if count.Err? {
        return Replied(None, 0, Some(count.error));
      }
      return Replied(None, count.value, None);
    }

    /** The `for rows.Next()` loop: per row, a fresh array of `numCols`
        nil cells that `rows.Scan` fills, appended to the result set; the
        first scan error ends the loop. */
    static method ReadRows(numCols: nat, steps: seq<Result<seq<Cell>, string>>)
      returns (collected: Result<seq<seq<Cell>>, string>)
      ensures collected == Materialize(numCols, steps)
    {
      var resultSet: seq<seq<Cell>> := [];
      var i := 0;
      assert steps[i..] == steps;
      assert Prepend(resultSet, Materialize(numCols, steps)) == Materialize(numCols, steps) by {
        if Materialize(numCols, steps).Ok? {
          assert [] + Materialize(numCols, steps).value == Materialize(numCols, steps).value;
        }
      }
      while i < |steps|
        invariant 0 <= i <= |steps|
        invariant Materialize(numCols, steps) == Prepend(resultSet, Materialize(numCols, steps[i..]))
      {
        var results := new Cell[numCols];
        for j := 0 to numCols
          invariant forall m :: 0 <= m < j ==> results[m] == Null
        {
          results[j] := Null;
        }
        var scanned := ScanRow(numCols, steps[i]);
        if scanned.Err? {
          assert Materialize(numCols, steps[i..]) == Err(scanned.error);
          return Err(scanned.error);
        }
        forall m | 0 <= m < numCols {
          results[m] := scanned.value[m];
        }
        assert results[..] == scanned.value;
        MaterializeStep(numCols, steps, i, resultSet);
        resultSet := resultSet + [results[..]];
        i := i + 1;
      }
      assert Materialize(numCols, steps[i..]) == Ok([]);
      assert resultSet + [] == resultSet;
      return Ok(resultSet);
    }

    /** `Exec`: `Query`'s count and error, dropping the rows. */
    method Exec(conn: string, sql: string, args: seq<Cell>, driver: Driver) returns (outcome: Outcome, count: int, err: Option<string>)
      ensures QuerySpec(registry.connections, driver, conn, sql, args).QueryPanicked? <==> outcome.Panicked?
      ensures QuerySpec(registry.connections, driver, conn, sql, args).Replied? ==>
        outcome == Returned
        && count == QuerySpec(registry.connections, driver, conn, sql, args).count
        && err == QuerySpec(registry.connections, driver, conn, sql, args).err
    {
      var reply := Query(conn, sql, args, driver);
      if reply.QueryPanicked? {
        return Panicked(reply.reason), 0, None;
      }
      return Returned, reply.count, reply.err;
    }
  }

  /** One turn of the row loop: a scanned row moves from the rest of the
      stream to the rows collected so far. */
  lemma MaterializeStep(numCols: nat, steps: seq<Result<seq<Cell>, string>>, i: nat, done: seq<seq<Cell>>)
    requires i < |steps| && ScanRow(numCols, steps[i]).Ok?
    ensures Prepend(done, Materialize(numCols, steps[i..]))
         == Prepend(done + [ScanRow(numCols, steps[i]).value], Materialize(numCols, steps[i + 1..]))
  {
    assert steps[i..][1..] == steps[i + 1..];
    var rest := Materialize(numCols, steps[i + 1..]);
    if rest.Ok? {
      assert done + ([ScanRow(numCols, steps[i]).value] + rest.value)
          == done + [ScanRow(numCols, steps[i]).value] + rest.value;
    }
  }

  /** The rows collected so far in front of what the rest of the loop
      yields. */
  function Prepend(done: seq<seq<Cell>>, rest: Result<seq<seq<Cell>>, string>): Result<seq<seq<Cell>>, string>
  {
    match rest
    case Ok(rows) => Ok(done + rows)
    case Err(e) => Err(e)
  }
}
