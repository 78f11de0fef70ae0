/**
 * The database layer (db/db.go): the scanned value types, their conversion to
 * float64 and to label text, the scanned resultset, the connection a recipe
 * runs against, and the process-wide driver registry.
 */
module Db {
  import opened Wrappers
  import opened Foreign
  import opened Strings

  type int32 = x: int | -0x8000_0000 <= x < 0x8000_0000
  type int64 = x: int | -0x8000_0000_0000_0000 <= x < 0x8000_0000_0000_0000
  type byte = x: int | 0 <= x < 0x100

  /**
   * A value as a driver scans it into an interface{}: nil, one of the Go types
   * the conversions switch on, or any other dynamic type (named by `typeName`).
   * A time.Time is represented by its Unix seconds, the only part converted.
   */
  datatype RawValue =
    | Null
    | Int32(i32: int32)
    | Int64(i64: int64)
    | Float32(f32: Float)
    | Float64(f64: Float)
    | Time(unix: int64)
    | Bytes(bytes: seq<byte>)
    | Str(str: string)
    | Other(typeName: string)

  /** string(b) for a []byte b: one character per byte. */
  function BytesToString(b: seq<byte>): (s: string)
    ensures |s| == |b|
    ensures forall i :: 0 <= i < |b| ==> s[i] as int == b[i]
  {
    seq(|b|, i requires 0 <= i < |b| => b[i] as char)
  }

  /**
   * dbStringToFloat64: with a regexp that matches with at least one capture
   * group the first group is parsed, otherwise the whole string.
   */
  function StringToFloat64(env: Env, s: string, re: Option<Regexp>): (res: (Float, bool))
    ensures res.1 <==> env.parseFloat(ParsedText(env, s, re)).Some?
    ensures res.1 ==> res.0 == env.parseFloat(ParsedText(env, s, re)).value
    ensures !res.1 ==> res.0 == NaN
  {
    var text := if re.Some? && |env.findStringSubmatch(re.value, s)| > 1
                then env.findStringSubmatch(re.value, s)[1] else s;
    match env.parseFloat(text)
    case None => (NaN, false)
    case Some(f) => (f, true)
  }

  /** The text StringToFloat64 hands to strconv.ParseFloat. */
  function ParsedText(env: Env, s: string, re: Option<Regexp>): string
  {
    if re.Some? then
      var groups := env.findStringSubmatch(re.value, s);
      if |groups| > 1 then groups[1] else s
    else s
  }

  /** ToFloat64: the float64 for a scanned value; nil is NaN and not an error. */
  function ToFloat64(env: Env, t: RawValue, r: Option<Regexp>): (res: (Float, bool))
    ensures t.Null? ==> res == (NaN, true)
    ensures t.Other? ==> res == (NaN, false)
    ensures !res.1 ==> res.0 == NaN
  {
    match t
    case Int32(v) => (Num(v as real), true)
    case Int64(v) => (Num(v as real), true)
    case Float32(f) => (f, true)
    case Float64(f) => (f, true)
    case Time(u) => (Num(u as real), true)
    case Bytes(b) => StringToFloat64(env, BytesToString(b), r)
    case Str(s) => StringToFloat64(env, s, r)
    case Null => (NaN, true)
    case Other(_) => (NaN, false)
  }

  /** Numbers and times convert directly, whatever regexp is given. */
  lemma NumericToFloat64(env: Env, t: RawValue, r: Option<Regexp>)
    requires t.Int32? || t.Int64? || t.Float32? || t.Float64? || t.Time?
    ensures ToFloat64(env, t, r).1
    ensures ToFloat64(env, t, r) == ToFloat64(env, t, None)
    ensures t.Int32? ==> ToFloat64(env, t, r).0 == Num(t.i32 as real)
    ensures t.Int64? ==> ToFloat64(env, t, r).0 == Num(t.i64 as real)
    ensures t.Float32? ==> ToFloat64(env, t, r).0 == t.f32
    ensures t.Float64? ==> ToFloat64(env, t, r).0 == t.f64
    ensures t.Time? ==> ToFloat64(env, t, r).0 == Num(t.unix as real)
  {
  }

  /** A []byte converts exactly like the string with the same bytes. */
  lemma BytesLikeString(env: Env, b: seq<byte>, r: Option<Regexp>)
    ensures ToFloat64(env, Bytes(b), r) == ToFloat64(env, Str(BytesToString(b)), r)
  {
  }

  /** A regexp that matches with a group: the value is that of the group text alone. */
  lemma RegexpGroupParsed(env: Env, s: string, re: Regexp)
    requires |env.findStringSubmatch(re, s)| > 1
    ensures ToFloat64(env, Str(s), Some(re)) == ToFloat64(env, Str(env.findStringSubmatch(re, s)[1]), None)
  {
  }

  /** No regexp, or one that does not match with a group: the whole string is parsed. */
  lemma WholeStringParsed(env: Env, s: string, r: Option<Regexp>)
    requires r.None? || |env.findStringSubmatch(r.value, s)| <= 1
    ensures ToFloat64(env, Str(s), r) == ToFloat64(env, Str(s), None)
    ensures ToFloat64(env, Str(s), None) ==
            (if env.parseFloat(s).Some? then (env.parseFloat(s).value, true) else (NaN, false))
  {
  }

  /**
   * ToUnsignedFloat64: the integer types are read as uint32/uint64, every
   * other value is converted as by ToFloat64.
   */
  function ToUnsignedFloat64(env: Env, t: RawValue, r: Option<Regexp>): (res: (Float, bool))
    ensures t.Int32? ==> res == (Num((t.i32 % 0x1_0000_0000) as real), true)
    ensures t.Int64? ==> res == (Num((t.i64 % 0x1_0000_0000_0000_0000) as real), true)
    ensures !t.Int32? && !t.Int64? ==> res == ToFloat64(env, t, r)
  {
    match t
    case Int32(v) => (Num((if v < 0 then v + 0x1_0000_0000 else v) as real), true)
    case Int64(v) => (Num((if v < 0 then v + 0x1_0000_0000_0000_0000 else v) as real), true)
    case _ => ToFloat64(env, t, r)
  }

  /** On non-negative integers the unsigned reading agrees with the signed one. */
  lemma UnsignedAgreesOnNonNegative(env: Env, t: RawValue, r: Option<Regexp>)
    requires (t.Int32? && t.i32 >= 0) || (t.Int64? && t.i64 >= 0)
    ensures ToUnsignedFloat64(env, t, r) == ToFloat64(env, t, r)
  {
  }

  /** ToString: the label text of a scanned value; nil is "" and not an error. */
  function ToString(env: Env, t: RawValue): (res: (string, bool))
    ensures res.1 <==> !(t.Int32? || t.Float32? || t.Other?)
    ensures !res.1 ==> res.0 == ""
    ensures t.Null? ==> res.0 == ""
    ensures t.Str? ==> res.0 == t.str
    ensures t.Int64? ==> res.0 == DecimalText(t.i64) && ParseDecimal(res.0) == Some(t.i64 as int)
    ensures t.Time? ==> res.0 == DecimalText(t.unix) && ParseDecimal(res.0) == Some(t.unix as int)
    ensures t.Float64? ==> res.0 == env.formatFloat(t.f64)
    ensures t.Bytes? ==> |res.0| == |t.bytes| && forall i :: 0 <= i < |t.bytes| ==> res.0[i] as int == t.bytes[i]
  {
    match t
    case Int64(v) => DecimalRoundTrip(v); (DecimalText(v), true)
    case Float64(f) => (env.formatFloat(f), true)
    case Time(u) => DecimalRoundTrip(u); (DecimalText(u), true)
    case Null => ("", true)
    case Bytes(b) => (BytesToString(b), true)
    case Str(s) => (s, true)
    case _ => ("", false)
  }

  // ------------------------------------------------------------ resultsets

  /** ScannedResultSet: the column names and the rows of one resultset. */
  datatype ScannedResultSet = ScannedResultSet(colnames: seq<string>, rows: seq<seq<RawValue>>)

  /** Every row has one value per column, as scanResultSet builds them. */
  predicate Rectangular(rs: ScannedResultSet)
  {
    forall i :: 0 <= i < |rs.rows| ==> |rs.rows[i]| == |rs.colnames|
  }

  /** A resultset as a connection returns it. */
  type ScannedSet = rs: ScannedResultSet | Rectangular(rs) witness ScannedResultSet([], [])

  /** What a connection answers to one query: its resultsets, or the error text. */
  type Answer = Result<seq<ScannedSet>, string>

  /**
   * A connection (the Conn interface) whose answers are scripted: the k-th
   * query it receives (counting from 0) with text q is answered by
   * script(k, q). It records every query and counts the calls to Close.
   */
  class ScriptedConn {
    const script: (nat, string) -> Answer
    var sqls: seq<string>
    var closes: nat

    constructor (script: (nat, string) -> Answer)
      ensures this.script == script && sqls == [] && closes == 0
    {
      this.script := script;
      sqls := [];
      closes := 0;
    }

    /** Query: records q and returns the scripted answer. */
    method Query(q: string) returns (r: Answer)
      modifies this`sqls
      ensures sqls == old(sqls) + [q]
      ensures r == script(|old(sqls)|, q)
    {
      r := script(|sqls|, q);
      sqls := sqls + [q];
    }

    /** Close: counted; the scripted connection always closes without error. */
    method Close()
      modifies this`closes
      ensures closes == old(closes) + 1
    {
      closes := closes + 1;
    }
  }

  // ---------------------------------------------------------- the registry

  /** A registered driver, known by an identity; what it opens is not modelled. */
  datatype Driver = Driver(id: string)

  /** Why Register refuses a driver (the Go code panics with these messages). */
  datatype RegisterError = NilDriver | DuplicateDriver(name: string)

  /** What Open asks a found driver to do: open the data source name dsn. */
  datatype OpenRequest = OpenRequest(driver: Driver, dsn: string)

  /** The name-to-driver table behind Register, Drivers and Open. */
  class Registry {
    var drivers: map<string, Driver>

    constructor ()
      ensures drivers == map[]
    {
      drivers := map[];
    }

    /** Register: adds a driver under a new name; a nil driver or a taken name is refused. */
    method Register(name: string, driver: Option<Driver>) returns (err: Option<RegisterError>)
      modifies this
      ensures driver.None? ==> err == Some(NilDriver) && drivers == old(drivers)
      ensures driver.Some? && name in old(drivers) ==>
                err == Some(DuplicateDriver(name)) && drivers == old(drivers)
      ensures driver.Some? && name !in old(drivers) ==>
                err == None && drivers == old(drivers)[name := driver.value]
    {
      if driver.None? {
        return Some(NilDriver);
      }
      if name in drivers {
        return Some(DuplicateDriver(name));
      }
      drivers := drivers[name := driver.value];
      err := None;
    }

    /** Drivers: the registered names in ascending order, each once. */
    method Drivers() returns (list: seq<string>)
      ensures StrictlySorted(list)
      ensures forall n :: n in list <==> n in drivers
      ensures |list| == |drivers|
    {
      // collect the names in the map's (arbitrary) order
      var names: seq<string> := [];
      var rest := drivers.Keys;
      while rest != {}
        invariant rest <= drivers.Keys
        invariant forall n :: n in names <==> n in drivers.Keys - rest
        invariant forall i, j :: 0 <= i < j < |names| ==> names[i] != names[j]
        invariant |names| + |rest| == |drivers.Keys|
        decreases |rest|
      {
        var n :| n in rest;
        assert n !in names;
        names := names + [n];
        rest := rest - {n};
      }
      // sort.Strings
      list := [];
      var i := 0;
      while i < |names|
        invariant 0 <= i <= |names|
        invariant StrictlySorted(list)
        invariant |list| == i
        invariant forall n :: n in list <==> n in names[..i]
      {
        assert names[i] !in names[..i];
        list := Insert(list, names[i]);
        i := i + 1;
        assert names[..i] == names[..i - 1] + [names[i - 1]];
      }
      assert names[..i] == names;
      assert |drivers.Keys| == |drivers|;
    }

    /**
     * Open: looks the driver up by name; an unknown name opens nothing and is
     * reported with the name quoted as Go quotes a string.
     */
    function Open(env: Env, driverName: string, dsn: string): (r: Result<OpenRequest, string>)
      reads this
      ensures r.Ok? <==> driverName in drivers
      ensures r.Ok? ==> r.value == OpenRequest(drivers[driverName], dsn)
      ensures r.Err? ==> r.error == "sql: unknown driver " + env.quote(driverName) + " (forgotten import?)"
    {
      if driverName in drivers then Ok(OpenRequest(drivers[driverName], dsn))
      else Err("sql: unknown driver " + env.quote(driverName) + " (forgotten import?)")
    }
  }
}
