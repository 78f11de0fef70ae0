/** Column usages and column mappings (common/common.go). */
module Common {
  import opened Wrappers
  import opened Foreign

  /** How a column of a resultset becomes (or does not become) a metric. */
  datatype ColumnUsage = Discard | Label | Counter | Gauge | MappedMetric | Duration | Fixed

  /** The integer the Go constant stands for: 1..7 in declaration order, 0 being "unset". */
  function Code(u: ColumnUsage): int
  {
    match u
    case Discard => 1
    case Label => 2
    case Counter => 3
    case Gauge => 4
    case MappedMetric => 5
    case Duration => 6
    case Fixed => 7
  }

  /** The configuration spelling of a usage. */
  function Name(u: ColumnUsage): string
  {
    match u
    case Discard => "DISCARD"
    case Label => "LABEL"
    case Counter => "COUNTER"
    case Gauge => "GAUGE"
    case MappedMetric => "MAPPEDMETRIC"
    case Duration => "DURATION"
    case Fixed => "FIXED"
  }

  const UsageNames: set<string> :=
    {"DISCARD", "LABEL", "COUNTER", "GAUGE", "MAPPEDMETRIC", "DURATION", "FIXED"}

  /** Parses a usage string; anything but the seven exact spellings is an error. */
  function StringToColumnUsage(s: string): (r: Result<ColumnUsage, string>)
    ensures r.Ok? <==> s in UsageNames
    ensures r.Ok? ==> Name(r.value) == s
    ensures r.Err? ==> r.error == "wrong ColumnUsage given : " + s
  {
    match s
    case "DISCARD" => Ok(Discard)
    case "LABEL" => Ok(Label)
    case "COUNTER" => Ok(Counter)
    case "GAUGE" => Ok(Gauge)
    case "MAPPEDMETRIC" => Ok(MappedMetric)
    case "DURATION" => Ok(Duration)
    case "FIXED" => Ok(Fixed)
    case _ => Err("wrong ColumnUsage given : " + s)
  }

  /** Every usage's spelling parses back to that usage. */
  lemma UsageRoundTrip(u: ColumnUsage)
    ensures StringToColumnUsage(Name(u)) == Ok(u)
  {
    match u
    case Discard =>
    case Label =>
    case Counter =>
    case Gauge =>
    case MappedMetric =>
    case Duration =>
    case Fixed =>
  }

  /** Distinct strings never parse to the same usage, and no parsed usage is the unset code 0. */
  lemma UsageParseInjective(s: string, t: string)
    requires StringToColumnUsage(s).Ok? && StringToColumnUsage(t).Ok?
    requires StringToColumnUsage(s).value == StringToColumnUsage(t).value
    ensures s == t
    ensures 1 <= Code(StringToColumnUsage(s).value) <= 7
  {
  }

  /** The integer codes are 1..7 and tell the usages apart. */
  lemma CodesDistinct(u: ColumnUsage, v: ColumnUsage)
    ensures Code(u) != 0
    ensures Code(u) == Code(v) <==> u == v
  {
  }

  /**
   * How to build a metric from a column. `mapping` stands for the optional
   * map[string]float64 (None is Go's nil map), `regexp` for the optional
   * *regexp.Regexp.
   */
  datatype ColumnMapping = ColumnMapping(
    usage: ColumnUsage,
    description: string,
    mapping: Option<map<string, Float>>,
    regexp: Option<Regexp>,
    fixedval: string)
}
