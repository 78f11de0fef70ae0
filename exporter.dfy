/**
 * The exporter (dbms_exporter.go): the descriptor maps built from the recipes'
 * result maps once at start-up, the conversion of a DURATION column, and a
 * scrape, which runs every recipe on one connection and turns each cell of
 * each returned resultset into a metric, an error count or nothing.
 */
module Exporter {
  import opened Wrappers
  import opened Foreign
  import opened Strings
  import opened Common
  import opened Db
  import opened Recipes

  // ------------------------------------------------------------ descriptors

  /** prometheus.ValueType; `NoValueType` is the zero value a discarded column keeps. */
  datatype ValueType = NoValueType | CounterValue | GaugeValue | UntypedValue

  /** prometheus.Desc: fully qualified name, help, variable label names, constant labels. */
  datatype Desc = Desc(fqName: string, help: string, variableLabels: seq<string>,
                       constLabels: map<string, string>)

  /** The descriptor a discarded column keeps: Go's nil *Desc, never used. */
  const NoDesc := Desc("", "", [], map[])

  /** The conversion closure of a MetricMap, by what it closes over. */
  datatype Conversion =
    | NoConversion                               // a discarded column has none
    | ToFloat(regexp: Option<Regexp>)            // db.ToFloat64(in, regexp)
    | Mapped(mapping: Option<map<string, Float>>) // lookup of a Go string in Mapping
    | DurationConv                               // convertDuration

  /** MetricMap: how one column becomes a metric. */
  datatype MetricMap = MetricMap(discard: bool, vtype: ValueType, desc: Desc, conversion: Conversion)

  /** MetricMapNamespace: the label columns and the mapping of every other column. */
  datatype MetricMapNamespace = MetricMapNamespace(labels: seq<string>, columnMappings: map<string, MetricMap>)

  /** The zero MetricMapNamespace, what looking up a missing metric name yields. */
  const EmptyNamespace := MetricMapNamespace([], map[])

  /** A metric as sent on the scrape channel (prometheus.MustNewConstMetric). */
  datatype Metric = Metric(desc: Desc, vtype: ValueType, value: Float, labelValues: seq<string>)

  /** The FIXED columns of a result map, each with its fixed value: the constant labels. */
  function ConstLabels(rm: ResultMap): (labels: map<string, string>)
    ensures forall c :: c in labels <==> c in rm && rm[c].usage == Fixed
    ensures forall c :: c in labels ==> labels[c] == rm[c].fixedval
  {
    map c | c in rm && rm[c].usage == Fixed :: rm[c].fixedval
  }

  /** The entry makeDescMap's switch builds for a column that is not FIXED. */
  function Entry(metricName: string, column: string, cm: ColumnMapping,
                 variableLabels: seq<string>, constLabels: map<string, string>): MetricMap
    requires cm.usage != Fixed
  {
    var desc := (name: string) => Desc(metricName + "_" + name, cm.description, variableLabels, constLabels);
    match cm.usage
    case Discard => MetricMap(true, NoValueType, NoDesc, NoConversion)
    case Label => MetricMap(true, NoValueType, NoDesc, NoConversion)
    case Counter => MetricMap(false, CounterValue, desc(column), ToFloat(cm.regexp))
    case Gauge => MetricMap(false, GaugeValue, desc(column), ToFloat(cm.regexp))
    case MappedMetric => MetricMap(false, GaugeValue, desc(column), Mapped(cm.mapping))
    case Duration => MetricMap(false, GaugeValue, desc(column + "_milliseconds"), DurationConv)
  }

  /** No element occurs twice. */
  predicate Distinct(s: seq<string>)
  {
    forall i, j :: 0 <= i < j < |s| ==> s[i] != s[j]
  }

  /**
   * What makeDescMap promises about the namespace ns it builds for metricName
   * from rm: the label list holds each LABEL column once (in the order the map
   * happened to be iterated), and every column that is not FIXED has its entry.
   */
  ghost predicate Describes(ns: MetricMapNamespace, metricName: string, rm: ResultMap)
  {
    && (forall c :: c in ns.labels <==> c in rm && rm[c].usage == Label)
    && Distinct(ns.labels)
    && ns.columnMappings == map c | c in rm && rm[c].usage != Fixed ::
                              Entry(metricName, c, rm[c], ns.labels, ConstLabels(rm))
  }

  /** makeDescMap's first loop: the LABEL columns in iteration order, and the constant labels. */
  method LabelColumns(rm: ResultMap) returns (variableLabels: seq<string>, constLabels: map<string, string>)
    ensures forall c :: c in variableLabels <==> c in rm && rm[c].usage == Label
    ensures Distinct(variableLabels)
    ensures constLabels == ConstLabels(rm)
  {
    variableLabels := [];
    constLabels := map[];
    var rest := rm.Keys;
    while rest != {}
      invariant rest <= rm.Keys
      invariant forall c :: c in variableLabels <==> c in rm.Keys - rest && rm[c].usage == Label
      invariant Distinct(variableLabels)
      invariant forall c :: c in constLabels <==> c in rm.Keys - rest && rm[c].usage == Fixed
      invariant forall c :: c in constLabels ==> constLabels[c] == rm[c].fixedval
      decreases |rest|
    {
      var c :| c in rest;
      if rm[c].usage == Label {
        variableLabels := variableLabels + [c];
      } else if rm[c].usage == Fixed {
        constLabels := constLabels[c := rm[c].fixedval];
      }
      rest := rest - {c};
    }
  }

  /** makeDescMap: the labels and constant labels first, then one entry per column. */
  method MakeDescMap(metricName: string, rm: ResultMap) returns (ns: MetricMapNamespace)
    ensures Describes(ns, metricName, rm)
  {
    var variableLabels, constLabels := LabelColumns(rm);
    var thisMap: map<string, MetricMap> := map[];
    var rest := rm.Keys;
    while rest != {}
      invariant rest <= rm.Keys
      invariant forall c :: c in thisMap <==> c in rm.Keys - rest && rm[c].usage != Fixed
      invariant forall c :: c in thisMap ==>
                  rm[c].usage != Fixed && thisMap[c] == Entry(metricName, c, rm[c], variableLabels, constLabels)
      decreases |rest|
    {
      var c :| c in rest;
      if rm[c].usage != Fixed {
        thisMap := thisMap[c := Entry(metricName, c, rm[c], variableLabels, constLabels)];
      }
      rest := rest - {c};
    }
    ns := MetricMapNamespace(variableLabels, thisMap);
    assert thisMap == map c | c in rm && rm[c].usage != Fixed ::
                        Entry(metricName, c, rm[c], variableLabels, ConstLabels(rm));
  }

  /**
   * Every column of a described namespace, by its usage: DISCARD and LABEL are
   * discarded, FIXED has no entry, COUNTER is a counter, the rest gauges; each
   * metric's descriptor is named metricName_column (DURATION adding
   * _milliseconds), carries the column's description, every label column and
   * every fixed column.
   */
  lemma DescribedColumn(ns: MetricMapNamespace, metricName: string, rm: ResultMap, c: string)
    requires Describes(ns, metricName, rm)
    requires c in rm
    ensures c in ns.columnMappings <==> rm[c].usage != Fixed
    ensures c in ns.columnMappings ==>
              (ns.columnMappings[c].discard <==> rm[c].usage == Discard || rm[c].usage == Label)
    ensures c in ns.columnMappings && !ns.columnMappings[c].discard ==>
              var m := ns.columnMappings[c];
              && (m.vtype == CounterValue <==> rm[c].usage == Counter)
              && (m.vtype == GaugeValue <==> rm[c].usage in {Gauge, MappedMetric, Duration})
              && m.desc.fqName == metricName + "_" + c + (if rm[c].usage == Duration then "_milliseconds" else "")
              && m.desc.help == rm[c].description
              && (forall l :: l in m.desc.variableLabels <==> l in rm && rm[l].usage == Label)
              && (forall l :: l in m.desc.constLabels <==> l in rm && rm[l].usage == Fixed)
              && (forall l :: l in m.desc.constLabels ==> m.desc.constLabels[l] == rm[l].fixedval)
  {
    if c in ns.columnMappings && !ns.columnMappings[c].discard {
      if rm[c].usage == Duration {
        assert metricName + "_" + c + "_milliseconds" == metricName + "_" + (c + "_milliseconds");
      }
    }
  }

  // ------------------------------------------------------------ conversions

  /** d / time.Millisecond on a time.Duration: Go's integer division truncates toward zero. */
  function Milliseconds(ns: int): (ms: int)
    ensures ns >= 0 ==> 0 <= ms * 1_000_000 <= ns < (ms + 1) * 1_000_000
    ensures ns < 0 ==> (ms - 1) * 1_000_000 < ns <= ms * 1_000_000 <= 0
  {
    if ns >= 0 then ns / 1_000_000 else -((-ns) / 1_000_000)
  }

  /** The text convertDuration reads: a []byte or a string, nothing else. */
  function DurationText(v: RawValue): Option<string>
  {
    match v
    case Bytes(b) => Some(BytesToString(b))
    case Str(s) => Some(s)
    case _ => None
  }

  /**
   * convertDuration: the text "-1" and unparseable text convert to nothing;
   * otherwise the duration in whole milliseconds, truncated toward zero.
   */
  function ConvertDuration(env: Env, v: RawValue): (res: (Float, bool))
    ensures res.1 <==> DurationText(v).Some? && DurationText(v).value != "-1"
                       && env.parseDuration(DurationText(v).value).Some?
    ensures !res.1 ==> res.0 == NaN
  {
    match DurationText(v)
    case None => (NaN, false)
    case Some(s) =>
      if s == "-1" then (NaN, false)
      else match env.parseDuration(s)
        case None => (NaN, false)
        case Some(ns) => (Num(Milliseconds(ns) as real), true)
  }

  /** A converted duration is the nanoseconds in whole milliseconds, truncated toward zero. */
  lemma DurationMilliseconds(env: Env, v: RawValue)
    requires ConvertDuration(env, v).1
    ensures var ns := env.parseDuration(DurationText(v).value).value;
            var ms := ConvertDuration(env, v).0;
            && ms.Num? && ms.r.Floor as real == ms.r
            && (ns >= 0 ==> 0 <= ms.r.Floor * 1_000_000 <= ns < (ms.r.Floor + 1) * 1_000_000)
            && (ns < 0 ==> (ms.r.Floor - 1) * 1_000_000 < ns <= ms.r.Floor * 1_000_000 <= 0)
  {
    var ns := env.parseDuration(DurationText(v).value).value;
    assert ConvertDuration(env, v).0 == Num(Milliseconds(ns) as real);
    assert (Milliseconds(ns) as real).Floor == Milliseconds(ns);
  }

  /** The conversion closure applied to a scanned value. */
  function Convert(env: Env, conv: Conversion, v: RawValue): (res: (Float, bool))
  {
    match conv
    case NoConversion => (NaN, false)
    case ToFloat(re) => ToFloat64(env, v, re)
    case Mapped(m) =>
      if v.Str? && m.Some? && v.str in m.value then (m.value[v.str], true) else (NaN, false)
    case DurationConv => ConvertDuration(env, v)
  }

  /**
   * A MAPPEDMETRIC column converts exactly the Go strings its mapping holds,
   * to their mapped values; a column whose mapping is absent converts nothing.
   */
  lemma MappedConversion(env: Env, m: Option<map<string, Float>>, v: RawValue)
    ensures Convert(env, Mapped(m), v).1 <==> v.Str? && m.Some? && v.str in m.value
    ensures Convert(env, Mapped(m), v).1 ==> Convert(env, Mapped(m), v).0 == m.value[v.str]
    ensures m.None? ==> Convert(env, Mapped(m), v) == (NaN, false)
  {
  }

  // ------------------------------------------------------------- desc maps

  /** The key a result map's metrics are filed under: namespace, or namespace_name. */
  function MetricName(namespace: string, rmName: string): string
  {
    if rmName == "metrics" then namespace else namespace + "_" + rmName
  }

  /** The (metric name, result map) pairs of one recipe, in order, "discard" ones left out. */
  function TargetsOf(namespace: string, rms: seq<NamedResultMap>): seq<(string, ResultMap)>
    decreases |rms|
  {
    if rms == [] then []
    else
      var rm := rms[|rms| - 1];
      TargetsOf(namespace, rms[..|rms| - 1]) +
      (if rm.name == "discard" then [] else [(MetricName(namespace, rm.name), rm.resultMap)])
  }

  /** The pairs of all recipes, recipe by recipe. */
  function Targets(recipes: seq<Recipe>): seq<(string, ResultMap)>
    decreases |recipes|
  {
    if recipes == [] then []
    else
      var r := recipes[|recipes| - 1];
      Targets(recipes[..|recipes| - 1]) + TargetsOf(r.GetNamespace(), r.GetResultMaps())
  }

  /** Storing each pair in turn into a map: a later pair with the same name overwrites. */
  function Assigned(targets: seq<(string, ResultMap)>): map<string, ResultMap>
    decreases |targets|
  {
    if targets == [] then map[]
    else
      var t := targets[|targets| - 1];
      Assigned(targets[..|targets| - 1])[t.0 := t.1]
  }

  /** A recipe's pairs are its result maps not named "discard", each under its metric name. */
  lemma {:induction false} TargetsOfMembers(namespace: string, rms: seq<NamedResultMap>)
    ensures forall t :: t in TargetsOf(namespace, rms) <==>
              exists j :: 0 <= j < |rms| && rms[j].name != "discard" &&
                          t == (MetricName(namespace, rms[j].name), rms[j].resultMap)
  {
    if rms != [] {
      var n := |rms| - 1;
      TargetsOfMembers(namespace, rms[..n]);
      forall t | t in TargetsOf(namespace, rms)
        ensures exists j :: 0 <= j < |rms| && rms[j].name != "discard" &&
                            t == (MetricName(namespace, rms[j].name), rms[j].resultMap)
      {
        if t in TargetsOf(namespace, rms[..n]) {
          var j :| 0 <= j < n && rms[..n][j].name != "discard" &&
                   t == (MetricName(namespace, rms[..n][j].name), rms[..n][j].resultMap);
          assert rms[j] == rms[..n][j];
        }
      }
      forall t | exists j :: 0 <= j < |rms| && rms[j].name != "discard" &&
                             t == (MetricName(namespace, rms[j].name), rms[j].resultMap)
        ensures t in TargetsOf(namespace, rms)
      {
        var j :| 0 <= j < |rms| && rms[j].name != "discard" &&
                 t == (MetricName(namespace, rms[j].name), rms[j].resultMap);
        if j < n {
          assert rms[..n][j] == rms[j];
          assert t in TargetsOf(namespace, rms[..n]);
        }
      }
    }
  }

  /**
   * The map of stored pairs holds exactly the names that occur, each with the
   * result map of the last pair of that name.
   */
  lemma {:induction false} AssignedLast(targets: seq<(string, ResultMap)>)
    ensures forall k :: k in Assigned(targets) <==> exists j :: 0 <= j < |targets| && targets[j].0 == k
    ensures forall j :: 0 <= j < |targets| && (forall l :: j < l < |targets| ==> targets[l].0 != targets[j].0) ==>
              Assigned(targets)[targets[j].0] == targets[j].1
  {
    if targets != [] {
      var n := |targets| - 1;
      var front := targets[..n];
      AssignedLast(front);
      forall k | k in Assigned(targets)
        ensures exists j :: 0 <= j < |targets| && targets[j].0 == k
      {
        if k != targets[n].0 {
          assert k in Assigned(front);
          var j :| 0 <= j < n && front[j].0 == k;
          assert targets[j] == front[j];
        }
      }
      forall k | exists j :: 0 <= j < |targets| && targets[j].0 == k
        ensures k in Assigned(targets)
      {
        var j :| 0 <= j < |targets| && targets[j].0 == k;
        if j < n {
          assert front[j] == targets[j];
        }
      }
      forall j | 0 <= j < |targets| && (forall l :: j < l < |targets| ==> targets[l].0 != targets[j].0)
        ensures Assigned(targets)[targets[j].0] == targets[j].1
      {
        if j < n {
          assert targets[n].0 != targets[j].0;
          assert front[j] == targets[j];
          forall l | j < l < n ensures front[l].0 != front[j].0 {
            assert front[l] == targets[l];
          }
        }
      }
    }
  }

  /** Appending one pair stores it over whatever was there. */
  lemma AssignedSnoc(targets: seq<(string, ResultMap)>, t: (string, ResultMap))
    ensures Assigned(targets + [t]) == Assigned(targets)[t.0 := t.1]
  {
    assert (targets + [t])[..|targets|] == targets;
  }

  /** The namespaces built for every stored pair, as makeDescMaps leaves them. */
  ghost predicate DescMapsFor(metricMap: map<string, MetricMapNamespace>, targets: seq<(string, ResultMap)>)
  {
    && metricMap.Keys == Assigned(targets).Keys
    && forall k :: k in metricMap ==> Describes(metricMap[k], k, Assigned(targets)[k])
  }

  /** One more result map adds its pair, unless it is named "discard". */
  lemma TargetsOfSnoc(namespace: string, rms: seq<NamedResultMap>, j: nat)
    requires j < |rms|
    ensures TargetsOf(namespace, rms[..j + 1]) == TargetsOf(namespace, rms[..j]) +
              (if rms[j].name == "discard" then [] else [(MetricName(namespace, rms[j].name), rms[j].resultMap)])
  {
    assert rms[..j + 1][..j] == rms[..j];
  }

  /** Appending one pair: the map of stored pairs is updated at that pair's name. */
  lemma StoreStep(before: seq<(string, ResultMap)>, done: seq<(string, ResultMap)>, t: (string, ResultMap))
    ensures Assigned(before + (done + [t])) == Assigned(before + done)[t.0 := t.1]
  {
    assert before + (done + [t]) == (before + done) + [t];
    AssignedSnoc(before + done, t);
  }

  /** makeDescMaps' inner loop: the result maps of one recipe stored in order. */
  method StoreRecipe(metricMap: map<string, MetricMapNamespace>, namespace: string, rms: seq<NamedResultMap>,
                     ghost before: seq<(string, ResultMap)>)
    returns (stored: map<string, MetricMapNamespace>)
    requires DescMapsFor(metricMap, before)
    ensures DescMapsFor(stored, before + TargetsOf(namespace, rms))
  {
    stored := metricMap;
    assert rms[..0] == [];
    assert before + TargetsOf(namespace, rms[..0]) == before;
    for j := 0 to |rms|
      invariant DescMapsFor(stored, before + TargetsOf(namespace, rms[..j]))
    {
      TargetsOfSnoc(namespace, rms, j);
      if rms[j].name == "discard" {
        assert TargetsOf(namespace, rms[..j + 1]) == TargetsOf(namespace, rms[..j]);
        continue;
      }
      var metricName := namespace;
      if rms[j].name != "metrics" {
        metricName := metricName + "_" + rms[j].name;
      }
      var ns := MakeDescMap(metricName, rms[j].resultMap);
      stored := stored[metricName := ns];
      assert metricName == MetricName(namespace, rms[j].name);
      ghost var t := (metricName, rms[j].resultMap);
      assert TargetsOf(namespace, rms[..j + 1]) == TargetsOf(namespace, rms[..j]) + [t];
      StoreStep(before, TargetsOf(namespace, rms[..j]), t);
    }
    assert rms[..|rms|] == rms;
  }

  /**
   * makeDescMaps: for every result map of every recipe, in order, that is not
   * named "discard", the namespace makeDescMap builds is stored under its
   * metric name; a later result map with the same metric name wins.
   */
  method MakeDescMaps(recipes: seq<Recipe>) returns (metricMap: map<string, MetricMapNamespace>)
    ensures DescMapsFor(metricMap, Targets(recipes))
  {
    metricMap := map[];
    for i := 0 to |recipes|
      invariant DescMapsFor(metricMap, Targets(recipes[..i]))
    {
      metricMap := StoreRecipe(metricMap, recipes[i].GetNamespace(), recipes[i].GetResultMaps(),
                               Targets(recipes[..i]));
      assert recipes[..i + 1][..i] == recipes[..i];
    }
    assert recipes[..|recipes|] == recipes;
  }

  // ----------------------------------------------------------- soundness

  /**
   * A metric MustNewConstMetric accepts as built here: one label value per
   * variable label, a real value type, and an untyped metric carries no labels.
   */
  predicate Sound(m: Metric)
  {
    && |m.labelValues| == |m.desc.variableLabels|
    && m.vtype != NoValueType
    && (m.vtype == UntypedValue ==> m.labelValues == [] && m.desc.constLabels == map[])
  }

  /** Every metric entry of a namespace is typed and carries the namespace's label list. */
  predicate WellFormed(ns: MetricMapNamespace)
  {
    forall c :: c in ns.columnMappings && !ns.columnMappings[c].discard ==>
      && ns.columnMappings[c].desc.variableLabels == ns.labels
      && ns.columnMappings[c].vtype in {CounterValue, GaugeValue}
  }

  /** makeDescMap builds well-formed namespaces. */
  lemma DescribedWellFormed(ns: MetricMapNamespace, metricName: string, rm: ResultMap)
    requires Describes(ns, metricName, rm)
    ensures WellFormed(ns)
  {
    forall c | c in ns.columnMappings && !ns.columnMappings[c].discard
      ensures ns.columnMappings[c].desc.variableLabels == ns.labels
      ensures ns.columnMappings[c].vtype in {CounterValue, GaugeValue}
    {
      assert c in rm;
    }
  }

  // ---------------------------------------------------- one resultset

  /** e.metricMap[namespace]: the zero namespace when the name has no entry. */
  function Lookup(metricMap: map<string, MetricMapNamespace>, namespace: string): MetricMapNamespace
  {
    if namespace in metricMap then metricMap[namespace] else EmptyNamespace
  }

  /** The columnIdx map scrapeResultSet builds: each column name to its position. */
  function IndexMap(colnames: seq<string>): map<string, nat>
    decreases |colnames|
  {
    if colnames == [] then map[]
    else IndexMap(colnames[..|colnames| - 1])[colnames[|colnames| - 1] := |colnames| - 1]
  }

  /** columnIdx[name]: the zero int for a name that is not a column. */
  function ColumnIndex(colnames: seq<string>, name: string): nat
  {
    var index := IndexMap(colnames);
    if name in index then index[name] else 0
  }

  /** A column name maps to the last position it has; a missing name to position 0. */
  lemma {:induction false} ColumnIndexMeaning(colnames: seq<string>, name: string)
    ensures name in colnames ==>
              && ColumnIndex(colnames, name) < |colnames|
              && colnames[ColumnIndex(colnames, name)] == name
              && forall j :: ColumnIndex(colnames, name) < j < |colnames| ==> colnames[j] != name
    ensures name !in colnames ==> ColumnIndex(colnames, name) == 0
  {
    if colnames != [] {
      var n := |colnames| - 1;
      var front := colnames[..n];
      assert colnames == front + [colnames[n]];
      ColumnIndexMeaning(front, name);
      if name != colnames[n] {
        assert ColumnIndex(colnames, name) == ColumnIndex(front, name);
        if name in colnames {
          assert name in front;
          assert colnames[ColumnIndex(front, name)] == front[ColumnIndex(front, name)];
        }
      }
    }
  }

  /**
   * The label values of one row, label by label: the text of the value in the
   * label's column (the empty text when it has none). None when some label's
   * position is past the end of the row, where Go panics.
   */
  function LabelValues(env: Env, labels: seq<string>, colnames: seq<string>, row: seq<RawValue>): (r: Option<seq<string>>)
    ensures r.Some? <==> forall k :: 0 <= k < |labels| ==> ColumnIndex(colnames, labels[k]) < |row|
    ensures r.Some? ==> |r.value| == |labels|
  {
    if exists k :: 0 <= k < |labels| && ColumnIndex(colnames, labels[k]) >= |row| then None
    else Some(seq(|labels|, k requires 0 <= k < |labels| => ToString(env, row[ColumnIndex(colnames, labels[k])]).0))
  }

  /**
   * The value of a label is read from the label's last column of that name;
   * a label whose column the resultset lacks reads the row's first value.
   */
  lemma LabelValueSource(env: Env, labels: seq<string>, colnames: seq<string>, row: seq<RawValue>, k: nat)
    requires LabelValues(env, labels, colnames, row).Some? && k < |labels|
    ensures labels[k] in colnames ==>
              exists j :: 0 <= j < |colnames| && j < |row| && colnames[j] == labels[k] &&
                          (forall l :: j < l < |colnames| ==> colnames[l] != labels[k]) &&
                          LabelValues(env, labels, colnames, row).value[k] == ToString(env, row[j]).0
    ensures labels[k] !in colnames ==>
              0 < |row| && LabelValues(env, labels, colnames, row).value[k] == ToString(env, row[0]).0
  {
    ColumnIndexMeaning(colnames, labels[k]);
    if labels[k] in colnames {
      var j := ColumnIndex(colnames, labels[k]);
      assert colnames[j] == labels[k];
    }
  }

  /** What the scrape has produced: the metrics sent, the error count, and whether it panicked. */
  datatype Tally = Tally(output: seq<Metric>, errors: nat, crashed: bool)

  /** The descriptor of a column the namespace has no mapping for. */
  function UnknownDesc(driver: string, namespace: string, column: string): Desc
  {
    Desc(driver + "_" + namespace + "_" + column, "Unknown metric from " + namespace, [], map[])
  }

  /**
   * Cell j of a row: a mapped column is skipped when discarded, counts an error
   * when its conversion fails and otherwise is a metric with the row's labels; an
   * unmapped column is an untyped metric without labels when it reads as a number,
   * and is dropped silently otherwise. Only the branches that read the cell index
   * the row, so a row too short for column j panics there and nowhere else.
   */
  function CellStep(env: Env, driver: string, mapping: MetricMapNamespace, namespace: string,
                    colname: string, row: seq<RawValue>, j: nat, labels: seq<string>, t: Tally): Tally
  {
    var column := ReplaceSpaces(colname);
    if column in mapping.columnMappings then
      var m := mapping.columnMappings[column];
      if m.discard then t
      else if j >= |row| then t.(crashed := true)
      else
        var res := Convert(env, m.conversion, row[j]);
        if !res.1 then t.(errors := t.errors + 1)
        else t.(output := t.output + [Metric(m.desc, m.vtype, res.0, labels)])
    else if j >= |row| then t.(crashed := true)
    else
      var res := ToFloat64(env, row[j], None);
      if !res.1 then t
      else t.(output := t.output + [Metric(UnknownDesc(driver, namespace, column), UntypedValue, res.0, [])])
  }

  /** The cells of one row from column j on; a panic at a cell ends the row. */
  function CellsFrom(env: Env, driver: string, mapping: MetricMapNamespace, namespace: string,
                     colnames: seq<string>, row: seq<RawValue>, labels: seq<string>, j: nat, t: Tally): Tally
    requires j <= |colnames|
    decreases |colnames| - j
  {
    if j == |colnames| then t
    else
      var t' := CellStep(env, driver, mapping, namespace, colnames[j], row, j, labels, t);
      if t'.crashed then t' else CellsFrom(env, driver, mapping, namespace, colnames, row, labels, j + 1, t')
  }

  /** The rows of one resultset from row r on; a panic ends the scrape. */
  function RowsFrom(env: Env, driver: string, mapping: MetricMapNamespace, namespace: string,
                    colnames: seq<string>, rows: seq<seq<RawValue>>, r: nat, t: Tally): Tally
    requires r <= |rows|
    decreases |rows| - r
  {
    if r == |rows| then t
    else match LabelValues(env, mapping.labels, colnames, rows[r])
      case None => t.(crashed := true)
      case Some(labels) =>
        var t' := CellsFrom(env, driver, mapping, namespace, colnames, rows[r], labels, 0, t);
        if t'.crashed then t' else RowsFrom(env, driver, mapping, namespace, colnames, rows, r + 1, t')
  }

  /** scrapeResultSet: the rows of srs against the namespace filed under `namespace`. */
  function ResultSetTally(env: Env, driver: string, metricMap: map<string, MetricMapNamespace>,
                          namespace: string, srs: ScannedResultSet, t: Tally): Tally
  {
    RowsFrom(env, driver, Lookup(metricMap, namespace), namespace, srs.colnames, srs.rows, 0, t)
  }

  /**
   * The resultsets of one recipe from i on, each against the result map at its
   * position; one with an empty result map is skipped, and a resultset without
   * a result map at its position panics.
   */
  function SetsFrom(env: Env, driver: string, metricMap: map<string, MetricMapNamespace>, namespace: string,
                    rms: seq<NamedResultMap>, srss: seq<ScannedResultSet>, i: nat, t: Tally): Tally
    requires i <= |srss|
    decreases |srss| - i
  {
    if i == |srss| then t
    else if i >= |rms| then t.(crashed := true)
    else if rms[i].ShouldSkip() then SetsFrom(env, driver, metricMap, namespace, rms, srss, i + 1, t)
    else
      var t' := ResultSetTally(env, driver, metricMap, MetricName(namespace, rms[i].name), srss[i], t);
      if t'.crashed then t' else SetsFrom(env, driver, metricMap, namespace, rms, srss, i + 1, t')
  }

  // ---------------------------------------------------------- recipes

  /**
   * A scrape in progress: the tally, the query log of the connection in use,
   * whether the exporter still holds that connection, and how often it was closed.
   */
  datatype Progress = Progress(tally: Tally, log: seq<string>, stored: bool, closes: nat)

  /**
   * scrapeRecipe: run the recipe; a failure counts one error and closes and
   * drops the held connection; otherwise every resultset is scraped.
   */
  function RecipeStep(env: Env, driver: string, metricMap: map<string, MetricMapNamespace>,
                      recipe: Recipe, script: (nat, string) -> Answer, p: Progress): Progress
  {
    var e := RunOutcome(env, recipe, script, p.log);
    match e.result
    case Err(ResultSetOutOfRange(_)) => p.(tally := p.tally.(crashed := true), log := e.sqls)
    case Err(_) =>
      Progress(p.tally.(errors := p.tally.errors + 1), e.sqls, false, if p.stored then p.closes + 1 else p.closes)
    case Ok(srss) =>
      p.(tally := SetsFrom(env, driver, metricMap, recipe.GetNamespace(), recipe.GetResultMaps(), srss, 0, p.tally),
         log := e.sqls)
  }

  /** The recipes from i on, in order, on one connection; a panic ends the scrape. */
  function RecipesFrom(env: Env, driver: string, metricMap: map<string, MetricMapNamespace>,
                       recipes: seq<Recipe>, script: (nat, string) -> Answer, i: nat, p: Progress): Progress
    requires i <= |recipes|
    decreases |recipes| - i
  {
    if i == |recipes| then p
    else
      var p' := RecipeStep(env, driver, metricMap, recipes[i], script, p);
      if p'.tally.crashed then p' else RecipesFrom(env, driver, metricMap, recipes, script, i + 1, p')
  }

  // ------------------------------------------------- scrape properties

  /** Every namespace of a descriptor map is well formed. */
  ghost predicate WellFormedMap(metricMap: map<string, MetricMapNamespace>)
  {
    forall k :: k in metricMap ==> WellFormed(metricMap[k])
  }

  /** The descriptor maps makeDescMaps builds are well formed. */
  lemma DescMapsWellFormed(metricMap: map<string, MetricMapNamespace>, targets: seq<(string, ResultMap)>)
    requires DescMapsFor(metricMap, targets)
    ensures WellFormedMap(metricMap)
  {
    forall k | k in metricMap ensures WellFormed(metricMap[k]) {
      DescribedWellFormed(metricMap[k], k, Assigned(targets)[k]);
    }
  }

  /**
   * From tally t to t': the metrics sent so far are kept, the error count does
   * not go down, and every metric sent after them is sound.
   */
  ghost predicate Keeps(t: Tally, t': Tally)
  {
    && t.output <= t'.output
    && t.errors <= t'.errors
    && forall k :: |t.output| <= k < |t'.output| ==> Sound(t'.output[k])
  }

  lemma KeepsTransitive(t1: Tally, t2: Tally, t3: Tally)
    requires Keeps(t1, t2) && Keeps(t2, t3)
    ensures Keeps(t1, t3)
  {
    forall k | |t1.output| <= k < |t3.output| ensures Sound(t3.output[k]) {
      if k < |t2.output| {
        assert t3.output[k] == t2.output[k];
      }
    }
  }

  /** One cell, with a label value per label of a well-formed namespace, sends only a sound metric. */
  lemma CellStepKeeps(env: Env, driver: string, mapping: MetricMapNamespace, namespace: string,
                      colname: string, row: seq<RawValue>, j: nat, labels: seq<string>, t: Tally)
    requires WellFormed(mapping) && |labels| == |mapping.labels|
    ensures Keeps(t, CellStep(env, driver, mapping, namespace, colname, row, j, labels, t))
  {
  }

  lemma {:induction false} CellsFromKeeps(env: Env, driver: string, mapping: MetricMapNamespace, namespace: string,
                                          colnames: seq<string>, row: seq<RawValue>, labels: seq<string>,
                                          j: nat, t: Tally)
    requires j <= |colnames|
    requires WellFormed(mapping) && |labels| == |mapping.labels|
    ensures Keeps(t, CellsFrom(env, driver, mapping, namespace, colnames, row, labels, j, t))
    decreases |colnames| - j
  {
    if j < |colnames| {
      var t1 := CellStep(env, driver, mapping, namespace, colnames[j], row, j, labels, t);
      CellStepKeeps(env, driver, mapping, namespace, colnames[j], row, j, labels, t);
      if !t1.crashed {
        CellsFromKeeps(env, driver, mapping, namespace, colnames, row, labels, j + 1, t1);
        KeepsTransitive(t, t1, CellsFrom(env, driver, mapping, namespace, colnames, row, labels, j + 1, t1));
      }
    }
  }

  lemma {:induction false} RowsFromKeeps(env: Env, driver: string, mapping: MetricMapNamespace, namespace: string,
                                         colnames: seq<string>, rows: seq<seq<RawValue>>, r: nat, t: Tally)
    requires r <= |rows| && WellFormed(mapping)
    ensures Keeps(t, RowsFrom(env, driver, mapping, namespace, colnames, rows, r, t))
    decreases |rows| - r
  {
    if r < |rows| {
      var lv := LabelValues(env, mapping.labels, colnames, rows[r]);
      if lv.Some? {
        var t1 := CellsFrom(env, driver, mapping, namespace, colnames, rows[r], lv.value, 0, t);
        CellsFromKeeps(env, driver, mapping, namespace, colnames, rows[r], lv.value, 0, t);
        if !t1.crashed {
          RowsFromKeeps(env, driver, mapping, namespace, colnames, rows, r + 1, t1);
          KeepsTransitive(t, t1, RowsFrom(env, driver, mapping, namespace, colnames, rows, r + 1, t1));
        }
      }
    }
  }

  lemma {:induction false} SetsFromKeeps(env: Env, driver: string, metricMap: map<string, MetricMapNamespace>,
                                         namespace: string, rms: seq<NamedResultMap>,
                                         srss: seq<ScannedResultSet>, i: nat, t: Tally)
    requires i <= |srss| && WellFormedMap(metricMap)
    ensures Keeps(t, SetsFrom(env, driver, metricMap, namespace, rms, srss, i, t))
    decreases |srss| - i
  {
    if i < |srss| && i < |rms| {
      if rms[i].ShouldSkip() {
        SetsFromKeeps(env, driver, metricMap, namespace, rms, srss, i + 1, t);
      } else {
        var name := MetricName(namespace, rms[i].name);
        var t1 := ResultSetTally(env, driver, metricMap, name, srss[i], t);
        RowsFromKeeps(env, driver, Lookup(metricMap, name), name, srss[i].colnames, srss[i].rows, 0, t);
        if !t1.crashed {
          SetsFromKeeps(env, driver, metricMap, namespace, rms, srss, i + 1, t1);
          KeepsTransitive(t, t1, SetsFrom(env, driver, metricMap, namespace, rms, srss, i + 1, t1));
        }
      }
    }
  }

  lemma RecipeStepKeeps(env: Env, driver: string, metricMap: map<string, MetricMapNamespace>,
                        recipe: Recipe, script: (nat, string) -> Answer, p: Progress)
    requires WellFormedMap(metricMap)
    ensures Keeps(p.tally, RecipeStep(env, driver, metricMap, recipe, script, p).tally)
  {
    var e := RunOutcome(env, recipe, script, p.log);
    if e.result.Ok? {
      SetsFromKeeps(env, driver, metricMap, recipe.GetNamespace(), recipe.GetResultMaps(), e.result.value, 0, p.tally);
    }
  }

  /**
   * Over a whole scrape with a well-formed descriptor map: nothing sent before
   * is lost, errors only accumulate, and every metric sent has one label value
   * per variable label of its descriptor (so MustNewConstMetric does not
   * panic), with untyped metrics carrying no labels at all.
   */
  lemma {:induction false} RecipesFromKeeps(env: Env, driver: string, metricMap: map<string, MetricMapNamespace>,
                                            recipes: seq<Recipe>, script: (nat, string) -> Answer, i: nat, p: Progress)
    requires i <= |recipes| && WellFormedMap(metricMap)
    ensures Keeps(p.tally, RecipesFrom(env, driver, metricMap, recipes, script, i, p).tally)
    decreases |recipes| - i
  {
    if i < |recipes| {
      var p1 := RecipeStep(env, driver, metricMap, recipes[i], script, p);
      RecipeStepKeeps(env, driver, metricMap, recipes[i], script, p);
      if !p1.tally.crashed {
        RecipesFromKeeps(env, driver, metricMap, recipes, script, i + 1, p1);
        KeepsTransitive(p.tally, p1.tally, RecipesFrom(env, driver, metricMap, recipes, script, i + 1, p1).tally);
      }
    }
  }

  /**
   * The held connection is closed at most once in a scrape, and only when a
   * recipe fails; once dropped it is not taken up again.
   */
  lemma {:induction false} RecipesFromCloseOnce(env: Env, driver: string, metricMap: map<string, MetricMapNamespace>,
                                                recipes: seq<Recipe>, script: (nat, string) -> Answer, i: nat, p: Progress)
    requires i <= |recipes|
    ensures var q := RecipesFrom(env, driver, metricMap, recipes, script, i, p);
            && (q.stored ==> p.stored && q.closes == p.closes)
            && p.closes <= q.closes <= p.closes + (if p.stored then 1 else 0)
    decreases |recipes| - i
  {
    if i < |recipes| {
      var p1 := RecipeStep(env, driver, metricMap, recipes[i], script, p);
      if !p1.tally.crashed {
        RecipesFromCloseOnce(env, driver, metricMap, recipes, script, i + 1, p1);
      }
    }
  }

  /**
   * A recipe that fails (other than by a panic) counts exactly one error, sends
   * nothing, drops and closes the held connection, and the scrape goes on with
   * the next recipe.
   */
  lemma RecipeFailureIsolated(env: Env, driver: string, metricMap: map<string, MetricMapNamespace>,
                              recipes: seq<Recipe>, script: (nat, string) -> Answer, i: nat, p: Progress)
    requires i < |recipes|
    requires var r := RunOutcome(env, recipes[i], script, p.log).result;
             r.Err? && !r.error.ResultSetOutOfRange?
    ensures var q := RecipeStep(env, driver, metricMap, recipes[i], script, p);
            && q.tally == Tally(p.tally.output, p.tally.errors + 1, p.tally.crashed)
            && !q.stored
            && q.closes == p.closes + (if p.stored then 1 else 0)
            && q.log == RunOutcome(env, recipes[i], script, p.log).sqls
            && (!p.tally.crashed ==> RecipesFrom(env, driver, metricMap, recipes, script, i, p) ==
                                     RecipesFrom(env, driver, metricMap, recipes, script, i + 1, q))
  {
  }

  /**
   * A recipe that runs returns one resultset per result map, so scrapeRecipe's
   * rms[i] is always in range and a successful recipe never panics there.
   */
  lemma RunMatchesResultMaps(env: Env, recipe: Recipe, script: (nat, string) -> Answer, log: seq<string>)
    ensures RunOutcome(env, recipe, script, log).result.Ok? ==>
              |RunOutcome(env, recipe, script, log).result.value| == |recipe.GetResultMaps()|
  {
    if recipe.Templated? {
      TemplatedOutcomeCount(env, recipe.rangequery, recipe.templates, |recipe.resultmaps|, script, log);
    }
  }

  /** A MAPPEDMETRIC column whose mapping is absent (as every compiled one is) never converts. */
  lemma MappedWithoutMappingFails(env: Env, ns: MetricMapNamespace, metricName: string, rm: ResultMap,
                                  c: string, v: RawValue)
    requires Describes(ns, metricName, rm)
    requires c in rm && rm[c].usage == MappedMetric && rm[c].mapping.None?
    ensures c in ns.columnMappings && !ns.columnMappings[c].discard
    ensures Convert(env, ns.columnMappings[c].conversion, v) == (NaN, false)
  {
  }

  /**
   * A column outside the namespace's mappings never counts an error: it is an
   * untyped metric without labels exactly when its cell reads as a number, and
   * panics when the row has no such cell.
   */
  lemma UnmappedColumnNoError(env: Env, driver: string, mapping: MetricMapNamespace, namespace: string,
                              colname: string, row: seq<RawValue>, j: nat, labels: seq<string>, t: Tally)
    requires ReplaceSpaces(colname) !in mapping.columnMappings
    ensures var t' := CellStep(env, driver, mapping, namespace, colname, row, j, labels, t);
            && t'.errors == t.errors
            && (j >= |row| ==> t' == t.(crashed := true))
            && (j < |row| ==> t'.crashed == t.crashed)
            && (j < |row| ==> (t'.output == t.output <==> !ToFloat64(env, row[j], None).1))
            && (j < |row| && t'.output != t.output ==>
                  t'.output == t.output + [Metric(UnknownDesc(driver, namespace, ReplaceSpaces(colname)),
                                                  UntypedValue, ToFloat64(env, row[j], None).0, [])])
  {
    var t' := CellStep(env, driver, mapping, namespace, colname, row, j, labels, t);
    if j < |row| && ToFloat64(env, row[j], None).1 {
      assert |t'.output| == |t.output| + 1;
    }
  }

  /** The value a configured metric column's cell converts to, by the column's usage. */
  function UsageValue(env: Env, cm: ColumnMapping, v: RawValue): (Float, bool)
  {
    match cm.usage
    case Counter => ToFloat64(env, v, cm.regexp)
    case Gauge => ToFloat64(env, v, cm.regexp)
    case MappedMetric =>
      if v.Str? && cm.mapping.Some? && v.str in cm.mapping.value then (cm.mapping.value[v.str], true)
      else (NaN, false)
    case Duration => ConvertDuration(env, v)
    case _ => (NaN, false)
  }

  /**
   * A cell of a column the result map configures, against the namespace built
   * from that map: a DISCARD or LABEL column changes nothing; a FIXED column has
   * no entry and is read as an unknown column; any other column panics on a row
   * too short for it, counts one error and sends nothing when its value does not
   * convert, and otherwise sends one metric, named metricName_column (DURATION
   * adding _milliseconds), a counter for COUNTER and a gauge otherwise, with the
   * column's help text, the namespace's labels and the map's fixed labels, and
   * the row's label values.
   */
  lemma DescribedCellStep(env: Env, driver: string, ns: MetricMapNamespace, metricName: string, rm: ResultMap,
                          namespace: string, colname: string, row: seq<RawValue>, j: nat,
                          labels: seq<string>, t: Tally)
    requires Describes(ns, metricName, rm)
    requires ReplaceSpaces(colname) in rm
    ensures var c := ReplaceSpaces(colname);
            var t' := CellStep(env, driver, ns, namespace, colname, row, j, labels, t);
            && (rm[c].usage == Discard || rm[c].usage == Label ==> t' == t)
            && (rm[c].usage == Fixed ==> c !in ns.columnMappings)
            && (rm[c].usage in {Counter, Gauge, MappedMetric, Duration} ==>
                  && (j >= |row| ==> t' == t.(crashed := true))
                  && (j < |row| && !UsageValue(env, rm[c], row[j]).1 ==> t' == t.(errors := t.errors + 1))
                  && (j < |row| && UsageValue(env, rm[c], row[j]).1 ==>
                        t' == t.(output := t.output + [Metric(
                          Desc(metricName + "_" + c + (if rm[c].usage == Duration then "_milliseconds" else ""),
                               rm[c].description, ns.labels, ConstLabels(rm)),
                          if rm[c].usage == Counter then CounterValue else GaugeValue,
                          UsageValue(env, rm[c], row[j]).0, labels)])))
  {
    var c := ReplaceSpaces(colname);
    if rm[c].usage != Fixed {
      assert ns.columnMappings[c] == Entry(metricName, c, rm[c], ns.labels, ConstLabels(rm));
      if rm[c].usage == Duration {
        assert metricName + "_" + c + "_milliseconds" == metricName + "_" + (c + "_milliseconds");
      } else {
        assert metricName + "_" + c + "" == metricName + "_" + c;
      }
    }
  }

  // ---------------------------------------------------------- the exporter

  /**
   * The Exporter: its configuration, the connection it holds between scrapes
   * (persistent mode only), its scrape and error counters, the metrics it has
   * sent, and whether a scrape panicked.
   */
  class Exporter {
    const env: Env
    const driver: string
    const dsn: string
    const persistent: bool
    const recipes: seq<Recipe>
    const metricMap: map<string, MetricMapNamespace>
    var conn: ScriptedConn?
    var totalScrapes: nat
    var errorsTotal: nat
    var output: seq<Metric>
    var crashed: bool

    /** NewExporter: the descriptor maps are built once, from the recipes. */
    constructor (env: Env, driver: string, dsn: string, recipes: seq<Recipe>, persistent: bool)
      ensures this.env == env && this.driver == driver && this.dsn == dsn
      ensures this.recipes == recipes && this.persistent == persistent
      ensures DescMapsFor(metricMap, Targets(recipes)) && WellFormedMap(metricMap)
      ensures conn == null && totalScrapes == 0 && errorsTotal == 0 && output == [] && !crashed
    {
      var m := MakeDescMaps(recipes);
      DescMapsWellFormed(m, Targets(recipes));
      this.env := env;
      this.driver := driver;
      this.dsn := dsn;
      this.recipes := recipes;
      this.persistent := persistent;
      this.metricMap := m;
      conn := null;
      totalScrapes := 0;
      errorsTotal := 0;
      output := [];
      crashed := false;
    }

    /** The tally of the exporter's fields. */
    function Now(): Tally
      reads this
    {
      Tally(output, errorsTotal, crashed)
    }

    /** The progress of a scrape on connection c. */
    function Snapshot(c: ScriptedConn): Progress
      reads this, c
    {
      Progress(Now(), c.sqls, conn != null, c.closes)
    }

    /** The label values of one row (the labels loop of scrapeResultSet). */
    method RowLabels(labelNames: seq<string>, columnIdx: map<string, nat>, colnames: seq<string>,
                     row: seq<RawValue>) returns (r: Option<seq<string>>)
      requires columnIdx == IndexMap(colnames)
      ensures r == LabelValues(env, labelNames, colnames, row)
    {
      var labels := new string[|labelNames|];
      for idx := 0 to |labelNames|
        invariant forall k :: 0 <= k < idx ==> ColumnIndex(colnames, labelNames[k]) < |row|
        invariant forall k :: 0 <= k < idx ==> labels[k] == ToString(env, row[ColumnIndex(colnames, labelNames[k])]).0
      {
        var i := if labelNames[idx] in columnIdx then columnIdx[labelNames[idx]] else 0;
        assert i == ColumnIndex(colnames, labelNames[idx]);
        if i >= |row| {
          return None;
        }
        labels[idx] := ToString(env, row[i]).0;
      }
      assert labels[..] == seq(|labelNames|, k requires 0 <= k < |labelNames| =>
                                 ToString(env, row[ColumnIndex(colnames, labelNames[k])]).0);
      r := Some(labels[..]);
    }

    /** The column loop of scrapeResultSet for one row. */
    method EmitRow(mapping: MetricMapNamespace, namespace: string, colnames: seq<string>,
                   row: seq<RawValue>, labels: seq<string>)
      requires !crashed
      modifies this`output, this`errorsTotal, this`crashed
      ensures Now() == CellsFrom(env, driver, mapping, namespace, colnames, row, labels, 0, old(Now()))
    {
      for idx := 0 to |colnames|
        invariant !crashed
        invariant CellsFrom(env, driver, mapping, namespace, colnames, row, labels, 0, old(Now())) ==
                  CellsFrom(env, driver, mapping, namespace, colnames, row, labels, idx, Now())
      {
        var columnName := ReplaceSpaces(colnames[idx]);
        if columnName in mapping.columnMappings {
          var metricMapping := mapping.columnMappings[columnName];
          if metricMapping.discard {
            continue;
          }
          if idx >= |row| {
            crashed := true;
            return;
          }
          var value := Convert(env, metricMapping.conversion, row[idx]);
          if !value.1 {
            errorsTotal := errorsTotal + 1;
            continue;
          }
          output := output + [Metric(metricMapping.desc, metricMapping.vtype, value.0, labels)];
        } else {
          if idx >= |row| {
            crashed := true;
            return;
          }
          var value := ToFloat64(env, row[idx], None);
          if !value.1 {
            continue;
          }
          output := output + [Metric(UnknownDesc(driver, namespace, columnName), UntypedValue, value.0, [])];
        }
      }
    }

    /** scrapeResultSet: every row of srs against the namespace filed under `namespace`. */
    method ScrapeResultSet(namespace: string, srs: ScannedResultSet)
      requires !crashed
      modifies this`output, this`errorsTotal, this`crashed
      ensures Now() == ResultSetTally(env, driver, metricMap, namespace, srs, old(Now()))
    {
      var columnIdx: map<string, nat> := map[];
      for i := 0 to |srs.colnames|
        invariant columnIdx == IndexMap(srs.colnames[..i])
      {
        assert srs.colnames[..i + 1][..i] == srs.colnames[..i];
        columnIdx := columnIdx[srs.colnames[i] := i];
      }
      assert srs.colnames[..|srs.colnames|] == srs.colnames;
      var mapping := if namespace in metricMap then metricMap[namespace] else EmptyNamespace;
      for r := 0 to |srs.rows|
        invariant !crashed
        invariant ResultSetTally(env, driver, metricMap, namespace, srs, old(Now())) ==
                  RowsFrom(env, driver, mapping, namespace, srs.colnames, srs.rows, r, Now())
      {
        var labels := RowLabels(mapping.labels, columnIdx, srs.colnames, srs.rows[r]);
        if labels.None? {
          crashed := true;
          return;
        }
        EmitRow(mapping, namespace, srs.colnames, srs.rows[r], labels.value);
        if crashed {
          return;
        }
      }
    }

    /** scrapeRecipe's loop: each resultset against the result map at its position. */
    method ScrapeResultSets(namespace: string, rms: seq<NamedResultMap>, srss: seq<ScannedResultSet>)
      requires !crashed
      modifies this`output, this`errorsTotal, this`crashed
      ensures Now() == SetsFrom(env, driver, metricMap, namespace, rms, srss, 0, old(Now()))
    {
      for i := 0 to |srss|
        invariant !crashed
        invariant SetsFrom(env, driver, metricMap, namespace, rms, srss, 0, old(Now())) ==
                  SetsFrom(env, driver, metricMap, namespace, rms, srss, i, Now())
      {
        if i >= |rms| {
          crashed := true;
          return;
        }
        var rm := rms[i];
        if rm.ShouldSkip() {
          continue;
        }
        var ns := namespace;
        if rm.name != "metrics" {
          ns := ns + "_" + rm.name;
        }
        ScrapeResultSet(ns, srss[i]);
        if crashed {
          return;
        }
      }
    }

    /** scrapeRecipe: run the recipe on c and scrape its resultsets. */
    method ScrapeRecipe(c: ScriptedConn, recipe: Recipe)
      requires !crashed
      requires conn == null || conn == c
      modifies this`output, this`errorsTotal, this`crashed, this`conn, c
      ensures Snapshot(c) == RecipeStep(env, driver, metricMap, recipe, c.script, old(Snapshot(c)))
      ensures conn == null || conn == c
    {
      var namespace := recipe.GetNamespace();
      var srss := Run(env, recipe, c);
      if srss.Err? {
        if srss.error.ResultSetOutOfRange? {
          crashed := true;
          return;
        }
        errorsTotal := errorsTotal + 1;
        if conn != null {
          conn.Close();
        }
        conn := null;
        return;
      }
      ScrapeResultSets(namespace, recipe.GetResultMaps(), srss.value);
    }

    /** scrape's loop: every recipe, in order, on connection c, until one panics. */
    method ScrapeRecipes(c: ScriptedConn)
      requires !crashed
      requires conn == null || conn == c
      modifies this`output, this`errorsTotal, this`crashed, this`conn, c
      ensures Snapshot(c) == RecipesFrom(env, driver, metricMap, recipes, c.script, 0, old(Snapshot(c)))
      ensures conn == null || conn == c
      ensures WellFormedMap(metricMap) ==> Keeps(old(Now()), Now())
    {
      var i := 0;
      while i < |recipes| && !crashed
        invariant 0 <= i <= |recipes|
        invariant conn == null || conn == c
        invariant crashed ==> RecipesFrom(env, driver, metricMap, recipes, c.script, 0, old(Snapshot(c))) == Snapshot(c)
        invariant !crashed ==> RecipesFrom(env, driver, metricMap, recipes, c.script, 0, old(Snapshot(c))) ==
                               RecipesFrom(env, driver, metricMap, recipes, c.script, i, Snapshot(c))
      {
        ScrapeRecipe(c, recipes[i]);
        i := i + 1;
      }
      if WellFormedMap(metricMap) {
        RecipesFromKeeps(env, driver, metricMap, recipes, c.script, 0, old(Snapshot(c)));
      }
    }

    /**
     * scrape: count the scrape; without a held connection use the one opening
     * gives (`dialed`, null when opening fails, which counts an error), holding
     * it in persistent mode and closing it at the end otherwise; then run every
     * recipe, in order, on that one connection.
     */
    method Scrape(dialed: ScriptedConn?)
      requires !crashed
      modifies {this, conn, dialed}
      ensures totalScrapes == old(totalScrapes) + 1
      ensures old(conn) == null && dialed == null ==>
                Now() == old(Now()).(errors := old(errorsTotal) + 1) && conn == null
      ensures old(conn) != null || dialed != null ==>
                var c := if old(conn) != null then old(conn) else dialed;
                var p := RecipesFrom(env, driver, metricMap, recipes, c.script, 0,
                                     Progress(old(Now()), old(c.sqls), old(conn) != null || persistent, old(c.closes)));
                && Now() == p.tally
                && c.sqls == p.log
                && c.closes == p.closes + (if old(conn) == null && !persistent then 1 else 0)
                && conn == (if p.stored then c else null)
      ensures WellFormedMap(metricMap) ==> Keeps(old(Now()), Now())
    {
      totalScrapes := totalScrapes + 1;
      var c := conn;
      var dialedHere := false;
      if c == null {
        if dialed == null {
          errorsTotal := errorsTotal + 1;
          return;
        }
        c := dialed;
        if persistent {
          conn := c;
        } else {
          dialedHere := true;
        }
      }
      ScrapeRecipes(c);
      if dialedHere {
        c.Close();
      }
    }
  }
}
