/**
 * The configuration compiler (config/recipes.go): turns an already-decoded
 * YAML document into typed recipes. Each Go function is a method with the
 * Go function's loops, proved equal to a specification function that processes
 * the same entries in the same order; the lemmas state what the
 * specification functions promise.
 *
 * A YAML mapping is the sequence of its entries in iteration order. Go
 * iterates its maps in an unspecified order, so where the first error found
 * depends on that order, the model's error is the first in sequence order.
 */
module Config {
  import opened Wrappers
  import opened Foreign
  import opened Strings
  import opened Common
  import opened Recipes

  /** A decoded YAML value: null, a string, another scalar (number, boolean), a list or a mapping. */
  datatype Yaml =
    | Null
    | Str(s: string)
    | Scalar(text: string)
    | List(items: seq<Yaml>)
    | Map(entries: seq<(Yaml, Yaml)>)

  /** Why one metric entry is invalid (getMetric). */
  datatype MetricError =
    | NotAMap
    | NotSingleEntry(count: nat)
    | NameNotString
    | AttrsNotAMap
    | AttrKeyNotString
    | AttrValueNotString(key: string)
    | BadUsage(message: string)
    | UnknownAttr(key: string)
    | NoUsage
    | NoDescription
    | NoFixedValue

  /** Why a recipe, or a part of one, does not compile. Positions are as the Go messages print them. */
  datatype ConfigError =
    | RecipeNotAMap
    | KeyNotString
    | RangeoverNotString
    | QueryNotString
    | QueriesNotList
    | QueryItemNotString(position: nat)      // 1-based
    | UnknownRecipeKey(key: string)
    | NoResultMaps
    | BothResultMaps
    | TemplateParseFailed(index: nat)        // 0-based
    | MetricsNotList
    | MetricInvalid(position: nat, problem: MetricError)  // 1-based
    | ResultsetsNotList
    | ResultsetNotAMap(index: nat)           // 0-based, like the other resultset errors
    | ResultsetNotSingle(index: nat)
    | ResultsetKeyNotString(index: nat)
    | DiscardWithMetrics(index: nat)
    | ResultsetInvalid(index: nat, name: string, cause: ConfigError)
    | InRecipe(name: string, cause: ConfigError)

  /**
   * The value of the last entry at index i or later whose key is the string key
   * (the value Go's map holds for that key when the keys are distinct).
   */
  function LastFrom(entries: seq<(Yaml, Yaml)>, i: nat, key: string): Option<Yaml>
    requires i <= |entries|
    decreases |entries| - i
  {
    if i == |entries| then None
    else match LastFrom(entries, i + 1, key)
      case Some(v) => Some(v)
      case None => if entries[i].0 == Str(key) then Some(entries[i].1) else None
  }

  // ================================================================ getMetric

  /** The fields of common.ColumnMapping that getMetric sets; usage None is the zero value "unset". */
  datatype Attrs = Attrs(usage: Option<ColumnUsage>, description: string, regexp: Option<Regexp>, fixedval: string)

  const NoAttrs := Attrs(None, "", None, "")

  /** One attribute applied to the mapping under construction. */
  function ApplyAttr(a: Attrs, key: string, val: string): Result<Attrs, MetricError>
  {
    if key == "usage" then
      match StringToColumnUsage(val)
      case Ok(u) => Ok(a.(usage := Some(u)))
      case Err(m) => Err(BadUsage(m))
    else if key == "description" then Ok(a.(description := val))
    else if key == "regexp" then Ok(a.(regexp := Some(Regexp(val))))
    else if key == "value" then Ok(a.(fixedval := val))
    else Err(UnknownAttr(key))
  }

  /** The attribute loop of getMetric from entry i on. */
  function ScanAttrs(attrs: seq<(Yaml, Yaml)>, i: nat, a: Attrs): Result<Attrs, MetricError>
    requires i <= |attrs|
    decreases |attrs| - i
  {
    if i == |attrs| then Ok(a)
    else if !attrs[i].0.Str? then Err(AttrKeyNotString)
    else if !attrs[i].1.Str? then Err(AttrValueNotString(attrs[i].0.s))
    else match ApplyAttr(a, attrs[i].0.s, attrs[i].1.s)
      case Err(e) => Err(e)
      case Ok(a') => ScanAttrs(attrs, i + 1, a')
  }

  /** The checks after the attribute loop; the mapping itself is always left unset. */
  function FinishAttrs(a: Attrs): Result<ColumnMapping, MetricError>
  {
    match a.usage
    case None => Err(NoUsage)
    case Some(u) =>
      if u != Discard && u != Label && |a.description| == 0 then Err(NoDescription)
      else if u == Fixed && |a.fixedval| == 0 then Err(NoFixedValue)
      else Ok(ColumnMapping(u, a.description, None, a.regexp, a.fixedval))
  }

  /** getMetric: a metric entry is a single-entry map from its name to its attributes. */
  function CompileMetric(y: Yaml): Result<(string, ColumnMapping), MetricError>
  {
    if !y.Map? then Err(NotAMap)
    else if |y.entries| != 1 then Err(NotSingleEntry(|y.entries|))
    else if !y.entries[0].0.Str? then Err(NameNotString)
    else if !y.entries[0].1.Map? then Err(AttrsNotAMap)
    else match ScanAttrs(y.entries[0].1.entries, 0, NoAttrs)
      case Err(e) => Err(e)
      case Ok(a) =>
        match FinishAttrs(a)
        case Err(e) => Err(e)
        case Ok(cm) => Ok((ReplaceSpaces(y.entries[0].0.s), cm))
  }

  method GetMetric(imetric: Yaml) returns (r: Result<(string, ColumnMapping), MetricError>)
    ensures r == CompileMetric(imetric)
  {
    if !imetric.Map? {
      return Err(NotAMap);
    }
    var column := imetric.entries;
    if |column| != 1 {
      return Err(NotSingleEntry(|column|));
    }
    var n := column[0].0;
    var a := column[0].1;
    if !n.Str? {
      return Err(NameNotString);
    }
    var name := ReplaceSpaces(n.s);
    if !a.Map? {
      return Err(AttrsNotAMap);
    }
    var attrs := a.entries;
    var usage: Option<ColumnUsage> := None;
    var description := "";
    var regexp: Option<Regexp> := None;
    var fixedval := "";
    var i := 0;
    while i < |attrs|
      invariant 0 <= i <= |attrs|
      invariant ScanAttrs(attrs, 0, NoAttrs) == ScanAttrs(attrs, i, Attrs(usage, description, regexp, fixedval))
      decreases |attrs| - i
    {
      var attrKey := attrs[i].0;
      var attrVal := attrs[i].1;
      if !attrKey.Str? {
        return Err(AttrKeyNotString);
      }
      if !attrVal.Str? {
        return Err(AttrValueNotString(attrKey.s));
      }
      var key := attrKey.s;
      if key == "usage" {
        var u := StringToColumnUsage(attrVal.s);
        if u.Err? {
          return Err(BadUsage(u.error));
        }
        usage := Some(u.value);
      } else if key == "description" {
        description := attrVal.s;
      } else if key == "regexp" {
        regexp := Some(Regexp(attrVal.s));
      } else if key == "value" {
        fixedval := attrVal.s;
      } else {
        return Err(UnknownAttr(key));
      }
      i := i + 1;
    }
    if usage.None? {
      return Err(NoUsage);
    }
    if usage.value != Discard && usage.value != Label && |description| == 0 {
      return Err(NoDescription);
    }
    if usage.value == Fixed && |fixedval| == 0 {
      return Err(NoFixedValue);
    }
    r := Ok((name, ColumnMapping(usage.value, description, None, regexp, fixedval)));
  }

  /** An attribute entry getMetric accepts: string key among the four, string value, a valid usage. */
  predicate AttrOk(e: (Yaml, Yaml))
  {
    && e.0.Str? && e.1.Str?
    && e.0.s in {"usage", "description", "regexp", "value"}
    && (e.0.s == "usage" ==> StringToColumnUsage(e.1.s).Ok?)
  }

  /** The string behind an optional YAML string value, or d. */
  function StrOr(v: Option<Yaml>, d: string): string
  {
    if v.Some? && v.value.Str? then v.value.s else d
  }

  /** The usage an optional YAML string value names, or d when it names none. */
  function UsageOr(v: Option<Yaml>, d: Option<ColumnUsage>): Option<ColumnUsage>
  {
    if v.Some? && v.value.Str? && StringToColumnUsage(v.value.s).Ok? then Some(StringToColumnUsage(v.value.s).value)
    else d
  }

  /** The regular expression an optional YAML string value gives, or d. */
  function RegexpOr(v: Option<Yaml>, d: Option<Regexp>): Option<Regexp>
  {
    if v.Some? && v.value.Str? then Some(Regexp(v.value.s)) else d
  }

  /**
   * The attribute loop succeeds exactly when every attribute is acceptable,
   * and then each field holds the value of the last attribute naming it.
   */
  lemma {:induction false} ScanAttrsMeaning(attrs: seq<(Yaml, Yaml)>, i: nat, a: Attrs)
    requires i <= |attrs|
    ensures ScanAttrs(attrs, i, a).Ok? <==> forall k :: i <= k < |attrs| ==> AttrOk(attrs[k])
    ensures ScanAttrs(attrs, i, a).Ok? ==>
              ScanAttrs(attrs, i, a).value ==
              Attrs(UsageOr(LastFrom(attrs, i, "usage"), a.usage),
                    StrOr(LastFrom(attrs, i, "description"), a.description),
                    RegexpOr(LastFrom(attrs, i, "regexp"), a.regexp),
                    StrOr(LastFrom(attrs, i, "value"), a.fixedval))
    decreases |attrs| - i
  {
    if i < |attrs| && AttrOk(attrs[i]) {
      var key := attrs[i].0.s;
      var a' := ApplyAttr(a, key, attrs[i].1.s).value;
      ScanAttrsMeaning(attrs, i + 1, a');
      assert "usage" != "description" && "usage" != "regexp" && "usage" != "value";
      assert "description" != "regexp" && "description" != "value" && "regexp" != "value";
      assert ScanAttrs(attrs, i, a) == ScanAttrs(attrs, i + 1, a');
      if ScanAttrs(attrs, i + 1, a').Ok? {
        LastFromAttrOk(attrs, i + 1, "usage");
        LastFromAttrOk(attrs, i + 1, "description");
        LastFromAttrOk(attrs, i + 1, "regexp");
        LastFromAttrOk(attrs, i + 1, "value");
        assert UsageOr(LastFrom(attrs, i + 1, "usage"), a'.usage) == UsageOr(LastFrom(attrs, i, "usage"), a.usage);
        assert StrOr(LastFrom(attrs, i + 1, "description"), a'.description) ==
               StrOr(LastFrom(attrs, i, "description"), a.description);
        assert RegexpOr(LastFrom(attrs, i + 1, "regexp"), a'.regexp) == RegexpOr(LastFrom(attrs, i, "regexp"), a.regexp);
        assert StrOr(LastFrom(attrs, i + 1, "value"), a'.fixedval) == StrOr(LastFrom(attrs, i, "value"), a.fixedval);
      }
    }
  }

  /** A value LastFrom finds among acceptable attributes is a string, and a valid usage under "usage". */
  lemma {:induction false} LastFromAttrOk(attrs: seq<(Yaml, Yaml)>, i: nat, key: string)
    requires i <= |attrs|
    requires forall k :: i <= k < |attrs| ==> AttrOk(attrs[k])
    ensures LastFrom(attrs, i, key).Some? ==> LastFrom(attrs, i, key).value.Str?
    ensures LastFrom(attrs, i, key).Some? && key == "usage" ==> StringToColumnUsage(LastFrom(attrs, i, key).value.s).Ok?
    decreases |attrs| - i
  {
    if i < |attrs| {
      LastFromAttrOk(attrs, i + 1, key);
    }
  }

  /** What getMetric accepts, stated through the last value of each attribute. */
  ghost predicate MetricSpecOk(y: Yaml)
  {
    && y.Map? && |y.entries| == 1 && y.entries[0].0.Str? && y.entries[0].1.Map?
    && var attrs := y.entries[0].1.entries;
       && (forall k :: 0 <= k < |attrs| ==> AttrOk(attrs[k]))
       && var usage := UsageOr(LastFrom(attrs, 0, "usage"), None);
          && usage.Some?
          && (usage.value != Discard && usage.value != Label ==> StrOr(LastFrom(attrs, 0, "description"), "") != "")
          && (usage.value == Fixed ==> StrOr(LastFrom(attrs, 0, "value"), "") != "")
  }

  /**
   * getMetric succeeds exactly on a single-entry map from a string name to
   * acceptable attributes with a usage, a description unless the usage is
   * DISCARD or LABEL, and a value if it is FIXED; the column name has its
   * spaces replaced, each field is the last value given for it, and the
   * mapping is never set.
   */
  lemma CompileMetricMeaning(y: Yaml)
    ensures CompileMetric(y).Ok? <==> MetricSpecOk(y)
    ensures CompileMetric(y).Ok? ==>
              var attrs := y.entries[0].1.entries;
              CompileMetric(y).value ==
              (ReplaceSpaces(y.entries[0].0.s),
               ColumnMapping(UsageOr(LastFrom(attrs, 0, "usage"), None).value,
                             StrOr(LastFrom(attrs, 0, "description"), ""), None,
                             RegexpOr(LastFrom(attrs, 0, "regexp"), None),
                             StrOr(LastFrom(attrs, 0, "value"), "")))
  {
    if y.Map? && |y.entries| == 1 && y.entries[0].0.Str? && y.entries[0].1.Map? {
      ScanAttrsMeaning(y.entries[0].1.entries, 0, NoAttrs);
    }
  }

  /** A compiled metric is a valid column mapping under a name without spaces. */
  lemma CompiledMetricValid(y: Yaml)
    requires CompileMetric(y).Ok?
    ensures var (name, cm) := CompileMetric(y).value;
            && ' ' !in name
            && cm.mapping.None?
            && (cm.usage != Discard && cm.usage != Label ==> |cm.description| > 0)
            && (cm.usage == Fixed ==> |cm.fixedval| > 0)
  {
  }

  // =============================================================== getMetrics

  /** The name a metric entry compiles to ("" if it does not compile). */
  function MetricName(y: Yaml): string
  {
    if CompileMetric(y).Ok? then CompileMetric(y).value.0 else ""
  }

  /** The loop of getMetrics from item i on, with m the metrics so far. */
  function MetricsFrom(items: seq<Yaml>, i: nat, m: ResultMap): Result<ResultMap, ConfigError>
    requires i <= |items|
    decreases |items| - i
  {
    if i == |items| then Ok(m)
    else match CompileMetric(items[i])
      case Err(e) => Err(MetricInvalid(i + 1, e))
      case Ok(nc) => MetricsFrom(items, i + 1, m[nc.0 := nc.1])
  }

  /** getMetrics: a list of metric entries, compiled into one result map. */
  function CompileMetrics(y: Yaml): Result<ResultMap, ConfigError>
  {
    if !y.List? then Err(MetricsNotList) else MetricsFrom(y.items, 0, map[])
  }

  method GetMetrics(value: Yaml) returns (r: Result<ResultMap, ConfigError>)
    ensures r == CompileMetrics(value)
  {
    if !value.List? {
      return Err(MetricsNotList);
    }
    var imetrics := value.items;
    var metricMap: ResultMap := map[];
    var i := 0;
    while i < |imetrics|
      invariant 0 <= i <= |imetrics|
      invariant CompileMetrics(value) == MetricsFrom(imetrics, i, metricMap)
      decreases |imetrics| - i
    {
      var c := GetMetric(imetrics[i]);
      if c.Err? {
        return Err(MetricInvalid(i + 1, c.error));
      }
      metricMap := metricMap[c.value.0 := c.value.1];
      i := i + 1;
    }
    r := Ok(metricMap);
  }

  /** No item after k compiles to the same name as item k. */
  ghost predicate LastWithName(items: seq<Yaml>, k: nat)
    requires k < |items|
  {
    forall j :: k < j < |items| ==> MetricName(items[j]) != MetricName(items[k])
  }

  /**
   * getMetrics succeeds exactly when every item compiles; otherwise it reports
   * the first failing item by its 1-based position.
   */
  lemma {:induction false} MetricsFromOutcome(items: seq<Yaml>, i: nat, m: ResultMap)
    requires i <= |items|
    ensures var r := MetricsFrom(items, i, m);
            && (r.Ok? <==> forall k :: i <= k < |items| ==> CompileMetric(items[k]).Ok?)
            && (r.Err? ==> exists f :: && i <= f < |items| && CompileMetric(items[f]).Err?
                                       && (forall k :: i <= k < f ==> CompileMetric(items[k]).Ok?)
                                       && r.error == MetricInvalid(f + 1, CompileMetric(items[f]).error))
    decreases |items| - i
  {
    if i < |items| && CompileMetric(items[i]).Ok? {
      var nc := CompileMetric(items[i]).value;
      var m' := m[nc.0 := nc.1];
      assert MetricsFrom(items, i, m) == MetricsFrom(items, i + 1, m');
      MetricsFromOutcome(items, i + 1, m');
      var r := MetricsFrom(items, i + 1, m');
      if r.Err? {
        var f :| && i + 1 <= f < |items| && CompileMetric(items[f]).Err?
                 && (forall k :: i + 1 <= k < f ==> CompileMetric(items[k]).Ok?)
                 && r.error == MetricInvalid(f + 1, CompileMetric(items[f]).error);
        assert forall k :: i <= k < f ==> CompileMetric(items[k]).Ok?;
      }
    }
  }

  /** On success the names are those already present and exactly the compiled names. */
  lemma {:induction false} MetricsFromNames(items: seq<Yaml>, i: nat, m: ResultMap)
    requires i <= |items|
    ensures var r := MetricsFrom(items, i, m);
            r.Ok? ==> forall n :: n in r.value <==> n in m || exists k :: i <= k < |items| && MetricName(items[k]) == n
    decreases |items| - i
  {
    if i < |items| && CompileMetric(items[i]).Ok? {
      var nc := CompileMetric(items[i]).value;
      var m' := m[nc.0 := nc.1];
      MetricsFromNames(items, i + 1, m');
      var r := MetricsFrom(items, i, m);
      if r.Ok? {
        assert r == MetricsFrom(items, i + 1, m');
        forall n ensures n in r.value <==> n in m || exists k :: i <= k < |items| && MetricName(items[k]) == n {
          if n == nc.0 {
            assert MetricName(items[i]) == n;
          }
          if exists k :: i <= k < |items| && MetricName(items[k]) == n {
            var k :| i <= k < |items| && MetricName(items[k]) == n;
            if k > i {
              assert i + 1 <= k < |items| && MetricName(items[k]) == n;
            }
          }
        }
      }
    }
  }

  /** The mapping a metric item compiles to, for items that compile. */
  function MetricMapping(y: Yaml): ColumnMapping
    requires CompileMetric(y).Ok?
  {
    CompileMetric(y).value.1
  }

  /** When every item compiles, a name no item compiles to keeps its earlier mapping. */
  lemma {:induction false} MetricsFromKeeps(items: seq<Yaml>, i: nat, m: ResultMap, n: string)
    requires i <= |items|
    requires forall k :: i <= k < |items| ==> CompileMetric(items[k]).Ok?
    requires n in m && forall k :: i <= k < |items| ==> MetricName(items[k]) != n
    ensures MetricsFrom(items, i, m).Ok?
    ensures n in MetricsFrom(items, i, m).value && MetricsFrom(items, i, m).value[n] == m[n]
    decreases |items| - i
  {
    if i < |items| {
      var nc := CompileMetric(items[i]).value;
      assert MetricName(items[i]) == nc.0;
      MetricsFromKeeps(items, i + 1, m[nc.0 := nc.1], n);
    }
  }

  /**
   * When every item compiles, each compiled name holds the mapping of the
   * last item with that name.
   */
  lemma {:induction false} MetricsFromLastWins(items: seq<Yaml>, i: nat, m: ResultMap)
    requires i <= |items|
    requires forall k :: i <= k < |items| ==> CompileMetric(items[k]).Ok?
    ensures MetricsFrom(items, i, m).Ok?
    ensures forall k :: i <= k < |items| && LastWithName(items, k) ==>
              MetricName(items[k]) in MetricsFrom(items, i, m).value &&
              MetricsFrom(items, i, m).value[MetricName(items[k])] == MetricMapping(items[k])
    decreases |items| - i
  {
    if i < |items| {
      var nc := CompileMetric(items[i]).value;
      var m' := m[nc.0 := nc.1];
      MetricsFromLastWins(items, i + 1, m');
      var r := MetricsFrom(items, i + 1, m');
      assert MetricsFrom(items, i, m) == r;
      assert MetricName(items[i]) == nc.0;
      if LastWithName(items, i) {
        MetricsFromKeeps(items, i + 1, m', nc.0);
      }
    }
  }

  // ============================================================ getResultSets

  /** One entry of a resultsets list, at 0-based index i. */
  function CompileResultSet(i: nat, y: Yaml): Result<NamedResultMap, ConfigError>
  {
    if !y.Map? then Err(ResultsetNotAMap(i))
    else if |y.entries| != 1 then Err(ResultsetNotSingle(i))
    else if !y.entries[0].0.Str? then Err(ResultsetKeyNotString(i))
    else
      var rname := y.entries[0].0.s;
      if rname == "discard" then
        if y.entries[0].1 != Null then Err(DiscardWithMetrics(i))
        else Ok(NamedResultMap(map[], "discard"))
      else match CompileMetrics(y.entries[0].1)
        case Err(e) => Err(ResultsetInvalid(i, rname, e))
        case Ok(rm) => Ok(NamedResultMap(rm, rname))
  }

  /** The loop of getResultSets from item i on, with acc the result maps so far. */
  function ResultSetsFrom(items: seq<Yaml>, i: nat, acc: seq<NamedResultMap>): Result<seq<NamedResultMap>, ConfigError>
    requires i <= |items|
    decreases |items| - i
  {
    if i == |items| then Ok(acc)
    else match CompileResultSet(i, items[i])
      case Err(e) => Err(e)
      case Ok(nrm) => ResultSetsFrom(items, i + 1, acc + [nrm])
  }

  /** getResultSets: a list of single-entry maps from resultset name to metrics. */
  function CompileResultSets(y: Yaml): Result<seq<NamedResultMap>, ConfigError>
  {
    if !y.List? then Err(ResultsetsNotList) else ResultSetsFrom(y.items, 0, [])
  }

  method GetResultSets(ivalue: Yaml) returns (r: Result<seq<NamedResultMap>, ConfigError>)
    ensures r == CompileResultSets(ivalue)
  {
    if !ivalue.List? {
      return Err(ResultsetsNotList);
    }
    var rss := ivalue.items;
    var resultmaps: seq<NamedResultMap> := [];
    var i := 0;
    while i < |rss|
      invariant 0 <= i <= |rss|
      invariant CompileResultSets(ivalue) == ResultSetsFrom(rss, i, resultmaps)
      decreases |rss| - i
    {
      var rs := rss[i];
      if !rs.Map? {
        return Err(ResultsetNotAMap(i));
      }
      if |rs.entries| != 1 {
        return Err(ResultsetNotSingle(i));
      }
      var irname := rs.entries[0].0;
      var irvalue := rs.entries[0].1;
      if !irname.Str? {
        return Err(ResultsetKeyNotString(i));
      }
      var rname := irname.s;
      if rname == "discard" {
        if irvalue != Null {
          return Err(DiscardWithMetrics(i));
        }
        resultmaps := resultmaps + [NamedResultMap(map[], "discard")];
      } else {
        var rm := GetMetrics(irvalue);
        if rm.Err? {
          return Err(ResultsetInvalid(i, rname, rm.error));
        }
        resultmaps := resultmaps + [NamedResultMap(rm.value, rname)];
      }
      i := i + 1;
    }
    r := Ok(resultmaps);
  }

  /**
   * getResultSets succeeds exactly when every entry compiles, and otherwise
   * reports the first failing entry.
   */
  lemma {:induction false} ResultSetsFromOutcome(items: seq<Yaml>, i: nat, acc: seq<NamedResultMap>)
    requires i <= |items|
    ensures var r := ResultSetsFrom(items, i, acc);
            && (r.Ok? <==> forall k :: i <= k < |items| ==> CompileResultSet(k, items[k]).Ok?)
            && (r.Err? ==> exists f :: && i <= f < |items| && CompileResultSet(f, items[f]).Err?
                                       && (forall k :: i <= k < f ==> CompileResultSet(k, items[k]).Ok?)
                                       && r.error == CompileResultSet(f, items[f]).error)
    decreases |items| - i
  {
    if i < |items| {
      var first := CompileResultSet(i, items[i]);
      if first.Ok? {
        var acc' := acc + [first.value];
        assert ResultSetsFrom(items, i, acc) == ResultSetsFrom(items, i + 1, acc');
        ResultSetsFromOutcome(items, i + 1, acc');
        var r := ResultSetsFrom(items, i + 1, acc');
        if r.Err? {
          var f :| && i + 1 <= f < |items| && CompileResultSet(f, items[f]).Err?
                   && (forall k :: i + 1 <= k < f ==> CompileResultSet(k, items[k]).Ok?)
                   && r.error == CompileResultSet(f, items[f]).error;
          assert forall k :: i <= k < f ==> CompileResultSet(k, items[k]).Ok?;
        }
      } else {
        assert ResultSetsFrom(items, i, acc) == Err(first.error);
      }
    }
  }

  /** When every entry compiles, getResultSets keeps the list order: one result map per entry. */
  lemma {:induction false} ResultSetsFromOrder(items: seq<Yaml>, i: nat, acc: seq<NamedResultMap>)
    requires i <= |items|
    requires forall k :: i <= k < |items| ==> CompileResultSet(k, items[k]).Ok?
    ensures ResultSetsFrom(items, i, acc).Ok?
    ensures var r := ResultSetsFrom(items, i, acc).value;
            && |r| == |acc| + |items| - i
            && r[..|acc|] == acc
            && forall k :: i <= k < |items| ==> r[|acc| + k - i] == CompileResultSet(k, items[k]).value
    decreases |items| - i
  {
    if i < |items| {
      var acc' := acc + [CompileResultSet(i, items[i]).value];
      ResultSetsFromOrder(items, i + 1, acc');
      var r := ResultSetsFrom(items, i, acc).value;
      assert r[..|acc'|][..|acc|] == r[..|acc|];
      assert r[|acc|] == r[..|acc'|][|acc|];
    }
  }

  /**
   * The reserved name "discard" takes a null value and no metrics, and its
   * result map is empty, so that resultset is always skipped.
   */
  lemma DiscardResultSet(i: nat, value: Yaml)
    ensures var r := CompileResultSet(i, Map([(Str("discard"), value)]));
            && (r.Ok? <==> value == Null)
            && (r.Err? ==> r.error == DiscardWithMetrics(i))
            && (r.Ok? ==> r.value.name == "discard" && r.value.ShouldSkip())
  {
  }

  /** Any other name is compiled by getMetrics, and the resultset keeps that name. */
  lemma NamedResultSet(i: nat, name: string, value: Yaml)
    requires name != "discard"
    ensures var r := CompileResultSet(i, Map([(Str(name), value)]));
            && (r.Ok? <==> CompileMetrics(value).Ok?)
            && (r.Err? ==> r.error == ResultsetInvalid(i, name, CompileMetrics(value).error))
            && (r.Ok? ==> r.value == NamedResultMap(CompileMetrics(value).value, name))
  {
  }

  // ================================================================ getRecipe

  /** The locals getRecipe updates while it scans the recipe's keys. */
  datatype Locals = Locals(query: string, queries: seq<string>, rangeover: string,
                           resultmap: Option<ResultMap>, resultmaps: seq<NamedResultMap>)

  const NoLocals := Locals("", [], "", None, [])

  /** The inner loop over a queries list from item i on, appending to acc. */
  function QueryList(items: seq<Yaml>, i: nat, acc: seq<string>): Result<seq<string>, ConfigError>
    requires i <= |items|
    decreases |items| - i
  {
    if i == |items| then Ok(acc)
    else if !items[i].Str? then Err(QueryItemNotString(i + 1))
    else QueryList(items, i + 1, acc + [items[i].s])
  }

  /** One recipe key applied to the locals. */
  function ApplyKey(l: Locals, key: string, value: Yaml): Result<Locals, ConfigError>
  {
    if key == "rangeover" then
      if value.Str? then Ok(l.(rangeover := value.s)) else Err(RangeoverNotString)
    else if key == "query" then
      if value.Str? then Ok(l.(query := value.s)) else Err(QueryNotString)
    else if key == "queries" then
      if !value.List? then Err(QueriesNotList)
      else match QueryList(value.items, 0, l.queries)
        case Err(e) => Err(e)
        case Ok(qs) => Ok(l.(queries := qs))
    else if key == "metrics" then
      match CompileMetrics(value)
      case Err(e) => Err(e)
      case Ok(rm) => Ok(l.(resultmap := Some(rm)))
    else if key == "resultsets" then
      match CompileResultSets(value)
      case Err(e) => Err(e)
      case Ok(rms) => Ok(l.(resultmaps := rms))
    else Err(UnknownRecipeKey(key))
  }

  /** The key loop of getRecipe from entry i on. */
  function ScanRecipe(entries: seq<(Yaml, Yaml)>, i: nat, l: Locals): Result<Locals, ConfigError>
    requires i <= |entries|
    decreases |entries| - i
  {
    if i == |entries| then Ok(l)
    else if !entries[i].0.Str? then Err(KeyNotString)
    else match ApplyKey(l, entries[i].0.s, entries[i].1)
      case Err(e) => Err(e)
      case Ok(l') => ScanRecipe(entries, i + 1, l')
  }

  /** The template loop of getRecipe from query i on: template i is named after the recipe and i. */
  function CompileTemplates(env: Env, name: string, queries: seq<string>, i: nat, acc: seq<Template>)
    : Result<seq<Template>, ConfigError>
    requires i <= |queries|
    decreases |queries| - i
  {
    if i == |queries| then Ok(acc)
    else if !env.templateParses(queries[i]) then Err(TemplateParseFailed(i))
    else CompileTemplates(env, name, queries, i + 1, acc + [Template(name + DecimalText(i), queries[i])])
  }

  /** What getRecipe does after the key loop: checks, defaults and the choice of strategy. */
  function FinishRecipe(env: Env, prefix: string, name: string, l: Locals): Result<Recipe, ConfigError>
  {
    if l.resultmaps == [] && l.resultmap.None? then Err(NoResultMaps)
    else if l.resultmaps != [] && l.resultmap.Some? then Err(BothResultMaps)
    else
      var query := if l.query == "" then "select * from " + name else l.query;
      var queries := if l.queries == [] then [query] else l.queries;
      var resultmaps := if l.resultmaps == [] then [NamedResultMap(l.resultmap.value, "metrics")] else l.resultmaps;
      if l.rangeover != "" then
        match CompileTemplates(env, name, queries, 0, [])
        case Err(e) => Err(e)
        case Ok(ts) => Ok(Templated(prefix + "_" + name, resultmaps, l.rangeover, ts))
      else Ok(Simple(prefix + "_" + name, resultmaps, queries))
  }

  /** getRecipe: one recipe, named name, from its YAML value. */
  function CompileRecipe(env: Env, prefix: string, name: string, specs: Yaml): Result<Recipe, ConfigError>
  {
    if !specs.Map? then Err(RecipeNotAMap)
    else match ScanRecipe(specs.entries, 0, NoLocals)
      case Err(e) => Err(e)
      case Ok(l) => FinishRecipe(env, prefix, name, l)
  }

  method GetRecipe(env: Env, prefix: string, namespace: string, specs: Yaml) returns (r: Result<Recipe, ConfigError>)
    ensures r == CompileRecipe(env, prefix, namespace, specs)
  {
    if !specs.Map? {
      return Err(RecipeNotAMap);
    }
    var yamlRecipe := specs.entries;
    var query := "";
    var queries: seq<string> := [];
    var rangeover := "";
    var resultmaps: seq<NamedResultMap> := [];
    var resultmap: Option<ResultMap> := None;
    var i := 0;
    while i < |yamlRecipe|
      invariant 0 <= i <= |yamlRecipe|
      invariant ScanRecipe(yamlRecipe, 0, NoLocals) ==
                ScanRecipe(yamlRecipe, i, Locals(query, queries, rangeover, resultmap, resultmaps))
      decreases |yamlRecipe| - i
    {
      var ikey := yamlRecipe[i].0;
      var ivalue := yamlRecipe[i].1;
      if !ikey.Str? {
        return Err(KeyNotString);
      }
      var key := ikey.s;
      if key == "rangeover" {
        if !ivalue.Str? {
          return Err(RangeoverNotString);
        }
        rangeover := ivalue.s;
      } else if key == "query" {
        if !ivalue.Str? {
          return Err(QueryNotString);
        }
        query := ivalue.s;
      } else if key == "queries" {
        if !ivalue.List? {
          return Err(QueriesNotList);
        }
        var iqueries := ivalue.items;
        ghost var before := queries;
        var j := 0;
        while j < |iqueries|
          invariant 0 <= j <= |iqueries|
          invariant QueryList(iqueries, 0, before) == QueryList(iqueries, j, queries)
          decreases |iqueries| - j
        {
          if !iqueries[j].Str? {
            return Err(QueryItemNotString(j + 1));
          }
          queries := queries + [iqueries[j].s];
          j := j + 1;
        }
      } else if key == "metrics" {
        var rm := GetMetrics(ivalue);
        if rm.Err? {
          return Err(rm.error);
        }
        resultmap := Some(rm.value);
      } else if key == "resultsets" {
        var rms := GetResultSets(ivalue);
        if rms.Err? {
          return Err(rms.error);
        }
        resultmaps := rms.value;
      } else {
        return Err(UnknownRecipeKey(key));
      }
      i := i + 1;
    }
    if resultmaps == [] && resultmap.None? {
      return Err(NoResultMaps);
    }
    if resultmaps != [] && resultmap.Some? {
      return Err(BothResultMaps);
    }
    if query == "" {
      query := "select * from " + namespace;
    }
    if queries == [] {
      queries := [query];
    }
    if resultmaps == [] {
      resultmaps := [NamedResultMap(resultmap.value, "metrics")];
    }
    if rangeover != "" {
      var tmplQueries: seq<Template> := [];
      var k := 0;
      while k < |queries|
        invariant 0 <= k <= |queries|
        invariant CompileTemplates(env, namespace, queries, 0, []) == CompileTemplates(env, namespace, queries, k, tmplQueries)
        decreases |queries| - k
      {
        if !env.templateParses(queries[k]) {
          return Err(TemplateParseFailed(k));
        }
        tmplQueries := tmplQueries + [Template(namespace + DecimalText(k), queries[k])];
        k := k + 1;
      }
      return Ok(Templated(prefix + "_" + namespace, resultmaps, rangeover, tmplQueries));
    }
    r := Ok(Simple(prefix + "_" + namespace, resultmaps, queries));
  }

  /** The strings of a queries list (its prefix up to the first non-string). */
  function QueryTexts(items: seq<Yaml>): seq<string>
  {
    if QueryList(items, 0, []).Ok? then QueryList(items, 0, []).value else []
  }

  /** The queries loop appends to what was there before. */
  lemma {:induction false} QueryListAppends(items: seq<Yaml>, i: nat, acc: seq<string>)
    requires i <= |items|
    ensures QueryList(items, i, acc).Ok? == QueryList(items, i, []).Ok?
    ensures QueryList(items, i, acc).Ok? ==> QueryList(items, i, acc).value == acc + QueryList(items, i, []).value
    ensures QueryList(items, i, acc).Err? ==> QueryList(items, i, acc).error == QueryList(items, i, []).error
    decreases |items| - i
  {
    if i < |items| && items[i].Str? {
      var s := items[i].s;
      assert [] + [s] == [s];
      QueryListAppends(items, i + 1, acc + [s]);
      QueryListAppends(items, i + 1, [s]);
      QueryListAppends(items, i + 1, []);
      if QueryList(items, i + 1, []).Ok? {
        assert acc + [s] + QueryList(items, i + 1, []).value == acc + ([s] + QueryList(items, i + 1, []).value);
      }
    }
  }

  /**
   * A queries list is accepted exactly when every item is a string, and then
   * its queries are those strings in order; otherwise the first non-string
   * item is reported by its 1-based position.
   */
  lemma {:induction false} QueryListMeaning(items: seq<Yaml>, i: nat)
    requires i <= |items|
    ensures QueryList(items, i, []).Ok? <==> forall k :: i <= k < |items| ==> items[k].Str?
    ensures QueryList(items, i, []).Ok? ==>
              && |QueryList(items, i, []).value| == |items| - i
              && forall k :: i <= k < |items| ==> QueryList(items, i, []).value[k - i] == items[k].s
    ensures QueryList(items, i, []).Err? ==>
              exists f :: && i <= f < |items| && !items[f].Str? && (forall k :: i <= k < f ==> items[k].Str?)
                          && QueryList(items, i, []).error == QueryItemNotString(f + 1)
    decreases |items| - i
  {
    if i < |items| && items[i].Str? {
      assert [] + [items[i].s] == [items[i].s];
      QueryListMeaning(items, i + 1);
      QueryListAppends(items, i + 1, [items[i].s]);
    }
  }

  /** A recipe entry getRecipe accepts: a string key whose value that key's rules accept. */
  predicate EntryOk(e: (Yaml, Yaml))
  {
    e.0.Str? && ApplyKey(NoLocals, e.0.s, e.1).Ok?
  }

  /** The error getRecipe reports for an entry that is not acceptable. */
  function EntryError(e: (Yaml, Yaml)): ConfigError
    requires !EntryOk(e)
  {
    if !e.0.Str? then KeyNotString else ApplyKey(NoLocals, e.0.s, e.1).error
  }

  /** The recipe metrics an optional YAML value compiles to, or d. */
  function MetricsOr(v: Option<Yaml>, d: Option<ResultMap>): Option<ResultMap>
  {
    if v.Some? && CompileMetrics(v.value).Ok? then Some(CompileMetrics(v.value).value) else d
  }

  /** The result maps an optional YAML value compiles to, or d. */
  function ResultSetsOr(v: Option<Yaml>, d: seq<NamedResultMap>): seq<NamedResultMap>
  {
    if v.Some? && CompileResultSets(v.value).Ok? then CompileResultSets(v.value).value else d
  }

  /** Whether a key's acceptance depends on the locals: it does not, and each key sets only its own local. */
  lemma ApplyKeyEffect(l: Locals, key: string, value: Yaml)
    ensures ApplyKey(l, key, value).Ok? == ApplyKey(NoLocals, key, value).Ok?
    ensures ApplyKey(l, key, value).Err? ==> ApplyKey(l, key, value).error == ApplyKey(NoLocals, key, value).error
    ensures ApplyKey(l, key, value).Ok? ==>
              ApplyKey(l, key, value).value ==
              Locals(if key == "query" then value.s else l.query,
                     if key == "queries" then l.queries + QueryTexts(value.items) else l.queries,
                     if key == "rangeover" then value.s else l.rangeover,
                     if key == "metrics" then MetricsOr(Some(value), None) else l.resultmap,
                     if key == "resultsets" then ResultSetsOr(Some(value), []) else l.resultmaps)
  {
    if key == "queries" && value.List? {
      QueryListAppends(value.items, 0, l.queries);
    }
  }

  /**
   * The key loop succeeds exactly when every entry is acceptable, and
   * otherwise reports the first entry that is not.
   */
  lemma {:induction false} ScanRecipeOutcome(entries: seq<(Yaml, Yaml)>, i: nat, l: Locals)
    requires i <= |entries|
    ensures ScanRecipe(entries, i, l).Ok? <==> forall k :: i <= k < |entries| ==> EntryOk(entries[k])
    ensures ScanRecipe(entries, i, l).Err? ==>
              exists f :: && i <= f < |entries| && !EntryOk(entries[f])
                          && (forall k :: i <= k < f ==> EntryOk(entries[k]))
                          && ScanRecipe(entries, i, l).error == EntryError(entries[f])
    decreases |entries| - i
  {
    if i < |entries| {
      var e := entries[i];
      if !e.0.Str? {
        assert ScanRecipe(entries, i, l) == Err(KeyNotString);
      } else {
        var step := ApplyKey(l, e.0.s, e.1);
        ApplyKeyEffect(l, e.0.s, e.1);
        if step.Ok? {
          assert EntryOk(e);
          assert ScanRecipe(entries, i, l) == ScanRecipe(entries, i + 1, step.value);
          ScanRecipeOutcome(entries, i + 1, step.value);
          if ScanRecipe(entries, i + 1, step.value).Err? {
            var f :| && i + 1 <= f < |entries| && !EntryOk(entries[f])
                     && (forall k :: i + 1 <= k < f ==> EntryOk(entries[k]))
                     && ScanRecipe(entries, i + 1, step.value).error == EntryError(entries[f]);
            assert forall k :: i <= k < f ==> EntryOk(entries[k]);
          }
        } else {
          assert !EntryOk(e) && step.error == EntryError(e);
          assert ScanRecipe(entries, i, l) == Err(step.error);
        }
      }
    }
  }

  /** Every queries list from entry i on, concatenated in entry order. */
  function AllQueries(entries: seq<(Yaml, Yaml)>, i: nat): seq<string>
    requires i <= |entries|
    decreases |entries| - i
  {
    if i == |entries| then []
    else (if entries[i].0 == Str("queries") && entries[i].1.List? then QueryTexts(entries[i].1.items) else [])
         + AllQueries(entries, i + 1)
  }

  /** The value LastFrom finds belongs to some entry with that key. */
  lemma {:induction false} LastFromIn(entries: seq<(Yaml, Yaml)>, i: nat, key: string)
    requires i <= |entries| && LastFrom(entries, i, key).Some?
    ensures exists k :: i <= k < |entries| && entries[k] == (Str(key), LastFrom(entries, i, key).value)
    decreases |entries| - i
  {
    if LastFrom(entries, i + 1, key).Some? {
      LastFromIn(entries, i + 1, key);
    }
  }

  /** LastFrom finds nothing exactly when no entry has the key. */
  lemma {:induction false} LastFromNone(entries: seq<(Yaml, Yaml)>, i: nat, key: string)
    requires i <= |entries|
    ensures LastFrom(entries, i, key).None? <==> forall k :: i <= k < |entries| ==> entries[k].0 != Str(key)
    decreases |entries| - i
  {
    if i < |entries| {
      LastFromNone(entries, i + 1, key);
    }
  }

  /** When a key's last value is acceptable, the locals it sets are that value's. */
  lemma LastValueAccepted(entries: seq<(Yaml, Yaml)>, i: nat, key: string)
    requires i <= |entries| && LastFrom(entries, i, key).Some?
    requires forall k :: i <= k < |entries| ==> EntryOk(entries[k])
    ensures var v := LastFrom(entries, i, key).value;
            && (key == "query" || key == "rangeover" ==> v.Str?)
            && (key == "metrics" ==> CompileMetrics(v).Ok?)
            && (key == "resultsets" ==> CompileResultSets(v).Ok?)
  {
    LastFromIn(entries, i, key);
    var k :| i <= k < |entries| && entries[k] == (Str(key), LastFrom(entries, i, key).value);
    assert EntryOk(entries[k]);
  }

  /** The locals the rest of the key loop leaves, from entry i on, starting from l. */
  function LocalsFrom(entries: seq<(Yaml, Yaml)>, i: nat, l: Locals): Locals
    requires i <= |entries|
  {
    Locals(StrOr(LastFrom(entries, i, "query"), l.query),
           l.queries + AllQueries(entries, i),
           StrOr(LastFrom(entries, i, "rangeover"), l.rangeover),
           MetricsOr(LastFrom(entries, i, "metrics"), l.resultmap),
           ResultSetsOr(LastFrom(entries, i, "resultsets"), l.resultmaps))
  }

  /** One string-valued key's local across one acceptable entry. */
  lemma LastStrStep(entries: seq<(Yaml, Yaml)>, i: nat, key: string, d: string, d': string)
    requires i < |entries| && (key == "query" || key == "rangeover")
    requires forall k :: i <= k < |entries| ==> EntryOk(entries[k])
    requires entries[i].0 == Str(key) ==> entries[i].1.Str? && d' == entries[i].1.s
    requires entries[i].0 != Str(key) ==> d' == d
    ensures StrOr(LastFrom(entries, i + 1, key), d') == StrOr(LastFrom(entries, i, key), d)
  {
    if LastFrom(entries, i + 1, key).Some? { LastValueAccepted(entries, i + 1, key); }
  }

  /** The metrics local across one acceptable entry. */
  lemma LastMetricsStep(entries: seq<(Yaml, Yaml)>, i: nat, d: Option<ResultMap>, d': Option<ResultMap>)
    requires i < |entries|
    requires forall k :: i <= k < |entries| ==> EntryOk(entries[k])
    requires entries[i].0 == Str("metrics") ==> d' == MetricsOr(Some(entries[i].1), None) && d'.Some?
    requires entries[i].0 != Str("metrics") ==> d' == d
    ensures MetricsOr(LastFrom(entries, i + 1, "metrics"), d') == MetricsOr(LastFrom(entries, i, "metrics"), d)
  {
    if LastFrom(entries, i + 1, "metrics").Some? { LastValueAccepted(entries, i + 1, "metrics"); }
  }

  /** The resultsets local across one acceptable entry. */
  lemma LastResultSetsStep(entries: seq<(Yaml, Yaml)>, i: nat, d: seq<NamedResultMap>, d': seq<NamedResultMap>)
    requires i < |entries|
    requires forall k :: i <= k < |entries| ==> EntryOk(entries[k])
    requires entries[i].0 == Str("resultsets") ==> CompileResultSets(entries[i].1).Ok? && d' == CompileResultSets(entries[i].1).value
    requires entries[i].0 != Str("resultsets") ==> d' == d
    ensures ResultSetsOr(LastFrom(entries, i + 1, "resultsets"), d') == ResultSetsOr(LastFrom(entries, i, "resultsets"), d)
  {
    if LastFrom(entries, i + 1, "resultsets").Some? { LastValueAccepted(entries, i + 1, "resultsets"); }
  }

  /** One acceptable entry followed by the rest gives what the rest gives after that entry. */
  lemma LocalsFromStep(entries: seq<(Yaml, Yaml)>, i: nat, l: Locals)
    requires i < |entries|
    requires forall k :: i <= k < |entries| ==> EntryOk(entries[k])
    ensures entries[i].0.Str? && ApplyKey(l, entries[i].0.s, entries[i].1).Ok?
    ensures LocalsFrom(entries, i + 1, ApplyKey(l, entries[i].0.s, entries[i].1).value) == LocalsFrom(entries, i, l)
  {
    var e := entries[i];
    assert EntryOk(e);
    var key := e.0.s;
    ApplyKeyEffect(l, key, e.1);
    var l' := ApplyKey(l, key, e.1).value;
    assert l'.queries + AllQueries(entries, i + 1) == l.queries + AllQueries(entries, i);
    LastStrStep(entries, i, "query", l.query, l'.query);
    LastStrStep(entries, i, "rangeover", l.rangeover, l'.rangeover);
    LastMetricsStep(entries, i, l.resultmap, l'.resultmap);
    LastResultSetsStep(entries, i, l.resultmaps, l'.resultmaps);
  }

  /**
   * When every entry is acceptable, the key loop ends with each local holding
   * the last value given for its key, and the queries of every queries list
   * appended in entry order.
   */
  lemma {:induction false} ScanRecipeLocals(entries: seq<(Yaml, Yaml)>, i: nat, l: Locals)
    requires i <= |entries|
    requires forall k :: i <= k < |entries| ==> EntryOk(entries[k])
    ensures ScanRecipe(entries, i, l) == Ok(LocalsFrom(entries, i, l))
    decreases |entries| - i
  {
    if i < |entries| {
      LocalsFromStep(entries, i, l);
      var l' := ApplyKey(l, entries[i].0.s, entries[i].1).value;
      assert ScanRecipe(entries, i, l) == ScanRecipe(entries, i + 1, l');
      ScanRecipeLocals(entries, i + 1, l');
    } else {
      assert l.queries + [] == l.queries;
    }
  }

  /** Every entry of a recipe is acceptable. */
  ghost predicate KeysOk(entries: seq<(Yaml, Yaml)>)
  {
    forall k :: 0 <= k < |entries| ==> EntryOk(entries[k])
  }

  /** The locals after the key loop, stated through the recipe's entries. */
  function RecipeLocals(entries: seq<(Yaml, Yaml)>): Locals
  {
    LocalsFrom(entries, 0, NoLocals)
  }

  /**
   * getRecipe fails with the first unacceptable entry's error; when every
   * entry is acceptable it finishes from the last value of each key.
   */
  lemma CompileRecipeMeaning(env: Env, prefix: string, name: string, entries: seq<(Yaml, Yaml)>)
    ensures KeysOk(entries) ==>
              CompileRecipe(env, prefix, name, Map(entries)) == FinishRecipe(env, prefix, name, RecipeLocals(entries))
    ensures !KeysOk(entries) ==>
              exists f :: && 0 <= f < |entries| && !EntryOk(entries[f])
                          && (forall k :: 0 <= k < f ==> EntryOk(entries[k]))
                          && CompileRecipe(env, prefix, name, Map(entries)) == Err(EntryError(entries[f]))
  {
    ScanRecipeOutcome(entries, 0, NoLocals);
    if KeysOk(entries) {
      ScanRecipeLocals(entries, 0, NoLocals);
    }
  }

  /**
   * The template loop succeeds exactly when every query parses, and otherwise
   * reports the first query that does not by its 0-based index.
   */
  lemma {:induction false} CompileTemplatesOutcome(env: Env, name: string, queries: seq<string>, i: nat, acc: seq<Template>)
    requires i <= |queries|
    ensures var r := CompileTemplates(env, name, queries, i, acc);
            && (r.Ok? <==> forall k :: i <= k < |queries| ==> env.templateParses(queries[k]))
            && (r.Err? ==> exists f :: && i <= f < |queries| && !env.templateParses(queries[f])
                                       && (forall k :: i <= k < f ==> env.templateParses(queries[k]))
                                       && r.error == TemplateParseFailed(f))
    decreases |queries| - i
  {
    if i < |queries| && env.templateParses(queries[i]) {
      CompileTemplatesOutcome(env, name, queries, i + 1, acc + [Template(name + DecimalText(i), queries[i])]);
    }
  }

  /** When every query parses there is one template per query, template k being query k named name + k. */
  lemma {:induction false} CompileTemplatesOrder(env: Env, name: string, queries: seq<string>, i: nat, acc: seq<Template>)
    requires i <= |queries|
    requires forall k :: i <= k < |queries| ==> env.templateParses(queries[k])
    ensures CompileTemplates(env, name, queries, i, acc).Ok?
    ensures var r := CompileTemplates(env, name, queries, i, acc).value;
            && |r| == |acc| + |queries| - i
            && r[..|acc|] == acc
            && forall k :: i <= k < |queries| ==> r[|acc| + k - i] == Template(name + DecimalText(k), queries[k])
    decreases |queries| - i
  {
    if i < |queries| {
      var acc' := acc + [Template(name + DecimalText(i), queries[i])];
      assert CompileTemplates(env, name, queries, i, acc) == CompileTemplates(env, name, queries, i + 1, acc');
      CompileTemplatesOrder(env, name, queries, i + 1, acc');
      var r := CompileTemplates(env, name, queries, i, acc).value;
      assert r[..|acc'|][..|acc|] == r[..|acc|];
      assert r[|acc|] == r[..|acc'|][|acc|];
    }
  }

  /** The queries a compiled recipe runs: its literal queries, or its templates' texts. */
  function RecipeQueries(r: Recipe): seq<string>
  {
    match r
    case Simple(_, _, queries) => queries
    case Templated(_, _, _, templates) => seq(|templates|, k requires 0 <= k < |templates| => templates[k].text)
  }

  /** The queries after defaulting: the queries lists, else the query, else "select * from <name>". */
  function DefaultQueries(name: string, entries: seq<(Yaml, Yaml)>): seq<string>
  {
    var query := StrOr(LastFrom(entries, 0, "query"), "");
    var queries := AllQueries(entries, 0);
    if queries != [] then queries else [if query == "" then "select * from " + name else query]
  }

  /** The result maps of a recipe: metrics alone give one map named "metrics", else the resultsets. */
  function ChosenResultMaps(entries: seq<(Yaml, Yaml)>): seq<NamedResultMap>
  {
    var l := RecipeLocals(entries);
    if l.resultmaps == [] && l.resultmap.Some? then [NamedResultMap(l.resultmap.value, "metrics")] else l.resultmaps
  }

  /**
   * A recipe needs result maps from exactly one of its two keys: neither (an
   * empty resultsets list counting as none) fails, and so do both.
   */
  lemma RecipeResultMapChoice(env: Env, prefix: string, name: string, entries: seq<(Yaml, Yaml)>)
    requires KeysOk(entries)
    ensures var r := CompileRecipe(env, prefix, name, Map(entries));
            var resultsets := ResultSetsOr(LastFrom(entries, 0, "resultsets"), []);
            && (r == Err(NoResultMaps) <==> LastFrom(entries, 0, "metrics").None? && resultsets == [])
            && (r == Err(BothResultMaps) <==> LastFrom(entries, 0, "metrics").Some? && resultsets != [])
  {
    CompileRecipeMeaning(env, prefix, name, entries);
    var l := RecipeLocals(entries);
    if LastFrom(entries, 0, "metrics").Some? {
      LastValueAccepted(entries, 0, "metrics");
    }
    if l.rangeover != "" {
      var query := if l.query == "" then "select * from " + name else l.query;
      var queries := if l.queries == [] then [query] else l.queries;
      CompileTemplatesOutcome(env, name, queries, 0, []);
    }
  }

  /** A resultsets key holding the empty list counts as absent: with no metrics key the recipe fails. */
  lemma EmptyResultSetsCountAsAbsent(env: Env, prefix: string, name: string, entries: seq<(Yaml, Yaml)>)
    requires KeysOk(entries)
    requires forall k :: 0 <= k < |entries| ==> entries[k].0 != Str("metrics")
    requires LastFrom(entries, 0, "resultsets") == Some(List([]))
    ensures CompileRecipe(env, prefix, name, Map(entries)) == Err(NoResultMaps)
  {
    LastFromNone(entries, 0, "metrics");
    RecipeResultMapChoice(env, prefix, name, entries);
  }

  /** What FinishRecipe builds from the locals when it succeeds. */
  lemma FinishRecipeShape(env: Env, prefix: string, name: string, l: Locals)
    requires FinishRecipe(env, prefix, name, l).Ok?
    ensures var r := FinishRecipe(env, prefix, name, l).value;
            var query := if l.query == "" then "select * from " + name else l.query;
            && r.GetNamespace() == prefix + "_" + name
            && r.GetResultMaps() == (if l.resultmaps == [] then [NamedResultMap(l.resultmap.value, "metrics")] else l.resultmaps)
            && RecipeQueries(r) == (if l.queries == [] then [query] else l.queries)
            && (r.Templated? <==> l.rangeover != "")
            && (r.Templated? ==> && r.rangequery == l.rangeover
                                 && forall k :: 0 <= k < |r.templates| ==> r.templates[k].name == name + DecimalText(k))
  {
    if l.rangeover != "" {
      var query := if l.query == "" then "select * from " + name else l.query;
      var queries := if l.queries == [] then [query] else l.queries;
      CompileTemplatesOutcome(env, name, queries, 0, []);
      CompileTemplatesOrder(env, name, queries, 0, []);
      var ts := CompileTemplates(env, name, queries, 0, []).value;
      assert seq(|ts|, k requires 0 <= k < |ts| => ts[k].text) == queries;
    }
  }

  /**
   * A compiled recipe is in namespace prefix_name, carries the chosen result
   * maps, and runs the defaulted queries; it is templated exactly when the
   * rangeover is non-empty, with that rangeover as its range query and
   * template k named name + k.
   */
  lemma CompiledRecipeShape(env: Env, prefix: string, name: string, entries: seq<(Yaml, Yaml)>)
    requires KeysOk(entries)
    requires CompileRecipe(env, prefix, name, Map(entries)).Ok?
    ensures var r := CompileRecipe(env, prefix, name, Map(entries)).value;
            var rangeover := StrOr(LastFrom(entries, 0, "rangeover"), "");
            && r.GetNamespace() == prefix + "_" + name
            && r.GetResultMaps() == ChosenResultMaps(entries)
            && RecipeQueries(r) == DefaultQueries(name, entries)
            && (r.Templated? <==> rangeover != "")
            && (r.Templated? ==> && r.rangequery == rangeover
                                 && forall k :: 0 <= k < |r.templates| ==> r.templates[k].name == name + DecimalText(k))
  {
    CompileRecipeMeaning(env, prefix, name, entries);
    FinishRecipeShape(env, prefix, name, RecipeLocals(entries));
  }

  /** The metrics shorthand gives exactly one result map, named "metrics". */
  lemma MetricsShorthand(env: Env, prefix: string, name: string, entries: seq<(Yaml, Yaml)>)
    requires KeysOk(entries)
    requires CompileRecipe(env, prefix, name, Map(entries)).Ok?
    requires LastFrom(entries, 0, "metrics").Some? && CompileMetrics(LastFrom(entries, 0, "metrics").value).Ok?
    ensures CompileRecipe(env, prefix, name, Map(entries)).value.GetResultMaps() ==
            [NamedResultMap(CompileMetrics(LastFrom(entries, 0, "metrics").value).value, "metrics")]
  {
    LastValueAccepted(entries, 0, "metrics");
    RecipeResultMapChoice(env, prefix, name, entries);
    CompiledRecipeShape(env, prefix, name, entries);
  }

  /**
   * With a non-empty rangeover, a query that does not parse as a template
   * fails the recipe with the 0-based index of the first such query.
   */
  lemma TemplateParseFailure(env: Env, prefix: string, name: string, entries: seq<(Yaml, Yaml)>, f: nat)
    requires KeysOk(entries)
    requires LastFrom(entries, 0, "metrics").Some? <==> ResultSetsOr(LastFrom(entries, 0, "resultsets"), []) == []
    requires StrOr(LastFrom(entries, 0, "rangeover"), "") != ""
    requires f < |DefaultQueries(name, entries)| && !env.templateParses(DefaultQueries(name, entries)[f])
    requires forall k :: 0 <= k < f ==> env.templateParses(DefaultQueries(name, entries)[k])
    ensures CompileRecipe(env, prefix, name, Map(entries)) == Err(TemplateParseFailed(f))
  {
    CompileRecipeMeaning(env, prefix, name, entries);
    if LastFrom(entries, 0, "metrics").Some? {
      LastValueAccepted(entries, 0, "metrics");
    }
    var l := RecipeLocals(entries);
    var query := if l.query == "" then "select * from " + name else l.query;
    var queries := if l.queries == [] then [query] else l.queries;
    assert queries == DefaultQueries(name, entries);
    FinishTemplateFailure(env, prefix, name, l, f);
  }

  /** FinishRecipe with a rangeover reports the first query that does not parse. */
  lemma FinishTemplateFailure(env: Env, prefix: string, name: string, l: Locals, f: nat)
    requires (l.resultmaps == []) == l.resultmap.Some? && l.rangeover != ""
    requires var query := if l.query == "" then "select * from " + name else l.query;
             var queries := if l.queries == [] then [query] else l.queries;
             && f < |queries| && !env.templateParses(queries[f])
             && forall k :: 0 <= k < f ==> env.templateParses(queries[k])
    ensures FinishRecipe(env, prefix, name, l) == Err(TemplateParseFailed(f))
  {
    var query := if l.query == "" then "select * from " + name else l.query;
    var queries := if l.queries == [] then [query] else l.queries;
    CompileTemplatesOutcome(env, name, queries, 0, []);
    var r := CompileTemplates(env, name, queries, 0, []);
    var g :| 0 <= g < |queries| && !env.templateParses(queries[g])
             && (forall k :: 0 <= k < g ==> env.templateParses(queries[k])) && r.error == TemplateParseFailed(g);
    assert g == f by {
      if g < f { assert false; }
      if f < g { assert false; }
    }
  }

  /** The templates of one recipe have distinct names. */
  lemma TemplateNamesDistinct(name: string, j: nat, k: nat)
    requires j != k
    ensures name + DecimalText(j) != name + DecimalText(k)
  {
    if name + DecimalText(j) == name + DecimalText(k) {
      assert (name + DecimalText(j))[|name|..] == DecimalText(j);
      assert (name + DecimalText(k))[|name|..] == DecimalText(k);
      DecimalTextInjective(j, k);
    }
  }

  // =============================================================== GetRecipes

  /**
   * GetRecipes over a decoded document, its top-level entries in iteration
   * order: every recipe compiles, in document order, or the first that does
   * not is reported under its name.
   */
  method GetRecipes(env: Env, prefix: string, doc: seq<(string, Yaml)>) returns (r: Result<seq<Recipe>, ConfigError>)
    ensures r.Ok? <==> forall k :: 0 <= k < |doc| ==> CompileRecipe(env, prefix, doc[k].0, doc[k].1).Ok?
    ensures r.Ok? ==> |r.value| == |doc| &&
                      forall k :: 0 <= k < |doc| ==> r.value[k] == CompileRecipe(env, prefix, doc[k].0, doc[k].1).value
    ensures r.Err? ==> exists f :: && 0 <= f < |doc|
                                   && (forall k :: 0 <= k < f ==> CompileRecipe(env, prefix, doc[k].0, doc[k].1).Ok?)
                                   && CompileRecipe(env, prefix, doc[f].0, doc[f].1).Err?
                                   && r.error == InRecipe(doc[f].0, CompileRecipe(env, prefix, doc[f].0, doc[f].1).error)
  {
    var recipes: seq<Recipe> := [];
    var i := 0;
    while i < |doc|
      invariant 0 <= i <= |doc|
      invariant |recipes| == i
      invariant forall k :: 0 <= k < i ==> CompileRecipe(env, prefix, doc[k].0, doc[k].1).Ok?
      invariant forall k :: 0 <= k < i ==> recipes[k] == CompileRecipe(env, prefix, doc[k].0, doc[k].1).value
      decreases |doc| - i
    {
      var basename := doc[i].0;
      var recipe := GetRecipe(env, prefix, basename, doc[i].1);
      if recipe.Err? {
        return Err(InRecipe(basename, recipe.error));
      }
      recipes := recipes + [recipe.value];
      i := i + 1;
    }
    r := Ok(recipes);
  }

  // ============================================================== a scenario

  /**
   * The recipe recipe2 of the configuration tests (config/recipes_test.go:56-70),
   * with one query and one DISCARD metric: it compiles to a simple recipe in namespace test_recipe2
   * with a single result map named "metrics" and that query.
   */
  lemma SimpleQueryRecipe(env: Env)
    ensures CompileRecipe(env, "test", "recipe2",
              Map([(Str("query"), Str("select * from a")),
                   (Str("metrics"), List([Map([(Str("met1"), Map([(Str("usage"), Str("DISCARD")),
                                                                (Str("description"), Str("desc1"))]))])]))]))
            == Ok(Simple("test_recipe2",
                         [NamedResultMap(map["met1" := ColumnMapping(Discard, "desc1", None, None, "")], "metrics")],
                         ["select * from a"]))
  {
    var attrs := [(Str("usage"), Str("DISCARD")), (Str("description"), Str("desc1"))];
    var a1 := NoAttrs.(usage := Some(Discard));
    assert ScanAttrs(attrs, 1, a1) == ScanAttrs(attrs, 2, a1.(description := "desc1"));
    assert ScanAttrs(attrs, 0, NoAttrs) == Ok(Attrs(Some(Discard), "desc1", None, ""));
    var cm := ColumnMapping(Discard, "desc1", None, None, "");
    var metric := Map([(Str("met1"), Map(attrs))]);
    assert ReplaceSpaces("met1") == "met1";
    assert CompileMetric(metric) == Ok(("met1", cm));
    assert MetricsFrom([metric], 0, map[]) == MetricsFrom([metric], 1, map["met1" := cm]);
    var metrics := List([metric]);
    assert CompileMetrics(metrics) == Ok(map["met1" := cm]);
    var entries := [(Str("query"), Str("select * from a")), (Str("metrics"), metrics)];
    var l1 := NoLocals.(query := "select * from a");
    assert ScanRecipe(entries, 0, NoLocals) == ScanRecipe(entries, 1, l1);
    var l2 := l1.(resultmap := Some(map["met1" := cm]));
    assert ScanRecipe(entries, 1, l1) == ScanRecipe(entries, 2, l2);
    assert ScanRecipe(entries, 2, l2) == Ok(l2);
    assert "test" + "_" + "recipe2" == "test_recipe2";
    assert FinishRecipe(env, "test", "recipe2", l2) ==
           Ok(Simple("test_recipe2", [NamedResultMap(map["met1" := cm], "metrics")], ["select * from a"]));
  }
}
