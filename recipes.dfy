/**
 * Compiled recipes and their two query strategies (recipes/recipes.go): the
 * simple strategy runs literal queries in order and concatenates their
 * resultsets; the templated strategy runs a range query and then every query
 * template once per range value, accumulating resultsets by position.
 */
module Recipes {
  import opened Wrappers
  import opened Foreign
  import opened Common
  import opened Db

  /** How each column of one resultset becomes metrics. */
  type ResultMap = map<string, ColumnMapping>

  /** A result map with the name the configuration gave its resultset. */
  datatype NamedResultMap = NamedResultMap(resultMap: ResultMap, name: string)
  {
    /** ShouldSkip: a resultset with an empty result map yields no metrics. */
    function ShouldSkip(): (skip: bool)
      ensures skip <==> resultMap == map[]
    {
      |resultMap| == 0
    }
  }

  /** A compiled recipe: the shared base (namespace, result maps) and its strategy. */
  datatype Recipe =
    | Simple(namespace: string, resultmaps: seq<NamedResultMap>, queries: seq<string>)
    | Templated(namespace: string, resultmaps: seq<NamedResultMap>, rangequery: string,
                templates: seq<Template>)
  {
    function GetNamespace(): string { namespace }
    function GetResultMaps(): seq<NamedResultMap> { resultmaps }
  }

  /** Why running a recipe failed. */
  datatype RunError =
    | QueryFailed(sql: string, cause: string)
    | CountMismatch(namespace: string, got: nat, want: nat)
    | RangeQueryFailed(cause: string)
    | RangeResultSetCount(count: nat)
    | RangeColumnCount(colnames: seq<string>)
    | RangeNoRows
    | RangeValueUnconvertible
    | RenderFailed(template: Template, value: string)
      // more resultsets than accumulators: an index out of range, a Go runtime panic
    | ResultSetOutOfRange(index: nat)

  /** The outcome of running queries and the connection's query log afterwards. */
  datatype Exec = Exec(result: Result<seq<ScannedResultSet>, RunError>, sqls: seq<string>)

  // ------------------------------------------------------------------ simple

  /**
   * The simple strategy's runQueries from query i on, with acc the resultsets
   * so far and log the connection's query log (its length is the next call index).
   */
  function SimpleRun(script: (nat, string) -> Answer, queries: seq<string>, i: nat,
                     acc: seq<ScannedResultSet>, log: seq<string>): Exec
    requires i <= |queries|
    decreases |queries| - i
  {
    if i == |queries| then Exec(Ok(acc), log)
    else match script(|log|, queries[i])
      case Err(cause) => Exec(Err(QueryFailed(queries[i], cause)), log + [queries[i]])
      case Ok(srss) => SimpleRun(script, queries, i + 1, acc + srss, log + [queries[i]])
  }

  /** Every query of qs, issued from call index k on, is answered without error. */
  predicate AllAnswered(script: (nat, string) -> Answer, k: nat, qs: seq<string>)
    decreases |qs|
  {
    qs == [] || (script(k, qs[0]).Ok? && AllAnswered(script, k + 1, qs[1..]))
  }

  /** The resultsets of the answers to qs, issued from call index k on, concatenated. */
  function AnswerSets(script: (nat, string) -> Answer, k: nat, qs: seq<string>): seq<ScannedResultSet>
    requires AllAnswered(script, k, qs)
    decreases |qs|
  {
    if qs == [] then []
    else script(k, qs[0]).value + AnswerSets(script, k + 1, qs[1..])
  }

  /** When every query succeeds, all are issued in order and their resultsets concatenated. */
  lemma {:induction false} SimpleRunSucceeds(script: (nat, string) -> Answer, queries: seq<string>,
                                             i: nat, acc: seq<ScannedResultSet>, log: seq<string>)
    requires i <= |queries|
    requires AllAnswered(script, |log|, queries[i..])
    ensures SimpleRun(script, queries, i, acc, log) ==
            Exec(Ok(acc + AnswerSets(script, |log|, queries[i..])), log + queries[i..])
    decreases |queries| - i
  {
    if i < |queries| {
      var srss := script(|log|, queries[i]).value;
      var qs := queries[i..];
      assert qs[0] == queries[i] && qs[1..] == queries[i + 1..];
      SimpleRunSucceeds(script, queries, i + 1, acc + srss, log + [queries[i]]);
      assert SimpleRun(script, queries, i, acc, log) == SimpleRun(script, queries, i + 1, acc + srss, log + [queries[i]]);
      var rest := AnswerSets(script, |log| + 1, queries[i + 1..]);
      assert AnswerSets(script, |log|, qs) == srss + rest;
      assert (acc + srss) + rest == acc + (srss + rest);
      assert (log + [queries[i]]) + queries[i + 1..] == log + queries[i..];
    } else {
      assert queries[i..] == [];
      assert acc + [] == acc && log + [] == log;
    }
  }

  /** The first failing query ends the run: it is the last one issued and its error is returned. */
  lemma {:induction false} SimpleRunStopsAtFailure(script: (nat, string) -> Answer, queries: seq<string>,
                                                   i: nat, acc: seq<ScannedResultSet>, log: seq<string>,
                                                   f: nat)
    requires i <= f < |queries|
    requires AllAnswered(script, |log|, queries[i..f])
    requires script(|log| + (f - i), queries[f]).Err?
    ensures SimpleRun(script, queries, i, acc, log) ==
            Exec(Err(QueryFailed(queries[f], script(|log| + (f - i), queries[f]).error)),
                 log + queries[i..f + 1])
    decreases f - i
  {
    if i < f {
      var srss := script(|log|, queries[i]).value;
      assert queries[i..f][0] == queries[i] && queries[i..f][1..] == queries[i + 1..f];
      SimpleRunStopsAtFailure(script, queries, i + 1, acc + srss, log + [queries[i]], f);
      assert (log + [queries[i]]) + queries[i + 1..f + 1] == log + queries[i..f + 1];
    } else {
      assert queries[i..f + 1] == [queries[i]];
    }
  }

  /** A query that is not answered makes the run fail on the first such query. */
  lemma {:induction false} SimpleRunFails(script: (nat, string) -> Answer, queries: seq<string>,
                                          i: nat, acc: seq<ScannedResultSet>, log: seq<string>)
    requires i <= |queries|
    requires !AllAnswered(script, |log|, queries[i..])
    ensures SimpleRun(script, queries, i, acc, log).result.Err?
    ensures SimpleRun(script, queries, i, acc, log).result.error.QueryFailed?
    decreases |queries| - i
  {
    var qs := queries[i..];
    assert qs != [];
    assert qs[0] == queries[i] && qs[1..] == queries[i + 1..];
    if script(|log|, queries[i]).Ok? {
      SimpleRunFails(script, queries, i + 1, acc + script(|log|, queries[i]).value, log + [queries[i]]);
    }
  }

  /** The whole run from the first query: all answered, or failed on a query. */
  lemma SimpleRunFromStart(script: (nat, string) -> Answer, queries: seq<string>, log: seq<string>)
    ensures AllAnswered(script, |log|, queries) ==>
              SimpleRun(script, queries, 0, [], log) == Exec(Ok(AnswerSets(script, |log|, queries)), log + queries)
    ensures !AllAnswered(script, |log|, queries) ==>
              SimpleRun(script, queries, 0, [], log).result.Err? &&
              SimpleRun(script, queries, 0, [], log).result.error.QueryFailed?
  {
    assert queries[0..] == queries;
    if AllAnswered(script, |log|, queries) {
      SimpleRunSucceeds(script, queries, 0, [], log);
      assert [] + AnswerSets(script, |log|, queries) == AnswerSets(script, |log|, queries);
    } else {
      SimpleRunFails(script, queries, 0, [], log);
    }
  }

  /**
   * The simple strategy's Run: it succeeds exactly when every query is answered
   * and their resultsets, concatenated, are as many as the result maps, and then
   * returns those resultsets; when all are answered but the count differs it fails
   * with both counts; an unanswered query fails the run with that query's error.
   */
  function SimpleOutcome(namespace: string, want: nat, queries: seq<string>,
                         script: (nat, string) -> Answer, log: seq<string>): (e: Exec)
    ensures e.result.Ok? <==>
              AllAnswered(script, |log|, queries) && |AnswerSets(script, |log|, queries)| == want
    ensures e.result.Ok? ==> e.result.value == AnswerSets(script, |log|, queries)
    ensures AllAnswered(script, |log|, queries) && |AnswerSets(script, |log|, queries)| != want ==>
              e.result == Err(CountMismatch(namespace, |AnswerSets(script, |log|, queries)|, want))
    ensures !AllAnswered(script, |log|, queries) ==> e.result.Err? && e.result.error.QueryFailed?
    ensures AllAnswered(script, |log|, queries) ==> e.sqls == log + queries
    ensures e.sqls == SimpleRun(script, queries, 0, [], log).sqls
  {
    SimpleRunFromStart(script, queries, log);
    var run := SimpleRun(script, queries, 0, [], log);
    if run.result.Ok? && |run.result.value| != want then
      Exec(Err(CountMismatch(namespace, |run.result.value|, want)), run.sqls)
    else run
  }

  /** MetricQueryRecipeSimple.runQueries against a connection. */
  method RunSimpleQueries(queries: seq<string>, conn: ScriptedConn)
    returns (r: Result<seq<ScannedResultSet>, RunError>)
    modifies conn
    ensures r == SimpleRun(conn.script, queries, 0, [], old(conn.sqls)).result
    ensures conn.sqls == SimpleRun(conn.script, queries, 0, [], old(conn.sqls)).sqls
    ensures conn.closes == old(conn.closes)
  {
    var accsrs: seq<ScannedResultSet> := [];
    var i := 0;
    while i < |queries|
      invariant 0 <= i <= |queries|
      invariant conn.closes == old(conn.closes)
      invariant SimpleRun(conn.script, queries, 0, [], old(conn.sqls)) ==
                SimpleRun(conn.script, queries, i, accsrs, conn.sqls)
    {
      var sql := queries[i];
      var srss := conn.Query(sql);
      if srss.Err? {
        return Err(QueryFailed(sql, srss.error));
      }
      accsrs := accsrs + srss.value;
      i := i + 1;
    }
    r := Ok(accsrs);
  }

  /** MetricQueryRecipeSimple.Run. */
  method RunSimple(namespace: string, want: nat, queries: seq<string>, conn: ScriptedConn)
    returns (r: Result<seq<ScannedResultSet>, RunError>)
    modifies conn
    ensures r == SimpleOutcome(namespace, want, queries, conn.script, old(conn.sqls)).result
    ensures conn.sqls == SimpleOutcome(namespace, want, queries, conn.script, old(conn.sqls)).sqls
    ensures conn.closes == old(conn.closes)
  {
    r := RunSimpleQueries(queries, conn);
    if r.Ok? && |r.value| != want {
      r := Err(CountMismatch(namespace, |r.value|, want));
    }
  }

  // --------------------------------------------------------------- templated

  /** getRange's checks on the range query's answer, and the label text of each row's value. */
  function RangeValues(env: Env, answer: Answer): (r: Result<seq<string>, RunError>)
    ensures r.Ok? <==>
              && answer.Ok? && |answer.value| == 1
              && |answer.value[0].colnames| == 1 && |answer.value[0].rows| >= 1
              && forall i :: 0 <= i < |answer.value[0].rows| ==> ToString(env, answer.value[0].rows[i][0]).1
    ensures r.Ok? ==>
              && |r.value| == |answer.value[0].rows|
              && forall i :: 0 <= i < |r.value| ==> r.value[i] == ToString(env, answer.value[0].rows[i][0]).0
  {
    if answer.Err? then Err(RangeQueryFailed(answer.error))
    else if |answer.value| != 1 then Err(RangeResultSetCount(|answer.value|))
    else
      var srs := answer.value[0];
      if |srs.colnames| != 1 then Err(RangeColumnCount(srs.colnames))
      else if |srs.rows| < 1 then Err(RangeNoRows)
      else if exists i :: 0 <= i < |srs.rows| && !ToString(env, srs.rows[i][0]).1 then Err(RangeValueUnconvertible)
      else Ok(seq(|srs.rows|, i requires 0 <= i < |srs.rows| => ToString(env, srs.rows[i][0]).0))
  }

  /** MetricQueryRecipeTemplated.getRange: runs the range query and converts its rows. */
  method GetRange(env: Env, rangequery: string, conn: ScriptedConn) returns (r: Result<seq<string>, RunError>)
    modifies conn
    ensures conn.sqls == old(conn.sqls) + [rangequery]
    ensures conn.closes == old(conn.closes)
    ensures r == RangeValues(env, conn.script(|old(conn.sqls)|, rangequery))
  {
    var srss := conn.Query(rangequery);
    if srss.Err? {
      return Err(RangeQueryFailed(srss.error));
    }
    if |srss.value| != 1 {
      return Err(RangeResultSetCount(|srss.value|));
    }
    var srs := srss.value[0];
    if |srs.colnames| != 1 {
      return Err(RangeColumnCount(srs.colnames));
    }
    if |srs.rows| < 1 {
      return Err(RangeNoRows);
    }
    var itover := new string[|srs.rows|];
    var i := 0;
    while i < |srs.rows|
      invariant 0 <= i <= |srs.rows|
      invariant forall k :: 0 <= k < i ==> ToString(env, srs.rows[k][0]) == (itover[k], true)
      modifies itover
    {
      var sval := ToString(env, srs.rows[i][0]);
      if !sval.1 {
        return Err(RangeValueUnconvertible);
      }
      itover[i] := sval.0;
      i := i + 1;
    }
    assert !exists k :: 0 <= k < |srs.rows| && !ToString(env, srs.rows[k][0]).1;
    assert itover[..] == seq(|srs.rows|, k requires 0 <= k < |srs.rows| => ToString(env, srs.rows[k][0]).0);
    r := Ok(itover[..]);
  }

  /** Every row extended by the range value as a trailing string value. */
  function Extend(rows: seq<seq<RawValue>>, it: string): (r: seq<seq<RawValue>>)
    ensures |r| == |rows|
    ensures forall k :: 0 <= k < |rows| ==> r[k] == rows[k] + [Str(it)]
  {
    seq(|rows|, k requires 0 <= k < |rows| => rows[k] + [Str(it)])
  }

  /** The accumulators after one execution answered srss for range value it. */
  function Merge(acc: seq<ScannedResultSet>, srss: seq<ScannedResultSet>, it: string): (r: seq<ScannedResultSet>)
    requires |srss| <= |acc|
    ensures |r| == |acc|
  {
    seq(|acc|, i requires 0 <= i < |acc| =>
      if i < |srss| then ScannedResultSet(srss[i].colnames + [it], acc[i].rows + Extend(srss[i].rows, it))
      else acc[i])
  }

  /**
   * Accumulator i keeps its rows and gains, after them, each row of resultset i
   * extended by the range value as a string, and its column list becomes that
   * resultset's plus the range value; an accumulator without a resultset in this
   * execution is unchanged.
   */
  lemma MergeMeaning(acc: seq<ScannedResultSet>, srss: seq<ScannedResultSet>, it: string)
    requires |srss| <= |acc|
    ensures var r := Merge(acc, srss, it);
            forall i :: 0 <= i < |acc| ==>
              && |r[i].rows| == |acc[i].rows| + (if i < |srss| then |srss[i].rows| else 0)
              && r[i].rows[..|acc[i].rows|] == acc[i].rows
              && (i >= |srss| ==> r[i] == acc[i])
              && (i < |srss| ==> r[i].colnames == srss[i].colnames + [it])
              && (i < |srss| ==> r[i].rows == acc[i].rows + Extend(srss[i].rows, it))
              && (i < |srss| ==> forall k :: 0 <= k < |srss[i].rows| ==>
                                   r[i].rows[|acc[i].rows| + k] == srss[i].rows[k] + [Str(it)])
  {
  }

  /**
   * The templated strategy's runQueries from range value vi and template ti on:
   * render, query, and merge the answer into the accumulators by position.
   */
  function TemplatedRun(env: Env, script: (nat, string) -> Answer, templates: seq<Template>,
                        values: seq<string>, vi: nat, ti: nat, acc: seq<ScannedResultSet>,
                        log: seq<string>): Exec
    requires vi <= |values| && ti <= |templates|
    decreases |values| - vi, |templates| - ti
  {
    if vi == |values| then Exec(Ok(acc), log)
    else if ti == |templates| then TemplatedRun(env, script, templates, values, vi + 1, 0, acc, log)
    else match env.executeTemplate(templates[ti], values[vi])
      case None => Exec(Err(RenderFailed(templates[ti], values[vi])), log)
      case Some(sql) =>
        match script(|log|, sql)
        case Err(cause) => Exec(Err(QueryFailed(sql, cause)), log + [sql])
        case Ok(srss) =>
          if |srss| > |acc| then Exec(Err(ResultSetOutOfRange(|acc|)), log + [sql])
          else TemplatedRun(env, script, templates, values, vi, ti + 1, Merge(acc, srss, values[vi]),
                            log + [sql])
  }

  const EmptySet := ScannedResultSet([], [])

  /** On success there is exactly one resultset per accumulator. */
  lemma {:induction false} TemplatedRunKeepsCount(env: Env, script: (nat, string) -> Answer,
                                                  templates: seq<Template>, values: seq<string>,
                                                  vi: nat, ti: nat, acc: seq<ScannedResultSet>, log: seq<string>)
    requires vi <= |values| && ti <= |templates|
    ensures var e := TemplatedRun(env, script, templates, values, vi, ti, acc, log);
            e.result.Ok? ==> |e.result.value| == |acc|
    decreases |values| - vi, |templates| - ti
  {
    if vi < |values| {
      if ti == |templates| {
        TemplatedRunKeepsCount(env, script, templates, values, vi + 1, 0, acc, log);
      } else if env.executeTemplate(templates[ti], values[vi]).Some? {
        var sql := env.executeTemplate(templates[ti], values[vi]).value;
        var answer := script(|log|, sql);
        if answer.Ok? && |answer.value| <= |acc| {
          TemplatedRunKeepsCount(env, script, templates, values, vi, ti + 1,
                                 Merge(acc, answer.value, values[vi]), log + [sql]);
        }
      }
    }
  }

  /** Every template paired with value v, in declared order. */
  function Pairs(templates: seq<Template>, v: string): (r: seq<(Template, string)>)
    ensures |r| == |templates|
    ensures forall j :: 0 <= j < |templates| ==> r[j] == (templates[j], v)
  {
    seq(|templates|, j requires 0 <= j < |templates| => (templates[j], v))
  }

  /** Every template paired with every value: values in the outer loop, templates in the inner. */
  function Plan(templates: seq<Template>, values: seq<string>): seq<(Template, string)>
    decreases |values|
  {
    if values == [] then [] else Pairs(templates, values[0]) + Plan(templates, values[1..])
  }

  /** The (template, value) pairs a templated run still renders at range value vi and template ti. */
  function PlanFrom(templates: seq<Template>, values: seq<string>, vi: nat, ti: nat): seq<(Template, string)>
    requires vi <= |values| && ti <= |templates|
    decreases |values| - vi, |templates| - ti
  {
    if vi == |values| then []
    else if ti == |templates| then PlanFrom(templates, values, vi + 1, 0)
    else [(templates[ti], values[vi])] + PlanFrom(templates, values, vi, ti + 1)
  }

  /** What remains of the current range value's row: its pairs from template ti on, then the next rows. */
  lemma {:induction false} PlanFromRow(templates: seq<Template>, values: seq<string>, vi: nat, ti: nat)
    requires vi < |values| && ti <= |templates|
    ensures PlanFrom(templates, values, vi, ti) ==
            Pairs(templates[ti..], values[vi]) + PlanFrom(templates, values, vi + 1, 0)
    decreases |templates| - ti
  {
    if ti == |templates| {
      assert Pairs(templates[ti..], values[vi]) == [];
    } else {
      PlanFromRow(templates, values, vi, ti + 1);
      PairsCons(templates, ti, values[vi]);
      var p := [(templates[ti], values[vi])];
      var next := Pairs(templates[ti + 1..], values[vi]);
      var later := PlanFrom(templates, values, vi + 1, 0);
      assert PlanFrom(templates, values, vi, ti) == p + PlanFrom(templates, values, vi, ti + 1);
      assert p + (next + later) == (p + next) + later;
    }
  }

  /** From the start of range value vi on, a templated run renders the plan of the remaining values. */
  lemma {:induction false} PlanFromValues(templates: seq<Template>, values: seq<string>, vi: nat)
    requires vi <= |values|
    ensures PlanFrom(templates, values, vi, 0) == Plan(templates, values[vi..])
    decreases |values| - vi
  {
    if vi < |values| {
      PlanFromRow(templates, values, vi, 0);
      PlanFromValues(templates, values, vi + 1);
      var rest := values[vi..];
      assert rest[0] == values[vi] && rest[1..] == values[vi + 1..];
      assert templates[0..] == templates;
    } else {
      assert values[vi..] == [];
    }
  }

  /** The pairs from template ti on are template ti's pair, then the rest. */
  lemma PairsCons(templates: seq<Template>, ti: nat, v: string)
    requires ti < |templates|
    ensures Pairs(templates[ti..], v) == [(templates[ti], v)] + Pairs(templates[ti + 1..], v)
  {
    var here := Pairs(templates[ti..], v);
    var next := Pairs(templates[ti + 1..], v);
    assert |here| == |[(templates[ti], v)] + next|;
    forall j | 0 <= j < |here| ensures here[j] == ([(templates[ti], v)] + next)[j] {
      if j > 0 {
        assert templates[ti..][j] == templates[ti + 1..][j - 1];
      }
    }
  }

  /** The whole run renders exactly the plan. */
  lemma PlanFromStart(templates: seq<Template>, values: seq<string>)
    ensures PlanFrom(templates, values, 0, 0) == Plan(templates, values)
  {
    PlanFromValues(templates, values, 0);
    assert values[0..] == values;
  }

  /** The plan holds |values| * |templates| pairs. */
  lemma {:induction false} PlanLength(templates: seq<Template>, values: seq<string>)
    ensures |Plan(templates, values)| == |values| * |templates|
    decreases |values|
  {
    if values != [] {
      PlanLength(templates, values[1..]);
      assert |values| * |templates| == |templates| + (|values| - 1) * |templates|;
    }
  }

  /** The rendered text of every planned (template, value) pair, None when one fails to render. */
  function Rendered(env: Env, plan: seq<(Template, string)>): Option<seq<string>>
  {
    if plan == [] then Some([])
    else match env.executeTemplate(plan[0].0, plan[0].1)
      case None => None
      case Some(sql) =>
        match Rendered(env, plan[1..])
        case None => None
        case Some(rest) => Some([sql] + rest)
  }

  lemma RenderedCons(env: Env, p: (Template, string), rest: seq<(Template, string)>)
    ensures Rendered(env, [p] + rest) ==
            match env.executeTemplate(p.0, p.1)
            case None => None
            case Some(sql) => if Rendered(env, rest).None? then None else Some([sql] + Rendered(env, rest).value)
  {
    assert ([p] + rest)[0] == p && ([p] + rest)[1..] == rest;
  }

  /**
   * A successful run issued exactly the rendered plan: render(t, v) for every
   * range value v in row order and, for each, every template t in declared order.
   */
  lemma {:induction false} TemplatedRunSqls(env: Env, script: (nat, string) -> Answer,
                                            templates: seq<Template>, values: seq<string>,
                                            vi: nat, ti: nat, acc: seq<ScannedResultSet>, log: seq<string>)
    requires vi <= |values| && ti <= |templates|
    ensures var e := TemplatedRun(env, script, templates, values, vi, ti, acc, log);
            e.result.Ok? ==>
              && Rendered(env, PlanFrom(templates, values, vi, ti)).Some?
              && e.sqls == log + Rendered(env, PlanFrom(templates, values, vi, ti)).value
    decreases |values| - vi, |templates| - ti
  {
    if vi < |values| {
      if ti == |templates| {
        TemplatedRunSqls(env, script, templates, values, vi + 1, 0, acc, log);
      } else if env.executeTemplate(templates[ti], values[vi]).Some? {
        var sql := env.executeTemplate(templates[ti], values[vi]).value;
        var answer := script(|log|, sql);
        if answer.Ok? && |answer.value| <= |acc| {
          var merged := Merge(acc, answer.value, values[vi]);
          TemplatedRunSqls(env, script, templates, values, vi, ti + 1, merged, log + [sql]);
          RenderedCons(env, (templates[ti], values[vi]), PlanFrom(templates, values, vi, ti + 1));
        }
      }
    }
  }

  /** A render failure anywhere in the plan aborts the run. */
  lemma RenderFailureAborts(env: Env, script: (nat, string) -> Answer, templates: seq<Template>,
                            values: seq<string>, acc: seq<ScannedResultSet>, log: seq<string>)
    requires Rendered(env, Plan(templates, values)).None?
    ensures TemplatedRun(env, script, templates, values, 0, 0, acc, log).result.Err?
  {
    TemplatedRunSqls(env, script, templates, values, 0, 0, acc, log);
    PlanFromStart(templates, values);
  }

  /** Every row ends with a range value, and so does a non-empty column list. */
  ghost predicate Tagged(a: ScannedResultSet, values: seq<string>)
  {
    && (forall k :: 0 <= k < |a.rows| ==>
          |a.rows[k]| > 0 && a.rows[k][|a.rows[k]| - 1].Str? && a.rows[k][|a.rows[k]| - 1].str in values)
    && (a.colnames != [] ==> a.colnames[|a.colnames| - 1] in values)
  }

  lemma MergeTagged(acc: seq<ScannedResultSet>, srss: seq<ScannedResultSet>, it: string, values: seq<string>)
    requires |srss| <= |acc| && it in values
    requires forall i :: 0 <= i < |acc| ==> Tagged(acc[i], values)
    ensures forall i :: 0 <= i < |acc| ==> Tagged(Merge(acc, srss, it)[i], values)
  {
    forall i | 0 <= i < |acc| ensures Tagged(Merge(acc, srss, it)[i], values) {
      if i < |srss| {
        var m := Merge(acc, srss, it)[i];
        var ext := Extend(srss[i].rows, it);
        assert m.rows == acc[i].rows + ext;
        forall k | 0 <= k < |m.rows|
          ensures |m.rows[k]| > 0 && m.rows[k][|m.rows[k]| - 1].Str? && m.rows[k][|m.rows[k]| - 1].str in values
        {
          if k >= |acc[i].rows| {
            assert m.rows[k] == srss[i].rows[k - |acc[i].rows|] + [Str(it)];
          }
        }
      }
    }
  }

  /**
   * In a successful run every accumulated row carries the range value of its
   * execution as its last value, and every written column list ends with one.
   */
  lemma {:induction false} TemplatedRunTagsRows(env: Env, script: (nat, string) -> Answer,
                                                templates: seq<Template>, values: seq<string>,
                                                vi: nat, ti: nat, acc: seq<ScannedResultSet>, log: seq<string>)
    requires vi <= |values| && ti <= |templates|
    requires forall i :: 0 <= i < |acc| ==> Tagged(acc[i], values)
    ensures var e := TemplatedRun(env, script, templates, values, vi, ti, acc, log);
            e.result.Ok? ==> forall i :: 0 <= i < |e.result.value| ==> Tagged(e.result.value[i], values)
    decreases |values| - vi, |templates| - ti
  {
    if vi < |values| {
      if ti == |templates| {
        TemplatedRunTagsRows(env, script, templates, values, vi + 1, 0, acc, log);
      } else if env.executeTemplate(templates[ti], values[vi]).Some? {
        var sql := env.executeTemplate(templates[ti], values[vi]).value;
        var answer := script(|log|, sql);
        if answer.Ok? && |answer.value| <= |acc| {
          MergeTagged(acc, answer.value, values[vi], values);
          TemplatedRunTagsRows(env, script, templates, values, vi, ti + 1,
                               Merge(acc, answer.value, values[vi]), log + [sql]);
        }
      }
    }
  }

  /** An answer with one resultset per accumulator, the i-th of which has perRows[i] rows. */
  predicate Shaped(answer: Answer, perRows: seq<nat>)
  {
    answer.Ok? ==>
      |answer.value| == |perRows| && forall i :: 0 <= i < |perRows| ==> |answer.value[i].rows| == perRows[i]
  }

  /**
   * Rows scale linearly: when every answer from here on has the same shape, accumulator i
   * gains perRows[i] rows per remaining execution, where n executions remain
   * (|values| * |templates| from the start).
   */
  lemma {:induction false} TemplatedRunRowCounts(env: Env, script: (nat, string) -> Answer,
                                                 templates: seq<Template>, values: seq<string>,
                                                 vi: nat, ti: nat, acc: seq<ScannedResultSet>,
                                                 log: seq<string>, perRows: seq<nat>, n: nat)
    requires vi <= |values| && ti <= |templates| && (vi < |values| || ti == 0)
    requires n == (|values| - vi) * |templates| - ti
    requires |perRows| == |acc|
    requires forall k: nat, q: string :: k >= |log| ==> Shaped(script(k, q), perRows)
    ensures var e := TemplatedRun(env, script, templates, values, vi, ti, acc, log);
            e.result.Ok? ==>
              && |e.result.value| == |acc|
              && forall i :: 0 <= i < |acc| ==> |e.result.value[i].rows| == |acc[i].rows| + perRows[i] * n
    decreases |values| - vi, |templates| - ti
  {
    if vi == |values| {
      assert n == 0;
    } else if ti == |templates| {
      MulSucc(|values| - (vi + 1), |templates|);
      TemplatedRunRowCounts(env, script, templates, values, vi + 1, 0, acc, log, perRows, n);
    } else if env.executeTemplate(templates[ti], values[vi]).Some? {
      MulSucc(|values| - (vi + 1), |templates|);
      assert n >= 1;
      var sql := env.executeTemplate(templates[ti], values[vi]).value;
      var answer := script(|log|, sql);
      assert Shaped(answer, perRows);
      if answer.Ok? && |answer.value| <= |acc| {
        var merged := Merge(acc, answer.value, values[vi]);
        TemplatedRunRowCounts(env, script, templates, values, vi, ti + 1, merged, log + [sql], perRows, n - 1);
        MergeRowCounts(acc, answer.value, values[vi], perRows, n - 1);
      }
    }
  }

  lemma MulSucc(a: nat, b: nat)
    ensures (a + 1) * b == a * b + b
    ensures a * b >= 0
  {
  }

  /** One merge of an answer shaped by perRows moves each accumulator one execution further. */
  lemma MergeRowCounts(acc: seq<ScannedResultSet>, srss: seq<ScannedResultSet>, it: string,
                       perRows: seq<nat>, next: nat)
    requires |srss| == |acc| == |perRows|
    requires forall i :: 0 <= i < |perRows| ==> |srss[i].rows| == perRows[i]
    ensures forall i :: 0 <= i < |acc| ==>
              |Merge(acc, srss, it)[i].rows| + perRows[i] * next == |acc[i].rows| + perRows[i] * (next + 1)
  {
    MergeMeaning(acc, srss, it);
    forall i | 0 <= i < |acc|
      ensures |Merge(acc, srss, it)[i].rows| + perRows[i] * next == |acc[i].rows| + perRows[i] * (next + 1)
    {
      assert perRows[i] * (next + 1) == perRows[i] * next + perRows[i];
    }
  }

  /** A failing range query is the only query of a templated run, and nothing is rendered. */
  lemma RangeFailureRunsNothing(env: Env, rangequery: string, templates: seq<Template>, n: nat,
                                script: (nat, string) -> Answer, log: seq<string>)
    requires RangeValues(env, script(|log|, rangequery)).Err?
    ensures TemplatedOutcome(env, rangequery, templates, n, script, log) ==
            Exec(Err(RangeValues(env, script(|log|, rangequery)).error), log + [rangequery])
  {
  }

  /** A successful templated run yields exactly one resultset per result map. */
  lemma TemplatedOutcomeCount(env: Env, rangequery: string, templates: seq<Template>, n: nat,
                              script: (nat, string) -> Answer, log: seq<string>)
    ensures var e := TemplatedOutcome(env, rangequery, templates, n, script, log);
            e.result.Ok? ==> |e.result.value| == n
  {
    var range := RangeValues(env, script(|log|, rangequery));
    if range.Ok? {
      TemplatedRunKeepsCount(env, script, templates, range.value, 0, 0, seq(n, _ => EmptySet), log + [rangequery]);
    }
  }

  /**
   * Whatever the range query answers, when every template execution after it
   * answers resultset i with perRows[i] rows, a successful templated run has
   * perRows[i] rows in accumulator i per range value and template.
   */
  lemma TemplatedOutcomeRowCounts(env: Env, rangequery: string, templates: seq<Template>, n: nat,
                                  script: (nat, string) -> Answer, log: seq<string>, perRows: seq<nat>)
    requires RangeValues(env, script(|log|, rangequery)).Ok?
    requires |perRows| == n
    requires forall k: nat, q: string :: k > |log| ==> Shaped(script(k, q), perRows)
    ensures var values := RangeValues(env, script(|log|, rangequery)).value;
            var e := TemplatedOutcome(env, rangequery, templates, n, script, log);
            e.result.Ok? ==>
              && |e.result.value| == n
              && forall i :: 0 <= i < n ==> |e.result.value[i].rows| == perRows[i] * (|values| * |templates|)
  {
    var values := RangeValues(env, script(|log|, rangequery)).value;
    var acc := seq(n, _ => EmptySet);
    TemplatedRunRowCounts(env, script, templates, values, 0, 0, acc, log + [rangequery], perRows,
                          |values| * |templates|);
  }

  /** The templated strategy's Run: nothing is rendered when getRange fails. */
  function TemplatedOutcome(env: Env, rangequery: string, templates: seq<Template>, n: nat,
                            script: (nat, string) -> Answer, log: seq<string>): Exec
  {
    var range := RangeValues(env, script(|log|, rangequery));
    if range.Err? then Exec(Err(range.error), log + [rangequery])
    else TemplatedRun(env, script, templates, range.value, 0, 0, seq(n, _ => EmptySet), log + [rangequery])
  }

  /** MetricQueryRecipeTemplated.runQueries: accumulators in an array, updated in place. */
  method RunTemplatedQueries(env: Env, templates: seq<Template>, itover: seq<string>, n: nat,
                             conn: ScriptedConn)
    returns (r: Result<seq<ScannedResultSet>, RunError>)
    modifies conn
    ensures r == TemplatedRun(env, conn.script, templates, itover, 0, 0, seq(n, _ => EmptySet), old(conn.sqls)).result
    ensures conn.sqls == TemplatedRun(env, conn.script, templates, itover, 0, 0, seq(n, _ => EmptySet), old(conn.sqls)).sqls
    ensures conn.closes == old(conn.closes)
  {
    ghost var spec := TemplatedRun(env, conn.script, templates, itover, 0, 0, seq(n, _ => EmptySet), old(conn.sqls));
    var accsrs := new ScannedResultSet[n](_ => EmptySet);
    assert accsrs[..] == seq(n, _ => EmptySet);
    var vi := 0;
    while vi < |itover|
      invariant 0 <= vi <= |itover|
      invariant conn.closes == old(conn.closes)
      invariant spec == TemplatedRun(env, conn.script, templates, itover, vi, 0, accsrs[..], conn.sqls)
    {
      var it := itover[vi];
      var ti := 0;
      while ti < |templates|
        invariant 0 <= ti <= |templates|
        invariant conn.closes == old(conn.closes)
        invariant spec == TemplatedRun(env, conn.script, templates, itover, vi, ti, accsrs[..], conn.sqls)
      {
        var rendered := env.executeTemplate(templates[ti], it);
        if rendered.None? {
          return Err(RenderFailed(templates[ti], it));
        }
        var sql := rendered.value;
        var srss := conn.Query(sql);
        if srss.Err? {
          return Err(QueryFailed(sql, srss.error));
        }
        if |srss.value| > accsrs.Length {
          return Err(ResultSetOutOfRange(accsrs.Length));
        }
        MergeInto(accsrs, srss.value, it);
        ti := ti + 1;
      }
      vi := vi + 1;
    }
    r := Ok(accsrs[..]);
  }

  /** The loop over one execution's resultsets: accumulator i takes resultset i. */
  method MergeInto(accsrs: array<ScannedResultSet>, srss: seq<ScannedResultSet>, it: string)
    requires |srss| <= accsrs.Length
    modifies accsrs
    ensures accsrs[..] == Merge(old(accsrs[..]), srss, it)
  {
    ghost var before := accsrs[..];
    var i := 0;
    while i < |srss|
      invariant 0 <= i <= |srss|
      invariant forall k :: 0 <= k < accsrs.Length ==>
        accsrs[k] == if k < i then Merge(before, srss, it)[k] else before[k]
    {
      var srs := srss[i];
      var rows := accsrs[i].rows;
      var j := 0;
      while j < |srs.rows|
        invariant 0 <= j <= |srs.rows|
        invariant rows == before[i].rows + Extend(srs.rows[..j], it)
      {
        rows := rows + [srs.rows[j] + [Str(it)]];
        j := j + 1;
        assert Extend(srs.rows[..j], it) == Extend(srs.rows[..j - 1], it) + [srs.rows[j - 1] + [Str(it)]];
      }
      assert srs.rows[..j] == srs.rows;
      accsrs[i] := ScannedResultSet(srs.colnames + [it], rows);
      i := i + 1;
    }
    assert accsrs[..] == Merge(before, srss, it);
  }

  /** MetricQueryRecipeTemplated.Run. */
  method RunTemplated(env: Env, rangequery: string, templates: seq<Template>, n: nat, conn: ScriptedConn)
    returns (r: Result<seq<ScannedResultSet>, RunError>)
    modifies conn
    ensures r == TemplatedOutcome(env, rangequery, templates, n, conn.script, old(conn.sqls)).result
    ensures conn.sqls == TemplatedOutcome(env, rangequery, templates, n, conn.script, old(conn.sqls)).sqls
    ensures conn.closes == old(conn.closes)
  {
    var itover := GetRange(env, rangequery, conn);
    if itover.Err? {
      return Err(itover.error);
    }
    r := RunTemplatedQueries(env, templates, itover.value, n, conn);
  }

  // ---------------------------------------------------------------- dispatch

  /** What running a recipe does: its outcome and the connection's log afterwards. */
  function RunOutcome(env: Env, recipe: Recipe, script: (nat, string) -> Answer, log: seq<string>): Exec
  {
    match recipe
    case Simple(ns, rms, qs) => SimpleOutcome(ns, |rms|, qs, script, log)
    case Templated(_, rms, rq, ts) => TemplatedOutcome(env, rq, ts, |rms|, script, log)
  }

  /** MetricQueryRecipe.Run. */
  method Run(env: Env, recipe: Recipe, conn: ScriptedConn) returns (r: Result<seq<ScannedResultSet>, RunError>)
    modifies conn
    ensures r == RunOutcome(env, recipe, conn.script, old(conn.sqls)).result
    ensures conn.sqls == RunOutcome(env, recipe, conn.script, old(conn.sqls)).sqls
    ensures conn.closes == old(conn.closes)
  {
    match recipe
    case Simple(ns, rms, qs) => r := RunSimple(ns, |rms|, qs, conn);
    case Templated(_, rms, rq, ts) => r := RunTemplated(env, rq, ts, |rms|, conn);
  }
}
