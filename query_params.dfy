/**
 * The request parameters `fetchCovid19Data` sends to the US counties
 * cases-by-time feature service: one fixed record for a county query and
 * one for a state query, chosen by whether a county FIPS code is given.
 */
module QueryParams {
  import opened Wrappers

  /** One entry of `outStatistics`: a server-side aggregation of one field. */
  datatype Statistic = Statistic(
    statisticType: string,
    onStatisticField: string,
    outStatisticFieldName: string)

  /**
   * The parameter record. The county record has no
   * `groupByFieldsForStatistics` and no `outStatistics` key at all, which
   * is what `None` stands for; `outStatistics` is kept as the list of
   * descriptors, before it is turned into JSON text.
   */
  datatype Params = Params(
    f: string,
    where: string,
    outFields: string,
    orderByFields: string,
    groupByFieldsForStatistics: Option<string>,
    outStatistics: Option<seq<Statistic>>)

  /** JavaScript truthiness of a string: only the empty string is falsy. */
  predicate Truthy(s: string)
  {
    s != ""
  }

  /**
   * Reads the value back out of a `column='value'` predicate; `None` when
   * the text does not have that form.
   */
  function QuotedValue(column: string, where: string): (r: Option<string>)
    ensures r.Some? ==> where == column + "='" + r.value + "'"
  {
    var prefix := column + "='";
    if |where| > |prefix| && where[..|prefix|] == prefix && where[|where| - 1] == '\'' then
      var v := where[|prefix|..|where| - 1];
      assert where == prefix + v + "'";
      Some(v)
    else
      None
  }

  /**
   * The equality predicate `column='value'` of the `where` parameter; the
   * value spliced in is read back unchanged.
   */
  function Quoted(column: string, value: string): (w: string)
    ensures QuotedValue(column, w) == Some(value)
  {
    var prefix := column + "='";
    var w := prefix + value + "'";
    assert w[..|prefix|] == prefix;
    assert w[|prefix|..|w| - 1] == value;
    assert column + "='" + value + "'" == w;
    w
  }

  /** Fields a county query asks for. */
  const CountyOutFields: string := "dt,Confirmed,Deaths,NewCases,Population"

  /** Fields a state query groups by. */
  const StateGroupByFields: string := "ST_Name,dt"

  /** A `sum` aggregation whose output keeps the input field's name. */
  function SumStatistic(field: string): Statistic
  {
    Statistic("sum", field, field)
  }

  /** The four aggregations of a state query, in the order they are sent. */
  const StateStatistics: seq<Statistic> := [
    SumStatistic("Confirmed"),
    SumStatistic("Deaths"),
    SumStatistic("NewCases"),
    SumStatistic("Population")
  ]

  /** The county record: an exact FIPS match, a fixed field list, ordered by date. */
  function CountyParams(countyFIPS: string): (p: Params)
    ensures !IsStateQuery(p) && p.outStatistics.None?
    ensures FilterValue(p) == Some(countyFIPS)
  {
    Params("json", Quoted("FIPS", countyFIPS), CountyOutFields, "dt", None, None)
  }

  /**
   * The state record: an exact state-name match whose county rows the
   * service sums per state and day.
   */
  function StateParams(stateName: string): (p: Params)
    ensures IsStateQuery(p) && p.outStatistics.Some?
    ensures FilterValue(p) == Some(stateName)
  {
    Params("json", Quoted("ST_Name", stateName), "*", "dt",
           Some(StateGroupByFields), Some(StateStatistics))
  }

  /** The conditional expression that chooses the record. */
  function BuildParams(countyFIPS: string, stateName: string): (p: Params)
    ensures IsStateQuery(p) <==> !Truthy(countyFIPS)
    ensures FilterValue(p) == Some(if Truthy(countyFIPS) then countyFIPS else stateName)
  {
    if Truthy(countyFIPS) then CountyParams(countyFIPS) else StateParams(stateName)
  }

  /** Whether a record is a state (grouped and aggregated) query. */
  predicate IsStateQuery(p: Params)
  {
    p.groupByFieldsForStatistics.Some?
  }

  /** The identifier a record filters on, read back from its `where` text. */
  function FilterValue(p: Params): Option<string>
  {
    if IsStateQuery(p) then QuotedValue("ST_Name", p.where) else QuotedValue("FIPS", p.where)
  }

  /**
   * Both records are JSON requests ordered by date, and the query kind
   * is chosen by the truthiness of the county FIPS alone: a county query
   * filters on that FIPS and has neither grouping nor statistics, a state
   * query filters on the state name.
   */
  lemma BuildParamsBranches(countyFIPS: string, stateName: string)
    ensures BuildParams(countyFIPS, stateName).f == "json"
    ensures BuildParams(countyFIPS, stateName).orderByFields == "dt"
    ensures IsStateQuery(BuildParams(countyFIPS, stateName)) <==> countyFIPS == ""
    ensures countyFIPS != "" ==>
      BuildParams(countyFIPS, stateName).outFields == CountyOutFields &&
      BuildParams(countyFIPS, stateName).outStatistics.None? &&
      FilterValue(BuildParams(countyFIPS, stateName)) == Some(countyFIPS)
    ensures countyFIPS == "" ==>
      BuildParams(countyFIPS, stateName).outFields == "*" &&
      BuildParams(countyFIPS, stateName).groupByFieldsForStatistics == Some(StateGroupByFields) &&
      BuildParams(countyFIPS, stateName).outStatistics == Some(StateStatistics) &&
      FilterValue(BuildParams(countyFIPS, stateName)) == Some(stateName)
  {
  }

  /**
   * Every statistic of a state query is a `sum` whose output field is
   * named after its input field.
   */
  lemma StateStatisticsAreSelfNamedSums(stateName: string)
    ensures StateParams(stateName).outStatistics.Some?
    ensures var stats := StateParams(stateName).outStatistics.value;
      |stats| == 4 &&
      forall i :: 0 <= i < |stats| ==>
        stats[i].statisticType == "sum" &&
        stats[i].outStatisticFieldName == stats[i].onStatisticField
  {
  }

  /** The fields a list of statistics aggregates, in order. */
  function OnFields(stats: seq<Statistic>): seq<string>
  {
    if stats == [] then [] else [stats[0].onStatisticField] + OnFields(stats[1..])
  }

  /** Field names separated by commas, as the `outFields` parameter writes them. */
  function JoinFields(fields: seq<string>): string
  {
    if |fields| == 0 then ""
    else if |fields| == 1 then fields[0]
    else fields[0] + "," + JoinFields(fields[1..])
  }

  /** The four summed fields, in the order `outStatistics` lists them. */
  lemma StateStatisticsFields()
    ensures OnFields(StateStatistics) == ["Confirmed", "Deaths", "NewCases", "Population"]
  {
    var stats := StateStatistics;
    assert OnFields(stats[3..]) == ["Population"];
    assert OnFields(stats[2..]) == ["NewCases", "Population"];
    assert OnFields(stats[1..]) == ["Deaths", "NewCases", "Population"];
  }

  /** `JoinFields` of four names puts a comma between each neighbouring pair. */
  lemma JoinFour(a: string, b: string, c: string, d: string)
    ensures JoinFields([a, b, c, d]) == a + "," + (b + "," + (c + "," + d))
  {
    assert [c, d][1..] == [d];
    assert JoinFields([c, d]) == c + "," + d;
    assert [b, c, d][1..] == [c, d];
    assert JoinFields([b, c, d]) == b + "," + JoinFields([c, d]);
    assert [a, b, c, d][1..] == [b, c, d];
  }

  /** The county field list is the date followed by the four summed fields. */
  lemma CountyOutFieldsSplit()
    ensures CountyOutFields == "dt," + "Confirmed,Deaths,NewCases,Population"
  {
  }

  /**
   * The state query sums exactly the fields the county query asks for
   * after the date, so both kinds of query ask for the same four measures
   * after `dt`, in the same order.
   */
  lemma StateSumsMirrorCountyFields(countyFIPS: string, stateName: string)
    ensures "dt," + JoinFields(OnFields(StateParams(stateName).outStatistics.value)) ==
            CountyParams(countyFIPS).outFields
  {
    StateStatisticsFields();
    JoinFour("Confirmed", "Deaths", "NewCases", "Population");
    CountyOutFieldsSplit();
  }

  /**
   * Distinct identifiers give distinct requests within one kind of query,
   * and a county query never equals a state query.
   */
  lemma BuildParamsInjective(c1: string, s1: string, c2: string, s2: string)
    requires BuildParams(c1, s1) == BuildParams(c2, s2)
    ensures Truthy(c1) <==> Truthy(c2)
    ensures Truthy(c1) ==> c1 == c2
    ensures !Truthy(c1) ==> s1 == s2
  {
    BuildParamsBranches(c1, s1);
    BuildParamsBranches(c2, s2);
  }
}
