/** `cohort_filter_json_converter`, the `default=` hook `json.dumps` calls for objects it
    cannot encode itself: a filter or a cohort becomes the dictionary of its fields. */
module JsonConverter {
  import opened Wrappers
  import opened PyValues
  import opened CohortFilters
  import opened Cohorts

  /** The objects the converter is handed by the SDK's own serialisation. */
  datatype Convertible = FilterObject(f: CohortFilter) | CohortObject(c: Cohort)
  {
    /** The mutable state the conversion reads. */
    function Footprint(): (objs: set<object>)
    {
      if CohortObject? then {c} else {}
    }
  }

  /** A value in a field dictionary. `FilterList` holds the filter objects themselves, which
      `json.dumps` hands back to the converter one by one. */
  datatype Field =
    | Text(s: string)
    | Values(items: seq<PyValue>)
    | Null
    | FilterList(filters: seq<CohortFilter>)

  type FieldDict = map<string, Field>

  /** `obj.__dict__`: a filter gives exactly `method`, `arg` and `column`; a cohort, which has
      no `to_json`, gives exactly `name` and `cohort_filter_list`, the latter null while no
      filter has been added. */
  function CohortFilterJsonConverter(obj: Convertible): (d: FieldDict)
    reads obj.Footprint()
    ensures obj.FilterObject? ==> d.Keys == {"method", "arg", "column"}
    ensures obj.CohortObject? ==> d.Keys == {"name", "cohort_filter_list"}
  {
    match obj
    case FilterObject(f) =>
      map["method" := Text(f.filterMethod), "arg" := Values(f.arg), "column" := Text(f.column)]
    case CohortObject(c) =>
      map["name" := Text(c.name),
          "cohort_filter_list" := match c.cohortFilterList
                                  case None => Null
                                  case Some(fs) => FilterList(fs)]
  }

  /** Reads a filter's parameters back out of its dictionary, if it has the right shape. */
  function FilterFieldsOf(d: FieldDict): (fields: Option<(string, seq<PyValue>, string)>)
  {
    if "method" in d && "arg" in d && "column" in d
       && d["method"].Text? && d["arg"].Values? && d["column"].Text?
    then Some((d["method"].s, d["arg"].items, d["column"].s))
    else None
  }

  /** The dictionary of a filter holds its method, arg and column unchanged. */
  lemma FilterDictRoundTrip(f: CohortFilter)
    ensures FilterFieldsOf(CohortFilterJsonConverter(FilterObject(f)))
         == Some((f.filterMethod, f.arg, f.column))
  {
  }

  /** What is serialised for a valid filter passes the parameter checks again when read
      back. */
  lemma FilterDictRevalidates(f: CohortFilter)
    requires f.Valid()
    ensures var fields := FilterFieldsOf(CohortFilterJsonConverter(FilterObject(f)));
      fields.Some? &&
      ValidateCohortFilterParameters(PyStr(fields.value.0), PyList(fields.value.1),
                                     PyStr(fields.value.2)) == Pass
  {
  }

  /** The dictionary of a cohort carries its name, and its filter list is null exactly when
      no filter has been added; otherwise it lists the added filters in order. */
  lemma CohortDictListsFilters(c: Cohort)
    requires c.Valid()
    ensures CohortFilterJsonConverter(CohortObject(c))["name"] == Text(c.name)
    ensures CohortFilterJsonConverter(CohortObject(c))["cohort_filter_list"] == Null
        <==> c.Filters() == []
    ensures CohortFilterJsonConverter(CohortObject(c))["cohort_filter_list"] != Null ==>
      CohortFilterJsonConverter(CohortObject(c))["cohort_filter_list"] == FilterList(c.Filters())
  {
  }

  /** The dictionaries the cohort-list serialisation test inspects: two cohorts, "Cohort New"
      and "Cohort Old", each holding the same "less" filter on age with argument 65, and that
      filter itself. */
  method SerializedCohortScenario()
    returns (newDict: FieldDict, oldDict: FieldDict, filterDict: FieldDict)
    ensures newDict.Keys == {"name", "cohort_filter_list"}
    ensures oldDict.Keys == {"name", "cohort_filter_list"}
    ensures newDict["name"] == Text("Cohort New")
    ensures oldDict["name"] == Text("Cohort Old")
    ensures newDict["cohort_filter_list"].FilterList?
    ensures |newDict["cohort_filter_list"].filters| == 1
    ensures oldDict["cohort_filter_list"] == newDict["cohort_filter_list"]
    ensures filterDict == map["method" := Text("less"), "arg" := Values([PyInt(65)]),
                              "column" := Text("age")]
  {
    var made := NewCohortFilter(PyStr(METHOD_LESS), PyList([PyInt(65)]), PyStr("age"));
    assert IsNumber(PyInt(65));
    assert METHOD_LESS in SINGLE_VALUE_METHODS;
    var f := made.value;
    var c1 := new Cohort("Cohort New");
    var added1 := c1.AddCohortFilter(IsFilter(f));
    var c2 := new Cohort("Cohort Old");
    var added2 := c2.AddCohortFilter(IsFilter(f));
    assert [] + [f] == [f];
    newDict := CohortFilterJsonConverter(CohortObject(c1));
    oldDict := CohortFilterJsonConverter(CohortObject(c2));
    filterDict := CohortFilterJsonConverter(FilterObject(newDict["cohort_filter_list"].filters[0]));
  }
}
