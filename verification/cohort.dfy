/** `Cohort` of the raiwidgets cohort SDK: a named cohort whose filter list starts out as
    no list at all (`None`), becomes a one-element list on the first addition and grows at
    its end after that. */
module Cohorts {
  import opened Wrappers
  import opened PyValues
  import opened CohortFilters

  /** What `add_cohort_filter` may be handed: a `CohortFilter` object (shared, not copied)
      or any other Python value. */
  datatype FilterArgument = IsFilter(f: CohortFilter) | NotAFilter(v: PyValue)

  function CohortNameTypeMessage(name: PyValue): (message: string)
  {
    "Got unexpected type " + TypeRepr(name) + " for cohort name. " + "Expected string type."
  }

  function FilterTypeMessage(v: PyValue): (message: string)
  {
    "Got unexpected type " + TypeRepr(v) + " for cohort filter. " + "Expected CohortFilter type."
  }

  class Cohort {
    var name: string
    var cohortFilterList: Option<seq<CohortFilter>>

    /** The list exists only once a filter has been added, so it is never an empty list. */
    ghost predicate Valid()
      reads this
    {
      cohortFilterList != Some([])
    }

    /** The filters added so far, in order of addition (none while there is no list). */
    function Filters(): (fs: seq<CohortFilter>)
      reads this
    {
      match cohortFilterList
      case None => []
      case Some(fs) => fs
    }

    /** The field assignments that end `__init__` once the name has been checked. */
    constructor (name: string)
      ensures Valid()
      ensures this.name == name && cohortFilterList == None
    {
      this.name := name;
      cohortFilterList := None;
    }

    /** `add_cohort_filter`: anything but a `CohortFilter` is rejected and changes nothing;
        a filter is appended at the end of the list, which is created on first use. The
        name never changes. */
    method AddCohortFilter(x: FilterArgument) returns (r: Outcome<ValidationError>)
      requires Valid()
      modifies this`cohortFilterList
      ensures Valid()
      ensures x.NotAFilter? ==>
        r == Fail(UserConfigValidationException(FilterTypeMessage(x.v))) &&
        cohortFilterList == old(cohortFilterList)
      ensures x.IsFilter? ==>
        r == Pass && cohortFilterList == Some(old(Filters()) + [x.f])
    {
      if x.NotAFilter? {
        return Fail(UserConfigValidationException(FilterTypeMessage(x.v)));
      }
      if cohortFilterList.None? {
        assert Filters() + [x.f] == [x.f];
        cohortFilterList := Some([x.f]);
      } else {
        cohortFilterList := Some(cohortFilterList.value + [x.f]);
      }
      r := Pass;
    }

    /** `_validate_with_test_data`: nothing to do without a list; otherwise every filter's own
        check runs, in list order. `checked` collects the filter each call reports it ran for,
        so it equals the list. Since each of those checks is a no-op, the cohort is never
        rejected. */
    method ValidateWithTestData(testData: PyValue, targetColumn: PyValue)
      returns (r: Outcome<ValidationError>, ghost checked: seq<CohortFilter>)
      ensures r == Pass
      ensures checked == Filters()
    {
      checked := [];
      if cohortFilterList.None? {
        return Pass, checked;
      }
      var fs := cohortFilterList.value;
      for i := 0 to |fs|
        invariant checked == fs[..i]
      {
        var outcome, visited := fs[i].ValidateWithTestData(testData, targetColumn);
        checked := checked + [visited];
        if outcome.Fail? {
          return outcome, checked;
        }
      }
      r := Pass;
    }
  }

  /** `Cohort(name)`: a name that is not a string is rejected; otherwise the new cohort has
      that name and no filter list. */
  method NewCohort(name: PyValue) returns (r: Result<Cohort, ValidationError>)
    ensures r.Failure? <==> !name.PyStr?
    ensures r.Failure? ==> r.error == UserConfigValidationException(CohortNameTypeMessage(name))
    ensures r.Success? ==>
      fresh(r.value) && r.value.Valid() &&
      r.value.name == name.s && r.value.cohortFilterList == None
  {
    if !name.PyStr? {
      return Failure(UserConfigValidationException(CohortNameTypeMessage(name)));
    }
    var c := new Cohort(name.s);
    r := Success(c);
  }

  /** The two type errors the unit tests expect: an int as a cohort name, a list as a filter. */
  lemma CohortErrorsReported()
    ensures CohortNameTypeMessage(PyInt(1))
         == "Got unexpected type " + "<class 'int'>" + " for cohort name. " + "Expected string type."
    ensures FilterTypeMessage(PyList([]))
         == "Got unexpected type " + "<class 'list'>" + " for cohort filter. "
            + "Expected CohortFilter type."
  {
  }

  /** One filter object added to two cohorts: both lists hold that very object, and adding
      it to the second cohort leaves the first as it was. */
  method SharedFilterScenario() returns (c1: Cohort, c2: Cohort, f: CohortFilter)
    ensures c1 != c2
    ensures c1.cohortFilterList == Some([f]) && c2.cohortFilterList == Some([f])
    ensures c1.name == "Cohort New" && c2.name == "Cohort Old"
  {
    var made := NewCohortFilter(PyStr(METHOD_LESS), PyList([PyInt(65)]), PyStr("age"));
    assert IsNumber(PyInt(65));
    assert METHOD_LESS in SINGLE_VALUE_METHODS;
    f := made.value;
    c1 := new Cohort("Cohort New");
    var r1 := c1.AddCohortFilter(IsFilter(f));
    c2 := new Cohort("Cohort Old");
    var r2 := c2.AddCohortFilter(IsFilter(f));
    assert [] + [f] == [f];
  }
}
