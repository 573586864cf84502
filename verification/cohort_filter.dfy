/** `CohortFilterMethods` and `CohortFilter` of the raiwidgets cohort SDK: the catalogue of
    filter methods, the ordered chain of checks a filter's parameters must pass, and the
    filter object that stores them. */
module CohortFilters {
  import opened Wrappers
  import opened PyValues
  import PyText

  // ---------------------------------------------------------------------------------------
  // CohortFilterMethods
  // ---------------------------------------------------------------------------------------

  const METHOD_GREATER: string := "greater"
  const METHOD_GREATER_AND_EQUAL: string := "greater and equal"
  const METHOD_LESS: string := "less"
  const METHOD_LESS_AND_EQUAL: string := "less and equal"
  const METHOD_EQUAL: string := "equal"
  const METHOD_INCLUDES: string := "includes"
  const METHOD_EXCLUDES: string := "excludes"
  const METHOD_RANGE: string := "in the range of"

  /** Every filter method, in the order the error message lists them. */
  const ALL: seq<string> := [METHOD_GREATER, METHOD_GREATER_AND_EQUAL, METHOD_LESS,
                             METHOD_LESS_AND_EQUAL, METHOD_EQUAL, METHOD_INCLUDES,
                             METHOD_EXCLUDES, METHOD_RANGE]

  /** The methods that compare against one number, in their declared order. */
  const SINGLE_VALUE_METHODS: seq<string> := [METHOD_GREATER_AND_EQUAL, METHOD_GREATER,
                                              METHOD_LESS_AND_EQUAL, METHOD_LESS, METHOD_EQUAL]

  /** `UserConfigValidationException`, with the message it is raised with. */
  datatype ValidationError = UserConfigValidationException(message: string)

  /** `method in CohortFilterMethods.ALL`: in this model, only a `PyStr` can equal one of the
      entries. */
  predicate IsKnownMethod(filterMethod: PyValue)
  {
    filterMethod.PyStr? && filterMethod.s in ALL
  }

  predicate IsSingleValueMethod(filterMethod: PyValue)
  {
    filterMethod.PyStr? && filterMethod.s in SINGLE_VALUE_METHODS
  }

  predicate IsRangeMethod(filterMethod: PyValue)
  {
    filterMethod == PyStr(METHOD_RANGE)
  }

  // ---------------------------------------------------------------------------------------
  // Error messages
  // ---------------------------------------------------------------------------------------

  function UnknownMethodMessage(filterMethod: PyValue): (message: string)
  {
    "Got unexpected value " + Str(filterMethod) + " for method. "
      + "Expected either of " + PyText.Join(" or ", ALL) + "."
  }

  function ColumnTypeMessage(column: PyValue): (message: string)
  {
    "Got unexpected type " + TypeRepr(column) + " for column. " + "Expected string type."
  }

  function ArgTypeMessage(arg: PyValue): (message: string)
  {
    "Got unexpected type " + TypeRepr(arg) + " for arg. " + "Expected list type."
  }

  const EMPTY_ARG_MESSAGE: string := "Empty list supplied for arg."

  const SINGLE_VALUE_ARITY_MESSAGE: string :=
    "Expected a single value in arg " + "for cohort methods "
      + PyText.Join(" or ", SINGLE_VALUE_METHODS) + "."

  const SINGLE_VALUE_TYPE_MESSAGE: string :=
    "Expected int or float type for " + "arg with cohort methods "
      + PyText.Join(" or ", SINGLE_VALUE_METHODS) + "."

  const RANGE_ARITY_MESSAGE: string :=
    "Expected two entries in arg for " + "cohort method " + METHOD_RANGE + "."

  const RANGE_TYPE_MESSAGE: string :=
    "Expected int or float type for arg " + "with cohort method " + METHOD_RANGE + "."

  // ---------------------------------------------------------------------------------------
  // The validator
  // ---------------------------------------------------------------------------------------

  /** When a filter may be built: a known method, a string column, a non-empty list of
      arguments, exactly one number for the single-value methods and exactly two numbers
      (in either order) for "in the range of". Includes and excludes take any elements. */
  ghost predicate Acceptable(filterMethod: PyValue, arg: PyValue, column: PyValue)
  {
    && IsKnownMethod(filterMethod)
    && column.PyStr?
    && arg.PyList? && |arg.items| > 0
    && (IsSingleValueMethod(filterMethod) ==> |arg.items| == 1 && IsNumber(arg.items[0]))
    && (IsRangeMethod(filterMethod) ==>
          |arg.items| == 2 && IsNumber(arg.items[0]) && IsNumber(arg.items[1]))
  }

  /** `CohortFilter._validate_cohort_filter_parameters`: the checks run in a fixed order and
      the first one that fails raises. It passes exactly on the acceptable parameters. */
  function ValidateCohortFilterParameters(filterMethod: PyValue, arg: PyValue, column: PyValue)
    : (r: Outcome<ValidationError>)
    ensures r.Pass? <==> Acceptable(filterMethod, arg, column)
  {
    if !IsKnownMethod(filterMethod) then
      Fail(UserConfigValidationException(UnknownMethodMessage(filterMethod)))
    else if !column.PyStr? then
      Fail(UserConfigValidationException(ColumnTypeMessage(column)))
    else if !arg.PyList? then
      Fail(UserConfigValidationException(ArgTypeMessage(arg)))
    else if |arg.items| == 0 then
      Fail(UserConfigValidationException(EMPTY_ARG_MESSAGE))
    else if IsSingleValueMethod(filterMethod) && |arg.items| != 1 then
      Fail(UserConfigValidationException(SINGLE_VALUE_ARITY_MESSAGE))
    else if IsSingleValueMethod(filterMethod) && !IsNumber(arg.items[0]) then
      Fail(UserConfigValidationException(SINGLE_VALUE_TYPE_MESSAGE))
    else if IsRangeMethod(filterMethod) && |arg.items| != 2 then
      Fail(UserConfigValidationException(RANGE_ARITY_MESSAGE))
    else if IsRangeMethod(filterMethod) && (!IsNumber(arg.items[0]) || !IsNumber(arg.items[1])) then
      Fail(UserConfigValidationException(RANGE_TYPE_MESSAGE))
    else
      Pass
  }

  // ---------------------------------------------------------------------------------------
  // The checks as a table, to state their order
  // ---------------------------------------------------------------------------------------

  datatype Check =
    | KnownMethod | ColumnIsString | ArgIsList | ArgNotEmpty
    | SingleValueArity | SingleValueType | RangeArity | RangeType

  /** The order in which the validator runs its checks. */
  const CHECK_ORDER: seq<Check> := [KnownMethod, ColumnIsString, ArgIsList, ArgNotEmpty,
                                    SingleValueArity, SingleValueType, RangeArity, RangeType]

  /** Whether one check, taken on its own, is satisfied. A check about the elements of `arg`
      is vacuous when `arg` is not a list long enough to have them. */
  predicate Passes(c: Check, filterMethod: PyValue, arg: PyValue, column: PyValue)
  {
    match c
    case KnownMethod => IsKnownMethod(filterMethod)
    case ColumnIsString => column.PyStr?
    case ArgIsList => arg.PyList?
    case ArgNotEmpty => arg.PyList? ==> |arg.items| != 0
    case SingleValueArity => IsSingleValueMethod(filterMethod) && arg.PyList? ==> |arg.items| == 1
    case SingleValueType =>
      IsSingleValueMethod(filterMethod) && arg.PyList? && |arg.items| >= 1 ==> IsNumber(arg.items[0])
    case RangeArity => IsRangeMethod(filterMethod) && arg.PyList? ==> |arg.items| == 2
    case RangeType =>
      IsRangeMethod(filterMethod) && arg.PyList? && |arg.items| >= 2 ==>
        IsNumber(arg.items[0]) && IsNumber(arg.items[1])
  }

  /** The message the check raises with when it fails. */
  function CheckMessage(c: Check, filterMethod: PyValue, arg: PyValue, column: PyValue)
    : (message: string)
  {
    match c
    case KnownMethod => UnknownMethodMessage(filterMethod)
    case ColumnIsString => ColumnTypeMessage(column)
    case ArgIsList => ArgTypeMessage(arg)
    case ArgNotEmpty => EMPTY_ARG_MESSAGE
    case SingleValueArity => SINGLE_VALUE_ARITY_MESSAGE
    case SingleValueType => SINGLE_VALUE_TYPE_MESSAGE
    case RangeArity => RANGE_ARITY_MESSAGE
    case RangeType => RANGE_TYPE_MESSAGE
  }

  /** The parameters are acceptable exactly when every check in the table passes. */
  lemma AcceptableIffAllChecksPass(filterMethod: PyValue, arg: PyValue, column: PyValue)
    ensures Acceptable(filterMethod, arg, column)
        <==> forall k :: 0 <= k < |CHECK_ORDER| ==> Passes(CHECK_ORDER[k], filterMethod, arg, column)
  {
    if forall k :: 0 <= k < |CHECK_ORDER| ==> Passes(CHECK_ORDER[k], filterMethod, arg, column) {
      assert Passes(CHECK_ORDER[0], filterMethod, arg, column);
      assert Passes(CHECK_ORDER[1], filterMethod, arg, column);
      assert Passes(CHECK_ORDER[2], filterMethod, arg, column);
      assert Passes(CHECK_ORDER[3], filterMethod, arg, column);
      assert Passes(CHECK_ORDER[4], filterMethod, arg, column);
      assert Passes(CHECK_ORDER[5], filterMethod, arg, column);
      assert Passes(CHECK_ORDER[6], filterMethod, arg, column);
      assert Passes(CHECK_ORDER[7], filterMethod, arg, column);
    }
  }

  /** The first failing check in `CHECK_ORDER` decides the error: whatever later checks
      would say, the validator raises with that check's message. */
  lemma FirstFailingCheckDecides(filterMethod: PyValue, arg: PyValue, column: PyValue, k: nat)
    requires k < |CHECK_ORDER|
    requires forall j :: 0 <= j < k ==> Passes(CHECK_ORDER[j], filterMethod, arg, column)
    requires !Passes(CHECK_ORDER[k], filterMethod, arg, column)
    ensures ValidateCohortFilterParameters(filterMethod, arg, column)
         == Fail(UserConfigValidationException(CheckMessage(CHECK_ORDER[k], filterMethod, arg, column)))
  {
    var m, a, c := filterMethod, arg, column;
    if k >= 1 { assert Passes(CHECK_ORDER[0], m, a, c); }
    if k >= 2 { assert Passes(CHECK_ORDER[1], m, a, c); }
    if k >= 3 { assert Passes(CHECK_ORDER[2], m, a, c); }
    if k >= 4 { assert Passes(CHECK_ORDER[3], m, a, c); }
    if k >= 5 { assert Passes(CHECK_ORDER[4], m, a, c); }
    if k >= 6 { assert Passes(CHECK_ORDER[5], m, a, c); }
    if k >= 7 { assert Passes(CHECK_ORDER[6], m, a, c); }
  }

  // ---------------------------------------------------------------------------------------
  // Properties of the catalogue and of the validator
  // ---------------------------------------------------------------------------------------

  /** Eight distinct methods; the five single-value ones are among them, and the other three
      are includes, excludes and "in the range of". */
  lemma CatalogueShape()
    ensures |ALL| == 8 && |SINGLE_VALUE_METHODS| == 5
    ensures forall i, j :: 0 <= i < j < |ALL| ==> ALL[i] != ALL[j]
    ensures forall m :: m in SINGLE_VALUE_METHODS ==> m in ALL
    ensures forall m :: m in ALL && m !in SINGLE_VALUE_METHODS <==>
      m == METHOD_INCLUDES || m == METHOD_EXCLUDES || m == METHOD_RANGE
  {
  }

  /** `" or ".join(parts)` peeled one part at a time. */
  lemma JoinStep(parts: seq<string>, tail: string)
    requires |parts| >= 2 && PyText.Join(" or ", parts[1..]) == tail
    ensures PyText.Join(" or ", parts) == parts[0] + " or " + tail
  {
  }

  /** The first four methods of `ALL`, joined. */
  lemma FirstFourMethodsJoined()
    ensures PyText.Join(" or ", ALL[..4]) == "greater or " + "greater and equal or "
      + "less or less and equal"
  {
    var s := ALL[..4];
    assert PyText.Join(" or ", s[3..]) == "less and equal";
    JoinStep(s[2..], "less and equal");
    var t2 := "less or less and equal";
    assert "less" + " or " + "less and equal" == t2;
    JoinStep(s[1..], t2);
    JoinStep(s, "greater and equal" + " or " + t2);
    assert "greater" + " or " + ("greater and equal" + " or " + t2)
        == "greater or " + "greater and equal or " + t2;
  }

  /** The last four methods of `ALL`, joined. */
  lemma LastFourMethodsJoined()
    ensures PyText.Join(" or ", ALL[4..]) == "equal or includes or " + "excludes or in the range of"
  {
    var s := ALL[4..];
    var t2 := "excludes or in the range of";
    assert PyText.Join(" or ", s[3..]) == "in the range of";
    JoinStep(s[2..], "in the range of");
    assert "excludes" + " or " + "in the range of" == t2;
    JoinStep(s[1..], t2);
    JoinStep(s, "includes" + " or " + t2);
    assert "equal" + " or " + ("includes" + " or " + t2) == "equal or includes or " + t2;
  }

  /** The unknown-method message lists all eight methods joined by " or ", in `ALL` order. */
  lemma AllMethodsJoined()
    ensures PyText.Join(" or ", ALL) == "greater or " + "greater and equal or "
      + "less or less and equal or " + "equal or includes or " + "excludes or in the range of"
  {
    PyText.JoinSplit(" or ", ALL, 4);
    FirstFourMethodsJoined();
    LastFourMethodsJoined();
  }

  /** The single-value messages list those five methods in their declared order. */
  lemma SingleValueMethodsJoined()
    ensures PyText.Join(" or ", SINGLE_VALUE_METHODS)
      == "greater and equal or " + "greater or " + "less and equal or " + "less or equal"
  {
    var s := SINGLE_VALUE_METHODS;
    assert PyText.Join(" or ", s[4..]) == "equal";
    JoinStep(s[3..], "equal");
    var t3 := "less or equal";
    assert "less" + " or " + "equal" == t3;
    JoinStep(s[2..], t3);
    var t2 := "less and equal or " + t3;
    assert "less and equal" + " or " + t3 == t2;
    JoinStep(s[1..], t2);
    var t1 := "greater or " + t2;
    assert "greater" + " or " + t2 == t1;
    JoinStep(s, t1);
    assert "greater and equal" + " or " + t1 == "greater and equal or " + t1;
  }

  /** Includes and excludes accept any non-empty list, whatever its elements are. */
  lemma IncludesExcludesAcceptAnyNonEmptyList(m: string, items: seq<PyValue>, column: string)
    requires m == METHOD_INCLUDES || m == METHOD_EXCLUDES
    requires |items| > 0
    ensures ValidateCohortFilterParameters(PyStr(m), PyList(items), PyStr(column)) == Pass
  {
  }

  /** "In the range of" takes any two numbers: the bounds need not be in order, and a bool
      counts as a number because it is an int in Python. */
  lemma RangeAcceptsAnyTwoNumbers(lo: PyValue, hi: PyValue, column: string)
    requires IsNumber(lo) && IsNumber(hi)
    ensures ValidateCohortFilterParameters(PyStr(METHOD_RANGE), PyList([lo, hi]), PyStr(column))
         == Pass
    ensures ValidateCohortFilterParameters(PyStr(METHOD_RANGE), PyList([hi, lo]), PyStr(column))
         == Pass
  {
  }

  /** A single-value method takes one int, float or bool, and nothing else. */
  lemma SingleValueAcceptsExactlyOneNumber(m: string, v: PyValue, column: string)
    requires m in SINGLE_VALUE_METHODS
    ensures ValidateCohortFilterParameters(PyStr(m), PyList([v]), PyStr(column)).Pass?
        <==> IsNumber(v)
  {
  }

  /** An unknown method is reported first, listing every method (test_cohort.py, first test). */
  lemma UnknownMethodReported()
    ensures ValidateCohortFilterParameters(PyStr("random"), PyList([]), PyStr("random"))
      == Fail(UserConfigValidationException("Got unexpected value " + "random" + " for method. "
           + "Expected either of "
           + ("greater or " + "greater and equal or " + "less or less and equal or "
              + "equal or includes or " + "excludes or in the range of")
           + "."))
  {
    assert !IsKnownMethod(PyStr("random"));
    assert Str(PyStr("random")) == "random";
    AllMethodsJoined();
    var listed := "greater or " + "greater and equal or " + "less or less and equal or "
              + "equal or includes or " + "excludes or in the range of";
    assert PyText.Join(" or ", ALL) == listed;
    assert UnknownMethodMessage(PyStr("random"))
        == "Got unexpected value " + "random" + " for method. " + "Expected either of " + listed + ".";
  }

  /** A column that is not a string, and an arg that is not a list or is empty, are
      reported in that order. */
  lemma ColumnAndArgErrorsReported()
    ensures ValidateCohortFilterParameters(PyStr(METHOD_GREATER), PyList([]), PyInt(1))
      == Fail(UserConfigValidationException(
           "Got unexpected type " + "<class 'int'>" + " for column. " + "Expected string type."))
    ensures ValidateCohortFilterParameters(PyStr(METHOD_GREATER), PyInt(1), PyStr("age"))
      == Fail(UserConfigValidationException(
           "Got unexpected type " + "<class 'int'>" + " for arg. " + "Expected list type."))
    ensures ValidateCohortFilterParameters(PyStr(METHOD_GREATER), PyList([]), PyStr("age"))
      == Fail(UserConfigValidationException("Empty list supplied for arg."))
  {
    assert TypeRepr(PyInt(1)) == "<class 'int'>";
  }

  /** Two values for a single-value method, or one string, are rejected with messages that
      list the single-value methods in declared order. */
  lemma SingleValueErrorsReported(m: string)
    requires m in SINGLE_VALUE_METHODS
    ensures ValidateCohortFilterParameters(PyStr(m), PyList([PyInt(1), PyInt(9)]), PyStr("age"))
      == Fail(UserConfigValidationException("Expected a single value in arg "
           + "for cohort methods "
           + ("greater and equal or " + "greater or " + "less and equal or " + "less or equal")
           + "."))
    ensures ValidateCohortFilterParameters(PyStr(m), PyList([PyStr("val")]), PyStr("age"))
      == Fail(UserConfigValidationException("Expected int or float type for "
           + "arg with cohort methods "
           + ("greater and equal or " + "greater or " + "less and equal or " + "less or equal")
           + "."))
  {
    SingleValueMethodsJoined();
  }

  /** "In the range of" with one value, or with a string among its two, is rejected. */
  lemma RangeErrorsReported()
    ensures ValidateCohortFilterParameters(PyStr(METHOD_RANGE), PyList([PyInt(1)]), PyStr("age"))
      == Fail(UserConfigValidationException(
           "Expected two entries in arg for " + "cohort method " + "in the range of" + "."))
    ensures ValidateCohortFilterParameters(PyStr(METHOD_RANGE), PyList([PyInt(1), PyStr("val")]),
                                           PyStr("age"))
      == Fail(UserConfigValidationException(
           "Expected int or float type for arg " + "with cohort method " + "in the range of" + "."))
    ensures ValidateCohortFilterParameters(PyStr(METHOD_RANGE), PyList([PyStr("val"), PyInt(2)]),
                                           PyStr("age"))
      == Fail(UserConfigValidationException(
           "Expected int or float type for arg " + "with cohort method " + "in the range of" + "."))
  {
  }

  /** Arity is checked before element type: two strings for a single-value method are
      reported as too many values, not as the wrong type. */
  lemma ArityReportedBeforeType(m: string)
    requires m in SINGLE_VALUE_METHODS
    ensures ValidateCohortFilterParameters(PyStr(m), PyList([PyStr("a"), PyStr("b")]), PyStr("age"))
         == Fail(UserConfigValidationException(SINGLE_VALUE_ARITY_MESSAGE))
  {
  }

  // ---------------------------------------------------------------------------------------
  // CohortFilter
  // ---------------------------------------------------------------------------------------

  /** A cohort filter. Its fields are set once and never reassigned; the same object may be
      added to several cohorts. */
  class CohortFilter {
    const filterMethod: string
    const arg: seq<PyValue>
    const column: string

    /** The field assignments that end `__init__`, reached only once validation has passed. */
    constructor (filterMethod: string, arg: seq<PyValue>, column: string)
      requires Acceptable(PyStr(filterMethod), PyList(arg), PyStr(column))
      ensures this.filterMethod == filterMethod && this.arg == arg && this.column == column
      ensures Valid()
    {
      this.filterMethod := filterMethod;
      this.arg := arg;
      this.column := column;
    }

    /** The stored parameters pass the validator. */
    ghost predicate Valid()
    {
      Acceptable(PyStr(filterMethod), PyList(arg), PyStr(column))
    }

    /** `CohortFilter._validate_with_test_data` is an empty body: whatever the data and the
        target column, it returns without raising. `visited` names the filter whose check ran. */
    method ValidateWithTestData(testData: PyValue, targetColumn: PyValue)
      returns (r: Outcome<ValidationError>, ghost visited: CohortFilter)
      ensures r == Pass
      ensures visited == this
    {
      r := Pass;
      visited := this;
    }
  }

  /** `CohortFilter(method, arg, column)`: validate, then store the parameters as given.
      It raises exactly when the validator does, with the validator's error, and otherwise
      yields a new filter holding the very values passed in. */
  method NewCohortFilter(filterMethod: PyValue, arg: PyValue, column: PyValue)
    returns (r: Result<CohortFilter, ValidationError>)
    ensures r.Failure? <==> !Acceptable(filterMethod, arg, column)
    ensures r.Failure? ==> ValidateCohortFilterParameters(filterMethod, arg, column) == Fail(r.error)
    ensures r.Success? ==> fresh(r.value) && r.value.Valid()
    ensures r.Success? ==>
      PyStr(r.value.filterMethod) == filterMethod && PyList(r.value.arg) == arg &&
      PyStr(r.value.column) == column
  {
    var check := ValidateCohortFilterParameters(filterMethod, arg, column);
    if check.Fail? {
      return Failure(check.error);
    }
    var f := new CohortFilter(filterMethod.s, arg.items, column.s);
    r := Success(f);
  }
}
