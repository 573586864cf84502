# Cohort definitions of the raiwidgets SDK, in Dafny

This project models `raiwidgets/raiwidgets/_cohort.py`, the Python module that lets a user of
the Responsible AI dashboard define cohorts before the dashboard opens. It has four parts:

- **`CohortFilterMethods`** is the catalogue of the eight filter-method strings ("greater",
  "greater and equal", "less", "less and equal", "equal", "includes", "excludes", "in the range
  of"). Five of them are marked as single-value methods.
- **`CohortFilter`** holds a method, a list of arguments and a column name. Its constructor runs
  a fixed chain of checks and raises `UserConfigValidationException` at the first one that fails.
  The checks are: method known, column a string, arg a list, arg not empty, then arity before
  element type for the single-value methods and for "in the range of".
- **`Cohort`** holds a name and a filter list. The list starts as `None`, becomes `[f]` on the
  first `add_cohort_filter` and is appended to after that. Its `_validate_with_test_data` walks
  the list and calls each filter's own check, which is an empty stub.
- **`cohort_filter_json_converter`** is the `default=` hook for `json.dumps`. It turns a filter
  or a cohort into the dictionary of its fields.

Modules:

- `Wrappers` (`wrappers.dfy`): `Outcome` and `Result` stand for "returns or raises".
- `PyText` (`py_text.dfy`): `str.join` and the decimal rendering of a Python `int`.
- `PyValues` (`py_values.dfy`): the Python argument values the SDK inspects.
  - `isinstance(x, int)` holds for `bool` too.
  - Floats are kept only as their `repr` text.
  - `type(x)` and `str(x)` are rendered as `format` prints them.
- `CohortFilters` (`cohort_filter.dfy`): the catalogue, the validator as a pure function, the
  checks as a table with their order, and the `CohortFilter` class.
- `Cohorts` (`cohort.dfy`): the `Cohort` class and its state machine.
- `JsonConverter` (`json_converter.dfy`): the converter and its read-back partner.

Each exception is modelled as `Fail(UserConfigValidationException(message))` or
`Failure(UserConfigValidationException(message))`, with the exact message text. A `CohortFilter` is a class whose fields are set once. `Cohort.cohortFilterList`
holds references to filter objects, so one filter added to two cohorts is the same object in
both (as in `raiwidgets/tests/test_cohort.py:303`).

`_cohort.py` does not evaluate filters over a dataset. It has no AND/OR filter trees, no cohort
statistics and no management of a list of cohorts. This model follows the code:

- the eight method strings are the ones above, including "excludes";
- "in the range of" does not require its bounds in order;
- the column is not checked against any data.

## Model

| member | source | states |
|---|---|---|
| `CohortFilters.ValidateCohortFilterParameters` | raiwidgets/raiwidgets/_cohort.py:111-172 | Validation passes exactly when all of these hold: the method is one of the eight; the column is a string; arg is a non-empty list; a single-value method gets exactly one int, float or bool; "in the range of" gets exactly two. |
| `CohortFilters.AcceptableIffAllChecksPass` | raiwidgets/raiwidgets/_cohort.py:122-172 | Those conditions hold exactly when each of the eight checks in the table passes. |
| `CohortFilters.FirstFailingCheckDecides` | raiwidgets/raiwidgets/_cohort.py:122-172 | When check k is the first failing one in the order method, column, arg type, emptiness, single-value arity, single-value type, range arity, range type, the error is check k's message, whatever the later checks say. |
| `CohortFilters.CatalogueShape` | raiwidgets/raiwidgets/_cohort.py:13-41 | There are eight distinct methods. The five single-value methods are among them. The other three are includes, excludes and "in the range of". |
| `CohortFilters.AllMethodsJoined` | raiwidgets/raiwidgets/_cohort.py:122-127 | The unknown-method message lists all eight methods joined by " or ", in `ALL` order. |
| `CohortFilters.SingleValueMethodsJoined` | raiwidgets/raiwidgets/_cohort.py:143-155 | The single-value messages list the five methods joined by " or ", in their declared order, which is not the order of `ALL`. |
| `CohortFilters.IncludesExcludesAcceptAnyNonEmptyList` | raiwidgets/raiwidgets/_cohort.py:138-172 | Includes and excludes with a string column accept any non-empty list, whatever its elements. |
| `CohortFilters.RangeAcceptsAnyTwoNumbers` | raiwidgets/raiwidgets/_cohort.py:157-172 | "In the range of" accepts any two numbers in either order, bools included. |
| `CohortFilters.SingleValueAcceptsExactlyOneNumber` | raiwidgets/raiwidgets/_cohort.py:143-155 | A one-element arg for a single-value method is accepted exactly when the element is an int, float or bool. |
| `CohortFilters.ArityReportedBeforeType` | raiwidgets/raiwidgets/_cohort.py:143-155 | Two strings for a single-value method are reported as an arity error, not a type error. |
| `CohortFilters.UnknownMethodReported` | raiwidgets/tests/test_cohort.py:16-25 | Method "random" (with an empty arg) raises the full unknown-method message the test expects. |
| `CohortFilters.ColumnAndArgErrorsReported` | raiwidgets/tests/test_cohort.py:27-47 | An int column raises the column message even though arg is empty. An int arg raises the list-type message. An empty arg raises the empty-list message. |
| `CohortFilters.SingleValueErrorsReported` | raiwidgets/tests/test_cohort.py:49-69 | For every single-value method, `[1, 9]` and `["val"]` raise the arity and type messages the tests expect. |
| `CohortFilters.RangeErrorsReported` | raiwidgets/tests/test_cohort.py:71-94 | For "in the range of", `[1]` raises the two-entries message. `[1, "val"]` and `["val", 2]` raise the type message. |
| `CohortFilters.NewCohortFilter` | raiwidgets/raiwidgets/_cohort.py:92-109 | Construction fails exactly when the parameters are not acceptable, with the validator's error. Otherwise it returns a new valid filter that holds the given method, arg and column unchanged. |
| `CohortFilters.CohortFilter.constructor` | raiwidgets/raiwidgets/_cohort.py:107-109 | Called only with parameters that pass validation, as the call at `raiwidgets/raiwidgets/_cohort.py:102` guarantees. The fields are exactly the given method, arg and column, and the new filter is valid. |
| `CohortFilters.CohortFilter.ValidateWithTestData` | raiwidgets/raiwidgets/_cohort.py:174-222 | The per-filter data check never raises, for any data and target column, and reports the filter it ran for (`visited == this`). |
| `Cohorts.NewCohort` | raiwidgets/raiwidgets/_cohort.py:230-241 | A name that is not a string is rejected with the cohort-name message. Otherwise the new cohort has that name and no filter list (`None`). |
| `Cohorts.Cohort.constructor` | raiwidgets/raiwidgets/_cohort.py:240-241 | The name is stored and the filter list is `None`. |
| `Cohorts.Cohort.AddCohortFilter` | raiwidgets/raiwidgets/_cohort.py:243-256 | A non-filter argument is rejected and leaves the list unchanged. A filter is appended to the old list, or to an empty one if there was none. Nothing else changes, and the list, once created, is never empty. |
| `Cohorts.Cohort.ValidateWithTestData` | raiwidgets/raiwidgets/_cohort.py:258-274 | Each filter's own check is called once, in list order: the ghost trace collects the filter each call reports, and equals the list (empty when there is none). The cohort is never rejected. |
| `Cohorts.CohortErrorsReported` | raiwidgets/tests/test_cohort.py:188-200 | An int name and a list passed as a filter give the messages the test expects. |
| `Cohorts.SharedFilterScenario` | raiwidgets/tests/test_cohort.py:294-303 | One filter added to two cohorts is the same object in both lists, and each list is exactly `[f]`. |
| `JsonConverter.CohortFilterJsonConverter` | raiwidgets/raiwidgets/_cohort.py:56-68 | A filter gives a dictionary with exactly the keys method, arg and column. A cohort gives exactly the keys name and cohort_filter_list. |
| `JsonConverter.FilterDictRoundTrip` | raiwidgets/raiwidgets/_cohort.py:63-64 | Reading a filter's dictionary back gives its method, arg and column unchanged. |
| `JsonConverter.FilterDictRevalidates` | raiwidgets/raiwidgets/_cohort.py:63-64 | The fields serialised for a valid filter pass the validator again. |
| `JsonConverter.CohortDictListsFilters` | raiwidgets/raiwidgets/_cohort.py:65-68 | A cohort's dictionary carries its name. Its list field is null exactly when no filter was added, and otherwise lists the added filters in order. |
| `JsonConverter.SerializedCohortScenario` | raiwidgets/tests/test_cohort.py:294-313 | Cohorts "Cohort New" and "Cohort Old" holding the same "less" filter on age with `[65]` serialise to their names plus the same one-element filter list. That filter's dictionary is exactly {method: "less", arg: [65], column: "age"}. |
| `PyText.JoinPartAt` | raiwidgets/raiwidgets/_cohort.py:126 | `sep.join(parts)` contains each part, in order, at its offset. |
| `PyText.JoinSeparatorAfter` | raiwidgets/raiwidgets/_cohort.py:126 | In `sep.join(parts)`, exactly one separator stands between neighbouring parts. |
| `PyText.JoinSplit` | raiwidgets/raiwidgets/_cohort.py:148 | Joining splits at any part boundary into the two joined halves around one separator. |
| `PyText.JoinLength` | raiwidgets/raiwidgets/_cohort.py:148 | The joined text has the parts' total length plus one separator fewer than there are parts. |
| `PyText.DecimalDigits` | raiwidgets/raiwidgets/_cohort.py:124-126 | The rendering of a natural number is non-empty, all digits, with no leading zero. |
| `PyText.DecimalDigitsRoundTrip` | raiwidgets/raiwidgets/_cohort.py:124-126 | Reading the model's digit rendering back gives the number. |
| `PyText.IntToDecimalRoundTrip` | raiwidgets/raiwidgets/_cohort.py:124-126 | For the model's rendering of `str(i)`, parsing it back gives `i` for every int, negative ones included (no digit limit; see Left out). |
| `PyValues.StrOfStrAndInt` | raiwidgets/raiwidgets/_cohort.py:124-126 | Formatting a string inserts it unchanged. In the model, formatting an int inserts text that parses back to that int. |

## Left out

- `CohortFilter._validate_with_test_data` has an empty body in the code. The unit tests in
  `raiwidgets/tests/test_cohort.py:147-184` and `:211-230` expect errors such as "Unknown column",
  the Index-filter rules and the test_data and target_column type checks. Nothing in
  `_cohort.py` raises them. The model follows the code: the check never raises, and none of those rules are modelled.
- The generic branch of `cohort_filter_json_converter` (`obj.to_json()`, and `__dict__` of
  arbitrary objects) is not modelled. It dispatches to classes that are not part of this model.
  The converter is modelled for the two objects the SDK serialises: filters and cohorts.
- The JSON text that `json.dumps` produces is not modelled, only the dictionary the converter
  returns. That text depends on Python's float `repr` and on the json library.
- `JsonConverter.CohortFilterJsonConverter` returns a snapshot of the fields. In Python,
  `__dict__` is the object's live attribute dictionary. Aliasing between it and the object is
  not captured.
- `CohortFilters.CohortFilter` has `const` fields. Python lets a caller reassign `f.method`,
  `f.arg` or `f.column` after construction, which would bypass validation and, since filters
  are shared, show in every cohort holding the filter. The source never does this, and the model
  does not capture such outside reassignment.
- `CohortFilters.NewCohortFilter` stores a copy of the argument list. In Python the filter keeps
  the caller's list object, so a later mutation by the caller would show through the filter.
  Likewise `Cohorts.Cohort.AddCohortFilter` treats the filter list as a value owned by the
  cohort. Any outside alias of that list is not modelled.
- `PyValues.Str` renders a string inside a list as `'s'` without Python's quote choice and
  escaping. Arbitrary objects are rendered through a `str()` text they carry, also inside a
  list, where Python would use their `repr()` instead. Floats are only their `repr` text; no
  arithmetic is done on them.
- `PyValues.Str` and `PyText.IntToDecimal` render every int. Since CPython 3.11 (and in
  security backports), `str()` of an int with more digits than `sys.int_max_str_digits` (4300
  by default) raises `ValueError`. An int method value that large would raise that error
  instead of the unknown-method message. The model does not have this limit.
- `isinstance` is modelled for the builtin types only. Subclasses of `int`, `float`, `str`,
  `list` or `CohortFilter` are not represented. This covers subclasses defined by users and
  library types such as `numpy.float64`, which passes `isinstance(x, float)` at
  `raiwidgets/raiwidgets/_cohort.py:150`, and `numpy.str_`, which passes `isinstance(x, str)`
  at `raiwidgets/raiwidgets/_cohort.py:128`.
- `ClassificationOutcomes` and `CohortFilter.SPECIAL_COLUMN_LIST` are constants that nothing
  in `_cohort.py` uses. They only matter to the data-dependent checks that are left out.
- Filter evaluation over a dataset, AND/OR filter trees, cohort statistics and cohort-list
  management are not in `_cohort.py`. The TypeScript modules that would implement them are not
  part of this model.
- The TypeScript style sheets, the re-export barrel `libs/core-ui/src/index.ts`, the Cypress
  helper `apps/widget-e2e/src/util/comboBox.ts` and the end-to-end dashboard test are not
  modelled. They hold UI styling, re-exports, browser automation and ML pipelines, not cohort
  logic.
