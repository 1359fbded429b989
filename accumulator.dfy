/**
 * The decision and the state change of XimcRedmine.add_filter (ximc.py:136-174), as
 * functions of the session's filters and project list. The class method in the
 * session module performs the same steps and is proved to end in the state these
 * functions give.
 *
 * add_filter lower-cases the filter name before the catalog lookup and tests the real
 * key against FILTERS_WITH_USERS, which holds display names. Both make the lookup and
 * the user test miss (see `ResolveAsWritten`); the session uses `Resolve`, which looks
 * up the display name as given and tests it for a user filter.
 */
module Accumulator {
  import opened Wrappers
  import opened Text
  import opened Catalog
  import opened Clauses
  import opened Resolver
  import opened Search
  import opened Directory

  /** How add_filter can raise before or after changing the session. */
  datatype AddError =
    | MissingRangeBound   // "between" with one value: IndexError at values[1]
    | UnknownFilter       // no catalog entry has the name: the tuple unpack of None fails
    | UnboundRangeBound   // "between" without values: value_2 is unbound when it is appended

  /** An entry of `_projects`: the id found for a project filter's value, and the value. */
  datatype ScopedProject = ScopedProject(id: Option<int>, name: Option<Value>)

  /** The project ids of `_projects`, in order, as _get_user_id and _get_version_id iterate them. */
  function ScopedIds(projects: seq<ScopedProject>): (ids: seq<Option<int>>)
    ensures |ids| == |projects|
    ensures forall i :: 0 <= i < |projects| ==> ids[i] == projects[i].id
  {
    seq(|projects|, i requires 0 <= i < |projects| => projects[i].id)
  }

  /** The lower-cased operator names of the two-value case. */
  predicate IsBetween(operatorName: string) {
    operatorName == "между" || operatorName == "between"
  }

  /** The lower-cased filter names whose value is a version name. */
  predicate IsVersionFilter(filterName: string) {
    filterName == "версия" || filterName == "target version"
  }

  /** The lower-cased filter names whose value is a project name. */
  predicate IsProjectFilter(filterName: string) {
    filterName == "проект" || filterName == "project"
  }

  /** The second bound of a "between" clause. */
  datatype Second = NoSecond | SecondValue(v: Value) | SecondUnbound

  /** The value and second bound add_filter picks from its arguments (ximc.py:146-152). */
  function Picked(operatorName: string, values: seq<Value>): (r: Result<(Option<Value>, Second), AddError>)
    ensures r.Err? <==> IsBetween(operatorName) && |values| == 1
    ensures r.Ok? ==> r.value.0 == if values == [] then None else Some(values[0])
  {
    if values == [] then Ok((None, if IsBetween(operatorName) then SecondUnbound else NoSecond))
    else if IsBetween(operatorName) then
      if |values| < 2 then Err(MissingRangeBound) else Ok((Some(values[0]), SecondValue(values[1])))
    else Ok((Some(values[0]), NoSecond))
  }

  /** An id found by a lookup, as the value it replaces. */
  function IdValue(id: Option<int>): Option<Value> {
    match id
    case None => None
    case Some(n) => Some(Num(n))
  }

  /** What add_filter has decided once it has resolved its arguments. */
  datatype Resolution = Resolution(
    key: string,                  // the real filter name
    operator: Option<string>,     // find_operator's answer
    value: Option<Value>,         // the value after translation and lookups
    second: Second,
    recorded: seq<ScopedProject>) // what a project filter appends to `_projects`

  /**
   * The value rewriting of ximc.py:154-161: a user filter's value becomes the user's
   * id, a version filter's the version's id, a project filter's the project's id (and
   * the project is recorded); other values stay.
   */
  function Rewritten(key: string, operator: Option<string>, value: Option<Value>, second: Second,
                     userFilter: bool, loweredName: string,
                     scoped: seq<Option<int>>, allProjects: seq<Project>, tracker: Tracker): (r: Resolution)
    ensures r.key == key && r.operator == operator && r.second == second
    ensures value.None? ==> r.value.None?
    ensures !IsProjectFilter(loweredName) ==> r.recorded == []
  {
    OnlyTextNamesMatch(tracker, scoped, allProjects, value);
    if value.Some? && userFilter then
      Resolution(key, operator, IdValue(UserId(tracker, scoped, allProjects, value)), second, [])
    else if IsVersionFilter(loweredName) then
      Resolution(key, operator, IdValue(VersionId(tracker, scoped, allProjects, value)), second, [])
    else if IsProjectFilter(loweredName) then
      var projectId := ProjectId(tracker.projects, value);
      Resolution(key, operator, IdValue(projectId), second, [ScopedProject(projectId, value)])
    else Resolution(key, operator, value, second, [])
  }

  /**
   * add_filter's resolution of its arguments, with the display name looked up as given
   * and tested for a user filter.
   */
  function Resolve(catalog: seq<FilterEntry>, scoped: seq<Option<int>>, allProjects: seq<Project>, tracker: Tracker,
                   filterName: string, operatorName: string, values: seq<Value>)
    : Result<Resolution, AddError>
  {
    var op := Lower(operatorName);
    match Picked(op, values)
    case Err(e) => Err(e)
    case Ok((value, second)) =>
      match RealFilterIn(catalog, filterName, value)
      case None => Err(UnknownFilter)
      case Some((key, translated)) =>
        Ok(Rewritten(key, OperatorKey(op), translated, second, filterName in FiltersWithUsers,
                     Lower(filterName), scoped, allProjects, tracker))
  }

  /** The user test as ximc.py:154 writes it: the real key among the display names. */
  predicate IsUserFilterAsWritten(key: string) {
    key in FiltersWithUsers
  }

  /** add_filter's resolution as written: the lower-cased name is looked up, the key tested. */
  function ResolveAsWritten(catalog: seq<FilterEntry>, scoped: seq<Option<int>>, allProjects: seq<Project>, tracker: Tracker,
                            filterName: string, operatorName: string, values: seq<Value>)
    : Result<Resolution, AddError>
  {
    var op := Lower(operatorName);
    match Picked(op, values)
    case Err(e) => Err(e)
    case Ok((value, second)) =>
      match RealFilterIn(catalog, Lower(filterName), value)
      case None => Err(UnknownFilter)
      case Some((key, translated)) =>
        Ok(Rewritten(key, OperatorKey(op), translated, second, IsUserFilterAsWritten(key),
                     Lower(filterName), scoped, allProjects, tracker))
  }

  // ---------------------------------------------------------------- the state change

  /** The filters and project list add_filter changes. */
  datatype Accumulated = Accumulated(filters: seq<Clause>, projects: seq<ScopedProject>)

  /** The new state, and the error raised after the change, if any. */
  datatype Outcome = Outcome(state: Accumulated, error: Option<AddError>)

  /** The merge test of ximc.py:164-165 for a value-less call. */
  function SameClause(key: string, operator: Option<string>): Clause -> bool {
    (c: Clause) => c.filter == Some(key) && c.operator == operator
  }

  /** `value not in values` then `append(value)`, for the value None. */
  function WithNone(c: Clause): (d: Clause)
    ensures d.filter == c.filter && d.operator == c.operator
    ensures None in d.values
    ensures None in c.values ==> d == c
  {
    if None in c.values then c else c.(values := c.values + [None])
  }

  /**
   * The clause ximc.py:170-174 appends: the real key and operator key, the value when
   * there is one, then the second bound when there is one.
   */
  function NewClause(r: Resolution): (c: Clause)
    ensures c.filter == Some(r.key) && c.operator == r.operator
    ensures None !in c.values
    ensures r.value.Some? ==> |c.values| >= 1 && c.values[0] == r.value
    ensures r.second.SecondValue? ==> |c.values| >= 1 && c.values[|c.values| - 1] == Some(r.second.v)
    ensures |c.values| <= 2
  {
    var c := Clause(Some(r.key), r.operator, if r.value.None? then [] else [r.value]);
    match r.second
    case SecondValue(v) => c.(values := c.values + [Some(v)])
    case _ => c
  }

  /**
   * The change of ximc.py:160-174 once the arguments are resolved: the project is
   * recorded; a value-less clause merges into the first clause with the same key and
   * operator; otherwise the new clause is appended.
   */
  function Applied(s: Accumulated, r: Resolution): (o: Outcome)
    ensures o.state.projects == s.projects + r.recorded
  {
    var projects := s.projects + r.recorded;
    match if r.value.None? then FirstMatch(s.filters, SameClause(r.key, r.operator)) else None
    case Some(i) => Outcome(Accumulated(s.filters[i := WithNone(s.filters[i])], projects), None)
    case None =>
      Outcome(Accumulated(s.filters + [NewClause(r)], projects),
              if r.second.SecondUnbound? then Some(UnboundRangeBound) else None)
  }

  /** The state after add_filter(filterName, operatorName, *values) while a user is logged in. */
  function Added(catalog: seq<FilterEntry>, s: Accumulated, allProjects: seq<Project>, tracker: Tracker,
                 filterName: string, operatorName: string, values: seq<Value>): Outcome
  {
    match Resolve(catalog, ScopedIds(s.projects), allProjects, tracker, filterName, operatorName, values)
    case Err(e) => Outcome(s, Some(e))
    case Ok(r) => Applied(s, r)
  }

  /** Once the arguments are resolved, the change is that of `Applied`. */
  lemma AddedResolution(catalog: seq<FilterEntry>, s: Accumulated, allProjects: seq<Project>, tracker: Tracker,
                        filterName: string, operatorName: string, values: seq<Value>, r: Resolution)
    requires Resolve(catalog, ScopedIds(s.projects), allProjects, tracker, filterName, operatorName, values) == Ok(r)
    ensures Added(catalog, s, allProjects, tracker, filterName, operatorName, values) == Applied(s, r)
  {
  }

  // ---------------------------------------------------------------- properties

  /** A call without values resolves to no value, whatever projects the session has recorded. */
  lemma ValuelessResolveIgnoresScope(catalog: seq<FilterEntry>, scoped1: seq<Option<int>>, scoped2: seq<Option<int>>,
                                     allProjects: seq<Project>, tracker: Tracker,
                                     filterName: string, operatorName: string)
    ensures Resolve(catalog, scoped1, allProjects, tracker, filterName, operatorName, [])
         == Resolve(catalog, scoped2, allProjects, tracker, filterName, operatorName, [])
    ensures Resolve(catalog, scoped1, allProjects, tracker, filterName, operatorName, []).Ok? ==>
              Resolve(catalog, scoped1, allProjects, tracker, filterName, operatorName, []).value.value.None?
  {
    var op := Lower(operatorName);
    var found := RealFilterIn(catalog, filterName, None);
    if found.Some? {
      ValuelessRewriteIgnoresScope(found.value.0, OperatorKey(op), Picked(op, []).value.1,
                                   filterName in FiltersWithUsers, Lower(filterName),
                                   scoped1, scoped2, allProjects, tracker);
    }
  }

  lemma ValuelessRewriteIgnoresScope(key: string, operator: Option<string>, second: Second,
                                     userFilter: bool, loweredName: string,
                                     scoped1: seq<Option<int>>, scoped2: seq<Option<int>>,
                                     allProjects: seq<Project>, tracker: Tracker)
    ensures Rewritten(key, operator, None, second, userFilter, loweredName, scoped1, allProjects, tracker)
         == Rewritten(key, operator, None, second, userFilter, loweredName, scoped2, allProjects, tracker)
  {
    OnlyTextNamesMatch(tracker, scoped1, allProjects, None);
    OnlyTextNamesMatch(tracker, scoped2, allProjects, None);
  }

  /**
   * A call with a value (and an operator other than "between") appends exactly one
   * clause, holding that value, after the clauses already there.
   */
  lemma OneValueAppendsOneClause(catalog: seq<FilterEntry>, s: Accumulated, allProjects: seq<Project>, tracker: Tracker,
                                 filterName: string, operatorName: string, values: seq<Value>)
    requires |values| >= 1 && !IsBetween(Lower(operatorName))
    requires Resolve(catalog, ScopedIds(s.projects), allProjects, tracker, filterName, operatorName, values).Ok?
    requires Resolve(catalog, ScopedIds(s.projects), allProjects, tracker, filterName, operatorName, values).value.value.Some?
    ensures var r := Resolve(catalog, ScopedIds(s.projects), allProjects, tracker, filterName, operatorName, values).value;
            Added(catalog, s, allProjects, tracker, filterName, operatorName, values)
              == Outcome(Accumulated(s.filters + [Clause(Some(r.key), r.operator, [r.value])], s.projects + r.recorded),
                         None)
  {
  }

  /**
   * The merge rule: a call without values, when a clause with the same key and operator
   * exists, adds no clause; the first such clause gains None unless it holds None already.
   */
  lemma ValuelessCallMerges(catalog: seq<FilterEntry>, s: Accumulated, allProjects: seq<Project>, tracker: Tracker,
                            filterName: string, operatorName: string, i: nat)
    requires Resolve(catalog, ScopedIds(s.projects), allProjects, tracker, filterName, operatorName, []).Ok?
    requires var r := Resolve(catalog, ScopedIds(s.projects), allProjects, tracker, filterName, operatorName, []).value;
             FirstMatch(s.filters, SameClause(r.key, r.operator)) == Some(i)
    ensures var o := Added(catalog, s, allProjects, tracker, filterName, operatorName, []);
            var r := Resolve(catalog, ScopedIds(s.projects), allProjects, tracker, filterName, operatorName, []).value;
            o.error.None?
            && |o.state.filters| == |s.filters|
            && (forall j :: 0 <= j < |s.filters| && j != i ==> o.state.filters[j] == s.filters[j])
            && o.state.filters[i].filter == s.filters[i].filter
            && o.state.filters[i].operator == s.filters[i].operator
            && o.state.filters[i].values
               == (if None in s.filters[i].values then s.filters[i].values else s.filters[i].values + [None])
            && o.state.projects == s.projects + r.recorded
  {
    ValuelessResolveIgnoresScope(catalog, ScopedIds(s.projects), ScopedIds(s.projects), allProjects, tracker,
                                 filterName, operatorName);
  }

  /**
   * A call other than "between" that resolves to the value None, because it has no
   * values or because its user, version or project lookup finds nothing, raises nothing:
   * it merges None into the first clause with the same key and operator when there is
   * one, and otherwise appends a clause without values. A project filter still records
   * the project first.
   */
  lemma FailedLookupMerges(catalog: seq<FilterEntry>, s: Accumulated, allProjects: seq<Project>, tracker: Tracker,
                           filterName: string, operatorName: string, values: seq<Value>)
    requires !IsBetween(Lower(operatorName))
    requires Resolve(catalog, ScopedIds(s.projects), allProjects, tracker, filterName, operatorName, values).Ok?
    requires Resolve(catalog, ScopedIds(s.projects), allProjects, tracker, filterName, operatorName, values).value.value.None?
    ensures var r := Resolve(catalog, ScopedIds(s.projects), allProjects, tracker, filterName, operatorName, values).value;
            var o := Added(catalog, s, allProjects, tracker, filterName, operatorName, values);
            o.error.None?
            && o.state.projects == s.projects + r.recorded
            && match FirstMatch(s.filters, SameClause(r.key, r.operator))
               case Some(i) => o.state.filters == s.filters[i := WithNone(s.filters[i])]
               case None => o.state.filters == s.filters + [Clause(Some(r.key), r.operator, [])]
  {
  }

  /**
   * Repeating a merging call leaves the filters as the first call left them; a project
   * filter records its pair again.
   */
  lemma ValuelessMergeIdempotent(catalog: seq<FilterEntry>, s: Accumulated, allProjects: seq<Project>, tracker: Tracker,
                                 filterName: string, operatorName: string)
    requires Resolve(catalog, ScopedIds(s.projects), allProjects, tracker, filterName, operatorName, []).Ok?
    requires var r := Resolve(catalog, ScopedIds(s.projects), allProjects, tracker, filterName, operatorName, []).value;
             FirstMatch(s.filters, SameClause(r.key, r.operator)).Some?
    ensures var once := Added(catalog, s, allProjects, tracker, filterName, operatorName, []);
            var r := Resolve(catalog, ScopedIds(s.projects), allProjects, tracker, filterName, operatorName, []).value;
            var twice := Added(catalog, once.state, allProjects, tracker, filterName, operatorName, []);
            twice.state.filters == once.state.filters
            && twice.state.projects == once.state.projects + r.recorded
            && twice.error.None?
  {
    var once := Added(catalog, s, allProjects, tracker, filterName, operatorName, []);
    ValuelessResolveIgnoresScope(catalog, ScopedIds(s.projects), ScopedIds(once.state.projects), allProjects, tracker,
                                 filterName, operatorName);
    var r := Resolve(catalog, ScopedIds(s.projects), allProjects, tracker, filterName, operatorName, []).value;
    var same := SameClause(r.key, r.operator);
    var i := FirstMatch(s.filters, same).value;
    var merged := s.filters[i := WithNone(s.filters[i])];
    assert once.state.filters == merged;
    assert same(merged[i]);
    FirstMatchAt(merged, same, i);
  }

  /** "between" with two or more values appends one clause holding both bounds, in order. */
  lemma BetweenKeepsBothBounds(catalog: seq<FilterEntry>, s: Accumulated, allProjects: seq<Project>, tracker: Tracker,
                               filterName: string, operatorName: string, values: seq<Value>)
    requires |values| >= 2 && IsBetween(Lower(operatorName))
    requires Resolve(catalog, ScopedIds(s.projects), allProjects, tracker, filterName, operatorName, values).Ok?
    requires Resolve(catalog, ScopedIds(s.projects), allProjects, tracker, filterName, operatorName, values).value.value.Some?
    ensures var r := Resolve(catalog, ScopedIds(s.projects), allProjects, tracker, filterName, operatorName, values).value;
            Added(catalog, s, allProjects, tracker, filterName, operatorName, values)
              == Outcome(Accumulated(s.filters + [Clause(Some(r.key), r.operator, [r.value, Some(values[1])])],
                                     s.projects + r.recorded),
                         None)
  {
    var op := Lower(operatorName);
    assert Picked(op, values) == Ok((Some(values[0]), SecondValue(values[1])));
    var r := Resolve(catalog, ScopedIds(s.projects), allProjects, tracker, filterName, operatorName, values).value;
    assert r.second == SecondValue(values[1]);
    assert NewClause(r) == Clause(Some(r.key), r.operator, [r.value, Some(values[1])]);
  }

  /** "between" with one value raises before anything changes. */
  lemma BetweenNeedsTwoValues(catalog: seq<FilterEntry>, s: Accumulated, allProjects: seq<Project>, tracker: Tracker,
                              filterName: string, operatorName: string, v: Value)
    requires IsBetween(Lower(operatorName))
    ensures Added(catalog, s, allProjects, tracker, filterName, operatorName, [v]) == Outcome(s, Some(MissingRangeBound))
  {
  }

  /**
   * "between" without values and nothing to merge into: the value-less clause is
   * appended, then the call raises for the unbound second bound.
   */
  lemma BetweenWithoutValues(catalog: seq<FilterEntry>, s: Accumulated, allProjects: seq<Project>, tracker: Tracker,
                             filterName: string, operatorName: string)
    requires IsBetween(Lower(operatorName))
    requires Resolve(catalog, ScopedIds(s.projects), allProjects, tracker, filterName, operatorName, []).Ok?
    requires var r := Resolve(catalog, ScopedIds(s.projects), allProjects, tracker, filterName, operatorName, []).value;
             FirstMatch(s.filters, SameClause(r.key, r.operator)).None?
    ensures var r := Resolve(catalog, ScopedIds(s.projects), allProjects, tracker, filterName, operatorName, []).value;
            Added(catalog, s, allProjects, tracker, filterName, operatorName, [])
              == Outcome(Accumulated(s.filters + [Clause(Some(r.key), r.operator, [])], s.projects + r.recorded),
                         Some(UnboundRangeBound))
  {
    ValuelessResolveIgnoresScope(catalog, ScopedIds(s.projects), ScopedIds(s.projects), allProjects, tracker,
                                 filterName, operatorName);
  }

  /** Only `values[0]`, and `values[1]` for "between", are ever read. */
  lemma ExtraValuesIgnored(catalog: seq<FilterEntry>, s: Accumulated, allProjects: seq<Project>, tracker: Tracker,
                           filterName: string, operatorName: string, values: seq<Value>)
    requires |values| >= if IsBetween(Lower(operatorName)) then 2 else 1
    ensures var n := if IsBetween(Lower(operatorName)) then 2 else 1;
            Added(catalog, s, allProjects, tracker, filterName, operatorName, values)
              == Added(catalog, s, allProjects, tracker, filterName, operatorName, values[..n])
  {
  }

  /** A name that no catalog entry carries raises, and nothing changes. */
  lemma UnknownFilterChangesNothing(catalog: seq<FilterEntry>, s: Accumulated, allProjects: seq<Project>, tracker: Tracker,
                                    filterName: string, operatorName: string, values: seq<Value>)
    requires !(IsBetween(Lower(operatorName)) && |values| == 1)
    requires forall i :: 0 <= i < |catalog| ==> catalog[i].name != filterName
    ensures Added(catalog, s, allProjects, tracker, filterName, operatorName, values) == Outcome(s, Some(UnknownFilter))
  {
  }

  // ---------------------------------------------------------------- the catalog's own filters

  /** The operator labels used below are already lower case. */
  lemma OperatorNamesLowered()
    ensures Lower("соответствует") == "соответствует"
    ensures Lower("между") == "между"
  {
    var eq := "соответствует";
    var between := "между";
    assert forall i :: 0 <= i < |eq| ==> !IsUpper(eq[i]);
    assert forall i :: 0 <= i < |between| ==> !IsUpper(between[i]);
    LowerKeepsLowercase(eq);
    LowerKeepsLowercase(between);
  }

  /** "Статус" lower-cased, and what it is not. */
  lemma StatusNameLowered()
    ensures Lower("Статус") == "статус"
    ensures !IsVersionFilter(Lower("Статус")) && !IsProjectFilter(Lower("Статус"))
  {
    var s := "Статус";
    var name := Lower(s);
    assert name[0] == LowerChar(s[0]);
    assert forall i :: 1 <= i < 6 ==> name[i] == s[i];
  }

  /** A filter that is no user, version or project filter keeps its value and records nothing. */
  lemma PlainFilterKeepsValue(key: string, operator: Option<string>, value: Option<Value>, second: Second,
                              loweredName: string,
                              scoped: seq<Option<int>>, allProjects: seq<Project>, tracker: Tracker)
    requires !IsVersionFilter(loweredName) && !IsProjectFilter(loweredName)
    ensures Rewritten(key, operator, value, second, false, loweredName, scoped, allProjects, tracker)
         == Resolution(key, operator, value, second, [])
  {
  }

  /** One value for a filter that is no user, version or project filter: the translated value is kept. */
  lemma OneValueOfPlainFilter(catalog: seq<FilterEntry>, scoped: seq<Option<int>>, allProjects: seq<Project>,
                              tracker: Tracker, filterName: string, operatorName: string, v: Value,
                              key: string, translated: Option<Value>)
    requires !IsBetween(Lower(operatorName))
    requires RealFilterIn(catalog, filterName, Some(v)) == Some((key, translated))
    requires filterName !in FiltersWithUsers
    requires !IsVersionFilter(Lower(filterName)) && !IsProjectFilter(Lower(filterName))
    ensures Resolve(catalog, scoped, allProjects, tracker, filterName, operatorName, [v])
         == Ok(Resolution(key, OperatorKey(Lower(operatorName)), translated, NoSecond, []))
  {
    PlainFilterKeepsValue(key, OperatorKey(Lower(operatorName)), translated, NoSecond, Lower(filterName),
                          scoped, allProjects, tracker);
  }

  lemma StatusIsNoUserFilter()
    ensures "Статус" !in FiltersWithUsers
  {
    assert FiltersWithUsers == ["Автор", "Назначена", "Кем изменено", "Последний изменивший"];
    assert forall i :: 0 <= i < 4 ==> |FiltersWithUsers[i]| != 6;
  }

  /** "соответствует" is the label of "=". */
  lemma EqualsLabel()
    ensures OperatorKey(Lower("соответствует")) == Some("=") && !IsBetween(Lower("соответствует"))
  {
    OperatorNamesLowered();
    EqualsOperatorKey();
  }

  /** The facts about the catalog that the status example rests on. */
  lemma StatusFacts()
    ensures OperatorKey(Lower("соответствует")) == Some("=") && !IsBetween(Lower("соответствует"))
    ensures RealFilterIn(AvailableFilters, "Статус", Some(Str("Closed"))) == Some(("status_id", Some(Str("5"))))
    ensures "Статус" !in FiltersWithUsers
    ensures !IsVersionFilter(Lower("Статус")) && !IsProjectFilter(Lower("Статус"))
  {
    EqualsLabel();
    StatusClosedResolves();
    StatusNameLowered();
    StatusIsNoUserFilter();
  }

  /** The status filter, looked up by its display name, translates "Closed" to id "5". */
  lemma StatusFilterResolves(scoped: seq<Option<int>>, allProjects: seq<Project>, tracker: Tracker)
    ensures Resolve(AvailableFilters, scoped, allProjects, tracker, "Статус", "соответствует", [Str("Closed")])
         == Ok(Resolution("status_id", Some("="), Some(Str("5")), NoSecond, []))
  {
    StatusFacts();
    OneValueOfPlainFilter(AvailableFilters, scoped, allProjects, tracker, "Статус", "соответствует", Str("Closed"),
                          "status_id", Some(Str("5")));
  }

  /** As written, the lower-cased "статус" is no display name, and the call raises. */
  lemma LoweredLookupMissesStatus(scoped: seq<Option<int>>, allProjects: seq<Project>, tracker: Tracker)
    ensures ResolveAsWritten(AvailableFilters, scoped, allProjects, tracker, "Статус", "соответствует", [Str("Closed")])
         == Err(UnknownFilter)
  {
    OperatorNamesLowered();
    StatusNameLowered();
    LowercaseStatusIsNoName(Some(Str("Closed")));
  }

  /** Two values for a filter that is no user, version or project filter, with "between". */
  lemma RangeOfPlainFilter(catalog: seq<FilterEntry>, scoped: seq<Option<int>>, allProjects: seq<Project>,
                           tracker: Tracker, filterName: string, operatorName: string, values: seq<Value>,
                           key: string, translated: Option<Value>)
    requires |values| >= 2 && IsBetween(Lower(operatorName))
    requires RealFilterIn(catalog, filterName, Some(values[0])) == Some((key, translated))
    requires filterName !in FiltersWithUsers
    requires !IsVersionFilter(Lower(filterName)) && !IsProjectFilter(Lower(filterName))
    ensures Resolve(catalog, scoped, allProjects, tracker, filterName, operatorName, values)
         == Ok(Resolution(key, OperatorKey(Lower(operatorName)), translated, SecondValue(values[1]), []))
  {
    assert Picked(Lower(operatorName), values) == Ok((Some(values[0]), SecondValue(values[1])));
    PlainFilterKeepsValue(key, OperatorKey(Lower(operatorName)), translated, SecondValue(values[1]),
                          Lower(filterName), scoped, allProjects, tracker);
  }

  /** "между" is the label of "><". */
  lemma BetweenLabel()
    ensures OperatorKey(Lower("между")) == Some("><") && IsBetween(Lower("между"))
  {
    OperatorNamesLowered();
    BetweenOperatorKey();
  }

  /** "Создано" is no user, version or project filter. */
  lemma CreatedIsPlain()
    ensures "Создано" !in FiltersWithUsers
    ensures !IsVersionFilter(Lower("Создано")) && !IsProjectFilter(Lower("Создано"))
  {
    var lowered := Lower("Создано");
    assert |lowered| == 7 && lowered[0] == LowerChar('С');
    assert FiltersWithUsers == ["Автор", "Назначена", "Кем изменено", "Последний изменивший"];
    assert forall i :: 0 <= i < 4 ==> |FiltersWithUsers[i]| != 7;
  }

  /** A creation-date range resolves to the "><" operator with both dates. */
  lemma CreatedRangeResolves(allProjects: seq<Project>, tracker: Tracker, from: string, to: string)
    ensures Resolve(AvailableFilters, [], allProjects, tracker, "Создано", "между", [Str(from), Str(to)])
         == Ok(Resolution("created_on", Some("><"), Some(Str(from)), SecondValue(Str(to)), []))
  {
    BetweenLabel();
    CreatedResolves(Some(Str(from)));
    CreatedIsPlain();
    RangeOfPlainFilter(AvailableFilters, [], allProjects, tracker, "Создано", "между", [Str(from), Str(to)],
                       "created_on", Some(Str(from)));
  }

  /**
   * The date-range example: created between two dates, added to an empty session,
   * gives one clause with operator "><" and both dates in order.
   */
  lemma CreatedBetweenExample(allProjects: seq<Project>, tracker: Tracker, from: string, to: string)
    ensures Added(AvailableFilters, Accumulated([], []), allProjects, tracker, "Создано", "между", [Str(from), Str(to)])
         == Outcome(Accumulated([Clause(Some("created_on"), Some("><"), [Some(Str(from)), Some(Str(to))])], []), None)
  {
    CreatedRangeResolves(allProjects, tracker, from, to);
    BetweenLabel();
    RangeIntoEmptySession(AvailableFilters, allProjects, tracker, "Создано", "между", [Str(from), Str(to)],
                          Resolution("created_on", Some("><"), Some(Str(from)), SecondValue(Str(to)), []));
  }

  /** A resolved range added to a session without filters or projects. */
  lemma RangeIntoEmptySession(catalog: seq<FilterEntry>, allProjects: seq<Project>, tracker: Tracker,
                              filterName: string, operatorName: string, values: seq<Value>, r: Resolution)
    requires |values| >= 2 && IsBetween(Lower(operatorName))
    requires Resolve(catalog, [], allProjects, tracker, filterName, operatorName, values) == Ok(r)
    requires r.value.Some?
    ensures Added(catalog, Accumulated([], []), allProjects, tracker, filterName, operatorName, values)
         == Outcome(Accumulated([Clause(Some(r.key), r.operator, [r.value, Some(values[1])])], r.recorded), None)
  {
    assert ScopedIds([]) == [];
    BetweenKeepsBothBounds(catalog, Accumulated([], []), allProjects, tracker, filterName, operatorName, values);
    var c := Clause(Some(r.key), r.operator, [r.value, Some(values[1])]);
    assert [] + [c] == [c];
    var none: seq<ScopedProject> := [];
    assert none + r.recorded == r.recorded;
  }

  // ---------------------------------------------------------------- user and project filters

  /** No key of the catalog's user filters is itself one of their display names. */
  lemma UserKeysAreNoDisplayNames()
    ensures !IsUserFilterAsWritten("author_id")
    ensures !IsUserFilterAsWritten("assigned_to_id")
    ensures !IsUserFilterAsWritten("updated_by")
    ensures !IsUserFilterAsWritten("last_updated_by")
  {
    assert FiltersWithUsers == ["Автор", "Назначена", "Кем изменено", "Последний изменивший"];
  }

  /** As written, the key test of the author filter fails: its value is never turned into a user id. */
  lemma AuthorFailsKeyTestAsWritten(value: Option<Value>)
    ensures RealFilter("Автор", value).Some?
    ensures !IsUserFilterAsWritten(RealFilter("Автор", value).value.0)
  {
    AuthorResolves(value);
    UserKeysAreNoDisplayNames();
  }

  /** A user filter's value is replaced by the id of the user of that name. */
  lemma UserFilterRewrite(key: string, operator: Option<string>, value: Value, second: Second,
                          loweredName: string,
                          scoped: seq<Option<int>>, allProjects: seq<Project>, tracker: Tracker)
    ensures Rewritten(key, operator, Some(value), second, true, loweredName, scoped, allProjects, tracker)
         == Resolution(key, operator, IdValue(UserId(tracker, scoped, allProjects, Some(value))), second, [])
  {
  }

  /** With the display-name test, an author filter carries the author's user id. */
  lemma AuthorFilterCarriesUserId(scoped: seq<Option<int>>, allProjects: seq<Project>, tracker: Tracker,
                                  username: string)
    ensures Resolve(AvailableFilters, scoped, allProjects, tracker, "Автор", "соответствует", [Str(username)])
         == Ok(Resolution("author_id", Some("="), IdValue(UserId(tracker, scoped, allProjects, Some(Str(username)))),
                          NoSecond, []))
  {
    EqualsLabel();
    AuthorResolves(Some(Str(username)));
    assert "Автор" in FiltersWithUsers by {
      assert FiltersWithUsers[0] == "Автор";
    }
    UserFilterRewrite("author_id", Some("="), Str(username), NoSecond, Lower("Автор"), scoped, allProjects, tracker);
  }

  /**
   * Outside the user branch, a version filter's value is replaced by the id of the
   * version found under that name, and nothing is recorded.
   */
  lemma VersionFilterRewrite(key: string, operator: Option<string>, value: Option<Value>, second: Second,
                             loweredName: string,
                             scoped: seq<Option<int>>, allProjects: seq<Project>, tracker: Tracker)
    requires IsVersionFilter(loweredName)
    ensures Rewritten(key, operator, value, second, false, loweredName, scoped, allProjects, tracker)
         == Resolution(key, operator, IdValue(VersionId(tracker, scoped, allProjects, value)), second, [])
  {
  }

  /** "Версия" lower-cased is a version filter name, and "Версия" is no user filter. */
  lemma VersionNameFacts()
    ensures IsVersionFilter(Lower("Версия"))
    ensures "Версия" !in FiltersWithUsers
  {
    var s := "Версия";
    var name := Lower(s);
    assert name[0] == LowerChar(s[0]);
    assert forall i :: 1 <= i < 6 ==> name[i] == s[i];
    assert name == "версия";
    assert FiltersWithUsers == ["Автор", "Назначена", "Кем изменено", "Последний изменивший"];
    assert forall i :: 0 <= i < 4 ==> |FiltersWithUsers[i]| != 6;
  }

  /**
   * A "Версия" filter carries the id _get_version_id finds for its value, searching the
   * recorded projects first, and records nothing.
   */
  lemma VersionFilterCarriesVersionId(s: Accumulated, allProjects: seq<Project>, tracker: Tracker, v: Value)
    ensures Resolve(AvailableFilters, ScopedIds(s.projects), allProjects, tracker, "Версия", "соответствует", [v])
         == Ok(Resolution("fixed_version_id", Some("="),
                          IdValue(VersionId(tracker, ScopedIds(s.projects), allProjects, Some(v))), NoSecond, []))
  {
    EqualsLabel();
    VersionResolves(Some(v));
    VersionNameFacts();
    VersionFilterRewrite("fixed_version_id", Some("="), Some(v), NoSecond, Lower("Версия"),
                         ScopedIds(s.projects), allProjects, tracker);
  }

  /** "Проект" lower-cased is a project filter name, and "Проект" is no user filter. */
  lemma ProjectNameFacts()
    ensures IsProjectFilter(Lower("Проект"))
    ensures "Проект" !in FiltersWithUsers
  {
    var s := "Проект";
    var name := Lower(s);
    assert name[0] == LowerChar(s[0]);
    assert forall i :: 1 <= i < 6 ==> name[i] == s[i];
    assert name == "проект";
    assert FiltersWithUsers == ["Автор", "Назначена", "Кем изменено", "Последний изменивший"];
    assert forall i :: 0 <= i < 4 ==> |FiltersWithUsers[i]| != 6;
  }

  /** A project filter's value is replaced by the project's id, and the pair is recorded. */
  lemma ProjectFilterRewrite(key: string, operator: Option<string>, value: Option<Value>, second: Second,
                             loweredName: string,
                             scoped: seq<Option<int>>, allProjects: seq<Project>, tracker: Tracker)
    requires IsProjectFilter(loweredName)
    ensures Rewritten(key, operator, value, second, false, loweredName, scoped, allProjects, tracker)
         == Resolution(key, operator, IdValue(ProjectId(tracker.projects, value)), second,
                       [ScopedProject(ProjectId(tracker.projects, value), value)])
  {
  }

  /**
   * A project filter records the id found for the project name together with the name,
   * after the projects already recorded; the clause carries the id.
   */
  lemma ProjectFilterRecordsProject(s: Accumulated, allProjects: seq<Project>, tracker: Tracker, v: Value)
    ensures var projectId := ProjectId(tracker.projects, Some(v));
            Resolve(AvailableFilters, ScopedIds(s.projects), allProjects, tracker, "Проект", "соответствует", [v])
              == Ok(Resolution("project_id", Some("="), IdValue(projectId), NoSecond, [ScopedProject(projectId, Some(v))]))
            && Added(AvailableFilters, s, allProjects, tracker, "Проект", "соответствует", [v]).state.projects
              == s.projects + [ScopedProject(projectId, Some(v))]
  {
    EqualsLabel();
    ProjectResolves(Some(v));
    ProjectNameFacts();
    ProjectFilterRewrite("project_id", Some("="), Some(v), NoSecond, Lower("Проект"),
                         ScopedIds(s.projects), allProjects, tracker);
  }
}
