/**
 * The XimcRedmine session of ximc.py: the logged-in user, the projects known at login,
 * the accumulated filter clauses, the projects named by project filters, and the
 * totals options of the last get_totals call.
 *
 * The tracker's answers are a `Tracker` value passed to the methods that query it, and
 * the issue-list page get_totals downloads is the answer of a `fetch` function passed
 * to it: the network and the client library are not part of this model.
 */
module Session {
  import opened Wrappers
  import opened Text
  import opened Catalog
  import opened Clauses
  import opened Resolver
  import opened Search
  import opened Directory
  import opened Accumulator
  import opened Totals
  import opened UrlBuilder

  /**
   * The outcome of a method guarded by check_auth: it returns nothing when no user is
   * logged in, otherwise it returns a value or raises.
   */
  datatype Call<T, E> = NotLoggedIn | Returned(value: T) | Raised(error: E)

  /** How get_totals raises: create_url fails, or the page cannot be fetched. */
  datatype TotalsError = UrlFailed(cause: UrlError) | TransportFailure

  class XimcRedmine {
    /** The project whose issue list the totals are read from. */
    const projectIdentifier: string
    /** The filter catalog names are resolved in: AVAILABLE_FILTERS. */
    const catalog: seq<FilterEntry>
    /** The totals options the session knows: TOTALS_OPTIONS. */
    const totalsCatalog: map<string, string>
    var user: Option<UserRef>
    var allProjects: seq<Project>
    var filters: seq<Clause>
    var projects: seq<ScopedProject>
    /** The keys of `_totals_options`, in insertion order. */
    var totalsKeys: seq<string>
    var totals: map<string, Option<real>>

    /** Every clause names its filter; the totals are well formed. */
    ghost predicate Valid()
      reads this
    {
      FiltersNamed() && TotalsKept()
    }

    /** Every accumulated clause names its filter. */
    ghost predicate FiltersNamed()
      reads this`filters
    {
      forall i :: 0 <= i < |filters| ==> filters[i].filter.Some?
    }

    /** The totals map has exactly the kept options as keys, each a TOTALS_OPTIONS key, each once. */
    ghost predicate TotalsKept()
      reads this`totalsKeys, this`totals
    {
      (forall i :: 0 <= i < |totalsKeys| ==> totalsKeys[i] in totalsCatalog)
      && (forall i, j :: 0 <= i < j < |totalsKeys| ==> totalsKeys[i] != totalsKeys[j])
      && (forall k :: k in totals <==> k in totalsKeys)
    }

    /** A session with nobody logged in, no filters and no totals. */
    constructor (projectIdentifier: string)
      ensures Valid()
      ensures this.projectIdentifier == projectIdentifier && catalog == AvailableFilters
      ensures totalsCatalog == TotalsOptions
      ensures user.None? && allProjects == [] && filters == [] && projects == []
      ensures totalsKeys == [] && totals == map[]
    {
      this.projectIdentifier := projectIdentifier;
      catalog := AvailableFilters;
      totalsCatalog := TotalsOptions;
      user := None;
      allProjects := [];
      filters := [];
      projects := [];
      totalsKeys := [];
      totals := map[];
    }

    /** auth: the account the tracker authenticated, and every project it lists. */
    method Auth(account: UserRef, tracker: Tracker)
      requires Valid()
      modifies this`user, this`allProjects
      ensures Valid()
      ensures user == Some(account) && allProjects == tracker.projects
    {
      user := Some(account);
      allProjects := tracker.projects;
    }

    /** clear_filters: no clauses and no project filters remain. */
    method ClearFilters()
      requires Valid()
      modifies this`filters, this`projects
      ensures Valid()
      ensures filters == [] && projects == []
    {
      filters := [];
      projects := [];
    }

    /** get_filters: the accumulated clauses, in the order they were added. */
    method GetFilters() returns (r: seq<Clause>)
      requires Valid()
      ensures r == filters
      ensures forall i :: 0 <= i < |r| ==> r[i].filter.Some?
    {
      r := filters;
    }

    // ---------------------------------------------------------------- the searches

    /** _find_project_id: the id of the first project the tracker lists under that name. */
    method FindProjectId(tracker: Tracker, projectName: Option<Value>) returns (r: Option<int>)
      ensures r == ProjectId(tracker.projects, projectName)
    {
      var all := tracker.projects;
      var i := 0;
      while i < |all|
        invariant 0 <= i <= |all|
        invariant forall j :: 0 <= j < i ==> !ProjectNamed(projectName)(all[j])
      {
        if Some(Str(all[i].name)) == projectName {
          assert ProjectNamed(projectName)(all[i]);
          return Some(all[i].id);
        }
        i := i + 1;
      }
      return None;
    }

    /** get_user_from_memberships: the id of the first member with that name. */
    static method UserFromMemberships(memberships: seq<Membership>, username: Option<Value>) returns (r: Option<int>)
      ensures r == UserIdIn(memberships, username)
    {
      var i := 0;
      while i < |memberships|
        invariant 0 <= i <= |memberships|
        invariant forall j :: 0 <= j < i ==> !UserNamed(username)(memberships[j])
      {
        var user := memberships[i].user;
        if user.Some? && Some(Str(user.value.name)) == username {
          assert UserNamed(username)(memberships[i]);
          return Some(user.value.id);
        }
        i := i + 1;
      }
      return None;
    }

    /**
     * _get_user_id: the first member with that name in the memberships of the projects
     * of the session's project filters, then in those of every project known at login.
     */
    method GetUserId(tracker: Tracker, username: Option<Value>) returns (r: Option<int>)
      ensures r == UserId(tracker, ScopedIds(projects), allProjects, username)
    {
      r := UserIdAmong(tracker, ScopedIds(projects), allProjects, username);
    }

    /** The loops of _get_user_id over the ids of `_projects` and the projects known at login. */
    static method UserIdAmong(tracker: Tracker, scoped: seq<Option<int>>, known: seq<Project>, username: Option<Value>)
      returns (r: Option<int>)
      ensures r == UserId(tracker, scoped, known, username)
    {
      var i := 0;
      while i < |scoped|
        invariant 0 <= i <= |scoped|
        invariant forall k :: 0 <= k < i ==> UserIdIn(tracker.membershipsOf(scoped[k]), username).None?
      {
        var userId := UserFromMemberships(tracker.membershipsOf(scoped[i]), username);
        if userId.Some? {
          ScopedUserWins(tracker, scoped, known, username, i);
          return userId;
        }
        i := i + 1;
      }
      var j := 0;
      while j < |known|
        invariant 0 <= j <= |known|
        invariant forall k :: 0 <= k < j ==> UserIdIn(known[k].memberships, username).None?
      {
        var userId := UserFromMemberships(known[j].memberships, username);
        if userId.Some? {
          KnownUserFound(tracker, scoped, known, username, j);
          return userId;
        }
        j := j + 1;
      }
      UserNotFound(tracker, scoped, known, username);
      return None;
    }

    /** The inner loop of _get_version_id: the first version with that name in one list. */
    static method VersionFromList(versions: seq<Version>, versionName: Option<Value>) returns (r: Option<int>)
      ensures r == VersionIdIn(versions, versionName)
    {
      var i := 0;
      while i < |versions|
        invariant 0 <= i <= |versions|
        invariant forall j :: 0 <= j < i ==> !VersionNamed(versionName)(versions[j])
      {
        if Some(Str(versions[i].name)) == versionName {
          assert VersionNamed(versionName)(versions[i]);
          return Some(versions[i].id);
        }
        i := i + 1;
      }
      return None;
    }

    /**
     * _get_version_id: the first version with that name among the versions of the
     * projects of the session's project filters, then of every project known at login.
     */
    method GetVersionId(tracker: Tracker, versionName: Option<Value>) returns (r: Option<int>)
      ensures r == VersionId(tracker, ScopedIds(projects), allProjects, versionName)
    {
      r := VersionIdAmong(tracker, ScopedIds(projects), allProjects, versionName);
    }

    /** The loops of _get_version_id over the ids of `_projects` and the projects known at login. */
    static method VersionIdAmong(tracker: Tracker, scoped: seq<Option<int>>, known: seq<Project>, versionName: Option<Value>)
      returns (r: Option<int>)
      ensures r == VersionId(tracker, scoped, known, versionName)
    {
      var i := 0;
      while i < |scoped|
        invariant 0 <= i <= |scoped|
        invariant forall k :: 0 <= k < i ==> VersionIdIn(tracker.versionsOf(scoped[k]), versionName).None?
      {
        var versionId := VersionFromList(tracker.versionsOf(scoped[i]), versionName);
        if versionId.Some? {
          ScopedVersionWins(tracker, scoped, known, versionName, i);
          return versionId;
        }
        i := i + 1;
      }
      var j := 0;
      while j < |known|
        invariant 0 <= j <= |known|
        invariant forall k :: 0 <= k < j ==> VersionIdIn(tracker.versionsOf(Some(known[k].id)), versionName).None?
      {
        var versionId := VersionFromList(tracker.versionsOf(Some(known[j].id)), versionName);
        if versionId.Some? {
          KnownVersionFound(tracker, scoped, known, versionName, j);
          return versionId;
        }
        j := j + 1;
      }
      VersionNotFound(tracker, scoped, known, versionName);
      return None;
    }

    // ---------------------------------------------------------------- add_filter

    /**
     * The first half of add_filter: the value and second bound picked from the
     * arguments, the catalog lookup, the value rewriting by the searches, the operator.
     */
    method ResolveArguments(filterName: string, operatorName: string, values: seq<Value>, tracker: Tracker)
      returns (r: Result<Resolution, AddError>)
      ensures r == Resolve(catalog, ScopedIds(projects), allProjects, tracker, filterName, operatorName, values)
    {
      var op := Lower(operatorName);
      var value: Option<Value>;
      var second: Second;
      if |values| == 0 {
        value := None;
        second := if IsBetween(op) then SecondUnbound else NoSecond;
      } else if IsBetween(op) {
        if |values| < 2 {
          return Err(MissingRangeBound);
        }
        value := Some(values[0]);
        second := SecondValue(values[1]);
      } else {
        value := Some(values[0]);
        second := NoSecond;
      }
      assert Picked(op, values) == Ok((value, second));
      var found := ScanFilters(catalog, filterName, value);
      if found.None? {
        return Err(UnknownFilter);
      }
      var (key, translated) := found.value;
      var lowered := Lower(filterName);
      var recorded: seq<ScopedProject> := [];
      var rewritten: Option<Value>;
      if translated.Some? && filterName in FiltersWithUsers {
        var userId := GetUserId(tracker, translated);
        rewritten := IdValue(userId);
      } else if IsVersionFilter(lowered) {
        var versionId := GetVersionId(tracker, translated);
        rewritten := IdValue(versionId);
      } else if IsProjectFilter(lowered) {
        var projectId := FindProjectId(tracker, translated);
        recorded := [ScopedProject(projectId, translated)];
        rewritten := IdValue(projectId);
      } else {
        rewritten := translated;
      }
      var operator := FindOperator(op);
      r := Ok(Resolution(key, operator, rewritten, second, recorded));
    }

    /**
     * add_filter: nothing happens when nobody is logged in; otherwise the session's
     * clauses and project list become those `Added` gives, and the call raises when
     * `Added` reports an error. The totals are not touched, so `TotalsKept` holds on.
     */
    method AddFilter(filterName: string, operatorName: string, values: seq<Value>, tracker: Tracker)
      returns (r: Call<(), AddError>)
      requires FiltersNamed()
      modifies this`filters, this`projects
      ensures FiltersNamed()
      ensures old(user).None? ==> r == NotLoggedIn && filters == old(filters) && projects == old(projects)
      ensures old(user).Some? ==>
                var o := Added(catalog, Accumulated(old(filters), old(projects)), allProjects, tracker,
                               filterName, operatorName, values);
                Accumulated(filters, projects) == o.state
                && r == if o.error.None? then Returned(()) else Raised(o.error.value)
    {
      if user.None? {
        return NotLoggedIn;
      }
      var resolved := ResolveArguments(filterName, operatorName, values, tracker);
      if resolved.Err? {
        return Raised(resolved.error);
      }
      var res := resolved.value;
      AddedResolution(catalog, Accumulated(filters, projects), allProjects, tracker,
                      filterName, operatorName, values, res);
      r := Apply(res);
    }

    /**
     * The second half of add_filter: the project of a project filter is recorded; a
     * value-less clause merges into the first clause with the same key and operator;
     * otherwise the new clause is appended, with the second bound of a range.
     */
    method Apply(res: Resolution) returns (r: Call<(), AddError>)
      requires FiltersNamed()
      modifies this`filters, this`projects
      ensures FiltersNamed()
      ensures var o := Applied(Accumulated(old(filters), old(projects)), res);
              Accumulated(filters, projects) == o.state
              && r == if o.error.None? then Returned(()) else Raised(o.error.value)
    {
      ghost var before := Accumulated(filters, projects);
      projects := projects + res.recorded;
      var i := 0;
      while i < |filters|
        invariant 0 <= i <= |filters|
        invariant filters == before.filters
        invariant forall j :: 0 <= j < i ==> !(res.value.None? && SameClause(res.key, res.operator)(filters[j]))
      {
        var filterObj := filters[i];
        if res.value.None? && filterObj.filter == Some(res.key) && filterObj.operator == res.operator {
          FirstMatchAt(filters, SameClause(res.key, res.operator), i);
          if None !in filterObj.values {
            filters := filters[i := filterObj.(values := filterObj.values + [None])];
          }
          return Returned(());
        }
        i := i + 1;
      }
      if res.value.None? {
        assert FirstMatch(filters, SameClause(res.key, res.operator)).None?;
      }
      filters := filters + [Clause(Some(res.key), res.operator, if res.value.None? then [] else [res.value])];
      if res.second.SecondUnbound? {
        return Raised(UnboundRangeBound);
      }
      if res.second.SecondValue? {
        var last := filters[|filters| - 1];
        filters := filters[|filters| - 1 := last.(values := last.values + [Some(res.second.v)])];
      }
      return Returned(());
    }

    // ---------------------------------------------------------------- get_totals

    /**
     * The parse of _parse_info_from_issues_page over a fetched page: each option's
     * value becomes that of the last total span whose first class is its tag.
     */
    method ParseTotals(page: seq<Region>)
      requires Valid()
      requires forall i :: 0 <= i < |totalsKeys| ==> totals[totalsKeys[i]] == None
      modifies this`totals
      ensures Valid()
      ensures totals == ParsedTotals(totalsCatalog, totalsKeys, page)
    {
      var p := 0;
      while p < |page|
        invariant 0 <= p <= |page|
        invariant Valid()
        invariant forall t :: 0 <= t < |totalsKeys| ==>
                    totals[totalsKeys[t]] == LastValue(AllSpans(page[..p]), Tag(totalsCatalog, totalsKeys[t]))
      {
        assert AllSpans(page[..p + 1]) == AllSpans(page[..p]) + page[p] by {
          assert page[..p + 1][..p] == page[..p];
        }
        ParseRegion(page[p], AllSpans(page[..p]));
        p := p + 1;
      }
      assert page[..|page|] == page;
    }

    /** The loop over the total spans of one `query-totals` region. */
    method ParseRegion(region: Region, ghost before: seq<Span>)
      requires Valid()
      requires forall t :: 0 <= t < |totalsKeys| ==> totals[totalsKeys[t]] == LastValue(before, Tag(totalsCatalog, totalsKeys[t]))
      modifies this`totals
      ensures Valid()
      ensures forall t :: 0 <= t < |totalsKeys| ==> totals[totalsKeys[t]] == LastValue(before + region, Tag(totalsCatalog, totalsKeys[t]))
    {
      assert before + region[..0] == before;
      var s := 0;
      while s < |region|
        invariant 0 <= s <= |region|
        invariant Valid()
        invariant forall t :: 0 <= t < |totalsKeys| ==>
                    totals[totalsKeys[t]] == LastValue(before + region[..s], Tag(totalsCatalog, totalsKeys[t]))
      {
        var span := region[s];
        ghost var seen := before + region[..s + 1];
        assert seen[..|seen| - 1] == before + region[..s];
        assert seen[|seen| - 1] == span;
        if IsTotalSpan(span) {
          UpdateSpan(span, seen);
        } else {
          forall t | 0 <= t < |totalsKeys|
            ensures totals[totalsKeys[t]] == LastValue(seen, Tag(totalsCatalog, totalsKeys[t]))
          {
            SkippedSpan(seen, Tag(totalsCatalog, totalsKeys[t]));
          }
        }
        s := s + 1;
      }
      assert region[..|region|] == region;
    }

    /**
     * The innermost loop: every kept option whose tag is the span's first class takes
     * the span's value.
     */
    method UpdateSpan(span: Span, ghost seen: seq<Span>)
      requires Valid()
      requires IsTotalSpan(span)
      requires |seen| > 0 && seen[|seen| - 1] == span
      requires forall t :: 0 <= t < |totalsKeys| ==>
                 totals[totalsKeys[t]] == LastValue(seen[..|seen| - 1], Tag(totalsCatalog, totalsKeys[t]))
      modifies this`totals
      ensures Valid()
      ensures forall t :: 0 <= t < |totalsKeys| ==> totals[totalsKeys[t]] == LastValue(seen, Tag(totalsCatalog, totalsKeys[t]))
    {
      var kept := totalsKeys;
      var m := totals;
      var j := 0;
      while j < |kept|
        invariant 0 <= j <= |kept|
        invariant totals == old(totals) && m.Keys == totals.Keys
        invariant forall t :: 0 <= t < j ==> m[kept[t]] == LastValue(seen, Tag(totalsCatalog, kept[t]))
        invariant forall t :: j <= t < |kept| ==> m[kept[t]] == LastValue(seen[..|seen| - 1], Tag(totalsCatalog, kept[t]))
      {
        var option := kept[j];
        CarrierStep(seen, Tag(totalsCatalog, option));
        if span.classes[0] == Tag(totalsCatalog, option) {
          m := m[option := Some(span.value)];
        }
        j := j + 1;
      }
      totals := m;
    }

    /**
     * The first loop of get_totals: `_totals_options` starts empty and maps each
     * requested TOTALS_OPTIONS key to None.
     */
    method SelectOptions(options: seq<string>)
      modifies this`totalsKeys, this`totals
      ensures TotalsKept()
      ensures totalsKeys == Selected(totalsCatalog, options)
      ensures forall k :: k in totals ==> totals[k] == None
    {
      totalsKeys, totals := Selection(totalsCatalog, options);
    }

    /** The loop of get_totals over the requested options (ximc.py:261-263), on a given table. */
    static method Selection(table: map<string, string>, options: seq<string>)
      returns (keys: seq<string>, m: map<string, Option<real>>)
      ensures keys == Selected(table, options)
      ensures forall k :: k in m <==> k in keys
      ensures forall k :: k in m ==> m[k] == None
    {
      keys, m := [], map[];
      var i := 0;
      while i < |options|
        invariant 0 <= i <= |options|
        invariant keys == Selected(table, options[..i])
        invariant forall k :: k in m <==> k in keys
        invariant forall k :: k in m ==> m[k] == None
      {
        var option := options[i];
        SelectedStep(table, options, i);
        if option in table {
          if option !in keys {
            keys := keys + [option];
          }
          m := m[option := None];
        }
        i := i + 1;
      }
      assert options[..|options|] == options;
    }

    /**
     * get_totals: nothing happens when nobody is logged in. Otherwise the kept options
     * are the requested TOTALS_OPTIONS keys, each once; the query is built from the
     * session's clauses and those options; the values are read from the page fetched
     * for it. A query that cannot be built or a page that cannot be fetched raises,
     * with every kept option still None.
     */
    method GetTotals(options: seq<string>, fetch: string -> Option<seq<Region>>)
      returns (r: Call<map<string, Option<real>>, TotalsError>)
      requires Valid()
      modifies this`totalsKeys, this`totals
      ensures Valid()
      ensures old(user).None? ==> r == NotLoggedIn && totalsKeys == old(totalsKeys) && totals == old(totals)
      ensures old(user).Some? ==> totalsKeys == Selected(totalsCatalog, options)
      ensures old(user).Some? ==>
                match Url(projectIdentifier, filters, totalsKeys)
                case Err(e) => r == Raised(UrlFailed(e)) && (forall k :: k in totals ==> totals[k] == None)
                case Ok(url) =>
                  match fetch(url)
                  case None => r == Raised(TransportFailure) && (forall k :: k in totals ==> totals[k] == None)
                  case Some(page) => totals == ParsedTotals(totalsCatalog, totalsKeys, page) && r == Returned(totals)
    {
      if user.None? {
        return NotLoggedIn;
      }
      SelectOptions(options);
      var url := CreateUrl(projectIdentifier, filters, totalsKeys);
      if url.Err? {
        return Raised(UrlFailed(url.error));
      }
      var page := fetch(url.value);
      if page.None? {
        return Raised(TransportFailure);
      }
      ParseTotals(page.value);
      return Returned(totals);
    }
  }
}
