# Redmine filter accumulator and query builder — a Dafny model

This project models the core of a small client for the ximc Redmine issue tracker.
The client turns human-readable filter specifications into the query string of the
tracker's issue list, and reads the totals that page shows.

- `utils.py` holds the catalogs:
  - operator labels;
  - the symbol substitution;
  - the operators per value type;
  - the filter catalog with value tables;
  - the user filters and the totals options.
- `utils.py` also holds four pure functions: `decode_symbols`, `find_operator`,
  `find_real_filter_name_and_value` and `create_url`.
- `ximc.py` holds the `XimcRedmine` session. It has:
  - the `check_auth` guard;
  - `add_filter`, which accumulates filter clauses and records project filters;
  - `clear_filters` and `get_filters`;
  - `get_totals`, which selects totals options and reads their values from the issue-list page;
  - the first-match searches for a project, a user and a version.

Layout, one Dafny module per file:

| file | module | what it holds |
|---|---|---|
| `wrappers.dfy` | `Wrappers` | `Option`, `Result` |
| `text.dfy` | `Text` | `str.lower()`, `str.replace("_", "-")`, substring tests, `str(int)` |
| `search.dfy` | `Search` | first-match search over sequences and groups of sequences |
| `catalog.dfy` | `Catalog` | the constant tables of `utils.py`, as data |
| `clauses.dfy` | `Clauses` | filter values and the clause dictionaries `add_filter` builds |
| `resolver.dfy` | `Resolver` | `decode_symbols`, `find_operator`, `find_real_filter_name_and_value` |
| `url.dfy` | `UrlBuilder` | `create_url` |
| `directory.dfy` | `Directory` | the tracker's projects, memberships and versions; the three searches |
| `totals.dfy` | `Totals` | option selection and the span-class match of the page parse |
| `accumulator.dfy` | `Accumulator` | what `add_filter` decides and the state it leaves, as functions |
| `session.dfy` | `Session` | the class `XimcRedmine`, whose methods change the session step by step |

Each loop of the source is a method with the source's loop. Each method is proved equal
to a function, and the source's promises are proved about that function. The class
methods that change the session state prove that their new state is the state the
`Accumulator` and `Totals` functions give.

Interpretations where the files disagree:
- `ximc.py:264` calls `create_url` with two arguments, but `utils.py:148` takes three,
  with the project identifier first. The model follows `utils.py`. The session carries
  a `projectIdentifier` fixed at construction.
- `example.py` calls a `set_project` method that `ximc.py` does not define, so it is not modelled.
- `_parse_info_from_issues_page` catches `requests.exceptions`, which is a module, not an
  exception class. A failed download therefore raises a `TypeError` instead of returning
  `{}`. The model follows the code: `GetTotals` raises `TransportFailure`.
- Three tests in `add_filter` and `get_totals` can never succeed (see "## Findings").
  The class uses the corrected definitions. The definitions as written are modelled
  beside them, with lemmas that show the failure.

## Model

| member | source | states |
|---|---|---|
| Catalog.ConcatDistinct | utils.py:10-47 | two label lists, each without repeats and with no label in common, join without repeats |
| Catalog.OperatorLabelsDistinct | utils.py:10-47 | no two operators share a label, so the reverse lookup by label is unambiguous |
| Text.Lower | ximc.py:144-145 | lower-casing keeps the length and maps every character through `LowerChar`, so no upper-case letter remains |
| Text.Hyphenate | ximc.py:130 | `replace("_", "-")`: no underscore is left, text without one comes back unchanged, and the only characters that change are underscores, each into a hyphen |
| Text.LowerChar | ximc.py:144-145 | a lower-cased character is never an upper-case letter, and a character that is not one is kept |
| Resolver.Decoded | utils.py:187-190 | the substituted word is never shorter than the input |
| Resolver.Substitute | utils.py:49-53 | one character's substitute is never empty and never holds a raw `=`, `!` or space; a character outside the table is kept |
| Resolver.DecodedHasNoRawSymbols | utils.py:187-190 | no substituted word holds a raw `=`, `!` or space |
| Resolver.PlainIsUnchanged | utils.py:187-190 | a word holding none of `=`, `!`, `+`, space is returned unchanged |
| Resolver.DecodedAppend | utils.py:187-190 | the substitution is per character: decoding `a + b` gives decode(a) + decode(b) |
| Resolver.DecodeSymbols | utils.py:180-190 | the loop that appends `SYMBOLS_DECODING.get(symbol, symbol)` per character returns `Decoded(word)` |
| Resolver.UnescapeSubstitute | utils.py:49-53 | percent-decoding the substitution of one character other than `%` gives that character back |
| Resolver.Unescaped | utils.py:49-53 | percent-decoding as a form decoder reads the query never lengthens the text; `UnescapeDecoded` states that it inverts `Decoded` |
| Resolver.UnescapeDecoded | utils.py:49-53 | for words without `%`, percent-decoding undoes the substitution |
| Resolver.PercentIsNotProtected | utils.py:49-53 | a literal `%21` passes unchanged and then reads back as `!`: the substitution is not injective on words holding `%` |
| Resolver.OperatorKeyIn | utils.py:201-204 | the key returned belongs to an entry carrying exactly the given label; None exactly when no label equals the name |
| Resolver.OperatorKeyAt | utils.py:201-204 | the first entry carrying the label decides the key |
| Resolver.OperatorKeyUnique | utils.py:10-47 | looking up the label of entry i gives entry i's key |
| Resolver.OperatorKey | utils.py:193-204 | find_operator over `OPERATOR_LABELS`: `OperatorKeyIn` over that table, whose contract states the result; `EqualsOperatorKey` and `BetweenOperatorKey` state two of its answers |
| Resolver.FindOperator | utils.py:193-204 | find_operator over `OPERATOR_LABELS` returns `OperatorKey(name)` |
| Resolver.ScanOperators | utils.py:201-204 | the early-return loop returns `OperatorKeyIn(table, name)` for any table |
| Resolver.EqualsOperatorKey | utils.py:11 | the label "соответствует" resolves to `=` |
| Resolver.BetweenOperatorKey | utils.py:19 | the label "между" resolves to `><` |
| Resolver.TranslatedValue | utils.py:219-225 | without a value table the value is unchanged; with one, a value that some row's label equals becomes the id of the first such row, and any other value is unchanged |
| Resolver.RealFilterIn | utils.py:217-226 | None exactly when no entry has the display name; otherwise the key of the first such entry, with the value translated by that entry's table |
| Resolver.RealFilter | utils.py:207-226 | find_real_filter_name_and_value over `AVAILABLE_FILTERS`: `RealFilterIn` over that table, whose contract states the result; `StatusClosedResolves` and the `…Resolves` lemmas state its answers for the catalog's names |
| Resolver.RealFilterAt | utils.py:217-225 | the first entry carrying the display name decides the key and the value table |
| Resolver.RealFilterInPrefix | utils.py:217-225 | a name found in a table is found the same way when more entries follow |
| Resolver.RealFilterInNeither | utils.py:217-226 | a name that neither of two tables has is not found in the two joined |
| Resolver.DisplayNamesResolve | utils.py:217-225 | every display name of a table resolves |
| Resolver.IssueFieldLookup | utils.py:71-135 | the catalog finds the names of its issue field filters as that group alone does |
| Resolver.ClosedIsStatusFive | utils.py:72-75 | the first catalog entry is "Статус" with key `status_id`, and its value table gives "Closed" the id "5" |
| Resolver.StatusClosedResolves | utils.py:72-75 | "Статус" with value "Closed" resolves to `status_id` with value "5" |
| Resolver.PlainIssueField | utils.py:217-225 | an issue field filter without a value table resolves to its key and keeps the value |
| Resolver.CreatedResolves | utils.py:95 | "Создано" resolves to `created_on` and keeps its value |
| Resolver.ProjectResolves | utils.py:76 | "Проект" resolves to `project_id` and keeps its value |
| Resolver.AuthorResolves | utils.py:84 | "Автор" resolves to `author_id` and keeps its value |
| Resolver.AssigneeResolves | utils.py:85 | "Назначена" resolves to `assigned_to_id` and keeps its value |
| Resolver.UpdaterResolves | utils.py:106 | "Кем изменено" resolves to `updated_by` and keeps its value |
| Resolver.LastUpdaterResolves | utils.py:107 | "Последний изменивший" resolves to `last_updated_by` and keeps its value |
| Resolver.VersionResolves | utils.py:88 | "Версия" resolves to `fixed_version_id` and keeps its value |
| Resolver.IssueFieldsLackLowercaseStatus | utils.py:72-121 | no issue field filter is named "статус" |
| Resolver.CustomFieldsLackLowercaseStatus | utils.py:122-127 | no custom field filter is named "статус" |
| Resolver.RelationsLackLowercaseStatus | utils.py:128-131 | no relation filter is named "статус" |
| Resolver.OthersLackLowercaseStatus | utils.py:132-135 | no other filter is named "статус" |
| Resolver.LowercaseStatusIsNoName | utils.py:218 | the lower-cased name "статус" matches no display name |
| Resolver.FindRealFilterNameAndValue | utils.py:207-226 | the loop over `AVAILABLE_FILTERS` returns `RealFilter(name, value)` |
| Resolver.ScanFilters | utils.py:217-226 | the early-return scan with its inner value loop returns `RealFilterIn(table, name, value)` for any table |
| UrlBuilder.Prefix | utils.py:157 | the fixed start of every query; `Url` states that every built query starts with it |
| UrlBuilder.RenderedValue | utils.py:167-171 | writing one value fails exactly when a text operator (`~`, `!~`, `^`, `$`) meets a value that is not text; a substituted value holds no raw `=`, `!` or space; text under any other operator is written as it is |
| UrlBuilder.ValueSegments | utils.py:167-172 | one `v[name][]` parameter per value, in value order; `ValueSegmentsStep` and `ValueSegmentsFail` state how it grows and when it fails |
| UrlBuilder.ClauseSegments | utils.py:160-172 | a clause's parameters; `UnnamedClausesContributeNothing` and `SingleValueClause` state them |
| UrlBuilder.FilterSegments | utils.py:159-172 | the filter part, clause by clause; `FilterSegmentsAppend`, `FilterSegmentsFail` and `FailingClause` state it |
| UrlBuilder.TotalsSegments | utils.py:174-176 | the totals part, option by option; `TotalsSegmentsAppend`, `TotalsSegmentsFail` and `FailingOption` state it |
| UrlBuilder.Url | utils.py:157-177 | a built query starts with the fixed prefix and is the prefix, then every filter segment, then every totals segment; it fails exactly when a filter or an option fails |
| UrlBuilder.JoinAssociative | utils.py:157-177 | joining query pieces is associative, with the first error winning |
| UrlBuilder.FilterSegmentsAppend | utils.py:159-172 | the filter part of a concatenated clause list is the two parts in order |
| UrlBuilder.TotalsSegmentsAppend | utils.py:174-176 | the totals part of concatenated option lists is the two parts in order |
| UrlBuilder.UnnamedClausesContributeNothing | utils.py:163 | clauses whose filter is None add nothing to the query |
| UrlBuilder.OneClauseFilterPart | utils.py:159-172 | the filter part of a one-clause list is that clause's parameters |
| UrlBuilder.SingleValueClause | utils.py:164-172 | a named clause with one text value gives `&f%5B%5D=`, `&op%5B..%5D=` with the substituted operator, one `&v%5B..%5D%5B%5D=` segment |
| UrlBuilder.ValueSegmentsFail | utils.py:166-172 | the values fail exactly when a text operator meets a non-text value, and then with `ValueNotText` |
| UrlBuilder.FilterSegmentsFail | utils.py:159-172 | the filter part fails exactly when some clause is faulty |
| UrlBuilder.TotalsSegmentsFail | utils.py:174-176 | the totals part fails exactly when some option is not a `TOTALS_OPTIONS` key |
| UrlBuilder.UrlFailsExactly | utils.py:157-177 | the query fails exactly when a clause is faulty or an option is unknown |
| UrlBuilder.FailingClause | utils.py:159-172 | the first faulty clause decides the error |
| UrlBuilder.FailingOption | utils.py:174-176 | the first unknown option decides the error |
| UrlBuilder.EqualsOperatorEncoded | utils.py:50 | the operator `=` is written `%3D` |
| UrlBuilder.SpaceBecomesPlus | utils.py:53 | a space between two plain words is written `+` |
| UrlBuilder.ContainsTwoWords | utils.py:164-172 | a "contains" clause keeps `~` as its operator and writes a value of two plain words with `+` between them |
| UrlBuilder.SpentTimeTotal | utils.py:139-145 | the option "Трудозатраты" is written `&t%5B%5D=spent_hours` |
| UrlBuilder.EqualsQueryWithSpentTime | utils.py:157-177 | the whole query for one "=" clause and the spent-time total: prefix, `&f%5B%5D=name&op%5Bname%5D=%3D`, the value unsubstituted, `&t%5B%5D=spent_hours` |
| UrlBuilder.FilterSegmentsStep | utils.py:159-172 | one more clause extends the filter part by that clause's parameters |
| UrlBuilder.TotalsSegmentsStep | utils.py:174-176 | one more option extends the totals part by that option's parameter |
| UrlBuilder.ValueSegmentsStep | utils.py:167-172 | one more value extends the value parameters by that value's parameter |
| UrlBuilder.RenderValue | utils.py:168-171 | the loop body writes a value as `RenderedValue` does: substituted for text operators, as is otherwise |
| UrlBuilder.AppendValueParams | utils.py:166-172 | the value loop appends exactly the value segments |
| UrlBuilder.AppendTotalsParams | utils.py:174-176 | the totals loop appends exactly the totals segments |
| UrlBuilder.AppendClauseParams | utils.py:159-172 | the body of the filter loop appends exactly one clause's segments |
| UrlBuilder.CreateUrl | utils.py:148-177 | the method with the source's loops returns `Url(...)` |
| Directory.ProjectId | ximc.py:55-67 | the id of the first project with exactly that name; None exactly when no project has it |
| Directory.UserIdIn | ximc.py:76-81 | the id of the first membership whose user has exactly that name; None exactly when none has it; group memberships never match |
| Directory.VersionIdIn | ximc.py:105-107 | the id of the first version with exactly that name; None exactly when none has it |
| Directory.FirstIdInGroups | ximc.py:83-93 | the first hit of the first list that has one; `FirstIdInGroupsSkip`, `FirstIdInGroupsAt` and `NoHitInGroups` state it |
| Directory.UserId | ximc.py:83-93 | what _get_user_id returns; `UserIdIsFlatSearch`, `ScopedUserWins`, `KnownUserFound` and `UserNotFound` state it |
| Directory.VersionId | ximc.py:102-113 | what _get_version_id returns; `ScopedVersionWins`, `KnownVersionFound` and `VersionNotFound` state it |
| Directory.FirstIdInGroupsSkip | ximc.py:83-93 | lists without a hit can be skipped |
| Directory.FirstIdInGroupsAt | ximc.py:83-93 | the first list with a hit decides the search |
| Directory.UserIdIsFlatSearch | ximc.py:69-93 | the list-by-list user search finds the first matching member of all lists joined in order |
| Directory.ScopedUserWins | ximc.py:83-88 | a user found in a filtered project wins over every project known at login |
| Directory.KnownUserFound | ximc.py:89-92 | without a hit in the filtered projects, the first known project with the user decides |
| Directory.UserNotFound | ximc.py:93 | a user in no searched list is not found |
| Directory.ScopedVersionWins | ximc.py:102-107 | a version of a filtered project wins over every project known at login |
| Directory.KnownVersionFound | ximc.py:108-112 | without a hit in the filtered projects, the first known project with the version decides |
| Directory.VersionNotFound | ximc.py:113 | a version in no searched list is not found |
| Directory.OnlyTextNamesMatch | ximc.py:65 | a None or numeric name finds no project, no user and no version |
| Directory.NoHitInGroups | ximc.py:93 | when no list has a hit the search returns None |
| Totals.IsTotalSpan | ximc.py:128 | the spans `find_all` keeps for the pattern `total-for-`: one of the classes holds that text; `TagMatchIsTotalSpan` and `SkippedSpan` state its role |
| Totals.Carries | ximc.py:128-131 | a kept span whose first class is the option's tag; `CarrierStep` states its role |
| Totals.Tag | ximc.py:130-131 | an option's tag starts with `total-for-` |
| Totals.LastValue | ximc.py:127-133 | the value the parse loop leaves for one tag; `LastValueIsLastCarrier` and `LastValueAppend` state it |
| Totals.AllSpans | ximc.py:126-128 | the spans of all regions in document order; `LastValueAppend` states that a later region overrides an earlier one |
| Totals.LastValueIsLastCarrier | ximc.py:127-133 | an option ends with the value of the last span carrying its tag; None exactly when no span does |
| Totals.SkippedSpan | ximc.py:128 | a span without a `total-for-` class changes no value |
| Totals.CarrierStep | ximc.py:129-133 | a kept span sets the option whose tag is its first class and no other |
| Totals.LastValueAppend | ximc.py:127-133 | over several regions, a later region overrides an earlier one |
| Totals.TagMatchIsTotalSpan | ximc.py:128-131 | a span whose first class is a tag is one the `total-for-` pattern keeps |
| Totals.Selected | ximc.py:260-263 | the kept options are exactly the requested ones that are `TOTALS_OPTIONS` keys, each once |
| Totals.SelectedStep | ximc.py:261-263 | one more requested option is appended exactly when it is a key not kept yet |
| Totals.SelectedIgnoresRepeats | ximc.py:261-263 | requesting an option again changes nothing |
| Totals.ParsedTotals | ximc.py:127-133 | the parsed map has exactly the kept options as keys; an option is None exactly when no span of the page carries its tag, and otherwise holds the value of the last span that does |
| Totals.TotalsKeysAreCapitalised | utils.py:139-145 | every `TOTALS_OPTIONS` key starts with an upper-case letter |
| Totals.LoweredIsNeverAKey | ximc.py:262 | no lower-cased text is a `TOTALS_OPTIONS` key |
| Totals.SelectedAsWritten | ximc.py:260-263 | the selection with the lower-cased key test as written; `AsWrittenSelectsNothing` states that it keeps nothing |
| Totals.AsWrittenSelectsNothing | ximc.py:260-263 | as written, `get_totals` keeps no option, whatever it is asked for |
| Accumulator.Picked | ximc.py:146-152 | no values gives None; "between" with one value is an error; otherwise the first value |
| Accumulator.Rewritten | ximc.py:154-161 | key, operator and second bound are kept; a None value stays None; only a project filter records a project |
| Accumulator.WithNone | ximc.py:166-168 | None is appended only when absent; filter and operator are kept |
| Accumulator.NewClause | ximc.py:170-174 | the appended clause holds the real key and operator key, the value first when there is one, the second bound last when there is one, never None, and at most two values |
| Accumulator.Applied | ximc.py:160-174 | the project list grows by exactly what the project filter recorded |
| Accumulator.Resolve | ximc.py:144-162 | add_filter's resolution with the display name looked up as given; `StatusFilterResolves`, `CreatedRangeResolves`, `AuthorFilterCarriesUserId`, `ProjectFilterRecordsProject` and `ValuelessResolveIgnoresScope` state it |
| Accumulator.ResolveAsWritten | ximc.py:144-162 | the resolution as written, with the lower-cased lookup and the key test; `LoweredLookupMissesStatus` and `AuthorFailsKeyTestAsWritten` state how it fails |
| Accumulator.Added | ximc.py:135-174 | the outcome of add_filter; `AddedResolution` ties it to `Applied`, and the lemmas below state its cases |
| Accumulator.ValuelessResolveIgnoresScope | ximc.py:146-161 | a call without values resolves the same whatever projects are recorded |
| Accumulator.OneValueAppendsOneClause | ximc.py:163-172 | a call whose resolved value is not None appends exactly one clause at the end, with that value, and leaves every earlier clause unchanged |
| Accumulator.FailedLookupMerges | ximc.py:146-172 | a call other than "between" that resolves to None, because it has no values or because its user, version or project lookup finds nothing, raises nothing: None merges into the first clause with the same key and operator, or else a clause without values is appended; the project list grows by what was recorded |
| Accumulator.ValuelessCallMerges | ximc.py:158-169 | a call without values adds no clause when one with the same key and operator exists; that clause keeps its filter and operator and gets None once, every other clause is unchanged, and the project list grows by what the project filter recorded |
| Accumulator.ValuelessMergeIdempotent | ximc.py:158-169 | repeating a merging call raises nothing and leaves the clause list unchanged; a project filter records its (id, name) pair again |
| Accumulator.BetweenKeepsBothBounds | ximc.py:148-174 | with "between" the new clause's values are the resolved first value, then the second value as given, in order |
| Accumulator.BetweenNeedsTwoValues | ximc.py:148-150 | "between" with one value raises and changes nothing |
| Accumulator.BetweenWithoutValues | ximc.py:173-174 | "between" without values and no clause to merge appends the clause, then raises |
| Accumulator.ExtraValuesIgnored | ximc.py:146-152 | values past the first (past the second for "between") make no difference |
| Accumulator.UnknownFilterChangesNothing | ximc.py:153 | a name no catalog entry has raises and changes nothing |
| Accumulator.PlainFilterKeepsValue | ximc.py:154-161 | a filter that is no user, version or project filter keeps its translated value |
| Accumulator.OneValueOfPlainFilter | ximc.py:144-162 | such a filter with one value resolves to its key, the operator's key and the translated value |
| Accumulator.RangeOfPlainFilter | ximc.py:144-162 | such a filter with "between" resolves to both bounds |
| Accumulator.StatusFilterResolves | ximc.py:144-162 | corrected: "Статус" "соответствует" "Closed" resolves to `status_id`, `=`, "5" |
| Accumulator.LoweredLookupMissesStatus | ximc.py:144-153 | as written, the same call fails with an unknown filter |
| Accumulator.CreatedRangeResolves | ximc.py:144-162 | "Создано" "между" from to resolves to `created_on`, `><`, both bounds |
| Accumulator.CreatedBetweenExample | ximc.py:136-174 | that call on an empty session leaves one clause `created_on` `><` [from, to] and raises nothing |
| Accumulator.RangeIntoEmptySession | ximc.py:170-174 | any resolved range call on an empty session leaves exactly its one clause |
| Accumulator.UserKeysAreNoDisplayNames | utils.py:137 | none of the keys `author_id`, `assigned_to_id`, `updated_by`, `last_updated_by` is in `FILTERS_WITH_USERS` |
| Accumulator.AuthorFailsKeyTestAsWritten | ximc.py:154 | as written, the author filter resolves but its key fails the user test |
| Accumulator.AuthorFilterCarriesUserId | ximc.py:154-155 | corrected: an author filter carries the id `_get_user_id` finds for the name |
| Accumulator.VersionFilterRewrite | ximc.py:156-157 | outside the user branch, a version filter's value becomes the id `_get_version_id` finds for it, and nothing is recorded |
| Accumulator.VersionFilterCarriesVersionId | ximc.py:144-162 | a "Версия" "соответствует" call resolves to `fixed_version_id`, `=`, the version id found searching the recorded projects first, and records nothing |
| Accumulator.ProjectFilterRecordsProject | ximc.py:158-161 | a project filter carries the project's id and appends (id, name) to the recorded projects |
| Session.XimcRedmine.constructor | ximc.py:40-53 | a new session has no user, no projects, no filters and no totals |
| Session.XimcRedmine.Auth | ximc.py:176-182 | after login the user is set and the known projects are the tracker's projects |
| Session.XimcRedmine.ClearFilters | ximc.py:184-190 | no clauses and no recorded projects remain |
| Session.XimcRedmine.GetFilters | ximc.py:192-198 | returns the clauses in insertion order; every clause names its filter |
| Session.XimcRedmine.FindProjectId | ximc.py:55-67 | the search loop returns `ProjectId` over the tracker's projects |
| Session.XimcRedmine.UserFromMemberships | ximc.py:76-81 | the inner loop returns `UserIdIn` |
| Session.XimcRedmine.GetUserId | ximc.py:69-93 | returns `UserId` over the recorded projects' ids and the known projects |
| Session.XimcRedmine.UserIdAmong | ximc.py:83-93 | the two loops return `UserId` |
| Session.XimcRedmine.VersionFromList | ximc.py:105-107 | the inner loop returns `VersionIdIn` |
| Session.XimcRedmine.GetVersionId | ximc.py:95-113 | returns `VersionId` over the recorded projects' ids and the known projects |
| Session.XimcRedmine.VersionIdAmong | ximc.py:102-113 | the two loops return `VersionId` |
| Session.XimcRedmine.ResolveArguments | ximc.py:144-162 | picking, lookup, rewriting and operator lookup give `Resolve` |
| Session.XimcRedmine.AddFilter | ximc.py:135-174 | not logged in: nothing changes; otherwise clauses and projects become `Added`, raising exactly when it reports an error |
| Session.XimcRedmine.Apply | ximc.py:160-174 | the merge loop and the appends leave the state `Applied` gives |
| Session.XimcRedmine.SelectOptions | ximc.py:260-263 | the kept options become `Selected(options)`, each None |
| Session.XimcRedmine.Selection | ximc.py:261-263 | the loop over the requested options builds `Selected(table, options)` and a map from exactly those options to None |
| Session.XimcRedmine.ParseTotals | ximc.py:127-133 | the parse loops leave `ParsedTotals` |
| Session.XimcRedmine.ParseRegion | ximc.py:128-133 | one region's loop extends the last-carrier values over that region |
| Session.XimcRedmine.UpdateSpan | ximc.py:129-133 | the innermost loop sets exactly the options whose tag is the span's first class |
| Session.XimcRedmine.GetTotals | ximc.py:252-266 | not logged in: nothing changes; otherwise the selection, then a failure of the query or the download, or the parsed totals |

## Left out

- Network I/O: the HTTP download of the issue list, with its timeout and credentials. `GetTotals` takes the page as the answer of a `fetch` function, and None stands for a failed download.
- The Redmine client library: `Redmine(...)`, `auth()`, `project.all()`, `project_membership.filter`, `version.filter`. Their answers are the data of a `Tracker` value. Login is given the authenticated account.
- HTML parsing and `float(...)`: the page is a sequence of `query-totals` regions, each a sequence of spans with their class lists and a `real` value. A missing inner value span is not modelled.
- `get_groups`, `get_users`, `get_roles`, `get_projects`, `get_project` and `get_versions_for_project` are thin wrappers around library calls, and so is their `ForbiddenError` handling.
- The `print` in `check_auth`. Only the silent return is modelled, as `NotLoggedIn`.
- `save_finances.py` and `example.py`: scripts with no logic of the core.
- `BRACKET_CONVERTER` is never used by the code. `OPERATOR_BY_TYPES` is data only: nothing checks an operator against it.
- Text.Lower: does not model Python's full Unicode lower-casing. It covers ASCII and the Cyrillic capitals U+0400..U+042F, which is all the catalogs use.
- Session.XimcRedmine.GetFilters: does not model aliasing. Python returns the live list, which a later `add_filter` changes; the model returns a value.
- Arguments of `add_filter` are text or integers. An explicit `None` argument is not modelled. A clause can still hold None through the merge rule, and `create_url` writes it `None`.
- Session.XimcRedmine.AddFilter: requires and keeps only `FiltersNamed`. It does not touch the totals fields, so `TotalsKept` and with it `Valid` carry over unchanged.
- The session resolves names in `catalog` and selects options from `totalsCatalog`. The constructor sets them to `AVAILABLE_FILTERS` and `TOTALS_OPTIONS`.

## Findings

| source | as written | input that shows it | evidently intended | confidence | as-written member | corrected member |
|---|---|---|---|---|---|---|
| ximc.py:144-153 | the filter name is lower-cased before the exact catalog lookup, so no capitalised display name is found and the tuple unpack raises | `add_filter("Статус", "соответствует", "Closed")` | look up the display name as given, and keep the lower-cased name for the "версия"/"проект" tests | not executed | Accumulator.LoweredLookupMissesStatus | Accumulator.StatusFilterResolves |
| ximc.py:154 | the real key is tested against `FILTERS_WITH_USERS`, which holds display names, so no value is ever turned into a user id | `add_filter("Автор", "соответствует", "Иван Петров")` | test the display name | not executed | Accumulator.AuthorFailsKeyTestAsWritten | Accumulator.AuthorFilterCarriesUserId |
| ximc.py:260-263, ximc.py:130 | an option is kept only when its lower-cased form is a `TOTALS_OPTIONS` key; every key starts upper-case, so nothing is kept (and the parse looks the option up lower-cased too) | `get_totals("Трудозатраты")` | keep the options that are keys as given, and look them up as given, as `create_url` (utils.py:175) does | not executed | Totals.AsWrittenSelectsNothing | Totals.Selected |
