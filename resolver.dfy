/**
 * The lookup and encoding functions of utils.py: decode_symbols, find_operator and
 * find_real_filter_name_and_value. Each is specified by a function and implemented
 * by a method with the source's loop.
 */
module Resolver {
  import opened Wrappers
  import opened Search
  import opened Catalog
  import opened Clauses

  // ---------------------------------------------------------------- decode_symbols

  /**
   * `SYMBOLS_DECODING.get(c, c)`: never empty and never a raw '=', '!' or space; a
   * character outside the table is kept.
   */
  function Substitute(c: char): (r: string)
    ensures |r| >= 1
    ensures NoRawSymbols(r)
    ensures c !in SymbolsDecoding ==> r == [c]
  {
    if c in SymbolsDecoding then SymbolsDecoding[c] else [c]
  }

  /** `t` holds none of the characters that the tracker's router mistreats. */
  predicate NoRawSymbols(t: string) {
    forall i :: 0 <= i < |t| ==> t[i] != '=' && t[i] != '!' && t[i] != ' '
  }

  /** `s` holds no character of the substitution table. */
  predicate Plain(s: string) {
    forall i :: 0 <= i < |s| ==> s[i] !in SymbolsDecoding
  }

  /**
   * What decode_symbols returns: every character replaced by its substitute, in order.
   * The result is never shorter than the input.
   */
  function Decoded(s: string): (r: string)
    ensures |r| >= |s|
    decreases |s|
  {
    if s == [] then []
    else
      assert s == s[..|s| - 1] + [s[|s| - 1]];
      Decoded(s[..|s| - 1]) + Substitute(s[|s| - 1])
  }

  /** Decoding a non-empty word: the decoded word without its last character, then that character's substitute. */
  lemma DecodedLast(s: string)
    requires s != []
    ensures Decoded(s) == Decoded(s[..|s| - 1]) + Substitute(s[|s| - 1])
  {
  }

  /** No decoded word holds '=', '!' or a space. */
  lemma {:induction false} DecodedHasNoRawSymbols(s: string)
    ensures NoRawSymbols(Decoded(s))
    decreases |s|
  {
    if s != [] {
      DecodedHasNoRawSymbols(s[..|s| - 1]);
      DecodedLast(s);
      var c := s[|s| - 1];
      assert NoRawSymbols(Substitute(c)) by {
        if c in SymbolsDecoding {
          assert c == '=' || c == '!' || c == '+' || c == ' ';
        }
      }
    }
  }

  /** A word holding no character of the table is decoded to itself. */
  lemma {:induction false} PlainIsUnchanged(s: string)
    requires Plain(s)
    ensures Decoded(s) == s
    decreases |s|
  {
    if s != [] {
      var init := s[..|s| - 1];
      assert Plain(init) by {
        assert forall i :: 0 <= i < |init| ==> init[i] == s[i];
      }
      PlainIsUnchanged(init);
      DecodedLast(s);
      assert s == init + [s[|s| - 1]];
    }
  }

  /** decode_symbols is a homomorphism of strings: it substitutes character by character. */
  lemma {:induction false} DecodedAppend(a: string, b: string)
    ensures Decoded(a + b) == Decoded(a) + Decoded(b)
    decreases |b|
  {
    if b == [] {
      assert a + b == a;
    } else {
      var b', c := b[..|b| - 1], b[|b| - 1];
      assert (a + b)[..|a + b| - 1] == a + b';
      assert (a + b)[|a + b| - 1] == c;
      DecodedLast(a + b);
      DecodedAppend(a, b');
      DecodedLast(b);
    }
  }

  /** The loop of decode_symbols (utils.py:187-190). */
  method DecodeSymbols(word: string) returns (decodedWord: string)
    ensures decodedWord == Decoded(word)
  {
    decodedWord := "";
    var i := 0;
    while i < |word|
      invariant 0 <= i <= |word|
      invariant decodedWord == Decoded(word[..i])
    {
      assert word[..i + 1][..i] == word[..i];
      decodedWord := decodedWord + Substitute(word[i]);
      i := i + 1;
    }
    assert word[..i] == word;
  }

  /** The character a percent escape "%hl" stands for, among the three the substitution writes. */
  function Escaped(h: char, l: char): Option<char> {
    if h == '3' && l == 'D' then Some('=')
    else if h == '2' && l == '1' then Some('!')
    else if h == '2' && l == 'B' then Some('+')
    else None
  }

  /**
   * The inverse of the substitution, as a form decoder reads the query string:
   * "%3D", "%21" and "%2B" become '=', '!' and '+', and '+' becomes a space.
   */
  function Unescaped(t: string): (r: string)
    ensures |r| <= |t|
    decreases |t|
  {
    if t == [] then []
    else if t[0] == '%' && |t| >= 3 && Escaped(t[1], t[2]).Some? then [Escaped(t[1], t[2]).value] + Unescaped(t[3..])
    else if t[0] == '+' then " " + Unescaped(t[1..])
    else [t[0]] + Unescaped(t[1..])
  }

  /** Decoding one substituted character gives the character back. */
  lemma UnescapeSubstitute(c: char, rest: string)
    requires c != '%'
    ensures Unescaped(Substitute(c) + rest) == [c] + Unescaped(rest)
  {
    var t := Substitute(c) + rest;
    if c == '=' || c == '!' || c == '+' {
      assert Substitute(c) == ['%'] + (if c == '=' then "3D" else if c == '!' then "21" else "2B");
      assert t[0] == '%' && Escaped(t[1], t[2]) == Some(c) && t[3..] == rest;
    } else if c == ' ' {
      assert Substitute(c) == "+";
      assert t[0] == '+' && t[1..] == rest;
    } else {
      assert Substitute(c) == [c];
      assert t[0] == c && t[1..] == rest;
    }
  }

  /**
   * Round trip: a value without '%' is recovered exactly from its substituted form.
   * (A '%' is not substituted, so a value holding "%21" comes back as "!".)
   */
  lemma {:induction false} UnescapeDecoded(s: string)
    requires forall i :: 0 <= i < |s| ==> s[i] != '%'
    ensures Unescaped(Decoded(s)) == s
    decreases |s|
  {
    if s != [] {
      var rest := s[1..];
      assert s == [s[0]] + rest;
      DecodedAppend([s[0]], rest);
      assert Decoded([s[0]]) == Substitute(s[0]) by {
        assert [s[0]][..0] == [];
      }
      UnescapeSubstitute(s[0], Decoded(rest));
      UnescapeDecoded(rest);
    }
  }

  /** Why the round trip needs its precondition: "%21" is not substituted and reads back as "!". */
  lemma PercentIsNotProtected()
    ensures Decoded("%21") == "%21"
    ensures Unescaped(Decoded("%21")) == "!"
  {
    var t := "%21";
    PlainIsUnchanged(t);
    assert t[0] == '%' && t[1] == '2' && t[2] == '1' && t[3..] == [];
    assert Unescaped(t) == ['!'] + Unescaped([]);
  }

  // ---------------------------------------------------------------- find_operator

  /**
   * The key of the first entry of `table` whose label is `name`: an entry carrying
   * that key and label, or None exactly when no label is `name`.
   */
  function OperatorKeyIn(table: seq<OperatorEntry>, name: string): (r: Option<string>)
    ensures r.Some? ==> exists i :: 0 <= i < |table| && table[i] == OperatorEntry(r.value, name)
    ensures r.None? <==> forall i :: 0 <= i < |table| ==> table[i].caption != name
  {
    match FirstMatch(table, (e: OperatorEntry) => e.caption == name)
    case None => None
    case Some(i) => Some(table[i].key)
  }

  /** What find_operator returns: the key OPERATOR_LABELS gives the label `name`. */
  function OperatorKey(name: string): Option<string> {
    OperatorKeyIn(OperatorLabels, name)
  }

  /** The operator found for a name is that of the first entry carrying it. */
  lemma OperatorKeyAt(table: seq<OperatorEntry>, name: string, i: nat)
    requires i < |table| && table[i].caption == name
    requires forall j :: 0 <= j < i ==> table[j].caption != name
    ensures OperatorKeyIn(table, name) == Some(table[i].key)
  {
    FirstMatchAt(table, (e: OperatorEntry) => e.caption == name, i);
  }

  /** Labels are distinct, so the operator found for a label is the one that carries it. */
  lemma OperatorKeyUnique(i: nat)
    requires i < |OperatorLabels|
    ensures OperatorKey(OperatorLabels[i].caption) == Some(OperatorLabels[i].key)
  {
    OperatorLabelsDistinct();
    OperatorKeyAt(OperatorLabels, OperatorLabels[i].caption, i);
  }

  /** The loop of find_operator (utils.py:201-204), over OPERATOR_LABELS. */
  method FindOperator(operatorName: string) returns (r: Option<string>)
    ensures r == OperatorKey(operatorName)
  {
    r := ScanOperators(OperatorLabels, operatorName);
  }

  /** The early-return scan of find_operator over any table of labels. */
  method ScanOperators(table: seq<OperatorEntry>, operatorName: string) returns (r: Option<string>)
    ensures r == OperatorKeyIn(table, operatorName)
  {
    var i := 0;
    while i < |table|
      invariant 0 <= i <= |table|
      invariant forall j :: 0 <= j < i ==> table[j].caption != operatorName
    {
      if table[i].caption == operatorName {
        OperatorKeyAt(table, operatorName, i);
        return Some(table[i].key);
      }
      i := i + 1;
    }
    return None;
  }

  // ---------------------------------------------------------------- find_real_filter_name_and_value

  /**
   * The value after the table lookup: the id of the first row whose label equals
   * `value`; `value` itself when the filter has no list of rows or no row matches.
   */
  function TranslatedValue(rows: Option<seq<ValueRow>>, value: Option<Value>): (r: Option<Value>)
    ensures rows.None? ==> r == value
    ensures (rows.Some? && forall j :: 0 <= j < |rows.value| ==> Some(Str(rows.value[j].caption)) != value)
              ==> r == value
    ensures rows.Some? && r != value ==>
              exists j :: 0 <= j < |rows.value| && Some(Str(rows.value[j].caption)) == value
                          && r == Some(Str(rows.value[j].id))
                          && forall k :: 0 <= k < j ==> Some(Str(rows.value[k].caption)) != value
    ensures rows.Some? ==>
              forall j :: 0 <= j < |rows.value| && Some(Str(rows.value[j].caption)) == value
                          && (forall k :: 0 <= k < j ==> Some(Str(rows.value[k].caption)) != value)
                          ==> r == Some(Str(rows.value[j].id))
  {
    match rows
    case None => value
    case Some(rs) =>
      match FirstMatch(rs, (row: ValueRow) => Some(Str(row.caption)) == value)
      case None => value
      case Some(j) => Some(Str(rs[j].id))
  }

  /**
   * What find_real_filter_name_and_value returns when it scans `table`: None exactly
   * when no entry has display name `filterName`; otherwise the key of the first such
   * entry together with the value translated through that entry's value table.
   */
  function RealFilterIn(table: seq<FilterEntry>, filterName: string, value: Option<Value>)
    : (r: Option<(string, Option<Value>)>)
    ensures r.None? <==> forall i :: 0 <= i < |table| ==> table[i].name != filterName
    ensures r.Some? ==>
              exists i :: 0 <= i < |table| && table[i].name == filterName
                          && (forall j :: 0 <= j < i ==> table[j].name != filterName)
                          && r.value == (table[i].key, TranslatedValue(table[i].values, value))
  {
    match FirstMatch(table, (e: FilterEntry) => e.name == filterName)
    case None => None
    case Some(i) => Some((table[i].key, TranslatedValue(table[i].values, value)))
  }

  /** find_real_filter_name_and_value over the catalog AVAILABLE_FILTERS. */
  function RealFilter(filterName: string, value: Option<Value>): Option<(string, Option<Value>)> {
    RealFilterIn(AvailableFilters, filterName, value)
  }

  /** The first entry carrying the display name decides the lookup. */
  lemma RealFilterAt(table: seq<FilterEntry>, filterName: string, value: Option<Value>, i: nat)
    requires i < |table| && table[i].name == filterName
    requires forall j :: 0 <= j < i ==> table[j].name != filterName
    ensures RealFilterIn(table, filterName, value) == Some((table[i].key, TranslatedValue(table[i].values, value)))
  {
    FirstMatchAt(table, (e: FilterEntry) => e.name == filterName, i);
  }

  /** A name found in a table is found the same way when more entries follow it. */
  lemma RealFilterInPrefix(a: seq<FilterEntry>, b: seq<FilterEntry>, filterName: string, value: Option<Value>)
    requires RealFilterIn(a, filterName, value).Some?
    ensures RealFilterIn(a + b, filterName, value) == RealFilterIn(a, filterName, value)
  {
    var i :| 0 <= i < |a| && a[i].name == filterName && (forall j :: 0 <= j < i ==> a[j].name != filterName)
             && RealFilterIn(a, filterName, value).value == (a[i].key, TranslatedValue(a[i].values, value));
    assert forall j :: 0 <= j <= i ==> (a + b)[j] == a[j];
    RealFilterAt(a + b, filterName, value, i);
  }

  /** A name that neither table has is not found in the two joined. */
  lemma RealFilterInNeither(a: seq<FilterEntry>, b: seq<FilterEntry>, filterName: string, value: Option<Value>)
    requires RealFilterIn(a, filterName, value).None? && RealFilterIn(b, filterName, value).None?
    ensures RealFilterIn(a + b, filterName, value).None?
  {
    forall i | 0 <= i < |a + b|
      ensures (a + b)[i].name != filterName
    {
      if i >= |a| {
        assert (a + b)[i] == b[i - |a|];
      }
    }
  }

  /** The catalog finds the names of its issue field filters as that group alone does. */
  lemma IssueFieldLookup(filterName: string, value: Option<Value>)
    requires RealFilterIn(IssueFieldFilters, filterName, value).Some?
    ensures RealFilter(filterName, value) == RealFilterIn(IssueFieldFilters, filterName, value)
  {
    RealFilterInPrefix(IssueFieldFilters, CustomFieldFilters, filterName, value);
    RealFilterInPrefix(IssueFieldFilters + CustomFieldFilters, RelationFilters, filterName, value);
    RealFilterInPrefix(IssueFieldFilters + CustomFieldFilters + RelationFilters, OtherFilters, filterName, value);
  }

  /** Every display name of a table resolves, to the first entry carrying it. */
  lemma DisplayNamesResolve(table: seq<FilterEntry>, i: nat, value: Option<Value>)
    requires i < |table|
    ensures RealFilterIn(table, table[i].name, value).Some?
  {
    assert table[i].name == table[i].name;
  }

  /**
   * The example of the tracker's UI: status "Closed" is value id "5" of the status filter.
   */
  lemma StatusClosedResolves()
    ensures RealFilter("Статус", Some(Str("Closed"))) == Some(("status_id", Some(Str("5"))))
  {
    ClosedIsStatusFive();
    RealFilterAt(IssueFieldFilters, "Статус", Some(Str("Closed")), 0);
    IssueFieldLookup("Статус", Some(Str("Closed")));
  }

  /** The value table of the status filter gives "Closed" the id "5". */
  lemma ClosedIsStatusFive()
    ensures IssueFieldFilters[0].key == "status_id" && IssueFieldFilters[0].name == "Статус"
    ensures TranslatedValue(IssueFieldFilters[0].values, Some(Str("Closed"))) == Some(Str("5"))
  {
    var rows := IssueFieldFilters[0].values.value;
    assert rows[4] == ValueRow("Closed", "5");
    assert forall k :: 0 <= k < 4 ==> Some(Str(rows[k].caption)) != Some(Str("Closed"));
    FirstMatchAt(rows, (row: ValueRow) => Some(Str(row.caption)) == Some(Str("Closed")), 4);
  }

  /** "соответствует" is the label of "=", the first operator of the table. */
  lemma EqualsOperatorKey()
    ensures OperatorKey("соответствует") == Some("=")
  {
    assert OperatorLabels[0] == OperatorEntry("=", "соответствует");
  }

  /** "между" is the label of "><". */
  lemma BetweenOperatorKey()
    ensures OperatorKey("между") == Some("><")
  {
    assert forall j :: 0 <= j < 8 ==> OperatorLabels[j].caption != "между";
    assert OperatorLabels[8] == OperatorEntry("><", "между");
    FirstMatchAt(OperatorLabels, (e: OperatorEntry) => e.caption == "между", 8);
  }

  /** The issue field filter at position `i` of its group, without a value table, keeps the value. */
  lemma PlainIssueField(filterName: string, value: Option<Value>, i: nat)
    requires i < |IssueFieldFilters| && IssueFieldFilters[i].name == filterName
    requires IssueFieldFilters[i].values.None?
    requires forall j :: 0 <= j < i ==> IssueFieldFilters[j].name != filterName
    ensures RealFilter(filterName, value) == Some((IssueFieldFilters[i].key, value))
  {
    RealFilterAt(IssueFieldFilters, filterName, value, i);
    IssueFieldLookup(filterName, value);
  }

  /** "Создано" is the creation date filter; it has no value table, so values pass unchanged. */
  lemma CreatedResolves(value: Option<Value>)
    ensures RealFilter("Создано", value) == Some(("created_on", value))
  {
    PlainIssueField("Создано", value, 13);
  }

  /** "Проект" is the project filter, without a value table. */
  lemma ProjectResolves(value: Option<Value>)
    ensures RealFilter("Проект", value) == Some(("project_id", value))
  {
    PlainIssueField("Проект", value, 1);
  }

  /** "Автор" is the user filter `author_id`, without a value table. */
  lemma AuthorResolves(value: Option<Value>)
    ensures RealFilter("Автор", value) == Some(("author_id", value))
  {
    PlainIssueField("Автор", value, 4);
  }

  /** "Назначена" is the user filter `assigned_to_id`, without a value table. */
  lemma AssigneeResolves(value: Option<Value>)
    ensures RealFilter("Назначена", value) == Some(("assigned_to_id", value))
  {
    PlainIssueField("Назначена", value, 5);
  }

  /** "Кем изменено" is the user filter `updated_by`, without a value table. */
  lemma UpdaterResolves(value: Option<Value>)
    ensures RealFilter("Кем изменено", value) == Some(("updated_by", value))
  {
    PlainIssueField("Кем изменено", value, 23);
  }

  /** "Последний изменивший" is the user filter `last_updated_by`, without a value table. */
  lemma LastUpdaterResolves(value: Option<Value>)
    ensures RealFilter("Последний изменивший", value) == Some(("last_updated_by", value))
  {
    PlainIssueField("Последний изменивший", value, 24);
  }

  /** "Версия" is the target version filter `fixed_version_id`, without a value table. */
  lemma VersionResolves(value: Option<Value>)
    ensures RealFilter("Версия", value) == Some(("fixed_version_id", value))
  {
    PlainIssueField("Версия", value, 8);
  }

  lemma IssueFieldsLackLowercaseStatus(value: Option<Value>)
    ensures RealFilterIn(IssueFieldFilters, "статус", value).None?
  {
    assert forall i :: 0 <= i < |IssueFieldFilters| ==> IssueFieldFilters[i].name != "статус";
  }

  lemma CustomFieldsLackLowercaseStatus(value: Option<Value>)
    ensures RealFilterIn(CustomFieldFilters, "статус", value).None?
  {
    assert forall i :: 0 <= i < |CustomFieldFilters| ==> CustomFieldFilters[i].name != "статус";
  }

  lemma RelationsLackLowercaseStatus(value: Option<Value>)
    ensures RealFilterIn(RelationFilters, "статус", value).None?
  {
    assert forall i :: 0 <= i < |RelationFilters| ==> RelationFilters[i].name != "статус";
  }

  lemma OthersLackLowercaseStatus(value: Option<Value>)
    ensures RealFilterIn(OtherFilters, "статус", value).None?
  {
    assert forall i :: 0 <= i < |OtherFilters| ==> OtherFilters[i].name != "статус";
  }

  /** No display name of the catalog is "статус": the status filter is named "Статус". */
  lemma LowercaseStatusIsNoName(value: Option<Value>)
    ensures RealFilter("статус", value) == None
  {
    IssueFieldsLackLowercaseStatus(value);
    CustomFieldsLackLowercaseStatus(value);
    RelationsLackLowercaseStatus(value);
    OthersLackLowercaseStatus(value);
    RealFilterInNeither(IssueFieldFilters, CustomFieldFilters, "статус", value);
    RealFilterInNeither(IssueFieldFilters + CustomFieldFilters, RelationFilters, "статус", value);
    RealFilterInNeither(IssueFieldFilters + CustomFieldFilters + RelationFilters, OtherFilters, "статус", value);
  }

  /** The loop of find_real_filter_name_and_value (utils.py:217-226). */
  method FindRealFilterNameAndValue(filterName: string, value: Option<Value>)
    returns (r: Option<(string, Option<Value>)>)
    ensures r == RealFilter(filterName, value)
  {
    r := ScanFilters(AvailableFilters, filterName, value);
  }

  /** The scan of find_real_filter_name_and_value, over a given table. */
  method ScanFilters(table: seq<FilterEntry>, filterName: string, value: Option<Value>)
    returns (r: Option<(string, Option<Value>)>)
    ensures r == RealFilterIn(table, filterName, value)
  {
    ghost var isNamed := (e: FilterEntry) => e.name == filterName;
    var i := 0;
    while i < |table|
      invariant 0 <= i <= |table|
      invariant forall j :: 0 <= j < i ==> !isNamed(table[j])
    {
      var entry := table[i];
      if entry.name == filterName {
        FirstMatchAt(table, isNamed, i);
        var v := value;
        if entry.values.Some? {
          var rows := entry.values.value;
          ghost var isLabel := (row: ValueRow) => Some(Str(row.caption)) == value;
          var j := 0;
          while j < |rows|
            invariant 0 <= j <= |rows|
            invariant forall k :: 0 <= k < j ==> !isLabel(rows[k])
            invariant v == value
          {
            if Some(Str(rows[j].caption)) == value {
              FirstMatchAt(rows, isLabel, j);
              v := Some(Str(rows[j].id));
              break;
            }
            j := j + 1;
          }
        }
        return Some((entry.key, v));
      }
      i := i + 1;
    }
    return None;
  }
}
