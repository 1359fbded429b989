/**
 * create_url of utils.py: the query string of the tracker's issue list for a project,
 * its accumulated filter clauses and the requested totals options.
 *
 * The source raises a TypeError when a clause of a named filter has no operator
 * (decode_symbols(None)) or when a value to be substituted is not text, and a KeyError
 * for a totals option that TOTALS_OPTIONS lacks; those are the errors of the result.
 */
module UrlBuilder {
  import opened Wrappers
  import opened Text
  import opened Catalog
  import opened Clauses
  import opened Resolver

  datatype UrlError = OperatorMissing | ValueNotText | UnknownTotalsOption(option: string)

  /** The fixed start of every query: project path, UTF-8 marker, active filters, newest first. */
  function Prefix(projectIdentifier: string): string {
    "https://ximc.ru/projects/" + projectIdentifier + "/issues?utf8=✓&set_filter=1&sort=id%3Adesc"
  }

  /** Operators whose values go through the symbol substitution: contains, not contains, starts and ends with. */
  predicate DecodesValues(op: string) {
    op == "~" || op == "!~" || op == "^" || op == "$"
  }

  /** Two pieces of the query in order; the first error raised wins. */
  function Join(a: Result<string, UrlError>, b: Result<string, UrlError>): Result<string, UrlError> {
    if a.Err? then a else if b.Err? then b else Ok(a.value + b.value)
  }

  lemma JoinAssociative(a: Result<string, UrlError>, b: Result<string, UrlError>, c: Result<string, UrlError>)
    ensures Join(Join(a, b), c) == Join(a, Join(b, c))
  {
    if a.Ok? && b.Ok? && c.Ok? {
      assert (a.value + b.value) + c.value == a.value + (b.value + c.value);
    }
  }

  /**
   * How one value is written: substituted for the text operators, as `str(value)`
   * otherwise. Only a text operator meeting a value that is not text fails (the
   * TypeError of iterating it), and a substituted value holds no raw '=', '!' or space.
   */
  function RenderedValue(op: string, v: Option<Value>): (r: Result<string, UrlError>)
    ensures r.Err? <==> DecodesValues(op) && !(v.Some? && v.value.Str?)
    ensures r.Ok? && DecodesValues(op) ==> NoRawSymbols(r.value)
    ensures !DecodesValues(op) && v.Some? && v.value.Str? ==> r == Ok(v.value.s)
  {
    if DecodesValues(op) then
      match v
      case Some(Str(s)) => DecodedHasNoRawSymbols(s); Ok(Decoded(s))
      case _ => Err(ValueNotText)
    else
      match v
      case None => Ok("None")
      case Some(Str(s)) => Ok(s)
      case Some(Num(n)) => Ok(IntToString(n))
  }

  /** The `v[name][]` parameter carrying one written value. */
  function ValueParam(name: string, written: string): string {
    "&v%5B" + name + "%5D%5B%5D=" + written
  }

  function ValueSegment(name: string, op: string, v: Option<Value>): Result<string, UrlError> {
    match RenderedValue(op, v)
    case Err(e) => Err(e)
    case Ok(written) => Ok(ValueParam(name, written))
  }

  /** One `v[name][]` parameter per value, in value order. */
  function ValueSegments(name: string, op: string, vs: seq<Option<Value>>): Result<string, UrlError>
    decreases |vs|
  {
    if vs == [] then Ok("")
    else Join(ValueSegments(name, op, vs[..|vs| - 1]), ValueSegment(name, op, vs[|vs| - 1]))
  }

  /** The `f[]` and `op[name]` parameters of a clause; the operator is substituted. */
  function ClauseHead(name: string, op: string): string {
    "&f%5B%5D=" + name + "&op%5B" + name + "%5D=" + Decoded(op)
  }

  /** `f[]`, `op[name]` and the values of one clause; a clause without a filter adds nothing. */
  function ClauseSegments(c: Clause): Result<string, UrlError> {
    match c.filter
    case None => Ok("")
    case Some(name) =>
      match c.operator
      case None => Err(OperatorMissing)
      case Some(op) =>
        Join(Ok(ClauseHead(name, op)), ValueSegments(name, op, c.values))
  }

  /** The filter part of the query: the clauses' parameters in list order. */
  function FilterSegments(cs: seq<Clause>): Result<string, UrlError>
    decreases |cs|
  {
    if cs == [] then Ok("") else Join(FilterSegments(cs[..|cs| - 1]), ClauseSegments(cs[|cs| - 1]))
  }

  function TotalsSegment(option: string): Result<string, UrlError> {
    if option in TotalsOptions then Ok("&t%5B%5D=" + TotalsOptions[option]) else Err(UnknownTotalsOption(option))
  }

  /** The totals part of the query: one `t[]` parameter per option, in option order. */
  function TotalsSegments(options: seq<string>): Result<string, UrlError>
    decreases |options|
  {
    if options == [] then Ok("") else Join(TotalsSegments(options[..|options| - 1]), TotalsSegment(options[|options| - 1]))
  }

  /**
   * What create_url returns: the prefix, then every filter parameter, then every totals
   * parameter.
   */
  function Url(projectIdentifier: string, filters: seq<Clause>, totalsOptions: seq<string>): (r: Result<string, UrlError>)
    ensures r.Ok? ==> StartsWith(r.value, Prefix(projectIdentifier))
    ensures r.Ok? <==> FilterSegments(filters).Ok? && TotalsSegments(totalsOptions).Ok?
    ensures r.Ok? ==> r.value == Prefix(projectIdentifier) + FilterSegments(filters).value
                                 + TotalsSegments(totalsOptions).value
  {
    Join(Ok(Prefix(projectIdentifier)), Join(FilterSegments(filters), TotalsSegments(totalsOptions)))
  }

  // ---------------------------------------------------------------- properties

  /** The filter part of a concatenation of clause lists is the concatenation of their parts. */
  lemma {:induction false} FilterSegmentsAppend(a: seq<Clause>, b: seq<Clause>)
    ensures FilterSegments(a + b) == Join(FilterSegments(a), FilterSegments(b))
    decreases |b|
  {
    if b == [] {
      assert a + b == a;
      var f := FilterSegments(a);
      assert f.Ok? ==> f.value + "" == f.value;
    } else {
      var b' := b[..|b| - 1];
      assert (a + b)[..|a + b| - 1] == a + b';
      assert (a + b)[|a + b| - 1] == b[|b| - 1];
      FilterSegmentsAppend(a, b');
      JoinAssociative(FilterSegments(a), FilterSegments(b'), ClauseSegments(b[|b| - 1]));
    }
  }

  /** The totals part of a concatenation of option lists is the concatenation of their parts. */
  lemma {:induction false} TotalsSegmentsAppend(a: seq<string>, b: seq<string>)
    ensures TotalsSegments(a + b) == Join(TotalsSegments(a), TotalsSegments(b))
    decreases |b|
  {
    if b == [] {
      assert a + b == a;
      var t := TotalsSegments(a);
      assert t.Ok? ==> t.value + "" == t.value;
    } else {
      var b' := b[..|b| - 1];
      assert (a + b)[..|a + b| - 1] == a + b';
      assert (a + b)[|a + b| - 1] == b[|b| - 1];
      TotalsSegmentsAppend(a, b');
      JoinAssociative(TotalsSegments(a), TotalsSegments(b'), TotalsSegment(b[|b| - 1]));
    }
  }

  /** The clauses whose filter is not None, in order. */
  function Named(cs: seq<Clause>): seq<Clause>
    decreases |cs|
  {
    if cs == [] then []
    else if cs[|cs| - 1].filter.Some? then Named(cs[..|cs| - 1]) + [cs[|cs| - 1]]
    else Named(cs[..|cs| - 1])
  }

  /** Clauses whose filter is None contribute nothing to the query. */
  lemma {:induction false} UnnamedClausesContributeNothing(cs: seq<Clause>)
    ensures FilterSegments(cs) == FilterSegments(Named(cs))
    decreases |cs|
  {
    if cs != [] {
      var init := cs[..|cs| - 1];
      var last := cs[|cs| - 1];
      UnnamedClausesContributeNothing(init);
      if last.filter.Some? {
        FilterSegmentsAppend(Named(init), [last]);
        assert [last][..0] == [];
      } else {
        var f := FilterSegments(init);
        assert f.Ok? ==> f.value + "" == f.value;
      }
    }
  }

  /** A clause with one text value: its exact parameters, the value substituted only for text operators. */
  lemma SingleValueClause(name: string, op: string, s: string)
    ensures ClauseSegments(Clause(Some(name), Some(op), [Some(Str(s))]))
         == Ok(ClauseHead(name, op) + ValueParam(name, if DecodesValues(op) then Decoded(s) else s))
  {
    var vs := [Some(Str(s))];
    assert vs[..0] == [];
    var p := ValueParam(name, if DecodesValues(op) then Decoded(s) else s);
    assert ValueSegments(name, op, vs) == Ok("" + p);
    assert "" + p == p;
  }

  /** A value list makes the query fail exactly when a substituted value is not text. */
  predicate BadValues(op: string, vs: seq<Option<Value>>) {
    DecodesValues(op) && exists k :: 0 <= k < |vs| && !(vs[k].Some? && vs[k].value.Str?)
  }

  /** A clause makes the query fail exactly when it names a filter and lacks an operator or has a bad value. */
  predicate Faulty(c: Clause) {
    c.filter.Some? && (c.operator.None? || BadValues(c.operator.value, c.values))
  }

  lemma {:induction false} ValueSegmentsFail(name: string, op: string, vs: seq<Option<Value>>)
    ensures ValueSegments(name, op, vs).Err? <==> BadValues(op, vs)
    ensures ValueSegments(name, op, vs).Err? ==> ValueSegments(name, op, vs) == Err(ValueNotText)
    decreases |vs|
  {
    if vs != [] {
      var init := vs[..|vs| - 1];
      ValueSegmentsFail(name, op, init);
      assert forall k :: 0 <= k < |init| ==> init[k] == vs[k];
      if BadValues(op, vs) && !BadValues(op, init) {
        var k :| 0 <= k < |vs| && !(vs[k].Some? && vs[k].value.Str?);
        assert k == |vs| - 1;
      }
    }
  }

  lemma {:induction false} FilterSegmentsFail(cs: seq<Clause>)
    ensures FilterSegments(cs).Err? <==> exists i :: 0 <= i < |cs| && Faulty(cs[i])
    decreases |cs|
  {
    if cs != [] {
      var init := cs[..|cs| - 1];
      var last := cs[|cs| - 1];
      FilterSegmentsFail(init);
      assert forall k :: 0 <= k < |init| ==> init[k] == cs[k];
      if last.filter.Some? && last.operator.Some? {
        ValueSegmentsFail(last.filter.value, last.operator.value, last.values);
      }
      if !Faulty(last) && (exists i :: 0 <= i < |cs| && Faulty(cs[i])) {
        var i :| 0 <= i < |cs| && Faulty(cs[i]);
        assert i < |init| && Faulty(init[i]);
      }
    }
  }

  lemma {:induction false} TotalsSegmentsFail(options: seq<string>)
    ensures TotalsSegments(options).Err? <==> exists k :: 0 <= k < |options| && options[k] !in TotalsOptions
    decreases |options|
  {
    if options != [] {
      var init := options[..|options| - 1];
      TotalsSegmentsFail(init);
      assert forall k :: 0 <= k < |init| ==> init[k] == options[k];
    }
  }

  /**
   * create_url fails exactly when some named clause has no operator or a non-text value
   * to substitute, or some totals option is not a TOTALS_OPTIONS key.
   */
  lemma UrlFailsExactly(projectIdentifier: string, filters: seq<Clause>, totalsOptions: seq<string>)
    ensures Url(projectIdentifier, filters, totalsOptions).Err? <==>
              (exists i :: 0 <= i < |filters| && Faulty(filters[i]))
              || (exists k :: 0 <= k < |totalsOptions| && totalsOptions[k] !in TotalsOptions)
  {
    FilterSegmentsFail(filters);
    TotalsSegmentsFail(totalsOptions);
  }

  /** The "is" operator reaches the tracker as "%3D". */
  lemma EqualsOperatorEncoded()
    ensures Decoded("=") == "%3D"
  {
    assert "="[..0] == [];
  }

  /** A space between two words of a value becomes '+'; the words themselves are kept. */
  lemma SpaceBecomesPlus(a: string, b: string)
    requires Plain(a) && Plain(b)
    ensures Decoded(a + " " + b) == a + "+" + b
  {
    DecodedAppend(a, " ");
    DecodedAppend(a + " ", b);
    PlainIsUnchanged(a);
    PlainIsUnchanged(b);
    assert Decoded(" ") == "+" by {
      assert " "[..0] == [];
    }
  }

  /** Asking for spent time adds the `t[]=spent_hours` parameter. */
  lemma SpentTimeTotal()
    ensures TotalsSegments(["Трудозатраты"]) == Ok("&t%5B%5D=spent_hours")
  {
    var k := "Трудозатраты";
    assert [k][..0] == [];
    assert k in TotalsOptions;
    assert TotalsOptions[k] == "spent_hours";
    assert TotalsSegment(k) == Ok("&t%5B%5D=" + TotalsOptions[k]);
    assert "&t%5B%5D=" + "spent_hours" == "&t%5B%5D=spent_hours";
    assert TotalsSegments([k]) == Join(TotalsSegments([]), TotalsSegment(k));
    assert "" + "&t%5B%5D=spent_hours" == "&t%5B%5D=spent_hours";
  }

  /** The filter part of a single clause is that clause's parameters. */
  lemma OneClauseFilterPart(c: Clause)
    ensures FilterSegments([c]) == ClauseSegments(c)
  {
    assert [c][..0] == [];
    var r := ClauseSegments(c);
    assert r.Ok? ==> "" + r.value == r.value;
  }

  /**
   * An "is" clause with one value and spent time as the total, as in the status example
   * of the tracker's own usage: the operator is sent as "%3D", the value as written.
   */
  lemma EqualsQueryWithSpentTime(projectIdentifier: string, name: string, v: string)
    ensures Url(projectIdentifier, [Clause(Some(name), Some("="), [Some(Str(v))])], ["Трудозатраты"])
         == Ok(Prefix(projectIdentifier) + ClauseHead(name, "=") + ValueParam(name, v) + "&t%5B%5D=spent_hours")
    ensures ClauseHead(name, "=") == "&f%5B%5D=" + name + "&op%5B" + name + "%5D=%3D"
  {
    var c := Clause(Some(name), Some("="), [Some(Str(v))]);
    var head, param := ClauseHead(name, "="), ValueParam(name, v);
    SingleValueClause(name, "=", v);
    OneClauseFilterPart(c);
    SpentTimeTotal();
    var prefix, total := Prefix(projectIdentifier), "&t%5B%5D=spent_hours";
    assert prefix + (head + param) + total == prefix + head + param + total;
    EqualsOperatorEncoded();
    assert "%5D=" + "%3D" == "%5D=%3D";
  }

  /** A "contains" value of two words: the operator "~" is kept, the space is substituted. */
  lemma ContainsTwoWords(name: string, a: string, b: string)
    requires Plain(a) && Plain(b)
    ensures ClauseSegments(Clause(Some(name), Some("~"), [Some(Str(a + " " + b))]))
         == Ok(ClauseHead(name, "~") + ValueParam(name, a + "+" + b))
    ensures ClauseHead(name, "~") == "&f%5B%5D=" + name + "&op%5B" + name + "%5D=~"
  {
    SpaceBecomesPlus(a, b);
    assert Decoded("~") == "~" by {
      PlainIsUnchanged("~");
    }
    SingleValueClause(name, "~", a + " " + b);
    assert "%5D=" + "~" == "%5D=~";
  }

  // ---------------------------------------------------------------- the loop

  /** One more clause extends the filter part of a prefix of the clause list by that clause's parameters. */
  lemma FilterSegmentsStep(cs: seq<Clause>, i: nat)
    requires i < |cs|
    ensures FilterSegments(cs[..i + 1]) == Join(FilterSegments(cs[..i]), ClauseSegments(cs[i]))
  {
    assert cs[..i + 1][..i] == cs[..i];
  }

  /** A clause that fails makes the whole filter part fail with its error. */
  lemma {:induction false} FailingClause(cs: seq<Clause>, i: nat)
    requires i < |cs| && FilterSegments(cs[..i]).Ok? && ClauseSegments(cs[i]).Err?
    ensures FilterSegments(cs) == ClauseSegments(cs[i])
    decreases |cs|
  {
    if |cs| == i + 1 {
      FilterSegmentsStep(cs, i);
      assert cs[..i + 1] == cs;
    } else {
      var init := cs[..|cs| - 1];
      assert init[..i] == cs[..i] && init[i] == cs[i];
      FailingClause(init, i);
    }
  }

  /** One more option extends the totals part of a prefix of the option list by that option's parameter. */
  lemma TotalsSegmentsStep(options: seq<string>, k: nat)
    requires k < |options|
    ensures TotalsSegments(options[..k + 1]) == Join(TotalsSegments(options[..k]), TotalsSegment(options[k]))
  {
    assert options[..k + 1][..k] == options[..k];
  }

  /** The first unknown totals option is the one the query fails with. */
  lemma {:induction false} FailingOption(options: seq<string>, k: nat)
    requires k < |options| && TotalsSegments(options[..k]).Ok? && options[k] !in TotalsOptions
    ensures TotalsSegments(options) == Err(UnknownTotalsOption(options[k]))
    decreases |options|
  {
    if |options| == k + 1 {
      TotalsSegmentsStep(options, k);
      assert options[..k + 1] == options;
    } else {
      var init := options[..|options| - 1];
      assert init[..k] == options[..k] && init[k] == options[k];
      FailingOption(init, k);
    }
  }

  /** One more value extends the parameters of a prefix of the value list by that value's parameter. */
  lemma ValueSegmentsStep(name: string, op: string, vs: seq<Option<Value>>, j: nat)
    requires j < |vs|
    ensures ValueSegments(name, op, vs[..j + 1]) == Join(ValueSegments(name, op, vs[..j]), ValueSegment(name, op, vs[j]))
  {
    assert vs[..j + 1][..j] == vs[..j];
  }

  /** How one value is written, computed as the loop body of create_url does. */
  method RenderValue(op: string, v: Option<Value>) returns (r: Result<string, UrlError>)
    ensures r == RenderedValue(op, v)
  {
    if DecodesValues(op) {
      if !(v.Some? && v.value.Str?) {
        return Err(ValueNotText);
      }
      var decoded := DecodeSymbols(v.value.s);
      return Ok(decoded);
    }
    match v
    case None => r := Ok("None");
    case Some(Str(s)) => r := Ok(s);
    case Some(Num(n)) => r := Ok(IntToString(n));
  }

  /** The inner loop of create_url (utils.py:166-172): one `v[name][]` parameter per value. */
  method AppendValueParams(url: string, name: string, op: string, vs: seq<Option<Value>>)
    returns (r: Result<string, UrlError>)
    ensures r == Join(Ok(url), ValueSegments(name, op, vs))
  {
    var acc := url;
    var j := 0;
    while j < |vs|
      invariant 0 <= j <= |vs|
      invariant ValueSegments(name, op, vs[..j]).Ok?
      invariant acc == url + ValueSegments(name, op, vs[..j]).value
    {
      ValueSegmentsStep(name, op, vs, j);
      var value := RenderValue(op, vs[j]);
      if value.Err? {
        ValueSegmentsFail(name, op, vs);
        assert BadValues(op, vs) by {
          assert !(vs[j].Some? && vs[j].value.Str?);
        }
        return Err(ValueNotText);
      }
      acc := acc + ValueParam(name, value.value);
      j := j + 1;
    }
    assert vs[..j] == vs;
    return Ok(acc);
  }

  /** The totals loop of create_url (utils.py:174-176). */
  method AppendTotalsParams(url: string, options: seq<string>) returns (r: Result<string, UrlError>)
    ensures r == Join(Ok(url), TotalsSegments(options))
  {
    var acc := url;
    var k := 0;
    while k < |options|
      invariant 0 <= k <= |options|
      invariant TotalsSegments(options[..k]).Ok?
      invariant acc == url + TotalsSegments(options[..k]).value
    {
      var option := options[k];
      TotalsSegmentsStep(options, k);
      if option !in TotalsOptions {
        FailingOption(options, k);
        return Err(UnknownTotalsOption(option));
      }
      acc := acc + "&t%5B%5D=" + TotalsOptions[option];
      k := k + 1;
    }
    assert options[..k] == options;
    return Ok(acc);
  }

  /** The body of create_url's clause loop (utils.py:158-173): the parameters of one clause. */
  method AppendClauseParams(url: string, filterObj: Clause) returns (r: Result<string, UrlError>)
    ensures r == Join(Ok(url), ClauseSegments(filterObj))
  {
    if filterObj.filter.None? {
      assert url + "" == url;
      return Ok(url);
    }
    var name := filterObj.filter.value;
    if filterObj.operator.None? {
      return Err(OperatorMissing);
    }
    var op := filterObj.operator.value;
    var decodedOperator := DecodeSymbols(op);
    var head := "&f%5B%5D=" + name + "&op%5B" + name + "%5D=" + decodedOperator;
    assert head == ClauseHead(name, op);
    r := AppendValueParams(url + head, name, op, filterObj.values);
    if r.Ok? {
      assert r.value == url + (head + ValueSegments(name, op, filterObj.values).value);
    }
  }

  /** create_url (utils.py:155-177): the prefix, the loop over the clauses, then the totals. */
  method CreateUrl(projectIdentifier: string, filters: seq<Clause>, totalsOptions: seq<string>)
    returns (r: Result<string, UrlError>)
    ensures r == Url(projectIdentifier, filters, totalsOptions)
  {
    var url := Prefix(projectIdentifier);
    ghost var start := url;
    assert filters[..0] == [] && start + "" == start;
    var i := 0;
    while i < |filters|
      invariant 0 <= i <= |filters|
      invariant Join(Ok(start), FilterSegments(filters[..i])) == Ok(url)
    {
      FilterSegmentsStep(filters, i);
      var next := AppendClauseParams(url, filters[i]);
      JoinAssociative(Ok(start), FilterSegments(filters[..i]), ClauseSegments(filters[i]));
      if next.Err? {
        FailingClause(filters, i);
        return next;
      }
      url := next.value;
      i := i + 1;
    }
    assert filters[..i] == filters;
    r := AppendTotalsParams(url, totalsOptions);
    JoinAssociative(Ok(start), FilterSegments(filters), TotalsSegments(totalsOptions));
  }
}
