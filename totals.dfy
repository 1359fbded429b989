/**
 * The totals of get_totals: which requested options the session keeps, and which
 * spans of the issue-list page carry an option's value.
 *
 * The page itself is not parsed here: it is given as its `<p class="query-totals">`
 * regions, each a sequence of spans with their class list and the number their
 * inner `<span class="value">` shows.
 */
module Totals {
  import opened Wrappers
  import opened Text
  import opened Catalog

  /** A span of a totals region, with the value its inner value span holds. */
  datatype Span = Span(classes: seq<string>, value: real)

  /** The spans of one `<p class="query-totals">` element, in document order. */
  type Region = seq<Span>

  /** The class prefix that marks a totals span. */
  const TotalsMarker: string := "total-for-"

  /**
   * The spans `find_all` keeps for the pattern `total-for-`: one of the span's classes
   * holds that text.
   */
  predicate IsTotalSpan(span: Span) {
    exists i :: 0 <= i < |span.classes| && Contains(span.classes[i], TotalsMarker)
  }

  /**
   * The class that marks the span of totals option `option`: its field id in `table`
   * (TOTALS_OPTIONS), '_' written '-'.
   */
  function Tag(table: map<string, string>, option: string): (t: string)
    requires option in table
    ensures StartsWith(t, TotalsMarker)
  {
    TotalsMarker + Hyphenate(table[option])
  }

  /** The test of the parse loop: a total span whose first class is the option's tag. */
  predicate Carries(span: Span, tag: string) {
    IsTotalSpan(span) && span.classes[0] == tag
  }

  /**
   * The value an option ends with after the parse loop has passed over `spans`: that
   * of the last span carrying its tag, None when no span does.
   */
  function LastValue(spans: seq<Span>, tag: string): Option<real>
    decreases |spans|
  {
    if spans == [] then None
    else if Carries(spans[|spans| - 1], tag) then Some(spans[|spans| - 1].value)
    else LastValue(spans[..|spans| - 1], tag)
  }

  /** The value is that of the last span carrying the tag; None exactly when no span carries it. */
  lemma {:induction false} LastValueIsLastCarrier(spans: seq<Span>, tag: string)
    ensures LastValue(spans, tag).None? <==> forall i :: 0 <= i < |spans| ==> !Carries(spans[i], tag)
    ensures LastValue(spans, tag).Some? ==>
              exists i :: 0 <= i < |spans| && Carries(spans[i], tag) && LastValue(spans, tag).value == spans[i].value
                          && forall j :: i < j < |spans| ==> !Carries(spans[j], tag)
    decreases |spans|
  {
    if spans != [] {
      var last := |spans| - 1;
      if !Carries(spans[last], tag) {
        var prefix := spans[..last];
        LastValueIsLastCarrier(prefix, tag);
        assert forall i :: 0 <= i < last ==> prefix[i] == spans[i];
        if LastValue(prefix, tag).Some? {
          var i :| 0 <= i < |prefix| && Carries(prefix[i], tag) && LastValue(prefix, tag).value == prefix[i].value
                   && forall j :: i < j < |prefix| ==> !Carries(prefix[j], tag);
          assert forall j :: i < j < |spans| ==> !Carries(spans[j], tag);
        }
      }
    }
  }

  /** The spans of all regions, in document order. */
  function AllSpans(page: seq<Region>): seq<Span>
    decreases |page|
  {
    if page == [] then [] else AllSpans(page[..|page| - 1]) + page[|page| - 1]
  }

  /**
   * The options get_totals keeps (ximc.py:260-263, with the exact-key test): each
   * requested option that is a TOTALS_OPTIONS key, once, in the order of its first request.
   */
  function Selected(table: map<string, string>, options: seq<string>): (keys: seq<string>)
    ensures forall k :: k in keys <==> k in options && k in table
    ensures forall i, j :: 0 <= i < j < |keys| ==> keys[i] != keys[j]
    decreases |options|
  {
    if options == [] then []
    else
      var before := Selected(table, options[..|options| - 1]);
      var option := options[|options| - 1];
      assert options == options[..|options| - 1] + [option];
      if option in table && option !in before then before + [option] else before
  }

  /** Selecting from one more option: it is appended when it is a key not selected yet. */
  lemma SelectedStep(table: map<string, string>, options: seq<string>, i: nat)
    requires i < |options|
    ensures var before := Selected(table, options[..i]);
            Selected(table, options[..i + 1])
            == if options[i] in table && options[i] !in before then before + [options[i]] else before
  {
    assert options[..i + 1][..i] == options[..i];
  }

  /** The selection as ximc.py:262 writes it: an option is kept when its lower-cased form is a key. */
  function SelectedAsWritten(table: map<string, string>, options: seq<string>): seq<string>
    decreases |options|
  {
    if options == [] then []
    else
      var before := SelectedAsWritten(table, options[..|options| - 1]);
      var option := options[|options| - 1];
      if Lower(option) in table && option !in before then before + [option] else before
  }

  /** `LastValueIsLastCarrier` for the tag of every kept option. */
  lemma LastCarriersOfKeys(table: map<string, string>, keys: seq<string>, spans: seq<Span>)
    requires forall k :: k in keys ==> k in table
    ensures forall k :: k in keys ==>
              (LastValue(spans, Tag(table, k)).None? <==> forall i :: 0 <= i < |spans| ==> !Carries(spans[i], Tag(table, k)))
    ensures forall k :: k in keys && LastValue(spans, Tag(table, k)).Some? ==>
              exists i :: 0 <= i < |spans| && Carries(spans[i], Tag(table, k))
                          && LastValue(spans, Tag(table, k)).value == spans[i].value
                          && forall j :: i < j < |spans| ==> !Carries(spans[j], Tag(table, k))
  {
    forall k | k in keys {
      LastValueIsLastCarrier(spans, Tag(table, k));
    }
  }

  /**
   * What the totals map holds after the parse: exactly the kept options; an option is
   * None when no span of the page carries its tag, and otherwise holds the value of the
   * last span that does.
   */
  function ParsedTotals(table: map<string, string>, keys: seq<string>, page: seq<Region>): (m: map<string, Option<real>>)
    requires forall k :: k in keys ==> k in table
    ensures m.Keys == set k | k in keys
    ensures var spans := AllSpans(page);
            forall k, i :: k in keys && 0 <= i < |spans| && Carries(spans[i], Tag(table, k)) ==> m[k].Some?
    ensures var spans := AllSpans(page);
            forall k :: k in keys && m[k].Some? ==>
              exists i :: 0 <= i < |spans| && Carries(spans[i], Tag(table, k)) && m[k].value == spans[i].value
                          && forall j :: i < j < |spans| ==> !Carries(spans[j], Tag(table, k))
  {
    var spans := AllSpans(page);
    LastCarriersOfKeys(table, keys, spans);
    var m := map k | k in keys :: LastValue(spans, Tag(table, k));
    assert forall k :: k in keys ==> m[k] == LastValue(spans, Tag(table, k));
    m
  }

  // ---------------------------------------------------------------- properties

  /** Every TOTALS_OPTIONS key holds an upper-case letter: its first one. */
  lemma TotalsKeysAreCapitalised()
    ensures forall k :: k in TotalsOptions ==> |k| > 0 && IsUpper(k[0])
  {
    assert TotalsOptions.Keys == {"Оценка временных затрат", "Трудозатраты", "Payment cash",
                                  "Payment cashless", "Rate", "Payment tail"};
  }

  /** No lower-cased text is a TOTALS_OPTIONS key. */
  lemma LoweredIsNeverAKey(option: string)
    ensures Lower(option) !in TotalsOptions
  {
    TotalsKeysAreCapitalised();
  }

  /** As written, get_totals keeps no option at all, whatever it is asked for. */
  lemma {:induction false} AsWrittenSelectsNothing(options: seq<string>)
    ensures SelectedAsWritten(TotalsOptions, options) == []
    decreases |options|
  {
    if options != [] {
      AsWrittenSelectsNothing(options[..|options| - 1]);
      LoweredIsNeverAKey(options[|options| - 1]);
    }
  }

  /** Asking for an option twice keeps it once. */
  lemma SelectedIgnoresRepeats(table: map<string, string>, options: seq<string>, option: string)
    requires option in options
    ensures Selected(table, options + [option]) == Selected(table, options)
  {
    assert (options + [option])[..|options|] == options;
  }

  /** A span carrying an option's tag is one the regular expression `total-for-` keeps. */
  lemma TagMatchIsTotalSpan(table: map<string, string>, span: Span, option: string)
    requires option in table
    requires |span.classes| > 0 && span.classes[0] == Tag(table, option)
    ensures Carries(span, Tag(table, option))
  {
    assert Contains(span.classes[0], TotalsMarker);
  }

  /** A span the regular expression does not keep leaves every option's value as it was. */
  lemma SkippedSpan(spans: seq<Span>, tag: string)
    requires |spans| > 0 && !IsTotalSpan(spans[|spans| - 1])
    ensures LastValue(spans, tag) == LastValue(spans[..|spans| - 1], tag)
  {
  }

  /** A kept span sets the value of the option whose tag is its first class, and no other. */
  lemma CarrierStep(spans: seq<Span>, tag: string)
    requires |spans| > 0 && IsTotalSpan(spans[|spans| - 1])
    ensures LastValue(spans, tag) == if spans[|spans| - 1].classes[0] == tag
                                     then Some(spans[|spans| - 1].value)
                                     else LastValue(spans[..|spans| - 1], tag)
  {
  }

  /** Later regions override earlier ones: the value comes from the last carrying span. */
  lemma {:induction false} LastValueAppend(a: seq<Span>, b: seq<Span>, tag: string)
    ensures LastValue(a + b, tag) == if LastValue(b, tag).Some? then LastValue(b, tag) else LastValue(a, tag)
    decreases |b|
  {
    if b == [] {
      assert a + b == a;
    } else {
      assert (a + b)[..|a + b| - 1] == a + b[..|b| - 1];
      assert (a + b)[|a + b| - 1] == b[|b| - 1];
      LastValueAppend(a, b[..|b| - 1], tag);
    }
  }
}
