/**
 * First-match linear search. Every lookup of the system (operator by label,
 * filter by display name, value id by label, project, user and version by name)
 * is a loop that returns at the first element satisfying a test.
 */
module Search {
  import opened Wrappers

  /** Index of the first element of `xs` satisfying `p`, if any. */
  function FirstMatch<T>(xs: seq<T>, p: T -> bool): (r: Option<nat>)
    ensures r.Some? ==> r.value < |xs| && p(xs[r.value])
    ensures r.Some? ==> forall j :: 0 <= j < r.value ==> !p(xs[j])
    ensures r.None? <==> forall j :: 0 <= j < |xs| ==> !p(xs[j])
    decreases |xs|
  {
    if xs == [] then None
    else if p(xs[0]) then Some(0)
    else match FirstMatch(xs[1..], p)
      case None => None
      case Some(k) => Some(k + 1)
  }

  /** An index whose element satisfies `p` and has no satisfying predecessor is the first match. */
  lemma FirstMatchAt<T>(xs: seq<T>, p: T -> bool, i: nat)
    requires i < |xs| && p(xs[i])
    requires forall j :: 0 <= j < i ==> !p(xs[j])
    ensures FirstMatch(xs, p) == Some(i)
  {
  }

  /** The first element of `xs` satisfying `p`, if any. */
  function FindIn<T>(xs: seq<T>, p: T -> bool): (r: Option<T>)
    ensures r.None? <==> forall j :: 0 <= j < |xs| ==> !p(xs[j])
    ensures r.Some? ==> exists i :: 0 <= i < |xs| && xs[i] == r.value && p(xs[i])
                                    && forall j :: 0 <= j < i ==> !p(xs[j])
  {
    match FirstMatch(xs, p)
    case None => None
    case Some(i) => Some(xs[i])
  }

  /** The concatenation of a sequence of sequences. */
  function Flatten<T>(groups: seq<seq<T>>): seq<T>
  {
    if groups == [] then [] else groups[0] + Flatten(groups[1..])
  }

  /**
   * Nested search as the source writes it: search each group in turn and return
   * the first hit of the first group that has one.
   */
  function FindInGroups<T>(groups: seq<seq<T>>, p: T -> bool): (r: Option<T>)
    ensures r.Some? ==> p(r.value)
  {
    if groups == [] then None
    else match FindIn(groups[0], p)
      case Some(x) => Some(x)
      case None => FindInGroups(groups[1..], p)
  }

  /** Searching `a + b` finds the first hit of `a`, or else the first hit of `b`. */
  lemma {:induction false} FindInAppend<T>(a: seq<T>, b: seq<T>, p: T -> bool)
    ensures FindIn(a + b, p) == if FindIn(a, p).Some? then FindIn(a, p) else FindIn(b, p)
    decreases |a|
  {
    if a == [] {
      assert a + b == b;
    } else {
      assert (a + b)[0] == a[0];
      assert (a + b)[1..] == a[1..] + b;
      FindInAppend(a[1..], b, p);
      FirstMatchCons(a, p);
      FirstMatchCons(a + b, p);
    }
  }

  /** One step of the search, stated for `FindIn`. */
  lemma FirstMatchCons<T>(xs: seq<T>, p: T -> bool)
    requires xs != []
    ensures FindIn(xs, p) == if p(xs[0]) then Some(xs[0]) else FindIn(xs[1..], p)
  {
  }

  /** The group-by-group search of the source equals one search over all groups joined. */
  lemma {:induction false} FindInGroupsIsFlatSearch<T>(groups: seq<seq<T>>, p: T -> bool)
    ensures FindInGroups(groups, p) == FindIn(Flatten(groups), p)
    decreases |groups|
  {
    if groups != [] {
      FindInGroupsIsFlatSearch(groups[1..], p);
      FindInAppend(groups[0], Flatten(groups[1..]), p);
    }
  }
}
