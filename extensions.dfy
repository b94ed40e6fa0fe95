/**
 * Extension points: how the contributions of the registered plugins are
 * merged into the one ordered list an extension point offers.
 *
 * Each plugin is represented here by the sequence of its contributing
 * attributes; a plugin list is a sequence of those, in registration order.
 */
module Extensions {
  import opened Common

  type PointId = string

  /** The metadata that marks an attribute as a contributor: `extension_point=` or `contributes_to=`. */
  datatype Tag = ExtensionPointTag | ContributesToTag

  /** What reading a contributing attribute gives: its list, or the exception its initialiser raises. */
  datatype Eval<T> = Value(items: seq<T>) | Raises(exception: string)

  /** One attribute of a plugin, tagged as feeding the extension point `point`. */
  datatype Contribution<T> = Contribution(attribute: string, tag: Tag, point: PointId, eval: Eval<T>)

  /** The attributes among `cs` that feed `pt`, in declaration order. */
  function Targeting<T(!new)>(cs: seq<Contribution<T>>, pt: PointId): (r: seq<Contribution<T>>)
  {
    if cs == [] then []
    else (if cs[0].point == pt then [cs[0]] else []) + Targeting(cs[1..], pt)
  }

  /** The attributes feeding `pt` are exactly those of `cs` tagged with `pt`. */
  lemma {:induction false} TargetingMembers<T(!new)>(cs: seq<Contribution<T>>, pt: PointId)
    ensures forall c :: c in Targeting(cs, pt) <==> c in cs && c.point == pt
  {
    if cs != [] {
      TargetingMembers(cs[1..], pt);
      assert cs == [cs[0]] + cs[1..];
    }
  }

  /**
   * One plugin's share of `pt`: nothing when no attribute feeds it, the
   * attribute's list when exactly one does (or the exception reading it
   * raises), and a `ValueError` when several do.
   */
  function Span<T(!new)>(cs: seq<Contribution<T>>, pt: PointId): Result<seq<T>>
  {
    var ts := Targeting(cs, pt);
    if |ts| == 0 then Ok([])
    else if |ts| > 1 then Err(AmbiguousContribution(pt))
    else
      match ts[0].eval
      case Value(items) => Ok(items)
      case Raises(e) => Err(Raised(e))
  }

  /** Concatenation of two partial merges; the earlier error wins. */
  function Then<T(!new)>(a: Result<seq<T>>, b: Result<seq<T>>): Result<seq<T>>
  {
    match a
    case Err(e) => Err(e)
    case Ok(x) =>
      match b
      case Err(e) => Err(e)
      case Ok(y) => Ok(x + y)
  }

  /** The value of extension point `pt`: every plugin's span, in registration order. */
  function Merge<T(!new)>(css: seq<seq<Contribution<T>>>, pt: PointId): Result<seq<T>>
  {
    if css == [] then Ok([])
    else Then(Span(css[0], pt), Merge(css[1..], pt))
  }

  /** Reading a point succeeds exactly when every plugin's span of it succeeds. */
  lemma {:induction false} MergeOk<T(!new)>(css: seq<seq<Contribution<T>>>, pt: PointId)
    ensures Merge(css, pt).Ok? <==> forall i :: 0 <= i < |css| ==> Span(css[i], pt).Ok?
  {
    if css != [] {
      MergeOk(css[1..], pt);
      assert forall i :: 1 <= i < |css| ==> css[1..][i - 1] == css[i];
    }
  }

  /** The distinct extension points `cs` feeds, in order of first appearance. */
  function Targets<T(!new)>(cs: seq<Contribution<T>>): seq<PointId>
  {
    if cs == [] then []
    else
      var rest := Targets(cs[..|cs| - 1]);
      if cs[|cs| - 1].point in rest then rest else rest + [cs[|cs| - 1].point]
  }

  /** The points `cs` feeds are exactly the points some attribute of `cs` is tagged with. */
  lemma {:induction false} TargetsMembers<T(!new)>(cs: seq<Contribution<T>>)
    ensures forall pt :: pt in Targets(cs) <==> exists c :: c in cs && c.point == pt
  {
    if cs != [] {
      TargetsMembers(cs[..|cs| - 1]);
      assert cs == cs[..|cs| - 1] + [cs[|cs| - 1]];
    }
  }

  /** Each point fed is listed once. */
  lemma {:induction false} TargetsDistinct<T(!new)>(cs: seq<Contribution<T>>)
    ensures forall i, j :: 0 <= i < j < |Targets(cs)| ==> Targets(cs)[i] != Targets(cs)[j]
  {
    if cs != [] {
      TargetsDistinct(cs[..|cs| - 1]);
    }
  }

  /** The `i`-th point fed does not occur before position `i`. */
  lemma TargetsFresh<T(!new)>(cs: seq<Contribution<T>>, i: nat)
    requires i < |Targets(cs)|
    ensures Targets(cs)[i] !in Targets(cs)[..i]
  {
    TargetsDistinct(cs);
  }

  // ---------------------------------------------------------------------
  // One plugin's span
  // ---------------------------------------------------------------------

  lemma {:induction false} TargetingNone<T(!new)>(cs: seq<Contribution<T>>, pt: PointId)
    requires forall k :: 0 <= k < |cs| ==> cs[k].point != pt
    ensures Targeting(cs, pt) == []
  {
    if cs != [] {
      assert forall k :: 1 <= k < |cs| ==> cs[1..][k - 1] == cs[k];
      TargetingNone(cs[1..], pt);
    }
  }

  lemma {:induction false} TargetingSingle<T(!new)>(cs: seq<Contribution<T>>, i: nat, pt: PointId)
    requires i < |cs| && cs[i].point == pt
    requires forall k :: 0 <= k < |cs| && k != i ==> cs[k].point != pt
    ensures Targeting(cs, pt) == [cs[i]]
  {
    if i > 0 {
      TargetingSingle(cs[1..], i - 1, pt);
    } else {
      TargetingNone(cs[1..], pt);
    }
  }

  lemma {:induction false} TargetingTwo<T(!new)>(cs: seq<Contribution<T>>, i: nat, j: nat, pt: PointId)
    requires i < j < |cs| && cs[i].point == pt && cs[j].point == pt
    ensures |Targeting(cs, pt)| >= 2
  {
    if i == 0 {
      assert cs[1..][j - 1] == cs[j];
      TargetingMembers(cs[1..], pt);
      assert cs[j] in Targeting(cs[1..], pt);
    } else {
      TargetingTwo(cs[1..], i - 1, j - 1, pt);
    }
  }

  /** A plugin none of whose attributes feeds `pt` contributes the empty list. */
  lemma SpanNone<T(!new)>(cs: seq<Contribution<T>>, pt: PointId)
    requires forall k :: 0 <= k < |cs| ==> cs[k].point != pt
    ensures Span(cs, pt) == Ok([])
  {
    TargetingNone(cs, pt);
  }

  /** A plugin with exactly one attribute feeding `pt` contributes exactly that attribute's list, or its exception. */
  lemma SpanSingle<T(!new)>(cs: seq<Contribution<T>>, i: nat, pt: PointId)
    requires i < |cs| && cs[i].point == pt
    requires forall k :: 0 <= k < |cs| && k != i ==> cs[k].point != pt
    ensures cs[i].eval.Value? ==> Span(cs, pt) == Ok(cs[i].eval.items)
    ensures cs[i].eval.Raises? ==> Span(cs, pt) == Err(Raised(cs[i].eval.exception))
  {
    TargetingSingle(cs, i, pt);
  }

  /** Two attributes of one plugin feeding the same point make its span a `ValueError`, whatever their values. */
  lemma SpanAmbiguous<T(!new)>(cs: seq<Contribution<T>>, i: nat, j: nat, pt: PointId)
    requires i < j < |cs| && cs[i].point == pt && cs[j].point == pt
    ensures Span(cs, pt) == Err(AmbiguousContribution(pt))
  {
    TargetingTwo(cs, i, j, pt);
  }

  /** A point a plugin does not list among its targets gets the empty list from it. */
  lemma NotTargetedSpanEmpty<T(!new)>(cs: seq<Contribution<T>>, pt: PointId)
    requires pt !in Targets(cs)
    ensures Span(cs, pt) == Ok([])
  {
    TargetsMembers(cs);
    forall k | 0 <= k < |cs| ensures cs[k].point != pt {
      assert cs[k] in cs;
    }
    SpanNone(cs, pt);
  }

  /** Two attribute lists that feed the same points with the same values, whatever their tags. */
  ghost predicate SameFeeds<T(!new)>(cs1: seq<Contribution<T>>, cs2: seq<Contribution<T>>)
  {
    |cs1| == |cs2| &&
    forall k :: 0 <= k < |cs1| ==> cs1[k].point == cs2[k].point && cs1[k].eval == cs2[k].eval
  }

  lemma SameFeedsConcat<T(!new)>(a1: seq<Contribution<T>>, b1: seq<Contribution<T>>, a2: seq<Contribution<T>>, b2: seq<Contribution<T>>)
    requires SameFeeds(a1, a2) && SameFeeds(b1, b2)
    ensures SameFeeds(a1 + b1, a2 + b2)
  {
    forall k | 0 <= k < |a1 + b1|
      ensures (a1 + b1)[k].point == (a2 + b2)[k].point && (a1 + b1)[k].eval == (a2 + b2)[k].eval
    {
      if k >= |a1| {
        assert (a1 + b1)[k] == b1[k - |a1|] && (a2 + b2)[k] == b2[k - |a2|];
      }
    }
  }

  lemma {:induction false} TargetingSameFeeds<T(!new)>(cs1: seq<Contribution<T>>, cs2: seq<Contribution<T>>, pt: PointId)
    requires SameFeeds(cs1, cs2)
    ensures SameFeeds(Targeting(cs1, pt), Targeting(cs2, pt))
  {
    if cs1 != [] {
      assert SameFeeds(cs1[1..], cs2[1..]) by {
        assert forall k :: 0 <= k < |cs1| - 1 ==> cs1[1..][k] == cs1[k + 1] && cs2[1..][k] == cs2[k + 1];
      }
      TargetingSameFeeds(cs1[1..], cs2[1..], pt);
      var h1: seq<Contribution<T>> := if cs1[0].point == pt then [cs1[0]] else [];
      var h2: seq<Contribution<T>> := if cs2[0].point == pt then [cs2[0]] else [];
      SameFeedsConcat(h1, Targeting(cs1[1..], pt), h2, Targeting(cs2[1..], pt));
    }
  }

  /**
   * Whether an attribute is tagged `extension_point=` or `contributes_to=`
   * makes no difference: only the point it feeds and its value count.
   */
  lemma TagsIrrelevant<T(!new)>(cs1: seq<Contribution<T>>, cs2: seq<Contribution<T>>, pt: PointId)
    requires SameFeeds(cs1, cs2)
    ensures Span(cs1, pt) == Span(cs2, pt)
  {
    TargetingSameFeeds(cs1, cs2, pt);
  }

  // ---------------------------------------------------------------------
  // The merge over the plugin list
  // ---------------------------------------------------------------------

  lemma ThenAssociative<T(!new)>(a: Result<seq<T>>, b: Result<seq<T>>, c: Result<seq<T>>)
    ensures Then(Then(a, b), c) == Then(a, Then(b, c))
  {
    if a.Ok? && b.Ok? && c.Ok? {
      assert (a.value + b.value) + c.value == a.value + (b.value + c.value);
    }
  }

  /** The merge of two plugin lists placed one after the other is the first merge followed by the second. */
  lemma {:induction false} MergeConcat<T(!new)>(a: seq<seq<Contribution<T>>>, b: seq<seq<Contribution<T>>>, pt: PointId)
    ensures Merge(a + b, pt) == Then(Merge(a, pt), Merge(b, pt))
  {
    if a == [] {
      assert a + b == b;
      match Merge(b, pt)
      case Ok(y) => assert [] + y == y;
      case Err(_) =>
    } else {
      assert (a + b)[0] == a[0];
      assert (a + b)[1..] == a[1..] + b;
      MergeConcat(a[1..], b, pt);
      ThenAssociative(Span(a[0], pt), Merge(a[1..], pt), Merge(b, pt));
    }
  }

  /** Registering one more plugin appends its span to the merged value, or fails with its error. */
  lemma MergeAppend<T(!new)>(css: seq<seq<Contribution<T>>>, cs: seq<Contribution<T>>, pt: PointId)
    ensures Merge(css + [cs], pt) == Then(Merge(css, pt), Span(cs, pt))
  {
    MergeConcat(css, [cs], pt);
    assert [cs][1..] == [];
    match Span(cs, pt)
    case Ok(s) => assert s + [] == s;
    case Err(_) =>
  }

  /**
   * A successful merge is the plugins' spans laid end to end: the span of
   * the plugin at `i` sits between the merge of the plugins before it and
   * the merge of those after it, and dropping that plugin leaves exactly
   * the two outer parts.
   */
  lemma MergeSplit<T(!new)>(css: seq<seq<Contribution<T>>>, i: nat, pt: PointId)
    requires i < |css| && Merge(css, pt).Ok?
    ensures Merge(css[..i], pt).Ok? && Span(css[i], pt).Ok? && Merge(css[i + 1..], pt).Ok?
    ensures Merge(css, pt).value ==
            Merge(css[..i], pt).value + Span(css[i], pt).value + Merge(css[i + 1..], pt).value
    ensures Merge(css[..i] + css[i + 1..], pt) ==
            Ok(Merge(css[..i], pt).value + Merge(css[i + 1..], pt).value)
  {
    var pre, mid, post := css[..i], [css[i]], css[i + 1..];
    assert Merge(css, pt) == Then(Merge(pre, pt), Then(Span(css[i], pt), Merge(post, pt))) by {
      SplitAt(css, i);
      MergeConcat(pre, mid + post, pt);
      MergeConcat(mid, post, pt);
      MergeSingle(css[i], pt);
    }
    MergeConcat(pre, post, pt);
    ThenSplit(Merge(pre, pt), Span(css[i], pt), Merge(post, pt));
  }

  /** When three partial merges combine without error, each part is fine and the outer two combine too. */
  lemma ThenSplit<T(!new)>(x: Result<seq<T>>, y: Result<seq<T>>, z: Result<seq<T>>)
    requires Then(x, Then(y, z)).Ok?
    ensures x.Ok? && y.Ok? && z.Ok?
    ensures Then(x, Then(y, z)).value == x.value + y.value + z.value
    ensures Then(x, z) == Ok(x.value + z.value)
  {
    assert x.value + (y.value + z.value) == x.value + y.value + z.value;
  }

  lemma SplitAt<X>(s: seq<X>, i: nat)
    requires i < |s|
    ensures s == s[..i] + ([s[i]] + s[i + 1..])
  {
  }

  /** A list of one plugin yields that plugin's span. */
  lemma MergeSingle<T(!new)>(cs: seq<Contribution<T>>, pt: PointId)
    ensures Merge([cs], pt) == Span(cs, pt)
  {
    assert [cs][1..] == [];
    match Span(cs, pt)
    case Ok(s) => assert s + [] == s;
    case Err(_) =>
  }

  /**
   * The error of a failed merge is the error of the first plugin, in
   * registration order, whose span fails: an exception from a contributor
   * comes out unchanged.
   */
  lemma MergeError<T(!new)>(css: seq<seq<Contribution<T>>>, i: nat, pt: PointId)
    requires i < |css| && Span(css[i], pt).Err?
    requires forall j :: 0 <= j < i ==> Span(css[j], pt).Ok?
    ensures Merge(css, pt) == Span(css[i], pt)
  {
    assert css == css[..i] + css[i..];
    MergeConcat(css[..i], css[i..], pt);
    assert forall k :: 0 <= k < i ==> css[..i][k] == css[k];
    MergeOk(css[..i], pt);
    assert css[i..][0] == css[i];
  }

  /**
   * A plugin with two attributes feeding `pt` makes the merge fail, and
   * with a `ValueError` when no earlier plugin has failed already.
   */
  lemma MergeAmbiguous<T(!new)>(css: seq<seq<Contribution<T>>>, k: nat, i: nat, j: nat, pt: PointId)
    requires k < |css| && i < j < |css[k]| && css[k][i].point == pt && css[k][j].point == pt
    ensures Merge(css, pt).Err?
    ensures (forall m :: 0 <= m < k ==> Span(css[m], pt).Ok?) ==>
              Merge(css, pt) == Err(AmbiguousContribution(pt))
  {
    SpanAmbiguous(css[k], i, j, pt);
    MergeOk(css, pt);
    if forall m :: 0 <= m < k ==> Span(css[m], pt).Ok? {
      MergeError(css, k, pt);
    }
  }

  /**
   * Removing the plugin at `k` from a list that merges at `pt`: the rest
   * still merges, and a plugin that does not feed `pt` leaves its value
   * unchanged.
   */
  lemma MergeRemove<T(!new)>(css: seq<seq<Contribution<T>>>, k: nat, pt: PointId)
    requires k < |css| && Merge(css, pt).Ok?
    ensures Span(css[k], pt).Ok? && Merge(css[..k] + css[k + 1..], pt).Ok?
    ensures pt !in Targets(css[k]) ==> Merge(css[..k] + css[k + 1..], pt) == Merge(css, pt)
  {
    MergeSplit(css, k, pt);
    if pt !in Targets(css[k]) {
      NotTargetedSpanEmpty(css[k], pt);
      var before, after := Merge(css[..k], pt).value, Merge(css[k + 1..], pt).value;
      calc {
        Merge(css, pt).value;
        before + Span(css[k], pt).value + after;
        { assert Span(css[k], pt).value == []; }
        before + [] + after;
        { assert before + [] == before; }
        before + after;
      }
    }
  }
}
