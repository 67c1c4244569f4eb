/**
 * The derived values of the handlers' response side (handlers.go): the category filter of
 * getChaosFaults, the per-environment infrastructure count of listEnvironments, and the
 * entry-per-item formatting loops whose length gives totalProbes and totalHubs.
 * The field renaming inside each entry is the abstract `reshape`.
 */
module Responses {
  import opened JsonValue
  import Strings

  /** The shape getChaosFaults asserts of every category: `metadata.name` a string, `spec` an object. */
  predicate WellFormedCategory(c: Json)
  {
    && c.JObj?
    && "metadata" in c.fields && c.fields["metadata"].JObj?
    && "name" in c.fields["metadata"].fields && c.fields["metadata"].fields["name"].JStr?
    && "spec" in c.fields && c.fields["spec"].JObj?
  }

  function CategoryName(c: Json): string
    requires WellFormedCategory(c)
  {
    c.fields["metadata"].fields["name"].str
  }

  /** A category is kept when no category was asked for, or its name contains the asked one, ignoring case. */
  predicate Matches(c: Json, category: string)
    requires WellFormedCategory(c)
  {
    category == "" || Strings.Contains(Strings.ToLower(CategoryName(c)), Strings.ToLower(category))
  }

  /** The categories getChaosFaults keeps, in input order. */
  function Kept(cats: seq<Json>, category: string): seq<Json>
    requires forall i :: 0 <= i < |cats| ==> WellFormedCategory(cats[i])
  {
    if |cats| == 0 then []
    else Kept(cats[..|cats| - 1], category) + (if Matches(cats[|cats| - 1], category) then [cats[|cats| - 1]] else [])
  }

  /** The number of categories that match. */
  function CountMatching(cats: seq<Json>, category: string): nat
    requires forall i :: 0 <= i < |cats| ==> WellFormedCategory(cats[i])
  {
    if |cats| == 0 then 0
    else CountMatching(cats[..|cats| - 1], category) + (if Matches(cats[|cats| - 1], category) then 1 else 0)
  }

  /** `a` is `b` with some elements dropped, the rest in their order. */
  predicate IsSubsequence(a: seq<Json>, b: seq<Json>)
    decreases |b|
  {
    if |a| == 0 then true
    else if |b| == 0 then false
    else if a[|a| - 1] == b[|b| - 1] then IsSubsequence(a[..|a| - 1], b[..|b| - 1])
    else IsSubsequence(a, b[..|b| - 1])
  }

  /**
   * The kept categories are exactly the matching ones: each kept one matches and is an input,
   * each matching input is kept, they keep the input order, and there are as many as match.
   */
  lemma {:induction false} KeptExactly(cats: seq<Json>, category: string)
    requires forall i :: 0 <= i < |cats| ==> WellFormedCategory(cats[i])
    ensures forall c :: c in Kept(cats, category) ==> c in cats && Matches(c, category)
    ensures forall i :: 0 <= i < |cats| && Matches(cats[i], category) ==> cats[i] in Kept(cats, category)
    ensures IsSubsequence(Kept(cats, category), cats)
    ensures |Kept(cats, category)| == CountMatching(cats, category)
  {
    if |cats| > 0 {
      var init := cats[..|cats| - 1];
      KeptExactly(init, category);
      var last := cats[|cats| - 1];
      if Matches(last, category) {
        assert Kept(cats, category)[..|Kept(cats, category)| - 1] == Kept(init, category);
      } else {
        assert cats == init + [last];
        assert Kept(cats, category) == Kept(init, category);
        SubsequenceExtend(Kept(init, category), init, last);
      }
    }
  }

  /** A subsequence of `b` is a subsequence of `b` with one more element at the end. */
  lemma {:induction false} SubsequenceExtend(a: seq<Json>, b: seq<Json>, x: Json)
    requires IsSubsequence(a, b)
    ensures IsSubsequence(a, b + [x])
    decreases |b|, 1
  {
    if |a| > 0 {
      var bx := b + [x];
      assert bx[..|bx| - 1] == b;
      if a[|a| - 1] == x {
        SubsequenceDropLast(a, b);
      }
    }
  }

  /** Dropping the last element of a subsequence keeps it a subsequence. */
  lemma {:induction false} SubsequenceDropLast(a: seq<Json>, b: seq<Json>)
    requires |a| > 0 && IsSubsequence(a, b)
    ensures IsSubsequence(a[..|a| - 1], b)
    decreases |b|, 0
  {
    if |b| > 0 {
      if a[|a| - 1] == b[|b| - 1] {
        SubsequenceExtend(a[..|a| - 1], b[..|b| - 1], b[|b| - 1]);
        assert b[..|b| - 1] + [b[|b| - 1]] == b;
      } else {
        SubsequenceDropLast(a, b[..|b| - 1]);
        SubsequenceExtend(a[..|a| - 1], b[..|b| - 1], b[|b| - 1]);
        assert b[..|b| - 1] + [b[|b| - 1]] == b;
      }
    }
  }

  /** With no category asked for, every category is kept. */
  lemma {:induction false} EmptyCategoryKeepsAll(cats: seq<Json>)
    requires forall i :: 0 <= i < |cats| ==> WellFormedCategory(cats[i])
    ensures Kept(cats, "") == cats
  {
    if |cats| > 0 {
      EmptyCategoryKeepsAll(cats[..|cats| - 1]);
    }
  }

  /** The filtering loop of getChaosFaults, appending each matching category; also returns totalFaultCategories. */
  method FilterCategories(cats: seq<Json>, category: string) returns (kept: seq<Json>, total: nat)
    requires forall i :: 0 <= i < |cats| ==> WellFormedCategory(cats[i])
    ensures kept == Kept(cats, category)
    ensures total == CountMatching(cats, category)
  {
    kept := [];
    var i := 0;
    while i < |cats|
      invariant 0 <= i <= |cats|
      invariant kept == Kept(cats[..i], category)
    {
      assert cats[..i + 1][..i] == cats[..i];
      if Matches(cats[i], category) {
        kept := kept + [cats[i]];
      }
      i := i + 1;
    }
    assert cats[..|cats|] == cats;
    KeptExactly(cats, category);
    total := |kept|;
  }

  /**
   * listEnvironments' `infrastructureCount` and `infrastructureIds`: the length of `infraIDs`,
   * 0 and nil when it is absent or null. (The source asserts it is an array otherwise.)
   */
  function InfrastructureCount(env: Obj): (r: (nat, Json))
    requires "infraIDs" in env ==> env["infraIDs"].JNull? || env["infraIDs"].JArr?
    ensures ("infraIDs" in env && env["infraIDs"].JArr?) ==> r == (|env["infraIDs"].items|, env["infraIDs"])
    ensures !("infraIDs" in env && env["infraIDs"].JArr?) ==> r == (0, JNull)
  {
    if "infraIDs" in env && env["infraIDs"].JArr? then (|env["infraIDs"].items|, env["infraIDs"]) else (0, JNull)
  }

  /**
   * The `formattedX[i] = ...` loops of the listing handlers: one entry per item, in order;
   * `total` is `len(items)` (totalProbes, totalHubs).
   */
  method FormatList(items: seq<Json>, reshape: Json -> Json) returns (formatted: seq<Json>, total: nat)
    ensures |formatted| == |items| == total
    ensures forall i :: 0 <= i < |items| ==> formatted[i] == reshape(items[i])
  {
    var buffer := new Json[|items|];
    var i := 0;
    while i < |items|
      invariant 0 <= i <= |items|
      invariant forall j :: 0 <= j < i ==> buffer[j] == reshape(items[j])
    {
      buffer[i] := reshape(items[i]);
      i := i + 1;
    }
    formatted := buffer[..];
    total := |items|;
  }
}
