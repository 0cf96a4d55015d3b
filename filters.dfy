/**
 * The condition-building loop of `search_points_by_filters`: a list of
 * `{field, value, type}` dicts becomes the store's AND-filter.
 */
module Filters {
  import opened Wrappers
  import opened Failures
  import opened Json

  /** The two match kinds of the store's field condition. */
  datatype Match =
    | MatchValue(value: Value)  // exact match against a keyword index
    | MatchText(text: Value)    // full-text match against a text index

  datatype Condition = FieldCondition(key: Value, matcher: Match)

  /** `Filter(must=conditions)`: every condition must hold. */
  datatype Filter = Filter(must: seq<Condition>)

  /** An item contributes a condition when its `field` is truthy and its `value` is not None. */
  predicate Qualifies(item: Dict) {
    Truthy(GetOr(item, "field", Null)) && GetOr(item, "value", Null) != Null
  }

  /** The match kind: `type` defaults to "keyword"; only "text" selects a text match. */
  predicate IsTextItem(item: Dict) {
    GetOr(item, "type", Str("keyword")) == Str("text")
  }

  function ConditionFor(item: Dict): Condition {
    var value := GetOr(item, "value", Null);
    FieldCondition(GetOr(item, "field", Null),
                   if IsTextItem(item) then MatchText(value) else MatchValue(value))
  }

  /** What one item contributes: its condition when it qualifies, nothing otherwise. */
  function Contribution(item: Dict): seq<Condition> {
    if Qualifies(item) then [ConditionFor(item)] else []
  }

  /** The contributions of xs, concatenated in order. */
  function Collect<T, U>(f: T -> seq<U>, xs: seq<T>): seq<U> {
    if xs == [] then [] else f(xs[0]) + Collect(f, xs[1..])
  }

  /** Collecting distributes over concatenation. */
  lemma {:induction false} CollectAppend<T, U>(f: T -> seq<U>, a: seq<T>, b: seq<T>)
    ensures Collect(f, a + b) == Collect(f, a) + Collect(f, b)
  {
    if a == [] {
      assert a + b == b;
    } else {
      assert (a + b)[0] == a[0] && (a + b)[1..] == a[1..] + b;
      CollectAppend(f, a[1..], b);
      assert f(a[0]) + (Collect(f, a[1..]) + Collect(f, b)) == (f(a[0]) + Collect(f, a[1..])) + Collect(f, b);
    }
  }

  /** The elements of xs that satisfy p, in order. */
  function Keep<T>(p: T -> bool, xs: seq<T>): (r: seq<T>)
    ensures |r| <= |xs|
    ensures forall x :: x in r ==> x in xs && p(x)
    ensures forall i :: 0 <= i < |xs| && p(xs[i]) ==> xs[i] in r
  {
    if xs == [] then []
    else
      var rest := Keep(p, xs[1..]);
      assert forall i :: 1 <= i < |xs| ==> xs[i] == xs[1..][i - 1];
      (if p(xs[0]) then [xs[0]] else []) + rest
  }

  /**
   * Collecting a function that yields one element for the elements
   * satisfying p and nothing for the others is mapping over Keep(p, xs).
   */
  lemma {:induction false} CollectSingletons<T, U>(f: T -> seq<U>, p: T -> bool, g: T -> U, xs: seq<T>)
    requires forall x :: f(x) == if p(x) then [g(x)] else []
    ensures |Collect(f, xs)| == |Keep(p, xs)|
    ensures forall j :: 0 <= j < |Keep(p, xs)| ==> Collect(f, xs)[j] == g(Keep(p, xs)[j])
  {
    if xs != [] {
      CollectSingletons(f, p, g, xs[1..]);
    }
  }

  /** The items that contribute a condition, in input order. */
  function QualifyingItems(items: seq<Dict>): seq<Dict> {
    Keep(Qualifies, items)
  }

  /** The conditions of the qualifying items, in input order. */
  function Conditions(items: seq<Dict>): seq<Condition> {
    Collect(Contribution, items)
  }

  /** Conditions distributes over concatenation: each item is judged on its own, in order. */
  lemma ConditionsAppend(a: seq<Dict>, b: seq<Dict>)
    ensures Conditions(a + b) == Conditions(a) + Conditions(b)
  {
    CollectAppend(Contribution, a, b);
  }

  /** A single item gives its own contribution. */
  lemma ConditionsSingle(item: Dict)
    ensures Conditions([item]) == if Qualifies(item) then [ConditionFor(item)] else []
  {
    var one := [item];
    assert one[0] == item && one[1..] == [];
    assert Collect(Contribution, one) == Contribution(item) + Collect(Contribution, one[1..]);
  }

  /** There are no conditions exactly when no item qualifies (the empty list included). */
  lemma {:induction false} ConditionsEmptyIff(items: seq<Dict>)
    ensures Conditions(items) == [] <==> forall i :: 0 <= i < |items| ==> !Qualifies(items[i])
  {
    if items != [] {
      ConditionsEmptyIff(items[1..]);
      assert forall i :: 1 <= i < |items| ==> items[i] == items[1..][i - 1];
    }
  }

  /**
   * Exactly one condition per qualifying item: the j-th condition is the
   * condition of the j-th qualifying item, so there are no more conditions
   * than items and each one is the condition of a qualifying item.
   */
  lemma ConditionsShape(items: seq<Dict>)
    ensures |Conditions(items)| == |QualifyingItems(items)| <= |items|
    ensures forall j :: 0 <= j < |Conditions(items)| ==>
              Conditions(items)[j] == ConditionFor(QualifyingItems(items)[j])
    ensures forall c :: c in Conditions(items) ==>
              exists i :: 0 <= i < |items| && Qualifies(items[i]) && c == ConditionFor(items[i])
  {
    CollectSingletons(Contribution, Qualifies, ConditionFor, items);
    var cs := Conditions(items);
    var qs := QualifyingItems(items);
    forall c | c in cs
      ensures exists i :: 0 <= i < |items| && Qualifies(items[i]) && c == ConditionFor(items[i])
    {
      var j :| 0 <= j < |cs| && cs[j] == c;
      assert qs[j] in qs;
      var i :| 0 <= i < |items| && items[i] == qs[j];
    }
  }

  /**
   * The loop of `search_points_by_filters`: append one condition per
   * qualifying item, then fail when none was appended.
   */
  method BuildFilter(items: seq<Dict>) returns (r: Result<Filter, Error>)
    ensures r.Success? <==> exists i :: 0 <= i < |items| && Qualifies(items[i])
    ensures r.Success? ==> r.value.must == Conditions(items) && r.value.must != []
    ensures r.Failure? ==> r.error == NoValidFilterConditions
  {
    var conditions: seq<Condition> := [];
    for i := 0 to |items|
      invariant conditions == Conditions(items[..i])
    {
      var item := items[i];
      var field := GetOr(item, "field", Null);
      var value := GetOr(item, "value", Null);
      var fieldType := GetOr(item, "type", Str("keyword"));
      if Truthy(field) && value != Null {
        if fieldType == Str("text") {
          conditions := conditions + [FieldCondition(field, MatchText(value))];
        } else {
          conditions := conditions + [FieldCondition(field, MatchValue(value))];
        }
      }
      ConditionsAppend(items[..i], [item]);
      ConditionsSingle(item);
      assert items[..i + 1] == items[..i] + [item];
    }
    assert items[..|items|] == items;
    ConditionsEmptyIff(items);
    if conditions == [] {
      r := Failure(NoValidFilterConditions);
    } else {
      r := Success(Filter(conditions));
    }
  }

  /** A filter item as the endpoints write it: `{"field": f, "value": v, "type": t}`. */
  function Item(field: string, value: string, kind: string): Dict {
    [("field", Str(field)), ("value", Str(value)), ("type", Str(kind))]
  }

  /**
   * Every item the endpoints build qualifies, whatever string the caller
   * sent, the empty string included: the endpoints' filters never fail.
   */
  lemma EndpointItemQualifies(field: string, value: string, kind: string)
    requires field != []
    ensures Qualifies(Item(field, value, kind))
    ensures ConditionFor(Item(field, value, kind)) ==
      FieldCondition(Str(field), if kind == "text" then MatchText(Str(value)) else MatchValue(Str(value)))
  {
    var item := Item(field, value, kind);
    assert Get(item, "field") == Some(Str(field));
    assert Get(item, "value") == Some(Str(value));
    assert Get(item, "type") == Some(Str(kind));
  }
}
