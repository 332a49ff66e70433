/** A chain item of the data access server that sums up the attributes of
    an item value matching a condition. It owns three attributes named after
    its base name: whether any attribute matched, how many did, and their
    names separated by ", ". The condition is supplied by each concrete
    chain item (`matches`) and is a parameter here, as is the boolean
    reading of a variant and the set of attributes to ignore. Attribute
    values may be null, which is `None`. */
module SummarizeChainItemModel {
  import opened Common

  type AttributeMap = map<string, Option<Variant>>

  /** What the condition gives for one entry: `Some(b)` its answer, `None`
      an exception. */
  type Matcher = (Option<Variant>, string, Option<Variant>) -> Option<bool>

  /** The attribute names a chain item with `baseName` owns. */
  function Reserved(baseName: string): (r: set<string>)
    ensures r == {baseName, baseName + ".count", baseName + ".items"}
  {
    {baseName, baseName + ".count", baseName + ".items"}
  }

  /** Entry `name` of `attributes` is counted: it is not an owned or
      ignored name, the condition holds without an exception, and its value
      is present and true as a boolean. */
  predicate Counts(attributes: AttributeMap, name: string, value: Option<Variant>, baseName: string,
                   ignore: set<string>, matches: Matcher, asBoolean: Variant -> bool)
  {
    && name in attributes
    && name !in Reserved(baseName)
    && name !in ignore
    && matches(value, name, attributes[name]) == Some(true)
    && attributes[name].Some?
    && asBoolean(attributes[name].value)
  }

  /** The counted names, in iteration order. */
  function CountedNames(order: seq<string>, attributes: AttributeMap, value: Option<Variant>, baseName: string,
                        ignore: set<string>, matches: Matcher, asBoolean: Variant -> bool): seq<string>
  {
    if order == [] then []
    else
      var last := order[|order| - 1];
      CountedNames(order[..|order| - 1], attributes, value, baseName, ignore, matches, asBoolean)
        + (if Counts(attributes, last, value, baseName, ignore, matches, asBoolean) then [last] else [])
  }

  /** `StringHelper.join`: the strings with `sep` between neighbours. */
  function JoinWith(xs: seq<string>, sep: string): string {
    if xs == [] then "" else if |xs| == 1 then xs[0] else JoinWith(xs[..|xs| - 1], sep) + sep + xs[|xs| - 1]
  }

  /** The attribute map `process` leaves: the input with the three owned
      attributes set to the state, the count and the list. */
  function Summarized(attributes: AttributeMap, baseName: string, names: seq<string>): (r: AttributeMap)
    ensures r.Keys == attributes.Keys + Reserved(baseName)
    ensures forall k :: k in attributes && k !in Reserved(baseName) ==> r[k] == attributes[k]
  {
    attributes[baseName := Some(Bool(|names| > 0))]
              [baseName + ".count" := Some(Long(|names|))]
              [baseName + ".items" := Some(Str(JoinWith(names, ", ")))]
  }

  /** The counted names are exactly the names of the iteration that
      count. */
  lemma {:induction false} CountedNamesElements(order: seq<string>, attributes: AttributeMap, value: Option<Variant>, baseName: string,
                                               ignore: set<string>, matches: Matcher, asBoolean: Variant -> bool)
    ensures var c := CountedNames(order, attributes, value, baseName, ignore, matches, asBoolean);
      forall k :: k in Elements(c) <==> k in Elements(order) && Counts(attributes, k, value, baseName, ignore, matches, asBoolean)
  {
    if order != [] {
      var init := order[..|order| - 1];
      var last := order[|order| - 1];
      CountedNamesElements(init, attributes, value, baseName, ignore, matches, asBoolean);
      var ci := CountedNames(init, attributes, value, baseName, ignore, matches, asBoolean);
      assert order == init + [last];
      ElementsSnoc(init, last);
      if Counts(attributes, last, value, baseName, ignore, matches, asBoolean) {
        ElementsSnoc(ci, last);
      } else {
        assert ci + [] == ci;
      }
    }
  }

  /** A name is counted at most once when the iteration visits every name
      at most once. */
  lemma {:induction false} CountedNamesDistinct(order: seq<string>, attributes: AttributeMap, value: Option<Variant>, baseName: string,
                                               ignore: set<string>, matches: Matcher, asBoolean: Variant -> bool)
    requires Distinct(order)
    ensures Distinct(CountedNames(order, attributes, value, baseName, ignore, matches, asBoolean))
  {
    if order != [] {
      var init := order[..|order| - 1];
      var last := order[|order| - 1];
      assert Distinct(init);
      CountedNamesDistinct(init, attributes, value, baseName, ignore, matches, asBoolean);
      CountedNamesElements(init, attributes, value, baseName, ignore, matches, asBoolean);
      var ci := CountedNames(init, attributes, value, baseName, ignore, matches, asBoolean);
      if Counts(attributes, last, value, baseName, ignore, matches, asBoolean) {
        assert last !in Elements(init);
        assert last !in Elements(ci);
        var c := ci + [last];
        forall i, j | 0 <= i < j < |c| ensures c[i] != c[j] {
          if j == |ci| {
            assert c[i] == ci[i];
          }
        }
      } else {
        assert ci + [] == ci;
      }
    }
  }

  /** Whatever order the map is iterated in, the same names are counted,
      and the count is the number of attribute names that count. */
  lemma CountIndependentOfOrder(order: seq<string>, attributes: AttributeMap, value: Option<Variant>, baseName: string,
                                ignore: set<string>, matches: Matcher, asBoolean: Variant -> bool)
    requires Distinct(order) && Elements(order) == attributes.Keys
    ensures var c := CountedNames(order, attributes, value, baseName, ignore, matches, asBoolean);
      && Elements(c) == (set k | k in attributes && Counts(attributes, k, value, baseName, ignore, matches, asBoolean))
      && |c| == |set k | k in attributes && Counts(attributes, k, value, baseName, ignore, matches, asBoolean)|
  {
    CountedNamesElements(order, attributes, value, baseName, ignore, matches, asBoolean);
    CountedNamesDistinct(order, attributes, value, baseName, ignore, matches, asBoolean);
    var c := CountedNames(order, attributes, value, baseName, ignore, matches, asBoolean);
    DistinctCard(c);
  }

  /** The state attribute is true exactly when some attribute counts,
      whatever the iteration order. */
  lemma StateMeansSomeCounts(order: seq<string>, attributes: AttributeMap, value: Option<Variant>, baseName: string,
                             ignore: set<string>, matches: Matcher, asBoolean: Variant -> bool)
    requires Distinct(order) && Elements(order) == attributes.Keys
    ensures var c := CountedNames(order, attributes, value, baseName, ignore, matches, asBoolean);
      Summarized(attributes, baseName, c)[baseName] == Some(Bool(true))
      <==> exists k :: k in attributes && Counts(attributes, k, value, baseName, ignore, matches, asBoolean)
  {
    CountedNamesElements(order, attributes, value, baseName, ignore, matches, asBoolean);
    var c := CountedNames(order, attributes, value, baseName, ignore, matches, asBoolean);
    if exists k :: k in attributes && Counts(attributes, k, value, baseName, ignore, matches, asBoolean) {
      var k :| k in attributes && Counts(attributes, k, value, baseName, ignore, matches, asBoolean);
      assert k in Elements(c);
    }
  }

  /** Owned and ignored attributes are never counted. */
  lemma OwnNamesNotCounted(order: seq<string>, attributes: AttributeMap, value: Option<Variant>, baseName: string,
                           ignore: set<string>, matches: Matcher, asBoolean: Variant -> bool)
    ensures var c := CountedNames(order, attributes, value, baseName, ignore, matches, asBoolean);
      forall i :: 0 <= i < |c| ==> c[i] !in Reserved(baseName) && c[i] !in ignore
  {
    CountedNamesElements(order, attributes, value, baseName, ignore, matches, asBoolean);
    var c := CountedNames(order, attributes, value, baseName, ignore, matches, asBoolean);
    forall i | 0 <= i < |c| ensures c[i] !in Reserved(baseName) && c[i] !in ignore {
      assert c[i] in Elements(c);
    }
  }

  /** Clearing the owned attributes first makes no difference once all
      three are set. */
  lemma ClearedThenSet(attributes: AttributeMap, baseName: string, names: seq<string>)
    ensures attributes[baseName := None][baseName + ".count" := None][baseName + ".items" := None]
              [baseName := Some(Bool(|names| > 0))]
              [baseName + ".count" := Some(Long(|names|))]
              [baseName + ".items" := Some(Str(JoinWith(names, ", ")))]
            == Summarized(attributes, baseName, names)
  {
    var a := attributes[baseName := None][baseName + ".count" := None][baseName + ".items" := None]
              [baseName := Some(Bool(|names| > 0))]
              [baseName + ".count" := Some(Long(|names|))]
              [baseName + ".items" := Some(Str(JoinWith(names, ", ")))];
    var b := Summarized(attributes, baseName, names);
    assert a.Keys == b.Keys;
    forall k | k in a ensures a[k] == b[k] {
    }
  }

  /** The loop of `process`: every entry is visited in `order`; owned and
      ignored names are skipped, and an entry whose check throws counts as
      not matching. */
  method CountMatching(value: Option<Variant>, attrs: AttributeMap, baseName: string, ignore: set<string>,
                       matches: Matcher, asBoolean: Variant -> bool, order: seq<string>)
    returns (count: nat, items: seq<string>)
    requires Elements(order) <= attrs.Keys
    ensures items == CountedNames(order, attrs, value, baseName, ignore, matches, asBoolean)
    ensures count == |items|
  {
    count := 0;
    items := [];
    var reserved := Reserved(baseName);
    for i := 0 to |order|
      invariant items == CountedNames(order[..i], attrs, value, baseName, ignore, matches, asBoolean)
      invariant count == |items|
    {
      assert order[..i + 1] == order[..i] + [order[i]];
      var name := order[i];
      assert name in Elements(order);
      if name !in reserved && name !in ignore {
        var m := matches(value, name, attrs[name]);
        if m.Some? && m.value {
          if attrs[name].Some? && asBoolean(attrs[name].value) {
            count := count + 1;
            items := items + [name];
          }
        }
      }
    }
    assert order[..|order|] == order;
  }

  class SummarizeChainItem {
    const sumStateName: string
    const sumCountName: string
    const sumListName: string

    /** The three owned attribute names, made from `baseName`. */
    constructor (baseName: string)
      ensures sumStateName == baseName && sumCountName == baseName + ".count" && sumListName == baseName + ".items"
      ensures {sumStateName, sumCountName, sumListName} == Reserved(baseName)
    {
      sumStateName := baseName;
      sumCountName := baseName + ".count";
      sumListName := baseName + ".items";
    }

    /** `process`: the owned attributes are cleared, every other entry is
        visited in `order` and checked, and the owned attributes are set
        from the result. The item value is left unchanged (`None`). */
    method Process(value: Option<Variant>, attributes: AttributeMap, ignore: set<string>,
                   matches: Matcher, asBoolean: Variant -> bool, order: seq<string>)
      returns (result: Option<Variant>, out: AttributeMap)
      requires sumCountName == sumStateName + ".count" && sumListName == sumStateName + ".items"
      requires Distinct(order)
      requires Elements(order) == attributes.Keys + Reserved(sumStateName)
      ensures result.None?
      ensures var cleared := attributes[sumStateName := None][sumCountName := None][sumListName := None];
        out == Summarized(attributes, sumStateName,
                          CountedNames(order, cleared, value, sumStateName, ignore, matches, asBoolean))
    {
      var attrs := attributes[sumStateName := None][sumCountName := None][sumListName := None];
      assert Reserved(sumStateName) == {sumStateName, sumCountName, sumListName};
      var count, items := CountMatching(value, attrs, sumStateName, ignore, matches, asBoolean, order);
      ClearedThenSet(attributes, sumStateName, items);
      out := attrs[sumStateName := Some(Bool(count > 0))];
      out := out[sumCountName := Some(Long(count))];
      out := out[sumListName := Some(Str(JoinWith(items, ", ")))];
      result := None;
    }
  }
}
