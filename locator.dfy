/** Locating the list of per-bookmaker quote histories (`oddsViews`) inside a
    line-history document: two fixed places first, then a depth-first scan. */
module Locator {
  import opened Outcomes
  import opened JsonValues

  const OddsViewsKey: string := "oddsViews"

  /** The list a dict holds under `oddsViews`, when that value is a list. */
  function OwnOddsViews(j: Json): Option<seq<Json>> {
    match j
    case JObj(fields) =>
      (match Lookup(fields, OddsViewsKey)
       case Some(JArr(l)) => Some(l)
       case _ => None)
    case _ => None
  }

  /** Python's `if found:` on the scan's result: a missing or empty list both
      read as "not found". */
  function Found(o: Option<seq<Json>>): seq<Json> {
    match o
    case None => []
    case Some(l) => l
  }

  /** The nested `find_odds_views_recursive`. A dict holding a list under
      `oddsViews` returns it at once (even when empty); otherwise dict values
      and list items are searched in order and the first non-empty list found
      below is returned. */
  function FindOddsViewsRecursive(j: Json): (r: Option<seq<Json>>)
    ensures r.Some? && r.value == [] ==> OwnOddsViews(j) == Some([])
    decreases j
  {
    if OwnOddsViews(j).Some? then OwnOddsViews(j)
    else
      match j
      case JObj(_) => FindInValues(j, 0)
      case JArr(_) => FindInItems(j, 0)
      case _ => None
  }

  /** The `for value in obj.values()` loop, from the `i`-th value on. */
  function FindInValues(j: Json, i: nat): (r: Option<seq<Json>>)
    requires j.JObj? && i <= |j.fields|
    ensures r.None? || r.value != []
    decreases j, |j.fields| - i
  {
    if i == |j.fields| then None
    else
      var found := FindOddsViewsRecursive(j.fields[i].1);
      if found.Some? && found.value != [] then found else FindInValues(j, i + 1)
  }

  /** The `for item in obj` loop over a list, from the `i`-th item on. */
  function FindInItems(j: Json, i: nat): (r: Option<seq<Json>>)
    requires j.JArr? && i <= |j.items|
    ensures r.None? || r.value != []
    decreases j, |j.items| - i
  {
    if i == |j.items| then None
    else
      var found := FindOddsViewsRecursive(j.items[i]);
      if found.Some? && found.value != [] then found else FindInItems(j, i + 1)
  }

  /** Reference enumeration, without early exit: every list that sits under an
      `oddsViews` key, in depth-first, key-order / element-order traversal,
      not descending below a dict that already holds such a list. */
  function Hits(j: Json): seq<seq<Json>>
    decreases j
  {
    if OwnOddsViews(j).Some? then [OwnOddsViews(j).value]
    else
      match j
      case JObj(_) => HitsInValues(j, 0)
      case JArr(_) => HitsInItems(j, 0)
      case _ => []
  }

  function HitsInValues(j: Json, i: nat): seq<seq<Json>>
    requires j.JObj? && i <= |j.fields|
    decreases j, |j.fields| - i
  {
    if i == |j.fields| then [] else Hits(j.fields[i].1) + HitsInValues(j, i + 1)
  }

  function HitsInItems(j: Json, i: nat): seq<seq<Json>>
    requires j.JArr? && i <= |j.items|
    decreases j, |j.items| - i
  {
    if i == |j.items| then [] else Hits(j.items[i]) + HitsInItems(j, i + 1)
  }

  /** The first non-empty list of a sequence, or `[]` when there is none. */
  function FirstNonEmpty(ls: seq<seq<Json>>): (r: seq<Json>)
    ensures r != [] ==> r in ls
    ensures r == [] <==> forall l | l in ls :: l == []
    ensures r != [] ==>
      exists k :: 0 <= k < |ls| && ls[k] == r && forall m :: 0 <= m < k ==> ls[m] == []
  {
    if ls == [] then []
    else if ls[0] != [] then ls[0]
    else
      assert ls == [ls[0]] + ls[1..];
      var r := FirstNonEmpty(ls[1..]);
      assert r != [] ==> exists k :: 0 < k < |ls| && ls[k] == r && forall m :: 0 <= m < k ==> ls[m] == [] by {
        if r != [] {
          var k :| 0 <= k < |ls[1..]| && ls[1..][k] == r && forall m :: 0 <= m < k ==> ls[1..][m] == [];
          assert ls[k + 1] == r;
          forall m | 0 <= m < k + 1 ensures ls[m] == [] {
            if m > 0 { assert ls[m] == ls[1..][m - 1]; }
          }
        }
      }
      r
  }

  lemma {:induction false} FirstNonEmptyAppend(a: seq<seq<Json>>, b: seq<seq<Json>>)
    ensures FirstNonEmpty(a + b) == if FirstNonEmpty(a) != [] then FirstNonEmpty(a) else FirstNonEmpty(b)
  {
    if a != [] {
      assert (a + b)[1..] == a[1..] + b;
      FirstNonEmptyAppend(a[1..], b);
    } else {
      assert a + b == b;
    }
  }

  /** The scan, read through `if found:`, yields the first non-empty
      `oddsViews` list in traversal order, and nothing when there is none. */
  lemma {:induction false} FindIsFirstHit(j: Json)
    ensures Found(FindOddsViewsRecursive(j)) == FirstNonEmpty(Hits(j))
    decreases j
  {
    if OwnOddsViews(j).None? {
      match j
      case JObj(_) => ValuesFirstHit(j, 0);
      case JArr(_) => ItemsFirstHit(j, 0);
      case _ =>
    }
  }

  lemma {:induction false} ValuesFirstHit(j: Json, i: nat)
    requires j.JObj? && i <= |j.fields|
    ensures Found(FindInValues(j, i)) == FirstNonEmpty(HitsInValues(j, i))
    decreases j, |j.fields| - i
  {
    if i < |j.fields| {
      FindIsFirstHit(j.fields[i].1);
      ValuesFirstHit(j, i + 1);
      FirstNonEmptyAppend(Hits(j.fields[i].1), HitsInValues(j, i + 1));
    }
  }

  lemma {:induction false} ItemsFirstHit(j: Json, i: nat)
    requires j.JArr? && i <= |j.items|
    ensures Found(FindInItems(j, i)) == FirstNonEmpty(HitsInItems(j, i))
    decreases j, |j.items| - i
  {
    if i < |j.items| {
      FindIsFirstHit(j.items[i]);
      ItemsFirstHit(j, i + 1);
      FirstNonEmptyAppend(Hits(j.items[i]), HitsInItems(j, i + 1));
    }
  }

  /** The scan returns `None` exactly when the root is not a dict holding a
      list `oddsViews` and no non-empty such list lies anywhere below. */
  lemma FindNoneIff(j: Json)
    ensures FindOddsViewsRecursive(j) == None <==> OwnOddsViews(j).None? && FirstNonEmpty(Hits(j)) == []
  {
    FindIsFirstHit(j);
  }

  /** `props.pageProps.lineHistoryModel` (defaulting to `{}`). */
  function HistoryModel(lineJson: Json): (r: Result<Json>)
    ensures r.Ok? <==>
      && Subscript(lineJson, "props").Ok?
      && Subscript(Subscript(lineJson, "props").value, "pageProps").Ok?
      && Subscript(Subscript(lineJson, "props").value, "pageProps").value.JObj?
    ensures r.Ok? ==>
      r.value == GetOr(Subscript(Subscript(lineJson, "props").value, "pageProps").value, "lineHistoryModel", JObj([]))
  {
    var props :- Subscript(lineJson, "props");
    var pageProps :- Subscript(props, "pageProps");
    DictGet(pageProps, "lineHistoryModel", JObj([]))
  }

  /** The top-level tier: `lineHistoryModel.oddsViews` (defaulting to `[]`). */
  function TopOddsViews(model: Json): (r: Result<Json>)
    ensures r.Ok? <==> model.JObj?
    ensures r.Ok? && Lookup(model.fields, OddsViewsKey).None? ==> r.value == JArr([])
    ensures r.Ok? && Lookup(model.fields, OddsViewsKey).Some? ==> r.value == Lookup(model.fields, OddsViewsKey).value
  {
    DictGet(model, OddsViewsKey, JArr([]))
  }

  /** The nested tier: `lineHistoryModel.lineHistory.oddsViews`, or `[]` when
      `lineHistory` is missing or falsy. */
  function NestedOddsViews(model: Json): (r: Result<Json>)
    ensures r.Ok? ==> model.JObj?
    ensures model.JObj? && Lookup(model.fields, "lineHistory").None? ==> r == Ok(JArr([]))
    ensures model.JObj? && !Truthy(GetOr(model, "lineHistory", JObj([]))) ==> r == Ok(JArr([]))
    ensures model.JObj? ==>
      var lineHistory := GetOr(model, "lineHistory", JObj([]));
      Truthy(lineHistory) && !lineHistory.JObj? ==> r.Raised?
    ensures model.JObj? ==>
      var lineHistory := GetOr(model, "lineHistory", JObj([]));
      Truthy(lineHistory) && lineHistory.JObj? ==> r == Ok(GetOr(lineHistory, OddsViewsKey, JArr([])))
  {
    var lineHistory :- DictGet(model, "lineHistory", JObj([]));
    if Truthy(lineHistory) then DictGet(lineHistory, OddsViewsKey, JArr([])) else Ok(JArr([]))
  }

  /** The value the scraper assigns to `odds_views`: the first truthy tier,
      the scan over the whole document last. Raises when the document lacks
      `props.pageProps` or a tier's container is not a dict. */
  function LocateOddsViews(lineJson: Json): (r: Result<Json>)
    ensures r.Ok? <==>
      && HistoryModel(lineJson).Ok?
      && TopOddsViews(HistoryModel(lineJson).value).Ok?
      && NestedOddsViews(HistoryModel(lineJson).value).Ok?
    ensures r.Ok? ==> Truthy(r.value) || r.value == JArr([])
  {
    var model :- HistoryModel(lineJson);
    var top :- TopOddsViews(model);
    var nested :- NestedOddsViews(model);
    if Truthy(top) then Ok(top)
    else if Truthy(nested) then Ok(nested)
    else Ok(JArr(Found(FindOddsViewsRecursive(lineJson))))
  }

  /** A non-empty top-level list wins even when the nested one is non-empty too. */
  lemma TopLevelTakesPrecedence(lineJson: Json, model: Json, top: Json)
    requires HistoryModel(lineJson) == Ok(model)
    requires TopOddsViews(model) == Ok(top) && Truthy(top)
    requires NestedOddsViews(model).Ok?
    ensures LocateOddsViews(lineJson) == Ok(top)
  {
  }

  /** The nested list is used only when the top-level one is empty. */
  lemma NestedUsedWhenTopEmpty(lineJson: Json, model: Json, nested: Json)
    requires HistoryModel(lineJson) == Ok(model)
    requires TopOddsViews(model).Ok? && !Truthy(TopOddsViews(model).value)
    requires NestedOddsViews(model) == Ok(nested) && Truthy(nested)
    ensures LocateOddsViews(lineJson) == Ok(nested)
  {
  }

  /** With both fixed places empty, the whole document is scanned and the
      first non-empty `oddsViews` list in traversal order is used. */
  lemma ScanWhenBothEmpty(lineJson: Json, model: Json)
    requires HistoryModel(lineJson) == Ok(model)
    requires TopOddsViews(model).Ok? && !Truthy(TopOddsViews(model).value)
    requires NestedOddsViews(model).Ok? && !Truthy(NestedOddsViews(model).value)
    ensures LocateOddsViews(lineJson) == Ok(JArr(FirstNonEmpty(Hits(lineJson))))
  {
    FindIsFirstHit(lineJson);
  }

  /** A truthy `lineHistory` that is not a dict makes the lookup raise, even
      when the top-level list is present. */
  lemma NonDictLineHistoryRaises(lineJson: Json, model: Json)
    requires HistoryModel(lineJson) == Ok(model)
    requires DictGet(model, "lineHistory", JObj([])).Ok?
    requires var lh := DictGet(model, "lineHistory", JObj([])).value; Truthy(lh) && !lh.JObj?
    ensures LocateOddsViews(lineJson) == Raised
  {
  }

  /** A document whose `oddsViews` list sits three levels down under
      unrelated keys, with both fixed places empty, still yields that list. */
  lemma DeepScanExample(view: Json)
    ensures
      var deep := JObj([("c", JObj([(OddsViewsKey, JArr([view]))]))]);
      var pageProps := JObj([("lineHistoryModel", JObj([])), ("a", JObj([("b", JArr([deep]))]))]);
      var doc := JObj([("props", JObj([("pageProps", pageProps)]))]);
      LocateOddsViews(doc) == Ok(JArr([view]))
  {
    var inner := JObj([(OddsViewsKey, JArr([view]))]);
    var deep := JObj([("c", inner)]);
    var b := JObj([("b", JArr([deep]))]);
    var pageProps := JObj([("lineHistoryModel", JObj([])), ("a", b)]);
    var props := JObj([("pageProps", pageProps)]);
    var doc := JObj([("props", props)]);
    assert FindOddsViewsRecursive(inner) == Some([view]);
    assert FindInValues(deep, 0) == Some([view]);
    assert "c" != OddsViewsKey && "b" != OddsViewsKey && "a" != OddsViewsKey;
    assert "props" != OddsViewsKey && "pageProps" != OddsViewsKey && "lineHistoryModel" != OddsViewsKey;
    LookupFindsFirst(deep.fields, OddsViewsKey);
    assert OwnOddsViews(deep) == None;
    assert FindOddsViewsRecursive(deep) == Some([view]);
    assert FindInItems(JArr([deep]), 0) == Some([view]);
    LookupFindsFirst(b.fields, OddsViewsKey);
    assert OwnOddsViews(b) == None;
    assert FindInValues(b, 0) == Some([view]);
    assert FindOddsViewsRecursive(b) == Some([view]);
    assert FindOddsViewsRecursive(JObj([])) == None;
    assert FindInValues(pageProps, 1) == Some([view]);
    assert FindInValues(pageProps, 0) == Some([view]);
    LookupFindsFirst(pageProps.fields, OddsViewsKey);
    assert OwnOddsViews(pageProps) == None;
    assert FindOddsViewsRecursive(pageProps) == Some([view]);
    LookupFindsFirst(props.fields, OddsViewsKey);
    assert OwnOddsViews(props) == None;
    assert FindInValues(props, 0) == Some([view]);
    assert FindOddsViewsRecursive(props) == Some([view]);
    LookupFindsFirst(doc.fields, OddsViewsKey);
    assert OwnOddsViews(doc) == None;
    assert FindInValues(doc, 0) == Some([view]);
    assert FindOddsViewsRecursive(doc) == Some([view]);
    assert HistoryModel(doc) == Ok(JObj([]));
  }
}
