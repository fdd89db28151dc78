/**
  ElementLookup: symbol lookup (exact key first, then the first element whose
  symbol matches ignoring case), name lookup and name search over the catalog.
  A `null` argument or result is `None`; "first" is the catalog's enumeration
  order.
*/
module ElementLookup {
  import opened Ascii
  import opened Outcomes
  import opened ChemicalElements

  /** Position of the first element of `vs` that `matches`, or |vs| if none does. */
  function FirstIndex(vs: seq<Element>, matches: Element -> bool): (r: nat)
    ensures r <= |vs|
    ensures forall j | 0 <= j < r :: !matches(vs[j])
    ensures r < |vs| ==> matches(vs[r])
    decreases |vs|
  {
    if vs == [] then 0
    else if matches(vs[0]) then 0
    else 1 + FirstIndex(vs[1..], matches)
  }

  /** LINQ `FirstOrDefault(matches)`. */
  function FirstOrNone(vs: seq<Element>, matches: Element -> bool): (r: Option<Element>)
    ensures r.None? <==> forall j | 0 <= j < |vs| :: !matches(vs[j])
    ensures r.Some? ==> exists j | 0 <= j < |vs| ::
              vs[j] == r.value && matches(vs[j]) && forall k | 0 <= k < j :: !matches(vs[k])
  {
    var j := FirstIndex(vs, matches);
    if j < |vs| then Some(vs[j]) else None
  }

  /** LINQ `Where(matches)`. */
  function Filter(vs: seq<Element>, matches: Element -> bool): (r: seq<Element>)
    ensures |r| <= |vs|
    ensures forall x | x in r :: x in vs && matches(x)
    ensures forall j | 0 <= j < |vs| && matches(vs[j]) :: vs[j] in r
    decreases |vs|
  {
    if vs == [] then []
    else (if matches(vs[0]) then [vs[0]] else []) + Filter(vs[1..], matches)
  }

  /** The filter keeps order: filtering a concatenation concatenates the filtered parts. */
  lemma {:induction false} FilterAppend(a: seq<Element>, b: seq<Element>, matches: Element -> bool)
    ensures Filter(a + b, matches) == Filter(a, matches) + Filter(b, matches)
    decreases |a|
  {
    if a == [] {
      assert a + b == b;
    } else {
      assert (a + b)[0] == a[0];
      assert (a + b)[1..] == a[1..] + b;
      FilterAppend(a[1..], b, matches);
    }
  }

  function SymbolMatches(query: string): Element -> bool {
    (e: Element) => EqualsIgnoreCase(e.symbol, query)
  }

  function NameMatches(query: string): Element -> bool {
    (e: Element) => EqualsIgnoreCase(e.name, query)
  }

  function NameContains(query: string): Element -> bool {
    (e: Element) => ContainsIgnoreCase(e.name, query)
  }

  /** ElementLookup.FindBySymbol. */
  function FindBySymbol(cat: Catalog, symbol: Option<string>): (r: Option<Element>)
    ensures symbol.None? ==> r.None?
    ensures symbol.Some? && symbol.value in cat.elements ==> r == Some(cat.elements[symbol.value])
    ensures symbol.Some? && symbol.value !in cat.elements ==>
              (r.None? <==> forall k | k in cat.elements :: !EqualsIgnoreCase(cat.elements[k].symbol, symbol.value))
    ensures symbol.Some? && symbol.value !in cat.elements && r.Some? ==>
              EqualsIgnoreCase(r.value.symbol, symbol.value) &&
              exists j | 0 <= j < |cat.order| ::
                r.value == cat.elements[cat.order[j]] &&
                forall i | 0 <= i < j :: !EqualsIgnoreCase(cat.elements[cat.order[i]].symbol, symbol.value)
  {
    match symbol
    case None => None
    case Some(s) =>
      if s in cat.elements then Some(cat.elements[s])
      else
        var vs := Values(cat);
        var r := FirstOrNone(vs, SymbolMatches(s));
        CatalogValues(cat, SymbolMatches(s));
        r
  }

  /** A property holds of every catalog element exactly when it holds of every enumerated value. */
  lemma CatalogValues(cat: Catalog, matches: Element -> bool)
    ensures (forall j | 0 <= j < |Values(cat)| :: !matches(Values(cat)[j])) <==>
            (forall k | k in cat.elements :: !matches(cat.elements[k]))
  {
    var vs := Values(cat);
    if forall j | 0 <= j < |vs| :: !matches(vs[j]) {
      forall k | k in cat.elements ensures !matches(cat.elements[k]) {
        var j :| 0 <= j < |cat.order| && cat.order[j] == k;
        assert vs[j] == cat.elements[k];
      }
    }
  }

  /** ElementLookup.FindByName. */
  function FindByName(cat: Catalog, name: Option<string>): (r: Option<Element>)
    ensures name.None? ==> r.None?
    ensures name.Some? ==>
              (r.None? <==> forall k | k in cat.elements :: !EqualsIgnoreCase(cat.elements[k].name, name.value))
    ensures name.Some? && r.Some? ==>
              EqualsIgnoreCase(r.value.name, name.value) &&
              exists j | 0 <= j < |cat.order| ::
                r.value == cat.elements[cat.order[j]] &&
                forall i | 0 <= i < j :: !EqualsIgnoreCase(cat.elements[cat.order[i]].name, name.value)
  {
    match name
    case None => None
    case Some(n) =>
      var r := FirstOrNone(Values(cat), NameMatches(n));
      CatalogValues(cat, NameMatches(n));
      r
  }

  /** ElementLookup.SearchByName: the elements whose name contains the query, ignoring case, in catalog order. */
  function SearchByName(cat: Catalog, partialName: Option<string>): (r: seq<Element>)
    ensures partialName.None? || partialName.value == [] ==> r == []
    ensures partialName.Some? && partialName.value != [] ==>
              && (forall x | x in r :: x in cat.elements.Values && ContainsIgnoreCase(x.name, partialName.value))
              && (forall k | k in cat.elements && ContainsIgnoreCase(cat.elements[k].name, partialName.value) ::
                    cat.elements[k] in r)
  {
    match partialName
    case None => []
    case Some(q) =>
      if q == [] then []
      else
        var vs := Values(cat);
        var r := Filter(vs, NameContains(q));
        forall x | x in r ensures x in cat.elements.Values {
          var j :| 0 <= j < |vs| && vs[j] == x;
          assert cat.order[j] in cat.elements;
        }
        forall k | k in cat.elements && ContainsIgnoreCase(cat.elements[k].name, q) ensures cat.elements[k] in r {
          var j :| 0 <= j < |cat.order| && cat.order[j] == k;
          assert NameContains(q)(vs[j]);
        }
        r
  }

  /** Search results follow the catalog order: splitting the enumeration splits the result. */
  lemma SearchByNameInOrder(cat: Catalog, q: string, n: nat)
    requires q != [] && n <= |cat.order|
    ensures SearchByName(cat, Some(q)) ==
              Filter(Values(cat)[..n], NameContains(q)) + Filter(Values(cat)[n..], NameContains(q))
  {
    var vs := Values(cat);
    assert vs == vs[..n] + vs[n..];
    FilterAppend(vs[..n], vs[n..], NameContains(q));
  }
}
