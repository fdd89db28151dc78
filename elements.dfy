/**
  The element catalog. The application keeps one static dictionary from symbol
  to element; here it is a value handed to every operation. `order` is the
  dictionary's enumeration order, which decides which element "first" means in
  the case-insensitive lookups.
*/
module ChemicalElements {

  /** The atomic mass is carried but never computed with (floating point is not modelled). */
  datatype Element = Element(symbol: string, name: string, atomicMass: real)

  datatype ElementTable = ElementTable(elements: map<string, Element>, order: seq<string>)
  {
    /** Every key is enumerated exactly once. */
    ghost predicate WellOrdered() {
      && (forall i | 0 <= i < |order| :: order[i] in elements)
      && (forall k | k in elements :: k in order)
      && (forall i, j | 0 <= i < j < |order| :: order[i] != order[j])
    }
  }

  type Catalog = t: ElementTable | t.WellOrdered() witness ElementTable(map[], [])

  /** `Elements.Values`, in enumeration order. */
  function Values(cat: Catalog): (vs: seq<Element>)
    ensures |vs| == |cat.order|
    ensures forall i | 0 <= i < |vs| :: vs[i] == cat.elements[cat.order[i]]
  {
    seq(|cat.order|, i requires 0 <= i < |cat.order| => cat.elements[cat.order[i]])
  }

  /** `Elements.ContainsKey(symbol)`. */
  predicate HasSymbol(cat: Catalog, symbol: string) { symbol in cat.elements }
}
