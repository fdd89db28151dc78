/**
  FormulaValidator.Validate: one pass over the tokens that tracks the
  parenthesis depth, stops at the first closing parenthesis that takes the
  depth below zero or the first element symbol missing from the catalog, and
  finally rejects a depth other than zero. `Check` is the same pass written as
  a recursive function; its contract says what a clean pass means.
*/
module FormulaValidation {
  import opened Outcomes
  import opened ChemicalElements
  import opened Tokens

  const UnmatchedClosing := "Unmatched closing parenthesis."
  const UnmatchedOpening := "Unmatched opening parenthesis."

  function UnknownElement(symbol: string): string { "Unknown element symbol: " + symbol }

  /**
    The error the pass reports for `ts` when it starts at depth `depth`, or
    None. It passes exactly when the depth never goes negative, ends at zero,
    and every element symbol is a catalog key.
  */
  function Check(cat: Catalog, ts: seq<Token>, depth: nat): (r: Option<string>)
    ensures r.None? <==> DepthOK(ts, depth) && depth + Depth(ts) == 0 && AllKnown(cat, ts)
    decreases |ts|
  {
    if ts == [] then
      if depth != 0 then Some(UnmatchedOpening) else None
    else
      AllKnownUncons(cat, ts);
      match ts[0].kind
      case OpenParen => Check(cat, ts[1..], depth + 1)
      case CloseParen => if depth == 0 then Some(UnmatchedClosing) else Check(cat, ts[1..], depth - 1)
      case Element => if ts[0].value !in cat.elements then Some(UnknownElement(ts[0].value)) else Check(cat, ts[1..], depth)
      case Number => Check(cat, ts[1..], depth)
  }

  /** The message FormulaValidator reports for the token list, or None when it validates. */
  function ValidationError(cat: Catalog, ts: seq<Token>): (r: Option<string>)
    ensures r.None? <==> Balanced(ts) && AllKnown(cat, ts)
  {
    Check(cat, ts, 0)
  }

  /** FormulaValidator.Validate: `ok` is the return value, `error` the out parameter (None for null). */
  method Validate(cat: Catalog, ts: seq<Token>) returns (ok: bool, error: Option<string>)
    ensures ok <==> error.None?
    ensures error == ValidationError(cat, ts)
    ensures ok <==> Balanced(ts) && AllKnown(cat, ts)
  {
    error := None;
    var depth: nat := 0;
    for i := 0 to |ts|
      invariant Check(cat, ts[i..], depth) == ValidationError(cat, ts)
    {
      assert ts[i..][1..] == ts[i + 1..];
      var token := ts[i];
      if token.kind.OpenParen? {
        depth := depth + 1;
      } else if token.kind.CloseParen? {
        if depth == 0 {
          error := Some(UnmatchedClosing);
          return false, error;
        }
        depth := depth - 1;
      } else if token.kind.Element? {
        if token.value !in cat.elements {
          error := Some(UnknownElement(token.value));
          return false, error;
        }
      }
    }
    if depth != 0 {
      error := Some(UnmatchedOpening);
      return false, error;
    }
    return true, error;
  }

  /** A prefix that passes cleanly hands the pass on to the rest at the depth it reached. */
  lemma {:induction false} CheckCleanPrefix(cat: Catalog, a: seq<Token>, b: seq<Token>, depth: nat)
    requires DepthOK(a, depth) && AllKnown(cat, a)
    ensures depth + Depth(a) >= 0
    ensures Check(cat, a + b, depth) == Check(cat, b, depth + Depth(a))
    decreases |a|
  {
    if a == [] {
      assert a + b == b;
    } else {
      assert a + b == [a[0]] + (a[1..] + b);
      AllKnownUncons(cat, a);
      CheckStep(cat, a[0], a[1..] + b, depth);
      CheckCleanPrefix(cat, a[1..], b, depth + Delta(a[0]));
    }
  }

  /** A token that raises no complaint passes the pass on to the rest at its new depth. */
  lemma CheckStep(cat: Catalog, t: Token, rest: seq<Token>, depth: nat)
    requires depth + Delta(t) >= 0
    requires t.kind.Element? ==> t.value in cat.elements
    ensures Check(cat, [t] + rest, depth) == Check(cat, rest, depth + Delta(t))
  {
    assert ([t] + rest)[0] == t && ([t] + rest)[1..] == rest;
  }

  /**
    The earliest offending token decides the message: after a clean prefix, a
    closing parenthesis at depth zero or an unknown symbol is reported,
    whatever follows it.
  */
  lemma FirstViolationDecides(cat: Catalog, a: seq<Token>, t: Token, b: seq<Token>)
    requires DepthOK(a, 0) && AllKnown(cat, a)
    requires (t.kind.CloseParen? && Depth(a) == 0) || (t.kind.Element? && t.value !in cat.elements)
    ensures ValidationError(cat, a + [t] + b) ==
              Some(if t.kind.CloseParen? then UnmatchedClosing else UnknownElement(t.value))
  {
    CheckCleanPrefix(cat, a, [t] + b, 0);
    assert a + [t] + b == a + ([t] + b);
    assert ([t] + b)[0] == t;
  }

  /** With no offending token, the only possible complaint is an unclosed parenthesis. */
  lemma OnlyOpeningRemains(cat: Catalog, ts: seq<Token>)
    requires DepthOK(ts, 0) && AllKnown(cat, ts)
    ensures ValidationError(cat, ts) == if Depth(ts) == 0 then None else Some(UnmatchedOpening)
  {
    CheckCleanPrefix(cat, ts, [], 0);
    assert ts + [] == ts;
  }

  /** Number tokens never change the outcome: inserting one anywhere gives the same result. */
  lemma {:induction false} NumbersIgnored(cat: Catalog, a: seq<Token>, digits: string, b: seq<Token>, depth: nat)
    ensures Check(cat, a + [Token(Number, digits)] + b, depth) == Check(cat, a + b, depth)
    decreases |a|
  {
    var n := Token(Number, digits);
    if a == [] {
      assert a + [n] + b == [n] + b;
      assert ([n] + b)[1..] == b;
      assert a + b == b;
    } else {
      assert (a + [n] + b)[0] == a[0] && (a + b)[0] == a[0];
      assert (a + [n] + b)[1..] == a[1..] + [n] + b;
      assert (a + b)[1..] == a[1..] + b;
      if !a[0].kind.CloseParen? || depth > 0 {
        NumbersIgnored(cat, a[1..], digits, b, depth + Delta(a[0]));
      }
    }
  }
}
