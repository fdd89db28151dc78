/**
  Tokens shared by both parsers (`FormulaTokenizer.Token` and the private
  `SmartFormulaParser.Token` have the same shape), with the facts about
  parenthesis depth and catalog membership that validation and evaluation use.
*/
module Tokens {
  import opened Ascii
  import opened ChemicalElements

  datatype TokenKind = Element | Number | OpenParen | CloseParen

  datatype Token = Token(kind: TokenKind, value: string)

  function ElementToken(symbol: string): Token { Token(TokenKind.Element, symbol) }

  const OpenToken := Token(OpenParen, "(")
  const CloseToken := Token(CloseParen, ")")

  /** The element symbols of `ts` written one after another. */
  function ElementText(ts: seq<Token>): string
    decreases |ts|
  {
    if ts == [] then []
    else (if ts[0].kind.Element? then ts[0].value else []) + ElementText(ts[1..])
  }

  lemma {:induction false} ElementTextAppend(a: seq<Token>, b: seq<Token>)
    ensures ElementText(a + b) == ElementText(a) + ElementText(b)
    decreases |a|
  {
    if a == [] {
      assert a + b == b;
    } else {
      assert (a + b)[1..] == a[1..] + b;
      ElementTextAppend(a[1..], b);
    }
  }

  /** The distinct element symbols that occur in `ts`. */
  function ElementSymbols(ts: seq<Token>): set<string>
    decreases |ts|
  {
    if ts == [] then {}
    else (if ts[0].kind.Element? then {ts[0].value} else {}) + ElementSymbols(ts[1..])
  }

  predicate AllElements(ts: seq<Token>) {
    forall k | 0 <= k < |ts| :: ts[k].kind.Element?
  }

  /** The effect of one token on the parenthesis depth. */
  function Delta(t: Token): int {
    match t.kind
    case OpenParen => 1
    case CloseParen => -1
    case _ => 0
  }

  /** Opening minus closing parentheses in `ts`. */
  function Depth(ts: seq<Token>): int
    decreases |ts|
  {
    if ts == [] then 0 else Delta(ts[0]) + Depth(ts[1..])
  }

  /** Starting at depth `d`, the running depth never goes below zero. */
  predicate DepthOK(ts: seq<Token>, d: int)
    decreases |ts|
  {
    ts == [] || (d + Delta(ts[0]) >= 0 && DepthOK(ts[1..], d + Delta(ts[0])))
  }

  /** Parentheses are balanced: the depth never goes negative and ends at zero. */
  predicate Balanced(ts: seq<Token>) {
    DepthOK(ts, 0) && Depth(ts) == 0
  }

  /** Every Element token names a catalog key. */
  predicate AllKnown(cat: Catalog, ts: seq<Token>) {
    forall k | 0 <= k < |ts| && ts[k].kind.Element? :: ts[k].value in cat.elements
  }

  lemma {:induction false} DepthAppend(a: seq<Token>, b: seq<Token>)
    ensures Depth(a + b) == Depth(a) + Depth(b)
    decreases |a|
  {
    if a == [] {
      assert a + b == b;
    } else {
      assert (a + b)[1..] == a[1..] + b;
      DepthAppend(a[1..], b);
    }
  }

  lemma {:induction false} DepthOKAppend(a: seq<Token>, b: seq<Token>, d: int)
    ensures DepthOK(a + b, d) <==> DepthOK(a, d) && DepthOK(b, d + Depth(a))
    decreases |a|
  {
    if a == [] {
      assert a + b == b;
    } else {
      assert (a + b)[1..] == a[1..] + b;
      DepthOKAppend(a[1..], b, d + Delta(a[0]));
    }
  }

  lemma {:induction false} DepthOKMono(ts: seq<Token>, d: int, e: int)
    requires DepthOK(ts, d) && d <= e
    ensures DepthOK(ts, e)
    decreases |ts|
  {
    if ts != [] {
      DepthOKMono(ts[1..], d + Delta(ts[0]), e + Delta(ts[0]));
    }
  }

  /** A prefix that keeps the depth non-negative never ends below zero. */
  lemma {:induction false} DepthOKFinal(ts: seq<Token>, d: int)
    requires DepthOK(ts, d) && d >= 0
    ensures d + Depth(ts) >= 0
    decreases |ts|
  {
    if ts != [] {
      DepthOKFinal(ts[1..], d + Delta(ts[0]));
    }
  }

  lemma AllKnownUncons(cat: Catalog, ts: seq<Token>)
    requires ts != []
    ensures AllKnown(cat, ts) <==>
              (ts[0].kind.Element? ==> ts[0].value in cat.elements) && AllKnown(cat, ts[1..])
  {
    if (ts[0].kind.Element? ==> ts[0].value in cat.elements) && AllKnown(cat, ts[1..]) {
      forall k | 0 < k < |ts| && ts[k].kind.Element?
        ensures ts[k].value in cat.elements
      {
        assert ts[1..][k - 1] == ts[k];
      }
    }
  }

  lemma {:induction false} AllKnownAppend(cat: Catalog, a: seq<Token>, b: seq<Token>)
    ensures AllKnown(cat, a + b) <==> AllKnown(cat, a) && AllKnown(cat, b)
  {
    if AllKnown(cat, a) && AllKnown(cat, b) {
      forall k | 0 <= k < |a + b| && (a + b)[k].kind.Element?
        ensures (a + b)[k].value in cat.elements
      {
        if k >= |a| { assert (a + b)[k] == b[k - |a|]; }
      }
    }
    if AllKnown(cat, a + b) {
      forall k | 0 <= k < |b| && b[k].kind.Element?
        ensures b[k].value in cat.elements
      {
        assert (a + b)[|a| + k] == b[k];
      }
      forall k | 0 <= k < |a| && a[k].kind.Element?
        ensures a[k].value in cat.elements
      {
        assert (a + b)[k] == a[k];
      }
    }
  }

  /** Validated tokens only name catalog keys. */
  lemma {:induction false} ElementSymbolsKnown(cat: Catalog, ts: seq<Token>)
    requires AllKnown(cat, ts)
    ensures ElementSymbols(ts) <= cat.elements.Keys
    decreases |ts|
  {
    if ts != [] {
      AllKnownUncons(cat, ts);
      ElementSymbolsKnown(cat, ts[1..]);
    }
  }

  /** `int.Parse` of a run of decimal digits (most significant first). */
  function DigitsValue(s: string): nat
    decreases |s|
  {
    if s == [] then 0
    else DigitsValue(s[..|s| - 1]) * 10 + DigitValue(s[|s| - 1])
  }

  function DigitValue(c: char): nat {
    if IsDigit(c) then c as int - '0' as int else 0
  }
}
