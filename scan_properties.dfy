/**
  What every tokenizer built on `Scan` guarantees, whatever its letter policy:
  the element symbols spell the input's letters exactly once each (up to case),
  a maximal digit run is one Number token, whitespace yields nothing, and a
  character outside letters, digits, parentheses and whitespace stops the scan.
*/
module ScanProperties {
  import opened Ascii
  import opened Outcomes
  import opened ChemicalElements
  import opened Tokens
  import opened Scanning

  /** Letter conservation: concatenating the Element tokens gives the input's letters, up to case. */
  lemma {:induction false} ScanConservesLetters(cat: Catalog, p: LetterPolicy, s: string)
    requires Scan(cat, p, s).Ok?
    ensures Fold(ElementText(Scan(cat, p, s).value)) == Fold(Letters(s))
    decreases |s|
  {
    if s == [] {
    } else if s[0] == '(' || s[0] == ')' || IsWhiteSpace(s[0]) {
      var piece := if s[0] == '(' then [OpenToken] else if s[0] == ')' then [CloseToken] else [];
      assert Scan(cat, p, s) == Prepend(piece, Scan(cat, p, s[1..])) by {
        if piece == [] {
          var r := Scan(cat, p, s[1..]);
          assert r.Ok? ==> [] + r.value == r.value;
        }
      }
      ScanConservesLetters(cat, p, s[1..]);
      NoLetterPiece(s, 1, piece);
      ConserveStep(cat, p, s, piece, 1);
    } else if IsDigit(s[0]) {
      var n := DigitRunLength(s);
      ScanConservesLetters(cat, p, s[n..]);
      NoLetterPiece(s, n, [Token(Number, s[..n])]);
      ConserveStep(cat, p, s, [Token(Number, s[..n])], n);
    } else {
      var step := LetterStep(cat, p, s).value;
      ScanConservesLetters(cat, p, s[step.width..]);
      LettersOfLetters(s[..step.width]);
      ConserveStep(cat, p, s, step.tokens, step.width);
    }
  }

  /** A piece with no Element token for `w` characters that are not letters. */
  lemma NoLetterPiece(s: string, w: nat, piece: seq<Token>)
    requires w <= |s| && forall k | 0 <= k < w :: !IsLetter(s[k])
    requires |piece| <= 1 && forall k | 0 <= k < |piece| :: !piece[k].kind.Element?
    ensures Fold(ElementText(piece)) == Fold(Letters(s[..w]))
  {
    assert NoLetters(s[..w]) by {
      forall k | 0 <= k < w ensures !IsLetter(s[..w][k]) {
        assert s[..w][k] == s[k];
      }
    }
    LettersOfNonLetters(s[..w]);
    if piece != [] {
      assert piece[1..] == [];
    }
  }

  /** One step of the scan keeps letter conservation: the piece's letters, then the rest's. */
  lemma ConserveStep(cat: Catalog, p: LetterPolicy, s: string, piece: seq<Token>, w: nat)
    requires w <= |s| && Scan(cat, p, s) == Prepend(piece, Scan(cat, p, s[w..]))
    requires Scan(cat, p, s[w..]).Ok?
    requires Fold(ElementText(Scan(cat, p, s[w..]).value)) == Fold(Letters(s[w..]))
    requires Fold(ElementText(piece)) == Fold(Letters(s[..w]))
    ensures Fold(ElementText(Scan(cat, p, s).value)) == Fold(Letters(s))
  {
    var rest := Scan(cat, p, s[w..]).value;
    ElementTextAppend(piece, rest);
    LettersSplit(s, w);
    FoldAppend(ElementText(piece), ElementText(rest));
    FoldAppend(Letters(s[..w]), Letters(s[w..]));
  }

  lemma {:induction false} DigitRunOf(d: string, rest: string)
    requires forall i | 0 <= i < |d| :: IsDigit(d[i])
    requires rest == [] || !IsDigit(rest[0])
    ensures DigitRunLength(d + rest) == |d|
    decreases |d|
  {
    if d != [] {
      assert (d + rest)[1..] == d[1..] + rest;
      DigitRunOf(d[1..], rest);
    } else {
      assert d + rest == rest;
    }
  }

  /** A maximal run of digits becomes exactly one Number token holding those digits. */
  lemma ScanDigitRun(cat: Catalog, p: LetterPolicy, d: string, rest: string)
    requires d != [] && forall i | 0 <= i < |d| :: IsDigit(d[i])
    requires rest == [] || !IsDigit(rest[0])
    ensures Scan(cat, p, d + rest) == Prepend([Token(Number, d)], Scan(cat, p, rest))
  {
    DigitRunOf(d, rest);
    assert (d + rest)[..|d|] == d;
    assert (d + rest)[|d|..] == rest;
  }

  /** Whitespace yields no token. */
  lemma {:induction false} ScanSkipsWhitespace(cat: Catalog, p: LetterPolicy, w: string, rest: string)
    requires forall i | 0 <= i < |w| :: IsWhiteSpace(w[i])
    ensures Scan(cat, p, w + rest) == Scan(cat, p, rest)
    decreases |w|
  {
    if w == [] {
      assert w + rest == rest;
    } else {
      assert (w + rest)[1..] == w[1..] + rest;
      ScanSkipsWhitespace(cat, p, w[1..], rest);
    }
  }

  /** Any character that is not a parenthesis, digit, letter or whitespace makes the scan fail. */
  lemma {:induction false} ScanFailsOnForeign(cat: Catalog, p: LetterPolicy, s: string, j: nat)
    requires j < |s| && IsForeign(s[j])
    ensures Scan(cat, p, s).Err?
    decreases |s|
  {
    if IsForeign(s[0]) {
    } else if s[0] == '(' || s[0] == ')' || IsWhiteSpace(s[0]) {
      ScanFailsOnForeign(cat, p, s[1..], j - 1);
    } else if IsDigit(s[0]) {
      var n := DigitRunLength(s);
      assert j >= n;
      ScanFailsOnForeign(cat, p, s[n..], j - n);
    } else {
      match LetterStep(cat, p, s)
      case None =>
      case Some(step) =>
        forall k | 0 <= k < step.width ensures IsLetter(s[k]) {
          assert s[..step.width][k] == s[k];
        }
        assert j >= step.width;
        ScanFailsOnForeign(cat, p, s[step.width..], j - step.width);
    }
  }

  /** Index of the first foreign character of `s`, or |s| if there is none. */
  function FirstForeign(s: string): (r: nat)
    ensures r <= |s|
    ensures forall k | 0 <= k < r :: !IsForeign(s[k])
    ensures r < |s| ==> IsForeign(s[r])
    decreases |s|
  {
    if s == [] then 0 else if IsForeign(s[0]) then 0 else 1 + FirstForeign(s[1..])
  }

  lemma {:induction false} FirstForeignSkip(s: string, w: nat)
    requires w <= |s|
    requires forall k | 0 <= k < w :: !IsForeign(s[k])
    ensures FirstForeign(s) == w + FirstForeign(s[w..])
    decreases w
  {
    if w > 0 {
      assert s[1..][w - 1..] == s[w..];
      FirstForeignSkip(s[1..], w - 1);
    } else {
      assert s[w..] == s;
    }
  }

  /** Whatever the policy, the scan of an input with a foreign character fails. */
  lemma ForeignFails(cat: Catalog, p: LetterPolicy, s: string)
    ensures FirstForeign(s) < |s| ==> Scan(cat, p, s).Err?
  {
    if FirstForeign(s) < |s| {
      ScanFailsOnForeign(cat, p, s, FirstForeign(s));
    }
  }

  /**
    Under the FormulaTokenizer policies letters never fail, so the scan fails
    exactly when some character is foreign, and it reports the first one.
  */
  lemma {:induction false} FormulaScanFailsOnlyOnForeign(cat: Catalog, p: LetterPolicy, s: string)
    requires p.AllLowerMode? || p.MixedCaseMode?
    ensures Scan(cat, p, s).Err? <==> FirstForeign(s) < |s|
    ensures Scan(cat, p, s).Err? ==> Scan(cat, p, s).error == InvalidCharacter(s[FirstForeign(s)])
    decreases |s|
  {
    if s == [] || IsForeign(s[0]) {
    } else {
      var w: nat;
      if s[0] == '(' || s[0] == ')' || IsWhiteSpace(s[0]) {
        w := 1;
      } else if IsDigit(s[0]) {
        w := DigitRunLength(s);
      } else {
        w := LetterStep(cat, p, s).value.width;
        assert forall k | 0 <= k < w :: s[k] == s[..w][k];
      }
      FormulaScanFailsOnlyOnForeign(cat, p, s[w..]);
      FirstForeignSkip(s, w);
      if FirstForeign(s[w..]) < |s| - w {
        assert s[w..][FirstForeign(s[w..])] == s[w + FirstForeign(s[w..])];
      }
    }
  }

  /** The shape of one token: symbols as the policy allows, digit runs, parentheses. */
  predicate WellFormed(cat: Catalog, p: LetterPolicy, t: Token) {
    match t.kind
    case Element => PolicyToken(cat, p, t)
    case Number => t.value != [] && forall i | 0 <= i < |t.value| :: IsDigit(t.value[i])
    case OpenParen => t.value == "("
    case CloseParen => t.value == ")"
  }

  predicate AllWellFormed(cat: Catalog, p: LetterPolicy, ts: seq<Token>) {
    forall k | 0 <= k < |ts| :: WellFormed(cat, p, ts[k])
  }

  lemma AllWellFormedAppend(cat: Catalog, p: LetterPolicy, a: seq<Token>, b: seq<Token>)
    requires AllWellFormed(cat, p, a) && AllWellFormed(cat, p, b)
    ensures AllWellFormed(cat, p, a + b)
  {
    forall k | 0 <= k < |a + b| ensures WellFormed(cat, p, (a + b)[k]) {
      if k < |a| { assert (a + b)[k] == a[k]; } else { assert (a + b)[k] == b[k - |a|]; }
    }
  }

  /** Every token the scanner emits is well formed for its policy. */
  lemma {:induction false} ScanTokensWellFormed(cat: Catalog, p: LetterPolicy, s: string)
    requires Scan(cat, p, s).Ok?
    ensures AllWellFormed(cat, p, Scan(cat, p, s).value)
    decreases |s|
  {
    if s == [] {
    } else if s[0] == '(' || s[0] == ')' {
      ScanTokensWellFormed(cat, p, s[1..]);
      var t := if s[0] == '(' then OpenToken else CloseToken;
      assert AllWellFormed(cat, p, [t]);
      AllWellFormedAppend(cat, p, [t], Scan(cat, p, s[1..]).value);
    } else if IsWhiteSpace(s[0]) {
      ScanTokensWellFormed(cat, p, s[1..]);
    } else if IsDigit(s[0]) {
      var n := DigitRunLength(s);
      ScanTokensWellFormed(cat, p, s[n..]);
      var t := Token(Number, s[..n]);
      assert WellFormed(cat, p, t);
      assert AllWellFormed(cat, p, [t]);
      AllWellFormedAppend(cat, p, [t], Scan(cat, p, s[n..]).value);
    } else {
      var step := LetterStep(cat, p, s).value;
      ScanTokensWellFormed(cat, p, s[step.width..]);
      assert AllWellFormed(cat, p, step.tokens) by {
        forall k | 0 <= k < |step.tokens| ensures WellFormed(cat, p, step.tokens[k]) {
          assert PolicyToken(cat, p, step.tokens[k]);
        }
      }
      AllWellFormedAppend(cat, p, step.tokens, Scan(cat, p, s[step.width..]).value);
    }
  }

  /** The three SmartFormulaParser policies only ever emit catalog keys. */
  lemma SmartScanTokensKnown(cat: Catalog, p: LetterPolicy, s: string)
    requires p.ExactCase? || p.SectionBest? || p.TitleGreedy?
    requires Scan(cat, p, s).Ok?
    ensures AllKnown(cat, Scan(cat, p, s).value)
  {
    ScanTokensWellFormed(cat, p, s);
    var ts := Scan(cat, p, s).value;
    forall k | 0 <= k < |ts| && ts[k].kind.Element? ensures ts[k].value in cat.elements {
      assert WellFormed(cat, p, ts[k]);
    }
  }
}
