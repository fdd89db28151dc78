/**
  The group-stack evaluator shared by `FormulaParser.ParseAndCalculateMolarMass`
  and `SmartFormulaParser.CalculateMolarMass`: a stack of count dictionaries,
  one per open parenthesis, folded over the token list.

  `Run` is the specification (one step per token, the stack as a sequence
  whose last entry is the top); `CountElements` is the loop of the source,
  proved equal to it. The lemmas say what the evaluation means: an element
  adds its count to the innermost group, a closed group is added to its
  parent scaled by the trailing number, juxtaposition adds counts, and the
  symbols counted are exactly the symbols written.
*/
module GroupEvaluation {
  import opened Tokens

  /** The counts of one group: symbol to number of atoms. */
  type Counts = map<string, nat>

  function Get(m: Counts, symbol: string): nat {
    if symbol in m then m[symbol] else 0
  }

  /** Key-wise sum; a key of either operand is a key of the sum. */
  function Plus(a: Counts, b: Counts): (r: Counts)
    ensures r.Keys == a.Keys + b.Keys
    ensures forall k :: Get(r, k) == Get(a, k) + Get(b, k)
  {
    map k | k in a.Keys + b.Keys :: Get(a, k) + Get(b, k)
  }

  /** Every count multiplied by `n`; the keys stay, even when `n` is zero. */
  function Scale(m: Counts, n: nat): (r: Counts)
    ensures r.Keys == m.Keys
    ensures forall k :: Get(r, k) == Get(m, k) * n
  {
    map k | k in m :: m[k] * n
  }

  /** `n` more atoms of `symbol`. */
  function Add(m: Counts, symbol: string, n: nat): (r: Counts)
    ensures r.Keys == m.Keys + {symbol}
    ensures forall k :: Get(r, k) == Get(m, k) + (if k == symbol then n else 0)
  {
    m[symbol := Get(m, symbol) + n]
  }

  lemma CountsExt(a: Counts, b: Counts)
    requires a.Keys == b.Keys
    requires forall k :: Get(a, k) == Get(b, k)
    ensures a == b
  {
    forall k | k in a ensures a[k] == b[k] {
      assert Get(a, k) == Get(b, k);
    }
  }

  lemma PlusEmpty(a: Counts)
    ensures Plus(a, map[]) == a && Plus(map[], a) == a
  {
    CountsExt(Plus(a, map[]), a);
    CountsExt(Plus(map[], a), a);
  }

  lemma PlusAssoc(a: Counts, b: Counts, c: Counts)
    ensures Plus(Plus(a, b), c) == Plus(a, Plus(b, c))
  {
    CountsExt(Plus(Plus(a, b), c), Plus(a, Plus(b, c)));
  }

  lemma AddPlus(x: Counts, m: Counts, symbol: string, n: nat)
    ensures Add(Plus(x, m), symbol, n) == Plus(x, Add(m, symbol, n))
  {
    CountsExt(Add(Plus(x, m), symbol, n), Plus(x, Add(m, symbol, n)));
  }

  /** Scaling distributes over the sum of two groups. */
  lemma ScalePlus(a: Counts, b: Counts, n: nat)
    ensures Scale(Plus(a, b), n) == Plus(Scale(a, n), Scale(b, n))
  {
    forall k ensures Get(Scale(Plus(a, b), n), k) == Get(Plus(Scale(a, n), Scale(b, n)), k) {
      calc {
        Get(Scale(Plus(a, b), n), k);
        (Get(a, k) + Get(b, k)) * n;
        Get(a, k) * n + Get(b, k) * n;
      }
    }
    CountsExt(Scale(Plus(a, b), n), Plus(Scale(a, n), Scale(b, n)));
  }

  // ---------------------------------------------------------------- the stack

  function Top(st: seq<Counts>): Counts
    requires st != []
  {
    st[|st| - 1]
  }

  /** An element: its count goes into the innermost open group. */
  function AddToTop(st: seq<Counts>, symbol: string, n: nat): (r: seq<Counts>)
    requires st != []
    ensures |r| == |st|
  {
    st[..|st| - 1] + [Add(Top(st), symbol, n)]
  }

  /** Only the innermost group changes, and only in the count of `symbol`, which grows by `n`. */
  lemma AddToTopCounts(st: seq<Counts>, symbol: string, n: nat)
    requires st != []
    ensures AddToTop(st, symbol, n)[..|st| - 1] == st[..|st| - 1]
    ensures Get(Top(AddToTop(st, symbol, n)), symbol) == Get(Top(st), symbol) + n
    ensures forall x | x != symbol :: Get(Top(AddToTop(st, symbol, n)), x) == Get(Top(st), x)
  {
  }

  /** A `)`: the innermost group is popped and added, scaled by `n`, into its parent. */
  function CloseGroup(st: seq<Counts>, n: nat): (r: seq<Counts>)
    requires |st| >= 2
    ensures |r| == |st| - 1
  {
    st[..|st| - 2] + [Plus(st[|st| - 2], Scale(Top(st), n))]
  }

  /**
    The groups outside the parent are untouched, and each count of the
    parent grows by `n` times the closed group's count.
  */
  lemma CloseGroupCounts(st: seq<Counts>, n: nat)
    requires |st| >= 2
    ensures CloseGroup(st, n)[..|st| - 2] == st[..|st| - 2]
    ensures forall x :: Get(Top(CloseGroup(st, n)), x) == Get(st[|st| - 2], x) + Get(Top(st), x) * n
  {
  }

  /** The multiplier after an element or `)`: the following Number, or 1 when there is none. */
  function CountAfter(rest: seq<Token>): nat {
    if rest != [] && rest[0].kind.Number? then DigitsValue(rest[0].value) else 1
  }

  /** The tokens left once that multiplier is consumed. */
  function SkipCount(rest: seq<Token>): (r: seq<Token>)
    ensures |r| <= |rest|
  {
    if rest != [] && rest[0].kind.Number? then rest[1..] else rest
  }

  lemma SkipCountDepth(rest: seq<Token>, d: int)
    ensures Depth(SkipCount(rest)) == Depth(rest)
    ensures DepthOK(rest, d) ==> DepthOK(SkipCount(rest), d)
    ensures ElementSymbols(SkipCount(rest)) == ElementSymbols(rest)
  {
  }

  /** A multiplier is only looked for right after its token, so appending after a non-Number keeps it. */
  lemma SkipCountAppend(x: seq<Token>, y: seq<Token>)
    requires x != []
    ensures SkipCount(x + y) == SkipCount(x) + y
    ensures CountAfter(x + y) == CountAfter(x)
  {
    assert (x + y)[0] == x[0];
    if x[0].kind.Number? {
      assert (x + y)[1..] == x[1..] + y;
    }
  }

  lemma SkipCountEmpty(y: seq<Token>)
    requires y == [] || !y[0].kind.Number?
    ensures SkipCount(y) == y && CountAfter(y) == 1
  {
  }

  /** The tokens left after the step for `ts[0]`: a Number right after an element or `)` goes with it. */
  function NextTokens(ts: seq<Token>): (r: seq<Token>)
    requires ts != []
    ensures |r| < |ts|
  {
    if ts[0].kind.Element? || ts[0].kind.CloseParen? then SkipCount(ts[1..]) else ts[1..]
  }

  /** The stack after the step for `ts[0]`; any other Number is skipped. */
  function NextStack(ts: seq<Token>, st: seq<Counts>): (r: seq<Counts>)
    requires ts != [] && |st| >= 1 && |st| + Delta(ts[0]) >= 1
    ensures |r| == |st| + Delta(ts[0])
  {
    match ts[0].kind
    case Element => AddToTop(st, ts[0].value, CountAfter(ts[1..]))
    case OpenParen => st + [map[]]
    case CloseParen => CloseGroup(st, CountAfter(ts[1..]))
    case Number => st
  }

  lemma NextTokensFacts(ts: seq<Token>, d: int)
    requires ts != []
    ensures Depth(ts) == Delta(ts[0]) + Depth(NextTokens(ts))
    ensures DepthOK(ts, d) ==> d + Delta(ts[0]) >= 0 && DepthOK(NextTokens(ts), d + Delta(ts[0]))
    ensures ElementSymbols(ts) == (if ts[0].kind.Element? then {ts[0].value} else {}) + ElementSymbols(NextTokens(ts))
  {
    SkipCountDepth(ts[1..], d + Delta(ts[0]));
  }

  /**
    The evaluator, one token at a time. `st` is the stack of open groups with
    the innermost last.
  */
  function Run(ts: seq<Token>, st: seq<Counts>): (r: seq<Counts>)
    requires |st| >= 1 && DepthOK(ts, |st| - 1)
    ensures |r| == |st| + Depth(ts)
    decreases |ts|
  {
    if ts == [] then st
    else
      NextTokensFacts(ts, |st| - 1);
      Run(NextTokens(ts), NextStack(ts, st))
  }

  /** The counts of a balanced token list: exactly one group remains and it is the result. */
  function Eval(ts: seq<Token>): (r: Counts)
    requires Balanced(ts)
  {
    Run(ts, [map[]])[0]
  }

  // ---------------------------------------------------------------- structure of Run

  /** A suffix that does not start with a Number does not change the step for the first token. */
  lemma NextAppend(a: seq<Token>, b: seq<Token>, st: seq<Counts>)
    requires a != [] && |st| >= 1 && |st| + Delta(a[0]) >= 1
    requires b == [] || !b[0].kind.Number?
    ensures (a + b)[0] == a[0]
    ensures NextTokens(a + b) == NextTokens(a) + b
    ensures NextStack(a + b, st) == NextStack(a, st)
  {
    var rest := a[1..];
    assert (a + b)[0] == a[0] && (a + b)[1..] == rest + b;
    if rest == [] {
      assert rest + b == b;
      SkipCountEmpty(b);
    } else {
      SkipCountAppend(rest, b);
    }
  }

  /** Evaluation is sequential: a suffix that does not start with a Number continues from the prefix's stack. */
  lemma {:induction false} RunAppend(a: seq<Token>, b: seq<Token>, st: seq<Counts>)
    requires |st| >= 1 && DepthOK(a + b, |st| - 1)
    requires b == [] || !b[0].kind.Number?
    ensures DepthOK(a, |st| - 1) && |st| + Depth(a) >= 1
    ensures DepthOK(b, |Run(a, st)| - 1)
    ensures Run(a + b, st) == Run(b, Run(a, st))
    decreases |a|
  {
    DepthOKAppend(a, b, |st| - 1);
    DepthOKFinal(a, |st| - 1);
    assert DepthOK(b, |Run(a, st)| - 1) by {
      assert |Run(a, st)| - 1 == |st| - 1 + Depth(a);
    }
    if a == [] {
      assert a + b == b;
    } else {
      RunStep(a, st);
      NextAppend(a, b, st);
      var a', st' := NextTokens(a), NextStack(a, st);
      assert Run(a + b, st) == Run(a' + b, st') by {
        RunStep(a + b, st);
      }
      RunAppend(a', b, st');
    }
  }

  /** Groups below the ones a token list touches are left alone. */
  lemma {:induction false} RunLift(g: seq<Token>, pre: seq<Counts>, st: seq<Counts>)
    requires |st| >= 1 && DepthOK(g, |st| - 1)
    ensures DepthOK(g, |pre + st| - 1)
    ensures Run(g, pre + st) == pre + Run(g, st)
    decreases |g|
  {
    DepthOKMono(g, |st| - 1, |pre + st| - 1);
    if g != [] {
      NextTokensFacts(g, |st| - 1);
      NextTokensFacts(g, |pre + st| - 1);
      NextStackLift(g, pre, st);
      RunLift(NextTokens(g), pre, NextStack(g, st));
    }
  }

  lemma NextStackLift(g: seq<Token>, pre: seq<Counts>, st: seq<Counts>)
    requires g != [] && |st| >= 1 && |st| + Delta(g[0]) >= 1
    ensures NextStack(g, pre + st) == pre + NextStack(g, st)
  {
    assert (pre + st)[..|pre + st| - 1] == pre + st[..|st| - 1];
    if |st| >= 2 {
      assert (pre + st)[..|pre + st| - 2] == pre + st[..|st| - 2];
    }
  }

  /** `x` added into the outermost group. */
  function AddBottom(x: Counts, st: seq<Counts>): (r: seq<Counts>)
    requires st != []
    ensures |r| == |st|
  {
    [Plus(x, st[0])] + st[1..]
  }

  lemma AddToTopBottom(x: Counts, st: seq<Counts>, symbol: string, n: nat)
    requires st != []
    ensures AddToTop(AddBottom(x, st), symbol, n) == AddBottom(x, AddToTop(st, symbol, n))
  {
    if |st| == 1 {
      AddPlus(x, st[0], symbol, n);
      assert AddToTop(AddBottom(x, st), symbol, n) == [Add(Plus(x, st[0]), symbol, n)];
      assert AddBottom(x, AddToTop(st, symbol, n)) == [Plus(x, Add(st[0], symbol, n))];
    } else {
      var mid := st[1..|st| - 1];
      var top := Add(Top(st), symbol, n);
      assert st == [st[0]] + mid + [Top(st)];
      assert AddToTop(st, symbol, n) == [st[0]] + mid + [top];
      assert AddBottom(x, st) == [Plus(x, st[0])] + mid + [Top(st)];
      assert AddToTop(AddBottom(x, st), symbol, n) == [Plus(x, st[0])] + mid + [top];
    }
  }

  lemma CloseGroupBottom(x: Counts, st: seq<Counts>, n: nat)
    requires |st| >= 2
    ensures CloseGroup(AddBottom(x, st), n) == AddBottom(x, CloseGroup(st, n))
  {
    var top := Top(st);
    if |st| == 2 {
      PlusAssoc(x, st[0], Scale(top, n));
      assert CloseGroup(AddBottom(x, st), n) == [Plus(Plus(x, st[0]), Scale(top, n))];
      assert AddBottom(x, CloseGroup(st, n)) == [Plus(x, Plus(st[0], Scale(top, n)))];
    } else {
      CloseGroupBottomDeep(x, st, n);
    }
  }

  lemma CloseGroupBottomDeep(x: Counts, st: seq<Counts>, n: nat)
    requires |st| >= 3
    ensures CloseGroup(AddBottom(x, st), n) == AddBottom(x, CloseGroup(st, n))
  {
    var top := Top(st);
    var mid := st[1..|st| - 2];
    var parent := st[|st| - 2];
    var merged := Plus(parent, Scale(top, n));
    assert st == [st[0]] + mid + [parent, top];
    assert CloseGroup(st, n) == [st[0]] + mid + [merged];
    assert AddBottom(x, st) == [Plus(x, st[0])] + mid + [parent, top];
    assert CloseGroup(AddBottom(x, st), n) == [Plus(x, st[0])] + mid + [merged];
  }

  lemma NextStackBottom(g: seq<Token>, x: Counts, st: seq<Counts>)
    requires g != [] && |st| >= 1 && |st| + Delta(g[0]) >= 1
    ensures NextStack(g, AddBottom(x, st)) == AddBottom(x, NextStack(g, st))
  {
    var n := CountAfter(g[1..]);
    match g[0].kind
    case Element =>
      AddToTopBottom(x, st, g[0].value, n);
    case OpenParen =>
      assert AddBottom(x, st) + [map[]] == AddBottom(x, st + [map[]]);
    case CloseParen =>
      CloseGroupBottom(x, st, n);
    case Number =>
  }

  /** Counts already in the outermost group are carried through unchanged: evaluation is additive. */
  lemma {:induction false} RunBottom(g: seq<Token>, x: Counts, st: seq<Counts>)
    requires |st| >= 1 && DepthOK(g, |st| - 1) && |st| + Depth(g) >= 1
    ensures Run(g, AddBottom(x, st)) == AddBottom(x, Run(g, st))
    decreases |g|
  {
    if g != [] {
      NextTokensFacts(g, |st| - 1);
      NextStackBottom(g, x, st);
      DepthOKFinal(NextTokens(g), |st| - 1 + Delta(g[0]));
      RunBottom(NextTokens(g), x, NextStack(g, st));
    }
  }

  // ---------------------------------------------------------------- what Eval means

  /** Writing two balanced formulas one after the other adds their counts. */
  lemma EvalConcat(a: seq<Token>, b: seq<Token>)
    requires Balanced(a) && Balanced(b)
    requires b == [] || !b[0].kind.Number?
    ensures Balanced(a + b)
    ensures Eval(a + b) == Plus(Eval(a), Eval(b))
  {
    DepthOKAppend(a, b, 0);
    DepthAppend(a, b);
    RunAppend(a, b, [map[]]);
    var ea := Eval(a);
    PlusEmpty(ea);
    assert Run(a, [map[]]) == [ea] == AddBottom(ea, [map[]]);
    RunBottom(b, ea, [map[]]);
  }

  /** The depth facts behind `(g)n`: the group and its closing parenthesis bring depth one back to zero. */
  lemma GroupDepth(g: seq<Token>, after: seq<Token>)
    requires Balanced(g)
    requires after == [] || (|after| == 1 && after[0].kind.Number?)
    ensures DepthOK([CloseToken] + after, 1) && Depth([CloseToken] + after) == -1
    ensures DepthOK(g + ([CloseToken] + after), 1) && Depth(g + ([CloseToken] + after)) == -1
    ensures Balanced([OpenToken] + g + [CloseToken] + after)
  {
    var ts := [OpenToken] + g + [CloseToken] + after;
    var tail := [CloseToken] + after;
    assert tail[0] == CloseToken && tail[1..] == after;
    assert Delta(CloseToken) == -1;
    assert DepthOK(after, 0) && Depth(after) == 0 by {
      if after != [] {
        assert after[1..] == [];
        assert Depth(after[1..]) == 0 && DepthOK(after[1..], 0);
      }
    }
    assert DepthOK(tail, 1) && Depth(tail) == -1;
    DepthOKAppend(g, tail, 1);
    DepthOKMono(g, 0, 1);
    DepthAppend(g, tail);
    assert ts[0] == OpenToken && ts[1..] == g + tail;
  }

  /** A parenthesised group followed by an optional Number counts its contents times that number (1 when absent). */
  lemma EvalGroup(g: seq<Token>, after: seq<Token>)
    requires Balanced(g)
    requires after == [] || (|after| == 1 && after[0].kind.Number?)
    ensures Balanced([OpenToken] + g + [CloseToken] + after)
    ensures Eval([OpenToken] + g + [CloseToken] + after) == Scale(Eval(g), CountAfter(after))
  {
    var ts := [OpenToken] + g + [CloseToken] + after;
    var tail := [CloseToken] + after;
    var e0: Counts := map[];
    GroupDepth(g, after);
    assert tail[0] == CloseToken && tail[1..] == after;
    assert ts[0] == OpenToken && ts[1..] == g + tail;
    RunStep(ts, [e0]);
    assert NextStack(ts, [e0]) == [e0, e0];
    RunAppend(g, tail, [e0, e0]);
    GroupInside(g);
    CloseTail(Eval(g), after);
  }

  /** Inside a group the outer group is untouched and the inner one ends as the group's counts. */
  lemma GroupInside(g: seq<Token>)
    requires Balanced(g)
    ensures DepthOK(g, 1)
    ensures Run(g, [map[], map[]]) == [map[], Eval(g)]
  {
    var e0: Counts := map[];
    RunLift(g, [e0], [e0]);
    assert [e0] + [e0] == [e0, e0];
  }

  /** `)` with its optional Number closes the group `e` into an empty parent. */
  lemma CloseTail(e: Counts, after: seq<Token>)
    requires after == [] || (|after| == 1 && after[0].kind.Number?)
    requires DepthOK([CloseToken] + after, 1)
    ensures Run([CloseToken] + after, [map[], e]) == [Scale(e, CountAfter(after))]
  {
    var e0: Counts := map[];
    var tail := [CloseToken] + after;
    assert tail[0] == CloseToken && tail[1..] == after;
    RunStep(tail, [e0, e]);
    assert SkipCount(after) == [] by {
      if after != [] {
        assert after[1..] == [];
      }
    }
    assert NextTokens(tail) == SkipCount(after);
    var n := CountAfter(after);
    PlusEmpty(Scale(e, n));
    assert NextStack(tail, [e0, e]) == CloseGroup([e0, e], n);
    assert CloseGroup([e0, e], n) == [Plus(e0, Scale(e, n))];
  }

  /** An element with an optional Number counts that many atoms of it (1 when absent). */
  lemma EvalElement(symbol: string, after: seq<Token>)
    requires after == [] || (|after| == 1 && after[0].kind.Number?)
    ensures Balanced([ElementToken(symbol)] + after)
    ensures Eval([ElementToken(symbol)] + after) == map[symbol := CountAfter(after)]
  {
    var ts := [ElementToken(symbol)] + after;
    var e0: Counts := map[];
    assert ts[0] == ElementToken(symbol) && ts[1..] == after;
    assert DepthOK(after, 0) && Depth(after) == 0 by {
      if after != [] {
        assert after[1..] == [];
        assert Depth(after[1..]) == 0 && DepthOK(after[1..], 0);
      }
    }
    assert Balanced(ts);
    RunStep(ts, [e0]);
    assert NextTokens(ts) == [];
    var n := CountAfter(after);
    assert NextStack(ts, [e0]) == [Add(e0, symbol, n)];
    CountsExt(Add(e0, symbol, n), map[symbol := n]);
  }

  /** A Number that follows neither an element nor `)` is skipped. */
  lemma EvalStrayNumber(digits: string, ts: seq<Token>)
    requires Balanced(ts)
    ensures Balanced([Token(Number, digits)] + ts)
    ensures Eval([Token(Number, digits)] + ts) == Eval(ts)
  {
    assert ([Token(Number, digits)] + ts)[1..] == ts;
  }

  /** A group multiplier distributes over the parts of the group. */
  lemma EvalGroupParts(a: seq<Token>, b: seq<Token>, after: seq<Token>)
    requires Balanced(a) && Balanced(b)
    requires b == [] || !b[0].kind.Number?
    requires after == [] || (|after| == 1 && after[0].kind.Number?)
    ensures Balanced([OpenToken] + (a + b) + [CloseToken] + after)
    ensures Balanced([OpenToken] + a + [CloseToken] + after)
    ensures Balanced([OpenToken] + b + [CloseToken] + after)
    ensures Eval([OpenToken] + (a + b) + [CloseToken] + after)
         == Plus(Eval([OpenToken] + a + [CloseToken] + after), Eval([OpenToken] + b + [CloseToken] + after))
  {
    EvalConcat(a, b);
    EvalGroup(a + b, after);
    EvalGroup(a, after);
    EvalGroup(b, after);
    ScalePlus(Eval(a), Eval(b), CountAfter(after));
  }

  /** `(AB)n` and `AnBn` give the same counts. */
  lemma EvalPairGroup(x: string, y: string, digits: string)
    ensures Balanced([OpenToken, ElementToken(x), ElementToken(y), CloseToken, Token(Number, digits)])
    ensures Balanced([ElementToken(x), Token(Number, digits), ElementToken(y), Token(Number, digits)])
    ensures Eval([OpenToken, ElementToken(x), ElementToken(y), CloseToken, Token(Number, digits)])
         == Eval([ElementToken(x), Token(Number, digits), ElementToken(y), Token(Number, digits)])
  {
    var a, b, num := [ElementToken(x)], [ElementToken(y)], [Token(Number, digits)];
    var n := DigitsValue(digits);
    var grouped := [OpenToken, ElementToken(x), ElementToken(y), CloseToken, Token(Number, digits)];
    var spread := [ElementToken(x), Token(Number, digits), ElementToken(y), Token(Number, digits)];
    assert grouped == [OpenToken] + (a + b) + [CloseToken] + num;
    assert spread == (a + num) + (b + num);
    EvalElement(x, []);
    EvalElement(y, []);
    EvalElement(x, num);
    EvalElement(y, num);
    assert a == a + [] && b == b + [];
    assert Eval([OpenToken] + a + [CloseToken] + num) == Eval(a + num) by {
      EvalGroup(a, num);
      CountsExt(Scale(map[x := 1], n), map[x := n]);
    }
    assert Eval([OpenToken] + b + [CloseToken] + num) == Eval(b + num) by {
      EvalGroup(b, num);
      CountsExt(Scale(map[y := 1], n), map[y := n]);
    }
    EvalGroupParts(a, b, num);
    EvalConcat(a + num, b + num);
  }

  // ---------------------------------------------------------------- which symbols are counted

  /** The symbols present in any group of the stack. */
  function StackKeys(st: seq<Counts>): set<string>
    decreases |st|
  {
    if st == [] then {} else st[0].Keys + StackKeys(st[1..])
  }

  lemma {:induction false} StackKeysAppend(a: seq<Counts>, b: seq<Counts>)
    ensures StackKeys(a + b) == StackKeys(a) + StackKeys(b)
    decreases |a|
  {
    if a == [] {
      assert a + b == b;
    } else {
      assert (a + b)[1..] == a[1..] + b;
      StackKeysAppend(a[1..], b);
    }
  }

  lemma StackKeysLast(st: seq<Counts>)
    requires st != []
    ensures StackKeys(st) == StackKeys(st[..|st| - 1]) + Top(st).Keys
  {
    assert st == st[..|st| - 1] + [Top(st)];
    StackKeysAppend(st[..|st| - 1], [Top(st)]);
  }

  lemma NextStackKeys(ts: seq<Token>, st: seq<Counts>)
    requires ts != [] && |st| >= 1 && |st| + Delta(ts[0]) >= 1
    ensures StackKeys(NextStack(ts, st)) == StackKeys(st) + (if ts[0].kind.Element? then {ts[0].value} else {})
  {
    var t, n := ts[0], CountAfter(ts[1..]);
    match t.kind
    case Element =>
      AddToTopKeys(st, t.value, n);
    case OpenParen =>
      StackKeysAppend(st, [map[]]);
      StackKeysOne(map[]);
    case CloseParen =>
      CloseGroupKeys(st, n);
    case Number =>
  }

  lemma AddToTopKeys(st: seq<Counts>, symbol: string, n: nat)
    requires st != []
    ensures StackKeys(AddToTop(st, symbol, n)) == StackKeys(st) + {symbol}
  {
    var pre := st[..|st| - 1];
    calc {
      StackKeys(AddToTop(st, symbol, n));
      { StackKeysAppend(pre, [Add(Top(st), symbol, n)]); StackKeysOne(Add(Top(st), symbol, n)); }
      StackKeys(pre) + (Top(st).Keys + {symbol});
      { StackKeysAppend(pre, [Top(st)]); StackKeysOne(Top(st)); assert st == pre + [Top(st)]; }
      StackKeys(st) + {symbol};
    }
  }

  /** Closing a group moves its symbols into the parent. */
  lemma CloseGroupKeys(st: seq<Counts>, n: nat)
    requires |st| >= 2
    ensures StackKeys(CloseGroup(st, n)) == StackKeys(st)
  {
    var pre, parent, top := st[..|st| - 2], st[|st| - 2], Top(st);
    var merged := Plus(parent, Scale(top, n));
    calc {
      StackKeys(CloseGroup(st, n));
      { assert CloseGroup(st, n) == pre + [merged]; StackKeysAppend(pre, [merged]); }
      StackKeys(pre) + StackKeys([merged]);
      { StackKeysOne(merged); }
      StackKeys(pre) + (parent.Keys + top.Keys);
      { StackKeysOne(top); assert [parent, top][1..] == [top]; }
      StackKeys(pre) + StackKeys([parent, top]);
      { assert st == pre + [parent, top]; StackKeysAppend(pre, [parent, top]); }
      StackKeys(st);
    }
  }

  lemma StackKeysOne(m: Counts)
    ensures StackKeys([m]) == m.Keys
  {
    assert [m][1..] == [];
  }

  /** Evaluation adds to the stack exactly the symbols written in the tokens. */
  lemma {:induction false} RunKeys(ts: seq<Token>, st: seq<Counts>)
    requires |st| >= 1 && DepthOK(ts, |st| - 1)
    ensures StackKeys(Run(ts, st)) == StackKeys(st) + ElementSymbols(ts)
    decreases |ts|
  {
    if ts != [] {
      NextTokensFacts(ts, |st| - 1);
      NextStackKeys(ts, st);
      RunKeys(NextTokens(ts), NextStack(ts, st));
    }
  }

  /** The final counts have a key for every symbol written, and no other; a zero count keeps its key. */
  lemma EvalKeys(ts: seq<Token>)
    requires Balanced(ts)
    ensures Eval(ts).Keys == ElementSymbols(ts)
  {
    RunKeys(ts, [map[]]);
    var r := Run(ts, [map[]]);
    assert r == [r[0]];
    assert StackKeys([map[]]) == {};
  }

  // ---------------------------------------------------------------- the loops of the source

  /**
    Part way through merging: the keys `done` are added to the parent with
    their scaled counts; `pending` are the keys still to come.
  */
  ghost predicate Merging(parent: Counts, scaled: Counts, pending: set<string>, done: Counts, merged: Counts) {
    && pending <= scaled.Keys
    && done.Keys == scaled.Keys - pending
    && (forall j | j in done :: done[j] == scaled[j])
    && merged == Plus(parent, done)
  }

  lemma MergeStep(parent: Counts, scaled: Counts, pending: set<string>, done: Counts, merged: Counts, k: string)
    requires Merging(parent, scaled, pending, done, merged) && k in pending
    ensures Merging(parent, scaled, pending - {k}, Add(done, k, scaled[k]), Add(merged, k, scaled[k]))
  {
    AddPlus(parent, done, k, scaled[k]);
  }

  /** The `foreach` over a popped group: each count times `multiplier` is added into the parent. */
  method MergeGroup(parent: Counts, group: Counts, multiplier: nat) returns (merged: Counts)
    ensures merged == Plus(parent, Scale(group, multiplier))
  {
    merged := parent;
    var pending := group.Keys;
    ghost var scaled := Scale(group, multiplier);
    ghost var done: Counts := map[];
    PlusEmpty(parent);
    while pending != {}
      invariant Merging(parent, scaled, pending, done, merged)
      decreases |pending|
    {
      var k :| k in pending;
      var w := group[k] * multiplier;
      assert w == scaled[k] by {
        assert Get(scaled, k) == Get(group, k) * multiplier;
      }
      MergeStep(parent, scaled, pending, done, merged, k);
      ghost var before := merged;
      if k !in merged {
        merged := merged[k := 0];
      }
      IncrementIsAdd(before, merged, k, w);
      merged := merged[k := merged[k] + w];
      done := Add(done, k, w);
      pending := pending - {k};
    }
    assert done == scaled;
  }

  /** Evaluating `rest` from `stack` is well defined and ends in `final`. */
  ghost predicate Progress(rest: seq<Token>, stack: seq<Counts>, final: seq<Counts>) {
    |stack| >= 1 && DepthOK(rest, |stack| - 1) && Run(rest, stack) == final
  }

  lemma ProgressStep(rest: seq<Token>, stack: seq<Counts>, final: seq<Counts>)
    requires rest != [] && Progress(rest, stack, final)
    ensures |stack| + Delta(rest[0]) >= 1
    ensures Progress(NextTokens(rest), NextStack(rest, stack), final)
  {
    RunStep(rest, stack);
  }

  lemma RunStep(ts: seq<Token>, st: seq<Counts>)
    requires ts != [] && |st| >= 1 && DepthOK(ts, |st| - 1)
    ensures |st| + Delta(ts[0]) >= 1 && DepthOK(NextTokens(ts), |st| - 1 + Delta(ts[0]))
    ensures Run(ts, st) == Run(NextTokens(ts), NextStack(ts, st))
  {
    NextTokensFacts(ts, |st| - 1);
  }

  /** The source's two-step dictionary update (create the key with 0, then add) is `Add`. */
  lemma IncrementIsAdd(m: Counts, m0: Counts, symbol: string, n: nat)
    requires m0 == m || (symbol !in m && m0 == m[symbol := 0])
    requires symbol in m0
    ensures m0[symbol := m0[symbol] + n] == Add(m, symbol, n)
  {
    if m0 != m {
      assert m0[symbol := m0[symbol] + n] == m[symbol := n];
    }
  }

  /**
    The source's look-ahead (`i + 1 < tokens.Count && tokens[i + 1].Type == Number`,
    then `i++`) reads `CountAfter` and leaves `SkipCount` to be scanned.
  */
  lemma LookAhead(ts: seq<Token>, i0: nat, i: nat, n: nat)
    requires i0 < |ts|
    requires if i0 + 1 < |ts| && ts[i0 + 1].kind.Number?
             then i == i0 + 1 && n == DigitsValue(ts[i0 + 1].value)
             else i == i0 && n == 1
    ensures n == CountAfter(ts[i0 + 1..]) && ts[i + 1..] == SkipCount(ts[i0 + 1..])
  {
    if i0 + 1 < |ts| && ts[i0 + 1].kind.Number? {
      assert ts[i0 + 1..][1..] == ts[i + 1..];
    }
  }

  /** The look-ahead after an element or `)` at `i`: the multiplier and the position of the last token it used. */
  method ReadMultiplier(ts: seq<Token>, i: nat) returns (n: nat, last: nat)
    requires i < |ts|
    ensures i <= last < |ts|
    ensures n == CountAfter(ts[i + 1..]) && ts[last + 1..] == SkipCount(ts[i + 1..])
  {
    n, last := 1, i;
    if i + 1 < |ts| && ts[i + 1].kind.Number? {
      n := DigitsValue(ts[i + 1].value);
      last := i + 1;
    }
    LookAhead(ts, i, last, n);
  }

  /** An element's count added into the innermost group, creating the key with 0 first as the source does. */
  method AddToInnermost(stack: seq<Counts>, symbol: string, count: nat) returns (r: seq<Counts>)
    requires stack != []
    ensures r == AddToTop(stack, symbol, count)
  {
    var top := stack[|stack| - 1];
    if symbol !in top {
      top := top[symbol := 0];
    }
    IncrementIsAdd(Top(stack), top, symbol, count);
    top := top[symbol := top[symbol] + count];
    r := stack[..|stack| - 1] + [top];
  }

  /** A `)`: pop the innermost group and merge it, times the multiplier, into the new top. */
  method PopGroup(stack: seq<Counts>, multiplier: nat) returns (r: seq<Counts>)
    requires |stack| >= 2
    ensures r == CloseGroup(stack, multiplier)
  {
    var group := stack[|stack| - 1];
    var rest := stack[..|stack| - 1];
    var parent := MergeGroup(rest[|rest| - 1], group, multiplier);
    assert rest[..|rest| - 1] == stack[..|stack| - 2];
    r := rest[..|rest| - 1] + [parent];
  }

  /**
    One pass of the stack loop's body at `i`: the stack after the token (and
    the Number it consumes) and the index of the next token to read.
  */
  method StepAt(ts: seq<Token>, i: nat, stack: seq<Counts>) returns (after: seq<Counts>, next: nat)
    requires i < |ts| && |stack| >= 1 && |stack| + Delta(ts[i]) >= 1
    ensures i < next <= |ts|
    ensures ts[next..] == NextTokens(ts[i..])
    ensures after == NextStack(ts[i..], stack)
  {
    ghost var here := ts[i..];
    assert here[0] == ts[i] && here[1..] == ts[i + 1..];
    var token := ts[i];
    after, next := stack, i;
    if token.kind.Element? {
      var count, last := ReadMultiplier(ts, i);
      after := AddToInnermost(stack, token.value, count);
      next := last;
    } else if token.kind.OpenParen? {
      after := stack + [map[]];
    } else if token.kind.CloseParen? {
      var multiplier, last := ReadMultiplier(ts, i);
      after := PopGroup(stack, multiplier);
      next := last;
    }
    // Numbers are consumed with the element or group before them; a stray one is skipped.
    next := next + 1;
  }

  /**
    The stack loop of the source, for tokens that passed validation: the
    result is the one group left on the stack.
  */
  method CountElements(ts: seq<Token>) returns (counts: Counts)
    requires Balanced(ts)
    ensures counts == Eval(ts)
  {
    var stack: seq<Counts> := [map[]];
    var i := 0;
    ghost var final := Run(ts, [map[]]);
    while i < |ts|
      invariant 0 <= i <= |ts|
      invariant Progress(ts[i..], stack, final)
      decreases |ts| - i
    {
      assert ts[i..][0] == ts[i];
      ProgressStep(ts[i..], stack, final);
      stack, i := StepAt(ts, i, stack);
    }
    assert ts[i..] == [];
    counts := stack[|stack| - 1];
  }
}
