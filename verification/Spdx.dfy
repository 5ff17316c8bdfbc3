/** The license-expression evaluator: three mutually recursive readers over one shared position. */
module Spdx {
  import opened Results

  datatype Token = Open | Close | And | Or | With | Word(name: string)

  const ALLOWED: set<string> :=
    {"MIT", "NCSA", "PSF-2.0", "Apache-2.0", "BSD-2-Clause", "BSD-3-Clause", "ISC", "Zlib", "Unicode-3.0", "Unlicense"}
  const ALLOWED_EXCEPTIONS: set<string> := {"LLVM-exception"}
  const ALLOWED_PAIRS: set<(string, string)> := {("Apache-2.0", "LLVM-exception")}

  predicate LicenseAllowed(t: Token) {
    t.Word? && t.name in ALLOWED
  }

  predicate ExceptionAllowed(license: Token, exception: Token) {
    license.Word? && exception.Word? && exception.name in ALLOWED_EXCEPTIONS && (license.name, exception.name) in ALLOWED_PAIRS
  }

  // ----- what the readers compute -----

  /** A value and the position behind it. */
  type Reading = Result<(bool, nat)>

  predicate Advances(r: Reading, p: nat, tokens: seq<Token>) {
    r.Ok? ==> p < r.value.1 <= |tokens|
  }

  function Factor(tokens: seq<Token>, p: nat): (r: Reading)
    ensures Advances(r, p, tokens)
    decreases |tokens| - p, 0
  {
    if p >= |tokens| then Err(Invalid)
    else if tokens[p].Open? then
      var inner :- Disjunction(tokens, p + 1);
      if inner.1 >= |tokens| || !tokens[inner.1].Close? then Err(Invalid) else Ok((inner.0, inner.1 + 1))
    else if p + 1 < |tokens| && tokens[p + 1].With? then
      if p + 2 >= |tokens| then Err(Invalid)
      else Ok((LicenseAllowed(tokens[p]) && ExceptionAllowed(tokens[p], tokens[p + 2]), p + 3))
    else Ok((LicenseAllowed(tokens[p]), p + 1))
  }

  function Conjunction(tokens: seq<Token>, p: nat): (r: Reading)
    ensures Advances(r, p, tokens)
    decreases |tokens| - p, 1
  {
    var first :- Factor(tokens, p);
    Conjuncts(tokens, first.1, first.0)
  }

  function Conjuncts(tokens: seq<Token>, p: nat, value: bool): (r: Reading)
    requires p <= |tokens|
    ensures r.Ok? ==> p <= r.value.1 <= |tokens|
    decreases |tokens| - p, 1
  {
    if p < |tokens| && tokens[p].And? then
      var next :- Factor(tokens, p + 1);
      Conjuncts(tokens, next.1, next.0 && value)
    else Ok((value, p))
  }

  function Disjunction(tokens: seq<Token>, p: nat): (r: Reading)
    ensures Advances(r, p, tokens)
    decreases |tokens| - p, 2
  {
    var first :- Conjunction(tokens, p);
    Disjuncts(tokens, first.1, first.0)
  }

  function Disjuncts(tokens: seq<Token>, p: nat, value: bool): (r: Reading)
    requires p <= |tokens|
    ensures r.Ok? ==> p <= r.value.1 <= |tokens|
    decreases |tokens| - p, 2
  {
    if p < |tokens| && tokens[p].Or? then
      var next :- Conjunction(tokens, p + 1);
      Disjuncts(tokens, next.1, next.0 || value)
    else Ok((value, p))
  }

  function Evaluate(tokens: seq<Token>): Result<bool> {
    if tokens == [] then Err(Invalid)
    else
      var whole :- Disjunction(tokens, 0);
      if whole.1 != |tokens| then Err(Invalid) else Ok(whole.0)
  }

  // ----- the evaluator itself -----

  class PermissiveExpression {
    const tokens: seq<Token>
    var position: nat

    constructor (stream: seq<Token>)
      ensures tokens == stream && position == 0
    {
      tokens, position := stream, 0;
    }

    /** After success the shared position stands behind what was read. */
    predicate Reads(spec: Reading, r: Result<bool>)
      reads this
    {
      match spec
      case Ok((value, p)) => r == Ok(value) && position == p
      case Err(e) => r == Err(e)
    }

    method ReadFactor() returns (r: Result<bool>)
      modifies this
      ensures Reads(Factor(tokens, old(position)), r)
      decreases |tokens| - position, 0
    {
      if position >= |tokens| {
        return Err(Invalid);
      }
      if tokens[position].Open? {
        position := position + 1;
        var value :- ReadDisjunction();
        if position >= |tokens| || !tokens[position].Close? {
          return Err(Invalid);
        }
        position := position + 1;
        return Ok(value);
      }
      var license := tokens[position];
      position := position + 1;
      var value := LicenseAllowed(license);
      if position < |tokens| && tokens[position].With? {
        position := position + 1;
        if position >= |tokens| {
          return Err(Invalid);
        }
        value := value && ExceptionAllowed(license, tokens[position]);
        position := position + 1;
      }
      return Ok(value);
    }

    method ReadConjunction() returns (r: Result<bool>)
      modifies this
      ensures Reads(Conjunction(tokens, old(position)), r)
      decreases |tokens| - position, 1
    {
      ghost var start := position;
      var value :- ReadFactor();
      while position < |tokens| && tokens[position].And?
        invariant start < position <= |tokens|
        invariant Conjunction(tokens, start) == Conjuncts(tokens, position, value)
        decreases |tokens| - position
      {
        position := position + 1;
        var next :- ReadFactor();
        value := next && value;
      }
      return Ok(value);
    }

    method ReadDisjunction() returns (r: Result<bool>)
      modifies this
      ensures Reads(Disjunction(tokens, old(position)), r)
      decreases |tokens| - position, 2
    {
      ghost var start := position;
      var value :- ReadConjunction();
      while position < |tokens| && tokens[position].Or?
        invariant start < position <= |tokens|
        invariant Disjunction(tokens, start) == Disjuncts(tokens, position, value)
        decreases |tokens| - position
      {
        position := position + 1;
        var next :- ReadConjunction();
        value := next || value;
      }
      return Ok(value);
    }
  }

  /** `permissive_expression`, from its tokens on. */
  method IsPermissive(stream: seq<Token>) returns (r: Result<bool>)
    ensures r == Evaluate(stream)
  {
    if stream == [] {
      return Err(Invalid);
    }
    var reader := new PermissiveExpression(stream);
    var value :- reader.ReadDisjunction();
    if reader.position != |stream| {
      return Err(Invalid);
    }
    return Ok(value);
  }

  // ----- expressions and their printings -----

  /** `Parens` is printed; it stands for any pair of parentheses, needed or not. */
  datatype Expr =
    | License(name: string)
    | Exception(name: string, exception: string)
    | Both(left: Expr, right: Expr)
    | Either(left: Expr, right: Expr)
    | Parens(inner: Expr)

  /** What an expression allows. */
  predicate Meaning(e: Expr) {
    match e
    case License(name) => name in ALLOWED
    case Exception(name, exception) => name in ALLOWED && exception in ALLOWED_EXCEPTIONS && (name, exception) in ALLOWED_PAIRS
    case Both(left, right) => Meaning(left) && Meaning(right)
    case Either(left, right) => Meaning(left) || Meaning(right)
    case Parens(inner) => Meaning(inner)
  }

  /** AND binds tighter than OR, so no operand of AND may be an OR outside parentheses; associativity is free. */
  predicate Printable(e: Expr) {
    match e
    case License(_) => true
    case Exception(_, _) => true
    case Both(left, right) => Printable(left) && Printable(right) && !left.Either? && !right.Either?
    case Either(left, right) => Printable(left) && Printable(right)
    case Parens(inner) => Printable(inner)
  }

  function Print(e: Expr): (ts: seq<Token>)
    ensures |ts| > 0
  {
    match e
    case License(name) => [Word(name)]
    case Exception(name, exception) => [Word(name), With, Word(exception)]
    case Both(left, right) => Print(left) + [And] + Print(right)
    case Either(left, right) => Print(left) + [Or] + Print(right)
    case Parens(inner) => [Open] + Print(inner) + [Close]
  }

  /** The same expression with parentheses only where AND meets OR. */
  function Minimal(e: Expr): (m: Expr)
    ensures Printable(m) && Meaning(m) == Meaning(e)
  {
    match e
    case License(_) => e
    case Exception(_, _) => e
    case Both(left, right) => Both(Grouped(Minimal(left)), Grouped(Minimal(right)))
    case Either(left, right) => Either(Minimal(left), Minimal(right))
    case Parens(inner) => Minimal(inner)
  }

  function Grouped(e: Expr): Expr {
    if e.Either? then Parens(e) else e
  }

  /** `e` is printed in `tokens` from `p` on, and what follows does not belong to it. */
  predicate PrintedAt(e: Expr, tokens: seq<Token>, p: nat) {
    p + |Print(e)| <= |tokens| && tokens[p..p + |Print(e)|] == Print(e)
  }

  function End(e: Expr, p: nat): nat {
    p + |Print(e)|
  }

  predicate NoWith(tokens: seq<Token>, p: nat) {
    p < |tokens| ==> !tokens[p].With?
  }

  predicate NoAnd(tokens: seq<Token>, p: nat) {
    NoWith(tokens, p) && (p < |tokens| ==> !tokens[p].And?)
  }

  predicate NoOr(tokens: seq<Token>, p: nat) {
    NoAnd(tokens, p) && (p < |tokens| ==> !tokens[p].Or?)
  }

  /** A part of a printed whole is printed too. */
  lemma Slice(whole: seq<Token>, tokens: seq<Token>, p: nat, a: nat, b: nat)
    requires a <= b <= |whole| && p + |whole| <= |tokens| && tokens[p..p + |whole|] == whole
    ensures tokens[p + a..p + b] == whole[a..b]
    ensures forall k :: 0 <= k < |whole| ==> tokens[p + k] == whole[k]
  {
    var printed := tokens[p..p + |whole|];
    assert forall k :: 0 <= k < |whole| ==> tokens[p + k] == printed[k];
    assert printed[a..b] == tokens[p + a..p + b];
  }

  lemma PartsOf(a: seq<Token>, op: Token, b: seq<Token>)
    ensures var whole := a + [op] + b;
            whole[0..|a|] == a && whole[|a|] == op && whole[|a| + 1..|whole|] == b
  {
  }

  lemma PiecesPrinted(a: seq<Token>, op: Token, b: seq<Token>, whole: seq<Token>, tokens: seq<Token>, p: nat)
    requires whole == a + [op] + b && p + |whole| <= |tokens| && tokens[p..p + |whole|] == whole
    ensures tokens[p..p + |a|] == a && tokens[p + |a|] == op && tokens[p + |a| + 1..p + |whole|] == b
  {
    Slice(whole, tokens, p, 0, |a|);
    Slice(whole, tokens, p, |a| + 1, |whole|);
    PartsOf(a, op, b);
    assert tokens[p + |a|] == whole[|a|];
  }

  function Operator(e: Expr): Token {
    if e.Both? then And else Or
  }

  lemma WholeIsParts(e: Expr, p: nat)
    requires e.Both? || e.Either?
    ensures Print(e) == Print(e.left) + [Operator(e)] + Print(e.right)
    ensures End(e, p) == End(e.right, End(e.left, p) + 1)
  {
  }

  lemma PartsPrinted(e: Expr, tokens: seq<Token>, p: nat)
    requires (e.Both? || e.Either?) && PrintedAt(e, tokens, p)
    ensures PrintedAt(e.left, tokens, p) && PrintedAt(e.right, tokens, End(e.left, p) + 1)
    ensures End(e.left, p) < |tokens| && tokens[End(e.left, p)] == Operator(e)
    ensures End(e, p) == End(e.right, End(e.left, p) + 1)
  {
    WholeIsParts(e, p);
    hide Print;
    PiecesPrinted(Print(e.left), Operator(e), Print(e.right), Print(e), tokens, p);
  }

  lemma InnerPrinted(inner: Expr, tokens: seq<Token>, p: nat)
    requires PrintedAt(Parens(inner), tokens, p)
    ensures tokens[p] == Open && PrintedAt(inner, tokens, p + 1)
    ensures End(inner, p + 1) < |tokens| && tokens[End(inner, p + 1)] == Close
  {
    var whole, n := Print(Parens(inner)), |Print(inner)|;
    assert whole == [Open] + Print(inner) + [Close];
    hide Print;
    Slice(whole, tokens, p, 1, 1 + n);
    assert whole[0] == Open && whole[1..1 + n] == Print(inner) && whole[1 + n] == Close;
    assert tokens[p + 0] == whole[0] && tokens[p + (1 + n)] == whole[1 + n];
  }

  lemma {:induction false} FactorReads(e: Expr, tokens: seq<Token>, p: nat)
    requires Printable(e) && PrintedAt(e, tokens, p) && !e.Both? && !e.Either? && NoWith(tokens, End(e, p))
    ensures Factor(tokens, p) == Ok((Meaning(e), End(e, p)))
    decreases e, 0
  {
    if e.Parens? {
      hide Disjunction;
      InnerPrinted(e.inner, tokens, p);
      DisjunctionReads(e.inner, tokens, p + 1);
    } else {
      LeafPrinted(e, tokens, p);
      hide Disjunction;
    }
  }

  lemma LeafPrinted(e: Expr, tokens: seq<Token>, p: nat)
    requires PrintedAt(e, tokens, p) && (e.License? || e.Exception?)
    ensures tokens[p] == Word(e.name)
    ensures e.Exception? ==> p + 2 < |tokens| && tokens[p + 1] == With && tokens[p + 2] == Word(e.exception)
  {
    Slice(Print(e), tokens, p, 0, 0);
    assert tokens[p + 0] == Print(e)[0];
    if e.Exception? {
      assert tokens[p + 1] == Print(e)[1] && tokens[p + 2] == Print(e)[2];
    }
  }

  /** A conjunction-level expression read as further conjuncts of `value`. */
  lemma {:induction false} ConjunctsRead(e: Expr, tokens: seq<Token>, p: nat, value: bool)
    requires Printable(e) && PrintedAt(e, tokens, p) && !e.Either? && NoWith(tokens, End(e, p))
    requires 0 < p && tokens[p - 1].And?
    ensures Conjuncts(tokens, p - 1, value) == Conjuncts(tokens, End(e, p), Meaning(e) && value)
    decreases e, 1
  {
    if e.Both? {
      hide Factor, Disjunction, Print, Conjuncts;
      PartsPrinted(e, tokens, p);
      ConjunctsRead(e.left, tokens, p, value);
      ConjunctsRead(e.right, tokens, End(e.left, p) + 1, Meaning(e.left) && value);
      assert (Meaning(e.right) && (Meaning(e.left) && value)) <==> (Meaning(e) && value);
    } else {
      FactorReads(e, tokens, p);
    }
  }

  /** And read from its start. */
  lemma {:induction false} ConjunctionReads(e: Expr, tokens: seq<Token>, p: nat)
    requires Printable(e) && PrintedAt(e, tokens, p) && !e.Either? && NoWith(tokens, End(e, p))
    ensures Conjunction(tokens, p) == Conjuncts(tokens, End(e, p), Meaning(e))
    decreases e, 2
  {
    if e.Both? {
      hide Factor, Disjunction, Print, Conjuncts;
      PartsPrinted(e, tokens, p);
      ConjunctionReads(e.left, tokens, p);
      ConjunctsRead(e.right, tokens, End(e.left, p) + 1, Meaning(e.left));
      assert (Meaning(e.right) && Meaning(e.left)) <==> Meaning(e);
    } else {
      FactorReads(e, tokens, p);
    }
  }

  /** Any printable expression read as further disjuncts of `value`. */
  lemma {:induction false} DisjunctsRead(e: Expr, tokens: seq<Token>, p: nat, value: bool)
    requires Printable(e) && PrintedAt(e, tokens, p) && NoAnd(tokens, End(e, p))
    requires 0 < p && tokens[p - 1].Or?
    ensures Disjuncts(tokens, p - 1, value) == Disjuncts(tokens, End(e, p), Meaning(e) || value)
    decreases e, 3
  {
    if e.Either? {
      hide Conjunction, Disjunction, Print, Disjuncts;
      PartsPrinted(e, tokens, p);
      DisjunctsRead(e.left, tokens, p, value);
      DisjunctsRead(e.right, tokens, End(e.left, p) + 1, Meaning(e.left) || value);
      assert (Meaning(e.right) || (Meaning(e.left) || value)) <==> (Meaning(e) || value);
    } else {
      ConjunctionReads(e, tokens, p);
    }
  }

  /** And read from its start. */
  lemma {:induction false} DisjunctionStarts(e: Expr, tokens: seq<Token>, p: nat)
    requires Printable(e) && PrintedAt(e, tokens, p) && NoAnd(tokens, End(e, p))
    ensures Disjunction(tokens, p) == Disjuncts(tokens, End(e, p), Meaning(e))
    decreases e, 4
  {
    if e.Either? {
      hide Conjunction, Disjunction, Print, Disjuncts;
      PartsPrinted(e, tokens, p);
      DisjunctionStarts(e.left, tokens, p);
      DisjunctsRead(e.right, tokens, End(e.left, p) + 1, Meaning(e.left));
      assert (Meaning(e.right) || Meaning(e.left)) <==> Meaning(e);
    } else {
      ConjunctionReads(e, tokens, p);
    }
  }

  lemma {:induction false} DisjunctionReads(e: Expr, tokens: seq<Token>, p: nat)
    requires Printable(e) && PrintedAt(e, tokens, p) && NoOr(tokens, End(e, p))
    ensures Disjunction(tokens, p) == Ok((Meaning(e), End(e, p)))
    decreases e, 5
  {
    DisjunctionStarts(e, tokens, p);
  }

  /**
   Evaluating the printed tokens of any expression, with whatever parentheses, gives its meaning under
   WITH above AND above OR, and consumes every token.
   */
  lemma EvaluatesToMeaning(e: Expr)
    requires Printable(e)
    ensures Evaluate(Print(e)) == Ok(Meaning(e))
  {
    assert Print(e)[0..0 + |Print(e)|] == Print(e);
    DisjunctionReads(e, Print(e), 0);
  }

  /** So every expression, however its operators nest, can be written down and is evaluated as meant. */
  lemma EveryExpressionEvaluates(e: Expr)
    ensures Evaluate(Print(Minimal(e))) == Ok(Meaning(e))
  {
    EvaluatesToMeaning(Minimal(e));
  }

  /** The reader is no strict recognizer: a lone operator is read as an unknown license. */
  lemma AcceptsALoneOperator()
    ensures Evaluate([And]) == Ok(false)
    ensures Evaluate([Word("MIT"), Or, Close]) == Ok(true)
  {
    assert Factor([And], 0) == Ok((false, 1));
    var tokens := [Word("MIT"), Or, Close];
    assert Factor(tokens, 0) == Ok((true, 1));
    assert Factor(tokens, 2) == Ok((false, 3));
    assert Conjunction(tokens, 2) == Ok((false, 3));
    assert Disjuncts(tokens, 1, true) == Ok((true, 3));
  }
}
