/** `_eval_expr`: latency expressions are evaluated by replacing parameter names in the
    text and evaluating what is left. */
module LatencyText {
  import opened Results
  import opened Sequences

  // ---- characters and words (ASCII) ----

  predicate IsDigit(c: char) { '0' <= c <= '9' }
  predicate IsStart(c: char) { 'a' <= c <= 'z' || 'A' <= c <= 'Z' || c == '_' }
  predicate IsWord(c: char) { IsStart(c) || IsDigit(c) }

  /** Length of the run of word characters `t` begins with. */
  function WordLength(t: string): (n: nat)
    ensures n <= |t|
    ensures forall i :: 0 <= i < n ==> IsWord(t[i])
    ensures n < |t| ==> !IsWord(t[n])
  {
    if t == [] || !IsWord(t[0]) then 0 else 1 + WordLength(t[1..])
  }

  /** No word runs across the seam of `a + b`. */
  predicate Seam(a: string, b: string) {
    a == [] || b == [] || !IsWord(a[|a| - 1]) || !IsWord(b[0])
  }

  lemma {:induction false} WordStopsAtSeam(a: string, b: string)
    requires Seam(a, b) && a != []
    ensures WordLength(a + b) == WordLength(a)
    decreases |a|
  {
    assert (a + b)[0] == a[0] && (a + b)[1..] == a[1..] + b;
    if IsWord(a[0]) {
      if |a| == 1 {
        assert a[1..] + b == b;
      } else {
        assert a[1..][|a[1..]| - 1] == a[|a| - 1];
        WordStopsAtSeam(a[1..], b);
      }
    }
  }

  lemma SeamAfter(a: string, b: string, n: nat)
    requires Seam(a, b) && n <= |a|
    ensures Seam(a[n..], b) && (a + b)[n..] == a[n..] + b && (a + b)[..n] == a[..n]
  {
    assert a[n..] != [] ==> a[n..][|a[n..]| - 1] == a[|a| - 1];
  }

  // ---- decimal numbers ----

  function Digit(d: nat): (c: char)
    requires d < 10
    ensures IsDigit(c)
  {
    '0' + d as char
  }

  /** `str(n)`. */
  function Decimal(n: nat): (s: string)
    ensures s != [] && forall i :: 0 <= i < |s| ==> IsDigit(s[i])
  {
    if n < 10 then [Digit(n)] else Decimal(n / 10) + [Digit(n % 10)]
  }

  function Parse(s: string): (n: nat)
    requires forall i :: 0 <= i < |s| ==> IsDigit(s[i])
    decreases |s|
  {
    if s == [] then 0
    else
      var last := s[|s| - 1];
      assert IsDigit(last);
      10 * Parse(s[..|s| - 1]) + (last as int - '0' as int)
  }

  lemma {:induction false} ParseDecimal(n: nat)
    ensures Parse(Decimal(n)) == n
    decreases n
  {
    var s := Decimal(n);
    if n < 10 {
      assert s[..|s| - 1] == [];
    } else {
      ParseDecimal(n / 10);
      assert s[..|s| - 1] == Decimal(n / 10);
    }
  }

  /** `str(n)` has no leading zero. */
  lemma {:induction false} DecimalLeads(n: nat)
    ensures Decimal(n)[0] == '0' ==> n == 0
    decreases n
  {
    if n >= 10 {
      DecimalLeads(n / 10);
      assert Decimal(n)[0] == Decimal(n / 10)[0];
    }
  }

  // ---- the two steps of the source ----

  type Timings = map<string, nat>

  /** `replace_param`. */
  function Replace(name: string, timings: Timings): string {
    if name in timings then Decimal(timings[name]) else name
  }

  /** `re.sub(r"[a-zA-Z_]\w*", replace_param, expr)`. */
  function Substitute(t: string, timings: Timings): string
    decreases |t|
  {
    if t == [] then []
    else if IsStart(t[0]) then
      var n := WordLength(t);
      Replace(t[..n], timings) + Substitute(t[n..], timings)
    else [t[0]] + Substitute(t[1..], timings)
  }

  datatype Token = Number(n: nat) | Name(name: string) | PlusSign | MinusSign | BadToken

  /** A word of digits is a number unless it has a leading zero and is not zero. */
  function WordToken(w: string): Token {
    if w != [] && (forall i :: 0 <= i < |w| ==> IsDigit(w[i])) then
      if w[0] == '0' && Parse(w) != 0 then BadToken else Number(Parse(w))
    else if w != [] && IsStart(w[0]) then Name(w)
    else BadToken
  }

  function Tokens(t: string): seq<Token>
    decreases |t|
  {
    if t == [] then []
    else if IsWord(t[0]) then [WordToken(t[..WordLength(t)])] + Tokens(t[WordLength(t)..])
    else SignToken(t[0]) + Tokens(t[1..])
  }

  function SignToken(c: char): seq<Token> {
    if c == ' ' then [] else if c == '+' then [PlusSign] else if c == '-' then [MinusSign] else [BadToken]
  }

  /** The part of Python's `eval` that latency expressions use: sums and differences,
      from the left.  A name that is left over is the NameError the source reports. */
  function EvalTokens(ts: seq<Token>): Result<int>
    decreases |ts|
  {
    var n := |ts|;
    if n == 0 then Err(MalformedExpression)
    else if ts[n - 1].Name? then Err(UnresolvedParameter)
    else if !ts[n - 1].Number? then Err(MalformedExpression)
    else if n == 1 then Ok(ts[0].n)
    else if n == 2 || !(ts[n - 2].PlusSign? || ts[n - 2].MinusSign?) then Err(MalformedExpression)
    else
      var left :- EvalTokens(ts[..n - 2]);
      Ok(if ts[n - 2].PlusSign? then left + ts[n - 1].n else left - ts[n - 1].n)
  }

  /** `_eval_expr`. */
  function EvalExpr(text: string, timings: Timings): Result<int> {
    EvalTokens(Tokens(Substitute(text, timings)))
  }

  // ---- expressions as trees ----

  datatype Term = Literal(n: nat) | Param(name: string)

  /** A term, then terms added or subtracted, with any spacing around the sign. */
  datatype Expr =
    | First(term: Term)
    | More(left: Expr, plus: bool, before: nat, after: nat, term: Term)

  predicate ValidName(s: string) {
    s != [] && IsStart(s[0]) && forall i :: 0 <= i < |s| ==> IsWord(s[i])
  }

  predicate ValidTerm(t: Term) {
    t.Param? ==> ValidName(t.name)
  }

  predicate ValidExpr(e: Expr) {
    ValidTerm(e.term) && (e.More? ==> ValidExpr(e.left))
  }

  function Spaces(n: nat): string {
    seq(n, _ => ' ')
  }

  function Sign(e: Expr): string
    requires e.More?
  {
    Spaces(e.before) + (if e.plus then "+" else "-") + Spaces(e.after)
  }

  function ShowTerm(t: Term): string {
    match t
    case Literal(n) => Decimal(n)
    case Param(name) => name
  }

  function Show(e: Expr): string {
    if e.First? then ShowTerm(e.term) else Show(e.left) + Sign(e) + ShowTerm(e.term)
  }

  function TermValue(t: Term, timings: Timings): Result<int> {
    match t
    case Literal(n) => Ok(n)
    case Param(name) => if name in timings then Ok(timings[name]) else Err(UnresolvedParameter)
  }

  /** The value of the tree in a timing environment. */
  function Value(e: Expr, timings: Timings): Result<int> {
    if e.First? then TermValue(e.term, timings)
    else
      var right :- TermValue(e.term, timings);
      var left :- Value(e.left, timings);
      Ok(if e.plus then left + right else left - right)
  }

  // ---- substitution acts on the terms ----

  function SubstitutedTerm(t: Term, timings: Timings): string {
    match t
    case Literal(n) => Decimal(n)
    case Param(name) => Replace(name, timings)
  }

  function Substituted(e: Expr, timings: Timings): string {
    if e.First? then SubstitutedTerm(e.term, timings)
    else Substituted(e.left, timings) + Sign(e) + SubstitutedTerm(e.term, timings)
  }

  lemma {:induction false} SubstituteConcat(a: string, b: string, timings: Timings)
    requires Seam(a, b)
    ensures Substitute(a + b, timings) == Substitute(a, timings) + Substitute(b, timings)
    decreases |a|
  {
    if a == [] {
      assert a + b == b;
    } else if IsStart(a[0]) {
      var n := WordLength(a);
      WordStopsAtSeam(a, b);
      SeamAfter(a, b, n);
      SubstituteConcat(a[n..], b, timings);
      ConcatAssociative(Replace(a[..n], timings), Substitute(a[n..], timings), Substitute(b, timings));
    } else {
      SeamAfter(a, b, 1);
      SubstituteConcat(a[1..], b, timings);
      ConcatAssociative([a[0]], Substitute(a[1..], timings), Substitute(b, timings));
    }
  }

  lemma {:induction false} SubstituteNoNames(t: string, timings: Timings)
    requires forall i :: 0 <= i < |t| ==> !IsStart(t[i])
    ensures Substitute(t, timings) == t
    decreases |t|
  {
    if t != [] {
      SubstituteNoNames(t[1..], timings);
    }
  }

  lemma {:induction false} WholeWord(t: string)
    requires forall i :: 0 <= i < |t| ==> IsWord(t[i])
    ensures WordLength(t) == |t|
    decreases |t|
  {
    if t != [] {
      WholeWord(t[1..]);
    }
  }

  lemma SubstituteTerm(t: Term, timings: Timings)
    requires ValidTerm(t)
    ensures Substitute(ShowTerm(t), timings) == SubstitutedTerm(t, timings)
  {
    match t
    case Literal(n) => SubstituteNoNames(Decimal(n), timings);
    case Param(name) =>
      WholeWord(name);
      assert name[..|name|] == name && name[|name|..] == [];
      assert Replace(name, timings) + [] == Replace(name, timings);
  }

  lemma SignIsSeparate(e: Expr, a: string, b: string)
    requires e.More?
    ensures Seam(a, Sign(e) + b) && Seam(Sign(e), b) && Seam(a + Sign(e), b)
    ensures forall i :: 0 <= i < |Sign(e)| ==> !IsWord(Sign(e)[i])
  {
    var s := Sign(e);
    assert (a + s)[|a + s| - 1] == s[|s| - 1];
    assert (s + b)[0] == s[0];
  }

  lemma {:induction false} SubstituteShow(e: Expr, timings: Timings)
    requires ValidExpr(e)
    ensures Substitute(Show(e), timings) == Substituted(e, timings)
    decreases e
  {
    SubstituteTerm(e.term, timings);
    if e.More? {
      SubstituteShow(e.left, timings);
      SignIsSeparate(e, Show(e.left), ShowTerm(e.term));
      SignIsSeparate(e, Show(e.left), []);
      assert Sign(e) + [] == Sign(e);
      SubstituteConcat(Show(e.left) + Sign(e), ShowTerm(e.term), timings);
      SubstituteConcat(Show(e.left), Sign(e), timings);
      SubstituteNoNames(Sign(e), timings);
    }
  }

  // ---- the substituted text has the tree's tokens ----

  function TermToken(t: Term, timings: Timings): Token {
    match t
    case Literal(n) => Number(n)
    case Param(name) => if name in timings then Number(timings[name]) else Name(name)
  }

  function ExprTokens(e: Expr, timings: Timings): seq<Token> {
    if e.First? then [TermToken(e.term, timings)]
    else ExprTokens(e.left, timings) + [if e.plus then PlusSign else MinusSign, TermToken(e.term, timings)]
  }

  lemma {:induction false} TokensConcat(a: string, b: string)
    requires Seam(a, b)
    ensures Tokens(a + b) == Tokens(a) + Tokens(b)
    decreases |a|
  {
    if a == [] {
      assert a + b == b;
    } else if IsWord(a[0]) {
      var n := WordLength(a);
      WordStopsAtSeam(a, b);
      SeamAfter(a, b, n);
      TokensConcat(a[n..], b);
      ConcatAssociative([WordToken(a[..n])], Tokens(a[n..]), Tokens(b));
    } else {
      SeamAfter(a, b, 1);
      TokensConcat(a[1..], b);
      ConcatAssociative(SignToken(a[0]), Tokens(a[1..]), Tokens(b));
    }
  }

  lemma WordTokens(w: string)
    requires w != [] && forall i :: 0 <= i < |w| ==> IsWord(w[i])
    ensures Tokens(w) == [WordToken(w)]
  {
    WholeWord(w);
    assert w[..|w|] == w && w[|w|..] == [];
  }

  lemma NumberTokens(n: nat)
    ensures Tokens(Decimal(n)) == [Number(n)]
  {
    WordTokens(Decimal(n));
    ParseDecimal(n);
    DecimalLeads(n);
  }

  lemma TermTokens(t: Term, timings: Timings)
    requires ValidTerm(t)
    ensures Tokens(SubstitutedTerm(t, timings)) == [TermToken(t, timings)]
  {
    match t
    case Literal(n) => NumberTokens(n);
    case Param(name) =>
      if name in timings {
        NumberTokens(timings[name]);
      } else {
        WordTokens(name);
        assert !IsDigit(name[0]);
      }
  }

  lemma {:induction false} SpaceTokens(n: nat)
    ensures Tokens(Spaces(n)) == []
    decreases n
  {
    if n > 0 {
      SpaceTokens(n - 1);
      assert Spaces(n)[1..] == Spaces(n - 1);
    }
  }

  lemma SignTokens(e: Expr)
    requires e.More?
    ensures Tokens(Sign(e)) == [if e.plus then PlusSign else MinusSign]
  {
    var sign := if e.plus then "+" else "-";
    SpaceTokens(e.before);
    SpaceTokens(e.after);
    assert sign[1..] == [];
    assert Tokens(sign) == [if e.plus then PlusSign else MinusSign];
    TokensConcat(Spaces(e.before), sign);
    TokensConcat(Spaces(e.before) + sign, Spaces(e.after));
  }

  lemma {:induction false} SubstitutedTokens(e: Expr, timings: Timings)
    requires ValidExpr(e)
    ensures Tokens(Substituted(e, timings)) == ExprTokens(e, timings)
    decreases e
  {
    TermTokens(e.term, timings);
    if e.More? {
      SubstitutedTokens(e.left, timings);
      SignTokens(e);
      var left, right := Substituted(e.left, timings), SubstitutedTerm(e.term, timings);
      SignIsSeparate(e, left, right);
      SignIsSeparate(e, left, []);
      assert Sign(e) + [] == Sign(e);
      TokensConcat(left + Sign(e), right);
      TokensConcat(left, Sign(e));
      PairAppended(ExprTokens(e.left, timings), if e.plus then PlusSign else MinusSign, TermToken(e.term, timings));
    }
  }

  lemma PairAppended<T>(s: seq<T>, a: T, b: T)
    ensures (s + [a]) + [b] == s + [a, b]
  {
  }

  lemma {:induction false} TokensValue(e: Expr, timings: Timings)
    ensures EvalTokens(ExprTokens(e, timings)) == Value(e, timings)
    decreases e
  {
    if e.More? {
      var ts := ExprTokens(e, timings);
      TokensValue(e.left, timings);
      LeftTokensNonEmpty(e.left, timings);
      assert ts[..|ts| - 2] == ExprTokens(e.left, timings);
    }
  }

  lemma LeftTokensNonEmpty(e: Expr, timings: Timings)
    ensures ExprTokens(e, timings) != []
  {
  }

  /** Evaluating by text is evaluating the tree: for every sum or difference of names
      and literals, any spacing and any non-negative timings, with an unresolved name
      reported exactly when one occurs. */
  lemma EvalByText(e: Expr, timings: Timings)
    requires ValidExpr(e)
    ensures EvalExpr(Show(e), timings) == Value(e, timings)
  {
    SubstituteShow(e, timings);
    SubstitutedTokens(e, timings);
    TokensValue(e, timings);
  }

  lemma GluedSubstitution(timings: Timings)
    requires "nCK" in timings && timings["nCK"] == 7
    ensures Substitute("2nCK", timings) == "27"
  {
    WholeWord("nCK");
    assert "nCK"[..3] == "nCK" && "nCK"[3..] == [];
    assert Replace("nCK", timings) + [] == Decimal(7);
    assert "2nCK"[1..] == "nCK";
    assert ['2'] + Decimal(7) == "27";
  }

  /** A literal that runs into a name is not such an expression: the digits of the value
      are glued to it. */
  lemma GluedLiteral()
    ensures EvalExpr("2nCK", map["nCK" := 7]) == Ok(27)
  {
    GluedSubstitution(map["nCK" := 7]);
    WordTokens("27");
    assert "27"[..1] == "2" && "2"[..0] == "";
    assert Parse("2") == 2 && Parse("27") == 27;
  }

  /** A zero glued to a value is no numeral, and so an error. */
  lemma GluedZero()
    ensures EvalExpr("0nCK", map["nCK" := 7]) == Err(MalformedExpression)
  {
    WholeWord("nCK");
    var timings: Timings := map["nCK" := 7];
    assert "nCK"[..3] == "nCK" && "nCK"[3..] == [];
    assert Replace("nCK", timings) + [] == Decimal(7);
    assert "0nCK"[1..] == "nCK";
    assert ['0'] + Decimal(7) == "07";
    WordTokens("07");
    assert "07"[..1] == "0" && "0"[..0] == "";
    assert Parse("0") == 0 && Parse("07") == 7;
  }
}
