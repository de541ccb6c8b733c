/** The literal-aware canonicaliser of admission-policy expressions. It rewrites
    only whole string literals that carry a chart-bound identity, so that one
    compiled digest holds for every installation of one chart. Quotes and
    backslashes are single bytes of UTF-8, so scanning characters and scanning
    bytes agree. */
module AdmissionContract {
  import opened Wrappers
  import Text

  datatype Replacement = Replacement(from: string, to: string)

  datatype LiteralRule = LiteralRule(quote: char, from: string, to: string)

  predicate IsQuote(c: char) { c == '\'' || c == '"' }

  // ---- Tokens of an expression ---------------------------------------------

  /** A character outside literals, a closed literal, or an unterminated rest. */
  datatype Token = Code(c: char) | Literal(quote: char, body: string) | Tail(rest: string)

  /** The length of the literal body that starts at `s`, if a closing quote ends it. */
  function BodyLength(quote: char, s: string): (r: Option<nat>)
    ensures r.Some? ==> r.value < |s| && s[r.value] == quote
  {
    if s == "" then None
    else if s[0] == '\\' then
      if |s| == 1 then None
      else var rest := BodyLength(quote, s[2..]); if rest.Some? then Some(rest.value + 2) else None
    else if s[0] == quote then Some(0)
    else var rest := BodyLength(quote, s[1..]); if rest.Some? then Some(rest.value + 1) else None
  }

  function Tokens(e: string): seq<Token> {
    if e == "" then []
    else if !IsQuote(e[0]) then [Code(e[0])] + Tokens(e[1..])
    else
      var n := BodyLength(e[0], e[1..]);
      if n.None? then [Tail(e)]
      else [Literal(e[0], e[1..][..n.value])] + Tokens(e[n.value + 2..])
  }

  function Spell(t: Token): string {
    match t
    case Code(c) => [c]
    case Literal(quote, body) => [quote] + body + [quote]
    case Tail(rest) => rest
  }

  function Unparse(ts: seq<Token>): string {
    if ts == [] then "" else Spell(ts[0]) + Unparse(ts[1..])
  }

  /** A body in which every backslash escapes a character and no bare quote occurs. */
  predicate BodyOK(quote: char, body: string) {
    body == "" ||
    (if body[0] == '\\' then |body| >= 2 && BodyOK(quote, body[2..])
     else body[0] != quote && BodyOK(quote, body[1..]))
  }

  predicate TokenOK(t: Token) {
    match t
    case Code(c) => !IsQuote(c)
    case Literal(quote, body) => IsQuote(quote) && BodyOK(quote, body)
    case Tail(rest) => rest != "" && IsQuote(rest[0]) && BodyLength(rest[0], rest[1..]).None?
  }

  /** An unterminated literal can only come last. */
  predicate TokensOK(ts: seq<Token>) {
    && (forall i :: 0 <= i < |ts| ==> TokenOK(ts[i]))
    && (forall i :: 0 <= i < |ts| - 1 ==> !ts[i].Tail?)
  }

  lemma {:induction false} ScannedBodyOK(quote: char, s: string)
    requires BodyLength(quote, s).Some?
    ensures BodyOK(quote, s[..BodyLength(quote, s).value])
  {
    var n := BodyLength(quote, s).value;
    if s[0] == '\\' {
      ScannedBodyOK(quote, s[2..]);
      assert s[..n][2..] == s[2..][..n - 2];
    } else if s[0] != quote {
      ScannedBodyOK(quote, s[1..]);
      assert s[..n][1..] == s[1..][..n - 1];
    }
  }

  lemma {:induction false} ClosedBodyScans(quote: char, body: string, rest: string)
    requires IsQuote(quote) && BodyOK(quote, body)
    ensures BodyLength(quote, body + [quote] + rest) == Some(|body|)
  {
    var s := body + [quote] + rest;
    if body == "" {
      assert s[0] == quote;
    } else if body[0] == '\\' {
      ClosedBodyScans(quote, body[2..], rest);
      assert s[2..] == body[2..] + [quote] + rest;
    } else {
      ClosedBodyScans(quote, body[1..], rest);
      assert s[1..] == body[1..] + [quote] + rest;
    }
  }

  lemma TokensCons(t: Token, rest: seq<Token>)
    requires TokenOK(t) && !t.Tail? && TokensOK(rest)
    ensures TokensOK([t] + rest) && Unparse([t] + rest) == Spell(t) + Unparse(rest)
  {
  }

  lemma LiteralInPlace(e: string, n: nat)
    requires n + 1 < |e| && e[n + 1] == e[0]
    ensures e == [e[0]] + e[1..][..n] + [e[0]] + e[n + 2..]
  {
  }

  lemma UnparseLiteral(e: string, n: nat)
    requires e != "" && IsQuote(e[0]) && BodyLength(e[0], e[1..]) == Some(n)
    requires Unparse(Tokens(e[n + 2..])) == e[n + 2..] && TokensOK(Tokens(e[n + 2..]))
    ensures Unparse(Tokens(e)) == e && TokensOK(Tokens(e))
  {
    ScannedBodyOK(e[0], e[1..]);
    LiteralInPlace(e, n);
    TokensCons(Literal(e[0], e[1..][..n]), Tokens(e[n + 2..]));
  }

  /** Scanning loses nothing: the tokens spell the expression byte for byte. */
  lemma {:induction false} UnparseTokens(e: string)
    ensures Unparse(Tokens(e)) == e && TokensOK(Tokens(e))
    decreases |e|
  {
    if e == "" {
    } else if !IsQuote(e[0]) {
      UnparseTokens(e[1..]);
      TokensCons(Code(e[0]), Tokens(e[1..]));
      assert e == [e[0]] + e[1..];
    } else {
      var n := BodyLength(e[0], e[1..]);
      if n.None? {
        assert Tokens(e)[1..] == [];
      } else {
        UnparseTokens(e[n.value + 2..]);
        UnparseLiteral(e, n.value);
      }
    }
  }

  lemma TokensOfLiteral(quote: char, body: string, rest: string)
    requires IsQuote(quote) && BodyOK(quote, body)
    ensures Tokens([quote] + body + [quote] + rest) == [Literal(quote, body)] + Tokens(rest)
  {
    var e := [quote] + body + [quote] + rest;
    ClosedBodyScans(quote, body, rest);
    assert e[1..] == body + [quote] + rest;
    assert e[1..][..|body|] == body && e[|body| + 2..] == rest;
  }

  lemma TokensOfCode(c: char, rest: string)
    requires !IsQuote(c)
    ensures Tokens([c] + rest) == [Code(c)] + Tokens(rest)
  {
  }

  /** Every well-formed token sequence is what its own spelling scans to. */
  lemma {:induction false} TokensUnparse(ts: seq<Token>)
    requires TokensOK(ts)
    ensures Tokens(Unparse(ts)) == ts
  {
    if ts != [] {
      var rest := Unparse(ts[1..]);
      TokensUnparse(ts[1..]);
      match ts[0]
      case Code(c) => TokensOfCode(c, rest);
      case Literal(quote, body) => TokensOfLiteral(quote, body, rest);
      case Tail(text) => assert ts[1..] == [] && text + rest == text;
      assert ts == [ts[0]] + ts[1..];
    }
  }

  // ---- The canonical form --------------------------------------------------

  /** Double-quoted whole values, and for the two worker accounts, which come
      last, single-quoted username suffixes. */
  function Rules(replacements: seq<Replacement>): (rules: seq<LiteralRule>)
    requires |replacements| >= 2
    ensures |rules| == |replacements| + 2
  {
    var n := |replacements|;
    seq(n + 2, i requires 0 <= i < n + 2 =>
      if i < n then LiteralRule('"', replacements[i].from, replacements[i].to)
      else LiteralRule('\'', ":" + replacements[i - 2].from, ":" + replacements[i - 2].to))
  }

  function Rewrite(rules: seq<LiteralRule>, quote: char, body: string): string {
    if rules == [] then body
    else if rules[0].quote == quote && rules[0].from == body then rules[0].to
    else Rewrite(rules[1..], quote, body)
  }

  function RewriteToken(rules: seq<LiteralRule>, t: Token): Token {
    if t.Literal? then Literal(t.quote, Rewrite(rules, t.quote, t.body)) else t
  }

  function RewriteTokens(rules: seq<LiteralRule>, ts: seq<Token>): (r: seq<Token>)
    ensures |r| == |ts| && forall i :: 0 <= i < |ts| ==> r[i] == RewriteToken(rules, ts[i])
  {
    seq(|ts|, i requires 0 <= i < |ts| => RewriteToken(rules, ts[i]))
  }

  function Normalized(e: string, replacements: seq<Replacement>): string
    requires |replacements| >= 2
  {
    Unparse(RewriteTokens(Rules(replacements), Tokens(e)))
  }

  lemma NormalizedStep(e: string, replacements: seq<Replacement>, t: Token, rest: string)
    requires |replacements| >= 2 && Tokens(e) == [t] + Tokens(rest)
    ensures Normalized(e, replacements)
         == Spell(RewriteToken(Rules(replacements), t)) + Normalized(rest, replacements)
  {
    var rules := Rules(replacements);
    assert RewriteTokens(rules, Tokens(e))[1..] == RewriteTokens(rules, Tokens(rest));
  }

  method RewriteLiteral(rules: seq<LiteralRule>, quote: char, body: string) returns (literal: string)
    ensures literal == Rewrite(rules, quote, body)
  {
    literal := body;
    for i := 0 to |rules|
      invariant literal == body && Rewrite(rules, quote, body) == Rewrite(rules[i..], quote, body)
    {
      if quote == rules[i].quote && literal == rules[i].from {
        return rules[i].to;
      }
    }
  }

  /** The token that starts at `offset`. */
  function TokenAt(e: string, offset: nat): Token
    requires offset < |e|
  {
    if !IsQuote(e[offset]) then Code(e[offset])
    else
      var n := BodyLength(e[offset], e[offset + 1..]);
      if n.None? then Tail(e[offset..]) else Literal(e[offset], e[offset + 1..][..n.value])
  }

  function NextOffset(e: string, offset: nat): (next: nat)
    requires offset < |e|
    ensures offset < next <= |e|
  {
    match TokenAt(e, offset)
    case Code(_) => offset + 1
    case Literal(_, body) => offset + |body| + 2
    case Tail(_) => |e|
  }

  lemma TokensFrom(e: string, offset: nat)
    requires offset < |e|
    ensures Tokens(e[offset..]) == [TokenAt(e, offset)] + Tokens(e[NextOffset(e, offset)..])
  {
    var here := e[offset..];
    assert here[1..] == e[offset + 1..];
    if TokenAt(e, offset).Literal? {
      var n := |TokenAt(e, offset).body|;
      assert here[n + 2..] == e[offset + n + 2..];
    }
  }

  /** One turn of the scan: a character, a literal, or the unterminated rest. */
  method ScanToken(expression: string, rules: seq<LiteralRule>, offset: nat) returns (chunk: string, next: nat)
    requires offset < |expression|
    ensures next == NextOffset(expression, offset)
    ensures chunk == Spell(RewriteToken(rules, TokenAt(expression, offset)))
  {
    var quote := expression[offset];
    if !IsQuote(quote) { return [quote], offset + 1; }
    var end := FindClosingQuote(expression, offset);
    ScanEndIsBodyLength(expression, quote, offset + 1);
    if end >= |expression| { return expression[offset..], |expression|; }
    assert expression[offset + 1..][..end - offset - 1] == expression[offset + 1..end];
    var literal := RewriteLiteral(rules, quote, expression[offset + 1..end]);
    return [quote] + literal + [quote], end + 1;
  }

  /** The scanner: it terminates on every string, closed literals or not. */
  method NormalizeManagedAdmissionCELLiterals(expression: string, replacements: seq<Replacement>)
    returns (normalized: string)
    requires |replacements| >= 2
    ensures normalized == Normalized(expression, replacements)
  {
    var rules := Rules(replacements);
    normalized := "";
    var offset := 0;
    while offset < |expression|
      invariant 0 <= offset <= |expression|
      invariant normalized + Normalized(expression[offset..], replacements) == Normalized(expression, replacements)
    {
      TokensFrom(expression, offset);
      NormalizedStep(expression[offset..], replacements, TokenAt(expression, offset),
                     expression[NextOffset(expression, offset)..]);
      var chunk, next := ScanToken(expression, rules, offset);
      normalized := normalized + chunk;
      offset := next;
    }
  }

  /** Where the scan for a closing quote stops, from position `i` on. */
  function ScanEnd(e: string, quote: char, i: nat): (end: nat)
    ensures end >= i
    decreases |e| - i
  {
    if i >= |e| || (e[i] != '\\' && e[i] == quote) then i
    else ScanEnd(e, quote, if e[i] == '\\' then i + 2 else i + 1)
  }

  function Shift(n: Option<nat>, k: nat): Option<nat> { if n.Some? then Some(n.value + k) else None }

  lemma BodyLengthAfterEscape(e: string, quote: char, i: nat)
    requires i + 2 <= |e| && e[i] == '\\'
    ensures BodyLength(quote, e[i..]) == Shift(BodyLength(quote, e[i + 2..]), 2)
  {
  }

  lemma BodyLengthAfterPlain(e: string, quote: char, i: nat)
    requires i < |e| && e[i] != '\\' && e[i] != quote
    ensures BodyLength(quote, e[i..]) == Shift(BodyLength(quote, e[i + 1..]), 1)
  {
  }

  predicate ScanAgrees(e: string, quote: char, i: nat)
    requires i <= |e|
  {
    BodyLength(quote, e[i..]) == if ScanEnd(e, quote, i) < |e| then Some(ScanEnd(e, quote, i) - i) else None
  }

  lemma ScanStops(e: string, quote: char, i: nat)
    requires i <= |e|
    requires i < |e| ==> (e[i] == '\\' && i + 1 == |e|) || (e[i] != '\\' && e[i] == quote)
    ensures ScanAgrees(e, quote, i)
  {
  }

  lemma ScanAgreesAfterEscape(e: string, quote: char, i: nat)
    requires i + 2 <= |e| && e[i] == '\\' && ScanAgrees(e, quote, i + 2)
    ensures ScanAgrees(e, quote, i)
  {
    BodyLengthAfterEscape(e, quote, i);
    assert ScanEnd(e, quote, i) == ScanEnd(e, quote, i + 2);
  }

  lemma ScanAgreesAfterPlain(e: string, quote: char, i: nat)
    requires i < |e| && e[i] != '\\' && e[i] != quote && ScanAgrees(e, quote, i + 1)
    ensures ScanAgrees(e, quote, i)
  {
    BodyLengthAfterPlain(e, quote, i);
    assert ScanEnd(e, quote, i) == ScanEnd(e, quote, i + 1);
  }

  lemma {:induction false} ScanEndIsBodyLength(e: string, quote: char, i: nat)
    requires i <= |e|
    ensures ScanAgrees(e, quote, i)
    decreases |e| - i
  {
    if i == |e| || (e[i] == '\\' && i + 1 == |e|) || (e[i] != '\\' && e[i] == quote) {
      ScanStops(e, quote, i);
    } else if e[i] == '\\' {
      ScanEndIsBodyLength(e, quote, i + 2);
      ScanAgreesAfterEscape(e, quote, i);
    } else {
      ScanEndIsBodyLength(e, quote, i + 1);
      ScanAgreesAfterPlain(e, quote, i);
    }
  }

  /** The index of the quote that closes the literal opened at `offset`, or a
      position past the end. */
  method FindClosingQuote(expression: string, offset: nat) returns (end: nat)
    requires offset < |expression|
    ensures end == ScanEnd(expression, expression[offset], offset + 1)
  {
    var quote := expression[offset];
    end := offset + 1;
    while end < |expression|
      invariant offset < end && ScanEnd(expression, quote, end) == ScanEnd(expression, quote, offset + 1)
    {
      if expression[end] == '\\' {
        end := end + 2;
        continue;
      }
      if expression[end] == quote { break; }
      end := end + 1;
    }
  }

  // ---- Contract bindings ---------------------------------------------------

  const TOKENS: seq<string> := [
    "${CVK_ADMISSION_PREFIX}", "${CVK_MANAGER_USERNAME}", "${CVK_POLICY_NAMESPACE}", "${CVK_POLICY_NAME}",
    "${CVK_LEDGER_NAME}", "${CVK_APP_SERVICE_ACCOUNT}", "${CVK_NETWORK_SERVICE_ACCOUNT}"]

  ghost predicate PairwiseDistinct(values: seq<string>) {
    forall i, j :: 0 <= i < j < |values| ==> values[i] != values[j]
  }

  ghost predicate BindingsValid(values: seq<string>) {
    (forall i :: 0 <= i < |values| ==> !Text.Blank(values[i])) && PairwiseDistinct(values)
  }

  datatype BindingError = EmptyBinding(index: nat) | SameValue(first: nat, second: nat)

  method ValidateBindings(values: seq<string>) returns (r: Result<(), BindingError>)
    ensures r.Ok? <==> BindingsValid(values)
    ensures r.Err? && r.error.SameValue? ==>
      r.error.first < r.error.second < |values| && values[r.error.first] == values[r.error.second]
  {
    var seen: map<string, nat> := map[];
    for i := 0 to |values|
      invariant forall k :: 0 <= k < i ==> !Text.Blank(values[k]) && values[k] in seen
      invariant forall v :: v in seen ==> seen[v] < i && values[seen[v]] == v
      invariant PairwiseDistinct(values[..i])
    {
      if Text.Blank(values[i]) { return Err(EmptyBinding(i)); }
      if values[i] in seen { return Err(SameValue(seen[values[i]], i)); }
      seen := seen[values[i] := i];
    }
    assert values[..|values|] == values;
    return Ok(());
  }

  predicate Plain(s: string) { forall c :: c in s ==> !IsQuote(c) && c != '\\' }

  predicate AllPlain(values: seq<string>) { forall i :: 0 <= i < |values| ==> Plain(values[i]) }

  function Replacements(values: seq<string>): (r: seq<Replacement>)
    requires |values| == |TOKENS|
    ensures |r| == |TOKENS|
    ensures forall i :: 0 <= i < |r| ==> r[i] == Replacement(values[i], TOKENS[i])
  {
    seq(|TOKENS|, i requires 0 <= i < |TOKENS| => Replacement(values[i], TOKENS[i]))
  }

  lemma TokensDistinct()
    ensures PairwiseDistinct(TOKENS)
  {
  }

  lemma NameTokensPlain()
    ensures Plain("${CVK_ADMISSION_PREFIX}") && Plain("${CVK_MANAGER_USERNAME}") && Plain("${CVK_POLICY_NAMESPACE}")
  {
  }

  lemma PolicyTokensPlain()
    ensures Plain("${CVK_POLICY_NAME}") && Plain("${CVK_LEDGER_NAME}")
  {
  }

  lemma AppTokenPlain()
    ensures Plain("${CVK_APP_SERVICE_ACCOUNT}")
  {
  }

  lemma NetworkTokenPlain()
    ensures Plain("${CVK_NETWORK_SERVICE_ACCOUNT}")
  {
  }

  lemma TokensPlain()
    ensures AllPlain(TOKENS)
  {
    NameTokensPlain();
    PolicyTokensPlain();
    AppTokenPlain();
    NetworkTokenPlain();
  }

  lemma {:induction false} PlainBodyOK(quote: char, s: string)
    requires IsQuote(quote) && Plain(s)
    ensures BodyOK(quote, s)
  {
    if s != "" {
      assert s[0] in s;
      PlainBodyOK(quote, s[1..]);
    }
  }

  lemma {:induction false} RewriteFirstMatch(rules: seq<LiteralRule>, quote: char, body: string, k: nat)
    requires k < |rules| && rules[k].quote == quote && rules[k].from == body
    requires forall i :: 0 <= i < k ==> rules[i].quote != quote || rules[i].from != body
    ensures Rewrite(rules, quote, body) == rules[k].to
  {
    if k > 0 { RewriteFirstMatch(rules[1..], quote, body, k - 1); }
  }

  lemma {:induction false} RewriteResult(rules: seq<LiteralRule>, quote: char, body: string)
    ensures
      || ((forall i :: 0 <= i < |rules| ==> rules[i].quote != quote || rules[i].from != body)
          && Rewrite(rules, quote, body) == body)
      || (exists i :: 0 <= i < |rules| && rules[i].quote == quote && rules[i].from == body
                      && Rewrite(rules, quote, body) == rules[i].to)
  {
    if rules != [] && !(rules[0].quote == quote && rules[0].from == body) {
      RewriteResult(rules[1..], quote, body);
      if i :| 0 <= i < |rules[1..]| && rules[1..][i].quote == quote && rules[1..][i].from == body
              && Rewrite(rules[1..], quote, body) == rules[1..][i].to {
        assert rules[i + 1] == rules[1..][i];
      }
    }
  }

  lemma RewrittenTokensOK(values: seq<string>, ts: seq<Token>)
    requires |values| == |TOKENS| && TokensOK(ts)
    ensures TokensOK(RewriteTokens(Rules(Replacements(values)), ts))
  {
    var rules := Rules(Replacements(values));
    TokensPlain();
    forall i | 0 <= i < |ts|
      ensures TokenOK(RewriteToken(rules, ts[i]))
    {
      if ts[i].Literal? {
        var Literal(quote, body) := ts[i];
        RewriteResult(rules, quote, body);
        if Rewrite(rules, quote, body) != body {
          PlainBodyOK(quote, Rewrite(rules, quote, body));
        }
      }
    }
  }

  /** Normalising changes nothing but the bodies of literals that match a rule
      exactly: the scan of the result is the scan of the input, rewritten. */
  lemma NormalizedRewritesOnlyMatches(e: string, values: seq<string>)
    requires |values| == |TOKENS|
    ensures Tokens(Normalized(e, Replacements(values))) == RewriteTokens(Rules(Replacements(values)), Tokens(e))
    ensures Unparse(Tokens(e)) == e
  {
    UnparseTokens(e);
    RewrittenTokensOK(values, Tokens(e));
    TokensUnparse(RewriteTokens(Rules(Replacements(values)), Tokens(e)));
  }

  // ---- Rendered templates --------------------------------------------------

  const FIRST_ACCOUNT := 5

  /** Helm's quote function between the quotes it adds. */
  function Escape(s: string): string {
    if s == "" then ""
    else (if s[0] == '"' || s[0] == '\\' then ['\\', s[0]] else [s[0]]) + Escape(s[1..])
  }

  /** Quoting such a value adds only the quotes. */
  predicate NeedsNoEscape(s: string) { '"' !in s && '\\' !in s }

  lemma {:induction false} EscapeKeepsExactly(s: string)
    ensures BodyOK('"', Escape(s))
    ensures NeedsNoEscape(s) ==> Escape(s) == s
    ensures !NeedsNoEscape(s) ==> '\\' in Escape(s) && |Escape(s)| > |s|
  {
    if s != "" {
      var rest := Escape(s[1..]);
      EscapeKeepsExactly(s[1..]);
      assert s == [s[0]] + s[1..];
      if s[0] == '"' || s[0] == '\\' {
        assert Escape(s) == ['\\', s[0]] + rest && Escape(s)[0] == '\\' && Escape(s)[2..] == rest;
      } else {
        assert Escape(s) == [s[0]] + rest && Escape(s)[1..] == rest;
      }
    }
  }

  /** Fixed chart text, a quoted binding, or a worker account as the suffix of a
      single-quoted username, which the chart does not escape. */
  datatype Piece = Fixed(token: Token) | Quoted(binding: nat) | Suffix(account: nat)

  predicate PieceOK(p: Piece) {
    match p
    case Fixed(token) => TokenOK(token)
    case Quoted(k) => k < |TOKENS|
    case Suffix(k) => FIRST_ACCOUNT <= k < |TOKENS|
  }

  predicate TemplateOK(t: seq<Piece>) {
    forall i :: 0 <= i < |t| ==> PieceOK(t[i]) && (t[i].Fixed? && t[i].token.Tail? ==> i == |t| - 1)
  }

  function Fill(p: Piece, values: seq<string>): Token
    requires |values| == |TOKENS| && PieceOK(p)
  {
    match p
    case Fixed(token) => token
    case Quoted(k) => Literal('"', Escape(values[k]))
    case Suffix(k) => Literal('\'', ":" + values[k])
  }

  function FillAll(t: seq<Piece>, values: seq<string>): (r: seq<Token>)
    requires |values| == |TOKENS| && TemplateOK(t)
    ensures |r| == |t| && forall i :: 0 <= i < |t| ==> r[i] == Fill(t[i], values)
  {
    seq(|t|, i requires 0 <= i < |t| => Fill(t[i], values))
  }

  function Render(t: seq<Piece>, values: seq<string>): string
    requires |values| == |TOKENS| && TemplateOK(t)
  {
    Unparse(FillAll(t, values))
  }

  /** No account name ends or escapes the literal it is written into. */
  predicate AccountsClosed(values: seq<string>) {
    forall k :: FIRST_ACCOUNT <= k < |values| ==> BodyOK('\'', values[k])
  }

  lemma FilledTokensOK(t: seq<Piece>, values: seq<string>)
    requires |values| == |TOKENS| && TemplateOK(t) && AccountsClosed(values)
    ensures TokensOK(FillAll(t, values))
  {
    forall i | 0 <= i < |t|
      ensures TokenOK(FillAll(t, values)[i])
    {
      match t[i]
      case Fixed(token) =>
      case Quoted(k) => EscapeKeepsExactly(values[k]);
      case Suffix(k) => assert (":" + values[k])[1..] == values[k];
    }
  }

  /** A literal of the chart spelled like a bound identity other than its own token. */
  predicate Clashes(t: Token, values: seq<string>)
    requires |values| == |TOKENS|
  {
    && t.Literal?
    && exists k :: 0 <= k < |TOKENS| && SpelledAs(t, k, values[k]) && values[k] != TOKENS[k]
  }

  predicate SpelledAs(t: Token, k: nat, value: string)
    requires t.Literal?
  {
    if t.quote == '"' then t.body == value else t.quote == '\'' && k >= FIRST_ACCOUNT && t.body == ":" + value
  }

  predicate NoClash(t: seq<Piece>, values: seq<string>)
    requires |values| == |TOKENS|
  {
    forall i :: 0 <= i < |t| && t[i].Fixed? ==> !Clashes(t[i].token, values)
  }

  /** No binding the template quotes has a character that quoting escapes. */
  predicate QuotesVerbatim(t: seq<Piece>, values: seq<string>)
    requires |values| == |TOKENS| && TemplateOK(t)
  {
    forall i :: 0 <= i < |t| && t[i].Quoted? ==> NeedsNoEscape(values[t[i].binding])
  }

  /** A distinct binding is rewritten to its own token and to no other. */
  lemma BindingRewritesToItsToken(values: seq<string>, k: nat)
    requires |values| == |TOKENS| && k < |TOKENS| && PairwiseDistinct(values)
    ensures Rewrite(Rules(Replacements(values)), '"', values[k]) == TOKENS[k]
    ensures k >= FIRST_ACCOUNT ==> Rewrite(Rules(Replacements(values)), '\'', ":" + values[k]) == ":" + TOKENS[k]
  {
    var rules := Rules(Replacements(values));
    RewriteFirstMatch(rules, '"', values[k], k);
    if k >= FIRST_ACCOUNT {
      forall i | 0 <= i < k + 2
        ensures rules[i].quote != '\'' || rules[i].from != ":" + values[k]
      {
        if i >= |TOKENS| {
          assert rules[i].from[1..] == values[i - 2] && (":" + values[k])[1..] == values[k];
        }
      }
      RewriteFirstMatch(rules, '\'', ":" + values[k], k + 2);
    }
  }

  /** The rewriter changes a literal exactly when it is spelled like a binding
      that is not its own token. */
  lemma ChangedExactlyWhenClashing(t: Token, values: seq<string>)
    requires |values| == |TOKENS| && PairwiseDistinct(values)
    ensures RewriteToken(Rules(Replacements(values)), t) != t <==> Clashes(t, values)
  {
    var rules := Rules(Replacements(values));
    if t.Literal? {
      RewriteResult(rules, t.quote, t.body);
      if Clashes(t, values) {
        var k :| 0 <= k < |TOKENS| && SpelledAs(t, k, values[k]) && values[k] != TOKENS[k];
        BindingRewritesToItsToken(values, k);
        assert (":" + TOKENS[k])[1..] == TOKENS[k] && (":" + values[k])[1..] == values[k];
      }
      if Rewrite(rules, t.quote, t.body) != t.body {
        var i :| 0 <= i < |rules| && rules[i].quote == t.quote && rules[i].from == t.body
                 && Rewrite(rules, t.quote, t.body) == rules[i].to;
        var k := if i < |TOKENS| then i else i - 2;
        assert SpelledAs(t, k, values[k]);
      }
    }
  }

  /** A quoted binding is rewritten to its token exactly when quoting left it alone. */
  lemma QuotedRewritesExactly(values: seq<string>, k: nat)
    requires |values| == |TOKENS| && k < |TOKENS| && PairwiseDistinct(values)
    ensures Rewrite(Rules(Replacements(values)), '"', Escape(values[k])) == TOKENS[k] <==> NeedsNoEscape(values[k])
  {
    var rules := Rules(Replacements(values));
    EscapeKeepsExactly(values[k]);
    BindingRewritesToItsToken(values, k);
    TokensPlain();
    TokensDistinct();
    if !NeedsNoEscape(values[k]) {
      var body := Escape(values[k]);
      RewriteResult(rules, '"', body);
      if i :| 0 <= i < |rules| && rules[i].quote == '"' && rules[i].from == body
              && Rewrite(rules, '"', body) == rules[i].to {
        assert i < |TOKENS| && values[i] == body && i != k;
      }
    }
  }

  lemma TokensFillVerbatim(k: nat)
    requires k < |TOKENS|
    ensures Escape(TOKENS[k]) == TOKENS[k]
  {
    TokensPlain();
    EscapeKeepsExactly(TOKENS[k]);
  }

  lemma FilledPieceRewrites(p: Piece, values: seq<string>)
    requires |values| == |TOKENS| && PieceOK(p) && PairwiseDistinct(values)
    ensures RewriteToken(Rules(Replacements(values)), Fill(p, values)) == Fill(p, TOKENS) <==>
            (p.Fixed? ==> !Clashes(p.token, values)) && (p.Quoted? ==> NeedsNoEscape(values[p.binding]))
  {
    match p
    case Fixed(token) => ChangedExactlyWhenClashing(token, values);
    case Quoted(k) => QuotedRewritesExactly(values, k); TokensFillVerbatim(k);
    case Suffix(k) => BindingRewritesToItsToken(values, k);
  }

  lemma TokenTemplateScans(t: seq<Piece>)
    requires TemplateOK(t)
    ensures Tokens(Render(t, TOKENS)) == FillAll(t, TOKENS)
  {
    TokensPlain();
    forall k | FIRST_ACCOUNT <= k < |TOKENS| ensures BodyOK('\'', TOKENS[k]) { PlainBodyOK('\'', TOKENS[k]); }
    FilledTokensOK(t, TOKENS);
    TokensUnparse(FillAll(t, TOKENS));
  }

  /** A template rendered with valid bindings normalises to the template rendered
      with the tokens exactly when none of its fixed literals is spelled like a
      binding and none of the bindings it quotes needs an escape. */
  lemma RenderedTemplateNormalizes(t: seq<Piece>, values: seq<string>)
    requires |values| == |TOKENS| && TemplateOK(t) && BindingsValid(values) && AccountsClosed(values)
    ensures Normalized(Render(t, values), Replacements(values)) == Render(t, TOKENS)
       <==> NoClash(t, values) && QuotesVerbatim(t, values)
  {
    var filled := FillAll(t, values);
    FilledTokensOK(t, values);
    TokensUnparse(filled);
    var rewritten := RewriteTokens(Rules(Replacements(values)), filled);
    RewrittenTokensOK(values, filled);
    TokensUnparse(rewritten);
    TokenTemplateScans(t);
    forall i | 0 <= i < |t|
      ensures rewritten[i] == FillAll(t, TOKENS)[i] <==>
              (t[i].Fixed? ==> !Clashes(t[i].token, values)) && (t[i].Quoted? ==> NeedsNoEscape(values[t[i].binding]))
    {
      FilledPieceRewrites(t[i], values);
    }
    assert rewritten == FillAll(t, TOKENS) <==> NoClash(t, values) && QuotesVerbatim(t, values);
  }

  /** One template, two installations, the first of them sound: the second has
      the same canonical expression exactly when it is sound too. */
  lemma SameContractForAllBindings(t: seq<Piece>, v: seq<string>, w: seq<string>)
    requires |v| == |w| == |TOKENS| && TemplateOK(t)
    requires BindingsValid(v) && AccountsClosed(v) && NoClash(t, v) && QuotesVerbatim(t, v)
    requires BindingsValid(w) && AccountsClosed(w)
    ensures Normalized(Render(t, v), Replacements(v)) == Normalized(Render(t, w), Replacements(w))
       <==> NoClash(t, w) && QuotesVerbatim(t, w)
  {
    RenderedTemplateNormalizes(t, v);
    RenderedTemplateNormalizes(t, w);
  }

  lemma ExampleBindings(values: seq<string>)
    requires values == ["a", "b", "c", "d", "e", "f", "g"]
    ensures |values| == |TOKENS| && BindingsValid(values) && AccountsClosed(values)
  {
    assert forall i :: 0 <= i < |values| ==> !Text.IsSpace(values[i][0]);
    PlainBodyOK('\'', "f");
    PlainBodyOK('\'', "g");
  }

  lemma ExampleClashes(values: seq<string>)
    requires |values| == |TOKENS| && values[5] == "f"
    ensures TokenOK(Literal('\'', ":f")) && Clashes(Literal('\'', ":f"), values)
  {
    PlainBodyOK('\'', ":f");
    assert SpelledAs(Literal('\'', ":f"), 5, values[5]);
    assert |TOKENS[5]| > 1;
  }

  /** A fixed literal spelled like the app account's username suffix breaks the
      contract of that installation. */
  lemma ClashExample(t: seq<Piece>, values: seq<string>)
    requires values == ["a", "b", "c", "d", "e", "f", "g"] && t == [Fixed(Literal('\'', ":f"))]
    ensures |values| == |TOKENS| && TemplateOK(t) && BindingsValid(values) && AccountsClosed(values)
    ensures Normalized(Render(t, values), Replacements(values)) != Render(t, TOKENS)
  {
    ExampleBindings(values);
    ExampleClashes(values);
    assert t[0].Fixed? && Clashes(t[0].token, values);
    RenderedTemplateNormalizes(t, values);
  }

  /** No bound identity starts with a caret and no account name ends in a hyphen
      or a dollar sign, as Kubernetes names and usernames guarantee. */
  predicate KubernetesNames(values: seq<string>) {
    && |values| == |TOKENS|
    && (forall k :: 0 <= k < |values| ==> values[k] != "" && values[k][0] != '^')
    && (forall k :: FIRST_ACCOUNT <= k < |values| ==> !EndsPattern(values[k]))
  }

  predicate EndsPattern(s: string)
    requires s != ""
  {
    s[|s| - 1] == '-' || s[|s| - 1] == '$'
  }

  /** The chart's own literals: a single-quoted vocabulary in which a colon starts
      only the separator itself, a prefix ending in a hyphen or a pattern ending
      in a dollar sign, and one double-quoted anchored pattern. */
  predicate ChartLiteral(t: Token) {
    t.Literal? ==>
      if t.quote == '"' then t.body != "" && t.body[0] == '^'
      else |t.body| <= 1 || t.body[0] != ':' || EndsPattern(t.body)
  }

  lemma ChartVocabularyNeverClashes(t: seq<Piece>, values: seq<string>)
    requires KubernetesNames(values)
    requires forall i :: 0 <= i < |t| && t[i].Fixed? ==> ChartLiteral(t[i].token)
    ensures NoClash(t, values)
  {
    forall i, k | 0 <= i < |t| && t[i].Fixed? && t[i].token.Literal? && 0 <= k < |TOKENS|
      ensures !SpelledAs(t[i].token, k, values[k])
    {
      var spelled := ":" + values[k];
      assert ChartLiteral(t[i].token);
      assert spelled[|spelled| - 1] == values[k][|values[k]| - 1];
    }
  }

  // ---- Idempotence ---------------------------------------------------------

  /** Some literal is rewritten to the token of j, which is the value of i. */
  predicate Chains(values: seq<string>, i: nat, j: nat)
    requires |values| == |TOKENS| && i < |TOKENS| && j < |TOKENS|
  {
    && i != j && values[i] == TOKENS[j]
    && (BodyOK('"', values[j]) || (i >= FIRST_ACCOUNT && j >= FIRST_ACCOUNT && BodyOK('\'', values[j])))
  }

  predicate NoChain(values: seq<string>)
    requires |values| == |TOKENS|
  {
    forall i, j :: 0 <= i < |TOKENS| && 0 <= j < |TOKENS| ==> !Chains(values, i, j)
  }

  /** Normalising twice is normalising once, on every expression, exactly when no
      binding is spelled like the token of another binding that can occur. */
  lemma IdempotentExactly(values: seq<string>)
    requires |values| == |TOKENS| && BindingsValid(values)
    ensures (forall e: string :: Normalized(Normalized(e, Replacements(values)), Replacements(values))
                             == Normalized(e, Replacements(values)))
       <==> NoChain(values)
  {
    var repl := Replacements(values);
    if NoChain(values) {
      forall e: string
        ensures Normalized(Normalized(e, repl), repl) == Normalized(e, repl)
      {
        NormalizedTwice(e, values);
      }
    } else {
      var i, j :| 0 <= i < |TOKENS| && 0 <= j < |TOKENS| && Chains(values, i, j);
      if BodyOK('"', values[j]) {
        ChainRewrites(values, i, j, '"', values[j]);
      } else {
        assert (":" + values[j])[1..] == values[j];
        ChainRewrites(values, i, j, '\'', ":" + values[j]);
      }
    }
  }

  /** A literal of the value of j changes again on the second pass. */
  lemma ChainRewrites(values: seq<string>, i: nat, j: nat, quote: char, body: string)
    requires |values| == |TOKENS| && PairwiseDistinct(values) && i < |TOKENS| && j < |TOKENS| && i != j
    requires values[i] == TOKENS[j] && BodyOK(quote, body)
    requires (quote == '"' && body == values[j])
          || (quote == '\'' && i >= FIRST_ACCOUNT && j >= FIRST_ACCOUNT && body == ":" + values[j])
    ensures exists e: string :: Normalized(Normalized(e, Replacements(values)), Replacements(values))
                             != Normalized(e, Replacements(values))
  {
    var repl := Replacements(values);
    var rules := Rules(repl);
    TokensDistinct();
    BindingRewritesToItsToken(values, j);
    BindingRewritesToItsToken(values, i);
    var e := Unparse([Literal(quote, body)]);
    TokensUnparse([Literal(quote, body)]);
    NormalizedRewritesOnlyMatches(e, values);
    var once := Normalized(e, repl);
    NormalizedRewritesOnlyMatches(once, values);
    assert (":" + TOKENS[i])[1..] == TOKENS[i] && (":" + TOKENS[j])[1..] == TOKENS[j];
    assert Tokens(Normalized(once, repl))[0] != Tokens(once)[0];
  }

  lemma NormalizedTwice(e: string, values: seq<string>)
    requires |values| == |TOKENS| && NoChain(values)
    ensures Normalized(Normalized(e, Replacements(values)), Replacements(values)) == Normalized(e, Replacements(values))
  {
    var rules := Rules(Replacements(values));
    var once := RewriteTokens(rules, Tokens(e));
    NormalizedRewritesOnlyMatches(e, values);
    UnparseTokens(e);
    forall k | 0 <= k < |once|
      ensures RewriteToken(rules, once[k]) == once[k]
    {
      if once[k].Literal? {
        assert TokenOK(Tokens(e)[k]);
        RewriteTwice(values, Tokens(e)[k].quote, Tokens(e)[k].body);
      }
    }
    assert RewriteTokens(rules, once) == once;
  }

  lemma RewriteTwice(values: seq<string>, quote: char, body: string)
    requires |values| == |TOKENS| && NoChain(values) && BodyOK(quote, body)
    ensures
      var rules := Rules(Replacements(values));
      Rewrite(rules, quote, Rewrite(rules, quote, body)) == Rewrite(rules, quote, body)
  {
    var rules := Rules(Replacements(values));
    var once := Rewrite(rules, quote, body);
    RewriteResult(rules, quote, body);
    RewriteResult(rules, quote, once);
    if once != body && Rewrite(rules, quote, once) != once {
      var j :| 0 <= j < |rules| && rules[j].quote == quote && rules[j].from == body && once == rules[j].to;
      var i :| 0 <= i < |rules| && rules[i].quote == quote && rules[i].from == once
               && Rewrite(rules, quote, once) == rules[i].to;
      SecondMatchChains(values, quote, body, i, j);
    }
  }

  lemma SecondMatchChains(values: seq<string>, quote: char, body: string, i: nat, j: nat)
    requires |values| == |TOKENS| && BodyOK(quote, body)
    requires var rules := Rules(Replacements(values));
      i < |rules| && j < |rules| && rules[i].quote == rules[j].quote == quote
      && rules[j].from == body && rules[i].from == rules[j].to && i != j
    ensures !NoChain(values)
  {
    var rules := Rules(Replacements(values));
    if j < |TOKENS| {
      assert Chains(values, i, j);
    } else {
      assert rules[j].to[1..] == TOKENS[j - 2] && rules[i].from[1..] == values[i - 2];
      assert body[0] == ':' && body[1..] == values[j - 2];
      assert Chains(values, i - 2, j - 2);
    }
  }
}
