/**
 The license-expression classifier: a recursive-descent parser that evaluates while it
 parses.  `Expression` trees, their printer and `ClassOf` are the reference meaning.
 */
module LicenseExpression {
  import opened Prelude

  datatype Class =
    | Permissive | WeakCopyleft | StrongCopyleft | NetworkCopyleft
    | ElectionRequired | Proprietary | Unknown

  /** Position in the source's ORDER tuple, least to most restrictive. */
  function Rank(c: Class): nat {
    match c
    case Permissive => 0
    case WeakCopyleft => 1
    case StrongCopyleft => 2
    case NetworkCopyleft => 3
    case ElectionRequired => 4
    case Proprietary => 5
    case Unknown => 6
  }

  function MostRestrictive(a: Class, b: Class): Class {
    if Rank(b) > Rank(a) then b else a
  }

  // ---------------------------------------------------------------- identifiers

  const PERMISSIVE := {"MIT", "MIT-0", "MIT-CMU", "BSD-2-Clause", "BSD-3-Clause", "0BSD", "Apache-2.0", "ISC",
                       "PSF-2.0", "Zlib", "CC0-1.0", "Unlicense", "HPND", "BSL-1.0", "OFL-1.1"}
  const WEAK := {"MPL-2.0", "LGPL-2.1-only", "LGPL-2.1-or-later", "LGPL-3.0-only", "LGPL-3.0-or-later"}
  const STRONG := {"GPL-2.0-only", "GPL-2.0-or-later", "GPL-3.0-only", "GPL-3.0-or-later"}
  const NETWORK := {"AGPL-3.0-only", "AGPL-3.0-or-later"}

  function IdClass(identifier: string): Class {
    if identifier in PERMISSIVE then Permissive
    else if identifier in WEAK then WeakCopyleft
    else if identifier in STRONG then StrongCopyleft
    else if identifier in NETWORK then NetworkCopyleft
    else if "LicenseRef-" <= identifier then Proprietary
    else Unknown
  }

  /** `token.removesuffix("+")` before the lookup. */
  function WordClass(text: string): Class {
    IdClass(if text != "" && text[|text| - 1] == '+' then text[..|text| - 1] else text)
  }

  // ---------------------------------------------------------------- tokens

  datatype Token = Open | Close | KwAnd | KwOr | KwWith | Word(text: string)

  predicate IsWordChar(c: char) {
    'A' <= c <= 'Z' || 'a' <= c <= 'z' || '0' <= c <= '9' || c == '.' || c == '+' || c == ':' || c == '-'
  }

  /** The characters `\s` matches in a Python text pattern. */
  predicate IsSpace(c: char) {
    '\U{0009}' <= c <= '\U{000d}' || '\U{001c}' <= c <= ' ' || c == '\U{0085}' || c == '\U{00a0}' || c == '\U{1680}'
    || '\U{2000}' <= c <= '\U{200a}' || c == '\U{2028}' || c == '\U{2029}' || c == '\U{202f}' || c == '\U{205f}' || c == '\U{3000}'
  }

  function WordLength(s: string): (n: nat)
    ensures n <= |s| && (n < |s| ==> !IsWordChar(s[n]))
    ensures forall i :: 0 <= i < n ==> IsWordChar(s[i])
  {
    if s == "" || !IsWordChar(s[0]) then 0 else 1 + WordLength(s[1..])
  }

  function TokenOf(word: string): Token {
    if word == "AND" then KwAnd else if word == "OR" then KwOr else if word == "WITH" then KwWith else Word(word)
  }

  /** `TOKEN.findall`, refused when anything it skips is not white space. */
  function Lex(s: string): Option<seq<Token>>
    decreases |s|
  {
    if s == "" then Some([])
    else if IsSpace(s[0]) then Lex(s[1..])
    else if s[0] == '(' then Prepend(Open, Lex(s[1..]))
    else if s[0] == ')' then Prepend(Close, Lex(s[1..]))
    else if IsWordChar(s[0]) then Prepend(TokenOf(s[..WordLength(s)]), Lex(s[WordLength(s)..]))
    else None
  }

  function Prepend(t: Token, ts: Option<seq<Token>>): Option<seq<Token>> {
    if ts.Some? then Some([t] + ts.value) else None
  }

  // ---------------------------------------------------------------- the parser

  datatype Parsed = Fail | Done(value: Class, rest: seq<Token>)

  /** One shared class when all alternatives agree. */
  function Shared(values: seq<Class>): Class
    requires values != []
  {
    if forall i :: 0 <= i < |values| ==> values[i] == values[0] then values[0] else ElectionRequired
  }

  predicate Starts(ts: seq<Token>, t: Token) {
    ts != [] && ts[0] == t
  }

  function ParseOperand(ts: seq<Token>): (p: Parsed)
    ensures p.Done? ==> |p.rest| < |ts|
    decreases |ts|, 0
  {
    if ts == [] then Fail
    else match ts[0]
      case Open =>
        var inner := ParseAlternatives(ts[1..]);
        if inner.Done? && inner.rest != [] && inner.rest[0] == Close then Done(inner.value, inner.rest[1..]) else Fail
      case Word(text) =>
        if |ts| > 1 && ts[1] == KwWith then
          if |ts| > 2 then Done(WordClass(text), ts[3..]) else Fail
        else Done(WordClass(text), ts[1..])
      case _ => Fail
  }

  function ParseConjunction(ts: seq<Token>): (p: Parsed)
    ensures p.Done? ==> |p.rest| < |ts|
    decreases |ts|, 1
  {
    var first := ParseOperand(ts);
    if first.Done? then ConjunctionTail(first.value, first.rest) else Fail
  }

  function ConjunctionTail(value: Class, ts: seq<Token>): (p: Parsed)
    ensures p.Done? ==> |p.rest| <= |ts|
    decreases |ts|, 2
  {
    if ts != [] && ts[0] == KwAnd then
      var next := ParseOperand(ts[1..]);
      if next.Done? then ConjunctionTail(MostRestrictive(value, next.value), next.rest) else Fail
    else Done(value, ts)
  }

  function ParseAlternatives(ts: seq<Token>): (p: Parsed)
    ensures p.Done? ==> |p.rest| < |ts|
    decreases |ts|, 3
  {
    var first := ParseConjunction(ts);
    if first.Done? then AlternativesTail([first.value], first.rest) else Fail
  }

  function AlternativesTail(values: seq<Class>, ts: seq<Token>): (p: Parsed)
    requires values != []
    ensures p.Done? ==> |p.rest| <= |ts|
    decreases |ts|, 4
  {
    if ts != [] && ts[0] == KwOr then
      var next := ParseConjunction(ts[1..]);
      if next.Done? then AlternativesTail(values + [next.value], next.rest) else Fail
    else Done(Shared(values), ts)
  }

  function ConjunctionFrom(value: Class, next: Parsed): Parsed {
    if next.Done? then ConjunctionTail(MostRestrictive(value, next.value), next.rest) else Fail
  }

  function AlternativesFrom(values: seq<Class>, next: Parsed): Parsed {
    if next.Done? then AlternativesTail(values + [next.value], next.rest) else Fail
  }

  lemma ConjunctionStep(value: Class, ts: seq<Token>, next: Parsed)
    requires Starts(ts, KwAnd) && next == ParseOperand(ts[1..])
    ensures ConjunctionTail(value, ts) == ConjunctionFrom(value, next)
  {
  }

  lemma AlternativesStep(values: seq<Class>, ts: seq<Token>, next: Parsed)
    requires values != [] && Starts(ts, KwOr) && next == ParseConjunction(ts[1..])
    ensures AlternativesTail(values, ts) == AlternativesFrom(values, next)
  {
  }

  /** The classification of a token list: everything must be consumed. */
  function TokensClass(ts: seq<Token>): Class {
    var p := ParseAlternatives(ts);
    if p.Done? && p.rest == [] then p.value else Unknown
  }

  function ExpressionClass(expression: string, elected: Option<string>): Class {
    var ts := Lex(if elected.Some? && elected.value != "" then elected.value else expression);
    if ts.Some? && ts.value != [] then TokensClass(ts.value) else Unknown
  }

  /** The source's closure over `tokens` and `position`; a raised exception is `None`. */
  class Parser {
    const tokens: seq<Token>
    var position: nat

    ghost predicate Valid()
      reads this
    {
      position <= |tokens|
    }

    constructor (tokens: seq<Token>)
      ensures this.tokens == tokens && position == 0
    {
      this.tokens := tokens;
      position := 0;
    }

    method Operand() returns (r: Option<Class>)
      requires Valid()
      modifies this
      ensures r.Some? ==> Valid() && ParseOperand(old(tokens[position..])) == Done(r.value, tokens[position..])
      ensures r.None? ==> ParseOperand(old(tokens[position..])) == Fail
      decreases |tokens| - position, 0
    {
      ghost var start := position;
      position := position + 1;
      if position > |tokens| {
        return None;
      }
      assert tokens[start..][1..] == tokens[position..];
      match tokens[position - 1]
      case Open =>
        var value := Alternatives();
        if value.None? || position == |tokens| || tokens[position] != Close {
          return None;
        }
        assert tokens[position..][1..] == tokens[position + 1..];
        position := position + 1;
        return value;
      case Word(text) =>
        if position < |tokens| && tokens[position] == KwWith {
          position := position + 2;
          if position > |tokens| {
            return None;
          }
          assert tokens[start..][3..] == tokens[position..];
        }
        return Some(WordClass(text));
      case _ =>
        return None;
    }

    method Conjunction() returns (r: Option<Class>)
      requires Valid()
      modifies this
      ensures r.Some? ==> Valid() && ParseConjunction(old(tokens[position..])) == Done(r.value, tokens[position..])
      ensures r.None? ==> ParseConjunction(old(tokens[position..])) == Fail
      decreases |tokens| - position, 1
    {
      ghost var start, goal := position, ParseConjunction(tokens[position..]);
      r := Operand();
      while r.Some? && position < |tokens| && tokens[position] == KwAnd
        invariant r.Some? ==> start < position <= |tokens| && goal == ConjunctionTail(r.value, tokens[position..])
        invariant r.None? ==> goal == Fail
        decreases r.Some?, |tokens| - position
      {
        ghost var value, ts := r.value, tokens[position..];
        position := position + 1;
        ghost var p := ParseOperand(tokens[position..]);
        assert goal == ConjunctionFrom(value, p) by {
          assert ts[1..] == tokens[position..];
          ConjunctionStep(value, ts, p);
        }
        var next := Operand();
        r := if next.Some? then Some(MostRestrictive(r.value, next.value)) else None;
      }
    }

    method Alternatives() returns (r: Option<Class>)
      requires Valid()
      modifies this
      ensures r.Some? ==> Valid() && ParseAlternatives(old(tokens[position..])) == Done(r.value, tokens[position..])
      ensures r.None? ==> ParseAlternatives(old(tokens[position..])) == Fail
      decreases |tokens| - position, 2
    {
      ghost var start, goal := position, ParseAlternatives(tokens[position..]);
      var next := Conjunction();
      var values := if next.Some? then [next.value] else [];
      while next.Some? && position < |tokens| && tokens[position] == KwOr
        invariant next.Some? ==> start < position <= |tokens| && values != []
        invariant next.Some? ==> goal == AlternativesTail(values, tokens[position..])
        invariant next.None? ==> goal == Fail
        decreases next.Some?, |tokens| - position
      {
        ghost var ts := tokens[position..];
        position := position + 1;
        ghost var p := ParseConjunction(tokens[position..]);
        assert goal == AlternativesFrom(values, p) by {
          assert ts[1..] == tokens[position..];
          AlternativesStep(values, ts, p);
        }
        next := Conjunction();
        values := values + if next.Some? then [next.value] else [];
      }
      r := if next.Some? then Some(Shared(values)) else None;
    }
  }

  /** `expression_class`, an election replacing the expression when one is recorded. */
  method Classify(expression: string, elected: Option<string>) returns (c: Class)
    ensures c == ExpressionClass(expression, elected)
  {
    var ts := Lex(if elected.Some? && elected.value != "" then elected.value else expression);
    if ts.None? || ts.value == [] {
      return Unknown;
    }
    var parser := new Parser(ts.value);
    assert parser.tokens[0..] == ts.value;
    var value := parser.Alternatives();
    assert value.Some? ==> (parser.position == |ts.value| <==> parser.tokens[parser.position..] == []);
    c := if value.Some? && parser.position == |ts.value| then value.value else Unknown;
  }

  // ---------------------------------------------------------------- expression trees

  datatype Expression =
    | Id(name: string)
    | IdWith(name: string, exception: Token)
    | Group(inner: Expression)
    | AllOf(left: Expression, right: Expression)
    | AnyOf(left: Expression, right: Expression)

  /** AND takes the most restrictive operand; OR the shared class; WITH the class of its base. */
  function ClassOf(e: Expression): Class {
    match e
    case Id(name) => WordClass(name)
    case IdWith(name, _) => WordClass(name)
    case Group(inner) => ClassOf(inner)
    case AllOf(left, right) => MostRestrictive(ClassOf(left), ClassOf(right))
    case AnyOf(left, right) => if ClassOf(left) == ClassOf(right) then ClassOf(left) else ElectionRequired
  }

  function Identifiers(e: Expression): set<string> {
    match e
    case Id(name) => {name}
    case IdWith(name, _) => {name}
    case Group(inner) => Identifiers(inner)
    case AllOf(left, right) => Identifiers(left) + Identifiers(right)
    case AnyOf(left, right) => Identifiers(left) + Identifiers(right)
  }

  /** Parentheses are printed only where the grammar needs them. */
  function Print(e: Expression): seq<Token>
    decreases e, if e.AnyOf? then 0 else if e.AllOf? then 1 else 2
  {
    match e
    case AnyOf(left, right) => Print(left) + [KwOr] + PrintConjunction(right)
    case _ => PrintConjunction(e)
  }

  function PrintConjunction(e: Expression): seq<Token>
    decreases e, if e.AnyOf? then 2 else if e.AllOf? then 0 else 1
  {
    match e
    case AllOf(left, right) => PrintConjunction(left) + [KwAnd] + PrintOperand(right)
    case _ => PrintOperand(e)
  }

  function PrintOperand(e: Expression): seq<Token>
    decreases e, if e.AnyOf? then 1 else if e.AllOf? then 2 else 0
  {
    match e
    case Id(name) => [Word(name)]
    case IdWith(name, exception) => [Word(name), KwWith, exception]
    case Group(inner) => [Open] + Print(inner) + [Close]
    case _ => [Open] + Print(e) + [Close]
  }

  // ---------------------------------------------------------------- printed trees parse to their class

  /** The operands of a left-nested OR chain, as the `values` list collects them. */
  function Values(e: Expression): (vs: seq<Class>)
    ensures vs != []
  {
    match e
    case AnyOf(left, right) => Values(left) + [ClassOf(right)]
    case _ => [ClassOf(e)]
  }

  lemma {:induction false} SharedIsClass(e: Expression)
    ensures Shared(Values(e)) == ClassOf(e)
  {
    if e.AnyOf? {
      SharedIsClass(e.left);
      var vs := Values(e.left);
      assert forall i :: 0 <= i < |vs| ==> Values(e)[i] == vs[i];
      assert Values(e)[|vs|] == ClassOf(e.right);
    }
  }

  lemma {:induction false} OperandParses(e: Expression, rest: seq<Token>)
    requires !Starts(rest, KwWith)
    ensures ParseOperand(PrintOperand(e) + rest) == Done(ClassOf(e), rest)
    decreases e, if e.AnyOf? then 1 else if e.AllOf? then 2 else 0
  {
    var ts := PrintOperand(e) + rest;
    match e
    case Id(name) =>
      assert ts[1..] == rest;
    case IdWith(name, exception) =>
      assert ts[3..] == rest;
    case Group(inner) =>
      AlternativesParse(inner, [Close] + rest);
      BracketParses(inner, rest);
    case _ =>
      AlternativesParse(e, [Close] + rest);
      BracketParses(e, rest);
  }

  lemma BracketParses(inner: Expression, rest: seq<Token>)
    requires ParseAlternatives(Print(inner) + ([Close] + rest)) == AlternativesTail(Values(inner), [Close] + rest)
    ensures ParseOperand([Open] + Print(inner) + [Close] + rest) == Done(ClassOf(inner), rest)
  {
    var ts := [Open] + Print(inner) + [Close] + rest;
    assert ts[1..] == Print(inner) + ([Close] + rest);
    SharedIsClass(inner);
    assert ([Close] + rest)[1..] == rest;
  }

  lemma {:induction false} ConjunctionParses(e: Expression, rest: seq<Token>)
    requires !Starts(rest, KwWith)
    ensures ParseConjunction(PrintConjunction(e) + rest) == ConjunctionTail(ClassOf(e), rest)
    decreases e, if e.AnyOf? then 2 else if e.AllOf? then 0 else 1
  {
    if e.AllOf? {
      var tail := [KwAnd] + (PrintOperand(e.right) + rest);
      assert tail[1..] == PrintOperand(e.right) + rest;
      assert PrintConjunction(e) + rest == PrintConjunction(e.left) + tail;
      ConjunctionParses(e.left, tail);
      OperandParses(e.right, rest);
      ConjunctionStep(ClassOf(e.left), tail, Done(ClassOf(e.right), rest));
    } else {
      OperandParses(e, rest);
    }
  }

  lemma {:induction false} AlternativesParse(e: Expression, rest: seq<Token>)
    requires !Starts(rest, KwWith) && !Starts(rest, KwAnd)
    ensures ParseAlternatives(Print(e) + rest) == AlternativesTail(Values(e), rest)
    decreases e, if e.AnyOf? then 0 else if e.AllOf? then 1 else 2
  {
    if e.AnyOf? {
      var tail := [KwOr] + (PrintConjunction(e.right) + rest);
      assert tail[1..] == PrintConjunction(e.right) + rest;
      assert Print(e) + rest == Print(e.left) + tail;
      AlternativesParse(e.left, tail);
      ConjunctionParses(e.right, rest);
    } else {
      ConjunctionParses(e, rest);
    }
  }

  /** Completeness: the printed form of every tree is classified as the tree. */
  lemma PrintedClass(e: Expression)
    ensures TokensClass(Print(e)) == ClassOf(e)
  {
    AlternativesParse(e, []);
    SharedIsClass(e);
    assert Print(e) + [] == Print(e);
  }

  // ---------------------------------------------------------------- what parses is a printed tree

  lemma {:induction false} OperandSound(ts: seq<Token>) returns (e: Expression)
    requires ParseOperand(ts).Done?
    ensures !e.AllOf? && !e.AnyOf?
    ensures ts == PrintOperand(e) + ParseOperand(ts).rest && ClassOf(e) == ParseOperand(ts).value
    decreases |ts|, 0
  {
    match ts[0]
    case Open =>
      var inner := AlternativesSound(ts[1..]);
      e := Group(inner);
      GroupPrints(inner, ts, ParseAlternatives(ts[1..]).rest);
    case Word(text) =>
      e := WordSound(ts);
  }

  lemma GroupPrints(inner: Expression, ts: seq<Token>, rest: seq<Token>)
    requires ts != [] && ts[0] == Open && ts[1..] == Print(inner) + rest && rest != [] && rest[0] == Close
    ensures ts == PrintOperand(Group(inner)) + rest[1..]
  {
    assert rest == [Close] + rest[1..];
    assert ts == [Open] + (Print(inner) + rest);
  }

  lemma WordSound(ts: seq<Token>) returns (e: Expression)
    requires ts != [] && ts[0].Word? && ParseOperand(ts).Done?
    ensures e.Id? || e.IdWith?
    ensures ts == PrintOperand(e) + ParseOperand(ts).rest && ClassOf(e) == ParseOperand(ts).value
  {
    e := if |ts| > 1 && ts[1] == KwWith then IdWith(ts[0].text, ts[2]) else Id(ts[0].text);
  }

  lemma {:induction false} ConjunctionSound(ts: seq<Token>) returns (e: Expression)
    requires ParseConjunction(ts).Done?
    ensures !e.AnyOf?
    ensures ts == PrintConjunction(e) + ParseConjunction(ts).rest && ClassOf(e) == ParseConjunction(ts).value
    decreases |ts|, 1
  {
    var first := OperandSound(ts);
    e := ConjunctionTailSound(first, ParseOperand(ts).rest);
  }

  lemma ConjunctionPrintGrows(soFar: Expression, next: Expression, ts: seq<Token>, rest: seq<Token>)
    requires Starts(ts, KwAnd) && ts[1..] == PrintOperand(next) + rest
    ensures PrintConjunction(soFar) + ts == PrintConjunction(AllOf(soFar, next)) + rest
  {
  }

  lemma AlternativesPrintGrows(soFar: Expression, next: Expression, ts: seq<Token>, rest: seq<Token>)
    requires Starts(ts, KwOr) && ts[1..] == PrintConjunction(next) + rest
    ensures Print(soFar) + ts == Print(AnyOf(soFar, next)) + rest
  {
  }

  lemma {:induction false} ConjunctionTailSound(soFar: Expression, ts: seq<Token>) returns (e: Expression)
    requires !soFar.AnyOf? && ConjunctionTail(ClassOf(soFar), ts).Done?
    ensures !e.AnyOf?
    ensures PrintConjunction(soFar) + ts == PrintConjunction(e) + ConjunctionTail(ClassOf(soFar), ts).rest
    ensures ClassOf(e) == ConjunctionTail(ClassOf(soFar), ts).value
    decreases |ts|, 2
  {
    if Starts(ts, KwAnd) {
      var next := OperandSound(ts[1..]);
      var p := ParseOperand(ts[1..]);
      ConjunctionStep(ClassOf(soFar), ts, p);
      ConjunctionPrintGrows(soFar, next, ts, p.rest);
      e := ConjunctionTailSound(AllOf(soFar, next), p.rest);
    } else {
      e := soFar;
    }
  }

  lemma {:induction false} AlternativesSound(ts: seq<Token>) returns (e: Expression)
    requires ParseAlternatives(ts).Done?
    ensures ts == Print(e) + ParseAlternatives(ts).rest && ClassOf(e) == ParseAlternatives(ts).value
    decreases |ts|, 3
  {
    var first := ConjunctionSound(ts);
    e := AlternativesTailSound(first, ParseConjunction(ts).rest);
  }

  lemma {:induction false} AlternativesTailSound(soFar: Expression, ts: seq<Token>) returns (e: Expression)
    requires AlternativesTail(Values(soFar), ts).Done?
    ensures Print(soFar) + ts == Print(e) + AlternativesTail(Values(soFar), ts).rest
    ensures ClassOf(e) == AlternativesTail(Values(soFar), ts).value
    decreases |ts|, 4
  {
    if Starts(ts, KwOr) {
      var next := ConjunctionSound(ts[1..]);
      var p := ParseConjunction(ts[1..]);
      AlternativesStep(Values(soFar), ts, p);
      AlternativesPrintGrows(soFar, next, ts, p.rest);
      e := AlternativesTailSound(AnyOf(soFar, next), p.rest);
    } else {
      e := soFar;
      SharedIsClass(e);
    }
  }

  /** Soundness: a token list classified at all is the printed form of a tree of that class. */
  lemma ClassifiedIsPrinted(ts: seq<Token>)
    requires TokensClass(ts) != Unknown
    ensures exists e :: ts == Print(e) && ClassOf(e) == TokensClass(ts)
  {
    var e := AlternativesSound(ts);
    assert ts == Print(e);
  }

  /** The parser reads only printed trees; everything else, and only that, fails. */
  lemma ParsesIffPrinted(ts: seq<Token>)
    ensures (ParseAlternatives(ts).Done? && ParseAlternatives(ts).rest == []) <==> exists e :: ts == Print(e)
  {
    if ParseAlternatives(ts).Done? && ParseAlternatives(ts).rest == [] {
      var e := AlternativesSound(ts);
      assert ts == Print(e);
    }
    if e :| ts == Print(e) {
      AlternativesParse(e, []);
      assert Print(e) + [] == ts;
    }
  }

  /** A permissive tree has only permissive identifiers, whatever its connectives. */
  lemma {:induction false} PermissiveMeansAllPermissive(e: Expression)
    ensures ClassOf(e) == Permissive <==> forall name :: name in Identifiers(e) ==> WordClass(name) == Permissive
  {
    match e
    case Id(_) =>
    case IdWith(_, _) =>
    case Group(inner) => PermissiveMeansAllPermissive(inner);
    case AllOf(left, right) =>
      PermissiveMeansAllPermissive(left);
      PermissiveMeansAllPermissive(right);
    case AnyOf(left, right) =>
      PermissiveMeansAllPermissive(left);
      PermissiveMeansAllPermissive(right);
      NonEmptyIdentifiers(left);
  }

  lemma {:induction false} NonEmptyIdentifiers(e: Expression)
    ensures Identifiers(e) != {}
  {
    match e
    case Id(name) => assert name in Identifiers(e);
    case IdWith(name, _) => assert name in Identifiers(e);
    case Group(inner) => NonEmptyIdentifiers(inner);
    case AllOf(left, _) => NonEmptyIdentifiers(left);
    case AnyOf(left, _) => NonEmptyIdentifiers(left);
  }

  // ---------------------------------------------------------------- the text form

  function Text(t: Token): string {
    match t
    case Open => "("
    case Close => ")"
    case KwAnd => "AND"
    case KwOr => "OR"
    case KwWith => "WITH"
    case Word(text) => text
  }

  function Render(ts: seq<Token>): string {
    if ts == [] then "" else Text(ts[0]) + " " + Render(ts[1..])
  }

  /** A token the text form can carry: words are non-empty, of word characters, and no keyword. */
  predicate Spelled(t: Token) {
    t.Word? ==> t.text != "" && (forall i :: 0 <= i < |t.text| ==> IsWordChar(t.text[i])) && TokenOf(t.text) == t
  }

  lemma {:induction false} WordLengthIs(word: string, rest: string)
    requires forall i :: 0 <= i < |word| ==> IsWordChar(word[i])
    requires rest == "" || !IsWordChar(rest[0])
    ensures WordLength(word + rest) == |word|
  {
    if word != "" {
      assert (word + rest)[1..] == word[1..] + rest;
      WordLengthIs(word[1..], rest);
    } else {
      assert word + rest == rest;
    }
  }

  lemma LexToken(t: Token, tail: string)
    requires Spelled(t) && tail != "" && tail[0] == ' '
    ensures Lex(Text(t) + tail) == Prepend(t, Lex(tail))
  {
    var s := Text(t) + tail;
    if t.Open? || t.Close? {
      assert s[1..] == tail;
    } else {
      var word := Text(t);
      assert forall i :: 0 <= i < |word| ==> IsWordChar(word[i]);
      WordLengthIs(word, tail);
      assert s[..|word|] == word && s[|word|..] == tail;
      LexWord(s);
    }
  }

  lemma LexWord(s: string)
    requires s != "" && IsWordChar(s[0])
    ensures Lex(s) == Prepend(TokenOf(s[..WordLength(s)]), Lex(s[WordLength(s)..]))
  {
  }

  lemma {:induction false} LexRender(ts: seq<Token>)
    requires forall i :: 0 <= i < |ts| ==> Spelled(ts[i])
    ensures Lex(Render(ts)) == Some(ts)
  {
    if ts != [] {
      LexRender(ts[1..]);
      LexCons(ts[0], Render(ts[1..]), ts[1..]);
      assert Render(ts) == Text(ts[0]) + " " + Render(ts[1..]) && ts == [ts[0]] + ts[1..];
    }
  }

  lemma LexCons(t: Token, rest: string, ts: seq<Token>)
    requires Spelled(t) && Lex(rest) == Some(ts)
    ensures Lex(Text(t) + " " + rest) == Some([t] + ts)
  {
    var tail := " " + rest;
    assert Text(t) + " " + rest == Text(t) + tail;
    LexToken(t, tail);
    LexSpace(rest);
  }

  lemma LexSpace(rest: string)
    ensures Lex(" " + rest) == Lex(rest)
  {
    assert (" " + rest)[1..] == rest;
  }

  /** End to end: the text of every spellable tree is classified as the tree. */
  lemma ExpressionTextClass(e: Expression)
    requires forall i :: 0 <= i < |Print(e)| ==> Spelled(Print(e)[i])
    ensures ExpressionClass(Render(Print(e)), None) == ClassOf(e)
  {
    LexRender(Print(e));
    PrintedClass(e);
    if Print(e) == [] {
      assert ParseAlternatives([]) == Fail;
      AlternativesParse(e, []);
    }
  }

  /** End to end: a permissive answer names an expression all of whose identifiers are permissive. */
  lemma PermissiveAnswer(expression: string, elected: Option<string>)
    requires ExpressionClass(expression, elected) == Permissive
    ensures exists e ::
              Lex(if elected.Some? && elected.value != "" then elected.value else expression) == Some(Print(e))
              && forall name :: name in Identifiers(e) ==> WordClass(name) == Permissive
  {
    var ts := Lex(if elected.Some? && elected.value != "" then elected.value else expression).value;
    ClassifiedIsPrinted(ts);
    var e :| ts == Print(e) && ClassOf(e) == Permissive;
    PermissiveMeansAllPermissive(e);
  }
}
