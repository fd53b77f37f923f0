/** Operator precedence, the parse-rule table and the parser's two tokens of
    lookahead, as in `src/parse.rs`. */
module Parse {
  import opened Wrappers
  import opened Tokens

  /** Precedence levels, lowest first. */
  datatype Precedence =
    | None | Assignment | Or | And | Equality | Comparison
    | Term | Factor | Unary | Call | Primary

  /** The position of a level in declaration order; the derived ordering
      compares levels by this position. */
  function Level(p: Precedence): (n: nat)
    ensures n <= 10
    ensures n == 0 <==> p == Precedence.None
    ensures n == 10 <==> p == Primary
  {
    match p
    case None => 0
    case Assignment => 1
    case Or => 2
    case And => 3
    case Equality => 4
    case Comparison => 5
    case Term => 6
    case Factor => 7
    case Unary => 8
    case Call => 9
    case Primary => 10
  }

  /** The levels in declaration order. */
  const Levels: seq<Precedence> :=
    [Precedence.None, Assignment, Precedence.Or, Precedence.And, Equality, Comparison,
     Term, Factor, Precedence.Unary, Call, Primary]

  /** `<=` on precedence levels. */
  predicate AtMost(a: Precedence, b: Precedence) {
    Level(a) <= Level(b)
  }

  /** The ordering is the declaration order: the level at position `i` has
      ordinal `i`, so distinct levels compare strictly. */
  lemma LevelsInDeclarationOrder()
    ensures |Levels| == 11
    ensures forall i :: 0 <= i < |Levels| ==> Level(Levels[i]) == i
    ensures forall a, b :: Level(a) == Level(b) ==> a == b
  {
    forall a, b | Level(a) == Level(b)
      ensures a == b
    {
      LevelInjective(a, b);
    }
  }

  lemma LevelInjective(a: Precedence, b: Precedence)
    requires Level(a) == Level(b)
    ensures a == b
  {
    match a
    case None =>
    case Assignment =>
    case Or =>
    case And =>
    case Equality =>
    case Comparison =>
    case Term =>
    case Factor =>
    case Unary =>
    case Call =>
    case Primary =>
  }

  /** The ordering is total. */
  lemma AtMostTotal(a: Precedence, b: Precedence)
    ensures AtMost(a, b) || AtMost(b, a)
    ensures AtMost(a, b) && AtMost(b, a) ==> a == b
  {
    if Level(a) == Level(b) {
      LevelInjective(a, b);
    }
  }

  /** The ordering the source's own test checks. */
  lemma AssignmentBelowTerm()
    ensures AtMost(Assignment, Term) && !AtMost(Term, Assignment)
  {
  }

  /** The successor of a level; the highest level is its own successor. */
  function Next(p: Precedence): (q: Precedence)
    ensures p != Primary ==> Level(q) == Level(p) + 1
    ensures p == Primary ==> q == Primary
    ensures AtMost(p, q)
  {
    match p
    case None => Assignment
    case Assignment => Precedence.Or
    case Or => Precedence.And
    case And => Equality
    case Equality => Comparison
    case Comparison => Term
    case Term => Factor
    case Factor => Precedence.Unary
    case Unary => Call
    case Call => Primary
    case Primary => Primary
  }

  /** The parser action a rule names. */
  datatype ParseFn = Binary | Grouping | Unary | Number | Literal | String | None

  datatype ParseRule = ParseRule(prefix: ParseFn, infix: ParseFn, precedence: Precedence)

  predicate IsBinaryOperator(tt: TokenType) {
    tt in {Minus, Plus, Slash, Star, BangEqual, EqualEqual, Greater, GreaterEqual, Less, LessEqual}
  }

  /** The static rule table. */
  function GetRule(tt: TokenType): (r: ParseRule)
    // only the binary operators have an infix action, and the precedence
    // belongs to the infix action
    ensures r.infix == ParseFn.Binary <==> IsBinaryOperator(tt)
    ensures r.infix == ParseFn.None <==> !IsBinaryOperator(tt)
    ensures r.infix == ParseFn.None ==> r.precedence == Precedence.None
    ensures tt in {Minus, Plus} <==> r.precedence == Term
    ensures tt in {Star, Slash} <==> r.precedence == Factor
    ensures tt in {BangEqual, EqualEqual} <==> r.precedence == Equality
    ensures tt in {Greater, GreaterEqual, Less, LessEqual} <==> r.precedence == Comparison
    // prefix actions
    ensures r.prefix == ParseFn.Grouping <==> tt == LeftParen
    ensures r.prefix == ParseFn.Unary <==> tt in {Minus, Bang}
    ensures r.prefix == ParseFn.Number <==> tt == TokenType.Number
    ensures r.prefix == ParseFn.String <==> tt == TokenType.String
    ensures r.prefix == Literal <==> tt in {False, Nil, True}
    ensures r.prefix != ParseFn.Binary
    // Minus is the one category with both a prefix and an infix action
    ensures r.prefix != ParseFn.None && r.infix != ParseFn.None <==> tt == Minus
  {
    match tt
    case LeftParen => ParseRule(ParseFn.Grouping, ParseFn.None, Precedence.None)
    case Minus => ParseRule(ParseFn.Unary, ParseFn.Binary, Term)
    case Plus => ParseRule(ParseFn.None, ParseFn.Binary, Term)
    case Slash => ParseRule(ParseFn.None, ParseFn.Binary, Factor)
    case Star => ParseRule(ParseFn.None, ParseFn.Binary, Factor)
    case Bang => ParseRule(ParseFn.Unary, ParseFn.None, Precedence.None)
    case BangEqual => ParseRule(ParseFn.None, ParseFn.Binary, Equality)
    case EqualEqual => ParseRule(ParseFn.None, ParseFn.Binary, Equality)
    case Greater => ParseRule(ParseFn.None, ParseFn.Binary, Comparison)
    case GreaterEqual => ParseRule(ParseFn.None, ParseFn.Binary, Comparison)
    case Less => ParseRule(ParseFn.None, ParseFn.Binary, Comparison)
    case LessEqual => ParseRule(ParseFn.None, ParseFn.Binary, Comparison)
    case String => ParseRule(ParseFn.String, ParseFn.None, Precedence.None)
    case Number => ParseRule(ParseFn.Number, ParseFn.None, Precedence.None)
    case False => ParseRule(Literal, ParseFn.None, Precedence.None)
    case Nil => ParseRule(Literal, ParseFn.None, Precedence.None)
    case True => ParseRule(Literal, ParseFn.None, Precedence.None)
    case _ => ParseRule(ParseFn.None, ParseFn.None, Precedence.None)
  }

  /** The parser record as a value. */
  datatype ParserState = ParserState(
    current: Option<Token>, previous: Option<Token>, hadError: bool, panicMode: bool)

  /** `Parser::advance`: the lookahead token becomes the previous one and the
      lookahead slot is emptied; the flags are untouched. */
  function AdvanceParser(p: ParserState): (q: ParserState)
    ensures q.previous == p.current && q.current == Option.None
    ensures q.hadError == p.hadError && q.panicMode == p.panicMode
  {
    p.(previous := p.current, current := Option.None)
  }

  class Parser {
    var current: Option<Token>
    var previous: Option<Token>
    var hadError: bool
    var panicMode: bool

    function State(): ParserState
      reads this
    {
      ParserState(current, previous, hadError, panicMode)
    }

    constructor ()
      ensures current == Option.None && previous == Option.None
      ensures !hadError && !panicMode
    {
      current, previous := Option.None, Option.None;
      hadError, panicMode := false, false;
    }

    method Advance()
      modifies this
      ensures State() == AdvanceParser(old(State()))
    {
      previous := current;
      current := Option.None;
    }
  }
}
