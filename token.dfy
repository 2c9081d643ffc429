/**
 * The token vocabulary of the Lox scanner: source locations, and the closed
 * sets of punctuation, operators and keywords with their two-way spelling
 * tables (`Into` one way, `TryFrom` the other).
 */
module Tokens {
  import opened Wrappers
  import opened Numerals

  // ---------------------------------------------------------------------
  // Location
  // ---------------------------------------------------------------------

  /** A 1-based (line, column) position in the source text. */
  datatype Location = Location(line: nat, column: nat)

  datatype Ordering = Less | Equal | Greater

  function CompareNat(a: nat, b: nat): (r: Ordering)
    ensures r == Ordering.Equal <==> a == b
    ensures r == Ordering.Less <==> a < b
  {
    if a < b then Ordering.Less else if a == b then Ordering.Equal else Ordering.Greater
  }

  /**
   * The derived `Ord` of `Location`: fields compared in declaration order,
   * the column deciding only between equal lines.
   */
  function CompareLocation(a: Location, b: Location): (r: Ordering)
    ensures r == Ordering.Equal <==> a == b
    ensures r == Ordering.Less <==> a.line < b.line || (a.line == b.line && a.column < b.column)
  {
    var byLine := CompareNat(a.line, b.line);
    if byLine == Ordering.Equal then CompareNat(a.column, b.column) else byLine
  }

  /** Swapping the operands swaps Less and Greater. */
  lemma CompareLocationAntisymmetric(a: Location, b: Location)
    ensures CompareLocation(a, b) == Ordering.Less <==> CompareLocation(b, a) == Ordering.Greater
  {
  }

  /** The order is transitive, so token streams can be sorted by position. */
  lemma CompareLocationTransitive(a: Location, b: Location, c: Location)
    requires CompareLocation(a, b) == Ordering.Less && CompareLocation(b, c) == Ordering.Less
    ensures CompareLocation(a, c) == Ordering.Less
  {
  }

  /** `Display` for `Location`: `[at line:column]`. */
  function ShowLocation(loc: Location): (s: string)
    ensures |s| >= 8 && s[..4] == "[at " && s[|s| - 1] == ']'
  {
    "[at " + Decimal(loc.line) + ":" + Decimal(loc.column) + "]"
  }

  /** Position of the first `c` in `s`, or `|s|` when there is none. */
  function IndexOf(s: string, c: char): (k: nat)
    ensures k <= |s|
    ensures forall i :: 0 <= i < k ==> s[i] != c
    ensures k < |s| ==> s[k] == c
  {
    if s == [] then 0 else if s[0] == c then 0 else 1 + IndexOf(s[1..], c)
  }

  /** Reads back a rendered location; the partner of `ShowLocation`. */
  function ParseLocation(s: string): Option<Location> {
    if |s| < 5 || s[..4] != "[at " || s[|s| - 1] != ']' then None
    else
      var body := s[4..|s| - 1];
      var k := IndexOf(body, ':');
      if k == |body| then None
      else
        var line, column := body[..k], body[k + 1..];
        if line != [] && column != [] && AllDigits(line) && AllDigits(column)
        then Some(Location(DecimalValue(line), DecimalValue(column)))
        else None
  }

  /** The rendering of a location can be read back: it loses nothing. */
  lemma {:induction false} ParseShowLocation(loc: Location)
    ensures ParseLocation(ShowLocation(loc)) == Some(loc)
  {
    var l, c := Decimal(loc.line), Decimal(loc.column);
    var s := ShowLocation(loc);
    var body := s[4..|s| - 1];
    assert body == l + ":" + c;
    var k := IndexOf(body, ':');
    assert body[|l|] == ':';
    assert IsDigit(body[k]) ==> k != |l| by {
      if k < |l| { assert body[k] == l[k]; }
    }
    assert k == |l|;
    assert body[..k] == l;
    assert body[k + 1..] == c;
    DecimalRoundTrip(loc.line);
    DecimalRoundTrip(loc.column);
  }

  /** Two locations that render the same are the same location. */
  lemma ShowLocationInjective(a: Location, b: Location)
    ensures ShowLocation(a) == ShowLocation(b) ==> a == b
  {
    ParseShowLocation(a);
    ParseShowLocation(b);
  }

  // ---------------------------------------------------------------------
  // Punctuation, operators and keywords
  // ---------------------------------------------------------------------

  datatype TokenParseError = InvalidToken

  datatype Punctuation =
    | ParenLeft | ParenRight | BraceLeft | BraceRight | Comma | Dot | Semicolon

  /** `Into<char>` for `Punctuation`. */
  function PunctuationChar(p: Punctuation): (c: char)
    ensures c in "(){},.;"
  {
    match p
    case ParenLeft => '('
    case ParenRight => ')'
    case BraceLeft => '{'
    case BraceRight => '}'
    case Comma => ','
    case Dot => '.'
    case Semicolon => ';'
  }

  /** `TryFrom<char>` for `Punctuation`: exactly the seven spellings are accepted. */
  function PunctuationFromChar(c: char): (r: Result<Punctuation, TokenParseError>)
    ensures r.Ok? ==> PunctuationChar(r.value) == c
    ensures r.Err? <==> forall p :: PunctuationChar(p) != c
    ensures r.Err? ==> r.error == InvalidToken
  {
    match c
    case '(' => Ok(ParenLeft)
    case ')' => Ok(ParenRight)
    case '{' => Ok(BraceLeft)
    case '}' => Ok(BraceRight)
    case ',' => Ok(Comma)
    case '.' => Ok(Dot)
    case ';' => Ok(Semicolon)
    case _ => Err(InvalidToken)
  }

  lemma PunctuationRoundTrip(p: Punctuation)
    ensures PunctuationFromChar(PunctuationChar(p)) == Ok(p)
  {
  }

  lemma PunctuationCharInjective(p: Punctuation, q: Punctuation)
    ensures PunctuationChar(p) == PunctuationChar(q) ==> p == q
  {
    PunctuationRoundTrip(p);
    PunctuationRoundTrip(q);
  }

  datatype Operator =
    | Bang | BangEqual | Equal | EqualEqual | Greater | GreaterEqual
    | Less | LessEqual | Plus | Minus | Star | Slash

  /** `Into<&str>` for `Operator`. */
  function OperatorSpelling(op: Operator): (s: string)
    ensures 1 <= |s| <= 2 && forall i :: 0 <= i < |s| ==> s[i] in "!=<>+-*/"
  {
    match op
    case Bang => "!"
    case BangEqual => "!="
    case Equal => "="
    case EqualEqual => "=="
    case Greater => ">"
    case GreaterEqual => ">="
    case Less => "<"
    case LessEqual => "<="
    case Minus => "-"
    case Plus => "+"
    case Slash => "/"
    case Star => "*"
  }

  /** `TryFrom<&str>` for `Operator`: exactly the twelve spellings are accepted. */
  function OperatorFromSpelling(s: string): (r: Result<Operator, TokenParseError>)
    ensures r.Ok? ==> OperatorSpelling(r.value) == s
    ensures r.Err? <==> forall op :: OperatorSpelling(op) != s
    ensures r.Err? ==> r.error == InvalidToken
  {
    if s == "!" then Ok(Bang)
    else if s == "!=" then Ok(BangEqual)
    else if s == "=" then Ok(Operator.Equal)
    else if s == "==" then Ok(EqualEqual)
    else if s == ">" then Ok(Operator.Greater)
    else if s == ">=" then Ok(GreaterEqual)
    else if s == "<" then Ok(Operator.Less)
    else if s == "<=" then Ok(LessEqual)
    else if s == "-" then Ok(Minus)
    else if s == "+" then Ok(Plus)
    else if s == "/" then Ok(Slash)
    else if s == "*" then Ok(Star)
    else Err(InvalidToken)
  }

  lemma OperatorRoundTrip(op: Operator)
    ensures OperatorFromSpelling(OperatorSpelling(op)) == Ok(op)
  {
  }

  lemma OperatorSpellingInjective(a: Operator, b: Operator)
    ensures OperatorSpelling(a) == OperatorSpelling(b) ==> a == b
  {
    OperatorRoundTrip(a);
    OperatorRoundTrip(b);
  }

  /**
   * Every operator is one or two characters long, and a two-character
   * operator is a one-character operator followed by `=`: the scanner's
   * greedy match can always fall back to the prefix.
   */
  lemma OperatorPrefixes(op: Operator)
    ensures 1 <= |OperatorSpelling(op)| <= 2
    ensures |OperatorSpelling(op)| == 2 ==>
      OperatorSpelling(op)[1] == '=' && OperatorFromSpelling(OperatorSpelling(op)[..1]).Ok?
  {
  }

  datatype Keyword =
    | True | False | And | Or | Class | If | Else | For | While | Fun
    | Nil | Print | Return | Super | This | Var

  /** `Into<&str>` for `Keyword`. */
  function KeywordSpelling(k: Keyword): (s: string)
    ensures 2 <= |s| <= 6
  {
    match k
    case True => "true"
    case False => "false"
    case And => "and"
    case Or => "or"
    case Class => "class"
    case If => "if"
    case Else => "else"
    case For => "for"
    case While => "while"
    case Fun => "fun"
    case Nil => "nil"
    case Print => "print"
    case Return => "return"
    case Super => "super"
    case This => "this"
    case Var => "var"
  }

  /** `TryFrom<&str>` for `Keyword`: exactly the sixteen spellings are accepted. */
  function KeywordFromSpelling(s: string): (r: Result<Keyword, TokenParseError>)
    ensures r.Ok? ==> KeywordSpelling(r.value) == s
    ensures r.Err? <==> forall k :: KeywordSpelling(k) != s
    ensures r.Err? ==> r.error == InvalidToken
  {
    if s == "true" then Ok(True)
    else if s == "false" then Ok(False)
    else if s == "and" then Ok(And)
    else if s == "or" then Ok(Or)
    else if s == "class" then Ok(Class)
    else if s == "if" then Ok(If)
    else if s == "else" then Ok(Else)
    else if s == "for" then Ok(For)
    else if s == "while" then Ok(While)
    else if s == "fun" then Ok(Fun)
    else if s == "nil" then Ok(Nil)
    else if s == "print" then Ok(Print)
    else if s == "return" then Ok(Return)
    else if s == "super" then Ok(Super)
    else if s == "this" then Ok(This)
    else if s == "var" then Ok(Var)
    else Err(InvalidToken)
  }

  lemma KeywordRoundTrip(k: Keyword)
    ensures KeywordFromSpelling(KeywordSpelling(k)) == Ok(k)
  {
  }

  lemma KeywordSpellingInjective(a: Keyword, b: Keyword)
    ensures KeywordSpelling(a) == KeywordSpelling(b) ==> a == b
  {
    KeywordRoundTrip(a);
    KeywordRoundTrip(b);
  }

  predicate IsLowerLetter(c: char) {
    'a' <= c <= 'z'
  }

  /**
   * Every keyword is a non-empty run of lower-case letters, so it has the
   * shape of an identifier and the scanner meets it as one before the
   * keyword table reclassifies it.
   */
  lemma KeywordIsWord(k: Keyword)
    ensures |KeywordSpelling(k)| > 0
    ensures forall i :: 0 <= i < |KeywordSpelling(k)| ==> IsLowerLetter(KeywordSpelling(k)[i])
  {
  }

  // ---------------------------------------------------------------------
  // Tokens
  // ---------------------------------------------------------------------

  /** Literal payloads; `f64` numbers are modelled as exact reals. */
  datatype Literal = StringLiteral(text: string) | Identifier(name: string) | NumberLiteral(number: real)

  datatype TokenValue =
    | PunctuationToken(punctuation: Punctuation)
    | OperatorToken(operator: Operator)
    | KeywordToken(keyword: Keyword)
    | LiteralToken(literal: Literal)
    | Eof

  datatype Token = Token(value: TokenValue, loc: Location)
}
