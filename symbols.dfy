/** The grouping constructs the checker tracks, with their two spellings. */
module Symbols {
  import opened ByteStrings

  /** The nine implementations of the Go `Symbol` interface. Datatype
      equality is the same variant with the same payload, which is what Go's
      interface comparison gives for these struct and string types. */
  datatype Symbol =
    | Brace
    | Bracket
    | Paren
    | Chevron
    | Dollar
    | At
    | Delimiter
    | StartStop(name: Bytes)
    | BeginEnd(name: Bytes)
  {
    /** How the construct is opened in the text. */
    function Opening(): Bytes {
      match this
      case Brace => "{"
      case Bracket => "["
      case Paren => "("
      case Chevron => "<"
      case Dollar => "$"
      case At => "@"
      case Delimiter => "\\left"
      case StartStop(n) => "\\start" + n
      case BeginEnd(n) => "\\begin{" + n + "}"
    }

    /** How the construct is closed in the text. */
    function Closing(): Bytes {
      match this
      case Brace => "}"
      case Bracket => "]"
      case Paren => ")"
      case Chevron => ">"
      case Dollar => "$"
      case At => "@"
      case Delimiter => "\\right"
      case StartStop(n) => "\\stop" + n
      case BeginEnd(n) => "\\end{" + n + "}"
    }

    /** The four one-byte bracket pairs. */
    predicate IsBracket() {
      Brace? || Bracket? || Paren? || Chevron?
    }
  }

  /** Both spellings are non-empty; the brackets, `$` and `@` are spelled
      with one byte, the others as control words starting with `\`, which
      is how `balanced` tells the two kinds apart. */
  lemma SpellingShapes(k: Symbol)
    ensures |k.Opening()| > 0 && |k.Closing()| > 0
    ensures k.Opening()[0] == '\\' <==> (k.Delimiter? || k.StartStop? || k.BeginEnd?)
    ensures k.Closing()[0] == '\\' <==> (k.Delimiter? || k.StartStop? || k.BeginEnd?)
    ensures !(k.Delimiter? || k.StartStop? || k.BeginEnd?) ==> |k.Opening()| == 1 && |k.Closing()| == 1
  {
  }

  /** The bracket whose opening byte is `b`, if there is one. */
  function BracketOpenedBy(b: Byte): Option<Symbol> {
    if b == '{' then Some(Brace)
    else if b == '[' then Some(Bracket)
    else if b == '(' then Some(Paren)
    else if b == '<' then Some(Chevron)
    else None
  }

  /** `matcher`: the byte that closes a `\type` argument opened by `b`. An
      opening bracket is closed by its partner, every other byte by itself. */
  function Matcher(b: Byte): (r: Byte)
    ensures BracketOpenedBy(b).Some? ==>
              [b] == BracketOpenedBy(b).value.Opening() && [r] == BracketOpenedBy(b).value.Closing()
    ensures BracketOpenedBy(b).None? ==> r == b
  {
    match b
    case '{' => '}'
    case '[' => ']'
    case '(' => ')'
    case '<' => '>'
    case _ => b
  }

  /** A closing byte is never an opening byte, so matching twice changes nothing. */
  lemma MatcherIdempotent(b: Byte)
    ensures BracketOpenedBy(Matcher(b)).None?
    ensures Matcher(Matcher(b)) == Matcher(b)
  {
  }

  /** Every bracket is closed, through `Matcher`, by its own closing byte. */
  lemma MatcherClosesBrackets(s: Symbol)
    requires s.IsBracket()
    ensures |s.Opening()| == 1 && |s.Closing()| == 1
    ensures BracketOpenedBy(s.Opening()[0]) == Some(s)
    ensures [Matcher(s.Opening()[0])] == s.Closing()
  {
  }

  /** The closing spelling names the symbol: two symbols that close alike are
      equal. So a diagnostic that quotes a closing spelling is unambiguous. */
  lemma {:induction false} ClosingInjective(a: Symbol, b: Symbol)
    requires a.Closing() == b.Closing()
    ensures a == b
  {
    var c := a.Closing();
    if |c| > 1 {
      // the second byte tells `\stop`, `\end{` and `\right` apart
      assert c[1] == a.Closing()[1] == b.Closing()[1];
      match a
      case StartStop(n) =>
        assert b.StartStop?;
        assert n == c[5..] == b.name;
      case BeginEnd(n) =>
        assert b.BeginEnd?;
        assert n == c[5..|c| - 1] == b.name;
      case Delimiter =>
        assert b.Delimiter?;
    }
  }

  /** The opening spelling names the symbol as well. */
  lemma {:induction false} OpeningInjective(a: Symbol, b: Symbol)
    requires a.Opening() == b.Opening()
    ensures a == b
  {
    var o := a.Opening();
    if |o| > 1 {
      // the second byte tells `\start`, `\begin{` and `\left` apart
      assert o[1] == a.Opening()[1] == b.Opening()[1];
      match a
      case StartStop(n) =>
        assert b.StartStop?;
        assert n == o[6..] == b.name;
      case BeginEnd(n) =>
        assert b.BeginEnd?;
        assert n == o[7..|o| - 1] == b.name;
      case Delimiter =>
        assert b.Delimiter?;
    }
  }
}
