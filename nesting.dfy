/** What the checker concludes about token streams built from properly
    nested constructs, and about the simplest ways of breaking them. */
module Nesting {
  import opened ByteStrings
  import opened Symbols
  import opened Checker
  import Lexer

  /** A document made of properly nested constructs: each one is followed by
      the rest of the document, `next`. */
  datatype Doc =
    | End
    | Word(text: Bytes, next: Doc)                                   // plain text
    | Newline(cr: bool, next: Doc)                                 // `\r` when `cr`, else `\n`
    | Group(kind: Symbol, body: Doc, next: Doc)                      // `{…}`, `[…]`, `(…)`, `<…>`
    | MathSpan(body: Doc, next: Doc)                                 // `$…$`
    | Delimited(left: Bytes, right: Bytes, body: Doc, next: Doc)     // `\left( … \right)`
    | Section(name: Bytes, body: Doc, next: Doc)                     // `\startx … \stopx`
    | Environment(name: Bytes, body: Doc, next: Doc)                 // `\begin{x} … \end{x}`

  /** A token the checker passes over: text that starts with none of the
      bytes it acts on, or a control word (`\emph`, `\\`) that starts with
      none of the escapes it acts on. */
  predicate IsPlain(w: Bytes) {
    |w| > 0 && w[0] !in "\n\r{}[]()<>$" &&
    (w[0] == '\\' ==> !(HasPrefix(w, START) || HasPrefix(w, STOP) || HasPrefix(w, BEGIN) ||
                         HasPrefix(w, END) || HasPrefix(w, LEFT) || HasPrefix(w, RIGHT) ||
                         HasPrefix(w, TYPE)))
  }

  /** The constructs are of the right shapes, and math spans do not nest. */
  predicate WellFormed(d: Doc, inMath: bool) {
    match d
    case End => true
    case Word(w, n) => IsPlain(w) && WellFormed(n, inMath)
    case Newline(_, n) => WellFormed(n, inMath)
    case Group(k, b, n) => k.IsBracket() && WellFormed(b, inMath) && WellFormed(n, inMath)
    case MathSpan(b, n) => !inMath && WellFormed(b, true) && WellFormed(n, inMath)
    case Delimited(l, r, b, n) => |l| > 0 && |r| > 0 && WellFormed(b, inMath) && WellFormed(n, inMath)
    case Section(_, b, n) => WellFormed(b, inMath) && WellFormed(n, inMath)
    case Environment(name, b, n) => |name| > 0 && WellFormed(b, inMath) && WellFormed(n, inMath)
  }

  /** The two line-break tokens `balanced` counts. */
  function LineBreak(cr: bool): Bytes {
    if cr then "\r" else "\n"
  }

  /** The tokens the document is written with. */
  function Tokens(d: Doc): seq<Bytes> {
    match d
    case End => []
    case Word(w, n) => [w] + Tokens(n)
    case Newline(cr, n) => [LineBreak(cr)] + Tokens(n)
    case Group(k, b, n) => [k.Opening()] + Tokens(b) + [k.Closing()] + Tokens(n)
    case MathSpan(b, n) => ["$"] + Tokens(b) + ["$"] + Tokens(n)
    case Delimited(l, r, b, n) => [LEFT, l] + Tokens(b) + [RIGHT, r] + Tokens(n)
    case Section(x, b, n) => [START + x] + Tokens(b) + [STOP + x] + Tokens(n)
    case Environment(x, b, n) => [BEGIN, "{", x, "}"] + Tokens(b) + [END, "{", x, "}"] + Tokens(n)
  }

  /** The number of line breaks in the document. */
  function Lines(d: Doc): nat {
    match d
    case End => 0
    case Word(_, n) => Lines(n)
    case Newline(_, n) => 1 + Lines(n)
    case Group(_, b, n) => Lines(b) + Lines(n)
    case MathSpan(b, n) => Lines(b) + Lines(n)
    case Delimited(_, _, b, n) => Lines(b) + Lines(n)
    case Section(_, b, n) => Lines(b) + Lines(n)
    case Environment(_, b, n) => Lines(b) + Lines(n)
  }

  lemma NonEmptyConcat(a: seq<Bytes>, b: seq<Bytes>)
    requires NonEmpty(a) && NonEmpty(b)
    ensures NonEmpty(a + b)
  {
    forall k | 0 <= k < |a + b| ensures |(a + b)[k]| > 0 {
      if k >= |a| { assert (a + b)[k] == b[k - |a|]; }
    }
  }

  /** The tokens of a construct around a body, followed by `tail`, are non-empty. */
  lemma NonEmptyAround(open: seq<Bytes>, body: seq<Bytes>, close: seq<Bytes>, tail: seq<Bytes>)
    requires NonEmpty(open) && NonEmpty(body) && NonEmpty(close) && NonEmpty(tail)
    ensures NonEmpty(open + body + close + tail)
  {
    NonEmptyConcat(open, body);
    NonEmptyConcat(open + body, close);
    NonEmptyConcat(open + body + close, tail);
  }

  lemma {:induction false} TokensNonEmpty(d: Doc, inMath: bool)
    requires WellFormed(d, inMath)
    ensures NonEmpty(Tokens(d))
  {
    match d
    case End =>
    case Word(w, n) =>
      TokensNonEmpty(n, inMath);
      NonEmptyConcat([w], Tokens(n));
    case Newline(cr, n) =>
      TokensNonEmpty(n, inMath);
      NonEmptyConcat([LineBreak(cr)], Tokens(n));
    case Group(k, b, n) =>
      TokensNonEmpty(b, inMath); TokensNonEmpty(n, inMath);
      NonEmptyAround([k.Opening()], Tokens(b), [k.Closing()], Tokens(n));
    case MathSpan(b, n) =>
      TokensNonEmpty(b, true); TokensNonEmpty(n, inMath);
      NonEmptyAround(["$"], Tokens(b), ["$"], Tokens(n));
    case Delimited(l, r, b, n) =>
      TokensNonEmpty(b, inMath); TokensNonEmpty(n, inMath);
      NonEmptyAround([LEFT, l], Tokens(b), [RIGHT, r], Tokens(n));
    case Section(x, b, n) =>
      TokensNonEmpty(b, inMath); TokensNonEmpty(n, inMath);
      NonEmptyAround([START + x], Tokens(b), [STOP + x], Tokens(n));
    case Environment(x, b, n) =>
      TokensNonEmpty(b, inMath); TokensNonEmpty(n, inMath);
      NonEmptyAround([BEGIN, "{", x, "}"], Tokens(b), [END, "{", x, "}"], Tokens(n));
  }

  /** A step that reports nothing can be skipped over. */
  lemma RunQuiet(s: Snapshot, tokens: seq<Bytes>, t: Snapshot, used: nat)
    requires tokens != [] && NonEmpty(tokens)
    requires Step(s, tokens) == Outcome(t, used, None)
    ensures Run(s, tokens) == Run(t, tokens[used..])
  {
    assert Extend([], Run(t, tokens[used..])) == Run(t, tokens[used..]);
  }

  /** Which escape prefix each construct's spelling is dispatched on. */
  lemma EscapePrefixes(x: Bytes)
    ensures HasPrefix(START + x, START)
    ensures !HasPrefix(STOP + x, START) && HasPrefix(STOP + x, STOP)
    ensures !HasPrefix(BEGIN, START) && !HasPrefix(BEGIN, STOP) && HasPrefix(BEGIN, BEGIN)
    ensures !HasPrefix(END, START) && !HasPrefix(END, STOP) && !HasPrefix(END, BEGIN) && HasPrefix(END, END)
    ensures !HasPrefix(LEFT, START) && !HasPrefix(LEFT, STOP) && !HasPrefix(LEFT, BEGIN)
            && !HasPrefix(LEFT, END) && HasPrefix(LEFT, LEFT)
    ensures !HasPrefix(RIGHT, START) && !HasPrefix(RIGHT, STOP) && !HasPrefix(RIGHT, BEGIN)
            && !HasPrefix(RIGHT, END) && !HasPrefix(RIGHT, LEFT) && HasPrefix(RIGHT, RIGHT)
    ensures !HasPrefix(TYPE, START) && !HasPrefix(TYPE, STOP) && !HasPrefix(TYPE, BEGIN)
            && !HasPrefix(TYPE, END) && !HasPrefix(TYPE, LEFT) && !HasPrefix(TYPE, RIGHT) && HasPrefix(TYPE, TYPE)
  {
    assert TYPE[1] != START[1] && TYPE[1] != BEGIN[1] && TYPE[1] != END[1];
    assert TYPE[1] != LEFT[1] && TYPE[1] != RIGHT[1];
    assert (START + x)[..|START|] == START;
    assert (STOP + x)[..|STOP|] == STOP;
    if |STOP + x| >= |START| {
      assert (STOP + x)[3] != START[3];
    }
    assert BEGIN[1] != START[1] && BEGIN[1] != STOP[1];
    assert END[1] != LEFT[1] && RIGHT[1] != LEFT[1];
    assert LEFT[1] != START[1] && LEFT[1] != END[1];
    assert RIGHT[1] != START[1] && RIGHT[1] != STOP[1] && RIGHT[1] != BEGIN[1] && RIGHT[1] != END[1];
  }

  // The quiet steps of the constructs, opener by opener and closer by closer:
  // the opener is followed by `x`, the closer by `y`.

  /** Closing what was opened last removes it. */
  function Closed(s: Snapshot): Snapshot
    requires s.stack != []
  {
    s.(stack := s.stack[..|s.stack| - 1])
  }

  lemma StepPlain(s: Snapshot, w: Bytes, x: seq<Bytes>)
    requires s.mode != Verbatim && IsPlain(w) && NonEmpty([w] + x)
    ensures Step(s, [w] + x) == Outcome(s, 1, None)
  {
  }

  lemma StepNewline(s: Snapshot, cr: bool, x: seq<Bytes>)
    requires s.mode != Verbatim && NonEmpty([LineBreak(cr)] + x)
    ensures Step(s, [LineBreak(cr)] + x) == Outcome(s.(line := s.line + 1), 1, None)
  {
  }

  lemma StepBracket(s: Snapshot, k: Symbol, x: seq<Bytes>, y: seq<Bytes>)
    requires s.mode != Verbatim && k.IsBracket() && NonEmpty(x) && NonEmpty(y)
    ensures NonEmpty([k.Opening()] + x) && NonEmpty([k.Closing()] + y)
    ensures Step(s, [k.Opening()] + x) == Outcome(Pushed(s, k), 1, None)
    ensures s.stack != [] && Top(s.stack).symbol == k ==>
              Step(s, [k.Closing()] + y) == Outcome(Closed(s), 1, None)
  {
    NonEmptyConcat([k.Opening()], x);
    NonEmptyConcat([k.Closing()], y);
  }

  lemma StepMathSpan(s: Snapshot, x: seq<Bytes>)
    requires NonEmpty(x)
    ensures NonEmpty(["$"] + x)
    ensures s.mode == Normal ==> Step(s, ["$"] + x) == Outcome(Pushed(s, Dollar).(mode := Math), 1, None)
    ensures s.mode == Math && s.stack != [] && Top(s.stack).symbol == Dollar ==>
              Step(s, ["$"] + x) == Outcome(Closed(s).(mode := Normal), 1, None)
  {
    NonEmptyConcat(["$"], x);
  }

  lemma StepDelimiter(s: Snapshot, l: Bytes, r: Bytes, x: seq<Bytes>, y: seq<Bytes>)
    requires s.mode != Verbatim && |l| > 0 && |r| > 0 && NonEmpty(x) && NonEmpty(y)
    ensures NonEmpty([LEFT, l] + x) && NonEmpty([RIGHT, r] + y)
    ensures Step(s, [LEFT, l] + x) == Outcome(Pushed(s, Delimiter), 2, None)
    ensures s.stack != [] && Top(s.stack).symbol == Delimiter ==>
              Step(s, [RIGHT, r] + y) == Outcome(Closed(s), 2, None)
  {
    NonEmptyConcat([LEFT, l], x);
    NonEmptyConcat([RIGHT, r], y);
    EscapePrefixes([]);
  }

  lemma StepSection(s: Snapshot, name: Bytes, x: seq<Bytes>, y: seq<Bytes>)
    requires s.mode != Verbatim && NonEmpty(x) && NonEmpty(y)
    ensures NonEmpty([START + name] + x) && NonEmpty([STOP + name] + y)
    ensures Step(s, [START + name] + x) == Outcome(Pushed(s, StartStop(name)), 1, None)
    ensures s.stack != [] && Top(s.stack).symbol == StartStop(name) ==>
              Step(s, [STOP + name] + y) == Outcome(Closed(s), 1, None)
  {
    NonEmptyConcat([START + name], x);
    NonEmptyConcat([STOP + name], y);
    EscapePrefixes(name);
    assert (START + name)[|START|..] == name && (STOP + name)[|STOP|..] == name;
  }

  lemma StepEnvironment(s: Snapshot, name: Bytes, x: seq<Bytes>, y: seq<Bytes>)
    requires s.mode != Verbatim && |name| > 0 && NonEmpty(x) && NonEmpty(y)
    ensures NonEmpty([BEGIN, "{", name, "}"] + x) && NonEmpty([END, "{", name, "}"] + y)
    ensures Step(s, [BEGIN, "{", name, "}"] + x) == Outcome(Pushed(s, BeginEnd(name)), 4, None)
    ensures s.stack != [] && Top(s.stack).symbol == BeginEnd(name) ==>
              Step(s, [END, "{", name, "}"] + y) == Outcome(Closed(s), 4, None)
  {
    NonEmptyConcat([BEGIN, "{", name, "}"], x);
    NonEmptyConcat([END, "{", name, "}"], y);
    EscapePrefixes([]);
  }

  /** The five constructs that open, hold a body, and close. */
  predicate IsConstruct(d: Doc) {
    d.Group? || d.MathSpan? || d.Delimited? || d.Section? || d.Environment?
  }

  /** The symbol a construct puts on the stack. */
  function SymbolOf(d: Doc): Symbol
    requires IsConstruct(d)
  {
    match d
    case Group(k, _, _) => k
    case MathSpan(_, _) => Dollar
    case Delimited(_, _, _, _) => Delimiter
    case Section(x, _, _) => StartStop(x)
    case Environment(x, _, _) => BeginEnd(x)
  }

  /** The tokens that open a construct. */
  function Opener(d: Doc): seq<Bytes>
    requires IsConstruct(d)
  {
    match d
    case Group(k, _, _) => [k.Opening()]
    case MathSpan(_, _) => ["$"]
    case Delimited(l, _, _, _) => [LEFT, l]
    case Section(x, _, _) => [START + x]
    case Environment(x, _, _) => [BEGIN, "{", x, "}"]
  }

  /** The tokens that close a construct. */
  function Closer(d: Doc): seq<Bytes>
    requires IsConstruct(d)
  {
    match d
    case Group(k, _, _) => [k.Closing()]
    case MathSpan(_, _) => ["$"]
    case Delimited(_, r, _, _) => [RIGHT, r]
    case Section(x, _, _) => [STOP + x]
    case Environment(x, _, _) => [END, "{", x, "}"]
  }

  /** The state inside a construct opened in state `s`. */
  function Entered(s: Snapshot, d: Doc): Snapshot
    requires IsConstruct(d)
  {
    if d.MathSpan? then Pushed(s, Dollar).(mode := Math) else Pushed(s, SymbolOf(d))
  }

  /** A construct of a well-formed document, met in state `s`. */
  predicate Enterable(s: Snapshot, d: Doc) {
    && IsConstruct(d)
    && (s.mode == Normal || (s.mode == Math && !d.MathSpan?))
    && (d.Group? ==> d.kind.IsBracket())
    && (d.Delimited? ==> |d.left| > 0 && |d.right| > 0)
    && (d.Environment? ==> |d.name| > 0)
  }

  /** A construct of a well-formed document: its body and what follows are
      well-formed, and the body is read in the mode the opener sets. */
  lemma ConstructShape(s: Snapshot, d: Doc)
    requires IsConstruct(d) && (s.mode == Normal || s.mode == Math) && WellFormed(d, s.mode == Math)
    ensures Enterable(s, d)
    ensures WellFormed(d.body, Entered(s, d).mode == Math) && WellFormed(d.next, s.mode == Math)
    ensures Entered(s, d).mode == Normal || Entered(s, d).mode == Math
    ensures Entered(s, d).line == s.line
    ensures NonEmpty(Opener(d)) && NonEmpty(Closer(d))
  {
  }

  /** The tokens and lines of a construct. */
  lemma ConstructTokens(d: Doc)
    requires IsConstruct(d)
    ensures Tokens(d) == Opener(d) + Tokens(d.body) + Closer(d) + Tokens(d.next)
    ensures Lines(d) == Lines(d.body) + Lines(d.next)
  {
  }

  /** `Same` again, behind `depth` layers. This stands for nothing in the
      checker: it is a proof device only. The verifier unfolds a layer only
      when asked (`Hide`, `Show`), so facts about whole runs can be chained as
      `Passes(…, 3)` without `Run`, and with it the whole step function,
      being unfolded in every lemma that mentions them, which would make
      these proofs too slow. */
  ghost predicate Passes(s: Snapshot, a: seq<Bytes>, t: Snapshot, b: seq<Bytes>, depth: nat)
    decreases depth, a
  {
    if depth == 0 then Same(s, a, t, b) else Passes(s, a, t, b, depth - 1)
  }

  lemma Hide(s: Snapshot, a: seq<Bytes>, t: Snapshot, b: seq<Bytes>)
    requires Same(s, a, t, b)
    ensures Passes(s, a, t, b, 3)
  {
    assert Passes(s, a, t, b, 0);
    assert Passes(s, a, t, b, 1);
    assert Passes(s, a, t, b, 2);
  }

  lemma Show(s: Snapshot, a: seq<Bytes>, t: Snapshot, b: seq<Bytes>)
    requires Passes(s, a, t, b, 3)
    ensures Same(s, a, t, b)
  {
    assert Passes(s, a, t, b, 2);
    assert Passes(s, a, t, b, 1);
    assert Passes(s, a, t, b, 0);
  }

  lemma PassesRefl(s: Snapshot, a: seq<Bytes>)
    requires NonEmpty(a)
    ensures Passes(s, a, s, a, 3)
  {
    Hide(s, a, s, a);
  }

  lemma PassesNonEmpty(s: Snapshot, a: seq<Bytes>, t: Snapshot, b: seq<Bytes>)
    requires Passes(s, a, t, b, 3)
    ensures NonEmpty(a) && NonEmpty(b)
  {
    Show(s, a, t, b);
  }

  lemma PassesTrans(s: Snapshot, a: seq<Bytes>, t: Snapshot, b: seq<Bytes>, u: Snapshot, c: seq<Bytes>)
    requires Passes(s, a, t, b, 3) && Passes(t, b, u, c, 3)
    ensures Passes(s, a, u, c, 3)
  {
    Show(s, a, t, b);
    Show(t, b, u, c);
    SameTrans(s, a, t, b, u, c);
    Hide(s, a, u, c);
  }

  /** A step that reports nothing and consumes exactly `used` is passed over. */
  lemma PassQuiet(s: Snapshot, used: seq<Bytes>, t: Snapshot, rest: seq<Bytes>)
    requires used != [] && NonEmpty(used + rest)
    requires Step(s, used + rest) == Outcome(t, |used|, None)
    ensures Passes(s, used + rest, t, rest, 3)
  {
    RunQuiet(s, used + rest, t, |used|);
    assert (used + rest)[|used|..] == rest;
    Hide(s, used + rest, t, rest);
  }

  /** The opener of a construct is one quiet step into `Entered`. */
  lemma RunOpener(s: Snapshot, d: Doc, x: seq<Bytes>)
    requires Enterable(s, d) && NonEmpty(x)
    ensures Passes(s, Opener(d) + x, Entered(s, d), x, 3)
  {
    var t := Entered(s, d);
    match d
    case Group(kind, _, _) =>
      StepBracket(s, kind, x, x);
      PassQuiet(s, [kind.Opening()], t, x);
    case MathSpan(_, _) =>
      StepMathSpan(s, x);
      PassQuiet(s, ["$"], t, x);
    case Delimited(l, r, _, _) =>
      StepDelimiter(s, l, r, x, x);
      PassQuiet(s, [LEFT, l], t, x);
    case Section(name, _, _) =>
      StepSection(s, name, x, x);
      PassQuiet(s, [START + name], t, x);
    case Environment(name, _, _) =>
      StepEnvironment(s, name, x, x);
      PassQuiet(s, [BEGIN, "{", name, "}"], t, x);
  }

  /** Once the body has been passed over, the closer is one quiet step back out. */
  lemma RunCloser(s: Snapshot, d: Doc, y: seq<Bytes>, k: nat)
    requires Enterable(s, d) && NonEmpty(y)
    ensures Passes(Entered(s, d).(line := s.line + k), Closer(d) + y, s.(line := s.line + k), y, 3)
  {
    var t, u := Entered(s, d).(line := s.line + k), s.(line := s.line + k);
    assert Closed(t) == u.(mode := t.mode);
    match d
    case Group(kind, _, _) =>
      StepBracket(t, kind, y, y);
      PassQuiet(t, [kind.Closing()], u, y);
    case MathSpan(_, _) =>
      StepMathSpan(t, y);
      PassQuiet(t, ["$"], u, y);
    case Delimited(l, r, _, _) =>
      StepDelimiter(t, l, r, y, y);
      PassQuiet(t, [RIGHT, r], u, y);
    case Section(x, _, _) =>
      StepSection(t, x, y, y);
      PassQuiet(t, [STOP + x], u, y);
    case Environment(x, _, _) =>
      StepEnvironment(t, x, y, y);
      PassQuiet(t, [END, "{", x, "}"], u, y);
  }

  /** The heart of the matter: over a well-formed document in NORMAL or MATH
      mode the checker reports nothing, and comes back to the state it
      started in with only the line number advanced. */
  lemma {:induction false} RunNested(s: Snapshot, d: Doc, rest: seq<Bytes>)
    requires s.mode == Normal || s.mode == Math
    requires WellFormed(d, s.mode == Math) && NonEmpty(rest)
    decreases d, 1
    ensures Passes(s, Tokens(d) + rest, s.(line := s.line + Lines(d)), rest, 3)
  {
    match d
    case End =>
      assert Tokens(d) + rest == rest && s.(line := s.line + Lines(d)) == s;
      PassesRefl(s, rest);
    case Word(w, n) => RunWordNext(s, w, n, rest);
    case Newline(cr, n) => RunNewlineNext(s, cr, n, rest);
    case Group(_, _, _) => RunConstructNext(s, d, rest);
    case MathSpan(_, _) => RunConstructNext(s, d, rest);
    case Delimited(_, _, _, _) => RunConstructNext(s, d, rest);
    case Section(_, _, _) => RunConstructNext(s, d, rest);
    case Environment(_, _, _) => RunConstructNext(s, d, rest);
  }

  /** `RunNested` for a word and what follows it. */
  lemma {:induction false} RunWordNext(s: Snapshot, w: Bytes, n: Doc, rest: seq<Bytes>)
    requires s.mode == Normal || s.mode == Math
    requires IsPlain(w) && WellFormed(n, s.mode == Math) && NonEmpty(rest)
    decreases Word(w, n), 0
    ensures Passes(s, Tokens(Word(w, n)) + rest, s.(line := s.line + Lines(n)), rest, 3)
  {
    RunNested(s, n, rest);
    PassesNonEmpty(s, Tokens(n) + rest, s.(line := s.line + Lines(n)), rest);
    RunWord(s, w, Tokens(n), rest);
    PassesTrans(s, [w] + Tokens(n) + rest, s, Tokens(n) + rest, s.(line := s.line + Lines(n)), rest);
  }

  /** `RunNested` for a line break and what follows it. */
  lemma {:induction false} RunNewlineNext(s: Snapshot, cr: bool, n: Doc, rest: seq<Bytes>)
    requires s.mode == Normal || s.mode == Math
    requires WellFormed(n, s.mode == Math) && NonEmpty(rest)
    decreases Newline(cr, n), 0
    ensures Passes(s, Tokens(Newline(cr, n)) + rest, s.(line := s.line + 1 + Lines(n)), rest, 3)
  {
    var t := s.(line := s.line + 1);
    assert t.(line := t.line + Lines(n)) == s.(line := s.line + 1 + Lines(n));
    RunNested(t, n, rest);
    PassesNonEmpty(t, Tokens(n) + rest, s.(line := s.line + 1 + Lines(n)), rest);
    RunNewline(s, cr, Tokens(n), rest);
    PassesTrans(s, [LineBreak(cr)] + Tokens(n) + rest, t, Tokens(n) + rest, s.(line := s.line + 1 + Lines(n)), rest);
  }

  /** A plain word is passed over. */
  lemma RunWord(s: Snapshot, w: Bytes, next: seq<Bytes>, rest: seq<Bytes>)
    requires s.mode != Verbatim && IsPlain(w) && NonEmpty(next + rest)
    ensures Passes(s, [w] + next + rest, s, next + rest, 3)
  {
    var x := next + rest;
    assert [w] + next + rest == [w] + x;
    NonEmptyConcat([w], x);
    StepPlain(s, w, x);
    PassQuiet(s, [w], s, x);
  }

  /** A line break is passed over, counted. */
  lemma RunNewline(s: Snapshot, cr: bool, next: seq<Bytes>, rest: seq<Bytes>)
    requires s.mode != Verbatim && NonEmpty(next + rest)
    ensures Passes(s, [LineBreak(cr)] + next + rest, s.(line := s.line + 1), next + rest, 3)
  {
    var x := next + rest;
    assert [LineBreak(cr)] + next + rest == [LineBreak(cr)] + x;
    NonEmptyConcat([LineBreak(cr)], x);
    StepNewline(s, cr, x);
    PassQuiet(s, [LineBreak(cr)], s.(line := s.line + 1), x);
  }

  /** `RunNested` for a construct and what follows it. */
  lemma {:induction false} RunConstructNext(s: Snapshot, d: Doc, rest: seq<Bytes>)
    requires IsConstruct(d) && (s.mode == Normal || s.mode == Math)
    requires WellFormed(d, s.mode == Math) && NonEmpty(rest)
    decreases d, 0
    ensures Passes(s, Tokens(d) + rest, s.(line := s.line + Lines(d)), rest, 3)
  {
    ConstructShape(s, d);
    var b, n := d.body, d.next;
    var inner, after := Entered(s, d), s.(line := s.line + Lines(b));
    RunNested(after, n, rest);
    PassesNonEmpty(after, Tokens(n) + rest, after.(line := after.line + Lines(n)), rest);
    NonEmptyConcat(Closer(d), Tokens(n) + rest);
    RunNested(inner, b, Closer(d) + (Tokens(n) + rest));
    assert inner.(line := inner.line + Lines(b)) == inner.(line := s.line + Lines(b));
    RunConstruct(s, d, Tokens(b), Tokens(n), rest, Lines(b), Lines(n));
    ConstructTokens(d);
  }

  /** A construct is passed over when its body and what follows it are: the
      opener enters, the body comes back `lb` lines on, the closer leaves,
      and what follows comes back `ln` lines further. */
  lemma RunConstruct(s: Snapshot, d: Doc, body: seq<Bytes>, next: seq<Bytes>, rest: seq<Bytes>, lb: nat, ln: nat)
    requires Enterable(s, d)
    requires Passes(Entered(s, d), body + (Closer(d) + (next + rest)),
                    Entered(s, d).(line := s.line + lb), Closer(d) + (next + rest), 3)
    requires Passes(s.(line := s.line + lb), next + rest, s.(line := s.line + lb + ln), rest, 3)
    ensures Passes(s, Opener(d) + body + Closer(d) + next + rest, s.(line := s.line + lb + ln), rest, 3)
  {
    var inner, mid, after := Entered(s, d), Entered(s, d).(line := s.line + lb), s.(line := s.line + lb);
    Show(inner, body + (Closer(d) + (next + rest)), mid, Closer(d) + (next + rest));
    Show(after, next + rest, s.(line := s.line + lb + ln), rest);
    RunCloser(s, d, next + rest, lb);
    RunOpener(s, d, body + (Closer(d) + (next + rest)));
    Around(s, inner, mid, after, s.(line := s.line + lb + ln), Opener(d), body, Closer(d), next, rest);
  }

  /** A construct is passed over when its opener, its body, its closer and
      what follows are: the four passes chained, over plain token sequences. */
  lemma Around(s: Snapshot, inner: Snapshot, mid: Snapshot, after: Snapshot, final: Snapshot,
               open: seq<Bytes>, body: seq<Bytes>, close: seq<Bytes>, next: seq<Bytes>, rest: seq<Bytes>)
    requires Passes(s, open + (body + (close + (next + rest))), inner, body + (close + (next + rest)), 3)
    requires Passes(inner, body + (close + (next + rest)), mid, close + (next + rest), 3)
    requires Passes(mid, close + (next + rest), after, next + rest, 3)
    requires Passes(after, next + rest, final, rest, 3)
    ensures Passes(s, open + body + close + next + rest, final, rest, 3)
  {
    Regroup(open, body, close, next, rest);
    var whole := open + (body + (close + (next + rest)));
    PassesTrans(s, whole, inner, body + (close + (next + rest)), mid, close + (next + rest));
    PassesTrans(s, whole, mid, close + (next + rest), after, next + rest);
    PassesTrans(s, whole, after, next + rest, final, rest);
  }

  lemma Regroup(open: seq<Bytes>, body: seq<Bytes>, close: seq<Bytes>, next: seq<Bytes>, rest: seq<Bytes>)
    ensures open + body + close + next + rest == open + (body + (close + (next + rest)))
  {
  }

  /** A well-formed document, read from the start, draws no diagnostic at
      all: every closer meets its own opener on top of the stack, the stack
      ends empty, and the line count ends one past the number of line breaks. */
  lemma NestedIsClean(d: Doc)
    requires WellFormed(d, false)
    ensures NonEmpty(Tokens(d))
    ensures Run(Initial, Tokens(d)) == Trace(Initial.(line := 1 + Lines(d)), [], false)
    ensures Check(Tokens(d)) == []
  {
    RunNested(Initial, d, []);
    assert Tokens(d) + [] == Tokens(d);
    Show(Initial, Tokens(d), Initial.(line := Initial.line + Lines(d)), []);
  }

  /** The run over a well-formed document and the opener of a construct:
      nothing reported, and the construct open on the line the document
      ends on. */
  lemma OpenAfter(d: Doc, c: Doc, x: seq<Bytes>)
    requires WellFormed(d, false) && Enterable(Initial, c) && NonEmpty(x)
    ensures Passes(Initial, Tokens(d) + (Opener(c) + x), Entered(Initial.(line := 1 + Lines(d)), c), x, 3)
  {
    var s1 := Initial.(line := 1 + Lines(d));
    assert Initial.(line := Initial.line + Lines(d)) == s1 && Enterable(s1, c);
    assert NonEmpty(Opener(c));
    NonEmptyConcat(Opener(c), x);
    RunNested(Initial, d, Opener(c) + x);
    RunOpener(s1, c, x);
    PassesTrans(Initial, Tokens(d) + (Opener(c) + x), s1, Opener(c) + x, Entered(s1, c), x);
  }

  /** The run over a well-formed document, the opener of a construct, and
      another well-formed document read in the mode the opener sets: nothing
      reported, and the construct still open. */
  lemma UnclosedRun(d: Doc, c: Doc, e: Doc, tokens: seq<Bytes>)
    requires WellFormed(d, false) && Enterable(Initial, c) && WellFormed(e, c.MathSpan?)
    requires tokens == Tokens(d) + Opener(c) + Tokens(e)
    ensures Passes(Initial, tokens,
                   Entered(Initial.(line := 1 + Lines(d)), c).(line := 1 + Lines(d) + Lines(e)), [], 3)
  {
    var x := Tokens(e);
    var s2 := Entered(Initial.(line := 1 + Lines(d)), c);
    Associate(Tokens(d), Opener(c), x, tokens);
    EnteredFirst(1 + Lines(d), c);
    TokensNonEmpty(e, c.MathSpan?);
    OpenAfter(d, c, x);
    RunNested(s2, e, []);
    PassesTrans(Initial, tokens, s2, x, s2.(line := s2.line + Lines(e)), []);
  }

  lemma Associate(a: seq<Bytes>, b: seq<Bytes>, x: seq<Bytes>, tokens: seq<Bytes>)
    requires tokens == a + b + x
    ensures tokens == a + (b + x) && x + [] == x
  {
  }

  /** The state inside the first construct opened, on line `line`. */
  lemma EnteredFirst(line: nat, c: Doc)
    requires Enterable(Initial, c)
    ensures var t := Entered(Initial.(line := line), c);
            t.mode == (if c.MathSpan? then Math else Normal) && t.stack == [Located(SymbolOf(c), line)]
  {
  }

  /** A construct left unclosed between two well-formed documents is the one
      thing reported, at the end, with the line it was opened on: a bracket,
      `$`, `\left`, `\start<name>` or `\begin{<name>}`. */
  lemma UnclosedReported(d: Doc, c: Doc, e: Doc, tokens: seq<Bytes>)
    requires WellFormed(d, false) && Enterable(Initial, c) && WellFormed(e, c.MathSpan?)
    requires tokens == Tokens(d) + Opener(c) + Tokens(e)
    ensures NonEmpty(tokens)
    ensures Check(tokens) == [UnexpectedEnd(Located(SymbolOf(c), 1 + Lines(d)))]
  {
    var t := Entered(Initial.(line := 1 + Lines(d)), c).(line := 1 + Lines(d) + Lines(e));
    UnclosedRun(d, c, e, tokens);
    EnteredFirst(1 + Lines(d), c);
    OneOpenAtEnd(tokens, t, Located(SymbolOf(c), 1 + Lines(d)));
  }

  /** A run that reports nothing and ends with one construct open: what
      `balanced` reports is the end-of-input report about that construct. */
  lemma OneOpenAtEnd(tokens: seq<Bytes>, t: Snapshot, open: Located)
    requires Passes(Initial, tokens, t, [], 3) && t.stack == [open]
    ensures NonEmpty(tokens)
    ensures Check(tokens) == [UnexpectedEnd(open)]
  {
    Show(Initial, tokens, t, []);
  }

  /** A construct whose closer can be met in state `s`: outside VERBATIM,
      and for `$` in MATH, since in NORMAL `$` opens. */
  predicate Closable(s: Snapshot, c: Doc) {
    && IsConstruct(c)
    && (if c.MathSpan? then s.mode == Math else s.mode != Verbatim)
    && (c.Group? ==> c.kind.IsBracket())
    && (c.Delimited? ==> |c.right| > 0)
    && (c.Environment? ==> |c.name| > 0)
  }

  /** The state after a construct's closer: `pop`, and for `$` back to NORMAL. */
  function Exited(s: Snapshot, c: Doc): Snapshot
    requires IsConstruct(c)
  {
    var n := Popped(s, SymbolOf(c)).next;
    if c.MathSpan? then n.(mode := Normal) else n
  }

  /** A closer is one `pop` of its construct's symbol, whatever is on top of
      the stack, and uses exactly the closer's tokens. */
  lemma StepCloser(s: Snapshot, c: Doc, y: seq<Bytes>)
    requires Closable(s, c) && NonEmpty(y)
    ensures NonEmpty(Closer(c) + y)
    ensures Step(s, Closer(c) + y) == Outcome(Exited(s, c), |Closer(c)|, Popped(s, SymbolOf(c)).event)
  {
    NonEmptyConcat(Closer(c), y);
    match c
    case Group(k, _, _) => PopBracket(s, k, y);
    case MathSpan(_, _) => PopDollar(s, y);
    case Delimited(_, r, _, _) => PopDelimiter(s, r, y);
    case Section(x, _, _) => PopSection(s, x, y);
    case Environment(x, _, _) => PopEnvironment(s, x, y);
  }

  lemma PopBracket(s: Snapshot, k: Symbol, y: seq<Bytes>)
    requires s.mode != Verbatim && k.IsBracket() && NonEmpty([k.Closing()] + y)
    ensures Step(s, [k.Closing()] + y) == PopStep(s, k, 1)
  {
  }

  lemma PopDollar(s: Snapshot, y: seq<Bytes>)
    requires s.mode == Math && NonEmpty(["$"] + y)
    ensures Step(s, ["$"] + y) == PopStep(s, Dollar, 1).(next := Popped(s, Dollar).next.(mode := Normal))
  {
  }

  lemma PopDelimiter(s: Snapshot, r: Bytes, y: seq<Bytes>)
    requires s.mode != Verbatim && |r| > 0 && NonEmpty([RIGHT, r] + y)
    ensures Step(s, [RIGHT, r] + y) == PopStep(s, Delimiter, 2)
  {
    EscapePrefixes([]);
  }

  lemma PopSection(s: Snapshot, x: Bytes, y: seq<Bytes>)
    requires s.mode != Verbatim && NonEmpty([STOP + x] + y)
    ensures Step(s, [STOP + x] + y) == PopStep(s, StartStop(x), 1)
  {
    EscapePrefixes(x);
    assert (STOP + x)[|STOP|..] == x;
  }

  lemma PopEnvironment(s: Snapshot, x: Bytes, y: seq<Bytes>)
    requires s.mode != Verbatim && |x| > 0 && NonEmpty([END, "{", x, "}"] + y)
    ensures Step(s, [END, "{", x, "}"] + y) == PopStep(s, BeginEnd(x), 4)
  {
    EscapePrefixes([]);
  }

  /** A closer that does not match the top of the stack is reported and
      otherwise ignored: the stack and the line stay as they were, and only
      `$` changes the mode, back to NORMAL. This holds for every closer: a
      bracket, `$`, `\right`, `\stop<name>` and `\end{<name>}`. */
  lemma StrayCloser(s: Snapshot, c: Doc, x: seq<Bytes>)
    requires Closable(s, c) && NonEmpty(x)
    requires s.stack == [] || Top(s.stack).symbol != SymbolOf(c)
    ensures NonEmpty(Closer(c) + x)
    ensures Run(s, Closer(c) + x)
            == Extend([if s.stack == [] then Unopened(SymbolOf(c), s.line)
                       else Mismatch(SymbolOf(c), s.line, Top(s.stack))],
                      Run(if c.MathSpan? then s.(mode := Normal) else s, x))
  {
    StepCloser(s, c, x);
    StrayPopped(s, SymbolOf(c));
    RunUnfold(s, Closer(c) + x);
    assert (Closer(c) + x)[|Closer(c)|..] == x;
  }

  /** `pop` of a symbol other than the top's. */
  lemma StrayPopped(s: Snapshot, k: Symbol)
    requires s.stack == [] || Top(s.stack).symbol != k
    ensures Popped(s, k) == Effect(s, Some(if s.stack == [] then Unopened(k, s.line) else Mismatch(k, s.line, Top(s.stack))))
  {
  }

  /** An opener and a plain word open one construct and report nothing. */
  lemma OpenThenWord(s: Snapshot, k: Symbol, a: Bytes, x: seq<Bytes>)
    requires s.mode != Verbatim && k.IsBracket() && IsPlain(a) && NonEmpty(x)
    ensures Passes(s, [k.Opening(), a] + x, Pushed(s, k), x, 3)
  {
    var p := Pushed(s, k);
    assert [k.Opening()] + ([a] + x) == [k.Opening(), a] + x;
    NonEmptyConcat([a], x);
    StepPlain(p, a, x);
    PassQuiet(p, [a], p, x);
    StepBracket(s, k, [a] + x, []);
    PassQuiet(s, [k.Opening()], p, [a] + x);
    PassesTrans(s, [k.Opening(), a] + x, p, [a] + x, p, x);
  }

  /** A plain word and the closer of the construct opened last close it and
      report nothing. */
  lemma WordThenClose(s: Snapshot, k: Symbol, b: Bytes)
    requires s.mode != Verbatim && k.IsBracket() && IsPlain(b)
    ensures Passes(Pushed(s, k), [b, k.Closing()], s, [], 3)
  {
    var p := Pushed(s, k);
    assert Closed(p) == s && [b] + [k.Closing()] == [b, k.Closing()] && [k.Closing()] + [] == [k.Closing()];
    StepPlain(p, b, [k.Closing()]);
    PassQuiet(p, [b], p, [k.Closing()]);
    StepBracket(p, k, [], []);
    PassQuiet(p, [k.Closing()], s, []);
    PassesTrans(p, [b, k.Closing()], p, [k.Closing()], s, []);
  }

  /** A stray closer inside a construct, as in `{ ] }`: one mismatch, dated
      on the current line and naming the open construct, and then the same
      state again, the construct closed by its own closer. */
  lemma StrayInside(s: Snapshot, k: Symbol, j: Symbol, a: Bytes, b: Bytes)
    requires s.mode != Verbatim && k.IsBracket() && j.IsBracket() && j != k && IsPlain(a) && IsPlain(b)
    ensures NonEmpty([k.Opening(), a, j.Closing(), b, k.Closing()])
    ensures Run(s, [k.Opening(), a, j.Closing(), b, k.Closing()])
            == Trace(s, [Mismatch(j, s.line, Located(k, s.line))], false)
  {
    var p := Pushed(s, k);
    var close: seq<Bytes> := [j.Closing(), b, k.Closing()];
    assert [k.Opening(), a] + close == [k.Opening(), a, j.Closing(), b, k.Closing()];
    assert close == [j.Closing()] + [b, k.Closing()];
    OpenThenWord(s, k, a, close);
    WordThenClose(s, k, b);
    Show(s, [k.Opening(), a] + close, p, close);
    Show(p, [b, k.Closing()], s, []);
    StrayCloser(p, Group(j, End, End), [b, k.Closing()]);
  }

  /** A space, a byte of no class, a space and a byte of no class are four tokens. */
  lemma ScanSpacedTail(b: Byte, c: Byte)
    requires Lexer.Unclassed(b) && Lexer.Unclassed(c)
    ensures Lexer.Scan([' ', b, ' ', c]) == [" ", [b], " ", [c]]
  {
    var x: Bytes := [' '] + ([c] + []);
    assert [' '] + ([b] + x) == [' ', b, ' ', c];
    assert Lexer.Scan(x) == [" ", [c]] by {
      Lexer.ScanSpaceSingle(c, []);
      assert Lexer.Scan([]) == [];
    }
    Lexer.ScanSpaceSingle(b, x);
  }

  /** Three bytes of no class with a space between each two, as in `{ ] }`,
      are read as five tokens, the spaces included. */
  lemma ScanSpaced(a: Byte, b: Byte, c: Byte)
    requires Lexer.Unclassed(a) && Lexer.Unclassed(b) && Lexer.Unclassed(c)
    ensures Lexer.Scan([a, ' ', b, ' ', c]) == [[a], " ", [b], " ", [c]]
  {
    assert [a] + [' ', b, ' ', c] == [a, ' ', b, ' ', c];
    ScanSpacedTail(b, c);
    Lexer.ScanSingle(a, [' ', b, ' ', c]);
  }

  /** `{ ] }`: the stray `]` is reported against the open `{` and is not
      consumed, so the `}` still closes the `{` and the stack ends empty. */
  lemma MismatchNotConsumed()
    ensures Lexer.Scan("{ ] }") == ["{", " ", "]", " ", "}"]
    ensures Run(Initial, ["{", " ", "]", " ", "}"]) == Trace(Initial, [Mismatch(Bracket, 1, Located(Brace, 1))], false)
    ensures Check(Lexer.Scan("{ ] }")) == [Mismatch(Bracket, 1, Located(Brace, 1))]
  {
    ScanSpaced('{', ']', '}');
    StrayInside(Initial, Brace, Bracket, " ", " ");
  }

  /** In VERBATIM every token is skipped, line breaks included, until one
      starts with the awaited byte. */
  lemma {:induction false} VerbatimSkips(s: Snapshot, x: seq<Bytes>, rest: seq<Bytes>)
    requires s.mode == Verbatim && NonEmpty(x) && NonEmpty(rest)
    requires forall k :: 0 <= k < |x| ==> x[k][0] != s.verbatim
    ensures NonEmpty(x + rest)
    ensures Run(s, x + rest) == Run(s, rest)
    decreases |x|
  {
    NonEmptyConcat(x, rest);
    if x != [] {
      RunUnfold(s, x + rest);
      assert (x + rest)[0] == x[0];
      assert (x + rest)[1..] == x[1..] + rest;
      VerbatimSkips(s, x[1..], rest);
    } else {
      assert x + rest == rest;
    }
  }

  /** `\type` and a delimiter make everything up to the matching closing
      byte verbatim: no bracket, `$` or line break in between counts, and
      reading resumes in NORMAL mode, even when `\type` was met in MATH. */
  lemma TypeIsOpaque(s: Snapshot, open: Bytes, x: seq<Bytes>, close: Bytes, rest: seq<Bytes>)
    requires s.mode != Verbatim && |open| > 0 && |close| > 0 && close[0] == Matcher(open[0])
    requires NonEmpty(x) && NonEmpty(rest)
    requires forall k :: 0 <= k < |x| ==> x[k][0] != Matcher(open[0])
    ensures NonEmpty([TYPE, open] + x + [close] + rest)
    ensures Run(s, [TYPE, open] + x + [close] + rest) == Run(s.(mode := Normal, verbatim := Matcher(open[0])), rest)
  {
    var v := s.(mode := Verbatim, verbatim := Matcher(open[0]));
    var tail := [close] + rest;
    var all := [TYPE, open] + (x + tail);
    assert [TYPE, open] + x + [close] + rest == all;
    NonEmptyConcat([close], rest);
    NonEmptyConcat(x, tail);
    NonEmptyConcat([TYPE, open], x + tail);
    EscapePrefixes([]);
    assert Step(s, all) == Outcome(v, 2, None);
    RunUnfold(s, all);
    assert all[2..] == x + tail;
    VerbatimSkips(v, x, tail);
    assert Step(v, tail) == Outcome(v.(mode := Normal), 1, None);
    RunUnfold(v, tail);
    assert tail[1..] == rest;
  }

  /** `\type` as the last token: the source reads the first byte of a token
      that is not there; the model stops with a fault. */
  lemma TypeAtEndFaults(s: Snapshot)
    requires s.mode != Verbatim
    ensures Run(s, [TYPE]) == Trace(s.(mode := Verbatim), [Fault(s.line)], true)
  {
    EscapePrefixes([]);
  }

  /** A well-formed document followed by `\type` and nothing else: the one
      thing reported is the fault, on the document's last line. */
  lemma TypeAtEndReported(d: Doc, tokens: seq<Bytes>)
    requires WellFormed(d, false) && tokens == Tokens(d) + [TYPE]
    ensures NonEmpty(tokens)
    ensures Check(tokens) == [Fault(1 + Lines(d))]
  {
    var s := Initial.(line := Initial.line + Lines(d));
    RunNested(Initial, d, [TYPE]);
    Show(Initial, tokens, s, [TYPE]);
    TypeAtEndFaults(s);
  }
}
