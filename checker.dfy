/** The balance checker: `State`, `push`, `pop` and the `balanced` loop,
    together with the function `Run` that specifies the loop token by token. */
module Checker {
  import opened ByteStrings
  import opened Symbols
  import Lexer

  datatype Mode = Normal | Math | Verbatim

  /** `LocatedSymbol`: an open construct and the line it was opened on. */
  datatype Located = Located(symbol: Symbol, line: nat)

  /** The diagnostics `balanced` reports, in place of the printed text. */
  datatype Event =
    | Unopened(closer: Symbol, line: nat)                 // closed without opening
    | Mismatch(closer: Symbol, line: nat, open: Located)  // unexpected closer, another was expected
    | UnexpectedEnd(open: Located)                        // end of input with `open` still open
    | Fault(line: nat)                                    // `\type` with no token after it

  /** The value held by a `State` object. */
  datatype Snapshot = Snapshot(mode: Mode, line: nat, stack: seq<Located>, verbatim: Byte)

  function Top(stack: seq<Located>): Located
    requires stack != []
  {
    stack[|stack| - 1]
  }

  // The escape prefixes `balanced` dispatches on, in the order it tests them.
  const START: Bytes := "\\start"
  const STOP: Bytes := "\\stop"
  const BEGIN: Bytes := "\\begin"
  const END: Bytes := "\\end"
  const LEFT: Bytes := "\\left"
  const RIGHT: Bytes := "\\right"
  const TYPE: Bytes := "\\type"

  /** The state `balanced` starts from: the zero `State` with `line` set to 1. */
  const Initial := Snapshot(Normal, 1, [], '\0')

  /** `push` on a state value. */
  function Pushed(s: Snapshot, symbol: Symbol): Snapshot {
    s.(stack := s.stack + [Located(symbol, s.line)])
  }

  /** A new state value and the diagnostic reported on the way, if any. */
  datatype Effect = Effect(next: Snapshot, event: Option<Event>)

  /** `pop` on a state value. */
  function Popped(s: Snapshot, symbol: Symbol): (e: Effect)
    // only the stack can change, and it never grows
    ensures e.next.(stack := s.stack) == s
    // a closer is consumed exactly when it matches the top of the stack, and then only the top goes
    ensures e.event.None? <==> s.stack != [] && Top(s.stack).symbol == symbol
    ensures e.event.None? ==> e.next.stack + [Top(s.stack)] == s.stack
    ensures e.event.Some? ==> e.next.stack == s.stack
    // a diagnostic names the current line
    ensures e.event.Some? ==> !e.event.value.UnexpectedEnd? && e.event.value.line == s.line
  {
    if s.stack == [] then Effect(s, Some(Unopened(symbol, s.line)))
    else if symbol == Top(s.stack).symbol then Effect(s.(stack := s.stack[..|s.stack| - 1]), None)
    else Effect(s, Some(Mismatch(symbol, s.line, Top(s.stack))))
  }

  /** What `balanced` does with the head of `tokens`: the next state, how
      many tokens it used (the head and the ones it looks ahead at), and the
      diagnostic it reported. */
  datatype Outcome = Outcome(next: Snapshot, used: nat, event: Option<Event>)

  /** The token `k` places ahead, or the empty token the scanner gives once
      the stream is exhausted. */
  function Lookahead(tokens: seq<Bytes>, k: nat): Bytes {
    if k < |tokens| then tokens[k] else []
  }

  /** Pushing or popping `symbol` as one step that uses `used` tokens. */
  function PushStep(s: Snapshot, symbol: Symbol, used: nat): Outcome {
    Outcome(Pushed(s, symbol), used, None)
  }

  function PopStep(s: Snapshot, symbol: Symbol, used: nat): Outcome {
    var e := Popped(s, symbol);
    Outcome(e.next, used, e.event)
  }

  /** An escape token at the head of `tokens`, in NORMAL or MATH mode. The
      tests are prefix tests, so `\leftarrow` counts as `\left`. */
  function EscapeStep(s: Snapshot, tokens: seq<Bytes>): (o: Outcome)
    requires |tokens| > 0 && NonEmpty(tokens)
    // the escape token and at most the tokens read ahead, never more than remain
    ensures 1 <= o.used <= |tokens|
    // only `\type` changes the mode or the awaited byte
    ensures !HasPrefix(tokens[0], TYPE) ==> o.next.mode == s.mode && o.next.verbatim == s.verbatim
    // the line never changes inside the dispatch
    ensures o.next.line == s.line
  {
    var token := tokens[0];
    if HasPrefix(token, START) then PushStep(s, StartStop(token[|START|..]), 1)
    else if HasPrefix(token, STOP) then PopStep(s, StartStop(token[|STOP|..]), 1)
    // `\begin` and `\end` use the next three tokens, the middle one as the name
    else if HasPrefix(token, BEGIN) then PushStep(s, BeginEnd(Lookahead(tokens, 2)), Min(4, |tokens|))
    else if HasPrefix(token, END) then PopStep(s, BeginEnd(Lookahead(tokens, 2)), Min(4, |tokens|))
    // `\left` and `\right` use the next token, the delimiter
    else if HasPrefix(token, LEFT) then PushStep(s, Delimiter, Min(2, |tokens|))
    else if HasPrefix(token, RIGHT) then PopStep(s, Delimiter, Min(2, |tokens|))
    // `\type` pushes nothing: it waits for the byte that closes its delimiter
    else if HasPrefix(token, TYPE) then
      if |tokens| < 2 then Outcome(s.(mode := Verbatim), 1, Some(Fault(s.line)))
      else Outcome(s.(mode := Verbatim, verbatim := Matcher(tokens[1][0])), 2, None)
    else Outcome(s, 1, None)
  }

  /** One turn of the `balanced` loop on the head of `tokens`. */
  function Step(s: Snapshot, tokens: seq<Bytes>): (o: Outcome)
    requires |tokens| > 0 && NonEmpty(tokens)
    ensures 1 <= o.used <= |tokens|
  {
    var b := tokens[0][0];
    match s.mode
    case Verbatim =>
      Outcome(if b == s.verbatim then s.(mode := Normal) else s, 1, None)
    case _ =>
      if b == '\n' || b == '\r' then Outcome(s.(line := s.line + 1), 1, None)
      else if b == '\\' then EscapeStep(s, tokens)
      else if b == '{' then PushStep(s, Brace, 1)
      else if b == '}' then PopStep(s, Brace, 1)
      else if b == '[' then PushStep(s, Bracket, 1)
      else if b == ']' then PopStep(s, Bracket, 1)
      else if b == '(' then PushStep(s, Paren, 1)
      else if b == ')' then PopStep(s, Paren, 1)
      else if b == '<' then PushStep(s, Chevron, 1)
      else if b == '>' then PopStep(s, Chevron, 1)
      else if b == '$' then
        if s.mode == Math then
          var o := PopStep(s, Dollar, 1);
          o.(next := o.next.(mode := Normal))
        else
          var o := PushStep(s, Dollar, 1);
          o.(next := o.next.(mode := Math))
      else Outcome(s, 1, None)
  }

  /** The line advances on a newline token, and only outside VERBATIM. */
  lemma StepLine(s: Snapshot, tokens: seq<Bytes>)
    requires |tokens| > 0 && NonEmpty(tokens)
    ensures Step(s, tokens).next.line == s.line + (if s.mode != Verbatim && Lexer.IsNewLine(tokens[0][0]) then 1 else 0)
  {
  }

  /** The stack stays, gains one entry on top recording the current line, or
      loses its top on a match: one turn never changes what lies below. */
  lemma StepStack(s: Snapshot, tokens: seq<Bytes>)
    requires |tokens| > 0 && NonEmpty(tokens)
    ensures var o := Step(s, tokens);
            || o.next.stack == s.stack
            || (o.next.stack != [] && o.next.stack == s.stack + [Located(Top(o.next.stack).symbol, s.line)])
            || (o.event.None? && s.stack != [] && o.next.stack + [Top(s.stack)] == s.stack)
  {
    if s.mode != Verbatim && tokens[0][0] == '\\' {
      EscapeStack(s, tokens);
    }
  }

  lemma EscapeStack(s: Snapshot, tokens: seq<Bytes>)
    requires |tokens| > 0 && NonEmpty(tokens)
    ensures var o := EscapeStep(s, tokens);
            || o.next.stack == s.stack
            || (o.next.stack != [] && o.next.stack == s.stack + [Located(Top(o.next.stack).symbol, s.line)])
            || (o.event.None? && s.stack != [] && o.next.stack + [Top(s.stack)] == s.stack)
  {
  }

  /** VERBATIM changes nothing until a token starting with the awaited byte
      returns to NORMAL. */
  lemma StepVerbatim(s: Snapshot, tokens: seq<Bytes>)
    requires |tokens| > 0 && NonEmpty(tokens) && s.mode == Verbatim
    ensures Step(s, tokens) == Outcome(s.(mode := if tokens[0][0] == s.verbatim then Normal else Verbatim), 1, None)
  {
  }

  /** `$` opens math in NORMAL and closes it in MATH, matched or not. */
  lemma StepDollar(s: Snapshot, tokens: seq<Bytes>)
    requires |tokens| > 0 && NonEmpty(tokens) && tokens[0][0] == '$'
    ensures s.mode == Normal ==> Step(s, tokens) == Outcome(Pushed(s, Dollar).(mode := Math), 1, None)
    ensures s.mode == Math ==>
              Step(s, tokens) == Outcome(Popped(s, Dollar).next.(mode := Normal), 1, Popped(s, Dollar).event)
  {
  }

  /** Every diagnostic of a turn is dated with the current line, and none is
      an end-of-input report. */
  lemma StepEventLine(s: Snapshot, tokens: seq<Bytes>)
    requires |tokens| > 0 && NonEmpty(tokens)
    ensures var o := Step(s, tokens);
            o.event.Some? ==> !o.event.value.UnexpectedEnd? && o.event.value.line == s.line
  {
    if s.mode != Verbatim && tokens[0][0] == '\\' {
      EscapeEventLine(s, tokens);
    }
  }

  lemma EscapeEventLine(s: Snapshot, tokens: seq<Bytes>)
    requires |tokens| > 0 && NonEmpty(tokens)
    ensures var o := EscapeStep(s, tokens);
            o.event.Some? ==> !o.event.value.UnexpectedEnd? && o.event.value.line == s.line
  {
  }

  /** The state `balanced` ends in, the diagnostics it reported on the way,
      and whether it stopped at a fault. */
  datatype Trace = Trace(final: Snapshot, events: seq<Event>, halted: bool)

  function Events(e: Option<Event>): seq<Event> {
    match e
    case None => []
    case Some(x) => [x]
  }

  /** `events` reported before the trace `t`. */
  function Extend(events: seq<Event>, t: Trace): Trace {
    Trace(t.final, events + t.events, t.halted)
  }

  /** The `balanced` loop from state `s` over the whole token stream. */
  function Run(s: Snapshot, tokens: seq<Bytes>): Trace
    requires NonEmpty(tokens)
    decreases |tokens|
  {
    if tokens == [] then Trace(s, [], false)
    else
      var o := Step(s, tokens);
      if o.event.Some? && o.event.value.Fault? then Trace(o.next, [o.event.value], true)
      else Extend(Events(o.event), Run(o.next, tokens[o.used..]))
  }

  /** Everything `balanced` reports for a token stream: the diagnostics of the
      loop and then, when the stack is not empty at the end, one about its top. */
  function Check(tokens: seq<Bytes>): seq<Event>
    requires NonEmpty(tokens)
  {
    var t := Run(Initial, tokens);
    if t.halted || t.final.stack == [] then t.events
    else t.events + [UnexpectedEnd(Top(t.final.stack))]
  }

  /** The checker's mutable state. */
  class State {
    var mode: Mode
    var line: nat
    var stack: seq<Located>
    var verbatim: Byte

    /** `new(State)`: the zero value. */
    constructor ()
      ensures mode == Normal && line == 0 && stack == [] && verbatim == '\0'
    {
      mode, line, stack, verbatim := Normal, 0, [], '\0';
    }

    function Value(): Snapshot
      reads this
    {
      Snapshot(mode, line, stack, verbatim)
    }

    /** `push`: record `symbol` as opened on the current line. */
    method Push(symbol: Symbol)
      modifies this
      ensures stack == old(stack) + [Located(symbol, line)]
      ensures mode == old(mode) && line == old(line) && verbatim == old(verbatim)
    {
      stack := stack + [Located(symbol, line)];
    }

    /** `pop`: close `symbol` if it is the construct open on top; otherwise
        report and leave the stack as it is. */
    method Pop(symbol: Symbol) returns (event: Option<Event>)
      modifies this
      ensures old(stack) == [] ==> stack == [] && event == Some(Unopened(symbol, line))
      ensures old(stack) != [] && Top(old(stack)).symbol == symbol ==>
                stack == old(stack)[..|old(stack)| - 1] && event == None
      ensures old(stack) != [] && Top(old(stack)).symbol != symbol ==>
                stack == old(stack) && event == Some(Mismatch(symbol, line, Top(old(stack))))
      ensures mode == old(mode) && line == old(line) && verbatim == old(verbatim)
    {
      if |stack| == 0 {
        event := Some(Unopened(symbol, line));
      } else {
        var last := stack[|stack| - 1];
        if symbol == last.symbol {
          stack := stack[..|stack| - 1];
          event := None;
        } else {
          event := Some(Mismatch(symbol, line, last));
        }
      }
    }
  }

  /** The escape branch of `balanced`: dispatch on the prefix of `token`,
      the scanner's current token, reading ahead where the construct does. */
  method Escape(state: State, scanner: Lexer.Scanner, token: Bytes) returns (event: Option<Event>)
    requires scanner.Valid() && 1 <= scanner.pos && scanner.current == token
    requires token == scanner.tokens[scanner.pos - 1] && token[0] == '\\' && state.mode != Verbatim
    modifies state, scanner
    ensures scanner.Valid() && old(scanner.pos) <= scanner.pos
    ensures EscapeStep(old(state.Value()), scanner.tokens[old(scanner.pos) - 1..])
            == Outcome(state.Value(), scanner.pos - old(scanner.pos) + 1, event)
  {
    ghost var tokens := scanner.tokens[scanner.pos - 1..];
    event := None;
    if HasPrefix(token, START) {
      state.Push(StartStop(token[|START|..]));
    } else if HasPrefix(token, STOP) {
      event := state.Pop(StartStop(token[|STOP|..]));
    } else if HasPrefix(token, BEGIN) {
      var _ := scanner.Next();  // '{'
      var _ := scanner.Next();  // the name
      assert scanner.current == Lookahead(tokens, 2);
      state.Push(BeginEnd(scanner.current));
      var _ := scanner.Next();  // '}'
    } else if HasPrefix(token, END) {
      var _ := scanner.Next();
      var _ := scanner.Next();
      assert scanner.current == Lookahead(tokens, 2);
      event := state.Pop(BeginEnd(scanner.current));
      var _ := scanner.Next();
    } else if HasPrefix(token, LEFT) {
      var _ := scanner.Next();  // the delimiter
      state.Push(Delimiter);
    } else if HasPrefix(token, RIGHT) {
      var _ := scanner.Next();
      event := state.Pop(Delimiter);
    } else if HasPrefix(token, TYPE) {
      var found := scanner.Next();  // the delimiter
      state.mode := Verbatim;
      if found {
        state.verbatim := Matcher(scanner.current[0]);
      } else {
        event := Some(Fault(state.line));
      }
    }
  }

  /** One turn of the `balanced` loop, on the scanner's current token. */
  method Turn(state: State, scanner: Lexer.Scanner) returns (event: Option<Event>)
    requires scanner.Valid() && 1 <= scanner.pos && scanner.current == scanner.tokens[scanner.pos - 1]
    modifies state, scanner
    ensures scanner.Valid() && old(scanner.pos) <= scanner.pos
    ensures Step(old(state.Value()), scanner.tokens[old(scanner.pos) - 1..])
            == Outcome(state.Value(), scanner.pos - old(scanner.pos) + 1, event)
  {
    var token := scanner.current;
    event := None;
    if state.mode != Verbatim {
      var b := token[0];
      if b == '\n' || b == '\r' {
        state.line := state.line + 1;
      } else if b == '\\' {
        event := Escape(state, scanner, token);
      } else if b == '{' {
        state.Push(Brace);
      } else if b == '}' {
        event := state.Pop(Brace);
      } else if b == '[' {
        state.Push(Bracket);
      } else if b == ']' {
        event := state.Pop(Bracket);
      } else if b == '(' {
        state.Push(Paren);
      } else if b == ')' {
        event := state.Pop(Paren);
      } else if b == '<' {
        state.Push(Chevron);
      } else if b == '>' {
        event := state.Pop(Chevron);
      } else if b == '$' {
        if state.mode == Math {
          event := state.Pop(Dollar);
          state.mode := Normal;
        } else {
          state.Push(Dollar);
          state.mode := Math;
        }
      }
    } else if token[0] == state.verbatim {
      state.mode := Normal;
    }
  }

  /** Running from `s` over `a` ends exactly as running from `t` over `b`. */
  ghost predicate Same(s: Snapshot, a: seq<Bytes>, t: Snapshot, b: seq<Bytes>) {
    NonEmpty(a) && NonEmpty(b) && Run(s, a) == Run(t, b)
  }

  lemma SameTrans(s: Snapshot, a: seq<Bytes>, t: Snapshot, b: seq<Bytes>, u: Snapshot, c: seq<Bytes>)
    requires Same(s, a, t, b) && Same(t, b, u, c)
    ensures Same(s, a, u, c)
  {
  }

  /** `Run` takes one step at a time. */
  lemma RunUnfold(s: Snapshot, tokens: seq<Bytes>)
    requires tokens != [] && NonEmpty(tokens)
    ensures var o := Step(s, tokens);
            Run(s, tokens) == if o.event.Some? && o.event.value.Fault? then Trace(o.next, [o.event.value], true)
                              else Extend(Events(o.event), Run(o.next, tokens[o.used..]))
  {
  }

  lemma EmptyExtend(t: Trace)
    ensures Extend([], t) == t
  {
    assert [] + t.events == t.events;
  }

  lemma ExtendTwice(a: seq<Event>, b: seq<Event>, t: Trace)
    ensures Extend(a, Extend(b, t)) == Extend(a + b, t)
  {
    assert a + (b + t.events) == (a + b) + t.events;
  }

  /** `RunUnfold` with the outcome of the step named. */
  lemma RunOutcome(s: Snapshot, tokens: seq<Bytes>, t: Snapshot, used: nat, event: Option<Event>)
    requires tokens != [] && NonEmpty(tokens) && Step(s, tokens) == Outcome(t, used, event)
    ensures Run(s, tokens) == if event.Some? && event.value.Fault? then Trace(t, [event.value], true)
                              else Extend(Events(event), Run(t, tokens[used..]))
  {
    RunUnfold(s, tokens);
  }

  /** The tokens from `at` on are non-empty and continue with those from `next` on. */
  lemma SliceRest(tokens: seq<Bytes>, at: nat, next: nat)
    requires NonEmpty(tokens) && at < next <= |tokens|
    ensures tokens[at..] != [] && NonEmpty(tokens[at..]) && tokens[at..][next - at..] == tokens[next..]
  {
  }

  /** One turn of the loop, from token `at` to token `next`, seen from the
      diagnostics `events` reported before it. */
  lemma RunTurn(s: Snapshot, tokens: seq<Bytes>, at: nat, t: Snapshot, next: nat,
                event: Option<Event>, events: seq<Event>)
    requires NonEmpty(tokens) && at < next <= |tokens|
    requires Step(s, tokens[at..]) == Outcome(t, next - at, event)
    ensures event.Some? && event.value.Fault? ==>
              Extend(events, Run(s, tokens[at..])) == Trace(t, events + [event.value], true)
    ensures !(event.Some? && event.value.Fault?) ==>
              Extend(events, Run(s, tokens[at..])) == Extend(events + Events(event), Run(t, tokens[next..]))
  {
    SliceRest(tokens, at, next);
    TurnOn(s, tokens[at..], tokens[next..], t, next - at, event, events);
  }

  /** `RunTurn` over the remaining tokens `rest` and those after the turn. */
  lemma TurnOn(s: Snapshot, rest: seq<Bytes>, after: seq<Bytes>, t: Snapshot, used: nat,
                event: Option<Event>, events: seq<Event>)
    requires rest != [] && NonEmpty(rest) && used <= |rest| && rest[used..] == after
    requires Step(s, rest) == Outcome(t, used, event)
    ensures event.Some? && event.value.Fault? ==>
              Extend(events, Run(s, rest)) == Trace(t, events + [event.value], true)
    ensures !(event.Some? && event.value.Fault?) ==>
              Extend(events, Run(s, rest)) == Extend(events + Events(event), Run(t, after))
  {
    RunOutcome(s, rest, t, used, event);
    if !(event.Some? && event.value.Fault?) {
      ExtendTwice(events, Events(event), Run(t, after));
    }
  }

  /** A run that stops at a fault reports just what the loop reported. */
  lemma CheckHalted(tokens: seq<Bytes>, t: Trace)
    requires NonEmpty(tokens) && Run(Initial, tokens) == t && t.halted
    ensures Check(tokens) == t.events
  {
  }

  /** A run that uses up its tokens adds the report about the stack's top. */
  lemma CheckFinished(tokens: seq<Bytes>, s: Snapshot, events: seq<Event>)
    requires NonEmpty(tokens) && Run(Initial, tokens) == Extend(events, Run(s, []))
    ensures Check(tokens) == events + if s.stack == [] then [] else [UnexpectedEnd(Top(s.stack))]
  {
  }

  /** A diagnostic `pop` prints. */
  predicate IsPopReport(e: Event) {
    e.Unopened? || e.Mismatch?
  }

  predicate PopReports(es: seq<Event>) {
    forall i :: 0 <= i < |es| ==> IsPopReport(es[i])
  }

  /** What a run can report: diagnostics of `pop`, and last of all the
      fault it stopped at, if it stopped. */
  predicate WellReported(t: Trace) {
    if t.halted then t.events != [] && t.events[|t.events| - 1].Fault? && PopReports(t.events[..|t.events| - 1])
    else PopReports(t.events)
  }

  lemma PopReportsConcat(a: seq<Event>, b: seq<Event>)
    ensures PopReports(a + b) <==> PopReports(a) && PopReports(b)
  {
    if PopReports(a) && PopReports(b) {
      forall i | 0 <= i < |a + b| ensures IsPopReport((a + b)[i]) {
        if i >= |a| { assert (a + b)[i] == b[i - |a|]; }
      }
    }
    if PopReports(a + b) {
      forall i | 0 <= i < |a| ensures IsPopReport(a[i]) { assert a[i] == (a + b)[i]; }
      forall i | 0 <= i < |b| ensures IsPopReport(b[i]) { assert b[i] == (a + b)[i + |a|]; }
    }
  }

  /** Diagnostics of `pop` reported before a run keep it well reported. */
  lemma ExtendReported(a: seq<Event>, t: Trace)
    requires PopReports(a) && WellReported(t)
    ensures WellReported(Extend(a, t))
  {
    var es := a + t.events;
    if t.halted {
      assert es[..|es| - 1] == a + t.events[..|t.events| - 1];
      assert es[|es| - 1] == t.events[|t.events| - 1];
      PopReportsConcat(a, t.events[..|t.events| - 1]);
    } else {
      PopReportsConcat(a, t.events);
    }
  }

  /** The loop reports only what `pop` prints, except for the fault it
      stops at, which comes last. */
  lemma {:induction false} RunReports(s: Snapshot, tokens: seq<Bytes>)
    requires NonEmpty(tokens)
    ensures WellReported(Run(s, tokens))
    decreases |tokens|
  {
    if tokens != [] {
      var o := Step(s, tokens);
      RunUnfold(s, tokens);
      StepEventLine(s, tokens);
      if o.event.Some? && o.event.value.Fault? {
        assert [o.event.value][..0] == [];
      } else {
        SliceNonEmpty(tokens, o.used);
        RunReports(o.next, tokens[o.used..]);
        ExtendReported(Events(o.event), Run(o.next, tokens[o.used..]));
      }
    }
  }

  lemma SliceNonEmpty(tokens: seq<Bytes>, k: nat)
    requires NonEmpty(tokens) && k <= |tokens|
    ensures NonEmpty(tokens[k..])
  {
  }

  /** Everything `balanced` reports is a diagnostic of `pop`, except the
      last report, which may also be the fault the loop stopped at or the
      one end-of-input report. */
  lemma CheckReports(tokens: seq<Bytes>)
    requires NonEmpty(tokens)
    ensures var r := Check(tokens); r != [] ==> PopReports(r[..|r| - 1])
    ensures var r := Check(tokens); r != [] && r[|r| - 1].UnexpectedEnd? ==> !Run(Initial, tokens).halted
  {
    var t := Run(Initial, tokens);
    RunReports(Initial, tokens);
    if !t.halted && t.final.stack != [] {
      var r := t.events + [UnexpectedEnd(Top(t.final.stack))];
      assert r[..|r| - 1] == t.events;
    } else if !t.halted && t.events != [] {
      PopReportsConcat(t.events[..|t.events| - 1], [t.events[|t.events| - 1]]);
      assert t.events[..|t.events| - 1] + [t.events[|t.events| - 1]] == t.events;
    }
  }

  /** `balanced`: read the scanner's tokens from the start and report every
      diagnostic, as `Check` says. A scanner built over the bytes `data`
      yields `Lexer.Scan(data)`. */
  method Balanced(scanner: Lexer.Scanner) returns (events: seq<Event>)
    requires scanner.Valid() && scanner.pos == 0
    modifies scanner
    ensures events == Check(scanner.tokens)
  {
    var state := new State();
    state.line := state.line + 1;
    ghost var tokens := scanner.tokens;
    events := [];
    var more := scanner.Next();
    ghost var at := 0;  // the token the loop looks at next
    assert state.Value() == Initial && tokens[at..] == tokens;
    EmptyExtend(Run(Initial, tokens));
    while more
      invariant scanner.Valid() && scanner.tokens == tokens
      invariant more ==> at + 1 == scanner.pos && scanner.current == tokens[at]
      invariant !more ==> at == |tokens|
      invariant at <= |tokens|
      invariant Run(Initial, tokens) == Extend(events, Run(state.Value(), tokens[at..]))
      decreases |tokens| - at
    {
      ghost var before := state.Value();
      var event := Turn(state, scanner);
      RunTurn(before, tokens, at, state.Value(), scanner.pos, event, events);
      if event.Some? && event.value.Fault? {
        // the source indexes the first byte of the missing token and stops here
        CheckHalted(tokens, Trace(state.Value(), events + [event.value], true));
        events := events + [event.value];
        return;
      }
      events := events + Events(event);
      ghost var after := state.Value();
      ghost var next := scanner.pos;
      more := scanner.Next();
      at := if more then scanner.pos - 1 else |tokens|;
      assert at == next && state.Value() == after;
    }
    assert tokens[at..] == [];
    CheckFinished(tokens, state.Value(), events);
    if state.stack != [] {
      events := events + [UnexpectedEnd(Top(state.stack))];
    }
  }
}
