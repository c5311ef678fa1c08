# tex-check in Dafny

A model of `tex-check.go`, a one-pass nesting checker for TeX/ConTeXt
markup. The checker reads a document as a stream of tokens cut by its own
split function and follows a small state machine. It keeps a mode
(NORMAL, MATH, VERBATIM), a line counter, a stack of open constructs with
the line each was opened on, and the byte that ends a verbatim run. Each
closer is matched against the top of the stack, and at the end of input
the construct left on top is reported.

The project has five modules, one per part of the source:

- `ByteStrings`: bytes (characters below 256, so that Go's literals read
  the same), Go's `bytes.HasPrefix`, and an `Option` for Go's `nil`.
- `Symbols`: the nine `Symbol` implementations, their `opening`/`closing`
  spellings, and `matcher`.
- `Lexer`:
  - the byte predicates, `consume`, `consumeWhile`, `consumeTill` and `splitter`;
  - `Scan`, the token stream a `bufio.Scanner` driven by `splitter` yields
    over a whole input;
  - `ScanAsWritten`, the same stream with the end-of-input fault described
    under Findings;
  - a `Scanner` class with `Scan()`/`Bytes()` folded into `Next`.
- `Checker`:
  - `State` as a class with `push`/`pop` as its methods `Push`/`Pop`;
  - `balanced` as the method `Balanced`, with its loop body in `Turn` and
    its escape dispatch in `Escape`;
  - a functional specification of that loop: `Step` (one turn), `Run` (the
    loop from a state) and `Check` (everything reported).
  
  `Balanced` is proved to report exactly `Check` of the scanner's tokens.
- `Nesting`: what `Check` gives on documents built from properly nested
  constructs, and on the simplest ways of breaking them.

Diagnostics are not printed. The model reports them as `Event` values:

- `Unopened`: a closer with nothing open;
- `Mismatch`: a closer that does not match the construct on top of the stack;
- `UnexpectedEnd`: the end-of-input report;
- `Fault`: the run-time fault of `\type` with no token after it.

Each event carries the line numbers and symbols the printed message would
show.

Some of what `tex-check.go` does that a reader might not expect:

- `\starttyping` is an ordinary `StartStop` and does not enter VERBATIM.
- `\type` pushes nothing. It sets VERBATIM and the awaited byte
  `matcher(first byte of the next token)`.
- VERBATIM ends on any token whose first byte is that byte.
- `@` is an ordinary byte, because the `At` handling is commented out.
- There is no `Other` symbol.
- Only the top of a non-empty final stack is reported.
- There is no verdict: `balanced` returns `true` whatever happens.
- Some inputs end in a run-time fault rather than a report (see Findings).

`Checker.Balanced` and `Checker.Escape` model `balanced` over the corrected
splitter: the `Scanner` they read yields `Lexer.Scan`. With `splitter` as
written, `bufio.Scanner` calls it on an empty buffer at the first `Scan()`
after the token stream has ended, and `data[0]` faults (tex-check.go:120).
That `Scan()` is one of two:

- When the tokens use up the whole input, it is the `Scan()` right after the
  last token. `Lexer.ScanAsWritten` faults exactly on these inputs
  (`Lexer.ScanAsWrittenFaults`), and every input ending in a line break is
  one of them (`Lexer.NewlineTerminatedFaults`).
- When the input ends in a run `splitter` holds back, the `Scan()` after the
  last token returns false without a fault, and only the next `Scan()`
  faults. The loop at tex-check.go:158 stops at the first false, so this
  happens only when a read-ahead `Scan()` of `\begin`, `\end`, `\left` or
  `\right` (tex-check.go:173-186) returned the false one. An example is
  `\left` followed by two spaces: `Delimiter` is pushed, and the loop's next
  `Scan()` faults.

Either way the fault comes before the end-of-input report of
tex-check.go:227-231. When the faulting `Scan()` is a read-ahead, the push or
pop of its branch may already have happened: `\begin{}` pushes
`BeginEnd("}")` before its third `Scan()` faults. The model and the program
agree on the inputs that `splitter` sees in one read (at most 4096 bytes, the
size of the scanner's first buffer), where `ScanAsWritten` does not fault and
no read-ahead goes past the last token. On those inputs `ScanAsWritten`
yields the same tokens as `Scan`.

## Model

| member | source | states |
|---|---|---|
| Symbols.Symbol.Opening | tex-check.go:27-35 | the opening spellings, one per variant; the reference definition `SpellingShapes` and `OpeningInjective` are about |
| Symbols.Symbol.Closing | tex-check.go:37-45 | the closing spellings, one per variant; the reference definition `SpellingShapes` and `ClosingInjective` are about |
| Symbols.SpellingShapes | tex-check.go:27-45 | spellings are non-empty; the brackets, `$` and `@` have one byte, and exactly the others start with `\`, which is how `balanced` tells its byte cases from its escape cases |
| Symbols.OpeningInjective | tex-check.go:27-35 | two symbols with the same opening spelling are the same symbol, so each spelling is fixed per variant and payload |
| Symbols.ClosingInjective | tex-check.go:37-45 | two symbols with the same closing spelling are equal, so a closing spelling quoted in a diagnostic names exactly one symbol |
| Symbols.Matcher | tex-check.go:104-117 | an opening bracket byte is mapped to its partner's closing byte; every other byte is returned unchanged |
| Symbols.MatcherIdempotent | tex-check.go:104-117 | the result of `matcher` never opens a bracket, so `matcher(matcher(b)) == matcher(b)` |
| Symbols.MatcherClosesBrackets | tex-check.go:104-117 | for each of `{ [ ( <`, `matcher` gives exactly the one-byte closing spelling of the same symbol |
| Lexer.ConsumeWhile | tex-check.go:84-92 | the token is a prefix of the buffer ending strictly inside it; with no token the advance is 0 |
| Lexer.ConsumeWhileStops | tex-check.go:84-92 | the token is the maximal run of bytes passing the test and the next byte fails it; no token means every byte passes |
| Lexer.ConsumeTill | tex-check.go:94-102 | the token is a prefix of the buffer ending strictly inside it; with no token the advance is 0 |
| Lexer.ConsumeTillStops | tex-check.go:94-102 | the token stops right before the first byte passing the test; no token means no byte passes |
| Lexer.FirstWhere | tex-check.go:85-90 | the index of the first byte at which the `range` loop of `consumeWhile`/`consumeTill` breaks, if any; it always lies inside the buffer |
| Lexer.FirstWhereFinds | tex-check.go:84-102 | the `for i, b := range data` search finds the first stopping byte, and finds none only when there is none |
| Lexer.Split | tex-check.go:119-139 | on a non-empty buffer, a token is a non-empty prefix of the buffer and `advance` is its length; no token means `advance` 0 |
| Lexer.SplitByClass | tex-check.go:119-139 | newlines and bytes of no class give one-byte tokens, the `consume(1, data)` cut of tex-check.go:79-82; space, letter and digit runs are maximal and held back when they reach the buffer's end; an escape is `\` and the letters after it; a comment runs up to, not including, the next newline |
| Lexer.ScanSpellsPrefix | tex-check.go:119-139 | the tokens of a whole input, written one after another, spell a prefix of it, and what is left is a run `splitter` holds back for more input |
| Lexer.Scan | tex-check.go:158 | the tokens `for scanner.Scan()` yields over a whole input with the corrected splitter (an empty buffer ends the stream); every token is non-empty. This is the reference definition that `ScanSpellsPrefix` is about |
| Lexer.ScanAsWritten | tex-check.go:120 | the same loop with `splitter` as written, where the empty buffer at the end of input is a fault. This is the reference definition that `ScanAsWrittenFaults` is about |
| Lexer.ScanAsWrittenFaults | tex-check.go:119-120 | the scan as written faults exactly when its tokens use up the whole input (empty input included); otherwise it yields the corrected stream |
| Lexer.NewlineTerminatedFaults | tex-check.go:119-122 | every input whose last byte is a line break makes the source fault at the end of input, since no run `splitter` holds back can reach past a line break |
| Lexer.NewlineTerminatedInputFaults | tex-check.go:119-120 | for the input `x` followed by a newline, the corrected stream is `x`, newline, while the scan as written faults |
| Lexer.ScanSingle | tex-check.go:135-136 | a byte of no class is a token of its own, whatever follows |
| Lexer.ScanSpace | tex-check.go:123-124 | a single space before a byte that is not a space is a token of its own |
| Lexer.ScanGroup | tex-check.go:75-77 | a byte `isGrouping` accepts is a one-byte token (`splitter` itself never calls `isGrouping`) |
| Lexer.Scanner.constructor | tex-check.go:156 | a scanner with `splitter` installed over the bytes `data`: it will yield `Scan(data)`, and no token has been read yet |
| Lexer.Scanner.Next | tex-check.go:158 | `Scan()` followed by `Bytes()`: it moves to the next token if there is one, and otherwise yields the empty token |
| Checker.State.constructor | tex-check.go:154 | `new(State)`: NORMAL, line 0, empty stack, verbatim byte 0 |
| Checker.State.Push | tex-check.go:235-238 | `push` appends exactly `(symbol, line)` and changes nothing else |
| Checker.State.Pop | tex-check.go:240-255 | `pop`: on an empty stack it reports an unopened closer; on a match it removes exactly the top; on a mismatch it reports both symbols and leaves the stack; mode, line and verbatim byte never change |
| Checker.Popped | tex-check.go:240-255 | on values: the stack never grows, a closer is consumed if and only if it matches the top, and only the top goes |
| Checker.EscapeStep | tex-check.go:164-192 | the escape dispatch on values: it uses the escape token and at most the tokens it reads ahead, never more than remain; the line never changes; only `\type` changes the mode or the awaited byte |
| Checker.Step | tex-check.go:158-225 | one turn uses the current token and at most the tokens it reads ahead, never more than remain |
| Checker.StepLine | tex-check.go:159-163 | the line advances by one on a newline token, and only in NORMAL or MATH |
| Checker.StepStack | tex-check.go:159-217 | one turn leaves the stack, pushes one entry dated with the current line, or pops the top on a match |
| Checker.EscapeStack | tex-check.go:164-192 | the same for the escape dispatch |
| Checker.StepVerbatim | tex-check.go:221-224 | in VERBATIM a turn uses one token, reports nothing, and only returns to NORMAL when the token starts with the awaited byte |
| Checker.StepDollar | tex-check.go:209-217 | `$` in NORMAL pushes `Dollar` and enters MATH; in MATH it pops `Dollar` and returns to NORMAL even if that pop reported a mismatch |
| Checker.StepEventLine | tex-check.go:240-253 | every diagnostic of a turn is dated with the current line |
| Checker.Escape | tex-check.go:164-192 | the escape dispatch with its reading ahead does what `EscapeStep` specifies |
| Checker.Turn | tex-check.go:159-225 | one pass of the loop body does what `Step` specifies, reading ahead through the scanner |
| Checker.RunTurn | tex-check.go:158-226 | one turn continues the run from the next token, or stops it at a fault |
| Checker.CheckHalted | tex-check.go:188-191 | a run that faults reports only what came before it and the fault itself |
| Checker.CheckFinished | tex-check.go:227-232 | a run that uses up its tokens adds one report, about the top of a non-empty final stack |
| Checker.Run | tex-check.go:158-226 | the `for scanner.Scan()` loop on values, from a state over the remaining tokens. This is the reference definition `Balanced` is proved against; `RunTurn` and `RunReports` state its properties |
| Checker.RunReports | tex-check.go:158-226 | the loop reports only the diagnostics of `pop`, except for the `\type` fault it stops at, which comes last |
| Checker.Check | tex-check.go:158-232 | everything `balanced` reports: the loop's diagnostics, then the end-of-input report if the run did not stop at a fault and the stack is not empty. This is the reference definition `Balanced` is proved against |
| Checker.CheckReports | tex-check.go:227-232 | every report but the last is a diagnostic of `pop`; an end-of-input report only ends a run that did not fault |
| Checker.Balanced | tex-check.go:153-233 | `balanced` over a fresh scanner with the corrected splitter reports exactly `Check` of its tokens |
| Nesting.NestedIsClean | tex-check.go:153-233 | a well-nested document reports nothing, counts its line breaks (`\n` and `\r`), and ends with an empty stack; its words may be plain text or control words such as `\emph` that start with none of the escapes `balanced` acts on |
| Nesting.UnclosedReported | tex-check.go:227-232 | the opener of any construct (a bracket, `$`, `\left`, `\start<name>`, `\begin{<name>}`) left unclosed between two well-nested documents is the only report, at the end, with the line it was opened on |
| Nesting.StepCloser | tex-check.go:193-217 | the closer of any construct is one `pop` of its symbol, whatever is on top, using exactly the closer's tokens; `$` also returns to NORMAL |
| Nesting.StrayCloser | tex-check.go:240-253 | any closer (a bracket, `$` in MATH, `\right`, `\stop<name>`, `\end{<name>}`) that does not match the top is reported, as unopened or as a mismatch naming the top, and is otherwise ignored; only `$` changes the mode, back to NORMAL |
| Nesting.StrayInside | tex-check.go:240-253 | in `{ ] }` and the like, the stray closer is one mismatch, and the run ends in the state it started from |
| Nesting.ScanSpaced | tex-check.go:119-139 | three bytes of no class separated by spaces are five tokens |
| Nesting.MismatchNotConsumed | tex-check.go:247-252 | the input `{ ] }` reports one mismatch of `]` against the `{` of line 1 and ends with an empty stack |
| Nesting.VerbatimSkips | tex-check.go:221-224 | in VERBATIM, tokens not starting with the awaited byte are skipped without effect, line breaks included |
| Nesting.TypeIsOpaque | tex-check.go:188-191 | `\type`, a delimiter, any tokens without its closing byte, and the closing token return to NORMAL with nothing pushed or counted |
| Nesting.TypeAtEndFaults | tex-check.go:188-191 | `\type` as the last token faults on the current line and stops the run |
| Nesting.TypeAtEndReported | tex-check.go:188-191 | a well-nested document followed by `\type` reports just the fault, on its last line |

## Left out

- `main` and `lex` are command-line glue (file opening and a token dump). They are not modelled.
- Message text and `fmt.Printf` traces are replaced by `Event` values. The `++`/`--` trace lines of `push` and `pop` are dropped.
- The `bufio.Scanner` buffering and refill protocol are not modelled. The input is one complete byte sequence. `splitter` asking for more input means the stream ends there, as at end of input, and the ignored `end` flag is not a parameter. On a longer input the program sees it in chunks, and the escape case of `splitter` (tex-check.go:129-132) never asks for more input. An escape whose letters reach the end of a chunk is therefore cut into a lone `\` and a separate letter run: a `\begin{x}` that straddles a refill pushes `Brace`, and its `\end{x}` is then reported as a stray closer. The model cuts an escape that way only at the end of the whole input, and does not show the chunk boundaries. Tokens longer than the scanner's maximum size are not modelled either.
- The `uint` line counter is a `nat`. Wrap-around after 2^64 lines is not modelled.
- `balanced`'s `bool` result: Checker.Balanced returns its diagnostics instead of the constant `true`. The constant result carries no information.
- Checker.Escape: models the corrected splitter. When `\begin`, `\end`, `\left` or `\right` run out of tokens, the missing names are the empty token, as `Bytes()` gives after a `Scan()` that found nothing. With `splitter` as written, that `Scan()` or the next one faults on the empty buffer instead: that `Scan()` when the tokens use up the input, the next one when the input ends in a run `splitter` holds back. `\type` with no token after it is a `Fault` event, and the run stops there: the source indexes a nil slice at that point and panics.
- Checker.Balanced: models `balanced` over the corrected splitter. As written, the run faults before the end-of-input report whenever `Lexer.ScanAsWritten` faults, which includes every input ending in a line break. It also faults when the input ends in a held-back run and a read-ahead `Scan()` of `\begin`, `\end`, `\left` or `\right` reaches past the last token: that `Scan()` returns false, and the next one faults on the empty buffer. The model states the first case about the token stream (`Lexer.ScanAsWrittenFaults`, `Lexer.NewlineTerminatedFaults`). It carries neither fault through the loop, and where the model then reports an end-of-input event, the program faults instead.
- The commented-out `@` handling (tex-check.go:218-219) and the commented-out split variants (tex-check.go:141-151) are not modelled: they are not part of the running program.
- The `Nesting` results are stated over token streams. Only `Nesting.ScanSpaced` and `Nesting.MismatchNotConsumed` go down to bytes.

## Findings

| source | as written | input that shows it | evidently intended | confidence | as-written member | corrected member |
|---|---|---|---|---|---|---|
| tex-check.go:119-120 | `splitter` reads `data[0]` unguarded, but at end of input `bufio.Scanner` calls it with an empty buffer, which panics with an index out of range | `x` followed by a newline: after the tokens `x` and newline the buffer is empty at end of input | an empty buffer ends the stream (return 0, nil, nil) | not executed | Lexer.ScanAsWrittenFaults | Lexer.ScanSpellsPrefix |
