/** The tokenizer: `splitter` and its helpers, and the token stream a
    `bufio.Scanner` driven by it yields over a whole input. */
module Lexer {
  import opened ByteStrings

  predicate IsNewLine(b: Byte) { b == '\n' || b == '\r' }
  predicate IsSpace(b: Byte) { b == ' ' || b == '\t' }
  predicate IsLetter(b: Byte) { 'A' <= b <= 'Z' || 'a' <= b <= 'z' }
  predicate IsDigit(b: Byte) { '0' <= b <= '9' }
  predicate IsEscape(b: Byte) { b == '\\' }
  predicate IsComment(b: Byte) { b == '%' }
  predicate IsGrouping(b: Byte) {
    b == '{' || b == '}' || b == '[' || b == ']' || b == '(' || b == ')'
    || b == '<' || b == '>' || b == '$' || b == '@'
  }

  /** A byte of none of the classes `splitter` tests for. */
  predicate Unclassed(b: Byte) {
    !(IsNewLine(b) || IsSpace(b) || IsLetter(b) || IsDigit(b) || IsEscape(b) || IsComment(b))
  }

  /** What a split function hands back to the scanner: how many bytes to
      advance, and a token, or `None` for Go's `nil` ("no token yet"). */
  datatype Cut = Cut(advance: nat, token: Option<Bytes>)

  /** Every byte of `s` passes `test`. */
  ghost predicate All(test: Byte -> bool, s: Bytes) {
    forall j :: 0 <= j < |s| ==> test(s[j])
  }

  /** No byte of `s` passes `test`. */
  ghost predicate NoneOf(test: Byte -> bool, s: Bytes) {
    forall j :: 0 <= j < |s| ==> !test(s[j])
  }

  /** The index of the first byte `b` of `data` with `test(b) == stopAt`, if any:
      the `for i, b := range data` search of `consumeWhile` (`stopAt` false)
      and `consumeTill` (`stopAt` true). */
  function FirstWhere(test: Byte -> bool, stopAt: bool, data: Bytes): (r: Option<nat>)
    ensures r.Some? ==> r.value < |data|
  {
    if |data| == 0 then None
    else if test(data[0]) == stopAt then Some(0)
    else match FirstWhere(test, stopAt, data[1..])
      case None => None
      case Some(k) => Some(k + 1)
  }

  /** `FirstWhere` finds the first byte that stops the search, and finds
      nothing only when no byte does. */
  lemma {:induction false} FirstWhereFinds(test: Byte -> bool, stopAt: bool, data: Bytes)
    ensures var r := FirstWhere(test, stopAt, data);
            (r.Some? ==> test(data[r.value]) == stopAt
                         && forall j :: 0 <= j < r.value ==> test(data[j]) != stopAt)
            && (r.None? ==> forall j :: 0 <= j < |data| ==> test(data[j]) != stopAt)
  {
    if |data| > 0 && test(data[0]) != stopAt {
      FirstWhereFinds(test, stopAt, data[1..]);
      assert forall j :: 1 <= j < |data| ==> data[j] == data[1..][j - 1];
    }
  }

  /** `consume`: the first `n` bytes. */
  function Consume(n: nat, data: Bytes): (c: Cut)
    requires n <= |data|
  {
    Cut(n, Some(data[..n]))
  }

  /** `consumeWhile`: the bytes before the first one failing `test`; when
      every byte passes, no token and no advance. */
  function ConsumeWhile(test: Byte -> bool, data: Bytes): (c: Cut)
    ensures c.token.Some? ==> c.advance < |data| && c.token.value == data[..c.advance]
    ensures c.token.None? ==> c.advance == 0
  {
    match FirstWhere(test, false, data)
    case Some(i) => Cut(i, Some(data[..i]))
    case None => Cut(0, None)
  }

  /** `consumeTill`: the bytes before the first one passing `test`; when no
      byte passes, no token and no advance. */
  function ConsumeTill(test: Byte -> bool, data: Bytes): (c: Cut)
    ensures c.token.Some? ==> c.advance < |data| && c.token.value == data[..c.advance]
    ensures c.token.None? ==> c.advance == 0
  {
    match FirstWhere(test, true, data)
    case Some(i) => Cut(i, Some(data[..i]))
    case None => Cut(0, None)
  }

  /** `consumeWhile` stops at the first byte failing `test`: every byte of
      the token passes it; with no token, every byte of the buffer does. */
  lemma ConsumeWhileStops(test: Byte -> bool, data: Bytes)
    ensures var c := ConsumeWhile(test, data);
            (c.token.Some? ==> !test(data[c.advance]) && All(test, data[..c.advance]))
            && (c.token.None? ==> All(test, data))
  {
    FirstWhereFinds(test, false, data);
  }

  /** `consumeTill` stops at the first byte passing `test`: no byte of the
      token passes it; with no token, no byte of the buffer does. */
  lemma ConsumeTillStops(test: Byte -> bool, data: Bytes)
    ensures var c := ConsumeTill(test, data);
            (c.token.Some? ==> test(data[c.advance]) && NoneOf(test, data[..c.advance]))
            && (c.token.None? ==> NoneOf(test, data))
  {
    FirstWhereFinds(test, true, data);
  }

  /** `splitter`, on a non-empty buffer (the source reads `data[0]` unguarded).
      The `end` flag is ignored by the source and is not a parameter here. */
  function Split(data: Bytes): (c: Cut)
    requires |data| > 0
    // a token is always a non-empty prefix of the buffer
    ensures c.token.Some? ==> 1 <= c.advance <= |data| && c.token.value == data[..c.advance]
    ensures c.token.None? ==> c.advance == 0
  {
    var b := data[0];
    if IsNewLine(b) then Consume(1, data)
    else if IsSpace(b) then ConsumeWhile(IsSpace, data)
    else if IsLetter(b) then ConsumeWhile(IsLetter, data)
    else if IsDigit(b) then ConsumeWhile(IsDigit, data)
    else if IsEscape(b) then
      var c := ConsumeWhile(IsLetter, data[1..]);
      var name := match c.token case Some(t) => t case None => [];
      Cut(c.advance + 1, Some(['\\'] + name))
    else if IsComment(b) then ConsumeTill(IsNewLine, data)
    else Consume(1, data)
  }

  /** The token `splitter` cuts, by the class of the buffer's first byte. */
  lemma SplitByClass(data: Bytes)
    requires |data| > 0
    // newlines and bytes of no class are single-byte tokens
    ensures IsNewLine(data[0]) || !(IsSpace(data[0]) || IsLetter(data[0]) || IsDigit(data[0])
                                    || IsEscape(data[0]) || IsComment(data[0]))
            ==> Split(data) == Cut(1, Some(data[..1]))
    // a space, letter or digit run is maximal; a run reaching the end of the buffer is held back
    ensures IsSpace(data[0]) ==> RunCut(IsSpace, data, Split(data))
    ensures IsLetter(data[0]) ==> RunCut(IsLetter, data, Split(data))
    ensures IsDigit(data[0]) ==> RunCut(IsDigit, data, Split(data))
    ensures IsEscape(data[0]) ==> EscapeCut(data, Split(data))
    ensures IsComment(data[0]) ==> CommentCut(data, Split(data))
  {
    var b := data[0];
    if IsSpace(b) { ConsumeWhileStops(IsSpace, data); }
    else if IsLetter(b) { ConsumeWhileStops(IsLetter, data); }
    else if IsDigit(b) { ConsumeWhileStops(IsDigit, data); }
    else if IsEscape(b) { ConsumeWhileStops(IsLetter, data[1..]); }
    else if IsComment(b) { ConsumeTillStops(IsNewLine, data); }
  }

  /** A buffer that starts with a run of `test` bytes: the token is the whole
      run when a byte outside the class ends it, and none when it reaches the
      end of the buffer. */
  ghost predicate RunCut(test: Byte -> bool, data: Bytes, c: Cut) {
    if c.token.Some? then c.advance < |data| && !test(data[c.advance]) && All(test, data[..c.advance])
    else All(test, data)
  }

  /** A buffer that starts with a backslash: the token is the backslash and
      the letters after it when a non-letter ends them; when the letters reach
      the end of the buffer, it is the backslash alone. */
  ghost predicate EscapeCut(data: Bytes, c: Cut)
    requires |data| > 0
  {
    c.token.Some? && 1 <= c.advance <= |data|
    && if c.advance < |data| && !IsLetter(data[c.advance]) then All(IsLetter, data[1..c.advance])
       else c.advance == 1 && All(IsLetter, data[1..])
  }

  /** A buffer that starts with `%`: the token runs up to, not including, the
      next newline, and there is none when no newline follows. */
  ghost predicate CommentCut(data: Bytes, c: Cut) {
    if c.token.Some? then c.advance < |data| && IsNewLine(data[c.advance]) && NoneOf(IsNewLine, data[..c.advance])
    else NoneOf(IsNewLine, data)
  }

  /** The tokens a scanner split by `splitter` yields over the whole input
      `data`, read as one buffer. The stream ends when the buffer is used up
      or when `splitter` asks for more input at its end. */
  function Scan(data: Bytes): (tokens: seq<Bytes>)
    decreases |data|
    ensures NonEmpty(tokens)
  {
    if |data| == 0 then []
    else
      var c := Split(data);
      match c.token
      case None => []
      case Some(t) => [t] + Scan(data[c.advance..])
  }

  /** The tokens spell out a prefix of the input, and what is left after them
      is nothing, or a run that `splitter` holds back for more input. */
  lemma {:induction false} ScanSpellsPrefix(data: Bytes)
    decreases |data|
    ensures |Concat(Scan(data))| <= |data|
    ensures Concat(Scan(data)) == data[..|Concat(Scan(data))|]
    ensures |Concat(Scan(data))| < |data| ==> Split(data[|Concat(Scan(data))|..]).token.None?
  {
    if |data| > 0 {
      var c := Split(data);
      if c.token.Some? {
        var t, tail := c.token.value, data[c.advance..];
        ScanSpellsPrefix(tail);
        SpellsStep(data, t, tail, Scan(tail), Scan(data));
      }
    }
  }

  /** One token of `ScanSpellsPrefix`: `t` before the tokens of `tail`. */
  lemma SpellsStep(data: Bytes, t: Bytes, tail: Bytes, rest: seq<Bytes>, tokens: seq<Bytes>)
    requires data == t + tail && tokens == [t] + rest
    requires |Concat(rest)| <= |tail| && Concat(rest) == tail[..|Concat(rest)|]
    ensures |Concat(tokens)| <= |data| && Concat(tokens) == data[..|Concat(tokens)|]
    ensures data[|Concat(tokens)|..] == tail[|Concat(rest)|..]
  {
    ConcatCons(t, rest);
    PrefixStep(data, t, tail, Concat(rest));
  }

  /** Sequence facts behind one step of `ScanSpellsPrefix`. */
  lemma PrefixStep(data: Bytes, t: Bytes, tail: Bytes, spelt: Bytes)
    requires data == t + tail && |spelt| <= |tail| && spelt == tail[..|spelt|]
    ensures |t + spelt| <= |data| && t + spelt == data[..|t + spelt|]
    ensures data[|t + spelt|..] == tail[|spelt|..]
  {
  }

  /** The same scan with `splitter` as written: the scanner also calls it on
      the empty buffer at the end of the input (as Go's `bufio.SplitFunc`
      contract allows), where `data[0]` is out of range. `None` is that
      run-time fault. */
  function ScanAsWritten(data: Bytes): Option<seq<Bytes>>
    decreases |data|
  {
    if |data| == 0 then None
    else
      var c := Split(data);
      match c.token
      case None => Some([])
      case Some(t) =>
        match ScanAsWritten(data[c.advance..])
        case None => None
        case Some(rest) => Some([t] + rest)
  }

  /** The source's scan faults exactly when its tokens use up the whole input
      (the empty input included); otherwise it yields the corrected stream. */
  lemma {:induction false} ScanAsWrittenFaults(data: Bytes)
    decreases |data|
    ensures ScanAsWritten(data).None? <==> Concat(Scan(data)) == data
    ensures ScanAsWritten(data).Some? ==> ScanAsWritten(data).value == Scan(data)
  {
    if |data| > 0 {
      var c := Split(data);
      if c.token.Some? {
        var t, tail := c.token.value, data[c.advance..];
        ScanAsWrittenFaults(tail);
        PrefixStep(data, t, tail, []);
        ConcatCons(t, Scan(tail));
        CancelPrefix(t, Concat(Scan(tail)), tail);
      }
    }
  }

  lemma ConcatCons(t: Bytes, rest: seq<Bytes>)
    ensures Concat([t] + rest) == t + Concat(rest)
  {
    assert ([t] + rest)[1..] == rest;
  }

  lemma CancelPrefix(t: Bytes, x: Bytes, y: Bytes)
    ensures t + x == t + y <==> x == y
  {
    if t + x == t + y {
      assert x == (t + x)[|t|..] && y == (t + y)[|t|..];
    }
  }

  /** A byte of no class is a token of its own, whatever follows it. */
  lemma ScanSingle(b: Byte, rest: Bytes)
    requires Unclassed(b)
    ensures Scan([b] + rest) == [[b]] + Scan(rest)
  {
    var data := [b] + rest;
    SplitByClass(data);
    assert data[..1] == [b] && data[1..] == rest;
  }

  /** A space before a byte that is not one is a token of its own. */
  lemma ScanSpace(rest: Bytes)
    requires |rest| > 0 && !IsSpace(rest[0])
    ensures Scan([' '] + rest) == [" "] + Scan(rest)
  {
    var data := [' '] + rest;
    assert data[1..] == rest;
    assert FirstWhere(IsSpace, false, rest) == Some(0);
    assert FirstWhere(IsSpace, false, data) == Some(1);
    assert data[..1] == " ";
  }

  /** `splitter` never consults `isGrouping`: a grouping byte falls to its
      default case and is a token of its own, whatever follows it. */
  lemma ScanGroup(b: Byte, rest: Bytes)
    requires IsGrouping(b)
    ensures Scan([b] + rest) == [[b]] + Scan(rest)
  {
    ScanSingle(b, rest);
  }

  /** A space before a byte of no class, and that byte, are two tokens. */
  lemma ScanSpaceSingle(b: Byte, rest: Bytes)
    requires Unclassed(b)
    ensures Scan([' '] + ([b] + rest)) == [" ", [b]] + Scan(rest)
  {
    ScanSpace([b] + rest);
    ScanSingle(b, rest);
  }

  /** A buffer whose last byte is a line break always yields a token: no
      run `splitter` holds back can reach past the line break. */
  lemma SplitsBeforeNewline(data: Bytes)
    requires |data| > 0 && IsNewLine(data[|data| - 1])
    ensures Split(data).token.Some?
  {
    var b := data[0];
    if IsSpace(b) {
      ConsumeWhileStops(IsSpace, data);
    } else if IsLetter(b) {
      ConsumeWhileStops(IsLetter, data);
    } else if IsDigit(b) {
      ConsumeWhileStops(IsDigit, data);
    } else if IsComment(b) {
      ConsumeTillStops(IsNewLine, data);
    }
  }

  /** Every input that ends in a line break, as text files do, makes the
      source fault at the end of input. */
  lemma NewlineTerminatedFaults(data: Bytes)
    requires |data| > 0 && IsNewLine(data[|data| - 1])
    ensures ScanAsWritten(data).None?
  {
    ScanSpellsPrefix(data);
    ScanAsWrittenFaults(data);
    var n := |Concat(Scan(data))|;
    if n < |data| {
      assert data[n..][|data[n..]| - 1] == data[|data| - 1];
      SplitsBeforeNewline(data[n..]);
    }
  }

  /** A concrete input: `x` and a line break. */
  lemma NewlineTerminatedInputFaults()
    ensures Scan("x\n") == ["x", "\n"]
    ensures ScanAsWritten("x\n").None?
  {
    var data: Bytes := "x\n";
    assert data[1..] == "\n";
    assert FirstWhere(IsLetter, false, data[1..]) == Some(0);
    assert FirstWhere(IsLetter, false, data) == Some(1);
    assert IsLetter(data[0]) && data[..1] == "x";
    assert Split(data) == Cut(1, Some("x"));
    assert data[1..] == "\n";
    assert IsNewLine(data[1..][0]) && data[1..][..1] == "\n";
    assert Split(data[1..]) == Cut(1, Some("\n"));
    assert data[1..][1..] == [];
  }

  /** The scanner as `balanced` uses it: `Scan()` moves to the next token and
      reports whether there was one, `Bytes()` is the current token (`nil`,
      here empty, once the stream is exhausted). */
  class Scanner {
    const tokens: seq<Bytes>
    var pos: nat
    var current: Bytes

    ghost predicate Valid()
      reads this
    {
      pos <= |tokens| && NonEmpty(tokens)
    }

    constructor (data: Bytes)
      ensures Valid() && tokens == Scan(data) && pos == 0 && current == []
    {
      tokens := Scan(data);
      pos := 0;
      current := [];
    }

    method Next() returns (ok: bool)
      requires Valid()
      modifies this
      ensures Valid()
      ensures ok == (old(pos) < |tokens|)
      ensures pos == if ok then old(pos) + 1 else old(pos)
      ensures current == if ok then tokens[old(pos)] else []
    {
      ok := pos < |tokens|;
      if ok {
        current := tokens[pos];
        pos := pos + 1;
      } else {
        current := [];
      }
    }
  }
}
