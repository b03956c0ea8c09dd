/**
  Two readers of a token stream that arrives in arbitrary chunks: the client's
  `streamGenerate` (sdk/typescript/cairn-client.ts) and the server's read loop
  in `chat_stream_handler` (crates/cairn-app/src/bin_providers.rs).  Both cut
  the text into lines and take a token from each `data: ` line, up to a line
  that says `[DONE]`.

  Decoding a line's JSON is a parameter: `parse` gives the text found in it,
  None when there is none or the line is malformed.
 */
module StreamLines {
  import opened Common
  import opened Whitespace

  type Parser = string -> Option<string>

  datatype LineKind = Skip | DoneMark | Token(text: string)

  function Taken(raw: string, parse: Parser): LineKind {
    if raw == "[DONE]" then DoneMark
    else if parse(raw).Some? && parse(raw).value != "" then Token(parse(raw).value)
    else Skip
  }

  /** The client: the prefix must begin the line; what follows is trimmed. */
  function ClientLine(line: string, parse: Parser): LineKind {
    if "data: " <= line then Taken(Trim(line[6..], c => IsScriptSpace(c)), parse) else Skip
  }

  /** The server: the line is trimmed first; what follows the prefix is not. */
  function ServerLine(line: string, parse: Parser): LineKind {
    var t := Trim(line, c => IsUnicodeSpace(c));
    if "data: " <= t then Taken(t[6..], parse) else Skip
  }

  function ClientKind(parse: Parser): string -> LineKind {
    line => ClientLine(line, parse)
  }

  function ServerKind(parse: Parser): string -> LineKind {
    line => ServerLine(line, parse)
  }

  // ----- lines of a text

  function NewlineAt(s: string): (k: nat)
    ensures k <= |s| && (k < |s| ==> s[k] == '\n') && '\n' !in s[..k]
  {
    if s == "" || s[0] == '\n' then 0 else NewlineAt(s[1..]) + 1
  }

  /** The newline-terminated lines of a text, without their newlines. */
  function Lines(s: string): seq<string> {
    var k := NewlineAt(s);
    if k == |s| then [] else [s[..k]] + Lines(s[k + 1..])
  }

  /** What follows the last newline. */
  function Rest(s: string): string {
    var k := NewlineAt(s);
    if k == |s| then s else Rest(s[k + 1..])
  }

  function Concat(chunks: seq<string>): string {
    if chunks == [] then "" else Concat(Front(chunks)) + Last(chunks)
  }

  lemma {:induction false} NewlineUnique(s: string, k: nat)
    requires k <= |s| && (k < |s| ==> s[k] == '\n') && '\n' !in s[..k]
    ensures NewlineAt(s) == k
  {
    if k > 0 {
      assert s[0] in s[..k] && s[1..][..k - 1] == s[..k][1..];
      NewlineUnique(s[1..], k - 1);
    }
  }

  /** Text that arrives later continues the unfinished last line. */
  lemma {:induction false} LinesOfMore(a: string, b: string)
    ensures Lines(a + b) == Lines(a) + Lines(Rest(a) + b)
    ensures Rest(a + b) == Rest(Rest(a) + b)
    decreases |a|
  {
    var k := NewlineAt(a);
    if k == |a| {
      assert [] + Lines(a + b) == Lines(a + b);
    } else {
      var rest := a[k + 1..];
      CutLine(a, b, k);
      LinesOfMore(rest, b);
      Regroup([a[..k]], Lines(rest), Lines(Rest(rest) + b));
    }
  }

  /** The first line of a text stays the first when more text follows. */
  lemma CutLine(a: string, b: string, k: nat)
    requires k < |a| && NewlineAt(a) == k
    ensures Lines(a) == [a[..k]] + Lines(a[k + 1..]) && Rest(a) == Rest(a[k + 1..])
    ensures Lines(a + b) == [a[..k]] + Lines(a[k + 1..] + b) && Rest(a + b) == Rest(a[k + 1..] + b)
  {
    assert (a + b)[..k] == a[..k];
    NewlineUnique(a + b, k);
    assert (a + b)[k + 1..] == a[k + 1..] + b;
  }

  lemma Regroup(a: seq<string>, b: seq<string>, c: seq<string>)
    ensures (a + b) + c == a + (b + c)
  {
  }

  lemma {:induction false} LinesGrow(chunks: seq<string>, i: nat)
    requires i <= |chunks|
    ensures Lines(Concat(chunks[..i])) <= Lines(Concat(chunks))
  {
    if i == |chunks| {
      assert chunks[..i] == chunks;
    } else {
      LinesGrow(Front(chunks), i);
      assert Front(chunks)[..i] == chunks[..i];
      LinesOfMore(Concat(Front(chunks)), Last(chunks));
    }
  }

  // ----- tokens of lines

  function TokenOf(line: string, kind: string -> LineKind): seq<string> {
    if kind(line).Token? then [kind(line).text] else []
  }

  function TokensOf(lines: seq<string>, kind: string -> LineKind): seq<string> {
    if lines == [] then [] else TokenOf(lines[0], kind) + TokensOf(lines[1..], kind)
  }

  predicate HasDone(lines: seq<string>, kind: string -> LineKind) {
    exists line :: line in lines && kind(line) == DoneMark
  }

  /** The lines before the first one that says it is done. */
  function UntilDone(lines: seq<string>, kind: string -> LineKind): seq<string> {
    if lines == [] || kind(lines[0]) == DoneMark then [] else [lines[0]] + UntilDone(lines[1..], kind)
  }

  /** The lines from that one on. */
  function FromDone(lines: seq<string>, kind: string -> LineKind): seq<string> {
    if lines == [] || kind(lines[0]) == DoneMark then lines else FromDone(lines[1..], kind)
  }

  lemma {:induction false} DoneSplits(lines: seq<string>, kind: string -> LineKind)
    ensures lines == UntilDone(lines, kind) + FromDone(lines, kind)
    ensures !HasDone(UntilDone(lines, kind), kind)
    ensures HasDone(lines, kind) <==> FromDone(lines, kind) != []
    ensures FromDone(lines, kind) != [] ==> kind(FromDone(lines, kind)[0]) == DoneMark
  {
    if lines != [] {
      DoneSplits(lines[1..], kind);
      assert lines[0] in lines;
      assert lines == [lines[0]] + lines[1..];
    }
  }

  lemma {:induction false} TokensConcat(a: seq<string>, b: seq<string>, kind: string -> LineKind)
    ensures TokensOf(a + b, kind) == TokensOf(a, kind) + TokensOf(b, kind)
  {
    if a == [] {
      assert a + b == b;
    } else {
      assert (a + b)[1..] == a[1..] + b;
      TokensConcat(a[1..], b, kind);
    }
  }

  lemma TokensSnoc(a: seq<string>, line: string, kind: string -> LineKind)
    ensures TokensOf(a + [line], kind) == TokensOf(a, kind) + TokenOf(line, kind)
  {
    TokensConcat(a, [line], kind);
    assert TokensOf([line], kind) == TokenOf(line, kind) + [];
  }

  /** A done line stays the first one, whatever comes later. */
  lemma {:induction false} DoneStays(a: seq<string>, b: seq<string>, kind: string -> LineKind)
    requires HasDone(a, kind)
    ensures UntilDone(a + b, kind) == UntilDone(a, kind)
    ensures FromDone(a + b, kind) == FromDone(a, kind) + b
  {
    if kind(a[0]) != DoneMark {
      assert a == [a[0]] + a[1..];
      assert (a + b)[1..] == a[1..] + b;
      DoneStays(a[1..], b, kind);
    }
  }

  /** Lines that do not say it is done are passed over. */
  lemma {:induction false} DonePasses(a: seq<string>, b: seq<string>, kind: string -> LineKind)
    requires !HasDone(a, kind)
    ensures UntilDone(a + b, kind) == a + UntilDone(b, kind)
    ensures HasDone(a + b, kind) <==> HasDone(b, kind)
  {
    if a == [] {
      assert a + b == b;
    } else {
      assert a[0] in a && (a + b)[1..] == a[1..] + b;
      assert a == [a[0]] + a[1..] && a + b == [a[0]] + (a[1..] + b);
      DonePasses(a[1..], b, kind);
    }
  }

  // ----- the client

  /** The effect of one more line. */
  lemma OneLine(lines: seq<string>, kind: string -> LineKind)
    requires lines != []
    ensures kind(lines[0]) == DoneMark ==> HasDone(lines, kind) && UntilDone(lines, kind) == []
    ensures kind(lines[0]) != DoneMark ==>
      HasDone(lines, kind) == HasDone(lines[1..], kind) &&
      TokensOf(UntilDone(lines, kind), kind) == TokenOf(lines[0], kind) + TokensOf(UntilDone(lines[1..], kind), kind)
  {
    assert lines == [lines[0]] + lines[1..] && lines[0] in lines;
    if kind(lines[0]) != DoneMark {
      assert UntilDone(lines, kind)[1..] == UntilDone(lines[1..], kind);
    }
  }

  /** The loop over the lines one chunk has completed. */
  method YieldLines(lines: seq<string>, parse: Parser) returns (tokens: seq<string>, done: bool)
    ensures tokens == TokensOf(UntilDone(lines, ClientKind(parse)), ClientKind(parse))
    ensures done == HasDone(lines, ClientKind(parse))
  {
    ghost var kind := ClientKind(parse);
    tokens := [];
    var j := 0;
    assert lines[0..] == lines && [] + TokensOf(UntilDone(lines, kind), kind) == TokensOf(UntilDone(lines, kind), kind);
    while j < |lines|
      invariant 0 <= j <= |lines|
      invariant TokensOf(UntilDone(lines, kind), kind) == tokens + TokensOf(UntilDone(lines[j..], kind), kind)
      invariant HasDone(lines, kind) == HasDone(lines[j..], kind)
    {
      OneLine(lines[j..], kind);
      assert lines[j..][1..] == lines[j + 1..] && lines[j..][0] == lines[j];
      Regroup(tokens, TokenOf(lines[j], kind), TokensOf(UntilDone(lines[j + 1..], kind), kind));
      var taken := ClientLine(lines[j], parse);
      if taken == DoneMark {
        assert tokens + [] == tokens;
        return tokens, true;
      }
      if taken.Token? {
        tokens := tokens + [taken.text];
      } else {
        assert tokens + [] == tokens;
      }
      j := j + 1;
    }
    done := false;
  }

  /**
    The tokens the client yields depend on the text only, not on how it was
    chunked: they are the tokens of the newline-terminated lines before the
    first that says `[DONE]`.
   */
  method StreamGenerate(chunks: seq<string>, parse: Parser) returns (tokens: seq<string>)
    ensures tokens == TokensOf(UntilDone(Lines(Concat(chunks)), ClientKind(parse)), ClientKind(parse))
  {
    ghost var kind := ClientKind(parse);
    tokens := [];
    var buffer := "";
    var i := 0;
    while i < |chunks|
      invariant 0 <= i <= |chunks|
      invariant buffer == Rest(Concat(chunks[..i]))
      invariant !HasDone(Lines(Concat(chunks[..i])), kind)
      invariant tokens == TokensOf(Lines(Concat(chunks[..i])), kind)
    {
      NextLines(chunks, i);
      buffer := buffer + chunks[i];
      var lines := Lines(buffer);
      buffer := Rest(buffer);
      var more, done := YieldLines(lines, parse);
      NextTokens(Lines(Concat(chunks[..i])), lines, Lines(Concat(chunks)), kind);
      tokens := tokens + more;
      if done {
        return;
      }
      i := i + 1;
    }
    assert chunks[..i] == chunks;
    NoneDone(Lines(Concat(chunks)), kind);
  }

  lemma NextLines(chunks: seq<string>, i: nat)
    requires i < |chunks|
    ensures var text := Concat(chunks[..i]);
      && Lines(Concat(chunks[..i + 1])) == Lines(text) + Lines(Rest(text) + chunks[i])
      && Rest(Concat(chunks[..i + 1])) == Rest(Rest(text) + chunks[i])
      && Lines(text) + Lines(Rest(text) + chunks[i]) <= Lines(Concat(chunks))
  {
    assert Front(chunks[..i + 1]) == chunks[..i];
    LinesOfMore(Concat(chunks[..i]), chunks[i]);
    LinesGrow(chunks, i + 1);
  }

  lemma NextTokens(seen: seq<string>, lines: seq<string>, all: seq<string>, kind: string -> LineKind)
    requires seen + lines <= all && !HasDone(seen, kind)
    ensures HasDone(seen + lines, kind) == HasDone(lines, kind)
    ensures var tokens := TokensOf(seen, kind) + TokensOf(UntilDone(lines, kind), kind);
      tokens == TokensOf(if HasDone(lines, kind) then UntilDone(all, kind) else seen + lines, kind)
  {
    DonePasses(seen, lines, kind);
    TokensConcat(seen, UntilDone(lines, kind), kind);
    if HasDone(lines, kind) {
      var now := seen + lines;
      assert all == now + all[|now|..];
      DoneStays(now, all[|now|..], kind);
    } else {
      NoneDone(lines, kind);
    }
  }

  lemma {:induction false} NoneDone(lines: seq<string>, kind: string -> LineKind)
    requires !HasDone(lines, kind)
    ensures UntilDone(lines, kind) == lines
  {
    DoneSplits(lines, kind);
    assert UntilDone(lines, kind) + [] == UntilDone(lines, kind);
  }

  // ----- the server

  /** The inner loop on a buffer: lines are cut off and used up one by one;
      a line that says it is done stops it, with the rest left in the buffer. */
  function Drain(buf: string, kind: string -> LineKind): (seq<string>, string)
    decreases |buf|
  {
    var k := NewlineAt(buf);
    if k == |buf| then ([], buf)
    else if kind(buf[..k]) == DoneMark then ([], buf[k + 1..])
    else
      var (more, rest) := Drain(buf[k + 1..], kind);
      (TokenOf(buf[..k], kind) + more, rest)
  }

  /** Tokens sent, and buffer left, after some chunks. */
  function AfterChunks(chunks: seq<string>, kind: string -> LineKind): (seq<string>, string) {
    if chunks == [] then ([], "")
    else
      var (tokens, buf) := AfterChunks(Front(chunks), kind);
      var (more, rest) := Drain(buf + Last(chunks), kind);
      (tokens + more, rest)
  }

  lemma DrainStep(tokens: seq<string>, buf: string, line: string, after: string, kind: string -> LineKind)
    requires NewlineAt(buf) < |buf| && line == buf[..NewlineAt(buf)] && after == buf[NewlineAt(buf) + 1..]
    ensures kind(line) == DoneMark ==> tokens + Drain(buf, kind).0 == tokens && Drain(buf, kind).1 == after
    ensures kind(line) != DoneMark ==>
      tokens + Drain(buf, kind).0 == (tokens + TokenOf(line, kind)) + Drain(after, kind).0 &&
      Drain(buf, kind).1 == Drain(after, kind).1
  {
    if kind(line) != DoneMark {
      Regroup(tokens, TokenOf(line, kind), Drain(after, kind).0);
    }
  }

  method DrainBuffer(buffer: string, parse: Parser) returns (tokens: seq<string>, buf: string)
    ensures (tokens, buf) == Drain(buffer, ServerKind(parse))
  {
    ghost var kind := ServerKind(parse);
    tokens, buf := [], buffer;
    assert tokens + Drain(buf, kind).0 == Drain(buf, kind).0;
    while NewlineAt(buf) < |buf|
      invariant Drain(buffer, kind) == (tokens + Drain(buf, kind).0, Drain(buf, kind).1)
      decreases |buf|
    {
      var nl := NewlineAt(buf);
      var line := buf[..nl];
      DrainStep(tokens, buf, line, buf[nl + 1..], kind);
      buf := buf[nl + 1..];
      var taken := ServerLine(line, parse);
      if taken == DoneMark {
        return;
      }
      if taken.Token? {
        tokens := tokens + [taken.text];
      } else {
        assert tokens + [] == tokens;
      }
    }
    assert tokens + [] == tokens;
  }

  method ChatStreamLoop(chunks: seq<string>, parse: Parser) returns (tokens: seq<string>)
    ensures tokens == AfterChunks(chunks, ServerKind(parse)).0
  {
    ghost var kind := ServerKind(parse);
    tokens := [];
    var buf := "";
    var i := 0;
    while i < |chunks|
      invariant 0 <= i <= |chunks|
      invariant AfterChunks(chunks[..i], kind) == (tokens, buf)
    {
      assert Front(chunks[..i + 1]) == chunks[..i];
      buf := buf + chunks[i];
      var more;
      more, buf := DrainBuffer(buf, parse);
      tokens := tokens + more;
      i := i + 1;
    }
    assert chunks[..i] == chunks;
  }

  /** Draining uses up some of the lines: all of them, or some with one among
      them that says it is done. */
  lemma {:induction false} DrainUsesLines(buf: string, kind: string -> LineKind) returns (used: seq<string>)
    ensures var (tokens, rest) := Drain(buf, kind);
      && Lines(buf) == used + Lines(rest) && Rest(buf) == Rest(rest) && tokens == TokensOf(used, kind)
      && (Lines(rest) == [] || HasDone(used, kind))
    decreases |buf|
  {
    var k := NewlineAt(buf);
    used := [];
    if k < |buf| {
      var line, after := buf[..k], buf[k + 1..];
      TokensSnoc([], line, kind);
      assert [] + [line] == [line];
      if kind(line) == DoneMark {
        used := [line];
        assert line in used;
      } else {
        var later := DrainUsesLines(after, kind);
        used := [line] + later;
        UsesMore([line], later, Lines(after), Lines(Drain(after, kind).1), kind);
      }
    }
  }

  /** Using up lines in two goes. */
  lemma UsesMore(a: seq<string>, b: seq<string>, lines: seq<string>, left: seq<string>, kind: string -> LineKind)
    requires lines == b + left && (left == [] || HasDone(b, kind))
    ensures a + lines == (a + b) + left
    ensures TokensOf(a + b, kind) == TokensOf(a, kind) + TokensOf(b, kind)
    ensures left == [] || HasDone(a + b, kind)
  {
    Regroup(a, b, left);
    TokensConcat(a, b, kind);
    if HasDone(b, kind) {
      var line :| line in b && kind(line) == DoneMark;
      assert line in a + b;
    }
  }

  /** In every chunking the server sends the tokens of some first lines, which
      are all of them unless one among them says it is done. */
  lemma {:induction false} ServerUsesLines(chunks: seq<string>, kind: string -> LineKind) returns (used: seq<string>)
    ensures var (tokens, buf) := AfterChunks(chunks, kind);
      && Lines(Concat(chunks)) == used + Lines(buf) && Rest(Concat(chunks)) == Rest(buf)
      && tokens == TokensOf(used, kind)
      && (Lines(buf) == [] || HasDone(used, kind))
  {
    used := [];
    if chunks != [] {
      var text, chunk := Concat(Front(chunks)), Last(chunks);
      var first := ServerUsesLines(Front(chunks), kind);
      var buf := AfterChunks(Front(chunks), kind).1;
      LinesOfMore(text, chunk);
      LinesOfMore(buf, chunk);
      var second := DrainUsesLines(buf + chunk, kind);
      used := first + second;
      UsesMore(first, second, Lines(buf + chunk), Lines(Drain(buf + chunk, kind).1), kind);
      assert Lines(text + chunk) == first + Lines(buf + chunk) by {
        Regroup(first, Lines(buf), Lines(Rest(buf) + chunk));
      }
    }
  }

  /** No line from the first one that says it is done on carries a token. */
  predicate QuietAfterDone(lines: seq<string>, kind: string -> LineKind) {
    TokensOf(FromDone(lines, kind), kind) == []
  }

  /** One character at a time. */
  function Characters(s: string): seq<string> {
    if s == "" then [] else Characters(Front(s)) + [[Last(s)]]
  }

  /** A buffer of one line at most is drained of it. */
  lemma DrainOneLine(start: string, c: char, kind: string -> LineKind)
    requires '\n' !in start
    ensures Drain(start + [c], kind) == (TokensOf(Lines(start + [c]), kind), Rest(start + [c]))
    ensures '\n' !in Rest(start + [c])
  {
    var buf := start + [c];
    if c == '\n' {
      assert buf[..|start|] == start;
      NewlineUnique(buf, |start|);
      assert buf[|start| + 1..] == "";
      assert Lines(buf) == [start];
      TokensSnoc([], start, kind);
      assert [] + [start] == [start];
    } else {
      assert buf[..|buf|] == buf;
      NewlineUnique(buf, |buf|);
    }
  }

  lemma {:induction false} CharactersUseAllLines(s: string, kind: string -> LineKind)
    ensures Concat(Characters(s)) == s
    ensures AfterChunks(Characters(s), kind) == (TokensOf(Lines(s), kind), Rest(s))
    ensures '\n' !in Rest(s)
  {
    if s != "" {
      var t, c := Front(s), Last(s);
      CharactersUseAllLines(t, kind);
      assert s == t + [c];
      assert Front(Characters(s)) == Characters(t);
      LinesOfMore(t, [c]);
      DrainOneLine(Rest(t), c, kind);
      TokensConcat(Lines(t), Lines(Rest(t) + [c]), kind);
    }
  }

  /**
    The server's `[DONE]` leaves the inner loop only, and later chunks are
    still read.  A text that comes in one chunk gives the tokens before the
    first `[DONE]`; and the tokens are the same in every chunking exactly when
    no line behind the first `[DONE]` carries one.
   */
  lemma ServerChunkingIff(text: string, kind: string -> LineKind)
    ensures AfterChunks([text], kind).0 == TokensOf(UntilDone(Lines(text), kind), kind)
    ensures QuietAfterDone(Lines(text), kind) <==>
      forall chunks :: Concat(chunks) == text ==> AfterChunks(chunks, kind).0 == AfterChunks([text], kind).0
  {
    var all := Lines(text);
    DoneSplits(all, kind);
    TokensConcat(UntilDone(all, kind), FromDone(all, kind), kind);
    OneChunk(text, kind);
    if QuietAfterDone(all, kind) {
      forall chunks | Concat(chunks) == text
        ensures AfterChunks(chunks, kind).0 == TokensOf(UntilDone(all, kind), kind)
      {
        QuietChunking(chunks, kind);
      }
    } else {
      CharactersUseAllLines(text, kind);
      assert Concat(Characters(text)) == text;
    }
  }

  lemma OneChunk(text: string, kind: string -> LineKind)
    ensures AfterChunks([text], kind).0 == TokensOf(UntilDone(Lines(text), kind), kind)
  {
    FirstChunk(text, kind);
    DrainStopsAtDone(text, kind);
  }

  lemma {:induction false} DrainStopsAtDone(buf: string, kind: string -> LineKind)
    ensures Drain(buf, kind).0 == TokensOf(UntilDone(Lines(buf), kind), kind)
    decreases |buf|
  {
    var k := NewlineAt(buf);
    if k < |buf| && kind(buf[..k]) != DoneMark {
      DrainStopsAtDone(buf[k + 1..], kind);
      assert Lines(buf)[0] == buf[..k] && Lines(buf)[1..] == Lines(buf[k + 1..]);
      OneLine(Lines(buf), kind);
    }
  }

  /** Two chunkings of one text with different tokens: a line with a token
      behind one that says it is done. */
  lemma TokenBehindDone(done: string, line: string, kind: string -> LineKind)
    requires '\n' !in done && '\n' !in line && kind(done) == DoneMark && kind(line).Token?
    ensures var a, b := done + "\n", line + "\n";
      && Concat([a, b]) == a + b == Concat([a + b])
      && AfterChunks([a + b], kind).0 == [] && AfterChunks([a, b], kind).0 == [kind(line).text]
  {
    var a, b := done + "\n", line + "\n";
    FirstChunk(a, kind);
    FirstChunk(a + b, kind);
    SecondChunk(a, b, kind);
    assert Drain(a, kind) == ([], "") by {
      DrainLine(done, "", kind);
      assert a + "" == a;
    }
    assert Drain(a + b, kind).0 == [] by {
      DrainLine(done, b, kind);
    }
    assert Drain(b, kind).0 == [kind(line).text] by {
      DrainLine(line, "", kind);
      assert b + "" == b && NewlineAt("") == 0;
      assert TokenOf(line, kind) + [] == TokenOf(line, kind);
    }
    assert "" + b == b && [] + [kind(line).text] == [kind(line).text];
  }

  lemma FirstChunk(a: string, kind: string -> LineKind)
    ensures Concat([a]) == a && AfterChunks([a], kind) == Drain(a, kind)
  {
    assert Front([a]) == [] && "" + a == a;
    assert AfterChunks([], kind) == ([], "");
    assert [] + Drain(a, kind).0 == Drain(a, kind).0;
  }

  lemma SecondChunk(a: string, b: string, kind: string -> LineKind)
    ensures Concat([a, b]) == a + b
    ensures AfterChunks([a, b], kind).0 == Drain(a, kind).0 + Drain(Drain(a, kind).1 + b, kind).0
  {
    FirstChunk(a, kind);
    assert Front([a, b]) == [a];
  }

  lemma DrainLine(line: string, after: string, kind: string -> LineKind)
    requires '\n' !in line
    ensures Drain(line + "\n" + after, kind) ==
      if kind(line) == DoneMark then ([], after)
      else (TokenOf(line, kind) + Drain(after, kind).0, Drain(after, kind).1)
  {
    var buf := line + "\n" + after;
    assert buf[..|line|] == line && buf[|line| + 1..] == after;
    NewlineUnique(buf, |line|);
  }

  lemma QuietChunking(chunks: seq<string>, kind: string -> LineKind)
    requires QuietAfterDone(Lines(Concat(chunks)), kind)
    ensures AfterChunks(chunks, kind).0 == TokensOf(UntilDone(Lines(Concat(chunks)), kind), kind)
  {
    var all := Lines(Concat(chunks));
    var used := ServerUsesLines(chunks, kind);
    var left := Lines(AfterChunks(chunks, kind).1);
    DoneSplits(used, kind);
    TokensConcat(UntilDone(used, kind), FromDone(used, kind), kind);
    if left == [] {
      assert used + left == used;
    } else {
      DoneStays(used, left, kind);
      TokensConcat(FromDone(used, kind), left, kind);
    }
  }

  // ----- what lines are, and what they say

  function Joined(lines: seq<string>): string {
    if lines == [] then "" else lines[0] + "\n" + Joined(lines[1..])
  }

  /** The lines of a text, each ended by a newline, and then the rest, are the
      text. */
  lemma {:induction false} LinesAreTheText(s: string)
    ensures Joined(Lines(s)) + Rest(s) == s
    decreases |s|
  {
    var k := NewlineAt(s);
    if k < |s| {
      var after := s[k + 1..];
      LinesAreTheText(after);
      FirstLine(s, k, Joined(Lines(after)), Rest(after));
      assert Lines(s)[0] == s[..k] && Lines(s)[1..] == Lines(after);
    } else {
      assert "" + s == s;
    }
  }

  lemma FirstLine(s: string, k: nat, lines: string, rest: string)
    requires k < |s| && s[k] == '\n' && lines + rest == s[k + 1..]
    ensures (s[..k] + "\n" + lines) + rest == s
  {
    assert s == s[..k] + [s[k]] + s[k + 1..];
  }

  /** There is no newline in a line, nor in the rest. */
  lemma {:induction false} LinesHaveNoNewline(s: string)
    ensures '\n' !in Rest(s) && forall line :: line in Lines(s) ==> '\n' !in line
    decreases |s|
  {
    var k := NewlineAt(s);
    if k < |s| {
      LinesHaveNoNewline(s[k + 1..]);
      assert '\n' !in s[..k];
    } else {
      assert s[..k] == s;
    }
  }

  /** What the text behind the prefix says. */
  ghost predicate Says(kind: LineKind, raw: string, parse: Parser) {
    && (kind == DoneMark <==> raw == "[DONE]")
    && (forall text :: kind == Token(text) <==> raw != "[DONE]" && parse(raw) == Some(text) && text != "")
  }

  /** The client takes a line that begins with the prefix by what follows it,
      whatever white space is around that; other lines it skips. */
  lemma ClientLineMeans(a: string, raw: string, b: string, line: string, parse: Parser)
    requires AllOf(a, c => IsScriptSpace(c)) && AllOf(b, c => IsScriptSpace(c)) && Bare(raw, c => IsScriptSpace(c))
    ensures Says(ClientLine("data: " + (a + raw + b), parse), raw, parse)
    ensures !("data: " <= line) ==> ClientLine(line, parse) == Skip
  {
    var whole := "data: " + (a + raw + b);
    assert whole[6..] == a + raw + b;
    TrimMeans(a, raw, b, c => IsScriptSpace(c));
    assert "data: " <= whole;
  }

  /** The server takes a line, whatever white space is around it, by what
      follows the prefix; a line that is not of this form it skips. */
  lemma ServerLineMeans(a: string, raw: string, b: string, other: string, parse: Parser)
    requires AllOf(a, c => IsUnicodeSpace(c)) && AllOf(b, c => IsUnicodeSpace(c))
    ensures raw != "" && !IsUnicodeSpace(Last(raw)) ==>
      Says(ServerLine(a + ("data: " + raw) + b, parse), raw, parse)
    ensures Bare(other, c => IsUnicodeSpace(c)) && !("data: " <= other) ==>
      ServerLine(a + other + b, parse) == Skip
  {
    if raw != "" && !IsUnicodeSpace(Last(raw)) {
      var t := "data: " + raw;
      assert t[0] == 'd' && Last(t) == Last(raw) && t[6..] == raw && "data: " <= t;
      TrimMeans(a, t, b, c => IsUnicodeSpace(c));
    }
    if Bare(other, c => IsUnicodeSpace(c)) {
      TrimMeans(a, other, b, c => IsUnicodeSpace(c));
    }
  }
}
