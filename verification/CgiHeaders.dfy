/**
 parse_headers of ModPerl6::Registry: the header lines a CGI script prints go to the
 request, the rest is the body (compare section 6.3 of RFC 3875).
*/
module CgiHeaders {
  import opened Options
  import opened Texts

  // ---------------------------------------------------------------- one line

  predicate IsKeyChar(c: char) {
    'a' <= c <= 'z' || 'A' <= c <= 'Z' || '0' <= c <= '9' || c == '_' || c == '-'
  }

  function KeyLength(s: string): (k: nat)
    ensures k <= |s| && (forall i :: 0 <= i < k ==> IsKeyChar(s[i])) && (k < |s| ==> !IsKeyChar(s[k]))
  {
    if s == "" || !IsKeyChar(s[0]) then 0 else 1 + KeyLength(s[1..])
  }

  function SkipSpace(s: string): string {
    if s == "" || !IsSpace(s[0]) then s else SkipSpace(s[1..])
  }

  datatype Header = Header(key: string, val: string)

  /** header_regex on a line: a key, a colon, optional space, and something after it. */
  function MatchHeader(line: string): Option<Header> {
    var k := KeyLength(line);
    if k == 0 || k == |line| || line[k] != ':' then None
    else
      var val := SkipSpace(line[k + 1..]);
      if val == "" then None else Some(Header(line[..k], val))
  }

  /** What a header line does to the request. */
  datatype Setting = SetType(val: string) | SetHeader(key: string, val: string)

  function SettingOf(h: Header): Setting {
    if LowerAll(h.key) == "content-type" then SetType(h.val) else SetHeader(h.key, h.val)
  }

  // ---------------------------------------------------------------- the text of a line

  predicate IsLetterOrDigit(c: char) {
    c in {'a', 'b', 'c', 'd', 'e', 'f', 'g', 'h', 'i', 'j', 'k', 'l', 'm', 'n', 'o', 'p', 'q', 'r', 's', 't', 'u', 'v',
          'w', 'x', 'y', 'z', 'A', 'B', 'C', 'D', 'E', 'F', 'G', 'H', 'I', 'J', 'K', 'L', 'M', 'N', 'O', 'P', 'Q', 'R',
          'S', 'T', 'U', 'V', 'W', 'X', 'Y', 'Z', '0', '1', '2', '3', '4', '5', '6', '7', '8', '9'}
  }

  lemma KeyCharIff(c: char)
    ensures IsKeyChar(c) <==> IsLetterOrDigit(c) || c == '_' || c == '-'
  {
  }

  /** A key of letters, digits, underscores and hyphens up to a colon at k; white space from
      there to v; and something from v on. */
  predicate Shaped(line: string, k: nat, v: nat) {
    && 0 < k < v < |line| && line[k] == ':'
    && (forall i :: 0 <= i < k ==> IsLetterOrDigit(line[i]) || line[i] == '_' || line[i] == '-')
    && (forall i :: k < i < v ==> line[i] in {' ', '\t', '\n', '\r', 11 as char, 12 as char})
    && line[v] !in {' ', '\t', '\n', '\r', 11 as char, 12 as char}
  }

  lemma {:induction false} SkipSpaceIs(s: string, n: nat)
    requires n <= |s| && (forall i :: 0 <= i < n ==> IsSpace(s[i])) && (n < |s| ==> !IsSpace(s[n]))
    ensures SkipSpace(s) == s[n..]
    decreases n
  {
    if n > 0 {
      SkipSpaceIs(s[1..], n - 1);
    }
  }

  lemma {:induction false} SkipSpaceLeaves(s: string) returns (n: nat)
    ensures n <= |s| && (forall i :: 0 <= i < n ==> IsSpace(s[i])) && (n < |s| ==> !IsSpace(s[n]))
    ensures SkipSpace(s) == s[n..]
    decreases |s|
  {
    n := 0;
    if s != "" && IsSpace(s[0]) {
      var m := SkipSpaceLeaves(s[1..]);
      n := m + 1;
    }
  }

  lemma {:induction false} KeyLengthUnique(s: string, k: nat)
    requires k < |s| && (forall i :: 0 <= i < k ==> IsKeyChar(s[i])) && !IsKeyChar(s[k])
    ensures KeyLength(s) == k
    decreases k
  {
    if k > 0 {
      KeyLengthUnique(s[1..], k - 1);
    }
  }

  /** A line of that shape is a header.  It sets the content type if its key is Content-Type
      in any case, and otherwise the header of that name, to what follows the white space. */
  lemma HeaderText(line: string, k: nat, v: nat)
    requires Shaped(line, k, v)
    ensures MatchHeader(line) == Some(Header(line[..k], line[v..]))
    ensures SettingOf(Header(line[..k], line[v..]))
            == if k == 12 && InAnyCase(line[..k], "content-type", "CONTENT-TYPE") then SetType(line[v..])
               else SetHeader(line[..k], line[v..])
  {
    forall i | 0 <= i < |line|
      ensures IsKeyChar(line[i]) <==> IsLetterOrDigit(line[i]) || line[i] == '_' || line[i] == '-'
    {
      KeyCharIff(line[i]);
    }
    KeyLengthUnique(line, k);
    SkipSpaceIs(line[k + 1..], v - k - 1);
    assert line[k + 1..][v - k - 1..] == line[v..];
    ContentType(line[..k]);
  }

  lemma ContentType(key: string)
    ensures LowerAll(key) == "content-type" <==> |key| == 12 && InAnyCase(key, "content-type", "CONTENT-TYPE")
  {
    assert LowerAll("content-type") == "content-type";
    if |key| == 12 {
      SameButCase(key, "content-type", "content-type", "CONTENT-TYPE");
    }
  }

  /** No other line is a header. */
  lemma HeaderIff(line: string)
    ensures MatchHeader(line).Some? <==> exists k: nat, v: nat :: Shaped(line, k, v)
  {
    if MatchHeader(line).Some? {
      var k := KeyLength(line);
      var n := SkipSpaceLeaves(line[k + 1..]);
      forall i | 0 <= i < |line|
        ensures IsKeyChar(line[i]) <==> IsLetterOrDigit(line[i]) || line[i] == '_' || line[i] == '-'
      {
        KeyCharIff(line[i]);
      }
      assert forall i :: k < i < k + 1 + n ==> line[i] == line[k + 1..][i - k - 1];
      assert Shaped(line, k, k + 1 + n);
    }
    if k: nat, v: nat :| Shaped(line, k, v) {
      HeaderText(line, k, v);
    }
  }

  // ---------------------------------------------------------------- what parsing comes to

  /** A line the body can begin with. */
  predicate IsBodyLine(line: string) {
    line != "" && MatchHeader(line).None?
  }

  function BodyStart(lines: seq<string>): (k: nat)
    ensures k <= |lines|
  {
    if lines == [] || IsBodyLine(lines[0]) then 0 else 1 + BodyStart(lines[1..])
  }

  /** The setting a line makes, if it is a header. */
  function SettingsAt(line: string): seq<Setting> {
    match MatchHeader(line) case Some(h) => [SettingOf(h)] case None => []
  }

  /** The settings of the header lines, in order. */
  function SettingsOf(lines: seq<string>): seq<Setting> {
    if lines == [] then []
    else
      SettingsAt(lines[0]) + SettingsOf(lines[1..])
  }

  function Text(lines: seq<string>): string {
    if lines == [] then "" else Join(lines, '\n') + "\n"
  }

  /** The request as far as parse_headers touches it: the note it leaves, and what it set. */
  datatype Rq = Rq(parsed: bool, settings: seq<Setting>)

  /** parse_headers: the lines from the first that is neither blank nor a header are the
      body; the header lines before it are recorded; later calls pass everything through. */
  function Parse(rq: Rq, input: string): (Rq, string) {
    if rq.parsed then (rq, input) else ParseLines(rq.settings, Fields(input, '\n'))
  }

  function ParseLines(start: seq<Setting>, lines: seq<string>): (Rq, string) {
    var k := BodyStart(lines);
    (Rq(k < |lines|, start + SettingsOf(lines[..k])), Text(lines[k..]))
  }

  // ---------------------------------------------------------------- the loop

  lemma {:induction false} SettingsAppend(a: seq<string>, b: seq<string>)
    ensures SettingsOf(a + b) == SettingsOf(a) + SettingsOf(b)
    decreases |a|
  {
    if a == [] {
      assert a + b == b;
    } else {
      assert (a + b)[1..] == a[1..] + b;
      SettingsAppend(a[1..], b);
    }
  }

  /** BodyStart is the first body line, if there is one. */
  lemma {:induction false} BodyStartIsFirst(lines: seq<string>, i: nat)
    requires i < |lines|
    ensures i < BodyStart(lines) ==> !IsBodyLine(lines[i])
    ensures i == BodyStart(lines) ==> IsBodyLine(lines[i])
    decreases |lines|
  {
    if i > 0 && !IsBodyLine(lines[0]) {
      BodyStartIsFirst(lines[1..], i - 1);
    }
  }

  lemma TextAppend(lines: seq<string>, line: string)
    ensures Text(lines + [line]) == Text(lines) + line + "\n"
  {
    if lines == [] {
      assert lines + [line] == [line];
    } else {
      JoinAppend(lines, [line], '\n');
    }
  }

  /** Where the loop stands: headers done, settings made, body so far. */
  datatype Progress = Progress(done: bool, settings: seq<Setting>, out: string)

  /** One turn of the loop. */
  function Turn(p: Progress, line: string): Progress {
    if line == "" then
      if p.done then p.(out := p.out + "\n") else p
    else if !p.done && MatchHeader(line).Some? then
      p.(settings := p.settings + [SettingOf(MatchHeader(line).value)])
    else
      p.(done := true, out := p.out + line + "\n")
  }

  /** The loop before line i, when the body starts at line k. */
  function Before(start: seq<Setting>, lines: seq<string>, k: nat, i: nat): Progress
    requires k <= |lines| && i <= |lines|
  {
    if i <= k then Progress(false, start + SettingsOf(lines[..i]), "")
    else Progress(true, start + SettingsOf(lines[..k]), Text(lines[k..i]))
  }

  lemma SettingsStep(lines: seq<string>, i: nat)
    requires i < |lines|
    ensures SettingsOf(lines[..i + 1])
            == SettingsOf(lines[..i]) + SettingsAt(lines[i])
  {
    assert lines[..i + 1] == lines[..i] + [lines[i]];
    SettingsAppend(lines[..i], [lines[i]]);
    assert [lines[i]][1..] == [];
  }

  lemma TextStep(lines: seq<string>, k: nat, i: nat)
    requires k <= i < |lines|
    ensures Text(lines[k..i + 1]) == Text(lines[k..i]) + lines[i] + "\n"
  {
    assert lines[k..i + 1] == lines[k..i] + [lines[i]];
    TextAppend(lines[k..i], lines[i]);
  }

  lemma TurnInHeaders(start: seq<Setting>, lines: seq<string>, k: nat, i: nat)
    requires i < k <= |lines| && !IsBodyLine(lines[i])
    ensures Turn(Before(start, lines, k, i), lines[i]) == Before(start, lines, k, i + 1)
  {
    SettingsStep(lines, i);
    assert start + SettingsOf(lines[..i]) + [] == start + SettingsOf(lines[..i]);
  }

  lemma TurnInBody(start: seq<Setting>, lines: seq<string>, k: nat, i: nat)
    requires k <= i < |lines| && (i == k ==> IsBodyLine(lines[i]))
    ensures Turn(Before(start, lines, k, i), lines[i]) == Before(start, lines, k, i + 1)
  {
    TextStep(lines, k, i);
    var sofar, line := Text(lines[k..i]), lines[i];
    assert i == k ==> sofar == "";
    assert line == "" ==> sofar + line + "\n" == sofar + "\n";
  }

  lemma TurnAdvances(start: seq<Setting>, lines: seq<string>, i: nat)
    requires i < |lines|
    ensures Turn(Before(start, lines, BodyStart(lines), i), lines[i]) == Before(start, lines, BodyStart(lines), i + 1)
  {
    BodyStartIsFirst(lines, i);
    if i < BodyStart(lines) {
      TurnInHeaders(start, lines, BodyStart(lines), i);
    } else {
      TurnInBody(start, lines, BodyStart(lines), i);
    }
  }

  class RequestRec {
    var parsed: bool // the note modperl6-parsed-headers
    var settings: seq<Setting> // calls of content_type and headers_out.set

    constructor ()
      ensures Val() == Rq(false, [])
    {
      parsed, settings := false, [];
    }

    function Val(): Rq
      reads this
    {
      Rq(parsed, settings)
    }

    /** parse_headers */
    method ParseHeaders(input: string) returns (out: string)
      modifies this
      ensures (Val(), out) == Parse(old(Val()), input)
    {
      if parsed {
        return input;
      }
      var headersDone := false;
      out := "";
      var lines := Fields(input, '\n');
      var i := 0;
      while i < |lines|
        invariant 0 <= i <= |lines| && parsed == headersDone
        invariant Progress(headersDone, settings, out) == Before(old(settings), lines, BodyStart(lines), i)
      {
        var line := lines[i];
        TurnAdvances(old(settings), lines, i);
        if line == "" {
          if headersDone {
            out := out + "\n";
          }
        } else if !headersDone && MatchHeader(line).Some? {
          settings := settings + [SettingOf(MatchHeader(line).value)];
        } else {
          if !headersDone {
            parsed := true;
            headersDone := true;
          }
          if |line| > 0 {
            out := out + line + "\n";
          }
        }
        i := i + 1;
      }
      var k := BodyStart(lines);
      assert lines[..|lines|] == lines && lines[k..|lines|] == lines[k..];
    }
  }

  // ---------------------------------------------------------------- what a script prints

  /** A header field a script can print: section 6.3 of RFC 3875, one line each. */
  predicate GoodHeader(h: Header) {
    && h.key != "" && (forall i :: 0 <= i < |h.key| ==> IsKeyChar(h.key[i]))
    && h.val != "" && '\n' !in h.val && !IsSpace(h.val[0])
  }

  function HeaderLine(h: Header): string {
    h.key + ": " + h.val
  }

  /** The header fields, a blank line, the body. */
  function Print(hs: seq<Header>, body: string): string {
    if hs == [] then "\n" + body else HeaderLine(hs[0]) + "\n" + Print(hs[1..], body)
  }

  function LinesOf(hs: seq<Header>): seq<string> {
    if hs == [] then [""] else [HeaderLine(hs[0])] + LinesOf(hs[1..])
  }

  function SettingsFor(hs: seq<Header>): seq<Setting> {
    if hs == [] then [] else [SettingOf(hs[0])] + SettingsFor(hs[1..])
  }

  lemma {:induction false} KeyLengthIs(key: string, rest: string)
    requires (forall i :: 0 <= i < |key| ==> IsKeyChar(key[i])) && rest != "" && !IsKeyChar(rest[0])
    ensures KeyLength(key + rest) == |key|
    decreases |key|
  {
    if key == "" {
      assert key + rest == rest;
    } else {
      assert (key + rest)[1..] == key[1..] + rest;
      KeyLengthIs(key[1..], rest);
    }
  }

  lemma SkipOneSpace(s: string)
    ensures SkipSpace(" " + s) == SkipSpace(s)
  {
    assert (" " + s)[1..] == s;
  }

  lemma MatchPrinted(h: Header)
    requires GoodHeader(h)
    ensures MatchHeader(HeaderLine(h)) == Some(h) && '\n' !in HeaderLine(h)
  {
    var line, k := HeaderLine(h), |h.key|;
    assert line == h.key + (": " + h.val);
    KeyLengthIs(h.key, ": " + h.val);
    assert line[k] == ':' && line[..k] == h.key && line[k + 1..] == " " + h.val;
    SkipOneSpace(h.val);
    assert forall i :: 0 <= i < k ==> h.key[i] != '\n';
  }

  lemma {:induction false} FieldsOfPrint(hs: seq<Header>, body: string)
    requires forall i :: 0 <= i < |hs| ==> GoodHeader(hs[i])
    ensures Fields(Print(hs, body), '\n') == LinesOf(hs) + Fields(body, '\n')
    decreases |hs|
  {
    if hs == [] {
      assert Print(hs, body) == "" + ['\n'] + body;
      FieldsCons("", body, '\n');
    } else {
      MatchPrinted(hs[0]);
      FieldsOfPrint(hs[1..], body);
      FieldsCons(HeaderLine(hs[0]), Print(hs[1..], body), '\n');
      assert LinesOf(hs) + Fields(body, '\n')
          == [HeaderLine(hs[0])] + (LinesOf(hs[1..]) + Fields(body, '\n'));
    }
  }

  lemma {:induction false} LinesAreHeaders(hs: seq<Header>)
    requires forall i :: 0 <= i < |hs| ==> GoodHeader(hs[i])
    ensures |LinesOf(hs)| == |hs| + 1 && SettingsOf(LinesOf(hs)) == SettingsFor(hs)
    ensures BodyStart(LinesOf(hs)) == |LinesOf(hs)|
    decreases |hs|
  {
    if hs == [] {
      assert LinesOf(hs)[1..] == [];
    } else {
      MatchPrinted(hs[0]);
      LinesAreHeaders(hs[1..]);
      assert LinesOf(hs)[1..] == LinesOf(hs[1..]);
    }
  }

  lemma {:induction false} JoinShrinks(lines: seq<string>, k: nat)
    requires 0 < k < |lines|
    ensures |Join(lines[k..], '\n')| < |Join(lines, '\n')|
    decreases k
  {
    if k == 1 {
      assert Join(lines, '\n') == lines[0] + ['\n'] + Join(lines[1..], '\n');
    } else {
      JoinShrinks(lines[1..], k - 1);
      assert lines[1..][k - 1..] == lines[k..];
    }
  }

  lemma SettingsRegroup(a: seq<Setting>, b: seq<Setting>, c: seq<Setting>)
    ensures a + (b + c) == (a + b) + c
  {
  }

  lemma ParseStep(start: seq<Setting>, lines: seq<string>, rest: seq<string>)
    requires lines != [] && !IsBodyLine(lines[0]) && rest == lines[1..]
    ensures ParseLines(start, lines) == ParseLines(start + SettingsAt(lines[0]), rest)
  {
    var j := BodyStart(rest);
    assert lines[..j + 1][1..] == rest[..j] && lines[j + 1..] == rest[j..];
    SettingsRegroup(start, SettingsAt(lines[0]), SettingsOf(rest[..j]));
  }

  /** Lines that are blank or headers, at the front, only add their settings. */
  lemma {:induction false} ParseAfterHeaders(start: seq<Setting>, head: seq<string>, rest: seq<string>)
    requires BodyStart(head) == |head|
    ensures ParseLines(start, head + rest) == ParseLines(start + SettingsOf(head), rest)
    decreases |head|
  {
    if head == [] {
      assert head + rest == rest && start + SettingsOf(head) == start;
    } else {
      var more := head[1..];
      assert (head + rest)[1..] == more + rest && (head + rest)[0] == head[0];
      ParseStep(start, head + rest, more + rest);
      ParseAfterHeaders(start + SettingsAt(head[0]), more, rest);
      SettingsRegroup(start, SettingsAt(head[0]), SettingsOf(more));
    }
  }

  lemma TextIsWhole(body: string)
    ensures var rest := Fields(body, '\n');
            && (Text(rest[BodyStart(rest)..]) == body + "\n" <==> BodyStart(rest) == 0)
            && (BodyStart(rest) == 0 <==> IsBodyLine(rest[0]))
  {
    var rest := Fields(body, '\n');
    var j := BodyStart(rest);
    JoinFields(body, '\n');
    if j == 0 {
      assert rest[0..] == rest;
    } else if j < |rest| {
      JoinShrinks(rest, j);
    }
  }

  /** Parsing recovers the headers and the body that were printed, the body with a newline
      at its end, if and only if the body's first line is neither blank nor like a header. */
  lemma RoundTripIff(hs: seq<Header>, body: string)
    requires forall i :: 0 <= i < |hs| ==> GoodHeader(hs[i])
    ensures Parse(Rq(false, []), Print(hs, body)) == (Rq(true, SettingsFor(hs)), body + "\n")
            <==> IsBodyLine(Fields(body, '\n')[0])
  {
    var head, rest := LinesOf(hs), Fields(body, '\n');
    FieldsOfPrint(hs, body);
    LinesAreHeaders(hs);
    ParseAfterHeaders([], head, rest);
    assert [] + SettingsOf(head) == SettingsFor(hs);
    assert Parse(Rq(false, []), Print(hs, body)) == ParseLines(SettingsFor(hs), rest);
    TextIsWhole(body);
    assert SettingsFor(hs) + SettingsOf(rest[..0]) == SettingsFor(hs);
  }

  // ---------------------------------------------------------------- output in pieces

  /** A script that prints in pieces: parse_headers is called for each. */
  function Calls(rq: Rq, inputs: seq<string>): (Rq, seq<string>)
    decreases |inputs|
  {
    if inputs == [] then (rq, [])
    else
      var (rq1, out) := Parse(rq, inputs[0]);
      var (rq2, outs) := Calls(rq1, inputs[1..]);
      (rq2, [out] + outs)
  }

  predicate HasBody(input: string) {
    BodyStart(Fields(input, '\n')) < |Fields(input, '\n')|
  }

  function SettingsIn(inputs: seq<string>): seq<Setting> {
    if inputs == [] then [] else SettingsOf(Fields(inputs[0], '\n')) + SettingsIn(inputs[1..])
  }

  lemma {:induction false} PassedThrough(rq: Rq, inputs: seq<string>)
    requires rq.parsed
    ensures Calls(rq, inputs) == (rq, inputs)
    decreases |inputs|
  {
    if inputs != [] {
      PassedThrough(rq, inputs[1..]);
      assert inputs == [inputs[0]] + inputs[1..];
    }
  }

  function Blanks(n: nat): seq<string> {
    seq(n, _ => "")
  }

  lemma HeaderPiece(rq: Rq, input: string)
    requires !rq.parsed && !HasBody(input)
    ensures Parse(rq, input) == (Rq(false, rq.settings + SettingsOf(Fields(input, '\n'))), "")
  {
    var lines := Fields(input, '\n');
    assert lines[..BodyStart(lines)] == lines && lines[BodyStart(lines)..] == [];
  }

  lemma BlanksStep(j: nat, inputs: seq<string>, out: string)
    requires 0 < j < |inputs|
    ensures [""] + (Blanks(j - 1) + [out] + inputs[1..][j..]) == Blanks(j) + [out] + inputs[j + 1..]
  {
    assert [""] + Blanks(j - 1) == Blanks(j) && inputs[1..][j..] == inputs[j + 1..];
  }

  lemma SettingsInStep(start: seq<Setting>, inputs: seq<string>, j: nat)
    requires 0 < j <= |inputs|
    ensures start + SettingsIn(inputs[..j])
            == start + SettingsOf(Fields(inputs[0], '\n')) + SettingsIn(inputs[1..][..j - 1])
  {
    assert inputs[..j][1..] == inputs[1..][..j - 1];
  }

  /** Headers may be spread over any number of pieces.  Nothing comes out of the pieces before
      the first that holds a body line, and everything after that piece passes unchanged. */
  lemma {:induction false} PiecesParse(rq: Rq, inputs: seq<string>, j: nat)
    requires !rq.parsed && j < |inputs| && HasBody(inputs[j])
    requires forall i :: 0 <= i < j ==> !HasBody(inputs[i])
    ensures var (end, out) := Parse(Rq(false, rq.settings + SettingsIn(inputs[..j])), inputs[j]);
            end.parsed && Calls(rq, inputs) == (end, Blanks(j) + [out] + inputs[j + 1..])
    decreases j
  {
    var (rq1, out) := Parse(rq, inputs[0]);
    var more := inputs[1..];
    if j == 0 {
      PassedThrough(rq1, more);
      assert rq == Rq(false, rq.settings + SettingsIn(inputs[..0]));
      assert Blanks(0) + [out] + inputs[1..] == [out] + more;
    } else {
      HeaderPiece(rq, inputs[0]);
      SettingsInStep(rq.settings, inputs, j);
      PiecesParse(rq1, more, j - 1);
      BlanksStep(j, inputs, Parse(Rq(false, rq.settings + SettingsIn(inputs[..j])), inputs[j]).1);
    }
  }
}
