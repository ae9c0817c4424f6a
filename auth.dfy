/** The `.env` rewrite done after a successful login: the lines of the file
    are updated in place for the access token and its date, and a missing
    line is inserted after an anchor line. Reading and writing the file is
    left to the caller; the model works on the lines. */
module Auth {
  const TOKEN_KEY: string := "ACCESS_TOKEN="
  const DATE_KEY: string := "ACCESS_TOKEN_DATE="
  const SECRET_KEY: string := "API_SECRET="

  /** The new text of one line in the rewriting pass. */
  function RewriteLine(line: string, token: string, date: string): string {
    if TOKEN_KEY <= line then TOKEN_KEY + token
    else if DATE_KEY <= line then DATE_KEY + date
    else line
  }

  function RewriteAll(lines: seq<string>, token: string, date: string): seq<string> {
    seq(|lines|, i requires 0 <= i < |lines| => RewriteLine(lines[i], token, date))
  }

  /** Index of the first line starting with `prefix`, or `|lines|` if none does. */
  function FirstWithPrefix(lines: seq<string>, prefix: string): (k: nat)
    ensures k <= |lines|
    ensures k < |lines| ==> prefix <= lines[k]
    ensures forall j :: 0 <= j < k ==> !(prefix <= lines[j])
  {
    FirstFrom(lines, prefix, 0)
  }

  /** Index of the first line at or after `i` starting with `prefix`. */
  function FirstFrom(lines: seq<string>, prefix: string, i: nat): (k: nat)
    requires i <= |lines|
    ensures i <= k <= |lines|
    ensures k < |lines| ==> prefix <= lines[k]
    ensures forall j :: i <= j < k ==> !(prefix <= lines[j])
    decreases |lines| - i
  {
    if i == |lines| then i
    else if prefix <= lines[i] then i
    else FirstFrom(lines, prefix, i + 1)
  }

  predicate HasLine(lines: seq<string>, prefix: string) {
    FirstWithPrefix(lines, prefix) < |lines|
  }

  /** `newLine` inserted right after the first line starting with `anchor`;
      unchanged if there is none. */
  function InsertAfterFirst(lines: seq<string>, anchor: string, newLine: string): seq<string> {
    var k := FirstWithPrefix(lines, anchor);
    if k == |lines| then lines else lines[..k + 1] + [newLine] + lines[k + 1..]
  }

  /** The lines `_update_env_file` writes back, given the lines it read. */
  function UpdatedLines(lines: seq<string>, token: string, date: string): (out: seq<string>)
    ensures |lines| <= |out| <= |lines| + 2
    ensures HasLine(lines, TOKEN_KEY) && HasLine(lines, DATE_KEY) ==> |out| == |lines|
  {
    var rewritten := RewriteAll(lines, token, date);
    var withToken := if HasLine(lines, TOKEN_KEY) then rewritten
                     else InsertAfterFirst(rewritten, SECRET_KEY, TOKEN_KEY + token);
    if HasLine(lines, DATE_KEY) then withToken
    else InsertAfterFirst(withToken, TOKEN_KEY, DATE_KEY + date)
  }

  /** The search-and-insert loop, used once for each missing key. */
  method InsertAfterFirstLine(lines: seq<string>, anchor: string, newLine: string) returns (out: seq<string>)
    ensures out == InsertAfterFirst(lines, anchor, newLine)
  {
    out := lines;
    var i := 0;
    while i < |lines|
      invariant 0 <= i <= |lines|
      invariant forall j :: 0 <= j < i ==> !(anchor <= lines[j])
    {
      if anchor <= lines[i] {
        out := lines[..i + 1] + [newLine] + lines[i + 1..];
        break;
      }
      i := i + 1;
    }
  }

  /** The rewriting pass: every token line and every date line gets the new
      value; the flags tell whether a line of each kind was seen. */
  method RewriteLines(lines: seq<string>, token: string, date: string)
    returns (out: seq<string>, tokenUpdated: bool, dateUpdated: bool)
    ensures out == RewriteAll(lines, token, date)
    ensures tokenUpdated == HasLine(lines, TOKEN_KEY) && dateUpdated == HasLine(lines, DATE_KEY)
  {
    out := lines;
    tokenUpdated, dateUpdated := false, false;
    var i := 0;
    while i < |out|
      invariant 0 <= i <= |lines| == |out|
      invariant forall j :: 0 <= j < i ==> out[j] == RewriteLine(lines[j], token, date)
      invariant forall j :: i <= j < |lines| ==> out[j] == lines[j]
      invariant tokenUpdated <==> FirstWithPrefix(lines, TOKEN_KEY) < i
      invariant dateUpdated <==> FirstWithPrefix(lines, DATE_KEY) < i
    {
      var line := lines[i];
      KeysDisjoint(line);
      FirstStep(lines, TOKEN_KEY, i);
      FirstStep(lines, DATE_KEY, i);
      if TOKEN_KEY <= line {
        tokenUpdated := true;
      } else if DATE_KEY <= line {
        dateUpdated := true;
      }
      out := out[i := RewriteLine(line, token, date)];
      i := i + 1;
    }
  }

  /** The first line with a prefix lies before `i + 1` exactly when it lies
      before `i` or line `i` has the prefix. */
  lemma FirstStep(lines: seq<string>, p: string, i: nat)
    requires i < |lines|
    ensures (FirstWithPrefix(lines, p) < i + 1) == (FirstWithPrefix(lines, p) < i || p <= lines[i])
  {
  }

  /** `_update_env_file` on the list of lines. */
  method UpdateEnvLines(lines: seq<string>, token: string, date: string) returns (out: seq<string>)
    ensures out == UpdatedLines(lines, token, date)
  {
    var tokenUpdated, dateUpdated;
    out, tokenUpdated, dateUpdated := RewriteLines(lines, token, date);
    if !tokenUpdated {
      out := InsertAfterFirstLine(out, SECRET_KEY, TOKEN_KEY + token);
    }
    if !dateUpdated {
      out := InsertAfterFirstLine(out, TOKEN_KEY, DATE_KEY + date);
    }
  }

  /** No line starts with two of the keys, and a rewritten line starts only
      with its own key. */
  lemma KeysDisjoint(line: string)
    ensures !(TOKEN_KEY <= line && DATE_KEY <= line)
    ensures !(SECRET_KEY <= line && TOKEN_KEY <= line)
    ensures !(SECRET_KEY <= line && DATE_KEY <= line)
  {
    if TOKEN_KEY <= line {
      assert line[1] == 'C' && line[12] == '=';
    }
    if DATE_KEY <= line {
      assert line[1] == 'C' && line[12] == '_';
    }
  }

  lemma KeyedLines(token: string, date: string)
    ensures TOKEN_KEY <= TOKEN_KEY + token && DATE_KEY <= DATE_KEY + date
  {
    assert (TOKEN_KEY + token)[..|TOKEN_KEY|] == TOKEN_KEY;
    assert (DATE_KEY + date)[..|DATE_KEY|] == DATE_KEY;
  }

  /** Rewriting keeps which lines start with ACCESS_TOKEN= and API_SECRET=. */
  lemma RewriteKeepsAnchors(lines: seq<string>, token: string, date: string)
    ensures FirstWithPrefix(RewriteAll(lines, token, date), TOKEN_KEY) == FirstWithPrefix(lines, TOKEN_KEY)
    ensures FirstWithPrefix(RewriteAll(lines, token, date), SECRET_KEY) == FirstWithPrefix(lines, SECRET_KEY)
    ensures forall j :: 0 <= j < |lines| ==> (TOKEN_KEY <= RewriteAll(lines, token, date)[j]) == (TOKEN_KEY <= lines[j])
    ensures forall j :: 0 <= j < |lines| ==> (SECRET_KEY <= RewriteAll(lines, token, date)[j]) == (SECRET_KEY <= lines[j])
  {
    var r := RewriteAll(lines, token, date);
    KeyedLines(token, date);
    KeysDisjoint(TOKEN_KEY + token);
    KeysDisjoint(DATE_KEY + date);
    forall j | 0 <= j < |lines|
      ensures (TOKEN_KEY <= r[j]) == (TOKEN_KEY <= lines[j])
      ensures (SECRET_KEY <= r[j]) == (SECRET_KEY <= lines[j])
    {
      KeysDisjoint(lines[j]);
    }
    SamePattern(r, lines, TOKEN_KEY);
    SamePattern(r, lines, SECRET_KEY);
  }

  lemma SamePattern(a: seq<string>, b: seq<string>, p: string)
    requires |a| == |b|
    requires forall j :: 0 <= j < |a| ==> (p <= a[j]) == (p <= b[j])
    ensures FirstWithPrefix(a, p) == FirstWithPrefix(b, p)
  {
  }

  /** With both keys present every ACCESS_TOKEN= line carries the new token,
      every ACCESS_TOKEN_DATE= line the new date, every other line is kept in
      place, and the line count does not change. */
  lemma BothKeysPresent(lines: seq<string>, token: string, date: string)
    requires HasLine(lines, TOKEN_KEY) && HasLine(lines, DATE_KEY)
    ensures |UpdatedLines(lines, token, date)| == |lines|
    ensures forall i :: 0 <= i < |lines| && TOKEN_KEY <= lines[i] ==>
              UpdatedLines(lines, token, date)[i] == TOKEN_KEY + token
    ensures forall i :: 0 <= i < |lines| && DATE_KEY <= lines[i] ==>
              UpdatedLines(lines, token, date)[i] == DATE_KEY + date
    ensures forall i :: 0 <= i < |lines| && !(TOKEN_KEY <= lines[i]) && !(DATE_KEY <= lines[i]) ==>
              UpdatedLines(lines, token, date)[i] == lines[i]
  {
    forall i | 0 <= i < |lines| {
      KeysDisjoint(lines[i]);
    }
  }

  /** No ACCESS_TOKEN= line: the token line goes right after the first
      API_SECRET= line; then, if the date line is missing too, the date line
      goes right after the token line just inserted. */
  lemma TokenAfterSecret(lines: seq<string>, token: string, date: string)
    requires !HasLine(lines, TOKEN_KEY) && HasLine(lines, SECRET_KEY)
    ensures var k := FirstWithPrefix(lines, SECRET_KEY);
            var r := RewriteAll(lines, token, date);
            UpdatedLines(lines, token, date) ==
              if HasLine(lines, DATE_KEY) then r[..k + 1] + [TOKEN_KEY + token] + r[k + 1..]
              else r[..k + 1] + [TOKEN_KEY + token, DATE_KEY + date] + r[k + 1..]
  {
    var k := FirstWithPrefix(lines, SECRET_KEY);
    var r := RewriteAll(lines, token, date);
    TokenInserted(lines, token, date);
    if !HasLine(lines, DATE_KEY) {
      RewriteKeepsAnchors(lines, token, date);
      DateAfterInsertedToken(r, k, token, date);
    }
  }

  /** The token line inserted by the rewrite goes right after the first
      API_SECRET= line. */
  lemma TokenInserted(lines: seq<string>, token: string, date: string)
    requires !HasLine(lines, TOKEN_KEY) && HasLine(lines, SECRET_KEY)
    ensures var k := FirstWithPrefix(lines, SECRET_KEY);
            var r := RewriteAll(lines, token, date);
            InsertAfterFirst(r, SECRET_KEY, TOKEN_KEY + token) == r[..k + 1] + [TOKEN_KEY + token] + r[k + 1..]
  {
    RewriteKeepsAnchors(lines, token, date);
  }

  /** In lines without an ACCESS_TOKEN= line, a token line just inserted at
      `k + 1` is the anchor for the date line. */
  lemma DateAfterInsertedToken(r: seq<string>, k: nat, token: string, date: string)
    requires k < |r| && FirstWithPrefix(r, TOKEN_KEY) == |r|
    ensures InsertAfterFirst(r[..k + 1] + [TOKEN_KEY + token] + r[k + 1..], TOKEN_KEY, DATE_KEY + date) ==
            r[..k + 1] + [TOKEN_KEY + token, DATE_KEY + date] + r[k + 1..]
  {
    var t := TOKEN_KEY + token;
    var w := r[..k + 1] + [t] + r[k + 1..];
    KeyedLines(token, date);
    assert w[k + 1] == t;
    forall j | 0 <= j < k + 1
      ensures !(TOKEN_KEY <= w[j])
    {
      assert w[j] == r[j];
    }
    FirstAt(w, TOKEN_KEY, k + 1);
    var d := DATE_KEY + date;
    assert InsertAfterFirst(w, TOKEN_KEY, d) == w[..k + 2] + [d] + w[k + 2..];
    assert w[..k + 2] == r[..k + 1] + [t];
    assert w[k + 2..] == r[k + 1..];
    TwoInserted(r[..k + 1], t, d, r[k + 1..]);
  }

  lemma TwoInserted(a: seq<string>, t: string, d: string, b: seq<string>)
    ensures a + [t] + [d] + b == a + [t, d] + b
  {
    assert a + [t] + [d] == a + [t, d];
  }

  /** The first line with a prefix is the one before which none has it. */
  lemma FirstAt(lines: seq<string>, p: string, k: nat)
    requires k < |lines| && p <= lines[k]
    requires forall j :: 0 <= j < k ==> !(p <= lines[j])
    ensures FirstWithPrefix(lines, p) == k
  {
  }

  /** No ACCESS_TOKEN= and no API_SECRET= line: neither line is added. */
  lemma NoAnchorNoInsert(lines: seq<string>, token: string, date: string)
    requires !HasLine(lines, TOKEN_KEY) && !HasLine(lines, SECRET_KEY)
    ensures UpdatedLines(lines, token, date) == RewriteAll(lines, token, date)
  {
    RewriteKeepsAnchors(lines, token, date);
  }

  /** A token line present but no date line: the date line goes right after
      the first ACCESS_TOKEN= line. */
  lemma DateAfterToken(lines: seq<string>, token: string, date: string)
    requires HasLine(lines, TOKEN_KEY) && !HasLine(lines, DATE_KEY)
    ensures var k := FirstWithPrefix(lines, TOKEN_KEY);
            var r := RewriteAll(lines, token, date);
            UpdatedLines(lines, token, date) == r[..k + 1] + [DATE_KEY + date] + r[k + 1..]
  {
    RewriteKeepsAnchors(lines, token, date);
  }

  /** The file never loses a line and gains at most two. */
  lemma GrowsByAtMostTwo(lines: seq<string>, token: string, date: string)
    ensures |lines| <= |UpdatedLines(lines, token, date)| <= |lines| + 2
  {
    var r := RewriteAll(lines, token, date);
    var w := if HasLine(lines, TOKEN_KEY) then r else InsertAfterFirst(r, SECRET_KEY, TOKEN_KEY + token);
    assert |lines| <= |w| <= |lines| + 1;
  }

  /** `str.split('\n')`: always at least one piece, none holding a newline. */
  function Split(s: string): (pieces: seq<string>)
    ensures |pieces| >= 1
    ensures forall i :: 0 <= i < |pieces| ==> '\n' !in pieces[i]
  {
    if |s| == 0 then [""]
    else if s[0] == '\n' then [""] + Split(s[1..])
    else
      var rest := Split(s[1..]);
      [[s[0]] + rest[0]] + rest[1..]
  }

  /** `'\n'.join(lines)`. */
  function Join(lines: seq<string>): (text: string)
    ensures |lines| > 0 ==> lines[0] <= text
  {
    if |lines| == 0 then ""
    else if |lines| == 1 then lines[0]
    else
      var rest := Join(lines[1..]);
      assert (lines[0] + "\n" + rest)[..|lines[0]|] == lines[0];
      lines[0] + "\n" + rest
  }

  /** Splitting text that starts with a newline-free `x` puts `x` in front
      of the first piece. */
  lemma {:induction false} SplitConcat(x: string, t: string)
    requires '\n' !in x
    ensures Split(x + t) == [x + Split(t)[0]] + Split(t)[1..]
  {
    if |x| == 0 {
      assert x + t == t;
      assert x + Split(t)[0] == Split(t)[0];
      assert [Split(t)[0]] + Split(t)[1..] == Split(t);
    } else {
      assert x[0] in x;
      assert (x + t)[0] == x[0];
      assert (x + t)[1..] == x[1..] + t;
      assert forall c :: c in x[1..] ==> c in x;
      SplitConcat(x[1..], t);
      assert [x[0]] + (x[1..] + Split(t)[0]) == x + Split(t)[0];
    }
  }

  /** Joining newline-free lines and splitting again gives back the lines. */
  lemma {:induction false} SplitJoin(lines: seq<string>)
    requires |lines| >= 1
    requires forall i :: 0 <= i < |lines| ==> '\n' !in lines[i]
    ensures Split(Join(lines)) == lines
  {
    if |lines| == 1 {
      SplitConcat(lines[0], "");
      assert lines[0] + "" == lines[0];
    } else {
      var rest := lines[1..];
      assert forall i :: 0 <= i < |rest| ==> '\n' !in rest[i] by {
        forall i | 0 <= i < |rest| ensures '\n' !in rest[i] {
          assert rest[i] == lines[i + 1];
        }
      }
      SplitJoin(rest);
      var t := "\n" + Join(rest);
      assert t[1..] == Join(rest);
      assert Split(t) == [""] + Split(Join(rest));
      SplitConcat(lines[0], t);
      assert lines[0] + "\n" + Join(rest) == lines[0] + t;
      assert lines[0] + "" == lines[0];
      assert [lines[0]] + rest == lines;
    }
  }

  lemma JoinConsChar(c: char, first: string, rest: seq<string>)
    ensures Join([[c] + first] + rest) == [c] + Join([first] + rest)
  {
    assert ([[c] + first] + rest)[1..] == rest;
    assert ([first] + rest)[1..] == rest;
  }

  /** Splitting on newlines and joining back gives the original text. */
  lemma {:induction false} JoinSplit(s: string)
    ensures Join(Split(s)) == s
  {
    if |s| == 0 {
    } else if s[0] == '\n' {
      JoinSplit(s[1..]);
      assert ([""] + Split(s[1..]))[1..] == Split(s[1..]);
      assert s == "\n" + s[1..];
    } else {
      var rest := Split(s[1..]);
      JoinSplit(s[1..]);
      JoinConsChar(s[0], rest[0], rest[1..]);
      assert [rest[0]] + rest[1..] == rest;
      assert s == [s[0]] + s[1..];
    }
  }

  /** When no line carries any of the three keys, the file is written back
      exactly as it was read. */
  lemma NothingMatchesKeepsFile(content: string, token: string, date: string)
    requires !HasLine(Split(content), TOKEN_KEY) && !HasLine(Split(content), DATE_KEY)
    requires !HasLine(Split(content), SECRET_KEY)
    ensures Join(UpdatedLines(Split(content), token, date)) == content
  {
    var lines := Split(content);
    NoAnchorNoInsert(lines, token, date);
    assert RewriteAll(lines, token, date) == lines;
    JoinSplit(content);
  }
}
