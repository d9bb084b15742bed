/**
 * The submission converter: external converters are tried in a fixed order
 * until one exits with status 0, and when none does, the document text is
 * embedded in a `<pre>` block of an HTML page with its angle brackets escaped.
 *
 * Running a shell command is a given function from the command line to its
 * outcome; reading and writing files is not modelled.
 */
module CreatePdf {
  import opened Wrappers

  // ---------------------------------------------------------------------------
  // Escaping the document text
  // ---------------------------------------------------------------------------

  /** `s.replace(c, rep)` for a one-character pattern: every occurrence, left to right. */
  function ReplaceChar(s: string, c: char, rep: string): string {
    if s == [] then [] else (if s[0] == c then rep else [s[0]]) + ReplaceChar(s[1..], c, rep)
  }

  /** Reference escaping of one character. */
  function EscapeChar(c: char): string {
    if c == '<' then "&lt;" else if c == '>' then "&gt;" else [c]
  }

  /** Reference escaping: every character escaped on its own, in order. */
  function EscapeEach(s: string): string {
    if s == [] then [] else EscapeChar(s[0]) + EscapeEach(s[1..])
  }

  /** The number of angle brackets in `s`. */
  function Brackets(s: string): nat {
    if s == [] then 0 else (if s[0] == '<' || s[0] == '>' then 1 else 0) + Brackets(s[1..])
  }

  lemma {:induction false} ReplaceCharAppend(a: string, b: string, c: char, rep: string)
    ensures ReplaceChar(a + b, c, rep) == ReplaceChar(a, c, rep) + ReplaceChar(b, c, rep)
  {
    if a == [] {
      assert a + b == b;
    } else {
      assert (a + b)[1..] == a[1..] + b;
      ReplaceCharAppend(a[1..], b, c, rep);
    }
  }

  lemma {:induction false} ReplaceCharAbsent(s: string, c: char, rep: string)
    requires c !in s
    ensures ReplaceChar(s, c, rep) == s
  {
    if s != [] {
      assert s == [s[0]] + s[1..];
      ReplaceCharAbsent(s[1..], c, rep);
    }
  }

  /**
   * The two chained replacements act character by character: each '<'
   * becomes "&lt;", each '>' becomes "&gt;", and every other character is
   * kept, in order. The second pass cannot touch what the first produced.
   */
  lemma {:induction false} ChainedReplaceIsPerChar(s: string)
    ensures ReplaceChar(ReplaceChar(s, '<', "&lt;"), '>', "&gt;") == EscapeEach(s)
  {
    if s != [] {
      var first := if s[0] == '<' then "&lt;" else [s[0]];
      var rest := ReplaceChar(s[1..], '<', "&lt;");
      assert ReplaceChar(s, '<', "&lt;") == first + rest;
      ReplaceCharAppend(first, rest, '>', "&gt;");
      ReplaceCharAbsent("&lt;", '>', "&gt;");
      assert ReplaceChar(first, '>', "&gt;") == EscapeChar(s[0]);
      ChainedReplaceIsPerChar(s[1..]);
    }
  }

  lemma {:induction false} EscapeEachShape(s: string)
    ensures '<' !in EscapeEach(s) && '>' !in EscapeEach(s)
    ensures |EscapeEach(s)| == |s| + 3 * Brackets(s)
  {
    if s != [] {
      EscapeEachShape(s[1..]);
    }
  }

  /**
   * The text placed between `<pre>` and `</pre>`: '<' replaced first, then
   * '>'. It is the character-by-character escaping, holds no angle bracket
   * (so it cannot open or close a tag), and is 3 characters longer per
   * bracket of the input.
   */
  function Escape(content: string): (r: string)
    ensures r == EscapeEach(content)
    ensures '<' !in r && '>' !in r
    ensures |r| == |content| + 3 * Brackets(content)
  {
    ChainedReplaceIsPerChar(content);
    EscapeEachShape(content);
    ReplaceChar(ReplaceChar(content, '<', "&lt;"), '>', "&gt;")
  }

  /** Text without brackets is embedded unchanged. */
  lemma EscapeKeepsPlainText(s: string)
    requires '<' !in s && '>' !in s
    ensures Escape(s) == s
  {
    ReplaceCharAbsent(s, '<', "&lt;");
    ReplaceCharAbsent(s, '>', "&gt;");
  }

  /** '&' is not escaped, so a bracket and its own entity text escape alike. */
  lemma EscapeNotInjective()
    ensures Escape("<") == Escape("&lt;") == "&lt;"
  {
  }

  lemma EscapeCharNonEmpty(c: char)
    ensures |EscapeChar(c)| >= 1
    ensures EscapeChar(c)[0] == '&' <==> c == '&' || c == '<' || c == '>'
  {
  }

  /** Equal escapings of '&'-free heads force equal heads and equal tails. */
  lemma EscapeCharCancel(a: char, b: char, x: string, y: string)
    requires a != '&' && b != '&'
    requires EscapeChar(a) + x == EscapeChar(b) + y
    ensures a == b && x == y
  {
    var ea, eb := EscapeChar(a), EscapeChar(b);
    EscapeCharNonEmpty(a);
    EscapeCharNonEmpty(b);
    assert (ea + x)[0] == ea[0] && (eb + y)[0] == eb[0];
    if ea[0] == '&' {
      assert (ea + x)[1] == ea[1] && (eb + y)[1] == eb[1];
    }
    assert a == b;
    assert x == (ea + x)[|ea|..] == (eb + y)[|eb|..] == y;
  }

  /** Without '&' in the text, escaping loses nothing: different texts escape differently. */
  lemma {:induction false} EscapeInjectiveWithoutAmpersand(s: string, t: string)
    requires '&' !in s && '&' !in t
    requires Escape(s) == Escape(t)
    ensures s == t
  {
    EscapeEachInjective(s, t);
  }

  lemma {:induction false} EscapeEachInjective(s: string, t: string)
    requires '&' !in s && '&' !in t
    requires EscapeEach(s) == EscapeEach(t)
    ensures s == t
  {
    if s == [] || t == [] {
      if s != [] {
        EscapeCharNonEmpty(s[0]);
      } else if t != [] {
        EscapeCharNonEmpty(t[0]);
      }
    } else {
      EscapeCharCancel(s[0], t[0], EscapeEach(s[1..]), EscapeEach(t[1..]));
      assert '&' !in s[1..] && '&' !in t[1..];
      EscapeEachInjective(s[1..], t[1..]);
      assert s == [s[0]] + s[1..] && t == [t[0]] + t[1..];
    }
  }

  /** The `<pre>` element of the fallback page. */
  function PreBlock(content: string): string {
    "<pre>" + Escape(content) + "</pre>"
  }

  /**
   * The only '<' in the block are those of its own opening and closing tags,
   * and the escaped text sits between them.
   */
  lemma PreBlockKeepsContentInside(content: string)
    ensures var r := PreBlock(content);
      && |r| >= 11
      && r[5..|r| - 6] == Escape(content)
      && forall k :: 0 <= k < |r| && r[k] == '<' ==> k == 0 || k == |r| - 6
  {
    var e := Escape(content);
    var r := PreBlock(content);
    forall k | 0 <= k < |r|
      ensures r[k] == '<' ==> k == 0 || k == |r| - 6
    {
      if 5 <= k < |r| - 6 {
        assert r[k] == e[k - 5];
      } else if 0 < k < 5 {
        assert r[k] == "<pre>"[k];
      } else if |r| - 6 < k {
        assert r[k] == "</pre>"[k - (|r| - 6)];
      }
    }
  }

  // ---------------------------------------------------------------------------
  // Trying the converters
  // ---------------------------------------------------------------------------

  /** What `os.system(command)` gave: an exit status, or an exception it raised. */
  datatype Outcome = Exit(status: int) | Raised(reason: string)

  const CONVERSION_METHODS := [
    "pandoc PROJECT_SUBMISSION.md -o PROJECT_SUBMISSION.pdf --pdf-engine=wkhtmltopdf",
    "pandoc PROJECT_SUBMISSION.md -o PROJECT_SUBMISSION.pdf",
    "markdown-pdf PROJECT_SUBMISSION.md"]

  predicate Succeeded(o: Outcome) {
    o == Exit(0)
  }

  /** The index of the first command that exits with status 0, if any. */
  function FirstSuccess(commands: seq<string>, run: string -> Outcome): (r: Option<nat>)
    ensures r.Some? ==> r.value < |commands| && Succeeded(run(commands[r.value]))
    ensures r.Some? ==> forall j :: 0 <= j < r.value ==> !Succeeded(run(commands[j]))
    ensures r.None? ==> forall j :: 0 <= j < |commands| ==> !Succeeded(run(commands[j]))
  {
    if commands == [] then None
    else if Succeeded(run(commands[0])) then Some(0)
    else match FirstSuccess(commands[1..], run)
      case None => None
      case Some(i) => Some(i + 1)
  }

  /**
   * The loop of `convert_to_pdf`: commands are run in order, and the first
   * exit status 0 ends it with success; a non-zero status or a raised
   * exception moves on to the next command. `tried` lists the commands run.
   */
  method TryInOrder(commands: seq<string>, run: string -> Outcome) returns (ok: bool, tried: seq<string>)
    ensures tried <= commands
    ensures ok <==> FirstSuccess(commands, run).Some?
    ensures ok ==> |tried| == FirstSuccess(commands, run).value + 1
    ensures !ok ==> tried == commands
  {
    tried := [];
    for i := 0 to |commands|
      invariant tried == commands[..i]
      invariant forall j :: 0 <= j < i ==> !Succeeded(run(commands[j]))
    {
      tried := tried + [commands[i]];
      var outcome := run(commands[i]);
      if outcome == Exit(0) {
        return true, tried;
      }
    }
    assert tried == commands;
    return false, tried;
  }

  /** `convert_to_pdf`: the three converters of the script, in their order. */
  method ConvertToPdf(run: string -> Outcome) returns (ok: bool, tried: seq<string>)
    ensures tried <= CONVERSION_METHODS && 1 <= |tried|
    ensures ok <==> FirstSuccess(CONVERSION_METHODS, run).Some?
    ensures ok ==> Succeeded(run(tried[|tried| - 1]))
    ensures ok ==> |tried| == FirstSuccess(CONVERSION_METHODS, run).value + 1
    ensures !ok ==> tried == CONVERSION_METHODS
  {
    ok, tried := TryInOrder(CONVERSION_METHODS, run);
  }

  /** What the script leaves behind. */
  datatype Submission = MissingInput | Pdf | Html(pre: string)

  /**
   * The script's top level: without the input file it stops at once;
   * otherwise it tries the converters, and only when they all fail does it
   * build the HTML fallback from the document's text.
   */
  method ProduceSubmission(inputExists: bool, content: string, run: string -> Outcome)
    returns (result: Submission, tried: seq<string>)
    ensures !inputExists ==> result == MissingInput && tried == []
    ensures inputExists ==> tried <= CONVERSION_METHODS
    ensures inputExists ==> (result == Pdf <==> FirstSuccess(CONVERSION_METHODS, run).Some?)
    ensures inputExists && result == Pdf ==> |tried| == FirstSuccess(CONVERSION_METHODS, run).value + 1
    ensures inputExists && result != Pdf ==> tried == CONVERSION_METHODS
    ensures inputExists && result != Pdf ==> result == Html(PreBlock(content))
  {
    if !inputExists {
      return MissingInput, [];
    }
    var pdfSuccess;
    pdfSuccess, tried := ConvertToPdf(run);
    if !pdfSuccess {
      result := Html(PreBlock(content));
    } else {
      result := Pdf;
    }
  }
}
