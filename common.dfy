/**
 * The provider's shared helpers: the colon-separated resource identity
 * (ParseResourceId and the ids written with COLON_SEPARATED), the
 * ComplexError wrapper built by WrapError / WrapComplexError, and the
 * expected-error classifier IsExpectedErrors that drivers use to treat
 * "already gone" as success.
 */
module Common {
  import opened Wrappers

  // ------------------------------------------------------------------
  // The parts of Go's strings package the helpers rely on
  // ------------------------------------------------------------------

  /** strings.Split(s, string(sep)) for a one-character separator. */
  function Split(s: string, sep: char): (parts: seq<string>)
    ensures |parts| > 0
  {
    if |s| == 0 then [""]
    else
      assert s == [s[0]] + s[1..];
      var rest := Split(s[1..], sep);
      if s[0] == sep then [""] + rest
      else [[s[0]] + rest[0]] + rest[1..]
  }

  /** The pieces of a split are one more than the separators, and none of them holds one. */
  lemma {:induction false} SplitPieces(s: string, sep: char)
    ensures |Split(s, sep)| == multiset(s)[sep] + 1
    ensures forall i :: 0 <= i < |Split(s, sep)| ==> sep !in Split(s, sep)[i]
  {
    if |s| > 0 {
      SplitPieces(s[1..], sep);
      assert s == [s[0]] + s[1..];
    }
  }

  /** strings.Join(parts, string(sep)). */
  function Join(parts: seq<string>, sep: char): string
  {
    if |parts| == 0 then ""
    else if |parts| == 1 then parts[0]
    else parts[0] + [sep] + Join(parts[1..], sep)
  }

  lemma {:induction false} SplitWithoutSeparator(a: string, sep: char)
    requires sep !in a
    ensures Split(a, sep) == [a]
  {
    if |a| > 0 {
      SplitWithoutSeparator(a[1..], sep);
      assert [a[0]] + a[1..] == a;
    }
  }

  lemma {:induction false} SplitAfterPiece(a: string, b: string, sep: char)
    requires sep !in a
    ensures Split(a + [sep] + b, sep) == [a] + Split(b, sep)
  {
    var s := a + [sep] + b;
    if |a| == 0 {
      assert s == [sep] + b;
      assert s[0] == sep && s[1..] == b;
    } else {
      assert s[0] == a[0] && s[1..] == a[1..] + [sep] + b;
      SplitAfterPiece(a[1..], b, sep);
      var rest := Split(s[1..], sep);
      assert rest == [a[1..]] + Split(b, sep);
      assert Split(s, sep) == [[a[0]] + rest[0]] + rest[1..];
      assert rest[1..] == Split(b, sep);
      assert [a[0]] + a[1..] == a;
    }
  }

  /** Splitting a joined id gives back its parts, provided no part holds the separator. */
  lemma {:induction false} SplitJoin(parts: seq<string>, sep: char)
    requires |parts| > 0
    requires forall i :: 0 <= i < |parts| ==> sep !in parts[i]
    ensures Split(Join(parts, sep), sep) == parts
  {
    if |parts| == 1 {
      SplitWithoutSeparator(parts[0], sep);
    } else {
      SplitJoin(parts[1..], sep);
      SplitAfterPiece(parts[0], Join(parts[1..], sep), sep);
      assert [parts[0]] + parts[1..] == parts;
    }
  }

  /** Prefixing the first piece with a character prefixes the joined string with it. */
  lemma JoinExtendsFirst(c: char, parts: seq<string>, sep: char)
    requires |parts| > 0
    ensures Join([[c] + parts[0]] + parts[1..], sep) == [c] + Join(parts, sep)
  {
    var extended := [[c] + parts[0]] + parts[1..];
    assert extended[1..] == parts[1..];
  }

  /** Joining the pieces of a split gives back the original string. */
  lemma {:induction false} JoinSplit(s: string, sep: char)
    ensures Join(Split(s, sep), sep) == s
  {
    if |s| > 0 {
      JoinSplit(s[1..], sep);
      var rest := Split(s[1..], sep);
      assert s == [s[0]] + s[1..];
      if s[0] == sep {
        assert ([""] + rest)[1..] == rest;
      } else {
        JoinExtendsFirst(s[0], rest, sep);
      }
    }
  }

  predicate OccursAt(s: string, sub: string, i: int)
  {
    0 <= i && i + |sub| <= |s| && s[i..i + |sub|] == sub
  }

  /** strings.Contains(s, sub); the empty string occurs in every string. */
  predicate Contains(s: string, sub: string)
    ensures Contains(s, sub) ==> |sub| <= |s|
    decreases |s|
  {
    sub <= s || (|s| > 0 && Contains(s[1..], sub))
  }

  lemma {:induction false} ContainsAt(s: string, sub: string, i: nat)
    requires OccursAt(s, sub, i)
    ensures Contains(s, sub)
  {
    if i > 0 {
      assert s[1..][i - 1..i - 1 + |sub|] == s[i..i + |sub|];
      ContainsAt(s[1..], sub, i - 1);
    } else {
      assert s[..|sub|] == sub;
    }
  }

  /** Contains agrees with the positional reading of a substring occurrence. */
  lemma {:induction false} ContainsMeansOccurs(s: string, sub: string)
    ensures Contains(s, sub) <==> exists i :: OccursAt(s, sub, i)
  {
    if Contains(s, sub) {
      if sub <= s {
        assert OccursAt(s, sub, 0);
      } else {
        ContainsMeansOccurs(s[1..], sub);
        var i :| OccursAt(s[1..], sub, i);
        assert s[1..][i..i + |sub|] == s[i + 1..i + 1 + |sub|];
        assert OccursAt(s, sub, i + 1);
      }
    } else {
      forall i | OccursAt(s, sub, i) ensures false {
        ContainsAt(s, sub, i);
      }
    }
  }

  lemma ContainsInfix(a: string, sub: string, b: string)
    ensures Contains(a + sub + b, sub)
  {
    assert (a + sub + b)[|a|..|a| + |sub|] == sub;
    ContainsAt(a + sub + b, sub, |a|);
  }

  /** Text put in front of a string never hides what the string contains. */
  lemma {:induction false} ContainsAfterPrefix(prefix: string, s: string, sub: string)
    requires Contains(s, sub)
    ensures Contains(prefix + s, sub)
    decreases |prefix|
  {
    if |prefix| == 0 {
      assert prefix + s == s;
    } else {
      ContainsAfterPrefix(prefix[1..], s, sub);
      assert (prefix + s)[1..] == prefix[1..] + s;
    }
  }

  lemma ContainsSuffix(a: string, sub: string)
    ensures Contains(a + sub, sub)
  {
    assert (a + sub)[|a|..|a| + |sub|] == sub;
    ContainsAt(a + sub, sub, |a|);
  }

  // ------------------------------------------------------------------
  // Decimal rendering of %d
  // ------------------------------------------------------------------

  function DecimalDigit(d: nat): (c: char)
    requires d < 10
    ensures '0' <= c <= '9'
  {
    ('0' as int + d) as char
  }

  function NatToString(n: nat): (s: string)
    ensures |s| > 0
    ensures forall i :: 0 <= i < |s| ==> '0' <= s[i] <= '9'
  {
    if n < 10 then [DecimalDigit(n)]
    else NatToString(n / 10) + [DecimalDigit(n % 10)]
  }

  /** fmt's %d. */
  function IntToString(i: int): (s: string)
    ensures |s| > 0
    ensures s[0] == '-' <==> i < 0
  {
    if i < 0 then "-" + NatToString(-i) else NatToString(i)
  }

  /** The number a string of decimal digits denotes, most significant digit first. */
  function DecimalValue(s: string): int
  {
    if |s| == 0 then 0
    else DecimalValue(s[..|s| - 1]) * 10 + (s[|s| - 1] as int - '0' as int)
  }

  /** NatToString writes the decimal numeral of its argument: reading the digits back gives the number. */
  lemma {:induction false} NatToStringValue(n: nat)
    ensures DecimalValue(NatToString(n)) == n
  {
    var s := NatToString(n);
    if n < 10 {
      assert s[..|s| - 1] == [];
    } else {
      NatToStringValue(n / 10);
      assert s[..|s| - 1] == NatToString(n / 10);
    }
  }

  /** %d writes a minus sign before the magnitude of a negative number, and nothing before any other. */
  lemma IntToStringValue(i: int)
    ensures i < 0 ==> DecimalValue(IntToString(i)[1..]) == -i
    ensures i >= 0 ==> DecimalValue(IntToString(i)) == i
  {
    if i < 0 {
      NatToStringValue(-i);
      assert IntToString(i)[1..] == NatToString(-i);
    } else {
      NatToStringValue(i);
    }
  }

  // ------------------------------------------------------------------
  // Errors
  // ------------------------------------------------------------------

  /**
   * The error values the classifier tells apart. A Go `error` that may be
   * nil is an Option<Error>.
   *   Complex  - *ComplexError, the provider's own wrapper
   *   Server   - *errors.ServerError of the Alibaba Cloud SDK (code, message)
   *   Service  - *fc.ServiceError of the Function Compute SDK (code, message)
   *   Plain    - any other error, known only by its Error() text
   * The two SDK errors also carry their Error() text, which their SDKs
   * compose and which this model treats as given.
   */
  datatype Error =
    | Complex(cause: Option<Error>, err: Option<Error>, path: string, line: int)
    | Server(code: string, message: string, text: string)
    | Service(code: string, message: string, text: string)
    | Plain(text: string)

  /** The red "[ERROR]" tag that opens a ComplexError's text, with its ANSI colour codes. */
  const ErrorTag: string := [27 as char] + "[31m[ERROR]" + [27 as char] + "[0m "

  /** A ComplexError's text from its parts: path, line, the context error's text if any, and the cause's text. */
  function ComplexText(path: string, lineText: string, context: Option<string>, causeText: string): string
  {
    if context.None? then ErrorTag + path + ":" + lineText + ":\n" + causeText
    else ErrorTag + path + ":" + lineText + ": " + context.value + ":\n" + causeText
  }

  /** The Error() text of an error; a nil cause is shown as "<nil cause>". */
  function ErrorText(e: Error): (r: string)
    ensures e.Complex? ==> |r| > |ErrorTag| && r[..|ErrorTag|] == ErrorTag
    ensures !e.Complex? ==> r == e.text
  {
    match e
    case Complex(cause, err, path, line) =>
      ComplexText(path, IntToString(line),
                  if err.Some? then Some(ErrorText(err.value)) else None,
                  if cause.Some? then ErrorText(cause.value) else "<nil cause>")
    case Server(_, _, text) => text
    case Service(_, _, text) => text
    case Plain(text) => text
  }

  /** A ComplexError's text ends with its cause's text, or with "<nil cause>" when the cause is nil. */
  lemma ComplexErrorTextShowsCause(cause: Option<Error>, err: Option<Error>, path: string, line: int)
    ensures Contains(ErrorText(Complex(cause, err, path, line)),
                     if cause.Some? then ErrorText(cause.value) else "<nil cause>")
  {
    var causeText := if cause.Some? then ErrorText(cause.value) else "<nil cause>";
    var lineText := IntToString(line);
    var head := if err.None? then ErrorTag + path + ":" + lineText + ":\n"
                else ErrorTag + path + ":" + lineText + ": " + ErrorText(err.value) + ":\n";
    ContainsSuffix(head, causeText);
  }

  /** A ComplexError's text names the recorded path. */
  lemma ComplexErrorTextShowsPath(cause: Option<Error>, err: Option<Error>, path: string, line: int)
    ensures Contains(ErrorText(Complex(cause, err, path, line)), path)
  {
    var causeText := if cause.Some? then ErrorText(cause.value) else "<nil cause>";
    var lineText := IntToString(line);
    if err.None? {
      var tail := ":" + lineText + ":\n" + causeText;
      assert ErrorTag + path + ":" + lineText + ":\n" + causeText == ErrorTag + path + tail;
      ContainsInfix(ErrorTag, path, tail);
    } else {
      var tail := ":" + lineText + ": " + ErrorText(err.value) + ":\n" + causeText;
      assert ErrorTag + path + ":" + lineText + ": " + ErrorText(err.value) + ":\n" + causeText
          == ErrorTag + path + tail;
      ContainsInfix(ErrorTag, path, tail);
    }
  }

  /** A ComplexError's text names its context error, when there is one. */
  lemma ComplexErrorTextShowsContext(cause: Option<Error>, err: Option<Error>, path: string, line: int)
    requires err.Some?
    ensures Contains(ErrorText(Complex(cause, err, path, line)), ErrorText(err.value))
  {
    var causeText := if cause.Some? then ErrorText(cause.value) else "<nil cause>";
    var head := ErrorTag + path + ":" + IntToString(line) + ": ";
    var e := ErrorText(err.value);
    assert head + e + ":\n" + causeText == head + e + (":\n" + causeText);
    ContainsInfix(head, e, ":\n" + causeText);
  }

  /** What runtime.Caller reports about a call site. */
  datatype Frame = Frame(file: string, line: int)

  function LastSegments(parts: seq<string>, n: nat): seq<string>
  {
    if |parts| > n then parts[|parts| - n..] else parts
  }

  /** WrapError's path: only the last three '/'-separated segments of a longer path are kept. */
  function TrimmedPath(file: string): string
  {
    var parts := Split(file, '/');
    if |parts| > 3 then Join(parts[|parts| - 3..], '/') else file
  }

  lemma TrimmedPathSegments(file: string)
    ensures Split(TrimmedPath(file), '/') == LastSegments(Split(file, '/'), 3)
  {
    var parts := Split(file, '/');
    if |parts| > 3 {
      SplitPieces(file, '/');
      SplitJoin(parts[|parts| - 3..], '/');
    }
  }

  /** WrapComplexError: a ComplexError with exactly the given parts, whose innermost cause is the cause's. */
  function WrapComplexError(cause: Option<Error>, err: Option<Error>, path: string, line: int): (r: Error)
    ensures r.Complex? && r.cause == cause && r.err == err && r.path == path && r.line == line
    ensures Root(Some(r)) == Root(cause)
  {
    Complex(cause, err, path, line)
  }

  /**
   * WrapError: nil stays nil; anything else becomes a ComplexError recording
   * the caller's trimmed path and line, or "" and -1 when runtime.Caller
   * fails (`caller` is None; the log line it writes then is not modelled).
   */
  function WrapError(cause: Option<Error>, caller: Option<Frame>): (r: Option<Error>)
    ensures r.None? <==> cause.None?
    ensures r.Some? ==> r.value.Complex? && r.value.cause == cause && r.value.err.None?
    ensures r.Some? && caller.None? ==> r.value.path == "" && r.value.line == -1
    ensures r.Some? && caller.Some? ==>
      r.value.line == caller.value.line &&
      Split(r.value.path, '/') == LastSegments(Split(caller.value.file, '/'), 3)
  {
    if cause.None? then None
    else if caller.None? then Some(WrapComplexError(cause, None, "", -1))
    else
      TrimmedPathSegments(caller.value.file);
      Some(WrapComplexError(cause, None, TrimmedPath(caller.value.file), caller.value.line))
  }

  // ------------------------------------------------------------------
  // Resource identity
  // ------------------------------------------------------------------

  /** COLON_SEPARATED, the separator of composite ids. */
  const ColonSeparated: string := ":"

  /**
   * The call site runtime.Caller reports for the WrapError inside
   * ParseResourceId; the build machine's directory prefix is not known to
   * the model, which names the file by its repository path.
   */
  const ParseResourceIdCaller: Frame := Frame("aliyun/common.go", 39)

  function InvalidIdMessage(id: string, length: int, got: int): string
  {
    "Invalid Resource Id " + id + ". Expected parts' length " + IntToString(length) + ", got " + IntToString(got)
  }

  /** ParseResourceId's two results: the pieces, always, and an error when their count is wrong. */
  datatype Parsed = Parsed(parts: seq<string>, err: Option<Error>)

  function ParseResourceId(id: string, length: int): (r: Parsed)
    ensures r.err.None? <==> |r.parts| == length
    ensures r.err.Some? ==>
      r.err == WrapError(Some(Plain(InvalidIdMessage(id, length, |r.parts|))), Some(ParseResourceIdCaller))
  {
    var parts := Split(id, ':');
    var err := if |parts| != length
      then WrapError(Some(Plain(InvalidIdMessage(id, length, |parts|))), Some(ParseResourceIdCaller))
      else None;
    Parsed(parts, err)
  }

  /** The pieces are the colon-free runs of the id: one more than its colons, and they join back into it. */
  lemma ParsePieces(id: string, length: int)
    ensures var r := ParseResourceId(id, length);
      && |r.parts| == multiset(id)[':'] + 1
      && (forall i :: 0 <= i < |r.parts| ==> ':' !in r.parts[i])
      && Join(r.parts, ':') == id
      && (id == "" ==> r.parts == [""])
  {
    SplitPieces(id, ':');
    JoinSplit(id, ':');
  }

  /** Round trip: ids written with COLON_SEPARATED parse back into their parts. */
  lemma ParseJoinedId(parts: seq<string>)
    requires |parts| > 0
    requires forall i :: 0 <= i < |parts| ==> ':' !in parts[i]
    ensures ParseResourceId(Join(parts, ColonSeparated[0]), |parts|) == Parsed(parts, None)
  {
    SplitJoin(parts, ':');
  }

  /** Each of the three values a three-verb format fills in occurs in the result. */
  lemma ContainsFilledIn(a: string, x: string, b: string, y: string, c: string, z: string)
    ensures Contains(a + x + b + y + c + z, x)
    ensures Contains(a + x + b + y + c + z, y)
    ensures Contains(a + x + b + y + c + z, z)
  {
    assert a + x + b + y + c + z == a + x + (b + y + c + z);
    ContainsInfix(a, x, b + y + c + z);
    assert a + x + b + y + c + z == (a + x + b) + y + (c + z);
    ContainsInfix(a + x + b, y, c + z);
    ContainsSuffix(a + x + b + y + c, z);
  }

  lemma InvalidIdMessageMentions(id: string, length: int, got: int)
    ensures var msg := InvalidIdMessage(id, length, got);
      Contains(msg, id) && Contains(msg, IntToString(length)) && Contains(msg, IntToString(got))
  {
    ContainsFilledIn("Invalid Resource Id ", id, ". Expected parts' length ", IntToString(length), ", got ", IntToString(got));
  }

  /** A parse failure is a ComplexError whose cause names the raw id, the expected and the actual count. */
  lemma ParseFailureMentions(id: string, length: int)
    requires ParseResourceId(id, length).err.Some?
    ensures var r := ParseResourceId(id, length);
      && r.err.value.Complex?
      && r.err.value.cause.Some? && r.err.value.cause.value.Plain?
      && var msg := r.err.value.cause.value.text;
         Contains(msg, id) && Contains(msg, IntToString(length)) && Contains(msg, IntToString(|r.parts|))
  {
    InvalidIdMessageMentions(id, length, |ParseResourceId(id, length).parts|);
  }

  // ------------------------------------------------------------------
  // Expected-error classification
  // ------------------------------------------------------------------

  /** Whether one expected code matches an error that is not a ComplexError. */
  predicate MatchesCode(e: Error, code: string)
  {
    match e
    case Complex(_, _, _, _) => false
    case Server(c, message, _) => c == code || Contains(message, code)
    case Service(c, message, _) => c == code || Contains(message, code)
    case Plain(text) => Contains(text, code)
  }

  /** The range-over-expectCodes loops of IsExpectedErrors, which return at the first match. */
  predicate AnyCodeMatches(e: Error, expectCodes: seq<string>)
  {
    if |expectCodes| == 0 then false
    else if MatchesCode(e, expectCodes[0]) then true
    else AnyCodeMatches(e, expectCodes[1..])
  }

  /** IsExpectedErrors: looks through ComplexError causes, then tries every expected code on what it finds. */
  predicate IsExpectedErrors(err: Option<Error>, expectCodes: seq<string>)
    ensures IsExpectedErrors(err, expectCodes) ==> Root(err).Some? && |expectCodes| > 0
  {
    match err
    case None => false
    case Some(e) =>
      if e.Complex? then IsExpectedErrors(e.cause, expectCodes)
      else AnyCodeMatches(e, expectCodes)
  }

  /** The innermost cause of a chain of ComplexErrors; nil when the chain ends in a nil Cause. */
  function Root(err: Option<Error>): (r: Option<Error>)
    ensures r.Some? ==> !r.value.Complex?
  {
    match err
    case None => None
    case Some(e) => if e.Complex? then Root(e.cause) else err
  }

  /** The classifier's meaning: some expected code matches the innermost cause. */
  ghost predicate Classifies(err: Option<Error>, expectCodes: seq<string>)
  {
    Root(err).Some? && exists i :: 0 <= i < |expectCodes| && MatchesCode(Root(err).value, expectCodes[i])
  }

  lemma {:induction false} AnyCodeMatchesMeaning(e: Error, expectCodes: seq<string>)
    ensures AnyCodeMatches(e, expectCodes) <==> exists i :: 0 <= i < |expectCodes| && MatchesCode(e, expectCodes[i])
  {
    if |expectCodes| > 0 && !MatchesCode(e, expectCodes[0]) {
      AnyCodeMatchesMeaning(e, expectCodes[1..]);
      if AnyCodeMatches(e, expectCodes) {
        var j :| 0 <= j < |expectCodes| - 1 && MatchesCode(e, expectCodes[1..][j]);
        assert MatchesCode(e, expectCodes[j + 1]);
      } else {
        forall i | 0 <= i < |expectCodes| ensures !MatchesCode(e, expectCodes[i]) {
          if i > 0 { assert expectCodes[i] == expectCodes[1..][i - 1]; }
        }
      }
    }
  }

  /** IsExpectedErrors decides exactly Classifies: nil is never expected, wrappers are looked through. */
  lemma {:induction false} IsExpectedErrorsMeaning(err: Option<Error>, expectCodes: seq<string>)
    ensures IsExpectedErrors(err, expectCodes) <==> Classifies(err, expectCodes)
  {
    match err
    case None =>
    case Some(e) =>
      if e.Complex? {
        IsExpectedErrorsMeaning(e.cause, expectCodes);
      } else {
        AnyCodeMatchesMeaning(e, expectCodes);
      }
  }

  /** No error is expected against an empty code list. */
  lemma NothingExpectedWithoutCodes(err: Option<Error>)
    ensures !IsExpectedErrors(err, [])
  {
    IsExpectedErrorsMeaning(err, []);
  }

  /** Adding codes never turns an expected error into an unexpected one. */
  lemma ExpectedMonotone(err: Option<Error>, expectCodes: seq<string>, more: seq<string>)
    requires forall i :: 0 <= i < |expectCodes| ==> expectCodes[i] in more
    ensures IsExpectedErrors(err, expectCodes) ==> IsExpectedErrors(err, more)
  {
    IsExpectedErrorsMeaning(err, expectCodes);
    IsExpectedErrorsMeaning(err, more);
    if IsExpectedErrors(err, expectCodes) {
      var i :| 0 <= i < |expectCodes| && MatchesCode(Root(err).value, expectCodes[i]);
      var j :| 0 <= j < |more| && more[j] == expectCodes[i];
      assert MatchesCode(Root(err).value, more[j]);
    }
  }

  /** Wrapping never changes the classification: only the cause is consulted, never the context error. */
  lemma WrappingKeepsClassification(cause: Option<Error>, err: Option<Error>, path: string, line: int,
                                    caller: Option<Frame>, expectCodes: seq<string>)
    ensures IsExpectedErrors(Some(WrapComplexError(cause, err, path, line)), expectCodes)
        == IsExpectedErrors(cause, expectCodes)
    ensures IsExpectedErrors(WrapError(cause, caller), expectCodes) == IsExpectedErrors(cause, expectCodes)
  {
  }

  /** A structured SDK error is classified by its code and message; its Error() text is never read. */
  lemma StructuredErrorsIgnoreText(code: string, message: string, text1: string, text2: string,
                                   expectCodes: seq<string>)
    ensures IsExpectedErrors(Some(Server(code, message, text1)), expectCodes)
        == IsExpectedErrors(Some(Server(code, message, text2)), expectCodes)
    ensures IsExpectedErrors(Some(Service(code, message, text1)), expectCodes)
        == IsExpectedErrors(Some(Service(code, message, text2)), expectCodes)
    ensures IsExpectedErrors(Some(Service(code, message, text1)), expectCodes)
        <==> exists i :: 0 <= i < |expectCodes| && (expectCodes[i] == code || Contains(message, expectCodes[i]))
  {
    IsExpectedErrorsMeaning(Some(Service(code, message, text1)), expectCodes);
    IsExpectedErrorsMeaning(Some(Service(code, message, text2)), expectCodes);
    IsExpectedErrorsMeaning(Some(Server(code, message, text1)), expectCodes);
    IsExpectedErrorsMeaning(Some(Server(code, message, text2)), expectCodes);
  }
}
