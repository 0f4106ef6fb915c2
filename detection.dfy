/** The analysis client: what `FormMain.DetectNeedleWithPython` returns once the
    analysis script has run, as a total function of what it observed (the
    script's standard output and error, its exit code, and what the JSON
    library made of the candidate text), together with the path fix-up `Fix`.
    Starting the process, reading its streams and the JSON library itself are
    parameters: `ProcessRun` and `decode`. */
module Detection {
  import opened Wrappers
  import opened Text

  /** A C# `double`; the model only copies these and tests `> 0`. */
  datatype Double = Finite(r: real) | PositiveInfinity | NegativeInfinity | NaN

  /** The C# comparison `d > 0.0`, which is false for NaN. */
  predicate IsPositive(d: Double) {
    (d.Finite? && d.r > 0.0) || d.PositiveInfinity?
  }

  const Zero: Double := Finite(0.0)

  /** The record the analysis script prints (`PythonResult`): a missing number
      reads as 0, a missing string as `null`. */
  datatype PyRecord = PyRecord(angleDeg: Double, value: Double, confidence: Double,
                               annotatedPath: Option<Text>, error: Option<Text>)

  /** `DetectionMethod`, as a tag for each way the client can end. */
  datatype Method =
    | PythonError              // the script reported an `error`
    | PythonProcessed          // the script returned a measurement
    | ProcessFailed(exitCode: int)   // no record and a non-zero exit code
    | NoJsonFound              // no record and exit code 0
    | Faulted(message: Text)   // an exception was caught

  /** `NeedleDetectionResult`; `None` is `null`. */
  datatype NeedleResult = NeedleResult(
    angleDegrees: Double, meterValue: Double, confidence: Double, detectionMethod: Method,
    annotatedImagePath: Option<Text>, errorMessage: Option<Text>)

  /** `Path.IsPathRooted`, `Path.Combine` and `Path.GetFullPath`, left
      uninterpreted so that what is proved holds for any such functions (the
      Windows rule of `Path.Combine` is one instance, `Staging.PathCombine`);
      `GetFullPath` may throw. */
  datatype PathEnv = PathEnv(isRooted: Text -> bool, combine: (Text, Text) -> Text,
                             fullPath: Text -> Result<Text>)

  /** What running the script produced: its streams and exit code, or the
      message of the exception thrown while starting it or reading from it. */
  datatype ProcessRun = Exited(stdout: Text, stderr: Text, exitCode: int) | StartFailed(message: Text)

  /** Everything the client observes apart from the image path. */
  datatype Analyzer = Analyzer(scriptPath: Text, scriptDir: Text, scriptExists: bool,
                               run: ProcessRun, decode: Text -> Option<PyRecord>, paths: PathEnv)

  const NoStderrMessage: Text := "Python からのエラーメッセージはありません（JSONも未取得）"
  const NoJsonMessage: Text := "Pythonの標準出力にJSONが見つかりませんでした。"

  function MissingScriptMessage(scriptPath: Text): Text {
    "Pythonスクリプトが見つかりません: " + scriptPath
  }

  function MissingImageMessage(imagePath: Text): Text {
    "画像ファイルが見つかりません: " + imagePath
  }

  /** The result built in the `catch` block: confidence 0, no annotated
      image, and the exception's message both as the error and in the method. */
  function FaultResult(message: Text): (r: NeedleResult)
    ensures !IsPositive(r.confidence) && r.errorMessage == Some(message)
    ensures r.confidence == Zero && r.annotatedImagePath.None?
    ensures r.detectionMethod == Faulted(message)
  {
    NeedleResult(Zero, Zero, Zero, Faulted(message), None, Some(message))
  }

  /** Standard output after `Trim()` and then `TrimStart('\uFEFF')`: never
      longer than the output and never starting with a byte-order mark (the
      slice it takes is `CleanedSlice`). */
  function Cleaned(stdout: Text): (r: Text)
    ensures |r| <= |stdout|
    ensures r != [] ==> r[0] != Bom
  {
    TrimStartChar(Trim(stdout), Bom)
  }

  /** Only white space and byte-order marks. */
  predicate IsPadding(s: Text) {
    forall i :: 0 <= i < |s| ==> IsWhiteSpace(s[i]) || s[i] == Bom
  }

  /** `r` is `stdout[k..k + |r|]`, with only white space and byte-order marks
      before it and only white space after it. */
  ghost predicate CleanSlice(stdout: Text, r: Text, k: int) {
    0 <= k <= |stdout| - |r| && r == stdout[k..k + |r|]
    && IsPadding(stdout[..k]) && AllWhiteSpace(stdout[k + |r|..])
  }

  /** The cleaned output is a slice of the output with only white space and
      byte-order marks cut before it and only white space cut after it. */
  lemma CleanedSlice(stdout: Text)
    ensures exists k :: CleanSlice(stdout, Cleaned(stdout), k)
  {
    var t := Trim(stdout);
    var r := TrimStartChar(t, Bom);
    var k := |stdout| - |TrimStart(stdout)|;
    assert 0 <= k <= |stdout| - |t| && t == stdout[k..k + |t|];
    assert AllWhiteSpace(stdout[..k]) && AllWhiteSpace(stdout[k + |t|..]);
    assert |r| <= |t| && r == t[|t| - |r|..] && forall i :: 0 <= i < |t| - |r| ==> t[i] == Bom;
    CleanSliceStep(stdout, t, r, k);
    assert r == Cleaned(stdout);
  }

  /** Output that starts with neither white space nor a byte-order mark and
      does not end with white space is already clean. */
  lemma CleanedUnchanged(stdout: Text)
    requires stdout != [] ==> !IsWhiteSpace(stdout[0]) && stdout[0] != Bom && !IsWhiteSpace(stdout[|stdout| - 1])
    ensures Cleaned(stdout) == stdout
  {
    TrimUnchanged(stdout);
    TrimStartCharUnchanged(stdout, Bom);
  }

  /** The cleaned output neither starts with a byte-order mark nor ends with
      white space. */
  lemma CleanedEnds(stdout: Text)
    ensures var r := Cleaned(stdout); r != [] ==> r[0] != Bom && !IsWhiteSpace(r[|r| - 1])
  {
    var t := Trim(stdout);
    var r := TrimStartChar(t, Bom);
    if r != [] {
      assert r[|r| - 1] == t[|t| - 1];
    }
  }

  /** Cutting leading byte-order marks off a trimmed slice keeps it a clean slice. */
  lemma CleanSliceStep(stdout: Text, t: Text, r: Text, k: int)
    requires 0 <= k <= |stdout| - |t| && t == stdout[k..k + |t|]
    requires AllWhiteSpace(stdout[..k]) && AllWhiteSpace(stdout[k + |t|..])
    requires |r| <= |t| && r == t[|t| - |r|..] && forall i :: 0 <= i < |t| - |r| ==> t[i] == Bom
    ensures CleanSlice(stdout, r, k + |t| - |r|)
  {
    var k' := k + |t| - |r|;
    assert r == stdout[k'..k' + |r|];
    assert stdout[k' + |r|..] == stdout[k + |t|..];
    assert IsPadding(stdout[..k']) by {
      forall i | 0 <= i < k' ensures IsWhiteSpace(stdout[..k'][i]) || stdout[..k'][i] == Bom {
        if i < k { assert stdout[..k'][i] == stdout[..k][i]; } else { assert stdout[..k'][i] == t[i - k]; }
      }
    }
  }

  /** `text[i..j]` is the outermost brace span: `i` holds the first `{` and `j`
      the last `}`. */
  ghost predicate OutermostSpan(text: Text, i: int, j: int) {
    0 <= i <= j < |text| && text[i] == '{' && text[j] == '}'
    && '{' !in text[..i] && '}' !in text[j + 1..]
  }

  /** Some `{` comes at or before some `}`. */
  ghost predicate HasBracePair(text: Text) {
    exists i, j :: 0 <= i <= j < |text| && text[i] == '{' && text[j] == '}'
  }

  /** The test `braceStart >= 0 && braceEnd >= braceStart` holds exactly when
      some `{` comes at or before some `}`. */
  lemma BraceTestIff(text: Text)
    ensures (IndexOf(text, '{') >= 0 && LastIndexOf(text, '}') >= IndexOf(text, '{'))
            <==> HasBracePair(text)
  {
    var braceStart, braceEnd := IndexOf(text, '{'), LastIndexOf(text, '}');
    if HasBracePair(text) {
      var i, j :| 0 <= i <= j < |text| && text[i] == '{' && text[j] == '}';
      assert text[i] in text;
    }
  }

  /** The substring taken at lines 667-673: from the first `{` to the last `}`,
      inclusive. There is one exactly when some `{` comes at or before some
      `}`; it then starts with `{`, ends with `}` and is the outermost span. */
  function BraceSpan(text: Text): (r: Option<Text>)
    ensures r.Some? <==> HasBracePair(text)
    ensures r.Some? ==> exists i, j :: OutermostSpan(text, i, j) && r.value == text[i..j + 1]
    ensures r.Some? ==> |r.value| >= 2 && r.value[0] == '{' && r.value[|r.value| - 1] == '}'
  {
    var braceStart := IndexOf(text, '{');
    var braceEnd := LastIndexOf(text, '}');
    BraceTestIff(text);
    if braceStart >= 0 && braceEnd >= braceStart then
      assert OutermostSpan(text, braceStart, braceEnd);
      Some(text[braceStart..braceEnd + 1])
    else
      None
  }

  /** Whenever `text[i..j]` is the outermost brace span, it is what `BraceSpan` takes. */
  lemma OutermostSpanIsBraceSpan(text: Text, i: int, j: int)
    requires OutermostSpan(text, i, j)
    ensures BraceSpan(text) == Some(text[i..j + 1])
  {
    IndexOfAt(text, '{', i);
    LastIndexOfAt(text, '}', j);
  }

  /** The JSON candidate of the script's standard output: there is one
      exactly when the cleaned output has a `{` at or before a `}` (its span
      is the one `BraceSpan` states). */
  function ExtractJson(stdout: Text): (r: Option<Text>)
    ensures r.Some? <==> HasBracePair(Cleaned(stdout))
  {
    BraceSpan(Cleaned(stdout))
  }

  /** The record the client works with: the decoded candidate, if any. */
  function Decoded(stdout: Text, decode: Text -> Option<PyRecord>): (py: Option<PyRecord>)
    ensures py.Some? ==> ExtractJson(stdout).Some? && py == decode(ExtractJson(stdout).value)
    ensures ExtractJson(stdout).Some? ==> py == decode(ExtractJson(stdout).value)
    ensures ExtractJson(stdout).None? ==> py.None?
  {
    match ExtractJson(stdout)
    case None => None
    case Some(json) => decode(json)
  }

  /** The local function `Fix`: a null or blank path comes back as itself (null
      as the empty string), a rooted path unchanged, anything else resolved
      against `baseDir`; only that resolution can throw. */
  function Fix(p: Option<Text>, baseDir: Text, env: PathEnv): (r: Result<Text>)
    ensures IsNullOrWhiteSpace(p) ==> r == Ok(p.GetOr(""))
    ensures !IsNullOrWhiteSpace(p) && env.isRooted(p.value) ==> r == Ok(p.value)
    ensures r.Thrown? ==> !IsNullOrWhiteSpace(p) && !env.isRooted(p.value)
    ensures !IsNullOrWhiteSpace(p) && !env.isRooted(p.value) ==> r == env.fullPath(env.combine(baseDir, p.value))
  {
    if IsNullOrWhiteSpace(p) then Ok(p.GetOr(""))
    else if env.isRooted(p.value) then Ok(p.value)
    else env.fullPath(env.combine(baseDir, p.value))
  }

  /** The message of a result whose record carries `error`: it starts with
      `error`, and is `error` alone exactly when the standard error is blank;
      otherwise it ends with the trimmed standard error. */
  function ErrorWithStderr(error: Text, stderr: Text): (r: Text)
    ensures |r| >= |error| && r[..|error|] == error
    ensures r == error <==> AllWhiteSpace(stderr)
    ensures !AllWhiteSpace(stderr) ==> |r| > |Trim(stderr)| && r[|r| - |Trim(stderr)|..] == Trim(stderr)
  {
    if AllWhiteSpace(stderr) then error else error + " | " + Trim(stderr)
  }

  /** The decision order once the script has exited: an `error` field wins,
      then any decoded record is a measurement, then a non-zero exit code,
      then "no JSON". Confidence is positive exactly when a record without an
      error decoded with a positive confidence and its path fix-up did not throw. */
  function Classify(stdout: Text, stderr: Text, exitCode: int,
                    decode: Text -> Option<PyRecord>, scriptDir: Text, env: PathEnv): (r: NeedleResult)
    ensures var py := Decoded(stdout, decode);
      IsPositive(r.confidence) <==>
        py.Some? && IsNullOrEmpty(py.value.error) && IsPositive(py.value.confidence)
        && Fix(py.value.annotatedPath, scriptDir, env).Ok?
    ensures r.errorMessage.None? <==> r.detectionMethod == PythonProcessed
  {
    var py := Decoded(stdout, decode);
    if py.Some? && !IsNullOrEmpty(py.value.error) then
      match Fix(py.value.annotatedPath, scriptDir, env)
      case Thrown(m) => FaultResult(m)
      case Ok(annotated) =>
        NeedleResult(Zero, Zero, Zero, PythonError, Some(annotated),
                     Some(ErrorWithStderr(py.value.error.value, stderr)))
    else if py.Some? then
      match Fix(py.value.annotatedPath, scriptDir, env)
      case Thrown(m) => FaultResult(m)
      case Ok(annotated) =>
        NeedleResult(py.value.angleDeg, py.value.value, py.value.confidence, PythonProcessed,
                     Some(annotated), None)
    else if exitCode != 0 then
      NeedleResult(Zero, Zero, Zero, ProcessFailed(exitCode), None,
                   Some(if AllWhiteSpace(stderr) then NoStderrMessage else Trim(stderr)))
    else
      NeedleResult(Zero, Zero, Zero, NoJsonFound, None, Some(NoJsonMessage))
  }

  /** `DetectNeedleWithPython`: a missing script or image, or a failure to run
      the script, gives a confidence-0 result carrying the exception's message;
      otherwise the output is classified. It never fails. */
  function DetectNeedleWithPython(imagePath: Text, imageExists: bool, a: Analyzer): (r: NeedleResult)
    ensures !a.scriptExists ==> r == FaultResult(MissingScriptMessage(a.scriptPath))
    ensures a.scriptExists && !imageExists ==> r == FaultResult(MissingImageMessage(imagePath))
    ensures IsPositive(r.confidence) ==> a.scriptExists && imageExists && a.run.Exited?
  {
    if !a.scriptExists then FaultResult(MissingScriptMessage(a.scriptPath))
    else if !imageExists then FaultResult(MissingImageMessage(imagePath))
    else
      match a.run
      case StartFailed(m) => FaultResult(m)
      case Exited(stdout, stderr, exitCode) =>
        Classify(stdout, stderr, exitCode, a.decode, a.scriptDir, a.paths)
  }

  // ---------------------------------------------------------------------
  // Properties of the decision order

  /** An `error` field wins whatever the exit code: confidence 0, and unless the
      path fix-up throws, the `error` text (joined with the trimmed standard
      error when that is not blank) and the fixed annotated path. */
  lemma ErrorFieldWins(stdout: Text, stderr: Text, exitCode: int, decode: Text -> Option<PyRecord>,
                       scriptDir: Text, env: PathEnv, py: PyRecord)
    requires Decoded(stdout, decode) == Some(py) && !IsNullOrEmpty(py.error)
    ensures var r := Classify(stdout, stderr, exitCode, decode, scriptDir, env);
      && r.confidence == Zero
      && (Fix(py.annotatedPath, scriptDir, env).Ok? ==>
            && r.detectionMethod == PythonError
            && r.annotatedImagePath == Some(Fix(py.annotatedPath, scriptDir, env).value)
            && r.errorMessage == Some(if AllWhiteSpace(stderr) then py.error.value
                                      else py.error.value + " | " + Trim(stderr)))
  {
  }

  /** A record without an error is copied verbatim, without clamping. */
  lemma RecordCopied(stdout: Text, stderr: Text, exitCode: int, decode: Text -> Option<PyRecord>,
                     scriptDir: Text, env: PathEnv, py: PyRecord)
    requires Decoded(stdout, decode) == Some(py) && IsNullOrEmpty(py.error)
    requires Fix(py.annotatedPath, scriptDir, env).Ok?
    ensures var r := Classify(stdout, stderr, exitCode, decode, scriptDir, env);
      && r.angleDegrees == py.angleDeg && r.meterValue == py.value && r.confidence == py.confidence
      && r.detectionMethod == PythonProcessed && r.errorMessage.None?
      && r.annotatedImagePath == Some(Fix(py.annotatedPath, scriptDir, env).value)
  {
  }

  /** Without a record the exit code decides: non-zero gives the trimmed
      standard error (or the fixed fallback when it is blank), zero gives the
      fixed "no JSON" message; both have confidence 0 and no annotated path. */
  lemma NoRecordByExitCode(stdout: Text, stderr: Text, exitCode: int, decode: Text -> Option<PyRecord>,
                           scriptDir: Text, env: PathEnv)
    requires Decoded(stdout, decode).None?
    ensures var r := Classify(stdout, stderr, exitCode, decode, scriptDir, env);
      && r.confidence == Zero && r.annotatedImagePath.None?
      && (exitCode != 0 ==> r.detectionMethod == ProcessFailed(exitCode)
                            && r.errorMessage == Some(if AllWhiteSpace(stderr) then NoStderrMessage
                                                      else Trim(stderr)))
      && (exitCode == 0 ==> r.detectionMethod == NoJsonFound && r.errorMessage == Some(NoJsonMessage))
  {
  }

  /** Every failure other than a caught exception explains itself with a
      non-empty message. */
  lemma FailureHasMessage(stdout: Text, stderr: Text, exitCode: int, decode: Text -> Option<PyRecord>,
                          scriptDir: Text, env: PathEnv)
    ensures var r := Classify(stdout, stderr, exitCode, decode, scriptDir, env);
      r.detectionMethod != PythonProcessed && !r.detectionMethod.Faulted? ==>
        r.errorMessage.Some? && r.errorMessage.value != []
  {
    TrimEmptyIff(stderr);
  }

  /** The caller's success test `Confidence > 0` holds exactly when the script
      and the image exist, the script ran, its output held a record without an
      error whose confidence is positive, and the path fix-up did not throw. */
  lemma SuccessIff(imagePath: Text, imageExists: bool, a: Analyzer)
    ensures IsPositive(DetectNeedleWithPython(imagePath, imageExists, a).confidence) <==>
      && a.scriptExists && imageExists && a.run.Exited?
      && var py := Decoded(a.run.stdout, a.decode);
      && py.Some? && IsNullOrEmpty(py.value.error) && IsPositive(py.value.confidence)
      && Fix(py.value.annotatedPath, a.scriptDir, a.paths).Ok?
  {
  }

  /** Failing to start or talk to the script is caught: confidence 0 and the
      exception's message. */
  lemma StartFailureCaught(imagePath: Text, a: Analyzer)
    requires a.scriptExists && a.run.StartFailed?
    ensures var r := DetectNeedleWithPython(imagePath, true, a);
      r.confidence == Zero && r.errorMessage == Some(a.run.message) && r.annotatedImagePath.None?
  {
  }

  // ---------------------------------------------------------------------
  // Properties of the path fix-up

  /** `GetFullPath` returns rooted paths. */
  ghost predicate ResolvesToRooted(env: PathEnv) {
    forall q :: env.fullPath(q).Ok? ==> env.isRooted(env.fullPath(q).value)
  }

  /** When resolution returns rooted paths, `Fix` returns a blank or rooted path,
      and fixing a fixed path changes nothing. */
  lemma FixIdempotent(p: Option<Text>, baseDir: Text, env: PathEnv)
    requires ResolvesToRooted(env)
    requires Fix(p, baseDir, env).Ok?
    ensures var q := Fix(p, baseDir, env).value;
      (AllWhiteSpace(q) || env.isRooted(q)) && Fix(Some(q), baseDir, env) == Ok(q)
  {
  }

  // ---------------------------------------------------------------------
  // Worked examples

  /** Log lines around the JSON object are dropped. */
  lemma NoisyOutputExample(out: Text)
    requires out == "log {\"v\":1} end\n"
    ensures ExtractJson(out) == Some("{\"v\":1}")
  {
    var text := out[..|out| - 1];
    assert text == "log {\"v\":1} end";
    assert Cleaned(out) == text by {
      assert !IsWhiteSpace(out[0]) && IsWhiteSpace(out[|out| - 1]) && !IsWhiteSpace(text[|text| - 1]);
      assert TrimStart(out) == out;
      assert TrimEnd(out) == TrimEnd(text);
      TrimUnchanged(text);
      assert TrimStart(text) == text;
    }
    BraceSpanExample(text);
  }

  lemma BraceSpanExample(text: Text)
    requires text == "log {\"v\":1} end"
    ensures BraceSpan(text) == Some("{\"v\":1}")
  {
    assert text[..4] == "log " && text[4..11] == "{\"v\":1}" && text[11..] == " end";
    OutermostSpanIsBraceSpan(text, 4, 10);
  }

  /** Empty output with exit code 1 and standard error "boom" fails with "boom". */
  lemma ProcessErrorExample(decode: Text -> Option<PyRecord>, scriptDir: Text, env: PathEnv,
                            stdout: Text, stderr: Text)
    requires stdout == [] && stderr == "boom"
    ensures var r := Classify(stdout, stderr, 1, decode, scriptDir, env);
      r.detectionMethod == ProcessFailed(1) && r.errorMessage == Some("boom") && r.confidence == Zero
  {
    BlankOutputNoRecord(stdout, decode);
    WordTrimmed(stderr);
    NoRecordByExitCode(stdout, stderr, 1, decode, scriptDir, env);
  }

  /** A word is not blank and is its own trim. */
  lemma WordTrimmed(word: Text)
    requires word == "boom"
    ensures Trim(word) == word && !AllWhiteSpace(word)
  {
    assert !IsWhiteSpace(word[0]) && !IsWhiteSpace(word[3]);
    TrimUnchanged(word);
  }

  /** Blank output with exit code 0 is "no JSON found", whatever the standard error. */
  lemma BlankOutputNoJson(stdout: Text, stderr: Text, decode: Text -> Option<PyRecord>,
                          scriptDir: Text, env: PathEnv)
    requires AllWhiteSpace(stdout)
    ensures var r := Classify(stdout, stderr, 0, decode, scriptDir, env);
      r.detectionMethod == NoJsonFound && r.errorMessage == Some(NoJsonMessage) && r.confidence == Zero
  {
    BlankOutputNoRecord(stdout, decode);
    NoRecordByExitCode(stdout, stderr, 0, decode, scriptDir, env);
  }

  /** Output that is one JSON object whose `error` is `message`, with exit code
      0 and empty standard error, is a script-reported failure carrying exactly
      that message and an empty annotated path. */
  lemma DomainErrorExample(decode: Text -> Option<PyRecord>, scriptDir: Text, env: PathEnv, message: Text)
    requires message != []
    requires decode("{\"error\":\"no needle found\",\"confidence\":0}")
             == Some(PyRecord(Zero, Zero, Zero, None, Some(message)))
    ensures var r := Classify("{\"error\":\"no needle found\",\"confidence\":0}", "", 0,
                              decode, scriptDir, env);
      r.detectionMethod == PythonError && r.errorMessage == Some(message)
      && r.annotatedImagePath == Some("") && r.confidence == Zero
  {
    var out := "{\"error\":\"no needle found\",\"confidence\":0}";
    var py := PyRecord(Zero, Zero, Zero, None, Some(message));
    BareObjectExample(out);
    ClassifyRecordExample(out, decode, scriptDir, env, py);
  }

  lemma ClassifyRecordExample(out: Text, decode: Text -> Option<PyRecord>, scriptDir: Text, env: PathEnv,
                              py: PyRecord)
    requires ExtractJson(out) == Some(out) && decode(out) == Some(py)
    requires py.error.Some? && py.error.value != [] && py.annotatedPath.None?
    ensures var r := Classify(out, "", 0, decode, scriptDir, env);
      r.detectionMethod == PythonError && r.errorMessage == py.error
      && r.annotatedImagePath == Some("") && r.confidence == Zero
  {
    assert AllWhiteSpace("");
    ErrorFieldWins(out, "", 0, decode, scriptDir, env, py);
  }

  /** Output that is exactly one JSON object is its own candidate. */
  lemma BareObjectExample(out: Text)
    requires out == "{\"error\":\"no needle found\",\"confidence\":0}"
    ensures ExtractJson(out) == Some(out)
  {
    assert out[0] == '{' && out[|out| - 1] == '}' && out[0..|out|] == out;
    assert out[..0] == [] && out[|out|..] == [];
    CleanedUnchanged(out);
    OutermostSpanIsBraceSpan(out, 0, |out| - 1);
  }

  /** Blank output holds no JSON candidate, so nothing is decoded. */
  lemma BlankOutputNoRecord(stdout: Text, decode: Text -> Option<PyRecord>)
    requires AllWhiteSpace(stdout)
    ensures Decoded(stdout, decode).None?
  {
    TrimEmptyIff(stdout);
    assert Cleaned(stdout) == [];
  }
}
