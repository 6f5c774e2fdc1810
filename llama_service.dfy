/**
 * Title generation with a local Qwen2.5 model (`LlamaService`). The native
 * library (`initModel`, `generateTitle`, `cleanup`) and the model-file copy are
 * outside the model: their outcomes are parameters, and the calls made to the
 * native library are recorded in `calls`.
 */
module LlamaService {
  import opened Wrappers
  import opened Text

  /** Characters of the transcription that reach the prompt. */
  const MAX_INPUT_CHARS: nat := 500
  /** Safety bound on the length of a cleaned title. */
  const MAX_TITLE_CHARS: nat := 20
  /** Threads passed to `initModel`. */
  const INIT_THREADS: nat := 4

  const SYSTEM_BLOCK: string :=
    "<|im_start|>system\n你是一个录音标题生成助手。请根据录音转写文本，生成一个5-10个中文字符的简短标题，概括主旨。只输出标题，不要加引号或其他符号。\n<|im_end|>\n"
  const USER_OPEN: string := "<|im_start|>user\n"
  const USER_CLOSE: string := "\n<|im_end|>\n<|im_start|>assistant\n"
  const ASSISTANT_MARKER: string := "<|im_start|>assistant\n"
  const END_MARKER: string := "<|im_end|>"

  const BLANK_INPUT_MESSAGE: string := "转写文本为空"
  const LOAD_FAILED_MESSAGE: string := "LLM模型加载失败"
  const BLANK_TITLE_MESSAGE: string := "生成的标题为空"

  /** The chat-template prompt: system block, then the user turn holding `transcription`, then an open assistant turn. */
  function BuildPrompt(transcription: string): (p: string)
    ensures |p| == |SYSTEM_BLOCK| + |USER_OPEN| + |transcription| + |USER_CLOSE|
    ensures p[..|SYSTEM_BLOCK| + |USER_OPEN|] == SYSTEM_BLOCK + USER_OPEN
    ensures p[|p| - |USER_CLOSE|..] == USER_CLOSE
    ensures UserText(p) == transcription
  {
    SYSTEM_BLOCK + USER_OPEN + transcription + USER_CLOSE
  }

  /** The user text between the fixed head and tail of a prompt. */
  function UserText(p: string): string
    requires |p| >= |SYSTEM_BLOCK| + |USER_OPEN| + |USER_CLOSE|
  {
    p[|SYSTEM_BLOCK| + |USER_OPEN|..|p| - |USER_CLOSE|]
  }

  lemma BuildPromptInjective(a: string, b: string)
    requires BuildPrompt(a) == BuildPrompt(b)
    ensures a == b
  {
    assert UserText(BuildPrompt(a)) == a;
  }

  /**
   * `cleanOutput`: delete the assistant marker, then the end marker, then every
   * double quote; trim; keep at most 20 characters.
   */
  function CleanOutput(output: string): (r: string)
    ensures |r| <= MAX_TITLE_CHARS
    ensures '"' !in r
    ensures forall c :: c in r ==> c in output
    ensures r != [] ==> !IsWhitespace(r[0])
  {
    var noQuotes := ReplaceAll(ReplaceAll(ReplaceAll(output, ASSISTANT_MARKER, ""), END_MARKER, ""), "\"", "");
    ReplaceCharRemovesIt(ReplaceAll(ReplaceAll(output, ASSISTANT_MARKER, ""), END_MARKER, ""), '"');
    TrimProperties(noQuotes);
    Take(Trim(noQuotes), MAX_TITLE_CHARS)
  }

  /** A title wrapped in double quotes loses exactly the quotes. */
  lemma QuotedTitleUnquoted(pre: string, title: string)
    requires '"' !in pre && '"' !in title
    ensures ReplaceAll(pre + "\"" + title + "\"", "\"", "") == pre + title
  {
    var q := "\"";
    ReplaceAbsent(pre, "", q, "");
    ReplaceAbsent(title, "", q, "");
    assert pre + "" == pre && title + "" == title;
    assert ReplaceAll(q, q, "") == "";
    ReplaceCharConcat(pre, q, '"', "");
    ReplaceCharConcat(pre + q, title, '"', "");
    ReplaceCharConcat(pre + q + title, q, '"', "");
  }

  lemma CleanOutputExample()
    ensures CleanOutput("  \"Team Meeting\"<|im_end|>") == "Team Meeting"
  {
    ExampleMarkersRemoved();
    ExampleQuotesRemoved();
    ExampleTrimmed();
  }

  lemma ExampleMarkersRemoved()
    ensures ReplaceAll(ReplaceAll("  \"Team Meeting\"<|im_end|>", ASSISTANT_MARKER, ""), END_MARKER, "") == "  \"Team Meeting\""
  {
    var quoted := "  \"Team Meeting\"";
    assert "  \"Team Meeting\"<|im_end|>" == quoted + END_MARKER;
    ReplaceAbsent(quoted, END_MARKER, ASSISTANT_MARKER, "");
    ReplaceTrailing(quoted, END_MARKER, "");
  }

  lemma ExampleQuotesRemoved()
    ensures ReplaceAll("  \"Team Meeting\"", "\"", "") == "  Team Meeting"
  {
    ExampleSplit();
    QuotedTitleUnquoted("  ", "Team Meeting");
    assert "  " + "Team Meeting" == "  Team Meeting";
  }

  lemma ExampleSplit()
    ensures "  " + "\"" + "Team Meeting" + "\"" == "  \"Team Meeting\""
  {
  }

  lemma ExampleTrimmed()
    ensures Trim("  Team Meeting") == "Team Meeting"
  {
    assert "  " + "Team Meeting" == "  Team Meeting";
    assert !IsWhitespace('T') && !IsWhitespace('g');
    TrimLeadingBlank("  ", "Team Meeting");
  }

  /** Whether a lazy `loadModel` ends with a loaded model: the file is ready or copied, and `initModel` returned 0. */
  predicate LoadSucceeds(modelReady: bool, copyOk: bool, initCode: Option<int>) {
    (modelReady || copyOk) && initCode == Some(0)
  }

  /**
   * The outcome of `generateAiTitle` once the model is, or is not, available:
   * `generate` stands for the native `generateTitle` (None when it throws).
   */
  function TitleOutcome(transcription: string, modelAvailable: bool, generate: string -> Option<string>): (r: Result<string>)
    ensures IsBlank(transcription) ==> r == Failure(BLANK_INPUT_MESSAGE)
    ensures !IsBlank(transcription) && !modelAvailable ==> r == Failure(LOAD_FAILED_MESSAGE)
    ensures r.Success? <==>
              && !IsBlank(transcription) && modelAvailable
              && var answer := generate(BuildPrompt(Take(transcription, MAX_INPUT_CHARS)));
                 answer.Some? && !IsBlank(CleanOutput(answer.value))
  {
    if IsBlank(transcription) then Failure(BLANK_INPUT_MESSAGE)
    else if !modelAvailable then Failure(LOAD_FAILED_MESSAGE)
    else
      match generate(BuildPrompt(Take(transcription, MAX_INPUT_CHARS)))
      case None => Failure("generateTitle failed")
      case Some(raw) =>
        var title := CleanOutput(raw);
        if !IsBlank(title) then Success(title) else Failure(BLANK_TITLE_MESSAGE)
  }

  /** A successful title is exactly the cleaned model output for the truncated prompt, non-blank, short and quote-free. */
  lemma TitleOutcomeSuccess(transcription: string, modelAvailable: bool, generate: string -> Option<string>)
    requires TitleOutcome(transcription, modelAvailable, generate).Success?
    ensures !IsBlank(transcription) && modelAvailable
    ensures generate(BuildPrompt(Take(transcription, MAX_INPUT_CHARS))).Some?
    ensures TitleOutcome(transcription, modelAvailable, generate).value
         == CleanOutput(generate(BuildPrompt(Take(transcription, MAX_INPUT_CHARS))).value)
    ensures var t := TitleOutcome(transcription, modelAvailable, generate).value;
            !IsBlank(t) && |t| <= MAX_TITLE_CHARS && '"' !in t
  {
  }

  /** Only the first 500 characters matter: two transcriptions that agree on them get the same outcome. */
  lemma TruncationOnlyPrefixMatters(a: string, b: string, modelAvailable: bool, generate: string -> Option<string>)
    requires |a| >= MAX_INPUT_CHARS && |b| >= MAX_INPUT_CHARS
    requires a[..MAX_INPUT_CHARS] == b[..MAX_INPUT_CHARS]
    requires IsBlank(a) == IsBlank(b)
    ensures TitleOutcome(a, modelAvailable, generate) == TitleOutcome(b, modelAvailable, generate)
  {
    assert Take(a, MAX_INPUT_CHARS) == Take(b, MAX_INPUT_CHARS);
  }

  datatype NativeCall = InitModel(threads: nat) | GenerateTitle(prompt: string) | Cleanup

  class LlamaService {
    var isModelLoaded: bool
    /** Calls made into the native library, oldest first. */
    var calls: seq<NativeCall>

    constructor ()
      ensures !isModelLoaded && calls == []
    {
      isModelLoaded := false;
      calls := [];
    }

    /**
     * `loadModel`: copy the model file when it is not ready (a failed copy
     * returns false), then `initModel`; the flag becomes `initCode == 0`.
     * `initCode` is None when loading throws, which leaves the flag alone.
     */
    method LoadModel(modelReady: bool, copyOk: bool, initCode: Option<int>) returns (loaded: bool)
      modifies this
      ensures loaded == LoadSucceeds(modelReady, copyOk, initCode)
      ensures isModelLoaded == (if (modelReady || copyOk) && initCode.Some? then initCode.value == 0 else old(isModelLoaded))
      ensures calls == old(calls) + (if modelReady || copyOk then [InitModel(INIT_THREADS)] else [])
    {
      if !modelReady && !copyOk {
        return false;
      }
      calls := calls + [InitModel(INIT_THREADS)];
      match initCode {
        case None =>
          loaded := false;
        case Some(code) =>
          isModelLoaded := code == 0;
          loaded := isModelLoaded;
      }
    }

    /**
     * `generateAiTitle`: a blank transcription fails before anything else;
     * otherwise the model is loaded lazily, the first 500 characters are put
     * into the prompt and the native output is cleaned.
     */
    method GenerateAiTitle(transcription: string, modelReady: bool, copyOk: bool, initCode: Option<int>,
                           generate: string -> Option<string>) returns (r: Result<string>)
      modifies this
      ensures r == TitleOutcome(transcription, old(isModelLoaded) || LoadSucceeds(modelReady, copyOk, initCode), generate)
      ensures IsBlank(transcription) ==> calls == old(calls) && isModelLoaded == old(isModelLoaded)
      ensures !IsBlank(transcription) && old(isModelLoaded) ==>
                isModelLoaded && calls == old(calls) + [GenerateTitle(BuildPrompt(Take(transcription, MAX_INPUT_CHARS)))]
      ensures !IsBlank(transcription) && !old(isModelLoaded) ==>
                isModelLoaded == LoadSucceeds(modelReady, copyOk, initCode)
    {
      if IsBlank(transcription) {
        return Failure(BLANK_INPUT_MESSAGE);
      }
      var truncated := Take(transcription, MAX_INPUT_CHARS);
      if !isModelLoaded {
        var loaded := LoadModel(modelReady, copyOk, initCode);
        if !loaded {
          return Failure(LOAD_FAILED_MESSAGE);
        }
      }
      var prompt := BuildPrompt(truncated);
      calls := calls + [GenerateTitle(prompt)];
      var raw := generate(prompt);
      if raw.None? {
        return Failure("generateTitle failed");
      }
      var cleaned := CleanOutput(raw.value);
      if !IsBlank(cleaned) {
        r := Success(cleaned);
      } else {
        r := Failure(BLANK_TITLE_MESSAGE);
      }
    }

    /** `release`: `cleanup` only while loaded, then the flag is cleared (a throwing cleanup leaves it set). */
    method Release(cleanupOk: bool)
      modifies this
      ensures calls == old(calls) + (if old(isModelLoaded) then [Cleanup] else [])
      ensures isModelLoaded == (old(isModelLoaded) && !cleanupOk)
    {
      if isModelLoaded {
        calls := calls + [Cleanup];
        if cleanupOk {
          isModelLoaded := false;
        }
      }
    }
  }

  /** A second `release` after a successful one calls nothing. */
  method ReleaseTwice(service: LlamaService)
    modifies service
    ensures !service.isModelLoaded
    ensures service.calls == old(service.calls) + (if old(service.isModelLoaded) then [Cleanup] else [])
  {
    service.Release(true);
    service.Release(true);
  }
}
