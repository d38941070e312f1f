/** The image page, pages/AIImageGenerator.tsx: the result / error state after a
    generation and the file name proposed for a download. */
module AIImageGenerator {
  import opened Types
  import opened Text
  import opened Gateway

  /** The error shown when the gateway yields no image. */
  const GenerateFailureText := "Failed to generate image. Please try a different prompt."

  /** The fixed end of every download name. */
  const FileSuffix := "_oneverse.png"

  /** The longest prefix of the prompt that goes into a download name. */
  const PromptPrefixLength := 20

  /** `s.replace(/\s+/g, '_')`, reading left to right; `inRun` says whether the
      character before `s` was white space already replaced. */
  function ReplaceRunsFrom(s: string, inRun: bool): string
  {
    if s == [] then []
    else if IsSpace(s[0]) then (if inRun then "" else "_") + ReplaceRunsFrom(s[1..], true)
    else [s[0]] + ReplaceRunsFrom(s[1..], false)
  }

  /** Every maximal run of white space turned into one `_`. */
  function ReplaceSpaceRuns(s: string): string
  {
    ReplaceRunsFrom(s, false)
  }

  /** The download name: the first twenty characters of the prompt with white-space
      runs turned into `_`, then `_oneverse.png`. */
  function DownloadFileName(prompt: string): string
  {
    var n := if |prompt| < PromptPrefixLength then |prompt| else PromptPrefixLength;
    ReplaceSpaceRuns(prompt[..n]) + FileSuffix
  }

  /** The replacement leaves no white space and never lengthens the text. */
  lemma {:induction false} ReplaceRunsNoSpace(s: string, inRun: bool)
    ensures var r := ReplaceRunsFrom(s, inRun);
      |r| <= |s| && forall i :: 0 <= i < |r| ==> !IsSpace(r[i])
  {
    if s != [] {
      ReplaceRunsNoSpace(s[1..], IsSpace(s[0]));
    }
  }

  /** Text without white space is left as it is. */
  lemma {:induction false} ReplaceRunsNoSpaceUnchanged(s: string, inRun: bool)
    requires forall i :: 0 <= i < |s| ==> !IsSpace(s[i])
    ensures ReplaceRunsFrom(s, inRun) == s
  {
    if s != [] {
      ReplaceRunsNoSpaceUnchanged(s[1..], false);
    }
  }

  /** Replacing twice is replacing once. */
  lemma ReplaceSpaceRunsIdempotent(s: string)
    ensures ReplaceSpaceRuns(ReplaceSpaceRuns(s)) == ReplaceSpaceRuns(s)
  {
    ReplaceRunsNoSpace(s, false);
    ReplaceRunsNoSpaceUnchanged(ReplaceSpaceRuns(s), false);
  }

  /** A text ending in a non-white-space character is replaced independently of what follows. */
  lemma {:induction false} ReplaceRunsSplit(a: string, b: string, inRun: bool)
    requires a != [] && !IsSpace(a[|a| - 1])
    ensures ReplaceRunsFrom(a + b, inRun) == ReplaceRunsFrom(a, inRun) + ReplaceRunsFrom(b, false)
  {
    assert (a + b)[0] == a[0];
    assert (a + b)[1..] == a[1..] + b;
    if |a| > 1 {
      ReplaceRunsSplit(a[1..], b, IsSpace(a[0]));
    }
  }

  /** A whole run of white space, however long, becomes exactly one `_`. */
  lemma {:induction false} ReplaceRunsRun(w: string, b: string, inRun: bool)
    requires w != [] && AllSpace(w)
    ensures ReplaceRunsFrom(w + b, inRun) == (if inRun then "" else "_") + ReplaceRunsFrom(b, true)
  {
    assert (w + b)[0] == w[0];
    assert (w + b)[1..] == w[1..] + b;
    if |w| > 1 {
      ReplaceRunsRun(w[1..], b, true);
    } else {
      assert w[1..] + b == b;
    }
  }

  /** A word, a run of white space and a word give the two words joined by one `_`. */
  lemma WordsJoined(w1: string, spaces: string, w2: string)
    requires w1 != [] && forall i :: 0 <= i < |w1| ==> !IsSpace(w1[i])
    requires spaces != [] && AllSpace(spaces)
    requires forall i :: 0 <= i < |w2| ==> !IsSpace(w2[i])
    ensures ReplaceSpaceRuns(w1 + spaces + w2) == w1 + "_" + w2
  {
    assert w1 + spaces + w2 == w1 + (spaces + w2);
    ReplaceRunsSplit(w1, spaces + w2, false);
    ReplaceRunsNoSpaceUnchanged(w1, false);
    ReplaceRunsRun(spaces, w2, false);
    ReplaceRunsNoSpaceUnchanged(w2, true);
  }

  /** A download name holds no white space, ends with the suffix and spends at most
      twenty characters on the prompt. */
  lemma DownloadFileNameSpec(prompt: string)
    ensures var name := DownloadFileName(prompt);
      && |FileSuffix| <= |name| <= PromptPrefixLength + |FileSuffix|
      && name[|name| - |FileSuffix|..] == FileSuffix
      && forall i :: 0 <= i < |name| ==> !IsSpace(name[i])
  {
    var n := if |prompt| < PromptPrefixLength then |prompt| else PromptPrefixLength;
    ReplaceRunsNoSpace(prompt[..n], false);
    var name := DownloadFileName(prompt);
    var head := ReplaceSpaceRuns(prompt[..n]);
    forall i | 0 <= i < |name| ensures !IsSpace(name[i]) {
      if i >= |head| {
        assert name[i] == FileSuffix[i - |head|];
      }
    }
  }

  /** The state of the image page. */
  class ImageGeneratorState {
    var prompt: string
    var imageUrl: Option<string>
    var isLoading: bool
    var error: Option<string>
    var aspectRatio: AspectRatio

    /** The page mounts empty, square. */
    constructor ()
      ensures prompt == "" && imageUrl == None && !isLoading && error == None && aspectRatio == Square
    {
      prompt := "";
      imageUrl := None;
      isLoading := false;
      error := None;
      aspectRatio := Square;
    }

    /** The prompt box changes. */
    method SetPrompt(text: string)
      modifies this`prompt
      ensures prompt == text
    {
      prompt := text;
    }

    /** An aspect-ratio button is pressed. */
    method SetAspectRatio(ratio: AspectRatio)
      modifies this`aspectRatio
      ensures aspectRatio == ratio
    {
      aspectRatio := ratio;
    }

    /** `handleGenerate`, with `result` what the gateway resolves to (`null` as `None`).
        An empty prompt does nothing; otherwise exactly one of image and error is set. */
    method HandleGenerate(result: Option<string>) returns (call: Call)
      modifies this`isLoading, this`error, this`imageUrl
      ensures old(prompt) == "" ==>
        call == NoCall && imageUrl == old(imageUrl) && error == old(error) && isLoading == old(isLoading)
      ensures old(prompt) != "" ==>
        && call == GenerateImage(prompt, AspectRatioValue(aspectRatio))
        && (Truthy(result) ==> imageUrl == result && error == None)
        && (!Truthy(result) ==> imageUrl == None && error == Some(GenerateFailureText))
        && !isLoading
    {
      if prompt == "" {
        return NoCall;
      }
      isLoading := true;
      error := None;
      imageUrl := None;
      call := GenerateImage(prompt, AspectRatioValue(aspectRatio));
      if Truthy(result) {
        imageUrl := result;
      } else {
        error := Some(GenerateFailureText);
      }
      isLoading := false;
    }

    /** `handleDownload`: the file name offered, or nothing when there is no image. */
    method HandleDownload() returns (fileName: Option<string>)
      ensures !Truthy(imageUrl) <==> fileName.None?
      ensures fileName.Some? ==> fileName.value == DownloadFileName(prompt)
    {
      if !Truthy(imageUrl) {
        return None;
      }
      fileName := Some(DownloadFileName(prompt));
    }
  }
}
