/** `back-end/ImageGenration.py`: four image variants per prompt, the file
    names they are saved under, and the control file through which the
    front end asks for a generation. */
module ImageGeneration {
  import opened Base
  import opened PyText

  newtype byte = x: int | 0 <= x < 256

  /** How many variants one generation requests. */
  const Variants: nat := 4

  /** `prompt.replace(" ", "_")`. */
  function PromptClean(prompt: string): (r: string)
    ensures |r| == |prompt|
    ensures forall i :: 0 <= i < |prompt| ==> r[i] == (if prompt[i] == ' ' then '_' else prompt[i])
    ensures ' ' !in r
    decreases |prompt|
  {
    if prompt == [] then []
    else [if prompt[0] == ' ' then '_' else prompt[0]] + PromptClean(prompt[1..])
  }

  /** The file of variant `i` (counted from 1): `{prompt_clean}_{i}.jpg`. */
  function ImageFileName(prompt: string, i: nat): string {
    PromptClean(prompt) + "_" + NatToString(i) + ".jpg"
  }

  /** The four variants of one prompt are saved under four different names. */
  lemma ImageFileNamesDistinct(prompt: string, i: nat, j: nat)
    requires 1 <= i <= Variants && 1 <= j <= Variants && i != j
    ensures ImageFileName(prompt, i) != ImageFileName(prompt, j)
  {
    var n := |PromptClean(prompt)| + 1;
    assert ImageFileName(prompt, i)[n] == Digit(i);
    assert ImageFileName(prompt, j)[n] == Digit(j);
  }

  /** `open_images(prompt)`: the paths it tries to open, in order. */
  method OpenImages(prompt: string) returns (tried: seq<string>)
    ensures |tried| == Variants
    ensures forall k :: 0 <= k < Variants ==> tried[k] == ImageFileName(prompt, k + 1)
  {
    var promptClean := PromptClean(prompt);
    tried := [];
    for i := 1 to Variants + 1
      invariant |tried| == i - 1
      invariant forall k :: 0 <= k < i - 1 ==> tried[k] == ImageFileName(prompt, k + 1)
    {
      tried := tried + [promptClean + "_" + NatToString(i) + ".jpg"];
    }
  }

  /** The fixed text that follows the prompt in every request. */
  const QualitySuffix := ", quality=4K, sharpness=maximum, Ultra High details, high resolution, seed="

  /** The `inputs` of one request, with the random seed it drew. */
  function Payload(prompt: string, seed: nat): string {
    prompt + QualitySuffix + NatToString(seed)
  }

  datatype HttpResponse = HttpResponse(status: int, body: seq<byte>)

  /** `query`: the body when the status is 200, otherwise `None`. */
  function Query(response: HttpResponse): (b: Option<seq<byte>>)
    ensures b.Some? <==> response.status == 200
    ensures b.Some? ==> b.value == response.body
  {
    if response.status == 200 then Some(response.body) else None
  }

  /** What `gather` gives for the four requests: every request is sent, in
      order (each `query` runs to completion without yielding); when one or
      more of them raised, the first of those exceptions, else the results
      of `query` in request order. */
  function Gather(responses: seq<Raises<HttpResponse>>): Raises<seq<Option<seq<byte>>>>
    decreases |responses|
  {
    if responses == [] then Value([])
    else match responses[0]
      case Raised(e) => Raised(e)
      case Value(r) =>
        match Gather(responses[1..])
        case Raised(e) => Raised(e)
        case Value(rest) => Value([Query(r)] + rest)
  }

  /** A result is written to disk when it is a non-empty body. */
  predicate Saves(b: Option<seq<byte>>) {
    b.Some? && b.value != []
  }

  datatype SavedImage = SavedImage(name: string, bytes: seq<byte>)

  /** The files written for the results `bs`, in order: result `k` (0-based)
      under the name of variant `k + 1`, and only when it is saved. */
  function SavedFiles(prompt: string, bs: seq<Option<seq<byte>>>): seq<SavedImage>
    decreases |bs|
  {
    if bs == [] then []
    else
      var k := |bs| - 1;
      SavedFiles(prompt, bs[..k])
      + (if Saves(bs[k]) then [SavedImage(ImageFileName(prompt, k + 1), bs[k].value)] else [])
  }

  /** Every file written is the body of a saved result, named after that
      result's position; every saved result is written; so one that failed
      leaves a gap and does not shift the names of the others. */
  lemma {:induction false} SavedFilesSpec(prompt: string, bs: seq<Option<seq<byte>>>)
    ensures forall f :: f in SavedFiles(prompt, bs) ==>
      exists k :: 0 <= k < |bs| && Saves(bs[k]) && f == SavedImage(ImageFileName(prompt, k + 1), bs[k].value)
    ensures forall k :: 0 <= k < |bs| && Saves(bs[k]) ==>
      SavedImage(ImageFileName(prompt, k + 1), bs[k].value) in SavedFiles(prompt, bs)
    decreases |bs|
  {
    if bs != [] {
      var k := |bs| - 1;
      SavedFilesSpec(prompt, bs[..k]);
      forall f | f in SavedFiles(prompt, bs)
        ensures exists j :: 0 <= j < |bs| && Saves(bs[j]) && f == SavedImage(ImageFileName(prompt, j + 1), bs[j].value)
      {
        if f in SavedFiles(prompt, bs[..k]) {
          var j :| 0 <= j < k && Saves(bs[..k][j]) && f == SavedImage(ImageFileName(prompt, j + 1), bs[..k][j].value);
          assert bs[..k][j] == bs[j];
        }
      }
      forall j | 0 <= j < |bs| && Saves(bs[j])
        ensures SavedImage(ImageFileName(prompt, j + 1), bs[j].value) in SavedFiles(prompt, bs)
      {
        if j < k {
          assert bs[..k][j] == bs[j];
        }
      }
    }
  }

  /** Of the four results, one that is not saved leaves no file under its
      variant's name. */
  lemma FailedVariantLeavesNoFile(prompt: string, bs: seq<Option<seq<byte>>>, k: nat)
    requires |bs| == Variants && k < Variants && !Saves(bs[k])
    ensures forall f :: f in SavedFiles(prompt, bs) ==> f.name != ImageFileName(prompt, k + 1)
  {
    SavedFilesSpec(prompt, bs);
    forall f | f in SavedFiles(prompt, bs) ensures f.name != ImageFileName(prompt, k + 1) {
      var j :| 0 <= j < |bs| && Saves(bs[j]) && f == SavedImage(ImageFileName(prompt, j + 1), bs[j].value);
      ImageFileNamesDistinct(prompt, j + 1, k + 1);
    }
  }

  /** What `generate_images(prompt)` does, given the four responses: raise
      with the first exception, or write the saved results. */
  function GenerationResult(prompt: string, responses: seq<Raises<HttpResponse>>): Raises<seq<SavedImage>> {
    match Gather(responses)
    case Raised(e) => Raised(e)
    case Value(bs) => Value(SavedFiles(prompt, bs))
  }

  /** `GenerateImages(prompt)`: `generate_images` then `open_images`.  The
      `k`-th seed drawn is `draw(k)`, and `post` is the HTTP request.  Four
      payloads are built, each the prompt with the quality suffix; all four
      are posted; then either the first exception is raised and nothing is
      written or opened, or the saved results are written and the four
      variant paths are tried. */
  method GenerateImages(prompt: string, draw: nat -> nat, post: string -> Raises<HttpResponse>)
      returns (payloads: seq<string>, result: Raises<seq<SavedImage>>, tried: seq<string>)
    ensures |payloads| == Variants
    ensures forall k :: 0 <= k < Variants ==> payloads[k] == Payload(prompt, draw(k))
    ensures result == GenerationResult(prompt, seq(Variants, k requires 0 <= k < Variants => post(payloads[k])))
    ensures result.Raised? ==> tried == []
    ensures result.Value? ==> |tried| == Variants
    ensures result.Value? ==> forall k :: 0 <= k < Variants ==> tried[k] == ImageFileName(prompt, k + 1)
  {
    payloads := [];
    for k := 0 to Variants
      invariant |payloads| == k
      invariant forall j :: 0 <= j < k ==> payloads[j] == Payload(prompt, draw(j))
    {
      payloads := payloads + [prompt + QualitySuffix + NatToString(draw(k))];
    }
    ghost var responses := seq(Variants, k requires 0 <= k < Variants => post(payloads[k]));
    // gather: every request is sent; the first exception, if any, wins
    var bodies: seq<Option<seq<byte>>> := [];
    var failure: Option<string> := None;
    for k := 0 to Variants
      invariant failure.None? ==> Gather(responses[..k]) == Value(bodies)
      invariant failure.Some? ==> Gather(responses[..k]) == Raised(failure.value)
    {
      var response := post(payloads[k]);
      GatherSnoc(responses[..k], response);
      assert responses[..k + 1] == responses[..k] + [response];
      if failure.None? {
        match response {
          case Raised(e) => failure := Some(e);
          case Value(r) => bodies := bodies + [Query(r)];
        }
      }
    }
    assert responses[..Variants] == responses;
    if failure.Some? {
      return payloads, Raised(failure.value), [];
    }
    var promptClean := PromptClean(prompt);
    var written: seq<SavedImage> := [];
    for i := 0 to |bodies|
      invariant written == SavedFiles(prompt, bodies[..i])
    {
      var imageBytes := bodies[i];
      assert bodies[..i + 1][..i] == bodies[..i];
      if imageBytes.Some? && imageBytes.value != [] {
        written := written + [SavedImage(promptClean + "_" + NatToString(i + 1) + ".jpg", imageBytes.value)];
      }
    }
    assert bodies[..|bodies|] == bodies;
    result := Value(written);
    tried := OpenImages(prompt);
  }

  /** Gathering one more response keeps an earlier exception, or adds the
      new response's exception or result. */
  lemma {:induction false} GatherSnoc(rs: seq<Raises<HttpResponse>>, r: Raises<HttpResponse>)
    ensures Gather(rs + [r]) ==
      match Gather(rs)
      case Raised(e) => Raised(e)
      case Value(bs) =>
        match r
        case Raised(e) => Raised(e)
        case Value(x) => Value(bs + [Query(x)])
    decreases |rs|
  {
    if rs == [] {
      assert rs + [r] == [r] && [r][1..] == [];
      if r.Value? {
        assert [Query(r.value)] + [] == [] + [Query(r.value)];
      }
    } else {
      assert (rs + [r])[0] == rs[0];
      assert (rs + [r])[1..] == rs[1..] + [r];
      GatherSnoc(rs[1..], r);
      if rs[0].Value? && Gather(rs[1..]).Value? && r.Value? {
        var head, bs := Query(rs[0].value), Gather(rs[1..]).value;
        assert [head] + (bs + [Query(r.value)]) == [head] + bs + [Query(r.value)];
      }
    }
  }

  /** What the front end writes after a generation. */
  const ResetContent := "False,False"

  /** The monitor's parse of the control file: the prompt to generate, when
      the stripped content is non-empty, splits on "," into exactly two
      parts, and the second part, stripped and lower-cased, is "true". */
  function ControlPrompt(content: string): Option<string> {
    var c := Strip(content);
    if c == [] then None
    else
      var parts := Split(c, ',');
      if |parts| == 2 && Lower(Strip(parts[1])) == "true" then Some(Strip(parts[0])) else None
  }

  /** Content without exactly one comma never triggers. */
  lemma ControlPromptNeedsOneComma(content: string)
    requires Count(Strip(content), ',') != 1
    ensures ControlPrompt(content) == None
  {
    SplitCount(Strip(content), ',');
  }

  /** With its one comma at `i`, the content triggers exactly when what
      follows the comma is "true" up to case and whitespace, and the prompt
      is what precedes it, stripped. */
  lemma ControlPromptAtComma(content: string, i: nat)
    requires var c := Strip(content); i < |c| && c[i] == ',' && ',' !in c[..i] && ',' !in c[i + 1..]
    ensures var c := Strip(content);
      ControlPrompt(content) == if Lower(Strip(c[i + 1..])) == "true" then Some(Strip(c[..i])) else None
  {
    SplitAtOnlySep(Strip(content), ',', i);
  }

  /** The reset content does not trigger, so a reset is stable. */
  lemma ResetDoesNotTrigger()
    ensures ControlPrompt(ResetContent) == None
  {
    var c := ResetContent;
    StripOfStripped(c);
    assert c[..5] == "False" && c[6..] == "False" && c[5] == ',';
    assert ',' !in c[..5] && ',' !in c[6..];
    ControlPromptAtComma(c, 5);
    StripOfStripped("False");
    assert |Lower("False")| == 5;
  }

  /** `ImageGeneration.data`, as the monitor loop sees it; `None` when the
      file does not exist. */
  class ControlFile {
    var content: Option<string>

    constructor (content: Option<string>)
      ensures this.content == content
    {
      this.content := content;
    }

    /** One turn of the monitor loop.  When the file asks for a generation,
        the images are generated for the parsed prompt; the file is reset to
        "False,False" only when that generation did not raise (an exception
        is caught and the request stays pending). */
    method Poll(draw: nat -> nat, post: string -> Raises<HttpResponse>)
        returns (prompt: Option<string>, result: Option<Raises<seq<SavedImage>>>)
      modifies this
      ensures prompt == if old(content).Some? then ControlPrompt(old(content).value) else None
      ensures prompt.None? ==> result.None? && content == old(content)
      ensures prompt.Some? ==> result.Some? && content == if result.value.Value? then Some(ResetContent) else old(content)
      ensures prompt.Some? ==> result == Some(GenerationResult(prompt.value,
        seq(Variants, k requires 0 <= k < Variants => post(Payload(prompt.value, draw(k))))))
    {
      prompt, result := None, None;
      if content.Some? {
        var c := Strip(content.value);
        if c != "" {
          var parts := Split(c, ',');
          if |parts| == 2 {
            var status := parts[1];
            if Lower(Strip(status)) == "true" {
              prompt := Some(Strip(parts[0]));
              var payloads, generated, _ := GenerateImages(prompt.value, draw, post);
              assert seq(Variants, k requires 0 <= k < Variants => post(payloads[k]))
                  == seq(Variants, k requires 0 <= k < Variants => post(Payload(prompt.value, draw(k))));
              result := Some(generated);
              if generated.Value? {
                content := Some(ResetContent);
              }
            }
          }
        }
      }
    }
  }

  /** After a poll that generated and reset, the next poll does nothing. */
  method PollAfterReset(file: ControlFile, draw: nat -> nat, post: string -> Raises<HttpResponse>)
    modifies file
    ensures old(file.content) == Some(ResetContent) ==> file.content == old(file.content)
  {
    ResetDoesNotTrigger();
    var _, _ := file.Poll(draw, post);
  }
}
