/**
 * `judgeContentType` of the incremental sync: the prompt it builds from a
 * tweet's text and images, the gate of at least two described images, and the
 * content type it takes from the AI service's analysis.
 */
module Classify {
  import opened Wrappers
  import opened JsStrings
  import opened Json
  import opened AiService
  import opened Normalize

  /** The AI drawing check needs at least this many images with a URL and with alt text. */
  const MinDescribedImages := 2

  const PostType := "post"

  /** What `createAIService()` and `contentTypeAnalysis(prompt)` produce: a constructor error, or the attempt's result (null is `None`). */
  datatype AiReply = Unconfigured | Attempted(result: Option<Json>)

  /** The prompt's lead: the full text, then the images heading. */
  function PromptHead(fullText: string): string {
    "\n\n" + fullText + "\n\n图片:\n\n"
  }

  /** The prompt lines for the image at `index` (numbered from 1); a missing URL or alt is written as ''. */
  function ImageBlock(index: nat, img: Image): string {
    "图片" + NatToString(index + 1) + ":\nURL: " + OrElse(img.url, "") + "\nAlt: " + OrElse(img.alt, "") + "\n"
  }

  function ImageBlocks(images: seq<Image>): string {
    if images == [] then ""
    else ImageBlocks(images[..|images| - 1]) + ImageBlock(|images| - 1, images[|images| - 1])
  }

  /** The user prompt sent for a tweet. */
  function Prompt(fullText: string, images: seq<Image>): string {
    PromptHead(fullText) + ImageBlocks(images)
  }

  /** How many images have a truthy URL. */
  function UrlCount(images: seq<Image>): (n: nat)
    ensures n <= |images|
  {
    if images == [] then 0
    else UrlCount(images[..|images| - 1]) + (if Truthy(images[|images| - 1].url) then 1 else 0)
  }

  /** How many images have a truthy alt text. */
  function AltCount(images: seq<Image>): (n: nat)
    ensures n <= |images|
  {
    if images == [] then 0
    else AltCount(images[..|images| - 1]) + (if Truthy(images[|images| - 1].alt) then 1 else 0)
  }

  /** The service is asked only when at least two images have a URL and at least two have alt text. */
  predicate AskService(images: seq<Image>) {
    UrlCount(images) >= MinDescribedImages && AltCount(images) >= MinDescribedImages
  }

  /** `result.content_type || 'unknown'` of the analysis; 'unknown' when the service could not be created. */
  function AiContentType(reply: AiReply): (r: string)
    ensures r != ""
    ensures reply.Unconfigured? || reply == Attempted(None) ==> r == DefaultContentType
    ensures reply.Attempted? && TruthyJson(reply.result) && Get(reply.result, "content_type").Some?
            && Get(reply.result, "content_type").value.JStr? && Get(reply.result, "content_type").value.s != ""
            ==> Some(JStr(r)) == Get(reply.result, "content_type")
    ensures reply.Attempted? && !TruthyJson(Get(reply.result, "content_type")) ==> r == DefaultContentType
    ensures reply.Attempted? && Get(reply.result, "content_type").Some? && !Get(reply.result, "content_type").value.JStr?
            ==> r == DefaultContentType
  {
    match reply
    case Unconfigured => DefaultContentType
    case Attempted(result) =>
      var field := GetOr(Some(ContentTypeAnalysis(result)), "content_type", JStr(DefaultContentType));
      if field.JStr? then field.s else DefaultContentType
  }

  /** The content type `judgeContentType` settles on; `ai` answers a prompt. */
  function ContentTypeOf(data: TweetData, ai: string -> AiReply): (r: string)
    ensures r != ""
    ensures !AskService(data.images) ==> r == PostType
  {
    if !AskService(data.images) then PostType else AiContentType(ai(Prompt(data.fullText, data.images)))
  }

  /** One turn of the image loop: one more block in the prompt, one more image in each count. */
  lemma ImageStep(fullText: string, images: seq<Image>, i: nat)
    requires i < |images|
    ensures PromptHead(fullText) + ImageBlocks(images[..i + 1])
            == (PromptHead(fullText) + ImageBlocks(images[..i])) + ImageBlock(i, images[i])
    ensures UrlCount(images[..i + 1]) == UrlCount(images[..i]) + (if Truthy(images[i].url) then 1 else 0)
    ensures AltCount(images[..i + 1]) == AltCount(images[..i]) + (if Truthy(images[i].alt) then 1 else 0)
  {
    assert images[..i + 1][..i] == images[..i];
    var head, blocks, block := PromptHead(fullText), ImageBlocks(images[..i]), ImageBlock(i, images[i]);
    assert head + (blocks + block) == (head + blocks) + block;
  }

  /**
   * The loop of `judgeContentType`: builds the prompt and both counts image by
   * image, then answers 'post' or asks the service.
   */
  method JudgeContentType(data: TweetData, ai: string -> AiReply) returns (contentType: string, asked: bool)
    ensures contentType == ContentTypeOf(data, ai)
    ensures asked <==> AskService(data.images)
  {
    var images := data.images;
    var prompt := PromptHead(data.fullText);
    var urlCount, altCount := 0, 0;
    var i := 0;
    while i < |images|
      invariant 0 <= i <= |images|
      invariant prompt == PromptHead(data.fullText) + ImageBlocks(images[..i])
      invariant urlCount == UrlCount(images[..i]) && altCount == AltCount(images[..i])
    {
      ImageStep(data.fullText, images, i);
      prompt := prompt + ImageBlock(i, images[i]);
      if Truthy(images[i].url) {
        urlCount := urlCount + 1;
      }
      if Truthy(images[i].alt) {
        altCount := altCount + 1;
      }
      i := i + 1;
    }
    assert images[..|images|] == images;
    if urlCount < MinDescribedImages || altCount < MinDescribedImages {
      return PostType, false;
    }
    contentType := AiContentType(ai(prompt));
    asked := true;
  }

  /** With fewer than two images the tweet is a 'post', whatever the service would say. */
  lemma FewImagesArePosts(data: TweetData, ai: string -> AiReply)
    requires |data.images| < MinDescribedImages
    ensures ContentTypeOf(data, ai) == PostType
  {
  }

  /** Every image with a URL counts, every image with alt text counts. */
  lemma {:induction false} DescribedImagesCount(images: seq<Image>)
    requires forall k :: 0 <= k < |images| ==> Truthy(images[k].url) && Truthy(images[k].alt)
    ensures UrlCount(images) == |images| && AltCount(images) == |images|
  {
    if images != [] {
      DescribedImagesCount(images[..|images| - 1]);
    }
  }

  /** Two or more images, each with a URL and alt text, are sent to the service with the full prompt. */
  lemma DescribedImagesAskService(data: TweetData, ai: string -> AiReply)
    requires |data.images| >= MinDescribedImages
    requires forall k :: 0 <= k < |data.images| ==> Truthy(data.images[k].url) && Truthy(data.images[k].alt)
    ensures ContentTypeOf(data, ai) == AiContentType(ai(Prompt(data.fullText, data.images)))
  {
    DescribedImagesCount(data.images);
  }

  /** Two images that both have a URL but only one alt text keep the tweet a 'post'. */
  lemma MissingAltIsPost(data: TweetData, ai: string -> AiReply, url: string, alt: string)
    requires url != "" && alt != ""
    requires data.images == [Image(Some(url), Some(alt)), Image(Some(url), None)]
    ensures ContentTypeOf(data, ai) == PostType
  {
    assert data.images[..1] == [Image(Some(url), Some(alt))];
    assert data.images[..1][..0] == [];
  }
}
