/** The visual studio screen: it turns a text prompt into a generated image,
    and turns a failed generation into one of five messages by looking for
    key words in the lowercased error message. */
module VisualStudio {
  import opened Wrappers
  import opened Errors
  import opened Strings
  import opened GeminiService

  // ---------------------------------------------------------------------------
  // Error classification
  // ---------------------------------------------------------------------------

  const DefaultImageError := "Unable to generate image. " + "Please try again later."
  const SafetyMessage := "This prompt was flagged by safety filters. " + "Please try a different, " + "less explicit description."
  const UsageLimitMessage := "You have reached the usage limit. " + "Please wait a minute " + "before trying again."
  const NetworkMessage := "Network connection issue. " + "Please check your " + "internet connection."
  const FailedPrefix := "Generation failed: "

  /** The words of each class, in lower case. */
  predicate SafetyWords(msg: string) {
    Contains(msg, "safety") || Contains(msg, "blocked") || Contains(msg, "policy")
  }

  predicate QuotaWords(msg: string) {
    Contains(msg, "quota") || Contains(msg, "429")
  }

  predicate NetworkWords(msg: string) {
    Contains(msg, "network") || Contains(msg, "offline") || Contains(msg, "fetch")
  }

  /** The guard of the classification: an `Error` instance, or another
      object whose `message` is truthy. Anything else keeps the default. */
  predicate Inspected(err: Thrown) {
    err.ErrorObject? || Truthy(err.Message())
  }

  /** `err.message || ''` for an inspected value. */
  function RawMessage(err: Thrown): string
  {
    if err.Message().Some? then err.Message().value else ""
  }

  /** The message the screen shows for a failed generation: the first class
      whose words occur in the lowercased message wins; with none of them the
      original message is shown after a fixed prefix. */
  function ImageErrorMessage(err: Thrown): (m: string)
    ensures !Inspected(err) ==> m == DefaultImageError
    ensures Inspected(err) ==>
      var msg := ToLower(RawMessage(err));
      && (SafetyWords(msg) ==> m == SafetyMessage)
      && (!SafetyWords(msg) && QuotaWords(msg) ==> m == UsageLimitMessage)
      && (!SafetyWords(msg) && !QuotaWords(msg) && NetworkWords(msg) ==> m == NetworkMessage)
      && (!SafetyWords(msg) && !QuotaWords(msg) && !NetworkWords(msg) ==> m == FailedPrefix + RawMessage(err))
  {
    if !Inspected(err) then DefaultImageError
    else
      var msg := ToLower(RawMessage(err));
      if SafetyWords(msg) then SafetyMessage
      else if QuotaWords(msg) then UsageLimitMessage
      else if NetworkWords(msg) then NetworkMessage
      else FailedPrefix + RawMessage(err)
  }

  /** Safety wins over quota and network: a message naming both a policy
      block and a rate limit is reported as a safety block. */
  lemma SafetyFirst(err: Thrown)
    requires Inspected(err) && SafetyWords(ToLower(RawMessage(err)))
    ensures ImageErrorMessage(err) == SafetyMessage
    ensures ImageErrorMessage(err) != UsageLimitMessage && ImageErrorMessage(err) != NetworkMessage
  {
    // The messages have different lengths.
    assert |SafetyMessage| == 93 && |UsageLimitMessage| == 75 && |NetworkMessage| == 64;
  }

  /** Quota wins over network. */
  lemma QuotaBeforeNetwork(err: Thrown)
    requires Inspected(err) && !SafetyWords(ToLower(RawMessage(err)))
    requires QuotaWords(ToLower(RawMessage(err))) && NetworkWords(ToLower(RawMessage(err)))
    ensures ImageErrorMessage(err) == UsageLimitMessage
    ensures ImageErrorMessage(err) != NetworkMessage
  {
    assert |UsageLimitMessage| == 75 && |NetworkMessage| == 64;
  }

  /** The fallback message keeps the original message as written, not
      lowercased, after the prefix; an `Error` with an empty message gives the
      bare prefix. */
  lemma FallbackKeepsMessage(err: Thrown)
    requires Inspected(err)
    requires !SafetyWords(ToLower(RawMessage(err))) && !QuotaWords(ToLower(RawMessage(err)))
    requires !NetworkWords(ToLower(RawMessage(err)))
    ensures StartsWith(ImageErrorMessage(err), FailedPrefix)
    ensures ImageErrorMessage(err)[|FailedPrefix|..] == RawMessage(err)
    ensures err.ErrorObject? && err.message == "" ==> ImageErrorMessage(err) == FailedPrefix
  {
    var m := ImageErrorMessage(err);
    assert m[..|FailedPrefix|] == FailedPrefix;
    assert m[|FailedPrefix|..] == RawMessage(err);
  }

  /** The test is case-insensitive: a message holding a safety word in any
      case is reported as a safety block. */
  lemma SafetyAnyCase(err: Thrown, word: string)
    requires Inspected(err)
    requires Contains(RawMessage(err), word)
    requires ToLower(word) == "safety" || ToLower(word) == "blocked" || ToLower(word) == "policy"
    ensures ImageErrorMessage(err) == SafetyMessage
  {
    ContainsLowered(RawMessage(err), word);
  }

  /** Two messages that differ only in letter case get the same class; only
      the fallback, which quotes the message, can tell them apart. */
  lemma ClassIgnoresCase(m1: string, m2: string, c1: Option<string>, c2: Option<string>)
    requires ToLower(m1) == ToLower(m2)
    ensures var r1, r2 := ImageErrorMessage(ErrorObject(m1, c1)), ImageErrorMessage(ErrorObject(m2, c2));
      r1 == r2 || (r1 == FailedPrefix + m1 && r2 == FailedPrefix + m2)
  {
  }

  // ---------------------------------------------------------------------------
  // The screen
  // ---------------------------------------------------------------------------

  class Studio {
    var prompt: string
    var imageUrl: Option<string>
    var loading: bool
    var error: Option<string>

    constructor()
      ensures prompt == "" && imageUrl == None && !loading && error == None
    {
      prompt := "";
      imageUrl := None;
      loading := false;
      error := None;
    }

    method SetPrompt(p: string)
      modifies this
      ensures prompt == p && imageUrl == old(imageUrl) && loading == old(loading) && error == old(error)
    {
      prompt := p;
    }

    /** The generate button's `disabled` attribute. */
    predicate GenerateDisabled()
      reads this
    {
      loading || prompt == ""
    }

    /** The dismiss button of the error panel. */
    method DismissError()
      modifies this
      ensures error == None
      ensures prompt == old(prompt) && imageUrl == old(imageUrl) && loading == old(loading)
    {
      error := None;
    }

    /** `handleGenerate`, with the backend's reply as an input. An empty
        prompt does nothing. Otherwise the old image and error are cleared and
        exactly one of them is set afresh: the image on success, the
        classified message on failure. Loading ends false either way. */
    method HandleGenerate(reply: Reply) returns (sent: Option<Request>)
      modifies this
      ensures prompt == old(prompt)
      ensures old(prompt) == "" ==>
        sent == None && imageUrl == old(imageUrl) && error == old(error) && loading == old(loading)
      ensures old(prompt) != "" ==>
        && sent == Some(Request(ImageModel, Prompt(old(prompt)), NoConfig))
        && !loading
        && (imageUrl.Some? <==> error.None?)
        && (reply.Failure? ==> error == Some(ImageErrorMessage(reply.error)))
        && (imageUrl.Some? ==> reply.Success? && StartsWith(imageUrl.value, ImageUrlPrefix))
        && (imageUrl.Some? ==>
              exists k :: FirstImageAt(ResponseParts(reply.value), k) &&
                imageUrl.value == ImageUrlPrefix + ResponseParts(reply.value)[k].inlineData.value.data.value)
        && (reply.Success? ==>
              (imageUrl.Some? <==> exists k :: 0 <= k < |ResponseParts(reply.value)| && HasImageData(ResponseParts(reply.value)[k])))
        && (reply.Success? && imageUrl.None? ==> error == Some(ImageErrorMessage(NewError(NoImageMessage))))
    {
      if prompt == "" {
        return None;
      }
      loading := true;
      error := None;
      imageUrl := None;
      var c := GenerateVisualAid(prompt, reply);
      sent := Some(c.request);
      match c.result {
        case Success(url) =>
          imageUrl := Some(url);
          var k :| FirstImageAt(ResponseParts(reply.value), k) &&
            url == ImageUrlPrefix + ResponseParts(reply.value)[k].inlineData.value.data.value;
          assert url[..|ImageUrlPrefix|] == ImageUrlPrefix;
        case Failure(e) =>
          error := Some(ImageErrorMessage(e));
      }
      loading := false;
    }
  }
}
