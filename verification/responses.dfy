/**
 * The response handling of `generateVectorImage`: which response yields an
 * image, the filtered list of images, and the error thrown when no image
 * was produced or a call failed.
 *
 * A response is modelled by the fields the code reads. `text` is the
 * response's text accessor, taken here as a field of its own.
 */
module Responses {
  import opened Types
  import opened JsText

  datatype InlineData = InlineData(data: Option<string>, mimeType: Option<string>)
  datatype Part = Part(inlineData: Option<InlineData>, text: Option<string>)
  datatype Content = Content(parts: Option<seq<Part>>)
  datatype Candidate = Candidate(finishReason: Option<string>, content: Option<Content>)
  datatype Response = Response(candidates: Option<seq<Candidate>>, text: Option<string>)

  const FailureReasonPrefix := "생성 실패 원인: "
  const NoImageMessage := "이미지가 생성되지 않았습니다. 모델이 요청을 거부했을 수 있습니다."
  const UnknownGenerationError := "이미지 생성 중 알 수 없는 오류가 발생했습니다."

  /** `response.candidates?.[0]`. */
  function FirstCandidate(response: Response): Option<Candidate>
  {
    if response.candidates.Some? && |response.candidates.value| > 0 then Some(response.candidates.value[0]) else None
  }

  /** A candidate finished cleanly: its finish reason is "STOP" or absent (falsy). */
  predicate FinishedCleanly(candidate: Candidate)
  {
    candidate.finishReason == Some("STOP") || !Truthy(candidate.finishReason)
  }

  /** `parts.find(p => p.inlineData)`, as the index of the part found. */
  function FindInlinePart(parts: seq<Part>): (r: Option<nat>)
    ensures r.Some? ==> r.value < |parts| && parts[r.value].inlineData.Some?
    ensures r.Some? ==> forall j :: 0 <= j < r.value ==> parts[j].inlineData.None?
    ensures r.None? <==> forall j :: 0 <= j < |parts| ==> parts[j].inlineData.None?
    decreases |parts|
  {
    if |parts| == 0 then None
    else if parts[0].inlineData.Some? then Some(0)
    else
      match FindInlinePart(parts[1..])
      case None =>
        assert forall j :: 1 <= j < |parts| ==> parts[j] == parts[1..][j - 1];
        None
      case Some(i) =>
        assert forall j :: 1 <= j < i + 1 ==> parts[j] == parts[1..][j - 1];
        Some(i + 1)
  }

  /**
   * The image a response yields, or None (the `null` of the source's map):
   * the first candidate must exist and have finished cleanly, and the first
   * part carrying inline data must carry non-empty data.
   */
  function ImageOf(response: Response): Option<string>
  {
    match FirstCandidate(response)
    case None => None
    case Some(candidate) =>
      if !FinishedCleanly(candidate) || candidate.content.None? || candidate.content.value.parts.None? then None
      else
        var parts := candidate.content.value.parts.value;
        match FindInlinePart(parts)
        case None => None
        case Some(i) =>
          var data := parts[i].inlineData.value.data;
          if Truthy(data) then Some(data.value) else None
  }

  /**
   * The acceptance rule stated on its own: the response's first candidate
   * finished cleanly and has parts, part `i` is the first part with inline
   * data, and that data is the non-empty `image`.
   */
  predicate AcceptsAt(response: Response, i: nat, image: string)
  {
    && response.candidates.Some? && |response.candidates.value| > 0
    && var candidate := response.candidates.value[0];
    && (candidate.finishReason == Some("STOP") || candidate.finishReason == None || candidate.finishReason == Some(""))
    && candidate.content.Some? && candidate.content.value.parts.Some?
    && var parts := candidate.content.value.parts.value;
    && i < |parts|
    && (forall j :: 0 <= j < i ==> parts[j].inlineData.None?)
    && parts[i].inlineData.Some? && parts[i].inlineData.value.data == Some(image)
    && image != ""
  }

  /** A response yields `image` exactly when the acceptance rule holds at some part. */
  lemma ImageOfMeetsAcceptance(response: Response, image: string)
    ensures ImageOf(response) == Some(image) <==> exists i: nat :: AcceptsAt(response, i, image)
  {
    if ImageOf(response) == Some(image) {
      var parts := response.candidates.value[0].content.value.parts.value;
      var i := FindInlinePart(parts).value;
      assert AcceptsAt(response, i, image);
    }
    if i: nat :| AcceptsAt(response, i, image) {
      var parts := response.candidates.value[0].content.value.parts.value;
      var found := FindInlinePart(parts);
      assert found == Some(i);
    }
  }

  /**
   * Only the first part carrying inline data counts: when that part's data
   * is empty, a later part with data does not make the response yield an image.
   */
  lemma OnlyFirstInlinePartCounts(later: string)
    ensures var parts := [Part(Some(InlineData(Some(""), None)), None), Part(Some(InlineData(Some(later), None)), None)];
      ImageOf(Response(Some([Candidate(Some("STOP"), Some(Content(Some(parts))))]), None)) == None
  {
  }

  /** A candidate stopped for any reason other than "STOP" yields no image, whatever its parts. */
  lemma OtherFinishReasonYieldsNothing(reason: string, parts: seq<Part>)
    requires reason != "" && reason != "STOP"
    ensures ImageOf(Response(Some([Candidate(Some(reason), Some(Content(Some(parts))))]), None)) == None
  {
  }

  /** The map step: the image (or null) of each response, position by position. */
  function MapImages(responses: seq<Response>): (mapped: seq<Option<string>>)
    ensures |mapped| == |responses|
    ensures forall i :: 0 <= i < |responses| ==> mapped[i] == ImageOf(responses[i])
  {
    seq(|responses|, i requires 0 <= i < |responses| => ImageOf(responses[i]))
  }

  /** The filter step from position `from` on: the present values, in order. */
  function PresentFrom(mapped: seq<Option<string>>, from: nat): (values: seq<string>)
    requires from <= |mapped|
    ensures |values| <= |mapped| - from
    decreases |mapped| - from
  {
    if from == |mapped| then []
    else
      var rest := PresentFrom(mapped, from + 1);
      match mapped[from]
      case Some(image) => [image] + rest
      case None => rest
  }

  /** The images of `responses.map(...).filter(image => image !== null)`, in response order. */
  function AcceptedImages(responses: seq<Response>): (images: seq<string>)
    ensures |images| <= |responses|
  {
    PresentFrom(MapImages(responses), 0)
  }

  /** The positions from `from` on that hold a value, in increasing order. */
  function PresentIndicesFrom(mapped: seq<Option<string>>, from: nat): (indices: seq<nat>)
    requires from <= |mapped|
    decreases |mapped| - from
  {
    if from == |mapped| then []
    else
      var rest := PresentIndicesFrom(mapped, from + 1);
      if mapped[from].Some? then [from] + rest else rest
  }

  /** The positions of the responses that yield an image, in increasing order. */
  function ImageIndices(responses: seq<Response>): seq<nat>
  {
    PresentIndicesFrom(MapImages(responses), 0)
  }

  /** The positions lie in range, increase, and are exactly those holding a value. */
  lemma {:induction false} PresentIndicesFromSound(mapped: seq<Option<string>>, from: nat)
    requires from <= |mapped|
    ensures var indices := PresentIndicesFrom(mapped, from);
      && (forall k :: 0 <= k < |indices| ==> from <= indices[k] < |mapped|)
      && (forall k, l :: 0 <= k < l < |indices| ==> indices[k] < indices[l])
      && (forall i :: from <= i < |mapped| ==> (i in indices <==> mapped[i].Some?))
    decreases |mapped| - from
  {
    if from < |mapped| {
      PresentIndicesFromSound(mapped, from + 1);
    }
  }

  lemma {:induction false} PresentFromInOrder(mapped: seq<Option<string>>, from: nat)
    requires from <= |mapped|
    ensures |PresentFrom(mapped, from)| == |PresentIndicesFrom(mapped, from)|
    ensures forall k :: 0 <= k < |PresentFrom(mapped, from)| ==>
      from <= PresentIndicesFrom(mapped, from)[k] < |mapped|
      && mapped[PresentIndicesFrom(mapped, from)[k]] == Some(PresentFrom(mapped, from)[k])
    decreases |mapped| - from
  {
    if from < |mapped| {
      PresentFromInOrder(mapped, from + 1);
      var values := PresentFrom(mapped, from + 1);
      var indices := PresentIndicesFrom(mapped, from + 1);
      if mapped[from].Some? {
        var all := PresentFrom(mapped, from);
        var allIndices := PresentIndicesFrom(mapped, from);
        assert all == [mapped[from].value] + values;
        assert allIndices == [from] + indices;
        forall k | 1 <= k < |all|
          ensures from < allIndices[k] < |mapped| && mapped[allIndices[k]] == Some(all[k])
        {
          assert all[k] == values[k - 1] && allIndices[k] == indices[k - 1];
        }
      } else {
        assert PresentFrom(mapped, from) == values;
        assert PresentIndicesFrom(mapped, from) == indices;
      }
    }
  }

  /**
   * The accepted images keep response order: there are as many images as
   * responses that yield one, the k-th image is the image of the k-th such
   * response, and the positions of those responses increase.
   */
  lemma AcceptedImagesInOrder(responses: seq<Response>)
    ensures |AcceptedImages(responses)| == |ImageIndices(responses)|
    ensures forall k :: 0 <= k < |ImageIndices(responses)| ==> ImageIndices(responses)[k] < |responses|
    ensures forall k, l :: 0 <= k < l < |ImageIndices(responses)| ==> ImageIndices(responses)[k] < ImageIndices(responses)[l]
    ensures forall i :: 0 <= i < |responses| ==> (i in ImageIndices(responses) <==> ImageOf(responses[i]).Some?)
    ensures forall k :: 0 <= k < |AcceptedImages(responses)| ==>
      ImageOf(responses[ImageIndices(responses)[k]]) == Some(AcceptedImages(responses)[k])
  {
    PresentIndicesFromSound(MapImages(responses), 0);
    PresentFromInOrder(MapImages(responses), 0);
  }

  lemma {:induction false} NonePresentFrom(mapped: seq<Option<string>>, from: nat)
    requires from <= |mapped|
    ensures PresentFrom(mapped, from) == [] <==> forall i :: from <= i < |mapped| ==> mapped[i].None?
    decreases |mapped| - from
  {
    if from < |mapped| {
      NonePresentFrom(mapped, from + 1);
    }
  }

  /** No image is accepted exactly when no response yields one. */
  lemma NoImagesIffNoneYield(responses: seq<Response>)
    ensures AcceptedImages(responses) == [] <==> forall i :: 0 <= i < |responses| ==> ImageOf(responses[i]).None?
  {
    NonePresentFrom(MapImages(responses), 0);
  }

  /**
   * The message thrown when no image was accepted, chosen from the first
   * response: its first candidate's finish reason if present, else its
   * text if present, else the generic message.
   */
  function FailureMessage(first: Response): (message: string)
    ensures message != ""
  {
    var candidate := FirstCandidate(first);
    if candidate.Some? && Truthy(candidate.value.finishReason) then
      FailureReasonPrefix + candidate.value.finishReason.value + "."
    else if Truthy(first.text) then
      first.text.value
    else
      NoImageMessage
  }

  /** The three cases of the failure message, in priority order. */
  lemma FailureMessageCases(first: Response)
    ensures var c := FirstCandidate(first);
      && (c.Some? && Truthy(c.value.finishReason) ==>
            StartsWith(FailureMessage(first), FailureReasonPrefix)
            && OccursAt(FailureMessage(first), c.value.finishReason.value, |FailureReasonPrefix|)
            && EndsWith(FailureMessage(first), ".")
            && |FailureMessage(first)| == |FailureReasonPrefix| + |c.value.finishReason.value| + 1)
      && (!(c.Some? && Truthy(c.value.finishReason)) && Truthy(first.text) ==> FailureMessage(first) == first.text.value)
      && (!(c.Some? && Truthy(c.value.finishReason)) && !Truthy(first.text) ==> FailureMessage(first) == NoImageMessage)
  {
    var c := FirstCandidate(first);
    if c.Some? && Truthy(c.value.finishReason) {
      var reason := c.value.finishReason.value;
      var m := FailureReasonPrefix + reason + ".";
      assert m[..|FailureReasonPrefix|] == FailureReasonPrefix;
      assert m[|FailureReasonPrefix|..|FailureReasonPrefix| + |reason|] == reason;
    }
  }

  /** How one of the four calls ended: its final response, or what its retry loop threw. */
  type CallResult = Result<Response, Thrown>

  /** The index of the first call that threw, if any. */
  function FirstRejection(results: seq<CallResult>): (r: Option<nat>)
    ensures r.Some? ==> r.value < |results| && results[r.value].Err?
    ensures r.Some? ==> forall j :: 0 <= j < r.value ==> results[j].Ok?
    ensures r.None? <==> forall j :: 0 <= j < |results| ==> results[j].Ok?
    decreases |results|
  {
    if |results| == 0 then None
    else if results[0].Err? then Some(0)
    else
      match FirstRejection(results[1..])
      case None =>
        assert forall j :: 1 <= j < |results| ==> results[j] == results[1..][j - 1];
        None
      case Some(i) =>
        assert forall j :: 1 <= j < i + 1 ==> results[j] == results[1..][j - 1];
        Some(i + 1)
  }

  /** The catch block's rethrow: an `Error` is rethrown as it is, anything else becomes the generic error. */
  function Rethrown(e: Thrown): (r: Thrown)
    ensures r.Error?
    ensures e.Error? ==> r == e
  {
    if e.Error? then e else Error(UnknownGenerationError)
  }

  /** The responses of calls that all returned. */
  function ResponsesOf(results: seq<CallResult>): (responses: seq<Response>)
    requires forall j :: 0 <= j < |results| ==> results[j].Ok?
    ensures |responses| == |results|
    ensures forall j :: 0 <= j < |results| ==> responses[j] == results[j].value
  {
    seq(|results|, j requires 0 <= j < |results| => results[j].value)
  }

  /**
   * What `generateVectorImage` returns or throws once its calls have ended:
   * the first rejection (in call order), rethrown; otherwise the accepted
   * images when there is at least one; otherwise the failure message of the
   * first response.
   */
  function Settle(results: seq<CallResult>): Result<seq<string>, Thrown>
  {
    match FirstRejection(results)
    case Some(i) => Err(Rethrown(results[i].error))
    case None =>
      var responses := ResponsesOf(results);
      var images := AcceptedImages(responses);
      if |images| > 0 then Ok(images)
      else if |responses| > 0 then Err(Error(FailureMessage(responses[0])))
      else Err(Error(NoImageMessage))
  }

  /**
   * The outcomes of a generation: a call that threw makes the whole
   * generation throw (an `Error` as it was); when every call returned, the
   * result is the non-empty list of accepted images, and failing that the
   * first response's failure message.
   */
  lemma SettleOutcomes(results: seq<CallResult>)
    ensures Settle(results).Err? ==> Settle(results).error.Error?
    ensures (exists j :: 0 <= j < |results| && results[j].Err?) ==> Settle(results).Err?
    ensures forall j :: 0 <= j < |results| && results[j].Err? && (forall l :: 0 <= l < j ==> results[l].Ok?) ==>
      Settle(results) == Err(Rethrown(results[j].error))
    ensures Settle(results).Ok? <==>
      (forall j :: 0 <= j < |results| ==> results[j].Ok?) && exists j :: 0 <= j < |results| && ImageOf(results[j].value).Some?
    ensures Settle(results).Ok? ==> 0 < |Settle(results).value| <= |results|
    ensures (forall j :: 0 <= j < |results| ==> results[j].Ok?) && |results| > 0 && Settle(results).Err? ==>
      Settle(results) == Err(Error(FailureMessage(results[0].value)))
  {
    var r := FirstRejection(results);
    forall j | 0 <= j < |results| && results[j].Err? && (forall l :: 0 <= l < j ==> results[l].Ok?)
      ensures r == Some(j)
    {
    }
    if r.None? {
      var responses := ResponsesOf(results);
      NoImagesIffNoneYield(responses);
    }
  }
}
