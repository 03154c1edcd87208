/** The result gathering of `createPictureBySeedReam` in core/llm.py: the
    inputs are prepared, the generator's event stream is folded into a map
    from partial-image index to payload (stopping at an InternalServiceError),
    and the payloads are emitted in index order with a data-URI prefix, or
    taken from the response's `data` when no partial image arrived. The
    generator client itself is a function parameter. */
module Llm {
  import opened Wrappers
  import opened Text
  import opened ImageUtils

  datatype ApiError = ApiError(code: string)

  /** One item of the stream; `NoEvent` is a `None` item. */
  datatype StreamEvent =
    | NoEvent
    | PartialFailed(error: Option<ApiError>)
    | PartialSucceeded(error: Option<ApiError>, url: Option<string>)
    | PartialImage(partialImageIndex: int, b64Json: Option<string>)
    | GenerationCompleted(error: Option<ApiError>)
    | OtherEvent(eventType: string)

  /** An entry of the response's `data` list. */
  datatype ImageData = ImageData(b64Json: Option<string>)

  const InternalServiceError: string := "InternalServiceError"
  const DataImageMark: string := "data:image"
  const PngDataPrefix: string := "data:image/png;base64,"

  /** A partial failure with code InternalServiceError ends the loop. */
  predicate Halts(e: StreamEvent)
  {
    e.PartialFailed? && e.error.Some? && e.error.value.code == InternalServiceError
  }

  /** A partial image with a non-empty payload is stored at its index. */
  predicate StoresImage(e: StreamEvent)
  {
    e.PartialImage? && e.b64Json.Some? && e.b64Json.value != ""
  }

  /** The `partial_images` map after the loop has consumed `events`, starting from `partial`. */
  function ApplyEvents(partial: map<int, string>, events: seq<StreamEvent>): (r: map<int, string>)
    ensures partial.Keys <= r.Keys
    ensures forall k :: k in r && k !in partial ==>
      exists i :: 0 <= i < |events| && StoresImage(events[i]) && events[i].partialImageIndex == k
    ensures (forall k :: k in partial ==> partial[k] != "") ==> forall k :: k in r ==> r[k] != ""
    decreases |events|
  {
    if events == [] then partial
    else if Halts(events[0]) then partial
    else if StoresImage(events[0]) then
      ApplyEvents(partial[events[0].partialImageIndex := events[0].b64Json.value], events[1..])
    else ApplyEvents(partial, events[1..])
  }

  /** The payload as a data URI: `data:image/png;base64,` is put in front
      unless it already starts with `data:image`. */
  function WithDataPrefix(d: string): (r: string)
    ensures StartsWith(r, DataImageMark)
    ensures StartsWith(d, DataImageMark) ==> r == d
    ensures !StartsWith(d, DataImageMark) ==> r == PngDataPrefix + d
  {
    if StartsWith(d, DataImageMark) then d
    else
      assert (PngDataPrefix + d)[..|DataImageMark|] == DataImageMark;
      PngDataPrefix + d
  }

  predicate IsLeast(k: int, s: set<int>)
  {
    k in s && forall j :: j in s ==> k <= j
  }

  /** A non-empty set has an element. */
  lemma HasElement(s: set<int>)
    requires s != {}
    ensures exists x :: x in s
  {
    if forall x :: x !in s {
      assert false;
    }
  }

  /** A finite set holding `x` has a least element, found by walking down
      from `x` while something smaller is left. */
  lemma {:induction false} LeastBelow(s: set<int>, x: int)
    requires x in s
    ensures exists k :: IsLeast(k, s)
    decreases |s|
  {
    if !IsLeast(x, s) {
      var y :| y in s && y < x;
      var rest := s - {x};
      assert y in rest;
      LeastBelow(rest, y);
      var k :| IsLeast(k, rest);
      forall j | j in s
        ensures k <= j
      {
        if j != x {
          assert j in rest;
        }
      }
      assert IsLeast(k, s);
    }
  }

  lemma LeastExists(s: set<int>)
    requires s != {}
    ensures exists k :: IsLeast(k, s)
  {
    HasElement(s);
    var x :| x in s;
    LeastBelow(s, x);
  }

  /** `sorted(keys)`: the keys in strictly ascending order, each once. */
  function SortedIndices(s: set<int>): (r: seq<int>)
    ensures |r| == |s|
    ensures forall i :: 0 <= i < |r| ==> r[i] in s
    ensures forall i, j :: 0 <= i < j < |r| ==> r[i] < r[j]
    decreases |s|
  {
    if s == {} then []
    else
      LeastExists(s);
      var k :| IsLeast(k, s);
      [k] + SortedIndices(s - {k})
  }

  /** Every key has its place in `sorted(keys)`. */
  lemma {:induction false} SortedIndicesComplete(s: set<int>, x: int)
    requires x in s
    ensures x in SortedIndices(s)
    decreases |s|
  {
    LeastExists(s);
    var k :| IsLeast(k, s);
    SortedIndicesStep(s, k);
    if x != k {
      SortedIndicesComplete(s - {k}, x);
    }
  }

  /** The least key comes first, then the rest in order. */
  lemma SortedIndicesStep(s: set<int>, k: int)
    requires IsLeast(k, s)
    ensures SortedIndices(s) == [k] + SortedIndices(s - {k})
  {
  }

  /** The payloads stored at `keys`, in that order, as data URIs. */
  function RenderIndexed(partial: map<int, string>, keys: seq<int>): (r: seq<string>)
    requires forall i :: 0 <= i < |keys| ==> keys[i] in partial
    ensures |r| == |keys|
    ensures forall i :: 0 <= i < |keys| ==> r[i] == WithDataPrefix(partial[keys[i]])
  {
    seq(|keys|, i requires 0 <= i < |keys| => WithDataPrefix(partial[keys[i]]))
  }

  predicate HasPayload(d: ImageData)
  {
    d.b64Json.Some? && d.b64Json.value != ""
  }

  /** The fallback: the non-empty payloads of the response's `data`, in order, as data URIs. */
  function FromStreamData(data: seq<ImageData>): (r: seq<string>)
    ensures |r| <= |data|
    ensures forall i :: 0 <= i < |r| ==> StartsWith(r[i], DataImageMark)
  {
    if data == [] then []
    else (if HasPayload(data[0]) then [WithDataPrefix(data[0].b64Json.value)] else []) + FromStreamData(data[1..])
  }

  /** When every entry has a payload, each one is kept, in place. */
  lemma {:induction false} FromStreamDataKeepsAll(data: seq<ImageData>)
    requires forall i :: 0 <= i < |data| ==> data[i].b64Json.Some? && data[i].b64Json.value != ""
    ensures |FromStreamData(data)| == |data|
    ensures forall i :: 0 <= i < |data| ==> FromStreamData(data)[i] == WithDataPrefix(data[i].b64Json.value)
  {
    if data != [] {
      FromStreamDataKeepsAll(data[1..]);
    }
  }

  /** When no entry has a payload, the fallback is empty too. */
  lemma {:induction false} FromStreamDataDropsEmpty(data: seq<ImageData>)
    requires forall i :: 0 <= i < |data| ==> !HasPayload(data[i])
    ensures FromStreamData(data) == []
  {
    if data != [] {
      FromStreamDataDropsEmpty(data[1..]);
    }
  }

  /** The fallback works entry by entry: the results of two runs of `data`
      are those of their concatenation, in the same order. With the two
      lemmas above on single entries, this fixes the whole result. */
  lemma {:induction false} FromStreamDataConcat(a: seq<ImageData>, b: seq<ImageData>)
    ensures FromStreamData(a + b) == FromStreamData(a) + FromStreamData(b)
  {
    if a != [] {
      assert (a + b)[1..] == a[1..] + b;
      FromStreamDataConcat(a[1..], b);
    } else {
      assert a + b == b;
    }
  }

  /** The list `createPictureBySeedReam` returns for a finished stream. */
  ghost function CollectedImages(events: seq<StreamEvent>, data: seq<ImageData>): (r: seq<string>)
    ensures forall i :: 0 <= i < |r| ==> StartsWith(r[i], DataImageMark)
    ensures ApplyEvents(map[], events) != map[] ==> |r| == |ApplyEvents(map[], events).Keys|
    ensures ApplyEvents(map[], events) == map[] ==> |r| <= |data|
  {
    var partial := ApplyEvents(map[], events);
    if partial != map[] then RenderIndexed(partial, SortedIndices(partial.Keys)) else FromStreamData(data)
  }

  /** The `for event in stream` loop of `createPictureBySeedReam`: None items are
      skipped, a non-empty partial image is stored at its index, and an
      InternalServiceError failure breaks out. */
  method FoldEvents(events: seq<StreamEvent>) returns (partial: map<int, string>)
    ensures partial == ApplyEvents(map[], events)
  {
    partial := map[];
    var i := 0;
    while i < |events|
      invariant 0 <= i <= |events|
      invariant ApplyEvents(partial, events[i..]) == ApplyEvents(map[], events)
    {
      var event := events[i];
      assert events[i..][1..] == events[i + 1..];
      if event.NoEvent? {
      } else if event.PartialFailed? {
        if event.error.Some? && event.error.value.code == InternalServiceError {
          break;
        }
      } else if event.PartialImage? {
        if event.b64Json.Some? && event.b64Json.value != "" {
          partial := partial[event.partialImageIndex := event.b64Json.value];
        }
      }
      i := i + 1;
    }
  }

  /** The `if partial_images` branch: the stored payloads, by ascending index, as data URIs. */
  method EmitInIndexOrder(partial: map<int, string>) returns (images: seq<string>)
    ensures var keys := SortedIndices(partial.Keys);
      |images| == |keys| && forall j :: 0 <= j < |keys| ==> images[j] == WithDataPrefix(partial[keys[j]])
  {
    var keys := SortedIndices(partial.Keys);
    images := [];
    for i := 0 to |keys|
      invariant |images| == i
      invariant forall j :: 0 <= j < i ==> images[j] == WithDataPrefix(partial[keys[j]])
    {
      images := images + [WithDataPrefix(partial[keys[i]])];
    }
  }

  /** The `stream.data` fallback: the non-empty payloads of `data`, in order, as data URIs. */
  method EmitStreamData(data: seq<ImageData>) returns (images: seq<string>)
    ensures images == FromStreamData(data)
  {
    images := [];
    var j := 0;
    while j < |data|
      invariant 0 <= j <= |data|
      invariant images + FromStreamData(data[j..]) == FromStreamData(data)
    {
      assert data[j..][1..] == data[j + 1..];
      assert FromStreamData(data[j..]) ==
        (if HasPayload(data[j]) then [WithDataPrefix(data[j].b64Json.value)] else []) + FromStreamData(data[j + 1..]);
      if data[j].b64Json.Some? && data[j].b64Json.value != "" {
        images := images + [WithDataPrefix(data[j].b64Json.value)];
      }
      j := j + 1;
    }
  }

  /** The streaming part of `createPictureBySeedReam`: fold the events, then the ordered or fallback result.
      A count other than four is only logged. */
  method CollectImages(events: seq<StreamEvent>, data: seq<ImageData>) returns (images: seq<string>)
    ensures images == CollectedImages(events, data)
  {
    var partial := FoldEvents(events);
    if partial != map[] {
      images := EmitInIndexOrder(partial);
    } else {
      images := EmitStreamData(data);
    }
  }

  /** Once an InternalServiceError arrives, nothing after it matters. */
  lemma {:induction false} HaltStopsProcessing(partial: map<int, string>, before: seq<StreamEvent>, e: StreamEvent, after: seq<StreamEvent>)
    requires Halts(e)
    ensures ApplyEvents(partial, before + [e] + after) == ApplyEvents(partial, before)
    decreases |before|
  {
    if before == [] {
      assert before + [e] + after == [e] + after;
    } else {
      assert (before + [e] + after)[1..] == before[1..] + [e] + after;
      var next := if StoresImage(before[0]) then partial[before[0].partialImageIndex := before[0].b64Json.value] else partial;
      HaltStopsProcessing(next, before[1..], e, after);
    }
  }

  /** The last image event for an index wins over earlier ones. */
  lemma {:induction false} LaterImageOverwrites(partial: map<int, string>, events: seq<StreamEvent>, index: int, b64: string)
    requires forall i :: 0 <= i < |events| ==> !Halts(events[i])
    requires b64 != ""
    ensures ApplyEvents(partial, events + [PartialImage(index, Some(b64))]) == ApplyEvents(partial, events)[index := b64]
    decreases |events|
  {
    var last := PartialImage(index, Some(b64));
    if events == [] {
      assert [] + [last] == [last];
      assert [last][1..] == [];
    } else {
      assert (events + [last])[1..] == events[1..] + [last];
      var next := if StoresImage(events[0]) then partial[events[0].partialImageIndex := events[0].b64Json.value] else partial;
      LaterImageOverwrites(next, events[1..], index, b64);
    }
  }

  /** Only stored images and InternalServiceError failures take part. */
  function Relevant(events: seq<StreamEvent>): (r: seq<StreamEvent>)
    ensures forall i :: 0 <= i < |r| ==> Halts(r[i]) || StoresImage(r[i])
  {
    if events == [] then []
    else if Halts(events[0]) || StoresImage(events[0]) then [events[0]] + Relevant(events[1..])
    else Relevant(events[1..])
  }

  /** `None` items, other failures, URL successes, completion and unknown
      events change nothing: the loop skips them and goes on. */
  lemma {:induction false} OnlyRelevantEventsMatter(partial: map<int, string>, events: seq<StreamEvent>)
    ensures ApplyEvents(partial, events) == ApplyEvents(partial, Relevant(events))
    decreases |events|
  {
    if events != [] {
      if Halts(events[0]) {
      } else if StoresImage(events[0]) {
        assert ([events[0]] + Relevant(events[1..]))[1..] == Relevant(events[1..]);
        OnlyRelevantEventsMatter(partial[events[0].partialImageIndex := events[0].b64Json.value], events[1..]);
      } else {
        OnlyRelevantEventsMatter(partial, events[1..]);
      }
    }
  }

  /** Two image events for different indices can arrive in either order. */
  lemma {:induction false} ArrivalOrderIrrelevant(partial: map<int, string>, before: seq<StreamEvent>,
                                                  a: StreamEvent, b: StreamEvent, after: seq<StreamEvent>)
    requires forall i :: 0 <= i < |before| ==> !Halts(before[i])
    requires StoresImage(a) && StoresImage(b) && a.partialImageIndex != b.partialImageIndex
    ensures ApplyEvents(partial, before + [a, b] + after) == ApplyEvents(partial, before + [b, a] + after)
    decreases |before|
  {
    if before == [] {
      assert (before + [a, b] + after)[1..][1..] == after;
      assert (before + [b, a] + after)[1..][1..] == after;
      var ia, ib := a.partialImageIndex, b.partialImageIndex;
      assert partial[ia := a.b64Json.value][ib := b.b64Json.value] == partial[ib := b.b64Json.value][ia := a.b64Json.value];
    } else {
      assert (before + [a, b] + after)[1..] == before[1..] + [a, b] + after;
      assert (before + [b, a] + after)[1..] == before[1..] + [b, a] + after;
      var next := if StoresImage(before[0]) then partial[before[0].partialImageIndex := before[0].b64Json.value] else partial;
      ArrivalOrderIrrelevant(next, before[1..], a, b, after);
    }
  }

  /** With partial images, the result has one data URI per distinct index, in
      ascending index order. */
  lemma ResultsInIndexOrder(events: seq<StreamEvent>, data: seq<ImageData>)
    requires ApplyEvents(map[], events) != map[]
    ensures var partial := ApplyEvents(map[], events);
      var keys := SortedIndices(partial.Keys);
      var r := CollectedImages(events, data);
      && |r| == |partial.Keys|
      && (forall i, j :: 0 <= i < j < |keys| ==> keys[i] < keys[j])
      && (forall i :: 0 <= i < |r| ==> keys[i] in partial && r[i] == WithDataPrefix(partial[keys[i]]))
      && (forall k :: k in partial ==> k in keys)
  {
    var partial := ApplyEvents(map[], events);
    forall k | k in partial
      ensures k in SortedIndices(partial.Keys)
    {
      SortedIndicesComplete(partial.Keys, k);
    }
  }

  /** Without partial images, the result comes from the response's `data`. */
  lemma FallbackToStreamData(events: seq<StreamEvent>, data: seq<ImageData>)
    requires ApplyEvents(map[], events) == map[]
    ensures CollectedImages(events, data) == FromStreamData(data)
  {
  }

  /** What the generator client hands back for prepared images and a prompt:
      a finished stream and its `data`, or an exception. */
  datatype GatewayRun = Streamed(events: seq<StreamEvent>, data: seq<ImageData>) | Raised(message: string)

  const GatewayFailureHead: string := "调用豆包生图接口失败: "

  /** The whole `createPictureBySeedReam`: any exception, from preparing the
      images or from the client, is re-raised with the failure prefix. */
  ghost function SeedReamOutcome(inputs: seq<string>, prompt: string, gateway: (ApiImages, string) -> GatewayRun): (r: Result<seq<string>, string>)
    ensures r.Success? ==> (forall i :: 0 <= i < |r.value| ==> StartsWith(r.value[i], DataImageMark))
    ensures r.Failure? ==> StartsWith(r.error, GatewayFailureHead)
    ensures inputs == [] ==> r == Failure(GatewayFailureHead + EmptyListMessage)
    ensures r.Success? <==>
      PrepareImageListForApi(inputs).Success? && gateway(PrepareImageListForApi(inputs).value, prompt).Streamed?
    ensures PrepareImageListForApi(inputs).Failure? ==>
      r == Failure(GatewayFailureHead + PrepareImageListForApi(inputs).error)
    ensures PrepareImageListForApi(inputs).Success? ==>
      var run := gateway(PrepareImageListForApi(inputs).value, prompt);
      && (run.Raised? ==> r == Failure(GatewayFailureHead + run.message))
      && (run.Streamed? ==> r == Success(CollectedImages(run.events, run.data)))
  {
    match PrepareImageListForApi(inputs)
    case Failure(e) =>
      assert (GatewayFailureHead + e)[..|GatewayFailureHead|] == GatewayFailureHead;
      Failure(GatewayFailureHead + e)
    case Success(prepared) =>
      match gateway(prepared, prompt)
      case Raised(m) =>
        assert (GatewayFailureHead + m)[..|GatewayFailureHead|] == GatewayFailureHead;
        Failure(GatewayFailureHead + m)
      case Streamed(events, data) => Success(CollectedImages(events, data))
  }

  method CreatePictureBySeedReam(inputs: seq<string>, prompt: string, gateway: (ApiImages, string) -> GatewayRun)
    returns (r: Result<seq<string>, string>)
    ensures r == SeedReamOutcome(inputs, prompt, gateway)
  {
    var prepared := PrepareImageListForApi(inputs);
    if prepared.Failure? {
      return Failure(GatewayFailureHead + prepared.error);
    }
    var run := gateway(prepared.value, prompt);
    if run.Raised? {
      return Failure(GatewayFailureHead + run.message);
    }
    var images := CollectImages(run.events, run.data);
    return Success(images);
  }

  /** An input list the preparation refuses never reaches the client. */
  lemma InvalidInputsNeverReachGateway(inputs: seq<string>, prompt: string,
                                       g1: (ApiImages, string) -> GatewayRun, g2: (ApiImages, string) -> GatewayRun)
    requires PrepareImageListForApi(inputs).Failure?
    ensures SeedReamOutcome(inputs, prompt, g1) == SeedReamOutcome(inputs, prompt, g2)
  {
  }
}
