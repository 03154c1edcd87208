/** The orchestrator of service/generation_Image.py: the request and image
    checks in the order they run, the input list handed to the generator
    (origin first, garment images in Easy mode), the exact-four output check
    with 0-based ids, and the SSE numbering with its closing event. The
    garment loader and the generator client are function parameters, and the
    decoded view of the origin image is given as an `ImageProbe`. */
module GenerationImage {
  import opened Wrappers
  import opened Enums
  import opened ImageUtils
  import Dto = CreatePictureReqDto
  import PromptStrategy
  import Llm

  /** The two codes a `ParamException` carries here. */
  datatype ErrorCode = ParamInvalid | ResourceNotFound

  /** The reasons a `CommonException` is raised with. */
  datatype CommonReason =
    | EasyWithoutClothes
    | MasterWithoutTags
    | InvalidImageFormat
    | ImageRejected(constraint: ConstraintError)
    | EmptyOutput
    | WrongOutputCount(count: nat)

  /** What escapes the service: a `CommonException`, a `ParamException`, or
      the generator's own exception with its message. */
  datatype ServiceError =
    | Common(reason: CommonReason)
    | Param(code: ErrorCode, message: string)
    | Upstream(message: string)

  /** `load_clothes_image`: the garment images, or the exception it raises. */
  datatype LoaderOutcome =
    | Loaded(images: seq<string>)
    | LoaderValueError(message: string)
    | LoaderFileNotFound(message: string)

  /** The loader, called with the gender and the three style ids. */
  type ClothesLoader = (Gender, Option<int>, Option<int>, Option<int>) -> LoaderOutcome

  const ClothesFileMissingMessage: string := "服装图片文件不存在，请联系管理员"

  /** An item of the response, numbered from zero. */
  datatype ImageItem = ImageItem(id: nat, base64: string)

  /** A server-sent event of the stream: one per image, then the closing one. */
  datatype SseEvent = ImagePushed(index: nat, base64: string) | StreamCompleted(total: nat)

  /** `verifyInputData`. The city, mode and gender membership tests always
      hold for enum-typed fields; what remains are the two mode checks. */
  function VerifyInputData(req: Dto.Request): (r: Outcome<ServiceError>)
    ensures r == Fail(Common(EasyWithoutClothes)) <==> req.mode == Easy && req.clothes.None?
    ensures r == Fail(Common(MasterWithoutTags)) <==> req.mode == Master && req.masterModeTags.None?
    ensures r.Pass? <==> (req.mode == Easy ==> req.clothes.Some?) && (req.mode == Master ==> req.masterModeTags.Some?)
  {
    if req.mode == Easy && req.clothes.None? then Fail(Common(EasyWithoutClothes))
    else if req.mode == Master && req.masterModeTags.None? then Fail(Common(MasterWithoutTags))
    else Pass
  }

  /** `verifyInputImage`: the format of the string first, then the
      constraints on what it decodes to (`probe`). */
  function VerifyInputImage(s: string, probe: ImageProbe): (r: Outcome<ServiceError>)
    ensures !IsValidBase64Image(s) ==> r == Fail(Common(InvalidImageFormat))
    ensures r.Pass? <==> IsValidBase64Image(s) && MeetsConstraints(probe)
    ensures IsValidBase64Image(s) && !MeetsConstraints(probe) ==>
      r == Fail(Common(ImageRejected(ValidateImageConstraints(probe).error)))
  {
    if !ValidateImageFormat(s).0 then Fail(Common(InvalidImageFormat))
    else
      match ValidateImageConstraints(probe)
      case Fail(e) => Fail(Common(ImageRejected(e)))
      case Pass => Pass
  }

  /** `verifyImageQuality`: exactly four images, and an empty list has its own message. */
  function VerifyImageQuality(outputs: seq<string>): (r: Outcome<ServiceError>)
    ensures r.Pass? <==> |outputs| == 4
    ensures outputs == [] ==> r == Fail(Common(EmptyOutput))
    ensures outputs != [] && |outputs| != 4 ==> r == Fail(Common(WrongOutputCount(|outputs|)))
  {
    if outputs == [] then Fail(Common(EmptyOutput))
    else if |outputs| != 4 then Fail(Common(WrongOutputCount(|outputs|)))
    else Pass
  }

  /** Easy requests with clothes get garment images; `clothes` is a model
      instance, so it is truthy exactly when present. */
  predicate LoadsGarments(req: Dto.Request)
  {
    req.mode == Easy && req.clothes.Some?
  }

  /** `createPictureInputBase64List` once built, or the `ParamException` the
      loader's failure becomes. */
  function InputImages(req: Dto.Request, loader: ClothesLoader): (r: Result<seq<string>, ServiceError>)
    ensures r.Success? ==> |r.value| >= 1 && r.value[0] == req.originPicBase64
    ensures !LoadsGarments(req) ==> r == Success([req.originPicBase64])
    ensures r.Failure? ==> LoadsGarments(req) && r.error.Param?
  {
    if LoadsGarments(req) then
      var c := req.clothes.value;
      match loader(req.gender, c.upperStyle, c.lowerStyle, c.dress)
      case Loaded(images) => Success([req.originPicBase64] + images)
      case LoaderValueError(m) => Failure(Param(ParamInvalid, m))
      case LoaderFileNotFound(_) => Failure(Param(ResourceNotFound, ClothesFileMissingMessage))
    else
      Success([req.originPicBase64])
  }

  /** The input list `createPicture` builds: the origin image is appended, then the loader's images extend it. */
  method BuildInputList(req: Dto.Request, loader: ClothesLoader) returns (r: Result<seq<string>, ServiceError>)
    ensures r == InputImages(req, loader)
  {
    var inputs: seq<string> := [];
    inputs := inputs + [req.originPicBase64];
    assert inputs == [req.originPicBase64];
    if req.mode == Easy && req.clothes.Some? {
      var c := req.clothes.value;
      var loaded := loader(req.gender, c.upperStyle, c.lowerStyle, c.dress);
      match loaded {
        case LoaderValueError(m) =>
          return Failure(Param(ParamInvalid, m));
        case LoaderFileNotFound(_) =>
          return Failure(Param(ResourceNotFound, ClothesFileMissingMessage));
        case Loaded(images) =>
          inputs := inputs + images;
      }
    }
    return Success(inputs);
  }

  /** The steps both entry points share: the checks, the prompt, the input
      list and the generator's images. */
  ghost function Generated(t: PromptStrategy.PromptTemplates, req: Dto.Request, probe: ImageProbe,
                           loader: ClothesLoader, gateway: (ApiImages, string) -> Llm.GatewayRun): (r: Result<seq<string>, ServiceError>)
    ensures r.Success? ==> forall i :: 0 <= i < |r.value| ==> Text.StartsWith(r.value[i], Llm.DataImageMark)
    ensures r.Success? <==>
      && VerifyInputData(req).Pass? && VerifyInputImage(req.originPicBase64, probe).Pass?
      && InputImages(req, loader).Success?
      && Llm.SeedReamOutcome(InputImages(req, loader).value, PromptStrategy.GeneratePromptByRequest(t, req), gateway).Success?
    ensures r.Success? ==>
      r.value == Llm.SeedReamOutcome(InputImages(req, loader).value, PromptStrategy.GeneratePromptByRequest(t, req), gateway).value
    ensures VerifyInputData(req).Pass? && VerifyInputImage(req.originPicBase64, probe).Pass? && InputImages(req, loader).Failure? ==>
      r == Failure(InputImages(req, loader).error)
    ensures VerifyInputData(req).Pass? && VerifyInputImage(req.originPicBase64, probe).Pass? && InputImages(req, loader).Success? ==>
      var outcome := Llm.SeedReamOutcome(InputImages(req, loader).value, PromptStrategy.GeneratePromptByRequest(t, req), gateway);
      outcome.Failure? ==> r == Failure(Upstream(outcome.error))
  {
    match VerifyInputData(req)
    case Fail(e) => Failure(e)
    case Pass =>
      match VerifyInputImage(req.originPicBase64, probe)
      case Fail(e) => Failure(e)
      case Pass =>
        match InputImages(req, loader)
        case Failure(e) => Failure(e)
        case Success(inputs) =>
          match Llm.SeedReamOutcome(inputs, PromptStrategy.GeneratePromptByRequest(t, req), gateway)
          case Failure(m) => Failure(Upstream(m))
          case Success(images) => Success(images)
  }

  method Generate(t: PromptStrategy.PromptTemplates, req: Dto.Request, probe: ImageProbe,
                  loader: ClothesLoader, gateway: (ApiImages, string) -> Llm.GatewayRun)
    returns (r: Result<seq<string>, ServiceError>)
    ensures r == Generated(t, req, probe, loader, gateway)
  {
    var check := VerifyInputData(req);
    if check.Fail? {
      return Failure(check.error);
    }
    check := VerifyInputImage(req.originPicBase64, probe);
    if check.Fail? {
      return Failure(check.error);
    }
    var prompt := PromptStrategy.GeneratePromptByRequest(t, req);
    var inputs := BuildInputList(req, loader);
    if inputs.Failure? {
      return Failure(inputs.error);
    }
    var images := Llm.CreatePictureBySeedReam(inputs.value, prompt, gateway);
    if images.Failure? {
      return Failure(Upstream(images.error));
    }
    return Success(images.value);
  }

  /** The `enumerate` comprehension that builds the response items. */
  function NumberedItems(outputs: seq<string>): (items: seq<ImageItem>)
    ensures |items| == |outputs|
    ensures forall i :: 0 <= i < |items| ==> items[i].id == i && items[i].base64 == outputs[i]
  {
    seq(|outputs|, i requires 0 <= i < |outputs| => ImageItem(i, outputs[i]))
  }

  /** The end of `createPicture`: the count check, then the numbered response. */
  function Respond(outputs: seq<string>): (r: Result<seq<ImageItem>, ServiceError>)
    ensures r.Success? <==> |outputs| == 4
    ensures r.Success? ==> r.value == NumberedItems(outputs)
    ensures r.Failure? ==> r.error == VerifyImageQuality(outputs).error
  {
    match VerifyImageQuality(outputs)
    case Fail(e) => Failure(e)
    case Pass => Success(NumberedItems(outputs))
  }

  /** The response of `createPicture`, or the exception it raises. */
  ghost function PictureOutcome(t: PromptStrategy.PromptTemplates, req: Dto.Request, probe: ImageProbe,
                                loader: ClothesLoader, gateway: (ApiImages, string) -> Llm.GatewayRun): (r: Result<seq<ImageItem>, ServiceError>)
    ensures r.Success? ==> |r.value| == 4
    ensures r.Success? <==> Generated(t, req, probe, loader, gateway).Success? && |Generated(t, req, probe, loader, gateway).value| == 4
    ensures r.Success? ==> r.value == NumberedItems(Generated(t, req, probe, loader, gateway).value)
    ensures Generated(t, req, probe, loader, gateway).Failure? ==> r == Failure(Generated(t, req, probe, loader, gateway).error)
    ensures Generated(t, req, probe, loader, gateway).Success? && |Generated(t, req, probe, loader, gateway).value| != 4 ==>
      r == Failure(VerifyImageQuality(Generated(t, req, probe, loader, gateway).value).error)
  {
    match Generated(t, req, probe, loader, gateway)
    case Failure(e) => Failure(e)
    case Success(outputs) => Respond(outputs)
  }

  /** The `async for` of `createPicture`: each image the generator yields is appended as it arrives. */
  method ReceiveAll(images: seq<string>) returns (outputs: seq<string>)
    ensures outputs == images
  {
    outputs := [];
    for i := 0 to |images|
      invariant outputs == images[..i]
    {
      outputs := outputs + [images[i]];
    }
    assert images[..|images|] == images;
  }

  /** `createPicture`: the generator's images are received, checked for
      count, and numbered. */
  method CreatePicture(t: PromptStrategy.PromptTemplates, req: Dto.Request, probe: ImageProbe,
                       loader: ClothesLoader, gateway: (ApiImages, string) -> Llm.GatewayRun)
    returns (r: Result<seq<ImageItem>, ServiceError>)
    ensures r == PictureOutcome(t, req, probe, loader, gateway)
  {
    var generated := Generate(t, req, probe, loader, gateway);
    if generated.Failure? {
      return Failure(generated.error);
    }
    var outputs := ReceiveAll(generated.value);
    return Respond(outputs);
  }

  /** One pushed event per image, numbered in order of receipt. */
  function PushedEvents(images: seq<string>): (events: seq<SseEvent>)
    ensures |events| == |images|
    ensures forall i :: 0 <= i < |events| ==> events[i] == ImagePushed(i, images[i])
  {
    seq(|images|, i requires 0 <= i < |images| => ImagePushed(i, images[i]))
  }

  /** The `async for` of `createPictureStream`: every image is pushed with the current `image_count`,
      which then goes up by one; the completed event carries the final count. */
  method PushAll(images: seq<string>) returns (events: seq<SseEvent>)
    ensures events == PushedEvents(images) + [StreamCompleted(|images|)]
  {
    events := [];
    var imageCount: nat := 0;
    for i := 0 to |images|
      invariant imageCount == i
      invariant |events| == i
      invariant forall j :: 0 <= j < i ==> events[j] == ImagePushed(j, images[j])
    {
      events := events + [ImagePushed(imageCount, images[i])];
      imageCount := imageCount + 1;
    }
    assert events == PushedEvents(images);
    events := events + [StreamCompleted(imageCount)];
  }

  /** The events `createPictureStream` yields, or the exception it raises
      before yielding anything. */
  ghost function StreamOutcome(t: PromptStrategy.PromptTemplates, req: Dto.Request, probe: ImageProbe,
                               loader: ClothesLoader, gateway: (ApiImages, string) -> Llm.GatewayRun): (r: Result<seq<SseEvent>, ServiceError>)
    ensures r.Success? ==> |r.value| >= 1 && r.value[|r.value| - 1] == StreamCompleted(|r.value| - 1)
    ensures r.Success? <==> Generated(t, req, probe, loader, gateway).Success?
    ensures Generated(t, req, probe, loader, gateway).Failure? ==> r == Failure(Generated(t, req, probe, loader, gateway).error)
  {
    match Generated(t, req, probe, loader, gateway)
    case Failure(e) => Failure(e)
    case Success(images) => Success(PushedEvents(images) + [StreamCompleted(|images|)])
  }

  /** `createPictureStream`: the same checks and generation, then the pushed
      events. There is no count check here. */
  method CreatePictureStream(t: PromptStrategy.PromptTemplates, req: Dto.Request, probe: ImageProbe,
                             loader: ClothesLoader, gateway: (ApiImages, string) -> Llm.GatewayRun)
    returns (r: Result<seq<SseEvent>, ServiceError>)
    ensures r == StreamOutcome(t, req, probe, loader, gateway)
  {
    var generated := Generate(t, req, probe, loader, gateway);
    if generated.Failure? {
      return Failure(generated.error);
    }
    var events := PushAll(generated.value);
    return Success(events);
  }

  /** A request that passes both checks, whose garments load and whose
      generator call finishes its stream, gets exactly the images that stream
      collects: the partial images in index order, or the `data` fallback.
      The stream carries all of them; the response exists iff there are four. */
  lemma {:induction false} ServiceDeliversCollectedImages(t: PromptStrategy.PromptTemplates, req: Dto.Request, probe: ImageProbe,
                                                          loader: ClothesLoader, gateway: (ApiImages, string) -> Llm.GatewayRun,
                                                          inputs: seq<string>, events: seq<Llm.StreamEvent>, data: seq<Llm.ImageData>)
    ensures
      && VerifyInputData(req).Pass? && VerifyInputImage(req.originPicBase64, probe).Pass?
      && InputImages(req, loader) == Success(inputs)
      && PrepareImageListForApi(inputs).Success?
      && gateway(PrepareImageListForApi(inputs).value, PromptStrategy.GeneratePromptByRequest(t, req)) == Llm.Streamed(events, data)
      ==>
      var images := Llm.CollectedImages(events, data);
      && Generated(t, req, probe, loader, gateway) == Success(images)
      && StreamOutcome(t, req, probe, loader, gateway) == Success(PushedEvents(images) + [StreamCompleted(|images|)])
      && (PictureOutcome(t, req, probe, loader, gateway).Success? <==> |images| == 4)
  {
    var prompt := PromptStrategy.GeneratePromptByRequest(t, req);
    if && VerifyInputData(req).Pass? && VerifyInputImage(req.originPicBase64, probe).Pass?
       && InputImages(req, loader) == Success(inputs)
       && PrepareImageListForApi(inputs).Success?
       && gateway(PrepareImageListForApi(inputs).value, prompt) == Llm.Streamed(events, data)
    {
      assert Llm.SeedReamOutcome(inputs, prompt, gateway) == Success(Llm.CollectedImages(events, data));
    }
  }

  /** A failed request check, or a rejected origin image, is what the caller
      sees, whatever the templates, loader and generator would have done. */
  lemma {:induction false} ChecksComeFirst(t1: PromptStrategy.PromptTemplates, t2: PromptStrategy.PromptTemplates,
                                           req: Dto.Request, probe: ImageProbe,
                                           l1: ClothesLoader, l2: ClothesLoader,
                                           g1: (ApiImages, string) -> Llm.GatewayRun, g2: (ApiImages, string) -> Llm.GatewayRun)
    requires VerifyInputData(req).Fail? || VerifyInputImage(req.originPicBase64, probe).Fail?
    ensures Generated(t1, req, probe, l1, g1) == Generated(t2, req, probe, l2, g2)
    ensures VerifyInputData(req).Fail? ==> Generated(t1, req, probe, l1, g1) == Failure(VerifyInputData(req).error)
    ensures VerifyInputData(req).Pass? ==>
      Generated(t1, req, probe, l1, g1) == Failure(VerifyInputImage(req.originPicBase64, probe).error)
  {
    if VerifyInputData(req).Pass? {
      assert VerifyInputImage(req.originPicBase64, probe).Fail?;
    }
  }

  /** The origin goes first; a Master request, or an Easy one without clothes,
      sends the origin alone; garments follow it in the loader's order. */
  lemma OriginFirst(req: Dto.Request, loader: ClothesLoader)
    ensures req.mode == Master ==> InputImages(req, loader) == Success([req.originPicBase64])
    ensures LoadsGarments(req) ==>
      var c := req.clothes.value;
      var loaded := loader(req.gender, c.upperStyle, c.lowerStyle, c.dress);
      loaded.Loaded? ==> InputImages(req, loader) == Success([req.originPicBase64] + loaded.images)
  {
  }

  /** A ValueError of the loader becomes PARAM_INVALID with its own message;
      a FileNotFoundError becomes RESOURCE_NOT_FOUND with the fixed message,
      whatever the loader said. */
  lemma LoaderErrorsMapped(req: Dto.Request, loader: ClothesLoader)
    requires LoadsGarments(req)
    ensures var c := req.clothes.value;
      var loaded := loader(req.gender, c.upperStyle, c.lowerStyle, c.dress);
      && (loaded.LoaderValueError? ==> InputImages(req, loader) == Failure(Param(ParamInvalid, loaded.message)))
      && (loaded.LoaderFileNotFound? ==> InputImages(req, loader) == Failure(Param(ResourceNotFound, ClothesFileMissingMessage)))
  {
  }

  /** Once both checks pass, a loader failure is what both entry points
      raise: a ValueError as PARAM_INVALID with its message, a missing file
      as RESOURCE_NOT_FOUND with the fixed message. */
  lemma {:induction false} LoaderErrorReachesCaller(t: PromptStrategy.PromptTemplates, req: Dto.Request, probe: ImageProbe,
                                                    loader: ClothesLoader, gateway: (ApiImages, string) -> Llm.GatewayRun)
    ensures VerifyInputData(req).Pass? && VerifyInputImage(req.originPicBase64, probe).Pass? && LoadsGarments(req) ==>
      var c := req.clothes.value;
      var loaded := loader(req.gender, c.upperStyle, c.lowerStyle, c.dress);
      && (loaded.LoaderValueError? ==>
            && PictureOutcome(t, req, probe, loader, gateway) == Failure(Param(ParamInvalid, loaded.message))
            && StreamOutcome(t, req, probe, loader, gateway) == Failure(Param(ParamInvalid, loaded.message)))
      && (loaded.LoaderFileNotFound? ==>
            && PictureOutcome(t, req, probe, loader, gateway) == Failure(Param(ResourceNotFound, ClothesFileMissingMessage))
            && StreamOutcome(t, req, probe, loader, gateway) == Failure(Param(ResourceNotFound, ClothesFileMissingMessage)))
  {
    if VerifyInputData(req).Pass? && VerifyInputImage(req.originPicBase64, probe).Pass? && LoadsGarments(req) {
      LoaderErrorsMapped(req, loader);
    }
  }

  /** The response numbers the generator's images 0..n-1 in the order they
      came, each payload unchanged, and there are exactly four. */
  lemma {:induction false} ResponseItemsNumbered(t: PromptStrategy.PromptTemplates, req: Dto.Request, probe: ImageProbe,
                                                 loader: ClothesLoader, gateway: (ApiImages, string) -> Llm.GatewayRun)
    ensures var images := Generated(t, req, probe, loader, gateway);
      var response := PictureOutcome(t, req, probe, loader, gateway);
      response.Success? ==>
        && images.Success? && |images.value| == 4 && |response.value| == 4
        && forall i :: 0 <= i < 4 ==> response.value[i] == ImageItem(i, images.value[i])
  {
    var images := Generated(t, req, probe, loader, gateway);
    if PictureOutcome(t, req, probe, loader, gateway).Success? {
      assert images.Success?;
      assert VerifyImageQuality(images.value).Pass?;
    }
  }

  /** The stream pushes the images with indices 0..n-1 in the order they came,
      then exactly one completed event whose total is n. */
  lemma {:induction false} StreamEventsNumbered(t: PromptStrategy.PromptTemplates, req: Dto.Request, probe: ImageProbe,
                                                loader: ClothesLoader, gateway: (ApiImages, string) -> Llm.GatewayRun)
    ensures var images := Generated(t, req, probe, loader, gateway);
      var stream := StreamOutcome(t, req, probe, loader, gateway);
      stream.Success? ==>
        var n := |images.value|;
        && images.Success? && |stream.value| == n + 1
        && (forall i :: 0 <= i < n ==> stream.value[i] == ImagePushed(i, images.value[i]))
        && stream.value[n] == StreamCompleted(n)
        && forall i :: 0 <= i < n ==> !stream.value[i].StreamCompleted?
  {
    var images := Generated(t, req, probe, loader, gateway);
    if StreamOutcome(t, req, probe, loader, gateway).Success? {
      assert images.Success?;
      var events := StreamOutcome(t, req, probe, loader, gateway).value;
      assert events == PushedEvents(images.value) + [StreamCompleted(|images.value|)];
    }
  }

  /** The two entry points agree: `createPicture` answers exactly when the
      stream does and four images came, and then its items carry the pushed
      images in the same order. */
  lemma {:induction false} PictureMatchesStream(t: PromptStrategy.PromptTemplates, req: Dto.Request, probe: ImageProbe,
                                                loader: ClothesLoader, gateway: (ApiImages, string) -> Llm.GatewayRun)
    ensures var p := PictureOutcome(t, req, probe, loader, gateway);
      var s := StreamOutcome(t, req, probe, loader, gateway);
      && (p.Success? <==> s.Success? && |s.value| == 5)
      && (p.Success? ==> forall i :: 0 <= i < 4 ==> s.value[i] == ImagePushed(p.value[i].id, p.value[i].base64))
  {
    var images := Generated(t, req, probe, loader, gateway);
    if images.Success? {
      var s := StreamOutcome(t, req, probe, loader, gateway).value;
      assert s == PushedEvents(images.value) + [StreamCompleted(|images.value|)];
      assert |s| == |images.value| + 1;
    }
  }

  /** The request model lets an Easy request without clothes through when
      the field is left out; the service's own check is what refuses it. */
  lemma {:induction false} ServiceRecheckNeeded(origin: string, city: City, gender: Gender)
    ensures var raw := Dto.RawRequest(origin, city, gender, Easy, Dto.Omitted, Dto.Omitted);
      && Dto.ValidateRequest(raw).Success?
      && VerifyInputData(Dto.ValidateRequest(raw).value) == Fail(Common(EasyWithoutClothes))
  {
    Dto.OmittedFieldsPass(origin, city, gender);
  }
}
