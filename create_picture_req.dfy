/** The earlier request model of model/createPictureReq.py: style ids are
    strings, the origin image is optional (the controller fills it in later),
    and the male branch also inspects `master_mode_tags.type`, which fails
    with an AttributeError when the tags were not given. */
module CreatePictureReq {
  import opened Wrappers
  import opened Enums
  import Dto = CreatePictureReqDto

  datatype Clothes = Clothes(upperStyle: Option<string>, lowerStyle: Option<string>, dress: Option<string>)

  predicate IsTopAndBottom(c: Clothes)
  {
    c.upperStyle.Some? && c.lowerStyle.Some? && c.dress.None?
  }

  predicate IsDressOnly(c: Clothes)
  {
    c.dress.Some? && c.upperStyle.None? && c.lowerStyle.None?
  }

  /** `Clothes.validate_clothes_combination`, the same rule over string ids. */
  function ValidateClothesCombination(c: Clothes): (r: Outcome<Dto.ClothesError>)
    ensures r == Fail(Dto.NoGarment) <==> c.upperStyle.None? && c.lowerStyle.None? && c.dress.None?
    ensures r == Fail(Dto.DressWithTopOrBottom) <==> c.dress.Some? && (c.upperStyle.Some? || c.lowerStyle.Some?)
    ensures r.Pass? <==> IsTopAndBottom(c) || IsDressOnly(c)
  {
    var hasUpper := c.upperStyle.Some?;
    var hasLower := c.lowerStyle.Some?;
    var hasDress := c.dress.Some?;
    if !(hasUpper || hasLower || hasDress) then Fail(Dto.NoGarment)
    else if hasDress && (hasUpper || hasLower) then Fail(Dto.DressWithTopOrBottom)
    else if !hasDress && hasUpper && !hasLower then Fail(Dto.UpperWithoutLower)
    else if !hasDress && hasLower && !hasUpper then Fail(Dto.LowerWithoutUpper)
    else Pass
  }

  /** Which slots are filled, as integer-id clothes of the DTO. */
  function Presence(c: Clothes): Dto.Clothes
  {
    Dto.Clothes(if c.upperStyle.Some? then Some(0) else None,
                if c.lowerStyle.Some? then Some(0) else None,
                if c.dress.Some? then Some(0) else None)
  }

  /** Both iterations of `Clothes` decide alike: the verdict depends only on
      which slots are filled, never on the ids. */
  lemma SameCombinationRules(c: Clothes)
    ensures ValidateClothesCombination(c) == Dto.ValidateClothesCombination(Presence(c))
  {
  }

  datatype RawRequest = RawRequest(
    originPicBase64: Option<string>,
    city: City,
    gender: Gender,
    mode: Mode,
    clothes: Dto.Field<Clothes>,
    masterModeTags: Dto.Field<Dto.MasterModeTags>)

  /** A `CreatePictureRequest` instance. */
  datatype Request = Request(
    originPicBase64: Option<string>,
    city: City,
    gender: Gender,
    mode: Mode,
    clothes: Option<Clothes>,
    masterModeTags: Option<Dto.MasterModeTags>)

  datatype ReqError =
    | ClothesInvalid(reason: Dto.ClothesError)
    | EasyWithoutClothes
    | MasterWithoutTags
    | MaleWithDress
    | MaleWithoutTopAndBottom
    | MaleWithDressType
    | FemaleDressWithTopOrBottom
    | FemaleTopWithoutBottom

  /** A validation error pydantic reports, or the AttributeError that escapes
      the model validator when it reads `type` of absent tags. */
  datatype Rejection = Invalid(errors: seq<ReqError>) | AttributeErrorOnNone

  function ValidateClothesField(mode: Mode, f: Dto.Field<Clothes>): (r: Result<Option<Clothes>, ReqError>)
    ensures r == Failure(EasyWithoutClothes) <==> mode == Easy && f == Dto.Null
    ensures r.Failure? <==> (mode == Easy && f == Dto.Null) || (f.Given? && ValidateClothesCombination(f.value).Fail?)
    ensures f.Omitted? ==> r == Success(None)
    ensures f.Given? ==> (r.Success? <==> ValidateClothesCombination(f.value).Pass?)
    ensures r.Success? && r.value.Some? ==> f == Dto.Given(r.value.value)
    ensures f.Given? && r.Failure? ==> r.error == ClothesInvalid(ValidateClothesCombination(f.value).error)
  {
    match f
    case Omitted => Success(None)
    case Null => if mode == Easy then Failure(EasyWithoutClothes) else Success(None)
    case Given(c) =>
      match ValidateClothesCombination(c)
      case Fail(e) => Failure(ClothesInvalid(e))
      case Pass => Success(Some(c))
  }

  function ValidateTagsField(mode: Mode, f: Dto.Field<Dto.MasterModeTags>): (r: Result<Option<Dto.MasterModeTags>, ReqError>)
    ensures r.Failure? <==> mode == Master && f == Dto.Null
    ensures r.Failure? ==> r.error == MasterWithoutTags
    ensures r.Success? ==> r.value == if f.Given? then Some(f.value) else None
  {
    match f
    case Omitted => Success(None)
    case Null => if mode == Master then Failure(MasterWithoutTags) else Success(None)
    case Given(t) => Success(Some(t))
  }

  /** `validate_gender_and_clothes` of this iteration. A man's valid top and
      bottom are further checked against the tags' garment type: tags of type
      Dress are refused, and missing tags crash. */
  function ValidateGenderAndClothes(req: Request): (r: Result<(), Rejection>)
    ensures req.mode == Master || req.clothes.None? ==> r.Success?
    ensures req.mode == Easy && req.gender == Male && req.clothes.Some? ==>
      (r.Success? <==> IsTopAndBottom(req.clothes.value) && req.masterModeTags.Some?
                       && req.masterModeTags.value.garmentType != Some(GarmentType.Dress))
    ensures req.mode == Easy && req.gender == Male && req.clothes.Some? ==>
      var c := req.clothes.value;
      && (r == Failure(Invalid([MaleWithDress])) <==> c.dress.Some?)
      && (r == Failure(Invalid([MaleWithoutTopAndBottom])) <==> c.dress.None? && (c.upperStyle.None? || c.lowerStyle.None?))
      && (r == Failure(Invalid([MaleWithDressType])) <==>
            IsTopAndBottom(c) && req.masterModeTags.Some? && req.masterModeTags.value.garmentType == Some(GarmentType.Dress))
    ensures req.mode == Easy && req.gender == Female && req.clothes.Some? ==>
      var c := req.clothes.value;
      && (r == Failure(Invalid([FemaleDressWithTopOrBottom])) <==> c.dress.Some? && (c.upperStyle.Some? || c.lowerStyle.Some?))
      && (r == Failure(Invalid([FemaleTopWithoutBottom])) <==> c.dress.None? && (c.upperStyle.Some? != c.lowerStyle.Some?))
    ensures r == Failure(AttributeErrorOnNone) <==>
      req.mode == Easy && req.gender == Male && req.clothes.Some?
      && IsTopAndBottom(req.clothes.value) && req.masterModeTags.None?
    ensures req.mode == Easy && req.gender == Female && req.clothes.Some? ==>
      (r.Success? <==> IsTopAndBottom(req.clothes.value) || IsDressOnly(req.clothes.value)
                       || req.clothes.value == Clothes(None, None, None))
  {
    if req.mode == Easy && req.clothes.Some? then
      var c := req.clothes.value;
      match req.gender
      case Male =>
        if c.dress.Some? then Failure(Invalid([MaleWithDress]))
        else if c.upperStyle.None? || c.lowerStyle.None? then Failure(Invalid([MaleWithoutTopAndBottom]))
        else if req.masterModeTags.None? then Failure(AttributeErrorOnNone)
        else if req.masterModeTags.value.garmentType == Some(GarmentType.Dress) then Failure(Invalid([MaleWithDressType]))
        else Success(())
      case Female =>
        var hasDress := c.dress.Some?;
        var hasUpperLower := c.upperStyle.Some? || c.lowerStyle.Some?;
        if hasDress && hasUpperLower then Failure(Invalid([FemaleDressWithTopOrBottom]))
        else if hasUpperLower && !hasDress && (c.upperStyle.None? || c.lowerStyle.None?) then Failure(Invalid([FemaleTopWithoutBottom]))
        else Success(())
    else
      Success(())
  }

  function FieldErrors(raw: RawRequest): (errs: seq<ReqError>)
    ensures |errs| <= 2
    ensures errs == [] <==> ValidateClothesField(raw.mode, raw.clothes).Success? && ValidateTagsField(raw.mode, raw.masterModeTags).Success?
    ensures ValidateClothesField(raw.mode, raw.clothes).Failure? ==>
      |errs| >= 1 && errs[0] == ValidateClothesField(raw.mode, raw.clothes).error
    ensures ValidateTagsField(raw.mode, raw.masterModeTags).Failure? ==>
      |errs| >= 1 && errs[|errs| - 1] == MasterWithoutTags
    ensures |errs| == 2 <==>
      ValidateClothesField(raw.mode, raw.clothes).Failure? && ValidateTagsField(raw.mode, raw.masterModeTags).Failure?
  {
    var c := ValidateClothesField(raw.mode, raw.clothes);
    var t := ValidateTagsField(raw.mode, raw.masterModeTags);
    (if c.Failure? then [c.error] else []) + (if t.Failure? then [t.error] else [])
  }

  /** The request built from fields that each passed their validator. */
  function ParsedRequest(raw: RawRequest): Request
  {
    Request(raw.originPicBase64, raw.city, raw.gender, raw.mode,
            if raw.clothes.Given? then Some(raw.clothes.value) else None,
            if raw.masterModeTags.Given? then Some(raw.masterModeTags.value) else None)
  }

  /** Construction of a `CreatePictureRequest`. */
  function ValidateRequest(raw: RawRequest): (r: Result<Request, Rejection>)
    ensures FieldErrors(raw) != [] ==> r == Failure(Invalid(FieldErrors(raw)))
    ensures FieldErrors(raw) == [] && ValidateGenderAndClothes(ParsedRequest(raw)).Failure? ==>
      r == Failure(ValidateGenderAndClothes(ParsedRequest(raw)).error)
    ensures raw.mode == Easy && raw.gender == Male ==>
      (r.Success? <==> raw.clothes.Omitted? ||
                       (raw.clothes.Given? && IsTopAndBottom(raw.clothes.value) && raw.masterModeTags.Given?
                        && raw.masterModeTags.value.garmentType != Some(GarmentType.Dress)))
    ensures raw.mode == Easy && raw.gender == Female ==>
      (r.Success? <==> raw.clothes.Omitted? ||
                       (raw.clothes.Given? && (IsTopAndBottom(raw.clothes.value) || IsDressOnly(raw.clothes.value))))
    ensures raw.mode == Master ==>
      (r.Success? <==> !raw.masterModeTags.Null? &&
                       (raw.clothes.Given? ==> IsTopAndBottom(raw.clothes.value) || IsDressOnly(raw.clothes.value)))
    ensures r == Failure(AttributeErrorOnNone) <==>
      raw.mode == Easy && raw.gender == Male && raw.clothes.Given?
      && IsTopAndBottom(raw.clothes.value) && !raw.masterModeTags.Given?
    ensures raw.mode == Easy && raw.clothes == Dto.Null ==> r.Failure? && r.error.Invalid? && EasyWithoutClothes in r.error.errors
    ensures raw.mode == Master && raw.masterModeTags == Dto.Null ==> r.Failure? && r.error.Invalid? && MasterWithoutTags in r.error.errors
    ensures r.Success? ==>
      && r.value.originPicBase64 == raw.originPicBase64 && r.value.city == raw.city
      && r.value.gender == raw.gender && r.value.mode == raw.mode
      && r.value.clothes == (if raw.clothes.Given? then Some(raw.clothes.value) else None)
      && r.value.masterModeTags == (if raw.masterModeTags.Given? then Some(raw.masterModeTags.value) else None)
  {
    var errs := FieldErrors(raw);
    if errs != [] then Failure(Invalid(errs))
    else
      var req := ParsedRequest(raw);
      match ValidateGenderAndClothes(req)
      case Failure(e) => Failure(e)
      case Success(_) => Success(req)
  }

  /** A man's Easy request with a valid top and bottom but no tags does not
      pass: it ends in the AttributeError, never in acceptance. */
  lemma {:induction false} MaleWithoutTagsCrashes(origin: Option<string>, city: City, upper: string, lower: string)
    ensures ValidateRequest(RawRequest(origin, city, Male, Easy,
                                       Dto.Given(Clothes(Some(upper), Some(lower), None)), Dto.Omitted))
            == Failure(AttributeErrorOnNone)
  {
    var raw := RawRequest(origin, city, Male, Easy, Dto.Given(Clothes(Some(upper), Some(lower), None)), Dto.Omitted);
    assert FieldErrors(raw) == [];
  }

  /** A man's valid top and bottom with tags of type Dress are refused with
      their own error, after the `Clothes` rule has passed; a dress alone is
      refused as a dress. */
  lemma RejectionReasons(origin: Option<string>, city: City, upper: string, lower: string, tags: Dto.MasterModeTags)
    requires tags.garmentType == Some(GarmentType.Dress)
    ensures ValidateRequest(RawRequest(origin, city, Male, Easy,
                                       Dto.Given(Clothes(Some(upper), Some(lower), None)), Dto.Given(tags)))
            == Failure(Invalid([MaleWithDressType]))
    ensures ValidateRequest(RawRequest(origin, city, Male, Easy,
                                       Dto.Given(Clothes(None, None, Some(upper))), Dto.Given(tags)))
            == Failure(Invalid([MaleWithDress]))
  {
  }

  /** A man's accepted Easy request holds a top and a bottom and tags whose type is not Dress. */
  lemma {:induction false} AcceptedMaleEasyShape(raw: RawRequest)
    requires ValidateRequest(raw).Success?
    requires raw.mode == Easy && raw.gender == Male && raw.clothes.Given?
    ensures IsTopAndBottom(raw.clothes.value)
    ensures raw.masterModeTags.Given? && raw.masterModeTags.value.garmentType != Some(GarmentType.Dress)
  {
    assert FieldErrors(raw) == [];
    var req := ValidateRequest(raw).value;
    assert req.clothes == Some(raw.clothes.value);
    assert ValidateGenderAndClothes(req).Success?;
  }

  /** The female checks add nothing to the `Clothes` validator. */
  lemma FemaleChecksRedundant(req: Request)
    requires req.gender == Female && req.clothes.Some?
    requires ValidateClothesCombination(req.clothes.value).Pass?
    ensures ValidateGenderAndClothes(req).Success?
  {
  }
}
