/** The request of dto/createPictureReqDto.py: the `Clothes` combination rule,
    the two mode-dependent field validators, and the gender/clothes cross-check,
    composed in the order pydantic runs them. Style ids are integers here. */
module CreatePictureReqDto {
  import opened Wrappers
  import opened Enums

  /** Garment selection; each slot holds a style id or is unset. */
  datatype Clothes = Clothes(upperStyle: Option<int>, lowerStyle: Option<int>, dress: Option<int>)

  /** A top and a bottom, and no dress. */
  predicate IsTopAndBottom(c: Clothes)
  {
    c.upperStyle.Some? && c.lowerStyle.Some? && c.dress.None?
  }

  /** A dress alone. */
  predicate IsDressOnly(c: Clothes)
  {
    c.dress.Some? && c.upperStyle.None? && c.lowerStyle.None?
  }

  /** The four messages `validate_clothes_combination` can raise. */
  datatype ClothesError = NoGarment | DressWithTopOrBottom | UpperWithoutLower | LowerWithoutUpper

  /** `Clothes.validate_clothes_combination`: at least one slot, a dress excludes
      the top and the bottom, and a top and a bottom come as a pair. */
  function ValidateClothesCombination(c: Clothes): (r: Outcome<ClothesError>)
    ensures r == Fail(NoGarment) <==> c.upperStyle.None? && c.lowerStyle.None? && c.dress.None?
    ensures r == Fail(DressWithTopOrBottom) <==> c.dress.Some? && (c.upperStyle.Some? || c.lowerStyle.Some?)
    ensures r == Fail(UpperWithoutLower) <==> c.dress.None? && c.upperStyle.Some? && c.lowerStyle.None?
    ensures r == Fail(LowerWithoutUpper) <==> c.dress.None? && c.upperStyle.None? && c.lowerStyle.Some?
    ensures r.Pass? <==> IsTopAndBottom(c) || IsDressOnly(c)
  {
    var hasUpper := c.upperStyle.Some?;
    var hasLower := c.lowerStyle.Some?;
    var hasDress := c.dress.Some?;
    if !(hasUpper || hasLower || hasDress) then Fail(NoGarment)
    else if hasDress && (hasUpper || hasLower) then Fail(DressWithTopOrBottom)
    else if !hasDress && hasUpper && !hasLower then Fail(UpperWithoutLower)
    else if !hasDress && hasLower && !hasUpper then Fail(LowerWithoutUpper)
    else Pass
  }

  datatype MasterModeTags = MasterModeTags(
    style: Option<Style>,
    material: Option<Material>,
    color: Option<Color>,
    garmentType: Option<GarmentType>)

  /** An optional field as it arrives: left out (pydantic keeps the default and
      runs no field validator), given as null, or given a value. */
  datatype Field<T> = Omitted | Null | Given(value: T)

  /** The body before validation. Unknown enum values are already excluded by the types. */
  datatype RawRequest = RawRequest(
    originPicBase64: string,
    city: City,
    gender: Gender,
    mode: Mode,
    clothes: Field<Clothes>,
    masterModeTags: Field<MasterModeTags>)

  /** A `CreatePictureReqDto` instance. */
  datatype Request = Request(
    originPicBase64: string,
    city: City,
    gender: Gender,
    mode: Mode,
    clothes: Option<Clothes>,
    masterModeTags: Option<MasterModeTags>)

  datatype ReqError =
    | ClothesInvalid(reason: ClothesError)
    | EasyWithoutClothes
    | MasterWithoutTags
    | MaleWithDress
    | MaleWithoutTopAndBottom
    | FemaleDressWithTopOrBottom
    | FemaleTopWithoutBottom

  /** Parsing of the `clothes` field: the nested model's own validator, then
      `validate_clothes_for_easy_mode`, which runs only when the field is given. */
  function ValidateClothesField(mode: Mode, f: Field<Clothes>): (r: Result<Option<Clothes>, ReqError>)
    ensures r == Failure(EasyWithoutClothes) <==> mode == Easy && f == Null
    ensures r.Failure? <==> (mode == Easy && f == Null) || (f.Given? && ValidateClothesCombination(f.value).Fail?)
    ensures f.Omitted? ==> r == Success(None)
    ensures r.Success? && r.value.Some? ==> f == Given(r.value.value) && ValidateClothesCombination(r.value.value).Pass?
    ensures f.Given? && r.Failure? ==> r.error == ClothesInvalid(ValidateClothesCombination(f.value).error)
    ensures f.Given? ==> (r.Success? <==> ValidateClothesCombination(f.value).Pass?)
  {
    match f
    case Omitted => Success(None)
    case Null => if mode == Easy then Failure(EasyWithoutClothes) else Success(None)
    case Given(c) =>
      match ValidateClothesCombination(c)
      case Fail(e) => Failure(ClothesInvalid(e))
      case Pass => Success(Some(c))
  }

  /** Parsing of the `master_mode_tags` field with
      `validate_master_mode_tags_for_master_mode`, which runs only when the field is given. */
  function ValidateTagsField(mode: Mode, f: Field<MasterModeTags>): (r: Result<Option<MasterModeTags>, ReqError>)
    ensures r.Failure? <==> mode == Master && f == Null
    ensures r.Failure? ==> r.error == MasterWithoutTags
    ensures r.Success? ==> r.value == if f.Given? then Some(f.value) else None
  {
    match f
    case Omitted => Success(None)
    case Null => if mode == Master then Failure(MasterWithoutTags) else Success(None)
    case Given(t) => Success(Some(t))
  }

  /** `validate_gender_and_clothes`: only Easy requests with clothes are
      cross-checked. A man must choose a top and a bottom and no dress; a woman
      may not combine a dress with a top or bottom, and a top needs a bottom. */
  function ValidateGenderAndClothes(req: Request): (r: Outcome<ReqError>)
    ensures req.mode == Master || req.clothes.None? ==> r == Pass
    ensures req.mode == Easy && req.gender == Male && req.clothes.Some? ==>
      var c := req.clothes.value;
      && (r == Fail(MaleWithDress) <==> c.dress.Some?)
      && (r == Fail(MaleWithoutTopAndBottom) <==> c.dress.None? && (c.upperStyle.None? || c.lowerStyle.None?))
      && (r.Pass? <==> IsTopAndBottom(c))
    ensures req.mode == Easy && req.gender == Female && req.clothes.Some? ==>
      var c := req.clothes.value;
      && (r == Fail(FemaleDressWithTopOrBottom) <==> c.dress.Some? && (c.upperStyle.Some? || c.lowerStyle.Some?))
      && (r == Fail(FemaleTopWithoutBottom) <==> c.dress.None? && (c.upperStyle.Some? != c.lowerStyle.Some?))
      && (r.Pass? <==> IsTopAndBottom(c) || IsDressOnly(c) || c == Clothes(None, None, None))
  {
    if req.mode == Easy && req.clothes.Some? then
      var c := req.clothes.value;
      match req.gender
      case Male =>
        if c.dress.Some? then Fail(MaleWithDress)
        else if c.upperStyle.None? || c.lowerStyle.None? then Fail(MaleWithoutTopAndBottom)
        else Pass
      case Female =>
        var hasDress := c.dress.Some?;
        var hasUpperLower := c.upperStyle.Some? || c.lowerStyle.Some?;
        if hasDress && hasUpperLower then Fail(FemaleDressWithTopOrBottom)
        else if hasUpperLower && !hasDress && (c.upperStyle.None? || c.lowerStyle.None?) then Fail(FemaleTopWithoutBottom)
        else Pass
    else
      Pass
  }

  /** Every field error pydantic collects, in field order. */
  function FieldErrors(raw: RawRequest): (errs: seq<ReqError>)
    ensures |errs| <= 2
    ensures errs == [] <==> ValidateClothesField(raw.mode, raw.clothes).Success? && ValidateTagsField(raw.mode, raw.masterModeTags).Success?
    ensures ValidateClothesField(raw.mode, raw.clothes).Failure? ==>
      |errs| >= 1 && errs[0] == ValidateClothesField(raw.mode, raw.clothes).error
    ensures ValidateTagsField(raw.mode, raw.masterModeTags).Failure? ==>
      |errs| >= 1 && errs[|errs| - 1] == MasterWithoutTags
    ensures |errs| == 2 <==>
      ValidateClothesField(raw.mode, raw.clothes).Failure? && ValidateTagsField(raw.mode, raw.masterModeTags).Failure?
  {
    var c := ValidateClothesField(raw.mode, raw.clothes);
    var t := ValidateTagsField(raw.mode, raw.masterModeTags);
    (if c.Failure? then [c.error] else []) + (if t.Failure? then [t.error] else [])
  }

  /** The request built from fields that each passed their validator. */
  function ParsedRequest(raw: RawRequest): Request
  {
    Request(raw.originPicBase64, raw.city, raw.gender, raw.mode,
            if raw.clothes.Given? then Some(raw.clothes.value) else None,
            if raw.masterModeTags.Given? then Some(raw.masterModeTags.value) else None)
  }

  /** Construction of a `CreatePictureReqDto`: the field validators first, all
      of their errors together; the model validator only once every field is valid. */
  function ValidateRequest(raw: RawRequest): (r: Result<Request, seq<ReqError>>)
    ensures r.Failure? ==> r.error != []
    ensures FieldErrors(raw) != [] ==> r == Failure(FieldErrors(raw))
    ensures FieldErrors(raw) == [] && ValidateGenderAndClothes(ParsedRequest(raw)).Fail? ==>
      r == Failure([ValidateGenderAndClothes(ParsedRequest(raw)).error])
    ensures raw.mode == Easy ==>
      (r.Success? <==> raw.clothes.Omitted? ||
                       (raw.clothes.Given? && (IsTopAndBottom(raw.clothes.value)
                                               || (raw.gender == Female && IsDressOnly(raw.clothes.value)))))
    ensures raw.mode == Master ==>
      (r.Success? <==> !raw.masterModeTags.Null? &&
                       (raw.clothes.Given? ==> IsTopAndBottom(raw.clothes.value) || IsDressOnly(raw.clothes.value)))
    ensures raw.mode == Easy && raw.clothes == Null ==> r.Failure? && EasyWithoutClothes in r.error
    ensures raw.mode == Master && raw.masterModeTags == Null ==> r.Failure? && MasterWithoutTags in r.error
    ensures r.Success? ==>
      && r.value.originPicBase64 == raw.originPicBase64 && r.value.city == raw.city
      && r.value.gender == raw.gender && r.value.mode == raw.mode
      && r.value.clothes == (if raw.clothes.Given? then Some(raw.clothes.value) else None)
      && r.value.masterModeTags == (if raw.masterModeTags.Given? then Some(raw.masterModeTags.value) else None)
  {
    var errs := FieldErrors(raw);
    if errs != [] then Failure(errs)
    else
      var req := ParsedRequest(raw);
      match ValidateGenderAndClothes(req)
      case Fail(e) => Failure([e])
      case Pass => Success(req)
  }

  /** Which error a rejection carries: a man's dress alone passes the
      `Clothes` rule and is refused by the cross-check; a woman's top with a
      dress is refused by the `Clothes` rule itself, before any cross-check. */
  lemma RejectionReasons(origin: string, city: City, style: int, tags: Field<MasterModeTags>)
    ensures ValidateRequest(RawRequest(origin, city, Male, Easy, Given(Clothes(None, None, Some(style))), tags))
            == Failure([MaleWithDress])
    ensures ValidateRequest(RawRequest(origin, city, Female, Easy, Given(Clothes(Some(style), None, Some(style))), tags))
            == Failure([ClothesInvalid(DressWithTopOrBottom)])
  {
    var raw := RawRequest(origin, city, Female, Easy, Given(Clothes(Some(style), None, Some(style))), tags);
    assert ValidateTagsField(Easy, tags).Success?;
    assert FieldErrors(raw) == [ClothesInvalid(DressWithTopOrBottom)];
  }

  /** The female checks never reject a selection the `Clothes` validator already accepted. */
  lemma FemaleChecksRedundant(req: Request)
    requires req.gender == Female && req.clothes.Some?
    requires ValidateClothesCombination(req.clothes.value).Pass?
    ensures ValidateGenderAndClothes(req) == Pass
  {
  }

  /** An accepted Easy request that carries clothes holds a top and a bottom, or
      a dress alone; a man's holds a top and a bottom. */
  lemma {:induction false} AcceptedEasyShape(raw: RawRequest)
    requires ValidateRequest(raw).Success?
    requires raw.mode == Easy && raw.clothes.Given?
    ensures IsTopAndBottom(raw.clothes.value) || IsDressOnly(raw.clothes.value)
    ensures raw.gender == Male ==> IsTopAndBottom(raw.clothes.value)
  {
    assert FieldErrors(raw) == [];
    var req := ValidateRequest(raw).value;
    assert req.clothes == Some(raw.clothes.value);
    assert ValidateGenderAndClothes(req) == Pass;
  }

  /** A Master request is never cross-checked against its clothes: it is
      accepted exactly when its fields are. */
  lemma {:induction false} MasterSkipsCrossCheck(raw: RawRequest)
    requires raw.mode == Master
    ensures ValidateRequest(raw).Success? <==> FieldErrors(raw) == []
  {
    if FieldErrors(raw) == [] {
      var req := Request(raw.originPicBase64, raw.city, raw.gender, raw.mode,
                         ValidateClothesField(raw.mode, raw.clothes).value,
                         ValidateTagsField(raw.mode, raw.masterModeTags).value);
      assert ValidateGenderAndClothes(req) == Pass;
    }
  }

  /** The field validators never run on a left-out field, so an Easy request
      without clothes, or a Master request without tags, is accepted here. */
  lemma OmittedFieldsPass(origin: string, city: City, gender: Gender)
    ensures ValidateRequest(RawRequest(origin, city, gender, Easy, Omitted, Omitted))
            == Success(Request(origin, city, gender, Easy, None, None))
    ensures ValidateRequest(RawRequest(origin, city, gender, Master, Omitted, Omitted))
            == Success(Request(origin, city, gender, Master, None, None))
  {
  }
}
