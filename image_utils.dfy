/** The input-image checks of utils/image_utils.py: the data-URI test, the
    normalisation that relies on it, the preparation of the list sent to the
    generator, and the numeric constraints on a decoded image. Decoding
    itself (base64 and the image library) is an input here: an `ImageProbe`. */
module ImageUtils {
  import opened Wrappers
  import opened Text

  const DataImagePrefix: string := "data:image/"
  const Base64Marker: string := ";base64,"

  predicate IsBase64Char(c: char)
  {
    'A' <= c <= 'Z' || 'a' <= c <= 'z' || '0' <= c <= '9' || c == '+' || c == '/' || c == '='
  }

  predicate AllBase64(s: string)
  {
    forall i :: 0 <= i < |s| ==> IsBase64Char(s[i])
  }

  /** The `([A-Za-z0-9+/=]+)$` tail. Python's `$` also matches before one final newline. */
  predicate IsPayload(p: string)
  {
    || (|p| >= 1 && AllBase64(p))
    || (|p| >= 2 && p[|p| - 1] == '\n' && AllBase64(p[..|p| - 1]))
  }

  /** The pattern with the format alternative fixed to `fmt`. */
  predicate MatchesFormat(s: string, fmt: string)
  {
    var n := |DataImagePrefix| + |fmt| + |Base64Marker|;
    && n <= |s|
    && Lower(s[..|DataImagePrefix|]) == DataImagePrefix
    && Lower(s[|DataImagePrefix|..|DataImagePrefix| + |fmt|]) == fmt
    && Lower(s[|DataImagePrefix| + |fmt|..n]) == Base64Marker
    && IsPayload(s[n..])
  }

  /** `is_valid_base64_image`: `^data:image/(png|jpg|jpeg);base64,([A-Za-z0-9+/=]+)$`, case-insensitive. */
  predicate IsValidBase64Image(s: string)
    ensures IsValidBase64Image(s) ==>
      && |DataImagePrefix| + 3 + |Base64Marker| < |s|
      && Lower(s[..|DataImagePrefix|]) == DataImagePrefix
      && (IsBase64Char(s[|s| - 1]) || s[|s| - 1] == '\n')
  {
    MatchesFormat(s, "png") || MatchesFormat(s, "jpg") || MatchesFormat(s, "jpeg")
  }

  /** A well-formed data URI is accepted whatever the case of its fixed parts. */
  lemma {:induction false} DataUriAccepted(head: string, fmt: string, marker: string, payload: string)
    requires Lower(head) == DataImagePrefix && Lower(marker) == Base64Marker
    requires Lower(fmt) in {"png", "jpg", "jpeg"}
    requires |payload| >= 1 && AllBase64(payload)
    ensures IsValidBase64Image(head + fmt + marker + payload)
  {
    var s := head + fmt + marker + payload;
    var lf := Lower(fmt);
    assert |head| == |DataImagePrefix| && |marker| == |Base64Marker| && |fmt| == |lf|;
    assert s[..|head|] == head;
    assert s[|head|..|head| + |fmt|] == fmt;
    assert s[|head| + |fmt|..|head| + |fmt| + |marker|] == marker;
    assert s[|head| + |fmt| + |marker|..] == payload;
    assert MatchesFormat(s, lf);
  }

  /** Only png, jpg and jpeg are accepted: a gif URI is not, whatever its payload. */
  lemma {:induction false} GifRejected(payload: string)
    ensures !IsValidBase64Image(DataImagePrefix + "gif" + Base64Marker + payload)
  {
    var s := DataImagePrefix + "gif" + Base64Marker + payload;
    assert s[11..14] == "gif";
    assert s[11..15] == "gif;";
    assert Lower("gif") == "gif";
    assert Lower("gif;") == "gif;";
  }

  /** `validate_image_format`: `(True, 'base64')` for a valid URI, else `(False, 'invalid')`. */
  function ValidateImageFormat(s: string): (r: (bool, string))
    ensures r.0 <==> IsValidBase64Image(s)
    ensures r.1 == (if IsValidBase64Image(s) then "base64" else "invalid")
  {
    if IsValidBase64Image(s) then (true, "base64") else (false, "invalid")
  }

  /** The number of ASCII letters at the start of `t`: what `[a-z]+` with
      IGNORECASE consumes. */
  function LetterRun(t: string): (n: nat)
    ensures n <= |t|
    ensures forall i :: 0 <= i < n ==> IsAsciiLetter(t[i])
    ensures n < |t| ==> !IsAsciiLetter(t[n])
  {
    if |t| > 0 && IsAsciiLetter(t[0]) then 1 + LetterRun(t[1..]) else 0
  }

  /** The lower-cased group of `^data:image/([a-z]+);base64,`, if that pattern matches. */
  function FormatToken(s: string): (r: Option<string>)
    ensures !StartsWithIgnoreCase(s, DataImagePrefix) ==> r == None
    ensures r.Some? ==> r.value != [] && forall i :: 0 <= i < |r.value| ==> 'a' <= r.value[i] <= 'z'
  {
    if !StartsWithIgnoreCase(s, DataImagePrefix) then None
    else
      var rest := s[|DataImagePrefix|..];
      var n := LetterRun(rest);
      if n > 0 && StartsWithIgnoreCase(rest[n..], Base64Marker) then Some(Lower(rest[..n])) else None
  }

  /** On a valid URI the second pattern captures exactly the format the first accepted. */
  lemma {:induction false} FormatTokenOfValid(s: string, fmt: string)
    requires fmt in {"png", "jpg", "jpeg"} && MatchesFormat(s, fmt)
    ensures FormatToken(s) == Some(fmt)
  {
    var p := |DataImagePrefix|;
    var rest := s[p..];
    assert s[..p] == s[..|DataImagePrefix|];
    assert rest[..|fmt|] == s[p..p + |fmt|];
    assert Lower(rest[..|fmt|]) == fmt;
    forall i | 0 <= i < |fmt|
      ensures IsAsciiLetter(rest[i])
    {
      assert LowerChar(rest[i]) == fmt[i];
    }
    assert |fmt| + |Base64Marker| <= |rest|;
    var marker := rest[|fmt|..|fmt| + |Base64Marker|];
    assert marker == s[p + |fmt|..p + |fmt| + |Base64Marker|];
    assert Lower(marker) == Base64Marker;
    assert marker[0] == rest[|fmt|];
    assert LowerChar(marker[0]) == Lower(marker)[0] == ';';
    assert !IsAsciiLetter(rest[|fmt|]);
    LetterRunOfWord(rest, |fmt|);
    assert rest[|fmt|..][..|Base64Marker|] == marker;
  }

  /** The letter run ends at the first non-letter. */
  lemma {:induction false} LetterRunOfWord(t: string, k: nat)
    requires k < |t|
    requires forall i :: 0 <= i < k ==> IsAsciiLetter(t[i])
    requires !IsAsciiLetter(t[k])
    ensures LetterRun(t) == k
  {
    if k > 0 {
      LetterRunOfWord(t[1..], k - 1);
    }
  }

  const InvalidFormatMessage: string := "图片格式不正确，请提供有效的Base64编码（格式：data:image/<format>;base64,<base64_data>）"
  const UnsupportedFormatHead: string := "不支持的图片格式: "

  /** `normalize_image_input`: a valid URI comes back unchanged, anything else
      raises the format message. The unsupported-format branch behind it
      can never be taken. */
  function NormalizeImageInput(s: string): (r: Result<string, string>)
    ensures r.Success? <==> IsValidBase64Image(s)
    ensures r.Success? ==> r.value == s
    ensures r.Failure? ==> r.error == InvalidFormatMessage
  {
    if !ValidateImageFormat(s).0 then Failure(InvalidFormatMessage)
    else
      var fmt := if MatchesFormat(s, "png") then "png" else if MatchesFormat(s, "jpg") then "jpg" else "jpeg";
      FormatTokenOfValid(s, fmt);
      match FormatToken(s)
      case Some(f) =>
        if f !in ["png", "jpg", "jpeg"] then Failure(UnsupportedFormatHead + f) else Success(s)
      case None => Success(s)
  }

  /** The list comprehension of `prepare_image_list_for_api`: the first invalid
      element raises; otherwise every element comes back unchanged. */
  function NormalizeAll(xs: seq<string>): (r: Result<seq<string>, string>)
    ensures r.Success? <==> forall i :: 0 <= i < |xs| ==> IsValidBase64Image(xs[i])
    ensures r.Success? ==> r.value == xs
    ensures r.Failure? ==> r.error == InvalidFormatMessage
  {
    if xs == [] then Success([])
    else
      match NormalizeImageInput(xs[0])
      case Failure(e) => Failure(e)
      case Success(x) =>
        assert forall i :: 1 <= i < |xs| ==> xs[i] == xs[1..][i - 1];
        match NormalizeAll(xs[1..])
        case Failure(e) => Failure(e)
        case Success(rest) =>
          assert xs == [x] + rest;
          Success([x] + rest)
  }

  /** What the generator is given: one image as a string, several as a list. */
  datatype ApiImages = Single(image: string) | Many(images: seq<string>)

  const EmptyListMessage: string := "图片列表不能为空"

  /** `prepare_image_list_for_api`. */
  function PrepareImageListForApi(inputs: seq<string>): (r: Result<ApiImages, string>)
    ensures inputs == [] ==> r == Failure(EmptyListMessage)
    ensures r.Success? <==> inputs != [] && forall i :: 0 <= i < |inputs| ==> IsValidBase64Image(inputs[i])
    ensures r.Success? && |inputs| == 1 ==> r.value == Single(inputs[0])
    ensures r.Success? && |inputs| > 1 ==> r.value == Many(inputs)
    ensures inputs != [] && r.Failure? ==> r.error == InvalidFormatMessage
  {
    if inputs == [] then Failure(EmptyListMessage)
    else
      match NormalizeAll(inputs)
      case Failure(e) => Failure(e)
      case Success(normalized) =>
        if |normalized| == 1 then Success(Single(normalized[0])) else Success(Many(normalized))
  }

  const MaxFileBytes: nat := 10 * 1024 * 1024
  const MinSidePixels: nat := 14
  const MaxPixels: nat := 6000 * 6000

  /** What the image library reports: its format name (None when it has none) and size. */
  datatype DecodedImage = DecodedImage(format: Option<string>, width: nat, height: nat)

  /** The outcome of decoding the payload: base64 fails, or it gives bytes
      that the image library opens or not. */
  datatype ImageProbe =
    | Base64Undecodable
    | DecodedBytes(byteLength: nat, image: Option<DecodedImage>)

  /** The reasons `validate_image_constraints` returns, in the order it tests them. */
  datatype ConstraintError =
    | FileTooLarge(byteLength: nat)
    | FormatNotSupported(format: string)
    | SidesTooShort(width: nat, height: nat)
    | TooManyPixels(total: nat)
    | AspectOutOfRange(width: nat, height: nat)
    | ValidationFailed

  /** `(image.format or '').lower()`. */
  function FormatName(f: Option<string>): string
  {
    match f
    case None => ""
    case Some(name) => Lower(name)
  }

  /** A jpeg or png. */
  predicate FormatAccepted(img: DecodedImage)
  {
    FormatName(img.format) in {"jpeg", "jpg", "png"}
  }

  /** Both sides over 14 px. */
  predicate SidesLongEnough(img: DecodedImage)
  {
    img.width > MinSidePixels && img.height > MinSidePixels
  }

  /** At most 6000 x 6000 pixels. */
  predicate PixelsWithinLimit(img: DecodedImage)
  {
    img.width * img.height <= MaxPixels
  }

  /** A width/height ratio within [1/3, 3], in exact integers. */
  predicate AspectInRange(img: DecodedImage)
  {
    3 * img.width >= img.height && img.width <= 3 * img.height
  }

  /** Every constraint, stated at once: at most 10 MiB, an image the library
      opens, and each of the four image checks. */
  predicate MeetsConstraints(p: ImageProbe)
  {
    && p.DecodedBytes? && p.byteLength <= MaxFileBytes && p.image.Some?
    && FormatAccepted(p.image.value) && SidesLongEnough(p.image.value)
    && PixelsWithinLimit(p.image.value) && AspectInRange(p.image.value)
  }

  /** `validate_image_constraints`: the checks in source order, the first
      failure decides the message; a decoding exception is caught and reported.
      `len / (1024 * 1024) > 10` is `len > 10 * 1024 * 1024`, and `w / h` within
      [1/3, 3] is `3 * w >= h && w <= 3 * h`. */
  function ValidateImageConstraints(p: ImageProbe): (r: Outcome<ConstraintError>)
    ensures r.Pass? <==> MeetsConstraints(p)
    ensures p.DecodedBytes? && p.byteLength > MaxFileBytes ==> r == Fail(FileTooLarge(p.byteLength))
    ensures r.Fail? && r.error.FileTooLarge? ==> p.DecodedBytes? && p.byteLength > MaxFileBytes
    ensures r == Fail(ValidationFailed) <==> p.Base64Undecodable? || (p.byteLength <= MaxFileBytes && p.image.None?)
    ensures p.DecodedBytes? && p.byteLength <= MaxFileBytes && p.image.Some? ==>
      var img := p.image.value;
      && (r == Fail(FormatNotSupported(FormatName(img.format))) <==> !FormatAccepted(img))
      && (r == Fail(SidesTooShort(img.width, img.height)) <==> FormatAccepted(img) && !SidesLongEnough(img))
      && (r == Fail(TooManyPixels(img.width * img.height)) <==>
            FormatAccepted(img) && SidesLongEnough(img) && !PixelsWithinLimit(img))
      && (r == Fail(AspectOutOfRange(img.width, img.height)) <==>
            FormatAccepted(img) && SidesLongEnough(img) && PixelsWithinLimit(img) && !AspectInRange(img))
  {
    match p
    case Base64Undecodable => Fail(ValidationFailed)
    case DecodedBytes(size, image) =>
      if size > MaxFileBytes then Fail(FileTooLarge(size))
      else
        match image
        case None => Fail(ValidationFailed)
        case Some(img) =>
          var fmt := FormatName(img.format);
          if fmt !in ["jpeg", "jpg", "png"] then Fail(FormatNotSupported(fmt))
          else if img.width <= MinSidePixels || img.height <= MinSidePixels then Fail(SidesTooShort(img.width, img.height))
          else if img.width * img.height > MaxPixels then Fail(TooManyPixels(img.width * img.height))
          else if 3 * img.width < img.height || img.width > 3 * img.height then Fail(AspectOutOfRange(img.width, img.height))
          else Pass
  }

  /** The pixel bound is inclusive: 6000 x 6000 passes, 6001 x 6000 does not. */
  lemma PixelBoundary(fmt: string)
    requires FormatName(Some(fmt)) in {"jpeg", "jpg", "png"}
    ensures ValidateImageConstraints(DecodedBytes(1024, Some(DecodedImage(Some(fmt), 6000, 6000)))) == Pass
    ensures ValidateImageConstraints(DecodedBytes(1024, Some(DecodedImage(Some(fmt), 6001, 6000))))
            == Fail(TooManyPixels(6001 * 6000))
  {
  }

  /** The ratio bounds are inclusive: 3000 x 1000 and 1000 x 3000 pass, 3001 x 1000 and 1000 x 3001 do not. */
  lemma AspectBoundary(fmt: string)
    requires FormatName(Some(fmt)) in {"jpeg", "jpg", "png"}
    ensures ValidateImageConstraints(DecodedBytes(1024, Some(DecodedImage(Some(fmt), 3000, 1000)))) == Pass
    ensures ValidateImageConstraints(DecodedBytes(1024, Some(DecodedImage(Some(fmt), 1000, 3000)))) == Pass
    ensures ValidateImageConstraints(DecodedBytes(1024, Some(DecodedImage(Some(fmt), 3001, 1000))))
            == Fail(AspectOutOfRange(3001, 1000))
    ensures ValidateImageConstraints(DecodedBytes(1024, Some(DecodedImage(Some(fmt), 1000, 3001))))
            == Fail(AspectOutOfRange(1000, 3001))
  {
  }
}
