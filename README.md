# Journey poster image service: the validation, prompt and result pipeline in Dafny

The service takes a portrait (a base64 data URI), a city, a gender and a mode and
returns four generated travel posters. It does three things before it calls the
external image generator:

- it validates the request: the garment combination rules and the Easy/Master
  field rules of the request model, in both the current version and the
  earlier string-id version;
- it checks the portrait's data URI and the numeric constraints on the decoded
  image;
- it assembles the prompt from a city scene and a clothing description.

Two more steps run around the generator call. The event stream the generator
returns is folded into an index-ordered list of data URIs. The orchestrator
builds the input list, numbers the outputs, and counts the events it pushes
over SSE.

One Dafny module per source file, plus three shared ones:

| file | module | models |
|---|---|---|
| `wrappers.dfy` | `Wrappers` | `Option`, `Result` and `Outcome` (pass or the first failure) |
| `enums.dfy` | `Enums` | the enums of `core/enum.py` |
| `text.dfy` | `Text` | `startswith`, ASCII case folding, `str.strip()` |
| `create_picture_req_dto.dfy` | `CreatePictureReqDto` | `dto/createPictureReqDto.py` |
| `create_picture_req.dfy` | `CreatePictureReq` | `model/createPictureReq.py` |
| `prompt_strategy.dfy` | `PromptStrategy` | `core/prompt_strategy.py` |
| `image_utils.dfy` | `ImageUtils` | `utils/image_utils.py` |
| `llm.dfy` | `Llm` | the result gathering of `createPictureBySeedReam` in `core/llm.py` |
| `generation_image.dfy` | `GenerationImage` | `service/generation_Image.py` |

Modelling choices:

- **Pydantic fields.** An optional field that pydantic validates arrives in one of three forms: left out (`Omitted`), sent as null (`Null`) or given a value. A field validator runs only on a field that was supplied. Field errors are collected together. The model validator runs only when no field has an error.
- **The crash in `model/createPictureReq.py`.** A male Easy request with a valid top and bottom and no tags makes the model validator raise an AttributeError instead of a validation error. The model keeps this as its own outcome, `AttributeErrorOnNone`.
- **The validators and the prompt assembler** are pure functions.
- **The stream fold and the orchestrator's list building** are methods with loops. Each method is proved equal to a specification function, and the properties the source promises are lemmas about that function.
- **Floating-point tests** become exact integer comparisons:
  - the size test `len / (1024*1024) > 10` becomes `len > 10*1024*1024`;
  - the ratio test `w / h` within [1/3, 3] becomes `3*w >= h && w <= 3*h`.
- **Name drift.** The code refers to `ModeEnum.EASY`, `GenderEnum.MALE`, `StyleEnum.FRENCH_ELEGANT` and similar. These names do not exist in `core/enum.py`. The model uses that file's members (`Easy`, `Male`, `FrenchElegant`, …) with the evident intended meaning.

## Model

| member | source | states |
|---|---|---|
| CreatePictureReqDto.ValidateClothesCombination | dto/createPictureReqDto.py:46-67 | no garment, a dress with a top or bottom, a top without a bottom and a bottom without a top are each rejected with their own error (iff); it passes exactly on top+bottom without dress, or dress alone |
| CreatePictureReqDto.ValidateClothesField | dto/createPictureReqDto.py:130-136 | null clothes in Easy mode is the only way to get EasyWithoutClothes; the field fails iff it is null in Easy mode or given clothes break the combination rule, so null clothes pass in Master mode; a rejected combination carries the rule's own error; a left-out field passes untouched |
| CreatePictureReqDto.ValidateTagsField | dto/createPictureReqDto.py:137-143 | fails iff Master mode and tags given as null, with MasterWithoutTags; otherwise yields the given tags or none |
| CreatePictureReqDto.ValidateGenderAndClothes | dto/createPictureReqDto.py:145-170 | Master mode or no clothes: always passes; male Easy: MaleWithDress iff a dress, MaleWithoutTopAndBottom iff no dress and a missing top or bottom, passes iff top+bottom; female Easy: FemaleDressWithTopOrBottom iff a dress with a top or bottom, FemaleTopWithoutBottom iff no dress and exactly one of top and bottom, passes iff top+bottom, dress alone, or nothing |
| CreatePictureReqDto.FieldErrors | dto/createPictureReqDto.py:130-143 | none iff both field validators pass; the clothes error comes first, the tags error (MasterWithoutTags) last, and there are two exactly when both fields fail |
| CreatePictureReqDto.ValidateRequest | dto/createPictureReqDto.py:94-170 | Easy: accepted iff clothes are left out, or given as top+bottom, or as a dress alone for a woman; Master: accepted iff tags are not null and any given clothes pass the combination rule; a field failure is reported as exactly the field errors; with valid fields, a cross-check failure is reported as that one error; an accepted request carries the raw fields unchanged |
| CreatePictureReqDto.RejectionReasons | dto/createPictureReqDto.py:46-170 | a man's dress alone is refused as MaleWithDress by the cross-check; a woman's top with a dress is refused by the combination rule as DressWithTopOrBottom |
| CreatePictureReqDto.FemaleChecksRedundant | dto/createPictureReqDto.py:157-168 | the female checks never reject clothes the combination rule accepted |
| CreatePictureReqDto.AcceptedEasyShape | dto/createPictureReqDto.py:146-170 | an accepted Easy request with clothes is top+bottom or dress alone, and a man's is top+bottom |
| CreatePictureReqDto.MasterSkipsCrossCheck | dto/createPictureReqDto.py:148 | a Master request is accepted iff its fields are: no gender/clothes cross-check |
| CreatePictureReqDto.OmittedFieldsPass | dto/createPictureReqDto.py:130-143 | Easy without clothes and Master without tags are accepted when the field is left out, because field validators skip defaults |
| CreatePictureReq.ValidateClothesCombination | model/createPictureReq.py:46-67 | the same combination rule over string ids: no garment and dress-with-top-or-bottom rejected (iff), pass iff top+bottom or dress alone |
| CreatePictureReq.SameCombinationRules | model/createPictureReq.py:46-67 | the string-id rule decides exactly as the integer-id rule on the same filled slots |
| CreatePictureReq.ValidateClothesField | model/createPictureReq.py:131-137 | EasyWithoutClothes iff Easy with null clothes; the field fails iff it is null in Easy mode or given clothes break the combination rule; a rejected combination carries the rule's own error; left out passes |
| CreatePictureReq.ValidateTagsField | model/createPictureReq.py:138-144 | fails iff Master with null tags, with MasterWithoutTags |
| CreatePictureReq.ValidateGenderAndClothes | model/createPictureReq.py:146-174 | Master or no clothes passes; male Easy: MaleWithDress iff a dress, MaleWithoutTopAndBottom iff no dress and a missing top or bottom, MaleWithDressType iff top+bottom with tags of type Dress, the AttributeError iff top+bottom with no tags, passes iff top+bottom with tags whose type is not Dress; female Easy: each of its two errors iff its condition, passes iff top+bottom, dress alone, or nothing |
| CreatePictureReq.FieldErrors | model/createPictureReq.py:131-144 | none iff both field validators pass; the clothes error comes first, the tags error last, and there are two exactly when both fields fail |
| CreatePictureReq.ValidateRequest | model/createPictureReq.py:94-174 | male Easy: accepted iff clothes are left out, or top+bottom with given tags whose type is not Dress; female Easy: accepted iff clothes are left out, top+bottom or a dress alone; Master: accepted iff tags are not null and any given clothes pass the combination rule; the AttributeError iff male Easy top+bottom with tags not given; field failures are reported as exactly the field errors; with valid fields, the cross-check's rejection is passed on unchanged; an accepted request carries the raw fields unchanged |
| CreatePictureReq.MaleWithoutTagsCrashes | model/createPictureReq.py:157-158 | a man's Easy request with valid top+bottom and tags left out ends in the AttributeError, not in acceptance |
| CreatePictureReq.RejectionReasons | model/createPictureReq.py:150-158 | a man's top+bottom with tags of type Dress is refused as MaleWithDressType; his dress alone as MaleWithDress |
| CreatePictureReq.AcceptedMaleEasyShape | model/createPictureReq.py:151-158 | an accepted male Easy request has top+bottom and tags whose type is not Dress |
| CreatePictureReq.FemaleChecksRedundant | model/createPictureReq.py:161-172 | the female checks never reject clothes the combination rule accepted |
| PromptStrategy.CitySceneDescription | core/prompt_strategy.py:16-21 | the table's scene when the city name is a key; otherwise a sentence starting with the fallback head and naming the city; never fails |
| PromptStrategy.StyleLabel | core/prompt_strategy.py:84 | the label is "AI随机匹配" iff the style is unset or AIRandom |
| PromptStrategy.MaterialLabel | core/prompt_strategy.py:85 | the label is "AI随机匹配" iff the material is unset or AIRandom |
| PromptStrategy.ColorLabel | core/prompt_strategy.py:86 | the label is "AI随机匹配" iff the color is unset or AIRandom |
| PromptStrategy.TypeLabel | core/prompt_strategy.py:87 | the label is "AI随机匹配" iff the type is unset or AIRandom |
| PromptStrategy.LabelsDistinguishMembers | core/prompt_strategy.py:46-74 | each mapping table is injective |
| PromptStrategy.MasterClothingDescription | core/prompt_strategy.py:83-96 | no tags: the fixed untagged sentence; tags: the master template filled with the four labels |
| PromptStrategy.AiRandomSameAsUnset | core/prompt_strategy.py:46-87 | choosing AIRandom on any axis gives the same clothing text as leaving it unset |
| PromptStrategy.FinalPrompt | core/prompt_strategy.py:35-40 | the result has no whitespace at either end and is the filled template with only whitespace cut from each end |
| PromptStrategy.Strategy.GeneratePrompt | core/prompt_strategy.py:27-103 | Easy uses the fixed easy clothing text, Master the tag description; both stripped, with the city scene |
| PromptStrategy.GetStrategy | core/prompt_strategy.py:110-119 | "Easy" gives the Easy strategy, "Master" the Master strategy (both iff); anything else fails with the unsupported-mode message |
| PromptStrategy.GeneratePromptByRequest | core/prompt_strategy.py:122-147 | equals the mode-selected strategy applied to the request; never has outer whitespace |
| PromptStrategy.EasyPromptOnlyDependsOnCity | core/prompt_strategy.py:27-40 | two Easy requests for the same city get the same prompt, whatever their gender, clothes or tags |
| PromptStrategy.MasterWithoutTagsPrompt | core/prompt_strategy.py:95-96 | a Master request without tags uses the fixed untagged clothing sentence |
| Text.Strip | core/prompt_strategy.py:40 | the result has no outer whitespace and is `s[i..j]` with only whitespace cut off at both ends |
| Text.StripIdempotent | core/prompt_strategy.py:103 | stripping twice equals stripping once |
| Text.StripOfTrimmed | core/prompt_strategy.py:103 | a string without outer whitespace strips to itself |
| ImageUtils.DataUriAccepted | utils/image_utils.py:13-17 | any `data:image/` + png/jpg/jpeg + `;base64,` + non-empty base64 run is accepted, in any letter case |
| ImageUtils.IsValidBase64Image | utils/image_utils.py:8-17 | a valid string starts with `data:image/` in any case, is longer than the shortest header, and ends in a base64 character or the newline `$` allows |
| ImageUtils.GifRejected | utils/image_utils.py:13-17 | a gif data URI is rejected, whatever its payload |
| ImageUtils.ValidateImageFormat | utils/image_utils.py:20-33 | `(true, "base64")` iff the URI is valid, else `(false, "invalid")` |
| ImageUtils.FormatToken | utils/image_utils.py:54-57 | the second pattern, `^data:image/([a-z]+);base64,` with IGNORECASE, lower-cased: no match without the `data:image/` prefix, and a captured format is a non-empty run of lower-case letters (its helper `LetterRun` measures that run) |
| ImageUtils.FormatTokenOfValid | utils/image_utils.py:55-59 | on a valid URI the second pattern captures exactly the accepted format, so the unsupported-format branch is dead |
| ImageUtils.NormalizeImageInput | utils/image_utils.py:36-61 | succeeds iff the URI is valid, returning it unchanged; otherwise fails with the format message |
| ImageUtils.NormalizeAll | utils/image_utils.py:175 | succeeds iff every element is valid, returning the list unchanged; otherwise the format message |
| ImageUtils.PrepareImageListForApi | utils/image_utils.py:157-180 | an empty list fails with its message; a non-empty list succeeds iff all its images are valid, and otherwise fails with the image-format message; one image is passed as a single string, more as the same list in order |
| ImageUtils.ValidateImageConstraints | utils/image_utils.py:94-154 | passes iff all constraints hold; an oversize file is reported first whatever the image; a decoding failure gives the generic failure; for a decoded image under the size limit, each error holds iff its check is the first that fails (format, then sides, then pixels, then aspect), with the values the message prints |
| ImageUtils.PixelBoundary | utils/image_utils.py:140-144 | 6000x6000 passes, 6001x6000 fails on pixels |
| ImageUtils.AspectBoundary | utils/image_utils.py:146-149 | 3000x1000 and 1000x3000 pass; 3001x1000 and 1000x3001 fail on the ratio |
| Llm.WithDataPrefix | core/llm.py:234-236 | the result starts with `data:image`; prefixed data is unchanged, anything else gets `data:image/png;base64,` in front |
| Llm.SortedIndices | core/llm.py:232 | `sorted(keys)`: as many entries as keys, each a key, strictly ascending |
| Llm.SortedIndicesComplete | core/llm.py:232 | every key appears in the sorted list |
| Llm.FromStreamData | core/llm.py:238-247 | no more results than `data` entries, each starting with `data:image` |
| Llm.FromStreamDataKeepsAll | core/llm.py:240-247 | when every entry has a payload, each becomes the result at its own position |
| Llm.FromStreamDataDropsEmpty | core/llm.py:240-247 | entries without payload give no result |
| Llm.FromStreamDataConcat | core/llm.py:240-247 | the fallback of a concatenation is the concatenation of the fallbacks: each entry contributes independently and in order |
| Llm.FoldEvents | core/llm.py:200-227 | the loop's map equals the fold of the events, stopping at the first InternalServiceError |
| Llm.ApplyEvents | core/llm.py:200-227 | the specification of FoldEvents: the fold never drops an index, every new index comes from a partial-image event with a payload, and every stored payload is non-empty |
| Llm.EmitInIndexOrder | core/llm.py:230-237 | one data URI per key, in ascending key order, each the prefixed payload at that key |
| Llm.EmitStreamData | core/llm.py:238-247 | the loop's list equals the fallback over `data` |
| Llm.CollectImages | core/llm.py:197-252 | the loop results equal the specified list: ordered partial images, or the fallback when there were none |
| Llm.CollectedImages | core/llm.py:229-247 | the specification of CollectImages: all data URIs; with partial images, one result per stored index; otherwise no more results than `data` entries |
| Llm.HaltStopsProcessing | core/llm.py:205-208 | after an InternalServiceError failure, later events change nothing |
| Llm.LaterImageOverwrites | core/llm.py:217-220 | a later image event for an index replaces the earlier payload |
| Llm.OnlyRelevantEventsMatter | core/llm.py:200-227 | None items, other failures, URL successes, completion and unknown events can be dropped without changing the result |
| Llm.ArrivalOrderIrrelevant | core/llm.py:217-220 | two image events for different indices may arrive in either order |
| Llm.ResultsInIndexOrder | core/llm.py:229-237 | with partial images: one result per distinct index, indices ascending and all present, each the prefixed payload |
| Llm.FallbackToStreamData | core/llm.py:238-247 | without partial images the result is the fallback over `data` |
| Llm.SeedReamOutcome | core/llm.py:174-256 | succeeds iff the input list is prepared and the client finishes its stream, and then returns exactly the collected images; a preparation error or a client exception is returned with the failure prefix; an empty input list fails with the prefixed empty-list message |
| Llm.CreatePictureBySeedReam | core/llm.py:174-256 | the method's result equals the specified outcome |
| Llm.InvalidInputsNeverReachGateway | core/llm.py:176 | when preparation fails, the generator client's behaviour does not affect the outcome |
| GenerationImage.VerifyInputData | service/generation_Image.py:73-87 | EasyWithoutClothes iff Easy without clothes; MasterWithoutTags iff Master without tags; passes iff neither |
| GenerationImage.VerifyInputImage | service/generation_Image.py:22-51 | an invalid URI fails with the format reason whatever the decoded image; passes iff the URI is valid and the constraints hold; otherwise carries the constraint's reason |
| GenerationImage.VerifyImageQuality | service/generation_Image.py:53-71 | passes iff exactly four images; an empty list has its own reason; any other count is reported with that count |
| GenerationImage.InputImages | service/generation_Image.py:107-144 | the origin image comes first; without Easy+clothes it is sent alone; a failure is a ParamException and only happens when garments are loaded |
| GenerationImage.BuildInputList | service/generation_Image.py:107-144 | the appended list equals the specified input list |
| GenerationImage.Generated | service/generation_Image.py:94-153 | succeeds iff both checks pass, the input list is built and the generator succeeds, and then returns the generator's images, each starting with `data:image`; after both checks pass, a loader failure is returned as the mapped ParamException, and a generator failure as Upstream with the generator's prefixed message |
| GenerationImage.Generate | service/generation_Image.py:94-153 | the shared steps of both entry points equal the specification |
| GenerationImage.NumberedItems | service/generation_Image.py:159-162 | one item per image, ids 0..n-1, payloads unchanged |
| GenerationImage.Respond | service/generation_Image.py:156-164 | a response iff four images, made of the numbered items; otherwise the quality error |
| GenerationImage.PictureOutcome | service/generation_Image.py:90-164 | a response iff generation succeeds with exactly four images, and then those images numbered 0..3; a generation failure is passed on unchanged; a successful generation with any other count fails with the quality check's error |
| GenerationImage.ReceiveAll | service/generation_Image.py:149-153 | the received list is the generator's list, in order |
| GenerationImage.CreatePicture | service/generation_Image.py:90-164 | the method's result equals the specified response |
| GenerationImage.PushedEvents | service/generation_Image.py:204-212 | one pushed event per image, index i carrying image i |
| GenerationImage.PushAll | service/generation_Image.py:204-216 | the events are the numbered pushes followed by one completed event with the count |
| GenerationImage.StreamOutcome | service/generation_Image.py:166-216 | a stream iff generation succeeds, ending with a completed event whose total is the number of events before it; a generation failure is passed on unchanged |
| GenerationImage.CreatePictureStream | service/generation_Image.py:166-216 | the method's events equal the specified stream |
| GenerationImage.ChecksComeFirst | service/generation_Image.py:94-97 | a failed request check or rejected portrait decides the outcome, the request check first, whatever the templates, loader and generator |
| GenerationImage.OriginFirst | service/generation_Image.py:107-125 | Master sends only the origin; in Easy with clothes the loaded garments follow the origin in order |
| GenerationImage.LoaderErrorsMapped | service/generation_Image.py:133-144 | a loader ValueError becomes PARAM_INVALID with its message; FileNotFoundError becomes RESOURCE_NOT_FOUND with the fixed message |
| GenerationImage.LoaderErrorReachesCaller | service/generation_Image.py:133-144 | once both checks pass, a loader ValueError reaches both createPicture and createPictureStream as PARAM_INVALID with its message, and a missing file as RESOURCE_NOT_FOUND with the fixed message |
| GenerationImage.ResponseItemsNumbered | service/generation_Image.py:156-162 | a response has four items, item i is id i with the i-th received image |
| GenerationImage.StreamEventsNumbered | service/generation_Image.py:204-216 | events 0..n-1 push the received images with indices 0..n-1, then exactly one completed event with total n |
| GenerationImage.ServiceDeliversCollectedImages | service/generation_Image.py:94-216 | a request that passes the checks, whose garments load and whose generator finishes its stream, gets exactly the collected images: the stream pushes all of them, and the response exists iff there are four |
| GenerationImage.PictureMatchesStream | service/generation_Image.py:90-216 | `createPicture` answers iff the stream does with four images, and then its items are the pushed images in order |
| GenerationImage.ServiceRecheckNeeded | service/generation_Image.py:84-85 | an Easy request with clothes left out passes the request model but is refused by the service's own check |

## Left out

- The HTTP layer is not modelled: routes, middleware, CORS and the retry loop in `journey_poster.py`. It is transport and timing.
- The Ark client is not modelled: its construction, its options and the network call. The generator is a function parameter that returns a finished event list with its `data`, or raises.
- Base64 and PIL decoding are foreign libraries. The decoded view of the portrait (`ImageProbe`: undecodable, or a byte length with a format and a size) is an input.
- `load_clothes_image` is not part of this model. It is a function parameter that returns images, a ValueError or a FileNotFoundError.
- The `core.prompt` constants are not part of this model: `BASE_PROMPT_TEMPLATE`, `CITY_SCENES` and `CLOTHING_TEMPLATES`. They are a `PromptTemplates` parameter. Each `CITY_SCENES` entry is assumed to have a `scene_description` key.
- Logging is left out. This includes the warning for a result count other than four at core/llm.py:249-252, which changes nothing else.
- JSON and SSE serialisation are left out. SSE events are a datatype, not `data: {...}\n\n` text.
- Exception messages are not rendered as text. Validation failures, constraint failures and `CommonException` reasons are error datatypes that carry the values the messages print. Literal messages are kept where the source passes them on: the image-format message, the empty-list message, the generator failure prefix and the missing-garment-file message.
- The city, mode and gender membership tests of `verifyInputData` are not modelled. They always hold for enum-typed fields.
- Unknown enum values and pydantic type coercion are excluded by the types.
- `ImageUtils.IsValidBase64Image`, `Text.Lower`: `re.IGNORECASE` is modelled for ASCII letters only. The full Unicode folding Python applies (for example `ſ` against `s`, or the Kelvin sign against `k`) is not.
- `ImageUtils.FormatName`: lower-cases ASCII letters only. Python lower-cases the full Unicode range, but image format names are ASCII.
- `async for` over the generator method is modelled as iterating the list that method returns.
- The generator and the loader run before anything is yielded, so `createPictureStream` either fails before its first event or yields all of them. Events are not interleaved with that work.
- `CreatePictureReq.ValidateRequest`: pydantic's wrapping of the errors into a `ValidationError` is not modelled. The errors are returned as a list of error kinds.
