/** The prompt assembler of core/prompt_strategy.py: a city scene with a
    fallback sentence, the Master-mode label tables with their "AI随机匹配"
    sentinel, the two strategies and the factory that picks one by mode. */
module PromptStrategy {
  import opened Wrappers
  import opened Enums
  import opened Text
  import Dto = CreatePictureReqDto

  /** The constants of `core.prompt`, whose text is not part of this model:
      the scene descriptions of `CITY_SCENES` by city name, the `easy_mode`
      entry of `CLOTHING_TEMPLATES`, and the `format` of the `master_mode`
      entry and of `BASE_PROMPT_TEMPLATE`. */
  datatype PromptTemplates = PromptTemplates(
    citySceneDescriptions: map<string, string>,
    easyClothing: string,
    formatMasterClothing: (string, string, string, string) -> string,
    formatBasePrompt: (string, string) -> string)

  const AiRandomLabel: string := "AI随机匹配"
  const UntaggedClothing: string := "人物服装风格：AI随机匹配。"
  const FallbackSceneHead: string := "背景场景："
  const FallbackSceneTail: string := "的标志性景点（随机生成四种不同场景）。"

  /** `_get_city_scene_description`: the table's scene for the city's name, or
      a fallback sentence naming the city. It never fails. */
  function CitySceneDescription(t: PromptTemplates, city: City): (r: string)
    ensures CityName(city) in t.citySceneDescriptions ==> r == t.citySceneDescriptions[CityName(city)]
    ensures CityName(city) !in t.citySceneDescriptions ==>
      && StartsWith(r, FallbackSceneHead) && |FallbackSceneHead| + |CityName(city)| <= |r|
      && r[|FallbackSceneHead|..|FallbackSceneHead| + |CityName(city)|] == CityName(city)
  {
    var name := CityName(city);
    if name in t.citySceneDescriptions then t.citySceneDescriptions[name]
    else
      var r := FallbackSceneHead + name + FallbackSceneTail;
      assert r[..|FallbackSceneHead|] == FallbackSceneHead;
      assert r[|FallbackSceneHead|..|FallbackSceneHead| + |name|] == name;
      r
  }

  /** `STYLE_MAPPING`. */
  function StyleMapping(s: Style): string
  {
    match s
    case FrenchElegant => "法式优雅"
    case JapaneseSimple => "日系简约"
    case FutureTech => "未来科技"
    case AIRandom => AiRandomLabel
  }

  /** `MATERIAL_MAPPING`. */
  function MaterialMapping(m: Material): string
  {
    match m
    case Denim => "牛仔"
    case Silk => "丝绸"
    case Cotton => "棉料"
    case Metal => "金属"
    case AIRandom => AiRandomLabel
  }

  /** `COLOR_MAPPING`. */
  function ColorMapping(c: Color): string
  {
    match c
    case Warm => "暖色调"
    case Cold => "冷色调"
    case Neutral => "中性色调"
    case AIRandom => AiRandomLabel
  }

  /** `TYPE_MAPPING`. */
  function TypeMapping(g: GarmentType): string
  {
    match g
    case Suit => "套装"
    case Dress => "连衣裙"
    case Coat => "外套"
    case LocalCostume => "当地特色服饰"
    case AIRandom => AiRandomLabel
  }

  /** The style label: the table's entry, or the sentinel when unset. Every
      member is in the table, so `.get`'s default is never used. */
  function StyleLabel(s: Option<Style>): (r: string)
    ensures r == AiRandomLabel <==> s == None || s == Some(Style.AIRandom)
  {
    match s
    case None => AiRandomLabel
    case Some(v) => StyleMapping(v)
  }

  function MaterialLabel(m: Option<Material>): (r: string)
    ensures r == AiRandomLabel <==> m == None || m == Some(Material.AIRandom)
  {
    match m
    case None => AiRandomLabel
    case Some(v) => MaterialMapping(v)
  }

  function ColorLabel(c: Option<Color>): (r: string)
    ensures r == AiRandomLabel <==> c == None || c == Some(Color.AIRandom)
  {
    match c
    case None => AiRandomLabel
    case Some(v) => ColorMapping(v)
  }

  function TypeLabel(g: Option<GarmentType>): (r: string)
    ensures r == AiRandomLabel <==> g == None || g == Some(GarmentType.AIRandom)
  {
    match g
    case None => AiRandomLabel
    case Some(v) => TypeMapping(v)
  }

  /** Each table gives distinct members distinct labels. */
  lemma LabelsDistinguishMembers(s1: Style, s2: Style, m1: Material, m2: Material,
                                 c1: Color, c2: Color, g1: GarmentType, g2: GarmentType)
    ensures StyleMapping(s1) == StyleMapping(s2) ==> s1 == s2
    ensures MaterialMapping(m1) == MaterialMapping(m2) ==> m1 == m2
    ensures ColorMapping(c1) == ColorMapping(c2) ==> c1 == c2
    ensures TypeMapping(g1) == TypeMapping(g2) ==> g1 == g2
  {
  }

  /** The clothing part of a Master prompt: the four labels in the template,
      or the fixed untagged sentence when no tags were given. */
  function MasterClothingDescription(t: PromptTemplates, tags: Option<Dto.MasterModeTags>): (r: string)
    ensures tags.None? ==> r == UntaggedClothing
    ensures tags.Some? ==>
      r == t.formatMasterClothing(StyleLabel(tags.value.style), MaterialLabel(tags.value.material),
                                  ColorLabel(tags.value.color), TypeLabel(tags.value.garmentType))
  {
    match tags
    case None => UntaggedClothing
    case Some(g) =>
      t.formatMasterClothing(StyleLabel(g.style), MaterialLabel(g.material), ColorLabel(g.color), TypeLabel(g.garmentType))
  }

  /** Collapses every AIRandom tag to unset. */
  function ForgetAiRandom(g: Dto.MasterModeTags): Dto.MasterModeTags
  {
    Dto.MasterModeTags(
      if g.style == Some(Style.AIRandom) then None else g.style,
      if g.material == Some(Material.AIRandom) then None else g.material,
      if g.color == Some(Color.AIRandom) then None else g.color,
      if g.garmentType == Some(GarmentType.AIRandom) then None else g.garmentType)
  }

  /** Choosing AIRandom on any axis gives the same clothing text as leaving it unset. */
  lemma {:induction false} AiRandomSameAsUnset(t: PromptTemplates, g: Dto.MasterModeTags)
    ensures MasterClothingDescription(t, Some(g)) == MasterClothingDescription(t, Some(ForgetAiRandom(g)))
  {
    var h := ForgetAiRandom(g);
    assert StyleLabel(g.style) == StyleLabel(h.style);
    assert MaterialLabel(g.material) == MaterialLabel(h.material);
    assert ColorLabel(g.color) == ColorLabel(h.color);
    assert TypeLabel(g.garmentType) == TypeLabel(h.garmentType);
  }

  /** The base template filled in and stripped; the shared last step of both strategies. */
  function FinalPrompt(t: PromptTemplates, scene: string, clothing: string): (r: string)
    ensures NoOuterSpace(r)
    ensures var full := t.formatBasePrompt(scene, clothing);
      exists i, j :: 0 <= i <= j <= |full| && r == full[i..j]
                     && SpaceBetween(full, 0, i) && SpaceBetween(full, j, |full|)
  {
    Strip(t.formatBasePrompt(scene, clothing))
  }

  /** The two concrete strategies. */
  datatype Strategy = EasyModePromptStrategy | MasterModePromptStrategy
  {
    /** `generate_prompt`: the Easy variant always uses the fixed `easy_mode`
        clothing text; the Master variant describes the request's tags. */
    function GeneratePrompt(t: PromptTemplates, req: Dto.Request): (r: string)
      ensures NoOuterSpace(r)
      ensures this.EasyModePromptStrategy? ==>
        r == FinalPrompt(t, CitySceneDescription(t, req.city), t.easyClothing)
      ensures this.MasterModePromptStrategy? ==>
        r == FinalPrompt(t, CitySceneDescription(t, req.city), MasterClothingDescription(t, req.masterModeTags))
    {
      var scene := CitySceneDescription(t, req.city);
      match this
      case EasyModePromptStrategy => FinalPrompt(t, scene, t.easyClothing)
      case MasterModePromptStrategy => FinalPrompt(t, scene, MasterClothingDescription(t, req.masterModeTags))
    }
  }

  const UnsupportedModeHead: string := "不支持的模式: "

  /** `PromptStrategyFactory.get_strategy`. A `ModeEnum` compares equal to its
      string value, so the mode arrives as that value; anything else raises. */
  function GetStrategy(mode: string): (r: Result<Strategy, string>)
    ensures mode == ModeValue(Easy) <==> r == Success(EasyModePromptStrategy)
    ensures mode == ModeValue(Master) <==> r == Success(MasterModePromptStrategy)
    ensures r.Failure? <==> mode != ModeValue(Easy) && mode != ModeValue(Master)
    ensures r.Failure? ==> r.error == UnsupportedModeHead + mode
  {
    if mode == "Easy" then Success(EasyModePromptStrategy)
    else if mode == "Master" then Success(MasterModePromptStrategy)
    else Failure(UnsupportedModeHead + mode)
  }

  /** `generate_prompt_by_request`: the strategy the factory picks for the
      request's mode, applied to the request. A validated mode always has one. */
  function GeneratePromptByRequest(t: PromptTemplates, req: Dto.Request): (r: string)
    ensures NoOuterSpace(r)
    ensures req.mode == Easy ==> r == EasyModePromptStrategy.GeneratePrompt(t, req)
    ensures req.mode == Master ==> r == MasterModePromptStrategy.GeneratePrompt(t, req)
  {
    match GetStrategy(ModeValue(req.mode))
    case Success(s) => s.GeneratePrompt(t, req)
    case Failure(_) => assert false; ""
  }

  /** An Easy prompt depends on the city alone: gender, clothes and tags do not enter it. */
  lemma EasyPromptOnlyDependsOnCity(t: PromptTemplates, a: Dto.Request, b: Dto.Request)
    requires a.mode == Easy && b.mode == Easy && a.city == b.city
    ensures GeneratePromptByRequest(t, a) == GeneratePromptByRequest(t, b)
  {
  }

  /** A Master request without tags is described by the fixed untagged sentence. */
  lemma MasterWithoutTagsPrompt(t: PromptTemplates, req: Dto.Request)
    requires req.mode == Master && req.masterModeTags.None?
    ensures GeneratePromptByRequest(t, req) == FinalPrompt(t, CitySceneDescription(t, req.city), UntaggedClothing)
  {
  }
}
