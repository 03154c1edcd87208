/** The closed value sets of core/enum.py. Member names follow that file. */
module Enums {

  datatype Gender = Male | Female

  datatype City =
    | Tokyo | Paris | London | NewYork | Bangkok | Rome | Madrid | Istanbul | Milan | Singapore
    | Dubai | Beijing | Shenzhen | Berlin | KualaLumpur | Seoul | Shanghai | HongKong | Amsterdam | Sydney

  datatype Mode = Easy | Master

  datatype Style = FrenchElegant | JapaneseSimple | FutureTech | AIRandom

  datatype Material = Denim | Silk | Cotton | Metal | AIRandom

  datatype Color = Warm | Cold | Neutral | AIRandom

  /** `TypeEnum`: the garment type of a Master-mode tag set. */
  datatype GarmentType = Suit | Dress | Coat | LocalCostume | AIRandom

  datatype ClothesCategory = MaleTop | MaleBottom | FemaleTop | FemaleBottom | Dress

  /** `city.name`: every member's name equals its value. */
  function CityName(c: City): string
  {
    match c
    case Tokyo => "Tokyo"
    case Paris => "Paris"
    case London => "London"
    case NewYork => "NewYork"
    case Bangkok => "Bangkok"
    case Rome => "Rome"
    case Madrid => "Madrid"
    case Istanbul => "Istanbul"
    case Milan => "Milan"
    case Singapore => "Singapore"
    case Dubai => "Dubai"
    case Beijing => "Beijing"
    case Shenzhen => "Shenzhen"
    case Berlin => "Berlin"
    case KualaLumpur => "KualaLumpur"
    case Seoul => "Seoul"
    case Shanghai => "Shanghai"
    case HongKong => "HongKong"
    case Amsterdam => "Amsterdam"
    case Sydney => "Sydney"
  }

  /** The string value of a `ModeEnum` member (a `str` enum compares equal to it). */
  function ModeValue(m: Mode): string
  {
    match m
    case Easy => "Easy"
    case Master => "Master"
  }
}
