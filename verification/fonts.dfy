/**
 A font face value: a typeface family (an asset path), a weight, a style and
 an optional cached face id. Weights and styles have numeric wire forms, and
 the legacy numeric `Font` enum (0 to 45) is converted to a full font face
 through a fixed table.
 */
module Fonts {

  import opened Wrappers

  /** The unsigned integer widths the codecs read. */
  type u8 = n: int | 0 <= n < 0x100
  type u16 = n: int | 0 <= n < 0x1_0000
  type u32 = n: int | 0 <= n < 0x1_0000_0000

  /** The numbers the weight codec knows: 100, 200, ..., 900. */
  predicate IsWeightNumber(n: int) {
    100 <= n <= 900 && n % 100 == 0
  }

  /** Nine weights, declared from lightest to heaviest. */
  datatype FontWeight =
    | Thin
    | ExtraLight
    | Light
    | Regular
    | Medium
    | SemiBold
    | Bold
    | ExtraBold
    | Heavy
  {
    /** Position in declaration order: Thin is 0, Heavy is 8. */
    function Rank(): (k: nat)
      ensures k <= 8
      ensures (k == 0) == Thin? && (k == 8) == Heavy?
    {
      match this
      case Thin => 0
      case ExtraLight => 1
      case Light => 2
      case Regular => 3
      case Medium => 4
      case SemiBold => 5
      case Bold => 6
      case ExtraBold => 7
      case Heavy => 8
    }

    /** The weight a font face has when nothing else is said: CSS weight 400. */
    static function Default(): (w: FontWeight)
      ensures w.AsU16() == 400
    {
      Regular
    }

    /**
     Decodes a CSS-style weight number. Each of 100, ..., 900 names one weight;
     every other number falls back to the default weight.
     */
    static function FromU16(weight: u16): (w: FontWeight)
      ensures IsWeightNumber(weight) ==> w.AsU16() == weight
      ensures !IsWeightNumber(weight) ==> w == Default()
    {
      match weight
      case 100 => Thin
      case 200 => ExtraLight
      case 300 => Light
      case 400 => Regular
      case 500 => Medium
      case 600 => SemiBold
      case 700 => Bold
      case 800 => ExtraBold
      case 900 => Heavy
      case _ => Regular
    }

    /** Encodes the weight as its CSS-style number, 100 per step of declaration order. */
    function AsU16(): (n: u16)
      ensures IsWeightNumber(n)
      ensures n == 100 * (Rank() + 1)
    {
      match this
      case Thin => 100
      case ExtraLight => 200
      case Light => 300
      case Regular => 400
      case Medium => 500
      case SemiBold => 600
      case Bold => 700
      case ExtraBold => 800
      case Heavy => 900
    }
  }

  /** Upright or slanted. */
  datatype FontStyle = Normal | Italic
  {
    /** The style a font face has when nothing else is said: upright, byte 0. */
    static function Default(): (s: FontStyle)
      ensures s.AsU8() == 0
    {
      Normal
    }

    /** Decodes a style byte: 0 and 1 name the two styles, any other byte falls back to the default. */
    static function FromU8(style: u8): (s: FontStyle)
      ensures style <= 1 ==> s.AsU8() == style
      ensures style >= 2 ==> s == Default()
    {
      match style
      case 0 => Normal
      case 1 => Italic
      case _ => Normal
    }

    /** Encodes the style as one bit: Normal is 0, Italic is 1. */
    function AsU8(): (n: u8)
      ensures n <= 1
      ensures (n == 1) == Italic?
    {
      match this
      case Normal => 0
      case Italic => 1
    }
  }

  const FamiliesPrefix := "rbxasset://fonts/families/"
  const FamilySuffix := ".json"

  /** The asset path of the font family with the given name. */
  function FamilyAsset(name: string): (path: string)
    ensures |name| > 0 ==> IsFamilyAssetPath(path)
  {
    FamiliesPrefix + name + FamilySuffix
  }

  /** An asset path of the form rbxasset://fonts/families/<Name>.json with a non-empty name. */
  predicate IsFamilyAssetPath(s: string) {
    |s| > |FamiliesPrefix| + |FamilySuffix|
    && s[..|FamiliesPrefix|] == FamiliesPrefix
    && s[|s| - |FamilySuffix|..] == FamilySuffix
  }

  /** A font face. Equality is structural, as for every Dafny datatype. */
  datatype Font = Font(family: string, weight: FontWeight, style: FontStyle, cachedFaceId: Option<string>)
  {
    /** Regular upright Source Sans Pro, with no cached face id. */
    static function Default(): (f: Font)
      ensures f.family == "rbxasset://fonts/families/SourceSansPro.json" && IsFamilyAssetPath(f.family)
      ensures f.weight.AsU16() == 400 && f.style.AsU8() == 0
      ensures f.cachedFaceId == None
    {
      Font(FamilyAsset("SourceSansPro"), FontWeight.Default(), FontStyle.Default(), None)
    }

    /** A face of the given family, weight and style that has not been resolved to a cached face yet. */
    static function New(family: string, weight: FontWeight, style: FontStyle): (f: Font)
      ensures f.family == family && f.weight == weight && f.style == style
      ensures f.cachedFaceId == None
    {
      Font(family, weight, style, None)
    }

    /** The default face with its family replaced. */
    static function Regular(family: string): (f: Font)
      ensures f == New(family, FontWeight.Default(), FontStyle.Default())
    {
      Default().(family := family)
    }

    /**
     Converts a value of the legacy numeric font enum to a font face.
     Values 0 to 45 each have an entry (16 is listed out of order in the
     table, after 4); every other value has none.
     */
    static function FromFontEnum(value: u32): (r: Option<Font>)
      ensures r.Some? <==> value <= 45
    {
      match value
      case 0 => Some(Regular(FamilyAsset("LegacyArial")))
      case 1 => Some(Regular(FamilyAsset("Arial")))
      case 2 => Some(New(FamilyAsset("Arial"), FontWeight.Bold, FontStyle.Normal))
      case 3 => Some(Regular(FamilyAsset("SourceSansPro")))
      case 4 => Some(New(FamilyAsset("SourceSansPro"), FontWeight.Bold, FontStyle.Normal))
      case 16 => Some(New(FamilyAsset("SourceSansPro"), FontWeight.SemiBold, FontStyle.Normal))
      case 5 => Some(New(FamilyAsset("SourceSansPro"), FontWeight.Light, FontStyle.Normal))
      case 6 => Some(New(FamilyAsset("SourceSansPro"), FontWeight.Regular, FontStyle.Italic))
      case 7 => Some(Regular(FamilyAsset("AccanthisADFStd")))
      case 8 => Some(Regular(FamilyAsset("Guru")))
      case 9 => Some(Regular(FamilyAsset("ComicNeueAngular")))
      case 10 => Some(Regular(FamilyAsset("Inconsolata")))
      case 11 => Some(Regular(FamilyAsset("HighwayGothic")))
      case 12 => Some(Regular(FamilyAsset("Zekton")))
      case 13 => Some(Regular(FamilyAsset("PressStart2P")))
      case 14 => Some(Regular(FamilyAsset("Balthazar")))
      case 15 => Some(Regular(FamilyAsset("RomanAntique")))
      case 17 => Some(Regular(FamilyAsset("GothamSSm")))
      case 18 => Some(New(FamilyAsset("GothamSSm"), FontWeight.Medium, FontStyle.Normal))
      case 19 => Some(New(FamilyAsset("GothamSSm"), FontWeight.Bold, FontStyle.Normal))
      case 20 => Some(New(FamilyAsset("GothamSSm"), FontWeight.Heavy, FontStyle.Normal))
      case 21 => Some(Regular(FamilyAsset("AmaticSC")))
      case 22 => Some(Regular(FamilyAsset("Bangers")))
      case 23 => Some(Regular(FamilyAsset("Creepster")))
      case 24 => Some(Regular(FamilyAsset("DenkOne")))
      case 25 => Some(Regular(FamilyAsset("Fondamento")))
      case 26 => Some(Regular(FamilyAsset("FredokaOne")))
      case 27 => Some(Regular(FamilyAsset("GrenzeGotisch")))
      case 28 => Some(Regular(FamilyAsset("IndieFlower")))
      case 29 => Some(Regular(FamilyAsset("JosefinSans")))
      case 30 => Some(Regular(FamilyAsset("Jura")))
      case 31 => Some(Regular(FamilyAsset("Kalam")))
      case 32 => Some(Regular(FamilyAsset("LuckiestGuy")))
      case 33 => Some(Regular(FamilyAsset("Merriweather")))
      case 34 => Some(Regular(FamilyAsset("Michroma")))
      case 35 => Some(Regular(FamilyAsset("Nunito")))
      case 36 => Some(Regular(FamilyAsset("Oswald")))
      case 37 => Some(Regular(FamilyAsset("PatrickHand")))
      case 38 => Some(Regular(FamilyAsset("PermanentMarker")))
      case 39 => Some(Regular(FamilyAsset("Roboto")))
      case 40 => Some(Regular(FamilyAsset("RobotoCondensed")))
      case 41 => Some(Regular(FamilyAsset("RobotoMono")))
      case 42 => Some(Regular(FamilyAsset("Sarpanch")))
      case 43 => Some(Regular(FamilyAsset("SpecialElite")))
      case 44 => Some(Regular(FamilyAsset("TitilliumWeb")))
      case 45 => Some(Regular(FamilyAsset("Ubuntu")))
      case _ => None
    }
  }

  /** Every face in the legacy table names its family by an asset path and has no cached face id. */
  lemma LegacyTableEntries(value: u32)
    requires value <= 45
    ensures Font.FromFontEnum(value).Some?
    ensures IsFamilyAssetPath(Font.FromFontEnum(value).value.family)
    ensures Font.FromFontEnum(value).value.cachedFaceId == None
  {
  }

  /** Legacy value 3 is the default face. */
  lemma LegacyDefault()
    ensures Font.FromFontEnum(3) == Some(Font.Default())
  {
  }

  /** Decoding the number of a weight gives the weight back. */
  lemma WeightRoundTrip(w: FontWeight)
    ensures FontWeight.FromU16(w.AsU16()) == w
  {
  }

  /** A number decodes to a weight exactly when it is that weight's number, or when it is no weight number and the weight is the default. */
  lemma WeightPreimage(n: u16, w: FontWeight)
    ensures FontWeight.FromU16(n) == w <==> n == w.AsU16() || (!IsWeightNumber(n) && w == FontWeight.Default())
  {
  }

  /** Weight numbers increase strictly along declaration order. */
  lemma WeightNumbersIncrease(a: FontWeight, b: FontWeight)
    ensures a.Rank() < b.Rank() <==> a.AsU16() < b.AsU16()
  {
  }

  /** Every weight number is the number of some weight: the weight encoder is onto 100, 200, ..., 900. */
  lemma WeightNumbersOnto(n: u16)
    requires IsWeightNumber(n)
    ensures exists w: FontWeight :: w.AsU16() == n
  {
    assert FontWeight.FromU16(n).AsU16() == n;
  }

  /** Decoding the byte of a style gives the style back. */
  lemma StyleRoundTrip(s: FontStyle)
    ensures FontStyle.FromU8(s.AsU8()) == s
  {
  }

  /** A byte decodes to a style exactly when it is that style's byte, or when it is 2 or more and the style is the default. */
  lemma StylePreimage(n: u8, s: FontStyle)
    ensures FontStyle.FromU8(n) == s <==> n == s.AsU8() || (n >= 2 && s == FontStyle.Default())
  {
  }

  /** Both style bytes are the byte of some style: the style encoder is onto 0 and 1. */
  lemma StyleBytesOnto(n: u8)
    requires n <= 1
    ensures exists s: FontStyle :: s.AsU8() == n
  {
    assert FontStyle.FromU8(n).AsU8() == n;
  }

  /** A regular face differs from the default face in its family only. */
  lemma RegularIsDefaultWithFamily(family: string)
    ensures Font.Regular(family).family == family
    ensures Font.Regular(family).(family := Font.Default().family) == Font.Default()
  {
  }

  /** A face built from a family, a weight and a style is the regular face of that family exactly when the weight and the style are the defaults. */
  lemma NewIsRegularExactly(family: string, weight: FontWeight, style: FontStyle)
    ensures Font.New(family, weight, style) == Font.Regular(family) <==> weight == FontWeight.Default() && style == FontStyle.Default()
  {
  }
}
