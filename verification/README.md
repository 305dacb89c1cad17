# Font face value type

A Dafny model of the font face value of the `rbx_types` crate, one of the
composite property kinds that the XML codec reads and writes. A font face is a
family (an asset path such as `rbxasset://fonts/families/Arial.json`), a
weight, a style and an optional cached face id.

- `FontWeight` has nine variants, Thin to Heavy, with a numeric codec to and
  from the CSS-style numbers 100 to 900. An unknown number decodes to
  `Regular`, the default weight.
- `FontStyle` has the variants `Normal` and `Italic`, with a byte codec to and
  from 0 and 1. Any other byte decodes to `Normal`, the default style.
- `Font` has a default face (regular upright Source Sans Pro), the
  constructors `New` and `Regular`, and the table `FromFontEnum`. That table
  converts a value of the legacy numeric font enum (0 to 45) to a font face
  and gives `None` for any other value.

Everything lives in module `Fonts` (`fonts.dfy`); the `Option` type is in
module `Wrappers` (`wrappers.dfy`). Rust's `u8`, `u16` and `u32` are bounded
subset types of `int`. The derived equality on `Font` is structural, which is
Dafny's datatype equality. Each family path of the legacy table is built by
`FamilyAsset` from the shared prefix `rbxasset://fonts/families/`, the family
name and the suffix `.json`. The resulting strings are the same as the literal
paths in the source table.

## Model

| member | source | states |
|---|---|---|
| `Fonts.FontWeight.Rank` | rbx_types/src/font.rs:3-13 | the position of a weight in declaration order is at most 8, and it is 0 exactly for Thin and 8 exactly for Heavy |
| `Fonts.FontWeight.Default` | rbx_types/src/font.rs:15-19 | the default weight is the one whose number is 400 |
| `Fonts.FontWeight.FromU16` | rbx_types/src/font.rs:22-35 | each of 100, 200, ..., 900 decodes to the weight that encodes to it; every other number decodes to the default weight |
| `Fonts.FontWeight.AsU16` | rbx_types/src/font.rs:36-48 | the number of a weight is a multiple of 100 in [100, 900], namely 100 times one more than its position in declaration order |
| `Fonts.WeightRoundTrip` | rbx_types/src/font.rs:22-48 | decoding the number of any weight gives that weight back |
| `Fonts.WeightPreimage` | rbx_types/src/font.rs:22-48 | a number decodes to a weight exactly when it is that weight's number, or when it is no weight number and the weight is the default |
| `Fonts.WeightNumbersOnto` | rbx_types/src/font.rs:36-48 | every number 100, 200, ..., 900 is the number of some weight |
| `Fonts.WeightNumbersIncrease` | rbx_types/src/font.rs:3-48 | weight numbers increase strictly along declaration order, in both directions of the equivalence |
| `Fonts.FontStyle.Default` | rbx_types/src/font.rs:58-62 | the default style is the one whose byte is 0 |
| `Fonts.FontStyle.FromU8` | rbx_types/src/font.rs:65-71 | bytes 0 and 1 decode to the style that encodes to them; every byte from 2 up decodes to the default style |
| `Fonts.FontStyle.AsU8` | rbx_types/src/font.rs:73-78 | the byte of a style is 0 or 1, and it is 1 exactly for Italic |
| `Fonts.StyleRoundTrip` | rbx_types/src/font.rs:65-78 | decoding the byte of any style gives that style back |
| `Fonts.StylePreimage` | rbx_types/src/font.rs:65-78 | a byte decodes to a style exactly when it is that style's byte, or when it is 2 or more and the style is the default |
| `Fonts.StyleBytesOnto` | rbx_types/src/font.rs:73-78 | both 0 and 1 are the byte of some style |
| `Fonts.FamilyAsset` | rbx_types/src/font.rs:123-200 | a non-empty family name wrapped in the families prefix and the `.json` suffix is a family asset path |
| `Fonts.Font.Default` | rbx_types/src/font.rs:95-104 | the default face has the Source Sans Pro asset path `rbxasset://fonts/families/SourceSansPro.json` as its family, weight number 400, style byte 0 and no cached face id |
| `Fonts.Font.New` | rbx_types/src/font.rs:107-114 | the face keeps the given family, weight and style and has no cached face id |
| `Fonts.Font.Regular` | rbx_types/src/font.rs:115-120 | the regular face of a family is the face built by `New` from that family with the default weight and style |
| `Fonts.RegularIsDefaultWithFamily` | rbx_types/src/font.rs:95-120 | a regular face has the given family and becomes the default face when the default family is put back: it differs from the default only in its family |
| `Fonts.NewIsRegularExactly` | rbx_types/src/font.rs:95-120 | `New` gives the regular face of a family exactly when the weight and the style are the defaults |
| `Fonts.Font.FromFontEnum` | rbx_types/src/font.rs:121-203 | the legacy table has an entry exactly for the values 0 to 45 (16 included, though it is listed out of order) and none for any larger value |
| `Fonts.LegacyTableEntries` | rbx_types/src/font.rs:121-203 | every entry of the legacy table has no cached face id and a family that starts with `rbxasset://fonts/families/` and ends with `.json` |
| `Fonts.LegacyDefault` | rbx_types/src/font.rs:95-130 | legacy value 3 gives exactly the default face |

## Left out

- The `serde` derives and the camelCase renaming (rbx_types/src/font.rs lines 2, 52, 83-87) are generated serialization code and are not modelled.
- The derived `Debug` and `Hash` implementations are formatting and hashing only and are not modelled; the derived equality is Dafny's structural datatype equality.
- Ownership and borrowing (`&str` arguments copied with `to_owned`) have no counterpart: Dafny strings are values.
- The rest of the XML codec (document reader and writer, serializer, deserializer, referent resolution) is not part of this model; `rbx_xml/src/lib.rs` only declares modules and re-exports.
- The `UniqueId` XML binding (rbx_xml/src/types/unique_id.rs) only delegates to a parser and printer of a crate that is not part of this model, and to the XML streams.
- The reflection database loader (rbx_reflection_database/src/lib.rs) is file and environment I/O, MessagePack decoding and process-wide caching; the superclass walk its tests use lives in a crate that is not part of this model.
