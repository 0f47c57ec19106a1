/** Identifiers, the swash enumerations the index is keyed by, and the entity
    records (sources, faces, families) that the font index stores. */
module FontTypes {

  datatype Option<+T> = None | Some(value: T)

  /** Identifiers are dense indices into the vector that owns the entity. */
  type FamilyId = nat
  type FontId = nat
  type SourceId = nat

  type u32 = x: int | 0 <= x < 0x1_0000_0000

  /** Values supplied by swash; the index stores and returns them unread. */
  type Attributes = nat
  type CacheKey = nat

  /** Writing scripts. The scripts named by the platform tables are listed;
      every other script of swash's enumeration is `Unlisted(tag)`. */
  datatype Script =
    | Latin | Arabic | Armenian | Bengali | Brahmi | Braille | Buginese
    | CanadianAboriginal | Carian | Devanagari | Hebrew | Hangul | Myanmar
    | Malayalam | Han | Hiragana | Katakana | Kharoshthi | Khmer | Lao | Lisu
    | Syriac | Thai | Tibetan | Vai | Yi
    | Unlisted(tag: nat)

  /** Number of slots of the CJK fallback table. */
  const CjkSlots: nat := 5

  /** CJK locale variant; `Unspecified` is swash's `Cjk::None`. */
  datatype Cjk = Unspecified | Traditional | Simplified | Japanese | Korean {
    /** The slot of the CJK table that `cjk as usize` selects; distinct
        variants select distinct slots. */
    function Index(): (i: nat)
      ensures i < CjkSlots && CjkAt(i) == this
    {
      match this
      case Unspecified => 0
      case Traditional => 1
      case Simplified => 2
      case Japanese => 3
      case Korean => 4
    }
  }

  /** The variant whose slot is `i`. */
  function CjkAt(i: nat): (v: Cjk)
    requires i < CjkSlots
  {
    if i == 0 then Unspecified else if i == 1 then Traditional else if i == 2 then Simplified
    else if i == 3 then Japanese else Korean
  }

  /** Number of slots of the generic family table. */
  const GenericSlots: nat := 13

  /** The generic family categories, one slot each. */
  datatype GenericFamily =
    | Serif | SansSerif | Monospace | Cursive | Fantasy | SystemUI
    | UiSerif | UiSansSerif | UiMonospace | UiRounded | Emoji | Math | FangSong
  {
    /** The slot of the generic table that `generic as usize` selects;
        distinct categories select distinct slots. */
    function Index(): (i: nat)
      ensures i < GenericSlots && GenericAt(i) == this
    {
      match this
      case Serif => 0
      case SansSerif => 1
      case Monospace => 2
      case Cursive => 3
      case Fantasy => 4
      case SystemUI => 5
      case UiSerif => 6
      case UiSansSerif => 7
      case UiMonospace => 8
      case UiRounded => 9
      case Emoji => 10
      case Math => 11
      case FangSong => 12
    }
  }

  /** The category whose slot is `i`. */
  function GenericAt(i: nat): (g: GenericFamily)
    requires i < GenericSlots
  {
    if i == 0 then Serif else if i == 1 then SansSerif else if i == 2 then Monospace
    else if i == 3 then Cursive else if i == 4 then Fantasy else if i == 5 then SystemUI
    else if i == 6 then UiSerif else if i == 7 then UiSansSerif else if i == 8 then UiMonospace
    else if i == 9 then UiRounded else if i == 10 then Emoji else if i == 11 then Math
    else FangSong
  }

  /** How a caller names a family: by identifier, by name or by category. */
  datatype FamilyKey = Id(id: FamilyId) | Name(name: string) | Generic(generic: GenericFamily)

  /** Where the bytes of a source live; the buffer contents are not modelled. */
  datatype SourceKind = Memory | File(path: string)

  datatype SourceData = SourceData(id: SourceId, kind: SourceKind)

  /** One face: its family and source, its position inside the source, and
      the attribute and cache-key values swash attached to it. */
  datatype FontData = FontData(
    id: FontId,
    family: FamilyId,
    source: SourceId,
    index: u32,
    offset: u32,
    attributes: Attributes,
    key: CacheKey)

  /** A family: display name (case preserved) and the faces it groups. */
  datatype FamilyData = FamilyData(id: FamilyId, name: string, fonts: seq<FontId>)
}
