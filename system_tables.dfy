/** The per-platform priority lists of candidate family names that the
    static index probes when it derives its fallback tables. The operating
    system is a parameter of the model instead of a build-time constant. */
module SystemTables {
  import opened FontTypes

  datatype Os = Windows | MacOs | Ios | Android | Unix | Other

  /** One `map_script` step: the script and its candidate names, in priority order. */
  datatype ScriptPriority = ScriptPriority(script: Script, names: seq<string>)

  /** Candidate names for one CJK variant. `Unspecified` has no list of its
      own: its slot is copied from `Traditional`. Every platform other than
      Windows and macOS shares one branch. */
  function CjkCandidates(os: Os, v: Cjk): seq<string>
  {
    match os
    case Windows =>
      (match v
       case Simplified => ["microsoft yahei", "simsun", "simsun-extb"]
       case Traditional => ["microsoft jhenghei", "pmingliu", "pmingliu-extb"]
       case Japanese => ["meiryo", "yu gothic", "microsoft yahei", "simsun", "simsun-extb"]
       case Korean => ["malgun gothic", "gulim", "microsoft yahei", "simsun", "simsun-extb"]
       case Unspecified => [])
    case MacOs =>
      (match v
       case Simplified => ["pingfang sc"]
       case Traditional => ["pingfang tc"]
       case Japanese => ["hiragino kaku gothic pron w3"]
       case Korean => ["apple sd gothic neo"]
       case Unspecified => [])
    case _ =>
      (match v
       case Simplified => ["noto sans cjk sc", "noto serif cjk sc"]
       case Traditional => ["noto sans cjk tc", "noto serif cjk tc"]
       case Japanese => ["noto sans cjk jp", "noto serif cjk jp"]
       case Korean => ["noto sans cjk kr", "noto serif cjk kr"]
       case Unspecified => [])
  }

  /** The `map_script` calls of each platform branch, in call order. */
  function ScriptPriorities(os: Os): seq<ScriptPriority>
  {
    match os
    case Windows => [
      ScriptPriority(Latin, ["times new roman"]),
      ScriptPriority(Arabic, ["tahoma", "segoe ui"]),
      ScriptPriority(Armenian, ["segoe ui", "sylfaen"]),
      ScriptPriority(Bengali, ["nirmala ui", "vrinda"]),
      ScriptPriority(Brahmi, ["segoe ui historic"]),
      ScriptPriority(Braille, ["segoe ui symbol"]),
      ScriptPriority(Buginese, ["leelawadee ui"]),
      ScriptPriority(CanadianAboriginal, ["gadugi", "euphemia"]),
      ScriptPriority(Carian, ["segoe ui historic"]),
      ScriptPriority(Devanagari, ["nirmala ui", "mangal"]),
      ScriptPriority(Hebrew, ["david", "segoe ui", "calibri"]),
      ScriptPriority(Hangul, ["malgun gothic", "gulim"]),
      ScriptPriority(Myanmar, ["myanmar text"]),
      ScriptPriority(Malayalam, ["nirmala ui", "kartika"]),
      ScriptPriority(Han, ["microsoft yahei", "simsun", "simsun-extb"]),
      ScriptPriority(Hiragana, ["meiryo", "yu gothic", "ms pgothic", "microsoft yahei"]),
      ScriptPriority(Katakana, ["meiryo", "yu gothic", "ms pgothic", "microsoft yahei"]),
      ScriptPriority(Kharoshthi, ["segoe ui historic"]),
      ScriptPriority(Khmer, ["leelawadee ui", "khmer ui", "khmer os", "moolboran", "daunpenh"]),
      ScriptPriority(Lao, ["leelawadee ui", "lao ui", "dokchampa", "saysettha ot", "phetsarath ot", "code2000"]),
      ScriptPriority(Lisu, ["segoe ui"]),
      ScriptPriority(Syriac, ["estrangelo edessa", "estrangelo nisibin", "code2000"]),
      ScriptPriority(Thai, ["tahoma", "leelawadee ui", "leelawadee"]),
      ScriptPriority(Tibetan, ["microsoft himalaya", "jomolhari", "tibetan machine uni"]),
      ScriptPriority(Vai, ["ebrima"]),
      ScriptPriority(Yi, ["microsoft yi baiti", "nuosu sil", "code2000"])
    ]
    case MacOs => [
      ScriptPriority(Latin, ["times", "times new roman"]),
      ScriptPriority(Arabic, ["geeza pro"]),
      ScriptPriority(Devanagari, ["itf devanagari", "kohinoor devanagari", "devanagari sangam mn", "devanagari mt"]),
      ScriptPriority(Bengali, []),
      ScriptPriority(Myanmar, ["noto sans myanmar", "myanmar mn"]),
      ScriptPriority(Malayalam, ["malayalam mn"]),
      ScriptPriority(Hebrew, ["lucida grande", "arial hebrew"])
    ]
    case _ => [
      ScriptPriority(Hiragana, ["noto sans cjk jp"]),
      ScriptPriority(Katakana, ["noto sans cjk jp"]),
      ScriptPriority(Latin, ["liberation sans", "dejavu sans", "ubuntu", "source sans pro"]),
      ScriptPriority(Arabic, ["noto sans arabic"]),
      ScriptPriority(Hebrew, ["noto sans hebrew", "noto serif hebrew"]),
      ScriptPriority(Bengali, ["noto sans bengali", "noto serif bengali"]),
      ScriptPriority(Devanagari, ["noto sans devanagari", "noto serif devanagari"]),
      ScriptPriority(Malayalam, ["noto sans malayalam", "noto serif malayalam"]),
      ScriptPriority(Myanmar, ["noto sans myanmar", "noto serif myanmar"])
    ]
  }

  /** The generic slots every platform branch of `setup_default_generic`
      writes, in the order it writes them. */
  const DefaultGenericSlots: seq<GenericFamily> := [SansSerif, Serif, Monospace, Fantasy, Cursive, SystemUI, Emoji]

  predicate IsDefaultGenericSlot(g: GenericFamily)
  {
    g in DefaultGenericSlots
  }

  /** Candidate names per generic category; empty for the slots no branch writes.
      Unix and every unknown platform share one branch. */
  function GenericCandidates(os: Os, g: GenericFamily): seq<string>
  {
    match os
    case Windows =>
      (match g
       case SansSerif => ["arial"]
       case Serif => ["times new roman"]
       case Monospace => ["courier new"]
       case Fantasy => ["impact"]
       case Cursive => ["comic sans ms"]
       case SystemUI => ["segoe ui"]
       case Emoji => ["segoe ui emoji"]
       case _ => [])
    case MacOs =>
      (match g
       case SansSerif => ["helvetica"]
       case Serif => ["times"]
       case Monospace => ["courier"]
       case Fantasy => ["papyrus"]
       case Cursive => ["apple chancery"]
       case SystemUI => ["system font", "helvetica"]
       case Emoji => ["apple color emoji"]
       case _ => [])
    case Ios =>
      (match g
       case SansSerif => ["helvetica"]
       case Serif => ["times new roman"]
       case Monospace => ["courier"]
       case Fantasy => ["papyrus"]
       case Cursive => ["snell roundhand"]
       case SystemUI => ["system font", "helvetica"]
       case Emoji => ["apple color emoji"]
       case _ => [])
    case Android =>
      (match g
       case SansSerif => ["roboto"]
       case Serif => ["noto serif", "droid serif"]
       case Monospace => ["droid sans mono"]
       case Fantasy => ["noto serif"]
       case Cursive => ["dancing script"]
       case SystemUI => ["roboto"]
       case Emoji => ["noto color emoji"]
       case _ => [])
    case Unix | Other =>
      (match g
       case SansSerif => ["liberation sans", "dejavu sans"]
       case Serif => ["liberation serif", "dejavu serif", "noto serif", "times new roman"]
       case Monospace => ["dejavu sans mono"]
       case Fantasy => ["liberation serif", "dejavu serif"]
       case Cursive => ["liberation serif", "dejavu serif"]
       case SystemUI => ["liberation sans", "dejavu sans"]
       case Emoji => ["noto color emoji", "emoji one"]
       case _ => [])
  }
}
