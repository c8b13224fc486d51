/** The fifteen language tags the HoYoLAB endpoints accept, and `Language.parseLang`. */
module Language {
  import opened Wrappers

  /** `LanguageEnum`, in declaration order. */
  datatype Lang =
    | SimplifiedChinese
    | TraditionalChinese
    | German
    | English
    | Spanish
    | French
    | Indonesian
    | Italian
    | Japanese
    | Korean
    | Portuguese
    | Russian
    | Thai
    | Turkish
    | Vietnamese

  /** The string value of each enum member. */
  function Tag(l: Lang): string
  {
    match l
    case SimplifiedChinese => "zh-cn"
    case TraditionalChinese => "zh-tw"
    case German => "de-de"
    case English => "en-us"
    case Spanish => "es-es"
    case French => "fr-fr"
    case Indonesian => "id-id"
    case Italian => "it-it"
    case Japanese => "ja-jp"
    case Korean => "ko-kr"
    case Portuguese => "pt-pt"
    case Russian => "ru-ru"
    case Thai => "th-th"
    case Turkish => "tr-tr"
    case Vietnamese => "vi-vn"
  }

  /** `Object.keys(LanguageEnum)`: every member, in declaration order. */
  const Members: seq<Lang> := [
    SimplifiedChinese, TraditionalChinese, German, English, Spanish,
    French, Indonesian, Italian, Japanese, Korean,
    Portuguese, Russian, Thai, Turkish, Vietnamese
  ]

  /** The position of each member in `Members`. */
  function Position(l: Lang): (i: nat)
    ensures i < |Members| && Members[i] == l
  {
    match l
    case SimplifiedChinese => 0
    case TraditionalChinese => 1
    case German => 2
    case English => 3
    case Spanish => 4
    case French => 5
    case Indonesian => 6
    case Italian => 7
    case Japanese => 8
    case Korean => 9
    case Portuguese => 10
    case Russian => 11
    case Thai => 12
    case Turkish => 13
    case Vietnamese => 14
  }

  predicate IsTag(s: string)
  {
    exists l: Lang :: Tag(l) == s
  }

  /** Every tag is two letters, a `-` and two letters. */
  lemma TagShape(l: Lang)
    ensures |Tag(l)| == 5 && Tag(l)[2] == '-' && Tag(l)[0] != '-' && Tag(l)[1] != '-'
  {
  }

  /** Only five-character strings are tags; in particular the empty string is none. */
  lemma IsTagLength(s: string)
    ensures IsTag(s) ==> |s| == 5
  {
    if IsTag(s) {
      var l :| Tag(l) == s;
      TagShape(l);
    }
  }

  /** No two members share a tag. */
  lemma TagInjective(a: Lang, b: Lang)
    requires Tag(a) == Tag(b)
    ensures a == b
  {
    assert Tag(a)[0] == Tag(b)[0] && Tag(a)[1] == Tag(b)[1];
    assert Tag(a)[3] == Tag(b)[3] && Tag(a)[4] == Tag(b)[4];
  }

  /** `langKeys.find(key => LanguageEnum[key] === s)` over `ls`. */
  function Find(ls: seq<Lang>, s: string): (r: Option<Lang>)
    ensures r.Some? ==> r.value in ls && Tag(r.value) == s
    ensures r.None? ==> forall l :: l in ls ==> Tag(l) != s
  {
    if |ls| == 0 then None
    else if Tag(ls[0]) == s then Some(ls[0])
    else Find(ls[1..], s)
  }

  /**
   * `parseLang(lang)`: English for `null`, `undefined` and the empty string;
   * the matching member for one of the fifteen tags; English for anything else.
   */
  function ParseLang(lang: Option<string>): (r: Lang)
    ensures lang.None? || lang.value == "" ==> r == English
    ensures lang.Some? && IsTag(lang.value) ==> Tag(r) == lang.value
    ensures lang.Some? && !IsTag(lang.value) ==> r == English
  {
    if lang.None? || lang.value == "" then English
    else
      match Find(Members, lang.value)
      case Some(l) => l
      case None =>
        assert !IsTag(lang.value) by {
          forall l: Lang ensures Tag(l) != lang.value {
            assert Members[Position(l)] == l;
          }
        }
        English
  }

  /** Every member's own tag parses back to that member. */
  lemma ParseLangOfTag(l: Lang)
    ensures ParseLang(Some(Tag(l))) == l
  {
    var r := ParseLang(Some(Tag(l)));
    assert IsTag(Tag(l));
    TagInjective(r, l);
  }

  /** Parsing is idempotent on its own output. */
  lemma ParseLangIdempotent(lang: Option<string>)
    ensures ParseLang(Some(Tag(ParseLang(lang)))) == ParseLang(lang)
  {
    ParseLangOfTag(ParseLang(lang));
  }

  /** Tags that differ in case or are bare language codes fall back to English. */
  lemma ParseLangExamples()
    ensures ParseLang(Some("en")) == English
    ensures ParseLang(Some("EN-US")) == English
    ensures ParseLang(Some("id-id")) == Indonesian
    ensures ParseLang(None) == English
  {
    assert !IsTag("en") by {
      forall l: Lang ensures Tag(l) != "en" {
        assert |Tag(l)| == 5;
      }
    }
    assert !IsTag("EN-US") by {
      forall l: Lang ensures Tag(l) != "EN-US" {
        assert Tag(l)[0] != 'E';
      }
    }
    ParseLangOfTag(Indonesian);
  }
}
