/** The closed set of spending categories and the mapping from the
    classifier's machine names to the labels shown to the user
    (`well_formed_category` in flaskr/app.py). */
module Categories {

  /** The seven named categories of `Categories` and the fallback of
      `FallbackCategorie`. */
  datatype Category =
    | Barentnahme
    | Finanzen
    | FreizeitLifestyle
    | Lebenshaltung
    | MobilitaetVerkehr
    | Versicherungen
    | WohnenHaushalt
    | Sonstiges

  /** The enum member's `.name`, the string the classifier reports. */
  function Name(c: Category): string
  {
    match c
    case Barentnahme => "BARENTNAHME"
    case Finanzen => "FINANZEN"
    case FreizeitLifestyle => "FREIZEITLIFESTYLE"
    case Lebenshaltung => "LEBENSHALTUNG"
    case MobilitaetVerkehr => "MOBILITAETVERKEHR"
    case Versicherungen => "VERSICHERUNGEN"
    case WohnenHaushalt => "WOHNENHAUSHALT"
    case Sonstiges => "SONSTIGES"
  }

  /** The label shown on the result and feedback pages. */
  function DisplayLabel(c: Category): string
  {
    match c
    case Barentnahme => "Barentnahme"
    case Finanzen => "Finanzen"
    case FreizeitLifestyle => "Freizeit & Lifestyle"
    case Lebenshaltung => "Lebenshaltung"
    case MobilitaetVerkehr => "Mobilitaet & Verkehrsmittel"
    case Versicherungen => "Versicherungen"
    case WohnenHaushalt => "Wohnen & Haushalt"
    case Sonstiges => "Sonstiges"
  }

  /** The name the classifier uses for its fallback, `fbcat.SONSTIGES.name`. */
  const FallbackName: string := "SONSTIGES"

  predicate IsAsciiLower(ch: char)
  {
    'a' <= ch <= 'z'
  }

  /** Python's `str.upper` on one character.  It is exact on ASCII and on the
      non-ASCII characters whose upper case consists of ASCII letters only
      (dotless i, long s, sharp s and the Latin ligatures ff to st).  Every
      other character is kept as it is: its true upper case contains a
      non-ASCII character either way, so comparing the result with an
      all-ASCII name gives the same answer. */
  function UpperChar(ch: char): string
  {
    if IsAsciiLower(ch) then [(ch as int - 32) as char]
    else if ch == '\U{0131}' then "I"     // dotless i
    else if ch == '\U{017F}' then "S"     // long s
    else if ch == '\U{00DF}' then "SS"    // sharp s
    else if ch == '\U{FB00}' then "FF"
    else if ch == '\U{FB01}' then "FI"
    else if ch == '\U{FB02}' then "FL"
    else if ch == '\U{FB03}' then "FFI"
    else if ch == '\U{FB04}' then "FFL"
    else if ch == '\U{FB05}' || ch == '\U{FB06}' then "ST"
    else [ch]
  }

  /** The upper case of a character is made of characters that upper-casing
      keeps. */
  lemma UpperCharIsFixed(ch: char)
    ensures UpperChar(ch) != []
    ensures forall i :: 0 <= i < |UpperChar(ch)| ==> IsUpperFixed(UpperChar(ch)[i])
  {
  }

  /** Characters that `UpperChar` keeps as they are. */
  predicate IsUpperFixed(ch: char)
  {
    && !IsAsciiLower(ch)
    && ch != '\U{0131}' && ch != '\U{017F}' && ch != '\U{00DF}'
    && !('\U{FB00}' <= ch <= '\U{FB06}')
  }

  /** Python's `str.upper`, character by character. */
  function Upper(s: string): string
  {
    if s == [] then [] else UpperChar(s[0]) + Upper(s[1..])
  }

  /** `well_formed_category`: the if-chain comparing the upper-cased input
      with the seven names in source order. */
  function WellFormedCategory(category: string): (shown: string)
    ensures shown in {"Barentnahme", "Finanzen", "Freizeit & Lifestyle", "Lebenshaltung",
                      "Mobilitaet & Verkehrsmittel", "Versicherungen", "Wohnen & Haushalt", "Sonstiges"}
    ensures shown != "Sonstiges" ==> Upper(category) != FallbackName
  {
    var u := Upper(category);
    if u == Name(Barentnahme) then DisplayLabel(Barentnahme)
    else if u == Name(Finanzen) then DisplayLabel(Finanzen)
    else if u == Name(FreizeitLifestyle) then DisplayLabel(FreizeitLifestyle)
    else if u == Name(Lebenshaltung) then DisplayLabel(Lebenshaltung)
    else if u == Name(MobilitaetVerkehr) then DisplayLabel(MobilitaetVerkehr)
    else if u == Name(Versicherungen) then DisplayLabel(Versicherungen)
    else if u == Name(WohnenHaushalt) then DisplayLabel(WohnenHaushalt)
    else DisplayLabel(Sonstiges)
  }

  /** The reference reading of the mapping: the category whose name is the
      upper-cased input, the fallback when there is none. */
  function Recognise(upper: string): (c: Category)
    ensures c != Sonstiges ==> Name(c) == upper
    ensures c == Sonstiges ==> forall d: Category :: d != Sonstiges ==> Name(d) != upper
  {
    if upper == Name(Barentnahme) then Barentnahme
    else if upper == Name(Finanzen) then Finanzen
    else if upper == Name(FreizeitLifestyle) then FreizeitLifestyle
    else if upper == Name(Lebenshaltung) then Lebenshaltung
    else if upper == Name(MobilitaetVerkehr) then MobilitaetVerkehr
    else if upper == Name(Versicherungen) then Versicherungen
    else if upper == Name(WohnenHaushalt) then WohnenHaushalt
    else Sonstiges
  }

  /** Names and labels are both one-to-one. */
  lemma NamesAndLabelsDistinct(c: Category, d: Category)
    ensures Name(c) == Name(d) ==> c == d
    ensures DisplayLabel(c) == DisplayLabel(d) ==> c == d
  {
  }

  /** The if-chain agrees with the table: the label is that of the category
      the upper-cased input names, and the fallback label otherwise. */
  lemma WellFormedCategoryIsTable(category: string)
    ensures WellFormedCategory(category) == DisplayLabel(Recognise(Upper(category)))
  {
  }

  /** For each named category, the label is that category's label exactly
      when the upper-cased input is its name. */
  lemma WellFormedCategoryKnown(category: string, c: Category)
    requires c != Sonstiges
    ensures WellFormedCategory(category) == DisplayLabel(c) <==> Upper(category) == Name(c)
  {
    WellFormedCategoryIsTable(category);
    var r := Recognise(Upper(category));
    if WellFormedCategory(category) == DisplayLabel(c) {
      NamesAndLabelsDistinct(r, c);
    }
  }

  /** The fallback label is given exactly when the upper-cased input is none
      of the seven names: this includes "SONSTIGES" and the empty string. */
  lemma WellFormedCategoryFallback(category: string)
    ensures WellFormedCategory(category) == "Sonstiges"
            <==> forall c: Category :: c != Sonstiges ==> Upper(category) != Name(c)
  {
    WellFormedCategoryIsTable(category);
    var r := Recognise(Upper(category));
    if WellFormedCategory(category) == "Sonstiges" {
      NamesAndLabelsDistinct(r, Sonstiges);
    }
  }

  /** A string of fixed characters is its own upper case. */
  lemma {:induction false} UpperOfFixed(s: string)
    requires forall i :: 0 <= i < |s| ==> IsUpperFixed(s[i])
    ensures Upper(s) == s
  {
    if s != [] {
      UpperOfFixed(s[1..]);
    }
  }

  lemma {:induction false} UpperOfAppend(s: string, t: string)
    ensures Upper(s + t) == Upper(s) + Upper(t)
  {
    if s == [] {
      assert s + t == t;
    } else {
      assert (s + t)[1..] == s[1..] + t;
      UpperOfAppend(s[1..], t);
    }
  }

  /** Upper-casing twice is upper-casing once. */
  lemma {:induction false} UpperIdempotent(s: string)
    ensures Upper(Upper(s)) == Upper(s)
  {
    if s != [] {
      var head := UpperChar(s[0]);
      UpperCharIsFixed(s[0]);
      UpperOfFixed(head);
      UpperOfAppend(head, Upper(s[1..]));
      UpperIdempotent(s[1..]);
    }
  }

  /** The mapping ignores case: it depends only on the upper-cased input. */
  lemma WellFormedCategoryCaseInsensitive(category: string)
    ensures WellFormedCategory(Upper(category)) == WellFormedCategory(category)
  {
    UpperIdempotent(category);
    WellFormedCategoryIsTable(category);
    WellFormedCategoryIsTable(Upper(category));
  }

  /** On ASCII text, upper-casing works character by character and keeps the
      length. */
  lemma {:induction false} UpperOfAscii(s: string)
    requires forall i :: 0 <= i < |s| ==> s[i] < 128 as char
    ensures |Upper(s)| == |s|
    ensures forall i :: 0 <= i < |s| ==> UpperChar(s[i]) == [Upper(s)[i]]
  {
    if s != [] {
      UpperOfAscii(s[1..]);
    }
  }

  /** Names are written in characters that upper-casing keeps: below 'a',
      and so neither a lower-case letter nor one of the special characters. */
  lemma NameIsUpperCase(c: Category)
    ensures forall i :: 0 <= i < |Name(c)| ==> IsUpperFixed(Name(c)[i])
  {
    if c in {Barentnahme, Finanzen, FreizeitLifestyle, Lebenshaltung} {
      FirstNamesBelowLowerCase(c);
    } else {
      LastNamesBelowLowerCase(c);
    }
  }

  lemma FirstNamesBelowLowerCase(c: Category)
    requires c in {Barentnahme, Finanzen, FreizeitLifestyle, Lebenshaltung}
    ensures forall i :: 0 <= i < |Name(c)| ==> Name(c)[i] < 'a'
  {
  }

  lemma LastNamesBelowLowerCase(c: Category)
    requires c in {MobilitaetVerkehr, Versicherungen, WohnenHaushalt, Sonstiges}
    ensures forall i :: 0 <= i < |Name(c)| ==> Name(c)[i] < 'a'
  {
  }

  /** Every category's own name maps to its label; the fallback's name maps to
      the fallback label. */
  lemma WellFormedCategoryOfName(c: Category)
    ensures WellFormedCategory(Name(c)) == DisplayLabel(c)
  {
    var s := Name(c);
    NameIsUpperCase(c);
    UpperOfFixed(s);
    WellFormedCategoryIsTable(s);
    var r := Recognise(s);
    if r != c {
      if r != Sonstiges {
        NamesAndLabelsDistinct(r, c);
      }
    }
  }

  /** Lower-case spellings are recognised. */
  lemma WellFormedCategoryLowerCase(category: string)
    requires category == "barentnahme"
    ensures WellFormedCategory(category) == "Barentnahme"
  {
    UpperOfAscii(category);
    assert Upper(category) == Name(Barentnahme);
    WellFormedCategoryKnown(category, Barentnahme);
  }

  /** Mixed-case spellings are recognised. */
  lemma WellFormedCategoryMixedCase(category: string)
    requires category == "WohnenHaushalt"
    ensures WellFormedCategory(category) == "Wohnen & Haushalt"
  {
    UpperOfAscii(category);
    assert Upper(category) == Name(WohnenHaushalt);
    WellFormedCategoryKnown(category, WohnenHaushalt);
  }

  /** The fallback name itself is shown with the fallback label. */
  lemma WellFormedCategoryOfFallback(category: string)
    requires category == FallbackName
    ensures WellFormedCategory(category) == "Sonstiges"
  {
    WellFormedCategoryOfName(Sonstiges);
  }

  /** The lower-case fallback name is not the fallback name, and it is
      shown with the fallback label. */
  lemma WellFormedCategoryLowerFallback(category: string)
    requires category == "sonstiges"
    ensures category != FallbackName
    ensures WellFormedCategory(category) == "Sonstiges"
  {
    assert category[0] != FallbackName[0];
    UpperOfAscii(category);
    assert Upper(category) == Name(Sonstiges);
    WellFormedCategoryOfName(Sonstiges);
    WellFormedCategoryCaseInsensitive(category);
  }

  /** The empty string falls back. */
  lemma WellFormedCategoryEmpty()
    ensures WellFormedCategory("") == "Sonstiges"
  {
    WellFormedCategoryFallback("");
  }
}
