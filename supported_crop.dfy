/**
 * The crops the disease-risk endpoints accept, each with its Russian name,
 * and the lookup of a crop by a user-supplied name: trimmed, then compared
 * with every name ignoring case, in declaration order.
 */
module SupportedCrop {
  import opened Wrappers
  import Strings

  datatype Crop = Wheat | WinterWheat | SpringWheat | Barley | Corn | Sunflower | Soy | Rapeseed | Potato | Oats

  /** The constants in declaration order, as `values()` lists them. */
  const Values: seq<Crop> := [Wheat, WinterWheat, SpringWheat, Barley, Corn, Sunflower, Soy, Rapeseed, Potato, Oats]

  /** `values()` lists every constant. */
  lemma EveryCropListed()
    ensures forall c: Crop :: c in Values
  {
    forall c: Crop
      ensures c in Values
    {
      match c
      case Wheat =>
      case WinterWheat => assert Values[1] == c;
      case SpringWheat => assert Values[2] == c;
      case Barley => assert Values[3] == c;
      case Corn => assert Values[4] == c;
      case Sunflower => assert Values[5] == c;
      case Soy => assert Values[6] == c;
      case Rapeseed => assert Values[7] == c;
      case Potato => assert Values[8] == c;
      case Oats => assert Values[9] == c;
    }
  }

  function RussianName(c: Crop): string {
    match c
    case Wheat => "пшеница"
    case WinterWheat => "пшеница озимая"
    case SpringWheat => "пшеница яровая"
    case Barley => "ячмень"
    case Corn => "кукуруза"
    case Sunflower => "подсолнечник"
    case Soy => "соя"
    case Rapeseed => "рапс"
    case Potato => "картофель"
    case Oats => "овёс"
  }

  predicate IsUpper(c: char) {
    ('A' <= c <= 'Z') || ('Ѐ' <= c <= 'Я')
  }

  /**
   * Lower-casing of one character for the Latin letters and the basic
   * Cyrillic block (including Ё); every other character is kept.
   */
  function Lower(c: char): (l: char)
    ensures !IsUpper(l)
    ensures !IsUpper(c) ==> l == c
  {
    if 'A' <= c <= 'Z' then (c as int + 32) as char
    else if 'А' <= c <= 'Я' then (c as int + 32) as char
    else if 'Ѐ' <= c <= 'Џ' then (c as int + 80) as char
    else c
  }

  function LowerText(s: string): (t: string)
    ensures |t| == |s|
    ensures forall i :: 0 <= i < |s| ==> t[i] == Lower(s[i])
  {
    seq(|s|, i requires 0 <= i < |s| => Lower(s[i]))
  }

  /** `equalsIgnoreCase` under the folding above: equal after lower-casing both sides. */
  predicate SameIgnoringCase(a: string, b: string) {
    LowerText(a) == LowerText(b)
  }

  /** The lookup key: the name trimmed and lower-cased. */
  function Normalized(name: string): string {
    LowerText(Strings.Trim(name))
  }

  /** The first crop of `cs` whose name matches `key` ignoring case. */
  function Lookup(cs: seq<Crop>, key: string): (r: Option<Crop>)
    ensures r.Some? ==> r.value in cs && SameIgnoringCase(RussianName(r.value), key)
    ensures r.None? <==> forall c :: c in cs ==> !SameIgnoringCase(RussianName(c), key)
  {
    if cs == [] then None
    else if SameIgnoringCase(RussianName(cs[0]), key) then Some(cs[0])
    else Lookup(cs[1..], key)
  }

  const SupportedList := "пшеница, пшеница озимая, пшеница яровая, ячмень, кукуруза, подсолнечник, соя, рапс, картофель, овёс"

  /** The `IllegalArgumentException` message for an unsupported name. */
  function Unsupported(name: string): string {
    "Неподдерживаемая культура: '" + name + "'. " + "Поддерживаемые культуры: " + SupportedList
  }

  /** `fromRussianName`: null means wheat; otherwise the matching crop, or the error. */
  function FromRussianName(name: Option<string>): (r: Result<Crop, string>)
    ensures name.None? ==> r == Ok(Wheat)
    ensures name.Some? && r.Ok? ==> SameIgnoringCase(RussianName(r.value), Normalized(name.value))
    ensures name.Some? && r.Err? ==>
              r.error == Unsupported(name.value) &&
              forall c: Crop :: !SameIgnoringCase(RussianName(c), Normalized(name.value))
  {
    if name.None? then Ok(Wheat)
    else
      EveryCropListed();
      var found := Lookup(Values, Normalized(name.value));
      if found.Some? then Ok(found.value) else Err(Unsupported(name.value))
  }

  /** `isSupported`: false for null; otherwise whether some crop's name matches. */
  function IsSupported(name: Option<string>): bool {
    name.Some? && Lookup(Values, Normalized(name.value)).Some?
  }

  /** For a non-null name, it is supported iff the lookup returns a crop; null differs between the two. */
  lemma SupportedIffFound(name: Option<string>)
    ensures name.Some? ==> (IsSupported(name) <==> FromRussianName(name).Ok?)
    ensures !IsSupported(None) && FromRussianName(None) == Ok(Wheat)
  {
  }

  predicate NoUpper(s: string) {
    forall i :: 0 <= i < |s| ==> !IsUpper(s[i])
  }

  /** Every name is already in lower case. */
  lemma {:induction false} NamesAreLower(c: Crop)
    ensures NoUpper(RussianName(c))
    ensures LowerText(RussianName(c)) == RussianName(c)
  {
    var n := RussianName(c);
    assert NoUpper(n) by {
      match c
      case Wheat =>
      case WinterWheat =>
      case SpringWheat =>
      case Barley =>
      case Corn =>
      case Sunflower =>
      case Soy =>
      case Rapeseed =>
      case Potato =>
      case Oats =>
    }
    assert LowerText(n) == n;
  }

  /** The ten names are pairwise distinct. */
  lemma NamesDistinct(c: Crop, d: Crop)
    ensures RussianName(c) == RussianName(d) ==> c == d
  {
  }

  /** At most one crop matches any name, so the declaration order of the search does not matter. */
  lemma {:induction false} AtMostOneMatch(key: string, c: Crop, d: Crop)
    requires SameIgnoringCase(RussianName(c), key) && SameIgnoringCase(RussianName(d), key)
    ensures c == d
  {
    NamesAreLower(c);
    NamesAreLower(d);
    NamesDistinct(c, d);
  }

  /** Each crop is found by its own name, whatever blank padding surrounds it. */
  lemma {:induction false} FindsOwnName(c: Crop, a: string, b: string)
    requires Strings.AllBlank(a) && Strings.AllBlank(b)
    ensures FromRussianName(Some(a + RussianName(c) + b)) == Ok(c)
  {
    var n := RussianName(c);
    NamesAreLower(c);
    assert !Strings.IsBlank(n[0]) && !Strings.IsBlank(n[|n| - 1]) by {
      match c
      case Wheat =>
      case WinterWheat =>
      case SpringWheat =>
      case Barley =>
      case Corn =>
      case Sunflower =>
      case Soy =>
      case Rapeseed =>
      case Potato =>
      case Oats =>
    }
    Strings.TrimRemovesPadding(a, n, b);
    assert Normalized(a + n + b) == n;
    var r := FromRussianName(Some(a + n + b));
    EveryCropListed();
    assert r.Ok?;
    AtMostOneMatch(n, r.value, c);
  }
}
