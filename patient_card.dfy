/** The patient card: the fields it shows with their fallbacks, the gender
    badge's text and colour, and the target of its AI-suggestion button. */
module PatientCard {
  import opened Wrappers
  import opened Text
  import opened Json

  /** The destructured fields of `patient || {}`. A default replaces a field
      only when it is `undefined`; a `null` field stays `null`. */
  datatype CardFields = CardFields(id: Value, name: Value, age: Value, gender: Value, contact: Value)

  function OrDefault(obj: Object, key: string, default: Value): (v: Value)
    ensures key in obj ==> v == obj[key]
    ensures key !in obj ==> v == default
  {
    if key in obj then obj[key] else default
  }

  /** `patient` is None when the card receives `null` or `undefined`. */
  function Fields(patient: Option<Object>): (f: CardFields)
    ensures patient.None? ==> f == CardFields(Str(""), Str("Unknown"), Int(0), Str("unknown"), Str("N/A"))
  {
    var obj := if patient.Some? then patient.value else map[];
    CardFields(OrDefault(obj, "id", Str("")),
               OrDefault(obj, "name", Str("Unknown")),
               OrDefault(obj, "age", Int(0)),
               OrDefault(obj, "gender", Str("unknown")),
               OrDefault(obj, "contact", Str("N/A")))
  }

  /** A field the patient provides is shown as given, even when it is falsy. */
  lemma FieldsKeepGiven(patient: Object)
    ensures "gender" in patient ==> Fields(Some(patient)).gender == patient["gender"]
    ensures "name" in patient ==> Fields(Some(patient)).name == patient["name"]
    ensures "gender" !in patient ==> Fields(Some(patient)).gender == Str("unknown")
  {
  }

  /** `s.charAt(0).toUpperCase() + s.slice(1).toLowerCase()` on a non-empty
      string. */
  function Capitalize(s: string): (r: string)
    requires s != ""
    ensures |r| == |s|
    ensures ToLower(r) == ToLower(s)
    ensures !IsAsciiLower(r[0])
    ensures forall i :: 1 <= i < |r| ==> !IsAsciiUpper(r[i])
  {
    [UpperChar(s[0])] + ToLower(s[1..])
  }

  /** The capitalised form is the only string with the same letters, ignoring
      case, whose first character is not a small letter and whose other
      characters are not capitals. */
  lemma {:induction false} CapitalizeUnique(s: string, t: string)
    requires s != "" && |t| == |s|
    requires ToLower(t) == ToLower(s)
    requires !IsAsciiLower(t[0])
    requires forall i :: 1 <= i < |t| ==> !IsAsciiUpper(t[i])
    ensures t == Capitalize(s)
  {
    var r := Capitalize(s);
    assert ToLower(r) == ToLower(t);
    forall i | 0 <= i < |t|
      ensures t[i] == r[i]
    {
      assert ToLower(r)[i] == ToLower(t)[i];
      SameFold(t[i], r[i], i == 0);
    }
  }

  /** Two characters with the same small form are equal when both are
      upper-case-or-other (`first`) or both are not capitals. */
  lemma SameFold(a: char, b: char, first: bool)
    requires LowerChar(a) == LowerChar(b)
    requires first ==> !IsAsciiLower(a) && !IsAsciiLower(b)
    requires !first ==> !IsAsciiUpper(a) && !IsAsciiUpper(b)
    ensures a == b
  {
  }

  /** Formatting a formatted gender changes nothing more. */
  lemma CapitalizeIdempotent(s: string)
    requires s != ""
    ensures Capitalize(Capitalize(s)) == Capitalize(s)
  {
    var r := Capitalize(s);
    CapitalizeUnique(r, r);
  }

  /** The badge text ignores how the gender was capitalised. */
  lemma CapitalizeIgnoresCase(s: string)
    requires s != ""
    ensures Capitalize(ToLower(s)) == Capitalize(s)
  {
    ToLowerIdempotent(s);
    CapitalizeUnique(ToLower(s), Capitalize(s));
  }

  /** `formatGender(gender)`: 'Unknown' for a falsy value, the capitalised
      string otherwise. Any other truthy value has no `charAt`, so the call
      throws a TypeError, modelled as None. */
  function FormatGender(gender: Value): (r: Option<string>)
    ensures !Truthy(Some(gender)) ==> r == Some("Unknown")
    ensures gender.Str? && gender.s != "" ==> r == Some(Capitalize(gender.s))
    ensures r.None? <==> Truthy(Some(gender)) && !gender.Str?
  {
    if !Truthy(Some(gender)) then Some("Unknown")
    else if gender.Str? then Some(Capitalize(gender.s))
    else None
  }

  /** A card for a patient without a gender shows "Unknown", as does one whose
      gender is `null` or empty. */
  lemma MissingGenderShowsUnknown(patient: Option<Object>)
    requires patient.None? || "gender" !in patient.value ||
             patient.value["gender"] in {Null, Str("")}
    ensures FormatGender(Fields(patient).gender) == Some("Unknown")
  {
    var rest := "unknown"[1..];
    assert rest == "nknown";
    assert ToLower(rest) == "nknown";
    assert Capitalize("unknown") == [UpperChar('u')] + "nknown" == "Unknown";
  }

  const MaleStyle := "bg-blue-500/20 text-blue-300"
  const FemaleStyle := "bg-pink-500/20 text-pink-300"
  const OtherStyle := "bg-purple-500/20 text-purple-300"

  /** `getGenderStyle(gender)`: the switch on `gender?.toLowerCase()`. A
      `null` gender falls to the default; a value that is neither a string nor
      `null` has no `toLowerCase`, which throws, modelled as None. */
  function GenderStyle(gender: Value): (r: Option<string>)
    ensures r == Some(MaleStyle) <==> gender.Str? && ToLower(gender.s) == "male"
    ensures r == Some(FemaleStyle) <==> gender.Str? && ToLower(gender.s) == "female"
    ensures r == Some(OtherStyle) <==>
              gender.Null? || (gender.Str? && ToLower(gender.s) !in {"male", "female"})
    ensures r.None? <==> !gender.Null? && !gender.Str?
  {
    match gender
    case Null => Some(OtherStyle)
    case Str(s) =>
      var key := ToLower(s);
      if key == "male" then Some(MaleStyle)
      else if key == "female" then Some(FemaleStyle)
      else Some(OtherStyle)
    case _ => None
  }

  /** The badge colour depends only on the gender's small-letter form. */
  lemma GenderStyleIgnoresCase(s: string)
    ensures GenderStyle(Str(s)) == GenderStyle(Str(ToLower(s)))
  {
    ToLowerIdempotent(s);
  }

  const AiPath := "/AI?patientId="

  /** `${id}` for the id kinds the pages use; other values are not rendered
      by the model. */
  function IdText(id: Value): Option<string> {
    match id
    case Str(s) => Some(s)
    case Int(n) => Some(IntToString(n))
    case _ => None
  }

  /** The target of the AI-suggestion button. */
  function AiLink(id: Value): (link: Option<string>)
    ensures link.Some? <==> id.Str? || id.Int?
    ensures link.Some? ==> |link.value| >= |AiPath| && link.value[..|AiPath|] == AiPath
  {
    match IdText(id)
    case Some(t) => Some(AiPath + t)
    case None => None
  }

  /** The id can be read back from the link: the part after the fixed path is
      the id's text, and for an integer id it parses back to the id. */
  lemma AiLinkCarriesId(id: Value)
    requires id.Str? || id.Int?
    ensures AiLink(id).value[|AiPath|..] == IdText(id).value
    ensures id.Int? ==> ParseInt(AiLink(id).value[|AiPath|..]) == Some(id.i)
  {
    var link := AiLink(id).value;
    assert link == AiPath + IdText(id).value;
    if id.Int? {
      ParseIntOfIntToString(id.i);
    }
  }
}
