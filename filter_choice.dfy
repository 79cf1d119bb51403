/**
 * The choice part of `run_filter_sequence`: the configured rarity and
 * speciality (defaults SSR and POWER) are upper-cased and looked up in two
 * fixed tables of screen coordinates.
 */
module FilterChoice {
  import opened Wrappers
  import opened Vision

  const DefaultRarity: string := "SSR"
  const DefaultSpeciality: string := "POWER"

  const RarityTable: map<string, Point> := map[
    "R" := Point(102, 408),
    "SR" := Point(437, 414),
    "SSR" := Point(777, 410)
  ]

  const SpecialityTable: map<string, Point> := map[
    "SPEED" := Point(102, 627),
    "STAMINA" := Point(444, 623),
    "POWER" := Point(786, 618),
    "GUTS" := Point(109, 741),
    "WIT" := Point(442, 732),
    "PAL" := Point(777, 731)
  ]

  /** The two taps a valid choice leads to. */
  datatype Choice = Choice(rarity: Point, speciality: Point)

  function UpperChar(c: char): char
  {
    if 'a' <= c <= 'z' then (c as int - 32) as char else c
  }

  /** `str.upper()` on ASCII letters. */
  function Upper(s: string): (u: string)
    ensures |u| == |s|
    ensures forall i :: 0 <= i < |s| ==> u[i] == UpperChar(s[i])
  {
    if s == [] then [] else [UpperChar(s[0])] + Upper(s[1..])
  }

  /** Upper-casing twice changes nothing more. */
  lemma UpperIdempotent(s: string)
    ensures Upper(Upper(s)) == Upper(s)
  {
    var u := Upper(s);
    assert forall i :: 0 <= i < |u| ==> UpperChar(u[i]) == u[i];
  }

  /** The setting in effect: the configured value or the default, upper-cased. */
  function Normalise(setting: Option<string>, default: string): (s: string)
    ensures |s| == |setting.GetOr(default)|
    ensures forall i :: 0 <= i < |s| ==> s[i] == UpperChar(setting.GetOr(default)[i])
    ensures forall i :: 0 <= i < |s| ==> !('a' <= s[i] <= 'z')
  {
    Upper(setting.GetOr(default))
  }

  /** The coordinates to tap for the configured pair, or none when either is not in its table. */
  function Choose(rarity: Option<string>, speciality: Option<string>): (r: Option<Choice>)
    ensures r.Some? <==> Normalise(rarity, DefaultRarity) in RarityTable && Normalise(speciality, DefaultSpeciality) in SpecialityTable
    ensures r.Some? ==> r.value == Choice(RarityTable[Normalise(rarity, DefaultRarity)],
                                          SpecialityTable[Normalise(speciality, DefaultSpeciality)])
    ensures r.Some? ==> r.value.rarity in RarityTable.Values && r.value.speciality in SpecialityTable.Values
  {
    var rk := Normalise(rarity, DefaultRarity);
    var sk := Normalise(speciality, DefaultSpeciality);
    if rk !in RarityTable then None
    else if sk !in SpecialityTable then None
    else Some(Choice(RarityTable[rk], SpecialityTable[sk]))
  }

  /** Without any settings the filter selects SSR and POWER. */
  lemma DefaultsAreSsrPower()
    ensures Choose(None, None) == Some(Choice(Point(777, 410), Point(786, 618)))
  {
    assert Upper("SSR") == "SSR";
    assert Upper("POWER") == "POWER";
  }

  /** The lookup ignores letter case: a setting and its upper-cased form choose alike. */
  lemma ChoiceIgnoresCase(rarity: string, speciality: string)
    ensures Choose(Some(rarity), Some(speciality)) == Choose(Some(Upper(rarity)), Some(Upper(speciality)))
  {
    UpperIdempotent(rarity);
    UpperIdempotent(speciality);
  }

  /** Lower-case settings are accepted: "sr" and "wit" choose the SR and WIT coordinates. */
  lemma LowerCaseAccepted()
    ensures Choose(Some("sr"), Some("wit")) == Some(Choice(Point(437, 414), Point(442, 732)))
  {
    assert Upper("sr") == "SR";
    assert Upper("wit") == "WIT";
  }
}
