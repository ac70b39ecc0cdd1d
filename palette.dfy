/** The colour tables that several components define identically: the priority-label colours
    (Card.jsx, FilterBar.jsx, and the label options of CardModal.jsx) and the eight-colour avatar
    palette (Card.jsx, FilterBar.jsx, CardModal.jsx). */
module Palette {
  import opened Common

  /** A label option of the card editor: a name and its chip colour. */
  datatype LabelOption = LabelOption(name: string, color: string)

  /** The six labels a card can carry, in the order the label picker lists them. */
  const LabelOptions: seq<LabelOption> := [
    LabelOption("Normal", "#61bd4f"),
    LabelOption("Bug", "#f2d600"),
    LabelOption("Feature", "#ff9f1a"),
    LabelOption("High", "#eb5a46"),
    LabelOption("Medium", "#c377e0"),
    LabelOption("Low", "#0079bf")
  ]

  /** The colour of a label that is not one of the six. */
  const DefaultLabelColor: string := "#b3bac5"

  predicate IsKnownLabel(priority: string) {
    exists i :: 0 <= i < |LabelOptions| && LabelOptions[i].name == priority
  }

  /** Membership spelled out name by name. */
  lemma KnownLabelNames(priority: string)
    ensures IsKnownLabel(priority) <==>
      priority in {"Normal", "Bug", "Feature", "High", "Medium", "Low"}
  {
    if priority in {"Normal", "Bug", "Feature", "High", "Medium", "Low"} {
      var i := if priority == "Normal" then 0 else if priority == "Bug" then 1
        else if priority == "Feature" then 2 else if priority == "High" then 3
        else if priority == "Medium" then 4 else 5;
      assert LabelOptions[i].name == priority;
    }
  }

  /** `getPriorityColor`: a known label gets its option's colour, anything else the grey default. */
  function PriorityColor(priority: string): (r: string)
    ensures forall i :: 0 <= i < |LabelOptions| && LabelOptions[i].name == priority ==>
      r == LabelOptions[i].color
    ensures (forall i :: 0 <= i < |LabelOptions| ==> LabelOptions[i].name != priority) ==>
      r == DefaultLabelColor
  {
    match priority
    case "Normal" => assert LabelOptions[0].name == priority; "#61bd4f"
    case "Bug" => assert LabelOptions[1].name == priority; "#f2d600"
    case "Feature" => assert LabelOptions[2].name == priority; "#ff9f1a"
    case "High" => assert LabelOptions[3].name == priority; "#eb5a46"
    case "Medium" => assert LabelOptions[4].name == priority; "#c377e0"
    case "Low" => assert LabelOptions[5].name == priority; "#0079bf"
    case _ => "#b3bac5"
  }

  /** The eight avatar colours. */
  const Avatar8: seq<string> :=
    ["#667eea", "#f093fb", "#4facfe", "#43e97b", "#fa709a", "#30cfd0", "#a8edea", "#fed6e3"]

  /** `name?.charCodeAt(0) % colors.length || 0`: the first code point modulo the palette size,
      0 for a missing or empty name (where the expression is NaN and `|| 0` applies). */
  function AvatarIndex(name: string, size: nat): (i: nat)
    requires size > 0
    ensures i < size
  {
    if name == "" then 0 else (name[0] as int) % size
  }

  /** `getAvatarColor` of the card, the filter bar and the card editor. */
  function AvatarColor8(name: string): (r: string)
    ensures r in Avatar8
    ensures name == "" ==> r == Avatar8[0]
    ensures name != "" ==> r == Avatar8[(name[0] as int) % 8]
  {
    Avatar8[AvatarIndex(name, |Avatar8|)]
  }

  /** Names whose first code points differ by a multiple of eight share a colour. */
  lemma AvatarColor8Periodic(a: string, b: string)
    requires a != "" && b != "" && (a[0] as int - b[0] as int) % 8 == 0
    ensures AvatarColor8(a) == AvatarColor8(b)
  {
    var x, y := a[0] as int, b[0] as int;
    var q := (x - y) / 8;
    assert x == y + 8 * q;
    ModEightShift(y, q);
  }
}
