/** The key-name lookup inside src/components/TrackCard.jsx: a pitch class
    indexes a fixed table of twelve names; anything else shows "Unknown".
    The mode is not consulted. */
module TrackCard {
  import opened Wrappers
  import opened Text

  /** The card's twelve pitch names, C = 0 … B = 11. */
  const PitchNames: seq<string> :=
    ["C", "C♯/D♭", "D", "D♯/E♭", "E", "F", "F♯/G♭", "G", "G♯/A♭", "A", "A♯/B♭", "B"]

  /** `keys[key] || "Unknown"`: inside 0..11 the table entry (none is empty);
      -1, 12, undefined and every other value give "Unknown". */
  function GetKeyName(key: Option<int>): (r: string)
    ensures key.Some? && 0 <= key.value < 12 ==> r == PitchNames[key.value]
    ensures (key.None? || key.value < 0 || key.value >= 12) ==> r == "Unknown"
  {
    if key.Some? && 0 <= key.value < |PitchNames| && PitchNames[key.value] != "" then PitchNames[key.value] else "Unknown"
  }

  /** Each entry is non-empty, differs from "Unknown" and names no mode. */
  lemma PitchNamesWellFormed(k: int)
    requires 0 <= k < 12
    ensures |PitchNames| == 12
    ensures PitchNames[k] != "" && PitchNames[k] != "Unknown"
    ensures !Contains(PitchNames[k], "Major") && !Contains(PitchNames[k], "Minor")
  {
    assert 'M' !in PitchNames[k] by {
      assert k in {0, 1, 2, 3, 4, 5, 6, 7, 8, 9, 10, 11};
    }
    NotContainsMissingChar(PitchNames[k], "Major");
    NotContainsMissingChar(PitchNames[k], "Minor");
  }

  /** Distinct pitch classes get distinct names, and no pitch class is shown
      as "Unknown": the lookup is injective on 0..11. */
  lemma GetKeyNameInjective(a: int, b: int)
    requires 0 <= a < 12 && 0 <= b < 12
    ensures GetKeyName(Some(a)) == GetKeyName(Some(b)) <==> a == b
    ensures GetKeyName(Some(a)) != "Unknown"
  {
    PitchNamesWellFormed(a);
    assert a in {0, 1, 2, 3, 4, 5, 6, 7, 8, 9, 10, 11};
    assert b in {0, 1, 2, 3, 4, 5, 6, 7, 8, 9, 10, 11};
  }

  /** The card never shows a mode: no output contains "Major" or "Minor". */
  lemma GetKeyNameHasNoMode(key: Option<int>)
    ensures !Contains(GetKeyName(key), "Major") && !Contains(GetKeyName(key), "Minor")
  {
    if key.Some? && 0 <= key.value < 12 {
      PitchNamesWellFormed(key.value);
    } else {
      assert 'M' !in "Unknown";
      NotContainsMissingChar("Unknown", "Major");
      NotContainsMissingChar("Unknown", "Minor");
    }
  }
}
