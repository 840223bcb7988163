/** getKeyName(key, mode) of src/services/utils/musicAnalysis.js. The
    MUSICAL_KEYS and MODES tables it reads are imported from a module that
    does not define them, so they are parameters here: maps from the
    pitch-class or mode number to a display name. */
module MusicAnalysis {
  import opened Wrappers
  import TrackCard

  /** `MUSICAL_KEYS[key] || 'Unknown'`: a missing key, a missing entry or an
      empty entry all give 'Unknown'. */
  function KeyLabel(key: Option<int>, musicalKeys: map<int, string>): (r: string)
    ensures r != ""
    ensures key.Some? && key.value in musicalKeys && musicalKeys[key.value] != "" ==> r == musicalKeys[key.value]
    ensures (key.None? || key.value !in musicalKeys || musicalKeys[key.value] == "") ==> r == "Unknown"
  {
    if key.Some? && key.value in musicalKeys && musicalKeys[key.value] != "" then musicalKeys[key.value] else "Unknown"
  }

  /** `MODES[mode] || ''`: a missing mode name is the empty string. */
  function ModeLabel(mode: Option<int>, modes: map<int, string>): (r: string)
    ensures (mode.None? || mode.value !in modes) ==> r == ""
    ensures mode.Some? && mode.value in modes ==> r == modes[mode.value]
  {
    if mode.Some? && mode.value in modes then modes[mode.value] else ""
  }

  /** getKeyName(key, mode): exactly 'Unknown' for the sentinel key -1, and
      otherwise always the key label, one space and the mode label — so an
      unlisted key still carries the mode ("Unknown Major") and an unlisted
      mode leaves a trailing space. */
  function GetKeyName(key: Option<int>, mode: Option<int>, musicalKeys: map<int, string>, modes: map<int, string>): (r: string)
    ensures key == Some(-1) ==> r == "Unknown"
    ensures key != Some(-1) ==> r == KeyLabel(key, musicalKeys) + " " + ModeLabel(mode, modes)
  {
    if key == Some(-1) then "Unknown"
    else KeyLabel(key, musicalKeys) + " " + ModeLabel(mode, modes)
  }

  /** A key outside the table still gets the mode appended. */
  lemma UnlistedKeyKeepsMode(key: int, mode: int, musicalKeys: map<int, string>, modes: map<int, string>)
    requires key != -1 && key !in musicalKeys
    requires mode in modes && modes[mode] == "Major"
    ensures GetKeyName(Some(key), Some(mode), musicalKeys, modes) == "Unknown Major"
  {
  }

  /** An unlisted mode leaves a trailing space after the key label. */
  lemma UnlistedModeTrailingSpace(key: Option<int>, mode: Option<int>, musicalKeys: map<int, string>, modes: map<int, string>)
    requires key != Some(-1) && (mode.None? || mode.value !in modes)
    ensures var r := GetKeyName(key, mode, musicalKeys, modes);
            |r| >= 2 && r[|r| - 1] == ' ' && r[..|r| - 1] == KeyLabel(key, musicalKeys)
  {
  }

  /** The sentinel key gives the bare 'Unknown': no space, no mode suffix. */
  lemma SentinelHasNoSuffix(mode: Option<int>, musicalKeys: map<int, string>, modes: map<int, string>)
    ensures ' ' !in GetKeyName(Some(-1), mode, musicalKeys, modes)
  {
  }

  /** With the twelve pitch names of the track card as MUSICAL_KEYS, the
      two getKeyName functions agree on the key part for every pitch class:
      this one is the card's name, a space and the mode name. */
  lemma AgreesWithTrackCard(k: int, mode: Option<int>, modes: map<int, string>)
    requires 0 <= k < 12
    ensures var table := map i | 0 <= i < 12 :: TrackCard.PitchNames[i];
            GetKeyName(Some(k), mode, table, modes) == TrackCard.GetKeyName(Some(k)) + " " + ModeLabel(mode, modes)
  {
    TrackCard.PitchNamesWellFormed(k);
  }
}
