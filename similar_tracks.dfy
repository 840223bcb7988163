/** The filteredTracks computation of
    src/components/track/SimilarTracks.jsx: the similar tracks are filtered
    against the original track by the selected filter ('all', 'bpm', 'key'
    or 'genre'); the selection starts at 'all'. */
module SimilarTracks {
  import opened Wrappers
  import Constants

  /** A tempo as JavaScript holds it: undefined, null, or a (possibly
      fractional) number. */
  datatype Tempo = NoTempo | NullTempo | Bpm(value: real)

  /** The number a tempo becomes in a subtraction: null is 0, undefined is
      NaN (None here). */
  function Numeric(t: Tempo): (r: Option<real>)
    ensures t.NoTempo? <==> r.None?
    ensures t.NullTempo? ==> r == Some(0.0)
    ensures t.Bpm? ==> r == Some(t.value)
  {
    match t
    case NoTempo => None
    case NullTempo => Some(0.0)
    case Bpm(v) => Some(v)
  }

  /** The fields the filter reads; a missing key or genre is undefined. */
  datatype Track = Track(bpm: Tempo, key: Option<int>, genre: Option<string>)

  /** The tempo window of the 'bpm' filter, written as a literal in the
      component; it has the value of BPM_TOLERANCE. */
  const BpmWindow: nat := 5

  /** `Math.abs(a - b) <= 5`; with an undefined tempo the difference is
      NaN and the comparison is false. */
  predicate TempoClose(a: Tempo, b: Tempo) {
    var x, y := Numeric(a), Numeric(b);
    x.Some? && y.Some? && -(BpmWindow as real) <= x.value - y.value <= BpmWindow as real
  }

  /** The filter callback: which similar track the selected filter keeps.
      Keys and genres are compared with ===, so two undefined values match. */
  predicate Keeps(selected: string, original: Track, t: Track) {
    if selected == "all" then true
    else if selected == "bpm" then TempoClose(t.bpm, original.bpm)
    else if selected == "key" then t.key == original.key
    else if selected == "genre" then t.genre == original.genre
    else true
  }

  /** s is obtained from t by deleting elements: order is preserved. */
  predicate IsSubsequence<T(==)>(s: seq<T>, t: seq<T>) {
    s == [] || (t != [] && (if s[0] == t[0] then IsSubsequence(s[1..], t[1..]) else IsSubsequence(s, t[1..])))
  }

  /** similarTracks.filter(...): the order-preserving subsequence of the
      similar tracks that the selected filter keeps; every result track is
      kept, and every kept track appears in the result exactly as often as
      in the input. */
  function FilteredTracks(similar: seq<Track>, original: Track, selected: string): (r: seq<Track>)
    ensures IsSubsequence(r, similar)
    ensures forall i :: 0 <= i < |r| ==> Keeps(selected, original, r[i])
    ensures forall i :: 0 <= i < |similar| && Keeps(selected, original, similar[i]) ==> similar[i] in r
    ensures forall t :: multiset(r)[t] == if Keeps(selected, original, t) then multiset(similar)[t] else 0
    ensures |r| <= |similar|
  {
    if similar == [] then []
    else
      var rest := FilteredTracks(similar[1..], original, selected);
      assert multiset(similar) == multiset([similar[0]]) + multiset(similar[1..]) by {
        assert similar == [similar[0]] + similar[1..];
      }
      if Keeps(selected, original, similar[0]) then [similar[0]] + rest else rest
  }

  /** A filter that keeps everything returns the list unchanged. */
  lemma {:induction false} KeepAllIsIdentity(similar: seq<Track>, original: Track, selected: string)
    requires forall t :: Keeps(selected, original, t)
    ensures FilteredTracks(similar, original, selected) == similar
  {
    if similar != [] {
      KeepAllIsIdentity(similar[1..], original, selected);
      assert [similar[0]] + similar[1..] == similar;
    }
  }

  /** 'all', and every value the component does not recognise, return every
      similar track in order; the initial selection is 'all', so the first
      render shows the input list. */
  lemma AllAndUnknownReturnInput(similar: seq<Track>, original: Track, selected: string)
    requires selected !in {"bpm", "key", "genre"}
    ensures FilteredTracks(similar, original, selected) == similar
  {
    KeepAllIsIdentity(similar, original, selected);
  }

  /** The 'bpm' window is inclusive at 5 beats either way and excludes
      anything beyond, fractions included; an undefined tempo on either side
      drops the track, a null one counts as 0; the literal equals
      BPM_TOLERANCE. */
  lemma BpmBoundary(original: real, genre: Option<string>, key: Option<int>)
    ensures Keeps("bpm", Track(Bpm(original), key, genre), Track(Bpm(original + 5.0), None, None))
    ensures Keeps("bpm", Track(Bpm(original), key, genre), Track(Bpm(original - 5.0), None, None))
    ensures !Keeps("bpm", Track(Bpm(original), key, genre), Track(Bpm(original + 5.1), None, None))
    ensures Keeps("bpm", Track(Bpm(120.4), key, genre), Track(Bpm(125.3), None, None))
    ensures !Keeps("bpm", Track(Bpm(original), key, genre), Track(NoTempo, None, None))
    ensures !Keeps("bpm", Track(NoTempo, key, genre), Track(Bpm(original), None, None))
    ensures Keeps("bpm", Track(Bpm(3.0), key, genre), Track(NullTempo, None, None))
    ensures BpmWindow == Constants.BpmTolerance
  {
  }

  /** The 'key' filter is exact equality: the relative minor (nine semitones
      up) and the parallel key of the same pitch class with another mode are
      both dropped unless the key number itself is equal. */
  lemma KeyFilterIsExact(original: Track, t: Track)
    ensures Keeps("key", original, t) <==> t.key == original.key
    ensures original.key.Some? && t.key == Some((original.key.value + 9) % 12) && 0 <= original.key.value < 12 ==> !Keeps("key", original, t)
  {
  }

  /** The result of the 'key' filter on a list: exactly the tracks in the
      same key, each as often as in the input. */
  lemma {:induction false} KeyFilterMembers(similar: seq<Track>, original: Track, t: Track)
    ensures t in FilteredTracks(similar, original, "key") <==> t in similar && t.key == original.key
    ensures multiset(FilteredTracks(similar, original, "key"))[t] == if t.key == original.key then multiset(similar)[t] else 0
  {
    if similar != [] {
      KeyFilterMembers(similar[1..], original, t);
    }
  }

  /** The result of the 'genre' filter on a list: exactly the tracks whose
      genre equals the original's (two undefined genres match), each as
      often as in the input. */
  lemma {:induction false} GenreFilterMembers(similar: seq<Track>, original: Track, t: Track)
    ensures t in FilteredTracks(similar, original, "genre") <==> t in similar && t.genre == original.genre
    ensures multiset(FilteredTracks(similar, original, "genre"))[t] == if t.genre == original.genre then multiset(similar)[t] else 0
  {
    if similar != [] {
      GenreFilterMembers(similar[1..], original, t);
    }
  }
}
