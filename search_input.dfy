/** The rules both search pages apply to what the user types or ticks:
    the "term too short" test and the genre check-box toggle
    (src/components/SearchResults.jsx:33-40 and 92-97, src/Home.jsx:39,
    src/SearchResults.jsx:83-90). */
module SearchInput {
  import opened Text
  import opened Seqs
  import opened QueryString

  /** `q.trim().length > 0 && q.trim().length < 3`, the length counted in
      UTF-16 code units as JavaScript does. */
  predicate TooShort(term: string): (r: bool)
    ensures r ==> 0 < |Trim(term)| < 3
  {
    0 < Utf16Length(Trim(term)) < 3
  }

  /** None of the values spliced into a request URL unescaped can start a
      field of its own. */
  predicate Unambiguous(q: string, kind: string, sort: string, genres: seq<string>, minScore: string) {
    Plain(q) && Plain(kind) && Plain(sort) && Plain(minScore)
    && forall i :: 0 <= i < |genres| ==> Plain(genres[i])
  }

  /** The genre list after a check-box change: a ticked genre is appended, an
      unticked one is removed everywhere it occurs. */
  function ToggleGenre(prev: seq<string>, value: string, checked: bool): (r: seq<string>)
    ensures checked ==> r == prev + [value]
    ensures !checked ==> value !in r && IsSubsequence(r, prev)
    ensures !checked ==> forall g :: g != value ==> multiset(r)[g] == multiset(prev)[g]
  {
    if checked then prev + [value]
    else
      KeepIsSubsequence(prev, g => g != value);
      KeepMeans(prev, g => g != value);
      Keep(prev, g => g != value)
  }

  /** Ticking a genre that was not selected and unticking it again gives the
      selection back as it was. */
  lemma ToggleRoundTrip(prev: seq<string>, value: string)
    requires value !in prev
    ensures ToggleGenre(ToggleGenre(prev, value, true), value, false) == prev
  {
    var other := g => g != value;
    KeepAppend(prev, [value], other);
    KeepAll(prev, other);
    assert Keep([value], other) == [] by { assert [value][1..] == []; }
  }
}
