/** The player's display name and the top-ten leaderboard: the pure string
    rules around getName/setName/gameOver and the list transformation of
    addScoreToLB, with storage left to the caller. */
module Scores {
  import opened Seqs

  datatype Option<T> = None | Some(value: T)

  /** One leaderboard row. The date is the ISO timestamp of the moment the
      score was recorded; it is carried along and never examined. */
  datatype Entry = Entry(name: string, score: int, date: string)

  const BOARD_SIZE: nat := 10
  const NAME_LIMIT: nat := 16
  const ANONYMOUS: string := "An\U{F3}nimo"

  // ------------------------------------------------------------------ names

  /** The characters String.prototype.trim removes: ECMAScript WhiteSpace
      and LineTerminator code points. */
  predicate IsSpace(c: char)
  {
    c == '\t' || c == '\n' || c == '\U{0B}' || c == '\U{0C}' || c == '\r' || c == ' '
    || c == '\U{A0}' || c == '\U{1680}' || ('\U{2000}' <= c <= '\U{200A}')
    || c == '\U{2028}' || c == '\U{2029}' || c == '\U{202F}' || c == '\U{205F}'
    || c == '\U{3000}' || c == '\U{FEFF}'
  }

  /** The number of white-space characters s starts with. */
  function LeadingSpaces(s: string): (n: nat)
    ensures n <= |s|
    ensures forall k :: 0 <= k < n ==> IsSpace(s[k])
    ensures n < |s| ==> !IsSpace(s[n])
  {
    if |s| == 0 || !IsSpace(s[0]) then 0 else 1 + LeadingSpaces(s[1..])
  }

  /** The number of white-space characters s ends with. */
  function TrailingSpaces(s: string): (n: nat)
    ensures n <= |s|
    ensures forall k :: |s| - n <= k < |s| ==> IsSpace(s[k])
    ensures n < |s| ==> !IsSpace(s[|s| - 1 - n])
  {
    if |s| == 0 || !IsSpace(s[|s| - 1]) then 0 else 1 + TrailingSpaces(s[..|s| - 1])
  }

  /** String.prototype.trim: s without its leading and trailing white space,
      a contiguous slice of s that starts after the leading white space. */
  function Trim(s: string): (t: string)
    ensures |t| <= |s|
    ensures LeadingSpaces(s) + |t| <= |s|
    ensures t == s[LeadingSpaces(s)..LeadingSpaces(s) + |t|]
  {
    var a := LeadingSpaces(s);
    var rest := s[a..];
    var b := TrailingSpaces(rest);
    rest[..|rest| - b]
  }

  /** Trim removes all the white space at both ends: the result neither
      starts nor ends with white space, and what follows it in s is white
      space. */
  lemma TrimEnds(s: string)
    ensures var t := Trim(s);
            (t != [] ==> !IsSpace(t[0]) && !IsSpace(t[|t| - 1]))
            && (forall k :: LeadingSpaces(s) + |t| <= k < |s| ==> IsSpace(s[k]))
  {
    var a := LeadingSpaces(s);
    var rest := s[a..];
    var b := TrailingSpaces(rest);
    var t := Trim(s);
    assert t == rest[..|rest| - b];
    assert forall k :: a + |t| <= k < |s| ==> s[k] == rest[k - a];
    assert a < |s| ==> !IsSpace(rest[0]) && b < |rest|;
  }

  /** Trimming leaves nothing exactly when s is all white space. */
  lemma TrimEmpty(s: string)
    ensures Trim(s) == [] <==> forall k :: 0 <= k < |s| ==> IsSpace(s[k])
  {
    TrimEnds(s);
    var a := LeadingSpaces(s);
    if Trim(s) != [] {
      assert !IsSpace(s[a]);
    }
  }

  /** JavaScript's `name || 'Anónimo'` on a string: only the empty string is
      replaced (main.js:65, 151). */
  function OrAnonymous(name: string): (r: string)
    ensures r != []
    ensures name != [] ==> r == name
    ensures name == [] ==> r == ANONYMOUS
  {
    if name == [] then ANONYMOUS else name
  }

  /** The name gameOver records for the text typed in the name field:
      trimmed, and the anonymous name when nothing but white space is left. */
  function PlayerName(field: string): (r: string)
    ensures r != []
    ensures r == ANONYMOUS || (r == Trim(field) && r != [])
    ensures (forall k :: 0 <= k < |field| ==> IsSpace(field[k])) ==> r == ANONYMOUS
    ensures Trim(field) != [] ==> r == Trim(field)
  {
    TrimEmpty(field);
    OrAnonymous(Trim(field))
  }

  /** `.slice(0, 16)`: at most the first sixteen characters (main.js:51, 54). */
  function Clip(v: string): (r: string)
    ensures |r| <= NAME_LIMIT
    ensures r <= v
    ensures |v| <= NAME_LIMIT ==> r == v
    ensures |v| > NAME_LIMIT ==> |r| == NAME_LIMIT
  {
    if |v| <= NAME_LIMIT then v else v[..NAME_LIMIT]
  }

  /** getName: the stored name, or the empty string when none is stored, clipped. */
  function LoadName(stored: Option<string>): (r: string)
    ensures |r| <= NAME_LIMIT
    ensures stored.None? ==> r == ""
    ensures stored.Some? ==> r == Clip(stored.value)
  {
    Clip(if stored.Some? then stored.value else "")
  }

  /** setName: the value written for the name key. */
  function SavedName(v: string): (r: string)
    ensures |r| <= NAME_LIMIT && r <= v
    ensures r == Clip(v)
  {
    Clip(v)
  }

  /** Reading the name back after setName returns exactly what was saved,
      and saving it again changes nothing. */
  lemma SaveLoadRoundTrip(v: string)
    ensures LoadName(Some(SavedName(v))) == SavedName(v)
    ensures SavedName(SavedName(v)) == SavedName(v)
  {
  }

  // ------------------------------------------------------------ leaderboard

  /** Non-increasing by score. */
  predicate SortedDesc(s: seq<Entry>)
  {
    forall i, j :: 0 <= i < j < |s| ==> s[i].score >= s[j].score
  }

  /** The entries of s with score v, in their order in s. */
  function WithScore(s: seq<Entry>, v: int): seq<Entry>
  {
    Filter(s, Scoring(v))
  }

  function Scoring(v: int): Entry -> bool
  {
    (e: Entry) => e.score == v
  }

  /** Insert e into s after every entry whose score is at least e's, as one
      step of a stable sort does. */
  function Insert(s: seq<Entry>, e: Entry): (r: seq<Entry>)
    ensures |r| == |s| + 1
  {
    if |s| == 0 then [e]
    else if s[0].score < e.score then [e] + s
    else [s[0]] + Insert(s[1..], e)
  }

  /** Insertion adds exactly the one entry. */
  lemma {:induction false} InsertCount(s: seq<Entry>, e: Entry)
    ensures multiset(Insert(s, e)) == multiset(s) + multiset{e}
    ensures forall x :: x in Insert(s, e) <==> x == e || x in s
    decreases |s|
  {
    if |s| > 0 && s[0].score >= e.score {
      InsertCount(s[1..], e);
      assert s == [s[0]] + s[1..];
    }
  }

  lemma {:induction false} InsertSorted(s: seq<Entry>, e: Entry)
    requires SortedDesc(s)
    ensures SortedDesc(Insert(s, e))
    decreases |s|
  {
    if |s| > 0 && s[0].score >= e.score {
      var tail := Insert(s[1..], e);
      InsertSorted(s[1..], e);
      InsertCount(s[1..], e);
      assert forall k :: 0 <= k < |tail| ==> s[0].score >= tail[k].score by {
        forall k | 0 <= k < |tail| ensures s[0].score >= tail[k].score {
          assert tail[k] in tail;
          if tail[k] != e {
            var m :| 0 <= m < |s[1..]| && s[1..][m] == tail[k];
            assert s[m + 1] == tail[k];
          }
        }
      }
      assert Insert(s, e) == [s[0]] + tail;
    }
  }

  /** The comparator sort `(a, b) => b.score - a.score` of a stable
      Array.prototype.sort, as insertion sort: each entry in turn is inserted
      into the sorted list of the entries before it. */
  function SortByScore(s: seq<Entry>): (r: seq<Entry>)
    ensures |r| == |s|
    ensures multiset(r) == multiset(s)
    ensures SortedDesc(r)
  {
    if |s| == 0 then []
    else
      var init := SortByScore(s[..|s| - 1]);
      assert s == s[..|s| - 1] + [s[|s| - 1]];
      InsertSorted(init, s[|s| - 1]);
      InsertCount(init, s[|s| - 1]);
      Insert(init, s[|s| - 1])
  }

  /** addScoreToLB without the storage: push the new entry (anonymous when
      the name is empty), sort by descending score, keep the first ten. */
  function AddScore(board: seq<Entry>, name: string, score: int, date: string): (top: seq<Entry>)
    ensures |top| == if |board| + 1 <= BOARD_SIZE then |board| + 1 else BOARD_SIZE
    ensures SortedDesc(top)
    ensures multiset(top) <= multiset(board) + multiset{Entry(OrAnonymous(name), score, date)}
  {
    var all := board + [Entry(OrAnonymous(name), score, date)];
    var sorted := SortByScore(all);
    var top := sorted[..if |sorted| <= BOARD_SIZE then |sorted| else BOARD_SIZE];
    assert sorted == top + sorted[|top|..];
    top
  }

  // ------------------------------------------------------ sorting is stable

  /** No entry of s scores above s's first one, hence none of them is kept
      when filtering for a score above it. */
  lemma {:induction false} WithScoreAbove(s: seq<Entry>, v: int)
    requires SortedDesc(s) && |s| > 0 && s[0].score < v
    ensures WithScore(s, v) == []
    decreases |s|
  {
    assert s == [s[0]] + s[1..];
    FilterCons(s[0], s[1..], Scoring(v));
    if |s| > 1 {
      SortedTail(s);
      WithScoreAbove(s[1..], v);
    }
  }

  lemma SortedTail(s: seq<Entry>)
    requires SortedDesc(s) && |s| > 0
    ensures SortedDesc(s[1..])
  {
  }

  /** An entry placed before a sorted list it outscores comes after every
      equal-scoring entry of that list, since there is none. */
  lemma InsertFrontWithScore(s: seq<Entry>, e: Entry, v: int)
    requires SortedDesc(s) && |s| > 0 && s[0].score < e.score
    ensures WithScore([e] + s, v) == WithScore(s, v) + (if e.score == v then [e] else [])
  {
    FilterCons(e, s, Scoring(v));
    if e.score == v {
      WithScoreAbove(s, v);
    }
  }

  lemma {:induction false} InsertWithScore(s: seq<Entry>, e: Entry, v: int)
    requires SortedDesc(s)
    ensures WithScore(Insert(s, e), v) == WithScore(s, v) + (if e.score == v then [e] else [])
    decreases |s|
  {
    if |s| == 0 {
      FilterCons(e, [], Scoring(v));
    } else if s[0].score < e.score {
      InsertFrontWithScore(s, e, v);
    } else {
      SortedTail(s);
      InsertWithScore(s[1..], e, v);
      InsertBehindWithScore(s, e, v);
    }
  }

  /** Inserting behind the first entry: filtering for a score commutes with
      the insertion into the tail. */
  lemma InsertBehindWithScore(s: seq<Entry>, e: Entry, v: int)
    requires |s| > 0 && s[0].score >= e.score
    requires WithScore(Insert(s[1..], e), v) == WithScore(s[1..], v) + (if e.score == v then [e] else [])
    ensures WithScore(Insert(s, e), v) == WithScore(s, v) + (if e.score == v then [e] else [])
  {
    var head := if s[0].score == v then [s[0]] else [];
    var extra := if e.score == v then [e] else [];
    var rest, inserted := WithScore(s[1..], v), WithScore(Insert(s[1..], e), v);
    assert WithScore(s, v) == head + rest;
    assert WithScore(Insert(s, e), v) == head + inserted by {
      FilterCons(s[0], Insert(s[1..], e), Scoring(v));
    }
    AppendAssoc(head, rest, extra);
  }

  /** Stability: for every score, the entries with that score appear in the
      sorted list in the order they had before sorting. */
  lemma {:induction false} SortStable(s: seq<Entry>, v: int)
    ensures WithScore(SortByScore(s), v) == WithScore(s, v)
    decreases |s|
  {
    if |s| > 0 {
      var init, last := s[..|s| - 1], s[|s| - 1];
      assert s == init + [last];
      SortStable(init, v);
      InsertWithScore(SortByScore(init), last, v);
      FilterAppend(init, [last], Scoring(v));
    }
  }

  /** In a sorted list every entry before position n scores at least as
      much as every entry from position n on. */
  lemma SortedSplit(s: seq<Entry>, n: nat)
    requires SortedDesc(s) && n <= |s|
    ensures forall k, d :: k in s[..n] && d in s[n..] ==> k.score >= d.score
  {
    forall k, d | k in s[..n] && d in s[n..] ensures k.score >= d.score {
      var i :| 0 <= i < n && s[i] == k;
      var j :| n <= j < |s| && s[j] == d;
    }
  }

  /** The leaderboard keeps the best: every entry of the old board plus the
      new one that was cut scores no higher than any entry that was kept. */
  lemma AddScoreKeepsBest(board: seq<Entry>, name: string, score: int, date: string)
    ensures var all := board + [Entry(OrAnonymous(name), score, date)];
            var top := AddScore(board, name, score, date);
            forall k, d :: k in top && d in multiset(all) - multiset(top) ==> k.score >= d.score
  {
    var all := board + [Entry(OrAnonymous(name), score, date)];
    var sorted := SortByScore(all);
    var top := AddScore(board, name, score, date);
    var n := |top|;
    assert top == sorted[..n];
    assert sorted == sorted[..n] + sorted[n..];
    assert multiset(all) - multiset(top) == multiset(sorted[n..]);
    SortedSplit(sorted, n);
  }

  /** Ties keep insertion order: among the entries with any one score, the
      board lists a prefix of them in the order of the old board followed by
      the new entry. In particular a new score that ties an old one is placed
      after it. */
  lemma AddScoreStable(board: seq<Entry>, name: string, score: int, date: string, v: int)
    ensures WithScore(AddScore(board, name, score, date), v)
            <= WithScore(board + [Entry(OrAnonymous(name), score, date)], v)
  {
    var all := board + [Entry(OrAnonymous(name), score, date)];
    var sorted := SortByScore(all);
    var top := AddScore(board, name, score, date);
    assert sorted == top + sorted[|top|..];
    FilterAppend(top, sorted[|top|..], Scoring(v));
    SortStable(all, v);
  }
}
