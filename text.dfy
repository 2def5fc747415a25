/** String operations the handlers rely on: the case-insensitive substring
    test behind Django's `icontains` lookup, and Python's `str.split` used to
    take the last segment of a stored file name. */
module Text {

  /** ASCII case folding of one character (the folding SQLite's LIKE applies). */
  function LowerChar(c: char): char
  {
    if 'A' <= c <= 'Z' then (c as int + 32) as char else c
  }

  /** Folding keeps the text equal up to case and leaves no upper-case ASCII letter. */
  function Lower(s: string): (r: string)
    ensures EqualIgnoringCase(r, s)
    ensures forall k :: 0 <= k < |r| ==> !('A' <= r[k] <= 'Z')
  {
    seq(|s|, k requires 0 <= k < |s| => LowerChar(s[k]))
  }

  /** `a` and `b` spell the same text up to ASCII case. */
  predicate EqualIgnoringCase(a: string, b: string)
  {
    |a| == |b| && forall k :: 0 <= k < |a| ==> LowerChar(a[k]) == LowerChar(b[k])
  }

  /** `needle` stands in `hay` starting at position `i`. */
  predicate OccursAt(needle: string, hay: string, i: int)
  {
    0 <= i <= |hay| - |needle| && hay[i..i + |needle|] == needle
  }

  /** `needle` stands in `hay` starting at position `i`, up to case. */
  predicate OccursAtIgnoringCase(needle: string, hay: string, i: int)
  {
    0 <= i <= |hay| - |needle| && EqualIgnoringCase(hay[i..i + |needle|], needle)
  }

  /** Reference definition: `needle` occurs at some position of `hay`, ignoring case. */
  ghost predicate OccursIgnoringCase(needle: string, hay: string)
  {
    exists i :: OccursAtIgnoringCase(needle, hay, i)
  }

  /** `needle` is a contiguous part of `hay`, character for character. */
  function Contains(hay: string, needle: string): bool
    decreases |hay|
  {
    needle <= hay || (hay != [] && Contains(hay[1..], needle))
  }

  lemma {:induction false} ContainsIsSubstring(hay: string, needle: string)
    ensures Contains(hay, needle) <==> exists i :: OccursAt(needle, hay, i)
    decreases |hay|
  {
    var n := |needle|;
    if needle <= hay {
      assert OccursAt(needle, hay, 0);
    } else if hay == [] {
      assert n > 0;
    } else {
      var tail := hay[1..];
      ContainsIsSubstring(tail, needle);
      if Contains(tail, needle) {
        var j :| OccursAt(needle, tail, j);
        assert hay[j + 1..j + 1 + n] == tail[j..j + n];
        assert OccursAt(needle, hay, j + 1);
      }
      if exists i :: OccursAt(needle, hay, i) {
        var i :| OccursAt(needle, hay, i);
        assert i > 0;
        assert tail[i - 1..i - 1 + n] == hay[i..i + n];
        assert OccursAt(needle, tail, i - 1);
      }
    }
  }

  /** Django's `icontains` lookup: substring test after folding both sides. */
  function IContains(hay: string, needle: string): bool
  {
    Contains(Lower(hay), Lower(needle))
  }

  lemma IContainsIsOccurrenceIgnoringCase(hay: string, needle: string)
    ensures IContains(hay, needle) <==> OccursIgnoringCase(needle, hay)
  {
    var lh, ln, n := Lower(hay), Lower(needle), |needle|;
    ContainsIsSubstring(lh, ln);
    forall i ensures OccursAt(ln, lh, i) <==> OccursAtIgnoringCase(needle, hay, i) {
      if 0 <= i <= |hay| - n {
        if EqualIgnoringCase(hay[i..i + n], needle) {
          forall k | 0 <= k < n ensures lh[i..i + n][k] == ln[k] {
            assert hay[i..i + n][k] == hay[i + k];
          }
          assert lh[i..i + n] == ln;
        }
        if lh[i..i + n] == ln {
          forall k | 0 <= k < n ensures LowerChar(hay[i..i + n][k]) == LowerChar(needle[k]) {
            assert lh[i..i + n][k] == lh[i + k];
          }
        }
      }
    }
  }

  /** Python's `s.split(sep)`: the pieces between separators, at least one. */
  function Split(s: string, sep: char): (parts: seq<string>)
    ensures |parts| >= 1
    ensures forall k :: 0 <= k < |parts| ==> sep !in parts[k]
    decreases |s|
  {
    if s == [] then [[]]
    else
      var rest := Split(s[1..], sep);
      if s[0] == sep then [[]] + rest
      else [[s[0]] + rest[0]] + rest[1..]
  }

  /** Python's `sep.join(parts)`. */
  function Join(parts: seq<string>, sep: char): string
    requires |parts| >= 1
  {
    if |parts| == 1 then parts[0] else parts[0] + [sep] + Join(parts[1..], sep)
  }

  /** Joining the pieces of a split gives back the original string. */
  lemma {:induction false} JoinSplit(s: string, sep: char)
    ensures Join(Split(s, sep), sep) == s
    decreases |s|
  {
    if s != [] {
      var rest := Split(s[1..], sep);
      JoinSplit(s[1..], sep);
      if s[0] == sep {
        var parts := [[]] + rest;
        assert parts[1..] == rest;
        assert Join(parts, sep) == [] + [sep] + Join(rest, sep);
      } else {
        var parts := [[s[0]] + rest[0]] + rest[1..];
        if |rest| == 1 {
          assert Join(parts, sep) == [s[0]] + rest[0];
        } else {
          assert parts[1..] == rest[1..];
          assert Join(rest, sep) == rest[0] + [sep] + Join(rest[1..], sep);
          assert Join(parts, sep) == [s[0]] + rest[0] + [sep] + Join(rest[1..], sep);
        }
      }
    }
  }

  /** The last piece of a join is a suffix of it, preceded by the separator
      unless it is the only piece. */
  lemma {:induction false} JoinEndsWithLast(parts: seq<string>, sep: char)
    requires |parts| >= 1
    ensures var j, l := Join(parts, sep), parts[|parts| - 1];
            |l| <= |j| && j[|j| - |l|..] == l &&
            (|parts| > 1 ==> |l| < |j| && j[|j| - |l| - 1] == sep)
  {
    if |parts| > 1 {
      var tail := parts[1..];
      JoinEndsWithLast(tail, sep);
      var j, jt, l := Join(parts, sep), Join(tail, sep), parts[|parts| - 1];
      assert tail[|tail| - 1] == l;
      assert j == parts[0] + [sep] + jt;
      assert j[|j| - |jt|..] == jt;
      assert j[|j| - |l|..] == jt[|jt| - |l|..];
      if |tail| > 1 {
        assert j[|j| - |l| - 1] == jt[|jt| - |l| - 1];
      } else {
        assert jt == l;
      }
    }
  }

  /** `name.split("/")[-1]`: the part of a path after its last slash. */
  function LastSegment(name: string): (r: string)
    ensures '/' !in r
    ensures |r| <= |name| && name[|name| - |r|..] == r
    ensures |r| == |name| || name[|name| - |r| - 1] == '/'
  {
    var parts := Split(name, '/');
    JoinSplit(name, '/');
    JoinEndsWithLast(parts, '/');
    parts[|parts| - 1]
  }
}
