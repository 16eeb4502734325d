/**
 * The Python string operations the build script relies on: str.split with a
 * one-character separator, str.join, str.endswith, bytes.replace and
 * os.path.basename.
 */
module PyStr {

  /** s.endswith(suffix). */
  predicate EndsWith<T(==)>(s: seq<T>, suffix: seq<T>) {
    |s| >= |suffix| && s[|s| - |suffix|..] == suffix
  }

  /** The number of occurrences of c in s. */
  function Occurrences<T(==)>(s: seq<T>, c: T): nat {
    if s == [] then 0 else (if s[0] == c then 1 else 0) + Occurrences(s[1..], c)
  }

  /** s.split(sep): the pieces between separators, empty pieces included. */
  function Split(s: string, sep: char): (parts: seq<string>)
    ensures |parts| == Occurrences(s, sep) + 1
    ensures forall i :: 0 <= i < |parts| ==> sep !in parts[i]
    decreases |s|
  {
    if s == [] then [""]
    else
      var rest := Split(s[1..], sep);
      if s[0] == sep then [""] + rest
      else [[s[0]] + rest[0]] + rest[1..]
  }

  /** sep.join(parts). */
  function Join(parts: seq<string>, sep: char): string {
    if parts == [] then ""
    else if |parts| == 1 then parts[0]
    else parts[0] + [sep] + Join(parts[1..], sep)
  }

  /** Joining the pieces of a split gives back the string. */
  lemma {:induction false} JoinSplit(s: string, sep: char)
    ensures Join(Split(s, sep), sep) == s
    decreases |s|
  {
    if s != [] {
      var rest := Split(s[1..], sep);
      JoinSplit(s[1..], sep);
      if s[0] == sep {
        assert Split(s, sep) == [""] + rest;
        assert ([""] + rest)[1..] == rest;
      } else {
        var parts := Split(s, sep);
        assert parts == [[s[0]] + rest[0]] + rest[1..];
        if |rest| == 1 {
          assert s == [s[0]] + s[1..];
        } else {
          assert parts[1..] == rest[1..];
          assert Join(rest, sep) == rest[0] + [sep] + Join(rest[1..], sep);
          assert s == [s[0]] + s[1..];
        }
      }
    }
  }

  /** Splitting at a separator splits the two sides independently. */
  lemma {:induction false} SplitAround(a: string, b: string, sep: char)
    ensures Split(a + [sep] + b, sep) == Split(a, sep) + Split(b, sep)
    decreases |a|
  {
    var s := a + [sep] + b;
    if a == [] {
      assert s[0] == sep && s[1..] == b;
    } else {
      assert s[0] == a[0] && s[1..] == a[1..] + [sep] + b;
      SplitAround(a[1..], b, sep);
    }
  }

  /** A string without the separator is a single piece. */
  lemma {:induction false} SplitWithoutSeparator(s: string, sep: char)
    requires sep !in s
    ensures Split(s, sep) == [s]
    decreases |s|
  {
    if s != [] {
      assert sep !in s[1..];
      SplitWithoutSeparator(s[1..], sep);
      assert s == [s[0]] + s[1..];
    }
  }

  /** Joining one more piece appends the separator and that piece. */
  lemma {:induction false} JoinSnoc(parts: seq<string>, p: string, sep: char)
    requires parts != []
    ensures Join(parts + [p], sep) == Join(parts, sep) + [sep] + p
    decreases |parts|
  {
    if |parts| == 1 {
      assert (parts + [p])[1..] == [p];
    } else {
      assert (parts + [p])[1..] == parts[1..] + [p];
      JoinSnoc(parts[1..], p, sep);
    }
  }

  /** bytes.replace(pat, rep): every non-overlapping occurrence, scanning left to right. */
  function Replace<T(==)>(s: seq<T>, pat: seq<T>, rep: seq<T>): seq<T>
    decreases |s|
  {
    if |pat| == 0 then
      // an empty pattern matches before every element and at the end
      if |s| == 0 then rep else rep + [s[0]] + Replace(s[1..], pat, rep)
    else if |s| < |pat| then s
    else if s[..|pat|] == pat then rep + Replace(s[|pat|..], pat, rep)
    else [s[0]] + Replace(s[1..], pat, rep)
  }

  /** Replacing with a string of the same length keeps the length. */
  lemma {:induction false} ReplaceKeepsLength<T>(s: seq<T>, pat: seq<T>, rep: seq<T>)
    requires |pat| == |rep|
    ensures |Replace(s, pat, rep)| == |s|
    decreases |s|
  {
    if |pat| == 0 {
      if |s| != 0 {
        ReplaceKeepsLength(s[1..], pat, rep);
      }
    } else if |s| < |pat| {
    } else if s[..|pat|] == pat {
      ReplaceKeepsLength(s[|pat|..], pat, rep);
    } else {
      ReplaceKeepsLength(s[1..], pat, rep);
    }
  }

  /** Replacing a pattern by itself changes nothing. */
  lemma {:induction false} ReplaceBySelf<T>(s: seq<T>, pat: seq<T>)
    ensures Replace(s, pat, pat) == s
    decreases |s|
  {
    if |pat| == 0 {
      if |s| != 0 {
        ReplaceBySelf(s[1..], pat);
        assert s == [s[0]] + s[1..];
      }
    } else if |s| < |pat| {
    } else if s[..|pat|] == pat {
      ReplaceBySelf(s[|pat|..], pat);
      assert s == s[..|pat|] + s[|pat|..];
    } else {
      ReplaceBySelf(s[1..], pat);
      assert s == [s[0]] + s[1..];
    }
  }

  /** `pat` occurs in `s` starting at index `i`. */
  predicate OccursAt<T(==)>(s: seq<T>, pat: seq<T>, i: int) {
    0 <= i && i + |pat| <= |s| && s[i..i + |pat|] == pat
  }

  /** Dropping the first element shifts every occurrence one place to the left. */
  lemma OccursAtTail<T>(s: seq<T>, pat: seq<T>, i: int)
    requires |s| > 0 && 0 <= i
    ensures OccursAt(s[1..], pat, i) <==> OccursAt(s, pat, i + 1)
  {
    if i + |pat| <= |s| - 1 {
      assert s[1..][i..i + |pat|] == s[i + 1..i + 1 + |pat|];
    }
  }

  /** A non-empty pattern that occurs nowhere leaves the sequence as it is. */
  lemma {:induction false} ReplaceAbsent<T>(s: seq<T>, pat: seq<T>, rep: seq<T>)
    requires |pat| > 0
    requires forall i :: !OccursAt(s, pat, i)
    ensures Replace(s, pat, rep) == s
    decreases |s|
  {
    if |s| >= |pat| {
      assert !OccursAt(s, pat, 0);
      forall i ensures !OccursAt(s[1..], pat, i) {
        if 0 <= i {
          OccursAtTail(s, pat, i);
        }
      }
      ReplaceAbsent(s[1..], pat, rep);
      assert s == [s[0]] + s[1..];
    }
  }

  /**
   * The first occurrence of a non-empty pattern is replaced, everything before
   * it is kept, and the scan resumes right after it.
   */
  lemma {:induction false} ReplaceFirst<T>(a: seq<T>, pat: seq<T>, b: seq<T>, rep: seq<T>)
    requires |pat| > 0
    requires forall i :: 0 <= i < |a| ==> !OccursAt(a + pat + b, pat, i)
    ensures Replace(a + pat + b, pat, rep) == a + rep + Replace(b, pat, rep)
    decreases |a|
  {
    var s := a + pat + b;
    if a == [] {
      assert s == pat + b;
      assert s[..|pat|] == pat && s[|pat|..] == b;
    } else {
      var t := a[1..] + pat + b;
      assert s[1..] == t;
      assert !OccursAt(s, pat, 0);
      assert s[..|pat|] != pat by {
        assert s[0..|pat|] == s[..|pat|];
      }
      forall i | 0 <= i < |a| - 1 ensures !OccursAt(t, pat, i) {
        OccursAtTail(s, pat, i);
      }
      ReplaceFirst(a[1..], pat, b, rep);
      assert Replace(s, pat, rep) == [a[0]] + Replace(t, pat, rep);
      assert a == [a[0]] + a[1..];
    }
  }

  /** os.path.basename: what follows the last '/', or the whole path when it has none. */
  function Basename(path: string): (name: string)
    ensures '/' !in name
    ensures EndsWith(path, name)
    ensures |name| == |path| || path[|path| - |name| - 1] == '/'
  {
    if |path| == 0 then []
    else if path[|path| - 1] == '/' then []
    else
      var prefix := path[..|path| - 1];
      var name := Basename(prefix) + [path[|path| - 1]];
      assert path == prefix + [path[|path| - 1]];
      name
  }
}
