/** String helpers with the semantics of the JavaScript and Node.js calls the
    sources use: `Array.prototype.join`, `String.prototype.split` on one
    character, `.split("/").pop()` and `path.basename`. */
module Text {

  /** `parts.join(sep)` */
  function Join(parts: seq<string>, sep: string): string
    decreases |parts|
  {
    if |parts| == 0 then ""
    else if |parts| == 1 then parts[0]
    else parts[0] + sep + Join(parts[1..], sep)
  }

  /** Joining two non-empty lists puts one separator between their joins. */
  lemma {:induction false} JoinAppend(a: seq<string>, b: seq<string>, sep: string)
    requires |a| >= 1 && |b| >= 1
    ensures Join(a + b, sep) == Join(a, sep) + sep + Join(b, sep)
    decreases |a|
  {
    if |a| == 1 {
      assert (a + b)[1..] == b;
    } else {
      assert (a + b)[1..] == a[1..] + b;
      JoinAppend(a[1..], b, sep);
    }
  }

  /** `s.split(sep)` for a one-character separator: the pieces between
      separators, never an empty list, and joining them back gives `s`. */
  function Split(s: string, sep: char): (r: seq<string>)
    ensures |r| >= 1
    ensures forall i :: 0 <= i < |r| ==> sep !in r[i]
    ensures Join(r, [sep]) == s
    decreases |s|
  {
    if s == [] then [[]]
    else
      var rest := Split(s[1..], sep);
      if s[0] == sep then
        assert s == [sep] + s[1..];
        [[]] + rest
      else
        assert s == [s[0]] + s[1..];
        [[s[0]] + rest[0]] + rest[1..]
  }

  /** `s.split("/").pop()` */
  function LastSegment(s: string): (r: string)
    ensures '/' !in r
    ensures |r| <= |s| && s[|s| - |r|..] == r
    ensures |r| < |s| ==> s[|s| - |r| - 1] == '/'
  {
    var parts := Split(s, '/');
    SplitLastIsSuffix(s, '/');
    parts[|parts| - 1]
  }

  /** `path.basename(p)` on POSIX: trailing separators are ignored. */
  function Basename(p: string): (r: string)
    ensures '/' !in r
  {
    LastSegment(StripTrailingSlashes(p))
  }

  function StripTrailingSlashes(p: string): (r: string)
    ensures |r| <= |p| && p[..|r|] == r
    ensures r == [] || r[|r| - 1] != '/'
    ensures forall k :: |r| <= k < |p| ==> p[k] == '/'
  {
    if p != [] && p[|p| - 1] == '/' then StripTrailingSlashes(p[..|p| - 1]) else p
  }

  /** `nodePath.join(a, b)`, without Node's normalisation of `.`, `..` and repeated separators. */
  function PathJoin(a: string, b: string): string {
    a + "/" + b
  }

  predicate StartsWith(s: string, prefix: string) {
    |prefix| <= |s| && s[..|prefix|] == prefix
  }

  /** A string starts with anything it was built by appending to. */
  lemma StartsWithAppended(p: string, s: string)
    ensures StartsWith(p + s, p)
  {
    assert (p + s)[..|p|] == p;
  }

  /** A prefix of a prefix is a prefix. */
  lemma StartsWithTransitive(s: string, t: string, p: string)
    requires StartsWith(s, t) && StartsWith(t, p)
    ensures StartsWith(s, p)
  {
    assert s[..|p|] == t[..|t|][..|p|];
  }

  /** Concatenation regroups. */
  lemma Regroup(a: string, b: string, c: string)
    ensures a + (b + c) == a + b + c
  {
  }

  /** `last` ends `s`, and is preceded there by `sep` unless it is all of `s`. */
  predicate EndsAfterSeparator(s: string, last: string, sep: char) {
    |last| <= |s| && s[|s| - |last|..] == last &&
    (|last| < |s| ==> s[|s| - |last| - 1] == sep)
  }

  /** The last piece of a split is a suffix of the string, preceded by the separator when shorter. */
  lemma {:induction false} SplitLastIsSuffix(s: string, sep: char)
    ensures var r := Split(s, sep); EndsAfterSeparator(s, r[|r| - 1], sep)
    decreases |s|
  {
    if s != [] {
      SplitLastIsSuffix(s[1..], sep);
      SplitLastStep(s, sep);
    }
  }

  /** One step of the induction: the property moves from the tail to the whole string. */
  lemma SplitLastStep(s: string, sep: char)
    requires s != []
    requires var rest := Split(s[1..], sep); EndsAfterSeparator(s[1..], rest[|rest| - 1], sep)
    ensures var r := Split(s, sep); EndsAfterSeparator(s, r[|r| - 1], sep)
  {
    if s[0] != sep && |Split(s[1..], sep)| == 1 {
      SplitOnePiece(s, sep);
    } else {
      SplitMorePieces(s, sep);
    }
  }

  /** A string whose tail is one piece and whose first character is no separator is its own last piece. */
  lemma SplitOnePiece(s: string, sep: char)
    requires s != [] && s[0] != sep && |Split(s[1..], sep)| == 1
    ensures var r := Split(s, sep); EndsAfterSeparator(s, r[|r| - 1], sep)
  {
    SplitWithoutSeparatorFirst(s, sep);
    assert s[|s| - |s|..] == s;
  }

  /** Otherwise the last piece is the tail's, and the property lifts from the tail. */
  lemma SplitMorePieces(s: string, sep: char)
    requires s != [] && (s[0] == sep || |Split(s[1..], sep)| > 1)
    requires var rest := Split(s[1..], sep); EndsAfterSeparator(s[1..], rest[|rest| - 1], sep)
    ensures var r := Split(s, sep); EndsAfterSeparator(s, r[|r| - 1], sep)
  {
    var rest := Split(s[1..], sep);
    if s[0] != sep {
      JoinLongerThanLast(rest, [sep]);
    }
    SuffixAfterOne(s, rest[|rest| - 1], sep);
    SplitKeepsLast(s, sep);
  }

  /** Unless the first piece absorbs the whole tail, the last piece is the tail's. */
  lemma SplitKeepsLast(s: string, sep: char)
    requires s != [] && (s[0] == sep || |Split(s[1..], sep)| > 1)
    ensures var r := Split(s, sep); var rest := Split(s[1..], sep);
      r[|r| - 1] == rest[|rest| - 1]
  {
  }

  /** When the tail splits into one piece and the first character is no separator, the
      string is one piece. */
  lemma SplitWithoutSeparatorFirst(s: string, sep: char)
    requires s != [] && s[0] != sep && |Split(s[1..], sep)| == 1
    ensures Split(s, sep) == [s]
  {
    var rest := Split(s[1..], sep);
    assert Join(rest, [sep]) == rest[0];
  }

  /** A suffix of the tail that starts after a separator (or at its start, when the first
      character is the separator) is such a suffix of the whole string. */
  lemma SuffixAfterOne(s: string, last: string, sep: char)
    requires s != [] && EndsAfterSeparator(s[1..], last, sep)
    requires |last| == |s| - 1 ==> s[0] == sep
    ensures EndsAfterSeparator(s, last, sep)
  {
    assert s[|s| - |last|..] == s[1..][|s| - 1 - |last|..];
  }

  /** Joining two or more parts gives more than the last part. */
  lemma {:induction false} JoinLongerThanLast(parts: seq<string>, sep: string)
    requires |parts| >= 2 && |sep| >= 1
    ensures |Join(parts, sep)| > |parts[|parts| - 1]|
    decreases |parts|
  {
    if |parts| > 2 {
      JoinLongerThanLast(parts[1..], sep);
    }
  }

  /** A piece without separator splits to itself. */
  lemma {:induction false} SplitWithoutSeparator(s: string, sep: char)
    requires sep !in s
    ensures Split(s, sep) == [s]
    decreases |s|
  {
    if s != [] {
      SplitWithoutSeparator(s[1..], sep);
    }
  }

  lemma {:induction false} SplitAfterPiece(p: string, sep: char, t: string)
    requires sep !in p
    ensures Split(p + [sep] + t, sep) == [p] + Split(t, sep)
    decreases |p|
  {
    if p == [] {
      assert p + [sep] + t == [sep] + t;
      assert (p + [sep] + t)[1..] == t;
    } else {
      assert (p + [sep] + t)[1..] == p[1..] + [sep] + t;
      SplitAfterPiece(p[1..], sep, t);
      assert [p[0]] + p[1..] == p;
    }
  }

  /** Splitting undoes joining when no piece contains the separator. */
  lemma {:induction false} SplitJoin(parts: seq<string>, sep: char)
    requires |parts| >= 1
    requires forall i :: 0 <= i < |parts| ==> sep !in parts[i]
    ensures Split(Join(parts, [sep]), sep) == parts
    decreases |parts|
  {
    if |parts| == 1 {
      SplitWithoutSeparator(parts[0], sep);
    } else {
      SplitJoin(parts[1..], sep);
      SplitAfterPiece(parts[0], sep, Join(parts[1..], [sep]));
      assert [parts[0]] + parts[1..] == parts;
    }
  }

  /** The last segment of `dir + "/" + name` is `name` when `name` has no separator. */
  lemma LastSegmentOfChild(dir: string, name: string)
    requires '/' !in name
    ensures LastSegment(dir + "/" + name) == name
  {
    var p := dir + "/" + name;
    var r := LastSegment(p);
    assert p[|p| - |name|..] == name;
    assert p[|p| - |name| - 1] == '/';
    assert forall j :: |p| - |name| <= j < |p| ==> p[j] != '/' by {
      forall j | |p| - |name| <= j < |p| ensures p[j] != '/' {
        assert p[j] == name[j - (|p| - |name|)];
      }
    }
    assert forall j :: |p| - |r| <= j < |p| ==> p[j] != '/' by {
      forall j | |p| - |r| <= j < |p| ensures p[j] != '/' {
        assert p[j] == r[j - (|p| - |r|)];
      }
    }
  }

  /** `path.basename(dir + "/" + name)` is `name` for a non-empty `name` without separators. */
  lemma BasenameOfChild(dir: string, name: string)
    requires name != [] && '/' !in name
    ensures Basename(dir + "/" + name) == name
  {
    var p := dir + "/" + name;
    assert p[|p| - 1] == name[|name| - 1];
    assert StripTrailingSlashes(p) == p;
    LastSegmentOfChild(dir, name);
  }
}
