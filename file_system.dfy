/** Path and string helpers of FileSystem.cpp: delimiter splitting, directory part of a path,
    file extension and path combination with ".." cancellation. ReadFile is not part of this model. */
module FileSystem {
  import opened Wrappers

  /** The delimiter `d` occurs in `s` starting at index `i`. */
  predicate OccursAt(s: string, d: string, i: nat)
  {
    i + |d| <= |s| && s[i..i + |d|] == d
  }

  predicate Contains(s: string, d: string)
  {
    exists i: nat | i <= |s| :: OccursAt(s, d, i)
  }

  /** `std::string::find(d, start)`: the first occurrence at or after `start`, or npos (None). */
  function Find(s: string, d: string, start: nat): (r: Option<nat>)
    requires start <= |s|
    ensures r.Some? ==> start <= r.value && OccursAt(s, d, r.value)
    decreases |s| - start
  {
    if OccursAt(s, d, start) then Some(start)
    else if start == |s| then None
    else Find(s, d, start + 1)
  }

  /** Find returns the first occurrence: none lies between `start` and the index found,
      and none at all lies at or after `start` when it returns npos. */
  lemma {:induction false} FindIsFirst(s: string, d: string, start: nat)
    requires start <= |s|
    ensures Find(s, d, start).Some? ==> forall j: nat :: start <= j < Find(s, d, start).value ==> !OccursAt(s, d, j)
    ensures Find(s, d, start).None? ==> forall j: nat :: start <= j ==> !OccursAt(s, d, j)
    decreases |s| - start
  {
    if !OccursAt(s, d, start) && start < |s| {
      FindIsFirst(s, d, start + 1);
    }
  }

  /** The fields of `s[start..]` between delimiters, empty ones included. */
  function FieldsFrom(s: string, d: string, start: nat): seq<string>
    requires |d| > 0 && start <= |s|
    decreases |s| - start
  {
    match Find(s, d, start)
    case None => [s[start..]]
    case Some(i) => [s[start..i]] + FieldsFrom(s, d, i + |d|)
  }

  function Fields(s: string, d: string): seq<string>
    requires |d| > 0
  {
    FieldsFrom(s, d, 0)
  }

  /** The text from `start` up to the next delimiter, or to the end when there is none. */
  function PieceAt(s: string, d: string, start: nat): string
    requires start <= |s|
  {
    match Find(s, d, start)
    case None => s[start..]
    case Some(i) => s[start..i]
  }

  function Kept(piece: string): seq<string>
  {
    if piece != "" then [piece] else []
  }

  /** What Split pushes while scanning from `start`: every field that is not empty. */
  function SplitFrom(s: string, d: string, start: nat): seq<string>
    requires |d| > 0 && start <= |s|
    decreases |s| - start
  {
    match Find(s, d, start)
    case None => Kept(PieceAt(s, d, start))
    case Some(i) => Kept(PieceAt(s, d, start)) + SplitFrom(s, d, i + |d|)
  }

  function Pieces(s: string, d: string): seq<string>
    requires |d| > 0
  {
    SplitFrom(s, d, 0)
  }

  function NonEmpty(xs: seq<string>): (r: seq<string>)
  {
    if xs == [] then [] else (if xs[0] != "" then [xs[0]] else []) + NonEmpty(xs[1..])
  }

  /** The pieces joined with `d` between neighbours. */
  function Join(xs: seq<string>, d: string): string
  {
    if |xs| == 0 then "" else if |xs| == 1 then xs[0] else xs[0] + d + Join(xs[1..], d)
  }

  /** Each piece followed by "/", concatenated (built up from the left, as the loops do). */
  function ConcatSlash(xs: seq<string>): string
  {
    if xs == [] then "" else ConcatSlash(xs[..|xs| - 1]) + xs[|xs| - 1] + "/"
  }

  /** `Split(output, input, delimiter)`: appends the non-empty fields of `input` to `output`.
      With an empty delimiter the loop never advances, so the delimiter must not be empty. */
  method SplitInto(output: seq<string>, input: string, delimiter: string) returns (result: seq<string>)
    requires |delimiter| > 0
    ensures result == output + Pieces(input, delimiter)
  {
    result := output;
    var start: nat := 0;
    var end: Option<nat> := Some(0);
    while end.Some?
      invariant start <= |input|
      invariant end.Some? ==> result + SplitFrom(input, delimiter, start) == output + Pieces(input, delimiter)
      invariant end.None? ==> result == output + Pieces(input, delimiter)
      decreases if end.Some? then |input| - start + 1 else 0
    {
      ghost var before, prev := result, start;
      end := Find(input, delimiter, start);
      var piece := if end.None? then input[start..] else input[start..end.value];
      assert piece == PieceAt(input, delimiter, start);
      if piece != "" {
        result := result + [piece];
      }
      assert result == before + Kept(piece);
      if end.Some? {
        start := end.value + |delimiter|;
        AdvanceKeeps(before, result, input, delimiter, prev, start, output + Pieces(input, delimiter));
      } else {
        SplitAdvance(input, delimiter, prev);
      }
    }
  }

  /** One pass of the Split loop keeps "pushed so far + still to push" unchanged. */
  lemma AdvanceKeeps(before: seq<string>, after: seq<string>, s: string, d: string, prev: nat, next: nat, goal: seq<string>)
    requires |d| > 0 && prev <= |s| && Find(s, d, prev).Some? && next == Find(s, d, prev).value + |d|
    requires before + SplitFrom(s, d, prev) == goal
    requires after == before + Kept(PieceAt(s, d, prev))
    ensures after + SplitFrom(s, d, next) == goal
  {
    SplitAdvance(s, d, prev);
    ConcatAssoc(before, Kept(PieceAt(s, d, prev)), SplitFrom(s, d, next));
  }

  lemma SplitAdvance(s: string, d: string, start: nat)
    requires |d| > 0 && start <= |s|
    ensures Find(s, d, start).Some? ==>
      SplitFrom(s, d, start) == Kept(PieceAt(s, d, start)) + SplitFrom(s, d, Find(s, d, start).value + |d|)
    ensures Find(s, d, start).None? ==> SplitFrom(s, d, start) == Kept(PieceAt(s, d, start))
  {
  }

  lemma ConcatAssoc(a: seq<string>, b: seq<string>, c: seq<string>)
    ensures a + (b + c) == (a + b) + c
  {
  }

  /** `Split(input, delimiter)`: the non-empty fields in a new vector. */
  method Split(input: string, delimiter: string) returns (output: seq<string>)
    requires |delimiter| > 0
    ensures output == Pieces(input, delimiter)
    ensures Clean(output, delimiter)
  {
    output := SplitInto([], input, delimiter);
    PiecesAreClean(input, delimiter, 0);
  }

  lemma OccursInSlice(s: string, d: string, a: nat, b: nat, j: nat)
    requires a <= b <= |s|
    requires OccursAt(s[a..b], d, j)
    ensures OccursAt(s, d, a + j)
  {
    assert j + |d| <= b - a;
    forall k | 0 <= k < |d| ensures s[a + j + k] == d[k] {
      assert s[a..b][j..j + |d|][k] == d[k];
    }
    assert s[a + j..a + j + |d|] == d;
  }

  /** Every element is non-empty and free of the delimiter. */
  predicate Clean(xs: seq<string>, d: string)
  {
    forall k | 0 <= k < |xs| :: CleanPiece(xs[k], d)
  }

  predicate CleanPiece(p: string, d: string)
  {
    p != "" && !Contains(p, d)
  }

  /** The text up to the next delimiter does not contain the delimiter. */
  lemma PieceHasNoDelimiter(s: string, d: string, start: nat)
    requires |d| > 0 && start <= |s|
    ensures !Contains(PieceAt(s, d, start), d)
  {
    FindIsFirst(s, d, start);
    var end := if Find(s, d, start).Some? then Find(s, d, start).value else |s|;
    assert PieceAt(s, d, start) == s[start..end];
    if exists j: nat | j <= |s[start..end]| :: OccursAt(s[start..end], d, j) {
      var j: nat :| OccursAt(s[start..end], d, j);
      OccursInSlice(s, d, start, end, j);
    }
  }

  /** The piece at index `k` of what Split pushes from `start` is non-empty and free of the delimiter. */
  lemma {:induction false} PieceOfSplitIsClean(s: string, d: string, start: nat, k: nat)
    requires |d| > 0 && start <= |s| && k < |SplitFrom(s, d, start)|
    ensures CleanPiece(SplitFrom(s, d, start)[k], d)
    decreases |s| - start
  {
    var piece := PieceAt(s, d, start);
    match Find(s, d, start)
    case None =>
      PieceHasNoDelimiter(s, d, start);
    case Some(i) =>
      var rest := SplitFrom(s, d, i + |d|);
      assert SplitFrom(s, d, start) == Kept(piece) + rest;
      if k < |Kept(piece)| {
        PieceHasNoDelimiter(s, d, start);
      } else {
        PieceOfSplitIsClean(s, d, i + |d|, k - |Kept(piece)|);
      }
  }

  /** No piece is empty and none contains the delimiter. */
  lemma PiecesAreClean(s: string, d: string, start: nat)
    requires |d| > 0 && start <= |s|
    ensures Clean(SplitFrom(s, d, start), d)
  {
    forall k | 0 <= k < |SplitFrom(s, d, start)| ensures CleanPiece(SplitFrom(s, d, start)[k], d) {
      PieceOfSplitIsClean(s, d, start, k);
    }
  }

  lemma {:induction false} NonEmptyConcat(xs: seq<string>, ys: seq<string>)
    ensures NonEmpty(xs + ys) == NonEmpty(xs) + NonEmpty(ys)
    decreases |xs|
  {
    if xs == [] {
      assert xs + ys == ys;
    } else {
      var h := if xs[0] != "" then [xs[0]] else [];
      assert (xs + ys)[0] == xs[0];
      assert (xs + ys)[1..] == xs[1..] + ys;
      NonEmptyConcat(xs[1..], ys);
      calc {
        NonEmpty(xs + ys);
        h + NonEmpty(xs[1..] + ys);
        h + (NonEmpty(xs[1..]) + NonEmpty(ys));
        (h + NonEmpty(xs[1..])) + NonEmpty(ys);
        NonEmpty(xs) + NonEmpty(ys);
      }
    }
  }

  /** Split keeps exactly the non-empty fields, in order. */
  lemma {:induction false} SplitIsNonEmptyFields(s: string, d: string, start: nat)
    requires |d| > 0 && start <= |s|
    ensures SplitFrom(s, d, start) == NonEmpty(FieldsFrom(s, d, start))
    decreases |s| - start
  {
    match Find(s, d, start)
    case None =>
      assert NonEmpty([s[start..]]) == (if s[start..] != "" then [s[start..]] else []) + NonEmpty([]);
    case Some(i) =>
      SplitIsNonEmptyFields(s, d, i + |d|);
      NonEmptyConcat([s[start..i]], FieldsFrom(s, d, i + |d|));
      assert NonEmpty([s[start..i]]) == (if s[start..i] != "" then [s[start..i]] else []) + NonEmpty([]);
  }

  /** Joining the fields with the delimiter gives the input back. */
  lemma {:induction false} JoinFields(s: string, d: string, start: nat)
    requires |d| > 0 && start <= |s|
    ensures |FieldsFrom(s, d, start)| > 0
    ensures Join(FieldsFrom(s, d, start), d) == s[start..]
    decreases |s| - start
  {
    match Find(s, d, start)
    case None =>
    case Some(i) =>
      var rest := FieldsFrom(s, d, i + |d|);
      JoinFields(s, d, i + |d|);
      calc {
        Join(FieldsFrom(s, d, start), d);
        Join([s[start..i]] + rest, d);
        { assert ([s[start..i]] + rest)[1..] == rest; }
        s[start..i] + d + Join(rest, d);
        s[start..i] + d + s[i + |d|..];
        { assert s[i..i + |d|] == d; }
        s[start..];
      }
  }

  /** When the input has no empty field (no leading, trailing or doubled delimiter),
      joining the pieces with the delimiter gives the input back. */
  lemma SplitJoinRoundTrip(s: string, d: string)
    requires |d| > 0
    requires forall k | 0 <= k < |Fields(s, d)| :: Fields(s, d)[k] != ""
    ensures Join(Pieces(s, d), d) == s
  {
    SplitIsNonEmptyFields(s, d, 0);
    NonEmptyKeepsClean(Fields(s, d));
    JoinFields(s, d, 0);
  }

  lemma NonEmptyKeepsClean(xs: seq<string>)
    requires forall k | 0 <= k < |xs| :: xs[k] != ""
    ensures NonEmpty(xs) == xs
  {
    if xs != [] {
      NonEmptyKeepsClean(xs[1..]);
    }
  }

  lemma {:induction false} JoinSnoc(xs: seq<string>, y: string, d: string)
    requires xs != []
    ensures Join(xs + [y], d) == Join(xs, d) + d + y
    decreases |xs|
  {
    if |xs| == 1 {
      assert (xs + [y])[1..] == [y];
    } else {
      assert (xs + [y])[1..] == xs[1..] + [y];
      JoinSnoc(xs[1..], y, d);
    }
  }

  /** Each directory followed by "/" and then the last piece is the pieces joined with "/". */
  lemma {:induction false} ConcatSlashThenLast(xs: seq<string>, y: string)
    ensures ConcatSlash(xs) + y == Join(xs + [y], "/")
    decreases |xs|
  {
    if xs != [] {
      var init, last := xs[..|xs| - 1], xs[|xs| - 1];
      assert xs == init + [last];
      ConcatSlashThenLast(init, last);
      JoinSnoc(xs, y, "/");
    }
  }

  /** The directory part of a path: every "/"-separated piece but the last, each followed by "/". */
  function PathName(filePath: string): string
  {
    var pieces := Pieces(filePath, "/");
    if |pieces| <= 1 then "" else ConcatSlash(pieces[..|pieces| - 1])
  }

  /** `GetPathName`: concatenates all pieces but the last, each with a trailing "/". */
  method GetPathName(filePath: string) returns (directoryName: string)
    ensures directoryName == PathName(filePath)
  {
    directoryName := "";
    var splitPath := Split(filePath, "/");
    var splitCount := |splitPath|;
    var i := 0;
    while i < splitCount - 1
      invariant 0 <= i <= if splitCount == 0 then 0 else splitCount - 1
      invariant directoryName == ConcatSlash(splitPath[..i])
    {
      assert splitPath[..i + 1][..i] == splitPath[..i];
      directoryName := directoryName + splitPath[i] + "/";
      i := i + 1;
    }
    assert splitCount >= 2 ==> splitPath[..splitCount - 1] == splitPath[..i];
  }

  lemma {:induction false} ConcatSlashShape(xs: seq<string>)
    requires forall k | 0 <= k < |xs| :: xs[k] != "" && '/' !in xs[k]
    ensures ConcatSlash(xs) == "" || ConcatSlash(xs)[|ConcatSlash(xs)| - 1] == '/'
    ensures ConcatSlash(xs) != "" ==> ConcatSlash(xs)[0] != '/'
    ensures forall k | 0 <= k < |ConcatSlash(xs)| - 1 :: !(ConcatSlash(xs)[k] == '/' && ConcatSlash(xs)[k + 1] == '/')
    decreases |xs|
  {
    if xs != [] {
      var init, last := xs[..|xs| - 1], xs[|xs| - 1];
      ConcatSlashShape(init);
      var a := ConcatSlash(init);
      var r := a + last + "/";
      assert ConcatSlash(xs) == r;
      assert last[0] != '/';
      forall k | 0 <= k < |r| - 1 ensures !(r[k] == '/' && r[k + 1] == '/') {
        if k < |a| - 1 {
          assert r[k] == a[k] && r[k + 1] == a[k + 1];
        } else if k == |a| - 1 {
          assert r[k + 1] == last[0];
        } else {
          assert r[k + 1] == (last + "/")[k + 1 - |a|];
          if k + 1 - |a| < |last| {
            assert r[k + 1] == last[k + 1 - |a|];
            assert r[k + 1] in last;
          } else {
            assert r[k] == last[k - |a|];
            assert r[k] in last;
          }
        }
      }
    }
  }

  lemma SlashFreePieces(s: string)
    ensures forall k | 0 <= k < |Pieces(s, "/")| :: Pieces(s, "/")[k] != "" && '/' !in Pieces(s, "/")[k]
  {
    PiecesAreClean(s, "/", 0);
    forall k | 0 <= k < |Pieces(s, "/")| ensures '/' !in Pieces(s, "/")[k] {
      var p := Pieces(s, "/")[k];
      if '/' in p {
        var j :| 0 <= j < |p| && p[j] == '/';
        assert p[j..j + 1] == "/";
        assert OccursAt(p, "/", j);
      }
    }
  }

  /** The directory part is empty or ends in "/", does not start with "/" and never holds "//". */
  lemma PathNameShape(filePath: string)
    ensures var r := PathName(filePath);
      && (r == "" || r[|r| - 1] == '/')
      && (r != "" ==> r[0] != '/')
      && forall k | 0 <= k < |r| - 1 :: !(r[k] == '/' && r[k + 1] == '/')
  {
    var pieces := Pieces(filePath, "/");
    SlashFreePieces(filePath);
    if |pieces| > 1 {
      ConcatSlashShape(pieces[..|pieces| - 1]);
    }
  }

  /** For a path without empty components, the directory part followed by the last component is the path. */
  lemma PathNameThenFileName(filePath: string)
    requires forall k | 0 <= k < |Fields(filePath, "/")| :: Fields(filePath, "/")[k] != ""
    ensures var pieces := Pieces(filePath, "/");
      |pieces| > 0 && PathName(filePath) + pieces[|pieces| - 1] == filePath
  {
    var pieces := Pieces(filePath, "/");
    SplitJoinRoundTrip(filePath, "/");
    SplitIsNonEmptyFields(filePath, "/", 0);
    NonEmptyKeepsClean(Fields(filePath, "/"));
    JoinFields(filePath, "/", 0);
    var init, last := pieces[..|pieces| - 1], pieces[|pieces| - 1];
    assert pieces == init + [last];
    ConcatSlashThenLast(init, last);
  }

  /** `GetFileExtension`: the text after the last '.', or "" when there is none. */
  function GetFileExtension(fileName: string): (r: string)
    ensures '.' !in r
    ensures '.' in fileName ==> |r| < |fileName| && fileName[|fileName| - |r| - 1] == '.' && fileName[|fileName| - |r|..] == r
    ensures '.' !in fileName ==> r == ""
  {
    if fileName == [] then ""
    else if fileName[|fileName| - 1] == '.' then ""
    else
      var r := GetFileExtension(fileName[..|fileName| - 1]);
      if '.' in fileName[..|fileName| - 1] then r + [fileName[|fileName| - 1]]
      else
        assert fileName == fileName[..|fileName| - 1] + [fileName[|fileName| - 1]];
        ""
  }

  /** The `..` cancellation loop of CombinePaths: while the second list starts with ".." and the
      first is non-empty and does not end in "..", drop one component from each. */
  function Cancel(first: seq<string>, second: seq<string>): (seq<string>, seq<string>)
    decreases |second|
  {
    if |second| > 0 && second[0] == ".." && |first| > 0 && first[|first| - 1] != ".." then
      Cancel(first[..|first| - 1], second[1..])
    else (first, second)
  }

  /** Cancellation removes the same number of components from the end of the first list and the start of
      the second; every removed component of the second is "..", and it stops only when no further pair cancels. */
  lemma {:induction false} CancelMeaning(first: seq<string>, second: seq<string>)
    ensures var (f, s) := Cancel(first, second);
      && |first| - |f| == |second| - |s| >= 0
      && f == first[..|f|]
      && s == second[|second| - |s|..]
      && (forall j | 0 <= j < |second| - |s| :: second[j] == "..")
      && (s == [] || s[0] != ".." || f == [] || f[|f| - 1] == "..")
    decreases |second|
  {
    if |second| > 0 && second[0] == ".." && |first| > 0 && first[|first| - 1] != ".." {
      CancelMeaning(first[..|first| - 1], second[1..]);
      var (f, s) := Cancel(first, second);
      assert second[1..][|second| - 1 - |s|..] == second[|second| - |s|..];
    }
  }

  /** The component list CombinePaths joins. */
  function CombinedComponents(firstPath: string, secondPath: string): seq<string>
  {
    var (f, s) := Cancel(Pieces(firstPath, "/"), Pieces(secondPath, "/"));
    f + s
  }

  /** `CombinePaths`: the remaining components joined by single "/"; the code reads the last element
      of the combined list, so that list must not be empty. */
  method CombinePaths(firstPath: string, secondPath: string) returns (combinedPaths: string)
    requires CombinedComponents(firstPath, secondPath) != []
    ensures combinedPaths == Join(CombinedComponents(firstPath, secondPath), "/")
  {
    var splitFirst := Split(firstPath, "/");
    var splitSecond := Split(secondPath, "/");
    ghost var goal := Cancel(splitFirst, splitSecond);

    while splitSecond != [] && splitSecond[0] == ".."
      invariant Cancel(splitFirst, splitSecond) == goal
      decreases |splitSecond|
    {
      if splitFirst != [] && splitFirst[|splitFirst| - 1] != ".." {
        splitSecond := splitSecond[1..];
        splitFirst := splitFirst[..|splitFirst| - 1];
      } else {
        break;
      }
    }
    assert (splitFirst, splitSecond) == goal;

    splitFirst := splitFirst + splitSecond;

    combinedPaths := "";
    var splitCount := |splitFirst|;
    var i := 0;
    while i < splitCount - 1
      invariant 0 <= i <= splitCount - 1
      invariant combinedPaths == ConcatSlash(splitFirst[..i])
    {
      assert splitFirst[..i + 1][..i] == splitFirst[..i];
      combinedPaths := combinedPaths + splitFirst[i] + "/";
      i := i + 1;
    }
    combinedPaths := combinedPaths + splitFirst[splitCount - 1];
    ConcatSlashThenLast(splitFirst[..i], splitFirst[splitCount - 1]);
    assert splitFirst[..i] + [splitFirst[splitCount - 1]] == splitFirst;
  }

  lemma {:induction false} JoinSlashFree(xs: seq<string>)
    requires xs != []
    requires forall k | 0 <= k < |xs| :: xs[k] != "" && '/' !in xs[k]
    ensures var r := Join(xs, "/");
      && r != "" && r[0] != '/' && r[|r| - 1] != '/'
      && forall k | 0 <= k < |r| - 1 :: !(r[k] == '/' && r[k + 1] == '/')
  {
    var init, last := xs[..|xs| - 1], xs[|xs| - 1];
    assert xs == init + [last];
    ConcatSlashThenLast(init, last);
    ConcatSlashShape(init);
    var a := ConcatSlash(init);
    var r := a + last;
    assert r == Join(xs, "/");
    assert last[0] != '/' && last[|last| - 1] != '/';
    assert r[|r| - 1] == last[|last| - 1];
    forall k | 0 <= k < |r| - 1 ensures !(r[k] == '/' && r[k + 1] == '/') {
      if k < |a| - 1 {
        assert r[k] == a[k] && r[k + 1] == a[k + 1];
      } else if k == |a| - 1 {
        assert r[k + 1] == last[0];
      } else {
        assert r[k] == last[k - |a|];
        assert r[k] in last;
      }
    }
  }

  /** The combined path has no leading, trailing or doubled "/". */
  lemma CombinePathsShape(firstPath: string, secondPath: string)
    requires CombinedComponents(firstPath, secondPath) != []
    ensures var r := Join(CombinedComponents(firstPath, secondPath), "/");
      && r != "" && r[0] != '/' && r[|r| - 1] != '/'
      && forall k | 0 <= k < |r| - 1 :: !(r[k] == '/' && r[k + 1] == '/')
  {
    var first, second := Pieces(firstPath, "/"), Pieces(secondPath, "/");
    SlashFreePieces(firstPath);
    SlashFreePieces(secondPath);
    CancelMeaning(first, second);
    var (f, s) := Cancel(first, second);
    var xs := f + s;
    forall k | 0 <= k < |xs| ensures xs[k] != "" && '/' !in xs[k] {
      if k < |f| {
        assert xs[k] == first[k];
      } else {
        assert xs[k] == second[|second| - |s| + (k - |f|)];
      }
    }
    JoinSlashFree(xs);
  }
}
