/** The parts of Python's runtime the two extractors rely on: exceptions as
    values, and the string operations `str.find`, `in`, `str.split`,
    indexing into the split list, and the POSIX `os.path.isabs` and
    `os.path.dirname`. */
module Python {

  datatype Option<+T> = None | Some(value: T)

  /** The exceptions the extractors can raise or meet. */
  datatype Exception =
    | AttributeError(attribute: string)   // an attribute looked up on None
    | KeyError(key: string)               // a dictionary has no such key
    | IndexError                          // a list index out of range
    | TypeError                           // e.g. `str + list`, `'json' in None`
    | ValueError                          // e.g. `str.split('')`
    | NameError(name: string)             // a name that is not defined
    | JsonDecodeError                     // `Response.json()` on a body that is not JSON
    | OSError                             // any failure of the operating system
    | ParamValidationError                // botocore's check of a request's parameters before it is sent

  /** A value, or the exception raised instead of producing it. */
  datatype Result<+T> = Ok(value: T) | Raise(exception: Exception)

  /** `sub` occurs in `s` starting at index `i`. */
  predicate OccursAt(s: string, sub: string, i: nat)
  {
    i + |sub| <= |s| && s[i..i + |sub|] == sub
  }

  /** `s.find(sub, i)` when it succeeds: the first occurrence at or after `i`. */
  function FindFrom(s: string, sub: string, i: nat): (r: Option<nat>)
    requires i <= |s|
    decreases |s| - i
    ensures r.Some? ==> i <= r.value && OccursAt(s, sub, r.value)
    ensures r.Some? ==> forall j :: i <= j < r.value ==> !OccursAt(s, sub, j)
    ensures r.None? ==> forall j :: i <= j <= |s| ==> !OccursAt(s, sub, j)
  {
    if OccursAt(s, sub, i) then Some(i)
    else if i == |s| then None
    else FindFrom(s, sub, i + 1)
  }

  /** `s.find(sub)`, with None for Python's -1. */
  function Find(s: string, sub: string): (r: Option<nat>)
    ensures r.Some? ==> OccursAt(s, sub, r.value)
    ensures r.Some? ==> forall j :: 0 <= j < r.value ==> !OccursAt(s, sub, j)
    ensures r.None? ==> forall j :: 0 <= j <= |s| ==> !OccursAt(s, sub, j)
  {
    FindFrom(s, sub, 0)
  }

  /** `sub in s` for two strings. */
  function Contains(s: string, sub: string): (r: bool)
    ensures r <==> exists j :: 0 <= j <= |s| && OccursAt(s, sub, j)
  {
    Find(s, sub).Some?
  }

  /** The pieces of `s.split(sep)` for a non-empty separator: the text between
      successive non-overlapping occurrences, scanned from the left. */
  function Pieces(s: string, sep: string): (r: seq<string>)
    requires sep != ""
    decreases |s|
    ensures |r| >= 1
  {
    match Find(s, sep)
    case None => [s]
    case Some(i) => [s[..i]] + Pieces(s[i + |sep|..], sep)
  }

  /** `s.split(sep)`: an empty separator raises ValueError. */
  function Split(s: string, sep: string): (r: Result<seq<string>>)
    ensures r.Raise? <==> sep == ""
    ensures r.Raise? ==> r.exception == ValueError
    ensures r.Ok? ==> |r.value| >= 1
  {
    if sep == "" then Raise(ValueError) else Ok(Pieces(s, sep))
  }

  /** `s.split(sep)[index]`: IndexError when the list is too short. */
  function SplitItem(s: string, sep: string, index: nat): (r: Result<string>)
  {
    match Split(s, sep)
    case Raise(e) => Raise(e)
    case Ok(pieces) => if index < |pieces| then Ok(pieces[index]) else Raise(IndexError)
  }

  /** `sep.join(pieces)`, the inverse of splitting. */
  function Join(pieces: seq<string>, sep: string): (r: string)
  {
    if |pieces| == 0 then ""
    else if |pieces| == 1 then pieces[0]
    else pieces[0] + sep + Join(pieces[1..], sep)
  }

  lemma OccursInPrefix(s: string, sub: string, n: nat, j: nat)
    requires n <= |s| && OccursAt(s[..n], sub, j)
    ensures OccursAt(s, sub, j)
  {
    assert s[..n][j..j + |sub|] == s[j..j + |sub|];
  }

  /** Joining the pieces with the separator gives back the string. */
  lemma {:induction false} JoinPieces(s: string, sep: string)
    requires sep != ""
    decreases |s|
    ensures Join(Pieces(s, sep), sep) == s
  {
    match Find(s, sep)
    case None =>
    case Some(i) =>
      var rest := s[i + |sep|..];
      assert Pieces(s, sep) == [s[..i]] + Pieces(rest, sep);
      JoinPieces(rest, sep);
      JoinCons(s[..i], Pieces(rest, sep), sep);
      SplitAt(s, sep, i);
  }

  lemma SplitAt(s: string, sep: string, i: nat)
    requires OccursAt(s, sep, i)
    ensures s == s[..i] + sep + s[i + |sep|..]
  {
    assert s == s[..i] + s[i..i + |sep|] + s[i + |sep|..];
  }

  lemma JoinCons(first: string, more: seq<string>, sep: string)
    requires |more| >= 1
    ensures Join([first] + more, sep) == first + sep + Join(more, sep)
  {
    assert ([first] + more)[1..] == more;
  }

  /** No piece contains the separator. */
  lemma {:induction false} PiecesAvoidSeparator(s: string, sep: string)
    requires sep != ""
    decreases |s|
    ensures forall k :: 0 <= k < |Pieces(s, sep)| ==> !Contains(Pieces(s, sep)[k], sep)
  {
    match Find(s, sep)
    case None =>
    case Some(i) =>
      var rest := s[i + |sep|..];
      PiecesAvoidSeparator(rest, sep);
      if Contains(s[..i], sep) {
        var j :| 0 <= j <= i && OccursAt(s[..i], sep, j);
        OccursInPrefix(s, sep, i, j);
        assert false;
      }
      var p := Pieces(s, sep);
      forall k | 0 <= k < |p| ensures !Contains(p[k], sep) {
        if k > 0 {
          assert p[k] == Pieces(rest, sep)[k - 1];
        }
      }
  }

  /** The first piece runs up to the first occurrence, or is all of `s`. */
  lemma FirstPiece(s: string, sep: string)
    requires sep != ""
    ensures Find(s, sep).None? ==> Pieces(s, sep) == [s]
    ensures Find(s, sep).Some? ==> Pieces(s, sep)[0] == s[..Find(s, sep).value]
  {
  }

  /** `s.split(sep)[1]` succeeds exactly when `sep` occurs in `s`, and then
      it is the text after the first occurrence up to the next occurrence
      (or to the end of `s`). */
  lemma SecondPiece(s: string, sep: string)
    requires sep != ""
    ensures SplitItem(s, sep, 1).Ok? <==> Contains(s, sep)
    ensures SplitItem(s, sep, 1).Raise? ==> SplitItem(s, sep, 1).exception == IndexError
    ensures SplitItem(s, sep, 1).Ok? ==>
      var i := Find(s, sep).value;
      var after := s[i + |sep|..];
      var t := SplitItem(s, sep, 1).value;
      |t| <= |after| && t == after[..|t|] && !Contains(t, sep) &&
      (|t| == |after| || OccursAt(after, sep, |t|)) &&
      (Find(after, sep).None? ==> t == after) &&
      (Find(after, sep).Some? ==> t == after[..Find(after, sep).value])
  {
    match Find(s, sep)
    case None =>
    case Some(i) =>
      var after := s[i + |sep|..];
      FirstPiece(after, sep);
      PiecesAvoidSeparator(after, sep);
      assert Pieces(s, sep)[1] == Pieces(after, sep)[0];
  }

  /** A string that starts with `root` and holds no further `root` splits
      into the empty string and the rest. */
  lemma SplitRooted(root: string, rest: string)
    requires root != "" && !Contains(rest, root)
    ensures Pieces(root + rest, root) == ["", rest]
    ensures SplitItem(root + rest, root, 1) == Ok(rest)
  {
    var s := root + rest;
    assert OccursAt(s, root, 0);
    assert Find(s, root) == Some(0);
    assert s[|root|..] == rest;
    assert Find(rest, root).None?;
  }

  /** `os.path.isabs` on POSIX: the path begins with a slash. */
  predicate IsAbs(path: string)
  {
    |path| > 0 && path[0] == '/'
  }

  /** `s.rfind(c)` for one character, with None for -1. */
  function LastIndexOf(s: string, c: char): (r: Option<nat>)
    decreases |s|
    ensures r.Some? ==> r.value < |s| && s[r.value] == c
    ensures r.Some? ==> forall k :: r.value < k < |s| ==> s[k] != c
    ensures r.None? ==> forall k :: 0 <= k < |s| ==> s[k] != c
  {
    if |s| == 0 then None
    else if s[|s| - 1] == c then Some(|s| - 1)
    else LastIndexOf(s[..|s| - 1], c)
  }

  /** `s.rstrip(c)` for one character. */
  function StripEnd(s: string, c: char): (r: string)
    decreases |s|
    ensures |r| <= |s| && r == s[..|r|]
    ensures forall k :: |r| <= k < |s| ==> s[k] == c
    ensures r == "" || r[|r| - 1] != c
  {
    if |s| > 0 && s[|s| - 1] == c then StripEnd(s[..|s| - 1], c) else s
  }

  /** `os.path.dirname` on POSIX: everything up to the last slash, with
      trailing slashes removed unless the head is made only of slashes. */
  function Dirname(path: string): (r: string)
    ensures |r| <= |path| && r == path[..|r|]
    ensures r == "" <==> forall k :: 0 <= k < |path| ==> path[k] != '/'
  {
    var head := match LastIndexOf(path, '/')
      case None => ""
      case Some(i) => path[..i + 1];
    if head != "" && exists k :: 0 <= k < |head| && head[k] != '/' then
      var stripped := StripEnd(head, '/');
      assert head[..|stripped|] == stripped;
      stripped
    else head
  }
}
