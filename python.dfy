/** The few pieces of Python's semantics the update routine relies on:
    its exceptions, `str.split(sep)` and `str.split(sep, 1)` with a non-empty
    separator, `sep.join(parts)`, and list subscripts that raise `IndexError`. */
module Python {

  datatype Option<+T> = None | Some(value: T)

  /** The exceptions the update routine can meet: the two GitPython raises
      that it names, the `IndexError` of a list subscript, and any other. */
  datatype Exception =
    | GitCommandError
    | InvalidGitRepositoryError
    | IndexError
    | OtherException

  /** A value, or the exception raised while computing it. */
  datatype Result<+T> = Ok(value: T) | Err(error: Exception) {
    predicate IsFailure() { Err? }
    function PropagateFailure<U>(): Result<U>
      requires Err?
    {
      Err(error)
    }
    function Extract(): T
      requires Ok?
    {
      value
    }
  }

  /** `sep` occurs in `s` starting at index `i`. */
  predicate OccursAt(s: string, sep: string, i: int) {
    0 <= i && i + |sep| <= |s| && s[i..i + |sep|] == sep
  }

  /** Python's `sep in s`. */
  predicate Contains(s: string, sep: string) {
    exists i | 0 <= i <= |s| :: OccursAt(s, sep, i)
  }

  /** `i` is the index of the first occurrence of `sep` in `s`. */
  predicate FirstAt(s: string, sep: string, i: int) {
    OccursAt(s, sep, i) && forall j :: 0 <= j < i ==> !OccursAt(s, sep, j)
  }

  /** `p` is what `s.split(sep)[0]` returns: the prefix of `s` that ends
      where the first occurrence of `sep` starts, or all of `s`. */
  predicate LeadingPiece(s: string, sep: string, p: string) {
    && |p| <= |s|
    && p == s[..|p|]
    && (forall j :: 0 <= j < |p| ==> !OccursAt(s, sep, j))
    && (|p| == |s| || OccursAt(s, sep, |p|))
  }

  /** The first index at or after `from` where `sep` occurs in `s`
      (Python's `s.find(sep, from)`, with `None` for -1). */
  function FindFrom(s: string, sep: string, from: nat): (r: Option<nat>)
    requires |sep| > 0
    decreases |s| - from
    ensures r.Some? ==> from <= r.value && OccursAt(s, sep, r.value)
    ensures forall j :: from <= j && (r.None? || j < r.value) ==> !OccursAt(s, sep, j)
  {
    if from + |sep| > |s| then None
    else if s[from..from + |sep|] == sep then Some(from)
    else FindFrom(s, sep, from + 1)
  }

  /** Python's `s.split(sep)`: the pieces between the occurrences of `sep`,
      found left to right without overlap. */
  function Split(s: string, sep: string): (r: seq<string>)
    requires |sep| > 0
    decreases |s|
    ensures |r| >= 1
    ensures |r| >= 2 <==> Contains(s, sep)
    ensures LeadingPiece(s, sep, r[0])
    ensures forall k :: 0 <= k < |r| ==> !Contains(r[k], sep)
  {
    match FindFrom(s, sep, 0)
    case None => [s]
    case Some(i) =>
      PieceIsSeparatorFree(s, sep, i);
      [s[..i]] + Split(s[i + |sep|..], sep)
  }

  /** Python's `s.split(sep, 1)`: at most two pieces, cut at the first
      occurrence of `sep`. */
  function SplitOnce(s: string, sep: string): (r: seq<string>)
    requires |sep| > 0
    ensures |r| == 1 || |r| == 2
    ensures |r| == 2 <==> Contains(s, sep)
    ensures LeadingPiece(s, sep, r[0])
    ensures |r| == 2 ==> r[1] == s[|r[0]| + |sep|..]
  {
    match FindFrom(s, sep, 0)
    case None => [s]
    case Some(i) => [s[..i], s[i + |sep|..]]
  }

  /** Python's `sep.join(parts)`. */
  function Join(parts: seq<string>, sep: string): string {
    if |parts| == 0 then ""
    else if |parts| == 1 then parts[0]
    else parts[0] + sep + Join(parts[1..], sep)
  }

  /** Python's `xs[i]` for a non-negative `i`. */
  function Item<T>(xs: seq<T>, i: nat): Result<T> {
    if i < |xs| then Ok(xs[i]) else Err(IndexError)
  }

  /** The piece before the first occurrence holds no occurrence itself. */
  lemma PieceIsSeparatorFree(s: string, sep: string, i: nat)
    requires |sep| > 0 && i <= |s|
    requires forall j :: 0 <= j < i ==> !OccursAt(s, sep, j)
    ensures !Contains(s[..i], sep)
  {
    forall j | OccursAt(s[..i], sep, j)
      ensures false
    {
      assert s[..i][j..j + |sep|] == s[j..j + |sep|];
      assert OccursAt(s, sep, j);
    }
  }

  /** Only one prefix of `s` is the leading piece for `sep`. */
  lemma LeadingPieceUnique(s: string, sep: string, p: string, q: string)
    requires |sep| > 0
    requires LeadingPiece(s, sep, p) && LeadingPiece(s, sep, q)
    ensures p == q
  {
  }

  /** Without `sep` in it, `s` is its own leading piece. */
  lemma LeadingPieceWhole(s: string, sep: string)
    requires |sep| > 0 && !Contains(s, sep)
    ensures LeadingPiece(s, sep, s)
  {
    assert s == s[..|s|];
  }

  /** If the leading piece is not all of `s`, splitting cuts off that piece
      and the separator after it and splits the rest. */
  lemma SplitTail(s: string, sep: string)
    requires |sep| > 0 && Contains(s, sep)
    ensures |Split(s, sep)[0]| + |sep| <= |s|
    ensures Split(s, sep)[1..] == Split(s[|Split(s, sep)[0]| + |sep|..], sep)
  {
    var i := FindFrom(s, sep, 0).value;
    assert Split(s, sep) == [s[..i]] + Split(s[i + |sep|..], sep);
  }

  /** The second piece of `s.split(sep)` is the leading piece of what follows
      the first occurrence of `sep`. */
  lemma SplitSecond(s: string, sep: string, i: nat, p: string)
    requires |sep| > 0
    requires FirstAt(s, sep, i)
    requires LeadingPiece(s[i + |sep|..], sep, p)
    ensures |Split(s, sep)| >= 2 && Split(s, sep)[1] == p
  {
    var r := Split(s, sep);
    assert OccursAt(s, sep, |r[0]|);
    assert |r[0]| == i;
    SplitTail(s, sep);
    LeadingPieceUnique(s[i + |sep|..], sep, Split(s[i + |sep|..], sep)[0], p);
  }

  /** `sep.join(s.split(sep)) == s`: splitting loses nothing. */
  lemma {:induction false} JoinSplit(s: string, sep: string)
    requires |sep| > 0
    ensures Join(Split(s, sep), sep) == s
    decreases |s|
  {
    if Contains(s, sep) {
      var r := Split(s, sep);
      SplitTail(s, sep);
      var i := |r[0]|;
      var rest := s[i + |sep|..];
      JoinSplit(rest, sep);
      assert Join(r, sep) == r[0] + sep + Join(r[1..], sep);
      assert s[i..i + |sep|] == sep;
      assert s == s[..i] + s[i..i + |sep|] + rest;
    }
  }

  /** `s.split(sep, 1)` agrees with `s.split(sep)` on the first piece and
      keeps the rest unsplit, so joining it back gives `s` too. */
  lemma SplitOnceAgrees(s: string, sep: string)
    requires |sep| > 0
    ensures SplitOnce(s, sep)[0] == Split(s, sep)[0]
    ensures |SplitOnce(s, sep)| == 2 ==> Split(s, sep)[1..] == Split(SplitOnce(s, sep)[1], sep)
    ensures Join(SplitOnce(s, sep), sep) == s
  {
    LeadingPieceUnique(s, sep, SplitOnce(s, sep)[0], Split(s, sep)[0]);
    match FindFrom(s, sep, 0)
    case None =>
    case Some(i) =>
      assert s[i..i + |sep|] == sep;
      assert s == s[..i] + sep + s[i + |sep|..];
  }
}
