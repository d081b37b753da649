/**
 * The two string extensions of the generator, `SplitWhere` and
 * `TrimMatchingQuotes`, and the .NET exceptions the rest of the model
 * turns into `Failure` values.
 */
module Extensions {
  import opened Wrappers

  /** The exceptions the modelled code can raise, by .NET type. */
  datatype Exception =
    | IndexOutOfRange          // IndexOutOfRangeException: a string indexed past its end
    | ArgumentOutOfRange       // ArgumentOutOfRangeException: a substring with a negative length, say
    | Argument                 // ArgumentException: a malformed version string, an empty path
    | Format                   // FormatException
    | Overflow                 // OverflowException
    | FileNotFound(fileName: string)
    | IO(path: string)         // any other failure of a file read

  // ---------------------------------------------------------------------------
  // SplitWhere
  // ---------------------------------------------------------------------------

  /**
   * The positions below `n` at which the predicate said "split", in
   * increasing order. The predicate is called once per character, left to
   * right, so its answers are the sequence `marks`.
   */
  function DelimsBelow(marks: seq<bool>, n: nat): (ds: seq<nat>)
    requires n <= |marks|
    ensures forall k :: 0 <= k < |ds| ==> ds[k] < n && marks[ds[k]]
    ensures forall k, l :: 0 <= k < l < |ds| ==> ds[k] < ds[l]
  {
    if n == 0 then [] else DelimsBelow(marks, n - 1) + (if marks[n - 1] then [n - 1] else [])
  }

  function Delims(marks: seq<bool>): seq<nat> {
    DelimsBelow(marks, |marks|)
  }

  /** The last cut point: the last delimiter, or 0 when there is none. */
  function LastCut(ds: seq<nat>): nat {
    if ds == [] then 0 else ds[|ds| - 1]
  }

  predicate CutPoints(ds: seq<nat>, n: nat) {
    (forall k :: 0 <= k < |ds| ==> ds[k] < n)
    && (forall k, l :: 0 <= k < l < |ds| ==> ds[k] < ds[l])
  }

  /** The text between consecutive cut points 0, ds[0], ds[1], ... */
  function Cuts(s: string, ds: seq<nat>): (r: seq<string>)
    requires CutPoints(ds, |s|)
    ensures |r| == |ds|
  {
    if ds == [] then []
    else
      var front := ds[..|ds| - 1];
      assert CutPoints(front, |s|);
      assert LastCut(front) <= ds[|ds| - 1];
      Cuts(s, front) + [s[LastCut(front)..ds[|ds| - 1]]]
  }

  /**
   * What `SplitWhere` returns: a piece ending before each delimiter (the
   * delimiter itself starts the next piece), and then one more piece when
   * the last cut point is not the end of the text. That piece is the
   * substring from the end of the text, hence always empty.
   */
  function SplitPieces(s: string, marks: seq<bool>): seq<string>
    requires |marks| == |s|
  {
    var ds := Delims(marks);
    Cuts(s, ds) + (if LastCut(ds) != |s| then [""] else [])
  }

  function Concat(ss: seq<string>): string {
    if ss == [] then [] else Concat(ss[..|ss| - 1]) + ss[|ss| - 1]
  }

  /** `SplitWhere`, with the predicate's answers given as `marks`. */
  method SplitWhere(arg: string, marks: seq<bool>) returns (strs: seq<string>)
    requires |marks| == |arg|
    ensures strs == SplitPieces(arg, marks)
  {
    strs := [];
    var prev := 0;
    var i := 0;
    while i < |arg|
      invariant 0 <= i <= |arg|
      invariant strs == Cuts(arg, DelimsBelow(marks, i))
      invariant prev == LastCut(DelimsBelow(marks, i))
      invariant prev <= i && (i > 0 ==> prev < i)
    {
      ghost var ds := DelimsBelow(marks, i + 1);
      if marks[i] {
        assert ds[..|ds| - 1] == DelimsBelow(marks, i);
        strs := strs + [arg[prev..i]];
        prev := i;
      } else {
        assert ds == DelimsBelow(marks, i);
      }
      i := i + 1;
    }
    if prev != i {
      assert arg[i..] == "";
      strs := strs + [arg[i..]];
    }
  }

  lemma {:induction false} CutsJoin(s: string, ds: seq<nat>)
    requires CutPoints(ds, |s|)
    ensures Concat(Cuts(s, ds)) == s[..LastCut(ds)]
  {
    if ds != [] {
      var front := ds[..|ds| - 1];
      assert CutPoints(front, |s|);
      CutsJoin(s, front);
      var r := Cuts(s, ds);
      assert r[..|r| - 1] == Cuts(s, front);
      assert s[..LastCut(front)] + s[LastCut(front)..ds[|ds| - 1]] == s[..ds[|ds| - 1]];
    }
  }

  /**
   * As written, `SplitWhere` loses the text from the last delimiter on: the
   * pieces join up to exactly the last delimiter, and a non-empty input
   * always ends in an empty piece.
   */
  lemma SplitWhereDropsTail(s: string, marks: seq<bool>)
    requires |marks| == |s|
    ensures Concat(SplitPieces(s, marks)) == s[..LastCut(Delims(marks))]
    ensures |SplitPieces(s, marks)| == |Delims(marks)| + (if s == [] then 0 else 1)
    ensures s != [] ==> SplitPieces(s, marks)[|SplitPieces(s, marks)| - 1] == ""
  {
    var ds := Delims(marks);
    CutsJoin(s, ds);
    assert s != [] ==> LastCut(ds) < |s|;
    var tail: seq<string> := if LastCut(ds) != |s| then [""] else [];
    assert Concat(Cuts(s, ds) + tail) == Concat(Cuts(s, ds)) by {
      if tail != [] {
        assert (Cuts(s, ds) + tail)[..|Cuts(s, ds)|] == Cuts(s, ds);
      }
    }
  }

  /** Every piece after the first starts with the delimiter that ended the one before. */
  lemma {:induction false} CutsStartAtDelims(s: string, ds: seq<nat>, k: nat)
    requires CutPoints(ds, |s|)
    requires 0 < k < |ds|
    ensures Cuts(s, ds)[k] == s[ds[k - 1]..ds[k]] && |Cuts(s, ds)[k]| > 0
  {
    var front := ds[..|ds| - 1];
    assert CutPoints(front, |s|);
    if k < |ds| - 1 {
      CutsStartAtDelims(s, front, k);
    }
  }

  // ---------------------------------------------------------------------------
  // TrimMatchingQuotes
  // ---------------------------------------------------------------------------

  predicate Quoted(s: string) {
    |s| > 0 && s[0] == '"' && s[|s| - 1] == '"'
  }

  /**
   * `TrimMatchingQuotes`: reading `arg[0]` fails on the empty string, and a
   * lone `"` is quoted at both ends but too short for `Substring(1, -1)`.
   */
  function TrimMatchingQuotes(arg: string): (r: Result<string, Exception>)
    ensures r.Failure? <==> arg == [] || arg == "\""
    ensures r.Success? && !Quoted(arg) ==> r.value == arg
    ensures r.Success? ==> |r.value| <= |arg|
  {
    if |arg| == 0 then Failure(IndexOutOfRange)
    else if arg[0] == '"' && arg[|arg| - 1] == '"' then
      if |arg| < 2 then Failure(ArgumentOutOfRange) else Success(arg[1..|arg| - 1])
    else Success(arg)
  }

  /** Wrapping a text in quotes and trimming them gives the text back. */
  lemma TrimMatchingQuotesRoundTrip(s: string)
    ensures TrimMatchingQuotes("\"" + s + "\"") == Success(s)
  {
    var q := "\"" + s + "\"";
    assert q[1..|q| - 1] == s;
  }
}
