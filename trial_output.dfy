/** The trial-output parser shared by both evaluation scripts: it finds the two
    metrics the localization process prints and converts them, giving both or
    neither. Python's float() is the given partial function `toFloat`. */
module TrialOutput {
  import opened PyBuiltins

  const PositionMarker: string := "Mean position error:"
  const AneesMarker: string := "ANEES:"
  const Newline: string := "\n"

  /** What one trial yields, as the scripts return it: a (position error,
      ANEES) tuple whose parts are None after a failure. */
  type TrialResult = (Option<real>, Option<real>)

  /** The tuple is never half filled. */
  predicate BothOrNeither(r: TrialResult) {
    r.0.Some? <==> r.1.Some?
  }

  /** The text handed to float() for the position error:
      output.split(PositionMarker)[1].split("\n")[0].strip(). */
  function PositionField(output: string): (r: Option<string>)
    ensures r.None? <==> forall j: nat :: !OccursAt(output, PositionMarker, j)
    ensures r.Some? ==> Trimmed(r.value)
  {
    match SplitSecond(output, PositionMarker)
    case None => None
    case Some(piece) => Some(Strip(SplitFirst(piece, Newline)))
  }

  /** The text handed to float() for ANEES: output.split(AneesMarker)[1].strip(). */
  function AneesField(output: string): (r: Option<string>)
    ensures r.None? <==> forall j: nat :: !OccursAt(output, AneesMarker, j)
    ensures r.Some? ==> Trimmed(r.value)
  {
    match SplitSecond(output, AneesMarker)
    case None => None
    case Some(piece) => Some(Strip(piece))
  }

  /** The body of the try block of `execute_trial` and its except branch: any
      missing marker or unconvertible field gives (None, None). */
  function Parse(output: string, toFloat: string -> Option<real>): (r: TrialResult)
    ensures BothOrNeither(r)
    ensures r.0.Some? ==> PositionField(output).Some? && AneesField(output).Some?
                          && r.0 == toFloat(PositionField(output).value)
                          && r.1 == toFloat(AneesField(output).value)
    ensures r.0.None? ==> r == (None, None)
    ensures r.0.None? ==> || PositionField(output).None? || AneesField(output).None?
                          || toFloat(PositionField(output).value).None?
                          || toFloat(AneesField(output).value).None?
  {
    match (PositionField(output), AneesField(output))
    case (Some(p), Some(a)) =>
      (match (toFloat(p), toFloat(a))
       case (Some(x), Some(y)) => (Some(x), Some(y))
       case _ => (None, None))
    case _ => (None, None)
  }

  /** A one-character separator occurs exactly where that character stands. */
  lemma OccursAtChar(s: string, k: nat)
    ensures OccursAt(s, Newline, k) <==> k < |s| && s[k] == '\n'
  {
    if k < |s| {
      assert s[k..k + 1] == [s[k]];
    }
  }

  /** A separator that does not begin with a newline never starts at one. */
  lemma SepIsNotNewline(s: string, sep: string, k: nat)
    requires |sep| > 0 && sep[0] != '\n'
    ensures OccursAt(s, sep, k) ==> s[k] != '\n'
  {
    if OccursAt(s, sep, k) {
      assert s[k] == s[k..k + |sep|][0];
    }
  }

  /** The first line of a text: if no newline stands before index n and a
      newline or the end of the text stands at n, split("\n")[0] is s[..n]. */
  lemma FirstLineAt(s: string, n: nat)
    requires n <= |s|
    requires forall k :: 0 <= k < n ==> s[k] != '\n'
    requires n == |s| || s[n] == '\n'
    ensures SplitFirst(s, Newline) == s[..n]
  {
    var line := SplitFirst(s, Newline);
    OccursAtChar(s, |line|);
    OccursAtChar(s, n);
  }

  /** Where the piece after the first occurrence of sep ends (the next
      occurrence or the end of the text), and how it relates to a line end j. */
  lemma PieceEnd(output: string, sep: string, i: nat, j: nat) returns (end: nat)
    requires |sep| > 0 && sep[0] != '\n'
    requires OccursAt(output, sep, i)
    requires i + |sep| <= j <= |output|
    requires forall k: nat :: i + |sep| <= k < j ==> !OccursAt(output, sep, k)
    requires j == |output| || output[j] == '\n' || OccursAt(output, sep, j)
    ensures j <= end <= |output|
    ensures forall k: nat :: i + |sep| <= k < end ==> !OccursAt(output, sep, k)
    ensures end == |output| || OccursAt(output, sep, end)
    ensures j == end || (j < end && output[j] == '\n')
  {
    var next := FindFrom(output, sep, i + |sep|);
    end := if next.Some? then next.value else |output|;
    SepIsNotNewline(output, sep, j);
  }

  /** split(sep)[1].split("\n")[0] read off the positions, for any separator
      that does not begin with a newline. */
  lemma SplitLineAt(output: string, sep: string, i: nat, j: nat)
    requires |sep| > 0 && sep[0] != '\n'
    requires OccursAt(output, sep, i)
    requires forall k: nat :: k < i ==> !OccursAt(output, sep, k)
    requires i + |sep| <= j <= |output|
    requires forall k: nat :: i + |sep| <= k < j ==> output[k] != '\n'
    requires forall k: nat :: i + |sep| <= k < j ==> !OccursAt(output, sep, k)
    requires j == |output| || output[j] == '\n' || OccursAt(output, sep, j)
    ensures SplitSecond(output, sep).Some?
    ensures SplitFirst(SplitSecond(output, sep).value, Newline) == output[i + |sep|..j]
  {
    var start := i + |sep|;
    var end := PieceEnd(output, sep, i, j);
    SplitSecondAt(output, sep, i, end);
    var piece := output[start..end];
    assert forall k :: 0 <= k < j - start ==> piece[k] == output[start + k];
    assert j - start < |piece| ==> piece[j - start] == output[j];
    FirstLineAt(piece, j - start);
    assert piece[..j - start] == output[start..j];
  }

  /** The position field read off the positions: if the first position marker
      starts at i and the line after it runs, free of newlines and of further
      markers, up to j (where a newline, another marker or the end of the text
      stands), the field is that line stripped. */
  lemma PositionFieldAt(output: string, i: nat, j: nat)
    requires OccursAt(output, PositionMarker, i)
    requires forall k: nat :: k < i ==> !OccursAt(output, PositionMarker, k)
    requires i + |PositionMarker| <= j <= |output|
    requires forall k: nat :: i + |PositionMarker| <= k < j ==> output[k] != '\n'
    requires forall k: nat :: i + |PositionMarker| <= k < j ==> !OccursAt(output, PositionMarker, k)
    requires j == |output| || output[j] == '\n' || OccursAt(output, PositionMarker, j)
    ensures PositionField(output) == Some(Strip(output[i + |PositionMarker|..j]))
  {
    SplitLineAt(output, PositionMarker, i, j);
  }

  /** The ANEES field read off the positions: if the first ANEES marker starts
      at i and no further marker starts before j (where another marker or the
      end of the text stands), the field is output[i + |AneesMarker|..j]
      stripped; in particular any text after the number up to the end of the
      output stays in the field. */
  lemma AneesFieldAt(output: string, i: nat, j: nat)
    requires OccursAt(output, AneesMarker, i)
    requires forall k: nat :: k < i ==> !OccursAt(output, AneesMarker, k)
    requires i + |AneesMarker| <= j <= |output|
    requires forall k: nat :: i + |AneesMarker| <= k < j ==> !OccursAt(output, AneesMarker, k)
    requires j == |output| || OccursAt(output, AneesMarker, j)
    ensures AneesField(output) == Some(Strip(output[i + |AneesMarker|..j]))
  {
    SplitSecondAt(output, AneesMarker, i, j);
  }

  /** Once both fields are found, the trial is float() of both when both
      convert, and (None, None) otherwise. Kept apart from ParseAt so that the
      unfolding of Parse happens without the position facts in scope. */
  lemma ParseOfFields(output: string, toFloat: string -> Option<real>, u: string, v: string)
    requires PositionField(output) == Some(u) && AneesField(output) == Some(v)
    ensures Parse(output, toFloat) == if toFloat(u).Some? && toFloat(v).Some? then (toFloat(u), toFloat(v)) else (None, None)
  {
  }

  /** The whole parser read off the positions: with the position line running
      from after the first position marker (at i) to j and the ANEES text from
      after the first ANEES marker (at i2) to j2, the trial gives float() of the
      two stripped texts when both convert, and (None, None) otherwise. */
  lemma ParseAt(output: string, toFloat: string -> Option<real>, i: nat, j: nat, i2: nat, j2: nat)
    requires OccursAt(output, PositionMarker, i)
    requires forall k: nat :: k < i ==> !OccursAt(output, PositionMarker, k)
    requires i + |PositionMarker| <= j <= |output|
    requires forall k: nat :: i + |PositionMarker| <= k < j ==> output[k] != '\n'
    requires forall k: nat :: i + |PositionMarker| <= k < j ==> !OccursAt(output, PositionMarker, k)
    requires j == |output| || output[j] == '\n' || OccursAt(output, PositionMarker, j)
    requires OccursAt(output, AneesMarker, i2)
    requires forall k: nat :: k < i2 ==> !OccursAt(output, AneesMarker, k)
    requires i2 + |AneesMarker| <= j2 <= |output|
    requires forall k: nat :: i2 + |AneesMarker| <= k < j2 ==> !OccursAt(output, AneesMarker, k)
    requires j2 == |output| || OccursAt(output, AneesMarker, j2)
    ensures var x := toFloat(Strip(output[i + |PositionMarker|..j]));
            var y := toFloat(Strip(output[i2 + |AneesMarker|..j2]));
            Parse(output, toFloat) == if x.Some? && y.Some? then (x, y) else (None, None)
  {
    PositionFieldAt(output, i, j);
    AneesFieldAt(output, i2, j2);
    ParseOfFields(output, toFloat, Strip(output[i + |PositionMarker|..j]), Strip(output[i2 + |AneesMarker|..j2]));
  }
}
