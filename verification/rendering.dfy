/** Properties of the string rendering of failures and validation errors,
    and a reader that recovers the spec position from a rendered error. */
module Rendering {

  import opened Wrappers
  import opened Constants
  import opened Decimal
  import opened ValidationErrors

  predicate StartsWith(s: string, prefix: string) {
    |prefix| <= |s| && s[..|prefix|] == prefix
  }

  predicate EndsWith(s: string, suffix: string) {
    |suffix| <= |s| && s[|s| - |suffix|..] == suffix
  }

  /** A failure renders its reason after "Reason: " and its location after
      ", Location: ", and nothing else: the source is not shown. */
  lemma FailureErrorShape(f: SchemaValidationFailure, v: ValidationSource)
    ensures StartsWith(FailureError(f), "Reason: " + f.reason + ", Location: ")
    ensures EndsWith(FailureError(f), ", Location: " + f.location)
    ensures |FailureError(f)| == |"Reason: , Location: "| + |f.reason| + |f.location|
    ensures FailureError(f.(validationSource := v)) == FailureError(f)
  {
    var r := FailureError(f);
    assert r == ("Reason: " + f.reason + ", Location: ") + f.location;
    assert r == "Reason: " + (f.reason + ", Location: " + f.location);
  }

  /** Printing a slice is compositional: the rendering of two non-empty
      slices placed end to end is their renderings separated by one space. */
  lemma {:induction false} JoinFailuresAppend(a: seq<SchemaValidationFailure>, b: seq<SchemaValidationFailure>)
    requires |a| > 0 && |b| > 0
    ensures JoinFailures(a + b) == JoinFailures(a) + " " + JoinFailures(b)
    decreases |a|
  {
    assert (a + b)[0] == a[0];
    if |a| == 1 {
      assert (a + b)[1..] == b;
    } else {
      assert (a + b)[1..] == a[1..] + b;
      JoinFailuresAppend(a[1..], b);
    }
  }

  /** A slice of one failure prints as that failure between brackets, and
      each further failure adds a space and its own rendering before the
      closing bracket. */
  lemma {:induction false} FailureListSnoc(fs: seq<SchemaValidationFailure>, f: SchemaValidationFailure)
    ensures FailureListString([f]) == "[" + FailureError(f) + "]"
    ensures |fs| > 0 ==> FailureListString(fs + [f]) == "[" + JoinFailures(fs) + " " + FailureError(f) + "]"
  {
    var one := [f];
    assert |one| == 1 && one[0] == f;
    assert JoinFailures(one) == FailureError(f);
    if |fs| > 0 {
      JoinFailuresAppend(fs, one);
      var j := JoinFailures(fs + one);
      assert j == JoinFailures(fs) + " " + FailureError(f);
      assert FailureListString(fs + one) == "[" + j + "]";
    }
  }

  /** The rendering shows message and reason first, never the type, subtype
      or category: categorising an error leaves its rendering unchanged. */
  lemma ErrorIgnoresClassification(e: ValidationError, t: ValidationType, st: ValidationSubType, c: ErrorCategory)
    ensures StartsWith(Error(e), "Error: " + e.message + ", Reason: " + e.reason)
    ensures Error(e.(validationType := t, validationSubType := st, errorCategory := c)) == Error(e)
    ensures Error(SetErrorCategory(e)) == Error(e)
  {
    var h := "Error: " + e.message + ", Reason: " + e.reason;
    assert Error(e) == h + (SchemaSegment(e) + PositionSegment(e));
  }

  /** Message and reason alone: no failures and no position add nothing. */
  lemma ErrorHeaderOnly(e: ValidationError)
    requires |e.schemaValidationErrors| == 0 && e.specLine == 0
    ensures Error(e) == "Error: " + e.message + ", Reason: " + e.reason
  {
    var h := "Error: " + e.message + ", Reason: " + e.reason;
    assert SchemaSegment(e) == "" && PositionSegment(e) == "";
    assert h + "" + "" == h;
  }

  /** With no position, the failure segment is the last thing printed. */
  lemma ErrorSchemaLast(e: ValidationError)
    requires e.specLine == 0
    ensures Error(e) == "Error: " + e.message + ", Reason: " + e.reason + SchemaSegment(e)
  {
    var h := "Error: " + e.message + ", Reason: " + e.reason + SchemaSegment(e);
    assert PositionSegment(e) == "";
    assert h + "" == h;
  }

  /** A set line appends the position after everything else. */
  lemma ErrorPositionLast(e: ValidationError)
    ensures Error(e) == Error(e.(specLine := 0)) + PositionSegment(e)
  {
    var e0 := e.(specLine := 0);
    assert SchemaSegment(e0) == SchemaSegment(e);
    ErrorSchemaLast(e0);
  }

  /** Attached failures print as ", Validation Errors: " and the slice. */
  lemma ErrorSchemaSegment(e: ValidationError)
    requires |e.schemaValidationErrors| > 0 && e.specLine == 0
    ensures Error(e) == "Error: " + e.message + ", Reason: " + e.reason
                        + ", Validation Errors: " + FailureListString(e.schemaValidationErrors)
  {
    var h := "Error: " + e.message + ", Reason: " + e.reason;
    var fl := FailureListString(e.schemaValidationErrors);
    ErrorSchemaLast(e);
    assert SchemaSegment(e) == ", Validation Errors: " + fl;
    assert h + (", Validation Errors: " + fl) == h + ", Validation Errors: " + fl;
  }

  /** The position segment spelled out. */
  lemma ErrorPositionSegment(e: ValidationError)
    requires e.specLine != 0
    ensures Error(e) == Error(e.(specLine := 0))
                        + ", Line: " + IntToString(e.specLine) + ", Column: " + IntToString(e.specCol)
  {
    var l := IntToString(e.specLine);
    var c := IntToString(e.specCol);
    ErrorPositionLast(e);
    assert PositionSegment(e) == ", Line: " + l + ", Column: " + c;
    Reassociate(Error(e.(specLine := 0)), ", Line: ", l, ", Column: ", c);
  }

  lemma Reassociate(a: string, b: string, c: string, d: string, f: string)
    ensures a + (b + c + d + f) == a + b + c + d + f
  {
  }

  /** The segments come in a fixed order. Without schema failures and
      position the rendering is message and reason only; schema failures
      add ", Validation Errors: [...]"; a non-zero line then adds
      ", Line: L, Column: C" at the very end. A zero line hides the column. */
  lemma ErrorSegmentOrder(e: ValidationError)
    ensures Error(e.(schemaValidationErrors := [], specLine := 0))
            == "Error: " + e.message + ", Reason: " + e.reason
    ensures |e.schemaValidationErrors| > 0 ==>
              Error(e.(specLine := 0))
              == Error(e.(schemaValidationErrors := [], specLine := 0))
                 + ", Validation Errors: " + FailureListString(e.schemaValidationErrors)
    ensures e.specLine != 0 ==>
              Error(e)
              == Error(e.(specLine := 0))
                 + ", Line: " + IntToString(e.specLine) + ", Column: " + IntToString(e.specCol)
    ensures e.specLine == 0 ==> Error(e) == Error(e.(specCol := 0))
  {
    ErrorHeaderOnly(e.(schemaValidationErrors := [], specLine := 0));
    if |e.schemaValidationErrors| > 0 {
      ErrorSchemaSegment(e.(specLine := 0));
    }
    if e.specLine != 0 {
      ErrorPositionSegment(e);
    } else {
      ErrorSchemaLast(e);
      ErrorSchemaLast(e.(specCol := 0));
    }
  }

  /* ---------------------------------------------------------------------- */
  /* Reading the position back                                               */
  /* ---------------------------------------------------------------------- */

  predicate IsNumberChar(c: char) {
    IsDigit(c) || c == '-'
  }

  predicate AllNumberChars(s: string) {
    forall i :: 0 <= i < |s| ==> IsNumberChar(s[i])
  }

  /** Splits off the longest suffix whose characters all satisfy `inRun`. */
  function SplitTrailingRun(s: string, inRun: char -> bool): (r: (string, string))
    ensures r.0 + r.1 == s
    ensures forall i :: 0 <= i < |r.1| ==> inRun(r.1[i])
    ensures |r.0| > 0 ==> !inRun(r.0[|r.0| - 1])
    decreases |s|
  {
    if |s| > 0 && inRun(s[|s| - 1]) then
      var (p, d) := SplitTrailingRun(s[..|s| - 1], inRun);
      (p, d + [s[|s| - 1]])
    else (s, "")
  }

  /** A run placed after a character outside it splits off exactly. */
  lemma {:induction false} SplitTrailingRunOf(p: string, t: string, inRun: char -> bool)
    requires forall i :: 0 <= i < |t| ==> inRun(t[i])
    requires |p| > 0 && !inRun(p[|p| - 1])
    ensures SplitTrailingRun(p + t, inRun) == (p, t)
    decreases |t|
  {
    if |t| == 0 {
      assert p + t == p;
    } else {
      var s := p + t;
      var t' := t[..|t| - 1];
      assert s[..|s| - 1] == p + t';
      assert s[|s| - 1] == t[|t| - 1];
      SplitTrailingRunOf(p, t', inRun);
      assert t' + [t[|t| - 1]] == t;
    }
  }

  /** Recovers `(SpecLine, SpecCol)` from the end of a rendered error. */
  function ParsePosition(rendered: string): Option<(int, int)> {
    var (p1, col) := SplitTrailingRun(rendered, IsNumberChar);
    if !EndsWith(p1, ColumnLabel) then None
    else
      var (p3, line) := SplitTrailingRun(p1[..|p1| - |ColumnLabel|], IsNumberChar);
      if !EndsWith(p3, LineLabel) then None
      else
        match (ParseInt(line), ParseInt(col))
        case (Some(l), Some(c)) => Some((l, c))
        case _ => None
  }

  lemma IntToStringNumberChars(i: int)
    ensures AllNumberChars(IntToString(i))
  {
    var s := IntToString(i);
    forall k | 0 <= k < |s| ensures IsNumberChar(s[k]) {
      if k > 0 && i < 0 { assert s[k] == s[1..][k - 1]; }
    }
  }

  /** Whatever precedes it, a position suffix reads back as its line and
      column. */
  lemma {:induction false} ParsePositionSuffix(b: string, line: int, col: int)
    ensures ParsePosition(b + LineLabel + IntToString(line) + ColumnLabel + IntToString(col))
            == Some((line, col))
  {
    var l := IntToString(line);
    var c := IntToString(col);
    var p3 := b + LineLabel;
    var p2 := p3 + l;
    var p1 := p2 + ColumnLabel;
    IntToStringNumberChars(line);
    IntToStringNumberChars(col);
    assert p1[|p1| - 1] == ' ';
    SplitTrailingRunOf(p1, c, IsNumberChar);
    assert EndsWith(p1, ColumnLabel);
    assert p1[..|p1| - |ColumnLabel|] == p2;
    assert p3[|p3| - 1] == ' ';
    SplitTrailingRunOf(p3, l, IsNumberChar);
    assert EndsWith(p3, LineLabel);
    ParseIntToString(line);
    ParseIntToString(col);
  }

  /** Whenever a spec line is set, the line and column can be read back
      from the rendering, whatever the message, reason and failures say. */
  lemma PositionRoundTrip(e: ValidationError)
    requires e.specLine != 0
    ensures ParsePosition(Error(e)) == Some((e.specLine, e.specCol))
  {
    var b := "Error: " + e.message + ", Reason: " + e.reason + SchemaSegment(e);
    var l := IntToString(e.specLine);
    var c := IntToString(e.specCol);
    assert PositionSegment(e) == LineLabel + l + ColumnLabel + c;
    assert Error(e) == b + PositionSegment(e);
    calc {
      Error(e);
      b + (LineLabel + l + ColumnLabel + c);
      b + LineLabel + l + ColumnLabel + c;
    }
    ParsePositionSuffix(b, e.specLine, e.specCol);
  }

  /* ---------------------------------------------------------------------- */
  /* Reading a failure back                                                  */
  /* ---------------------------------------------------------------------- */

  predicate NotComma(c: char) {
    c != ','
  }

  /** Recovers `(Reason, Location)` from a rendered failure, splitting at
      its last comma. */
  function ParseFailure(rendered: string): Option<(string, string)> {
    var (p, t) := SplitTrailingRun(rendered, NotComma);
    if |p| >= 9 && StartsWith(p, "Reason: ") && StartsWith(t, " Location: ")
    then Some((p[8..|p| - 1], t[11..]))
    else None
  }

  /** A failure whose location has no comma reads back as its reason and
      location, whatever the reason contains. */
  lemma FailureRoundTrip(f: SchemaValidationFailure)
    requires forall i :: 0 <= i < |f.location| ==> f.location[i] != ','
    ensures ParseFailure(FailureError(f)) == Some((f.reason, f.location))
  {
    var p := "Reason: " + f.reason + ",";
    var t := " Location: " + f.location;
    assert ", Location: " == "," + " Location: ";
    calc {
      FailureError(f);
      "Reason: " + f.reason + ("," + " Location: ") + f.location;
      p + t;
    }
    forall i | 0 <= i < |t| ensures NotComma(t[i]) {
      if i >= 11 { assert t[i] == f.location[i - 11]; }
    }
    SplitTrailingRunOf(p, t, NotComma);
    assert p[8..|p| - 1] == f.reason;
    assert t[11..] == f.location;
  }

}
