/** The cell cleaner of process_data.py and its application to the
    `Product Details` column. */
module ProcessData {
  import opened Wrappers
  import opened Text
  import opened Cells

  /** Every whitespace character of `s` is a plain space and no two whitespace
      characters are adjacent. */
  predicate SingleSpaced(s: string) {
    (forall k :: 0 <= k < |s| && IsSpace(s[k]) ==> s[k] == ' ')
    && (forall k :: 0 <= k < |s| - 1 ==> !(IsSpace(s[k]) && IsSpace(s[k + 1])))
  }

  /** `re.sub(r"\s+", " ", s)`: each maximal run of whitespace becomes one space. */
  function Collapse(s: string): (r: string)
    ensures |r| <= |s|
    ensures r == [] <==> s == []
    ensures r != [] ==> (IsSpace(r[0]) <==> IsSpace(s[0]))
    ensures SingleSpaced(r)
    decreases |s|
  {
    if s == [] then []
    else if IsSpace(s[0]) then
      var rest := TrimStart(s);
      var tail := Collapse(rest);
      var r := [' '] + tail;
      assert forall k :: 1 <= k < |r| ==> r[k] == tail[k - 1];
      r
    else
      var tail := Collapse(s[1..]);
      var r := [s[0]] + tail;
      assert forall k :: 1 <= k < |r| ==> r[k] == tail[k - 1];
      r
  }

  /** The substitution removes whitespace only: every other character survives, in order. */
  lemma {:induction false} CollapseKeepsNonSpace(s: string)
    ensures NonSpace(Collapse(s)) == NonSpace(s)
    decreases |s|
  {
    if s != [] {
      if IsSpace(s[0]) {
        var rest := TrimStart(s);
        assert rest == TrimStart(s[1..]);
        CollapseKeepsNonSpace(rest);
        TrimStartKeepsNonSpace(s);
        var r := [' '] + Collapse(rest);
        assert Collapse(s) == r && r[1..] == Collapse(rest);
      } else {
        CollapseKeepsNonSpace(s[1..]);
        var r := [s[0]] + Collapse(s[1..]);
        assert Collapse(s) == r && r[1..] == Collapse(s[1..]);
      }
    }
  }

  /** A word (no whitespace) passes through unchanged. */
  lemma {:induction false} CollapseWord(w: string, t: string)
    requires forall k :: 0 <= k < |w| ==> !IsSpace(w[k])
    ensures Collapse(w + t) == w + Collapse(t)
  {
    if w == [] {
      assert w + t == t;
    } else {
      var x, tail := w + t, w[1..];
      assert x[0] == w[0] && x[1..] == tail + t;
      calc {
        Collapse(x);
        [w[0]] + Collapse(tail + t);
        { CollapseWord(tail, t); }
        [w[0]] + (tail + Collapse(t));
        { assert w == [w[0]] + tail; }
        w + Collapse(t);
      }
    }
  }

  /** A maximal run of whitespace becomes exactly one space. */
  lemma {:induction false} CollapseRun(run: string, t: string)
    requires run != [] && forall k :: 0 <= k < |run| ==> IsSpace(run[k])
    requires t == [] || !IsSpace(t[0])
    ensures Collapse(run + t) == [' '] + Collapse(t)
  {
    RunTrimmed(run, t);
  }

  lemma {:induction false} RunTrimmed(run: string, t: string)
    requires forall k :: 0 <= k < |run| ==> IsSpace(run[k])
    requires t == [] || !IsSpace(t[0])
    ensures TrimStart(run + t) == t
  {
    if run != [] {
      assert (run + t)[0] == run[0] && (run + t)[1..] == run[1..] + t;
      RunTrimmed(run[1..], t);
    } else {
      assert run + t == t;
    }
  }

  /** Every slice of a single-spaced text is single-spaced. */
  lemma SliceSingleSpaced(s: string, i: nat, j: nat)
    requires SingleSpaced(s) && i <= j <= |s|
    ensures SingleSpaced(s[i..j])
  {
    var r := s[i..j];
    forall k | 0 <= k < |r| && IsSpace(r[k])
      ensures r[k] == ' '
    {
      assert r[k] == s[i + k];
    }
    forall k | 0 <= k < |r| - 1
      ensures !(IsSpace(r[k]) && IsSpace(r[k + 1]))
    {
      assert r[k] == s[i + k] && r[k + 1] == s[i + k + 1];
    }
  }

  /** Stripping keeps a single-spaced text single-spaced. */
  lemma StripKeepsSingleSpaced(s: string)
    requires SingleSpaced(s)
    ensures SingleSpaced(Strip(s))
  {
    var a := |s| - |TrimStart(s)|;
    var r := Strip(s);
    assert a + |r| <= |s| && r == s[a..a + |r|];
    SliceSingleSpaced(s, a, a + |r|);
  }

  /** `clean` on one string. */
  function CleanText(t: string): (r: string)
    ensures |r| <= |t|
    ensures r == [] || (!IsSpace(r[0]) && !IsSpace(r[|r| - 1]))
    ensures SingleSpaced(r)
  {
    var collapsed := Collapse(RemoveAll(t, "nan"));
    StripKeepsSingleSpaced(collapsed);
    Strip(collapsed)
  }

  /** `clean` deletes "nan" and changes whitespace only: the non-whitespace
      characters of the result are those of the text with "nan" deleted. */
  lemma CleanTextKeepsContent(t: string)
    ensures NonSpace(CleanText(t)) == NonSpace(RemoveAll(t, "nan"))
    ensures NonSpace(CleanText(t)) == NonSpace(Join("", Split(t, "nan")))
  {
    var removed := RemoveAll(t, "nan");
    RemoveAllIsJoinSplit(t, "nan");
    CollapseKeepsNonSpace(removed);
    StripKeepsNonSpace(Collapse(removed));
  }

  /** `clean`: a non-string value is returned as it is. */
  function Clean(value: Cell): (r: Cell)
    ensures !value.Str? ==> r == value
    ensures value.Str? ==> r == Str(CleanText(value.s))
  {
    match value
    case Str(t) => Str(CleanText(t))
    case _ => value
  }

  /** A text without whitespace and without "nan" is left as it is. */
  lemma CleanTextFixesPlainWords(t: string)
    requires forall k :: 0 <= k < |t| ==> !IsSpace(t[k])
    requires !Contains(t, "nan")
    ensures CleanText(t) == t
  {
    CollapseKeepsSpaceless(t);
  }

  lemma {:induction false} CollapseKeepsSpaceless(t: string)
    requires forall k :: 0 <= k < |t| ==> !IsSpace(t[k])
    ensures Collapse(t) == t
    decreases |t|
  {
    if t != [] {
      CollapseKeepsSpaceless(t[1..]);
    }
  }

  /** Cleaning is idempotent on every text that the first pass leaves without "nan". */
  lemma CleanTextIdempotent(t: string)
    requires !Contains(CleanText(t), "nan")
    ensures CleanText(CleanText(t)) == CleanText(t)
  {
    var r := CleanText(t);
    SingleSpacedCollapse(r);
    assert TrimStart(r) == r;
    assert TrimEnd(r) == r;
  }

  lemma {:induction false} SingleSpacedCollapse(s: string)
    requires SingleSpaced(s)
    ensures Collapse(s) == s
    decreases |s|
  {
    if s != [] {
      var rest := s[1..];
      assert s == [s[0]] + rest;
      assert SingleSpaced(rest) by {
        forall k | 0 <= k < |rest| && IsSpace(rest[k])
          ensures rest[k] == ' '
        {
          assert rest[k] == s[k + 1];
        }
        forall k | 0 <= k < |rest| - 1
          ensures !(IsSpace(rest[k]) && IsSpace(rest[k + 1]))
        {
          assert rest[k] == s[k + 1] && rest[k + 1] == s[k + 2];
        }
      }
      SingleSpacedCollapse(rest);
      if IsSpace(s[0]) {
        assert s[0] == ' ';
        assert rest == [] || !IsSpace(rest[0]);
        assert TrimStart(rest) == rest;
        assert TrimStart(s) == rest;
        assert Collapse(s) == [' '] + Collapse(rest);
      } else {
        assert Collapse(s) == [s[0]] + Collapse(rest);
      }
    }
  }

  /** A sheet: its column names and, per column, the cells top to bottom. */
  type Sheet = map<string, seq<Cell>>

  /** Line 15: `clean` applied to every cell of `Product Details`; a sheet without
      that column raises KeyError. */
  function CleanProductDetails(sheet: Sheet): (r: Result<Sheet, string>)
    ensures r.Failure? <==> "Product Details" !in sheet
    ensures r.Success? ==> r.value.Keys == sheet.Keys
    ensures r.Success? ==> forall c :: c in sheet && c != "Product Details" ==> r.value[c] == sheet[c]
    ensures r.Success? ==> |r.value["Product Details"]| == |sheet["Product Details"]|
    ensures r.Success? ==> forall i :: 0 <= i < |sheet["Product Details"]| ==>
              r.value["Product Details"][i] == Clean(sheet["Product Details"][i])
  {
    if "Product Details" !in sheet then Failure("KeyError: 'Product Details'")
    else
      var column := sheet["Product Details"];
      Success(sheet["Product Details" := seq(|column|, i requires 0 <= i < |column| => Clean(column[i]))])
  }
}
