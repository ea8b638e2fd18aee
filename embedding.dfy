/** The data-preparation helpers of src/indexing/embedding.py: the column renames,
    the selection of the columns the index keeps, and the size-list normaliser. */
module Embedding {
  import opened Text
  import opened Seqs
  import opened Cells

  /** `rename_dict`: the raw dataset's column names and their descriptive names. */
  const Renames: map<string, string> := map[
    "BrandName" := "Brand Name",
    "Sizes" := "Available Sizes",
    "SellPrice" := "Product Price",
    "Deatils" := "Product Details"]

  function RenameColumn(column: string): string {
    if column in Renames then Renames[column] else column
  }

  /** `clean_column_names`: renames the listed columns present and leaves the rest. */
  function CleanColumnNames(columns: seq<string>): (r: seq<string>)
    ensures |r| == |columns|
    ensures forall i :: 0 <= i < |columns| && columns[i] !in Renames ==> r[i] == columns[i]
    ensures forall i :: 0 <= i < |columns| && columns[i] in Renames ==> r[i] == Renames[columns[i]]
    ensures forall i :: 0 <= i < |columns| && columns[i] in Renames ==> r[i] !in Renames
  {
    seq(|columns|, i requires 0 <= i < |columns| => RenameColumn(columns[i]))
  }

  /** No descriptive name is itself renamed. */
  lemma RenameTargetsAreFixed()
    ensures forall k :: k in Renames ==> Renames[k] !in Renames
  {
  }

  /** Cleaning the names twice is cleaning them once. */
  lemma CleanColumnNamesIdempotent(columns: seq<string>)
    ensures CleanColumnNames(CleanColumnNames(columns)) == CleanColumnNames(columns)
  {
    RenameTargetsAreFixed();
    var once := CleanColumnNames(columns);
    forall i | 0 <= i < |once|
      ensures CleanColumnNames(once)[i] == once[i]
    {
      if columns[i] in Renames {
        assert once[i] == Renames[columns[i]];
      }
    }
  }

  /** `valid_columns`, in the order the index keeps them. */
  const ValidColumns: seq<string> := ["Product Details", "Brand Name", "Available Sizes", "Product Price"]

  /** The members of `wanted` that are in `present`, in `wanted`'s order. */
  function Present(wanted: seq<string>, present: seq<string>): (r: seq<string>)
    ensures forall c :: c in r <==> c in wanted && c in present
    ensures IsSubsequence(r, wanted)
  {
    if wanted == [] then []
    else
      var init, last := wanted[..|wanted| - 1], wanted[|wanted| - 1];
      assert wanted == init + [last];
      var k := Present(init, present);
      if last in present then
        var r := k + [last];
        assert r[..|r| - 1] == k;
        r
      else k
  }

  /** The column list `df[[col for col in valid_columns if col in df.columns]]` keeps. */
  function SelectColumns(columns: seq<string>): (r: seq<string>)
    ensures forall c :: c in r <==> c in ValidColumns && c in columns
    ensures IsSubsequence(r, ValidColumns)
  {
    Present(ValidColumns, columns)
  }

  /** Every wanted name that is present is kept, so nothing is dropped. */
  lemma {:induction false} PresentAll(wanted: seq<string>, present: seq<string>)
    requires forall c :: c in wanted ==> c in present
    ensures Present(wanted, present) == wanted
    decreases |wanted|
  {
    if wanted != [] {
      var init := wanted[..|wanted| - 1];
      assert forall c :: c in init ==> c in wanted;
      PresentAll(init, present);
      assert wanted == init + [wanted[|wanted| - 1]];
    }
  }

  lemma RenamedPresent(columns: seq<string>, k: string)
    requires k in columns && k in Renames
    ensures Renames[k] in CleanColumnNames(columns)
  {
    var i :| 0 <= i < |columns| && columns[i] == k;
    assert CleanColumnNames(columns)[i] == Renames[k];
  }

  /** A raw dataset with all four source columns keeps exactly the four descriptive
      columns, in the fixed order. */
  lemma RawColumnsSelectAll(columns: seq<string>)
    requires "Deatils" in columns && "BrandName" in columns && "Sizes" in columns && "SellPrice" in columns
    ensures SelectColumns(CleanColumnNames(columns)) == ValidColumns
  {
    RenamedPresent(columns, "Deatils");
    RenamedPresent(columns, "BrandName");
    RenamedPresent(columns, "Sizes");
    RenamedPresent(columns, "SellPrice");
    PresentAll(ValidColumns, CleanColumnNames(columns));
  }

  /** `value.replace("Size:", "").split(",")`, each piece stripped and lower-cased. */
  function SizePieces(s: string): (r: seq<string>)
    ensures |r| >= 1
  {
    var parts := Split(RemoveAll(s, "Size:"), ",");
    seq(|parts|, i requires 0 <= i < |parts| => Lower(Strip(parts[i])))
  }

  /** The nested `convert_sizes`: "" for a missing or non-string value, otherwise
      the pieces joined with ", ". */
  function ConvertSizes(value: Cell): (r: string)
    ensures !value.Str? ==> r == ""
    ensures value.Str? ==> r == Join(", ", SizePieces(value.s))
  {
    match value
    case Str(s) => Join(", ", SizePieces(s))
    case _ => ""
  }

  /** There is one piece more than the input has commas ("Size:" holds none). */
  lemma SizePieceCount(s: string)
    ensures |SizePieces(s)| == CountChar(s, ',') + 1
  {
    RemoveAllKeepsCount(s, "Size:", ',');
    SplitCount(RemoveAll(s, "Size:"), ',');
  }

  lemma LowerKeepsAbsent(s: string, c: char)
    requires c !in s && !('A' <= c <= 'Z') && !('a' <= c <= 'z')
    ensures c !in Lower(s)
  {
  }

  /** A normalised size: stripped, no ASCII capital, no comma. */
  predicate NormalisedSize(p: string) {
    (p == [] || (!IsSpace(p[0]) && !IsSpace(p[|p| - 1])))
    && (forall k :: 0 <= k < |p| ==> !('A' <= p[k] <= 'Z'))
    && ',' !in p
  }

  /** Lower-casing keeps a stripped, comma-free text so and removes its capitals. */
  lemma LowerNormalised(t: string)
    requires t == [] || (!IsSpace(t[0]) && !IsSpace(t[|t| - 1]))
    requires ',' !in t
    ensures NormalisedSize(Lower(t))
  {
    var l := Lower(t);
    LowerKeepsAbsent(t, ',');
    if l != [] {
      assert l[0] == LowerChar(t[0]) && l[|l| - 1] == LowerChar(t[|t| - 1]);
    }
    forall k | 0 <= k < |l|
      ensures !('A' <= l[k] <= 'Z')
    {
      assert l[k] == LowerChar(t[k]);
    }
  }

  lemma PieceNormalised(part: string)
    requires ',' !in part
    ensures NormalisedSize(Lower(Strip(part)))
  {
    var t := Strip(part);
    StripKeepsAbsent(part, ',');
    LowerNormalised(t);
  }

  /** Each piece is stripped, has no ASCII capital and holds no comma. */
  lemma SizePiecesShape(s: string)
    ensures forall p :: p in SizePieces(s) ==> NormalisedSize(p)
  {
    var parts := Split(RemoveAll(s, "Size:"), ",");
    SplitPiecesLack(RemoveAll(s, "Size:"), ',');
    forall i | 0 <= i < |parts|
      ensures NormalisedSize(SizePieces(s)[i])
    {
      assert parts[i] in parts;
      PieceNormalised(parts[i]);
    }
  }

  /** Splitting the converted value on ", " gives back exactly the pieces. */
  lemma ConvertSizesSplitsBack(s: string)
    ensures Split(ConvertSizes(Str(s)), ", ") == SizePieces(s)
  {
    SizePiecesShape(s);
    SplitJoin(", ", SizePieces(s));
  }
}
