/**
 * The assembly step of `get_tweet_df`: the fifteen columns are zipped into rows
 * and paired with a fixed header. Python's `zip` stops at the shortest column;
 * `GetTweetDfChecked` is the guarded variant that refuses a column whose length
 * is not the record count.
 */
module TableAssembler {
  import opened Wrappers

  /** The header passed to the DataFrame, in order. */
  const ColumnNames: seq<string> := [
    "created_at", "source", "original_text", "polarity", "subjectivity", "lang",
    "favorite_count", "retweet_count", "original_author", "followers_count",
    "friends_count", "possibly_sensitive", "hashtags", "user_mentions", "place"]

  /** A table: a header and rows of cells. */
  datatype Table<T> = Table(header: seq<string>, rows: seq<seq<T>>)

  /** Why the checked assembly refused its input. */
  datatype Mismatch = LengthMismatch(column: string, length: nat, expected: nat)

  /** The length of the shortest column (0 for no columns, as `zip()` yields nothing). */
  function MinLength<T>(cols: seq<seq<T>>): (m: nat)
    ensures forall j :: 0 <= j < |cols| ==> m <= |cols[j]|
    ensures |cols| > 0 ==> exists j :: 0 <= j < |cols| && |cols[j]| == m
    ensures |cols| == 0 ==> m == 0
  {
    if |cols| == 0 then 0
    else if |cols| == 1 then |cols[0]|
    else
      var rest := MinLength(cols[1..]);
      assert forall j :: 1 <= j < |cols| ==> cols[1..][j - 1] == cols[j];
      if |cols[0]| <= rest then |cols[0]| else rest
  }

  /** Python's `zip`: one row per position that every column has, row i holding the
      i-th element of each column in argument order. */
  function Zip<T>(cols: seq<seq<T>>): (rows: seq<seq<T>>)
    ensures |rows| == MinLength(cols)
    ensures forall i :: 0 <= i < |rows| ==> |rows[i]| == |cols|
    ensures forall i, j :: 0 <= i < |rows| && 0 <= j < |cols| ==> rows[i][j] == cols[j][i]
  {
    var m := MinLength(cols);
    seq(m, i requires 0 <= i < m =>
      seq(|cols|, j requires 0 <= j < |cols| && i < m => cols[j][i]))
  }

  /** `pd.DataFrame(data=zip(...), columns=columns)`. */
  function GetTweetDf<T>(cols: seq<seq<T>>): (t: Table<T>)
    requires |cols| == |ColumnNames|
    ensures |t.header| == 15 && t.header == ColumnNames
    ensures |t.rows| == MinLength(cols)
    ensures forall i :: 0 <= i < |t.rows| ==> |t.rows[i]| == |t.header|
    ensures forall i, j :: 0 <= i < |t.rows| && 0 <= j < 15 ==> t.rows[i][j] == cols[j][i]
  {
    Table(ColumnNames, Zip(cols))
  }

  /** The first column whose length is not n (|cols| when there is none). */
  function FirstMismatch<T>(cols: seq<seq<T>>, n: nat): (k: nat)
    ensures k <= |cols|
    ensures forall j :: 0 <= j < k ==> |cols[j]| == n
    ensures k < |cols| ==> |cols[k]| != n
  {
    if cols == [] then 0
    else if |cols[0]| != n then 0
    else
      var k := 1 + FirstMismatch(cols[1..], n);
      assert forall j :: 1 <= j < |cols| ==> cols[1..][j - 1] == cols[j];
      k
  }

  /** Assembly with the alignment guard: every column must have exactly n entries
      (n being the record count); otherwise the first diverging column is reported
      with its length, and no table is built. */
  function GetTweetDfChecked<T>(cols: seq<seq<T>>, n: nat): (r: Result<Table<T>, Mismatch>)
    requires |cols| == |ColumnNames|
    ensures r.Ok? <==> forall j :: 0 <= j < |cols| ==> |cols[j]| == n
    ensures r.Ok? ==> r.value == GetTweetDf(cols) && |r.value.rows| == n
    ensures r.Err? ==>
      exists j :: 0 <= j < |cols| && |cols[j]| != n &&
        r.error == LengthMismatch(ColumnNames[j], |cols[j]|, n) &&
        forall i :: 0 <= i < j ==> |cols[i]| == n
  {
    var k := FirstMismatch(cols, n);
    if k < |cols| then Err(LengthMismatch(ColumnNames[k], |cols[k]|, n))
    else Ok(GetTweetDf(cols))
  }

  /** The header has fifteen distinct names, one per `zip` argument. */
  lemma ColumnNamesDistinct()
    ensures |ColumnNames| == 15
    ensures forall i, j :: 0 <= i < j < 15 ==> ColumnNames[i] != ColumnNames[j]
  {
  }

  /** When no column is longer than the record count n, the unguarded zip yields
      exactly n rows if and only if every column has n entries. */
  lemma {:induction false} RowCountIsRecordCountIffAligned<T>(cols: seq<seq<T>>, n: nat)
    requires |cols| > 0
    requires forall j :: 0 <= j < |cols| ==> |cols[j]| <= n
    ensures |Zip(cols)| == n <==> forall j :: 0 <= j < |cols| ==> |cols[j]| == n
  {
  }

  /** Silent truncation: one short column cuts every row beyond its length. */
  lemma ShortColumnTruncates<T>(cols: seq<seq<T>>, j: nat)
    requires j < |cols|
    ensures |Zip(cols)| <= |cols[j]|
    ensures |cols[j]| == 0 ==> Zip(cols) == []
  {
  }

}
