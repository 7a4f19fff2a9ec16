/**
 * What `get_tweet_df` zips when the extractor results are fed to it as written:
 * cells of the table, and the effect of the location result on the row count.
 */
module TweetTable {
  import opened Wrappers
  import opened JsonValues
  import opened TweetDfExtraction
  import opened TableAssembler

  /** A table cell: a JSON value taken from a tweet, or a sentiment score. */
  datatype Cell = Value(json: Json) | Score(score: real)

  /** Iterating a Python string yields its characters as one-character strings;
      this is what `zip` sees of a string argument. */
  function Characters(s: string): (cells: seq<Cell>)
    ensures |cells| == |s|
    ensures forall i :: 0 <= i < |s| ==> cells[i] == Value(Str([s[i]]))
  {
    seq(|s|, i requires 0 <= i < |s| => Value(Str([s[i]])))
  }

  /** The location result is the empty string, so as the last zip argument it cuts
      the table to no rows at all, whatever the other fourteen columns hold. */
  lemma LocationEmptiesTable(x: TweetDfExtractor, others: seq<seq<Cell>>)
    requires |others| == 14
    ensures GetTweetDf(others + [Characters(x.FindLocation().value.s)]).rows == []
  {
    var cols := others + [Characters(x.FindLocation().value.s)];
    ShortColumnTruncates(cols, 14);
  }

  /** With the alignment guard the same input is refused for any non-empty record list. */
  lemma LocationRefusedByGuard(x: TweetDfExtractor, others: seq<seq<Cell>>)
    requires |others| == 14 && |x.tweetsList| > 0
    ensures GetTweetDfChecked(others + [Characters(x.FindLocation().value.s)], |x.tweetsList|).Err?
  {
    var cols := others + [Characters(x.FindLocation().value.s)];
    assert |cols[14]| == 0;
  }
}
