# TweetDfExtractor column pipeline, modelled in Dafny

The modelled system turns a list of decoded tweets (JSON objects) into a table.
`TweetDfExtractor` holds the record list. Most `find_*` methods walk that list and
append one value per tweet, giving one column. `get_tweet_df` zips fifteen columns
into rows under a fixed fifteen-name header.

The property that matters is alignment: a column has one entry per tweet, in tweet
order. The model proves it for every extractor that loops over the records. It also proves where the code
breaks it.

- `Collect` (in `tweet_df_extractor.dfy`) specifies a loop-and-append extractor. If
  every record yields a value, the result is the column: same length as the record
  list, with entry i computed from record i alone. Otherwise the result is the
  exception raised by the first record that fails. Python's `KeyError` aborts the
  whole `for` loop, and `Collect` models exactly that.
- Nine extractors subscript records or chain `.get` calls. Each is a `for` loop over
  `tweetsList`, proved equal to `Collect` applied to its per-record lookup
  (`StatusesCountOf`, `SourceOf`, ...). `FindFullText` is a loop proved against
  `Collect` over `TextOf`. `FindCreatedTime` is a loop proved aligned directly:
  entry i is `CreatedAtOf` of record i. `FindSentiments` loops over its text
  argument. `FindLocation` is a function with a constant result.
- `Get` (`.get(key, default)` on a record) is total. `GetFrom` (`.get` on an
  arbitrary value) raises `AttributeError` unless the value is a dict. Subscripts
  (`items['user']['x']`) return `Err(KeyError(k))` or `Err(TypeError)` (`Field`,
  `Index`, `Lookup2`).
- `is_sensitive` returns `None` for the whole column as soon as one tweet lacks
  `possibly_sensitive`.
- `find_location` subscripts the record list itself with a string. That always
  raises `TypeError`, so it always returns `''`. `zip` iterates that empty string
  as an empty column, and the table gets no rows (`LocationEmptiesTable`).
- The clean-text rule `re.sub("^.*:", "", text)` is written by hand
  (`clean_text.dfy`). It removes everything up to and including the last colon
  before the first newline. Text whose first line has no colon is unchanged. The
  rule is idempotent.
- `Zip` is Python's `zip`: it yields as many rows as the shortest column has
  entries. `GetTweetDfChecked` is the guarded variant: it refuses any column whose
  length is not the record count and names the first such column.

Files: `wrappers.dfy` (Option, Result), `json_values.dfy` (JSON values and
lookups), `clean_text.dfy` (the clean-text rule), `tweet_df_extractor.dfy` (the
class and its extractors), `table_assembler.dfy` (zip, header, guarded assembly),
`tweet_table.dfy` (how the location result interacts with zip).

## Choices where the code cannot run as written

These lines contain evident typos. The model follows the evident intent:

- Line 48 iterates `self_tweets_list`. The model iterates `self.tweets_list`.
- Line 50 uses `re`, which is never imported. The model uses the regular-expression
  rule as if `re` were imported.
- Lines 55 and 79 are badly indented. The model reads them as statements of the
  method body.
- Line 107 subscripts with the list variable `friends_count`. The model uses the
  string key `'friends_count'` (`FriendsCountOf`).
- Line 149 calls `items(...)`. The model reads it as `items.get('entities', {})`
  (`MentionsOf`).

These oddities are real behaviour of the code and are kept:

- Line 41 uses the key `'status_count'`.
- Line 133 reads `retweet_count` under `user`.
- Line 149 uses the key `'mentions'`.
- `is_sensitive` returns `None` for the whole column.
- `find_location` returns `''`.

The `SampleTweets*` lemmas show what these choices do on a concrete two-tweet input.

## Behaviour of the code worth knowing

- `find_full_text` reads the key `'text'`.
- The stripping pattern `^.*:` removes any first-line prefix through its LAST
  colon, with or without `RT`, and keeps the space after that colon. So
  `"RT @alice: hello world"` becomes `" hello world"` and
  `"RT @a: see http://t.co"` becomes `"//t.co"`.
- An extractor that subscripts raises on a missing key; no default is substituted.
- `get_tweet_df` zips without a length check. Only `GetTweetDfChecked` guards.
- An exception from the sentiment scorer is not caught.

## Model

| member | source | states |
|---|---|---|
| JsonValues.Field | extract_dataframe.py:84 | `items[key]` on a record gives the stored value iff the key is present, and KeyError(key) otherwise |
| JsonValues.Index | extract_dataframe.py:92 | subscripting a value with a string succeeds iff it is a dict holding the key; a non-dict raises TypeError, a dict without the key KeyError(key) |
| JsonValues.Lookup2 | extract_dataframe.py:100 | `items[k1][k2]` succeeds iff k1 is present, holds a dict, and that dict has k2; otherwise KeyError at the missing level, or TypeError when k1 holds a non-dict |
| JsonValues.Get | extract_dataframe.py:73 | `.get(key, default)` on a record never raises; it gives the default exactly when the key is absent, and the stored value otherwise |
| JsonValues.GetFrom | extract_dataframe.py:141 | `.get` on an arbitrary value succeeds iff the value is a dict (then as `Get`); otherwise AttributeError |
| TweetDfExtraction.StatusesCountOf | extract_dataframe.py:41 | succeeds iff the record has `user.status_count` (the key as written), giving that value |
| TweetDfExtraction.TextOf | extract_dataframe.py:49-50 | succeeds iff the record has a string under 'text', giving it; KeyError('text') when absent; TypeError (from `re.sub`) when not a string |
| TweetDfExtraction.CreatedAtOf | extract_dataframe.py:73 | a missing 'created_at' gives None; a present one is kept |
| TweetDfExtraction.SourceOf | extract_dataframe.py:84 | succeeds iff the record has 'source', giving it; KeyError('source') otherwise |
| TweetDfExtraction.ScreenNameOf | extract_dataframe.py:92 | succeeds iff the record has `user.screen_name`, giving that value |
| TweetDfExtraction.FollowersCountOf | extract_dataframe.py:100 | succeeds iff the record has `user.followers_count`, giving that value |
| TweetDfExtraction.FriendsCountOf | extract_dataframe.py:107 | succeeds iff the record has `user.friends_count` (the string key as evident intent of the variable subscript), giving that value |
| TweetDfExtraction.SensitivityOf | extract_dataframe.py:114 | succeeds iff the record has 'possibly_sensitive', giving it; KeyError otherwise |
| TweetDfExtraction.FavouriteCountOf | extract_dataframe.py:125 | succeeds iff the record has `user.favourites_count`, giving that value |
| TweetDfExtraction.RetweetCountOf | extract_dataframe.py:133 | succeeds iff the record has `retweet_count` under 'user' (as written), giving that value |
| TweetDfExtraction.HashtagsOf | extract_dataframe.py:141 | fails iff 'entities' is present and not a dict (AttributeError, never KeyError); a missing 'entities' or 'hashtags' gives None, otherwise the hashtags value |
| TweetDfExtraction.MentionsOf | extract_dataframe.py:149 | as HashtagsOf with the key 'mentions', reading `items(...)` as `items.get(...)` |
| CleanTextRule.LineEnd | extract_dataframe.py:50 | the returned index is the first newline (or the text's end); no newline comes before it, which is where `.` stops matching |
| CleanTextRule.LastColon | extract_dataframe.py:50 | None iff the text has no colon; otherwise the index of a colon with no colon after it (the end of the greedy `.*:`) |
| CleanTextRule.CleanText | extract_dataframe.py:50 | text whose first line has no colon is unchanged; otherwise the result is the suffix after some colon j of the first line, with no colon between j and the first newline |
| CleanTextRule.CleanTextLeavesNoColon | extract_dataframe.py:50 | the first line of the cleaned text contains no colon |
| CleanTextRule.CleanTextIdempotent | extract_dataframe.py:50 | cleaning twice gives the same text as cleaning once |
| CleanTextRule.CleanTextIsSuffix | extract_dataframe.py:50 | the cleaned text is a suffix of the raw text (only a prefix is removed) |
| CleanTextRule.CleanTextStripsHeader | extract_dataframe.py:50 | a one-line `header:body` whose body has no colon cleans to exactly `body` |
| CleanTextRule.CleanTextRetweetExample | extract_dataframe.py:50 | "RT @alice: hello world" cleans to " hello world" (leading space kept) |
| CleanTextRule.CleanTextNoColonExample | extract_dataframe.py:50 | "hello world" is unchanged |
| CleanTextRule.CleanTextGreedyExample | extract_dataframe.py:50 | greedy match: "RT @a: see http://t.co" cleans to "//t.co" |
| CleanTextRule.CleanTextSecondLineExample | extract_dataframe.py:50 | a colon after the first newline is not reached: "hi\nRT @a: x" is unchanged |
| TweetDfExtraction.Collect | extract_dataframe.py:39-42 | the append loop succeeds iff every record yields a value; then the column has one entry per record, entry i being record i's value; otherwise the error is that of the first failing record, all earlier records having succeeded |
| TweetDfExtraction.CollectStopsAtFailure | extract_dataframe.py:40-41 | once the loop has raised on a prefix, the outcome of the whole list is that same exception |
| TweetDfExtraction.TweetDfExtractor.constructor | extract_dataframe.py:33-35 | stores the record list unchanged |
| TweetDfExtraction.TweetDfExtractor.FindStatusesCount | extract_dataframe.py:38-42 | result is the append loop over `user.status_count` (Collect), so aligned when every record has the path |
| TweetDfExtraction.TweetDfExtractor.FindFullText | extract_dataframe.py:45-51 | fails with the first record's error when some record lacks a string 'text'; otherwise returns (clean, raw), raw being each record's text in order and clean[i] the clean-text of raw[i] |
| TweetDfExtraction.TweetDfExtractor.FindSentiments | extract_dataframe.py:54-66 | one polarity and one subjectivity per input text in order, each the scorer's value for that text; the `subjectivity` field becomes the returned subjectivity list |
| TweetDfExtraction.TweetDfExtractor.FindCreatedTime | extract_dataframe.py:68-75 | never fails; one entry per record, entry i being record i's 'created_at' or None |
| TweetDfExtraction.TweetDfExtractor.FindSource | extract_dataframe.py:77-85 | result is the append loop over `source` (Collect) |
| TweetDfExtraction.TweetDfExtractor.FindScreenName | extract_dataframe.py:87-93 | result is the append loop over `user.screen_name` (Collect) |
| TweetDfExtraction.TweetDfExtractor.FindFollowersCount | extract_dataframe.py:95-101 | result is the append loop over `user.followers_count` (Collect) |
| TweetDfExtraction.TweetDfExtractor.FindFriendsCount | extract_dataframe.py:103-108 | result is the append loop over `user.friends_count` (Collect) |
| TweetDfExtraction.TweetDfExtractor.IsSensitive | extract_dataframe.py:110-118 | Some iff every record has 'possibly_sensitive', and then an aligned list of those values; None for the whole column if any record lacks it |
| TweetDfExtraction.TweetDfExtractor.FindFavouriteCount | extract_dataframe.py:120-127 | result is the append loop over `user.favourites_count` (Collect) |
| TweetDfExtraction.TweetDfExtractor.FindRetweetCount | extract_dataframe.py:129-134 | result is the append loop over `user.retweet_count` (Collect) |
| TweetDfExtraction.TweetDfExtractor.FindHashtags | extract_dataframe.py:136-143 | result is the append loop over `entities.get('hashtags')`, with missing 'entities' read as `{}` (Collect) |
| TweetDfExtraction.TweetDfExtractor.FindMentions | extract_dataframe.py:145-151 | result is the append loop over `entities.get('mentions')`, with missing 'entities' read as `{}` (Collect) |
| TweetDfExtraction.TweetDfExtractor.FindLocation | extract_dataframe.py:153-160 | for every record list the result is the empty string, because subscripting a list with 'user' raises TypeError, which is caught |
| TweetDfExtraction.HashtagsColumnAligned | extract_dataframe.py:139-143 | when every record's 'entities' is absent or a dict, the hashtag column is complete, with None where 'entities' is absent |
| TweetDfExtraction.MissingKeyFailsColumn | extract_dataframe.py:91-92 | one record lacking 'user' or the key under it makes a direct-indexing column an error, with no default |
| TweetDfExtraction.SampleTweetsGetColumns | extract_dataframe.py:136-143 | on the two sample tweets the `.get` columns (created_at, hashtags, mentions) are filled at both positions |
| TweetDfExtraction.SampleTweetsScreenNames | extract_dataframe.py:87-93 | on the two sample tweets the screen-name column is ["a", "b"] |
| TweetDfExtraction.SampleTweetsMissingCountsRaise | extract_dataframe.py:99-100 | the second sample tweet's missing followers count and sensitivity flag raise KeyError instead of giving a default |
| TweetDfExtraction.SampleTweetsMisspelledKeysRaise | extract_dataframe.py:41 | the first sample tweet already raises for 'text', 'status_count' and `user.retweet_count` |
| TableAssembler.MinLength | extract_dataframe.py:185 | the result is at most every column's length and equals one of them (0 for no columns) |
| TableAssembler.Zip | extract_dataframe.py:185 | as many rows as the shortest column; row i has one cell per column, cell j being column j's i-th entry |
| TableAssembler.GetTweetDf | extract_dataframe.py:168-186 | header is the fixed 15 names; row count is the shortest column's length; each row has 15 cells, cell j of row i being column j's i-th entry |
| TableAssembler.GetTweetDfChecked | extract_dataframe.py:185 | succeeds iff every column has exactly n entries, and then is the zipped table with n rows; otherwise reports the first column whose length differs from n, with that length |
| TableAssembler.ColumnNamesDistinct | extract_dataframe.py:168-169 | the header has 15 distinct names, one per zip argument at line 185 |
| TableAssembler.RowCountIsRecordCountIffAligned | extract_dataframe.py:185 | if no column is longer than n, the zip has n rows iff every column has n entries |
| TableAssembler.ShortColumnTruncates | extract_dataframe.py:185 | the zip never has more rows than any column has entries; an empty column empties it |
| TweetTable.Characters | extract_dataframe.py:185 | zip reads a string argument as its characters, one cell per character, in order |
| TweetTable.LocationEmptiesTable | extract_dataframe.py:155-158 | with the location result as last zip argument the table has no rows, whatever the other columns are |
| TweetTable.LocationRefusedByGuard | extract_dataframe.py:155-158 | for a non-empty record list, the guarded assembly refuses the same columns |

## Left out

- `read_json` (lines 6-23): opening the file and `json.loads` are I/O and a foreign
  parser. The record list is the constructor's input. Records are JSON objects, and
  floating-point JSON numbers are not represented.
- TextBlob scoring (lines 63-64) is an outside library. It is the parameter
  `score: string -> Sentiment`. The model reasons only about count and order of
  the scores, never about their values.
- `pd.DataFrame`, `to_csv` and `print` (lines 186-190) are a foreign library and
  file output. The table is the `Table` value.
- The general regular-expression engine: only the single `^.*:` rule is modelled.
- The `__main__` block (lines 195-203) is script plumbing with a different, unused
  column list.
- The extractor calls in `get_tweet_df` (lines 171-184) are not modelled as one
  method, for three reasons. `find_lang` (line 175) is never defined. Line 173
  binds the pair (clean, raw) to `text`, and line 174 passes that pair to
  `find_sentiments`. `zip` raises `TypeError` on the `None` that `is_sensitive` can
  return. Instead, the zip functions take the fifteen columns as parameters, and
  `TweetTable` states what the location result does to them.
- TweetDfExtraction.TweetDfExtractor.FindSentiments: the scores are an opaque
  function of the text. Python builds `TextBlob(items)` twice per text, and the
  model assumes both give the same score.
- TweetDfExtraction.TweetDfExtractor.constructor: Python creates `subjectivity` only
  when `find_sentiments` first runs. The model starts that field as the empty list.
