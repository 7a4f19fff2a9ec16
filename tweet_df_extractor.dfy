/**
 * The column extractors of `TweetDfExtractor`. Each `find_*` method walks the
 * record list and appends one value per record; a subscript that fails raises,
 * which aborts the whole column. `Collect` is the specification of such a
 * loop: the column when every record yields a value, otherwise the exception
 * of the first record that does not.
 */
module TweetDfExtraction {
  import opened Wrappers
  import opened JsonValues
  import opened CleanTextRule

  /** The outcome of appending `f(r)` for every record `r` in order, stopping at the
      first exception. */
  function Collect<A>(rs: seq<Record>, f: Record -> Result<A, Failure>): (r: Result<seq<A>, Failure>)
    ensures r.Ok? <==> forall i :: 0 <= i < |rs| ==> f(rs[i]).Ok?
    ensures r.Ok? ==> |r.value| == |rs| && forall i :: 0 <= i < |rs| ==> f(rs[i]) == Ok(r.value[i])
    ensures r.Err? ==>
      exists k :: 0 <= k < |rs| && f(rs[k]) == Err(r.error) && forall i :: 0 <= i < k ==> f(rs[i]).Ok?
    decreases |rs|
  {
    if rs == [] then Ok([])
    else
      var init := rs[..|rs| - 1];
      assert forall i :: 0 <= i < |rs| - 1 ==> init[i] == rs[i];
      match Collect(init, f)
      case Err(e) => Err(e)
      case Ok(c) =>
        match f(rs[|rs| - 1])
        case Err(e) => Err(e)
        case Ok(v) => Ok(c + [v])
  }

  /** Once a prefix of the records has raised, the rest of the list is never reached. */
  lemma {:induction false} CollectStopsAtFailure<A>(rs: seq<Record>, k: nat, f: Record -> Result<A, Failure>)
    requires k <= |rs|
    requires Collect(rs[..k], f).Err?
    ensures Collect(rs, f) == Collect(rs[..k], f)
    decreases |rs| - k
  {
    if k < |rs| {
      assert rs[..|rs| - 1][..k] == rs[..k];
      CollectStopsAtFailure(rs[..|rs| - 1], k, f);
    } else {
      assert rs[..k] == rs;
    }
  }

  // The per-record expression of each loop body.

  /** `items['user']['status_count']`: the key is 'status_count', as written. */
  function StatusesCountOf(r: Record): (v: Result<Json, Failure>)
    ensures v.Ok? <==> HasPath(r, "user", "status_count")
    ensures v.Ok? ==> v.value == r["user"].fields["status_count"]
  {
    Lookup2(r, "user", "status_count")
  }

  /** `items['text']`, which `re.sub` then requires to be a string. */
  function TextOf(r: Record): (v: Result<string, Failure>)
    ensures v.Ok? <==> "text" in r && r["text"].Str?
    ensures v.Ok? ==> v.value == r["text"].s
    ensures "text" !in r ==> v == Err(KeyError("text"))
    ensures "text" in r && !r["text"].Str? ==> v == Err(TypeError)
  {
    match Field(r, "text")
    case Err(e) => Err(e)
    case Ok(Str(s)) => Ok(s)
    case Ok(_) => Err(TypeError)
  }

  /** `items.get('created_at', None)`: a missing 'created_at' becomes None. */
  function CreatedAtOf(r: Record): (v: Json)
    ensures "created_at" !in r ==> v == Null
    ensures "created_at" in r ==> v == r["created_at"]
  {
    Get(r, "created_at", Null)
  }

  /** `items['source']`. */
  function SourceOf(r: Record): (v: Result<Json, Failure>)
    ensures v.Ok? <==> "source" in r
    ensures v.Ok? ==> v.value == r["source"]
    ensures v.Err? ==> v.error == KeyError("source")
  {
    Field(r, "source")
  }

  /** `items['user']['screen_name']`. */
  function ScreenNameOf(r: Record): (v: Result<Json, Failure>)
    ensures v.Ok? <==> HasPath(r, "user", "screen_name")
    ensures v.Ok? ==> v.value == r["user"].fields["screen_name"]
  {
    Lookup2(r, "user", "screen_name")
  }

  /** `items['user']['followers_count']`. */
  function FollowersCountOf(r: Record): (v: Result<Json, Failure>)
    ensures v.Ok? <==> HasPath(r, "user", "followers_count")
    ensures v.Ok? ==> v.value == r["user"].fields["followers_count"]
  {
    Lookup2(r, "user", "followers_count")
  }

  /** `items['user']['friends_count']`: the source subscripts with a list variable of
      that name; the string key is the evident intent. */
  function FriendsCountOf(r: Record): (v: Result<Json, Failure>)
    ensures v.Ok? <==> HasPath(r, "user", "friends_count")
    ensures v.Ok? ==> v.value == r["user"].fields["friends_count"]
  {
    Lookup2(r, "user", "friends_count")
  }

  /** `x['possibly_sensitive']`. */
  function SensitivityOf(r: Record): (v: Result<Json, Failure>)
    ensures v.Ok? <==> "possibly_sensitive" in r
    ensures v.Ok? ==> v.value == r["possibly_sensitive"]
    ensures v.Err? ==> v.error == KeyError("possibly_sensitive")
  {
    Field(r, "possibly_sensitive")
  }

  /** `items['user']['favourites_count']`. */
  function FavouriteCountOf(r: Record): (v: Result<Json, Failure>)
    ensures v.Ok? <==> HasPath(r, "user", "favourites_count")
    ensures v.Ok? ==> v.value == r["user"].fields["favourites_count"]
  {
    Lookup2(r, "user", "favourites_count")
  }

  /** `items['user']['retweet_count']`: under 'user', as written. */
  function RetweetCountOf(r: Record): (v: Result<Json, Failure>)
    ensures v.Ok? <==> HasPath(r, "user", "retweet_count")
    ensures v.Ok? ==> v.value == r["user"].fields["retweet_count"]
  {
    Lookup2(r, "user", "retweet_count")
  }

  /** `items.get('entities', {}).get('hashtags', None)`: never a KeyError. A missing
      'entities' or 'hashtags' gives None; it raises only when 'entities' is present
      and not a dict. */
  function HashtagsOf(r: Record): (v: Result<Json, Failure>)
    ensures v.Err? <==> "entities" in r && !r["entities"].Object?
    ensures v.Err? ==> v.error == AttributeError
    ensures "entities" !in r ==> v == Ok(Null)
    ensures "entities" in r && r["entities"].Object? ==>
      v == Ok(if "hashtags" in r["entities"].fields then r["entities"].fields["hashtags"] else Null)
  {
    GetFrom(Get(r, "entities", Object(map[])), "hashtags", Null)
  }

  /** `items.get('entities', {}).get('mentions', None)` (the source calls `items(...)`;
      the `.get` is the evident intent, the key 'mentions' is kept). */
  function MentionsOf(r: Record): (v: Result<Json, Failure>)
    ensures v.Err? <==> "entities" in r && !r["entities"].Object?
    ensures v.Err? ==> v.error == AttributeError
    ensures "entities" !in r ==> v == Ok(Null)
    ensures "entities" in r && r["entities"].Object? ==>
      v == Ok(if "mentions" in r["entities"].fields then r["entities"].fields["mentions"] else Null)
  {
    GetFrom(Get(r, "entities", Object(map[])), "mentions", Null)
  }

  /** The two scores the sentiment analyser gives one text. */
  datatype Sentiment = Sentiment(polarity: real, subjectivity: real)

  /** The record list seen as the Python list object it is. */
  function AsJsonList(rs: seq<Record>): (v: Json)
    ensures v.List? && |v.items| == |rs|
  {
    List(seq(|rs|, i requires 0 <= i < |rs| => Object(rs[i])))
  }

  class TweetDfExtractor {
    const tweetsList: seq<Record>
    /** Set by FindSentiments; empty before its first call. */
    var subjectivity: seq<real>

    constructor (tweetsList: seq<Record>)
      ensures this.tweetsList == tweetsList && subjectivity == []
    {
      this.tweetsList := tweetsList;
      subjectivity := [];
    }

    method FindStatusesCount() returns (r: Result<seq<Json>, Failure>)
      ensures r == Collect(tweetsList, StatusesCountOf)
    {
      var statusesCount: seq<Json> := [];
      for i := 0 to |tweetsList|
        invariant Collect(tweetsList[..i], StatusesCountOf) == Ok(statusesCount)
      {
        var v := Lookup2(tweetsList[i], "user", "status_count");
        assert tweetsList[..i + 1][..i] == tweetsList[..i];
        if v.Err? {
          CollectStopsAtFailure(tweetsList, i + 1, StatusesCountOf);
          return Err(v.error);
        }
        statusesCount := statusesCount + [v.value];
      }
      assert tweetsList[..|tweetsList|] == tweetsList;
      return Ok(statusesCount);
    }

    /** The cleaned texts and the raw texts, in record order. */
    method FindFullText() returns (r: Result<(seq<string>, seq<string>), Failure>)
      ensures match Collect(tweetsList, TextOf)
        case Err(e) => r == Err(e)
        case Ok(raw) =>
          r.Ok? && r.value.1 == raw && |r.value.0| == |raw| &&
          forall i :: 0 <= i < |raw| ==> r.value.0[i] == CleanText(raw[i])
    {
      var text: seq<string> := [];
      var uText: seq<string> := [];
      for i := 0 to |tweetsList|
        invariant Collect(tweetsList[..i], TextOf) == Ok(uText)
        invariant |text| == i
        invariant forall k :: 0 <= k < i ==> text[k] == CleanText(uText[k])
      {
        var v := Field(tweetsList[i], "text");
        assert tweetsList[..i + 1][..i] == tweetsList[..i];
        if v.Err? {
          CollectStopsAtFailure(tweetsList, i + 1, TextOf);
          return Err(v.error);
        }
        if !v.value.Str? {
          CollectStopsAtFailure(tweetsList, i + 1, TextOf);
          return Err(TypeError);
        }
        uText := uText + [v.value.s];
        text := text + [CleanText(v.value.s)];
      }
      assert tweetsList[..|tweetsList|] == tweetsList;
      return Ok((text, uText));
    }

    /** One polarity and one subjectivity per text, in order; the subjectivity list
        also replaces the `subjectivity` field. */
    method FindSentiments(text: seq<string>, score: string -> Sentiment) returns (polarity: seq<real>, subjectivityScores: seq<real>)
      modifies this
      ensures subjectivity == subjectivityScores
      ensures |polarity| == |text| && |subjectivityScores| == |text|
      ensures forall i :: 0 <= i < |text| ==>
        polarity[i] == score(text[i]).polarity && subjectivityScores[i] == score(text[i]).subjectivity
    {
      polarity := [];
      subjectivity := [];
      for i := 0 to |text|
        invariant |polarity| == i && |subjectivity| == i
        invariant forall k :: 0 <= k < i ==>
          polarity[k] == score(text[k]).polarity && subjectivity[k] == score(text[k]).subjectivity
      {
        subjectivity := subjectivity + [score(text[i]).subjectivity];
        polarity := polarity + [score(text[i]).polarity];
      }
      subjectivityScores := subjectivity;
    }

    /** Never fails: a record without 'created_at' contributes None at its position. */
    method FindCreatedTime() returns (createdAt: seq<Json>)
      ensures |createdAt| == |tweetsList|
      ensures forall i :: 0 <= i < |tweetsList| ==> createdAt[i] == CreatedAtOf(tweetsList[i])
    {
      createdAt := [];
      for i := 0 to |tweetsList|
        invariant |createdAt| == i
        invariant forall k :: 0 <= k < i ==> createdAt[k] == CreatedAtOf(tweetsList[k])
      {
        createdAt := createdAt + [Get(tweetsList[i], "created_at", Null)];
      }
    }

    method FindSource() returns (r: Result<seq<Json>, Failure>)
      ensures r == Collect(tweetsList, SourceOf)
    {
      var source: seq<Json> := [];
      for i := 0 to |tweetsList|
        invariant Collect(tweetsList[..i], SourceOf) == Ok(source)
      {
        var v := Field(tweetsList[i], "source");
        assert tweetsList[..i + 1][..i] == tweetsList[..i];
        if v.Err? {
          CollectStopsAtFailure(tweetsList, i + 1, SourceOf);
          return Err(v.error);
        }
        source := source + [v.value];
      }
      assert tweetsList[..|tweetsList|] == tweetsList;
      return Ok(source);
    }

    method FindScreenName() returns (r: Result<seq<Json>, Failure>)
      ensures r == Collect(tweetsList, ScreenNameOf)
    {
      var screenName: seq<Json> := [];
      for i := 0 to |tweetsList|
        invariant Collect(tweetsList[..i], ScreenNameOf) == Ok(screenName)
      {
        var v := Lookup2(tweetsList[i], "user", "screen_name");
        assert tweetsList[..i + 1][..i] == tweetsList[..i];
        if v.Err? {
          CollectStopsAtFailure(tweetsList, i + 1, ScreenNameOf);
          return Err(v.error);
        }
        screenName := screenName + [v.value];
      }
      assert tweetsList[..|tweetsList|] == tweetsList;
      return Ok(screenName);
    }

    method FindFollowersCount() returns (r: Result<seq<Json>, Failure>)
      ensures r == Collect(tweetsList, FollowersCountOf)
    {
      var followersCount: seq<Json> := [];
      for i := 0 to |tweetsList|
        invariant Collect(tweetsList[..i], FollowersCountOf) == Ok(followersCount)
      {
        var v := Lookup2(tweetsList[i], "user", "followers_count");
        assert tweetsList[..i + 1][..i] == tweetsList[..i];
        if v.Err? {
          CollectStopsAtFailure(tweetsList, i + 1, FollowersCountOf);
          return Err(v.error);
        }
        followersCount := followersCount + [v.value];
      }
      assert tweetsList[..|tweetsList|] == tweetsList;
      return Ok(followersCount);
    }

    method FindFriendsCount() returns (r: Result<seq<Json>, Failure>)
      ensures r == Collect(tweetsList, FriendsCountOf)
    {
      var friendsCount: seq<Json> := [];
      for i := 0 to |tweetsList|
        invariant Collect(tweetsList[..i], FriendsCountOf) == Ok(friendsCount)
      {
        var v := Lookup2(tweetsList[i], "user", "friends_count");
        assert tweetsList[..i + 1][..i] == tweetsList[..i];
        if v.Err? {
          CollectStopsAtFailure(tweetsList, i + 1, FriendsCountOf);
          return Err(v.error);
        }
        friendsCount := friendsCount + [v.value];
      }
      assert tweetsList[..|tweetsList|] == tweetsList;
      return Ok(friendsCount);
    }

    /** The list comprehension over 'possibly_sensitive', with its KeyError turned into
        None for the whole column. */
    function IsSensitive(): (r: Option<seq<Json>>)
      ensures r.Some? <==> forall i :: 0 <= i < |tweetsList| ==> "possibly_sensitive" in tweetsList[i]
      ensures r.Some? ==>
        |r.value| == |tweetsList| &&
        forall i :: 0 <= i < |tweetsList| ==> r.value[i] == tweetsList[i]["possibly_sensitive"]
    {
      match Collect(tweetsList, SensitivityOf)
      case Ok(c) => Some(c)
      case Err(_) => None
    }

    method FindFavouriteCount() returns (r: Result<seq<Json>, Failure>)
      ensures r == Collect(tweetsList, FavouriteCountOf)
    {
      var favouriteCount: seq<Json> := [];
      for i := 0 to |tweetsList|
        invariant Collect(tweetsList[..i], FavouriteCountOf) == Ok(favouriteCount)
      {
        var v := Lookup2(tweetsList[i], "user", "favourites_count");
        assert tweetsList[..i + 1][..i] == tweetsList[..i];
        if v.Err? {
          CollectStopsAtFailure(tweetsList, i + 1, FavouriteCountOf);
          return Err(v.error);
        }
        favouriteCount := favouriteCount + [v.value];
      }
      assert tweetsList[..|tweetsList|] == tweetsList;
      return Ok(favouriteCount);
    }

    method FindRetweetCount() returns (r: Result<seq<Json>, Failure>)
      ensures r == Collect(tweetsList, RetweetCountOf)
    {
      var retweetCount: seq<Json> := [];
      for i := 0 to |tweetsList|
        invariant Collect(tweetsList[..i], RetweetCountOf) == Ok(retweetCount)
      {
        var v := Lookup2(tweetsList[i], "user", "retweet_count");
        assert tweetsList[..i + 1][..i] == tweetsList[..i];
        if v.Err? {
          CollectStopsAtFailure(tweetsList, i + 1, RetweetCountOf);
          return Err(v.error);
        }
        retweetCount := retweetCount + [v.value];
      }
      assert tweetsList[..|tweetsList|] == tweetsList;
      return Ok(retweetCount);
    }

    method FindHashtags() returns (r: Result<seq<Json>, Failure>)
      ensures r == Collect(tweetsList, HashtagsOf)
    {
      var hashtags: seq<Json> := [];
      for i := 0 to |tweetsList|
        invariant Collect(tweetsList[..i], HashtagsOf) == Ok(hashtags)
      {
        var v := GetFrom(Get(tweetsList[i], "entities", Object(map[])), "hashtags", Null);
        assert tweetsList[..i + 1][..i] == tweetsList[..i];
        if v.Err? {
          CollectStopsAtFailure(tweetsList, i + 1, HashtagsOf);
          return Err(v.error);
        }
        hashtags := hashtags + [v.value];
      }
      assert tweetsList[..|tweetsList|] == tweetsList;
      return Ok(hashtags);
    }

    method FindMentions() returns (r: Result<seq<Json>, Failure>)
      ensures r == Collect(tweetsList, MentionsOf)
    {
      var mentions: seq<Json> := [];
      for i := 0 to |tweetsList|
        invariant Collect(tweetsList[..i], MentionsOf) == Ok(mentions)
      {
        var v := GetFrom(Get(tweetsList[i], "entities", Object(map[])), "mentions", Null);
        assert tweetsList[..i + 1][..i] == tweetsList[..i];
        if v.Err? {
          CollectStopsAtFailure(tweetsList, i + 1, MentionsOf);
          return Err(v.error);
        }
        mentions := mentions + [v.value];
      }
      assert tweetsList[..|tweetsList|] == tweetsList;
      return Ok(mentions);
    }

    /** `self.tweets_list['user']['location']` subscripts the record LIST with a string,
        which always raises TypeError, so the handler's '' is returned for every input. */
    function FindLocation(): (r: Result<Json, Failure>)
      ensures r == Ok(Str(""))
    {
      var attempt := match Index(AsJsonList(tweetsList), "user")
        case Err(e) => Err(e)
        case Ok(u) => Index(u, "location");
      if attempt.Err? && attempt.error.TypeError? then Ok(Str("")) else attempt
    }
  }

  /** Hence the hashtag column is complete whenever each record's 'entities' is absent
      or a dict, however many keys are missing. */
  lemma HashtagsColumnAligned(rs: seq<Record>)
    requires forall i :: 0 <= i < |rs| ==> "entities" !in rs[i] || rs[i]["entities"].Object?
    ensures Collect(rs, HashtagsOf).Ok? && |Collect(rs, HashtagsOf).value| == |rs|
    ensures forall i :: 0 <= i < |rs| && "entities" !in rs[i] ==> Collect(rs, HashtagsOf).value[i] == Null
  {
  }

  /** A direct-indexing extractor does not substitute a default: one record lacking the
      key at either level makes the whole column an exception. */
  lemma MissingKeyFailsColumn(rs: seq<Record>, k: nat, key: string)
    requires k < |rs|
    requires "user" !in rs[k] || (rs[k]["user"].Object? && key !in rs[k]["user"].fields)
    ensures Collect(rs, (r: Record) => Lookup2(r, "user", key)).Err?
  {
    assert !Lookup2(rs[k], "user", key).Ok?;
  }

  /** The first sample tweet: complete apart from 'text' (its text is under 'full_text')
      and the per-user 'status_count' and 'retweet_count' keys. */
  function SampleTweet1(): Record
  {
    map["created_at" := Str("t1"), "full_text" := Str("RT @a: Good day!"),
        "user" := Object(map["screen_name" := Str("a"), "followers_count" := Int(10),
                             "friends_count" := Int(2), "favourites_count" := Int(1),
                             "statuses_count" := Int(5)]),
        "retweet_count" := Int(3), "possibly_sensitive" := Bool(false),
        "entities" := Object(map["hashtags" := List([]), "user_mentions" := List([])]),
        "lang" := Str("en")]
  }

  /** The second sample tweet: no counts at all. */
  function SampleTweet2(): Record
  {
    map["created_at" := Str("t2"), "full_text" := Str("Bad day"),
        "user" := Object(map["screen_name" := Str("b")])]
  }

  /** On the two sample tweets the `.get` extractors fill both positions. */
  lemma SampleTweetsGetColumns()
    ensures CreatedAtOf(SampleTweet1()) == Str("t1") && CreatedAtOf(SampleTweet2()) == Str("t2")
    ensures Collect([SampleTweet1(), SampleTweet2()], HashtagsOf) == Ok([List([]), Null])
    ensures Collect([SampleTweet1(), SampleTweet2()], MentionsOf) == Ok([Null, Null])
  {
    var rs := [SampleTweet1(), SampleTweet2()];
    assert HashtagsOf(rs[0]) == Ok(List([])) && HashtagsOf(rs[1]) == Ok(Null);
    assert Collect(rs, HashtagsOf).value == [List([]), Null];
    assert MentionsOf(rs[0]) == Ok(Null) && MentionsOf(rs[1]) == Ok(Null);
    assert Collect(rs, MentionsOf).value == [Null, Null];
  }

  /** Both sample tweets have a screen name, so that subscripting column is complete. */
  lemma SampleTweetsScreenNames()
    ensures Collect([SampleTweet1(), SampleTweet2()], ScreenNameOf) == Ok([Str("a"), Str("b")])
  {
    var rs := [SampleTweet1(), SampleTweet2()];
    assert ScreenNameOf(rs[0]) == Ok(Str("a")) && ScreenNameOf(rs[1]) == Ok(Str("b"));
    assert Collect(rs, ScreenNameOf).value == [Str("a"), Str("b")];
  }

  /** The second sample tweet has no followers count or sensitivity flag: the
      subscripting extractors raise instead of substituting a default. */
  lemma SampleTweetsMissingCountsRaise()
    ensures Collect([SampleTweet1(), SampleTweet2()], FollowersCountOf) == Err(KeyError("followers_count"))
    ensures Collect([SampleTweet1(), SampleTweet2()], SensitivityOf) == Err(KeyError("possibly_sensitive"))
  {
    var rs := [SampleTweet1(), SampleTweet2()];
    assert rs[..1] == [SampleTweet1()] && rs[..1][..0] == [];
  }

  /** Already the first sample tweet raises for the keys the code spells differently
      from the data: 'text' (the data has 'full_text'), 'status_count' (the data has
      'statuses_count') and 'retweet_count' under 'user' (the data has it at the top). */
  lemma SampleTweetsMisspelledKeysRaise()
    ensures Collect([SampleTweet1(), SampleTweet2()], TextOf) == Err(KeyError("text"))
    ensures Collect([SampleTweet1(), SampleTweet2()], StatusesCountOf) == Err(KeyError("status_count"))
    ensures Collect([SampleTweet1(), SampleTweet2()], RetweetCountOf) == Err(KeyError("retweet_count"))
  {
    var rs := [SampleTweet1(), SampleTweet2()];
    assert rs[..1] == [SampleTweet1()] && rs[..1][..0] == [];
    CollectStopsAtFailure(rs, 1, TextOf);
    CollectStopsAtFailure(rs, 1, StatusesCountOf);
    CollectStopsAtFailure(rs, 1, RetweetCountOf);
  }
}
