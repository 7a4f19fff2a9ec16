/**
 * The clean-text rule of `find_full_text`: `re.sub("^.*:", "", text)`.
 * Without MULTILINE, `^` matches only at the start of the text, `.` matches
 * every character except a newline and `.*` is greedy, so the single match (if
 * any) runs from the start to the LAST colon before the first newline.
 */
module CleanTextRule {
  import opened Wrappers

  /** Where `.` stops matching: the index of the first newline, or |s|. */
  function LineEnd(s: string): (k: nat)
    ensures k <= |s|
    ensures '\n' !in s[..k]
    ensures k < |s| ==> s[k] == '\n'
  {
    if s == [] || s[0] == '\n' then 0
    else
      var k := 1 + LineEnd(s[1..]);
      assert s[..k] == [s[0]] + s[1..][..k - 1];
      k
  }

  /** The part of the text that `.*` can range over. */
  function FirstLine(s: string): string
  {
    s[..LineEnd(s)]
  }

  /** The index of the last colon of `s`, if any. */
  function LastColon(s: string): (j: Option<nat>)
    ensures j.None? <==> ':' !in s
    ensures j.Some? ==> j.value < |s| && s[j.value] == ':' && ':' !in s[j.value + 1..]
  {
    if s == [] then None
    else if s[|s| - 1] == ':' then Some(|s| - 1)
    else
      var j := LastColon(s[..|s| - 1]);
      assert s == s[..|s| - 1] + [s[|s| - 1]];
      if j.Some? then
        assert s[j.value + 1..] == s[..|s| - 1][j.value + 1..] + [s[|s| - 1]];
        j
      else j
  }

  /** `re.sub("^.*:", "", s)`: the text with the prefix through the last colon of
      its first line removed; unchanged when the first line has no colon. */
  function CleanText(s: string): (r: string)
    ensures ':' !in FirstLine(s) ==> r == s
    ensures ':' in FirstLine(s) ==>
      exists j :: 0 <= j < LineEnd(s) && s[j] == ':' && ':' !in s[j + 1..LineEnd(s)] && r == s[j + 1..]
  {
    match LastColon(FirstLine(s))
    case None => s
    case Some(j) =>
      assert FirstLine(s)[j + 1..] == s[j + 1..LineEnd(s)];
      s[j + 1..]
  }

  /** Dropping a prefix of the first line moves the first newline left by as much. */
  lemma {:induction false} LineEndOfSuffix(s: string, m: nat)
    requires m <= LineEnd(s)
    ensures LineEnd(s[m..]) == LineEnd(s) - m
    decreases m
  {
    if m > 0 {
      assert s != [] && s[0] != '\n';
      LineEndOfSuffix(s[1..], m - 1);
      assert s[1..][m - 1..] == s[m..];
    }
  }

  /** The first newline is where the contract of LineEnd says it is, and nowhere else. */
  lemma LineEndAt(s: string, k: nat)
    requires k <= |s| && '\n' !in s[..k] && (k < |s| ==> s[k] == '\n')
    ensures LineEnd(s) == k
  {
    var e := LineEnd(s);
    forall i | 0 <= i < k ensures s[i] != '\n' {
      assert s[..k][i] == s[i];
    }
    forall i | 0 <= i < e ensures s[i] != '\n' {
      assert s[..e][i] == s[i];
    }
  }

  /** The last colon is where the contract of LastColon says it is, and nowhere else. */
  lemma LastColonAt(s: string, j: nat)
    requires j < |s| && s[j] == ':' && ':' !in s[j + 1..]
    ensures LastColon(s) == Some(j)
  {
    var c := LastColon(s).value;
    forall i | j < i < |s| ensures s[i] != ':' {
      assert s[j + 1..][i - j - 1] == s[i];
    }
    forall i | c < i < |s| ensures s[i] != ':' {
      assert s[c + 1..][i - c - 1] == s[i];
    }
  }

  /** After stripping, the first line that remains holds no colon. */
  lemma CleanTextLeavesNoColon(s: string)
    ensures ':' !in FirstLine(CleanText(s))
  {
    var c := LastColon(FirstLine(s));
    if c.Some? {
      var j := c.value;
      LineEndOfSuffix(s, j + 1);
      assert FirstLine(s)[j + 1..] == s[j + 1..LineEnd(s)];
      assert FirstLine(CleanText(s)) == s[j + 1..LineEnd(s)];
    }
  }

  /** Applying the rule a second time changes nothing. */
  lemma CleanTextIdempotent(s: string)
    ensures CleanText(CleanText(s)) == CleanText(s)
  {
    CleanTextLeavesNoColon(s);
  }

  /** What is removed is always a prefix: the clean text is a suffix of the raw text. */
  lemma CleanTextIsSuffix(s: string)
    ensures |CleanText(s)| <= |s| && CleanText(s) == s[|s| - |CleanText(s)|..]
  {
  }

  /** Text without a newline is its own first line. */
  lemma SingleLine(s: string)
    requires '\n' !in s
    ensures FirstLine(s) == s
  {
    LineEndAt(s, |s|);
  }

  /** A one-line text `header:body` whose body holds no colon loses exactly `header:`. */
  lemma CleanTextStripsHeader(header: string, body: string)
    requires '\n' !in header && '\n' !in body && ':' !in body
    ensures CleanText(header + ":" + body) == body
  {
    var s := header + ":" + body;
    forall i | 0 <= i < |s| ensures s[i] != '\n' {
      if i < |header| { assert s[i] == header[i]; }
      else if i > |header| { assert s[i] == body[i - |header| - 1]; }
    }
    SingleLine(s);
    assert s[|header| + 1..] == body;
    LastColonAt(s, |header|);
  }

  /** The retweet header is removed through its colon; the space after it stays. */
  lemma CleanTextRetweetExample()
    ensures CleanText("RT @alice: hello world") == " hello world"
  {
    assert "RT @alice: hello world" == "RT @alice" + ":" + " hello world";
    CleanTextStripsHeader("RT @alice", " hello world");
  }

  /** Text without a colon is unchanged. */
  lemma CleanTextNoColonExample()
    ensures CleanText("hello world") == "hello world"
  {
    SingleLine("hello world");
  }

  /** The match is greedy: a later colon on the first line (in a URL) is the one cut at. */
  lemma CleanTextGreedyExample()
    ensures CleanText("RT @a: see http://t.co") == "//t.co"
  {
    assert "RT @a: see http://t.co" == "RT @a: see http" + ":" + "//t.co";
    CleanTextStripsHeader("RT @a: see http", "//t.co");
  }

  /** A colon after the first newline is out of reach of `.*`. */
  lemma CleanTextSecondLineExample()
    ensures CleanText("hi\nRT @a: x") == "hi\nRT @a: x"
  {
    var s := "hi\nRT @a: x";
    assert s[..2] == "hi";
    LineEndAt(s, 2);
  }
}
