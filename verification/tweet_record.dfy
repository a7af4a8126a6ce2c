/** The flat record built from a fetched tweet before it is stored (the
    dictionary assembled by `insert_tweet_data`).

    A tweet may carry the status it retweets. For a retweet, the entity
    lists (mentions, hashtags, URLs) are taken from the retweeted status and
    a nested record describes that status; everything else at the top level
    describes the outer tweet. */
module TweetRecord {
  import opened Wrappers

  datatype User = User(screenName: string)
  datatype Hashtag = Hashtag(text: string)
  datatype UrlEntity = UrlEntity(expandedUrl: string)

  /** The fields of a fetched status that the record reads. */
  datatype Tweet = Tweet(
    user: User,
    idStr: string,
    text: string,
    createdAt: string,
    userMentions: seq<User>,
    hashtags: seq<Hashtag>,
    urls: seq<UrlEntity>,
    retweetedStatus: Option<Tweet>)

  /** The nested `retweet_data` dictionary of a retweet. */
  datatype RetweetData = RetweetData(
    userName: string,
    tweetId: string,
    url: string,
    tweetText: string,
    tweetCreated: string,
    isRetweet: bool,
    userMentions: seq<string>,
    hashtags: seq<string>,
    tweetUrls: seq<string>)

  /** The record handed to storage; `retweetData` is `None` where
      `insert_tweet_data` leaves the dictionary empty. */
  datatype Record = Record(
    userName: string,
    tweetId: string,
    url: string,
    tweetText: string,
    tweetCreated: string,
    isRetweet: bool,
    userMentions: seq<string>,
    hashtags: seq<string>,
    tweetUrls: seq<string>,
    retweetData: Option<RetweetData>)

  const UrlPrefix: string := "https://twitter.com/"
  const StatusSegment: string := "/status/"

  /** `'https://twitter.com/{0}/status/{1}'` filled in. */
  function StatusUrl(screenName: string, idStr: string): string {
    UrlPrefix + screenName + StatusSegment + idStr
  }

  /** The position of the first `c` in `s`, or `|s|` when there is none. */
  function IndexOf(s: string, c: char): (i: nat)
    ensures i <= |s|
    ensures i < |s| ==> s[i] == c
    ensures forall j :: 0 <= j < i ==> s[j] != c
  {
    if |s| == 0 then 0
    else if s[0] == c then 0
    else 1 + IndexOf(s[1..], c)
  }

  /** Reads a status URL back into its screen name and status id; the
      screen name ends at the first `/`. */
  function ParseStatusUrl(url: string): Option<(string, string)> {
    if |url| < |UrlPrefix| || url[..|UrlPrefix|] != UrlPrefix then None
    else
      var rest := url[|UrlPrefix|..];
      var i := IndexOf(rest, '/');
      var tail := rest[i..];
      if |tail| < |StatusSegment| || tail[..|StatusSegment|] != StatusSegment then None
      else Some((rest[..i], tail[|StatusSegment|..]))
  }

  /** A status URL built from a screen name without `/` (as Twitter screen
      names are) reads back to the same screen name and id. */
  lemma StatusUrlRoundTrip(screenName: string, idStr: string)
    requires '/' !in screenName
    ensures ParseStatusUrl(StatusUrl(screenName, idStr)) == Some((screenName, idStr))
  {
    var u := StatusUrl(screenName, idStr);
    assert u[..|UrlPrefix|] == UrlPrefix;
    var rest := u[|UrlPrefix|..];
    assert rest == screenName + StatusSegment + idStr;
    assert rest[|screenName|] == '/';
    assert forall j :: 0 <= j < |screenName| ==> rest[j] == screenName[j];
    assert IndexOf(rest, '/') == |screenName|;
    assert rest[|screenName|..] == StatusSegment + idStr;
    assert rest[..|screenName|] == screenName;
  }

  /** Every URL that reads back is exactly the one built from its parts. */
  lemma ParsedStatusUrlRebuilds(url: string)
    requires ParseStatusUrl(url).Some?
    ensures StatusUrl(ParseStatusUrl(url).value.0, ParseStatusUrl(url).value.1) == url
  {
    var rest := url[|UrlPrefix|..];
    var i := IndexOf(rest, '/');
    var tail := rest[i..];
    assert tail == StatusSegment + tail[|StatusSegment|..];
    assert rest == rest[..i] + tail;
    assert url == UrlPrefix + rest;
  }

  /** The list comprehensions over a status's entities. */
  function ScreenNames(us: seq<User>): (names: seq<string>)
    ensures |names| == |us|
    ensures forall i :: 0 <= i < |us| ==> names[i] == us[i].screenName
  {
    seq(|us|, i requires 0 <= i < |us| => us[i].screenName)
  }

  function HashtagTexts(hs: seq<Hashtag>): (texts: seq<string>)
    ensures |texts| == |hs|
    ensures forall i :: 0 <= i < |hs| ==> texts[i] == hs[i].text
  {
    seq(|hs|, i requires 0 <= i < |hs| => hs[i].text)
  }

  function ExpandedUrls(us: seq<UrlEntity>): (urls: seq<string>)
    ensures |urls| == |us|
    ensures forall i :: 0 <= i < |us| ==> urls[i] == us[i].expandedUrl
  {
    seq(|us|, i requires 0 <= i < |us| => us[i].expandedUrl)
  }

  /** The record-building part of `insert_tweet_data`. The nested record's
      URL pairs the retweeted author's screen name with the OUTER tweet's
      id, as `insert_tweet_data` builds it. */
  function BuildRecord(t: Tweet): (r: Record)
    // the top-level identity fields always describe the outer tweet
    ensures r.userName == t.user.screenName && r.tweetId == t.idStr
    ensures r.tweetText == t.text && r.tweetCreated == t.createdAt
    ensures r.url == StatusUrl(t.user.screenName, t.idStr)
    ensures r.isRetweet <==> t.retweetedStatus.Some?
    ensures r.retweetData.Some? <==> t.retweetedStatus.Some?
    // a plain tweet's entity lists are its own
    ensures t.retweetedStatus.None? ==>
      && r.userMentions == ScreenNames(t.userMentions)
      && r.hashtags == HashtagTexts(t.hashtags)
      && r.tweetUrls == ExpandedUrls(t.urls)
    // a retweet's entity lists are the retweeted status's, at both levels
    ensures t.retweetedStatus.Some? ==>
      var rt := t.retweetedStatus.value;
      var d := r.retweetData.value;
      && r.userMentions == ScreenNames(rt.userMentions) == d.userMentions
      && r.hashtags == HashtagTexts(rt.hashtags) == d.hashtags
      && r.tweetUrls == ExpandedUrls(rt.urls) == d.tweetUrls
      && d.userName == rt.user.screenName && d.tweetId == rt.idStr
      && d.tweetText == rt.text && d.tweetCreated == rt.createdAt
      && !d.isRetweet
      && d.url == StatusUrl(rt.user.screenName, t.idStr)
  {
    var sourceUrl := StatusUrl(t.user.screenName, t.idStr);
    match t.retweetedStatus
    case None =>
      Record(t.user.screenName, t.idStr, sourceUrl, t.text, t.createdAt, false,
             ScreenNames(t.userMentions), HashtagTexts(t.hashtags), ExpandedUrls(t.urls), None)
    case Some(rt) =>
      var mentions := ScreenNames(rt.userMentions);
      var tags := HashtagTexts(rt.hashtags);
      var urls := ExpandedUrls(rt.urls);
      var data := RetweetData(rt.user.screenName, rt.idStr, StatusUrl(rt.user.screenName, t.idStr),
                              rt.text, rt.createdAt, false, mentions, tags, urls);
      Record(t.user.screenName, t.idStr, sourceUrl, t.text, t.createdAt, true,
             mentions, tags, urls, Some(data))
  }

  /** The nested record's URL reads back as the retweeted author with the
      outer tweet's id; so it names the retweeted status only when both
      tweets share an id. */
  lemma RetweetUrlUsesOuterId(t: Tweet)
    requires t.retweetedStatus.Some?
    requires '/' !in t.retweetedStatus.value.user.screenName
    ensures var rt := t.retweetedStatus.value;
      ParseStatusUrl(BuildRecord(t).retweetData.value.url) == Some((rt.user.screenName, t.idStr))
    ensures var rt := t.retweetedStatus.value;
      (BuildRecord(t).retweetData.value.url == StatusUrl(rt.user.screenName, rt.idStr)
       <==> rt.idStr == t.idStr)
  {
    var rt := t.retweetedStatus.value;
    StatusUrlRoundTrip(rt.user.screenName, t.idStr);
    StatusUrlRoundTrip(rt.user.screenName, rt.idStr);
  }
}
