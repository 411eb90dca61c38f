/** Vote matching in the Twitter reader (socialpoll/twittervotes/twitter.go):
    each tweet decoded from the stream votes for every poll option its text
    mentions, compared without regard to case; the stream is filtered on the
    options joined with commas. The HTTP stream is an input: the sequence of
    decode results it yields. */
module TwitterVotes {
  import opened Text

  /** Whether a tweet mentions an option: the lower-cased text contains the
      lower-cased option, that is, the lower-cased option occurs at some
      position of the lower-cased text. */
  function Matches(text: string, option: string): (mentioned: bool)
    ensures mentioned <==> exists i :: OccursAt(ToLower(text), ToLower(option), i)
  {
    ContainsIffOccurs(ToLower(text), ToLower(option));
    Contains(ToLower(text), ToLower(option))
  }

  /** Case does not matter on either side. */
  lemma MatchesIgnoresCase(text: string, option: string)
    ensures Matches(ToLower(text), option) == Matches(text, option)
    ensures Matches(text, ToLower(option)) == Matches(text, option)
  {
    ToLowerIdempotent(text);
    ToLowerIdempotent(option);
  }

  /** The empty option is mentioned by every tweet. */
  lemma EmptyOptionMatches(text: string)
    ensures Matches(text, "")
  {
  }

  /** The votes one tweet casts: the options it mentions, as written in the
      options list (not lower-cased), in the order of the list, once per
      occurrence in the list. */
  function VotesIn(text: string, options: seq<string>): (votes: seq<string>)
    ensures |votes| <= |options|
    decreases |options|
  {
    if options == [] then []
    else
      var last := options[|options| - 1];
      VotesIn(text, options[..|options| - 1]) + (if Matches(text, last) then [last] else [])
  }

  /** Every option the tweet mentions is voted for as many times as it is
      listed, and no other string is. */
  lemma {:induction false} VotesCount(text: string, options: seq<string>, o: string)
    ensures multiset(VotesIn(text, options))[o] == if Matches(text, o) then multiset(options)[o] else 0
    decreases |options|
  {
    if options != [] {
      var front := options[..|options| - 1];
      var last := options[|options| - 1];
      VotesCount(text, front, o);
      assert options == front + [last];
      assert multiset(options) == multiset(front) + multiset([last]);
    }
  }

  /** An option is voted for exactly when it is listed and mentioned. */
  lemma VotesIff(text: string, options: seq<string>, o: string)
    ensures o in VotesIn(text, options) <==> o in options && Matches(text, o)
  {
    VotesCount(text, options, o);
  }

  /** Votes follow the order of the options list: the votes for a list split
      in two are the votes for the first part, then those for the second. */
  lemma {:induction false} VotesInOrder(text: string, a: seq<string>, b: seq<string>)
    ensures VotesIn(text, a + b) == VotesIn(text, a) + VotesIn(text, b)
    decreases |b|
  {
    if b == [] {
      assert a + b == a;
    } else {
      var front := b[..|b| - 1];
      assert (a + b)[..|a + b| - 1] == a + front;
      VotesInOrder(text, a, front);
    }
  }

  /** The inner loop of readFromTwitter: go through the options in order and
      send each one the tweet mentions. */
  method MatchTweet(text: string, options: seq<string>) returns (votes: seq<string>)
    ensures votes == VotesIn(text, options)
  {
    votes := [];
    var i := 0;
    while i < |options|
      invariant 0 <= i <= |options|
      invariant votes == VotesIn(text, options[..i])
    {
      var option := options[i];
      assert options[..i + 1][..i] == options[..i];
      if Matches(text, option) {
        votes := votes + [option];
      }
      i := i + 1;
    }
    assert options[..i] == options;
  }

  /** What the decoder yields for one tweet: its text, or an error (the
      connection was closed or the data was malformed). */
  datatype Decoded = Tweet(text: string) | DecodeFailure

  /** How many tweets are read before the first decode error. */
  function TweetCount(stream: seq<Decoded>): (n: nat)
    ensures n <= |stream|
    ensures forall i :: 0 <= i < n ==> stream[i].Tweet?
    ensures n < |stream| ==> stream[n] == DecodeFailure
    decreases |stream|
  {
    if stream == [] || stream[0] == DecodeFailure then 0 else 1 + TweetCount(stream[1..])
  }

  /** The votes the tweets cast, tweet after tweet. */
  function AllVotes(tweets: seq<Decoded>, options: seq<string>): seq<string>
    requires forall i :: 0 <= i < |tweets| ==> tweets[i].Tweet?
    decreases |tweets|
  {
    if tweets == [] then []
    else AllVotes(tweets[..|tweets| - 1], options) + VotesIn(tweets[|tweets| - 1].text, options)
  }

  /** Each tweet casts at most one vote per listed option. */
  lemma {:induction false} AllVotesBound(tweets: seq<Decoded>, options: seq<string>)
    requires forall i :: 0 <= i < |tweets| ==> tweets[i].Tweet?
    ensures |AllVotes(tweets, options)| <= |tweets| * |options|
    decreases |tweets|
  {
    if tweets != [] {
      var n := |tweets|;
      var k := |options|;
      AllVotesBound(tweets[..n - 1], options);
      assert |AllVotes(tweets, options)| <= (n - 1) * k + k;
      MulSucc(n - 1, k);
    }
  }

  lemma MulSucc(n: nat, k: nat)
    ensures n * k + k == (n + 1) * k
  {
  }

  /** The decode loop of readFromTwitter: read tweets until the first decode
      error and send the votes of each. Returns the votes sent, in order. */
  method ReadFromTwitter(stream: seq<Decoded>, options: seq<string>) returns (votes: seq<string>)
    ensures votes == AllVotes(stream[..TweetCount(stream)], options)
  {
    votes := [];
    var i := 0;
    while i < |stream| && stream[i].Tweet?
      invariant i <= TweetCount(stream)
      invariant votes == AllVotes(stream[..i], options)
      decreases |stream| - i
    {
      var cast := MatchTweet(stream[i].text, options);
      assert stream[..i + 1][..i] == stream[..i];
      votes := votes + cast;
      i := i + 1;
    }
    assert i == TweetCount(stream);
  }

  /** Nothing after the first decode error is examined. */
  lemma {:induction false} StopsAtFirstFailure(stream: seq<Decoded>, more: seq<Decoded>)
    requires DecodeFailure in stream
    ensures TweetCount(stream + more) == TweetCount(stream)
    ensures (stream + more)[..TweetCount(stream)] == stream[..TweetCount(stream)]
    decreases |stream|
  {
    assert (stream + more)[0] == stream[0];
    if stream[0] != DecodeFailure {
      assert (stream + more)[1..] == stream[1..] + more;
      StopsAtFirstFailure(stream[1..], more);
    }
  }

  /** The track parameter of the filter request: the options joined with
      commas. They can be recovered from it when there is at least one and
      none contains a comma. */
  function Track(options: seq<string>): (track: string)
    ensures |options| >= 1 && (forall i :: 0 <= i < |options| ==> ',' !in options[i]) ==>
      Split(track, ',') == options
  {
    if |options| >= 1 && (forall i :: 0 <= i < |options| ==> ',' !in options[i]) then
      SplitJoin(options, ',');
      Join(options, ',')
    else
      Join(options, ',')
  }
}
