/**
 * A user of the music dataset: an insertion-ordered item -> rating dict,
 * a parallel item -> timestamp dict used to keep the newest observation,
 * and two renderings of the ratings as prompt text.
 */
module MusicUsers {
  import opened Wrappers
  import opened Exceptions
  import opened Dicts
  import Text
  import opened MusicItems
  import opened Llm

  type Ratings = Dict<MusicItem, int>

  // ------------------------------------------------------------------ history

  /** The `ratings` and `timestamps` dicts once they exist. */
  datatype Log = Log(ratings: Ratings, timestamps: Ratings) {
    /** Both dicts are well formed and have the same keys in the same order. */
    ghost predicate Parallel()
    {
      ratings.Valid() && timestamps.Valid() && ratings.keys == timestamps.keys
    }
  }

  function EmptyLog(): (log: Log)
    ensures log.Parallel()
  {
    Log(Empty(), Empty())
  }

  /** One `add(item, rating, timestamp)` on initialised dicts: a new item, or a strictly newer timestamp, wins. */
  function Observe(log: Log, item: MusicItem, rating: int, timestamp: int): Log
    requires log.Parallel()
  {
    if item !in log.ratings.entries || timestamp > log.timestamps.entries[item]
    then Log(log.ratings.Put(item, rating), log.timestamps.Put(item, timestamp))
    else log
  }

  /**
   * `add` keeps the two dicts parallel; a new item is appended with its
   * rating and timestamp; a known item is replaced only by a strictly
   * greater timestamp (so the first of equal timestamps wins); entries of
   * other items are untouched.
   */
  lemma ObserveSpec(log: Log, item: MusicItem, rating: int, timestamp: int)
    requires log.Parallel()
    ensures Observe(log, item, rating, timestamp).Parallel()
    ensures item !in log.ratings.entries ==>
      && Observe(log, item, rating, timestamp).ratings.keys == log.ratings.keys + [item]
      && Observe(log, item, rating, timestamp).ratings.entries == log.ratings.entries[item := rating]
      && Observe(log, item, rating, timestamp).timestamps.entries == log.timestamps.entries[item := timestamp]
    ensures item in log.ratings.entries && timestamp > log.timestamps.entries[item] ==>
      && Observe(log, item, rating, timestamp).ratings.keys == log.ratings.keys
      && Observe(log, item, rating, timestamp).ratings.entries == log.ratings.entries[item := rating]
      && Observe(log, item, rating, timestamp).timestamps.entries == log.timestamps.entries[item := timestamp]
    ensures item in log.ratings.entries && timestamp <= log.timestamps.entries[item] ==>
      Observe(log, item, rating, timestamp) == log
  {
    PutSpec(log.ratings, item, rating);
    PutSpec(log.timestamps, item, timestamp);
  }

  /** One observation of an item by a user. */
  datatype Obs = Obs(item: MusicItem, rating: int, timestamp: int)

  /** The dicts after `add`-ing `obs` in order, starting from `log`. */
  function Replay(log: Log, obs: seq<Obs>): (r: Log)
    requires log.Parallel()
    ensures r.Parallel()
    decreases |obs|
  {
    if |obs| == 0 then log
    else
      var prev := Replay(log, obs[..|obs| - 1]);
      var o := obs[|obs| - 1];
      ObserveSpec(prev, o.item, o.rating, o.timestamp);
      Observe(prev, o.item, o.rating, o.timestamp)
  }

  /** Observation `w` is the first observation of `item` with the greatest timestamp. */
  ghost predicate IsFirstNewest(obs: seq<Obs>, item: MusicItem, w: int)
  {
    && 0 <= w < |obs| && obs[w].item == item
    && (forall j :: 0 <= j < |obs| && obs[j].item == item ==> obs[j].timestamp <= obs[w].timestamp)
    && (forall j :: 0 <= j < w && obs[j].item == item ==> obs[j].timestamp < obs[w].timestamp)
  }

  /** Some observation in `obs` is of `item`. */
  ghost predicate Observed(obs: seq<Obs>, item: MusicItem)
  {
    exists j :: 0 <= j < |obs| && obs[j].item == item
  }

  lemma ObservedSnoc(pre: seq<Obs>, o: Obs, item: MusicItem)
    ensures Observed(pre + [o], item) <==> Observed(pre, item) || o.item == item
  {
    var obs := pre + [o];
    if Observed(pre, item) {
      var j :| 0 <= j < |pre| && pre[j].item == item;
      assert obs[j] == pre[j];
    }
    if o.item == item {
      assert obs[|pre|] == o;
    }
    if Observed(obs, item) && o.item != item {
      var j :| 0 <= j < |obs| && obs[j].item == item;
      assert j < |pre| && obs[j] == pre[j];
    }
  }

  /** An item is rated after a replay iff it was observed. */
  lemma {:induction false} RatedIffObserved(obs: seq<Obs>, item: MusicItem)
    ensures (item in Replay(EmptyLog(), obs).ratings.entries) <==> Observed(obs, item)
    decreases |obs|
  {
    if |obs| > 0 {
      var n := |obs| - 1;
      var pre, o := obs[..n], obs[n];
      assert obs == pre + [o];
      var prev := Replay(EmptyLog(), pre);
      assert Replay(EmptyLog(), obs) == Observe(prev, o.item, o.rating, o.timestamp);
      RatedIffObserved(pre, item);
      ObserveSpec(prev, o.item, o.rating, o.timestamp);
      ObservedSnoc(pre, o, item);
    }
  }

  lemma ExtendWinner(pre: seq<Obs>, o: Obs, item: MusicItem, w: int)
    requires IsFirstNewest(pre, item, w)
    ensures o.item != item || o.timestamp <= pre[w].timestamp ==> IsFirstNewest(pre + [o], item, w)
    ensures o.item == item && o.timestamp > pre[w].timestamp ==> IsFirstNewest(pre + [o], item, |pre|)
  {
    var obs := pre + [o];
    assert forall j :: 0 <= j < |pre| ==> obs[j] == pre[j];
  }

  lemma FirstWinner(pre: seq<Obs>, o: Obs)
    requires forall j :: 0 <= j < |pre| ==> pre[j].item != o.item
    ensures IsFirstNewest(pre + [o], o.item, |pre|)
  {
    var obs := pre + [o];
    assert forall j :: 0 <= j < |pre| ==> obs[j] == pre[j];
  }

  /**
   * After replaying any sequence of observations, an item is rated iff it
   * was observed, and its rating and timestamp are those of its first
   * observation with the greatest timestamp.
   */
  lemma {:induction false} FirstNewestObservationWins(obs: seq<Obs>, item: MusicItem)
    ensures (item in Replay(EmptyLog(), obs).ratings.entries) <==> (exists j :: 0 <= j < |obs| && obs[j].item == item)
    ensures item in Replay(EmptyLog(), obs).ratings.entries ==>
      exists w :: IsFirstNewest(obs, item, w)
        && Replay(EmptyLog(), obs).ratings.entries[item] == obs[w].rating
        && Replay(EmptyLog(), obs).timestamps.entries[item] == obs[w].timestamp
    decreases |obs|
  {
    RatedIffObserved(obs, item);
    if |obs| > 0 && item in Replay(EmptyLog(), obs).ratings.entries {
      var n := |obs| - 1;
      var pre, o := obs[..n], obs[n];
      assert obs == pre + [o];
      var prev := Replay(EmptyLog(), pre);
      var log := Replay(EmptyLog(), obs);
      assert log == Observe(prev, o.item, o.rating, o.timestamp);
      ObserveSpec(prev, o.item, o.rating, o.timestamp);
      FirstNewestObservationWins(pre, item);
      RatedIffObserved(pre, item);
      if item !in prev.ratings.entries {
        assert o.item == item;
        assert !Observed(pre, item);
        FirstWinner(pre, o);
        assert IsFirstNewest(obs, item, n);
      } else {
        var w :| IsFirstNewest(pre, item, w)
          && prev.ratings.entries[item] == pre[w].rating
          && prev.timestamps.entries[item] == pre[w].timestamp;
        ExtendWinner(pre, o, item, w);
        if o.item == item && o.timestamp > pre[w].timestamp {
          assert IsFirstNewest(obs, item, n);
        } else {
          assert IsFirstNewest(obs, item, w) && obs[w] == pre[w];
        }
      }
    }
  }

  // ---------------------------------------------------------------- rendering

  /** The category text, with `unknown` for an empty one. */
  function Category(item: MusicItem): string
  {
    if |item.categories| > 0 then item.categories else "unknown"
  }

  /** `"<title> of <brand> in <category> category"`. */
  function Phrase(item: MusicItem): string
  {
    item.title + " of " + item.brand + " in " + Category(item) + " category"
  }

  /** The entries of the first rendering, one `"<phrase>: <rating>"` per rated item, in insertion order. */
  function V1Entries(r: Ratings): (s: seq<string>)
    requires r.Valid()
    ensures |s| == r.Length()
    ensures forall i :: 0 <= i < |s| ==> s[i] == Phrase(r.keys[i]) + ": " + Text.IntToString(r.entries[r.keys[i]])
  {
    seq(|r.keys|, i requires 0 <= i < |r.keys| => Phrase(r.keys[i]) + ": " + Text.IntToString(r.entries[r.keys[i]]))
  }

  /** `prompt_v1` on initialised ratings. */
  function PromptV1Text(r: Ratings): string
    requires r.Valid()
  {
    "I have rated " + Text.IntToString(r.Length()) + " items. " + Text.Join(", ", V1Entries(r))
  }

  /**
   * The count in the first rendering is the number of distinct rated
   * items, and the list holds exactly one entry per rated item.
   */
  lemma PromptV1Counts(r: Ratings)
    requires r.Valid()
    ensures PromptV1Text(r) == "I have rated " + Text.IntToString(|r.entries.Keys|) + " items. " + Text.Join(", ", V1Entries(r))
    ensures |V1Entries(r)| == |r.entries.Keys|
  {
    LengthIsCardinality(r);
  }

  /** A single rated item renders as the count 1 followed by its one entry. */
  lemma PromptV1Single(item: MusicItem, rating: int)
    ensures PromptV1Text(Dict([item], map[item := rating]))
         == "I have rated " + "1" + " items. " + (Phrase(item) + ": " + Text.IntToString(rating))
  {
    var r := Dict([item], map[item := rating]);
    assert r.Valid() && r.Length() == 1;
    var e := V1Entries(r);
    assert e == [Phrase(item) + ": " + Text.IntToString(rating)];
    assert Text.Join(", ", e) == e[0];
    assert Text.IntToString(1) == "1";
  }

  /** The phrases of the items rated exactly `b`, in insertion order. */
  function Bucket(keys: seq<MusicItem>, entries: map<MusicItem, int>, b: int): seq<string>
    requires forall i :: 0 <= i < |keys| ==> keys[i] in entries
    decreases |keys|
  {
    if |keys| == 0 then []
    else
      var last := keys[|keys| - 1];
      Bucket(keys[..|keys| - 1], entries, b) + (if entries[last] == b then [Phrase(last)] else [])
  }

  const Openings: seq<string> := [
    "Items that I found terrible and rate them one of five: ",
    "Items that I found below average and rate them two of five: ",
    "Items that I found average and rate them three of five: ",
    "Items that I found good and rate them four of five: ",
    "I found following items excellent and rate theme five of five: "]

  /** The opening of the sentence for rating `b`. */
  function Verdict(b: int): string
    requires 1 <= b <= 5
  {
    Openings[b - 1]
  }

  /** The sentence for a bucket: empty when the bucket is empty. */
  function Sentence(bucket: seq<string>, b: int): string
    requires 1 <= b <= 5
  {
    if |bucket| > 0 then Verdict(b) + Text.Join(", ", bucket) + ". " else ""
  }

  /** `[x for x in desc if x]`. */
  function NonEmpty(xs: seq<string>): (ys: seq<string>)
    ensures forall i :: 0 <= i < |ys| ==> |ys[i]| > 0
  {
    if |xs| == 0 then [] else (if |xs[0]| > 0 then [xs[0]] else []) + NonEmpty(xs[1..])
  }

  /** The sentence of the second rendering for the items rated `b`. */
  function SentenceFor(r: Ratings, b: int): string
    requires r.Valid() && 1 <= b <= 5
  {
    Sentence(Bucket(r.keys, r.entries, b), b)
  }

  /** `prompt_v2` on initialised ratings. */
  function PromptV2Text(r: Ratings): string
    requires r.Valid()
  {
    Text.Join("\n", NonEmpty([SentenceFor(r, 5), SentenceFor(r, 4), SentenceFor(r, 3), SentenceFor(r, 2), SentenceFor(r, 1)]))
  }

  /** The candidate sentences for ratings `b` down to 1. */
  function SentencesFrom(r: Ratings, b: int): seq<string>
    requires r.Valid() && 0 <= b <= 5
    decreases b
  {
    if b == 0 then [] else [SentenceFor(r, b)] + SentencesFrom(r, b - 1)
  }

  /** The lines of the second rendering: one per non-empty bucket, from rating `b` down to 1. */
  function LinesFrom(r: Ratings, b: int): seq<string>
    requires r.Valid() && 0 <= b <= 5
    decreases b
  {
    if b == 0 then []
    else
      var bucket := Bucket(r.keys, r.entries, b);
      (if |bucket| > 0 then [Verdict(b) + Text.Join(", ", bucket) + ". "] else []) + LinesFrom(r, b - 1)
  }

  lemma {:induction false} FilterSentences(r: Ratings, b: int)
    requires r.Valid() && 0 <= b <= 5
    ensures NonEmpty(SentencesFrom(r, b)) == LinesFrom(r, b)
    ensures forall i :: 0 <= i < |LinesFrom(r, b)| ==> |LinesFrom(r, b)[i]| > 0
    decreases b
  {
    if b > 0 {
      FilterSentences(r, b - 1);
      var xs := SentencesFrom(r, b);
      assert xs[0] == SentenceFor(r, b) && xs[1..] == SentencesFrom(r, b - 1);
    }
  }

  /**
   * The second rendering is the newline-join of exactly one sentence per
   * non-empty bucket, in rating order 5 to 1: an empty bucket produces no
   * line, so no line is empty.
   */
  lemma PromptV2Lines(r: Ratings)
    requires r.Valid()
    ensures PromptV2Text(r) == Text.Join("\n", LinesFrom(r, 5))
    ensures forall i :: 0 <= i < |LinesFrom(r, 5)| ==> |LinesFrom(r, 5)[i]| > 0
  {
    FilterSentences(r, 5);
    FiveSentences(r);
  }

  lemma FiveSentences(r: Ratings)
    requires r.Valid()
    ensures SentencesFrom(r, 5) == [SentenceFor(r, 5), SentenceFor(r, 4), SentenceFor(r, 3), SentenceFor(r, 2), SentenceFor(r, 1)]
  {
    var s1 := SentencesFrom(r, 1);
    var s2 := SentencesFrom(r, 2);
    var s3 := SentencesFrom(r, 3);
    var s4 := SentencesFrom(r, 4);
    FiveLiteral(SentencesFrom(r, 5), SentenceFor(r, 5), SentenceFor(r, 4), SentenceFor(r, 3), SentenceFor(r, 2), SentenceFor(r, 1));
  }
  
  lemma FiveLiteral(xs: seq<string>, a: string, b: string, c: string, d: string, e: string)
    requires xs == [a] + ([b] + ([c] + ([d] + ([e] + []))))
    ensures xs == [a, b, c, d, e]
  {
  }

  /** The items rated inside 1..5, in insertion order. */
  function InRange(keys: seq<MusicItem>, entries: map<MusicItem, int>): (s: seq<MusicItem>)
    requires forall i :: 0 <= i < |keys| ==> keys[i] in entries
    ensures forall i :: 0 <= i < |s| ==> s[i] in entries && 1 <= entries[s[i]] <= 5
    decreases |keys|
  {
    if |keys| == 0 then []
    else
      var last := keys[|keys| - 1];
      InRange(keys[..|keys| - 1], entries) + (if 1 <= entries[last] <= 5 then [last] else [])
  }

  lemma {:induction false} BucketIgnoresOutOfRange(keys: seq<MusicItem>, entries: map<MusicItem, int>, b: int)
    requires forall i :: 0 <= i < |keys| ==> keys[i] in entries
    requires 1 <= b <= 5
    ensures Bucket(InRange(keys, entries), entries, b) == Bucket(keys, entries, b)
    decreases |keys|
  {
    if |keys| > 0 {
      var pre := keys[..|keys| - 1];
      var last := keys[|keys| - 1];
      BucketIgnoresOutOfRange(pre, entries, b);
      var f := InRange(pre, entries);
      if 1 <= entries[last] <= 5 {
        assert InRange(keys, entries) == f + [last];
        assert (f + [last])[..|f|] == f;
      } else {
        assert InRange(keys, entries) == f;
      }
    }
  }

  /**
   * Ratings outside 1..5 never appear in the second rendering: dropping
   * every item rated outside 1..5 leaves it unchanged.
   */
  lemma PromptV2IgnoresOutOfRange(r: Ratings, kept: Ratings)
    requires r.Valid() && kept.Valid()
    requires kept.keys == InRange(r.keys, r.entries)
    requires forall k :: k in kept.entries ==> k in r.entries && kept.entries[k] == r.entries[k]
    ensures PromptV2Text(kept) == PromptV2Text(r)
  {
    forall b | 1 <= b <= 5
      ensures Bucket(kept.keys, kept.entries, b) == Bucket(r.keys, r.entries, b)
    {
      BucketIgnoresOutOfRange(r.keys, r.entries, b);
      BucketOnSameValues(kept.keys, kept.entries, r.entries, b);
    }
  }

  lemma {:induction false} BucketOnSameValues(keys: seq<MusicItem>, e1: map<MusicItem, int>, e2: map<MusicItem, int>, b: int)
    requires forall i :: 0 <= i < |keys| ==> keys[i] in e1 && keys[i] in e2 && e1[keys[i]] == e2[keys[i]]
    ensures Bucket(keys, e1, b) == Bucket(keys, e2, b)
    decreases |keys|
  {
    if |keys| > 0 {
      BucketOnSameValues(keys[..|keys| - 1], e1, e2, b);
    }
  }

  /** Every item rated 1..5 lands in exactly one bucket: the bucket sizes add up to the number of such items. */
  lemma {:induction false} BucketsPartition(keys: seq<MusicItem>, entries: map<MusicItem, int>)
    requires forall i :: 0 <= i < |keys| ==> keys[i] in entries
    ensures |Bucket(keys, entries, 5)| + |Bucket(keys, entries, 4)| + |Bucket(keys, entries, 3)|
          + |Bucket(keys, entries, 2)| + |Bucket(keys, entries, 1)| == |InRange(keys, entries)|
    decreases |keys|
  {
    if |keys| > 0 {
      BucketsPartition(keys[..|keys| - 1], entries);
    }
  }

  // ---------------------------------------------------------------- the user

  const NoLen := Error(TypeError, "object of type 'NoneType' has no len()")
  const NoItems := Error(AttributeError, "'NoneType' object has no attribute 'items'")

  /** `dict()`: the record the driver writes for a user. The item keys stand for `str(item)`. */
  datatype MusicRecord = MusicRecord(
    id: string,
    ratings: seq<(MusicItem, int)>,
    prompt: string,
    description: Option<Description>,
    embedding: Option<Embedding>)

  /** `defaultdict(list)` read at `b`. */
  function Marks(marks: map<int, seq<string>>, b: int): seq<string>
  {
    if b in marks then marks[b] else []
  }

  class MusicUser {
    const id: string
    const newPrompt: bool
    var ratings: Option<Ratings>
    var timestamps: Option<Ratings>
    var description: Option<Description>
    var embedding: Option<Embedding>

    /** Both dicts are unset, or both are set and parallel. */
    ghost predicate Valid()
      reads this
    {
      && ratings.Some? == timestamps.Some?
      && (ratings.Some? ==> Log(ratings.value, timestamps.value).Parallel())
    }

    /** The dicts as `add` sees them: empty before the first call. */
    function History(): (log: Log)
      reads this
      requires Valid()
      ensures log.Parallel()
    {
      if ratings.None? then EmptyLog() else Log(ratings.value, timestamps.value)
    }

    constructor (id: string, newPrompt: bool)
      ensures Valid() && this.id == id && this.newPrompt == newPrompt
      ensures ratings == None && timestamps == None && description == None && embedding == None
    {
      this.id := id;
      this.newPrompt := newPrompt;
      ratings, timestamps := None, None;
      description, embedding := None, None;
    }

    /** `hash(user)` is `hash(user.id)`. */
    function HashKey(): string
    {
      id
    }

    /** `add`: the dicts are created on first use; then a new item or a strictly newer timestamp wins. */
    method Add(item: MusicItem, rating: int, timestamp: int)
      requires Valid()
      modifies this`ratings, this`timestamps
      ensures Valid()
      ensures ratings == Some(Observe(old(History()), item, rating, timestamp).ratings)
      ensures timestamps == Some(Observe(old(History()), item, rating, timestamp).timestamps)
    {
      if ratings.None? {
        ratings := Some(Empty());
        timestamps := Some(Empty());
      }
      ObserveSpec(History(), item, rating, timestamp);
      if item !in ratings.value.entries || timestamp > timestamps.value.entries[item] {
        ratings := Some(ratings.value.Put(item, rating));
        timestamps := Some(timestamps.value.Put(item, timestamp));
      }
    }

    /** What `prompt()` returns: `prompt_v2` when `new_prompt` is set, else `prompt_v1`. */
    function Rendering(): Result<string, Error>
      reads this
      requires Valid()
    {
      if ratings.None? then Failure(if newPrompt then NoItems else NoLen)
      else if newPrompt then Success(PromptV2Text(ratings.value))
      else Success(PromptV1Text(ratings.value))
    }

    /** `prompt_v1`. */
    function PromptV1(): (r: Result<string, Error>)
      reads this
      requires Valid()
    {
      if ratings.None? then Failure(NoLen) else Success(PromptV1Text(ratings.value))
    }

    /** `prompt_v2`: group the phrases by rating in one pass, then keep the non-empty sentences 5..1. */
    method PromptV2() returns (r: Result<string, Error>)
      requires Valid()
      ensures ratings.None? ==> r == Failure(NoItems)
      ensures ratings.Some? ==> r == Success(PromptV2Text(ratings.value))
    {
      if ratings.None? {
        return Failure(NoItems);
      }
      var d := ratings.value;
      var marks: map<int, seq<string>> := map[];
      for i := 0 to |d.keys|
        invariant forall b :: Marks(marks, b) == Bucket(d.keys[..i], d.entries, b)
      {
        var item := d.keys[i];
        var rating := d.entries[item];
        assert d.keys[..i + 1][..i] == d.keys[..i];
        marks := marks[rating := Marks(marks, rating) + [Phrase(item)]];
      }
      assert d.keys[..|d.keys|] == d.keys;
      var desc := [Sentence(Marks(marks, 5), 5), Sentence(Marks(marks, 4), 4), Sentence(Marks(marks, 3), 3),
                   Sentence(Marks(marks, 2), 2), Sentence(Marks(marks, 1), 1)];
      assert desc == [SentenceFor(d, 5), SentenceFor(d, 4), SentenceFor(d, 3), SentenceFor(d, 2), SentenceFor(d, 1)];
      r := Success(Text.Join("\n", NonEmpty(desc)));
    }

    /** `prompt()`. */
    method Prompt() returns (r: Result<string, Error>)
      requires Valid()
      ensures r == Rendering()
    {
      if newPrompt {
        r := PromptV2();
      } else {
        r := PromptV1();
      }
    }

    /** `dict()`: the id, one entry per rated item in insertion order, the prompt, description and embedding. */
    method Dict() returns (r: Result<MusicRecord, Error>)
      requires Valid()
      ensures ratings.None? ==> r == Failure(NoItems)
      ensures ratings.Some? ==> Rendering().Success? && r == Success(MusicRecord(id, ratings.value.Items(), Rendering().value, description, embedding))
    {
      if ratings.None? {
        return Failure(NoItems);
      }
      var items := ratings.value.Items();
      var p := Prompt();
      r := Success(MusicRecord(id, items, p.value, description, embedding));
    }
  }
}
