/**
 * A user of the MovieLens dataset: id, gender, age and an insertion-ordered
 * title -> rating dict, rendered as one prompt sentence. The description
 * and embedding are filled in later by the driver.
 */
module MovieUsers {
  import opened Wrappers
  import opened Exceptions
  import opened Dicts
  import Text
  import opened Llm

  type Rankings = Dict<string, int>

  /** The ages the table knows. */
  const AgeKeys: set<int> := {1, 18, 25, 35, 45, 50, 56}

  /** `AGE_DICT.get(age)`. */
  function AgeBucket(age: int): (r: Option<string>)
    ensures r.Some? <==> age in AgeKeys
  {
    if age == 1 then Some("Under 18")
    else if age == 18 then Some("18-24")
    else if age == 25 then Some("25-34")
    else if age == 35 then Some("35-44")
    else if age == 45 then Some("45-49")
    else if age == 50 then Some("50-55")
    else if age == 56 then Some("56+")
    else None
  }

  /** Different ages of the table have different labels, so a label names its age. */
  lemma AgeBucketInjective(a: int, b: int)
    requires AgeBucket(a).Some? && AgeBucket(a) == AgeBucket(b)
    ensures a == b
  {
  }

  /** `"Male"` for `"M"`, and `"Female"` for any other value. */
  function GenderWord(gender: string): (w: string)
    ensures w == "Male" <==> gender == "M"
  {
    if gender == "M" then "Male" else "Female"
  }

  /** The fixed opening of the prompt. */
  function Opening(gender: string, bucket: string): string
  {
    "I am a " + GenderWord(gender) + " of age " + bucket + " and I rank movies as follows: "
  }

  /** One `"<title>: <rating>"` per ranked movie, in insertion order. */
  function Entries(r: Rankings): (s: seq<string>)
    requires r.Valid()
    ensures |s| == r.Length()
    ensures forall i :: 0 <= i < |s| ==> s[i] == r.keys[i] + ": " + Text.IntToString(r.entries[r.keys[i]])
  {
    seq(|r.keys|, i requires 0 <= i < |r.keys| => r.keys[i] + ": " + Text.IntToString(r.entries[r.keys[i]]))
  }

  /** `str(KeyError(age))`. */
  function UnknownAge(age: int): Error
  {
    Error(KeyError, Text.IntToString(age))
  }

  const NoItems := Error(AttributeError, "'NoneType' object has no attribute 'items'")

  /**
   * `prompt()`: the age is looked up before the rankings are read, so an
   * unknown age wins over missing rankings.
   */
  function PromptText(gender: string, age: int, rankings: Option<Rankings>): Result<string, Error>
    requires rankings.Some? ==> rankings.value.Valid()
  {
    match AgeBucket(age)
    case None => Failure(UnknownAge(age))
    case Some(bucket) =>
      if rankings.None? then Failure(NoItems)
      else Success(Opening(gender, bucket) + Text.Join(", ", Entries(rankings.value)))
  }

  /**
   * The prompt fails exactly when the age is not in the table (a lookup
   * error naming the age) or, for a known age, when there are no rankings.
   */
  lemma PromptOutcome(gender: string, age: int, rankings: Option<Rankings>)
    requires rankings.Some? ==> rankings.value.Valid()
    ensures PromptText(gender, age, rankings).Success? <==> age in AgeKeys && rankings.Some?
    ensures age !in AgeKeys ==> PromptText(gender, age, rankings) == Failure(Error(KeyError, Text.IntToString(age)))
    ensures age in AgeKeys && rankings.None? ==> PromptText(gender, age, rankings) == Failure(NoItems)
  {
  }

  /**
   * A successful prompt starts with the opening for the user's gender and
   * age label and continues with the comma-join of one entry per ranked
   * movie in insertion order; with no rankings it is just the opening,
   * which ends in `"follows: "`.
   */
  lemma PromptShape(gender: string, age: int, rankings: Rankings)
    requires rankings.Valid() && age in AgeKeys
    ensures var p := PromptText(gender, age, Some(rankings)).value;
      var o := Opening(gender, AgeBucket(age).value);
      && |o| <= |p| && p[..|o|] == o
      && p[|o|..] == Text.Join(", ", Entries(rankings))
    ensures |rankings.keys| == 0 ==>
      var p := PromptText(gender, age, Some(rankings)).value;
      |p| >= 9 && p[|p| - 9..] == "follows: "
  {
  }

  lemma {:induction false} EntriesTwo(a: string, x: int, b: string, y: int)
    requires a != b
    ensures Entries(Dict([a, b], map[a := x, b := y])) == [a + ": " + Text.IntToString(x), b + ": " + Text.IntToString(y)]
  {
  }

  /** The worked example: a woman aged 25 who ranked "Movie A" 5 and "Movie B" 2. */
  lemma PromptExample()
    ensures PromptText("F", 25, Some(Dict(["Movie A", "Movie B"], map["Movie A" := 5, "Movie B" := 2])))
         == Success("I am a " + "Female" + " of age " + "25-34" + " and I rank movies as follows: "
                    + (("Movie A" + ": " + "5") + ", " + ("Movie B" + ": " + "2")))
  {
    assert "Movie A" != "Movie B" by { assert "Movie A"[6] != "Movie B"[6]; }
    EntriesTwo("Movie A", 5, "Movie B", 2);
  }

  /** The pydantic `dict()` of a user. */
  datatype MovieRecord = MovieRecord(
    id: int,
    gender: string,
    age: int,
    rankings: Option<Rankings>,
    description: Option<Description>,
    embedding: Option<Embedding>)

  class MovieUser {
    const id: int
    const gender: string
    const age: int
    const rankings: Option<Rankings>
    var description: Option<Description>
    var embedding: Option<Embedding>

    /** The rankings dict, when present, is well formed. */
    ghost predicate Valid()
    {
      rankings.Some? ==> rankings.value.Valid()
    }

    constructor (id: int, gender: string, age: int, rankings: Option<Rankings>)
      requires rankings.Some? ==> rankings.value.Valid()
      ensures Valid()
      ensures this.id == id && this.gender == gender && this.age == age && this.rankings == rankings
      ensures description == None && embedding == None
    {
      this.id := id;
      this.gender := gender;
      this.age := age;
      this.rankings := rankings;
      description, embedding := None, None;
    }

    /** `prompt()`: it reads only the fields fixed at construction, so it changes nothing. */
    function Prompt(): (r: Result<string, Error>)
      requires Valid()
      ensures r.Success? <==> age in AgeKeys && rankings.Some?
    {
      PromptOutcome(gender, age, rankings);
      PromptText(gender, age, rankings)
    }

    /** `hash(user)` is `hash(user.id)`. */
    function HashKey(): int
    {
      id
    }

    /** `dict()`: every field of the user. */
    function Dict(): (r: MovieRecord)
      reads this
      ensures r.id == id && r.gender == gender && r.age == age && r.rankings == rankings && r.description == description && r.embedding == embedding
    {
      MovieRecord(id, gender, age, rankings, description, embedding)
    }
  }

  /** Two users with the same id hash alike, whatever their other fields. */
  lemma HashDependsOnlyOnId(a: MovieUser, b: MovieUser)
    requires a.id == b.id
    ensures a.HashKey() == b.HashKey()
  {
  }
}
