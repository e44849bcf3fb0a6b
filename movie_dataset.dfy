/**
 * The MovieLens 1M dataset: a users table, a movies table and a ratings
 * table, joined into a dict from user id to user with a title -> rating
 * map. The three files are given as parsed tables; `None` is a file that
 * does not exist.
 */
module MovieDatasets {
  import opened Wrappers
  import opened Exceptions
  import opened Dicts
  import Text
  import opened MovieUsers

  datatype UserRow = UserRow(userId: int, gender: string, age: int)
  datatype MovieRow = MovieRow(movieId: int, title: string)
  datatype RatingRow = RatingRow(userId: int, movieId: int, rating: int)

  /** One `(movie_id, rating)` pair of a user's group. */
  datatype Pair = Pair(movieId: int, rating: int)

  /** One row of `user_score`: a user id and that user's pairs. */
  datatype Group = Group(userId: int, pairs: seq<Pair>)

  /** `f"{folder}/<name>"`: the paths are formatted, not joined. */
  function FilePath(folder: string, name: string): string
  {
    folder + "/" + name
  }

  function NoFile(path: string): Error
  {
    Error(FileNotFoundError, "[Errno 2] No such file or directory: " + Text.Quote(path))
  }

  // ----------------------------------------------------------------- user_score

  predicate Increasing(s: seq<int>)
  {
    forall i, j :: 0 <= i < j < |s| ==> s[i] < s[j]
  }

  /** `x` placed into the increasing `s`, once. */
  function Insert(x: int, s: seq<int>): seq<int>
    decreases |s|
  {
    if |s| == 0 then [x]
    else if x < s[0] then [x] + s
    else if x == s[0] then s
    else [s[0]] + Insert(x, s[1..])
  }

  /** Inserting adds `x` and keeps everything else. */
  lemma {:induction false} InsertMembers(x: int, s: seq<int>)
    ensures forall y :: y in Insert(x, s) <==> y == x || y in s
    decreases |s|
  {
    if |s| > 0 && x > s[0] {
      InsertMembers(x, s[1..]);
      assert s == [s[0]] + s[1..];
    }
  }

  /** Inserting into an increasing sequence keeps it increasing. */
  lemma {:induction false} InsertIncreasing(x: int, s: seq<int>)
    requires Increasing(s)
    ensures Increasing(Insert(x, s))
    decreases |s|
  {
    if |s| > 0 && x > s[0] {
      var t := Insert(x, s[1..]);
      InsertIncreasing(x, s[1..]);
      InsertMembers(x, s[1..]);
      forall k | 0 <= k < |t| ensures s[0] < t[k] {
        assert t[k] in t;
        if t[k] != x {
          var j :| 0 <= j < |s[1..]| && s[1..][j] == t[k];
          assert s[j + 1] == t[k];
        }
      }
      var r := [s[0]] + t;
      forall i, j | 0 <= i < j < |r| ensures r[i] < r[j] {
        assert r[j] == t[j - 1];
        if i > 0 {
          assert r[i] == t[i - 1];
        }
      }
    } else if |s| > 0 && x < s[0] {
      var r := [x] + s;
      forall i, j | 0 <= i < j < |r| ensures r[i] < r[j] {
        assert r[j] == s[j - 1];
        if i > 0 {
          assert r[i] == s[i - 1];
        } else if j > 1 {
          assert s[0] < s[j - 1];
        }
      }
    }
  }

  /** `x` placed into the increasing `s`: still increasing, with `x` added and nothing else. */
  lemma InsertSpec(x: int, s: seq<int>)
    requires Increasing(s)
    ensures Increasing(Insert(x, s))
    ensures forall y :: y in Insert(x, s) <==> y == x || y in s
  {
    InsertIncreasing(x, s);
    InsertMembers(x, s);
  }

  /** The distinct user ids of the ratings, ascending, as `groupby` sorts them. */
  function UserIds(ratings: seq<RatingRow>): seq<int>
    decreases |ratings|
  {
    if |ratings| == 0 then [] else Insert(ratings[|ratings| - 1].userId, UserIds(ratings[..|ratings| - 1]))
  }

  /** The pairs of user `uid`, in file order. */
  function PairsOf(ratings: seq<RatingRow>, uid: int): seq<Pair>
    decreases |ratings|
  {
    if |ratings| == 0 then []
    else
      var r := ratings[|ratings| - 1];
      PairsOf(ratings[..|ratings| - 1], uid) + (if r.userId == uid then [Pair(r.movieId, r.rating)] else [])
  }

  /**
   * `user_score`: one group per rating user, in ascending id order, each
   * holding that user's pairs in file order, none of them empty.
   */
  function UserScore(ratings: seq<RatingRow>): (gs: seq<Group>)
    ensures |gs| == |UserIds(ratings)| && forall i :: 0 <= i < |gs| ==> gs[i].userId == UserIds(ratings)[i]
    ensures forall i, j :: 0 <= i < j < |gs| ==> gs[i].userId < gs[j].userId
    ensures forall u :: u in UserIds(ratings) <==> exists i :: 0 <= i < |ratings| && ratings[i].userId == u
    ensures forall i :: 0 <= i < |gs| ==> gs[i].pairs == PairsOf(ratings, gs[i].userId) && |gs[i].pairs| > 0
  {
    var ids := UserIds(ratings);
    UserIdsIncreasing(ratings);
    UserIdsCover(ratings);
    GroupsNonEmpty(ratings);
    seq(|ids|, i requires 0 <= i < |ids| => Group(ids[i], PairsOf(ratings, ids[i])))
  }

  /** A user with a rating has a pair in its own group. */
  lemma {:induction false} PairsOfNonEmpty(ratings: seq<RatingRow>, i: int)
    requires 0 <= i < |ratings|
    ensures Pair(ratings[i].movieId, ratings[i].rating) in PairsOf(ratings, ratings[i].userId)
    decreases |ratings|
  {
    var n := |ratings| - 1;
    if i < n {
      PairsOfNonEmpty(ratings[..n], i);
    }
  }

  /** The user ids come out ascending. */
  lemma {:induction false} UserIdsIncreasing(ratings: seq<RatingRow>)
    ensures Increasing(UserIds(ratings))
    decreases |ratings|
  {
    if |ratings| > 0 {
      var n := |ratings| - 1;
      UserIdsIncreasing(ratings[..n]);
      InsertIncreasing(ratings[n].userId, UserIds(ratings[..n]));
    }
  }

  /** The user ids are exactly the ids that rate something. */
  lemma {:induction false} UserIdsCover(ratings: seq<RatingRow>)
    ensures forall u :: u in UserIds(ratings) <==> exists i :: 0 <= i < |ratings| && ratings[i].userId == u
    decreases |ratings|
  {
    if |ratings| > 0 {
      var n := |ratings| - 1;
      var pre := ratings[..n];
      UserIdsCover(pre);
      InsertMembers(ratings[n].userId, UserIds(pre));
      assert forall i :: 0 <= i < n ==> ratings[i] == pre[i];
      forall u | u in UserIds(ratings) ensures exists i :: 0 <= i < |ratings| && ratings[i].userId == u {
        if u != ratings[n].userId {
          var i :| 0 <= i < n && pre[i].userId == u;
          assert ratings[i].userId == u;
        }
      }
      forall u | exists i :: 0 <= i < |ratings| && ratings[i].userId == u ensures u in UserIds(ratings) {
        var i :| 0 <= i < |ratings| && ratings[i].userId == u;
        if i < n {
          assert pre[i].userId == u;
        }
      }
    }
  }

  /** Every rating user has at least one pair. */
  lemma GroupsNonEmpty(ratings: seq<RatingRow>)
    ensures forall u :: u in UserIds(ratings) ==> |PairsOf(ratings, u)| > 0
  {
    UserIdsCover(ratings);
    forall u | u in UserIds(ratings) ensures |PairsOf(ratings, u)| > 0 {
      var i :| 0 <= i < |ratings| && ratings[i].userId == u;
      PairsOfNonEmpty(ratings, i);
    }
  }

  // ----------------------------------------------------------------- movie_dict

  predicate DistinctMovieIds(movies: seq<MovieRow>)
  {
    forall i, j :: 0 <= i < j < |movies| ==> movies[i].movieId != movies[j].movieId
  }

  function TitleMap(movies: seq<MovieRow>): map<int, string>
    decreases |movies|
  {
    if |movies| == 0 then map[] else TitleMap(movies[..|movies| - 1])[movies[|movies| - 1].movieId := movies[|movies| - 1].title]
  }

  /** `movie_dict`: movie id -> title; a repeated movie id is refused. */
  function MovieDict(movies: seq<MovieRow>): Result<map<int, string>, Error>
  {
    if !DistinctMovieIds(movies) then Failure(DuplicateIndex) else Success(TitleMap(movies))
  }

  /** With distinct ids, `movie_dict` holds exactly the movies of the file, each under its id with its title. */
  lemma {:induction false} MovieDictSpec(movies: seq<MovieRow>)
    requires DistinctMovieIds(movies)
    ensures forall m :: m in TitleMap(movies) <==> exists i :: 0 <= i < |movies| && movies[i].movieId == m
    ensures forall i :: 0 <= i < |movies| ==> TitleMap(movies)[movies[i].movieId] == movies[i].title
    decreases |movies|
  {
    if |movies| > 0 {
      var n := |movies| - 1;
      assert forall i :: 0 <= i < n ==> movies[i] == movies[..n][i];
      MovieDictSpec(movies[..n]);
    }
  }

  // ------------------------------------------------------------------ rankings

  function UnknownMovie(movieId: int): Error
  {
    Error(KeyError, Text.IntToString(movieId))
  }

  /** `{movie_dict[m]['title']: r for m, r in pairs}`, evaluated left to right. */
  function Rankings(titles: map<int, string>, pairs: seq<Pair>): Result<Dict<string, int>, Error>
    decreases |pairs|
  {
    if |pairs| == 0 then Success(Empty())
    else
      var p := pairs[|pairs| - 1];
      match Rankings(titles, pairs[..|pairs| - 1])
      case Failure(e) => Failure(e)
      case Success(d) =>
        if p.movieId !in titles then Failure(UnknownMovie(p.movieId)) else Success(d.Put(titles[p.movieId], p.rating))
  }

  /** Pair `i` ranks a movie titled `t`. */
  predicate RanksTitle(titles: map<int, string>, pairs: seq<Pair>, i: int, t: string)
    requires 0 <= i < |pairs|
  {
    pairs[i].movieId in titles && titles[pairs[i].movieId] == t
  }

  /** The rankings fail exactly when some pair names a movie `movie_dict` lacks. */
  lemma {:induction false} RankingsFails(titles: map<int, string>, pairs: seq<Pair>)
    ensures Rankings(titles, pairs).Failure? <==> exists i :: 0 <= i < |pairs| && pairs[i].movieId !in titles
    decreases |pairs|
  {
    if |pairs| > 0 {
      var n := |pairs| - 1;
      var pre := pairs[..n];
      RankingsFails(titles, pre);
      assert forall i :: 0 <= i < n ==> pairs[i] == pre[i];
      if Rankings(titles, pre).Failure? {
        var i :| 0 <= i < n && pre[i].movieId !in titles;
        assert pairs[i].movieId !in titles;
      }
    }
  }

  /** A failure is the lookup error of the first pair whose movie `movie_dict` lacks. */
  lemma {:induction false} RankingsFirstError(titles: map<int, string>, pairs: seq<Pair>, i: int)
    requires 0 <= i < |pairs| && pairs[i].movieId !in titles
    requires forall j :: 0 <= j < i ==> pairs[j].movieId in titles
    ensures Rankings(titles, pairs) == Failure(UnknownMovie(pairs[i].movieId))
    decreases |pairs|
  {
    var n := |pairs| - 1;
    var pre := pairs[..n];
    assert forall j :: 0 <= j < n ==> pairs[j] == pre[j];
    if i < n {
      RankingsFirstError(titles, pre, i);
    } else {
      RankingsFails(titles, pre);
      assert forall j :: 0 <= j < n ==> pre[j].movieId in titles;
      assert Rankings(titles, pre).Success?;
      assert pairs[|pairs| - 1] == pairs[i];
    }
  }


  /** Successful rankings are a well-formed dict whose keys are the titles of the pairs. */
  lemma {:induction false} RankingsTitles(titles: map<int, string>, pairs: seq<Pair>)
    ensures Rankings(titles, pairs).Success? ==>
      && Rankings(titles, pairs).value.Valid()
      && forall t :: t in Rankings(titles, pairs).value.entries <==> exists i :: 0 <= i < |pairs| && RanksTitle(titles, pairs, i, t)
    decreases |pairs|
  {
    if |pairs| > 0 {
      var n := |pairs| - 1;
      var pre := pairs[..n];
      RankingsTitles(titles, pre);
      if Rankings(titles, pre).Success? && pairs[n].movieId in titles {
        var d := Rankings(titles, pre).value;
        PutSpec(d, titles[pairs[n].movieId], pairs[n].rating);
        forall t ensures t in Rankings(titles, pairs).value.entries <==> exists i :: 0 <= i < |pairs| && RanksTitle(titles, pairs, i, t) {
          if t in d.entries {
            var i :| 0 <= i < n && RanksTitle(titles, pre, i, t);
            assert pre[i] == pairs[i];
            assert RanksTitle(titles, pairs, i, t);
          }
          if t == titles[pairs[n].movieId] {
            assert RanksTitle(titles, pairs, n, t);
          }
          if exists i :: 0 <= i < |pairs| && RanksTitle(titles, pairs, i, t) {
            var i :| 0 <= i < |pairs| && RanksTitle(titles, pairs, i, t);
            if i < n {
              assert pre[i] == pairs[i];
              assert RanksTitle(titles, pre, i, t);
            }
          }
        }
      }
    }
  }

  /** Two movies with the same title collapse into one entry, and the rating of the last pair with that title wins. */
  lemma {:induction false} RankingsLastWins(titles: map<int, string>, pairs: seq<Pair>, i: int)
    requires 0 <= i < |pairs| && Rankings(titles, pairs).Success? && pairs[i].movieId in titles
    requires forall j :: i < j < |pairs| ==> !RanksTitle(titles, pairs, j, titles[pairs[i].movieId])
    ensures titles[pairs[i].movieId] in Rankings(titles, pairs).value.entries
    ensures Rankings(titles, pairs).value.entries[titles[pairs[i].movieId]] == pairs[i].rating
    decreases |pairs|
  {
    var n := |pairs| - 1;
    var pre := pairs[..n];
    if i < n {
      assert Rankings(titles, pre).Success?;
      forall j | i < j < n
        ensures !RanksTitle(titles, pre, j, titles[pre[i].movieId])
      {
        assert pre[j] == pairs[j] && pre[i] == pairs[i];
        assert !RanksTitle(titles, pairs, j, titles[pairs[i].movieId]);
      }
      RankingsLastWins(titles, pre, i);
      assert !RanksTitle(titles, pairs, n, titles[pairs[i].movieId]);
    }
  }

  // ---------------------------------------------------------------------- data

  /** What one pass of the `data` loop builds: the user's fields. */
  datatype Profile = Profile(id: int, gender: string, age: int, rankings: Dict<string, int>)

  /** pydantic refusing a gender other than `"M"` or `"F"`. */
  const BadGender := Error(ValidationError, "1 validation error for MovieUser")

  /** The `user_id` column of the users table. */
  function UserColumn(rows: seq<UserRow>): (ids: seq<int>)
    ensures |ids| == |rows| && forall i :: 0 <= i < |rows| ==> ids[i] == rows[i].userId
  {
    seq(|rows|, i requires 0 <= i < |rows| => rows[i].userId)
  }

  /** The first users-table row of `uid`. */
  function FirstRow(users: seq<UserRow>, uid: int): Option<UserRow>
    decreases |users|
  {
    if |users| == 0 then None
    else if users[0].userId == uid then Some(users[0])
    else FirstRow(users[1..], uid)
  }

  /** `users.loc[users.user_id == uid].to_dict('records')[0]`: the earliest row of `uid`, if any. */
  lemma {:induction false} FirstRowSpec(users: seq<UserRow>, uid: int)
    ensures FirstRow(users, uid).None? <==> forall i :: 0 <= i < |users| ==> users[i].userId != uid
    ensures FirstRow(users, uid).Some? ==> FirstRow(users, uid).value.userId == uid
    ensures FirstRow(users, uid).Some? ==>
      exists i :: (0 <= i < |users| && users[i] == FirstRow(users, uid).value
                   && forall j :: 0 <= j < i ==> users[j].userId != uid)
    decreases |users|
  {
    if |users| > 0 && users[0].userId != uid {
      FirstRowSpec(users[1..], uid);
      assert forall i :: 1 <= i < |users| ==> users[i] == users[1..][i - 1];
      if FirstRow(users, uid).Some? {
        var i :| 0 <= i < |users| - 1 && users[1..][i] == FirstRow(users, uid).value
          && users[1..][i].userId == uid && forall j :: 0 <= j < i ==> users[1..][j].userId != uid;
        assert users[i + 1] == FirstRow(users, uid).value;
      }
    } else if |users| > 0 {
      assert users[0] == FirstRow(users, uid).value;
    }
  }

  /**
   * One pass of the `data` loop for group `g`: the rankings (which read
   * `movie_dict`), then the user's row, then the model's validation.
   */
  function MakeProfile(titles: Result<map<int, string>, Error>, users: Result<seq<UserRow>, Error>, g: Group): Result<Profile, Error>
  {
    if titles.Failure? && |g.pairs| > 0 then Failure(titles.error)
    else
      var rankings := Rankings(if titles.Success? then titles.value else map[], g.pairs);
      if rankings.Failure? then Failure(rankings.error)
      else if users.Failure? then Failure(users.error)
      else match FirstRow(users.value, g.userId)
        case None => Failure(Error(IndexError, ListIndexOutOfRange))
        case Some(row) =>
          if row.gender != "M" && row.gender != "F" then Failure(BadGender)
          else Success(Profile(g.userId, row.gender, row.age, rankings.value))
  }

  /** The users built before the loop stopped, and the exception that stopped it, if any. */
  datatype Built = Built(profiles: seq<Profile>, error: Option<Error>)

  /** One pass of the `data` loop per group, as if none had raised. */
  function Attempts(titles: Result<map<int, string>, Error>, users: Result<seq<UserRow>, Error>, groups: seq<Group>): (rs: seq<Result<Profile, Error>>)
    ensures |rs| == |groups| && forall i :: 0 <= i < |groups| ==> rs[i] == MakeProfile(titles, users, groups[i])
  {
    seq(|groups|, i requires 0 <= i < |groups| => MakeProfile(titles, users, groups[i]))
  }

  /** The passes `rs` in order, stopping at the first exception. */
  function Collect(rs: seq<Result<Profile, Error>>): (b: Built)
    ensures |b.profiles| <= |rs|
    ensures b.error.None? ==> |b.profiles| == |rs|
    ensures b.error.Some? ==> |b.profiles| < |rs| && rs[|b.profiles|] == Failure(b.error.value)
    ensures forall i :: 0 <= i < |b.profiles| ==> rs[i] == Success(b.profiles[i])
    decreases |rs|
  {
    if |rs| == 0 then Built([], None)
    else
      var n := |rs| - 1;
      var b := Collect(rs[..n]);
      assert forall i :: 0 <= i < n ==> rs[i] == rs[..n][i];
      if b.error.Some? then b
      else match rs[n]
        case Failure(e) => Built(b.profiles, Some(e))
        case Success(p) => Built(b.profiles + [p], None)
  }

  /** The `data` loop over `groups`, stopping at the first exception. */
  function BuildAll(titles: Result<map<int, string>, Error>, users: Result<seq<UserRow>, Error>, groups: seq<Group>): Built
  {
    Collect(Attempts(titles, users, groups))
  }

  /** The users table, or the error reading it raises. */
  function UsersTable(folder: string, file: Option<seq<UserRow>>): Result<seq<UserRow>, Error>
  {
    if file.None? then Failure(NoFile(FilePath(folder, "users.dat"))) else Success(file.value)
  }

  /** `movie_dict`, or the error reading or indexing the movies raises. */
  function TitlesTable(folder: string, file: Option<seq<MovieRow>>): Result<map<int, string>, Error>
  {
    if file.None? then Failure(NoFile(FilePath(folder, "movies.dat"))) else MovieDict(file.value)
  }

  /** The whole `data` computation: no ratings file stops it before the first user. */
  function DataOutcome(folder: string, users: Option<seq<UserRow>>, movies: Option<seq<MovieRow>>, ratings: Option<seq<RatingRow>>): Built
  {
    if ratings.None? then Built([], Some(NoFile(FilePath(folder, "ratings.dat"))))
    else BuildAll(TitlesTable(folder, movies), UsersTable(folder, users), UserScore(ratings.value))
  }

  /** The ids of the profiles, in order. */
  function ProfileIds(ps: seq<Profile>): (ids: seq<int>)
    ensures |ids| == |ps| && forall i :: 0 <= i < |ps| ==> ids[i] == ps[i].id
  {
    seq(|ps|, i requires 0 <= i < |ps| => ps[i].id)
  }

  /** The profiles built from groups with strictly increasing ids have strictly increasing ids. */
  lemma BuiltIdsIncreasing(titles: Result<map<int, string>, Error>, users: Result<seq<UserRow>, Error>, groups: seq<Group>)
    requires forall i, j :: 0 <= i < j < |groups| ==> groups[i].userId < groups[j].userId
    ensures Increasing(ProfileIds(BuildAll(titles, users, groups).profiles))
  {
    var b := BuildAll(titles, users, groups);
    forall i | 0 <= i < |b.profiles| ensures b.profiles[i].id == groups[i].userId {
      MakeProfileSpec(titles, users, groups[i]);
    }
  }

  /**
   * A profile is built only when the movies could be read (or the group
   * is empty), the user has a row, and its gender is `"M"` or `"F"`; the
   * profile then carries the group's id and rankings and the first row's
   * gender and age.
   */
  lemma MakeProfileSpec(titles: Result<map<int, string>, Error>, users: Result<seq<UserRow>, Error>, g: Group)
    requires MakeProfile(titles, users, g).Success?
    ensures var p := MakeProfile(titles, users, g).value;
      && (titles.Success? || |g.pairs| == 0)
      && users.Success?
      && FirstRow(users.value, g.userId) == Some(UserRow(g.userId, p.gender, p.age))
      && (p.gender == "M" || p.gender == "F")
      && p.id == g.userId
      && Success(p.rankings) == Rankings(if titles.Success? then titles.value else map[], g.pairs)
  {
    FirstRowSpec(users.value, g.userId);
  }

  /**
   * Without an exception every rating user gets a profile, in ascending id
   * order, whose rankings are its group's and whose gender and age come
   * from its first users-table row.
   */
  lemma DataComplete(folder: string, users: Option<seq<UserRow>>, movies: Option<seq<MovieRow>>, ratings: Option<seq<RatingRow>>)
    requires DataOutcome(folder, users, movies, ratings).error.None?
    ensures ratings.Some?
    ensures ProfileIds(DataOutcome(folder, users, movies, ratings).profiles) == UserIds(ratings.value)
    ensures Increasing(UserIds(ratings.value))
    ensures forall u :: u in UserIds(ratings.value) <==> exists i :: 0 <= i < |ratings.value| && ratings.value[i].userId == u
    ensures var ps := DataOutcome(folder, users, movies, ratings).profiles;
      forall i :: 0 <= i < |ps| ==>
        && users.Some?
        && FirstRow(users.value, ps[i].id) == Some(UserRow(ps[i].id, ps[i].gender, ps[i].age))
        && (ps[i].gender == "M" || ps[i].gender == "F")
        && movies.Some? && MovieDict(movies.value).Success?
        && Success(ps[i].rankings) == Rankings(MovieDict(movies.value).value, PairsOf(ratings.value, ps[i].id))
  {
    var gs := UserScore(ratings.value);
    UserIdsIncreasing(ratings.value);
    UserIdsCover(ratings.value);
    var titles := TitlesTable(folder, movies);
    var ps := BuildAll(titles, UsersTable(folder, users), gs);
    if |gs| > 0 {
      MakeProfileSpec(titles, UsersTable(folder, users), gs[0]);
    }
    forall i | 0 <= i < |ps.profiles|
      ensures && users.Some?
              && FirstRow(users.value, ps.profiles[i].id) == Some(UserRow(ps.profiles[i].id, ps.profiles[i].gender, ps.profiles[i].age))
              && (ps.profiles[i].gender == "M" || ps.profiles[i].gender == "F")
              && movies.Some? && MovieDict(movies.value).Success?
              && Success(ps.profiles[i].rankings) == Rankings(MovieDict(movies.value).value, PairsOf(ratings.value, ps.profiles[i].id))
    {
      assert gs[i] in gs;
      MakeProfileSpec(titles, UsersTable(folder, users), gs[i]);
    }
    forall i | 0 <= i < |ps.profiles| ensures ps.profiles[i].id == UserIds(ratings.value)[i] {
      MakeProfileSpec(titles, UsersTable(folder, users), gs[i]);
    }
  }

  /** The users of `d` are well formed, each stored under its own id. */
  ghost predicate StoredWell(d: Dict<int, MovieUser>)
  {
    && d.Valid()
    && forall k :: k in d.entries ==> d.entries[k].Valid() && d.entries[k].id == k
  }

  /** `d` holds exactly the users built from `ps`, in order, none yet described or embedded. */
  ghost predicate Holds(d: Dict<int, MovieUser>, ps: seq<Profile>)
    reads d.entries.Values
  {
    && d.keys == ProfileIds(ps)
    && forall i :: 0 <= i < |ps| ==>
         && ps[i].id in d.entries
         && var u := d.entries[ps[i].id];
         && u.gender == ps[i].gender && u.age == ps[i].age && u.rankings == Some(ps[i].rankings)
         && u.description.None? && u.embedding.None?
  }

  /** What `dataset[...]` will see: the error building `data` will raise, if it is still to be built, and the user ids it will hold. */
  datatype View = View(pending: Option<Error>, ids: set<int>)

  /** A key accepted by `__getitem__`. */
  datatype Key =
    | IntKey(n: int)
    | SliceKey(start: Option<int>, stop: Option<int>, step: Option<int>)
    | ListKey(keys: seq<Key>)
    | OtherKey

  /** The shape of what `__getitem__` returns, with users named by id. */
  datatype Shape = OneId(id: int) | ManyIds(items: seq<Shape>)

  /** The outcome of one lookup, and the view after it. */
  datatype Looked = Looked(result: Result<Shape, Error>, view: View)

  const InvalidKey := Error(ValueError, "Invalid type for user_id")
  const ZeroStep := Error(ValueError, "range() arg 3 must not be zero")

  /** `range(start, stop, step)` for a non-zero step. */
  function Range(start: int, stop: int, step: int): seq<int>
    requires step != 0
    decreases if step > 0 then stop - start else start - stop
  {
    if step > 0 then (if start >= stop then [] else [start] + Range(start + step, stop, step))
    else (if start <= stop then [] else [start] + Range(start + step, stop, step))
  }

  /** `range` yields `start, start + step, start + 2 * step, ...`. */
  lemma {:induction false} RangeValues(start: int, stop: int, step: int)
    requires step != 0
    ensures forall i :: 0 <= i < |Range(start, stop, step)| ==> Range(start, stop, step)[i] == start + i * step
    decreases if step > 0 then stop - start else start - stop
  {
    if (step > 0 && start < stop) || (step < 0 && start > stop) {
      RangeValues(start + step, stop, step);
      var r := Range(start + step, stop, step);
      forall i | 1 <= i < |r| + 1 ensures ([start] + r)[i] == start + i * step {
        assert ([start] + r)[i] == r[i - 1] == start + step + (i - 1) * step;
      }
    }
  }

  /** Every value `range` yields lies strictly before `stop`, on the side `step` points to. */
  lemma {:induction false} RangeBounds(start: int, stop: int, step: int)
    requires step != 0
    ensures forall x :: x in Range(start, stop, step) ==> if step > 0 then start <= x < stop else stop < x <= start
    decreases if step > 0 then stop - start else start - stop
  {
    if (step > 0 && start < stop) || (step < 0 && start > stop) {
      RangeBounds(start + step, stop, step);
    }
  }

  /** With step 1, `range(start, stop)` yields `start, start + 1, ..., stop - 1`. */
  lemma {:induction false} UnitRange(start: int, stop: int)
    ensures |Range(start, stop, 1)| == if start < stop then stop - start else 0
    ensures forall i :: 0 <= i < |Range(start, stop, 1)| ==> Range(start, stop, 1)[i] == start + i
    decreases stop - start
  {
    if start < stop {
      UnitRange(start + 1, stop);
    }
  }

  /** `dataset[n]` on an integer. */
  function LookInt(v: View, n: int): Looked
  {
    if v.pending.Some? then Looked(Failure(v.pending.value), View(None, v.ids))
    else if n in v.ids then Looked(Success(OneId(n)), v)
    else Looked(Failure(Error(KeyError, Text.IntToString(n))), v)
  }

  /** `[dataset[n] for n in ns]`. */
  function LookInts(v: View, ns: seq<int>): (r: Looked)
    ensures r.result.Success? ==> r.result.value.ManyIds? && |r.result.value.items| == |ns|
    decreases |ns|
  {
    if |ns| == 0 then Looked(Success(ManyIds([])), v)
    else
      var head := LookInt(v, ns[0]);
      if head.result.Failure? then head
      else
        var rest := LookInts(head.view, ns[1..]);
        if rest.result.Failure? then rest else Looked(Success(ManyIds([head.result.value] + rest.result.value.items)), rest.view)
  }

  /** `dataset[key]`; `length` is `len(dataset)`, read only for a slice without a stop. */
  function Look(v: View, length: Result<nat, Error>, key: Key): Looked
    decreases key, 1
  {
    match key
    case IntKey(n) => LookInt(v, n)
    case SliceKey(start, stop, step) =>
      if stop.None? && length.Failure? then Looked(Failure(length.error), v)
      else
        var lo := if start.Some? then start.value else 1;
        var hi := if stop.Some? then stop.value else length.value;
        var stride := if step.Some? then step.value else 1;
        if stride == 0 then Looked(Failure(ZeroStep), v) else LookInts(v, Range(lo, hi, stride))
    case ListKey(keys) => LookAll(v, length, keys, key)
    case OtherKey => Looked(Failure(InvalidKey), v)
  }

  /** `[dataset[k] for k in keys]`, for the keys of the list `parent`. */
  function LookAll(v: View, length: Result<nat, Error>, keys: seq<Key>, ghost parent: Key): (r: Looked)
    requires forall k :: k in keys ==> k < parent
    ensures r.result.Success? ==> r.result.value.ManyIds? && |r.result.value.items| == |keys|
    decreases parent, 0, |keys|
  {
    if |keys| == 0 then Looked(Success(ManyIds([])), v)
    else
      assert keys[0] in keys && forall k :: k in keys[1..] ==> k in keys;
      var head := Look(v, length, keys[0]);
      if head.result.Failure? then head
      else
        var rest := LookAll(head.view, length, keys[1..], parent);
        if rest.result.Failure? then rest else Looked(Success(ManyIds([head.result.value] + rest.result.value.items)), rest.view)
  }

  /** Once `data` is built, lookups do not change what later lookups see. */
  lemma {:induction false} BuiltViewStays(v: View, length: Result<nat, Error>, key: Key)
    requires v.pending.None?
    ensures Look(v, length, key).view == v
    decreases key, 1
  {
    match key
    case IntKey(n) =>
    case SliceKey(start, stop, step) =>
      if !(stop.None? && length.Failure?) {
        var lo := if start.Some? then start.value else 1;
        var hi := if stop.Some? then stop.value else length.value;
        var stride := if step.Some? then step.value else 1;
        if stride != 0 {
          BuiltViewStaysInts(v, Range(lo, hi, stride));
        }
      }
    case ListKey(keys) => BuiltViewStaysAll(v, length, keys, key);
    case OtherKey =>
  }

  lemma {:induction false} BuiltViewStaysInts(v: View, ns: seq<int>)
    requires v.pending.None?
    ensures LookInts(v, ns).view == v
    decreases |ns|
  {
    if |ns| > 0 {
      BuiltViewStaysInts(v, ns[1..]);
    }
  }

  lemma {:induction false} BuiltViewStaysAll(v: View, length: Result<nat, Error>, keys: seq<Key>, parent: Key)
    requires v.pending.None? && forall k :: k in keys ==> k < parent
    ensures LookAll(v, length, keys, parent).view == v
    decreases parent, 0, |keys|
  {
    if |keys| > 0 {
      assert keys[0] in keys && forall k :: k in keys[1..] ==> k in keys;
      BuiltViewStays(v, length, keys[0]);
      BuiltViewStaysAll(v, length, keys[1..], parent);
    }
  }

  /**
   * On a built `data`, a list key succeeds exactly when each of its keys
   * does, and then returns their results element-wise, in list order.
   */
  lemma {:induction false} ListElementwise(v: View, length: Result<nat, Error>, keys: seq<Key>, parent: Key)
    requires v.pending.None? && forall k :: k in keys ==> k < parent
    ensures LookAll(v, length, keys, parent).result.Success? <==> forall i :: 0 <= i < |keys| ==> Look(v, length, keys[i]).result.Success?
    ensures LookAll(v, length, keys, parent).result.Success? ==>
      var items := LookAll(v, length, keys, parent).result.value;
      items.ManyIds? && |items.items| == |keys| && forall i :: 0 <= i < |keys| ==> items.items[i] == Look(v, length, keys[i]).result.value
    decreases |keys|
  {
    if |keys| > 0 {
      assert keys[0] in keys && forall k :: k in keys[1..] ==> k in keys;
      BuiltViewStays(v, length, keys[0]);
      ListElementwise(v, length, keys[1..], parent);
      assert forall i :: 1 <= i < |keys| ==> keys[i] == keys[1..][i - 1];
    }
  }

  /** A list key is tried element by element: `dataset[[k1, k2, ...]]` is `[dataset[k1], dataset[k2], ...]`. */
  lemma ListKeyIsElementwise(v: View, length: Result<nat, Error>, keys: seq<Key>)
    requires v.pending.None?
    ensures Look(v, length, ListKey(keys)).result.Success? <==> forall i :: 0 <= i < |keys| ==> Look(v, length, keys[i]).result.Success?
    ensures Look(v, length, ListKey(keys)).result.Success? ==>
      var items := Look(v, length, ListKey(keys)).result.value;
      items.ManyIds? && |items.items| == |keys| && forall i :: 0 <= i < |keys| ==> items.items[i] == Look(v, length, keys[i]).result.value
  {
    ListElementwise(v, length, keys, ListKey(keys));
  }

  /**
   * `dataset[n]` raises the error of a pending build (and `data` is then
   * cached as far as it got); otherwise it returns user `n`, or a lookup
   * error naming `n`.
   */
  lemma IntKeyOutcome(v: View, length: Result<nat, Error>, n: int)
    ensures v.pending.Some? ==> Look(v, length, IntKey(n)) == Looked(Failure(v.pending.value), View(None, v.ids))
    ensures v.pending.None? && n in v.ids ==> Look(v, length, IntKey(n)).result == Success(OneId(n))
    ensures v.pending.None? && n !in v.ids ==> Look(v, length, IntKey(n)).result == Failure(Error(KeyError, Text.IntToString(n)))
  {
  }

  /**
   * A slice fills in start 1, stop `len(dataset)` and step 1; a zero step
   * is refused; any key that is not an int, slice or list is refused.
   */
  lemma SliceAndOtherKeys(v: View, n: nat, start: Option<int>, stop: Option<int>, step: Option<int>)
    ensures Look(v, Success(n), SliceKey(None, None, None)) == LookInts(v, Range(1, n, 1))
    ensures Look(v, Success(n), SliceKey(start, stop, Some(0))).result == Failure(ZeroStep)
    ensures Look(v, Success(n), OtherKey).result == Failure(InvalidKey)
    ensures step != Some(0) ==>
      Look(v, Success(n), SliceKey(start, stop, step))
      == LookInts(v, Range(if start.Some? then start.value else 1, if stop.Some? then stop.value else n, if step.Some? then step.value else 1))
  {
  }

  /** The view of the profile ids. */
  function IdSet(ps: seq<Profile>): set<int>
  {
    set p | p in ps :: p.id
  }

  /** The first profile with the id `n`: there is one exactly when `n` is among the ids. */
  function FindProfile(ps: seq<Profile>, n: int): (r: Option<Profile>)
    ensures r.Some? ==> r.value in ps && r.value.id == n
    ensures r.None? <==> n !in IdSet(ps)
  {
    if |ps| == 0 then None
    else if ps[0].id == n then Some(ps[0])
    else
      assert ps == [ps[0]] + ps[1..];
      FindProfile(ps[1..], n)
  }

  /** The build stops at its first exception: a failed prefix is the whole outcome. */
  lemma {:induction false} BuildStops(rs: seq<Result<Profile, Error>>, i: int)
    requires 0 <= i <= |rs| && Collect(rs[..i]).error.Some?
    ensures Collect(rs) == Collect(rs[..i])
    decreases |rs| - i
  {
    if i < |rs| {
      assert rs[..i + 1][..i] == rs[..i];
      BuildStops(rs, i + 1);
    } else {
      assert rs[..i] == rs;
    }
  }

  /** A stored user that `__getitem__` returned: every user in `f` is the one `d` holds under its id. */
  ghost predicate InData(f: Fetched, d: Option<Dict<int, MovieUser>>)
    decreases f
  {
    match f
    case One(u) => d.Some? && u.id in d.value.entries && d.value.entries[u.id] == u
    case Many(items) => forall i :: 0 <= i < |items| ==> InData(items[i], d)
  }

  /** What `__getitem__` returns: a user, or a list of results. */
  datatype Fetched = One(user: MovieUser) | Many(items: seq<Fetched>)

  /** A result with its users replaced by their ids. */
  function ShapeOf(f: Fetched): Shape
    decreases f
  {
    match f
    case One(u) => OneId(u.id)
    case Many(items) => ManyIds(seq(|items|, i requires 0 <= i < |items| => ShapeOf(items[i])))
  }

  function ShapeResult(r: Result<Fetched, Error>): Result<Shape, Error>
  {
    if r.Success? then Success(ShapeOf(r.value)) else Failure(r.error)
  }

  /** One more element of `[dataset[n] for n in ns]`: evaluated on the view the earlier ones left. */
  lemma {:induction false} LookIntsSnoc(v: View, ns: seq<int>, n: int)
    ensures LookInts(v, ns + [n]) ==
      var a := LookInts(v, ns);
      if a.result.Failure? then a
      else
        var h := LookInt(a.view, n);
        if h.result.Failure? then h else Looked(Success(ManyIds(a.result.value.items + [h.result.value])), h.view)
    decreases |ns|
  {
    if |ns| == 0 {
      assert ns + [n] == [n] && [n][1..] == [];
      var h := LookInt(v, n);
      assert h.result.Success? ==> [h.result.value] + [] == [] + [h.result.value];
    } else {
      assert (ns + [n])[0] == ns[0] && (ns + [n])[1..] == ns[1..] + [n];
      var head := LookInt(v, ns[0]);
      if head.result.Success? {
        LookIntsSnoc(head.view, ns[1..], n);
        var a := LookInts(head.view, ns[1..]);
        if a.result.Success? {
          var h := LookInt(a.view, n);
          assert h.result.Success? ==> ([head.result.value] + a.result.value.items) + [h.result.value] == [head.result.value] + (a.result.value.items + [h.result.value]);
        }
      }
    }
  }

  /** One more element of `[dataset[k] for k in keys]`. */
  lemma {:induction false} LookAllSnoc(v: View, length: Result<nat, Error>, keys: seq<Key>, k: Key, parent: Key)
    requires forall x :: x in keys + [k] ==> x < parent
    ensures forall x :: x in keys ==> x < parent
    ensures LookAll(v, length, keys + [k], parent) ==
      var a := LookAll(v, length, keys, parent);
      if a.result.Failure? then a
      else
        var h := Look(a.view, length, k);
        if h.result.Failure? then h else Looked(Success(ManyIds(a.result.value.items + [h.result.value])), h.view)
    decreases |keys|
  {
    assert forall x :: x in keys ==> x in keys + [k];
    if |keys| == 0 {
      assert keys + [k] == [k] && [k][1..] == [];
      var h := Look(v, length, k);
      assert h.result.Success? ==> [h.result.value] + [] == [] + [h.result.value];
    } else {
      assert (keys + [k])[0] == keys[0] && (keys + [k])[1..] == keys[1..] + [k];
      assert forall x :: x in keys[1..] + [k] ==> x in keys + [k];
      var head := Look(v, length, keys[0]);
      if head.result.Success? {
        LookAllSnoc(head.view, length, keys[1..], k, parent);
        var a := LookAll(head.view, length, keys[1..], parent);
        if a.result.Success? {
          var h := Look(a.view, length, k);
          assert h.result.Success? ==> ([head.result.value] + a.result.value.items) + [h.result.value] == [head.result.value] + (a.result.value.items + [h.result.value]);
        }
      }
    }
  }

  /** `LookIntsSnoc` on the prefixes of `ns`. */
  lemma LookIntsNext(v: View, ns: seq<int>, i: int)
    requires 0 <= i < |ns|
    ensures LookInts(v, ns[..i + 1]) ==
      var a := LookInts(v, ns[..i]);
      if a.result.Failure? then a
      else
        var h := LookInt(a.view, ns[i]);
        if h.result.Failure? then h else Looked(Success(ManyIds(a.result.value.items + [h.result.value])), h.view)
  {
    assert ns[..i + 1] == ns[..i] + [ns[i]];
    LookIntsSnoc(v, ns[..i], ns[i]);
  }

  /** Every key of `keys` is a strict part of `parent`. */
  ghost predicate Below(keys: seq<Key>, parent: Key)
  {
    forall k :: k in keys ==> k < parent
  }

  /** `LookAllSnoc` on the prefixes of `keys`. */
  lemma LookAllNext(v: View, length: Result<nat, Error>, keys: seq<Key>, i: int, parent: Key)
    requires 0 <= i < |keys| && forall k :: k in keys ==> k < parent
    ensures Below(keys[..i], parent) && Below(keys[..i + 1], parent)
    ensures LookAll(v, length, keys[..i + 1], parent) ==
      var a := LookAll(v, length, keys[..i], parent);
      if a.result.Failure? then a
      else
        var h := Look(a.view, length, keys[i]);
        if h.result.Failure? then h else Looked(Success(ManyIds(a.result.value.items + [h.result.value])), h.view)
  {
    assert keys[..i + 1] == keys[..i] + [keys[i]];
    assert forall k :: k in keys[..i] + [keys[i]] ==> k in keys;
    LookAllSnoc(v, length, keys[..i], keys[i], parent);
  }

  /** `[dataset[n] for n in ns]` raises at the first lookup that does. */
  lemma {:induction false} LookIntsStops(v: View, ns: seq<int>, i: int)
    requires 0 <= i <= |ns| && LookInts(v, ns[..i]).result.Failure?
    ensures LookInts(v, ns) == LookInts(v, ns[..i])
    decreases |ns| - i
  {
    if i < |ns| {
      LookIntsNext(v, ns, i);
      LookIntsStops(v, ns, i + 1);
    } else {
      assert ns[..i] == ns;
    }
  }

  /** `[dataset[k] for k in keys]` raises at the first lookup that does. */
  lemma {:induction false} LookAllStops(v: View, length: Result<nat, Error>, keys: seq<Key>, i: int, parent: Key)
    requires 0 <= i <= |keys| && forall k :: k in keys ==> k < parent
    requires forall k :: k in keys[..i] ==> k < parent
    requires LookAll(v, length, keys[..i], parent).result.Failure?
    ensures LookAll(v, length, keys, parent) == LookAll(v, length, keys[..i], parent)
    decreases |keys| - i
  {
    if i < |keys| {
      LookAllNext(v, length, keys, i, parent);
      LookAllStops(v, length, keys, i + 1, parent);
    } else {
      assert keys[..i] == keys;
    }
  }

  /** Results found before `data` was built stay found once it is built, and once built it stays. */
  lemma {:induction false} InDataWidens(f: Fetched, d: Option<Dict<int, MovieUser>>, e: Option<Dict<int, MovieUser>>)
    requires InData(f, d) && (d.Some? ==> e == d)
    ensures InData(f, e)
    decreases f
  {
    match f
    case One(u) =>
    case Many(items) =>
      forall i | 0 <= i < |items| ensures InData(items[i], e) {
        InDataWidens(items[i], d, e);
      }
  }

  /** Appending a result to a list result. */
  lemma Snoc(rest: Fetched, h: Fetched, d: Option<Dict<int, MovieUser>>)
    requires rest.Many? && InData(h, d) && InData(rest, d)
    ensures ShapeOf(Many(rest.items + [h])) == ManyIds(ShapeOf(rest).items + [ShapeOf(h)])
    ensures InData(Many(rest.items + [h]), d)
  {
    var items := rest.items + [h];
    assert forall i :: 0 <= i < |rest.items| ==> items[i] == rest.items[i];
  }

  class MovieDataset {
    const folder: string
    const usersFile: Option<seq<UserRow>>
    const moviesFile: Option<seq<MovieRow>>
    const ratingsFile: Option<seq<RatingRow>>
    /** `__data`: `None` until first use, then the users built so far. */
    var data: Option<Dict<int, MovieUser>>

    /**
     * `MovieDataset(folder, whitelist)`. The whitelist is accepted and
     * dropped: `__white_list` is always `None`, so every rating is used.
     */
    constructor (folder: string, usersFile: Option<seq<UserRow>>, moviesFile: Option<seq<MovieRow>>, ratingsFile: Option<seq<RatingRow>>,
                 whitelist: Option<seq<int>>)
      ensures this.folder == folder && this.usersFile == usersFile && this.moviesFile == moviesFile && this.ratingsFile == ratingsFile
      ensures data == None
    {
      this.folder := folder;
      this.usersFile := usersFile;
      this.moviesFile := moviesFile;
      this.ratingsFile := ratingsFile;
      data := None;
    }

    /** What building `data` yields from these files. */
    ghost function Outcome(): Built
    {
      DataOutcome(folder, usersFile, moviesFile, ratingsFile)
    }

    /** Once built, `data` holds the users of the profiles built before the loop stopped. */
    ghost predicate Valid()
      reads this, if data.Some? then data.value.entries.Values else {}
    {
      data.Some? ==> StoredWell(data.value) && Holds(data.value, Outcome().profiles)
    }

    /** What lookups see. */
    ghost function CurrentView(): View
      reads this
    {
      if data.Some? then View(None, data.value.entries.Keys) else View(Outcome().error, IdSet(Outcome().profiles))
    }

    /** `len(dataset)`: the rows of the users table, not the users in `data`. */
    function Length(): (r: Result<nat, Error>)
      ensures r.Success? <==> usersFile.Some?
      ensures r.Success? ==> r.value == |usersFile.value|
      ensures r.Failure? ==> r.error == NoFile(FilePath(folder, "users.dat"))
    {
      if usersFile.None? then Failure(NoFile(FilePath(folder, "users.dat"))) else Success(|usersFile.value|)
    }

    /**
     * The `data` property. `__data` is set to `{}` before the loop runs, so
     * an exception leaves the users built so far cached, and later calls
     * return them without raising.
     */
    method Data() returns (r: Result<Dict<int, MovieUser>, Error>)
      requires Valid()
      modifies this`data
      ensures Valid() && data.Some?
      ensures old(data).Some? ==> data == old(data) && r == Success(data.value)
      ensures old(data).None? ==> (forall k :: k in data.value.entries ==> fresh(data.value.entries[k]))
      ensures old(data).None? ==> r == if Outcome().error.Some? then Failure(Outcome().error.value) else Success(data.value)
      ensures CurrentView() == View(None, old(CurrentView()).ids)
    {
      if data.Some? {
        return Success(data.value);
      }
      var d, err := BuildData(folder, usersFile, moviesFile, ratingsFile);
      data := Some(d);
      r := if err.Some? then Failure(err.value) else Success(d);
    }

    /** `dataset[key]`. */
    method Get(key: Key) returns (r: Result<Fetched, Error>)
      requires Valid()
      modifies this`data
      ensures Valid()
      ensures ShapeResult(r) == Look(old(CurrentView()), Length(), key).result
      ensures CurrentView() == Look(old(CurrentView()), Length(), key).view
      ensures r.Success? ==> InData(r.value, data)
      ensures old(data).Some? ==> data == old(data)
      decreases key, 1
    {
      match key
      case IntKey(n) =>
        r := GetInt(n);
      case SliceKey(start, stop, step) =>
        var length := Length();
        if stop.None? && length.Failure? {
          return Failure(length.error);
        }
        var lo := if start.Some? then start.value else 1;
        var hi := if stop.Some? then stop.value else length.value;
        var stride := if step.Some? then step.value else 1;
        if stride == 0 {
          return Failure(ZeroStep);
        }
        r := GetInts(Range(lo, hi, stride));
      case ListKey(keys) =>
        r := GetAll(keys, key);
      case OtherKey =>
        r := Failure(InvalidKey);
    }

    /** `self.data[n]`. */
    method GetInt(n: int) returns (r: Result<Fetched, Error>)
      requires Valid()
      modifies this`data
      ensures Valid()
      ensures ShapeResult(r) == LookInt(old(CurrentView()), n).result
      ensures CurrentView() == LookInt(old(CurrentView()), n).view
      ensures r.Success? ==> InData(r.value, data)
      ensures old(data).Some? ==> data == old(data)
      ensures data.Some? && (old(data).None? ==> forall k :: k in data.value.entries ==> fresh(data.value.entries[k]))
    {
      var d := Data();
      if d.Failure? {
        return Failure(d.error);
      }
      if n !in d.value.entries {
        return Failure(Error(KeyError, Text.IntToString(n)));
      }
      r := Success(One(d.value.entries[n]));
    }

    /** `[self[n] for n in ns]`. */
    method GetInts(ns: seq<int>) returns (r: Result<Fetched, Error>)
      requires Valid()
      modifies this`data
      ensures Valid()
      ensures ShapeResult(r) == LookInts(old(CurrentView()), ns).result
      ensures CurrentView() == LookInts(old(CurrentView()), ns).view
      ensures r.Success? ==> InData(r.value, data)
      ensures old(data).Some? ==> data == old(data)
    {
      var items: seq<Fetched> := [];
      ghost var v := CurrentView();
      assert ShapeOf(Many(items)) == ManyIds([]);
      for i := 0 to |ns|
        invariant Valid()
        invariant old(data).Some? ==> data == old(data)
        invariant LookInts(v, ns[..i]) == Looked(Success(ShapeOf(Many(items))), CurrentView())
        invariant InData(Many(items), data)
      {
        LookIntsNext(v, ns, i);
        ghost var before := data;
        var h := GetInt(ns[i]);
        InDataWidens(Many(items), before, data);
        if h.Failure? {
          LookIntsStops(v, ns, i + 1);
          return Failure(h.error);
        }
        Snoc(Many(items), h.value, data);
        items := items + [h.value];
      }
      assert ns[..|ns|] == ns;
      r := Success(Many(items));
    }

    /** `[self[k] for k in keys]`, for the keys of the list `parent`. */
    method GetAll(keys: seq<Key>, ghost parent: Key) returns (r: Result<Fetched, Error>)
      requires Valid()
      requires forall k :: k in keys ==> k < parent
      modifies this`data
      ensures Valid()
      ensures ShapeResult(r) == LookAll(old(CurrentView()), Length(), keys, parent).result
      ensures CurrentView() == LookAll(old(CurrentView()), Length(), keys, parent).view
      ensures r.Success? ==> InData(r.value, data)
      ensures old(data).Some? ==> data == old(data)
      decreases parent, 0
    {
      var items: seq<Fetched> := [];
      ghost var v := CurrentView();
      assert ShapeOf(Many(items)) == ManyIds([]);
      for i := 0 to |keys|
        invariant Valid()
        invariant old(data).Some? ==> data == old(data)
        invariant forall k :: k in keys[..i] ==> k < parent
        invariant LookAll(v, Length(), keys[..i], parent) == Looked(Success(ShapeOf(Many(items))), CurrentView())
        invariant InData(Many(items), data)
      {
        assert keys[i] in keys;
        LookAllNext(v, Length(), keys, i, parent);
        ghost var before := data;
        var h := Get(keys[i]);
        InDataWidens(Many(items), before, data);
        if h.Failure? {
          LookAllStops(v, Length(), keys, i + 1, parent);
          return Failure(h.error);
        }
        Snoc(Many(items), h.value, data);
        items := items + [h.value];
      }
      assert keys[..|keys|] == keys;
      r := Success(Many(items));
    }

    /** `iter(dataset)`, read to the end: `self[user_id]` for each row of the users table, in file order. */
    method Iterate() returns (r: Result<Fetched, Error>)
      requires Valid()
      modifies this`data
      ensures Valid()
      ensures UsersTable(folder, usersFile).Failure? ==> r == Failure(UsersTable(folder, usersFile).error) && data == old(data)
      ensures UsersTable(folder, usersFile).Success? ==>
        && ShapeResult(r) == LookInts(old(CurrentView()), UserColumn(UsersTable(folder, usersFile).value)).result
        && CurrentView() == LookInts(old(CurrentView()), UserColumn(UsersTable(folder, usersFile).value)).view
      ensures r.Success? ==> InData(r.value, data)
      ensures old(data).Some? ==> data == old(data)
    {
      var table := UsersTable(folder, usersFile);
      if table.Failure? {
        return Failure(table.error);
      }
      r := GetInts(UserColumn(table.value));
    }

    /**
     * `next(iter(dataset))`, as the driver uses it: `None` for an empty
     * users table, otherwise `self[user_id]` for its first row.
     */
    method First() returns (r: Result<Option<MovieUser>, Error>)
      requires Valid()
      modifies this`data
      ensures Valid()
      ensures UsersTable(folder, usersFile).Failure? ==> r == Failure(UsersTable(folder, usersFile).error) && data == old(data)
      ensures UsersTable(folder, usersFile) == Success([]) ==> r == Success(None) && data == old(data)
      ensures UsersTable(folder, usersFile).Success? && |UsersTable(folder, usersFile).value| > 0 ==>
        var looked := LookInt(old(CurrentView()), UsersTable(folder, usersFile).value[0].userId);
        && (r.Success? <==> looked.result.Success?)
        && (r.Failure? ==> r.error == looked.result.error)
        && CurrentView() == looked.view
        && (r.Success? ==> r.value.Some?)
      ensures r.Success? && r.value.Some? ==>
        && r.value.value.id == UsersTable(folder, usersFile).value[0].userId
        && InData(One(r.value.value), data)
      ensures r.Success? && r.value.Some? && old(data).None? ==> fresh(r.value.value)
      ensures old(data).Some? ==> data == old(data)
    {
      var table := UsersTable(folder, usersFile);
      if table.Failure? {
        return Failure(table.error);
      }
      if |table.value| == 0 {
        return Success(None);
      }
      var f := GetInt(table.value[0].userId);
      if f.Failure? {
        return Failure(f.error);
      }
      match f.value
      case One(u) =>
        r := Success(Some(u));
      case Many(_) =>
        assert false;
        r := Failure(InvalidKey);
    }
  }

  /** The body of `data` once the cache is empty: no ratings file raises before the loop, with `{}` cached. */
  method BuildData(folder: string, users: Option<seq<UserRow>>, movies: Option<seq<MovieRow>>, ratings: Option<seq<RatingRow>>)
    returns (d: Dict<int, MovieUser>, err: Option<Error>)
    ensures StoredWell(d) && Holds(d, DataOutcome(folder, users, movies, ratings).profiles)
    ensures d.entries.Keys == IdSet(DataOutcome(folder, users, movies, ratings).profiles)
    ensures err == DataOutcome(folder, users, movies, ratings).error
    ensures forall k :: k in d.entries ==> fresh(d.entries[k])
  {
    if ratings.None? {
      assert IdSet([]) == {};
      return Empty(), Some(NoFile(FilePath(folder, "ratings.dat")));
    }
    d, err := BuildUsers(TitlesTable(folder, movies), UsersTable(folder, users), UserScore(ratings.value));
    KeysOfHolds(d, DataOutcome(folder, users, movies, ratings).profiles);
  }

  /** Every user the `data` loop builds carries a well-formed rankings dict. */
  lemma BuiltRankingsValid(folder: string, users: Option<seq<UserRow>>, movies: Option<seq<MovieRow>>, ratings: Option<seq<RatingRow>>)
    ensures forall p :: p in DataOutcome(folder, users, movies, ratings).profiles ==> p.rankings.Valid()
  {
    if ratings.Some? {
      var titles, us, gs := TitlesTable(folder, movies), UsersTable(folder, users), UserScore(ratings.value);
      var b := BuildAll(titles, us, gs);
      forall p | p in b.profiles ensures p.rankings.Valid() {
        var i :| 0 <= i < |b.profiles| && b.profiles[i] == p;
        MakeProfileSpec(titles, us, gs[i]);
        RankingsTitles(if titles.Success? then titles.value else map[], gs[i].pairs);
      }
    }
  }

  /** A stored user has the fields of every profile with its id. */
  lemma StoredIsProfile(d: Dict<int, MovieUser>, ps: seq<Profile>, u: MovieUser)
    requires Holds(d, ps) && u.id in d.entries && d.entries[u.id] == u
    ensures forall p :: p in ps && p.id == u.id ==> u.gender == p.gender && u.age == p.age && u.rankings == Some(p.rankings)
  {
    forall p | p in ps && p.id == u.id ensures u.gender == p.gender && u.age == p.age && u.rankings == Some(p.rankings) {
      var i :| 0 <= i < |ps| && ps[i] == p;
    }
  }

  /** The keys of a dict that holds `ps` are the ids of `ps`. */
  lemma KeysOfHolds(d: Dict<int, MovieUser>, ps: seq<Profile>)
    requires d.Valid() && d.keys == ProfileIds(ps)
    ensures d.entries.Keys == IdSet(ps)
  {
    forall k | k in IdSet(ps) ensures k in d.entries {
      var p :| p in ps && p.id == k;
      var i :| 0 <= i < |ps| && ps[i] == p;
      // `k` is listed at `i`
    }
  }

  /** A user stored in a dict that holds `ps` has not been described or embedded yet. */
  lemma StoredUnused(d: Dict<int, MovieUser>, ps: seq<Profile>, k: int)
    requires d.Valid() && Holds(d, ps) && k in d.entries
    ensures d.entries[k].description.None? && d.entries[k].embedding.None?
  {
    var i :| 0 <= i < |d.keys| && d.keys[i] == k;
    assert ps[i].id == k;
  }

  /** The loop of `data`: one user per group, stopping at the first exception. */
  method BuildUsers(titles: Result<map<int, string>, Error>, users: Result<seq<UserRow>, Error>, groups: seq<Group>)
    returns (d: Dict<int, MovieUser>, err: Option<Error>)
    requires forall i, j :: 0 <= i < j < |groups| ==> groups[i].userId < groups[j].userId
    ensures StoredWell(d)
    ensures Holds(d, BuildAll(titles, users, groups).profiles)
    ensures err == BuildAll(titles, users, groups).error
    ensures forall k :: k in d.entries ==> fresh(d.entries[k])
  {
    ghost var rs := Attempts(titles, users, groups);
    d := Empty();
    for i := 0 to |groups|
      invariant Collect(rs[..i]).error.None?
      invariant StoredWell(d)
      invariant Holds(d, Collect(rs[..i]).profiles)
      invariant forall k :: k in d.entries ==> fresh(d.entries[k])
      invariant forall k :: k in d.entries ==> i > 0 && k <= groups[i - 1].userId
    {
      var p := Attempt(titles, users, groups[i]);
      var next, e := Step(groups, i, d, rs, p);
      if e.Some? {
        BuildStops(rs, i + 1);
        return next, e;
      }
      d := next;
    }
    assert rs[..|groups|] == rs;
    err := None;
  }

  /** One pass of the loop of `data`, for the `i`-th group, once its profile `p` has been attempted. */
  method Step(groups: seq<Group>, i: int, d: Dict<int, MovieUser>, ghost rs: seq<Result<Profile, Error>>, p: Result<Profile, Error>)
    returns (next: Dict<int, MovieUser>, err: Option<Error>)
    requires 0 <= i < |groups| == |rs| && rs[i] == p
    requires p.Success? ==> p.value.id == groups[i].userId && p.value.rankings.Valid()
    requires i > 0 ==> groups[i - 1].userId < groups[i].userId
    requires Collect(rs[..i]).error.None? && StoredWell(d) && Holds(d, Collect(rs[..i]).profiles)
    requires forall k :: k in d.entries ==> i > 0 && k <= groups[i - 1].userId
    ensures err == Collect(rs[..i + 1]).error
    ensures err.Some? ==> next == d
    ensures StoredWell(next) && Holds(next, Collect(rs[..i + 1]).profiles)
    ensures forall k :: k in next.entries ==> k <= groups[i].userId
    ensures forall k :: k in next.entries ==> (k in d.entries && next.entries[k] == d.entries[k]) || fresh(next.entries[k])
  {
    if p.Failure? {
      CollectStops(rs, i);
      return d, Some(p.error);
    }
    CollectGrows(rs, i);
    ghost var ps := Collect(rs[..i]).profiles;
    next := AddUser(d, ps, p.value);
    assert Collect(rs[..i + 1]).profiles == ps + [p.value];
    assert next.entries.Keys == d.entries.Keys + {groups[i].userId};
    err := None;
  }

  /** One pass of the loop: the profile for `g`, carrying the group's id and a well-formed rankings dict. */
  method Attempt(titles: Result<map<int, string>, Error>, users: Result<seq<UserRow>, Error>, g: Group) returns (p: Result<Profile, Error>)
    ensures p == MakeProfile(titles, users, g)
    ensures p.Success? ==> p.value.id == g.userId && p.value.rankings.Valid()
  {
    p := MakeProfile(titles, users, g);
    if p.Success? {
      MakeProfileSpec(titles, users, g);
      RankingsTitles(if titles.Success? then titles.value else map[], g.pairs);
    }
  }

  /** `users[uid] = MovieUser(...)`: a new user for a new id, stored at the end of the dict. */
  method AddUser(d: Dict<int, MovieUser>, ghost ps: seq<Profile>, p: Profile) returns (next: Dict<int, MovieUser>)
    requires StoredWell(d) && Holds(d, ps) && p.id !in d.entries && p.rankings.Valid()
    ensures StoredWell(next) && Holds(next, ps + [p])
    ensures next.entries.Keys == d.entries.Keys + {p.id}
    ensures fresh(next.entries[p.id])
    ensures forall k :: k in d.entries ==> next.entries[k] == d.entries[k]
  {
    var u := new MovieUser(p.id, p.gender, p.age, Some(p.rankings));
    HoldsSnoc(d, ps, p, u);
    PutSpec(d, p.id, u);
    next := d.Put(p.id, u);
  }

  /** One more pass of the loop, while none has raised, that raises: the error is kept and nothing is added. */
  lemma CollectStops(rs: seq<Result<Profile, Error>>, i: int)
    requires 0 <= i < |rs| && Collect(rs[..i]).error.None? && rs[i].Failure?
    ensures Collect(rs[..i + 1]) == Built(Collect(rs[..i]).profiles, Some(rs[i].error))
  {
    assert rs[..i + 1][..i] == rs[..i];
  }

  /** One more pass of the loop, while none has raised, that succeeds: its profile is appended. */
  lemma CollectGrows(rs: seq<Result<Profile, Error>>, i: int)
    requires 0 <= i < |rs| && Collect(rs[..i]).error.None? && rs[i].Success?
    ensures Collect(rs[..i + 1]) == Built(Collect(rs[..i]).profiles + [rs[i].value], None)
  {
    assert rs[..i + 1][..i] == rs[..i];
  }

  /** Storing a newly built user for a new id extends what the dict holds by its profile. */
  lemma HoldsSnoc(d: Dict<int, MovieUser>, ps: seq<Profile>, p: Profile, u: MovieUser)
    requires StoredWell(d) && Holds(d, ps) && p.id !in d.entries && u.id == p.id && u.Valid()
    requires u.gender == p.gender && u.age == p.age && u.rankings == Some(p.rankings) && u.description.None? && u.embedding.None?
    ensures StoredWell(d.Put(p.id, u)) && Holds(d.Put(p.id, u), ps + [p])
  {
    PutSpec(d, p.id, u);
  }
}
