/**
 * The driver `evaluate_embeddings`: pick the dataset and agent for the
 * mode, describe (and outside test mode embed) the first user the dataset
 * yields, and write the results and, when something failed, the error
 * ledger. The unconditional `break` at the end of the loop body means
 * the loop never gets past its first user, so it is modelled as "the
 * first user, if there is one".
 */
module Encode {
  import opened Wrappers
  import opened Exceptions
  import opened Dicts
  import Text
  import opened Llm
  import opened MovieUsers
  import opened MusicUsers
  import opened MusicDatasets
  import opened MovieDatasets
  import opened Agents

  /** The two modes the driver knows. */
  datatype Mode = MovieLens | Amazon

  /** `dataset` read after a `match` with no matching case. */
  const Unbound := Error(UnboundLocalError, "cannot access local variable 'dataset' where it is not associated with a value")

  /** The `match mode` of the driver. */
  function SelectMode(mode: string): (r: Result<Mode, Error>)
    ensures r == Success(MovieLens) <==> mode == "ml-1m"
    ensures r == Success(Amazon) <==> mode == "amazon"
    ensures r.Failure? ==> r.error == Unbound
  {
    if mode == "ml-1m" then Success(MovieLens)
    else if mode == "amazon" then Success(Amazon)
    else Failure(Unbound)
  }

  /** One entry of `description_list`: a user's `dict()`. */
  datatype Record = MovieEntry(movie: MovieRecord) | MusicEntry(music: MusicRecord)

  /** A key of `error_list`: the user's id. */
  datatype UserKey = MovieKey(movieId: int) | MusicKey(musicId: string)

  /** What happened to one user inside the `try`. */
  datatype Processed = Described(record: Record) | Raised(key: UserKey, text: string)

  /** The ledgers after the loop: `description_list` and `error_list`. */
  datatype Partition = Partition(descriptions: seq<Record>, errors: Dict<UserKey, string>)

  /** The ledgers after the loop has handled `first`, the user it reached (if any). */
  function Ledgers(first: Option<Processed>): (p: Partition)
    ensures p.errors.Valid()
  {
    match first
    case None => Partition([], Empty())
    case Some(Described(rec)) => Partition([rec], Empty())
    case Some(Raised(key, text)) => Partition([], Empty().Put(key, text))
  }

  /**
   * A handled user lands in exactly one ledger: its record in
   * `description_list` when every step succeeded, or `str(e)` under its id
   * in `error_list` when a step raised. With no user both stay empty.
   */
  lemma LedgersPartition(first: Option<Processed>)
    ensures |Ledgers(first).descriptions| + Ledgers(first).errors.Length() == if first.Some? then 1 else 0
    ensures first.Some? && first.value.Described? ==> Ledgers(first).descriptions == [first.value.record] && Ledgers(first).errors.Length() == 0
    ensures first.Some? && first.value.Raised? ==>
      && Ledgers(first).descriptions == []
      && Ledgers(first).errors.keys == [first.value.key]
      && Ledgers(first).errors.entries[first.value.key] == first.value.text
  {
    if first.Some? && first.value.Raised? {
      PutSpec(Empty<UserKey, string>(), first.value.key, first.value.text);
    }
  }

  /** A file the driver writes: `json.dump` of the descriptions, or of the error ledger. */
  datatype ErrorsFile = ErrorsFile(path: string, errors: Dict<UserKey, string>)
  datatype Written = Written(path: string, descriptions: seq<Record>, errorsFile: Option<ErrorsFile>)

  /** `os.path.join(result_folder, f"{mode}_description.json")`. */
  function DescriptionPath(mode: Mode, resultFolder: string): string
  {
    Text.PathJoin(resultFolder, ModeName(mode) + "_description.json")
  }

  /** `os.path.join(result_folder, f"{mode}_errors.json")`. */
  function ErrorsPath(mode: Mode, resultFolder: string): string
  {
    Text.PathJoin(resultFolder, ModeName(mode) + "_errors.json")
  }

  function ModeName(mode: Mode): (s: string)
    ensures SelectMode(s) == Success(mode)
  {
    match mode
    case MovieLens => "ml-1m"
    case Amazon => "amazon"
  }

  /** The files written after the loop: the descriptions always, the errors only when there are some. */
  function Output(mode: Mode, resultFolder: string, p: Partition): (w: Written)
    requires p.errors.Valid()
    ensures w.path == DescriptionPath(mode, resultFolder) && w.descriptions == p.descriptions
    ensures w.errorsFile.Some? <==> p.errors.Length() > 0
    ensures w.errorsFile.Some? ==> w.errorsFile.value == ErrorsFile(ErrorsPath(mode, resultFolder), p.errors)
  {
    Written(DescriptionPath(mode, resultFolder), p.descriptions,
            if |p.errors.keys| > 0 then Some(ErrorsFile(ErrorsPath(mode, resultFolder), p.errors)) else None)
  }

  /** For a result folder without a trailing slash, the two files sit side by side in it. */
  lemma OutputPaths(mode: Mode, resultFolder: string)
    requires |resultFolder| > 0 && resultFolder[|resultFolder| - 1] != '/'
    ensures DescriptionPath(mode, resultFolder) == resultFolder + "/" + ModeName(mode) + "_description.json"
    ensures ErrorsPath(mode, resultFolder) == resultFolder + "/" + ModeName(mode) + "_errors.json"
    ensures DescriptionPath(mode, resultFolder) != ErrorsPath(mode, resultFolder)
  {
    // the two file names, and so the two paths, differ in length
    assert |ModeName(mode) + "_description.json"| != |ModeName(mode) + "_errors.json"|;
  }

  /** The body of the `try` for a MovieLens user. */
  method ProcessMovie(agent: EmbedAgent, user: MovieUser, test: bool) returns (p: Processed)
    requires user.Valid()
    modifies agent`descriptions, agent`sent, agent`embeddings, agent`embedded, user`description, user`embedding
    ensures user.Valid()
    ensures var d := old(agent.DescribeCall(MovieSubject(user), test, Keyword)).result;
      && (d.Failure? ==> p == Raised(MovieKey(user.id), d.error.message) && user.description == old(user.description))
      && (d.Success? ==> user.description == d.value)
      && (d.Success? && test ==> p == Described(MovieEntry(user.Dict())) && user.embedding == old(user.embedding))
      && (d.Success? && !test ==>
            var e := EmbedCall(agent.kind, agent.adapter, old(agent.embeddings), d.value).result;
            && (e.Failure? ==> p == Raised(MovieKey(user.id), e.error.message) && user.embedding == old(user.embedding))
            && (e.Success? ==> p == Described(MovieEntry(user.Dict())) && user.embedding == Some(e.value)))
    ensures test ==> agent.embeddings == old(agent.embeddings) && agent.embedded == old(agent.embedded)
    ensures p.Raised? ==> p.key == MovieKey(user.id)
    ensures p.Described? ==> p.record == MovieEntry(user.Dict()) && (test ==> user.embedding == old(user.embedding))
    ensures (old(agent.descriptions) == map[] && old(agent.embeddings) == map[] && agent.kind == Movie
             && old(user.embedding).None? && user.rankings.Some?) ==>
      p == HandleMovie(Profile(user.id, user.gender, user.age, user.rankings.value), agent.adapter, agent.instructions, test)
  {
    var d := agent.GetUserDescription(MovieSubject(user), test, Keyword);
    if d.Failure? {
      return Raised(MovieKey(user.id), d.error.message);
    }
    user.description := d.value;
    if !test {
      var e := agent.EncodeDescription(user.description);
      if e.Failure? {
        return Raised(MovieKey(user.id), e.error.message);
      }
      user.embedding := Some(e.value);
    }
    p := Described(MovieEntry(user.Dict()));
  }

  /** The body of the `try` for an Amazon user; `dict()` renders the prompt and can raise too. */
  method ProcessMusic(agent: EmbedAgent, user: MusicUser, test: bool) returns (p: Processed)
    requires user.Valid()
    modifies agent`descriptions, agent`sent, agent`embeddings, agent`embedded, user`description, user`embedding
    ensures user.Valid()
    ensures user.ratings == old(user.ratings) && user.timestamps == old(user.timestamps)
    ensures var d := old(agent.DescribeCall(MusicSubject(user), test, Keyword)).result;
      && (d.Failure? ==> p == Raised(MusicKey(user.id), d.error.message) && user.description == old(user.description))
      && (d.Success? ==> user.description == d.value)
      && (d.Success? && test ==> user.embedding == old(user.embedding))
      && (d.Success? && !test ==>
            var e := EmbedCall(agent.kind, agent.adapter, old(agent.embeddings), d.value).result;
            && (e.Failure? ==> p == Raised(MusicKey(user.id), e.error.message) && user.embedding == old(user.embedding))
            && (e.Success? ==> user.embedding == Some(e.value)))
    ensures var d := old(agent.DescribeCall(MusicSubject(user), test, Keyword)).result;
      var e := EmbedCall(agent.kind, agent.adapter, old(agent.embeddings), if d.Success? then d.value else None).result;
      d.Success? && (test || e.Success?) ==>
        if user.ratings.Some?
        then p == Described(MusicEntry(MusicRecord(user.id, user.ratings.value.Items(), user.Rendering().value, user.description, user.embedding)))
        else p == Raised(MusicKey(user.id), MusicUsers.NoItems.message)
    ensures p.Described? ==>
      user.ratings.Some? && p == Described(MusicEntry(MusicRecord(user.id, user.ratings.value.Items(), user.Rendering().value, user.description, user.embedding)))
    ensures test ==> agent.embeddings == old(agent.embeddings) && agent.embedded == old(agent.embedded)
    ensures p.Raised? ==> p.key == MusicKey(user.id)
    ensures (old(agent.descriptions) == map[] && old(agent.embeddings) == map[] && agent.kind == Music
             && !user.newPrompt && old(user.embedding).None?) ==>
      p == HandleMusic(user.id, user.ratings, agent.adapter, agent.instructions, test)
    ensures p.Described? && test ==> user.embedding == old(user.embedding)
  {
    var d := agent.GetUserDescription(MusicSubject(user), test, Keyword);
    if d.Failure? {
      return Raised(MusicKey(user.id), d.error.message);
    }
    user.description := d.value;
    if !test {
      var e := agent.EncodeDescription(user.description);
      if e.Failure? {
        return Raised(MusicKey(user.id), e.error.message);
      }
      user.embedding := Some(e.value);
    }
    var rec := user.Dict();
    if rec.Failure? {
      return Raised(MusicKey(user.id), rec.error.message);
    }
    p := Described(MusicEntry(rec.value));
  }

  /** The files of a dataset, as the readers would find them; `None` is a missing file. */
  datatype Files = Files(
    usersDat: Option<seq<UserRow>>,
    moviesDat: Option<seq<MovieRow>>,
    ratingsDat: Option<seq<RatingRow>>,
    itemFile: Option<ItemTable>,
    interFile: Option<InterTable>)

  /** The id a handled user is reported under: its key in `error_list`, or the id in its record. */
  function KeyOf(p: Processed): UserKey
  {
    match p
    case Raised(key, _) => key
    case Described(MovieEntry(m)) => MovieKey(m.id)
    case Described(MusicEntry(m)) => MusicKey(m.id)
  }

  /**
   * The user the loop reaches on a fresh dataset of the mode: the key of the
   * first user `iter(dataset)` yields, none for an empty dataset, or the
   * exception raised while producing it (before the `try`). For `ml-1m`
   * that is `self[id]` of the first row of the users table, which builds
   * `data`; for `amazon` the first user of the interactions, after both
   * tables are loaded.
   */
  ghost function FirstKey(mode: Mode, folder: string, files: Files): Result<Option<UserKey>, Error>
  {
    match mode
    case MovieLens =>
      (match UsersTable(folder, files.usersDat)
       case Failure(e) => Failure(e)
       case Success(rows) =>
         if |rows| == 0 then Success(None)
         else
           var o := DataOutcome(folder, files.usersDat, files.moviesDat, files.ratingsDat);
           var looked := LookInt(View(o.error, IdSet(o.profiles)), rows[0].userId);
           if looked.result.Failure? then Failure(looked.result.error) else Success(Some(MovieKey(rows[0].userId))))
    case Amazon =>
      match FreshUsersError(folder, files.itemFile, files.interFile)
      case Some(e) => Failure(e)
      case None =>
        var order := if files.interFile.Some? then UserOrder(files.interFile.value.rows) else [];
        if |order| == 0 then Success(None) else Success(Some(MusicKey(order[0])))
  }

  /**
   * What the `try` makes of the MovieLens user built from `p`, on an agent
   * whose memo tables are empty: the description of the user's prompt,
   * then, outside test mode, the embedding of that description. The first
   * exception is filed under the id; otherwise the user's dict, with the
   * description and embedding set, is recorded.
   */
  function HandleMovie(p: Profile, adapter: Option<Adapter>, instructions: string, test: bool): (r: Processed)
    requires p.rankings.Valid()
    ensures KeyOf(r) == MovieKey(p.id)
  {
    var d := DescribeFresh(Movie, adapter, instructions, PromptText(p.gender, p.age, Some(p.rankings)), test);
    if d.Failure? then Raised(MovieKey(p.id), d.error.message)
    else
      var e := EmbedCall(Movie, adapter, map[], Some(d.value)).result;
      if test then Described(MovieEntry(MovieRecord(p.id, p.gender, p.age, Some(p.rankings), Some(d.value), None)))
      else if e.Failure? then Raised(MovieKey(p.id), e.error.message)
      else Described(MovieEntry(MovieRecord(p.id, p.gender, p.age, Some(p.rankings), Some(d.value), Some(e.value))))
  }

  /**
   * The same for the Amazon user `id` with the ratings dict `ratings`
   * (`None` before any `add`): its prompt is `prompt_v1`, which raises on
   * `len(None)`, so only a user with ratings reaches `dict()`.
   */
  function HandleMusic(id: string, ratings: Option<Ratings>, adapter: Option<Adapter>, instructions: string, test: bool): (r: Processed)
    requires ratings.Some? ==> ratings.value.Valid()
    ensures KeyOf(r) == MusicKey(id)
    ensures r.Described? ==> ratings.Some?
  {
    var prompt := if ratings.None? then Failure(NoLen) else Success(PromptV1Text(ratings.value));
    var d := DescribeFresh(Music, adapter, instructions, prompt, test);
    if d.Failure? then Raised(MusicKey(id), d.error.message)
    else
      var e := EmbedCall(Music, adapter, map[], Some(d.value)).result;
      if !test && e.Failure? then Raised(MusicKey(id), e.error.message)
      else Described(MusicEntry(MusicRecord(id, ratings.value.Items(), prompt.value, Some(d.value), if test then None else Some(e.value))))
  }

  /**
   * A movie user is filed with the prompt's error when its age is unknown;
   * in test mode it is recorded with the chat that would have been sent
   * and no embedding; otherwise an agent without an adapter files the
   * missing `agent` attribute, and a recorded user carries a completion
   * and an embedding.
   */
  lemma HandleMovieCases(p: Profile, adapter: Option<Adapter>, instructions: string, test: bool)
    requires p.rankings.Valid()
    ensures var prompt := PromptText(p.gender, p.age, Some(p.rankings));
      var h := HandleMovie(p, adapter, instructions, test);
      && (prompt.Failure? ==> h == Raised(MovieKey(p.id), prompt.error.message))
      && (prompt.Success? && test ==>
            h == Described(MovieEntry(MovieRecord(p.id, p.gender, p.age, Some(p.rankings), Some(PromptMessages(BuildPrompt(instructions, prompt.value))), None))))
      && (prompt.Success? && !test && adapter.None? ==> h == Raised(MovieKey(p.id), NoAdapter(Movie).message))
      && (h.Described? && !test ==> h.record.movie.description.value.Completion? && h.record.movie.embedding.Some?)
  {
  }

  /**
   * An Amazon user without ratings is filed with the `len(None)` error; in
   * test mode a user with ratings is recorded with the chat that would
   * have been sent and no embedding; otherwise an agent without an
   * adapter files the missing `agent` attribute.
   */
  lemma HandleMusicCases(id: string, ratings: Option<Ratings>, adapter: Option<Adapter>, instructions: string, test: bool)
    requires ratings.Some? ==> ratings.value.Valid()
    ensures var h := HandleMusic(id, ratings, adapter, instructions, test);
      && (ratings.None? ==> h == Raised(MusicKey(id), NoLen.message))
      && (ratings.Some? && test ==>
            var prompt := PromptV1Text(ratings.value);
            h == Described(MusicEntry(MusicRecord(id, ratings.value.Items(), prompt, Some(PromptMessages(BuildPrompt(instructions, prompt))), None))))
      && (ratings.Some? && !test && adapter.None? ==> h == Raised(MusicKey(id), NoAdapter(Music).message))
      && (h.Described? && !test ==> h.record.music.description.value.Completion? && h.record.music.embedding.Some?)
  {
  }

  /**
   * The loop up to the `break` on a fresh dataset and a fresh agent with
   * the adapter `adapter`: the exception the dataset raises before the
   * `try`, no user for an empty dataset, or what the `try` makes of the
   * first user yielded.
   */
  ghost function FirstHandled(mode: Mode, folder: string, files: Files, adapter: Option<Adapter>, instructions: string, test: bool): Result<Option<Processed>, Error>
  {
    match mode
    case MovieLens =>
      (match UsersTable(folder, files.usersDat)
       case Failure(e) => Failure(e)
       case Success(rows) =>
         if |rows| == 0 then Success(None)
         else
           var o := DataOutcome(folder, files.usersDat, files.moviesDat, files.ratingsDat);
           var n := rows[0].userId;
           var looked := LookInt(View(o.error, IdSet(o.profiles)), n);
           if looked.result.Failure? then Failure(looked.result.error)
           else
             BuiltRankingsValid(folder, files.usersDat, files.moviesDat, files.ratingsDat);
             Success(Some(HandleMovie(FindProfile(o.profiles, n).value, adapter, instructions, test))))
    case Amazon =>
      match FreshUsersError(folder, files.itemFile, files.interFile)
      case Some(e) => Failure(e)
      case None =>
        var order := if files.interFile.Some? then UserOrder(files.interFile.value.rows) else [];
        if |order| == 0 then Success(None)
        else
          var inter := files.interFile.value;
          var it := ItemDict(folder, files.itemFile).value;
          var obs := ObsOf(ColumnNames(inter.header), it, inter.rows, order[0]);
          Success(Some(HandleMusic(order[0], if |obs| == 0 then None else Some(Replay(EmptyLog(), obs).ratings), adapter, instructions, test)))
  }

  /** The run fails, finds no user, or handles a user exactly as `FirstKey` says, whatever the services answer. */
  lemma FirstHandledKey(mode: Mode, folder: string, files: Files, adapter: Option<Adapter>, instructions: string, test: bool)
    ensures var h := FirstHandled(mode, folder, files, adapter, instructions, test);
      var k := FirstKey(mode, folder, files);
      && (h.Failure? <==> k.Failure?)
      && (h.Failure? ==> h.error == k.error)
      && (h.Success? ==> (h.value.None? <==> k.value.None?))
      && (h.Success? && h.value.Some? ==> Some(KeyOf(h.value.value)) == k.value)
  {
    match mode
    case MovieLens =>
    case Amazon =>
  }

  /** The Amazon user the run handles is handled with the ratings the loader gave it. */
  lemma FirstMusicRatings(folder: string, files: Files, adapter: Option<Adapter>, instructions: string, test: bool, u: MusicUser, it: Dict<string, MusicItems.MusicItem>)
    requires files.interFile.Some? && ItemDict(folder, files.itemFile) == Success(it)
    requires FirstKey(Amazon, folder, files) == Success(Some(MusicKey(u.id)))
    requires UserMatches(u, ColumnNames(files.interFile.value.header), it, files.interFile.value.rows, u.id)
    ensures u.Valid() && !u.newPrompt && u.embedding.None?
    ensures FirstHandled(Amazon, folder, files, adapter, instructions, test) == Success(Some(HandleMusic(u.id, u.ratings, adapter, instructions, test)))
  {
  }

  /** The profile behind the MovieLens user the run handles, when it handles one. */
  lemma FirstMovieProfile(folder: string, files: Files, adapter: Option<Adapter>, instructions: string, test: bool) returns (q: Profile)
    requires FirstKey(MovieLens, folder, files).Success? && FirstKey(MovieLens, folder, files).value.Some?
    ensures q in DataOutcome(folder, files.usersDat, files.moviesDat, files.ratingsDat).profiles
    ensures FirstKey(MovieLens, folder, files).value == Some(MovieKey(q.id))
    ensures q.rankings.Valid()
    ensures FirstHandled(MovieLens, folder, files, adapter, instructions, test) == Success(Some(HandleMovie(q, adapter, instructions, test)))
  {
    var o := DataOutcome(folder, files.usersDat, files.moviesDat, files.ratingsDat);
    BuiltRankingsValid(folder, files.usersDat, files.moviesDat, files.ratingsDat);
    q := FindProfile(o.profiles, UsersTable(folder, files.usersDat).value[0].userId).value;
  }

  /**
   * The movie user handled is the one in the first row of `users.dat`, and
   * it has ratings: `data` holds only users of `ratings.dat`.
   */
  lemma FirstMovieUser(folder: string, files: Files, n: int)
    requires FirstKey(MovieLens, folder, files) == Success(Some(MovieKey(n)))
    ensures files.usersDat.Some? && |files.usersDat.value| > 0 && files.usersDat.value[0].userId == n
    ensures files.ratingsDat.Some? && exists i :: 0 <= i < |files.ratingsDat.value| && files.ratingsDat.value[i].userId == n
  {
    var o := DataOutcome(folder, files.usersDat, files.moviesDat, files.ratingsDat);
    assert o.error.None? && n in IdSet(o.profiles);
    DataComplete(folder, files.usersDat, files.moviesDat, files.ratingsDat);
    var k :| 0 <= k < |o.profiles| && o.profiles[k].id == n;
    assert ProfileIds(o.profiles)[k] == n;
    assert n in UserIds(files.ratingsDat.value);
  }

  /** The music user handled is the user of the first interaction. */
  lemma FirstMusicUser(folder: string, files: Files, u: string)
    requires FirstKey(Amazon, folder, files) == Success(Some(MusicKey(u)))
    ensures files.interFile.Some? && |files.interFile.value.rows| > 0 && files.interFile.value.rows[0].userId == u
  {
    assert files.interFile.Some?;
    UserOrderFirst(files.interFile.value.rows);
  }

  /**
   * `evaluate_embeddings(mode, folder, agent, test, result_folder)`. The
   * services behind the agent and the long instruction texts are
   * parameters. An exception from the dataset (before the `try`) ends the
   * run with nothing written; otherwise the first user, if any, is
   * handled and the files are written.
   */
  method EvaluateEmbeddings(mode: string, folder: string, agentName: string, test: bool, resultFolder: string,
                            files: Files, service: Adapter, movieInstructions: string, musicInstructions: string)
    returns (r: Result<Written, Error>, first: Option<Processed>)
    ensures SelectMode(mode).Failure? ==> r == Failure(Unbound) && first.None?
    ensures SelectMode(mode).Success? ==>
      var k := FirstKey(SelectMode(mode).value, folder, files);
      && (r.Failure? <==> k.Failure?)
      && (r.Failure? ==> r.error == k.error && first.None?)
      && (r.Success? ==> (first.None? <==> k.value.None?) && (first.Some? ==> Some(KeyOf(first.value)) == k.value))
    ensures SelectMode(mode).Success? ==>
      var h := FirstHandled(SelectMode(mode).value, folder, files, AttachedAdapter(agentName, service),
                            if SelectMode(mode).value == MovieLens then movieInstructions else musicInstructions, test);
      && (r.Failure? <==> h.Failure?)
      && (r.Success? ==> first == h.value)
    ensures r.Success? ==> SelectMode(mode).Success? && r.value == Output(SelectMode(mode).value, resultFolder, Ledgers(first))
  {
    var m := SelectMode(mode);
    if m.Failure? {
      return Failure(m.error), None;
    }
    var handled: Result<Option<Processed>, Error>;
    match m.value {
      case MovieLens =>
        handled := RunMovie(folder, agentName, test, files, service, movieInstructions);
      case Amazon =>
        handled := RunMusic(folder, agentName, test, files, service, musicInstructions);
    }
    if handled.Failure? {
      return Failure(handled.error), None;
    }
    first := handled.value;
    r := Success(Output(m.value, resultFolder, Ledgers(first)));
  }

  /** The `ml-1m` branch up to the `break`: the first user of a fresh movie dataset, handled by a fresh movie agent. */
  method RunMovie(folder: string, agentName: string, test: bool, files: Files, service: Adapter, instructions: string)
    returns (r: Result<Option<Processed>, Error>)
    ensures files.usersDat.None? ==> r == Failure(MovieDatasets.NoFile(FilePath(folder, "users.dat")))
    ensures files.usersDat == Some([]) ==> r == Success(None)
    ensures r.Failure? <==> FirstKey(MovieLens, folder, files).Failure?
    ensures r.Failure? ==> r.error == FirstKey(MovieLens, folder, files).error
    ensures r.Success? ==> (r.value.None? <==> FirstKey(MovieLens, folder, files).value.None?)
    ensures r.Success? && r.value.Some? ==> Some(KeyOf(r.value.value)) == FirstKey(MovieLens, folder, files).value
    ensures r.Success? && r.value.Some? && r.value.value.Raised? ==> r.value.value.key.MovieKey?
    ensures r.Success? && r.value.Some? && r.value.value.Described? ==> r.value.value.record.MovieEntry? && (test ==> r.value.value.record.movie.embedding.None?)
    ensures r == FirstHandled(MovieLens, folder, files, AttachedAdapter(agentName, service), instructions, test)
  {
    var dataset := new MovieDataset(folder, files.usersDat, files.moviesDat, files.ratingsDat, None);
    var agent := new EmbedAgent(Movie, agentName, service, instructions);
    var user := dataset.First();
    if user.Failure? {
      return Failure(user.error);
    }
    if user.value.None? {
      return Success(None);
    }
    var u := user.value.value;
    StoredUserValid(dataset, u);
    ghost var q := FirstMovieProfile(folder, files, agent.adapter, instructions, test);
    MovieDatasets.StoredIsProfile(dataset.data.value, dataset.Outcome().profiles, u);
    var p := ProcessMovie(agent, u, test);
    r := Success(Some(p));
    FirstHandledKey(MovieLens, folder, files, agent.adapter, instructions, test);
  }

  /** The `amazon` branch up to the `break`: the first user of a fresh music dataset, handled by a fresh music agent. */
  method RunMusic(folder: string, agentName: string, test: bool, files: Files, service: Adapter, instructions: string)
    returns (r: Result<Option<Processed>, Error>)
    ensures files.itemFile.None? ==> r == Failure(Error(FileNotFoundError, "File not found: " + Text.PathJoin(folder, ItemFileName)))
    ensures r.Failure? <==> FirstKey(Amazon, folder, files).Failure?
    ensures r.Failure? ==> r.error == FirstKey(Amazon, folder, files).error
    ensures r.Success? ==> (r.value.None? <==> FirstKey(Amazon, folder, files).value.None?)
    ensures r.Success? && r.value.Some? ==> Some(KeyOf(r.value.value)) == FirstKey(Amazon, folder, files).value
    ensures r.Success? && r.value.Some? && r.value.value.Raised? ==> r.value.value.key.MusicKey?
    ensures r.Success? && r.value.Some? && r.value.value.Described? ==> r.value.value.record.MusicEntry? && (test ==> r.value.value.record.music.embedding.None?)
    ensures r == FirstHandled(Amazon, folder, files, AttachedAdapter(agentName, service), instructions, test)
  {
    var dataset := new MusicDataset(folder, files.itemFile, files.interFile);
    var agent := new EmbedAgent(Music, agentName, service, instructions);
    var user := dataset.First();
    if user.Failure? {
      return Failure(user.error);
    }
    if user.value.None? {
      return Success(None);
    }
    var u := user.value.value;
    FirstMusicRatings(folder, files, agent.adapter, instructions, test, u, dataset.items.value);
    var p := ProcessMusic(agent, u, test);
    r := Success(Some(p));
    FirstHandledKey(Amazon, folder, files, agent.adapter, instructions, test);
  }

  /** A user `dataset[...]` returned is one of the stored, well-formed users. */
  lemma StoredUserValid(dataset: MovieDataset, u: MovieUser)
    requires dataset.Valid() && InData(One(u), dataset.data)
    ensures u.Valid() && u.embedding.None?
  {
    MovieDatasets.StoredUnused(dataset.data.value, dataset.Outcome().profiles, u.id);
  }
}
