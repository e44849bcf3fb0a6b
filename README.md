# LLMUserEncoder, modelled in Dafny

LLMUserEncoder turns two rating datasets into prompts for a language model:
MovieLens 1M (users, movies, ratings) and Amazon CDs and Vinyl (items,
interactions). It then stores the model's description of each user and, outside
test mode, an embedding of that description. This project models the part that
runs before and after the network calls:

- the item records and their normalisation;
- the users and their rating dicts, with the three prompt renderings;
- the two lazily built datasets;
- the description and embedding agents with their `functools.cache` memo tables;
- the driver `evaluate_embeddings`.

The remote services, file reading and pandas are replaced by their inputs. A
file is a parsed table, or `None` when it does not exist. A service is a
function value inside an `Adapter`.

Modules, leaves first:

| module | file | models |
|---|---|---|
| `Wrappers`, `Exceptions` | base.dfy | `Option`/`Result`; the Python exceptions raised, with their `str(e)` text |
| `Text` | text.dfy | `str.join`, `str(int)`, `replace`, `split(c)[0]`, `repr`, `os.path.join` |
| `Dicts` | dicts.dfy | a Python `dict` as a key-order sequence plus a map |
| `MusicItems` | music_item.dfy | `MusicItem` and its two field validators |
| `MusicUsers` | music_user.dfy | class `MusicUser`: `add`, `prompt_v1`, `prompt_v2`, `prompt`, `dict` |
| `MovieItems` | movie_item.dfy | `MovieItem`: comparisons, `str`, `repr`, `hash` |
| `MovieUsers` | movie_user.dfy | class `MovieUser`: the age table, `prompt`, `hash`, `dict` |
| `Llm` | llm.dfy | messages, replies, embeddings; the service adapter |
| `MusicDatasets` | music_dataset.dfy | class `MusicDataset`: `get_item_dict`, `get_user_dict`, lazy `items`/`users`, `[]`, `iter`, `len` |
| `MovieDatasets` | movie_dataset.dfy | class `MovieDataset`: `user_score`, `movie_dict`, lazy `data`, `[]` for int, slice, list and other keys, `len`, `iter` |
| `Agents` | agents.dfy | class `EmbedAgent` with kind `Base`, `Movie` or `Music`: the adapter rule, the description prompt, both memo tables, `encode_user` |
| `Encode` | encode.dfy | `evaluate_embeddings` |

Some behaviours of the code are easy to miss. The model keeps each of them:

- **Canonical ids.** An all-zero or empty id raises `IndexError` (`v[0]` on `""`); it never becomes `""`.
- **Equal timestamps.** A repeated observation with an equal timestamp keeps the first one, because the comparison is strict.
- **Driver loop.** It stops after the first user (the `break`); later users are never processed.
- **Embedding input.** `encode_description` hands the description to the adapter unchanged. The adapter's `get_embedding` then replaces its newlines with spaces (src/agents/openai_adapter.py:57), which happens outside this model. Within the agent, only the system instruction of the description prompt has its newlines replaced.
- **Whitelist.** The constructor drops it, so every rating is used.
- **Unknown movie ids.** A rating for a movie missing from `movie_dict` raises `KeyError`; nothing is skipped.
- **Item rows.** Only `ValidationError` is swallowed. A row whose id validator raises `IndexError`, or whose categories are numeric, makes that error escape from `get_item_dict`.

## Model

| member | source | states |
|---|---|---|
| Text.NatToStringRoundTrip | src/movie/movie_user.py:46 | `str(n)` is a non-empty digit string with no leading zero (except `0`), and reading it back gives `n` |
| Text.IntToStringInjective | src/movie/movie_user.py:46 | distinct integers render to distinct strings, so a `"<title>: <rating>"` entry names its rating |
| Text.IntToStringExcludes | src/movie/movie_user.py:46 | a rendered integer holds only digits and `-` |
| Text.JoinCountsSeparators | src/music/music_user.py:42-54 | joining k parts free of `c` with `[c]` gives exactly k-1 occurrences of `c` (one `"\n"` between lines) |
| Text.JoinExcludes | src/music/music_user.py:53 | a character absent from the separator and every part is absent from the join |
| Text.ReplaceCharRemoves | src/agents/embed_agent.py:114 | `replace(a, b)` with `a != b` leaves no `a` and keeps the length |
| Text.Before | src/music/music_dataset.py:38 | `s.split(c)[0]` is the prefix of `s` before its first `c`, contains no `c`, and is followed by `c` when shorter than `s` |
| Text.BeforeAbsent | src/music/music_dataset.py:38 | a name without `c` is its own first split field |
| Text.Quote | src/music/music_dataset.py:77 | `repr(s)`, the text of a `KeyError` for a string key: `s` escaped between two equal quotes, `"` when `s` holds a `'` and no `"`, otherwise `'` |
| Text.QuoteRoundTrip | src/music/music_dataset.py:77 | reading the quoted text back gives the original string, so no two keys share a message |
| Text.QuotePlain | src/music/music_dataset.py:77 | a string of printable characters without `'` or a backslash is shown as it is, in single quotes |
| Text.PathJoin | encode.py:80 | `os.path.join(a, b)` starts with `a` and ends with `b`, and is one character longer than both together, that character a `/`, unless `a` is empty or already ends in `/` |
| Dicts.PutSpec | src/music/music_user.py:18-20 | `d[k] = v` keeps the dict well formed, maps `k` to `v`, leaves other entries alone, keeps an existing key's position and appends a new key |
| Dicts.LengthIsCardinality | src/music/music_dataset.py:82-83 | `len(d)` is the number of distinct keys |
| Dicts.Dict.Items | src/music/music_user.py:24 | `d.items()` has one pair per key, in insertion order; every pair is an entry of the dict and every entry is listed |
| Dicts.Dict.Values | src/music/music_dataset.py:79-80 | `d.values()` is the second component of each pair of `d.items()`, so every stored value is listed |
| Dicts.Empty | src/music/music_dataset.py:42 | `{}` is a well-formed empty dict |
| MusicItems.HashDependsOnlyOnId | src/music/music_item.py:25-26 | two items with the same id hash alike, whatever their other fields |
| MusicItems.ValidateCategories | src/music/music_item.py:10-15 | the three `replace` passes equal one filter deleting `[`, `]` and `'` |
| MusicItems.WithoutSpec | src/music/music_item.py:13-14 | the filter leaves none of the deleted characters, keeps every other character's count, and keeps the survivors in order |
| MusicItems.WithoutIdempotent | src/music/music_item.py:13-14 | filtering a second time changes nothing |
| MusicItems.CleanCategoriesSpec | src/music/music_item.py:10-15 | the cleaned categories contain no `[`, `]` or `'`, keep all other characters in order, and cleaning is idempotent |
| MusicItems.CanonicalId | src/music/music_item.py:19-23 | stripping succeeds iff the string has a non-`'0'` character, and then yields the string minus its leading zeros, not starting with `'0'`; otherwise it raises `IndexError` "string index out of range" |
| MusicItems.CanonicalIdFixes | src/music/music_item.py:21-23 | an id without a leading zero is returned unchanged |
| MusicItems.CanonicalIdExamples | src/music/music_item.py:21-22 | `"0042"` becomes `"42"`; `"0"`, `"000"` and `""` fail |
| MusicItems.NumericIds | src/music/music_item.py:20-23 | a positive numeric id becomes its decimal string; the number 0 fails |
| MusicItems.ValidateIds | src/music/music_item.py:17-23 | the `while v[0] == "0"` loop computes the canonical id of `str(v)`, including the failure |
| MusicItems.Validate | src/music/music_item.py:3-23 | an item is built iff the id validates and categories, brand and sales type are strings, and it carries the canonical id, the cleaned categories and the row's brand and sales type. An id failure escapes as its own exception, and numeric categories as the `AttributeError` "'int' object has no attribute 'replace'"; otherwise a numeric field is a `ValidationError` |
| MusicItems.BuildItem | src/music/music_dataset.py:66-70 | constructing `MusicItem(...)` runs both validators and gives the outcome `Validate` describes |
| MusicUsers.ObserveSpec | src/music/music_user.py:14-20 | `add` keeps `ratings` and `timestamps` with the same keys; a new item is appended with both values; a known item is replaced only by a strictly greater timestamp, and otherwise nothing changes; other items are untouched |
| MusicUsers.Replay | src/music/music_user.py:14-20 | any sequence of `add` calls keeps the two dicts parallel |
| MusicUsers.RatedIffObserved | src/music/music_user.py:18-20 | after a sequence of `add` calls an item is rated iff it was added at least once |
| MusicUsers.FirstNewestObservationWins | src/music/music_user.py:18-20 | after any sequence of `add` calls an item's rating and timestamp are those of its first observation with the greatest timestamp |
| MusicUsers.MusicUser.constructor | src/music/music_user.py:6-12 | a new user has no ratings, timestamps, description or embedding |
| MusicUsers.MusicUser.Add | src/music/music_user.py:14-20 | `add` creates both dicts on first use and then performs the `Observe` update on both |
| MusicUsers.MusicUser.History | src/music/music_user.py:15-17 | the two dicts, an unset one read as empty, have the same keys |
| MusicUsers.PromptV1Counts | src/music/music_user.py:36-40 | `prompt_v1` is `"I have rated N items. "` followed by the `", "`-join of the entries, where N is the number of distinct rated items and there is one entry per item |
| MusicUsers.PromptV1Single | src/music/music_user.py:36-40 | one rated item renders as `"I have rated 1 items. "` followed by its single entry |
| MusicUsers.PromptV2Lines | src/music/music_user.py:42-54 | `prompt_v2` is the newline-join of one sentence per non-empty bucket, in rating order 5 to 1; no line is empty |
| MusicUsers.FilterSentences | src/music/music_user.py:53 | `[x for x in desc if x]` keeps exactly the sentences of the non-empty buckets |
| MusicUsers.FiveSentences | src/music/music_user.py:48-52 | the candidate sentences are those for ratings 5, 4, 3, 2, 1, in that order |
| MusicUsers.NonEmpty | src/music/music_user.py:53 | the filter keeps only non-empty strings |
| MusicUsers.PromptV2IgnoresOutOfRange | src/music/music_user.py:44-52 | dropping every item rated outside 1..5 leaves `prompt_v2` unchanged, so such ratings never appear |
| MusicUsers.BucketsPartition | src/music/music_user.py:43-46 | every item rated 1..5 lands in exactly one bucket: the bucket sizes add up to the number of such items |
| MusicUsers.BucketOnSameValues | src/music/music_user.py:44-46 | a bucket depends only on the ratings of its keys |
| MusicUsers.InRange | src/music/music_user.py:48-52 | the items kept have ratings within 1..5 |
| MusicUsers.MusicUser.PromptV2 | src/music/music_user.py:42-54 | the `defaultdict` loop and tuple give the newline-join of the non-empty bucket sentences; with no ratings it raises `AttributeError` |
| MusicUsers.MusicUser.Prompt | src/music/music_user.py:31-34 | `prompt()` is `prompt_v2` when `new_prompt` is set, else `prompt_v1`; with no ratings the first raises `AttributeError` and the second `TypeError` |
| MusicUsers.MusicUser.Dict | src/music/music_user.py:23-28 | `dict()` holds the id, one entry per rated item in insertion order, the prompt, description and embedding; with no ratings it raises `AttributeError` |
| MovieItems.CompareZero | src/movie/movie_item.py:51-62 | the title comparison is zero exactly on equal titles |
| MovieItems.CompareFlip | src/movie/movie_item.py:75-121 | swapping the operands flips the sign of the comparison |
| MovieItems.CompareTransitive | src/movie/movie_item.py:75-86 | "sorts before" is transitive |
| MovieItems.EqualityByTitle | src/movie/movie_item.py:51-73 | `a == b` iff the titles are equal, and `!=` is its negation |
| MovieItems.Trichotomy | src/movie/movie_item.py:51-121 | exactly one of `a < b`, `a == b`, `a > b` holds |
| MovieItems.WeakOrders | src/movie/movie_item.py:87-121 | `a <= b` iff `a < b` or `a == b`; `a >= b` iff `a > b` or `a == b` |
| MovieItems.ConverseOrders | src/movie/movie_item.py:75-121 | `a > b` iff `b < a`, and `a >= b` iff `b <= a` |
| MovieItems.StrictOrder | src/movie/movie_item.py:75-86 | `<` is irreflexive and transitive |
| MovieItems.PrintingAndHashing | src/movie/movie_item.py:24-49 | `str` and `repr` return the title, and equal items hash alike |
| MovieUsers.AgeBucket | src/movie/movie_user.py:29-35 | an age has a label iff it is one of 1, 18, 25, 35, 45, 50, 56 |
| MovieUsers.AgeBucketInjective | src/movie/movie_user.py:29-35 | distinct ages in the table have distinct labels |
| MovieUsers.GenderWord | src/movie/movie_user.py:44 | the word is `"Male"` exactly when the gender is `"M"` |
| MovieUsers.PromptOutcome | src/movie/movie_user.py:44-48 | the prompt succeeds iff the age is in the table and there are rankings; otherwise it raises `KeyError(age)` first, then `AttributeError` |
| MovieUsers.PromptShape | src/movie/movie_user.py:45-48 | the prompt is the gender/age opening followed by the `", "`-join of the entries; with no rankings it ends in `"follows: "` |
| MovieUsers.PromptExample | src/movie/movie_user.py:44-48 | F, 25, {Movie A: 5, Movie B: 2} renders as "I am a Female of age 25-34 and I rank movies as follows: Movie A: 5, Movie B: 2" |
| MovieUsers.MovieUser.constructor | src/movie/movie_user.py:23-28 | a new user has its fields and no description or embedding |
| MovieUsers.MovieUser.Prompt | src/movie/movie_user.py:37-48 | `prompt()` reads only fields fixed at construction; it succeeds iff the age is known and there are rankings |
| MovieUsers.HashDependsOnlyOnId | src/movie/movie_user.py:50-57 | two users with the same id hash alike |
| MusicDatasets.ColumnNames | src/music/music_dataset.py:38 | each column is renamed to the part of its header before the first `:` |
| MusicDatasets.ColumnNamesPlain | src/music/music_dataset.py:61 | a header without `:` keeps its name |
| MusicDatasets.MissingItemColumn | src/music/music_dataset.py:67-70 | the missing field found is absent from the columns; none is found only when all four fields the loop reads exist |
| MusicDatasets.LoadFails | src/music/music_dataset.py:64-73 | the item loop fails iff some row raises something other than `ValidationError` |
| MusicDatasets.LoadStored | src/music/music_dataset.py:71 | after a successful loop every item is stored under its own id and was built from some row |
| MusicDatasets.LoadLastWins | src/music/music_dataset.py:71 | every built id is a key, holding the item of the last row with that id |
| MusicDatasets.FailurePersists | src/music/music_dataset.py:64-73 | once the loop has raised, the whole loop raises that |
| MusicDatasets.GetItemDict | src/music/music_dataset.py:54-74 | `get_item_dict` raises `FileNotFoundError` with the path when the file is missing. It raises `KeyError` with no `item_id` column, `ValueError` on a repeated id, and `KeyError` for a missing field when there are rows; otherwise it runs the item loop |
| MusicDatasets.LoadRows | src/music/music_dataset.py:63-74 | the item loop over the rows gives `Load` of their outcomes |
| MusicDatasets.AcceptSpec | src/music/music_dataset.py:46-50 | an unknown canonical id is skipped; a failing id validation escapes; an accepted row adds the stored item with the row's rating and its timestamp, or 0 without a timestamp column |
| MusicDatasets.UserOrderSpec | src/music/music_dataset.py:44-45 | the users appear once each, and exactly the ids that occur, even if all their interactions are skipped |
| MusicDatasets.UnknownItemSkipped | src/music/music_dataset.py:46-50 | an interaction with an unknown item adds nothing and never makes the loop fail |
| MusicDatasets.ObsOfUnseen | src/music/music_dataset.py:44-45 | a user id not yet seen has no accepted interactions |
| MusicDatasets.UserOrderSnoc | src/music/music_dataset.py:44-45 | one more interaction appends its user id only if it is new |
| MusicDatasets.ObsOfSnoc | src/music/music_dataset.py:46-48 | one more interaction adds its observation, if accepted, to its own user only |
| MusicDatasets.EnsureUser | src/music/music_dataset.py:44-45 | a new id gets a fresh empty user appended to the dict; a known id changes nothing |
| MusicDatasets.Visit | src/music/music_dataset.py:43-50 | one pass keeps the building invariant: each user holds exactly its accepted interactions, added in order |
| MusicDatasets.Record | src/music/music_dataset.py:48 | the `add` call extends the user's history by the accepted observation |
| MusicDatasets.GetUserDict | src/music/music_dataset.py:31-52 | a missing file raises with its path. The loop raises iff some interaction raises, and then with the first such error. Otherwise the users are those of first appearance, each holding its accepted interactions in order |
| MusicDatasets.RaisePersists | src/music/music_dataset.py:43-50 | once the interaction loop has raised, the whole loop raises that |
| MusicDatasets.UsersCoverInteractions | src/music/music_dataset.py:79-83 | the users are exactly the distinct user ids of the interactions, and `len` is their number |
| MusicDatasets.MusicDataset.constructor | src/music/music_dataset.py:12-16 | the caches start unset |
| MusicDatasets.MusicDataset.Items | src/music/music_dataset.py:19-23 | `items` is built once; a successful build is kept and reused |
| MusicDatasets.MusicDataset.Users | src/music/music_dataset.py:25-29 | `users` is built once, from `items` (loaded or reused). It fails exactly when the item load or the interaction loop would raise, with that exception, and a failure leaves `users` unset. A fresh build holds fresh users, one per interaction user id |
| MusicDatasets.MusicDataset.Get | src/music/music_dataset.py:76-77 | `dataset[key]` raises what building `users` raises; otherwise it is the stored user, or `KeyError` with the quoted key |
| MusicDatasets.MusicDataset.Iterate | src/music/music_dataset.py:79-80 | iteration raises exactly what building `users` raises; otherwise it yields the users' values in first-appearance order |
| MusicDatasets.MusicDataset.First | src/music/music_dataset.py:79-80 | the first user yielded, the user of the first interaction, or none for an empty dataset; it raises exactly what building `users` raises |
| MusicDatasets.MusicDataset.Length | src/music/music_dataset.py:82-83 | `len` raises exactly what building `users` raises; otherwise it is the number of distinct user ids |
| MusicDatasets.UserOrderFirst | src/music/music_dataset.py:44-45 | the first user is the user of the first interaction |
| MovieDatasets.InsertSpec | src/movie/movie_dataset.py:57-58 | adding an id to the sorted id list keeps it increasing and adds exactly that id |
| MovieDatasets.UserScore | src/movie/movie_dataset.py:48-59 | `user_score` has one group per rating user, in strictly ascending id order and covering exactly the ids that rate something; each group holds that user's pairs in file order and is non-empty |
| MovieDatasets.GroupsNonEmpty | src/movie/movie_dataset.py:57-58 | every user that rates something has at least one pair |
| MovieDatasets.PairsOfNonEmpty | src/movie/movie_dataset.py:57-58 | every rating is in its user's group |
| MovieDatasets.MovieDictSpec | src/movie/movie_dataset.py:61-71 | with distinct ids, `movie_dict` holds exactly the movies of the file, each under its id with its title |
| MovieDatasets.RankingsFails | src/movie/movie_dataset.py:130 | the title map fails iff some pair names a movie missing from `movie_dict` |
| MovieDatasets.RankingsFirstError | src/movie/movie_dataset.py:130 | the failure is the `KeyError` of the first such pair |
| MovieDatasets.RankingsTitles | src/movie/movie_dataset.py:130 | a successful title map is a well-formed dict whose keys are exactly the titles of the pairs |
| MovieDatasets.RankingsLastWins | src/movie/movie_dataset.py:130 | movies with the same title collapse, and the last pair with that title gives the rating |
| MovieDatasets.FirstRowSpec | src/movie/movie_dataset.py:131-132 | there is no row iff no row has the id; otherwise the row found is the earliest row with that id |
| MovieDatasets.MakeProfileSpec | src/movie/movie_dataset.py:125-133 | a user is built only when the movies could be read (or the group is empty), the user has a row and the gender is `"M"` or `"F"`; it carries the group's id and rankings and the row's gender and age |
| MovieDatasets.Collect | src/movie/movie_dataset.py:122-134 | the loop runs passes until the first exception; the profiles kept are the passes before it |
| MovieDatasets.BuildStops | src/movie/movie_dataset.py:122-134 | once a pass has raised, the rest of the loop changes nothing |
| MovieDatasets.BuiltIdsIncreasing | src/movie/movie_dataset.py:124 | the users are built in ascending id order |
| MovieDatasets.DataComplete | src/movie/movie_dataset.py:122-135 | without an exception every rating user gets a user, in ascending id order, whose rankings are its titles and ratings and whose gender and age come from its first users row |
| MovieDatasets.RangeValues | src/movie/movie_dataset.py:159 | `range(start, stop, step)` yields `start + i * step` |
| MovieDatasets.RangeBounds | src/movie/movie_dataset.py:159 | every value lies before `stop`, on the side `step` points to |
| MovieDatasets.UnitRange | src/movie/movie_dataset.py:159 | with step 1 the range is `start .. stop-1` |
| MovieDatasets.LookInts | src/movie/movie_dataset.py:159-161 | a successful list comprehension has one result per key |
| MovieDatasets.LookAll | src/movie/movie_dataset.py:160-161 | a successful list key has one result per element |
| MovieDatasets.BuiltViewStays | src/movie/movie_dataset.py:137-163 | once `data` is built, lookups do not change what later lookups see |
| MovieDatasets.ListElementwise | src/movie/movie_dataset.py:160-161 | on a built `data`, the element lookups succeed iff each element does, and the results come element-wise in list order |
| MovieDatasets.ListKeyIsElementwise | src/movie/movie_dataset.py:160-161 | `dataset[[k1, k2, ...]]` is `[dataset[k1], dataset[k2], ...]` |
| MovieDatasets.IntKeyOutcome | src/movie/movie_dataset.py:147-148 | an int key raises a pending build's error; otherwise it gives user `n`, or `KeyError(n)` |
| MovieDatasets.SliceAndOtherKeys | src/movie/movie_dataset.py:149-163 | a slice defaults to start 1, stop `len(dataset)`, step 1, and a zero step raises; any other key type raises `ValueError` |
| MovieDatasets.LookIntsStops | src/movie/movie_dataset.py:159-161 | the comprehension raises at the first lookup that does |
| MovieDatasets.KeysOfHolds | src/movie/movie_dataset.py:134 | the dict's keys are the profile ids |
| MovieDatasets.StoredUnused | src/movie/movie_dataset.py:133-134 | a freshly stored user has no description or embedding |
| MovieDatasets.MovieDataset.constructor | src/movie/movie_dataset.py:31-46 | the whitelist is dropped and the `data` cache starts unset |
| MovieDatasets.MovieDataset.Length | src/movie/movie_dataset.py:165-172 | `len` is the number of users-table rows, or the error of a missing users file |
| MovieDatasets.MovieDataset.Data | src/movie/movie_dataset.py:114-135 | `data` is built once. An exception is raised but the users built so far stay cached, and later calls return them. A fresh build holds fresh users |
| MovieDatasets.BuildData | src/movie/movie_dataset.py:122-134 | the body of `data` stores one user per profile built before the first exception, keyed by id, and returns that exception |
| MovieDatasets.BuildUsers | src/movie/movie_dataset.py:124-134 | the loop stores exactly the users of the profiles built, in order, fresh and undescribed, and stops at the first exception |
| MovieDatasets.Step | src/movie/movie_dataset.py:125-134 | one pass appends its user or records its exception, leaving earlier users untouched |
| MovieDatasets.Attempt | src/movie/movie_dataset.py:125-133 | a pass computes the profile of its group, carrying the group's id |
| MovieDatasets.AddUser | src/movie/movie_dataset.py:133-134 | storing a new user appends its id and leaves the other users alone |
| MovieDatasets.MovieDataset.Get | src/movie/movie_dataset.py:137-163 | `dataset[key]` gives the outcome `Look` describes for that key and the view it leaves; the users returned are stored in `data` |
| MovieDatasets.MovieDataset.GetInt | src/movie/movie_dataset.py:147-148 | `self.data[n]` |
| MovieDatasets.MovieDataset.GetInts | src/movie/movie_dataset.py:159 | `[self[idx] for idx in range(...)]`, element by element |
| MovieDatasets.MovieDataset.GetAll | src/movie/movie_dataset.py:160-161 | `[self[idx] for idx in user_id]`, element by element |
| MovieDatasets.MovieDataset.Iterate | src/movie/movie_dataset.py:174-182 | iteration is `self[user_id]` for each users-table row, in file order |
| MovieDatasets.MovieDataset.First | src/movie/movie_dataset.py:174-182 | the first user yielded: none for an empty users table, otherwise `self[id]` of the first row |
| Agents.AttachedAdapter | src/agents/embed_agent.py:31-34 | an adapter is attached iff the agent name is `"openai"` |
| Agents.EmbedAgent.constructor | src/EmbedAgent.py:27-30 | the adapter rule, with empty memo tables |
| Agents.SystemContent | src/agents/embed_agent.py:98-114 | the system message contains no newline |
| Agents.BuildPrompt | src/agents/embed_agent.py:95-120 | the prompt is two messages, `system` then `user`; the user content is the prompt text and the system content has no newline |
| Agents.Answer | src/agents/embed_agent.py:123 | the result is the first choice's content; no choices raises `IndexError` |
| Agents.DescribeSpec | src/agents/embed_agent.py:121-123 | a failing `user.prompt()` raises first. In test mode the prompt itself is returned and nothing is sent. Otherwise exactly that prompt is sent and the first choice's content is returned; a missing adapter or a failing reply raises |
| Agents.MemoRepeats | src/agents/embed_agent.py:84 | a successful call is remembered: repeating it returns the same value and changes nothing; other keys are unaffected |
| Agents.EmbedMemoised | src/agents/embed_agent.py:49-60 | an embedded text is answered from the cache without asking the service; a test-mode prompt is unhashable |
| Agents.EmbedAgent.GetUserDescription | src/agents/embed_agent.py:84-123 | the call goes through the memo table keyed by the user object, the test flag and the call form, sending only on a miss |
| Agents.EmbedAgent.Describe | src/agents/embed_agent.py:128-158 | the uncached description, with what it sends |
| Agents.EmbedAgent.EncodeDescription | src/agents/embed_agent.py:49-60 | `encode_description` through its memo table, sending only on a miss |
| Agents.EmbedAgent.EncodeUser | src/agents/embed_agent.py:62-74 | `encode_user(u, t)` is `encode_description(get_user_description(u, t))`; a failing description raises before any embedding |
| Agents.DescriptionMemoised | src/EmbedAgentMovie.py:15 | a repeated call for the same user object and test flag is answered from the cache, sends nothing and changes nothing; test and non-test calls are different keys |
| Agents.BaseDescribesNone | src/EmbedAgent.py:32-43 | the base agent returns `None` and never calls the service |
| Encode.SelectMode | encode.py:58-64 | `"ml-1m"` selects the movie dataset and agent, `"amazon"` the music ones; any other mode leaves `dataset` unbound |
| Encode.ModeName | encode.py:80 | each mode's name selects that mode |
| Encode.Ledgers | encode.py:66-78 | the error ledger is a well-formed dict |
| Encode.LedgersPartition | encode.py:69-78 | the user handled lands in exactly one ledger: its record, or `str(e)` under its id; with no user both stay empty |
| Encode.Output | encode.py:80-89 | the results file is always written; the errors file, holding the ledger, only when the ledger is non-empty |
| Encode.OutputPaths | encode.py:80-85 | the files are `<folder>/<mode>_description.json` and `<folder>/<mode>_errors.json`, and they differ |
| Encode.ProcessMovie | encode.py:69-76 | the body of the `try` for a movie user: a failing description or embedding puts `str(e)` under the id; in test mode nothing is embedded; otherwise the record; on a fresh agent the outcome is `HandleMovie` of the user's gender, age and rankings |
| Encode.ProcessMusic | encode.py:69-76 | the same for a music user, where `dict()` can raise too: when the description and, outside test mode, the embedding succeed, a user with ratings is recorded with its id, ratings, `prompt()` text, description and embedding, and a user without ratings is filed with the `dict()` error under its id; on a fresh agent the outcome is `HandleMusic` of the user's ratings |
| Encode.RunMovie | encode.py:58-78 | the run raises exactly when reading or building the first user raises, with that exception; otherwise the user handled is the one of the first users-table row, or none for an empty table; the record of a described user has no embedding in test mode; and the outcome is `FirstHandled`: the user built from that row's profile, described from its prompt by a fresh agent and then embedded |
| Encode.RunMusic | encode.py:58-78 | the run raises exactly when building the users raises, with that exception; otherwise the user handled is the one of the first interaction, or none without interactions; the record of a described user has no embedding in test mode; and the outcome is `FirstHandled`: that user, with the ratings replayed from its interactions, described by a fresh agent and then embedded |
| Encode.EvaluateEmbeddings | encode.py:44-89 | an unknown mode leaves `dataset` unbound, so the loop raises `UnboundLocalError`; otherwise the run raises exactly when the dataset fails to give its first user, and a run that completes writes the ledgers of the dataset's first user, or empty ledgers for an empty dataset; the user recorded or filed is the outcome `FirstHandled` gives for the selected mode and its instructions |
| Encode.FirstMovieUser | encode.py:58-66 | the first MovieLens user is the id of the first users-table row, and that user rates something |
| Encode.FirstMusicUser | encode.py:58-66 | the first Amazon user is the user of the first interaction |
| Encode.StoredUserValid | encode.py:68 | a user yielded by the dataset is well formed and not yet embedded |
| Encode.HandleMovie | encode.py:67-76 | the outcome of the `try` is filed under the user's id |
| Encode.HandleMusic | encode.py:67-76 | the outcome of the `try` is filed under the user's id, and only a user with ratings is recorded |
| Encode.HandleMovieCases | encode.py:69-76 | an unknown age files the prompt's error; test mode records the chat that would be sent and no embedding; an agent other than `openai` files the missing `agent` attribute; a recorded user outside test mode carries a completion and an embedding |
| Encode.HandleMusicCases | encode.py:69-76 | a user without ratings files the `len(None)` error; test mode records the chat that would be sent and no embedding; an agent other than `openai` files the missing `agent` attribute; a recorded user outside test mode carries a completion and an embedding |
| Encode.FirstHandledKey | encode.py:58-78 | the run fails, finds no user, or handles the user `FirstKey` names, whatever the services answer |
| Encode.FirstMovieProfile | encode.py:58-76 | the MovieLens user handled is built from a profile of the loader, with that profile's id and well-formed rankings |
| Encode.FirstMusicRatings | encode.py:58-76 | the Amazon user yielded first is well formed, uses `prompt_v1`, is not yet embedded, and its outcome is `HandleMusic` of its own ratings |
| MovieDatasets.BuiltRankingsValid | src/movie/movie_dataset.py:124-134 | every profile the loader builds has well-formed rankings |
| MovieDatasets.StoredIsProfile | src/movie/movie_dataset.py:133-134 | a stored user has the gender, age and rankings of every profile with its id |
| MovieDatasets.FindProfile | src/movie/movie_dataset.py:133-134 | a profile with the id is found exactly when the id is among the profile ids, and it has that id |

## Left out

- I/O: reading the dataset files, the token file and the YAML, pandas parsing (the `::` separator, latin-1, `fillna`), and JSON dumping. Tables and written files are values instead.
- The network: the OpenAI adapters are out of scope, including their exponential backoff. Their calls are function values in `Llm.Adapter`.
- Command-line parsing, `logging`, `print(k)` of a rejected item row, and the `tqdm` progress bar. The bar's call of `len(dataset)` raises nothing the first step of the iteration would not, so it adds no outcome.
- The long instruction texts: a parameter of each agent, known only to have its newlines replaced.
- The pydantic machinery beyond what the loaders meet: type coercion, extra fields, `model_dump_json` in `MusicItem.__str__`, and validation of `age` (the users table supplies integers).
- Embeddings are opaque values; no arithmetic is done on them.
- Encode.EvaluateEmbeddings: iterating a dataset is a lazy generator in the code. Because of the `break`, the model takes the first user only and does not model resuming the generator.
- MusicUsers.MusicUser.Add: the `timestamp=None` default is not modelled. The loader always passes an integer, and `None > t` would raise `TypeError`.
- MovieDatasets.MovieDataset.Get: `isinstance(user_id, int)` is taken at face value. `bool` keys and other integer-like types are not modelled.
- The functools caches are per agent in the model. In the code they are process-wide tables keyed by `self`, which behaves the same for one agent.
- Agents.EmbedAgent.GetUserDescription: the memo table is keyed by the user object. Python's cache finds an entry by `hash(user)`, which is the user id, and by pydantic's field-wise `==`, so a different object with equal fields would be answered from the cache; the model counts it as a miss. The driver makes one call per run, so its outcome is the same.
- MovieUsers.AgeBucket: the age table `AGE_DICT` is an un-annotated class attribute of a pydantic model, which pydantic v2 refuses when the class is defined. The model treats it as a `ClassVar` constant.
- Text.Quote: every character above U+00FF is shown unescaped. Python shows the non-printable ones among them as `\u` or `\U` escapes.
- MusicUsers.V1Entries: the model renders each item's `title`, but in the code no Amazon user with a rating gets a description. `MusicItem` declares no `title` field (src/music/music_item.py:4-7), and pydantic's default `extra='ignore'` drops the `title=` keyword the loader passes (src/music/music_dataset.py:67). So `item.title` in `prompt_v1` and `prompt_v2` (src/music/music_user.py:38, 46) raises `AttributeError` "'MusicItem' object has no attribute 'title'", and the driver files every such user in the error ledger. The model keeps the title as a field, as the renderers evidently intend.
- MovieDatasets.BadGender: the `ValidationError` text is only the first line of pydantic's message; the lines naming the field and the input are not modelled.
