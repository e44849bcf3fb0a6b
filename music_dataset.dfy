/**
 * The Amazon CDs and Vinyl dataset: an item table and an interaction
 * table, joined into a dict of users, each holding its rated items. Both
 * dicts are computed on first use and kept. The two files are given as
 * already-parsed tables; a table that is `None` is a file that does not
 * exist.
 */
module MusicDatasets {
  import opened Wrappers
  import opened Exceptions
  import opened Dicts
  import Text
  import opened MusicItems
  import opened MusicUsers

  const ItemFileName := "Amazon_CDs_and_Vinyl.item"
  const InterFileName := "Amazon_CDs_and_Vinyl.inter"

  /** The item file: raw header names (such as `item_id:token`) and one row per item. */
  datatype ItemTable = ItemTable(header: seq<string>, rows: seq<ItemRow>)

  /** One interaction: who rated which item, how, and when. */
  datatype InterRow = InterRow(userId: string, itemId: RawId, rating: int, timestamp: int)

  /** The interaction file. */
  datatype InterTable = InterTable(header: seq<string>, rows: seq<InterRow>)

  /** The column names after the rename: each header cut at its first `':'`. */
  function ColumnNames(header: seq<string>): (names: seq<string>)
    ensures |names| == |header|
    ensures forall i :: 0 <= i < |header| ==> names[i] == Text.Before(header[i], ':')
    ensures forall i :: 0 <= i < |header| ==> ':' !in names[i] && |names[i]| <= |header[i]| && header[i][..|names[i]|] == names[i]
  {
    seq(|header|, i requires 0 <= i < |header| => Text.Before(header[i], ':'))
  }

  /** A header without `':'` keeps its name. */
  lemma ColumnNamesPlain(header: seq<string>, i: int)
    requires 0 <= i < |header| && ':' !in header[i]
    ensures ColumnNames(header)[i] == header[i]
  {
    Text.BeforeAbsent(header[i], ':');
  }

  // --------------------------------------------------------------------- items

  const NoItemIdColumn := Error(KeyError, "\"None of ['item_id'] are in the columns\"")

  /** The first of the fields the loop reads that the table lacks. */
  function MissingItemColumn(names: seq<string>): (m: Option<string>)
    ensures m.Some? ==> m.value !in names
    ensures m.None? ==> "title" in names && "categories" in names && "brand" in names && "sales_type" in names
  {
    if "title" !in names then Some("title")
    else if "categories" !in names then Some("categories")
    else if "brand" !in names then Some("brand")
    else if "sales_type" !in names then Some("sales_type")
    else None
  }

  predicate DistinctItemIds(rows: seq<ItemRow>)
  {
    forall i, j :: 0 <= i < j < |rows| ==> rows[i].itemId != rows[j].itemId
  }

  /** What the `try` makes of each row, in order. */
  function Outcomes(rows: seq<ItemRow>): (vs: seq<Validated>)
    ensures |vs| == |rows| && forall i :: 0 <= i < |rows| ==> vs[i] == Validate(rows[i])
  {
    seq(|rows|, i requires 0 <= i < |rows| => Validate(rows[i]))
  }

  /** One pass of the item loop: a built item is stored under its id, a rejected row is skipped, anything else escapes. */
  function AddItem(acc: Result<Dict<string, MusicItem>, Error>, v: Validated): Result<Dict<string, MusicItem>, Error>
  {
    match acc
    case Failure(e) => acc
    case Success(d) =>
      match v
      case Built(item) => Success(d.Put(item.id, item))
      case Rejected => acc
      case Raised(e) => Failure(e)
  }

  /** The item loop over the row outcomes `vs`, in order. */
  function Load(vs: seq<Validated>): Result<Dict<string, MusicItem>, Error>
    decreases |vs|
  {
    if |vs| == 0 then Success(Empty()) else AddItem(Load(vs[..|vs| - 1]), vs[|vs| - 1])
  }

  /** `get_item_dict(folder)` on the item file `file`. */
  function ItemDict(folder: string, file: Option<ItemTable>): Result<Dict<string, MusicItem>, Error>
  {
    if file.None? then Failure(Error(FileNotFoundError, "File not found: " + Text.PathJoin(folder, ItemFileName)))
    else
      var names := ColumnNames(file.value.header);
      if "item_id" !in names then Failure(NoItemIdColumn)
      else if !DistinctItemIds(file.value.rows) then Failure(DuplicateIndex)
      else if |file.value.rows| > 0 && MissingItemColumn(names).Some? then Failure(Error(KeyError, Text.Quote(MissingItemColumn(names).value)))
      else Load(Outcomes(file.value.rows))
  }

  /** Outcome `i` is an item built with id `k`. */
  predicate BuildsId(vs: seq<Validated>, i: int, k: string)
    requires 0 <= i < |vs|
  {
    vs[i].Built? && vs[i].item.id == k
  }

  /** The item loop fails exactly when some row raises something other than a validation error. */
  lemma {:induction false} LoadFails(vs: seq<Validated>)
    ensures Load(vs).Failure? <==> exists i :: 0 <= i < |vs| && vs[i].Raised?
    decreases |vs|
  {
    if |vs| > 0 {
      var n := |vs| - 1;
      LoadFails(vs[..n]);
      assert forall i :: 0 <= i < n ==> vs[i] == vs[..n][i];
    }
  }

  /**
   * A successful item loop gives a well-formed dict in which every item is
   * stored under its own id and was built from some row.
   */
  lemma {:induction false} LoadStored(vs: seq<Validated>)
    ensures Load(vs).Success? ==>
      var d := Load(vs).value;
      && d.Valid()
      && forall k :: k in d.entries ==> d.entries[k].id == k && exists i :: 0 <= i < |vs| && vs[i] == Built(d.entries[k])
    decreases |vs|
  {
    if |vs| > 0 {
      var n := |vs| - 1;
      LoadStored(vs[..n]);
      assert forall i :: 0 <= i < n ==> vs[i] == vs[..n][i];
      if Load(vs[..n]).Success? && vs[n].Built? {
        PutSpec(Load(vs[..n]).value, vs[n].item.id, vs[n].item);
      }
    }
  }

  /**
   * After a successful item loop, every built id is a key, and the item
   * stored under it is the one built by the last row with that id.
   */
  lemma {:induction false} LoadLastWins(vs: seq<Validated>, i: int)
    requires 0 <= i < |vs| && vs[i].Built? && Load(vs).Success?
    requires forall j :: i < j < |vs| ==> !BuildsId(vs, j, vs[i].item.id)
    ensures vs[i].item.id in Load(vs).value.entries
    ensures Load(vs).value.entries[vs[i].item.id] == vs[i].item
    decreases |vs|
  {
    var n := |vs| - 1;
    var pre := vs[..n];
    if i < n {
      assert Load(pre).Success?;
      forall j | i < j < n
        ensures !BuildsId(pre, j, pre[i].item.id)
      {
        assert pre[j] == vs[j] && pre[i] == vs[i];
        assert !BuildsId(vs, j, vs[i].item.id);
      }
      LoadLastWins(pre, i);
      assert !BuildsId(vs, n, vs[i].item.id);
    }
  }

  /** `get_item_dict`: the existence check, then one pass over the rows. */
  method GetItemDict(folder: string, file: Option<ItemTable>) returns (r: Result<Dict<string, MusicItem>, Error>)
    ensures r == ItemDict(folder, file)
  {
    if file.None? {
      return Failure(Error(FileNotFoundError, "File not found: " + Text.PathJoin(folder, ItemFileName)));
    }
    var names := ColumnNames(file.value.header);
    if "item_id" !in names {
      return Failure(NoItemIdColumn);
    }
    if !DistinctItemIds(file.value.rows) {
      return Failure(DuplicateIndex);
    }
    var rows := file.value.rows;
    var missing := MissingItemColumn(names);
    if |rows| > 0 && missing.Some? {
      return Failure(Error(KeyError, Text.Quote(missing.value)));
    }
    r := LoadRows(rows);
  }

  /** The loop of `get_item_dict`, once the columns are known to be there. */
  method LoadRows(rows: seq<ItemRow>) returns (r: Result<Dict<string, MusicItem>, Error>)
    ensures r == Load(Outcomes(rows))
  {
    ghost var vs := Outcomes(rows);
    var items: Dict<string, MusicItem> := Empty();
    for i := 0 to |rows|
      invariant Load(vs[..i]) == Success(items)
    {
      assert vs[..i + 1][..i] == vs[..i];
      var v := BuildItem(rows[i]);
      assert v == vs[i];
      match v {
        case Built(item) => items := items.Put(item.id, item);
        case Rejected =>
        case Raised(e) =>
          FailurePersists(vs, i + 1);
          return Failure(e);
      }
    }
    assert vs[..|rows|] == vs;
    r := Success(items);
  }

  /** Once the item loop has failed it stays failed. */
  lemma {:induction false} FailurePersists(vs: seq<Validated>, i: int)
    requires 0 <= i <= |vs| && Load(vs[..i]).Failure?
    ensures Load(vs) == Load(vs[..i])
    decreases |vs| - i
  {
    if i < |vs| {
      assert vs[..i + 1][..i] == vs[..i];
      FailurePersists(vs, i + 1);
    } else {
      assert vs[..i] == vs;
    }
  }

  // --------------------------------------------------------------------- users

  function NoFile(path: string): Error
  {
    Error(FileNotFoundError, "[Errno 2] No such file or directory: " + Text.Quote(path))
  }

  const NoUserIdColumn := Error(KeyError, "'user_id'")

  /**
   * What the body of the `try` makes of one interaction: `None` when a
   * lookup fails (a missing `item_id` or `rating` column, or an item not
   * in the item dict), the observation to add otherwise. A failing id
   * validation is not a lookup error and escapes.
   */
  function Accept(names: seq<string>, items: Dict<string, MusicItem>, row: InterRow): Result<Option<Obs>, Error>
  {
    if "item_id" !in names then Success(None)
    else match CanonicalId(Str(row.itemId))
      case Failure(e) => Failure(e)
      case Success(idx) =>
        if idx !in items.entries || "rating" !in names then Success(None)
        else Success(Some(Obs(items.entries[idx], row.rating, if "timestamp" in names then row.timestamp else 0)))
  }

  /**
   * An accepted interaction adds the item stored under the canonical id,
   * with the row's rating, and timestamp 0 when the table has no
   * timestamp column; an interaction with an unknown item is skipped.
   */
  lemma AcceptSpec(names: seq<string>, items: Dict<string, MusicItem>, row: InterRow)
    ensures "item_id" in names && CanonicalId(Str(row.itemId)).Success? && CanonicalId(Str(row.itemId)).value !in items.entries ==>
      Accept(names, items, row) == Success(None)
    ensures "item_id" in names && CanonicalId(Str(row.itemId)).Failure? ==>
      Accept(names, items, row) == Failure(CanonicalId(Str(row.itemId)).error)
    ensures Accept(names, items, row).Success? && Accept(names, items, row).value.Some? ==>
      var o := Accept(names, items, row).value.value;
      && CanonicalId(Str(row.itemId)).Success?
      && o.item == items.entries[CanonicalId(Str(row.itemId)).value]
      && o.rating == row.rating
      && o.timestamp == (if "timestamp" in names then row.timestamp else 0)
  {
  }

  /** The user ids in order of first appearance. */
  function UserOrder(rows: seq<InterRow>): seq<string>
    decreases |rows|
  {
    if |rows| == 0 then []
    else
      var pre := UserOrder(rows[..|rows| - 1]);
      if rows[|rows| - 1].userId in pre then pre else pre + [rows[|rows| - 1].userId]
  }

  /** The observations accepted for user `uid`, in order. */
  function ObsOf(names: seq<string>, items: Dict<string, MusicItem>, rows: seq<InterRow>, uid: string): seq<Obs>
    decreases |rows|
  {
    if |rows| == 0 then []
    else
      var last := rows[|rows| - 1];
      var a := Accept(names, items, last);
      ObsOf(names, items, rows[..|rows| - 1], uid) + (if last.userId == uid && a.Success? && a.value.Some? then [a.value.value] else [])
  }

  /** The first exception of the interaction loop, if any. */
  function FirstRaise(names: seq<string>, items: Dict<string, MusicItem>, rows: seq<InterRow>): Option<Error>
    decreases |rows|
  {
    if |rows| == 0 then None
    else if !("user_id" in names) then Some(NoUserIdColumn)
    else match FirstRaise(names, items, rows[..|rows| - 1])
      case Some(e) => Some(e)
      case None =>
        var a := Accept(names, items, rows[|rows| - 1]);
        if a.Failure? then Some(a.error) else None
  }

  /**
   * Users appear once each, in order of first appearance, and a user is
   * created for every id that occurs, even when all its interactions are
   * skipped.
   */
  lemma {:induction false} UserOrderSpec(rows: seq<InterRow>)
    ensures forall i, j :: 0 <= i < j < |UserOrder(rows)| ==> UserOrder(rows)[i] != UserOrder(rows)[j]
    ensures forall u :: u in UserOrder(rows) <==> exists i :: 0 <= i < |rows| && rows[i].userId == u
    decreases |rows|
  {
    if |rows| > 0 {
      var n := |rows| - 1;
      UserOrderSpec(rows[..n]);
      assert forall i :: 0 <= i < n ==> rows[i] == rows[..n][i];
    }
  }

  /** Only the listed errors escape: an unknown item never makes the loop fail, it only drops that interaction. */
  lemma UnknownItemSkipped(names: seq<string>, items: Dict<string, MusicItem>, rows: seq<InterRow>, row: InterRow, uid: string)
    requires CanonicalId(Str(row.itemId)).Success? && CanonicalId(Str(row.itemId)).value !in items.entries
    ensures ObsOf(names, items, rows + [row], uid) == ObsOf(names, items, rows, uid)
    ensures "user_id" in names ==> FirstRaise(names, items, rows + [row]) == FirstRaise(names, items, rows)
  {
    assert (rows + [row])[..|rows|] == rows;
  }

  /** The users of `d` are distinct objects, each well formed and holding its own id, and `d` is a well-formed dict. */
  ghost predicate UsersWellFormed(d: Dict<string, MusicUser>)
    reads d.entries.Values
  {
    && d.Valid()
    && (forall k :: k in d.entries ==> d.entries[k].Valid() && d.entries[k].id == k)
    && (forall k1, k2 :: k1 in d.entries && k2 in d.entries && k1 != k2 ==> d.entries[k1] != d.entries[k2])
  }

  /** The user `u` is fresh from the constructor and has then been given `obs` in order. */
  ghost predicate Holds(u: MusicUser, obs: seq<Obs>)
    reads u
  {
    && u.Valid()
    && !u.newPrompt
    && u.description.None? && u.embedding.None?
    && (u.ratings.None? <==> obs == [])
    && u.History() == Replay(EmptyLog(), obs)
  }

  /** The user `u` of id `uid` holds exactly the accepted interactions of `uid`, added in order. */
  ghost predicate UserMatches(u: MusicUser, names: seq<string>, items: Dict<string, MusicItem>, rows: seq<InterRow>, uid: string)
    reads u
  {
    Holds(u, ObsOf(names, items, rows, uid))
  }

  /** The users dict after the loop has visited `rows`. */
  ghost predicate Loaded(users: Dict<string, MusicUser>, names: seq<string>, items: Dict<string, MusicItem>, rows: seq<InterRow>)
    reads users.entries.Values
  {
    && users.keys == UserOrder(rows)
    && UsersWellFormed(users)
    && forall k :: k in users.entries ==> UserMatches(users.entries[k], names, items, rows, k)
  }

  lemma ReplaySnoc(obs: seq<Obs>, o: Obs)
    ensures Replay(EmptyLog(), obs + [o]) == Observe(Replay(EmptyLog(), obs), o.item, o.rating, o.timestamp)
  {
    assert (obs + [o])[..|obs|] == obs;
  }

  /** A user id that has not appeared yet has no accepted interactions. */
  lemma {:induction false} ObsOfUnseen(names: seq<string>, items: Dict<string, MusicItem>, rows: seq<InterRow>, uid: string)
    requires uid !in UserOrder(rows)
    ensures ObsOf(names, items, rows, uid) == []
    decreases |rows|
  {
    if |rows| > 0 {
      ObsOfUnseen(names, items, rows[..|rows| - 1], uid);
    }
  }

  /** One more interaction appends its user id if that id is new. */
  lemma UserOrderSnoc(prefix: seq<InterRow>, row: InterRow)
    ensures UserOrder(prefix + [row]) == if row.userId in UserOrder(prefix) then UserOrder(prefix) else UserOrder(prefix) + [row.userId]
  {
    assert (prefix + [row])[..|prefix|] == prefix;
  }

  /** One more interaction adds its observation, if accepted, to its own user only. */
  lemma ObsOfSnoc(names: seq<string>, items: Dict<string, MusicItem>, prefix: seq<InterRow>, row: InterRow, a: Result<Option<Obs>, Error>, uid: string)
    requires a == Accept(names, items, row)
    ensures ObsOf(names, items, prefix + [row], uid)
         == ObsOf(names, items, prefix, uid) + (if row.userId == uid && a.Success? && a.value.Some? then [a.value.value] else [])
  {
    assert (prefix + [row])[..|prefix|] == prefix;
  }

  /** `if v['user_id'] not in users: users[v['user_id']] = MusicUser(id=v['user_id'])`. */
  method EnsureUser(users: Dict<string, MusicUser>, names: seq<string>, items: Dict<string, MusicItem>, prefix: seq<InterRow>, uid: string)
    returns (next: Dict<string, MusicUser>)
    requires Loaded(users, names, items, prefix)
    ensures next.keys == if uid in UserOrder(prefix) then UserOrder(prefix) else UserOrder(prefix) + [uid]
    ensures UsersWellFormed(next) && uid in next.entries
    ensures forall k :: k in next.entries ==> UserMatches(next.entries[k], names, items, prefix, k)
    ensures forall k :: k in next.entries ==> (k in users.entries && next.entries[k] == users.entries[k]) || fresh(next.entries[k])
  {
    next := users;
    if uid !in users.entries {
      ObsOfUnseen(names, items, prefix, uid);
      var u := new MusicUser(uid, false);
      PutSpec(users, uid, u);
      next := users.Put(uid, u);
      assert next.entries == users.entries[uid := u];
      forall k | k in users.entries
        ensures next.entries[k] == users.entries[k] && UserMatches(next.entries[k], names, items, prefix, k)
      {
      }
      assert UserMatches(u, names, items, prefix, uid);
      assert forall k :: k in users.entries ==> users.entries[k] != u;
    }
  }

  /** Visiting one more interaction: the earlier users are untouched apart from `row`'s, which is created if new and then sees the observation. */
  method Visit(users: Dict<string, MusicUser>, names: seq<string>, items: Dict<string, MusicItem>, prefix: seq<InterRow>, row: InterRow)
    returns (next: Dict<string, MusicUser>)
    requires Loaded(users, names, items, prefix)
    requires Accept(names, items, row).Success?
    modifies users.entries.Values
    ensures Loaded(next, names, items, prefix + [row])
    ensures forall k :: k in next.entries ==> (k in users.entries && next.entries[k] == users.entries[k]) || fresh(next.entries[k])
  {
    ghost var rows := prefix + [row];
    var a := Accept(names, items, row);
    var uid := row.userId;
    UserOrderSnoc(prefix, row);
    next := EnsureUser(users, names, items, prefix, uid);
    var user := next.entries[uid];
    forall k | k in next.entries
      ensures ObsOf(names, items, rows, k) == ObsOf(names, items, prefix, k) + (if uid == k && a.value.Some? then [a.value.value] else [])
    {
      ObsOfSnoc(names, items, prefix, row, a, k);
    }
    label before:
    Record(user, ObsOf(names, items, prefix, uid), a.value);
    forall k | k in next.entries
      ensures next.entries[k].Valid() && UserMatches(next.entries[k], names, items, rows, k)
    {
      if k != uid {
        var other := next.entries[k];
        assert other != user;
        assert unchanged@before(other);
        assert old@before(Holds(other, ObsOf(names, items, prefix, k)));
        assert Holds(other, ObsOf(names, items, prefix, k));
        assert ObsOf(names, items, rows, k) == ObsOf(names, items, prefix, k);
        assert UserMatches(other, names, items, rows, k);
      } else {
        assert ObsOf(names, items, rows, k) == ObsOf(names, items, prefix, k) + (if a.value.Some? then [a.value.value] else []);
        assert Holds(user, ObsOf(names, items, rows, k));
      }
    }
  }

  /** The `add` call of the loop, when there is something to add. */
  method Record(user: MusicUser, ghost obs: seq<Obs>, a: Option<Obs>)
    requires Holds(user, obs)
    modifies user
    ensures Holds(user, obs + (if a.Some? then [a.value] else []))
  {
    if a.Some? {
      ReplaySnoc(obs, a.value);
      user.Add(a.value.item, a.value.rating, a.value.timestamp);
    } else {
      assert obs + [] == obs;
    }
  }

  /** `get_user_dict(folder, items)` on the interaction file `file`. */
  method GetUserDict(folder: string, file: Option<InterTable>, items: Dict<string, MusicItem>) returns (r: Result<Dict<string, MusicUser>, Error>)
    ensures file.None? ==> r == Failure(NoFile(Text.PathJoin(folder, InterFileName)))
    ensures file.Some? ==> (r.Failure? <==> FirstRaise(ColumnNames(file.value.header), items, file.value.rows).Some?)
    ensures file.Some? && r.Failure? ==> r.error == FirstRaise(ColumnNames(file.value.header), items, file.value.rows).value
    ensures file.Some? && r.Success? ==>
      && Loaded(r.value, ColumnNames(file.value.header), items, file.value.rows)
      && forall k :: k in r.value.entries ==> fresh(r.value.entries[k])
  {
    if file.None? {
      return Failure(NoFile(Text.PathJoin(folder, InterFileName)));
    }
    var names := ColumnNames(file.value.header);
    var rows := file.value.rows;
    var users: Dict<string, MusicUser> := Empty();
    for i := 0 to |rows|
      invariant FirstRaise(names, items, rows[..i]).None?
      invariant Loaded(users, names, items, rows[..i])
      invariant forall k :: k in users.entries ==> fresh(users.entries[k])
    {
      assert rows[..i + 1] == rows[..i] + [rows[i]];
      assert rows[..i + 1][..i] == rows[..i];
      if "user_id" !in names {
        RaisePersists(names, items, rows, i + 1);
        return Failure(NoUserIdColumn);
      }
      var a := Accept(names, items, rows[i]);
      if a.Failure? {
        RaisePersists(names, items, rows, i + 1);
        return Failure(a.error);
      }
      users := Visit(users, names, items, rows[..i], rows[i]);
    }
    assert rows[..|rows|] == rows;
    r := Success(users);
  }

  /** Once the interaction loop has raised, the whole loop raises that. */
  lemma {:induction false} RaisePersists(names: seq<string>, items: Dict<string, MusicItem>, rows: seq<InterRow>, i: int)
    requires 0 <= i <= |rows| && FirstRaise(names, items, rows[..i]).Some?
    ensures FirstRaise(names, items, rows) == FirstRaise(names, items, rows[..i])
    decreases |rows| - i
  {
    if i < |rows| {
      assert rows[..i + 1][..i] == rows[..i];
      RaisePersists(names, items, rows, i + 1);
    } else {
      assert rows[..i] == rows;
    }
  }

  /** The exception `get_user_dict(folder, it)` raises on the interaction file `file`, if any. */
  function UserDictError(folder: string, file: Option<InterTable>, it: Dict<string, MusicItem>): Option<Error>
  {
    if file.None? then Some(NoFile(Text.PathJoin(folder, InterFileName)))
    else FirstRaise(ColumnNames(file.value.header), it, file.value.rows)
  }

  /** The exception a first use of `users` raises on a fresh dataset, if any: that of the items, then that of the users. */
  function FreshUsersError(folder: string, itemFile: Option<ItemTable>, interFile: Option<InterTable>): Option<Error>
  {
    match ItemDict(folder, itemFile)
    case Failure(e) => Some(e)
    case Success(it) => UserDictError(folder, interFile, it)
  }

  /** The first user id of the interactions is the user of the first row. */
  lemma {:induction false} UserOrderFirst(rows: seq<InterRow>)
    requires |rows| > 0
    ensures |UserOrder(rows)| > 0 && UserOrder(rows)[0] == rows[0].userId
    decreases |rows|
  {
    if |rows| > 1 {
      var pre := rows[..|rows| - 1];
      UserOrderFirst(pre);
      assert pre[0] == rows[0];
    }
  }

  // ------------------------------------------------------------------- dataset

  class MusicDataset {
    const folder: string
    const itemFile: Option<ItemTable>
    const interFile: Option<InterTable>
    var items: Option<Dict<string, MusicItem>>
    var users: Option<Dict<string, MusicUser>>

    constructor (folder: string, itemFile: Option<ItemTable>, interFile: Option<InterTable>)
      ensures this.folder == folder && this.itemFile == itemFile && this.interFile == interFile
      ensures items == None && users == None
    {
      this.folder := folder;
      this.itemFile := itemFile;
      this.interFile := interFile;
      items, users := None, None;
    }

    /**
     * The users once built: a well-formed dict of users over the items that
     * were loaded, keyed in order of first appearance in the interactions.
     */
    ghost predicate Valid()
      reads this, if users.Some? then users.value.entries.Values else {}
    {
      users.Some? ==> items.Some? && interFile.Some? && users.value.keys == UserOrder(interFile.value.rows) && UsersWellFormed(users.value)
    }

    /** The exception the next use of `users` raises, if any: none once built, else that of loading the items or the users. */
    ghost function UsersError(): Option<Error>
      reads this
    {
      if users.Some? then None
      else if items.Some? then UserDictError(folder, interFile, items.value)
      else FreshUsersError(folder, itemFile, interFile)
    }

    /** The `items` property: built once, and only a successful build is kept. */
    method Items() returns (r: Result<Dict<string, MusicItem>, Error>)
      modifies this`items
      ensures old(items).Some? ==> r == Success(old(items).value) && items == old(items)
      ensures old(items).None? ==> r == ItemDict(folder, itemFile) && items == (if r.Success? then Some(r.value) else None)
    {
      if items.Some? {
        return Success(items.value);
      }
      r := GetItemDict(folder, itemFile);
      if r.Success? {
        items := Some(r.value);
      }
    }

    /**
     * The `users` property: built once from the items; the items are
     * loaded (or reused) first, and a failure of either is raised and
     * leaves `users` unset.
     */
    method Users() returns (r: Result<Dict<string, MusicUser>, Error>)
      requires Valid()
      modifies this`items, this`users
      ensures Valid()
      ensures old(users).Some? ==> r == Success(old(users).value) && users == old(users) && items == old(items)
      ensures old(users).None? && r.Success? ==> items.Some? && interFile.Some?
      ensures old(users).None? && r.Success? && old(items).Some? ==> items == old(items)
      ensures old(users).None? && r.Success? && old(items).None? ==> Success(items.value) == ItemDict(folder, itemFile)
      ensures old(users).None? && r.Success? ==> Loaded(r.value, ColumnNames(interFile.value.header), items.value, interFile.value.rows)
      ensures old(users).None? && r.Success? ==> forall k :: k in r.value.entries ==> fresh(r.value.entries[k])
      ensures old(users).None? && r.Failure? ==> users.None?
      ensures r.Failure? <==> old(UsersError()).Some?
      ensures r.Failure? ==> r.error == old(UsersError()).value
      ensures r.Success? ==> users == Some(r.value)
    {
      if users.Some? {
        return Success(users.value);
      }
      var it := Items();
      if it.Failure? {
        return Failure(it.error);
      }
      r := GetUserDict(folder, interFile, it.value);
      if r.Success? {
        users := Some(r.value);
      }
    }

    /** `dataset[key]`: the user stored under `key`. */
    method Get(key: string) returns (r: Result<MusicUser, Error>)
      requires Valid()
      modifies this`items, this`users
      ensures Valid()
      ensures r.Success? ==> users.Some? && key in users.value.entries && r.value == users.value.entries[key]
      ensures old(UsersError()).Some? ==> r == Failure(old(UsersError()).value)
      ensures old(UsersError()).None? ==> users.Some? && (key in users.value.entries ==> r == Success(users.value.entries[key]))
      ensures users.Some? && key !in users.value.entries ==> r == Failure(Error(KeyError, Text.Quote(key)))
      ensures old(users).Some? ==> users == old(users) && items == old(items)
    {
      var us := Users();
      if us.Failure? {
        return Failure(us.error);
      }
      if key !in us.value.entries {
        return Failure(Error(KeyError, Text.Quote(key)));
      }
      r := Success(us.value.entries[key]);
    }

    /** `iter(dataset)`: the users in order of first appearance. */
    method Iterate() returns (r: Result<seq<MusicUser>, Error>)
      requires Valid()
      modifies this`items, this`users
      ensures Valid()
      ensures r.Success? ==> users.Some? && r.value == users.value.Values()
      ensures r.Failure? <==> old(UsersError()).Some?
      ensures r.Failure? ==> r.error == old(UsersError()).value && users.None?
      ensures old(users).None? && r.Success? ==> forall k :: k in users.value.entries ==>
        fresh(users.value.entries[k]) && users.value.entries[k].embedding.None?
      ensures old(users).None? && r.Success? ==>
        && Loaded(users.value, ColumnNames(interFile.value.header), items.value, interFile.value.rows)
        && (old(items).None? ==> Success(items.value) == ItemDict(folder, itemFile))
      ensures old(users).Some? ==> users == old(users) && items == old(items)
    {
      var us := Users();
      if us.Failure? {
        return Failure(us.error);
      }
      r := Success(us.value.Values());
    }

    /** `next(iter(dataset))`, as the driver uses it: the first user, or `None` for an empty dataset. */
    method First() returns (r: Result<Option<MusicUser>, Error>)
      requires Valid()
      modifies this`items, this`users
      ensures Valid()
      ensures r.Success? ==> users.Some? && (r.value.Some? <==> |users.value.keys| > 0)
      ensures r.Failure? <==> old(UsersError()).Some?
      ensures r.Failure? ==> r.error == old(UsersError()).value
      ensures r.Success? && r.value.Some? ==> r.value.value == users.value.entries[users.value.keys[0]]
      ensures r.Success? && r.value.Some? ==> r.value.value.id == UserOrder(interFile.value.rows)[0]
      ensures r.Success? && r.value.Some? && old(users).None? ==> fresh(r.value.value) && r.value.value.embedding.None?
      ensures r.Success? && r.value.Some? && old(users).None? ==>
        && UserMatches(r.value.value, ColumnNames(interFile.value.header), items.value, interFile.value.rows, r.value.value.id)
        && (old(items).None? ==> Success(items.value) == ItemDict(folder, itemFile))
      ensures r.Failure? ==> users.None?
      ensures old(users).Some? ==> users == old(users) && items == old(items)
    {
      var us := Iterate();
      if us.Failure? {
        return Failure(us.error);
      }
      if |us.value| == 0 {
        return Success(None);
      }
      r := Success(Some(us.value[0]));
    }

    /** `len(dataset)`: the number of distinct user ids. */
    method Length() returns (r: Result<nat, Error>)
      requires Valid()
      modifies this`items, this`users
      ensures Valid()
      ensures r.Success? ==> users.Some? && r.value == |users.value.entries.Keys|
      ensures r.Success? ==> r.value == |UserOrder(interFile.value.rows)|
      ensures r.Failure? <==> old(UsersError()).Some?
      ensures r.Failure? ==> r.error == old(UsersError()).value && users.None?
      ensures old(users).Some? ==> users == old(users) && items == old(items)
    {
      var us := Users();
      if us.Failure? {
        return Failure(us.error);
      }
      LengthIsCardinality(us.value);
      r := Success(us.value.Length());
    }
  }

  /** After a successful build, the users are exactly the distinct user ids of the interactions, in first-appearance order. */
  lemma UsersCoverInteractions(rows: seq<InterRow>, d: Dict<string, MusicUser>)
    requires d.Valid() && d.keys == UserOrder(rows)
    ensures forall u :: u in d.entries <==> exists i :: 0 <= i < |rows| && rows[i].userId == u
    ensures d.Length() == |UserOrder(rows)|
  {
    UserOrderSpec(rows);
  }
}
