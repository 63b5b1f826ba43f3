/**
 * The synchronizer's store: normalisation of raw team and game records into
 * fixed row shapes, the keyed upsert into the `nba_teams` and `nba_games`
 * tables, and the two read queries. The optional database engine is an
 * `Option<Tables>`: `None` is an unconfigured store.
 */
module Storage {
  import opened Wrappers
  import opened JsonValue
  import opened Text
  import opened Calendar
  import Table

  /** The exceptions an upsert can raise; every one leaves the tables unchanged. */
  datatype StoreError =
    | AttributeError    // `.get` or `.strip` on a value that has no such method
    | NotIterable       // `for ... in` over a truthy number or boolean
    | DatabaseRejected  // the database refuses the statement: a primary key that is not an integer, or repeated

  /** The mutable columns of `nba_teams`: everything but the `id` key. */
  datatype TeamCols = TeamCols(
    abbreviation: Json, city: Json, conference: Json, division: Json,
    name: Json, fullName: Json, raw: Json)

  /** The mutable columns of `nba_games`: everything but the `id` key. */
  datatype GameCols = GameCols(
    gameDay: Option<Date>, season: Json, status: Json, postseason: Json,
    homeTeamId: Json, visitorTeamId: Json,
    homeTeamScore: Json, visitorTeamScore: Json, raw: Json)

  datatype Tables = Tables(teams: map<int, TeamCols>, games: map<int, GameCols>)

  /** A row as the synchronizer builds it: the record's `id` value, not yet checked, and the columns. */
  type Draft<C> = (Json, C)

  // ---------------------------------------------------------------- normalisation

  /**
   * `payload.get("data", []) or []`, then what iterating it gives: the items of a
   * list; a non-empty dict or string yields strings, which have no `.get`.
   */
  function Records(payload: Json): (r: Result<seq<Json>, StoreError>)
    ensures payload.JObj? && !Truthy(GetOr(payload.fields, "data", JNull)) ==> r == Success([])
    ensures r.Success? && r.value != [] ==> payload.JObj? && "data" in payload.fields && payload.fields["data"] == JArr(r.value)
    ensures !payload.JObj? ==> r == Failure(AttributeError)
    ensures payload.JObj? && GetOr(payload.fields, "data", JNull).JArr? ==>
      r == Success(GetOr(payload.fields, "data", JNull).items)
    ensures payload.JObj? && Truthy(GetOr(payload.fields, "data", JNull)) && !GetOr(payload.fields, "data", JNull).JArr? ==>
      r.Failure?
  {
    match payload
    case JObj(fields) =>
      (match Or(GetOr(fields, "data", JArr([])), JArr([]))
       case JArr(items) => Success(items)
       case JObj(_) => Failure(AttributeError)
       case JStr(_) => Failure(AttributeError)
       case _ => Failure(NotIterable))
    case _ => Failure(AttributeError)
  }

  /**
   * `_parse_game_day`: the calendar day of a game's `date` field, or `None` when the
   * field is missing, empty, blank or does not begin with a valid `YYYY-MM-DD`.
   * A truthy `date` that is not a string has no `.strip` and raises.
   */
  function ParseGameDay(game: map<string, Json>): (r: Result<Option<Date>, StoreError>)
    ensures r.Success? && r.value.Some? ==> IsValid(r.value.value)
    ensures r.Failure? <==> Truthy(Get(game, "date")) && !Get(game, "date").JStr?
    ensures !Truthy(Get(game, "date")) ==> r == Success(None)
    ensures Get(game, "date").JStr? && AllSpace(Get(game, "date").s) ==> r == Success(None)
  {
    match Or(Get(game, "date"), JStr(""))
    case JStr(text) =>
      var s := Strip(text);
      if s == [] then Success(None)
      else Success(ParseIso(Prefix(ReplaceChar(s, 'Z', "+00:00"), 10)))
    case _ => Failure(AttributeError)
  }

  /**
   * A timestamp whose first ten characters are an ISO date parses to that date,
   * whatever follows it (a time, a `Z`, an offset, trailing spaces).
   */
  lemma GameDayOfTimestamp(game: map<string, Json>, d: Date, rest: string)
    requires IsValid(d) && Get(game, "date") == JStr(FormatIso(d) + rest)
    ensures ParseGameDay(game) == Success(Some(d))
  {
    GameDayOfText(game, FormatIso(d) + rest);
    LeadingIso(d, rest);
    ParseFormatIso(d);
  }

  /** How `_parse_game_day` reads a string `date`. */
  lemma GameDayOfText(game: map<string, Json>, text: string)
    requires Get(game, "date") == JStr(text) && Strip(text) != []
    ensures ParseGameDay(game) == Success(ParseIso(Prefix(ReplaceChar(Strip(text), 'Z', "+00:00"), 10)))
  {
  }

  /** Strip, `Z` rewrite and a ten-character cut leave exactly a leading ISO date. */
  lemma LeadingIso(d: Date, rest: string)
    requires IsValid(d)
    ensures Strip(FormatIso(d) + rest) != []
    ensures Prefix(ReplaceChar(Strip(FormatIso(d) + rest), 'Z', "+00:00"), 10) == FormatIso(d)
  {
    var f := FormatIso(d);
    var tail := TrimRight(rest);
    StripAroundWord(f, rest);
    IsoHasNoZ(d);
    ReplaceCharAppend(f, tail, 'Z', "+00:00");
    var replaced := f + ReplaceChar(tail, 'Z', "+00:00");
    assert replaced[..10] == f;
  }

  lemma IsoHasNoZ(d: Date)
    requires IsValid(d)
    ensures 'Z' !in FormatIso(d)
  {
    var f := FormatIso(d);
    forall i | 0 <= i < |f| ensures f[i] != 'Z' {
      assert i == 4 || i == 7 || IsDigit(f[i]);
    }
  }

  /** The timestamp a scheduled game typically carries. */
  lemma GameDayExample(game: map<string, Json>)
    requires Get(game, "date") == JStr("2024-03-01T19:00:00Z")
    ensures ParseGameDay(game) == Success(Some(Date(2024, 3, 1)))
  {
    var d := Date(2024, 3, 1);
    assert FormatIso(d) == "2024-03-01";
    assert "2024-03-01T19:00:00Z" == FormatIso(d) + "T19:00:00Z";
    GameDayOfTimestamp(game, d, "T19:00:00Z");
  }

  /**
   * Conversely, a parsed day is exactly what the first ten characters of the
   * stripped, `Z`-rewritten text spell.
   */
  lemma GameDayIsLeadingDate(game: map<string, Json>)
    requires ParseGameDay(game).Success? && ParseGameDay(game).value.Some?
    ensures Get(game, "date").JStr?
    ensures var d := ParseGameDay(game).value.value;
      FormatIso(d) == Prefix(ReplaceChar(Strip(Get(game, "date").s), 'Z', "+00:00"), 10)
  {
    FormatParseIso(Prefix(ReplaceChar(Strip(Get(game, "date").s), 'Z', "+00:00"), 10));
  }

  /** A nested team reference read as `x.get("home_team") or {}`, then `.get("id")`. */
  function TeamRefId(game: map<string, Json>, key: string): (r: Result<Json, StoreError>)
    ensures !Truthy(Get(game, key)) ==> r == Success(JNull)
    ensures Get(game, key).JObj? ==> r == Success(Get(Get(game, key).fields, "id"))
    ensures r.Failure? <==> Truthy(Get(game, key)) && !Get(game, key).JObj?
  {
    match Or(Get(game, key), JObj(map[]))
    case JObj(ref) => Success(Get(ref, "id"))
    case _ => Failure(AttributeError)
  }

  /** `v` is what `d.get(key)` returns: the stored value, or `None` (JSON null) for an absent key. */
  predicate ReadsKey(d: map<string, Json>, key: string, v: Json) {
    if key in d then v == d[key] else v == JNull
  }

  /** The row `upsert_teams` builds from one record; `raw` keeps the record verbatim. */
  function DraftTeam(t: Json): (r: Result<Draft<TeamCols>, StoreError>)
    ensures r.Success? <==> t.JObj?
    ensures r.Success? ==> r.value.0 == Get(t.fields, "id") && r.value.1.raw == t
    ensures r.Success? ==> var c := r.value.1;
      && ReadsKey(t.fields, "id", r.value.0)
      && ReadsKey(t.fields, "abbreviation", c.abbreviation) && ReadsKey(t.fields, "city", c.city)
      && ReadsKey(t.fields, "conference", c.conference) && ReadsKey(t.fields, "division", c.division)
      && ReadsKey(t.fields, "name", c.name) && ReadsKey(t.fields, "full_name", c.fullName)
  {
    match t
    case JObj(f) =>
      Success((Get(f, "id"), TeamCols(
        Get(f, "abbreviation"), Get(f, "city"), Get(f, "conference"), Get(f, "division"),
        Get(f, "name"), Get(f, "full_name"), t)))
    case _ => Failure(AttributeError)
  }

  /** The row `upsert_games` builds from one record; `raw` keeps the record verbatim. */
  function DraftGame(g: Json): (r: Result<Draft<GameCols>, StoreError>)
    ensures r.Success? <==>
      g.JObj? && ParseGameDay(g.fields).Success?
      && TeamRefId(g.fields, "home_team").Success? && TeamRefId(g.fields, "visitor_team").Success?
    ensures r.Success? ==> r.value.0 == Get(g.fields, "id") && r.value.1.raw == g
    ensures r.Success? ==> r.value.1.gameDay == ParseGameDay(g.fields).value
    ensures r.Success? ==> r.value.1.homeTeamId == TeamRefId(g.fields, "home_team").value
    ensures r.Success? ==> r.value.1.visitorTeamId == TeamRefId(g.fields, "visitor_team").value
    ensures r.Success? ==> var c := r.value.1;
      && ReadsKey(g.fields, "id", r.value.0)
      && ReadsKey(g.fields, "season", c.season) && ReadsKey(g.fields, "status", c.status)
      && ReadsKey(g.fields, "postseason", c.postseason)
      && ReadsKey(g.fields, "home_team_score", c.homeTeamScore)
      && ReadsKey(g.fields, "visitor_team_score", c.visitorTeamScore)
  {
    match g
    case JObj(f) =>
      (match (ParseGameDay(f), TeamRefId(f, "home_team"), TeamRefId(f, "visitor_team"))
       case (Success(day), Success(home), Success(visitor)) =>
         Success((Get(f, "id"), GameCols(
           day, Get(f, "season"), Get(f, "status"), Get(f, "postseason"), home, visitor,
           Get(f, "home_team_score"), Get(f, "visitor_team_score"), g)))
       case _ => Failure(AttributeError))
    case _ => Failure(AttributeError)
  }

  /** The rows a batch of records normalises to, or the first record's error. */
  function DraftAll<C>(records: seq<Json>, draft: Json -> Result<Draft<C>, StoreError>): (r: Result<seq<Draft<C>>, StoreError>)
    ensures r.Success? <==> forall i :: 0 <= i < |records| ==> draft(records[i]).Success?
    ensures r.Success? ==> |r.value| == |records|
    ensures r.Success? ==> forall i :: 0 <= i < |records| ==> r.value[i] == draft(records[i]).value
  {
    if records == [] then Success([])
    else
      match draft(records[0])
      case Failure(e) => Failure(e)
      case Success(d) =>
        match DraftAll(records[1..], draft)
        case Failure(e) => Failure(e)
        case Success(rest) =>
          assert forall i :: 1 <= i < |records| ==> records[i] == records[1..][i - 1];
          Success([d] + rest)
  }

  function Prepend<C>(done: seq<Draft<C>>, rest: Result<seq<Draft<C>>, StoreError>): Result<seq<Draft<C>>, StoreError> {
    match rest
    case Success(ds) => Success(done + ds)
    case Failure(e) => Failure(e)
  }

  lemma PrependNothing<C>(r: Result<seq<Draft<C>>, StoreError>)
    ensures Prepend([], r) == r
  {
    if r.Success? {
      assert [] + r.value == r.value;
    }
  }

  lemma PrependStep<C>(done: seq<Draft<C>>, d: Draft<C>, rest: Result<seq<Draft<C>>, StoreError>)
    ensures Prepend(done, Prepend([d], rest)) == Prepend(done + [d], rest)
  {
    if rest.Success? {
      assert done + ([d] + rest.value) == (done + [d]) + rest.value;
    }
  }

  /** The `for` loop that appends one normalised row per record. */
  method DraftRecords<C>(records: seq<Json>, draft: Json -> Result<Draft<C>, StoreError>) returns (r: Result<seq<Draft<C>>, StoreError>)
    ensures r == DraftAll(records, draft)
  {
    var rows: seq<Draft<C>> := [];
    var i := 0;
    assert records[0..] == records;
    PrependNothing(DraftAll(records, draft));
    while i < |records|
      invariant 0 <= i <= |records|
      invariant DraftAll(records, draft) == Prepend(rows, DraftAll(records[i..], draft))
    {
      assert records[i..][0] == records[i] && records[i..][1..] == records[i + 1..];
      var d := draft(records[i]);
      if d.Failure? {
        return Failure(d.error);
      }
      PrependStep(rows, d.value, DraftAll(records[i + 1..], draft));
      rows := rows + [d.value];
      i := i + 1;
    }
    assert records[i..] == [];
    assert rows + [] == rows;
    r := Success(rows);
  }

  // ---------------------------------------------------------------- upsert

  /** The outcome of one upsert on one table. */
  datatype Applied<C> = Applied(table: map<int, C>, result: Result<nat, StoreError>)

  /**
   * An upsert on a configured engine: an absent, null or empty `data` returns 0
   * untouched; otherwise every record is normalised and the batch is written by
   * one statement that inserts new ids and replaces every column of existing ones.
   */
  function ApplyBatch<C>(table: map<int, C>, payload: Json, draft: Json -> Result<Draft<C>, StoreError>): (a: Applied<C>)
    ensures a.result.Failure? ==> a.table == table
    ensures a.result == Success(0) ==> a.table == table
    ensures payload.JObj? && !Truthy(GetOr(payload.fields, "data", JNull)) ==> a == Applied(table, Success(0))
    ensures Records(payload).Failure? ==> a.result == Failure(Records(payload).error)
  {
    match Records(payload)
    case Failure(e) => Applied(table, Failure(e))
    case Success(records) =>
      if records == [] then Applied(table, Success(0))
      else
        match DraftAll(records, draft)
        case Failure(e) => Applied(table, Failure(e))
        case Success(drafts) =>
          match Table.Keyed(drafts)
          case None => Applied(table, Failure(DatabaseRejected))
          case Some(rows) => Applied(Table.Upsert(table, rows), Success(|drafts|))
  }

  /**
   * The database accepts the drafted batch: every record normalises, every `id` is a
   * JSON integer, and no two records carry the same `id`.
   */
  predicate Accepted<C>(records: seq<Json>, draft: Json -> Result<Draft<C>, StoreError>) {
    && (forall i :: 0 <= i < |records| ==> draft(records[i]).Success? && draft(records[i]).value.0.JInt?)
    && (forall i, j :: 0 <= i < j < |records| && draft(records[i]).Success? && draft(records[j]).Success? ==>
          draft(records[i]).value.0 != draft(records[j]).value.0)
  }

  /**
   * When a non-empty batch is written: exactly when it is accepted, and then the
   * result is `len(rows)`, one per record.
   */
  lemma ApplyBatchSucceeds<C>(table: map<int, C>, payload: Json, draft: Json -> Result<Draft<C>, StoreError>)
    requires Records(payload).Success? && Records(payload).value != []
    ensures var a := ApplyBatch(table, payload, draft);
      && (a.result.Success? <==> Accepted(Records(payload).value, draft))
      && (a.result.Success? ==> a.result == Success(|Records(payload).value|))
  {
    var records := Records(payload).value;
    var all := DraftAll(records, draft);
    if all.Success? {
      var drafts := all.value;
      assert forall i :: 0 <= i < |records| ==> drafts[i] == draft(records[i]).value;
      if Accepted(records, draft) {
        assert Table.Keyed(drafts).Some?;
      } else {
        assert Table.Keyed(drafts).None?;
      }
    }
  }

  /** Success reports the number of records, and each id maps to its freshly normalised columns. */
  lemma ApplyBatchStores<C>(table: map<int, C>, payload: Json, draft: Json -> Result<Draft<C>, StoreError>)
    requires ApplyBatch(table, payload, draft).result.Success?
    ensures var a := ApplyBatch(table, payload, draft);
      && Records(payload).Success?
      && a.result.value == |Records(payload).value|
      && forall i :: 0 <= i < |Records(payload).value| ==>
           var d := draft(Records(payload).value[i]);
           && d.Success? && d.value.0.JInt?
           && d.value.0.n in a.table && a.table[d.value.0.n] == d.value.1
  {
    var records := Records(payload).value;
    if records != [] {
      var drafts := DraftAll(records, draft).value;
      var rows := Table.Keyed(drafts).value;
      Table.UpsertStoresBatch(table, rows);
      assert forall i :: 0 <= i < |records| ==> rows[i] == Table.Row(drafts[i].0.n, drafts[i].1);
    }
  }

  /** Ids outside the batch keep their rows, and no id is ever removed. */
  lemma ApplyBatchKeepsOthers<C>(table: map<int, C>, payload: Json, draft: Json -> Result<Draft<C>, StoreError>, k: int)
    requires k in table
    requires Records(payload).Success?
    requires forall i :: 0 <= i < |Records(payload).value| ==> draft(Records(payload).value[i]).Success? ==>
               draft(Records(payload).value[i]).value.0 != JInt(k)
    ensures k in ApplyBatch(table, payload, draft).table
    ensures ApplyBatch(table, payload, draft).table[k] == table[k]
  {
    var records := Records(payload).value;
    if records != [] && DraftAll(records, draft).Success? && Table.Keyed(DraftAll(records, draft).value).Some? {
      var drafts := DraftAll(records, draft).value;
      var rows := Table.Keyed(drafts).value;
      assert k !in Table.Ids(rows);
    }
  }

  /** An upsert adds no id beyond those its records carry. */
  lemma ApplyBatchAddsOnlyBatchIds<C>(table: map<int, C>, payload: Json, draft: Json -> Result<Draft<C>, StoreError>, k: int)
    requires k !in table
    requires Records(payload).Success?
    requires forall i :: 0 <= i < |Records(payload).value| ==> draft(Records(payload).value[i]).Success? ==>
               draft(Records(payload).value[i]).value.0 != JInt(k)
    ensures k !in ApplyBatch(table, payload, draft).table
  {
    var records := Records(payload).value;
    if records != [] && DraftAll(records, draft).Success? && Table.Keyed(DraftAll(records, draft).value).Some? {
      var drafts := DraftAll(records, draft).value;
      var rows := Table.Keyed(drafts).value;
      assert k !in Table.Ids(rows);
    }
  }

  /** Upserting the same payload twice has the effect of upserting it once. */
  lemma ApplyBatchIdempotent<C>(table: map<int, C>, payload: Json, draft: Json -> Result<Draft<C>, StoreError>)
    ensures var once := ApplyBatch(table, payload, draft);
      ApplyBatch(once.table, payload, draft) == once
  {
    var records := Records(payload);
    if records.Success? && records.value != [] && DraftAll(records.value, draft).Success? {
      var drafts := DraftAll(records.value, draft).value;
      if Table.Keyed(drafts).Some? {
        Table.UpsertIdempotent(table, Table.Keyed(drafts).value);
      }
    }
  }

  /** The effect of an upsert on the whole store. */
  datatype Effect = Effect(engine: Option<Tables>, result: Result<nat, StoreError>)

  /** `upsert_teams`: with no engine it returns 0; it never touches `nba_games`. */
  function TeamsUpsert(engine: Option<Tables>, payload: Json): (e: Effect)
    ensures engine.None? ==> e == Effect(None, Success(0))
    ensures engine.Some? ==> e.engine.Some? && e.engine.value.games == engine.value.games
  {
    match engine
    case None => Effect(None, Success(0))
    case Some(t) =>
      var a := ApplyBatch(t.teams, payload, DraftTeam);
      Effect(Some(t.(teams := a.table)), a.result)
  }

  /** `upsert_games`: with no engine it returns 0; it never touches `nba_teams`. */
  function GamesUpsert(engine: Option<Tables>, payload: Json): (e: Effect)
    ensures engine.None? ==> e == Effect(None, Success(0))
    ensures engine.Some? ==> e.engine.Some? && e.engine.value.teams == engine.value.teams
  {
    match engine
    case None => Effect(None, Success(0))
    case Some(t) =>
      var a := ApplyBatch(t.games, payload, DraftGame);
      Effect(Some(t.(games := a.table)), a.result)
  }

  lemma TeamsUpsertIdempotent(engine: Option<Tables>, payload: Json)
    ensures var once := TeamsUpsert(engine, payload);
      TeamsUpsert(once.engine, payload) == once
  {
    if engine.Some? {
      ApplyBatchIdempotent(engine.value.teams, payload, DraftTeam);
    }
  }

  lemma GamesUpsertIdempotent(engine: Option<Tables>, payload: Json)
    ensures var once := GamesUpsert(engine, payload);
      GamesUpsert(once.engine, payload) == once
  {
    if engine.Some? {
      ApplyBatchIdempotent(engine.value.games, payload, DraftGame);
    }
  }

  /** Every stored game day is a real calendar date. */
  ghost predicate DaysValid(games: map<int, GameCols>) {
    forall k :: k in games && games[k].gameDay.Some? ==> IsValid(games[k].gameDay.value)
  }

  lemma GamesUpsertKeepsDaysValid(t: Tables, payload: Json)
    requires DaysValid(t.games)
    ensures DaysValid(GamesUpsert(Some(t), payload).engine.value.games)
  {
    var a := ApplyBatch(t.games, payload, DraftGame);
    if a.result.Success? && a.result.value != 0 {
      var records := Records(payload).value;
      var drafts := DraftAll(records, DraftGame).value;
      var rows := Table.Keyed(drafts).value;
      forall k | k in a.table && a.table[k].gameDay.Some?
        ensures IsValid(a.table[k].gameDay.value)
      {
        if k in Table.Ids(rows) {
          ApplyBatchStores(t.games, payload, DraftGame);
          var i :| 0 <= i < |rows| && rows[i].id == k;
          assert drafts[i] == DraftGame(records[i]).value;
        }
      }
    }
  }

  // ---------------------------------------------------------------- reads

  /** `(gameDay, id)` order between two stored games; a game without a day is never before another. */
  predicate GameBefore(games: map<int, GameCols>, a: int, b: int)
    requires a in games && b in games
  {
    var da, db := games[a].gameDay, games[b].gameDay;
    da.Some? && db.Some? && (Before(da.value, db.value) || (da == db && a < b))
  }

  predicate InRange(day: Option<Date>, start: Date, end: Date) {
    day.Some? && AtOrBefore(start, day.value) && AtOrBefore(day.value, end)
  }

  lemma GameBeforeTransitive(games: map<int, GameCols>, a: int, b: int, c: int)
    requires a in games && b in games && c in games
    requires GameBefore(games, a, b) && GameBefore(games, b, c)
    ensures GameBefore(games, a, c)
  {
    BeforeIsStrictTotalOrder(games[a].gameDay.value, games[b].gameDay.value, games[c].gameDay.value);
  }

  lemma GameBeforeTotal(games: map<int, GameCols>, a: int, b: int)
    requires a in games && b in games && a != b
    requires games[a].gameDay.Some? && games[b].gameDay.Some?
    ensures GameBefore(games, a, b) || GameBefore(games, b, a)
  {
    BeforeIsStrictTotalOrder(games[a].gameDay.value, games[b].gameDay.value, games[b].gameDay.value);
  }

  predicate IsEarliest(keys: set<int>, games: map<int, GameCols>, k: int)
    requires keys <= games.Keys
  {
    k in keys && forall j :: j in keys && j != k ==> GameBefore(games, k, j)
  }

  lemma {:induction false} EarliestExists(keys: set<int>, games: map<int, GameCols>)
    requires keys != {} && keys <= games.Keys
    requires forall k :: k in keys ==> games[k].gameDay.Some?
    ensures exists k :: IsEarliest(keys, games, k)
    decreases |keys|
  {
    Table.NonEmptyHasMember(keys);
    var x :| x in keys;
    if keys == {x} {
      assert IsEarliest(keys, games, x);
    } else {
      var rest := keys - {x};
      EarliestExists(rest, games);
      var m :| IsEarliest(rest, games, m);
      if GameBefore(games, x, m) {
        forall j | j in keys && j != x ensures GameBefore(games, x, j) {
          if j != m {
            assert j in rest;
            GameBeforeTransitive(games, x, m, j);
          }
        }
        assert IsEarliest(keys, games, x);
      } else {
        forall j | j in keys && j != m ensures GameBefore(games, m, j) {
          if j == x {
            GameBeforeTotal(games, x, m);
          } else {
            assert j in rest;
          }
        }
        assert IsEarliest(keys, games, m);
      }
    }
  }

  /** The given game ids ordered by `(gameDay, id)` ascending. */
  function ByDayThenId(keys: set<int>, games: map<int, GameCols>): (ids: seq<int>)
    requires keys <= games.Keys
    requires forall k :: k in keys ==> games[k].gameDay.Some?
    ensures forall i :: 0 <= i < |ids| ==> ids[i] in keys
    ensures forall k :: k in keys ==> k in ids
    ensures forall i, j :: 0 <= i < j < |ids| ==> GameBefore(games, ids[i], ids[j])
    decreases keys
  {
    if keys == {} then []
    else
      EarliestExists(keys, games);
      var k :| IsEarliest(keys, games, k);
      [k] + ByDayThenId(keys - {k}, games)
  }

  /**
   * `read_games_between` on a configured engine: exactly the stored games whose
   * day lies in `[start, end]` (both ends included), ordered by `(gameDay, id)`.
   */
  function GamesBetween(games: map<int, GameCols>, start: Date, end: Date): (rows: seq<Table.Row<GameCols>>)
    ensures forall i :: 0 <= i < |rows| ==>
      rows[i].id in games && games[rows[i].id] == rows[i].cols && InRange(rows[i].cols.gameDay, start, end)
    ensures forall k :: k in games && InRange(games[k].gameDay, start, end) ==> Table.Row(k, games[k]) in rows
    ensures forall i, j :: 0 <= i < j < |rows| ==> GameBefore(games, rows[i].id, rows[j].id)
  {
    var keys := set k | k in games && InRange(games[k].gameDay, start, end);
    var ids := ByDayThenId(keys, games);
    var rows := Table.RowsOf(games, ids);
    assert forall k :: k in keys ==> Table.Row(k, games[k]) in rows by {
      forall k | k in keys ensures Table.Row(k, games[k]) in rows {
        var i :| 0 <= i < |ids| && ids[i] == k;
        assert rows[i] == Table.Row(k, games[k]);
      }
    }
    rows
  }

  /** `read_teams` on a configured engine: every stored team exactly once (ascending id). */
  function AllTeams(teams: map<int, TeamCols>): (rows: seq<Table.Row<TeamCols>>)
    ensures forall i :: 0 <= i < |rows| ==> rows[i].id in teams && teams[rows[i].id] == rows[i].cols
    ensures forall k :: k in teams ==> Table.Row(k, teams[k]) in rows
    ensures forall i, j :: 0 <= i < j < |rows| ==> rows[i].id < rows[j].id
  {
    var ids := Table.Ascending(teams.Keys);
    var rows := Table.RowsOf(teams, ids);
    assert forall k :: k in teams ==> Table.Row(k, teams[k]) in rows by {
      forall k | k in teams ensures Table.Row(k, teams[k]) in rows {
        var i :| 0 <= i < |ids| && ids[i] == k;
        assert rows[i] == Table.Row(k, teams[k]);
      }
    }
    rows
  }

  // ---------------------------------------------------------------- the store

  class Store {
    var engine: Option<Tables>

    ghost predicate Valid()
      reads this
    {
      engine.Some? ==> DaysValid(engine.value.games)
    }

    constructor (engine: Option<Tables>)
      requires engine.Some? ==> DaysValid(engine.value.games)
      ensures Valid() && this.engine == engine
    {
      this.engine := engine;
    }

    method UpsertTeams(payload: Json) returns (result: Result<nat, StoreError>)
      requires Valid()
      modifies this
      ensures Valid()
      ensures Effect(engine, result) == TeamsUpsert(old(engine), payload)
    {
      if engine.None? {
        return Success(0);
      }
      var records := Records(payload);
      if records.Failure? {
        return Failure(records.error);
      }
      if records.value == [] {
        return Success(0);
      }
      var drafts := DraftRecords(records.value, DraftTeam);
      if drafts.Failure? {
        return Failure(drafts.error);
      }
      var rows := Table.Keyed(drafts.value);
      if rows.None? {
        return Failure(DatabaseRejected);
      }
      engine := Some(engine.value.(teams := Table.Upsert(engine.value.teams, rows.value)));
      result := Success(|drafts.value|);
    }

    method UpsertGames(payload: Json) returns (result: Result<nat, StoreError>)
      requires Valid()
      modifies this
      ensures Valid()
      ensures Effect(engine, result) == GamesUpsert(old(engine), payload)
    {
      if engine.None? {
        return Success(0);
      }
      var records := Records(payload);
      if records.Failure? {
        return Failure(records.error);
      }
      if records.value == [] {
        return Success(0);
      }
      var drafts := DraftRecords(records.value, DraftGame);
      if drafts.Failure? {
        return Failure(drafts.error);
      }
      var rows := Table.Keyed(drafts.value);
      if rows.None? {
        return Failure(DatabaseRejected);
      }
      GamesUpsertKeepsDaysValid(engine.value, payload);
      engine := Some(engine.value.(games := Table.Upsert(engine.value.games, rows.value)));
      result := Success(|drafts.value|);
    }

    /** `read_teams`: `[]` when no engine is configured. */
    function ReadTeams(): (rows: seq<Table.Row<TeamCols>>)
      reads this
      ensures engine.None? ==> rows == []
      ensures engine.Some? ==> forall k :: k in engine.value.teams ==> Table.Row(k, engine.value.teams[k]) in rows
      ensures engine.Some? ==> forall i, j :: 0 <= i < j < |rows| ==> rows[i].id != rows[j].id
      ensures engine.Some? ==> forall i :: 0 <= i < |rows| ==>
        rows[i].id in engine.value.teams && engine.value.teams[rows[i].id] == rows[i].cols
    {
      if engine.None? then [] else AllTeams(engine.value.teams)
    }

    /** `read_games_between`: `[]` when no engine is configured. */
    function ReadGamesBetween(start: Date, end: Date): (rows: seq<Table.Row<GameCols>>)
      reads this
      ensures engine.None? ==> rows == []
      ensures engine.Some? ==> forall k :: k in engine.value.games && InRange(engine.value.games[k].gameDay, start, end) ==>
        Table.Row(k, engine.value.games[k]) in rows
      ensures engine.Some? ==> forall i :: 0 <= i < |rows| ==>
        rows[i].id in engine.value.games && engine.value.games[rows[i].id] == rows[i].cols
        && InRange(rows[i].cols.gameDay, start, end)
      ensures engine.Some? ==> forall i, j :: 0 <= i < j < |rows| ==> GameBefore(engine.value.games, rows[i].id, rows[j].id)
      ensures Valid() ==> forall i :: 0 <= i < |rows| ==> rows[i].cols.gameDay.Some? && IsValid(rows[i].cols.gameDay.value)
    {
      if engine.None? then [] else GamesBetween(engine.value.games, start, end)
    }
  }
}
