/**
  The two PostgreSQL tables of the outreach worker, as one object:
  - `processing_index` (the campaign cursor): one row per campaign name
    holding the position of the next contact to process;
  - `user_stats`: one row per contacted username, written by an
    insert-or-overwrite keyed by the username.
  Each table is a map from its unique key to the rest of its row. The
  generated `id` column and the `created_at`/`updated_at` timestamps are
  not modelled.
 */
module Store {
  import opened Wrappers

  /** A `user_stats` row without its key. The four trailing columns are
      nullable; a writer that does not supply them stores NULL (`None`). */
  datatype StatsRow = StatsRow(
    userReplied: bool,
    messageCount: int,
    sensitiveInfoSent: bool,
    initialMessageSent: bool,
    qualification: Option<string>,
    summary: Option<string>,
    monthlyBudget: Option<int>,
    consultationAgreed: Option<bool>)

  /** The row every caller in the worker writes: the four tracked fields,
      with the optional columns left at their Python default `None`. */
  function Snapshot(userReplied: bool, messageCount: int, sensitiveInfoSent: bool,
                    initialMessageSent: bool): (r: StatsRow)
    ensures r.qualification.None? && r.summary.None?
    ensures r.monthlyBudget.None? && r.consultationAgreed.None?
    ensures r.userReplied == userReplied && r.messageCount == messageCount
    ensures r.sensitiveInfoSent == sensitiveInfoSent && r.initialMessageSent == initialMessageSent
  {
    StatsRow(userReplied, messageCount, sensitiveInfoSent, initialMessageSent, None, None, None, None)
  }

  /** How one statement against the database ends: it commits, it raises a
      `PostgresError` (the statement has no effect), or it raises some other
      exception (a closed connection, say; also no effect). */
  datatype WriteOutcome = Committed | PostgresFailure | OtherFailure

  /** The position a campaign reads: its stored row, or 0 when there is none. */
  function CursorOf(cursors: map<string, int>, indexName: string): (p: int)
    ensures indexName in cursors ==> p == cursors[indexName]
    ensures indexName !in cursors ==> p == 0
  {
    if indexName in cursors then cursors[indexName] else 0
  }

  /** The cursor table after a read: `INSERT ... VALUES (name, 0) ON CONFLICT
      DO NOTHING` adds a zero row when none exists and never touches an
      existing one. */
  function AfterRead(cursors: map<string, int>, indexName: string): (c: map<string, int>)
    ensures c.Keys == cursors.Keys + {indexName}
    ensures indexName in c && c[indexName] == CursorOf(cursors, indexName)
    ensures forall k :: k in cursors ==> k in c && c[k] == cursors[k]
  {
    if indexName in cursors then cursors else cursors[indexName := 0]
  }

  /** The cursor table after `UPDATE processing_index SET current_index = v
      WHERE index_name = name`: only an existing row of that campaign changes. */
  function AfterUpdate(cursors: map<string, int>, indexName: string, v: int): (c: map<string, int>)
    ensures c.Keys == cursors.Keys
    ensures indexName in cursors ==> c[indexName] == v
    ensures forall k :: k in cursors && k != indexName ==> c[k] == cursors[k]
  {
    if indexName in cursors then cursors[indexName := v] else cursors
  }

  /** The stats table after `INSERT ... ON CONFLICT (username) DO UPDATE SET`
      every column: the row of `username` is exactly `row`, whether or not it
      existed, and every other row is untouched. */
  function Upsert(table: map<string, StatsRow>, username: string, row: StatsRow): (t: map<string, StatsRow>)
    ensures t.Keys == table.Keys + {username}
    ensures username in t && t[username] == row
    ensures forall k :: k in table && k != username ==> t[k] == table[k]
  {
    table[username := row]
  }

  /** Reading a cursor twice is reading it once: the lazy initialisation is
      idempotent and the position read does not change. */
  lemma ReadIdempotent(cursors: map<string, int>, indexName: string)
    ensures AfterRead(AfterRead(cursors, indexName), indexName) == AfterRead(cursors, indexName)
    ensures CursorOf(AfterRead(cursors, indexName), indexName) == CursorOf(cursors, indexName)
  {
  }

  /** A read followed by an update leaves the campaign at the written value
      and every other campaign as it was. */
  lemma ReadThenUpdate(cursors: map<string, int>, indexName: string, v: int)
    ensures AfterUpdate(AfterRead(cursors, indexName), indexName, v) == cursors[indexName := v]
  {
  }

  /** A read stores the position it returns, and changes nothing else. */
  lemma ReadStores(cursors: map<string, int>, indexName: string)
    ensures AfterRead(cursors, indexName) == cursors[indexName := CursorOf(cursors, indexName)]
  {
  }

  /** Repeating an identical upsert changes nothing. */
  lemma UpsertIdempotent(table: map<string, StatsRow>, username: string, row: StatsRow)
    ensures Upsert(Upsert(table, username, row), username, row) == Upsert(table, username, row)
  {
  }

  /** Whole-row last-writer-wins: of two upserts for one username only the
      second survives, including its NULL optional columns. */
  lemma UpsertLastWriterWins(table: map<string, StatsRow>, username: string, first: StatsRow, second: StatsRow)
    ensures Upsert(Upsert(table, username, first), username, second) == Upsert(table, username, second)
  {
  }

  /** Upserts for two different usernames commute. */
  lemma UpsertsCommute(table: map<string, StatsRow>, u1: string, r1: StatsRow, u2: string, r2: StatsRow)
    requires u1 != u2
    ensures Upsert(Upsert(table, u1, r1), u2, r2) == Upsert(Upsert(table, u2, r2), u1, r1)
  {
  }

  /** The worker's database connection. */
  class Database {
    var cursors: map<string, int>          // processing_index: index_name -> current_index
    var userStats: map<string, StatsRow>   // user_stats: username -> row

    constructor (cursors: map<string, int>, userStats: map<string, StatsRow>)
      ensures this.cursors == cursors && this.userStats == userStats
    {
      this.cursors := cursors;
      this.userStats := userStats;
    }

    /** `get_current_index`: the stored position, creating a zero row first
        when the campaign has none. */
    method GetCurrentIndex(indexName: string) returns (index: int)
      modifies this
      ensures index == CursorOf(old(cursors), indexName)
      ensures cursors == AfterRead(old(cursors), indexName)
      ensures userStats == old(userStats)
    {
      if indexName in cursors {
        index := cursors[indexName];
      } else {
        cursors := cursors[indexName := 0];
        index := 0;
      }
    }

    /** `update_current_index`: an unconditional overwrite of the campaign's
        row, if there is one. */
    method UpdateCurrentIndex(newIndex: int, indexName: string)
      modifies this
      ensures cursors == AfterUpdate(old(cursors), indexName, newIndex)
      ensures userStats == old(userStats)
    {
      if indexName in cursors {
        cursors := cursors[indexName := newIndex];
      }
    }

    /** `log_and_update_stats_db`: upserts the row of `username` when the
        statement commits. A `PostgresError` is swallowed; any other failure
        reaches the caller, which `raised` reports. */
    method LogAndUpdateStats(username: string, row: StatsRow, outcome: WriteOutcome) returns (raised: bool)
      modifies this
      ensures userStats == (if outcome == Committed then Upsert(old(userStats), username, row) else old(userStats))
      ensures raised <==> outcome == OtherFailure
      ensures cursors == old(cursors)
    {
      match outcome
      case Committed =>
        userStats := userStats[username := row];
        raised := false;
      case PostgresFailure =>
        raised := false;
      case OtherFailure =>
        raised := true;
    }
  }
}
