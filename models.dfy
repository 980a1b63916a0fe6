/** The `url` table: its row type, the two length-limited columns, the
    uniqueness constraints, and the statements the composed repository runs
    against it (insert-and-commit, select-where-equal, scalar_one_or_none). */
module Models {
  import opened Wrappers
  import opened Exceptions
  import opened Entities

  /** `long_url` is a String(2048) column, `short_url` a String(255) one. */
  const LONG_URL_COLUMN_LENGTH: nat := 2048
  const SHORT_URL_COLUMN_LENGTH: nat := 255

  /** A row: the primary key `id`, both URLs as plain strings, and the timestamps. */
  datatype URLModel = URLModel(
    id: UUID,
    short_url: string,
    long_url: string,
    created_at: Timestamp,
    updated_at: Timestamp)

  function ModelColumn(m: URLModel, column: Column): string {
    match column
    case ShortURLColumn => m.short_url
    case LongURLColumn => m.long_url
  }

  /** The primary key and the unique `short_url` constraint hold for the table. */
  predicate UniqueKeys(rows: seq<URLModel>) {
    forall i, j :: 0 <= i < j < |rows| ==> rows[i].id != rows[j].id && rows[i].short_url != rows[j].short_url
  }

  /** `select(URLModel).where(column == value)`: the matching rows, in table order. */
  function Select(rows: seq<URLModel>, column: Column, value: string): (r: seq<URLModel>)
    ensures |r| <= |rows|
    ensures forall m :: m in r <==> m in rows && ModelColumn(m, column) == value
    ensures r == [] <==> forall m :: m in rows ==> ModelColumn(m, column) != value
  {
    if |rows| == 0 then []
    else
      var last := rows[|rows| - 1];
      assert rows == rows[..|rows| - 1] + [last];
      Select(rows[..|rows| - 1], column, value) + (if ModelColumn(last, column) == value then [last] else [])
  }

  lemma {:induction false} SelectAppend(rows: seq<URLModel>, m: URLModel, column: Column, value: string)
    ensures Select(rows + [m], column, value) ==
              Select(rows, column, value) + (if ModelColumn(m, column) == value then [m] else [])
  {
    assert (rows + [m])[..|rows|] == rows;
  }

  /** `scalar_one_or_none()`: no row gives none, one row gives that row, and
      more than one raises MultipleResultsFound. */
  function ScalarOneOrNone(rows: seq<URLModel>): (r: Result<Option<URLModel>, Error>)
    ensures r == Success(None) <==> rows == []
    ensures r == Failure(MultipleResultsFound) <==> |rows| > 1
    ensures r.Success? && r.value.Some? ==> rows == [r.value.value]
  {
    if |rows| == 0 then Success(None)
    else if |rows| == 1 then Success(Some(rows[0]))
    else Failure(MultipleResultsFound)
  }

  /** Under the uniqueness constraints a short code selects at most one row. */
  lemma {:induction false} ShortURLSelectsAtMostOne(rows: seq<URLModel>, short_url: string)
    requires UniqueKeys(rows)
    ensures |Select(rows, ShortURLColumn, short_url)| <= 1
  {
    if |rows| > 0 {
      var init, last := rows[..|rows| - 1], rows[|rows| - 1];
      assert rows == init + [last];
      assert UniqueKeys(init);
      SelectAppend(init, last, ShortURLColumn, short_url);
      ShortURLSelectsAtMostOne(init, short_url);
      if last.short_url == short_url {
        LastShortURLIsNew(rows);
      }
    }
  }

  lemma LastShortURLIsNew(rows: seq<URLModel>)
    requires UniqueKeys(rows) && |rows| > 0
    ensures forall m :: m in rows[..|rows| - 1] ==> m.short_url != rows[|rows| - 1].short_url
  {
    forall m | m in rows[..|rows| - 1] ensures m.short_url != rows[|rows| - 1].short_url {
      var i :| 0 <= i < |rows| - 1 && rows[..|rows| - 1][i] == m;
      assert rows[i] == m;
    }
  }

  /** Some row already holds the id or the short code of `m`. */
  predicate KeyTaken(rows: seq<URLModel>, m: URLModel) {
    exists r :: r in rows && (r.id == m.id || r.short_url == m.short_url)
  }

  /** `session.add(m); session.commit()`: a value longer than its column
      raises DataError, a duplicate key raises IntegrityError, and otherwise
      the row is inserted. */
  function Commit(rows: seq<URLModel>, m: URLModel): (r: Outcome<Error>)
    ensures r == Fail(DataError) <==>
              |m.short_url| > SHORT_URL_COLUMN_LENGTH || |m.long_url| > LONG_URL_COLUMN_LENGTH
    ensures r == Fail(IntegrityError) <==>
              |m.short_url| <= SHORT_URL_COLUMN_LENGTH && |m.long_url| <= LONG_URL_COLUMN_LENGTH && KeyTaken(rows, m)
    ensures r.Pass? ==> forall x :: x in rows ==> x.id != m.id && x.short_url != m.short_url
  {
    if |m.short_url| > SHORT_URL_COLUMN_LENGTH || |m.long_url| > LONG_URL_COLUMN_LENGTH then Fail(DataError)
    else if KeyTaken(rows, m) then Fail(IntegrityError)
    else Pass
  }

  /** A row within the column limits whose id and short code are new commits. */
  lemma CommitFreshRow(rows: seq<URLModel>, m: URLModel)
    requires |m.short_url| <= SHORT_URL_COLUMN_LENGTH && |m.long_url| <= LONG_URL_COLUMN_LENGTH
    requires forall x :: x in rows ==> x.id != m.id && x.short_url != m.short_url
    ensures Commit(rows, m) == Pass
  {
  }

  /** A successful commit keeps the constraints holding. */
  lemma CommitKeepsUniqueKeys(rows: seq<URLModel>, m: URLModel)
    requires UniqueKeys(rows) && Commit(rows, m).Pass?
    ensures UniqueKeys(rows + [m])
  {
    var rows' := rows + [m];
    forall i, j | 0 <= i < j < |rows'|
      ensures rows'[i].id != rows'[j].id && rows'[i].short_url != rows'[j].short_url
    {
      assert rows'[i] == rows[i];
      if j < |rows| {
        assert rows'[j] == rows[j];
      } else {
        assert rows[i] in rows;
      }
    }
  }
}
