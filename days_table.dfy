/** The server's day routes (server/app/routes/days.py) over an in-memory `days` table. */
module DaysTable {
  import opened Wrappers
  import Seqs

  /** One row of the `days` table; the opaque JSON payload is not modelled. */
  datatype Row = Row(id: int, userId: int, date: string, createdAt: int)

  /** An `HTTPException`: a status code and a detail message. */
  datatype HttpError = HttpError(status: int, detail: string)

  const DuplicateDay := HttpError(400, "Day already saved")

  /** At most one row per (user, date), and row ids are distinct. */
  ghost predicate UniqueRows(rows: seq<Row>) {
    forall i, j :: 0 <= i < j < |rows| ==>
      rows[i].id != rows[j].id && (rows[i].userId != rows[j].userId || rows[i].date != rows[j].date)
  }

  /** The rows of `user`. */
  function OwnedBy(rows: seq<Row>, user: int): (r: seq<Row>)
    ensures forall x :: x in r <==> x in rows && x.userId == user
  {
    Seqs.Filter(rows, (x: Row) => x.userId == user)
  }

  /** Ordered newest first (`created_at` descending). */
  ghost predicate NewestFirst(rows: seq<Row>) {
    forall i, j :: 0 <= i < j < |rows| ==> rows[i].createdAt >= rows[j].createdAt
  }

  /** Insert `x` into a list before the first row that is not newer. */
  function Insert(x: Row, s: seq<Row>): (r: seq<Row>)
    ensures multiset(r) == multiset(s) + multiset{x}
    ensures |r| == |s| + 1
    ensures forall k :: 0 <= k < |r| ==> r[k] == x || r[k] in s
  {
    if s == [] then [x]
    else if x.createdAt >= s[0].createdAt then [x] + s
    else
      assert s == [s[0]] + s[1..];
      [s[0]] + Insert(x, s[1..])
  }

  /** A newest-first list preceded by a row no older than any of its rows is newest first. */
  lemma ConsNewestFirst(y: Row, t: seq<Row>)
    requires NewestFirst(t)
    requires forall k :: 0 <= k < |t| ==> y.createdAt >= t[k].createdAt
    ensures NewestFirst([y] + t)
  {
    var r := [y] + t;
    forall i, j | 0 <= i < j < |r|
      ensures r[i].createdAt >= r[j].createdAt
    {
      assert r[j] == t[j - 1];
      if i > 0 {
        assert r[i] == t[i - 1];
      }
    }
  }

  /** Inserting into a newest-first list keeps it newest first. */
  lemma {:induction false} InsertNewestFirst(x: Row, s: seq<Row>)
    requires NewestFirst(s)
    ensures NewestFirst(Insert(x, s))
  {
    if s == [] {
    } else if x.createdAt >= s[0].createdAt {
      ConsNewestFirst(x, s);
    } else {
      var rest := s[1..];
      assert NewestFirst(rest) by {
        forall i, j | 0 <= i < j < |rest| ensures rest[i].createdAt >= rest[j].createdAt {
          assert rest[i] == s[i + 1] && rest[j] == s[j + 1];
        }
      }
      InsertNewestFirst(x, rest);
      var tail := Insert(x, rest);
      forall k | 0 <= k < |tail|
        ensures s[0].createdAt >= tail[k].createdAt
      {
        if tail[k] != x {
          var m :| 0 <= m < |rest| && rest[m] == tail[k];
          assert rest[m] == s[m + 1];
        }
      }
      ConsNewestFirst(s[0], tail);
    }
  }

  /** `ORDER BY created_at DESC` (rows created in the same second may come in any order). */
  function SortNewestFirst(s: seq<Row>): (r: seq<Row>)
    ensures multiset(r) == multiset(s)
    ensures NewestFirst(r)
  {
    if s == [] then []
    else
      assert s == [s[0]] + s[1..];
      var rest := SortNewestFirst(s[1..]);
      InsertNewestFirst(s[0], rest);
      Insert(s[0], rest)
  }

  /** The table, with `nextId` standing for the database's auto-increment. */
  class DayTable {
    var rows: seq<Row>
    var nextId: int

    ghost predicate Valid()
      reads this
    {
      UniqueRows(rows) && forall i :: 0 <= i < |rows| ==> rows[i].id < nextId
    }

    constructor ()
      ensures Valid() && rows == []
    {
      rows := [];
      nextId := 1;
    }

    /** `select(Day).where(user_id == user, date == date).first()`. */
    method FindExisting(user: int, date: string) returns (found: Option<Row>)
      ensures found.Some? ==> found.value in rows && found.value.userId == user && found.value.date == date
      ensures found.None? <==> forall i :: 0 <= i < |rows| ==> !(rows[i].userId == user && rows[i].date == date)
    {
      var i := 0;
      while i < |rows|
        invariant 0 <= i <= |rows|
        invariant forall k :: 0 <= k < i ==> !(rows[k].userId == user && rows[k].date == date)
      {
        if rows[i].userId == user && rows[i].date == date {
          return Some(rows[i]);
        }
        i := i + 1;
      }
      return None;
    }

    /** `create_day`: refuse a second day for the same user and date with
        400 "Day already saved" and leave the table alone; otherwise add
        exactly one row for the user and date, created at `now`. */
    method CreateDay(user: int, date: string, now: int) returns (result: Result<Row, HttpError>)
      requires Valid()
      modifies this
      ensures Valid()
      ensures result.Failure? <==> exists i :: 0 <= i < |old(rows)| && old(rows)[i].userId == user && old(rows)[i].date == date
      ensures result.Failure? ==> result.error == DuplicateDay && rows == old(rows) && nextId == old(nextId)
      ensures result.Success? ==>
                && rows == old(rows) + [result.value]
                && result.value == Row(old(nextId), user, date, now)
    {
      var existing := FindExisting(user, date);
      if existing.Some? {
        return Failure(DuplicateDay);
      }
      var day := Row(nextId, user, date, now);
      rows := rows + [day];
      nextId := nextId + 1;
      result := Success(day);
    }

    /** `list_days`: the user's rows, newest first. */
    function ListDays(user: int): (r: seq<Row>)
      reads this
      ensures multiset(r) == multiset(OwnedBy(rows, user))
      ensures forall x :: x in r ==> x in rows && x.userId == user
      ensures NewestFirst(r)
    {
      var mine := OwnedBy(rows, user);
      var sorted := SortNewestFirst(mine);
      assert forall x :: x in sorted ==> x in multiset(mine);
      sorted
    }
  }
}
