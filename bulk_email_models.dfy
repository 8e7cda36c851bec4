/**
 * The three stored entities that the bulk-email query API reads, as an
 * immutable snapshot of their tables, and the two ORM lookups it performs on
 * them: `filter(...).exists()` on the opt-out table and `get(course_id=...)`
 * on the course-authorization table.
 *
 * A table is a sequence of rows. Nothing here assumes that a table holds at
 * most one row per key; `get` reports `MultipleObjectsReturned` when it does
 * not, and `UniqueCourseIds` states the assumption where it is needed.
 */
module BulkEmailModels {

  /** Identifies a user (the primary key the ORM compares on). */
  type UserId = nat

  /** A course key, compared as a string. */
  type CourseKey = string

  datatype Option<+T> = None | Some(value: T)

  /** A stored opt-out: `user` does not want bulk email for `courseId`. */
  datatype OptoutRow = OptoutRow(user: UserId, courseId: CourseKey)

  /** A stored per-course authorization of the bulk-email feature. */
  datatype CourseAuthorizationRow = CourseAuthorizationRow(courseId: CourseKey, emailEnabled: bool)

  /** The global feature flag's current configuration. */
  datatype BulkEmailFlag = BulkEmailFlag(enabled: bool, requireCourseEmailAuth: bool)

  /**
   * One consistent reading of the persistence layer. `flag` is the current
   * configuration of the global flag, `None` when none has been stored.
   */
  datatype Store = Store(
    optouts: seq<OptoutRow>,
    flag: Option<BulkEmailFlag>,
    authorizations: seq<CourseAuthorizationRow>)

  /** What `get` on a table yields: the one matching row, or one of its two exceptions. */
  datatype GetResult<+T> = Found(row: T) | DoesNotExist | MultipleObjectsReturned

  /** The flag is enabled: a configuration is stored and it says so. An absent configuration is disabled. */
  predicate FlagEnabled(s: Store)
  {
    s.flag.Some? && s.flag.value.enabled
  }

  /** Some row of the authorization table is keyed by `course`. */
  predicate HasRecordFor(rows: seq<CourseAuthorizationRow>, course: CourseKey)
  {
    exists i :: 0 <= i < |rows| && rows[i].courseId == course
  }

  /** Two distinct rows of the authorization table are keyed by `course`. */
  predicate TwoRecordsFor(rows: seq<CourseAuthorizationRow>, course: CourseKey)
  {
    exists i, j :: 0 <= i < j < |rows| && rows[i].courseId == course && rows[j].courseId == course
  }

  /** Every course has at most one authorization row. */
  predicate UniqueCourseIds(rows: seq<CourseAuthorizationRow>)
  {
    forall i, j :: 0 <= i < |rows| && 0 <= j < |rows| && rows[i].courseId == rows[j].courseId ==> i == j
  }

  /** `Optout.objects.filter(user=user, course_id=course)`: the matching rows, in table order. */
  function OptoutsFor(rows: seq<OptoutRow>, user: UserId, course: CourseKey): (r: seq<OptoutRow>)
    ensures forall x :: x in r <==> x in rows && x.user == user && x.courseId == course
    ensures |r| <= |rows|
  {
    if rows == [] then []
    else
      (if rows[0].user == user && rows[0].courseId == course then [rows[0]] else [])
      + OptoutsFor(rows[1..], user, course)
  }

  /** `filter(...).exists()`: the filtered query returns at least one row. */
  function OptoutExists(rows: seq<OptoutRow>, user: UserId, course: CourseKey): (r: bool)
    ensures r <==> OptoutRow(user, course) in rows
  {
    var matching := OptoutsFor(rows, user, course);
    assert matching != [] ==> matching[0] in matching;
    |matching| > 0
  }

  /** `CourseAuthorization.objects.filter(course_id=course)`: the matching rows, in table order. */
  function AuthorizationsFor(rows: seq<CourseAuthorizationRow>, course: CourseKey): (r: seq<CourseAuthorizationRow>)
    ensures forall x :: x in r <==> x in rows && x.courseId == course
    ensures |r| <= |rows|
  {
    if rows == [] then []
    else
      (if rows[0].courseId == course then [rows[0]] else [])
      + AuthorizationsFor(rows[1..], course)
  }

  /** The filter holds two or more rows exactly when two distinct rows of the table match. */
  lemma {:induction false} AuthorizationsForTwoOrMore(rows: seq<CourseAuthorizationRow>, course: CourseKey)
    ensures |AuthorizationsFor(rows, course)| >= 2 <==> TwoRecordsFor(rows, course)
  {
    if rows != [] {
      var tail := rows[1..];
      var rest := AuthorizationsFor(tail, course);
      AuthorizationsForTwoOrMore(tail, course);
      if |AuthorizationsFor(rows, course)| >= 2 {
        if rows[0].courseId == course {
          assert rest[0] in rest;
          var j :| 0 <= j < |tail| && tail[j] == rest[0];
          assert rows[0].courseId == course && rows[j + 1].courseId == course;
        } else {
          var i, j :| 0 <= i < j < |tail| && tail[i].courseId == course && tail[j].courseId == course;
          assert rows[i + 1] == tail[i] && rows[j + 1] == tail[j];
        }
      }
      if TwoRecordsFor(rows, course) {
        var i, j :| 0 <= i < j < |rows| && rows[i].courseId == course && rows[j].courseId == course;
        if i == 0 {
          assert rows[j] == tail[j - 1];
          assert rows[j] in rest;
        } else {
          assert tail[i - 1] == rows[i] && tail[j - 1] == rows[j];
          assert TwoRecordsFor(tail, course);
        }
      }
    }
  }

  /**
   * `CourseAuthorization.objects.get(course_id=course)`: the single matching
   * row; `DoesNotExist` when none matches; `MultipleObjectsReturned` when two
   * or more do.
   */
  function GetAuthorization(rows: seq<CourseAuthorizationRow>, course: CourseKey): (r: GetResult<CourseAuthorizationRow>)
    ensures r == DoesNotExist <==> !HasRecordFor(rows, course)
    ensures r == MultipleObjectsReturned <==> TwoRecordsFor(rows, course)
    ensures r.Found? ==> r.row in rows && r.row.courseId == course
  {
    var matching := AuthorizationsFor(rows, course);
    AuthorizationsForTwoOrMore(rows, course);
    assert matching != [] ==> matching[0] in matching;
    if |matching| == 0 then DoesNotExist
    else if |matching| == 1 then Found(matching[0])
    else MultipleObjectsReturned
  }

  /** With unique course ids, the row `get` finds is the one at any index keyed by `course`. */
  lemma GetAuthorizationUnique(rows: seq<CourseAuthorizationRow>, course: CourseKey, i: nat)
    requires UniqueCourseIds(rows)
    requires i < |rows| && rows[i].courseId == course
    ensures GetAuthorization(rows, course) == Found(rows[i])
  {
  }

  /** A non-empty table has a row for `course` exactly when its first row or its tail does. */
  lemma HasRecordForUnfold(rows: seq<CourseAuthorizationRow>)
    requires rows != []
    ensures forall c :: HasRecordFor(rows, c) <==> rows[0].courseId == c || HasRecordFor(rows[1..], c)
  {
  }

  /**
   * The authorization table read as a map from course to `email_enabled`.
   * When a course has several rows the earliest wins; with unique course ids
   * there is nothing to choose.
   */
  function AuthorizationTable(rows: seq<CourseAuthorizationRow>): (m: map<CourseKey, bool>)
    ensures forall c :: c in m <==> HasRecordFor(rows, c)
  {
    if rows == [] then map[]
    else
      HasRecordForUnfold(rows);
      AuthorizationTable(rows[1..])[rows[0].courseId := rows[0].emailEnabled]
  }

  /** With unique course ids, the map holds each row's `email_enabled` under its course. */
  lemma {:induction false} AuthorizationTableAt(rows: seq<CourseAuthorizationRow>, i: nat)
    requires UniqueCourseIds(rows)
    requires i < |rows|
    ensures rows[i].courseId in AuthorizationTable(rows)
    ensures AuthorizationTable(rows)[rows[i].courseId] == rows[i].emailEnabled
  {
    if i > 0 {
      var tail := rows[1..];
      assert UniqueCourseIds(tail) by {
        forall a, b | 0 <= a < |tail| && 0 <= b < |tail| && tail[a].courseId == tail[b].courseId
          ensures a == b
        {
          assert rows[a + 1] == tail[a] && rows[b + 1] == tail[b];
        }
      }
      AuthorizationTableAt(tail, i - 1);
      assert tail[i - 1] == rows[i];
      assert rows[0].courseId != rows[i].courseId;
    }
  }
}
