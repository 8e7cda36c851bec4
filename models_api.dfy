/**
 * The bulk-email query API: whether a user has opted out of a course's bulk
 * email, whether the bulk-email feature is available (globally or for one
 * course), and whether a course is authorized to use it. Each query is a
 * function of one `Store` snapshot; none of them changes the store.
 */
module ModelsApi {
  import opened BulkEmailModels

  /**
   * A query's answer, or the exception it lets escape: `get` found several
   * authorization rows for `course` (only `DoesNotExist` is caught).
   */
  datatype Result<+T> = Ok(value: T) | MultipleAuthorizationRecords(course: CourseKey)

  /** Some authorization row for `course` has email enabled. */
  predicate AuthorizedFor(rows: seq<CourseAuthorizationRow>, course: CourseKey)
  {
    exists i :: 0 <= i < |rows| && rows[i].courseId == course && rows[i].emailEnabled
  }

  /**
   * When the feature is available, read off the decision table of the
   * documentation: the flag is enabled, and either course authorization is not
   * required or a course is given and it is authorized.
   */
  predicate FeatureAvailable(s: Store, course: Option<CourseKey>)
  {
    && FlagEnabled(s)
    && (!s.flag.value.requireCourseEmailAuth
        || (course.Some? && AuthorizedFor(s.authorizations, course.value)))
  }

  /** `is_user_opted_out_for_course`: an opt-out row for exactly this user and course exists. */
  function IsUserOptedOutForCourse(s: Store, user: UserId, course: CourseKey): (r: bool)
    ensures r <==> OptoutRow(user, course) in s.optouts
  {
    OptoutExists(s.optouts, user, course)
  }

  /**
   * `is_bulk_email_enabled_for_course`: the stored `email_enabled` of the
   * course's authorization row, `false` when it has none, and the
   * `MultipleObjectsReturned` exception when it has several.
   */
  function IsBulkEmailEnabledForCourse(s: Store, course: CourseKey): (r: Result<bool>)
    ensures r.Ok? <==> !TwoRecordsFor(s.authorizations, course)
    ensures !r.Ok? ==> r.course == course
    ensures r.Ok? ==> (r.value <==> AuthorizedFor(s.authorizations, course))
    ensures !HasRecordFor(s.authorizations, course) ==> r == Ok(false)
  {
    match GetAuthorization(s.authorizations, course)
    case Found(row) =>
      assert AuthorizedFor(s.authorizations, course) ==> row.emailEnabled by {
        if AuthorizedFor(s.authorizations, course) {
          var i :| 0 <= i < |s.authorizations| && s.authorizations[i].courseId == course && s.authorizations[i].emailEnabled;
          var k :| 0 <= k < |s.authorizations| && s.authorizations[k] == row;
          assert !(i < k) && !(k < i);
        }
      }
      Ok(row.emailEnabled)
    case DoesNotExist => Ok(false)
    case MultipleObjectsReturned => MultipleAuthorizationRecords(course)
  }

  /**
   * `is_bulk_email_feature_enabled`: the flag is checked first, then whether
   * course authorization is required, then the course itself. The answer is
   * `FeatureAvailable`; the only failure is the one the per-course lookup
   * lets escape, reached only when that lookup runs.
   */
  function IsBulkEmailFeatureEnabled(s: Store, course: Option<CourseKey>): (r: Result<bool>)
    ensures r.Ok? ==> (r.value <==> FeatureAvailable(s, course))
    ensures !r.Ok? <==>
      && FlagEnabled(s)
      && s.flag.value.requireCourseEmailAuth
      && course.Some?
      && TwoRecordsFor(s.authorizations, course.value)
  {
    if !FlagEnabled(s) then Ok(false)
    else if s.flag.value.requireCourseEmailAuth then
      if course.None? then Ok(false)
      else IsBulkEmailEnabledForCourse(s, course.value)
    else Ok(true)
  }

  /** An opt-out for `(user, course)` says nothing about another user on the same course. */
  lemma OptoutIgnoresOtherUser(s: Store, user: UserId, other: UserId, course: CourseKey)
    requires other != user
    ensures IsUserOptedOutForCourse(s.(optouts := s.optouts + [OptoutRow(user, course)]), other, course)
         == IsUserOptedOutForCourse(s, other, course)
  {
  }

  /** An opt-out for `(user, course)` says nothing about the same user on another course. */
  lemma OptoutIgnoresOtherCourse(s: Store, user: UserId, course: CourseKey, other: CourseKey)
    requires other != course
    ensures IsUserOptedOutForCourse(s.(optouts := s.optouts + [OptoutRow(user, course)]), user, other)
         == IsUserOptedOutForCourse(s, user, other)
  {
  }

  /** With the flag disabled (or absent) the feature is unavailable for any course, whatever the authorizations. */
  lemma FlagDisabledMeansUnavailable(s: Store, course: Option<CourseKey>, rows: seq<CourseAuthorizationRow>)
    requires !FlagEnabled(s)
    ensures IsBulkEmailFeatureEnabled(s.(authorizations := rows), course) == Ok(false)
  {
  }

  /** With authorization required, the feature is unavailable when no course is given. */
  lemma AuthRequiredWithoutCourse(s: Store)
    requires FlagEnabled(s) && s.flag.value.requireCourseEmailAuth
    ensures IsBulkEmailFeatureEnabled(s, None) == Ok(false)
  {
  }

  /** With authorization required and a course given, the answer is the course's own authorization. */
  lemma AuthRequiredDelegatesToCourse(s: Store, course: CourseKey)
    requires FlagEnabled(s) && s.flag.value.requireCourseEmailAuth
    ensures IsBulkEmailFeatureEnabled(s, Some(course)) == IsBulkEmailEnabledForCourse(s, course)
  {
  }

  /** With authorization required, a course without an authorization row is refused, not an error. */
  lemma AuthRequiredUnrecordedCourse(s: Store, course: CourseKey)
    requires FlagEnabled(s) && s.flag.value.requireCourseEmailAuth
    requires !HasRecordFor(s.authorizations, course)
    ensures IsBulkEmailFeatureEnabled(s, Some(course)) == Ok(false)
  {
  }

  /** With authorization not required, the feature is available for every course and for none. */
  lemma AuthNotRequiredMeansAvailable(s: Store, course: Option<CourseKey>)
    requires FlagEnabled(s) && !s.flag.value.requireCourseEmailAuth
    ensures IsBulkEmailFeatureEnabled(s, course) == Ok(true)
  {
  }

  /**
   * With at most one authorization row per course, neither query fails, and
   * the per-course answer is the authorization table read as a map, with a
   * missing key meaning `false`.
   */
  lemma UniqueAuthorizationsAnswerFromTable(s: Store, course: CourseKey)
    requires UniqueCourseIds(s.authorizations)
    ensures IsBulkEmailFeatureEnabled(s, Some(course)).Ok?
    ensures IsBulkEmailFeatureEnabled(s, None).Ok?
    ensures var table := AuthorizationTable(s.authorizations);
            IsBulkEmailEnabledForCourse(s, course) == Ok(course in table && table[course])
  {
    var rows := s.authorizations;
    if HasRecordFor(rows, course) {
      var i :| 0 <= i < |rows| && rows[i].courseId == course;
      AuthorizationTableAt(rows, i);
      GetAuthorizationUnique(rows, course, i);
    }
  }
}
