# Bulk email models API

This project models the read-only query layer of Open edX's bulk-email app
(`lms/djangoapps/bulk_email/models_api.py`). It answers three questions over
three stored entities:

- whether a user has opted out of a course's bulk email (`Optout` rows);
- whether the bulk-email feature is available, either globally or for one course
  (the global `BulkEmailFlag` configuration with its `enabled` and
  `require_course_email_auth` switches);
- whether one course is authorized to send bulk email (`CourseAuthorization` rows).

The persistence layer becomes an immutable `Store` value holding the
opt-out table, the current flag configuration (`None` when none is stored) and
the authorization table. The tables are sequences of rows. Each Python function
becomes a total Dafny function of a `Store` and its arguments. The optional
`course_id` becomes an `Option<CourseKey>`.

The two ORM lookups are modelled as well. `BulkEmailModels.OptoutExists` models
`filter(...).exists()`. `BulkEmailModels.GetAuthorization` models
`get(course_id=...)`, which yields the matching row, `DoesNotExist` or
`MultipleObjectsReturned`. `is_bulk_email_enabled_for_course` catches only
`DoesNotExist`. So when a course has several authorization rows, the
exception escapes from it and from `is_bulk_email_feature_enabled`. The model
returns `ModelsApi.Result.MultipleAuthorizationRecords` in that case. With
unique course ids (`UniqueCourseIds`), neither query fails. The per-course
answer is then the authorization table read as a map, and a missing key
means `false`.

Files:

- `bulk_email_models.dfy` (module `BulkEmailModels`): the entities, the store
  snapshot, and the two lookups with their characterisations.
- `models_api.dfy` (module `ModelsApi`): the three query functions and the
  decision-table lemmas.

## Model

| member | source | states |
|---|---|---|
| `BulkEmailModels.OptoutsFor` | lms/djangoapps/bulk_email/models_api.py:17-19 | the filtered opt-out rows are exactly the table's rows matching both the user and the course |
| `BulkEmailModels.OptoutExists` | lms/djangoapps/bulk_email/models_api.py:17-20 | `exists()` on the filter is true iff an opt-out row for exactly this (user, course) pair is stored |
| `BulkEmailModels.AuthorizationsFor` | lms/djangoapps/bulk_email/models_api.py:60 | the rows `get` looks at are exactly the authorization rows keyed by the course |
| `BulkEmailModels.AuthorizationsForTwoOrMore` | lms/djangoapps/bulk_email/models_api.py:60 | that filter holds two or more rows iff two distinct rows of the table are keyed by the course |
| `BulkEmailModels.GetAuthorization` | lms/djangoapps/bulk_email/models_api.py:60-62 | `get` raises DoesNotExist iff no row is keyed by the course, raises MultipleObjectsReturned iff two rows are, and otherwise returns a stored row of that course |
| `BulkEmailModels.GetAuthorizationUnique` | lms/djangoapps/bulk_email/models_api.py:60-61 | with unique course ids, `get` returns the course's own row |
| `BulkEmailModels.AuthorizationTable` | lms/djangoapps/bulk_email/models_api.py:59-63 | the map view of the authorization table has a key for exactly the courses that have a row |
| `BulkEmailModels.AuthorizationTableAt` | lms/djangoapps/bulk_email/models_api.py:59-63 | with unique course ids, the map holds each row's `email_enabled` under its course |
| `ModelsApi.IsUserOptedOutForCourse` | lms/djangoapps/bulk_email/models_api.py:7-20 | true iff an opt-out row for exactly (user, course) is stored; a missing row gives false, not an error |
| `ModelsApi.IsBulkEmailEnabledForCourse` | lms/djangoapps/bulk_email/models_api.py:50-63 | succeeds iff the course does not have two rows; on success it is true iff a row for the course has email enabled; a course with no row gives false, not an error; a failure names the course |
| `ModelsApi.IsBulkEmailFeatureEnabled` | lms/djangoapps/bulk_email/models_api.py:23-47 | on success it is true iff the documented condition holds: the flag is enabled, and either course authorization is not required or a course is given and authorized; it fails iff the flag is enabled, authorization is required, a course is given and that course has two authorization rows |
| `ModelsApi.OptoutIgnoresOtherUser` | lms/djangoapps/bulk_email/models_api.py:17-20 | an opt-out for (u, c) does not change the answer for another user on c |
| `ModelsApi.OptoutIgnoresOtherCourse` | lms/djangoapps/bulk_email/models_api.py:17-20 | an opt-out for (u, c) does not change the answer for u on another course |
| `ModelsApi.FlagDisabledMeansUnavailable` | lms/djangoapps/bulk_email/models_api.py:32-40 | a disabled or absent flag gives false for every course argument, including none, whatever the authorization table holds |
| `ModelsApi.AuthRequiredWithoutCourse` | lms/djangoapps/bulk_email/models_api.py:33-43 | flag enabled and authorization required: no course gives false |
| `ModelsApi.AuthRequiredDelegatesToCourse` | lms/djangoapps/bulk_email/models_api.py:35-45 | flag enabled, authorization required, course given: the answer is the per-course query's answer, failure included |
| `ModelsApi.AuthRequiredUnrecordedCourse` | lms/djangoapps/bulk_email/models_api.py:33-63 | flag enabled, authorization required, course without a row: false, not an error |
| `ModelsApi.AuthNotRequiredMeansAvailable` | lms/djangoapps/bulk_email/models_api.py:37-47 | flag enabled and authorization not required: true for every course argument, including none |
| `ModelsApi.UniqueAuthorizationsAnswerFromTable` | lms/djangoapps/bulk_email/models_api.py:41-63 | with unique course ids neither query fails, and the per-course answer is the map's stored value for the course, or false when the course has no key |

## Left out

- The ORM and the model classes in `bulk_email/models.py` are not part of this model. Each table is a sequence of rows in a `Store` snapshot, and a lookup compares keys by equality.
- The configuration-model "current" semantics and caching behind `BulkEmailFlag.is_enabled()` and `BulkEmailFlag.current()`. The source reads the flag twice (lines 39 and 41). The model reads one `Option<BulkEmailFlag>` once per call, so both reads see the same configuration. An absent configuration counts as disabled. Since that case returns before the second read, the default value of `require_course_email_auth` plays no part.
- Uniqueness of course ids in the authorization table and of (user, course) pairs in the opt-out table, as the database schema may enforce them. The model does not assume them. It carries the `MultipleObjectsReturned` path instead, and states `UniqueCourseIds` where a result depends on it.
- Persistence failures other than `DoesNotExist` and `MultipleObjectsReturned`, such as an unreachable database. They propagate unchanged in the source and have no counterpart here.
- Creating, updating and deleting opt-outs, flags and authorizations. The modelled file only reads them. The two opt-out lemmas extend a snapshot by one row only to state what a record does not say.
