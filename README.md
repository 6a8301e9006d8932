# Task domain and datastore repository, modelled in Dafny

This project models the core of a small task-tracking application: the
`TaskKey` and `TaskName` value objects and the immutable `Task` entity of
`todo/domain/task.py`, and the `DatastoreTaskRepository` of
`todo/infrastructure/task/repository.py`, which writes tasks to a document
store and reads them back.

- `TaskKey.build_by_id` turns a non-empty string of digits into the integer it
  spells and keeps every other id. `build_from_key` accepts only a root key of
  kind `"Task"`. `build_for_new` names a new task by the base32 encoding
  (RFC 4648, section 6) of a UUID's 16 bytes, with the `======` padding removed
  and the letters lower-cased. The model proves that such an id has 26
  characters from `a`–`z` and `2`–`7`, that it decodes back to the bytes, so
  distinct bytes give distinct ids, and that for a version-4 UUID character 10
  is a letter. That last fact means `build_by_id` never turns a new task's id
  into a number, so a new task reads back with the key it was saved under.
- `TaskName` accepts a string of 1 to 100 characters unless the whole string is
  one whitespace character. The check is a full match of a single `\s`, so a
  name of two or more spaces is accepted. The model keeps this behaviour as
  written.
- `Task` transitions are pure functions that take the clock reading `now`. Each
  one replaces one field, sets `updated_at` to `now` and keeps `key` and
  `created_at`. `to_finished_now` takes two readings, because the code reads
  the clock twice.
- The repository is a class whose `store` field maps store keys to property
  maps. `save` writes `updated_at` under the property name `"update_at"`, and
  `_to_domain_entity` reads it back from there, so the mismatch is invisible
  to round trips. The model proves four facts about it. Saving and then
  fetching gives the task back when its key id is one `build_by_id` keeps. A
  deleted key fetches `None`. Other keys are unaffected by a save or a delete.
  `fetch_list` returns one task per stored entity of kind `"Task"`, or the
  error of one that does not convert.

Files: `wrappers.dfy` (Option, Result), `errors.dfy` (the raised conditions),
`datastore.dfy` (keys, property values), `digits.dfy` (`isdigit`, `int`,
`str`), `base32.dfy` (RFC 4648 base32 over bit strings, `replace`, `lower`),
`base32_vectors.dfy` (the first four test vectors of RFC 4648, section 10),
`project.dfy` (the project key), `task.dfy` (module `TaskDomain`),
`repository.dfy` (module `Repository`).

`build_by_id` is annotated as taking an `int` (todo/domain/task.py:19), but
its body accepts any string and keeps the strings that are not all digits,
and generated ids are such strings. The model follows the body.

## Model

| member | source | states |
|---|---|---|
| `TaskDomain.BuildById` | todo/domain/task.py:19-22 | the result is always normalised (never a digit string); an id that is not a digit string is kept; a digit string becomes the integer it spells |
| `TaskDomain.BuildByIdOfDecimal` | todo/domain/task.py:20-21 | `build_by_id(str(n)) == build_by_id(n)` for every `n >= 0`, and differs for every `n < 0` (the '-' is not a digit) |
| `Digits.ParseNatToString` | todo/domain/task.py:21 | `int(str(n)) == n` for every natural `n` |
| `TaskDomain.BuildByIdIdempotent` | todo/domain/task.py:19-22 | normalising an already built key's id gives the same key |
| `TaskDomain.BuildFromKey` | todo/domain/task.py:29-35 | succeeds exactly for a root key of kind "Task"; a parent gives KeyHasParent, checked first; another kind gives WrongKind; on success the key is `build_by_id(key.id_or_name)` |
| `TaskDomain.GenerateNewUuid` | todo/domain/task.py:38-40 | for any 16 bytes the id has 26 characters, each in `a`–`z` or `2`–`7`, and contains no '=' |
| `TaskDomain.EncodeSixteen` | todo/domain/task.py:39-40 | the base32 encoding of 16 bytes is 26 symbols followed by exactly "======", which the `replace` removes |
| `Base32Vectors.EncodeVectorEmpty` | todo/domain/task.py:39 | `b32encode` of "" is "", as RFC 4648, section 10 lists |
| `Base32Vectors.EncodeVectorF` | todo/domain/task.py:39 | `b32encode` of "f" is "MY======", as RFC 4648, section 10 lists |
| `Base32Vectors.EncodeVectorFo` | todo/domain/task.py:39 | `b32encode` of "fo" is "MZXQ====", as RFC 4648, section 10 lists |
| `Base32Vectors.EncodeVectorFoo` | todo/domain/task.py:39 | `b32encode` of "foo" is "MZXW6===", as RFC 4648, section 10 lists |
| `Base32.ReplaceTrailingPadding` | todo/domain/task.py:40 | `replace('======', '')` removes a trailing "======" and nothing else from a string with no other '=' |
| `TaskDomain.DecodeGenerateNewUuid` | todo/domain/task.py:38-40 | decoding a generated id gives back the 16 bytes it was made from |
| `TaskDomain.GenerateNewUuidInjective` | todo/domain/task.py:38-40 | distinct UUID bytes give distinct ids |
| `TaskDomain.BuildForNew` | todo/domain/task.py:25-26 | the new key wraps the generated id as a string name |
| `TaskDomain.NewIdOfUuid4IsNotDigits` | todo/domain/task.py:19-26 | for version-4 UUID bytes, character 10 of the id is in 'a'..'h', so the new key's id is one `build_by_id` keeps |
| `TaskDomain.NewTaskName` | todo/domain/task.py:53-63 | succeeds exactly when 1 <= length <= 100 and the value is not one whitespace character, keeping the value; the failures are NameEmpty, NameTooLong and NameOnlySpace, checked in that order |
| `TaskDomain.WhitespaceOnlyNamesAccepted` | todo/domain/task.py:62-63 | any name of 2 to 100 whitespace characters is accepted unchanged |
| `TaskDomain.Clone` | todo/domain/task.py:82-87 | the copy has `updated_at` = the clock reading, the changed field replaced, and every other field (`key`, `created_at` included) kept |
| `TaskDomain.WithProjectKey` | todo/domain/task.py:89-90 | only `project_key` and `updated_at` change |
| `TaskDomain.WithFinishedAt` | todo/domain/task.py:92-93 | only `finished_at` (set) and `updated_at` change; the result is finished |
| `TaskDomain.ToCanceledFinish` | todo/domain/task.py:95-96 | only `finished_at` (cleared) and `updated_at` change; the result is not finished |
| `TaskDomain.ToFinishedNow` | todo/domain/task.py:98-101 | `finished_at` is the first clock reading and `updated_at` the second; nothing else changes; the result is finished |
| `TaskDomain.ToChangedTaskName` | todo/domain/task.py:103-104 | only `name` and `updated_at` change |
| `TaskDomain.IsFinishedAfterTransitions` | todo/domain/task.py:79-101 | finishing makes `is_finished` true, cancelling a finish makes it false, renaming and re-projecting keep it |
| `TaskDomain.CloneOverrides` | todo/domain/task.py:82-87 | a second clone of the same field overrides the first (for example, cancelling twice is cancelling once at the later time) |
| `Project.BuildFromKey` | todo/infrastructure/task/repository.py:47-48 | succeeds exactly for a root key of the project kind, and then the project key maps back to that store key |
| `Project.BuildFromProjectStoreKey` | todo/infrastructure/task/repository.py:17-20 | the store key written for a project key rebuilds to that project key |
| `Repository.ToProperties` | todo/infrastructure/task/repository.py:17-28 | exactly the five properties name, project_key, finished_at, created_at and "update_at" (no "updated_at"); project_key is null exactly when the task has none, else the project's store key |
| `Repository.ToDomainEntity` | todo/infrastructure/task/repository.py:43-52 | conversion succeeds exactly when the key is a root "Task" key, all five properties are present, the name is text obeying the TaskName rules, `project_key` is null or a root "Project" key, `finished_at` is null or a timestamp and `created_at` and `update_at` are timestamps; a parent key gives KeyHasParent and a wrong kind WrongKind; a missing name gives MissingField, a name that is not text TypeMismatch, and a name breaking the rules the error `TaskName` raises for it; on success the key is `build_by_id` of the stored id and re-saving the task writes exactly the stored five properties |
| `Repository.ProjectKeyOf` | todo/infrastructure/task/repository.py:47-48 | a null `project_key` gives `None`; a reference gives a project key exactly when it is a root key of kind "Project", and that project key names the referenced entity; any other value is a type error |
| `Repository.IsFinishedIffStoredFinishedAt` | todo/domain/task.py:79-80 | a task is finished exactly when the `finished_at` property written for it is not null, and a task read from an entity is finished exactly when that entity's `finished_at` is not null |
| `Repository.ToDomainEntityOfToProperties` | todo/infrastructure/task/repository.py:13-52 | the entity written for a task reads back as that task exactly when its key id is one `build_by_id` keeps |
| `Repository.FetchNoneIffAbsent` | todo/infrastructure/task/repository.py:35-39 | the fetch result is `None` exactly when no entity is stored at the key |
| `Repository.SaveThenFetch` | todo/infrastructure/task/repository.py:13-41 | after `save(t)`, `fetch_no_raise(t.key)` returns `t` when the key id is one `build_by_id` keeps |
| `Repository.SaveThenFetchNewTask` | todo/infrastructure/task/repository.py:13-41 | a task keyed by `build_for_new` on a version-4 UUID reads back unchanged after `save` |
| `Repository.DeleteThenFetch` | todo/infrastructure/task/repository.py:31-39 | after `delete(k)`, `fetch_no_raise(k)` returns `None` |
| `Repository.OtherKeysUnaffected` | todo/infrastructure/task/repository.py:29-33 | saving or deleting one task leaves the fetch result of every other key unchanged |
| `Repository.DatastoreTaskRepository.Save` | todo/infrastructure/task/repository.py:13-29 | upsert: the store afterwards is the old store with the task's key set to its properties, and nothing else changed |
| `Repository.DatastoreTaskRepository.Delete` | todo/infrastructure/task/repository.py:31-33 | the store afterwards is the old store without the task's key (no change when absent) |
| `Repository.DatastoreTaskRepository.FetchNoRaise` | todo/infrastructure/task/repository.py:35-41 | `None` exactly when no entity is stored at the key; otherwise the converted entity or its error |
| `Repository.DatastoreTaskRepository.FetchList` | todo/infrastructure/task/repository.py:54-61 | on success, one task per stored "Task"-kind entity, each key exactly once, each task the conversion of its entity; it fails exactly when some such entity does not convert, with that entity's error |

## Left out

- The datastore client and its network calls (`put`, `get`, `delete`, `query.fetch`) are replaced by the `store` map. The order in which a kind query yields entities is the store's own, so `FetchList` picks the next key by an unspecified choice.
- Store-side key rules (positive 64-bit numeric ids, non-empty names) and property value types other than null, string, timestamp and key are not modelled. Integer ids are unbounded.
- `uuid.uuid4()` is not modelled: `build_for_new` takes the 16 bytes as a parameter, and nothing is claimed about the uniqueness of random values. The model proves only that distinct bytes give distinct ids.
- Clock reads are parameters and timestamps are integers ordered by time; time zones are not modelled. `datetime.utcnow().astimezone(tz=timezone.utc)` (todo/domain/task.py:85, 100) treats a naive UTC reading as local time, which shifts it on a host whose local zone is not UTC. This is a likely defect in the source and the model does not reproduce it.
- `dataclass_type_validator` checks on constructor arguments are Dafny's static types. A `Task` built with a plain string as its name cannot be written. The one place where types are checked at run time is reading a stored entity, where a property of the wrong kind gives `TypeMismatch`. That error names the first bad field, while the library reports all of them together.
- `todo/domain/project.py` is not part of this model. `ProjectKey` is a record with an identifier; its kind is assumed to be "Project", and its `build_from_key` is assumed to check the kind and the parent the way `TaskKey.build_from_key` does and to invert key construction.
- `TaskRepository` (todo/application/task/repository.py) is not part of this model; only the datastore implementation is.
- `str.isdigit` is modelled on ASCII digits only. Python also accepts other Unicode digits, which `int()` may reject. `str.lower` is modelled on ASCII letters only; it is applied only to base32 output.
- The `TestTask` cases in tests/todo/domain/test_task.py:18-44 build a `Task` without `project_key`, which has no default, so no property is taken from them.
