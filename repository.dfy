/**
 * `DatastoreTaskRepository` (todo/infrastructure/task/repository.py): the
 * mapping between `Task` and the store's entities, over a map that stands in
 * for the datastore client.
 */
module Repository {
  import opened Wrappers
  import opened Errors
  import opened Datastore
  import Project
  import opened TaskDomain

  // Property names of a stored task; `updated_at` is stored as "update_at".
  const NAME: string := "name"
  const PROJECT_KEY: string := "project_key"
  const FINISHED_AT: string := "finished_at"
  const CREATED_AT: string := "created_at"
  const UPDATE_AT: string := "update_at"

  const FIELDS: set<string> := {NAME, PROJECT_KEY, FINISHED_AT, CREATED_AT, UPDATE_AT}

  /** `datastore_client.key(key.KIND, key.task_id)`. */
  function TaskStoreKey(k: TaskKey): StoreKey {
    RootKey(TASK_KIND, k.taskId)
  }

  function StampOrNull(t: Option<Timestamp>): Value {
    if t.Some? then Stamp(t.value) else Null
  }

  /** The properties `save` gives the entity of a task. */
  function ToProperties(t: Task): (doc: Properties)
    ensures doc.Keys == FIELDS && "updated_at" !in doc
    ensures doc[NAME] == Text(t.name.value)
    ensures doc[PROJECT_KEY] == Null <==> t.projectKey.None?
    ensures t.projectKey.Some? ==> doc[PROJECT_KEY] == KeyRef(Project.ProjectStoreKey(t.projectKey.value))
    ensures doc[FINISHED_AT] == StampOrNull(t.finishedAt)
    ensures doc[CREATED_AT] == Stamp(t.createdAt) && doc[UPDATE_AT] == Stamp(t.updatedAt)
  {
    var projectKey := if t.projectKey.Some? then KeyRef(Project.ProjectStoreKey(t.projectKey.value)) else Null;
    map[NAME := Text(t.name.value),
        PROJECT_KEY := projectKey,
        FINISHED_AT := StampOrNull(t.finishedAt),
        CREATED_AT := Stamp(t.createdAt),
        UPDATE_AT := Stamp(t.updatedAt)]
  }

  /** `doc[field]`, raising KeyError when the property is absent. */
  function Field(doc: Properties, field: string): Result<Value, Error> {
    if field in doc then Success(doc[field]) else Failure(MissingField(field))
  }

  /** The `project_key` argument: `None` for a null property, else `ProjectKey.build_from_key`. */
  function ProjectKeyOf(v: Value): (r: Result<Option<Project.ProjectKey>, Error>)
    ensures r == Success(None) <==> v.Null?
    ensures (r.Success? && r.value.Some?) <==> (v.KeyRef? && v.k.parent.None? && v.k.kind == Project.PROJECT_KIND)
    ensures r.Success? && r.value.Some? ==> Project.ProjectStoreKey(r.value.value) == v.k
    ensures !v.Null? && !v.KeyRef? ==> r == Failure(TypeMismatch(PROJECT_KEY))
  {
    match v
    case Null => Success(None)
    case KeyRef(k) =>
      var p :- Project.BuildFromKey(k);
      Success(Some(p))
    case _ => Failure(TypeMismatch(PROJECT_KEY))
  }

  /** A stored timestamp property that `Task` accepts only when it holds a timestamp. */
  function StampOf(v: Value, field: string): Result<Timestamp, Error> {
    if v.Stamp? then Success(v.t) else Failure(TypeMismatch(field))
  }

  /** `finished_at` accepts a timestamp or null. */
  function OptionalStampOf(v: Value, field: string): Result<Option<Timestamp>, Error> {
    if v.Stamp? then Success(Some(v.t)) else if v.Null? then Success(None) else Failure(TypeMismatch(field))
  }

  /**
   * The stored entities `_to_domain_entity` turns into a task: a root key of
   * kind "Task" and all five properties present, each of the type `Task`
   * accepts, the name obeying the TaskName rules and a project key naming a
   * root "Project" entity.
   */
  predicate WellFormedEntity(key: StoreKey, doc: Properties) {
    && key.parent.None? && key.kind == TASK_KIND
    && FIELDS <= doc.Keys
    && doc[NAME].Text? && NameRulesHold(doc[NAME].s)
    && (doc[PROJECT_KEY].Null? ||
        (doc[PROJECT_KEY].KeyRef? && doc[PROJECT_KEY].k.parent.None? && doc[PROJECT_KEY].k.kind == Project.PROJECT_KIND))
    && (doc[FINISHED_AT].Null? || doc[FINISHED_AT].Stamp?)
    && doc[CREATED_AT].Stamp? && doc[UPDATE_AT].Stamp?
  }

  /**
   * `_to_domain_entity`: the arguments of `Task(...)` in the order Python
   * evaluates them, then the type checks of `Task.__post_init__`.
   */
  function ToDomainEntity(key: StoreKey, doc: Properties): (r: Result<Task, Error>)
    ensures key.parent.Some? ==> r == Failure(KeyHasParent)
    ensures key.parent.None? && key.kind != TASK_KIND ==> r == Failure(WrongKind(key.kind))
    ensures key.parent.None? && key.kind == TASK_KIND && NAME !in doc ==> r == Failure(MissingField(NAME))
    ensures key.parent.None? && key.kind == TASK_KIND && NAME in doc && !doc[NAME].Text? ==> r == Failure(TypeMismatch(NAME))
    ensures key.parent.None? && key.kind == TASK_KIND && NAME in doc && doc[NAME].Text? && !NameRulesHold(doc[NAME].s)
      ==> r == Failure(NewTaskName(doc[NAME].s).error)
    ensures r.Success? <==> WellFormedEntity(key, doc)
    ensures r.Success? ==> r.value.key == BuildById(key.id)
    ensures r.Success? ==> FIELDS <= doc.Keys && ToProperties(r.value) == map f | f in FIELDS :: doc[f]
  {
    var taskKey :- TaskDomain.BuildFromKey(key);
    var nameValue :- Field(doc, NAME);
    var nameText :- if nameValue.Text? then Success(nameValue.s) else Failure(TypeMismatch(NAME));
    var name :- NewTaskName(nameText);
    var projectValue :- Field(doc, PROJECT_KEY);
    var projectKey :- ProjectKeyOf(projectValue);
    var finishedValue :- Field(doc, FINISHED_AT);
    var createdValue :- Field(doc, CREATED_AT);
    var updatedValue :- Field(doc, UPDATE_AT);
    var finishedAt :- OptionalStampOf(finishedValue, FINISHED_AT);
    var createdAt :- StampOf(createdValue, CREATED_AT);
    var updatedAt :- StampOf(updatedValue, "updated_at");
    Success(Task(taskKey, name, projectKey, finishedAt, createdAt, updatedAt))
  }

  /** `is_finished` holds exactly when the stored `finished_at` is not null, on writing and on reading. */
  lemma IsFinishedIffStoredFinishedAt(t: Task, key: StoreKey, doc: Properties)
    ensures t.IsFinished() <==> !ToProperties(t)[FINISHED_AT].Null?
    ensures ToDomainEntity(key, doc).Success? ==> (ToDomainEntity(key, doc).value.IsFinished() <==> !doc[FINISHED_AT].Null?)
  {
  }

  /** The entity written for `t` reads back as `t` exactly when its key id is one `build_by_id` keeps. */
  lemma ToDomainEntityOfToProperties(t: Task)
    ensures ToDomainEntity(TaskStoreKey(t.key), ToProperties(t)) == Success(t) <==> Normalised(t.key.taskId)
  {
    if Normalised(t.key.taskId) {
      if t.projectKey.Some? {
        Project.BuildFromProjectStoreKey(t.projectKey.value);
      }
    }
  }

  // ---------------------------------------------------------------------
  // The store as a map

  /** What `fetch_no_raise(k)` returns for a store in state `store`. */
  function Fetch(store: map<StoreKey, Properties>, k: TaskKey): Result<Option<Task>, Error> {
    var key := TaskStoreKey(k);
    if key !in store then Success(None)
    else
      var t :- ToDomainEntity(key, store[key]);
      Success(Some(t))
  }

  /** Absence is not an error: the result is `None` exactly when no entity is stored at the key. */
  lemma FetchNoneIffAbsent(store: map<StoreKey, Properties>, k: TaskKey)
    ensures Fetch(store, k) == Success(None) <==> TaskStoreKey(k) !in store
  {
  }

  /** `save(t)` then `fetch_no_raise(t.key)` gives `t` back, for a key id `build_by_id` keeps. */
  lemma SaveThenFetch(store: map<StoreKey, Properties>, t: Task)
    requires Normalised(t.key.taskId)
    ensures Fetch(store[TaskStoreKey(t.key) := ToProperties(t)], t.key) == Success(Some(t))
  {
    ToDomainEntityOfToProperties(t);
  }

  /** A task whose key was generated from a version-4 UUID survives `save` then `fetch_no_raise`. */
  lemma SaveThenFetchNewTask(store: map<StoreKey, Properties>, t: Task, uuidBytes: seq<Base32.Byte>)
    requires IsUuid4(uuidBytes) && t.key == BuildForNew(uuidBytes)
    ensures Fetch(store[TaskStoreKey(t.key) := ToProperties(t)], t.key) == Success(Some(t))
  {
    NewIdOfUuid4IsNotDigits(uuidBytes);
    SaveThenFetch(store, t);
  }

  /** `delete(k)` then `fetch_no_raise(k)` gives `None`. */
  lemma DeleteThenFetch(store: map<StoreKey, Properties>, k: TaskKey)
    ensures Fetch(store - {TaskStoreKey(k)}, k) == Success(None)
  {
  }

  /** Saving or deleting one task does not change what another key fetches. */
  lemma OtherKeysUnaffected(store: map<StoreKey, Properties>, t: Task, k: TaskKey)
    requires TaskStoreKey(k) != TaskStoreKey(t.key)
    ensures Fetch(store[TaskStoreKey(t.key) := ToProperties(t)], k) == Fetch(store, k)
    ensures Fetch(store - {TaskStoreKey(t.key)}, k) == Fetch(store, k)
  {
  }

  /** The keys a kind query for "Task" returns: every stored entity of that kind, root or not. */
  function TaskEntityKeys(store: map<StoreKey, Properties>): set<StoreKey> {
    set k | k in store && k.kind == TASK_KIND
  }

  /** `order` lists each key of `keys` exactly once. */
  ghost predicate ListsEachOnce(order: seq<StoreKey>, keys: set<StoreKey>) {
    && (forall i, j :: 0 <= i < j < |order| ==> order[i] != order[j])
    && (forall i :: 0 <= i < |order| ==> order[i] in keys)
    && (forall k :: k in keys ==> k in order)
  }

  // ---------------------------------------------------------------------
  // The repository

  class DatastoreTaskRepository {
    /** Every entity in the store, of any kind, by key. */
    var store: map<StoreKey, Properties>

    constructor (initial: map<StoreKey, Properties>)
      ensures store == initial
    {
      store := initial;
    }

    /** `save`: an upsert at the task's key; nothing else in the store changes. */
    method Save(t: Task)
      modifies this
      ensures store == old(store)[TaskStoreKey(t.key) := ToProperties(t)]
    {
      var key := RootKey(TASK_KIND, t.key.taskId);
      var projectKey: Value;
      if t.projectKey.Some? {
        projectKey := KeyRef(RootKey(Project.PROJECT_KIND, t.projectKey.value.projectId));
      } else {
        projectKey := Null;
      }
      var entity: Properties := map[];
      entity := entity[NAME := Text(t.name.value)];
      entity := entity[PROJECT_KEY := projectKey];
      entity := entity[FINISHED_AT := StampOrNull(t.finishedAt)];
      entity := entity[CREATED_AT := Stamp(t.createdAt)];
      entity := entity[UPDATE_AT := Stamp(t.updatedAt)];
      store := store[key := entity];
    }

    /** `delete`: removes the entity at the key, if any; nothing else changes. */
    method Delete(k: TaskKey)
      modifies this
      ensures store == old(store) - {TaskStoreKey(k)}
    {
      var key := RootKey(TASK_KIND, k.taskId);
      store := store - {key};
    }

    /** `fetch_no_raise`: `None` for an absent key, else the stored entity as a `Task` (or the error it raises). */
    method FetchNoRaise(k: TaskKey) returns (r: Result<Option<Task>, Error>)
      ensures r == Success(None) <==> TaskStoreKey(k) !in store
      ensures r == Fetch(store, k)
    {
      var key := RootKey(TASK_KIND, k.taskId);
      if key !in store {
        return Success(None);
      }
      var t := ToDomainEntity(key, store[key]);
      if t.Failure? {
        return Failure(t.error);
      }
      return Success(Some(t.value));
    }

    /**
     * `fetch_list`: one `Task` per stored entity of kind "Task", in the order
     * the query yields them (`order`, chosen by the store); the first entity
     * that does not convert ends the call with its error.
     */
    method FetchList() returns (r: Result<seq<Task>, Error>, ghost order: seq<StoreKey>)
      ensures r.Success? ==> ListsEachOnce(order, TaskEntityKeys(store)) && |r.value| == |order|
      ensures r.Success? ==> forall i :: 0 <= i < |order| ==> ToDomainEntity(order[i], store[order[i]]) == Success(r.value[i])
      ensures r.Success? <==> forall k :: k in TaskEntityKeys(store) ==> ToDomainEntity(k, store[k]).Success?
      ensures r.Failure? ==> exists k :: k in TaskEntityKeys(store) && ToDomainEntity(k, store[k]) == Failure(r.error)
    {
      var pending := TaskEntityKeys(store);
      var tasks: seq<Task> := [];
      order := [];
      while pending != {}
        invariant pending <= TaskEntityKeys(store)
        invariant |tasks| == |order|
        invariant forall i :: 0 <= i < |order| ==> order[i] in TaskEntityKeys(store) && order[i] !in pending
        invariant forall i, j :: 0 <= i < j < |order| ==> order[i] != order[j]
        invariant forall k :: k in TaskEntityKeys(store) ==> k in pending || k in order
        invariant forall i :: 0 <= i < |order| ==> ToDomainEntity(order[i], store[order[i]]) == Success(tasks[i])
        decreases pending
      {
        var k :| k in pending;
        var t := ToDomainEntity(k, store[k]);
        if t.Failure? {
          return Failure(t.error), order;
        }
        tasks := tasks + [t.value];
        order := order + [k];
        pending := pending - {k};
      }
      r := Success(tasks);
    }
  }
}
