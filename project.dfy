/**
 * The project key a task may refer to. Its defining file (todo/domain/project.py)
 * is not part of this model: only what the task core uses of it is stated
 * here, a kind tag, an identifier, and a reconstruction from a stored key that
 * undoes key construction.
 */
module Project {
  import opened Wrappers
  import opened Errors
  import opened Datastore

  const PROJECT_KIND: string := "Project"

  datatype ProjectKey = ProjectKey(projectId: KeyId)

  /** `datastore_client.key(project_key.KIND, project_key.project_id)`. */
  function ProjectStoreKey(p: ProjectKey): StoreKey {
    RootKey(PROJECT_KIND, p.projectId)
  }

  /** `ProjectKey.build_from_key`: a root key of the project kind, or an error. */
  function BuildFromKey(key: StoreKey): (r: Result<ProjectKey, Error>)
    ensures r.Success? <==> key.parent.None? && key.kind == PROJECT_KIND
    ensures r.Success? ==> ProjectStoreKey(r.value) == key
    ensures key.parent.Some? ==> r == Failure(KeyHasParent)
  {
    if key.parent.Some? then Failure(KeyHasParent)
    else if key.kind != PROJECT_KIND then Failure(WrongKind(key.kind))
    else Success(ProjectKey(key.id))
  }

  /** Rebuilding a project key from the store key written for it gives it back. */
  lemma BuildFromProjectStoreKey(p: ProjectKey)
    ensures BuildFromKey(ProjectStoreKey(p)) == Success(p)
  {
  }
}
