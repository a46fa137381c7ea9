/**
  What the lifecycle functions see of the remote API: the outcome of a `Get`
  call, and the two decision rules built on it, the pre-create existence
  guard and adopting the identifier of a freshly created cluster. The calls
  themselves, and polling, are not modelled: their outcomes are inputs.
 */
module Remote {
  import opened Wrappers

  datatype RemoteError = RemoteError(message: string)

  /**
    The result of a `Get`: a transport or service error (if any), whether the
    response was a 404, the resource identifier (if the body carried one) and
    the rest of the body.
   */
  datatype Response<T> = Response(err: Option<RemoteError>, notFound: bool, id: Option<string>, body: T)

  /** Why a create did not go ahead, or did not complete. */
  datatype LifecycleError =
    | ExistenceCheckFailed(cause: RemoteError)
    | ImportAsExists(resourceType: string, id: string)
    | RetrieveFailed(cause: RemoteError)
    | MissingId

  const ResourceType: string := "azurerm_openshift_cluster"

  /**
    The existence guard. When it is `enabled` (import checking is on, and for
    the create/update handler the resource is new), a lookup error other than
    not-found aborts, and a non-empty existing identifier aborts with an
    import-as-exists error; otherwise the create proceeds.
   */
  function ExistenceGuard<T>(enabled: bool, existing: Response<T>): (r: Result<(), LifecycleError>)
    ensures !enabled ==> r.Success?
    ensures enabled && existing.err.Some? && !existing.notFound
            ==> r == Failure(ExistenceCheckFailed(existing.err.value))
    ensures enabled && (existing.err.None? || existing.notFound)
            && existing.id.Some? && existing.id.value != ""
            ==> r == Failure(ImportAsExists(ResourceType, existing.id.value))
    ensures r.Success? <==>
              !enabled
              || ((existing.err.None? || existing.notFound)
                  && (existing.id.None? || existing.id.value == ""))
  {
    if !enabled then Success(())
    else if existing.err.Some? && !existing.notFound then Failure(ExistenceCheckFailed(existing.err.value))
    else if existing.id.Some? && existing.id.value != "" then Failure(ImportAsExists(ResourceType, existing.id.value))
    else Success(())
  }

  /**
    After the create has completed, the cluster is read back; its identifier
    becomes the resource's identifier. A failed read or a missing identifier
    is an error.
   */
  function AdoptCreatedId<T>(read: Response<T>): (r: Result<string, LifecycleError>)
    ensures r.Success? <==> read.err.None? && read.id.Some?
    ensures r.Success? ==> r.value == read.id.value
    ensures read.err.Some? ==> r == Failure(RetrieveFailed(read.err.value))
    ensures read.err.None? && read.id.None? ==> r == Failure(MissingId)
  {
    if read.err.Some? then Failure(RetrieveFailed(read.err.value))
    else if read.id.None? then Failure(MissingId)
    else Success(read.id.value)
  }
}
