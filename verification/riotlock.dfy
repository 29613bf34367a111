/** The lock state of a project: the image each application was last built to,
    and the container last started for each (application, node) pair. */
module Locks {
  import opened Types

  datatype RiotLock = RiotLock(
    versions: map<string, string>,
    deployments: map<(string, string), string>)

  /** The container recorded for `app` on `node`, if any. */
  function GetDeployment(lock: RiotLock, app: string, node: string): (r: Option<string>)
    ensures r.Some? <==> (app, node) in lock.deployments
    ensures r.Some? ==> r.value == lock.deployments[(app, node)]
  {
    if (app, node) in lock.deployments then Some(lock.deployments[(app, node)]) else None
  }

  /** Records `id` as the container of `app` on `node`, replacing any earlier
      record for that pair; versions and all other records are kept. */
  function AddDeployment(lock: RiotLock, app: string, node: string, id: string): (r: RiotLock)
    ensures r.versions == lock.versions
    ensures GetDeployment(r, app, node) == Some(id)
    ensures forall a, n :: (a, n) != (app, node) ==> GetDeployment(r, a, n) == GetDeployment(lock, a, n)
  {
    lock.(deployments := lock.deployments[(app, node) := id])
  }
}
