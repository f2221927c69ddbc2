/** The two persisted records of the workspace server
    (server/src/entities/Workspace.ts and server/src/entities/User.ts). */
module Entities {
  import opened Common

  /** One row of the `workspace` table. `id` is the generated primary key,
      `containerId` the runtime's handle and `status` the runtime's state
      string. `owner` is the nullable `userId` column of the table; the entity
      class declares no field or relation for it, the list handler means to
      filter on it (through a `user` relation the entity lacks), and nothing
      in the server ever sets it. */
  datatype Workspace = Workspace(
    id: int,
    name: string,
    sshPort: nat,
    codeServerPort: nat,
    containerId: string,
    status: string,
    owner: Option<int>)

  /** One row of the `user` table; `status` 0 means deactivated, 1 enabled
      (a tinyint column, so other values are representable). `createdAt`
      is the creation timestamp, kept as an opaque number. */
  datatype User = User(
    id: int,
    username: string,
    passwordDigest: Option<string>,
    status: int,
    createdAt: int)

  const DeactivatedStatus := 0
}
