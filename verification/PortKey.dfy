/** Names that the files on ports and devices share: what a forward is filed under, and the
    device of the coordinator's own host. */
module PortKey {
  datatype Key = Key(worker: nat, port: int)

  const LOCAL: nat := 0
}
