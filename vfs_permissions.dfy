// The permission rule of the virtual file system (src/kernel/filesystem.ts:376-406).
module VfsPermissions {
  import opened KernelTypes

  /** canRead: public, then owner, then the user's id in the read list, then `*`. */
  predicate CanRead(node: FileNode, user: string) {
    if node.permissions.public then true
    else if node.permissions.owner == user then true
    else if user in node.permissions.read then true
    else "*" in node.permissions.read
  }

  /** canWrite: owner, then the user's id in the write list, then `*`; `public` plays no part. */
  predicate CanWrite(node: FileNode, user: string) {
    if node.permissions.owner == user then true
    else if user in node.permissions.write then true
    else "*" in node.permissions.write
  }

  /** canExecute: owner, then the user's id in the execute list, then `*`. */
  predicate CanExecute(node: FileNode, user: string) {
    if node.permissions.owner == user then true
    else if user in node.permissions.execute then true
    else "*" in node.permissions.execute
  }

  /** getDefaultPermissions for the current user. */
  function DefaultPermissions(user: string): FilePermissions {
    FilePermissions(user, [user], [user], [user], false)
  }

  /** The permissions initialize gives the root record. */
  const RootPermissions := FilePermissions("system", ["*"], ["system"], ["*"], true)

  /** The permissions initialize gives `/system`. */
  const SystemDirPermissions := FilePermissions("system", ["*"], ["system"], ["system"], true)

  /**
   * Default permissions admit their owner to everything and no other user to anything
   * (unless the owner's id is the wildcard `*` itself).
   */
  lemma DefaultPermissionsOwnerOnly(node: FileNode, owner: string, user: string)
    requires node.permissions == DefaultPermissions(owner) && owner != "*"
    ensures CanRead(node, user) <==> user == owner
    ensures CanWrite(node, user) <==> user == owner
    ensures CanExecute(node, user) <==> user == owner
  {
    assert "*" in [owner] ==> owner == "*";
  }

  /** A public node owned by someone else is readable, yet not writable unless listed. */
  lemma PublicIsReadOnlyForOthers(node: FileNode, user: string)
    requires node.permissions.public && node.permissions.owner != user
    requires user !in node.permissions.write && "*" !in node.permissions.write
    ensures CanRead(node, user) && !CanWrite(node, user)
  {
  }

  /** The owner may always write and execute, whatever the lists say. */
  lemma OwnerMayWriteAndExecute(node: FileNode)
    ensures CanWrite(node, node.permissions.owner) && CanExecute(node, node.permissions.owner)
    ensures CanRead(node, node.permissions.owner)
  {
  }

  /** Root: every user reads and executes, only `system` writes. */
  lemma RootPermissionRule(node: FileNode, user: string)
    requires node.permissions == RootPermissions
    ensures CanRead(node, user) && CanExecute(node, user)
    ensures CanWrite(node, user) <==> user == "system"
  {
    assert "*" !in ["system"];
  }

  /** `/system`: every user reads, only `system` writes or executes. */
  lemma SystemDirPermissionRule(node: FileNode, user: string)
    requires node.permissions == SystemDirPermissions
    ensures CanRead(node, user)
    ensures CanWrite(node, user) <==> user == "system"
    ensures CanExecute(node, user) <==> user == "system"
  {
    assert "*" !in ["system"];
  }
}
