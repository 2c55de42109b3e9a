/** The file or folder record the actions work on, as the file list's store holds it. */
module Resources {

  /**
   * A resource of the file list. The capability methods of the source's
   * resource objects (`canDownload()`, `canRename()`, `canBeDeleted()`,
   * `canCreate()`) are defined outside the core; here they are the booleans
   * those calls return. `resourceType` is the source's `type` field
   * ("folder" or "file"), `isFolder` the separate flag the Overleaf actions read.
   */
  datatype Resource = Resource(
    id: string,
    name: string,
    path: string,
    extension: string,
    resourceType: string,
    isFolder: bool,
    mimeType: string,
    canDownload: bool,
    canRename: bool,
    canBeDeleted: bool,
    canCreate: bool)
}
