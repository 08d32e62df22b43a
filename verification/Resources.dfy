/** The second store: the bytes of the tasks under their content ids, in a directory or in a table. */
module Resources {
  import opened Entities

  type Files = map<Id, Bytes>

  datatype StoreKind = FileStore | DbStore

  /** Writing a file overwrites it; inserting a row fails when the id is taken. */
  function Stored(kind: StoreKind, files: Files, id: Id, content: Bytes): Option<Files> {
    if kind.DbStore? && id in files then None else Some(files[id := content])
  }

  /** Removing a missing file is an error; deleting a missing row is not. */
  predicate Removable(kind: StoreKind, files: Files, id: Id) {
    kind.DbStore? || id in files
  }

  class ResourceStore {
    const kind: StoreKind
    var files: Files

    constructor (kind: StoreKind)
      ensures this.kind == kind && files == map[]
    {
      this.kind := kind;
      files := map[];
    }

    method HasResource(id: Id) returns (found: bool)
      ensures found == (id in files)
    {
      found := id in files;
    }

    method GetResourceInfo(id: Id) returns (content: Option<Bytes>)
      ensures content == if id in files then Some(files[id]) else None
    {
      content := if id in files then Some(files[id]) else None;
    }

    method StoreResourceInfo(id: Id, content: Bytes) returns (ok: bool)
      modifies this`files
      ensures ok <==> Stored(kind, old(files), id, content).Some?
      ensures ok <==> kind.FileStore? || id !in old(files)
      ensures files == if ok then old(files)[id := content] else old(files)
      ensures ok ==> Stored(kind, old(files), id, content).value == files
    {
      ok := kind.FileStore? || id !in files;
      if ok {
        files := files[id := content];
      }
    }

    method DeleteResource(id: Id) returns (ok: bool)
      modifies this`files
      ensures ok == Removable(kind, old(files), id)
      ensures ok <==> kind.DbStore? || id in old(files)
      ensures files == old(files) - {id}
    {
      ok := kind.DbStore? || id in files;
      files := files - {id};
    }
  }
}
