/** The part of the file system the pipelines touch: which paths hold a file, and what. */
module Files {

  /** What a pipeline writes to a temporary file: the text of a local path (what the download
      helper hands back for a reference starting with "/") or downloaded audio bytes. */
  datatype Audio = LocalReference(path: string) | Downloaded(bytes: seq<bv8>)

  class Disk {
    var files: map<string, Audio>

    constructor (files0: map<string, Audio>)
      ensures files == files0
    {
      files := files0;
    }

    /** `fs.existsSync(path)` */
    predicate Exists(path: string)
      reads this
    {
      path in files
    }

    /** `fs.writeFileSync(path, content)`: creates or overwrites the file. */
    method Write(path: string, content: Audio)
      modifies this
      ensures files == old(files)[path := content]
    {
      files := files[path := content];
    }

    /** `fs.unlinkSync(path)` of an existing file. */
    method Remove(path: string)
      requires Exists(path)
      modifies this
      ensures files == old(files) - {path}
      ensures !Exists(path)
    {
      files := files - {path};
    }
  }
}
