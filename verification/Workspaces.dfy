/** The workspace of a work item: a map from canonical file path to content. */
module Workspaces {
  import opened Json

  type Files = map<string, string>

  function Lookup(files: Files, path: string): Option<string> {
    if path in files then Some(files[path]) else None
  }

  class Workspace {
    var files: Files

    constructor (files: Files)
      ensures this.files == files
    {
      this.files := files;
    }

    /** Reading fails exactly when the file does not exist. */
    method ReadFile(path: string) returns (content: Option<string>)
      ensures content == Lookup(files, path)
    {
      content := Lookup(files, path);
    }

    method WriteFile(path: string, content: string)
      modifies this
      ensures files == old(files)[path := content]
    {
      files := files[path := content];
    }

    /** Deleting a missing file is not an error. */
    method DeleteFile(path: string)
      modifies this
      ensures files == old(files) - {path}
    {
      files := files - {path};
    }
  }
}
