/** The two programs side by side: main.go validates the title before it
    reaches a file name, server_http.go does not. */
module Variants {
  import opened GoText
  import opened Http
  import opened PageStore
  import opened Wrappers
  import Paths
  import ServerHttp

  /** A name with a dot or a slash in it is refused by main.go's validator,
      while server_http.go's edit handler reads the file it names and shows
      its contents. */
  lemma TraversalOnlyInEarlyVariant(files: Files, name: string)
    requires '.' in name || '/' in name
    requires FileName(name) in files
    ensures Paths.ValidPath("/edit/" + name) == None
    ensures ServerHttp.EditHandler(files, "/edit/" + name)
         == Written(ServerHttp.EditHtml(name, files[FileName(name)]))
  {
  }
}
