/** Pages and the directory of `<title>.txt` files that holds them
    (`Page.save` and `loadPage`, main.go:71-83; server_http.go:49-61 is the
    same code). The directory is a map from file name to file contents. */
module PageStore {
  import opened Wrappers
  import opened GoText

  datatype Page = Page(title: string, body: seq<byte>)

  /** The working directory: file name to contents. */
  type Files = map<string, seq<byte>>

  /** The file a page is kept in. */
  function FileName(title: string): string {
    title + ".txt"
  }

  /** Text of the `*PathError` that reading a missing file returns. */
  function NotExistMessage(name: string): string {
    "open " + name + ": no such file or directory"
  }

  /** `loadPage(title)`: read `<title>.txt`; a missing file is an error and
      no page. */
  function LoadPage(files: Files, title: string): (r: Result<Page, string>)
    ensures r.Success? <==> FileName(title) in files
    ensures r.Success? ==> r.value.title == title && r.value.body == files[FileName(title)]
    ensures r.Failure? ==> r.error == NotExistMessage(FileName(title))
  {
    var name := FileName(title);
    if name in files then Success(Page(title, files[name]))
    else Failure(NotExistMessage(name))
  }

  /** The directory after `p.save()` succeeded: `<title>.txt` holds exactly
      the body, whatever it held before, and no other file changed. */
  function Saved(files: Files, p: Page): (r: Files)
    ensures r.Keys == files.Keys + {FileName(p.title)}
    ensures r[FileName(p.title)] == p.body
    ensures forall name :: name in files && name != FileName(p.title) ==> r[name] == files[name]
  {
    files[FileName(p.title) := p.body]
  }

  /** The file system, shared by every request. */
  class Disk {
    var files: Files

    constructor (files: Files)
      ensures this.files == files
    {
      this.files := files;
    }

    /** `p.save()`: write `p.body` to `<p.title>.txt`. Whether the write fails
        is up to the operating system; `fault` is its verdict. A failed write
        leaves the directory as it was. */
    method Save(p: Page, fault: Option<string>) returns (err: Option<string>)
      modifies this
      ensures err == fault
      ensures files == if fault.None? then Saved(old(files), p) else old(files)
    {
      if fault.Some? {
        return fault;
      }
      files := Saved(files, p);
      err := None;
    }
  }

  /** Different titles name different files. */
  lemma FileNameInjective(a: string, b: string)
    requires FileName(a) == FileName(b)
    ensures a == b
  {
    assert |a| == |b|;
    assert a == FileName(a)[..|a|];
  }

  /** Loading a page right after saving it gives back that page. */
  lemma LoadAfterSave(files: Files, p: Page)
    ensures LoadPage(Saved(files, p), p.title) == Success(p)
  {
  }

  /** Saving one page does not change what loading any other title gives. */
  lemma SaveKeepsOtherPages(files: Files, p: Page, title: string)
    requires title != p.title
    ensures LoadPage(Saved(files, p), title) == LoadPage(files, title)
  {
    if FileName(title) == FileName(p.title) {
      FileNameInjective(title, p.title);
    }
  }

  /** The last of two saves of one title wins. */
  lemma LastSaveWins(files: Files, title: string, first: seq<byte>, second: seq<byte>)
    ensures Saved(Saved(files, Page(title, first)), Page(title, second))
         == Saved(files, Page(title, second))
  {
  }
}
