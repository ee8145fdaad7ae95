/** The wiki of main.go: the view, edit and save handlers and the
    `makeHandler` wrapper that validates the path before calling one of them. */
module Wiki {
  import opened Wrappers
  import opened GoText
  import opened Http
  import opened PageStore
  import opened Paths

  /** The templates parsed once at start-up (`templates`, main.go:29): given
      a template file name and a page, the rendered bytes or the text of the
      error. The template engine itself is not part of this model. */
  type Renderer = (string, Page) -> Result<seq<byte>, string>

  /** `renderTemplate(w, tmpl, p)`: execute `<tmpl>.html` on the page; on an
      error, answer 500 with the error text. */
  function RenderTemplate(templates: Renderer, tmpl: string, p: Page): (r: Response)
    ensures r.Written? <==> templates(tmpl + ".html", p).Success?
    ensures r.Written? ==> r.content == templates(tmpl + ".html", p).value
    ensures !r.Written? ==> r == Error(StatusInternalServerError, templates(tmpl + ".html", p).error)
  {
    match templates(tmpl + ".html", p)
    case Success(out) => Written(out)
    case Failure(e) => Error(StatusInternalServerError, e)
  }

  /** `viewHandler`: show the page, or send the client to its edit form when
      there is no such page. */
  function ViewHandler(files: Files, templates: Renderer, title: string): (r: Response)
    ensures FileName(title) !in files ==> r == Redirect(StatusFound, "/edit/" + title)
    ensures FileName(title) in files ==>
      r == RenderTemplate(templates, "view", Page(title, files[FileName(title)]))
  {
    match LoadPage(files, title)
    case Failure(_) => Redirect(StatusFound, "/edit/" + title)
    case Success(p) => RenderTemplate(templates, "view", p)
  }

  /** `editHandler`: show the edit form for the page, or for a new page with
      this title and an empty body. */
  function EditHandler(files: Files, templates: Renderer, title: string): (r: Response)
    ensures FileName(title) !in files ==> r == RenderTemplate(templates, "edit", Page(title, []))
    ensures FileName(title) in files ==>
      r == RenderTemplate(templates, "edit", Page(title, files[FileName(title)]))
  {
    var p := match LoadPage(files, title)
      case Failure(_) => Page(title, [])
      case Success(p) => p;
    RenderTemplate(templates, "edit", p)
  }

  /** `saveHandler`: store the form's body under the title, then send the
      client to the page; a failed write answers 500 with the error text.
      Either way it writes exactly one response. */
  method SaveHandler(w: ResponseWriter, disk: Disk, title: string, body: string, fault: Option<string>)
    modifies w, disk
    ensures fault.None? ==> disk.files == Saved(old(disk.files), Page(title, ToBytes(body)))
    ensures fault.None? ==> w.written == old(w.written) + [Redirect(StatusFound, "/view/" + title)]
    ensures fault.Some? ==> disk.files == old(disk.files)
    ensures fault.Some? ==> w.written == old(w.written) + [Error(StatusInternalServerError, fault.value)]
  {
    var p := Page(title, ToBytes(body));
    var err := disk.Save(p, fault);
    if err.Some? {
      w.Write(Error(StatusInternalServerError, err.value));
      return;
    }
    w.Write(Redirect(StatusFound, "/view/" + title));
  }

  /** The handler function that `makeHandler` wraps. */
  datatype PageHandler = ViewPage | EditPage | SavePage

  /** What the handlers read from an `*http.Request`: `r.URL.Path` and the
      form value `r.FormValue("body")`. */
  datatype Request = Request(path: string, body: string)

  /** The closure returned by `makeHandler(fn)`, applied to a request. A path
      the validator refuses gets a 404 and `fn` does not run; otherwise `fn`
      runs once, with the captured title, and its one response is the only
      thing written. The view and edit handlers are the functions giving the
      response they write; the save handler writes its own. `fault` is the
      file system's verdict on a write, should `fn` save. */
  method MakeHandler(fn: PageHandler, w: ResponseWriter, disk: Disk, templates: Renderer, r: Request,
                     fault: Option<string>)
    modifies w, disk
    ensures ValidPath(r.path).None? ==>
      w.written == old(w.written) + [NotFound] && disk.files == old(disk.files)
    ensures ValidPath(r.path).Some? && fn == ViewPage ==>
      var title := ValidPath(r.path).value.title;
      w.written == old(w.written) + [ViewHandler(old(disk.files), templates, title)] &&
      disk.files == old(disk.files)
    ensures ValidPath(r.path).Some? && fn == EditPage ==>
      var title := ValidPath(r.path).value.title;
      w.written == old(w.written) + [EditHandler(old(disk.files), templates, title)] &&
      disk.files == old(disk.files)
    ensures ValidPath(r.path).Some? && fn == SavePage && fault.None? ==>
      var title := ValidPath(r.path).value.title;
      w.written == old(w.written) + [Redirect(StatusFound, "/view/" + title)] &&
      disk.files == Saved(old(disk.files), Page(title, ToBytes(r.body)))
    ensures ValidPath(r.path).Some? && fn == SavePage && fault.Some? ==>
      w.written == old(w.written) + [Error(StatusInternalServerError, fault.value)] &&
      disk.files == old(disk.files)
  {
    var m := ValidPath(r.path);
    if m.None? {
      w.Write(NotFound);
      return;
    }
    var title := m.value.title;
    match fn
    case ViewPage =>
      w.Write(ViewHandler(disk.files, templates, title));
    case EditPage =>
      w.Write(EditHandler(disk.files, templates, title));
    case SavePage =>
      SaveHandler(w, disk, title, r.body, fault);
  }

  /** A page is viewed with exactly the body last saved for it. */
  lemma ViewAfterSave(files: Files, templates: Renderer, title: string, body: string)
    ensures ViewHandler(Saved(files, Page(title, ToBytes(body))), templates, title)
         == RenderTemplate(templates, "view", Page(title, ToBytes(body)))
  {
  }

  /** A request for a path shaped like `/edit/../../etc/passwd` is answered
      404 by every wrapped handler. */
  lemma TraversalIsNotFound(route: string, name: string)
    requires '.' in name || '/' in name
    ensures ValidPath("/" + route + "/" + name) == None
    ensures GetTitle("/" + route + "/" + name).written == Some(NotFound)
  {
    ValidPathRejectsTraversal(route, name);
  }

  /** A save request followed by a view request for a valid title: the save
      redirects to the view route, and the view renders the saved body. */
  method SaveThenView(w: ResponseWriter, disk: Disk, templates: Renderer, title: string, body: string)
    requires IsTitle(title)
    modifies w, disk
    ensures w.written == old(w.written) + [Redirect(StatusFound, "/view/" + title),
                                           RenderTemplate(templates, "view", Page(title, ToBytes(body)))]
    ensures disk.files == Saved(old(disk.files), Page(title, ToBytes(body)))
  {
    ValidPathAccepts("save", title);
    ValidPathAccepts("view", title);
    assert "/" + "save" + "/" + title == "/save/" + title;
    assert "/" + "view" + "/" + title == "/view/" + title;
    MakeHandler(SavePage, w, disk, templates, Request("/save/" + title, body), None);
    MakeHandler(ViewPage, w, disk, templates, Request("/view/" + title, ""), None);
    ViewAfterSave(old(disk.files), templates, title, body);
  }
}
