# A tiny wiki server, modelled in Dafny

The wiki keeps each page as a file `<title>.txt` and serves three routes:
`/view/<title>` shows a page, `/edit/<title>` shows an edit form, and
`/save/<title>` stores the form's `body` field. The repository holds two
programs, both `package main`:

- `main.go` checks every path routed to `/view/`, `/edit/` or `/save/`
  against `^/(edit|save|view)/([a-zA-Z0-9]+)$` before a handler runs
  (`makeHandler`), and renders pages through HTML templates; its root
  handler on `/` checks nothing;
- `server_http.go` is an earlier version: its handlers cut `/view/` or
  `/edit/` off the front of the path with no check at all, write their HTML
  with `fmt.Fprintf`, and the view handler panics on a page that does not
  exist.

The model has one Dafny module per component:

| module | file | what it holds |
|---|---|---|
| `Wrappers` | wrappers.dfy | `Option` and `Result` |
| `GoText` | go_text.dfy | Go bytes and strings: `[]byte(s)`, `string(b)`, `strings.HasPrefix` |
| `Http` | http.dfy | `Response`, and class `ResponseWriter` holding the responses written so far |
| `PageStore` | page_store.dfy | `Page`, the directory of page files as a map, class `Disk` with `Save`, and `LoadPage` |
| `Paths` | paths.dfy | main.go's path validator and `getTitle` |
| `Wiki` | wiki.dfy | main.go's handlers and `makeHandler` |
| `ServerHttp` | server_http.dfy | server_http.go's handlers and its greeting handler |
| `Variants` | variants.dfy | the two programs compared on a traversal-shaped path |

Modelling choices:

- A Go `string` is a sequence of bytes. The model writes it as a Dafny
  `string` with one character per byte, so a Go string's characters are all
  below 256 (`GoText.IsByteString`). A `[]byte` is a `seq<bv8>`.
- The working directory is a `map` from file name to contents, held by the
  class `PageStore.Disk`. `Page.save` is the method `Disk.Save`, and
  `PageStore.Saved` is the directory it leaves behind. Whether a write fails
  is the operating system's choice: it is the parameter `fault`, and the
  error text is its message.
- `Page.save` and `loadPage` are the same code in both files
  (main.go:71-83, server_http.go:49-61). Both programs use the one model in
  `PageStore`.
- The parsed templates are a parameter `templates` of type
  `(string, Page) -> Result<bytes, string>`: the rendered bytes or the error
  text. They are parsed once at start-up and passed in.
- A request is its path and its form value `body`.
- The closure of `makeHandler(fn)` is `Wiki.MakeHandler(fn, w, …)`. The
  `ResponseWriter` `w` records every response written. The view and edit
  handlers are the functions giving the one response they write; the save
  handler is a method that writes its own response to `w`.
- The server's router only sends a path to `server_http.go`'s handlers when
  the path starts with the handler's prefix (`/`, `/view/`, `/edit/`). This
  is the `requires` of each of those handlers.
- `server_http.go`'s `viewHandler` dereferences a nil page when the file is
  missing. The model answers `Panic(NilPointerDereference)`: the handler
  writes nothing.
- `http.NotFound` is `http.Error` with status 404 and the text
  "404 page not found".

## Model

| member | source | states |
|---|---|---|
| `GoText.ToBytes` | main.go:141 | `[]byte(body)` keeps the length and every byte of a Go string |
| `GoText.StringRoundTrip` | main.go:141 | a Go string turned into bytes and read back is the same string |
| `PageStore.LoadPage` | main.go:76-83 | loading succeeds exactly when `<title>.txt` exists, and then gives a page with that title and the file's bytes; otherwise it is the file's "no such file" error and no page |
| `PageStore.Saved` | main.go:71-74 | after a save, `<title>.txt` exists and holds exactly the body, whatever it held before, and every other file is unchanged |
| `PageStore.Disk.Save` | main.go:71-74 | `Page.save` reports exactly the write's error; on success the directory becomes `Saved(old, p)`, on failure it is unchanged |
| `PageStore.FileNameInjective` | main.go:72 | two titles with the same file name are the same title |
| `PageStore.LoadAfterSave` | main.go:71-83 | loading a title right after saving a page under it gives back that page |
| `PageStore.SaveKeepsOtherPages` | main.go:71-74 | saving one page changes what no other title loads |
| `PageStore.LastSaveWins` | main.go:73 | of two saves of one title only the second one's body remains |
| `Paths.ValidPath` | main.go:35 | a match is the whole path, a route among edit, save, view, and a non-empty alphanumeric title, with the path equal to "/" + route + "/" + title |
| `Paths.ValidPathAccepts` | main.go:35 | every path "/" + route + "/" + title with an allowed route and an alphanumeric title is accepted and captures exactly that route and title |
| `Paths.AcceptedCharacters` | main.go:35 | in an accepted path every character other than the slashes at indices 0 and 5 is a letter or a digit |
| `Paths.ValidPathRejectsTraversal` | main.go:35 | a path whose title part contains `.` or `/` is refused, whatever the route part |
| `Paths.ValidPathRejectsTrailingNewline` | main.go:35 | nothing, not even a final newline, may follow the title |
| `Paths.GetTitle` | main.go:157-164 | on a refused path it writes 404 and returns "" with the error "Invalid Page Title"; on an accepted path it writes nothing and returns the alphanumeric title that ends the path |
| `Wiki.RenderTemplate` | main.go:109-120 | the response is the output of template `<tmpl>.html` on the page when it renders, and a 500 with the error text when it does not |
| `Wiki.ViewHandler` | main.go:85-97 | a missing page redirects 302 to "/edit/" + title and renders nothing; an existing page renders template "view" with that title and the file's bytes |
| `Wiki.EditHandler` | main.go:101-107 | renders template "edit" with the stored body, or with an empty body when the page does not exist |
| `Wiki.SaveHandler` | main.go:132-150 | a successful write stores the form body under the title and writes one 302 redirect to "/view/" + title; a failed write writes one 500 with the error text and leaves the directory unchanged |
| `Wiki.MakeHandler` | main.go:177-186 | a refused path gets exactly one 404 written and no file touched; an accepted path gets exactly one response written, the one the wrapped handler gives for the captured title, with the store changed only as that handler changes it |
| `Wiki.ViewAfterSave` | main.go:71-97 | after a page is saved, viewing its title renders exactly the saved body |
| `Wiki.TraversalIsNotFound` | main.go:157-162 | a path like `/edit/../../etc/passwd` is refused and answered 404 |
| `Wiki.SaveThenView` | main.go:132-150 | a save request and then a view request for a valid title write exactly two responses: a redirect to the view route, then the view of the saved body |
| `ServerHttp.GreetingEchoesPath` | server_http.go:41-47 | the root handler answers "Hi there, I love " + the path without its leading "/" + "!" |
| `ServerHttp.ViewHandler` | server_http.go:63-70 | the title is everything after "/view/"; a missing page panics on the nil page; an existing page is written as the view HTML with the title and the file's bytes |
| `ServerHttp.EditHandler` | server_http.go:74-86 | the title is everything after "/edit/"; the form is written with the stored body, or with an empty body when the page does not exist |
| `ServerHttp.ViewHtmlText` | server_http.go:69 | the view page reads "<h1>" + title + "</h1><div>" + body + "</div>" |
| `ServerHttp.EditHtmlText` | server_http.go:80-85 | the edit form reads "<h1>Editing " + title + … + "/save/" + title + … + body + … + "</form>", exactly as the format string lays it out |
| `ServerHttp.ViewAfterSave` | server_http.go:49-70 | after a page is saved, viewing "/view/" + title writes its title and exactly the saved body |
| `ServerHttp.EditReadsAnyName` | server_http.go:75-76 | any name after "/edit/", dots and slashes included, is read as `<name>.txt` and its contents are shown |
| `Variants.TraversalOnlyInEarlyVariant` | server_http.go:74-86 | a name with `.` or `/` is refused by main.go's validator but read and shown by server_http.go's edit handler |

`handler` in main.go (main.go:63-69) is the same code as server_http.go:41-47
and is modelled by `ServerHttp.Handler`.

## Left out

- `main` in both files: route registration, logging and `ListenAndServe` on
  port 8080. The router's prefix matching is taken as given (see above).
- The router's path cleaning: `ServeMux` answers a path with `.` or `..`
  segments by a 301 redirect to its cleaned form before any handler runs, so
  a request for `/edit/../../etc/passwd` is redirected to `/etc/passwd`. The
  traversal lemmas state what the handlers do once given such a path.
- The template engine: parsing `edit.html` and `view.html`, executing them,
  HTML escaping, and any output a template writes before it fails.
  `Wiki.RenderTemplate` takes the rendered bytes or the error as given.
- The exact bytes, headers and bodies that `http.Redirect`, `http.Error` and
  `http.NotFound` write: a response records the status, the location or the
  message.
- Real file I/O: the permission bits 0600, read errors other than a missing
  file, and a write that fails after it has truncated or partly written the
  file (a failed write leaves the directory unchanged here).
- How the operating system resolves a file name: names with `.`, `..` or `/`
  that reach the same file are different keys of the map. The model shows
  which name `server_http.go` reads, not where that name leads on disk.
- Form decoding (`r.FormValue`): the request carries the decoded `body`.
- Concurrent requests and the race between two saves of one title; the
  model's saves happen one after the other (`PageStore.LastSaveWins`).
- How the server recovers from a handler's panic (it logs the panic and
  closes the connection).
- `server_http.go` declares `Page.save` but registers no save route (its
  line 25 is commented out); saving is modelled once, in `PageStore`.
- `GoText.ToBytes` maps a character above 255 to its value modulo 256; such
  characters do not occur in a Go string, so the round trip is stated for
  byte strings only.
