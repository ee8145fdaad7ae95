/** The path validator of main.go: the pattern
    `^/(edit|save|view)/([a-zA-Z0-9]+)$` (main.go:35), written as a direct
    check on the string, and `getTitle` (main.go:157-164), which uses it. */
module Paths {
  import opened Wrappers
  import opened Http

  /** The alternatives of the first group. */
  const Routes: set<string> := {"edit", "save", "view"}

  /** The character class `[a-zA-Z0-9]`. */
  predicate IsTitleChar(c: char) {
    'a' <= c <= 'z' || 'A' <= c <= 'Z' || '0' <= c <= '9'
  }

  /** `[a-zA-Z0-9]+`: a non-empty run of title characters. */
  predicate IsTitle(s: string) {
    |s| > 0 && forall i :: 0 <= i < |s| ==> IsTitleChar(s[i])
  }

  /** What `FindStringSubmatch` returns on a match: `m[0]`, `m[1]`, `m[2]`. */
  datatype Submatch = Submatch(whole: string, route: string, title: string)

  /** `validPath.FindStringSubmatch(path)`; `None` stands for the nil result.
      Both anchors hold for the whole text (Go's `$` does not match before a
      final newline), and every route name is four characters long, so the
      slashes sit at indices 0 and 5. */
  function ValidPath(path: string): (m: Option<Submatch>)
    ensures m.Some? ==> m.value.whole == path
    ensures m.Some? ==> m.value.route in Routes && IsTitle(m.value.title)
    ensures m.Some? ==> path == "/" + m.value.route + "/" + m.value.title
  {
    if |path| >= 6 && path[0] == '/' && path[1..5] in Routes && path[5] == '/' && IsTitle(path[6..])
    then
      assert path == "/" + path[1..5] + "/" + path[6..];
      Some(Submatch(path, path[1..5], path[6..]))
    else None
  }

  /** Every path of the allowed shape is accepted, and the captured title is
      exactly the title it was built from. */
  lemma ValidPathAccepts(route: string, title: string)
    requires route in Routes && IsTitle(title)
    ensures ValidPath("/" + route + "/" + title) == Some(Submatch("/" + route + "/" + title, route, title))
  {
    var path := "/" + route + "/" + title;
    assert |route| == 4;
    assert path[1..5] == route;
    assert path[6..] == title;
  }

  /** A title with a dot or a slash in it never reaches a handler: this is
      what keeps `../x` out of the file names. */
  lemma ValidPathRejectsTraversal(route: string, name: string)
    requires '.' in name || '/' in name
    ensures ValidPath("/" + route + "/" + name) == None
  {
    var path := "/" + route + "/" + name;
    var k :| 0 <= k < |name| && (name[k] == '.' || name[k] == '/');
    assert path[|route| + 2 + k] == name[k];
    assert path[|route| + 1] == '/';
    AcceptedCharacters(path);
  }

  /** In an accepted path every character but the two slashes at indices 0
      and 5 is a title character. */
  lemma AcceptedCharacters(path: string)
    ensures ValidPath(path).Some? ==>
      forall j :: 0 <= j < |path| && j != 0 && j != 5 ==> IsTitleChar(path[j])
  {
  }

  /** Nothing may follow the title: a final newline is refused. */
  lemma ValidPathRejectsTrailingNewline(path: string)
    ensures ValidPath(path + "\n") == None
  {
    var p := path + "\n";
    if |p| > 6 {
      var t := p[6..];
      assert t[|t| - 1] == '\n';
    }
  }

  /** What `getTitle` returns, and what it wrote to the response. */
  datatype TitleLookup = TitleLookup(title: string, err: Option<string>, written: Option<Response>)

  /** `getTitle(w, r)`: the title `m[2]` and no error, or a 404 written and
      the empty title with the error "Invalid Page Title". */
  function GetTitle(path: string): (r: TitleLookup)
    ensures r.err.Some? <==> ValidPath(path).None?
    ensures r.err.Some? ==> r == TitleLookup("", Some("Invalid Page Title"), Some(NotFound))
    ensures r.err.None? ==> r.written.None? && IsTitle(r.title)
    ensures r.err.None? ==> exists route :: route in Routes && path == "/" + route + "/" + r.title
  {
    match ValidPath(path)
    case None => TitleLookup("", Some("Invalid Page Title"), Some(NotFound))
    case Some(m) => TitleLookup(m.title, None, None)
  }
}
