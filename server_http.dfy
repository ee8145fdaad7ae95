/** The earlier variant of the wiki (server_http.go): the handlers take the
    title by cutting a fixed prefix off the path, with no check of what is
    left, and write their HTML with `fmt.Fprintf`. The server routes a path to
    a handler only when the path starts with the handler's prefix, which is
    what the `requires` clauses say. */
module ServerHttp {
  import opened GoText
  import opened Http
  import opened PageStore

  const ViewPrefix := "/view/"
  const EditPrefix := "/edit/"

  /** The pieces of viewHandler's format string `"<h1>%s</h1><div>%s</div>"`. */
  const ViewHead := "<h1>"
  const ViewMiddle := "</h1><div>"
  const ViewTail := "</div>"

  /** The pieces of editHandler's format string, around its three `%s`. */
  const EditHead := "<h1>Editing "
  const EditAction := "</h1><form action=\"/save/"
  const EditTextarea := "\" method=\"POST\"><textarea name=\"body\">"
  const EditTail := "</textarea><br>" + EditSubmit + "</form>"
  const EditSubmit := "<input type=\"submit\" value=\"Save\">"

  /** What `fmt.Fprintf` writes for the view page: the format's text with the
      title's bytes and the body's bytes in place of the verbs. */
  function ViewHtml(title: string, body: seq<byte>): seq<byte> {
    ToBytes(ViewHead) + ToBytes(title) + ToBytes(ViewMiddle) + body + ToBytes(ViewTail)
  }

  /** What `fmt.Fprintf` writes for the edit form: the title twice, then the
      body. */
  function EditHtml(title: string, body: seq<byte>): seq<byte> {
    ToBytes(EditHead) + ToBytes(title) + ToBytes(EditAction) + ToBytes(title)
    + ToBytes(EditTextarea) + body + ToBytes(EditTail)
  }

  /** `handler`: greet with the path minus its first character, the `/`. */
  function Handler(path: string): Response
    requires HasPrefix(path, "/")
  {
    Written(ToBytes("Hi there, I love ") + ToBytes(path[1..]) + ToBytes("!"))
  }

  /** `viewHandler`: the title is whatever follows `/view/`. The load error
      is ignored, so a missing page leaves a nil page whose `Title` the
      handler reads: it panics. */
  function ViewHandler(files: Files, path: string): (r: Response)
    requires HasPrefix(path, ViewPrefix)
    ensures var title := path[|ViewPrefix|..];
      FileName(title) !in files ==> r == Panic(NilPointerDereference)
    ensures var title := path[|ViewPrefix|..];
      FileName(title) in files ==> r == Written(ViewHtml(title, files[FileName(title)]))
  {
    var title := path[|ViewPrefix|..];
    match LoadPage(files, title)
    case Failure(_) => Panic(NilPointerDereference)
    case Success(p) => Written(ViewHtml(p.title, p.body))
  }

  /** `editHandler`: the title is whatever follows `/edit/`; a missing page
      is edited as a page with that title and an empty body. */
  function EditHandler(files: Files, path: string): (r: Response)
    requires HasPrefix(path, EditPrefix)
    ensures var title := path[|EditPrefix|..];
      FileName(title) !in files ==> r == Written(EditHtml(title, []))
    ensures var title := path[|EditPrefix|..];
      FileName(title) in files ==> r == Written(EditHtml(title, files[FileName(title)]))
  {
    var title := path[|EditPrefix|..];
    var p := match LoadPage(files, title)
      case Failure(_) => Page(title, [])
      case Success(p) => p;
    Written(EditHtml(p.title, p.body))
  }

  /** The greeting names exactly what follows the leading slash. */
  lemma GreetingEchoesPath(rest: string)
    requires IsByteString(rest)
    ensures Handler("/" + rest).Written?
    ensures FromBytes(Handler("/" + rest).content) == "Hi there, I love " + rest + "!"
  {
  }

  /** The format strings hold only single-byte characters. */
  lemma FormatIsText()
    ensures IsByteString(ViewHead) && IsByteString(ViewMiddle) && IsByteString(ViewTail)
    ensures IsByteString(EditHead) && IsByteString(EditAction) && IsByteString(EditTextarea)
    ensures IsByteString(EditTail)
  {
    ActionIsText();
    TextareaIsText();
    SubmitIsText();
  }

  // One literal per lemma keeps each of these checks small.
  lemma ActionIsText() ensures IsByteString(EditAction) {}
  lemma TextareaIsText() ensures IsByteString(EditTextarea) {}
  lemma SubmitIsText() ensures IsByteString(EditSubmit) {}

  /** The view page reads as the format string filled in with the title and
      the body. */
  lemma ViewHtmlText(title: string, body: string)
    requires IsByteString(title) && IsByteString(body)
    ensures FromBytes(ViewHtml(title, ToBytes(body))) == ViewHead + title + ViewMiddle + body + ViewTail
  {
  }

  /** The edit form reads as the format string filled in with the title,
      the title again, and the body. */
  lemma EditHtmlText(title: string, body: string)
    requires IsByteString(title) && IsByteString(body)
    ensures FromBytes(EditHtml(title, ToBytes(body)))
         == EditHead + title + EditAction + title + EditTextarea + body + EditTail
  {
    var t, b := ToBytes(title), ToBytes(body);
    var h, a, x, z := ToBytes(EditHead), ToBytes(EditAction), ToBytes(EditTextarea), ToBytes(EditTail);
    FromBytesAppend(h + t + a + t + x + b, z);
    FromBytesAppend(h + t + a + t + x, b);
    FromBytesAppend(h + t + a + t, x);
    FromBytesAppend(h + t + a, t);
    FromBytesAppend(h + t, a);
    FromBytesAppend(h, t);
    FormatIsText();
    StringRoundTrip(EditHead);
    StringRoundTrip(title);
    StringRoundTrip(EditAction);
    StringRoundTrip(EditTextarea);
    StringRoundTrip(body);
    StringRoundTrip(EditTail);
  }

  /** Saving a page and then viewing it shows its title and exactly the
      saved body. */
  lemma ViewAfterSave(files: Files, title: string, body: seq<byte>)
    ensures ViewHandler(Saved(files, Page(title, body)), ViewPrefix + title)
         == Written(ViewHtml(title, body))
  {
  }

  /** The title is not checked: whatever follows `/edit/`, dots and slashes
      included, becomes part of the file name that is read. */
  lemma EditReadsAnyName(files: Files, name: string)
    requires FileName(name) in files
    ensures EditHandler(files, EditPrefix + name) == Written(EditHtml(name, files[FileName(name)]))
  {
  }
}
