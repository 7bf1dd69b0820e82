/** The two tables, the requests that act on them, and the service with no cache: each request
    as one function from tables to tables and a reply. */
module Relational {
  import opened Validation

  type Id = nat

  datatype Author = Author(name: string, email: string, createdAt: nat)
  datatype AuthorOut = AuthorOut(id: Id, name: string, email: string, createdAt: nat)
  datatype Message = Message(title: string, content: string, authorId: Id, createdAt: nat, version: nat)
  datatype MessageOut = MessageOut(
    id: Id, title: string, content: string, createdAt: nat, version: nat, author: AuthorOut)

  datatype Tables = Tables(authors: map<Id, Author>, messages: map<Id, Message>)

  /** The body of PATCH /messages/{id}. */
  datatype Edit = Edit(title: Option<string>, content: string, version: int)

  datatype Request =
    | GetMessage(id: Id)
    | CreateMessage(title: string, content: string, authorId: Id)
    | UpdateMessage(id: Id, edit: Edit)
    | DeleteMessage(id: Id)
    | CreateAuthor(name: string, email: string)
    | UpdateAuthor(id: Id, newName: Option<string>, newEmail: Option<string>)
    | DeleteAuthor(id: Id)

  datatype Payload = Nothing | TheMessage(message: MessageOut) | TheAuthor(author: AuthorOut)

  datatype Reply = Reply(status: int, payload: Payload)

  /** What the database draws for an insert: a fresh id and the current time. */
  datatype Draw = Draw(newId: Id, now: nat)

  datatype Outcome = Outcome(tables: Tables, reply: Reply)

  // ---- field validation of a request body --------------------------------------------------

  function CleanOptional(value: Option<string>, limit: nat): Option<Option<string>> {
    match value
    case None => Some(None)
    case Some(v) =>
      match Clean(v, limit)
      case None => None
      case Some(text) => Some(Some(text))
  }

  function CleanEdit(edit: Edit): Option<Edit> {
    var title := CleanOptional(edit.title, TITLE_MAX);
    var content := Clean(edit.content, CONTENT_MAX);
    if title.Some? && content.Some? && 0 <= edit.version <= MAX_INT4
    then Some(Edit(title.value, content.value, edit.version))
    else None
  }

  function CleanOptionalEmail(value: Option<string>): Option<Option<string>> {
    match value
    case None => Some(None)
    case Some(v) =>
      match CleanEmail(v)
      case None => None
      case Some(text) => Some(Some(text))
  }

  /** The request with its strings trimmed, or nothing where validation answers 400. */
  function CleanRequest(r: Request): Option<Request> {
    match r
    case GetMessage(_) => Some(r)
    case DeleteMessage(_) => Some(r)
    case DeleteAuthor(_) => Some(r)
    case CreateMessage(title, content, authorId) =>
      var t, c := Clean(title, TITLE_MAX), Clean(content, CONTENT_MAX);
      if t.Some? && c.Some? then Some(CreateMessage(t.value, c.value, authorId)) else None
    case UpdateMessage(id, edit) =>
      var e := CleanEdit(edit);
      if e.Some? then Some(UpdateMessage(id, e.value)) else None
    case CreateAuthor(name, email) =>
      var n, e := Clean(name, NAME_MAX), CleanEmail(email);
      if n.Some? && e.Some? then Some(CreateAuthor(n.value, e.value)) else None
    case UpdateAuthor(id, name, email) =>
      var n, e := CleanOptional(name, NAME_MAX), CleanOptionalEmail(email);
      if n.Some? && e.Some? then Some(UpdateAuthor(id, n.value, e.value)) else None
  }

  predicate ValidEdit(edit: Edit) {
    && (edit.title.Some? ==> ValidText(edit.title.value, TITLE_MAX))
    && ValidText(edit.content, CONTENT_MAX)
    && 0 <= edit.version <= MAX_INT4
  }

  predicate ValidAddress(email: string) {
    ValidText(email, EMAIL_MAX) && ValidEmail(email)
  }

  predicate ValidRequest(r: Request) {
    match r
    case CreateMessage(title, content, _) =>
      ValidText(title, TITLE_MAX) && ValidText(content, CONTENT_MAX)
    case UpdateMessage(_, edit) => ValidEdit(edit)
    case CreateAuthor(name, email) => ValidText(name, NAME_MAX) && ValidAddress(email)
    case UpdateAuthor(_, name, email) =>
      && (name.Some? ==> ValidText(name.value, NAME_MAX))
      && (email.Some? ==> ValidAddress(email.value))
    case _ => true
  }

  // ---- what the database refuses -----------------------------------------------------------

  predicate StorableOption(value: Option<string>) {
    value.Some? ==> Storable(value.value)
  }

  predicate StorableEdit(edit: Edit) {
    StorableOption(edit.title) && Storable(edit.content)
  }

  /** Every text of the request can be sent to the database. */
  predicate StorableRequest(r: Request) {
    match r
    case CreateMessage(title, content, _) => Storable(title) && Storable(content)
    case UpdateMessage(_, edit) => StorableEdit(edit)
    case CreateAuthor(name, email) => Storable(name) && Storable(email)
    case UpdateAuthor(_, name, email) => StorableOption(name) && StorableOption(email)
    case _ => true
  }

  lemma CleanFacts(v: string, limit: nat)
    ensures Clean(v, limit).Some? ==> ValidText(Clean(v, limit).value, limit)
    ensures ValidText(v, limit) ==> Clean(v, limit) == Some(v)
  {
    CleanIdempotent(v, limit);
    if ValidText(v, limit) {
      ValidTextIsClean(v, limit);
    }
  }

  lemma CleanOptionalFacts(v: Option<string>, limit: nat)
    ensures CleanOptional(v, limit).Some? ==>
              CleanOptional(v, limit).value.Some? ==> ValidText(CleanOptional(v, limit).value.value, limit)
    ensures (v.Some? ==> ValidText(v.value, limit)) ==> CleanOptional(v, limit) == Some(v)
  {
    if v.Some? {
      CleanFacts(v.value, limit);
    }
  }

  lemma CleanEmailFacts(v: string)
    ensures CleanEmail(v).Some? ==> ValidAddress(CleanEmail(v).value)
    ensures ValidAddress(v) ==> CleanEmail(v) == Some(v)
  {
    CleanFacts(v, EMAIL_MAX);
  }

  /** Validation lets through only valid requests, and a valid request is its own cleaning. */
  lemma CleanRequestIsValid(r: Request)
    ensures CleanRequest(r).Some? ==> ValidRequest(CleanRequest(r).value)
    ensures ValidRequest(r) ==> CleanRequest(r) == Some(r)
  {
    match r
    case CreateMessage(title, content, _) =>
      CleanFacts(title, TITLE_MAX);
      CleanFacts(content, CONTENT_MAX);
    case UpdateMessage(_, edit) =>
      CleanEditFacts(edit);
    case CreateAuthor(name, email) =>
      CleanFacts(name, NAME_MAX);
      CleanEmailFacts(email);
    case UpdateAuthor(_, name, email) =>
      CleanOptionalFacts(name, NAME_MAX);
      CleanOptionalEmailFacts(email);
    case _ =>
  }

  lemma CleanEditFacts(edit: Edit)
    ensures CleanEdit(edit).Some? ==> ValidEdit(CleanEdit(edit).value)
    ensures ValidEdit(edit) ==> CleanEdit(edit) == Some(edit)
  {
    CleanOptionalFacts(edit.title, TITLE_MAX);
    CleanFacts(edit.content, CONTENT_MAX);
  }

  lemma CleanOptionalEmailFacts(v: Option<string>)
    ensures CleanOptionalEmail(v).Some? ==>
              CleanOptionalEmail(v).value.Some? ==> ValidAddress(CleanOptionalEmail(v).value.value)
    ensures (v.Some? ==> ValidAddress(v.value)) ==> CleanOptionalEmail(v) == Some(v)
  {
    if v.Some? {
      CleanEmailFacts(v.value);
    }
  }

  // ---- what the tables hold ----------------------------------------------------------------

  function AuthorView(id: Id, a: Author): AuthorOut {
    AuthorOut(id, a.name, a.email, a.createdAt)
  }

  function MessageView(id: Id, m: Message, a: AuthorOut): MessageOut {
    MessageOut(id, m.title, m.content, m.createdAt, m.version, a)
  }

  predicate ValidAuthor(a: Author) {
    StoredText(a.name, NAME_MAX) && ValidAddress(a.email) && Storable(a.email)
  }

  predicate ValidMessage(m: Message) {
    StoredText(m.title, TITLE_MAX) && StoredText(m.content, CONTENT_MAX) && m.version <= MAX_INT4
  }

  predicate UniqueEmails(authors: map<Id, Author>) {
    forall a, b | a in authors && b in authors && authors[a].email == authors[b].email :: a == b
  }

  predicate AuthorsExist(t: Tables) {
    forall m | m in t.messages :: t.messages[m].authorId in t.authors
  }

  /** Every message has its author, emails are unique, and every text is trimmed, non-blank, within
      its limit and free of U+0000. */
  predicate Sound(t: Tables) {
    && AuthorsExist(t)
    && UniqueEmails(t.authors)
    && (forall a | a in t.authors :: ValidAuthor(t.authors[a]))
    && (forall m | m in t.messages :: ValidMessage(t.messages[m]))
  }

  predicate EmailTaken(authors: map<Id, Author>, email: string) {
    exists a | a in authors :: authors[a].email == email
  }

  predicate Referenced(t: Tables, author: Id) {
    exists m | m in t.messages :: t.messages[m].authorId == author
  }

  /** `_load`: the row joined with its author. The join is an outer one, so a message whose
      author is missing would come back without one and fail response validation. */
  datatype Loaded = NoRow | NoAuthor | Found(message: MessageOut)

  function Load(t: Tables, id: Id): Loaded {
    if id !in t.messages then NoRow
    else
      var m := t.messages[id];
      if m.authorId !in t.authors then NoAuthor
      else Found(MessageView(id, m, AuthorView(m.authorId, t.authors[m.authorId])))
  }

  /** The row after `SET content = ..., version = version + 1 [, title = ...]`. */
  function Edited(m: Message, edit: Edit): Message {
    m.(content := edit.content,
       version := m.version + 1,
       title := if edit.title.Some? then edit.title.value else m.title)
  }

  function Changed(a: Author, name: Option<string>, email: Option<string>): Author {
    a.(name := if name.Some? then name.value else a.name,
       email := if email.Some? then email.value else a.email)
  }

  // ---- the service without a cache ---------------------------------------------------------

  function Refuse(t: Tables, status: int): Outcome {
    Outcome(t, Reply(status, Nothing))
  }

  function ExecGet(t: Tables, id: Id): Outcome {
    match Load(t, id)
    case NoRow => Refuse(t, 404)
    case NoAuthor => Refuse(t, 500)
    case Found(m) => Outcome(t, Reply(200, TheMessage(m)))
  }

  function ExecCreateMessage(t: Tables, title: string, content: string, authorId: Id, d: Draw): Outcome {
    if authorId !in t.authors then Refuse(t, 404)
    else if !Storable(title) || !Storable(content) then Refuse(t, 500)
    else
      var m := Message(title, content, authorId, d.now, 0);
      Outcome(
        t.(messages := t.messages[d.newId := m]),
        Reply(201, TheMessage(MessageView(d.newId, m, AuthorView(authorId, t.authors[authorId])))))
  }

  /** The guarded update: an error for a text that cannot be sent, 404 for no row, 409 for another
      version, and an error when the next version does not fit the integer column. */
  function ExecUpdateMessage(t: Tables, id: Id, edit: Edit): Outcome {
    if !StorableEdit(edit) then Refuse(t, 500)
    else if id !in t.messages then Refuse(t, 404)
    else if t.messages[id].version != edit.version then Refuse(t, 409)
    else if edit.version == MAX_INT4 then Refuse(t, 500)
    else
      var t' := t.(messages := t.messages[id := Edited(t.messages[id], edit)]);
      match Load(t', id)
      case Found(m) => Outcome(t', Reply(200, TheMessage(m)))
      case _ => Refuse(t, 500)
  }

  function ExecDeleteMessage(t: Tables, id: Id): Outcome {
    if id !in t.messages then Refuse(t, 404)
    else Outcome(t.(messages := t.messages - {id}), Reply(204, Nothing))
  }

  function ExecCreateAuthor(t: Tables, name: string, email: string, d: Draw): Outcome {
    if !Storable(name) || !Storable(email) then Refuse(t, 500)
    else if EmailTaken(t.authors, email) then Refuse(t, 409)
    else
      var a := Author(name, email, d.now);
      Outcome(t.(authors := t.authors[d.newId := a]), Reply(201, TheAuthor(AuthorView(d.newId, a))))
  }

  function ExecUpdateAuthor(t: Tables, id: Id, name: Option<string>, email: Option<string>): Outcome {
    if !StorableOption(name) || !StorableOption(email) then Refuse(t, 500)
    else if id !in t.authors then Refuse(t, 404)
    else if email.Some? && EmailTaken(t.authors - {id}, email.value) then Refuse(t, 409)
    else
      var a := Changed(t.authors[id], name, email);
      Outcome(t.(authors := t.authors[id := a]), Reply(200, TheAuthor(AuthorView(id, a))))
  }

  function ExecDeleteAuthor(t: Tables, id: Id): Outcome {
    if id !in t.authors then Refuse(t, 404)
    else if Referenced(t, id) then Refuse(t, 409)
    else Outcome(t.(authors := t.authors - {id}), Reply(204, Nothing))
  }

  /** One validated request against the tables. */
  function Exec(t: Tables, r: Request, d: Draw): Outcome {
    match r
    case GetMessage(id) => ExecGet(t, id)
    case CreateMessage(title, content, authorId) => ExecCreateMessage(t, title, content, authorId, d)
    case UpdateMessage(id, edit) => ExecUpdateMessage(t, id, edit)
    case DeleteMessage(id) => ExecDeleteMessage(t, id)
    case CreateAuthor(name, email) => ExecCreateAuthor(t, name, email, d)
    case UpdateAuthor(id, name, email) => ExecUpdateAuthor(t, id, name, email)
    case DeleteAuthor(id) => ExecDeleteAuthor(t, id)
  }

  /** A request as it arrives: validated first, 400 if it fails. */
  function Serve(t: Tables, r: Request, d: Draw): Outcome {
    match CleanRequest(r)
    case None => Refuse(t, 400)
    case Some(clean) => Exec(t, clean, d)
  }

  /** Two copies of one message that can differ only in the author's name and email. */
  predicate SameMessage(a: MessageOut, b: MessageOut) {
    a == b.(author := b.author.(name := a.author.name, email := a.author.email))
  }

  predicate SameAnswer(a: Reply, b: Reply) {
    || a == b
    || (a.payload.TheMessage? && b.payload.TheMessage? && a.status == b.status
        && SameMessage(a.payload.message, b.payload.message))
  }

  lemma SameIsReflexive(a: Reply)
    ensures SameAnswer(a, a)
  {
  }

  /** A drawn id is not in use in the table it is drawn for. */
  predicate Fresh(t: Tables, r: Request, d: Draw) {
    && (r.CreateAuthor? ==> d.newId !in t.authors)
    && (r.CreateMessage? ==> d.newId !in t.messages)
  }

  predicate Overflows(t: Tables, r: Request) {
    && r.UpdateMessage? && r.id in t.messages
    && t.messages[r.id].version == r.edit.version == MAX_INT4
  }

  /** The database itself fails the request: a text has U+0000, or a version leaves its column. A
      message for an unknown author is refused before its texts are sent. */
  predicate DatabaseFails(t: Tables, r: Request) {
    || (!StorableRequest(r) && (r.CreateMessage? ==> r.authorId in t.authors))
    || Overflows(t, r)
  }

  /** As long as every call does its work, the service keeps the tables sound, changes nothing when
      it refuses, and fails with 500 exactly when the database fails the request. */
  lemma ServeKeepsSound(t: Tables, r: Request, d: Draw)
    requires Sound(t) && Fresh(t, r, d)
    ensures var o := Serve(t, r, d);
            && Sound(o.tables)
            && (o.reply.status >= 400 ==> o.tables == t)
            && (o.reply.status == 500 <==>
                CleanRequest(r).Some? && DatabaseFails(t, CleanRequest(r).value))
  {
    hide Exec, Sound, DatabaseFails;
    CleanRequestIsValid(r);
    if CleanRequest(r).Some? {
      ExecKeepsSound(t, CleanRequest(r).value, d);
    }
  }

  /** A content that passes validation and that the database does not take: the client is answered
      500, for a new message of a known author as for an edit of any message. */
  lemma NulIsRefused(t: Tables, authorId: Id, id: Id, version: nat, d: Draw)
    requires authorId in t.authors && version <= MAX_INT4
    ensures Clean("a\0b", CONTENT_MAX) == Some("a\0b")
    ensures Serve(t, CreateMessage("title", "a\0b", authorId), d) == Refuse(t, 500)
    ensures Serve(t, UpdateMessage(id, Edit(None, "a\0b", version)), d) == Refuse(t, 500)
  {
    assert ValidText("a\0b", CONTENT_MAX) && ValidText("title", TITLE_MAX);
    assert "a\0b"[1] == '\0';
    CleanFacts("a\0b", CONTENT_MAX);
    CleanFacts("title", TITLE_MAX);
  }

  lemma ExecKeepsSound(t: Tables, r: Request, d: Draw)
    requires Sound(t) && Fresh(t, r, d) && ValidRequest(r)
    ensures var o := Exec(t, r, d);
            && Sound(o.tables)
            && (o.reply.status >= 400 ==> o.tables == t)
            && (o.reply.status == 500 <==> DatabaseFails(t, r))
  {
    match r
    case UpdateMessage(id, edit) => UpdateMessageKeepsSound(t, id, edit);
    case CreateMessage(title, content, authorId) => CreateMessageKeepsSound(t, title, content, authorId, d);
    case UpdateAuthor(id, name, email) => UpdateAuthorKeepsSound(t, id, name, email);
    case CreateAuthor(name, email) => CreateAuthorKeepsSound(t, name, email, d);
    case _ =>
  }

  lemma UpdateMessageKeepsSound(t: Tables, id: Id, edit: Edit)
    requires Sound(t) && ValidEdit(edit)
    ensures var o := ExecUpdateMessage(t, id, edit);
            && Sound(o.tables)
            && (o.reply.status >= 400 ==> o.tables == t)
            && (o.reply.status == 500 <==> DatabaseFails(t, UpdateMessage(id, edit)))
  {
    hide ValidText;
    if id in t.messages && StorableEdit(edit) {
      var m := t.messages[id];
      assert ValidMessage(m) && m.authorId in t.authors;
      assert m.version == edit.version < MAX_INT4 ==> ValidMessage(Edited(m, edit));
    }
  }

  lemma CreateMessageKeepsSound(t: Tables, title: string, content: string, authorId: Id, d: Draw)
    requires Sound(t) && ValidText(title, TITLE_MAX) && ValidText(content, CONTENT_MAX)
    ensures var o := ExecCreateMessage(t, title, content, authorId, d);
            && Sound(o.tables)
            && (o.reply.status >= 400 ==> o.tables == t)
            && (o.reply.status == 500 <==> DatabaseFails(t, CreateMessage(title, content, authorId)))
  {
    hide ValidText, ValidAuthor, UniqueEmails;
  }

  lemma CreateAuthorKeepsSound(t: Tables, name: string, email: string, d: Draw)
    requires Sound(t) && d.newId !in t.authors && ValidText(name, NAME_MAX) && ValidAddress(email)
    ensures var o := ExecCreateAuthor(t, name, email, d);
            && Sound(o.tables)
            && (o.reply.status >= 400 ==> o.tables == t)
            && (o.reply.status == 500 <==> DatabaseFails(t, CreateAuthor(name, email)))
  {
    hide ValidText, ValidEmail, ValidMessage;
    if Storable(name) && Storable(email) {
      var o := ExecCreateAuthor(t, name, email, d);
      assert ValidAuthor(Author(name, email, d.now));
      assert UniqueEmails(o.tables.authors);
    }
  }

  lemma UpdateAuthorKeepsSound(t: Tables, id: Id, name: Option<string>, email: Option<string>)
    requires Sound(t) && ValidRequest(UpdateAuthor(id, name, email))
    ensures var o := ExecUpdateAuthor(t, id, name, email);
            && Sound(o.tables)
            && (o.reply.status >= 400 ==> o.tables == t)
            && (o.reply.status == 500 <==> DatabaseFails(t, UpdateAuthor(id, name, email)))
  {
    hide ValidText, ValidEmail, ValidMessage;
    if id in t.authors && !(email.Some? && EmailTaken(t.authors - {id}, email.value))
      && StorableOption(name) && StorableOption(email) {
      var a := Changed(t.authors[id], name, email);
      assert ValidAuthor(t.authors[id]) && ValidAuthor(a);
      forall b | b in t.authors && b != id
        ensures t.authors[b].email != a.email
      {
        assert b in t.authors - {id};
      }
    }
  }
}
