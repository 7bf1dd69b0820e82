/** What each endpoint does, field by field: the status, every field of the row it leaves and of the
    body it answers, and that nothing else changes. */
module Endpoints {
  import opened Validation
  import opened Relational

  // ---- bodies, rows and what stays ---------------------------------------------------------

  /** The body shows the row under this id, and its author, field for field. */
  predicate Shows(body: MessageOut, id: Id, row: Message, author: Author) {
    && body.id == id && body.title == row.title && body.content == row.content
    && body.createdAt == row.createdAt && body.version == row.version
    && ShowsAuthor(body.author, row.authorId, author)
  }

  predicate ShowsAuthor(body: AuthorOut, id: Id, author: Author) {
    && body.id == id && body.name == author.name && body.email == author.email
    && body.createdAt == author.createdAt
  }

  /** Answered with the status and no body of an entity, and the tables stay as they were. */
  predicate Refused(t: Tables, o: Outcome, status: int) {
    o.tables == t && o.reply.status == status && o.reply.payload.Nothing?
  }

  /** Apart from one message the tables stay. */
  ghost predicate OthersStay(t: Tables, t': Tables, id: Id) {
    && t'.authors == t.authors
    && forall m | m != id :: (m in t'.messages <==> m in t.messages)
                             && (m in t.messages ==> t'.messages[m] == t.messages[m])
  }

  /** Apart from one author the tables stay. */
  ghost predicate OtherAuthorsStay(t: Tables, t': Tables, id: Id) {
    && t'.messages == t.messages
    && forall a | a != id :: (a in t'.authors <==> a in t.authors)
                             && (a in t.authors ==> t'.authors[a] == t.authors[a])
  }

  predicate HasNul(text: string) {
    exists k | 0 <= k < |text| :: text[k] as int == 0
  }

  lemma NulExactly(text: string)
    ensures Storable(text) <==> !HasNul(text)
  {
    if HasNul(text) {
      var k :| 0 <= k < |text| && text[k] as int == 0;
      assert text[k] == '\0';
    }
    if !Storable(text) {
      var k :| 0 <= k < |text| && text[k] == '\0';
      assert text[k] as int == 0;
    }
  }

  // ---- messages ----------------------------------------------------------------------------

  /** GET /messages/{id} */
  lemma Get(t: Tables, id: Id, d: Draw)
    requires AuthorsExist(t)
    ensures var o := Serve(t, GetMessage(id), d);
            if id in t.messages then
              && o.tables == t && o.reply.status == 200 && o.reply.payload.TheMessage?
              && Shows(o.reply.payload.message, id, t.messages[id], t.authors[t.messages[id].authorId])
            else Refused(t, o, 404)
  {
  }

  /** POST /messages */
  lemma Post(t: Tables, title: string, content: string, author: Id, d: Draw)
    requires d.newId !in t.messages
    ensures var o, cleanTitle, cleanContent :=
              Serve(t, CreateMessage(title, content, author), d), Clean(title, 100), Clean(content, 1000);
            if cleanTitle.None? || cleanContent.None? then Refused(t, o, 400)
            else if author !in t.authors then Refused(t, o, 404)
            else if HasNul(cleanTitle.value) || HasNul(cleanContent.value) then Refused(t, o, 500)
            else
              && OthersStay(t, o.tables, d.newId) && d.newId in o.tables.messages
              && var row := o.tables.messages[d.newId];
                 && row.title == cleanTitle.value && row.content == cleanContent.value
                 && row.authorId == author && row.createdAt == d.now && row.version == 0
                 && o.reply.status == 201 && o.reply.payload.TheMessage?
                 && Shows(o.reply.payload.message, d.newId, row, t.authors[author])
  {
    hide Clean, Storable;
    var cleanTitle, cleanContent := Clean(title, 100), Clean(content, 1000);
    if cleanTitle.Some? && cleanContent.Some? {
      NulExactly(cleanTitle.value);
      NulExactly(cleanContent.value);
    }
    hide HasNul;
  }

  /** An optional text as it is cleaned: absent, fit, or refused. */
  predicate Fits(text: Option<string>, limit: nat) {
    text.Some? ==> Clean(text.value, limit).Some?
  }

  /** PATCH /messages/{id} */
  lemma Patch(t: Tables, id: Id, title: Option<string>, content: string, version: int, d: Draw)
    requires AuthorsExist(t)
    ensures var o, cleanContent := Serve(t, UpdateMessage(id, Edit(title, content, version)), d), Clean(content, 1000);
            if cleanContent.None? || !Fits(title, 100) || version < 0 || version > 2_147_483_647 then Refused(t, o, 400)
            else if HasNul(cleanContent.value) || (title.Some? && HasNul(Clean(title.value, 100).value)) then
              Refused(t, o, 500)
            else if id !in t.messages then Refused(t, o, 404)
            else if t.messages[id].version != version then Refused(t, o, 409)
            else if version == 2_147_483_647 then Refused(t, o, 500)
            else
              && OthersStay(t, o.tables, id) && id in o.tables.messages
              && var before, row := t.messages[id], o.tables.messages[id];
                 && row.title == (if title.Some? then Clean(title.value, 100).value else before.title)
                 && row.content == cleanContent.value && row.version == version + 1
                 && row.authorId == before.authorId && row.createdAt == before.createdAt
                 && o.reply.status == 200 && o.reply.payload.TheMessage?
                 && Shows(o.reply.payload.message, id, row, t.authors[row.authorId])
  {
    hide Clean, Storable;
    if title.Some? && Clean(title.value, 100).Some? { NulExactly(Clean(title.value, 100).value); }
    if Clean(content, 1000).Some? { NulExactly(Clean(content, 1000).value); }
    hide HasNul;
  }

  /** DELETE /messages/{id} */
  lemma Delete(t: Tables, id: Id, d: Draw)
    ensures var o := Serve(t, DeleteMessage(id), d);
            if id in t.messages then
              && OthersStay(t, o.tables, id) && id !in o.tables.messages
              && o.reply.status == 204 && o.reply.payload.Nothing?
            else Refused(t, o, 404)
  {
  }

  // ---- authors -----------------------------------------------------------------------------

  /** An author other than this one has the email. */
  predicate OtherHas(t: Tables, id: Id, email: string) {
    exists a | a in t.authors :: a != id && t.authors[a].email == email
  }

  lemma TakenByOther(t: Tables, id: Id, email: string)
    ensures EmailTaken(t.authors - {id}, email) <==> OtherHas(t, id, email)
  {
    if OtherHas(t, id, email) {
      var a :| a in t.authors && a != id && t.authors[a].email == email;
      assert a in t.authors - {id};
    }
  }

  /** POST /authors */
  lemma PostAuthor(t: Tables, name: string, email: string, d: Draw)
    requires d.newId !in t.authors
    ensures var o, cleanName, cleanEmail := Serve(t, CreateAuthor(name, email), d), Clean(name, 50), CleanEmail(email);
            if cleanName.None? || cleanEmail.None? then Refused(t, o, 400)
            else if HasNul(cleanName.value) || HasNul(cleanEmail.value) then Refused(t, o, 500)
            else if OtherHas(t, d.newId, cleanEmail.value) then Refused(t, o, 409)
            else
              && OtherAuthorsStay(t, o.tables, d.newId) && d.newId in o.tables.authors
              && var row := o.tables.authors[d.newId];
                 && row.name == cleanName.value && row.email == cleanEmail.value && row.createdAt == d.now
                 && o.reply.status == 201 && o.reply.payload.TheAuthor?
                 && ShowsAuthor(o.reply.payload.author, d.newId, row)
  {
    hide Clean, CleanEmail, Storable;
    var cleanName, cleanEmail := Clean(name, 50), CleanEmail(email);
    if cleanName.Some? && cleanEmail.Some? {
      NulExactly(cleanName.value);
      NulExactly(cleanEmail.value);
    }
    hide HasNul;
  }

  /** PATCH /authors/{id}; a change of nothing is a look-up. */
  lemma PatchAuthor(t: Tables, id: Id, name: Option<string>, email: Option<string>, d: Draw)
    ensures var o := Serve(t, UpdateAuthor(id, name, email), d);
            if !Fits(name, 50) || (email.Some? && CleanEmail(email.value).None?) then Refused(t, o, 400)
            else if (name.Some? && HasNul(Clean(name.value, 50).value))
                    || (email.Some? && HasNul(CleanEmail(email.value).value)) then Refused(t, o, 500)
            else if id !in t.authors then Refused(t, o, 404)
            else if email.Some? && OtherHas(t, id, CleanEmail(email.value).value) then Refused(t, o, 409)
            else
              && OtherAuthorsStay(t, o.tables, id) && id in o.tables.authors
              && var before, row := t.authors[id], o.tables.authors[id];
                 && row.name == (if name.Some? then Clean(name.value, 50).value else before.name)
                 && row.email == (if email.Some? then CleanEmail(email.value).value else before.email)
                 && row.createdAt == before.createdAt
                 && o.reply.status == 200 && o.reply.payload.TheAuthor?
                 && ShowsAuthor(o.reply.payload.author, id, row)
  {
    hide Clean, CleanEmail, Storable;
    if name.Some? && Clean(name.value, 50).Some? { NulExactly(Clean(name.value, 50).value); }
    if email.Some? && CleanEmail(email.value).Some? {
      NulExactly(CleanEmail(email.value).value);
      TakenByOther(t, id, CleanEmail(email.value).value);
    }
    hide HasNul, EmailTaken, OtherHas;
  }

  /** DELETE /authors/{id} */
  lemma RemoveAuthor(t: Tables, id: Id, d: Draw)
    ensures var o := Serve(t, DeleteAuthor(id), d);
            if id !in t.authors then Refused(t, o, 404)
            else if exists m | m in t.messages :: t.messages[m].authorId == id then Refused(t, o, 409)
            else
              && OtherAuthorsStay(t, o.tables, id) && id !in o.tables.authors
              && o.reply.status == 204 && o.reply.payload.Nothing?
  {
  }
}
