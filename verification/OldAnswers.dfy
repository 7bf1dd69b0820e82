/** Exactly which answers of the cached service differ from those of the service without a cache:
    the reads of a copy that was put in the cache before its author got another name or email. */
module OldAnswers {
  import opened Validation
  import opened Relational
  import opened Service

  // ---- a run, request by request -----------------------------------------------------------

  /** The tables when the i-th request comes. */
  function TablesAt(t: Tables, rs: seq<Arrival>, i: nat): Tables
    requires i <= |rs|
  {
    if i == 0 then t else PlainRun(t, rs)[i - 1].tables
  }

  function EntriesAt(t: Tables, entries: Entries, rs: seq<Arrival>, i: nat): Entries
    requires i <= |rs|
  {
    if i == 0 then entries else CachedRun(t, entries, rs)[i - 1].entries
  }

  lemma {:induction false} PlainStep(t: Tables, rs: seq<Arrival>, i: nat)
    requires i < |rs|
    ensures PlainRun(t, rs)[i] == Serve(TablesAt(t, rs, i), rs[i].request, rs[i].draw)
    decreases i
  {
    hide Serve;
    if i > 0 {
      PlainStep(Serve(t, rs[0].request, rs[0].draw).tables, rs[1..], i - 1);
    }
  }

  lemma {:induction false} CachedStep(t: Tables, entries: Entries, rs: seq<Arrival>, i: nat)
    requires i < |rs|
    ensures var run := CachedRun(t, entries, rs);
            run[i] == CachedServe(if i == 0 then t else run[i - 1].tables, EntriesAt(t, entries, rs, i),
                                  rs[i].request, rs[i].draw)
    decreases i
  {
    hide CachedServe;
    if i > 0 {
      var first := CachedServe(t, entries, rs[0].request, rs[0].draw);
      CachedStep(first.tables, first.entries, rs[1..], i - 1);
    }
  }

  lemma {:induction false} FreshAt(t: Tables, rs: seq<Arrival>, i: nat)
    requires FreshRun(t, rs) && i < |rs|
    ensures Fresh(TablesAt(t, rs, i), rs[i].request, rs[i].draw)
    decreases i
  {
    hide Serve, Fresh;
    if i > 0 {
      FreshAt(Serve(t, rs[0].request, rs[0].draw).tables, rs[1..], i - 1);
    }
  }

  /** Where the i-th request finds the two services. */
  lemma RunAt(t: Tables, entries: Entries, rs: seq<Arrival>, i: nat)
    requires Sound(t) && Coherent(t, entries) && FreshRun(t, rs) && i < |rs|
    ensures var t', e, r, d := TablesAt(t, rs, i), EntriesAt(t, entries, rs, i), rs[i].request, rs[i].draw;
            && Sound(t') && Coherent(t', e) && Fresh(t', r, d)
            && PlainRun(t, rs)[i] == Serve(t', r, d)
            && CachedRun(t, entries, rs)[i] == CachedServe(t', e, r, d)
  {
    hide Sound, Coherent, Serve, CachedServe, Fresh, FreshRun, SameAnswer, PlainRun, CachedRun;
    CachedRefinesPlain(t, entries, rs);
    PlainStep(t, rs, i);
    CachedStep(t, entries, rs, i);
    FreshAt(t, rs, i);
  }

  // ---- where a copy comes from -------------------------------------------------------------

  /** A read that finds the row. */
  predicate Reads(t: Tables, rs: seq<Arrival>, j: nat, m: Id)
    requires j < |rs|
  {
    rs[j].request == Request.GetMessage(m) && Load(TablesAt(t, rs, j), m).Found?
  }

  /** A PATCH or DELETE that gets as far as the eviction. */
  predicate Evicts(t: Tables, rs: seq<Arrival>, k: nat, m: Id)
    requires k < |rs|
  {
    var r := rs[k].request;
    (r.UpdateMessage? || r.DeleteMessage?) && r.id == m && PlainRun(t, rs)[k].reply.status !in {400, 500}
  }

  predicate Kept(t: Tables, rs: seq<Arrival>, j: nat, i: nat, m: Id)
    requires i <= |rs|
  {
    forall k | j <= k < i :: !Evicts(t, rs, k, m)
  }

  /** The copy that the cache was started with is still there before the i-th request. */
  predicate Original(t: Tables, entries: Entries, rs: seq<Arrival>, i: nat, m: Id)
    requires i <= |rs|
  {
    m in entries && Kept(t, rs, 0, i, m)
  }

  /** The j-th request was the first to read the message since it was last evicted, and it has not
      been evicted from then to before the i-th. */
  predicate FirstRead(t: Tables, entries: Entries, rs: seq<Arrival>, j: nat, i: nat, m: Id)
    requires i <= |rs|
  {
    && j < i && Reads(t, rs, j, m) && Kept(t, rs, j, i, m)
    && !Original(t, entries, rs, j, m)
    && forall l | 0 <= l < j && Reads(t, rs, l, m) :: !Kept(t, rs, l, j, m)
  }

  /** What one request does to the entry of a message. */
  lemma EntryStep(t: Tables, entries: Entries, r: Request, d: Draw, m: Id)
    ensures var e' := CachedServe(t, entries, r, d).entries;
            if (r.UpdateMessage? || r.DeleteMessage?) && r.id == m && Serve(t, r, d).reply.status !in {400, 500}
            then m !in e'
            else if m in entries then m in e' && e'[m] == entries[m]
            else if r == Request.GetMessage(m) && Load(t, m).Found? then m in e' && e'[m] == Load(t, m).message
            else m !in e'
  {
    hide CleanEdit, StorableEdit, Load;
    if CleanRequest(r).Some? { CleanKeepsTarget(r); }
    hide CleanRequest;
  }

  lemma CleanKeepsTarget(r: Request)
    requires CleanRequest(r).Some?
    ensures var c := CleanRequest(r).value;
            && c.GetMessage? == r.GetMessage? && c.UpdateMessage? == r.UpdateMessage?
            && c.DeleteMessage? == r.DeleteMessage? && c.UpdateAuthor? == r.UpdateAuthor?
            && (r.GetMessage? || r.UpdateMessage? || r.DeleteMessage? ==> c.id == r.id)
  {
    hide CleanEdit, Clean, CleanOptionalEmail, CleanOptional;
  }

  /** A message that was read, and not evicted since, has a first such read, or its copy is the one
      of the start. */
  lemma {:induction false} FirstOf(t: Tables, entries: Entries, rs: seq<Arrival>, l: nat, i: nat, m: Id)
    requires l < i <= |rs| && Reads(t, rs, l, m) && Kept(t, rs, l, i, m)
    ensures Original(t, entries, rs, i, m) || exists j :: FirstRead(t, entries, rs, j, i, m)
    decreases l
  {
    hide Evicts, Reads;
    if k: nat :| k < l && Reads(t, rs, k, m) && Kept(t, rs, k, l, m) {
      FirstOf(t, entries, rs, k, i, m);
    } else if !Original(t, entries, rs, l, m) {
      assert FirstRead(t, entries, rs, l, i, m);
    }
  }

  /** How one request moves the two. */
  lemma OriginMoves(t: Tables, entries: Entries, rs: seq<Arrival>, i: nat, m: Id, j: nat)
    requires i < |rs|
    ensures Evicts(t, rs, i, m) ==>
              !Original(t, entries, rs, i + 1, m) && !FirstRead(t, entries, rs, j, i + 1, m)
    ensures !Evicts(t, rs, i, m) ==>
              && (Original(t, entries, rs, i + 1, m) <==> Original(t, entries, rs, i, m))
              && (j != i ==> (FirstRead(t, entries, rs, j, i + 1, m) <==> FirstRead(t, entries, rs, j, i, m)))
  {
    hide PlainRun, Reads;
    if FirstRead(t, entries, rs, j, i + 1, m) && j == i {
      ReadsKeep(t, rs, i, m);
    }
  }

  lemma ReadsKeep(t: Tables, rs: seq<Arrival>, i: nat, m: Id)
    requires i < |rs| && Reads(t, rs, i, m)
    ensures !Evicts(t, rs, i, m)
  {
    hide PlainRun;
  }

  /** A read fills the cache iff there is no earlier copy. */
  lemma Fills(t: Tables, entries: Entries, rs: seq<Arrival>, i: nat, m: Id)
    requires i < |rs| && Reads(t, rs, i, m)
    ensures FirstRead(t, entries, rs, i, i + 1, m) <==>
            !Original(t, entries, rs, i, m) && !exists j :: FirstRead(t, entries, rs, j, i, m)
  {
    ReadsKeep(t, rs, i, m);
    hide Evicts, Reads;
    if l: nat :| l < i && Reads(t, rs, l, m) && Kept(t, rs, l, i, m) {
      FirstOf(t, entries, rs, l, i, m);
    }
  }

  /** The entries, told from the requests alone: a message has one iff it had one from the start or
      there was a first read of it since, and the copy is the one of then. */
  lemma {:induction false} Origin(t: Tables, entries: Entries, rs: seq<Arrival>, i: nat, m: Id)
    requires Sound(t) && Coherent(t, entries) && FreshRun(t, rs) && i <= |rs|
    ensures CopyIs(t, entries, rs, i, m)
  {
    hide Sound, Coherent, FreshRun, CopyIs;
    if i > 0 {
      Origin(t, entries, rs, i - 1, m);
      OriginStep(t, entries, rs, i - 1, m);
    } else {
      StartCopies(t, entries, rs, m);
    }
  }

  ghost predicate CopyIs(t: Tables, entries: Entries, rs: seq<Arrival>, i: nat, m: Id)
    requires i <= |rs|
  {
    var e := EntriesAt(t, entries, rs, i);
    && (m in e <==> Original(t, entries, rs, i, m) || exists j :: FirstRead(t, entries, rs, j, i, m))
    && (Original(t, entries, rs, i, m) ==> e[m] == entries[m])
    && (forall j | FirstRead(t, entries, rs, j, i, m) :: e[m] == Load(TablesAt(t, rs, j), m).message)
  }

  lemma StartCopies(t: Tables, entries: Entries, rs: seq<Arrival>, m: Id)
    ensures CopyIs(t, entries, rs, 0, m)
  {
    hide Evicts, Reads;
  }

  lemma OriginStep(t: Tables, entries: Entries, rs: seq<Arrival>, i: nat, m: Id)
    requires Sound(t) && Coherent(t, entries) && FreshRun(t, rs) && i < |rs|
    requires CopyIs(t, entries, rs, i, m)
    ensures CopyIs(t, entries, rs, i + 1, m)
  {
    EntryMoves(t, entries, rs, i, m);
    hide Sound, Coherent, FreshRun, PlainRun, CachedRun, Load, FirstRead, Original, Kept, Evicts, Reads, EntriesAt,
         CopyIs;
    if Evicts(t, rs, i, m) {
      EvictedCopy(t, entries, rs, i, m);
    } else {
      KeptCopy(t, entries, rs, i, m);
    }
  }

  lemma EvictedCopy(t: Tables, entries: Entries, rs: seq<Arrival>, i: nat, m: Id)
    requires i < |rs| && Evicts(t, rs, i, m) && m !in EntriesAt(t, entries, rs, i + 1)
    ensures CopyIs(t, entries, rs, i + 1, m)
  {
    hide PlainRun, CachedRun, Load, FirstRead, Original, Kept, Evicts, Reads, EntriesAt;
    var next := i + 1;
    OriginMoves(t, entries, rs, i, m, 0);
    forall j
      ensures !FirstRead(t, entries, rs, j, next, m)
    {
      OriginMoves(t, entries, rs, i, m, j);
    }
  }

  /** The copy of before, or else the one of a read right now. */
  lemma KeptCopy(t: Tables, entries: Entries, rs: seq<Arrival>, i: nat, m: Id)
    requires i < |rs| && CopyIs(t, entries, rs, i, m) && !Evicts(t, rs, i, m)
    requires var e, e' := EntriesAt(t, entries, rs, i), EntriesAt(t, entries, rs, i + 1);
             if m in e then m in e' && e'[m] == e[m]
             else if Reads(t, rs, i, m) then m in e' && e'[m] == Load(TablesAt(t, rs, i), m).message
             else m !in e'
    ensures CopyIs(t, entries, rs, i + 1, m)
  {
    hide PlainRun, CachedRun, Load, FirstRead, Original, Kept, Evicts, Reads, EntriesAt, TablesAt;
    var next := i + 1;
    OriginMoves(t, entries, rs, i, m, i);
    NoOtherReads(t, entries, rs, i, m);
    if Reads(t, rs, i, m) { Fills(t, entries, rs, i, m); }
    forall j | j != i
      ensures FirstRead(t, entries, rs, j, next, m) <==> FirstRead(t, entries, rs, j, i, m)
    {
      OriginMoves(t, entries, rs, i, m, j);
    }
    OnlyEarlier(t, entries, rs, i, m);
  }

  lemma EntryMoves(t: Tables, entries: Entries, rs: seq<Arrival>, i: nat, m: Id)
    requires Sound(t) && Coherent(t, entries) && FreshRun(t, rs) && i < |rs|
    ensures var e, e' := EntriesAt(t, entries, rs, i), EntriesAt(t, entries, rs, i + 1);
            if Evicts(t, rs, i, m) then m !in e'
            else if m in e then m in e' && e'[m] == e[m]
            else if Reads(t, rs, i, m) then m in e' && e'[m] == Load(TablesAt(t, rs, i), m).message
            else m !in e'
  {
    hide Sound, Coherent, FreshRun, CachedServe, Serve, PlainRun, CachedRun, Load;
    RunAt(t, entries, rs, i);
    EntryStep(TablesAt(t, rs, i), EntriesAt(t, entries, rs, i), rs[i].request, rs[i].draw, m);
  }

  lemma NoOtherReads(t: Tables, entries: Entries, rs: seq<Arrival>, i: nat, m: Id)
    requires i < |rs|
    ensures FirstRead(t, entries, rs, i, i + 1, m) ==> Reads(t, rs, i, m)
  {
  }

  lemma OnlyEarlier(t: Tables, entries: Entries, rs: seq<Arrival>, i: nat, m: Id)
    requires i <= |rs|
    ensures !FirstRead(t, entries, rs, i, i, m)
  {
  }

  // ---- which answers are old ---------------------------------------------------------------

  /** The author of the message has another name or email now than in the copy. */
  predicate IsOld(copy: MessageOut, t: Tables, m: Id) {
    var now := Load(t, m);
    now.Found? && (copy.author.name != now.message.author.name || copy.author.email != now.message.author.email)
  }

  /** What the i-th request would be answered is a copy from before its author got the name and
      email it has now. */
  ghost predicate AsksForOld(t: Tables, entries: Entries, rs: seq<Arrival>, i: nat)
    requires i < |rs|
  {
    && rs[i].request.GetMessage?
    && var m, now := rs[i].request.id, TablesAt(t, rs, i);
       || (Original(t, entries, rs, i, m) && IsOld(entries[m], now, m))
       || exists j :: FirstRead(t, entries, rs, j, i, m) && IsOld(Load(TablesAt(t, rs, j), m).message, now, m)
  }

  lemma ReplyDiffers(t: Tables, entries: Entries, r: Request, d: Draw)
    requires Coherent(t, entries)
    ensures CachedServe(t, entries, r, d).reply != Serve(t, r, d).reply <==>
            r.GetMessage? && r.id in entries && IsOld(entries[r.id], t, r.id)
  {
    if CleanRequest(r).Some? { CleanKeepsTarget(r); }
    hide CleanRequest, Load, EntriesAfter, ExecCreateMessage, ExecUpdateMessage, ExecDeleteMessage, ExecCreateAuthor,
         ExecUpdateAuthor, ExecDeleteAuthor;
  }

  /** An answer of the cached service differs from that of the service without a cache exactly when
      it is a read of a copy whose author has another name or email by now: the copy of the first
      read since the message was last changed, or of the start. */
  lemma OldExactly(t: Tables, entries: Entries, rs: seq<Arrival>, i: nat)
    requires Sound(t) && Coherent(t, entries) && FreshRun(t, rs) && i < |rs|
    ensures CachedRun(t, entries, rs)[i].reply != PlainRun(t, rs)[i].reply <==> AsksForOld(t, entries, rs, i)
  {
    hide Sound, Coherent, FreshRun, CachedServe, Serve, PlainRun, CachedRun, Load, FirstRead, Original, IsOld,
         EntriesAt, TablesAt;
    RunAt(t, entries, rs, i);
    ReplyDiffers(TablesAt(t, rs, i), EntriesAt(t, entries, rs, i), rs[i].request, rs[i].draw);
    if rs[i].request.GetMessage? {
      Origin(t, entries, rs, i, rs[i].request.id);
      hide Evicts, Reads;
    }
  }

  // ---- before the first author update ------------------------------------------------------

  predicate NoAuthorUpdate(rs: seq<Arrival>) {
    forall a | a in rs :: !a.request.UpdateAuthor?
  }

  /** A request that neither updates an author nor evicts the message leaves its row and author. */
  lemma ServeKeepsLoad(t: Tables, r: Request, d: Draw, m: Id)
    requires Sound(t) && Fresh(t, r, d) && Load(t, m).Found? && !r.UpdateAuthor?
    requires (r.UpdateMessage? || r.DeleteMessage?) && r.id == m ==> Serve(t, r, d).reply.status in {400, 500}
    ensures Load(Serve(t, r, d).tables, m) == Load(t, m)
  {
    ServeKeepsSound(t, r, d);
    if (r.UpdateMessage? || r.DeleteMessage?) && r.id == m {
      hide Serve;
    } else if CleanRequest(r).Some? {
      CleanKeepsTarget(r);
      CleanRequestIsValid(r);
      FreshSurvivesCleaning(t, r, d);
      RowStays(t, CleanRequest(r).value, d, m);
    }
  }

  lemma {:induction false} LoadLasts(t: Tables, rs: seq<Arrival>, j: nat, i: nat, m: Id)
    requires Sound(t) && FreshRun(t, rs) && j <= i < |rs| && NoAuthorUpdate(rs[..i])
    requires Load(TablesAt(t, rs, j), m).Found? && Kept(t, rs, j, i, m)
    ensures Load(TablesAt(t, rs, i), m) == Load(TablesAt(t, rs, j), m)
    decreases i
  {
    hide Sound, Coherent, FreshRun, CachedServe, Serve, PlainRun, CachedRun, Load;
    if j < i {
      assert forall a | a in rs[..i - 1] :: a in rs[..i];
      LoadLasts(t, rs, j, i - 1, m);
      NothingCached(t);
      RunAt(t, map[], rs, i - 1);
      assert rs[i - 1] in rs[..i] && !Evicts(t, rs, i - 1, m);
      ServeKeepsLoad(TablesAt(t, rs, i - 1), rs[i - 1].request, rs[i - 1].draw, m);
    }
  }

  lemma NothingCached(t: Tables)
    ensures Coherent(t, map[]) && Exact(t, map[])
  {
  }

  /** So from exact copies on, all answers are equal until an author is updated. */
  lemma EqualUntilAuthorUpdate(t: Tables, entries: Entries, rs: seq<Arrival>, i: nat)
    requires Sound(t) && Coherent(t, entries) && Exact(t, entries) && FreshRun(t, rs) && i < |rs|
    requires NoAuthorUpdate(rs[..i])
    ensures CachedRun(t, entries, rs)[i].reply == PlainRun(t, rs)[i].reply
  {
    hide Sound, Coherent, FreshRun, CachedServe, Serve, PlainRun, CachedRun, Load;
    OldExactly(t, entries, rs, i);
    if AsksForOld(t, entries, rs, i) {
      var m := rs[i].request.id;
      if Original(t, entries, rs, i, m) && IsOld(entries[m], TablesAt(t, rs, i), m) {
        LoadLasts(t, rs, 0, i, m);
      } else {
        var j :| && FirstRead(t, entries, rs, j, i, m)
                 && IsOld(Load(TablesAt(t, rs, j), m).message, TablesAt(t, rs, i), m);
        LoadLasts(t, rs, j, i, m);
      }
    }
  }

  /** Started with an empty cache, nothing has to be asked of the entries. */
  lemma FreshServiceRefinesPlain(t: Tables, rs: seq<Arrival>, i: nat)
    requires Sound(t) && FreshRun(t, rs) && i < |rs|
    ensures var a, o := CachedRun(t, map[], rs)[i], PlainRun(t, rs)[i];
            && a.tables == o.tables && SameAnswer(a.reply, o.reply)
            && (a.reply != o.reply <==> AsksForOld(t, map[], rs, i))
            && (NoAuthorUpdate(rs[..i]) ==> a.reply == o.reply)
  {
    hide Sound, FreshRun, SameAnswer, AsksForOld, PlainRun, CachedRun, NoAuthorUpdate;
    NothingCached(t);
    CachedRefinesPlain(t, map[], rs);
    OldExactly(t, map[], rs, i);
    if NoAuthorUpdate(rs[..i]) { EqualUntilAuthorUpdate(t, map[], rs, i); }
  }
}
