/** The persona directory as its writers and readers share it: every write is guarded by the revision it read, and other
    writers may get in between (registry/kv.go, registry/ensure.go). */
module Directories {
  import opened Prelude
  import opened Names
  import opened Keys

  /** A stored document: strictly valid, readable only leniently (an unknown field), or not at all. */
  datatype Doc = Strict(p: Profile) | Lenient(p: Profile) | Unreadable

  datatype Entry = Entry(doc: Doc, revision: nat)

  type Entries = map<Persona, Entry>

  datatype Reply = Works | NoAnswer | Fails

  /** A write by somebody else. */
  datatype Change = Change(name: Persona, p: Profile)

  datatype Turn = Turn(others: seq<Change>, reply: Reply, now: int)

  datatype Problem =
      NotYourself | InvalidProfile | KeyConflict | NoProfile | NoKey | OtherKey | NoPublicKey | Stale | Trouble

  function DocChain(d: Doc): seq<Key> {
    if d.Unreadable? then [] else ChainOf(d.p)
  }

  /** A profile in order: its chain is valid, and there are no rotations of a key there is not. */
  predicate InOrder(c: Scheme, p: Profile) {
    Chained(c, p) && (p.signingKey.None? ==> p.rotations == [])
  }

  /** The entry carries its own name and a profile in order. */
  predicate Fit(c: Scheme, name: Persona, d: Doc) {
    d.Unreadable? || (d.p.name == name && InOrder(c, d.p))
  }

  /** A write that keeps the persona's key history: it is valid and continues the chain stored before. */
  predicate Legal(c: Scheme, entries: Entries, name: Persona, p: Profile) {
    && p.name == name && InOrder(c, p)
    && (name in entries ==> !entries[name].doc.Unreadable? && DocChain(entries[name].doc) <= ChainOf(p))
  }

  ghost predicate Sane(c: Scheme, entries: Entries) {
    forall name :: name in entries ==> Fit(c, name, entries[name].doc)
  }

  /** From one directory to a later one: entries stay, chains only grow, and an entry whose revision is the same is the
      same. */
  ghost predicate Grows(before: Entries, after: Entries) {
    forall name :: name in before ==>
      && name in after
      && before[name].revision <= after[name].revision
      && (before[name].revision == after[name].revision ==> after[name] == before[name])
      && DocChain(before[name].doc) <= DocChain(after[name].doc)
  }

  lemma GrowsOnce(a: Entries)
    ensures Grows(a, a)
  {
  }

  lemma GrowsTwice(a: Entries, b: Entries, d: Entries)
    requires Grows(a, b) && Grows(b, d)
    ensures Grows(a, d)
  {
  }

  lemma LegalGrows(c: Scheme, entries: Entries, name: Persona, p: Profile, revision: nat)
    requires Legal(c, entries, name, p) && (name in entries ==> entries[name].revision < revision)
    ensures var after := entries[name := Entry(Strict(p), revision)];
      Grows(entries, after) && (Sane(c, entries) ==> Sane(c, after))
  {
  }

  /** The write a client is about to make continues what it read. */
  ghost predicate Continues(c: Scheme, read: Option<Entry>, p: Profile) {
    InOrder(c, p) && (read.Some? ==> !read.value.doc.Unreadable? && DocChain(read.value.doc) <= ChainOf(p))
  }

  /** What was read may have been followed by other writes, but never by a different entry at the same revision. */
  ghost predicate StillKnown(read: Option<Entry>, name: Persona, entries: Entries) {
    read.Some? ==> Grows(map[name := read.value], entries)
  }

  lemma KnownLater(read: Option<Entry>, name: Persona, before: Entries, after: Entries)
    requires StillKnown(read, name, before) && Grows(before, after)
    ensures StillKnown(read, name, after)
  {
    if read.Some? { GrowsTwice(map[name := read.value], before, after); }
  }

  lemma KnownNow(entries: Entries, name: Persona)
    ensures StillKnown(if name in entries then Some(entries[name]) else None, name, entries)
  {
  }

  /** An entry at the revision that was read is the entry that was read. */
  lemma SameRevision(read: Entry, name: Persona, entries: Entries)
    requires StillKnown(Some(read), name, entries)
    ensures name in entries && (entries[name].revision == read.revision ==> entries[name] == read)
  {
    assert name in map[name := read] && map[name := read][name] == read;
  }

  function RevisionOf(entry: Option<Entry>): Option<nat> {
    if entry.Some? then Some(entry.value.revision) else None
  }

  function RevisionIn(entries: Entries, name: Persona): Option<nat> {
    if name in entries then Some(entries[name].revision) else None
  }

  class Directory {
    const c: Scheme
    var entries: Entries
    var lastRevision: nat
    var turns: seq<Turn>

    ghost predicate Valid()
      reads this
    {
      forall name :: name in entries ==> entries[name].revision <= lastRevision
    }

    /** A directory just provisioned holds nobody. */
    constructor (c: Scheme, turns: seq<Turn>)
      ensures Valid() && Sane(c, entries) && this.c == c && entries == map[] && this.turns == turns && fresh(this)
    {
      this.c, this.turns := c, turns;
      entries, lastRevision := map[], 0;
    }

    method Write(name: Persona, p: Profile)
      requires Valid()
      modifies this`entries, this`lastRevision
      ensures Valid() && lastRevision == old(lastRevision) + 1
      ensures entries == old(entries)[name := Entry(Strict(p), lastRevision)]
      ensures Legal(c, old(entries), name, p) ==>
        Grows(old(entries), entries) && (Sane(c, old(entries)) ==> Sane(c, entries))
    {
      if Legal(c, entries, name, p) { LegalGrows(c, entries, name, p, lastRevision + 1); }
      hide Sane, Legal, Grows;
      lastRevision := lastRevision + 1;
      entries := entries[name := Entry(Strict(p), lastRevision)];
    }

    /** A request arrives: others have made legal writes in the meantime. */
    method Next() returns (reply: Reply, now: int)
      requires Valid()
      modifies this
      ensures Valid() && Grows(old(entries), entries) && (Sane(c, old(entries)) ==> Sane(c, entries))
      ensures old(turns) == [] ==> turns == [] && entries == old(entries) && reply == Works
    {
      GrowsOnce(entries);
      hide Grows, Sane;
      reply, now := Works, 0;
      if turns != [] {
        var turn := turns[0];
        turns := turns[1..];
        reply, now := turn.reply, turn.now;
        for i := 0 to |turn.others|
          invariant Valid() && Grows(old(entries), entries) && (Sane(c, old(entries)) ==> Sane(c, entries))
        {
          var ch := turn.others[i];
          if Legal(c, entries, ch.name, ch.p) {
            ghost var before := entries;
            Write(ch.name, ch.p);
            GrowsTwice(old(entries), before, entries);
          }
        }
      }
    }

    method Get(name: Persona) returns (entry: Option<Entry>, ok: bool, now: int)
      requires Valid()
      modifies this
      ensures Valid() && Grows(old(entries), entries) && (Sane(c, old(entries)) ==> Sane(c, entries))
      ensures entry == if name in entries then Some(entries[name]) else None
      ensures StillKnown(entry, name, entries)
      ensures old(turns) == [] ==> turns == [] && entries == old(entries) && ok
    {
      var reply;
      reply, now := Next();
      ok := reply.Works?;
      entry := if name in entries then Some(entries[name]) else None;
      KnownNow(entries, name);
    }

    /** Create and Update as one: the write happens only if the entry is still the one that was read, or still
        absent. */
    method Put(name: Persona, p: Profile, read: Option<Entry>) returns (err: Option<Problem>, ghost before: Entries)
      requires Valid() && p.name == name && StillKnown(read, name, entries)
      modifies this
      ensures Valid() && Grows(old(entries), before) && (Sane(c, old(entries)) ==> Sane(c, before))
      ensures entries == before
        || (entries == before[name := Entry(Strict(p), lastRevision)]
           && read == if name in before then Some(before[name]) else None)
      ensures err.None? ==> name in entries && entries[name].doc == Strict(p) && entries != before
      ensures err.Some? ==> err.value.Stale? || err.value.Trouble?
      ensures err == Some(Stale) ==> entries == before && RevisionIn(before, name) != RevisionOf(read)
      ensures Continues(c, read, p) ==> Grows(old(entries), entries) && (Sane(c, old(entries)) ==> Sane(c, entries))
      ensures old(turns) == [] ==> turns == [] && before == old(entries)
      ensures old(turns) == [] && (read == if name in old(entries) then Some(old(entries)[name]) else None) ==>
        err.None?
    {
      ghost var start := entries;
      hide Grows, Sane, StillKnown;
      var reply, _ := Next();
      before := entries;
      KnownLater(read, name, start, entries);
      if reply.Fails? {
        return Some(Trouble), before;
      }
      var current := RevisionIn(entries, name);
      var expected := RevisionOf(read);
      if current != expected {
        return Some(Stale), before;
      }
      if read.Some? {
        SameRevision(read.value, name, entries);
      }
      assert Continues(c, read, p) ==> Legal(c, entries, name, p);
      hide Legal, Continues;
      Write(name, p);
      if Continues(c, read, p) { GrowsTwice(start, before, entries); }
      err := if reply.Works? then None else Some(Trouble);
      assert name in before ==> before[name].revision < entries[name].revision;
    }
  }
}
