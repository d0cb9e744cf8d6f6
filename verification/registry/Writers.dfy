/** Publishing, rotating and ensuring a key, each as a read followed by a guarded write; and readers with pins
    (registry/kv.go, registry/ensure.go, registry/chain.go). */
module Writers {
  import opened Prelude
  import opened Names
  import opened Keys
  import opened Directories

  // ----- what a publish stores

  /** Stored key material and creation time are authoritative. */
  function Merged(stored: Option<Profile>, p: Profile): Profile {
    match stored
    case None => p
    case Some(s) =>
      var keyed := if s.signingKey.Some? then p.(signingKey := s.signingKey, rotations := s.rotations) else p;
      if s.createdAt != 0 then keyed.(createdAt := s.createdAt) else keyed
  }

  /** What an update keeps of the stored profile and takes from the caller's, field by field: the key history is the
      stored one if there is a key, creation time is set once, and all the rest is the caller's. */
  ghost predicate Updates(stored: Option<Profile>, p: Profile, q: Profile) {
    && q.name == p.name && q.displayName == p.displayName && q.description == p.description
    && q.operatedBy == p.operatedBy && q.attestation == p.attestation
    && (stored.Some? && stored.value.createdAt != 0 ==> q.createdAt == stored.value.createdAt)
    && (stored.None? || stored.value.createdAt == 0 ==> q.createdAt == p.createdAt)
    && (stored.Some? && stored.value.signingKey.Some? ==>
          q.signingKey == stored.value.signingKey && q.rotations == stored.value.rotations)
    && (stored.None? || stored.value.signingKey.None? ==> q.signingKey == p.signingKey && q.rotations == p.rotations)
  }

  lemma MergedUpdates(stored: Option<Profile>, p: Profile)
    ensures Updates(stored, p, Merged(stored, p))
  {
  }

  function StoredIn(entry: Option<Entry>): Option<Profile> {
    match entry
    case None => None
    case Some(e) => if e.doc.Unreadable? then None else Some(e.doc.p)
  }

  /** An update keeps the stored key history whatever the caller supplies; only a persona without one takes on the
      caller's, which then has to be a valid chain by itself. */
  lemma MergedContinues(c: Scheme, entry: Option<Entry>, p: Profile)
    requires Validate(c, p) && (entry.Some? ==> !entry.value.doc.Unreadable? && Fit(c, p.name, entry.value.doc))
    ensures var stored := StoredIn(entry);
      Continues(c, entry, Merged(stored, p)) <==> (stored.Some? && stored.value.signingKey.Some?) || Chained(c, p)
    ensures var stored := StoredIn(entry);
      stored.Some? && stored.value.signingKey.Some? ==> ChainOf(Merged(stored, p)) == ChainOf(stored.value)
  {
    var m := Merged(StoredIn(entry), p);
    if p.signingKey.None? { Keyless(c, p); }
    hide Validate;
    if entry.Some? && entry.value.doc.p.signingKey.Some? {
      var s := entry.value.doc.p;
      assert m.name == s.name && m.rotations == s.rotations && m.signingKey == s.signingKey;
      assert Chained(c, m) by {
        forall i | 0 <= i < |s.rotations| && s.rotations != [] ensures Linked(c, m, i) { assert Linked(c, s, i); }
      }
    } else {
      assert m.name == p.name && m.rotations == p.rotations && m.signingKey == p.signingKey;
      if Chained(c, p) {
        forall i | p.signingKey.Some? && 0 <= i < |p.rotations| ensures Linked(c, m, i) { assert Linked(c, p, i); }
      }
      if Chained(c, m) {
        forall i | p.signingKey.Some? && 0 <= i < |p.rotations| ensures Linked(c, p, i) { assert Linked(c, m, i); }
      }
    }
  }

  /** What is merged from validated profiles validates. */
  lemma MergedValidates(c: Scheme, stored: Option<Profile>, p: Profile)
    requires Validate(c, p) && (stored.Some? ==> Validate(c, stored.value))
    ensures Validate(c, Merged(stored, p))
  {
  }

  // ----- what a rotation stores

  function Rotated(c: Scheme, p: Profile, old_: Signer, next: Key, now: int): Profile {
    p.(rotations := p.rotations + [Rotation(old_.key, next, old_.sign(c.rotationBytes(p.name, next)))],
       signingKey := Some(KeyInfo(next, now)))
  }

  /** A rotation by the holder of the current key extends the chain by the new key. */
  lemma RotatedContinues(c: Scheme, p: Profile, old_: Signer, next: Key, now: int)
    requires Honest(c, old_) && InOrder(c, p) && p.signingKey.Some? && p.signingKey.value.ed25519 == old_.key
    ensures InOrder(c, Rotated(c, p, old_, next, now)) && ChainOf(Rotated(c, p, old_, next, now)) == ChainOf(p) + [next]
  {
    var q := Rotated(c, p, old_, next, now);
    forall i | 0 <= i < |q.rotations| ensures Linked(c, q, i) {
      if i < |p.rotations| { assert Linked(c, p, i); }
    }
    assert ChainOf(q) == ChainOf(p) + [next];
  }

  /** A rotated profile validates exactly when the new key is well formed, which rotating does not ask. */
  lemma RotatedValidates(c: Scheme, p: Profile, old_: Signer, next: Key, now: int)
    requires Honest(c, old_) && Validate(c, p) && p.signingKey.Some? && p.signingKey.value.ed25519 == old_.key
    ensures Validate(c, Rotated(c, p, old_, next, now)) <==> c.wellFormed(next)
  {
    var q := Rotated(c, p, old_, next, now);
    if c.wellFormed(next) {
      forall i | 0 <= i < |q.rotations|
        ensures c.wellFormed(q.rotations[i].from) && c.wellFormed(q.rotations[i].to) && q.rotations[i].proof != "" {
        if i < |p.rotations| { assert q.rotations[i] == p.rotations[i]; }
      }
    }
  }

  class Writer {
    const dir: Directory
    const me: Persona

    constructor (dir: Directory, me: Persona)
      ensures this.dir == dir && this.me == me
    {
      this.dir, this.me := dir, me;
    }

    /** Create-or-metadata-update. The write, if it happens, stores the merge of what the entry then held; a different
        key is refused; and the persona's chain is kept or soundly begun exactly when the entry had a key or the
        caller's profile is itself a valid chain. */
    method Publish(p: Profile) returns (err: Option<Problem>, ghost before: Entries)
      requires dir.Valid() && Sane(dir.c, dir.entries)
      modifies dir
      ensures dir.Valid() && Grows(old(dir.entries), before) && Sane(dir.c, before)
      ensures var held := StoredIn(if p.name in before then Some(before[p.name]) else None);
        dir.entries == before || dir.entries == before[p.name := Entry(Strict(Merged(held, p)), dir.lastRevision)]
      ensures var held := StoredIn(if p.name in before then Some(before[p.name]) else None);
        err.None? ==>
          && !Conflicts(before, p) && p.name in dir.entries && dir.entries[p.name].doc == Strict(Merged(held, p))
          && Updates(held, p, dir.entries[p.name].doc.p)
      ensures err.None? ==> Validate(dir.c, p) && dir.entries != before
      ensures me != "" && p.name != me <==> err == Some(NotYourself)
      ensures err.Some? && (err.value.NotYourself? || err.value.InvalidProfile? || err.value.KeyConflict?) ==>
        dir.entries == before
      ensures (me == "" || p.name == me) && !Validate(dir.c, p) ==> err == Some(InvalidProfile)
      ensures var held := StoredIn(if p.name in before then Some(before[p.name]) else None);
        Chained(dir.c, p) || (held.Some? && held.value.signingKey.Some?) ==>
          Grows(old(dir.entries), dir.entries) && Sane(dir.c, dir.entries)
      ensures old(dir.turns) == [] ==> dir.turns == [] && before == old(dir.entries)
      ensures old(dir.turns) == [] && (me == "" || p.name == me) && Validate(dir.c, p) ==>
        err == if p.name in before && before[p.name].doc.Unreadable? then Some(Trouble)
               else if Conflicts(before, p) then Some(KeyConflict) else None
    {
      GrowsOnce(dir.entries);
      before := dir.entries;
      hide Sane, Grows, StillKnown, Validate, Chained, Merged, Updates, Continues;
      if me != "" && p.name != me {
        err := Some(NotYourself);
        return;
      }
      var valid := Check(dir.c, p);
      if !valid {
        err := Some(InvalidProfile);
        return;
      }
      ghost var start := dir.entries;
      var entry, ok, _ := dir.Get(p.name);
      before := dir.entries;
      if !ok {
        err := Some(Trouble);
        return;
      }
      FitAt(dir.c, dir.entries, p.name);
      if entry.Some? {
        if entry.value.doc.Unreadable? {
          err := Some(Trouble);
          return;
        }
        var stored := entry.value.doc.p;
        if p.signingKey.Some? && stored.signingKey.Some?
          && p.signingKey.value.ed25519 != stored.signingKey.value.ed25519 {
          err := Some(KeyConflict);
          return;
        }
      }
      var merged := Merged(StoredIn(entry), p);
      MergedUpdates(StoredIn(entry), p);
      MergedName(StoredIn(entry), p);
      MergedContinues(dir.c, entry, p);
      ghost var read := dir.entries;
      err, before := dir.Put(p.name, merged, entry);
      GrowsTwice(start, read, before);
      if Continues(dir.c, entry, merged) {
        GrowsTwice(start, read, dir.entries);
      }
    }

    /** Replaces the key, endorsed by the old one, on exactly the profile that was read; a lost race is an error. */
    method Rotate(oldKey: Signer, newKey: Key) returns (p: Option<Profile>, err: Option<Problem>, ghost before: Entries)
      requires dir.Valid() && Sane(dir.c, dir.entries) && Honest(dir.c, oldKey)
      modifies dir
      ensures dir.Valid() && Sane(dir.c, dir.entries) && Grows(old(dir.entries), dir.entries)
        && Grows(old(dir.entries), before)
      ensures p.Some? <==> err.None?
      ensures err.None? ==>
        me in before && before[me].doc.Strict? && me in dir.entries && dir.entries[me].doc == Strict(p.value)
      ensures err.None? ==> DocChain(dir.entries[me].doc) == DocChain(before[me].doc) + [newKey]
      ensures err.None? ==>
        p.value == before[me].doc.p.(signingKey := p.value.signingKey, rotations := p.value.rotations)
      ensures err.None? || dir.entries == before || err == Some(Trouble)
      ensures me == "" ==> err == Some(Trouble) && dir.entries == old(dir.entries)
      ensures old(dir.turns) == [] && me != "" ==>
        err == if me !in old(dir.entries) then Some(NoProfile)
               else match old(dir.entries)[me].doc
                    case Strict(q) =>
                      if q.signingKey.None? then Some(NoKey)
                      else if q.signingKey.value.ed25519 != oldKey.key then Some(OtherKey)
                      else None
                    case _ => Some(Trouble)
    {
      hide Sane, Grows, StillKnown, Chained, Continues, Validate, InOrder;
      ghost var start := dir.entries;
      GrowsOnce(start);
      p, before := None, dir.entries;
      if me == "" {
        err := Some(Trouble);
        return;
      }
      var entry, ok, now := dir.Get(me);
      before := dir.entries;
      if !ok {
        err := Some(Trouble);
        return;
      }
      if entry.None? {
        err := Some(NoProfile);
        return;
      }
      if !entry.value.doc.Strict? {
        err := Some(Trouble);
        return;
      }
      var stored := entry.value.doc.p;
      if stored.signingKey.None? {
        err := Some(NoKey);
        return;
      }
      if stored.signingKey.value.ed25519 != oldKey.key {
        err := Some(OtherKey);
        return;
      }
      FitAt(dir.c, dir.entries, me);
      var next := Rotated(dir.c, stored, oldKey, newKey, now);
      RotatedContinues(dir.c, stored, oldKey, newKey, now);
      ContinuesFrom(dir.c, entry.value, next);
      ghost var read := dir.entries;
      err, before := dir.Put(me, next, entry);
      GrowsTwice(start, read, before);
      GrowsTwice(start, read, dir.entries);
      if err.None? { p := Some(next); }
    }

    /** Lookup: absence is normal, an invalid document is an error. */
    method Lookup() returns (p: Option<Profile>, ok: bool)
      requires dir.Valid()
      modifies dir
      ensures dir.Valid() && Grows(old(dir.entries), dir.entries)
        && (Sane(dir.c, old(dir.entries)) ==> Sane(dir.c, dir.entries))
      ensures ok && p.Some? ==> me in dir.entries && dir.entries[me].doc == Strict(p.value)
      ensures ok && p.None? ==> me !in dir.entries
      ensures old(dir.turns) == [] ==> dir.turns == [] && dir.entries == old(dir.entries)
      ensures old(dir.turns) == [] ==> (ok <==> me != "" && (me in dir.entries ==> dir.entries[me].doc.Strict?))
    {
      GrowsOnce(dir.entries);
      p := None;
      if me == "" {
        return None, false;
      }
      hide Grows, Sane, StillKnown;
      var entry, fine, _ := dir.Get(me);
      ok := fine && (entry.Some? ==> entry.value.doc.Strict?);
      if ok && entry.Some? {
        p := Some(entry.value.doc.p);
      }
    }

    /** The stored profile, or the minimal one of a persona the directory does not hold. */
    function Known(entries: Entries): Profile {
      if me in entries && entries[me].doc.Strict? then entries[me].doc.p
      else Profile(me, "", "", "", None, 0, None, [])
    }

    /** EnsureSigningKey: makes the key resolvable, never overwrites another. Undisturbed it is idempotent, and a
        persona without a key gets this one and nothing else of its profile changes, if that profile validates. */
    method EnsureSigningKey(signer: Signer, now: int) returns (err: Option<Problem>)
      requires dir.Valid() && Sane(dir.c, dir.entries)
      modifies dir
      ensures dir.Valid() && Sane(dir.c, dir.entries) && Grows(old(dir.entries), dir.entries)
      ensures err.None? ==>
        me in dir.entries && !dir.entries[me].doc.Unreadable? && CurrentKey(dir.entries[me].doc.p) == Some(signer.key)
      ensures signer.key == "" ==> err == Some(NoPublicKey) && dir.entries == old(dir.entries)
      ensures
        old(dir.turns) == [] && me in old(dir.entries) && old(dir.entries)[me].doc.Strict?
        && CurrentKey(old(dir.entries)[me].doc.p).Some?
        ==> dir.entries == old(dir.entries)
            && (signer.key != "" && me != ""
                ==> err == if CurrentKey(old(dir.entries)[me].doc.p).value == signer.key then None
                           else Some(KeyConflict))
      ensures old(dir.turns) == [] ==> dir.turns == []
      ensures old(dir.turns) == [] && signer.key != "" && (me == "" || Illegible(old(dir.entries), me)) ==>
        err == Some(Trouble) && dir.entries == old(dir.entries)
      ensures
        old(dir.turns) == [] && signer.key != "" && me != "" && !Illegible(old(dir.entries), me)
        && CurrentKey(Known(old(dir.entries))).None?
        ==> var p := Known(old(dir.entries)).(signingKey := Some(KeyInfo(signer.key, now)));
            if Validate(dir.c, p)
            then err.None? && dir.entries == old(dir.entries)[me := Entry(Strict(p), dir.lastRevision)]
            else err == Some(InvalidProfile) && dir.entries == old(dir.entries)
    {
      hide Sane, Grows, StillKnown, Continues, Validate, Merged;
      GrowsOnce(dir.entries);
      if signer.key == "" {
        return Some(NoPublicKey);
      }
      ghost var start := dir.entries;
      var stored, ok := Lookup();
      if !ok {
        return Some(Trouble);
      }
      ghost var read := dir.entries;
      if stored.Some? && stored.value.signingKey.Some? {
        return if stored.value.signingKey.value.ed25519 == signer.key then None else Some(KeyConflict);
      }
      var p := if stored.Some? then stored.value else Profile(me, "", "", "", None, 0, None, []);
      p := p.(signingKey := Some(KeyInfo(signer.key, now)));
      ghost var before;
      FitAt(dir.c, dir.entries, me);
      assert p.rotations == [] && Chained(dir.c, p);
      hide Chained;
      err, before := Publish(p);
      MergedKeyless(p.(signingKey := None), p);
      GrowsTwice(start, read, dir.entries);
      MergedKey(StoredIn(if me in before then Some(before[me]) else None), p);
    }
  }

  /** A profile that validates but whose rotations do not lead to its key, published for a persona the directory does
      not hold yet, is stored as it is, and every reader distrusts the persona from then on. */
  method PublishUnchained(c: Scheme, key: Key, other: Key) returns (dir: Directory, ring: Keyring)
    requires c.wellFormed(key) && c.wellFormed(other) && key != other
    ensures dir.c == c && dir.Valid() && !Sane(c, dir.entries)
    ensures "a" in dir.entries && dir.entries["a"].doc.Strict? && Validate(c, dir.entries["a"].doc.p)
    ensures "a" in ring.distrusted
  {
    var p := Profile("a", "", "", "", None, 0, Some(KeyInfo(key, 0)), [Rotation(key, other, "proof")]);
    UnchainedProfile(c, p);
    dir := new Directory(c, []);
    var writer := new Writer(dir, "a");
    var err, _ := writer.Publish(p);
    assert dir.entries["a"].doc == Strict(p);
    assert !Fit(c, "a", dir.entries["a"].doc);
    var pins;
    ring, pins := BuildKeyring(c, [p], map[]);
    OneDistrusted(c, p);
  }

  lemma UnchainedProfile(c: Scheme, p: Profile)
    requires p.name == "a" && p.operatedBy == "" && p.attestation.None? && p.signingKey.Some? && |p.rotations| == 1
    requires c.wellFormed(p.signingKey.value.ed25519) && c.wellFormed(p.rotations[0].from)
      && c.wellFormed(p.rotations[0].to)
    requires p.rotations[0].proof != "" && p.rotations[0].to != p.signingKey.value.ed25519
    ensures Validate(c, p) && !Chained(c, p)
  {
    assert CheckName("a").None?;
  }

  lemma OneDistrusted(c: Scheme, p: Profile)
    requires !Chained(c, p)
    ensures p.name in Reconcile(c, [p], map[]).ring.distrusted
  {
    assert [p][..0] == [];
    assert Reconcile(c, [p], map[]) == Meet(c, Reconcile(c, [], map[]), p);
  }

  function CurrentKey(p: Profile): Option<Key> {
    if p.signingKey.Some? then Some(p.signingKey.value.ed25519) else None
  }

  lemma Keyless(c: Scheme, p: Profile)
    requires Validate(c, p) && p.signingKey.None?
    ensures p.rotations == []
  {
  }

  lemma ContinuesFrom(c: Scheme, read: Entry, p: Profile)
    requires InOrder(c, p) && !read.doc.Unreadable? && ChainOf(read.doc.p) <= ChainOf(p)
    ensures Continues(c, Some(read), p)
  {
    hide InOrder;
  }

  /** The entry is there but does not decode strictly. */
  predicate Illegible(entries: Entries, name: Persona) {
    name in entries && !entries[name].doc.Strict?
  }

  lemma MergedKeyless(s: Profile, p: Profile)
    requires s.signingKey.None? && p == s.(signingKey := p.signingKey)
    ensures Merged(Some(s), p) == p && Merged(None, p) == p
  {
  }

  lemma MergedKey(stored: Option<Profile>, p: Profile)
    ensures Merged(stored, p).signingKey ==
      if stored.Some? && stored.value.signingKey.Some? then stored.value.signingKey else p.signingKey
  {
  }

  /** The incoming key differs from the stored one. */
  predicate Conflicts(entries: Entries, p: Profile) {
    p.name in entries && !entries[p.name].doc.Unreadable?
    && p.signingKey.Some? && entries[p.name].doc.p.signingKey.Some?
    && p.signingKey.value.ed25519 != entries[p.name].doc.p.signingKey.value.ed25519
  }

  lemma FitAt(c: Scheme, entries: Entries, name: Persona)
    requires Sane(c, entries)
    ensures name in entries ==> Fit(c, name, entries[name].doc)
  {
    hide Fit;
  }

  lemma MergedName(stored: Option<Profile>, p: Profile)
    ensures Merged(stored, p).name == p.name
  {
  }

  // ----- readers

  /** A reader's pins are chains the directory still continues. */
  ghost predicate Safe(pins: map<Persona, seq<Key>>, entries: Entries) {
    forall name :: name in pins && name in entries ==> pins[name] <= DocChain(entries[name].doc)
  }

  lemma SafeLater(pins: map<Persona, seq<Key>>, before: Entries, after: Entries)
    requires Safe(pins, before) && Grows(before, after) && pins.Keys <= before.Keys
    ensures Safe(pins, after) && pins.Keys <= after.Keys
  {
  }

  /** What a reader has gathered of the directory: one valid profile a persona, each continuing the reader's pin and
      continued by the entry as it is now. */
  ghost predicate Gathered(c: Scheme, pins: map<Persona, seq<Key>>, entries: Entries, profiles: seq<Profile>,
                           todo: set<Persona>) {
    && DistinctNames(profiles)
    && forall i :: 0 <= i < |profiles| ==> ReadOk(c, pins, entries, profiles[i], todo)
  }

  ghost predicate ReadOk(c: Scheme, pins: map<Persona, seq<Key>>, entries: Entries, p: Profile, todo: set<Persona>) {
    && p.name !in todo && p.name in entries && Chained(c, p)
    && PinOf(pins, p.name) <= ChainOf(p) <= DocChain(entries[p.name].doc)
  }

  lemma GatheredLater(c: Scheme, pins: map<Persona, seq<Key>>, before: Entries, after: Entries, profiles: seq<Profile>,
                      todo: set<Persona>, less: set<Persona>)
    requires Gathered(c, pins, before, profiles, todo) && Grows(before, after) && less <= todo
    ensures Gathered(c, pins, after, profiles, less)
  {
    forall i | 0 <= i < |profiles| ensures ReadOk(c, pins, after, profiles[i], less) {
      assert ReadOk(c, pins, before, profiles[i], todo);
    }
  }

  lemma GatheredMore(c: Scheme, pins: map<Persona, seq<Key>>, entries: Entries, profiles: seq<Profile>,
                     todo: set<Persona>, name: Persona)
    requires Gathered(c, pins, entries, profiles, todo) && name in todo && name in entries && entries[name].doc.Strict?
    requires Fit(c, name, entries[name].doc) && Safe(pins, entries)
    ensures Gathered(c, pins, entries, profiles + [entries[name].doc.p], todo - {name})
  {
    var p := entries[name].doc.p;
    var more := profiles + [p];
    assert ReadOk(c, pins, entries, p, todo - {name}) by { hide Chained, Validate; }
    hide ReadOk;
    forall i | 0 <= i < |profiles|
      ensures ReadOk(c, pins, entries, profiles[i], todo - {name}) && profiles[i].name != p.name {
      Smaller(c, pins, entries, profiles[i], todo, name);
    }
    forall i, j | 0 <= i < j < |more| ensures more[i].name != more[j].name {
      if j < |profiles| { assert more[i] == profiles[i] && more[j] == profiles[j]; }
    }
  }

  lemma Smaller(c: Scheme, pins: map<Persona, seq<Key>>, entries: Entries, p: Profile, todo: set<Persona>,
                name: Persona)
    requires ReadOk(c, pins, entries, p, todo) && name in todo
    ensures ReadOk(c, pins, entries, p, todo - {name}) && p.name != name
  {
  }

  /** From what was gathered in order, nobody is distrusted, and the new pins are again safe. */
  lemma ReconciledSafe(c: Scheme, pins: map<Persona, seq<Key>>, entries: Entries, profiles: seq<Profile>)
    requires Gathered(c, pins, entries, profiles, {}) && Safe(pins, entries) && pins.Keys <= entries.Keys
    ensures var r := Reconcile(c, profiles, pins);
      r.ring.distrusted == {} && Safe(r.pins, entries) && r.pins.Keys <= entries.Keys
  {
    var r := Reconcile(c, profiles, pins);
    hide Reconcile, Chained, ChainOf;
    forall name
      ensures name !in r.ring.distrusted
        && (name in r.pins ==> name in entries && r.pins[name] <= DocChain(entries[name].doc)) {
      if i :| 0 <= i < |profiles| && profiles[i].name == name {
        EachOnItsOwn(c, profiles, pins, i);
        assert ReadOk(c, pins, entries, profiles[i], {});
        assert Trusted(c, profiles[i], pins);
      } else {
        Untouched(c, profiles, pins, name);
      }
    }
  }

  class Reader {
    const dir: Directory
    var pins: map<Persona, seq<Key>>

    constructor (dir: Directory)
      ensures this.dir == dir && pins == map[] && fresh(this)
    {
      this.dir := dir;
      pins := map[];
    }

    ghost predicate Valid()
      reads this, dir
    {
      dir.Valid() && Sane(dir.c, dir.entries) && Safe(pins, dir.entries) && pins.Keys <= dir.entries.Keys
    }

    /** All: reads every profile, one request each while others write, and skips invalid documents with a warning. */
    method Gather() returns (profiles: seq<Profile>, warned: set<Persona>, ok: bool)
      requires Valid()
      modifies dir
      ensures Valid() && Grows(old(dir.entries), dir.entries)
      ensures ok ==> Gathered(dir.c, pins, dir.entries, profiles, {})
      ensures old(dir.turns) == [] ==>
        && ok && dir.turns == [] && dir.entries == old(dir.entries) && Covered(dir.entries, profiles, {})
        && OnlyStrict(dir.entries, profiles) && forall name :: name in warned <==> Illegible(dir.entries, name)
    {
      hide *;
      profiles, warned, ok := [], {}, true;
      ghost var start := dir.entries;
      IsValid();
      GrowsOnce(start);
      var todo := dir.entries.Keys;
      GatheredNothing(dir.c, pins, dir.entries, todo);
      WarnedNone(start);
      StrictMore(start, [], "");
      while todo != {}
        invariant dir.Valid() && Sane(dir.c, dir.entries) && Grows(start, dir.entries)
        invariant Safe(pins, dir.entries) && pins.Keys <= dir.entries.Keys && todo <= start.Keys
        invariant Gathered(dir.c, pins, dir.entries, profiles, todo)
        invariant old(dir.turns) == [] ==> dir.turns == [] && dir.entries == start && Covered(start, profiles, todo)
        invariant old(dir.turns) == [] ==> WarnedOf(start, todo, warned) && OnlyStrict(start, profiles)
        decreases |todo|
      {
        var name :| name in todo;
        WarnedMore(start, todo, warned, name);
        StrictMore(start, profiles, name);
        ghost var before := dir.entries;
        KeysGrow(start, before);
        var entry, fine, _ := dir.Get(name);
        GrowsTwice(start, before, dir.entries);
        SafeLater(pins, before, dir.entries);
        KeysGrow(before, dir.entries);
        GatheredLater(dir.c, pins, before, dir.entries, profiles, todo, todo);
        FitAt(dir.c, dir.entries, name);
        IllegibleIs(dir.entries, name);
        if entry.Some? { StrictName(dir.c, name, entry.value.doc); }
        if !fine {
          AgainValid();
          return [], warned, false;
        }
        if entry.Some? && entry.value.doc.Strict? {
          GatheredMore(dir.c, pins, dir.entries, profiles, todo, name);
          CoveredMore(start, profiles, todo, name, entry.value.doc.p);
          profiles := profiles + [entry.value.doc.p];
        } else {
          warned := warned + {name};
          GrowsOnce(dir.entries);
          GatheredLater(dir.c, pins, dir.entries, dir.entries, profiles, todo, todo - {name});
          CoveredSkip(start, profiles, todo, name);
        }
        todo := todo - {name};
      }
      WarnedAll(start, warned);
      AgainValid();
    }

    lemma IsValid()
      requires Valid()
      ensures dir.Valid() && Sane(dir.c, dir.entries) && Safe(pins, dir.entries) && pins.Keys <= dir.entries.Keys
      ensures Covered(dir.entries, [], dir.entries.Keys)
    {
      hide Sane, Safe;
    }

    lemma AgainValid()
      requires dir.Valid() && Sane(dir.c, dir.entries) && Safe(pins, dir.entries) && pins.Keys <= dir.entries.Keys
      ensures Valid()
    {
      hide Sane, Safe;
    }

    /** As long as everybody writes legally nobody is ever distrusted, every pin is replaced by a chain that continues
        it, and undisturbed the pins become the chains the directory holds. */
    method Refresh() returns (ring: Keyring, warned: set<Persona>, ok: bool)
      requires Valid()
      modifies dir, this`pins
      ensures Valid() && Grows(old(dir.entries), dir.entries)
      ensures ok ==> ring.distrusted == {} && ring.keys == pins
      ensures !ok ==> pins == old(pins)
      ensures forall name :: name in old(pins) ==> name in pins && old(pins)[name] <= pins[name]
      ensures old(dir.turns) == [] ==> ok && dir.entries == old(dir.entries)
      ensures old(dir.turns) == [] ==> forall name :: name in dir.entries && dir.entries[name].doc.Strict? ==>
        PinOf(pins, name) == DocChain(dir.entries[name].doc)
      ensures old(dir.turns) == [] ==> forall name :: !(name in dir.entries && dir.entries[name].doc.Strict?) ==>
        PinOf(pins, name) == PinOf(old(pins), name)
      ensures old(dir.turns) == [] ==> forall name :: name in warned <==> Illegible(dir.entries, name)
    {
      hide *;
      ring := Keyring(map[], {});
      var profiles;
      profiles, warned, ok := Gather();
      IsValid();
      if !ok {
        return;
      }
      var newPins;
      ring, newPins := BuildKeyring(dir.c, profiles, pins);
      ReconciledSafe(dir.c, pins, dir.entries, profiles);
      KeysArePins(dir.c, profiles, pins);
      forall name | name in pins
        ensures name in newPins && pins[name] <= newPins[name] { PinsOnlyGrow(dir.c, profiles, pins, name); }
      if old(dir.turns) == [] {
        CoveredPins(dir.c, pins, dir.entries, profiles);
        forall name | !(name in dir.entries && dir.entries[name].doc.Strict?)
          ensures PinOf(newPins, name) == PinOf(pins, name) {
          PinStays(dir.c, dir.entries, profiles, pins, name);
        }
      }
      pins := newPins;
      AgainValid();
    }
  }

  lemma CoveredPins(c: Scheme, pins: map<Persona, seq<Key>>, entries: Entries, profiles: seq<Profile>)
    requires Gathered(c, pins, entries, profiles, {}) && Covered(entries, profiles, {}) && Sane(c, entries)
    ensures forall name :: name in entries && entries[name].doc.Strict? ==>
      PinOf(Reconcile(c, profiles, pins).pins, name) == DocChain(entries[name].doc)
  {
    hide Reconcile, Chained, ChainOf, Validate;
    forall name | name in entries && entries[name].doc.Strict?
      ensures PinOf(Reconcile(c, profiles, pins).pins, name) == DocChain(entries[name].doc) {
      var i :| 0 <= i < |profiles| && profiles[i] == entries[name].doc.p;
      assert Fit(c, name, entries[name].doc);
      EachOnItsOwn(c, profiles, pins, i);
      assert ReadOk(c, pins, entries, profiles[i], {});
      assert Trusted(c, profiles[i], pins);
    }
  }

  lemma GatheredNothing(c: Scheme, pins: map<Persona, seq<Key>>, entries: Entries, todo: set<Persona>)
    ensures Gathered(c, pins, entries, [], todo)
  {
  }

  lemma KeysGrow(before: Entries, after: Entries)
    requires Grows(before, after)
    ensures before.Keys <= after.Keys
  {
  }

  /** Exactly the illegible entries not still to be read have been warned about. */
  ghost predicate WarnedOf(entries: Entries, todo: set<Persona>, warned: set<Persona>) {
    forall name :: name in warned <==> name !in todo && Illegible(entries, name)
  }

  lemma IllegibleIs(entries: Entries, name: Persona)
    ensures Illegible(entries, name) <==> name in entries && !entries[name].doc.Strict?
  {
  }

  /** What was gathered are stored profiles, each under its own name. */
  ghost predicate OnlyStrict(entries: Entries, profiles: seq<Profile>) {
    forall i :: 0 <= i < |profiles| ==>
      profiles[i].name in entries && entries[profiles[i].name].doc == Strict(profiles[i])
  }

  lemma StrictMore(entries: Entries, profiles: seq<Profile>, name: Persona)
    ensures OnlyStrict(entries, [])
    ensures
      OnlyStrict(entries, profiles) && name in entries && entries[name].doc.Strict? && entries[name].doc.p.name == name
      ==> OnlyStrict(entries, profiles + [entries[name].doc.p])
  {
  }

  lemma StrictName(c: Scheme, name: Persona, d: Doc)
    requires Fit(c, name, d)
    ensures d.Strict? ==> d.p.name == name
  {
  }

  /** A persona without a legible entry keeps the pin it has, if any. */
  lemma PinStays(c: Scheme, entries: Entries, profiles: seq<Profile>, pins: map<Persona, seq<Key>>, name: Persona)
    requires OnlyStrict(entries, profiles) && (name in entries ==> !entries[name].doc.Strict?)
    ensures PinOf(Reconcile(c, profiles, pins).pins, name) == PinOf(pins, name)
  {
    forall i | 0 <= i < |profiles| ensures profiles[i].name != name {}
    hide Reconcile;
    Absent(c, profiles, pins, name);
  }

  lemma {:induction false} Absent(c: Scheme, profiles: seq<Profile>, pins: map<Persona, seq<Key>>, name: Persona)
    requires forall i :: 0 <= i < |profiles| ==> profiles[i].name != name
    ensures PinOf(Reconcile(c, profiles, pins).pins, name) == PinOf(pins, name)
  {
    if |profiles| > 0 {
      var n := |profiles| - 1;
      Absent(c, profiles[..n], pins, name);
      MeetOther(c, Reconcile(c, profiles[..n], pins), profiles[n], name);
    }
  }

  lemma WarnedNone(entries: Entries)
    ensures WarnedOf(entries, entries.Keys, {})
  {
  }

  lemma WarnedAll(entries: Entries, warned: set<Persona>)
    ensures WarnedOf(entries, {}, warned) ==> forall name :: name in warned <==> Illegible(entries, name)
  {
  }

  lemma WarnedMore(entries: Entries, todo: set<Persona>, warned: set<Persona>, name: Persona)
    requires name in todo
    ensures WarnedOf(entries, todo, warned) ==>
      WarnedOf(entries, todo - {name}, if Illegible(entries, name) then warned + {name} else warned)
  {
  }

  /** Every strict entry not still to be read has been. */
  ghost predicate Covered(entries: Entries, profiles: seq<Profile>, todo: set<Persona>) {
    forall name :: name in entries && name !in todo && entries[name].doc.Strict? ==> entries[name].doc.p in profiles
  }

  lemma CoveredMore(entries: Entries, profiles: seq<Profile>, todo: set<Persona>, name: Persona, p: Profile)
    ensures Covered(entries, profiles, todo) && name in entries && entries[name].doc == Strict(p) ==>
      Covered(entries, profiles + [p], todo - {name})
  {
  }

  lemma CoveredSkip(entries: Entries, profiles: seq<Profile>, todo: set<Persona>, name: Persona)
    ensures Covered(entries, profiles, todo) && (name in entries ==> !entries[name].doc.Strict?) ==>
      Covered(entries, profiles, todo - {name})
  {
  }
}
