/** The curator's warm cache of topics: signals mark paths dirty, refreshes rebuild them, and nothing goes silently
    stale (curator/projection.go). */
module Projection {
  import opened Prelude

  type Path = string
  type Content = string // a topic's log and announcement, as far as reading it goes
  type Cached = string

  /** What the outside does: publish to a topic, which owes the subscription a signal, or deliver a signal. */
  datatype Event = Publish(path: Path, content: Content) | Deliver(path: Path)

  /** What happens before the curator's next step, and whether that step's read succeeds. */
  datatype Turn = Turn(events: seq<Event>, fails: bool)

  type Build = (Path, Content) -> Cached

  /** What is being held for a path will overwrite its entry, so for that path the held value has to be current. */
  ghost predicate Known(build: Build, entries: map<Path, Cached>, dirty: set<Path>, logs: map<Path, Content>,
                        undelivered: multiset<Path>, path: Path, pending: set<Path>, held: Option<(Path, Cached)>)
    requires path in logs
  {
    || path in dirty || path in pending || path in undelivered
    || (if held.Some? && held.value.0 == path then held.value.1 == build(path, logs[path])
        else path in entries && entries[path] == build(path, logs[path]))
  }

  /** Nothing is silently stale: a topic's entry is current, or the path is dirty, still to be read by the running
      refresh, just read and not yet stored, or owed a signal. */
  ghost predicate AllKnown(build: Build, entries: map<Path, Cached>, dirty: set<Path>, logs: map<Path, Content>,
                           undelivered: multiset<Path>, pending: set<Path>, held: Option<(Path, Cached)>)
  {
    && dirty <= logs.Keys && pending <= logs.Keys && (forall path :: path in undelivered ==> path in logs)
    && forall path :: path in logs ==> Known(build, entries, dirty, logs, undelivered, path, pending, held)
  }

  /** A path that was still to be read has been, and what was read is held. */
  lemma ReadHeld(build: Build, entries: map<Path, Cached>, dirty: set<Path>, logs: map<Path, Content>,
                 undelivered: multiset<Path>, rest: set<Path>, path: Path)
    requires AllKnown(build, entries, dirty, logs, undelivered, rest + {path}, None) && path in logs
    ensures AllKnown(build, entries, dirty, logs, undelivered, rest, Some((path, build(path, logs[path]))))
  {
    forall other | other in logs
      ensures Known(build, entries, dirty, logs, undelivered, other, rest, Some((path, build(path, logs[path])))) {
      assert Known(build, entries, dirty, logs, undelivered, other, rest + {path}, None);
    }
  }

  /** What was held has been stored. */
  lemma HeldStored(build: Build, entries: map<Path, Cached>, dirty: set<Path>, logs: map<Path, Content>,
                   undelivered: multiset<Path>, rest: set<Path>, path: Path, cached: Cached)
    requires AllKnown(build, entries, dirty, logs, undelivered, rest, Some((path, cached)))
    ensures AllKnown(build, entries[path := cached], dirty, logs, undelivered, rest, None)
  {
    forall other | other in logs
      ensures Known(build, entries[path := cached], dirty, logs, undelivered, other, rest, None) {
      assert Known(build, entries, dirty, logs, undelivered, other, rest, Some((path, cached)));
    }
  }

  /** Paths still to be read have been marked dirty instead. */
  lemma MarkedDirty(build: Build, entries: map<Path, Cached>, dirty: set<Path>, logs: map<Path, Content>,
                    undelivered: multiset<Path>, rest: set<Path>, pending: set<Path>, marked: set<Path>)
    requires AllKnown(build, entries, dirty, logs, undelivered, pending, None) && pending <= rest + marked
      && rest <= logs.Keys && marked <= logs.Keys
    ensures AllKnown(build, entries, dirty + marked, logs, undelivered, rest, None)
  {
    forall other | other in logs ensures Known(build, entries, dirty + marked, logs, undelivered, other, rest, None) {
      assert Known(build, entries, dirty, logs, undelivered, other, pending, None);
    }
  }

  class Curator {
    const build: (Path, Content) -> Cached
    var entries: map<Path, Cached>
    var dirty: set<Path>
    var logs: map<Path, Content>
    var undelivered: multiset<Path>
    var turns: seq<Turn>

    /** The path's entry is the one its current log builds. */
    ghost predicate Fresh(path: Path)
      reads this
      requires path in logs
    {
      path in entries && entries[path] == build(path, logs[path])
    }

    ghost predicate Coherent(pending: set<Path>, held: Option<(Path, Cached)>)
      reads this
    {
      AllKnown(build, entries, dirty, logs, undelivered, pending, held)
    }

    ghost predicate Valid()
      reads this
    {
      Coherent({}, None)
    }

    /** The callback of the subscription. */
    method OnSignal(path: Path, ghost pending: set<Path>, ghost held: Option<(Path, Cached)>)
      requires Coherent(pending, held) && path in undelivered
      modifies this`dirty, this`undelivered
      ensures Coherent(pending, held) && dirty == old(dirty) + {path}
        && undelivered == old(undelivered) - multiset{path}
    {
      dirty := dirty + {path};
      undelivered := undelivered - multiset{path};
    }

    /** A topic changes: the subscription will hear of it. */
    method OnPublish(path: Path, content: Content, ghost pending: set<Path>, ghost held: Option<(Path, Cached)>)
      requires Coherent(pending, held)
      modifies this`logs, this`undelivered
      ensures Coherent(pending, held) && logs == old(logs)[path := content]
        && undelivered == old(undelivered) + multiset{path}
    {
      logs := logs[path := content];
      undelivered := undelivered + multiset{path};
    }

    /** Anything may happen between two steps of a refresh. */
    method Meanwhile(ghost pending: set<Path>, ghost held: Option<(Path, Cached)>) returns (fails: bool)
      requires Coherent(pending, held)
      modifies this`dirty, this`logs, this`undelivered, this`turns
      ensures Coherent(pending, held) && old(logs).Keys <= logs.Keys
      ensures old(turns) == [] ==>
        !fails && turns == [] && dirty == old(dirty) && logs == old(logs) && undelivered == old(undelivered)
    {
      fails := false;
      if turns != [] {
        var turn := turns[0];
        turns, fails := turns[1..], turn.fails;
        for i := 0 to |turn.events|
          invariant Coherent(pending, held) && old(logs).Keys <= logs.Keys
        {
          match turn.events[i]
          case Publish(path, content) => OnPublish(path, content, pending, held);
          case Deliver(path) => if path in undelivered { OnSignal(path, pending, held); }
        }
      }
    }

    /** No entry is dropped, and only those of `paths` are rewritten. */
    ghost predicate EntriesKept(before: map<Path, Cached>, after: map<Path, Cached>, paths: set<Path>) {
      && before.Keys <= after.Keys <= before.Keys + paths
      && forall path :: path in before && path !in paths ==> after[path] == before[path]
    }

    /** One path of a refresh: read it, then store the entry; if the read fails keep whatever there was and leave the
        path for the next sweep. */
    method RefreshOne(path: Path, ghost rest: set<Path>)
      requires Coherent(rest + {path}, None) && path in logs
      modifies this`entries, this`dirty, this`logs, this`undelivered, this`turns
      ensures Coherent(rest, None) && old(logs).Keys <= logs.Keys
      ensures EntriesKept(old(entries), entries, {path})
      ensures old(turns) == [] ==>
        turns == [] && dirty == old(dirty) && logs == old(logs) && undelivered == old(undelivered)
    {
      hide AllKnown;
      var fails := Meanwhile(rest + {path}, None);
      if fails {
        RestIsKnown(rest + {path});
        MarkedDirty(build, entries, dirty, logs, undelivered, rest, rest + {path}, {path});
        dirty := dirty + {path};
      } else {
        var cached := build(path, logs[path]);
        ReadHeld(build, entries, dirty, logs, undelivered, rest, path);
        var _ := Meanwhile(rest, Some((path, cached)));
        HeldStored(build, entries, dirty, logs, undelivered, rest, path, cached);
        entries := entries[path := cached];
      }
    }

    lemma RestIsKnown(pending: set<Path>)
      requires Coherent(pending, None)
      ensures pending <= logs.Keys
    {
      hide Known;
    }

    /** refresh: takes the dirty paths, then reads and stores each. However signals and publishes fall in between, and
        whichever reads fail, nothing goes silently stale; undisturbed it leaves every topic current. */
    method Refresh()
      requires Valid()
      modifies this`entries, this`dirty, this`logs, this`undelivered, this`turns
      ensures Valid()
      ensures old(logs).Keys <= logs.Keys && EntriesKept(old(entries), entries, old(dirty))
      ensures old(turns) == [] ==> turns == [] && dirty == {} && logs == old(logs) && undelivered == old(undelivered)
      ensures old(turns) == [] ==> forall path :: path in logs && path !in undelivered ==> Fresh(path)
    {
      var paths := dirty;
      dirty := {};
      while paths != {}
        invariant Coherent(paths, None) && old(logs).Keys <= logs.Keys
        invariant paths <= old(dirty) && EntriesKept(old(entries), entries, old(dirty))
        invariant old(turns) == [] ==>
          turns == [] && dirty == {} && logs == old(logs) && undelivered == old(undelivered)
        decreases |paths|
      {
        var path :| path in paths;
        assert paths - {path} + {path} == paths;
        RefreshOne(path, paths - {path});
        paths := paths - {path};
      }
    }

    constructor (build: (Path, Content) -> Cached, logs: map<Path, Content>, turns: seq<Turn>)
      ensures entries == map[] && dirty == {} && undelivered == multiset{} && this.build == build && this.logs == logs
        && this.turns == turns
    {
      this.build, this.logs, this.turns := build, logs, turns;
      entries, dirty, undelivered := map[], {}, multiset{};
    }

    /** newProjection: subscribes first, reads the board after, then refreshes. From the subscription on a change is
        signalled, and what stood before it is on the board: between the two nothing can slip through. */
    method Start()
      requires entries == map[] && dirty == {} && undelivered == multiset{}
      modifies this`entries, this`dirty, this`logs, this`undelivered, this`turns
      ensures Valid() && old(logs).Keys <= logs.Keys
      ensures old(turns) == [] ==> logs == old(logs) && dirty == {} && forall path :: path in logs ==> Fresh(path)
    {
      ghost var standing := logs.Keys;
      var _ := Meanwhile(standing, None);
      var board := logs.Keys;
      var _ := Meanwhile(standing, None);
      MarkedDirty(build, entries, dirty, logs, undelivered, {}, standing, board);
      dirty := dirty + board;
      Refresh();
    }
  }
}
