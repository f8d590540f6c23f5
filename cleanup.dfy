/**
  `cleanupOldFiles`: the walk over the downloads directory that deletes every
  entry older than a day. The directory is a map from file name to its
  modification time in milliseconds; the entries whose `statSync` or
  `unlinkSync` throws are an input, and such an entry is left where it is.
 */
module Cleanup {

  /** `24 * 60 * 60 * 1000`: one day in milliseconds. */
  const MaxAge: int := 24 * 60 * 60 * 1000

  /** `now - stat.mtimeMs > maxAge`: strictly older than a day. */
  predicate Expired(mtime: int, now: int)
  {
    now - mtime > MaxAge
  }

  /** The directory after a walk at time `now` in which the entries of `faulty` throw. */
  function Retained(dir: map<string, int>, now: int, faulty: set<string>): (kept: map<string, int>)
  {
    map k | k in dir && (k in faulty || !Expired(dir[k], now)) :: dir[k]
  }

  /** The downloads directory, updated in place by the cleanup walk. */
  class DownloadStore {
    var files: map<string, int>

    constructor(initial: map<string, int>)
      ensures files == initial
    {
      files := initial;
    }

    /** One walk over the listing, in whatever order it comes; a throwing entry is skipped. */
    method CleanupOldFiles(now: int, faulty: set<string>)
      modifies this
      ensures files == Retained(old(files), now, faulty)
    {
      ghost var start := files;
      var listing := files.Keys;
      while listing != {}
        invariant listing <= start.Keys
        invariant files == map k | k in start && (k in listing || k in faulty || !Expired(start[k], now)) :: start[k]
        decreases listing
      {
        var file :| file in listing;
        if file !in faulty && Expired(files[file], now) {
          files := files - {file};
        }
        listing := listing - {file};
      }
    }
  }

  /** Without failures, exactly the expired entries go and every other entry keeps its time. */
  lemma ExactlyExpiredRemoved(dir: map<string, int>, now: int)
    ensures forall k :: k in Retained(dir, now, {}) <==> k in dir && !Expired(dir[k], now)
    ensures forall k :: k in Retained(dir, now, {}) ==> Retained(dir, now, {})[k] == dir[k]
  {
  }

  /** An entry aged exactly one day survives; one a millisecond older does not. */
  lemma BoundaryIsStrict(name: string, now: int)
    ensures name in Retained(map[name := now - MaxAge], now, {})
    ensures name !in Retained(map[name := now - MaxAge - 1], now, {})
  {
  }

  /** A file modified 25 hours ago goes; one modified an hour ago stays. */
  lemma DayOldScenario(now: int)
    ensures Retained(map["old.mp4" := now - 25 * 60 * 60 * 1000, "new.mp4" := now - 60 * 60 * 1000], now, {})
         == map["new.mp4" := now - 60 * 60 * 1000]
  {
    var dir := map["old.mp4" := now - 25 * 60 * 60 * 1000, "new.mp4" := now - 60 * 60 * 1000];
    assert Expired(dir["old.mp4"], now) && !Expired(dir["new.mp4"], now);
    assert Retained(dir, now, {}).Keys == {"new.mp4"};
  }

  /** A throwing entry stays; every other entry meets the fate it would have in a walk without failures. */
  lemma FailureIsolation(dir: map<string, int>, now: int, faulty: set<string>)
    ensures forall k :: k in dir && k in faulty ==> k in Retained(dir, now, faulty)
    ensures forall k :: k !in faulty ==> (k in Retained(dir, now, faulty) <==> k in Retained(dir, now, {}))
  {
  }

  /**
    An expired entry survives two walks at the same time only if it threw in
    both; after a walk without failures a second one removes nothing.
   */
  lemma SecondWalk(dir: map<string, int>, now: int, first: set<string>, second: set<string>)
    ensures Retained(Retained(dir, now, first), now, second) == Retained(dir, now, first * second)
    ensures Retained(Retained(dir, now, {}), now, second) == Retained(dir, now, {})
  {
    var once := Retained(dir, now, first);
    var twice := Retained(once, now, second);
    var both := Retained(dir, now, first * second);
    assert twice.Keys == both.Keys;
    assert Retained(dir, now, {} * second) == Retained(dir, now, {});
  }

  /** A later walk removes at least what an earlier one would. */
  lemma LaterWalkRemovesMore(dir: map<string, int>, earlier: int, later: int, faulty: set<string>)
    requires earlier <= later
    ensures Retained(dir, later, faulty).Keys <= Retained(dir, earlier, faulty).Keys
  {
  }
}
