// The stamp that says a native library is built (HashStamp in src/bootstrap/native.rs), over runs that may crash.
module HashStampFile {
  import opened Basics

  type Hash = string

  /** A version of the sources; without git information it has no hash. */
  datatype Source = Source(version: nat, sha: Option<Hash>)

  /** The output directory: empty or half built, or holding the completed build of a source. */
  datatype Output = Incomplete | Built(source: Source)

  /** What survives a run: the stamp file, if it exists, and the output directory. */
  datatype Disk = Disk(stamp: Option<string>, output: Output)

  /** What is written into the stamp for a source. */
  function Content(hash: Option<Hash>): string {
    if hash.Some? then hash.value else ""
  }

  predicate IsDone(disk: Disk, hash: Option<Hash>) {
    disk.stamp == Some(Content(hash))
  }

  /** Where a run dies, if it does: around the removal, in the build, around or within the write. */
  datatype Crash = Never | BeforeRemove | AfterRemove | DuringBuild | BeforeWrite | DuringWrite(written: nat)

  /** One run over the source as it is then. */
  function AfterRun(disk: Disk, source: Source, crash: Crash): Disk {
    if IsDone(disk, source.sha) then disk
    else
      match crash
      case BeforeRemove => disk
      case AfterRemove => disk.(stamp := None)
      case DuringBuild => Disk(None, Incomplete)
      case BeforeWrite => Disk(None, Built(source))
      case DuringWrite(n) =>
        var content := Content(source.sha);
        Disk(Some(if n < |content| then content[..n] else content), Built(source))
      case Never => Disk(Some(Content(source.sha)), Built(source))
  }

  /** Runs, each over some source: the sources may change between runs in any way. */
  datatype Event = Event(source: Source, crash: Crash)

  function History(disk: Disk, events: seq<Event>): Disk {
    if events == [] then disk
    else
      var last := events[|events| - 1];
      AfterRun(History(disk, events[..|events| - 1]), last.source, last.crash)
  }

  /** Nothing has been built yet. */
  const EMPTY_DISK := Disk(None, Incomplete)

  // ---------------------------------------------------------------------------------------------
  // The run as the source has it.

  class BuildDirectory {
    var stamp: Option<string>
    var output: Output

    ghost function Model(): Disk
      reads this
    {
      Disk(stamp, output)
    }

    constructor ()
      ensures Model() == EMPTY_DISK
    {
      stamp, output := None, Incomplete;
    }

    /** is_done: a missing file is not done. */
    method Done(hash: Option<Hash>) returns (done: bool)
      ensures done <==> IsDone(Model(), hash)
    {
      if stamp.None? {
        return false;
      }
      return stamp.value == if hash.Some? then hash.value else "";
    }

    /** fs::write: the file is emptied first and filled byte by byte; the write stops after limit bytes. */
    method Write(content: string, limit: nat)
      modifies this`stamp
      ensures stamp == Some(if limit < |content| then content[..limit] else content)
    {
      var file := "";
      while |file| < |content| && |file| < limit
        invariant |file| <= |content| && |file| <= limit && file == content[..|file|]
      {
        file := file + [content[|file|]];
      }
      assert content[..|content|] == content;
      stamp := Some(file);
    }

    /** Llvm::run and Sanitizers::run: nothing to do if done; else remove the stamp, build, write the stamp. */
    method BuildAt(source: Source, crash: Crash) returns (finished: bool)
      modifies this
      ensures Model() == AfterRun(old(Model()), source, crash)
      ensures finished <==> IsDone(old(Model()), source.sha) || crash.Never?
    {
      var done := Done(source.sha);
      if done {
        return true;
      }
      if crash.BeforeRemove? {
        return false;
      }
      stamp := None;
      if crash.AfterRemove? {
        return false;
      }
      output := Incomplete;
      if crash.DuringBuild? {
        return false;
      }
      output := Built(source);
      if crash.BeforeWrite? {
        return false;
      }
      var content := if source.sha.Some? then source.sha.value else "";
      Write(content, if crash.DuringWrite? then crash.written else |content|);
      return crash.Never?;
    }
  }

  // ---------------------------------------------------------------------------------------------
  // Safety over all histories.

  /** A stamp file is a beginning of what belongs to a build that was completed. */
  predicate Honest(disk: Disk) {
    disk.stamp.Some? ==> disk.output.Built? && disk.stamp.value <= Content(disk.output.source.sha)
  }

  lemma RunStaysHonest(disk: Disk, source: Source, crash: Crash)
    requires Honest(disk)
    ensures Honest(AfterRun(disk, source, crash))
  {
  }

  lemma {:induction false} HistoryHonest(disk: Disk, events: seq<Event>)
    requires Honest(disk)
    ensures Honest(History(disk, events))
    decreases |events|
  {
    if events != [] {
      HistoryHonest(disk, events[..|events| - 1]);
      RunStaysHonest(History(disk, events[..|events| - 1]), events[|events| - 1].source, events[|events| - 1].crash);
    }
  }

  /** Only sources that were run over are ever in the output. */
  lemma {:induction false} OutputComesFromRuns(events: seq<Event>)
    ensures var disk := History(EMPTY_DISK, events);
      disk.output.Built? ==> exists i :: 0 <= i < |events| && events[i].source == disk.output.source
    decreases |events|
  {
    if events != [] {
      var last := |events| - 1;
      OutputComesFromRuns(events[..last]);
      var before := History(EMPTY_DISK, events[..last]);
      var disk := History(EMPTY_DISK, events);
      if disk.output.Built? {
        if disk.output == before.output {
          var i :| 0 <= i < last && events[..last][i].source == before.output.source;
          assert events[i].source == disk.output.source;
        } else {
          assert events[last].source == disk.output.source;
        }
      }
    }
  }

  /** No hash that occurs goes on beyond this one; hashes of one length, as those of git are, never do. */
  predicate NoLonger(events: seq<Event>, hash: Hash) {
    forall i :: 0 <= i < |events| && events[i].source.sha.Some? ==> !(hash < events[i].source.sha.value)
  }

  /** However runs, source changes and crashes follow each other: when the stamp says done for a hash, the output holds a
      completed build of a source with that very hash. */
  lemma DoneMeansBuilt(events: seq<Event>, hash: Hash)
    requires hash != "" && NoLonger(events, hash) && IsDone(History(EMPTY_DISK, events), Some(hash))
    ensures History(EMPTY_DISK, events).output.Built? && History(EMPTY_DISK, events).output.source.sha == Some(hash)
  {
    HistoryHonest(EMPTY_DISK, events);
    OutputComesFromRuns(events);
    var disk := History(EMPTY_DISK, events);
    var i :| 0 <= i < |events| && events[i].source == disk.output.source;
    assert !(hash < Content(events[i].source.sha));
  }

  /** And only so: a hash that goes on beyond this one, and a crash at the right byte of its write, leave a stamp that
      says done for a version never built. */
  lemma TruncationFools(source: Source, hash: Hash)
    requires source.sha.Some? && hash < source.sha.value
    ensures var disk := History(EMPTY_DISK, [Event(source, DuringWrite(|hash|))]);
      IsDone(disk, Some(hash)) && disk.output == Built(source) && source.sha != Some(hash)
  {
    var events := [Event(source, DuringWrite(|hash|))];
    assert events[..0] == [] && source.sha.value[..|hash|] == hash;
  }

  /** The sources of the runs have their hashes, if any, in a set. */
  predicate Over(hashes: set<Hash>, events: seq<Event>) {
    forall i :: 0 <= i < |events| && events[i].source.sha.Some? ==> events[i].source.sha.value in hashes
  }

  /** If the stamp says done for the hash after these events, the output holds a completed build of a source with it. */
  predicate DoneIsRight(events: seq<Event>, hash: Hash) {
    var disk := History(EMPTY_DISK, events);
    IsDone(disk, Some(hash)) ==> disk.output.Built? && disk.output.source.sha == Some(hash)
  }

  /** Exactly: done can be relied on for a hash after every history over a set of hashes if and only if the hash is not
      empty and none of the set goes on beyond it. */
  lemma DoneIsRightIff(hashes: set<Hash>, hash: Hash)
    ensures (forall events :: Over(hashes, events) ==> DoneIsRight(events, hash))
            <==> (hash != "" && forall h :: h in hashes ==> !(hash < h))
  {
    if hash == "" {
      var events := [Event(Source(1, None), Never)];
      assert events[..0] == [] && Over(hashes, events) && !DoneIsRight(events, hash);
    } else if h :| h in hashes && hash < h {
      TruncationFools(Source(1, Some(h)), hash);
      var events := [Event(Source(1, Some(h)), DuringWrite(|hash|))];
      assert Over(hashes, events) && !DoneIsRight(events, hash);
    } else {
      forall events | Over(hashes, events) ensures DoneIsRight(events, hash) {
        if IsDone(History(EMPTY_DISK, events), Some(hash)) {
          assert NoLonger(events, hash);
          DoneMeansBuilt(events, hash);
        }
      }
    }
  }

  /** Hashes of one positive length, as those of git are, can be relied on in every history. */
  lemma GitHashesAreRight(hashes: set<Hash>, hash: Hash, length: nat)
    requires length > 0 && |hash| == length && forall h :: h in hashes ==> |h| == length
    ensures forall events :: Over(hashes, events) ==> DoneIsRight(events, hash)
  {
    DoneIsRightIff(hashes, hash);
  }

  /** Without a hash, done means no more than that some build was completed. */
  lemma DoneWithoutHash(events: seq<Event>)
    requires IsDone(History(EMPTY_DISK, events), None)
    ensures History(EMPTY_DISK, events).output.Built?
  {
    HistoryHonest(EMPTY_DISK, events);
  }

  /** It may be a build of another version. */
  lemma StaleExample()
    ensures var disk := History(EMPTY_DISK, [Event(Source(1, None), Never), Event(Source(2, None), Never)]);
      IsDone(disk, None) && disk.output == Built(Source(1, None))
  {
    var events := [Event(Source(1, None), Never), Event(Source(2, None), Never)];
    assert events[..1] == [Event(Source(1, None), Never)];
    assert events[..1][..0] == [];
    assert History(EMPTY_DISK, events[..1]) == Disk(Some(""), Built(Source(1, None)));
  }

  /** A run that does not crash leaves the stamp done for its source, and one over the same hash then changes nothing. */
  lemma CompletedRunIsDone(disk: Disk, source: Source, again: Source, crash: Crash)
    requires again.sha == source.sha
    ensures IsDone(AfterRun(disk, source, Never), source.sha)
    ensures AfterRun(AfterRun(disk, source, Never), again, crash) == AfterRun(disk, source, Never)
  {
  }
}
