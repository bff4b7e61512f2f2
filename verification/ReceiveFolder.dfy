/**
 The file operations of a receiving transfer on one directory, while other processes add files
 to it. Other processes never touch a staging name (`guarded`) and never replace a file; they
 may run wherever an operation here suspends or enters the kernel.
 */
module ReceiveFolder {
  import opened Wrappers
  import opened Wire
  import opened CollisionNames
  import opened FreeNames
  import opened Receiver

  /** What a no-replace move can come to. */
  datatype Move = Moved | AlreadyExists | MoveFailed(error: TransferError)

  // ----- what operations and other processes do to a folder -------------

  function Plus(d: Folder, added: map<string, Bytes>): Folder
  {
    Folder(d.files + added, d.foreign + added)
  }

  /** Other processes may add these files: new names only, and no staging name. */
  ghost predicate Addable(d: Folder, guarded: set<string>, added: map<string, Bytes>)
  {
    added.Keys !! d.files.Keys && added.Keys !! guarded
  }

  /** A path the search passes over. */
  predicate Taken(p: Policy, d: Folder, used: set<string>, path: string)
  {
    path in d.files || p.key(path) in used
  }

  predicate Movable(d: Folder, source: string, destination: string)
  {
    source in d.files && destination !in d.files
  }

  /** The file at `source` is now at `destination`, where there was none. */
  function MovedTo(d: Folder, source: string, destination: string): Folder
    requires Movable(d, source, destination)
  {
    d.(files := Without(d.files, {source})[destination := d.files[source]])
  }

  /** A failed move left a second name of the source behind. */
  function LinkedTo(d: Folder, source: string, destination: string): Folder
    requires Movable(d, source, destination)
  {
    d.(files := d.files[destination := d.files[source]])
  }

  function Removed(d: Folder, names: set<string>): Folder { d.(files := Without(d.files, names)) }

  lemma NothingAdded(d: Folder, guarded: set<string>)
    ensures Plus(d, map[]) == d && Addable(d, guarded, map[])
  {
    assert d.files + map[] == d.files && d.foreign + map[] == d.foreign;
  }

  lemma AdditionsCompose(
    d: Folder, guarded: set<string>, first: map<string, Bytes>, second: map<string, Bytes>)
    requires Addable(d, guarded, first) && Addable(Plus(d, first), guarded, second)
    ensures Addable(d, guarded, first + second)
    ensures Plus(Plus(d, first), second) == Plus(d, first + second)
  {
    assert d.files + first + second == d.files + (first + second);
    assert d.foreign + first + second == d.foreign + (first + second);
  }

  /** Other processes only take more paths. */
  lemma TakenStays(p: Policy, d: Folder, used: set<string>, name: string, i: nat, added: map<string, Bytes>)
    requires forall k: nat :: k < i ==> Taken(p, d, used, Candidate(name, k))
    ensures forall k: nat :: k < i ==> Taken(p, Plus(d, added), used, Candidate(name, k))
  {
    hide Candidate;
  }

  lemma StaysThere(d: Folder, added: map<string, Bytes>, guarded: set<string>, name: string)
    requires name in d.files && Addable(d, guarded, added)
    ensures name in Plus(d, added).files && Plus(d, added).files[name] == d.files[name]
  {
  }

  lemma LinkedFiles(d: Folder, source: string, destination: string)
    requires Movable(d, source, destination)
    ensures LinkedTo(d, source, destination) == Folder(d.files[destination := d.files[source]], d.foreign)
  {
  }

  /** A link that outlived its source is a move, whatever was added meanwhile. */
  lemma LinkThenRemove(
    d: Folder, source: string, destination: string, guarded: set<string>, added: map<string, Bytes>)
    requires Movable(d, source, destination)
    requires Addable(LinkedTo(d, source, destination), guarded, added)
    ensures Addable(d, guarded, added) && Movable(Plus(d, added), source, destination)
    ensures var linked := Plus(LinkedTo(d, source, destination), added);
            && linked == LinkedTo(Plus(d, added), source, destination)
            && Removed(linked, {source}) == MovedTo(Plus(d, added), source, destination)
            && Removed(linked, {destination}) == Plus(d, added)
  {
    hide Without;
    var seen := d.files + added;
    var linked := d.files[destination := d.files[source]] + added;
    assert linked == seen[destination := seen[source]];
    LinkTakenBack(seen, source, destination);
  }

  lemma LinkTakenBack(files: map<string, Bytes>, source: string, destination: string)
    requires source in files && destination !in files
    ensures var linked := files[destination := files[source]];
            && Without(linked, {source}) == Without(files, {source})[destination := files[source]]
            && Without(linked, {destination}) == files
  {
  }

  /** Removing what nobody else can have put there commutes with what others added. */
  lemma RemoveAfterAdditions(
    d: Folder, guarded: set<string>, gone: set<string>, name: string, added: map<string, Bytes>)
    requires Addable(Removed(d, gone), guarded, added) && name !in added
    ensures Addable(Removed(d, gone + {name}), guarded, added)
    ensures Removed(Plus(Removed(d, gone), added), {name}) == Plus(Removed(d, gone + {name}), added)
  {
    assert Without(Without(d.files, gone) + added, {name}) == Without(d.files, gone + {name}) + added;
  }

  lemma NothingRemoved(d: Folder)
    ensures Removed(d, {}) == d
  {
    assert Without(d.files, {}) == d.files;
  }

  /** The name tried at one position of the search. */
  method CandidateName(name: string, stem: string, extension: Option<string>, index: nat) returns (r: string)
    requires stem == FileStem(name) && extension == Extension(name)
    ensures r == Candidate(name, index)
  {
    if index == 0 {
      return name;
    }
    r := MakeCollisionName(stem, if extension.Some? then extension.value else "", index);
  }

  /** If the key tells the variants of the name apart, a search fails only among 100,000 taken keys. */
  lemma FailedSearchMeansFull(p: Policy, d: Folder, used: set<string>, name: string)
    requires Separated(p, name)
    requires forall k: nat :: k <= MAX_COLLISION_ATTEMPTS ==> Taken(p, d, used, Candidate(name, k))
    ensures |Keys(p, d.files.Keys) + used| >= MAX_COLLISION_ATTEMPTS
  {
    hide Candidate, Separated;
    forall k: nat | 1 <= k <= MAX_COLLISION_ATTEMPTS
      ensures Candidate(name, k) in d.files.Keys || p.key(Candidate(name, k)) in used
    {
      assert Taken(p, d, used, Candidate(name, k));
    }
    ExhaustedMeansFullKeys(p, name, d.files.Keys, used);
  }

  // ----- what finalization promises ------------------------------------

  /** The path to try next is the reserved one or a variant whose key was free. */
  ghost predicate Reserved(
    p: Policy, staged: Staged, used: set<string>, path: string, variant: Option<nat>, reserved: set<string>)
  {
    match variant
    case None => path == staged.finalPath
    case Some(k) =>
      k <= MAX_COLLISION_ATTEMPTS && path == Candidate(staged.name, k) &&
      p.key(path) !in used && p.key(path) in reserved
  }

  ghost predicate FinalizedTo(
    p: Policy, was: Folder, now: Folder, staged: Staged, used: set<string>, after: Staged,
    variant: Option<nat>, reserved: set<string>, added: map<string, Bytes>)
  {
    && after == staged.(finalPath := after.finalPath)
    && Reserved(p, staged, used, after.finalPath, variant, reserved)
    && Movable(Plus(was, added), staged.temporary, after.finalPath)
    && now == MovedTo(Plus(was, added), staged.temporary, after.finalPath)
  }

  ghost predicate FinalizeFailure(
    was: Folder, now: Folder, temporary: string, e: TransferError, copy: Option<string>, added: map<string, Bytes>)
  {
    && IsFileError(e)
    && match copy
       case None => now == Plus(was, added)
       case Some(path) =>
         Movable(Plus(was, added), temporary, path) && now == LinkedTo(Plus(was, added), temporary, path)
  }

  lemma FreshKey(p: Policy, d: Folder, used: set<string>, path: string)
    requires !Taken(p, d, used, path)
    ensures p.key(path) !in used
  {
  }

  lemma GuardedNotAdded(d: Folder, guarded: set<string>, added: map<string, Bytes>, name: string)
    requires Addable(d, guarded, added) && name in guarded
    ensures name !in added
  {
  }

  /** A name of ours that was not removed yet is still ours. */
  lemma StillThere(d: Folder, guarded: set<string>, gone: set<string>, added: map<string, Bytes>, name: string)
    requires Addable(Removed(d, gone), guarded, added) && name !in gone
    requires name in d.files || name in guarded
    ensures name !in added && (name in Plus(Removed(d, gone), added).files || name in guarded)
  {
  }

  // ----- attempts to remove ----------------------------------------------

  /** What the kernel answered to one attempt to remove a name. */
  datatype Attempt = Attempt(name: string, ok: bool)

  function GoneIn(log: seq<Attempt>): set<string>
  {
    set k | 0 <= k < |log| && log[k].ok :: log[k].name
  }

  predicate Refused(log: seq<Attempt>) { exists k :: 0 <= k < |log| && !log[k].ok }

  function Refusals(log: seq<Attempt>, name: string): nat
  {
    if log == [] then 0
    else Refusals(log[..|log| - 1], name) + if log[|log| - 1] == Attempt(name, false) then 1 else 0
  }

  /** One name: up to three attempts, the last one successful or the third. */
  predicate RetryRun(name: string, log: seq<Attempt>)
  {
    && 1 <= |log| <= 3 && (forall k :: 0 <= k < |log| ==> log[k].name == name)
    && (forall k :: 0 <= k < |log| - 1 ==> !log[k].ok)
    && (log[|log| - 1].ok || |log| == 3)
  }

  /** The staging names in order, each with its attempts. */
  ghost predicate CleanupRun(staged: seq<Staged>, log: seq<Attempt>)
    decreases |staged|, 1
  {
    if staged == [] then log == []
    else exists n: nat :: n <= |log| && OneMoreRun(staged, log, n)
  }

  ghost predicate OneMoreRun(staged: seq<Staged>, log: seq<Attempt>, n: nat)
    requires staged != [] && n <= |log|
    decreases |staged|, 0
  {
    CleanupRun(staged[..|staged| - 1], log[..n]) && RetryRun(staged[|staged| - 1].temporary, log[n..])
  }

  /** The finalized names, last first, one attempt each. */
  predicate RollbackRun(finalized: seq<string>, log: seq<Attempt>)
  {
    |log| == |finalized| && forall k :: 0 <= k < |log| ==> log[k].name == finalized[|finalized| - 1 - k]
  }

  lemma GoneInAppend(log: seq<Attempt>, a: Attempt)
    ensures GoneIn(log + [a]) == GoneIn(log) + if a.ok then {a.name} else {}
  {
    var both := log + [a];
    assert both[|log|] == a;
    forall x | x in GoneIn(log) ensures x in GoneIn(both) {
      var k :| 0 <= k < |log| && log[k].ok && log[k].name == x;
      assert both[k] == log[k];
    }
  }

  lemma GoneInPrefix(log: seq<Attempt>, n: nat)
    requires n <= |log|
    ensures GoneIn(log[..n]) <= GoneIn(log)
  {
    forall x | x in GoneIn(log[..n]) ensures x in GoneIn(log) {
      var k :| 0 <= k < n && log[k].ok && log[k].name == x;
      assert log[k].name == x;
    }
  }

  lemma RefusedAppend(log: seq<Attempt>, more: seq<Attempt>)
    ensures Refused(log + more) <==> Refused(log) || Refused(more)
  {
    var both := log + more;
    assert forall k :: 0 <= k < |log| ==> both[k] == log[k];
    assert forall k :: 0 <= k < |more| ==> both[|log| + k] == more[k];
    if Refused(both) {
      var k :| 0 <= k < |both| && !both[k].ok;
      assert if k < |log| then !log[k].ok else !more[k - |log|].ok;
    }
  }

  lemma {:induction false} RefusalsAppend(log: seq<Attempt>, more: seq<Attempt>, name: string)
    ensures Refusals(log + more, name) == Refusals(log, name) + Refusals(more, name)
    decreases |more|
  {
    if more == [] {
      assert log + more == log;
    } else {
      var front := more[..|more| - 1];
      assert (log + more)[..|log + more| - 1] == log + front;
      RefusalsAppend(log, front, name);
    }
  }

  lemma ThreeRefusals(name: string, log: seq<Attempt>)
    requires RetryRun(name, log) && name !in GoneIn(log)
    ensures Refusals(log, name) == 3
  {
    var a := Attempt(name, false);
    assert log[|log| - 1] == a;
    assert log == [a, a, a] && log[..2] == [a, a] && [a, a][..1] == [a] && [a][..0] == [];
    assert Refusals([a], name) == 1 && Refusals([a, a], name) == 2;
  }

  /** A staging file survives the clean-up only if its removal was refused three times. */
  lemma {:induction false} KeptWasRefusedThrice(staged: seq<Staged>, log: seq<Attempt>, name: string)
    requires CleanupRun(staged, log) && name in Temporaries(staged) && name !in GoneIn(log)
    ensures Refusals(log, name) >= 3
    decreases |staged|
  {
    hide RetryRun, Refusals;
    var front, last := staged[..|staged| - 1], staged[|staged| - 1];
    var n: nat :| n <= |log| && OneMoreRun(staged, log, n);
    assert log == log[..n] + log[n..];
    RefusalsAppend(log[..n], log[n..], name);
    if last.temporary == name {
      assert name !in GoneIn(log[n..]) by {
        forall k | 0 <= k < |log[n..]| && log[n..][k].ok ensures log[n..][k].name != name {
          assert log[n + k].name in GoneIn(log);
        }
      }
      ThreeRefusals(name, log[n..]);
    } else {
      GoneInPrefix(log, n);
      var i :| 0 <= i < |staged| && staged[i].temporary == name;
      assert front[i].temporary == name;
      KeptWasRefusedThrice(front, log[..n], name);
    }
  }

  /** A finalized file survives the roll-back only if its removal was refused. */
  lemma KeptWasRefused(finalized: seq<string>, log: seq<Attempt>, name: string)
    requires RollbackRun(finalized, log) && name in NameSet(finalized) && name !in GoneIn(log)
    ensures Refusals(log, name) >= 1
  {
    var i :| 0 <= i < |finalized| && finalized[i] == name;
    var k := |finalized| - 1 - i;
    assert log[k] == Attempt(name, false) by {
      assert log[k].name == name;
    }
    RefusedCounts(log, k);
  }

  lemma {:induction false} RefusedCounts(log: seq<Attempt>, k: nat)
    requires k < |log| && !log[k].ok
    ensures Refusals(log, log[k].name) >= 1
    decreases |log|
  {
    if k < |log| - 1 {
      RefusedCounts(log[..|log| - 1], k);
    }
  }

  lemma {:induction false} CountedIsRefused(log: seq<Attempt>, name: string)
    requires Refusals(log, name) >= 1
    ensures Refused(log)
  {
    if log[|log| - 1] != Attempt(name, false) {
      CountedIsRefused(log[..|log| - 1], name);
      var k :| 0 <= k < |log| - 1 && !log[..|log| - 1][k].ok;
      assert !log[k].ok;
    }
  }

  lemma NothingSucceeded()
    ensures GoneIn([]) == {}
  {
  }

  lemma CleanupRunAppend(staged: seq<Staged>, x: Staged, log: seq<Attempt>, run: seq<Attempt>)
    requires CleanupRun(staged, log) && RetryRun(x.temporary, run)
    ensures CleanupRun(staged + [x], log + run)
  {
    hide RetryRun;
    var both := staged + [x];
    assert both[..|both| - 1] == staged && (log + run)[..|log|] == log && (log + run)[|log|..] == run;
    assert OneMoreRun(both, log + run, |log|);
  }

  lemma RunSucceeds(name: string, log: seq<Attempt>, run: seq<Attempt>)
    requires RetryRun(name, run)
    ensures GoneIn(log + run) <= GoneIn(log) + {name}
  {
    var both := log + run;
    forall x | x in GoneIn(both) ensures x in GoneIn(log) + {name} {
      var k :| 0 <= k < |both| && both[k].ok && both[k].name == x;
      if k < |log| {
        assert log[k].name == x;
      } else {
        assert run[k - |log|].name == name;
      }
    }
  }

  /** Nothing is kept unless something was refused. */
  lemma KeptOnlyIfRefused(staged: seq<Staged>, finalized: seq<string>, log: seq<Attempt>)
    ensures CleanupRun(staged, log) && Temporaries(staged) - GoneIn(log) != {} ==> Refused(log)
    ensures RollbackRun(finalized, log) && NameSet(finalized) - GoneIn(log) != {} ==> Refused(log)
  {
    if CleanupRun(staged, log) && Temporaries(staged) - GoneIn(log) != {} {
      var t :| t in Temporaries(staged) - GoneIn(log);
      KeptWasRefusedThrice(staged, log, t);
      CountedIsRefused(log, t);
    }
    if RollbackRun(finalized, log) && NameSet(finalized) - GoneIn(log) != {} {
      var t :| t in NameSet(finalized) - GoneIn(log);
      KeptWasRefused(finalized, log, t);
      CountedIsRefused(log, t);
    }
  }

  // ----- the directory ---------------------------------------------------

  /** What a move came to, after `added` by other processes. */
  ghost predicate MoveResult(
    was: Folder, now: Folder, source: string, destination: string, r: Move, copied: bool, added: map<string, Bytes>)
  {
    var seen := Plus(was, added);
    match r
    case Moved => !copied && Movable(seen, source, destination) && now == MovedTo(seen, source, destination)
    case AlreadyExists => !copied && now == seen && destination in seen.files
    case MoveFailed(e) =>
      && IsFileError(e)
      && (if copied then Movable(seen, source, destination) && now == LinkedTo(seen, source, destination)
          else now == seen)
  }

  lemma NothingMoved(d: Folder, source: string, destination: string, e: TransferError)
    requires IsFileError(e)
    ensures destination in d.files ==> MoveResult(d, d, source, destination, AlreadyExists, false, map[])
    ensures MoveResult(d, d, source, destination, MoveFailed(e), false, map[])
  {
    NothingAdded(d, {});
  }

  /** A second link is taken and others have added files: what removing one of the links comes to. */
  lemma LinkOutcomes(
    d: Folder, source: string, destination: string, guarded: set<string>, added: map<string, Bytes>, e: TransferError)
    requires Movable(d, source, destination) && IsFileError(e)
    requires Addable(LinkedTo(d, source, destination), guarded, added)
    ensures Addable(d, guarded, added)
    ensures var linked := Plus(LinkedTo(d, source, destination), added);
            && MoveResult(d, Removed(linked, {source}), source, destination, Moved, false, added)
            && MoveResult(d, Removed(linked, {destination}), source, destination, MoveFailed(e), false, added)
            && MoveResult(d, linked, source, destination, MoveFailed(e), true, added)
  {
    hide MovedTo, LinkedTo, Removed, Without, IsFileError, Addable, Plus, Movable;
    LinkThenRemove(d, source, destination, guarded, added);
  }

  /**
   The directory. `attempts` is the history of removals with the kernel's answers, `faults` counts
   the moves, links, creations and writes that failed, `collisions` the moves onto a taken name.
   */
  class Directory {
    var files: map<string, Bytes>
    var guarded: set<string>
    ghost var foreign: map<string, Bytes>
    ghost var attempts: seq<Attempt>
    ghost var faults: nat
    ghost var collisions: nat

    ghost function Now(): Folder
      reads this`files, this`foreign
    {
      Folder(files, foreign)
    }

    constructor (present: map<string, Bytes>)
      ensures Now() == Folder(present, present) && guarded == {} && attempts == [] && faults == 0 && collisions == 0
    {
      files, foreign, guarded, attempts, faults, collisions := present, present, {}, [], 0, 0;
    }

    /** Other processes run. */
    method Interfere() returns (ghost added: map<string, Bytes>)
      modifies this`files, this`foreign
      ensures Addable(old(Now()), guarded, added) && Now() == Plus(old(Now()), added)
    {
      var news: map<string, Bytes> := *;
      added := map[];
      NothingAdded(Now(), guarded);
      if news.Keys !! files.Keys && news.Keys !! guarded {
        files, foreign, added := files + news, foreign + news, news;
      }
    }

    /**
     `available_destination_path`: the first candidate that neither exists nor shares its key
     with a path of the batch. `used` grows by that key, and only then.
     */
    method AvailableDestinationPath(p: Policy, name: string, used: set<string>)
      returns (path: Option<string>, usedNow: set<string>, ghost index: nat, ghost added: map<string, Bytes>)
      modifies this`files, this`foreign
      ensures Addable(old(Now()), guarded, added) && Now() == Plus(old(Now()), added)
      ensures path.Some? ==>
                && index <= MAX_COLLISION_ATTEMPTS && path.value == Candidate(name, index)
                && !Taken(p, Now(), used, path.value) && usedNow == used + {p.key(path.value)}
                && forall k: nat :: k < index ==> Taken(p, Now(), used, Candidate(name, k))
      ensures path.None? ==>
                && usedNow == used
                && forall k: nat :: k <= MAX_COLLISION_ATTEMPTS ==> Taken(p, Now(), used, Candidate(name, k))
    {
      hide Candidate, FileStem, Extension, Addable, Plus;
      var stem, extension := FileStem(name), Extension(name);
      added, index := map[], 0;
      NothingAdded(Now(), guarded);
      for i := 0 to MAX_COLLISION_ATTEMPTS + 1
        invariant Addable(old(Now()), guarded, added) && Now() == Plus(old(Now()), added)
        invariant forall k: nat :: k < i ==> Taken(p, Now(), used, Candidate(name, k))
      {
        var candidate := CandidateName(name, stem, extension, i);
        ghost var before := Now();
        ghost var news := Interfere();
        AdditionsCompose(old(Now()), guarded, added, news);
        TakenStays(p, before, used, name, i, news);
        added, index := added + news, i;
        if candidate !in files && p.key(candidate) !in used {
          return Some(candidate), used + {p.key(candidate)}, index, added;
        }
      }
      return None, used, index, added;
    }

    /** One kernel operation: the platform's move that never replaces a file. */
    method MoveWithoutOverwrite(source: string, destination: string)
      returns (r: Move, unsupported: bool)
      requires source in files
      modifies this`files, this`faults, this`collisions
      ensures r == Moved ==>
                Movable(old(Now()), source, destination) && Now() == MovedTo(old(Now()), source, destination)
      ensures r != Moved ==> Now() == old(Now())
      ensures r == AlreadyExists ==> destination in files
      ensures r.MoveFailed? ==> IsFileError(r.error)
      ensures faults == old(faults) + if r.MoveFailed? then 1 else 0
      ensures collisions == old(collisions) + if r == AlreadyExists then 1 else 0
    {
      var possible: bool := *;
      unsupported := *;
      if !possible {
        var full: bool := *;
        faults := faults + 1;
        r := MoveFailed(if full then DiskFull else Destination);
      } else if destination in files {
        collisions := collisions + 1;
        r, unsupported := AlreadyExists, false;
      } else {
        files := Without(files, {source})[destination := files[source]];
        r, unsupported := Moved, false;
      }
    }

    /** The fallback of a filesystem without such a move: a second link, then the first one removed. */
    method LinkAndRemove(source: string, destination: string, e: TransferError)
      returns (r: Move, ghost copied: bool, ghost added: map<string, Bytes>)
      requires source in files && source in guarded && IsFileError(e)
      modifies this`files, this`foreign, this`attempts, this`faults, this`collisions
      ensures Addable(old(Now()), guarded, added)
      ensures MoveResult(old(Now()), Now(), source, destination, r, copied, added)
      ensures old(attempts) <= attempts && faults >= old(faults)
      ensures r == AlreadyExists <==> collisions == old(collisions) + 1
      ensures r != AlreadyExists ==> collisions == old(collisions)
      ensures copied ==> attempts == old(attempts) + [Attempt(source, false), Attempt(destination, false)]
    {
      hide MoveResult, MovedTo, LinkedTo, Removed, Without, IsFileError, Addable, Plus;
      NothingAdded(Now(), guarded);
      NothingMoved(Now(), source, destination, e);
      var linked: bool := *;
      if destination in files {
        collisions := collisions + 1;
        return AlreadyExists, false, map[];
      }
      if !linked {
        faults := faults + 1;
        return MoveFailed(e), false, map[];
      }
      ghost var was := Now();
      files := files[destination := files[source]];
      LinkedFiles(was, source, destination);
      ghost var links := Now();
      added := Interfere();
      LinkOutcomes(was, source, destination, guarded, added, e);
      var removed := Remove(source);
      if removed {
        return Moved, false, added;
      }
      ghost var news := Interfere();
      AdditionsCompose(links, guarded, added, news);
      added := added + news;
      LinkOutcomes(was, source, destination, guarded, added, e);
      var takenBack := Remove(destination);
      return MoveFailed(e), !takenBack, added;
    }

    /** One kernel operation: the name is gone afterwards, or the kernel refused. */
    method Remove(name: string) returns (ok: bool)
      modifies this`files, this`attempts
      ensures attempts == old(attempts) + [Attempt(name, ok)]
      ensures Now() == if ok then Removed(old(Now()), {name}) else old(Now())
    {
      ok := *;
      attempts := attempts + [Attempt(name, ok)];
      if ok {
        files := Without(files, {name});
      }
    }

    /** `move_staged_file`. */
    method MoveStagedFile(source: string, destination: string)
      returns (r: Move, ghost copied: bool, ghost added: map<string, Bytes>)
      requires source in files && source in guarded
      modifies this`files, this`foreign, this`attempts, this`faults, this`collisions
      ensures Addable(old(Now()), guarded, added)
      ensures MoveResult(old(Now()), Now(), source, destination, r, copied, added)
      ensures old(attempts) <= attempts && faults >= old(faults) + if r.MoveFailed? then 1 else 0
      ensures collisions == old(collisions) + if r == AlreadyExists then 1 else 0
      ensures copied ==> attempts == old(attempts) + [Attempt(source, false), Attempt(destination, false)]
    {
      hide MovedTo, LinkedTo, Without, IsFileError, Addable, Plus;
      added := Interfere();
      copied := false;
      StaysThere(old(Now()), added, guarded, source);
      var unsupported: bool;
      r, unsupported := MoveWithoutOverwrite(source, destination);
      if r.MoveFailed? && unsupported {
        ghost var news;
        r, copied, news := LinkAndRemove(source, destination, r.error);
        AdditionsCompose(old(Now()), guarded, added, news);
        added := added + news;
      }
    }

    /**
     `finalize_staged_file`: to the reserved path, or, each time another process got there first,
     to the next free variant. `reserved` are the keys claimed on the way.
     */
    method FinalizeStagedFile(p: Policy, staged: Staged, used: set<string>)
      returns (r: Result<Staged, TransferError>, usedNow: set<string>, ghost variant: Option<nat>,
               ghost reserved: set<string>, ghost copy: Option<string>, ghost added: map<string, Bytes>)
      requires staged.temporary in files && staged.temporary in guarded
      modifies this`files, this`foreign, this`attempts, this`faults, this`collisions
      ensures Addable(old(Now()), guarded, added) && usedNow == used + reserved
      ensures r.Ok? ==>
                FinalizedTo(p, old(Now()), Now(), staged, used, r.value, variant, reserved, added) && copy == None
      ensures r.Err? ==> FinalizeFailure(old(Now()), Now(), staged.temporary, r.error, copy, added)
      ensures r.Err? ==>
                || faults > old(faults) || collisions > old(collisions) + MAX_COLLISION_ATTEMPTS
                || forall k: nat :: k <= MAX_COLLISION_ATTEMPTS ==> Taken(p, Now(), usedNow, Candidate(staged.name, k))
      ensures old(attempts) <= attempts
      ensures copy.Some? ==>
                && |old(attempts)| + 2 <= |attempts|
                && attempts[|attempts| - 2..] == [Attempt(staged.temporary, false), Attempt(copy.value, false)]
    {
      hide MovedTo, LinkedTo, Addable, Plus, Candidate, Movable, Taken;
      added, variant, reserved, copy, usedNow := map[], None, {}, None, used;
      var finalPath := staged.finalPath;
      NothingAdded(Now(), guarded);
      for index := 0 to MAX_COLLISION_ATTEMPTS + 1
        invariant Addable(old(Now()), guarded, added) && Now() == Plus(old(Now()), added)
        invariant usedNow == used + reserved && copy == None
        invariant Reserved(p, staged, used, finalPath, variant, reserved)
        invariant old(attempts) <= attempts && faults >= old(faults) && collisions == old(collisions) + index
      {
        StaysThere(old(Now()), added, guarded, staged.temporary);
        var moved: Move;
        ghost var copied, news;
        moved, copied, news := MoveStagedFile(staged.temporary, finalPath);
        AdditionsCompose(old(Now()), guarded, added, news);
        added := added + news;
        match moved {
          case Moved =>
            return Ok(staged.(finalPath := finalPath)), usedNow, variant, reserved, None, added;
          case MoveFailed(e) =>
            return Err(e), usedNow, variant, reserved, if copied then Some(finalPath) else None, added;
          case AlreadyExists =>
            if index == MAX_COLLISION_ATTEMPTS {
              break;
            }
            var path: Option<string>;
            ghost var k;
            path, usedNow, k, news := AvailableDestinationPath(p, staged.name, usedNow);
            AdditionsCompose(old(Now()), guarded, added, news);
            added := added + news;
            if path.None? {
              return Err(Destination), usedNow, variant, reserved, None, added;
            }
            assert p.key(path.value) !in used + reserved by { FreshKey(p, Now(), used + reserved, path.value); }
            finalPath, variant, reserved := path.value, Some(k), reserved + {p.key(path.value)};
        }
      }
      return Err(Destination), usedNow, variant, reserved, None, added;
    }

    /** One attempt to delete a file; other processes may run before it. */
    method TryRemove(name: string) returns (ok: bool, ghost added: map<string, Bytes>)
      requires name in files || name in guarded
      modifies this`files, this`foreign, this`attempts
      ensures Addable(old(Now()), guarded, added) && name !in added
      ensures attempts == old(attempts) + [Attempt(name, ok)]
      ensures Now() == if ok then Removed(Plus(old(Now()), added), {name}) else Plus(old(Now()), added)
    {
      added := Interfere();
      ok := Remove(name);
    }

    /** Up to three attempts at one staging file. */
    method RemoveWithRetries(name: string, ghost was: Folder, ghost log: seq<Attempt>, ghost before: map<string, Bytes>)
      returns (ghost run: seq<Attempt>, ghost added: map<string, Bytes>)
      requires name in guarded && Addable(Removed(was, GoneIn(log)), guarded, before)
      requires Now() == Plus(Removed(was, GoneIn(log)), before)
      modifies this`files, this`foreign, this`attempts
      ensures attempts == old(attempts) + run && RetryRun(name, run)
      ensures Addable(Removed(was, GoneIn(log + run)), guarded, added)
      ensures Now() == Plus(Removed(was, GoneIn(log + run)), added)
    {
      hide Addable, Plus, Removed, GoneIn;
      run, added := [], before;
      assert log + run == log;
      var attempt, ok := 0, false;
      while attempt < 3 && !ok
        invariant attempt <= 3 && |run| == attempt && attempts == old(attempts) + run && (ok ==> attempt > 0)
        invariant forall k :: 0 <= k < |run| ==> run[k] == Attempt(name, ok && k == |run| - 1)
        invariant Addable(Removed(was, GoneIn(log + run)), guarded, added)
        invariant Now() == Plus(Removed(was, GoneIn(log + run)), added)
      {
        ghost var news;
        ok, news := TryRemove(name);
        AdditionsCompose(Removed(was, GoneIn(log + run)), guarded, added, news);
        added := added + news;
        GoneInAppend(log + run, Attempt(name, ok));
        assert log + run + [Attempt(name, ok)] == log + (run + [Attempt(name, ok)]);
        if ok {
          GuardedNotAdded(Removed(was, GoneIn(log + run)), guarded, added, name);
          RemoveAfterAdditions(was, guarded, GoneIn(log + run), name, added);
        } else {
          assert GoneIn(log + run) + {} == GoneIn(log + run);
        }
        run := run + [Attempt(name, ok)];
        attempt := attempt + 1;
      }
    }

    /**
     `cleanup_staged`: the staging files in order, up to three attempts each; exactly those whose
     removal succeeded are gone, and whatever is kept was refused three times.
     */
    method CleanupStaged(staged: seq<Staged>)
      returns (ghost kept: set<string>, ghost added: map<string, Bytes>, ghost log: seq<Attempt>)
      requires Temporaries(staged) <= guarded
      modifies this`files, this`foreign, this`attempts
      ensures attempts == old(attempts) + log && CleanupRun(staged, log)
      ensures kept == Temporaries(staged) - GoneIn(log) && forall t :: t in kept ==> Refusals(log, t) >= 3
      ensures Addable(Removed(old(Now()), Temporaries(staged) - kept), guarded, added)
      ensures Now() == Plus(Removed(old(Now()), Temporaries(staged) - kept), added)
    {
      hide Addable, Plus, Removed, GoneIn, RetryRun, Refusals;
      log, added := [], map[];
      NothingSucceeded();
      NothingRemoved(Now());
      NothingAdded(Now(), guarded);
      for i := 0 to |staged|
        invariant attempts == old(attempts) + log && CleanupRun(staged[..i], log)
        invariant GoneIn(log) <= Temporaries(staged)
        invariant Addable(Removed(old(Now()), GoneIn(log)), guarded, added)
        invariant Now() == Plus(Removed(old(Now()), GoneIn(log)), added)
      {
        assert staged[i].temporary in Temporaries(staged);
        ghost var run;
        run, added := RemoveWithRetries(staged[i].temporary, old(Now()), log, added);
        CleanupRunAppend(staged[..i], staged[i], log, run);
        RunSucceeds(staged[i].temporary, log, run);
        assert staged[..i + 1] == staged[..i] + [staged[i]];
        log := log + run;
      }
      assert staged[..|staged|] == staged;
      kept := Temporaries(staged) - GoneIn(log);
      assert Temporaries(staged) - kept == GoneIn(log);
      forall t | t in kept ensures Refusals(log, t) >= 3 {
        KeptWasRefusedThrice(staged, log, t);
      }
    }

    /**
     `rollback_finalized`: the last file first, one attempt each; exactly those whose removal
     succeeded are gone.
     */
    method RollbackFinalized(finalized: seq<string>)
      returns (ghost kept: set<string>, ghost added: map<string, Bytes>, ghost log: seq<Attempt>)
      requires forall i, j :: 0 <= i < j < |finalized| ==> finalized[i] != finalized[j]
      requires forall i :: 0 <= i < |finalized| ==> finalized[i] in files || finalized[i] in guarded
      modifies this`files, this`foreign, this`attempts
      ensures attempts == old(attempts) + log && RollbackRun(finalized, log)
      ensures kept == NameSet(finalized) - GoneIn(log) && forall t :: t in kept ==> Refusals(log, t) >= 1
      ensures Addable(Removed(old(Now()), NameSet(finalized) - kept), guarded, added)
      ensures Now() == Plus(Removed(old(Now()), NameSet(finalized) - kept), added)
    {
      hide Addable, Plus, Removed, GoneIn, Refusals;
      log, added := [], map[];
      NothingSucceeded();
      NothingRemoved(Now());
      NothingAdded(Now(), guarded);
      for i := |finalized| downto 0
        invariant attempts == old(attempts) + log && |log| == |finalized| - i
        invariant forall k :: 0 <= k < |log| ==> log[k].name == finalized[|finalized| - 1 - k]
        invariant GoneIn(log) <= NameSet(finalized) && forall k :: 0 <= k < i ==> finalized[k] !in GoneIn(log)
        invariant Addable(Removed(old(Now()), GoneIn(log)), guarded, added)
        invariant Now() == Plus(Removed(old(Now()), GoneIn(log)), added)
      {
        StillThere(old(Now()), guarded, GoneIn(log), added, finalized[i]);
        assert finalized[i] in NameSet(finalized);
        ghost var news;
        var ok;
        ok, news := TryRemove(finalized[i]);
        AdditionsCompose(Removed(old(Now()), GoneIn(log)), guarded, added, news);
        added := added + news;
        GoneInAppend(log, Attempt(finalized[i], ok));
        if ok {
          StillThere(old(Now()), guarded, GoneIn(log), added, finalized[i]);
          RemoveAfterAdditions(old(Now()), guarded, GoneIn(log), finalized[i], added);
        } else {
          assert GoneIn(log) + {} == GoneIn(log);
        }
        log := log + [Attempt(finalized[i], ok)];
      }
      kept := NameSet(finalized) - GoneIn(log);
      assert NameSet(finalized) - kept == GoneIn(log);
      forall t | t in kept ensures Refusals(log, t) >= 1 {
        KeptWasRefused(finalized, log, t);
      }
    }

    /** The staging file is opened with `create_new`; from now on its name is guarded. */
    method CreateStage(name: string) returns (failure: Option<TransferError>)
      modifies this`files, this`guarded, this`faults
      ensures failure.None? ==>
                && name !in old(files) && guarded == old(guarded) + {name}
                && Now() == old(Now()).(files := old(files)[name := []])
      ensures failure.Some? ==> Now() == old(Now()) && guarded == old(guarded) && IsFileError(failure.value)
      ensures failure.Some? ==> name in files || faults > old(faults)
    {
      var possible: bool := *;
      var full: bool := *;
      if !possible || name in files {
        faults := faults + 1;
        return Some(if full then DiskFull else Destination);
      }
      files, guarded := files[name := []], guarded + {name};
      failure := None;
    }

    /** A chunk is appended; on failure an arbitrary part of it may have been. */
    method Append(name: string, data: Bytes) returns (failure: Option<TransferError>, ghost written: nat)
      modifies this`files, this`faults
      ensures failure.Some? <==> faults > old(faults)
      ensures failure.None? ==> Now() == old(Now()).(files := Appended(old(files), name, data))
      ensures failure.Some? ==>
                && written <= |data| && IsFileError(failure.value)
                && Now() == old(Now()).(files := Appended(old(files), name, data[..written]))
    {
      var part: int := *;
      var full: bool := *;
      written := 0;
      if 0 <= part <= |data| {
        faults := faults + 1;
        files := Appended(files, name, data[..part]);
        return Some(if full then DiskFull else Destination), part;
      }
      files := Appended(files, name, data);
      failure := None;
    }
  }
}
