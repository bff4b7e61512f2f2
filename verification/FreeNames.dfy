/**
 When the search for a free name succeeds: the keys of the numbered variants of a name are all
 different, so that only a folder with as many taken names can exhaust it.
 */
module FreeNames {
  import opened Wrappers
  import opened CollisionNames
  import opened Receiver
  import opened ReceiverSafety

  /** The path key tells the numbered variants of a name apart. */
  ghost predicate Separated(p: Policy, name: string)
  {
    forall j: nat, k: nat :: 1 <= j < k <= MAX_COLLISION_ATTEMPTS ==>
      p.key(Candidate(name, j)) != p.key(Candidate(name, k))
  }

  /** Keys that are the names themselves separate the variants of every name. */
  lemma NamesSeparate(p: Policy, name: string)
    requires forall x :: p.key(x) == x
    ensures Separated(p, name)
  {
    hide Candidate;
    forall j: nat, k: nat | 1 <= j < k <= MAX_COLLISION_ATTEMPTS
      ensures p.key(Candidate(name, j)) != p.key(Candidate(name, k))
    {
      CandidatesDistinct(name, j, k);
    }
  }

  function Keys(p: Policy, names: set<string>): set<string>
  {
    set x | x in names :: p.key(x)
  }

  function VariantKeys(p: Policy, name: string, count: nat): set<string>
  {
    set k: nat | 1 <= k <= count :: p.key(Candidate(name, k))
  }

  lemma VariantKeysGrow(p: Policy, name: string, count: nat)
    requires Separated(p, name) && 1 <= count <= MAX_COLLISION_ATTEMPTS
    ensures VariantKeys(p, name, count) ==
            VariantKeys(p, name, count - 1) + {p.key(Candidate(name, count))}
    ensures p.key(Candidate(name, count)) !in VariantKeys(p, name, count - 1)
  {
    hide Candidate;
    forall c | c in VariantKeys(p, name, count)
      ensures c in VariantKeys(p, name, count - 1) + {p.key(Candidate(name, count))}
    {
      var k: nat :| 1 <= k <= count && c == p.key(Candidate(name, k));
      assert k == count || k <= count - 1;
    }
  }

  lemma {:induction false} VariantKeysCount(p: Policy, name: string, count: nat)
    requires Separated(p, name) && count <= MAX_COLLISION_ATTEMPTS
    ensures |VariantKeys(p, name, count)| == count
  {
    hide Separated;
    if count == 0 {
      assert VariantKeys(p, name, 0) == {};
    } else {
      VariantKeysCount(p, name, count - 1);
      VariantKeysGrow(p, name, count);
    }
  }

  /** If every variant is taken, as a name or by its key, at least 100,000 keys are. */
  lemma ExhaustedMeansFullKeys(p: Policy, name: string, names: set<string>, used: set<string>)
    requires Separated(p, name)
    requires forall k: nat :: 1 <= k <= MAX_COLLISION_ATTEMPTS ==>
               Candidate(name, k) in names || p.key(Candidate(name, k)) in used
    ensures |Keys(p, names) + used| >= MAX_COLLISION_ATTEMPTS
  {
    hide Candidate, Separated;
    var all := VariantKeys(p, name, MAX_COLLISION_ATTEMPTS);
    VariantKeysCount(p, name, MAX_COLLISION_ATTEMPTS);
    forall c | c in all ensures c in Keys(p, names) + used {
      var k: nat :| 1 <= k <= MAX_COLLISION_ATTEMPTS && c == p.key(Candidate(name, k));
      assert Candidate(name, k) in names ==> c in Keys(p, names);
    }
    SubsetCardinality(all, Keys(p, names) + used);
  }

  lemma {:induction false} KeysCount(p: Policy, names: set<string>)
    ensures |Keys(p, names)| <= |names|
  {
    if names != {} {
      var x :| x in names;
      KeysCount(p, names - {x});
      assert Keys(p, names) == Keys(p, names - {x}) + {p.key(x)};
    } else {
      assert Keys(p, names) == {};
    }
  }

  /** Among fewer taken names there is a free variant. */
  lemma FreeVariant(p: Policy, name: string, names: set<string>, used: set<string>) returns (k: nat)
    requires Separated(p, name) && |names| + |used| < MAX_COLLISION_ATTEMPTS
    ensures 1 <= k <= MAX_COLLISION_ATTEMPTS
    ensures Candidate(name, k) !in names && p.key(Candidate(name, k)) !in used
  {
    hide Candidate, Separated;
    KeysCount(p, names);
    UnionCount(Keys(p, names), used);
    if forall j: nat :: 1 <= j <= MAX_COLLISION_ATTEMPTS ==>
                          Candidate(name, j) in names || p.key(Candidate(name, j)) in used {
      ExhaustedMeansFullKeys(p, name, names, used);
      assert false;
    }
    k :| 1 <= k <= MAX_COLLISION_ATTEMPTS && Candidate(name, k) !in names && p.key(Candidate(name, k)) !in used;
  }

  lemma UnionCount<T>(a: set<T>, b: set<T>)
    ensures |a + b| <= |a| + |b|
  {
    assert |a + b| == |a| + |b| - |a * b|;
  }

  // ----- how many names and keys a run takes ----------------------------

  lemma {:induction false} NameSetCount(names: seq<string>)
    ensures |NameSet(names)| <= |names|
  {
    if names == [] {
      assert NameSet(names) == {};
    } else {
      var front, last := names[..|names| - 1], names[|names| - 1];
      NameSetCount(front);
      NameSetAppend(front, last);
      assert front + [last] == names;
    }
  }

  lemma {:induction false} TemporariesCount(staged: seq<Staged>)
    ensures |Temporaries(staged)| <= |staged|
  {
    if staged == [] {
      assert Temporaries(staged) == {};
    } else {
      var front, last := staged[..|staged| - 1], staged[|staged| - 1];
      TemporariesCount(front);
      assert Temporaries(staged) == Temporaries(front) + {last.temporary};
    }
  }

  lemma {:induction false} FinalKeysCount(p: Policy, staged: seq<Staged>)
    ensures |FinalKeys(p, staged)| <= |staged|
  {
    if staged == [] {
      assert FinalKeys(p, staged) == {};
    } else {
      var front, last := staged[..|staged| - 1], staged[|staged| - 1];
      FinalKeysCount(p, front);
      assert FinalKeys(p, staged) == FinalKeys(p, front) + {p.key(last.finalPath)};
    }
  }

  /** The folder holds what others have there and at most one name for each staged file. */
  lemma FolderCount(p: Policy, r: Receiver)
    requires Inv(p, r) && !r.leftover
    ensures |r.folder.files.Keys| <= |r.folder.foreign.Keys| + |r.staged|
  {
    hide Shape, Books, ContentInv, KeysInv, ForeignIntact, NameSet, Temporaries;
    TemporariesCount(r.staged[|r.finalized|..]);
    NameSetCount(r.finalized);
    var staging, final := Temporaries(r.staged[|r.finalized|..]), NameSet(r.finalized);
    SubsetCardinality(r.folder.files.Keys, r.folder.foreign.Keys + (staging + final));
    UnionCount(r.folder.foreign.Keys, staging + final);
    UnionCount(staging, final);
  }
}
