/** Task names of a parent's children (`subAgentManager`): allocation by
    counting suffixes, and lookup by run id or name. */
module TaskNames {
  import opened Common

  datatype ResolveError = TargetRequired | NotFound(target: string)

  /** The candidates in the order the search tries them: base, base_2, base_3, ... */
  function Candidate(base: string, k: nat): string
    requires k >= 1
  {
    if k == 1 then base else base + "_" + Decimal(k)
  }

  lemma CandidatesDiffer(base: string, j: nat, k: nat)
    requires 1 <= j < k
    ensures Candidate(base, j) != Candidate(base, k)
  {
    var c := Candidate(base, k);
    assert c[|base| + 1..] == Decimal(k);
    if j > 1 {
      assert Candidate(base, j)[|base| + 1..] == Decimal(j);
      DecimalRoundTrip(j);
      DecimalRoundTrip(k);
    }
  }

  lemma CandidateTrimmed(base: string, k: nat)
    requires k >= 1 && base != "" && Trimmed(base)
    ensures Candidate(base, k) != "" && Trimmed(Candidate(base, k))
  {
    DecimalRoundTrip(k);
  }

  ghost function Tried(base: string, n: nat): set<string> {
    if n == 0 then {} else Tried(base, n - 1) + {Candidate(base, n)}
  }

  lemma {:induction false} TriedCount(base: string, n: nat)
    ensures |Tried(base, n)| == n
    ensures forall c :: c in Tried(base, n) ==> exists k: nat :: 1 <= k <= n && c == Candidate(base, k)
  {
    if n > 0 {
      TriedCount(base, n - 1);
      if Candidate(base, n) in Tried(base, n - 1) {
        var k: nat :| 1 <= k <= n - 1 && Candidate(base, n) == Candidate(base, k);
        CandidatesDiffer(base, k, n);
      }
    }
  }

  lemma {:induction false} TriedWithin(base: string, n: nat, names: set<string>)
    requires forall k: nat :: 1 <= k <= n ==> Candidate(base, k) in names
    ensures Tried(base, n) <= names
  {
    if n > 0 {
      TriedWithin(base, n - 1, names);
    }
  }

  lemma SubsetSize<T>(a: set<T>, b: set<T>)
    requires a <= b
    ensures |a| <= |b|
  {
    assert b == a + (b - a);
  }

  lemma {:induction false} ValuesSize(m: map<string, string>)
    ensures |m.Values| <= |m|
  {
    if k :| k in m {
      var rest := m - {k};
      ValuesSize(rest);
      forall v | v in m.Values ensures v in rest.Values + {m[k]} {
        var j :| j in m && m[j] == v;
        assert j != k ==> j in rest && rest[j] == v;
      }
      SubsetSize(m.Values, rest.Values + {m[k]});
    } else {
      assert m.Values == {};
    }
  }

  /** Pigeonhole: the first n candidates cannot all be taken by fewer than n children. */
  lemma TriedFit(base: string, n: nat, children: map<string, string>)
    requires forall k: nat :: 1 <= k <= n ==> Candidate(base, k) in children.Values
    ensures n <= |children|
  {
    TriedCount(base, n);
    TriedWithin(base, n, children.Values);
    SubsetSize(Tried(base, n), children.Values);
    ValuesSize(children);
  }

  ghost predicate NamesDistinct(children: map<string, string>) {
    && (forall a, b :: a in children && b in children && a != b ==> children[a] != children[b])
    && (forall a :: a in children ==> children[a] != "" && Trimmed(children[a]))
  }

  /** The base name a request starts from. */
  function Base(requested: string, nextSeq: nat): string {
    var base := TrimSpace(requested);
    if base == "" then "agent_" + Decimal(nextSeq) else base
  }

  lemma BaseTrimmed(requested: string, nextSeq: nat)
    ensures Base(requested, nextSeq) != "" && Trimmed(Base(requested, nextSeq))
  {
    TrimSpaceTrims(requested);
    DecimalRoundTrip(nextSeq);
  }

  /** What `resolve` finds: a run id wins over a name. */
  ghost predicate Answers(children: map<string, string>, target: string, runId: string) {
    && runId in children
    && if target in children then runId == target else children[runId] == target
  }

  /** A child answers to its own name, and nothing else does, unless that name
      is the run id of a child. */
  lemma NameHasOneAnswer(children: map<string, string>, child: string)
    requires NamesDistinct(children) && child in children
    ensures Trimmed(children[child]) && TrimSpace(children[child]) == children[child] != ""
    ensures (forall r :: Answers(children, children[child], r) <==> r == child)
            <==> children[child] !in children || children[child] == child
  {
    var name := children[child];
    if name in children && name != child {
      assert Answers(children, name, name);
    }
  }

  class SubAgentManager {
    var seqNo: nat
    var children: map<string, string>  // run id to task name

    ghost predicate Valid()
      reads this
    {
      NamesDistinct(children)
    }

    constructor ()
      ensures Valid() && children == map[] && seqNo == 0
    {
      seqNo := 0;
      children := map[];
    }

    /** The inner loop over the children, which Go visits in no fixed order. */
    method NameTaken(candidate: string) returns (conflict: bool)
      ensures conflict <==> candidate in children.Values
    {
      conflict := false;
      var remaining := children.Keys;
      while remaining != {}
        invariant remaining <= children.Keys
        invariant forall r :: r in children && r !in remaining ==> children[r] != candidate
        decreases |remaining|
      {
        var r :| r in remaining;
        if children[r] == candidate {
          return true;
        }
        remaining := remaining - {r};
      }
    }

    /** The first free candidate, found after at most one more try than there
        are children. */
    method UniqueTaskNameLocked(requested: string) returns (name: string, ghost tries: nat)
      modifies this`seqNo
      ensures seqNo == old(seqNo) + (if TrimSpace(requested) == "" then 1 else 0)
      ensures 1 <= tries <= |children| + 1
      ensures name == Candidate(Base(requested, seqNo), tries)
      ensures name !in children.Values
      ensures forall k: nat :: 1 <= k < tries ==> Candidate(Base(requested, seqNo), k) in children.Values
      ensures name != "" && Trimmed(name)
      ensures TrimSpace(requested) != "" && TrimSpace(requested) !in children.Values ==> name == TrimSpace(requested)
      ensures TrimSpace(requested) == "" && "agent_" + Decimal(seqNo) !in children.Values ==> name == "agent_" + Decimal(seqNo)
      ensures tries > 1 ==> name == (if TrimSpace(requested) != "" then TrimSpace(requested) else "agent_" + Decimal(seqNo))
                                    + "_" + Decimal(tries)
    {
      var base := TrimSpace(requested);
      if base == "" {
        seqNo := seqNo + 1;
        base := "agent_" + Decimal(seqNo);
      }
      BaseTrimmed(requested, seqNo);
      name := base;
      var index := 2;
      while true
        invariant base == Base(requested, seqNo)
        invariant seqNo == old(seqNo) + (if TrimSpace(requested) == "" then 1 else 0)
        invariant index >= 2 && name == Candidate(base, index - 1)
        invariant forall k: nat :: 1 <= k < index - 1 ==> Candidate(base, k) in children.Values
        invariant index - 2 <= |children|
        decreases |children| + 2 - index
      {
        var conflict := NameTaken(name);
        if !conflict {
          tries := index - 1;
          CandidateTrimmed(base, tries);
          return;
        }
        TriedFit(base, index - 1, children);
        name := base + "_" + Decimal(index);
        index := index + 1;
      }
    }

    /** The locked part of `spawn`; `runId` is a fresh UUID. */
    method Register(runId: string, requested: string) returns (name: string)
      requires Valid() && runId !in children
      modifies this
      ensures Valid()
      ensures name !in old(children).Values
      ensures TrimSpace(requested) != "" && TrimSpace(requested) !in old(children).Values ==> name == TrimSpace(requested)
      ensures seqNo == old(seqNo) + (if TrimSpace(requested) == "" then 1 else 0)
      ensures children == old(children)[runId := name]
    {
      ghost var tries;
      name, tries := UniqueTaskNameLocked(requested);
      forall r | r in children ensures children[r] != name {
        assert children[r] in children.Values;
      }
      children := children[runId := name];
    }

    /** `spawn` takes the child back when its run record cannot be stored. */
    method Forget(runId: string)
      requires Valid()
      modifies this`children
      ensures Valid() && children == old(children) - {runId}
    {
      children := children - {runId};
    }

    method Resolve(target: string) returns (found: Result<string, ResolveError>)
      requires Valid()
      ensures found == Err(TargetRequired) <==> TrimSpace(target) == ""
      ensures forall r :: found == Ok(r) ==> Answers(children, TrimSpace(target), r)
      ensures TrimSpace(target) != "" ==> forall r :: Answers(children, TrimSpace(target), r) ==> found == Ok(r)
      ensures TrimSpace(target) != "" && (forall r :: !Answers(children, TrimSpace(target), r)) ==>
                found == Err(NotFound(TrimSpace(target)))
    {
      var name := TrimSpace(target);
      if name == "" {
        return Err(TargetRequired);
      }
      if name in children {
        return Ok(name);
      }
      var remaining := children.Keys;
      while remaining != {}
        invariant remaining <= children.Keys
        invariant forall r :: r in children && r !in remaining ==> children[r] != name
        decreases |remaining|
      {
        var r :| r in remaining;
        if children[r] == name {
          return Ok(r);
        }
        remaining := remaining - {r};
      }
      return Err(NotFound(name));
    }
  }
}
