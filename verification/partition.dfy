/** Splitting the entries of an object into the ones a predicate keeps and the
    names of the ones it drops: the shape of the path filter and of every
    component rebuild. */
module Partitioning {
  import opened Seqs
  import opened Json

  datatype Split = Split(kept: seq<Field>, removed: seq<string>)

  /** `kept` holds exactly the entries of `src` whose key satisfies `keep`, and
      `removed` exactly the other keys, both in source order; together they
      account for every entry. */
  ghost predicate PartitionedBy(src: seq<Field>, keep: string -> bool, kept: seq<Field>, removed: seq<string>)
  {
    && (forall f :: f in kept <==> f in src && keep(f.key))
    && (forall n :: n in removed <==> n in Keys(src) && !keep(n))
    && IsSubsequence(kept, src)
    && IsSubsequence(removed, Keys(src))
    && |kept| + |removed| == |src|
  }

  /** One pass over the entries: a kept entry is copied to the new object, a
      dropped one has its name pushed to the removal list. */
  function Partition(src: seq<Field>, keep: string -> bool): Split
    decreases |src|
  {
    if |src| == 0 then Split([], [])
    else
      var rest := Partition(src[1..], keep);
      if keep(src[0].key) then Split([src[0]] + rest.kept, rest.removed)
      else Split(rest.kept, [src[0].key] + rest.removed)
  }

  /** The pass partitions the entries. */
  lemma {:induction false} PartitionSpec(src: seq<Field>, keep: string -> bool)
    ensures PartitionedBy(src, keep, Partition(src, keep).kept, Partition(src, keep).removed)
    decreases |src|
  {
    if |src| > 0 {
      var f := src[0];
      var rest := Partition(src[1..], keep);
      PartitionSpec(src[1..], keep);
      assert src == [f] + src[1..];
      assert Keys(src) == [f.key] + Keys(src[1..]);
      var p := Partition(src, keep);
      if keep(f.key) {
        assert p.kept == [f] + rest.kept && p.removed == rest.removed;
        assert p.kept[1..] == rest.kept;
        assert IsSubsequence(p.kept, src);
        assert IsSubsequence(p.removed, Keys(src));
      } else {
        assert p.kept == rest.kept && p.removed == [f.key] + rest.removed;
        assert p.removed[1..] == rest.removed;
        assert IsSubsequence(p.kept, src);
        assert IsSubsequence(p.removed, Keys(src));
      }
    }
  }

  /** A subsequence of the entries made only of kept entries is a subsequence of
      the kept part. */
  lemma {:induction false} KeptSubsequence(a: seq<Field>, src: seq<Field>, keep: string -> bool)
    requires IsSubsequence(a, src)
    requires forall f :: f in a ==> keep(f.key)
    ensures IsSubsequence(a, Partition(src, keep).kept)
    decreases |src|
  {
    if |a| > 0 {
      var kept := Partition(src, keep).kept;
      var rest := Partition(src[1..], keep).kept;
      if a[0] == src[0] && IsSubsequence(a[1..], src[1..]) {
        assert a[0] in a;
        assert kept == [src[0]] + rest;
        KeptSubsequence(a[1..], src[1..], keep);
        assert kept[1..] == rest;
      } else {
        KeptSubsequence(a, src[1..], keep);
        if keep(src[0].key) {
          assert kept == [src[0]] + rest;
          assert kept[1..] == rest;
        }
      }
    }
  }

  /** A subsequence of the keys made only of dropped names is a subsequence of the
      removal list. */
  lemma {:induction false} RemovedSubsequence(a: seq<string>, src: seq<Field>, keep: string -> bool)
    requires IsSubsequence(a, Keys(src))
    requires forall n :: n in a ==> !keep(n)
    ensures IsSubsequence(a, Partition(src, keep).removed)
    decreases |src|
  {
    if |a| > 0 {
      var removed := Partition(src, keep).removed;
      var rest := Partition(src[1..], keep).removed;
      assert Keys(src)[1..] == Keys(src[1..]);
      if a[0] == Keys(src)[0] && IsSubsequence(a[1..], Keys(src)[1..]) {
        assert a[0] in a;
        assert removed == [src[0].key] + rest;
        RemovedSubsequence(a[1..], src[1..], keep);
        assert removed[1..] == rest;
      } else {
        RemovedSubsequence(a, src[1..], keep);
        if !keep(src[0].key) {
          assert removed == [src[0].key] + rest;
          assert removed[1..] == rest;
        }
      }
    }
  }

  /** The partition contract determines the result: `Partition` is the only split
      with those properties. */
  lemma PartitionUnique(src: seq<Field>, keep: string -> bool, kept: seq<Field>, removed: seq<string>)
    requires PartitionedBy(src, keep, kept, removed)
    ensures Partition(src, keep) == Split(kept, removed)
  {
    var s := Partition(src, keep);
    PartitionSpec(src, keep);
    KeptSubsequence(kept, src, keep);
    RemovedSubsequence(removed, src, keep);
    SubsequenceShorter(kept, s.kept);
    SubsequenceShorter(removed, s.removed);
    SubsequenceSameLength(kept, s.kept);
    SubsequenceSameLength(removed, s.removed);
  }

  /** Two predicates that agree on every name split alike. */
  lemma PartitionCongruent(src: seq<Field>, p: string -> bool, q: string -> bool)
    requires forall n :: p(n) == q(n)
    ensures Partition(src, p) == Partition(src, q)
  {
    var s := Partition(src, q);
    PartitionSpec(src, q);
    PartitionUnique(src, p, s.kept, s.removed);
  }

  /** When every entry is kept, the pass copies the entries and reports nothing. */
  lemma PartitionAllKept(src: seq<Field>, keep: string -> bool)
    requires forall f :: f in src ==> keep(f.key)
    ensures Partition(src, keep) == Split(src, [])
  {
    SubsequenceOfSelf(src);
    PartitionUnique(src, keep, src, []);
  }

  /** Splitting the kept part again by a predicate that accepts at least as much
      keeps all of it. */
  lemma PartitionAgain(src: seq<Field>, p: string -> bool, q: string -> bool)
    requires forall n :: p(n) ==> q(n)
    ensures Partition(Partition(src, p).kept, q) == Split(Partition(src, p).kept, [])
  {
    PartitionSpec(src, p);
    PartitionAllKept(Partition(src, p).kept, q);
  }

  /** A kept name reads the same in the kept part as in the source. */
  lemma {:induction false} PartitionGet(src: seq<Field>, keep: string -> bool, n: string)
    requires keep(n)
    ensures Get(Partition(src, keep).kept, n) == Get(src, n)
    decreases |src|
  {
    if |src| > 0 {
      var rest := Partition(src[1..], keep).kept;
      PartitionGet(src[1..], keep, n);
      GetFirst(src, n);
      if keep(src[0].key) {
        var kept := [src[0]] + rest;
        assert kept[1..] == rest;
        GetFirst(kept, n);
      }
    }
  }
}
