/**
 The `veritio-merkle-v1` root of a commit's members: leaves carry their index, and the last
 hash of an odd level is paired with itself.
 */
module MerkleTree {
  import opened Wrappers
  import opened Protocol

  function Leaves(members: seq<CommitMember>): seq<Digest> {
    seq(|members|, i requires 0 <= i < |members| => LeafDigest(members[i]))
  }

  /** Pairs neighbours; an odd last hash is its own right neighbour. */
  function NextLevel(level: seq<Digest>): (next: seq<Digest>)
    ensures |next| == (|level| + 1) / 2
  {
    if |level| == 0 then []
    else if |level| == 1 then [NodeDigest(level[0], level[0])]
    else [NodeDigest(level[0], level[1])] + NextLevel(level[2..])
  }

  function Root(level: seq<Digest>): Digest
    requires level != []
    decreases |level|
  {
    if |level| == 1 then level[0] else Root(NextLevel(level))
  }

  function RecordsRoot(members: seq<CommitMember>): Digest
    requires members != []
  {
    Root(Leaves(members))
  }

  /** One level of the loop: pairs from the left, the odd last hash with itself. */
  method PairLevel(level: seq<Digest>) returns (nextLevel: seq<Digest>)
    ensures nextLevel == NextLevel(level)
  {
    nextLevel := [];
    var index := 0;
    while index < |level|
      invariant 0 <= index <= |level| + 1
      invariant index <= |level| ==> nextLevel + NextLevel(level[index..]) == NextLevel(level)
      invariant index > |level| ==> nextLevel == NextLevel(level)
      decreases |level| - index
    {
      var left := level[index];
      var right := if index + 1 < |level| then level[index + 1] else left;
      if index + 1 < |level| {
        assert level[index..][2..] == level[index + 2..];
      }
      nextLevel := nextLevel + [NodeDigest(left, right)];
      index := index + 2;
    }
  }

  method ComputeRecordsRoot(members: seq<CommitMember>) returns (root: Digest)
    requires members != []
    ensures root == RecordsRoot(members)
  {
    var level := Leaves(members);
    while |level| > 1
      invariant level != [] && Root(level) == RecordsRoot(members)
      decreases |level|
    {
      level := PairLevel(level);
    }
    root := level[0];
  }

  // ---------- Binding ----------

  /** The leaves under a digest from left to right, duplicates included. */
  function Flat(d: Digest): seq<CommitMember> {
    match d
    case LeafDigest(member) => [member]
    case NodeDigest(left, right) => Flat(left) + Flat(right)
    case _ => []
  }

  function FlatLevel(level: seq<Digest>): seq<CommitMember> {
    if level == [] then [] else Flat(level[0]) + FlatLevel(level[1..])
  }

  /** `long` starts with `short` and repeats nothing but elements of `short`. */
  predicate Padded(short: seq<CommitMember>, long: seq<CommitMember>) {
    short <= long && forall m | m in long :: m in short
  }

  lemma {:induction false} NextLevelPads(level: seq<Digest>)
    ensures Padded(FlatLevel(level), FlatLevel(NextLevel(level)))
    decreases |level|
  {
    if |level| == 1 {
      assert FlatLevel(level) == Flat(level[0]) + FlatLevel([]);
      assert FlatLevel(NextLevel(level)) == (Flat(level[0]) + Flat(level[0])) + FlatLevel([]);
    } else if |level| > 1 {
      var rest := level[2..];
      NextLevelPads(rest);
      var pair := Flat(level[0]) + Flat(level[1]);
      assert level[1..][1..] == rest;
      assert FlatLevel(level) == pair + FlatLevel(rest);
      assert NextLevel(level)[1..] == NextLevel(rest);
      assert FlatLevel(NextLevel(level)) == pair + FlatLevel(NextLevel(rest));
    }
  }

  lemma {:induction false} RootPads(level: seq<Digest>)
    requires level != []
    ensures Padded(FlatLevel(level), Flat(Root(level)))
    decreases |level|
  {
    if |level| == 1 {
      assert FlatLevel(level) == Flat(level[0]) + FlatLevel([]);
    } else {
      NextLevelPads(level);
      RootPads(NextLevel(level));
    }
  }

  lemma {:induction false} FlatLeaves(members: seq<CommitMember>)
    ensures FlatLevel(Leaves(members)) == members
    decreases |members|
  {
    if members != [] {
      FlatLeaves(members[1..]);
      assert Leaves(members)[1..] == Leaves(members[1..]);
    }
  }

  /** Each member stands at the position its index names. */
  predicate Indexed(members: seq<CommitMember>) {
    forall i | 0 <= i < |members| :: members[i].index == i
  }

  lemma LongestIndexed(a: seq<CommitMember>, b: seq<CommitMember>, flat: seq<CommitMember>)
    requires Indexed(a) && Indexed(b) && Padded(a, flat) && Padded(b, flat)
    ensures |b| <= |a|
  {
    // Behind `a` the flat list only repeats smaller indices, but a longer `b` counts on.
    if |a| < |flat| {
      assert flat[|a|] in a;
    }
  }

  /**
   Equal roots mean equal member lists, whatever their lengths, the depths of their trees and
   the hashes that were duplicated.
   */
  lemma RootBindsMembers(a: seq<CommitMember>, b: seq<CommitMember>)
    requires a != [] && b != [] && Indexed(a) && Indexed(b)
    requires RecordsRoot(a) == RecordsRoot(b)
    ensures a == b
  {
    RootPads(Leaves(a));
    RootPads(Leaves(b));
    FlatLeaves(a);
    FlatLeaves(b);
    var flat := Flat(RecordsRoot(a));
    LongestIndexed(a, b, flat);
    LongestIndexed(b, a, flat);
  }

  /** Without indices in the leaves duplication would not be visible in the root. */
  lemma OddLevelsHideDuplicates(a: Digest, b: Digest, c: Digest)
    ensures Root([a, b, c]) == Root([a, b, c, c])
  {
    var ab, cc := NodeDigest(a, b), NodeDigest(c, c);
    assert [a, b, c][2..] == [c] && [a, b, c, c][2..] == [c, c] && [c, c][2..] == [];
    assert NextLevel([a, b, c]) == [ab, cc] == NextLevel([a, b, c, c]);
  }
}
