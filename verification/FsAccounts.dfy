/** No block is lost: the free blocks and the blocks of the files make up the data area of the disk. */
module FsAccounts {
  import opened Basics
  import opened FsTypes
  import opened FsSpec
  import opened FsInvariant

  /** The blocks that the first k inodes have been given. */
  function BlocksInUse(nodes: seq<Option<Node>>, k: int): (n: int)
    requires 0 <= k <= |nodes|
  {
    if k == 0 then 0 else BlocksInUse(nodes, k - 1) + (if nodes[k - 1].Some? then nodes[k - 1].value.numBlocks else 0)
  }

  /** The block numbers behind that count. */
  ghost function OwnedBlocks(nodes: seq<Option<Node>>, k: int): set<int>
    requires 0 <= k <= |nodes|
  {
    if k == 0 then {} else OwnedBlocks(nodes, k - 1) + BlocksOf(nodes[k - 1])
  }

  ghost function BlocksOf(n: Option<Node>): set<int> {
    if n.None? then {} else set j | 0 <= j < n.value.numBlocks && j < |n.value.blocks| :: n.value.blocks[j]
  }

  lemma {:induction false} DistinctCount(blocks: seq<int>, m: int)
    requires 0 <= m <= |blocks| && forall k, l :: 0 <= k < l < m ==> blocks[k] != blocks[l]
    ensures |set j | 0 <= j < m :: blocks[j]| == m
  {
    if m > 0 {
      DistinctCount(blocks, m - 1);
      assert (set j | 0 <= j < m :: blocks[j]) == (set j | 0 <= j < m - 1 :: blocks[j]) + {blocks[m - 1]};
    }
  }

  lemma {:induction false} OwnedBy(nodes: seq<Option<Node>>, k: int, b: int)
    requires 0 <= k <= |nodes|
    ensures b in OwnedBlocks(nodes, k) <==> exists i, j :: i < k && Owns(nodes, i, j, b)
  {
    if k > 0 {
      OwnedBy(nodes, k - 1, b);
      if i, j :| i < k && Owns(nodes, i, j, b) {
        assert i < k - 1 || nodes[i].value.blocks[j] in BlocksOf(nodes[k - 1]);
      }
      if b in BlocksOf(nodes[k - 1]) {
        var j :| 0 <= j < nodes[k - 1].value.numBlocks && j < |nodes[k - 1].value.blocks| && nodes[k - 1].value.blocks[j] == b;
        assert Owns(nodes, k - 1, j, b);
      }
    }
  }

  ghost predicate NoSharing(nodes: seq<Option<Node>>) {
    forall i, k, j, l, b :: Owns(nodes, i, k, b) && Owns(nodes, j, l, b) ==> i == j && k == l
  }

  lemma {:induction false} OwnedCount(nodes: seq<Option<Node>>, diskBlocks: int, k: int)
    requires 0 <= k <= |nodes| && NodesOk(nodes, diskBlocks) && NoSharing(nodes)
    ensures |OwnedBlocks(nodes, k)| == BlocksInUse(nodes, k)
  {
    hide NoSharing, NodesOk, BlocksOf;
    if k > 0 {
      OwnedCount(nodes, diskBlocks, k - 1);
      var before, own := OwnedBlocks(nodes, k - 1), BlocksOf(nodes[k - 1]);
      OneInode(nodes, diskBlocks, k - 1);
      Fresh(nodes, k - 1);
      DisjointCount(before, own);
    }
  }

  lemma DisjointCount(a: set<int>, b: set<int>)
    requires a !! b
    ensures |a + b| == |a| + |b|
  {
  }

  lemma Fresh(nodes: seq<Option<Node>>, k: int)
    requires 0 <= k < |nodes| && NoSharing(nodes)
    ensures OwnedBlocks(nodes, k) !! BlocksOf(nodes[k])
  {
    hide OwnedBlocks;
    forall b | b in BlocksOf(nodes[k]) ensures b !in OwnedBlocks(nodes, k) {
      var n := nodes[k].value;
      var j :| 0 <= j < n.numBlocks && j < |n.blocks| && n.blocks[j] == b;
      assert Owns(nodes, k, j, b);
      OwnedBy(nodes, k, b);
    }
  }

  lemma OneInode(nodes: seq<Option<Node>>, diskBlocks: int, i: int)
    requires 0 <= i < |nodes| && NodesOk(nodes, diskBlocks) && NoSharing(nodes)
    ensures |BlocksOf(nodes[i])| == if nodes[i].Some? then nodes[i].value.numBlocks else 0
  {
    if nodes[i].Some? {
      var n := nodes[i].value;
      assert NodeOk(n, diskBlocks);
      forall k, l | 0 <= k < l < n.numBlocks ensures n.blocks[k] != n.blocks[l] {
        assert Owns(nodes, i, k, n.blocks[k]) && Owns(nodes, i, l, n.blocks[l]);
      }
      DistinctCount(n.blocks, n.numBlocks);
      assert BlocksOf(nodes[i]) == set j | 0 <= j < n.numBlocks :: n.blocks[j];
    }
  }

  ghost function Ones(bitMap: seq<int>, lo: int, hi: int): set<int>
    requires 0 <= lo && hi <= |bitMap|
  {
    set b | lo <= b < hi && bitMap[b] != 0
  }

  lemma {:induction false} ZerosAndOnes(bitMap: seq<int>, lo: int, hi: int)
    requires 0 <= lo <= hi <= |bitMap|
    ensures Zeros(bitMap, lo, hi) + |Ones(bitMap, lo, hi)| == hi - lo
    decreases hi - lo
  {
    if lo < hi {
      ZerosAndOnes(bitMap, lo + 1, hi);
      assert Ones(bitMap, lo, hi) == Ones(bitMap, lo + 1, hi) + (if bitMap[lo] != 0 then {lo} else {});
    } else {
      assert Ones(bitMap, lo, hi) == {};
    }
  }

  lemma {:induction false} NoZeros(bitMap: seq<int>, lo: int, hi: int)
    requires 0 <= lo <= hi <= |bitMap| && forall b :: lo <= b < hi ==> bitMap[b] == 1
    ensures Zeros(bitMap, lo, hi) == 0
    decreases hi - lo
  {
    if lo < hi { NoZeros(bitMap, lo + 1, hi); }
  }

  /** The counter of free blocks is exactly what the files leave of the blocks behind the metadata. */
  lemma FreeBlocksAccounted(fs: Fs)
    requires Inv(fs)
    ensures fs.super.freeBlocks + BlocksInUse(fs.nodes, |fs.nodes|) == fs.super.diskBlocks - FIRST_DATA
  {
    hide DirOk, Synced, NodesOk, Zeros;
    var bitMap, d := fs.bitMap, fs.super.diskBlocks;
    ZerosSplit(bitMap, 0, FIRST_DATA, d);
    NoZeros(bitMap, 0, FIRST_DATA);
    ZerosAndOnes(bitMap, FIRST_DATA, d);
    OwnedCount(fs.nodes, d, |fs.nodes|);
    forall b ensures b in Ones(bitMap, FIRST_DATA, d) <==> b in OwnedBlocks(fs.nodes, |fs.nodes|) {
      OwnedBy(fs.nodes, |fs.nodes|, b);
      if b in Ones(bitMap, FIRST_DATA, d) {
        var i, j :| Owns(fs.nodes, i, j, b);
      }
    }
    assert Ones(bitMap, FIRST_DATA, d) == OwnedBlocks(fs.nodes, |fs.nodes|);
  }
}
