/**
 * The run-length byte format of saved chunks: a sequence of
 * (block type, count) byte pairs, read from block index 0 upward.
 * `RunsOf` is the run decomposition the encoder's loop builds, one block
 * at a time, with runs capped at 255 so that a count fits in a byte.
 */
module Rle {

  import opened GameCommon

  type Byte = b: int | 0 <= b < 256

  const MAX_RUN_LENGTH: int := 255

  datatype Run = Run(blockType: BlockType, count: nat)

  function Repeat(t: BlockType, n: nat): (s: seq<BlockType>)
    ensures |s| == n && forall k :: 0 <= k < n ==> s[k] == t
  {
    seq(n, _ => t)
  }

  /** The runs of s, extended one block at a time from the left, each capped at 255. */
  function RunsOf(s: seq<BlockType>): seq<Run>
    decreases |s|
  {
    if |s| == 0 then []
    else
      var r := RunsOf(s[..|s| - 1]);
      var x := s[|s| - 1];
      if |r| > 0 && r[|r| - 1].blockType == x && r[|r| - 1].count < MAX_RUN_LENGTH
      then r[..|r| - 1] + [Run(x, r[|r| - 1].count + 1)]
      else r + [Run(x, 1)]
  }

  /** The blocks a sequence of runs stands for. */
  function Expand(runs: seq<Run>): seq<BlockType>
    decreases |runs|
  {
    if |runs| == 0 then []
    else Expand(runs[..|runs| - 1]) + Repeat(runs[|runs| - 1].blockType, runs[|runs| - 1].count)
  }

  predicate RunFitsByte(r: Run)
  {
    1 <= r.count <= MAX_RUN_LENGTH
  }

  /** The byte pairs of a sequence of runs whose counts fit a byte. */
  function Flatten(runs: seq<Run>): (bytes: seq<Byte>)
    requires forall k :: 0 <= k < |runs| ==> RunFitsByte(runs[k])
    ensures |bytes| == 2 * |runs|
    decreases |runs|
  {
    if |runs| == 0 then []
    else
      var last := runs[|runs| - 1];
      assert RunFitsByte(last);
      Flatten(runs[..|runs| - 1]) + [last.blockType as Byte, last.count as Byte]
  }

  /** Every type byte names a registered block type. */
  predicate TypeBytesValid(bytes: seq<Byte>)
  {
    |bytes| % 2 == 0 && forall k :: 0 <= k < |bytes| && k % 2 == 0 ==> bytes[k] < NUM_BLOCK_TYPES
  }

  /** The block types the decoder writes, pair by pair from the front. */
  function DecodeTypes(bytes: seq<Byte>): seq<BlockType>
    requires TypeBytesValid(bytes)
    decreases |bytes|
  {
    if |bytes| == 0 then []
    else
      assert TypeBytesValid(bytes[2..]) by {
        forall k | 0 <= k < |bytes[2..]| && k % 2 == 0 ensures bytes[2..][k] < NUM_BLOCK_TYPES {
          assert bytes[2..][k] == bytes[k + 2];
        }
      }
      Repeat(bytes[0] as BlockType, bytes[1]) + DecodeTypes(bytes[2..])
  }

  /** A byte string the decoder accepts: whole pairs, registered types, at most one chunk of blocks. */
  predicate WellFormedRle(bytes: seq<Byte>)
  {
    TypeBytesValid(bytes) && |DecodeTypes(bytes)| <= NUM_BLOCKS_PER_CHUNK
  }

  /** What the encoder emits for a chunk: every run except the final one. */
  function EncodeAsWritten(s: seq<BlockType>): (bytes: seq<Byte>)
    requires |s| > 0
  {
    RunsOfFacts(s);
    Flatten(RunsOf(s)[..|RunsOf(s)| - 1])
  }

  /** The evidently intended encoding: every run, the final one included. */
  function EncodeFlushed(s: seq<BlockType>): (bytes: seq<Byte>)
  {
    RunsOfFacts(s);
    Flatten(RunsOf(s))
  }

  /** A run exists exactly when a block does, and the last run holds the last block. */
  lemma RunsOfLast(s: seq<BlockType>)
    ensures |RunsOf(s)| == 0 <==> |s| == 0
    ensures |s| > 0 ==> RunsOf(s)[|RunsOf(s)| - 1].blockType == s[|s| - 1]
  {
  }

  /** The encoder never emits a count of 0 and never one that overflows a byte. */
  lemma {:induction false} RunsOfCountsFit(s: seq<BlockType>)
    ensures forall k :: 0 <= k < |RunsOf(s)| ==> RunFitsByte(RunsOf(s)[k])
    decreases |s|
  {
    if |s| > 0 {
      var r := RunsOf(s[..|s| - 1]);
      RunsOfCountsFit(s[..|s| - 1]);
      var x := s[|s| - 1];
      if |r| > 0 && r[|r| - 1].blockType == x && r[|r| - 1].count < MAX_RUN_LENGTH {
        var r' := r[..|r| - 1] + [Run(x, r[|r| - 1].count + 1)];
        assert RunsOf(s) == r';
        forall k | 0 <= k < |r'| ensures RunFitsByte(r'[k]) {
          if k < |r| - 1 {
            assert r'[k] == r[k];
          }
        }
      } else {
        assert RunsOf(s) == r + [Run(x, 1)];
      }
    }
  }

  predicate Maximal(r: seq<Run>, k: nat)
    requires k + 1 < |r|
  {
    r[k].blockType != r[k + 1].blockType || r[k].count == MAX_RUN_LENGTH
  }

  /** Neighbouring runs differ in type unless the earlier one is full. */
  lemma {:induction false} RunsOfMaximal(s: seq<BlockType>)
    ensures forall k :: 0 <= k < |RunsOf(s)| - 1 ==> Maximal(RunsOf(s), k)
    decreases |s|
  {
    if |s| > 0 {
      var r := RunsOf(s[..|s| - 1]);
      RunsOfMaximal(s[..|s| - 1]);
      RunsOfCountsFit(s[..|s| - 1]);
      var x := s[|s| - 1];
      if |r| > 0 && r[|r| - 1].blockType == x && r[|r| - 1].count < MAX_RUN_LENGTH {
        var r' := r[..|r| - 1] + [Run(x, r[|r| - 1].count + 1)];
        assert RunsOf(s) == r';
        forall k | 0 <= k < |r'| - 1
          ensures Maximal(r', k)
        {
          assert r'[k] == r[k];
          assert Maximal(r, k);
          if k + 1 < |r| - 1 {
            assert r'[k + 1] == r[k + 1];
          } else {
            assert r'[k + 1].blockType == x == r[k + 1].blockType;
          }
        }
      } else {
        var r' := r + [Run(x, 1)];
        assert RunsOf(s) == r';
        forall k | 0 <= k < |r'| - 1
          ensures Maximal(r', k)
        {
          assert r'[k] == r[k];
          if k + 1 < |r| {
            assert r'[k + 1] == r[k + 1];
            assert Maximal(r, k);
          } else {
            assert RunFitsByte(r[k]);
            assert r'[k + 1] == Run(x, 1);
          }
        }
      }
    }
  }

  /** All the facts above at once. */
  lemma RunsOfFacts(s: seq<BlockType>)
    ensures var r := RunsOf(s);
      (|r| == 0 <==> |s| == 0)
      && (forall k :: 0 <= k < |r| ==> RunFitsByte(r[k]))
      && (forall k :: 0 <= k < |r| - 1 ==> Maximal(r, k))
      && (|s| > 0 ==> r[|r| - 1].blockType == s[|s| - 1])
  {
    RunsOfLast(s);
    RunsOfCountsFit(s);
    RunsOfMaximal(s);
  }

  /** Every byte the encoder emits pairs a registered type with a count in [1, 255]. */
  lemma FlattenValid(runs: seq<Run>)
    requires forall k :: 0 <= k < |runs| ==> RunFitsByte(runs[k])
    ensures TypeBytesValid(Flatten(runs))
    ensures forall k :: 0 <= k < |Flatten(runs)| && k % 2 == 1 ==> 1 <= Flatten(runs)[k] <= MAX_RUN_LENGTH
    decreases |runs|
  {
    if |runs| > 0 {
      FlattenValid(runs[..|runs| - 1]);
    }
  }

  /** The runs stand for exactly the blocks they were built from. */
  lemma {:induction false} ExpandRunsOf(s: seq<BlockType>)
    ensures Expand(RunsOf(s)) == s
    decreases |s|
  {
    if |s| > 0 {
      var p := s[..|s| - 1];
      var r := RunsOf(p);
      var x := s[|s| - 1];
      ExpandRunsOf(p);
      if |r| > 0 && r[|r| - 1].blockType == x && r[|r| - 1].count < MAX_RUN_LENGTH {
        var last := r[|r| - 1];
        assert (r[..|r| - 1] + [Run(x, last.count + 1)])[..|r| - 1] == r[..|r| - 1];
        assert Expand(r) == Expand(r[..|r| - 1]) + Repeat(x, last.count);
        assert Repeat(x, last.count + 1) == Repeat(x, last.count) + [x];
      } else {
        assert (r + [Run(x, 1)])[..|r|] == r;
      }
      assert s == p + [x];
    }
  }

  /** Decoding splits over concatenation of whole pairs. */
  lemma {:induction false} DecodeAppend(a: seq<Byte>, b: seq<Byte>)
    requires TypeBytesValid(a) && TypeBytesValid(b)
    ensures TypeBytesValid(a + b)
    ensures DecodeTypes(a + b) == DecodeTypes(a) + DecodeTypes(b)
    decreases |a|
  {
    assert TypeBytesValid(a + b) by {
      forall k | 0 <= k < |a + b| && k % 2 == 0 ensures (a + b)[k] < NUM_BLOCK_TYPES {
        if k >= |a| {
          assert (a + b)[k] == b[k - |a|];
        }
      }
    }
    if |a| > 0 {
      assert (a + b)[2..] == a[2..] + b;
      assert TypeBytesValid(a[2..]) by {
        forall k | 0 <= k < |a[2..]| && k % 2 == 0 ensures a[2..][k] < NUM_BLOCK_TYPES {
          assert a[2..][k] == a[k + 2];
        }
      }
      DecodeAppend(a[2..], b);
    } else {
      assert a + b == b;
    }
  }

  /** Decoding the bytes of some runs yields the blocks those runs stand for. */
  lemma {:induction false} DecodeFlatten(runs: seq<Run>)
    requires forall k :: 0 <= k < |runs| ==> RunFitsByte(runs[k])
    ensures TypeBytesValid(Flatten(runs))
    ensures DecodeTypes(Flatten(runs)) == Expand(runs)
    decreases |runs|
  {
    FlattenValid(runs);
    if |runs| > 0 {
      var init := runs[..|runs| - 1];
      var last := runs[|runs| - 1];
      var pair: seq<Byte> := [last.blockType as Byte, last.count as Byte];
      DecodeFlatten(init);
      FlattenValid(init);
      assert TypeBytesValid(pair);
      DecodeAppend(Flatten(init), pair);
      assert pair[2..] == [];
    }
  }

  /** The flushed encoder round-trips: decoding what it emits gives back every block. */
  lemma EncodeFlushedRoundTrip(s: seq<BlockType>)
    ensures TypeBytesValid(EncodeFlushed(s))
    ensures DecodeTypes(EncodeFlushed(s)) == s
    ensures |s| <= NUM_BLOCKS_PER_CHUNK ==> WellFormedRle(EncodeFlushed(s))
  {
    RunsOfFacts(s);
    DecodeFlatten(RunsOf(s));
    ExpandRunsOf(s);
  }

  /** The encoder as written decodes to every block except the final run. */
  lemma EncodeAsWrittenDecodesPrefix(s: seq<BlockType>)
    requires |s| > 0
    ensures var r := RunsOf(s);
      TypeBytesValid(EncodeAsWritten(s))
      && 1 <= r[|r| - 1].count <= |s|
      && DecodeTypes(EncodeAsWritten(s)) == s[..|s| - r[|r| - 1].count]
      && forall k :: |s| - r[|r| - 1].count <= k < |s| ==> s[k] == s[|s| - 1]
  {
    var r := RunsOf(s);
    RunsOfFacts(s);
    var init := r[..|r| - 1];
    var last := r[|r| - 1];
    assert forall k :: 0 <= k < |init| ==> RunFitsByte(init[k]);
    DecodeFlatten(init);
    ExpandRunsOf(s);
    assert Expand(r) == Expand(init) + Repeat(last.blockType, last.count);
    assert s == Expand(init) + Repeat(last.blockType, last.count);
    assert s[..|s| - last.count] == Expand(init);
    forall k | |s| - last.count <= k < |s| ensures s[k] == s[|s| - 1] {
      assert s[k] == Repeat(last.blockType, last.count)[k - |Expand(init)|];
    }
  }

  /** The run the encoder is still counting after the blocks s: the last run of s. */
  function LastRun(s: seq<BlockType>): (r: Run)
    requires |s| > 0
    ensures RunFitsByte(r) && r.blockType == s[|s| - 1]
  {
    RunsOfFacts(s);
    RunsOf(s)[|RunsOf(s)| - 1]
  }

  /** Before its loop the encoder has emitted nothing and counts one block of the first type. */
  lemma EncodeFirstBlock(x: BlockType)
    ensures EncodeAsWritten([x]) == [] && LastRun([x]) == Run(x, 1)
  {
    assert [x][..0] == [];
    assert RunsOf([x]) == [Run(x, 1)];
  }

  /**
   * One step of the encoder's loop: a block of the counted type extends
   * the run while it is short of 255 and emits nothing; any other block
   * emits the counted run's pair and starts a new run of one.
   */
  lemma EncodeAsWrittenStep(s: seq<BlockType>, x: BlockType)
    requires |s| > 0
    ensures var last := LastRun(s);
      if last.blockType == x && last.count < MAX_RUN_LENGTH
      then EncodeAsWritten(s + [x]) == EncodeAsWritten(s) && LastRun(s + [x]) == Run(x, last.count + 1)
      else EncodeAsWritten(s + [x]) == EncodeAsWritten(s) + [last.blockType as Byte, last.count as Byte]
           && LastRun(s + [x]) == Run(x, 1)
  {
    var r := RunsOf(s);
    RunsOfFacts(s);
    RunsOfFacts(s + [x]);
    assert (s + [x])[..|s|] == s;
    var last := r[|r| - 1];
    if last.blockType == x && last.count < MAX_RUN_LENGTH {
      var r' := r[..|r| - 1] + [Run(x, last.count + 1)];
      assert RunsOf(s + [x]) == r';
      assert r'[..|r'| - 1] == r[..|r| - 1];
    } else {
      var r' := r + [Run(x, 1)];
      assert RunsOf(s + [x]) == r';
      assert r'[..|r'| - 1] == r;
      assert r[..|r| - 1][..|r| - 1] == r[..|r| - 1];
    }
  }

  /** The flushed encoding is the encoding as written followed by the pair of the last run. */
  lemma EncodeFlushedAppendsLastRun(s: seq<BlockType>)
    requires |s| > 0
    ensures EncodeFlushed(s) == EncodeAsWritten(s) + [LastRun(s).blockType as Byte, LastRun(s).count as Byte]
  {
    RunsOfFacts(s);
    var r := RunsOf(s);
    assert r[..|r| - 1][..|r| - 1] == r[..|r| - 1];
  }

  /** The bytes from an even position on are whole pairs of registered types too. */
  lemma TypeBytesValidSuffix(bytes: seq<Byte>, i: nat)
    requires TypeBytesValid(bytes) && i <= |bytes| && i % 2 == 0
    ensures TypeBytesValid(bytes[i..])
  {
    forall k | 0 <= k < |bytes[i..]| && k % 2 == 0 ensures bytes[i..][k] < NUM_BLOCK_TYPES {
      assert bytes[i..][k] == bytes[k + i];
    }
  }

  /** The blocks a decoder leaves in a chunk whose cells held `under` before decoding `decoded` over them. */
  function Overlay(decoded: seq<BlockType>, under: seq<BlockType>): (r: seq<BlockType>)
    requires |decoded| <= |under|
    ensures |r| == |under|
  {
    decoded + under[|decoded|..]
  }

  /**
   * Loading what the encoder as written saved into a freshly constructed
   * chunk (all AIR) reproduces the saved chunk exactly when its last block
   * is AIR.
   */
  lemma AsWrittenReloadIffLastAir(s: seq<BlockType>)
    requires |s| > 0
    ensures TypeBytesValid(EncodeAsWritten(s))
    ensures |DecodeTypes(EncodeAsWritten(s))| <= |s|
    ensures Overlay(DecodeTypes(EncodeAsWritten(s)), Repeat(AIR, |s|)) == s <==> s[|s| - 1] == AIR
  {
    EncodeAsWrittenDecodesPrefix(s);
    var r := RunsOf(s);
    var c := r[|r| - 1].count;
    var o := Overlay(DecodeTypes(EncodeAsWritten(s)), Repeat(AIR, |s|));
    assert o == s[..|s| - c] + Repeat(AIR, |s|)[|s| - c..];
    if s[|s| - 1] == AIR {
      assert o == s;
    } else {
      assert o[|s| - 1] == AIR;
    }
  }

  /** A chunk of solid STONE does not survive the encoder as written: its last blocks reload as AIR. */
  lemma AsWrittenLosesStoneTop()
    ensures var s := Repeat(STONE, NUM_BLOCKS_PER_CHUNK);
      TypeBytesValid(EncodeAsWritten(s))
      && |DecodeTypes(EncodeAsWritten(s))| <= |s|
      && Overlay(DecodeTypes(EncodeAsWritten(s)), Repeat(AIR, |s|)) != s
  {
    AsWrittenReloadIffLastAir(Repeat(STONE, NUM_BLOCKS_PER_CHUNK));
  }
}
