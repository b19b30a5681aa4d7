/** Splitting a key list into the consecutive batches of at most 500 keys
    that `Delete` issues, and the first batch the backend refuses. */
module Batches {
  import opened Types

  /** The backend's per-call ceiling on keys. */
  const BatchSize: nat := 500

  /** The consecutive slices of `s`, each `BatchSize` long except the last. */
  function Chunks<X>(s: seq<X>): seq<seq<X>>
    decreases |s|
  {
    if |s| == 0 then []
    else if |s| <= BatchSize then [s]
    else [s[..BatchSize]] + Chunks(s[BatchSize..])
  }

  /** The batches laid end to end. */
  function Flatten<X>(bs: seq<seq<X>>): seq<X>
  {
    if bs == [] then [] else bs[0] + Flatten(bs[1..])
  }

  /** How many of `n` keys the first `k` batches hold: min(500k, n). */
  function Covered(k: nat, n: nat): nat
  {
    if k * BatchSize < n then k * BatchSize else n
  }

  /** Number of batches for `n` keys: ceil(n / 500). */
  function BatchCount(n: nat): nat
  {
    (n + BatchSize - 1) / BatchSize
  }

  /** End of the batch that starts at `i` among `n` keys. */
  function BatchEnd(i: nat, n: nat): nat
  {
    if i + BatchSize > n then n else i + BatchSize
  }

  /** Batch `j` exists exactly when its first key does. */
  lemma BatchIndex(n: nat, j: nat)
    ensures j < BatchCount(n) <==> j * BatchSize < n
  {
  }

  /** Exactly ceil(N/500) batches. */
  lemma {:induction false} ChunkCount<X>(s: seq<X>)
    ensures |Chunks(s)| == BatchCount(|s|)
    decreases |s|
  {
    if |s| > BatchSize {
      ChunkCount(s[BatchSize..]);
    }
  }

  /** Batch `j` is the slice `s[500j .. min(500j + 500, N)]`. */
  lemma {:induction false} ChunkAt<X>(s: seq<X>, j: nat)
    requires j < BatchCount(|s|)
    ensures |Chunks(s)| == BatchCount(|s|)
    ensures j * BatchSize < |s|
    ensures Chunks(s)[j] == s[j * BatchSize .. BatchEnd(j * BatchSize, |s|)]
    decreases |s|
  {
    ChunkCount(s);
    BatchIndex(|s|, j);
    if j > 0 {
      ChunkAt(s[BatchSize..], j - 1);
      assert s[BatchSize..][(j - 1) * BatchSize .. BatchEnd((j - 1) * BatchSize, |s| - BatchSize)]
          == s[j * BatchSize .. BatchEnd(j * BatchSize, |s|)];
    }
  }

  /** Every batch is non-empty and holds at most 500 keys. */
  lemma {:induction false} ChunkSizes<X>(s: seq<X>)
    ensures forall j :: 0 <= j < |Chunks(s)| ==> 0 < |Chunks(s)[j]| <= BatchSize
    decreases |s|
  {
    if |s| > BatchSize {
      ChunkSizes(s[BatchSize..]);
    }
  }

  /** The batches cover every key exactly once, in order. */
  lemma {:induction false} ChunksCover<X>(s: seq<X>)
    ensures Flatten(Chunks(s)) == s
    decreases |s|
  {
    if |s| > BatchSize {
      ChunksCover(s[BatchSize..]);
      assert Chunks(s)[1..] == Chunks(s[BatchSize..]);
      assert s == s[..BatchSize] + s[BatchSize..];
    } else if |s| > 0 {
      assert Flatten(Chunks(s)) == s + Flatten([]);
    }
  }

  /** Index of the first batch the backend's delete refuses, or the number
      of batches when it accepts them all. */
  function FirstRefused(bs: seq<seq<Key>>, del: seq<Key> -> Option<string>): (k: nat)
    ensures k <= |bs|
    ensures forall j :: 0 <= j < k ==> del(bs[j]) == None
    ensures k < |bs| ==> del(bs[k]) != None
    decreases |bs|
  {
    if bs == [] then 0
    else if del(bs[0]) != None then 0
    else 1 + FirstRefused(bs[1..], del)
  }

  /** The first refused batch is the one that fails after all before it
      succeeded. */
  lemma RefusedAt(bs: seq<seq<Key>>, del: seq<Key> -> Option<string>, j: nat)
    requires j <= |bs|
    requires forall m :: 0 <= m < j ==> del(bs[m]) == None
    requires j < |bs| ==> del(bs[j]) != None
    ensures FirstRefused(bs, del) == j
  {
  }

  /** What deleting `keys` batch by batch leaves behind: every batch up to
      and including the first refused one was issued, in order, and nothing
      after it; the outcome is that batch's error, or success when there is
      none. */
  ghost predicate BatchedDelete<T>(keys: seq<Key>, del: seq<Key> -> Option<string>, r: Outcome, issued: seq<Call<T>>)
  {
    var bs := Chunks(keys);
    var k := FirstRefused(bs, del);
    if k == |bs| then r == Pass && issued == DeleteCalls(bs)
    else r == Fail(BackendError(del(bs[k]).value)) && issued == DeleteCalls(bs[..k + 1])
  }

  /** The log entries of deleting batches `bs`, one call each, in order. */
  function DeleteCalls<T>(bs: seq<seq<Key>>): seq<Call<T>>
  {
    seq(|bs|, j requires 0 <= j < |bs| => DeleteMultiCall(bs[j]))
  }

  /** The keys handed to the backend by the delete calls in `issued`, in order. */
  function IssuedKeys<T>(issued: seq<Call<T>>): seq<Key>
  {
    if issued == [] then []
    else (if issued[0].DeleteMultiCall? then issued[0].batch else []) + IssuedKeys(issued[1..])
  }

  lemma {:induction false} IssuedKeysOfBatches<T>(bs: seq<seq<Key>>)
    ensures IssuedKeys(DeleteCalls<T>(bs)) == Flatten(bs)
    decreases |bs|
  {
    if bs != [] {
      assert DeleteCalls<T>(bs)[1..] == DeleteCalls<T>(bs[1..]);
      IssuedKeysOfBatches<T>(bs[1..]);
    }
  }

  /** The first `k` batches laid end to end are the first min(500k, N) keys. */
  lemma {:induction false} ChunksPrefix<X>(s: seq<X>, k: nat)
    requires k <= |Chunks(s)|
    ensures Flatten(Chunks(s)[..k]) == s[..Covered(k, |s|)]
    decreases |s|
  {
    if k > 0 {
      if |s| <= BatchSize {
        assert Chunks(s)[..k] == [s];
        assert Flatten([s]) == s + Flatten([]);
      } else {
        ChunksPrefix(s[BatchSize..], k - 1);
        assert Chunks(s)[..k][1..] == Chunks(s[BatchSize..])[..k - 1];
      }
    }
  }

  /** What a batched delete amounts to. A success issued ceil(N/500) calls
      that together cover every key exactly once, in order, and no key list
      means no call. A failure issued the batches up to and including the
      refused one, which therefore cover a prefix of the keys; every batch
      before it succeeded and its error is the one reported. */
  lemma {:induction false} DeleteEffect<T>(keys: seq<Key>, del: seq<Key> -> Option<string>, r: Outcome, issued: seq<Call<T>>)
    requires BatchedDelete(keys, del, r, issued)
    ensures r == Pass ==> |issued| == BatchCount(|keys|) && IssuedKeys(issued) == keys
    ensures r != Pass ==>
      && 1 <= |issued| <= BatchCount(|keys|)
      && IssuedKeys(issued) == keys[..Covered(|issued|, |keys|)]
      && issued[|issued| - 1] == DeleteMultiCall(Chunks(keys)[|issued| - 1])
      && (forall m :: 0 <= m < |issued| - 1 ==> del(Chunks(keys)[m]) == None)
      && del(Chunks(keys)[|issued| - 1]) != None
      && r == Fail(BackendError(del(Chunks(keys)[|issued| - 1]).value))
    ensures keys == [] ==> r == Pass && issued == []
  {
    var bs := Chunks(keys);
    var k := FirstRefused(bs, del);
    ChunkCount(keys);
    if k == |bs| {
      IssuedKeysOfBatches<T>(bs);
      ChunksCover(keys);
    } else {
      IssuedKeysOfBatches<T>(bs[..k + 1]);
      ChunksPrefix(keys, k + 1);
    }
  }
}
