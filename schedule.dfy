/**
 * Ownership and synchronisation of the classifier ensemble. Classifier j
 * is owned by worker j % W; only its owner fits it, and `sync(owner)`
 * then replicates it everywhere. The bootstrap loop syncs in batches that
 * close whenever (j+1) % W == 0 or j+1 == len.
 */
module Schedule {
  import opened Common

  /** A call into the classifier backend, in the order a worker issues it. */
  datatype Event = Fit(j: nat) | Sync(j: nat, owner: nat)

  /** A sync batch: the classifiers first..last, inclusive. */
  datatype Batch = Batch(first: nat, last: nat)

  /** The classifiers a worker fits: its own, in increasing order. */
  function FitsOf(log: seq<Event>): seq<nat>
  {
    if log == [] then []
    else FitsOf(log[..|log| - 1]) + (if log[|log| - 1].Fit? then [log[|log| - 1].j] else [])
  }

  /** The sync calls of a log, in order. */
  function SyncsOf(log: seq<Event>): seq<Event>
  {
    if log == [] then []
    else SyncsOf(log[..|log| - 1]) + (if log[|log| - 1].Sync? then [log[|log| - 1]] else [])
  }

  /** Every classifier below n synced once, in increasing order, from its owner. */
  function AllSyncs(n: nat, W: nat): (s: seq<Event>)
    requires W >= 1
    ensures |s| == n
    ensures forall j :: 0 <= j < n ==> s[j] == Sync(j, j % W)
  {
    seq(n, j requires 0 <= j < n => Sync(j, j % W))
  }

  /** The classifiers below n that worker `rank` owns, in increasing order. */
  function Owned(n: nat, W: nat, rank: nat): seq<nat>
    requires W >= 1
  {
    if n == 0 then [] else Owned(n - 1, W, rank) + (if (n - 1) % W == rank then [n - 1] else [])
  }

  /** Owned lists exactly the classifiers j < n with j % W == rank, increasing. */
  lemma {:induction false} OwnedMembers(n: nat, W: nat, rank: nat)
    requires W >= 1
    ensures forall j: nat :: j in Owned(n, W, rank) <==> j < n && j % W == rank
    ensures forall p, q :: 0 <= p < q < |Owned(n, W, rank)| ==> Owned(n, W, rank)[p] < Owned(n, W, rank)[q]
  {
    if n > 0 {
      OwnedMembers(n - 1, W, rank);
      var prev := Owned(n - 1, W, rank);
      assert forall p :: 0 <= p < |prev| ==> prev[p] in prev;
      if (n - 1) % W == rank {
        assert Owned(n, W, rank) == prev + [n - 1];
      } else {
        assert Owned(n, W, rank) == prev;
      }
      forall j: nat
        ensures j in Owned(n, W, rank) <==> j < n && j % W == rank
      {
        assert j in prev <==> j < n - 1 && j % W == rank;
      }
    }
  }

  lemma AppendEvent(log: seq<Event>, e: Event)
    ensures FitsOf(log + [e]) == FitsOf(log) + (if e.Fit? then [e.j] else [])
    ensures SyncsOf(log + [e]) == SyncsOf(log) + (if e.Sync? then [e] else [])
  {
    assert (log + [e])[..|log|] == log;
  }

  /** No classifier is fitted after it has been synced. */
  predicate FitsBeforeSyncs(log: seq<Event>)
  {
    forall p, q :: 0 <= p < q < |log| && log[p].Sync? && log[q].Fit? ==> log[p].j != log[q].j
  }

  /** Every classifier synced so far is below n. */
  predicate SyncsBelow(log: seq<Event>, n: nat)
  {
    forall p :: 0 <= p < |log| && log[p].Sync? ==> log[p].j < n
  }

  /** Fitting a classifier that is not yet synced keeps the log in order. */
  lemma AppendFit(log: seq<Event>, j: nat, n: nat)
    requires SyncsBelow(log, n) && FitsBeforeSyncs(log) && n <= j
    ensures FitsOf(log + [Fit(j)]) == FitsOf(log) + [j]
    ensures SyncsOf(log + [Fit(j)]) == SyncsOf(log)
    ensures SyncsBelow(log + [Fit(j)], n) && FitsBeforeSyncs(log + [Fit(j)])
  {
    AppendEvent(log, Fit(j));
  }

  /** Syncing the next classifier from its owner extends the sync sequence by one. */
  lemma AppendSync(log: seq<Event>, jj: nat, W: nat)
    requires W >= 1 && SyncsBelow(log, jj) && FitsBeforeSyncs(log) && SyncsOf(log) == AllSyncs(jj, W)
    ensures FitsOf(log + [Sync(jj, jj % W)]) == FitsOf(log)
    ensures SyncsOf(log + [Sync(jj, jj % W)]) == AllSyncs(jj + 1, W)
    ensures SyncsBelow(log + [Sync(jj, jj % W)], jj + 1) && FitsBeforeSyncs(log + [Sync(jj, jj % W)])
  {
    AppendEvent(log, Sync(jj, jj % W));
    AllSyncsSucc(jj, W);
    var log' := log + [Sync(jj, jj % W)];
    assert forall p :: 0 <= p < |log| ==> log'[p] == log[p];
  }

  lemma AllSyncsSucc(n: nat, W: nat)
    requires W >= 1
    ensures AllSyncs(n + 1, W) == AllSyncs(n, W) + [Sync(n, n % W)]
  {
  }

  /**
   * The batches tile [0, n) in order: each is a non-empty contiguous range
   * of at most W classifiers, the next starts where the previous ended,
   * and each ends on a multiple of W or at the last classifier.
   */
  predicate Tiles(batches: seq<Batch>, n: nat, W: nat, len: nat)
    requires W >= 1
  {
    (|batches| == 0 <==> n == 0) &&
    (|batches| > 0 ==> batches[0].first == 0 && batches[|batches| - 1].last + 1 == n) &&
    (forall k :: 0 <= k < |batches| ==>
      batches[k].first <= batches[k].last &&
      batches[k].last - batches[k].first < W &&
      ((batches[k].last + 1) % W == 0 || batches[k].last + 1 == len)) &&
    (forall k :: 0 <= k < |batches| - 1 ==> batches[k + 1].first == batches[k].last + 1)
  }

  lemma TilesExtend(batches: seq<Batch>, oldJ: nat, j: nat, W: nat, len: nat)
    requires W >= 1 && oldJ <= j && j - oldJ < W
    requires (j + 1) % W == 0 || j + 1 == len
    requires Tiles(batches, oldJ, W, len)
    ensures Tiles(batches + [Batch(oldJ, j)], j + 1, W, len)
  {
  }

  lemma ModSucc(j: nat, W: nat)
    requires W >= 1
    ensures (j + 1) % W == if j % W == W - 1 then 0 else j % W + 1
  {
    var q, r := j / W, j % W;
    assert j == q * W + r;
    if r == W - 1 {
      assert j + 1 == (q + 1) * W + 0;
      CellDivMod(W, q + 1, 0);
    } else {
      assert j + 1 == q * W + (r + 1);
      CellDivMod(W, q, r + 1);
    }
  }

  /** Close a batch: sync classifiers first..last, each from its owner. */
  method SyncBatch(log0: seq<Event>, first: nat, last: nat, W: nat) returns (log: seq<Event>)
    requires W >= 1 && first <= last + 1
    requires SyncsOf(log0) == AllSyncs(first, W)
    requires SyncsBelow(log0, first)
    requires FitsBeforeSyncs(log0)
    ensures FitsOf(log) == FitsOf(log0)
    ensures SyncsOf(log) == AllSyncs(last + 1, W)
    ensures SyncsBelow(log, last + 1)
    ensures FitsBeforeSyncs(log)
  {
    log := log0;
    var jj := first;
    while jj <= last
      invariant first <= jj <= last + 1
      invariant FitsOf(log) == FitsOf(log0)
      invariant SyncsOf(log) == AllSyncs(jj, W)
      invariant SyncsBelow(log, jj)
      invariant FitsBeforeSyncs(log)
    {
      AppendSync(log, jj, W);
      log := log + [Sync(jj, jj % W)];
      jj := jj + 1;
    }
  }

  /**
   * The worker-`rank` view of the bootstrap loop: it fits the classifiers
   * it owns and closes a batch of syncs whenever (j+1) % W == 0 or
   * j+1 == len.
   */
  method BootstrapSchedule(len: nat, W: nat, rank: nat) returns (log: seq<Event>, batches: seq<Batch>)
    requires W >= 1 && rank < W
    ensures FitsOf(log) == Owned(len, W, rank)
    ensures SyncsOf(log) == AllSyncs(len, W)
    ensures FitsBeforeSyncs(log)
    ensures Tiles(batches, len, W, len)
  {
    log, batches := [], [];
    var oldJ := 0;
    var j := 0;
    while j < len
      invariant 0 <= oldJ <= j <= len
      invariant j < len ==> j - oldJ == j % W
      invariant j == len ==> oldJ == len
      invariant FitsOf(log) == Owned(j, W, rank)
      invariant SyncsOf(log) == AllSyncs(oldJ, W)
      invariant SyncsBelow(log, oldJ)
      invariant FitsBeforeSyncs(log)
      invariant Tiles(batches, oldJ, W, len)
    {
      if j % W == rank {
        AppendFit(log, j, oldJ);
        log := log + [Fit(j)];
      }
      ModSucc(j, W);
      if (j + 1) % W == 0 || j + 1 == len {
        log := SyncBatch(log, oldJ, j, W);
        TilesExtend(batches, oldJ, j, W, len);
        batches := batches + [Batch(oldJ, j)];
        oldJ := j + 1;
      }
      j := j + 1;
    }
  }

  /** The start of ML_BADMM: every classifier synced once from its owner. */
  method InitialSyncs(len: nat, W: nat) returns (log: seq<Event>)
    requires W >= 1
    ensures log == AllSyncs(len, W)
  {
    log := [];
    var i := 0;
    while i < len
      invariant 0 <= i <= len
      invariant log == AllSyncs(i, W)
    {
      log := log + [Sync(i, i % W)];
      i := i + 1;
    }
  }
}
