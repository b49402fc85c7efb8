/**
  Echo envelopes: how far an echo extends on each side of its peak while the neighbouring
  samples stay finite and at or above a threshold. The ESP3-style detector caps each side at
  `max_len` samples (PLDL expansion); the Matecho-style detector does not cap it (6 dB width),
  which is a cap no run can reach.
*/
module Envelope {
  import opened Samples

  /** The number of consecutive samples just before `k` that are finite and `>= thr`, at most `cap`. */
  function RunLeft(z: seq<Db>, k: nat, thr: real, cap: nat): (n: nat)
    requires k < |z|
    ensures n <= cap && n <= k
    decreases k
  {
    if k == 0 || cap == 0 || !AtLeast(z[k - 1], thr) then 0
    else 1 + RunLeft(z, k - 1, thr, cap - 1)
  }

  /** The number of consecutive samples just after `k` that are finite and `>= thr`, at most `cap`. */
  function RunRight(z: seq<Db>, k: nat, thr: real, cap: nat): (n: nat)
    requires k < |z|
    ensures n <= cap && k + n < |z|
    decreases |z| - k
  {
    if k + 1 >= |z| || cap == 0 || !AtLeast(z[k + 1], thr) then 0
    else 1 + RunRight(z, k + 1, thr, cap - 1)
  }

  /**
    The left run is exactly the samples before `k` at or above `thr`: all of them pass, and
    the run stops at the cap, at the start of the column or at a sample that fails.
  */
  lemma {:induction false} RunLeftExact(z: seq<Db>, k: nat, thr: real, cap: nat)
    requires k < |z|
    ensures var n := RunLeft(z, k, thr, cap);
      && (forall i | k - n <= i < k :: AtLeast(z[i], thr))
      && (n < cap && n < k ==> !AtLeast(z[k - 1 - n], thr))
    decreases k
  {
    if k > 0 && cap > 0 && AtLeast(z[k - 1], thr) {
      RunLeftExact(z, k - 1, thr, cap - 1);
    }
  }

  /**
    The right run is exactly the samples after `k` at or above `thr`: all of them pass, and
    the run stops at the cap, at the end of the column or at a sample that fails.
  */
  lemma {:induction false} RunRightExact(z: seq<Db>, k: nat, thr: real, cap: nat)
    requires k < |z|
    ensures var n := RunRight(z, k, thr, cap);
      && (forall i | k < i <= k + n :: AtLeast(z[i], thr))
      && (n < cap && k + n + 1 < |z| ==> !AtLeast(z[k + n + 1], thr))
    decreases |z| - k
  {
    if k + 1 < |z| && cap > 0 && AtLeast(z[k + 1], thr) {
      RunRightExact(z, k + 1, thr, cap - 1);
    }
  }
}
