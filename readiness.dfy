/** The ready tracker of PanSVG: every image's load or error signal counts one
    settled image, and the element becomes ready once the settled count reaches
    the number of images created. */
module Readiness {

  /** The two image events; both are handled by the same counter step. */
  datatype ImageSignal = Load | Error

  /** totalImages, loadedImages and ready of the element. */
  datatype Counter = Counter(total: nat, loaded: nat, ready: bool)

  /** The counter before any image has settled. */
  function Initial(total: nat): Counter
  {
    Counter(total, 0, false)
  }

  /** The relation the element keeps between the flag and the counts: ready
      exactly when at least one image has settled and no fewer than were created. */
  predicate Consistent(c: Counter)
  {
    c.ready <==> (c.loaded > 0 && c.loaded >= c.total)
  }

  /** #checkReady: one more settled image; set the flag once the count reaches
      the total, and never clear it. A consistent counter stays consistent. */
  function CheckReady(c: Counter): (r: Counter)
    ensures r.total == c.total && r.loaded == c.loaded + 1
    ensures c.ready ==> r.ready
    ensures !c.ready ==> (r.ready <==> r.loaded >= c.total)
    ensures Consistent(c) ==> Consistent(r)
  {
    var loaded := c.loaded + 1;
    Counter(c.total, loaded, if loaded >= c.total then true else c.ready)
  }

  /** The counter after a sequence of load or error signals, in delivery order:
      the total is kept and every signal adds one to the count. */
  function Settle(c: Counter, signals: seq<ImageSignal>): (r: Counter)
    ensures r.total == c.total && r.loaded == c.loaded + |signals|
    decreases |signals|
  {
    if signals == [] then c else Settle(CheckReady(c), signals[1..])
  }

  /** From a consistent counter, after any sequence of signals the flag says
      whether the count has reached the total; which signals arrived, and in
      which order, does not matter. */
  lemma {:induction false} SettleCounts(c: Counter, signals: seq<ImageSignal>)
    requires Consistent(c)
    ensures Settle(c, signals).ready <==> (c.loaded + |signals| > 0 && c.loaded + |signals| >= c.total)
    decreases |signals|
  {
    if signals != [] {
      SettleCounts(CheckReady(c), signals[1..]);
    }
  }

  /** Loads and errors are counted alike: from any counter, two sequences of
      the same length, whatever their signals, leave the same counter. */
  lemma {:induction false} SignalKindIrrelevant(c: Counter, s1: seq<ImageSignal>, s2: seq<ImageSignal>)
    requires |s1| == |s2|
    ensures Settle(c, s1) == Settle(c, s2)
    decreases |s1|
  {
    if s1 != [] {
      SignalKindIrrelevant(CheckReady(c), s1[1..], s2[1..]);
    }
  }

  /** From the initial counter over `total` > 0 images, the flag is still clear
      after fewer than `total` signals, set after `total` of them, and the k-th
      signal is the one that sets it exactly when k == total. */
  lemma ReadyFiresOnce(total: nat, signals: seq<ImageSignal>, k: nat)
    requires total > 0
    requires 0 < k <= |signals|
    ensures Settle(Initial(total), signals[..k]).ready <==> k >= total
    ensures (!Settle(Initial(total), signals[..k - 1]).ready && Settle(Initial(total), signals[..k]).ready) <==> k == total
  {
    SettleCounts(Initial(total), signals[..k]);
    SettleCounts(Initial(total), signals[..k - 1]);
  }

  /** A set flag is never cleared by later signals. */
  lemma {:induction false} ReadyMonotone(c: Counter, signals: seq<ImageSignal>)
    requires c.ready
    ensures Settle(c, signals).ready
    decreases |signals|
  {
    if signals != [] {
      ReadyMonotone(CheckReady(c), signals[1..]);
    }
  }
}
