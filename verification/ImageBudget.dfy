/**
 * Embedding the images of a paste within a size budget, by a bounded number of runners
 * that take images off a shared counter and meet again whenever one awaits a download.
 */
module ImageBudget {
  import opened Basics
  import opened TransferProtocol

  const FETCH_CONCURRENCY: nat := 6

  /** A source that is already a data: address, by its length, or one to be fetched. */
  datatype Source = Embedded(len: nat) | Remote

  datatype Outcome = Kept(len: nat) | Inlined(len: nat) | Dropped

  /** A runner between two awaits: about to look at the counter, waiting, or done. */
  datatype Runner = Ready | Fetching(i: nat) | Finished

  /** `outcomes`, what became of each image, is history. */
  datatype Pool = Pool(next: nat, used: nat, inlined: nat, dropped: nat, runners: seq<Runner>, outcomes: map<nat,
                       Outcome>)

  datatype Step = Turn(r: nat) | Arrive(r: nat, fetched: Option<nat>)

  function Limit(n: nat): nat { Min(FETCH_CONCURRENCY, n) }

  function Start(n: nat, used: nat): Pool { Pool(0, used, 0, 0, seq(Limit(n), _ => Ready), map[]) }

  // ------------------------------------------------------------- one image

  /** An image whose source is already embedded: kept if it fits. */
  function OnEmbedded(p: Pool, i: nat, len: nat): Pool {
    if p.used + len > MAX_DOC_BYTES then p.(dropped := p.dropped + 1, outcomes := p.outcomes[i := Dropped])
    else p.(used := p.used + len, outcomes := p.outcomes[i := Kept(len)])
  }

  /** An image whose download has ended, in an address of some length or in failure. */
  function OnFetched(p: Pool, i: nat, fetched: Option<nat>): Pool {
    if fetched.None? || p.used + fetched.value > MAX_DOC_BYTES
    then p.(dropped := p.dropped + 1, outcomes := p.outcomes[i := Dropped])
    else p.(used := p.used + fetched.value, inlined := p.inlined + 1,
            outcomes := p.outcomes[i := Inlined(fetched.value)])
  }

  predicate CanStep(p: Pool, step: Step) {
    match step
    case Turn(r) => r < |p.runners| && p.runners[r].Ready?
    case Arrive(r, _) => r < |p.runners| && p.runners[r].Fetching?
  }

  function Next(images: seq<Source>, p: Pool, step: Step): Pool
    requires CanStep(p, step)
  {
    match step
    case Turn(r) =>
      if p.next >= |images| then p.(runners := p.runners[r := Finished])
      else
        var p1 := p.(next := p.next + 1);
        if images[p.next].Remote? then p1.(runners := p.runners[r := Fetching(p.next)])
        else OnEmbedded(p1, p.next, images[p.next].len)
    case Arrive(r, fetched) =>
      OnFetched(p.(runners := p.runners[r := Ready]), p.runners[r].i, fetched)
  }

  predicate IsRun(images: seq<Source>, p: Pool, steps: seq<Step>, last: Pool)
    decreases |steps|
  {
    if steps == [] then p == last
    else CanStep(p, steps[0]) && IsRun(images, Next(images, p, steps[0]), steps[1..], last)
  }

  // --------------------------------------------------------------- invariant

  function Size(o: Outcome): nat { if o.Dropped? then 0 else o.len }

  /** Bytes accepted for the first k images. */
  function Accepted(outcomes: map<nat, Outcome>, k: nat): nat {
    if k == 0 then 0 else Accepted(outcomes, k - 1) + if k - 1 in outcomes then Size(outcomes[k - 1]) else 0
  }

  /** How many of the first k images became of one kind. */
  function Count(outcomes: map<nat, Outcome>, k: nat, kind: Outcome -> bool): nat {
    if k == 0 then 0 else Count(outcomes, k - 1, kind) + if k - 1 in outcomes && kind(outcomes[k - 1]) then 1 else 0
  }

  predicate IsKept(o: Outcome) { o.Kept? }
  predicate IsInlined(o: Outcome) { o.Inlined? }
  predicate IsDropped(o: Outcome) { o.Dropped? }

  /** An image taken is being fetched by exactly one runner, or has an outcome. */
  ghost predicate Shared(runners: seq<Runner>, outcomes: map<nat, Outcome>, next: nat) {
    && (forall i :: i in outcomes ==> i < next)
    && (forall r :: 0 <= r < |runners| && runners[r].Fetching? ==> runners[r].i < next && runners[r].i !in outcomes)
    && (forall r, q :: 0 <= r < q < |runners| && runners[r].Fetching? && runners[q].Fetching? ==>
        runners[r].i != runners[q].i)
    && (forall i :: 0 <= i < next && i !in outcomes ==> exists r :: 0 <= r < |runners| && runners[r] == Fetching(i))
  }

  ghost predicate Tallied(p: Pool, n: nat, initial: nat) {
    && p.used == initial + Accepted(p.outcomes, n)
    && p.inlined == Count(p.outcomes, n, IsInlined) && p.dropped == Count(p.outcomes, n, IsDropped)
    && (initial <= MAX_DOC_BYTES ==> p.used <= MAX_DOC_BYTES)
    && (initial > MAX_DOC_BYTES ==> p.used == initial)
  }

  /** Embedded images are never fetched and remote ones never kept as they are. */
  predicate Faithful(images: seq<Source>, outcomes: map<nat, Outcome>) {
    forall i :: i in outcomes ==> i < |images| && Fitting(images[i], outcomes[i])
  }

  predicate Fitting(image: Source, o: Outcome) {
    match o
    case Kept(len) => image == Embedded(len)
    case Inlined(_) => image.Remote?
    case Dropped => true
  }

  ghost predicate PoolInv(images: seq<Source>, initial: nat, p: Pool) {
    && p.next <= |images| && |p.runners| == Limit(|images|)
    && Shared(p.runners, p.outcomes, p.next) && Tallied(p, |images|, initial) && Faithful(images, p.outcomes)
    && (forall r :: 0 <= r < |p.runners| && p.runners[r].Fetching? ==>
        p.runners[r].i < |images| && images[p.runners[r].i].Remote?)
    && (forall r :: 0 <= r < |p.runners| && p.runners[r].Finished? ==> p.next == |images|)
  }

  lemma {:induction false} AcceptedMore(outcomes: map<nat, Outcome>, i: nat, o: Outcome, k: nat)
    requires i !in outcomes
    ensures Accepted(outcomes[i := o], k) == Accepted(outcomes, k) + if i < k then Size(o) else 0
  {
    if k > 0 { AcceptedMore(outcomes, i, o, k - 1); }
  }

  lemma {:induction false} CountMore(outcomes: map<nat, Outcome>, i: nat, o: Outcome, k: nat, kind: Outcome -> bool)
    requires i !in outcomes
    ensures Count(outcomes[i := o], k, kind) == Count(outcomes, k, kind) + if i < k && kind(o) then 1 else 0
  {
    if k > 0 { CountMore(outcomes, i, o, k - 1, kind); }
  }

  /** Settling an image, whichever way, keeps the tally. */
  lemma TallyMore(p: Pool, p': Pool, n: nat, initial: nat, i: nat, o: Outcome)
    requires Tallied(p, n, initial) && i < n && i !in p.outcomes && p'.outcomes == p.outcomes[i := o]
    requires p'.used == p.used + Size(o) && (p'.used <= MAX_DOC_BYTES || o.Dropped?)
    requires p'.inlined == p.inlined + (if o.Inlined? then 1 else 0)
    requires p'.dropped == p.dropped + (if o.Dropped? then 1 else 0)
    ensures Tallied(p', n, initial)
  {
    AcceptedMore(p.outcomes, i, o, n);
    CountMore(p.outcomes, i, o, n, IsInlined);
    CountMore(p.outcomes, i, o, n, IsDropped);
    hide Accepted, Count;
  }

  lemma TurnKeeps(images: seq<Source>, initial: nat, p: Pool, r: nat)
    requires PoolInv(images, initial, p) && CanStep(p, Turn(r))
    ensures PoolInv(images, initial, Next(images, p, Turn(r)))
  {
    hide Tallied, Shared;
    var i := p.next;
    if i >= |images| {
      FinishShares(p.runners, p.outcomes, i, r);
      SameTally(p, Next(images, p, Turn(r)), |images|, initial);
    } else {
      NotYetTaken(p.runners, p.outcomes, i);
      if images[i].Embedded? {
        var p' := Next(images, p, Turn(r));
        TallyMore(p, p', |images|, initial, i, p'.outcomes[i]);
        EmbeddedShares(p.runners, p.outcomes, i, p'.outcomes[i]);
      } else {
        RemoteShares(p.runners, p.outcomes, i, r);
        SameTally(p, Next(images, p, Turn(r)), |images|, initial);
      }
    }
  }

  lemma SameTally(p: Pool, p': Pool, n: nat, initial: nat)
    requires Tallied(p, n, initial) && p'.used == p.used && p'.inlined == p.inlined && p'.dropped == p.dropped
    requires p'.outcomes == p.outcomes
    ensures Tallied(p', n, initial)
  {
  }

  lemma NotYetTaken(runners: seq<Runner>, outcomes: map<nat, Outcome>, next: nat)
    requires Shared(runners, outcomes, next)
    ensures next !in outcomes
  {
  }

  lemma EmbeddedShares(runners: seq<Runner>, outcomes: map<nat, Outcome>, next: nat, o: Outcome)
    requires Shared(runners, outcomes, next)
    ensures Shared(runners, outcomes[next := o], next + 1)
  {
  }

  lemma RemoteShares(runners: seq<Runner>, outcomes: map<nat, Outcome>, next: nat, r: nat)
    requires Shared(runners, outcomes, next) && r < |runners| && runners[r].Ready?
    ensures Shared(runners[r := Fetching(next)], outcomes, next + 1)
  {
    var now := runners[r := Fetching(next)];
    forall i | 0 <= i < next + 1 && i !in outcomes ensures exists q :: 0 <= q < |now| && now[q] == Fetching(i) {
      if i == next {
        assert now[r] == Fetching(i);
      } else {
        var q :| 0 <= q < |runners| && runners[q] == Fetching(i);
        assert now[q] == Fetching(i);
      }
    }
  }

  lemma FinishShares(runners: seq<Runner>, outcomes: map<nat, Outcome>, next: nat, r: nat)
    requires Shared(runners, outcomes, next) && r < |runners| && runners[r].Ready?
    ensures Shared(runners[r := Finished], outcomes, next)
  {
    var now := runners[r := Finished];
    forall i | 0 <= i < next && i !in outcomes ensures exists q :: 0 <= q < |now| && now[q] == Fetching(i) {
      var q :| 0 <= q < |runners| && runners[q] == Fetching(i);
      assert now[q] == Fetching(i);
    }
  }

  lemma ArriveShares(runners: seq<Runner>, outcomes: map<nat, Outcome>, next: nat, r: nat, o: Outcome)
    requires Shared(runners, outcomes, next) && r < |runners| && runners[r].Fetching?
    ensures Shared(runners[r := Ready], outcomes[runners[r].i := o], next)
  {
    var now, done := runners[r := Ready], outcomes[runners[r].i := o];
    forall i | 0 <= i < next && i !in done ensures exists q :: 0 <= q < |now| && now[q] == Fetching(i) {
      var q :| 0 <= q < |runners| && runners[q] == Fetching(i);
      assert now[q] == Fetching(i);
    }
    forall q | 0 <= q < |now| && now[q].Fetching? ensures now[q].i !in done {
      assert q != r && runners[q] == now[q];
    }
  }

  lemma ArriveKeeps(images: seq<Source>, initial: nat, p: Pool, r: nat, fetched: Option<nat>)
    requires PoolInv(images, initial, p) && CanStep(p, Arrive(r, fetched))
    ensures PoolInv(images, initial, Next(images, p, Arrive(r, fetched)))
  {
    var p', i := Next(images, p, Arrive(r, fetched)), p.runners[r].i;
    assert i !in p.outcomes;
    hide Tallied, Shared;
    TallyMore(p, p', |images|, initial, i, p'.outcomes[i]);
    ArriveShares(p.runners, p.outcomes, p.next, r, p'.outcomes[i]);
  }

  lemma {:induction false} RunKeeps(images: seq<Source>, initial: nat, p: Pool, steps: seq<Step>, last: Pool)
    requires PoolInv(images, initial, p) && IsRun(images, p, steps, last)
    ensures PoolInv(images, initial, last)
    decreases |steps|
  {
    if steps != [] {
      match steps[0] {
        case Turn(r) => TurnKeeps(images, initial, p, r);
        case Arrive(r, fetched) => ArriveKeeps(images, initial, p, r, fetched);
      }
      hide PoolInv, CanStep, Next;
      RunKeeps(images, initial, Next(images, p, steps[0]), steps[1..], last);
    }
  }

  lemma {:induction false} NothingYet(k: nat)
    ensures Accepted(map[], k) == 0 && Count(map[], k, IsInlined) == 0 && Count(map[], k, IsDropped) == 0
  {
    if k > 0 { NothingYet(k - 1); }
  }

  lemma StartKeeps(images: seq<Source>, used: nat)
    ensures PoolInv(images, used, Start(|images|, used))
  {
    NothingYet(|images|);
    hide Accepted, Count;
  }

  // ------------------------------------------------------------------ results

  /** How many runners are at an image. */
  function Busy(runners: seq<Runner>): nat {
    if runners == [] then 0 else Busy(runners[1..]) + if runners[0].Fetching? then 1 else 0
  }

  lemma {:induction false} BusyBound(runners: seq<Runner>)
    ensures Busy(runners) <= |runners|
  {
    if runners != [] { BusyBound(runners[1..]); }
  }

  /**
   * At every moment, whatever the interleaving: at most the limit is in progress, no image
   * is in two hands or handled again, and what is used is the initial size and the lengths
   * accepted, within the cap if it began within it.
   */
  lemma BudgetHolds(images: seq<Source>, initial: nat, steps: seq<Step>, p: Pool)
    requires IsRun(images, Start(|images|, initial), steps, p)
    ensures Busy(p.runners) <= |p.runners| == if |images| <= 6 then |images| else 6
    ensures Shared(p.runners, p.outcomes, p.next) && Faithful(images, p.outcomes)
    ensures p.used == initial + Accepted(p.outcomes, |images|)
    ensures initial <= MAX_DOC_BYTES ==> p.used <= MAX_DOC_BYTES
  {
    hide IsRun, Shared, Faithful, Accepted;
    StartKeeps(images, initial);
    RunKeeps(images, initial, Start(|images|, initial), steps, p);
    BusyBound(p.runners);
  }

  lemma {:induction false} AllCounted(outcomes: map<nat, Outcome>, k: nat)
    requires forall i :: 0 <= i < k ==> i in outcomes
    ensures Count(outcomes, k, IsKept) + Count(outcomes, k, IsInlined) + Count(outcomes, k, IsDropped) == k
  {
    if k > 0 { AllCounted(outcomes, k - 1); }
  }

  /** When every runner has finished, every image has been handled, once, and the counts add up. */
  lemma EveryImageHandled(images: seq<Source>, initial: nat, steps: seq<Step>, p: Pool)
    requires IsRun(images, Start(|images|, initial), steps, p)
    requires forall r :: 0 <= r < |p.runners| ==> p.runners[r].Finished?
    ensures forall i :: i in p.outcomes <==> 0 <= i < |images|
    ensures p.inlined + p.dropped + Count(p.outcomes, |images|, IsKept) == |images|
  {
    hide IsRun, Accepted;
    StartKeeps(images, initial);
    RunKeeps(images, initial, Start(|images|, initial), steps, p);
    if images != [] { assert p.runners[0].Finished?; }
    assert forall i :: 0 <= i < |images| ==> i in p.outcomes;
    AllCounted(p.outcomes, |images|);
    hide Count;
  }

  /** At state p this step decides what becomes of image i. */
  predicate Decides(images: seq<Source>, p: Pool, step: Step, i: nat, o: Outcome)
    requires CanStep(p, step)
  {
    match step
    case Turn(_) => i == p.next < |images| && images[i].Embedded? && o == Judged(p.used, Kept(images[i].len))
    case Arrive(r, fetched) =>
      && p.runners[r] == Fetching(i)
      && o == if fetched.Some? then Judged(p.used, Inlined(fetched.value)) else Dropped
  }

  /** An image stays exactly if what has been used leaves room for it in 24 MB. */
  function Judged(used: nat, o: Outcome): Outcome { if used + Size(o) <= 24 * 1024 * 1024 then o else Dropped }

  /** In the run from p taking `steps`, the outcome of image i is decided at step k. */
  ghost predicate DecidedAt(images: seq<Source>, p: Pool, steps: seq<Step>, k: nat, i: nat, o: Outcome) {
    k < |steps| && exists q ::
      IsRun(images, p, steps[..k], q) && CanStep(q, steps[k]) && Decides(images, q, steps[k], i, o)
  }

  lemma DecidedLater(images: seq<Source>, p: Pool, steps: seq<Step>, k: nat, i: nat, o: Outcome)
    requires steps != [] && CanStep(p, steps[0])
    ensures DecidedAt(images, p, steps, 0, i, o) <==> Decides(images, p, steps[0], i, o)
    ensures DecidedAt(images, p, steps, k + 1, i, o) <==>
        DecidedAt(images, Next(images, p, steps[0]), steps[1..], k, i, o)
  {
    hide Decides, CanStep, Next;
    assert IsRun(images, p, steps[..0], p);
    if k + 1 < |steps| {
      assert steps[..k + 1][1..] == steps[1..][..k] && steps[k + 1] == steps[1..][k];
      forall q ensures IsRun(images, p, steps[..k + 1], q) <==>
        IsRun(images, Next(images, p, steps[0]), steps[1..][..k], q) { }
    }
  }

  /** One step: outcomes are decided once, and as described. */
  lemma StepDecides(images: seq<Source>, initial: nat, p: Pool, step: Step, i: nat, o: Outcome)
    requires PoolInv(images, initial, p) && CanStep(p, step)
    ensures var p' := Next(images, p, step);
      i in p'.outcomes && p'.outcomes[i] == o <==>
        (i in p.outcomes && p.outcomes[i] == o) || Decides(images, p, step, i, o)
    ensures i in p.outcomes ==> !Decides(images, p, step, i, o)
  {
    NotYetTaken(p.runners, p.outcomes, p.next);
    hide Tallied;
  }

  lemma {:induction false} RunDecides(images: seq<Source>, initial: nat, p: Pool, steps: seq<Step>, last: Pool, i: nat,
                                      o: Outcome)
    requires PoolInv(images, initial, p) && IsRun(images, p, steps, last)
    ensures i in last.outcomes && last.outcomes[i] == o <==>
            (i in p.outcomes && p.outcomes[i] == o) || exists k: nat :: DecidedAt(images, p, steps, k, i, o)
    decreases |steps|
  {
    if steps == [] {
      assert forall k: nat :: !DecidedAt(images, p, steps, k, i, o);
    } else {
      var p' := Next(images, p, steps[0]);
      StepDecides(images, initial, p, steps[0], i, o);
      match steps[0] {
        case Turn(r) => TurnKeeps(images, initial, p, r);
        case Arrive(r, fetched) => ArriveKeeps(images, initial, p, r, fetched);
      }
      RunDecides(images, initial, p', steps[1..], last, i, o);
      hide PoolInv, CanStep, Next, IsRun, Decides, DecidedAt;
      DecidedLater(images, p, steps, 0, i, o);
      if k: nat :| DecidedAt(images, p', steps[1..], k, i, o) {
        DecidedLater(images, p, steps, k, i, o);
        assert DecidedAt(images, p, steps, k + 1, i, o);
      }
      if k: nat :| DecidedAt(images, p, steps, k, i, o) {
        if k > 0 {
          DecidedLater(images, p, steps, k - 1, i, o);
          assert DecidedAt(images, p', steps[1..], k - 1, i, o);
        }
      }
    }
  }

  /**
   * An image ends inlined with n bytes exactly if it was fetched with that length and fitted
   * when it arrived, kept exactly if it was embedded and fitted when its turn came, and dropped
   * otherwise; and nothing later changes that.
   */
  lemma OutcomeIs(images: seq<Source>, initial: nat, steps: seq<Step>, last: Pool, i: nat, o: Outcome)
    requires IsRun(images, Start(|images|, initial), steps, last)
    ensures i in last.outcomes && last.outcomes[i] == o <==>
            exists k: nat :: DecidedAt(images, Start(|images|, initial), steps, k, i, o)
  {
    hide IsRun, DecidedAt, PoolInv;
    StartKeeps(images, initial);
    RunDecides(images, initial, Start(|images|, initial), steps, last, i, o);
  }

  function Remaining(images: seq<Source>, p: Pool): nat {
    2 * (if p.next < |images| then |images| - p.next else 0) + Busy(p.runners) + Unfinished(p.runners)
  }

  function Unfinished(runners: seq<Runner>): nat {
    if runners == [] then 0 else Unfinished(runners[1..]) + if runners[0].Finished? then 0 else 1
  }

  lemma {:induction false} RunnerMoves(runners: seq<Runner>, r: nat, x: Runner)
    requires r < |runners|
    ensures Busy(runners[r := x]) == Busy(runners) - (if runners[r].Fetching? then 1 else 0) + if x.Fetching? then 1
        else 0
    ensures Unfinished(runners[r := x]) == Unfinished(runners) - (if runners[r].Finished? then 0 else 1)
        + if x.Finished? then 0 else 1
  {
    if r == 0 {
      assert runners[r := x][1..] == runners[1..];
    } else {
      assert runners[r := x][1..] == runners[1..][r - 1 := x];
      RunnerMoves(runners[1..], r - 1, x);
    }
  }

  /** Every step brings the end nearer. */
  lemma StepShortens(images: seq<Source>, p: Pool, step: Step)
    requires CanStep(p, step)
    ensures Remaining(images, Next(images, p, step)) < Remaining(images, p)
  {
    var p' := Next(images, p, step);
    RunnerMoves(p.runners, step.r, p'.runners[step.r]);
    assert p.runners[step.r := p'.runners[step.r]] == p'.runners;
    hide Busy, Unfinished;
  }

  lemma {:induction false} NoneBusy(n: nat)
    ensures Busy(seq(n, _ => Ready)) == 0 && Unfinished(seq(n, _ => Ready)) == n
  {
    if n > 0 {
      assert seq(n, _ => Ready)[1..] == seq(n - 1, _ => Ready);
      NoneBusy(n - 1);
    }
  }

  lemma {:induction false} RunShortens(images: seq<Source>, p: Pool, steps: seq<Step>, last: Pool)
    requires IsRun(images, p, steps, last)
    ensures |steps| + Remaining(images, last) <= Remaining(images, p)
    decreases |steps|
  {
    if steps != [] {
      StepShortens(images, p, steps[0]);
      hide Remaining, CanStep, Next;
      RunShortens(images, Next(images, p, steps[0]), steps[1..], last);
    }
  }

  /**
   * The runners come to an end, whatever their order: a run has at most two steps for every
   * image and one for every runner, and while a runner has not finished some step is possible.
   */
  lemma RunnersFinish(images: seq<Source>, initial: nat, steps: seq<Step>, p: Pool)
    requires IsRun(images, Start(|images|, initial), steps, p)
    ensures |steps| <= 2 * |images| + Limit(|images|)
    ensures (exists r :: 0 <= r < |p.runners| && !p.runners[r].Finished?) ==> exists step :: CanStep(p, step)
  {
    RunShortens(images, Start(|images|, initial), steps, p);
    NoneBusy(Limit(|images|));
    hide IsRun, Busy, Unfinished;
    if r :| 0 <= r < |p.runners| && !p.runners[r].Finished? {
      assert p.runners[r].Ready? ==> CanStep(p, Turn(r));
      assert p.runners[r].Fetching? ==> CanStep(p, Arrive(r, None));
    }
  }

  // --------------------------------------------------------------- as it runs

  /** The variables the runners share. */
  class Inliner {
    var used: nat
    var inlined: nat
    var dropped: nat
    var next: nat

    constructor (used: nat)
      ensures this.used == used && inlined == 0 && dropped == 0 && next == 0
    {
      this.used, inlined, dropped, next := used, 0, 0, 0;
    }

    ghost function View(runners: seq<Runner>, outcomes: map<nat, Outcome>): Pool
      reads this
    {
      Pool(next, used, inlined, dropped, runners, outcomes)
    }

    /** The worker on an embedded image; false means the element is removed. */
    method KeepEmbedded(len: nat, ghost i: nat, ghost runners: seq<Runner>, ghost outcomes: map<nat, Outcome>)
      returns (stays: bool)
      modifies this
      ensures View(runners, OnEmbedded(old(View(runners, outcomes)), i, len).outcomes) ==
          OnEmbedded(old(View(runners, outcomes)), i, len)
      ensures stays <==> old(used) + len <= MAX_DOC_BYTES
      ensures used == old(used) + (if stays then len else 0) && dropped == old(dropped) + if stays then 0 else 1
      ensures inlined == old(inlined) && next == old(next)
    {
      if used + len > MAX_DOC_BYTES {
        dropped := dropped + 1;
        return false;
      }
      used := used + len;
      return true;
    }

    /** The worker once its download has ended. */
    method Embed(fetched: Option<nat>, ghost i: nat, ghost runners: seq<Runner>, ghost outcomes: map<nat, Outcome>)
      returns (stays: bool)
      modifies this
      ensures View(runners, OnFetched(old(View(runners, outcomes)), i, fetched).outcomes) ==
          OnFetched(old(View(runners, outcomes)), i, fetched)
      ensures stays <==> fetched.Some? && old(used) + fetched.value <= MAX_DOC_BYTES
      ensures used == old(used) + (if stays then fetched.value else 0)
      ensures inlined == old(inlined) + (if stays then 1 else 0) && dropped == old(dropped) + if stays then 0 else 1
      ensures next == old(next)
    {
      if fetched.None? || used + fetched.value > MAX_DOC_BYTES {
        dropped := dropped + 1;
        return false;
      }
      used := used + fetched.value;
      inlined := inlined + 1;
      return true;
    }

    /** A runner looks at the shared counter: the index of the next image, if there is one left. */
    method Take(n: nat) returns (index: Option<nat>)
      modifies `next
      ensures old(next) < n ==> index == Some(old(next)) && next == old(next) + 1
      ensures old(next) >= n ==> index == None && next == old(next)
    {
      if next >= n { return None; }
      index := Some(next);
      next := next + 1;
    }
  }
}
