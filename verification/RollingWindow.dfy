/**
 The rolling request and byte ledger of a dispatcher: what it has forgotten never mattered, so
 every window of the policy's length stays within both ceilings.
 */
module RollingWindow {
  datatype Send = Send(at: int, bytes: nat)

  datatype Policy = Policy(windowMs: int, rollingRequests: int, rollingSendBytes: int, batchBytes: int, automaticReplayBatches: int)

  predicate Recent(s: Send, now: int, w: int) {
    now - s.at < w
  }

  /** The sends that have not aged out at `now`. */
  function Prune(sends: seq<Send>, now: int, w: int): seq<Send> {
    if sends == [] then []
    else
      var front := Prune(sends[..|sends| - 1], now, w);
      if Recent(sends[|sends| - 1], now, w) then front + [sends[|sends| - 1]] else front
  }

  function TotalBytes(sends: seq<Send>): nat {
    if sends == [] then 0 else TotalBytes(sends[..|sends| - 1]) + sends[|sends| - 1].bytes
  }

  /** The window of length `w` that ends at `t`, without its first instant. */
  predicate InWindow(s: Send, t: int, w: int) {
    t - w < s.at <= t
  }

  function SendsIn(history: seq<Send>, t: int, w: int): nat {
    if history == [] then 0
    else SendsIn(history[..|history| - 1], t, w) + if InWindow(history[|history| - 1], t, w) then 1 else 0
  }

  function BytesIn(history: seq<Send>, t: int, w: int): nat {
    if history == [] then 0
    else BytesIn(history[..|history| - 1], t, w) + if InWindow(history[|history| - 1], t, w) then history[|history| - 1].bytes else 0
  }

  predicate NoLaterThan(history: seq<Send>, now: int) {
    forall i | 0 <= i < |history| :: history[i].at <= now
  }

  predicate WindowWithin(history: seq<Send>, t: int, p: Policy) {
    SendsIn(history, t, p.windowMs) <= p.rollingRequests && BytesIn(history, t, p.windowMs) <= p.rollingSendBytes
  }

  /** Every window of the policy's length holds at most its requests and bytes. */
  ghost predicate RollingLimits(history: seq<Send>, p: Policy) {
    forall t: int :: WindowWithin(history, t, p)
  }

  lemma {:induction false} PruneIsWindow(history: seq<Send>, now: int, w: int)
    requires NoLaterThan(history, now)
    ensures |Prune(history, now, w)| == SendsIn(history, now, w)
    ensures TotalBytes(Prune(history, now, w)) == BytesIn(history, now, w)
    decreases |history|
  {
    if history != [] {
      var front := history[..|history| - 1];
      PruneIsWindow(front, now, w);
      var kept := Prune(front, now, w);
      assert (kept + [history[|front|]])[..|kept|] == kept;
    }
  }

  /** Pruning twice is pruning at the later time. */
  lemma {:induction false} PruneAgain(sends: seq<Send>, now: int, later: int, w: int)
    requires now <= later
    ensures Prune(Prune(sends, now, w), later, w) == Prune(sends, later, w)
    decreases |sends|
  {
    if sends != [] {
      var front := sends[..|sends| - 1];
      PruneAgain(front, now, later, w);
      var kept := Prune(front, now, w);
      assert (kept + [sends[|front|]])[..|kept|] == kept;
    }
  }

  /** Later, no more is left. */
  lemma {:induction false} PruneShrinks(sends: seq<Send>, now: int, later: int, w: int)
    requires now <= later
    ensures |Prune(sends, later, w)| <= |Prune(sends, now, w)|
    ensures TotalBytes(Prune(sends, later, w)) <= TotalBytes(Prune(sends, now, w))
    decreases |sends|
  {
    if sends != [] {
      var front, last := sends[..|sends| - 1], sends[|sends| - 1];
      PruneShrinks(front, now, later, w);
      var kept, left := Prune(front, now, w), Prune(front, later, w);
      assert (kept + [last])[..|kept|] == kept && (left + [last])[..|left|] == left;
    }
  }

  lemma {:induction false} NothingLater(history: seq<Send>, now: int, t: int, w: int)
    requires NoLaterThan(history, now) && now <= t
    ensures SendsIn(history, t, w) <= SendsIn(history, now, w) && BytesIn(history, t, w) <= BytesIn(history, now, w)
    decreases |history|
  {
    if history != [] {
      NothingLater(history[..|history| - 1], now, t, w);
    }
  }

  /** One more send that fits what the ledger still permits keeps every window within its limits. */
  lemma RecordKeepsLimits(history: seq<Send>, checked: int, now: int, bytes: nat, p: Policy)
    requires RollingLimits(history, p) && NoLaterThan(history, checked) && checked <= now
    requires |Prune(history, checked, p.windowMs)| < p.rollingRequests
    requires TotalBytes(Prune(history, checked, p.windowMs)) + bytes <= p.rollingSendBytes
    ensures RollingLimits(history + [Send(now, bytes)], p) && NoLaterThan(history + [Send(now, bytes)], now)
  {
    hide SendsIn, BytesIn, Prune, TotalBytes;
    var s, w := Send(now, bytes), p.windowMs;
    PruneShrinks(history, checked, now, w);
    PruneIsWindow(history, now, w);
    forall t: int ensures WindowWithin(history + [s], t, p) {
      OneMore(history, s, t, w);
      assert WindowWithin(history, t, p);
      if t >= now {
        NothingLater(history, now, t, w);
      }
    }
  }

  lemma OneMore(history: seq<Send>, s: Send, t: int, w: int)
    ensures SendsIn(history + [s], t, w) == SendsIn(history, t, w) + if InWindow(s, t, w) then 1 else 0
    ensures BytesIn(history + [s], t, w) == BytesIn(history, t, w) + if InWindow(s, t, w) then s.bytes else 0
  {
    assert (history + [s])[..|history|] == history;
  }

  // ---------- Windows with their first instant ----------

  /** The window of length `w` that ends at `t`, with its first instant. */
  predicate InClosedWindow(s: Send, t: int, w: int) {
    t - w <= s.at <= t
  }

  function ClosedSendsIn(history: seq<Send>, t: int, w: int): nat {
    if history == [] then 0
    else ClosedSendsIn(history[..|history| - 1], t, w) + if InClosedWindow(history[|history| - 1], t, w) then 1 else 0
  }

  function ClosedBytesIn(history: seq<Send>, t: int, w: int): nat {
    if history == [] then 0
    else
      ClosedBytesIn(history[..|history| - 1], t, w)
      + if InClosedWindow(history[|history| - 1], t, w) then history[|history| - 1].bytes else 0
  }

  predicate ClosedWithin(history: seq<Send>, t: int, p: Policy) {
    ClosedSendsIn(history, t, p.windowMs) <= p.rollingRequests && ClosedBytesIn(history, t, p.windowMs) <= p.rollingSendBytes
  }

  ghost predicate ClosedLimits(history: seq<Send>, p: Policy) {
    forall t: int :: ClosedWithin(history, t, p)
  }

  /** There are fewer sends than permitted no more than `windowMs` ago, and bytes to spare. */
  predicate ClosedRoomFor(history: seq<Send>, now: int, bytes: nat, p: Policy) {
    && ClosedSendsIn(history, now, p.windowMs) < p.rollingRequests
    && ClosedBytesIn(history, now, p.windowMs) + bytes <= p.rollingSendBytes
  }

  lemma ClosedOneMore(history: seq<Send>, s: Send, t: int, w: int)
    ensures ClosedSendsIn(history + [s], t, w) == ClosedSendsIn(history, t, w) + if InClosedWindow(s, t, w) then 1 else 0
    ensures ClosedBytesIn(history + [s], t, w) == ClosedBytesIn(history, t, w) + if InClosedWindow(s, t, w) then s.bytes else 0
  {
    assert (history + [s])[..|history|] == history;
  }

  lemma {:induction false} NothingLaterClosed(history: seq<Send>, now: int, t: int, w: int)
    requires NoLaterThan(history, now) && now <= t
    ensures ClosedSendsIn(history, t, w) <= ClosedSendsIn(history, now, w) && ClosedBytesIn(history, t, w) <= ClosedBytesIn(history, now, w)
    decreases |history|
  {
    if history != [] {
      NothingLaterClosed(history[..|history| - 1], now, t, w);
    }
  }

  /**
   One more send keeps windows with their first instant within the limits exactly when it fits the
   one that ends now.
   */
  lemma ClosedWindowsHoldIff(history: seq<Send>, now: int, bytes: nat, p: Policy)
    requires p.windowMs >= 0 && ClosedLimits(history, p) && NoLaterThan(history, now)
    ensures ClosedLimits(history + [Send(now, bytes)], p) <==> ClosedRoomFor(history, now, bytes, p)
  {
    hide ClosedSendsIn, ClosedBytesIn;
    var s, w := Send(now, bytes), p.windowMs;
    ClosedOneMore(history, s, now, w);
    if ClosedRoomFor(history, now, bytes, p) {
      forall t: int ensures ClosedWithin(history + [s], t, p) {
        ClosedOneMore(history, s, t, w);
        assert ClosedWithin(history, t, p);
        if t >= now {
          NothingLaterClosed(history, now, t, w);
        }
      }
    } else {
      assert !ClosedWithin(history + [s], now, p);
    }
  }

  /**
   What the ledger permits is more: a send has to fit the window without its first instant only. It
   then keeps the closed limits too exactly when it still fits with the sends exactly `windowMs` ago.
   */
  lemma AdmittedSendKeepsClosedIff(history: seq<Send>, now: int, bytes: nat, p: Policy)
    requires p.windowMs > 0 && RollingLimits(history, p) && ClosedLimits(history, p) && NoLaterThan(history, now)
    requires SendsIn(history, now, p.windowMs) < p.rollingRequests && BytesIn(history, now, p.windowMs) + bytes <= p.rollingSendBytes
    ensures RollingLimits(history + [Send(now, bytes)], p)
    ensures var first := now - p.windowMs;
            ClosedLimits(history + [Send(now, bytes)], p) <==>
              && SendsIn(history, now, p.windowMs) + SendsAt(history, first) < p.rollingRequests
              && BytesIn(history, now, p.windowMs) + BytesAt(history, first) + bytes <= p.rollingSendBytes
  {
    hide ClosedSendsIn, ClosedBytesIn, SendsIn, BytesIn, SendsAt, BytesAt, RollingLimits, ClosedLimits, Prune, TotalBytes;
    PruneIsWindow(history, now, p.windowMs);
    RecordKeepsLimits(history, now, now, bytes, p);
    ClosedWindowsHoldIff(history, now, bytes, p);
    ClosedIsOpenAndFirst(history, now, p.windowMs);
  }

  function SendsAt(history: seq<Send>, at: int): nat {
    if history == [] then 0 else SendsAt(history[..|history| - 1], at) + if history[|history| - 1].at == at then 1 else 0
  }

  function BytesAt(history: seq<Send>, at: int): nat {
    if history == [] then 0
    else BytesAt(history[..|history| - 1], at) + if history[|history| - 1].at == at then history[|history| - 1].bytes else 0
  }

  lemma {:induction false} ClosedIsOpenAndFirst(history: seq<Send>, t: int, w: int)
    requires w > 0
    ensures ClosedSendsIn(history, t, w) == SendsIn(history, t, w) + SendsAt(history, t - w)
    ensures ClosedBytesIn(history, t, w) == BytesIn(history, t, w) + BytesAt(history, t - w)
    decreases |history|
  {
    if history != [] {
      ClosedIsOpenAndFirst(history[..|history| - 1], t, w);
    }
  }

  /** With one request a window, the ledger admits two sends `windowMs` apart, which one closed window holds. */
  lemma ClosedWindowsMayHoldTwoBursts(p: Policy, bytes: nat)
    requires p.windowMs > 0 && p.rollingRequests == 1 && bytes <= p.rollingSendBytes
    ensures var history := [Send(0, bytes), Send(p.windowMs, bytes)];
            && RollingLimits(history, p) && ClosedSendsIn(history, p.windowMs, p.windowMs) == 2
            && !ClosedLimits(history, p)
  {
    var history := [Send(0, bytes)];
    assert history[..0] == [];
    forall t: int ensures WindowWithin(history, t, p) {
      assert SendsIn([], t, p.windowMs) == 0 && BytesIn([], t, p.windowMs) == 0;
    }
    assert Prune(history, p.windowMs, p.windowMs) == Prune(history[..0], p.windowMs, p.windowMs) == [];
    RecordKeepsLimits(history, p.windowMs, p.windowMs, bytes, p);
    var both := history + [Send(p.windowMs, bytes)];
    assert both == [Send(0, bytes), Send(p.windowMs, bytes)];
    ClosedOneMore([], Send(0, bytes), p.windowMs, p.windowMs);
    assert [] + [Send(0, bytes)] == history;
    ClosedOneMore(history, Send(p.windowMs, bytes), p.windowMs, p.windowMs);
    assert !ClosedWithin(both, p.windowMs, p);
  }

  class RollingWindowLedger {
    const policy: Policy
    var sends: seq<Send>
    /** Every attempt ever recorded, and the last time the ledger was consulted. */
    ghost var history: seq<Send>
    ghost var clock: int

    ghost predicate Valid()
      reads this
    {
      && NoLaterThan(history, clock)
      && sends == Prune(history, clock, policy.windowMs)
    }

    constructor (policy: Policy, now: int)
      ensures Valid() && this.policy == policy && history == [] && clock == now
    {
      this.policy := policy;
      sends, history, clock := [], [], now;
    }

    /** Drops attempts that have aged out of the rolling window. */
    method Expire(now: int)
      requires Valid() && clock <= now
      modifies this`sends, this`clock
      ensures Valid() && clock == now
    {
      hide Recent;
      var kept: seq<Send> := [];
      for i := 0 to |sends|
        invariant sends == old(sends) && clock == old(clock)
        invariant kept == Prune(sends[..i], now, policy.windowMs)
      {
        assert sends[..i + 1][..i] == sends[..i];
        if Recent(sends[i], now, policy.windowMs) { kept := kept + [sends[i]]; }
      }
      assert sends[..|sends|] == sends;
      PruneAgain(history, clock, now, policy.windowMs);
      sends, clock := kept, now;
    }

    method RemainingRequests(now: int) returns (n: int)
      requires Valid() && clock <= now
      modifies this`sends, this`clock
      ensures Valid() && clock == now
      ensures n == policy.rollingRequests - SendsIn(history, now, policy.windowMs)
    {
      hide Prune, SendsIn, BytesIn;
      Expire(now);
      PruneIsWindow(history, now, policy.windowMs);
      return policy.rollingRequests - |sends|;
    }

    method RemainingBytes(now: int) returns (n: int)
      requires Valid() && clock <= now
      modifies this`sends, this`clock
      ensures Valid() && clock == now
      ensures n == policy.rollingSendBytes - BytesIn(history, now, policy.windowMs)
    {
      hide Prune, SendsIn, BytesIn;
      Expire(now);
      PruneIsWindow(history, now, policy.windowMs);
      var total := 0;
      for i := 0 to |sends|
        invariant total == TotalBytes(sends[..i])
      {
        assert sends[..i + 1][..i] == sends[..i];
        total := total + sends[i].bytes;
      }
      assert sends[..|sends|] == sends;
      return policy.rollingSendBytes - total;
    }

    /** Reserves one attempt before the send happens. */
    method Record(now: int, bytes: nat)
      requires Valid() && clock <= now && policy.windowMs > 0
      modifies this
      ensures Valid() && clock == now
      ensures history == old(history) + [Send(now, bytes)]
    {
      Expire(now);
      assert (history + [Send(now, bytes)])[..|history|] == history;
      sends, history := sends + [Send(now, bytes)], history + [Send(now, bytes)];
    }
  }
}
