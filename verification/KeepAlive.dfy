/**
 * One keep-alive channel (src/KeepAlive.py): a failure counter that successes walk back down, and
 * the closing of the channel when it passes its limit.
 */
module KeepAlive {
  const FAIL_MAX := 3

  /** A channel's state; the limit's callbacks are named by numbers. */
  datatype State = State(killCount: int, connected: bool, closed: bool, callbacks: seq<nat>, fired: seq<nat>)

  /** What happens to a channel: a heartbeat or use that worked, one that did not, the result of a
      ping when the channel is first tried, and the registration of an offline callback. */
  datatype Event = Success | Failure | Verified(ok: bool) | Register(callback: nat)

  const OPENED := State(0, true, false, [], [])

  // ---- Effect of each event ----

  function Offline(s: State): State {
    if s.closed then s else s.(connected := false, closed := true, fired := s.fired + s.callbacks)
  }

  function Checked(s: State): State {
    if s.killCount > FAIL_MAX then Offline(s) else s
  }

  function Updated(s: State): State {
    s.(connected := true, killCount := if s.killCount > 0 then s.killCount - 1 else s.killCount)
  }

  function After(s: State, e: Event): State {
    match e
    case Success => Checked(Updated(s))
    case Failure => Checked(s.(killCount := s.killCount + 1))
    case Verified(ok) => s.(connected := ok)
    case Register(c) => s.(callbacks := s.callbacks + [c])
  }

  function Run(h: seq<Event>): State
    decreases |h|
  {
    if h == [] then OPENED else After(Run(h[..|h| - 1]), h[|h| - 1])
  }

  // ---- The channel ----

  class Channel {
    var connected: bool
    var callbacks: seq<nat>
    var killCount: int
    var isClosed: bool
    var fired: seq<nat>

    function Current(): State
      reads this
    {
      State(killCount, connected, isClosed, callbacks, fired)
    }

    constructor ()
      ensures Current() == OPENED
    {
      connected, callbacks, killCount, isClosed, fired := true, [], 0, false, [];
    }

    method AddCallback(callback: nat)
      modifies this
      ensures Current() == After(old(Current()), Register(callback))
      ensures callbacks == old(callbacks) + [callback] && connected == old(connected) && killCount == old(killCount)
      ensures isClosed == old(isClosed) && fired == old(fired)
    {
      callbacks := callbacks + [callback];
    }

    method Verify(ping: bool) returns (ok: bool)
      modifies this
      ensures Current() == After(old(Current()), Verified(ping)) && ok == ping
      ensures connected == ping && callbacks == old(callbacks) && killCount == old(killCount) && isClosed == old(isClosed) && fired == old(fired)
    {
      connected := ping;
      return connected;
    }

    method Heartbeat(answered: bool)
      modifies this
      ensures Current() == After(old(Current()), if answered then Success else Failure)
    {
      if !answered { killCount := killCount + 1; } else { Update(); }
      if killCount > FAIL_MAX { MarkOffline(); }
    }

    method KillUpdate()
      modifies this
      ensures Current() == After(old(Current()), Failure)
    {
      killCount := killCount + 1;
      if killCount > FAIL_MAX { MarkOffline(); }
    }

    method Update()
      modifies this
      ensures Current() == Updated(old(Current()))
    {
      connected := true;
      if killCount > 0 { killCount := killCount - 1; }
    }

    /** The callbacks are called one after the other; a closed channel calls none again. */
    method MarkOffline()
      modifies this
      ensures Current() == Offline(old(Current()))
    {
      if isClosed { return; }
      connected := false;
      var i := 0;
      while i < |callbacks|
        invariant i <= |callbacks|
        invariant Current() == old(Current()).(connected := false, fired := old(fired) + callbacks[..i])
      {
        fired := fired + [callbacks[i]];
        assert callbacks[..i + 1] == callbacks[..i] + [callbacks[i]];
        i := i + 1;
      }
      assert callbacks[..i] == callbacks;
      isClosed := true;
    }
  }

  // ---- The counter ----

  /** Failures minus successes. */
  function Balance(h: seq<Event>): int {
    if h == [] then 0
    else Balance(h[..|h| - 1]) + (if h[|h| - 1].Failure? then 1 else if h[|h| - 1].Success? then -1 else 0)
  }

  lemma BalanceLast(h: seq<Event>, k: nat)
    requires h != [] && k < |h|
    ensures Balance(h[k..]) == Balance(h[..|h| - 1][k..]) + Balance([h[|h| - 1]])
  {
    var n := |h| - 1;
    assert h[k..][..|h[k..]| - 1] == h[..n][k..];
    assert [h[n]][..0] == [];
  }

  /** The counter is the largest balance of any suffix of the history. */
  lemma {:induction false} CountIsWorstSuffix(h: seq<Event>)
    ensures forall k :: 0 <= k <= |h| ==> Balance(h[k..]) <= Run(h).killCount
    ensures exists k :: 0 <= k <= |h| && Balance(h[k..]) == Run(h).killCount
    decreases |h|
  {
    var n := |h| - 1;
    if h == [] {
      assert h[0..] == [];
    } else {
      var t, e := h[..n], h[n];
      CountIsWorstSuffix(t);
      assert h[|h|..] == [] && Balance([e]) == (if e.Failure? then 1 else if e.Success? then -1 else 0) by { assert [e][..0] == []; }
      forall k | 0 <= k <= n ensures Balance(h[k..]) == Balance(t[k..]) + Balance([e]) { BalanceLast(h, k); }
      assert t[n..] == [] && Balance(t[n..]) == 0;
      var j :| 0 <= j <= n && Balance(t[j..]) == Run(t).killCount;
      assert Balance(h[j..]) == Run(t).killCount + Balance([e]);
      if e.Success? && Run(t).killCount == 0 { assert Balance(h[|h|..]) == Run(h).killCount; }
    }
  }

  /** A success outside a heartbeat skips the check of the limit, which could not have passed. */
  lemma UpdateIsSuccess(h: seq<Event>)
    ensures Updated(Run(h)) == After(Run(h), Success)
  {
    CountStaysBelow(h);
  }

  // ---- Closing ----

  ghost predicate Overloaded(h: seq<Event>, i: nat, j: nat) {
    i <= j <= |h| && Balance(h[i..j]) > FAIL_MAX
  }

  lemma {:induction false} CountStaysBelow(h: seq<Event>)
    ensures !Run(h).closed ==> Run(h).killCount <= FAIL_MAX
    decreases |h|
  {
    if h != [] { CountStaysBelow(h[..|h| - 1]); }
  }

  /** The channel closes exactly when failures outnumber successes by more than the limit over some
      stretch of the history. */
  lemma {:induction false} ClosedByAWindow(h: seq<Event>)
    ensures Run(h).closed <==> exists i: nat, j: nat :: Overloaded(h, i, j)
    decreases |h|
  {
    if h == [] {
      forall i: nat, j: nat ensures !Overloaded(h, i, j) { if i <= j <= |h| { assert h[i..j] == []; } }
    } else {
      var t := h[..|h| - 1];
      ClosedByAWindow(t);
      RunLast(h);
      hide Run, Balance, Overloaded;
      CountStaysBelow(t);
      CountIsWorstSuffix(h);
      if Run(t).closed {
        var i: nat, j: nat :| Overloaded(t, i, j);
        SameWindow(h, t, i, j);
      } else if Run(h).killCount > FAIL_MAX {
        var k: nat :| k <= |h| && Balance(h[k..]) == Run(h).killCount;
        SuffixWindow(h, k);
      } else {
        forall i: nat, j: nat ensures !Overloaded(h, i, j) { NoWindow(h, t, i, j); }
      }
    }
  }

  lemma RunLast(h: seq<Event>)
    requires h != []
    ensures var t := Run(h[..|h| - 1]); Run(h) == After(t, h[|h| - 1])
  {
  }

  lemma SameWindow(h: seq<Event>, t: seq<Event>, i: nat, j: nat)
    requires h != [] && t == h[..|h| - 1] && Overloaded(t, i, j)
    ensures Overloaded(h, i, j)
  {
    assert h[i..j] == t[i..j];
  }

  lemma SuffixWindow(h: seq<Event>, k: nat)
    requires k <= |h| && Balance(h[k..]) > FAIL_MAX
    ensures Overloaded(h, k, |h|)
  {
    assert h[k..|h|] == h[k..];
  }

  lemma NoWindow(h: seq<Event>, t: seq<Event>, i: nat, j: nat)
    requires h != [] && t == h[..|h| - 1]
    requires forall i: nat, j: nat :: !Overloaded(t, i, j)
    requires forall k :: 0 <= k <= |h| ==> Balance(h[k..]) <= FAIL_MAX
    ensures !Overloaded(h, i, j)
  {
    if i <= j <= |h| {
      if j == |h| {
        assert h[i..j] == h[i..];
      } else {
        assert h[i..j] == t[i..j];
        assert !Overloaded(t, i, j);
      }
    }
  }

  /** Closing is permanent, and from then on no callback is called. */
  lemma {:induction false} ClosedForGood(h: seq<Event>, more: seq<Event>)
    requires Run(h).closed
    ensures Run(h + more).closed && Run(h + more).fired == Run(h).fired
    decreases |more|
  {
    if more == [] {
      assert h + more == h;
    } else {
      var m := more[..|more| - 1];
      assert (h + more)[..|h + more| - 1] == h + m;
      ClosedForGood(h, m);
    }
  }

  /** The callbacks a history registers, in order. */
  function Registered(h: seq<Event>): seq<nat> {
    if h == [] then []
    else Registered(h[..|h| - 1]) + (if h[|h| - 1].Register? then [h[|h| - 1].callback] else [])
  }

  /** The shortest part of the history that closes the channel; all of it if none does. */
  function Closing(h: seq<Event>): (k: nat)
    ensures k <= |h| && (Run(h).closed ==> Run(h[..k]).closed && 0 < k && !Run(h[..k - 1]).closed)
  {
    if h != [] && Run(h[..|h| - 1]).closed then
      var k := Closing(h[..|h| - 1]);
      assert h[..|h| - 1][..k] == h[..k] && h[..|h| - 1][..k - 1] == h[..k - 1];
      k
    else
      assert h[..|h|] == h;
      |h|
  }

  lemma {:induction false} CallbacksRegistered(h: seq<Event>)
    ensures Run(h).callbacks == Registered(h) && (!Run(h).closed ==> Run(h).fired == [])
    decreases |h|
  {
    if h != [] { CallbacksRegistered(h[..|h| - 1]); }
  }

  lemma ClosingFires(t: seq<Event>)
    requires t != [] && Run(t).closed && !Run(t[..|t| - 1]).closed
    ensures Run(t).fired == Registered(t)
  {
    CallbacksRegistered(t[..|t| - 1]);
    CallbacksRegistered(t);
  }

  /** Every callback registered before the channel closes is called exactly once, in order, and no
      other ever is. */
  lemma {:induction false} CallbacksFireOnce(h: seq<Event>)
    ensures Run(h).fired == if Run(h).closed then Registered(h[..Closing(h)]) else []
  {
    CallbacksRegistered(h);
    hide Run, Registered, Closing;
    if Run(h).closed {
      var k := Closing(h);
      var t := h[..k];
      assert t[..k - 1] == h[..k - 1];
      ClosingFires(t);
      ClosedForGood(t, h[k..]);
      assert t + h[k..] == h;
    }
  }

  // ---- What the channel reports ----

  ghost predicate SeenSince(h: seq<Event>, k: nat) {
    exists i: nat :: k <= i < |h| && h[i] == Success
  }

  predicate NeverPinged(h: seq<Event>) {
    forall i :: 0 <= i < |h| ==> !h[i].Verified?
  }

  lemma SeenSinceLast(h: seq<Event>, k: nat)
    requires h != [] && k < |h|
    ensures SeenSince(h, k) <==> SeenSince(h[..|h| - 1], k) || h[|h| - 1] == Success
  {
    var n := |h| - 1;
    var t := h[..n];
    if SeenSince(t, k) {
      var i: nat :| k <= i < |t| && t[i] == Success;
      assert h[i] == Success;
    }
    if SeenSince(h, k) {
      var i: nat :| k <= i < |h| && h[i] == Success;
      assert i == n || t[i] == Success;
    }
  }

  /** A channel that is only used, not pinged again, reports itself connected exactly when it is not
      closed or something succeeded after it closed: a closed channel can report a connection. */
  lemma {:induction false} ConnectedWhen(h: seq<Event>)
    requires NeverPinged(h)
    ensures Run(h).connected <==> !Run(h).closed || SeenSince(h, Closing(h))
    decreases |h|
  {
    if h != [] {
      var n := |h| - 1;
      var t, e := h[..n], h[n];
      assert !e.Verified? && NeverPinged(t);
      ConnectedWhen(t);
      if Run(t).closed {
        ClosedStep(Run(t), e);
        SeenSinceLast(h, Closing(t));
        hide SeenSince;
        assert Closing(h) == Closing(t);
      } else {
        OpenStep(Run(t), e);
        assert Closing(h) == |h| && !SeenSince(h, |h|);
      }
    }
  }

  lemma OpenStep(s: State, e: Event)
    requires !s.closed && s.connected && !e.Verified?
    ensures After(s, e).connected <==> !After(s, e).closed
  {
  }

  lemma ClosedStep(s: State, e: Event)
    requires s.closed && !e.Verified?
    ensures After(s, e).closed && After(s, e).connected == (s.connected || e == Success)
  {
  }

  function Repeated(e: Event, n: nat): seq<Event> {
    seq(n, i => e)
  }

  /** A new channel counts its failures, and closes at the fourth in a row. */
  lemma {:induction false} FourthFailureCloses(n: nat)
    ensures var s := Run(Repeated(Failure, n)); s.killCount == n && s.closed == (n >= 4) && s.connected == (n < 4)
  {
    var h := Repeated(Failure, n);
    if n == 0 {
      NothingRun();
      assert h == [];
    } else {
      FourthFailureCloses(n - 1);
      assert h[..n - 1] == Repeated(Failure, n - 1);
      RunLast(h);
    }
  }

  /** For one: four failures close the channel, and the success after them makes it report a connection. */
  lemma ClosedYetConnected()
    ensures var h := [Failure, Failure, Failure, Failure, Success]; Run(h).closed && Run(h).connected
  {
    var f1, f2, f3, f4 := [Failure], [Failure, Failure], [Failure, Failure, Failure], [Failure, Failure, Failure, Failure];
    var h := [Failure, Failure, Failure, Failure, Success];
    assert f1[..0] == [] && f2[..1] == f1 && f3[..2] == f2 && f4[..3] == f3 && h[..4] == f4;
    RunLast(f1);
    RunLast(f2);
    RunLast(f3);
    RunLast(f4);
    RunLast(h);
    hide Run;
    assert Run([]) == OPENED by { NothingRun(); }
  }

  lemma NothingRun()
    ensures Run([]) == OPENED
  {
  }
}
