/**
 Fixed-window counting: a window opens with its first grant and allows `limit` grants until `span`
 has passed, when the next attempt opens a new one.
 */
module FixedWindows {

  datatype Window = Window(openedAt: int, count: nat)

  predicate Expired(w: Window, span: int, now: int) {
    now - w.openedAt >= span
  }

  function Refresh(w: Window, span: int, now: int): Window {
    if Expired(w, span, now) then Window(now, 0) else w
  }

  /** How many of the times fall in `[from, until)`. */
  function Count(times: seq<int>, from: int, until: int): nat {
    if times == [] then 0
    else Count(times[..|times| - 1], from, until) + (if from <= times[|times| - 1] < until then 1 else 0)
  }

  lemma {:induction false} CountSplits(times: seq<int>, from: int, mid: int, until: int)
    requires from <= mid <= until
    ensures Count(times, from, until) == Count(times, from, mid) + Count(times, mid, until)
  {
    if times != [] {
      CountSplits(times[..|times| - 1], from, mid, until);
    }
  }

  lemma {:induction false} CountGrows(times: seq<int>, from: int, until: int, wider: int, later: int)
    requires wider <= from && (until <= later || forall i | 0 <= i < |times| :: times[i] < later)
    ensures Count(times, from, until) <= Count(times, wider, later)
  {
    if times != [] {
      CountGrows(times[..|times| - 1], from, until, wider, later);
    }
  }

  lemma {:induction false} NothingLater(times: seq<int>, from: int, until: int)
    requires forall i | 0 <= i < |times| :: times[i] < from
    ensures Count(times, from, until) == 0
  {
    if times != [] {
      NothingLater(times[..|times| - 1], from, until);
    }
  }

  /** How many fall in the half-open span that starts at `from`. */
  function InSpan(times: seq<int>, from: int, span: int): nat {
    Count(times, from, from + span)
  }

  /** `w` is the window a counter is in after granting at the given times. */
  ghost predicate Counts(times: seq<int>, w: Window, span: int, limit: nat) {
    && w.count <= limit
    && (forall i | 0 <= i < |times| :: times[i] < w.openedAt + span)
    && Count(times, w.openedAt, w.openedAt + span) == w.count
    && Count(times, w.openedAt - span + 1, w.openedAt) <= limit
    && (forall s :: InSpan(times, s, span) <= 2 * limit)
  }

  lemma NewCounter(now: int, span: int, limit: nat)
    ensures Counts([], Window(now, 0), span, limit)
  {
  }

  lemma RefreshCounts(times: seq<int>, w: Window, span: int, limit: nat, now: int)
    requires Counts(times, w, span, limit) && span > 0
    ensures Counts(times, Refresh(w, span, now), span, limit)
  {
    if Expired(w, span, now) {
      NothingLater(times, now, now + span);
      CountGrows(times, now - span + 1, now, w.openedAt, w.openedAt + span);
    }
  }

  /** A grant inside the window: in any span of a window's length, at most twice the limit. */
  lemma GrantCounts(times: seq<int>, w: Window, span: int, limit: nat, now: int)
    requires Counts(times, w, span, limit) && span > 0
    requires w.openedAt <= now < w.openedAt + span && w.count < limit
    ensures Counts(times + [now], Window(w.openedAt, w.count + 1), span, limit)
  {
    var longer := times + [now];
    assert longer[..|longer| - 1] == times;
    forall s ensures InSpan(longer, s, span) <= 2 * limit {
      assert InSpan(times, s, span) <= 2 * limit;
      if s <= now < s + span {
        if s <= w.openedAt {
          CountSplits(times, s, w.openedAt, s + span);
          CountGrows(times, s, w.openedAt, w.openedAt - span + 1, w.openedAt);
          CountGrows(times, w.openedAt, s + span, w.openedAt, w.openedAt + span);
        } else {
          CountGrows(times, s, s + span, w.openedAt, w.openedAt + span);
        }
      }
    }
  }
}
