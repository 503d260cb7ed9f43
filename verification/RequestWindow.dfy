/** The request limit of one AI COO conversation: a window start and a counter stored in the row.

    The counter is related to the log of all admission times, from which the code forgets everything
    but the current window. */
module RequestWindow {
  import opened Options

  const WINDOW: nat := 300_000
  const LIMIT: nat := 30

  datatype Window = Window(startedAt: Option<int>, count: nat)

  const EMPTY := Window(None, 0)

  /** `consumeRequest`: the new columns, or None for the 429 answer. */
  function Admit(w: Window, now: int): Option<Window> {
    var current := w.startedAt.Some? && now - w.startedAt.value < WINDOW;
    if current && LIMIT <= w.count then None
    else if current then Some(w.(count := w.count + 1))
    else Some(Window(Some(now), 1))
  }

  /** The index of the request that opened the window of request `i`. */
  function Opener(log: seq<int>, i: nat): (o: nat)
    requires i < |log|
    ensures o <= i
    ensures log[i] - log[o] < WINDOW
  {
    if i == 0 then 0
    else
      var before := Opener(log, i - 1);
      if log[i] - log[before] < WINDOW then before else i
  }

  /** A window opens at least a whole window after the one before it. */
  lemma {:induction false} OpenerOpens(log: seq<int>, i: nat)
    requires i < |log|
    ensures var o := Opener(log, i);
            o == 0 || log[Opener(log, o - 1)] + WINDOW <= log[o]
  {
    if i > 0 {
      OpenerOpens(log, i - 1);
    }
  }

  predicate NotAfter(log: seq<int>, i: nat, j: nat)
    requires i <= j < |log|
  {
    log[i] <= log[j]
  }

  predicate Ordered(log: seq<int>) {
    forall i, j | 0 <= i <= j < |log| :: NotAfter(log, i, j)
  }

  /** The stored columns are what the log says, and no window ever took more than the limit. */
  predicate Tracks(w: Window, log: seq<int>) {
    && Ordered(log)
    && (log == [] ==> w == EMPTY)
    && (log != [] ==>
          var o := Opener(log, |log| - 1);
          w == Window(Some(log[o]), |log| - o))
    && NeverOverfull(log)
  }

  predicate NeverOverfull(log: seq<int>) {
    forall i | 0 <= i < |log| :: i - Opener(log, i) < LIMIT
  }

  lemma {:induction false} OpenerOfPrefix(log: seq<int>, now: int, i: nat)
    requires i < |log|
    ensures Opener(log + [now], i) == Opener(log, i)
  {
    if i > 0 {
      OpenerOfPrefix(log, now, i - 1);
    }
  }

  lemma {:induction false} OverfullOnlyLast(log: seq<int>, now: int)
    requires NeverOverfull(log) && |log| - Opener(log + [now], |log|) < LIMIT
    ensures NeverOverfull(log + [now])
  {
    forall i | 0 <= i < |log| ensures Opener(log + [now], i) == Opener(log, i) {
      OpenerOfPrefix(log, now, i);
    }
  }

  lemma OrderedLonger(log: seq<int>, now: int)
    requires Ordered(log) && (log != [] ==> log[|log| - 1] <= now)
    ensures Ordered(log + [now])
  {
    forall i, j | 0 <= i <= j < |log| + 1 ensures NotAfter(log + [now], i, j) {
      if i < |log| {
        assert NotAfter(log, i, if j < |log| then j else |log| - 1);
      }
    }
  }

  /** Every admission keeps the columns exact; a refusal means the current window is full. */
  lemma {:induction false} AdmitTracks(w: Window, log: seq<int>, now: int)
    requires Tracks(w, log) && (log != [] ==> log[|log| - 1] <= now)
    ensures Admit(w, now).Some? ==> Tracks(Admit(w, now).value, log + [now])
    ensures Admit(w, now).None? <==>
            LIMIT <= |log| && now - log[|log| - LIMIT] < WINDOW && Opener(log, |log| - 1) == |log| - LIMIT
  {
    var longer := log + [now];
    if log != [] {
      var o := Opener(log, |log| - 1);
      OpenerOfPrefix(log, now, |log| - 1);
      assert |log| - 1 - o < LIMIT;
      assert Opener(longer, |log|) == if now - log[o] < WINDOW then o else |log|;
    }
    OrderedLonger(log, now);
    if Admit(w, now).Some? {
      OverfullOnlyLast(log, now);
    }
  }

  /** Thirty requests were admitted in the five minutes before `now`: the documented limit. */
  predicate ThirtyWithin(log: seq<int>, now: int) {
    LIMIT <= |log| && now - log[|log| - LIMIT] < WINDOW
  }

  /** The code refuses only at the documented limit, and at that limit it admits a request exactly if the stored
      counter is below thirty, so that some of the thirty belong to an earlier window. */
  lemma {:induction false} LimitIsPassedExactly(w: Window, log: seq<int>, now: int)
    requires Tracks(w, log) && (log != [] ==> log[|log| - 1] <= now)
    ensures Admit(w, now).None? ==> ThirtyWithin(log, now)
    ensures ThirtyWithin(log, now) ==> (Admit(w, now).Some? <==> w.count < LIMIT)
  {
    AdmitTracks(w, log, now);
  }

  lemma {:induction false} OpenerMonotone(log: seq<int>, i: nat, j: nat)
    requires i <= j < |log|
    ensures Opener(log, i) <= Opener(log, j)
  {
    if i < j {
      OpenerMonotone(log, i, j - 1);
    }
  }

  lemma {:induction false} OpenerGap(log: seq<int>, i: nat, j: nat)
    requires j < |log| && i < Opener(log, j)
    ensures var o := Opener(log, j);
            && Opener(log, i) <= Opener(log, o - 1)
            && (log[i] <= log[o - 1] ==> log[i] < log[o])
            && (log[Opener(log, i)] <= log[Opener(log, o - 1)] ==> log[Opener(log, i)] + WINDOW <= log[o])
  {
    OpenerOpens(log, j);
    OpenerMonotone(log, i, Opener(log, j) - 1);
  }

  /** The window opened last before `j` started at least a whole window after anything in it ended. */
  lemma {:induction false} OpenerIsLater(log: seq<int>, i: nat, j: nat)
    requires Ordered(log) && j < |log| && i < Opener(log, j)
    ensures log[i] < log[Opener(log, j)]
    ensures log[Opener(log, i)] + WINDOW <= log[Opener(log, j)]
  {
    OpenerGap(log, i, j);
    var o := Opener(log, j);
    assert NotAfter(log, i, o - 1) && NotAfter(log, Opener(log, i), Opener(log, o - 1));
  }

  /** Any span of five minutes, both ends included, contains at most twice the limit. */
  lemma {:induction false} SixtyPerFiveMinutes(w: Window, log: seq<int>, i: nat)
    requires Tracks(w, log) && i + 2 * LIMIT < |log|
    ensures log[i] + WINDOW < log[i + 2 * LIMIT]
  {
    var second := Opener(log, i + LIMIT);
    var third := Opener(log, i + 2 * LIMIT);
    assert i + LIMIT - second < LIMIT && i + 2 * LIMIT - third < LIMIT;
    OpenerIsLater(log, i, i + LIMIT);
    OpenerIsLater(log, i + LIMIT, i + 2 * LIMIT);
    assert NotAfter(log, third, i + 2 * LIMIT);
  }

  // ---------------------------------------------------------------------------
  // Sixty is reached: the limit is not thirty per five minutes
  // ---------------------------------------------------------------------------

  function AdmitAll(w: Window, times: seq<int>): Option<Window>
    decreases |times|
  {
    if times == [] then Some(w)
    else if Admit(w, times[0]).None? then None
    else AdmitAll(Admit(w, times[0]).value, times[1..])
  }

  function Burst(at: int, n: nat): (times: seq<int>)
    ensures |times| == n && forall i | 0 <= i < n :: times[i] == at
  {
    seq(n, _ => at)
  }

  lemma {:induction false} BurstFits(w: Window, at: int, n: nat)
    requires w.startedAt.Some? && at - w.startedAt.value < WINDOW && w.count + n <= LIMIT
    ensures AdmitAll(w, Burst(at, n)) == Some(w.(count := w.count + n))
    decreases n
  {
    if n > 0 {
      assert Burst(at, n)[1..] == Burst(at, n - 1);
      BurstFits(w.(count := w.count + 1), at, n - 1);
    }
  }

  lemma {:induction false} AdmitAllConcat(w: Window, a: seq<int>, b: seq<int>)
    requires AdmitAll(w, a).Some?
    ensures AdmitAll(w, a + b) == AdmitAll(AdmitAll(w, a).value, b)
    decreases |a|
  {
    if a == [] {
      assert a + b == b;
    } else {
      assert (a + b)[0] == a[0] && (a + b)[1..] == a[1..] + b;
      AdmitAllConcat(Admit(w, a[0]).value, a[1..], b);
    }
  }

  /** Sixty requests admitted within five minutes, fifty-nine of them within one millisecond. */
  lemma SixtyIsReached()
    ensures var times := [0] + Burst(WINDOW - 1, 29) + Burst(WINDOW, 30);
            |times| == 2 * LIMIT && times[|times| - 1] - times[0] <= WINDOW && AdmitAll(EMPTY, times).Some?
  {
    var first := [0];
    var full := Window(Some(0), LIMIT);
    assert AdmitAll(EMPTY, first) == AdmitAll(Window(Some(0), 1), first[1..]);
    BurstFits(Window(Some(0), 1), WINDOW - 1, 29);
    AdmitAllConcat(EMPTY, first, Burst(WINDOW - 1, 29));
    var second := Burst(WINDOW, 30);
    assert second[1..] == Burst(WINDOW, 29);
    assert Admit(full, WINDOW) == Some(Window(Some(WINDOW), 1));
    BurstFits(Window(Some(WINDOW), 1), WINDOW, 29);
    AdmitAllConcat(EMPTY, first + Burst(WINDOW - 1, 29), second);
  }
}
