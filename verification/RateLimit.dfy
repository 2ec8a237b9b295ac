/** The hourly call budget of one token, with a reserve that only verified humans may draw on. */
module RateLimit {
  newtype u32 = x: int | 0 <= x < 0x1_0000_0000

  /** One hour, in clock ticks of a nanosecond. */
  const WINDOW := 3_600_000_000_000

  datatype CallPriority = Standard | Reserved

  datatype BudgetStatus = BudgetStatus(hourlyLimit: u32, humanReserve: u32, used: u32,
                                       remainingStandard: u32, remainingReserved: u32)

  datatype Outcome = Granted(status: BudgetStatus) | BudgetExhausted

  function SaturatingSub(a: u32, b: u32): u32 {
    if a >= b then a - b else 0
  }

  datatype Limits = Limits(hourlyLimit: u32, humanReserve: u32)

  datatype Window = Window(startedAt: nat, used: u32)

  function StatusOf(l: Limits, w: Window): BudgetStatus {
    BudgetStatus(l.hourlyLimit, l.humanReserve, w.used,
                 SaturatingSub(SaturatingSub(l.hourlyLimit, l.humanReserve), w.used),
                 SaturatingSub(l.hourlyLimit, w.used))
  }

  function Cap(l: Limits, priority: CallPriority): u32 {
    if priority.Standard? then SaturatingSub(l.hourlyLimit, l.humanReserve) else l.hourlyLimit
  }

  /** The window a call finds: a new one, starting when the clock is read again, if the hour is over. */
  function Current(w: Window, checked: nat, restarted: nat): Window {
    if checked - w.startedAt >= WINDOW then Window(restarted, 0) else w
  }

  predicate Grants(l: Limits, w: Window, priority: CallPriority) {
    w.used < Cap(l, priority)
  }

  class RateLimitBudget {
    const hourlyLimit: u32
    const humanReserve: u32
    var startedAt: nat
    var used: u32

    ghost predicate Valid()
      reads this
    {
      humanReserve <= hourlyLimit && used <= hourlyLimit
    }

    function Limit(): Limits {
      Limits(hourlyLimit, humanReserve)
    }

    function Now(): Window
      reads this
    {
      Window(startedAt, used)
    }

    constructor (hourlyLimit: u32, humanReserve: u32, now: nat)
      ensures Valid() && Now() == Window(now, 0)
      ensures Limit() == Limits(hourlyLimit, if humanReserve <= hourlyLimit then humanReserve else hourlyLimit)
    {
      this.hourlyLimit := hourlyLimit;
      this.humanReserve := if humanReserve <= hourlyLimit then humanReserve else hourlyLimit;
      startedAt := now;
      used := 0;
    }

    method ResetIfElapsed(checked: nat, restarted: nat)
      requires Valid()
      modifies this
      ensures Valid()
      ensures checked - old(startedAt) >= 3_600_000_000_000 ==> Now() == Window(restarted, 0)
      ensures checked - old(startedAt) < 3_600_000_000_000 ==> Now() == old(Now())
    {
      if checked - startedAt >= WINDOW {
        startedAt := restarted;
        used := 0;
      }
    }

    method Status(checked: nat, restarted: nat) returns (status: BudgetStatus)
      requires Valid()
      modifies this
      ensures Valid() && Now() == Current(old(Now()), checked, restarted)
      ensures status == StatusOf(Limit(), Now())
      ensures forall priority, at: nat, n: nat | at - startedAt < WINDOW ::
        |PlayAll(Limit(), History(Now(), []), Burst(priority, at, n)).grants| ==
        Least(n, if priority.Standard? then status.remainingStandard as nat else status.remainingReserved as nat)
    {
      ResetIfElapsed(checked, restarted);
      status := StatusOf(Limit(), Now());
      forall priority, at: nat, n: nat | at - startedAt < WINDOW
        ensures
          |PlayAll(Limit(), History(Now(), []), Burst(priority, at, n)).grants| ==
          Least(n, if priority.Standard? then status.remainingStandard as nat else status.remainingReserved as nat)
      {
        BurstIsServed(Limit(), History(Now(), []), priority, at, n);
      }
    }

    method TryAcquire(priority: CallPriority, checked: nat, restarted: nat) returns (outcome: Outcome)
      requires Valid()
      modifies this
      ensures Valid()
      ensures
        var w := Current(old(Now()), checked, restarted);
        && (outcome.Granted? <==> Grants(Limit(), w, priority))
        && Now() == (if outcome.Granted? then w.(used := w.used + 1) else w)
        && (outcome.Granted? ==> outcome.status == StatusOf(Limit(), Now()))
      ensures
        var h := Play(Limit(), History(old(Now()), []), Acquire(priority, checked, restarted));
        Now() == h.window && (outcome.Granted? <==> h.grants != [])
    {
      ResetIfElapsed(checked, restarted);
      var cap := if priority.Standard? then SaturatingSub(hourlyLimit, humanReserve) else hourlyLimit;
      if used >= cap { return BudgetExhausted; }
      used := used + 1;
      outcome := Granted(StatusOf(Limit(), Now()));
    }
  }

  // ----- whole runs -----

  /** One call of the tracker: each reads the clock once, and again if it starts a new window. */
  datatype Call =
    | Acquire(priority: CallPriority, checked: nat, restarted: nat)
    | Look(checked: nat, restarted: nat)

  /** A granted call: when, counted against which window. */
  datatype Grant = Grant(priority: CallPriority, at: nat, window: nat)

  datatype History = History(window: Window, grants: seq<Grant>)

  function Opening(now: nat): History {
    History(Window(now, 0), [])
  }

  function Play(l: Limits, h: History, call: Call): History {
    var elapsed := call.checked - h.window.startedAt >= WINDOW;
    var w := Current(h.window, call.checked, call.restarted);
    if call.Look? || !Grants(l, w, call.priority) then h.(window := w)
    else
      var grant := Grant(call.priority, if elapsed then call.restarted else call.checked, w.startedAt);
      History(w.(used := w.used + 1), h.grants + [grant])
  }

  function PlayAll(l: Limits, h: History, calls: seq<Call>): History
    decreases |calls|
  {
    if calls == [] then h else PlayAll(l, Play(l, h, calls[0]), calls[1..])
  }

  /** The clock never goes back: each reading is at or after the one before it. */
  predicate InOrder(now: nat, calls: seq<Call>)
    decreases |calls|
  {
    calls == [] || (now <= calls[0].checked <= calls[0].restarted && InOrder(calls[0].restarted, calls[1..]))
  }

  /** The grants of one priority counted against one window. */
  function Count(grants: seq<Grant>, window: nat, priority: CallPriority): nat
    decreases |grants|
  {
    if grants == [] then 0
    else
      var last := grants[|grants| - 1];
      Count(grants[..|grants| - 1], window, priority) +
        if last.window == window && last.priority == priority then 1 else 0
  }

  function Total(grants: seq<Grant>, window: nat): nat {
    Count(grants, window, Standard) + Count(grants, window, Reserved)
  }

  predicate WellFormed(l: Limits) {
    l.humanReserve <= l.hourlyLimit
  }

  /** The budget of every window so far. */
  ghost predicate WithinBudget(l: Limits, grants: seq<Grant>) {
    forall window: nat ::
      && Count(grants, window, Standard) <= l.hourlyLimit as nat - l.humanReserve as nat
      && Total(grants, window) <= l.hourlyLimit as nat
  }

  /** Windows start an hour or more apart, and a window's grants fall within its hour. */
  ghost predicate Spaced(h: History) {
    && (forall i | 0 <= i < |h.grants| ::
          h.grants[i].window <= h.grants[i].at < h.grants[i].window + WINDOW &&
          (h.grants[i].window == h.window.startedAt || h.grants[i].window + WINDOW <= h.window.startedAt))
    && (forall i, j | 0 <= i < |h.grants| && 0 <= j < |h.grants| && h.grants[i].window < h.grants[j].window ::
          h.grants[i].window + WINDOW <= h.grants[j].window)
  }

  ghost predicate Sound(l: Limits, h: History) {
    && WithinBudget(l, h.grants)
    && h.window.used as nat == Total(h.grants, h.window.startedAt)
    && Spaced(h)
  }

  /** No grant was counted against a window that no grant names. */
  lemma {:induction false} NoneCounted(grants: seq<Grant>, window: nat, priority: CallPriority)
    requires forall i | 0 <= i < |grants| :: grants[i].window != window
    ensures Count(grants, window, priority) == 0
    decreases |grants|
  {
    if grants != [] { NoneCounted(grants[..|grants| - 1], window, priority); }
  }

  lemma CountOneMore(grants: seq<Grant>, grant: Grant, window: nat, priority: CallPriority)
    ensures Count(grants + [grant], window, priority) ==
            Count(grants, window, priority) + if grant.window == window && grant.priority == priority then 1 else 0
  {
    assert (grants + [grant])[..|grants|] == grants;
  }

  lemma CurrentIsSound(l: Limits, h: History, call: Call)
    requires WellFormed(l) && Sound(l, h) && h.window.startedAt <= call.checked <= call.restarted
    ensures Sound(l, h.(window := Current(h.window, call.checked, call.restarted)))
  {
    if call.checked - h.window.startedAt >= WINDOW {
      NoneCounted(h.grants, call.restarted, Standard);
      NoneCounted(h.grants, call.restarted, Reserved);
    }
  }

  lemma GrantIsSound(l: Limits, h: History, grant: Grant)
    requires WellFormed(l) && Sound(l, h) && Grants(l, h.window, grant.priority)
    requires grant.window == h.window.startedAt && grant.window <= grant.at < grant.window + WINDOW
    ensures Sound(l, History(h.window.(used := h.window.used + 1), h.grants + [grant]))
  {
    forall window: nat, priority
      ensures Count(h.grants + [grant], window, priority) ==
              Count(h.grants, window, priority) + if grant.window == window && grant.priority == priority then 1 else 0
    {
      CountOneMore(h.grants, grant, window, priority);
    }
    hide Count;
  }

  lemma PlayIsSound(l: Limits, h: History, call: Call)
    requires WellFormed(l) && Sound(l, h) && h.window.startedAt <= call.checked <= call.restarted
    ensures Sound(l, Play(l, h, call)) && Play(l, h, call).window.startedAt <= call.restarted
  {
    CurrentIsSound(l, h, call);
    CurrentFacts(h.window, call);
    hide Sound;
    var w := Current(h.window, call.checked, call.restarted);
    hide Current;
    if call.Acquire? && Grants(l, w, call.priority) {
      var elapsed := call.checked - h.window.startedAt >= WINDOW;
      var at := if elapsed then call.restarted else call.checked;
      GrantIsSound(l, h.(window := w), Grant(call.priority, at, w.startedAt));
    }
  }

  lemma CurrentFacts(w: Window, call: Call)
    requires w.startedAt <= call.checked <= call.restarted
    ensures
      var current := Current(w, call.checked, call.restarted);
      var at := if call.checked - w.startedAt >= WINDOW then call.restarted else call.checked;
      current.startedAt <= at < current.startedAt + WINDOW && current.startedAt <= call.restarted
  {
  }

  lemma {:induction false} PlayAllIsSound(l: Limits, h: History, now: nat, calls: seq<Call>)
    requires WellFormed(l) && Sound(l, h) && h.window.startedAt <= now && InOrder(now, calls)
    ensures Sound(l, PlayAll(l, h, calls))
    decreases |calls|
  {
    hide Sound;
    hide Play;
    if calls != [] {
      PlayIsSound(l, h, calls[0]);
      PlayAllIsSound(l, Play(l, h, calls[0]), calls[0].restarted, calls[1..]);
    }
  }

  lemma OpeningIsSound(l: Limits, now: nat)
    requires WellFormed(l)
    ensures Sound(l, Opening(now))
  {
  }

  /** Over any run, every window grants at most the unreserved share to standard callers, and
      at most the limit in all. */
  lemma WindowsStayWithinBudget(l: Limits, now: nat, calls: seq<Call>, window: nat)
    requires WellFormed(l) && InOrder(now, calls)
    ensures
      var grants := PlayAll(l, Opening(now), calls).grants;
      && Count(grants, window, Standard) <= l.hourlyLimit as nat - l.humanReserve as nat
      && Count(grants, window, Standard) + Count(grants, window, Reserved) <= l.hourlyLimit as nat
  {
    OpeningIsSound(l, now);
    PlayAllIsSound(l, Opening(now), now, calls);
    hide PlayAll;
    hide Spaced;
    hide Count;
  }

  /** A call is refused exactly when its window has granted, in all, the limit less the reserve to
      a standard caller, or the whole limit to a verified human. */
  lemma RefusedIff(l: Limits, now: nat, calls: seq<Call>, call: Call)
    requires WellFormed(l) && InOrder(now, calls)
    requires
      var h := PlayAll(l, Opening(now), calls);
      h.window.startedAt <= call.checked <= call.restarted && call.Acquire?
    ensures
      var h := PlayAll(l, Opening(now), calls);
      var window := if call.checked - h.window.startedAt >= WINDOW then call.restarted else h.window.startedAt;
      Play(l, h, call).grants == h.grants <==>
      Total(h.grants, window) >=
        if call.priority.Standard? then l.hourlyLimit as nat - l.humanReserve as nat else l.hourlyLimit as nat
  {
    OpeningIsSound(l, now);
    PlayAllIsSound(l, Opening(now), now, calls);
    var h := PlayAll(l, Opening(now), calls);
    hide PlayAll;
    CurrentIsSound(l, h, call);
    hide Spaced;
    hide Count;
  }

  /** A verified human is refused only once humans have been granted the whole reserve in the
      window that refuses them. */
  lemma ReserveIsKept(l: Limits, now: nat, calls: seq<Call>, call: Call)
    requires WellFormed(l) && InOrder(now, calls)
    requires
      var h := PlayAll(l, Opening(now), calls);
      && h.window.startedAt <= call.checked <= call.restarted
      && call.Acquire? && call.priority.Reserved?
      && Play(l, h, call).grants == h.grants
    ensures
      var h := PlayAll(l, Opening(now), calls);
      var window := if call.checked - h.window.startedAt >= WINDOW then call.restarted else h.window.startedAt;
      Count(h.grants, window, Reserved) >= l.humanReserve as nat
  {
    RefusedIff(l, now, calls, call);
    var h := PlayAll(l, Opening(now), calls);
    var window := if call.checked - h.window.startedAt >= WINDOW then call.restarted else h.window.startedAt;
    WindowsStayWithinBudget(l, now, calls, window);
    hide PlayAll;
    hide Play;
    hide Count;
  }

  // ----- what a status promises -----

  /** So many calls of one priority, all at one moment. */
  function Burst(priority: CallPriority, at: nat, n: nat): seq<Call> {
    seq(n, _ => Acquire(priority, at, at))
  }

  function Least(a: nat, b: nat): nat {
    if a <= b then a else b
  }

  lemma BurstSplit(priority: CallPriority, at: nat, n: nat)
    requires n > 0
    ensures Burst(priority, at, n)[0] == Acquire(priority, at, at)
    ensures Burst(priority, at, n)[1..] == Burst(priority, at, n - 1)
  {
  }

  /** Of a burst within the window, what remains for its priority is granted, and no more. */
  lemma {:induction false} BurstIsServed(l: Limits, h: History, priority: CallPriority, at: nat, n: nat)
    requires at - h.window.startedAt < WINDOW && h.window.used <= l.hourlyLimit && WellFormed(l)
    ensures
      var status := StatusOf(l, h.window);
      var remaining := if priority.Standard? then status.remainingStandard else status.remainingReserved;
      var end := PlayAll(l, h, Burst(priority, at, n));
      && end.grants == h.grants + seq(Least(n, remaining as nat), _ => Grant(priority, at, h.window.startedAt))
      && end.window.startedAt == h.window.startedAt
    decreases n
  {
    if n > 0 {
      BurstSplit(priority, at, n);
      var next := Play(l, h, Burst(priority, at, n)[0]);
      BurstIsServed(l, next, priority, at, n - 1);
      if Grants(l, h.window, priority) {
        assert next.grants == h.grants + [Grant(priority, at, h.window.startedAt)];
      }
    }
  }

  /** Asked at any point of a run, the tracker reports what its window has granted, and exactly how
      many further calls of each priority that window would grant. */
  lemma StatusIsExact(l: Limits, now: nat, calls: seq<Call>, look: Call, at: nat, n: nat)
    requires WellFormed(l) && InOrder(now, calls) && look.Look?
    requires
      var h := PlayAll(l, Opening(now), calls);
      h.window.startedAt <= look.checked <= look.restarted <= at
    requires at - Play(l, PlayAll(l, Opening(now), calls), look).window.startedAt < WINDOW
    ensures
      var h := PlayAll(l, Opening(now), calls);
      var seen := Play(l, h, look);
      var status := StatusOf(l, seen.window);
      && seen.grants == h.grants
      && status.hourlyLimit == l.hourlyLimit && status.humanReserve == l.humanReserve
      && status.used as nat == Total(h.grants, seen.window.startedAt)
      && |PlayAll(l, seen, Burst(Standard, at, n)).grants| - |h.grants| == Least(n, status.remainingStandard as nat)
      && |PlayAll(l, seen, Burst(Reserved, at, n)).grants| - |h.grants| == Least(n, status.remainingReserved as nat)
  {
    OpeningIsSound(l, now);
    PlayAllIsSound(l, Opening(now), now, calls);
    var h := PlayAll(l, Opening(now), calls);
    PlayIsSound(l, h, look);
    var seen := Play(l, h, look);
    hide Spaced;
    hide Count;
    BurstIsServed(l, seen, Standard, at, n);
    BurstIsServed(l, seen, Reserved, at, n);
    hide PlayAll;
  }

  // ----- any hour, however aligned -----

  predicate In(grant: Grant, from: nat) {
    from <= grant.at < from + 3_600_000_000_000
  }

  /** The grants in the hour that starts at `from`. */
  function CountFrom(grants: seq<Grant>, from: nat): nat
    decreases |grants|
  {
    if grants == [] then 0
    else CountFrom(grants[..|grants| - 1], from) + if In(grants[|grants| - 1], from) then 1 else 0
  }

  /** If the hour meets only two windows, their totals bound its grants. */
  lemma {:induction false} TwoWindowsBound(grants: seq<Grant>, from: nat, p: nat, q: nat)
    requires forall i | 0 <= i < |grants| && In(grants[i], from) :: grants[i].window in {p, q}
    ensures CountFrom(grants, from) <= Total(grants, p) + Total(grants, q)
    decreases |grants|
  {
    if grants != [] {
      var rest := grants[..|grants| - 1];
      TwoWindowsBound(rest, from, p, q);
      assert grants == rest + [grants[|grants| - 1]];
      CountOneMore(rest, grants[|grants| - 1], p, Standard);
      CountOneMore(rest, grants[|grants| - 1], p, Reserved);
      CountOneMore(rest, grants[|grants| - 1], q, Standard);
      CountOneMore(rest, grants[|grants| - 1], q, Reserved);
      hide Count;
    }
  }

  /** No hour meets three windows: the second of them alone would fill it. */
  lemma AnHourMeetsTwoWindows(h: History, from: nat) returns (p: nat, q: nat)
    requires Spaced(h)
    ensures forall i | 0 <= i < |h.grants| && In(h.grants[i], from) :: h.grants[i].window in {p, q}
  {
    if i :| 0 <= i < |h.grants| && In(h.grants[i], from) {
      p := h.grants[i].window;
      if j :| 0 <= j < |h.grants| && In(h.grants[j], from) && h.grants[j].window != p {
        q := h.grants[j].window;
      } else {
        q := p;
      }
    } else {
      p, q := 0, 0;
    }
  }

  /** Any half-open hour, however it lies across the windows, holds at most twice the limit. */
  lemma AnyHourIsBounded(l: Limits, now: nat, calls: seq<Call>, from: nat)
    requires WellFormed(l) && InOrder(now, calls)
    ensures CountFrom(PlayAll(l, Opening(now), calls).grants, from) <= 2 * l.hourlyLimit as nat
  {
    OpeningIsSound(l, now);
    PlayAllIsSound(l, Opening(now), now, calls);
    var h := PlayAll(l, Opening(now), calls);
    hide PlayAll;
    var p, q := AnHourMeetsTwoWindows(h, from);
    hide Spaced;
    TwoWindowsBound(h.grants, from, p, q);
    hide Count;
  }

  lemma {:induction false} BurstInOrder(now: nat, at: nat, n: nat, rest: seq<Call>)
    requires now <= at && InOrder(at, rest)
    ensures InOrder(now, Burst(Reserved, at, n) + rest)
    decreases n
  {
    if n == 0 {
      assert Burst(Reserved, at, 0) + rest == rest;
      if rest != [] { assert at <= rest[0].checked; }
    } else {
      BurstSplit(Reserved, at, n);
      assert (Burst(Reserved, at, n) + rest)[1..] == Burst(Reserved, at, n - 1) + rest;
      BurstInOrder(at, at, n - 1, rest);
    }
  }

  lemma {:induction false} PlayAllInTwo(l: Limits, h: History, first: seq<Call>, second: seq<Call>)
    ensures PlayAll(l, h, first + second) == PlayAll(l, PlayAll(l, h, first), second)
    decreases |first|
  {
    if first == [] {
      assert first + second == second;
    } else {
      assert (first + second)[1..] == first[1..] + second;
      PlayAllInTwo(l, Play(l, h, first[0]), first[1..], second);
    }
  }

  /** A burst that finds its window over starts the next. */
  lemma BurstStartsWindow(l: Limits, h: History, at: nat, n: nat)
    requires WellFormed(l) && at - h.window.startedAt >= WINDOW && 0 < n <= l.hourlyLimit as nat
    ensures PlayAll(l, h, Burst(Reserved, at, n)).grants == h.grants + seq(n, _ => Grant(Reserved, at, at))
  {
    BurstSplit(Reserved, at, n);
    var reset := h.(window := Window(at, 0));
    assert Play(l, h, Burst(Reserved, at, n)[0]) == Play(l, reset, Burst(Reserved, at, n)[0]);
    assert PlayAll(l, h, Burst(Reserved, at, n)) == PlayAll(l, reset, Burst(Reserved, at, n));
    BurstIsServed(l, reset, Reserved, at, n);
  }

  lemma {:induction false} AllWithin(grants: seq<Grant>, from: nat)
    requires forall i | 0 <= i < |grants| :: In(grants[i], from)
    ensures CountFrom(grants, from) == |grants|
    decreases |grants|
  {
    if grants != [] { AllWithin(grants[..|grants| - 1], from); }
  }

  /** The bound is met, for every limit: all of it at the end of a window, and all of it again at the
      start of the next, within one hour. */
  lemma TwiceTheLimitHappens(l: Limits) returns (calls: seq<Call>)
    requires WellFormed(l) && l.hourlyLimit > 0
    ensures InOrder(0, calls)
    ensures CountFrom(PlayAll(l, Opening(0), calls).grants, WINDOW - 1) == 2 * l.hourlyLimit as nat
  {
    var n := l.hourlyLimit as nat;
    var first, second := Burst(Reserved, WINDOW - 1, n), Burst(Reserved, WINDOW, n);
    calls := first + second;
    assert second + [] == second;
    BurstInOrder(WINDOW - 1, WINDOW, n, []);
    BurstInOrder(0, WINDOW - 1, n, second);
    PlayAllInTwo(l, Opening(0), first, second);
    BurstIsServed(l, Opening(0), Reserved, WINDOW - 1, n);
    BurstStartsWindow(l, PlayAll(l, Opening(0), first), WINDOW, n);
    hide PlayAll;
    AllWithin(PlayAll(l, Opening(0), calls).grants, WINDOW - 1);
  }
}
