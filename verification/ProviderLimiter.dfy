// The limiter of concurrent provider sessions: a count per account, a global count and the
// time of each account's last operation.
module ProviderLimiter {
  type Account = string

  datatype Config = Config(perAccount: int, intervalMs: int, global: int)

  const DEFAULT_CONFIG := Config(1, 5000, 5)

  datatype Limiter = Limiter(active: map<Account, int>, last: map<Account, int>, sessions: int)

  const EMPTY := Limiter(map[], map[], 0)

  function ActiveOf(l: Limiter, a: Account, default: int): int {
    if a in l.active then l.active[a] else default
  }

  function LastOf(l: Limiter, a: Account): int {
    if a in l.last then l.last[a] else 0
  }

  predicate Allowed(c: Config, l: Limiter, a: Account, now: int) {
    l.sessions < c.global && ActiveOf(l, a, 0) < c.perAccount && now - LastOf(l, a) >= c.intervalMs
  }

  function Acquired(l: Limiter, a: Account, now: int): Limiter {
    Limiter(l.active[a := ActiveOf(l, a, 0) + 1], l.last[a := now], l.sessions + 1)
  }

  function Released(l: Limiter, a: Account): Limiter {
    var n := ActiveOf(l, a, 1);
    Limiter(if n <= 1 then l.active - {a} else l.active[a := n - 1], l.last,
            if l.sessions > 0 then l.sessions - 1 else l.sessions)
  }

  class ProviderRateLimiter {
    const config: Config
    var activeAccountSessions: map<Account, int>
    var lastOperationTimestamps: map<Account, int>
    var currentGlobalSessions: int

    function Value(): Limiter
      reads this
    {
      Limiter(activeAccountSessions, lastOperationTimestamps, currentGlobalSessions)
    }

    constructor (config: Config := DEFAULT_CONFIG)
      ensures Value() == EMPTY && this.config == config
    {
      this.config := config;
      activeAccountSessions, lastOperationTimestamps, currentGlobalSessions := map[], map[], 0;
    }

    method CanExecute(a: Account, now: int) returns (allowed: bool)
      ensures allowed <==> Allowed(config, Value(), a, now)
      // in terms of who holds sessions
      ensures forall held :: Conserved(config, Value(), held) ==>
                (allowed <==> |held| < config.global && held[a] < config.perAccount
                              && now - LastOf(Value(), a) >= config.intervalMs)
    {
      if currentGlobalSessions >= config.global { return false; }
      var activeForAccount := if a in activeAccountSessions then activeAccountSessions[a] else 0;
      if activeForAccount >= config.perAccount { return false; }
      var lastTime := if a in lastOperationTimestamps then lastOperationTimestamps[a] else 0;
      var elapsed := now - lastTime;
      allowed := elapsed >= config.intervalMs;
    }

    method Acquire(a: Account, now: int)
      modifies this
      ensures Value() == Acquired(old(Value()), a, now)
      // where it was allowed, one more session is held and the limits still hold
      ensures forall held :: Conserved(config, old(Value()), held) && Allowed(config, old(Value()), a, now) ==>
                Conserved(config, Value(), held + multiset{a})
      // and no other may start for the account within the interval
      ensures forall later :: later - now < config.intervalMs ==> !Allowed(config, Value(), a, later)
    {
      var active := if a in activeAccountSessions then activeAccountSessions[a] else 0;
      activeAccountSessions := activeAccountSessions[a := active + 1];
      currentGlobalSessions := currentGlobalSessions + 1;
      lastOperationTimestamps := lastOperationTimestamps[a := now];
    }

    method Release(a: Account)
      modifies this
      ensures Value() == Released(old(Value()), a)
      // the counts stay right exactly when the account holds a session, or nobody does
      ensures forall held :: Conserved(config, old(Value()), held) ==>
                (Conserved(config, Value(), held - multiset{a}) <==> a in held || held == multiset{})
    {
      ghost var before := Value();
      var active := if a in activeAccountSessions then activeAccountSessions[a] else 1;
      if active <= 1 {
        activeAccountSessions := activeAccountSessions - {a};
      } else {
        activeAccountSessions := activeAccountSessions[a := active - 1];
      }
      if currentGlobalSessions > 0 {
        currentGlobalSessions := currentGlobalSessions - 1;
      }
      assert Value() == Released(before, a);
      ReleaseForAnyHolders(config, before, a);
    }
  }

  // ---- Runs -------------------------------------------------------------------------------

  // Try is canExecute followed, when it allows, by acquire.
  datatype Event = Try(account: Account, now: int) | Release(account: Account)

  function Step(c: Config, l: Limiter, e: Event): Limiter {
    match e
    case Try(a, now) => if Allowed(c, l, a, now) then Acquired(l, a, now) else l
    case Release(a) => Released(l, a)
  }

  // Who holds sessions, counted independently of the limiter: the accounts whose try was
  // allowed and who have not released it.
  function Hold(c: Config, l: Limiter, held: multiset<Account>, e: Event): multiset<Account> {
    match e
    case Try(a, now) => if Allowed(c, l, a, now) then held + multiset{a} else held
    case Release(a) => held - multiset{a}
  }

  function LimiterAfter(c: Config, events: seq<Event>): Limiter {
    if events == [] then EMPTY else Step(c, LimiterAfter(c, events[..|events| - 1]), events[|events| - 1])
  }

  function HeldAfter(c: Config, events: seq<Event>): multiset<Account> {
    if events == [] then multiset{}
    else
      var prefix := events[..|events| - 1];
      Hold(c, LimiterAfter(c, prefix), HeldAfter(c, prefix), events[|events| - 1])
  }

  // The counts are the holders', and both limits hold.
  ghost predicate Conserved(c: Config, l: Limiter, held: multiset<Account>) {
    && l.sessions == |held|
    && (forall a :: a in l.active <==> a in held)
    && (forall a :: a in held ==> l.active[a] == held[a])
    && (held != multiset{} ==> l.sessions <= c.global)
    && (forall a :: a in held ==> held[a] <= c.perAccount)
  }

  lemma TryConserves(c: Config, l: Limiter, held: multiset<Account>, a: Account, now: int)
    requires Conserved(c, l, held)
    ensures Conserved(c, Step(c, l, Try(a, now)), Hold(c, l, held, Try(a, now)))
  {
  }

  // A release keeps the counts right exactly when its account holds a session or nobody does.
  lemma ReleaseConservesExactly(c: Config, l: Limiter, held: multiset<Account>, a: Account)
    requires Conserved(c, l, held)
    ensures Conserved(c, Released(l, a), held - multiset{a}) <==> a in held || held == multiset{}
  {
    if a in held {
      assert |held - multiset{a}| == |held| - 1;
    } else {
      assert held - multiset{a} == held;
    }
  }

  lemma ReleaseForAnyHolders(c: Config, l: Limiter, a: Account)
    ensures forall held :: Conserved(c, l, held) ==>
              (Conserved(c, Released(l, a), held - multiset{a}) <==> a in held || held == multiset{})
  {
    forall held | Conserved(c, l, held)
      ensures Conserved(c, Released(l, a), held - multiset{a}) <==> a in held || held == multiset{}
    {
      ReleaseConservesExactly(c, l, held, a);
    }
  }

  // Only holders release.
  ghost predicate HoldersRelease(c: Config, events: seq<Event>) {
    events == [] ||
    var prefix, e := events[..|events| - 1], events[|events| - 1];
    HoldersRelease(c, prefix) && (e.Release? ==> e.account in HeldAfter(c, prefix))
  }

  // Then, at every moment, the global count is the number of sessions held, each account's
  // count its own share of them, and both limits hold.
  lemma {:induction false} SessionsAreConserved(c: Config, events: seq<Event>)
    requires HoldersRelease(c, events)
    ensures Conserved(c, LimiterAfter(c, events), HeldAfter(c, events))
  {
    if events == [] {
    } else {
      var prefix, e := events[..|events| - 1], events[|events| - 1];
      SessionsAreConserved(c, prefix);
      var l, held := LimiterAfter(c, prefix), HeldAfter(c, prefix);
      match e
      case Try(a, now) => TryConserves(c, l, held, a, now);
      case Release(a) => ReleaseConservesExactly(c, l, held, a);
    }
  }

  // A release by an account that holds nothing lets one session too many in.
  lemma StrayReleaseBreaksTheLimit(c: Config, l: Limiter, held: multiset<Account>, a: Account, now: int)
    requires Conserved(c, l, held) && |held| == c.global > 0
    requires a !in held && c.perAccount > 0 && now - LastOf(l, a) >= c.intervalMs
    ensures Allowed(c, Released(l, a), a, now)
    ensures |Hold(c, Released(l, a), held - multiset{a}, Try(a, now))| == c.global + 1
  {
    assert held - multiset{a} == held;
  }

  // Without a configuration of its own the limiter lets an account start when it holds no session,
  // fewer than five are held in all, and five seconds have passed since its last start, which for the
  // first one is time zero.
  lemma DefaultsExactly(l: Limiter, held: multiset<Account>, a: Account, now: int)
    requires Conserved(DEFAULT_CONFIG, l, held)
    ensures Allowed(DEFAULT_CONFIG, l, a, now) <==>
              a !in held && |held| < 5 && now - (if a in l.last then l.last[a] else 0) >= 5000
  {
  }

  // ---- Spacing ------------------------------------------------------------------------------

  // The times at which an account's tries were allowed.
  function Starts(c: Config, events: seq<Event>, a: Account): seq<int> {
    if events == [] then []
    else
      var prefix, e := events[..|events| - 1], events[|events| - 1];
      Starts(c, prefix, a)
        + if e.Try? && e.account == a && Allowed(c, LimiterAfter(c, prefix), a, e.now) then [e.now] else []
  }

  lemma {:induction false} LastIsLastStart(c: Config, events: seq<Event>, a: Account)
    ensures var ts := Starts(c, events, a);
            var l := LimiterAfter(c, events);
            (ts == [] ==> a !in l.last) && (ts != [] ==> a in l.last && l.last[a] == ts[|ts| - 1])
  {
    if events == [] {
    } else {
      LastIsLastStart(c, events[..|events| - 1], a);
    }
  }

  // Successive sessions of one account start at least the minimum interval apart.
  lemma {:induction false} StartsAreSpaced(c: Config, events: seq<Event>, a: Account, i: nat)
    requires i + 1 < |Starts(c, events, a)|
    ensures Starts(c, events, a)[i + 1] - Starts(c, events, a)[i] >= c.intervalMs
  {
    var prefix := events[..|events| - 1];
    if i + 1 < |Starts(c, prefix, a)| {
      StartsAreSpaced(c, prefix, a, i);
    } else {
      LastIsLastStart(c, prefix, a);
    }
  }
}
