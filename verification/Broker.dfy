/**
 The session broker: saved token, validation without side effects, refresh, and a password login only on
 an explicit request. The platform answers as it likes; `calls` records what it was asked and `grants`
 the lottery tokens it issued.
 */
module Broker {
  import opened Prelude
  import opened Vault
  import opened Sessions
  import Ledger

  datatype Intent = ReadOnly | SideEffect | ScheduledAutomation | ExplicitReauthenticate

  datatype SessionKind = ParentSession | LotterySession

  datatype AuthError = Unavailable | ReauthRequired | CapacityProtected

  datatype Answer = Accepted | Rejected | Down

  /** A request, or the capacity check with the last session total it could learn and the ledger it left. */
  datatype Call =
    | UserSelf(answer: Answer)
    | Refresh(answer: Answer)
    | Login(answer: Answer)
    | BridgeTo(parent: Token, user: int, answer: Answer)
    | Guard(allowed: bool, known: Option<nat>, ledger: seq<Managed>)

  /** A lottery token with its end, the parent token and the user it was issued for. */
  datatype Grant = Grant(lottery: Token, until: Option<int>, parent: Token, user: int)

  /** A parent session as a refresh or a login hands it out. */
  datatype Issue = Issue(user: int, parent: Token, until: Option<int>)

  datatype ParentResult = Got(token: Token) | Lost(error: AuthError)

  datatype AcquireResult = Session(token: Token, cookies: seq<string>, user: int) | Refused(error: AuthError)

  const MINUTE: int := 60_000_000_000

  predicate Usable(token: Token, until: Option<int>, now: int) {
    token != "" && (until.None? || until.value > now + MINUTE)
  }

  function TokenOf(s: Saved, kind: SessionKind): Token {
    if kind.ParentSession? then s.parent else s.lottery
  }

  function UntilOf(s: Saved, kind: SessionKind): Option<int> {
    if kind.ParentSession? then s.parentUntil else s.lotteryUntil
  }

  /** The token asked for is stored, and ends never or later than a minute from now. */
  ghost predicate Lasting(s: Saved, kind: SessionKind, now: int) {
    match kind
    case ParentSession => s.parent != "" && (s.parentUntil == None || s.parentUntil.value > now + 60_000_000_000)
    case LotterySession => s.lottery != "" && (s.lotteryUntil == None || s.lotteryUntil.value > now + 60_000_000_000)
  }

  /**
   The stored parent session is one the platform handed out, and the stored lottery token was issued for the
   parent token and the user stored with it; both are stored with their own end.
   */
  ghost predicate Genuine(s: Saved, issued: seq<Issue>, grants: set<Grant>) {
    && Handed(s, issued)
    && (s.lottery != "" ==> Grant(s.lottery, s.lotteryUntil, s.parent, s.user) in grants)
  }

  ghost predicate Handed(s: Saved, issued: seq<Issue>) {
    s.parent != "" ==> Issue(s.user, s.parent, s.parentUntil) in issued
  }

  /** The parent session of s is the one the platform handed out last. */
  ghost predicate Newest(s: Saved, issued: seq<Issue>) {
    issued != [] && Last(issued) == Issue(s.user, s.parent, s.parentUntil)
  }

  // ----- the shapes of the call sequences -----

  predicate GuardOk(g: Call, threshold: int) {
    g.Guard? && (g.allowed <==> g.known.None? || g.known.value < threshold)
  }

  /** Getting a parent session: in the background validate, then refresh; explicitly guard, then log in. */
  predicate ParentCalls(explicit: bool, threshold: int, calls: seq<Call>) {
    if explicit then
      || calls == []
      || (GuardOk(calls[0], threshold) && if calls[0].allowed then |calls| == 2 && calls[1].Login? else |calls| == 1)
    else
      || calls == []
      || (|calls| == 1 && calls[0].UserSelf? && !calls[0].answer.Rejected?)
      || (|calls| == 1 && calls[0].Refresh?)
      || (|calls| == 2 && calls[0] == UserSelf(Rejected) && calls[1].Refresh?)
  }

  /** Bridging: only a rejected bridge refreshes, once, and only a successful refresh bridges again. */
  predicate BridgeCalls(calls: seq<Call>) {
    || calls == []
    || (|calls| == 1 && calls[0].BridgeTo? && !calls[0].answer.Rejected?)
    || (|calls| == 2 && calls[0].BridgeTo? && calls[0].answer.Rejected? && calls[1].Refresh?)
    || (|calls| == 3 && calls[0].BridgeTo? && calls[0].answer.Rejected? && calls[1] == Refresh(Accepted)
        && calls[2].BridgeTo?)
  }

  /** A whole broker call: getting a parent session, and bridging only from one that was got. */
  predicate LadderCalls(explicit: bool, threshold: int, kind: SessionKind, p: seq<Call>, b: seq<Call>) {
    && ParentCalls(explicit, threshold, p) && BridgeCalls(b)
    && (kind.ParentSession? ==> b == [])
    && (b != [] && p != [] ==> Refusal(Last(p)).None?)
  }

  /** The part that decided the outcome. */
  function Final(p: seq<Call>, b: seq<Call>): seq<Call> {
    if b == [] then p else b
  }

  /** The error a platform answer stands for. */
  function Refusal(c: Call): Option<AuthError> {
    match c
    case Guard(allowed, _, _) => if allowed then None else Some(CapacityProtected)
    case UserSelf(a) => if a.Down? then Some(Unavailable) else None
    case _ => match c.answer case Accepted => None case Rejected => Some(ReauthRequired) case Down => Some(Unavailable)
  }

  /**
   Why a broker call ended in an error: the last answer decides; without one, missing credentials or a
   fault of its own.
   */
  ghost predicate Explained(error: AuthError, explicit: bool, s: Saved, calls: seq<Call>, faulty: bool) {
    if calls != [] && Refusal(Last(calls)).Some? then Refusal(Last(calls)) == Some(error)
    else
      || (faulty && error.Unavailable?)
      || (calls == [] && explicit && NoCredentials(s) && error.ReauthRequired?)
  }

  /** A bundle after a new parent session: everything of the old session is replaced, the credentials stay. */
  function NewParent(s: Saved, user: int, token: Token, until: Option<int>, jar: seq<string>,
                     managed: seq<Managed>): Saved {
    Saved(token, until, "", None, user, jar, s.login, s.password, managed)
  }

  /** The ledger after the session of a fresh token was recorded in it. */
  ghost predicate Recorded(before: seq<Managed>, sid: string, now: int, after: seq<Managed>) {
    if sid == "" then after == before else Ledger.Bounded(Ledger.Touched(before, sid, now), after)
  }

  predicate NoCredentials(s: Saved) {
    s.login == "" || s.password == ""
  }

  class Bundle {
    var parent: Token
    var parentUntil: Option<int>
    var lottery: Token
    var lotteryUntil: Option<int>
    var user: int
    var cookies: seq<string>
    var login: string
    var password: string
    var managed: seq<Managed>

    constructor (s: Saved)
      ensures Image() == s
    {
      parent, parentUntil, lottery, lotteryUntil := s.parent, s.parentUntil, s.lottery, s.lotteryUntil;
      user, cookies, login, password, managed := s.user, s.cookies, s.login, s.password, s.managed;
    }

    function Image(): Saved
      reads this
    {
      Saved(parent, parentUntil, lottery, lotteryUntil, user, cookies, login, password, managed)
    }

    method Assign(s: Saved)
      modifies this
      ensures Image() == s
    {
      parent, parentUntil, lottery, lotteryUntil := s.parent, s.parentUntil, s.lottery, s.lotteryUntil;
      user, cookies, login, password, managed := s.user, s.cookies, s.login, s.password, s.managed;
    }
  }

  class Broker {
    const vault: Vault
    const guard: CapacityGuard
    var clock: int
    ghost var issued: seq<Issue>
    ghost var grants: set<Grant>
    ghost var calls: seq<Call>
    ghost var troubles: nat

    constructor (vault: Vault, guard: CapacityGuard, now: int)
      requires guard.manager.vault == vault && vault.saved == None
      ensures Valid() && this.vault == vault && this.guard == guard
    {
      this.vault, this.guard, clock, issued, grants, calls, troubles := vault, guard, now, [], {}, [], 0;
    }

    ghost predicate Valid()
      reads this, vault, guard, guard.manager
    {
      guard.manager.vault == vault && (vault.saved.Some? ==> Genuine(vault.saved.value, issued, grants))
    }

    ghost function Faults(): nat
      reads this, vault, guard, guard.manager
    {
      troubles + vault.faults + guard.manager.troubles
    }

    function Threshold(): int
      reads guard
    {
      guard.limit - guard.margin
    }

    method CurrentTime() returns (now: int)
      modifies this`clock
      ensures now == clock >= old(clock)
    {
      var t: int := *;
      if t > clock {
        clock := t;
      }
      now := clock;
    }

    /** Anything on the way that may fail without an answer from the platform. */
    method Attempt() returns (ok: bool)
      modifies this`troubles
      ensures troubles == old(troubles) + if ok then 0 else 1
    {
      ok := *;
      if !ok {
        troubles := troubles + 1;
      }
    }

    method LoadBundle() returns (r: Result<Saved>)
      modifies vault`faults
      ensures r.Ok? ==> r.value == Stored(vault.saved) && vault.faults == old(vault.faults)
      ensures r.Ok? && vault.saved == None ==> r.value == Saved("", None, "", None, 0, [], "", "", [])
      ensures r.Err? ==> vault.faults > old(vault.faults)
    {
      var loaded := vault.Load();
      return match loaded case Err => Err case Ok(None) => Ok(Nothing()) case Ok(Some(s)) => Ok(s);
    }

    /**
     After a login attempt of these calls, a known total left room: the platform counts at most limit
     minus margin sessions.
     */
    ghost predicate LeftRoom(p: seq<Call>)
      reads guard, guard.manager
    {
      |p| == 2 && p[1].Login? && p[0].Guard? && p[0].known.Some? ==> |guard.manager.online| <= Threshold()
    }

    method Answered() returns (a: Answer) {
      var n: int := *;
      return match n case 0 => Accepted case 1 => Rejected case _ => Down;
    }

    /** The stored parent token is shown to the platform. */
    method Validate() returns (a: Answer)
      modifies this`calls
      ensures calls == old(calls) + [UserSelf(a)]
    {
      a := Answered();
      calls := calls + [UserSelf(a)];
    }

    /** The refresh request; an accepted one hands out a parent session. */
    method AskRefresh() returns (a: Answer, session: Issue)
      modifies this`calls, this`issued
      ensures calls == old(calls) + [Refresh(a)]
      ensures issued == old(issued) + if a.Accepted? then [session] else []
    {
      a := Answered();
      session := *;
      calls := calls + [Refresh(a)];
      issued := issued + if a.Accepted? then [session] else [];
    }

    /** The login request: accepted, it adds a session; without an answer it may have. */
    method AskLogin() returns (a: Answer, session: Issue)
      modifies this`calls, this`issued, guard.manager`online
      ensures calls == old(calls) + [Login(a)]
      ensures issued == old(issued) + if a.Accepted? then [session] else []
      ensures |guard.manager.online| <= |old(guard.manager.online)| + 1
      ensures a.Accepted? ==> |guard.manager.online| == |old(guard.manager.online)| + 1
      ensures a.Rejected? ==> guard.manager.online == old(guard.manager.online)
    {
      a := Answered();
      session := *;
      var listed: Live, created: bool := *, *;
      if a.Accepted? || (a.Down? && created) {
        guard.manager.online := guard.manager.online + [listed];
      }
      calls := calls + [Login(a)];
      issued := issued + if a.Accepted? then [session] else [];
    }

    /** Takes over a new parent session; the lottery token of the old one goes. */
    method PersistParentSession(bundle: Bundle, user: int, token: Token, until: Option<int>, jar: seq<string>)
        returns (ok: bool)
      requires Valid() && Issue(user, token, until) in issued
      modifies this`clock, this`troubles, bundle, vault
      ensures Valid() && Faults() >= old(Faults()) && clock >= old(clock)
      ensures ok ==> vault.saved == Some(bundle.Image()) && token != "" && user > 0
      ensures ok ==> bundle.Image() == NewParent(old(bundle.Image()), user, token, until, jar, bundle.managed)
      ensures ok ==> var sid := guard.manager.sidOf(token);
                     Recorded(old(bundle.managed), sid, clock, bundle.managed)
      ensures !ok ==> vault.saved == old(vault.saved) && Faults() > old(Faults())
    {
      if user <= 0 || token == "" {
        troubles := troubles + 1;
        return false;
      }
      bundle.user, bundle.parent, bundle.parentUntil := user, token, until;
      bundle.lottery, bundle.lotteryUntil := "", None;
      bundle.cookies := jar;
      var now := CurrentTime();
      bundle.managed := Ledger.Track(bundle.managed, guard.manager.sidOf(token), now);
      ok := vault.Save(bundle.Image());
    }

    /** One refresh with the saved cookie. */
    method RefreshParent(bundle: Bundle) returns (r: ParentResult, ghost made: seq<Call>)
      requires Valid()
      modifies this`clock, this`calls, this`issued, this`troubles, bundle, vault
      ensures Valid() && Faults() >= old(Faults()) && clock >= old(clock) && calls == old(calls) + made && |made| == 1
      ensures made[0].Refresh? && old(issued) <= issued
      ensures r.Got? ==> issued == old(issued) + [Issue(bundle.user, bundle.parent, bundle.parentUntil)]
      ensures r.Got? ==>
                made[0].answer.Accepted? && vault.saved == Some(bundle.Image()) && r.token == bundle.parent != ""
                && bundle.lottery == ""
      ensures r.Lost? ==>
                vault.saved == old(vault.saved) && Explained(r.error, false, Nothing(), made, Faults() > old(Faults()))
    {
      var a, session := AskRefresh();
      made := [Refresh(a)];
      match a {
        case Rejected =>
          return Lost(ReauthRequired), made;
        case Down =>
          return Lost(Unavailable), made;
        case Accepted =>
          var jar: seq<string> := *;
          var ok := PersistParentSession(bundle, session.user, session.parent, session.until, jar);
          return if ok then Got(bundle.parent) else Lost(Unavailable), made;
      }
    }

    /** The capacity check, as the record of it. */
    method PassGuard() returns (allowed: bool, ghost gate: Call)
      requires Valid()
      modifies this`calls, vault, guard.manager`troubles, guard.manager`talk, guard.manager`online
      ensures Valid() && Faults() >= old(Faults()) && calls == old(calls) + [gate]
      ensures GuardOk(gate, Threshold()) && gate.allowed == allowed && gate.ledger == Stored(vault.saved).managed
      ensures allowed && gate.known.Some? ==> |guard.manager.online| == gate.known.value
      ensures SameSession(old(vault.saved), vault.saved)
    {
      ghost var seen, first, cleanup, second;
      allowed, seen, first, cleanup, second := guard.BeforeLogin();
      gate := Guard(allowed, if seen == [] then None else Some(Last(seen).total), Stored(vault.saved).managed);
      calls := calls + [gate];
    }

    /** The login request and the new parent session. */
    method Submit(bundle: Bundle) returns (r: ParentResult, ghost made: seq<Call>)
      requires Valid()
      modifies this`clock, this`calls, this`issued, this`troubles, bundle, vault, guard.manager`online
      ensures Valid() && Faults() >= old(Faults()) && clock >= old(clock)
      ensures calls == old(calls) + made && |made| == 1 && made[0].Login? && old(issued) <= issued
      ensures r.Got? ==> issued == old(issued) + [Issue(bundle.user, bundle.parent, bundle.parentUntil)]
      ensures |guard.manager.online| <= |old(guard.manager.online)| + 1
      ensures r.Got? ==> made[0].answer.Accepted? && vault.saved == Some(bundle.Image())
      ensures r.Got? ==> r.token == bundle.parent != "" && bundle.lottery == ""
      ensures r.Got? ==> bundle.login == old(bundle.login) && bundle.password == old(bundle.password)
      ensures r.Got? ==> Recorded(old(bundle.managed), guard.manager.sidOf(r.token), clock, bundle.managed)
      ensures r.Lost? ==> vault.saved == old(vault.saved)
      ensures r.Lost? ==> Explained(r.error, false, Nothing(), made, Faults() > old(Faults()))
    {
      var a, session := AskLogin();
      made := [Login(a)];
      match a {
        case Rejected =>
          return Lost(ReauthRequired), made;
        case Down =>
          return Lost(Unavailable), made;
        case Accepted =>
          var jar: seq<string> := *;
          var ok := PersistParentSession(bundle, session.user, session.parent, session.until, jar);
          return if ok then Got(bundle.parent) else Lost(Unavailable), made;
      }
    }

    /** The guard may have changed the ledger: start over from the vault, with the credentials at hand. */
    method Reload(bundle: Bundle)
      requires Valid()
      modifies bundle, vault`faults
      ensures vault.faults >= old(vault.faults)
      ensures bundle.login == old(bundle.login) && bundle.password == old(bundle.password)
      ensures vault.faults == old(vault.faults) ==> bundle.managed == Stored(vault.saved).managed
    {
      var reloaded := LoadBundle();
      if reloaded.Ok? {
        bundle.Assign(reloaded.value.(login := bundle.login, password := bundle.password));
      }
    }

    /** The only path that uses the account's credentials. */
    method ExplicitLogin(bundle: Bundle) returns (r: ParentResult, ghost made: seq<Call>)
      requires Valid()
      modifies this`clock, this`calls, this`issued, this`troubles, bundle, vault, guard.manager`troubles
      modifies guard.manager`talk, guard.manager`online
      ensures Valid() && Faults() >= old(Faults()) && clock >= old(clock)
      ensures calls == old(calls) + made && ParentCalls(true, Threshold(), made)
      ensures r.Got? ==> made != [] && Last(made) == Login(Accepted) && vault.saved == Some(bundle.Image())
      ensures r.Got? ==> Newest(bundle.Image(), issued)
      ensures r.Got? ==> r.token == bundle.parent != "" && bundle.lottery == ""
      ensures r.Got? ==> bundle.login == old(bundle.login) && bundle.password == old(bundle.password)
      // what the guard cleaned out of the ledger stays out
      ensures r.Got? && Faults() == old(Faults()) ==>
                made[0].Guard? && Recorded(made[0].ledger, guard.manager.sidOf(r.token), clock, bundle.managed)
      ensures LeftRoom(made)
      ensures r.Lost? ==> SameSession(old(vault.saved), vault.saved)
      ensures r.Lost? ==> Explained(r.error, true, old(bundle.Image()), made, Faults() > old(Faults()))
    {
      if bundle.login == "" || bundle.password == "" {
        return Lost(ReauthRequired), [];
      }
      var allowed;
      ghost var gate;
      allowed, gate := PassGuard();
      if !allowed {
        return Lost(CapacityProtected), [gate];
      }
      Reload(bundle);
      r, made := Submit(bundle);
      made := [gate] + made;
    }

    /** A parent session for the bundle, under the auth lock. */
    method ParentSessionLocked(bundle: Bundle, intent: Intent) returns (r: ParentResult, ghost made: seq<Call>)
      requires Valid() && (bundle.parent != "" ==> Genuine(bundle.Image(), issued, grants))
      modifies this`clock, this`calls, this`issued, this`troubles, bundle, vault, guard.manager`troubles
      modifies guard.manager`talk, guard.manager`online
      ensures Valid() && Faults() >= old(Faults()) && clock >= old(clock) && calls == old(calls) + made
      ensures ParentCalls(intent.ExplicitReauthenticate?, Threshold(), made)
      ensures made != [] && !intent.ExplicitReauthenticate? ==>
                if old(bundle.parent) == "" then made[0].Refresh? else made[0].UserSelf?
      ensures r.Got? ==> r.token == bundle.parent != "" && Genuine(bundle.Image(), issued, grants)
      ensures r.Got? && made == [] ==>
                bundle.Image() == old(bundle.Image()) && vault.saved == old(vault.saved)
                && Lasting(bundle.Image(), ParentSession, old(clock))
      ensures Lasting(old(bundle.Image()), ParentSession, clock) ==> r.Got? && made == []
      ensures r.Got? && made != [] ==> Refusal(Last(made)) == None && vault.saved == Some(bundle.Image())
      ensures r.Got? && made != [] && !Last(made).UserSelf? ==> Newest(bundle.Image(), issued)
      ensures r.Got? && made != [] && made[0] == UserSelf(Accepted) ==>
                bundle.Image() == old(bundle.Image()).(cookies := bundle.cookies)
      ensures r.Lost? ==> SameSession(old(vault.saved), vault.saved)
      ensures r.Lost? ==>
                Explained(r.error, intent.ExplicitReauthenticate?, old(bundle.Image()), made, Faults() > old(Faults()))
      ensures LeftRoom(made)
    {
      var now := CurrentTime();
      if Usable(bundle.parent, bundle.parentUntil, now) {
        return Got(bundle.parent), [];
      }
      var client := Attempt();
      if !client {
        return Lost(Unavailable), [];
      }
      if intent.ExplicitReauthenticate? {
        r, made := ExplicitLogin(bundle);
        return;
      }
      r, made := BackgroundParent(bundle);
    }

    /** Without the user: validate the stored token, then refresh. */
    method BackgroundParent(bundle: Bundle) returns (r: ParentResult, ghost made: seq<Call>)
      requires Valid() && (bundle.parent != "" ==> Genuine(bundle.Image(), issued, grants))
      modifies this`clock, this`calls, this`issued, this`troubles, bundle, vault
      ensures Valid() && Faults() >= old(Faults()) && clock >= old(clock)
      ensures calls == old(calls) + made && ParentCalls(false, Threshold(), made) && made != []
      ensures if old(bundle.parent) == "" then made[0].Refresh? else made[0].UserSelf?
      ensures r.Got? ==> r.token == bundle.parent != "" && Genuine(bundle.Image(), issued, grants)
      ensures r.Got? ==> Refusal(Last(made)) == None && vault.saved == Some(bundle.Image())
      ensures r.Got? && !Last(made).UserSelf? ==> Newest(bundle.Image(), issued)
      ensures r.Got? && made[0] == UserSelf(Accepted) ==>
                bundle.Image() == old(bundle.Image()).(cookies := bundle.cookies)
      ensures r.Lost? ==> vault.saved == old(vault.saved)
      ensures r.Lost? ==> Explained(r.error, false, Nothing(), made, Faults() > old(Faults()))
    {
      ghost var asked: seq<Call> := [];
      if bundle.parent != "" {
        var a := Validate();
        asked := [UserSelf(a)];
        if a.Accepted? {
          bundle.cookies := *;
          var ok := vault.Save(bundle.Image());
          return if ok then Got(bundle.parent) else Lost(Unavailable), asked;
        }
        if a.Down? {
          return Lost(Unavailable), asked;
        }
      }
      bundle.parent, bundle.parentUntil := "", None;
      r, made := RefreshParent(bundle);
      made := asked + made;
    }

    method PersistLottery(bundle: Bundle, token: Token, until: Option<int>, jar: seq<string>) returns (ok: bool)
      requires Valid() && Grant(token, until, bundle.parent, bundle.user) in grants
      requires Handed(bundle.Image(), issued)
      modifies this`troubles, bundle, vault
      ensures Valid() && Faults() >= old(Faults()) && clock >= old(clock)
      ensures ok ==> vault.saved == Some(bundle.Image()) && token != ""
      ensures ok ==> bundle.Image() == old(bundle.Image()).(lottery := token, lotteryUntil := until, cookies := jar)
      ensures !ok ==> vault.saved == old(vault.saved) && Faults() > old(Faults())
    {
      if token == "" {
        troubles := troubles + 1;
        return false;
      }
      bundle.lottery, bundle.lotteryUntil, bundle.cookies := token, until, jar;
      ok := vault.Save(bundle.Image());
    }

    /** One bridge request; an accepted one issues a lottery token for that parent and user. */
    method Bridge(parent: Token, user: int)
        returns (a: Answer, token: Token, until: Option<int>, ghost made: seq<Call>)
      modifies this`calls, this`grants
      ensures made == [BridgeTo(parent, user, a)] && calls == old(calls) + made
      ensures grants == old(grants) + if a.Accepted? then {Grant(token, until, parent, user)} else {}
    {
      a := Answered();
      token, until := *, *;
      made := [BridgeTo(parent, user, a)];
      calls := calls + made;
      if a.Accepted? {
        grants := grants + {Grant(token, until, parent, user)};
      }
    }

    /** Exchanges the parent session for a lottery session; a rejected bridge refreshes once and bridges once more. */
    method BridgeLottery(bundle: Bundle, parentToken: Token) returns (r: Option<AuthError>, ghost made: seq<Call>)
      requires Valid() && parentToken == bundle.parent && Handed(bundle.Image(), issued)
      modifies this`clock, this`calls, this`issued, this`grants, this`troubles, bundle, vault
      ensures Valid() && Faults() >= old(Faults()) && clock >= old(clock) && calls == old(calls) + made
      ensures BridgeCalls(made) && grants >= old(grants)
      ensures r.None? ==> made != [] && Last(made) == BridgeTo(bundle.parent, bundle.user, Accepted)
      ensures r.None? ==> vault.saved == Some(bundle.Image()) && bundle.lottery != ""
      ensures r.Some? ==> Explained(r.value, false, Nothing(), made, Faults() > old(Faults()))
    {
      var client := Attempt();
      if !client {
        return Some(Unavailable), [];
      }
      var failed, a;
      failed, a, made := BridgeOnce(bundle, parentToken);
      if !a.Rejected? {
        return failed, made;
      }
      var refreshed;
      ghost var more;
      refreshed, more := RefreshParent(bundle);
      made := made + more;
      if refreshed.Lost? {
        return Some(refreshed.error), made;
      }
      failed, a, more := BridgeOnce(bundle, refreshed.token);
      return failed, made + more;
    }

    /** One bridge request from the bundle's parent session, and its token stored. */
    method BridgeOnce(bundle: Bundle, parent: Token) returns (r: Option<AuthError>, a: Answer, ghost made: seq<Call>)
      requires Valid() && parent == bundle.parent && Handed(bundle.Image(), issued)
      modifies this`calls, this`grants, this`troubles, bundle, vault
      ensures Valid() && Faults() >= old(Faults()) && grants >= old(grants)
      ensures made == [BridgeTo(parent, old(bundle.user), a)] && calls == old(calls) + made
      ensures r.None? ==> bundle.parent == parent && bundle.user == old(bundle.user)
      ensures r.None? ==> a.Accepted? && vault.saved == Some(bundle.Image()) && bundle.lottery != ""
      ensures r.Some? ==>
                vault.saved == old(vault.saved) && Explained(r.value, false, Nothing(), made, Faults() > old(Faults()))
    {
      var token, until;
      a, token, until, made := Bridge(parent, bundle.user);
      match a {
        case Rejected =>
          return Some(ReauthRequired), a, made;
        case Down =>
          return Some(Unavailable), a, made;
        case Accepted =>
          var jar: seq<string> := *;
          var ok := PersistLottery(bundle, token, until, jar);
          return if ok then None else Some(Unavailable), a, made;
      }
    }

    /** The bridge, ending a broker call. */
    method BridgeSession(bundle: Bundle, parentToken: Token) returns (r: AcquireResult, ghost made: seq<Call>)
      requires Valid() && parentToken == bundle.parent && Handed(bundle.Image(), issued)
      modifies this`clock, this`calls, this`issued, this`grants, this`troubles, bundle, vault
      ensures Valid() && Faults() >= old(Faults()) && clock >= old(clock) && calls == old(calls) + made
      ensures BridgeCalls(made)
      ensures r.Session? ==> r.token != "" && vault.saved.Some? && r == SessionOf(vault.saved.value, LotterySession)
      ensures r.Session? ==>
                made != [] && Last(made) == BridgeTo(vault.saved.value.parent, vault.saved.value.user, Accepted)
      ensures r.Refused? ==> Explained(r.error, false, Nothing(), made, Faults() > old(Faults()))
    {
      var failed;
      failed, made := BridgeLottery(bundle, parentToken);
      return if failed.Some? then Refused(failed.value) else Session(bundle.lottery, bundle.cookies, bundle.user), made;
    }

    /** The session in the vault when it is usable for a while longer. */
    method Reuse(s: Saved, kind: SessionKind) returns (r: Option<AcquireResult>)
      modifies this`clock
      ensures clock >= old(clock)
      ensures r == if Lasting(s, kind, clock) then Some(SessionOf(s, kind)) else None
    {
      var now := CurrentTime();
      return if Usable(TokenOf(s, kind), UntilOf(s, kind), now) then Some(SessionOf(s, kind)) else None;
    }

    /** Waiting for the auth lock: other callers may meanwhile store any session they got from the platform. */
    method AwaitLock() returns (ghost held: Saved)
      requires Valid()
      modifies this`clock, this`issued, this`grants, vault`saved
      ensures Valid() && old(issued) <= issued && grants >= old(grants) && clock >= old(clock)
      ensures held == Stored(vault.saved)
    {
      if * {
        var s: Saved := *;
        issued := issued + [Issue(s.user, s.parent, s.parentUntil)];
        grants := grants + {Grant(s.lottery, s.lotteryUntil, s.parent, s.user)};
        vault.saved := Some(s);
      }
      var _ := CurrentTime();
      held := Stored(vault.saved);
    }

    /** A session of the requested kind: reused as it is, or recovered under the auth lock. */
    method Acquire(intent: Intent, kind: SessionKind)
        returns (r: AcquireResult, ghost p: seq<Call>, ghost b: seq<Call>, ghost held: Saved)
      requires Valid()
      modifies this`clock, this`calls, this`issued, this`grants, this`troubles, vault, guard.manager`troubles
      modifies guard.manager`talk, guard.manager`online
      ensures Valid() && Faults() >= old(Faults()) && clock >= old(clock)
      ensures calls == old(calls) + p + b && LadderCalls(intent.ExplicitReauthenticate?, Threshold(), kind, p, b)
      ensures r.Session? ==> r.token != "" && vault.saved.Some? && r == SessionOf(vault.saved.value, kind)
      ensures r.Session? && p == b == [] ==>
                Stored(vault.saved) == held && Lasting(held, kind, old(clock))
      ensures var s := Stored(old(vault.saved));
              Faults() == old(Faults()) && Lasting(s, kind, clock) ==>
                p == b == [] && r.Session?
      ensures Faults() == old(Faults()) && Lasting(held, kind, clock) ==> p == b == [] && r.Session?
      // so an undisturbed call asks the platform, or refuses, once the token is about to end
      ensures !Lasting(held, kind, old(clock)) ==> p + b != [] || r.Refused?
      ensures r.Session? && kind.ParentSession? && p != [] && !Last(p).UserSelf? ==> Newest(vault.saved.value, issued)
      ensures r.Refused? ==>
                Explained(r.error, intent.ExplicitReauthenticate?, held, Final(p, b), Faults() > old(Faults()))
      ensures LeftRoom(p)
    {
      p, b, held := [], [], Stored(vault.saved);
      var first := LoadBundle();
      if first.Err? {
        return Refused(Unavailable), [], [], held;
      }
      var reused := Reuse(first.value, kind);
      if reused.Some? {
        return reused.value, [], [], held;
      }
      held := AwaitLock();
      var second := LoadBundle();
      if second.Err? {
        return Refused(Unavailable), [], [], held;
      }
      reused := Reuse(second.value, kind);
      if reused.Some? {
        return reused.value, [], [], held;
      }
      var bundle := new Bundle(second.value);
      r, p, b := Recover(bundle, intent, kind);
    }

    /** The recovery ladder from the loaded bundle. */
    method Recover(bundle: Bundle, intent: Intent, kind: SessionKind)
        returns (r: AcquireResult, ghost p: seq<Call>, ghost b: seq<Call>)
      requires Valid() && bundle.Image() == Stored(vault.saved)
      modifies this`clock, this`calls, this`issued, this`grants, this`troubles, bundle, vault, guard.manager`troubles
      modifies guard.manager`talk, guard.manager`online
      ensures Valid() && Faults() >= old(Faults()) && clock >= old(clock)
      ensures calls == old(calls) + p + b && LadderCalls(intent.ExplicitReauthenticate?, Threshold(), kind, p, b)
      ensures r.Session? ==> r.token != "" && vault.saved.Some? && r == SessionOf(vault.saved.value, kind)
      ensures r.Session? && p == b == [] ==>
                kind.ParentSession? && vault.saved == old(vault.saved)
                && Lasting(vault.saved.value, ParentSession, old(clock))
      ensures r.Session? && kind.ParentSession? && p != [] && !Last(p).UserSelf? ==> Newest(vault.saved.value, issued)
      ensures r.Refused? ==>
                Explained(r.error, intent.ExplicitReauthenticate?, old(bundle.Image()), Final(p, b),
                          Faults() > old(Faults()))
      ensures LeftRoom(p)
    {
      b := [];
      var parent;
      parent, p := ParentSessionLocked(bundle, intent);
      if parent.Lost? {
        return Refused(parent.error), p, [];
      }
      if kind.ParentSession? {
        assert vault.saved.Some? && bundle.Image() == vault.saved.value;
        return Session(parent.token, bundle.cookies, bundle.user), p, [];
      }
      r, b := BridgeSession(bundle, parent.token);
    }

    /** Replaces a parent token the platform has rejected: at most one refresh, never a login. */
    method RenewParent(rejected: Token) returns (r: AcquireResult, ghost made: seq<Call>, ghost held: Saved)
      requires Valid()
      modifies this`clock, this`calls, this`issued, this`grants, this`troubles, vault, guard.manager`troubles
      modifies guard.manager`talk, guard.manager`online
      ensures Valid() && Faults() >= old(Faults()) && clock >= old(clock) && calls == old(calls) + made
      ensures made == [] || (|made| == 1 && made[0].Refresh?)
      ensures r.Session? ==> r.token != "" && vault.saved.Some? && r == SessionOf(vault.saved.value, ParentSession)
      ensures r.Session? && made == [] ==>
                r.token != rejected && Stored(vault.saved) == held && Lasting(held, ParentSession, old(clock))
      ensures Faults() == old(Faults()) && held.parent != rejected && Lasting(held, ParentSession, clock) ==>
                made == [] && r.Session?
      ensures r.Session? && made != [] ==> Newest(vault.saved.value, issued)
      ensures r.Refused? ==> Explained(r.error, false, Nothing(), made, Faults() > old(Faults()))
    {
      made := [];
      held := AwaitLock();
      var loaded := LoadBundle();
      if loaded.Err? {
        return Refused(Unavailable), [], held;
      }
      var reused := Reuse(loaded.value, ParentSession);
      if loaded.value.parent != rejected && reused.Some? {
        return reused.value, [], held;
      }
      var bundle := new Bundle(loaded.value.(parent := "", parentUntil := None));
      var parent;
      parent, made := ParentSessionLocked(bundle, ReadOnly);
      if parent.Lost? {
        return Refused(parent.error), made, held;
      }
      return Session(parent.token, bundle.cookies, bundle.user), made, held;
    }

    /** Replaces a lottery token the platform has rejected, from the current parent session when it is usable. */
    method RenewLottery(rejected: Token)
        returns (r: AcquireResult, ghost p: seq<Call>, ghost b: seq<Call>, ghost held: Saved)
      requires Valid()
      modifies this`clock, this`calls, this`issued, this`grants, this`troubles, vault, guard.manager`troubles
      modifies guard.manager`talk, guard.manager`online
      ensures Valid() && Faults() >= old(Faults()) && clock >= old(clock)
      ensures calls == old(calls) + p + b && LadderCalls(false, Threshold(), LotterySession, p, b)
      ensures r.Session? ==> r.token != "" && vault.saved.Some? && r == SessionOf(vault.saved.value, LotterySession)
      ensures r.Session? && p == b == [] ==>
                r.token != rejected && Stored(vault.saved) == held && Lasting(held, LotterySession, old(clock))
      ensures Faults() == old(Faults()) && held.lottery != rejected && Lasting(held, LotterySession, clock) ==>
                p == b == [] && r.Session?
      ensures r.Session? && !(p == b == []) ==>
                b != [] && Last(b) == BridgeTo(vault.saved.value.parent, vault.saved.value.user, Accepted)
      ensures r.Refused? ==> Explained(r.error, false, Nothing(), Final(p, b), Faults() > old(Faults()))
    {
      p, b := [], [];
      held := AwaitLock();
      var loaded := LoadBundle();
      if loaded.Err? {
        return Refused(Unavailable), [], [], held;
      }
      var reused := Reuse(loaded.value, LotterySession);
      if loaded.value.lottery != rejected && reused.Some? {
        return reused.value, [], [], held;
      }
      var bundle := new Bundle(loaded.value.(lottery := "", lotteryUntil := None));
      r, p, b := Rebridge(bundle);
    }

    /** A new lottery token for a bundle without one. */
    method Rebridge(bundle: Bundle) returns (r: AcquireResult, ghost p: seq<Call>, ghost b: seq<Call>)
      requires Valid() && bundle.lottery == "" && Handed(bundle.Image(), issued)
      modifies this`clock, this`calls, this`issued, this`grants, this`troubles, bundle, vault, guard.manager`troubles
      modifies guard.manager`talk, guard.manager`online
      ensures Valid() && Faults() >= old(Faults()) && clock >= old(clock)
      ensures calls == old(calls) + p + b && LadderCalls(false, Threshold(), LotterySession, p, b)
      ensures r.Session? ==> r.token != "" && vault.saved.Some? && r == SessionOf(vault.saved.value, LotterySession)
      ensures r.Session? ==>
                b != [] && Last(b) == BridgeTo(vault.saved.value.parent, vault.saved.value.user, Accepted)
      ensures r.Refused? ==> Explained(r.error, false, Nothing(), Final(p, b), Faults() > old(Faults()))
    {
      b := [];
      var parent;
      parent, p := ParentForBridge(bundle);
      if parent.Lost? {
        return Refused(parent.error), p, [];
      }
      r, b := BridgeSession(bundle, parent.token);
    }

    /** The stored parent token when it is usable, else one from the ladder. */
    method ParentForBridge(bundle: Bundle) returns (r: ParentResult, ghost made: seq<Call>)
      requires Valid() && bundle.lottery == "" && Handed(bundle.Image(), issued)
      modifies this`clock, this`calls, this`issued, this`troubles, bundle, vault, guard.manager`troubles
      modifies guard.manager`talk, guard.manager`online
      ensures Valid() && Faults() >= old(Faults()) && clock >= old(clock) && calls == old(calls) + made
      ensures ParentCalls(false, Threshold(), made)
      ensures r.Got? ==> r.token == bundle.parent && Handed(bundle.Image(), issued)
      ensures r.Got? && made == [] ==> Lasting(bundle.Image(), ParentSession, old(clock))
      ensures Lasting(old(bundle.Image()), ParentSession, clock) ==> r.Got? && made == []
      ensures r.Got? && made != [] ==> Refusal(Last(made)) == None
      ensures r.Lost? ==> Explained(r.error, false, Nothing(), made, Faults() > old(Faults()))
    {
      var now := CurrentTime();
      if Usable(bundle.parent, bundle.parentUntil, now) {
        return Got(bundle.parent), [];
      }
      r, made := ParentSessionLocked(bundle, ReadOnly);
    }
  }

  // ----- what the shapes bound -----

  datatype RequestKind = Validations | Refreshes | Logins | Bridges

  predicate Is(c: Call, what: RequestKind) {
    match what
    case Validations => c.UserSelf?
    case Refreshes => c.Refresh?
    case Logins => c.Login?
    case Bridges => c.BridgeTo?
  }

  function Tally(calls: seq<Call>, what: RequestKind): nat {
    if calls == [] then 0 else Tally(calls[..|calls| - 1], what) + if Is(Last(calls), what) then 1 else 0
  }

  lemma {:induction false} TallyConcat(x: seq<Call>, y: seq<Call>, what: RequestKind)
    ensures Tally(x + y, what) == Tally(x, what) + Tally(y, what)
  {
    if y == [] {
      assert x + y == x;
    } else {
      TallyConcat(x, y[..|y| - 1], what);
      assert (x + y)[..|x + y| - 1] == x + y[..|y| - 1];
    }
  }

  lemma {:induction false} TallyShort(calls: seq<Call>, what: RequestKind)
    requires |calls| <= 3
    ensures Tally(calls, what) ==
            (if |calls| > 0 && Is(calls[0], what) then 1 else 0) +
            (if |calls| > 1 && Is(calls[1], what) then 1 else 0) +
            (if |calls| > 2 && Is(calls[2], what) then 1 else 0)
  {
    if |calls| > 0 {
      TallyShort(calls[..|calls| - 1], what);
    }
  }

  /** The most requests of a kind one broker call makes. */
  function Bound(explicit: bool, kind: SessionKind, what: RequestKind): nat {
    match what
    case Validations => if explicit then 0 else 1
    case Logins => if explicit then 1 else 0
    case Refreshes => (if explicit then 0 else 1) + if kind.LotterySession? then 1 else 0
    case Bridges => if kind.LotterySession? then 2 else 0
  }

  /** Logins happen once at most and only on an explicit request, validation once, refreshes and bridges twice. */
  lemma CallBounds(explicit: bool, threshold: int, kind: SessionKind, p: seq<Call>, b: seq<Call>, what: RequestKind)
    requires LadderCalls(explicit, threshold, kind, p, b)
    ensures Tally(p + b, what) <= Bound(explicit, kind, what)
  {
    TallyConcat(p, b, what);
    TallyShort(p, what);
    TallyShort(b, what);
  }

  /**
   A login follows an approving check, and when that check knew a total, one more session stays within
   limit minus margin.
   */
  lemma LoginIsGuarded(explicit: bool, threshold: int, kind: SessionKind, p: seq<Call>, b: seq<Call>, i: nat)
    requires LadderCalls(explicit, threshold, kind, p, b) && i < |p + b| && (p + b)[i].Login?
    ensures i == 1 && |p| == 2 && p[0].Guard? && p[0].allowed
    ensures p[0].known.Some? ==> p[0].known.value + 1 <= threshold
  {
    BridgesNeverLogIn(b);
  }

  lemma BridgesNeverLogIn(b: seq<Call>)
    requires BridgeCalls(b)
    ensures forall j :: 0 <= j < |b| ==> !b[j].Login?
  {}

  function SessionOf(s: Saved, kind: SessionKind): AcquireResult {
    Session(TokenOf(s, kind), s.cookies, s.user)
  }

  function Stored(saved: Option<Saved>): Saved {
    if saved.Some? then saved.value else Nothing()
  }
}
