/**
 * The session arithmetic of the client: the refresh deadline computed from an
 * authentication reply, the choice between the "authenticated" and "refreshed"
 * outcomes, and the refresh monitor's decision. Time is integer seconds.
 */
module Session {
  import opened Wrappers
  import opened Messages

  /** Lifetime used on the test environment, whatever the reply declares. */
  const TESTNET_LIFETIME: int := 300
  /** Seconds subtracted from the declared lifetime on the production environment. */
  const REFRESH_MARGIN: int := 240
  /** Seconds the refresh monitor sleeps between two checks. */
  const REFRESH_POLL_INTERVAL: int := 150

  /** The instant after which the session is refreshed, for a reply received at `now`. */
  function RefreshDeadline(now: int, testnet: bool, expiresIn: int): (r: int)
    ensures testnet ==> r - now == TESTNET_LIFETIME
    ensures !testnet ==> r < now + expiresIn && now + expiresIn - r == REFRESH_MARGIN
  {
    if testnet then now + TESTNET_LIFETIME else now + expiresIn - REFRESH_MARGIN
  }

  /** A declared lifetime of 3600 s gives a deadline 3360 s ahead; the test environment always 300 s. */
  lemma RefreshDeadlineExamples(now: int, expiresIn: int)
    ensures RefreshDeadline(now, false, 3600) == now + 3360
    ensures RefreshDeadline(now, true, expiresIn) == now + 300
  {
  }

  /** The log line chosen on an authentication reply. */
  datatype AuthStatus = Authenticated | Refreshed

  /** "Authenticated" exactly when no refresh token was stored before the reply. */
  function AuthStatusOf(previousToken: Option<string>): (r: AuthStatus)
    ensures r == Authenticated <==> previousToken == None
  {
    if previousToken.None? then Authenticated else Refreshed
  }

  /** The refresh monitor fires only once a deadline is set and strictly passed. */
  function ShouldRefresh(deadline: Option<int>, now: int): (r: bool)
    ensures r ==> deadline.Some?
    ensures deadline.Some? ==> (r <==> deadline.value < now)
  {
    match deadline
    case None => false
    case Some(d) => now > d
  }

  /** The instant of the k-th check of a refresh monitor started at `start`. */
  function PollTime(start: int, k: nat): int {
    start + k * REFRESH_POLL_INTERVAL
  }

  /** The index of the first check that finds `deadline` passed. */
  function FirstFiringPoll(start: int, deadline: int): nat {
    if deadline < start then 0 else (deadline - start) / REFRESH_POLL_INTERVAL + 1
  }

  /**
   * Check number `FirstFiringPoll` is the first one that fires, and it comes at
   * most one polling interval after the deadline.
   */
  lemma FirstFiringPollIsFirst(start: int, deadline: int)
    ensures ShouldRefresh(Some(deadline), PollTime(start, FirstFiringPoll(start, deadline)))
    ensures forall j: nat | j < FirstFiringPoll(start, deadline) :: !ShouldRefresh(Some(deadline), PollTime(start, j))
    ensures start <= deadline ==> PollTime(start, FirstFiringPoll(start, deadline)) <= deadline + REFRESH_POLL_INTERVAL
  {
    var k := FirstFiringPoll(start, deadline);
    if start <= deadline {
      var d := deadline - start;
      var q := d / REFRESH_POLL_INTERVAL;
      assert d == q * REFRESH_POLL_INTERVAL + d % REFRESH_POLL_INTERVAL;
      assert PollTime(start, k) == start + q * REFRESH_POLL_INTERVAL + REFRESH_POLL_INTERVAL;
    }
  }

  /**
   * On the test environment the declared lifetime is ignored: the deadline
   * comes before the declared expiry exactly when that lifetime exceeds 300 s,
   * and otherwise it falls at or after the expiry.
   */
  lemma TestnetDeadlineVersusExpiry(now: int, expiresIn: int)
    ensures RefreshDeadline(now, true, expiresIn) < now + expiresIn <==> expiresIn > TESTNET_LIFETIME
  {
  }

  /**
   * On the production environment, with a declared lifetime of at least the
   * margin (240 s), the new deadline is not before the reply. Under that
   * deadline no check before the computed one fires, and the computed one
   * comes after the reply and, since the margin exceeds the polling interval
   * (150 s), before the declared lifetime of the token runs out. Checks made
   * before the reply under an earlier deadline, as for a refresh reply, are
   * not covered.
   */
  lemma RefreshPrecedesExpiry(start: int, now: int, expiresIn: int)
    requires start <= now && expiresIn >= REFRESH_MARGIN
    ensures var d := RefreshDeadline(now, false, expiresIn);
      && now <= d
      && (forall j: nat | j < FirstFiringPoll(start, d) :: !ShouldRefresh(Some(d), PollTime(start, j)))
      && now < PollTime(start, FirstFiringPoll(start, d)) < now + expiresIn
  {
    FirstFiringPollIsFirst(start, RefreshDeadline(now, false, expiresIn));
  }

  /**
   * With a declared lifetime shorter than the polling interval the refresh can
   * come after expiry: a monitor started at 0 checks at 900 s, before a reply
   * at 1000 s declaring a lifetime of 0 s, so it has no deadline yet; its next
   * check, at 1050 s, is the first refresh, 50 s after the token expired.
   */
  lemma ShortLifetimeRefreshLate()
    ensures var d := RefreshDeadline(1000, false, 0);
      && PollTime(0, 6) == 900 < 1000
      && PollTime(0, 7) == 1050 > 1000 + 0
      && ShouldRefresh(Some(d), PollTime(0, 7))
  {
  }

  /** The key an authentication reply lacked (a KeyError in the reader loop, fatal to the process). */
  datatype Fault = MissingRefreshToken | MissingTestnet | MissingExpiresIn

  /** The session fields after the authentication branch, and the fault that cut it short, if any. */
  datatype AuthUpdate = AuthUpdate(refreshToken: Option<string>, deadline: Option<int>, fault: Option<Fault>)

  /** An authentication reply that carries every key the branch reads. */
  predicate WellFormedAuthReply(m: Inbound) {
    m.refreshToken.Some? && m.testnet.Some? && (m.testnet.value || m.expiresIn.Some?)
  }

  /**
   * The authentication branch applied to the stored refresh token and deadline,
   * key by key in the order the branch reads them: the refresh token is
   * overwritten as soon as it is read, the deadline only once every key was found.
   */
  function ApplyAuthReply(m: Inbound, now: int, token: Option<string>, deadline: Option<int>): (r: AuthUpdate)
    ensures r.fault.None? <==> WellFormedAuthReply(m)
    ensures r.refreshToken == if m.refreshToken.Some? then m.refreshToken else token
    ensures r.fault.Some? ==> r.deadline == deadline
    ensures r.fault.None? ==> r.deadline.Some? && r.deadline.value == RefreshDeadline(now, m.testnet.value, m.expiresIn.GetOr(0))
    ensures (deadline.Some? ==> token.Some?) ==> (r.deadline.Some? ==> r.refreshToken.Some?)
  {
    match m.refreshToken
    case None => AuthUpdate(token, deadline, Some(MissingRefreshToken))
    case Some(t) =>
      match m.testnet
      case None => AuthUpdate(Some(t), deadline, Some(MissingTestnet))
      case Some(true) => AuthUpdate(Some(t), Some(now + TESTNET_LIFETIME), None)
      case Some(false) =>
        match m.expiresIn
        case None => AuthUpdate(Some(t), deadline, Some(MissingExpiresIn))
        case Some(e) => AuthUpdate(Some(t), Some(now + e - REFRESH_MARGIN), None)
  }
}
