/** The exit gate run on every authenticated request: an employee whose exit date has
    passed 18:00 is marked inactive, logged out, has the session invalidated and the
    CSRF token regenerated, and is sent to the login page with a fixed message.
    Time is whole seconds in the application's time zone; an exit date is a day number,
    day `d` starting at second `d * SecondsPerDay`. */
module ExitGate {
  import opened Wrappers

  type Day = int

  const SecondsPerDay: int := 86400
  /** 18:00:00 as seconds after midnight. */
  const CutoffTimeOfDay: int := 18 * 3600
  const RevokedMessage: string := "Your access has been revoked following your exit from the company."

  /** The employee record linked to a user; only its exit date matters here. */
  datatype EmployeeLink = EmployeeLink(dateOfExit: Option<Day>)

  datatype Response = PassThrough | RedirectToLogin(flashError: string)

  /** The instant access ends: 18:00:00 on the exit day. */
  function ExitCutoff(exitDay: Day): int {
    exitDay * SecondsPerDay + CutoffTimeOfDay
  }

  /** Access is revoked strictly after the cutoff. */
  predicate PastCutoff(now: int, exitDay: Day) {
    now > ExitCutoff(exitDay)
  }

  /** The same instant read off a calendar: a later day than the exit day, or the exit
      day itself after 18:00:00. */
  lemma PastCutoffByCalendar(now: int, exitDay: Day)
    ensures PastCutoff(now, exitDay) <==>
      now / SecondsPerDay > exitDay ||
      (now / SecondsPerDay == exitDay && now % SecondsPerDay > CutoffTimeOfDay)
  {
    var day, second := now / SecondsPerDay, now % SecondsPerDay;
    assert now == day * SecondsPerDay + second;
    if day > exitDay {
      assert day * SecondsPerDay >= (exitDay + 1) * SecondsPerDay;
    } else if day < exitDay {
      assert day * SecondsPerDay <= (exitDay - 1) * SecondsPerDay;
    }
  }

  /** Exactly 18:00:00 on the exit day still passes; one second later does not. */
  lemma CutoffIsStrict(exitDay: Day)
    ensures !PastCutoff(ExitCutoff(exitDay), exitDay)
    ensures PastCutoff(ExitCutoff(exitDay) + 1, exitDay)
  {
  }

  /** Once revoked, revoked at every later instant. */
  lemma PastCutoffMonotone(earlier: int, later: int, exitDay: Day)
    requires earlier <= later && PastCutoff(earlier, exitDay)
    ensures PastCutoff(later, exitDay)
  {
  }

  /** Everything the gate reads or changes: the authenticated user (whether there is one,
      their type and status), the linked employee, the session and its CSRF token. The
      number of status writes counts the `update` calls; a regenerated session id or
      token is modelled as the next number. */
  datatype GateState = GateState(
    authenticated: bool,
    userType: string,
    userStatus: string,
    employee: Option<EmployeeLink>,
    statusWrites: nat,
    sessionId: nat,
    sessionData: map<string, string>,
    csrfToken: nat)

  /** The request comes from an employee-type user whose exit date has passed its cutoff. */
  predicate ShouldRevoke(s: GateState, now: int) {
    s.authenticated && s.userType == "employee" &&
    s.employee.Some? && s.employee.value.dateOfExit.Some? &&
    PastCutoff(now, s.employee.value.dateOfExit.value)
  }

  /** The state after revocation: status inactive (written only when it was not already),
      nobody logged in, a new session holding only the flashed error, a new token. */
  function Revoked(s: GateState): (t: GateState)
    ensures t.userStatus == "inactive" && !t.authenticated
    ensures t.statusWrites == s.statusWrites + (if s.userStatus != "inactive" then 1 else 0)
    ensures t.sessionId != s.sessionId && t.csrfToken != s.csrfToken
    ensures t.sessionData == map["error" := RevokedMessage]
    ensures t.userType == s.userType && t.employee == s.employee
  {
    var afterUpdate :=
      if s.userStatus != "inactive" then s.(userStatus := "inactive", statusWrites := s.statusWrites + 1) else s;
    var afterLogout := afterUpdate.(authenticated := false);
    var afterInvalidate := afterLogout.(sessionId := afterLogout.sessionId + 1, sessionData := map[]);
    var afterRegenerate := afterInvalidate.(csrfToken := afterInvalidate.csrfToken + 1);
    afterRegenerate.(sessionData := afterRegenerate.sessionData["error" := RevokedMessage])
  }

  /** One pass of the gate over a request at `now`. */
  function Step(s: GateState, now: int): (r: (GateState, Response))
    ensures r.1.RedirectToLogin? <==> ShouldRevoke(s, now)
    ensures r.1.PassThrough? ==> r.0 == s
    ensures r.1.RedirectToLogin? ==> r.1.flashError == RevokedMessage
  {
    if ShouldRevoke(s, now) then (Revoked(s), RedirectToLogin(RevokedMessage)) else (s, PassThrough)
  }

  /** Requests without a logged-in user, from non-employee users, from employees without a
      linked record or without an exit date pass through untouched. */
  lemma PassesWithoutExitDate(s: GateState, now: int)
    requires !s.authenticated || s.userType != "employee" || s.employee.None? || s.employee.value.dateOfExit.None?
    ensures Step(s, now) == (s, PassThrough)
  {
  }

  /** Revocation logs the user out, so the very next request passes through; if the user
      gets back in, revocation fires again but writes the status no more. */
  lemma RevocationIsIdempotent(s: GateState, now: int, later: int)
    requires ShouldRevoke(s, now) && now <= later
    ensures Step(Step(s, now).0, later) == (Step(s, now).0, PassThrough)
    ensures var back := Step(s, now).0.(authenticated := true);
            Step(back, later).1 == RedirectToLogin(RevokedMessage) &&
            Step(back, later).0.statusWrites == back.statusWrites &&
            Step(back, later).0.userStatus == "inactive"
  {
    PastCutoffMonotone(now, later, s.employee.value.dateOfExit.value);
  }

  /** At most one status write over any run of revocations. */
  lemma StatusWrittenAtMostOnce(s: GateState, now: int)
    requires ShouldRevoke(s, now)
    ensures Step(s, now).0.statusWrites <= s.statusWrites + 1
    ensures s.userStatus == "inactive" ==> Step(s, now).0.statusWrites == s.statusWrites
  {
  }

  /** The middleware with its request's view of the user and the session. */
  class Gate {
    var authenticated: bool
    var userType: string
    var userStatus: string
    var employee: Option<EmployeeLink>
    var statusWrites: nat
    var sessionId: nat
    var sessionData: map<string, string>
    var csrfToken: nat

    function State(): GateState
      reads this
    {
      GateState(authenticated, userType, userStatus, employee, statusWrites, sessionId, sessionData, csrfToken)
    }

    constructor (s: GateState)
      ensures State() == s
    {
      authenticated := s.authenticated;
      userType := s.userType;
      userStatus := s.userStatus;
      employee := s.employee;
      statusWrites := s.statusWrites;
      sessionId := s.sessionId;
      sessionData := s.sessionData;
      csrfToken := s.csrfToken;
    }

    /** Handle a request at `now`: revoke and redirect, or hand the request on unchanged. */
    method Handle(now: int) returns (resp: Response)
      modifies this
      ensures (State(), resp) == Step(old(State()), now)
      ensures resp.RedirectToLogin? <==> ShouldRevoke(old(State()), now)
      ensures resp.PassThrough? ==> State() == old(State())
      ensures resp.RedirectToLogin? ==>
        userStatus == "inactive" && !authenticated &&
        sessionId != old(sessionId) && csrfToken != old(csrfToken) &&
        sessionData == map["error" := RevokedMessage]
    {
      if authenticated && userType == "employee" {
        if employee.Some? && employee.value.dateOfExit.Some? {
          var exitDay := employee.value.dateOfExit.value;
          if now > ExitCutoff(exitDay) {
            if userStatus != "inactive" {
              userStatus := "inactive";
              statusWrites := statusWrites + 1;
            }
            authenticated := false;
            sessionId := sessionId + 1;
            sessionData := map[];
            csrfToken := csrfToken + 1;
            sessionData := sessionData["error" := RevokedMessage];
            return RedirectToLogin(RevokedMessage);
          }
        }
      }
      return PassThrough;
    }
  }
}
