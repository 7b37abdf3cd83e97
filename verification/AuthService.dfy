/**
 * AuthService with its Redis keys, one call after the other: the lockout is
 * proved against the log of attempts, the tokens against the acceptance test
 * of the refresh strategy.
 */
module AuthServices {
  import opened Options
  import opened Redis
  import opened LoginLog
  import T = RefreshTokens

  datatype User = User(id: T.Id, deleted: bool)

  /** When a login runs each of its commands; the password check takes what it takes. */
  datatype Times = Times(checked: int, ttlRead: int, changed: int, armed: int) {
    predicate Ordered() {
      checked <= ttlRead && checked <= changed <= armed
    }
  }

  datatype LoginResult = LoggedIn(refreshToken: nat) | InvalidCredentials | Locked(remainingMinutes: int)

  class AuthService {
    var users: map<string, User>
    // Redis: login_attempts:*, refresh_token:*, blacklist:*
    var loginAttempts: map<string, Entry<nat>>
    var refreshToken: map<T.Id, Entry<nat>>
    var blacklist: map<nat, Entry<bool>>
    // tokens ever signed
    var signed: seq<T.Token>
    // what happened, by email
    ghost var log: map<string, seq<Attempt>>

    ghost function Log(email: string): seq<Attempt>
      reads this`log
    {
      if email in log then log[email] else []
    }

    function AttemptsSlot(email: string): Slot<nat>
      reads this`loginAttempts
    {
      if email in loginAttempts then Some(loginAttempts[email]) else None
    }

    function Tokens(now: int): T.State
      reads this`refreshToken, this`blacklist, this`signed
    {
      T.State(now, refreshToken, blacklist, signed, [], multiset{})
    }

    /** Redis holds for every email the counter that its log amounts to. */
    ghost predicate Valid()
      reads this`log, this`loginAttempts
    {
      forall email :: Agrees(Log(email), AttemptsSlot(email), MAX_ATTEMPTS)
    }

    constructor (users: map<string, User>)
      ensures Valid() && this.users == users && log == map[] && refreshToken == map[] && signed == []
    {
      this.users := users;
      loginAttempts, refreshToken, blacklist, signed := map[], map[], map[], [];
      log := map[];
    }

    /** The log of an email ends before now. */
    ghost predicate UpTo(email: string, now: int)
      reads this`log
    {
      Log(email) != [] ==> Log(email)[|Log(email)| - 1].End() <= now
    }

    method GetLoginAttempts(email: string, now: int) returns (attempts: nat)
      requires Valid() && UpTo(email, now)
      ensures attempts == FailuresInWindow(Log(email), now)
    {
      CounterIsLog(Log(email), now);
      if email in loginAttempts && Live(Some(loginAttempts[email]), now) {
        attempts := loginAttempts[email].value;
      } else {
        attempts := 0;
      }
    }

    /** What is left of the window, in seconds. */
    method GetRemainingLockoutTime(email: string, now: int) returns (seconds: int)
      requires Valid() && UpTo(email, now)
      ensures var o := Opener(Log(email));
              seconds == if o.Some? && now < Log(email)[o.value].armed + 900
                         then Log(email)[o.value].armed + 900 - now else 0
    {
      CounterIsLog(Log(email), now);
      seconds := 0;
      if email in loginAttempts && Live(Some(loginAttempts[email]), now) && loginAttempts[email].expiresAt.Some? {
        seconds := loginAttempts[email].expiresAt.value - now;
      }
    }

    /** What is left of the 900 seconds after the opener's EXPIRE, in minutes rounded up. */
    ghost predicate MinutesLeft(email: string, now: int, minutes: int)
      requires Opener(Log(email)).Some?
      reads this`log
    {
      var end := Log(email)[Opener(Log(email)).value].armed + 900;
      60 * minutes - 60 < (if now < end then end - now else 0) <= 60 * minutes
    }

    /** Locked exactly when the window holds five failures; the minutes are those left, rounded up. */
    method CheckAccountLockout(email: string, times: Times) returns (lock: Option<int>)
      requires Valid() && times.Ordered() && UpTo(email, times.checked)
      ensures lock.Some? <==> FailuresInWindow(Log(email), times.checked) >= 5
      ensures lock.Some? ==> Opener(Log(email)).Some? && MinutesLeft(email, times.ttlRead, lock.value)
    {
      var attempts := GetLoginAttempts(email, times.checked);
      if attempts < MAX_ATTEMPTS {
        return None;
      }
      var seconds := GetRemainingLockoutTime(email, times.ttlRead);
      return Some((seconds + 59) / 60);
    }

    /** INCR, and EXPIRE when the counter says this failure is the first. */
    method HandleFailedLogin(email: string, times: Times)
      requires Valid() && times.Ordered() && UpTo(email, times.checked)
      requires FailuresInWindow(Log(email), times.checked) < MAX_ATTEMPTS
      modifies this`loginAttempts, this`log
      ensures Valid()
      ensures log == old(log)[email := old(Log(email)) + [Failure(times.checked, times.changed, times.armed)]]
    {
      ghost var a := Failure(times.checked, times.changed, times.armed);
      CounterIsLog(Log(email), times.checked);
      AgreesAfter(Log(email), AttemptsSlot(email), a, MAX_ATTEMPTS);
      var attempts := 1;
      if email in loginAttempts && Live(Some(loginAttempts[email]), times.changed) {
        attempts := loginAttempts[email].value + 1;
        loginAttempts := loginAttempts[email := loginAttempts[email].(value := attempts)];
      } else {
        loginAttempts := loginAttempts[email := Entry(1, None)];
      }
      if attempts == 1 {
        var expiresAt := Some(times.armed + LOCKOUT_SECONDS);
        loginAttempts := loginAttempts[email := loginAttempts[email].(expiresAt := expiresAt)];
      }
      assert AttemptsSlot(email) == AfterAttempt(old(AttemptsSlot(email)), a);
      log := log[email := old(Log(email)) + [a]];
      assert forall other :: other != email ==>
               Log(other) == old(Log(other)) && AttemptsSlot(other) == old(AttemptsSlot(other));
    }

    method ClearLoginAttempts(email: string, times: Times)
      requires Valid() && times.Ordered() && UpTo(email, times.checked)
      requires FailuresInWindow(Log(email), times.checked) < MAX_ATTEMPTS
      modifies this`loginAttempts, this`log
      ensures Valid()
      ensures log == old(log)[email := old(Log(email)) + [Success(times.checked, times.changed)]]
    {
      ghost var a := Success(times.checked, times.changed);
      AgreesAfter(Log(email), AttemptsSlot(email), a, MAX_ATTEMPTS);
      loginAttempts := loginAttempts - {email};
      log := log[email := old(Log(email)) + [a]];
      assert forall other :: other != email ==>
               Log(other) == old(Log(other)) && AttemptsSlot(other) == old(AttemptsSlot(other));
    }

    /** A new token of the user, which replaces the one before it. */
    method GenerateAndStoreToken(user: T.Id, now: int) returns (token: nat)
      modifies this`signed, this`refreshToken
      ensures token == old(|signed|) && signed == old(signed) + [T.Token(user, now)]
      ensures refreshToken == old(refreshToken)[user := Entry(token, Some(now + 604800))]
    {
      token := |signed|;
      signed := signed + [T.Token(user, now)];
      refreshToken := refreshToken[user := SetEx(token, now, T.WEEK)];
    }

    /**
     * login(): refused before the password is looked at exactly when the log
     * shows five failures in the window; otherwise the attempt goes on the log
     * as what it was, and no other email notices.  A success ends the user's
     * session before it and nobody else's.
     */
    method Login(email: string, passwordMatches: bool, times: Times) returns (r: LoginResult)
      requires Valid() && times.Ordered() && UpTo(email, times.checked)
      modifies this`loginAttempts, this`log, this`signed, this`refreshToken
      ensures Valid()
      ensures r.Locked? <==> FailuresInWindow(old(Log(email)), times.checked) >= 5
      ensures r.Locked? ==> Opener(Log(email)).Some? && MinutesLeft(email, times.ttlRead, r.remainingMinutes)
      ensures r.LoggedIn? <==> !r.Locked? && email in users && !users[email].deleted && passwordMatches
      ensures log == if r.Locked? then old(log)
                     else old(log)[email := old(Log(email)) + [if r.LoggedIn? then Success(times.checked, times.changed)
                                                               else Failure(times.checked, times.changed, times.armed)]]
      ensures !r.LoggedIn? ==> refreshToken == old(refreshToken) && signed == old(signed)
      ensures r.LoggedIn? ==>
              && r.refreshToken >= old(|signed|) && T.Held(Tokens(times.armed), r.refreshToken)
              && signed == old(signed) + [T.Token(users[email].id, times.armed)]
              && (forall t: nat :: T.Held(Tokens(times.armed), t) && t != r.refreshToken <==>
                    old(T.Held(Tokens(times.armed), t)) && signed[t].user != users[email].id)
              && refreshToken.Keys == old(refreshToken).Keys + {users[email].id}
    {
      var lock := CheckAccountLockout(email, times);
      if lock.Some? {
        return Locked(lock.value);
      }
      if email !in users || users[email].deleted {
        HandleFailedLogin(email, times);
        return InvalidCredentials;
      }
      if !passwordMatches {
        HandleFailedLogin(email, times);
        return InvalidCredentials;
      }
      ClearLoginAttempts(email, times);
      var token := GenerateAndStoreToken(users[email].id, times.armed);
      return LoggedIn(token);
    }

    /** JwtRefreshStrategy.validate() at one instant. */
    method Validate(token: nat, now: int) returns (user: Option<T.Id>)
      ensures user.Some? <==> T.Acceptable(Tokens(now), token)
      ensures user.Some? <==>
              && token < |signed| && now < signed[token].signedAt + 604800
              && signed[token].user in refreshToken
              && var stored := refreshToken[signed[token].user];
                 && stored.value == token && (stored.expiresAt.Some? ==> now < stored.expiresAt.value)
                 && !(token in blacklist
                      && (blacklist[token].expiresAt.Some? ==> now < blacklist[token].expiresAt.value))
      ensures user.Some? ==> user.value == signed[token].user
    {
      if token >= |signed| || now >= signed[token].signedAt + T.WEEK {
        return None;
      }
      var u := signed[token].user;
      if u !in refreshToken || !Live(Some(refreshToken[u]), now) || refreshToken[u].value != token {
        return None;
      }
      if token in blacklist && Live(Some(blacklist[token]), now) {
        return None;
      }
      return Some(u);
    }

    /** validate() and refresh(): an accepted token is used up by the new one that it buys. */
    method Refresh(token: nat, userExists: bool, now: int) returns (next: Option<nat>)
      modifies this`signed, this`refreshToken
      ensures next.Some? <==> old(T.Acceptable(Tokens(now), token)) && userExists
      ensures next.None? ==> signed == old(signed) && refreshToken == old(refreshToken)
      ensures next.Some? ==>
              && next.value == old(|signed|) && T.Held(Tokens(now), next.value) && token < old(|signed|)
              && signed == old(signed) + [T.Token(signed[token].user, now)]
              && (forall t: nat :: T.Held(Tokens(now), t) && t != next.value <==>
                    t < |signed| && old(T.Held(Tokens(now), t)) && signed[t].user != signed[token].user)
    {
      var user := Validate(token, now);
      if user.None? || !userExists {
        return None;
      }
      var signedToken := GenerateAndStoreToken(user.value, now);
      return Some(signedToken);
    }

    /** logout(): no token of the user is held any more, every other user's still is. */
    method Logout(user: T.Id, tokenId: nat, now: int)
      modifies this`refreshToken, this`blacklist
      ensures forall t: nat :: T.Held(Tokens(now), t) <==> old(T.Held(Tokens(now), t)) && signed[t].user != user
      ensures blacklist == old(blacklist)[tokenId := Entry(true, Some(now + 604800))]
    {
      refreshToken := refreshToken - {user};
      blacklist := blacklist[tokenId := SetEx(true, now, T.WEEK)];
    }
  }
}
