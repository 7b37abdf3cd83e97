/**
 * Refresh tokens under overlapping login, refresh and logout calls
 * (api-gateway/src/auth/auth.service.ts:103-105, 128-174, 252-299 and
 * api-gateway/src/auth/strategies/jwt-refresh.strategy.ts:46-74).  Every Redis
 * command is one event; time passes in between.
 *
 * A token is named by its position in the list of tokens ever signed, which is
 * what a fresh tokenId and a signature that cannot be forged come to.
 */
module RefreshTokens {
  import opened Options
  import opened Redis

  const WEEK: nat := 604800

  type Id = nat

  datatype Token = Token(user: Id, signedAt: int)

  datatype Call =
    | CheckingBlacklist(user: Id, token: nat)   // validate(): the stored token matched, EXISTS is pending
    | Signing(user: Id, origin: Option<nat>)    // login(), or refresh() with that token: nothing is signed yet
    | Storing(user: Id, token: nat)             // the SET of a signed token is pending
    | Blacklisting(token: nat)                  // logout(): the DEL is done, the SET of the blacklist is pending
    | Over

  datatype State = State(
    now: int,
    refreshToken: map<Id, Entry<nat>>,
    blacklist: map<nat, Entry<bool>>,
    signed: seq<Token>,
    calls: seq<Call>,
    purchases: multiset<nat>)   // history: the token that each refresh signed its new token for

  const INITIAL := State(0, map[], map[], [], [], multiset{})

  datatype Event =
    | LoginChecked(user: Id)                  // the password was right
    | Validate(token: nat)                    // the GET of validate() for a presented token
    | BlacklistRead(call: nat)
    | Sign(call: nat)
    | Store(call: nat)
    | LogoutDel(user: Id, tokenId: nat)
    | BlacklistSet(call: nat)
    | Abandon(call: nat)                      // the user is gone, or a request failed
    | Tick(seconds: nat)

  function SlotOf(s: State, user: Id): Slot<nat> {
    if user in s.refreshToken then Some(s.refreshToken[user]) else None
  }

  /** Redis answers GET refresh_token:user with this token. */
  predicate Held(s: State, token: nat) {
    token < |s.signed| && Get(SlotOf(s, s.signed[token].user), s.now) == Some(token)
  }

  predicate Blacklisted(s: State, token: nat) {
    token in s.blacklist && Live(Some(s.blacklist[token]), s.now)
  }

  /** validate() lets the token through: unexpired by its own claim, the one stored, not blacklisted. */
  predicate Acceptable(s: State, token: nat) {
    Held(s, token) && s.now < s.signed[token].signedAt + WEEK && !Blacklisted(s, token)
  }

  predicate Enabled(s: State, e: Event) {
    match e
    case LoginChecked(_) => true
    case Validate(t) => t < |s.signed|
    case BlacklistRead(i) => i < |s.calls| && s.calls[i].CheckingBlacklist?
    case Sign(i) => i < |s.calls| && s.calls[i].Signing?
    case Store(i) => i < |s.calls| && s.calls[i].Storing?
    case LogoutDel(_, _) => true
    case BlacklistSet(i) => i < |s.calls| && s.calls[i].Blacklisting?
    case Abandon(i) => i < |s.calls|
    case Tick(_) => true
  }

  function Move(s: State, i: nat, c: Call): State
    requires i < |s.calls|
  {
    s.(calls := s.calls[i := c])
  }

  function OnValidate(s: State, token: nat): State
    requires token < |s.signed|
  {
    if Held(s, token) && s.now < s.signed[token].signedAt + WEEK then
      s.(calls := s.calls + [CheckingBlacklist(s.signed[token].user, token)])
    else s
  }

  function OnSign(s: State, i: nat): State
    requires i < |s.calls| && s.calls[i].Signing?
  {
    var c := s.calls[i];
    Move(s, i, Storing(c.user, |s.signed|)).(
      signed := s.signed + [Token(c.user, s.now)],
      purchases := if c.origin.Some? then s.purchases + multiset{c.origin.value} else s.purchases)
  }

  function Apply(s: State, e: Event): State
    requires Enabled(s, e)
  {
    match e
    case LoginChecked(u) => s.(calls := s.calls + [Signing(u, None)])
    case Validate(t) => OnValidate(s, t)
    case BlacklistRead(i) =>
      var c := s.calls[i];
      Move(s, i, if Blacklisted(s, c.token) then Over else Signing(c.user, Some(c.token)))
    case Sign(i) => OnSign(s, i)
    case Store(i) =>
      Move(s, i, Over).(refreshToken := s.refreshToken[s.calls[i].user := SetEx(s.calls[i].token, s.now, WEEK)])
    case LogoutDel(u, t) => s.(refreshToken := s.refreshToken - {u}, calls := s.calls + [Blacklisting(t)])
    case BlacklistSet(i) => Move(s, i, Over).(blacklist := s.blacklist[s.calls[i].token := SetEx(true, s.now, WEEK)])
    case Abandon(i) => Move(s, i, Over)
    case Tick(seconds) => s.(now := s.now + seconds)
  }

  predicate CanRun(s: State, es: seq<Event>)
    decreases es
  {
    es == [] || (Enabled(s, es[0]) && CanRun(Apply(s, es[0]), es[1..]))
  }

  function Run(s: State, es: seq<Event>): State
    requires CanRun(s, es)
    decreases es
  {
    if es == [] then s else Run(Apply(s, es[0]), es[1..])
  }

  lemma Prepend(s: State, e: Event, es: seq<Event>)
    requires Enabled(s, e) && CanRun(Apply(s, e), es)
    ensures CanRun(s, [e] + es) && Run(s, [e] + es) == Run(Apply(s, e), es)
  {
  }

  lemma {:induction false} RunsCompose(s: State, es: seq<Event>, fs: seq<Event>)
    requires CanRun(s, es) && CanRun(Run(s, es), fs)
    ensures CanRun(s, es + fs) && Run(s, es + fs) == Run(Run(s, es), fs)
    decreases es
  {
    if es == [] {
      assert es + fs == fs;
    } else {
      assert (es + fs)[1..] == es[1..] + fs;
      RunsCompose(Apply(s, es[0]), es[1..], fs);
    }
  }

  // ---- The invariant ----

  /** The SET of the token is still to come. */
  ghost predicate BeingStored(s: State, token: nat) {
    exists i :: 0 <= i < |s.calls| && s.calls[i].Storing? && s.calls[i].token == token
  }

  ghost predicate CallOk(s: State, c: Call) {
    && (c.Storing? ==> c.token < |s.signed| && s.signed[c.token].user == c.user)
    && (c.CheckingBlacklist? ==> c.token < |s.signed| && s.signed[c.token].user == c.user)
  }

  /** Tokens sit in their own user's slot, each is stored by at most one call, and a stored one by none any more. */
  ghost predicate Inv(s: State) {
    && (forall i :: 0 <= i < |s.calls| ==> CallOk(s, s.calls[i]))
    && (forall i, j :: 0 <= i < j < |s.calls| && s.calls[i].Storing? && s.calls[j].Storing? ==>
          s.calls[i].token != s.calls[j].token)
    && (forall u :: u in s.refreshToken ==>
          && s.refreshToken[u].value < |s.signed| && s.signed[s.refreshToken[u].value].user == u
          && !BeingStored(s, s.refreshToken[u].value)
          && s.refreshToken[u].expiresAt.Some?)
    && (forall t :: t in s.blacklist ==>
          s.blacklist[t].expiresAt.Some? && s.blacklist[t].expiresAt.value <= s.now + WEEK)
  }

  /** What the event leaves in a user's slot is not also on its way there. */
  lemma SlotStep(s: State, e: Event, user: Id)
    requires Inv(s) && Enabled(s, e) && user in Apply(s, e).refreshToken
    ensures var s' := Apply(s, e);
            var entry := s'.refreshToken[user];
            && entry.expiresAt.Some? && entry.value < |s'.signed| && s'.signed[entry.value].user == user
            && !BeingStored(s', entry.value)
  {
  }

  lemma CallsStep(s: State, e: Event)
    requires Inv(s) && Enabled(s, e)
    ensures var s' := Apply(s, e);
            && (forall i :: 0 <= i < |s'.calls| ==> CallOk(s', s'.calls[i]))
            && (forall i, j :: 0 <= i < j < |s'.calls| && s'.calls[i].Storing? && s'.calls[j].Storing? ==>
                  s'.calls[i].token != s'.calls[j].token)
  {
  }

  lemma InvStep(s: State, e: Event)
    requires Inv(s) && Enabled(s, e)
    ensures Inv(Apply(s, e))
  {
    CallsStep(s, e);
    forall u | u in Apply(s, e).refreshToken
      ensures !BeingStored(Apply(s, e), Apply(s, e).refreshToken[u].value)
    {
      SlotStep(s, e, u);
    }
  }

  lemma {:induction false} InvRun(s: State, es: seq<Event>)
    requires Inv(s) && CanRun(s, es)
    ensures Inv(Run(s, es))
    decreases es
  {
    if es != [] {
      InvStep(s, es[0]);
      InvRun(Apply(s, es[0]), es[1..]);
    }
  }

  // ---- One-way acceptance ----

  lemma HeldIsNotBeingStored(s: State, token: nat)
    requires Inv(s) && Held(s, token)
    ensures !BeingStored(s, token)
  {
  }

  lemma SettledStep(s: State, e: Event, token: nat)
    requires Inv(s) && Enabled(s, e) && token < |s.signed| && !BeingStored(s, token)
    ensures var s' := Apply(s, e);
            && token < |s'.signed| && s'.signed[token] == s.signed[token]
            && !BeingStored(s', token) && (Held(s', token) ==> Held(s, token))
  {
  }

  /** A token no call is going to store can only leave Redis. */
  lemma {:induction false} SettledRun(s: State, es: seq<Event>, token: nat)
    requires Inv(s) && CanRun(s, es) && token < |s.signed| && !BeingStored(s, token)
    ensures token < |Run(s, es).signed| && !BeingStored(Run(s, es), token)
    ensures Held(Run(s, es), token) ==> Held(s, token)
    decreases es
  {
    if es != [] {
      InvStep(s, es[0]);
      SettledStep(s, es[0], token);
      SettledRun(Apply(s, es[0]), es[1..], token);
    }
  }

  /**
   * Acceptance is one-way: a token that Redis held at one point of a run and
   * does not hold at a later one, because it was replaced, deleted or ran out,
   * is not held and not acceptable at any point after that.
   */
  lemma NeverAcceptedAgain(first: seq<Event>, second: seq<Event>, third: seq<Event>, token: nat)
    requires CanRun(INITIAL, first) && Held(Run(INITIAL, first), token)
    requires CanRun(Run(INITIAL, first), second) && !Held(Run(Run(INITIAL, first), second), token)
    requires CanRun(Run(Run(INITIAL, first), second), third)
    ensures var s := Run(Run(Run(INITIAL, first), second), third);
            !Held(s, token) && !Acceptable(s, token)
  {
    InvRun(INITIAL, first);
    var s1 := Run(INITIAL, first);
    HeldIsNotBeingStored(s1, token);
    SettledRun(s1, second, token);
    InvRun(s1, second);
    SettledRun(Run(s1, second), third, token);
  }

  /**
   * No two tokens of one user are acceptable at once: there is one slot, and
   * validate() compares with what it holds.
   */
  lemma OneAcceptableToken(s: State, t: nat, u: nat)
    requires Acceptable(s, t) && Acceptable(s, u) && s.signed[t].user == s.signed[u].user
    ensures t == u
  {
  }

  /**
   * Whose session an event touches: a SET replaces the one token of its user,
   * a DEL ends it, and nothing else does either.
   */
  lemma HeldExactly(s: State, e: Event, token: nat)
    requires Inv(s) && Enabled(s, e) && token < |s.signed|
    ensures Held(Apply(s, e), token) <==>
            match e
            case Store(i) =>
              if s.calls[i].user == s.signed[token].user then s.calls[i].token == token else Held(s, token)
            case LogoutDel(user, _) => Held(s, token) && s.signed[token].user != user
            case Tick(seconds) =>
              Held(s, token) && s.now + seconds < s.refreshToken[s.signed[token].user].expiresAt.value
            case _ => Held(s, token)
  {
  }

  /** What is stored stays for exactly a week, if it is left alone. */
  lemma HeldForAWeek(s: State, i: nat, seconds: nat)
    requires Inv(s) && Enabled(s, Store(i))
    ensures Held(Apply(Apply(s, Store(i)), Tick(seconds)), s.calls[i].token) <==> seconds < 7 * 24 * 60 * 60
  {
    assert CallOk(s, s.calls[i]);
    InvStep(s, Store(i));
    HeldExactly(s, Store(i), s.calls[i].token);
    HeldExactly(Apply(s, Store(i)), Tick(seconds), s.calls[i].token);
  }

  /** What a login or a refresh buys is acceptable for exactly a week, unless it is blacklisted. */
  lemma AcceptableForAWeek(s: State, i: nat, seconds: nat)
    requires Inv(s) && Enabled(s, Sign(i))
    ensures var s1 := Apply(s, Sign(i));
            && Enabled(s1, Store(i))
            && var s2 := Apply(Apply(s1, Store(i)), Tick(seconds));
               (Acceptable(s2, |s.signed|) <==> seconds < 7 * 24 * 60 * 60 && !Blacklisted(s2, |s.signed|))
  {
    InvStep(s, Sign(i));
    HeldForAWeek(Apply(s, Sign(i)), i, seconds);
  }

  // ---- Logout ----

  /** A call that has shown the right to a new token of the user and not used it up. */
  predicate Entitled(c: Call, user: Id) {
    (c.Signing? || c.Storing? || c.CheckingBlacklist?) && c.user == user
  }

  ghost predicate SomeoneEntitled(s: State, user: Id) {
    exists i :: 0 <= i < |s.calls| && Entitled(s.calls[i], user)
  }

  predicate NoToken(s: State, user: Id) {
    !Live(SlotOf(s, user), s.now)
  }

  ghost predicate WithoutLogin(es: seq<Event>, user: Id) {
    forall e :: e in es ==> e != LoginChecked(user)
  }

  lemma LoggedOutStep(s: State, e: Event, user: Id)
    requires Inv(s) && Enabled(s, e) && NoToken(s, user) && !SomeoneEntitled(s, user) && e != LoginChecked(user)
    ensures NoToken(Apply(s, e), user) && !SomeoneEntitled(Apply(s, e), user)
  {
  }

  lemma {:induction false} StaysLoggedOut(s: State, es: seq<Event>, user: Id)
    requires Inv(s) && CanRun(s, es) && NoToken(s, user) && !SomeoneEntitled(s, user) && WithoutLogin(es, user)
    ensures NoToken(Run(s, es), user)
    decreases es
  {
    if es != [] {
      assert es[0] in es;
      assert forall e :: e in es[1..] ==> e in es;
      InvStep(s, es[0]);
      LoggedOutStep(s, es[0], user);
      StaysLoggedOut(Apply(s, es[0]), es[1..], user);
    }
  }

  lemma StoreRevives(s: State, i: nat) returns (es: seq<Event>)
    requires Enabled(s, Store(i))
    ensures CanRun(s, es) && !NoToken(Run(s, es), s.calls[i].user) && WithoutLogin(es, s.calls[i].user)
  {
    Prepend(s, Store(i), []);
    es := [Store(i)] + [];
  }

  lemma SignRevives(s: State, i: nat) returns (es: seq<Event>)
    requires Enabled(s, Sign(i))
    ensures CanRun(s, es) && !NoToken(Run(s, es), s.calls[i].user) && WithoutLogin(es, s.calls[i].user)
  {
    var rest := StoreRevives(Apply(s, Sign(i)), i);
    Prepend(s, Sign(i), rest);
    es := [Sign(i)] + rest;
  }

  /** Even a blacklisted token passes EXISTS if the answer takes a week. */
  lemma CheckRevives(s: State, i: nat) returns (es: seq<Event>)
    requires Inv(s) && Enabled(s, BlacklistRead(i))
    ensures CanRun(s, es) && !NoToken(Run(s, es), s.calls[i].user) && WithoutLogin(es, s.calls[i].user)
  {
    var later := Apply(s, Tick(WEEK));
    assert !Blacklisted(later, later.calls[i].token);
    var rest := SignRevives(Apply(later, BlacklistRead(i)), i);
    Prepend(later, BlacklistRead(i), rest);
    Prepend(s, Tick(WEEK), [BlacklistRead(i)] + rest);
    es := [Tick(WEEK)] + ([BlacklistRead(i)] + rest);
  }

  /**
   * What the deletion of logout() is worth: with no token stored, some run
   * without a new login stores one for the user again exactly when a login or
   * a refresh of that user had got past its check and not yet stored.
   */
  lemma LogoutHoldsIff(before: seq<Event>, user: Id)
    requires CanRun(INITIAL, before) && NoToken(Run(INITIAL, before), user)
    ensures var s := Run(INITIAL, before);
            (forall es :: CanRun(s, es) && WithoutLogin(es, user) ==> NoToken(Run(s, es), user))
            <==> !SomeoneEntitled(s, user)
  {
    var s := Run(INITIAL, before);
    InvRun(INITIAL, before);
    if SomeoneEntitled(s, user) {
      var i :| 0 <= i < |s.calls| && Entitled(s.calls[i], user);
      var es;
      if s.calls[i].Storing? {
        es := StoreRevives(s, i);
      } else if s.calls[i].Signing? {
        es := SignRevives(s, i);
      } else {
        es := CheckRevives(s, i);
      }
      assert CanRun(s, es) && WithoutLogin(es, user) && !NoToken(Run(s, es), user);
    } else {
      forall es | CanRun(s, es) && WithoutLogin(es, user)
        ensures NoToken(Run(s, es), user)
      {
        StaysLoggedOut(s, es, user);
      }
    }
  }

  /** When nothing of the user's is in flight, a logout rejects every token of that user until the next login. */
  lemma SequentialLogoutHolds(before: seq<Event>, user: Id, tokenId: nat, after: seq<Event>, token: nat)
    requires CanRun(INITIAL, before) && !SomeoneEntitled(Run(INITIAL, before), user)
    requires var s := Apply(Run(INITIAL, before), LogoutDel(user, tokenId));
             CanRun(s, after) && WithoutLogin(after, user)
             && token < |Run(s, after).signed| && Run(s, after).signed[token].user == user
    ensures var s := Apply(Run(INITIAL, before), LogoutDel(user, tokenId));
            !Acceptable(Run(s, after), token) && Apply(Run(s, after), Validate(token)) == Run(s, after)
  {
    var s0 := Run(INITIAL, before);
    InvRun(INITIAL, before);
    var s := Apply(s0, LogoutDel(user, tokenId));
    InvStep(s0, LogoutDel(user, tokenId));
    forall i | 0 <= i < |s.calls|
      ensures !Entitled(s.calls[i], user)
    {
      if i < |s0.calls| {
        assert !Entitled(s0.calls[i], user);
      }
    }
    StaysLoggedOut(s, after, user);
  }

  /** A login from start to end. */
  lemma FirstLogin(user: Id) returns (es: seq<Event>)
    ensures CanRun(INITIAL, es)
    ensures Run(INITIAL, es)
         == INITIAL.(refreshToken := map[user := Entry(0, Some(WEEK))], signed := [Token(user, 0)], calls := [Over])
  {
    var s1 := Apply(INITIAL, LoginChecked(user));
    var s2 := Apply(s1, Sign(0));
    Prepend(s2, Store(0), []);
    Prepend(s1, Sign(0), [Store(0)] + []);
    Prepend(INITIAL, LoginChecked(user), [Sign(0)] + ([Store(0)] + []));
    es := [LoginChecked(user)] + ([Sign(0)] + ([Store(0)] + []));
  }

  /**
   * A logout between the check of a login and its SET does not hold: the
   * session that it ends is over, and another begins without a new login.
   */
  lemma LogoutOvertaken(user: Id, tokenId: nat) returns (before: seq<Event>, after: seq<Event>)
    ensures CanRun(INITIAL, before) && Acceptable(Run(INITIAL, before), 0)
    ensures var s := Apply(Run(INITIAL, before), LogoutDel(user, tokenId));
            && !Acceptable(s, 0) && CanRun(s, after) && WithoutLogin(after, user)
            && Acceptable(Run(s, after), 1) && Run(s, after).signed[1].user == user
  {
    before := FirstLogin(user);
    var login := LoginChecked(user);
    Prepend(Run(INITIAL, before), login, []);
    RunsCompose(INITIAL, before, [login] + []);
    before := before + ([login] + []);
    var s := Apply(Run(INITIAL, before), LogoutDel(user, tokenId));
    Prepend(Apply(s, Sign(1)), Store(1), []);
    Prepend(s, Sign(1), [Store(1)] + []);
    after := [Sign(1)] + ([Store(1)] + []);
  }

  // ---- What one token buys ----

  /** How many new tokens refresh() has signed for this one. */
  function Bought(s: State, token: nat): nat {
    s.purchases[token]
  }

  /** A refresh with the token that has matched and not yet signed. */
  predicate MayBuy(c: Call, token: nat) {
    (c.CheckingBlacklist? && c.token == token) || (c.Signing? && c.origin == Some(token))
  }

  function Buyers(calls: seq<Call>, token: nat): nat {
    if calls == [] then 0
    else Buyers(calls[..|calls| - 1], token) + (if MayBuy(calls[|calls| - 1], token) then 1 else 0)
  }

  /** validate() may still find the token stored, now or after its own SET. */
  ghost predicate Presentable(s: State, token: nat)
    requires token < |s.signed|
  {
    (Held(s, token) || BeingStored(s, token)) && s.now < s.signed[token].signedAt + WEEK
  }

  lemma {:induction false} BuyersAfterMove(calls: seq<Call>, i: nat, c: Call, token: nat)
    requires i < |calls|
    ensures Buyers(calls[i := c], token)
         == Buyers(calls, token) - (if MayBuy(calls[i], token) then 1 else 0) + (if MayBuy(c, token) then 1 else 0)
  {
    var n := |calls| - 1;
    if i == n {
      assert calls[i := c][..n] == calls[..n];
    } else {
      assert calls[i := c][..n] == calls[..n][i := c];
      BuyersAfterMove(calls[..n], i, c, token);
    }
  }

  lemma BuyersAfterStart(calls: seq<Call>, c: Call, token: nat)
    ensures Buyers(calls + [c], token) == Buyers(calls, token) + (if MayBuy(c, token) then 1 else 0)
  {
    assert (calls + [c])[..|calls|] == calls;
  }

  lemma StaysUnpresentable(s: State, e: Event, token: nat)
    requires Inv(s) && Enabled(s, e) && token < |s.signed| && !Presentable(s, token)
    ensures token < |Apply(s, e).signed| && !Presentable(Apply(s, e), token)
  {
    var s' := Apply(s, e);
    assert s'.signed[token] == s.signed[token] && s'.now >= s.now;
    if s.now < s.signed[token].signedAt + WEEK {
      SettledStep(s, e, token);
    }
  }

  predicate StartsCall(e: Event) {
    e.LoginChecked? || e.LogoutDel? || e.Validate? || e.Tick?
  }

  lemma StartsBuyNothing(s: State, e: Event, token: nat)
    requires Inv(s) && Enabled(s, e) && token < |s.signed| && !Presentable(s, token) && StartsCall(e)
    ensures Bought(Apply(s, e), token) + Buyers(Apply(s, e).calls, token) == Bought(s, token) + Buyers(s.calls, token)
  {
    match e {
      case LoginChecked(u) => BuyersAfterStart(s.calls, Signing(u, None), token);
      case LogoutDel(_, t) => BuyersAfterStart(s.calls, Blacklisting(t), token);
      case Validate(t) => BuyersAfterStart(s.calls, CheckingBlacklist(s.signed[t].user, t), token);
      case Tick(_) =>
    }
  }

  lemma SignBuysOne(s: State, i: nat, token: nat)
    requires Enabled(s, Sign(i))
    ensures var s' := Apply(s, Sign(i));
            Bought(s', token) + Buyers(s'.calls, token) == Bought(s, token) + Buyers(s.calls, token)
  {
    BuyersAfterMove(s.calls, i, Storing(s.calls[i].user, |s.signed|), token);
  }

  lemma OthersBuyNothing(s: State, e: Event, token: nat)
    requires Enabled(s, e) && !StartsCall(e) && !e.Sign?
    ensures Apply(s, e).purchases == s.purchases && Buyers(Apply(s, e).calls, token) <= Buyers(s.calls, token)
  {
    BuyersAfterMove(s.calls, e.call, Apply(s, e).calls[e.call], token);
  }

  /** Nothing that happens to such a token makes room for another purchase. */
  lemma PurchaseStep(s: State, e: Event, token: nat)
    requires Inv(s) && Enabled(s, e) && token < |s.signed| && !Presentable(s, token)
    ensures Bought(Apply(s, e), token) + Buyers(Apply(s, e).calls, token) <= Bought(s, token) + Buyers(s.calls, token)
  {
    if StartsCall(e) {
      StartsBuyNothing(s, e, token);
    } else if e.Sign? {
      SignBuysOne(s, e.call, token);
    } else {
      OthersBuyNothing(s, e, token);
    }
  }

  lemma {:induction false} PurchaseRun(s: State, es: seq<Event>, token: nat)
    requires Inv(s) && CanRun(s, es) && token < |s.signed| && !Presentable(s, token)
    ensures Bought(Run(s, es), token) <= Bought(s, token) + Buyers(s.calls, token)
    decreases es
  {
    if es != [] {
      InvStep(s, es[0]);
      StaysUnpresentable(s, es[0], token);
      PurchaseStep(s, es[0], token);
      PurchaseRun(Apply(s, es[0]), es[1..], token);
    }
  }

  lemma {:induction false} SomeBuyer(calls: seq<Call>, token: nat) returns (i: nat)
    requires Buyers(calls, token) > 0
    ensures i < |calls| && MayBuy(calls[i], token)
  {
    i := |calls| - 1;
    if !MayBuy(calls[i], token) {
      i := SomeBuyer(calls[..i], token);
    }
  }

  /** A call that has matched can get to signing, if only by waiting for the blacklist to run out. */
  lemma CheckPasses(s: State, i: nat, token: nat) returns (es: seq<Event>)
    requires Inv(s) && i < |s.calls| && MayBuy(s.calls[i], token)
    ensures CanRun(s, es) && Inv(Run(s, es))
    ensures var s' := Run(s, es);
            && i < |s'.calls| && s'.calls[i].Signing? && s'.calls[i].origin == Some(token)
            && s'.purchases == s.purchases && Buyers(s'.calls, token) == Buyers(s.calls, token)
  {
    if s.calls[i].Signing? {
      es := [];
    } else {
      var later := Apply(s, Tick(WEEK));
      InvStep(s, Tick(WEEK));
      assert !Blacklisted(later, token);
      var passed := Apply(later, BlacklistRead(i));
      InvStep(later, BlacklistRead(i));
      BuyersAfterMove(s.calls, i, passed.calls[i], token);
      Prepend(later, BlacklistRead(i), []);
      Prepend(s, Tick(WEEK), [BlacklistRead(i)] + []);
      es := [Tick(WEEK)] + ([BlacklistRead(i)] + []);
    }
  }

  /** All of them can buy. */
  lemma {:induction false} AllBuy(s: State, token: nat) returns (es: seq<Event>)
    requires Inv(s)
    ensures CanRun(s, es) && Bought(Run(s, es), token) == Bought(s, token) + Buyers(s.calls, token)
    decreases Buyers(s.calls, token)
  {
    if Buyers(s.calls, token) == 0 {
      es := [];
    } else {
      var i := SomeBuyer(s.calls, token);
      var check := CheckPasses(s, i, token);
      var s1 := Run(s, check);
      var s2 := Apply(s1, Sign(i));
      BuyersAfterMove(s1.calls, i, s2.calls[i], token);
      InvStep(s1, Sign(i));
      var rest := AllBuy(s2, token);
      Prepend(s1, Sign(i), rest);
      RunsCompose(s, check, [Sign(i)] + rest);
      es := check + ([Sign(i)] + rest);
    }
  }

  /** A token that is stored and not expired matches as often as it is presented. */
  lemma {:induction false} PresentedTimes(s: State, token: nat, n: nat) returns (es: seq<Event>)
    requires Inv(s) && Held(s, token) && s.now < s.signed[token].signedAt + WEEK
    ensures CanRun(s, es) && Inv(Run(s, es))
    ensures Run(s, es).purchases == s.purchases && Buyers(Run(s, es).calls, token) == Buyers(s.calls, token) + n
    decreases n
  {
    if n == 0 {
      es := [];
    } else {
      var s1 := Apply(s, Validate(token));
      InvStep(s, Validate(token));
      BuyersAfterStart(s.calls, s1.calls[|s.calls|], token);
      var rest := PresentedTimes(s1, token, n - 1);
      Prepend(s, Validate(token), rest);
      es := [Validate(token)] + rest;
    }
  }

  lemma GetsStored(s: State, token: nat) returns (es: seq<Event>)
    requires Inv(s) && token < |s.signed| && Presentable(s, token)
    ensures CanRun(s, es) && Inv(Run(s, es)) && Run(s, es).signed == s.signed && Run(s, es).now == s.now
    ensures Held(Run(s, es), token)
  {
    if Held(s, token) {
      es := [];
    } else {
      var i :| 0 <= i < |s.calls| && s.calls[i].Storing? && s.calls[i].token == token;
      assert CallOk(s, s.calls[i]);
      InvStep(s, Store(i));
      Prepend(s, Store(i), []);
      es := [Store(i)] + [];
    }
  }

  lemma PresentableBuys(s: State, token: nat, n: nat) returns (es: seq<Event>)
    requires Inv(s) && token < |s.signed| && Presentable(s, token)
    ensures CanRun(s, es) && Bought(Run(s, es), token) >= n
  {
    var stores := GetsStored(s, token);
    var s1 := Run(s, stores);
    var presents := PresentedTimes(s1, token, n);
    RunsCompose(s, stores, presents);
    var buys := AllBuy(Run(s1, presents), token);
    RunsCompose(s, stores + presents, buys);
    es := (stores + presents) + buys;
  }

  /**
   * A token buys at most n new ones, whatever happens from here on, exactly
   * when no further presentation of it can match and the refreshes that
   * matched and have not signed yet, together with those that have, are no
   * more than n.
   */
  lemma BuysAtMostIff(before: seq<Event>, token: nat, n: nat)
    requires CanRun(INITIAL, before) && token < |Run(INITIAL, before).signed|
    ensures var s := Run(INITIAL, before);
            (forall es :: CanRun(s, es) ==> Bought(Run(s, es), token) <= n)
            <==> !Presentable(s, token) && Bought(s, token) + Buyers(s.calls, token) <= n
  {
    var s := Run(INITIAL, before);
    InvRun(INITIAL, before);
    if Presentable(s, token) {
      var es := PresentableBuys(s, token, n + 1);
      assert CanRun(s, es) && Bought(Run(s, es), token) > n;
    } else {
      forall es | CanRun(s, es)
        ensures Bought(Run(s, es), token) <= Bought(s, token) + Buyers(s.calls, token)
      {
        PurchaseRun(s, es, token);
      }
      var es := AllBuy(s, token);
      assert CanRun(s, es) && Bought(Run(s, es), token) == Bought(s, token) + Buyers(s.calls, token);
    }
  }

  /**
   * Once a refresh has stored its new token over the one it was asked with,
   * that one buys no more than n in all exactly when no more than n refreshes
   * with it had matched: rotation stops later ones, not those already past.
   */
  lemma RotatedBuysAtMostIff(before: seq<Event>, i: nat, token: nat, n: nat)
    requires CanRun(INITIAL, before) && Enabled(Run(INITIAL, before), Store(i)) && Held(Run(INITIAL, before), token)
    requires Run(INITIAL, before).calls[i].user == Run(INITIAL, before).signed[token].user
    ensures var s0 := Run(INITIAL, before);
            var s := Apply(s0, Store(i));
            (forall es :: CanRun(s, es) ==> Bought(Run(s, es), token) <= n)
            <==> Bought(s0, token) + Buyers(s0.calls, token) <= n
  {
    var s0 := Run(INITIAL, before);
    InvRun(INITIAL, before);
    HeldIsNotBeingStored(s0, token);
    SettledStep(s0, Store(i), token);
    var s := Apply(s0, Store(i));
    BuyersAfterMove(s0.calls, i, Over, token);
    Prepend(s0, Store(i), []);
    RunsCompose(INITIAL, before, [Store(i)] + []);
    BuysAtMostIff(before + ([Store(i)] + []), token, n);
  }

  /** For every n there is a run in which one login and its one token buy n new ones. */
  lemma OneTokenBuysMany(n: nat) returns (es: seq<Event>)
    ensures CanRun(INITIAL, es) && Bought(Run(INITIAL, es), 0) >= n
  {
    var login := FirstLogin(0);
    InvRun(INITIAL, login);
    var rest := PresentableBuys(Run(INITIAL, login), 0, n);
    RunsCompose(INITIAL, login, rest);
    es := login + rest;
  }

  // ---- What the blacklist stops ----

  /** Nobody with this token is past the blacklist and still to sign. */
  ghost predicate NobodySigns(calls: seq<Call>, token: nat) {
    forall i :: 0 <= i < |calls| && calls[i].Signing? ==> calls[i].origin != Some(token)
  }

  /** The token is on the blacklist until x at least. */
  predicate Listed(s: State, token: nat, x: int) {
    token in s.blacklist && s.blacklist[token].expiresAt.Some? && x <= s.blacklist[token].expiresAt.value
  }

  lemma ListedStep(s: State, e: Event, token: nat, x: int)
    requires Inv(s) && Enabled(s, e) && Listed(s, token, x) && s.now < x && NobodySigns(s.calls, token)
    ensures var s' := Apply(s, e);
            Listed(s', token, x) && NobodySigns(s'.calls, token) && Bought(s', token) == Bought(s, token)
  {
  }

  lemma {:induction false} TimePasses(s: State, es: seq<Event>)
    requires CanRun(s, es)
    ensures s.now <= Run(s, es).now
    decreases es
  {
    if es != [] {
      TimePasses(Apply(s, es[0]), es[1..]);
    }
  }

  lemma {:induction false} ListedRun(s: State, es: seq<Event>, token: nat, x: int)
    requires Inv(s) && CanRun(s, es) && Listed(s, token, x) && NobodySigns(s.calls, token) && Run(s, es).now < x
    ensures Bought(Run(s, es), token) == Bought(s, token)
    decreases es
  {
    TimePasses(s, es);
    if es != [] {
      InvStep(s, es[0]);
      ListedStep(s, es[0], token, x);
      ListedRun(Apply(s, es[0]), es[1..], token, x);
    }
  }

  /** The second half of a logout is always to come, and lists its token for a week. */
  lemma LogoutLists(s: State, user: Id, token: nat)
    ensures var s1 := Apply(s, LogoutDel(user, token));
            && Enabled(s1, BlacklistSet(|s.calls|))
            && Listed(Apply(s1, BlacklistSet(|s.calls|)), token, s.now + 7 * 24 * 60 * 60)
  {
  }

  /**
   * The blacklist entry of a logout keeps its token from buying anything for a
   * week exactly when no refresh with it had passed the blacklist and not yet
   * signed.
   */
  lemma RevocationHoldsIff(before: seq<Event>, i: nat)
    requires CanRun(INITIAL, before) && Enabled(Run(INITIAL, before), BlacklistSet(i))
    ensures var token := Run(INITIAL, before).calls[i].token;
            var s := Apply(Run(INITIAL, before), BlacklistSet(i));
            (forall es :: CanRun(s, es) && Run(s, es).now < s.now + 7 * 24 * 60 * 60 ==>
                            Bought(Run(s, es), token) == Bought(s, token))
            <==> NobodySigns(s.calls, token)
  {
    var s0 := Run(INITIAL, before);
    var token := s0.calls[i].token;
    InvRun(INITIAL, before);
    InvStep(s0, BlacklistSet(i));
    var s := Apply(s0, BlacklistSet(i));
    if NobodySigns(s.calls, token) {
      forall es | CanRun(s, es) && Run(s, es).now < s.now + 7 * 24 * 60 * 60
        ensures Bought(Run(s, es), token) == Bought(s, token)
      {
        ListedRun(s, es, token, s.now + 7 * 24 * 60 * 60);
      }
    } else {
      var k: nat :| k < |s.calls| && s.calls[k].Signing? && s.calls[k].origin == Some(token);
      Prepend(s, Sign(k), []);
      assert Bought(Run(s, [Sign(k)] + []), token) == Bought(s, token) + 1;
    }
  }
}
