/**
 * Phone login with one-time passwords (send, verify, resend), the profile
 * update with its completion rule, and the user search.
 *
 * The OTP collection is a sequence in creation order and user `i` is
 * stored at position `i`. The generated code is a parameter (it comes from
 * a random source), and so is whether the SMS provider delivered it. The
 * two routes that issue codes are mounted behind the per-phone limiter:
 * `SendOtpRoute` and `ResendOtpRoute` run `RateLimit.Limiter.Request`
 * first and reach the handler only when it lets the request through.
 */
module AuthRoutes {
  import opened Common
  import RateLimit
  import opened Text
  import opened OtpModel
  import opened UserModel

  const OtpLifetimeMs: nat := 300000
  const OtpLifetimeSeconds: nat := 300
  const MaxAttempts: nat := 5
  const MinPhoneLength: nat := 10
  const MinNameLength: nat := 2

  datatype AuthError =
    | PhoneRequired        // 'Phone number is required'
    | ValidPhoneRequired   // 'Valid phone number is required'
    | PhoneAndOtpRequired  // 'Phone and OTP are required'
    | ExpiredOrNotFound    // 'OTP expired or not found. Please request a new one.'
    | TooManyAttempts      // 'Too many failed attempts. Please request a new OTP.'

  datatype AuthReply =
    | OtpSent(expiresInSeconds: nat)
    | BadRequest(error: AuthError)
    | InvalidOtp(attemptsRemaining: int)
    | LoggedIn(user: User, isNewUser: bool)
    | Profile(user: User)
    | ServerError
    | TooManyRequests(retryAfterSeconds: int)  // 'Too many OTP requests. Please try again later.'

  /** The code a reply is sent with. */
  function HttpCode(r: AuthReply): nat {
    match r
    case OtpSent(_) => 200
    case BadRequest(_) => 400
    case InvalidOtp(_) => 400
    case LoggedIn(_, _) => 200
    case Profile(_) => 200
    case ServerError => 500
    case TooManyRequests(_) => 429
  }

  /** Where issuing a code fails: deleting the old codes, storing the new one, or handing it to the SMS provider. */
  datatype IssueFault = NoIssueFault | DeleteFails | StoreFails | DeliveryFails

  function OtherPhone(phone: string): OtpRecord -> bool {
    (r: OtpRecord) => r.phone != phone
  }

  /** `Otp.deleteMany({ phone })`. */
  function DropPhone(otps: seq<OtpRecord>, phone: string): (r: seq<OtpRecord>)
    ensures forall k :: 0 <= k < |r| ==> r[k].phone != phone
    ensures forall x :: x in r <==> x in otps && x.phone != phone
  {
    var r := Filter(otps, OtherPhone(phone));
    assert forall k :: 0 <= k < |r| ==> r[k] in r;
    r
  }

  /** The number of codes stored for a phone. */
  function CodesFor(otps: seq<OtpRecord>, phone: string): nat {
    if otps == [] then 0 else CodesFor(otps[..|otps| - 1], phone) + (if otps[|otps| - 1].phone == phone then 1 else 0)
  }

  lemma {:induction false} CodesForNone(otps: seq<OtpRecord>, phone: string)
    requires forall k :: 0 <= k < |otps| ==> otps[k].phone != phone
    ensures CodesFor(otps, phone) == 0
  {
    if otps != [] {
      CodesForNone(otps[..|otps| - 1], phone);
    }
  }

  predicate Live(r: OtpRecord, phone: string, now: Millis) {
    r.phone == phone && r.expiresAt > now
  }

  /**
   * `Otp.findOne({ phone, expiresAt: { $gt: now } }).sort({ createdAt: -1 })`:
   * the position of a live code for the phone with the latest creation
   * time (the later one on a tie), or none when there is no live code.
   */
  function Newest(otps: seq<OtpRecord>, phone: string, now: Millis): (k: Option<nat>)
    ensures k.None? <==> forall j :: 0 <= j < |otps| ==> !Live(otps[j], phone, now)
    ensures k.Some? ==>
      (k.value < |otps| && Live(otps[k.value], phone, now)
       && forall j :: 0 <= j < |otps| && Live(otps[j], phone, now) ==> otps[j].createdAt <= otps[k.value].createdAt)
  {
    if otps == [] then None
    else
      var n := |otps| - 1;
      var rest := Newest(otps[..n], phone, now);
      assert forall j :: 0 <= j < n ==> otps[..n][j] == otps[j];
      if Live(otps[n], phone, now) && (rest.None? || otps[rest.value].createdAt <= otps[n].createdAt)
      then Some(n) else rest
  }

  /** `user.isOnline = true; user.lastSeen = now`. */
  function MarkOnline(u: User, now: Millis): (r: User)
    ensures r.isOnline && r.lastSeen == now
    ensures r.id == u.id && r.phone == u.phone && r.name == u.name && r.avatar == u.avatar
    ensures r.about == u.about && r.isProfileComplete == u.isProfileComplete
  {
    u.(isOnline := true, lastSeen := now)
  }

  /**
   * The profile fields after `PUT /profile`, before validation: a truthy
   * name replaces the name (through the trim setter), a given about or
   * avatar replaces its field, and the profile becomes complete when the
   * resulting name has at least 2 characters; completion is never undone.
   */
  function ApplyProfile(u: User, name: Option<string>, about: Option<string>, avatar: Option<string>): (r: User)
    ensures r.name == (if name.Some? && name.value != "" then Trim(name.value) else u.name)
    ensures r.about == about.GetOr(u.about) && r.avatar == avatar.GetOr(u.avatar)
    ensures r.isProfileComplete <==> u.isProfileComplete || |r.name| >= MinNameLength
    ensures r.id == u.id && r.phone == u.phone && r.isOnline == u.isOnline && r.lastSeen == u.lastSeen
  {
    var named := if name.Some? && name.value != "" then SetName(u, name.value) else u;
    var edited := named.(about := about.GetOr(named.about), avatar := avatar.GetOr(named.avatar));
    if edited.name != "" && |edited.name| >= MinNameLength then edited.(isProfileComplete := true) else edited
  }

  /** The search filter: never the requester, never an incomplete profile, and the text match when a query is given. */
  predicate SearchHit(u: User, me: ObjectId, query: Option<User -> bool>) {
    u.id != me && u.isProfileComplete && (query.None? || query.value(u))
  }

  /** The user collection: user `i` at position `i`, the phone index unique, every document valid. */
  ghost predicate UsersOk(users: seq<User>) {
    (forall i :: 0 <= i < |users| ==> users[i].id == i)
    && PhonesUnique(users)
    && (forall i :: 0 <= i < |users| ==> ValidUser(users[i]))
  }

  /** Rewriting a valid user in place, keeping its id and phone, keeps the collection consistent. */
  lemma ReplaceKeepsUsersOk(users: seq<User>, i: nat, u: User)
    requires UsersOk(users) && i < |users| && u.id == i && u.phone == users[i].phone && ValidUser(u)
    ensures UsersOk(users[i := u])
  {
    var r := users[i := u];
    forall a, b | 0 <= a < b < |r| && r[a].phone.Some?
      ensures r[a].phone != r[b].phone
    {
      assert r[a].phone == users[a].phone && r[b].phone == users[b].phone;
    }
  }

  /** Appending a valid user with the next id and an unused phone keeps the collection consistent. */
  lemma AppendKeepsUsersOk(users: seq<User>, u: User)
    requires UsersOk(users) && u.id == |users| && ValidUser(u)
    requires u.phone.Some? ==> FindByPhone(users, u.phone.value).None?
    ensures UsersOk(users + [u])
  {
    AppendKeepsPhonesUnique(users, u);
    var r := users + [u];
    assert forall i :: 0 <= i < |users| ==> r[i] == users[i];
  }

  /** The user collection after a login, the user who logged in, and whether it was created. */
  datatype Login = Login(users: seq<User>, user: User, isNewUser: bool)

  /**
   * After a correct code: the user with this phone (compared after the
   * trim setter) is marked online, or a new user is appended and marked
   * online; the collection stays consistent either way.
   */
  function LoginUser(users: seq<User>, phone: string, now: Millis): (r: Login)
    requires UsersOk(users)
    ensures UsersOk(r.users)
    ensures r.user.isOnline && r.user.lastSeen == now && r.user in r.users
    ensures var j := FindByPhone(users, Trim(phone));
      (r.isNewUser <==> j.None?)
      && (j.Some? ==> r.users == users[j.value := MarkOnline(users[j.value], now)] && r.user == r.users[j.value])
      && (j.None? ==> r.users == users + [MarkOnline(NewUser(|users|, phone, now), now)] && r.user == r.users[|users|])
  {
    var key := Trim(phone);
    var j := FindByPhone(users, key);
    if j.Some? then
      var u := MarkOnline(users[j.value], now);
      ReplaceKeepsUsersOk(users, j.value, u);
      assert users[j.value := u][j.value] == u;
      Login(users[j.value := u], u, false)
    else
      var u := MarkOnline(NewUser(|users|, phone, now), now);
      AppendKeepsUsersOk(users, u);
      Login(users + [u], u, true)
  }

  /**
   * What `User.create` leaves when the `save` that marks the user online
   * then throws: a new phone's user is stored with the schema defaults and
   * offline, and an existing user is untouched.
   */
  function CreatedOffline(users: seq<User>, phone: string, now: Millis): (r: seq<User>)
    requires UsersOk(users)
    ensures UsersOk(r)
    ensures FindByPhone(users, Trim(phone)).Some? ==> r == users
    ensures FindByPhone(users, Trim(phone)).None? ==>
      r == users + [NewUser(|users|, phone, now)] && !r[|users|].isOnline && r[|users|].phone == Some(Trim(phone))
  {
    if FindByPhone(users, Trim(phone)).Some? then users
    else
      AppendKeepsUsersOk(users, NewUser(|users|, phone, now));
      users + [NewUser(|users|, phone, now)]
  }

  /**
   * Where `verify-otp` throws: the code lookup, the first write of its
   * branch (deleting the codes, or saving the counted attempt), finding or
   * creating the user, or the save that marks the user online.
   */
  datatype VerifyFault = NoVerifyFault | LookupFails | WriteFails | UserFails | UserSaveFails

  class Auth {
    /** `Otp.hashOtp`: SHA-256 as an uninterpreted deterministic function. */
    const hash: string -> string
    var otps: seq<OtpRecord>
    var nextOtpId: ObjectId
    var users: seq<User>

    ghost predicate Valid()
      reads this
    {
      UsersOk(users)
    }

    constructor (h: string -> string)
      ensures Valid() && hash == h && otps == [] && nextOtpId == 0 && users == []
    {
      hash := h;
      otps, nextOtpId, users := [], 0, [];
    }

    /**
     * The common part of send and resend: every code for the phone is
     * deleted, a new one is stored expiring in 5 minutes, and it is handed
     * to the SMS provider; the reply reports 300 seconds.
     */
    method Issue(phone: string, code: string, now: Millis, fault: IssueFault) returns (reply: AuthReply)
      requires Valid()
      modifies this
      ensures Valid()
      ensures fault == DeleteFails ==> reply == ServerError && otps == old(otps) && nextOtpId == old(nextOtpId)
      ensures fault != DeleteFails ==>
        var kept := DropPhone(old(otps), phone);
        var rec := CreateOtp(old(nextOtpId), phone, HashOtp(hash, code), Some(now + OtpLifetimeMs), now);
        if fault == StoreFails || rec.None? then
          reply == ServerError && otps == kept && nextOtpId == old(nextOtpId)
        else
          otps == kept + [rec.value] && nextOtpId == old(nextOtpId) + 1
          && rec.value.expiresAt == now + OtpLifetimeMs && rec.value.attempts == 0
          && CodesFor(otps, phone) == 1
          && reply == (if fault == DeliveryFails then ServerError else OtpSent(OtpLifetimeSeconds))
      ensures users == old(users)
    {
      if fault == DeleteFails {
        return ServerError;
      }
      otps := DropPhone(otps, phone);
      var rec := CreateOtp(nextOtpId, phone, HashOtp(hash, code), Some(now + OtpLifetimeMs), now);
      if fault == StoreFails || rec.None? {
        return ServerError;
      }
      CodesForNone(otps, phone);
      otps := otps + [rec.value];
      assert otps[..|otps| - 1] == DropPhone(old(otps), phone);
      nextOtpId := nextOtpId + 1;
      reply := if fault == DeliveryFails then ServerError else OtpSent(OtpLifetimeSeconds);
    }

    /** `POST /send-otp`: a missing phone, or one shorter than 10 characters, is refused with 400. */
    method SendOtp(phone: Option<string>, code: string, now: Millis, fault: IssueFault) returns (reply: AuthReply)
      requires Valid()
      modifies this
      ensures Valid()
      ensures phone.None? || |phone.value| < MinPhoneLength ==>
        reply == BadRequest(ValidPhoneRequired) && otps == old(otps) && nextOtpId == old(nextOtpId)
      ensures phone.Some? && |phone.value| >= MinPhoneLength && fault == NoIssueFault
              && HashOtp(hash, code) != "" ==>
        reply == OtpSent(OtpLifetimeSeconds) && CodesFor(otps, phone.value) == 1
        && otps == DropPhone(old(otps), phone.value) + [OtpRecord(old(nextOtpId), phone.value, HashOtp(hash, code), 0, now + OtpLifetimeMs, now)]
      ensures users == old(users)
    {
      if phone.None? || |phone.value| < MinPhoneLength {
        return BadRequest(ValidPhoneRequired);
      }
      reply := Issue(phone.value, code, now, fault);
    }

    /** `POST /resend-otp`: only a missing (or empty) phone is refused; there is no length check. */
    method ResendOtp(phone: Option<string>, code: string, now: Millis, fault: IssueFault) returns (reply: AuthReply)
      requires Valid()
      modifies this
      ensures Valid()
      ensures phone.None? || phone.value == "" ==>
        reply == BadRequest(PhoneRequired) && otps == old(otps) && nextOtpId == old(nextOtpId)
      ensures phone.Some? && phone.value != "" && fault == NoIssueFault && HashOtp(hash, code) != "" ==>
        reply == OtpSent(OtpLifetimeSeconds) && CodesFor(otps, phone.value) == 1
        && otps == DropPhone(old(otps), phone.value) + [OtpRecord(old(nextOtpId), phone.value, HashOtp(hash, code), 0, now + OtpLifetimeMs, now)]
      ensures users == old(users)
    {
      if phone.None? || phone.value == "" {
        return BadRequest(PhoneRequired);
      }
      reply := Issue(phone.value, code, now, fault);
    }

    /**
     * `POST /send-otp` with `rateLimitOtp` in front. A missing or empty
     * phone is the limiter's 400 and changes nothing; a phone past its
     * window's five requests gets 429 and never reaches the codes; any
     * other phone takes a slot of its window, even one the handler then
     * refuses as too short.
     */
    method SendOtpRoute(limiter: RateLimit.Limiter, phone: Option<string>, code: string, now: Millis,
                        fault: IssueFault) returns (reply: AuthReply)
      requires Valid()
      modifies this, limiter
      ensures Valid() && users == old(users)
      ensures phone.None? || phone.value == "" ==>
        reply == BadRequest(PhoneRequired) && limiter.limits == old(limiter.limits)
        && otps == old(otps) && nextOtpId == old(nextOtpId)
      ensures phone.Some? && phone.value != "" ==>
        var p := phone.value;
        var d := RateLimit.Decide(if p in old(limiter.limits) then Some(old(limiter.limits)[p]) else None, now);
        limiter.limits == old(limiter.limits)[p := d.1]
        && (d.0.TooMany? ==>
              reply == TooManyRequests(d.0.retryAfterSeconds) && otps == old(otps) && nextOtpId == old(nextOtpId))
        && (d.0 == RateLimit.Allowed && |p| < MinPhoneLength ==>
              reply == BadRequest(ValidPhoneRequired) && otps == old(otps) && nextOtpId == old(nextOtpId))
        && (d.0 == RateLimit.Allowed && |p| >= MinPhoneLength && fault == NoIssueFault && HashOtp(hash, code) != "" ==>
              reply == OtpSent(OtpLifetimeSeconds) && CodesFor(otps, p) == 1
              && otps == DropPhone(old(otps), p) + [OtpRecord(old(nextOtpId), p, HashOtp(hash, code), 0, now + OtpLifetimeMs, now)])
    {
      var v := limiter.Request(phone, now);
      match v
      case PhoneRequired =>
        reply := BadRequest(PhoneRequired);
      case TooMany(seconds) =>
        reply := TooManyRequests(seconds);
      case Allowed =>
        reply := SendOtp(phone, code, now, fault);
    }

    /**
     * `POST /resend-otp` with `rateLimitOtp` in front: the limiter's 400
     * for a missing phone, 429 past the window's five, and otherwise the
     * handler with the phone's slot taken.
     */
    method ResendOtpRoute(limiter: RateLimit.Limiter, phone: Option<string>, code: string, now: Millis,
                          fault: IssueFault) returns (reply: AuthReply)
      requires Valid()
      modifies this, limiter
      ensures Valid() && users == old(users)
      ensures phone.None? || phone.value == "" ==>
        reply == BadRequest(PhoneRequired) && limiter.limits == old(limiter.limits)
        && otps == old(otps) && nextOtpId == old(nextOtpId)
      ensures phone.Some? && phone.value != "" ==>
        var p := phone.value;
        var d := RateLimit.Decide(if p in old(limiter.limits) then Some(old(limiter.limits)[p]) else None, now);
        limiter.limits == old(limiter.limits)[p := d.1]
        && (d.0.TooMany? ==>
              reply == TooManyRequests(d.0.retryAfterSeconds) && otps == old(otps) && nextOtpId == old(nextOtpId))
        && (d.0 == RateLimit.Allowed && fault == NoIssueFault && HashOtp(hash, code) != "" ==>
              reply == OtpSent(OtpLifetimeSeconds) && CodesFor(otps, p) == 1
              && otps == DropPhone(old(otps), p) + [OtpRecord(old(nextOtpId), p, HashOtp(hash, code), 0, now + OtpLifetimeMs, now)])
    {
      var v := limiter.Request(phone, now);
      match v
      case PhoneRequired =>
        reply := BadRequest(PhoneRequired);
      case TooMany(seconds) =>
        reply := TooManyRequests(seconds);
      case Allowed =>
        reply := ResendOtp(phone, code, now, fault);
    }

    /**
     * `POST /verify-otp`. With the newest live code for the phone:
     *  - 5 failed attempts already: every code for the phone is deleted and
     *    the request fails, even with the right code;
     *  - a wrong code: its attempts go up by one and the reply says how
     *    many remain (`5 - attempts`);
     *  - the right code: every code for the phone is deleted and the user
     *    is found or created (`LoginUser`).
     * `fault` says which store call throws (500): the lookup and a branch's
     * first write leave the store as it was, while a failure finding,
     * creating or saving the user comes after the codes were deleted.
     */
    method VerifyCode(phone: Option<string>, code: Option<string>, now: Millis, fault: VerifyFault)
      returns (reply: AuthReply)
      requires Valid()
      modifies this
      ensures Valid()
      ensures nextOtpId == old(nextOtpId)
      ensures phone.None? || phone.value == "" || code.None? || code.value == "" ==>
        reply == BadRequest(PhoneAndOtpRequired) && otps == old(otps) && users == old(users)
      ensures phone.Some? && phone.value != "" && code.Some? && code.value != "" && fault == LookupFails ==>
        reply == ServerError && otps == old(otps) && users == old(users)
      ensures phone.Some? && phone.value != "" && code.Some? && code.value != "" && fault != LookupFails ==>
        var k := Newest(old(otps), phone.value, now);
        (k.None? ==> reply == BadRequest(ExpiredOrNotFound) && otps == old(otps) && users == old(users))
        && (k.Some? && fault == WriteFails ==> reply == ServerError && otps == old(otps) && users == old(users))
        && (k.Some? && fault != WriteFails && old(otps)[k.value].attempts >= MaxAttempts ==>
              reply == BadRequest(TooManyAttempts) && otps == DropPhone(old(otps), phone.value) && users == old(users))
        && (k.Some? && fault != WriteFails && old(otps)[k.value].attempts < MaxAttempts
              && !VerifyOtp(old(otps)[k.value], hash, code.value) ==>
              otps == old(otps)[k.value := old(otps)[k.value].(attempts := old(otps)[k.value].attempts + 1)]
              && reply == InvalidOtp(MaxAttempts - (old(otps)[k.value].attempts + 1)) && users == old(users))
        && (k.Some? && fault != WriteFails && old(otps)[k.value].attempts < MaxAttempts
              && VerifyOtp(old(otps)[k.value], hash, code.value) ==>
              otps == DropPhone(old(otps), phone.value)
              && (fault == UserFails ==> reply == ServerError && users == old(users))
              && (fault == UserSaveFails ==> reply == ServerError && users == CreatedOffline(old(users), phone.value, now))
              && (fault == NoVerifyFault ==>
                    users == LoginUser(old(users), phone.value, now).users
                    && reply == LoggedIn(LoginUser(old(users), phone.value, now).user,
                                         LoginUser(old(users), phone.value, now).isNewUser)))
    {
      if phone.None? || phone.value == "" || code.None? || code.value == "" {
        return BadRequest(PhoneAndOtpRequired);
      }
      if fault == LookupFails {
        return ServerError;
      }
      var p := phone.value;
      var k := Newest(otps, p, now);
      if k.None? {
        return BadRequest(ExpiredOrNotFound);
      }
      if fault == WriteFails {
        return ServerError;
      }
      var rec := otps[k.value];
      if rec.attempts >= MaxAttempts {
        otps := DropPhone(otps, p);
        return BadRequest(TooManyAttempts);
      }
      if !VerifyOtp(rec, hash, code.value) {
        var bumped := rec.(attempts := rec.attempts + 1);
        otps := otps[k.value := bumped];
        return InvalidOtp(MaxAttempts - bumped.attempts);
      }
      otps := DropPhone(otps, p);
      if fault == UserFails {
        return ServerError;
      }
      if fault == UserSaveFails {
        users := CreatedOffline(users, p, now);
        return ServerError;
      }
      var login := LoginUser(users, p, now);
      users := login.users;
      reply := LoggedIn(login.user, login.isNewUser);
    }

    /**
     * `PUT /profile` for user `me`: the fields change as `ApplyProfile`
     * says, provided the result passes the schema's length limits; an
     * unknown user, a name over 50 or an about over 140 characters, or a
     * store failure is a 500 and nothing changes.
     */
    method UpdateProfile(me: ObjectId, name: Option<string>, about: Option<string>, avatar: Option<string>,
                         dbOk: bool) returns (reply: AuthReply)
      requires Valid()
      modifies this
      ensures Valid()
      ensures me < |old(users)| && dbOk && ValidUser(ApplyProfile(old(users)[me], name, about, avatar)) ==>
        users == old(users)[me := ApplyProfile(old(users)[me], name, about, avatar)]
        && reply == Profile(users[me])
      ensures !(me < |old(users)| && dbOk && ValidUser(ApplyProfile(old(users)[me], name, about, avatar))) ==>
        users == old(users) && reply == ServerError
      ensures me < |old(users)| && old(users)[me].isProfileComplete ==> users[me].isProfileComplete
      ensures otps == old(otps) && nextOtpId == old(nextOtpId)
    {
      if me >= |users| || !dbOk {
        return ServerError;
      }
      var updated := ApplyProfile(users[me], name, about, avatar);
      if !ValidUser(updated) {
        return ServerError;
      }
      ReplaceKeepsUsersOk(users, me, updated);
      users := users[me := updated];
      reply := Profile(updated);
    }

    /**
     * `GET /users?search=`: the users the filter admits, in store order; a
     * regular-expression match on name or phone is the caller-given
     * `query` (absent when the search text is empty).
     */
    function Search(me: ObjectId, query: Option<User -> bool>): (r: seq<User>)
      reads this
      ensures forall u :: u in r ==> u in users && u.id != me && u.isProfileComplete
      ensures forall u :: u in users && SearchHit(u, me, query) ==> u in r
      ensures forall u :: u in r <==> u in users && SearchHit(u, me, query)
      ensures Subsequence(r, users)
    {
      var hit := (u: User) => SearchHit(u, me, query);
      FilterIsSubsequence(users, hit);
      Filter(users, hit)
    }
  }
}
