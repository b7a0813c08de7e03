/** The one-time-password login of the Go API (`RequestOTP`, `VerifyOTP`): an in-memory
    store from phone number to the issued code and its expiry.

    The users table, the clock (in nanoseconds, the resolution of Go's `time.Time`), the
    random draw and the token signer are parameters; a database failure is a flag. */
module Otp {
  import opened Options
  import opened Text

  /** Five minutes, in nanoseconds. */
  const OtpLifetime: int := 5 * 60 * 1_000_000_000
  /** `rand.Intn(1000000)` draws below this bound. */
  const CodeSpace: nat := 1_000_000

  datatype OtpData = OtpData(code: string, expiresAt: int)

  /** A row of the `users` table, as far as OTP login reads it. */
  datatype User = User(id: string, mobile: string, name: string, role: string)

  datatype RequestReply =
    | OtpIssued(code: string)                         // 200, the code is echoed for the demo
    | RequestRejected(status: nat, error: string)

  datatype VerifyReply =
    | LoggedIn(token: string, role: string, name: string)   // 200
    | VerifyRejected(status: nat, error: string)

  /** `fmt.Sprintf("%06d", n)` for a draw of `rand.Intn(1000000)`: six decimal digits, zero
      padded, whose value is the draw. */
  function FormatCode(n: nat): (code: string)
    requires n < CodeSpace
    ensures |code| == 6 && AllDigits(code) && DigitsValue(code) == n
  {
    NatToStringWidth(n, 6);
    NatToStringValue(n);
    var digits := NatToString(n);
    LeadingZeros(Repeat('0', 6 - |digits|), digits);
    Repeat('0', 6 - |digits|) + digits
  }

  /** `SELECT EXISTS(... WHERE mobile_number = phone AND role = role)`. */
  predicate HasUser(users: seq<User>, phone: string, role: string) {
    exists i :: 0 <= i < |users| && users[i].mobile == phone && users[i].role == role
  }

  /** The row `SELECT ... WHERE mobile_number = phone AND role = role` scans: the first
      matching user, or none (`sql.ErrNoRows`). */
  function FindUser(users: seq<User>, phone: string, role: string): (u: Option<User>)
    ensures u.Some? ==> u.value in users && u.value.mobile == phone && u.value.role == role
    ensures u.None? <==> !HasUser(users, phone, role)
  {
    if users == [] then None
    else if users[0].mobile == phone && users[0].role == role then Some(users[0])
    else
      var rest := FindUser(users[1..], phone, role);
      assert HasUser(users, phone, role) ==> (users[0].mobile == phone && users[0].role == role) || HasUser(users[1..], phone, role) by {
        if HasUser(users, phone, role) {
          var i :| 0 <= i < |users| && users[i].mobile == phone && users[i].role == role;
          if i > 0 { assert users[1..][i - 1] == users[i]; }
        }
      }
      if rest.Some? then
        assert users[1..][0] in users;
        rest
      else None
  }

  /** The package-level `otpStore` and the two handlers that use it. */
  class OtpService {
    var store: map<string, OtpData>

    constructor ()
      ensures store == map[]
    {
      store := map[];
    }

    /** `RequestOTP`: a request missing the phone or the role is rejected with 400; a
        database failure gives 500 and a phone without a user of that role gives 404, both
        leaving the store as it was. Otherwise a fresh code, valid for five minutes,
        replaces whatever the store held for the phone. */
    method RequestOtp(phone: string, role: string, users: seq<User>, dbFails: bool, now: int, draw: nat)
      returns (reply: RequestReply)
      requires draw < CodeSpace
      modifies this
      ensures phone == "" || role == "" ==> reply == RequestRejected(400, "Invalid request format") && store == old(store)
      ensures phone != "" && role != "" && dbFails ==> reply == RequestRejected(500, "Database error") && store == old(store)
      ensures phone != "" && role != "" && !dbFails && !HasUser(users, phone, role) ==>
        reply == RequestRejected(404, "User not found with specified role") && store == old(store)
      ensures phone != "" && role != "" && !dbFails && HasUser(users, phone, role) ==>
        && reply == OtpIssued(FormatCode(draw))
        && store == old(store)[phone := OtpData(FormatCode(draw), now + OtpLifetime)]
    {
      if phone == "" || role == "" {
        return RequestRejected(400, "Invalid request format");
      }
      if dbFails {
        return RequestRejected(500, "Database error");
      }
      if !HasUser(users, phone, role) {
        return RequestRejected(404, "User not found with specified role");
      }
      var code := FormatCode(draw);
      store := store[phone := OtpData(code, now + OtpLifetime)];
      reply := OtpIssued(code);
    }

    /** `VerifyOTP`: with no code stored for the phone the store is untouched; an expired
        code (strictly past its expiry) is deleted; a wrong code is kept for a retry; a
        right code is deleted BEFORE the user is looked up, so it cannot be used twice even
        when the lookup or the signing then fails. The store is keyed by phone alone: the
        role of the request plays no part until the lookup. */
    method VerifyOtp(phone: string, code: string, role: string, users: seq<User>, dbFails: bool, now: int,
                     sign: (string, string) -> Option<string>)
      returns (reply: VerifyReply)
      modifies this
      ensures phone == "" || code == "" || role == "" ==>
        reply == VerifyRejected(400, "Invalid request format") && store == old(store)
      ensures phone != "" && code != "" && role != "" && phone !in old(store) ==>
        reply == VerifyRejected(401, "No OTP found for this number") && store == old(store)
      ensures phone != "" && code != "" && role != "" && phone in old(store) && now > old(store)[phone].expiresAt ==>
        reply == VerifyRejected(401, "OTP expired") && store == old(store) - {phone}
      ensures phone != "" && code != "" && role != "" && phone in old(store) && now <= old(store)[phone].expiresAt
              && old(store)[phone].code != code ==>
        reply == VerifyRejected(401, "Invalid OTP") && store == old(store)
      ensures phone != "" && code != "" && role != "" && phone in old(store) && now <= old(store)[phone].expiresAt
              && old(store)[phone].code == code ==>
        && store == old(store) - {phone}
        && reply == (
             if dbFails then VerifyRejected(500, "Database error")
             else match FindUser(users, phone, role)
               case None => VerifyRejected(401, "User not found")
               case Some(u) =>
                 match sign(u.id, u.role)
                 case None => VerifyRejected(500, "Could not generate token")
                 case Some(token) => LoggedIn(token, u.role, u.name))
      ensures reply.LoggedIn? ==> phone in old(store) && old(store)[phone].code == code && phone !in store
    {
      if phone == "" || code == "" || role == "" {
        return VerifyRejected(400, "Invalid request format");
      }
      if phone !in store {
        return VerifyRejected(401, "No OTP found for this number");
      }
      var stored := store[phone];
      if now > stored.expiresAt {
        store := store - {phone};
        return VerifyRejected(401, "OTP expired");
      }
      if stored.code != code {
        return VerifyRejected(401, "Invalid OTP");
      }
      store := store - {phone};
      if dbFails {
        return VerifyRejected(500, "Database error");
      }
      var user := FindUser(users, phone, role);
      if user.None? {
        return VerifyRejected(401, "User not found");
      }
      var token := sign(user.value.id, user.value.role);
      if token.None? {
        return VerifyRejected(500, "Could not generate token");
      }
      reply := LoggedIn(token.value, user.value.role, user.value.name);
    }
  }

  /** A code is single-use: after a verify that accepted it, the same verify again finds
      no code for the phone, whatever the outcome of the first one's lookup. */
  method CodeIsSingleUse(svc: OtpService, phone: string, code: string, role: string, users: seq<User>,
                         dbFails: bool, now: int, sign: (string, string) -> Option<string>)
    requires phone != "" && code != "" && role != ""
    requires phone in svc.store && svc.store[phone].code == code && now <= svc.store[phone].expiresAt
    modifies svc
    ensures phone !in svc.store
  {
    var first := svc.VerifyOtp(phone, code, role, users, dbFails, now, sign);
    var second := svc.VerifyOtp(phone, code, role, users, dbFails, now, sign);
    assert second == VerifyRejected(401, "No OTP found for this number");
  }

  /** A code issued to a phone under one role is consumed by a verify naming another role:
      the store does not record the role. */
  method CodeIgnoresRole(svc: OtpService, phone: string, roleAsked: string, roleGiven: string, users: seq<User>,
                         now: int, draw: nat, sign: (string, string) -> Option<string>)
    requires phone != "" && roleAsked != "" && roleGiven != "" && draw < CodeSpace
    requires HasUser(users, phone, roleAsked)
    modifies svc
    ensures phone !in svc.store
  {
    var issued := svc.RequestOtp(phone, roleAsked, users, false, now, draw);
    var reply := svc.VerifyOtp(phone, FormatCode(draw), roleGiven, users, false, now, sign);
  }
}
