/** The phone one-time-password store of the auth controller. */
module Otp {
  const RESEND_MS := 60_000
  const LIFETIME_MS := 180_000
  const MAX_ATTEMPTS := 5

  datatype OtpRecord = OtpRecord(code: string, expiresAt: nat, attempts: nat, lastSentAt: nat)

  type Store = map<string, OtpRecord>

  // ----- input normalisation -----

  predicate IsDigit(c: char) {
    '0' <= c <= '9'
  }

  /** replace(/[^0-9]/g, '') */
  function Digits(s: string): string {
    if s == "" then "" else (if IsDigit(s[0]) then [s[0]] else "") + Digits(s[1..])
  }

  /** /^01[0-9]{8,9}$/ on a string of digits */
  predicate MobileNumber(phone: string) {
    10 <= |phone| <= 11 && phone[0] == '0' && phone[1] == '1'
  }

  /** What trim() strips. */
  predicate IsSpace(c: char) {
    c in " \t\n\r" || c in "\U{000B}\U{000C}\U{00A0}\U{FEFF}\U{1680}\U{2028}\U{2029}\U{202F}\U{205F}\U{3000}" ||
    '\U{2000}' <= c <= '\U{200A}'
  }

  function TrimStart(s: string): string {
    if s != "" && IsSpace(s[0]) then TrimStart(s[1..]) else s
  }

  function TrimEnd(s: string): string {
    if s != "" && IsSpace(s[|s| - 1]) then TrimEnd(s[..|s| - 1]) else s
  }

  function Trim(s: string): string {
    TrimEnd(TrimStart(s))
  }

  // ----- the three operations on a store -----

  datatype SendReply = BadPhone | CoolingDown(seconds: int) | Blocked | Sent

  datatype VerifyReply = MissingInput | NeverSent | Expired | TooManyAttempts | Mismatch(left: int) | Verified

  function SendReplyOf(store: Store, phone: string, now: nat): SendReply {
    if !MobileNumber(phone) then BadPhone
    else if phone in store && now - store[phone].lastSentAt < RESEND_MS then
      CoolingDown((RESEND_MS - (now - store[phone].lastSentAt) + 999) / 1000)
    else if phone in store && store[phone].expiresAt > now && store[phone].attempts >= MAX_ATTEMPTS then Blocked
    else Sent
  }

  function AfterSend(store: Store, phone: string, now: nat, code: string): Store {
    if SendReplyOf(store, phone, now) == Sent then store[phone := OtpRecord(code, now + LIFETIME_MS, 0, now)] else store
  }

  function VerifyReplyOf(store: Store, phone: string, code: string, now: nat): VerifyReply {
    if phone == "" || code == "" then MissingInput
    else if phone !in store then NeverSent
    else if now > store[phone].expiresAt then Expired
    else if store[phone].attempts >= MAX_ATTEMPTS then TooManyAttempts
    else if store[phone].code != code then Mismatch(MAX_ATTEMPTS - (store[phone].attempts + 1))
    else Verified
  }

  function AfterVerify(store: Store, phone: string, code: string, now: nat): Store {
    match VerifyReplyOf(store, phone, code, now)
    case Expired => store - {phone}
    case Verified => store - {phone}
    case Mismatch(_) => store[phone := store[phone].(attempts := store[phone].attempts + 1)]
    case _ => store
  }

  function AfterSweep(store: Store, now: nat): Store {
    map phone | phone in store && !(store[phone].expiresAt < now) :: store[phone]
  }

  class AuthController {
    var otpStore: Store

    constructor ()
      ensures otpStore == map[]
    {
      otpStore := map[];
    }

    method SendPhoneOtp(phoneInput: string, now: nat, code: string) returns (reply: SendReply)
      modifies this
      ensures reply == SendReplyOf(old(otpStore), Digits(phoneInput), now)
      ensures otpStore == AfterSend(old(otpStore), Digits(phoneInput), now, code)
      ensures reply.CoolingDown? && (forall p <- old(otpStore) :: old(otpStore)[p].lastSentAt <= now) ==> 1 <= reply.seconds <= 60
    {
      var phone := Digits(phoneInput);
      if !MobileNumber(phone) {
        return BadPhone;
      }
      if phone in otpStore {
        var existing := otpStore[phone];
        if now - existing.lastSentAt < RESEND_MS {
          return CoolingDown((RESEND_MS - (now - existing.lastSentAt) + 999) / 1000);
        }
        if existing.expiresAt > now && existing.attempts >= MAX_ATTEMPTS {
          return Blocked;
        }
      }
      otpStore := otpStore[phone := OtpRecord(code, now + LIFETIME_MS, 0, now)];
      return Sent;
    }

    method VerifyPhoneOtp(phoneInput: string, codeInput: string, now: nat) returns (reply: VerifyReply)
      modifies this
      ensures reply == VerifyReplyOf(old(otpStore), Digits(phoneInput), Trim(codeInput), now)
      ensures otpStore == AfterVerify(old(otpStore), Digits(phoneInput), Trim(codeInput), now)
    {
      var phone, code := Digits(phoneInput), Trim(codeInput);
      if phone == "" || code == "" {
        return MissingInput;
      }
      if phone !in otpStore {
        return NeverSent;
      }
      var rec := otpStore[phone];
      if now > rec.expiresAt {
        otpStore := otpStore - {phone};
        return Expired;
      }
      if rec.attempts >= MAX_ATTEMPTS {
        return TooManyAttempts;
      }
      rec := rec.(attempts := rec.attempts + 1);
      otpStore := otpStore[phone := rec];
      if rec.code != code {
        return Mismatch(MAX_ATTEMPTS - rec.attempts);
      }
      otpStore := otpStore - {phone};
      return Verified;
    }

    /** The one-minute timer: one pass over the entries. */
    method Sweep(now: nat)
      modifies this
      ensures otpStore == AfterSweep(old(otpStore), now)
    {
      var entries := otpStore;
      var pending := entries.Keys;
      while pending != {}
        invariant pending <= entries.Keys
        invariant otpStore == map p | p in entries && (p in pending || !(entries[p].expiresAt < now)) :: entries[p]
        decreases pending
      {
        var key :| key in pending;
        if entries[key].expiresAt < now {
          otpStore := otpStore - {key};
        }
        pending := pending - {key};
      }
    }
  }
}
