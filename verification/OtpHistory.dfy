/** Theorems over whole runs of the OTP store: any interleaving of sends, verifies
    and sweeps under a clock that does not run backwards. */
module OtpHistory {
  import opened Otp

  datatype Call =
    | Send(phoneInput: string, code: string)
    | Verify(phoneInput: string, codeInput: string)
    | Sweep

  datatype Event = Event(at: nat, call: Call)

  ghost predicate Monotone(es: seq<Event>) {
    forall i, j :: 0 <= i <= j < |es| ==> es[i].at <= es[j].at
  }

  function Next(store: Store, e: Event): Store {
    match e.call
    case Send(input, code) => AfterSend(store, Digits(input), e.at, code)
    case Verify(input, code) => AfterVerify(store, Digits(input), Trim(code), e.at)
    case Sweep => AfterSweep(store, e.at)
  }

  /** The store before event n. */
  function StoreAt(es: seq<Event>, n: nat): Store
    requires n <= |es|
  {
    if n == 0 then map[] else Next(StoreAt(es, n - 1), es[n - 1])
  }

  /** The `ok` field of the response. */
  function IsOk(store: Store, e: Event): bool {
    match e.call
    case Send(input, _) => SendReplyOf(store, Digits(input), e.at) == Sent
    case Verify(input, code) => VerifyReplyOf(store, Digits(input), Trim(code), e.at) == Verified
    case Sweep => true
  }

  /** Event i compares a code for this phone. */
  predicate Compares(es: seq<Event>, i: nat, phone: string)
    requires i < |es|
  {
    es[i].call.Verify? && Digits(es[i].call.phoneInput) == phone &&
    var reply := VerifyReplyOf(StoreAt(es, i), phone, Trim(es[i].call.codeInput), es[i].at);
    reply.Mismatch? || reply.Verified?
  }

  predicate Succeeds(es: seq<Event>, i: nat, phone: string)
    requires i < |es|
  {
    es[i].call.Verify? && Digits(es[i].call.phoneInput) == phone && IsOk(StoreAt(es, i), es[i])
  }

  /** Event i issues a code for this phone. */
  predicate Issues(es: seq<Event>, i: nat, phone: string)
    requires i < |es|
  {
    es[i].call.Send? && Digits(es[i].call.phoneInput) == phone && IsOk(StoreAt(es, i), es[i])
  }

  function Comparisons(es: seq<Event>, phone: string, lo: nat, hi: nat): nat
    requires lo <= hi <= |es|
  {
    if lo == hi then 0 else Comparisons(es, phone, lo, hi - 1) + if Compares(es, hi - 1, phone) then 1 else 0
  }

  // ----- what every reachable store satisfies -----

  ghost predicate WellFormed(store: Store, now: nat) {
    forall p :: p in store ==>
      store[p].expiresAt == store[p].lastSentAt + 180_000 && store[p].lastSentAt <= now && store[p].attempts <= 5
  }

  lemma {:induction false} AlwaysWellFormed(es: seq<Event>, n: nat, now: nat)
    requires Monotone(es) && n <= |es| && (n > 0 ==> es[n - 1].at <= now)
    ensures WellFormed(StoreAt(es, n), now)
  {
    if n > 0 {
      AlwaysWellFormed(es, n - 1, es[n - 1].at);
    }
  }

  // ----- guess-rate bound -----

  /** After n comparisons since the window opened at time t. */
  ghost predicate WithinRate(store: Store, phone: string, t: nat, now: nat, n: nat) {
    if phone !in store then n <= 5 + 4 * ((now - t) / RESEND_MS)
    else if store[phone].lastSentAt < t then n <= store[phone].attempts
    else n <= 5 + 4 * ((store[phone].lastSentAt - t) / RESEND_MS) + store[phone].attempts
  }

  lemma Minutes(a: nat, b: nat)
    ensures a <= b ==> a / RESEND_MS <= b / RESEND_MS
    ensures a + RESEND_MS <= b ==> a / RESEND_MS + 1 <= b / RESEND_MS
    ensures a + LIFETIME_MS <= b ==> a / RESEND_MS + 3 <= b / RESEND_MS
  {
  }

  lemma SendWithinRate(store: Store, phone: string, target: string, t: nat, now: nat, code: string, n: nat)
    requires WellFormed(store, now) && t <= now && WithinRate(store, phone, t, now, n)
    ensures WithinRate(AfterSend(store, target, now, code), phone, t, now, n)
  {
    if target == phone && SendReplyOf(store, phone, now) == Sent && phone in store && store[phone].lastSentAt >= t {
      Minutes(store[phone].lastSentAt - t, now - t);
    }
  }

  lemma VerifyWithinRate(store: Store, phone: string, target: string, code: string, t: nat, now: nat, n: nat)
    requires WellFormed(store, now) && t <= now && WithinRate(store, phone, t, now, n)
    requires target == phone ==> !VerifyReplyOf(store, phone, code, now).Verified?
    ensures WithinRate(AfterVerify(store, target, code, now), phone, t, now,
                       n + if target == phone && VerifyReplyOf(store, phone, code, now).Mismatch? then 1 else 0)
  {
    if phone in store && store[phone].lastSentAt >= t {
      Minutes(store[phone].lastSentAt - t, now - t);
    }
  }

  lemma SweepWithinRate(store: Store, phone: string, t: nat, now: nat, n: nat)
    requires WellFormed(store, now) && t <= now && WithinRate(store, phone, t, now, n)
    ensures WithinRate(AfterSweep(store, now), phone, t, now, n)
  {
    if phone in store && store[phone].lastSentAt >= t {
      Minutes(store[phone].lastSentAt - t, now - t);
    }
  }

  lemma StartWithinRate(store: Store, phone: string, t: nat, now: nat)
    requires WellFormed(store, now) && t <= now
    ensures WithinRate(store, phone, t, now, 0)
  {
  }

  lemma LaterWithinRate(store: Store, phone: string, t: nat, now: nat, later: nat, n: nat)
    requires t <= now <= later && WithinRate(store, phone, t, now, n)
    ensures WithinRate(store, phone, t, later, n)
  {
    Minutes(now - t, later - t);
  }

  lemma EventWithinRate(es: seq<Event>, i: nat, phone: string, t: nat, n: nat)
    requires i < |es| && t <= es[i].at && WellFormed(StoreAt(es, i), es[i].at) && !Succeeds(es, i, phone)
    requires WithinRate(StoreAt(es, i), phone, t, es[i].at, n)
    ensures WithinRate(StoreAt(es, i + 1), phone, t, es[i].at, n + if Compares(es, i, phone) then 1 else 0)
  {
    hide WithinRate, AfterSend, AfterVerify, AfterSweep, Digits, Trim;
    var e, store := es[i], StoreAt(es, i);
    match e.call
    case Send(input, code) => SendWithinRate(store, phone, Digits(input), t, e.at, code, n);
    case Verify(input, code) => VerifyWithinRate(store, phone, Digits(input), Trim(code), t, e.at, n);
    case Sweep => SweepWithinRate(store, phone, t, e.at, n);
  }

  lemma {:induction false} WindowWithinRate(es: seq<Event>, phone: string, lo: nat, hi: nat, t: nat, now: nat)
    requires Monotone(es) && lo <= hi <= |es|
    requires t <= now && (lo < hi ==> t <= es[lo].at) && (hi > 0 ==> es[hi - 1].at <= now)
    requires forall i :: lo <= i < hi ==> !Succeeds(es, i, phone)
    ensures WithinRate(StoreAt(es, hi), phone, t, now, Comparisons(es, phone, lo, hi))
    decreases hi
  {
    hide WithinRate, WellFormed, Next;
    AlwaysWellFormed(es, hi, now);
    if lo < hi {
      var e := es[hi - 1];
      assert t <= es[lo].at <= e.at;
      WindowWithinRate(es, phone, lo, hi - 1, t, e.at);
      AlwaysWellFormed(es, hi - 1, e.at);
      assert !Succeeds(es, hi - 1, phone);
      EventWithinRate(es, hi - 1, phone, t, Comparisons(es, phone, lo, hi - 1));
      LaterWithinRate(StoreAt(es, hi), phone, t, e.at, now, Comparisons(es, phone, lo, hi));
    } else {
      StartWithinRate(StoreAt(es, hi), phone, t, now);
    }
  }

  /** In any window of w milliseconds without a successful verification, at most
      10 + 4 * (w / 60000) codes are compared for a phone. */
  lemma GuessRateBound(es: seq<Event>, phone: string, lo: nat, hi: nat, t: nat, w: nat)
    requires Monotone(es) && lo <= hi <= |es|
    requires forall i :: lo <= i < hi ==> t <= es[i].at <= t + w && !Succeeds(es, i, phone)
    ensures Comparisons(es, phone, lo, hi) <= 10 + 4 * (w / 60_000)
  {
    if lo < hi {
      var now := es[hi - 1].at;
      WindowWithinRate(es, phone, lo, hi, t, now);
      AlwaysWellFormed(es, hi, now);
      Minutes(now - t, w);
      var store := StoreAt(es, hi);
      if phone in store && store[phone].lastSentAt >= t {
        Minutes(store[phone].lastSentAt - t, now - t);
      }
    }
  }

  // ----- one-time use -----

  /** Event i issued the code that the store holds before event n. */
  ghost predicate IssueOf(es: seq<Event>, i: nat, n: nat, phone: string) {
    i < n <= |es| && Issues(es, i, phone) && phone in StoreAt(es, n) &&
    StoreAt(es, n)[phone].code == es[i].call.code &&
    StoreAt(es, n)[phone].lastSentAt == es[i].at &&
    StoreAt(es, n)[phone].expiresAt == es[i].at + 180_000 &&
    StoreAt(es, n)[phone].attempts == Comparisons(es, phone, i + 1, n) <= 5 &&
    forall k :: i < k < n ==> !Issues(es, k, phone) && !Succeeds(es, k, phone)
  }

  /** A record that was not just issued was there before, but for the attempt. */
  lemma RecordKept(es: seq<Event>, n: nat, phone: string)
    requires n < |es| && phone in StoreAt(es, n + 1) && !Issues(es, n, phone)
    ensures phone in StoreAt(es, n) && !Succeeds(es, n, phone)
    ensures var rec, rec' := StoreAt(es, n)[phone], StoreAt(es, n + 1)[phone];
            rec' == rec.(attempts := rec'.attempts) &&
            rec'.attempts == rec.attempts + (if Compares(es, n, phone) then 1 else 0) && (rec.attempts <= MAX_ATTEMPTS ==> rec'.attempts <= MAX_ATTEMPTS)
  {
  }

  lemma IssuedNow(es: seq<Event>, i: nat, phone: string)
    requires i < |es| && Issues(es, i, phone)
    ensures IssueOf(es, i, i + 1, phone)
  {
    hide Succeeds, Compares;
  }

  lemma {:induction false} EveryCodeWasIssued(es: seq<Event>, n: nat, phone: string) returns (i: nat)
    requires n <= |es| && phone in StoreAt(es, n)
    ensures IssueOf(es, i, n, phone)
  {
    hide Issues, Succeeds, Compares, Next;
    if Issues(es, n - 1, phone) {
      i := n - 1;
      IssuedNow(es, i, phone);
    } else {
      RecordKept(es, n - 1, phone);
      i := EveryCodeWasIssued(es, n - 1, phone);
    }
  }

  /** Each comparison is against the latest code issued for the phone, which is at most
      180 s old, has not been used before and is compared for at most the fifth time. It
      succeeds exactly when the code is the issued one, and then the code is gone. */
  lemma OneTimeUse(es: seq<Event>, j: nat, phone: string) returns (i: nat)
    requires j < |es| && Compares(es, j, phone)
    ensures i < j && Issues(es, i, phone) && es[j].at <= es[i].at + 180_000
    ensures forall k :: i < k < j ==> !Issues(es, k, phone) && !Succeeds(es, k, phone)
    ensures Comparisons(es, phone, i + 1, j + 1) <= 5
    ensures Succeeds(es, j, phone) <==> Trim(es[j].call.codeInput) == es[i].call.code
    ensures Succeeds(es, j, phone) ==> phone !in StoreAt(es, j + 1)
  {
    i := EveryCodeWasIssued(es, j, phone);
  }

  // ----- the sweep cannot be noticed -----

  function WithoutSweeps(es: seq<Event>): seq<Event> {
    if es == [] then []
    else (if es[0].call.Sweep? then [] else [es[0]]) + WithoutSweeps(es[1..])
  }

  /** The `ok` results of the sends and verifies, in order. */
  function Oks(store: Store, es: seq<Event>): seq<bool>
    decreases es
  {
    if es == [] then []
    else (if es[0].call.Sweep? then [] else [IsOk(store, es[0])]) + Oks(Next(store, es[0]), es[1..])
  }

  /** Alike, but for records of the second store that have expired. */
  ghost predicate Alike(store: Store, full: Store, now: nat) {
    && (forall p :: p in store ==> p in full && full[p] == store[p])
    && (forall p :: p in full && p !in store ==> full[p].expiresAt < now)
  }

  lemma StepsAlike(store: Store, full: Store, e: Event, now: nat)
    requires Alike(store, full, now) && now <= e.at && WellFormed(full, now)
    ensures WellFormed(full, e.at) && WellFormed(Next(full, e), e.at)
    ensures e.call.Sweep? ==> Alike(Next(store, e), full, e.at)
    ensures !e.call.Sweep? ==> IsOk(store, e) == IsOk(full, e) && Alike(Next(store, e), Next(full, e), e.at)
  {
  }

  lemma {:induction false} SweepsUnnoticed(store: Store, full: Store, es: seq<Event>, now: nat)
    requires Alike(store, full, now) && WellFormed(full, now)
    requires Monotone(es) && (es != [] ==> now <= es[0].at)
    ensures Oks(store, es) == Oks(full, WithoutSweeps(es))
    decreases es
  {
    if es != [] {
      var e := es[0];
      StepsAlike(store, full, e, now);
      var rest := es[1..];
      assert forall i :: 0 <= i < |rest| ==> rest[i] == es[i + 1];
      if e.call.Sweep? {
        SweepsUnnoticed(Next(store, e), full, rest, e.at);
        assert WithoutSweeps(es) == WithoutSweeps(rest);
      } else {
        SweepsUnnoticed(Next(store, e), Next(full, e), rest, e.at);
        assert WithoutSweeps(es) == [e] + WithoutSweeps(rest);
      }
    }
  }

  /** Inserting or removing sweeps anywhere never changes the outcome of any call. */
  lemma SweepInvisible(es1: seq<Event>, es2: seq<Event>)
    requires Monotone(es1) && Monotone(es2) && WithoutSweeps(es1) == WithoutSweeps(es2)
    ensures Oks(map[], es1) == Oks(map[], es2)
  {
    SweepsUnnoticed(map[], map[], es1, 0);
    SweepsUnnoticed(map[], map[], es2, 0);
  }
}
