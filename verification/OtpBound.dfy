/** The guess-rate bound is met: a run for every number of minutes. */
module OtpBound {
  import opened Otp
  import opened OtpHistory

  const PHONE := "0100000000"

  lemma {:induction false} AllDigits(s: string)
    requires forall i :: 0 <= i < |s| ==> IsDigit(s[i])
    ensures Digits(s) == s
  {
    if s != "" {
      AllDigits(s[1..]);
      assert s == [s[0]] + s[1..];
    }
  }

  lemma Inputs()
    ensures Digits(PHONE) == PHONE && MobileNumber(PHONE) && Trim("x") == "x"
  {
    hide Digits;
    AllDigits(PHONE);
    assert TrimStart("x") == "x" && TrimEnd("x") == "x";
  }

  // ----- one event more -----

  lemma {:induction false} PrefixStore(es: seq<Event>, e: Event, n: nat)
    requires n <= |es|
    ensures StoreAt(es + [e], n) == StoreAt(es, n)
  {
    if n > 0 {
      PrefixStore(es, e, n - 1);
    }
  }

  lemma {:induction false} PrefixComparisons(es: seq<Event>, e: Event, lo: nat, hi: nat)
    requires lo <= hi <= |es|
    ensures Comparisons(es + [e], PHONE, lo, hi) == Comparisons(es, PHONE, lo, hi)
  {
    if lo < hi {
      PrefixComparisons(es, e, lo, hi - 1);
      PrefixStore(es, e, hi - 1);
    }
  }

  /** Where the run stands: the window began with event lo at time t; now it is `now`, the
      code in the store was sent at `sentAt` and compared `attempts` times, and n codes
      have been compared since the window began. */
  ghost predicate Stands(es: seq<Event>, lo: nat, t: nat, now: nat, sentAt: nat, attempts: nat, n: nat) {
    && lo <= |es| && Monotone(es) && (forall i :: 0 <= i < |es| ==> es[i].at <= now)
    && (forall i :: lo <= i < |es| ==> t <= es[i].at && !Succeeds(es, i, PHONE))
    && StoreAt(es, |es|) == map[PHONE := OtpRecord("c", sentAt + LIFETIME_MS, attempts, sentAt)]
    && Comparisons(es, PHONE, lo, |es|) == n
  }

  /** One event on, whatever it is, if it does not succeed. */
  lemma Appended(es: seq<Event>, e: Event, lo: nat, t: nat, now: nat, sentAt: nat, attempts: nat, n: nat)
    requires Stands(es, lo, t, now, sentAt, attempts, n) && t <= now <= e.at
    requires !Succeeds(es + [e], |es|, PHONE)
    ensures var es' := es + [e];
            && lo <= |es'| && Monotone(es') && (forall i :: 0 <= i < |es'| ==> es'[i].at <= e.at)
            && (forall i :: lo <= i < |es'| ==> t <= es'[i].at && !Succeeds(es', i, PHONE))
            && StoreAt(es', |es'|) == Next(StoreAt(es, |es|), e)
            && Comparisons(es', PHONE, lo, |es'|) == n + (if Compares(es', |es|, PHONE) then 1 else 0)
  {
    var es' := es + [e];
    PrefixStore(es, e, |es|);
    PrefixComparisons(es, e, lo, |es|);
    hide Next, IsOk, Compares;
    forall i | lo <= i < |es'| ensures t <= es'[i].at && !Succeeds(es', i, PHONE) {
      if i < |es| {
        PrefixStore(es, e, i);
        assert !Succeeds(es, i, PHONE);
      }
    }
  }

  /** A wrong code, compared. */
  lemma GuessOnce(es: seq<Event>, lo: nat, t: nat, now: nat, sentAt: nat, attempts: nat, n: nat) returns (es': seq<Event>)
    requires Stands(es, lo, t, now, sentAt, attempts, n) && t <= now <= sentAt + LIFETIME_MS && attempts < MAX_ATTEMPTS
    ensures |es'| == |es| + 1 && Stands(es', lo, t, now, sentAt, attempts + 1, n + 1)
  {
    var e := Event(now, Verify(PHONE, "x"));
    es' := es + [e];
    Inputs();
    hide Digits, Trim;
    PrefixStore(es, e, |es|);
    assert "x" != "c";
    Appended(es, e, lo, t, now, sentAt, attempts, n);
  }

  /** The code is sent again: the cooldown is over and the record not blocked. */
  lemma SendAgain(es: seq<Event>, lo: nat, t: nat, now: nat, at: nat, sentAt: nat, attempts: nat, n: nat) returns (es': seq<Event>)
    requires Stands(es, lo, t, now, sentAt, attempts, n) && t <= now <= at && sentAt + RESEND_MS <= at
    requires attempts < MAX_ATTEMPTS || sentAt + LIFETIME_MS <= at
    ensures |es'| == |es| + 1 && Stands(es', lo, t, at, at, 0, n)
  {
    var e := Event(at, Send(PHONE, "c"));
    es' := es + [e];
    Inputs();
    hide Digits;
    PrefixStore(es, e, |es|);
    Appended(es, e, lo, t, now, sentAt, attempts, n);
    assert Next(StoreAt(es, |es|), e) == map[PHONE := OtpRecord("c", at + LIFETIME_MS, 0, at)];
  }

  lemma {:induction false} Guesses(m: nat, es: seq<Event>, lo: nat, t: nat, now: nat, sentAt: nat, attempts: nat, n: nat) returns (es': seq<Event>)
    requires Stands(es, lo, t, now, sentAt, attempts, n) && t <= now <= sentAt + LIFETIME_MS && attempts + m <= MAX_ATTEMPTS
    ensures Stands(es', lo, t, now, sentAt, attempts + m, n + m)
    decreases m
  {
    hide Stands;
    if m == 0 {
      es' := es;
    } else {
      es' := GuessOnce(es, lo, t, now, sentAt, attempts, n);
      es' := Guesses(m - 1, es', lo, t, now, sentAt, attempts + 1, n + 1);
    }
  }

  // ----- the run -----

  lemma FirstCode() returns (es: seq<Event>)
    ensures |es| == 1 && Stands(es, 1, LIFETIME_MS, LIFETIME_MS, 0, 0, 0)
  {
    var e := Event(0, Send(PHONE, "c"));
    es := [e];
    Inputs();
    hide Digits;
    assert StoreAt(es, 0) == map[];
    assert StoreAt(es, 1) == Next(StoreAt(es, 0), e);
  }

  /** After k minutes of four guesses and a resend each, on top of five guesses at the last
      moment of the first code. */
  lemma {:induction false} Minutes(k: nat) returns (es: seq<Event>)
    ensures Stands(es, 1, LIFETIME_MS, LIFETIME_MS + k * RESEND_MS, LIFETIME_MS + k * RESEND_MS, 0, 5 + 4 * k)
  {
    hide Stands;
    if k == 0 {
      es := FirstCode();
      es := Guesses(5, es, 1, LIFETIME_MS, LIFETIME_MS, 0, 0, 0);
      es := SendAgain(es, 1, LIFETIME_MS, LIFETIME_MS, LIFETIME_MS, 0, 5, 5);
    } else {
      var now := LIFETIME_MS + (k - 1) * RESEND_MS;
      es := Minutes(k - 1);
      es := Guesses(4, es, 1, LIFETIME_MS, now, now, 0, 5 + 4 * (k - 1));
      es := SendAgain(es, 1, LIFETIME_MS, now, now + RESEND_MS, now, 4, 5 + 4 * k);
    }
  }

  /** For every k there is a window of k minutes, without a successful verification, in
      which 10 + 4 * k codes are compared for one phone. */
  lemma BoundIsMet(k: nat) returns (es: seq<Event>, lo: nat, t: nat)
    ensures Monotone(es) && lo <= |es|
    ensures forall i :: lo <= i < |es| ==> t <= es[i].at <= t + k * 60_000 && !Succeeds(es, i, PHONE)
    ensures Comparisons(es, PHONE, lo, |es|) == 10 + 4 * ((k * 60_000) / 60_000)
  {
    lo, t := 1, LIFETIME_MS;
    var now := LIFETIME_MS + k * RESEND_MS;
    es := Minutes(k);
    es := Guesses(5, es, lo, t, now, now, 0, 5 + 4 * k);
  }
}
