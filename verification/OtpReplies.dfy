/** The answers of the OTP store, read off the calls made before. */
module OtpReplies {
  import opened Otp
  import opened OtpHistory

  /** Event k enters a code for this phone, right or wrong. */
  predicate Tries(e: Event, phone: string) {
    e.call.Verify? && Digits(e.call.phoneInput) == phone != "" && Trim(e.call.codeInput) != ""
  }

  function TryCount(es: seq<Event>, phone: string, lo: nat, hi: nat): nat
    requires lo <= hi <= |es|
  {
    if lo == hi then 0 else TryCount(es, phone, lo, hi - 1) + if Tries(es[hi - 1], phone) then 1 else 0
  }

  /** Event i issued the last code before event n, and it has not been used. */
  ghost predicate Outstanding(es: seq<Event>, i: nat, n: nat, phone: string) {
    i < n <= |es| && Issues(es, i, phone) && forall k :: i < k < n ==> !Issues(es, k, phone) && !Succeeds(es, k, phone)
  }

  /** A sweep, or a code entered for the phone, more than 180 s after event i. */
  ghost predicate Noticed(es: seq<Event>, i: nat, n: nat, phone: string)
    requires i < n <= |es|
  {
    exists k :: i < k < n && es[k].at > es[i].at + 180_000 && (es[k].call.Sweep? || Tries(es[k], phone))
  }

  function AtMostFive(n: nat): nat {
    if n < 5 then n else 5
  }

  // ----- what is read of the input -----

  /** The digits and nothing else, in their order. */
  lemma {:induction false} DigitsOf(s: string, t: string)
    ensures Digits(s + t) == Digits(s) + Digits(t)
    ensures |s| == 1 ==> Digits(s) == if '0' <= s[0] <= '9' then s else ""
  {
    if s == "" {
      assert s + t == t;
    } else {
      DigitsOf(s[1..], t);
      assert (s + t)[1..] == s[1..] + t;
      assert (s + t)[0] == s[0];
    }
  }

  /** White space is cut off at both ends, and only there. */
  lemma TrimOf(s: string) returns (before: string, after: string)
    ensures s == before + Trim(s) + after
    ensures forall c :: c in before || c in after ==> IsSpace(c)
    ensures Trim(s) != "" ==> !IsSpace(Trim(s)[0]) && !IsSpace(Trim(s)[|Trim(s)| - 1])
  {
    hide IsSpace;
    before := StartOf(s);
    after := EndOf(TrimStart(s));
  }

  lemma {:induction false} StartOf(s: string) returns (before: string)
    ensures s == before + TrimStart(s) && forall c :: c in before ==> IsSpace(c)
    ensures TrimStart(s) != "" ==> !IsSpace(TrimStart(s)[0])
  {
    hide IsSpace;
    before := "";
    if s != "" && IsSpace(s[0]) {
      before := StartOf(s[1..]);
      before := [s[0]] + before;
    }
  }

  lemma {:induction false} EndOf(s: string) returns (after: string)
    ensures s == TrimEnd(s) + after && forall c :: c in after ==> IsSpace(c)
    ensures TrimEnd(s) != "" ==> !IsSpace(TrimEnd(s)[|TrimEnd(s)| - 1]) && TrimEnd(s)[0] == s[0]
  {
    hide IsSpace;
    after := "";
    if s != "" && IsSpace(s[|s| - 1]) {
      after := EndOf(s[..|s| - 1]);
      after := after + [s[|s| - 1]];
    }
  }

  // ----- the store, read off the calls -----

  /** The record that the code issued by event i has before event n. */
  ghost predicate Holds(es: seq<Event>, i: nat, n: nat, phone: string)
    requires i < n <= |es| && es[i].call.Send?
  {
    if Noticed(es, i, n, phone) then phone !in StoreAt(es, n)
    else phone in StoreAt(es, n) && StoreAt(es, n)[phone] ==
         OtpRecord(es[i].call.code, es[i].at + 180_000, AtMostFive(TryCount(es, phone, i + 1, n)), es[i].at)
  }

  lemma NoticedNext(es: seq<Event>, i: nat, n: nat, phone: string)
    requires i < n < |es|
    ensures Noticed(es, i, n + 1, phone) <==>
            Noticed(es, i, n, phone) || (es[n].at > es[i].at + 180_000 && (es[n].call.Sweep? || Tries(es[n], phone)))
  {
    hide Tries;
  }

  /** What one call does to a record that it neither replaces nor uses up. */
  lemma RecordStep(store: Store, e: Event, phone: string)
    requires phone in store ==> store[phone].attempts <= 5
    requires e.call.Send? && Digits(e.call.phoneInput) == phone ==> SendReplyOf(store, phone, e.at) != Sent
    requires e.call.Verify? && Digits(e.call.phoneInput) == phone ==>
               VerifyReplyOf(store, phone, Trim(e.call.codeInput), e.at) != Verified
    ensures phone !in store ==> phone !in Next(store, e)
    ensures phone in store && store[phone].expiresAt < e.at && (e.call.Sweep? || Tries(e, phone)) ==> phone !in Next(store, e)
    ensures phone in store && !(store[phone].expiresAt < e.at && (e.call.Sweep? || Tries(e, phone))) ==>
              phone in Next(store, e) &&
              Next(store, e)[phone] == store[phone].(attempts := AtMostFive(store[phone].attempts + if Tries(e, phone) then 1 else 0))
  {
    hide Digits, Trim, MobileNumber;
  }

  lemma {:induction false} OutstandingHolds(es: seq<Event>, i: nat, n: nat, phone: string)
    requires Outstanding(es, i, n, phone)
    ensures Holds(es, i, n, phone)
    decreases n
  {
    if n == i + 1 {
      assert !Noticed(es, i, n, phone);
    } else {
      OutstandingHolds(es, i, n - 1, phone);
      NoticedNext(es, i, n - 1, phone);
      assert !Issues(es, n - 1, phone) && !Succeeds(es, n - 1, phone);
      hide Noticed, Digits, Trim, MobileNumber, Tries, AfterSend, AfterVerify, AfterSweep, SendReplyOf, VerifyReplyOf;
      RecordStep(StoreAt(es, n - 1), es[n - 1], phone);
    }
  }

  lemma {:induction false} HeldIsOutstanding(es: seq<Event>, n: nat, phone: string) returns (i: nat)
    requires n <= |es| && phone in StoreAt(es, n)
    ensures Outstanding(es, i, n, phone)
  {
    hide Issues, Succeeds, Compares;
    i := EveryCodeWasIssued(es, n, phone);
  }

  // ----- the answers -----

  function VerifyReplyAt(es: seq<Event>, j: nat): VerifyReply
    requires j < |es| && es[j].call.Verify?
  {
    VerifyReplyOf(StoreAt(es, j), Digits(es[j].call.phoneInput), Trim(es[j].call.codeInput), es[j].at)
  }

  function SendReplyAt(es: seq<Event>, j: nat): SendReply
    requires j < |es| && es[j].call.Send?
  {
    SendReplyOf(StoreAt(es, j), Digits(es[j].call.phoneInput), es[j].at)
  }

  /** A code entered within 180 s of the last code sent and not yet used: of the first five
      the right one succeeds and a wrong one is told how many are left; the sixth is refused. */
  lemma FreshReply(es: seq<Event>, i: nat, j: nat, phone: string)
    requires Monotone(es) && j < |es| && Tries(es[j], phone)
    requires Outstanding(es, i, j, phone) && es[j].at <= es[i].at + 180_000
    ensures var before := TryCount(es, phone, i + 1, j);
            VerifyReplyAt(es, j) == (if before >= 5 then TooManyAttempts
                                     else if Trim(es[j].call.codeInput) == es[i].call.code then Verified
                                     else Mismatch(4 - before))
  {
    OutstandingHolds(es, i, j, phone);
    hide Digits, Trim, Issues, Succeeds, StoreAt;
  }

  /** Otherwise the code is not compared: it is answered as expired while the record is
      there, and as never sent when there is none. */
  lemma StaleReply(es: seq<Event>, j: nat, phone: string)
    requires Monotone(es) && j < |es| && Tries(es[j], phone)
    requires forall i: nat :: Outstanding(es, i, j, phone) ==> es[j].at > es[i].at + 180_000
    ensures VerifyReplyAt(es, j) == Expired <==> exists i: nat :: Outstanding(es, i, j, phone) && !Noticed(es, i, j, phone)
    ensures VerifyReplyAt(es, j) == NeverSent <==> forall i: nat :: Outstanding(es, i, j, phone) ==> Noticed(es, i, j, phone)
  {
    hide Digits, Trim, Succeeds, StoreAt, Noticed;
    if phone in StoreAt(es, j) {
      var i := HeldIsOutstanding(es, j, phone);
      OutstandingHolds(es, i, j, phone);
    }
    forall i: nat | Outstanding(es, i, j, phone) ensures Holds(es, i, j, phone) {
      OutstandingHolds(es, i, j, phone);
    }
  }

  /** Over any run: a verification succeeds exactly when it enters the last code sent to the
      phone, at most 180 s after it was sent, not used yet and with fewer than five codes entered
      since. */
  lemma SucceedsIff(es: seq<Event>, j: nat, phone: string)
    requires Monotone(es) && j < |es| && Tries(es[j], phone)
    ensures Succeeds(es, j, phone) <==>
            exists i: nat :: Outstanding(es, i, j, phone) && es[i].call.code == Trim(es[j].call.codeInput) &&
                        es[j].at <= es[i].at + 180_000 && TryCount(es, phone, i + 1, j) < 5
  {
    hide Digits, Trim, StoreAt, Noticed, Holds, TryCount, AtMostFive;
    assert Succeeds(es, j, phone) <==> VerifyReplyAt(es, j) == Verified;
    forall i: nat | Outstanding(es, i, j, phone) && es[j].at <= es[i].at + 180_000
      ensures VerifyReplyAt(es, j) == Verified <==> TryCount(es, phone, i + 1, j) < 5 && Trim(es[j].call.codeInput) == es[i].call.code
    {
      FreshReply(es, i, j, phone);
    }
    if forall i: nat :: Outstanding(es, i, j, phone) ==> es[j].at > es[i].at + 180_000 {
      StaleReply(es, j, phone);
    }
  }

  /** Missing input is refused and nothing else is: the phone has no digit or the code is blank. */
  lemma MissingIff(es: seq<Event>, j: nat)
    requires j < |es| && es[j].call.Verify?
    ensures VerifyReplyAt(es, j) == MissingInput <==> !Tries(es[j], Digits(es[j].call.phoneInput))
  {
  }

  /** Over any run: a code is issued exactly for ten or eleven digits beginning with 01, at least
      60 s after the last one that is not used, and, if five codes were entered since that one,
      at least 180 s after it. The other answers say which of the three failed; the wait
      announced is the shortest whole number of seconds after which the cooldown is over. */
  lemma SendReplies(es: seq<Event>, j: nat, phone: string)
    requires Monotone(es) && j < |es| && es[j].call.Send? && Digits(es[j].call.phoneInput) == phone
    ensures SendReplyAt(es, j) == BadPhone <==> !(10 <= |phone| <= 11 && phone[0] == '0' && phone[1] == '1')
    ensures Issues(es, j, phone) <==>
            SendReplyAt(es, j) != BadPhone && forall i: nat :: Outstanding(es, i, j, phone) ==>
              es[i].at + 60_000 <= es[j].at && (TryCount(es, phone, i + 1, j) < 5 || es[i].at + 180_000 <= es[j].at)
    ensures SendReplyAt(es, j).CoolingDown? ==>
              exists i: nat :: Outstanding(es, i, j, phone) && es[j].at < es[i].at + 60_000 &&
                          var wait := SendReplyAt(es, j).seconds;
                          es[j].at + 1000 * (wait - 1) < es[i].at + 60_000 <= es[j].at + 1000 * wait
    ensures SendReplyAt(es, j) == Blocked ==>
              exists i: nat :: Outstanding(es, i, j, phone) && es[i].at + 60_000 <= es[j].at < es[i].at + 180_000 &&
                          TryCount(es, phone, i + 1, j) >= 5
  {
    hide Digits, Trim, StoreAt, TryCount;
    if phone in StoreAt(es, j) {
      var i := HeldIsOutstanding(es, j, phone);
      OutstandingHolds(es, i, j, phone);
      OneOutstanding(es, i, j, phone);
    }
    forall i: nat | Outstanding(es, i, j, phone) ensures Holds(es, i, j, phone) && es[i].at <= es[j].at {
      OutstandingHolds(es, i, j, phone);
    }
  }

  lemma OneOutstanding(es: seq<Event>, i: nat, n: nat, phone: string)
    requires Outstanding(es, i, n, phone)
    ensures forall k :: Outstanding(es, k, n, phone) ==> k == i
  {
  }
}
