/** Signed cookies, with ideal signatures, digests and random identifiers. */
module Tokens {

  /** A random session family identifier. */
  type Family = nat

  /** Session values after JSON normalisation. */
  type Values = map<string, string>

  /**
   A cookie value: one that the server signed, told apart by its random nonce, or anything else.
   A signature cannot be forged, and distinct cookies have distinct digests, so a cookie stands for its digest.
   */
  datatype Token = Signed(expiresAt: nat, nonce: nat, family: Family, values: Values) | Unsigned(text: string)
}

/**
 The process-local revocation store of signed cookies: three maps of expiries, from which every call
 drops what has expired.

 The reference is a log that never forgets. `Answers` reads it from scratch; the store answers exactly
 as its log does, for every run in which the times of the calls do not go back.
 */
module Revocation {
  import opened Wrappers
  import opened Tokens

  datatype Event =
    | TokenRevoked(token: Token, through: int)
    | TokenRegistered(family: Family, through: int)
    | FamilyRevoked(family: Family, through: int)

  type Log = seq<Event>

  function Max(a: int, b: int): int {
    if a > b then a else b
  }

  // ---------------------------------------------------------------------------------------------
  // Reading the log
  // ---------------------------------------------------------------------------------------------

  /** The latest time through which `token` is revoked; 0 when it never was. */
  function TokenThrough(log: Log, token: Token): int {
    if log == [] then 0
    else
      var rest := TokenThrough(log[..|log| - 1], token);
      match log[|log| - 1]
      case TokenRevoked(t, e) => if t == token then Max(rest, e) else rest
      case _ => rest
  }

  function FamilyThrough(log: Log, family: Family): int {
    if log == [] then 0
    else
      var rest := FamilyThrough(log[..|log| - 1], family);
      match log[|log| - 1]
      case FamilyRevoked(f, e) => if f == family then Max(rest, e) else rest
      case _ => rest
  }

  /** The latest expiry registered for a token of `family`. */
  function RegisteredThrough(log: Log, family: Family): int {
    if log == [] then 0
    else
      var rest := RegisteredThrough(log[..|log| - 1], family);
      match log[|log| - 1]
      case TokenRegistered(f, e) => if f == family then Max(rest, e) else rest
      case _ => rest
  }

  predicate Revoked(log: Log, token: Token, family: Option<Family>, now: int) {
    TokenThrough(log, token) > now || (family.Some? && FamilyThrough(log, family.value) > now)
  }

  predicate Closed(log: Log, family: Family, now: int) {
    FamilyThrough(log, family) > now
  }

  lemma {:induction false} ThroughIsMonotone(log: Log, more: Log, token: Token, family: Family)
    ensures TokenThrough(log + more, token) >= TokenThrough(log, token) >= 0
    ensures FamilyThrough(log + more, family) >= FamilyThrough(log, family) >= 0
    ensures RegisteredThrough(log + more, family) >= RegisteredThrough(log, family) >= 0
    decreases |log| + 2 * |more|
  {
    if more != [] {
      ThroughIsMonotone(log, more[..|more| - 1], token, family);
      assert (log + more)[..|log + more| - 1] == log + more[..|more| - 1];
    } else if log != [] {
      ThroughIsMonotone(log[..|log| - 1], more, token, family);
      assert log + more == log;
      assert log[..|log| - 1] + more == log[..|log| - 1];
    } else {
      assert log + more == log;
    }
  }

  lemma {:induction false} EventCounts(log: Log, i: nat)
    requires i < |log|
    ensures log[i].TokenRevoked? ==> TokenThrough(log, log[i].token) >= log[i].through
    ensures log[i].FamilyRevoked? ==> FamilyThrough(log, log[i].family) >= log[i].through
    ensures log[i].TokenRegistered? ==> RegisteredThrough(log, log[i].family) >= log[i].through
  {
    if i < |log| - 1 {
      EventCounts(log[..|log| - 1], i);
    }
  }

  /** What is revoked was revoked by some event of the log. */
  lemma {:induction false} ThroughHasReason(log: Log, token: Token, family: Family)
    ensures TokenThrough(log, token) == 0 || exists i :: 0 <= i < |log| && log[i] == TokenRevoked(token, TokenThrough(log, token))
    ensures FamilyThrough(log, family) == 0
            || exists i :: 0 <= i < |log| && log[i] == FamilyRevoked(family, FamilyThrough(log, family))
    ensures RegisteredThrough(log, family) == 0
            || exists i :: 0 <= i < |log| && log[i] == TokenRegistered(family, RegisteredThrough(log, family))
  {
    if log != [] {
      var front := log[..|log| - 1];
      ThroughHasReason(front, token, family);
      if TokenThrough(log, token) == TokenThrough(front, token) && TokenThrough(log, token) != 0 {
        var i :| 0 <= i < |front| && front[i] == TokenRevoked(token, TokenThrough(front, token));
        assert log[i] == front[i];
      }
      if FamilyThrough(log, family) == FamilyThrough(front, family) && FamilyThrough(log, family) != 0 {
        var i :| 0 <= i < |front| && front[i] == FamilyRevoked(family, FamilyThrough(front, family));
        assert log[i] == front[i];
      }
      if RegisteredThrough(log, family) == RegisteredThrough(front, family) && RegisteredThrough(log, family) != 0 {
        var i :| 0 <= i < |front| && front[i] == TokenRegistered(family, RegisteredThrough(front, family));
        assert log[i] == front[i];
      }
    }
  }

  // ---------------------------------------------------------------------------------------------
  // The calls
  // ---------------------------------------------------------------------------------------------

  datatype Call =
    | IsRevoked(token: Token, member: Option<Family>, now: int)
    | RegisterFamilyToken(family: Family, expiresAt: int, now: int)
    | RevokeToken(token: Token, expiresAt: int)
    | RevokeFamily(family: Family, expiresAt: int, now: int)

  datatype Answer = Said(revoked: bool) | Registered | NotFound | Done

  /** What a call appends to the log. */
  function Logged(log: Log, call: Call): Log {
    match call
    case IsRevoked(_, _, _) => log
    case RegisterFamilyToken(f, e, now) => if Closed(log, f, now) then log else log + [TokenRegistered(f, e)]
    case RevokeToken(t, e) => log + [TokenRevoked(t, e)]
    case RevokeFamily(f, e, _) => log + [FamilyRevoked(f, Max(RegisteredThrough(log, f), e))]
  }

  function Answered(log: Log, call: Call): Answer {
    match call
    case IsRevoked(t, f, now) => Said(Revoked(log, t, f, now))
    case RegisterFamilyToken(f, _, now) => if Closed(log, f, now) then NotFound else Registered
    case _ => Done
  }

  // ---------------------------------------------------------------------------------------------
  // The maps
  // ---------------------------------------------------------------------------------------------

  datatype Store = Store(tokens: map<Token, int>, families: map<Family, int>, familyExpiries: map<Family, int>)

  /** A missing key reads as 0. */
  function At<K>(m: map<K, int>, k: K): int {
    if k in m then m[k] else 0
  }

  function Kept<K>(m: map<K, int>, now: int): map<K, int> {
    m - (set k | k in m && m[k] <= now)
  }

  function Raised<K>(m: map<K, int>, k: K, e: int): map<K, int> {
    if e > At(m, k) then m[k := e] else m
  }

  function Cleaned(s: Store, now: int): Store {
    Store(Kept(s.tokens, now), Kept(s.families, now), Kept(s.familyExpiries, now))
  }

  function Perform(s: Store, call: Call): (Store, Answer) {
    match call
    case IsRevoked(t, f, now) =>
      var c := Cleaned(s, now);
      (c, Said(At(c.tokens, t) > now || (f.Some? && At(c.families, f.value) > now)))
    case RegisterFamilyToken(f, e, now) =>
      var c := Cleaned(s, now);
      if At(c.families, f) > now then (c, NotFound) else (c.(familyExpiries := Raised(c.familyExpiries, f, e)), Registered)
    case RevokeToken(t, e) => (s.(tokens := Raised(s.tokens, t, e)), Done)
    case RevokeFamily(f, e, now) =>
      var c := Cleaned(s, now);
      (c.(families := Raised(c.families, f, Max(At(c.familyExpiries, f), e))), Done)
  }

  // ---------------------------------------------------------------------------------------------
  // The store answers as its log does
  // ---------------------------------------------------------------------------------------------

  /** Exact, or forgotten because it no longer matters. */
  predicate Agrees(kept: int, logged: int, last: int) {
    kept == logged || (kept <= last && logged <= last)
  }

  ghost predicate Positive<K(!new)>(m: map<K, int>) {
    forall k :: k in m ==> m[k] > 0
  }

  ghost predicate Refines(s: Store, log: Log, last: int) {
    && Positive(s.tokens) && Positive(s.families) && Positive(s.familyExpiries)
    && (forall t :: Agrees(At(s.tokens, t), TokenThrough(log, t), last))
    && (forall f :: Agrees(At(s.families, f), FamilyThrough(log, f), last))
    && (forall f :: Agrees(At(s.familyExpiries, f), RegisteredThrough(log, f), last))
  }

  predicate InTime(call: Call, last: int) {
    call.RevokeToken? || last <= call.now
  }

  function Later(call: Call, last: int): int {
    if call.RevokeToken? then last else call.now
  }

  lemma CleaningRefines(s: Store, log: Log, last: int, now: int)
    requires Refines(s, log, last) && last <= now
    ensures Refines(Cleaned(s, now), log, now)
  {
  }

  lemma TokenRevokedRefines(s: Store, log: Log, last: int, token: Token, e: int)
    requires Refines(s, log, last)
    ensures Refines(s.(tokens := Raised(s.tokens, token, e)), log + [TokenRevoked(token, e)], last)
  {
    var event := TokenRevoked(token, e);
    assert (log + [event])[..|log + [event]| - 1] == log;
    forall t
      ensures Agrees(At(Raised(s.tokens, token, e), t), TokenThrough(log + [event], t), last)
    {
      assert Agrees(At(s.tokens, t), TokenThrough(log, t), last);
    }
    forall f
      ensures FamilyThrough(log + [event], f) == FamilyThrough(log, f)
      ensures RegisteredThrough(log + [event], f) == RegisteredThrough(log, f)
    {
    }
  }

  /** `e` and what is logged may differ where neither matters any more. */
  lemma FamilyRevokedRefines(s: Store, log: Log, last: int, family: Family, e: int, logged: int)
    requires Refines(s, log, last) && Agrees(e, logged, last)
    ensures Refines(s.(families := Raised(s.families, family, e)), log + [FamilyRevoked(family, logged)], last)
  {
    var event := FamilyRevoked(family, logged);
    assert (log + [event])[..|log + [event]| - 1] == log;
    forall f
      ensures Agrees(At(Raised(s.families, family, e), f), FamilyThrough(log + [event], f), last)
      ensures RegisteredThrough(log + [event], f) == RegisteredThrough(log, f)
    {
      assert Agrees(At(s.families, f), FamilyThrough(log, f), last);
    }
    forall t
      ensures TokenThrough(log + [event], t) == TokenThrough(log, t)
    {
    }
  }

  lemma TokenRegisteredRefines(s: Store, log: Log, last: int, family: Family, e: int)
    requires Refines(s, log, last)
    ensures Refines(s.(familyExpiries := Raised(s.familyExpiries, family, e)), log + [TokenRegistered(family, e)], last)
  {
    var event := TokenRegistered(family, e);
    assert (log + [event])[..|log + [event]| - 1] == log;
    forall f
      ensures Agrees(At(Raised(s.familyExpiries, family, e), f), RegisteredThrough(log + [event], f), last)
      ensures FamilyThrough(log + [event], f) == FamilyThrough(log, f)
    {
      assert Agrees(At(s.familyExpiries, f), RegisteredThrough(log, f), last);
    }
    forall t
      ensures TokenThrough(log + [event], t) == TokenThrough(log, t)
    {
    }
  }

  lemma RevokeFamilyRefines(s: Store, log: Log, last: int, family: Family, e: int, now: int)
    requires Refines(s, log, last) && last <= now
    ensures var call := RevokeFamily(family, e, now);
            Refines(Perform(s, call).0, Logged(log, call), now)
  {
    var c := Cleaned(s, now);
    CleaningRefines(s, log, last, now);
    assert Agrees(At(c.familyExpiries, family), RegisteredThrough(log, family), now);
    FamilyRevokedRefines(c, log, now, family, Max(At(c.familyExpiries, family), e), Max(RegisteredThrough(log, family), e));
  }

  /** One call, at a time no earlier than the last: the store answers as the log does, and still agrees with it. */
  lemma CallRefines(s: Store, log: Log, last: int, call: Call)
    requires Refines(s, log, last) && InTime(call, last)
    ensures Refines(Perform(s, call).0, Logged(log, call), Later(call, last))
    ensures Perform(s, call).1 == Answered(log, call)
  {
    if !call.RevokeToken? {
      CleaningRefines(s, log, last, call.now);
      assert forall f :: Agrees(At(Cleaned(s, call.now).families, f), FamilyThrough(log, f), call.now);
    }
    match call
    case IsRevoked(t, f, now) =>
    case RegisterFamilyToken(f, e, now) => TokenRegisteredRefines(Cleaned(s, now), log, now, f, e);
    case RevokeToken(t, e) => TokenRevokedRefines(s, log, last, t, e);
    case RevokeFamily(f, e, now) => RevokeFamilyRefines(s, log, last, f, e, now);
  }

  // ---------------------------------------------------------------------------------------------
  // Whole runs
  // ---------------------------------------------------------------------------------------------

  const EMPTY: Store := Store(map[], map[], map[])

  /** The store after the calls, and its answers. */
  function Run(calls: seq<Call>): (Store, seq<Answer>) {
    if calls == [] then (EMPTY, [])
    else
      var (s, answers) := Run(calls[..|calls| - 1]);
      var (s', answer) := Perform(s, calls[|calls| - 1]);
      (s', answers + [answer])
  }

  /** The same from the log alone. */
  function LogOf(calls: seq<Call>): (Log, seq<Answer>) {
    if calls == [] then ([], [])
    else
      var (log, answers) := LogOf(calls[..|calls| - 1]);
      var call := calls[|calls| - 1];
      (Logged(log, call), answers + [Answered(log, call)])
  }

  /** The latest time among the calls, from `start`. */
  function LastTime(calls: seq<Call>, start: int): int {
    if calls == [] then start else Later(calls[|calls| - 1], LastTime(calls[..|calls| - 1], start))
  }

  ghost predicate InOrder(calls: seq<Call>, start: int) {
    forall i :: 0 <= i < |calls| ==> InTime(calls[i], LastTime(calls[..i], start))
  }

  /** Lazy cleanup never shows: the store answers every call as the log that never forgets. */
  lemma {:induction false} StoreAnswersAsItsLog(calls: seq<Call>, start: int)
    requires InOrder(calls, start)
    ensures Run(calls).1 == LogOf(calls).1
    ensures Refines(Run(calls).0, LogOf(calls).0, LastTime(calls, start))
  {
    if calls != [] {
      var front := calls[..|calls| - 1];
      assert forall i :: 0 <= i < |front| ==> calls[..i] == front[..i];
      StoreAnswersAsItsLog(front, start);
      CallRefines(Run(front).0, LogOf(front).0, LastTime(front, start), calls[|calls| - 1]);
    }
  }

  lemma {:induction false} AnswerAt(calls: seq<Call>, k: nat)
    requires k < |calls|
    ensures |LogOf(calls).1| == |calls| && LogOf(calls).1[k] == Answered(LogOf(calls[..k]).0, calls[k])
  {
    var front := calls[..|calls| - 1];
    if k < |front| {
      AnswerAt(front, k);
      assert front[..k] == calls[..k];
    } else if front != [] {
      AnswerAt(front, 0);
    }
  }

  /** The log keeps what it has. */
  lemma {:induction false} LogGrows(calls: seq<Call>, i: nat)
    requires i <= |calls|
    ensures LogOf(calls[..i]).0 <= LogOf(calls).0
  {
    if i < |calls| {
      var front := calls[..|calls| - 1];
      LogGrows(front, i);
      assert front[..i] == calls[..i];
    } else {
      assert calls[..i] == calls;
    }
  }

  /** What a call logged is in the log of every later moment. */
  lemma LoggedStays(calls: seq<Call>, i: nat, k: nat)
    requires i < k <= |calls|
    ensures Logged(LogOf(calls[..i]).0, calls[i]) <= LogOf(calls[..k]).0
  {
    assert calls[..k][..i + 1] == calls[..i + 1];
    LogGrows(calls[..k], i + 1);
    assert calls[..i + 1][..i] == calls[..i];
  }

  lemma PrefixThrough(log: Log, more: Log, token: Token, family: Family)
    requires log <= more
    ensures TokenThrough(more, token) >= TokenThrough(log, token)
    ensures FamilyThrough(more, family) >= FamilyThrough(log, family)
    ensures RegisteredThrough(more, family) >= RegisteredThrough(log, family)
  {
    assert more == log + more[|log|..];
    ThroughIsMonotone(log, more[|log|..], token, family);
  }

  lemma RegistrationIsCovered(calls: seq<Call>, i: nat, j: nat)
    requires i < j <= |calls| && calls[i].RegisterFamilyToken?
    requires Answered(LogOf(calls[..i]).0, calls[i]) == Registered
    ensures RegisteredThrough(LogOf(calls[..j]).0, calls[i].family) >= calls[i].expiresAt
  {
    var before := LogOf(calls[..i]).0;
    var logged := before + [TokenRegistered(calls[i].family, calls[i].expiresAt)];
    LoggedStays(calls, i, j);
    EventCounts(logged, |before|);
    PrefixThrough(logged, LogOf(calls[..j]).0, Unsigned(""), calls[i].family);
  }

  lemma RevocationIsKept(calls: seq<Call>, j: nat, k: nat)
    requires j < k <= |calls|
    ensures calls[j].RevokeFamily? ==>
              FamilyThrough(LogOf(calls[..k]).0, calls[j].family)
              >= Max(RegisteredThrough(LogOf(calls[..j]).0, calls[j].family), calls[j].expiresAt)
    ensures calls[j].RevokeToken? ==> TokenThrough(LogOf(calls[..k]).0, calls[j].token) >= calls[j].expiresAt
  {
    var before := LogOf(calls[..j]).0;
    var revoked := Logged(before, calls[j]);
    if |revoked| > |before| {
      EventCounts(revoked, |before|);
    }
    LoggedStays(calls, j, k);
    var token := if calls[j].RevokeToken? then calls[j].token else Unsigned("");
    var family := if calls[j].RevokeFamily? then calls[j].family else 0;
    PrefixThrough(revoked, LogOf(calls[..k]).0, token, family);
  }

  /**
   Logout is complete. Once a family has been revoked, each token registered in it before is reported
   revoked, and no new one can be registered, at every time before that token's own expiry.
   */
  lemma FamilyLogoutIsComplete(calls: seq<Call>, start: int, i: nat, j: nat, k: nat)
    requires InOrder(calls, start) && i < j < k < |calls| && |Run(calls).1| == |calls|
    requires calls[i].RegisterFamilyToken? && Run(calls).1[i] == Registered
    requires calls[j].RevokeFamily? && calls[j].family == calls[i].family
    ensures calls[k].IsRevoked? && calls[k].member == Some(calls[i].family) && calls[k].now < calls[i].expiresAt ==>
              Run(calls).1[k] == Said(true)
    ensures calls[k].RegisterFamilyToken? && calls[k].family == calls[i].family && calls[k].now < calls[i].expiresAt ==>
              Run(calls).1[k] == NotFound
  {
    StoreAnswersAsItsLog(calls, start);
    AnswerAt(calls, i);
    AnswerAt(calls, k);
    RegistrationIsCovered(calls, i, j);
    RevocationIsKept(calls, j, k);
  }

  /** A single token stays revoked through the expiry it was revoked with, and so does a family. */
  lemma RevocationLasts(calls: seq<Call>, start: int, j: nat, k: nat)
    requires InOrder(calls, start) && j < k < |calls| && |Run(calls).1| == |calls| && calls[k].IsRevoked?
    requires (calls[j].RevokeToken? && calls[j].token == calls[k].token)
             || (calls[j].RevokeFamily? && calls[k].member == Some(calls[j].family))
    ensures calls[k].now < calls[j].expiresAt ==> Run(calls).1[k] == Said(true)
  {
    StoreAnswersAsItsLog(calls, start);
    AnswerAt(calls, k);
    RevocationIsKept(calls, j, k);
  }

  /** The call that logged an event. */
  lemma {:induction false} EventHasCall(calls: seq<Call>, n: nat) returns (j: nat)
    requires n < |LogOf(calls).0|
    ensures j < |calls|
    ensures match LogOf(calls).0[n]
            case TokenRevoked(token, through) => calls[j] == RevokeToken(token, through)
            case TokenRegistered(family, through) =>
              calls[j].RegisterFamilyToken? && calls[j].family == family && calls[j].expiresAt == through
            case FamilyRevoked(family, through) =>
              && calls[j].RevokeFamily? && calls[j].family == family
              && through == Max(RegisteredThrough(LogOf(calls[..j]).0, family), calls[j].expiresAt)
  {
    var front := calls[..|calls| - 1];
    if n < |LogOf(front).0| {
      j := EventHasCall(front, n);
      assert LogOf(calls).0[n] == LogOf(front).0[n] && front[..j] == calls[..j];
    } else {
      j := |calls| - 1;
    }
  }

  ghost predicate RevokesToken(call: Call, token: Token, now: int) {
    call.RevokeToken? && call.token == token && now < call.expiresAt
  }

  ghost predicate RegistersBeyond(call: Call, family: Family, now: int) {
    call.RegisterFamilyToken? && call.family == family && now < call.expiresAt
  }

  /** The family is revoked beyond that time: the call says so itself, or a token was registered before that lives on. */
  ghost predicate RevokesFamily(calls: seq<Call>, j: nat, family: Family, now: int)
    requires j < |calls|
  {
    && calls[j].RevokeFamily? && calls[j].family == family
    && (now < calls[j].expiresAt || exists i :: 0 <= i < j && RegistersBeyond(calls[i], family, now))
  }

  lemma TokenRevocationHasCall(calls: seq<Call>, token: Token, now: int)
    requires TokenThrough(LogOf(calls).0, token) > now >= 0
    ensures exists j :: 0 <= j < |calls| && RevokesToken(calls[j], token, now)
  {
    ThroughHasReason(LogOf(calls).0, token, 0);
    var n :| 0 <= n < |LogOf(calls).0| && LogOf(calls).0[n] == TokenRevoked(token, TokenThrough(LogOf(calls).0, token));
    var j := EventHasCall(calls, n);
    assert RevokesToken(calls[j], token, now);
  }

  lemma RegistrationHasCall(calls: seq<Call>, family: Family, now: int) returns (i: nat)
    requires RegisteredThrough(LogOf(calls).0, family) > now >= 0
    ensures i < |calls| && RegistersBeyond(calls[i], family, now)
  {
    var log := LogOf(calls).0;
    ThroughHasReason(log, Unsigned(""), family);
    var n :| 0 <= n < |log| && log[n] == TokenRegistered(family, RegisteredThrough(log, family));
    i := EventHasCall(calls, n);
  }

  lemma FamilyRevocationHasCall(calls: seq<Call>, family: Family, now: int) returns (j: nat)
    requires FamilyThrough(LogOf(calls).0, family) > now >= 0
    ensures j < |calls| && RevokesFamily(calls, j, family, now)
  {
    var log := LogOf(calls).0;
    ThroughHasReason(log, Unsigned(""), family);
    var n :| 0 <= n < |log| && log[n] == FamilyRevoked(family, FamilyThrough(log, family));
    j := EventHasCall(calls, n);
    if calls[j].expiresAt <= now {
      var i := RegistrationHasCall(calls[..j], family, now);
      assert calls[i] == calls[..j][i];
    }
  }

  lemma FrontRevokesFamily(calls: seq<Call>, k: nat, j: nat, family: Family, now: int)
    requires j < k <= |calls| && RevokesFamily(calls[..k], j, family, now)
    ensures RevokesFamily(calls, j, family, now)
  {
    if calls[j].expiresAt <= now {
      var i :| 0 <= i < j && RegistersBeyond(calls[..k][i], family, now);
      assert RegistersBeyond(calls[i], family, now);
    }
  }

  /** Nothing is reported revoked that no call revoked beyond that time. */
  lemma RevocationHasReason(calls: seq<Call>, start: int, k: nat)
    requires InOrder(calls, start) && k < |calls| && |Run(calls).1| == |calls| && calls[k].IsRevoked?
    requires Run(calls).1[k] == Said(true) && 0 <= calls[k].now
    ensures exists j :: 0 <= j < k
                        && (RevokesToken(calls[j], calls[k].token, calls[k].now)
                            || (calls[k].member.Some? && RevokesFamily(calls, j, calls[k].member.value, calls[k].now)))
  {
    StoreAnswersAsItsLog(calls, start);
    AnswerAt(calls, k);
    var before, now := calls[..k], calls[k].now;
    if TokenThrough(LogOf(before).0, calls[k].token) > now {
      TokenRevocationHasCall(before, calls[k].token, now);
      var j :| 0 <= j < |before| && RevokesToken(before[j], calls[k].token, now);
      assert RevokesToken(calls[j], calls[k].token, now);
    } else {
      var j := FamilyRevocationHasCall(before, calls[k].member.value, now);
      FrontRevokesFamily(calls, k, j, calls[k].member.value, now);
    }
  }

  /** And no registration is refused whose family no call revoked beyond that time. */
  lemma RefusalHasReason(calls: seq<Call>, start: int, k: nat)
    requires InOrder(calls, start) && k < |calls| && |Run(calls).1| == |calls| && calls[k].RegisterFamilyToken?
    requires Run(calls).1[k] != Registered && 0 <= calls[k].now
    ensures exists j :: 0 <= j < k && RevokesFamily(calls, j, calls[k].family, calls[k].now)
  {
    StoreAnswersAsItsLog(calls, start);
    AnswerAt(calls, k);
    var j := FamilyRevocationHasCall(calls[..k], calls[k].family, calls[k].now);
    FrontRevokesFamily(calls, k, j, calls[k].family, calls[k].now);
  }

  /** A question leaves exactly what has not expired: lazy cleanup keeps the maps small and forgets nothing that matters. */
  lemma QuestionCleansUp(s: Store, token: Token, family: Option<Family>, now: int)
    ensures var c := Perform(s, IsRevoked(token, family, now)).0;
            && (forall t :: t in c.tokens <==> t in s.tokens && now < s.tokens[t])
            && (forall f :: f in c.families <==> f in s.families && now < s.families[f])
            && (forall f :: f in c.familyExpiries <==> f in s.familyExpiries && now < s.familyExpiries[f])
            && (forall t :: t in c.tokens ==> c.tokens[t] == s.tokens[t])
  {
  }

  lemma OneMore(calls: seq<Call>, call: Call)
    ensures Run(calls + [call]).0 == Perform(Run(calls).0, call).0
    ensures Run(calls + [call]).1 == Run(calls).1 + [Perform(Run(calls).0, call).1]
    ensures LogOf(calls + [call]) == (Logged(LogOf(calls).0, call), LogOf(calls).1 + [Answered(LogOf(calls).0, call)])
  {
    assert (calls + [call])[..|calls + [call]| - 1] == calls;
  }

  /** Times that go back break it: cleaning up has forgotten an expiry that matters again. */
  lemma ClockGoingBackForgets(family: Family, token: Token)
    ensures var calls := [RegisterFamilyToken(family, 10, 0)] + [IsRevoked(token, None, 20)] + [RevokeFamily(family, 5, 4)]
                         + [IsRevoked(token, Some(family), 6)];
            |Run(calls).1| == |LogOf(calls).1| == 4 && Run(calls).1[3] == Said(false) && LogOf(calls).1[3] == Said(true)
  {
    var one := [RegisterFamilyToken(family, 10, 0)];
    var two := one + [IsRevoked(token, None, 20)];
    var three := two + [RevokeFamily(family, 5, 4)];
    assert [] + one == one;
    OneMore([], one[0]);
    assert Run([]) == (EMPTY, []) && LogOf([]) == ([], []);
    OneMore(one, two[1]);
    OneMore(two, three[2]);
    OneMore(three, IsRevoked(token, Some(family), 6));
    assert [] + [TokenRegistered(family, 10)] == [TokenRegistered(family, 10)];
    var log := [TokenRegistered(family, 10)];
    assert LogOf(two).0 == log && log[..0] == [];
    assert RegisteredThrough(log, family) == 10;
    assert (log + [FamilyRevoked(family, 10)])[..1] == log;
    assert FamilyThrough(log, family) == TokenThrough(log, token) == 0;
  }

  // ---------------------------------------------------------------------------------------------
  // The store itself
  // ---------------------------------------------------------------------------------------------

  /** One pass over a map, dropping what has expired. */
  method DropExpired<K>(m: map<K, int>, now: int) returns (r: map<K, int>)
    ensures r == Kept(m, now)
  {
    r := m;
    var todo := m.Keys;
    while todo != {}
      invariant todo <= m.Keys
      invariant forall k :: k in r <==> k in todo || k in Kept(m, now)
      invariant forall k :: k in r ==> k in m && r[k] == m[k]
    {
      var key :| key in todo;
      if m[key] <= now {
        r := r - {key};
      }
      todo := todo - {key};
    }
  }

  class MemoryCookieRevocationStore {
    var tokens: map<Token, int>
    var families: map<Family, int>
    var familyExpiries: map<Family, int>
    ghost var log: Log
    ghost var last: int

    ghost function State(): Store
      reads this
    {
      Store(tokens, families, familyExpiries)
    }

    ghost predicate Valid()
      reads this
    {
      Refines(State(), log, last)
    }

    constructor ()
      ensures Valid() && log == [] && State() == EMPTY
    {
      tokens, families, familyExpiries, log, last := map[], map[], map[], [], 0;
    }

    method Cleanup(now: int)
      modifies this`tokens, this`families, this`familyExpiries
      ensures State() == Cleaned(old(State()), now)
    {
      tokens := DropExpired(tokens, now);
      families := DropExpired(families, now);
      familyExpiries := DropExpired(familyExpiries, now);
    }

    method IsRevoked(token: Token, family: Option<Family>, now: int) returns (revoked: bool)
      requires Valid() && last <= now
      modifies this
      ensures Valid() && last == now && log == old(log)
      ensures revoked == Revoked(log, token, family, now)
      ensures State() == Perform(old(State()), Call.IsRevoked(token, family, now)).0
    {
      CallRefines(State(), log, last, Call.IsRevoked(token, family, now));
      Cleanup(now);
      last := now;
      revoked := At(tokens, token) > now || (family.Some? && At(families, family.value) > now);
    }

    method RegisterFamilyToken(family: Family, expiresAt: int, now: int) returns (ok: bool)
      requires Valid() && last <= now
      modifies this
      ensures Valid() && last == now && ok == !Closed(old(log), family, now)
      ensures log == if ok then old(log) + [TokenRegistered(family, expiresAt)] else old(log)
      ensures State() == Perform(old(State()), Call.RegisterFamilyToken(family, expiresAt, now)).0
    {
      var call := Call.RegisterFamilyToken(family, expiresAt, now);
      CallRefines(State(), log, last, call);
      ghost var (after, answer) := Perform(State(), call);
      assert answer == Answered(log, call);
      Cleanup(now);
      last := now;
      log := Logged(log, call);
      if At(families, family) > now {
        assert answer == NotFound && State() == after;
        return false;
      }
      if expiresAt > At(familyExpiries, family) {
        familyExpiries := familyExpiries[family := expiresAt];
      }
      assert answer == Registered && State() == after;
      return true;
    }

    method RevokeToken(token: Token, expiresAt: int)
      requires Valid()
      modifies this
      ensures Valid() && last == old(last) && log == old(log) + [TokenRevoked(token, expiresAt)]
      ensures State() == Perform(old(State()), Call.RevokeToken(token, expiresAt)).0
    {
      var call := Call.RevokeToken(token, expiresAt);
      CallRefines(State(), log, last, call);
      log := Logged(log, call);
      if expiresAt > At(tokens, token) {
        tokens := tokens[token := expiresAt];
      }
    }

    method RevokeFamily(family: Family, expiresAt: int, now: int)
      requires Valid() && last <= now
      modifies this
      ensures Valid() && last == now
      ensures log == old(log) + [FamilyRevoked(family, Max(RegisteredThrough(old(log), family), expiresAt))]
      ensures State() == Perform(old(State()), Call.RevokeFamily(family, expiresAt, now)).0
    {
      var call := Call.RevokeFamily(family, expiresAt, now);
      CallRefines(State(), log, last, call);
      Cleanup(now);
      last := now;
      log := Logged(log, call);
      var through := expiresAt;
      if At(familyExpiries, family) > through {
        through := At(familyExpiries, family);
      }
      if through > At(families, family) {
        families := families[family := through];
      }
    }
  }
}
