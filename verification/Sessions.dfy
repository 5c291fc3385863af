/**
 Sessions kept in signed cookies: every change mints a new cookie in the session's family and revokes the
 old one, and logging out revokes the whole family.

 An operation makes several calls to the store of revocations and reads the clock several times; requests
 that hold other handles, of the same family too, get in between. So a handle goes through its operations
 move by move, and a run is any interleaving of the moves of any number of handles. The store is the one of
 module Revocation, and is known by its log. Any call may fail for a reason from outside.
 */
module Sessions {
  import opened Wrappers
  import opened Tokens
  import opened Revocation

  const FOREVER: int := 0x7fff_ffff_ffff_ffff

  /** What the server knows: the revocations, the time, and how many random identifiers were drawn. */
  datatype Server = Server(log: Log, now: nat, drawn: nat)

  /** Where a handle is in an operation; `mark` is the length of the log when the new cookie was registered. */
  datatype Position =
    | Idle
    | Drafted(values: Values, cookie: Token)
    | Minted(values: Values, cookie: Token, mark: nat)
    | Revoking(values: Values, cookie: Token, mark: nat)
    | Rotated(values: Values, cookie: Token, mark: nat)
    | Ending
    | Blank
    | Opening(cookie: Token)
    | Opened

  datatype Handle = Handle(
    id: Token, family: Option<Family>, values: Values, loggedOut: bool, retired: set<Token>, at: Position)

  // ---------------------------------------------------------------------------------------------
  // Cookies
  // ---------------------------------------------------------------------------------------------

  function Expiry(t: Token): int
    requires t.Signed?
  {
    if t.expiresAt > 0 then t.expiresAt else FOREVER
  }

  /** The signature holds and the cookie has not expired. */
  predicate Decodes(t: Token, now: int) {
    t.Signed? && (t.expiresAt > 0 ==> now < t.expiresAt)
  }

  /** What a read finds that decodes the cookie at one time and asks for revocation at another. */
  predicate FoundAt(log: Log, t: Token, decoded: int, asked: int) {
    Decodes(t, decoded) && !Revoked(log, t, Some(t.family), asked)
  }

  /** Revoked through its expiry, by itself or with its family. */
  predicate RevokedThroughout(log: Log, t: Token)
    requires t.Signed?
  {
    TokenThrough(log, t) >= Expiry(t) || FamilyThrough(log, t.family) >= Expiry(t)
  }

  /** Of no use from `now` on. */
  predicate Dead(log: Log, t: Token, now: int) {
    t.Signed? && (RevokedThroughout(log, t) || !Decodes(t, now))
  }

  /**
   A dead cookie is refused, exactly unless its expiry falls between the two readings of the clock and no
   revocation reaches beyond that expiry.
   */
  lemma DeadIsRefusedExactlyUnless(log: Log, t: Token, now: int, decoded: int, asked: int)
    requires Dead(log, t, now) && now <= decoded <= asked < FOREVER
    ensures FoundAt(log, t, decoded, asked) <==>
            && Decodes(t, now) && decoded < Expiry(t) <= asked
            && TokenThrough(log, t) <= asked && FamilyThrough(log, t.family) <= asked
  {
  }

  /** Read and asked in the same second, a dead cookie is refused. */
  lemma DeadIsRefusedAtOnce(log: Log, t: Token, now: int, at: int)
    requires Dead(log, t, now) && now <= at < FOREVER
    ensures !FoundAt(log, t, at, at)
  {
  }

  /** Such a moment exists: the cookie was rotated away, and is found all the same. */
  lemma RotatedCookieFoundAtItsExpiry(family: Family, values: Values)
    ensures var t := Signed(10, 0, family, values);
            Dead([TokenRevoked(t, 10)], t, 9) && FoundAt([TokenRevoked(t, 10)], t, 9, 10)
  {
    var t := Signed(10, 0, family, values);
    var log := [TokenRevoked(t, 10)];
    assert log[..0] == [];
    assert TokenThrough(log, t) == 10 && FamilyThrough(log, family) == 0;
  }

  // ---------------------------------------------------------------------------------------------
  // The moves of one handle
  // ---------------------------------------------------------------------------------------------

  datatype Kind =
    | Draft(values: Values)  // the new cookie is put together
    | Register               // the store registers it
    | CheckOld               // the old cookie is decoded
    | RevokeOld              // the store revokes it
    | Finish                 // the handle moves over
    | Fail                   // any call failed, or the store refused
    | CheckLogout            // the cookie to log out with is decoded
    | EndFamily              // the store revokes its family
    | Take(cookie: Token, decoded: nat)  // a request's cookie is found
    | DraftNew               // a cookie for a new session is put together
    | RegisterNew
    | Settle                 // the family is read off the cookie

  const BLANK := Handle(Unsigned(""), None, map[], false, {}, Blank)

  /** The next cookie: each has a nonce of its own, and a new family an identifier of its own. */
  function CookieOf(s: Server, ttl: int, family: Option<Family>, values: Values): Token {
    Signed(if ttl > 0 then s.now + ttl else 0, s.drawn, match family case Some(f) => f case None => s.drawn + 1, values)
  }

  /** A cookie decodes until `ttl` after it was put together, and for ever if there is no such limit. */
  lemma CookieLivesItsTtl(s: Server, ttl: int, family: Option<Family>, values: Values, at: int)
    ensures Decodes(CookieOf(s, ttl, family, values), at) <==> (ttl > 0 ==> at < s.now + ttl)
    ensures CookieOf(s, ttl, family, values).values == values
  {
  }

  function Drawn(s: Server, family: Option<Family>): Server {
    s.(drawn := s.drawn + if family.Some? then 1 else 2)
  }

  function Registration(t: Token): Event
    requires t.Signed?
  {
    TokenRegistered(t.family, Expiry(t))
  }

  /** What the store logs when a family is revoked through `expiresAt`. */
  function FamilyEnd(log: Log, t: Token): Event
    requires t.Signed?
  {
    FamilyRevoked(t.family, Max(RegisteredThrough(log, t.family), Expiry(t)))
  }

  function FamilyOf(t: Token, now: int): Option<Family> {
    if Decodes(t, now) then Some(t.family) else None
  }

  predicate CanDo(h: Handle, s: Server, kind: Kind) {
    match kind
    case Draft(_) => h.at.Idle? && !h.loggedOut
    case Register => h.at.Drafted? && h.at.cookie.Signed? && !Closed(s.log, h.at.cookie.family, s.now)
    case CheckOld => h.at.Minted?
    case RevokeOld => h.at.Revoking? && h.id.Signed?
    case Finish => h.at.Rotated?
    case Fail => h.at.Drafted? || h.at.Minted? || h.at.Revoking? || h.at.Ending? || h.at.Opening?
    case CheckLogout => h.at.Idle? && !h.loggedOut
    case EndFamily => h.at.Ending? && h.id.Signed?
    case Take(cookie, decoded) => h.at.Blank? && decoded <= s.now && FoundAt(s.log, cookie, decoded, s.now)
    case DraftNew => h.at.Blank?
    case RegisterNew => h.at.Opening? && h.at.cookie.Signed? && !Closed(s.log, h.at.cookie.family, s.now)
    case Settle => h.at.Opened?
  }

  function LoggedOut(h: Handle): Handle {
    Handle(Unsigned(""), None, map[], true, h.retired + {h.id}, Idle)
  }

  function Move(h: Handle, s: Server, ttl: int, kind: Kind): (Handle, Server)
    requires CanDo(h, s, kind)
  {
    match kind
    case Draft(values) => (h.(at := Drafted(values, CookieOf(s, ttl, h.family, values))), Drawn(s, h.family))
    case Register =>
      var log := s.log + [Registration(h.at.cookie)];
      (h.(at := Minted(h.at.values, h.at.cookie, |log|)), s.(log := log))
    case CheckOld =>
      (h.(at := if Decodes(h.id, s.now) then Revoking(h.at.values, h.at.cookie, h.at.mark)
                else Rotated(h.at.values, h.at.cookie, h.at.mark)), s)
    case RevokeOld =>
      (h.(at := Rotated(h.at.values, h.at.cookie, h.at.mark)), s.(log := s.log + [TokenRevoked(h.id, Expiry(h.id))]))
    case Finish =>
      (Handle(h.at.cookie, FamilyOf(h.at.cookie, s.now), h.at.values, false, h.retired + {h.id}, Idle), s)
    case Fail => (h.(at := if h.at.Opening? then Blank else Idle), s)
    case CheckLogout => (if Decodes(h.id, s.now) then h.(at := Ending) else LoggedOut(h), s)
    case EndFamily => (LoggedOut(h), s.(log := s.log + [FamilyEnd(s.log, h.id)]))
    case Take(cookie, _) => (h.(id := cookie, values := cookie.values, at := Opened), s)
    case DraftNew => (h.(at := Opening(CookieOf(s, ttl, None, map[]))), Drawn(s, None))
    case RegisterNew => (h.(id := h.at.cookie, at := Opened), s.(log := s.log + [Registration(h.at.cookie)]))
    case Settle => (h.(family := FamilyOf(h.id, s.now), at := Idle), s)
  }

  // ---------------------------------------------------------------------------------------------
  // What the log says after one more event
  // ---------------------------------------------------------------------------------------------

  lemma AfterEvent(log: Log, event: Event, t: Token, f: Family)
    ensures TokenThrough(log + [event], t)
            == if event.TokenRevoked? && event.token == t then Max(TokenThrough(log, t), event.through) else TokenThrough(log, t)
    ensures FamilyThrough(log + [event], f)
            == if event.FamilyRevoked? && event.family == f then Max(FamilyThrough(log, f), event.through) else FamilyThrough(log, f)
    ensures RegisteredThrough(log + [event], f)
            == var through := RegisteredThrough(log, f);
               if event.TokenRegistered? && event.family == f then Max(through, event.through) else through
  {
    assert (log + [event])[..|log + [event]| - 1] == log;
  }

  /** Moves before the old cookie is revoked, and the failure itself, leave the acceptance of every cookie as it was. */
  predicate Harmless(kind: Kind) {
    !kind.RevokeOld? && !kind.EndFamily?
  }

  lemma HarmlessAcceptsTheSame(h: Handle, s: Server, ttl: int, kind: Kind, t: Token, decoded: int, asked: int)
    requires CanDo(h, s, kind) && Harmless(kind)
    ensures FoundAt(Move(h, s, ttl, kind).1.log, t, decoded, asked) == FoundAt(s.log, t, decoded, asked)
  {
    if kind.Register? || kind.RegisterNew? {
      AfterEvent(s.log, Registration(h.at.cookie), t, if t.Signed? then t.family else 0);
    }
  }

  // ---------------------------------------------------------------------------------------------
  // Many handles
  // ---------------------------------------------------------------------------------------------

  /** All handles of one server, and the cookies it has handed out; the owner of a cookie may present it at any time. */
  datatype World = World(server: Server, ttl: int, handles: seq<Handle>, issued: set<Token>)

  datatype Step = Tick(now: nat) | Arrive | Do(i: nat, kind: Kind)

  predicate Enabled(w: World, step: Step) {
    match step
    case Tick(now) => w.server.now <= now
    case Arrive => true
    case Do(i, kind) =>
      i < |w.handles| && CanDo(w.handles[i], w.server, kind) && (kind.Take? ==> kind.cookie in w.issued)
  }

  /** A cookie is handed out when its handle moves over to it, or its session is opened. */
  function HandedOut(h: Handle, kind: Kind): set<Token> {
    if (kind.Finish? && h.at.Rotated?) || (kind.RegisterNew? && h.at.Opening?) then {h.at.cookie} else {}
  }

  function Next(w: World, step: Step): World
    requires Enabled(w, step)
  {
    match step
    case Tick(now) => w.(server := w.server.(now := now))
    case Arrive => w.(handles := w.handles + [BLANK])
    case Do(i, kind) =>
      var (h, s) := Move(w.handles[i], w.server, w.ttl, kind);
      w.(server := s, handles := w.handles[i := h], issued := w.issued + HandedOut(w.handles[i], kind))
  }

  // ---------------------------------------------------------------------------------------------
  // What every step keeps
  // ---------------------------------------------------------------------------------------------

  /** Its registration covers it. */
  predicate Covered(s: Server, t: Token) {
    t.Signed? && t.nonce < s.drawn && RegisteredThrough(s.log, t.family) >= Expiry(t)
  }

  predicate Unseen(s: Server, t: Token) {
    t.Signed? && t.nonce >= s.drawn ==> TokenThrough(s.log, t) == 0
  }

  function Pending(at: Position): Option<Token> {
    if at.Drafted? || at.Minted? || at.Revoking? || at.Rotated? || at.Opening? then Some(at.cookie) else None
  }

  predicate Marked(at: Position) {
    at.Minted? || at.Revoking? || at.Rotated?
  }

  /** A cookie on its way belongs to nobody else yet, and has not been revoked by itself. */
  predicate OnItsWay(w: World, t: Token) {
    t.Signed? && t.nonce < w.server.drawn && t !in w.issued && TokenThrough(w.server.log, t) == 0
  }

  /** It was registered at its mark, in a family that was open then. */
  predicate WasMinted(s: Server, t: Token, mark: nat) {
    && t.Signed? && 0 < mark <= |s.log| && s.log[mark - 1] == Registration(t)
    && FamilyThrough(s.log[..mark], t.family) <= s.now
  }

  /** The handle has a cookie, carries its values, and knows its family unless it has expired. */
  predicate InUse(w: World, h: Handle) {
    && h.id in w.issued && h.id.Signed? && h.values == h.id.values
    && (match h.family case Some(f) => f == h.id.family case None => !Decodes(h.id, w.server.now))
  }

  ghost predicate RetiredDead(s: Server, issued: set<Token>, retired: set<Token>) {
    forall t :: t in retired ==> t in issued && Dead(s.log, t, s.now)
  }

  ghost predicate HandleOk(w: World, h: Handle) {
    && RetiredDead(w.server, w.issued, h.retired)
    && (h.loggedOut ==> h.at.Idle? && h.id == Unsigned("") && h.values == map[])
    && (!h.loggedOut && !h.at.Blank? && !h.at.Opening? && !h.at.Opened? ==> InUse(w, h))
    && (h.at.Blank? || h.at.Opening? ==> h == BLANK.(at := h.at))
    && (h.at.Opened? ==> h.id in w.issued && h.id.Signed? && h.values == h.id.values && h.family.None? && h.retired == {})
    && (Pending(h.at).Some? ==> OnItsWay(w, Pending(h.at).value))
    && (h.at.Drafted? || Marked(h.at) ==>
          h.at.cookie.Signed? && h.at.cookie.values == h.at.values && (h.family.Some? ==> h.at.cookie.family == h.family.value))
    && (h.at.Opening? ==> h.at.cookie.Signed? && h.at.cookie.values == map[])
    && (Marked(h.at) ==> WasMinted(w.server, h.at.cookie, h.at.mark))
    && (h.at.Rotated? ==> Dead(w.server.log, h.id, w.server.now))
  }

  /** No two handles have the same cookie on its way. */
  ghost predicate Apart(handles: seq<Handle>) {
    forall i, j :: 0 <= i < j < |handles| && Pending(handles[i].at).Some? ==> Pending(handles[i].at) != Pending(handles[j].at)
  }

  /** A family is revoked through every expiry registered for it before. */
  ghost predicate EndsCover(log: Log) {
    forall n :: 0 <= n < |log| && log[n].FamilyRevoked? ==> log[n].through >= RegisteredThrough(log[..n], log[n].family)
  }

  ghost predicate ServerOk(s: Server, issued: set<Token>) {
    (forall t :: t in issued ==> Covered(s, t)) && (forall t :: Unseen(s, t)) && EndsCover(s.log)
  }

  ghost predicate Inv(w: World) {
    ServerOk(w.server, w.issued) && Apart(w.handles) && forall i :: 0 <= i < |w.handles| ==> HandleOk(w, w.handles[i])
  }

  /** The server has moved on. */
  predicate Onward(s: Server, s': Server) {
    s.log <= s'.log && s.now <= s'.now && s.drawn <= s'.drawn
  }

  /** More log and more time: dead stays dead, covered stays covered. */
  lemma DeadStays(log: Log, log': Log, t: Token, now: int, now': int)
    requires Dead(log, t, now) && log <= log' && now <= now'
    ensures Dead(log', t, now')
  {
    PrefixThrough(log, log', t, t.family);
  }

  lemma CoveredStays(s: Server, s': Server, t: Token)
    requires Covered(s, t) && Onward(s, s')
    ensures Covered(s', t)
  {
    PrefixThrough(s.log, s'.log, t, t.family);
  }

  lemma RetiredStayDead(s: Server, s': Server, issued: set<Token>, issued': set<Token>, retired: set<Token>)
    requires RetiredDead(s, issued, retired) && Onward(s, s') && issued <= issued'
    ensures RetiredDead(s', issued', retired)
  {
    forall t | t in retired
      ensures t in issued' && Dead(s'.log, t, s'.now)
    {
      DeadStays(s.log, s'.log, t, s.now, s'.now);
    }
  }

  lemma MintStays(s: Server, s': Server, t: Token, mark: nat)
    requires WasMinted(s, t, mark) && Onward(s, s')
    ensures WasMinted(s', t, mark)
  {
    assert s'.log[..mark] == s.log[..mark] && s'.log[mark - 1] == s.log[mark - 1];
  }

  /** What was minted is covered. */
  lemma MintedIsCovered(s: Server, t: Token, mark: nat)
    requires WasMinted(s, t, mark) && t.nonce < s.drawn
    ensures Covered(s, t)
  {
    EventCounts(s.log, mark - 1);
  }

  /** A handle that does not move stays in order, as long as its new cookie is not touched. */
  lemma HandleStays(w: World, w': World, h: Handle)
    requires HandleOk(w, h) && Onward(w.server, w'.server) && w.issued <= w'.issued
    requires Pending(h.at).Some? ==> OnItsWay(w', Pending(h.at).value)
    ensures HandleOk(w', h)
  {
    RetiredStayDead(w.server, w'.server, w.issued, w'.issued, h.retired);
    if Marked(h.at) {
      MintStays(w.server, w'.server, h.at.cookie, h.at.mark);
    }
    if h.at.Rotated? {
      DeadStays(w.server.log, w'.server.log, h.id, w.server.now, w'.server.now);
    }
  }

  /** One more event keeps the log in order, if a family's end covers it and a revoked cookie was drawn. */
  ghost predicate MayAppend(s: Server, e: Event) {
    && (e.FamilyRevoked? ==> e.through >= RegisteredThrough(s.log, e.family))
    && (e.TokenRevoked? && e.token.Signed? ==> e.token.nonce < s.drawn)
  }

  lemma AppendKeepsServer(s: Server, issued: set<Token>, e: Event)
    requires ServerOk(s, issued) && MayAppend(s, e)
    ensures ServerOk(s.(log := s.log + [e]), issued)
  {
    var s' := s.(log := s.log + [e]);
    forall t | t in issued
      ensures Covered(s', t)
    {
      assert Covered(s, t);
      CoveredStays(s, s', t);
    }
    forall t
      ensures Unseen(s', t)
    {
      assert Unseen(s, t);
      AfterEvent(s.log, e, t, 0);
    }
    forall n | 0 <= n < |s'.log| && s'.log[n].FamilyRevoked?
      ensures s'.log[n].through >= RegisteredThrough(s'.log[..n], s'.log[n].family)
    {
      assert s'.log[..n] == s.log[..n];
      assert s.log[..|s.log|] == s.log;
    }
  }

  lemma DrawingKeepsServer(s: Server, issued: set<Token>, family: Option<Family>)
    requires ServerOk(s, issued)
    ensures ServerOk(Drawn(s, family), issued)
  {
    var s' := Drawn(s, family);
    forall t | t in issued
      ensures Covered(s', t)
    {
      assert Covered(s, t);
    }
    forall t
      ensures Unseen(s', t)
    {
      assert Unseen(s, t);
    }
  }

  /** What a move does to the server and to the cookies handed out. */
  lemma MoveKeepsServer(w: World, i: nat, kind: Kind)
    requires Inv(w) && Enabled(w, Do(i, kind))
    ensures var w' := Next(w, Do(i, kind));
            ServerOk(w'.server, w'.issued) && Onward(w.server, w'.server)
  {
    var h, s := w.handles[i], w.server;
    assert HandleOk(w, h);
    match kind
    case Draft(_) => DrawingKeepsServer(s, w.issued, h.family);
    case DraftNew => DrawingKeepsServer(s, w.issued, None);
    case Register => AppendKeepsServer(s, w.issued, Registration(h.at.cookie));
    case RegisterNew =>
      AppendKeepsServer(s, w.issued, Registration(h.at.cookie));
      AfterEvent(s.log, Registration(h.at.cookie), h.at.cookie, h.at.cookie.family);
    case RevokeOld =>
      assert Covered(s, h.id);
      AppendKeepsServer(s, w.issued, TokenRevoked(h.id, Expiry(h.id)));
    case EndFamily => AppendKeepsServer(s, w.issued, FamilyEnd(s.log, h.id));
    case Finish => MintedIsCovered(s, h.at.cookie, h.at.mark);
    case _ =>
  }

  /** A move touches no cookie on its way but its own. */
  lemma OthersStayOnTheirWay(w: World, i: nat, kind: Kind, t: Token)
    requires Inv(w) && Enabled(w, Do(i, kind)) && OnItsWay(w, t)
    requires Some(t) != Pending(w.handles[i].at) || !(kind.Finish? || kind.RegisterNew?)
    ensures OnItsWay(Next(w, Do(i, kind)), t)
  {
    var h, s := w.handles[i], w.server;
    assert HandleOk(w, h);
    match kind
    case Register => AfterEvent(s.log, Registration(h.at.cookie), t, 0);
    case RegisterNew => AfterEvent(s.log, Registration(h.at.cookie), t, 0);
    case RevokeOld => AfterEvent(s.log, TokenRevoked(h.id, Expiry(h.id)), t, 0);
    case EndFamily => AfterEvent(s.log, FamilyEnd(s.log, h.id), t, 0);
    case _ =>
  }

  lemma MovedStaysFirst(w: World, i: nat, kind: Kind)
    requires Inv(w) && Enabled(w, Do(i, kind)) && !kind.Finish? && !kind.RegisterNew?
    ensures HandleOk(Next(w, Do(i, kind)), w.handles[i])
  {
    var h, w' := w.handles[i], Next(w, Do(i, kind));
    assert HandleOk(w, h);
    MoveKeepsServer(w, i, kind);
    if Pending(h.at).Some? {
      OthersStayOnTheirWay(w, i, kind, Pending(h.at).value);
    }
    HandleStays(w, w', h);
  }

  /** A cookie just drawn is nobody's. */
  lemma DrawnIsOnItsWay(w: World, i: nat, kind: Kind)
    requires Inv(w) && Enabled(w, Do(i, kind)) && (kind.Draft? || kind.DraftNew?)
    ensures var w' := Next(w, Do(i, kind));
            OnItsWay(w', w'.handles[i].at.cookie)
  {
    var t := Next(w, Do(i, kind)).handles[i].at.cookie;
    assert Unseen(w.server, t);
    assert t in w.issued ==> Covered(w.server, t);
  }

  lemma RegisteredIsMinted(s: Server, t: Token)
    requires t.Signed? && !Closed(s.log, t.family, s.now)
    ensures WasMinted(s.(log := s.log + [Registration(t)]), t, |s.log| + 1)
  {
    var log := s.log + [Registration(t)];
    assert log[..|log|] == log;
    AfterEvent(s.log, Registration(t), t, t.family);
  }

  lemma RevokedIsDead(s: Server, t: Token)
    requires t.Signed?
    ensures Dead(s.log + [TokenRevoked(t, Expiry(t))], t, s.now)
    ensures Dead(s.log + [FamilyEnd(s.log, t)], t, s.now)
  {
    AfterEvent(s.log, TokenRevoked(t, Expiry(t)), t, t.family);
    AfterEvent(s.log, FamilyEnd(s.log, t), t, t.family);
  }

  /** The handle that moves is in order afterwards. */
  lemma MovedIsOk(w: World, i: nat, kind: Kind)
    requires Inv(w) && Enabled(w, Do(i, kind))
    ensures HandleOk(Next(w, Do(i, kind)), Next(w, Do(i, kind)).handles[i])
  {
    if kind.Finish? || kind.RegisterNew? {
      PublishingIsOk(w, i, kind);
    } else if kind.Register? || kind.RevokeOld? || kind.EndFamily? {
      StoringIsOk(w, i, kind);
    } else {
      MovingIsOk(w, i, kind);
    }
  }

  lemma PublishingIsOk(w: World, i: nat, kind: Kind)
    requires Inv(w) && Enabled(w, Do(i, kind)) && (kind.Finish? || kind.RegisterNew?)
    ensures HandleOk(Next(w, Do(i, kind)), Next(w, Do(i, kind)).handles[i])
  {
    var h, w' := w.handles[i], Next(w, Do(i, kind));
    assert HandleOk(w, h);
    MoveKeepsServer(w, i, kind);
    RetiredStayDead(w.server, w'.server, w.issued, w'.issued, h.retired);
  }

  lemma StoringIsOk(w: World, i: nat, kind: Kind)
    requires Inv(w) && Enabled(w, Do(i, kind)) && (kind.Register? || kind.RevokeOld? || kind.EndFamily?)
    ensures HandleOk(Next(w, Do(i, kind)), Next(w, Do(i, kind)).handles[i])
  {
    MovedStaysFirst(w, i, kind);
    if kind.Register? {
      RegisteredIsMinted(w.server, w.handles[i].at.cookie);
    } else {
      RevokedIsDead(w.server, w.handles[i].id);
    }
  }

  lemma MovingIsOk(w: World, i: nat, kind: Kind)
    requires Inv(w) && Enabled(w, Do(i, kind)) && !kind.Finish? && !kind.RegisterNew?
    requires !kind.Register? && !kind.RevokeOld? && !kind.EndFamily?
    ensures HandleOk(Next(w, Do(i, kind)), Next(w, Do(i, kind)).handles[i])
  {
    MovedStaysFirst(w, i, kind);
    if kind.Draft? || kind.DraftNew? {
      DrawnIsOnItsWay(w, i, kind);
    }
  }

  lemma MoveKeepsApart(w: World, i: nat, kind: Kind)
    requires Inv(w) && Enabled(w, Do(i, kind))
    ensures Apart(Next(w, Do(i, kind)).handles)
  {
    var w' := Next(w, Do(i, kind));
    forall a, b | 0 <= a < b < |w'.handles| && Pending(w'.handles[a].at).Some?
      ensures Pending(w'.handles[a].at) != Pending(w'.handles[b].at)
    {
      assert HandleOk(w, w.handles[a]) && HandleOk(w, w.handles[b]);
    }
  }

  /** A pending cookie stays on its way when another handle moves. */
  lemma OthersAreOk(w: World, i: nat, kind: Kind, j: nat)
    requires Inv(w) && Enabled(w, Do(i, kind)) && j < |w.handles| && j != i
    ensures HandleOk(Next(w, Do(i, kind)), w.handles[j])
  {
    var h := w.handles[j];
    assert HandleOk(w, h);
    MoveKeepsServer(w, i, kind);
    if Pending(h.at).Some? {
      assert Pending(w.handles[i].at) != Pending(h.at);
      OthersStayOnTheirWay(w, i, kind, Pending(h.at).value);
    }
    HandleStays(w, Next(w, Do(i, kind)), h);
  }

  lemma DoKeepsInv(w: World, i: nat, kind: Kind)
    requires Inv(w) && Enabled(w, Do(i, kind))
    ensures Inv(Next(w, Do(i, kind)))
  {
    var w' := Next(w, Do(i, kind));
    MoveKeepsServer(w, i, kind);
    MoveKeepsApart(w, i, kind);
    forall j | 0 <= j < |w'.handles|
      ensures HandleOk(w', w'.handles[j])
    {
      if j == i {
        MovedIsOk(w, i, kind);
      } else {
        OthersAreOk(w, i, kind, j);
      }
    }
  }

  lemma TickKeepsInv(w: World, now: nat)
    requires Inv(w) && w.server.now <= now
    ensures Inv(Next(w, Tick(now)))
  {
    var w' := Next(w, Tick(now));
    forall j | 0 <= j < |w.handles|
      ensures HandleOk(w', w.handles[j])
    {
      HandleStays(w, w', w.handles[j]);
    }
    forall t
      ensures Unseen(w'.server, t)
    {
      assert Unseen(w.server, t);
    }
  }

  lemma ArriveKeepsInv(w: World)
    requires Inv(w)
    ensures Inv(Next(w, Arrive))
  {
    var w' := Next(w, Arrive);
    forall j | 0 <= j < |w'.handles|
      ensures HandleOk(w', w'.handles[j])
    {
      if j < |w.handles| {
        HandleStays(w, w', w.handles[j]);
      }
    }
    forall a, b | 0 <= a < b < |w'.handles| && Pending(w'.handles[a].at).Some?
      ensures Pending(w'.handles[a].at) != Pending(w'.handles[b].at)
    {
    }
  }

  /** Every step of every handle keeps the invariant, and moves the server on. */
  lemma StepKeepsInv(w: World, step: Step)
    requires Inv(w) && Enabled(w, step)
    ensures Inv(Next(w, step)) && Onward(w.server, Next(w, step).server) && w.issued <= Next(w, step).issued
  {
    match step
    case Tick(now) => TickKeepsInv(w, now);
    case Arrive => ArriveKeepsInv(w);
    case Do(i, kind) =>
      DoKeepsInv(w, i, kind);
      MoveKeepsServer(w, i, kind);
  }

  // ---------------------------------------------------------------------------------------------
  // Runs
  // ---------------------------------------------------------------------------------------------

  const START: World := World(Server([], 0, 0), 0, [], {})

  /** A step that is not enabled does not happen. */
  function Run(ttl: int, steps: seq<Step>): World {
    if steps == [] then START.(ttl := ttl)
    else
      var w := Run(ttl, steps[..|steps| - 1]);
      if Enabled(w, steps[|steps| - 1]) then Next(w, steps[|steps| - 1]) else w
  }

  lemma {:induction false} RunKeepsInv(ttl: int, steps: seq<Step>)
    ensures Inv(Run(ttl, steps))
  {
    if steps != [] {
      var front, step := steps[..|steps| - 1], steps[|steps| - 1];
      RunKeepsInv(ttl, front);
      if Enabled(Run(ttl, front), step) {
        StepKeepsInv(Run(ttl, front), step);
      }
    }
  }

  lemma LogsChain(a: Log, b: Log, c: Log)
    requires a <= b <= c
    ensures a <= c
  {
  }

  lemma {:induction false} RunMovesOn(ttl: int, steps: seq<Step>, k: nat)
    requires k <= |steps|
    ensures Onward(Run(ttl, steps[..k]).server, Run(ttl, steps).server) && Run(ttl, steps[..k]).issued <= Run(ttl, steps).issued
  {
    if k == |steps| {
      assert steps[..k] == steps;
    } else {
      var front, step := steps[..|steps| - 1], steps[|steps| - 1];
      assert front[..k] == steps[..k];
      RunMovesOn(ttl, front, k);
      RunKeepsInv(ttl, front);
      if Enabled(Run(ttl, front), step) {
        StepKeepsInv(Run(ttl, front), step);
        LogsChain(Run(ttl, steps[..k]).server.log, Run(ttl, front).server.log, Run(ttl, steps).server.log);
      }
    }
  }

  /** A cookie that a handle has moved on from is refused for good, at any moment of any later world. */
  lemma EarlierCookiesStayRefused(ttl: int, steps: seq<Step>, k: nat, i: nat, t: Token, at: int)
    requires k <= |steps| && i < |Run(ttl, steps[..k]).handles| && t in Run(ttl, steps[..k]).handles[i].retired
    requires Run(ttl, steps).server.now <= at < FOREVER
    ensures !FoundAt(Run(ttl, steps).server.log, t, at, at)
  {
    var w, w' := Run(ttl, steps[..k]), Run(ttl, steps);
    RunKeepsInv(ttl, steps[..k]);
    RunMovesOn(ttl, steps, k);
    assert HandleOk(w, w.handles[i]);
    DeadStays(w.server.log, w'.server.log, t, w.server.now, w'.server.now);
    DeadIsRefusedAtOnce(w'.server.log, t, w'.server.now, at);
  }

  // How long a cookie lives

  /** Handed out, or on its way. */
  ghost predicate Known(w: World, t: Token) {
    t in w.issued || exists i :: 0 <= i < |w.handles| && Pending(w.handles[i].at) == Some(t)
  }

  /** Step `k` puts the cookie together. */
  ghost predicate MintedBy(ttl: int, steps: seq<Step>, k: nat, t: Token) {
    k < |steps| && Drafts(Run(ttl, steps[..k]), steps[k], t)
  }

  /** The step puts the cookie together. */
  ghost predicate Drafts(w: World, step: Step, t: Token) {
    Enabled(w, step) && step.Do? && (step.kind.Draft? || step.kind.DraftNew?) && Pending(Next(w, step).handles[step.i].at) == Some(t)
  }

  lemma OnlyDraftsAreNew(w: World, step: Step, t: Token)
    requires Enabled(w, step) && !Known(w, t) && !Drafts(w, step, t)
    ensures !Known(Next(w, step), t)
  {
    forall j | 0 <= j < |w.handles|
      ensures Pending(w.handles[j].at) != Some(t)
    {
    }
    var w' := Next(w, step);
    forall j | 0 <= j < |w'.handles|
      ensures Pending(w'.handles[j].at) != Some(t)
    {
      if j < |w.handles| && !(step.Do? && step.i == j) {
        assert w'.handles[j] == w.handles[j];
      }
    }
  }

  lemma DraftLivesItsTtl(w: World, step: Step, t: Token, at: int)
    requires Drafts(w, step, t)
    ensures Decodes(t, at) <==> (w.ttl > 0 ==> at < w.server.now + w.ttl)
  {
    match step.kind
    case Draft(values) => CookieLivesItsTtl(w.server, w.ttl, w.handles[step.i].family, values, at);
    case DraftNew => CookieLivesItsTtl(w.server, w.ttl, None, map[], at);
  }

  lemma {:induction false} TtlStays(ttl: int, steps: seq<Step>)
    ensures Run(ttl, steps).ttl == ttl
  {
    if steps != [] {
      TtlStays(ttl, steps[..|steps| - 1]);
    }
  }

  /** Every cookie was put together by some step, and decodes until the ttl after that, or for ever without one. */
  lemma {:induction false} CookiesLiveTheirTtl(ttl: int, steps: seq<Step>, t: Token) returns (k: nat)
    requires Known(Run(ttl, steps), t)
    ensures MintedBy(ttl, steps, k, t)
    ensures forall at :: Decodes(t, at) <==> (ttl > 0 ==> at < Run(ttl, steps[..k]).server.now + ttl)
  {
    var front, step := steps[..|steps| - 1], steps[|steps| - 1];
    if Known(Run(ttl, front), t) {
      k := CookiesLiveTheirTtl(ttl, front, t);
      assert front[..k] == steps[..k];
    } else {
      k := |front|;
      if !Drafts(Run(ttl, front), step, t) {
        OnlyDraftsAreNew(Run(ttl, front), step, t);
        assert false;
      }
      TtlStays(ttl, front);
      forall at
        ensures Decodes(t, at) <==> (ttl > 0 ==> at < Run(ttl, front).server.now + ttl)
      {
        DraftLivesItsTtl(Run(ttl, front), step, t, at);
      }
    }
  }

  /** So with a limit, no cookie handed out is found from `ttl` after its minting on, whatever the store says. */
  lemma CookiesExpire(ttl: int, steps: seq<Step>, t: Token, log: Log, decoded: int, asked: int) returns (k: nat)
    requires ttl > 0 && t in Run(ttl, steps).issued
    ensures MintedBy(ttl, steps, k, t)
    ensures Run(ttl, steps[..k]).server.now + ttl <= decoded ==> !FoundAt(log, t, decoded, asked)
  {
    k := CookiesLiveTheirTtl(ttl, steps, t);
  }

  // What a finished rotation is worth

  predicate EndedSince(log: Log, mark: nat, family: Family) {
    exists n :: mark <= n < |log| && log[n].FamilyRevoked? && log[n].family == family
  }

  /** Without an end of the family in between, it is revoked no longer than it was. */
  lemma {:induction false} NotEndedSince(log: Log, mark: nat, t: Token)
    requires t.Signed? && mark <= |log| && !EndedSince(log, mark, t.family)
    ensures FamilyThrough(log, t.family) == FamilyThrough(log[..mark], t.family)
  {
    if mark < |log| {
      var front := log[..|log| - 1];
      assert forall n :: mark <= n < |front| ==> front[n] == log[n];
      NotEndedSince(front, mark, t);
      assert front[..mark] == log[..mark];
    } else {
      assert log[..mark] == log;
    }
  }

  /** An end of the family after the cookie was registered reaches beyond its expiry. */
  lemma EndCoversTheMinted(s: Server, t: Token, mark: nat, n: nat)
    requires WasMinted(s, t, mark) && EndsCover(s.log) && mark <= n < |s.log|
    requires s.log[n].FamilyRevoked? && s.log[n].family == t.family
    ensures FamilyThrough(s.log, t.family) >= Expiry(t)
  {
    assert s.log[..n][mark - 1] == Registration(t);
    EventCounts(s.log[..n], mark - 1);
    EventCounts(s.log, n);
  }

  /**
   A change that succeeds leaves the handle with a cookie that carries its values. At that moment the cookie is
   found if it has not expired, exactly unless the family was ended between its registration and now.
   */
  lemma NewCookieIsFoundExactlyUnless(ttl: int, steps: seq<Step>, i: nat)
    requires Enabled(Run(ttl, steps), Do(i, Finish)) && Run(ttl, steps).server.now < FOREVER
    ensures var w := Run(ttl, steps);
            var was, h, s := w.handles[i], Next(w, Do(i, Finish)).handles[i], w.server;
            && h.id == was.at.cookie && h.id.Signed? && h.values == was.at.values == h.id.values && h.at.Idle?
            && (was.family.Some? ==> h.id.family == was.family.value)
            && 0 < was.at.mark <= |s.log| && s.log[was.at.mark - 1] == Registration(h.id)
            && (Decodes(h.id, s.now) ==> (FoundAt(s.log, h.id, s.now, s.now) <==> !EndedSince(s.log, was.at.mark, h.id.family)))
  {
    RunKeepsInv(ttl, steps);
    var w := Run(ttl, steps);
    assert HandleOk(w, w.handles[i]);
    FoundExactlyUnlessEnded(w.server, w.handles[i].at.cookie, w.handles[i].at.mark);
  }

  lemma FoundExactlyUnlessEnded(s: Server, t: Token, mark: nat)
    requires WasMinted(s, t, mark) && EndsCover(s.log) && TokenThrough(s.log, t) == 0 && s.now < FOREVER
    ensures Decodes(t, s.now) ==> (FoundAt(s.log, t, s.now, s.now) <==> !EndedSince(s.log, mark, t.family))
  {
    if EndedSince(s.log, mark, t.family) {
      var n :| mark <= n < |s.log| && s.log[n].FamilyRevoked? && s.log[n].family == t.family;
      EndCoversTheMinted(s, t, mark, n);
    } else {
      NotEndedSince(s.log, mark, t);
    }
  }

  // Failures

  /** What a handle shows while it is in the middle of an operation. */
  function Outward(h: Handle): (Token, Option<Family>, Values, bool, set<Token>) {
    (h.id, h.family, h.values, h.loggedOut, h.retired)
  }

  /** Handle `i` is in the middle of one operation after each of the steps from `j` on. */
  ghost predicate BusySince(ttl: int, steps: seq<Step>, j: nat, i: nat) {
    forall m :: j < m <= |steps| ==> i < |Run(ttl, steps[..m]).handles| && !Run(ttl, steps[..m]).handles[i].at.Idle?
  }

  lemma {:induction false} BusyShowsTheSame(ttl: int, steps: seq<Step>, j: nat, i: nat)
    requires j <= |steps| && i < |Run(ttl, steps[..j]).handles| && Run(ttl, steps[..j]).handles[i].at.Idle?
    requires BusySince(ttl, steps, j, i)
    ensures i < |Run(ttl, steps).handles| && Outward(Run(ttl, steps).handles[i]) == Outward(Run(ttl, steps[..j]).handles[i])
    ensures var at := Run(ttl, steps).handles[i].at;
            !at.Blank? && !at.Opening? && !at.Opened?
  {
    if j == |steps| {
      assert steps[..j] == steps;
    } else {
      var front, step := steps[..|steps| - 1], steps[|steps| - 1];
      assert front[..j] == steps[..j];
      forall m | j < m <= |front|
        ensures front[..m] == steps[..m]
      {
      }
      assert steps[..|steps|] == steps;
      BusyShowsTheSame(ttl, front, j, i);
      var w := Run(ttl, front);
      if Enabled(w, step) && step.Do? && step.i == i {
        assert !Next(w, step).handles[i].at.Idle?;
      }
    }
  }

  /** A change or a logout that fails leaves the handle as it was before it began. */
  lemma FailureChangesNothing(ttl: int, steps: seq<Step>, j: nat, i: nat)
    requires j < |steps| && i < |Run(ttl, steps[..j]).handles| && Run(ttl, steps[..j]).handles[i].at.Idle?
    requires BusySince(ttl, steps, j, i) && Enabled(Run(ttl, steps), Do(i, Fail))
    ensures Next(Run(ttl, steps), Do(i, Fail)).handles[i] == Run(ttl, steps[..j]).handles[i]
  {
    BusyShowsTheSame(ttl, steps, j, i);
  }

  /** And none of its own moves on the way has changed which cookies are found. */
  lemma FailedMovesAcceptTheSame(w: World, i: nat, kind: Kind, t: Token, decoded: int, asked: int)
    requires Enabled(w, Do(i, kind)) && Harmless(kind)
    ensures FoundAt(Next(w, Do(i, kind)).server.log, t, decoded, asked) == FoundAt(w.server.log, t, decoded, asked)
  {
    HarmlessAcceptsTheSame(w.handles[i], w.server, w.ttl, kind, t, decoded, asked);
  }

  // Logout

  /** Step `j` ends the family: the handle's cookie had not expired when it was decoded. */
  ghost predicate EndsFamily(ttl: int, steps: seq<Step>, j: nat, i: nat, family: Family) {
    && j < |steps| && steps[j] == Do(i, EndFamily) && Enabled(Run(ttl, steps[..j]), steps[j])
    && Run(ttl, steps[..j]).handles[i].id.family == family
  }

  /** Handed out, or minted and on its way. */
  ghost predicate Current(w: World, t: Token) {
    t in w.issued || exists k :: 0 <= k < |w.handles| && Marked(w.handles[k].at) && w.handles[k].at.cookie == t
  }

  lemma CurrentIsCovered(w: World, t: Token)
    requires Inv(w) && Current(w, t)
    ensures Covered(w.server, t)
  {
    if t !in w.issued {
      var k :| 0 <= k < |w.handles| && Marked(w.handles[k].at) && w.handles[k].at.cookie == t;
      assert HandleOk(w, w.handles[k]);
      MintedIsCovered(w.server, t, w.handles[k].at.mark);
    }
  }

  lemma LogoutCovers(ttl: int, steps: seq<Step>, j: nat, i: nat, family: Family, t: Token)
    requires EndsFamily(ttl, steps, j, i, family) && Current(Run(ttl, steps[..j]), t) && t.Signed? && t.family == family
    ensures FamilyThrough(Run(ttl, steps).server.log, family) >= Expiry(t)
  {
    var w := Run(ttl, steps[..j]);
    RunKeepsInv(ttl, steps[..j]);
    CurrentIsCovered(w, t);
    assert steps[..j + 1][..j] == steps[..j];
    var e := FamilyEnd(w.server.log, w.handles[i].id);
    AfterEvent(w.server.log, e, t, family);
    RunMovesOn(ttl, steps, j + 1);
    PrefixThrough(w.server.log + [e], Run(ttl, steps).server.log, t, family);
  }

  /** After that, every cookie of the family that was handed out or minted before is refused for good. */
  lemma LogoutRefusesTheFamily(ttl: int, steps: seq<Step>, j: nat, i: nat, family: Family, t: Token, at: int)
    requires EndsFamily(ttl, steps, j, i, family) && Current(Run(ttl, steps[..j]), t)
    requires t.Signed? && t.family == family && at < FOREVER
    ensures !FoundAt(Run(ttl, steps).server.log, t, at, at)
  {
    LogoutCovers(ttl, steps, j, i, family, t);
  }

  /** And no handle of the family can have a new cookie registered while one of those would not have expired. */
  lemma LogoutStopsTheFamily(ttl: int, steps: seq<Step>, j: nat, i: nat, family: Family, t: Token, k: nat)
    requires EndsFamily(ttl, steps, j, i, family) && Current(Run(ttl, steps[..j]), t) && t.Signed? && t.family == family
    requires Run(ttl, steps).server.now < Expiry(t)
    requires k < |Run(ttl, steps).handles| && Run(ttl, steps).handles[k].at.Drafted?
    requires Run(ttl, steps).handles[k].family == Some(family)
    ensures !Enabled(Run(ttl, steps), Do(k, Register))
  {
    RunKeepsInv(ttl, steps);
    assert HandleOk(Run(ttl, steps), Run(ttl, steps).handles[k]);
    LogoutCovers(ttl, steps, j, i, family, t);
  }

  /** Logging out with a cookie that has expired ends the handle alone: nothing is revoked. */
  lemma ExpiredLogoutRevokesNothing(w: World, i: nat)
    requires Inv(w) && Enabled(w, Do(i, CheckLogout))
    ensures var w' := Next(w, Do(i, CheckLogout));
            && w'.server == w.server && (w'.handles[i].loggedOut <==> !Decodes(w.handles[i].id, w.server.now))
            && (!w'.handles[i].loggedOut ==> Enabled(w', Do(i, EndFamily)))
  {
    assert HandleOk(w, w.handles[i]);
  }

  // A change in flight at the logout

  /** The steps lead from one world to the other, each of them enabled. */
  ghost predicate Leads(w: World, steps: seq<Step>, w': World)
    decreases |steps|
  {
    if steps == [] then w' == w else Enabled(w, steps[0]) && Leads(Next(w, steps[0]), steps[1..], w')
  }

  lemma LeadsFirst(w: World, step: Step, steps: seq<Step>, w': World)
    requires Enabled(w, step) && Leads(Next(w, step), steps, w')
    ensures Leads(w, [step] + steps, w')
  {
    assert ([step] + steps)[1..] == steps;
  }

  lemma {:induction false} LeadsOn(w: World, first: seq<Step>, mid: World, second: seq<Step>, w': World)
    requires Leads(w, first, mid) && Leads(mid, second, w')
    ensures Leads(w, first + second, w')
    decreases |first|
  {
    if first == [] {
      assert first + second == second;
    } else {
      LeadsOn(Next(w, first[0]), first[1..], mid, second, w');
      assert (first + second)[1..] == first[1..] + second;
    }
  }

  /** Handle `i` has a new cookie registered. */
  lemma Mints(w: World, i: nat, values: Values) returns (steps: seq<Step>, w': World)
    requires i < |w.handles| && w.handles[i].at.Idle? && !w.handles[i].loggedOut && w.handles[i].family.Some?
    requires !Closed(w.server.log, w.handles[i].family.value, w.server.now)
    ensures Leads(w, steps, w')
    ensures var t := CookieOf(w.server, w.ttl, w.handles[i].family, values);
            var log := w.server.log + [Registration(t)];
            w'.server == Drawn(w.server, w.handles[i].family).(log := log)
            && w'.handles == w.handles[i := w.handles[i].(at := Minted(values, t, |log|))]
  {
    var a := Next(w, Do(i, Draft(values)));
    w' := Next(a, Do(i, Register));
    assert Leads(w', [], w');
    LeadsFirst(a, Do(i, Register), [], w');
    LeadsFirst(w, Do(i, Draft(values)), [Do(i, Register)] + [], w');
    steps := [Do(i, Draft(values))] + ([Do(i, Register)] + []);
  }

  /** Handle `j` logs out. */
  lemma Ends(w: World, j: nat) returns (steps: seq<Step>, w': World)
    requires j < |w.handles| && w.handles[j].at.Idle? && !w.handles[j].loggedOut && Decodes(w.handles[j].id, w.server.now)
    ensures Leads(w, steps, w')
    ensures w'.server == w.server.(log := w.server.log + [FamilyEnd(w.server.log, w.handles[j].id)])
    ensures w'.handles == w.handles[j := LoggedOut(w.handles[j])]
  {
    var a := Next(w, Do(j, CheckLogout));
    w' := Next(a, Do(j, EndFamily));
    assert Leads(w', [], w');
    LeadsFirst(a, Do(j, EndFamily), [], w');
    LeadsFirst(w, Do(j, CheckLogout), [Do(j, EndFamily)] + [], w');
    steps := [Do(j, CheckLogout)] + ([Do(j, EndFamily)] + []);
  }

  /** Handle `i` has a new cookie registered, and handle `j` of the same family logs out. */
  lemma MintedThenEnded(w: World, i: nat, j: nat, values: Values) returns (steps: seq<Step>, w': World)
    requires i < |w.handles| && j < |w.handles| && i != j
    requires w.handles[i].at.Idle? && !w.handles[i].loggedOut && w.handles[j].at.Idle? && !w.handles[j].loggedOut
    requires Decodes(w.handles[j].id, w.server.now) && w.handles[i].family == Some(w.handles[j].id.family)
    requires !Closed(w.server.log, w.handles[j].id.family, w.server.now)
    ensures Leads(w, steps, w') && i < |w'.handles| && w'.handles[i].at.Minted? && w'.handles[i].id == w.handles[i].id
    ensures w'.server.now == w.server.now && w'.handles[i].at.values == values && w'.handles[i].at.cookie.Signed?
    ensures FamilyThrough(w'.server.log, w'.handles[i].at.cookie.family) >= Expiry(w'.handles[i].at.cookie)
  {
    var first, minted := Mints(w, i, values);
    var second, ended := Ends(minted, j);
    LeadsOn(w, first, minted, second, ended);
    var t := minted.handles[i].at.cookie;
    AfterEvent(w.server.log, Registration(t), t, t.family);
    AfterEvent(minted.server.log, FamilyEnd(minted.server.log, w.handles[j].id), t, t.family);
    steps, w' := first + second, ended;
  }

  /** Handle `i` finishes. */
  lemma RotationFinishes(w: World, i: nat) returns (steps: seq<Step>, w': World)
    requires i < |w.handles| && w.handles[i].at.Minted? && Decodes(w.handles[i].id, w.server.now)
    ensures Leads(w, steps, w') && i < |w'.handles| && w'.handles[i].at.Idle? && w'.handles[i].id == w.handles[i].at.cookie
    ensures w.server.log <= w'.server.log && w'.handles[i].values == w.handles[i].at.values
  {
    var a := Next(w, Do(i, CheckOld));
    var b := Next(a, Do(i, RevokeOld));
    w' := Next(b, Do(i, Finish));
    assert Leads(w', [], w');
    LeadsFirst(b, Do(i, Finish), [], w');
    LeadsFirst(a, Do(i, RevokeOld), [Do(i, Finish)] + [], w');
    LeadsFirst(w, Do(i, CheckOld), [Do(i, RevokeOld)] + ([Do(i, Finish)] + []), w');
    steps := [Do(i, CheckOld)] + ([Do(i, RevokeOld)] + ([Do(i, Finish)] + []));
  }

  /**
   So a change can succeed after a logout of its family has: it had its cookie registered before. The handle then
   has a cookie that is refused for good.
   */
  lemma ChangeInFlightYieldsARefusedCookie(w: World, i: nat, j: nat, values: Values)
    returns (first: seq<Step>, ended: World, second: seq<Step>, w': World)
    requires Inv(w) && i < |w.handles| && j < |w.handles| && i != j
    requires w.handles[i].at.Idle? && !w.handles[i].loggedOut && w.handles[j].at.Idle? && !w.handles[j].loggedOut
    requires Decodes(w.handles[i].id, w.server.now) && Decodes(w.handles[j].id, w.server.now)
    requires w.handles[i].family == Some(w.handles[j].id.family)
    requires !Closed(w.server.log, w.handles[j].id.family, w.server.now)
    ensures Leads(w, first, ended) && Leads(ended, second, w') && i < |w'.handles|
    ensures w'.handles[i].at.Idle? && w'.handles[i].values == values && w'.handles[i].id.Signed?
    ensures forall at :: at < FOREVER ==> !FoundAt(w'.server.log, w'.handles[i].id, at, at)
  {
    first, ended := MintedThenEnded(w, i, j, values);
    second, w' := RotationFinishes(ended, i);
    var t := ended.handles[i].at.cookie;
    PrefixThrough(ended.server.log, w'.server.log, t, t.family);
  }

  // ---------------------------------------------------------------------------------------------
  // One handle among others
  // ---------------------------------------------------------------------------------------------

  /** The handle makes these moves, in this order; before each, others may have moved the server on. */
  ghost predicate Performs(ttl: int, h: Handle, s: Server, kinds: seq<Kind>, h': Handle, s': Server)
    decreases |kinds|
  {
    if kinds == [] then h' == h && Onward(s, s')
    else exists h1, s1, e :: PerformsLast(ttl, h, s, kinds, h1, s1, e, h', s')
  }

  ghost predicate PerformsLast(
    ttl: int, h: Handle, s: Server, kinds: seq<Kind>, h1: Handle, s1: Server, e: Server, h': Handle, s': Server)
    requires kinds != []
    decreases |kinds|, 0
  {
    var last := kinds[|kinds| - 1];
    Performs(ttl, h, s, kinds[..|kinds| - 1], h1, s1) && Onward(s1, e) && CanDo(h1, e, last) && (h', s') == Move(h1, e, ttl, last)
  }

  lemma PerformsMore(ttl: int, h: Handle, s: Server, kinds: seq<Kind>, h1: Handle, s1: Server, e: Server, kind: Kind)
    requires Performs(ttl, h, s, kinds, h1, s1) && Onward(s1, e) && CanDo(h1, e, kind)
    ensures Performs(ttl, h, s, kinds + [kind], Move(h1, e, ttl, kind).0, Move(h1, e, ttl, kind).1)
  {
    var all := kinds + [kind];
    assert all[..|all| - 1] == kinds;
    assert PerformsLast(ttl, h, s, all, h1, s1, e, Move(h1, e, ttl, kind).0, Move(h1, e, ttl, kind).1);
  }

  /** The moves of a change that succeeds. */
  predicate Changes(kinds: seq<Kind>, values: Values) {
    kinds == [Draft(values), Register, CheckOld, Finish] || kinds == [Draft(values), Register, CheckOld, RevokeOld, Finish]
  }

  /** The moves of one that fails: it may have registered a cookie that nobody ever sees. */
  predicate Fails(kinds: seq<Kind>, values: Values) {
    kinds == [] || kinds == [Draft(values), Register, Fail] || kinds == [Draft(values), Register, CheckOld, Fail]
  }

  ghost predicate Rotates(ttl: int, h: Handle, s: Server, values: Values, h': Handle, s': Server, ok: bool) {
    exists kinds :: Performs(ttl, h, s, kinds, h', s') && if ok then Changes(kinds, values) else Fails(kinds, values)
  }

  ghost predicate LogsOut(ttl: int, h: Handle, s: Server, h': Handle, s': Server, ok: bool) {
    exists kinds :: Performs(ttl, h, s, kinds, h', s')
                    && if ok then h'.loggedOut && (kinds == [] || kinds == [CheckLogout] || kinds == [CheckLogout, EndFamily])
                       else kinds == [] || kinds == [CheckLogout, Fail]
  }

  /** At some moment in between, the cookie is refused. */
  ghost predicate NotFoundBetween(cookie: Token, s: Server, s': Server) {
    exists asked :: Onward(s, asked) && Onward(asked, s') && !FoundAt(asked.log, cookie, asked.now, asked.now)
  }

  ghost predicate Opens(ttl: int, cookie: Option<Token>, s: Server, h': Handle, s': Server) {
    exists kinds :: Performs(ttl, BLANK, s, kinds, h', s')
                    && ((kinds == [DraftNew, RegisterNew, Settle] && (cookie.Some? ==> NotFoundBetween(cookie.value, s, s')))
                        || (cookie.Some? && exists decoded :: kinds == [Take(cookie.value, decoded), Settle]))
  }

  /** A failed change leaves the handle as it was. */
  lemma FailedRotationChangesNothing(ttl: int, h: Handle, s: Server, values: Values, h': Handle, s': Server)
    requires Rotates(ttl, h, s, values, h', s', false) && h.at.Idle?
    ensures h' == h
  {
    var kinds :| Performs(ttl, h, s, kinds, h', s') && Fails(kinds, values);
    if kinds != [] {
      FailureAtTheEnd(ttl, h, s, kinds, h', s');
    }
  }

  lemma FailureAtTheEnd(ttl: int, h: Handle, s: Server, kinds: seq<Kind>, h': Handle, s': Server)
    requires h.at.Idle? && kinds != [] && kinds[|kinds| - 1].Fail? && Performs(ttl, h, s, kinds, h', s')
    requires forall i :: 0 <= i < |kinds| - 1 ==> kinds[i].Draft? || kinds[i].Register? || kinds[i].CheckOld?
    ensures h' == h
  {
    var h1, s1, e :| PerformsLast(ttl, h, s, kinds, h1, s1, e, h', s');
    PerformsKeepsOutward(ttl, h, s, kinds[..|kinds| - 1], h1, s1);
  }

  lemma {:induction false} PerformsKeepsOutward(ttl: int, h: Handle, s: Server, kinds: seq<Kind>, h': Handle, s': Server)
    requires Performs(ttl, h, s, kinds, h', s') && forall i :: 0 <= i < |kinds| ==> kinds[i].Draft? || kinds[i].Register? || kinds[i].CheckOld?
    ensures Outward(h') == Outward(h) && (h'.at.Opening? ==> h.at.Opening?)
    decreases |kinds|
  {
    if kinds != [] {
      var h1, s1, e :| PerformsLast(ttl, h, s, kinds, h1, s1, e, h', s');
      PerformsKeepsOutward(ttl, h, s, kinds[..|kinds| - 1], h1, s1);
    }
  }

  // ---------------------------------------------------------------------------------------------
  // The storage
  // ---------------------------------------------------------------------------------------------

  /** At some moment in between, the store would not register a cookie of the family, or of the new one. */
  ghost predicate Refused(s: Server, s': Server, family: Option<Family>) {
    exists asked, f :: RefusedAt(s, asked, s', family, f)
  }

  ghost predicate RefusedAt(s: Server, asked: Server, s': Server, family: Option<Family>, f: Family) {
    && Onward(s, asked) && Onward(asked, s') && Closed(asked.log, f, asked.now)
    && (match family case Some(given) => f == given case None => s.drawn <= f)
  }

  lemma RefusedLater(s: Server, m: Server, s': Server, family: Option<Family>)
    requires Onward(s, m) && Refused(m, s', family)
    ensures Refused(s, s', family)
  {
    var asked, f :| RefusedAt(m, asked, s', family, f);
    assert RefusedAt(s, asked, s', family, f);
  }

  datatype Got = Found(values: Values) | NotFound | Failed

  /** `faults` counts what failed from outside in the calls made here, and not by other requests. */
  class CookieStorage {
    const revocations: MemoryCookieRevocationStore
    var now: nat
    var drawn: nat
    ghost var faults: nat

    ghost predicate Valid()
      reads this, revocations
    {
      revocations.Valid() && revocations.last <= now
    }

    ghost function State(): Server
      reads this, revocations
    {
      Server(revocations.log, now, drawn)
    }

    constructor (revocations: MemoryCookieRevocationStore)
      requires revocations.Valid() && revocations.last == 0
      ensures Valid() && this.revocations == revocations && State() == Server(revocations.log, 0, 0) && faults == 0
    {
      this.revocations := revocations;
      now, drawn, faults := 0, 0, 0;
    }

    /** Something outside may fail. */
    method Outside() returns (fault: bool)
      modifies `faults
      ensures faults == old(faults) + if fault then 1 else 0
    {
      fault := *;
      if fault {
        faults := faults + 1;
      }
    }

    /** Time passes, and other requests use the store. */
    method Elsewhere()
      requires Valid()
      modifies this, revocations
      ensures Valid() && Onward(old(State()), State()) && faults == old(faults)
    {
      var calls: nat :| 0 <= calls;
      for i := 0 to calls
        invariant Valid() && Onward(old(State()), State()) && faults == old(faults)
      {
        var later: nat :| now <= later;
        var more: nat :| drawn <= more;
        now, drawn := later, more;
        var token: Token, expiresAt: int, which: int := *, *, *;
        var family: nat :| 0 <= family;
        if which == 0 {
          revocations.RevokeToken(token, expiresAt);
        } else if which == 1 {
          revocations.RevokeFamily(family, expiresAt, now);
        } else {
          var ok := revocations.RegisterFamilyToken(family, expiresAt, now);
        }
      }
    }

    method NewID() returns (id: nat)
      requires Valid()
      modifies this`drawn
      ensures Valid() && id == old(drawn) && drawn == id + 1
    {
      id, drawn := drawn, drawn + 1;
    }

    /** `asked` is the server when the store answers. */
    method Get(id: Token) returns (r: Got, ghost decoded: nat, ghost asked: Server)
      requires Valid()
      modifies this, revocations
      ensures Valid() && Onward(old(State()), asked) && Onward(asked, State()) && decoded <= asked.now
      ensures faults == old(faults) + if r.Failed? then 1 else 0
      ensures r.Found? ==> id.Signed? && r.values == id.values && FoundAt(asked.log, id, decoded, asked.now)
      ensures r.NotFound? ==> !FoundAt(asked.log, id, asked.now, asked.now)
    {
      Elsewhere();
      decoded, asked := now, State();
      if !Decodes(id, now) {
        return Got.NotFound, decoded, asked;
      }
      Elsewhere();
      asked := State();
      var fault := Outside();
      if fault {
        return Failed, decoded, asked;
      }
      var revoked := revocations.IsRevoked(id, Some(id.family), now);
      if revoked {
        return Got.NotFound, decoded, asked;
      }
      return Found(id.values), decoded, asked;
    }

    /** The family of a cookie that still decodes. */
    method Family(id: Token) returns (family: Option<Family>)
      requires Valid()
      modifies this, revocations
      ensures Valid() && Onward(old(State()), State()) && family == FamilyOf(id, now) && faults == old(faults)
    {
      Elsewhere();
      return if Decodes(id, now) then Some(id.family) else None;
    }

    /** Puts a cookie together, as the server stands at `drafted`. */
    method Sign(values: Values, ttl: int, family: Option<Family>) returns (id: Token, ghost drafted: Server)
      requires Valid()
      modifies this`drawn
      ensures Valid() && drafted == old(State()) && State() == Drawn(drafted, family)
      ensures id == CookieOf(drafted, ttl, family, values)
    {
      drafted := State();
      var nonce := NewID();
      var f;
      match family {
        case Some(given) => f := given;
        case None => f := NewID();
      }
      id := Signed(if ttl > 0 then now + ttl else 0, nonce, f, values);
    }

    /** `drafted` is the server when the cookie is put together, `asked` when it is to be registered. */
    method EncodeWithFamily(values: Values, ttl: int, family: Option<Family>)
      returns (r: Option<Token>, ghost drafted: Server, ghost asked: Server)
      requires Valid()
      modifies this, revocations
      ensures Valid() && Onward(old(State()), State())
      ensures faults == old(faults) || (faults == old(faults) + 1 && r.None?)
      ensures r.None? && faults == old(faults) ==> Refused(old(State()), State(), family)
      ensures r.Some? ==> forall at :: Decodes(r.value, at) <==> (ttl > 0 ==> at < drafted.now + ttl)
      ensures r.Some? ==>
                && Onward(old(State()), drafted) && r.value == CookieOf(drafted, ttl, family, values)
                && Onward(Drawn(drafted, family), asked) && !Closed(asked.log, r.value.family, asked.now)
                && State() == asked.(log := asked.log + [Registration(r.value)])
    {
      Elsewhere();
      drafted, asked := State(), State();
      var fault := Outside();
      if fault {
        return None, drafted, asked;
      }
      var id;
      id, drafted := Sign(values, ttl, family);
      Elsewhere();
      asked := State();
      fault := Outside();
      if fault {
        return None, drafted, asked;
      }
      var ok := revocations.RegisterFamilyToken(id.family, Expiry(id), now);
      if !ok {
        assert RefusedAt(old(State()), asked, State(), family, id.family);
        return None, drafted, asked;
      }
      return Some(id), drafted, asked;
    }

    /** `checked` is the server when the cookie is decoded, `asked` when it is to be revoked. */
    method RevokeToken(id: Token) returns (ok: bool, ghost checked: Server, ghost asked: Server)
      requires Valid()
      modifies this, revocations
      ensures Valid() && Onward(old(State()), checked) && Onward(checked, asked)
      ensures !ok ==> State() == asked && Decodes(id, checked.now)
      ensures ok ==> State() == if Decodes(id, checked.now) then asked.(log := asked.log + [TokenRevoked(id, Expiry(id))]) else asked
      ensures faults == old(faults) + if ok then 0 else 1
      ensures ok && !Decodes(id, checked.now) ==> asked == checked
    {
      Elsewhere();
      checked, asked := State(), State();
      if !Decodes(id, now) {
        return true, checked, asked;
      }
      Elsewhere();
      asked := State();
      var fault := Outside();
      if fault {
        return false, checked, asked;
      }
      revocations.RevokeToken(id, Expiry(id));
      return true, checked, asked;
    }

    /** Revokes the whole family of a cookie that decodes. */
    method Delete(id: Token) returns (ok: bool, ghost checked: Server, ghost asked: Server)
      requires Valid()
      modifies this, revocations
      ensures Valid() && Onward(old(State()), checked) && Onward(checked, asked)
      ensures !ok ==> State() == asked && Decodes(id, checked.now)
      ensures ok ==> State() == if Decodes(id, checked.now) then asked.(log := asked.log + [FamilyEnd(asked.log, id)]) else asked
      ensures faults == old(faults) + if ok then 0 else 1
      ensures ok && !Decodes(id, checked.now) ==> asked == checked
    {
      Elsewhere();
      checked, asked := State(), State();
      if !Decodes(id, now) {
        return true, checked, asked;
      }
      Elsewhere();
      asked := State();
      var fault := Outside();
      if fault {
        return false, checked, asked;
      }
      revocations.RevokeFamily(id.family, Expiry(id), now);
      return true, checked, asked;
    }
  }

  // ---------------------------------------------------------------------------------------------
  // A handle
  // ---------------------------------------------------------------------------------------------

  /** A change that fails has a reason: one thing failed from outside, or the family was closed when the store was asked. */
  ghost predicate Accounted(ok: bool, before: nat, after: nat, s: Server, s': Server, family: Option<Family>) {
    if ok then after == before else after == before + 1 || (after == before && Refused(s, s', family))
  }

  class ManagedSession {
    const storage: CookieStorage
    const ttl: int
    var id: Token
    var family: Option<Family>
    var values: Values
    var loggedOut: bool
    ghost var retired: set<Token>

    ghost function State(): Handle
      reads this
    {
      Handle(id, family, values, loggedOut, retired, Idle)
    }

    constructor (storage: CookieStorage, ttl: int, id: Token, family: Option<Family>, values: Values)
      ensures this.storage == storage && this.ttl == ttl && State() == Handle(id, family, values, false, {}, Idle)
    {
      this.storage, this.ttl, this.id, this.family, this.values := storage, ttl, id, family, values;
      loggedOut, retired := false, {};
    }

    /** Mints a cookie for the values in hand, then revokes the old one; only then moves over. */
    method Persist(ghost h: Handle) returns (ok: bool)
      requires storage.Valid() && h == State().(values := h.values) && !loggedOut
      modifies this, storage, storage.revocations
      ensures storage.Valid() && (!ok ==> State() == old(State()))
      ensures Accounted(ok, old(storage.faults), storage.faults, old(storage.State()), storage.State(), old(family))
      ensures Rotates(ttl, h, old(storage.State()), old(values), if ok then State() else h, storage.State(), ok)
    {
      ghost var s := storage.State();
      ghost var drafted, asked;
      var minted;
      minted, drafted, asked := storage.EncodeWithFamily(values, ttl, family);
      if minted.None? {
        assert Performs(ttl, h, s, [], h, storage.State());
        return false;
      }
      ghost var m := storage.State();
      ghost var h2 := h.(at := Minted(values, minted.value, |m.log|));
      MintingPerforms(ttl, h, s, values, drafted, asked);
      var unprepared := storage.Outside();
      if unprepared {
        AbandoningPerforms(ttl, h, s, values, h2, m);
        return false;
      }
      ok := MoveOver(h, s, h2, minted.value);
    }

    /** Revokes the old cookie and takes up the new one. */
    method MoveOver(ghost h: Handle, ghost s: Server, ghost h2: Handle, next: Token) returns (ok: bool)
      requires storage.Valid() && h == State().(values := h.values) && !loggedOut
      requires h2.at.Minted? && h2 == h.(at := Minted(values, next, h2.at.mark))
      requires Performs(ttl, h, s, [Draft(values), Register], h2, storage.State())
      modifies this, storage, storage.revocations
      ensures storage.Valid() && (!ok ==> State() == old(State()))
      ensures storage.faults == old(storage.faults) + if ok then 0 else 1
      ensures Rotates(ttl, h, s, old(values), if ok then State() else h, storage.State(), ok)
    {
      ghost var m := storage.State();
      ghost var checked, asked;
      ok, checked, asked := storage.RevokeToken(id);
      RetiringPerforms(ttl, h, s, values, h2, m, checked, asked, ok, storage.State());
      if !ok {
        return false;
      }
      ghost var r := storage.State();
      retired := retired + {id};
      id := next;
      family := storage.Family(id);
      FinishingPerforms(ttl, h, s, values, h2, r, storage.State());
    }

    /** `value` is None if it has no normal form. */
    method Set(key: string, value: Option<string>) returns (ok: bool)
      requires storage.Valid()
      modifies this, storage, storage.revocations
      ensures storage.Valid()
      ensures value.None? || old(loggedOut) ==> !ok && State() == old(State()) && storage.State() == old(storage.State())
      ensures value.Some? ==>
                Rotates(ttl, old(State()), old(storage.State()), old(values)[key := value.value], State(), storage.State(), ok)
      ensures value.Some? && !old(loggedOut) ==>
                Accounted(ok, old(storage.faults), storage.faults, old(storage.State()), storage.State(), old(family))
    {
      ghost var before := State();
      if value.None? || loggedOut {
        assert Performs(ttl, before, storage.State(), [], before, storage.State());
        return false;
      }
      var previous := if key in values then Some(values[key]) else None;
      values := values[key := value.value];
      ok := Persist(before);
      if !ok {
        values := if previous.Some? then values[key := previous.value] else values - {key};
        assert values == before.values;
      }
    }

    method Delete(key: string) returns (ok: bool)
      requires storage.Valid()
      modifies this, storage, storage.revocations
      ensures storage.Valid()
      ensures Rotates(ttl, old(State()), old(storage.State()), old(values) - {key}, State(), storage.State(), ok)
      ensures old(loggedOut) ==> !ok && State() == old(State()) && storage.State() == old(storage.State())
      ensures !old(loggedOut) ==>
                Accounted(ok, old(storage.faults), storage.faults, old(storage.State()), storage.State(), old(family))
    {
      ghost var before := State();
      if loggedOut {
        assert Performs(ttl, before, storage.State(), [], before, storage.State());
        return false;
      }
      var previous := if key in values then Some(values[key]) else None;
      values := values - {key};
      ok := Persist(before);
      if !ok && previous.Some? {
        values := values[key := previous.value];
      }
      assert !ok ==> values == before.values;
    }

    method Clear() returns (ok: bool)
      requires storage.Valid()
      modifies this, storage, storage.revocations
      ensures storage.Valid()
      ensures Rotates(ttl, old(State()), old(storage.State()), map[], State(), storage.State(), ok)
      ensures old(loggedOut) ==> !ok && State() == old(State()) && storage.State() == old(storage.State())
      ensures !old(loggedOut) ==>
                Accounted(ok, old(storage.faults), storage.faults, old(storage.State()), storage.State(), old(family))
    {
      ghost var before := State();
      if loggedOut {
        assert Performs(ttl, before, storage.State(), [], before, storage.State());
        return false;
      }
      var previous := values;
      values := map[];
      ok := Persist(before);
      if !ok {
        values := previous;
      }
    }

    method Regenerate() returns (ok: bool)
      requires storage.Valid()
      modifies this, storage, storage.revocations
      ensures storage.Valid()
      ensures Rotates(ttl, old(State()), old(storage.State()), old(values), State(), storage.State(), ok)
      ensures old(loggedOut) ==> !ok && State() == old(State()) && storage.State() == old(storage.State())
      ensures !old(loggedOut) ==>
                Accounted(ok, old(storage.faults), storage.faults, old(storage.State()), storage.State(), old(family))
    {
      if loggedOut {
        assert Performs(ttl, State(), storage.State(), [], State(), storage.State());
        return false;
      }
      ok := Persist(State());
    }

    method Logout() returns (ok: bool)
      requires storage.Valid()
      modifies this, storage, storage.revocations
      ensures storage.Valid()
      ensures LogsOut(ttl, old(State()), old(storage.State()), State(), storage.State(), ok)
      ensures storage.faults == old(storage.faults) + if ok then 0 else 1
    {
      ghost var h, s := State(), storage.State();
      assert Performs(ttl, h, s, [], h, s);
      if loggedOut {
        return true;
      }
      var unprepared := storage.Outside();
      if unprepared {
        return false;
      }
      ghost var checked, asked;
      ok, checked, asked := storage.Delete(id);
      EndingPerforms(ttl, h, s, checked, asked, ok, storage.State());
      if !ok {
        return false;
      }
      retired := retired + {id};
      id, family, values, loggedOut := Unsigned(""), None, map[], true;
    }
  }

  lemma MintingPerforms(ttl: int, h: Handle, s: Server, values: Values, drafted: Server, asked: Server)
    requires h.at.Idle? && !h.loggedOut && Onward(s, drafted)
    requires var t := CookieOf(drafted, ttl, h.family, values);
             Onward(Drawn(drafted, h.family), asked) && !Closed(asked.log, t.family, asked.now)
    ensures var t := CookieOf(drafted, ttl, h.family, values);
            var log := asked.log + [Registration(t)];
            Performs(ttl, h, s, [Draft(values), Register], h.(at := Minted(values, t, |log|)), asked.(log := log))
  {
    assert Performs(ttl, h, s, [], h, drafted);
    PerformsMore(ttl, h, s, [], h, drafted, drafted, Draft(values));
    assert [] + [Draft(values)] == [Draft(values)];
    var h1 := h.(at := Drafted(values, CookieOf(drafted, ttl, h.family, values)));
    PerformsMore(ttl, h, s, [Draft(values)], h1, Drawn(drafted, h.family), asked, Register);
    assert [Draft(values)] + [Register] == [Draft(values), Register];
  }

  /** The new cookie is registered, but the old one cannot be prepared for its revocation. */
  lemma AbandoningPerforms(ttl: int, h: Handle, s: Server, values: Values, h2: Handle, m: Server)
    requires h2.at.Minted? && Performs(ttl, h, s, [Draft(values), Register], h2, m)
    ensures Rotates(ttl, h, s, values, h2.(at := Idle), m, false)
  {
    PerformsMore(ttl, h, s, [Draft(values), Register], h2, m, m, Fail);
    assert [Draft(values), Register] + [Fail] == [Draft(values), Register, Fail];
  }

  /** From the check of the old cookie to its revocation, or to a failure. */
  lemma RetiringPerforms(
    ttl: int, h: Handle, s: Server, values: Values, h2: Handle, m: Server, checked: Server, asked: Server, ok: bool, s': Server)
    requires h2.at.Minted? && h2.at.values == values && Performs(ttl, h, s, [Draft(values), Register], h2, m)
    requires Onward(m, checked) && Onward(checked, asked)
    requires !ok ==> s' == asked && Decodes(h2.id, checked.now)
    requires ok ==> s' == if Decodes(h2.id, checked.now) then asked.(log := asked.log + [TokenRevoked(h2.id, Expiry(h2.id))]) else asked
    requires ok && !Decodes(h2.id, checked.now) ==> asked == checked
    ensures !ok ==> Rotates(ttl, h, s, values, h2.(at := Idle), s', false)
    ensures ok ==> var h3 := h2.(at := Position.Rotated(values, h2.at.cookie, h2.at.mark));
                   || Performs(ttl, h, s, [Draft(values), Register, CheckOld], h3, s')
                   || Performs(ttl, h, s, [Draft(values), Register, CheckOld, RevokeOld], h3, s')
  {
    PerformsMore(ttl, h, s, [Draft(values), Register], h2, m, checked, CheckOld);
    assert [Draft(values), Register] + [CheckOld] == [Draft(values), Register, CheckOld];
    var h3 := Move(h2, checked, ttl, CheckOld).0;
    if !ok {
      PerformsMore(ttl, h, s, [Draft(values), Register, CheckOld], h3, checked, asked, Fail);
      assert [Draft(values), Register, CheckOld] + [Fail] == [Draft(values), Register, CheckOld, Fail];
    } else if Decodes(h2.id, checked.now) {
      PerformsMore(ttl, h, s, [Draft(values), Register, CheckOld], h3, checked, asked, RevokeOld);
      assert [Draft(values), Register, CheckOld] + [RevokeOld] == [Draft(values), Register, CheckOld, RevokeOld];
    }
  }

  lemma FinishingPerforms(ttl: int, h: Handle, s: Server, values: Values, h2: Handle, r: Server, s': Server)
    requires h2.at.Minted? && h2.at.values == values && Onward(r, s')
    requires var h3 := h2.(at := Position.Rotated(values, h2.at.cookie, h2.at.mark));
             || Performs(ttl, h, s, [Draft(values), Register, CheckOld], h3, r)
             || Performs(ttl, h, s, [Draft(values), Register, CheckOld, RevokeOld], h3, r)
    ensures Rotates(ttl, h, s, values, Handle(h2.at.cookie, FamilyOf(h2.at.cookie, s'.now), values, false, h2.retired + {h2.id}, Idle), s', true)
  {
    var h3 := h2.(at := Position.Rotated(values, h2.at.cookie, h2.at.mark));
    var short, long := [Draft(values), Register, CheckOld], [Draft(values), Register, CheckOld, RevokeOld];
    if Performs(ttl, h, s, short, h3, r) {
      PerformsMore(ttl, h, s, short, h3, r, s', Finish);
      assert short + [Finish] == [Draft(values), Register, CheckOld, Finish];
    } else {
      PerformsMore(ttl, h, s, long, h3, r, s', Finish);
      assert long + [Finish] == [Draft(values), Register, CheckOld, RevokeOld, Finish];
    }
  }

  lemma EndingPerforms(ttl: int, h: Handle, s: Server, checked: Server, asked: Server, ok: bool, s': Server)
    requires h.at.Idle? && !h.loggedOut && Onward(s, checked) && Onward(checked, asked)
    requires !ok ==> s' == asked && Decodes(h.id, checked.now)
    requires ok ==> s' == if Decodes(h.id, checked.now) then asked.(log := asked.log + [FamilyEnd(asked.log, h.id)]) else asked
    requires ok && !Decodes(h.id, checked.now) ==> asked == checked
    ensures LogsOut(ttl, h, s, if ok then LoggedOut(h) else h, s', ok)
  {
    assert Performs(ttl, h, s, [], h, s);
    PerformsMore(ttl, h, s, [], h, s, checked, CheckLogout);
    assert [] + [CheckLogout] == [CheckLogout];
    if Decodes(h.id, checked.now) {
      var h1 := h.(at := Ending);
      if ok {
        PerformsMore(ttl, h, s, [CheckLogout], h1, checked, asked, EndFamily);
        assert [CheckLogout] + [EndFamily] == [CheckLogout, EndFamily];
        assert LoggedOut(h1) == LoggedOut(h);
      } else {
        PerformsMore(ttl, h, s, [CheckLogout], h1, checked, asked, Fail);
        assert [CheckLogout] + [Fail] == [CheckLogout, Fail];
        assert h1.(at := Idle) == h;
      }
    }
  }

  lemma TakingPerforms(ttl: int, s: Server, cookie: Token, decoded: nat, asked: Server, s': Server)
    requires Onward(s, asked) && Onward(asked, s') && decoded <= asked.now && FoundAt(asked.log, cookie, decoded, asked.now)
    ensures Opens(ttl, Some(cookie), s, Handle(cookie, FamilyOf(cookie, s'.now), cookie.values, false, {}, Idle), s')
  {
    assert Performs(ttl, BLANK, s, [], BLANK, s);
    PerformsMore(ttl, BLANK, s, [], BLANK, s, asked, Take(cookie, decoded));
    assert [] + [Take(cookie, decoded)] == [Take(cookie, decoded)];
    PerformsMore(ttl, BLANK, s, [Take(cookie, decoded)], BLANK.(id := cookie, values := cookie.values, at := Opened), asked, s', Settle);
    assert [Take(cookie, decoded)] + [Settle] == [Take(cookie, decoded), Settle];
  }

  lemma StartingPerforms(ttl: int, cookie: Option<Token>, s: Server, drafted: Server, asked: Server, s': Server)
    requires Onward(s, drafted) && Onward(Drawn(drafted, None), asked)
    requires var t := CookieOf(drafted, ttl, None, map[]);
             !Closed(asked.log, t.family, asked.now) && Onward(asked.(log := asked.log + [Registration(t)]), s')
    requires cookie.Some? ==> NotFoundBetween(cookie.value, s, s')
    ensures var t := CookieOf(drafted, ttl, None, map[]);
            Opens(ttl, cookie, s, Handle(t, FamilyOf(t, s'.now), map[], false, {}, Idle), s')
  {
    var t := CookieOf(drafted, ttl, None, map[]);
    assert Performs(ttl, BLANK, s, [], BLANK, s);
    PerformsMore(ttl, BLANK, s, [], BLANK, s, drafted, DraftNew);
    assert [] + [DraftNew] == [DraftNew];
    PerformsMore(ttl, BLANK, s, [DraftNew], BLANK.(at := Opening(t)), Drawn(drafted, None), asked, RegisterNew);
    assert [DraftNew] + [RegisterNew] == [DraftNew, RegisterNew];
    var r := asked.(log := asked.log + [Registration(t)]);
    PerformsMore(ttl, BLANK, s, [DraftNew, RegisterNew], BLANK.(id := t, at := Opened), r, s', Settle);
    assert [DraftNew, RegisterNew] + [Settle] == [DraftNew, RegisterNew, Settle];
  }

  lemma StartingLater(s: Server, m: Server, drafted: Server, s': Server, cookie: Option<Token>)
    requires Onward(s, m) && Onward(m, drafted) && Onward(m, s') && (cookie.Some? ==> NotFoundBetween(cookie.value, s, m))
    ensures Onward(s, drafted) && Onward(s, s') && (cookie.Some? ==> NotFoundBetween(cookie.value, s, s'))
  {
    if cookie.Some? {
      var asked :| Onward(s, asked) && Onward(asked, m) && !FoundAt(asked.log, cookie.value, asked.now, asked.now);
      assert Onward(asked, s');
    }
  }

  /** Takes up the session of a cookie that is found, or starts one. */
  method OpenSession(storage: CookieStorage, ttl: int, cookie: Option<Token>) returns (r: Option<ManagedSession>)
    requires storage.Valid()
    modifies storage, storage.revocations
    ensures storage.Valid() && Onward(old(storage.State()), storage.State())
    ensures r.Some? ==> storage.faults == old(storage.faults)
    ensures r.None? ==>
              || storage.faults == old(storage.faults) + 1
              || (storage.faults == old(storage.faults) && Refused(old(storage.State()), storage.State(), None))
    ensures r.Some? ==>
              && fresh(r.value) && r.value.storage == storage && r.value.ttl == ttl
              && Opens(ttl, cookie, old(storage.State()), r.value.State(), storage.State())
  {
    ghost var s := storage.State();
    if cookie.Some? {
      var got;
      ghost var decoded, asked;
      got, decoded, asked := storage.Get(cookie.value);
      if got.Failed? {
        return None;
      }
      if got.Found? {
        var unset := storage.Outside();
        if unset {
          return None;
        }
        var family := storage.Family(cookie.value);
        TakingPerforms(ttl, s, cookie.value, decoded, asked, storage.State());
        var session := new ManagedSession(storage, ttl, cookie.value, family, got.values);
        return Some(session);
      }
    }
    ghost var m := storage.State();
    r := StartSession(storage, ttl, cookie, s);
    if r.None? && storage.faults == old(storage.faults) {
      RefusedLater(s, m, storage.State(), None);
    }
  }

  method StartSession(storage: CookieStorage, ttl: int, ghost cookie: Option<Token>, ghost s: Server) returns (r: Option<ManagedSession>)
    requires storage.Valid() && Onward(s, storage.State())
    requires cookie.Some? ==> NotFoundBetween(cookie.value, s, storage.State())
    modifies storage, storage.revocations
    ensures storage.Valid() && Onward(s, storage.State())
    ensures r.Some? ==> storage.faults == old(storage.faults)
    ensures r.None? ==>
              || storage.faults == old(storage.faults) + 1
              || (storage.faults == old(storage.faults) && Refused(old(storage.State()), storage.State(), None))
    ensures r.Some? ==>
              && fresh(r.value) && r.value.storage == storage && r.value.ttl == ttl
              && Opens(ttl, cookie, s, r.value.State(), storage.State())
  {
    var minted;
    ghost var drafted, asked;
    minted, drafted, asked := storage.EncodeWithFamily(map[], ttl, None);
    assert Onward(s, storage.State());
    if minted.None? {
      return None;
    }
    var unset := storage.Outside();
    if unset {
      return None;
    }
    var family := storage.Family(minted.value);
    StartingLater(s, old(storage.State()), drafted, storage.State(), cookie);
    StartingPerforms(ttl, cookie, s, drafted, asked, storage.State());
    var session := new ManagedSession(storage, ttl, minted.value, family, map[]);
    return Some(session);
  }
}
