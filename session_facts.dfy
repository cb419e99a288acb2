/** Properties of the session write-through protocol, stated over the pure
    model of module `Session`. */
module SessionFacts {
  import opened Wrappers
  import opened Cookies
  import opened Store
  import opened Session

  /** A write of `expires` (or `maxAge`) through the cookie trap leaves the
      other one absent, holds the new value, and changes no other attribute
      and not the user. */
  lemma TrapWriteExcludes(cfg: Config, prefix: string, s: State, a: Attr, now: int, generated: string)
    requires s.intercepted
    ensures var r := Step(cfg, prefix, s, CookieAttr(a), now, generated);
      && Lookup(r.session.cookie, a.key) == a.value
      && (a.key == Expires ==> MaxAge !in r.session.cookie)
      && (a.key == MaxAge ==> Expires !in r.session.cookie)
      && (forall k :: k != a.key && Some(k) != Rival(a.key) ==>
            Lookup(r.session.cookie, k) == Lookup(s.session.cookie, k))
      && r.session.user == s.session.user
  {
  }

  /** Assigning `user` stores it in every state: the cookie attributes stay
      as they were, one cookie is sent, and the store holds the session with
      the new user under the (possibly new) ID. */
  lemma UserWriteStores(cfg: Config, prefix: string, s: State, u: Option<User>, now: int, generated: string)
    ensures var r := Step(cfg, prefix, s, UserWrite(u), now, generated);
      && r.session.user == u
      && r.session.cookie == s.session.cookie
      && |r.sent| == |s.sent| + 1
      && r.id.value in r.entries
      && r.entries[r.id.value].value == s.session.(user := u)
      && r.entries[r.id.value].px == Expiry(Ttl(s.session.cookie, now))
  {
  }

  /** A bulk `cookie` assignment leaves the user alone and persists the new
      attributes. */
  lemma BulkWriteStores(cfg: Config, prefix: string, s: State, o: CookieObject, now: int, generated: string)
    ensures var r := Step(cfg, prefix, s, CookieBulk(o), now, generated);
      && r.session.user == s.session.user
      && r.session.cookie == BulkAssign(s.session.cookie, o)
      && !r.intercepted
      && r.entries[r.id.value].value == r.session
  {
  }

  /** Once a bulk assignment has replaced the proxied cookie, an attribute
      write changes the attribute without clearing its rival and persists
      nothing. */
  lemma PlainWriteAfterBulk(cfg: Config, prefix: string, s: State, a: Attr, now: int, generated: string)
    requires !s.intercepted
    ensures var r := Step(cfg, prefix, s, CookieAttr(a), now, generated);
      && Lookup(r.session.cookie, a.key) == a.value
      && (forall k :: k != a.key ==> Lookup(r.session.cookie, k) == Lookup(s.session.cookie, k))
      && r.sent == s.sent && r.entries == s.entries && r.id == s.id
  {
  }

  /** A bulk assignment that supplies both `expires` and `maxAge` keeps only
      the later one in key order; the earlier keeps its old value. */
  lemma BulkLaterWins(c: Attrs, o: CookieObject, later: AttrKey, earlier: AttrKey)
    requires {later, earlier} == {Expires, MaxAge}
    requires earlier in Keys(o) && later in Keys(o)
    requires KeyIndex(o, earlier) < KeyIndex(o, later)
    ensures Lookup(BulkAssign(c, o), later) == o[KeyIndex(o, later)].value
    ensures Lookup(BulkAssign(c, o), earlier) == Lookup(c, earlier)
  {
  }

  /** A bulk assignment that supplies only `expires` does not clear an
      existing `maxAge`: both are then set. */
  lemma BulkMayLeaveBoth()
    ensures var r := BulkAssign(map[MaxAge := Millis(5000)], [Prop(Expires, Some(Date(10)))]);
      Expires in r && MaxAge in r
  {
  }

  /** An explicit `maxAge: undefined` that comes later than `expires` in a
      bulk assignment wins the clash: `maxAge` is cleared and the old
      `expires` survives. */
  lemma BulkLaterUndefinedWins(c: Attrs, d: int)
    ensures var r := BulkAssign(c, [Prop(Expires, Some(Date(d))), Prop(MaxAge, None)]);
      MaxAge !in r && Lookup(r, Expires) == Lookup(c, Expires)
  {
  }

  /** The TTL is `|expires - now|` when `expires` is set, whatever `maxAge`
      holds; otherwise it is `maxAge`. */
  lemma TtlChoice(c: Attrs, now: int)
    ensures Expires in c ==> Ttl(c, now) == Some(Abs(c[Expires].ms - now))
    ensures Expires !in c && MaxAge in c ==> Ttl(c, now) == Some(c[MaxAge].n)
  {
  }

  /** `maxAge = 60000` gives a TTL of 60000 at any time; `expires = T + 60000`
      gives 60000 when written at time T and the distance at any other write
      time; an `expires` already in the past gives a positive TTL too. */
  lemma TtlExamples(t: int, now: int)
    ensures Ttl(map[MaxAge := Millis(60000)], now) == Some(60000)
    ensures Ttl(map[Expires := Date(t + 60000)], t) == Some(60000)
    ensures Ttl(map[Expires := Date(t + 60000), MaxAge := Millis(5)], now) == Some(Abs(t + 60000 - now))
    ensures Ttl(map[Expires := Date(t - 1000)], t) == Some(1000)
  {
  }

  /** An `expires` equal to the write time gives TTL 0, so the record is
      stored with no expiry at all. */
  lemma ExpiresNowStoresForever(cfg: Config, prefix: string, s: State, now: int, generated: string)
    requires s.intercepted
    ensures var r := Step(cfg, prefix, s, CookieAttr(Prop(Expires, Some(Date(now)))), now, generated);
      r.entries[r.id.value].px == None
  {
  }

  /** A write to a key other than `cookie` and `user` leaves the session as
      it was but still sends one cookie and writes the store. */
  lemma OtherKeyStillPersists(cfg: Config, prefix: string, s: State, now: int, generated: string)
    ensures var r := Step(cfg, prefix, s, OtherKey, now, generated);
      && r.session == s.session
      && |r.sent| == |s.sent| + 1
      && r.entries == Stored(s.entries, r.id.value, s.session, Ttl(s.session.cookie, now))
  {
  }

  /** An ID that is already set is reused by every later write and `genId`
      is never called. */
  lemma {:induction false} RunKeepsId(cfg: Config, prefix: string, s: State, evs: seq<Event>)
    requires Truthy(s.id)
    ensures Run(cfg, prefix, s, evs).id == s.id
    ensures Run(cfg, prefix, s, evs).genIdCalls == s.genIdCalls
    decreases |evs|
  {
    if evs != [] {
      RunKeepsId(cfg, prefix, Step(cfg, prefix, s, evs[0].write, evs[0].now, evs[0].generated), evs[1..]);
    }
  }

  /** When every ID `genId` would give is non-empty, a request calls `genId`
      at most once, and after it the ID is set. */
  lemma {:induction false} RunAllocatesOnce(cfg: Config, prefix: string, s: State, evs: seq<Event>)
    requires forall e :: e in evs ==> prefix + e.generated != ""
    ensures Run(cfg, prefix, s, evs).genIdCalls <= s.genIdCalls + 1
    ensures Run(cfg, prefix, s, evs).genIdCalls > s.genIdCalls ==> Truthy(Run(cfg, prefix, s, evs).id)
    decreases |evs|
  {
    if evs != [] {
      var e := evs[0];
      var next := Step(cfg, prefix, s, e.write, e.now, e.generated);
      assert e in evs;
      if Truthy(next.id) {
        RunKeepsId(cfg, prefix, next, evs[1..]);
      } else {
        assert next.genIdCalls == s.genIdCalls;
        forall e' | e' in evs[1..] ensures prefix + e'.generated != "" {
          assert e' in evs;
        }
        RunAllocatesOnce(cfg, prefix, next, evs[1..]);
      }
    }
  }

  /** How many of the writes reach a trap, given whether the cookie is still
      the proxy when they start. */
  function InterceptedWrites(intercepted: bool, evs: seq<Event>): nat
    decreases |evs|
  {
    if evs == [] then 0
    else
      var w := evs[0].write;
      (if w.CookieAttr? && !intercepted then 0 else 1) + InterceptedWrites(intercepted && !w.CookieBulk?, evs[1..])
  }

  /** Every intercepted write sends exactly one cookie, with no batching:
      N intercepted writes send N cookies. */
  lemma {:induction false} RunSendsOnePerWrite(cfg: Config, prefix: string, s: State, evs: seq<Event>)
    ensures |Run(cfg, prefix, s, evs).sent| == |s.sent| + InterceptedWrites(s.intercepted, evs)
    ensures Run(cfg, prefix, s, evs).sent[..|s.sent|] == s.sent
    decreases |evs|
  {
    if evs != [] {
      var next := Step(cfg, prefix, s, evs[0].write, evs[0].now, evs[0].generated);
      RunSendsOnePerWrite(cfg, prefix, next, evs[1..]);
      var r := Run(cfg, prefix, s, evs);
      assert r.sent[..|s.sent|] == r.sent[..|next.sent|][..|s.sent|];
    }
  }

  /** A request with no (or an empty) session cookie starts from the default
      attributes, with no ID and no user. */
  lemma StartFresh(cfg: Config, incoming: Option<string>, entries: map<string, Entry<SessionData>>)
    requires incoming.None? || incoming == Some("")
    ensures var s := Start(cfg, incoming, entries);
      && s.id.None?
      && s.session.user.None?
      && s.session.cookie == Initial(cfg.cookie)
  {
  }

  /** A record stored under the decrypted ID replaces the default session
      entirely: no default attribute is merged into it. */
  lemma StartResumesStored(cfg: Config, ciphertext: string, entries: map<string, Entry<SessionData>>)
    requires ciphertext != ""
    requires cfg.decrypt(ciphertext, cfg.secret) in entries
    ensures var s := Start(cfg, Some(ciphertext), entries);
      && s.id == Some(cfg.decrypt(ciphertext, cfg.secret))
      && s.session == entries[cfg.decrypt(ciphertext, cfg.secret)].value
  {
  }

  /** A decrypted ID that the store does not know is kept: the session is
      the default one, every later write stores under that ID, and `genId`
      is never called. */
  lemma UnknownIdKept(cfg: Config, prefix: string, ciphertext: string,
                      entries: map<string, Entry<SessionData>>, evs: seq<Event>)
    requires ciphertext != ""
    requires cfg.decrypt(ciphertext, cfg.secret) != ""
    requires cfg.decrypt(ciphertext, cfg.secret) !in entries
    ensures var s := Start(cfg, Some(ciphertext), entries);
      && s.session == FreshSession(cfg)
      && Run(cfg, prefix, s, evs).id == Some(cfg.decrypt(ciphertext, cfg.secret))
      && Run(cfg, prefix, s, evs).genIdCalls == 0
  {
    RunKeepsId(cfg, prefix, Start(cfg, Some(ciphertext), entries), evs);
  }

  /** A request without a cookie that sets `user`: one ID is generated, one
      cookie carrying its encryption is sent, and the store holds the
      session with that user under the new ID. */
  lemma NewUserScenario(cfg: Config, prefix: string, entries: map<string, Entry<SessionData>>,
                        u: User, now: int, generated: string)
    ensures var r := Step(cfg, prefix, Start(cfg, None, entries), UserWrite(Some(u)), now, generated);
      && r.id == Some(prefix + generated)
      && r.genIdCalls == 1
      && r.sent == [SentCookie(cfg.name, cfg.encrypt(prefix + generated, cfg.secret), Initial(cfg.cookie))]
      && prefix + generated in r.entries
      && r.entries[prefix + generated].value.user == Some(u)
  {
  }

  /** Setting `maxAge` and then `expires` through the trap persists a record
      whose attributes hold `expires` only, with the TTL taken at the second
      write. */
  lemma ExpiresAfterMaxAge(cfg: Config, prefix: string, s: State, m: int, d: int, t1: int, t2: int,
                           g1: string, g2: string)
    requires s.intercepted
    ensures var r := Run(cfg, prefix, s, [Event(CookieAttr(Prop(MaxAge, Some(Millis(m)))), t1, g1),
                                          Event(CookieAttr(Prop(Expires, Some(Date(d)))), t2, g2)]);
      && r.id.Some? && r.id.value in r.entries
      && MaxAge !in r.entries[r.id.value].value.cookie
      && Lookup(r.entries[r.id.value].value.cookie, Expires) == Some(Date(d))
      && r.entries[r.id.value].px == Expiry(Some(Abs(d - t2)))
  {
    var e1 := Event(CookieAttr(Prop(MaxAge, Some(Millis(m)))), t1, g1);
    var e2 := Event(CookieAttr(Prop(Expires, Some(Date(d)))), t2, g2);
    var s1 := Step(cfg, prefix, s, e1.write, t1, g1);
    var s2 := Step(cfg, prefix, s1, e2.write, t2, g2);
    assert [e1, e2][1..] == [e2];
    assert Run(cfg, prefix, s, [e1, e2]) == Run(cfg, prefix, s1, [e2]);
    assert Run(cfg, prefix, s1, [e2]) == Run(cfg, prefix, s2, []);
  }

  /** The next request that presents the cookie a write sent resumes the
      stored session under the same ID, provided `decrypt` inverts `encrypt`
      on that ID and the cookie value is not empty. */
  lemma NextRequestResumes(cfg: Config, prefix: string, s: State, w: Write, now: int, generated: string)
    requires Intercepts(s, w)
    requires var r := Step(cfg, prefix, s, w, now, generated);
      cfg.decrypt(cfg.encrypt(r.id.value, cfg.secret), cfg.secret) == r.id.value
    requires var r := Step(cfg, prefix, s, w, now, generated);
      cfg.encrypt(r.id.value, cfg.secret) != ""
    ensures var r := Step(cfg, prefix, s, w, now, generated);
      var next := Start(cfg, Some(r.sent[|r.sent| - 1].value), r.entries);
      next.id == r.id && next.session == r.session
  {
  }
}
