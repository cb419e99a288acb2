/** The `session` middleware of src/middlewares/session.ts for one request:
    request-start resolution, the two intercepting `set` traps and the
    persist step they share. The pure functions below give the meaning of
    each step; the class `SessionRequest` performs the steps in place. */
module Session {
  import opened Wrappers
  import opened Cookies
  import opened Store

  datatype User = User(id: string)

  /** `SessionData`: the cookie attributes and the optional user. */
  datatype SessionData = SessionData(cookie: Attrs, user: Option<User>)

  /** One `res.cookie(name, value, attributes)` call. */
  datatype SentCookie = SentCookie(name: string, value: string, attrs: Attrs)

  /** The middleware's options. `encrypt` and `decrypt` stand for the helper
      functions of the same names, whose definitions are not modelled. */
  datatype Config = Config(
    name: string,
    secret: string,
    cookie: CookieObject,
    encrypt: (string, string) -> string,
    decrypt: (string, string) -> string)

  /** A write a request handler makes on `req.session`. */
  datatype Write =
    | CookieAttr(attr: Attr)          // session.cookie.<key> = value
    | CookieBulk(obj: CookieObject)    // session.cookie = { ... }
    | UserWrite(user: Option<User>)    // session.user = value
    | OtherKey                         // session.<any other key> = value

  /** A write together with the clock reading `Date.now()` at that moment and
      the value `genId(req)` returns if it is called. */
  datatype Event = Event(write: Write, now: int, generated: string)

  /** Everything one request's session handling can change: the session, the
      `req.sessionID`, whether `session.cookie` is still the intercepting
      proxy, the cookies sent, the store's keyspace and how often `genId` ran. */
  datatype State = State(
    session: SessionData,
    id: Option<string>,
    intercepted: bool,
    sent: seq<SentCookie>,
    entries: map<string, Entry<SessionData>>,
    genIdCalls: nat)

  /** JavaScript truthiness of `req.sessionID` (undefined and "" are falsy). */
  predicate Truthy(id: Option<string>)
  {
    id.Some? && id.value != ""
  }

  function FreshSession(cfg: Config): SessionData
  {
    SessionData(Initial(cfg.cookie), None)
  }

  /** Request start: the default session, then, when the request carries a
      non-empty session cookie, the decrypted ID and the stored record. */
  function Start(cfg: Config, incoming: Option<string>, entries: map<string, Entry<SessionData>>): (s: State)
    ensures s.sent == [] && s.entries == entries && s.genIdCalls == 0 && s.intercepted
  {
    if incoming.Some? && incoming.value != "" then
      var id := cfg.decrypt(incoming.value, cfg.secret);
      var found := Fetched(entries, id);
      State(if found.Some? then found.value else FreshSession(cfg), Some(id), true, [], entries, 0)
    else
      State(FreshSession(cfg), None, true, [], entries, 0)
  }

  /** The persist step both traps end with: allocate the ID when there is
      none, send one cookie carrying the encrypted ID and the current
      attributes, and write the whole session to the store once. */
  function Persisted(cfg: Config, prefix: string, s: State, now: int, generated: string): (r: State)
    ensures Truthy(s.id) ==> r.id == s.id && r.genIdCalls == s.genIdCalls
    ensures !Truthy(s.id) ==> r.id == Some(prefix + generated) && r.genIdCalls == s.genIdCalls + 1
    ensures r.session == s.session && r.intercepted == s.intercepted
    ensures r.sent == s.sent + [SentCookie(cfg.name, cfg.encrypt(r.id.value, cfg.secret), s.session.cookie)]
    ensures r.entries == Stored(s.entries, r.id.value, s.session, Ttl(s.session.cookie, now))
  {
    var id := if Truthy(s.id) then s.id.value else prefix + generated;
    s.(id := Some(id),
       genIdCalls := if Truthy(s.id) then s.genIdCalls else s.genIdCalls + 1,
       sent := s.sent + [SentCookie(cfg.name, cfg.encrypt(id, cfg.secret), s.session.cookie)],
       entries := Stored(s.entries, id, s.session, Ttl(s.session.cookie, now)))
  }

  /** Whether a write reaches one of the two traps. An attribute write on a
      cookie that a bulk assignment has replaced with a plain object does not. */
  predicate Intercepts(s: State, w: Write)
  {
    !(w.CookieAttr? && !s.intercepted)
  }

  /** The state after one write. */
  function Step(cfg: Config, prefix: string, s: State, w: Write, now: int, generated: string): (r: State)
    ensures Intercepts(s, w) ==>
      && r.id.Some?
      && r.sent == s.sent + [SentCookie(cfg.name, cfg.encrypt(r.id.value, cfg.secret), r.session.cookie)]
      && r.entries == Stored(s.entries, r.id.value, r.session, Ttl(r.session.cookie, now))
    ensures !Intercepts(s, w) ==>
      r.id == s.id && r.sent == s.sent && r.entries == s.entries && r.genIdCalls == s.genIdCalls
    ensures Truthy(s.id) ==> r.id == s.id && r.genIdCalls == s.genIdCalls
    ensures Intercepts(s, w) && !Truthy(s.id) ==>
      r.id == Some(prefix + generated) && r.genIdCalls == s.genIdCalls + 1
    ensures r.intercepted == (s.intercepted && !w.CookieBulk?)
    ensures w.CookieAttr? && s.intercepted ==>
      r.session == s.session.(cookie := Assign(s.session.cookie, w.attr.key, w.attr.value))
    ensures w.CookieAttr? && !s.intercepted ==>
      r.session == s.session.(cookie := Put(s.session.cookie, w.attr.key, w.attr.value))
    ensures w.CookieBulk? ==> r.session == s.session.(cookie := BulkAssign(s.session.cookie, w.obj))
    ensures w.UserWrite? ==> r.session == s.session.(user := w.user)
    ensures w.OtherKey? ==> r.session == s.session
  {
    var c := s.session.cookie;
    match w
    case CookieAttr(a) =>
      if s.intercepted then
        Persisted(cfg, prefix, s.(session := s.session.(cookie := Assign(c, a.key, a.value))), now, generated)
      else
        s.(session := s.session.(cookie := Put(c, a.key, a.value)))
    case CookieBulk(o) =>
      Persisted(cfg, prefix, s.(session := s.session.(cookie := BulkAssign(c, o)), intercepted := false), now, generated)
    case UserWrite(u) =>
      Persisted(cfg, prefix, s.(session := s.session.(user := u)), now, generated)
    case OtherKey =>
      Persisted(cfg, prefix, s, now, generated)
  }

  /** The state after a sequence of writes within one request. */
  function Run(cfg: Config, prefix: string, s: State, evs: seq<Event>): State
    decreases |evs|
  {
    if evs == [] then s
    else Run(cfg, prefix, Step(cfg, prefix, s, evs[0].write, evs[0].now, evs[0].generated), evs[1..])
  }

  /** The session handling of one request, updated in place. */
  class SessionRequest {
    const config: Config
    const store: RedisStore<SessionData>
    var session: SessionData
    var sessionID: Option<string>
    var intercepted: bool
    var sent: seq<SentCookie>
    var genIdCalls: nat

    function Snapshot(): State
      reads this, store
    {
      State(session, sessionID, intercepted, sent, store.entries, genIdCalls)
    }

    /** Request start; `incoming` is the request's cookie of the configured name. */
    constructor (config: Config, store: RedisStore<SessionData>, incoming: Option<string>)
      ensures this.config == config && this.store == store
      ensures Snapshot() == Start(config, incoming, store.entries)
    {
      var current := SessionData(Initial(config.cookie), None);
      var id: Option<string> := None;
      if incoming.Some? && incoming.value != "" {
        var decrypted := config.decrypt(incoming.value, config.secret);
        id := Some(decrypted);
        var found := store.Get(decrypted);
        if found.Some? {
          current := found.value;
        }
      }
      this.config := config;
      this.store := store;
      session := current;
      sessionID := id;
      intercepted := true;
      sent := [];
      genIdCalls := 0;
    }

    /** The persist step shared by both traps. */
    method Persist(now: int, generated: string)
      modifies this, store
      ensures Snapshot() == Persisted(config, store.prefix, old(Snapshot()), now, generated)
    {
      if !Truthy(sessionID) {
        sessionID := Some(store.prefix + generated);
        genIdCalls := genIdCalls + 1;
      }
      var id := sessionID.value;
      sent := sent + [SentCookie(config.name, config.encrypt(id, config.secret), session.cookie)];
      store.Set(id, session, Ttl(session.cookie, now));
    }

    /** `session.cookie.<key> = value`: through the cookie trap while the
        cookie is still the proxy, otherwise a plain assignment. */
    method SetCookieAttribute(attr: Attr, now: int, generated: string)
      modifies this, store
      ensures Snapshot() == Step(config, store.prefix, old(Snapshot()), CookieAttr(attr), now, generated)
    {
      if intercepted {
        var c := session.cookie;
        if attr.key == Expires {
          c := c - {MaxAge};
        } else if attr.key == MaxAge {
          c := c - {Expires};
        }
        session := session.(cookie := Put(c, attr.key, attr.value));
        Persist(now, generated);
      } else {
        session := session.(cookie := Put(session.cookie, attr.key, attr.value));
      }
    }

    /** `session.cookie = obj`: the clash rule, then the spread over the old
        attributes; the cookie becomes a plain object. */
    method AssignCookie(obj: CookieObject, now: int, generated: string)
      modifies this, store
      ensures Snapshot() == Step(config, store.prefix, old(Snapshot()), CookieBulk(obj), now, generated)
    {
      var o := obj;
      if Expires in Keys(o) && MaxAge in Keys(o) {
        if KeyIndex(o, MaxAge) > KeyIndex(o, Expires) {
          o := Without(o, Expires);
        } else {
          o := Without(o, MaxAge);
        }
      }
      session := session.(cookie := Overlay(session.cookie, o));
      intercepted := false;
      Persist(now, generated);
    }

    /** `session.user = user`. */
    method AssignUser(user: Option<User>, now: int, generated: string)
      modifies this, store
      ensures Snapshot() == Step(config, store.prefix, old(Snapshot()), UserWrite(user), now, generated)
    {
      session := session.(user := user);
      Persist(now, generated);
    }

    /** `session.<key> = value` for any key other than `cookie` and `user`:
        the value is discarded, the session is still persisted. */
    method AssignOther(now: int, generated: string)
      modifies this, store
      ensures Snapshot() == Step(config, store.prefix, old(Snapshot()), OtherKey, now, generated)
    {
      Persist(now, generated);
    }
  }
}
