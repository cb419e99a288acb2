/** The cookie attributes of a session (Express `CookieOptions`) and the pure
    rules the session middleware applies to them: object spread, the
    `expires`/`maxAge` exclusion, the key-order precedence of a bulk
    assignment and the TTL handed to the store. */
module Cookies {
  import opened Wrappers

  /** The attribute names the model distinguishes. */
  datatype AttrKey = Path | Domain | SameSite | HttpOnly | Secure | Expires | MaxAge

  /** An attribute value: a string, a flag, an absolute time (a `Date`, as
      milliseconds since the epoch) or a duration in milliseconds. */
  datatype AttrValue = Text(text: string) | Flag(flag: bool) | Date(ms: int) | Millis(n: int)

  /** The value shape each attribute has. */
  predicate Fits(k: AttrKey, v: AttrValue)
  {
    match k
    case Path | Domain | SameSite => v.Text?
    case HttpOnly | Secure => v.Flag?
    case Expires => v.Date?
    case MaxAge => v.Millis?
  }

  /** A cookie attribute set. A key that holds `undefined` behaves exactly like
      an absent key (serialisation drops it, the TTL rule finds it falsy), so
      it is represented as absent. */
  type Attrs = m: map<AttrKey, AttrValue> | forall k :: k in m ==> Fits(k, m[k])

  function Lookup(c: Attrs, k: AttrKey): Option<AttrValue>
  {
    if k in c then Some(c[k]) else None
  }

  /** One own property of an object literal; `None` is an explicit `undefined`. */
  datatype Prop = Prop(key: AttrKey, value: Option<AttrValue>)

  /** A single attribute assignment whose value has the attribute's shape. */
  type Attr = p: Prop | p.value.Some? ==> Fits(p.key, p.value.value) witness Prop(Path, None)

  /** A JavaScript object: own keys are distinct, and values have their key's shape. */
  predicate IsObject(o: seq<Prop>)
  {
    && (forall i, j :: 0 <= i < j < |o| ==> o[i].key != o[j].key)
    && (forall i :: 0 <= i < |o| && o[i].value.Some? ==> Fits(o[i].key, o[i].value.value))
  }

  /** A plain object of cookie options, its own keys in insertion order. */
  type CookieObject = o: seq<Prop> | IsObject(o) witness []

  function Keys(o: seq<Prop>): set<AttrKey>
  {
    set i | 0 <= i < |o| :: o[i].key
  }

  /** The own keys of a non-empty object are its first key and those after it. */
  lemma KeysCons(o: seq<Prop>)
    requires o != []
    ensures Keys(o) == {o[0].key} + Keys(o[1..])
  {
  }

  /** Plain property assignment `c[k] = v`, with no interception. */
  function Put(c: Attrs, k: AttrKey, v: Option<AttrValue>): (r: Attrs)
    requires v.Some? ==> Fits(k, v.value)
    ensures Lookup(r, k) == v
    ensures forall j :: j != k ==> Lookup(r, j) == Lookup(c, j)
  {
    if v.Some? then c[k := v.value] else c - {k}
  }

  /** The attribute an intercepted assignment to `k` deletes first. */
  function Rival(k: AttrKey): Option<AttrKey>
  {
    match k
    case Expires => Some(MaxAge)
    case MaxAge => Some(Expires)
    case _ => None
  }

  /** An assignment through the intercepting cookie trap: `expires` and
      `maxAge` clear each other, then the new value is stored. */
  function Assign(c: Attrs, k: AttrKey, v: Option<AttrValue>): (r: Attrs)
    requires v.Some? ==> Fits(k, v.value)
    ensures Lookup(r, k) == v
    ensures k == Expires ==> MaxAge !in r
    ensures k == MaxAge ==> Expires !in r
    ensures forall j :: j != k && Some(j) != Rival(k) ==> Lookup(r, j) == Lookup(c, j)
  {
    var cleared := if k == Expires then c - {MaxAge} else if k == MaxAge then c - {Expires} else c;
    Put(cleared, k, v)
  }

  /** `Object.keys(o).indexOf(k)`: the position of `k` among the own keys of
      `o`, or -1 when it is not one of them. */
  function KeyIndex(o: seq<Prop>, k: AttrKey): (i: int)
    ensures -1 <= i < |o|
    ensures i == -1 <==> k !in Keys(o)
    ensures 0 <= i ==> o[i].key == k && forall j :: 0 <= j < i ==> o[j].key != k
  {
    if o == [] then -1
    else if o[0].key == k then 0
    else
      var i := KeyIndex(o[1..], k);
      KeysCons(o);
      if i == -1 then -1 else i + 1
  }

  /** The key a bulk assignment drops: when `o` supplies both `expires` and
      `maxAge`, the one that comes first in key order. */
  function Loser(o: seq<Prop>): (l: Option<AttrKey>)
    ensures l.Some? <==> Expires in Keys(o) && MaxAge in Keys(o)
    ensures l.Some? ==> l.value == Expires || l.value == MaxAge
    ensures l == Some(Expires) <==>
      Expires in Keys(o) && MaxAge in Keys(o) && KeyIndex(o, Expires) < KeyIndex(o, MaxAge)
    ensures l == Some(MaxAge) <==>
      Expires in Keys(o) && MaxAge in Keys(o) && KeyIndex(o, MaxAge) < KeyIndex(o, Expires)
  {
    if Expires in Keys(o) && MaxAge in Keys(o) then
      if KeyIndex(o, MaxAge) < KeyIndex(o, Expires) then Some(MaxAge) else Some(Expires)
    else None
  }

  /** `delete o[k]` on an object literal. */
  function Without(o: seq<Prop>, k: AttrKey): (r: seq<Prop>)
    ensures Keys(r) == Keys(o) - {k}
    ensures forall p :: p in r <==> p in o && p.key != k
    ensures IsObject(o) ==> IsObject(r)
  {
    if o == [] then []
    else
      var rest := Without(o[1..], k);
      KeysCons(o);
      if o[0].key == k then rest
      else
        assert IsObject(o) ==> o[0].key !in Keys(o[1..]);
        KeysCons([o[0]] + rest);
        assert ([o[0]] + rest)[1..] == rest;
        [o[0]] + rest
  }

  /** The test and deletion of a bulk `cookie` assignment: of `expires` and
      `maxAge` supplied together, only the later one in key order is kept. */
  function ResolveClash(o: CookieObject): (r: CookieObject)
    ensures !(Expires in Keys(r) && MaxAge in Keys(r))
    ensures Loser(o).None? ==> r == o
    ensures forall p :: p in r <==> p in o && Some(p.key) != Loser(o)
  {
    if Expires in Keys(o) && MaxAge in Keys(o) then
      if KeyIndex(o, MaxAge) > KeyIndex(o, Expires) then Without(o, Expires) else Without(o, MaxAge)
    else o
  }

  /** Object spread `{...c, ...o}`: every property of `o` overrides the
      attribute of the same name, and the rest of `c` is kept. */
  function Overlay(c: Attrs, o: CookieObject): (r: Attrs)
    ensures forall p :: p in o ==> Lookup(r, p.key) == p.value
    ensures forall k :: k !in Keys(o) ==> Lookup(r, k) == Lookup(c, k)
    decreases |o|
  {
    if o == [] then c
    else
      assert o[0].key !in Keys(o[1..]);
      KeysCons(o);
      Overlay(Put(c, o[0].key, o[0].value), o[1..])
  }

  /** The attributes after `session.cookie = o`: the old attributes overridden
      by the properties of `o` that survive the clash rule. The dropped key,
      and every key `o` does not supply, keeps its old value. */
  function BulkAssign(c: Attrs, o: CookieObject): (r: Attrs)
    ensures forall p :: p in o && Some(p.key) != Loser(o) ==> Lookup(r, p.key) == p.value
    ensures forall k :: k !in Keys(o) ==> Lookup(r, k) == Lookup(c, k)
    ensures Loser(o).Some? ==> Lookup(r, Loser(o).value) == Lookup(c, Loser(o).value)
  {
    var kept := ResolveClash(o);
    assert Keys(kept) <= Keys(o) by {
      forall x | x in Keys(kept) ensures x in Keys(o) {
        var n :| 0 <= n < |kept| && kept[n].key == x;
        assert kept[n] in kept;
        var m :| 0 <= m < |o| && o[m] == kept[n];
      }
    }
    Overlay(c, kept)
  }

  /** The attributes of a fresh session, `{ path: "/", httpOnly: true,
      secure: false, ...overrides }`. */
  function Initial(overrides: CookieObject): (r: Attrs)
    ensures forall p :: p in overrides ==> Lookup(r, p.key) == p.value
    ensures Path !in Keys(overrides) ==> Lookup(r, Path) == Some(Text("/"))
    ensures HttpOnly !in Keys(overrides) ==> Lookup(r, HttpOnly) == Some(Flag(true))
    ensures Secure !in Keys(overrides) ==> Lookup(r, Secure) == Some(Flag(false))
    ensures forall k :: k in r && k != Path && k != HttpOnly && k != Secure ==> k in Keys(overrides)
  {
    Overlay(map[Path := Text("/"), HttpOnly := Flag(true), Secure := Flag(false)], overrides)
  }

  function Abs(x: int): nat
  {
    if x < 0 then -x else x
  }

  /** The TTL handed to the store: the distance between `expires` and `now`
      when `expires` is set (whatever `maxAge` holds), else `maxAge`, else none. */
  function Ttl(c: Attrs, now: int): (t: Option<int>)
    ensures t.None? <==> Expires !in c && MaxAge !in c
    ensures Expires in c ==> t.Some? && t.value >= 0
  {
    if Expires in c then Some(Abs(c[Expires].ms - now))
    else if MaxAge in c then Some(c[MaxAge].n)
    else None
  }
}
