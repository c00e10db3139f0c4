/** The in-memory store of conversation prefixes (unigateway-session/src/store.rs, lifetime.rs).
    Times and durations are numbers of nanoseconds; the clock may go back. A message is the text
    of its JSON. */
module SessionStore {
  import opened Common
  import opened Strings

  type Message = string

  datatype SessionKey = SessionKey(ns: string, sessionId: string)

  const SEPARATOR: char := 0 as char

  const DEFAULT_NAMESPACE := "default"

  function StorageKey(key: SessionKey): string { key.ns + [SEPARATOR] + key.sessionId }

  function ParseStorageKey(s: string): SessionKey {
    var n := IndexOf(s, SEPARATOR);
    if n < |s| then SessionKey(s[..n], s[n + 1..]) else SessionKey(DEFAULT_NAMESPACE, s)
  }

  /** A key comes back from its storage key exactly when its namespace is free of separators. */
  lemma KeyComesBackIff(key: SessionKey)
    ensures ParseStorageKey(StorageKey(key)) == key <==> SEPARATOR !in key.ns
  {
    var s := StorageKey(key);
    assert s[|key.ns|] == SEPARATOR && s[..|key.ns|] == key.ns && s[|key.ns| + 1..] == key.sessionId;
    if SEPARATOR !in key.ns {
      IndexOfAt(s, SEPARATOR, |key.ns|);
    }
  }

  /** A storage key comes back from the key it is parsed to, as purging relies on. */
  lemma StorageKeyComesBack(s: string)
    requires SEPARATOR in s
    ensures StorageKey(ParseStorageKey(s)) == s
  {}

  /** Without a separator the whole text is a session id in the default namespace; otherwise the first
      separator ends the namespace. */
  lemma ParsedTold(s: string, ns: string, id: string)
    ensures SEPARATOR !in s ==> ParseStorageKey(s) == SessionKey("default", s)
    ensures s == ns + [0 as char] + id && (0 as char) !in ns ==> ParseStorageKey(s) == SessionKey(ns, id)
  {
    if s == ns + [0 as char] + id && (0 as char) !in ns {
      KeyComesBackIff(SessionKey(ns, id));
    }
  }

  /** The namespace of `b` goes on where that of `a` ends, and the session id of `a` makes up for it. */
  predicate Shadows(a: SessionKey, b: SessionKey) {
    && a.ns + [SEPARATOR] <= b.ns
    && a.sessionId == b.ns[|a.ns| + 1..] + [SEPARATOR] + b.sessionId
  }

  lemma {:induction false} SameKeyLonger(a: SessionKey, b: SessionKey)
    requires |a.ns| < |b.ns|
    ensures StorageKey(a) == StorageKey(b) <==> Shadows(a, b)
  {
    var s, t := StorageKey(a), StorageKey(b);
    if s == t {
      assert a.ns == s[..|a.ns|] == t[..|a.ns|] == b.ns[..|a.ns|];
      assert b.ns[|a.ns|] == t[|a.ns|] == s[|a.ns|] == SEPARATOR;
      assert a.ns + [SEPARATOR] == b.ns[..|a.ns| + 1];
      assert a.sessionId == s[|a.ns| + 1..] == t[|a.ns| + 1..] == b.ns[|a.ns| + 1..] + [SEPARATOR] + b.sessionId;
    }
    if Shadows(a, b) {
      assert b.ns == a.ns + [SEPARATOR] + b.ns[|a.ns| + 1..];
      assert s == a.ns + [SEPARATOR] + (b.ns[|a.ns| + 1..] + [SEPARATOR] + b.sessionId) == t;
    }
  }

  /** Two keys share a storage key exactly when they are equal or one shadows the other. */
  lemma SharedStorageIff(a: SessionKey, b: SessionKey)
    ensures StorageKey(a) == StorageKey(b) <==> a == b || Shadows(a, b) || Shadows(b, a)
  {
    if |a.ns| < |b.ns| {
      SameKeyLonger(a, b);
    } else if |b.ns| < |a.ns| {
      SameKeyLonger(b, a);
    } else if StorageKey(a) == StorageKey(b) {
      assert a.ns == StorageKey(a)[..|a.ns|] == StorageKey(b)[..|a.ns|] == b.ns;
      assert a.sessionId == StorageKey(a)[|a.ns| + 1..] == StorageKey(b)[|a.ns| + 1..] == b.sessionId;
    }
  }

  /** No session of one namespace shares a storage key with one of another, exactly unless one of the
      two namespaces begins with the other and a separator. */
  lemma NamespacesApartIff(n: string, k: string)
    requires n != k
    ensures (forall i, j :: StorageKey(SessionKey(n, i)) != StorageKey(SessionKey(k, j))) <==>
            !(n + [SEPARATOR] <= k) && !(k + [SEPARATOR] <= n)
  {
    forall i, j
      ensures StorageKey(SessionKey(n, i)) == StorageKey(SessionKey(k, j)) <==>
              Shadows(SessionKey(n, i), SessionKey(k, j)) || Shadows(SessionKey(k, j), SessionKey(n, i))
    {
      SharedStorageIff(SessionKey(n, i), SessionKey(k, j));
    }
    if n + [SEPARATOR] <= k {
      assert Shadows(SessionKey(n, k[|n| + 1..] + [SEPARATOR] + ""), SessionKey(k, ""));
    } else if k + [SEPARATOR] <= n {
      assert Shadows(SessionKey(k, n[|k| + 1..] + [SEPARATOR] + ""), SessionKey(n, ""));
    }
  }

  // ----- configuration and values -----

  datatype Fingerprint = Fingerprint(algorithm: string, value: string)

  datatype Prefix = Prefix(epoch: nat, messages: seq<Message>, pinnedBoundary: Option<nat>,
                           fingerprint: Option<Fingerprint>, messageCount: Option<nat>)

  function Normalized(p: Prefix): Prefix {
    if p.messageCount.None? then p.(messageCount := Some(|p.messages|)) else p
  }

  /** A prefix is stored as it is given, with the number of its messages if that is missing. */
  lemma NormalizedTold(p: Prefix)
    ensures var n := Normalized(p);
            && n.epoch == p.epoch && n.messages == p.messages
            && n.pinnedBoundary == p.pinnedBoundary && n.fingerprint == p.fingerprint
            && n.messageCount == Some(if p.messageCount.Some? then p.messageCount.value else |p.messages|)
  {}

  datatype Lifetime = Lifetime(idleTtl: Option<nat>, maxLifetime: Option<nat>, touchOnRead: bool)

  datatype SizeLimits = SizeLimits(maxMessages: Option<nat>, maxPrefixBytes: Option<nat>,
                                   maxTailBytes: Option<nat>, maxAssembledBytes: Option<nat>)

  datatype Config = Config(limits: SizeLimits, lifetime: Lifetime)

  datatype Stored = Stored(prefix: Prefix, createdAt: int, lastAccessedAt: int)

  type Sessions = map<string, Stored>

  datatype PublishResult = Created | Replaced | AlreadyCurrent

  datatype SessionError =
    | NotFound
    | Expired
    | StaleEpoch(existing: nat, attempted: nat)
    | EpochConflict(epoch: nat)
    | EpochMismatch(expected: nat, actual: nat)
    | FingerprintMismatch
    | TailStartMismatch(expected: nat, actual: nat)
    | PrefixTooLarge(limit: nat, actual: nat)
    | TailTooLarge(limit: nat, actual: nat)
    | AssembledTooLarge(limit: nat, actual: nat)
    | InvalidContext
    | Unavailable

  /** The length of a JSON array of the messages. */
  function JsonBytes(messages: seq<Message>): nat {
    if messages == [] then 2
    else if |messages| == 1 then 2 + |messages[0]|
    else JsonBytes(messages[..|messages| - 1]) + 1 + |messages[|messages| - 1]|
  }

  /** A JSON array as it is printed. */
  function PrintedArray(messages: seq<Message>): string { "[" + Listed(messages) + "]" }

  function Listed(messages: seq<Message>): string {
    if messages == [] then ""
    else if |messages| == 1 then messages[0]
    else messages[0] + "," + Listed(messages[1..])
  }

  lemma {:induction false} ListedMore(front: seq<Message>, last: Message)
    ensures |Listed(front + [last])| == |Listed(front)| + (if front == [] then 0 else 1) + |last|
  {
    if front != [] {
      assert (front + [last])[1..] == front[1..] + [last];
      ListedMore(front[1..], last);
    }
  }

  lemma {:induction false} BytesArePrinted(messages: seq<Message>)
    ensures JsonBytes(messages) == |PrintedArray(messages)|
  {
    if |messages| > 1 {
      var front, last := messages[..|messages| - 1], messages[|messages| - 1];
      assert messages == front + [last];
      BytesArePrinted(front);
      ListedMore(front, last);
    }
  }

  function ValidatePrefix(limits: SizeLimits, messages: seq<Message>): Option<SessionError> {
    if limits.maxMessages.Some? && |messages| > limits.maxMessages.value
    then Some(PrefixTooLarge(limits.maxMessages.value, |messages|))
    else if limits.maxPrefixBytes.Some? && JsonBytes(messages) > limits.maxPrefixBytes.value
    then Some(PrefixTooLarge(limits.maxPrefixBytes.value, JsonBytes(messages)))
    else None
  }

  /** Has more than `limit` passed? Not if the clock went back, or there is no limit. */
  predicate Exceeded(since: int, now: int, limit: Option<nat>) {
    limit.Some? && now - since > limit.value
  }

  predicate IsExpired(s: Stored, lifetime: Lifetime, now: int) {
    Exceeded(s.createdAt, now, lifetime.maxLifetime) || Exceeded(s.lastAccessedAt, now, lifetime.idleTtl)
  }

  /** A prefix is refused for too many messages, or for too many bytes, in this order. */
  lemma PrefixRefusedIff(limits: SizeLimits, messages: seq<Message>)
    ensures var many := limits.maxMessages.Some? && |messages| > limits.maxMessages.value;
            var long := limits.maxPrefixBytes.Some? && |PrintedArray(messages)| > limits.maxPrefixBytes.value;
            ValidatePrefix(limits, messages) ==
            if many then Some(PrefixTooLarge(limits.maxMessages.value, |messages|))
            else if long then Some(PrefixTooLarge(limits.maxPrefixBytes.value, |PrintedArray(messages)|))
            else None
  {
    BytesArePrinted(messages);
  }

  /** A session lapses once more time than its longest lifetime has passed since it was created, or more
      than its idle lifetime since it was accessed; clocks that went back make nothing lapse. */
  lemma ExpiredIff(s: Stored, lifetime: Lifetime, now: int)
    ensures IsExpired(s, lifetime, now) <==>
            || (lifetime.maxLifetime.Some? && now > s.createdAt + lifetime.maxLifetime.value)
            || (lifetime.idleTtl.Some? && now > s.lastAccessedAt + lifetime.idleTtl.value)
  {}

  // ----- the operations, as functions of the sessions -----

  predicate Lapses(cfg: Config, m: Sessions, sk: string, now: int) {
    sk in m && IsExpired(m[sk], cfg.lifetime, now)
  }

  function Live(cfg: Config, m: Sessions, sk: string, now: int): Sessions {
    if Lapses(cfg, m, sk, now) then m - {sk} else m
  }

  function Published(cfg: Config, m: Sessions, sk: string, given: Prefix,
                     now: int): (Sessions, Result<PublishResult, SessionError>) {
    var p := Normalized(given);
    var invalid := ValidatePrefix(cfg.limits, p.messages);
    if invalid.Some? then (m, Err(invalid.value))
    else
      var live := Live(cfg, m, sk, now);
      if sk !in live then (live[sk := Stored(p, now, now)], Ok(Created))
      else
        var existing := live[sk].prefix;
        if p.epoch > existing.epoch then (live[sk := Stored(p, now, now)], Ok(Replaced))
        else if p.epoch < existing.epoch then (live, Err(StaleEpoch(existing.epoch, p.epoch)))
        else if existing == p then (live[sk := live[sk].(lastAccessedAt := now)], Ok(AlreadyCurrent))
        else (live, Err(EpochConflict(p.epoch)))
  }

  function Got(cfg: Config, m: Sessions, sk: string, now: int): (Sessions, Result<Option<Prefix>, SessionError>) {
    if Lapses(cfg, m, sk, now) then (m - {sk}, Err(Expired))
    else if sk !in m then (m, Ok(None))
    else (if cfg.lifetime.touchOnRead then m[sk := m[sk].(lastAccessedAt := now)] else m, Ok(Some(m[sk].prefix)))
  }

  function Touched(cfg: Config, m: Sessions, sk: string, now: int): (Sessions, Result<(), SessionError>) {
    if Lapses(cfg, m, sk, now) then (m - {sk}, Err(Expired))
    else if sk !in m then (m, Err(NotFound))
    else (m[sk := m[sk].(lastAccessedAt := now)], Ok(()))
  }

  function Purged(cfg: Config, m: Sessions, now: int): Sessions {
    map sk | sk in m && !IsExpired(m[sk], cfg.lifetime, now) :: m[sk]
  }

  class MemorySessionStore {
    const config: Config
    var sessions: Sessions

    constructor (cfg: Config)
      ensures config == cfg && sessions == map[]
    {
      config, sessions := cfg, map[];
    }

    /** Every key in the map was written as a storage key. */
    ghost predicate Valid()
      reads this
    {
      forall sk <- sessions :: SEPARATOR in sk
    }

    method RemoveIfExpired(sk: string, now: int) returns (expired: bool)
      modifies this
      ensures expired == Lapses(config, old(sessions), sk, now)
      ensures sessions == Live(config, old(sessions), sk, now)
    {
      expired := sk in sessions && IsExpired(sessions[sk], config.lifetime, now);
      if expired {
        sessions := sessions - {sk};
      }
    }

    method PublishKey(key: SessionKey, given: Prefix, now: int) returns (r: Result<PublishResult, SessionError>)
      requires Valid()
      modifies this
      ensures Valid()
      ensures (sessions, r) == Published(config, old(sessions), StorageKey(key), given, now)
    {
      var prefix := Normalized(given);
      var invalid := ValidatePrefix(config.limits, prefix.messages);
      if invalid.Some? { return Err(invalid.value); }
      var sk := StorageKey(key);
      var _ := RemoveIfExpired(sk, now);
      if sk !in sessions {
        sessions := sessions[sk := Stored(prefix, now, now)];
        return Ok(Created);
      }
      var existing := sessions[sk];
      if prefix.epoch > existing.prefix.epoch {
        sessions := sessions[sk := Stored(prefix, now, now)];
        return Ok(Replaced);
      }
      if prefix.epoch < existing.prefix.epoch {
        return Err(StaleEpoch(existing.prefix.epoch, prefix.epoch));
      }
      if existing.prefix == prefix {
        sessions := sessions[sk := existing.(lastAccessedAt := now)];
        return Ok(AlreadyCurrent);
      }
      r := Err(EpochConflict(prefix.epoch));
    }

    method GetKey(key: SessionKey, now: int) returns (r: Result<Option<Prefix>, SessionError>)
      requires Valid()
      modifies this
      ensures Valid()
      ensures (sessions, r) == Got(config, old(sessions), StorageKey(key), now)
    {
      var sk := StorageKey(key);
      var expired := RemoveIfExpired(sk, now);
      if expired { return Err(Expired); }
      if sk !in sessions { return Ok(None); }
      var entry := sessions[sk];
      if config.lifetime.touchOnRead {
        sessions := sessions[sk := entry.(lastAccessedAt := now)];
      }
      r := Ok(Some(entry.prefix));
    }

    method DeleteKey(key: SessionKey)
      requires Valid()
      modifies this
      ensures Valid() && sessions == old(sessions) - {StorageKey(key)}
    {
      sessions := sessions - {StorageKey(key)};
    }

    method TouchKey(key: SessionKey, now: int) returns (r: Result<(), SessionError>)
      requires Valid()
      modifies this
      ensures Valid()
      ensures (sessions, r) == Touched(config, old(sessions), StorageKey(key), now)
    {
      var sk := StorageKey(key);
      var expired := RemoveIfExpired(sk, now);
      if expired { return Err(Expired); }
      if sk !in sessions { return Err(NotFound); }
      sessions := sessions[sk := sessions[sk].(lastAccessedAt := now)];
      r := Ok(());
    }

    /** The expired keys, visited in any order and parsed. */
    method ExpiredKeys(now: int) returns (keys: seq<SessionKey>)
      requires Valid()
      ensures StorageKeys(keys) <= sessions.Keys
      ensures forall sk <- sessions :: sk in StorageKeys(keys) <==> IsExpired(sessions[sk], config.lifetime, now)
      ensures |StorageKeys(keys)| == |keys|
    {
      keys := [];
      var remaining := sessions.Keys;
      while remaining != {}
        invariant remaining <= sessions.Keys
        invariant StorageKeys(keys) <= sessions.Keys - remaining
        invariant forall sk <- sessions.Keys - remaining ::
                    sk in StorageKeys(keys) <==> IsExpired(sessions[sk], config.lifetime, now)
        invariant |StorageKeys(keys)| == |keys|
      {
        var sk :| sk in remaining;
        if IsExpired(sessions[sk], config.lifetime, now) {
          StorageKeyComesBack(sk);
          OneMoreKey(keys, ParseStorageKey(sk));
          keys := keys + [ParseStorageKey(sk)];
        }
        remaining := remaining - {sk};
      }
    }

    method RemoveKeys(keys: seq<SessionKey>)
      modifies this
      ensures sessions == old(sessions) - StorageKeys(keys)
    {
      for i := 0 to |keys|
        invariant sessions == old(sessions) - StorageKeys(keys[..i])
      {
        assert keys[..i + 1] == keys[..i] + [keys[i]];
        OneMoreKey(keys[..i], keys[i]);
        sessions := sessions - {StorageKey(keys[i])};
      }
      assert keys[..|keys|] == keys;
    }

    /** Drop all expired entries, by writing their parsed keys again. */
    method PurgeExpired(now: int) returns (purged: nat)
      requires Valid()
      modifies this
      ensures Valid()
      ensures sessions == Purged(config, old(sessions), now)
      ensures purged == |old(sessions).Keys - sessions.Keys|
    {
      if config.lifetime.idleTtl.None? && config.lifetime.maxLifetime.None? {
        PurgedIs(config, sessions, now, {});
        return 0;
      }
      var keys := ExpiredKeys(now);
      PurgedIs(config, sessions, now, StorageKeys(keys));
      RemoveKeys(keys);
      purged := |keys|;
    }
  }

  lemma PurgedIs(cfg: Config, m: Sessions, now: int, expired: set<string>)
    requires expired <= m.Keys && forall sk <- m :: sk in expired <==> IsExpired(m[sk], cfg.lifetime, now)
    ensures Purged(cfg, m, now) == m - expired
    ensures m.Keys - (m - expired).Keys == expired
  {}

  function StorageKeys(keys: seq<SessionKey>): set<string> {
    if keys == [] then {} else StorageKeys(keys[..|keys| - 1]) + {StorageKey(keys[|keys| - 1])}
  }

  lemma OneMoreKey(keys: seq<SessionKey>, key: SessionKey)
    ensures StorageKeys(keys + [key]) == StorageKeys(keys) + {StorageKey(key)}
  {
    assert (keys + [key])[..|keys|] == keys;
  }
}
