/** The Redis store (unigateway-session-redis/src/store.rs). Keys are storage keys, without the constant
    prefix of the Redis key. What is kept of a time are its whole seconds; Redis drops a key by its own
    clock, `redisNow`, which may show anything, once the time to live is over. */
module RedisStore {
  import opened Common
  import opened SessionStore

  const SECOND: int := 1_000_000_000

  /** The fields of a hash; `epoch` is written in decimal, so it is read back exactly outside Lua.
      Times are in seconds; `expiresAt` is when Redis drops the key, if ever. */
  datatype Record = Record(epoch: nat, prefix: string, createdAt: int, lastAccessedAt: int, expiresAt: Option<int>)

  type Hashes = map<string, Record>

  function Secs(now: int): int { if now < 0 then 0 else now / SECOND }

  /** The time to live that is set, 0 for none. */
  function IdleTtlSecs(lifetime: Lifetime): nat {
    match lifetime.idleTtl
    case Some(ttl) => Max(ttl / SECOND, 1)
    case None => 0
  }

  /** When Redis drops a key whose time to live is set now; without one to set, the old one stays. */
  function Deadline(ttl: nat, before: Option<int>, redisNow: int): Option<int> {
    if ttl > 0 then Some(redisNow + ttl * SECOND) else before
  }

  /** Redis has dropped the key. */
  predicate Dropped(h: Hashes, sk: string, redisNow: int) {
    sk in h && h[sk].expiresAt.Some? && redisNow > h[sk].expiresAt.value
  }

  /** What Redis still has of a key. */
  function Present(h: Hashes, sk: string, redisNow: int): Hashes {
    if Dropped(h, sk, redisNow) then h - {sk} else h
  }

  /** How prefixes are written as JSON and read again, and what number Lua makes of a decimal epoch. */
  datatype Codec = Codec(encode: Prefix -> string, decode: string -> Option<Prefix>, number: nat -> int)

  ghost predicate Faithful(codec: Codec) {
    && (forall p :: codec.decode(codec.encode(p)) == Some(p))
    && (forall a: nat, b: nat :: a <= b ==> codec.number(a) <= codec.number(b))
  }

  const EXACT: nat := 0x20_0000_0000_0000

  /** Doubles are exact below two to the 53rd. */
  ghost predicate ExactBelow(codec: Codec) {
    forall n: nat :: n < EXACT ==> codec.number(n) == n
  }

  /** The publish script: the hash afterwards, and the code. */
  function Scripted(codec: Codec, h: Hashes, sk: string, epoch: nat, json: string, now: int, ttl: nat,
                    redisNow: int): (Hashes, int) {
    if sk !in h then (h[sk := Record(epoch, json, now, now, Deadline(ttl, None, redisNow))], 0)
    else
      var existing, deadline := h[sk], Deadline(ttl, h[sk].expiresAt, redisNow);
      if codec.number(epoch) > codec.number(existing.epoch) then (h[sk := Record(epoch, json, now, now, deadline)], 1)
      else if codec.number(epoch) < codec.number(existing.epoch) then (h, -1)
      else if existing.prefix == json then (h[sk := existing.(lastAccessedAt := now, expiresAt := deadline)], 2)
      else (h, -2)
  }

  /** Reading a record; it is corrupt if its parts do not fit. */
  function Loaded(codec: Codec, h: Hashes, sk: string): Result<Option<Prefix>, SessionError> {
    if sk !in h then Ok(None)
    else
      match codec.decode(h[sk].prefix)
      case None => Err(Unavailable)
      case Some(p) => if p.epoch != h[sk].epoch then Err(Unavailable) else Ok(Some(p))
  }

  function CodeMeaning(code: int, epoch: nat,
                       loaded: Result<Option<Prefix>, SessionError>): Result<PublishResult, SessionError> {
    if code == 0 then Ok(Created)
    else if code == 1 then Ok(Replaced)
    else if code == 2 then Ok(AlreadyCurrent)
    else if code == -1 then
      (match loaded
       case Err(error) => Err(error)
       case Ok(None) => Err(StaleEpoch(epoch, epoch))
       case Ok(Some(p)) => Err(StaleEpoch(p.epoch, epoch)))
    else if code == -2 then Err(EpochConflict(epoch))
    else Err(Unavailable)
  }

  predicate RecordExpired(r: Record, lifetime: Lifetime, now: int) {
    Exceeded(r.createdAt * SECOND, now, lifetime.maxLifetime)
      || Exceeded(r.lastAccessedAt * SECOND, now, lifetime.idleTtl)
  }

  /** Reading a record and deleting it if it has lapsed. */
  function Checked(codec: Codec, cfg: Config, h: Hashes, sk: string,
                   now: int): (Hashes, Result<Option<Prefix>, SessionError>) {
    match Loaded(codec, h, sk)
    case Ok(Some(p)) => if RecordExpired(h[sk], cfg.lifetime, now) then (h - {sk}, Err(Expired)) else (h, Ok(Some(p)))
    case other => (h, other)
  }

  function RedisPublished(codec: Codec, cfg: Config, h: Hashes, sk: string, given: Prefix, now: int,
                          redisNow: int): (Hashes, Result<PublishResult, SessionError>) {
    var p := Normalized(given);
    var invalid := ValidatePrefix(cfg.limits, p.messages);
    if invalid.Some? then (h, Err(invalid.value))
    else
      var (live, checked) := Checked(codec, cfg, Present(h, sk, redisNow), sk, now);
      if checked.Err? && checked.error != Expired then (live, Err(checked.error))
      else
        var (after, code) :=
          Scripted(codec, live, sk, p.epoch, codec.encode(p), Secs(now), IdleTtlSecs(cfg.lifetime), redisNow);
        (after, CodeMeaning(code, p.epoch, Loaded(codec, after, sk)))
  }

  function TouchedRecord(r: Record, cfg: Config, now: int, redisNow: int): Record {
    r.(lastAccessedAt := Secs(now), expiresAt := Deadline(IdleTtlSecs(cfg.lifetime), r.expiresAt, redisNow))
  }

  function RedisGot(codec: Codec, cfg: Config, h: Hashes, sk: string, now: int,
                    redisNow: int): (Hashes, Result<Option<Prefix>, SessionError>) {
    match Checked(codec, cfg, Present(h, sk, redisNow), sk, now)
    case (live, Ok(Some(p))) =>
      (if cfg.lifetime.touchOnRead && sk in live
       then live[sk := TouchedRecord(live[sk], cfg, now, redisNow)] else live, Ok(Some(p)))
    case (live, other) => (live, other)
  }

  /** A corrupt record is reported as expired here. */
  function RedisTouched(codec: Codec, cfg: Config, h: Hashes, sk: string, now: int,
                        redisNow: int): (Hashes, Result<(), SessionError>) {
    var (live, checked) := Checked(codec, cfg, Present(h, sk, redisNow), sk, now);
    if checked.Err? then (live, Err(Expired))
    else if sk !in live then (live, Err(NotFound))
    else (live[sk := TouchedRecord(live[sk], cfg, now, redisNow)], Ok(()))
  }

  predicate Eternal(cfg: Config) { cfg.lifetime.idleTtl.None? && cfg.lifetime.maxLifetime.None? }

  /** A purge has something to delete under the key. */
  predicate Purgeable(codec: Codec, cfg: Config, h: Hashes, sk: string, now: int, redisNow: int) {
    Checked(codec, cfg, Present(h, sk, redisNow), sk, now).1 == Err(Expired)
  }

  /** The hashes after a purge that meets no corrupt record. */
  function RedisPurged(codec: Codec, cfg: Config, h: Hashes, now: int, redisNow: int): Hashes {
    if Eternal(cfg) then h
    else map sk | sk in h && sk in Checked(codec, cfg, Present(h, sk, redisNow), sk, now).0 :: h[sk]
  }

  /** A purge is done with all keys but the remaining ones, and has counted what it deleted. */
  ghost predicate Scanned(codec: Codec, cfg: Config, all: Hashes, h: Hashes, remaining: set<string>, purged: nat,
                          now: int, redisNow: int) {
    && remaining <= h.Keys <= all.Keys
    && (forall sk <- h :: h[sk] == all[sk])
    && (forall sk <- all.Keys - remaining ::
          && Loaded(codec, Present(all, sk, redisNow), sk).Ok?
          && (sk in h <==> sk in Checked(codec, cfg, Present(all, sk, redisNow), sk, now).0))
    && purged == |Counted(codec, cfg, all, all.Keys - remaining, now, redisNow)|
  }

  function Counted(codec: Codec, cfg: Config, h: Hashes, keys: set<string>, now: int, redisNow: int): set<string> {
    set sk | sk in keys && Purgeable(codec, cfg, h, sk, now, redisNow)
  }

  /** What is done with one key depends on its own record alone. */
  lemma CheckedAlone(codec: Codec, cfg: Config, all: Hashes, h: Hashes, sk: string, now: int, redisNow: int)
    requires sk in h && sk in all && h[sk] == all[sk]
    ensures var whole, part := Checked(codec, cfg, Present(all, sk, redisNow), sk, now),
                               Checked(codec, cfg, Present(h, sk, redisNow), sk, now);
            && part.1 == whole.1
            && part.0 == (if sk in whole.0 then h else h - {sk})
            && (whole.1.Err? && whole.1.error != Expired <==> Loaded(codec, Present(all, sk, redisNow), sk).Err?)
  {}

  lemma ScanOne(codec: Codec, cfg: Config, all: Hashes, h: Hashes, remaining: set<string>, purged: nat, sk: string,
                now: int, redisNow: int)
    requires Scanned(codec, cfg, all, h, remaining, purged, now, redisNow) && sk in remaining
    ensures var (h2, r) := Checked(codec, cfg, Present(h, sk, redisNow), sk, now);
            && h2.Keys <= h.Keys
            && (r.Err? && r.error != Expired <==> Loaded(codec, Present(all, sk, redisNow), sk).Err?)
            && (r.Ok? || r.error == Expired ==>
                  Scanned(codec, cfg, all, h2, remaining - {sk}, if r.Err? then purged + 1 else purged, now, redisNow))
  {
    CheckedAlone(codec, cfg, all, h, sk, now, redisNow);
    var done := all.Keys - remaining;
    assert all.Keys - (remaining - {sk}) == done + {sk};
    CountOne(codec, cfg, all, done, sk, now, redisNow);
  }

  lemma CountOne(codec: Codec, cfg: Config, h: Hashes, done: set<string>, sk: string, now: int, redisNow: int)
    requires sk !in done
    ensures |Counted(codec, cfg, h, done + {sk}, now, redisNow)| ==
            |Counted(codec, cfg, h, done, now, redisNow)| + if Purgeable(codec, cfg, h, sk, now, redisNow) then 1 else 0
  {
    assert Counted(codec, cfg, h, done + {sk}, now, redisNow) ==
           Counted(codec, cfg, h, done, now, redisNow)
           + if Purgeable(codec, cfg, h, sk, now, redisNow) then {sk} else {};
  }

  lemma ScanEnds(codec: Codec, cfg: Config, all: Hashes, h: Hashes, purged: nat, now: int, redisNow: int)
    requires Scanned(codec, cfg, all, h, {}, purged, now, redisNow) && !Eternal(cfg)
    ensures h == RedisPurged(codec, cfg, all, now, redisNow)
    ensures purged == |Counted(codec, cfg, all, all.Keys, now, redisNow)|
  {
    assert all.Keys - {} == all.Keys;
  }

  class RedisSessionStore {
    const codec: Codec
    const config: Config
    var hashes: Hashes

    constructor (c: Codec, cfg: Config)
      ensures codec == c && config == cfg && hashes == map[]
    {
      codec, config, hashes := c, cfg, map[];
    }

    /** The Lua script. */
    method PublishScript(sk: string, epoch: nat, json: string, now: int, ttl: nat, redisNow: int) returns (code: int)
      modifies this
      ensures (hashes, code) == Scripted(codec, old(hashes), sk, epoch, json, now, ttl, redisNow)
    {
      if sk !in hashes {
        hashes := hashes[sk := Record(epoch, json, now, now, Deadline(ttl, None, redisNow))];
        return 0;
      }
      var existing := hashes[sk];
      var newEpoch, oldEpoch := codec.number(epoch), codec.number(existing.epoch);
      var deadline := Deadline(ttl, existing.expiresAt, redisNow);
      if newEpoch > oldEpoch {
        hashes := hashes[sk := Record(epoch, json, now, now, deadline)];
        code := 1;
      } else if newEpoch < oldEpoch {
        code := -1;
      } else if existing.prefix == json {
        hashes := hashes[sk := existing.(lastAccessedAt := now, expiresAt := deadline)];
        code := 2;
      } else {
        code := -2;
      }
    }

    method RemoveIfExpired(sk: string, now: int, redisNow: int) returns (r: Result<Option<Prefix>, SessionError>)
      modifies this
      ensures (hashes, r) == Checked(codec, config, Present(old(hashes), sk, redisNow), sk, now)
    {
      hashes := Present(hashes, sk, redisNow);
      r := Loaded(codec, hashes, sk);
      if r.Ok? && r.value.Some? && RecordExpired(hashes[sk], config.lifetime, now) {
        hashes := hashes - {sk};
        r := Err(Expired);
      }
    }

    method PublishKey(key: SessionKey, given: Prefix, now: int, redisNow: int)
      returns (r: Result<PublishResult, SessionError>)
      modifies this
      ensures (hashes, r) == RedisPublished(codec, config, old(hashes), StorageKey(key), given, now, redisNow)
    {
      var prefix := Normalized(given);
      var invalid := ValidatePrefix(config.limits, prefix.messages);
      if invalid.Some? { return Err(invalid.value); }
      var sk := StorageKey(key);
      var record := RemoveIfExpired(sk, now, redisNow);
      if record.Err? && record.error != Expired { return Err(record.error); }
      var ttl := IdleTtlSecs(config.lifetime);
      var code := PublishScript(sk, prefix.epoch, codec.encode(prefix), Secs(now), ttl, redisNow);
      match code {
        case 0 => r := Ok(Created);
        case 1 => r := Ok(Replaced);
        case 2 => r := Ok(AlreadyCurrent);
        case _ =>
          if code == -1 {
            var loaded := Loaded(codec, hashes, sk);
            if loaded.Err? { return Err(loaded.error); }
            var existing := if loaded.value.Some? then loaded.value.value.epoch else prefix.epoch;
            return Err(StaleEpoch(existing, prefix.epoch));
          }
          r := if code == -2 then Err(EpochConflict(prefix.epoch)) else Err(Unavailable);
      }
    }

    method GetKey(key: SessionKey, now: int, redisNow: int) returns (r: Result<Option<Prefix>, SessionError>)
      modifies this
      ensures (hashes, r) == RedisGot(codec, config, old(hashes), StorageKey(key), now, redisNow)
    {
      var sk := StorageKey(key);
      r := RemoveIfExpired(sk, now, redisNow);
      if r.Ok? && r.value.Some? && config.lifetime.touchOnRead {
        hashes := hashes[sk := TouchedRecord(hashes[sk], config, now, redisNow)];
      }
    }

    method DeleteKey(key: SessionKey)
      modifies this
      ensures hashes == old(hashes) - {StorageKey(key)}
    {
      hashes := hashes - {StorageKey(key)};
    }

    method TouchKey(key: SessionKey, now: int, redisNow: int) returns (r: Result<(), SessionError>)
      modifies this
      ensures (hashes, r) == RedisTouched(codec, config, old(hashes), StorageKey(key), now, redisNow)
    {
      var sk := StorageKey(key);
      var record := RemoveIfExpired(sk, now, redisNow);
      if record.Err? { return Err(Expired); }
      if sk !in hashes { return Err(NotFound); }
      hashes := hashes[sk := TouchedRecord(hashes[sk], config, now, redisNow)];
      r := Ok(());
    }

    /** Redis hands out the keys in any order. */
    method PurgeExpired(now: int, redisNow: int) returns (r: Result<nat, SessionError>)
      modifies this
      ensures r.Err? <==> !Eternal(config) && exists sk <- old(hashes) ::
                            Loaded(codec, Present(old(hashes), sk, redisNow), sk).Err?
      ensures r.Ok? ==>
                && hashes == RedisPurged(codec, config, old(hashes), now, redisNow)
                && r.value == |Counted(codec, config, old(hashes), old(hashes).Keys, now, redisNow)|
      ensures hashes.Keys <= old(hashes).Keys && forall sk <- hashes :: hashes[sk] == old(hashes)[sk]
    {
      if Eternal(config) {
        return Ok(0);
      }
      ghost var all := hashes;
      var remaining, purged := hashes.Keys, 0;
      while remaining != {}
        invariant Scanned(codec, config, all, hashes, remaining, purged, now, redisNow)
      {
        var sk :| sk in remaining;
        ScanOne(codec, config, all, hashes, remaining, purged, sk, now, redisNow);
        var record := RemoveIfExpired(sk, now, redisNow);
        if record.Err? && record.error != Expired { return Err(record.error); }
        if record.Err? { purged := purged + 1; }
        remaining := remaining - {sk};
      }
      ScanEnds(codec, config, all, hashes, purged, now, redisNow);
      r := Ok(purged);
    }
  }

  // ----- deadlines -----

  /** With an idle lifetime a key is due its whole seconds, at least one, after now; without one the deadline
      it has is left alone. */
  lemma DeadlineTold(lifetime: Lifetime, before: Option<int>, redisNow: int)
    ensures Deadline(IdleTtlSecs(lifetime), before, redisNow) ==
            match lifetime.idleTtl
            case Some(ttl) =>
              Some(redisNow + (if ttl >= 1_000_000_000 then ttl - ttl % 1_000_000_000 else 1_000_000_000))
            case None => before
  {}

  // ----- corrupt records -----

  /** A record is corrupt if it is no prefix, or one of another epoch: reading and publishing report that,
      touching takes it for expired, and none of them changes it. */
  lemma CorruptTold(codec: Codec, cfg: Config, h: Hashes, sk: string, given: Prefix, now: int, redisNow: int)
    requires sk in h && !Dropped(h, sk, redisNow)
    requires ValidatePrefix(cfg.limits, Normalized(given).messages).None?
    ensures var decoded := codec.decode(h[sk].prefix);
            decoded.None? || decoded.value.epoch != h[sk].epoch ==>
              && RedisGot(codec, cfg, h, sk, now, redisNow) == (h, Err(Unavailable))
              && RedisPublished(codec, cfg, h, sk, given, now, redisNow) == (h, Err(Unavailable))
              && RedisTouched(codec, cfg, h, sk, now, redisNow) == (h, Err(Expired))
  {}
}
