/** The Redis store held against the in-memory store: what makes them differ, and nothing else does
    (unigateway-session-redis/src/store.rs:256-453, unigateway-session/src/lifetime.rs:29-57). */
module RedisAgreement {
  import opened Common
  import opened SessionStore
  import opened SessionTheorems
  import opened RedisStore

  // ----- times that lost their fraction of a second -----

  /** The limit is over for Redis and not yet in memory. */
  predicate Early(since: int, now: int, limit: Option<nat>) {
    0 <= since && limit.Some? && limit.value - since % SECOND < now - since <= limit.value
  }

  /** The limit is over in memory and not yet for Redis: the time is before 1970, and counts as 1970. */
  predicate Late(since: int, now: int, limit: Option<nat>) {
    since < 0 && limit.Some? && now <= limit.value < now - since
  }

  lemma TruncatedIff(since: int, now: int, limit: Option<nat>)
    ensures Exceeded(Secs(since) * SECOND, now, limit) <==>
            Early(since, now, limit) || (Exceeded(since, now, limit) && !Late(since, now, limit))
  {
    if since >= 0 {
      assert Secs(since) * SECOND == since - since % SECOND;
    }
  }

  predicate Shortened(s: Stored, lifetime: Lifetime, now: int) {
    Early(s.createdAt, now, lifetime.maxLifetime) || Early(s.lastAccessedAt, now, lifetime.idleTtl)
  }

  predicate Prolonged(s: Stored, lifetime: Lifetime, now: int) {
    && !Shortened(s, lifetime, now)
    && (Exceeded(s.createdAt, now, lifetime.maxLifetime) ==> Late(s.createdAt, now, lifetime.maxLifetime))
    && (Exceeded(s.lastAccessedAt, now, lifetime.idleTtl) ==> Late(s.lastAccessedAt, now, lifetime.idleTtl))
  }

  /** Redis keeps the whole seconds of the times, and drops nothing unless there is an idle lifetime. */
  predicate SameTimes(cfg: Config, s: Stored, r: Record) {
    && r.createdAt == Secs(s.createdAt) && r.lastAccessedAt == Secs(s.lastAccessedAt)
    && (cfg.lifetime.idleTtl.None? ==> r.expiresAt.None?)
  }

  lemma RecordExpiredIff(cfg: Config, s: Stored, r: Record, now: int)
    requires SameTimes(cfg, s, r)
    ensures RecordExpired(r, cfg.lifetime, now) <==>
            if IsExpired(s, cfg.lifetime, now) then !Prolonged(s, cfg.lifetime, now)
            else Shortened(s, cfg.lifetime, now)
  {
    TruncatedIff(s.createdAt, now, cfg.lifetime.maxLifetime);
    TruncatedIff(s.lastAccessedAt, now, cfg.lifetime.idleTtl);
  }

  // ----- the same contents -----

  predicate SameEntry(codec: Codec, cfg: Config, s: Stored, r: Record) {
    r.epoch == s.prefix.epoch && r.prefix == codec.encode(s.prefix) && SameTimes(cfg, s, r)
  }

  /** Both stores hold the same prefixes under the same keys. */
  ghost predicate SameContents(codec: Codec, cfg: Config, m: Sessions, h: Hashes) {
    m.Keys == h.Keys && forall sk <- m :: SameEntry(codec, cfg, m[sk], h[sk])
  }

  lemma PutSame(codec: Codec, cfg: Config, m: Sessions, h: Hashes, sk: string, s: Stored, r: Record)
    requires SameContents(codec, cfg, m, h)
    ensures SameContents(codec, cfg, m[sk := s], h[sk := r]) <==> SameEntry(codec, cfg, s, r)
    ensures SameContents(codec, cfg, m - {sk}, h - {sk})
  {
    var m2, h2 := m[sk := s], h[sk := r];
    assert m2[sk] == s && h2[sk] == r;
    assert forall k <- m :: k != sk ==> m2[k] == m[k] && h2[k] == h[k];
  }

  /** One store still has the session and the other does not. */
  predicate Contested(cfg: Config, m: Sessions, h: Hashes, sk: string, now: int, redisNow: int) {
    sk in m &&
    if Lapses(cfg, m, sk, now) then !Dropped(h, sk, redisNow) && Prolonged(m[sk], cfg.lifetime, now)
    else Dropped(h, sk, redisNow) || Shortened(m[sk], cfg.lifetime, now)
  }

  /** What is read from Redis, told by the in-memory store. */
  lemma ReadSame(codec: Codec, cfg: Config, m: Sessions, h: Hashes, sk: string, now: int, redisNow: int)
    requires Faithful(codec) && SameContents(codec, cfg, m, h)
    ensures Checked(codec, cfg, Present(h, sk, redisNow), sk, now) ==
            if Dropped(h, sk, redisNow) then (h - {sk}, Ok(None))
            else if Lapses(cfg, m, sk, now) != Contested(cfg, m, h, sk, now, redisNow) then (h - {sk}, Err(Expired))
            else (h, Ok(if sk in m then Some(m[sk].prefix) else None))
  {
    if sk in m {
      assert codec.decode(codec.encode(m[sk].prefix)) == Some(m[sk].prefix);
      RecordExpiredIff(cfg, m[sk], h[sk], now);
    }
  }

  /** Sessions whose times are in 1970 or later. */
  predicate Modern(m: Sessions) { forall sk <- m :: 0 <= m[sk].createdAt && 0 <= m[sk].lastAccessedAt }

  lemma {:induction false} ModernAlways(cfg: Config, ops: seq<Op>)
    requires forall op <- ops :: op.Delete? || op.now >= 0
    ensures Modern(Run(cfg, map[], ops))
    decreases |ops|
  {
    if ops != [] {
      assert ops[|ops| - 1] in ops;
      ModernAlways(cfg, ops[..|ops| - 1]);
    }
  }

  /** Redis never holds a session longer than the in-memory store does. */
  lemma RedisLetsGoFirst(codec: Codec, cfg: Config, m: Sessions, h: Hashes, sk: string, now: int, redisNow: int)
    requires Faithful(codec) && SameContents(codec, cfg, m, h) && Modern(m)
    ensures var read := Checked(codec, cfg, Present(h, sk, redisNow), sk, now).1;
            Lapses(cfg, m, sk, now) ==> read == Err(Expired) || (read == Ok(None) && Dropped(h, sk, redisNow))
  {
    ReadSame(codec, cfg, m, h, sk, now, redisNow);
  }

  // ----- the same decisions -----

  /** Two different epochs that Lua cannot tell apart. */
  predicate Confuses(codec: Codec, m: Sessions, sk: string, epoch: nat) {
    sk in m && epoch != m[sk].prefix.epoch && codec.number(epoch) == codec.number(m[sk].prefix.epoch)
  }

  /** What the script gives for a key that is there, and what its code means. */
  lemma ScriptGives(codec: Codec, cfg: Config, h: Hashes, sk: string, was: Prefix, given: Prefix,
                    now: int, redisNow: int)
    requires Faithful(codec) && sk in h && h[sk].prefix == codec.encode(was) && h[sk].epoch == was.epoch
    requires ValidatePrefix(cfg.limits, Normalized(given).messages).None?
    requires Checked(codec, cfg, Present(h, sk, redisNow), sk, now) == (h, Ok(Some(was)))
    ensures var p, deadline := Normalized(given), Deadline(IdleTtlSecs(cfg.lifetime), h[sk].expiresAt, redisNow);
            RedisPublished(codec, cfg, h, sk, given, now, redisNow) ==
            if codec.number(p.epoch) > codec.number(was.epoch) then
              (h[sk := Record(p.epoch, codec.encode(p), Secs(now), Secs(now), deadline)], Ok(Replaced))
            else if codec.number(p.epoch) < codec.number(was.epoch) then (h, Err(StaleEpoch(was.epoch, p.epoch)))
            else if p == was then
              (h[sk := h[sk].(lastAccessedAt := Secs(now), expiresAt := deadline)], Ok(AlreadyCurrent))
            else (h, Err(EpochConflict(p.epoch)))
  {
    EncodesApart(codec, Normalized(given), was);
  }

  /** A key that is not there is created. */
  lemma ScriptCreates(codec: Codec, cfg: Config, h: Hashes, sk: string, given: Prefix, now: int, redisNow: int)
    requires ValidatePrefix(cfg.limits, Normalized(given).messages).None?
    requires var (live, read) := Checked(codec, cfg, Present(h, sk, redisNow), sk, now);
             sk !in live && (read.Err? ==> read.error == Expired)
    ensures var p, deadline := Normalized(given), Deadline(IdleTtlSecs(cfg.lifetime), None, redisNow);
            RedisPublished(codec, cfg, h, sk, given, now, redisNow) ==
            ((h - {sk})[sk := Record(p.epoch, codec.encode(p), Secs(now), Secs(now), deadline)], Ok(Created))
  {
    assert Checked(codec, cfg, Present(h, sk, redisNow), sk, now).0 == h - {sk};
  }

  lemma EncodesApart(codec: Codec, p: Prefix, q: Prefix)
    requires Faithful(codec)
    ensures codec.encode(p) == codec.encode(q) ==> p == q
  {
    assert codec.decode(codec.encode(p)) == Some(p) && codec.decode(codec.encode(q)) == Some(q);
  }

  lemma NumbersInOrder(codec: Codec, a: nat, b: nat)
    requires Faithful(codec)
    ensures a < b ==> codec.number(a) <= codec.number(b)
    ensures b < a ==> codec.number(b) <= codec.number(a)
  {}

  /** Both stores have the session: the script decides. */
  lemma ScriptAgreesIff(codec: Codec, cfg: Config, m: Sessions, h: Hashes, sk: string, given: Prefix,
                        now: int, redisNow: int)
    requires Faithful(codec) && SameContents(codec, cfg, m, h) && sk in m
    requires ValidatePrefix(cfg.limits, Normalized(given).messages).None?
    requires !Lapses(cfg, m, sk, now) && !Contested(cfg, m, h, sk, now, redisNow)
    ensures var (m2, r) := Published(cfg, m, sk, given, now);
            var (h2, s) := RedisPublished(codec, cfg, h, sk, given, now, redisNow);
            (r == s && SameContents(codec, cfg, m2, h2)) <==> !Confuses(codec, m, sk, given.epoch)
  {
    ReadSame(codec, cfg, m, h, sk, now, redisNow);
    var p, deadline := Normalized(given), Deadline(IdleTtlSecs(cfg.lifetime), h[sk].expiresAt, redisNow);
    ScriptGives(codec, cfg, h, sk, m[sk].prefix, given, now, redisNow);
    NumbersInOrder(codec, p.epoch, m[sk].prefix.epoch);
    PutSame(codec, cfg, m, h, sk, Stored(p, now, now),
            Record(p.epoch, codec.encode(p), Secs(now), Secs(now), deadline));
    PutSame(codec, cfg, m, h, sk, m[sk].(lastAccessedAt := now),
            h[sk].(lastAccessedAt := Secs(now), expiresAt := deadline));
  }

  /** Neither has it: it is created. */
  lemma CreatedSame(codec: Codec, cfg: Config, m: Sessions, h: Hashes, sk: string, given: Prefix,
                    now: int, redisNow: int)
    requires Faithful(codec) && SameContents(codec, cfg, m, h)
    requires ValidatePrefix(cfg.limits, Normalized(given).messages).None?
    requires sk in m ==> Lapses(cfg, m, sk, now) && !Contested(cfg, m, h, sk, now, redisNow)
    ensures var (m2, r) := Published(cfg, m, sk, given, now);
            var (h2, s) := RedisPublished(codec, cfg, h, sk, given, now, redisNow);
            r == s && SameContents(codec, cfg, m2, h2)
  {
    ReadSame(codec, cfg, m, h, sk, now, redisNow);
    ScriptCreates(codec, cfg, h, sk, given, now, redisNow);
    var p, deadline := Normalized(given), Deadline(IdleTtlSecs(cfg.lifetime), None, redisNow);
    var record := Record(p.epoch, codec.encode(p), Secs(now), Secs(now), deadline);
    PutSame(codec, cfg, m, h, sk, Stored(p, now, now), record);
    assert Live(cfg, m, sk, now)[sk := Stored(p, now, now)] == m[sk := Stored(p, now, now)];
    assert (h - {sk})[sk := record] == h[sk := record];
  }

  /** Only one has it: only the other creates it. */
  lemma CreatedApart(codec: Codec, cfg: Config, m: Sessions, h: Hashes, sk: string, given: Prefix,
                     now: int, redisNow: int)
    requires Faithful(codec) && SameContents(codec, cfg, m, h) && Contested(cfg, m, h, sk, now, redisNow)
    requires ValidatePrefix(cfg.limits, Normalized(given).messages).None?
    ensures Published(cfg, m, sk, given, now).1 != RedisPublished(codec, cfg, h, sk, given, now, redisNow).1
  {
    ReadSame(codec, cfg, m, h, sk, now, redisNow);
    if Lapses(cfg, m, sk, now) {
      ScriptGives(codec, cfg, h, sk, m[sk].prefix, given, now, redisNow);
    } else {
      ScriptCreates(codec, cfg, h, sk, given, now, redisNow);
    }
  }

  /** Publishing to Redis has the in-memory store's result and leaves the same contents, exactly unless
      one store still has the session and the other does not, or the new epoch and that of a session
      that still lives differ but are the same number to Lua. */
  lemma PublishAgreesIff(codec: Codec, cfg: Config, m: Sessions, h: Hashes, sk: string, given: Prefix,
                         now: int, redisNow: int)
    requires Faithful(codec) && SameContents(codec, cfg, m, h)
    requires ValidatePrefix(cfg.limits, Normalized(given).messages).None?
    ensures var (m2, r) := Published(cfg, m, sk, given, now);
            var (h2, s) := RedisPublished(codec, cfg, h, sk, given, now, redisNow);
            (r == s && SameContents(codec, cfg, m2, h2)) <==>
            !Contested(cfg, m, h, sk, now, redisNow) && !Confuses(codec, Live(cfg, m, sk, now), sk, given.epoch)
  {
    if Contested(cfg, m, h, sk, now, redisNow) {
      CreatedApart(codec, cfg, m, h, sk, given, now, redisNow);
    } else if sk in m && !Lapses(cfg, m, sk, now) {
      ScriptAgreesIff(codec, cfg, m, h, sk, given, now, redisNow);
    } else {
      CreatedSame(codec, cfg, m, h, sk, given, now, redisNow);
    }
  }

  // ----- one operation -----

  datatype Reply = PublishReply(r: Result<PublishResult, SessionError>)
                 | GetReply(g: Result<Option<Prefix>, SessionError>)
                 | TouchReply(t: Result<(), SessionError>)
                 | NoReply

  function MemoryReply(cfg: Config, m: Sessions, op: Op): Reply {
    match op
    case Publish(sk, prefix, now) => PublishReply(Published(cfg, m, sk, prefix, now).1)
    case Get(sk, now) => GetReply(Got(cfg, m, sk, now).1)
    case Touch(sk, now) => TouchReply(Touched(cfg, m, sk, now).1)
    case _ => NoReply
  }

  function RedisStep(codec: Codec, cfg: Config, h: Hashes, op: Op, redisNow: int): (Hashes, Reply) {
    match op
    case Publish(sk, prefix, now) =>
      var (h2, r) := RedisPublished(codec, cfg, h, sk, prefix, now, redisNow);
      (h2, PublishReply(r))
    case Get(sk, now) =>
      var (h2, r) := RedisGot(codec, cfg, h, sk, now, redisNow);
      (h2, GetReply(r))
    case Touch(sk, now) =>
      var (h2, r) := RedisTouched(codec, cfg, h, sk, now, redisNow);
      (h2, TouchReply(r))
    case Delete(sk) => (h - {sk}, NoReply)
    case Purge(now) => (RedisPurged(codec, cfg, h, now, redisNow), NoReply)
  }

  /** What a store says that has forgotten the session. */
  function Forgotten(reply: Reply): Reply {
    match reply
    case GetReply(Err(Expired)) => GetReply(Ok(None))
    case TouchReply(Err(Expired)) => TouchReply(Err(NotFound))
    case other => other
  }

  /** What Redis is expected to say: of a session that it has dropped, that there is none. */
  function Expected(cfg: Config, m: Sessions, h: Hashes, op: Op, redisNow: int): Reply {
    if (op.Get? || op.Touch?) && Dropped(h, op.sk, redisNow) then Forgotten(MemoryReply(cfg, m, op))
    else MemoryReply(cfg, m, op)
  }

  /** The operation meets a session that one store still has and the other has not. */
  predicate Contests(cfg: Config, m: Sessions, h: Hashes, op: Op, redisNow: int) {
    match op
    case Publish(sk, prefix, now) =>
      ValidatePrefix(cfg.limits, Normalized(prefix).messages).None? && Contested(cfg, m, h, sk, now, redisNow)
    case Get(sk, now) => Contested(cfg, m, h, sk, now, redisNow)
    case Touch(sk, now) => Contested(cfg, m, h, sk, now, redisNow)
    case Delete(_) => false
    case Purge(now) => exists sk <- m :: Contested(cfg, m, h, sk, now, redisNow)
  }

  ghost predicate Agree(codec: Codec, cfg: Config, m: Sessions, h: Hashes, op: Op, redisNow: int) {
    && RedisStep(codec, cfg, h, op, redisNow).1 == Expected(cfg, m, h, op, redisNow)
    && SameContents(codec, cfg, Step(cfg, m, op), RedisStep(codec, cfg, h, op, redisNow).0)
  }

  /** Epochs that Lua can hold. */
  predicate SmallEpochs(m: Sessions) { forall sk <- m :: m[sk].prefix.epoch < EXACT }

  predicate SmallEpoch(op: Op) { op.Publish? ==> op.prefix.epoch < EXACT }

  lemma EpochsStaySmall(cfg: Config, m: Sessions, op: Op)
    requires SmallEpochs(m) && SmallEpoch(op)
    ensures SmallEpochs(Step(cfg, m, op))
  {}

  /** One operation has the expected reply and leaves the same contents exactly unless it meets a
      session that one store still has and the other has not. */
  lemma StepAgreesIff(codec: Codec, cfg: Config, m: Sessions, h: Hashes, op: Op, redisNow: int)
    requires Faithful(codec) && ExactBelow(codec) && SmallEpochs(m) && SmallEpoch(op)
    requires SameContents(codec, cfg, m, h)
    ensures Agree(codec, cfg, m, h, op, redisNow) <==> !Contests(cfg, m, h, op, redisNow)
  {
    match op {
      case Publish(_, _, _) => PublishAgrees(codec, cfg, m, h, op, redisNow);
      case Get(_, _) => GetAgrees(codec, cfg, m, h, op, redisNow);
      case Touch(_, _) => TouchAgrees(codec, cfg, m, h, op, redisNow);
      case Delete(_) =>
      case Purge(now) => PurgeAgrees(codec, cfg, m, h, now, redisNow);
    }
  }

  lemma PublishAgrees(codec: Codec, cfg: Config, m: Sessions, h: Hashes, op: Op, redisNow: int)
    requires Faithful(codec) && ExactBelow(codec) && SmallEpochs(m) && SmallEpoch(op)
    requires SameContents(codec, cfg, m, h) && op.Publish?
    ensures Agree(codec, cfg, m, h, op, redisNow) <==> !Contests(cfg, m, h, op, redisNow)
  {
    if ValidatePrefix(cfg.limits, Normalized(op.prefix).messages).None? {
      if op.sk in m {
        assert codec.number(op.prefix.epoch) == op.prefix.epoch;
        assert codec.number(m[op.sk].prefix.epoch) == m[op.sk].prefix.epoch;
      }
      PublishAgreesIff(codec, cfg, m, h, op.sk, op.prefix, op.now, redisNow);
    }
  }

  lemma GetAgrees(codec: Codec, cfg: Config, m: Sessions, h: Hashes, op: Op, redisNow: int)
    requires Faithful(codec) && SameContents(codec, cfg, m, h) && op.Get?
    ensures Agree(codec, cfg, m, h, op, redisNow) <==> !Contests(cfg, m, h, op, redisNow)
  {
    var sk, now := op.sk, op.now;
    ReadSame(codec, cfg, m, h, sk, now, redisNow);
    if sk in m {
      PutSame(codec, cfg, m, h, sk, m[sk].(lastAccessedAt := now), TouchedRecord(h[sk], cfg, now, redisNow));
    }
  }

  lemma TouchAgrees(codec: Codec, cfg: Config, m: Sessions, h: Hashes, op: Op, redisNow: int)
    requires Faithful(codec) && SameContents(codec, cfg, m, h) && op.Touch?
    ensures Agree(codec, cfg, m, h, op, redisNow) <==> !Contests(cfg, m, h, op, redisNow)
  {
    var sk, now := op.sk, op.now;
    ReadSame(codec, cfg, m, h, sk, now, redisNow);
    if sk in m {
      PutSame(codec, cfg, m, h, sk, m[sk].(lastAccessedAt := now), TouchedRecord(h[sk], cfg, now, redisNow));
    }
  }

  lemma PurgeAgrees(codec: Codec, cfg: Config, m: Sessions, h: Hashes, now: int, redisNow: int)
    requires Faithful(codec) && SameContents(codec, cfg, m, h)
    ensures SameContents(codec, cfg, Purged(cfg, m, now), RedisPurged(codec, cfg, h, now, redisNow))
            <==> !exists sk <- m :: Contested(cfg, m, h, sk, now, redisNow)
  {
    var kept, left := Purged(cfg, m, now), RedisPurged(codec, cfg, h, now, redisNow);
    forall sk | sk in m ensures (sk in left <==> sk in kept) <==> !Contested(cfg, m, h, sk, now, redisNow) {
      PurgedBoth(codec, cfg, m, h, sk, now, redisNow);
    }
    PartSame(codec, cfg, m, h, kept, left);
    if sk :| sk in m && Contested(cfg, m, h, sk, now, redisNow) {
      assert !(sk in kept.Keys <==> sk in left.Keys);
    } else {
      assert kept.Keys == left.Keys;
    }
  }

  lemma PartSame(codec: Codec, cfg: Config, m: Sessions, h: Hashes, kept: Sessions, left: Hashes)
    requires SameContents(codec, cfg, m, h)
    requires kept.Keys <= m.Keys && forall sk <- kept :: kept[sk] == m[sk]
    requires left.Keys <= h.Keys && forall sk <- left :: left[sk] == h[sk]
    ensures SameContents(codec, cfg, kept, left) <==> kept.Keys == left.Keys
  {}

  lemma PurgedBoth(codec: Codec, cfg: Config, m: Sessions, h: Hashes, sk: string, now: int, redisNow: int)
    requires Faithful(codec) && SameContents(codec, cfg, m, h) && sk in m
    ensures (sk in RedisPurged(codec, cfg, h, now, redisNow) <==> sk in Purged(cfg, m, now)) <==>
            !Contested(cfg, m, h, sk, now, redisNow)
  {
    ReadSame(codec, cfg, m, h, sk, now, redisNow);
  }

  // ----- whole runs -----

  /** A run of Redis whose clock shows `clock(i)` at the `i`-th operation. */
  function RedisRun(codec: Codec, cfg: Config, clock: nat -> int, ops: seq<Op>): Hashes
    decreases |ops|
  {
    if ops == [] then map[]
    else
      var n := |ops| - 1;
      RedisStep(codec, cfg, RedisRun(codec, cfg, clock, ops[..n]), ops[n], clock(n)).0
  }

  /** Every operation of the run has the expected reply and leaves the same contents. */
  ghost predicate AgreeThroughout(codec: Codec, cfg: Config, clock: nat -> int, ops: seq<Op>) {
    ops == [] ||
    var n := |ops| - 1;
    var front := ops[..n];
    && AgreeThroughout(codec, cfg, clock, front)
    && Agree(codec, cfg, Run(cfg, map[], front), RedisRun(codec, cfg, clock, front), ops[n], clock(n))
  }

  /** No operation of the run meets a session that one store still has and the other has not. */
  predicate NeverContested(codec: Codec, cfg: Config, clock: nat -> int, ops: seq<Op>) {
    ops == [] ||
    var n := |ops| - 1;
    var front := ops[..n];
    && NeverContested(codec, cfg, clock, front)
    && !Contests(cfg, Run(cfg, map[], front), RedisRun(codec, cfg, clock, front), ops[n], clock(n))
  }

  /** For every run, whatever the clocks show: both stores agree throughout, but that Redis knows nothing
      of sessions it has dropped where the other store says they have expired, if and only if no
      operation meets a session that one store still has and the other has not. */
  lemma {:induction false} RedisAgreesIff(codec: Codec, cfg: Config, clock: nat -> int, ops: seq<Op>)
    requires Faithful(codec) && ExactBelow(codec) && forall op <- ops :: SmallEpoch(op)
    ensures AgreeThroughout(codec, cfg, clock, ops) <==> NeverContested(codec, cfg, clock, ops)
    ensures AgreeThroughout(codec, cfg, clock, ops) ==>
              SameContents(codec, cfg, Run(cfg, map[], ops), RedisRun(codec, cfg, clock, ops))
    ensures SmallEpochs(Run(cfg, map[], ops))
    decreases |ops|
  {
    if ops != [] {
      var n := |ops| - 1;
      var m, h := Run(cfg, map[], ops[..n]), RedisRun(codec, cfg, clock, ops[..n]);
      assert SmallEpoch(ops[n]);
      RedisAgreesIff(codec, cfg, clock, ops[..n]);
      EpochsStaySmall(cfg, m, ops[n]);
      if AgreeThroughout(codec, cfg, clock, ops[..n]) {
        StepAgreesIff(codec, cfg, m, h, ops[n], clock(n));
      }
    }
  }

  lemma NothingContested(cfg: Config, m: Sessions, h: Hashes, op: Op, redisNow: int)
    requires Eternal(cfg) && forall sk <- h :: h[sk].expiresAt.None?
    ensures !Contests(cfg, m, h, op, redisNow)
  {}

  /** Without lifetimes no run is contested, whatever the clocks show. */
  lemma {:induction false} RedisAgreesForever(codec: Codec, cfg: Config, clock: nat -> int, ops: seq<Op>)
    requires Faithful(codec) && ExactBelow(codec) && forall op <- ops :: SmallEpoch(op)
    requires Eternal(cfg)
    ensures NeverContested(codec, cfg, clock, ops) && AgreeThroughout(codec, cfg, clock, ops)
    decreases |ops|
  {
    if ops != [] {
      var n := |ops| - 1;
      RedisAgreesForever(codec, cfg, clock, ops[..n]);
      RedisAgreesIff(codec, cfg, clock, ops[..n]);
      NothingContested(cfg, Run(cfg, map[], ops[..n]), RedisRun(codec, cfg, clock, ops[..n]), ops[n], clock(n));
    }
    RedisAgreesIff(codec, cfg, clock, ops);
  }

  /** Without an idle lifetime, agreeing means that every reply is the same. */
  lemma RepliesAreTheSame(codec: Codec, cfg: Config, m: Sessions, h: Hashes, op: Op, redisNow: int)
    requires SameContents(codec, cfg, m, h) && cfg.lifetime.idleTtl.None? && Agree(codec, cfg, m, h, op, redisNow)
    ensures RedisStep(codec, cfg, h, op, redisNow).1 == MemoryReply(cfg, m, op)
  {}

  // ----- clocks that run alike -----

  /** Redis's clock is ahead by `skew`, and the time to live runs from the last access. */
  predicate Deadlines(cfg: Config, m: Sessions, h: Hashes, skew: int) {
    cfg.lifetime.idleTtl.Some? ==>
      forall sk <- m :: sk in h ==>
                          h[sk].expiresAt == Some(m[sk].lastAccessedAt + skew + IdleTtlSecs(cfg.lifetime) * SECOND)
  }

  predicate Alike(clock: nat -> int, ops: seq<Op>, skew: int) {
    forall i :: 0 <= i < |ops| && !ops[i].Delete? ==> clock(i) == ops[i].now + skew
  }

  /** What is kept of a key is as it was in both stores, or accessed now in both. */
  predicate Together(cfg: Config, m: Sessions, h: Hashes, m2: Sessions, h2: Hashes, sk: string,
                     now: int, redisNow: int) {
    sk in m2 && sk in h2 ==>
      || (sk in m && sk in h && m2[sk] == m[sk] && h2[sk] == h[sk])
      || (m2[sk].lastAccessedAt == now
          && (cfg.lifetime.idleTtl.Some? ==>
                h2[sk].expiresAt == Some(redisNow + IdleTtlSecs(cfg.lifetime) * SECOND)))
  }

  ghost predicate StepTogether(codec: Codec, cfg: Config, m: Sessions, h: Hashes, op: Op, redisNow: int, sk: string) {
    Together(cfg, m, h, Step(cfg, m, op), RedisStep(codec, cfg, h, op, redisNow).0, sk,
             if op.Delete? then 0 else op.now, redisNow)
  }

  lemma PublishTogether(codec: Codec, cfg: Config, m: Sessions, h: Hashes, op: Op, redisNow: int, sk: string)
    requires Faithful(codec) && SameContents(codec, cfg, m, h) && op.Publish?
    requires Agree(codec, cfg, m, h, op, redisNow) && !Contests(cfg, m, h, op, redisNow)
    ensures StepTogether(codec, cfg, m, h, op, redisNow, sk)
  {
    if ValidatePrefix(cfg.limits, Normalized(op.prefix).messages).None? {
      ReadSame(codec, cfg, m, h, op.sk, op.now, redisNow);
      if op.sk in m && !Lapses(cfg, m, op.sk, op.now) {
        ScriptGives(codec, cfg, h, op.sk, m[op.sk].prefix, op.prefix, op.now, redisNow);
      } else {
        ScriptCreates(codec, cfg, h, op.sk, op.prefix, op.now, redisNow);
      }
    }
  }

  lemma GetTogether(codec: Codec, cfg: Config, m: Sessions, h: Hashes, op: Op, redisNow: int, sk: string)
    requires Faithful(codec) && SameContents(codec, cfg, m, h) && (op.Get? || op.Touch?)
    requires !Contests(cfg, m, h, op, redisNow)
    ensures StepTogether(codec, cfg, m, h, op, redisNow, sk)
  {
    ReadSame(codec, cfg, m, h, op.sk, op.now, redisNow);
  }

  lemma AllTogether(codec: Codec, cfg: Config, m: Sessions, h: Hashes, op: Op, redisNow: int, sk: string)
    requires Faithful(codec) && SameContents(codec, cfg, m, h)
    requires Agree(codec, cfg, m, h, op, redisNow) && !Contests(cfg, m, h, op, redisNow)
    ensures StepTogether(codec, cfg, m, h, op, redisNow, sk)
  {
    match op {
      case Publish(_, _, _) => PublishTogether(codec, cfg, m, h, op, redisNow, sk);
      case Get(_, _) => GetTogether(codec, cfg, m, h, op, redisNow, sk);
      case Touch(_, _) => GetTogether(codec, cfg, m, h, op, redisNow, sk);
      case Delete(_) =>
      case Purge(_) =>
    }
  }

  lemma DeadlinesStep(codec: Codec, cfg: Config, m: Sessions, h: Hashes, op: Op, redisNow: int, skew: int)
    requires Faithful(codec) && SameContents(codec, cfg, m, h) && Deadlines(cfg, m, h, skew)
    requires Agree(codec, cfg, m, h, op, redisNow) && !Contests(cfg, m, h, op, redisNow)
    requires op.Delete? || redisNow == op.now + skew
    ensures Deadlines(cfg, Step(cfg, m, op), RedisStep(codec, cfg, h, op, redisNow).0, skew)
  {
    var m2, h2 := Step(cfg, m, op), RedisStep(codec, cfg, h, op, redisNow).0;
    if !op.Delete? {
      forall sk | sk in m2 ensures Together(cfg, m, h, m2, h2, sk, op.now, redisNow) {
        AllTogether(codec, cfg, m, h, op, redisNow, sk);
      }
      DeadlinesKept(cfg, m, h, m2, h2, op.now, skew);
    }
  }

  lemma DeadlinesKept(cfg: Config, m: Sessions, h: Hashes, m2: Sessions, h2: Hashes, now: int, skew: int)
    requires Deadlines(cfg, m, h, skew)
    requires forall sk <- m2 :: Together(cfg, m, h, m2, h2, sk, now, now + skew)
    ensures Deadlines(cfg, m2, h2, skew)
  {}

  lemma {:induction false} DeadlinesAlways(codec: Codec, cfg: Config, clock: nat -> int, ops: seq<Op>, skew: int)
    requires Faithful(codec) && ExactBelow(codec) && forall op <- ops :: SmallEpoch(op)
    requires NeverContested(codec, cfg, clock, ops) && Alike(clock, ops, skew)
    ensures Deadlines(cfg, Run(cfg, map[], ops), RedisRun(codec, cfg, clock, ops), skew)
    decreases |ops|
  {
    if ops != [] {
      var n := |ops| - 1;
      DeadlinesAlways(codec, cfg, clock, ops[..n], skew);
      RedisAgreesIff(codec, cfg, clock, ops[..n]);
      RedisAgreesIff(codec, cfg, clock, ops);
      var m, h := Run(cfg, map[], ops[..n]), RedisRun(codec, cfg, clock, ops[..n]);
      DeadlinesStep(codec, cfg, m, h, ops[n], clock(n), skew);
    }
  }

  /** With such clocks one store has a session that the other has not exactly when the in-memory store
      still has it and, since it was created, more has passed than the longest lifetime less the fraction
      of a second its creation had, or, since it was accessed, more than the idle lifetime less such a
      fraction, or than the whole seconds of the idle lifetime, at least one. */
  lemma ContestedIff(cfg: Config, m: Sessions, h: Hashes, sk: string, now: int, skew: int)
    requires m.Keys == h.Keys && Modern(m) && Deadlines(cfg, m, h, skew)
    requires cfg.lifetime.idleTtl.None? ==> forall k <- h :: h[k].expiresAt.None?
    ensures Contested(cfg, m, h, sk, now, now + skew) <==>
            && sk in m && !Lapses(cfg, m, sk, now)
            && var (created, accessed) := (m[sk].createdAt, m[sk].lastAccessedAt);
               || (cfg.lifetime.maxLifetime.Some?
                   && now - created > cfg.lifetime.maxLifetime.value - created % SECOND)
               || (cfg.lifetime.idleTtl.Some?
                   && (now - accessed > cfg.lifetime.idleTtl.value - accessed % SECOND
                       || now - accessed > Max(cfg.lifetime.idleTtl.value / SECOND, 1) * SECOND))
  {}

  // ----- runs on which the stores differ -----

  /** A number of tenths of a second. */
  function Tenths(n: nat): int { n * 100_000_000 }

  const NO_LIMITS := SizeLimits(None, None, None, None)

  /** With a longest lifetime of one second, epoch 5 is published 0.9 seconds into a second, and epoch 3
      0.6 seconds later: stale in memory, created in Redis. */
  lemma LifetimeEndsEarly(codec: Codec, sk: string, five: Prefix, three: Prefix)
    requires Faithful(codec) && five.epoch == 5 && three.epoch == 3
    ensures var cfg := Config(NO_LIMITS, Lifetime(None, Some(SECOND), true));
            var m := Published(cfg, map[], sk, five, Tenths(9)).0;
            var h := RedisPublished(codec, cfg, map[], sk, five, Tenths(9), Tenths(9)).0;
            && Published(cfg, m, sk, three, Tenths(15)).1 == Err(StaleEpoch(5, 3))
            && RedisPublished(codec, cfg, h, sk, three, Tenths(15), Tenths(15)).1 == Ok(Created)
  {}

  /** With an idle lifetime of one second, what is published 0.9 seconds into a second is read 0.6
      seconds later: it is there in memory, and has expired in Redis. */
  lemma IdleEndsEarly(codec: Codec, sk: string, given: Prefix)
    requires Faithful(codec)
    ensures var cfg := Config(NO_LIMITS, Lifetime(Some(SECOND), None, true));
            var m := Published(cfg, map[], sk, given, Tenths(9)).0;
            var h := RedisPublished(codec, cfg, map[], sk, given, Tenths(9), Tenths(9)).0;
            && Got(cfg, m, sk, Tenths(15)).1 == Ok(Some(Normalized(given)))
            && RedisGot(codec, cfg, h, sk, Tenths(15), Tenths(15)).1 == Err(Expired)
  {}

  /** With an idle lifetime of 1.5 seconds, what is published on a whole second is read 1.2 seconds later:
      it is there in memory, and Redis has dropped it. */
  lemma TimeToLiveEndsEarly(codec: Codec, sk: string, given: Prefix)
    requires Faithful(codec)
    ensures var cfg := Config(NO_LIMITS, Lifetime(Some(1_500_000_000), None, true));
            var m := Published(cfg, map[], sk, given, 0).0;
            var h := RedisPublished(codec, cfg, map[], sk, given, 0, 0).0;
            && Got(cfg, m, sk, Tenths(12)).1 == Ok(Some(Normalized(given)))
            && RedisGot(codec, cfg, h, sk, Tenths(12), Tenths(12)).1 == Ok(None)
  {}
}
