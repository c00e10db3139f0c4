/** Putting a stored prefix in front of a delta request (unigateway-session/src/middleware.rs:137-330). */
module DeltaAssembly {
  import opened Common
  import opened SessionStore
  import opened SessionTheorems

  const U64_MAX: nat := 0xFFFF_FFFF_FFFF_FFFF

  datatype FingerprintPolicy = FingerprintDisabled | FingerprintOptional | FingerprintRequired

  datatype TailPositionPolicy = TailIgnored | TailOptional | TailExact

  datatype MiddlewareConfig = MiddlewareConfig(tailPolicy: TailPositionPolicy, fingerprintPolicy: FingerprintPolicy,
                                               limits: SizeLimits, touchOnDelta: bool)

  datatype Context = Context(epoch: nat, fingerprint: Option<Fingerprint>, prefixHash: Option<string>,
                             tailStart: Option<nat>)

  /** An old-style hash counts as a fingerprint without algorithm. */
  function RequestFingerprint(ctx: Context): Option<Fingerprint> {
    match (ctx.fingerprint, ctx.prefixHash)
    case (Some(f), _) => Some(f)
    case (None, Some(hash)) => Some(Fingerprint("", hash))
    case (None, None) => None
  }

  predicate FingerprintsMatch(stored: Fingerprint, request: Fingerprint) {
    (stored.algorithm == "" || request.algorithm == "" || stored.algorithm == request.algorithm)
    && stored.value == request.value
  }

  function ValidateFingerprint(policy: FingerprintPolicy, stored: Option<Fingerprint>,
                               request: Option<Fingerprint>): Option<SessionError> {
    match policy
    case FingerprintDisabled => None
    case FingerprintOptional =>
      if stored.Some? && request.Some? && !FingerprintsMatch(stored.value, request.value)
        then Some(FingerprintMismatch) else None
    case FingerprintRequired =>
      if request.None? || stored.None? then Some(InvalidContext)
      else if FingerprintsMatch(stored.value, request.value) then None else Some(FingerprintMismatch)
  }

  function ValidateTailStart(policy: TailPositionPolicy, prefixLength: nat,
                             tailStart: Option<nat>): Option<SessionError> {
    match policy
    case TailIgnored => None
    case TailOptional =>
      if tailStart.Some? && tailStart.value != prefixLength
        then Some(TailStartMismatch(prefixLength, tailStart.value)) else None
    case TailExact =>
      if tailStart.None? then Some(TailStartMismatch(prefixLength, U64_MAX))
      else if tailStart.value != prefixLength then Some(TailStartMismatch(prefixLength, tailStart.value)) else None
  }

  /** The messages to send, or why not. */
  function Merged(cfg: MiddlewareConfig, stored: Prefix, ctx: Context,
                  raw: Option<seq<Message>>): Result<seq<Message>, SessionError> {
    if stored.epoch != ctx.epoch then Err(EpochMismatch(stored.epoch, ctx.epoch))
    else
      var fingerprint := ValidateFingerprint(cfg.fingerprintPolicy, stored.fingerprint, RequestFingerprint(ctx));
      var position := ValidateTailStart(cfg.tailPolicy, |stored.messages|, ctx.tailStart);
      if fingerprint.Some? then Err(fingerprint.value)
      else if position.Some? then Err(position.value)
      else if raw.None? then Err(InvalidContext)
      else if cfg.limits.maxTailBytes.Some? && JsonBytes(raw.value) > cfg.limits.maxTailBytes.value
      then Err(TailTooLarge(cfg.limits.maxTailBytes.value, JsonBytes(raw.value)))
      else
        var merged := stored.messages + raw.value;
        if cfg.limits.maxAssembledBytes.Some? && JsonBytes(merged) > cfg.limits.maxAssembledBytes.value
        then Err(AssembledTooLarge(cfg.limits.maxAssembledBytes.value, JsonBytes(merged)))
        else Ok(merged)
  }

  /** Sessions, result and request after an assembly; the clock is read for the lookup and again
      for the touch. */
  datatype Assembly = Assembly(sessions: Sessions, result: Result<(), SessionError>, raw: Option<seq<Message>>)

  function Assembled(cfg: MiddlewareConfig, store: Config, m: Sessions, sk: string, ctx: Context,
                     raw: Option<seq<Message>>, now: int, touchNow: int): Assembly
  {
    match Got(store, m, sk, now)
    case (after, Err(error)) => Assembly(after, Err(error), raw)
    case (after, Ok(None)) => Assembly(after, Err(NotFound), raw)
    case (after, Ok(Some(stored))) =>
      match Merged(cfg, stored, ctx, raw)
      case Err(error) => Assembly(after, Err(error), raw)
      case Ok(merged) =>
        if !cfg.touchOnDelta then Assembly(after, Ok(()), Some(merged))
        else
          var (touched, r) := Touched(store, after, sk, touchNow);
          Assembly(touched, r, Some(merged))
  }

  class DeltaAssemblyMiddleware {
    const config: MiddlewareConfig
    const store: MemorySessionStore
    /** The raw messages of the request being handled. */
    var rawMessages: Option<seq<Message>>

    constructor (cfg: MiddlewareConfig, sessionStore: MemorySessionStore)
      ensures config == cfg && store == sessionStore && rawMessages == None
    {
      config, store, rawMessages := cfg, sessionStore, None;
    }

    method AssembleDelta(key: SessionKey, ctx: Context, now: int, touchNow: int) returns (r: Result<(), SessionError>)
      requires store.Valid()
      modifies this, store
      ensures store.Valid()
      ensures Assembly(store.sessions, r, rawMessages)
              == Assembled(config, store.config, old(store.sessions), StorageKey(key), ctx, old(rawMessages), now,
                           touchNow)
    {
      var found := store.GetKey(key, now);
      if found.Err? { return Err(found.error); }
      if found.value.None? { return Err(NotFound); }
      var stored := found.value.value;
      if stored.epoch != ctx.epoch { return Err(EpochMismatch(stored.epoch, ctx.epoch)); }
      var fingerprint := ValidateFingerprint(config.fingerprintPolicy, stored.fingerprint, RequestFingerprint(ctx));
      if fingerprint.Some? { return Err(fingerprint.value); }
      var position := ValidateTailStart(config.tailPolicy, |stored.messages|, ctx.tailStart);
      if position.Some? { return Err(position.value); }
      if rawMessages.None? { return Err(InvalidContext); }
      var tail := rawMessages.value;
      if config.limits.maxTailBytes.Some? && JsonBytes(tail) > config.limits.maxTailBytes.value {
        return Err(TailTooLarge(config.limits.maxTailBytes.value, JsonBytes(tail)));
      }
      var merged := stored.messages + tail;
      if config.limits.maxAssembledBytes.Some? && JsonBytes(merged) > config.limits.maxAssembledBytes.value {
        return Err(AssembledTooLarge(config.limits.maxAssembledBytes.value, JsonBytes(merged)));
      }
      rawMessages := Some(merged);
      if config.touchOnDelta {
        r := store.TouchKey(key, touchNow);
      } else {
        r := Ok(());
      }
    }
  }

  // ----- when it succeeds -----

  /** The conditions under which a stored prefix is accepted, one by one. */
  ghost predicate Acceptable(cfg: MiddlewareConfig, stored: Prefix, ctx: Context, raw: Option<seq<Message>>) {
    var request := RequestFingerprint(ctx);
    && stored.epoch == ctx.epoch
    && (cfg.fingerprintPolicy.FingerprintRequired? ==> stored.fingerprint.Some? && request.Some?)
    && (!cfg.fingerprintPolicy.FingerprintDisabled? && stored.fingerprint.Some? && request.Some? ==>
          FingerprintsMatch(stored.fingerprint.value, request.value))
    && (cfg.tailPolicy.TailExact? ==> ctx.tailStart.Some?)
    && (!cfg.tailPolicy.TailIgnored? && ctx.tailStart.Some? ==> ctx.tailStart.value == |stored.messages|)
    && raw.Some?
    && (cfg.limits.maxTailBytes.Some? ==> JsonBytes(raw.value) <= cfg.limits.maxTailBytes.value)
    && (cfg.limits.maxAssembledBytes.Some?
        ==> JsonBytes(stored.messages + raw.value) <= cfg.limits.maxAssembledBytes.value)
  }

  lemma MergesIff(cfg: MiddlewareConfig, stored: Prefix, ctx: Context, raw: Option<seq<Message>>)
    ensures Merged(cfg, stored, ctx, raw).Ok? <==> Acceptable(cfg, stored, ctx, raw)
    ensures Merged(cfg, stored, ctx, raw).Ok? ==> Merged(cfg, stored, ctx, raw).value == stored.messages + raw.value
  {}

  // ----- the conditions in values -----

  /** The fingerprints that there are have the same value, and no two different algorithms. */
  predicate Compatible(stored: Option<Fingerprint>, ctx: Context) {
    stored.Some? ==>
      match ctx.fingerprint
      case Some(f) =>
        && f.value == stored.value.value
        && (f.algorithm == stored.value.algorithm || f.algorithm == "" || stored.value.algorithm == "")
      case None => ctx.prefixHash.Some? ==> ctx.prefixHash.value == stored.value.value
  }

  /** A fingerprint is missing that has to be there. */
  predicate Missing(policy: FingerprintPolicy, stored: Option<Fingerprint>, ctx: Context) {
    policy == FingerprintRequired && (stored == None || (ctx.fingerprint == None && ctx.prefixHash == None))
  }

  /** The tail does not begin where the prefix ends, or does not say where it begins and has to. */
  predicate Misplaced(policy: TailPositionPolicy, length: nat, tailStart: Option<nat>) {
    match tailStart
    case None => policy == TailExact
    case Some(start) => policy != TailIgnored && start != length
  }

  predicate TooLong(limit: Option<nat>, messages: seq<Message>) {
    limit.Some? && |PrintedArray(messages)| > limit.value
  }

  /** Why a prefix is refused; the first of these reasons counts. */
  lemma RefusedBecause(cfg: MiddlewareConfig, stored: Prefix, ctx: Context, raw: Option<seq<Message>>)
    ensures Merged(cfg, stored, ctx, raw) ==
            if stored.epoch != ctx.epoch then Err(EpochMismatch(stored.epoch, ctx.epoch))
            else if Missing(cfg.fingerprintPolicy, stored.fingerprint, ctx) then Err(InvalidContext)
            else if cfg.fingerprintPolicy != FingerprintDisabled && !Compatible(stored.fingerprint, ctx) then
              Err(FingerprintMismatch)
            else if Misplaced(cfg.tailPolicy, |stored.messages|, ctx.tailStart) then
              Err(TailStartMismatch(|stored.messages|,
                                    if ctx.tailStart.Some? then ctx.tailStart.value else 0xFFFF_FFFF_FFFF_FFFF))
            else if raw.None? then Err(InvalidContext)
            else if TooLong(cfg.limits.maxTailBytes, raw.value) then
              Err(TailTooLarge(cfg.limits.maxTailBytes.value, |PrintedArray(raw.value)|))
            else if TooLong(cfg.limits.maxAssembledBytes, stored.messages + raw.value) then
              Err(AssembledTooLarge(cfg.limits.maxAssembledBytes.value, |PrintedArray(stored.messages + raw.value)|))
            else Ok(stored.messages + raw.value)
  {
    if raw.Some? {
      BytesArePrinted(raw.value);
      BytesArePrinted(stored.messages + raw.value);
    }
  }

  /** Without a live session nothing is assembled and the request stays as it is: it was not found, or has
      expired. */
  lemma MissTold(cfg: MiddlewareConfig, store: Config, m: Sessions, sk: string, ctx: Context,
                 raw: Option<seq<Message>>, now: int, touchNow: int)
    ensures var a := Assembled(cfg, store, m, sk, ctx, raw, now, touchNow);
            && (sk !in m ==> a == Assembly(m, Err(NotFound), raw))
            && (Lapses(store, m, sk, now) ==> a == Assembly(m - {sk}, Err(Expired), raw))
  {}

  /** In any run of the store, an assembly that succeeds sends exactly the messages of a prefix that
      was published at the client's epoch and is live, followed by the client's tail; and every
      live publish at that epoch published this very prefix. It succeeds exactly when the key is
      stored, has not lapsed when it is looked up, nor when it is touched if that is configured,
      and the prefix is acceptable. */
  lemma {:induction false} AssemblyUsesThePublishedPrefix(cfg: MiddlewareConfig, store: Config, ops: seq<Op>,
                                                          sk: string, ctx: Context, raw: Option<seq<Message>>,
                                                          now: int, touchNow: int) returns (i: nat)
    ensures var m := Run(store, map[], ops);
            var a := Assembled(cfg, store, m, sk, ctx, raw, now, touchNow);
            && (a.result.Ok? <==>
                  && sk in m && !Lapses(store, m, sk, now) && Acceptable(cfg, m[sk].prefix, ctx, raw)
                  && (cfg.touchOnDelta ==> !Lapses(store, Got(store, m, sk, now).0, sk, touchNow)))
            && (a.result.Ok? ==>
                  && LivePublish(store, ops, i, sk) && ops[i].prefix.epoch == ctx.epoch
                  && raw.Some? && a.raw == Some(ops[i].prefix.messages + raw.value))
    ensures Assembled(cfg, store, Run(store, map[], ops), sk, ctx, raw, now, touchNow).result.Ok? ==>
              forall j: nat :: LivePublish(store, ops, j, sk) && ops[j].prefix.epoch == ctx.epoch ==>
                                 Normalized(ops[j].prefix) == Normalized(ops[i].prefix)
  {
    var m := Run(store, map[], ops);
    i := 0;
    if sk in m {
      MergesIff(cfg, m[sk].prefix, ctx, raw);
      i := StoredWasPublished(store, ops, sk);
      forall j: nat | LivePublish(store, ops, j, sk)
        ensures Follows(Normalized(ops[j].prefix), m[sk].prefix)
      {
        StoredFollowsPublish(store, ops, j, sk);
      }
    }
  }
}
