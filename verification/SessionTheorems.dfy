/** Whole runs of the session store, and what delta assembly builds on
    (unigateway-session/src/store.rs:417-572, middleware.rs:137-330). */
module SessionTheorems {
  import opened Common
  import opened SessionStore

  // ----- runs -----

  /** Operations on a storage key, with the time they read. */
  datatype Op =
    | Publish(sk: string, prefix: Prefix, now: int)
    | Get(sk: string, now: int)
    | Delete(sk: string)
    | Touch(sk: string, now: int)
    | Purge(now: int)

  function Step(cfg: Config, m: Sessions, op: Op): Sessions {
    match op
    case Publish(sk, prefix, now) => Published(cfg, m, sk, prefix, now).0
    case Get(sk, now) => Got(cfg, m, sk, now).0
    case Delete(sk) => m - {sk}
    case Touch(sk, now) => Touched(cfg, m, sk, now).0
    case Purge(now) => Purged(cfg, m, now)
  }

  function Run(cfg: Config, m: Sessions, ops: seq<Op>): Sessions
    decreases |ops|
  {
    if ops == [] then m else Step(cfg, Run(cfg, m, ops[..|ops| - 1]), ops[|ops| - 1])
  }

  /** The operation drops what is stored under `sk`, be it to store something new. */
  predicate Removes(cfg: Config, m: Sessions, op: Op, sk: string) {
    sk in m &&
    match op
    case Publish(k, prefix, now) =>
      k == sk && ValidatePrefix(cfg.limits, Normalized(prefix).messages).None? && Lapses(cfg, m, sk, now)
    case Get(k, now) => k == sk && Lapses(cfg, m, sk, now)
    case Delete(k) => k == sk
    case Touch(k, now) => k == sk && Lapses(cfg, m, sk, now)
    case Purge(now) => Lapses(cfg, m, sk, now)
  }

  predicate Keeps(cfg: Config, m: Sessions, ops: seq<Op>, sk: string)
    decreases |ops|
  {
    ops == [] ||
    var front := ops[..|ops| - 1];
    Keeps(cfg, m, front, sk) && !Removes(cfg, Run(cfg, m, front), ops[|ops| - 1], sk)
  }

  /** `later` is the prefix or a newer one; at the same epoch it is the same. */
  predicate Follows(earlier: Prefix, later: Prefix) {
    earlier.epoch <= later.epoch && (earlier.epoch == later.epoch ==> earlier == later)
  }

  lemma StepFollows(cfg: Config, m: Sessions, op: Op, sk: string)
    requires sk in m && !Removes(cfg, m, op, sk)
    ensures sk in Step(cfg, m, op) && Follows(m[sk].prefix, Step(cfg, m, op)[sk].prefix)
  {}

  /** As long as a key is not removed its epoch never falls and its prefix at an epoch never changes,
      whatever is published, read, touched or purged, and even if the clock goes back. */
  lemma {:induction false} EpochsOnlyRise(cfg: Config, m: Sessions, ops: seq<Op>, sk: string)
    requires sk in m && Keeps(cfg, m, ops, sk)
    ensures sk in Run(cfg, m, ops) && Follows(m[sk].prefix, Run(cfg, m, ops)[sk].prefix)
    decreases |ops|
  {
    if ops != [] {
      var front := ops[..|ops| - 1];
      EpochsOnlyRise(cfg, m, front, sk);
      StepFollows(cfg, Run(cfg, m, front), ops[|ops| - 1], sk);
    }
  }

  lemma {:induction false} RunConcat(cfg: Config, m: Sessions, a: seq<Op>, b: seq<Op>)
    ensures Run(cfg, m, a + b) == Run(cfg, Run(cfg, m, a), b)
    decreases |b|
  {
    if b == [] {
      assert a + b == a;
    } else {
      RunConcat(cfg, m, a, b[..|b| - 1]);
      assert (a + b)[..|a + b| - 1] == a + b[..|b| - 1];
    }
  }

  /** In a run on an empty store, operation `i` published under `sk` with success, and nothing
      removed the key since. */
  ghost predicate LivePublish(cfg: Config, ops: seq<Op>, i: nat, sk: string) {
    && i < |ops| && ops[i].Publish? && ops[i].sk == sk
    && Published(cfg, Run(cfg, map[], ops[..i]), sk, ops[i].prefix, ops[i].now).1.Ok?
    && Keeps(cfg, Run(cfg, map[], ops[..i + 1]), ops[i + 1..], sk)
  }

  lemma PublishStores(cfg: Config, m: Sessions, sk: string, prefix: Prefix, now: int)
    requires Published(cfg, m, sk, prefix, now).1.Ok?
    ensures sk in Published(cfg, m, sk, prefix, now).0
    ensures Published(cfg, m, sk, prefix, now).0[sk].prefix == Normalized(prefix)
  {}

  /** What is stored follows every live publish; at the epoch of one it is that very prefix. */
  lemma {:induction false} StoredFollowsPublish(cfg: Config, ops: seq<Op>, i: nat, sk: string)
    requires LivePublish(cfg, ops, i, sk)
    ensures var end := Run(cfg, map[], ops);
            sk in end && Follows(Normalized(ops[i].prefix), end[sk].prefix)
  {
    var before := Run(cfg, map[], ops[..i]);
    PublishStores(cfg, before, sk, ops[i].prefix, ops[i].now);
    assert ops[..i + 1][..i] == ops[..i];
    EpochsOnlyRise(cfg, Run(cfg, map[], ops[..i + 1]), ops[i + 1..], sk);
    RunConcat(cfg, map[], ops[..i + 1], ops[i + 1..]);
    assert ops == ops[..i + 1] + ops[i + 1..];
  }

  lemma KeepsOneMore(cfg: Config, ops: seq<Op>, op: Op, i: nat, sk: string)
    requires LivePublish(cfg, ops, i, sk)
    requires !Removes(cfg, Run(cfg, map[], ops), op, sk)
    ensures LivePublish(cfg, ops + [op], i, sk)
  {
    var more := ops + [op];
    assert more[..i + 1] == ops[..i + 1] && more[..i] == ops[..i] && more[i] == ops[i];
    assert more[i + 1..] == ops[i + 1..] + [op];
    assert ops == ops[..i + 1] + ops[i + 1..];
    RunConcat(cfg, map[], ops[..i + 1], ops[i + 1..]);
    KeepsAppend(cfg, Run(cfg, map[], ops[..i + 1]), ops[i + 1..], op, sk);
  }

  lemma KeepsAppend(cfg: Config, m: Sessions, ops: seq<Op>, op: Op, sk: string)
    requires Keeps(cfg, m, ops, sk) && !Removes(cfg, Run(cfg, m, ops), op, sk)
    ensures Keeps(cfg, m, ops + [op], sk)
  {
    assert (ops + [op])[..|ops|] == ops;
  }

  /** Whatever is stored was stored by a live publish. */
  lemma {:induction false} StoredWasPublished(cfg: Config, ops: seq<Op>, sk: string) returns (i: nat)
    requires sk in Run(cfg, map[], ops)
    ensures LivePublish(cfg, ops, i, sk) && Normalized(ops[i].prefix) == Run(cfg, map[], ops)[sk].prefix
    decreases |ops|
  {
    var n := |ops| - 1;
    var front, op := ops[..n], ops[n];
    var before := Run(cfg, map[], front);
    assert ops == front + [op];
    if op.Publish? && op.sk == sk && Published(cfg, before, sk, op.prefix, op.now).1.Ok? {
      i := n;
      PublishStores(cfg, before, sk, op.prefix, op.now);
      assert ops[n + 1..] == [];
    } else {
      KeptOtherwise(cfg, before, op, sk);
      i := StoredWasPublished(cfg, front, sk);
      KeepsOneMore(cfg, front, op, i, sk);
    }
  }

  lemma KeptOtherwise(cfg: Config, m: Sessions, op: Op, sk: string)
    requires sk in Step(cfg, m, op)
    requires !(op.Publish? && op.sk == sk && Published(cfg, m, sk, op.prefix, op.now).1.Ok?)
    ensures sk in m && !Removes(cfg, m, op, sk) && Step(cfg, m, op)[sk].prefix == m[sk].prefix
  {}

  // ----- every answer -----

  /** What publishing answers: the size limits come first, then it depends on the live session's epoch. */
  lemma PublishTold(cfg: Config, m: Sessions, sk: string, given: Prefix, now: int)
    ensures var (m2, r) := Published(cfg, m, sk, given, now);
            var limit := ValidatePrefix(cfg.limits, given.messages);
            var live := sk in m && !IsExpired(m[sk], cfg.lifetime, now);
            if limit.Some? then r == Err(limit.value) && m2 == m
            else if !live then r == Ok(Created) && m2 == m[sk := Stored(Normalized(given), now, now)]
            else
              var old_ := m[sk].prefix;
              if given.epoch > old_.epoch then
                r == Ok(Replaced) && m2 == m[sk := Stored(Normalized(given), now, now)]
              else if given.epoch < old_.epoch then r == Err(StaleEpoch(old_.epoch, given.epoch)) && m2 == m
              else if Normalized(given) == old_ then
                r == Ok(AlreadyCurrent) && m2 == m[sk := m[sk].(lastAccessedAt := now)]
              else r == Err(EpochConflict(given.epoch)) && m2 == m
  {
    if Lapses(cfg, m, sk, now) {
      assert (m - {sk})[sk := Stored(Normalized(given), now, now)] == m[sk := Stored(Normalized(given), now, now)];
    }
  }

  /** What reading and touching answer: expired, and the session is gone; or that there is none; or the
      prefix, and the session counts as accessed, for reading if reads are set to count. */
  lemma ReadTold(cfg: Config, m: Sessions, sk: string, now: int)
    ensures var (got, g), (touched, t) := Got(cfg, m, sk, now), Touched(cfg, m, sk, now);
            if sk !in m then g == Ok(None) && t == Err(NotFound) && got == m && touched == m
            else if IsExpired(m[sk], cfg.lifetime, now) then
              g == Err(Expired) && t == Err(Expired) && got == touched == m - {sk}
            else
              && g == Ok(Some(m[sk].prefix)) && t == Ok(())
              && touched == m[sk := Stored(m[sk].prefix, m[sk].createdAt, now)]
              && got == if cfg.lifetime.touchOnRead then touched else m
  {}
}
