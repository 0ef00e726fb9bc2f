/**
 * The admission policy for button presses: owner lock, then ban list, then a
 * per-user rate limit over the table of last accepted input times. Time is
 * integer milliseconds.
 */
module InputGate {
  import opened Entities
  import opened Configuration

  /** Minimum time between two accepted inputs of one user (1.5 seconds). */
  const UserInputRateLimitMs: int := 1500

  /** Entries of the last-input table are dropped this long after they were written (10 seconds). */
  const InputCacheExpiryMs: int := 10000

  datatype UserInputResult = Accepted | RateLimited | BlockedNonOwner | UserBanned

  /** Last accepted input time per user. */
  type InputCache = map<Snowflake, int>

  /** The first two checks: the owner lock and the ban list. */
  predicate PassesPolicy(lockedToOwners: bool, config: Config, user: Snowflake)
  {
    && !(lockedToOwners && user !in config.owners)
    && user !in config.bannedUsers
  }

  /**
   * The verdict on a press by `user` at time `now`. A user without an entry
   * counts as exactly one window since the last input, so is never rate limited.
   */
  function Admission(lockedToOwners: bool, config: Config, cache: InputCache, user: Snowflake, now: int)
    : (r: UserInputResult)
    // The lock is checked first: a non-owner is blocked whatever the ban list and the table say.
    ensures lockedToOwners && user !in config.owners ==> r == BlockedNonOwner
    ensures r == BlockedNonOwner ==> lockedToOwners && user !in config.owners
    // A banned user gets past the lock only to be rejected before any rate check.
    ensures r == UserBanned <==> !(lockedToOwners && user !in config.owners) && user in config.bannedUsers
    // The rate check: the first input is always let through, a later one iff a full window has passed.
    ensures user !in cache ==> (r == Accepted <==> PassesPolicy(lockedToOwners, config, user))
    ensures user in cache ==>
      (r == Accepted <==> PassesPolicy(lockedToOwners, config, user) && now - cache[user] >= UserInputRateLimitMs)
    ensures r == RateLimited ==> user in cache && now - cache[user] < UserInputRateLimitMs
  {
    if lockedToOwners && user !in config.owners then BlockedNonOwner
    else if user in config.bannedUsers then UserBanned
    else
      var timeSinceLastInput := if user in cache then now - cache[user] else UserInputRateLimitMs;
      if timeSinceLastInput >= UserInputRateLimitMs then Accepted else RateLimited
  }

  /** The table after a verdict: only an accepted input records its time. */
  function RecordInput(cache: InputCache, r: UserInputResult, user: Snowflake, now: int): InputCache
  {
    if r == Accepted then cache[user := now] else cache
  }

  // ---------------------------------------------------------------------------
  // A sequence of presses, each judged against the table the earlier ones left.
  // Each press carries the lock flag and configuration in force when it was
  // judged, so owners may lock, ban or add owners between any two presses.

  datatype TimedInput = TimedInput(input: UserInput, at: int, lockedToOwners: bool, config: Config)

  /** The verdict on one press against the table `cache`. */
  function Judge(cache: InputCache, press: TimedInput): UserInputResult
  {
    Admission(press.lockedToOwners, press.config, cache, press.input.user, press.at)
  }

  /** The table after all of `inputs` have been judged, in order. */
  function CacheAfter(cache: InputCache, inputs: seq<TimedInput>): InputCache
    decreases |inputs|
  {
    if inputs == [] then cache
    else
      var before := CacheAfter(cache, inputs[..|inputs| - 1]);
      var last := inputs[|inputs| - 1];
      RecordInput(before, Judge(before, last), last.input.user, last.at)
  }

  /** The verdict on the `k`-th press of the sequence. */
  function VerdictAt(cache: InputCache, inputs: seq<TimedInput>, k: nat): UserInputResult
    requires k < |inputs|
  {
    Judge(CacheAfter(cache, inputs[..k]), inputs[k])
  }

  /** Once press `i` is accepted, its user's entry is never older than press `i` again. */
  lemma {:induction false} AcceptedEntryPersists(cache: InputCache, inputs: seq<TimedInput>, i: nat, k: nat)
    requires i < k <= |inputs|
    requires VerdictAt(cache, inputs, i) == Accepted
    ensures inputs[i].input.user in CacheAfter(cache, inputs[..k])
    ensures CacheAfter(cache, inputs[..k])[inputs[i].input.user] >= inputs[i].at
  {
    var u := inputs[i].input.user;
    assert inputs[..k][..k - 1] == inputs[..k - 1];
    var before := CacheAfter(cache, inputs[..k - 1]);
    var last := inputs[..k][k - 1];
    if k - 1 == i {
      assert last == inputs[i];
    } else {
      AcceptedEntryPersists(cache, inputs, i, k - 1);
      var r := Judge(before, last);
      if r == Accepted && last.input.user == u {
        assert last == inputs[k - 1];
        assert r == VerdictAt(cache, inputs, k - 1);
      }
    }
  }

  /**
   * Two accepted presses of the same user are at least one window apart, in
   * any order of the presses of all users and whatever lock and ban changes
   * come between them, as long as presses are judged one at a time and no
   * entry is evicted.
   */
  lemma AcceptedInputsAreSpaced(cache: InputCache, inputs: seq<TimedInput>, i: nat, j: nat)
    requires i < j < |inputs|
    requires inputs[i].input.user == inputs[j].input.user
    requires VerdictAt(cache, inputs, i) == Accepted
    requires VerdictAt(cache, inputs, j) == Accepted
    ensures inputs[j].at - inputs[i].at >= UserInputRateLimitMs
  {
    AcceptedEntryPersists(cache, inputs, i, j);
  }

  /** The walk-through of a single user: pressed at 0 s, again at 1.0 s and at 1.6 s. */
  lemma RateLimitScenario(config: Config, user: Snowflake, b0: Button, b1: Button, b2: Button)
    requires user !in config.bannedUsers
    ensures var inputs := [TimedInput(UserInput(user, b0), 0, false, config),
                           TimedInput(UserInput(user, b1), 1000, false, config),
                           TimedInput(UserInput(user, b2), 1600, false, config)];
            && VerdictAt(map[], inputs, 0) == Accepted
            && VerdictAt(map[], inputs, 1) == RateLimited
            && VerdictAt(map[], inputs, 2) == Accepted
  {
    var inputs := [TimedInput(UserInput(user, b0), 0, false, config),
                   TimedInput(UserInput(user, b1), 1000, false, config),
                   TimedInput(UserInput(user, b2), 1600, false, config)];
    assert inputs[..1][..0] == [];
    assert inputs[..2][..1] == inputs[..1];
    assert CacheAfter(map[], inputs[..1]) == map[user := 0];
    assert CacheAfter(map[], inputs[..2]) == map[user := 0];
  }

  // ---------------------------------------------------------------------------
  // Eviction from the last-input table.

  /** The table after every entry written at least the expiry time ago has been dropped. */
  function Expired(cache: InputCache, now: int): (r: InputCache)
    ensures r.Keys <= cache.Keys
    ensures forall u :: u in r ==> r[u] == cache[u] && now - cache[u] < InputCacheExpiryMs
    ensures forall u :: u in cache && now - cache[u] < InputCacheExpiryMs ==> u in r
  {
    map u | u in cache && now - cache[u] < InputCacheExpiryMs :: cache[u]
  }

  /** Expiry is invisible to admission: an expired entry is older than the rate-limit window anyway. */
  lemma ExpiryNeverChangesVerdict(lockedToOwners: bool, config: Config, cache: InputCache, user: Snowflake, now: int)
    ensures Admission(lockedToOwners, config, Expired(cache, now), user, now)
         == Admission(lockedToOwners, config, cache, user, now)
  {
  }

  /**
   * Dropping any entries (size-bounded eviction) can only let more input
   * through: a press accepted with the full table is accepted with less of it.
   */
  lemma EvictionOnlyRelaxes(
    lockedToOwners: bool, config: Config, cache: InputCache, evicted: set<Snowflake>, user: Snowflake, now: int)
    requires Admission(lockedToOwners, config, cache, user, now) == Accepted
    ensures Admission(lockedToOwners, config, cache - evicted, user, now) == Accepted
  {
  }
}
