/**
 * The earlier Smart Contract Hub: listings carry like and dislike counters,
 * every account may rate each listing -1, 0 or 1, and the creator may switch
 * a listing on and off.
 */
module RatingHub {
  import opened Primitives
  import opened InkEnv

  // === TYPES ===

  /** `AZSmartContractHubError` of this variant. */
  datatype RatingError = NotFound(entity: string) | OutOfRange(field: string) | Unauthorised | Unchanged(field: string)

  datatype SmartContract = SmartContract(
    id: U32,
    smartContractAddress: AccountId,
    url: string,
    environment: U8,
    likes: U16,
    dislikes: U16,
    caller: AccountId,
    enabled: bool)

  /** The contract's storage. */
  datatype RatingState = RatingState(
    smartContracts: map<U32, SmartContract>,
    smartContractsCount: U32,
    userRatings: map<(U32, AccountId), I8>)
  {
    /**
     * Ids are 0..count-1 and stored under themselves; ratings exist only for
     * listings and lie in -1..1; each listing's counters are the numbers of
     * accounts that rated it 1 and -1.
     */
    ghost predicate Valid() {
      && (forall id: U32 :: id in smartContracts <==> id < smartContractsCount)
      && (forall id :: id in smartContracts ==> smartContracts[id].id == id)
      && (forall k :: k in userRatings ==> k.0 in smartContracts && -1 <= userRatings[k] <= 1)
      && (forall id :: id in smartContracts ==> Tallied(userRatings, smartContracts[id]))
    }
  }

  datatype RatingStep<T> = RatingStep(result: Result<T, RatingError>, post: RatingState)

  // === RATINGS ===

  /** The (listing, account) keys holding rating `v` for listing `id`. */
  ghost function Raters(ratings: map<(U32, AccountId), I8>, id: U32, v: I8): (r: set<(U32, AccountId)>)
    ensures forall k :: k in r <==> k in ratings && k.0 == id && ratings[k] == v
  {
    set k | k in ratings && k.0 == id && ratings[k] == v
  }

  /** A listing's counters agree with the ratings. */
  ghost predicate Tallied(ratings: map<(U32, AccountId), I8>, sc: SmartContract) {
    sc.likes == |Raters(ratings, sc.id, 1)| && sc.dislikes == |Raters(ratings, sc.id, -1)|
  }

  /** `rate`'s previous rating: the stored one, 0 when there is none. */
  function PreviousRating(s: RatingState, id: U32, user: AccountId): (r: I8)
    ensures (id, user) in s.userRatings ==> r == s.userRatings[(id, user)]
    ensures (id, user) !in s.userRatings ==> r == 0
  {
    if (id, user) in s.userRatings then s.userRatings[(id, user)] else 0
  }

  /** 1 when `b` holds, else 0. */
  function Indicator(b: bool): int {
    if b then 1 else 0
  }

  /**
   * Changing one account's rating of listing `id` from `prev` (0 when absent)
   * to `v` changes the number of accounts rating it `w` by [v = w] - [prev = w].
   */
  lemma RatersAfterSet(ratings: map<(U32, AccountId), I8>, id: U32, user: AccountId, v: I8, w: I8)
    requires w != 0
    requires (if (id, user) in ratings then ratings[(id, user)] else 0) != v
    ensures var prev := if (id, user) in ratings then ratings[(id, user)] else 0;
      |Raters(ratings[(id, user) := v], id, w)| == |Raters(ratings, id, w)| + Indicator(v == w) - Indicator(prev == w)
  {
    var before, after := Raters(ratings, id, w), Raters(ratings[(id, user) := v], id, w);
    var k := (id, user);
    if v == w {
      assert after == before + {k};
    } else if k in ratings && ratings[k] == w {
      assert after == before - {k};
    } else {
      assert after == before;
    }
  }

  /** Ratings of one listing do not touch the tallies of another. */
  lemma RatersOfOtherListing(ratings: map<(U32, AccountId), I8>, id: U32, user: AccountId, v: I8, j: U32, w: I8)
    requires j != id
    ensures Raters(ratings[(id, user) := v], j, w) == Raters(ratings, j, w)
  {
  }

  /**
   * Ratings are keyed by (listing, account), so no account both likes and
   * dislikes a listing, and the two sets of raters together fit in the keys.
   */
  lemma RatersDisjoint(ratings: map<(U32, AccountId), I8>, id: U32)
    ensures Raters(ratings, id, 1) !! Raters(ratings, id, -1)
    ensures |Raters(ratings, id, 1)| + |Raters(ratings, id, -1)| <= |ratings.Keys|
  {
    var likers, dislikers, keys := Raters(ratings, id, 1), Raters(ratings, id, -1), ratings.Keys;
    var counted := likers + dislikers;
    assert |counted| == |likers| + |dislikers|;
    assert keys == counted + (keys - counted);
  }

  /**
   * One account, one vote: in a valid state a listing's likes and dislikes
   * together never exceed the stored ratings.
   */
  lemma OneAccountOneVote(s: RatingState, id: U32)
    requires s.Valid() && id in s.smartContracts
    ensures s.smartContracts[id].likes + s.smartContracts[id].dislikes <= |s.userRatings.Keys|
  {
    assert Tallied(s.userRatings, s.smartContracts[id]);
    RatersDisjoint(s.userRatings, s.smartContracts[id].id);
  }

  // === QUERIES ===

  /** `show`. */
  function Show(s: RatingState, id: U32): (r: Result<SmartContract, RatingError>)
    ensures r.Ok? <==> id in s.smartContracts
    ensures r.Ok? ==> r.value == s.smartContracts[id]
    ensures r.Err? ==> r.error == NotFound("SmartContract")
    ensures s.Valid() && r.Ok? ==> r.value.id == id && Tallied(s.userRatings, r.value)
  {
    if id in s.smartContracts then Ok(s.smartContracts[id]) else Err(NotFound("SmartContract"))
  }

  // === HANDLERS, AS FUNCTIONS OF THE STORAGE ===

  /**
   * `create`: the listing gets the next id, one like, no dislikes, and is
   * enabled; the creator's own rating of it is recorded as 1. The count is
   * incremented unchecked, so it must be below `u32::MAX`.
   */
  function CreateStep(s: RatingState, caller: AccountId, smartContractAddress: AccountId, url: string, environment: U8)
    : (o: RatingStep<SmartContract>)
    requires s.smartContractsCount < U32_MAX
    ensures o.result.Ok?
    ensures o.result.value == SmartContract(s.smartContractsCount, smartContractAddress, url, environment, 1, 0, caller, true)
    ensures o.post == RatingState(s.smartContracts[s.smartContractsCount := o.result.value], s.smartContractsCount + 1,
                                  s.userRatings[(s.smartContractsCount, caller) := 1])
  {
    var sc := SmartContract(s.smartContractsCount, smartContractAddress, url, environment, 1, 0, caller, true);
    RatingStep(Ok(sc), RatingState(s.smartContracts[sc.id := sc], s.smartContractsCount + 1,
                                   s.userRatings[(sc.id, caller) := 1]))
  }

  /**
   * The counters `rate` touches stay within `u16`: an increment needs room
   * below `u16::MAX` (the source traps otherwise), a decrement a positive
   * counter (which `Valid` guarantees, see `ValidRateNeverUnderflows`).
   */
  predicate RateFits(s: RatingState, caller: AccountId, id: U32, rating: I8) {
    id in s.smartContracts && -1 <= rating <= 1 && PreviousRating(s, id, caller) != rating ==>
      && (rating == 1 ==> s.smartContracts[id].likes < U16_MAX)
      && (rating == -1 ==> s.smartContracts[id].dislikes < U16_MAX)
      && (PreviousRating(s, id, caller) == 1 ==> s.smartContracts[id].likes > 0)
      && (PreviousRating(s, id, caller) == -1 ==> s.smartContracts[id].dislikes > 0)
  }

  /** `rate`'s increments only: what a caller must avoid for the call not to trap. */
  predicate RateIncrementFits(s: RatingState, caller: AccountId, id: U32, rating: I8) {
    id in s.smartContracts && -1 <= rating <= 1 && PreviousRating(s, id, caller) != rating ==>
      && (rating == 1 ==> s.smartContracts[id].likes < U16_MAX)
      && (rating == -1 ==> s.smartContracts[id].dislikes < U16_MAX)
  }

  /**
   * `rate`: unknown listing, then a rating outside -1..1, then the caller's
   * unchanged rating. On success the counters move by the transition table
   * and the caller's rating is stored.
   */
  function RateStep(s: RatingState, caller: AccountId, id: U32, rating: I8): (o: RatingStep<SmartContract>)
    requires RateFits(s, caller, id, rating)
    ensures o.result.Err? ==> o.post == s
    ensures id !in s.smartContracts ==> o.result == Err(NotFound("SmartContract"))
    ensures id in s.smartContracts && !(-1 <= rating <= 1) ==> o.result == Err(OutOfRange("Rating"))
    ensures (id in s.smartContracts && -1 <= rating <= 1 && PreviousRating(s, id, caller) == rating) ==>
      o.result == Err(Unchanged("Rating"))
    ensures o.result.Ok? <==> id in s.smartContracts && -1 <= rating <= 1 && PreviousRating(s, id, caller) != rating
    ensures o.result.Ok? ==>
      var sc, prev := s.smartContracts[id], PreviousRating(s, id, caller);
      && o.result.value.likes == sc.likes + Indicator(rating == 1) - Indicator(prev == 1)
      && o.result.value.dislikes == sc.dislikes + Indicator(rating == -1) - Indicator(prev == -1)
      && o.result.value == sc.(likes := o.result.value.likes, dislikes := o.result.value.dislikes)
      && o.post == s.(smartContracts := s.smartContracts[sc.id := o.result.value],
                      userRatings := s.userRatings[(id, caller) := rating])
  {
    if Show(s, id).Err? then RatingStep(Err(Show(s, id).error), s)
    else if !(-1 <= rating <= 1) then RatingStep(Err(OutOfRange("Rating")), s)
    else
      var sc, prev := Show(s, id).value, PreviousRating(s, id, caller);
      if prev == rating then RatingStep(Err(Unchanged("Rating")), s)
      else
        var rated :=
          if rating == -1 then
            (if prev == 1 then sc.(likes := sc.likes - 1) else sc).(dislikes := sc.dislikes + 1)
          else if rating == 0 then
            (if prev == 1 then sc.(likes := sc.likes - 1) else if prev == -1 then sc.(dislikes := sc.dislikes - 1) else sc)
          else
            (if prev == -1 then sc.(dislikes := sc.dislikes - 1) else sc).(likes := sc.likes + 1);
        RatingStep(Ok(rated), s.(smartContracts := s.smartContracts[sc.id := rated],
                                 userRatings := s.userRatings[(id, caller) := rating]))
  }

  /**
   * `toggle_enabled`: unknown listing, then a caller other than the
   * creator, then an unchanged value; otherwise only `enabled` changes.
   */
  function ToggleEnabledStep(s: RatingState, caller: AccountId, id: U32, enabled: bool): (o: RatingStep<SmartContract>)
    ensures o.result.Err? ==> o.post == s
    ensures id !in s.smartContracts ==> o.result == Err(NotFound("SmartContract"))
    ensures id in s.smartContracts && s.smartContracts[id].caller != caller ==> o.result == Err(Unauthorised)
    ensures (id in s.smartContracts && s.smartContracts[id].caller == caller && s.smartContracts[id].enabled == enabled) ==>
      o.result == Err(Unchanged("Enabled"))
    ensures o.result.Ok? <==>
      id in s.smartContracts && s.smartContracts[id].caller == caller && s.smartContracts[id].enabled != enabled
    ensures o.result.Ok? ==>
      && o.result.value == s.smartContracts[id].(enabled := enabled)
      && o.post == s.(smartContracts := s.smartContracts[s.smartContracts[id].id := o.result.value])
  {
    if Show(s, id).Err? then RatingStep(Err(Show(s, id).error), s)
    else if caller != Show(s, id).value.caller then RatingStep(Err(Unauthorised), s)
    else if Show(s, id).value.enabled == enabled then RatingStep(Err(Unchanged("Enabled")), s)
    else
      var sc := Show(s, id).value.(enabled := enabled);
      RatingStep(Ok(sc), s.(smartContracts := s.smartContracts[sc.id := sc]))
  }

  // === PROPERTIES ===

  /** In a valid state `rate`'s decrements never go below zero. */
  lemma ValidRateNeverUnderflows(s: RatingState, caller: AccountId, id: U32, rating: I8)
    requires s.Valid() && RateIncrementFits(s, caller, id, rating)
    ensures RateFits(s, caller, id, rating)
  {
    if id in s.smartContracts && (id, caller) in s.userRatings {
      var v := s.userRatings[(id, caller)];
      if v == 1 || v == -1 {
        assert (id, caller) in Raters(s.userRatings, id, v);
      }
    }
  }

  /** `create` keeps the storage valid: the new listing's one like is its creator's. */
  lemma CreateKeepsValid(s: RatingState, caller: AccountId, smartContractAddress: AccountId, url: string, environment: U8)
    requires s.Valid() && s.smartContractsCount < U32_MAX
    ensures CreateStep(s, caller, smartContractAddress, url, environment).post.Valid()
  {
    var o := CreateStep(s, caller, smartContractAddress, url, environment);
    var n, t := s.smartContractsCount, o.post;
    assert Raters(t.userRatings, n, 1) == {(n, caller)};
    assert Raters(t.userRatings, n, -1) == {};
    forall id | id in t.smartContracts ensures Tallied(t.userRatings, t.smartContracts[id]) {
      if id != n {
        RatersOfOtherListing(s.userRatings, n, caller, 1, id, 1);
        RatersOfOtherListing(s.userRatings, n, caller, 1, id, -1);
      }
    }
  }

  /** `rate` keeps the storage valid: the counters still count the ratings. */
  lemma RateKeepsValid(s: RatingState, caller: AccountId, id: U32, rating: I8)
    requires s.Valid() && RateFits(s, caller, id, rating)
    ensures RateStep(s, caller, id, rating).post.Valid()
  {
    var o := RateStep(s, caller, id, rating);
    if o.result.Ok? {
      var t := o.post;
      RatersAfterSet(s.userRatings, id, caller, rating, 1);
      RatersAfterSet(s.userRatings, id, caller, rating, -1);
      assert Tallied(t.userRatings, o.result.value);
      forall j | j in t.smartContracts && j != id ensures Tallied(t.userRatings, t.smartContracts[j]) {
        RatersOfOtherListing(s.userRatings, id, caller, rating, j, 1);
        RatersOfOtherListing(s.userRatings, id, caller, rating, j, -1);
      }
    }
  }

  /** `toggle_enabled` keeps the storage valid. */
  lemma ToggleEnabledKeepsValid(s: RatingState, caller: AccountId, id: U32, enabled: bool)
    requires s.Valid()
    ensures ToggleEnabledStep(s, caller, id, enabled).post.Valid()
  {
    var o := ToggleEnabledStep(s, caller, id, enabled);
    if o.result.Ok? {
      forall j | j in o.post.smartContracts ensures Tallied(o.post.userRatings, o.post.smartContracts[j]) {
        assert j == id || o.post.smartContracts[j] == s.smartContracts[j];
      }
    }
  }

  /** Rating and then withdrawing the rating (0) restores both counters. */
  lemma RateThenWithdraw(s: RatingState, caller: AccountId, id: U32, rating: I8)
    requires s.Valid() && RateFits(s, caller, id, rating)
    requires id in s.smartContracts && (rating == 1 || rating == -1) && PreviousRating(s, id, caller) == 0
    ensures var s1 := RateStep(s, caller, id, rating).post;
      && RateFits(s1, caller, id, 0)
      && RateStep(s1, caller, id, 0).result == Ok(s.smartContracts[id])
  {
    RateKeepsValid(s, caller, id, rating);
  }

  // === THE CONTRACT ===

  class AZSmartContractHub {
    var smartContracts: map<U32, SmartContract>
    var smartContractsCount: U32
    var userRatings: map<(U32, AccountId), I8>

    function State(): RatingState
      reads this
    {
      RatingState(smartContracts, smartContractsCount, userRatings)
    }

    /** `new`: no listings, no ratings. */
    constructor ()
      ensures State() == RatingState(map[], 0, map[])
      ensures State().Valid()
    {
      smartContracts, smartContractsCount, userRatings := map[], 0, map[];
    }

    method Create(caller: AccountId, smartContractAddress: AccountId, url: string, environment: U8)
      returns (r: Result<SmartContract, RatingError>)
      requires smartContractsCount < U32_MAX
      modifies this
      ensures RatingStep(r, State()) == CreateStep(old(State()), caller, smartContractAddress, url, environment)
    {
      var smartContract := SmartContract(smartContractsCount, smartContractAddress, url, environment, 1, 0, caller, true);
      smartContracts := smartContracts[smartContractsCount := smartContract];
      smartContractsCount := smartContractsCount + 1;
      userRatings := userRatings[(smartContract.id, caller) := 1];
      r := Ok(smartContract);
    }

    method Rate(caller: AccountId, id: U32, newUserRating: I8) returns (r: Result<SmartContract, RatingError>)
      requires RateFits(State(), caller, id, newUserRating)
      modifies this
      ensures RatingStep(r, State()) == RateStep(old(State()), caller, id, newUserRating)
    {
      var found := Show(State(), id);
      if found.Err? {
        return Err(found.error);
      }
      var smartContract := found.value;
      if !(-1 <= newUserRating <= 1) {
        return Err(OutOfRange("Rating"));
      }
      var previousUserRating := if (id, caller) in userRatings then userRatings[(id, caller)] else 0;
      if previousUserRating == newUserRating {
        return Err(Unchanged("Rating"));
      }
      if newUserRating == -1 {
        if previousUserRating == 1 {
          smartContract := smartContract.(likes := smartContract.likes - 1);
        }
        smartContract := smartContract.(dislikes := smartContract.dislikes + 1);
      } else if newUserRating == 0 {
        if previousUserRating == 1 {
          smartContract := smartContract.(likes := smartContract.likes - 1);
        } else if previousUserRating == -1 {
          smartContract := smartContract.(dislikes := smartContract.dislikes - 1);
        }
      } else {
        if previousUserRating == -1 {
          smartContract := smartContract.(dislikes := smartContract.dislikes - 1);
        }
        smartContract := smartContract.(likes := smartContract.likes + 1);
      }
      smartContracts := smartContracts[smartContract.id := smartContract];
      userRatings := userRatings[(id, caller) := newUserRating];
      r := Ok(smartContract);
    }

    method ToggleEnabled(caller: AccountId, id: U32, enabled: bool) returns (r: Result<SmartContract, RatingError>)
      modifies this
      ensures RatingStep(r, State()) == ToggleEnabledStep(old(State()), caller, id, enabled)
    {
      var found := Show(State(), id);
      if found.Err? {
        return Err(found.error);
      }
      var smartContract := found.value;
      if caller != smartContract.caller {
        return Err(Unauthorised);
      }
      if smartContract.enabled == enabled {
        return Err(Unchanged("Enabled"));
      }
      smartContract := smartContract.(enabled := enabled);
      smartContracts := smartContracts[smartContract.id := smartContract];
      r := Ok(smartContract);
    }
  }
}
