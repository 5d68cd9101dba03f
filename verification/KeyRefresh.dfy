/** The token validator's signing keys: explicit refreshes under one mutex, limited for unknown keys. */
module KeyRefresh {
  import opened Option

  type Time = int  // nanoseconds of the monotone clock

  const REFRESH_GAP: Time := 10_000_000_000

  /** A key set as the validator asks it: how many keys, and which key IDs can be looked up. */
  datatype KeySet = KeySet(size: nat, ids: set<string>)

  /** The outcome of asking the issuer. */
  datatype Outcome = Fetched(keys: KeySet) | Failed

  /** One explicit refresh: when it started, whether an unknown key caused it, and what it brought.
      An empty key set counts as a failure. */
  datatype Fetch = Fetch(start: Time, unknownKey: bool, outcome: Outcome)

  /** Starts never go back, and a fetch for an unknown key starts a full gap after the fetch before it. */
  ghost predicate Spaced(fetches: seq<Fetch>) {
    forall k :: 0 < k < |fetches| ==>
      fetches[k - 1].start + (if fetches[k].unknownKey then REFRESH_GAP else 0) <= fetches[k].start
  }

  /** Nothing that counts as fetched is empty. */
  ghost predicate NoneEmpty(fetches: seq<Fetch>) {
    forall k :: 0 <= k < |fetches| && fetches[k].outcome.Fetched? ==> fetches[k].outcome.keys.size > 0
  }

  lemma SpacedExtends(fetches: seq<Fetch>, next: Fetch)
    requires Spaced(fetches) && NoneEmpty(fetches)
    requires next.outcome.Fetched? ==> next.outcome.keys.size > 0
    requires fetches != [] ==>
               fetches[|fetches| - 1].start + (if next.unknownKey then REFRESH_GAP else 0) <= next.start
    ensures Spaced(fetches + [next]) && NoneEmpty(fetches + [next])
  {
    var longer := fetches + [next];
    forall k | 0 < k < |longer|
      ensures longer[k - 1].start + (if longer[k].unknownKey then REFRESH_GAP else 0) <= longer[k].start
    {
      if k < |fetches| {
        assert longer[k - 1] == fetches[k - 1] && longer[k] == fetches[k];
      }
    }
  }

  /** Fetches for unknown keys that start between from and to. */
  function CountWithin(fetches: seq<Fetch>, from: Time, to: Time): nat {
    if fetches == [] then 0
    else
      var last := fetches[|fetches| - 1];
      CountWithin(fetches[..|fetches| - 1], from, to) + (if last.unknownKey && from <= last.start <= to then 1 else 0)
  }

  lemma {:induction false} SpacedPrefix(fetches: seq<Fetch>)
    requires Spaced(fetches) && fetches != []
    ensures Spaced(fetches[..|fetches| - 1])
    ensures forall k :: 0 <= k < |fetches| - 1 ==> fetches[k].start <= fetches[|fetches| - 1].start
    decreases |fetches|
  {
    var init := fetches[..|fetches| - 1];
    if init != [] {
      forall k | 0 < k < |init|
        ensures init[k - 1].start + (if init[k].unknownKey then REFRESH_GAP else 0) <= init[k].start
      {
        assert init[k - 1] == fetches[k - 1] && init[k] == fetches[k];
      }
      SpacedPrefix(init);
      assert init[|init| - 1] == fetches[|fetches| - 2];
      forall k | 0 <= k < |fetches| - 1 ensures fetches[k].start <= fetches[|fetches| - 1].start {
        assert init[k] == fetches[k];
      }
    }
  }

  lemma {:induction false} CountEarlier(fetches: seq<Fetch>, from: Time, to: Time, bound: Time)
    requires forall k :: 0 <= k < |fetches| ==> fetches[k].start <= bound
    requires bound <= to
    ensures CountWithin(fetches, from, to) == CountWithin(fetches, from, bound)
    ensures bound < from ==> CountWithin(fetches, from, bound) == 0
    decreases |fetches|
  {
    if fetches != [] {
      CountEarlier(fetches[..|fetches| - 1], from, to, bound);
    }
  }

  /** A window of length T holds at most floor(T / gap) + 1 fetches caused by unknown keys. */
  lemma {:induction false} FetchesAreRare(fetches: seq<Fetch>, from: Time, to: Time)
    requires Spaced(fetches) && from <= to
    ensures CountWithin(fetches, from, to) <= (to - from) / REFRESH_GAP + 1
    decreases |fetches|
  {
    if fetches != [] {
      var n := |fetches| - 1;
      var init, last := fetches[..n], fetches[n];
      SpacedPrefix(fetches);
      if last.unknownKey && from <= last.start <= to && n > 0 {
        var bound := last.start - REFRESH_GAP;
        SpacedPrefix(init);
        assert init[n - 1] == fetches[n - 1];
        forall k | 0 <= k < n ensures init[k].start <= bound {
          assert fetches[k] == init[k];
        }
        CountEarlier(init, from, to, bound);
        if from <= bound {
          FetchesAreRare(init, from, bound);
          assert (bound - from) / REFRESH_GAP + 1 == (last.start - from) / REFRESH_GAP;
        }
        assert (last.start - from) / REFRESH_GAP <= (to - from) / REFRESH_GAP;
      } else {
        FetchesAreRare(init, from, to);
      }
    }
  }

  /** What the key cache was asked, and what it brought. */
  datatype Query = Looked(outcome: Outcome) | Refreshed(outcome: Outcome)

  /** The clock and the key cache in front of the issuer: callers rely on the contracts alone. */
  class Issuer {
    var now: Time
    ghost var asked: seq<Query>

    constructor ()
      ensures asked == []
    {
      now, asked := 0, [];
    }

    /** time.Now, monotone. */
    method Now() returns (t: Time)
      modifies this`now
      ensures old(now) <= t == now
    {
      t := now;
    }

    /** cache.Refresh. */
    method Refresh() returns (outcome: Outcome)
      modifies this
      ensures old(now) <= now && asked == old(asked) + [Refreshed(outcome)]
    {
      outcome := Failed;
      asked := asked + [Refreshed(outcome)];
    }

    /** cache.Lookup. */
    method Lookup() returns (outcome: Outcome)
      modifies this
      ensures old(now) <= now && asked == old(asked) + [Looked(outcome)]
    {
      outcome := Failed;
      asked := asked + [Looked(outcome)];
    }
  }

  /** What signature and claim checks can find wrong. */
  datatype Flaw = Expired | NotYetValid | WrongIssuer | WrongAudience | Signature | Claims | Invalid

  /** A compact token after parsing; judge is the outcome of signature and claim checks under a key set. */
  datatype Token =
    | Unparsable
    | Parsed(algorithmAllowed: bool, keyID: string, judge: KeySet -> Option<Flaw>)

  datatype Verdict = Accepted | Malformed | Algorithm | UnknownKey | Flawed(flaw: Flaw) | Unavailable

  class Validator {
    const issuer: Issuer
    var lastRefresh: Option<Time>      // None is the zero time
    var lastRefreshFailed: bool
    var lastKeys: Option<KeySet>
    ghost var fetches: seq<Fetch>      // every explicit refresh, in order

    /** The fields are the outcome of the latest explicit refresh: a key set is there whenever no error is. */
    ghost predicate Valid()
      reads this, issuer
    {
      && Spaced(fetches) && NoneEmpty(fetches)
      && (lastRefresh == None <==> fetches == [])
      && (fetches != [] ==>
            var last := fetches[|fetches| - 1];
            && lastRefresh == Some(last.start) && last.start <= issuer.now
            && (lastRefreshFailed <==> last.outcome == Failed)
            && (last.outcome.Fetched? ==> lastKeys == Some(last.outcome.keys)))
    }

    constructor (issuer: Issuer)
      ensures Valid() && fetches == [] && this.issuer == issuer
    {
      this.issuer := issuer;
      lastRefresh, lastRefreshFailed, lastKeys, fetches := None, false, None, [];
    }

    /** Whole critical sections of other callers, and time. */
    method Interference()
      requires Valid()
      modifies this, issuer
      ensures Valid() && old(fetches) <= fetches && old(issuer.now) <= issuer.now
      ensures old(issuer.asked) <= issuer.asked
    {
    }

    /** refreshLocked, with the mutex held. */
    method RefreshLocked(ghost unknownKey: bool) returns (outcome: Outcome)
      requires Valid()
      requires unknownKey ==> fetches == [] || fetches[|fetches| - 1].start + REFRESH_GAP <= issuer.now
      modifies this, issuer
      ensures Valid() && old(issuer.now) <= issuer.now
      ensures |fetches| == |old(fetches)| + 1 && fetches[..|old(fetches)|] == old(fetches)
      ensures fetches[|old(fetches)|] == Fetch(fetches[|old(fetches)|].start, unknownKey, outcome)
      ensures old(issuer.now) <= fetches[|old(fetches)|].start
      ensures |issuer.asked| == |old(issuer.asked)| + 1 && old(issuer.asked) <= issuer.asked
      ensures var query := issuer.asked[|old(issuer.asked)|]; query.Refreshed? && Brings(query.outcome, outcome)
    {
      var start := issuer.Now();
      lastRefresh := Some(start);
      outcome := issuer.Refresh();
      if outcome.Fetched? && outcome.keys.size == 0 {
        outcome := Failed;
      }
      lastRefreshFailed := outcome == Failed;
      if outcome.Fetched? {
        lastKeys := Some(outcome.keys);
      }
      SpacedExtends(fetches, Fetch(start, unknownKey, outcome));
      fetches := fetches + [Fetch(start, unknownKey, outcome)];
    }

    /** refreshForUnknownKey: within the gap every caller gets the outcome of the latest refresh, outside it
        fetches anew. checked is the time of the gap check. */
    method RefreshForUnknownKey() returns (outcome: Outcome, ghost checked: Time)
      requires Valid()
      modifies this, issuer
      ensures Valid() && old(issuer.now) <= checked <= issuer.now && old(fetches) <= fetches
      ensures fetches != [] && outcome == fetches[|fetches| - 1].outcome
      ensures var last := fetches[|fetches| - 1];
              if InGap(old(fetches), checked) then fetches == old(fetches)
              else |fetches| == |old(fetches)| + 1 && last.unknownKey && checked <= last.start
      ensures if InGap(old(fetches), checked) then issuer.asked == old(issuer.asked)
              else
                && |issuer.asked| == |old(issuer.asked)| + 1 && old(issuer.asked) <= issuer.asked
                && var query := issuer.asked[|old(issuer.asked)|];
                   query.Refreshed? && Brings(query.outcome, outcome)
    {
      checked := issuer.now;
      if lastRefresh.Some? {
        var t := issuer.Now();
        checked := t;
        if t - lastRefresh.value < REFRESH_GAP {
          if lastRefreshFailed {
            return Failed, checked;
          }
          return Fetched(lastKeys.value), checked;
        }
      }
      outcome := RefreshLocked(true);
    }

    /** keys: the cached set if there is one with keys in it, and otherwise what an explicit refresh brings. */
    method Keys() returns (outcome: Outcome)
      requires Valid()
      modifies this, issuer
      ensures Valid() && old(issuer.now) <= issuer.now && old(fetches) <= fetches
      ensures outcome.Fetched? ==> outcome.keys.size > 0
      ensures outcome.Failed? ==> fetches != [] && fetches[|fetches| - 1].outcome == Failed
      ensures old(issuer.asked) < issuer.asked && issuer.asked[|old(issuer.asked)|].Looked?
      ensures var cached := issuer.asked[|old(issuer.asked)|].outcome;
              if cached.Fetched? && cached.keys.size > 0
              then outcome == cached && fetches == old(fetches) && |issuer.asked| == |old(issuer.asked)| + 1
              else
                && |old(fetches)| < |fetches| && !fetches[|fetches| - 1].unknownKey
                && fetches[|fetches| - 1].outcome == outcome
                && |issuer.asked| > |old(issuer.asked)| + 1
                && var query := issuer.asked[|issuer.asked| - 1];
                   query.Refreshed? && Brings(query.outcome, outcome)
    {
      var cached := issuer.Lookup();
      if cached.Fetched? && cached.keys.size > 0 {
        return cached;
      }
      Interference();  // until the lock is granted
      outcome := RefreshLocked(false);
    }

    /** Validate, with other callers' refreshes in between. "Unknown key" is said only on the evidence of a
        successful, non-empty fetch without the key that started during this call, or less than the gap before
        the check; "unavailable" only when the latest refresh failed. A token is judged under a key set with its key,
        the cached one or the latest fetched, and accepted if and only if nothing is found wrong with it. */
    method Validate(token: Token) returns (verdict: Verdict, ghost checked: Time, ghost evidence: Evidence)
      requires Valid()
      modifies this, issuer
      ensures Valid() && old(fetches) <= fetches && old(issuer.now) <= checked <= issuer.now
      ensures verdict == UnknownKey ==>
                token.Parsed? && fetches != [] && LacksKey(fetches[|fetches| - 1], token.keyID)
                && (old(issuer.now) <= fetches[|fetches| - 1].start || InGap(fetches, checked))
      ensures verdict == Unavailable ==> fetches != [] && fetches[|fetches| - 1].outcome == Failed
      ensures verdict == Malformed <==> token.Unparsable?
      ensures verdict == Algorithm <==> token.Parsed? && !token.algorithmAllowed
      ensures verdict == Malformed || verdict == Algorithm ==>
                fetches == old(fetches) && issuer.asked == old(issuer.asked)
      ensures verdict != Malformed && verdict != Algorithm ==>
                && Found(old(fetches), fetches, old(issuer.asked), issuer.asked, evidence)
                && Judged(token.keyID, token.judge, evidence, verdict)
    {
      checked, evidence := issuer.now, Evidence(Failed, None);
      if token.Unparsable? {
        return Malformed, checked, evidence;
      }
      if !token.algorithmAllowed {
        return Algorithm, checked, evidence;
      }
      var found := Keys();
      evidence := Evidence(found, None);
      if found.Failed? {
        return Unavailable, checked, evidence;
      }
      var keys := found.keys;
      if token.keyID !in keys.ids {
        Interference();
        var refreshed;
        refreshed, checked := RefreshForUnknownKey();
        evidence := Evidence(found, Some(refreshed));
        if refreshed.Failed? {
          return Unavailable, checked, evidence;
        }
        if token.keyID !in refreshed.keys.ids {
          return UnknownKey, checked, evidence;
        }
        keys := refreshed.keys;
      }
      match token.judge(keys)
      case None => return Accepted, checked, evidence;
      case Some(flaw) => return Flawed(flaw), checked, evidence;
    }
  }

  /** What a validation went by: the keys it first found, and the refresh for a key they lacked. */
  datatype Evidence = Evidence(first: Outcome, refreshed: Option<Outcome>)

  /** The evidence is the issuer's: the key set is the one this call looked up, if it has keys, and otherwise the
      outcome of a fetch made meanwhile; the refresh is the latest fetch. */
  ghost predicate Found(
    before: seq<Fetch>, fetches: seq<Fetch>, asked: seq<Query>, asked': seq<Query>, evidence: Evidence)
  {
    && asked < asked' && asked'[|asked|].Looked?
    && (var cached := asked'[|asked|].outcome;
        if cached.Fetched? && cached.keys.size > 0 then evidence.first == cached
        else exists k :: |before| <= k < |fetches| && fetches[k].outcome == evidence.first)
    && (evidence.refreshed.Some? ==> fetches != [] && fetches[|fetches| - 1].outcome == evidence.refreshed.value)
  }

  /** The verdict on a token with an allowed algorithm: no keys, no verdict; a key that is missing is asked for once,
      and only then unknown; and with the key the token is accepted if and only if the checks find nothing wrong. */
  predicate Judged(keyID: string, judge: KeySet -> Option<Flaw>, evidence: Evidence, verdict: Verdict) {
    var asks := evidence.first.Fetched? && keyID !in evidence.first.keys.ids;
    && (evidence.refreshed.Some? <==> asks)
    && var latest := if asks then evidence.refreshed.value else evidence.first;
       if latest.Failed? then verdict == Unavailable
       else if keyID !in latest.keys.ids then verdict == UnknownKey
       else
         && (verdict == Accepted <==> judge(latest.keys) == None)
         && (forall flaw :: verdict == Flawed(flaw) <==> judge(latest.keys) == Some(flaw))
  }

  /** What a query brought counts as failed if it brought no keys. */
  predicate Brings(answer: Outcome, outcome: Outcome) {
    if answer.Fetched? && answer.keys.size > 0 then outcome == answer else outcome == Failed
  }

  /** Whatever its callers did, a validator asked the issuer for unknown keys no more often than the gap allows. */
  lemma ValidatorIsLimited(v: Validator, from: Time, to: Time)
    requires v.Valid() && from <= to
    ensures CountWithin(v.fetches, from, to) <= (to - from) / 10_000_000_000 + 1
  {
    FetchesAreRare(v.fetches, from, to);
  }

  /** The latest fetch started less than the gap before the check. */
  predicate InGap(fetches: seq<Fetch>, checked: Time) {
    fetches != [] && checked - fetches[|fetches| - 1].start < 10_000_000_000
  }

  /** A successful, non-empty fetch without the key ID. */
  predicate LacksKey(fetch: Fetch, keyID: string) {
    fetch.outcome.Fetched? && fetch.outcome.keys.size > 0 && keyID !in fetch.outcome.keys.ids
  }
}
