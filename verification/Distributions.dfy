/** `Context.getDividendDistributionsForAssets`: the dividend distributions of many assets, fetched in chunks of
    chunks and put together from parallel arrays. The chain's answers are given as functions. */
module Distributions {
  import opened Common

  datatype Kind = PredictableBenefit | UnpredictableBenefit | IssuerNotice | Reorganization | OtherAction
  datatype Action = Action(kind: Kind, content: string)
  datatype CaId = CaId(ticker: string, localId: nat)

  /** What the chain stores about a distribution. */
  datatype Stored = Stored(content: string, reclaimed: bool, remaining: real)

  datatype Chain = Chain(
    corporateActions: string -> seq<(CaId, Action)>,
    details: CaId -> string,
    distributions: CaId -> Option<Stored>
  )

  datatype Params = Params(action: Action, details: string)
  datatype Distribution = Distribution(ticker: string, id: nat, params: Params, stored: Stored)

  predicate Eligible(action: Action) {
    action.kind.UnpredictableBenefit? || action.kind.PredictableBenefit?
  }

  // ---------------------------------------------------------------- what is asked for

  function ForAction(chain: Chain, ca: (CaId, Action)): seq<Distribution> {
    match chain.distributions(ca.0)
    case None => []
    case Some(stored) => [Distribution(ca.0.ticker, ca.0.localId, Params(ca.1, chain.details(ca.0)), stored)]
  }

  function Benefits(cas: seq<(CaId, Action)>): (r: seq<(CaId, Action)>) {
    if cas == [] then []
    else (if Eligible(cas[0].1) then [cas[0]] else []) + Benefits(cas[1..])
  }

  function ForActions(chain: Chain, cas: seq<(CaId, Action)>): seq<Distribution> {
    if cas == [] then [] else ForAction(chain, cas[0]) + ForActions(chain, cas[1..])
  }

  /** For each asset in order, for each of its benefits in order, the distribution if there is one. */
  function ForAssets(chain: Chain, assets: seq<string>): seq<Distribution> {
    if assets == [] then []
    else ForActions(chain, Benefits(chain.corporateActions(assets[0]))) + ForAssets(chain, assets[1..])
  }

  /** All benefits of the assets, in order. */
  function AllBenefits(chain: Chain, assets: seq<string>): seq<(CaId, Action)> {
    if assets == [] then [] else Benefits(chain.corporateActions(assets[0])) + AllBenefits(chain, assets[1..])
  }

  function Keys(cas: seq<(CaId, Action)>): (r: seq<CaId>)
    ensures |r| == |cas| && forall i :: 0 <= i < |cas| ==> r[i] == cas[i].0
  {
    seq(|cas|, i requires 0 <= i < |cas| => cas[i].0)
  }

  lemma {:induction false} ForActionsAppend(chain: Chain, a: seq<(CaId, Action)>, b: seq<(CaId, Action)>)
    ensures ForActions(chain, a + b) == ForActions(chain, a) + ForActions(chain, b)
  {
    if a == [] {
      assert a + b == b;
    } else {
      assert (a + b)[1..] == a[1..] + b;
      ForActionsAppend(chain, a[1..], b);
    }
  }

  lemma {:induction false} BenefitsAppend(a: seq<(CaId, Action)>, b: seq<(CaId, Action)>)
    ensures Benefits(a + b) == Benefits(a) + Benefits(b)
  {
    if a == [] {
      assert a + b == b;
    } else {
      assert (a + b)[1..] == a[1..] + b;
      BenefitsAppend(a[1..], b);
      Regroup(if Eligible(a[0].1) then [a[0]] else [], Benefits(a[1..]), Benefits(b));
    }
  }

  lemma {:induction false} AllBenefitsAppend(chain: Chain, a: seq<string>, b: seq<string>)
    ensures AllBenefits(chain, a + b) == AllBenefits(chain, a) + AllBenefits(chain, b)
  {
    if a == [] {
      assert a + b == b;
    } else {
      assert (a + b)[1..] == a[1..] + b;
      AllBenefitsAppend(chain, a[1..], b);
    }
  }

  /** Asset by asset is the same as over the list of all benefits. */
  lemma {:induction false} ForAssetsByBenefit(chain: Chain, assets: seq<string>)
    ensures ForAssets(chain, assets) == ForActions(chain, AllBenefits(chain, assets))
  {
    if assets != [] {
      ForAssetsByBenefit(chain, assets[1..]);
      ForActionsAppend(chain, Benefits(chain.corporateActions(assets[0])), AllBenefits(chain, assets[1..]));
    }
  }

  /** A distribution of the given assets: that of a predictable or unpredictable benefit of one of them, with that
      benefit's own ticker, number, action and details. */
  ghost predicate Belongs(chain: Chain, assets: seq<string>, d: Distribution) {
    exists asset, id, action ::
      && asset in assets && (id, action) in chain.corporateActions(asset)
      && (action.kind.PredictableBenefit? || action.kind.UnpredictableBenefit?)
      && chain.distributions(id) == Some(d.stored)
      && d.ticker == id.ticker && d.id == id.localId
      && d.params.action == action && d.params.details == chain.details(id)
  }

  lemma {:induction false} BenefitsMean(cas: seq<(CaId, Action)>, ca: (CaId, Action))
    ensures ca in Benefits(cas) <==>
              ca in cas && (ca.1.kind.PredictableBenefit? || ca.1.kind.UnpredictableBenefit?)
  {
    if cas != [] {
      BenefitsMean(cas[1..], ca);
    }
  }

  lemma {:induction false} ForActionsMean(chain: Chain, cas: seq<(CaId, Action)>, d: Distribution)
    ensures d in ForActions(chain, cas) <==> exists ca :: ca in cas && d in ForAction(chain, ca)
  {
    if cas != [] {
      ForActionsMean(chain, cas[1..], d);
      assert forall ca :: ca in cas <==> ca == cas[0] || ca in cas[1..];
    }
  }

  /** The specification, distribution by distribution: nothing is missing and nothing is too many. */
  lemma {:induction false} ForAssetsMean(chain: Chain, assets: seq<string>, d: Distribution)
    ensures d in ForAssets(chain, assets) <==> Belongs(chain, assets, d)
  {
    if assets != [] {
      var cas := chain.corporateActions(assets[0]);
      ForAssetsMean(chain, assets[1..], d);
      ForActionsMean(chain, Benefits(cas), d);
      if d in ForActions(chain, Benefits(cas)) {
        var ca :| ca in Benefits(cas) && d in ForAction(chain, ca);
        BenefitsMean(cas, ca);
        assert assets[0] in assets && (ca.0, ca.1) in cas;
      }
      if Belongs(chain, assets, d) {
        OfFirstOrRest(chain, assets, d);
      }
    }
  }

  lemma OfFirstOrRest(chain: Chain, assets: seq<string>, d: Distribution)
    requires assets != [] && Belongs(chain, assets, d)
    ensures d in ForActions(chain, Benefits(chain.corporateActions(assets[0]))) || Belongs(chain, assets[1..], d)
  {
    var asset, id, action :|
      && asset in assets && (id, action) in chain.corporateActions(asset)
      && (action.kind.PredictableBenefit? || action.kind.UnpredictableBenefit?)
      && chain.distributions(id) == Some(d.stored)
      && d.ticker == id.ticker && d.id == id.localId
      && d.params.action == action && d.params.details == chain.details(id);
    if asset == assets[0] {
      var cas := chain.corporateActions(asset);
      BenefitsMean(cas, (id, action));
      ForActionsMean(chain, Benefits(cas), d);
      assert d in ForAction(chain, (id, action));
    } else {
      assert asset in assets[1..];
    }
  }

  /** Their order: asset by asset, and for one asset action by action. */
  lemma {:induction false} ForAssetsInOrder(chain: Chain, a: seq<string>, b: seq<string>)
    ensures ForAssets(chain, a + b) == ForAssets(chain, a) + ForAssets(chain, b)
  {
    if a == [] {
      assert a + b == b;
    } else {
      assert (a + b)[1..] == a[1..] + b;
      ForAssetsInOrder(chain, a[1..], b);
    }
  }

  lemma ForActionsInOrder(chain: Chain, asset: string, a: seq<(CaId, Action)>, b: seq<(CaId, Action)>)
    requires chain.corporateActions(asset) == a + b
    ensures ForAssets(chain, [asset]) == ForActions(chain, Benefits(a)) + ForActions(chain, Benefits(b))
    ensures |a| == 1 ==> |ForActions(chain, Benefits(a))| <= 1
  {
    assert [asset][1..] == [];
    assert ForAssets(chain, [asset]) == ForActions(chain, Benefits(a + b)) + ForAssets(chain, []);
    BenefitsAppend(a, b);
    ForActionsAppend(chain, Benefits(a), Benefits(b));
    if |a| == 1 {
      assert Benefits(a[1..]) == [];
      assert Benefits(a) == [] || Benefits(a) == [a[0]];
      if Benefits(a) == [a[0]] {
        assert ForActions(chain, [a[0]]) == ForAction(chain, a[0]) + ForActions(chain, [a[0]][1..]);
      }
    }
  }

  // ---------------------------------------------------------------- chunks

  /** Consecutive pieces of a sequence, none longer than `size` and none empty. */
  function Chunk<T>(xs: seq<T>, size: nat): (chunks: seq<seq<T>>)
    requires size > 0
    ensures Flatten(chunks) == xs
    ensures forall c :: c in chunks ==> 0 < |c| <= size
    ensures forall i :: 0 <= i < |chunks| - 1 ==> |chunks[i]| == size
    decreases |xs|
  {
    if |xs| <= size then (if xs == [] then [] else FlattenOne(xs); [xs])
    else
      assert ([xs[..size]] + Chunk(xs[size..], size))[1..] == Chunk(xs[size..], size);
      [xs[..size]] + Chunk(xs[size..], size)
  }

  /** The actions of one chunk of assets, fetched together and flattened. */
  function Fetched(chain: Chain, assets: seq<string>): (r: seq<seq<(CaId, Action)>>)
    ensures |r| == |assets|
  {
    seq(|assets|, i requires 0 <= i < |assets| => chain.corporateActions(assets[i]))
  }

  lemma {:induction false} FilterFlattened(chain: Chain, assets: seq<string>)
    ensures Benefits(Flatten(Fetched(chain, assets))) == AllBenefits(chain, assets)
  {
    if assets != [] {
      assert Fetched(chain, assets)[1..] == Fetched(chain, assets[1..]);
      BenefitsAppend(Fetched(chain, assets)[0], Flatten(Fetched(chain, assets[1..])));
      FilterFlattened(chain, assets[1..]);
    }
  }

  function Answers(chain: Chain, keys: seq<CaId>): (r: seq<Option<Stored>>)
    ensures |r| == |keys| && forall i :: 0 <= i < |keys| ==> r[i] == chain.distributions(keys[i])
  {
    seq(|keys|, i requires 0 <= i < |keys| => chain.distributions(keys[i]))
  }

  /** The answers to one wave of `multi` calls, flattened. */
  function WaveAnswers(chain: Chain, wave: seq<seq<CaId>>): seq<Option<Stored>> {
    if wave == [] then [] else Answers(chain, wave[0]) + WaveAnswers(chain, wave[1..])
  }

  lemma {:induction false} WaveAnswersFlat(chain: Chain, wave: seq<seq<CaId>>)
    ensures WaveAnswers(chain, wave) == Answers(chain, Flatten(wave))
  {
    if wave != [] {
      WaveAnswersFlat(chain, wave[1..]);
      assert Answers(chain, wave[0] + Flatten(wave[1..])) == Answers(chain, wave[0]) + Answers(chain, Flatten(wave[1..]));
    }
  }

  // ---------------------------------------------------------------- the four parallel arrays

  datatype Arrays = Arrays(keys: seq<CaId>, tickers: seq<string>, ids: seq<nat>, params: seq<Params>)

  ghost predicate Parallel(chain: Chain, a: Arrays, cas: seq<(CaId, Action)>) {
    && |a.keys| == |a.tickers| == |a.ids| == |a.params| == |cas|
    && forall i :: 0 <= i < |cas| ==>
         && a.keys[i] == cas[i].0 && a.tickers[i] == cas[i].0.ticker && a.ids[i] == cas[i].0.localId
         && a.params[i] == Params(cas[i].1, chain.details(cas[i].0))
  }

  method Push(chain: Chain, a: Arrays, eligible: seq<(CaId, Action)>, ghost before: seq<(CaId, Action)>) returns (b: Arrays)
    requires Parallel(chain, a, before)
    ensures Parallel(chain, b, before + eligible) && b.keys == a.keys + Keys(eligible)
  {
    var keys, tickers, ids, params := a.keys, a.tickers, a.ids, a.params;
    for i := 0 to |eligible|
      invariant Parallel(chain, Arrays(keys, tickers, ids, params), before + eligible[..i])
    {
      var (key, action) := eligible[i];
      keys, tickers, ids := keys + [key], tickers + [key.ticker], ids + [key.localId];
      params := params + [Params(action, chain.details(key))];
      assert eligible[..i + 1] == eligible[..i] + [eligible[i]];
    }
    assert eligible[..|eligible|] == eligible;
    b := Arrays(keys, tickers, ids, params);
    assert b.keys == a.keys + Keys(eligible);
  }

  lemma FlattenSucc<T>(xs: seq<seq<T>>, n: nat)
    requires n < |xs|
    ensures Flatten(xs[..n + 1]) == Flatten(xs[..n]) + xs[n]
  {
    assert xs[..n + 1] == xs[..n] + [xs[n]];
    FlattenAppend(xs[..n], [xs[n]]);
    FlattenOne(xs[n]);
  }

  /** The benefits found after `n` chunks of assets. */
  ghost function Found(chain: Chain, waves: seq<seq<string>>, n: nat): seq<(CaId, Action)>
    requires n <= |waves|
  {
    AllBenefits(chain, Flatten(waves[..n]))
  }

  lemma FoundSucc(chain: Chain, waves: seq<seq<string>>, n: nat)
    requires n < |waves|
    ensures Found(chain, waves, n + 1) == Found(chain, waves, n) + AllBenefits(chain, waves[n])
  {
    FlattenSucc(waves, n);
    AllBenefitsAppend(chain, Flatten(waves[..n]), waves[n]);
  }

  method EligibleOf(chain: Chain, assets: seq<string>) returns (eligible: seq<(CaId, Action)>)
    ensures eligible == AllBenefits(chain, assets)
  {
    eligible := Benefits(Flatten(Fetched(chain, assets)));
    FilterFlattened(chain, assets);
  }

  /** The details of all benefits in one chunk of assets are asked for at once. */
  ghost predicate AskedTogether(chain: Chain, waves: seq<seq<string>>, detailWaves: seq<seq<CaId>>) {
    && |detailWaves| == |waves|
    && forall c :: 0 <= c < |waves| ==> detailWaves[c] == Keys(AllBenefits(chain, waves[c]))
  }

  lemma AskedOnceMore(chain: Chain, waves: seq<seq<string>>, c: nat, detailWaves: seq<seq<CaId>>)
    requires c < |waves| && AskedTogether(chain, waves[..c], detailWaves)
    ensures AskedTogether(chain, waves[..c + 1], detailWaves + [Keys(AllBenefits(chain, waves[c]))])
    ensures Flatten(detailWaves + [Keys(AllBenefits(chain, waves[c]))])
         == Flatten(detailWaves) + Keys(AllBenefits(chain, waves[c]))
  {
    FlattenAppend(detailWaves, [Keys(AllBenefits(chain, waves[c]))]);
    FlattenOne(Keys(AllBenefits(chain, waves[c])));
  }

  /** The first half: the benefits of all assets, one chunk of assets after another.
      `waves` are the assets asked for together, `detailWaves` the details. */
  method FetchBenefits(chain: Chain, assets: seq<string>, maxRequests: nat)
    returns (a: Arrays, waves: seq<seq<string>>, detailWaves: seq<seq<CaId>>)
    requires maxRequests > 0
    ensures Parallel(chain, a, AllBenefits(chain, assets))
    ensures waves == Chunk(assets, maxRequests)
    ensures Flatten(detailWaves) == Keys(AllBenefits(chain, assets))
    ensures AskedTogether(chain, waves, detailWaves)
  {
    waves := Chunk(assets, maxRequests);
    a, detailWaves := Arrays([], [], [], []), [];
    for c := 0 to |waves|
      invariant Parallel(chain, a, Found(chain, waves, c))
      invariant Flatten(detailWaves) == a.keys
      invariant AskedTogether(chain, waves[..c], detailWaves)
    {
      var eligible := EligibleOf(chain, waves[c]);
      AskedOnceMore(chain, waves, c, detailWaves);
      detailWaves := detailWaves + [Keys(eligible)];
      a := Push(chain, a, eligible, Found(chain, waves, c));
      FoundSucc(chain, waves, c);
    }
    assert waves[..|waves|] == waves;
  }

  /** How many of these actions are benefits, and how many benefits these assets have. */
  function Count(cas: seq<(CaId, Action)>): nat {
    if cas == [] then 0 else (if Eligible(cas[0].1) then 1 else 0) + Count(cas[1..])
  }

  function CountAll(chain: Chain, assets: seq<string>): nat {
    if assets == [] then 0 else Count(chain.corporateActions(assets[0])) + CountAll(chain, assets[1..])
  }

  lemma {:induction false} CountBenefits(cas: seq<(CaId, Action)>)
    ensures |Benefits(cas)| == Count(cas)
  {
    if cas != [] {
      CountBenefits(cas[1..]);
    }
  }

  lemma {:induction false} CountAllBenefits(chain: Chain, assets: seq<string>)
    ensures |AllBenefits(chain, assets)| == CountAll(chain, assets)
  {
    if assets != [] {
      CountBenefits(chain.corporateActions(assets[0]));
      CountAllBenefits(chain, assets[1..]);
    }
  }

  /** Every wave of requests for details respects the limit if and only if no chunk of assets has more benefits
      than that. */
  lemma DetailsLimitedExactly(chain: Chain, waves: seq<seq<string>>, detailWaves: seq<seq<CaId>>, limit: nat)
    requires AskedTogether(chain, waves, detailWaves)
    ensures (forall w :: w in detailWaves ==> |w| <= limit) <==> forall w :: w in waves ==> CountAll(chain, w) <= limit
  {
    forall c | 0 <= c < |waves| ensures |detailWaves[c]| == CountAll(chain, waves[c]) {
      CountAllBenefits(chain, waves[c]);
    }
    forall c | 0 <= c < |waves| ensures waves[c] in waves && detailWaves[c] in detailWaves {
    }
  }

  /** The answers received after `n` waves of calls. */
  ghost function Received(chain: Chain, waves: seq<seq<seq<CaId>>>, n: nat): seq<Option<Stored>>
    requires n <= |waves|
  {
    Answers(chain, Flatten(Flatten(waves[..n])))
  }

  lemma AnswersAppend(chain: Chain, a: seq<CaId>, b: seq<CaId>)
    ensures Answers(chain, a + b) == Answers(chain, a) + Answers(chain, b)
  {
  }

  lemma ReceivedSucc(chain: Chain, waves: seq<seq<seq<CaId>>>, n: nat)
    requires n < |waves|
    ensures Received(chain, waves, n + 1) == Received(chain, waves, n) + WaveAnswers(chain, waves[n])
  {
    WaveAnswersFlat(chain, waves[n]);
    FlattenSucc(waves, n);
    FlattenAppend(Flatten(waves[..n]), waves[n]);
    AnswersAppend(chain, Flatten(Flatten(waves[..n])), Flatten(waves[n]));
  }

  /** The second half: the stored distributions, in waves of `multi` calls of at most a page of keys each. */
  method FetchStored(chain: Chain, keys: seq<CaId>, maxRequests: nat, pageSize: nat)
    returns (stored: seq<Option<Stored>>, waves: seq<seq<seq<CaId>>>)
    requires maxRequests > 0 && pageSize > 0
    ensures stored == Answers(chain, keys)
    ensures Flatten(Flatten(waves)) == keys
    ensures forall w :: w in waves ==> |w| <= maxRequests
    ensures forall call :: call in Flatten(waves) ==> 0 < |call| <= pageSize
  {
    var paramChunks := Chunk(keys, pageSize);
    waves := Chunk(paramChunks, maxRequests);
    stored := [];
    for w := 0 to |waves|
      invariant stored == Received(chain, waves, w)
    {
      stored := stored + WaveAnswers(chain, waves[w]);
      ReceivedSucc(chain, waves, w);
    }
    assert waves[..|waves|] == waves;
  }

  lemma ForActionsSucc(chain: Chain, cas: seq<(CaId, Action)>, i: nat)
    requires i < |cas|
    ensures ForActions(chain, cas[..i + 1]) == ForActions(chain, cas[..i]) + ForAction(chain, cas[i])
  {
    assert cas[..i + 1] == cas[..i] + [cas[i]];
    ForActionsAppend(chain, cas[..i], [cas[i]]);
    assert ForActions(chain, [cas[i]]) == ForAction(chain, cas[i]) + ForActions(chain, [cas[i]][1..]);
  }

  /** Puts the arrays together again, by index. */
  method Assemble(chain: Chain, a: Arrays, stored: seq<Option<Stored>>, ghost cas: seq<(CaId, Action)>)
    returns (result: seq<Distribution>)
    requires Parallel(chain, a, cas) && stored == Answers(chain, a.keys)
    ensures result == ForActions(chain, cas)
  {
    result := [];
    for index := 0 to |stored|
      invariant result == ForActions(chain, cas[..index])
    {
      if stored[index].Some? {
        result := result + [Distribution(a.tickers[index], a.ids[index], a.params[index], stored[index].value)];
      }
      ForActionsSucc(chain, cas, index);
    }
    assert cas[..|stored|] == cas;
  }

  /** The whole: the result of the unchunked specification, whatever the sizes of the chunks; each key asked for
      once and in order, no call longer than a page, no wave of calls longer than the limit. */
  method GetDividendDistributionsForAssets(chain: Chain, assets: seq<string>, maxRequests: nat, pageSize: nat)
    returns (result: seq<Distribution>, assetWaves: seq<seq<string>>, detailWaves: seq<seq<CaId>>,
             keyWaves: seq<seq<seq<CaId>>>)
    requires maxRequests > 0 && pageSize > 0
    ensures result == ForAssets(chain, assets)
    ensures assetWaves == Chunk(assets, maxRequests)
    ensures Flatten(assetWaves) == assets && forall w :: w in assetWaves ==> |w| <= maxRequests
    ensures Flatten(detailWaves) == Keys(AllBenefits(chain, assets)) && |detailWaves| == |assetWaves|
    ensures (forall w :: w in detailWaves ==> |w| <= maxRequests) <==>
              forall w :: w in assetWaves ==> CountAll(chain, w) <= maxRequests
    ensures Flatten(Flatten(keyWaves)) == Keys(AllBenefits(chain, assets))
    ensures forall w :: w in keyWaves ==> |w| <= maxRequests
    ensures forall call :: call in Flatten(keyWaves) ==> 0 < |call| <= pageSize
  {
    var arrays;
    arrays, assetWaves, detailWaves := FetchBenefits(chain, assets, maxRequests);
    DetailsLimitedExactly(chain, assetWaves, detailWaves, maxRequests);
    var stored;
    stored, keyWaves := FetchStored(chain, arrays.keys, maxRequests, pageSize);
    assert arrays.keys == Keys(AllBenefits(chain, assets));
    result := Assemble(chain, arrays, stored, AllBenefits(chain, assets));
    ForAssetsByBenefit(chain, assets);
  }

  /** The limit does not hold for the details: whatever it is, some asset alone goes beyond it, in every call. */
  lemma DetailsAreNotLimited(maxRequests: nat, detailWaves: seq<seq<CaId>>) returns (chain: Chain)
    requires maxRequests > 0
    ensures Chunk(["A"], maxRequests) == [["A"]]
    ensures AskedTogether(chain, [["A"]], detailWaves) ==> |detailWaves| == 1 && |detailWaves[0]| > maxRequests
  {
    var cas := seq(maxRequests + 1, i requires 0 <= i => (CaId("A", i), Action(PredictableBenefit, "")));
    chain := Chain(_ => cas, _ => "", _ => None);
    AllEligible(cas);
    assert ["A"][1..] == [];
    assert AllBenefits(chain, ["A"]) == Benefits(cas) + AllBenefits(chain, []);
  }

  lemma {:induction false} AllEligible(cas: seq<(CaId, Action)>)
    requires forall i :: 0 <= i < |cas| ==> Eligible(cas[i].1)
    ensures Benefits(cas) == cas
  {
    if cas != [] {
      AllEligible(cas[1..]);
    }
  }
}
