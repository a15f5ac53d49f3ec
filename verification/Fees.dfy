/** Protocol fees, who pays them, and the check a run makes before it asks for a signature.
    Amounts are exact numbers. */
module Fees {
  import opened Common

  datatype Tag = Tag(section: string, name: string)

  /** One transaction of a batch, or a single one: its tag, an explicit protocol fee, a multiplier. */
  datatype Entry = Entry(tag: Tag, fee: Option<real>, feeMultiplier: Option<real>)

  /** The chain's fee table and coefficient. */
  datatype Schedule = Schedule(baseFees: seq<(Tag, real)>, coefficient: real)

  /** The tags that name a protocol operation; any other is charged nothing. */
  const PROTOCOL_OPS: set<Tag> := {
    Tag("asset", "registerTicker"), Tag("asset", "issue"), Tag("asset", "addDocuments"), Tag("asset", "createAsset"),
    Tag("capitalDistribution", "distribute"), Tag("checkpoint", "createSchedule"),
    Tag("complianceManager", "addComplianceRequirement"), Tag("identity", "cddRegisterDid"),
    Tag("identity", "addClaim"), Tag("identity", "addSecondaryKeysWithAuthorization"), Tag("pips", "propose"),
    Tag("corporateBallot", "attachBallot")
  }

  lemma ChargeableTags(section: string, name: string)
    ensures Tag(section, name) in PROTOCOL_OPS <==>
              || (section == "asset" && name in {"registerTicker", "issue", "addDocuments", "createAsset"})
              || (section == "capitalDistribution" && name == "distribute")
              || (section == "checkpoint" && name == "createSchedule")
              || (section == "complianceManager" && name == "addComplianceRequirement")
              || (section == "identity" && name in {"cddRegisterDid", "addClaim", "addSecondaryKeysWithAuthorization"})
              || (section == "pips" && name == "propose")
              || (section == "corporateBallot" && name == "attachBallot")
  {
  }

  function Find(baseFees: seq<(Tag, real)>, tag: Tag): Option<real> {
    if baseFees == [] then None
    else if baseFees[0].0 == tag then Some(baseFees[0].1)
    else Find(baseFees[1..], tag)
  }

  /** The fee of one tag. `ops` is the set of chargeable tags. */
  function ChainFee(ops: set<Tag>, c: Schedule, tag: Tag): real {
    if tag !in ops then 0.0
    else match Find(c.baseFees, tag)
         case None => 0.0
         case Some(balance) => balance * c.coefficient
  }

  /** The place of a tag's first entry in the table. */
  ghost predicate FirstAt(baseFees: seq<(Tag, real)>, tag: Tag, i: nat) {
    i < |baseFees| && baseFees[i].0 == tag && forall j :: 0 <= j < i ==> baseFees[j].0 != tag
  }

  /** What a tag is charged: the balance of its first entry times the coefficient, and nothing if it is not
      chargeable or has no entry. */
  ghost predicate Charged(ops: set<Tag>, c: Schedule, tag: Tag, fee: real) {
    && (forall i: nat :: tag in ops && FirstAt(c.baseFees, tag, i) ==> fee == c.baseFees[i].1 * c.coefficient)
    && (tag !in ops ==> fee == 0.0)
    && ((forall i :: 0 <= i < |c.baseFees| ==> c.baseFees[i].0 != tag) ==> fee == 0.0)
  }

  lemma {:induction false} FindMeans(baseFees: seq<(Tag, real)>, tag: Tag)
    ensures Find(baseFees, tag).None? <==> forall i :: 0 <= i < |baseFees| ==> baseFees[i].0 != tag
    ensures forall i: nat :: FirstAt(baseFees, tag, i) ==> Find(baseFees, tag) == Some(baseFees[i].1)
  {
    if baseFees != [] && baseFees[0].0 != tag {
      FindMeans(baseFees[1..], tag);
      forall i: nat | FirstAt(baseFees, tag, i) ensures Find(baseFees, tag) == Some(baseFees[i].1) {
        assert FirstAt(baseFees[1..], tag, i - 1);
      }
      assert forall i :: 0 <= i < |baseFees| - 1 ==> baseFees[1..][i] == baseFees[i + 1];
    }
  }

  lemma ChainFeeMeans(ops: set<Tag>, c: Schedule, tag: Tag)
    ensures Charged(ops, c, tag, ChainFee(ops, c, tag))
  {
    FindMeans(c.baseFees, tag);
  }

  /** `Context.getProtocolFees`: one entry per distinct tag, in order of first appearance. */
  method GetProtocolFees(ops: set<Tag>, c: Schedule, tags: seq<Tag>) returns (fees: seq<(Tag, real)>)
    ensures forall i :: 0 <= i < |fees| ==> fees[i].0 in tags && fees[i].1 == ChainFee(ops, c, fees[i].0)
    ensures forall i, j :: 0 <= i < j < |fees| ==> fees[i].0 != fees[j].0
    ensures forall t :: t in tags ==> exists i :: 0 <= i < |fees| && fees[i].0 == t
    ensures |tags| == 1 ==> fees == [(tags[0], ChainFee(ops, c, tags[0]))]
    ensures forall i :: 0 <= i < |fees| ==> Charged(ops, c, fees[i].0, fees[i].1)
  {
    var seen: seq<Tag> := [];
    for k := 0 to |tags|
      invariant forall t :: t in seen <==> t in tags[..k]
      invariant forall i, j :: 0 <= i < j < |seen| ==> seen[i] != seen[j]
      invariant k == 1 ==> seen == [tags[0]]
      invariant k == 0 ==> seen == []
    {
      if tags[k] !in seen {
        seen := seen + [tags[k]];
      }
    }
    assert tags[..|tags|] == tags;
    fees := [];
    for k := 0 to |seen|
      invariant |fees| == k
      invariant forall i :: 0 <= i < k ==> fees[i] == (seen[i], ChainFee(ops, c, seen[i]))
    {
      fees := fees + [(seen[k], ChainFee(ops, c, seen[k]))];
    }
    forall i | 0 <= i < |fees| ensures Charged(ops, c, fees[i].0, fees[i].1) {
      ChainFeeMeans(ops, c, fees[i].0);
    }
    forall t | t in tags ensures exists i :: 0 <= i < |fees| && fees[i].0 == t {
      var i :| 0 <= i < |seen| && seen[i] == t;
      assert fees[i].0 == t;
    }
  }

  // ---------------------------------------------------------------- fees of transactions

  function Multiplier(e: Entry): real {
    match e.feeMultiplier
    case None => 1.0
    case Some(m) => m
  }

  function EntryFee(ops: set<Tag>, c: Schedule, e: Entry): real {
    (if e.fee.Some? then e.fee.value else ChainFee(ops, c, e.tag)) * Multiplier(e)
  }

  function BatchFee(ops: set<Tag>, c: Schedule, es: seq<Entry>): real {
    if es == [] then 0.0 else EntryFee(ops, c, es[0]) + BatchFee(ops, c, es[1..])
  }

  /** Without a multiplier: the explicit fee, or else what the chain charges. */
  lemma EntryFeeMeans(ops: set<Tag>, c: Schedule, e: Entry)
    requires e.feeMultiplier.None?
    ensures e.fee.Some? ==> EntryFee(ops, c, e) == e.fee.value
    ensures e.fee.None? ==> Charged(ops, c, e.tag, EntryFee(ops, c, e))
  {
    TimesOne(if e.fee.Some? then e.fee.value else ChainFee(ops, c, e.tag));
    ChainFeeMeans(ops, c, e.tag);
  }

  /** A multiplier multiplies either. */
  lemma MultiplierMeans(ops: set<Tag>, c: Schedule, e: Entry)
    requires e.feeMultiplier.Some?
    ensures EntryFee(ops, c, e) == EntryFee(ops, c, e.(feeMultiplier := None)) * e.feeMultiplier.value
  {
    TimesOne(if e.fee.Some? then e.fee.value else ChainFee(ops, c, e.tag));
  }

  lemma TimesOne(a: real)
    ensures a * 1.0 == a
  {
  }

  lemma BatchOfOne(ops: set<Tag>, c: Schedule, e: Entry)
    ensures BatchFee(ops, c, []) == 0.0 && BatchFee(ops, c, [e]) == EntryFee(ops, c, e)
  {
    assert [e][1..] == [];
  }

  /** `PolymeshTransaction.getProtocolFees`. */
  method SingleProtocolFees(ops: set<Tag>, c: Schedule, e: Entry) returns (total: real)
    ensures total == EntryFee(ops, c, e)
  {
    var fees := e.fee;
    if fees.None? {
      var fetched := GetProtocolFees(ops, c, [e.tag]);
      fees := Some(fetched[0].1);
    }
    total := fees.value * Multiplier(e);
  }

  /** `PolymeshTransactionBatch.getProtocolFees`: a fold from the left. */
  method BatchProtocolFees(ops: set<Tag>, c: Schedule, es: seq<Entry>) returns (total: real)
    ensures total == BatchFee(ops, c, es)
  {
    total := 0.0;
    for i := 0 to |es|
      invariant total + BatchFee(ops, c, es[i..]) == BatchFee(ops, c, es)
    {
      var fees := es[i].fee;
      if fees.None? {
        var fetched := GetProtocolFees(ops, c, [es[i].tag]);
        fees := Some(fetched[0].1);
      }
      total := total + fees.value * Multiplier(es[i]);
    }
  }

  lemma {:induction false} FeesAddUp(ops: set<Tag>, c: Schedule, a: seq<Entry>, b: seq<Entry>)
    ensures BatchFee(ops, c, a + b) == BatchFee(ops, c, a) + BatchFee(ops, c, b)
  {
    if a == [] {
      assert a + b == b;
    } else {
      assert (a + b)[1..] == a[1..] + b;
      FeesAddUp(ops, c, a[1..], b);
    }
  }

  lemma FeeTakenOut(ops: set<Tag>, c: Schedule, es: seq<Entry>, i: nat)
    requires i < |es|
    ensures BatchFee(ops, c, es) == EntryFee(ops, c, es[i]) + BatchFee(ops, c, es[..i] + es[i + 1..])
  {
    assert es == es[..i] + es[i..];
    FeesAddUp(ops, c, es[..i], es[i..]);
    FeesAddUp(ops, c, es[..i], es[i + 1..]);
  }

  lemma MultisetTakenOut(es: seq<Entry>, i: nat)
    requires i < |es|
    ensures multiset(es[..i] + es[i + 1..]) == multiset(es) - multiset{es[i]}
  {
    assert es == es[..i] + ([es[i]] + es[i + 1..]);
  }

  lemma SameRest(a: seq<Entry>, b: seq<Entry>, i: nat)
    requires multiset(a) == multiset(b) && a != [] && i < |b| && b[i] == a[0]
    ensures multiset(a[1..]) == multiset(b[..i] + b[i + 1..])
  {
    MultisetTakenOut(a, 0);
    MultisetTakenOut(b, i);
    assert a[..0] + a[1..] == a[1..];
  }

  lemma FirstIsSomewhere(a: seq<Entry>, b: seq<Entry>) returns (i: nat)
    requires multiset(a) == multiset(b) && a != []
    ensures i < |b| && b[i] == a[0]
  {
    assert a[0] in multiset(b);
    i :| i < |b| && b[i] == a[0];
  }

  /** Reordering a batch does not change its fees. */
  lemma {:induction false} FeesIgnoreOrder(ops: set<Tag>, c: Schedule, a: seq<Entry>, b: seq<Entry>)
    requires multiset(a) == multiset(b)
    ensures BatchFee(ops, c, a) == BatchFee(ops, c, b)
    decreases |a|
  {
    if a == [] {
      assert |b| == |multiset(b)| == 0;
    } else {
      var i := FirstIsSomewhere(a, b);
      SameRest(a, b, i);
      FeesIgnoreOrder(ops, c, a[1..], b[..i] + b[i + 1..]);
      FeeTakenOut(ops, c, b, i);
    }
  }

  // ---------------------------------------------------------------- splitting a batch

  /** `splitTransactions` passes on neither an explicit fee nor a multiplier. */
  function SplitEntry(e: Entry): Entry {
    Entry(e.tag, None, None)
  }

  function SplitEntries(es: seq<Entry>): (r: seq<Entry>)
    ensures |r| == |es|
    ensures forall i :: 0 <= i < |es| ==> r[i] == SplitEntry(es[i])
  {
    seq(|es|, i requires 0 <= i < |es| => SplitEntry(es[i]))
  }

  /** What the entries cost whatever the fee table says. */
  function FixedFee(es: seq<Entry>): real {
    if es == [] then 0.0
    else (if es[0].fee.Some? then es[0].fee.value * Multiplier(es[0]) else 0.0) + FixedFee(es[1..])
  }

  /** How often the batch is charged for a tag, less how often its split is. */
  function Surplus(es: seq<Entry>, tag: Tag): real {
    if es == [] then 0.0
    else (if es[0].tag == tag then Weight(es[0]) else 0.0) + Surplus(es[1..], tag)
  }

  function Weight(e: Entry): real {
    (if e.fee.Some? then 0.0 else Multiplier(e)) - 1.0
  }

  /** The difference in fees, entry by entry. */
  function Gap(ops: set<Tag>, c: Schedule, es: seq<Entry>): real {
    BatchFee(ops, c, es) - BatchFee(ops, c, SplitEntries(es))
  }

  /** The part of the gap that depends on the fee table. */
  function TableGap(ops: set<Tag>, c: Schedule, es: seq<Entry>): real {
    Gap(ops, c, es) - FixedFee(es)
  }

  lemma GapStep(ops: set<Tag>, c: Schedule, es: seq<Entry>)
    requires es != []
    ensures TableGap(ops, c, es) == Weight(es[0]) * ChainFee(ops, c, es[0].tag) + TableGap(ops, c, es[1..])
  {
    assert SplitEntries(es)[1..] == SplitEntries(es[1..]);
    Distribute(Weight(es[0]), 1.0, ChainFee(ops, c, es[0].tag));
  }

  lemma Distribute(a: real, b: real, f: real)
    ensures (a + b) * f == a * f + b * f
  {
  }

  function Without(es: seq<Entry>, tag: Tag): (r: seq<Entry>)
    ensures |r| <= |es|
    ensures forall e :: e in r ==> e.tag != tag
    ensures es != [] && es[0].tag == tag ==> |r| < |es|
  {
    if es == [] then [] else if es[0].tag == tag then Without(es[1..], tag) else [es[0]] + Without(es[1..], tag)
  }

  ghost predicate SplitsOff(ops: set<Tag>, c: Schedule, es: seq<Entry>, tag: Tag) {
    TableGap(ops, c, es) == Surplus(es, tag) * ChainFee(ops, c, tag) + TableGap(ops, c, Without(es, tag))
  }

  lemma SplitsOffSame(ops: set<Tag>, c: Schedule, es: seq<Entry>)
    requires es != [] && SplitsOff(ops, c, es[1..], es[0].tag)
    ensures SplitsOff(ops, c, es, es[0].tag)
  {
    var tag := es[0].tag;
    GapStep(ops, c, es);
    Distribute(Weight(es[0]), Surplus(es[1..], tag), ChainFee(ops, c, tag));
  }

  lemma SplitsOffOther(ops: set<Tag>, c: Schedule, es: seq<Entry>, tag: Tag)
    requires es != [] && es[0].tag != tag && SplitsOff(ops, c, es[1..], tag)
    ensures SplitsOff(ops, c, es, tag)
  {
    var w := Without(es, tag);
    assert w[0] == es[0] && w[1..] == Without(es[1..], tag);
    GapStep(ops, c, es);
    GapStep(ops, c, w);
    assert Surplus(es, tag) == Surplus(es[1..], tag);
  }

  /** The gap, with the entries of one tag accounted for apart from the others. */
  lemma {:induction false} GapByTag(ops: set<Tag>, c: Schedule, es: seq<Entry>, tag: Tag)
    ensures SplitsOff(ops, c, es, tag)
  {
    if es != [] {
      GapByTag(ops, c, es[1..], tag);
      if es[0].tag == tag {
        SplitsOffSame(ops, c, es);
      } else {
        SplitsOffOther(ops, c, es, tag);
      }
    }
  }

  lemma {:induction false} SurplusWithout(es: seq<Entry>, tag: Tag, other: Tag)
    requires other != tag
    ensures Surplus(Without(es, tag), other) == Surplus(es, other)
  {
    if es != [] {
      SurplusWithout(es[1..], tag, other);
      if es[0].tag != tag {
        assert Without(es, tag)[1..] == Without(es[1..], tag);
      }
    }
  }

  lemma {:induction false} NoSurplusOfAbsent(es: seq<Entry>, tag: Tag)
    requires forall e :: e in es ==> e.tag != tag
    ensures Surplus(es, tag) == 0.0
  {
    if es != [] {
      assert es[0] in es;
      NoSurplusOfAbsent(es[1..], tag);
    }
  }

  ghost predicate Balanced(ops: set<Tag>, es: seq<Entry>) {
    && FixedFee(es) == 0.0
    && forall tag :: tag in ops ==> Surplus(es, tag) == 0.0
  }

  /** If every tag is charged as often as it occurs, only the explicit fees are left of the gap. */
  lemma {:induction false} NoSurplusNoGap(ops: set<Tag>, c: Schedule, es: seq<Entry>)
    requires forall tag :: tag in ops ==> Surplus(es, tag) == 0.0
    ensures TableGap(ops, c, es) == 0.0
    decreases |es|
  {
    if es != [] {
      var tag := es[0].tag;
      var rest := Without(es, tag);
      GapByTag(ops, c, es, tag);
      forall other | other in ops ensures Surplus(rest, other) == 0.0 {
        if other == tag {
          NoSurplusOfAbsent(rest, tag);
        } else {
          SurplusWithout(es, tag, other);
        }
      }
      NoSurplusNoGap(ops, c, rest);
    }
  }

  ghost predicate SameCost(ops: set<Tag>, c: Schedule, es: seq<Entry>) {
    BatchFee(ops, c, SplitEntries(es)) == BatchFee(ops, c, es)
  }

  /** The split costs what the batch costs under every fee table exactly if the explicit fees come to nothing
      and each chargeable tag is multiplied, in all, as often as it occurs. */
  lemma SplitCostsTheSameExactly(ops: set<Tag>, es: seq<Entry>)
    ensures (forall c: Schedule :: SameCost(ops, c, es)) <==> Balanced(ops, es)
  {
    if Balanced(ops, es) {
      forall c: Schedule ensures SameCost(ops, c, es) {
        NoSurplusNoGap(ops, c, es);
      }
    }
    if forall c: Schedule :: SameCost(ops, c, es) {
      var free := Schedule([], 1.0);
      assert SameCost(ops, free, es);
      FreeGap(ops, free, es);
      forall tag | tag in ops ensures Surplus(es, tag) == 0.0 {
        assert SameCost(ops, Schedule([(tag, 1.0)], 1.0), es);
        OneTagGap(ops, es, tag);
      }
    }
  }

  /** A table with one tag only singles out its surplus. */
  lemma OneTagGap(ops: set<Tag>, es: seq<Entry>, tag: Tag)
    requires tag in ops
    ensures TableGap(ops, Schedule([(tag, 1.0)], 1.0), es) == Surplus(es, tag)
  {
    var c := Schedule([(tag, 1.0)], 1.0);
    assert ChainFee(ops, c, tag) == 1.0;
    GapByTag(ops, c, es, tag);
    var rest := Without(es, tag);
    forall e | e in rest ensures ChainFee(ops, c, e.tag) == 0.0 {
      assert e.tag != tag && Find(c.baseFees[1..], e.tag).None?;
    }
    FreeGap(ops, c, rest);
  }

  /** A table that charges nothing for the tags of these entries leaves only the explicit fees. */
  lemma {:induction false} FreeGap(ops: set<Tag>, c: Schedule, es: seq<Entry>)
    requires forall e :: e in es ==> ChainFee(ops, c, e.tag) == 0.0
    ensures TableGap(ops, c, es) == 0.0
  {
    if es != [] {
      assert es[0] in es;
      GapStep(ops, c, es);
      FreeGap(ops, c, es[1..]);
    }
  }

  /** In particular when no entry carries either. */
  lemma {:induction false} PlainBatchIsBalanced(ops: set<Tag>, es: seq<Entry>)
    requires forall e :: e in es ==> e.fee.None? && Multiplier(e) == 1.0
    ensures Balanced(ops, es)
  {
    if es != [] {
      assert es[0] in es;
      PlainBatchIsBalanced(ops, es[1..]);
    }
  }

  // ---------------------------------------------------------------- who pays

  /** A transaction about to be run. `paidForBy` is the primary account of the third party, if there is one. */
  datatype Tx =
    | Single(entry: Entry, paidForBy: Option<string>)
    | Batch(entries: seq<Entry>, paidForBy: Option<string>)

  datatype AccountInfo = AccountInfo(free: real, miscFrozen: real, feeFrozen: real, reserved: real)
  datatype Balance = Balance(total: real, locked: real, free: real)

  datatype Subsidy = Subsidy(subsidizer: string, allowance: real)

  /** What the chain answers: fees, the caller's subsidy, account data. */
  datatype World = World(schedule: Schedule, caller: string, subsidy: Option<Subsidy>, accounts: string -> AccountInfo)

  datatype Payer = Other(account: string) | Caller(account: string) | Subsidized(account: string, allowance: real)

  /** The module names `Context.supportsSubsidy` lists, and the one tag that ignores subsidies. */
  const SUBSIDIZED_SECTIONS: set<string> := {
    "asset", "complianceManager", "corporateAction", "externalAgents", "portfolio", "settlement", "statistics", "sto",
    "relayer"
  }
  const REMOVE_PAYING_KEY := Tag("relayer", "removePayingKey")

  function Max(a: real, b: real): real {
    if a >= b then a else b
  }

  function AssembleBalance(info: AccountInfo): Balance {
    var total := info.free + info.reserved;
    var locked := Max(info.miscFrozen, info.feeFrozen);
    Balance(total, locked, total - locked - info.reserved)
  }

  predicate SupportsSubsidy(tx: Tx) {
    tx.Single? && tx.entry.tag.section in SUBSIDIZED_SECTIONS
  }

  predicate IgnoresSubsidy(tx: Tx) {
    tx.Single? && tx.entry.tag == REMOVE_PAYING_KEY
  }

  function ProtocolFees(tx: Tx, w: World): real {
    match tx
    case Single(e, _) => EntryFee(PROTOCOL_OPS, w.schedule, e)
    case Batch(es, _) => BatchFee(PROTOCOL_OPS, w.schedule, es)
  }

  function PayingAccount(tx: Tx, w: World): Payer {
    if tx.paidForBy.Some? then Other(tx.paidForBy.value)
    else if w.subsidy.None? || IgnoresSubsidy(tx) then Caller(w.caller)
    else Subsidized(w.subsidy.value.subsidizer, w.subsidy.value.allowance)
  }

  datatype Fault = SubsidyUnsupported | AllowanceTooSmall | BalanceTooSmall

  /** `assertFeesCovered`: nothing, or what it throws. */
  function AssertFeesCovered(tx: Tx, w: World, gas: real): Option<Fault> {
    var total := ProtocolFees(tx, w) + gas;
    var payer := PayingAccount(tx, w);
    var balance := AssembleBalance(w.accounts(payer.account)).free;
    if payer.Subsidized? && !SupportsSubsidy(tx) then Some(SubsidyUnsupported)
    else if payer.Subsidized? && payer.allowance < total then Some(AllowanceTooSmall)
    else if balance < total then Some(BalanceTooSmall)
    else None
  }

  /** What an account can spend: its free balance without the larger of its two freezes. */
  function Spendable(info: AccountInfo): real {
    if info.miscFrozen <= info.feeFrozen then info.free - info.feeFrozen else info.free - info.miscFrozen
  }

  /** The free balance of an account is what it holds unreserved less the larger of its two freezes. */
  lemma BalanceMeans(info: AccountInfo)
    ensures var b := AssembleBalance(info);
            && b.total == info.free + info.reserved
            && b.locked >= info.miscFrozen && b.locked >= info.feeFrozen
            && (b.locked == info.miscFrozen || b.locked == info.feeFrozen)
            && b.free == info.free - b.locked == Spendable(info)
  {
  }

  /** Which transactions may be subsidized, and which one ignores it: no batch, and of single ones those of these
      modules, and the removal of the paying key. */
  lemma SubsidyMeans(tx: Tx)
    ensures SupportsSubsidy(tx) <==>
              tx.Single? && tx.entry.tag.section in
                {"asset", "complianceManager", "corporateAction", "externalAgents", "portfolio", "settlement",
                 "statistics", "sto", "relayer"}
    ensures IgnoresSubsidy(tx) <==> tx.Single? && tx.entry.tag == Tag("relayer", "removePayingKey")
  {
  }

  /** The fees of a transaction are those of its entry, those of a batch are those of its entries added up. */
  lemma ProtocolFeesMean(tx: Tx, w: World)
    ensures match tx
            case Single(e, _) =>
              ProtocolFees(tx, w) == BatchFee(PROTOCOL_OPS, w.schedule, [e]) == EntryFee(PROTOCOL_OPS, w.schedule, e)
            case Batch(es, _) => ProtocolFees(tx, w) == BatchFee(PROTOCOL_OPS, w.schedule, es)
  {
    if tx.Single? {
      BatchOfOne(PROTOCOL_OPS, w.schedule, tx.entry);
    }
  }

  /** Who it is that pays: third party first, then the subsidizer unless ignored, then the caller. */
  ghost predicate Pays(tx: Tx, w: World, account: string, subsidized: bool) {
    || (tx.paidForBy == Some(account) && !subsidized)
    || (tx.paidForBy.None? && w.subsidy.Some? && !IgnoresSubsidy(tx) && account == w.subsidy.value.subsidizer && subsidized)
    || (tx.paidForBy.None? && (w.subsidy.None? || IgnoresSubsidy(tx)) && account == w.caller && !subsidized)
  }

  /** A run gets past the fee check exactly when the one who pays can spend the total, and, if that is a
      subsidizer, the transaction may be subsidized and the allowance covers the total. */
  lemma CoveredExactly(tx: Tx, w: World, gas: real)
    ensures AssertFeesCovered(tx, w, gas).None? <==>
            exists account, subsidized ::
              && Pays(tx, w, account, subsidized)
              && ProtocolFees(tx, w) + gas <= Spendable(w.accounts(account))
              && (subsidized ==> SupportsSubsidy(tx) && ProtocolFees(tx, w) + gas <= w.subsidy.value.allowance)
  {
    var payer := PayingAccount(tx, w);
    assert Pays(tx, w, payer.account, payer.Subsidized?);
  }

  /** What is wrong is told in this order: a subsidizer who may not pay, a subsidizer whose allowance is too small,
      and only then a balance that is too small. */
  lemma FaultExactly(tx: Tx, w: World, gas: real, account: string, subsidized: bool)
    requires Pays(tx, w, account, subsidized)
    ensures var total, fault := ProtocolFees(tx, w) + gas, AssertFeesCovered(tx, w, gas);
            && (fault == Some(SubsidyUnsupported) <==> subsidized && !SupportsSubsidy(tx))
            && (fault == Some(AllowanceTooSmall) <==>
                  subsidized && SupportsSubsidy(tx) && w.subsidy.value.allowance < total)
            && (fault == Some(BalanceTooSmall) <==>
                  && (subsidized ==> SupportsSubsidy(tx) && total <= w.subsidy.value.allowance)
                  && Spendable(w.accounts(account)) < total)
  {
  }

  lemma OnePayer(tx: Tx, w: World, a: string, s: bool, b: string, t: bool)
    requires Pays(tx, w, a, s) && Pays(tx, w, b, t)
    ensures a == b && s == t
  {
  }

  /** A subsidized caller cannot run a batch, unless a third party pays. */
  lemma SubsidizedBatchIsRefused(es: seq<Entry>, w: World, gas: real)
    requires w.subsidy.Some?
    ensures AssertFeesCovered(Batch(es, None), w, gas) == Some(SubsidyUnsupported)
  {
  }

  // ---------------------------------------------------------------- collapsing and splitting

  /** What `prepare` builds of a list of transactions: a single one is not wrapped in a batch. */
  function Collapse(es: seq<Entry>, paidForBy: Option<string>): Tx {
    if |es| == 1 then Single(es[0], paidForBy) else Batch(es, paidForBy)
  }

  lemma CollapseKeepsFees(es: seq<Entry>, paidForBy: Option<string>, w: World)
    ensures ProtocolFees(Collapse(es, paidForBy), w) == BatchFee(PROTOCOL_OPS, w.schedule, es)
  {
    if |es| == 1 {
      assert BatchFee(PROTOCOL_OPS, w.schedule, es[1..]) == 0.0;
    }
  }

  /** The collapse lets through all the one-element batch would get through, and beyond that only callers
      with a subsidy and no third party. */
  lemma CollapseIsMorePermissive(e: Entry, paidForBy: Option<string>, w: World, gas: real)
    ensures AssertFeesCovered(Batch([e], paidForBy), w, gas).None?
            ==> AssertFeesCovered(Collapse([e], paidForBy), w, gas).None?
    ensures AssertFeesCovered(Collapse([e], paidForBy), w, gas).None? && (w.subsidy.None? || paidForBy.Some?)
            ==> AssertFeesCovered(Batch([e], paidForBy), w, gas).None?
  {
    CollapseKeepsFees([e], paidForBy, w);
  }

  /** The transactions of a split: the third party is not passed on either. */
  function SplitTx(batch: Tx, i: nat): Tx
    requires batch.Batch? && i < |batch.entries|
  {
    Single(SplitEntry(batch.entries[i]), None)
  }

  /** So a third party that would have paid for the batch never pays for a part of it. */
  lemma SplitLosesThirdParty(batch: Tx, i: nat, w: World)
    requires batch.Batch? && i < |batch.entries| && batch.paidForBy.Some?
    ensures PayingAccount(batch, w) == Other(batch.paidForBy.value)
    ensures !PayingAccount(SplitTx(batch, i), w).Other?
  {
  }

  /** What the parts of a split cost under any fee table, and what the batch costs: the same exactly if balanced. */
  function SplitFees(batch: Tx, w: World, n: nat): real
    requires batch.Batch? && n <= |batch.entries|
  {
    if n == 0 then 0.0 else SplitFees(batch, w, n - 1) + ProtocolFees(SplitTx(batch, n - 1), w)
  }

  lemma {:induction false} SplitFeesAreEntryFees(batch: Tx, w: World, n: nat)
    requires batch.Batch? && n <= |batch.entries|
    ensures SplitFees(batch, w, n) == BatchFee(PROTOCOL_OPS, w.schedule, SplitEntries(batch.entries)[..n])
  {
    if n > 0 {
      var es := SplitEntries(batch.entries);
      SplitFeesAreEntryFees(batch, w, n - 1);
      assert es[..n] == es[..n - 1] + [es[n - 1]];
      FeesAddUp(PROTOCOL_OPS, w.schedule, es[..n - 1], [es[n - 1]]);
      assert BatchFee(PROTOCOL_OPS, w.schedule, [es[n - 1]][1..]) == 0.0;
    }
  }

  lemma BalancedSplitCostsTheSame(batch: Tx, w: World)
    requires batch.Batch? && Balanced(PROTOCOL_OPS, batch.entries)
    ensures SplitFees(batch, w, |batch.entries|) == ProtocolFees(batch, w)
  {
    SplitFeesAreEntryFees(batch, w, |batch.entries|);
    assert SplitEntries(batch.entries)[..|batch.entries|] == SplitEntries(batch.entries);
    NoSurplusNoGap(PROTOCOL_OPS, w.schedule, batch.entries);
  }

  /** A fee or a multiplier is enough to make the split cost something else. */
  lemma SplitCanCostMore(w: World)
    requires ChainFee(PROTOCOL_OPS, w.schedule, Tag("asset", "addDocuments")) > 0.0
    ensures var free, other := Entry(Tag("asset", "addDocuments"), Some(0.0), None), Entry(Tag("pips", "propose"), None, None);
            var batch := Batch([free, other], None);
            SplitFees(batch, w, 2) > ProtocolFees(batch, w)
  {
    var es := [Entry(Tag("asset", "addDocuments"), Some(0.0), None), Entry(Tag("pips", "propose"), None, None)];
    var batch := Batch(es, None);
    assert es[1..] == [es[1]] && es[1..][1..] == [];
    assert BatchFee(PROTOCOL_OPS, w.schedule, [es[1]]) == EntryFee(PROTOCOL_OPS, w.schedule, es[1]);
    assert SplitFees(batch, w, 1) == SplitFees(batch, w, 0) + ProtocolFees(SplitTx(batch, 0), w);
    assert SplitFees(batch, w, 2) == SplitFees(batch, w, 1) + ProtocolFees(SplitTx(batch, 1), w);
  }
}
