/** The block handlers of src/mappings/mappingHandlers.ts and the entity
    store they write to. */
module Handlers {
  import opened Wrappers
  import opened Decimal
  import opened Address
  import opened Chain

  /** `handleBlock` reconciles only at block numbers that are multiples of this. */
  const SampleInterval: nat := 600

  /** The parts of a `SubstrateBlock` the handlers read. */
  datatype Block = Block(number: nat, hash: string, timestamp: nat)

  /** The `Validator` entity. */
  datatype Validator = Validator(
    id: string, derivativeIndex: nat, stashId: string, name: string,
    stakes: nat, commission: nat, blockHeight: nat)

  /** The `ParachainInfo` entity. */
  datatype ParachainInfo = ParachainInfo(
    id: string, paraId: ParaId, sovAcc: string, deposited: int,
    blockHeight: nat, timestamp: nat)

  predicate Distinct<T(==)>(s: seq<T>) {
    forall i, j | 0 <= i < j < |s| :: s[i] != s[j]
  }

  /** Appending to a log one entry at a time. */
  lemma AppendAssoc<T>(a: seq<T>, b: seq<T>, x: T)
    ensures a + b + [x] == a + (b + [x])
  {
  }

  lemma ConcatAssoc<T>(a: seq<T>, b: seq<T>, c: seq<T>)
    ensures a + b + c == a + (b + c)
  {
  }

  lemma WholePrefix<T>(s: seq<T>)
    ensures s[..|s|] == s
  {
  }

  // ---------------------------------------------------------------------
  // Entity keys

  /** The id `${derivativeIndex}-${idx}` of the validator in slot `i` of ledger position `d`. */
  function ValidatorKey(d: nat, i: nat): (k: string)
    ensures var j := FirstDash(k);
      && j < |k| && AllDigits(k[..j]) && AllDigits(k[j + 1..])
      && DecimalValue(k[..j]) == d && DecimalValue(k[j + 1..]) == i
  {
    var sd, si := NatToDecimal(d), NatToDecimal(i);
    var k := sd + "-" + si;
    assert k[|sd|] == '-';
    assert FirstDash(k) == |sd|;
    assert k[..|sd|] == sd;
    assert k[|sd| + 1..] == si;
    DecimalRoundTrip(d);
    DecimalRoundTrip(i);
    k
  }

  /** Position of the first '-' in `k`, or |k| if there is none. */
  function FirstDash(k: string): (j: nat)
    ensures j <= |k|
    ensures j < |k| ==> k[j] == '-'
    ensures forall m | 0 <= m < j :: k[m] != '-'
  {
    if k == [] then 0 else if k[0] == '-' then 0 else 1 + FirstDash(k[1..])
  }

  /** The slot a validator id names, if it is the id of some slot. */
  function ParseValidatorKey(k: string): (r: Option<(nat, nat)>)
    ensures r.Some? ==> ValidatorKey(r.value.0, r.value.1) == k
  {
    var j := FirstDash(k);
    if j < |k| && AllDigits(k[..j]) && AllDigits(k[j + 1..]) then
      var slot := (DecimalValue(k[..j]), DecimalValue(k[j + 1..]));
      if ValidatorKey(slot.0, slot.1) == k then Some(slot) else None
    else None
  }

  /** A validator id names exactly the slot it was built from. */
  lemma ValidatorKeyRoundTrip(d: nat, i: nat)
    ensures ParseValidatorKey(ValidatorKey(d, i)) == Some((d, i))
  {
    var sd, si := NatToDecimal(d), NatToDecimal(i);
    var k := ValidatorKey(d, i);
    assert k[|sd|] == '-';
    assert FirstDash(k) == |sd|;
    assert k[..|sd|] == sd;
    assert k[|sd| + 1..] == si;
    DecimalRoundTrip(d);
    DecimalRoundTrip(i);
  }

  /** Distinct slots have distinct validator ids. */
  lemma ValidatorKeyInjective(d: nat, i: nat, d': nat, i': nat)
    requires ValidatorKey(d, i) == ValidatorKey(d', i')
    ensures d == d' && i == i'
  {
    ValidatorKeyRoundTrip(d, i);
    ValidatorKeyRoundTrip(d', i');
  }

  /** The id `${blockHash}-${paraId}` of a parachain snapshot. */
  function ParachainKey(blockHash: string, paraId: ParaId): (k: string)
    ensures |blockHash| < |k| && k[..|blockHash|] == blockHash && k[|blockHash|] == '-'
    ensures AllDigits(k[|blockHash| + 1..]) && DecimalValue(k[|blockHash| + 1..]) == paraId
  {
    var k := blockHash + "-" + NatToDecimal(paraId);
    assert k[|blockHash| + 1..] == NatToDecimal(paraId);
    DecimalRoundTrip(paraId);
    k
  }

  /** Within one block, distinct para ids have distinct snapshot ids. */
  lemma ParachainKeyInjective(blockHash: string, a: ParaId, b: ParaId)
    requires ParachainKey(blockHash, a) == ParachainKey(blockHash, b)
    ensures a == b
  {
    var n := |blockHash| + 1;
    assert NatToDecimal(a) == ParachainKey(blockHash, a)[n..];
    assert NatToDecimal(b) == ParachainKey(blockHash, b)[n..];
    DecimalInjective(a, b);
  }

  // ---------------------------------------------------------------------
  // Get-or-create and conditional update of one record

  /** The `props` object `handleValidators` builds for slot `i` of ledger position `d`. */
  function ValidatorProps(d: nat, i: nat, info: ValidatorInfo, blockHeight: nat): (r: Validator)
    ensures r.id == ValidatorKey(d, i) && r.derivativeIndex == d
  {
    Validator(ValidatorKey(d, i), d, info.stashId, info.name, info.stakes, info.commission, blockHeight)
  }

  /** The record `handleValidators` saves for `props` when `existing` is
      stored under its id. The change test compares the stored name with
      itself, so a change of name alone is not written. */
  function UpsertValidator(existing: Option<Validator>, props: Validator): (r: Validator)
    ensures r.commission == props.commission && r.stakes == props.stakes
    ensures existing.None? ==> r == props
    ensures existing.Some? ==>
      && r.id == existing.value.id
      && r.derivativeIndex == existing.value.derivativeIndex
      && r.stashId == existing.value.stashId
    ensures existing.Some? && existing.value.commission == props.commission && existing.value.stakes == props.stakes ==>
      r == existing.value
    ensures existing.Some? && (existing.value.commission != props.commission || existing.value.stakes != props.stakes) ==>
      r.name == props.name && r.blockHeight == props.blockHeight
  {
    var validator := if existing.Some? then existing.value else props;
    if validator.commission != props.commission || validator.stakes != props.stakes || validator.name != validator.name then
      validator.(commission := props.commission, stakes := props.stakes, name := props.name, blockHeight := props.blockHeight)
    else
      validator
  }

  /** A stored validator whose commission and stakes did not change keeps
      its old name and height, whatever name was fetched. */
  lemma NameOnlyChangeIsDropped(existing: Validator, props: Validator)
    requires existing.commission == props.commission && existing.stakes == props.stakes
    requires existing.name != props.name
    ensures UpsertValidator(Some(existing), props).name == existing.name
    ensures UpsertValidator(Some(existing), props).name != props.name
    ensures UpsertValidator(Some(existing), props).blockHeight == existing.blockHeight
  {
  }

  /** Reconciling the same fetched values twice leaves the record as once. */
  lemma UpsertValidatorIdempotent(existing: Option<Validator>, props: Validator)
    ensures UpsertValidator(Some(UpsertValidator(existing, props)), props) == UpsertValidator(existing, props)
  {
  }

  /** The record `handleParachainInfos` saves for `props` when `existing` is
      stored under its id: the deposit is refreshed, and the height and time
      move only when the deposit changed. */
  function UpsertParachainInfo(existing: Option<ParachainInfo>, props: ParachainInfo): (r: ParachainInfo)
    ensures r.deposited == props.deposited
    ensures existing.None? ==> r == props
    ensures existing.Some? ==>
      && r.id == existing.value.id
      && r.paraId == existing.value.paraId
      && r.sovAcc == existing.value.sovAcc
    ensures existing.Some? && existing.value.deposited == props.deposited ==> r == existing.value
    ensures existing.Some? && existing.value.deposited != props.deposited ==>
      r.blockHeight == props.blockHeight && r.timestamp == props.timestamp
  {
    var info := if existing.Some? then existing.value else props;
    if info.deposited != props.deposited then
      info.(deposited := props.deposited, blockHeight := props.blockHeight, timestamp := props.timestamp)
    else
      info
  }

  /** Reconciling the same snapshot twice leaves the record as once. */
  lemma UpsertParachainInfoIdempotent(existing: Option<ParachainInfo>, props: ParachainInfo)
    ensures UpsertParachainInfo(Some(UpsertParachainInfo(existing, props)), props) == UpsertParachainInfo(existing, props)
  {
  }

  // ---------------------------------------------------------------------
  // What one pass of each handler does to the store

  /** The validator infos fetched for each staking ledger, by ledger position. */
  function Fetched(chain: ChainSnapshot, ledgers: seq<string>): (f: seq<seq<ValidatorInfo>>)
    ensures |f| == |ledgers|
    ensures forall d | 0 <= d < |ledgers| :: f[d] == GetValidatorInfos(chain, ledgers[d])
  {
    seq(|ledgers|, d requires 0 <= d < |ledgers| => GetValidatorInfos(chain, ledgers[d]))
  }

  ghost predicate IsFetchedSlot(f: seq<seq<ValidatorInfo>>, d: nat, i: nat) {
    d < |f| && i < |f[d]|
  }

  /** Slot (d, i) is fetched exactly when ledger d nominates at least i + 1
      targets, and it then holds the info of the i-th target. */
  lemma FetchedSlotIsNominee(chain: ChainSnapshot, ledgers: seq<string>, d: nat, i: nat)
    requires d < |ledgers|
    ensures IsFetchedSlot(Fetched(chain, ledgers), d, i) <==>
      ledgers[d] in chain.nominators && i < |chain.nominators[ledgers[d]]|
    ensures IsFetchedSlot(Fetched(chain, ledgers), d, i) ==>
      var v := chain.nominators[ledgers[d]][i];
      Fetched(chain, ledgers)[d][i]
        == ValidatorInfo(v, GetIdentity(chain.identities, v), chain.stakesOf(v), chain.commissionOf(v))
  {
  }

  /** `k` is the id of a slot that was fetched. */
  ghost predicate IsFetchedKey(k: string, f: seq<seq<ValidatorInfo>>) {
    var slot := ParseValidatorKey(k);
    slot.Some? && IsFetchedSlot(f, slot.value.0, slot.value.1)
  }

  /** `after` is `before` with every fetched slot reconciled and every other
      record as it was; nothing is removed. */
  ghost predicate ValidatorsReconciled(
    before: map<string, Validator>, after: map<string, Validator>,
    f: seq<seq<ValidatorInfo>>, blockHeight: nat)
  {
    && (forall d: nat, i: nat | IsFetchedSlot(f, d, i) ::
          ValidatorKey(d, i) in after
          && after[ValidatorKey(d, i)]
             == UpsertValidator(Lookup(before, ValidatorKey(d, i)), ValidatorProps(d, i, f[d][i], blockHeight)))
    && (forall k | k in before && !IsFetchedKey(k, f) :: k in after && after[k] == before[k])
    && (forall k | k in after :: k in before || IsFetchedKey(k, f))
  }

  /** The slot ids of ledger position `d` below `n`, in slot order. */
  function RowKeys(d: nat, n: nat): (r: seq<string>)
    ensures |r| == n
    ensures forall i | 0 <= i < n :: r[i] == ValidatorKey(d, i)
  {
    if n == 0 then [] else RowKeys(d, n - 1) + [ValidatorKey(d, n - 1)]
  }

  /** The ids `handleValidators` saves, in the order it saves them. */
  function SaveOrder(f: seq<seq<ValidatorInfo>>): seq<string> {
    if f == [] then [] else SaveOrder(f[..|f| - 1]) + RowKeys(|f| - 1, |f[|f| - 1]|)
  }

  /** The snapshot rows `handleParachainInfos` builds, one per para id, in order. */
  function ParachainRows(c: Crypto, chain: ChainSnapshot, block: Block): (r: seq<ParachainInfo>)
    ensures |r| == |chain.paraIds|
    ensures forall j | 0 <= j < |r| ::
      var paraId := chain.paraIds[j];
      var sovAcc := SovereignAccountOf(c, paraId);
      r[j] == ParachainInfo(ParachainKey(block.hash, paraId), paraId, sovAcc,
                            chain.accountOf(sovAcc).free - chain.accountOf(sovAcc).miscFrozen,
                            block.number, block.timestamp)
  {
    var ids := chain.paraIds;
    seq(|ids|, j requires 0 <= j < |ids| =>
      ParachainInfo(ParachainKey(block.hash, ids[j]), ids[j], SovereignAccountOf(c, ids[j]),
                    Available(chain.accountOf(SovereignAccountOf(c, ids[j]))), block.number, block.timestamp))
  }

  /** The ids of `rows`, in order. */
  function RowIds(rows: seq<ParachainInfo>): (r: seq<string>)
    ensures |r| == |rows|
    ensures forall j | 0 <= j < |rows| :: r[j] == rows[j].id
  {
    seq(|rows|, j requires 0 <= j < |rows| => rows[j].id)
  }

  /** The ids of the first n + 1 rows are those of the first n, then row n's. */
  lemma RowIdsNext(rows: seq<ParachainInfo>, n: nat)
    requires n < |rows|
    ensures RowIds(rows[..n + 1]) == RowIds(rows[..n]) + [rows[n].id]
  {
    var a, b := RowIds(rows[..n + 1]), RowIds(rows[..n]) + [rows[n].id];
    assert |a| == |b|;
    forall j | 0 <= j < |a| ensures a[j] == b[j] {
    }
  }

  /** `after` is `before` with every row reconciled and every other record as it was. */
  ghost predicate ParachainInfosReconciled(
    before: map<string, ParachainInfo>, after: map<string, ParachainInfo>, rows: seq<ParachainInfo>)
  {
    && (forall j | 0 <= j < |rows| ::
          rows[j].id in after && after[rows[j].id] == UpsertParachainInfo(Lookup(before, rows[j].id), rows[j]))
    && (forall k | k in before && k !in RowIds(rows) :: k in after && after[k] == before[k])
    && (forall k | k in after :: k in before || k in RowIds(rows))
  }

  /** `handleBlock` runs the reconciliations only at sampled heights. */
  predicate IsSampled(blockNumber: nat): (b: bool)
    ensures b <==> blockNumber / SampleInterval * SampleInterval == blockNumber
  {
    blockNumber % SampleInterval == 0
  }

  // ---------------------------------------------------------------------
  // Loop invariants of the validator walk

  /** Slot (d', i') is walked before slot (d, i). */
  ghost predicate SlotDone(f: seq<seq<ValidatorInfo>>, d: nat, i: nat, d': nat, i': nat)
    requires d <= |f|
  {
    (d' < d && i' < |f[d']|) || (d' == d && i' < i)
  }

  ghost predicate KeyDone(k: string, f: seq<seq<ValidatorInfo>>, d: nat, i: nat)
    requires d <= |f|
  {
    var slot := ParseValidatorKey(k);
    slot.Some? &&
      ((slot.value.0 < d && slot.value.1 < |f[slot.value.0]|) || (slot.value.0 == d && slot.value.1 < i))
  }

  ghost predicate WalkPosition(f: seq<seq<ValidatorInfo>>, d: nat, i: nat) {
    d <= |f| && (d < |f| ==> i <= |f[d]|) && (d == |f| ==> i == 0)
  }

  /** Every slot walked before (d, i) holds its reconciled record. */
  ghost predicate SlotsUpserted(
    before: map<string, Validator>, after: map<string, Validator>,
    f: seq<seq<ValidatorInfo>>, blockHeight: nat, d: nat, i: nat)
    requires WalkPosition(f, d, i)
  {
    forall d': nat, i': nat {:trigger SlotDone(f, d, i, d', i')} | SlotDone(f, d, i, d', i') ::
      ValidatorKey(d', i') in after
      && after[ValidatorKey(d', i')]
         == UpsertValidator(Lookup(before, ValidatorKey(d', i')), ValidatorProps(d', i', f[d'][i'], blockHeight))
  }

  /** Records not yet walked are as they were, and no other id appeared. */
  ghost predicate OthersKept(
    before: map<string, Validator>, after: map<string, Validator>,
    f: seq<seq<ValidatorInfo>>, d: nat, i: nat)
    requires WalkPosition(f, d, i)
  {
    && (forall k {:trigger KeyDone(k, f, d, i)} | k in before && !KeyDone(k, f, d, i) :: k in after && after[k] == before[k])
    && (forall k {:trigger KeyDone(k, f, d, i)} | k in after :: k in before || KeyDone(k, f, d, i))
  }

  /** `ValidatorsReconciled` for the slots walked before (d, i). */
  ghost predicate ValidatorsUpTo(
    before: map<string, Validator>, after: map<string, Validator>,
    f: seq<seq<ValidatorInfo>>, blockHeight: nat, d: nat, i: nat)
    requires WalkPosition(f, d, i)
  {
    SlotsUpserted(before, after, f, blockHeight, d, i) && OthersKept(before, after, f, d, i)
  }

  /** The record stored at slot (d, i) before it is walked is the one stored before the walk. */
  lemma UnwalkedSlotUntouched(
    before: map<string, Validator>, cur: map<string, Validator>, f: seq<seq<ValidatorInfo>>, d: nat, i: nat)
    requires d < |f| && i < |f[d]|
    requires OthersKept(before, cur, f, d, i)
    ensures Lookup(cur, ValidatorKey(d, i)) == Lookup(before, ValidatorKey(d, i))
  {
    ValidatorKeyRoundTrip(d, i);
    assert !KeyDone(ValidatorKey(d, i), f, d, i);
  }

  lemma SlotsUpsertedStep(
    before: map<string, Validator>, cur: map<string, Validator>,
    f: seq<seq<ValidatorInfo>>, blockHeight: nat, d: nat, i: nat, v: Validator)
    requires d < |f| && i < |f[d]|
    requires SlotsUpserted(before, cur, f, blockHeight, d, i)
    requires v == UpsertValidator(Lookup(before, ValidatorKey(d, i)), ValidatorProps(d, i, f[d][i], blockHeight))
    ensures SlotsUpserted(before, cur[ValidatorKey(d, i) := v], f, blockHeight, d, i + 1)
  {
    var key := ValidatorKey(d, i);
    var after := cur[key := v];
    forall d': nat, i': nat | SlotDone(f, d, i + 1, d', i')
      ensures ValidatorKey(d', i') in after
      ensures after[ValidatorKey(d', i')]
              == UpsertValidator(Lookup(before, ValidatorKey(d', i')), ValidatorProps(d', i', f[d'][i'], blockHeight))
    {
      if d' != d || i' != i {
        assert SlotDone(f, d, i, d', i');
        if ValidatorKey(d', i') == key {
          ValidatorKeyInjective(d', i', d, i);
        }
      }
    }
  }

  lemma OthersKeptStep(
    before: map<string, Validator>, cur: map<string, Validator>,
    f: seq<seq<ValidatorInfo>>, d: nat, i: nat, v: Validator)
    requires d < |f| && i < |f[d]|
    requires OthersKept(before, cur, f, d, i)
    ensures OthersKept(before, cur[ValidatorKey(d, i) := v], f, d, i + 1)
  {
    var key := ValidatorKey(d, i);
    ValidatorKeyRoundTrip(d, i);
    assert KeyDone(key, f, d, i + 1);
    var after := cur[key := v];
    forall k | k in before && !KeyDone(k, f, d, i + 1)
      ensures k in after && after[k] == before[k]
    {
      assert !KeyDone(k, f, d, i);
    }
    forall k | k in after
      ensures k in before || KeyDone(k, f, d, i + 1)
    {
      if k != key && k !in before {
        assert KeyDone(k, f, d, i);
      }
    }
  }

  /** Finishing ledger position d is starting position d + 1. */
  lemma ValidatorNextLedger(
    before: map<string, Validator>, cur: map<string, Validator>,
    f: seq<seq<ValidatorInfo>>, blockHeight: nat, d: nat)
    requires d < |f|
    requires ValidatorsUpTo(before, cur, f, blockHeight, d, |f[d]|)
    ensures ValidatorsUpTo(before, cur, f, blockHeight, d + 1, 0)
  {
    assert SlotsUpserted(before, cur, f, blockHeight, d + 1, 0) by {
      forall d': nat, i': nat | SlotDone(f, d + 1, 0, d', i')
        ensures ValidatorKey(d', i') in cur
        ensures cur[ValidatorKey(d', i')]
                == UpsertValidator(Lookup(before, ValidatorKey(d', i')), ValidatorProps(d', i', f[d'][i'], blockHeight))
      {
        assert SlotDone(f, d, |f[d]|, d', i');
      }
    }
    assert OthersKept(before, cur, f, d + 1, 0) by {
      forall k | k in before && !KeyDone(k, f, d + 1, 0) ensures k in cur && cur[k] == before[k] {
        assert !KeyDone(k, f, d, |f[d]|);
      }
      forall k | k in cur ensures k in before || KeyDone(k, f, d + 1, 0) {
        assert k in before || KeyDone(k, f, d, |f[d]|);
      }
    }
  }

  /** Having walked every ledger is having reconciled every fetched slot. */
  lemma ValidatorWalkDone(
    before: map<string, Validator>, after: map<string, Validator>,
    f: seq<seq<ValidatorInfo>>, blockHeight: nat)
    requires ValidatorsUpTo(before, after, f, blockHeight, |f|, 0)
    ensures ValidatorsReconciled(before, after, f, blockHeight)
  {
    forall d: nat, i: nat ensures IsFetchedSlot(f, d, i) == SlotDone(f, |f|, 0, d, i) { }
    forall k ensures IsFetchedKey(k, f) == KeyDone(k, f, |f|, 0) { }
  }

  /** The save order grows by one ledger's slot ids per ledger. */
  lemma SaveOrderNext(f: seq<seq<ValidatorInfo>>, d: nat)
    requires d < |f|
    ensures SaveOrder(f[..d + 1]) == SaveOrder(f[..d]) + RowKeys(d, |f[d]|)
  {
    assert f[..d + 1][..d] == f[..d];
  }

  /** The outer loop's step: ledger position d walked to its end is position
      d + 1 not yet started, and its slot ids extend the save order. */
  lemma LedgerDone(
    before: map<string, Validator>, cur: map<string, Validator>,
    f: seq<seq<ValidatorInfo>>, blockHeight: nat, d: nat, savesStart: seq<string>, saves: seq<string>)
    requires d < |f|
    requires ValidatorsUpTo(before, cur, f, blockHeight, d, |f[d]|)
    requires saves == savesStart + SaveOrder(f[..d]) + RowKeys(d, |f[d]|)
    ensures ValidatorsUpTo(before, cur, f, blockHeight, d + 1, 0)
    ensures saves == savesStart + SaveOrder(f[..d + 1])
  {
    ValidatorNextLedger(before, cur, f, blockHeight, d);
    ConcatAssoc(savesStart, SaveOrder(f[..d]), RowKeys(d, |f[d]|));
    SaveOrderNext(f, d);
  }

  // ---------------------------------------------------------------------
  // Effect of each pass, as the handlers and handleBlock state it

  /** What `handleValidators` leaves in the store: nothing if the ledgers
      could not be derived, otherwise every fetched slot reconciled and
      saved once, in walk order. */
  ghost predicate ValidatorPassDone(
    c: Crypto, chain: ChainSnapshot, block: Block,
    before: map<string, Validator>, after: map<string, Validator>,
    savesBefore: seq<string>, savesAfter: seq<string>)
  {
    match StakingLedgers(c, chain.name)
    case Failure(_) => after == before && savesAfter == savesBefore
    case Success(ledgers) =>
      var f := Fetched(chain, ledgers);
      ValidatorsReconciled(before, after, f, block.number) && savesAfter == savesBefore + SaveOrder(f)
  }

  /** What `handleParachainInfos` leaves in the store: every row reconciled
      and saved once, in para id order. */
  ghost predicate ParachainPassDone(
    c: Crypto, chain: ChainSnapshot, block: Block,
    before: map<string, ParachainInfo>, after: map<string, ParachainInfo>,
    savesBefore: seq<string>, savesAfter: seq<string>)
  {
    var rows := ParachainRows(c, chain, block);
    ParachainInfosReconciled(before, after, rows) && savesAfter == savesBefore + RowIds(rows)
  }

  /** Distinct para ids give rows with distinct ids. */
  lemma ParachainRowIdsDistinct(c: Crypto, chain: ChainSnapshot, block: Block)
    requires Distinct(chain.paraIds)
    ensures Distinct(RowIds(ParachainRows(c, chain, block)))
  {
    var ids := RowIds(ParachainRows(c, chain, block));
    forall i, j | 0 <= i < j < |ids| ensures ids[i] != ids[j] {
      if ids[i] == ids[j] {
        ParachainKeyInjective(block.hash, chain.paraIds[i], chain.paraIds[j]);
      }
    }
  }

  /** Row j is built from the j-th sovereign account and the j-th available balance. */
  lemma ParachainRowAt(c: Crypto, chain: ChainSnapshot, block: Block, sovs: seq<string>, balances: seq<int>, j: nat)
    requires sovs == GetSovereignAccounts(c, chain.paraIds)
    requires balances == GetAvailableBalances(chain, sovs)
    requires j < |chain.paraIds|
    ensures ParachainRows(c, chain, block)[j]
            == ParachainInfo(ParachainKey(block.hash, chain.paraIds[j]), chain.paraIds[j], sovs[j], balances[j],
                             block.number, block.timestamp)
  {
  }

  /** Rows that share an id are the same row. */
  ghost predicate RowsKeyed(rows: seq<ParachainInfo>) {
    forall i, j | 0 <= i < |rows| && 0 <= j < |rows| && rows[i].id == rows[j].id :: rows[i] == rows[j]
  }

  /** A snapshot row is determined by its id: a repeated para id repeats the
      whole row. */
  lemma ParachainRowsKeyed(c: Crypto, chain: ChainSnapshot, block: Block)
    ensures RowsKeyed(ParachainRows(c, chain, block))
  {
    var rows := ParachainRows(c, chain, block);
    forall i, j | 0 <= i < |rows| && 0 <= j < |rows| && rows[i].id == rows[j].id
      ensures rows[i] == rows[j]
    {
      ParachainKeyInjective(block.hash, chain.paraIds[i], chain.paraIds[j]);
    }
  }

  /** Reconciling row n extends the invariant to the first n + 1 rows; a row
      seen before is reconciled again to the same record. */
  lemma ParachainStep(
    before: map<string, ParachainInfo>, cur: map<string, ParachainInfo>, rows: seq<ParachainInfo>, n: nat)
    requires n < |rows|
    requires RowsKeyed(rows)
    requires ParachainInfosReconciled(before, cur, rows[..n])
    ensures ParachainInfosReconciled(before, cur[rows[n].id := UpsertParachainInfo(Lookup(cur, rows[n].id), rows[n])], rows[..n + 1])
  {
    var id := rows[n].id;
    var done := RowIds(rows[..n]);
    var v := UpsertParachainInfo(Lookup(cur, id), rows[n]);
    assert v == UpsertParachainInfo(Lookup(before, id), rows[n]) by {
      if id in done {
        var j :| 0 <= j < n && done[j] == id;
        assert rows[..n][j] == rows[j] == rows[n];
        UpsertParachainInfoIdempotent(Lookup(before, id), rows[n]);
      } else {
        assert Lookup(cur, id) == Lookup(before, id);
      }
    }
    var after := cur[id := v];
    var next := rows[..n + 1];
    RowIdsNext(rows, n);
    forall j | 0 <= j < |next|
      ensures next[j].id in after && after[next[j].id] == UpsertParachainInfo(Lookup(before, next[j].id), next[j])
    {
      if j < n {
        assert next[j] == rows[..n][j];
        if next[j].id == id {
          assert next[j] == rows[n];
        }
      }
    }
    forall k | k in before && k !in RowIds(next)
      ensures k in after && after[k] == before[k]
    {
      assert k !in done;
    }
    forall k | k in after
      ensures k in before || k in RowIds(next)
    {
      if k != id && k !in before {
        assert k in done;
      }
    }
  }

  // ---------------------------------------------------------------------
  // Properties of a finished pass

  /** The slot ids of ledger position d below m are the ids that parse to
      such a slot. */
  lemma RowKeysMembership(k: string, d: nat, m: nat)
    ensures k in RowKeys(d, m) <==>
      (ParseValidatorKey(k).Some? && ParseValidatorKey(k).value.0 == d && ParseValidatorKey(k).value.1 < m)
  {
    var rk := RowKeys(d, m);
    if k in rk {
      var i :| 0 <= i < m && rk[i] == k;
      ValidatorKeyRoundTrip(d, i);
    }
    if ParseValidatorKey(k).Some? && ParseValidatorKey(k).value.0 == d && ParseValidatorKey(k).value.1 < m {
      assert rk[ParseValidatorKey(k).value.1] == k;
    }
  }

  /** `handleValidators` saves the id of every fetched slot and no other id. */
  lemma {:induction false} SaveOrderKeys(f: seq<seq<ValidatorInfo>>)
    ensures forall k :: k in SaveOrder(f) <==> IsFetchedKey(k, f)
  {
    if f != [] {
      var n := |f| - 1;
      var g := f[..n];
      SaveOrderKeys(g);
      forall k ensures k in SaveOrder(f) <==> IsFetchedKey(k, f) {
        RowKeysMembership(k, n, |f[n]|);
        var slot := ParseValidatorKey(k);
        if slot.Some? && slot.value.0 < n {
          assert g[slot.value.0] == f[slot.value.0];
        }
      }
    }
  }

  /** Saves of distinct ledger positions never share an id. */
  lemma SaveOrderBelow(f: seq<seq<ValidatorInfo>>, k: string)
    requires k in SaveOrder(f)
    ensures ParseValidatorKey(k).Some? && ParseValidatorKey(k).value.0 < |f|
  {
    SaveOrderKeys(f);
  }

  /** `handleValidators` saves each fetched slot exactly once. */
  lemma {:induction false} SaveOrderDistinct(f: seq<seq<ValidatorInfo>>)
    ensures Distinct(SaveOrder(f))
  {
    if f != [] {
      var n := |f| - 1;
      var a, b := SaveOrder(f[..n]), RowKeys(n, |f[n]|);
      SaveOrderDistinct(f[..n]);
      forall i, j | 0 <= i < j < |a + b| ensures (a + b)[i] != (a + b)[j] {
        if j < |a| {
          assert (a + b)[i] == a[i] && (a + b)[j] == a[j];
        } else if i >= |a| {
          assert (a + b)[i] == b[i - |a|] && (a + b)[j] == b[j - |a|];
        } else {
          SaveOrderBelow(f[..n], a[i]);
          RowKeysMembership(b[j - |a|], n, |f[n]|);
        }
      }
    }
  }

  /** A reconciled store keeps every record it had. */
  lemma ValidatorsNeverRemoved(
    before: map<string, Validator>, after: map<string, Validator>, f: seq<seq<ValidatorInfo>>, blockHeight: nat)
    requires ValidatorsReconciled(before, after, f, blockHeight)
    ensures before.Keys <= after.Keys
  {
    forall k | k in before ensures k in after {
      if IsFetchedKey(k, f) {
        var slot := ParseValidatorKey(k).value;
        assert IsFetchedSlot(f, slot.0, slot.1);
      }
    }
  }

  /** A stored slot at or beyond its ledger's nomination count, or of a
      ledger position not derived in this pass, is left as it was. */
  lemma StaleSlotKept(
    before: map<string, Validator>, after: map<string, Validator>, f: seq<seq<ValidatorInfo>>, blockHeight: nat,
    d: nat, i: nat)
    requires ValidatorsReconciled(before, after, f, blockHeight)
    requires !IsFetchedSlot(f, d, i)
    requires ValidatorKey(d, i) in before
    ensures ValidatorKey(d, i) in after && after[ValidatorKey(d, i)] == before[ValidatorKey(d, i)]
  {
    ValidatorKeyRoundTrip(d, i);
  }

  /** The record of a fetched slot after the pass: commission and stakes as
      fetched; a new record holds every fetched field with derivative index
      d; a stored one is rewritten only when commission or stakes moved. */
  lemma FetchedSlotRecord(
    before: map<string, Validator>, after: map<string, Validator>, f: seq<seq<ValidatorInfo>>, blockHeight: nat,
    d: nat, i: nat)
    requires ValidatorsReconciled(before, after, f, blockHeight)
    requires IsFetchedSlot(f, d, i)
    ensures var k, info := ValidatorKey(d, i), f[d][i];
      && k in after
      && after[k].commission == info.commission && after[k].stakes == info.stakes
      && (k !in before ==> after[k] == Validator(k, d, info.stashId, info.name, info.stakes, info.commission, blockHeight))
      && (k in before && before[k].commission == info.commission && before[k].stakes == info.stakes ==>
            after[k] == before[k])
      && (k in before && (before[k].commission != info.commission || before[k].stakes != info.stakes) ==>
            after[k].name == info.name && after[k].blockHeight == blockHeight && after[k].stashId == before[k].stashId)
  {
  }

  /** A reconciled store keeps every snapshot it had. */
  lemma ParachainInfosNeverRemoved(
    before: map<string, ParachainInfo>, after: map<string, ParachainInfo>, rows: seq<ParachainInfo>)
    requires ParachainInfosReconciled(before, after, rows)
    ensures before.Keys <= after.Keys
  {
    forall k | k in before ensures k in after {
      var ids := RowIds(rows);
      if k in ids {
        var j :| 0 <= j < |ids| && ids[j] == k;
        assert rows[j].id == k;
      }
    }
  }

  /** The snapshot of para id `chain.paraIds[j]` after the pass: keyed by
      block hash and para id, paired with that para's sovereign account and
      its free - miscFrozen balance; the height and time move only when the
      deposit changed. */
  lemma ParachainSnapshotRecord(
    c: Crypto, chain: ChainSnapshot, block: Block,
    before: map<string, ParachainInfo>, after: map<string, ParachainInfo>,
    savesBefore: seq<string>, savesAfter: seq<string>, j: nat)
    requires ParachainPassDone(c, chain, block, before, after, savesBefore, savesAfter)
    requires j < |chain.paraIds|
    ensures var paraId := chain.paraIds[j];
      var k, sovAcc := ParachainKey(block.hash, paraId), SovereignAccountOf(c, paraId);
      var deposited := chain.accountOf(sovAcc).free - chain.accountOf(sovAcc).miscFrozen;
      && k in after
      && after[k].deposited == deposited
      && (k !in before ==> after[k] == ParachainInfo(k, paraId, sovAcc, deposited, block.number, block.timestamp))
      && (k in before && before[k].deposited == deposited ==> after[k] == before[k])
      && (k in before && before[k].deposited != deposited ==>
            after[k].blockHeight == block.number && after[k].timestamp == block.timestamp
            && after[k].sovAcc == before[k].sovAcc)
      && savesAfter[|savesBefore| + j] == k
  {
    var rows := ParachainRows(c, chain, block);
    assert rows[j].id == ParachainKey(block.hash, chain.paraIds[j]);
  }

  /** On a network that is neither Kusama nor Polkadot, the validator pass
      changes and saves nothing. */
  lemma UnknownNetworkValidatorPass(
    c: Crypto, chain: ChainSnapshot, block: Block,
    before: map<string, Validator>, after: map<string, Validator>,
    savesBefore: seq<string>, savesAfter: seq<string>)
    requires !StartsWith(chain.name, "Kusama") && !StartsWith(chain.name, "Polkadot")
    requires ValidatorPassDone(c, chain, block, before, after, savesBefore, savesAfter)
    ensures after == before && savesAfter == savesBefore
  {
    var f := Fetched(chain, []);
    assert f == [];
    forall k ensures !IsFetchedKey(k, f) { }
    assert after.Keys == before.Keys;
  }

  /** Every record is stored under its own id. */
  ghost predicate ValidatorsWellKeyed(m: map<string, Validator>) {
    forall k | k in m :: m[k].id == k
  }

  ghost predicate ParachainInfosWellKeyed(m: map<string, ParachainInfo>) {
    forall k | k in m :: m[k].id == k
  }

  /** The entity store: one map per entity, keyed by id, and the ids passed
      to each entity's `save()`, oldest first. */
  class Store {
    var validators: map<string, Validator>
    var parachainInfos: map<string, ParachainInfo>
    var validatorSaves: seq<string>
    var parachainInfoSaves: seq<string>

    ghost predicate Valid()
      reads this
    {
      ValidatorsWellKeyed(validators) && ParachainInfosWellKeyed(parachainInfos)
    }

    constructor ()
      ensures Valid()
      ensures validators == map[] && parachainInfos == map[]
      ensures validatorSaves == [] && parachainInfoSaves == []
    {
      validators, parachainInfos := map[], map[];
      validatorSaves, parachainInfoSaves := [], [];
    }

    /** `Validator.get(id)`. */
    method GetValidator(id: string) returns (r: Option<Validator>)
      requires Valid()
      ensures r == Lookup(validators, id)
      ensures r.Some? ==> r.value.id == id
    {
      r := if id in validators then Some(validators[id]) else None;
    }

    /** `validator.save()`: stores the record under its id, replacing any. */
    method SaveValidator(v: Validator)
      requires Valid()
      modifies this
      ensures Valid()
      ensures validators == old(validators)[v.id := v]
      ensures validatorSaves == old(validatorSaves) + [v.id]
      ensures parachainInfos == old(parachainInfos) && parachainInfoSaves == old(parachainInfoSaves)
    {
      validators := validators[v.id := v];
      validatorSaves := validatorSaves + [v.id];
    }

    /** `ParachainInfo.get(id)`. */
    method GetParachainInfo(id: string) returns (r: Option<ParachainInfo>)
      requires Valid()
      ensures r == Lookup(parachainInfos, id)
      ensures r.Some? ==> r.value.id == id
    {
      r := if id in parachainInfos then Some(parachainInfos[id]) else None;
    }

    /** `info.save()`: stores the record under its id, replacing any. */
    method SaveParachainInfo(info: ParachainInfo)
      requires Valid()
      modifies this
      ensures Valid()
      ensures parachainInfos == old(parachainInfos)[info.id := info]
      ensures parachainInfoSaves == old(parachainInfoSaves) + [info.id]
      ensures validators == old(validators) && validatorSaves == old(validatorSaves)
    {
      parachainInfos := parachainInfos[info.id := info];
      parachainInfoSaves := parachainInfoSaves + [info.id];
    }

    /** One pass of the inner loop of `handleValidators`: get or create the
        record of slot (d, i), update it if commission or stakes changed, save it. */
    method ReconcileSlot(
      ghost before: map<string, Validator>, ghost f: seq<seq<ValidatorInfo>>, ghost savesStart: seq<string>,
      d: nat, i: nat, info: ValidatorInfo, blockHeight: nat)
      requires d < |f| && i < |f[d]| && info == f[d][i]
      requires Valid()
      requires ValidatorsUpTo(before, validators, f, blockHeight, d, i)
      requires validatorSaves == savesStart + RowKeys(d, i)
      modifies this
      ensures Valid()
      ensures ValidatorsUpTo(before, validators, f, blockHeight, d, i + 1)
      ensures validatorSaves == savesStart + RowKeys(d, i + 1)
      ensures parachainInfos == old(parachainInfos) && parachainInfoSaves == old(parachainInfoSaves)
    {
      var props := Validator(ValidatorKey(d, i), d, info.stashId, info.name, info.stakes, info.commission, blockHeight);
      var existing := GetValidator(props.id);
      var validator := if existing.Some? then existing.value else props;
      if validator.commission != props.commission || validator.stakes != props.stakes || validator.name != validator.name {
        validator := validator.(commission := props.commission, stakes := props.stakes,
                                name := props.name, blockHeight := blockHeight);
      }
      UnwalkedSlotUntouched(before, validators, f, d, i);
      SlotsUpsertedStep(before, validators, f, blockHeight, d, i, validator);
      OthersKeptStep(before, validators, f, d, i, validator);
      AppendAssoc(savesStart, RowKeys(d, i), ValidatorKey(d, i));
      SaveValidator(validator);
    }

    /** One pass of the loop of `handleParachainInfos`: get or create the
        snapshot `props.id`, refresh it if the deposit changed, save it. */
    method ReconcileParachain(
      ghost before: map<string, ParachainInfo>, ghost rows: seq<ParachainInfo>, n: nat, props: ParachainInfo)
      requires n < |rows| && props == rows[n]
      requires RowsKeyed(rows)
      requires Valid()
      requires ParachainInfosReconciled(before, parachainInfos, rows[..n])
      modifies this
      ensures Valid()
      ensures ParachainInfosReconciled(before, parachainInfos, rows[..n + 1])
      ensures parachainInfoSaves == old(parachainInfoSaves) + [props.id]
      ensures validators == old(validators) && validatorSaves == old(validatorSaves)
    {
      var existing := GetParachainInfo(props.id);
      var info := if existing.Some? then existing.value else props;
      if info.deposited != props.deposited {
        info := info.(deposited := props.deposited, blockHeight := props.blockHeight, timestamp := props.timestamp);
      }
      ParachainStep(before, parachainInfos, rows, n);
      SaveParachainInfo(info);
    }

    /** The inner loop of `handleValidators` over the validators nominated
        by the ledger at position d. */
    method ReconcileLedger(
      ghost before: map<string, Validator>, ghost f: seq<seq<ValidatorInfo>>,
      d: nat, validatorInfos: seq<ValidatorInfo>, blockHeight: nat)
      requires d < |f| && validatorInfos == f[d]
      requires Valid()
      requires ValidatorsUpTo(before, validators, f, blockHeight, d, 0)
      modifies this
      ensures Valid()
      ensures ValidatorsUpTo(before, validators, f, blockHeight, d, |f[d]|)
      ensures validatorSaves == old(validatorSaves) + RowKeys(d, |f[d]|)
      ensures parachainInfos == old(parachainInfos) && parachainInfoSaves == old(parachainInfoSaves)
    {
      var idx := 0;
      while idx < |validatorInfos|
        invariant 0 <= idx <= |validatorInfos|
        invariant Valid()
        invariant ValidatorsUpTo(before, validators, f, blockHeight, d, idx)
        invariant validatorSaves == old(validatorSaves) + RowKeys(d, idx)
        invariant parachainInfos == old(parachainInfos) && parachainInfoSaves == old(parachainInfoSaves)
      {
        ReconcileSlot(before, f, old(validatorSaves), d, idx, validatorInfos[idx], blockHeight);
        idx := idx + 1;
      }
    }

    /** The outer loop of `handleValidators` over the staking ledgers, by
        ledger position (the derivative index). */
    method ReconcileLedgers(chain: ChainSnapshot, stakingLedgers: seq<string>, blockHeight: nat)
      requires Valid()
      modifies this
      ensures Valid()
      ensures ValidatorsReconciled(old(validators), validators, Fetched(chain, stakingLedgers), blockHeight)
      ensures validatorSaves == old(validatorSaves) + SaveOrder(Fetched(chain, stakingLedgers))
      ensures parachainInfos == old(parachainInfos) && parachainInfoSaves == old(parachainInfoSaves)
    {
      ghost var f := Fetched(chain, stakingLedgers);
      var derivativeIndex := 0;
      while derivativeIndex < |stakingLedgers|
        invariant 0 <= derivativeIndex <= |stakingLedgers|
        invariant Valid()
        invariant ValidatorsUpTo(old(validators), validators, f, blockHeight, derivativeIndex, 0)
        invariant validatorSaves == old(validatorSaves) + SaveOrder(f[..derivativeIndex])
        invariant parachainInfos == old(parachainInfos) && parachainInfoSaves == old(parachainInfoSaves)
      {
        var validatorInfos := GetValidatorInfos(chain, stakingLedgers[derivativeIndex]);
        ReconcileLedger(old(validators), f, derivativeIndex, validatorInfos, blockHeight);
        LedgerDone(old(validators), validators, f, blockHeight, derivativeIndex, old(validatorSaves), validatorSaves);
        derivativeIndex := derivativeIndex + 1;
      }
      WholePrefix(f);
      ValidatorWalkDone(old(validators), validators, f, blockHeight);
    }

    /** `handleValidators(block)`: for each staking ledger and each validator
        it nominates, get or create the record of that slot, update it if
        commission or stakes changed, and save it. Throws (`Fail`) before
        writing anything if the ledgers cannot be derived. */
    method HandleValidators(c: Crypto, chain: ChainSnapshot, block: Block) returns (outcome: Outcome<DerivationError>)
      requires Valid()
      modifies this
      ensures Valid()
      ensures ValidatorPassDone(c, chain, block, old(validators), validators, old(validatorSaves), validatorSaves)
      ensures outcome == match StakingLedgers(c, chain.name) case Failure(e) => Fail(e) case Success(_) => Pass
      ensures parachainInfos == old(parachainInfos) && parachainInfoSaves == old(parachainInfoSaves)
    {
      var ledgers := StakingLedgers(c, chain.name);
      if ledgers.Failure? {
        return Fail(ledgers.error);
      }
      ReconcileLedgers(chain, ledgers.value, block.number);
      outcome := Pass;
    }

    /** `handleParachainInfos(block)`: for each registered para id, get or
        create the snapshot keyed by block hash and para id, refresh it if
        the deposit changed, and save it. */
    method HandleParachainInfos(c: Crypto, chain: ChainSnapshot, block: Block)
      requires Valid()
      modifies this
      ensures Valid()
      ensures ParachainPassDone(c, chain, block, old(parachainInfos), parachainInfos, old(parachainInfoSaves), parachainInfoSaves)
      ensures validators == old(validators) && validatorSaves == old(validatorSaves)
    {
      var paraIds := chain.paraIds;
      var sovereignAccounts := GetSovereignAccounts(c, paraIds);
      var availableBalances := GetAvailableBalances(chain, sovereignAccounts);
      var blockHeight := block.number;
      ghost var rows := ParachainRows(c, chain, block);
      ParachainRowsKeyed(c, chain, block);
      var idx := 0;
      while idx < |paraIds|
        invariant 0 <= idx <= |paraIds|
        invariant Valid()
        invariant ParachainInfosReconciled(old(parachainInfos), parachainInfos, rows[..idx])
        invariant parachainInfoSaves == old(parachainInfoSaves) + RowIds(rows[..idx])
        invariant validators == old(validators) && validatorSaves == old(validatorSaves)
      {
        var paraId := paraIds[idx];
        var props := ParachainInfo(ParachainKey(block.hash, paraId), paraId, sovereignAccounts[idx],
                                   availableBalances[idx], blockHeight, block.timestamp);
        ParachainRowAt(c, chain, block, sovereignAccounts, availableBalances, idx);
        ReconcileParachain(old(parachainInfos), rows, idx, props);
        RowIdsNext(rows, idx);
        AppendAssoc(old(parachainInfoSaves), RowIds(rows[..idx]), rows[idx].id);
        idx := idx + 1;
      }
      WholePrefix(rows);
    }

    /** `handleBlock(block)`: at sampled heights, both reconciliations run to
        completion (a throw from the validator pass is logged and does not
        stop the parachain pass); at other heights nothing happens. */
    method HandleBlock(c: Crypto, chain: ChainSnapshot, block: Block)
      requires Valid()
      modifies this
      ensures Valid()
      ensures !IsSampled(block.number) ==>
        && validators == old(validators) && validatorSaves == old(validatorSaves)
        && parachainInfos == old(parachainInfos) && parachainInfoSaves == old(parachainInfoSaves)
      ensures IsSampled(block.number) ==>
        && ValidatorPassDone(c, chain, block, old(validators), validators, old(validatorSaves), validatorSaves)
        && ParachainPassDone(c, chain, block, old(parachainInfos), parachainInfos, old(parachainInfoSaves), parachainInfoSaves)
    {
      var blockNumber := block.number;
      if blockNumber % SampleInterval != 0 {
        return;
      }
      var _ := HandleValidators(c, chain, block);
      HandleParachainInfos(c, chain, block);
    }
  }
}
