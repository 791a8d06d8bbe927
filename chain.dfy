/** The chain-query helpers of src/mappings/utils.ts, over a snapshot of the
    chain state those queries would read. The queries themselves are network
    I/O; a `ChainSnapshot` holds what they return. */
module Chain {
  import opened Wrappers
  import opened Bytes
  import opened Decimal
  import opened Address

  /** `system.account(..).data`: the balances an account holds. */
  datatype AccountData = AccountData(free: nat, miscFrozen: nat)

  /** `identity.superOf(account)`: the parent account and the raw bytes of
      the sub-identity's name data, read as a little-endian number. */
  datatype SubIdentity = SubIdentity(parent: string, rawIndex: seq<Byte>)

  /** The identity pallet: display names of accounts with a direct identity,
      and sub-identity links. */
  datatype IdentityRegistry = IdentityRegistry(
    identityOf: map<string, string>,
    superOf: map<string, SubIdentity>)

  /** What `getValidatorInfos` fetches for one nominated validator. */
  datatype ValidatorInfo = ValidatorInfo(stashId: string, name: string, stakes: nat, commission: nat)

  /** The chain state the indexer queries at one block. Accounts the chain
      has no entry for read as the chain's defaults, so balances, stakes and
      commissions are total functions. */
  datatype ChainSnapshot = ChainSnapshot(
    name: string,                              // system.chain
    paraIds: seq<ParaId>,                      // paras.parachains
    accountOf: string -> AccountData,          // system.account
    nominators: map<string, seq<string>>,      // staking.nominators(..).targets
    identities: IdentityRegistry,              // identity.identityOf / superOf
    stakesOf: string -> nat,                   // staking.erasStakersClipped(currentEra, v).total
    commissionOf: string -> nat)               // staking.validators(v).commission

  /** `getIdentity(account)`: the display name, resolved at most one hop. */
  function GetIdentity(reg: IdentityRegistry, account: string): (r: string)
    ensures account in reg.identityOf ==> r == reg.identityOf[account]
    ensures account !in reg.identityOf && account in reg.superOf && reg.superOf[account].parent in reg.identityOf ==>
      var sub := reg.superOf[account];
      r == reg.identityOf[sub.parent] + "/" + NatToDecimal(FromLittleEndian(sub.rawIndex))
    ensures account !in reg.identityOf && (account !in reg.superOf || reg.superOf[account].parent !in reg.identityOf) ==>
      r == ""
  {
    if account in reg.identityOf then
      reg.identityOf[account]
    else if account in reg.superOf && reg.superOf[account].parent in reg.identityOf then
      var sub := reg.superOf[account];
      reg.identityOf[sub.parent] + "/" + NatToDecimal(FromLittleEndian(sub.rawIndex))
    else
      ""
  }

  /** Resolution does not follow a second hop: a sub-identity whose parent
      is itself only a sub-identity resolves to the empty name, even when the
      grandparent has a display name, while the parent resolves through it. */
  lemma IdentityIsOneHop(reg: IdentityRegistry, account: string)
    requires account !in reg.identityOf && account in reg.superOf
    requires reg.superOf[account].parent !in reg.identityOf
    requires reg.superOf[account].parent in reg.superOf
    requires reg.superOf[reg.superOf[account].parent].parent in reg.identityOf
    ensures GetIdentity(reg, account) == ""
    ensures GetIdentity(reg, reg.superOf[account].parent) != ""
  {
    var parent := reg.superOf[account].parent;
    var sub := reg.superOf[parent];
    assert |GetIdentity(reg, parent)| >= |reg.identityOf[sub.parent] + "/"|;
  }

  /** Two sub-identities of one parent with different indices resolve to
      different names. */
  lemma SubIdentityNamesDistinct(reg: IdentityRegistry, a: string, b: string)
    requires a !in reg.identityOf && b !in reg.identityOf
    requires a in reg.superOf && b in reg.superOf
    requires reg.superOf[a].parent == reg.superOf[b].parent && reg.superOf[a].parent in reg.identityOf
    requires FromLittleEndian(reg.superOf[a].rawIndex) != FromLittleEndian(reg.superOf[b].rawIndex)
    ensures GetIdentity(reg, a) != GetIdentity(reg, b)
  {
    var prefix := reg.identityOf[reg.superOf[a].parent] + "/";
    var ia, ib := FromLittleEndian(reg.superOf[a].rawIndex), FromLittleEndian(reg.superOf[b].rawIndex);
    if GetIdentity(reg, a) == GetIdentity(reg, b) {
      assert prefix + NatToDecimal(ia) == prefix + NatToDecimal(ib);
      assert NatToDecimal(ia) == (prefix + NatToDecimal(ia))[|prefix|..];
      assert NatToDecimal(ib) == (prefix + NatToDecimal(ib))[|prefix|..];
      DecimalInjective(ia, ib);
    }
  }

  /** The balance of an account not frozen for miscellaneous use: together
      with the frozen part it makes up the free balance, so it is negative
      exactly when more is frozen than is free. */
  function Available(data: AccountData): (r: int)
    ensures r + data.miscFrozen == data.free
    ensures r <= data.free
    ensures r < 0 <==> data.free < data.miscFrozen
  {
    data.free - data.miscFrozen
  }

  /** `getAvailableBalances(accounts)`: free - miscFrozen per account, in order. */
  function GetAvailableBalances(chain: ChainSnapshot, accounts: seq<string>): (r: seq<int>)
    ensures |r| == |accounts|
    ensures forall i | 0 <= i < |accounts| ::
      r[i] == chain.accountOf(accounts[i]).free - chain.accountOf(accounts[i]).miscFrozen
  {
    if accounts == [] then []
    else [Available(chain.accountOf(accounts[0]))] + GetAvailableBalances(chain, accounts[1..])
  }

  /** What `getValidatorInfos` fetches for each of `targets`, in order. */
  function InfosOf(chain: ChainSnapshot, targets: seq<string>): (r: seq<ValidatorInfo>)
    ensures |r| == |targets|
    ensures forall i | 0 <= i < |targets| ::
      r[i] == ValidatorInfo(targets[i], GetIdentity(chain.identities, targets[i]),
                            chain.stakesOf(targets[i]), chain.commissionOf(targets[i]))
  {
    if targets == [] then []
    else
      var v := targets[0];
      [ValidatorInfo(v, GetIdentity(chain.identities, v), chain.stakesOf(v), chain.commissionOf(v))]
        + InfosOf(chain, targets[1..])
  }

  /** `getValidatorInfos(nominator)`: nothing for an account that does not
      nominate, else one entry per nomination target. */
  function GetValidatorInfos(chain: ChainSnapshot, nominator: string): (r: seq<ValidatorInfo>)
    ensures nominator !in chain.nominators ==> r == []
    ensures nominator in chain.nominators ==> |r| == |chain.nominators[nominator]|
    ensures nominator in chain.nominators ==>
      forall i | 0 <= i < |r| ::
        var v := chain.nominators[nominator][i];
        r[i] == ValidatorInfo(v, GetIdentity(chain.identities, v), chain.stakesOf(v), chain.commissionOf(v))
  {
    if nominator !in chain.nominators then [] else InfosOf(chain, chain.nominators[nominator])
  }
}
