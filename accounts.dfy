/** Account records: building one from the fetched chain state, and refreshing an existing
    one in place, writing it back only when something changed. The entity store is a class
    holding the saved accounts and the log of writes issued against it. */
module Accounts {
  import opened Results
  import opened Text
  import opened Codec
  import opened Types

  /** What an account's `nonce` field holds: a JavaScript number, or the `Index` codec object
      the chain query returned, which is not a number and is never `isEqual` to one. */
  datatype NonceValue = JsValue(number: JsNumber) | IndexCodec(index: nat)

  datatype AccountRecord = AccountRecord(
    id: string,
    nonce: NonceValue,
    freeBalance: nat,
    reservedBalance: nat,
    miscFrozenBalance: nat,
    feeFrozenBalance: nat,
    createdAt: nat)

  /** `Number(nonce.toString())` of the fetched `Index`: the decimal text reads back as the index. */
  function NonceNumber(index: nat): (r: NonceValue)
    ensures r == JsValue(Finite(index))
  {
    DecimalRoundTrip(index);
    JsValue(ParseNumber(Decimal(index)))
  }

  /** The chain-derived fields of a record hold the fetched state. */
  predicate Reflects(r: AccountRecord, s: AccountState) {
    r.nonce == JsValue(Finite(s.nonce)) && r.freeBalance == s.free && r.reservedBalance == s.reserved &&
    r.miscFrozenBalance == s.miscFrozen && r.feeFrozenBalance == s.feeFrozen
  }

  /** handleAccount: a new record for `accountId` from its fetched state, created at the block's
      timestamp. `creatorId` is accepted and not used. */
  function HandleAccount(accountId: string, block: BlockEntity, creatorId: Option<string>,
                         getAccount: string -> AccountState): (r: AccountRecord)
    ensures r.id == accountId && r.createdAt == block.timestamp
    ensures Reflects(r, getAccount(accountId))
  {
    var s := getAccount(accountId);
    AccountRecord(accountId, NonceNumber(s.nonce), s.free, s.reserved, s.miscFrozen, s.feeFrozen, block.timestamp)
  }

  /** The creator id has no effect on the created record. */
  lemma HandleAccountIgnoresCreator(accountId: string, block: BlockEntity, c1: Option<string>, c2: Option<string>,
                                    getAccount: string -> AccountState)
    ensures HandleAccount(accountId, block, c1, getAccount) == HandleAccount(accountId, block, c2, getAccount)
  {
  }

  /** tryUpdateAccount's overwrite, with the nonce stored as a number as handleAccount stores it. */
  function Updated(prev: AccountRecord, s: AccountState): (r: AccountRecord)
    ensures Reflects(r, s)
    ensures r.id == prev.id && r.createdAt == prev.createdAt
    ensures r == prev <==> Reflects(prev, s)
  {
    prev.(nonce := NonceNumber(s.nonce), freeBalance := s.free, reservedBalance := s.reserved,
          miscFrozenBalance := s.miscFrozen, feeFrozenBalance := s.feeFrozen)
  }

  /** A second refresh against the same state changes nothing, so it issues no save. */
  lemma UpdatedIdempotent(prev: AccountRecord, s: AccountState)
    ensures Updated(Updated(prev, s), s) == Updated(prev, s)
  {
  }

  /** tryUpdateAccount's overwrite as written: `account.nonce = nonce` stores the codec object. */
  function UpdatedAsWritten(prev: AccountRecord, s: AccountState): (r: AccountRecord)
    ensures r.id == prev.id && r.createdAt == prev.createdAt
    ensures r.nonce == IndexCodec(s.nonce)
  {
    prev.(nonce := IndexCodec(s.nonce), freeBalance := s.free, reservedBalance := s.reserved,
          miscFrozenBalance := s.miscFrozen, feeFrozenBalance := s.feeFrozen)
  }

  /** As written, a stored account (whose nonce is a number) never equals its refreshed copy,
      even when the fetched state is exactly what it already holds: every existing account
      touched by a block is saved again. (`isEqual` of the plain-object copy against the entity
      instance fails too, on their constructors; records carry no constructor, so this lemma
      shows the nonce cause alone.) */
  lemma AsWrittenAlwaysSaves(prev: AccountRecord, s: AccountState)
    requires prev.nonce.JsValue?
    requires Reflects(prev, s)
    ensures Updated(prev, s) == prev
    ensures UpdatedAsWritten(prev, s) != prev
  {
  }

  /** One write issued against the entity store. */
  datatype Write =
    | BlockSaved(block: BlockEntity)
    | AccountSaved(account: AccountRecord)
    | AccountsCreated(accounts: seq<AccountRecord>)
    | ExtrinsicsCreated(extrinsics: seq<ExtrinsicEntity>)
    | CallsCreated(calls: seq<CallEntity>)
    | EventsCreated(events: seq<EventEntity>)
    | SystemTokenTransfersCreated(systemTransfers: seq<SystemTokenTransfer>)
    | UpwardMessagesCreated(messages: seq<UpwardMessage>)
    | AppchainToNearTransfersCreated(outbound: seq<AppchainToNearTransfer>)
    | NearToAppchainTransfersCreated(inbound: seq<NearToAppchainTransfer>)

  /** `records` stored in order, each under its id; a later record replaces an earlier one. */
  function PutAll(accounts: map<string, AccountRecord>, records: seq<AccountRecord>): (r: map<string, AccountRecord>)
    ensures r.Keys == accounts.Keys + set i | 0 <= i < |records| :: records[i].id
  {
    if records == [] then accounts
    else
      var n := |records| - 1;
      var prefix := PutAll(accounts, records[..n]);
      assert (set i | 0 <= i < |records| :: records[i].id) ==
             (set i | 0 <= i < n :: records[..n][i].id) + {records[n].id};
      prefix[records[n].id := records[n]]
  }

  /** Storing records under their own ids keeps every stored record under its own id. */
  lemma {:induction false} PutAllKeepsIds(accounts: map<string, AccountRecord>, records: seq<AccountRecord>)
    requires forall k :: k in accounts ==> accounts[k].id == k
    ensures forall k :: k in PutAll(accounts, records) ==> PutAll(accounts, records)[k].id == k
  {
    if records != [] {
      var n := |records| - 1;
      PutAllKeepsIds(accounts, records[..n]);
      assert PutAll(accounts, records) == PutAll(accounts, records[..n])[records[n].id := records[n]];
    }
  }

  /** The entity store: the saved accounts by id, and every write issued, in order. */
  class Store {
    var accounts: map<string, AccountRecord>
    var log: seq<Write>

    /** Every account is stored under its own id. */
    predicate Valid()
      reads this
    {
      forall k :: k in accounts ==> accounts[k].id == k
    }

    constructor ()
      ensures Valid() && accounts == map[] && log == []
    {
      accounts := map[];
      log := [];
    }

    /** `Account.get(id)`: a fresh entity loaded from the stored record, or nothing. */
    method GetAccount(id: string) returns (a: Account?)
      requires Valid()
      ensures a == null <==> id !in accounts
      ensures a != null ==> fresh(a) && a.Snapshot() == accounts[id] && a.id == id
    {
      if id in accounts {
        a := new Account.FromRecord(accounts[id]);
      } else {
        a := null;
      }
    }

    /** `entity.save()` of an account. */
    method SaveAccount(record: AccountRecord)
      modifies this
      ensures accounts == old(accounts)[record.id := record]
      ensures log == old(log) + [AccountSaved(record)]
    {
      accounts := accounts[record.id := record];
      log := log + [AccountSaved(record)];
    }

    /** `store.bulkCreate("Account", records)` */
    method CreateAccounts(records: seq<AccountRecord>)
      requires Valid()
      modifies this
      ensures Valid()
      ensures accounts == PutAll(old(accounts), records)
      ensures log == old(log) + [AccountsCreated(records)]
    {
      PutAllKeepsIds(accounts, records);
      accounts := PutAll(accounts, records);
      log := log + [AccountsCreated(records)];
    }

    /** A save or bulk create of any other entity kind; the accounts are untouched. */
    method Issue(w: Write)
      requires !w.AccountSaved? && !w.AccountsCreated?
      modifies this
      ensures accounts == old(accounts)
      ensures log == old(log) + [w]
    {
      log := log + [w];
    }
  }

  /** An account entity, whose fields `tryUpdateAccount` overwrites in place. */
  class Account {
    var id: string
    var nonce: NonceValue
    var freeBalance: nat
    var reservedBalance: nat
    var miscFrozenBalance: nat
    var feeFrozenBalance: nat
    var createdAt: nat

    /** `{ ...account }`: a copy of the entity's fields. */
    function Snapshot(): AccountRecord
      reads this
    {
      AccountRecord(id, nonce, freeBalance, reservedBalance, miscFrozenBalance, feeFrozenBalance, createdAt)
    }

    constructor FromRecord(r: AccountRecord)
      ensures Snapshot() == r
    {
      id := r.id;
      nonce := r.nonce;
      freeBalance := r.freeBalance;
      reservedBalance := r.reservedBalance;
      miscFrozenBalance := r.miscFrozenBalance;
      feeFrozenBalance := r.feeFrozenBalance;
      createdAt := r.createdAt;
    }

    /** `account.save()` */
    method Save(store: Store)
      modifies store
      ensures store.accounts == old(store.accounts)[id := Snapshot()]
      ensures store.log == old(store.log) + [AccountSaved(Snapshot())]
    {
      store.SaveAccount(Snapshot());
    }
  }

  /** tryUpdateAccount: overwrites the nonce and the four balances with the fetched state and
      saves the account only if it now differs from its snapshot. */
  method TryUpdateAccount(account: Account, block: BlockEntity, getAccount: string -> AccountState, store: Store)
    modifies account, store
    ensures account.Snapshot() == Updated(old(account.Snapshot()), getAccount(old(account.id)))
    ensures Reflects(account.Snapshot(), getAccount(old(account.id)))
    ensures account.id == old(account.id) && account.createdAt == old(account.createdAt)
    ensures store.accounts == if Reflects(old(account.Snapshot()), getAccount(old(account.id)))
                              then old(store.accounts)
                              else old(store.accounts)[account.id := account.Snapshot()]
    ensures store.log == if Reflects(old(account.Snapshot()), getAccount(old(account.id)))
                         then old(store.log)
                         else old(store.log) + [AccountSaved(account.Snapshot())]
  {
    var prevAccount := account.Snapshot();
    var s := getAccount(account.id);
    account.nonce := NonceNumber(s.nonce);
    account.freeBalance := s.free;
    account.reservedBalance := s.reserved;
    account.miscFrozenBalance := s.miscFrozen;
    account.feeFrozenBalance := s.feeFrozen;
    assert account.Snapshot() == Updated(prevAccount, s);
    if prevAccount != account.Snapshot() {
      account.Save(store);
    }
  }
}
