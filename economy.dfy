// The virtual-currency ledger (src/economy/economySystem.ts). The store keeps the wallets and
// the currencies as serialized arrays under the keys 'wallets' and 'currencies', and the
// transactions as a collection keyed by id; every read deserializes a fresh copy. The ids that
// the source draws from uuidv4 come from one counter, and `new Date()` is the `now` parameter.
module Economy {
  import opened Wrappers
  import opened Seqs
  import opened JsMaps
  import opened KernelTypes

  datatype EcError =
    | SourceNotFound(source: WalletId)
    | DestinationNotFound(destination: WalletId)
    | InsufficientBalance
    | NonPositiveAmount
    | WalletNotFound(wallet: WalletId)
    | CurrencyNotFound(currency: CurrencyId)

  /** What createWallet seeds in the system currency. */
  const InitialBalance := 1000

  /** The stored OmniCoin's initial supply. */
  const SystemSupply := 1000000000

  // ---------------------------------------------------------------------------
  // Serialization
  // ---------------------------------------------------------------------------

  /** serializeWallet: the wallet with its balances `Map` as the array of its entries. */
  datatype StoredWallet = StoredWallet(
    id: WalletId,
    ownerId: string,
    balances: seq<(CurrencyId, int)>,
    transactions: seq<TxId>,
    createdAt: int)

  /** serializeCurrency: the currency with its exchange rates as the array of their entries. */
  datatype StoredCurrency = StoredCurrency(
    id: CurrencyId,
    name: string,
    symbol: string,
    issuer: string,
    totalSupply: int,
    circulatingSupply: int,
    decimals: int,
    isSystemCurrency: bool,
    exchangeRates: seq<(CurrencyId, real)>)

  function SerializeWallet(w: Wallet): StoredWallet {
    StoredWallet(w.id, w.ownerId, w.balances.entries, w.transactions, w.createdAt)
  }

  /** deserializeWallet: `new Map(data.balances)`. */
  function DeserializeWallet(s: StoredWallet): Wallet {
    Wallet(s.id, s.ownerId, FromEntries(s.balances), s.transactions, s.createdAt)
  }

  function SerializeCurrency(c: Currency): StoredCurrency {
    StoredCurrency(c.id, c.name, c.symbol, c.issuer, c.totalSupply, c.circulatingSupply, c.decimals,
                   c.isSystemCurrency, c.exchangeRates.entries)
  }

  function DeserializeCurrency(s: StoredCurrency): Currency {
    Currency(s.id, s.name, s.symbol, s.issuer, s.totalSupply, s.circulatingSupply, s.decimals,
             s.isSystemCurrency, FromEntries(s.exchangeRates))
  }

  /** A wallet read back from the store is the wallet that was saved. */
  lemma WalletRoundTrip(w: Wallet)
    requires UniqueKeys(w.balances)
    ensures DeserializeWallet(SerializeWallet(w)) == w
  {
    FromEntriesOfUnique(w.balances);
  }

  lemma CurrencyRoundTrip(c: Currency)
    requires UniqueKeys(c.exchangeRates)
    ensures DeserializeCurrency(SerializeCurrency(c)) == c
  {
    FromEntriesOfUnique(c.exchangeRates);
  }

  // ---------------------------------------------------------------------------
  // The 'wallets' array
  // ---------------------------------------------------------------------------

  function HasWalletId(id: WalletId): StoredWallet -> bool {
    (w: StoredWallet) => w.id == id
  }

  /** `walletsData.findIndex(w => w.id === id)`. */
  function WalletIndex(ws: seq<StoredWallet>, id: WalletId): Option<nat> {
    FindIndex(ws, HasWalletId(id))
  }

  /** getWallet's `walletsData.find(w => w.id === walletId)`. */
  function Lookup(ws: seq<StoredWallet>, id: WalletId): Option<StoredWallet> {
    match WalletIndex(ws, id)
    case None => None
    case Some(i) => Some(ws[i])
  }

  /** A stored wallet is found by its id. */
  lemma LookupFindsStored(ws: seq<StoredWallet>, w: StoredWallet)
    requires w in ws
    ensures Lookup(ws, w.id).Some?
  {
    var j :| 0 <= j < |ws| && ws[j] == w;
    assert HasWalletId(w.id)(ws[j]);
  }

  /** getWalletByOwner's `walletsData.find(w => w.ownerId === ownerId)`. */
  function LookupByOwner(ws: seq<StoredWallet>, ownerId: string): (r: Option<StoredWallet>)
    ensures r.None? <==> forall j :: 0 <= j < |ws| ==> ws[j].ownerId != ownerId
    ensures r.Some? ==> r.value in ws && r.value.ownerId == ownerId
  {
    if |ws| == 0 then None
    else if ws[0].ownerId == ownerId then Some(ws[0])
    else
      assert forall j :: 0 < j < |ws| ==> ws[j] == ws[1..][j - 1];
      LookupByOwner(ws[1..], ownerId)
  }

  /** saveWallet: replace the record with the same id, or push it when there is none. */
  function Put(ws: seq<StoredWallet>, s: StoredWallet): seq<StoredWallet> {
    match WalletIndex(ws, s.id)
    case None => ws + [s]
    case Some(i) => ws[i := s]
  }

  /** After saving, the saved record is what a read by its id finds; reads of other ids are unchanged. */
  lemma PutLookup(ws: seq<StoredWallet>, s: StoredWallet, id: WalletId)
    ensures Lookup(Put(ws, s), id) == if id == s.id then Some(s) else Lookup(ws, id)
  {
    var ws' := Put(ws, s);
    match WalletIndex(ws, s.id)
    case None =>
      if id == s.id {
        FindIndexIs(ws', HasWalletId(id), |ws|);
      } else {
        match WalletIndex(ws, id)
        case None => assert WalletIndex(ws', id) == None;
        case Some(p) => FindIndexIs(ws', HasWalletId(id), p);
      }
    case Some(i) =>
      if id == s.id {
        FindIndexIs(ws', HasWalletId(id), i);
      } else {
        match WalletIndex(ws, id)
        case None => assert WalletIndex(ws', id) == None;
        case Some(p) => FindIndexIs(ws', HasWalletId(id), p);
      }
  }

  /** Saving a wallet under a new id keeps every stored record and appends the new one. */
  lemma PutNew(ws: seq<StoredWallet>, s: StoredWallet)
    requires Lookup(ws, s.id).None?
    ensures Put(ws, s) == ws + [s]
  {
  }

  /** Every record of a saved array is either the saved one or one that was there before. */
  lemma PutMembers(ws: seq<StoredWallet>, s: StoredWallet)
    ensures forall j :: 0 <= j < |Put(ws, s)| ==> Put(ws, s)[j] == s || Put(ws, s)[j] in ws
  {
  }

  /** A first wallet of an owner, saved under a fresh id, is the one getWalletByOwner finds. */
  lemma PutNewOwner(ws: seq<StoredWallet>, s: StoredWallet)
    requires Lookup(ws, s.id).None? && LookupByOwner(ws, s.ownerId).None?
    ensures LookupByOwner(Put(ws, s), s.ownerId) == Some(s)
  {
    PutNew(ws, s);
    var ws' := ws + [s];
    assert forall j :: 0 <= j < |ws| ==> ws'[j] == ws[j];
    LookupByOwnerLast(ws, s);
  }

  lemma {:induction false} LookupByOwnerLast(ws: seq<StoredWallet>, s: StoredWallet)
    requires LookupByOwner(ws, s.ownerId).None?
    ensures LookupByOwner(ws + [s], s.ownerId) == Some(s)
  {
    if |ws| > 0 {
      assert (ws + [s])[1..] == ws[1..] + [s];
      LookupByOwnerLast(ws[1..], s);
    }
  }

  // ---------------------------------------------------------------------------
  // Balances
  // ---------------------------------------------------------------------------

  /** `wallet.balances.get(currencyId) || 0`. */
  function Balance(w: Wallet, c: CurrencyId): int {
    Get(w.balances, c).GetOr(0)
  }

  /** The balance a read of the stored wallet `id` reports, when it exists. */
  function StoredBalance(ws: seq<StoredWallet>, id: WalletId, c: CurrencyId): (r: Option<int>)
    ensures r.Some? <==> Lookup(ws, id).Some?
  {
    match Lookup(ws, id)
    case None => None
    case Some(s) => Some(Balance(DeserializeWallet(s), c))
  }

  /** The transaction ids a read of the stored wallet `id` reports, when it exists. */
  function StoredHistory(ws: seq<StoredWallet>, id: WalletId): (r: Option<seq<TxId>>)
    ensures r.Some? <==> Lookup(ws, id).Some?
  {
    match Lookup(ws, id)
    case None => None
    case Some(s) => Some(s.transactions)
  }

  /** `balances.set(c, amount)` on a wallet. */
  function WithBalance(w: Wallet, c: CurrencyId, amount: int): Wallet {
    w.(balances := Set(w.balances, c, amount))
  }

  /** `wallet.transactions.push(tx)`. */
  function Recorded(w: Wallet, tx: TxId): Wallet {
    w.(transactions := w.transactions + [tx])
  }

  lemma WithBalanceGet(w: Wallet, c: CurrencyId, amount: int, d: CurrencyId)
    ensures Balance(WithBalance(w, c, amount), d) == if d == c then amount else Balance(w, d)
  {
    SetGet(w.balances, c, amount, d);
  }

  /** Every stored wallet's balances list each currency once. */
  ghost predicate WalletsWellFormed(ws: seq<StoredWallet>) {
    forall j :: 0 <= j < |ws| ==> UniqueKeys(JsMap(ws[j].balances))
  }

  lemma LookupWellFormed(ws: seq<StoredWallet>, id: WalletId)
    requires WalletsWellFormed(ws) && Lookup(ws, id).Some?
    ensures UniqueKeys(DeserializeWallet(Lookup(ws, id).value).balances)
    ensures DeserializeWallet(Lookup(ws, id).value).balances == JsMap(Lookup(ws, id).value.balances)
  {
    FromEntriesOfUnique(JsMap(Lookup(ws, id).value.balances));
  }

  /** Saving a wallet whose balances list each currency once keeps the array well formed. */
  lemma PutWellFormed(ws: seq<StoredWallet>, w: Wallet)
    requires WalletsWellFormed(ws) && UniqueKeys(w.balances)
    ensures WalletsWellFormed(Put(ws, SerializeWallet(w)))
  {
    PutMembers(ws, SerializeWallet(w));
  }

  /** Reading back a saved well-formed wallet gives its balances. */
  lemma SavedBalance(ws: seq<StoredWallet>, w: Wallet, id: WalletId, c: CurrencyId)
    requires UniqueKeys(w.balances)
    ensures StoredBalance(Put(ws, SerializeWallet(w)), id, c) ==
      if id == w.id then Some(Balance(w, c)) else StoredBalance(ws, id, c)
    ensures StoredHistory(Put(ws, SerializeWallet(w)), id) ==
      if id == w.id then Some(w.transactions) else StoredHistory(ws, id)
  {
    PutLookup(ws, SerializeWallet(w), id);
    WalletRoundTrip(w);
  }

  // ---------------------------------------------------------------------------
  // Transfer and mint as functions of the stored wallets
  // ---------------------------------------------------------------------------

  /** transfer's checks, in the order the source makes them. */
  function TransferError(ws: seq<StoredWallet>, from: WalletId, to: WalletId, amount: int, c: CurrencyId): (r: Option<EcError>)
    ensures r.None? <==>
      && Lookup(ws, from).Some? && Lookup(ws, to).Some?
      && StoredBalance(ws, from, c).value >= amount && amount > 0
    ensures Lookup(ws, from).None? ==> r == Some(SourceNotFound(from))
  {
    if Lookup(ws, from).None? then Some(SourceNotFound(from))
    else if Lookup(ws, to).None? then Some(DestinationNotFound(to))
    else if Balance(DeserializeWallet(Lookup(ws, from).value), c) < amount then Some(InsufficientBalance)
    else if amount <= 0 then Some(NonPositiveAmount)
    else None
  }

  /**
   * The wallets after a transfer that passed its checks: the debited copy of the source is
   * saved, then the credited copy of the destination, each read before either was changed.
   */
  function Transferred(ws: seq<StoredWallet>, from: WalletId, to: WalletId, amount: int, c: CurrencyId, tx: TxId): seq<StoredWallet>
    requires Lookup(ws, from).Some? && Lookup(ws, to).Some?
  {
    Put(Put(ws, SerializeWallet(Changed(ws, from, -amount, c, tx))), SerializeWallet(Changed(ws, to, amount, c, tx)))
  }

  /** The wallet after a mint: credited by the amount, whatever its sign, and the id recorded. */
  function Minted(ws: seq<StoredWallet>, id: WalletId, amount: int, c: CurrencyId, tx: TxId): seq<StoredWallet>
    requires Lookup(ws, id).Some?
  {
    Put(ws, SerializeWallet(Changed(ws, id, amount, c, tx)))
  }

  /** A transfer between two wallets moves the amount: the source loses it and the destination gains it. */
  lemma TransferMoves(ws: seq<StoredWallet>, from: WalletId, to: WalletId, amount: int, c: CurrencyId, tx: TxId)
    requires WalletsWellFormed(ws) && TransferError(ws, from, to, amount, c).None? && from != to
    ensures StoredBalance(Transferred(ws, from, to, amount, c, tx), from, c) == Some(StoredBalance(ws, from, c).value - amount)
    ensures StoredBalance(Transferred(ws, from, to, amount, c, tx), to, c) == Some(StoredBalance(ws, to, c).value + amount)
  {
    TransferBalances(ws, from, to, amount, c, tx, from, c);
    TransferBalances(ws, from, to, amount, c, tx, to, c);
  }

  /** The sum of the two balances is conserved. */
  lemma TransferConserves(ws: seq<StoredWallet>, from: WalletId, to: WalletId, amount: int, c: CurrencyId, tx: TxId)
    requires WalletsWellFormed(ws) && TransferError(ws, from, to, amount, c).None? && from != to
    ensures var after := Transferred(ws, from, to, amount, c, tx);
      StoredBalance(after, from, c).Some? && StoredBalance(after, to, c).Some? &&
      StoredBalance(after, from, c).value + StoredBalance(after, to, c).value
        == StoredBalance(ws, from, c).value + StoredBalance(ws, to, c).value
  {
    TransferMoves(ws, from, to, amount, c, tx);
  }

  /** Two saves in a row: a read finds the later one, then the earlier one, then what was there. */
  lemma SavedTwice(ws: seq<StoredWallet>, a: Wallet, b: Wallet, id: WalletId, d: CurrencyId)
    requires UniqueKeys(a.balances) && UniqueKeys(b.balances)
    ensures StoredBalance(Put(Put(ws, SerializeWallet(a)), SerializeWallet(b)), id, d) ==
      if id == b.id then Some(Balance(b, d)) else if id == a.id then Some(Balance(a, d)) else StoredBalance(ws, id, d)
    ensures StoredHistory(Put(Put(ws, SerializeWallet(a)), SerializeWallet(b)), id) ==
      if id == b.id then Some(b.transactions) else if id == a.id then Some(a.transactions) else StoredHistory(ws, id)
  {
    SavedBalance(ws, a, id, d);
    SavedBalance(Put(ws, SerializeWallet(a)), b, id, d);
  }

  /**
   * The copy of a stored wallet that transfer and mint save: its balance in `c` changed by `delta`
   * and `tx` appended to its history.
   */
  function Changed(ws: seq<StoredWallet>, id: WalletId, delta: int, c: CurrencyId, tx: TxId): Wallet
    requires Lookup(ws, id).Some?
  {
    var w := DeserializeWallet(Lookup(ws, id).value);
    Recorded(WithBalance(w, c, Balance(w, c) + delta), tx)
  }

  /** A copy changed by `delta` in one currency: its balances stay well formed and the others keep their value. */
  lemma ChangedCopy(ws: seq<StoredWallet>, id: WalletId, delta: int, c: CurrencyId, tx: TxId, d: CurrencyId)
    requires WalletsWellFormed(ws) && Lookup(ws, id).Some?
    ensures var w' := Changed(ws, id, delta, c, tx);
      && UniqueKeys(w'.balances) && w'.id == id && w'.transactions == StoredHistory(ws, id).value + [tx]
      && Balance(w', d) == if d == c then StoredBalance(ws, id, c).value + delta else StoredBalance(ws, id, d).value
  {
    var w := DeserializeWallet(Lookup(ws, id).value);
    LookupWellFormed(ws, id);
    SetKeepsUnique(w.balances, c, Balance(w, c) + delta);
    WithBalanceGet(w, c, Balance(w, c) + delta, d);
  }

  /** What a read of any wallet reports after a transfer, in any currency. */
  lemma TransferBalances(ws: seq<StoredWallet>, from: WalletId, to: WalletId, amount: int, c: CurrencyId, tx: TxId,
                         id: WalletId, d: CurrencyId)
    requires WalletsWellFormed(ws) && Lookup(ws, from).Some? && Lookup(ws, to).Some?
    ensures StoredBalance(Transferred(ws, from, to, amount, c, tx), id, d) ==
      if id == to && d == c then Some(StoredBalance(ws, to, c).value + amount)
      else if id == from && id != to && d == c then Some(StoredBalance(ws, from, c).value - amount)
      else StoredBalance(ws, id, d)
  {
    var f' := Changed(ws, from, -amount, c, tx);
    var t' := Changed(ws, to, amount, c, tx);
    ChangedCopy(ws, from, -amount, c, tx, d);
    ChangedCopy(ws, to, amount, c, tx, d);
    assert Transferred(ws, from, to, amount, c, tx) == Put(Put(ws, SerializeWallet(f')), SerializeWallet(t'));
    SavedTwice(ws, f', t', id, d);
  }

  /** Both wallets of a transfer record the transaction; a transfer to oneself records it once. */
  lemma TransferHistories(ws: seq<StoredWallet>, from: WalletId, to: WalletId, amount: int, c: CurrencyId, tx: TxId, id: WalletId)
    requires WalletsWellFormed(ws) && Lookup(ws, from).Some? && Lookup(ws, to).Some?
    ensures StoredHistory(Transferred(ws, from, to, amount, c, tx), id) ==
      if id == from || id == to then Some(StoredHistory(ws, id).value + [tx]) else StoredHistory(ws, id)
  {
    var f' := Changed(ws, from, -amount, c, tx);
    var t' := Changed(ws, to, amount, c, tx);
    ChangedCopy(ws, from, -amount, c, tx, c);
    ChangedCopy(ws, to, amount, c, tx, c);
    assert Transferred(ws, from, to, amount, c, tx) == Put(Put(ws, SerializeWallet(f')), SerializeWallet(t'));
    SavedTwice(ws, f', t', id, c);
  }

  /**
   * A transfer from a wallet to itself creates money: the credited copy, read before the debit,
   * is saved last, so the balance grows by the amount.
   */
  lemma SelfTransferCreates(ws: seq<StoredWallet>, id: WalletId, amount: int, c: CurrencyId, tx: TxId)
    requires WalletsWellFormed(ws) && TransferError(ws, id, id, amount, c).None?
    ensures StoredBalance(Transferred(ws, id, id, amount, c, tx), id, c) == Some(StoredBalance(ws, id, c).value + amount)
    ensures amount > 0
  {
    TransferBalances(ws, id, id, amount, c, tx, id, c);
  }

  /** A mint credits the wallet by the amount, a negative one included, and touches nothing else. */
  lemma MintCredits(ws: seq<StoredWallet>, id: WalletId, amount: int, c: CurrencyId, tx: TxId, other: WalletId, d: CurrencyId)
    requires WalletsWellFormed(ws) && Lookup(ws, id).Some?
    ensures StoredBalance(Minted(ws, id, amount, c, tx), other, d) ==
      if other == id && d == c then Some(StoredBalance(ws, id, c).value + amount) else StoredBalance(ws, other, d)
    ensures StoredHistory(Minted(ws, id, amount, c, tx), id) == Some(StoredHistory(ws, id).value + [tx])
  {
    var w' := Changed(ws, id, amount, c, tx);
    ChangedCopy(ws, id, amount, c, tx, d);
    SavedBalance(ws, w', other, d);
    SavedBalance(ws, w', id, d);
  }

  // ---------------------------------------------------------------------------
  // Wallet creation and history
  // ---------------------------------------------------------------------------

  /** createWallet's record: empty history, and 1000 of the system currency when there is one. */
  function NewWallet(id: WalletId, ownerId: string, system: Option<Currency>, now: int): Wallet {
    var balances := if system.Some? then Set(JsMap([]), system.value.id, InitialBalance) else JsMap([]);
    Wallet(id, ownerId, balances, [], now)
  }

  lemma NewWalletBalances(id: WalletId, ownerId: string, system: Option<Currency>, now: int, c: CurrencyId)
    ensures UniqueKeys(NewWallet(id, ownerId, system, now).balances)
    ensures Balance(NewWallet(id, ownerId, system, now), c) ==
      if system.Some? && c == system.value.id then InitialBalance else 0
  {
    if system.Some? {
      var empty: JsMap<CurrencyId, int> := JsMap([]);
      SetGet(empty, system.value.id, InitialBalance, c);
      SetKeepsUnique(empty, system.value.id, InitialBalance);
    }
  }

  /** `wallet.balances.get(currencyId) || 0`: a currency the wallet never held reads as 0. */
  lemma AbsentCurrencyIsZero(w: Wallet, c: CurrencyId)
    requires !HasKey(w.balances, c)
    ensures Balance(w, c) == 0
  {
  }

  /**
   * `ids.slice(-limit)`: a negative start counts from the end and is cut at 0, a start of 0
   * (from a limit of 0, since `-0` is 0) keeps everything, and a positive start drops that many.
   */
  function SliceFromEnd(ids: seq<TxId>, limit: int): (r: seq<TxId>)
    ensures limit > 0 ==> |r| == if limit < |ids| then limit else |ids|
    ensures limit > 0 ==> r == ids[|ids| - |r|..]
    ensures limit == 0 ==> r == ids
  {
    var start := -limit;
    if start < 0 then (if |ids| + start < 0 then ids else ids[|ids| + start..])
    else if start < |ids| then ids[start..] else []
  }

  /** The stored transactions among `ids`, in the order of `ids`; missing records are skipped. */
  function Known(txs: map<TxId, Transaction>, ids: seq<TxId>): (r: seq<Transaction>)
    ensures |r| <= |ids|
    ensures forall i :: 0 <= i < |r| ==> r[i] in txs.Values
  {
    if |ids| == 0 then []
    else Known(txs, ids[..|ids| - 1]) + (if ids[|ids| - 1] in txs then [txs[ids[|ids| - 1]]] else [])
  }

  function Reverse<T>(s: seq<T>): (r: seq<T>)
    ensures |r| == |s| && forall i :: 0 <= i < |s| ==> r[i] == s[|s| - 1 - i]
  {
    if |s| == 0 then [] else [s[|s| - 1]] + Reverse(s[..|s| - 1])
  }

  /** When every id is stored, the records are the ids' transactions in order. */
  lemma {:induction false} KnownAll(txs: map<TxId, Transaction>, ids: seq<TxId>)
    requires forall i :: 0 <= i < |ids| ==> ids[i] in txs
    ensures |Known(txs, ids)| == |ids|
    ensures forall i :: 0 <= i < |ids| ==> Known(txs, ids)[i] == txs[ids[i]]
  {
    if |ids| > 0 {
      KnownAll(txs, ids[..|ids| - 1]);
    }
  }

  /**
   * getTransactionHistory returns at most `limit` records when `limit` is positive, newest first;
   * with every record stored, the first is the latest transaction of the wallet.
   */
  lemma HistoryNewestFirst(txs: map<TxId, Transaction>, ids: seq<TxId>, limit: int)
    requires limit > 0 && forall i :: 0 <= i < |ids| ==> ids[i] in txs
    ensures var h := Reverse(Known(txs, SliceFromEnd(ids, limit)));
      && |h| == (if limit < |ids| then limit else |ids|)
      && forall i :: 0 <= i < |h| ==> h[i] == txs[ids[|ids| - 1 - i]]
  {
    var s := SliceFromEnd(ids, limit);
    forall i | 0 <= i < |s| ensures s[i] in txs {
      assert s[i] == ids[|ids| - |s| + i];
    }
    KnownAll(txs, s);
  }

  /** A limit of 0 returns the whole history. */
  lemma HistoryZeroLimit(txs: map<TxId, Transaction>, ids: seq<TxId>)
    ensures Reverse(Known(txs, SliceFromEnd(ids, 0))) == Reverse(Known(txs, ids))
  {
  }

  // ---------------------------------------------------------------------------
  // The system
  // ---------------------------------------------------------------------------

  /** The currency with the symbol, as getAllCurrencies().find(c => c.symbol === symbol). */
  function CurrencyBySymbol(cs: seq<StoredCurrency>, symbol: string): Option<StoredCurrency> {
    Find(cs, (c: StoredCurrency) => c.symbol == symbol)
  }

  function HasCurrencyId(id: CurrencyId): StoredCurrency -> bool {
    (c: StoredCurrency) => c.id == id
  }

  /** `currencies.findIndex(c => c.id === id)`. */
  function CurrencyIndex(cs: seq<StoredCurrency>, id: CurrencyId): Option<nat> {
    FindIndex(cs, HasCurrencyId(id))
  }

  /** getCurrency's `currencies.find(c => c.id === currencyId)`. */
  function CurrencyById(cs: seq<StoredCurrency>, id: CurrencyId): Option<StoredCurrency> {
    match CurrencyIndex(cs, id)
    case None => None
    case Some(i) => Some(cs[i])
  }

  /** The exchange rate from currency `id` to `k` that a read of the store reports. */
  function StoredRate(cs: seq<StoredCurrency>, id: CurrencyId, k: CurrencyId): Option<real> {
    match CurrencyById(cs, id)
    case None => None
    case Some(s) => Get(DeserializeCurrency(s).exchangeRates, k)
  }

  /** setExchangeRate's write: the read copy of `from` with the rate to `to` set, stored back in its place. */
  function WithRate(cs: seq<StoredCurrency>, from: CurrencyId, to: CurrencyId, rate: real): seq<StoredCurrency>
    requires CurrencyIndex(cs, from).Some?
  {
    var i := CurrencyIndex(cs, from).value;
    var c := DeserializeCurrency(cs[i]);
    cs[i := SerializeCurrency(c.(exchangeRates := Set(c.exchangeRates, to, rate)))]
  }

  /** `new Map(entries)` lists each key once, whatever the entries. */
  lemma {:induction false} FromEntriesUnique<K, V>(es: seq<(K, V)>)
    ensures UniqueKeys(FromEntries(es))
    decreases |es|
  {
    if |es| > 0 {
      FromEntriesUnique(es[..|es| - 1]);
      SetKeepsUnique(FromEntries(es[..|es| - 1]), es[|es| - 1].0, es[|es| - 1].1);
    }
  }

  /** Replacing a stored currency by one with the same id moves no other currency's position. */
  lemma CurrencyIndexKept(cs: seq<StoredCurrency>, i: nat, s: StoredCurrency, id: CurrencyId)
    requires i < |cs| && s.id == cs[i].id
    ensures CurrencyIndex(cs[i := s], id) == CurrencyIndex(cs, id)
  {
    var cs' := cs[i := s];
    match CurrencyIndex(cs, id)
    case None =>
    case Some(p) => FindIndexIs(cs', HasCurrencyId(id), p);
  }

  /** After setExchangeRate, a read finds the new rate, and every other rate as it was. */
  lemma RateRecorded(cs: seq<StoredCurrency>, from: CurrencyId, to: CurrencyId, rate: real, id: CurrencyId, k: CurrencyId)
    requires CurrencyIndex(cs, from).Some?
    ensures StoredRate(WithRate(cs, from, to, rate), id, k) ==
      if id == from && k == to then Some(rate) else StoredRate(cs, id, k)
  {
    var i := CurrencyIndex(cs, from).value;
    var c := DeserializeCurrency(cs[i]);
    var rates := Set(c.exchangeRates, to, rate);
    CurrencyIndexKept(cs, i, SerializeCurrency(c.(exchangeRates := rates)), id);
    FromEntriesUnique(cs[i].exchangeRates);
    SetKeepsUnique(c.exchangeRates, to, rate);
    FromEntriesOfUnique(rates);
    SetGet(c.exchangeRates, to, rate, k);
  }

  /** createCurrency's record: the whole initial supply in circulation, two decimals, no exchange rates. */
  function NewCurrency(id: CurrencyId, name: string, symbol: string, issuer: string, supply: int, isSystem: bool): Currency {
    Currency(id, name, symbol, issuer, supply, supply, 2, isSystem, JsMap([]))
  }

  class EconomySystem {
    var systemCurrency: Option<Currency>
    /** The store's 'wallets' array. */
    var wallets: seq<StoredWallet>
    /** The store's 'currencies' array. */
    var currencies: seq<StoredCurrency>
    /** The store's 'transactions' collection. */
    var txs: map<TxId, Transaction>
    /** The next fresh id. */
    var nextId: nat

    ghost predicate Valid()
      reads this
    {
      WalletsWellFormed(wallets)
    }

    /** The singleton over the stored arrays, before initialize. */
    constructor(savedWallets: seq<StoredWallet>, savedCurrencies: seq<StoredCurrency>, savedTxs: map<TxId, Transaction>, firstFreeId: nat)
      requires WalletsWellFormed(savedWallets)
      ensures Valid() && systemCurrency == None
      ensures wallets == savedWallets && currencies == savedCurrencies && txs == savedTxs && nextId == firstFreeId
    {
      systemCurrency := None;
      wallets := savedWallets;
      currencies := savedCurrencies;
      txs := savedTxs;
      nextId := firstFreeId;
    }

    /** `uuidv4()`. */
    method FreshId() returns (id: nat)
      modifies this`nextId
      ensures id == old(nextId) && nextId == id + 1
    {
      id := nextId;
      nextId := nextId + 1;
    }

    /** initialize: adopt the stored OmniCoin, or create it with a supply of one billion. */
    method Initialize()
      modifies this`systemCurrency, this`currencies, this`nextId
      ensures CurrencyBySymbol(old(currencies), "OMC").Some? ==>
        && systemCurrency == Some(DeserializeCurrency(CurrencyBySymbol(old(currencies), "OMC").value))
        && currencies == old(currencies) && nextId == old(nextId)
      ensures CurrencyBySymbol(old(currencies), "OMC").None? ==>
        var c := NewCurrency(old(nextId), "OmniCoin", "OMC", "system", SystemSupply, true);
        && systemCurrency == Some(c)
        && currencies == old(currencies) + [SerializeCurrency(c)] && nextId == old(nextId) + 1
      ensures CurrencyBySymbol(currencies, "OMC").Some? && systemCurrency.value.symbol == "OMC"
      ensures CurrencyById(currencies, systemCurrency.value.id).Some?
    {
      var omniCoin := CurrencyBySymbol(currencies, "OMC");
      if omniCoin.None? {
        var c := CreateCurrency("OmniCoin", "OMC", "system", SystemSupply, true);
        systemCurrency := Some(c);
        assert (currencies[|currencies| - 1]).symbol == "OMC";
      } else {
        systemCurrency := Some(DeserializeCurrency(omniCoin.value));
      }
    }

    /** createCurrency: a fresh currency appended to the stored array. */
    method CreateCurrency(name: string, symbol: string, issuer: string, supply: int, isSystem: bool) returns (c: Currency)
      modifies this`currencies, this`nextId
      ensures c == NewCurrency(old(nextId), name, symbol, issuer, supply, isSystem)
      ensures currencies == old(currencies) + [SerializeCurrency(c)] && nextId == old(nextId) + 1
    {
      var id := FreshId();
      c := NewCurrency(id, name, symbol, issuer, supply, isSystem);
      currencies := currencies + [SerializeCurrency(c)];
    }

    function GetCurrency(id: CurrencyId): (r: Option<Currency>)
      reads this
      ensures r.None? <==> forall j :: 0 <= j < |currencies| ==> currencies[j].id != id
      ensures r.Some? ==> r.value.id == id && UniqueKeys(r.value.exchangeRates)
    {
      match CurrencyById(currencies, id)
      case None => None
      case Some(s) =>
        FromEntriesUnique(s.exchangeRates);
        Some(DeserializeCurrency(s))
    }

    /** setExchangeRate: an unknown source currency is an error; otherwise its stored copy gets the rate. */
    method SetExchangeRate(from: CurrencyId, to: CurrencyId, rate: real) returns (r: Outcome<EcError>)
      modifies this`currencies
      ensures CurrencyIndex(old(currencies), from).None? ==> r == Fail(CurrencyNotFound(from)) && currencies == old(currencies)
      ensures CurrencyIndex(old(currencies), from).Some? ==> r == Pass && currencies == WithRate(old(currencies), from, to, rate)
    {
      var currency := GetCurrency(from);
      if currency.None? {
        return Fail(CurrencyNotFound(from));
      }
      var c := currency.value.(exchangeRates := Set(currency.value.exchangeRates, to, rate));
      var index := CurrencyIndex(currencies, from);
      if index.Some? {
        currencies := currencies[index.value := SerializeCurrency(c)];
      }
      r := Pass;
    }

    function GetWallet(id: WalletId): (r: Option<Wallet>)
      reads this
      ensures r.Some? <==> exists j :: 0 <= j < |wallets| && wallets[j].id == id
    {
      match Lookup(wallets, id)
      case None => None
      case Some(s) => Some(DeserializeWallet(s))
    }

    function GetWalletByOwner(ownerId: string): (r: Option<Wallet>)
      reads this
      ensures r.Some? <==> exists j :: 0 <= j < |wallets| && wallets[j].ownerId == ownerId
      ensures r.Some? ==> r.value.ownerId == ownerId
    {
      match LookupByOwner(wallets, ownerId)
      case None => None
      case Some(s) => Some(DeserializeWallet(s))
    }

    /** saveWallet. */
    method SaveWallet(w: Wallet)
      requires Valid() && UniqueKeys(w.balances)
      modifies this`wallets
      ensures Valid() && wallets == Put(old(wallets), SerializeWallet(w))
    {
      PutWellFormed(wallets, w);
      var s := SerializeWallet(w);
      var index := WalletIndex(wallets, w.id);
      if index.Some? {
        wallets := wallets[index.value := s];
      } else {
        wallets := wallets + [s];
      }
    }

    /** `storage.set('transactions', tx)`. */
    method SaveTransaction(tx: Transaction)
      modifies this`txs
      ensures txs == old(txs)[tx.id := tx]
    {
      txs := txs[tx.id := tx];
    }

    method CreateWallet(ownerId: string, now: int) returns (w: Wallet)
      requires Valid()
      modifies this`wallets, this`nextId
      ensures Valid()
      ensures w == NewWallet(old(nextId), ownerId, systemCurrency, now)
      ensures wallets == Put(old(wallets), SerializeWallet(w)) && nextId == old(nextId) + 1
    {
      var id := FreshId();
      w := NewWallet(id, ownerId, systemCurrency, now);
      NewWalletBalances(id, ownerId, systemCurrency, now, 0);
      SaveWallet(w);
    }

    /** getOrCreateWallet: the owner's first stored wallet, or a new one. */
    method GetOrCreateWallet(ownerId: string, now: int) returns (w: Wallet)
      requires Valid()
      modifies this`wallets, this`nextId
      ensures Valid()
      ensures LookupByOwner(old(wallets), ownerId).Some? ==>
        w == DeserializeWallet(LookupByOwner(old(wallets), ownerId).value) && wallets == old(wallets) && nextId == old(nextId)
      ensures LookupByOwner(old(wallets), ownerId).None? ==>
        w == NewWallet(old(nextId), ownerId, systemCurrency, now)
        && wallets == Put(old(wallets), SerializeWallet(w)) && nextId == old(nextId) + 1
    {
      var found := GetWalletByOwner(ownerId);
      if found.Some? {
        return found.value;
      }
      w := CreateWallet(ownerId, now);
    }

    method Transfer(from: WalletId, to: WalletId, amount: int, c: CurrencyId, metadata: Option<map<string, Value>>, now: int)
      returns (r: Result<Transaction, EcError>)
      requires Valid()
      modifies this`wallets, this`txs, this`nextId
      ensures Valid()
      ensures TransferError(old(wallets), from, to, amount, c).Some? ==>
        && r == Err(TransferError(old(wallets), from, to, amount, c).value)
        && wallets == old(wallets) && txs == old(txs) && nextId == old(nextId)
      ensures TransferError(old(wallets), from, to, amount, c).None? ==>
        var tx := Transaction(old(nextId), WalletParty(from), to, amount, c, TransferTx, TxCompleted, now, metadata.GetOr(map[]));
        && r == Ok(tx)
        && wallets == Transferred(old(wallets), from, to, amount, c, tx.id)
        && txs == old(txs)[tx.id := tx] && nextId == old(nextId) + 1
    {
      var fromWallet := GetWallet(from);
      var toWallet := GetWallet(to);
      if fromWallet.None? {
        return Err(SourceNotFound(from));
      }
      if toWallet.None? {
        return Err(DestinationNotFound(to));
      }
      var balance := Balance(fromWallet.value, c);
      if balance < amount {
        return Err(InsufficientBalance);
      }
      if amount <= 0 {
        return Err(NonPositiveAmount);
      }
      var id := FreshId();
      var tx := Transaction(id, WalletParty(from), to, amount, c, TransferTx, Pending, now, metadata.GetOr(map[]));
      SaveTransfer(from, to, amount, c, id);
      tx := tx.(status := TxCompleted);
      SaveTransaction(tx);
      r := Ok(tx);
    }

    /**
     * The effect of a transfer that passed its checks: both copies are read before either is
     * changed, then the source's copy is saved and after it the destination's.
     */
    method SaveTransfer(from: WalletId, to: WalletId, amount: int, c: CurrencyId, tx: TxId)
      requires Valid() && Lookup(wallets, from).Some? && Lookup(wallets, to).Some?
      modifies this`wallets
      ensures Valid() && wallets == Transferred(old(wallets), from, to, amount, c, tx)
    {
      var f := Changed(wallets, from, -amount, c, tx);
      var t := Changed(wallets, to, amount, c, tx);
      ChangedCopy(wallets, from, -amount, c, tx, c);
      ChangedCopy(wallets, to, amount, c, tx, c);
      SaveWallet(f);
      SaveWallet(t);
    }

    method Mint(walletId: WalletId, amount: int, c: CurrencyId, reason: string, now: int)
      returns (r: Result<Transaction, EcError>)
      requires Valid()
      modifies this`wallets, this`txs, this`nextId
      ensures Valid() && currencies == old(currencies)
      ensures Lookup(old(wallets), walletId).None? ==>
        r == Err(WalletNotFound(walletId)) && wallets == old(wallets) && txs == old(txs) && nextId == old(nextId)
      ensures Lookup(old(wallets), walletId).Some? && CurrencyById(currencies, c).None? ==>
        r == Err(CurrencyNotFound(c)) && wallets == old(wallets) && txs == old(txs) && nextId == old(nextId)
      ensures Lookup(old(wallets), walletId).Some? && CurrencyById(currencies, c).Some? ==>
        var tx := Transaction(old(nextId), SystemParty, walletId, amount, c, MintTx, TxCompleted, now, map["reason" := Str(reason)]);
        && r == Ok(tx)
        && wallets == Minted(old(wallets), walletId, amount, c, tx.id)
        && txs == old(txs)[tx.id := tx] && nextId == old(nextId) + 1
    {
      var wallet := GetWallet(walletId);
      if wallet.None? {
        return Err(WalletNotFound(walletId));
      }
      var currency := CurrencyById(currencies, c);
      if currency.None? {
        return Err(CurrencyNotFound(c));
      }
      var id := FreshId();
      var tx := Transaction(id, SystemParty, walletId, amount, c, MintTx, TxCompleted, now, map["reason" := Str(reason)]);
      var w := Changed(wallets, walletId, amount, c, id);
      ChangedCopy(wallets, walletId, amount, c, id, c);
      // `currency.circulatingSupply += amount` changes only this copy; it is never saved.
      var localCopy := DeserializeCurrency(currency.value);
      localCopy := localCopy.(circulatingSupply := localCopy.circulatingSupply + amount);
      SaveWallet(w);
      SaveTransaction(tx);
      r := Ok(tx);
    }

    /** rewardUser: mint `amount` of the system currency into the user's wallet, creating it when missing. */
    method RewardUser(userId: string, amount: int, reason: string, now: int) returns (r: Option<Result<Transaction, EcError>>)
      requires Valid()
      modifies this`wallets, this`txs, this`nextId
      ensures Valid() && currencies == old(currencies) && systemCurrency == old(systemCurrency)
      ensures var owned := LookupByOwner(old(wallets), userId);
        var walletId := if owned.Some? then owned.value.id else old(nextId);
        var ws := if owned.Some? then old(wallets)
                  else Put(old(wallets), SerializeWallet(NewWallet(old(nextId), userId, systemCurrency, now)));
        var n := if owned.Some? then old(nextId) else old(nextId) + 1;
        && Lookup(ws, walletId).Some?
        && (systemCurrency.None? ==> r.None? && wallets == ws && txs == old(txs) && nextId == n)
        && (systemCurrency.Some? && CurrencyById(currencies, systemCurrency.value.id).None? ==>
              && r == Some(Err(CurrencyNotFound(systemCurrency.value.id)))
              && wallets == ws && txs == old(txs) && nextId == n)
        && (systemCurrency.Some? && CurrencyById(currencies, systemCurrency.value.id).Some? ==>
              var tx := Transaction(n, SystemParty, walletId, amount, systemCurrency.value.id, MintTx, TxCompleted, now,
                                    map["reason" := Str(reason)]);
              && r == Some(Ok(tx))
              && wallets == Minted(ws, walletId, amount, systemCurrency.value.id, tx.id)
              && txs == old(txs)[tx.id := tx] && nextId == n + 1)
    {
      ghost var owned := LookupByOwner(wallets, userId);
      if owned.Some? {
        LookupFindsStored(wallets, owned.value);
      } else {
        PutLookup(wallets, SerializeWallet(NewWallet(nextId, userId, systemCurrency, now)), nextId);
      }
      var wallet := GetOrCreateWallet(userId, now);
      if systemCurrency.None? {
        return None;
      }
      var minted := Mint(wallet.id, amount, systemCurrency.value.id, reason, now);
      r := Some(minted);
    }

    function GetBalance(walletId: WalletId, c: CurrencyId): (r: Result<int, EcError>)
      reads this
      ensures r.Err? <==> Lookup(wallets, walletId).None?
      ensures r.Err? ==> r.error == WalletNotFound(walletId)
      ensures r.Ok? ==> Some(r.value) == StoredBalance(wallets, walletId, c)
    {
      match GetWallet(walletId)
      case None => Err(WalletNotFound(walletId))
      case Some(w) => Ok(Balance(w, c))
    }

    /** getTransactionHistory: the stored records of the last `limit` ids, newest first. */
    method GetTransactionHistory(walletId: WalletId, limit: int) returns (r: Result<seq<Transaction>, EcError>)
      ensures Lookup(wallets, walletId).None? ==> r == Err(WalletNotFound(walletId))
      ensures Lookup(wallets, walletId).Some? ==>
        r == Ok(Reverse(Known(txs, SliceFromEnd(Lookup(wallets, walletId).value.transactions, limit))))
    {
      var wallet := GetWallet(walletId);
      if wallet.None? {
        return Err(WalletNotFound(walletId));
      }
      var ids := SliceFromEnd(wallet.value.transactions, limit);
      var transactions := [];
      for i := 0 to |ids|
        invariant transactions == Known(txs, ids[..i])
      {
        if ids[i] in txs {
          transactions := transactions + [txs[ids[i]]];
        }
        assert ids[..i + 1][..i] == ids[..i];
      }
      assert ids[..|ids|] == ids;
      r := Ok(Reverse(transactions));
    }
  }
}
