/**
 * The transaction ledger of the account book: spending, income and transfer
 * records, and the per-(account, currency) balance table that the service
 * keeps in step with them (src/main/service/TransactionService.ts).
 *
 * Amounts are integers in minor currency units. The balance mutator of the
 * account service, whose code is not part of this model, is ASSUMED to add a
 * signed delta to the balance entry of an (account, currency) pair, treating
 * a missing entry as 0 and leaving it in place afterwards (UpdateBalance).
 */
module Ledger {
  import opened Wrappers
  import opened Sums

  // ---------------------------------------------------------------------------
  // Data model
  // ---------------------------------------------------------------------------

  /** Transaction kind. `Other` stands for any value outside the enumeration,
      which the balance rules reject with the "unknown kind" error. */
  datatype Kind = Spending | Income | Transfer | Other(code: UnknownKindCode)

  /** A kind string that names none of the three kinds. */
  type UnknownKindCode = s: string | s != "SPENDING" && s != "INCOME" && s != "TRANSFER" witness ""

  datatype Currency = KRW | USD | JPY

  /** Account sequence number; 0 is what a form holds when no account was chosen. */
  type AccountId = int

  /** Balance table key: an account and a currency. */
  type Key = (AccountId, Currency)

  type Balances = map<Key, int>

  /** The two errors the service throws. */
  datatype Error =
    | NotFound     // the transaction was not found
    | UnknownKind  // the transaction kind was not recognised

  /** The fields the balance rules read from a form or a stored row. */
  datatype Movement = Movement(
    kind: Kind,
    payAccount: AccountId,
    receiveAccount: AccountId,
    currency: Currency,
    amount: int,
    fee: int)

  /** The request a caller sends to save or update a transaction. Dates are day
      ordinals, already normalised to a calendar day. */
  datatype TxnForm = TxnForm(
    transactionSeq: int,
    categorySeq: int,
    kind: Kind,
    payAccount: AccountId,
    receiveAccount: AccountId,
    attribute: int,
    currency: Currency,
    amount: int,
    transactionDate: int,
    note: string,
    fee: int)
  {
    function AsMovement(): Movement {
      Movement(kind, payAccount, receiveAccount, currency, amount, fee)
    }
  }

  /** A stored transaction row. */
  datatype Txn = Txn(
    transactionSeq: int,
    categorySeq: int,
    kind: Kind,
    payAccount: AccountId,
    receiveAccount: AccountId,
    attribute: int,
    currency: Currency,
    amount: int,
    transactionDate: int,
    note: string,
    fee: int)
  {
    function AsMovement(): Movement {
      Movement(kind, payAccount, receiveAccount, currency, amount, fee)
    }
  }

  /** The transaction as returned to callers. */
  datatype TxnView = TxnView(
    transactionSeq: int,
    categorySeq: int,
    kind: Kind,
    payAccount: AccountId,
    receiveAccount: AccountId,
    attribute: int,
    currency: Currency,
    amount: int,
    transactionDate: int,
    note: string,
    fee: int)

  /** The row that saving `form` under the id `id` creates. */
  function NewRow(id: int, form: TxnForm): (t: Txn)
    ensures t.transactionSeq == id && t.AsMovement() == form.AsMovement()
  {
    Txn(id, form.categorySeq, form.kind, form.payAccount, form.receiveAccount, form.attribute,
        form.currency, form.amount, form.transactionDate, form.note, form.fee)
  }

  /** The stored row `before` with every field the form carries written over it. */
  function UpdatedRow(before: Txn, form: TxnForm): (t: Txn)
    ensures t == NewRow(before.transactionSeq, form)
  {
    before.(categorySeq := form.categorySeq, kind := form.kind, payAccount := form.payAccount,
            receiveAccount := form.receiveAccount, attribute := form.attribute,
            currency := form.currency, amount := form.amount,
            transactionDate := form.transactionDate, note := form.note, fee := form.fee)
  }

  /** Copies a stored row into the shape returned to callers, field for field
      under the same names. */
  function MapEntityToRes(t: Txn): (v: TxnView)
    ensures v.transactionSeq == t.transactionSeq && v.categorySeq == t.categorySeq
    ensures v.kind == t.kind && v.attribute == t.attribute
    ensures v.payAccount == t.payAccount && v.receiveAccount == t.receiveAccount
    ensures v.currency == t.currency && v.amount == t.amount && v.fee == t.fee
    ensures v.transactionDate == t.transactionDate && v.note == t.note
  {
    TxnView(t.transactionSeq, t.categorySeq, t.kind, t.payAccount, t.receiveAccount, t.attribute,
            t.currency, t.amount, t.transactionDate, t.note, t.fee)
  }

  /** The copy loses nothing: distinct rows give distinct views. */
  lemma MapEntityToResInjective(t1: Txn, t2: Txn)
    ensures MapEntityToRes(t1) == MapEntityToRes(t2) <==> t1 == t2
  {
  }

  // ---------------------------------------------------------------------------
  // Balance mutator and effects
  // ---------------------------------------------------------------------------

  /** The balance of a pair; a pair without an entry holds 0. */
  function BalanceOf(b: Balances, key: Key): int {
    if key in b then b[key] else 0
  }

  /** The account service's balance update (an assumption, see the module comment). */
  function UpdateBalance(b: Balances, account: AccountId, currency: Currency, delta: int): (r: Balances)
    ensures r.Keys == b.Keys + {(account, currency)}
    ensures BalanceOf(r, (account, currency)) == BalanceOf(b, (account, currency)) + delta
    ensures forall k | k != (account, currency) :: BalanceOf(r, k) == BalanceOf(b, k)
    ensures forall k | k in b && k != (account, currency) :: r[k] == b[k]
  {
    b[(account, currency) := BalanceOf(b, (account, currency)) + delta]
  }

  /** One signed balance change. */
  datatype Effect = Effect(account: AccountId, currency: Currency, delta: int) {
    function Key(): Key { (account, currency) }
  }

  /** Applies the effects in order, one balance update each. */
  function ApplyEffects(b: Balances, effects: seq<Effect>): Balances
    decreases |effects|
  {
    if effects == [] then b
    else ApplyEffects(UpdateBalance(b, effects[0].account, effects[0].currency, effects[0].delta), effects[1..])
  }

  lemma ApplySingle(b: Balances, e: Effect)
    ensures ApplyEffects(b, [e]) == UpdateBalance(b, e.account, e.currency, e.delta)
    ensures forall c :: NetIn([e], c) == if e.currency == c then e.delta else 0
  {
    assert [e][1..] == [];
  }

  lemma ApplyPair(b: Balances, e1: Effect, e2: Effect)
    ensures ApplyEffects(b, [e1, e2])
      == UpdateBalance(UpdateBalance(b, e1.account, e1.currency, e1.delta), e2.account, e2.currency, e2.delta)
    ensures forall c ::
      NetIn([e1, e2], c) == (if e1.currency == c then e1.delta else 0) + (if e2.currency == c then e2.delta else 0)
  {
    assert [e1, e2][1..] == [e2];
    ApplySingle(UpdateBalance(b, e1.account, e1.currency, e1.delta), e2);
  }

  /** The total change the effects make to one pair. */
  function Net(effects: seq<Effect>, key: Key): int
    decreases |effects|
  {
    if effects == [] then 0
    else (if effects[0].Key() == key then effects[0].delta else 0) + Net(effects[1..], key)
  }

  /** The total change the effects make to the balances of one currency. */
  function NetIn(effects: seq<Effect>, c: Currency): int
    decreases |effects|
  {
    if effects == [] then 0
    else (if effects[0].currency == c then effects[0].delta else 0) + NetIn(effects[1..], c)
  }

  /** The pairs the effects touch. */
  function Touched(effects: seq<Effect>): set<Key>
    decreases |effects|
  {
    if effects == [] then {} else {effects[0].Key()} + Touched(effects[1..])
  }

  /** Every effect with its sign flipped. */
  function Negated(effects: seq<Effect>): (r: seq<Effect>)
    ensures |r| == |effects|
    ensures forall i | 0 <= i < |r| ::
      r[i].Key() == effects[i].Key() && r[i].delta == -effects[i].delta
    decreases |effects|
  {
    if effects == [] then []
    else [effects[0].(delta := -effects[0].delta)] + Negated(effects[1..])
  }

  /** Applying effects changes each pair by exactly its net change, and adds an
      entry for every touched pair and for no other. */
  lemma {:induction false} ApplyEffectsPointwise(b: Balances, effects: seq<Effect>)
    ensures ApplyEffects(b, effects).Keys == b.Keys + Touched(effects)
    ensures forall k :: BalanceOf(ApplyEffects(b, effects), k) == BalanceOf(b, k) + Net(effects, k)
    decreases |effects|
  {
    if effects != [] {
      var e := effects[0];
      ApplyEffectsPointwise(UpdateBalance(b, e.account, e.currency, e.delta), effects[1..]);
    }
  }

  /** Flipping every sign negates the net change to each pair. */
  lemma {:induction false} NetNegated(effects: seq<Effect>, key: Key)
    ensures Net(Negated(effects), key) == -Net(effects, key)
    decreases |effects|
  {
    if effects != [] {
      NetNegated(effects[1..], key);
    }
  }

  /** Flipping every sign touches the same pairs. */
  lemma {:induction false} TouchedNegated(effects: seq<Effect>)
    ensures Touched(Negated(effects)) == Touched(effects)
    decreases |effects|
  {
    if effects != [] {
      TouchedNegated(effects[1..]);
    }
  }

  /** Applying effects and then their negation restores every balance; the only
      entries left behind are zero entries for pairs that had none before. */
  lemma ApplyNegatedRestores(b: Balances, effects: seq<Effect>)
    ensures var r := ApplyEffects(ApplyEffects(b, effects), Negated(effects));
      && r.Keys == b.Keys + Touched(effects)
      && (forall k :: BalanceOf(r, k) == BalanceOf(b, k))
  {
    var mid := ApplyEffects(b, effects);
    ApplyEffectsPointwise(b, effects);
    TouchedNegated(effects);
    ApplyEffectsPointwise(mid, Negated(effects));
    forall k
      ensures BalanceOf(ApplyEffects(mid, Negated(effects)), k) == BalanceOf(b, k)
    {
      NetNegated(effects, k);
    }
  }

  // ---------------------------------------------------------------------------
  // Per-kind balance rules
  // ---------------------------------------------------------------------------

  /** The balance changes that inserting a transaction makes, or the unknown-kind error. */
  function InsertEffects(m: Movement): (r: Result<seq<Effect>, Error>)
    ensures r.Failure? <==> m.kind.Other?
    ensures r.Failure? ==> r.error == UnknownKind
    ensures r.Success? ==> forall e | e in r.value :: e.currency == m.currency
  {
    match m.kind
    case Spending => Success([Effect(m.payAccount, m.currency, -(m.amount + m.fee))])
    case Income => Success([Effect(m.receiveAccount, m.currency, m.amount - m.fee)])
    case Transfer =>
      Success([Effect(m.payAccount, m.currency, -m.amount - m.fee),
               Effect(m.receiveAccount, m.currency, m.amount)])
    case Other(_) => Failure(UnknownKind)
  }

  /** The balance changes that deleting a stored transaction makes, or the unknown-kind error. */
  function DeleteEffects(m: Movement): (r: Result<seq<Effect>, Error>)
    ensures r.Failure? <==> m.kind.Other?
    ensures r.Failure? ==> r.error == UnknownKind
  {
    match m.kind
    case Spending => Success([Effect(m.payAccount, m.currency, m.amount + m.fee)])
    case Income => Success([Effect(m.receiveAccount, m.currency, -(m.amount - m.fee))])
    case Transfer =>
      Success([Effect(m.payAccount, m.currency, m.amount + m.fee),
               Effect(m.receiveAccount, m.currency, -m.amount)])
    case Other(_) => Failure(UnknownKind)
  }

  /** The delete rules are the insert rules with every sign flipped. */
  lemma DeleteNegatesInsert(m: Movement)
    ensures DeleteEffects(m).Success? <==> InsertEffects(m).Success?
    ensures DeleteEffects(m).Success? ==> DeleteEffects(m).value == Negated(InsertEffects(m).value)
  {
  }

  /** The net change a stored row contributes to one pair (nothing for an unknown kind). */
  function RowNet(t: Txn, key: Key): int {
    match InsertEffects(t.AsMovement())
    case Success(effects) => Net(effects, key)
    case Failure(_) => 0
  }

  /** The sum of the balances held in one currency. */
  ghost function CurrencyTotal(b: Balances, c: Currency): int {
    SumBy(b, InCurrency(c))
  }

  ghost function InCurrency(c: Currency): (Key, int) -> int {
    (k: Key, v: int) => if k.1 == c then v else 0
  }

  lemma {:induction false} CurrencyTotalAfterEffects(b: Balances, effects: seq<Effect>, c: Currency)
    ensures CurrencyTotal(ApplyEffects(b, effects), c) == CurrencyTotal(b, c) + NetIn(effects, c)
    decreases |effects|
  {
    if effects != [] {
      var e := effects[0];
      SumByUpdate(b, InCurrency(c), e.Key(), BalanceOf(b, e.Key()) + e.delta);
      CurrencyTotalAfterEffects(UpdateBalance(b, e.account, e.currency, e.delta), effects[1..], c);
    }
  }

  /** Spending takes amount plus fee from the pay account, in the record's
      currency, and changes no other balance. */
  lemma SpendingInsert(b: Balances, m: Movement)
    requires m.kind == Spending
    ensures InsertEffects(m).Success?
    ensures var a := ApplyEffects(b, InsertEffects(m).value);
      && a == b[(m.payAccount, m.currency) := BalanceOf(b, (m.payAccount, m.currency)) - (m.amount + m.fee)]
      && CurrencyTotal(a, m.currency) == CurrencyTotal(b, m.currency) - (m.amount + m.fee)
      && (forall c | c != m.currency :: CurrencyTotal(a, c) == CurrencyTotal(b, c))
  {
    var e := Effect(m.payAccount, m.currency, -(m.amount + m.fee));
    ApplySingle(b, e);
    forall c {
      CurrencyTotalAfterEffects(b, [e], c);
    }
  }

  /** Income adds amount minus fee to the receive account and changes no other balance. */
  lemma IncomeInsert(b: Balances, m: Movement)
    requires m.kind == Income
    ensures InsertEffects(m).Success?
    ensures var a := ApplyEffects(b, InsertEffects(m).value);
      && a == b[(m.receiveAccount, m.currency) := BalanceOf(b, (m.receiveAccount, m.currency)) + (m.amount - m.fee)]
      && CurrencyTotal(a, m.currency) == CurrencyTotal(b, m.currency) + (m.amount - m.fee)
      && (forall c | c != m.currency :: CurrencyTotal(a, c) == CurrencyTotal(b, c))
  {
    var e := Effect(m.receiveAccount, m.currency, m.amount - m.fee);
    ApplySingle(b, e);
    forall c {
      CurrencyTotalAfterEffects(b, [e], c);
    }
  }

  /** A transfer takes amount plus fee from the pay account and gives amount to
      the receive account, so the money in that currency drops by the fee alone. */
  lemma TransferInsert(b: Balances, m: Movement)
    requires m.kind == Transfer
    ensures InsertEffects(m).Success?
    ensures var a := ApplyEffects(b, InsertEffects(m).value);
      var pay, receive := (m.payAccount, m.currency), (m.receiveAccount, m.currency);
      && (pay != receive ==>
            a == b[pay := BalanceOf(b, pay) - m.amount - m.fee][receive := BalanceOf(b, receive) + m.amount])
      && (pay == receive ==> a == b[pay := BalanceOf(b, pay) - m.fee])
      && CurrencyTotal(a, m.currency) == CurrencyTotal(b, m.currency) - m.fee
      && (forall c | c != m.currency :: CurrencyTotal(a, c) == CurrencyTotal(b, c))
  {
    var e1 := Effect(m.payAccount, m.currency, -m.amount - m.fee);
    var e2 := Effect(m.receiveAccount, m.currency, m.amount);
    ApplyPair(b, e1, e2);
    forall c {
      CurrencyTotalAfterEffects(b, [e1, e2], c);
    }
  }

  /** Updating a row leaves every balance at its old value, minus the insert
      effects of the stored row, plus the insert effects of the new form. */
  lemma UpdateIsReverseThenForward(b: Balances, stored: Movement, form: Movement)
    requires !stored.kind.Other? && !form.kind.Other?
    ensures DeleteEffects(stored).Success? && InsertEffects(form).Success?
    ensures forall k ::
      BalanceOf(ApplyEffects(ApplyEffects(b, DeleteEffects(stored).value), InsertEffects(form).value), k)
      == BalanceOf(b, k) - Net(InsertEffects(stored).value, k) + Net(InsertEffects(form).value, k)
  {
    var undone := ApplyEffects(b, DeleteEffects(stored).value);
    DeleteNegatesInsert(stored);
    ApplyEffectsPointwise(b, DeleteEffects(stored).value);
    ApplyEffectsPointwise(undone, InsertEffects(form).value);
    forall k {
      NetNegated(InsertEffects(stored).value, k);
    }
  }

  /** Saving a form under a fresh id and then deleting that id gives back the
      record table, and every balance. */
  lemma SaveThenDeleteRestores(records: map<int, Txn>, b: Balances, id: int, form: TxnForm)
    requires id !in records
    requires !form.kind.Other?
    ensures var saved := records[id := NewRow(id, form)];
      && DeleteEffects(saved[id].AsMovement()).Success?
      && saved - {id} == records
      && forall k ::
           BalanceOf(ApplyEffects(ApplyEffects(b, InsertEffects(form.AsMovement()).value),
                                  DeleteEffects(saved[id].AsMovement()).value), k)
           == BalanceOf(b, k)
  {
    var saved := records[id := NewRow(id, form)];
    assert saved - {id} == records;
    DeleteNegatesInsert(form.AsMovement());
    ApplyNegatedRestores(b, InsertEffects(form.AsMovement()).value);
  }

  // ---------------------------------------------------------------------------
  // Balance updates within one atomic scope
  // ---------------------------------------------------------------------------

  /** updateBalanceForInsert: one or two balance updates, chosen by the form's kind. */
  method UpdateBalanceForInsert(b: Balances, form: TxnForm) returns (r: Result<Balances, Error>)
    ensures r.Failure? <==> form.kind.Other?
    ensures r.Failure? ==> r.error == UnknownKind
    ensures r.Success? ==> r.value == ApplyEffects(b, InsertEffects(form.AsMovement()).value)
  {
    match form.kind
    case Spending =>
      var updated := UpdateBalance(b, form.payAccount, form.currency, -(form.amount + form.fee));
      ApplySingle(b, Effect(form.payAccount, form.currency, -(form.amount + form.fee)));
      r := Success(updated);
    case Income =>
      var updated := UpdateBalance(b, form.receiveAccount, form.currency, form.amount - form.fee);
      ApplySingle(b, Effect(form.receiveAccount, form.currency, form.amount - form.fee));
      r := Success(updated);
    case Transfer =>
      var updated := UpdateBalance(b, form.payAccount, form.currency, -form.amount - form.fee);
      updated := UpdateBalance(updated, form.receiveAccount, form.currency, form.amount);
      ApplyPair(b, Effect(form.payAccount, form.currency, -form.amount - form.fee),
                Effect(form.receiveAccount, form.currency, form.amount));
      r := Success(updated);
    case Other(_) =>
      r := Failure(UnknownKind);
  }

  /** updateBalanceForDelete: the reverse updates, computed from the stored row. */
  method UpdateBalanceForDelete(b: Balances, before: Txn) returns (r: Result<Balances, Error>)
    ensures r.Failure? <==> before.kind.Other?
    ensures r.Failure? ==> r.error == UnknownKind
    ensures r.Success? ==> r.value == ApplyEffects(b, DeleteEffects(before.AsMovement()).value)
  {
    match before.kind
    case Spending =>
      var updated := UpdateBalance(b, before.payAccount, before.currency, before.amount + before.fee);
      ApplySingle(b, Effect(before.payAccount, before.currency, before.amount + before.fee));
      r := Success(updated);
    case Income =>
      var updated := UpdateBalance(b, before.receiveAccount, before.currency, -(before.amount - before.fee));
      ApplySingle(b, Effect(before.receiveAccount, before.currency, -(before.amount - before.fee)));
      r := Success(updated);
    case Transfer =>
      var updated := UpdateBalance(b, before.payAccount, before.currency, before.amount + before.fee);
      updated := UpdateBalance(updated, before.receiveAccount, before.currency, -before.amount);
      ApplyPair(b, Effect(before.payAccount, before.currency, before.amount + before.fee),
                Effect(before.receiveAccount, before.currency, -before.amount));
      r := Success(updated);
    case Other(_) =>
      r := Failure(UnknownKind);
  }

  // ---------------------------------------------------------------------------
  // Search
  // ---------------------------------------------------------------------------

  /** The search criteria; `accountSeq` 0 and `currency` None mean "any". */
  datatype SearchCondition = SearchCondition(
    from: int,
    to: int,
    checkType: set<Kind>,
    currency: Option<Currency>,
    accountSeq: AccountId)

  predicate Matches(t: Txn, cond: SearchCondition) {
    && cond.from <= t.transactionDate <= cond.to
    && t.kind in cond.checkType
    && (cond.currency.Some? ==> t.currency == cond.currency.value)
    && (cond.accountSeq != 0 ==> t.payAccount == cond.accountSeq || t.receiveAccount == cond.accountSeq)
  }

  /** Search order: later date first, then larger id first. */
  predicate Before(v: TxnView, w: TxnView) {
    v.transactionDate > w.transactionDate
    || (v.transactionDate == w.transactionDate && v.transactionSeq > w.transactionSeq)
  }

  predicate Ordered(list: seq<TxnView>) {
    forall i, j | 0 <= i < j < |list| :: Before(list[i], list[j])
  }

  /** Any element of a non-empty set; which one is left open. */
  method Choose<T>(s: set<T>) returns (x: T)
    requires s != {}
    ensures x in s
  {
    x :| x in s;
  }

  /** Puts `v` into its place in an ordered list. */
  function InsertOrdered(list: seq<TxnView>, v: TxnView): (r: seq<TxnView>)
    requires Ordered(list)
    requires forall w | w in list :: w.transactionSeq != v.transactionSeq
    ensures Ordered(r)
    ensures forall w :: w in r <==> w in list || w == v
    decreases |list|
  {
    if list == [] || Before(v, list[0]) then [v] + list
    else
      var rest := InsertOrdered(list[1..], v);
      assert forall w | w in rest :: Before(list[0], w);
      [list[0]] + rest
  }

  // ---------------------------------------------------------------------------
  // The service
  // ---------------------------------------------------------------------------

  /** The sum of the contributions of all stored rows to one pair. */
  ghost function LedgerNet(records: map<int, Txn>, key: Key): int {
    SumBy(records, RowContribution(key))
  }

  ghost function RowContribution(key: Key): (int, Txn) -> int {
    (id: int, t: Txn) => RowNet(t, key)
  }

  class TransactionService {
    /** The transaction table, by transactionSeq. */
    var records: map<int, Txn>
    /** The balance table. */
    var balances: Balances
    /** The id the storage hands to the next saved row. */
    var nextSeq: int
    /** The balances owed to sources other than transactions (opening balances). */
    ghost var opening: Balances

    /** Each row is stored under its own id, every id is below the next one, and
        each balance is its opening value plus the effects of all stored rows. */
    ghost predicate Valid()
      reads this
    {
      && KeyedById()
      && (forall id | id in records :: id < nextSeq)
      && (forall k :: BalanceOf(balances, k) == BalanceOf(opening, k) + LedgerNet(records, k))
    }

    /** Each row is stored under its own transactionSeq. */
    ghost predicate KeyedById()
      reads this
    {
      forall id | id in records :: records[id].transactionSeq == id
    }

    /** No stored row has a kind outside the enumeration. */
    ghost predicate KnownKinds()
      reads this
    {
      forall id | id in records :: !records[id].kind.Other?
    }

    constructor (initial: Balances)
      ensures Valid() && KnownKinds()
      ensures records == map[] && balances == initial && opening == initial
    {
      records := map[];
      balances := initial;
      nextSeq := 1;
      opening := initial;
    }

    /** get: the stored row, copied, or the not-found error. */
    method Get(transactionSeq: int) returns (r: Result<TxnView, Error>)
      ensures r.Success? <==> transactionSeq in records
      ensures r.Failure? ==> r.error == NotFound
      ensures r.Success? ==> r.value == MapEntityToRes(records[transactionSeq])
    {
      if transactionSeq !in records {
        r := Failure(NotFound);
        return;
      }
      r := Success(MapEntityToRes(records[transactionSeq]));
    }

    /** save: stores a new row and applies its insert effects, all or nothing. */
    method Save(form: TxnForm) returns (r: Result<int, Error>)
      requires Valid()
      modifies this
      ensures Valid() && opening == old(opening)
      ensures old(KnownKinds()) ==> KnownKinds()
      ensures r.Failure? <==> form.kind.Other?
      ensures r.Failure? ==> r.error == UnknownKind
      ensures r.Failure? ==> records == old(records) && balances == old(balances) && nextSeq == old(nextSeq)
      ensures r.Success? ==>
        && r.value == old(nextSeq) && r.value !in old(records)
        && records == old(records)[r.value := NewRow(r.value, form)]
        && balances == ApplyEffects(old(balances), InsertEffects(form.AsMovement()).value)
        && nextSeq == old(nextSeq) + 1
    {
      // The atomic scope works on copies and commits them only at the end.
      var recs, bals := records, balances;
      var entity := NewRow(nextSeq, form);
      recs := recs[entity.transactionSeq := entity];
      var inserted := UpdateBalanceForInsert(bals, form);
      if inserted.Failure? {
        r := Failure(inserted.error);
        return;
      }
      ghost var oldRecords := records;
      records, balances, nextSeq := recs, inserted.value, nextSeq + 1;
      r := Success(entity.transactionSeq);
      forall k
        ensures BalanceOf(balances, k) == BalanceOf(opening, k) + LedgerNet(records, k)
      {
        ApplyEffectsPointwise(bals, InsertEffects(form.AsMovement()).value);
        SumByUpdate(oldRecords, RowContribution(k), entity.transactionSeq, entity);
      }
    }

    /** update: undoes the stored row's effects, overwrites the row and applies
        the form's effects, all or nothing. */
    method Update(form: TxnForm) returns (r: Outcome<Error>)
      requires Valid()
      modifies this
      ensures Valid() && opening == old(opening)
      ensures old(KnownKinds()) ==> KnownKinds()
      ensures nextSeq == old(nextSeq)
      ensures r.Fail? <==>
        || form.transactionSeq !in old(records)
        || old(records)[form.transactionSeq].kind.Other?
        || form.kind.Other?
      ensures form.transactionSeq !in old(records) ==> r == Fail(NotFound)
      ensures form.transactionSeq in old(records) && r.Fail? ==> r == Fail(UnknownKind)
      ensures r.Fail? ==> records == old(records) && balances == old(balances)
      ensures r.Pass? ==>
        var before := old(records)[form.transactionSeq];
        && records == old(records)[form.transactionSeq := UpdatedRow(before, form)]
        && balances == ApplyEffects(ApplyEffects(old(balances), DeleteEffects(before.AsMovement()).value),
                                    InsertEffects(form.AsMovement()).value)
    {
      var recs, bals := records, balances;
      if form.transactionSeq !in recs {
        r := Fail(NotFound);
        return;
      }
      var beforeData := recs[form.transactionSeq];
      var undone := UpdateBalanceForDelete(bals, beforeData);
      if undone.Failure? {
        r := Fail(undone.error);
        return;
      }
      bals := undone.value;
      var updateData := UpdatedRow(beforeData, form);
      recs := recs[updateData.transactionSeq := updateData];
      var inserted := UpdateBalanceForInsert(bals, form);
      if inserted.Failure? {
        // The row and the reverse updates written so far are rolled back.
        r := Fail(inserted.error);
        return;
      }
      ghost var oldRecords, oldBalances := records, balances;
      records, balances := recs, inserted.value;
      r := Pass;
      forall k
        ensures BalanceOf(balances, k) == BalanceOf(opening, k) + LedgerNet(records, k)
      {
        UpdateIsReverseThenForward(oldBalances, beforeData.AsMovement(), form.AsMovement());
        SumByUpdate(oldRecords, RowContribution(k), beforeData.transactionSeq, updateData);
      }
    }

    /** delete: removes the row and applies its reverse effects, all or nothing. */
    method Delete(transactionSeq: int) returns (r: Outcome<Error>)
      requires Valid()
      modifies this
      ensures Valid() && opening == old(opening)
      ensures old(KnownKinds()) ==> KnownKinds()
      ensures nextSeq == old(nextSeq)
      ensures r.Fail? <==> transactionSeq !in old(records) || old(records)[transactionSeq].kind.Other?
      ensures transactionSeq !in old(records) ==> r == Fail(NotFound)
      ensures transactionSeq in old(records) && r.Fail? ==> r == Fail(UnknownKind)
      ensures r.Fail? ==> records == old(records) && balances == old(balances)
      ensures r.Pass? ==>
        && records == old(records) - {transactionSeq}
        && balances == ApplyEffects(old(balances), DeleteEffects(old(records)[transactionSeq].AsMovement()).value)
    {
      var recs, bals := records, balances;
      if transactionSeq !in recs {
        r := Fail(NotFound);
        return;
      }
      var beforeData := recs[transactionSeq];
      recs := recs - {transactionSeq};
      var undone := UpdateBalanceForDelete(bals, beforeData);
      if undone.Failure? {
        r := Fail(undone.error);
        return;
      }
      ghost var oldRecords := records;
      records, balances := recs, undone.value;
      r := Pass;
      forall k
        ensures BalanceOf(balances, k) == BalanceOf(opening, k) + LedgerNet(records, k)
      {
        DeleteNegatesInsert(beforeData.AsMovement());
        ApplyEffectsPointwise(bals, DeleteEffects(beforeData.AsMovement()).value);
        NetNegated(InsertEffects(beforeData.AsMovement()).value, k);
        SumByRemove(oldRecords, RowContribution(k), transactionSeq);
      }
    }

    /** findList without the note filter: the matching rows, later date first,
        then larger id first. */
    method FindList(cond: SearchCondition) returns (list: seq<TxnView>)
      requires KeyedById()
      ensures Ordered(list)
      ensures forall id | id in records :: MapEntityToRes(records[id]) in list <==> Matches(records[id], cond)
      ensures forall v | v in list :: v.transactionSeq in records && v == MapEntityToRes(records[v.transactionSeq])
    {
      list := [];
      var pending := records.Keys;
      while pending != {}
        invariant pending <= records.Keys
        invariant Ordered(list)
        invariant forall id | id in records && id !in pending ::
          MapEntityToRes(records[id]) in list <==> Matches(records[id], cond)
        invariant forall v | v in list ::
          v.transactionSeq in records && v.transactionSeq !in pending && v == MapEntityToRes(records[v.transactionSeq])
        decreases pending
      {
        var next := Choose(pending);
        if Matches(records[next], cond) {
          list := InsertOrdered(list, MapEntityToRes(records[next]));
        }
        pending := pending - {next};
      }
    }
  }
}
