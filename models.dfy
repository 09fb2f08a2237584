/** The records of src/models.py and their `to_dict` / `from_dict` pairs.

    A dictionary is a `map<string, Value>` whose values are the JSON scalars
    the records are stored as. `from_dict` fills a missing key with the field's
    default and converts the value the way the source does (`float(...)`,
    `int(...)`, `bool(...)`, `TxType(...)`); where the source would raise, or
    would store a value of the wrong type in a field, the model returns a
    `FieldError`. Amounts are exact reals. */
module Models {

  import opened Wrappers

  /** `TxType`, a string enumeration with exactly two members. */
  datatype TxType = Income | Expense

  /** `TxType.value`. */
  function TxTypeValue(t: TxType): (s: string)
    ensures s == "income" || s == "expense"
  {
    match t
    case Income => "income"
    case Expense => "expense"
  }

  /** `TxType(s)`: the member whose value is `s`; ValueError for any other string. */
  function TxTypeOf(s: string): (r: Option<TxType>)
    ensures r.Some? <==> s == "income" || s == "expense"
    ensures r.Some? ==> TxTypeValue(r.value) == s
  {
    if s == "income" then Some(Income)
    else if s == "expense" then Some(Expense)
    else None
  }

  /** The value of a member names it and no other: `TxType(t.value) == t`. */
  lemma TxTypeRoundTrip(t: TxType)
    ensures TxTypeOf(TxTypeValue(t)) == Some(t)
  {
  }

  datatype Value =
    | Null
    | Flag(b: bool)
    | Integer(i: int)
    | Decimal(r: real)
    | Text(s: string)

  type Dict = map<string, Value>

  datatype FieldError =
    | Raises(key: string)     // the conversion raises ValueError or TypeError
    | Untyped(key: string)    // the source would keep a non-string in a string field

  // ---------------------------------------------------------- conversions

  /** `d.get(key, default)` for a string field. */
  function GetText(d: Dict, key: string, default: string): (r: Result<string, FieldError>)
    ensures key !in d ==> r == Success(default)
    ensures key in d && d[key].Text? ==> r == Success(d[key].s)
    ensures key in d && !d[key].Text? ==> r == Failure(Untyped(key))
  {
    if key !in d then Success(default)
    else match d[key]
      case Text(s) => Success(s)
      case _ => Failure(Untyped(key))
  }

  /** `float(d.get(key, default))`. */
  function GetFloat(d: Dict, key: string, default: real): (r: Result<real, FieldError>)
    ensures key !in d ==> r == Success(default)
    ensures key in d && d[key].Decimal? ==> r == Success(d[key].r)
    ensures key in d && d[key].Integer? ==> r == Success(d[key].i as real)
    ensures key in d && d[key].Flag? ==> r == Success(if d[key].b then 1.0 else 0.0)
    ensures key in d && (d[key].Null? || d[key].Text?) ==> r == Failure(Raises(key))
  {
    if key !in d then Success(default)
    else match d[key]
      case Decimal(x) => Success(x)
      case Integer(n) => Success(n as real)
      case Flag(b) => Success(if b then 1.0 else 0.0)
      case _ => Failure(Raises(key))  // None raises; a numeric string is not parsed here
  }

  /** `int(x)` of a float truncates toward zero. */
  function Truncate(x: real): (n: int)
    ensures x >= 0.0 ==> n as real <= x < n as real + 1.0
    ensures x < 0.0 ==> n as real - 1.0 < x <= n as real
  {
    if x >= 0.0 then x.Floor else -((-x).Floor)
  }

  /** `int(d.get(key, default))`. */
  function GetInt(d: Dict, key: string, default: int): (r: Result<int, FieldError>)
    ensures key !in d ==> r == Success(default)
    ensures key in d && d[key].Integer? ==> r == Success(d[key].i)
    ensures key in d && d[key].Decimal? ==> r == Success(Truncate(d[key].r))
    ensures key in d && d[key].Flag? ==> r == Success(if d[key].b then 1 else 0)
    ensures key in d && (d[key].Null? || d[key].Text?) ==> r == Failure(Raises(key))
  {
    if key !in d then Success(default)
    else match d[key]
      case Integer(n) => Success(n)
      case Decimal(x) => Success(Truncate(x))
      case Flag(b) => Success(if b then 1 else 0)
      case _ => Failure(Raises(key))  // None raises; a numeric string is not parsed here
  }

  /** `bool(d.get(key, default))`: Python's truthiness, defined for every value. */
  function GetBool(d: Dict, key: string, default: bool): (r: bool)
    ensures key !in d ==> r == default
    ensures key in d && d[key].Flag? ==> r == d[key].b
    ensures key in d ==>
      (!r <==> d[key] in {Null, Flag(false), Integer(0), Decimal(0.0), Text("")})
  {
    if key !in d then default
    else match d[key]
      case Null => false
      case Flag(b) => b
      case Integer(n) => n != 0
      case Decimal(x) => x != 0.0
      case Text(s) => s != ""
  }

  /** `TxType(d.get(key, TxType.Expense.value))`. */
  function GetTxType(d: Dict, key: string): (r: Result<TxType, FieldError>)
    ensures key !in d ==> r == Success(Expense)
    ensures r.Success? ==> key !in d || d[key] == Text(TxTypeValue(r.value))
    ensures key in d ==> (r.Success? <==> d[key] == Text("income") || d[key] == Text("expense"))
    ensures r.Failure? ==> r.error == Raises(key)
  {
    if key !in d then Success(Expense)
    else match d[key]
      case Text(s) =>
        (match TxTypeOf(s)
         case Some(t) => Success(t)
         case None => Failure(Raises(key)))
      case _ => Failure(Raises(key))
  }

  // ---------------------------------------------------------- Transaction

  datatype Transaction = Transaction(
    id: string,
    kind: TxType,
    amount: real,
    categoryId: string,
    accountId: string,
    datetime: string,  // ISO 8601
    remark: string,
    receiptPath: string)

  const TRANSACTION_KEYS: set<string> :=
    {"id", "type", "amount", "category_id", "account_id", "datetime", "remark", "receipt_path"}

  /** `Transaction.to_dict`: every field under its own name, `type` as its value. */
  function TransactionToDict(t: Transaction): (d: Dict)
    ensures d.Keys == TRANSACTION_KEYS
  {
    map["id" := Text(t.id), "type" := Text(TxTypeValue(t.kind)), "amount" := Decimal(t.amount),
        "category_id" := Text(t.categoryId), "account_id" := Text(t.accountId),
        "datetime" := Text(t.datetime), "remark" := Text(t.remark),
        "receipt_path" := Text(t.receiptPath)]
  }

  /** `key` is absent or holds a string, which a `str` field takes as is. */
  predicate TextOk(d: Dict, key: string) {
    key !in d || d[key].Text?
  }

  /** `key` is absent or holds a value `float()` and `int()` accept without
      parsing: a number or a bool. */
  predicate NumberOk(d: Dict, key: string) {
    key !in d || !(d[key].Null? || d[key].Text?)
  }

  /** `key` is absent or holds one of the two `TxType` values. */
  predicate TxTypeOk(d: Dict, key: string) {
    key !in d || d[key] == Text("income") || d[key] == Text("expense")
  }

  /** `Transaction.from_dict`. */
  function TransactionFromDict(d: Dict): (r: Result<Transaction, FieldError>)
    ensures r.Success? <==>
      && TextOk(d, "id") && TxTypeOk(d, "type") && NumberOk(d, "amount")
      && TextOk(d, "category_id") && TextOk(d, "account_id") && TextOk(d, "datetime")
      && TextOk(d, "remark") && TextOk(d, "receipt_path")
  {
    var id :- GetText(d, "id", "");
    var kind :- GetTxType(d, "type");
    var amount :- GetFloat(d, "amount", 0.0);
    var categoryId :- GetText(d, "category_id", "");
    var accountId :- GetText(d, "account_id", "");
    var datetime :- GetText(d, "datetime", "");
    var remark :- GetText(d, "remark", "");
    var receiptPath :- GetText(d, "receipt_path", "");
    Success(Transaction(id, kind, amount, categoryId, accountId, datetime, remark, receiptPath))
  }

  lemma TransactionRoundTrip(t: Transaction)
    ensures TransactionFromDict(TransactionToDict(t)) == Success(t)
  {
  }

  lemma TransactionDefaults()
    ensures TransactionFromDict(map[]) == Success(Transaction("", Expense, 0.0, "", "", "", "", ""))
  {
  }

  /** A dictionary of the shape `to_dict` writes. */
  ghost predicate IsTransactionDict(d: Dict) {
    && d.Keys == TRANSACTION_KEYS
    && d["id"].Text? && d["category_id"].Text? && d["account_id"].Text?
    && d["datetime"].Text? && d["remark"].Text? && d["receipt_path"].Text?
    && d["type"] in {Text("income"), Text("expense")}
    && d["amount"].Decimal?
  }

  /** Reading a dictionary of that shape and writing it back reproduces it. */
  lemma TransactionDictRoundTrip(d: Dict)
    requires IsTransactionDict(d)
    ensures TransactionFromDict(d).Success?
    ensures TransactionToDict(TransactionFromDict(d).value) == d
  {
    var t := TransactionDictFields(d);
    var e := TransactionToDict(t);
    assert forall k | k in TRANSACTION_KEYS :: e[k] == d[k];
  }

  /** Each field is read from its own key. */
  lemma TransactionDictFields(d: Dict) returns (t: Transaction)
    requires IsTransactionDict(d)
    ensures TransactionFromDict(d) == Success(t)
    ensures Text(t.id) == d["id"] && Text(TxTypeValue(t.kind)) == d["type"] && Decimal(t.amount) == d["amount"]
    ensures Text(t.categoryId) == d["category_id"] && Text(t.accountId) == d["account_id"]
    ensures Text(t.datetime) == d["datetime"] && Text(t.remark) == d["remark"]
    ensures Text(t.receiptPath) == d["receipt_path"]
  {
    var kind := if d["type"] == Text("income") then Income else Expense;
    t := Transaction(d["id"].s, kind, d["amount"].r, d["category_id"].s, d["account_id"].s,
                     d["datetime"].s, d["remark"].s, d["receipt_path"].s);
    assert GetTxType(d, "type") == Success(kind);
  }

  // -------------------------------------------------------------- Account

  datatype Account = Account(
    id: string,
    name: string,
    icon: string,
    initialBalance: real,
    currentBalance: real)

  const ACCOUNT_KEYS: set<string> := {"id", "name", "icon", "initial_balance", "current_balance"}

  /** `Account.to_dict`. */
  function AccountToDict(a: Account): (d: Dict)
    ensures d.Keys == ACCOUNT_KEYS
  {
    map["id" := Text(a.id), "name" := Text(a.name), "icon" := Text(a.icon),
        "initial_balance" := Decimal(a.initialBalance),
        "current_balance" := Decimal(a.currentBalance)]
  }

  /** `Account.from_dict`. */
  function AccountFromDict(d: Dict): (r: Result<Account, FieldError>)
    ensures r.Success? <==>
      && TextOk(d, "id") && TextOk(d, "name") && TextOk(d, "icon")
      && NumberOk(d, "initial_balance") && NumberOk(d, "current_balance")
  {
    var id :- GetText(d, "id", "");
    var name :- GetText(d, "name", "");
    var icon :- GetText(d, "icon", "");
    var initialBalance :- GetFloat(d, "initial_balance", 0.0);
    var currentBalance :- GetFloat(d, "current_balance", 0.0);
    Success(Account(id, name, icon, initialBalance, currentBalance))
  }

  lemma AccountRoundTrip(a: Account)
    ensures AccountFromDict(AccountToDict(a)) == Success(a)
  {
  }

  lemma AccountDefaults()
    ensures AccountFromDict(map[]) == Success(Account("", "", "", 0.0, 0.0))
  {
  }

  // ------------------------------------------------------------- Category

  datatype Category = Category(
    id: string,
    name: string,
    icon: string,
    color: string,
    kind: TxType)

  const CATEGORY_KEYS: set<string> := {"id", "name", "icon", "color", "type"}
  const DEFAULT_COLOR: string := "#000000"

  /** `Category.to_dict`: `type` as its value. */
  function CategoryToDict(c: Category): (d: Dict)
    ensures d.Keys == CATEGORY_KEYS
  {
    map["id" := Text(c.id), "name" := Text(c.name), "icon" := Text(c.icon),
        "color" := Text(c.color), "type" := Text(TxTypeValue(c.kind))]
  }

  /** `Category.from_dict`. */
  function CategoryFromDict(d: Dict): (r: Result<Category, FieldError>)
    ensures r.Success? <==>
      && TextOk(d, "id") && TextOk(d, "name") && TextOk(d, "icon") && TextOk(d, "color")
      && TxTypeOk(d, "type")
  {
    var id :- GetText(d, "id", "");
    var name :- GetText(d, "name", "");
    var icon :- GetText(d, "icon", "");
    var color :- GetText(d, "color", DEFAULT_COLOR);
    var kind :- GetTxType(d, "type");
    Success(Category(id, name, icon, color, kind))
  }

  lemma CategoryRoundTrip(c: Category)
    ensures CategoryFromDict(CategoryToDict(c)) == Success(c)
  {
  }

  lemma CategoryDefaults()
    ensures CategoryFromDict(map[]) == Success(Category("", "", "", "#000000", Expense))
  {
  }

  // -------------------------------------------------------------- AppLock

  datatype AppLock = AppLock(
    enabled: bool,
    passwordHash: string,  // hexadecimal SHA-256
    wrongAttempts: int,
    lockUntil: int)        // epoch seconds

  const APPLOCK_KEYS: set<string> := {"enabled", "password_hash", "wrong_attempts", "lock_until"}

  /** `AppLock()`: disabled, no hash, no failures, not locked. */
  const DEFAULT_APPLOCK: AppLock := AppLock(false, "", 0, 0)

  /** `AppLock.to_dict`. */
  function AppLockToDict(l: AppLock): (d: Dict)
    ensures d.Keys == APPLOCK_KEYS
  {
    map["enabled" := Flag(l.enabled), "password_hash" := Text(l.passwordHash),
        "wrong_attempts" := Integer(l.wrongAttempts), "lock_until" := Integer(l.lockUntil)]
  }

  /** `AppLock.from_dict`. */
  function AppLockFromDict(d: Dict): (r: Result<AppLock, FieldError>)
    ensures r.Success? <==>
      TextOk(d, "password_hash") && NumberOk(d, "wrong_attempts") && NumberOk(d, "lock_until")
  {
    var enabled := GetBool(d, "enabled", false);
    var passwordHash :- GetText(d, "password_hash", "");
    var wrongAttempts :- GetInt(d, "wrong_attempts", 0);
    var lockUntil :- GetInt(d, "lock_until", 0);
    Success(AppLock(enabled, passwordHash, wrongAttempts, lockUntil))
  }

  lemma AppLockRoundTrip(l: AppLock)
    ensures AppLockFromDict(AppLockToDict(l)) == Success(l)
  {
  }

  lemma AppLockDefaults()
    ensures AppLockFromDict(map[]) == Success(DEFAULT_APPLOCK)
  {
  }
}
