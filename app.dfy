/** The start-up steps of src/main.py that decide whether the menu is reached:
    the application-lock check (lines 55-79), the default account and
    categories (lines 82-88), and the lock settings of menu entry 12
    (lines 210-224).

    The in-memory lists and the lock record are fields of `App`; `saved` logs
    what `storage.save` is handed, in order. The lines typed at the prompts are
    a sequence `entered` (a line that is not there is the end of input, which
    raises and ends the program), the three readings of the clock are
    parameters, and so are the identifiers `generate_uuid` would return. */
module App {

  import opened Bytes
  import opened Encryption
  import opened Models

  const MAX_PROMPTS: nat := 5
  const MAX_WRONG_ATTEMPTS: int := 5
  const LOCK_SECONDS: int := 600

  /** How the password loop ended. */
  datatype Prompting = Prompting(
    ok: bool,             // a password matched
    wrongAttempts: int,   // the counter afterwards
    lockUntil: int,       // the lock deadline afterwards
    used: nat,            // prompts shown
    inputEnded: bool)     // input ran out at a prompt

  /** The test of line 65: the password hashes to the stored hash. */
  function Matches(c: Crypto, hash: string): string -> bool {
    (password: string) => HashPasswordHex(c, password) == hash
  }

  /** The password loop (lines 62-75) from prompt `i` on, with the counter at
      `wrong` and the deadline at `lockUntil`; `accepts` is the password test
      and `lockTime` the clock reading taken when the lock is set. */
  function PromptLoop(accepts: string -> bool, wrong: int, lockUntil: int,
                      entered: seq<string>, i: nat, lockTime: int): (r: Prompting)
    ensures r.ok ==> r.wrongAttempts == 0 && r.lockUntil == lockUntil && !r.inputEnded
    ensures r.inputEnded ==> !r.ok && r.lockUntil == lockUntil
    ensures r.lockUntil == lockUntil || r.lockUntil == lockTime + LOCK_SECONDS
    decreases MAX_PROMPTS - i
  {
    if i >= MAX_PROMPTS then Prompting(false, wrong, lockUntil, i, false)
    else if i >= |entered| then Prompting(false, wrong, lockUntil, i, true)
    else if accepts(entered[i]) then Prompting(true, 0, lockUntil, i + 1, false)
    else if wrong + 1 >= MAX_WRONG_ATTEMPTS then
      Prompting(false, wrong + 1, lockTime + LOCK_SECONDS, i + 1, false)
    else PromptLoop(accepts, wrong + 1, lockUntil, entered, i + 1, lockTime)
  }

  /** What happens at start-up. */
  datatype Outcome =
    | LockedOut        // still locked: leave without saving
    | LockedAndSaved   // the loop failed and the lock is in force: save and leave
    | InputEnded       // input ran out at a password prompt
    | Proceed          // go on to the menu

  /** The outcome of the lock check and the lock record afterwards; `now`,
      `lockTime` and `exitTime` are the clock readings of lines 57, 73 and 76. */
  function Unlock(c: Crypto, lock: AppLock, entered: seq<string>,
                  now: int, lockTime: int, exitTime: int): (r: (Outcome, AppLock))
    ensures r.1 == lock.(wrongAttempts := r.1.wrongAttempts, lockUntil := r.1.lockUntil)
    ensures !lock.enabled ==> r == (Proceed, lock)
    ensures lock.enabled && lock.lockUntil > now ==> r == (LockedOut, lock)
    ensures r.0 == LockedAndSaved ==> r.1.lockUntil > exitTime
    ensures r.0 == InputEnded ==> r.1.lockUntil == lock.lockUntil
  {
    if !lock.enabled then (Proceed, lock)
    else if lock.lockUntil > now then (LockedOut, lock)
    else
      var p := PromptLoop(Matches(c, lock.passwordHash), lock.wrongAttempts, lock.lockUntil, entered, 0, lockTime);
      var after := lock.(wrongAttempts := p.wrongAttempts, lockUntil := p.lockUntil);
      if p.inputEnded then (InputEnded, after)
      else if !p.ok && after.lockUntil > exitTime then (LockedAndSaved, after)
      else (Proceed, after)
  }

  // ------------------------------------------------------- the prompt loop

  /** A successful loop: the password at the last prompt shown matches, every
      earlier one did not, the counter is reset and the deadline is kept. */
  lemma {:induction false} PromptLoopSuccess(accepts: string -> bool, wrong: int, lockUntil: int,
                                             entered: seq<string>, i: nat, lockTime: int)
    ensures var r := PromptLoop(accepts, wrong, lockUntil, entered, i, lockTime);
      r.ok ==>
        && i < r.used <= MAX_PROMPTS && r.used <= |entered|
        && accepts(entered[r.used - 1])
        && (forall k :: i <= k < r.used - 1 ==> !accepts(entered[k]))
        && r.wrongAttempts == 0
        && r.lockUntil == lockUntil
        && !r.inputEnded
    decreases MAX_PROMPTS - i
  {
    if i < MAX_PROMPTS && i < |entered| && !accepts(entered[i])
       && wrong + 1 < MAX_WRONG_ATTEMPTS {
      PromptLoopSuccess(accepts, wrong + 1, lockUntil, entered, i + 1, lockTime);
    }
  }

  /** A failed loop: every prompt shown was answered wrongly and counted. */
  lemma {:induction false} PromptLoopFailure(accepts: string -> bool, wrong: int, lockUntil: int,
                                             entered: seq<string>, i: nat, lockTime: int)
    requires i <= MAX_PROMPTS
    ensures var r := PromptLoop(accepts, wrong, lockUntil, entered, i, lockTime);
      !r.ok ==>
        && i <= r.used <= MAX_PROMPTS
        && (forall k :: i <= k < r.used ==> k < |entered| && !accepts(entered[k]))
        && r.wrongAttempts == wrong + (r.used - i)
    decreases MAX_PROMPTS - i
  {
    if i < MAX_PROMPTS && i < |entered| && !accepts(entered[i])
       && wrong + 1 < MAX_WRONG_ATTEMPTS {
      PromptLoopFailure(accepts, wrong + 1, lockUntil, entered, i + 1, lockTime);
    }
  }

  /** How a failed loop ends: the deadline is set exactly when the counter
      reached the limit at a prompt; otherwise it is kept and the loop ran out
      of prompts or of input. */
  lemma {:induction false} PromptLoopFailureEnd(accepts: string -> bool, wrong: int, lockUntil: int,
                                                entered: seq<string>, i: nat, lockTime: int)
    requires i <= MAX_PROMPTS
    ensures var r := PromptLoop(accepts, wrong, lockUntil, entered, i, lockTime);
      !r.ok ==>
        && (r.wrongAttempts >= MAX_WRONG_ATTEMPTS && r.used > i ==>
              r.lockUntil == lockTime + LOCK_SECONDS && !r.inputEnded)
        && (r.wrongAttempts < MAX_WRONG_ATTEMPTS || r.used == i ==>
              r.lockUntil == lockUntil && (r.used == MAX_PROMPTS || r.inputEnded))
    decreases MAX_PROMPTS - i
  {
    if i < MAX_PROMPTS && i < |entered| && !accepts(entered[i])
       && wrong + 1 < MAX_WRONG_ATTEMPTS {
      PromptLoopFailure(accepts, wrong + 1, lockUntil, entered, i + 1, lockTime);
      PromptLoopFailureEnd(accepts, wrong + 1, lockUntil, entered, i + 1, lockTime);
    }
  }

  /** At most five prompts are shown. */
  lemma PromptLoopBound(accepts: string -> bool, wrong: int, lockUntil: int,
                        entered: seq<string>, lockTime: int)
    ensures PromptLoop(accepts, wrong, lockUntil, entered, 0, lockTime).used <= MAX_PROMPTS
  {
    PromptLoopSuccess(accepts, wrong, lockUntil, entered, 0, lockTime);
    PromptLoopFailure(accepts, wrong, lockUntil, entered, 0, lockTime);
  }

  /** From a non-negative counter, wrong answers at every prompt always end in
      the lock: after `5 - wrong` prompts, or after one when the counter is
      already at four or more. */
  lemma {:induction false} AllWrongLocks(accepts: string -> bool, wrong: int, lockUntil: int,
                                         entered: seq<string>, i: nat, lockTime: int)
    requires i < MAX_PROMPTS && wrong >= i
    requires |entered| >= MAX_PROMPTS
    requires forall k :: i <= k < MAX_PROMPTS ==> !accepts(entered[k])
    ensures var r := PromptLoop(accepts, wrong, lockUntil, entered, i, lockTime);
      && !r.ok && !r.inputEnded
      && r.lockUntil == lockTime + LOCK_SECONDS
      && r.used == i + (if wrong + 1 >= MAX_WRONG_ATTEMPTS then 1 else MAX_WRONG_ATTEMPTS - wrong)
      && r.wrongAttempts == if wrong + 1 >= MAX_WRONG_ATTEMPTS then wrong + 1 else MAX_WRONG_ATTEMPTS
    decreases MAX_PROMPTS - i
  {
    if wrong + 1 < MAX_WRONG_ATTEMPTS {
      AllWrongLocks(accepts, wrong + 1, lockUntil, entered, i + 1, lockTime);
    }
  }

  /** A stored counter of -1 (possible only through `from_dict`) lets five wrong
      answers through without setting the lock: the counter ends at 4. */
  lemma NegativeCounterEscapesLock(accepts: string -> bool, lockUntil: int,
                                   entered: seq<string>, lockTime: int)
    requires |entered| >= MAX_PROMPTS
    requires forall k :: 0 <= k < MAX_PROMPTS ==> !accepts(entered[k])
    ensures PromptLoop(accepts, -1, lockUntil, entered, 0, lockTime)
         == Prompting(false, 4, lockUntil, MAX_PROMPTS, false)
  {
    PromptLoopFailure(accepts, -1, lockUntil, entered, 0, lockTime);
    PromptLoopFailureEnd(accepts, -1, lockUntil, entered, 0, lockTime);
    PromptLoopSuccess(accepts, -1, lockUntil, entered, 0, lockTime);
  }

  // ------------------------------------------------------------ the check

  /** With a sane counter, and the clock moving less than the lock period
      between setting the lock and testing it, the menu is reached with the
      lock enabled only after a password that hashes to the stored hash. */
  lemma ProceedNeedsPassword(c: Crypto, lock: AppLock, entered: seq<string>,
                             now: int, lockTime: int, exitTime: int)
    requires lock.enabled && lock.wrongAttempts >= 0
    requires exitTime < lockTime + LOCK_SECONDS
    requires Unlock(c, lock, entered, now, lockTime, exitTime).0 == Proceed
    ensures exists k :: 0 <= k < MAX_PROMPTS && k < |entered| && HashPasswordHex(c, entered[k]) == lock.passwordHash
  {
    var accepts := Matches(c, lock.passwordHash);
    var r := PromptLoop(accepts, lock.wrongAttempts, lock.lockUntil, entered, 0, lockTime);
    PromptLoopSuccess(accepts, lock.wrongAttempts, lock.lockUntil, entered, 0, lockTime);
    PromptLoopFailure(accepts, lock.wrongAttempts, lock.lockUntil, entered, 0, lockTime);
    PromptLoopFailureEnd(accepts, lock.wrongAttempts, lock.lockUntil, entered, 0, lockTime);
    assert r.ok;
    assert accepts(entered[r.used - 1]);
  }

  /** The counter quirk reaches the menu: with the counter at -1 and no lock in
      force, five wrong passwords lead on to the menu. */
  lemma NegativeCounterProceeds(c: Crypto, lock: AppLock, entered: seq<string>,
                                now: int, lockTime: int, exitTime: int)
    requires lock.enabled && lock.wrongAttempts == -1
    requires lock.lockUntil <= now && lock.lockUntil <= exitTime
    requires |entered| >= MAX_PROMPTS
    requires forall k :: 0 <= k < MAX_PROMPTS ==> HashPasswordHex(c, entered[k]) != lock.passwordHash
    ensures Unlock(c, lock, entered, now, lockTime, exitTime) == (Proceed, lock.(wrongAttempts := 4))
  {
    assert forall k :: 0 <= k < MAX_PROMPTS ==> !Matches(c, lock.passwordHash)(entered[k]);
    NegativeCounterEscapesLock(Matches(c, lock.passwordHash), lock.lockUntil, entered, lockTime);
  }

  /** From any non-negative stored counter, wrong passwords at every prompt
      lock the application for ten minutes from the moment of the last one,
      and the lock is saved before exit. */
  lemma FiveWrongLockAndSave(c: Crypto, lock: AppLock, entered: seq<string>,
                             now: int, lockTime: int, exitTime: int)
    requires lock.enabled && lock.wrongAttempts >= 0 && lock.lockUntil <= now
    requires exitTime < lockTime + LOCK_SECONDS
    requires |entered| >= MAX_PROMPTS
    requires forall k :: 0 <= k < MAX_PROMPTS ==> HashPasswordHex(c, entered[k]) != lock.passwordHash
    ensures Unlock(c, lock, entered, now, lockTime, exitTime)
         == (LockedAndSaved,
             lock.(wrongAttempts := if lock.wrongAttempts + 1 >= MAX_WRONG_ATTEMPTS
                                    then lock.wrongAttempts + 1 else MAX_WRONG_ATTEMPTS,
                   lockUntil := lockTime + LOCK_SECONDS))
  {
    assert forall k :: 0 <= k < MAX_PROMPTS ==> !Matches(c, lock.passwordHash)(entered[k]);
    AllWrongLocks(Matches(c, lock.passwordHash), lock.wrongAttempts, lock.lockUntil, entered, 0, lockTime);
  }

  /** The counter carries over between runs: at four stored failures, one
      wrong password sets the lock. */
  lemma CounterCarriesOver(c: Crypto, lock: AppLock, entered: seq<string>,
                           now: int, lockTime: int, exitTime: int)
    requires lock.enabled && lock.wrongAttempts == 4 && lock.lockUntil <= now
    requires exitTime < lockTime + LOCK_SECONDS
    requires |entered| >= 1 && HashPasswordHex(c, entered[0]) != lock.passwordHash
    ensures Unlock(c, lock, entered, now, lockTime, exitTime)
         == (LockedAndSaved, lock.(wrongAttempts := 5, lockUntil := lockTime + LOCK_SECONDS))
  {
  }

  // ------------------------------------------------------- lock settings

  /** Menu entry 12: option "1" enables the lock with the hash of the new
      password; anything else disables it. Both clear the counter and the
      deadline. */
  function LockSetting(c: Crypto, op: string, newPassword: string): (lock: AppLock)
    ensures lock.wrongAttempts == 0 && lock.lockUntil == 0
    ensures lock.enabled <==> op == "1"
    ensures lock.enabled ==> lock.passwordHash == HashPasswordHex(c, newPassword)
    ensures !lock.enabled ==> lock.passwordHash == ""
  {
    if op == "1" then AppLock(true, HashPasswordHex(c, newPassword), 0, 0)
    else AppLock(false, "", 0, 0)
  }

  /** After enabling the lock, the next start-up accepts that password at the
      first prompt and reaches the menu with the record unchanged. */
  lemma EnabledPasswordUnlocks(c: Crypto, password: string, entered: seq<string>,
                               now: int, lockTime: int, exitTime: int)
    requires now >= 0
    requires |entered| >= 1 && entered[0] == password
    ensures var lock := LockSetting(c, "1", password);
      && Unlock(c, lock, entered, now, lockTime, exitTime) == (Proceed, lock)
      && PromptLoop(Matches(c, lock.passwordHash), 0, 0, entered, 0, lockTime).used == 1
  {
  }

  /** Under the stated laws of SHA-256 and UTF-8, the passwords that unlock
      are those whose digest equals that of the password set. */
  lemma UnlockingPasswords(c: Crypto, password: string, attempt: string)
    ensures HashPasswordHex(c, attempt) == LockSetting(c, "1", password).passwordHash
        <==> c.sha256(Utf8Encode(attempt)) == c.sha256(Utf8Encode(password))
  {
    HashPasswordHexMatches(c, attempt, password);
  }

  // ------------------------------------------------------------- defaults

  const CASH: string := "\U{73B0}\U{91D1}"
  const DINING: string := "\U{9910}\U{996E}"
  const SALARY: string := "\U{5DE5}\U{8D44}"

  /** An empty account list gets a cash account with zero balances. */
  function WithDefaultAccount(accounts: seq<Account>, accountId: string): (r: seq<Account>)
    ensures r != []
    ensures accounts != [] ==> r == accounts
    ensures accounts == [] ==> r == [Account(accountId, CASH, "", 0.0, 0.0)]
  {
    if accounts == [] then [Account(accountId, CASH, "", 0.0, 0.0)] else accounts
  }

  /** An empty category list gets a red expense category for dining and a
      green income category for salary. */
  function WithDefaultCategories(categories: seq<Category>, diningId: string, salaryId: string): (r: seq<Category>)
    ensures r != []
    ensures categories != [] ==> r == categories
    ensures categories == [] ==>
      && r == [Category(diningId, DINING, "", "#FF0000", Expense), Category(salaryId, SALARY, "", "#00AA00", Income)]
      && (exists k :: 0 <= k < |r| && r[k].kind == Expense)
      && (exists k :: 0 <= k < |r| && r[k].kind == Income)
  {
    if categories == [] then
      var r := [Category(diningId, DINING, "", "#FF0000", Expense), Category(salaryId, SALARY, "", "#00AA00", Income)];
      assert r[0].kind == Expense && r[1].kind == Income;
      r
    else categories
  }

  /** Supplying defaults a second time changes nothing. */
  lemma DefaultsIdempotent(accounts: seq<Account>, categories: seq<Category>,
                           a1: string, a2: string, d1: string, d2: string, s1: string, s2: string)
    ensures WithDefaultAccount(WithDefaultAccount(accounts, a1), a2) == WithDefaultAccount(accounts, a1)
    ensures WithDefaultCategories(WithDefaultCategories(categories, d1, s1), d2, s2)
         == WithDefaultCategories(categories, d1, s1)
  {
  }

  // ------------------------------------------------------------- the app

  /** The arguments of one `storage.save` call. */
  datatype Snapshot = Snapshot(txs: seq<Transaction>, accounts: seq<Account>,
                               categories: seq<Category>, applock: AppLock)

  class App {
    var txs: seq<Transaction>
    var accounts: seq<Account>
    var categories: seq<Category>
    var applock: AppLock
    var saved: seq<Snapshot>

    /** The state after `storage.load()`. */
    constructor(txs: seq<Transaction>, accounts: seq<Account>, categories: seq<Category>, applock: AppLock)
      ensures this.txs == txs && this.accounts == accounts && this.categories == categories
      ensures this.applock == applock && saved == []
    {
      this.txs := txs;
      this.accounts := accounts;
      this.categories := categories;
      this.applock := applock;
      saved := [];
    }

    /** Lines 55-79. */
    method CheckAppLock(c: Crypto, entered: seq<string>, now: int, lockTime: int, exitTime: int)
      returns (outcome: Outcome)
      modifies this
      ensures (outcome, applock) == Unlock(c, old(applock), entered, now, lockTime, exitTime)
      ensures saved == old(saved) + if outcome == LockedAndSaved then [Snapshot(txs, accounts, categories, applock)] else []
      ensures txs == old(txs) && accounts == old(accounts) && categories == old(categories)
    {
      if !applock.enabled {
        return Proceed;
      }
      if applock.lockUntil > now {
        return LockedOut;
      }
      var ok, ended := PromptForPassword(Matches(c, applock.passwordHash), entered, lockTime);
      if ended {
        return InputEnded;
      }
      if !ok && applock.lockUntil > exitTime {
        saved := saved + [Snapshot(txs, accounts, categories, applock)];
        return LockedAndSaved;
      }
      return Proceed;
    }

    /** Lines 62-75: up to five prompts, counting wrong answers in the record
        and setting the deadline when the counter reaches the limit; `ended`
        reports input running out at a prompt; `accepts` is the test of line
        65 against the stored hash. */
    method PromptForPassword(accepts: string -> bool, entered: seq<string>, lockTime: int)
      returns (ok: bool, ended: bool)
      modifies this
      ensures var r := PromptLoop(accepts, old(applock).wrongAttempts,
                                  old(applock).lockUntil, entered, 0, lockTime);
        && ok == r.ok && ended == r.inputEnded
        && applock == old(applock).(wrongAttempts := r.wrongAttempts, lockUntil := r.lockUntil)
      ensures txs == old(txs) && accounts == old(accounts) && categories == old(categories)
      ensures saved == old(saved)
    {
      ghost var spec := PromptLoop(accepts, applock.wrongAttempts, applock.lockUntil, entered, 0, lockTime);
      ok, ended := false, false;
      var i := 0;
      while i < MAX_PROMPTS
        invariant i <= MAX_PROMPTS
        invariant applock == old(applock).(wrongAttempts := applock.wrongAttempts, lockUntil := applock.lockUntil)
        invariant txs == old(txs) && accounts == old(accounts) && categories == old(categories)
        invariant saved == old(saved)
        invariant spec == PromptLoop(accepts, applock.wrongAttempts, applock.lockUntil, entered, i, lockTime)
        invariant !ok && !ended
      {
        if i >= |entered| {
          ended := true;
          return;
        }
        var p := entered[i];
        if accepts(p) {
          ok := true;
          applock := applock.(wrongAttempts := 0);
          return;
        }
        applock := applock.(wrongAttempts := applock.wrongAttempts + 1);
        if applock.wrongAttempts >= MAX_WRONG_ATTEMPTS {
          applock := applock.(lockUntil := lockTime + LOCK_SECONDS);
          return;
        }
        i := i + 1;
      }
    }

    /** Lines 82-88; the identifiers stand for fresh UUIDs. */
    method EnsureDefaults(accountId: string, diningId: string, salaryId: string)
      modifies this
      ensures accounts == WithDefaultAccount(old(accounts), accountId)
      ensures categories == WithDefaultCategories(old(categories), diningId, salaryId)
      ensures txs == old(txs) && applock == old(applock) && saved == old(saved)
    {
      if accounts == [] {
        accounts := accounts + [Account(accountId, CASH, "", 0.0, 0.0)];
      }
      if categories == [] {
        categories := categories + [Category(diningId, DINING, "", "#FF0000", Expense),
                                    Category(salaryId, SALARY, "", "#00AA00", Income)];
      }
    }

    /** Lines 210-224: `op` is the stripped choice, `newPassword` the line
        read for the new password (not stripped). */
    method LockSettings(c: Crypto, op: string, newPassword: string)
      modifies this
      ensures applock == LockSetting(c, op, newPassword)
      ensures txs == old(txs) && accounts == old(accounts) && categories == old(categories)
      ensures saved == old(saved)
    {
      if op == "1" {
        var p := newPassword;
        applock := applock.(enabled := true);
        applock := applock.(passwordHash := HashPasswordHex(c, p));
        applock := applock.(wrongAttempts := 0);
        applock := applock.(lockUntil := 0);
      } else {
        applock := applock.(enabled := false);
        applock := applock.(passwordHash := "");
        applock := applock.(wrongAttempts := 0);
        applock := applock.(lockUntil := 0);
      }
    }

    /** Lines 55-88 in sequence: the lock check, then, when the menu is to be
        reached, the defaults. */
    method Start(c: Crypto, entered: seq<string>, now: int, lockTime: int, exitTime: int,
                 accountId: string, diningId: string, salaryId: string)
      returns (outcome: Outcome)
      modifies this
      ensures (outcome, applock) == Unlock(c, old(applock), entered, now, lockTime, exitTime)
      ensures outcome == Proceed ==>
        && accounts == WithDefaultAccount(old(accounts), accountId)
        && categories == WithDefaultCategories(old(categories), diningId, salaryId)
      ensures saved == old(saved) + if outcome == LockedAndSaved then [Snapshot(txs, accounts, categories, applock)] else []
      ensures outcome != Proceed ==> accounts == old(accounts) && categories == old(categories)
      ensures txs == old(txs)
    {
      outcome := CheckAppLock(c, entered, now, lockTime, exitTime);
      if outcome == Proceed {
        EnsureDefaults(accountId, diningId, salaryId);
      }
    }
  }
}
