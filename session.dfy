/** The account session of the ATM: a stored PIN, a balance and a session flag,
    with the PIN gate, the two balance-changing transactions and the balance
    query written as pure functions over an account value. The class ATMApp in
    module ATMInterface updates its fields in place and is specified by these
    functions. Money is an exact `real`. */
module Session {

  /** What the amount dialog hands back: nothing (the user cancelled), a
      number, or a failure while reading it. */
  datatype AmountEntry = NoAmount | Amount(value: real) | Unreadable

  /** Tagged outcome of a deposit or a withdrawal. */
  datatype TxOutcome =
    | Success(amount: real)
    | Cancelled
    | InvalidAmount
    | InsufficientBalance
    | InvalidInput

  /** Tagged outcome of a PIN attempt. */
  datatype AuthOutcome = LoggedIn | IncorrectPin

  /** The whole state of one session. `authenticated` stands for "the main
      menu is showing". */
  datatype Account = Account(storedPin: string, balance: real, authenticated: bool)

  datatype AuthResult = AuthResult(outcome: AuthOutcome, account: Account)
  datatype TxResult = TxResult(outcome: TxOutcome, balance: real)

  const StoredPin: string := "1234"
  const OpeningBalance: real := 5000.0

  /** The account as the application creates it: on the login screen. */
  function Opening(): Account
  {
    Account(StoredPin, OpeningBalance, false)
  }

  /** The PIN gate: exact string equality, no lockout, no attempt counter. */
  function Authenticate(a: Account, pin: string): (r: AuthResult)
    ensures r.outcome == LoggedIn <==> pin == a.storedPin
    ensures r.account.storedPin == a.storedPin && r.account.balance == a.balance
    ensures r.account.authenticated <==> a.authenticated || pin == a.storedPin
    ensures r.outcome == IncorrectPin ==> r.account == a
  {
    if pin == a.storedPin then AuthResult(LoggedIn, a.(authenticated := true))
    else AuthResult(IncorrectPin, a)
  }

  /** A deposit: only a present, positive amount changes the balance. */
  function Deposit(balance: real, entry: AmountEntry): (r: TxResult)
    ensures r.outcome.Success? <==> entry.Amount? && entry.value > 0.0
    ensures r.outcome.Success? ==> r.outcome.amount == entry.value && r.balance == balance + entry.value
    ensures !r.outcome.Success? ==> r.balance == balance
    ensures r.outcome == Cancelled <==> entry.NoAmount?
    ensures r.outcome == InvalidInput <==> entry.Unreadable?
    ensures r.outcome == InvalidAmount <==> entry.Amount? && entry.value <= 0.0
    ensures r.outcome != InsufficientBalance
    ensures r.balance >= balance
  {
    match entry
    case NoAmount => TxResult(Cancelled, balance)
    case Unreadable => TxResult(InvalidInput, balance)
    case Amount(v) =>
      if v <= 0.0 then TxResult(InvalidAmount, balance)
      else TxResult(Success(v), balance + v)
  }

  /** A withdrawal: the amount is checked for positivity first, then against
      the balance; only an amount passing both is taken off. */
  function Withdraw(balance: real, entry: AmountEntry): (r: TxResult)
    ensures r.outcome.Success? <==> entry.Amount? && 0.0 < entry.value <= balance
    ensures r.outcome.Success? ==> r.outcome.amount == entry.value && r.balance == balance - entry.value
    ensures !r.outcome.Success? ==> r.balance == balance
    ensures r.outcome == Cancelled <==> entry.NoAmount?
    ensures r.outcome == InvalidInput <==> entry.Unreadable?
    ensures r.outcome == InvalidAmount <==> entry.Amount? && entry.value <= 0.0
    ensures r.outcome == InsufficientBalance <==> entry.Amount? && 0.0 < entry.value && balance < entry.value
    ensures balance >= 0.0 ==> r.balance >= 0.0
    ensures r.balance <= balance
  {
    match entry
    case NoAmount => TxResult(Cancelled, balance)
    case Unreadable => TxResult(InvalidInput, balance)
    case Amount(v) =>
      if v <= 0.0 then TxResult(InvalidAmount, balance)
      else if v > balance then TxResult(InsufficientBalance, balance)
      else TxResult(Success(v), balance - v)
  }

  /** A deposit of a positive amount followed by a withdrawal of the same
      amount gives back the balance it started from. */
  lemma DepositThenWithdrawRestores(balance: real, v: real)
    requires balance >= 0.0 && v > 0.0
    ensures Deposit(balance, Amount(v)) == TxResult(Success(v), balance + v)
    ensures Withdraw(balance + v, Amount(v)) == TxResult(Success(v), balance)
  {
  }

  /** A withdrawal that succeeds is undone by a deposit of the same amount. */
  lemma WithdrawThenDepositRestores(balance: real, v: real)
    requires 0.0 < v <= balance
    ensures Withdraw(balance, Amount(v)) == TxResult(Success(v), balance - v)
    ensures Deposit(balance - v, Amount(v)) == TxResult(Success(v), balance)
  {
  }

  /** One user action, as the login screen and the menu buttons issue them. */
  datatype Action =
    | Login(pin: string)
    | MakeDeposit(entry: AmountEntry)
    | MakeWithdrawal(entry: AmountEntry)
    | QueryBalance

  /** What the user is shown in answer to an action. */
  datatype Response = Auth(auth: AuthOutcome) | Tx(tx: TxOutcome) | Shown(shown: real)

  datatype StepResult = StepResult(account: Account, response: Response)

  /** Signed amount of money an action moved, given the response it drew:
      a completed deposit adds its amount, a completed withdrawal takes it. */
  function Delta(act: Action, resp: Response): real
  {
    if resp.Tx? && resp.tx.Success? then
      if act.MakeDeposit? then resp.tx.amount
      else if act.MakeWithdrawal? then -resp.tx.amount
      else 0.0
    else 0.0
  }

  /** One action applied to the session. The menu operations do not look at
      the session flag: only the user interface keeps them from being
      reached before login. */
  function Step(a: Account, act: Action): (r: StepResult)
    ensures r.account.storedPin == a.storedPin
    ensures r.account.authenticated <==> a.authenticated || act == Login(a.storedPin)
    ensures a.balance >= 0.0 ==> r.account.balance >= 0.0
    ensures r.account.balance == a.balance + Delta(act, r.response)
    ensures act == QueryBalance ==> r.account == a && r.response == Shown(a.balance)
  {
    match act
    case Login(pin) =>
      var ar := Authenticate(a, pin);
      StepResult(ar.account, Auth(ar.outcome))
    case MakeDeposit(e) =>
      var t := Deposit(a.balance, e);
      StepResult(a.(balance := t.balance), Tx(t.outcome))
    case MakeWithdrawal(e) =>
      var t := Withdraw(a.balance, e);
      StepResult(a.(balance := t.balance), Tx(t.outcome))
    case QueryBalance =>
      StepResult(a, Shown(a.balance))
  }

  datatype Trace = Trace(account: Account, responses: seq<Response>)

  /** A whole session: the actions applied one after another, with the final
      account and one response per action. */
  function Run(a: Account, acts: seq<Action>): (r: Trace)
    ensures |r.responses| == |acts|
    decreases |acts|
  {
    if acts == [] then Trace(a, [])
    else
      var st := Step(a, acts[0]);
      var rest := Run(st.account, acts[1..]);
      Trace(rest.account, [st.response] + rest.responses)
  }

  /** Net money moved by a session, action by action. */
  function NetFlow(acts: seq<Action>, resps: seq<Response>): real
    requires |acts| == |resps|
    decreases |acts|
  {
    if acts == [] then 0.0
    else Delta(acts[0], resps[0]) + NetFlow(acts[1..], resps[1..])
  }

  /** The balance never goes negative, whatever the user does. */
  lemma {:induction false} RunKeepsBalanceNonNegative(a: Account, acts: seq<Action>)
    requires a.balance >= 0.0
    ensures Run(a, acts).account.balance >= 0.0
    decreases |acts|
  {
    if acts != [] {
      RunKeepsBalanceNonNegative(Step(a, acts[0]).account, acts[1..]);
    }
  }

  /** The stored PIN is never changed. */
  lemma {:induction false} RunKeepsStoredPin(a: Account, acts: seq<Action>)
    ensures Run(a, acts).account.storedPin == a.storedPin
    decreases |acts|
  {
    if acts != [] {
      RunKeepsStoredPin(Step(a, acts[0]).account, acts[1..]);
    }
  }

  /** The final balance is the opening one plus every completed deposit minus
      every completed withdrawal: no money appears or disappears otherwise. */
  lemma {:induction false} RunConservesMoney(a: Account, acts: seq<Action>)
    ensures Run(a, acts).account.balance == a.balance + NetFlow(acts, Run(a, acts).responses)
    decreases |acts|
  {
    if acts != [] {
      var st := Step(a, acts[0]);
      RunConservesMoney(st.account, acts[1..]);
      assert Run(a, acts).responses[1..] == Run(st.account, acts[1..]).responses;
    }
  }

  /** The session is authenticated at the end exactly when it already was or
      the correct PIN was entered at some point: login is one-way and nothing
      but the correct PIN opens it. */
  lemma {:induction false} RunAuthenticatedIff(a: Account, acts: seq<Action>)
    ensures Run(a, acts).account.authenticated <==>
            a.authenticated || exists i :: 0 <= i < |acts| && acts[i] == Login(a.storedPin)
    decreases |acts|
  {
    if acts != [] {
      var st := Step(a, acts[0]);
      var tail := acts[1..];
      RunAuthenticatedIff(st.account, tail);
      if exists i :: 0 <= i < |acts| && acts[i] == Login(a.storedPin) {
        var i :| 0 <= i < |acts| && acts[i] == Login(a.storedPin);
        if i > 0 {
          assert tail[i - 1] == acts[i];
        }
      }
      if exists j :: 0 <= j < |tail| && tail[j] == Login(a.storedPin) {
        var j :| 0 <= j < |tail| && tail[j] == Login(a.storedPin);
        assert acts[j + 1] == tail[j];
      }
    }
  }

  /** Running two action sequences in turn is running their concatenation. */
  lemma {:induction false} RunAppend(a: Account, xs: seq<Action>, ys: seq<Action>)
    ensures Run(a, xs + ys).account == Run(Run(a, xs).account, ys).account
    ensures Run(a, xs + ys).responses == Run(a, xs).responses + Run(Run(a, xs).account, ys).responses
    decreases |xs|
  {
    if xs != [] {
      assert (xs + ys)[0] == xs[0];
      assert (xs + ys)[1..] == xs[1..] + ys;
      RunAppend(Step(a, xs[0]).account, xs[1..], ys);
    } else {
      assert xs + ys == ys;
    }
  }

  predicate FailedLogins(a: Account, acts: seq<Action>)
  {
    forall i :: 0 <= i < |acts| ==> acts[i].Login? && acts[i].pin != a.storedPin
  }

  /** Any number of wrong PINs leaves the account exactly as it was and each
      one is answered IncorrectPin: there is no counter and no lockout. */
  lemma {:induction false} FailedLoginsChangeNothing(a: Account, acts: seq<Action>)
    requires FailedLogins(a, acts)
    ensures Run(a, acts).account == a
    ensures forall i :: 0 <= i < |acts| ==> Run(a, acts).responses[i] == Auth(IncorrectPin)
    decreases |acts|
  {
    if acts != [] {
      assert FailedLogins(a, acts[1..]) by {
        forall i | 0 <= i < |acts| - 1 ensures acts[1..][i].Login? && acts[1..][i].pin != a.storedPin {
          assert acts[1..][i] == acts[i + 1];
        }
      }
      assert Step(a, acts[0]) == StepResult(a, Auth(IncorrectPin));
      FailedLoginsChangeNothing(a, acts[1..]);
    }
  }

  /** After any number of wrong PINs the correct PIN still logs in. */
  lemma NoLockout(a: Account, acts: seq<Action>)
    requires FailedLogins(a, acts)
    ensures Run(a, acts + [Login(a.storedPin)]).account == a.(authenticated := true)
    ensures Run(a, acts + [Login(a.storedPin)]).responses[|acts|] == Auth(LoggedIn)
  {
    FailedLoginsChangeNothing(a, acts);
    RunAppend(a, acts, [Login(a.storedPin)]);
    assert Run(a, [Login(a.storedPin)]) == Trace(a.(authenticated := true), [Auth(LoggedIn)]);
  }
}
