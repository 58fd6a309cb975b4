/** The ATM application object with its presentation stripped away: the PIN it
    was created with, a balance it updates in place, and a flag standing for
    "the main menu is showing". Every method is specified by the matching
    function of module Session. */
module ATMInterface {
  import opened Session

  class ATMApp {
    const correctPin: string
    var balance: real
    var authenticated: bool

    /** The object invariant: the balance is never negative. */
    ghost predicate Valid()
      reads this
    {
      balance >= 0.0
    }

    /** The session value this object currently holds. */
    function Model(): Account
      reads this
    {
      Account(correctPin, balance, authenticated)
    }

    /** A fresh application: PIN "1234", balance 5000.00, login screen. */
    constructor ()
      ensures Valid()
      ensures Model() == Opening()
    {
      correctPin := StoredPin;
      balance := OpeningBalance;
      authenticated := false;
    }

    /** The Login button: a match opens the main menu, a mismatch leaves
        everything as it was. */
    method CheckPin(pin: string) returns (outcome: AuthOutcome)
      requires Valid()
      modifies this`authenticated
      ensures Valid()
      ensures AuthResult(outcome, Model()) == Authenticate(old(Model()), pin)
    {
      if pin == correctPin {
        authenticated := true;
        outcome := LoggedIn;
      } else {
        outcome := IncorrectPin;
      }
    }

    /** The Check Balance button: reads the balance and changes nothing. */
    method CheckBalance() returns (shown: real)
      requires Valid()
      ensures Step(Model(), QueryBalance) == StepResult(Model(), Shown(shown))
      ensures shown >= 0.0
    {
      shown := balance;
    }

    /** The Deposit button, given what the amount dialog returned. */
    method Deposit(entry: AmountEntry) returns (outcome: TxOutcome)
      requires Valid()
      modifies this`balance
      ensures Valid()
      ensures TxResult(outcome, balance) == Session.Deposit(old(balance), entry)
    {
      match entry
      case NoAmount =>
        outcome := Cancelled;
      case Unreadable =>
        outcome := InvalidInput;
      case Amount(amount) =>
        if amount <= 0.0 {
          outcome := InvalidAmount;
        } else {
          balance := balance + amount;
          outcome := Success(amount);
        }
    }

    /** The Withdraw button, given what the amount dialog returned. */
    method Withdraw(entry: AmountEntry) returns (outcome: TxOutcome)
      requires Valid()
      modifies this`balance
      ensures Valid()
      ensures TxResult(outcome, balance) == Session.Withdraw(old(balance), entry)
    {
      match entry
      case NoAmount =>
        outcome := Cancelled;
      case Unreadable =>
        outcome := InvalidInput;
      case Amount(amount) =>
        if amount <= 0.0 {
          outcome := InvalidAmount;
        } else if amount > balance {
          outcome := InsufficientBalance;
        } else {
          balance := balance - amount;
          outcome := Success(amount);
        }
    }
  }

  /** A session on a fresh application, driven through the methods alone:
      a wrong PIN, the right one, then deposits, withdrawals and a balance
      query, with the answer to each. */
  method Scenario() returns (responses: seq<Response>, finalBalance: real)
    ensures responses == [
      Auth(IncorrectPin), Auth(LoggedIn),
      Tx(Success(1500.0)), Tx(InsufficientBalance), Tx(Success(6500.0)),
      Tx(InsufficientBalance), Tx(InvalidAmount), Tx(InvalidAmount),
      Tx(Cancelled), Shown(0.0)]
    ensures finalBalance == 0.0
  {
    var app := new ATMApp();
    var a := app.CheckPin("0000");
    var b := app.CheckPin("1234");
    var c := app.Deposit(Amount(1500.0));
    var d := app.Withdraw(Amount(7000.0));
    var e := app.Withdraw(Amount(6500.0));
    var f := app.Withdraw(Amount(0.01));
    var g := app.Deposit(Amount(-5.0));
    var h := app.Deposit(Amount(0.0));
    var i := app.Withdraw(NoAmount);
    var shown := app.CheckBalance();
    responses := [Auth(a), Auth(b), Tx(c), Tx(d), Tx(e), Tx(f), Tx(g), Tx(h), Tx(i), Shown(shown)];
    finalBalance := app.balance;
  }
}
