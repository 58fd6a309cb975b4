# ATM account session in Dafny

This project models the account session of a small ATM simulator. The
application object `ATMApp` holds three things. It has a PIN fixed at
creation ("1234") and a balance (5000.00 at start). It also has a login state:
first the login screen shows, then the main menu. Entering the PIN
compares it with the stored one, and a match opens the menu. Deposit and
withdraw read an amount from a dialog. An amount that is missing, unreadable,
not positive, or (for a withdrawal) larger than the balance is refused, and
the balance stays unchanged. Any other amount is added or taken off. The
balance query only reads.

The project has two modules:

- `Session` (session.dfy) is the specification as pure functions over an
  `Account` value. `Authenticate`, `Deposit`, `Withdraw`, one user action
  (`Step`) and a whole sequence of actions (`Run`) are all functions here.
  The module also holds the lemmas about whole sessions: the balance never
  goes negative, money is conserved, login is one-way and happens only
  with the correct PIN, the PIN never changes, and there is no lockout.
- `ATMInterface` (atm_interface.dfy) has the class `ATMApp`. Its
  `balance` and `authenticated` fields are updated in place, and
  `correctPin` is a constant. Each method's contract ties the outcome and the
  new state to the matching `Session` function and keeps the invariant
  `balance >= 0`. `Scenario` drives a fresh object through a whole session
  and states every answer it gets.

Modelling choices:

- Money is an exact `real`, not a binary float.
- The source keeps no login flag. The main menu showing after a correct PIN
  is modelled as `authenticated := true`. No operation sets it back.
- Deposit, withdraw and the balance query do not check `authenticated`,
  which matches the source. Only the user interface keeps them out of reach
  before login: the menu buttons exist only once the menu is built.
- The amount dialog's answer is an `AmountEntry`: `NoAmount` (the dialog
  was cancelled), `Amount(v)`, or `Unreadable`. `Unreadable` stands for an
  exception while reading the amount, which the source catches and reports
  as "Invalid input." The code shows a different message for this than for a
  non-positive amount, so the model gives it its own outcome,
  `InvalidInput`, rather than folding it into `InvalidAmount`.

## Model

| member | source | states |
|---|---|---|
| ATMInterface.ATMApp.constructor | ATMInterface.py:9-12 | a new application holds PIN "1234" and balance 5000.00, starts on the login screen (not authenticated), and satisfies the invariant balance >= 0 |
| ATMInterface.ATMApp.CheckPin | ATMInterface.py:26-31 | the outcome and the new session state are exactly those of Session.Authenticate on the old state; the balance is untouched and the invariant is kept |
| ATMInterface.ATMApp.CheckBalance | ATMInterface.py:41-42 | returns the current balance, which is non-negative, and changes nothing, agreeing with the balance-query step of the session |
| ATMInterface.ATMApp.Deposit | ATMInterface.py:44-55 | the outcome and new balance are exactly Session.Deposit of the old balance; the login state is untouched; balance >= 0 is kept |
| ATMInterface.ATMApp.Withdraw | ATMInterface.py:57-70 | the outcome and new balance are exactly Session.Withdraw of the old balance; the login state is untouched; balance >= 0 is kept |
| ATMInterface.Scenario | ATMInterface.py:9-68 | on a fresh application: "0000" gives IncorrectPin; "1234" logs in; depositing 1500 succeeds; withdrawing 7000 gives InsufficientBalance; withdrawing 6500 succeeds; withdrawing 0.01 gives InsufficientBalance; depositing -5 and 0 each give InvalidAmount; a cancelled withdrawal gives Cancelled; the balance query then shows 0 |
| Session.Authenticate | ATMInterface.py:26-31 | login succeeds exactly when the candidate equals the stored PIN, so the empty string and strings of the wrong length fail; afterwards the session is authenticated iff it was before or the PIN matched; the PIN and balance never change; a failure leaves the account identical |
| Session.Deposit | ATMInterface.py:46-53 | succeeds exactly for a present amount > 0, and then reports that amount and raises the balance by exactly that amount, with no upper bound; a missing amount gives Cancelled, an unreadable one InvalidInput, and an amount <= 0 InvalidAmount, each with the balance unchanged; the balance never decreases |
| Session.Withdraw | ATMInterface.py:59-68 | succeeds exactly when 0 < amount <= balance, and then lowers the balance by exactly that amount; InvalidAmount exactly for an amount <= 0, even one that also exceeds the balance, because positivity is checked first; InsufficientBalance exactly for a positive amount above the balance; Cancelled and InvalidInput for a missing or unreadable amount; a non-negative balance stays non-negative; the balance never increases |
| Session.DepositThenWithdrawRestores | ATMInterface.py:49-67 | depositing a positive amount and then withdrawing the same amount both succeed and restore the original balance exactly |
| Session.WithdrawThenDepositRestores | ATMInterface.py:49-67 | a successful withdrawal followed by a deposit of the same amount restores the original balance exactly |
| Session.Step | ATMInterface.py:26-70 | one user action keeps the stored PIN; it authenticates exactly on the correct PIN and never logs out; it keeps the balance non-negative; it changes the balance only by the signed amount of a completed deposit or withdrawal; the balance query changes nothing and shows the balance |
| Session.Run | ATMInterface.py:33-39 | a sequence of user actions yields exactly one response per action |
| Session.RunKeepsBalanceNonNegative | ATMInterface.py:57-68 | starting from a non-negative balance, the balance is non-negative after any sequence of logins, deposits, withdrawals and balance queries |
| Session.RunKeepsStoredPin | ATMInterface.py:9 | the stored PIN is the same after any sequence of actions |
| Session.RunConservesMoney | ATMInterface.py:44-70 | after any sequence of actions, the final balance is the starting balance plus every completed deposit minus every completed withdrawal |
| Session.RunAuthenticatedIff | ATMInterface.py:26-31 | after any sequence of actions the session is authenticated iff it started so or the correct PIN was entered at some point (one-way login, nothing else opens it) |
| Session.FailedLoginsChangeNothing | ATMInterface.py:26-31 | any number of wrong PINs leaves the account identical and each attempt is answered IncorrectPin (no attempt counter) |
| Session.NoLockout | ATMInterface.py:26-31 | after any number of wrong PINs, the correct PIN still logs in and leaves everything else as it was |

## Left out

- The tkinter presentation is not modelled. This covers the window title and
  size, the widget layout of the login screen and main menu, clearing the
  screen, and the message and input dialogs. It is user-interface plumbing
  around a library outside this model. The dialog's answer becomes the
  `AmountEntry` parameter, and each message becomes a tagged outcome.
- Parsing typed text into a number inside the amount dialog is not modelled;
  the dialog's result arrives already parsed. An exception raised while
  reading the amount becomes the `Unreadable` entry. An exception raised by
  a message box after the balance has changed is not modelled.
- IEEE double rounding and the two-decimal "₹" display format are not
  modelled. Amounts are exact reals, so results such as deposit-then-withdraw
  restoring the balance hold exactly here but can differ by rounding in
  floating point.
- The Exit button and the process's event loop are not modelled. They are
  process control, not account logic. `Session.Run` stands in for "any
  sequence of button presses".
