# hackthiscontract: job registry and ERC20 validator

This project models the core of a web service where users deploy sample
smart contracts and then try to "hack" them. The service has two parts
with behaviour worth proving:

- **The job registry** in `run.py`. Two dictionaries, `deployers` and
  `graders`, map a pair (user address, contract name) to the web3 worker
  handling it. `get_deploy_thread_status` and `get_grade_thread_status`
  create a worker only for a pair that has none, and reuse the existing
  worker otherwise. The handlers `done` and `grade` drop a pair once its
  worker reports a finished result. The handlers `dashboard`, `deploy`,
  `view` and `update` also make small string decisions: they parse the
  challenge number and route on the status text.
- **The ERC20 challenge validator** in `challenges/03_ERC20.py`. `setup`
  funds the deployed contract with 50000000000000000 units.
  `has_been_hacked` reports a hack once the contract holds less than that.

Modules:

- `Wrappers` (wrappers.dfy): `Option` and `Result`.
- `Text` (text.dfy): the Python string operations the handlers use, each
  with an independent definition:
  - `str.lower()`;
  - the substring test `in`;
  - `split("_")[0]`;
  - `int()`.
- `Routes` (routes.dfy):
  - the challenge-number parse;
  - the "deployed" test;
  - the `deploy`/`view`/`update` decisions;
  - the `dashboard` loop.
- `Registry` (registry.dfy): class `JobRegistry`.
  - It holds both dictionaries as `map<(string, string), Handle>` fields,
    plus a count of created workers.
  - A ghost log `launches` records every worker creation, including
    `IdleGrader` entries for grading workers that were registered but
    never started.
  - A worker's status is supplied by the caller as a function
    `report: Handle -> WorkerStatus`, because the workers live in the web3
    helper library, which is not part of this model.
  - The invariant `Valid` says that every registered handle is a worker
    created for its own key and of its own kind.
- `Erc20` (erc20.dfy):
  - class `Chain`, whose account balances are a `map<string, nat>`;
  - class `Contract`, the validator;
  - the repeated polling of the hack check.

## Model

| member | source | states |
|---|---|---|
| `Text.Lower` | run.py:91 | `lower()` keeps the length and lower-cases each ASCII letter in place |
| `Text.ContainsIff` | run.py:91 | the `in` test holds exactly when the substring occurs at some index (both directions) |
| `Text.ContainsLowerIff` | run.py:101 | for a lower-case pattern, `pattern in s.lower()` is exactly a case-insensitive occurrence of the pattern in `s` |
| `Text.ContainsWord` | run.py:137 | the handlers' test `word in s.lower()`, for a lower-case word, holds exactly when the word occurs in `s` in any letter case |
| `Text.FirstField` | run.py:37 | `split("_")[0]` is the prefix of the id that holds no "_" and ends at the first "_" or at the end |
| `Text.ParseInt` | run.py:37 | `int()` succeeds exactly on an optional sign followed by one or more digits; unsigned and "+" text gives the digits' decimal value, "-" text its negation; any other text is a ValueError |
| `Text.DecimalRoundTrip` | run.py:37 | a rendered natural number parses back to itself |
| `Routes.ChallengeNumber` | run.py:37 | the challenge number is the integer `int()` reads from the text before the first "_" (so "03_x" gives 3); it fails with a ValueError exactly when that prefix is not an integer |
| `Routes.ChallengeNumberOfId` | run.py:37 | any id of the form `<n>_<name>` yields the number n |
| `Routes.ChallengeNumberWithLeadingZero` | run.py:37 | "03_ERC20" yields 3 |
| `Routes.Deploy` | run.py:87-94 | the deploy form is shown exactly when status[0] contains "not started" in any letter case; otherwise a redirect to the view page; an empty row is an IndexError |
| `Routes.View` | run.py:97-107 | "Not started!" is answered exactly when status[0] contains "not started" in any letter case; otherwise the view page is always shown, flagged done exactly when status[0] contains "done" in any letter case; an empty row is an IndexError |
| `Routes.Update` | run.py:126-140 | with no validator file the handler fails on an undefined name, never redirects; a row of fewer than three fields is an IndexError; otherwise the grading page is shown exactly when the status contains "unfinished" in any letter case, else a redirect to the dashboard |
| `Routes.Tabulate` | run.py:33-39 | the dashboard loop for a given numbering of ids: it succeeds exactly when every id is numbered; each id then gets its number, its status row, and deployed == (row length is 3); otherwise it stops at the first id that is not numbered, with that id's error |
| `Routes.Dashboard` | run.py:30-41 | the dashboard numbers ids by the integer before the first "_"; it succeeds exactly when every id has such a number, giving each its entry as above; otherwise it aborts with a ValueError for the first id without one |
| `Registry.HandlesDistinct` | run.py:11-12 | in a consistent registry no worker serves two keys, or both a deployment and a grading run |
| `Registry.JobRegistry.constructor` | run.py:11-12 | both dictionaries start empty and no worker has been started |
| `Registry.JobRegistry.GetDeployThreadStatus` | run.py:44-54 | absent key: one new handle is inserted and exactly one deployment is started for (contract, address). Present key: nothing is created or started. Either way the key is then present, every other entry and all of `graders` are unchanged, and the key's handle's status is returned |
| `Registry.JobRegistry.GetGradeThreadStatus` | run.py:56-67 | the same create-if-absent behaviour on `graders`, with `deployers` unchanged. For an absent key the worker is registered before the address lookup: a grading run then starts with the looked-up address; if the lookup raises, the exception escapes and the worker stays registered without ever being started. A present key consults no lookup |
| `Registry.JobRegistry.Done` | run.py:69-84 | the deploy key is removed, and status[1] is written as the deployed address, exactly when status[0] == "deployed" and status[1] is not None; otherwise nothing is removed or written; the reply is status[0] when non-empty, else "Starting deployment process" |
| `Registry.JobRegistry.Grade` | run.py:109-123 | the grade key is removed exactly when status[0] == "graded" and status[1] is not None; nothing is written and `deployers` is unchanged; the reply is status[0] when non-empty, else "Starting grading process"; a lookup exception escapes with the new worker left registered |
| `Registry.RedeployAfterDone` | run.py:75-80 | on any consistent registry, after `done` has removed a finished deployment (replying "deployed" and writing its address), the next lookup for the same pair registers a handle that was in no earlier entry and starts a new deployment for that pair; the log gains exactly that deployment, preceded by one for the pair if `done` itself had to create its worker |
| `Registry.RedeployExample` | run.py:48-51 | on a fresh registry: the first visit answers "deployed" and writes the address; the second visit gets worker number 1, a new one |
| `Erc20.HackedBoundary` | challenges/03_ERC20.py:11 | a balance of exactly 50000000000000000 is not hacked; one unit less is |
| `Erc20.HackedMonotone` | challenges/03_ERC20.py:11-14 | if a balance is hacked, every smaller balance is hacked |
| `Erc20.Chain.Deposit` | challenges/03_ERC20.py:7 | a deposit credits the amount to the account and changes no other balance |
| `Erc20.Contract.Setup` | challenges/03_ERC20.py:6-7 | the contract's balance grows by exactly 50000000000000000, every other balance is unchanged, and the contract is then not hacked |
| `Erc20.Contract.HasBeenHacked` | challenges/03_ERC20.py:9-14 | true exactly when the contract's balance is strictly below 50000000000000000; the check modifies nothing |
| `Erc20.SetupThenCheck` | challenges/03_ERC20.py:7-14 | the check right after `setup` answers false, whatever the contract held before |
| `Erc20.FirstHackedPoll` | challenges/03_ERC20.py:11-14 | over polled balances, the first true verdict is at the first balance below the threshold; no verdict means no polled balance was below it |
| `Erc20.ThirdPollDetectsHack` | challenges/03_ERC20.py:11-14 | the balances 50000000000000000, 50000000000000000, 49999999999999999 give the first true verdict at the third poll |

Notes on the code as written:

- `done` deletes the registry entry first and only then writes the
  deployed address to the database (run.py:79-80). The model keeps that
  order. A finished deployment therefore leaves the registry even if the
  write fails afterwards.
- `grade` drops a grading run only on "graded" with a result. An
  unfinished run stays registered, and later visits reuse it.
- `get_grade_thread_status` registers the new worker (run.py:62) before
  it looks up the deployed address (run.py:63). If that lookup raises,
  the pair stays registered with a worker that never started grading,
  and every later visit reuses that idle worker (run.py:66). The model
  keeps this: the lookup is a `Result`, and its error leaves an
  `IdleGrader` entry in the log.
- `update` reads the contract address from `status_blob[2]`
  (run.py:135) before it looks at the status. A row of a challenge that
  was never deployed therefore raises an IndexError instead of
  redirecting.
- In `update`, the branch for a missing validator file refers to
  `contract` (run.py:132). That name is unbound in this handler, so the
  branch fails with a NameError. The model returns that error and does
  not return a redirect.
- In `03_ERC20.py`, `has_been_hacked(self)` drops the `web3_contract`
  parameter that the base class declares (icontract.py:15). `setup` uses
  `self.web3`, while the base class initialises `self.eweb3`
  (icontract.py:5). The model follows the subclass. The chain gateway is
  the `Chain` argument, and the check takes no contract object.

## Left out

- Threads and races. The model is sequential. It does not model the
  possible race flagged at run.py:79, or two requests interleaving inside
  a create-if-absent lookup.
- The web3 helper library (`easyweb3`, `ethereum`) is not part of this
  model. It covers worker creation, deployment, grading, the deposit
  transaction and the balance query.
  - A worker's status is a function from handles to statuses, supplied by
    the caller and observed at the time of the call.
  - The status tuple is modelled by its first two fields only, since the
    handlers read no others.
  - A worker's creation is recorded in the ghost log `launches`. Its work
    is not performed.
- The database helpers in `util` are not part of this model.
  - The status row of `get_status` is an input.
  - The address write of `done` is returned as an `AddressWrite` value.
  - The outcome of the address lookup in `get_grade_thread_status` is an
    input: the stored address, or the exception it raised.
  - `util.get_contract_number` is not part of this model, so the write is
    keyed by the contract name it is applied to.
  - `util.exists` and `get_ranking_from_db` are not modelled.
- `util.check_address_decorator` is not part of this model, so no address
  validation is modelled.
- Flask routing, templates, `redirect`/`url_for` and the `app.run` entry
  point are left out. Page results are datatype values. Only the
  decisions that pick them are modelled.
- Reading the challenge `.json`/`.sol` files from disk (run.py:35-36,
  103-104) is I/O and is left out. So is its failure on a missing file.
- `hello`, `init_application`, `close_connection`, `redeploy` and
  `ranking` are left out. They only render a page, open or close the
  database, or call a database helper.
- The `print` logging in the handlers is left out.
- `Text.Lower`: lower-cases ASCII letters only. Python's `str.lower()` also
  folds non-ASCII letters, which the status texts do not use.
- `Text.ParseInt`: accepts no surrounding whitespace and no non-ASCII
  digits, though Python's `int()` does. Challenge ids are written as
  `<digits>_<name>`.
- `Registry.JobRegistry.GetDeployThreadStatus`: the deployment call
  (run.py:51) belongs to the web3 helper library and is taken never to
  raise. If it did raise, the pair would stay registered (run.py:50).
- `Registry.JobRegistry.GetGradeThreadStatus`: the grading call
  (run.py:64) belongs to the web3 helper library and is taken never to
  raise. If it did raise, the pair would stay registered (run.py:62) with
  a worker that never started grading. Only the address lookup's
  exception (run.py:63) is modelled.
- `Erc20.Contract.Setup`: the `web3_contract` argument that `setup`
  passes to `deposit` (challenges/03_ERC20.py:6-7) is not modelled. The
  deposit is a credit to the contract's address on the given `Chain`.
- `Erc20.Chain.Deposit`: credits the target only. The debit of the paying
  account and gas costs belong to the web3 helper library.
  - The deposit takes effect at once. Whether `self.web3.deposit`
    (challenges/03_ERC20.py:7) waits for the transaction to be mined is
    up to that library.
  - `has_been_hacked` queries a fresh `ethereum.EasyWeb3()`
    (challenges/03_ERC20.py:10). The model assumes it sees the same chain
    as `self.web3`, since both are the one `Chain` argument.
    `Erc20.SetupThenCheck` rests on both assumptions.
- The abstract base class `IContract` (icontract.py) is not modelled
  separately. Its methods only raise `NotImplementedError`. Its
  `contract_object` and `eweb3` fields are unused by the ERC20 validator.
  The contract and user addresses, which its constructor sets to None and
  the caller fills in later, are constructor arguments of `Contract`
  here.
- Dynamic selection of a validator module per challenge happens in the
  web3 helper library and is not modelled. Only the ERC20 validator is.
- `Erc20.FirstHackedPoll` models repeated calls of the check over a
  sequence of observed balances. The polling interval and the attempt
  budget of the real grading worker are not part of this model.
