# Bank ledger and todo store: a Dafny model

This project models the request handlers of two small in-memory REST
services and proves what they do to their state.

- **Ledger** (`ledger.dfy`): a bank-account service. The shared `customers`
  array holds records with `cpf`, `name`, `id` and a `statement` of credit
  and debit operations. The handlers open an account (unique by CPF),
  deposit, withdraw (refused when the balance does not cover the amount),
  list the statement or the operations of one day, rename, delete, and
  report the balance. The balance is a left fold over the statement.
- **TodoStore** (`todos.dfy`): a user/todo service. The `database` object
  holds `users` and `todos`. The handlers register users (unique by
  username), look users up, and create, list, show, update, patch and
  delete todos behind a login middleware and an ownership middleware.
- **Common** (`common.dfy`): `undefined` as `Option.None`, handler
  outcomes, and the array methods both services use: `find`, `filter` and
  `splice(start, 1)`.

Each service is a class whose fields are the arrays the source mutates.
Records are datatype values: an in-place field assignment or `push` on a
record becomes an update of the array element. The lookups, the balance
fold and the filters are functions with lemmas about them.

The todo service is modelled as written, including its property-name
mismatches:

- users are stored with `token`, while both lookups read `user_token`;
- new todos copy the owner from `user.userToken`;
- PATCH sets `done` to false;
- DELETE splices `users` rather than `todos`.

The model proves what follows from this. A stored user never has
`user_token`. A login that sends a token therefore always fails, and a
login without one succeeds as the first user. The ownership check never
answers 403, and every logged-in user is shown every todo. Both DELETE
handlers hand an object to `splice`. The object coerces to index 0, so the
first record is removed rather than the one that was found.

## Model

| member | source | states |
|---|---|---|
| Common.FindFirst | rocketseat/node/aulas/primeiro_projeto_com_node/src/index.js:14 | `find`: returns the first index whose element satisfies the predicate, and `None` exactly when no element does |
| Common.Filter | rocketseat/node/aulas/primeiro_projeto_com_node/src/index.js:98 | `filter`: every kept element satisfies the predicate; every satisfying element is kept as often as it occurs; nothing else is kept |
| Common.FilterIsSubsequence | rocketseat/node/aulas/primeiro_projeto_com_node/src/index.js:98 | `filter` keeps the original order: the result is a subsequence of the input |
| Common.FilterAppend | rocketseat/node/projetos/desafio1/src/index.js:117 | filtering `a + b` is filtering `a` followed by filtering `b` |
| Common.FilterEmpty | rocketseat/node/projetos/desafio1/src/index.js:117-121 | the filter result is empty exactly when no element satisfies the predicate |
| Common.FilterAll | rocketseat/node/projetos/desafio1/src/index.js:117 | when every element satisfies the predicate, the filter returns the whole array |
| Common.SpliceOne | rocketseat/node/aulas/primeiro_projeto_com_node/src/index.js:120 | `splice(start, 1)`: a start at or past the end removes nothing; otherwise exactly one element is removed, the one at `start`, at `length + start` for a negative start, or the first when that is still negative (element positions: `Common.SpliceOneRemovesAt`; the object start: `Common.SpliceObjectDropsFirst`) |
| Common.SpliceOneRemovesAt | rocketseat/node/aulas/primeiro_projeto_com_node/src/index.js:120 | `splice(k, 1)` with `k` in range removes exactly element `k`: the length drops by one, earlier elements stay, later ones shift down |
| Common.SpliceObjectDropsFirst | rocketseat/node/aulas/primeiro_projeto_com_node/src/index.js:120 | `splice` with an object as start index removes the first element of a non-empty array and leaves an empty one empty |
| Ledger.Apply | rocketseat/node/aulas/primeiro_projeto_com_node/src/index.js:26-33 | the `reduce` callback moves the accumulator by the operation's share of the credit and debit totals: up by a credit's amount, down by a debit's |
| Ledger.Reduce | rocketseat/node/aulas/primeiro_projeto_com_node/src/index.js:26-33 | the `reduce` fold from any start value equals that value plus the credit amounts minus the debit amounts |
| Ledger.Balance | rocketseat/node/aulas/primeiro_projeto_com_node/src/index.js:25-36 | `getBalance` equals the sum of credits minus the sum of debits, so an empty statement has balance 0 (the movement per operation is `Ledger.BalanceAppend`) |
| Ledger.TotalsAppend | rocketseat/node/aulas/primeiro_projeto_com_node/src/index.js:25-36 | credit and debit totals are additive over concatenated statements |
| Ledger.BalanceAppend | rocketseat/node/aulas/primeiro_projeto_com_node/src/index.js:65-69 | appending a credit raises the balance by its amount; appending a debit lowers it by its amount |
| Ledger.AdmissibleAppend | rocketseat/node/aulas/primeiro_projeto_com_node/src/index.js:77-88 | a statement extended by one operation stays admissible exactly when the operation is a non-negative credit or a debit the prior balance covers |
| Ledger.AdmissibleNeverNegative | rocketseat/node/aulas/primeiro_projeto_com_node/src/index.js:74-91 | in a statement of non-negative deposits and covered withdrawals, every prefix has a non-negative balance |
| Ledger.AllAdmissibleSolvent | rocketseat/node/aulas/primeiro_projeto_com_node/src/index.js:125-131 | when every statement is admissible, every customer's balance is non-negative |
| Ledger.OnDay | rocketseat/node/aulas/primeiro_projeto_com_node/src/index.js:97-98 | the operations of the requested day, each as often as in the statement and in statement order; an unparsable date matches nothing |
| Ledger.OnDayAppend | rocketseat/node/aulas/primeiro_projeto_com_node/src/index.js:69 | an operation pushed onto a statement appears at the end of its own day's listing, after the earlier operations, and in no other day's listing |
| Ledger.Lookup | rocketseat/node/aulas/primeiro_projeto_com_node/src/index.js:11-23 | `verifyIfExistsAccountByCPF`: the first customer whose `cpf` equals the header; `None` (answered 400) exactly when there is none |
| Ledger.CpfTaken | rocketseat/node/aulas/primeiro_projeto_com_node/src/index.js:41 | `some`: true exactly when some customer has the given `cpf` |
| Ledger.LookupFindsOwner | rocketseat/node/aulas/primeiro_projeto_com_node/src/index.js:14 | with unique CPFs, each customer is found by its own CPF |
| Ledger.DeleteSparesFoundCustomer | rocketseat/node/aulas/primeiro_projeto_com_node/src/index.js:117-123 | when the found customer is not the first, it is still found after the delete, and the first customer is no longer found |
| Ledger.Bank.constructor | rocketseat/node/aulas/primeiro_projeto_com_node/src/index.js:9 | the ledger starts with no customers |
| Ledger.Bank.CreateAccount | rocketseat/node/aulas/primeiro_projeto_com_node/src/index.js:38-55 | a taken CPF is refused with `customers` unchanged; otherwise exactly one customer with an empty statement is appended; CPF uniqueness and solvency are kept |
| Ledger.Bank.GetStatement | rocketseat/node/aulas/primeiro_projeto_com_node/src/index.js:57-59 | returns the statement of the first customer with the requested CPF; fails exactly when no customer has it |
| Ledger.Bank.Deposit | rocketseat/node/aulas/primeiro_projeto_com_node/src/index.js:61-72 | an unknown CPF changes nothing; otherwise exactly one credit with the given description, amount and instant is appended to the found customer, the balance rises by the amount, and no other customer changes; a non-negative deposit keeps every statement admissible |
| Ledger.Bank.Withdraw | rocketseat/node/aulas/primeiro_projeto_com_node/src/index.js:74-91 | an unknown CPF or a balance below the amount changes nothing; otherwise exactly one debit without description is appended, the balance falls by the amount and stays non-negative, and no other customer changes; every statement stays admissible |
| Ledger.Bank.StatementOnDay | rocketseat/node/aulas/primeiro_projeto_com_node/src/index.js:93-101 | fails exactly when no customer has the CPF; otherwise returns that customer's operations of the requested day |
| Ledger.Bank.UpdateName | rocketseat/node/aulas/primeiro_projeto_com_node/src/index.js:103-110 | only the found customer's `name` changes; its `cpf`, `id` and `statement` and all other customers stay as they were |
| Ledger.Bank.GetAccount | rocketseat/node/aulas/primeiro_projeto_com_node/src/index.js:112-115 | returns the first stored customer with the requested CPF; fails exactly when no customer has it |
| Ledger.Bank.Delete | rocketseat/node/aulas/primeiro_projeto_com_node/src/index.js:117-123 | an unknown CPF changes nothing; otherwise the first customer is removed, whichever one was found, and the length drops by one |
| Ledger.Bank.GetBalance | rocketseat/node/aulas/primeiro_projeto_com_node/src/index.js:125-131 | returns the found customer's credits minus debits, which is non-negative while every statement is admissible; fails exactly when no customer has the CPF |
| TodoStore.LoggedIn | rocketseat/node/projetos/desafio1/src/index.js:16-27 | the first user whose `user_token` equals the header value; `UserNotFound` exactly when there is none |
| TodoStore.TodoIndex | rocketseat/node/projetos/desafio1/src/index.js:32 | the first todo whose `token` equals the route token; `None` exactly when there is none |
| TodoStore.Owned | rocketseat/node/projetos/desafio1/src/index.js:29-41 | a missing todo fails with a TypeError; a found todo whose `user_token` differs from the user's fails with 403; otherwise the found todo is returned |
| TodoStore.Authorize | rocketseat/node/projetos/desafio1/src/index.js:126 | the login check, then the ownership check for the logged-in user; a success names a todo with the route token |
| TodoStore.OwnedBy | rocketseat/node/projetos/desafio1/src/index.js:117 | the todos whose `user_token` equals the user's, each as often as stored, in stored order |
| TodoStore.OwnedByAppend | rocketseat/node/projetos/desafio1/src/index.js:99 | a todo pushed onto the store appears at the end of its owner's listing, after the earlier ones, and in no other listing |
| TodoStore.TokenLoginFails | rocketseat/node/projetos/desafio1/src/index.js:16-27 | when no stored user has `user_token`, a login that sends a token always fails |
| TodoStore.HeaderlessLoginIsFirstUser | rocketseat/node/projetos/desafio1/src/index.js:17-18 | when no stored user has `user_token`, a login without the header succeeds, as the first user, exactly when some user exists |
| TodoStore.OwnershipNeverRefused | rocketseat/node/projetos/desafio1/src/index.js:34 | when neither users nor todos carry `user_token`, the ownership check never answers 403 |
| TodoStore.ListingShowsAllTodos | rocketseat/node/projetos/desafio1/src/index.js:117 | when neither users nor todos carry `user_token`, the listing returns every todo |
| TodoStore.Store.constructor | rocketseat/node/projetos/desafio1/src/index.js:9-12 | the store starts with no users and no todos |
| TodoStore.Store.CreateUser | rocketseat/node/projetos/desafio1/src/index.js:45-65 | a taken username is refused with `users` unchanged; otherwise one user with `token`, no `user_token` and null `updated_at` is appended; usernames stay unique; `todos` is unchanged |
| TodoStore.Store.GetUser | rocketseat/node/projetos/desafio1/src/index.js:67-77 | returns a user whose `user_token` equals the route value and fails exactly when none has it; with stored users it always fails |
| TodoStore.Store.ListUsers | rocketseat/node/projetos/desafio1/src/index.js:79-81 | returns the stored users |
| TodoStore.Store.CreateTodo | rocketseat/node/projetos/desafio1/src/index.js:85-102 | a failed login changes nothing; otherwise exactly one todo is appended, not done, with null `updated_at` and its owner taken from `user.userToken` (hence absent); `users` is unchanged |
| TodoStore.Store.GetTodo | rocketseat/node/projetos/desafio1/src/index.js:104-112 | answers with the error of the middlewares, or with the first stored todo that has the route token (the one the ownership check found) |
| TodoStore.Store.ListTodos | rocketseat/node/projetos/desafio1/src/index.js:114-124 | fails when the login fails or when the user owns no todo; otherwise returns exactly the user's todos in stored order, which in a valid store is every todo |
| TodoStore.Store.UpdateTodo | rocketseat/node/projetos/desafio1/src/index.js:126-133 | on the authorized todo only `title` and `deadline` change; an invalid deadline leaves the new title in place and ends with a RangeError; owner, `done`, `created_at`, other todos and `users` are unchanged |
| TodoStore.Store.PatchTodo | rocketseat/node/projetos/desafio1/src/index.js:135-141 | the authorized todo's `done` becomes false and nothing else changes; patching a todo that is already not done changes nothing |
| TodoStore.Store.DeleteTodo | rocketseat/node/projetos/desafio1/src/index.js:143-149 | after the middlewares pass, the first user is removed from `users` and `todos` is unchanged |

## Left out

- Express itself is not modelled: routing, the middleware chaining, `app.listen`, status codes and JSON bodies. Each handler returns an `Outcome` or a `Result`, and each failure names the error the handler sends.
- The DELETE route in the todo service is registered without its leading slash. The service also lacks the JSON body parser. Both are routing and body-parsing matters. The model treats the handlers as reachable and the body fields as given.
- `uuidv4()` is not modelled: fresh identifiers are parameters of the handlers that create records.
- `new Date()`, date parsing, `toDateString` and `toISOString` are not modelled. A ledger instant is a day number plus milliseconds within the day, and the statement filter compares days. A parsed date is `Option<int>`, with `None` for a string that does not parse. A todo deadline is an optional abstract instant. The change of the deadline from a `Date` to an ISO string on update is not modelled.
- JavaScript numbers are not modelled. Amounts are unbounded integers, so rounding, `NaN` and a missing or non-numeric amount are outside the model.
- The `reduce` callback in `getBalance` returns `undefined` for an operation that is neither credit nor debit. Only credits and debits are ever stored, so `Kind` has just those two.
- Header-name lookup (Node lower-cases header names) is not modelled. The `cpf`, `date` and `userToken` header values are optional inputs.
- A JSON `null` in a request body is not distinguished from an absent field. `updated_at: null` is `None`.
- Records are held only by the arrays, so the model updates them by value. Aliasing between handlers is not modelled; a request runs to completion before the next one starts.
