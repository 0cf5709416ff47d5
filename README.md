# Design-pattern components of golang-design-patterns, modelled in Dafny

This project models the parts of the Go design-pattern catalogue that carry
checkable logic, one Dafny module per Go package:

- `Cbreaker` (`cbreaker.dfy`): the retry decorator `Retrier.Fetch` around a
  `Fetcher`, and the reference fetcher `Repository.Fetch`. A fetcher is
  described by the answer it gives to its n-th call with given arguments,
  and a `Retrier` counts the calls it has made, so fetcher state that
  depends on the number of calls carries from one `Retrier.Fetch` to the
  next. `Retrier.Fetch` is a
  loop that returns Go's `(Data, error)` and, as a ghost output, the trace of
  its calls (`Attempt`) and sleeps (`Wait`). Its postcondition ties
  the result and the trace to closed-form specifications: `FirstSuccess`,
  `Attempts`, `Outcome` and `Trace`. The lemmas prove the counting
  properties from those.
- `Db` (`db.dfy`): the key/value `repository` as a class over a
  `map<string, string>`, and the package variable `r` with its lazy accessor
  `Repository()` as the class `Package`.
- `Configurer` (`configurer.dfy`): the copy-on-write `Config` as a datatype
  with its two withers, and the frame, commutation and last-write-wins laws.
- `Bank` (`bank.dfy`): accounts as heap objects; `Gateway.FindAccountByEmail`
  as a first-match search loop; `Gateway.ProcessTransaction` as its guards
  followed by an in-place debit.
- `Paypal` (`paypal.dfy`): the e-mail regular expression as the language
  `IsMailAddress` of strings `L@D.T`. `MatchMail` is a direct check proved
  to accept exactly that language. `Payment.Send` is the guard chain.
- `Wrappers` (`wrappers.dfy`): `Option`, standing for nil pointers and nil errors.

A retry count below 1 is not rejected: `Retrier.Fetch` skips the loop and
returns `Data{}` with a nil error (cbreaker.go:29, 42). The model does the
same (`NonPositiveRetryCount`).

## Model

| member | source | states |
|---|---|---|
| `Cbreaker.RepositoryFetch` | week5/day5/golang-design-patterns-master/structural-patterns/decorator/cbreaker/cbreaker.go:49-60 | empty args give empty data and the "No arguments are provided" error; any non-empty args give exactly `{"user":"root","password":"swordfish"}` and no error |
| `Cbreaker.FirstSuccess` | week5/day5/golang-design-patterns-master/structural-patterns/decorator/cbreaker/cbreaker.go:29-33 | the least attempt in range whose fetch succeeds; all earlier attempts failed; none means every attempt in range failed |
| `Cbreaker.Retrier.constructor` | week5/day5/golang-design-patterns-master/structural-patterns/decorator/cbreaker/cbreaker.go:21-25 | a retrier holds the given retry count, wait interval and fetcher, and has made no calls yet |
| `Cbreaker.Retrier.Fetch` | week5/day5/golang-design-patterns-master/structural-patterns/decorator/cbreaker/cbreaker.go:28-43 | the returned data and error are those of the first successful attempt, or empty data with the last attempt's error, or empty data and no error when the count is not positive; the calls and sleeps made are exactly the trace of that many attempts; attempt n is the fetcher's next call after those already made, and the call count grows by the number of attempts |
| `Cbreaker.TraceCounts` | week5/day5/golang-design-patterns-master/structural-patterns/decorator/cbreaker/cbreaker.go:29-40 | a run of m attempts calls the fetcher m times and sleeps m-1 times, for (m-1) times the interval in total |
| `Cbreaker.TraceShape` | week5/day5/golang-design-patterns-master/structural-patterns/decorator/cbreaker/cbreaker.go:29-40 | calls and sleeps alternate; the k-th call is attempt k with the caller's unchanged args; no sleep follows the last call |
| `Cbreaker.AlwaysFailingExhausts` | week5/day5/golang-design-patterns-master/structural-patterns/decorator/cbreaker/cbreaker.go:34-36 | a fetcher failing every attempt is tried exactly N times and the N-th attempt's error is returned with empty data |
| `Cbreaker.SucceedsOnAttempt` | week5/day5/golang-design-patterns-master/structural-patterns/decorator/cbreaker/cbreaker.go:31-33 | when attempt k is the first success, exactly k attempts run and attempt k's data comes back with no error |
| `Cbreaker.NonPositiveRetryCount` | week5/day5/golang-design-patterns-master/structural-patterns/decorator/cbreaker/cbreaker.go:29-42 | with a retry count of 0 or less nothing is called, nothing sleeps, and empty data with no error is returned |
| `Cbreaker.AttemptsBounds` | week5/day5/golang-design-patterns-master/structural-patterns/decorator/cbreaker/cbreaker.go:29-40 | between 1 and N attempts run; the last attempt succeeded iff the result has no error; stopping early implies success; a failure implies every attempt failed |
| `Cbreaker.RepositoryEmptyArgsScenario` | week5/day5/golang-design-patterns-master/structural-patterns/decorator/cbreaker/cmd/cbreaker/main.go:11-22 | five attempts and four sleeps on empty args, ending with the repository's error |
| `Cbreaker.RepositoryWithIdScenario` | week5/day5/golang-design-patterns-master/structural-patterns/decorator/cbreaker/cmd/cbreaker/main.go:24-25 | with `{"id":"1"}` the first attempt returns the fixed data and nothing sleeps |
| `Cbreaker.ConsecutiveFetches` | week5/day5/golang-design-patterns-master/structural-patterns/decorator/cbreaker/cbreaker.go:28-43 | a fetcher failing its first three calls makes a two-attempt retrier fail once and then succeed on the fetcher's fourth call: the fetcher's state carries across fetches |
| `Db.Repository.constructor` | week5/day5/golang-design-patterns-master/creational-patterns/singleton/db/db.go:46-48 | a new store is empty |
| `Db.Repository.Set` | week5/day5/golang-design-patterns-master/creational-patterns/singleton/db/db.go:18-22 | the key now maps to the data, overwriting any earlier value; every other key keeps its presence and value |
| `Db.Repository.Get` | week5/day5/golang-design-patterns-master/creational-patterns/singleton/db/db.go:24-32 | the stored value and no error iff the key is present; otherwise `""` and the not-presented error; the store is not modified |
| `Db.Package.constructor` | week5/day5/golang-design-patterns-master/creational-patterns/singleton/db/db.go:34-37 | the package variable starts nil |
| `Db.Package.Repository` | week5/day5/golang-design-patterns-master/creational-patterns/singleton/db/db.go:43-52 | the first call creates a fresh empty store; every later call returns that same store |
| `Db.Package.Get` | week5/day5/golang-design-patterns-master/creational-patterns/singleton/db/db.go:39-41 | once the store exists, the package-level lookup answers like the store's own `Get` |
| `Db.SetThenGet` | week5/day5/golang-design-patterns-master/creational-patterns/singleton/db/db.go:18-31 | a `Get` after `Set(k, v)` returns v with no error; after `Set(k, w)` it returns w: the last write wins |
| `Db.FirstUseScenario` | week5/day5/golang-design-patterns-master/creational-patterns/singleton/db/cmd/db/main.go:10-13 | the demo's `Repository().Get("id")` on a store the call just created fails with the not-presented error the demo panics on; a second accessor call, added here, yields the same store |
| `Configurer.NewConfig` | week5/day5/golang-design-patterns-master/creational-patterns/prototype/configurer/configurer.go:10-15 | the config holds the given user and working directory |
| `Configurer.Config.WithWorkDir` | week5/day5/golang-design-patterns-master/creational-patterns/prototype/configurer/configurer.go:18-21 | the copy has the new working directory and the receiver's user |
| `Configurer.Config.WithUser` | week5/day5/golang-design-patterns-master/creational-patterns/prototype/configurer/configurer.go:24-27 | the copy has the new user and the receiver's working directory |
| `Configurer.WithersCommute` | week5/day5/golang-design-patterns-master/creational-patterns/prototype/configurer/configurer.go:18-27 | setting the user then the directory equals setting the directory then the user |
| `Configurer.WithUserLastWins` | week5/day5/golang-design-patterns-master/creational-patterns/prototype/configurer/configurer.go:24-27 | of two `WithUser` calls the second wins |
| `Configurer.WithWorkDirLastWins` | week5/day5/golang-design-patterns-master/creational-patterns/prototype/configurer/configurer.go:18-21 | of two `WithWorkDir` calls the second wins |
| `Configurer.WithersRebuild` | week5/day5/golang-design-patterns-master/creational-patterns/prototype/configurer/configurer.go:10-27 | setting both fields of any config gives the config built from scratch with them |
| `Configurer.DeriveRootConfig` | week5/day5/golang-design-patterns-master/creational-patterns/prototype/configurer/cmd/configurer/main.go:10-11 | the derived root config is built from the guest config, which keeps its own fields |
| `Bank.Account.constructor` | week5/day5/golang-design-patterns-master/structural-patterns/adapter/paybuddy/bank/bank.go:20-29 | an account holds the given owner, e-mail, balance and currency |
| `Bank.Gateway.constructor` | week5/day5/golang-design-patterns-master/structural-patterns/adapter/paybuddy/bank/bank.go:41-46 | a gateway holds the given token and accounts |
| `Bank.Gateway.FindAccountByEmail` | week5/day5/golang-design-patterns-master/structural-patterns/adapter/paybuddy/bank/bank.go:49-56 | returns the first account in list order with that e-mail; "Account Not Found" and nil iff no account has it; nothing is modified |
| `Bank.Gateway.ProcessTransaction` | week5/day5/golang-design-patterns-master/structural-patterns/adapter/paybuddy/bank/bank.go:59-84 | the first failing check of nil source, nil destination, empty reason, non-positive amount, insufficient funds decides the error, and then no balance changes; on success the source balance drops by exactly the amount and stays non-negative; the source account's owner, e-mail and currency never change, and no other object changes, so a distinct destination is not credited |
| `Paypal.MatchMail` | week5/day5/golang-design-patterns-master/structural-patterns/adapter/paybuddy/paypal/paypal.go:9 | the e-mail check accepts exactly the strings `L@D.T` with L of `[a-z0-9._%+-]`, D of `[a-z0-9.-]` (both non-empty) and T of 2 to 4 lower-case letters |
| `Paypal.MatchMailComplete` | week5/day5/golang-design-patterns-master/structural-patterns/adapter/paybuddy/paypal/paypal.go:9 | in an address the first `@` and the last dot split it into its three well-formed parts |
| `Paypal.MailAlphabet` | week5/day5/golang-design-patterns-master/structural-patterns/adapter/paybuddy/paypal/paypal.go:9 | an address holds only `[a-z0-9._%+-]` and `@`, so no upper-case letter |
| `Paypal.MailSingleAt` | week5/day5/golang-design-patterns-master/structural-patterns/adapter/paybuddy/paypal/paypal.go:9 | an address holds exactly one `@` |
| `Paypal.DemoAddresses` | week5/day5/golang-design-patterns-master/structural-patterns/adapter/paybuddy/paypal/paypal.go:9 | `shop@example.com` and `ben.johnson@example.com` are addresses; `Shop@example.com` and `shop@shop@example.com` are not |
| `Paypal.Payment.Send` | week5/day5/golang-design-patterns-master/structural-patterns/adapter/paybuddy/paypal/paypal.go:26-49 | each error is returned exactly when its check is the first to fail in the order sender, recipient, money present, positive amount, currency; no error iff all five pass |
| `Paypal.UppercaseSenderRejected` | week5/day5/golang-design-patterns-master/structural-patterns/adapter/paybuddy/paypal/paypal.go:27-29 | a sender with an upper-case letter is refused as an invalid sender, whatever the other arguments |
| `Paypal.DemoCheckout` | week5/day5/golang-design-patterns-master/structural-patterns/adapter/paybuddy/cmd/paybuddy/main.go:81-83 | the demo's PayPal payment of 1600 USD from the customer to the shop passes every check |

## Left out

- The diagnostics printed by `Retrier.Fetch`, `Repository.Fetch`, `ProcessTransaction` and `Send` are output only. The trace of `Attempt` and `Wait` events stands for the retrier's calls and sleeps.
- `time.Sleep` is not modelled as elapsed time. A sleep is a `Wait(interval)` event, and the total wait is the sum of the intervals. A negative `time.Duration` is recorded as given, although Go does not sleep for it.
- The `Fetcher` interface is not a Dafny type (traits are not used). A fetcher is a function from its arguments and the number of the call to its answer. So a `Retrier` is not itself passed as a `Fetcher`, and decorators are not nested.
- `Cbreaker.Retrier.Fetch`: the call number is counted per retrier (`calls`). Calls made to the same fetcher outside this retrier, or through another retrier, do not advance it.
- `Cbreaker.Retrier.Fetch`: a fetcher whose answers depend on the arguments of earlier calls (a cache, say) is not modelled across several fetches; within one fetch every call gets the same arguments, so the single-fetch properties are unaffected.
- `Cbreaker.Retrier.Fetch`: a nil `Fetcher` field, which panics in Go on the first attempt, cannot occur in the model.
- `Cbreaker.Retrier.Fetch`: `Args` is an immutable value. A Go fetcher can change the shared `Args` map between attempts; the model does not capture that aliasing.
- `sync.RWMutex` and `sync.Once` in `db.go` serve concurrent callers only; the store is modelled sequentially.
- `Db.Package.Get`: Go dereferences the package variable without a nil check, so a call before `Repository()` panics. The model requires the store to exist.
- `Bank.Gateway.FindAccountByEmail`: `Accounts` holds non-nil accounts. A nil entry would make the Go loop panic.
- `Bank.Gateway.ProcessTransaction`: the transaction is a value, so a nil `*Transaction`, which panics in Go at the first guard, cannot occur in the model.
- `Transaction.Date` is only printed and is not modelled. `AccountType` is declared but no operation uses it.
- `float64` balances and amounts are `real`. Rounding is not modelled, and neither is NaN. A NaN amount would pass the `<= 0` guards in Go.
- `Payment.APIKey` and `Gateway.Token` play no part in any operation.
- The regular-expression engine is not modelled. Its language is restated as `IsMailAddress`, and the matched strings are Unicode code points rather than UTF-8 bytes.
- The message builder, the SVG, UI-kit and composite drawing examples, and the shopping-cart adapters are not part of this model. They hold serialisation, floating-point geometry and glue code.
