# Credit application system: a verified model of the credit workflow and its DTOs

This project models the core of a small Kotlin/Spring credit-application backend. Customers register. Each credit request is tied to an existing customer and can later be read back by its public code, but only by the customer who owns it.

The model covers two parts:

- **The credit service.** It works over two in-memory stores: customers by id and credits by public code.
  - `Save` resolves the owner, then persists the credit.
  - `FindAllByCustomer` lists a customer's credits.
  - `FindByCreditCode` reads one credit, and its ownership check acts as an authorization boundary.
  - `ValidDayFirstInstallment` is the three-month date-window rule. The service defines it but never calls it.
- **The request/response layer.**
  - The customer creation request maps onto a customer entity.
  - The customer update request partially overwrites a stored customer.
  - The credit creation request maps onto a credit entity that refers to its owner by id only.
  - The credit view is a projection of a credit and its owner.
  - Every Bean Validation annotation becomes an explicit `Violations` list with the annotation's message, plus an `IsValid` predicate. A lemma or contract proves the two agree.

Modules, one per source file plus shared ones:

| module | file | models |
|---|---|---|
| `Wrappers` | wrappers.dfy | nullable values (`Option`) and operations that may throw (`Result`) |
| `Entities` | entities.dfy | `Customer`, `Address`, `Credit` rows and a `Status` enumeration, with shapes inferred from how the DTOs and the service use them; money as `real`, dates as epoch days, the UUID as an opaque value |
| `Validation` | validation.dfy | fields, constraint rules and violations |
| `CustomerDtos` | customer_dto.dfy | `CustomerDto` |
| `CustomerUpdateDtos` | customer_update_dto.dfy | `CustomerUpdateDto` |
| `CreditDtos` | credit_dto.dfy | `CreditDto` |
| `CreditViews` | credit_view.dfy | `CreditView` |
| `CreditService` | credit_service.dfy | `CreditService` over abstract stores |
| `CreditWorkflow` | credit_workflow.dfy | properties that relate several of the steps above |

In three places the model follows the code where one might expect otherwise:

- The three-month window rule is not part of saving a credit. The service defines the rule but never calls it. Lemma `CreditWorkflow.SaveIgnoresInstallmentWindow` states this.
- A credit with no owner and a credit owned by another customer are refused with the same error. The source's `credit.customer?.id == customerId` makes no distinction between them.
- A credit request is checked only against its annotations: 1 to 48 installments and a future date. Lemma `CreditWorkflow.ValidRequestOutsideWindow` shows that this does not include the three-month rule.

Two modelling choices go beyond the code:

- An unknown customer id gives its own error, `NotFound(id)`. In the source, that lookup throws `BusinessException`, the same class as an unknown credit code (see "## Left out").
- A stored credit holds its owner by value. The source holds a reference to the customer row. The store invariant `CreditService.Consistent` requires each stored owner to equal the current customer row with that id, which is what loading the reference gives.

## Model

| member | source | states |
|---|---|---|
| CustomerDtos.Violations | src/main/kotlin/me/dio/creditapplicationsystem/dto/request/CustomerDto.kt:11-21 | The details list contains exactly the broken constraints of the creation request (the seven `@NotEmpty` fields, the CPF format and the email format), each with its annotation's message. It is empty iff the request is valid. |
| CustomerDtos.ToEntity | src/main/kotlin/me/dio/creditapplicationsystem/dto/request/CustomerDto.kt:23-35 | The new customer has no id and copies the names, CPF, income, email and password verbatim. Its address is built from the zip code and street. Reading its fields back yields the request. |
| CustomerDtos.ToEntityInjective | src/main/kotlin/me/dio/creditapplicationsystem/dto/request/CustomerDto.kt:23-35 | Two requests map to the same customer iff they are equal. |
| CustomerDtos.ToEntityReadBack | src/main/kotlin/me/dio/creditapplicationsystem/dto/request/CustomerDto.kt:23-35 | Every customer without an id is the image of the request read back from it. |
| CustomerDtos.EmptyFirstNameRejected | src/test/kotlin/me/dio/creditapplicationsystem/controller/CustomerResourceTest.kt:92-112 | A request with an empty first name is invalid, and its details list names the first-name constraint. |
| CustomerUpdateDtos.Violations | src/main/kotlin/me/dio/creditapplicationsystem/dto/request/CustomerUpdateDto.kt:8-14 | The details list contains exactly the empty fields among first name, last name, zip code and street. It is empty iff the update is valid. |
| CustomerUpdateDtos.ToEntity | src/main/kotlin/me/dio/creditapplicationsystem/dto/request/CustomerUpdateDto.kt:16-24 | The result shows the update's names, income, zip code and street. Its id, CPF, email and password are those of the stored customer. |
| CustomerUpdateDtos.ToEntityCharacterised | src/main/kotlin/me/dio/creditapplicationsystem/dto/request/CustomerUpdateDto.kt:16-24 | Exactly five fields change. A customer is the result iff it shows the update's five values and agrees with the input on all other fields. |
| CustomerUpdateDtos.ToEntityDependsOnlyOnUntouched | src/main/kotlin/me/dio/creditapplicationsystem/dto/request/CustomerUpdateDto.kt:16-24 | Two stored customers give the same updated customer iff they agree on id, CPF, email and password. |
| CustomerUpdateDtos.ToEntityNoOp | src/main/kotlin/me/dio/creditapplicationsystem/dto/request/CustomerUpdateDto.kt:16-24 | The update leaves a customer unchanged iff the customer already shows the update's values. |
| CustomerUpdateDtos.ToEntityIdempotent | src/main/kotlin/me/dio/creditapplicationsystem/dto/request/CustomerUpdateDto.kt:16-22 | Applying the same update twice equals applying it once. |
| CustomerUpdateDtos.ToEntityLastWriteWins | src/main/kotlin/me/dio/creditapplicationsystem/dto/request/CustomerUpdateDto.kt:16-22 | Applying one update and then another equals applying the second alone. |
| CustomerUpdateDtos.UpdateKeepsCpfAndEmail | src/test/kotlin/me/dio/creditapplicationsystem/controller/CustomerResourceTest.kt:190-213 | The update from the customer resource scenario is valid. It sets the new names, income and address, and the CPF and email survive. |
| CreditDtos.Violations | src/main/kotlin/me/dio/creditapplicationsystem/dto/request/CreditDto.kt:12-16 | The details list contains exactly the broken constraints among `@Min(1)`, `@Max(48)` and `@Future`. It is empty iff 1 ≤ installments ≤ 48 and the first installment falls strictly after today. |
| CreditDtos.InstallmentBoundsInclusive | src/main/kotlin/me/dio/creditapplicationsystem/dto/request/CreditDto.kt:14 | For a future date, 1 and 48 installments are valid, and 0 and 49 are not. |
| CreditDtos.PastDateRejected | src/main/kotlin/me/dio/creditapplicationsystem/dto/request/CreditDto.kt:15 | A first installment due today or earlier is reported as a `@Future` violation. |
| CreditDtos.ToEntity | src/main/kotlin/me/dio/creditapplicationsystem/dto/request/CreditDto.kt:19-24 | The credit copies value, installment count and first-installment date. It has the supplied code and the default status. Its owner is a blank customer whose only data is the requested id. |
| CreditViews.FromCredit | src/main/kotlin/me/dio/creditapplicationsystem/dto/response/CreditView.kt:16-23 | The view copies code, value, installment count and status. It carries the owner's email and income when there is an owner, and neither when there is none. |
| CreditViews.ViewExposesOnlyVisible | src/main/kotlin/me/dio/creditapplicationsystem/dto/response/CreditView.kt:8-23 | Two credits have equal views iff they agree on code, value, count, status, owner presence, owner email and owner income. |
| CreditViews.ViewHidesDateAndOwnerId | src/main/kotlin/me/dio/creditapplicationsystem/dto/response/CreditView.kt:8-23 | Changing the first-installment date or the owner's id never changes the view. |
| CreditService.FindCustomerById | src/test/kotlin/me/dio/creditapplicationsystem/controller/CustomerResourceTest.kt:133-152 | The customer lookup succeeds iff the id is stored, and then returns that customer. Otherwise it fails with `NotFound(id)`. |
| CreditService.Save | src/main/kotlin/me/dio/creditapplicationsystem/service/impl/CreditService.kt:19-24 | Saving fails iff the owner id is unknown, and then both stores are unchanged. On success, the persisted credit's owner is the stored customer and every other field is the input's. The credit is stored under its code, no other row changes, and the customers are untouched. |
| CreditService.FindAllByCustomer | src/main/kotlin/me/dio/creditapplicationsystem/service/impl/CreditService.kt:26-27 | Each entry is the stored credit under a code owned by the customer. Those codes have no repeats and are exactly the customer's codes, so there is one entry per owned row, even when two rows hold equal values. An empty list is a normal answer. |
| CreditService.FindByCreditCode | src/main/kotlin/me/dio/creditapplicationsystem/service/impl/CreditService.kt:29-39 | An unknown code fails with "Creditcode not found". A stored credit whose owner id is not the asker's fails with "Contact admin". Otherwise the result is the stored credit for that code, and its owner id is the asker's. |
| CreditService.ValidDayFirstInstallment | src/main/kotlin/me/dio/creditapplicationsystem/service/impl/CreditService.kt:41-47 | The rule returns true iff the day is strictly before today plus three months. Otherwise it fails with "Invalid Date selected". It never returns false. |
| CreditWorkflow.SavePreservesConsistent | src/main/kotlin/me/dio/creditapplicationsystem/service/impl/CreditService.kt:19-24 | Saving keeps the store invariant. Every row sits under its own key, CPFs are unique, and every stored credit's owner is the stored customer row with that owner's id. |
| CreditWorkflow.SaveThenFindByCreditCode | src/main/kotlin/me/dio/creditapplicationsystem/service/impl/CreditService.kt:19-39 | A credit saved for an existing customer is returned by a lookup of its code by that customer. The same lookup by any other customer is refused. |
| CreditWorkflow.SaveThenOwnedCodes | src/main/kotlin/me/dio/creditapplicationsystem/service/impl/CreditService.kt:19-27 | After a save, the owner's credit codes gain the saved code. Every other customer's codes lose it, and nothing else changes. |
| CreditWorkflow.SaveIgnoresInstallmentWindow | src/main/kotlin/me/dio/creditapplicationsystem/service/impl/CreditService.kt:19-24 | Saving succeeds iff the owner exists, whatever the first-installment date. A date the window rule refuses is still saved. |
| CreditWorkflow.ValidRequestOutsideWindow | src/main/kotlin/me/dio/creditapplicationsystem/dto/request/CreditDto.kt:13-16 | For every clock, some valid credit request has a date that the three-month rule refuses. The request constraints do not contain that rule. |
| CreditWorkflow.RequestSaveView | src/main/kotlin/me/dio/creditapplicationsystem/dto/response/CreditView.kt:16-23 | A credit request for a stored customer saves successfully. The saved credit's view shows the request's value and count, the default status, and the stored customer's email and income. |
| CreditWorkflow.AtMostOneReader | src/main/kotlin/me/dio/creditapplicationsystem/service/impl/CreditService.kt:33-37 | At most one customer id can read a given credit code. |
| CreditWorkflow.FoundCreditViewShowsOwner | src/main/kotlin/me/dio/creditapplicationsystem/dto/response/CreditView.kt:21-22 | In a consistent store, the asker of a successful lookup is a stored customer. The view of the credit shows that customer's current email and income. |
| CreditWorkflow.OwnerlessCreditRefused | src/main/kotlin/me/dio/creditapplicationsystem/service/impl/CreditService.kt:33-37 | A stored credit without an owner, or whose owner has no id, is refused to every customer with "Contact admin". |

## Left out

- Spring wiring, HTTP routing, status codes, JSON (de)serialization, the error-body shape and the API documentation configuration. These are framework concerns.
- The persistence engine. The customer and credit repositories are maps. CPF uniqueness, which the database enforces (the 409 response), appears only as part of the assumed `Consistent` store invariant.
- The customer service's create, update and delete. The customer service is not part of this model. Only its lookup by id is modelled, as failing exactly when the id is unknown.
- The entity classes are not part of this model. The model assumes their defaults: a blank customer (empty strings, zero income, no id) and a credit status of `InProgress`. The three `Status` constructors are also the model's assumption; the workflow never inspects the status.
- The random `UUID` a credit draws for its code is a parameter of `CreditDtos.ToEntity`.
- CreditService.FindCustomerById: the source throws `BusinessException` for an unknown customer id, the same class it throws for an unknown credit code. The model uses a separate `NotFound` constructor for the first case.
- CreditService.Consistent: a customer update does not refresh the owner copies held by stored credits. Customer updates are not part of this model, so the invariant is only shown to be kept by `Save`.
- `LocalDate.now()` and `plusMonths(3)` are parameters: `today` for the `@Future` check and `windowEnd` for the three-month rule. The model does not contain calendar arithmetic.
- The CPF checksum and the email syntax belong to the validator library. They are the uninterpreted parameters `isCpf` and `isEmail`.
- `@NotNull` on income, credit value and customer id is not modelled. The fields are non-nullable values in the model, so the constraint always holds.
- The order of the validation details list and of `FindAllByCustomer`'s result. Neither source promises an order.
- Credits' internal numeric id is not modelled. Ids and installment counts are unbounded integers. The source's `Long`/`Int` widths do not matter, because the model only compares them.
- CreditService.Save: a credit with no owner, or whose owner has no id, is excluded by the precondition. The source dereferences the id with `!!` and would throw a `NullPointerException`.
- CreditService.Save: the credit is stored under its code and replaces any row with the same code. A database collision on a random UUID is not modelled.
- CreditService.FindByCreditCode: the "not found" message omits the interpolated code.
- CustomerUpdateDtos.ToEntity: the source mutates the customer it is given and returns that same object. The model returns the updated value, so aliasing is not modelled.
