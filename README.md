# Bodega: relationship-scoped authorization, in Dafny

Bodega is a Rails application in which companies trade with each other
through *supply links*: a link joins a supplier company to a purchaser
company and carries one pending-confirmation flag per side. People belong
to companies through *commitments*; a commitment may make its user an
admin of the company. This project models four parts of the application
and proves what each promises:

- `supply_links.dfy` (module `SupplyLinks`): the supply-links controller.
  It covers the before-action chain (authenticate, load, authorize), the
  two roles `[supplier, purchaser]` and which of them the signed-in user
  administers, the field allow-list that admits only the pending flags of
  the represented sides, and the effects of `create`, `update` and
  `destroy` on the stored links. The pure functions (`Handle`,
  `CreateStep`, `UpdateStep`, `DestroyStep`) specify one request. The
  classes `LinkStore` and `SupplyLinksController` do the same work
  imperatively: `set_vars` assigns the controller's `supplyLink` and
  `company` fields, `supply_link_params` grows the permitted hash in a
  loop, and the actions change the store. Each method's postcondition ties
  it to the pure specification.
- `items.dfy` (module `Items`): the item-authorization verdict table and
  the effects of item requests on the item collection, as the request
  spec of the items endpoints fixes them. The 47 `expect` assertions of
  that spec are transcribed as 44 entries of data (`RequestSpec`, one block
  per kind of user). The two link checks of each index page form one entry,
  which requires the page to list exactly the company's items. One lemma
  shows that the model meets every entry. `ItemStore` is the mutable item collection.
- `schema.dfy` (module `Schema`): the five tables, with their column
  defaults, NOT NULL constraints and unique indexes. A *draft* is a row
  under construction whose unset columns are `None`. `New…` gives the
  column defaults. `…Row` is the NOT NULL check. `Insert…` adds the
  unique-index check.
- `users.dfy` (module `Users`): the users controller. `set_user` always
  picks the signed-in user, the allow-list admits only `name`, and the
  status is ok exactly when the update is saved.
- `params.dfy` (module `Params`) models the request parameter hash
  (`require`, `permit`, `dig`). `wrappers.dfy` (module `Wrappers`) holds
  `Option` and `Result`.

Outside input is a parameter of each operation, not something the model
computes:

- The session is `Anonymous` or `SignedIn(adminOf)`. `adminOf` is the set
  of company ids for which `is_admin?` holds.
- The set of existing companies and the stored links are arguments.
- The id the database would give the next row (`newId`) is an argument.
- `valid` is the verdict of the model validations, which the model does
  not define.

The code enforces none of the following rules, which a two-sided
confirmation protocol might be expected to have, and the model follows the
code:

- Supplier ≠ purchaser is not required.
- The (supplier, purchaser) pair has no unique index.
- No rule says a side may be revoked only before the link is active. An
  update writes whatever permitted flag values it is given; see
  `SupplyLinks.ActiveLinkCanBeReopened`.
- `supplier_id` and `purchaser_id` stay permitted on update, and re-pointing
  a side does not reset its flag. A supplier-only admin can therefore point a
  confirmed link at a new purchaser, who then stands as confirmed without
  having acted; see `SupplyLinks.SupplierAdminMayRepointConfirmedPurchaser`.
- When a stored link's supplier row no longer exists, `supplier` falls back
  to the submitted `supplier_id`. An admin of any company can then take over
  that side by submitting that company's id; see
  `SupplyLinks.OrphanedSupplierSideCanBeTaken`.
- `set_vars` loads the link named by `id` on a create too, and that link's roles decide which flags are
  permitted, while the new row takes its ids from the form. An admin of the stored link's supplier can
  therefore create a link between two other companies whose supplier side already stands as confirmed;
  see `SupplyLinks.CreateBorrowsRolesOfLoadedLink`.

## Model

| member | source | states |
|---|---|---|
| Params.Require | app/controllers/supply_links_controller.rb:54 | `params.require`: fails with ParameterMissing exactly when the sub-hash is absent or empty, otherwise yields it |
| Params.Permit | app/controllers/supply_links_controller.rb:54 | `permit`: the result holds exactly the submitted keys that are also allowed, each with its submitted value |
| Params.PermitMerge | app/controllers/supply_links_controller.rb:55-58 | merging two permitted hashes of one form equals permitting the union of the two key sets |
| Params.PermitAll | app/controllers/supply_links_controller.rb:54-58 | a form whose keys are all allowed passes the filter unchanged |
| Params.Dig | app/controllers/supply_links_controller.rb:72-78 | `params.dig(:supply_link, key)` is present exactly when the sub-hash exists and holds the key, and is then that value |
| Schema.CommitmentRow | db/schema.rb:15-22 | a commitment row is accepted exactly when every NOT NULL column is set, and reading it back gives the same draft |
| Schema.InsertCommitment | db/schema.rb:15-26 | insert succeeds exactly when the row is complete and no commitment has the same (user, company) pair; it adds only that row and keeps the pair index unique |
| Schema.CompanyRow | db/schema.rb:28-34 | a company row needs only `name`; `code`, `str_addr` and `city` may be null |
| Schema.InsertCompany | db/schema.rb:28-37 | insert succeeds exactly when the name is set and unique and the code, when present, is unique; it keeps both indexes unique |
| Schema.ItemRow | db/schema.rb:39-47 | an item row is accepted exactly when `name`, `price` and `unit_size` are set; `ref_code` and `company_id` are optional |
| Schema.SupplyLinkRow | db/schema.rb:49-53 | a supply-link row is accepted exactly when both company ids and both flags are set |
| Schema.UserRow | db/schema.rb:58-71 | a user row is accepted exactly when `name`, `email`, `encrypted_password` and `sign_in_count` are set |
| Schema.InsertUser | db/schema.rb:58-74 | insert succeeds exactly when the row is complete and neither the email nor a present reset token is taken; it keeps both indexes unique |
| Schema.NewCommitment | db/schema.rb:15-20 | a new commitment cannot be stored before its user id is set, and filling in the two ids is enough |
| Schema.NewCompany | db/schema.rb:28-32 | a new company cannot be stored before it has a name, and a name alone gives a row with nil code, address and city |
| Schema.NewItem | db/schema.rb:39-44 | a new item cannot be stored before it has a name, and name, price and unit size alone give a row with nil ref code and company |
| Schema.NewSupplyLink | db/schema.rb:49-53 | a new supply link cannot be stored before its supplier is set, and the two ids alone give a row with both flags pending |
| Schema.NewUser | db/schema.rb:58-65 | a new user cannot be stored before it has a name, and name, email and password alone give a row with no reset token and a sign-in count of 0 |
| Schema.NewCommitmentDefaults | db/schema.rb:16-20 | a new commitment given only its two ids is a row with `admin` false and both pending flags true |
| Schema.CommitmentNeedsBothIds | db/schema.rb:16-17 | a commitment missing its user id or its company id fails with a NOT NULL violation |
| Schema.SecondCommitmentRefused | db/schema.rb:24 | a second commitment for an existing (user, company) pair is refused |
| Schema.NewSupplyLinkDefaults | db/schema.rb:50-53 | a new supply link given only its two ids is a row with both pending flags true |
| Schema.CodelessCompaniesCoexist | db/schema.rb:30-35 | any number of companies without a code can coexist; the code index binds only present codes |
| Schema.NewUserDefaults | db/schema.rb:59-65 | a new user given name, email and password is a row with `sign_in_count` 0 and no reset token |
| Schema.RowDraftRoundTrip | db/schema.rb:15-74 | turning any stored row of any table into a draft and checking it again gives back the same row |
| SupplyLinks.KeysDistinct | app/controllers/supply_links_controller.rb:54-57 | the two id keys differ, the two pending keys differ, and no pending key is an id key |
| SupplyLinks.FindCompany | app/controllers/supply_links_controller.rb:72-78 | `Company.find_by(id:)` yields a company exactly when an existing company has the submitted id; otherwise nil, not an error |
| SupplyLinks.RoleCompany | app/controllers/supply_links_controller.rb:72-78 | the company standing in a role is always an existing company |
| SupplyLinks.SelectAdministered | app/controllers/supply_links_controller.rb:64 | the `select` keeps exactly the roles whose company the user administers |
| SupplyLinks.RepresentedRoles | app/controllers/supply_links_controller.rb:63-65 | a role is represented exactly when the user administers its company |
| SupplyLinks.RepresentedRolesInOrder | app/controllers/supply_links_controller.rb:62-65 | `represented_roles` is the sub-list of `[supplier, purchaser]`, in that order, of the administered roles |
| SupplyLinks.CompaniesOf | app/controllers/supply_links_controller.rb:69 | the `map` gives, position by position, the company of each role, all of them administered |
| SupplyLinks.RepresentedCompanies | app/controllers/supply_links_controller.rb:68-70 | `represented_companies` is the image of `represented_roles` under role → company |
| SupplyLinks.Authorized | app/controllers/supply_links_controller.rb:48 | the `any? && include?` test; it passes only for an existing company the user administers (AuthorizedIff gives both directions) |
| SupplyLinks.AuthorizedIff | app/controllers/supply_links_controller.rb:47-51 | authorization passes exactly when some role is administered and the route company is the company of an administered role |
| SupplyLinks.StoredLinkDecidesRoles | app/controllers/supply_links_controller.rb:72-78 | for a loaded link whose companies exist, the request's ids change neither the represented roles nor the verdict |
| SupplyLinks.MissingStoredCompanyFallsBackToRequest | app/controllers/supply_links_controller.rb:72-78 | when the stored link's company row is gone, the `or` falls back to the company the request names |
| SupplyLinks.PermittedKeys | app/controllers/supply_links_controller.rb:54-57 | the allow-list holds both ids and the flag of every represented role, and nothing beyond the four link columns |
| SupplyLinks.PermittedKeysIff | app/controllers/supply_links_controller.rb:53-60 | both id keys are always permitted, and a side's pending key is permitted exactly when that side is represented |
| SupplyLinks.MergeStep | app/controllers/supply_links_controller.rb:56-58 | one `merge!` adds exactly the next role's flag to the permitted hash |
| SupplyLinks.SupplyLinkParams | app/controllers/supply_links_controller.rb:53-60 | the loop of `merge!` calls yields ParameterMissing exactly for a blank form, and otherwise the form filtered to the id keys and the pending keys of the represented roles |
| SupplyLinks.PermittedFlags | app/controllers/supply_links_controller.rb:56-58 | the pending flag of an unrepresented side is dropped without error; that of a represented side passes with its value |
| SupplyLinks.Assign | app/controllers/supply_links_controller.rb:7-22 | assigning attributes casts every submitted column into the draft and leaves the others as they were |
| SupplyLinks.Save | app/controllers/supply_links_controller.rb:10-22 | a save succeeds exactly when the validations pass and no NOT NULL column is nil, and stores exactly the draft |
| SupplyLinks.CreateStep | app/controllers/supply_links_controller.rb:6-18 | a create leaves the links alone or adds exactly one link under the new id |
| SupplyLinks.UpdateStep | app/controllers/supply_links_controller.rb:20-30 | an update leaves the links alone or rewrites exactly the loaded link |
| SupplyLinks.DestroyStep | app/controllers/supply_links_controller.rb:32-38 | a destroy removes at most the loaded link |
| SupplyLinks.ContextOf | app/controllers/supply_links_controller.rb:42-45 | the loaded link, when an id was given, is the stored row under that id |
| SupplyLinks.Handle | app/controllers/supply_links_controller.rb:2-38 | one request, filters then action: the links change only when the request passed authentication, loading and authorization; at most the loaded link or a link under the new id is touched. The request lemmas below complete its contract |
| SupplyLinks.ReachesAction | app/controllers/supply_links_controller.rb:2-4 | the request passed all three filters; then the user is signed in and administers the route company |
| SupplyLinks.AnonymousGoesToSignIn | app/controllers/supply_links_controller.rb:2 | an anonymous request is sent to sign in and changes nothing |
| SupplyLinks.MissingRecordIsNotFound | app/controllers/supply_links_controller.rb:42-45 | a missing link id or company id is not-found before any authorization or write |
| SupplyLinks.RefusedRequestChangesNothing | app/controllers/supply_links_controller.rb:47-51 | a request that fails authorization is redirected to the route company and no save, update or destroy happens |
| SupplyLinks.UnrepresentedFlagUnchanged | app/controllers/supply_links_controller.rb:53-60 | an update keeps the flag of every side the user does not administer, whatever the form held |
| SupplyLinks.SupplierAdminCannotConfirmForPurchaser | app/controllers/supply_links_controller.rb:53-60 | an admin of the supplier side only never changes `pending_purchaser_conf` |
| SupplyLinks.PurchaserAdminCannotConfirmForSupplier | app/controllers/supply_links_controller.rb:53-60 | an admin of the purchaser side only never changes `pending_supplier_conf` |
| SupplyLinks.BothSidesAdminWritesBothFlags | app/controllers/supply_links_controller.rb:53-60 | an admin of both sides writes both submitted flags in one update and changes nothing else |
| SupplyLinks.AuthorizedUpdateMayRepoint | app/controllers/supply_links_controller.rb:53-60 | an authorized update may re-point either side of the link, since both ids stay permitted; the flags are kept |
| SupplyLinks.SupplierAdminMayRepointConfirmedPurchaser | app/controllers/supply_links_controller.rb:53-60 | a supplier-only admin may point a link the purchaser had confirmed at another purchaser, and the purchaser flag stays confirmed |
| SupplyLinks.OrphanedSupplierSideCanBeTaken | app/controllers/supply_links_controller.rb:72-74 | when the stored supplier row is gone, an admin of any company passes authorization by naming it as `supplier_id`, and the update stores it |
| SupplyLinks.ActiveLinkCanBeReopened | app/controllers/supply_links_controller.rb:20-30 | an admin may set the own side of a fully confirmed link back to pending |
| SupplyLinks.CreatedLinkStartsPending | app/controllers/supply_links_controller.rb:6-10 | a created link is pending on every side whose flag was not both submitted and permitted |
| SupplyLinks.CreateStoresSubmittedIds | app/controllers/supply_links_controller.rb:6-12 | an authorized, valid create of a form with both ids stores exactly those ids under the new id with both flags pending, and answers with a notice (HTML) or the new link (JSON) |
| SupplyLinks.CreateBorrowsRolesOfLoadedLink | app/controllers/supply_links_controller.rb:42-58 | a create that carries the `id` of a stored link is authorized by that link's roles, so an admin of its supplier may store a link between two other companies whose supplier flag is already false |
| SupplyLinks.FailedCreatePersistsNothing | app/controllers/supply_links_controller.rb:13-16 | a create whose save fails persists nothing and answers with an alert (HTML) or unprocessable entity (JSON) |
| SupplyLinks.DestroyIgnoresFlags | app/controllers/supply_links_controller.rb:32-38 | once authorized, destroy removes the link whatever its flags and reports success |
| SupplyLinks.LinkStore.constructor | db/schema.rb:49-56 | a new table is empty and valid |
| SupplyLinks.LinkStore.Find | app/controllers/supply_links_controller.rb:43 | finds the stored row exactly when the id is present |
| SupplyLinks.LinkStore.Insert | app/controllers/supply_links_controller.rb:10 | adds the row under a fresh id and changes no other row |
| SupplyLinks.LinkStore.Put | app/controllers/supply_links_controller.rb:22 | rewrites one existing row and changes no other row |
| SupplyLinks.LinkStore.Delete | app/controllers/supply_links_controller.rb:33 | removes one row and changes no other row |
| SupplyLinks.SupplyLinksController.constructor | app/controllers/supply_links_controller.rb:1 | a fresh controller has no loaded link and no company |
| SupplyLinks.SupplyLinksController.SetVars | app/controllers/supply_links_controller.rb:42-45 | succeeds exactly when the given link id and the company id exist, and then sets `supplyLink` to the stored row and `company` to the route company |
| SupplyLinks.SupplyLinksController.AuthorizeAction | app/controllers/supply_links_controller.rb:47-51 | answers exactly the authorization rule for the loaded state |
| SupplyLinks.SupplyLinksController.Create | app/controllers/supply_links_controller.rb:6-18 | the response and the new table are those of the create specification |
| SupplyLinks.SupplyLinksController.Update | app/controllers/supply_links_controller.rb:20-30 | the response and the new table are those of the update specification |
| SupplyLinks.SupplyLinksController.Destroy | app/controllers/supply_links_controller.rb:32-38 | the response and the new table are those of the destroy specification |
| SupplyLinks.SupplyLinksController.Process | app/controllers/supply_links_controller.rb:1-79 | running the before-actions then the action gives the response and table the request specification gives |
| Items.ItemVerdict | spec/requests/items_spec.rb:30-322 | own admins may do everything; own and purchaser members may read and are sent to the item list otherwise; supplier members and unaffiliated users are sent to the company root; anonymous users go to sign-in |
| Items.CatalogOf | spec/requests/items_spec.rb:14-28 | the company's items are exactly the stored items whose `company_id` is that company |
| Items.UpdateDraft | spec/requests/items_spec.rb:95-103 | each submitted field overwrites the item's field, every other field and the owning company are kept, and the result is a complete row |
| Items.Perform | spec/requests/items_spec.rb:30-322 | one item request: the items change only for an allowed create, update or destroy; at most the route item or a new item under the new id is touched. The item lemmas below complete its contract |
| Items.RefusedRequestChangesNothing | spec/requests/items_spec.rb:114-322 | no denied request changes the item collection or the targeted item |
| Items.AnonymousGoesToSignIn | spec/requests/items_spec.rb:30-53 | an anonymous user is redirected to sign-in for all seven actions and nothing changes |
| Items.SupplierMemberIsUnaffiliated | spec/requests/items_spec.rb:165-214 | a supplier member gets exactly the unaffiliated outcome: redirect to the company root |
| Items.OwnMemberIsPurchaserMember | spec/requests/items_spec.rb:270-322 | a member of the own company gets exactly the purchaser-member outcome |
| Items.PurchaserMemberReadsCatalog | spec/requests/items_spec.rb:216-252 | a purchaser member sees the company's item list and, for a catalog item, that item |
| Items.AdminCreateAddsOneItem | spec/requests/items_spec.rb:66-74 | an own admin's complete create adds exactly one item, which belongs to the company |
| Items.CreateWithoutRequiredFieldAddsNothing | db/schema.rb:40-43 | a create missing name, price or unit size adds nothing, whoever asks |
| Items.AdminUpdateSetsName | spec/requests/items_spec.rb:95-103 | an own admin's update sets the item's name to the submitted one |
| Items.AdminDestroyRemovesOneItem | spec/requests/items_spec.rb:105-109 | an own admin's destroy removes exactly that item, so the count falls by one |
| Items.PredictedIsMet | spec/requests/items_spec.rb:30-322 | every outcome the verdict table predicts is what the request does: the redirect, the index listing exactly the company's items, the new form, the edit form for the item, the item's page, and the count and item effects |
| Items.RequestSpecHolds | spec/requests/items_spec.rb:13-323 | every assertion of the items request spec holds of the model, for any catalog and any item of it as the target |
| Items.ItemStore.constructor | db/schema.rb:39-47 | a new item table is empty and valid |
| Items.ItemStore.Handle | spec/requests/items_spec.rb:30-322 | the response and the new item table are those of the item request specification |
| Users.UserParams | app/controllers/users_controller.rb:17-19 | ParameterMissing exactly for a blank form; otherwise only the submitted `name`, if any |
| Users.AssignUser | app/controllers/users_controller.rb:8 | each submitted column takes the cast submitted value, and every column that was not submitted keeps its value |
| Users.UpdateUser | app/controllers/users_controller.rb:7-9 | `update` saves exactly when the validations pass and no NOT NULL column becomes nil, and stores the assigned record |
| Users.ShowStep | app/controllers/users_controller.rb:2-5 | `show` redirects exactly the anonymous request to sign in and otherwise shows the signed-in user's own record |
| Users.UpdateStep | app/controllers/users_controller.rb:2-9 | `update` redirects exactly the anonymous request, keeps the set of users, writes nothing unless the status is ok, and never changes another user |
| Users.AnonymousGoesToSignIn | app/controllers/users_controller.rb:2 | show and update send an anonymous request to sign in and change nothing |
| Users.RouteIdIgnored | app/controllers/users_controller.rb:13-15 | the id in the route never changes the outcome: the signed-in user is always the target |
| Users.OnlyOwnNameChanges | app/controllers/users_controller.rb:7-19 | an update changes at most the signed-in user's `name`; other columns and other users stay as they were |
| Users.SubmittedNameWritten | app/controllers/users_controller.rb:7-19 | a submitted name is stored, with status ok, when the validations pass |
| Users.UnfilteredUpdateCouldChangeEmail | app/controllers/users_controller.rb:17-19 | without the allow-list a submitted email would be written; with it the record is unchanged |
| Users.OkIffSaved | app/controllers/users_controller.rb:7-9 | the status is ok exactly when the update saves; otherwise it is unprocessable entity and nothing is written |
| Users.UpdateKeepsUsersUnique | app/controllers/users_controller.rb:17-19 | an update keeps emails and reset tokens unique, since it never writes them |
| Users.UserStore.constructor | db/schema.rb:58-74 | the table holds the given users |
| Users.UsersController.constructor | app/controllers/users_controller.rb:1 | a fresh controller has no `@user` |
| Users.UsersController.SetUser | app/controllers/users_controller.rb:13-15 | `@user` becomes the signed-in user |
| Users.UsersController.Show | app/controllers/users_controller.rb:2-5 | the response is that of the show specification |
| Users.UsersController.Update | app/controllers/users_controller.rb:2-9 | the response and the new table are those of the update specification |

## Left out

- `app/assets/javascripts/hidden_forms.js` is not part of this model: it is client-side DOM toggling. Responses are tags (`RedirectToCompany(company, flash)`, `Unprocessable`, …), not rendered pages or JSON.
- `config/application.rb` and the migrations are not part of this model. The `orders` table is newer than the schema version, and the schema (nullable `code`) wins over the migration creating `companies`.
- Devise: authentication is reduced to a session that is `Anonymous` or `SignedIn`; sign-in, cookies and tokens are not modelled.
- `User#is_admin?`, `SupplyLink.confirmers` and the model classes are not shown. `is_admin?` is membership in the set `adminOf`, and it is false for a missing company. `confirmers` is `[supplier, purchaser]`.
- Model validations are not shown: their verdict is the `valid` parameter of every save.
- ActiveRecord type casting is reduced to pre-typed request values: a value of the wrong type casts to nil.
- A NOT NULL violation and a validation failure are both a failed save; the model does not tell a raised database error from `false`.
- Flash texts, HTTP status codes and the `location` header are not modelled; only the response variant is.
- Timestamp and Devise tracking columns (`created_at`, `updated_at`, `reset_password_sent_at`, `remember_created_at`, `current_sign_in_at`, `last_sign_in_at`, the sign-in IPs) are left out: nothing in the core reads them.
- Plain (non-unique) indexes are left out: they affect speed only.
- Ids come from outside (`newId`), and concurrency, transactions and locking are not modelled.
- Items: the items controller itself is not part of this model. The behaviour comes from its request spec. The relationship of the user to the company (`Relation`) is an input, because the lookup that derives it is not shown.
- Items: where the request spec asserts no redirect target (for example a denied create or destroy by a member), the model uses the same target as the other denied actions of that relationship.
- Items: an item is looked up among the route company's items, after the verdict; an id outside that catalog is not found.
- Items.AdminCreateAddsOneItem: the request spec asserts only the count; that a created item belongs to the route company (`company_id`) is an assumption about the items controller, which is not part of this model.
- Items.UpdateDraft: that an update overwrites exactly the submitted fields is an assumption about the items controller. `ItemForm` cannot carry a submitted nil, so an update never sets `name`, `price` or `unit_size` to nil and always yields a complete row; a request that blanks a NOT NULL column is not modelled.
- Items.ItemStore.Handle: item fields beyond name, reference code, price and unit size are not modelled, since the spec's form names no others.
- Test fixtures (Faker names, factory wiring) are not modelled.
- SupplyLinks.Handle: the code has no confirm-then-active transition rule, so none is stated; any permitted flag value is written.
