/**
 * Item authorization, as the request specification of the items endpoints
 * pins it down: a verdict for every relation between the signed-in user and
 * the company whose catalog is requested and every one of the seven item
 * actions, and the effect of each action on the item table.
 *
 * Own-company admins may do everything. Own-company members and members of
 * a purchaser of the company may read (index, show); their other requests
 * are sent back to the company's item list. Members of a supplier of the
 * company and unaffiliated users are sent to the company's page for every
 * action, and an anonymous user is sent to sign in. No refused request
 * changes the item table.
 */
module Items {
  import opened Wrappers
  import opened Schema

  /** How the requesting user relates to the company in the route; the supply links behind the two member relations are fully confirmed. */
  datatype Relation = Anonymous | OwnAdmin | OwnMember | PurchaserMember | SupplierMember | Unaffiliated

  datatype ItemAction = Index | New | Create | Edit | Show | Update | Destroy

  datatype Verdict = Allow | RedirectToSignIn | RedirectToCompany | RedirectToItems

  predicate IsRead(a: ItemAction) {
    a == Index || a == Show
  }

  /** Members of the company or of one of its purchasers: read access only. */
  function ReadOnly(a: ItemAction): Verdict {
    match a
    case Index => Allow
    case Show => Allow
    case New => RedirectToItems
    case Create => RedirectToItems
    case Edit => RedirectToItems
    case Update => RedirectToItems
    case Destroy => RedirectToItems
  }

  /** The verdict for a relation and an action. */
  function ItemVerdict(rel: Relation, act: ItemAction): (v: Verdict)
    ensures v == Allow <==> rel == OwnAdmin || (IsRead(act) && (rel == OwnMember || rel == PurchaserMember))
    ensures v == RedirectToSignIn <==> rel == Anonymous
    ensures v == RedirectToItems <==> (rel == OwnMember || rel == PurchaserMember) && !IsRead(act)
    ensures v == RedirectToCompany <==> rel == SupplierMember || rel == Unaffiliated
  {
    match rel
    case Anonymous => RedirectToSignIn
    case OwnAdmin => Allow
    case OwnMember => ReadOnly(act)
    case PurchaserMember => ReadOnly(act)
    case SupplierMember => RedirectToCompany
    case Unaffiliated => RedirectToCompany
  }

  // ---------------------------------------------------------------- requests and effects

  /** The submitted `item` fields; None is a field that was not submitted. */
  datatype ItemForm = ItemForm(name: Option<string>, refCode: Option<string>, price: Option<int>, unitSize: Option<string>)

  /** A request: action, the route company, the route item id (member routes only) and the form. */
  datatype ItemRequest = ItemRequest(action: ItemAction, company: Id, itemId: Option<Id>, form: ItemForm)

  datatype ItemResponse =
    | Denied(verdict: Verdict)
    | ItemNotFound
    | Listing(ids: set<Id>)
    | NewForm
    | EditForm(id: Id)
    | Showing(item: Item)
    | Saved(id: Id)
    | Invalid
    | Destroyed

  datatype ItemOutcome = ItemOutcome(response: ItemResponse, items: map<Id, Item>)

  /** The company's catalog. */
  function CatalogOf(items: map<Id, Item>, company: Id): (ids: set<Id>)
    ensures forall k :: k in ids <==> k in items && items[k].companyId == Some(company)
  {
    set k | k in items && items[k].companyId == Some(company)
  }

  /** A new item of the route company, from the submitted fields. */
  function CreateDraft(f: ItemForm, company: Id): ItemDraft {
    NewItem().(name := f.name, refCode := f.refCode, price := f.price, unitSize := f.unitSize, companyId := Some(company))
  }

  /** An existing item with every submitted field overwritten; the other fields and the owning company are kept. */
  function UpdateDraft(i: Item, f: ItemForm): (d: ItemDraft)
    ensures ItemRow(d).Success?
    ensures var r := ItemRow(d).value;
      r.name == (if f.name.Some? then f.name.value else i.name) &&
      r.refCode == (if f.refCode.Some? then f.refCode else i.refCode) &&
      r.price == (if f.price.Some? then f.price.value else i.price) &&
      r.unitSize == (if f.unitSize.Some? then f.unitSize.value else i.unitSize) &&
      r.companyId == i.companyId
  {
    ItemDraftOf(i).(name := Some(f.name.GetOr(i.name)),
                    refCode := if f.refCode.Some? then f.refCode else i.refCode,
                    price := Some(f.price.GetOr(i.price)),
                    unitSize := Some(f.unitSize.GetOr(i.unitSize)))
  }

  /** The route item exists and belongs to the route company. */
  predicate Found(req: ItemRequest, items: map<Id, Item>) {
    req.itemId.Some? && req.itemId.value in CatalogOf(items, req.company)
  }

  /** The request, once signed in: verdict first, then the item lookup within the route company, then the action. */
  function Perform(rel: Relation, req: ItemRequest, items: map<Id, Item>, newId: Id, valid: bool): (o: ItemOutcome)
    requires newId !in items
    ensures o.items != items ==>
      ItemVerdict(rel, req.action) == Allow && (req.action == Create || req.action == Update || req.action == Destroy)
    ensures o.items.Keys <= items.Keys + {newId}
    ensures forall k :: k in items && Some(k) != req.itemId ==> k in o.items && o.items[k] == items[k]
  {
    var v := ItemVerdict(rel, req.action);
    if v != Allow then ItemOutcome(Denied(v), items)
    else match req.action
      case Index => ItemOutcome(Listing(CatalogOf(items, req.company)), items)
      case New => ItemOutcome(NewForm, items)
      case Create =>
        var row := ItemRow(CreateDraft(req.form, req.company));
        if valid && row.Success? then ItemOutcome(Saved(newId), items[newId := row.value])
        else ItemOutcome(Invalid, items)
      case Edit =>
        if !Found(req, items) then ItemOutcome(ItemNotFound, items)
        else ItemOutcome(EditForm(req.itemId.value), items)
      case Show =>
        if !Found(req, items) then ItemOutcome(ItemNotFound, items)
        else ItemOutcome(Showing(items[req.itemId.value]), items)
      case Update =>
        if !Found(req, items) then ItemOutcome(ItemNotFound, items)
        else if !valid then ItemOutcome(Invalid, items)
        else
          var id := req.itemId.value;
          ItemOutcome(Saved(id), items[id := ItemRow(UpdateDraft(items[id], req.form)).value])
      case Destroy =>
        if !Found(req, items) then ItemOutcome(ItemNotFound, items)
        else ItemOutcome(Destroyed, items - {req.itemId.value})
  }

  // ---------------------------------------------------------------- properties

  /** No refused request changes the item table: not its size and not the targeted item. */
  lemma RefusedRequestChangesNothing(rel: Relation, req: ItemRequest, items: map<Id, Item>, newId: Id, valid: bool)
    requires newId !in items
    requires ItemVerdict(rel, req.action) != Allow
    ensures Perform(rel, req, items, newId, valid) == ItemOutcome(Denied(ItemVerdict(rel, req.action)), items)
  {
  }

  /** An anonymous user is sent to sign in for every action. */
  lemma AnonymousGoesToSignIn(req: ItemRequest, items: map<Id, Item>, newId: Id, valid: bool)
    requires newId !in items
    ensures Perform(Anonymous, req, items, newId, valid) == ItemOutcome(Denied(RedirectToSignIn), items)
  {
  }

  /** Supplying a company grants no access to its catalog: a supplier's member is treated as unaffiliated. */
  lemma SupplierMemberIsUnaffiliated(req: ItemRequest, items: map<Id, Item>, newId: Id, valid: bool)
    requires newId !in items
    ensures Perform(SupplierMember, req, items, newId, valid) == Perform(Unaffiliated, req, items, newId, valid)
    ensures Perform(SupplierMember, req, items, newId, valid).response == Denied(RedirectToCompany)
  {
  }

  /** A plain member of the company gets exactly a purchaser member's treatment. */
  lemma OwnMemberIsPurchaserMember(req: ItemRequest, items: map<Id, Item>, newId: Id, valid: bool)
    requires newId !in items
    ensures Perform(OwnMember, req, items, newId, valid) == Perform(PurchaserMember, req, items, newId, valid)
  {
  }

  /** A purchaser's member browses the catalog and sees each item of it. */
  lemma PurchaserMemberReadsCatalog(req: ItemRequest, items: map<Id, Item>, newId: Id, valid: bool)
    requires newId !in items
    ensures req.action == Index ==>
      Perform(PurchaserMember, req, items, newId, valid).response == Listing(CatalogOf(items, req.company))
    ensures req.action == Show && req.itemId.Some? && req.itemId.value in CatalogOf(items, req.company) ==>
      Perform(PurchaserMember, req, items, newId, valid).response == Showing(items[req.itemId.value])
  {
  }

  /** An admin's create with every required field adds exactly one item, owned by the route company. */
  lemma AdminCreateAddsOneItem(req: ItemRequest, items: map<Id, Item>, newId: Id)
    requires newId !in items
    requires req.action == Create && req.form.name.Some? && req.form.price.Some? && req.form.unitSize.Some?
    ensures var o := Perform(OwnAdmin, req, items, newId, true);
      |o.items| == |items| + 1 && o.items.Keys == items.Keys + {newId} &&
      o.items[newId] == Item(req.form.name.value, req.form.refCode, req.form.price.value, req.form.unitSize.value, Some(req.company))
  {
  }

  /** A create that leaves out a required field adds nothing. */
  lemma CreateWithoutRequiredFieldAddsNothing(rel: Relation, req: ItemRequest, items: map<Id, Item>, newId: Id, valid: bool)
    requires newId !in items
    requires req.action == Create && (req.form.name.None? || req.form.price.None? || req.form.unitSize.None?)
    ensures Perform(rel, req, items, newId, valid).items == items
  {
  }

  /** An admin's update sets the submitted name and touches no other item. */
  lemma AdminUpdateSetsName(req: ItemRequest, items: map<Id, Item>, newId: Id, name: string)
    requires newId !in items
    requires req.action == Update && req.itemId.Some? && req.itemId.value in CatalogOf(items, req.company)
    requires req.form.name == Some(name)
    ensures var o := Perform(OwnAdmin, req, items, newId, true);
      o.items.Keys == items.Keys && o.items[req.itemId.value].name == name &&
      forall k :: k in items && k != req.itemId.value ==> o.items[k] == items[k]
  {
  }

  /** An admin's destroy removes exactly the targeted item. */
  lemma AdminDestroyRemovesOneItem(req: ItemRequest, items: map<Id, Item>, newId: Id, valid: bool)
    requires newId !in items
    requires req.action == Destroy && req.itemId.Some? && req.itemId.value in CatalogOf(items, req.company)
    ensures var o := Perform(OwnAdmin, req, items, newId, valid);
      |o.items| == |items| - 1 && o.items.Keys == items.Keys - {req.itemId.value}
  {
    var o := Perform(OwnAdmin, req, items, newId, valid);
    assert o.items.Keys == items.Keys - {req.itemId.value};
    assert |items.Keys| == |o.items.Keys| + 1 by {
      assert items.Keys == o.items.Keys + {req.itemId.value};
    }
  }

  // ---------------------------------------------------------------- the request specification, as data

  /** What one assertion of the request specification says about one request. */
  datatype Expectation =
    | RedirectsTo(verdict: Verdict)   // the response redirects
    | ListsCatalog                    // the index links to the company's items
    | ShowsNewForm                    // the form posting a new item to the company's items
    | ShowsEditForm                   // the form posting to the targeted item
    | ShowsItem                       // the targeted item's page, with its name
    | CountUp                         // the item count grows by one
    | CountDown                       // the item count shrinks by one
    | CountSame                       // the item count does not change
    | NameBecomes                     // the targeted item takes the submitted name
    | ItemSame                        // the targeted item does not change

  datatype Example = Example(rel: Relation, act: ItemAction, outcome: Expectation)

  // The assertions of the request specification, one block per signed-in user, in its order.
  // The two link checks of each index page are one `ListsCatalog` entry.

  const AnonymousSpec: seq<Example> := [
    Example(Anonymous, Index, RedirectsTo(RedirectToSignIn)),
    Example(Anonymous, Create, RedirectsTo(RedirectToSignIn)),
    Example(Anonymous, New, RedirectsTo(RedirectToSignIn)),
    Example(Anonymous, Edit, RedirectsTo(RedirectToSignIn)),
    Example(Anonymous, Show, RedirectsTo(RedirectToSignIn)),
    Example(Anonymous, Update, RedirectsTo(RedirectToSignIn)),
    Example(Anonymous, Destroy, RedirectsTo(RedirectToSignIn))
  ]

  const OwnAdminSpec: seq<Example> := [
    Example(OwnAdmin, Index, ListsCatalog),
    Example(OwnAdmin, Create, CountUp),
    Example(OwnAdmin, New, ShowsNewForm),
    Example(OwnAdmin, Edit, ShowsEditForm),
    Example(OwnAdmin, Show, ShowsItem),
    Example(OwnAdmin, Update, NameBecomes),
    Example(OwnAdmin, Destroy, CountDown)
  ]

  const UnaffiliatedSpec: seq<Example> := [
    Example(Unaffiliated, Index, RedirectsTo(RedirectToCompany)),
    Example(Unaffiliated, Create, CountSame),
    Example(Unaffiliated, New, RedirectsTo(RedirectToCompany)),
    Example(Unaffiliated, Edit, RedirectsTo(RedirectToCompany)),
    Example(Unaffiliated, Show, RedirectsTo(RedirectToCompany)),
    Example(Unaffiliated, Update, ItemSame),
    Example(Unaffiliated, Update, RedirectsTo(RedirectToCompany)),
    Example(Unaffiliated, Destroy, CountSame)
  ]

  const SupplierMemberSpec: seq<Example> := [
    Example(SupplierMember, Index, RedirectsTo(RedirectToCompany)),
    Example(SupplierMember, Create, CountSame),
    Example(SupplierMember, New, RedirectsTo(RedirectToCompany)),
    Example(SupplierMember, Edit, RedirectsTo(RedirectToCompany)),
    Example(SupplierMember, Show, RedirectsTo(RedirectToCompany)),
    Example(SupplierMember, Update, ItemSame),
    Example(SupplierMember, Update, RedirectsTo(RedirectToCompany)),
    Example(SupplierMember, Destroy, CountSame)
  ]

  const PurchaserMemberSpec: seq<Example> := [
    Example(PurchaserMember, Index, ListsCatalog),
    Example(PurchaserMember, Create, CountSame),
    Example(PurchaserMember, New, RedirectsTo(RedirectToItems)),
    Example(PurchaserMember, Edit, RedirectsTo(RedirectToItems)),
    Example(PurchaserMember, Show, ShowsItem),
    Example(PurchaserMember, Update, RedirectsTo(RedirectToItems)),
    Example(PurchaserMember, Destroy, CountSame)
  ]

  const OwnMemberSpec: seq<Example> := [
    Example(OwnMember, Index, ListsCatalog),
    Example(OwnMember, Create, CountSame),
    Example(OwnMember, New, RedirectsTo(RedirectToItems)),
    Example(OwnMember, Edit, RedirectsTo(RedirectToItems)),
    Example(OwnMember, Show, ShowsItem),
    Example(OwnMember, Update, RedirectsTo(RedirectToItems)),
    Example(OwnMember, Destroy, CountSame)
  ]

  /** Every assertion of the items request specification. */
  const RequestSpec: seq<Example> :=
    AnonymousSpec + OwnAdminSpec + UnaffiliatedSpec + SupplierMemberSpec + PurchaserMemberSpec + OwnMemberSpec

  /** The submitted form of the examples: name "Aioli", ref code "AIOL", price 350, unit size "2kg". */
  const Aioli: ItemForm := ItemForm(Some("Aioli"), Some("AIOL"), Some(350), Some("2kg"))

  /** An outcome meets an expectation, for a request on the catalog of `company` whose route item is `target`. */
  predicate Meets(e: Expectation, items: map<Id, Item>, company: Id, target: Id, o: ItemOutcome)
    requires target in items
  {
    match e
    case RedirectsTo(v) => o.response == Denied(v)
    case ListsCatalog => o.response == Listing(CatalogOf(items, company))
    case ShowsNewForm => o.response == NewForm
    case ShowsEditForm => o.response == EditForm(target)
    case ShowsItem => o.response == Showing(items[target])
    case CountUp => |o.items| == |items| + 1
    case CountDown => |o.items| == |items| - 1
    case CountSame => |o.items| == |items|
    case NameBecomes => target in o.items && o.items[target].name == Aioli.name.value
    case ItemSame => target in o.items && o.items[target] == items[target]
  }

  /** The verdict table predicts the expectation: the condition under which the model promises it. */
  predicate Predicts(rel: Relation, act: ItemAction, e: Expectation) {
    var v := ItemVerdict(rel, act);
    match e
    case RedirectsTo(w) => v == w && w != Allow
    case ListsCatalog => v == Allow && act == Index
    case ShowsNewForm => v == Allow && act == New
    case ShowsEditForm => v == Allow && act == Edit
    case ShowsItem => v == Allow && act == Show
    case CountUp => v == Allow && act == Create
    case CountDown => v == Allow && act == Destroy
    case CountSame => v != Allow
    case NameBecomes => v == Allow && act == Update
    case ItemSame => v != Allow
  }

  /** A predicted expectation is met: any catalog, any item of it as the target, the Aioli form, a valid save. */
  lemma PredictedIsMet(rel: Relation, act: ItemAction, e: Expectation, items: map<Id, Item>, company: Id, target: Id, newId: Id)
    requires Predicts(rel, act, e)
    requires newId !in items && target in CatalogOf(items, company)
    ensures Meets(e, items, company, target, Perform(rel, ItemRequest(act, company, Some(target), Aioli), items, newId, true))
  {
    var req := ItemRequest(act, company, Some(target), Aioli);
    match e
    case CountUp => AdminCreateAddsOneItem(req, items, newId);
    case CountDown => AdminDestroyRemovesOneItem(req, items, newId, true);
    case NameBecomes => AdminUpdateSetsName(req, items, newId, "Aioli");
    case _ =>
  }

  /** Every example of a block is predicted by the verdict table. */
  predicate AllPredicted(block: seq<Example>) {
    forall e :: e in block ==> Predicts(e.rel, e.act, e.outcome)
  }

  lemma AnonymousPredicted() ensures AllPredicted(AnonymousSpec) {}
  lemma OwnAdminPredicted() ensures AllPredicted(OwnAdminSpec) {}
  lemma UnaffiliatedPredicted() ensures AllPredicted(UnaffiliatedSpec) {}
  lemma SupplierMemberPredicted() ensures AllPredicted(SupplierMemberSpec) {}
  lemma PurchaserMemberPredicted() ensures AllPredicted(PurchaserMemberSpec) {}
  lemma OwnMemberPredicted() ensures AllPredicted(OwnMemberSpec) {}

  /** The whole specification is predicted, block by block. */
  lemma SpecPredicted()
    ensures AllPredicted(RequestSpec)
  {
    AnonymousPredicted();
    OwnAdminPredicted();
    UnaffiliatedPredicted();
    SupplierMemberPredicted();
    PurchaserMemberPredicted();
    OwnMemberPredicted();
  }

  /** Every example of the items request specification holds of the model. */
  lemma RequestSpecHolds(items: map<Id, Item>, company: Id, target: Id, newId: Id)
    requires newId !in items && target in CatalogOf(items, company)
    ensures forall i :: 0 <= i < |RequestSpec| ==>
      Meets(RequestSpec[i].outcome, items, company, target,
            Perform(RequestSpec[i].rel, ItemRequest(RequestSpec[i].act, company, Some(target), Aioli), items, newId, true))
  {
    SpecPredicted();
    forall i | 0 <= i < |RequestSpec|
      ensures Meets(RequestSpec[i].outcome, items, company, target,
                    Perform(RequestSpec[i].rel, ItemRequest(RequestSpec[i].act, company, Some(target), Aioli), items, newId, true))
    {
      var ex := RequestSpec[i];
      assert ex in RequestSpec;
      PredictedIsMet(ex.rel, ex.act, ex.outcome, items, company, target, newId);
    }
  }

  // ---------------------------------------------------------------- the store

  /** The items table; ids are handed out in increasing order. */
  class ItemStore {
    var items: map<Id, Item>
    var nextId: Id

    ghost predicate Valid()
      reads this
    {
      forall k :: k in items ==> k < nextId
    }

    constructor ()
      ensures Valid() && items == map[]
    {
      items := map[];
      nextId := 1;
    }

    /** One signed-in or anonymous request on the catalog of `req.company`. */
    method Handle(rel: Relation, req: ItemRequest, valid: bool) returns (resp: ItemResponse)
      requires Valid()
      modifies this
      ensures Valid()
      ensures var o := Perform(rel, req, old(items), old(nextId), valid); resp == o.response && items == o.items
    {
      var v := ItemVerdict(rel, req.action);
      if v != Allow {
        return Denied(v);
      }
      if req.action == Index {
        return Listing(CatalogOf(items, req.company));
      } else if req.action == New {
        return NewForm;
      } else if req.action == Create {
        var row := ItemRow(CreateDraft(req.form, req.company));
        if valid && row.Success? {
          resp := Saved(nextId);
          items := items[nextId := row.value];
          nextId := nextId + 1;
        } else {
          resp := Invalid;
        }
        return;
      }
      if !Found(req, items) {
        return ItemNotFound;
      }
      var id := req.itemId.value;
      match req.action
      case Edit => resp := EditForm(id);
      case Show => resp := Showing(items[id]);
      case Update =>
        if valid {
          items := items[id := ItemRow(UpdateDraft(items[id], req.form)).value];
          resp := Saved(id);
        } else {
          resp := Invalid;
        }
      case Destroy =>
        items := items - {id};
        resp := Destroyed;
    }
  }
}
