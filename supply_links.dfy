/**
 * The supply-link controller: who may create, update or destroy a supply
 * link between two companies, and which half of the link's two-sided
 * confirmation an authorized admin may write.
 *
 * A request passes three before-filters in order: authentication, loading
 * (`set_vars`: the stored link when an id is given, then the route company)
 * and authorization (`authorize_action`). The roles the signed-in user
 * represents are the sides of the link whose company the user administers;
 * they come from the stored link when one was loaded (falling back to the
 * submitted id when the stored company row is gone), and from the submitted
 * `supplier_id`/`purchaser_id` otherwise. The permitted parameters are both
 * ids plus the pending flag of each represented side; every other key is
 * dropped without error.
 */
module SupplyLinks {
  import opened Wrappers
  import opened Schema
  import opened Params

  // ---------------------------------------------------------------- roles and keys

  datatype Role = Supplier | Purchaser

  /** The sides that confirm a link, in this order. */
  const Confirmers: seq<Role> := [Supplier, Purchaser]

  function RoleName(r: Role): string {
    match r
    case Supplier => "supplier"
    case Purchaser => "purchaser"
  }

  /** The parameter naming a side's company: "supplier_id", "purchaser_id". */
  function IdKey(r: Role): string {
    RoleName(r) + "_id"
  }

  /** The parameter holding a side's confirmation flag: "pending_supplier_conf", "pending_purchaser_conf". */
  function PendingKey(r: Role): string {
    "pending_" + RoleName(r) + "_conf"
  }

  const IdKeys: set<string> := {IdKey(Supplier), IdKey(Purchaser)}

  /** The four link parameters are pairwise distinct. */
  lemma KeysDistinct()
    ensures PendingKey(Supplier) != PendingKey(Purchaser)
    ensures IdKey(Supplier) != IdKey(Purchaser)
    ensures forall r: Role :: PendingKey(r) !in IdKeys
  {
    assert |PendingKey(Supplier)| == 21 && |PendingKey(Purchaser)| == 22;
    assert |IdKey(Supplier)| == 11 && |IdKey(Purchaser)| == 12;
  }

  function Side(l: SupplyLink, r: Role): Id {
    match r
    case Supplier => l.supplierId
    case Purchaser => l.purchaserId
  }

  function Pending(l: SupplyLink, r: Role): bool {
    match r
    case Supplier => l.pendingSupplierConf
    case Purchaser => l.pendingPurchaserConf
  }

  function DraftSide(d: SupplyLinkDraft, r: Role): Option<Id> {
    match r
    case Supplier => d.supplierId
    case Purchaser => d.purchaserId
  }

  function DraftPending(d: SupplyLinkDraft, r: Role): Option<bool> {
    match r
    case Supplier => d.pendingSupplierConf
    case Purchaser => d.pendingPurchaserConf
  }

  // ---------------------------------------------------------------- role resolution

  /** The signed-in user, reduced to the set of companies the user administers (`is_admin?`). */
  datatype Session = Anonymous | SignedIn(adminOf: set<Id>)

  /**
   * What the filters see: the companies the user administers, the ids in the
   * company table, the loaded link (`@supply_link`) and the submitted
   * `supply_link` sub-hash.
   */
  datatype Context = Context(adminOf: set<Id>, companies: set<Id>, link: Option<SupplyLink>, form: Option<Params>)

  /** `Company.find_by(id: v)`: the company with that id, or nil for a missing, nil or non-integer id. */
  function FindCompany(companies: set<Id>, v: Option<Value>): (c: Option<Id>)
    ensures c.Some? ==> c.value in companies && v == Some(Int(c.value))
    ensures c.None? ==> forall k :: k in companies ==> v != Some(Int(k))
  {
    if v.Some? && v.value.Int? && v.value.i in companies then Some(v.value.i) else None
  }

  /** `supplier` / `purchaser`: the stored link's company for that side, else the company the request names. */
  function RoleCompany(ctx: Context, r: Role): (c: Option<Id>)
    ensures c.Some? ==> c.value in ctx.companies
  {
    if ctx.link.Some? && Side(ctx.link.value, r) in ctx.companies then Some(Side(ctx.link.value, r))
    else FindCompany(ctx.companies, Dig(ctx.form, IdKey(r)))
  }

  /** The user administers the company on side `r`; `is_admin?(nil)` is false. */
  predicate Administers(ctx: Context, r: Role) {
    var c := RoleCompany(ctx, r);
    c.Some? && c.value in ctx.adminOf
  }

  /** `select`: the roles of `rs`, in their order, whose company the user administers. */
  function SelectAdministered(ctx: Context, rs: seq<Role>): (out: seq<Role>)
    ensures forall r :: r in out <==> r in rs && Administers(ctx, r)
    ensures |out| <= |rs|
  {
    if rs == [] then []
    else (if Administers(ctx, rs[0]) then [rs[0]] else []) + SelectAdministered(ctx, rs[1..])
  }

  /** `represented_roles` */
  function RepresentedRoles(ctx: Context): (roles: seq<Role>)
    ensures forall r :: r in roles <==> Administers(ctx, r)
  {
    SelectAdministered(ctx, Confirmers)
  }

  /** `represented_roles` is exactly the administered sub-list of [supplier, purchaser], in that order. */
  lemma RepresentedRolesInOrder(ctx: Context)
    ensures RepresentedRoles(ctx)
         == (if Administers(ctx, Supplier) then [Supplier] else [])
          + (if Administers(ctx, Purchaser) then [Purchaser] else [])
  {
    var s := if Administers(ctx, Supplier) then [Supplier] else [];
    var p := if Administers(ctx, Purchaser) then [Purchaser] else [];
    assert Confirmers[1..] == [Purchaser] && [Purchaser][1..] == [];
    assert SelectAdministered(ctx, [Purchaser]) == p + SelectAdministered(ctx, []);
    assert SelectAdministered(ctx, Confirmers) == s + SelectAdministered(ctx, [Purchaser]);
  }

  /** The companies of the given (administered) roles, in the same order. */
  function CompaniesOf(ctx: Context, roles: seq<Role>): (cs: seq<Id>)
    requires forall r :: r in roles ==> Administers(ctx, r)
    ensures |cs| == |roles|
    ensures forall i :: 0 <= i < |cs| ==> RoleCompany(ctx, roles[i]) == Some(cs[i])
    ensures forall c :: c in cs ==> c in ctx.adminOf
  {
    if roles == [] then []
    else
      assert roles[0] in roles && Administers(ctx, roles[0]);
      assert RoleCompany(ctx, roles[0]).Some?;
      [RoleCompany(ctx, roles[0]).value] + CompaniesOf(ctx, roles[1..])
  }

  /** `represented_companies`: the image of `represented_roles` under role to company. */
  function RepresentedCompanies(ctx: Context): (cs: seq<Id>)
    ensures |cs| == |RepresentedRoles(ctx)|
    ensures forall i :: 0 <= i < |cs| ==> RoleCompany(ctx, RepresentedRoles(ctx)[i]) == Some(cs[i])
    ensures forall c :: c in cs ==> c in ctx.adminOf
  {
    CompaniesOf(ctx, RepresentedRoles(ctx))
  }

  /** `authorize_action` lets the request through. */
  predicate Authorized(ctx: Context, company: Id)
    ensures Authorized(ctx, company) ==> company in ctx.adminOf && company in ctx.companies
  {
    |RepresentedRoles(ctx)| > 0 && company in RepresentedCompanies(ctx)
  }

  /** The request passes exactly when the user administers the route company and it is one of the link's two sides. */
  lemma AuthorizedIff(ctx: Context, company: Id)
    ensures Authorized(ctx, company) <==>
      company in ctx.adminOf &&
      (RoleCompany(ctx, Supplier) == Some(company) || RoleCompany(ctx, Purchaser) == Some(company))
  {
    var roles, cs := RepresentedRoles(ctx), RepresentedCompanies(ctx);
    if Authorized(ctx, company) {
      var i :| 0 <= i < |cs| && cs[i] == company;
      assert RoleCompany(ctx, roles[i]) == Some(company);
      assert roles[i] in roles;
      assert roles[i] == Supplier || roles[i] == Purchaser;
    }
    if company in ctx.adminOf && (RoleCompany(ctx, Supplier) == Some(company) || RoleCompany(ctx, Purchaser) == Some(company)) {
      var r := if RoleCompany(ctx, Supplier) == Some(company) then Supplier else Purchaser;
      assert Administers(ctx, r);
      var i :| 0 <= i < |roles| && roles[i] == r;
      assert RoleCompany(ctx, roles[i]) == Some(cs[i]);
      assert cs[i] == company;
    }
  }

  /** For a loaded link whose two companies still exist, the submitted ids play no part in role resolution. */
  lemma StoredLinkDecidesRoles(ctx: Context, form': Option<Params>, company: Id)
    requires ctx.link.Some?
    requires ctx.link.value.supplierId in ctx.companies && ctx.link.value.purchaserId in ctx.companies
    ensures RepresentedRoles(ctx.(form := form')) == RepresentedRoles(ctx)
    ensures Authorized(ctx.(form := form'), company) == Authorized(ctx, company)
  {
    var ctx' := ctx.(form := form');
    assert forall r: Role :: RoleCompany(ctx', r) == RoleCompany(ctx, r);
    RepresentedRolesInOrder(ctx);
    RepresentedRolesInOrder(ctx');
    AuthorizedIff(ctx, company);
    AuthorizedIff(ctx', company);
  }

  /** When the stored company row of a side is gone, that side's company is taken from the request instead. */
  lemma MissingStoredCompanyFallsBackToRequest(ctx: Context, r: Role)
    requires ctx.link.Some? && Side(ctx.link.value, r) !in ctx.companies
    ensures RoleCompany(ctx, r) == FindCompany(ctx.companies, Dig(ctx.form, IdKey(r)))
  {
  }

  // ---------------------------------------------------------------- permitted parameters

  function PendingKeys(roles: seq<Role>): set<string> {
    set r | r in roles :: PendingKey(r)
  }

  /** The allow-list: both ids, and the pending flag of each represented role. */
  function PermittedKeys(roles: seq<Role>): (keys: set<string>)
    ensures IdKeys <= keys
    ensures forall r: Role :: r in roles ==> PendingKey(r) in keys
    ensures keys <= IdKeys + {PendingKey(Supplier), PendingKey(Purchaser)}
  {
    IdKeys + PendingKeys(roles)
  }

  /** A side's pending flag is permitted exactly when that side is represented; both ids always are. */
  lemma PermittedKeysIff(roles: seq<Role>, r: Role)
    ensures PendingKey(r) in PermittedKeys(roles) <==> r in roles
    ensures IdKeys <= PermittedKeys(roles)
  {
    KeysDistinct();
    if PendingKey(r) in PendingKeys(roles) {
      var r' :| r' in roles && PendingKey(r') == PendingKey(r);
      assert r' == r;
    }
  }

  /** One `merge!` of the loop adds the next role's flag to the allow-list. */
  lemma MergeStep(raw: Params, roles: seq<Role>, i: nat)
    requires i < |roles|
    ensures Permit(raw, IdKeys + PendingKeys(roles[..i])) + Permit(raw, {PendingKey(roles[i])})
         == Permit(raw, IdKeys + PendingKeys(roles[..i + 1]))
  {
    assert PendingKeys(roles[..i + 1]) == PendingKeys(roles[..i]) + {PendingKey(roles[i])} by {
      assert roles[..i + 1] == roles[..i] + [roles[i]];
    }
    PermitMerge(raw, IdKeys + PendingKeys(roles[..i]), {PendingKey(roles[i])});
  }

  /** `supply_link_params`: require the sub-hash, permit both ids, then merge in each represented role's flag. */
  method SupplyLinkParams(form: Option<Params>, roles: seq<Role>) returns (r: Result<Params, ParamError>)
    ensures r.Failure? <==> Blank(form)
    ensures r.Success? ==> r.value == Permit(form.value, PermittedKeys(roles))
  {
    if Blank(form) {
      return Failure(ParameterMissing);
    }
    var raw := form.value;
    var p := Permit(raw, IdKeys);
    for i := 0 to |roles|
      invariant p == Permit(raw, IdKeys + PendingKeys(roles[..i]))
    {
      MergeStep(raw, roles, i);
      p := p + Permit(raw, {PendingKey(roles[i])});
    }
    assert roles[..|roles|] == roles;
    r := Success(p);
  }

  /** The flag of a side the user does not represent is dropped; the flag of a represented side is kept as submitted. */
  lemma PermittedFlags(form: Params, roles: seq<Role>, r: Role)
    ensures r !in roles ==> PendingKey(r) !in Permit(form, PermittedKeys(roles))
    ensures r in roles && PendingKey(r) in form ==>
      PendingKey(r) in Permit(form, PermittedKeys(roles)) &&
      Permit(form, PermittedKeys(roles))[PendingKey(r)] == form[PendingKey(r)]
  {
    PermittedKeysIff(roles, r);
  }

  // ---------------------------------------------------------------- assigning attributes

  function AssignId(p: Params, key: string, current: Option<Id>): Option<Id> {
    if key in p then AsInt(p[key]) else current
  }

  function AssignFlag(p: Params, key: string, current: Option<bool>): Option<bool> {
    if key in p then AsBool(p[key]) else current
  }

  /** `assign_attributes`: each submitted link column takes the submitted value, every other column keeps its value. */
  function Assign(d: SupplyLinkDraft, p: Params): (e: SupplyLinkDraft)
    ensures forall r: Role :: DraftSide(e, r) == if IdKey(r) in p then AsInt(p[IdKey(r)]) else DraftSide(d, r)
    ensures forall r: Role :: DraftPending(e, r) == if PendingKey(r) in p then AsBool(p[PendingKey(r)]) else DraftPending(d, r)
  {
    SupplyLinkDraft(
      AssignId(p, IdKey(Supplier), d.supplierId),
      AssignId(p, IdKey(Purchaser), d.purchaserId),
      AssignFlag(p, PendingKey(Supplier), d.pendingSupplierConf),
      AssignFlag(p, PendingKey(Purchaser), d.pendingPurchaserConf))
  }

  /** A save stores the draft when its NOT NULL columns are filled and the model's own validations (`valid`) accept it. */
  function Save(d: SupplyLinkDraft, valid: bool): (s: Option<SupplyLink>)
    ensures s.Some? <==> valid && SupplyLinkRow(d).Success?
    ensures s.Some? ==> SupplyLinkDraftOf(s.value) == d
  {
    if valid && SupplyLinkRow(d).Success? then Some(SupplyLinkRow(d).value) else None
  }

  // ---------------------------------------------------------------- requests and responses

  datatype Action = Create | Update | Destroy
  datatype Format = Html | Json
  datatype Flash = NoFlash | Notice | Alert

  datatype Response =
    | RedirectToSignIn                              // authenticate_user! failed
    | NotFound                                      // find raised RecordNotFound
    | BadRequest                                    // require raised ParameterMissing
    | NoMethodError                                 // update or destroy ran with no link loaded
    | RedirectToCompany(company: Id, flash: Flash)  // redirect_to company_path(@company)
    | ShowLink(link: SupplyLink)                    // render :show, status: :created
    | RenderNew                                     // render :new
    | Unprocessable                                 // render errors, status: :unprocessable_entity
    | NoContent                                     // head :no_content

  /** The response and the supply-link table after the request. */
  datatype Outcome = Outcome(response: Response, links: map<Id, SupplyLink>)

  /** A request: action, format, the `id` route parameter, `company_id`, and the `supply_link` sub-hash. */
  datatype Request = Request(action: Action, format: Format, id: Option<Id>, companyId: Option<Id>, form: Option<Params>)

  /** A loaded link matches the table: `target` is its id. */
  predicate Loaded(ctx: Context, links: map<Id, SupplyLink>, target: Option<Id>) {
    if target.Some? then target.value in links && ctx.link == Some(links[target.value]) else ctx.link.None?
  }

  /** `create`, once authorized. */
  function CreateStep(ctx: Context, company: Id, format: Format, links: map<Id, SupplyLink>, newId: Id, valid: bool): (o: Outcome)
    requires newId !in links
    ensures o.links == links || (newId in o.links && o.links == links[newId := o.links[newId]])
  {
    match Require(ctx.form)
    case Failure(_) => Outcome(BadRequest, links)
    case Success(form) =>
      var d := Assign(NewSupplyLink(), Permit(form, PermittedKeys(RepresentedRoles(ctx))));
      match Save(d, valid)
      case Some(row) =>
        Outcome(if format == Html then RedirectToCompany(company, Notice) else ShowLink(row), links[newId := row])
      case None =>
        Outcome(if format == Html then RedirectToCompany(company, Alert) else Unprocessable, links)
  }

  /** `update`, once authorized; the arguments are evaluated before the receiver is called. */
  function UpdateStep(ctx: Context, company: Id, format: Format, links: map<Id, SupplyLink>, target: Option<Id>, valid: bool): (o: Outcome)
    requires Loaded(ctx, links, target)
    ensures o.links == links || (target.Some? && target.value in o.links && o.links == links[target.value := o.links[target.value]])
  {
    match Require(ctx.form)
    case Failure(_) => Outcome(BadRequest, links)
    case Success(form) =>
      if target.None? then Outcome(NoMethodError, links)
      else
        var d := Assign(SupplyLinkDraftOf(links[target.value]), Permit(form, PermittedKeys(RepresentedRoles(ctx))));
        match Save(d, valid)
        case Some(row) =>
          Outcome(if format == Html then RedirectToCompany(company, Notice) else ShowLink(row), links[target.value := row])
        case None =>
          Outcome(if format == Html then RenderNew else Unprocessable, links)
  }

  /** `destroy`, once authorized: the link goes whatever its flags say. */
  function DestroyStep(company: Id, format: Format, links: map<Id, SupplyLink>, target: Option<Id>): (o: Outcome)
    ensures o.links == links || (target.Some? && o.links == links - {target.value})
  {
    if target.None? then Outcome(NoMethodError, links)
    else Outcome(if format == Html then RedirectToCompany(company, Notice) else NoContent, links - {target.value})
  }

  /** The context the filters build for a signed-in request whose records were found. */
  function ContextOf(adminOf: set<Id>, companies: set<Id>, links: map<Id, SupplyLink>, req: Request): (ctx: Context)
    requires req.id.Some? ==> req.id.value in links
    ensures Loaded(ctx, links, req.id)
  {
    Context(adminOf, companies, if req.id.Some? then Some(links[req.id.value]) else None, req.form)
  }

  /** The whole request: authenticate, load (link first, then company), authorize, then the action. */
  function Handle(session: Session, companies: set<Id>, links: map<Id, SupplyLink>, req: Request, newId: Id, valid: bool): (o: Outcome)
    requires newId !in links
    ensures o.links != links ==> ReachesAction(session, companies, links, req)
    ensures o.links.Keys <= links.Keys + {newId}
    ensures forall k :: k in links && Some(k) != req.id ==> k in o.links && o.links[k] == links[k]
  {
    if session.Anonymous? then Outcome(RedirectToSignIn, links)
    else if req.id.Some? && req.id.value !in links then Outcome(NotFound, links)
    else if req.companyId.None? || req.companyId.value !in companies then Outcome(NotFound, links)
    else
      var ctx := ContextOf(session.adminOf, companies, links, req);
      var company := req.companyId.value;
      if !Authorized(ctx, company) then Outcome(RedirectToCompany(company, NoFlash), links)
      else match req.action
        case Create => CreateStep(ctx, company, req.format, links, newId, valid)
        case Update => UpdateStep(ctx, company, req.format, links, req.id, valid)
        case Destroy => DestroyStep(company, req.format, links, req.id)
  }

  /** The request reached its action: signed in, both records found, authorized. */
  predicate ReachesAction(session: Session, companies: set<Id>, links: map<Id, SupplyLink>, req: Request)
    ensures ReachesAction(session, companies, links, req) ==>
      session.SignedIn? && req.companyId.Some? && req.companyId.value in session.adminOf
  {
    && session.SignedIn?
    && (req.id.Some? ==> req.id.value in links)
    && req.companyId.Some? && req.companyId.value in companies
    && Authorized(ContextOf(session.adminOf, companies, links, req), req.companyId.value)
  }

  // ---------------------------------------------------------------- properties of a request

  /** Filter order: an anonymous request is sent to sign in before anything is looked up. */
  lemma AnonymousGoesToSignIn(companies: set<Id>, links: map<Id, SupplyLink>, req: Request, newId: Id, valid: bool)
    requires newId !in links
    ensures Handle(Anonymous, companies, links, req, newId, valid) == Outcome(RedirectToSignIn, links)
  {
  }

  /** A missing link or company is NotFound before any authorization, and nothing is written. */
  lemma MissingRecordIsNotFound(adminOf: set<Id>, companies: set<Id>, links: map<Id, SupplyLink>, req: Request, newId: Id, valid: bool)
    requires newId !in links
    requires (req.id.Some? && req.id.value !in links) || req.companyId.None? || req.companyId.value !in companies
    ensures Handle(SignedIn(adminOf), companies, links, req, newId, valid) == Outcome(NotFound, links)
  {
  }

  /** A refused request redirects to the route company with no notice and writes nothing. */
  lemma RefusedRequestChangesNothing(session: Session, companies: set<Id>, links: map<Id, SupplyLink>, req: Request, newId: Id, valid: bool)
    requires newId !in links
    requires session.SignedIn? && (req.id.Some? ==> req.id.value in links)
    requires req.companyId.Some? && req.companyId.value in companies
    requires !ReachesAction(session, companies, links, req)
    ensures Handle(session, companies, links, req, newId, valid)
         == Outcome(RedirectToCompany(req.companyId.value, NoFlash), links)
  {
  }

  /** The confirmation flag of a side the user does not administer survives an update, whatever was submitted. */
  lemma UnrepresentedFlagUnchanged(session: Session, companies: set<Id>, links: map<Id, SupplyLink>, req: Request, newId: Id, valid: bool, r: Role)
    requires newId !in links
    requires req.action == Update && req.id.Some? && req.id.value in links
    requires session.SignedIn? && !Administers(ContextOf(session.adminOf, companies, links, req), r)
    ensures var o := Handle(session, companies, links, req, newId, valid);
      req.id.value in o.links && Pending(o.links[req.id.value], r) == Pending(links[req.id.value], r)
  {
    var o := Handle(session, companies, links, req, newId, valid);
    var id := req.id.value;
    if ReachesAction(session, companies, links, req) && !Blank(req.form) {
      var ctx := ContextOf(session.adminOf, companies, links, req);
      var roles := RepresentedRoles(ctx);
      var p := Permit(req.form.value, PermittedKeys(roles));
      PermittedFlags(req.form.value, roles, r);
      var d := Assign(SupplyLinkDraftOf(links[id]), p);
      assert DraftPending(d, r) == Some(Pending(links[id], r));
      if Save(d, valid).Some? {
        assert SupplyLinkDraftOf(o.links[id]) == d;
      }
    }
  }

  /** An admin of the supplier side only can never change the purchaser's flag. */
  lemma SupplierAdminCannotConfirmForPurchaser(session: Session, companies: set<Id>, links: map<Id, SupplyLink>, req: Request, newId: Id, valid: bool)
    requires newId !in links
    requires req.action == Update && req.id.Some? && req.id.value in links
    requires session.SignedIn? && RepresentedRoles(ContextOf(session.adminOf, companies, links, req)) == [Supplier]
    ensures var o := Handle(session, companies, links, req, newId, valid);
      o.links[req.id.value].pendingPurchaserConf == links[req.id.value].pendingPurchaserConf
  {
    UnrepresentedFlagUnchanged(session, companies, links, req, newId, valid, Purchaser);
  }

  /** An admin of the purchaser side only can never change the supplier's flag. */
  lemma PurchaserAdminCannotConfirmForSupplier(session: Session, companies: set<Id>, links: map<Id, SupplyLink>, req: Request, newId: Id, valid: bool)
    requires newId !in links
    requires req.action == Update && req.id.Some? && req.id.value in links
    requires session.SignedIn? && RepresentedRoles(ContextOf(session.adminOf, companies, links, req)) == [Purchaser]
    ensures var o := Handle(session, companies, links, req, newId, valid);
      o.links[req.id.value].pendingSupplierConf == links[req.id.value].pendingSupplierConf
  {
    UnrepresentedFlagUnchanged(session, companies, links, req, newId, valid, Supplier);
  }

  /** An admin of both sides writes both flags in one update. */
  lemma BothSidesAdminWritesBothFlags(adminOf: set<Id>, companies: set<Id>, links: map<Id, SupplyLink>, req: Request, newId: Id, s: bool, p: bool)
    requires newId !in links
    requires req.action == Update && req.id.Some? && req.id.value in links
    requires req.companyId.Some? && req.companyId.value in companies
    requires var ctx := ContextOf(adminOf, companies, links, req);
      Administers(ctx, Supplier) && Administers(ctx, Purchaser) &&
      (RoleCompany(ctx, Supplier) == req.companyId || RoleCompany(ctx, Purchaser) == req.companyId)
    requires req.form == Some(map[PendingKey(Supplier) := Bool(s), PendingKey(Purchaser) := Bool(p)])
    ensures var o := Handle(SignedIn(adminOf), companies, links, req, newId, true);
      o.links == links[req.id.value := links[req.id.value].(pendingSupplierConf := s, pendingPurchaserConf := p)]
  {
    var ctx := ContextOf(adminOf, companies, links, req);
    var id, company, form := req.id.value, req.companyId.value, req.form.value;
    AuthorizedIff(ctx, company);
    RepresentedRolesInOrder(ctx);
    var roles := RepresentedRoles(ctx);
    assert roles == [Supplier, Purchaser];
    PermittedKeysIff(roles, Supplier);
    PermittedKeysIff(roles, Purchaser);
    PermitAll(form, PermittedKeys(roles));
    KeysDistinct();
    var d := Assign(SupplyLinkDraftOf(links[id]), form);
    var want := links[id].(pendingSupplierConf := s, pendingPurchaserConf := p);
    assert DraftSide(d, Supplier) == Some(want.supplierId);
    assert DraftSide(d, Purchaser) == Some(want.purchaserId);
    assert DraftPending(d, Supplier) == Some(s);
    assert DraftPending(d, Purchaser) == Some(p);
    assert d == SupplyLinkDraftOf(want);
    assert Save(d, true) == Some(want);
    assert UpdateStep(ctx, company, req.format, links, req.id, true).links == links[id := want];
  }

  /** An authorized update may re-point either side of the link: both ids stay permitted, and the flags are kept. */
  lemma AuthorizedUpdateMayRepoint(session: Session, companies: set<Id>, links: map<Id, SupplyLink>, req: Request, newId: Id, r: Role, c: Id)
    requires newId !in links
    requires req.action == Update && req.id.Some? && ReachesAction(session, companies, links, req)
    requires req.form == Some(map[IdKey(r) := Int(c)])
    ensures var o := Handle(session, companies, links, req, newId, true);
      var old_ := links[req.id.value];
      o.links == links[req.id.value := if r == Supplier then old_.(supplierId := c) else old_.(purchaserId := c)]
  {
    var ctx := ContextOf(session.adminOf, companies, links, req);
    var pm := Permit(req.form.value, PermittedKeys(RepresentedRoles(ctx)));
    KeysDistinct();
    assert IdKey(r) in pm;
    assert pm == req.form.value;
  }

  /**
   * A supplier-only admin may re-point the purchaser side of a link the old purchaser had confirmed:
   * the flag is not reset, so the new purchaser stands as confirmed without having acted.
   */
  lemma SupplierAdminMayRepointConfirmedPurchaser(session: Session, companies: set<Id>, links: map<Id, SupplyLink>, req: Request, newId: Id, q: Id)
    requires newId !in links
    requires req.action == Update && req.id.Some? && ReachesAction(session, companies, links, req)
    requires RepresentedRoles(ContextOf(session.adminOf, companies, links, req)) == [Supplier]
    requires !Pending(links[req.id.value], Purchaser)
    requires req.form == Some(map[IdKey(Purchaser) := Int(q)])
    ensures var o := Handle(session, companies, links, req, newId, true);
      o.links[req.id.value].purchaserId == q && !Pending(o.links[req.id.value], Purchaser)
  {
    AuthorizedUpdateMayRepoint(session, companies, links, req, newId, Purchaser, q);
  }

  /**
   * When a link's supplier row is gone, an admin of any company X may take over the supplier side:
   * submitting `supplier_id = X` makes X the supplier for authorization, and the update stores it.
   */
  lemma OrphanedSupplierSideCanBeTaken(adminOf: set<Id>, companies: set<Id>, links: map<Id, SupplyLink>, req: Request, newId: Id, x: Id)
    requires newId !in links
    requires req.action == Update && req.id.Some? && req.id.value in links
    requires links[req.id.value].supplierId !in companies
    requires x in companies && x in adminOf && req.companyId == Some(x)
    requires req.form == Some(map[IdKey(Supplier) := Int(x)])
    ensures ReachesAction(SignedIn(adminOf), companies, links, req)
    ensures Handle(SignedIn(adminOf), companies, links, req, newId, true).links
         == links[req.id.value := links[req.id.value].(supplierId := x)]
  {
    var ctx := ContextOf(adminOf, companies, links, req);
    assert Dig(req.form, IdKey(Supplier)) == Some(Int(x));
    assert RoleCompany(ctx, Supplier) == Some(x);
    AuthorizedIff(ctx, x);
    AuthorizedUpdateMayRepoint(SignedIn(adminOf), companies, links, req, newId, Supplier, x);
  }

  /** No revoke-only-before-active rule: an admin may set the own side back to pending on an active link. */
  lemma ActiveLinkCanBeReopened(session: Session, companies: set<Id>, links: map<Id, SupplyLink>, req: Request, newId: Id, r: Role)
    requires newId !in links
    requires req.action == Update && req.id.Some? && ReachesAction(session, companies, links, req)
    requires !Pending(links[req.id.value], Supplier) && !Pending(links[req.id.value], Purchaser)
    requires Administers(ContextOf(session.adminOf, companies, links, req), r)
    requires req.form == Some(map[PendingKey(r) := Bool(true)])
    ensures var o := Handle(session, companies, links, req, newId, true);
      Pending(o.links[req.id.value], r)
  {
    var ctx := ContextOf(session.adminOf, companies, links, req);
    var id, form := req.id.value, req.form.value;
    var roles := RepresentedRoles(ctx);
    PermittedFlags(form, roles, r);
    PermittedKeysIff(roles, r);
    PermitAll(form, PermittedKeys(roles));
    var d := Assign(SupplyLinkDraftOf(links[id]), form);
    assert DraftPending(d, r) == Some(true);
    assert SupplyLinkRow(d).Success?;
    var o := UpdateStep(ctx, req.companyId.value, req.format, links, req.id, true);
    assert o.links == links[id := Save(d, true).value];
  }

  /** A created link starts pending on every side whose flag was not both submitted and permitted. */
  lemma CreatedLinkStartsPending(session: Session, companies: set<Id>, links: map<Id, SupplyLink>, req: Request, newId: Id, valid: bool, r: Role)
    requires newId !in links
    requires req.action == Create
    requires var o := Handle(session, companies, links, req, newId, valid); o.links != links
    requires session.SignedIn? && req.form.Some?
    requires PendingKey(r) !in req.form.value || !Administers(ContextOf(session.adminOf, companies, links, req), r)
    ensures var o := Handle(session, companies, links, req, newId, valid);
      newId in o.links && Pending(o.links[newId], r)
  {
    var o := Handle(session, companies, links, req, newId, valid);
    var ctx := ContextOf(session.adminOf, companies, links, req);
    var roles := RepresentedRoles(ctx);
    var pm := Permit(req.form.value, PermittedKeys(roles));
    PermittedFlags(req.form.value, roles, r);
    var d := Assign(NewSupplyLink(), pm);
    assert DraftPending(d, r) == Some(true);
    assert SupplyLinkDraftOf(o.links[newId]) == d;
  }

  /** An authorized, valid create stores the submitted ids under the new id, both flags pending, and reports success. */
  lemma CreateStoresSubmittedIds(session: Session, companies: set<Id>, links: map<Id, SupplyLink>, req: Request, newId: Id, s: Id, p: Id)
    requires newId !in links
    requires req.action == Create && ReachesAction(session, companies, links, req)
    requires req.form == Some(map[IdKey(Supplier) := Int(s), IdKey(Purchaser) := Int(p)])
    ensures var o := Handle(session, companies, links, req, newId, true);
      o.links == links[newId := SupplyLink(s, p, true, true)] &&
      o.response == if req.format == Html then RedirectToCompany(req.companyId.value, Notice)
                    else ShowLink(SupplyLink(s, p, true, true))
  {
    var ctx := ContextOf(session.adminOf, companies, links, req);
    var form := req.form.value;
    var roles := RepresentedRoles(ctx);
    KeysDistinct();
    assert IdKeys <= PermittedKeys(roles);
    PermitAll(form, PermittedKeys(roles));
    var d := Assign(NewSupplyLink(), form);
    assert d == NewSupplyLink().(supplierId := Some(s), purchaserId := Some(p));
  }

  /**
   * `set_vars` loads the link named by `id` on a create as well, and its roles decide which flags are permitted,
   * while the new row's ids come from the form: an admin of the stored link's supplier may create a link for two
   * other companies whose supplier side already stands as confirmed.
   */
  lemma CreateBorrowsRolesOfLoadedLink(adminOf: set<Id>, companies: set<Id>, links: map<Id, SupplyLink>, req: Request, newId: Id, a: Id, b: Id, c: Id)
    requires newId !in links
    requires req.action == Create && req.id.Some? && req.id.value in links
    requires links[req.id.value].supplierId == a && a in companies && a in adminOf && req.companyId == Some(a)
    requires b !in adminOf
    requires req.form == Some(map[IdKey(Supplier) := Int(b), IdKey(Purchaser) := Int(c), PendingKey(Supplier) := Bool(false)])
    ensures ReachesAction(SignedIn(adminOf), companies, links, req)
    ensures Handle(SignedIn(adminOf), companies, links, req, newId, true).links == links[newId := SupplyLink(b, c, false, true)]
  {
    var ctx := ContextOf(adminOf, companies, links, req);
    var form := req.form.value;
    assert RoleCompany(ctx, Supplier) == Some(a);
    AuthorizedIff(ctx, a);
    var roles := RepresentedRoles(ctx);
    PermittedKeysIff(roles, Supplier);
    KeysDistinct();
    PermitAll(form, PermittedKeys(roles));
    var d := Assign(NewSupplyLink(), form);
    assert DraftPending(d, Supplier) == Some(false);
    assert DraftPending(d, Purchaser) == Some(true);
    assert d == SupplyLinkDraftOf(SupplyLink(b, c, false, true));
  }

  /** A create that fails to save persists nothing and reports the failure. */
  lemma FailedCreatePersistsNothing(session: Session, companies: set<Id>, links: map<Id, SupplyLink>, req: Request, newId: Id)
    requires newId !in links
    requires req.action == Create && ReachesAction(session, companies, links, req) && !Blank(req.form)
    ensures var o := Handle(session, companies, links, req, newId, false);
      o.links == links &&
      o.response == if req.format == Html then RedirectToCompany(req.companyId.value, Alert) else Unprocessable
  {
  }

  /** Once authorized, destroy removes the link whatever its flags and reports success. */
  lemma DestroyIgnoresFlags(session: Session, companies: set<Id>, links: map<Id, SupplyLink>, req: Request, newId: Id, valid: bool)
    requires newId !in links
    requires req.action == Destroy && req.id.Some? && ReachesAction(session, companies, links, req)
    ensures var o := Handle(session, companies, links, req, newId, valid);
      o.links == links - {req.id.value} && req.id.value !in o.links &&
      o.response == if req.format == Html then RedirectToCompany(req.companyId.value, Notice) else NoContent
  {
  }

  // ---------------------------------------------------------------- the store and the controller

  /** The supply_links table; ids are handed out in increasing order. */
  class LinkStore {
    var rows: map<Id, SupplyLink>
    var nextId: Id

    ghost predicate Valid()
      reads this
    {
      forall k :: k in rows ==> k < nextId
    }

    constructor ()
      ensures Valid() && rows == map[]
    {
      rows := map[];
      nextId := 1;
    }

    /** `SupplyLink.find(id)` */
    method Find(id: Id) returns (r: Option<SupplyLink>)
      ensures r.Some? <==> id in rows
      ensures r.Some? ==> r.value == rows[id]
    {
      r := if id in rows then Some(rows[id]) else None;
    }

    method Insert(l: SupplyLink) returns (id: Id)
      requires Valid()
      modifies this
      ensures Valid()
      ensures id == old(nextId) && id !in old(rows)
      ensures rows == old(rows)[id := l]
    {
      id := nextId;
      rows := rows[id := l];
      nextId := nextId + 1;
    }

    method Put(id: Id, l: SupplyLink)
      requires Valid() && id in rows
      modifies this`rows
      ensures Valid()
      ensures rows == old(rows)[id := l]
    {
      rows := rows[id := l];
    }

    method Delete(id: Id)
      requires Valid()
      modifies this`rows
      ensures Valid()
      ensures rows == old(rows) - {id}
    {
      rows := rows - {id};
    }
  }

  /** A loaded link together with its id. */
  datatype LoadedLink = LoadedLink(id: Id, row: SupplyLink)

  /** One controller instance serves one request; `supplyLink` and `company` are `@supply_link` and `@company`. */
  class SupplyLinksController {
    const store: LinkStore
    const companies: set<Id>
    var supplyLink: Option<LoadedLink>
    var company: Option<Id>

    constructor (store: LinkStore, companies: set<Id>)
      ensures this.store == store && this.companies == companies
      ensures supplyLink.None? && company.None?
    {
      this.store := store;
      this.companies := companies;
      supplyLink := None;
      company := None;
    }

    function Target(): Option<Id>
      reads this
    {
      if supplyLink.Some? then Some(supplyLink.value.id) else None
    }

    function Ctx(adminOf: set<Id>, form: Option<Params>): Context
      reads this
    {
      Context(adminOf, companies, if supplyLink.Some? then Some(supplyLink.value.row) else None, form)
    }

    /** `set_vars`: load the link when an id is given, then the route company; false when either is missing. */
    method SetVars(req: Request) returns (found: bool)
      modifies this
      ensures found <==>
        (req.id.Some? ==> req.id.value in store.rows) && req.companyId.Some? && req.companyId.value in companies
      ensures found ==> company == req.companyId
      ensures found ==> supplyLink == if req.id.Some? then Some(LoadedLink(req.id.value, store.rows[req.id.value])) else None
    {
      found := false;
      supplyLink := None;
      if req.id.Some? {
        var r := store.Find(req.id.value);
        if r.None? { return; }
        supplyLink := Some(LoadedLink(req.id.value, r.value));
      }
      if req.companyId.None? || req.companyId.value !in companies { return; }
      company := req.companyId;
      found := true;
    }

    /** `authorize_action`: the user represents some side, and the route company is one of the represented sides. */
    method AuthorizeAction(adminOf: set<Id>, form: Option<Params>) returns (ok: bool)
      requires company.Some?
      ensures ok == Authorized(Ctx(adminOf, form), company.value)
    {
      var ctx := Ctx(adminOf, form);
      ok := |RepresentedRoles(ctx)| > 0 && company.value in RepresentedCompanies(ctx);
    }

    /** `create`: build a link from the permitted parameters over the defaults and save it. */
    method Create(adminOf: set<Id>, req: Request, valid: bool) returns (resp: Response)
      requires company.Some? && store.Valid()
      modifies store
      ensures store.Valid()
      ensures var o := CreateStep(Ctx(adminOf, req.form), company.value, req.format, old(store.rows), old(store.nextId), valid);
        resp == o.response && store.rows == o.links
    {
      var ctx := Ctx(adminOf, req.form);
      var p := SupplyLinkParams(req.form, RepresentedRoles(ctx));
      if p.Failure? {
        return BadRequest;
      }
      var saved := Save(Assign(NewSupplyLink(), p.value), valid);
      if saved.Some? {
        var _ := store.Insert(saved.value);
        resp := if req.format == Html then RedirectToCompany(company.value, Notice) else ShowLink(saved.value);
      } else {
        resp := if req.format == Html then RedirectToCompany(company.value, Alert) else Unprocessable;
      }
    }

    /** `update`: write the permitted parameters into the loaded link and save it. */
    method Update(adminOf: set<Id>, req: Request, valid: bool) returns (resp: Response)
      requires company.Some? && store.Valid()
      requires Loaded(Ctx(adminOf, req.form), store.rows, Target())
      modifies store`rows
      ensures store.Valid()
      ensures var o := UpdateStep(Ctx(adminOf, req.form), company.value, req.format, old(store.rows), Target(), valid);
        resp == o.response && store.rows == o.links
    {
      var ctx := Ctx(adminOf, req.form);
      var p := SupplyLinkParams(req.form, RepresentedRoles(ctx));
      if p.Failure? {
        return BadRequest;
      }
      if supplyLink.None? {
        return NoMethodError;
      }
      var saved := Save(Assign(SupplyLinkDraftOf(supplyLink.value.row), p.value), valid);
      if saved.Some? {
        store.Put(supplyLink.value.id, saved.value);
        resp := if req.format == Html then RedirectToCompany(company.value, Notice) else ShowLink(saved.value);
      } else {
        resp := if req.format == Html then RenderNew else Unprocessable;
      }
    }

    /** `destroy`: remove the loaded link. */
    method Destroy(req: Request) returns (resp: Response)
      requires company.Some? && store.Valid()
      modifies store`rows
      ensures store.Valid()
      ensures var o := DestroyStep(company.value, req.format, old(store.rows), Target());
        resp == o.response && store.rows == o.links
    {
      if supplyLink.None? {
        return NoMethodError;
      }
      store.Delete(supplyLink.value.id);
      resp := if req.format == Html then RedirectToCompany(company.value, Notice) else NoContent;
    }

    /** A request through the three before-filters and then its action. */
    method Process(session: Session, req: Request, valid: bool) returns (resp: Response)
      requires store.Valid()
      modifies this, store
      ensures store.Valid()
      ensures var o := Handle(session, companies, old(store.rows), req, old(store.nextId), valid);
        resp == o.response && store.rows == o.links
    {
      if session.Anonymous? {
        return RedirectToSignIn;
      }
      var found := SetVars(req);
      if !found {
        return NotFound;
      }
      assert Ctx(session.adminOf, req.form) == ContextOf(session.adminOf, companies, store.rows, req);
      var ok := AuthorizeAction(session.adminOf, req.form);
      if !ok {
        return RedirectToCompany(company.value, NoFlash);
      }
      match req.action
      case Create => resp := Create(session.adminOf, req, valid);
      case Update => resp := Update(session.adminOf, req, valid);
      case Destroy => resp := Destroy(req);
    }
  }
}
