/**
 * The database schema: one record per table, the column defaults a new
 * record starts from, the NOT NULL columns a stored row must fill, and the
 * unique indexes a table must respect.
 *
 * A *draft* is a record before it is stored: every column may still be nil
 * (None). A new draft holds the column defaults; a draft becomes a row only
 * when all its NOT NULL columns are filled. The `created_at`/`updated_at`
 * timestamps and the other datetime columns are not modelled.
 */
module Schema {
  import opened Wrappers

  type Id = int

  /** What the store reports when it refuses a row. */
  datatype DbError = NotNullViolation(column: string) | UniqueViolation(index: string)

  // ---------------------------------------------------------------- commitments

  /** A user's membership of a company. */
  datatype Commitment = Commitment(
    userId: Id, companyId: Id, admin: bool, pendingAdminConf: bool, pendingMemberConf: bool)

  datatype CommitmentDraft = CommitmentDraft(
    userId: Option<Id>, companyId: Option<Id>, admin: Option<bool>,
    pendingAdminConf: Option<bool>, pendingMemberConf: Option<bool>)

  /** A new commitment: not an admin, both confirmations pending. */
  function NewCommitment(): (d: CommitmentDraft)
    ensures CommitmentRow(d) == Failure(NotNullViolation("user_id"))
    ensures forall u, c :: CommitmentRow(d.(userId := Some(u), companyId := Some(c))).Success?
  {
    CommitmentDraft(None, None, Some(false), Some(true), Some(true))
  }

  function CommitmentDraftOf(c: Commitment): CommitmentDraft {
    CommitmentDraft(Some(c.userId), Some(c.companyId), Some(c.admin),
                    Some(c.pendingAdminConf), Some(c.pendingMemberConf))
  }

  /** The row a draft is stored as; it exists exactly when every column is filled. */
  function CommitmentRow(d: CommitmentDraft): (r: Result<Commitment, DbError>)
    ensures r.Success? <==>
      d.userId.Some? && d.companyId.Some? && d.admin.Some? && d.pendingAdminConf.Some? && d.pendingMemberConf.Some?
    ensures r.Success? ==> CommitmentDraftOf(r.value) == d
  {
    if d.userId.None? then Failure(NotNullViolation("user_id"))
    else if d.companyId.None? then Failure(NotNullViolation("company_id"))
    else if d.admin.None? then Failure(NotNullViolation("admin"))
    else if d.pendingAdminConf.None? then Failure(NotNullViolation("pending_admin_conf"))
    else if d.pendingMemberConf.None? then Failure(NotNullViolation("pending_member_conf"))
    else Success(Commitment(d.userId.value, d.companyId.value, d.admin.value,
                            d.pendingAdminConf.value, d.pendingMemberConf.value))
  }

  predicate SameMembership(a: Commitment, b: Commitment) {
    a.userId == b.userId && a.companyId == b.companyId
  }

  /** The unique index on (user_id, company_id). */
  predicate CommitmentsUnique(t: map<Id, Commitment>) {
    forall a, b :: a in t && b in t && a != b ==> !SameMembership(t[a], t[b])
  }

  /** Storing a draft under a fresh id. */
  function InsertCommitment(t: map<Id, Commitment>, id: Id, d: CommitmentDraft): (r: Result<map<Id, Commitment>, DbError>)
    requires id !in t
    ensures r.Success? <==>
      CommitmentRow(d).Success? && forall k :: k in t ==> !SameMembership(t[k], CommitmentRow(d).value)
    ensures r.Success? ==> r.value == t[id := CommitmentRow(d).value]
    ensures r.Success? && CommitmentsUnique(t) ==> CommitmentsUnique(r.value)
  {
    match CommitmentRow(d)
    case Failure(e) => Failure(e)
    case Success(c) =>
      if exists k :: k in t && SameMembership(t[k], c)
      then Failure(UniqueViolation("index_commitments_on_user_id_and_company_id"))
      else Success(t[id := c])
  }

  // ---------------------------------------------------------------- companies

  datatype Company = Company(name: string, code: Option<string>, strAddr: Option<string>, city: Option<string>)

  datatype CompanyDraft = CompanyDraft(
    name: Option<string>, code: Option<string>, strAddr: Option<string>, city: Option<string>)

  /** A new company: every column nil, so it cannot be stored before it has a name. */
  function NewCompany(): (d: CompanyDraft)
    ensures CompanyRow(d) == Failure(NotNullViolation("name"))
    ensures forall n :: CompanyRow(d.(name := Some(n))) == Success(Company(n, None, None, None))
  {
    CompanyDraft(None, None, None, None)
  }

  function CompanyDraftOf(c: Company): CompanyDraft {
    CompanyDraft(Some(c.name), c.code, c.strAddr, c.city)
  }

  /** Only `name` is NOT NULL; `code`, `str_addr` and `city` may stay nil. */
  function CompanyRow(d: CompanyDraft): (r: Result<Company, DbError>)
    ensures r.Success? <==> d.name.Some?
    ensures r.Success? ==> CompanyDraftOf(r.value) == d
  {
    if d.name.None? then Failure(NotNullViolation("name"))
    else Success(Company(d.name.value, d.code, d.strAddr, d.city))
  }

  predicate SameName(a: Company, b: Company) {
    a.name == b.name
  }

  /** Two codes clash only when both are present and equal: nil codes never clash. */
  predicate SameCode(a: Company, b: Company) {
    a.code.Some? && a.code == b.code
  }

  predicate CompaniesUnique(t: map<Id, Company>) {
    forall a, b :: a in t && b in t && a != b ==> !SameName(t[a], t[b]) && !SameCode(t[a], t[b])
  }

  function InsertCompany(t: map<Id, Company>, id: Id, d: CompanyDraft): (r: Result<map<Id, Company>, DbError>)
    requires id !in t
    ensures r.Success? <==>
      CompanyRow(d).Success? &&
      forall k :: k in t ==> !SameName(t[k], CompanyRow(d).value) && !SameCode(t[k], CompanyRow(d).value)
    ensures r.Success? ==> r.value == t[id := CompanyRow(d).value]
    ensures r.Success? && CompaniesUnique(t) ==> CompaniesUnique(r.value)
  {
    match CompanyRow(d)
    case Failure(e) => Failure(e)
    case Success(c) =>
      if exists k :: k in t && SameCode(t[k], c) then Failure(UniqueViolation("index_companies_on_code"))
      else if exists k :: k in t && SameName(t[k], c) then Failure(UniqueViolation("index_companies_on_name"))
      else Success(t[id := c])
  }

  // ---------------------------------------------------------------- items

  /** An inventory item; `price` is an integer amount, `ref_code` and `company_id` are optional. */
  datatype Item = Item(name: string, refCode: Option<string>, price: int, unitSize: string, companyId: Option<Id>)

  datatype ItemDraft = ItemDraft(
    name: Option<string>, refCode: Option<string>, price: Option<int>, unitSize: Option<string>, companyId: Option<Id>)

  /** A new item: no column has a default, and `ref_code` and `company_id` may stay nil. */
  function NewItem(): (d: ItemDraft)
    ensures ItemRow(d) == Failure(NotNullViolation("name"))
    ensures forall n, p, u :: ItemRow(d.(name := Some(n), price := Some(p), unitSize := Some(u))) == Success(Item(n, None, p, u, None))
  {
    ItemDraft(None, None, None, None, None)
  }

  function ItemDraftOf(i: Item): ItemDraft {
    ItemDraft(Some(i.name), i.refCode, Some(i.price), Some(i.unitSize), i.companyId)
  }

  function ItemRow(d: ItemDraft): (r: Result<Item, DbError>)
    ensures r.Success? <==> d.name.Some? && d.price.Some? && d.unitSize.Some?
    ensures r.Success? ==> ItemDraftOf(r.value) == d
  {
    if d.name.None? then Failure(NotNullViolation("name"))
    else if d.price.None? then Failure(NotNullViolation("price"))
    else if d.unitSize.None? then Failure(NotNullViolation("unit_size"))
    else Success(Item(d.name.value, d.refCode, d.price.value, d.unitSize.value, d.companyId))
  }

  // ---------------------------------------------------------------- supply links

  /** A directed edge between two companies; no uniqueness and no supplier/purchaser disequality is enforced. */
  datatype SupplyLink = SupplyLink(
    supplierId: Id, purchaserId: Id, pendingSupplierConf: bool, pendingPurchaserConf: bool)

  datatype SupplyLinkDraft = SupplyLinkDraft(
    supplierId: Option<Id>, purchaserId: Option<Id>,
    pendingSupplierConf: Option<bool>, pendingPurchaserConf: Option<bool>)

  /** A new supply link: no companies yet, both confirmations pending. */
  function NewSupplyLink(): (d: SupplyLinkDraft)
    ensures SupplyLinkRow(d) == Failure(NotNullViolation("supplier_id"))
    ensures forall a, b :: SupplyLinkRow(d.(supplierId := Some(a), purchaserId := Some(b))) == Success(SupplyLink(a, b, true, true))
  {
    SupplyLinkDraft(None, None, Some(true), Some(true))
  }

  function SupplyLinkDraftOf(l: SupplyLink): SupplyLinkDraft {
    SupplyLinkDraft(Some(l.supplierId), Some(l.purchaserId), Some(l.pendingSupplierConf), Some(l.pendingPurchaserConf))
  }

  function SupplyLinkRow(d: SupplyLinkDraft): (r: Result<SupplyLink, DbError>)
    ensures r.Success? <==>
      d.supplierId.Some? && d.purchaserId.Some? && d.pendingSupplierConf.Some? && d.pendingPurchaserConf.Some?
    ensures r.Success? ==> SupplyLinkDraftOf(r.value) == d
  {
    if d.supplierId.None? then Failure(NotNullViolation("supplier_id"))
    else if d.purchaserId.None? then Failure(NotNullViolation("purchaser_id"))
    else if d.pendingSupplierConf.None? then Failure(NotNullViolation("pending_supplier_conf"))
    else if d.pendingPurchaserConf.None? then Failure(NotNullViolation("pending_purchaser_conf"))
    else Success(SupplyLink(d.supplierId.value, d.purchaserId.value,
                            d.pendingSupplierConf.value, d.pendingPurchaserConf.value))
  }

  // ---------------------------------------------------------------- users

  datatype User = User(
    name: string, email: string, encryptedPassword: string, resetPasswordToken: Option<string>, signInCount: int)

  datatype UserDraft = UserDraft(
    name: Option<string>, email: Option<string>, encryptedPassword: Option<string>,
    resetPasswordToken: Option<string>, signInCount: Option<int>)

  /** A new user: nothing filled in except a sign-in count of zero. */
  function NewUser(): (d: UserDraft)
    ensures UserRow(d) == Failure(NotNullViolation("name"))
    ensures forall n, e, p :: UserRow(d.(name := Some(n), email := Some(e), encryptedPassword := Some(p))) == Success(User(n, e, p, None, 0))
  {
    UserDraft(None, None, None, None, Some(0))
  }

  function UserDraftOf(u: User): UserDraft {
    UserDraft(Some(u.name), Some(u.email), Some(u.encryptedPassword), u.resetPasswordToken, Some(u.signInCount))
  }

  function UserRow(d: UserDraft): (r: Result<User, DbError>)
    ensures r.Success? <==> d.name.Some? && d.email.Some? && d.encryptedPassword.Some? && d.signInCount.Some?
    ensures r.Success? ==> UserDraftOf(r.value) == d
  {
    if d.name.None? then Failure(NotNullViolation("name"))
    else if d.email.None? then Failure(NotNullViolation("email"))
    else if d.encryptedPassword.None? then Failure(NotNullViolation("encrypted_password"))
    else if d.signInCount.None? then Failure(NotNullViolation("sign_in_count"))
    else Success(User(d.name.value, d.email.value, d.encryptedPassword.value, d.resetPasswordToken, d.signInCount.value))
  }

  predicate SameEmail(a: User, b: User) {
    a.email == b.email
  }

  /** Reset tokens clash only when both are present and equal. */
  predicate SameResetToken(a: User, b: User) {
    a.resetPasswordToken.Some? && a.resetPasswordToken == b.resetPasswordToken
  }

  predicate UsersUnique(t: map<Id, User>) {
    forall a, b :: a in t && b in t && a != b ==> !SameEmail(t[a], t[b]) && !SameResetToken(t[a], t[b])
  }

  function InsertUser(t: map<Id, User>, id: Id, d: UserDraft): (r: Result<map<Id, User>, DbError>)
    requires id !in t
    ensures r.Success? <==>
      UserRow(d).Success? &&
      forall k :: k in t ==> !SameEmail(t[k], UserRow(d).value) && !SameResetToken(t[k], UserRow(d).value)
    ensures r.Success? ==> r.value == t[id := UserRow(d).value]
    ensures r.Success? && UsersUnique(t) ==> UsersUnique(r.value)
  {
    match UserRow(d)
    case Failure(e) => Failure(e)
    case Success(u) =>
      if exists k :: k in t && SameEmail(t[k], u) then Failure(UniqueViolation("index_users_on_email"))
      else if exists k :: k in t && SameResetToken(t[k], u)
      then Failure(UniqueViolation("index_users_on_reset_password_token"))
      else Success(t[id := u])
  }

  // ---------------------------------------------------------------- lemmas

  /** A commitment given only its user and company is a non-admin membership awaiting both confirmations. */
  lemma NewCommitmentDefaults(user: Id, company: Id)
    ensures CommitmentRow(NewCommitment().(userId := Some(user), companyId := Some(company)))
         == Success(Commitment(user, company, false, true, true))
  {
  }

  /** Neither id of a commitment may be left out. */
  lemma CommitmentNeedsBothIds(d: CommitmentDraft)
    requires d.userId.None? || d.companyId.None?
    ensures CommitmentRow(d).Failure? && CommitmentRow(d).error.NotNullViolation?
  {
  }

  /** A second commitment for the same user and company is refused, whatever its flags. */
  lemma SecondCommitmentRefused(t: map<Id, Commitment>, id: Id, k: Id, d: CommitmentDraft)
    requires id !in t && k in t
    requires d.userId == Some(t[k].userId) && d.companyId == Some(t[k].companyId)
    ensures InsertCommitment(t, id, d).Failure?
  {
    if CommitmentRow(d).Success? {
      assert SameMembership(t[k], CommitmentRow(d).value);
    }
  }

  /** A supply link given only its two companies awaits both confirmations. */
  lemma NewSupplyLinkDefaults(supplier: Id, purchaser: Id)
    ensures SupplyLinkRow(NewSupplyLink().(supplierId := Some(supplier), purchaserId := Some(purchaser)))
         == Success(SupplyLink(supplier, purchaser, true, true))
  {
  }

  /** Any number of companies may leave their code nil; only the name must stay unique. */
  lemma CodelessCompaniesCoexist(t: map<Id, Company>, id: Id, name: string)
    requires id !in t
    requires forall k :: k in t ==> t[k].code.None? && t[k].name != name
    ensures InsertCompany(t, id, NewCompany().(name := Some(name))).Success?
  {
    var c := CompanyRow(NewCompany().(name := Some(name))).value;
    assert forall k :: k in t ==> !SameName(t[k], c) && !SameCode(t[k], c);
  }

  /** A user given the required strings starts with a sign-in count of zero. */
  lemma NewUserDefaults(name: string, email: string, password: string)
    ensures UserRow(NewUser().(name := Some(name), email := Some(email), encryptedPassword := Some(password)))
         == Success(User(name, email, password, None, 0))
  {
  }

  /** Round trip: every stored row is the row of its own draft. */
  lemma RowDraftRoundTrip(c: Commitment, co: Company, i: Item, l: SupplyLink, u: User)
    ensures CommitmentRow(CommitmentDraftOf(c)) == Success(c)
    ensures CompanyRow(CompanyDraftOf(co)) == Success(co)
    ensures ItemRow(ItemDraftOf(i)) == Success(i)
    ensures SupplyLinkRow(SupplyLinkDraftOf(l)) == Success(l)
    ensures UserRow(UserDraftOf(u)) == Success(u)
  {
  }
}
