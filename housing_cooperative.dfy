/** The housing-cooperative endpoints: look up by organisation number,
    create, list a page, update and delete. Each write records one audit
    line; a cooperative that still has mortgage deeds is not deleted. */
module HousingCooperatives {
  import opened Common
  import opened Text
  import opened Seqs
  import opened SupabaseUtils
  import opened CooperativeSchemas
  import opened Store
  import opened Audit

  // ---------------------------------------------------------------- lookup

  function FetchFailedMessage(org: string): string {
    "Failed to fetch housing cooperative " + org
  }

  /** get_cooperative_by_org_number: a `.single()` select through the
      helper, so none or several rows with the number is the helper's 404. */
  function GetCooperativeByOrgNumber(cooperatives: seq<Cooperative>, org: string): (r: Result<Cooperative>)
    ensures r.Ok? <==> |Filter(cooperatives, CooperativeHasOrgNumber(org))| == 1
    ensures r.Ok? ==> r.value in cooperatives && r.value.organisationNumber == org
    ensures r.Err? ==> r.error == HttpError(NotFound, FetchFailedMessage(org))
  {
    match Single(Filter(cooperatives, CooperativeHasOrgNumber(org)))
    case None => HandleOperation<Cooperative>(Failed(ApiError(NoRowsCode)), FetchFailedMessage(org))
    case Some(c) =>
      FilterMembers(cooperatives, CooperativeHasOrgNumber(org));
      Ok(c)
  }

  /** No two cooperatives share an organisation number. */
  predicate UniqueOrgNumbers(cooperatives: seq<Cooperative>) {
    forall i, j :: 0 <= i < j < |cooperatives| ==>
      cooperatives[i].organisationNumber != cooperatives[j].organisationNumber
  }

  /** With unique organisation numbers, the selection by a row's number is that row alone. */
  lemma {:induction false} UniqueSelection(cooperatives: seq<Cooperative>, c: Cooperative)
    requires UniqueOrgNumbers(cooperatives) && c in cooperatives
    ensures Filter(cooperatives, CooperativeHasOrgNumber(c.organisationNumber)) == [c]
  {
    var p := CooperativeHasOrgNumber(c.organisationNumber);
    var tail := cooperatives[1..];
    if cooperatives[0] == c {
      forall x | x in tail ensures !p(x) {
        var j :| 0 <= j < |tail| && tail[j] == x;
        assert cooperatives[j + 1] == x;
      }
      FilterNone(tail, p);
    } else {
      assert c in tail;
      var k :| 0 <= k < |tail| && tail[k] == c;
      assert cooperatives[k + 1] == c;
      assert UniqueOrgNumbers(tail) by {
        forall i, j | 0 <= i < j < |tail|
          ensures tail[i].organisationNumber != tail[j].organisationNumber
        {
          assert tail[i] == cooperatives[i + 1] && tail[j] == cooperatives[j + 1];
        }
      }
      UniqueSelection(tail, c);
    }
  }

  /** With unique organisation numbers every cooperative is found by its number. */
  lemma EveryCooperativeFound(cooperatives: seq<Cooperative>, c: Cooperative)
    requires UniqueOrgNumbers(cooperatives) && c in cooperatives
    ensures GetCooperativeByOrgNumber(cooperatives, c.organisationNumber) == Ok(c)
  {
    UniqueSelection(cooperatives, c);
  }

  // ---------------------------------------------------------------- replies

  /** `HousingCooperativeResponse(**row)`: the row passes the base model's
      checks again (every required field present and not null, the formats
      the create body checks, the company normaliser, the e-mail) and its id
      is positive. A row that fails raises a ValidationError. */
  predicate CooperativeResponseValid(c: Cooperative, email: EmailCheck) {
    && c.id > 0
    && IsOrganisationNumber(c.organisationNumber)
    && c.name.Some? && LengthWithin(c.name.value, 2, 100)
    && c.address.Some? && LengthWithin(c.address.value, 5, 200)
    && c.city.Some? && LengthWithin(c.city.value, 2, 100)
    && c.postalCode.Some? && IsPostalCode(c.postalCode.value)
    && (c.administratorCompany.Some? ==> |c.administratorCompany.value| <= 100)
    && NormaliseAdministratorCompany(c.administratorCompany).Ok?
    && c.administratorName.Some? && LengthWithin(c.administratorName.value, 2, 100)
    && c.administratorPersonNumber.Some? && IsAdministratorPersonNumber(c.administratorPersonNumber.value)
    && c.administratorEmail.Some? && email(c.administratorEmail.value).Some?
  }

  /** The reply a handler builds from a row outside any `try`: the row when
      it passes the response model, otherwise the unhandled ValidationError's 500. */
  function CooperativeReply(c: Cooperative, email: EmailCheck): (r: Result<Cooperative>)
    ensures r.Ok? <==> CooperativeResponseValid(c, email)
    ensures r.Ok? ==> r.value == c
    ensures r.Err? ==> r.error == UnhandledError
  {
    if CooperativeResponseValid(c, email) then Ok(c) else Err(UnhandledError)
  }

  /** What `EmailStr` is expected to do with an address it has already
      normalised: accept it unchanged. */
  ghost predicate EmailIdempotent(email: EmailCheck) {
    forall e :: email(e).Some? ==> email(email(e).value) == email(e)
  }

  // ---------------------------------------------------------------- create

  const DuplicateCooperative := HttpError(Conflict, "Housing cooperative with this organization number already exists")

  /** The row `{**cooperative.model_dump(), "created_by": user}` becomes. */
  function NewCooperative(c: CooperativeCreate, id: int, userId: string): Cooperative {
    Cooperative(id, c.organisationNumber, Some(c.name), Some(c.address), Some(c.city), Some(c.postalCode),
                c.administratorCompany, Some(c.administratorName), Some(c.administratorPersonNumber),
                Some(c.administratorEmail), userId)
  }

  function CooperativeCreatedLine(c: CooperativeCreate, id: int, userId: string): LogLine {
    LogLine(id, None, "COOPERATIVE_CREATED", userId,
            "Created housing cooperative '" + c.name + "' (org.nr: " + c.organisationNumber + ")")
  }

  /** The cooperatives table and the audit log are as they were. */
  ghost predicate Unchanged(db: Database, cooperatives: seq<Cooperative>, audit: seq<AuditEntry>)
    reads db
  {
    db.cooperatives == cooperatives && db.audit == audit
  }

  /** create_housing_cooperative: a body that fails validation is a 422; an
      organisation number already in the table is a 409 and nothing is
      written; otherwise the row is inserted under the next id, with the
      normalised administrator company, and its audit line follows. */
  method CreateHousingCooperative(db: Database, request: CooperativeCreate, caller: Caller, now: int,
                                  email: EmailCheck)
    returns (r: Result<Cooperative>)
    requires db.Valid()
    modifies db`cooperatives, db`audit, db`nextId
    ensures db.Valid()
    ensures var v := ValidateCooperativeCreate(request, email);
            if v.Err? then
              r == Err(v.error) && Unchanged(db, old(db.cooperatives), old(db.audit))
            else if Filter(old(db.cooperatives), CooperativeHasOrgNumber(v.value.organisationNumber)) != [] then
              r == Err(DuplicateCooperative) && Unchanged(db, old(db.cooperatives), old(db.audit))
            else
              && db.cooperatives == old(db.cooperatives) + [NewCooperative(v.value, old(db.nextId), caller.id)]
              && Appended(old(db.audit), db.audit, [CooperativeCreatedLine(v.value, old(db.nextId), caller.id)])
              && r == CooperativeReply(NewCooperative(v.value, old(db.nextId), caller.id), email)
              && (EmailIdempotent(email) ==> r == Ok(NewCooperative(v.value, old(db.nextId), caller.id)))
  {
    var v := ValidateCooperativeCreate(request, email);
    if v.Err? {
      return Err(v.error);
    }
    var c := v.value;
    if Filter(db.cooperatives, CooperativeHasOrgNumber(c.organisationNumber)) != [] {
      return Err(DuplicateCooperative);
    }
    var id := db.FreshId();
    var row := NewCooperative(c, id, caller.id);
    db.cooperatives := db.cooperatives + [row];
    var line := CooperativeCreatedLine(c, id, caller.id);
    var _ := CreateAuditLog(db, line.entityId, line.actionType, line.userId, line.description, line.deedId, now, None);
    if EmailIdempotent(email) {
      CreatedRowReplies(request, id, caller.id, email);
    }
    r := CooperativeReply(row, email);
  }

  /** A row inserted from an accepted create body passes the response model,
      provided `EmailStr` accepts the addresses it normalised: the stored
      company is already normalised and every other field was checked. */
  lemma CreatedRowReplies(request: CooperativeCreate, id: int, userId: string, email: EmailCheck)
    requires id > 0 && EmailIdempotent(email)
    requires ValidateCooperativeCreate(request, email).Ok?
    ensures CooperativeResponseValid(NewCooperative(ValidateCooperativeCreate(request, email).value, id, userId), email)
  {
    var e := request.administratorEmail;
    assert email(email(e).value) == email(e);
    NormaliseIdempotent(request.administratorCompany);
    if request.administratorCompany.Some? && |Strip(request.administratorCompany.value)| >= 2 {
      StripShape(request.administratorCompany.value);
      var i, j :| 0 <= i <= j <= |request.administratorCompany.value|
                  && Strip(request.administratorCompany.value) == request.administratorCompany.value[i..j]
                  && AllWhitespace(request.administratorCompany.value[..i])
                  && AllWhitespace(request.administratorCompany.value[j..]);
    }
  }

  /** The pre-check keeps organisation numbers unique: appending a row whose
      number the table does not hold yet keeps them unique, and the new row
      is then found by its number. */
  lemma CreatedCooperativeFound(cooperatives: seq<Cooperative>, row: Cooperative)
    requires UniqueOrgNumbers(cooperatives)
    requires Filter(cooperatives, CooperativeHasOrgNumber(row.organisationNumber)) == []
    ensures UniqueOrgNumbers(cooperatives + [row])
    ensures GetCooperativeByOrgNumber(cooperatives + [row], row.organisationNumber) == Ok(row)
  {
    FilterMembers(cooperatives, CooperativeHasOrgNumber(row.organisationNumber));
    EveryCooperativeFound(cooperatives + [row], row);
  }

  // ---------------------------------------------------------------- list

  /** `ceil(total / page_size)` on exact integers. */
  function CeilDiv(total: nat, pageSize: int): (q: nat)
    requires pageSize > 0
    ensures total <= q * pageSize
    ensures q == 0 || (q - 1) * pageSize < total
  {
    (total + pageSize - 1) / pageSize
  }

  datatype PageHeaders = PageHeaders(totalCount: nat, totalPages: nat, currentPage: int, pageSize: int)

  /** The listed rows and the pagination headers, which are set only when
      the page holds rows. */
  datatype CooperativeList = CooperativeList(items: seq<Cooperative>, headers: Option<PageHeaders>)

  const ListFailedError := HttpError(InternalServerError, "Failed to list housing cooperatives")

  /** Some row of `rows` fails the response model. */
  predicate SomeRowRefused(rows: seq<Cooperative>, email: EmailCheck) {
    exists i :: 0 <= i < |rows| && !CooperativeResponseValid(rows[i], email)
  }

  /** list_housing_cooperatives: `page >= 1` and `1 <= page_size <= 100`;
      the rows ordered by id descending, from offset `(page - 1) * page_size`.
      The rows are turned into responses inside the handler's `try`, so a
      row the response model refuses makes the whole listing a 500. */
  function ListHousingCooperatives(cooperatives: seq<Cooperative>, page: int, pageSize: int, email: EmailCheck)
    : (r: Result<CooperativeList>)
    ensures r.Err? && r.error.status == UnprocessableEntity <==> page < 1 || pageSize < 1 || pageSize > 100
    ensures r.Err? ==> r.error.status == UnprocessableEntity || r.error == ListFailedError
    ensures page >= 1 && 1 <= pageSize <= 100 ==>
              (r == Err(ListFailedError) <==>
                 SomeRowRefused(PageOf(Reverse(cooperatives), (page - 1) * pageSize, pageSize), email))
    ensures r.Ok? ==> |r.value.items| <= pageSize
    ensures r.Ok? ==> forall i :: 0 <= i < |r.value.items| ==>
              (page - 1) * pageSize + i < |cooperatives|
              && r.value.items[i] == cooperatives[|cooperatives| - 1 - ((page - 1) * pageSize + i)]
              && CooperativeResponseValid(r.value.items[i], email)
    ensures r.Ok? ==> (r.value.items == [] <==> (page - 1) * pageSize >= |cooperatives|)
    ensures r.Ok? ==> (r.value.headers.None? <==> r.value.items == [])
    ensures r.Ok? && r.value.headers.Some? ==>
              r.value.headers.value == PageHeaders(|cooperatives|, CeilDiv(|cooperatives|, pageSize), page, pageSize)
  {
    if page < 1 || pageSize < 1 || pageSize > 100 then Invalid("Invalid pagination parameters")
    else
      var offset := (page - 1) * pageSize;
      MulMonotone(0, page - 1, pageSize);
      var items := PageOf(Reverse(cooperatives), offset, pageSize);
      if items == [] then Ok(CooperativeList([], None))
      else if SomeRowRefused(items, email) then Err(ListFailedError)
      else Ok(CooperativeList(items, Some(PageHeaders(|cooperatives|, CeilDiv(|cooperatives|, pageSize), page, pageSize))))
  }

  /** On a table kept in id order the listing shows the newest rows first. */
  lemma ListedNewestFirst(cooperatives: seq<Cooperative>, page: int, pageSize: int, email: EmailCheck)
    requires Ascending(cooperatives, CooperativeId)
    requires ListHousingCooperatives(cooperatives, page, pageSize, email).Ok?
    ensures var items := ListHousingCooperatives(cooperatives, page, pageSize, email).value.items;
            forall i, j :: 0 <= i < j < |items| ==> items[i].id > items[j].id
  {
  }

  /** A page holds rows exactly when its number is at most the page count of the headers. */
  lemma PageHasRows(total: nat, page: int, pageSize: int)
    requires page >= 1 && pageSize >= 1
    ensures (page - 1) * pageSize < total <==> page <= CeilDiv(total, pageSize)
  {
    var n := CeilDiv(total, pageSize);
    if (page - 1) * pageSize < total {
      if page > n {
        MulMonotone(n, page - 1, pageSize);
      }
    } else if page <= n {
      MulMonotone(page - 1, n - 1, pageSize);
    }
  }

  // ---------------------------------------------------------------- update

  /** The body sets no field (`model_dump(exclude_unset=True)` is empty). */
  predicate NothingSet(u: CooperativeUpdate) {
    && u.name.Unset? && u.address.Unset? && u.city.Unset? && u.postalCode.Unset?
    && u.administratorCompany.Unset? && u.administratorName.Unset?
    && u.administratorPersonNumber.Unset? && u.administratorEmail.Unset?
  }

  function Patched(p: Patch<Option<string>>, current: Option<string>): Option<string> {
    match p
    case Unset => current
    case Set(v) => v
  }

  /** A row after `update(update_data)`: every field the body set, null
      included, takes the body's value; the rest stay. */
  function PatchedCooperative(c: Cooperative, u: CooperativeUpdate): (r: Cooperative)
    ensures r.id == c.id && r.organisationNumber == c.organisationNumber && r.createdBy == c.createdBy
    ensures u.name.Set? ==> r.name == u.name.value
    ensures u.name.Unset? ==> r.name == c.name
    ensures u.address.Set? ==> r.address == u.address.value
    ensures u.address.Unset? ==> r.address == c.address
    ensures u.city.Set? ==> r.city == u.city.value
    ensures u.city.Unset? ==> r.city == c.city
    ensures u.postalCode.Set? ==> r.postalCode == u.postalCode.value
    ensures u.postalCode.Unset? ==> r.postalCode == c.postalCode
    ensures u.administratorCompany.Set? ==> r.administratorCompany == u.administratorCompany.value
    ensures u.administratorCompany.Unset? ==> r.administratorCompany == c.administratorCompany
    ensures u.administratorName.Set? ==> r.administratorName == u.administratorName.value
    ensures u.administratorName.Unset? ==> r.administratorName == c.administratorName
    ensures u.administratorPersonNumber.Set? ==> r.administratorPersonNumber == u.administratorPersonNumber.value
    ensures u.administratorPersonNumber.Unset? ==> r.administratorPersonNumber == c.administratorPersonNumber
    ensures u.administratorEmail.Set? ==> r.administratorEmail == u.administratorEmail.value
    ensures u.administratorEmail.Unset? ==> r.administratorEmail == c.administratorEmail
    ensures NothingSet(u) ==> r == c
  {
    c.(name := Patched(u.name, c.name), address := Patched(u.address, c.address),
       city := Patched(u.city, c.city), postalCode := Patched(u.postalCode, c.postalCode),
       administratorCompany := Patched(u.administratorCompany, c.administratorCompany),
       administratorName := Patched(u.administratorName, c.administratorName),
       administratorPersonNumber := Patched(u.administratorPersonNumber, c.administratorPersonNumber),
       administratorEmail := Patched(u.administratorEmail, c.administratorEmail))
  }

  /** `update(...).eq("organisation_number", org)` applied to one row. */
  function PatchOrg(org: string, u: CooperativeUpdate): Cooperative -> Cooperative {
    (c: Cooperative) => if c.organisationNumber == org then PatchedCooperative(c, u) else c
  }

  /** A Python f-string renders a missing name as `None`. */
  function NameText(name: Option<string>): string {
    match name
    case Some(n) => n
    case None => "None"
  }

  function CooperativeUpdatedLine(existing: Cooperative, org: string, userId: string): LogLine {
    LogLine(existing.id, None, "COOPERATIVE_UPDATED", userId,
            "Updated housing cooperative '" + NameText(existing.name) + "' (org.nr: " + org + ")")
  }

  /** Patching by organisation number keeps every row's id and number, so
      the table stays in id order and the patched row is the one found. */
  lemma PatchKeepsKeys(cooperatives: seq<Cooperative>, org: string, u: CooperativeUpdate)
    ensures forall i :: 0 <= i < |cooperatives| ==>
              Map(cooperatives, PatchOrg(org, u))[i].id == cooperatives[i].id
              && Map(cooperatives, PatchOrg(org, u))[i].organisationNumber == cooperatives[i].organisationNumber
    ensures Filter(Map(cooperatives, PatchOrg(org, u)), CooperativeHasOrgNumber(org))
            == Map(Filter(cooperatives, CooperativeHasOrgNumber(org)), PatchOrg(org, u))
  {
    FilterMap(cooperatives, CooperativeHasOrgNumber(org), PatchOrg(org, u));
  }

  /** update_housing_cooperative: validation, then the lookup's 404; a body
      that sets nothing replies with the row as it is and writes nothing;
      otherwise the set fields are written and the audit line names the
      cooperative by its name before the update. Either reply goes through
      the response model, so a row it refuses is a 500, after the writes
      when there were any. */
  method UpdateHousingCooperative(db: Database, org: string, request: CooperativeUpdate, caller: Caller, now: int,
                                  email: EmailCheck)
    returns (r: Result<Cooperative>)
    requires db.Valid()
    modifies db`cooperatives, db`audit, db`nextId
    ensures db.Valid()
    ensures var v := ValidateCooperativeUpdate(request, email);
            var found := GetCooperativeByOrgNumber(old(db.cooperatives), org);
            if v.Err? then
              r == Err(v.error) && Unchanged(db, old(db.cooperatives), old(db.audit))
            else if found.Err? then
              r == Err(found.error) && Unchanged(db, old(db.cooperatives), old(db.audit))
            else if NothingSet(v.value) then
              r == CooperativeReply(found.value, email) && Unchanged(db, old(db.cooperatives), old(db.audit))
            else
              r == CooperativeReply(PatchedCooperative(found.value, v.value), email)
              && db.cooperatives == Map(old(db.cooperatives), PatchOrg(org, v.value))
              && Appended(old(db.audit), db.audit, [CooperativeUpdatedLine(found.value, org, caller.id)])
  {
    var v := ValidateCooperativeUpdate(request, email);
    if v.Err? {
      return Err(v.error);
    }
    var found := GetCooperativeByOrgNumber(db.cooperatives, org);
    if found.Err? {
      return Err(found.error);
    }
    var existing := found.value;
    if NothingSet(v.value) {
      return CooperativeReply(existing, email);
    }
    PatchKeepsKeys(db.cooperatives, org, v.value);
    var updated := Filter(Map(db.cooperatives, PatchOrg(org, v.value)), CooperativeHasOrgNumber(org));
    assert updated == [PatchedCooperative(existing, v.value)];
    db.cooperatives := Map(db.cooperatives, PatchOrg(org, v.value));
    var line := CooperativeUpdatedLine(existing, org, caller.id);
    var _ := CreateAuditLog(db, line.entityId, line.actionType, line.userId, line.description, line.deedId, now, None);
    r := CooperativeReply(updated[0], email);
  }

  /** A set field is not an explicit null. */
  predicate NotNull(p: Patch<Option<string>>) {
    p.Set? ==> p.value.Some?
  }

  /** What the update body would have to promise for its reply to pass the
      response model: no required field set to null, and a postal code and
      an administrator person number in the formats the create body checks. */
  predicate PatchKeepsFormats(u: CooperativeUpdate) {
    && NotNull(u.name) && NotNull(u.address) && NotNull(u.city) && NotNull(u.postalCode)
    && NotNull(u.administratorName) && NotNull(u.administratorPersonNumber) && NotNull(u.administratorEmail)
    && (u.postalCode.Set? && u.postalCode.value.Some? ==> IsPostalCode(u.postalCode.value.value))
    && (u.administratorPersonNumber.Set? && u.administratorPersonNumber.value.Some? ==>
          IsAdministratorPersonNumber(u.administratorPersonNumber.value.value))
  }

  /** The update's reply passes the response model exactly when the body
      keeps the formats: an accepted body with a malformed postal code or
      person number, or a null in a required field, is written and then
      answered with a 500. */
  lemma PatchedRowReplies(c: Cooperative, u: CooperativeUpdate, email: EmailCheck)
    requires CooperativeResponseValid(c, email) && EmailIdempotent(email)
    requires ValidateCooperativeUpdate(u, email).Ok?
    ensures CooperativeResponseValid(PatchedCooperative(c, ValidateCooperativeUpdate(u, email).value), email)
            <==> PatchKeepsFormats(u)
  {
    var v := ValidateCooperativeUpdate(u, email).value;
    var p := PatchedCooperative(c, v);
    if u.administratorEmail.Set? && u.administratorEmail.value.Some? {
      var e := u.administratorEmail.value.value;
      assert email(email(e).value) == email(e);
    }
    if u.administratorCompany.Set? {
      NormalisedCompanyValid(u.administratorCompany.value);
    }
  }

  /** A company name the normaliser accepted, once normalised, passes the
      response model's length bound and normaliser again. */
  lemma NormalisedCompanyValid(w: Option<string>)
    requires w.Some? ==> |w.value| <= 100
    requires NormaliseAdministratorCompany(w).Ok?
    ensures var n := NormaliseAdministratorCompany(w).value;
            (n.Some? ==> |n.value| <= 100) && NormaliseAdministratorCompany(n).Ok?
  {
    NormaliseIdempotent(w);
    if w.Some? && |Strip(w.value)| >= 2 {
      StripShape(w.value);
      var i, j :| 0 <= i <= j <= |w.value| && Strip(w.value) == w.value[i..j]
                  && AllWhitespace(w.value[..i]) && AllWhitespace(w.value[j..]);
    }
  }

  /** After an update the cooperative is found by its number with the
      patched fields, and organisation numbers stay unique. */
  lemma UpdatedCooperativeFound(cooperatives: seq<Cooperative>, org: string, u: CooperativeUpdate)
    requires GetCooperativeByOrgNumber(cooperatives, org).Ok?
    ensures GetCooperativeByOrgNumber(Map(cooperatives, PatchOrg(org, u)), org)
            == Ok(PatchedCooperative(GetCooperativeByOrgNumber(cooperatives, org).value, u))
    ensures UniqueOrgNumbers(cooperatives) ==> UniqueOrgNumbers(Map(cooperatives, PatchOrg(org, u)))
  {
    PatchKeepsKeys(cooperatives, org, u);
  }

  // ---------------------------------------------------------------- delete

  const HasDeedsError := HttpError(Conflict, "Cannot delete housing cooperative with existing mortgage deeds")

  function CooperativeDeletedLine(existing: Cooperative, org: string, userId: string): LogLine {
    LogLine(existing.id, None, "COOPERATIVE_DELETED", userId,
            "Deleted housing cooperative '" + NameText(existing.name) + "' (org.nr: " + org + ")")
  }

  /** delete_housing_cooperative: the lookup's 404; a cooperative any deed
      refers to is a 409 and nothing changes; otherwise the audit line is
      written first and then the rows with the number are deleted. */
  method DeleteHousingCooperative(db: Database, org: string, caller: Caller, now: int) returns (r: Result<()>)
    requires db.Valid()
    modifies db`cooperatives, db`audit, db`nextId
    ensures db.Valid()
    ensures var found := GetCooperativeByOrgNumber(old(db.cooperatives), org);
            if found.Err? then
              r == Err(found.error) && Unchanged(db, old(db.cooperatives), old(db.audit))
            else if Filter(db.deeds, DeedOfCooperative(found.value.id)) != [] then
              r == Err(HasDeedsError) && Unchanged(db, old(db.cooperatives), old(db.audit))
            else
              r == Ok(())
              && db.cooperatives == Filter(old(db.cooperatives), CooperativeNotWithOrgNumber(org))
              && Appended(old(db.audit), db.audit, [CooperativeDeletedLine(found.value, org, caller.id)])
  {
    var found := GetCooperativeByOrgNumber(db.cooperatives, org);
    if found.Err? {
      return Err(found.error);
    }
    var existing := found.value;
    if Filter(db.deeds, DeedOfCooperative(existing.id)) != [] {
      return Err(HasDeedsError);
    }
    var line := CooperativeDeletedLine(existing, org, caller.id);
    var _ := CreateAuditLog(db, line.entityId, line.actionType, line.userId, line.description, line.deedId, now, None);
    FilterAscending(db.cooperatives, CooperativeNotWithOrgNumber(org), CooperativeId);
    FilterMembers(db.cooperatives, CooperativeNotWithOrgNumber(org));
    db.cooperatives := Filter(db.cooperatives, CooperativeNotWithOrgNumber(org));
    r := Ok(());
  }

  /** After a delete the number is no longer found, and every deed's
      cooperative is still there: the one row removed is referenced by no deed. */
  lemma DeletedCooperativeGone(cooperatives: seq<Cooperative>, deeds: seq<Deed>, org: string)
    requires GetCooperativeByOrgNumber(cooperatives, org).Ok?
    requires Filter(deeds, DeedOfCooperative(GetCooperativeByOrgNumber(cooperatives, org).value.id)) == []
    ensures GetCooperativeByOrgNumber(Filter(cooperatives, CooperativeNotWithOrgNumber(org)), org).Err?
    ensures forall d :: d in deeds ==>
              LookupCooperative(Filter(cooperatives, CooperativeNotWithOrgNumber(org)), d.cooperativeId)
              == LookupCooperative(cooperatives, d.cooperativeId)
  {
    var existing := GetCooperativeByOrgNumber(cooperatives, org).value;
    var kept := Filter(cooperatives, CooperativeNotWithOrgNumber(org));
    FilterMembers(cooperatives, CooperativeNotWithOrgNumber(org));
    FilterNone(kept, CooperativeHasOrgNumber(org));
    OnlyCooperativeWithOrgNumber(cooperatives, org, existing);
    forall d | d in deeds
      ensures LookupCooperative(kept, d.cooperativeId) == LookupCooperative(cooperatives, d.cooperativeId)
    {
      FilterMembers(deeds, DeedOfCooperative(existing.id));
      assert d.cooperativeId != existing.id;
      KeptCooperativeLookup(cooperatives, org, existing, d.cooperativeId);
    }
  }

  /** A number found by `GetCooperativeByOrgNumber` belongs to that row alone. */
  lemma OnlyCooperativeWithOrgNumber(cooperatives: seq<Cooperative>, org: string, existing: Cooperative)
    requires GetCooperativeByOrgNumber(cooperatives, org) == Ok(existing)
    ensures forall x :: x in cooperatives && x.organisationNumber == org ==> x == existing
  {
    var found := Filter(cooperatives, CooperativeHasOrgNumber(org));
    FilterMembers(cooperatives, CooperativeHasOrgNumber(org));
    assert existing in found;
    forall x | x in cooperatives && x.organisationNumber == org ensures x == existing {
      assert x in found;
    }
  }

  /** Removing the rows with a number leaves the lookup of any other row's id as it was. */
  lemma KeptCooperativeLookup(cooperatives: seq<Cooperative>, org: string, existing: Cooperative, id: int)
    requires forall x :: x in cooperatives && x.organisationNumber == org ==> x == existing
    requires id != existing.id
    ensures LookupCooperative(Filter(cooperatives, CooperativeNotWithOrgNumber(org)), id)
            == LookupCooperative(cooperatives, id)
  {
    assert forall x :: x in cooperatives && CooperativeHasId(id)(x) ==> CooperativeNotWithOrgNumber(org)(x);
    FilterFilter(cooperatives, CooperativeNotWithOrgNumber(org), CooperativeHasId(id));
  }
}
