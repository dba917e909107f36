/** The mortgage-deed endpoints other than update: the deed read with its
    relations, the access rule, the listing with its filters and pagination,
    creation and deletion. */
module MortgageDeeds {
  import opened Common
  import opened Text
  import opened Decimals
  import opened Seqs
  import opened SupabaseUtils
  import opened DeedSchemas
  import opened Store
  import opened Audit

  /** A deed with its relations, as the select with embedded borrowers,
      cooperative and signers returns it. */
  datatype DeedView = DeedView(deed: Deed, borrowers: seq<Borrower>, cooperative: Option<Cooperative>, signers: seq<Signer>)

  const DeedNotFoundMessage := "Mortgage deed not found"
  const NotAuthorizedError := HttpError(Forbidden, "Not authorized to access this deed")

  /** get_deed_with_relations: a `.single()` read of the deed, so a missing
      deed is the helper's 404 with the caller's message. */
  function DeedWithRelations(deeds: seq<Deed>, borrowers: seq<Borrower>, cooperatives: seq<Cooperative>,
                             signers: seq<Signer>, deedId: int, errorMsg: string): (r: Result<DeedView>)
    ensures r.Ok? <==> LookupDeed(deeds, deedId).Some?
    ensures r.Err? ==> r.error == HttpError(NotFound, errorMsg)
    ensures r.Ok? ==> r.value.deed in deeds && r.value.deed.id == deedId && r.value.deed == LookupDeed(deeds, deedId).value
    ensures r.Ok? ==> forall b :: b in r.value.borrowers <==> b in borrowers && b.deedId == deedId
    ensures r.Ok? ==> forall s :: s in r.value.signers <==> s in signers && s.deedId == deedId
    ensures r.Ok? ==> r.value.cooperative == LookupCooperative(cooperatives, r.value.deed.cooperativeId)
  {
    match LookupDeed(deeds, deedId)
    case None => HandleOperation<DeedView>(Failed(ApiError(NoRowsCode)), errorMsg)
    case Some(deed) =>
      FilterMembers(deeds, DeedHasId(deedId));
      FilterMembers(borrowers, BorrowerOfDeed(deedId));
      FilterMembers(signers, SignerOfDeed(deedId));
      var mine := Filter(borrowers, BorrowerOfDeed(deedId));
      var theirs := Filter(signers, SignerOfDeed(deedId));
      assert forall b :: b in mine ==> exists i :: 0 <= i < |mine| && mine[i] == b;
      assert forall b :: b in borrowers ==> exists i :: 0 <= i < |borrowers| && borrowers[i] == b;
      assert forall s :: s in theirs ==> exists i :: 0 <= i < |theirs| && theirs[i] == s;
      assert forall s :: s in signers ==> exists i :: 0 <= i < |signers| && signers[i] == s;
      Ok(DeedView(deed, mine, LookupCooperative(cooperatives, deed.cooperativeId), theirs))
  }

  /** `MortgageDeedResponse(**deed)`, or FastAPI's own check against that
      response model: a deed without a bank id, or one whose cooperative has
      lost a required field, is refused with an unhandled 500 after the
      handler has done all its work; otherwise the view is sent. */
  function DeedViewReply(v: DeedView): (r: Result<DeedView>)
    ensures r.Ok? <==> DeedRowReplies(v.deed, v.cooperative)
    ensures r.Ok? ==> r.value == v
    ensures r.Err? ==> r.error == UnhandledError
  {
    if DeedRowReplies(v.deed, v.cooperative) then Ok(v) else Err(UnhandledError)
  }

  // ----- verify_deed_access -----

  /** Some borrower of the deed has the caller's person number. */
  predicate IsBorrowerOf(view: DeedView, personNumber: Option<string>) {
    exists i :: 0 <= i < |view.borrowers| && Some(view.borrowers[i].personNumber) == personNumber
  }

  /** The caller's bank id is set and non-zero, and it is the deed's. */
  predicate IsBankUserOf(view: DeedView, caller: Caller) {
    caller.bankId.Some? && caller.bankId.value != 0 && view.deed.bankId == caller.bankId
  }

  /** verify_deed_access as written. The administrator test compares the
      cooperative's administrator person number with the caller's as two
      possibly missing values, so two missing values match. A deed without
      its cooperative makes the test itself fail. */
  function VerifyDeedAccessAsWritten(view: DeedView, caller: Caller): (r: Result<()>)
    ensures view.cooperative.None? ==> r == Err(UnhandledError)
    ensures r.Err? && view.cooperative.Some? ==> r.error == NotAuthorizedError
    ensures view.cooperative.Some? ==>
              (r.Ok? <==> IsBorrowerOf(view, caller.personNumber)
                          || view.cooperative.value.administratorPersonNumber == caller.personNumber
                          || IsBankUserOf(view, caller))
  {
    match view.cooperative
    case None => Err(UnhandledError)
    case Some(coop) =>
      if IsBorrowerOf(view, caller.personNumber)
         || coop.administratorPersonNumber == caller.personNumber
         || IsBankUserOf(view, caller)
      then Ok(())
      else Err(NotAuthorizedError)
  }

  /** The caller is the administrator of the deed's cooperative: both person
      numbers are present and equal. */
  predicate IsAdministratorOf(coop: Cooperative, caller: Caller) {
    caller.personNumber.Some? && coop.administratorPersonNumber == caller.personNumber
  }

  /** verify_deed_access as it is evidently meant: a borrower, the
      cooperative's administrator or a user of the deed's bank. */
  function VerifyDeedAccess(view: DeedView, caller: Caller): (r: Result<()>)
    ensures view.cooperative.None? ==> r == Err(UnhandledError)
    ensures r.Err? && view.cooperative.Some? ==> r.error == NotAuthorizedError
    ensures view.cooperative.Some? ==>
              (r.Ok? <==> IsBorrowerOf(view, caller.personNumber)
                          || IsAdministratorOf(view.cooperative.value, caller)
                          || IsBankUserOf(view, caller))
    ensures r.Ok? ==> caller.personNumber.Some? || IsBankUserOf(view, caller)
  {
    match view.cooperative
    case None => Err(UnhandledError)
    case Some(coop) =>
      if IsBorrowerOf(view, caller.personNumber) || IsAdministratorOf(coop, caller) || IsBankUserOf(view, caller)
      then Ok(())
      else Err(NotAuthorizedError)
  }

  /** The two rules differ only for a caller without a person number on a
      deed whose cooperative has no administrator person number. */
  lemma AccessRulesAgreeElsewhere(view: DeedView, caller: Caller)
    ensures VerifyDeedAccess(view, caller).Ok? ==> VerifyDeedAccessAsWritten(view, caller).Ok?
    ensures VerifyDeedAccessAsWritten(view, caller).Ok? && VerifyDeedAccess(view, caller).Err? ==>
              caller.personNumber.None? && view.cooperative.Some?
              && view.cooperative.value.administratorPersonNumber.None?
  {
  }

  /** As written, a caller with neither a person number nor a bank id may
      read any deed whose cooperative has no administrator person number,
      although it is none of its borrowers; the intended rule refuses it. */
  lemma AccessWithoutPersonNumberAsWritten(deed: Deed, borrowers: seq<Borrower>, coop: Cooperative, signers: seq<Signer>)
    requires coop.administratorPersonNumber.None?
    ensures var view := DeedView(deed, borrowers, Some(coop), signers);
            var caller := Caller("", "", None, None);
            && !IsBorrowerOf(view, caller.personNumber) && !IsBankUserOf(view, caller)
            && VerifyDeedAccessAsWritten(view, caller).Ok?
            && VerifyDeedAccess(view, caller) == Err(NotAuthorizedError)
  {
  }

  /** Update and delete are described as open to the cooperative's
      administrator only, but they check `VerifyDeedAccess`, which also
      admits a borrower of the deed who is not the administrator, and a user
      of the deed's bank. */
  lemma AccessNotAdministratorOnly(deed: Deed, b: Borrower, coop: Cooperative, signers: seq<Signer>)
    requires coop.administratorPersonNumber != Some(b.personNumber)
    requires deed.bankId.Some? && deed.bankId.value != 0
    ensures var view := DeedView(deed, [b], Some(coop), signers);
            var borrower := Caller("", "", Some(b.personNumber), None);
            var banker := Caller("", "", None, deed.bankId);
            && !IsAdministratorOf(coop, borrower) && VerifyDeedAccess(view, borrower).Ok?
            && !IsAdministratorOf(coop, banker) && VerifyDeedAccess(view, banker).Ok?
  {
    var view := DeedView(deed, [b], Some(coop), signers);
    assert Some(view.borrowers[0].personNumber) == Some(b.personNumber);
  }

  /** get_mortgage_deed: the deed with its relations, for a caller allowed to
      see it, provided the row passes the response model. */
  function GetMortgageDeed(deeds: seq<Deed>, borrowers: seq<Borrower>, cooperatives: seq<Cooperative>,
                           signers: seq<Signer>, deedId: int, caller: Caller): (r: Result<DeedView>)
    ensures LookupDeed(deeds, deedId).None? ==> r == Err(HttpError(NotFound, DeedNotFoundMessage))
    ensures var v := DeedWithRelations(deeds, borrowers, cooperatives, signers, deedId, DeedNotFoundMessage);
            r.Ok? <==> v.Ok? && VerifyDeedAccess(v.value, caller).Ok? && DeedRowReplies(v.value.deed, v.value.cooperative)
    ensures var v := DeedWithRelations(deeds, borrowers, cooperatives, signers, deedId, DeedNotFoundMessage);
            v.Ok? && VerifyDeedAccess(v.value, caller).Ok? && !DeedRowReplies(v.value.deed, v.value.cooperative)
            ==> r == Err(UnhandledError)
    ensures r.Ok? ==> r.value.deed == LookupDeed(deeds, deedId).value
    ensures r.Ok? ==> VerifyDeedAccess(r.value, caller).Ok?
  {
    match DeedWithRelations(deeds, borrowers, cooperatives, signers, deedId, DeedNotFoundMessage)
    case Err(e) => Err(e)
    case Ok(view) =>
      match VerifyDeedAccess(view, caller)
      case Err(e) => Err(e)
      case Ok(_) => DeedViewReply(view)
  }

  // ----- list_mortgage_deeds -----

  /** The query parameters of the listing. The `bank_id` parameter is
      accepted but never read, and `sort_order` is checked but not used. */
  datatype ListQuery = ListQuery(
    status: Option<string>,
    cooperativeId: Option<int>,
    createdAfter: Option<int>,
    createdBefore: Option<int>,
    borrowerPersonNumber: Option<string>,
    cooperativeName: Option<string>,
    apartmentNumber: Option<string>,
    creditNumbers: Option<string>,
    sortBy: Option<string>,
    sortOrder: string,
    page: int,
    pageSize: int)

  /** The listing's reply: the page with its total count and page count (the
      pagination headers), or an empty list sent before any header is set. */
  datatype ListReply = Paged(items: seq<DeedView>, totalCount: nat, totalPages: int) | Unpaged

  const SortFields := {"created_at", "status", "apartment_number"}
  const ListFailedMessage := "Failed to fetch mortgage deeds"

  /** A caller without a bank id sends `eq('bank_id', None)`, which the
      database refuses for its integer column; the helper turns that into a
      500 with the count's message. */
  const CountFailedError := HttpError(InternalServerError, "Failed to count mortgage deeds")

  /** Python truthiness of an optional string and an optional integer. */
  predicate Given(o: Option<string>) { o.Some? && o.value != "" }
  predicate GivenInt(o: Option<int>) { o.Some? && o.value != 0 }

  /** The query parameters' own checks, answered with 422 before the handler runs. */
  function ValidateListQuery(q: ListQuery): (r: Result<ListQuery>)
    ensures r.Ok? <==> q.page >= 1 && q.pageSize <= 100 && q.sortOrder in {"asc", "desc"}
                       && (q.borrowerPersonNumber.Some? ==> IsPersonNumber(q.borrowerPersonNumber.value))
    ensures r.Ok? ==> r.value == q
    ensures r.Err? ==> r.error.status == UnprocessableEntity
  {
    if q.page < 1 then Invalid("page must be at least 1")
    else if q.pageSize > 100 then Invalid("page_size must be at most 100")
    else if q.sortOrder !in {"asc", "desc"} then Invalid("sort_order must be asc or desc")
    else if q.borrowerPersonNumber.Some? && !IsPersonNumber(q.borrowerPersonNumber.value) then
      Invalid("borrower_person_number must be 12 digits")
    else Ok(q)
  }

  /** `[cn.strip() for cn in credit_numbers.split(',')]`. */
  function CreditNumberList(s: string): (r: seq<string>)
    ensures |r| >= 1
    ensures forall i :: 0 <= i < |r| ==> IsStripped(r[i]) && ',' !in r[i]
  {
    var parts := Split(s, ',');
    var r := Map(parts, Strip);
    forall i | 0 <= i < |r| ensures IsStripped(r[i]) && ',' !in r[i] {
      StripShape(parts[i]);
      var a, b :| 0 <= a <= b <= |parts[i]| && Strip(parts[i]) == parts[i][a..b]
                  && AllWhitespace(parts[i][..a]) && AllWhitespace(parts[i][b..]);
      assert forall c :: c in parts[i][a..b] ==> c in parts[i];
    }
    r
  }

  /** The filters the listing and its count apply to every deed: the
      caller's bank (the listing stops before filtering without one) and each given
      parameter. The cooperative-name filter applies to the embedded
      cooperative, not to the deeds, so it is absent here. */
  predicate DeedMatches(q: ListQuery, bankId: Option<int>, d: Deed) {
    && bankId.Some? && d.bankId == bankId
    && (Given(q.status) ==> StatusName(d.status) == q.status.value)
    && (GivenInt(q.cooperativeId) ==> d.cooperativeId == q.cooperativeId.value)
    && (q.createdAfter.Some? ==> d.createdAt >= q.createdAfter.value)
    && (q.createdBefore.Some? ==> d.createdAt <= q.createdBefore.value)
    && (Given(q.apartmentNumber) ==> d.apartmentNumber == q.apartmentNumber.value)
    && (Given(q.creditNumbers) ==> d.creditNumber in CreditNumberList(q.creditNumbers.value))
  }

  function Matching(q: ListQuery, bankId: Option<int>): Deed -> bool {
    (d: Deed) => DeedMatches(q, bankId, d)
  }

  function DeedIn(ids: seq<int>): Deed -> bool {
    (d: Deed) => d.id in ids
  }

  function BorrowerDeedId(b: Borrower): int { b.deedId }

  function BorrowerHasPersonNumber(pn: string): Borrower -> bool {
    (b: Borrower) => b.personNumber == pn
  }

  /** Python's `//`: the quotient rounded towards minus infinity. */
  function FloorDiv(a: int, b: int): (q: int)
    requires b != 0
    ensures b > 0 ==> q * b <= a < q * b + b
    ensures b < 0 ==> q * b >= a > q * b + b
  {
    if b > 0 then a / b else (-a) / (-b)
  }

  /** `(total + page_size - 1) // page_size`. */
  function TotalPages(total: nat, pageSize: int): int
    requires pageSize != 0
  {
    FloorDiv(total + pageSize - 1, pageSize)
  }

  function ViewOf(borrowers: seq<Borrower>, cooperatives: seq<Cooperative>, signers: seq<Signer>, d: Deed): DeedView {
    DeedView(d, Filter(borrowers, BorrowerOfDeed(d.id)), LookupCooperative(cooperatives, d.cooperativeId),
             Filter(signers, SignerOfDeed(d.id)))
  }

  /** The deeds on the requested page, in table order (the database's own
      ordering is outside the model). */
  function ListedDeeds(deeds: seq<Deed>, borrowers: seq<Borrower>, q: ListQuery, bankId: Option<int>): seq<Deed>
    requires q.pageSize != 0
  {
    var rows := Filter(deeds, Matching(q, bankId));
    var rows' := if Given(q.borrowerPersonNumber)
                 then Filter(rows, DeedIn(Map(Filter(borrowers, BorrowerHasPersonNumber(q.borrowerPersonNumber.value)), BorrowerDeedId)))
                 else rows;
    PageOf(rows', (q.page - 1) * q.pageSize, q.pageSize)
  }

  /** The detail joins the allowed names in the order Python iterates the
      set, which string hashing varies from process to process; the model
      fixes one order. */
  const InvalidSortField := HttpError(BadRequest, "Invalid sort field. Must be one of: created_at, status, apartment_number")

  /** The page the listing answers once the filters are known to select
      something: the counted deeds ignore the borrower filter. */
  function ListPage(deeds: seq<Deed>, borrowers: seq<Borrower>, cooperatives: seq<Cooperative>,
                    signers: seq<Signer>, q: ListQuery, bankId: Option<int>): (r: ListReply)
    requires q.pageSize != 0
    ensures r.Paged?
    ensures q.pageSize > 0 ==> |r.items| <= q.pageSize
    ensures q.pageSize < 0 ==> r.items == []
    ensures forall v :: v in r.items ==> v.deed in deeds && DeedMatches(q, bankId, v.deed)
    ensures r.totalCount == |Filter(deeds, Matching(q, bankId))|
    ensures r.totalPages == TotalPages(r.totalCount, q.pageSize)
  {
    var all := Filter(deeds, Matching(q, bankId));
    var page := ListedDeeds(deeds, borrowers, q, bankId);
    ListedDeedsMatch(deeds, borrowers, q, bankId);
    var items := Map(page, (d: Deed) => ViewOf(borrowers, cooperatives, signers, d));
    assert forall v :: v in items ==> exists i :: 0 <= i < |page| && v.deed == page[i];
    Paged(items, |all|, TotalPages(|all|, q.pageSize))
  }

  /** list_mortgage_deeds. */
  function ListMortgageDeeds(deeds: seq<Deed>, borrowers: seq<Borrower>, cooperatives: seq<Cooperative>,
                             signers: seq<Signer>, q: ListQuery, caller: Caller): (r: Result<ListReply>)
    ensures ValidateListQuery(q).Err? ==> r == Err(ValidateListQuery(q).error)
    ensures ValidateListQuery(q).Ok? ==> (r == Err(InvalidSortField) <==> Given(q.sortBy) && q.sortBy.value !in SortFields)
    ensures r.Ok? && r.value.Unpaged? ==>
              Given(q.borrowerPersonNumber)
              && forall b :: b in borrowers ==> b.personNumber != q.borrowerPersonNumber.value
    ensures r.Ok? && r.value.Paged? ==>
              caller.bankId.Some? && q.pageSize != 0
              && r.value == ListPage(deeds, borrowers, cooperatives, signers, q, caller.bankId)
              && PageReplies(r.value.items)
    ensures caller.bankId.Some? && q.pageSize != 0 && r == Err(HttpError(InternalServerError, ListFailedMessage)) ==>
              !PageReplies(ListPage(deeds, borrowers, cooperatives, signers, q, caller.bankId).items)
    ensures ValidateListQuery(q).Ok? && !(Given(q.sortBy) && q.sortBy.value !in SortFields) && caller.bankId.None? ==>
              r == Ok(Unpaged) || r == Err(CountFailedError)
  {
    match ValidateListQuery(q)
    case Err(e) => Err(e)
    case Ok(_) =>
      if Given(q.sortBy) && q.sortBy.value !in SortFields then Err(InvalidSortField)
      else if Given(q.borrowerPersonNumber)
              && Filter(borrowers, BorrowerHasPersonNumber(q.borrowerPersonNumber.value)) == [] then
        FilterMembers(borrowers, BorrowerHasPersonNumber(q.borrowerPersonNumber.value));
        assert forall b :: b in borrowers ==> exists i :: 0 <= i < |borrowers| && borrowers[i] == b;
        Ok(Unpaged)
      else if caller.bankId.None? then Err(CountFailedError)
      else if q.pageSize == 0 then Err(HttpError(InternalServerError, ListFailedMessage))
      else
        var page := ListPage(deeds, borrowers, cooperatives, signers, q, caller.bankId);
        if PageReplies(page.items) then Ok(page) else Err(HttpError(InternalServerError, ListFailedMessage))
  }

  /** Every deed on a page passes MortgageDeedResponse; the listing builds the
      replies inside its `try`, so one refused row turns the whole answer into
      its own 500. */
  predicate PageReplies(items: seq<DeedView>) {
    forall v :: v in items ==> DeedRowReplies(v.deed, v.cooperative)
  }

  /** Every deed on a page is one of the caller's bank's deeds that passes every filter. */
  lemma ListedDeedsMatch(deeds: seq<Deed>, borrowers: seq<Borrower>, q: ListQuery, bankId: Option<int>)
    requires q.pageSize != 0
    ensures forall d :: d in ListedDeeds(deeds, borrowers, q, bankId) ==>
              d in deeds && DeedMatches(q, bankId, d) && bankId.Some? && d.bankId == bankId
  {
    var rows := Filter(deeds, Matching(q, bankId));
    FilterMembers(deeds, Matching(q, bankId));
    if Given(q.borrowerPersonNumber) {
      var ids := Map(Filter(borrowers, BorrowerHasPersonNumber(q.borrowerPersonNumber.value)), BorrowerDeedId);
      FilterMembers(rows, DeedIn(ids));
      var rows' := Filter(rows, DeedIn(ids));
      assert forall d :: d in rows' ==> d in rows by {
        forall d | d in rows' ensures d in rows {
          var i :| 0 <= i < |rows'| && rows'[i] == d;
        }
      }
    }
    assert forall d :: d in rows ==> exists i :: 0 <= i < |rows| && rows[i] == d;
  }

  /** With a positive page size, page `p` has rows exactly when `p` is
      within the page count the headers report. */
  lemma {:induction false} PageWithinCount(total: nat, pageSize: int, page: int)
    requires pageSize > 0 && page >= 1
    ensures (page - 1) * pageSize < total <==> page <= TotalPages(total, pageSize)
  {
    var n := TotalPages(total, pageSize);
    assert n * pageSize <= total + pageSize - 1 < n * pageSize + pageSize;
    if (page - 1) * pageSize < total {
      if page > n {
        assert page - 1 >= n;
        MulMonotone(n, page - 1, pageSize);
      }
    } else {
      if page <= n {
        MulMonotone(page, n, pageSize);
      }
    }
  }

  // ----- create_mortgage_deed -----

  /** The deed row the insert stores: the database's id, creation time and
      initial status, the caller as creator, the caller's bank and email. */
  function NewDeed(request: MortgageDeedCreate, caller: Caller, id: int, now: int): Deed {
    Deed(id, now, request.creditNumber, request.cooperativeId, request.apartmentAddress,
         request.apartmentPostalCode, request.apartmentCity, request.apartmentNumber,
         Created, caller.bankId, caller.id, caller.email)
  }

  /** The borrower rows inserted for a deed, unsigned, the k-th with id `first + step * k`. */
  function BorrowerRows(bs: seq<BorrowerCreate>, deedId: int, first: int, step: int): (r: seq<Borrower>)
    ensures |r| == |bs|
    ensures forall k :: 0 <= k < |bs| ==>
              r[k] == Borrower(first + step * k, deedId, bs[k].name, bs[k].personNumber, bs[k].email,
                               bs[k].ownershipPercentage, None)
  {
    seq(|bs|, k requires 0 <= k < |bs| =>
      Borrower(first + step * k, deedId, bs[k].name, bs[k].personNumber, bs[k].email, bs[k].ownershipPercentage, None))
  }

  /** The signer rows inserted for a deed, unsigned, the k-th with id `first + step * k`. */
  function SignerRows(ss: seq<SignerCreate>, deedId: int, first: int, step: int): (r: seq<Signer>)
    ensures |r| == |ss|
    ensures forall k :: 0 <= k < |ss| ==>
              r[k] == Signer(first + step * k, deedId, ss[k].administratorName, ss[k].administratorPersonNumber,
                             ss[k].administratorEmail, None)
  {
    seq(|ss|, k requires 0 <= k < |ss| =>
      Signer(first + step * k, deedId, ss[k].administratorName, ss[k].administratorPersonNumber,
             ss[k].administratorEmail, None))
  }

  function DeedCreatedLine(d: Deed, userId: string): LogLine {
    LogLine(d.id, Some(d.id), "DEED_CREATED", userId,
            "Created mortgage deed for apartment " + d.apartmentNumber + " at " + d.apartmentAddress
            + " (credit number: " + d.creditNumber + ")")
  }

  /** The line recorded for an inserted borrower row, its percentage printed
      as the float it was stored as. */
  function BorrowerAddedLine(userId: string): Borrower -> LogLine {
    (b: Borrower) =>
      LogLine(b.id, Some(b.deedId), "BORROWER_ADDED", userId,
              "Added borrower " + b.name + " (person number: " + b.personNumber + ") with "
              + FloatText(b.ownershipPercentage) + "% ownership")
  }

  /** The line recorded for a signer inserted with a new deed: its entity is the deed. */
  function InitialSignerLine(userId: string): Signer -> LogLine {
    (s: Signer) =>
      LogLine(s.deedId, Some(s.deedId), "COOPERATIVE_SIGNER_ADDED", userId,
              "Added cooperative signer " + s.administratorName + " (person number: "
              + s.administratorPersonNumber + ")")
  }

  /** The signers a create request inserts: none when the list is missing or empty. */
  function RequestedSigners(request: MortgageDeedCreate): seq<SignerCreate> {
    if request.signers.Some? then request.signers.value else []
  }

  /** Each borrower insert and each signer insert is followed by its audit
      line, so the k-th borrower of deed `id` gets id `id + 2 + 2k` and the
      signers follow the borrowers. */
  function CreatedBorrowers(request: MortgageDeedCreate, id: int): seq<Borrower> {
    BorrowerRows(request.borrowers, id, id + 2, 2)
  }

  function CreatedSigners(request: MortgageDeedCreate, id: int): seq<Signer> {
    SignerRows(RequestedSigners(request), id, id + 2 + 2 * |request.borrowers|, 2)
  }

  function CreationLog(request: MortgageDeedCreate, caller: Caller, id: int, now: int): seq<LogLine> {
    [DeedCreatedLine(NewDeed(request, caller, id, now), caller.id)]
    + Map(CreatedBorrowers(request, id), BorrowerAddedLine(caller.id))
    + Map(CreatedSigners(request, id), InitialSignerLine(caller.id))
  }

  function CooperativeCheckMessage(id: int): string {
    "Failed to check housing cooperative " + IntToString(id)
  }

  const CreatedDeedMessage := "Failed to fetch created deed"

  /** A deed appended with an id above every id in the table is found by that id. */
  lemma LookupNewDeed(deeds: seq<Deed>, d: Deed)
    requires forall i :: 0 <= i < |deeds| ==> deeds[i].id < d.id
    ensures LookupDeed(deeds + [d], d.id) == Some(d)
  {
    FilterAppend(deeds, [d], DeedHasId(d.id));
    FilterNone(deeds, DeedHasId(d.id));
    assert Filter([d], DeedHasId(d.id)) == [d] + Filter([d][1..], DeedHasId(d.id));
  }

  /** create_mortgage_deed: the cooperative must exist; the deed, then each
      borrower and each signer is inserted with its audit line, and the deed
      is read back with its relations. */
  method CreateMortgageDeed(db: Database, request: MortgageDeedCreate, caller: Caller, now: int)
    returns (r: Result<DeedView>)
    requires db.Valid()
    modifies db`deeds, db`borrowers, db`signers, db`audit, db`nextId
    ensures db.Valid()
    ensures ValidateDeedCreate(request).Err? ==>
              r == Err(ValidateDeedCreate(request).error)
              && db.deeds == old(db.deeds) && db.borrowers == old(db.borrowers)
              && db.signers == old(db.signers) && db.audit == old(db.audit)
    ensures ValidateDeedCreate(request).Ok? && LookupCooperative(db.cooperatives, request.cooperativeId).None? ==>
              r == Err(HttpError(NotFound, CooperativeCheckMessage(request.cooperativeId)))
              && db.deeds == old(db.deeds) && db.borrowers == old(db.borrowers)
              && db.signers == old(db.signers) && db.audit == old(db.audit)
    ensures ValidateDeedCreate(request).Ok? && LookupCooperative(db.cooperatives, request.cooperativeId).Some? ==>
              CreateDone(request, caller, old(db.nextId), now, old(db.deeds), old(db.borrowers), old(db.signers),
                         old(db.audit), db.deeds, db.borrowers, db.signers, db.audit)
              && DeedWithRelations(db.deeds, db.borrowers, db.cooperatives, db.signers, old(db.nextId), CreatedDeedMessage).Ok?
              && r == DeedViewReply(DeedWithRelations(db.deeds, db.borrowers, db.cooperatives, db.signers, old(db.nextId),
                                                      CreatedDeedMessage).value)
              && (r.Ok? <==> caller.bankId.Some?
                             && CooperativeEmbeddable(LookupCooperative(db.cooperatives, request.cooperativeId).value))
              && (caller.bankId.None? ==> r == Err(UnhandledError))
  {
    var valid := ValidateDeedCreate(request);
    if valid.Err? {
      return Err(valid.error);
    }
    if LookupCooperative(db.cooperatives, request.cooperativeId).None? {
      return HandleOperation<DeedView>(Failed(ApiError(NoRowsCode)), CooperativeCheckMessage(request.cooperativeId));
    }
    var id := CreateRecords(db, request, caller, now);
    var created := DeedWithRelations(db.deeds, db.borrowers, db.cooperatives, db.signers, id, CreatedDeedMessage);
    r := DeedViewReply(created.value);
  }

  /** The inserts of a create request that passed its checks, in order:
      the deed, its borrowers, its signers, each followed by its audit line. */
  method CreateRecords(db: Database, request: MortgageDeedCreate, caller: Caller, now: int) returns (id: int)
    requires db.Valid()
    modifies db`deeds, db`borrowers, db`signers, db`audit, db`nextId
    ensures db.Valid()
    ensures id == old(db.nextId)
    ensures LookupDeed(db.deeds, id) == Some(NewDeed(request, caller, id, now))
    ensures CreateDone(request, caller, id, now, old(db.deeds), old(db.borrowers), old(db.signers),
                       old(db.audit), db.deeds, db.borrowers, db.signers, db.audit)
  {
    ghost var audit0 := db.audit;
    id := InsertDeedAndBorrowers(db, request, caller, now);
    ghost var audit1 := db.audit;
    InsertSigners(db, id, RequestedSigners(request), caller.id, now);
    AppendedTrans(audit0, audit1, db.audit,
                  [DeedCreatedLine(NewDeed(request, caller, id, now), caller.id)]
                  + Map(CreatedBorrowers(request, id), BorrowerAddedLine(caller.id)),
                  Map(CreatedSigners(request, id), InitialSignerLine(caller.id)));
  }

  /** The deed insert and the borrower loop of create. */
  method InsertDeedAndBorrowers(db: Database, request: MortgageDeedCreate, caller: Caller, now: int) returns (id: int)
    requires db.Valid()
    modifies db`deeds, db`borrowers, db`audit, db`nextId
    ensures db.Valid()
    ensures id == old(db.nextId) && db.nextId == id + 2 + 2 * |request.borrowers|
    ensures db.deeds == old(db.deeds) + [NewDeed(request, caller, id, now)]
    ensures LookupDeed(db.deeds, id) == Some(NewDeed(request, caller, id, now))
    ensures db.borrowers == old(db.borrowers) + CreatedBorrowers(request, id)
    ensures Appended(old(db.audit), db.audit,
                     [DeedCreatedLine(NewDeed(request, caller, id, now), caller.id)]
                     + Map(CreatedBorrowers(request, id), BorrowerAddedLine(caller.id)))
  {
    ghost var audit0 := db.audit;
    id := InsertDeed(db, request, caller, now);
    ghost var audit1 := db.audit;
    InsertBorrowers(db, id, request.borrowers, caller.id, now);
    AppendedTrans(audit0, audit1, db.audit, [DeedCreatedLine(NewDeed(request, caller, id, now), caller.id)],
                  Map(CreatedBorrowers(request, id), BorrowerAddedLine(caller.id)));
  }

  /** The tables after a create request for deed `id` that passed its checks. */
  ghost predicate CreateDone(request: MortgageDeedCreate, caller: Caller, id: int, now: int,
                             deeds: seq<Deed>, borrowers: seq<Borrower>, signers: seq<Signer>, audit: seq<AuditEntry>,
                             deeds': seq<Deed>, borrowers': seq<Borrower>, signers': seq<Signer>, audit': seq<AuditEntry>)
  {
    && deeds' == deeds + [NewDeed(request, caller, id, now)]
    && borrowers' == borrowers + CreatedBorrowers(request, id)
    && signers' == signers + CreatedSigners(request, id)
    && Appended(audit, audit', CreationLog(request, caller, id, now))
  }

  /** The deed insert and its audit line. */
  method InsertDeed(db: Database, request: MortgageDeedCreate, caller: Caller, now: int) returns (id: int)
    requires db.Valid()
    modifies db`deeds, db`audit, db`nextId
    ensures db.Valid()
    ensures id == old(db.nextId) && db.nextId == id + 2
    ensures db.deeds == old(db.deeds) + [NewDeed(request, caller, id, now)]
    ensures LookupDeed(db.deeds, id) == Some(NewDeed(request, caller, id, now))
    ensures Appended(old(db.audit), db.audit, [DeedCreatedLine(NewDeed(request, caller, id, now), caller.id)])
  {
    id := db.FreshId();
    var deed := NewDeed(request, caller, id, now);
    LookupNewDeed(db.deeds, deed);
    db.deeds := db.deeds + [deed];
    var line := DeedCreatedLine(deed, caller.id);
    var _ := CreateAuditLog(db, line.entityId, line.actionType, line.userId, line.description, line.deedId, now, None);
  }

  /** The borrower loop of create: each borrower is inserted, then its audit line written. */
  method InsertBorrowers(db: Database, deedId: int, bs: seq<BorrowerCreate>, userId: string, now: int)
    requires db.Valid() && db.nextId == deedId + 2
    modifies db`borrowers, db`audit, db`nextId
    ensures db.Valid()
    ensures db.nextId == old(db.nextId) + 2 * |bs|
    ensures db.borrowers == old(db.borrowers) + BorrowerRows(bs, deedId, deedId + 2, 2)
    ensures Appended(old(db.audit), db.audit, Map(BorrowerRows(bs, deedId, deedId + 2, 2), BorrowerAddedLine(userId)))
  {
    var i := 0;
    while i < |bs|
      invariant 0 <= i <= |bs|
      invariant db.Valid()
      invariant db.nextId == old(db.nextId) + 2 * i
      invariant db.borrowers == old(db.borrowers) + BorrowerRows(bs[..i], deedId, deedId + 2, 2)
      invariant Appended(old(db.audit), db.audit, Map(BorrowerRows(bs[..i], deedId, deedId + 2, 2), BorrowerAddedLine(userId)))
    {
      var bid := db.FreshId();
      var row := Borrower(bid, deedId, bs[i].name, bs[i].personNumber, bs[i].email, bs[i].ownershipPercentage, None);
      assert BorrowerRows(bs[..i + 1], deedId, deedId + 2, 2) == BorrowerRows(bs[..i], deedId, deedId + 2, 2) + [row];
      MapSnoc(BorrowerRows(bs[..i], deedId, deedId + 2, 2), row, BorrowerAddedLine(userId));
      db.borrowers := db.borrowers + [row];
      ghost var audit1 := db.audit;
      var line := BorrowerAddedLine(userId)(row);
      var _ := CreateAuditLog(db, line.entityId, line.actionType, line.userId, line.description, line.deedId, now, None);
      AppendedTrans(old(db.audit), audit1, db.audit, Map(BorrowerRows(bs[..i], deedId, deedId + 2, 2), BorrowerAddedLine(userId)), [line]);
      i := i + 1;
    }
    assert bs[..|bs|] == bs;
  }

  /** The signer loop of create: each signer is inserted, then its audit line written. */
  method InsertSigners(db: Database, deedId: int, ss: seq<SignerCreate>, userId: string, now: int)
    requires db.Valid()
    modifies db`signers, db`audit, db`nextId
    ensures db.Valid()
    ensures db.nextId == old(db.nextId) + 2 * |ss|
    ensures db.signers == old(db.signers) + SignerRows(ss, deedId, old(db.nextId), 2)
    ensures Appended(old(db.audit), db.audit, Map(SignerRows(ss, deedId, old(db.nextId), 2), InitialSignerLine(userId)))
  {
    ghost var first := db.nextId;
    var i := 0;
    while i < |ss|
      invariant 0 <= i <= |ss|
      invariant db.Valid()
      invariant db.nextId == first + 2 * i
      invariant db.signers == old(db.signers) + SignerRows(ss[..i], deedId, first, 2)
      invariant Appended(old(db.audit), db.audit, Map(SignerRows(ss[..i], deedId, first, 2), InitialSignerLine(userId)))
    {
      var sid := db.FreshId();
      var row := Signer(sid, deedId, ss[i].administratorName, ss[i].administratorPersonNumber, ss[i].administratorEmail, None);
      assert SignerRows(ss[..i + 1], deedId, first, 2) == SignerRows(ss[..i], deedId, first, 2) + [row];
      MapSnoc(SignerRows(ss[..i], deedId, first, 2), row, InitialSignerLine(userId));
      db.signers := db.signers + [row];
      ghost var audit1 := db.audit;
      var line := InitialSignerLine(userId)(row);
      var _ := CreateAuditLog(db, line.entityId, line.actionType, line.userId, line.description, line.deedId, now, None);
      AppendedTrans(old(db.audit), audit1, db.audit, Map(SignerRows(ss[..i], deedId, first, 2), InitialSignerLine(userId)), [line]);
      i := i + 1;
    }
    assert ss[..|ss|] == ss;
  }

  /** When no earlier row refers to the new deed, the deed read back after a
      create is the new row with exactly the borrowers and signers of the
      request, in request order, and the requested cooperative. */
  lemma CreatedDeedView(request: MortgageDeedCreate, caller: Caller, id: int, now: int,
                        deeds: seq<Deed>, borrowers: seq<Borrower>, signers: seq<Signer>, audit: seq<AuditEntry>,
                        deeds': seq<Deed>, borrowers': seq<Borrower>, signers': seq<Signer>, audit': seq<AuditEntry>,
                        cooperatives: seq<Cooperative>)
    requires forall i :: 0 <= i < |deeds| ==> deeds[i].id < id
    requires forall b :: b in borrowers ==> b.deedId != id
    requires forall s :: s in signers ==> s.deedId != id
    requires CreateDone(request, caller, id, now, deeds, borrowers, signers, audit, deeds', borrowers', signers', audit')
    ensures DeedWithRelations(deeds', borrowers', cooperatives, signers', id, CreatedDeedMessage)
            == Ok(DeedView(NewDeed(request, caller, id, now), CreatedBorrowers(request, id),
                           LookupCooperative(cooperatives, request.cooperativeId), CreatedSigners(request, id)))
  {
    var nb := CreatedBorrowers(request, id);
    var ns := CreatedSigners(request, id);
    LookupNewDeed(deeds, NewDeed(request, caller, id, now));
    assert Filter(borrowers', BorrowerOfDeed(id)) == nb by {
      FilterAppend(borrowers, nb, BorrowerOfDeed(id));
      FilterNone(borrowers, BorrowerOfDeed(id));
      FilterAll(nb, BorrowerOfDeed(id));
    }
    assert Filter(signers', SignerOfDeed(id)) == ns by {
      FilterAppend(signers, ns, SignerOfDeed(id));
      FilterNone(signers, SignerOfDeed(id));
      FilterAll(ns, SignerOfDeed(id));
    }
  }

  // ----- delete_mortgage_deed -----

  /** The audit update of delete: entries of the deed keep everything but
      their deed reference. */
  function DetachFromDeed(deedId: int): AuditEntry -> AuditEntry {
    (e: AuditEntry) => if e.deedId == Some(deedId) then e.(deedId := None) else e
  }

  function DeletionInitiatedLine(d: Deed, userId: string): LogLine {
    LogLine(d.id, Some(d.id), "DEED_DELETION_INITIATED", userId,
            "Initiated deletion of mortgage deed for apartment " + d.apartmentNumber + " at "
            + d.apartmentAddress + " (credit number: " + d.creditNumber + ")")
  }

  /** The last line of delete carries no deed reference. */
  function DeedDeletedLine(d: Deed, userId: string): LogLine {
    LogLine(d.id, None, "DEED_DELETED", userId,
            "Deleted mortgage deed for apartment " + d.apartmentNumber + " at "
            + d.apartmentAddress + " (credit number: " + d.creditNumber + ")")
  }

  /** The tables after deed `deedId` is deleted: its rows are gone, the audit
      log keeps every entry with the deed reference of the deed's entries
      (the initiation line included) cleared, and the deletion line follows. */
  ghost predicate DeleteDone(deed: Deed, deedId: int, userId: string,
                             deeds: seq<Deed>, borrowers: seq<Borrower>, signers: seq<Signer>, audit: seq<AuditEntry>,
                             deeds': seq<Deed>, borrowers': seq<Borrower>, signers': seq<Signer>, audit': seq<AuditEntry>)
  {
    && deeds' == Filter(deeds, DeedNotWithId(deedId))
    && borrowers' == Filter(borrowers, BorrowerNotOfDeed(deedId))
    && signers' == Filter(signers, SignerNotOfDeed(deedId))
    && |audit'| == |audit| + 2
    && audit'[..|audit|] == Map(audit, DetachFromDeed(deedId))
    && Records(audit'[|audit|], DeletionInitiatedLine(deed, userId).(deedId := None))
    && Records(audit'[|audit| + 1], DeedDeletedLine(deed, userId))
  }

  /** delete_mortgage_deed: the deed must exist and be accessible to the
      caller; then the cascade of `DeleteDone` runs. */
  method DeleteMortgageDeed(db: Database, deedId: int, caller: Caller, now: int) returns (r: Result<()>)
    requires db.Valid()
    modifies db`deeds, db`borrowers, db`signers, db`audit, db`nextId
    ensures db.Valid()
    ensures var v := DeedWithRelations(old(db.deeds), old(db.borrowers), db.cooperatives, old(db.signers),
                                       deedId, DeedNotFoundMessage);
            if v.Err? then
              r == Err(v.error) && Untouched(db, old(db.deeds), old(db.borrowers), old(db.signers), old(db.audit))
            else if VerifyDeedAccess(v.value, caller).Err? then
              r == Err(VerifyDeedAccess(v.value, caller).error)
              && Untouched(db, old(db.deeds), old(db.borrowers), old(db.signers), old(db.audit))
            else
              r == Ok(())
              && DeleteDone(v.value.deed, deedId, caller.id, old(db.deeds), old(db.borrowers), old(db.signers),
                            old(db.audit), db.deeds, db.borrowers, db.signers, db.audit)
  {
    var v := DeedWithRelations(db.deeds, db.borrowers, db.cooperatives, db.signers, deedId, DeedNotFoundMessage);
    if v.Err? {
      return Err(v.error);
    }
    var access := VerifyDeedAccess(v.value, caller);
    if access.Err? {
      return Err(access.error);
    }
    DeleteCascade(db, v.value.deed, deedId, caller.id, now);
    r := Ok(());
  }

  /** The tables are as they were. */
  ghost predicate Untouched(db: Database, deeds: seq<Deed>, borrowers: seq<Borrower>, signers: seq<Signer>,
                            audit: seq<AuditEntry>)
    reads db
  {
    db.deeds == deeds && db.borrowers == borrowers && db.signers == signers && db.audit == audit
  }

  method DeleteCascade(db: Database, deed: Deed, deedId: int, userId: string, now: int)
    requires db.Valid() && deed.id == deedId
    modifies db`deeds, db`borrowers, db`signers, db`audit, db`nextId
    ensures db.Valid()
    ensures DeleteDone(deed, deedId, userId, old(db.deeds), old(db.borrowers), old(db.signers), old(db.audit),
                       db.deeds, db.borrowers, db.signers, db.audit)
  {
    ghost var deeds0, borrowers0, signers0, audit0 := db.deeds, db.borrowers, db.signers, db.audit;
    var line := DeletionInitiatedLine(deed, userId);
    var _ := CreateAuditLog(db, line.entityId, line.actionType, line.userId, line.description, line.deedId, now, None);
    ghost var audit1 := db.audit;
    db.audit := Map(db.audit, DetachFromDeed(deedId));
    db.borrowers := Filter(db.borrowers, BorrowerNotOfDeed(deedId));
    db.signers := Filter(db.signers, SignerNotOfDeed(deedId));
    FilterMembers(db.deeds, DeedNotWithId(deedId));
    db.deeds := Filter(db.deeds, DeedNotWithId(deedId));
    ghost var audit2 := db.audit;
    var last := DeedDeletedLine(deed, userId);
    var _ := CreateAuditLog(db, last.entityId, last.actionType, last.userId, last.description, last.deedId, now, None);
    DeleteDoneIntro(deed, deedId, userId, deeds0, borrowers0, signers0, audit0, audit1, audit2,
                    db.deeds, db.borrowers, db.signers, db.audit);
  }

  /** The log line, the detach of the deed's entries, the three deletes and
      the closing line make up `DeleteDone`. */
  lemma DeleteDoneIntro(deed: Deed, deedId: int, userId: string,
                        deeds: seq<Deed>, borrowers: seq<Borrower>, signers: seq<Signer>, audit: seq<AuditEntry>,
                        audit1: seq<AuditEntry>, audit2: seq<AuditEntry>,
                        deeds': seq<Deed>, borrowers': seq<Borrower>, signers': seq<Signer>, audit': seq<AuditEntry>)
    requires deed.id == deedId
    requires Appended(audit, audit1, [DeletionInitiatedLine(deed, userId)])
    requires audit2 == Map(audit1, DetachFromDeed(deedId))
    requires Appended(audit2, audit', [DeedDeletedLine(deed, userId)])
    requires deeds' == Filter(deeds, DeedNotWithId(deedId))
    requires borrowers' == Filter(borrowers, BorrowerNotOfDeed(deedId))
    requires signers' == Filter(signers, SignerNotOfDeed(deedId))
    ensures DeleteDone(deed, deedId, userId, deeds, borrowers, signers, audit, deeds', borrowers', signers', audit')
  {
    var n := |audit|;
    AppendedOne(audit, audit1, DeletionInitiatedLine(deed, userId));
    AppendedOne(audit2, audit', DeedDeletedLine(deed, userId));
    assert audit2[n] == DetachFromDeed(deedId)(audit1[n]);
    assert audit2[..n] == Map(audit, DetachFromDeed(deedId));
    assert audit'[..|audit2|] == audit2;
    assert audit'[n] == audit2[n];
  }

  /** After a delete nothing refers to the deed any more: it is not found,
      it has no borrowers or signers, and no audit entry carries its id as
      deed reference. */
  lemma DeletedDeedLeavesNoTrace(deed: Deed, deedId: int, userId: string,
                                 deeds: seq<Deed>, borrowers: seq<Borrower>, signers: seq<Signer>, audit: seq<AuditEntry>,
                                 deeds': seq<Deed>, borrowers': seq<Borrower>, signers': seq<Signer>, audit': seq<AuditEntry>)
    requires DeleteDone(deed, deedId, userId, deeds, borrowers, signers, audit, deeds', borrowers', signers', audit')
    ensures LookupDeed(deeds', deedId) == None
    ensures forall b :: b in borrowers' ==> b.deedId != deedId
    ensures forall s :: s in signers' ==> s.deedId != deedId
    ensures forall i :: 0 <= i < |audit'| ==> audit'[i].deedId != Some(deedId)
    ensures |audit'| == |audit| + 2
  {
    FilterMembers(deeds, DeedNotWithId(deedId));
    FilterMembers(borrowers, BorrowerNotOfDeed(deedId));
    FilterMembers(signers, SignerNotOfDeed(deedId));
    FilterNone(deeds', DeedHasId(deedId));
    forall i | 0 <= i < |audit'| ensures audit'[i].deedId != Some(deedId) {
      if i < |audit| {
        assert audit'[i] == audit'[..|audit|][i];
      }
    }
  }
}
