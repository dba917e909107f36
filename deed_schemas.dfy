/** Request shapes and validators of the mortgage-deed API: the deed status
    enumeration, borrower and signer payloads, the create and update bodies
    with their ownership-percentage rule, and the signing request.
    A rejected payload is answered with 422 before any handler runs. */
module DeedSchemas {
  import opened Common
  import opened Text
  import opened Decimals

  datatype DeedStatus =
    | Created
    | PendingBorrowerSignature
    | PendingHousingCooperativeSignature
    | Completed

  /** The status as it is stored and sent over the wire. */
  function StatusName(s: DeedStatus): string {
    match s
    case Created => "CREATED"
    case PendingBorrowerSignature => "PENDING_BORROWER_SIGNATURE"
    case PendingHousingCooperativeSignature => "PENDING_HOUSING_COOPERATIVE_SIGNATURE"
    case Completed => "COMPLETED"
  }

  /** The status literal type: exactly the four names are accepted. */
  function ParseStatus(name: string): (r: Option<DeedStatus>)
    ensures r.Some? ==> StatusName(r.value) == name
  {
    if name == "CREATED" then Some(Created)
    else if name == "PENDING_BORROWER_SIGNATURE" then Some(PendingBorrowerSignature)
    else if name == "PENDING_HOUSING_COOPERATIVE_SIGNATURE" then Some(PendingHousingCooperativeSignature)
    else if name == "COMPLETED" then Some(Completed)
    else None
  }

  /** Every status name parses back to its status, so the four names are distinct. */
  lemma ParseStatusName(s: DeedStatus)
    ensures ParseStatus(StatusName(s)) == Some(s)
  {
  }

  /** The fields of MortgageDeedResponse. None has a default, so each is
      required, the Optional cooperative included: a reply row without one of
      these keys fails the response model. */
  const DeedResponseFields: set<string> :=
    {"id", "created_at", "credit_number", "housing_cooperative_id", "housing_cooperative",
     "apartment_address", "apartment_postal_code", "apartment_city", "apartment_number",
     "status", "bank_id", "borrowers", "housing_cooperative_signers"}

  /** A Swedish personal number as borrowers and signing requests give it: exactly 12 digits. */
  predicate IsPersonNumber(s: string) {
    |s| == 12 && AllDigits(s)
  }

  datatype BorrowerCreate = BorrowerCreate(
    name: string,
    personNumber: string,
    email: string,
    ownershipPercentage: Decimal)

  /** A cooperative signer payload; no field of it is format-checked. */
  datatype SignerCreate = SignerCreate(
    administratorName: string,
    administratorPersonNumber: string,
    administratorEmail: string)

  datatype MortgageDeedCreate = MortgageDeedCreate(
    creditNumber: string,
    cooperativeId: int,
    apartmentAddress: string,
    apartmentPostalCode: string,
    apartmentCity: string,
    apartmentNumber: string,
    borrowers: seq<BorrowerCreate>,
    signers: Option<seq<SignerCreate>>)

  /** Every field may be left out (None). */
  datatype MortgageDeedUpdate = MortgageDeedUpdate(
    apartmentAddress: Option<string>,
    apartmentPostalCode: Option<string>,
    apartmentCity: Option<string>,
    apartmentNumber: Option<string>,
    cooperativeId: Option<int>,
    borrowers: Option<seq<BorrowerCreate>>,
    signers: Option<seq<SignerCreate>>)

  datatype SignRequest = SignRequest(personNumber: string)

  function Invalid<T>(message: string): Result<T> {
    Err(HttpError(UnprocessableEntity, message))
  }

  /** The field checks of one borrower: the person number pattern and 0 < percentage <= 100. */
  predicate BorrowerFieldsValid(b: BorrowerCreate) {
    IsPersonNumber(b.personNumber) && 0.0 < Value(b.ownershipPercentage) <= 100.0
  }

  function ValidateBorrower(b: BorrowerCreate): (r: Result<BorrowerCreate>)
    ensures r.Ok? <==> IsPersonNumber(b.personNumber) && 0.0 < Value(b.ownershipPercentage) <= 100.0
    ensures r.Ok? ==> r.value == b
    ensures r.Err? ==> r.error.status == UnprocessableEntity
  {
    if !IsPersonNumber(b.personNumber) then Invalid("Person number must be exactly 12 digits")
    else if !(0.0 < Value(b.ownershipPercentage) <= 100.0) then Invalid("Ownership percentage must be greater than 0 and at most 100")
    else Ok(b)
  }

  /** The sum of the borrowers' ownership percentages. */
  function OwnershipTotal(bs: seq<BorrowerCreate>): real {
    if bs == [] then 0.0 else OwnershipTotal(bs[..|bs| - 1]) + Value(bs[|bs| - 1].ownershipPercentage)
  }

  /** The total is within 0.01 of 100 (the check rejects when |total - 100| > 0.01). */
  predicate TotalIsHundred(bs: seq<BorrowerCreate>) {
    -0.01 <= OwnershipTotal(bs) - 100.0 <= 0.01
  }

  function ValidateDeedCreate(d: MortgageDeedCreate): (r: Result<MortgageDeedCreate>)
    ensures r.Ok? <==> (forall i :: 0 <= i < |d.borrowers| ==> BorrowerFieldsValid(d.borrowers[i]))
                       && TotalIsHundred(d.borrowers)
    ensures r.Ok? ==> r.value == d
    ensures r.Err? ==> r.error.status == UnprocessableEntity
  {
    if exists i :: 0 <= i < |d.borrowers| && !BorrowerFieldsValid(d.borrowers[i]) then
      Invalid("Invalid borrower")
    else if !TotalIsHundred(d.borrowers) then Invalid("Total ownership percentage must equal 100")
    else Ok(d)
  }

  function ValidateDeedUpdate(u: MortgageDeedUpdate): (r: Result<MortgageDeedUpdate>)
    ensures r.Ok? <==> (u.borrowers.Some? ==>
                          (forall i :: 0 <= i < |u.borrowers.value| ==> BorrowerFieldsValid(u.borrowers.value[i]))
                          && (u.borrowers.value == [] || TotalIsHundred(u.borrowers.value)))
    ensures r.Ok? ==> r.value == u
    ensures r.Err? ==> r.error.status == UnprocessableEntity
  {
    match u.borrowers
    case None => Ok(u)
    case Some(bs) =>
      if exists i :: 0 <= i < |bs| && !BorrowerFieldsValid(bs[i]) then Invalid("Invalid borrower")
      else if bs != [] && !TotalIsHundred(bs) then Invalid("Total ownership percentage must equal 100")
      else Ok(u)
  }

  function ValidateSignRequest(s: SignRequest): (r: Result<SignRequest>)
    ensures r.Ok? <==> |s.personNumber| == 12 && AllDigits(s.personNumber)
    ensures r.Ok? ==> r.value == s
  {
    if IsPersonNumber(s.personNumber) then Ok(s)
    else Invalid("Person number must be exactly 12 digits")
  }

  /** With positive percentages the total is positive and no share exceeds it. */
  lemma {:induction false} TotalBounds(bs: seq<BorrowerCreate>)
    requires forall i :: 0 <= i < |bs| ==> 0.0 < Value(bs[i].ownershipPercentage)
    ensures bs != [] ==> OwnershipTotal(bs) > 0.0
    ensures forall i :: 0 <= i < |bs| ==> Value(bs[i].ownershipPercentage) <= OwnershipTotal(bs)
  {
    if bs != [] {
      var init := bs[..|bs| - 1];
      TotalBounds(init);
      forall i | 0 <= i < |bs| ensures Value(bs[i].ownershipPercentage) <= OwnershipTotal(bs) {
        if i < |bs| - 1 { assert bs[i] == init[i]; }
      }
    }
  }

  /** A deed cannot be created without borrowers (the empty sum is 0), and an
      accepted deed's percentages add up to between 99.99 and 100.01. */
  lemma CreateNeedsBorrowers(d: MortgageDeedCreate)
    requires ValidateDeedCreate(d).Ok?
    ensures d.borrowers != []
    ensures 99.99 <= OwnershipTotal(d.borrowers) <= 100.01
  {
  }

  /** Signers play no part in accepting a deed: no format check applies to them. */
  lemma CreateIgnoresSigners(d: MortgageDeedCreate, signers: Option<seq<SignerCreate>>)
    ensures ValidateDeedCreate(d.(signers := signers)).Ok? == ValidateDeedCreate(d).Ok?
  {
  }

  /** An update that leaves the borrowers out, or empties them, passes the sum check. */
  lemma UpdateWithoutBorrowersPasses(u: MortgageDeedUpdate)
    requires u.borrowers.None? || u.borrowers == Some([])
    ensures ValidateDeedUpdate(u).Ok?
  {
  }
}
