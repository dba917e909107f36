/** The signing workflow of a mortgage deed: sending it to the borrowers,
    borrower signatures, the cooperative administrator's signature, and the
    status changes they trigger

      CREATED -> PENDING_BORROWER_SIGNATURE
              -> PENDING_HOUSING_COOPERATIVE_SIGNATURE -> COMPLETED.

    Email delivery is outside the model: `delivery(j)` is whether the j-th
    email of a request was sent. The notification emails whose outcome the
    handlers ignore are not modelled; the database lookups those
    notifications make are, since a failing lookup changes the reply. */
module Signing {
  import opened Common
  import opened Text
  import opened Seqs
  import opened SupabaseUtils
  import opened DeedSchemas
  import opened Store
  import opened Audit

  datatype SignResponse = SignResponse(deedId: int, status: DeedStatus, message: string)

  // The handlers' errors and reply messages.
  const DeedDetailsNotFound := HttpError(NotFound, "Failed to fetch deed details")
  const DeedStatusNotFound := HttpError(NotFound, "Failed to fetch deed status")
  const BorrowerStatusNotFound := HttpError(NotFound, "Failed to check borrower signature status")
  const NotAwaitingBorrowersError := HttpError(Conflict, "Deed is not in the correct status for borrower signing")
  const BorrowerAlreadySignedError := HttpError(Conflict, "Borrower has already signed this deed")
  const NotAwaitingCooperativeError := HttpError(Conflict, "Deed is not in the correct status for administrator signing")
  const WrongAdministratorError := HttpError(Forbidden, "Not authorized to sign this deed")

  const WaitingForBorrowers := "Signature recorded successfully. Waiting for other borrowers to sign."
  const BorrowersDone := "All borrowers have signed. Housing cooperative administrators have been notified."
  const WaitingForAdministrators := "Signature recorded successfully. Waiting for other administrators to sign."
  const AllSignaturesCollected := "All signatures collected. All parties have been notified."

  function BorrowerTimestamp(b: Borrower): Option<int> { b.signatureTimestamp }
  function SignerTimestamp(s: Signer): Option<int> { s.signatureTimestamp }

  /** Python's `all(t is not None for t in ts)`: true of no timestamps at all. */
  function AllPresent(ts: seq<Option<int>>): (r: bool)
    ensures r <==> forall i :: 0 <= i < |ts| ==> ts[i].Some?
  {
    if ts == [] then true else ts[0].Some? && AllPresent(ts[1..])
  }

  /** verify_all_borrowers_signed: every borrower row of the deed carries a
      signature timestamp (vacuously so when the deed has no borrowers). */
  function AllBorrowersSigned(borrowers: seq<Borrower>, deedId: int): (r: bool)
    ensures r <==> forall i :: 0 <= i < |borrowers| && borrowers[i].deedId == deedId ==>
                     borrowers[i].signatureTimestamp.Some?
  {
    var mine := Filter(borrowers, BorrowerOfDeed(deedId));
    var ts := Map(mine, BorrowerTimestamp);
    FilterMembers(borrowers, BorrowerOfDeed(deedId));
    assert forall i :: 0 <= i < |borrowers| && borrowers[i].deedId == deedId ==>
             exists j :: 0 <= j < |mine| && mine[j] == borrowers[i];
    AllPresent(ts)
  }

  /** verify_all_admins_signed: every signer row of the deed carries a
      signature timestamp (vacuously so when the deed has no signers). */
  function AllSignersSigned(signers: seq<Signer>, deedId: int): (r: bool)
    ensures r <==> forall i :: 0 <= i < |signers| && signers[i].deedId == deedId ==>
                     signers[i].signatureTimestamp.Some?
  {
    var mine := Filter(signers, SignerOfDeed(deedId));
    var ts := Map(mine, SignerTimestamp);
    FilterMembers(signers, SignerOfDeed(deedId));
    assert forall i :: 0 <= i < |signers| && signers[i].deedId == deedId ==>
             exists j :: 0 <= j < |mine| && mine[j] == signers[i];
    AllPresent(ts)
  }

  /** The signature update: every borrower row of the deed with the person number gets the time. */
  function StampBorrower(deedId: int, personNumber: string, now: int): Borrower -> Borrower {
    (b: Borrower) => if b.deedId == deedId && b.personNumber == personNumber then b.(signatureTimestamp := Some(now)) else b
  }

  /** The signature update: every signer row of the deed with the person number gets the time. */
  function StampSigner(deedId: int, personNumber: string, now: int): Signer -> Signer {
    (s: Signer) => if s.deedId == deedId && s.administratorPersonNumber == personNumber then s.(signatureTimestamp := Some(now)) else s
  }

  /** After a borrower signs, all have signed exactly when every other borrower
      of the deed (another person number) had signed before. */
  lemma StampedBorrowersComplete(borrowers: seq<Borrower>, deedId: int, personNumber: string, now: int)
    ensures AllBorrowersSigned(Map(borrowers, StampBorrower(deedId, personNumber, now)), deedId)
            <==> forall i :: (0 <= i < |borrowers| && borrowers[i].deedId == deedId
                              && borrowers[i].personNumber != personNumber) ==> borrowers[i].signatureTimestamp.Some?
  {
  }

  /** After an administrator signs, all have signed exactly when every other
      signer row of the deed (another person number) had signed before. */
  lemma StampedSignersComplete(signers: seq<Signer>, deedId: int, personNumber: string, now: int)
    ensures AllSignersSigned(Map(signers, StampSigner(deedId, personNumber, now)), deedId)
            <==> forall i :: (0 <= i < |signers| && signers[i].deedId == deedId
                              && signers[i].administratorPersonNumber != personNumber) ==> signers[i].signatureTimestamp.Some?
  {
  }

  function StatusChangeAction(status: DeedStatus): string {
    "STATUS_CHANGED_TO_" + StatusName(status)
  }

  /** The audit line update_deed_status writes. */
  function StatusChangeLine(deedId: int, status: DeedStatus, userId: string): LogLine {
    LogLine(deedId, Some(deedId), StatusChangeAction(status), userId, "Deed status changed to " + StatusName(status))
  }

  /** update_deed_status: sets the status of the deed's rows (whatever the
      status was) and records the change against the deed. */
  method UpdateDeedStatus(db: Database, deedId: int, status: DeedStatus, userId: string, now: int)
    requires db.Valid()
    modifies db`deeds, db`audit, db`nextId
    ensures db.Valid() && db.nextId >= old(db.nextId)
    ensures db.deeds == Map(old(db.deeds), SetStatus(deedId, status))
    ensures Appended(old(db.audit), db.audit, [StatusChangeLine(deedId, status, userId)])
  {
    db.deeds := Map(db.deeds, SetStatus(deedId, status));
    var line := StatusChangeLine(deedId, status, userId);
    var _ := CreateAuditLog(db, line.entityId, line.actionType, line.userId, line.description, line.deedId, now, None);
  }

  // ----- send_for_signing -----

  /** The first `n` emails were all sent. */
  predicate AllDelivered(n: nat, delivery: nat -> bool) {
    forall j :: 0 <= j < n ==> delivery(j)
  }

  /** The borrower notification loop: for each borrower, the cooperative's
      name is read (a missing cooperative is a 500) and an email is sent;
      the result says whether every email was sent. */
  method NotifyBorrowers(recipients: seq<Borrower>, cooperativeFound: bool, delivery: nat -> bool)
    returns (r: Result<bool>)
    ensures r.Err? <==> !cooperativeFound && recipients != []
    ensures r.Err? ==> r == Err(UnhandledError)
    ensures r.Ok? ==> r.value == AllDelivered(|recipients|, delivery)
  {
    var allSent := true;
    var j := 0;
    while j < |recipients|
      invariant 0 <= j <= |recipients|
      invariant !cooperativeFound ==> j == 0
      invariant allSent <==> forall k :: 0 <= k < j ==> delivery(k)
    {
      if !cooperativeFound {
        return Err(UnhandledError);
      }
      if !delivery(j) {
        allSent := false;
      }
      j := j + 1;
    }
    return Ok(allSent);
  }

  function SigningInitiatedLine(deed: Deed, deedId: int): LogLine {
    LogLine(deedId, None, "SIGNING_INITIATED", deed.createdBy,
            "Initiated signing process for mortgage deed " + IntToString(deedId)
            + " (apartment " + deed.apartmentNumber + " at " + deed.apartmentAddress + ")")
  }

  function NotificationLine(deed: Deed, deedId: int, allSent: bool): LogLine {
    if allSent then
      LogLine(deedId, None, "NOTIFICATIONS_SENT", deed.createdBy,
              "Successfully sent all notifications for mortgage deed " + IntToString(deedId)
              + " (apartment " + deed.apartmentNumber + ")")
    else
      LogLine(deedId, None, "NOTIFICATION_FAILURE", deed.createdBy,
              "Failed to send some notifications for mortgage deed " + IntToString(deedId)
              + " (apartment " + deed.apartmentNumber + ")")
  }

  /** What send_for_signing records before it emails anyone. */
  function InitiationLog(deed: Deed, deedId: int): seq<LogLine> {
    [SigningInitiatedLine(deed, deedId), StatusChangeLine(deedId, PendingBorrowerSignature, deed.createdBy)]
  }

  /** Everything send_for_signing records once its emails are out. */
  function SendForSigningLog(deed: Deed, deedId: int, allSent: bool): seq<LogLine> {
    InitiationLog(deed, deedId) + [NotificationLine(deed, deedId, allSent)]
  }

  /** The first two steps of send_for_signing: the initiation is recorded,
      then the status changes. */
  method InitiateSigning(db: Database, deedId: int, deed: Deed, now: int)
    requires db.Valid()
    modifies db`deeds, db`audit, db`nextId
    ensures db.Valid()
    ensures db.deeds == Map(old(db.deeds), SetStatus(deedId, PendingBorrowerSignature))
    ensures Appended(old(db.audit), db.audit, InitiationLog(deed, deedId))
  {
    var line := SigningInitiatedLine(deed, deedId);
    var change := StatusChangeLine(deedId, PendingBorrowerSignature, deed.createdBy);
    var _ := CreateAuditLog(db, line.entityId, line.actionType, line.userId, line.description, line.deedId, now, None);
    ghost var audit1 := db.audit;
    UpdateDeedStatus(db, deedId, PendingBorrowerSignature, deed.createdBy, now);
    AppendedTrans(old(db.audit), audit1, db.audit, [line], [change]);
    assert [line] + [change] == InitiationLog(deed, deedId);
  }

  /** The last steps of send_for_signing: the borrowers are emailed and
      whether every email went out is recorded. */
  method NotifyAndRecord(db: Database, deedId: int, deed: Deed, recipients: seq<Borrower>, cooperativeFound: bool,
                         now: int, delivery: nat -> bool) returns (r: Result<bool>)
    requires db.Valid()
    modifies db`audit, db`nextId
    ensures db.Valid()
    ensures r.Err? <==> !cooperativeFound && recipients != []
    ensures r.Err? ==> r == Err(UnhandledError) && db.audit == old(db.audit)
    ensures r.Ok? ==> r.value == AllDelivered(|recipients|, delivery)
                      && Appended(old(db.audit), db.audit, [NotificationLine(deed, deedId, r.value)])
  {
    r := NotifyBorrowers(recipients, cooperativeFound, delivery);
    if r.Ok? {
      var notice := NotificationLine(deed, deedId, r.value);
      var _ := CreateAuditLog(db, notice.entityId, notice.actionType, notice.userId, notice.description, notice.deedId, now, None);
    }
  }

  /** The reply and the audit log after send_for_signing found `deed`: a
      missing cooperative with borrowers to email is an unhandled error after
      the status change; otherwise whether every email went out is recorded
      and the deed is returned with its new status, unless the response
      model refuses the row. */
  ghost predicate SendForSigningDone(deed: Deed, deedId: int, mine: seq<Borrower>, cooperative: Option<Cooperative>,
                                     audit: seq<AuditEntry>, audit': seq<AuditEntry>, delivery: nat -> bool,
                                     r: Result<Deed>)
  {
    if cooperative.None? && mine != [] then
      && r == Err(UnhandledError)
      && Appended(audit, audit', InitiationLog(deed, deedId))
    else
      && (r.Ok? <==> DeedRowReplies(deed, cooperative))
      && (r.Ok? ==> r.value == deed.(status := PendingBorrowerSignature))
      && (r.Err? ==> r == Err(UnhandledError))
      && Appended(audit, audit', SendForSigningLog(deed, deedId, AllDelivered(|mine|, delivery)))
  }

  /** The keys of a mortgage_deeds row: its columns. */
  const DeedColumns: set<string> :=
    {"id", "created_at", "credit_number", "housing_cooperative_id", "apartment_address",
     "apartment_postal_code", "apartment_city", "apartment_number", "status", "bank_id",
     "created_by", "created_by_email"}

  /** The keys of the deed send_for_signing reads back at its end, as
      written: the columns with the embedded borrowers and cooperative. */
  const RefetchKeysAsWritten: set<string> := DeedColumns + {"borrowers", "housing_cooperative"}

  /** The keys of that read-back with the signers embedded as well, as the
      other deed reads do. */
  const RefetchKeys: set<string> := RefetchKeysAsWritten + {"housing_cooperative_signers"}

  /** FastAPI's check of a reply against `response_model=MortgageDeedResponse`:
      a row that lacks a required field, has no bank id, or embeds a
      cooperative without one of its required fields is refused with a 500
      after the handler has done all its work; otherwise the deed is sent. */
  function DeedReply(keys: set<string>, deed: Deed, cooperative: Option<Cooperative>): (r: Result<Deed>)
    ensures r.Ok? <==> DeedResponseFields <= keys && DeedRowReplies(deed, cooperative)
    ensures r.Ok? ==> r.value == deed
    ensures r.Err? ==> r.error == UnhandledError
  {
    if DeedResponseFields <= keys && DeedRowReplies(deed, cooperative) then Ok(deed) else Err(UnhandledError)
  }

  /** As written, send_for_signing never gets its reply through the response
      model: the read-back lacks the signers, so every request that found its
      deed ends in a 500 after the status change, the audit lines and the
      emails. */
  lemma SendForSigningReplyAsWritten(deed: Deed, cooperative: Option<Cooperative>)
    ensures "housing_cooperative_signers" in DeedResponseFields - RefetchKeysAsWritten
    ensures DeedReply(RefetchKeysAsWritten, deed, cooperative) == Err(UnhandledError)
  {
  }

  /** With the signers read back too, a row whose values pass the response
      model is replied as the deed it now is. */
  lemma SendForSigningReply(deed: Deed, cooperative: Option<Cooperative>)
    ensures DeedResponseFields <= RefetchKeys
    ensures DeedRowReplies(deed, cooperative) ==> DeedReply(RefetchKeys, deed, cooperative) == Ok(deed)
  {
  }

  /** send_for_signing: moves the deed to PENDING_BORROWER_SIGNATURE from any
      status, emails each borrower, records whether all emails went out, and
      returns the deed as it now is, read back with its signers (see
      SendForSigningReplyAsWritten for the read-back as written). */
  method SendForSigning(db: Database, deedId: int, now: int, delivery: nat -> bool) returns (r: Result<Deed>)
    requires db.Valid()
    modifies db`deeds, db`audit, db`nextId
    ensures db.Valid()
    ensures LookupDeed(old(db.deeds), deedId).None? ==>
              r == Err(DeedDetailsNotFound)
              && db.deeds == old(db.deeds) && db.audit == old(db.audit)
    ensures LookupDeed(old(db.deeds), deedId).Some? ==>
              db.deeds == Map(old(db.deeds), SetStatus(deedId, PendingBorrowerSignature))
    ensures LookupDeed(old(db.deeds), deedId).Some? ==>
              SendForSigningDone(LookupDeed(old(db.deeds), deedId).value, deedId,
                                 Filter(old(db.borrowers), BorrowerOfDeed(deedId)),
                                 LookupCooperative(old(db.cooperatives), LookupDeed(old(db.deeds), deedId).value.cooperativeId),
                                 old(db.audit), db.audit, delivery, r)
  {
    var found := LookupDeed(db.deeds, deedId);
    if found.None? {
      return Err(DeedDetailsNotFound);
    }
    var deed := found.value;
    var mine := Filter(db.borrowers, BorrowerOfDeed(deedId));
    var cooperative := LookupCooperative(db.cooperatives, deed.cooperativeId);
    var cooperativeFound := cooperative.Some?;
    ghost var audit0 := db.audit;

    InitiateSigning(db, deedId, deed, now);

    ghost var audit1 := db.audit;
    var sent := NotifyAndRecord(db, deedId, deed, mine, cooperativeFound, now, delivery);
    if sent.Err? {
      return Err(UnhandledError);
    }
    AppendedTrans(audit0, audit1, db.audit, InitiationLog(deed, deedId), [NotificationLine(deed, deedId, sent.value)]);

    LookupAfterSetStatus(old(db.deeds), deedId, PendingBorrowerSignature);
    var refetched := LookupDeed(db.deeds, deedId);
    SendForSigningReply(refetched.value, cooperative);
    return DeedReply(RefetchKeys, refetched.value, cooperative);
  }

  // ----- borrower_sign -----

  /** How a borrower's signing request is decided, from the tables as they
      were when it arrived. */
  datatype BorrowerSignCase =
    | DeedNotFound
    | NotAwaitingBorrowers(deed: Deed)
    | BorrowerNotFound(deed: Deed)
    | AlreadySigned(deed: Deed)
    | BorrowerRecorded(deed: Deed, complete: bool)

  function BorrowerSignCaseOf(deeds: seq<Deed>, borrowers: seq<Borrower>, deedId: int,
                              personNumber: string, now: int): (c: BorrowerSignCase)
    ensures c.DeedNotFound? <==> LookupDeed(deeds, deedId).None?
    ensures !c.DeedNotFound? ==> c.deed == LookupDeed(deeds, deedId).value
    ensures c.NotAwaitingBorrowers? <==> LookupDeed(deeds, deedId).Some?
                                         && LookupDeed(deeds, deedId).value.status != PendingBorrowerSignature
    ensures c.BorrowerRecorded? <==>
              && LookupDeed(deeds, deedId).Some?
              && LookupDeed(deeds, deedId).value.status == PendingBorrowerSignature
              && |Filter(borrowers, BorrowerMatches(deedId, personNumber))| == 1
              && Filter(borrowers, BorrowerMatches(deedId, personNumber))[0].signatureTimestamp.None?
    ensures c.BorrowerRecorded? ==>
              c.complete == AllBorrowersSigned(Map(borrowers, StampBorrower(deedId, personNumber, now)), deedId)
  {
    match LookupDeed(deeds, deedId)
    case None => DeedNotFound
    case Some(deed) =>
      if deed.status != PendingBorrowerSignature then NotAwaitingBorrowers(deed)
      else match Single(Filter(borrowers, BorrowerMatches(deedId, personNumber)))
        case None => BorrowerNotFound(deed)
        case Some(b) =>
          if b.signatureTimestamp.Some? then AlreadySigned(deed)
          else
            BorrowerRecorded(deed, AllBorrowersSigned(Map(borrowers, StampBorrower(deedId, personNumber, now)), deedId))
  }

  function BorrowerSignLog(c: BorrowerSignCase, deedId: int, personNumber: string): seq<LogLine> {
    match c
    case DeedNotFound => []
    case BorrowerNotFound(_) => []
    case NotAwaitingBorrowers(d) =>
      [LogLine(deedId, None, "BORROWER_SIGNATURE_INVALID_STATUS", d.createdBy,
               "Invalid status for borrower signature (current status: " + StatusName(d.status)
               + ") for mortgage deed " + IntToString(deedId))]
    case AlreadySigned(d) =>
      [LogLine(deedId, None, "BORROWER_SIGNATURE_DUPLICATE_ATTEMPT", d.createdBy,
               "Duplicate signature attempt by borrower " + personNumber + " for mortgage deed " + IntToString(deedId))]
    case BorrowerRecorded(d, complete) =>
      [LogLine(deedId, None, "BORROWER_SIGNED", d.createdBy,
               "Borrower " + personNumber + " signed mortgage deed " + IntToString(deedId))]
      + if complete then BorrowersCompleteLog(d, deedId) else []
  }

  /** What borrower_sign records when the last borrower has signed. */
  function BorrowersCompleteLog(d: Deed, deedId: int): seq<LogLine> {
    [LogLine(deedId, None, "ALL_BORROWERS_SIGNED", d.createdBy,
             "All borrowers have signed mortgage deed " + IntToString(deedId)),
     StatusChangeLine(deedId, PendingHousingCooperativeSignature, d.createdBy)]
  }

  /** The reply to a borrower's signing request. When the last borrower signs,
      the administrators' notification looks the deed up joined with its
      cooperative; without the cooperative that lookup is a 404. */
  function BorrowerSignReply(c: BorrowerSignCase, deedId: int, cooperativeFound: bool): (r: Result<SignResponse>)
    ensures r.Ok? <==> c.BorrowerRecorded? && (c.complete ==> cooperativeFound)
    ensures r.Ok? ==> r.value.deedId == deedId
    ensures r.Ok? ==> (r.value.status == PendingHousingCooperativeSignature <==> c.complete)
    ensures r.Ok? && !c.complete ==> r.value.status == PendingBorrowerSignature
    ensures c.NotAwaitingBorrowers? || c.AlreadySigned? ==> r.Err? && r.error.status == Conflict
    ensures c.DeedNotFound? || c.BorrowerNotFound? ==> r.Err? && r.error.status == NotFound
  {
    match c
    case DeedNotFound => Err(DeedStatusNotFound)
    case NotAwaitingBorrowers(_) => Err(NotAwaitingBorrowersError)
    case BorrowerNotFound(_) => Err(BorrowerStatusNotFound)
    case AlreadySigned(_) => Err(BorrowerAlreadySignedError)
    case BorrowerRecorded(_, complete) =>
      if !complete then
        Ok(SignResponse(deedId, PendingBorrowerSignature,
                        WaitingForBorrowers))
      else if !cooperativeFound then Err(DeedDetailsNotFound)
      else
        Ok(SignResponse(deedId, PendingHousingCooperativeSignature,
                        BorrowersDone))
  }

  /** borrower_sign: records the borrower's signature while the deed awaits
      borrowers; the last signature moves the deed on to the cooperative. */
  method BorrowerSign(db: Database, deedId: int, request: SignRequest, now: int) returns (r: Result<SignResponse>)
    requires db.Valid()
    modifies db`deeds, db`borrowers, db`audit, db`nextId
    ensures db.Valid()
    ensures ValidateSignRequest(request).Err? ==>
              r == Err(ValidateSignRequest(request).error)
              && db.deeds == old(db.deeds) && db.borrowers == old(db.borrowers) && db.audit == old(db.audit)
    ensures ValidateSignRequest(request).Ok? ==>
              BorrowerSignDone(old(db.deeds), old(db.borrowers), old(db.audit), db.cooperatives,
                               db.deeds, db.borrowers, db.audit, deedId, request.personNumber, now, r)
  {
    var valid := ValidateSignRequest(request);
    if valid.Err? {
      return Err(valid.error);
    }
    var found := LookupDeed(db.deeds, deedId);
    if found.None? {
      return Err(DeedStatusNotFound);
    }
    r := SignAsBorrower(db, deedId, found.value, request.personNumber, now);
  }

  /** The tables and the reply after borrower_sign, given the tables before. */
  ghost predicate BorrowerSignDone(deeds: seq<Deed>, borrowers: seq<Borrower>, audit: seq<AuditEntry>,
                                   cooperatives: seq<Cooperative>, deeds': seq<Deed>, borrowers': seq<Borrower>,
                                   audit': seq<AuditEntry>, deedId: int, personNumber: string, now: int,
                                   r: Result<SignResponse>)
  {
    var c := BorrowerSignCaseOf(deeds, borrowers, deedId, personNumber, now);
    && r == BorrowerSignReply(c, deedId, c.BorrowerRecorded? && LookupCooperative(cooperatives, c.deed.cooperativeId).Some?)
    && borrowers' == (if c.BorrowerRecorded? then Map(borrowers, StampBorrower(deedId, personNumber, now)) else borrowers)
    && deeds' == (if c.BorrowerRecorded? && c.complete
                  then Map(deeds, SetStatus(deedId, PendingHousingCooperativeSignature))
                  else deeds)
    && Appended(audit, audit', BorrowerSignLog(c, deedId, personNumber))
  }

  /** borrower_sign once the deed is found: the status check, the borrower
      lookup, the duplicate check, then the signature. */
  method SignAsBorrower(db: Database, deedId: int, deed: Deed, pn: string, now: int) returns (r: Result<SignResponse>)
    requires db.Valid()
    requires LookupDeed(db.deeds, deedId) == Some(deed)
    modifies db`deeds, db`borrowers, db`audit, db`nextId
    ensures db.Valid()
    ensures BorrowerSignDone(old(db.deeds), old(db.borrowers), old(db.audit), db.cooperatives,
                             db.deeds, db.borrowers, db.audit, deedId, pn, now, r)
  {
    ghost var c := BorrowerSignCaseOf(db.deeds, db.borrowers, deedId, pn, now);
    if deed.status != PendingBorrowerSignature {
      assert c == NotAwaitingBorrowers(deed);
      var line := BorrowerSignLog(NotAwaitingBorrowers(deed), deedId, pn)[0];
      var _ := CreateAuditLog(db, line.entityId, line.actionType, line.userId, line.description, line.deedId, now, None);
      return Err(NotAwaitingBorrowersError);
    }
    var borrower := Single(Filter(db.borrowers, BorrowerMatches(deedId, pn)));
    if borrower.None? {
      assert c == BorrowerNotFound(deed);
      return Err(BorrowerStatusNotFound);
    }
    if borrower.value.signatureTimestamp.Some? {
      assert c == AlreadySigned(deed);
      var line := BorrowerSignLog(AlreadySigned(deed), deedId, pn)[0];
      var _ := CreateAuditLog(db, line.entityId, line.actionType, line.userId, line.description, line.deedId, now, None);
      return Err(BorrowerAlreadySignedError);
    }

    var complete := RecordBorrowerSignature(db, deedId, deed, pn, now);
    assert c == BorrowerRecorded(deed, complete);
    if complete {
      if LookupCooperative(db.cooperatives, deed.cooperativeId).None? {
        return Err(DeedDetailsNotFound);
      }
      return Ok(SignResponse(deedId, PendingHousingCooperativeSignature,
                             BorrowersDone));
    }
    return Ok(SignResponse(deedId, PendingBorrowerSignature,
                           WaitingForBorrowers));
  }

  /** The accepted-signature part of borrower_sign: the borrower's rows are
      stamped and the signature recorded; when no borrower of the deed is left
      unsigned that is recorded too and the deed moves to
      PENDING_HOUSING_COOPERATIVE_SIGNATURE. */
  method RecordBorrowerSignature(db: Database, deedId: int, deed: Deed, personNumber: string, now: int)
    returns (complete: bool)
    requires db.Valid()
    modifies db`deeds, db`borrowers, db`audit, db`nextId
    ensures db.Valid()
    ensures db.borrowers == Map(old(db.borrowers), StampBorrower(deedId, personNumber, now))
    ensures complete == AllBorrowersSigned(db.borrowers, deedId)
    ensures db.deeds == if complete then Map(old(db.deeds), SetStatus(deedId, PendingHousingCooperativeSignature))
                        else old(db.deeds)
    ensures Appended(old(db.audit), db.audit, BorrowerSignLog(BorrowerRecorded(deed, complete), deedId, personNumber))
  {
    db.borrowers := Map(db.borrowers, StampBorrower(deedId, personNumber, now));
    var signed := BorrowerSignLog(BorrowerRecorded(deed, false), deedId, personNumber)[0];
    var _ := CreateAuditLog(db, signed.entityId, signed.actionType, signed.userId, signed.description, signed.deedId, now, None);
    complete := AllBorrowersSigned(db.borrowers, deedId);
    if complete {
      ghost var audit1 := db.audit;
      CompleteBorrowerSigning(db, deedId, deed, now);
      AppendedTrans(old(db.audit), audit1, db.audit, [signed], BorrowersCompleteLog(deed, deedId));
    } else {
      assert [signed] == BorrowerSignLog(BorrowerRecorded(deed, false), deedId, personNumber);
    }
  }

  /** The last borrower has signed: that is recorded and the deed moves to
      PENDING_HOUSING_COOPERATIVE_SIGNATURE. */
  method CompleteBorrowerSigning(db: Database, deedId: int, deed: Deed, now: int)
    requires db.Valid()
    modifies db`deeds, db`audit, db`nextId
    ensures db.Valid()
    ensures db.deeds == Map(old(db.deeds), SetStatus(deedId, PendingHousingCooperativeSignature))
    ensures Appended(old(db.audit), db.audit, BorrowersCompleteLog(deed, deedId))
  {
    var all := BorrowersCompleteLog(deed, deedId)[0];
    var _ := CreateAuditLog(db, all.entityId, all.actionType, all.userId, all.description, all.deedId, now, None);
    ghost var audit1 := db.audit;
    UpdateDeedStatus(db, deedId, PendingHousingCooperativeSignature, deed.createdBy, now);
    AppendedTrans(old(db.audit), audit1, db.audit, [all], [StatusChangeLine(deedId, PendingHousingCooperativeSignature, deed.createdBy)]);
    assert [all] + [StatusChangeLine(deedId, PendingHousingCooperativeSignature, deed.createdBy)] == BorrowersCompleteLog(deed, deedId);
  }

  /** A borrower who has just signed cannot sign again: the same request on
      the new tables is a duplicate attempt, or, when that signature was the
      last one, finds the deed no longer awaiting borrowers. */
  lemma {:induction false} SecondBorrowerSignatureRejected(deeds: seq<Deed>, borrowers: seq<Borrower>, deedId: int,
                                                           personNumber: string, now: int, later: int)
    requires BorrowerSignCaseOf(deeds, borrowers, deedId, personNumber, now).BorrowerRecorded?
    ensures var c := BorrowerSignCaseOf(deeds, borrowers, deedId, personNumber, now);
            var deeds' := if c.complete then Map(deeds, SetStatus(deedId, PendingHousingCooperativeSignature)) else deeds;
            var borrowers' := Map(borrowers, StampBorrower(deedId, personNumber, now));
            var again := BorrowerSignCaseOf(deeds', borrowers', deedId, personNumber, later);
            if c.complete then again.NotAwaitingBorrowers? else again.AlreadySigned?
  {
    var c := BorrowerSignCaseOf(deeds, borrowers, deedId, personNumber, now);
    var p := BorrowerMatches(deedId, personNumber);
    var f := StampBorrower(deedId, personNumber, now);
    FilterMap(borrowers, p, f);
    FilterMembers(borrowers, p);
    var stamped := Filter(Map(borrowers, f), p);
    assert stamped == Map(Filter(borrowers, p), f);
    assert stamped[0].signatureTimestamp == Some(now);
    if c.complete {
      LookupAfterSetStatus(deeds, deedId, PendingHousingCooperativeSignature);
    }
  }

  // ----- cooperative_admin_sign -----

  /** How an administrator's signing request is decided. The deed is read
      joined with its cooperative: a deed whose cooperative is missing is not
      found. */
  datatype AdminSignCase =
    | DeedOrCooperativeNotFound
    | NotAwaitingCooperative(deed: Deed)
    | WrongAdministrator(deed: Deed)
    | AdminRecorded(deed: Deed, complete: bool)

  /** The administrator person number of the deed's cooperative, compared
      with the request: a cooperative without one matches nobody. */
  predicate IsCooperativeAdministrator(coop: Cooperative, personNumber: string) {
    coop.administratorPersonNumber == Some(personNumber)
  }

  function AdminSignCaseOf(deeds: seq<Deed>, cooperatives: seq<Cooperative>, signers: seq<Signer>,
                           deedId: int, personNumber: string, now: int): (c: AdminSignCase)
    ensures c.DeedOrCooperativeNotFound? <==>
              LookupDeed(deeds, deedId).None?
              || LookupCooperative(cooperatives, LookupDeed(deeds, deedId).value.cooperativeId).None?
    ensures !c.DeedOrCooperativeNotFound? ==> c.deed == LookupDeed(deeds, deedId).value
    ensures c.WrongAdministrator? ==>
              !IsCooperativeAdministrator(LookupCooperative(cooperatives, c.deed.cooperativeId).value, personNumber)
    ensures c.AdminRecorded? <==>
              && !c.DeedOrCooperativeNotFound?
              && c.deed.status == PendingHousingCooperativeSignature
              && IsCooperativeAdministrator(LookupCooperative(cooperatives, c.deed.cooperativeId).value, personNumber)
    ensures c.AdminRecorded? ==>
              c.complete == AllSignersSigned(Map(signers, StampSigner(deedId, personNumber, now)), deedId)
  {
    match LookupDeed(deeds, deedId)
    case None => DeedOrCooperativeNotFound
    case Some(deed) =>
      match LookupCooperative(cooperatives, deed.cooperativeId)
      case None => DeedOrCooperativeNotFound
      case Some(coop) => AdminDecision(deed, coop, signers, deedId, personNumber, now)
  }

  /** The checks once the deed and its cooperative are found: the status, then the administrator. */
  function AdminDecision(deed: Deed, coop: Cooperative, signers: seq<Signer>,
                         deedId: int, personNumber: string, now: int): AdminSignCase {
    if deed.status != PendingHousingCooperativeSignature then NotAwaitingCooperative(deed)
    else if !IsCooperativeAdministrator(coop, personNumber) then WrongAdministrator(deed)
    else
      AdminRecorded(deed, AllSignersSigned(Map(signers, StampSigner(deedId, personNumber, now)), deedId))
  }

  function AdminSignLog(c: AdminSignCase, deedId: int, personNumber: string): seq<LogLine> {
    match c
    case DeedOrCooperativeNotFound => []
    case NotAwaitingCooperative(d) =>
      [LogLine(deedId, None, "ADMIN_SIGNATURE_INVALID_STATUS", d.createdBy,
               "Invalid status for administrator signature (current status: " + StatusName(d.status)
               + ") for mortgage deed " + IntToString(deedId))]
    case WrongAdministrator(d) =>
      [LogLine(deedId, None, "ADMIN_SIGNATURE_WRONG_ADMIN", d.createdBy,
               "Attempt to sign as wrong administrator with person number " + personNumber
               + " for mortgage deed " + IntToString(deedId))]
    case AdminRecorded(d, complete) =>
      [LogLine(deedId, None, "ADMINISTRATOR_SIGNED", d.createdBy,
               "Administrator " + personNumber + " signed mortgage deed " + IntToString(deedId))]
      + if complete then AdministratorsCompleteLog(d, deedId) else []
  }

  /** What cooperative_admin_sign records when the last signer has signed. */
  function AdministratorsCompleteLog(d: Deed, deedId: int): seq<LogLine> {
    [LogLine(deedId, None, "ALL_ADMINISTRATORS_SIGNED", d.createdBy,
             "All administrators have signed mortgage deed " + IntToString(deedId)),
     StatusChangeLine(deedId, Completed, d.createdBy)]
  }

  const AdminSignatureMissing := HttpError(NotFound, "Failed to fetch admin signature")

  /** The completion notification's read of the deed's administrator
      signature, as written: a `.single()` on the deed's signer rows, so no
      row or several rows is a 404. */
  function CompletionSignatureAsWritten(signers: seq<Signer>, deedId: int): (r: Result<Option<int>>)
    ensures r.Ok? <==> |Filter(signers, SignerOfDeed(deedId))| == 1
    ensures r.Err? ==> r.error == AdminSignatureMissing
  {
    match Single(Filter(signers, SignerOfDeed(deedId)))
    case None => Err(AdminSignatureMissing)
    case Some(s) => Ok(s.signatureTimestamp)
  }

  /** The same read as the notification evidently means it: the timestamp of
      the deed's one signer row, and none when there is not exactly one. */
  function CompletionSignature(signers: seq<Signer>, deedId: int): (r: Option<int>)
    ensures CompletionSignatureAsWritten(signers, deedId).Ok? ==> r == CompletionSignatureAsWritten(signers, deedId).value
    ensures CompletionSignatureAsWritten(signers, deedId).Err? ==> r.None?
  {
    match Single(Filter(signers, SignerOfDeed(deedId)))
    case None => None
    case Some(s) => s.signatureTimestamp
  }

  /** The reply to an administrator's signing request, as written: after the
      deed is COMPLETED the completion notification can still answer 404. */
  function AdminSignReplyAsWritten(c: AdminSignCase, deedId: int, signersAfter: seq<Signer>): (r: Result<SignResponse>)
    ensures c.AdminRecorded? && c.complete && CompletionSignatureAsWritten(signersAfter, deedId).Err? ==>
              r == Err(AdminSignatureMissing)
  {
    match c
    case DeedOrCooperativeNotFound => Err(DeedDetailsNotFound)
    case NotAwaitingCooperative(_) => Err(NotAwaitingCooperativeError)
    case WrongAdministrator(_) => Err(WrongAdministratorError)
    case AdminRecorded(_, complete) =>
      if !complete then
        Ok(SignResponse(deedId, PendingHousingCooperativeSignature,
                        WaitingForAdministrators))
      else if CompletionSignatureAsWritten(signersAfter, deedId).Err? then Err(AdminSignatureMissing)
      else Ok(SignResponse(deedId, Completed, AllSignaturesCollected))
  }

  /** The reply to an administrator's signing request with the completion
      notification reading the signature as `CompletionSignature` does. */
  function AdminSignReply(c: AdminSignCase, deedId: int): (r: Result<SignResponse>)
    ensures r.Ok? <==> c.AdminRecorded?
    ensures r.Ok? ==> r.value.deedId == deedId
    ensures r.Ok? ==> (r.value.status == Completed <==> c.complete)
    ensures r.Ok? && !c.complete ==> r.value.status == PendingHousingCooperativeSignature
    ensures c.NotAwaitingCooperative? ==> r.Err? && r.error.status == Conflict
    ensures c.WrongAdministrator? ==> r.Err? && r.error.status == Forbidden
    ensures c.DeedOrCooperativeNotFound? ==> r.Err? && r.error.status == NotFound
  {
    match c
    case DeedOrCooperativeNotFound => Err(DeedDetailsNotFound)
    case NotAwaitingCooperative(_) => Err(NotAwaitingCooperativeError)
    case WrongAdministrator(_) => Err(WrongAdministratorError)
    case AdminRecorded(_, complete) =>
      if !complete then
        Ok(SignResponse(deedId, PendingHousingCooperativeSignature,
                        WaitingForAdministrators))
      else Ok(SignResponse(deedId, Completed, AllSignaturesCollected))
  }

  /** As written, an administrator signing a deed that has no signer rows
      completes it (no rows: all have signed), stores COMPLETED, and is then
      answered 404 by the completion notification. */
  lemma {:induction false} AdminSignWithoutSignersAsWritten(deeds: seq<Deed>, cooperatives: seq<Cooperative>,
                                                            signers: seq<Signer>, deedId: int, personNumber: string, now: int)
    requires AdminSignCaseOf(deeds, cooperatives, signers, deedId, personNumber, now).AdminRecorded?
    requires forall i :: 0 <= i < |signers| ==> signers[i].deedId != deedId
    ensures AdminSignCaseOf(deeds, cooperatives, signers, deedId, personNumber, now).complete
    ensures AdminSignReplyAsWritten(AdminSignCaseOf(deeds, cooperatives, signers, deedId, personNumber, now), deedId,
                                    Map(signers, StampSigner(deedId, personNumber, now)))
            == Err(AdminSignatureMissing)
    ensures AdminSignReply(AdminSignCaseOf(deeds, cooperatives, signers, deedId, personNumber, now), deedId).Ok?
  {
    var after := Map(signers, StampSigner(deedId, personNumber, now));
    FilterNone(after, SignerOfDeed(deedId));
  }

  /** An unsigned signer row of the deed whose person number is not the
      cooperative's administrator's can never be stamped, so no
      administrator request completes the deed while it exists. */
  lemma OtherSignerBlocksCompletion(deeds: seq<Deed>, cooperatives: seq<Cooperative>, signers: seq<Signer>,
                                    deedId: int, personNumber: string, now: int, k: nat)
    requires k < |signers| && signers[k].deedId == deedId && signers[k].signatureTimestamp.None?
    requires LookupDeed(deeds, deedId).Some?
    requires LookupCooperative(cooperatives, LookupDeed(deeds, deedId).value.cooperativeId).Some?
    requires !IsCooperativeAdministrator(LookupCooperative(cooperatives, LookupDeed(deeds, deedId).value.cooperativeId).value,
                                         signers[k].administratorPersonNumber)
    ensures var c := AdminSignCaseOf(deeds, cooperatives, signers, deedId, personNumber, now);
            !(c.AdminRecorded? && c.complete)
  {
  }

  /** cooperative_admin_sign: records the administrator's signature while
      the deed awaits the cooperative, when the person number is the
      cooperative's administrator's; once every signer row is signed the deed
      is COMPLETED. The completion notification reads the signature as
      `CompletionSignature` does. */
  method CooperativeAdminSign(db: Database, deedId: int, request: SignRequest, now: int) returns (r: Result<SignResponse>)
    requires db.Valid()
    modifies db`deeds, db`signers, db`audit, db`nextId
    ensures db.Valid()
    ensures ValidateSignRequest(request).Err? ==>
              r == Err(ValidateSignRequest(request).error)
              && db.deeds == old(db.deeds) && db.signers == old(db.signers) && db.audit == old(db.audit)
    ensures ValidateSignRequest(request).Ok? ==>
              AdminSignDone(AdminSignCaseOf(old(db.deeds), db.cooperatives, old(db.signers), deedId, request.personNumber, now),
                            old(db.deeds), old(db.signers), old(db.audit), db.deeds, db.signers, db.audit,
                            deedId, request.personNumber, now, r)
  {
    var valid := ValidateSignRequest(request);
    if valid.Err? {
      return Err(valid.error);
    }
    var found := LookupDeed(db.deeds, deedId);
    if found.None? {
      return Err(DeedDetailsNotFound);
    }
    var coop := LookupCooperative(db.cooperatives, found.value.cooperativeId);
    if coop.None? {
      return Err(DeedDetailsNotFound);
    }
    r := SignAsAdministrator(db, deedId, found.value, coop.value, request.personNumber, now);
  }

  /** The tables and the reply after cooperative_admin_sign decided case `c`, given the tables before. */
  ghost predicate AdminSignDone(c: AdminSignCase, deeds: seq<Deed>, signers: seq<Signer>,
                                audit: seq<AuditEntry>, deeds': seq<Deed>, signers': seq<Signer>,
                                audit': seq<AuditEntry>, deedId: int, personNumber: string, now: int,
                                r: Result<SignResponse>)
  {
    && r == AdminSignReply(c, deedId)
    && signers' == (if c.AdminRecorded? then Map(signers, StampSigner(deedId, personNumber, now)) else signers)
    && deeds' == (if c.AdminRecorded? && c.complete then Map(deeds, SetStatus(deedId, Completed)) else deeds)
    && Appended(audit, audit', AdminSignLog(c, deedId, personNumber))
  }

  /** cooperative_admin_sign once the deed and its cooperative are found:
      the status check, the administrator check, then the signature. */
  method SignAsAdministrator(db: Database, deedId: int, deed: Deed, coop: Cooperative, pn: string, now: int)
    returns (r: Result<SignResponse>)
    requires db.Valid()
    modifies db`deeds, db`signers, db`audit, db`nextId
    ensures db.Valid()
    ensures AdminSignDone(AdminDecision(deed, coop, old(db.signers), deedId, pn, now),
                          old(db.deeds), old(db.signers), old(db.audit), db.deeds, db.signers, db.audit,
                          deedId, pn, now, r)
  {
    ghost var c := AdminDecision(deed, coop, db.signers, deedId, pn, now);
    if deed.status != PendingHousingCooperativeSignature {
      assert c == NotAwaitingCooperative(deed);
      LogAdminRejection(db, NotAwaitingCooperative(deed), deedId, pn, now);
      return Err(NotAwaitingCooperativeError);
    }
    if coop.administratorPersonNumber != Some(pn) {
      assert c == WrongAdministrator(deed);
      LogAdminRejection(db, WrongAdministrator(deed), deedId, pn, now);
      return Err(WrongAdministratorError);
    }
    var complete := RecordAdministratorSignature(db, deedId, deed, pn, now);
    assert c == AdminRecorded(deed, complete);
    if complete {
      return Ok(SignResponse(deedId, Completed, AllSignaturesCollected));
    }
    return Ok(SignResponse(deedId, PendingHousingCooperativeSignature, WaitingForAdministrators));
  }

  /** The audit line of a refused administrator signature. */
  method LogAdminRejection(db: Database, c: AdminSignCase, deedId: int, pn: string, now: int)
    requires db.Valid()
    requires c.NotAwaitingCooperative? || c.WrongAdministrator?
    modifies db`audit, db`nextId
    ensures db.Valid()
    ensures Appended(old(db.audit), db.audit, AdminSignLog(c, deedId, pn))
  {
    var line := AdminSignLog(c, deedId, pn)[0];
    var _ := CreateAuditLog(db, line.entityId, line.actionType, line.userId, line.description, line.deedId, now, None);
  }

  /** The last signer has signed: that is recorded and the deed is COMPLETED. */
  method CompleteAdministratorSigning(db: Database, deedId: int, deed: Deed, now: int)
    requires db.Valid()
    modifies db`deeds, db`audit, db`nextId
    ensures db.Valid()
    ensures db.deeds == Map(old(db.deeds), SetStatus(deedId, Completed))
    ensures Appended(old(db.audit), db.audit, AdministratorsCompleteLog(deed, deedId))
  {
    var all := AdministratorsCompleteLog(deed, deedId)[0];
    var _ := CreateAuditLog(db, all.entityId, all.actionType, all.userId, all.description, all.deedId, now, None);
    ghost var audit1 := db.audit;
    UpdateDeedStatus(db, deedId, Completed, deed.createdBy, now);
    AppendedTrans(old(db.audit), audit1, db.audit, [all], [StatusChangeLine(deedId, Completed, deed.createdBy)]);
    assert [all] + [StatusChangeLine(deedId, Completed, deed.createdBy)] == AdministratorsCompleteLog(deed, deedId);
  }

  /** The accepted-signature part of cooperative_admin_sign: the signer rows
      of the deed with the person number are stamped and the signature
      recorded; when no signer row of the deed is left unsigned that is
      recorded too and the deed is COMPLETED. */
  method RecordAdministratorSignature(db: Database, deedId: int, deed: Deed, personNumber: string, now: int)
    returns (complete: bool)
    requires db.Valid()
    modifies db`deeds, db`signers, db`audit, db`nextId
    ensures db.Valid()
    ensures db.signers == Map(old(db.signers), StampSigner(deedId, personNumber, now))
    ensures complete == AllSignersSigned(db.signers, deedId)
    ensures db.deeds == if complete then Map(old(db.deeds), SetStatus(deedId, Completed)) else old(db.deeds)
    ensures Appended(old(db.audit), db.audit, AdminSignLog(AdminRecorded(deed, complete), deedId, personNumber))
  {
    db.signers := Map(db.signers, StampSigner(deedId, personNumber, now));
    var signed := AdminSignLog(AdminRecorded(deed, false), deedId, personNumber)[0];
    var _ := CreateAuditLog(db, signed.entityId, signed.actionType, signed.userId, signed.description, signed.deedId, now, None);
    complete := AllSignersSigned(db.signers, deedId);
    if complete {
      ghost var audit1 := db.audit;
      CompleteAdministratorSigning(db, deedId, deed, now);
      AppendedTrans(old(db.audit), audit1, db.audit, [signed], AdministratorsCompleteLog(deed, deedId));
    } else {
      assert [signed] == AdminSignLog(AdminRecorded(deed, false), deedId, personNumber);
    }
  }

  /** The statuses a successful signing request leaves the deed in: a
      borrower signature only ever moves a deed on from
      PENDING_BORROWER_SIGNATURE to PENDING_HOUSING_COOPERATIVE_SIGNATURE,
      and an administrator signature only from there to COMPLETED. */
  lemma SigningOrder(deeds: seq<Deed>, cooperatives: seq<Cooperative>, borrowers: seq<Borrower>, signers: seq<Signer>,
                     deedId: int, personNumber: string, now: int)
    ensures BorrowerSignReply(BorrowerSignCaseOf(deeds, borrowers, deedId, personNumber, now), deedId, true).Ok? ==>
              LookupDeed(deeds, deedId).value.status == PendingBorrowerSignature
    ensures AdminSignReply(AdminSignCaseOf(deeds, cooperatives, signers, deedId, personNumber, now), deedId).Ok? ==>
              LookupDeed(deeds, deedId).value.status == PendingHousingCooperativeSignature
  {
  }
}
