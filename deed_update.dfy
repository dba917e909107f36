/** update_mortgage_deed: a partial update of a deed's own columns, and the
    replacement of its borrower list and of its cooperative signer list by
    a three-way reconciliation keyed by person number. */
module DeedUpdate {
  import opened Common
  import opened Text
  import opened Decimals
  import opened Seqs
  import opened Dicts
  import opened SupabaseUtils
  import opened DeedSchemas
  import opened Store
  import opened Audit
  import opened MortgageDeeds
  import opened Reconciliation

  const NoUpdateData := HttpError(BadRequest, "No valid update data provided")
  const UpdateFailedMessage := "Failed to update mortgage deed"
  const UpdatedDeedMessage := "Failed to fetch updated deed"

  // ----- the deed's own columns -----

  /** No column of the deed itself is given (`update_data` is empty). */
  predicate NoColumnChanges(u: MortgageDeedUpdate) {
    && u.apartmentAddress.None? && u.apartmentPostalCode.None? && u.apartmentCity.None?
    && u.apartmentNumber.None? && u.cooperativeId.None?
  }

  /** A list that is missing or empty (a falsy list). */
  predicate Blank<T>(o: Option<seq<T>>) {
    o.None? || o.value == []
  }

  /** The request changes nothing: the 400 case. An empty borrower or signer
      list alone does not count as a change. */
  predicate NothingToUpdate(u: MortgageDeedUpdate) {
    NoColumnChanges(u) && Blank(u.borrowers) && Blank(u.signers)
  }

  function Given<T>(o: Option<T>, current: T): T {
    if o.Some? then o.value else current
  }

  /** The deed row after the column update: exactly the given columns are
      written, so the id, creation time, credit number, status, bank and
      creator never change, and without any given column the row is as it was. */
  function UpdatedDeed(u: MortgageDeedUpdate, d: Deed): (r: Deed)
    ensures && r.id == d.id && r.createdAt == d.createdAt && r.creditNumber == d.creditNumber
            && r.status == d.status && r.bankId == d.bankId && r.createdBy == d.createdBy
            && r.createdByEmail == d.createdByEmail
    ensures r.apartmentAddress == if u.apartmentAddress.Some? then u.apartmentAddress.value else d.apartmentAddress
    ensures r.apartmentPostalCode == if u.apartmentPostalCode.Some? then u.apartmentPostalCode.value else d.apartmentPostalCode
    ensures r.apartmentCity == if u.apartmentCity.Some? then u.apartmentCity.value else d.apartmentCity
    ensures r.apartmentNumber == if u.apartmentNumber.Some? then u.apartmentNumber.value else d.apartmentNumber
    ensures r.cooperativeId == if u.cooperativeId.Some? then u.cooperativeId.value else d.cooperativeId
    ensures NoColumnChanges(u) ==> r == d
  {
    d.(apartmentAddress := Given(u.apartmentAddress, d.apartmentAddress),
       apartmentPostalCode := Given(u.apartmentPostalCode, d.apartmentPostalCode),
       apartmentCity := Given(u.apartmentCity, d.apartmentCity),
       apartmentNumber := Given(u.apartmentNumber, d.apartmentNumber),
       cooperativeId := Given(u.cooperativeId, d.cooperativeId))
  }

  /** The `update(...).eq('id', deed_id)` of the columns. */
  function UpdateDeedRow(deedId: int, u: MortgageDeedUpdate): Deed -> Deed {
    (d: Deed) => if d.id == deedId then UpdatedDeed(u, d) else d
  }

  /** The column update leaves the deed the only one with its id and
      rewrites it as `UpdatedDeed` says. */
  lemma LookupAfterUpdate(deeds: seq<Deed>, deedId: int, u: MortgageDeedUpdate)
    ensures LookupDeed(Map(deeds, UpdateDeedRow(deedId, u)), deedId)
            == if LookupDeed(deeds, deedId).Some? then Some(UpdatedDeed(u, LookupDeed(deeds, deedId).value)) else None
  {
    FilterMap(deeds, DeedHasId(deedId), UpdateDeedRow(deedId, u));
    FilterMembers(deeds, DeedHasId(deedId));
  }

  /** The new cooperative id names no cooperative, so the foreign key of the
      deed's cooperative refuses the column update. */
  predicate BreaksCooperativeKey(u: MortgageDeedUpdate, cooperatives: seq<Cooperative>) {
    u.cooperativeId.Some? && forall i :: 0 <= i < |cooperatives| ==> cooperatives[i].id != u.cooperativeId.value
  }

  function DeedUpdatedLine(d: Deed, userId: string): LogLine {
    LogLine(d.id, Some(d.id), "DEED_UPDATED", userId,
            "Updated mortgage deed for apartment " + d.apartmentNumber + " at " + d.apartmentAddress
            + " (credit number: " + d.creditNumber + ")")
  }

  // ----- borrowers -----

  function BorrowerKey(b: Borrower): string { b.personNumber }
  function RequestedBorrowerKey(b: BorrowerCreate): string { b.personNumber }

  /** An existing borrower needs an update when its name or its ownership
      percentage differs from the request, the percentages compared as
      numbers; a new email alone does not. */
  predicate BorrowerChanged(e: Borrower, n: BorrowerCreate) {
    e.name != n.name || Value(e.ownershipPercentage) != Value(n.ownershipPercentage)
  }

  /** The update of one requested borrower: every borrower row of the deed
      with its person number takes its name and percentage. */
  function ReviseBorrower(deedId: int): BorrowerCreate -> Borrower -> Borrower {
    (n: BorrowerCreate) => (b: Borrower) =>
      if b.deedId == deedId && b.personNumber == n.personNumber
      then b.(name := n.name, ownershipPercentage := n.ownershipPercentage)
      else b
  }

  function BorrowerDiff(borrowers: seq<Borrower>, deedId: int, requested: seq<BorrowerCreate>)
    : Diff<Borrower, BorrowerCreate>
  {
    Reconcile(Filter(borrowers, BorrowerOfDeed(deedId)), requested, BorrowerKey, RequestedBorrowerKey, BorrowerChanged)
  }

  /** One id is consumed per removal line and per update line before the
      batch insert, whose rows take consecutive ids. */
  function AddedBorrowers(d: Diff<Borrower, BorrowerCreate>, deedId: int, firstId: int): seq<Borrower> {
    BorrowerRows(d.toAdd, deedId, firstId + |d.toRemove| + |d.toUpdate|, 1)
  }

  function BorrowerRemovedLine(deedId: int, userId: string): Borrower -> LogLine {
    (b: Borrower) =>
      LogLine(b.id, Some(deedId), "BORROWER_REMOVED", userId,
              "Removed borrower " + b.name + " (person number: " + b.personNumber + ") from mortgage deed "
              + IntToString(deedId))
  }

  /** The id of the existing row the dictionary kept for a person number. */
  function ExistingId<T>(existing: seq<T>, key: T -> string, id: T -> int, k: string): int {
    if k in KeySet(existing, key) then id(LastWith(existing, key, k)) else 0
  }

  function BorrowerId(b: Borrower): int { b.id }

  /** The update line names the existing row and the requested values, the
      percentage printed from the request's `Decimal`. */
  function BorrowerUpdatedLine(existing: seq<Borrower>, deedId: int, userId: string): BorrowerCreate -> LogLine {
    (n: BorrowerCreate) =>
      LogLine(ExistingId(existing, BorrowerKey, BorrowerId, n.personNumber), Some(deedId), "BORROWER_UPDATED", userId,
              "Updated borrower " + n.name + " (person number: " + n.personNumber
              + ") with new ownership percentage: " + DecimalText(n.ownershipPercentage) + "%")
  }

  /** The table after the borrower reconciliation. */
  function ReconciledBorrowers(borrowers: seq<Borrower>, deedId: int, requested: seq<BorrowerCreate>, firstId: int)
    : seq<Borrower>
  {
    var d := BorrowerDiff(borrowers, deedId, requested);
    Applied(borrowers, KeySet(d.toRemove, BorrowerKey), d.toUpdate, AddedBorrowers(d, deedId, firstId),
            BorrowerOfDeed(deedId), BorrowerKey, ReviseBorrower(deedId))
  }

  /** The lines of the borrower reconciliation: removals, updates, additions. */
  function BorrowerLog(borrowers: seq<Borrower>, deedId: int, requested: seq<BorrowerCreate>, userId: string,
                       firstId: int): seq<LogLine>
  {
    var d := BorrowerDiff(borrowers, deedId, requested);
    Map(d.toRemove, BorrowerRemovedLine(deedId, userId))
    + Map(d.toUpdate, BorrowerUpdatedLine(Filter(borrowers, BorrowerOfDeed(deedId)), deedId, userId))
    + Map(AddedBorrowers(d, deedId, firstId), BorrowerAddedLine(userId))
  }

  function BorrowerIds(borrowers: seq<Borrower>, deedId: int, requested: seq<BorrowerCreate>): nat {
    var d := BorrowerDiff(borrowers, deedId, requested);
    |d.toRemove| + |d.toUpdate| + 2 * |d.toAdd|
  }

  lemma BorrowerRevisesByKey(deedId: int)
    ensures RevisesByKey(BorrowerOfDeed(deedId), BorrowerKey, RequestedBorrowerKey, ReviseBorrower(deedId))
  {
  }

  /** The rows a deed has and the keys of its existing borrowers agree. */
  lemma ExistingKeys<T>(rows: seq<T>, mine: T -> bool, key: T -> string)
    ensures KeySet(Filter(rows, mine), key) == RowKeys(rows, mine, key)
  {
    var e := Filter(rows, mine);
    FilterMembers(rows, mine);
    forall k | k in KeySet(e, key) ensures k in RowKeys(rows, mine, key) {
      var i :| 0 <= i < |e| && key(e[i]) == k;
      var j :| 0 <= j < |rows| && rows[j] == e[i] by { assert e[i] in rows; }
    }
    forall k | k in RowKeys(rows, mine, key) ensures k in KeySet(e, key) {
      var i :| 0 <= i < |rows| && mine(rows[i]) && key(rows[i]) == k;
      assert rows[i] in e;
      var j :| 0 <= j < |e| && e[j] == rows[i];
    }
  }

  /** The added rows carry the keys of the added requests, belong to the
      deed and are unsigned. */
  lemma AddedBorrowersKeys(d: Diff<Borrower, BorrowerCreate>, deedId: int, firstId: int)
    ensures RowKeys(AddedBorrowers(d, deedId, firstId), BorrowerOfDeed(deedId), BorrowerKey)
            == KeySet(d.toAdd, RequestedBorrowerKey)
    ensures forall a :: a in AddedBorrowers(d, deedId, firstId) ==> a.deedId == deedId && a.signatureTimestamp.None?
  {
    var added := AddedBorrowers(d, deedId, firstId);
    forall k | k in KeySet(d.toAdd, RequestedBorrowerKey) ensures k in RowKeys(added, BorrowerOfDeed(deedId), BorrowerKey) {
      var i :| 0 <= i < |d.toAdd| && d.toAdd[i].personNumber == k;
      assert added[i].personNumber == k;
    }
  }

  /** The added rows carry the keys of the added requests and belong to the deed. */
  lemma AddedSignersKeys(d: Diff<Signer, SignerCreate>, deedId: int, firstId: int)
    ensures RowKeys(AddedSigners(d, deedId, firstId), SignerOfDeed(deedId), SignerKey)
            == KeySet(d.toAdd, RequestedSignerKey)
    ensures forall a :: a in AddedSigners(d, deedId, firstId) ==> a.deedId == deedId && a.signatureTimestamp.None?
  {
    var added := AddedSigners(d, deedId, firstId);
    forall k | k in KeySet(d.toAdd, RequestedSignerKey) ensures k in RowKeys(added, SignerOfDeed(deedId), SignerKey) {
      var i :| 0 <= i < |d.toAdd| && d.toAdd[i].administratorPersonNumber == k;
      assert added[i].administratorPersonNumber == k;
    }
  }

  /** After the reconciliation the deed's borrowers carry exactly the
      requested person numbers, and the other deeds' borrowers are as they were. */
  lemma ReconciledBorrowerKeys(borrowers: seq<Borrower>, deedId: int, requested: seq<BorrowerCreate>, firstId: int)
    ensures RowKeys(ReconciledBorrowers(borrowers, deedId, requested, firstId), BorrowerOfDeed(deedId), BorrowerKey)
            == KeySet(requested, RequestedBorrowerKey)
    ensures forall b :: b in borrowers && b.deedId != deedId ==> b in ReconciledBorrowers(borrowers, deedId, requested, firstId)
    ensures forall b :: b in ReconciledBorrowers(borrowers, deedId, requested, firstId) && b.deedId != deedId ==> b in borrowers
  {
    var existing := Filter(borrowers, BorrowerOfDeed(deedId));
    var d := BorrowerDiff(borrowers, deedId, requested);
    var added := AddedBorrowers(d, deedId, firstId);
    BorrowerRevisesByKey(deedId);
    ExistingKeys(borrowers, BorrowerOfDeed(deedId), BorrowerKey);
    AddedBorrowersKeys(d, deedId, firstId);
    AppliedKeys(borrowers, existing, requested, BorrowerKey, RequestedBorrowerKey, BorrowerChanged,
                added, BorrowerOfDeed(deedId), BorrowerKey, ReviseBorrower(deedId));
    forall b | b in borrowers && b.deedId != deedId ensures b in ReconciledBorrowers(borrowers, deedId, requested, firstId) {
      AppliedKeepsRow(borrowers, existing, requested, BorrowerKey, RequestedBorrowerKey, BorrowerChanged,
                      added, BorrowerOfDeed(deedId), BorrowerKey, ReviseBorrower(deedId), b);
    }
    forall b | b in ReconciledBorrowers(borrowers, deedId, requested, firstId) && b.deedId != deedId ensures b in borrowers {
      AppliedAddsOnlyMine(borrowers, KeySet(d.toRemove, BorrowerKey), d.toUpdate, added, BorrowerOfDeed(deedId),
                          BorrowerKey, RequestedBorrowerKey, ReviseBorrower(deedId), b);
    }
  }

  /** An empty borrower list (which passes validation) removes every
      borrower of the deed. */
  lemma EmptyBorrowerListRemovesAll(borrowers: seq<Borrower>, deedId: int, firstId: int)
    ensures forall b :: b in ReconciledBorrowers(borrowers, deedId, [], firstId) ==> b.deedId != deedId
  {
    ReconciledBorrowerKeys(borrowers, deedId, [], firstId);
    var r := ReconciledBorrowers(borrowers, deedId, [], firstId);
    forall b | b in r ensures b.deedId != deedId {
      var i :| 0 <= i < |r| && r[i] == b;
      assert b.deedId == deedId ==> b.personNumber in RowKeys(r, BorrowerOfDeed(deedId), BorrowerKey);
    }
  }

  /** A borrower row has the requested name and, as a number, the requested
      ownership percentage. */
  predicate BorrowerAgrees(b: Borrower, n: BorrowerCreate) {
    b.name == n.name && Value(b.ownershipPercentage) == Value(n.ownershipPercentage)
  }

  /** Each added borrower row copies the last request with its person number. */
  lemma AddedBorrowersAgree(borrowers: seq<Borrower>, deedId: int, requested: seq<BorrowerCreate>, firstId: int)
    ensures var added := AddedBorrowers(BorrowerDiff(borrowers, deedId, requested), deedId, firstId);
            forall a :: a in added ==>
              a.personNumber in KeySet(requested, RequestedBorrowerKey)
              && BorrowerAgrees(a, LastWith(requested, RequestedBorrowerKey, a.personNumber))
  {
    ReconcileAdds(Filter(borrowers, BorrowerOfDeed(deedId)), requested, BorrowerKey, RequestedBorrowerKey, BorrowerChanged);
    BorrowerRowsAgree(BorrowerDiff(borrowers, deedId, requested), requested, deedId, firstId);
  }

  lemma BorrowerRowsAgree(d: Diff<Borrower, BorrowerCreate>, requested: seq<BorrowerCreate>, deedId: int, firstId: int)
    requires forall x :: x in d.toAdd ==>
               RequestedBorrowerKey(x) in KeySet(requested, RequestedBorrowerKey)
               && x == LastWith(requested, RequestedBorrowerKey, RequestedBorrowerKey(x))
    ensures forall a :: a in AddedBorrowers(d, deedId, firstId) ==>
              a.personNumber in KeySet(requested, RequestedBorrowerKey) && BorrowerAgrees(a, LastWith(requested, RequestedBorrowerKey, a.personNumber))
  {
    var rows := AddedBorrowers(d, deedId, firstId);
    forall a | a in rows
      ensures a.personNumber in KeySet(requested, RequestedBorrowerKey) && BorrowerAgrees(a, LastWith(requested, RequestedBorrowerKey, a.personNumber))
    {
      var i :| 0 <= i < |rows| && rows[i] == a;
      assert d.toAdd[i] in d.toAdd;
    }
  }

  /** When the deed had at most one borrower per person number, each of its
      borrowers afterwards has the name and the ownership percentage of the
      requested borrower with its person number; a newly added one also has
      the requested email and no signature. */
  lemma ReconciledBorrowersMatchRequest(borrowers: seq<Borrower>, deedId: int, requested: seq<BorrowerCreate>,
                                        firstId: int, b: Borrower)
    requires DistinctKeys(Filter(borrowers, BorrowerOfDeed(deedId)), BorrowerKey)
    requires b in ReconciledBorrowers(borrowers, deedId, requested, firstId) && b.deedId == deedId
    ensures b.personNumber in KeySet(requested, RequestedBorrowerKey)
    ensures BorrowerAgrees(b, LastWith(requested, RequestedBorrowerKey, b.personNumber))
  {
    var d := BorrowerDiff(borrowers, deedId, requested);
    var added := AddedBorrowers(d, deedId, firstId);
    BorrowerRevisesByKey(deedId);
    AddedBorrowersAgree(borrowers, deedId, requested, firstId);
    AppliedAgrees(borrowers, requested, BorrowerKey, RequestedBorrowerKey, BorrowerChanged, added,
                  BorrowerOfDeed(deedId), ReviseBorrower(deedId), BorrowerAgrees, b);
  }

  // ----- cooperative signers -----

  function SignerKey(s: Signer): string { s.administratorPersonNumber }
  function RequestedSignerKey(s: SignerCreate): string { s.administratorPersonNumber }
  function SignerId(s: Signer): int { s.id }

  /** An existing signer needs an update only when its name differs. */
  predicate SignerChanged(e: Signer, n: SignerCreate) {
    e.administratorName != n.administratorName
  }

  /** The update of one requested signer writes only the name. */
  function ReviseSigner(deedId: int): SignerCreate -> Signer -> Signer {
    (n: SignerCreate) => (s: Signer) =>
      if s.deedId == deedId && s.administratorPersonNumber == n.administratorPersonNumber
      then s.(administratorName := n.administratorName)
      else s
  }

  function SignerDiff(signers: seq<Signer>, deedId: int, requested: seq<SignerCreate>): Diff<Signer, SignerCreate> {
    Reconcile(Filter(signers, SignerOfDeed(deedId)), requested, SignerKey, RequestedSignerKey, SignerChanged)
  }

  function AddedSigners(d: Diff<Signer, SignerCreate>, deedId: int, firstId: int): seq<Signer> {
    SignerRows(d.toAdd, deedId, firstId + |d.toRemove| + |d.toUpdate|, 1)
  }

  function SignerRemovedLine(deedId: int, userId: string): Signer -> LogLine {
    (s: Signer) =>
      LogLine(s.id, Some(deedId), "COOPERATIVE_SIGNER_REMOVED", userId,
              "Removed cooperative signer " + s.administratorName + " (person number: "
              + s.administratorPersonNumber + ") from mortgage deed " + IntToString(deedId))
  }

  function SignerUpdatedLine(existing: seq<Signer>, deedId: int, userId: string): SignerCreate -> LogLine {
    (n: SignerCreate) =>
      LogLine(ExistingId(existing, SignerKey, SignerId, n.administratorPersonNumber), Some(deedId),
              "COOPERATIVE_SIGNER_UPDATED", userId,
              "Updated cooperative signer " + n.administratorName + " (person number: "
              + n.administratorPersonNumber + ")")
  }

  /** The line for a signer added by an update: its entity is the new signer row. */
  function SignerAddedLine(userId: string): Signer -> LogLine {
    (s: Signer) =>
      LogLine(s.id, Some(s.deedId), "COOPERATIVE_SIGNER_ADDED", userId,
              "Added cooperative signer " + s.administratorName + " (person number: "
              + s.administratorPersonNumber + ")")
  }

  function ReconciledSigners(signers: seq<Signer>, deedId: int, requested: seq<SignerCreate>, firstId: int): seq<Signer> {
    var d := SignerDiff(signers, deedId, requested);
    Applied(signers, KeySet(d.toRemove, SignerKey), d.toUpdate, AddedSigners(d, deedId, firstId),
            SignerOfDeed(deedId), SignerKey, ReviseSigner(deedId))
  }

  function SignerLog(signers: seq<Signer>, deedId: int, requested: seq<SignerCreate>, userId: string,
                     firstId: int): seq<LogLine>
  {
    var d := SignerDiff(signers, deedId, requested);
    Map(d.toRemove, SignerRemovedLine(deedId, userId))
    + Map(d.toUpdate, SignerUpdatedLine(Filter(signers, SignerOfDeed(deedId)), deedId, userId))
    + Map(AddedSigners(d, deedId, firstId), SignerAddedLine(userId))
  }

  function SignerIds(signers: seq<Signer>, deedId: int, requested: seq<SignerCreate>): nat {
    var d := SignerDiff(signers, deedId, requested);
    |d.toRemove| + |d.toUpdate| + 2 * |d.toAdd|
  }

  lemma SignerRevisesByKey(deedId: int)
    ensures RevisesByKey(SignerOfDeed(deedId), SignerKey, RequestedSignerKey, ReviseSigner(deedId))
  {
  }

  /** After the reconciliation the deed's signers carry exactly the
      requested person numbers, and the other deeds' signers are as they were. */
  lemma ReconciledSignerKeys(signers: seq<Signer>, deedId: int, requested: seq<SignerCreate>, firstId: int)
    ensures RowKeys(ReconciledSigners(signers, deedId, requested, firstId), SignerOfDeed(deedId), SignerKey)
            == KeySet(requested, RequestedSignerKey)
    ensures forall s :: s in signers && s.deedId != deedId ==> s in ReconciledSigners(signers, deedId, requested, firstId)
    ensures forall s :: s in ReconciledSigners(signers, deedId, requested, firstId) && s.deedId != deedId ==> s in signers
  {
    var existing := Filter(signers, SignerOfDeed(deedId));
    var d := SignerDiff(signers, deedId, requested);
    var added := AddedSigners(d, deedId, firstId);
    SignerRevisesByKey(deedId);
    ExistingKeys(signers, SignerOfDeed(deedId), SignerKey);
    AddedSignersKeys(d, deedId, firstId);
    AppliedKeys(signers, existing, requested, SignerKey, RequestedSignerKey, SignerChanged,
                added, SignerOfDeed(deedId), SignerKey, ReviseSigner(deedId));
    forall s | s in signers && s.deedId != deedId ensures s in ReconciledSigners(signers, deedId, requested, firstId) {
      AppliedKeepsRow(signers, existing, requested, SignerKey, RequestedSignerKey, SignerChanged,
                      added, SignerOfDeed(deedId), SignerKey, ReviseSigner(deedId), s);
    }
    forall s | s in ReconciledSigners(signers, deedId, requested, firstId) && s.deedId != deedId ensures s in signers {
      AppliedAddsOnlyMine(signers, KeySet(d.toRemove, SignerKey), d.toUpdate, added, SignerOfDeed(deedId),
                          SignerKey, RequestedSignerKey, ReviseSigner(deedId), s);
    }
  }

  predicate SignerAgrees(s: Signer, n: SignerCreate) {
    s.administratorName == n.administratorName
  }

  /** Each added signer row copies the last request with its person number. */
  lemma AddedSignersAgree(signers: seq<Signer>, deedId: int, requested: seq<SignerCreate>, firstId: int)
    ensures var added := AddedSigners(SignerDiff(signers, deedId, requested), deedId, firstId);
            forall a :: a in added ==>
              a.administratorPersonNumber in KeySet(requested, RequestedSignerKey)
              && SignerAgrees(a, LastWith(requested, RequestedSignerKey, a.administratorPersonNumber))
  {
    ReconcileAdds(Filter(signers, SignerOfDeed(deedId)), requested, SignerKey, RequestedSignerKey, SignerChanged);
    SignerRowsAgree(SignerDiff(signers, deedId, requested), requested, deedId, firstId);
  }

  lemma SignerRowsAgree(d: Diff<Signer, SignerCreate>, requested: seq<SignerCreate>, deedId: int, firstId: int)
    requires forall x :: x in d.toAdd ==>
               RequestedSignerKey(x) in KeySet(requested, RequestedSignerKey)
               && x == LastWith(requested, RequestedSignerKey, RequestedSignerKey(x))
    ensures forall a :: a in AddedSigners(d, deedId, firstId) ==>
              a.administratorPersonNumber in KeySet(requested, RequestedSignerKey) && SignerAgrees(a, LastWith(requested, RequestedSignerKey, a.administratorPersonNumber))
  {
    var rows := AddedSigners(d, deedId, firstId);
    forall a | a in rows
      ensures a.administratorPersonNumber in KeySet(requested, RequestedSignerKey) && SignerAgrees(a, LastWith(requested, RequestedSignerKey, a.administratorPersonNumber))
    {
      var i :| 0 <= i < |rows| && rows[i] == a;
      assert d.toAdd[i] in d.toAdd;
    }
  }

  /** When the deed had at most one signer per person number, each of its
      signers afterwards has the requested name for its person number. */
  lemma ReconciledSignersMatchRequest(signers: seq<Signer>, deedId: int, requested: seq<SignerCreate>,
                                      firstId: int, s: Signer)
    requires DistinctKeys(Filter(signers, SignerOfDeed(deedId)), SignerKey)
    requires s in ReconciledSigners(signers, deedId, requested, firstId) && s.deedId == deedId
    ensures s.administratorPersonNumber in KeySet(requested, RequestedSignerKey)
    ensures SignerAgrees(s, LastWith(requested, RequestedSignerKey, s.administratorPersonNumber))
  {
    var d := SignerDiff(signers, deedId, requested);
    var added := AddedSigners(d, deedId, firstId);
    SignerRevisesByKey(deedId);
    AddedSignersAgree(signers, deedId, requested, firstId);
    AppliedAgrees(signers, requested, SignerKey, RequestedSignerKey, SignerChanged, added,
                  SignerOfDeed(deedId), ReviseSigner(deedId), SignerAgrees, s);
  }

  // ----- the handler -----

  /** The audit helper called once per line, in order. */
  method RecordAll(db: Database, lines: seq<LogLine>, now: int)
    requires db.Valid()
    modifies db`audit, db`nextId
    ensures db.Valid()
    ensures db.nextId == old(db.nextId) + |lines|
    ensures Appended(old(db.audit), db.audit, lines)
  {
    var i := 0;
    while i < |lines|
      invariant 0 <= i <= |lines|
      invariant db.Valid()
      invariant db.nextId == old(db.nextId) + i
      invariant Appended(old(db.audit), db.audit, lines[..i])
    {
      ghost var before := db.audit;
      var l := lines[i];
      var _ := CreateAuditLog(db, l.entityId, l.actionType, l.userId, l.description, l.deedId, now, None);
      AppendedTrans(old(db.audit), before, db.audit, lines[..i], [l]);
      assert lines[..i + 1] == lines[..i] + [l];
      i := i + 1;
    }
    assert lines[..|lines|] == lines;
  }

  /** The borrower update loop: each update, then its audit line. */
  method UpdateBorrowerRows(db: Database, ups: seq<BorrowerCreate>, deedId: int, line: BorrowerCreate -> LogLine,
                            now: int)
    requires db.Valid()
    modifies db`borrowers, db`audit, db`nextId
    ensures db.Valid()
    ensures db.nextId == old(db.nextId) + |ups|
    ensures db.borrowers == ReviseAll(old(db.borrowers), ups, ReviseBorrower(deedId))
    ensures Appended(old(db.audit), db.audit, Map(ups, line))
  {
    var i := 0;
    while i < |ups|
      invariant 0 <= i <= |ups|
      invariant db.Valid()
      invariant db.nextId == old(db.nextId) + i
      invariant db.borrowers == ReviseAll(old(db.borrowers), ups[..i], ReviseBorrower(deedId))
      invariant Appended(old(db.audit), db.audit, Map(ups[..i], line))
    {
      var n := ups[i];
      db.borrowers := Map(db.borrowers, ReviseBorrower(deedId)(n));
      ghost var before := db.audit;
      var l := line(n);
      var _ := CreateAuditLog(db, l.entityId, l.actionType, l.userId, l.description, l.deedId, now, None);
      AppendedTrans(old(db.audit), before, db.audit, Map(ups[..i], line), [l]);
      PrefixSnoc(ups, i);
      MapSnoc(ups[..i], n, line);
      i := i + 1;
    }
    assert ups[..|ups|] == ups;
  }

  /** The borrower part of update: removal lines then the delete, the
      update loop, the batch insert then its lines. */
  method ReconcileBorrowerRows(db: Database, deedId: int, requested: seq<BorrowerCreate>, userId: string, now: int)
    requires db.Valid()
    modifies db`borrowers, db`audit, db`nextId
    ensures db.Valid()
    ensures db.borrowers == ReconciledBorrowers(old(db.borrowers), deedId, requested, old(db.nextId))
    ensures db.nextId == old(db.nextId) + BorrowerIds(old(db.borrowers), deedId, requested)
    ensures Appended(old(db.audit), db.audit, BorrowerLog(old(db.borrowers), deedId, requested, userId, old(db.nextId)))
  {
    var existing := Filter(db.borrowers, BorrowerOfDeed(deedId));
    var d := Reconcile(existing, requested, BorrowerKey, RequestedBorrowerKey, BorrowerChanged);
    ApplyBorrowerDiff(db, existing, d, deedId, userId, now);
  }

  /** The removal lines, the delete of the removed borrowers, then the update loop. */
  method RemoveAndReviseBorrowers(db: Database, toRemove: seq<Borrower>, ups: seq<BorrowerCreate>, deedId: int,
                              removedLine: Borrower -> LogLine, updatedLine: BorrowerCreate -> LogLine, now: int)
    requires db.Valid()
    modifies db`borrowers, db`audit, db`nextId
    ensures db.Valid()
    ensures db.borrowers == ReviseAll(Filter(old(db.borrowers), Kept(BorrowerOfDeed(deedId), BorrowerKey, KeySet(toRemove, BorrowerKey))), ups,
                                 ReviseBorrower(deedId))
    ensures db.nextId == old(db.nextId) + |toRemove| + |ups|
    ensures Appended(old(db.audit), db.audit, Map(toRemove, removedLine) + Map(ups, updatedLine))
  {
    RecordAll(db, Map(toRemove, removedLine), now);
    ghost var audit1 := db.audit;
    db.borrowers := Filter(db.borrowers, Kept(BorrowerOfDeed(deedId), BorrowerKey, KeySet(toRemove, BorrowerKey)));
    UpdateBorrowerRows(db, ups, deedId, updatedLine, now);
    AppendedTrans(old(db.audit), audit1, db.audit, Map(toRemove, removedLine), Map(ups, updatedLine));
  }

  /** The batch insert of the new borrowers, when there are any, then one line each. */
  method InsertBorrowers(db: Database, rows: seq<Borrower>, line: Borrower -> LogLine, now: int)
    requires db.Valid()
    modifies db`borrowers, db`audit, db`nextId
    ensures db.Valid()
    ensures db.borrowers == old(db.borrowers) + rows
    ensures db.nextId == old(db.nextId) + 2 * |rows|
    ensures Appended(old(db.audit), db.audit, Map(rows, line))
  {
    if rows != [] {
      db.borrowers := db.borrowers + rows;
      db.nextId := db.nextId + |rows|;
      RecordAll(db, Map(rows, line), now);
    } else {
      assert db.borrowers + rows == db.borrowers;
      assert db.audit[..|db.audit|] == db.audit;
    }
  }

  method ApplyBorrowerDiff(db: Database, existing: seq<Borrower>, d: Diff<Borrower, BorrowerCreate>, deedId: int, userId: string, now: int)
    requires db.Valid()
    modifies db`borrowers, db`audit, db`nextId
    ensures db.Valid()
    ensures db.borrowers == Applied(old(db.borrowers), KeySet(d.toRemove, BorrowerKey), d.toUpdate, AddedBorrowers(d, deedId, old(db.nextId)),
                                 BorrowerOfDeed(deedId), BorrowerKey, ReviseBorrower(deedId))
    ensures db.nextId == old(db.nextId) + |d.toRemove| + |d.toUpdate| + 2 * |d.toAdd|
    ensures Appended(old(db.audit), db.audit,
                     Map(d.toRemove, BorrowerRemovedLine(deedId, userId))
                     + Map(d.toUpdate, BorrowerUpdatedLine(existing, deedId, userId))
                     + Map(AddedBorrowers(d, deedId, old(db.nextId)), BorrowerAddedLine(userId)))
  {
    var firstId := db.nextId;
    RemoveAndReviseBorrowers(db, d.toRemove, d.toUpdate, deedId, BorrowerRemovedLine(deedId, userId),
                        BorrowerUpdatedLine(existing, deedId, userId), now);
    ghost var audit1 := db.audit;
    var rows := AddedBorrowers(d, deedId, firstId);
    InsertBorrowers(db, rows, BorrowerAddedLine(userId), now);
    AppendedTrans(old(db.audit), audit1, db.audit,
                  Map(d.toRemove, BorrowerRemovedLine(deedId, userId)) + Map(d.toUpdate, BorrowerUpdatedLine(existing, deedId, userId)),
                  Map(rows, BorrowerAddedLine(userId)));
  }


  /** The signer update loop: each update, then its audit line. */
  method UpdateSignerRows(db: Database, ups: seq<SignerCreate>, deedId: int, line: SignerCreate -> LogLine,
                          now: int)
    requires db.Valid()
    modifies db`signers, db`audit, db`nextId
    ensures db.Valid()
    ensures db.nextId == old(db.nextId) + |ups|
    ensures db.signers == ReviseAll(old(db.signers), ups, ReviseSigner(deedId))
    ensures Appended(old(db.audit), db.audit, Map(ups, line))
  {
    var i := 0;
    while i < |ups|
      invariant 0 <= i <= |ups|
      invariant db.Valid()
      invariant db.nextId == old(db.nextId) + i
      invariant db.signers == ReviseAll(old(db.signers), ups[..i], ReviseSigner(deedId))
      invariant Appended(old(db.audit), db.audit, Map(ups[..i], line))
    {
      var n := ups[i];
      db.signers := Map(db.signers, ReviseSigner(deedId)(n));
      ghost var before := db.audit;
      var l := line(n);
      var _ := CreateAuditLog(db, l.entityId, l.actionType, l.userId, l.description, l.deedId, now, None);
      AppendedTrans(old(db.audit), before, db.audit, Map(ups[..i], line), [l]);
      PrefixSnoc(ups, i);
      MapSnoc(ups[..i], n, line);
      i := i + 1;
    }
    assert ups[..|ups|] == ups;
  }

  /** The signer part of update, in the same order as the borrower part. */
  method ReconcileSignerRows(db: Database, deedId: int, requested: seq<SignerCreate>, userId: string, now: int)
    requires db.Valid()
    modifies db`signers, db`audit, db`nextId
    ensures db.Valid()
    ensures db.signers == ReconciledSigners(old(db.signers), deedId, requested, old(db.nextId))
    ensures db.nextId == old(db.nextId) + SignerIds(old(db.signers), deedId, requested)
    ensures Appended(old(db.audit), db.audit, SignerLog(old(db.signers), deedId, requested, userId, old(db.nextId)))
  {
    var existing := Filter(db.signers, SignerOfDeed(deedId));
    var d := Reconcile(existing, requested, SignerKey, RequestedSignerKey, SignerChanged);
    ApplySignerDiff(db, existing, d, deedId, userId, now);
  }

  /** The removal lines, the delete of the removed signers, then the update loop. */
  method RemoveAndReviseSigners(db: Database, toRemove: seq<Signer>, ups: seq<SignerCreate>, deedId: int,
                              removedLine: Signer -> LogLine, updatedLine: SignerCreate -> LogLine, now: int)
    requires db.Valid()
    modifies db`signers, db`audit, db`nextId
    ensures db.Valid()
    ensures db.signers == ReviseAll(Filter(old(db.signers), Kept(SignerOfDeed(deedId), SignerKey, KeySet(toRemove, SignerKey))), ups,
                                 ReviseSigner(deedId))
    ensures db.nextId == old(db.nextId) + |toRemove| + |ups|
    ensures Appended(old(db.audit), db.audit, Map(toRemove, removedLine) + Map(ups, updatedLine))
  {
    RecordAll(db, Map(toRemove, removedLine), now);
    ghost var audit1 := db.audit;
    db.signers := Filter(db.signers, Kept(SignerOfDeed(deedId), SignerKey, KeySet(toRemove, SignerKey)));
    UpdateSignerRows(db, ups, deedId, updatedLine, now);
    AppendedTrans(old(db.audit), audit1, db.audit, Map(toRemove, removedLine), Map(ups, updatedLine));
  }

  /** The batch insert of the new signers, when there are any, then one line each. */
  method InsertSigners(db: Database, rows: seq<Signer>, line: Signer -> LogLine, now: int)
    requires db.Valid()
    modifies db`signers, db`audit, db`nextId
    ensures db.Valid()
    ensures db.signers == old(db.signers) + rows
    ensures db.nextId == old(db.nextId) + 2 * |rows|
    ensures Appended(old(db.audit), db.audit, Map(rows, line))
  {
    if rows != [] {
      db.signers := db.signers + rows;
      db.nextId := db.nextId + |rows|;
      RecordAll(db, Map(rows, line), now);
    } else {
      assert db.signers + rows == db.signers;
      assert db.audit[..|db.audit|] == db.audit;
    }
  }

  method ApplySignerDiff(db: Database, existing: seq<Signer>, d: Diff<Signer, SignerCreate>, deedId: int, userId: string, now: int)
    requires db.Valid()
    modifies db`signers, db`audit, db`nextId
    ensures db.Valid()
    ensures db.signers == Applied(old(db.signers), KeySet(d.toRemove, SignerKey), d.toUpdate, AddedSigners(d, deedId, old(db.nextId)),
                                 SignerOfDeed(deedId), SignerKey, ReviseSigner(deedId))
    ensures db.nextId == old(db.nextId) + |d.toRemove| + |d.toUpdate| + 2 * |d.toAdd|
    ensures Appended(old(db.audit), db.audit,
                     Map(d.toRemove, SignerRemovedLine(deedId, userId))
                     + Map(d.toUpdate, SignerUpdatedLine(existing, deedId, userId))
                     + Map(AddedSigners(d, deedId, old(db.nextId)), SignerAddedLine(userId)))
  {
    var firstId := db.nextId;
    RemoveAndReviseSigners(db, d.toRemove, d.toUpdate, deedId, SignerRemovedLine(deedId, userId),
                        SignerUpdatedLine(existing, deedId, userId), now);
    ghost var audit1 := db.audit;
    var rows := AddedSigners(d, deedId, firstId);
    InsertSigners(db, rows, SignerAddedLine(userId), now);
    AppendedTrans(old(db.audit), audit1, db.audit,
                  Map(d.toRemove, SignerRemovedLine(deedId, userId)) + Map(d.toUpdate, SignerUpdatedLine(existing, deedId, userId)),
                  Map(rows, SignerAddedLine(userId)));
  }


  /** The ids one part of an update consumes. */
  function ColumnIds(u: MortgageDeedUpdate): nat {
    if NoColumnChanges(u) then 0 else 1
  }

  function ColumnLog(u: MortgageDeedUpdate, deed: Deed, userId: string): seq<LogLine> {
    if NoColumnChanges(u) then [] else [DeedUpdatedLine(deed, userId)]
  }

  function DeedsAfter(u: MortgageDeedUpdate, deeds: seq<Deed>, deedId: int): seq<Deed> {
    if NoColumnChanges(u) then deeds else Map(deeds, UpdateDeedRow(deedId, u))
  }

  function BorrowerPartIds(u: MortgageDeedUpdate, borrowers: seq<Borrower>, deedId: int): nat {
    if u.borrowers.Some? then BorrowerIds(borrowers, deedId, u.borrowers.value) else 0
  }

  function BorrowerPartLog(u: MortgageDeedUpdate, borrowers: seq<Borrower>, deedId: int, userId: string,
                           firstId: int): seq<LogLine>
  {
    if u.borrowers.Some? then BorrowerLog(borrowers, deedId, u.borrowers.value, userId, firstId) else []
  }

  function BorrowersAfter(u: MortgageDeedUpdate, borrowers: seq<Borrower>, deedId: int, firstId: int): seq<Borrower> {
    if u.borrowers.Some? then ReconciledBorrowers(borrowers, deedId, u.borrowers.value, firstId) else borrowers
  }

  function SignerPartLog(u: MortgageDeedUpdate, signers: seq<Signer>, deedId: int, userId: string,
                         firstId: int): seq<LogLine>
  {
    if u.signers.Some? then SignerLog(signers, deedId, u.signers.value, userId, firstId) else []
  }

  function SignersAfter(u: MortgageDeedUpdate, signers: seq<Signer>, deedId: int, firstId: int): seq<Signer> {
    if u.signers.Some? then ReconciledSigners(signers, deedId, u.signers.value, firstId) else signers
  }

  /** The tables after an update of `deed` that passed its checks: the
      columns are rewritten when any is given, each given list is
      reconciled, and the lines of the three parts are appended in order.
      The database's ids are drawn from `firstId` on; the borrower part
      starts at `bFirst` and the signer part at `sFirst`. */
  ghost predicate UpdateDone(u: MortgageDeedUpdate, deed: Deed, userId: string, firstId: int, bFirst: int, sFirst: int,
                             deeds: seq<Deed>, borrowers: seq<Borrower>, signers: seq<Signer>, audit: seq<AuditEntry>,
                             deeds': seq<Deed>, borrowers': seq<Borrower>, signers': seq<Signer>, audit': seq<AuditEntry>)
  {
    && bFirst == firstId + ColumnIds(u)
    && sFirst == bFirst + BorrowerPartIds(u, borrowers, deed.id)
    && deeds' == DeedsAfter(u, deeds, deed.id)
    && borrowers' == BorrowersAfter(u, borrowers, deed.id, bFirst)
    && signers' == SignersAfter(u, signers, deed.id, sFirst)
    && Appended(audit, audit', ColumnLog(u, deed, userId) + BorrowerPartLog(u, borrowers, deed.id, userId, bFirst)
                               + SignerPartLog(u, signers, deed.id, userId, sFirst))
  }

  method UpdateColumns(db: Database, u: MortgageDeedUpdate, deed: Deed, userId: string, now: int)
    requires db.Valid()
    modifies db`deeds, db`audit, db`nextId
    ensures db.Valid()
    ensures db.deeds == DeedsAfter(u, old(db.deeds), deed.id)
    ensures db.nextId == old(db.nextId) + ColumnIds(u)
    ensures Appended(old(db.audit), db.audit, ColumnLog(u, deed, userId))
  {
    if !NoColumnChanges(u) {
      db.deeds := Map(db.deeds, UpdateDeedRow(deed.id, u));
      var l := DeedUpdatedLine(deed, userId);
      var _ := CreateAuditLog(db, l.entityId, l.actionType, l.userId, l.description, l.deedId, now, None);
    }
  }

  /** The borrower part of update runs when the request has a borrower list. */
  method BorrowerPart(db: Database, u: MortgageDeedUpdate, deedId: int, userId: string, now: int)
    requires db.Valid()
    modifies db`borrowers, db`audit, db`nextId
    ensures db.Valid()
    ensures db.borrowers == BorrowersAfter(u, old(db.borrowers), deedId, old(db.nextId))
    ensures db.nextId == old(db.nextId) + BorrowerPartIds(u, old(db.borrowers), deedId)
    ensures Appended(old(db.audit), db.audit, BorrowerPartLog(u, old(db.borrowers), deedId, userId, old(db.nextId)))
  {
    if u.borrowers.Some? {
      ReconcileBorrowerRows(db, deedId, u.borrowers.value, userId, now);
    } else {
      assert db.audit[..|db.audit|] == db.audit;
    }
  }

  /** The signer part of update runs when the request has a signer list. */
  method SignerPart(db: Database, u: MortgageDeedUpdate, deedId: int, userId: string, now: int)
    requires db.Valid()
    modifies db`signers, db`audit, db`nextId
    ensures db.Valid()
    ensures db.signers == SignersAfter(u, old(db.signers), deedId, old(db.nextId))
    ensures Appended(old(db.audit), db.audit, SignerPartLog(u, old(db.signers), deedId, userId, old(db.nextId)))
  {
    if u.signers.Some? {
      ReconcileSignerRows(db, deedId, u.signers.value, userId, now);
    } else {
      assert db.audit[..|db.audit|] == db.audit;
    }
  }

  /** The borrower part, then the signer part, the latter drawing its ids
      from `sFirst` on. */
  method ApplyLists(db: Database, u: MortgageDeedUpdate, deedId: int, userId: string, now: int)
    returns (ghost sFirst: int)
    requires db.Valid()
    modifies db`borrowers, db`signers, db`audit, db`nextId
    ensures db.Valid()
    ensures sFirst == old(db.nextId) + BorrowerPartIds(u, old(db.borrowers), deedId)
    ensures db.borrowers == BorrowersAfter(u, old(db.borrowers), deedId, old(db.nextId))
    ensures db.signers == SignersAfter(u, old(db.signers), deedId, sFirst)
    ensures Appended(old(db.audit), db.audit, BorrowerPartLog(u, old(db.borrowers), deedId, userId, old(db.nextId))
                                              + SignerPartLog(u, old(db.signers), deedId, userId, sFirst))
  {
    BorrowerPart(db, u, deedId, userId, now);
    ghost var audit1 := db.audit;
    sFirst := db.nextId;
    SignerPart(db, u, deedId, userId, now);
    AppendedTrans(old(db.audit), audit1, db.audit, BorrowerPartLog(u, old(db.borrowers), deedId, userId, old(db.nextId)),
                  SignerPartLog(u, old(db.signers), deedId, userId, sFirst));
  }

  /** The writes of an update that passed its checks: the columns, then the
      borrowers, then the signers. */
  method ApplyUpdate(db: Database, u: MortgageDeedUpdate, deed: Deed, userId: string, now: int)
    returns (ghost bFirst: int, ghost sFirst: int)
    requires db.Valid()
    modifies db`deeds, db`borrowers, db`signers, db`audit, db`nextId
    ensures db.Valid()
    ensures UpdateDone(u, deed, userId, old(db.nextId), bFirst, sFirst, old(db.deeds), old(db.borrowers),
                       old(db.signers), old(db.audit), db.deeds, db.borrowers, db.signers, db.audit)
  {
    UpdateColumns(db, u, deed, userId, now);
    ghost var audit1 := db.audit;
    bFirst := db.nextId;
    sFirst := ApplyLists(db, u, deed.id, userId, now);
    AppendedTrans(old(db.audit), audit1, db.audit, ColumnLog(u, deed, userId),
                  BorrowerPartLog(u, old(db.borrowers), deed.id, userId, bFirst)
                  + SignerPartLog(u, old(db.signers), deed.id, userId, sFirst));
    AppendAssoc(ColumnLog(u, deed, userId), BorrowerPartLog(u, old(db.borrowers), deed.id, userId, bFirst),
                SignerPartLog(u, old(db.signers), deed.id, userId, sFirst));
  }

  /** update_mortgage_deed: the request passes validation (422), the deed
      exists (404) and the caller may access it (403), something is to be
      updated (400), and a new cooperative id names a cooperative (the
      foreign key's refusal surfaces as 500); then the writes of
      `UpdateDone` happen and the deed is read back. */
  method UpdateMortgageDeed(db: Database, deedId: int, u: MortgageDeedUpdate, caller: Caller, now: int)
    returns (r: Result<DeedView>)
    requires db.Valid()
    modifies db`deeds, db`borrowers, db`signers, db`audit, db`nextId
    ensures db.Valid()
    ensures var v := DeedWithRelations(old(db.deeds), old(db.borrowers), db.cooperatives, old(db.signers),
                                       deedId, DeedNotFoundMessage);
            if ValidateDeedUpdate(u).Err? then
              r == Err(ValidateDeedUpdate(u).error)
              && Untouched(db, old(db.deeds), old(db.borrowers), old(db.signers), old(db.audit))
            else if v.Err? then
              r == Err(v.error) && Untouched(db, old(db.deeds), old(db.borrowers), old(db.signers), old(db.audit))
            else if VerifyDeedAccess(v.value, caller).Err? then
              r == Err(VerifyDeedAccess(v.value, caller).error)
              && Untouched(db, old(db.deeds), old(db.borrowers), old(db.signers), old(db.audit))
            else if NothingToUpdate(u) then
              r == Err(NoUpdateData) && Untouched(db, old(db.deeds), old(db.borrowers), old(db.signers), old(db.audit))
            else if BreaksCooperativeKey(u, db.cooperatives) then
              r == Err(HttpError(InternalServerError, UpdateFailedMessage))
              && Untouched(db, old(db.deeds), old(db.borrowers), old(db.signers), old(db.audit))
            else
              && (exists bFirst, sFirst ::
                    UpdateDone(u, v.value.deed, caller.id, old(db.nextId), bFirst, sFirst, old(db.deeds),
                               old(db.borrowers), old(db.signers), old(db.audit),
                               db.deeds, db.borrowers, db.signers, db.audit))
              && var w := DeedWithRelations(db.deeds, db.borrowers, db.cooperatives, db.signers, deedId, UpdatedDeedMessage);
                 && w.Ok? && w.value.deed == UpdatedDeed(u, v.value.deed)
                 && r == DeedViewReply(w.value)
                 && (r.Ok? <==> v.value.deed.bankId.Some?
                                && (w.value.cooperative.Some? ==> CooperativeEmbeddable(w.value.cooperative.value)))
  {
    var valid := ValidateDeedUpdate(u);
    if valid.Err? {
      return Err(valid.error);
    }
    var v := DeedWithRelations(db.deeds, db.borrowers, db.cooperatives, db.signers, deedId, DeedNotFoundMessage);
    if v.Err? {
      return Err(v.error);
    }
    var access := VerifyDeedAccess(v.value, caller);
    if access.Err? {
      return Err(access.error);
    }
    if NothingToUpdate(u) {
      return Err(NoUpdateData);
    }
    if BreaksCooperativeKey(u, db.cooperatives) {
      return HandleOperation<DeedView>(Failed(ApiError(ForeignKeyViolationCode)), UpdateFailedMessage);
    }
    var deed := v.value.deed;
    LookupAfterUpdate(db.deeds, deedId, u);
    ghost var bFirst, sFirst := ApplyUpdate(db, u, deed, caller.id, now);
    var updated := DeedWithRelations(db.deeds, db.borrowers, db.cooperatives, db.signers, deedId, UpdatedDeedMessage);
    r := DeedViewReply(updated.value);
  }
}
