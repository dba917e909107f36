/** The database the handlers work on, held in memory: one table per entity
    (housing cooperatives, mortgage deeds, borrowers, cooperative signers,
    audit log) as a sequence of rows in table order, and the next row id. */
module Store {
  import opened Common
  import opened Seqs
  import opened DeedSchemas
  import opened Decimals

  /** A housing cooperative row. Every column an update body may set is
      nullable, since an update writes explicit nulls too. */
  datatype Cooperative = Cooperative(
    id: int,
    organisationNumber: string,
    name: Option<string>,
    address: Option<string>,
    city: Option<string>,
    postalCode: Option<string>,
    administratorCompany: Option<string>,
    administratorName: Option<string>,
    administratorPersonNumber: Option<string>,
    administratorEmail: Option<string>,
    createdBy: string)

  datatype Deed = Deed(
    id: int,
    createdAt: int,
    creditNumber: string,
    cooperativeId: int,
    apartmentAddress: string,
    apartmentPostalCode: string,
    apartmentCity: string,
    apartmentNumber: string,
    status: DeedStatus,
    bankId: Option<int>,
    createdBy: string,
    createdByEmail: string)

  /** A borrower of a deed; a null signature timestamp means unsigned. */
  datatype Borrower = Borrower(
    id: int,
    deedId: int,
    name: string,
    personNumber: string,
    email: string,
    ownershipPercentage: Decimal,
    signatureTimestamp: Option<int>)

  /** A cooperative administrator who signs a deed. */
  datatype Signer = Signer(
    id: int,
    deedId: int,
    administratorName: string,
    administratorPersonNumber: string,
    administratorEmail: string,
    signatureTimestamp: Option<int>)

  datatype AuditEntry = AuditEntry(
    id: int,
    entityId: int,
    deedId: Option<int>,
    actionType: string,
    userId: string,
    description: string,
    timestamp: int)

  /** The authenticated user as the token check hands it to a handler: the
      user id, the email, and the person number and bank id of the user's
      metadata, either of which may be missing. */
  datatype Caller = Caller(id: string, email: string, personNumber: Option<string>, bankId: Option<int>)

  /** The cooperative embedded in a deed reply (HousingCooperativeResponse of
      the deed schemas): its name, address, postal code and city are required
      strings, so a row with any of them null is refused. */
  predicate CooperativeEmbeddable(c: Cooperative) {
    c.name.Some? && c.address.Some? && c.postalCode.Some? && c.city.Some?
  }

  /** The field types MortgageDeedResponse checks in a deed row with its
      embedded cooperative: `bank_id` is a required int, and the cooperative,
      which may be absent, must be embeddable when present. */
  predicate DeedRowReplies(d: Deed, cooperative: Option<Cooperative>) {
    d.bankId.Some? && (cooperative.Some? ==> CooperativeEmbeddable(cooperative.value))
  }

  // Row selectors, the `eq(...)` filters of the queries.

  function DeedHasId(id: int): Deed -> bool { (d: Deed) => d.id == id }
  function DeedOfCooperative(cooperativeId: int): Deed -> bool { (d: Deed) => d.cooperativeId == cooperativeId }
  function CooperativeHasId(id: int): Cooperative -> bool { (c: Cooperative) => c.id == id }
  function CooperativeHasOrgNumber(org: string): Cooperative -> bool { (c: Cooperative) => c.organisationNumber == org }
  function BorrowerOfDeed(deedId: int): Borrower -> bool { (b: Borrower) => b.deedId == deedId }
  function BorrowerNotOfDeed(deedId: int): Borrower -> bool { (b: Borrower) => b.deedId != deedId }
  function BorrowerMatches(deedId: int, personNumber: string): Borrower -> bool {
    (b: Borrower) => b.deedId == deedId && b.personNumber == personNumber
  }
  function SignerOfDeed(deedId: int): Signer -> bool { (s: Signer) => s.deedId == deedId }
  function SignerNotOfDeed(deedId: int): Signer -> bool { (s: Signer) => s.deedId != deedId }
  function SignerMatches(deedId: int, personNumber: string): Signer -> bool {
    (s: Signer) => s.deedId == deedId && s.administratorPersonNumber == personNumber
  }
  function DeedNotWithId(id: int): Deed -> bool { (d: Deed) => d.id != id }
  function CooperativeNotWithOrgNumber(org: string): Cooperative -> bool { (c: Cooperative) => c.organisationNumber != org }

  /** `.single()`: the one row a query returned; none or several is the "no rows" error. */
  function Single<T>(rows: seq<T>): (r: Option<T>)
    ensures r.Some? <==> |rows| == 1
    ensures r.Some? ==> r.value == rows[0]
  {
    if |rows| == 1 then Some(rows[0]) else None
  }

  function LookupDeed(deeds: seq<Deed>, id: int): Option<Deed> {
    Single(Filter(deeds, DeedHasId(id)))
  }

  function LookupCooperative(cooperatives: seq<Cooperative>, id: int): Option<Cooperative> {
    Single(Filter(cooperatives, CooperativeHasId(id)))
  }

  function CooperativeId(c: Cooperative): int { c.id }

  // Row rewrites, the `update(...)` calls.

  function SetStatus(id: int, status: DeedStatus): Deed -> Deed {
    (d: Deed) => if d.id == id then d.(status := status) else d
  }

  /** Rewriting the status of one deed leaves that deed the only one with its id,
      now carrying the new status. */
  lemma LookupAfterSetStatus(deeds: seq<Deed>, id: int, status: DeedStatus)
    ensures LookupDeed(Map(deeds, SetStatus(id, status)), id)
            == if LookupDeed(deeds, id).Some? then Some(LookupDeed(deeds, id).value.(status := status)) else None
  {
    FilterMap(deeds, DeedHasId(id), SetStatus(id, status));
    FilterMembers(deeds, DeedHasId(id));
  }

  /** What a handler asks the audit helper to record; the row id and the
      timestamp are the database's. */
  datatype LogLine = LogLine(
    entityId: int,
    deedId: Option<int>,
    actionType: string,
    userId: string,
    description: string)

  predicate Records(e: AuditEntry, l: LogLine) {
    e.entityId == l.entityId && e.deedId == l.deedId && e.actionType == l.actionType
    && e.userId == l.userId && e.description == l.description
  }

  /** `after` is `before` followed by one entry per line of `lines`, in order. */
  predicate Appended(before: seq<AuditEntry>, after: seq<AuditEntry>, lines: seq<LogLine>) {
    && |after| == |before| + |lines|
    && after[..|before|] == before
    && forall k :: 0 <= k < |lines| ==> Records(after[|before| + k], lines[k])
  }

  /** One appended line is the entry right after the old log. */
  lemma AppendedOne(before: seq<AuditEntry>, after: seq<AuditEntry>, l: LogLine)
    requires Appended(before, after, [l])
    ensures |after| == |before| + 1 && after[..|before|] == before && Records(after[|before|], l)
  {
    assert Records(after[|before| + 0], [l][0]);
  }

  /** Three runs of appends make one. */
  lemma AppendedChain(a: seq<AuditEntry>, b: seq<AuditEntry>, c: seq<AuditEntry>, d: seq<AuditEntry>,
                      x: seq<LogLine>, y: seq<LogLine>, z: seq<LogLine>)
    requires Appended(a, b, x) && Appended(b, c, y) && Appended(c, d, z)
    ensures Appended(a, d, x + y + z)
  {
    AppendedTrans(a, b, c, x, y);
    AppendedTrans(a, c, d, x + y, z);
  }

  /** Two runs of appends make one. */
  lemma AppendedTrans(a: seq<AuditEntry>, b: seq<AuditEntry>, c: seq<AuditEntry>, x: seq<LogLine>, y: seq<LogLine>)
    requires Appended(a, b, x) && Appended(b, c, y)
    ensures Appended(a, c, x + y)
  {
    assert c[..|a|] == b[..|a|];
    forall k | 0 <= k < |x + y| ensures Records(c[|a| + k], (x + y)[k]) {
      if k < |x| {
        assert c[|a| + k] == b[|a| + k];
      } else {
        assert c[|a| + k] == c[|b| + (k - |x|)];
      }
    }
  }

  class Database {
    var cooperatives: seq<Cooperative>
    var deeds: seq<Deed>
    var borrowers: seq<Borrower>
    var signers: seq<Signer>
    var audit: seq<AuditEntry>
    var nextId: int

    /** Row ids are positive and handed out in increasing order, so the
        cooperatives table is ordered by id and no deed carries an id that
        has not been handed out yet. */
    ghost predicate Valid()
      reads this
    {
      && nextId >= 1
      && Ascending(cooperatives, CooperativeId)
      && (forall i :: 0 <= i < |cooperatives| ==> 0 < cooperatives[i].id < nextId)
      && (forall i :: 0 <= i < |deeds| ==> 0 < deeds[i].id < nextId)
    }

    constructor ()
      ensures Valid()
      ensures cooperatives == [] && deeds == [] && borrowers == [] && signers == [] && audit == []
    {
      cooperatives, deeds, borrowers, signers, audit := [], [], [], [], [];
      nextId := 1;
    }

    /** The id the database assigns to the next inserted row. */
    method FreshId() returns (id: int)
      modifies this`nextId
      ensures id == old(nextId) && nextId == id + 1
    {
      id := nextId;
      nextId := nextId + 1;
    }
  }
}
