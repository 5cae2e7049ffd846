/**
  The records the incorporation processor touches: the Business it builds, the Filing
  record whose stored JSON it rewrites, the registration bootstrap, and the child
  entities. The child constructors (`create_office`, `create_party`, `create_role`,
  `create_share_class`, `aliases.update_aliases`) are opaque: each child records
  exactly the inputs it was built from.
 */
module Entities {
  import opened Wrappers
  import opened PyJson

  /** A point in time (`filing_rec.effective_date`); its formatting is a parameter. */
  datatype DateTime = DateTime(instant: int)

  /** `create_office(business, office_type, addresses)`. */
  datatype Office = Office(officeType: string, addresses: Json)

  /** `create_party(business_id=business.id, party_info=..., create=False)`. */
  datatype Party = Party(info: Json)

  /** The role dict built at lines 170-174: each value is `.get(key)` on the role, None when absent. */
  datatype RoleInfo = RoleInfo(roleType: Json, appointmentDate: Json, cessationDate: Json)

  /** `create_role(party=party, role_info=role)`. */
  datatype PartyRole = PartyRole(party: Party, role: RoleInfo)

  /** `create_share_class(share_class_info)`. */
  datatype ShareClass = ShareClass(info: Json)

  /** One `aliases.update_aliases(business, name_translations)` call. */
  datatype AliasUpdate = AliasUpdate(translations: Json)

  /** The registration bootstrap found by `filing.temp_reg`. */
  datatype Bootstrap = Bootstrap(identifier: string, account: int)

  /** The observable contents of a Business. */
  datatype BusinessState = BusinessState(
    identifier: Json,
    legalName: Json,
    legalType: Json,
    foundingDate: Option<DateTime>,
    offices: seq<Office>,
    partyRoles: seq<PartyRole>,
    shareClasses: seq<ShareClass>,
    aliases: seq<AliasUpdate>)

  /** A freshly constructed `Business()`: every attribute None, every collection empty. */
  const Blank := BusinessState(Null, Null, Null, None, [], [], [], [])

  class Business {
    var identifier: Json
    var legalName: Json
    var legalType: Json
    var foundingDate: Option<DateTime>
    var offices: seq<Office>
    var partyRoles: seq<PartyRole>
    var shareClasses: seq<ShareClass>
    var aliases: seq<AliasUpdate>

    constructor ()
      ensures State() == Blank
    {
      identifier, legalName, legalType, foundingDate := Null, Null, Null, None;
      offices, partyRoles, shareClasses, aliases := [], [], [], [];
    }

    function State(): BusinessState
      reads this
    {
      BusinessState(identifier, legalName, legalType, foundingDate, offices, partyRoles, shareClasses, aliases)
    }
  }

  /**
    The filing record: its effective date, and the stored JSON `process` rewrites. Its
    id and `temp_reg` only appear in messages and in the bootstrap lookup, which are
    inputs here.
   */
  class FilingRecord {
    const effectiveDate: DateTime
    var filingJson: Json

    constructor (effectiveDate: DateTime, filingJson: Json)
      ensures this.effectiveDate == effectiveDate && this.filingJson == filingJson
    {
      this.effectiveDate := effectiveDate;
      this.filingJson := filingJson;
    }
  }
}
