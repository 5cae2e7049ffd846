/**
  The incorporation filing processor: `update_business_info` and `process`.

  `Incorporate` is the specification of `process`: what it raises, or the Business it
  builds and the filing JSON it stores. `Process` is the step-by-step procedure with
  the source's loops, proved to agree with it; the lemmas at the end state what the
  specification promises.
 */
module IncorporationFiling {
  import opened Wrappers
  import opened PyJson
  import opened CorpNumber
  import opened Entities

  // ---------------------------------------------------------------------------
  // update_business_info
  // ---------------------------------------------------------------------------

  const FallbackSuffix := " B.C. LTD."

  /** Python's `s[2:]`. */
  function DropTwo(s: string): string {
    if |s| >= 2 then s[2..] else []
  }

  /** The legal name: the supplied one when truthy, else the corp number without its first two characters plus " B.C. LTD.". */
  function LegalName(corpNum: string, supplied: Json): (name: Json)
    ensures Truthy(name)
    ensures Truthy(supplied) ==> name == supplied
    ensures !Truthy(supplied) ==>
      && name.Str? && |name.s| >= |FallbackSuffix|
      && name.s[|name.s| - |FallbackSuffix|..] == FallbackSuffix
      && name.s[..|name.s| - |FallbackSuffix|] == (if |corpNum| >= 2 then corpNum[2..] else "")
  {
    if Truthy(supplied) then supplied else Str(DropTwo(corpNum) + FallbackSuffix)
  }

  /** All five arguments of `update_business_info` are truthy. */
  predicate AllTruthy(corpNum: string, business: Option<BusinessState>, info: Json, filing: Json, effective: Option<DateTime>) {
    corpNum != "" && business.Some? && Truthy(info) && Truthy(filing) && effective.Some?
  }

  /**
    `update_business_info(corp_num, business, business_info, filing, filing_rec)`:
    `business` is None or the Business's state, `effective` None or the filing record's
    effective date. The result is None, the updated state, or the exception raised.
   */
  function BusinessInfo(corpNum: string, business: Option<BusinessState>, info: Json, filing: Json, effective: Option<DateTime>)
    : Result<Option<BusinessState>, PyError>
  {
    if !AllTruthy(corpNum, business, info, filing, effective) then Ok(None)
    else match Get(info, "legalName")
      case Err(e) => Err(e)
      case Ok(name) =>
        Ok(Some(business.value.(
          identifier := Str(corpNum),
          legalName := LegalName(corpNum, name),
          legalType := DictGet(info, "legalType"),
          foundingDate := effective)))
  }

  /** What `update_business_info` promises: None unless all inputs are truthy, and otherwise exactly four fields set. */
  lemma BusinessInfoOutcome(corpNum: string, business: Option<BusinessState>, info: Json, filing: Json, effective: Option<DateTime>)
    ensures BusinessInfo(corpNum, business, info, filing, effective) == Ok(None) <==> !AllTruthy(corpNum, business, info, filing, effective)
    ensures BusinessInfo(corpNum, business, info, filing, effective).Err? <==> AllTruthy(corpNum, business, info, filing, effective) && !info.Obj?
    ensures BusinessInfo(corpNum, business, info, filing, effective).Err? ==> BusinessInfo(corpNum, business, info, filing, effective).error == AttributeError
    ensures AllTruthy(corpNum, business, info, filing, effective) && info.Obj? ==>
      var s := business.value;
      BusinessInfo(corpNum, business, info, filing, effective) == Ok(Some(BusinessState(
        Str(corpNum), LegalName(corpNum, DictGet(info, "legalName")), DictGet(info, "legalType"), effective,
        s.offices, s.partyRoles, s.shareClasses, s.aliases)))
  {
  }

  /**
    The fallback name of an allocated identifier whose type has at least two letters:
    the type without its first two letters, the seven digits, then " B.C. LTD.". For a
    two-letter type that is just the digits and the suffix.
   */
  lemma FallbackNameOfAllocated(businessType: string, n: int)
    requires |businessType| >= 2 && 0 < n <= MaxCorpNum
    ensures NextCorpNum(businessType, Response(200, Ok(n))) == Ok(Some(businessType + Format07d(n)))
    ensures LegalName(businessType + Format07d(n), Null) == Str(businessType[2..] + Format07d(n) + FallbackSuffix)
    ensures LegalName(businessType + Format07d(n), Str("")) == Str(businessType[2..] + Format07d(n) + FallbackSuffix)
    ensures |businessType| == 2 ==> LegalName(businessType + Format07d(n), Null) == Str(Format07d(n) + FallbackSuffix)
  {
    Format07dOfSmall(n);
    var id := businessType + Format07d(n);
    assert id[2..] == businessType[2..] + Format07d(n);
    if |businessType| == 2 {
      assert businessType[2..] == [];
    }
  }

  /**
    The worked examples: BC1234567 with no supplied name is named "1234567 B.C. LTD.",
    BC0000042 "0000042 B.C. LTD."; the three-letter type BEN keeps its last letter, so
    BEN0000042 is named "N0000042 B.C. LTD.".
   */
  lemma FallbackNameExample()
    ensures LegalName("BC1234567", Null) == Str("1234567 B.C. LTD.")
    ensures LegalName("BEN0000042", Null) == Str("N0000042 B.C. LTD.")
    ensures LegalName("BC0000042", Null) == Str("0000042 B.C. LTD.")
  {
    assert DropTwo("BC0000042") == "0000042";
    assert "0000042" + FallbackSuffix == "0000042 B.C. LTD.";
    assert DropTwo("BC1234567") == "1234567";
    assert "1234567" + FallbackSuffix == "1234567 B.C. LTD.";
    assert DropTwo("BEN0000042") == "N0000042";
    assert "N0000042" + FallbackSuffix == "N0000042 B.C. LTD.";
  }

  method UpdateBusinessInfo(corpNum: string, business: Business?, info: Json, filing: Json, filingRec: FilingRecord?)
    returns (r: Result<Business?, PyError>)
    modifies business
    ensures var spec := BusinessInfo(corpNum, if business == null then None else Some(old(business.State())), info, filing,
                                     if filingRec == null then None else Some(filingRec.effectiveDate));
      && (spec.Err? ==> r == Err(spec.error))
      && (spec == Ok(None) ==> r == Ok(null))
      && (spec.Ok? && spec.value.Some? ==> r == Ok(business) && business != null && business.State() == spec.value.value)
    ensures business != null && (r.Err? || r == Ok(null)) ==> business.State() == old(business.State())
  {
    if corpNum != "" && business != null && Truthy(info) && Truthy(filing) && filingRec != null {
      if !info.Obj? {
        return Err(AttributeError);
      }
      var legalName := DictGet(info, "legalName");
      business.identifier := Str(corpNum);
      business.legalName := LegalName(corpNum, legalName);
      business.legalType := DictGet(info, "legalType");
      business.foundingDate := Some(filingRec.effectiveDate);
      return Ok(business);
    }
    return Ok(null);
  }

  // ---------------------------------------------------------------------------
  // The children `process` attaches
  // ---------------------------------------------------------------------------

  /** One office per `(office_type, addresses)` entry, in dict order. */
  function OfficeList(entries: seq<(string, Json)>): (offices: seq<Office>)
    ensures |offices| == |entries|
    ensures forall i :: 0 <= i < |entries| ==> offices[i] == Office(entries[i].0, entries[i].1)
  {
    if entries == [] then []
    else OfficeList(entries[..|entries| - 1]) + [Office(entries[|entries| - 1].0, entries[|entries| - 1].1)]
  }

  /** One share class per entry of `shareClasses`, in order. */
  function ShareClassList(infos: seq<Json>): (classes: seq<ShareClass>)
    ensures |classes| == |infos|
    ensures forall i :: 0 <= i < |infos| ==> classes[i] == ShareClass(infos[i])
  {
    if infos == [] then [] else ShareClassList(infos[..|infos| - 1]) + [ShareClass(infos[|infos| - 1])]
  }

  /** The role dict of lines 170-174. */
  function RoleOf(item: Json): RoleInfo
    requires item.Obj?
  {
    RoleInfo(DictGet(item, "roleType"), DictGet(item, "appointmentDate"), DictGet(item, "cessationDate"))
  }

  /** The roles of one party: one per visited item, AttributeError at the first item that is not a dict. */
  function RoleList(party: Party, items: seq<Json>): (r: Result<seq<PartyRole>, PyError>)
    ensures r.Ok? <==> forall i :: 0 <= i < |items| ==> items[i].Obj?
    ensures r.Err? ==> r.error == AttributeError
    ensures r.Ok? ==> |r.value| == |items|
    ensures r.Ok? ==> forall i :: 0 <= i < |items| ==> items[i].Obj? && r.value[i] == PartyRole(party, RoleOf(items[i]))
  {
    if items == [] then Ok([])
    else
      var init := items[..|items| - 1];
      assert forall i :: 0 <= i < |init| ==> init[i] == items[i];
      match RoleList(party, init)
      case Err(e) => Err(e)
      case Ok(prev) =>
        var last := items[|items| - 1];
        if last.Obj? then
          var roles := prev + [PartyRole(party, RoleOf(last))];
          assert forall i :: 0 <= i < |prev| ==> roles[i] == prev[i];
          Ok(roles)
        else Err(AttributeError)
  }

  /** The party roles of one `party_info` (lines 168-176). */
  function PartyRoles(partyInfo: Json): Result<seq<PartyRole>, PyError> {
    if !partyInfo.Obj? then Err(AttributeError)
    else match Iterate(DictGet(partyInfo, "roles"))
      case None => Err(TypeError)
      case Some(items) => RoleList(Party(partyInfo), items)
  }

  /** The party roles of all parties, in order; the first party that fails decides the exception. */
  function PartyRoleList(parties: seq<Json>): Result<seq<PartyRole>, PyError>
    decreases |parties|
  {
    if parties == [] then Ok([])
    else match PartyRoleList(parties[..|parties| - 1])
      case Err(e) => Err(e)
      case Ok(prev) =>
        match PartyRoles(parties[|parties| - 1])
        case Err(e) => Err(e)
        case Ok(rs) => Ok(prev + rs)
  }

  /** How many roles a party lists (0 when it lists none it can iterate). */
  function ListedRoles(partyInfo: Json): nat {
    if partyInfo.Obj? && Iterate(DictGet(partyInfo, "roles")).Some? then |Iterate(DictGet(partyInfo, "roles")).value| else 0
  }

  /** The sum over parties of the roles each lists. */
  function RoleCount(parties: seq<Json>): nat {
    if parties == [] then 0 else RoleCount(parties[..|parties| - 1]) + ListedRoles(parties[|parties| - 1])
  }

  lemma {:induction false} PartyRoleListCount(parties: seq<Json>)
    requires PartyRoleList(parties).Ok?
    ensures |PartyRoleList(parties).value| == RoleCount(parties)
    ensures forall r :: r in PartyRoleList(parties).value ==> r.party.info in parties
    decreases |parties|
  {
    if parties != [] {
      var init := parties[..|parties| - 1];
      PartyRoleListCount(init);
      var rs := PartyRoles(parties[|parties| - 1]).value;
      forall r | r in rs ensures r.party.info == parties[|parties| - 1] {
        var i :| 0 <= i < |rs| && rs[i] == r;
      }
      forall r | r in PartyRoleList(init).value ensures r.party.info in parties {
        var x := r.party.info;
        var i :| 0 <= i < |init| && init[i] == x;
        assert parties[i] == x;
      }
    }
  }

  /** Once a prefix of the parties fails, the whole list fails with the same exception. */
  lemma {:induction false} PartyRoleListErrorPersists(parties: seq<Json>, k: nat)
    requires k <= |parties| && PartyRoleList(parties[..k]).Err?
    ensures PartyRoleList(parties) == PartyRoleList(parties[..k])
    decreases |parties| - k
  {
    if k == |parties| {
      assert parties[..k] == parties;
    } else {
      assert parties[..k + 1][..k] == parties[..k];
      PartyRoleListErrorPersists(parties, k + 1);
    }
  }

  /**
    Regrouping appended sequences. `AppendAllPartyRoles` calls it so that its loop
    invariant needs one instance of the fact instead of a search through the heap.
   */
  lemma AppendAssociates<T>(a: seq<T>, b: seq<T>, c: seq<T>)
    ensures (a + b) + c == a + (b + c)
  {
  }

  /** One more party that succeeds adds its roles after those of the parties before it. */
  lemma PartySucceeds(parties: seq<Json>, k: nat)
    requires k < |parties| && PartyRoleList(parties[..k]).Ok? && PartyRoles(parties[k]).Ok?
    ensures PartyRoleList(parties[..k + 1]) == Ok(PartyRoleList(parties[..k]).value + PartyRoles(parties[k]).value)
  {
    assert parties[..k + 1][..k] == parties[..k];
    assert parties[..k + 1][k] == parties[k];
  }

  lemma PartyFails(parties: seq<Json>, k: nat)
    requires k < |parties| && PartyRoleList(parties[..k]).Ok? && PartyRoles(parties[k]).Err?
    ensures PartyRoleList(parties) == Err(PartyRoles(parties[k]).error)
  {
    assert parties[..k + 1][..k] == parties[..k];
    PartyRoleListErrorPersists(parties, k + 1);
  }

  // ---------------------------------------------------------------------------
  // process: the steps after the business is built
  // ---------------------------------------------------------------------------

  /** Lines 160-163: `offices.items()`, which raises when `offices` is missing or not a dict. */
  function OfficesStep(ia: Json): Result<seq<Office>, PyError>
    requires ia.Obj?
  {
    match Items(DictGet(ia, "offices"))
    case Err(e) => Err(e)
    case Ok(entries) => Ok(OfficeList(entries))
  }

  /** Lines 165-176: nothing when `parties` is falsy. */
  function PartiesStep(ia: Json): Result<seq<PartyRole>, PyError>
    requires ia.Obj?
  {
    var parties := DictGet(ia, "parties");
    if !Truthy(parties) then Ok([])
    else match Iterate(parties)
      case None => Err(TypeError)
      case Some(ps) => PartyRoleList(ps)
  }

  /** Lines 178-182: `incorp_filing['shareClasses']`, so a missing key raises KeyError. */
  function ShareClassesStep(ia: Json): Result<seq<ShareClass>, PyError>
    requires ia.Obj?
  {
    match Subscript(ia, "shareClasses")
    case Err(e) => Err(e)
    case Ok(sc) =>
      if !Truthy(sc) then Ok([])
      else match Iterate(sc)
        case None => Err(TypeError)
        case Some(infos) => Ok(ShareClassList(infos))
  }

  /** Lines 184-185. */
  function AliasesStep(ia: Json): seq<AliasUpdate>
    requires ia.Obj?
  {
    var translations := DictGet(ia, "nameTranslations");
    if Truthy(translations) then [AliasUpdate(translations)] else []
  }

  const BusinessPath: seq<string> := ["filing", "business"]
  const IdentifierPath: seq<string> := ["filing", "business", "identifier"]
  const FoundingDatePath: seq<string> := ["filing", "business", "foundingDate"]

  /** Lines 187-189: the deep copy of the stored JSON with the identifier and founding date written in. */
  function Finalize(filingJson: Json, identifier: Json, foundingDate: string): Result<Json, PyError> {
    match SetPath(filingJson, IdentifierPath, identifier)
    case Err(e) => Err(e)
    case Ok(j) => SetPath(j, FoundingDatePath, Str(foundingDate))
  }

  /** The two writes succeed exactly when `filing.business` is a dict. */
  lemma FinalizeSucceeds(filingJson: Json, identifier: Json, foundingDate: string)
    ensures Finalize(filingJson, identifier, foundingDate).Ok? <==>
      GetPath(filingJson, BusinessPath).Ok? && GetPath(filingJson, BusinessPath).value.Obj?
  {
    assert IdentifierPath == BusinessPath + ["identifier"];
    assert FoundingDatePath == BusinessPath + ["foundingDate"];
    TwoWritesSucceed(filingJson, BusinessPath, "identifier", "foundingDate", identifier, Str(foundingDate));
  }

  /**
    The stored JSON differs from the original in exactly the two fields: they read the
    identifier and the founding date, and every path that parts from both reads as before.
   */
  lemma FinalizeEffect(filingJson: Json, identifier: Json, foundingDate: string, p: seq<string>)
    requires Finalize(filingJson, identifier, foundingDate).Ok?
    ensures GetPath(Finalize(filingJson, identifier, foundingDate).value, IdentifierPath) == Ok(identifier)
    ensures GetPath(Finalize(filingJson, identifier, foundingDate).value, FoundingDatePath) == Ok(Str(foundingDate))
    ensures Diverge(p, IdentifierPath) && Diverge(p, FoundingDatePath) ==>
      GetPath(Finalize(filingJson, identifier, foundingDate).value, p) == GetPath(filingJson, p)
  {
    assert IdentifierPath == BusinessPath + ["identifier"];
    assert FoundingDatePath == BusinessPath + ["foundingDate"];
    TwoWritesEffect(filingJson, BusinessPath, "identifier", "foundingDate", identifier, Str(foundingDate), p);
  }

  // ---------------------------------------------------------------------------
  // process
  // ---------------------------------------------------------------------------

  /** The QueueExceptions `process` raises, and any other exception that escapes it. */
  datatype ProcessError =
    | MissingIncorporationApplication
    | BusinessAlreadyExists
    | NoRegistrationNumber
    | UnableToCreateBusiness
    | Crashed(error: PyError)

  /** What a successful `process` leaves: the Business and the filing record's new JSON. */
  datatype Incorporation = Incorporation(business: BusinessState, filingJson: Json)

  /** Lines 160-191 on the built business. */
  function Attach(b: BusinessState, ia: Json, filingJson: Json, foundingDate: string): Result<Incorporation, ProcessError>
    requires ia.Obj?
  {
    match OfficesStep(ia)
    case Err(e) => Err(Crashed(e))
    case Ok(offices) =>
      match PartiesStep(ia)
      case Err(e) => Err(Crashed(e))
      case Ok(roles) =>
        match ShareClassesStep(ia)
        case Err(e) => Err(Crashed(e))
        case Ok(classes) =>
          var built := b.(offices := b.offices + offices, partyRoles := b.partyRoles + roles,
                          shareClasses := b.shareClasses + classes, aliases := b.aliases + AliasesStep(ia));
          match Finalize(filingJson, built.identifier, foundingDate)
          case Err(e) => Err(Crashed(e))
          case Ok(j) => Ok(Incorporation(built, j))
  }

  /** Lines 155-191: a new Business filled in by `update_business_info`, then its children and the filing JSON. */
  function Build(corpNum: string, ia: Json, info: Json, effective: DateTime, filingJson: Json, isoformat: DateTime -> string)
    : Result<Incorporation, ProcessError>
    requires ia.Obj?
  {
    match BusinessInfo(corpNum, Some(Blank), info, ia, Some(effective))
    case Err(e) => Err(Crashed(e))
    case Ok(None) => Err(UnableToCreateBusiness)
    case Ok(Some(b)) => Attach(b, ia, filingJson, isoformat(effective))
  }

  /**
    `process(business, filing, filing_rec)`: `businessExists` says whether a business was
    passed, `reply` is what the allocator answers, `effective` and `filingJson` are the
    filing record's effective date and stored JSON, `isoformat` formats a date.
   */
  function Incorporate(businessExists: bool, filing: Json, reply: AllocatorReply, effective: DateTime, filingJson: Json,
                       isoformat: DateTime -> string): Result<Incorporation, ProcessError>
  {
    match Get(filing, "incorporationApplication")
    case Err(e) => Err(Crashed(e))
    case Ok(ia) =>
      if !Truthy(ia) then Err(MissingIncorporationApplication)
      else if businessExists then Err(BusinessAlreadyExists)
      else match Get(ia, "nameRequest")
        case Err(e) => Err(Crashed(e))
        case Ok(info) =>
          match Subscript(info, "legalType")
          case Err(e) => Err(Crashed(e))
          case Ok(legalType) =>
            if !legalType.Str? then Err(Crashed(TypeError))
            else match NextCorpNum(legalType.s, reply)
              case Err(e) => Err(Crashed(e))
              case Ok(corpNum) =>
                if corpNum.None? || corpNum.value == "" then Err(NoRegistrationNumber)
                else Build(corpNum.value, ia, info, effective, filingJson, isoformat)
  }

  /** The business type `process` asks the allocator for, if it gets that far. */
  function AllocatorRequest(businessExists: bool, filing: Json): Option<string> {
    match Get(filing, "incorporationApplication")
    case Err(_) => None
    case Ok(ia) =>
      if !Truthy(ia) || businessExists then None
      else match Get(ia, "nameRequest")
        case Err(_) => None
        case Ok(info) =>
          match Subscript(info, "legalType")
          case Err(_) => None
          case Ok(legalType) => if legalType.Str? then Some(legalType.s) else None
  }

  /** `aliases.update_aliases(business, name_translations)`, opaque: it records the translations. */
  method UpdateAliases(business: Business, translations: Json)
    modifies business
    ensures business.State() == old(business.State()).(aliases := old(business.aliases) + [AliasUpdate(translations)])
  {
    business.aliases := business.aliases + [AliasUpdate(translations)];
  }


  /** Lines 160-163: appends one office per entry of `offices`, or returns the exception raised. */
  method AttachOffices(b: Business, ia: Json) returns (raised: Option<PyError>)
    requires ia.Obj?
    modifies b
    ensures OfficesStep(ia).Err? ==> raised == Some(OfficesStep(ia).error)
    ensures OfficesStep(ia).Ok? ==> raised == None && b.State() == old(b.State()).(offices := old(b.offices) + OfficesStep(ia).value)
  {
    var offices := Items(DictGet(ia, "offices"));
    if offices.Err? {
      return Some(offices.error);
    }
    var entries := offices.value;
    ghost var base := b.State();
    var i := 0;
    while i < |entries|
      invariant 0 <= i <= |entries|
      invariant b.State() == base.(offices := base.offices + OfficeList(entries[..i]))
    {
      assert entries[..i + 1][..i] == entries[..i];
      b.offices := b.offices + [Office(entries[i].0, entries[i].1)];
      i := i + 1;
    }
    assert entries[..i] == entries;
    return None;
  }

  /** Lines 169-176 for one party: appends one role per item, or AttributeError at the first item that is not a dict. */
  method AppendRoles(b: Business, party: Party, items: seq<Json>) returns (raised: Option<PyError>)
    modifies b
    ensures RoleList(party, items).Err? ==> raised == Some(AttributeError)
    ensures RoleList(party, items).Ok? ==> raised == None && b.State() == old(b.State()).(partyRoles := old(b.partyRoles) + RoleList(party, items).value)
  {
    ghost var base := b.State();
    var j := 0;
    while j < |items|
      invariant 0 <= j <= |items|
      invariant RoleList(party, items[..j]).Ok?
      invariant b.State() == base.(partyRoles := base.partyRoles + RoleList(party, items[..j]).value)
    {
      assert items[..j + 1][..j] == items[..j];
      var item := items[j];
      if !item.Obj? {
        assert !RoleList(party, items).Ok?;
        return Some(AttributeError);
      }
      var role := RoleInfo(DictGet(item, "roleType"), DictGet(item, "appointmentDate"), DictGet(item, "cessationDate"));
      b.partyRoles := b.partyRoles + [PartyRole(party, role)];
      j := j + 1;
    }
    assert items[..j] == items;
    return None;
  }

  /** Lines 167-176 for one `party_info`: appends its roles, or returns the exception raised. */
  method AppendPartyRoles(b: Business, partyInfo: Json) returns (raised: Option<PyError>)
    modifies b
    ensures PartyRoles(partyInfo).Err? ==> raised == Some(PartyRoles(partyInfo).error)
    ensures PartyRoles(partyInfo).Ok? ==> raised == None && b.State() == old(b.State()).(partyRoles := old(b.partyRoles) + PartyRoles(partyInfo).value)
  {
    if !partyInfo.Obj? {
      return Some(AttributeError);
    }
    var party := Party(partyInfo);
    var roles := Iterate(DictGet(partyInfo, "roles"));
    if roles.None? {
      return Some(TypeError);
    }
    raised := AppendRoles(b, party, roles.value);
  }

  /** The loop of lines 167-176 over the visited parties: appends all their roles, or returns the first exception. */
  method AppendAllPartyRoles(b: Business, ps: seq<Json>) returns (raised: Option<PyError>)
    modifies b
    ensures PartyRoleList(ps).Err? ==> raised == Some(PartyRoleList(ps).error)
    ensures PartyRoleList(ps).Ok? ==> raised == None && b.State() == old(b.State()).(partyRoles := old(b.partyRoles) + PartyRoleList(ps).value)
  {
    ghost var base := b.State();
    ghost var roles: seq<PartyRole> := [];
    var k := 0;
    while k < |ps|
      invariant 0 <= k <= |ps|
      invariant PartyRoleList(ps[..k]) == Ok(roles)
      invariant b.partyRoles == base.partyRoles + roles
      invariant b.State() == base.(partyRoles := b.partyRoles)
    {
      var partyRaised := AppendPartyRoles(b, ps[k]);
      if partyRaised.Some? {
        PartyFails(ps, k);
        return partyRaised;
      }
      PartySucceeds(ps, k);
      AppendAssociates(base.partyRoles, roles, PartyRoles(ps[k]).value);
      roles := roles + PartyRoles(ps[k]).value;
      k := k + 1;
    }
    assert ps[..k] == ps;
    return None;
  }

  /** Lines 165-176: appends the roles of every party, or returns the exception raised. */
  method AttachPartyRoles(b: Business, ia: Json) returns (raised: Option<PyError>)
    requires ia.Obj?
    modifies b
    ensures PartiesStep(ia).Err? ==> raised == Some(PartiesStep(ia).error)
    ensures PartiesStep(ia).Ok? ==> raised == None && b.State() == old(b.State()).(partyRoles := old(b.partyRoles) + PartiesStep(ia).value)
  {
    var parties := DictGet(ia, "parties");
    if !Truthy(parties) {
      return None;
    }
    var iterated := Iterate(parties);
    if iterated.None? {
      return Some(TypeError);
    }
    raised := AppendAllPartyRoles(b, iterated.value);
  }

  /** Lines 178-182: appends one share class per entry of `shareClasses`, or returns the exception raised. */
  method AttachShareClasses(b: Business, ia: Json) returns (raised: Option<PyError>)
    requires ia.Obj?
    modifies b
    ensures ShareClassesStep(ia).Err? ==> raised == Some(ShareClassesStep(ia).error)
    ensures ShareClassesStep(ia).Ok? ==> raised == None && b.State() == old(b.State()).(shareClasses := old(b.shareClasses) + ShareClassesStep(ia).value)
  {
    var shareClasses := Subscript(ia, "shareClasses");
    if shareClasses.Err? {
      return Some(shareClasses.error);
    }
    if !Truthy(shareClasses.value) {
      return None;
    }
    var iterated := Iterate(shareClasses.value);
    if iterated.None? {
      return Some(TypeError);
    }
    var infos := iterated.value;
    ghost var base := b.State();
    var m := 0;
    while m < |infos|
      invariant 0 <= m <= |infos|
      invariant b.State() == base.(shareClasses := base.shareClasses + ShareClassList(infos[..m]))
    {
      assert infos[..m + 1][..m] == infos[..m];
      b.shareClasses := b.shareClasses + [ShareClass(infos[m])];
      m := m + 1;
    }
    assert infos[..m] == infos;
    return None;
  }

  /** Lines 187-190: writes the identifier and founding date into a copy of the stored JSON and stores it. */
  method StoreFilingJson(filingRec: FilingRecord, identifier: Json, foundingDate: string) returns (raised: Option<PyError>)
    modifies filingRec
    ensures var spec := Finalize(old(filingRec.filingJson), identifier, foundingDate);
      && (spec.Err? ==> raised == Some(spec.error) && filingRec.filingJson == old(filingRec.filingJson))
      && (spec.Ok? ==> raised == None && filingRec.filingJson == spec.value)
  {
    var iaJson := filingRec.filingJson;
    var withIdentifier := SetPath(iaJson, IdentifierPath, identifier);
    if withIdentifier.Err? {
      return Some(withIdentifier.error);
    }
    var withDate := SetPath(withIdentifier.value, FoundingDatePath, Str(foundingDate));
    if withDate.Err? {
      return Some(withDate.error);
    }
    filingRec.filingJson := withDate.value;
    return None;
  }

  /** Lines 160-191 on the business `update_business_info` filled in. */
  method AttachAll(b: Business, ia: Json, filingRec: FilingRecord, foundingDate: string)
    returns (result: Result<Business, ProcessError>)
    requires ia.Obj?
    modifies b, filingRec
    ensures var spec := Attach(old(b.State()), ia, old(filingRec.filingJson), foundingDate);
      && (spec.Ok? ==> result == Ok(b) && b.State() == spec.value.business && filingRec.filingJson == spec.value.filingJson)
      && (spec.Err? ==> result == Err(spec.error) && filingRec.filingJson == old(filingRec.filingJson))
  {
    var officesDone := AttachOffices(b, ia);
    if officesDone.Some? {
      return Err(Crashed(officesDone.value));
    }
    var rolesDone := AttachPartyRoles(b, ia);
    if rolesDone.Some? {
      return Err(Crashed(rolesDone.value));
    }
    var classesDone := AttachShareClasses(b, ia);
    if classesDone.Some? {
      return Err(Crashed(classesDone.value));
    }

    var translations := DictGet(ia, "nameTranslations");
    if Truthy(translations) {
      UpdateAliases(b, translations);
    }

    var stored := StoreFilingJson(filingRec, b.identifier, foundingDate);
    if stored.Some? {
      return Err(Crashed(stored.value));
    }
    return Ok(b);
  }

  /** Lines 155-191, once the corp number is allocated. */
  method BuildBusiness(corp: string, ia: Json, info: Json, filingRec: FilingRecord, isoformat: DateTime -> string)
    returns (result: Result<Business, ProcessError>)
    requires corp != "" && ia.Obj? && Truthy(ia)
    modifies filingRec
    ensures var spec := Build(corp, ia, info, filingRec.effectiveDate, old(filingRec.filingJson), isoformat);
      && (spec.Ok? ==> result.Ok? && fresh(result.value) && result.value.State() == spec.value.business
                       && filingRec.filingJson == spec.value.filingJson)
      && (spec.Err? ==> result == Err(spec.error) && filingRec.filingJson == old(filingRec.filingJson))
  {
    var b := new Business();
    var built := UpdateBusinessInfo(corp, b, info, ia, filingRec);
    if built.Err? {
      return Err(Crashed(built.error));
    }
    if built.value == null {
      return Err(UnableToCreateBusiness);
    }
    result := AttachAll(b, ia, filingRec, isoformat(b.foundingDate.value));
  }

  /**
    `process(business, filing, filing_rec)` step by step; `requested` is the business type
    sent to the allocator, None when the guards raise first.
   */
  method Process(business: Business?, filing: Json, filingRec: FilingRecord, reply: AllocatorReply, isoformat: DateTime -> string)
    returns (result: Result<Business, ProcessError>, requested: Option<string>)
    modifies filingRec
    ensures requested == AllocatorRequest(business != null, filing)
    ensures var spec := Incorporate(business != null, filing, reply, filingRec.effectiveDate, old(filingRec.filingJson), isoformat);
      && (spec.Ok? ==> result.Ok? && fresh(result.value) && result.value.State() == spec.value.business
                       && filingRec.filingJson == spec.value.filingJson)
      && (spec.Err? ==> result == Err(spec.error) && filingRec.filingJson == old(filingRec.filingJson))
  {
    requested := None;
    var iaGet := Get(filing, "incorporationApplication");
    if iaGet.Err? {
      return Err(Crashed(iaGet.error)), requested;
    }
    var ia := iaGet.value;
    if !Truthy(ia) {
      return Err(MissingIncorporationApplication), requested;
    }
    if business != null {
      return Err(BusinessAlreadyExists), requested;
    }

    var infoGet := Get(ia, "nameRequest");
    if infoGet.Err? {
      return Err(Crashed(infoGet.error)), requested;
    }
    var info := infoGet.value;
    var legalType := Subscript(info, "legalType");
    if legalType.Err? {
      return Err(Crashed(legalType.error)), requested;
    }
    if !legalType.value.Str? {
      return Err(Crashed(TypeError)), requested;
    }
    requested := Some(legalType.value.s);
    var corpNum := NextCorpNum(legalType.value.s, reply);
    if corpNum.Err? {
      return Err(Crashed(corpNum.error)), requested;
    }
    if corpNum.value.None? || corpNum.value.value == "" {
      return Err(NoRegistrationNumber), requested;
    }
    var corp := corpNum.value.value;

    result := BuildBusiness(corp, ia, info, filingRec, isoformat);
  }

}
