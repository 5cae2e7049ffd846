/** What `process` promises, stated about its specification `Incorporate`. */
module IncorporationProperties {
  import opened Wrappers
  import opened PyJson
  import opened CorpNumber
  import opened Entities
  import opened IncorporationFiling

  /** `j.get(k)` when `j` is a dict, None otherwise: names the sections of a filing. */
  function Section(j: Json, k: string): Json {
    if j.Obj? then DictGet(j, k) else Null
  }

  /** The allocation succeeded: `process` reaches `update_business_info` with this identifier. */
  predicate Allocated(filing: Json, reply: AllocatorReply) {
    && AllocatorRequest(false, filing).Some?
    && NextCorpNum(AllocatorRequest(false, filing).value, reply).Ok?
    && NextCorpNum(AllocatorRequest(false, filing).value, reply).value.Some?
  }

  /** Once a number is allocated, `process` is the build of lines 155-191 with that number. */
  lemma IncorporateAfterAllocation(filing: Json, reply: AllocatorReply, effective: DateTime, filingJson: Json,
                                   isoformat: DateTime -> string)
    requires Allocated(filing, reply)
    ensures var ia := Section(filing, "incorporationApplication");
      && ia.Obj? && Truthy(ia) && Section(ia, "nameRequest").Obj? && Truthy(Section(ia, "nameRequest"))
      && NextCorpNum(AllocatorRequest(false, filing).value, reply).value.value != ""
      && Incorporate(false, filing, reply, effective, filingJson, isoformat)
         == Build(NextCorpNum(AllocatorRequest(false, filing).value, reply).value.value, ia, Section(ia, "nameRequest"),
                  effective, filingJson, isoformat)
  {
    IdentifierHasTypePrefix(AllocatorRequest(false, filing).value, reply);
  }

  /** Attaching the children only ever fails with an exception that escapes. */
  lemma AttachOnlyCrashes(b: BusinessState, ia: Json, filingJson: Json, foundingDate: string)
    requires ia.Obj?
    ensures Attach(b, ia, filingJson, foundingDate).Err? ==> Attach(b, ia, filingJson, foundingDate).error.Crashed?
  {
  }

  /** The build fails only with an escaping exception or "Unable to create business". */
  lemma BuildErrors(corpNum: string, ia: Json, info: Json, effective: DateTime, filingJson: Json, isoformat: DateTime -> string)
    requires ia.Obj?
    ensures var r := Build(corpNum, ia, info, effective, filingJson, isoformat);
      r.Err? ==> r.error.Crashed? || r.error == UnableToCreateBusiness
  {
    var bi := BusinessInfo(corpNum, Some(Blank), info, ia, Some(effective));
    if bi.Ok? && bi.value.Some? {
      AttachOnlyCrashes(bi.value.value, ia, filingJson, isoformat(effective));
    }
  }

  /**
    Lines 141-146: a missing or empty `incorporationApplication`, or a business already
    passed in, raises before the allocator is asked for a number; and these are the only
    ways to get those two errors.
   */
  lemma GuardsRaiseBeforeAllocation(businessExists: bool, filing: Json, reply: AllocatorReply, effective: DateTime,
                                    filingJson: Json, isoformat: DateTime -> string)
    ensures Incorporate(businessExists, filing, reply, effective, filingJson, isoformat) == Err(MissingIncorporationApplication)
      <==> filing.Obj? && !Truthy(Section(filing, "incorporationApplication"))
    ensures Incorporate(businessExists, filing, reply, effective, filingJson, isoformat) == Err(BusinessAlreadyExists)
      <==> filing.Obj? && Truthy(Section(filing, "incorporationApplication")) && businessExists
    ensures filing.Obj? && (!Truthy(Section(filing, "incorporationApplication")) || businessExists) ==>
      AllocatorRequest(businessExists, filing) == None
  {
    if !businessExists && Allocated(filing, reply) {
      IncorporateAfterAllocation(filing, reply, effective, filingJson, isoformat);
      var ia := DictGet(filing, "incorporationApplication");
      var corp := NextCorpNum(AllocatorRequest(false, filing).value, reply).value.value;
      BuildErrors(corp, ia, DictGet(ia, "nameRequest"), effective, filingJson, isoformat);
    }
  }

  /** Lines 150-152: the filing fails exactly when the allocator gives no identifier. */
  lemma NoIdentifierRaises(filing: Json, reply: AllocatorReply, effective: DateTime, filingJson: Json, isoformat: DateTime -> string)
    requires AllocatorRequest(false, filing).Some?
    ensures Incorporate(false, filing, reply, effective, filingJson, isoformat) == Err(NoRegistrationNumber)
      <==> NextCorpNum(AllocatorRequest(false, filing).value, reply) == Ok(None)
  {
    if Allocated(filing, reply) {
      IncorporateAfterAllocation(filing, reply, effective, filingJson, isoformat);
      var ia := DictGet(filing, "incorporationApplication");
      var corp := NextCorpNum(AllocatorRequest(false, filing).value, reply).value.value;
      BuildErrors(corp, ia, DictGet(ia, "nameRequest"), effective, filingJson, isoformat);
    }
  }

  /**
    The guard at lines 157-158 never fires inside `process`: the corp number, the fresh
    Business, the name request (a dict holding `legalType`), the application and the
    filing record are all truthy there.
   */
  lemma NeverUnableToCreateBusiness(businessExists: bool, filing: Json, reply: AllocatorReply, effective: DateTime,
                                    filingJson: Json, isoformat: DateTime -> string)
    ensures Incorporate(businessExists, filing, reply, effective, filingJson, isoformat) != Err(UnableToCreateBusiness)
  {
    if !businessExists && Allocated(filing, reply) {
      IncorporateAfterAllocation(filing, reply, effective, filingJson, isoformat);
      var ia := DictGet(filing, "incorporationApplication");
      var info := DictGet(ia, "nameRequest");
      var corp := NextCorpNum(AllocatorRequest(false, filing).value, reply).value.value;
      BusinessInfoOutcome(corp, Some(Blank), info, ia, Some(effective));
      var b := BusinessInfo(corp, Some(Blank), info, ia, Some(effective)).value.value;
      AttachOnlyCrashes(b, ia, filingJson, isoformat(effective));
    }
  }

  /** The state `update_business_info` leaves on a fresh Business inside `process`. */
  function Founded(corpNum: string, info: Json, effective: DateTime): BusinessState
    requires info.Obj?
  {
    Blank.(identifier := Str(corpNum), legalName := LegalName(corpNum, DictGet(info, "legalName")),
           legalType := DictGet(info, "legalType"), foundingDate := Some(effective))
  }

  /** A successful `process` passed every guard and then attached the children to the founded state. */
  lemma IncorporateReachesAttach(businessExists: bool, filing: Json, reply: AllocatorReply, effective: DateTime,
                                 filingJson: Json, isoformat: DateTime -> string)
    requires Incorporate(businessExists, filing, reply, effective, filingJson, isoformat).Ok?
    ensures !businessExists && filing.Obj? && AllocatorRequest(businessExists, filing).Some?
    ensures var ia := DictGet(filing, "incorporationApplication");
            var t := AllocatorRequest(businessExists, filing).value;
      && ia.Obj? && Truthy(ia) && DictGet(ia, "nameRequest").Obj?
      && NextCorpNum(t, reply).Ok? && NextCorpNum(t, reply).value.Some?
      && Incorporate(businessExists, filing, reply, effective, filingJson, isoformat)
         == Attach(Founded(NextCorpNum(t, reply).value.value, DictGet(ia, "nameRequest"), effective), ia, filingJson, isoformat(effective))
  {
    var ia := DictGet(filing, "incorporationApplication");
    var info := DictGet(ia, "nameRequest");
    var t := AllocatorRequest(businessExists, filing).value;
    var corp := NextCorpNum(t, reply).value.value;
    BusinessInfoOutcome(corp, Some(Blank), info, ia, Some(effective));
  }

  /** What a successful `Attach` adds: the three step results, the aliases, and the finalized JSON. */
  lemma AttachOutcome(b: BusinessState, ia: Json, filingJson: Json, foundingDate: string)
    requires ia.Obj? && Attach(b, ia, filingJson, foundingDate).Ok?
    ensures OfficesStep(ia).Ok? && PartiesStep(ia).Ok? && ShareClassesStep(ia).Ok?
    ensures Finalize(filingJson, b.identifier, foundingDate).Ok?
    ensures Attach(b, ia, filingJson, foundingDate).value == Incorporation(
      b.(offices := b.offices + OfficesStep(ia).value, partyRoles := b.partyRoles + PartiesStep(ia).value,
         shareClasses := b.shareClasses + ShareClassesStep(ia).value, aliases := b.aliases + AliasesStep(ia)),
      Finalize(filingJson, b.identifier, foundingDate).value)
  {
  }

  /**
    Lines 148-161: a successful filing got a 200 reply with 0 < n <= 9999999 (or, as
    written, a negative n), and the business has identifier `legalType + f'{n:07d}'`,
    legal type `legalType`, founding date the effective date, and the legal name rule.
   */
  lemma IncorporatedBusiness(businessExists: bool, filing: Json, reply: AllocatorReply, effective: DateTime,
                             filingJson: Json, isoformat: DateTime -> string)
    requires Incorporate(businessExists, filing, reply, effective, filingJson, isoformat).Ok?
    ensures !businessExists && AllocatorRequest(businessExists, filing).Some?
    ensures reply.Response? && reply.status == 200 && reply.corpNum.Ok?
    ensures reply.corpNum.value != 0 && reply.corpNum.value <= MaxCorpNum
    ensures var t := AllocatorRequest(businessExists, filing).value;
            var id := t + Format07d(reply.corpNum.value);
            var b := Incorporate(businessExists, filing, reply, effective, filingJson, isoformat).value.business;
      && b.identifier == Str(id)
      && b.legalType == Str(t)
      && b.foundingDate == Some(effective)
      && b.legalName == LegalName(id, Section(Section(Section(filing, "incorporationApplication"), "nameRequest"), "legalName"))
  {
    IncorporateReachesAttach(businessExists, filing, reply, effective, filingJson, isoformat);
    var ia := DictGet(filing, "incorporationApplication");
    var info := DictGet(ia, "nameRequest");
    var t := AllocatorRequest(businessExists, filing).value;
    var corp := NextCorpNum(t, reply).value.value;
    AttachOutcome(Founded(corp, info, effective), ia, filingJson, isoformat(effective));
  }

  /** Lines 160-163: one office per entry of `offices`, which a successful filing had as a dict (no None guard). */
  lemma IncorporatedOffices(businessExists: bool, filing: Json, reply: AllocatorReply, effective: DateTime,
                            filingJson: Json, isoformat: DateTime -> string)
    requires Incorporate(businessExists, filing, reply, effective, filingJson, isoformat).Ok?
    ensures var ia := Section(filing, "incorporationApplication");
            var b := Incorporate(businessExists, filing, reply, effective, filingJson, isoformat).value.business;
      && ia.Obj?
      && Section(ia, "offices").Obj?
      && b.offices == OfficeList(Section(ia, "offices").fields)
      && |b.offices| == |Section(ia, "offices").fields|
  {
    IncorporateReachesAttach(businessExists, filing, reply, effective, filingJson, isoformat);
    var ia := DictGet(filing, "incorporationApplication");
    var corp := NextCorpNum(AllocatorRequest(businessExists, filing).value, reply).value.value;
    AttachOutcome(Founded(corp, DictGet(ia, "nameRequest"), effective), ia, filingJson, isoformat(effective));
  }

  /** Lines 165-176: one party role per role each party lists, none when `parties` is falsy. */
  lemma IncorporatedPartyRoles(businessExists: bool, filing: Json, reply: AllocatorReply, effective: DateTime,
                               filingJson: Json, isoformat: DateTime -> string)
    requires Incorporate(businessExists, filing, reply, effective, filingJson, isoformat).Ok?
    ensures var ia := Section(filing, "incorporationApplication");
            var parties := Section(ia, "parties");
            var b := Incorporate(businessExists, filing, reply, effective, filingJson, isoformat).value.business;
      && (!Truthy(parties) ==> b.partyRoles == [])
      && (Truthy(parties) ==> Iterate(parties).Some? && |b.partyRoles| == RoleCount(Iterate(parties).value)
                              && forall r :: r in b.partyRoles ==> r.party.info in Iterate(parties).value)
  {
    IncorporateReachesAttach(businessExists, filing, reply, effective, filingJson, isoformat);
    var ia := DictGet(filing, "incorporationApplication");
    var corp := NextCorpNum(AllocatorRequest(businessExists, filing).value, reply).value.value;
    AttachOutcome(Founded(corp, DictGet(ia, "nameRequest"), effective), ia, filingJson, isoformat(effective));
    var parties := Section(Section(filing, "incorporationApplication"), "parties");
    if Truthy(parties) {
      PartyRoleListCount(Iterate(parties).value);
    }
  }

  /**
    Lines 178-185: a successful filing had a `shareClasses` key; one share class per entry
    when it is truthy, none otherwise; one alias update only for truthy `nameTranslations`.
   */
  lemma IncorporatedShareClassesAndAliases(businessExists: bool, filing: Json, reply: AllocatorReply, effective: DateTime,
                                           filingJson: Json, isoformat: DateTime -> string)
    requires Incorporate(businessExists, filing, reply, effective, filingJson, isoformat).Ok?
    ensures var ia := Section(filing, "incorporationApplication");
            var b := Incorporate(businessExists, filing, reply, effective, filingJson, isoformat).value.business;
      && ia.Obj?
      && "shareClasses" in Keys(ia.fields)
      && (var classes := Subscript(ia, "shareClasses").value;
          && (!Truthy(classes) ==> b.shareClasses == [])
          && (Truthy(classes) ==> Iterate(classes).Some? && b.shareClasses == ShareClassList(Iterate(classes).value)
                                  && |b.shareClasses| == |Iterate(classes).value|))
      && b.aliases == (if Truthy(Section(ia, "nameTranslations")) then [AliasUpdate(Section(ia, "nameTranslations"))] else [])
  {
    IncorporateReachesAttach(businessExists, filing, reply, effective, filingJson, isoformat);
    var ia := DictGet(filing, "incorporationApplication");
    var corp := NextCorpNum(AllocatorRequest(businessExists, filing).value, reply).value.value;
    AttachOutcome(Founded(corp, DictGet(ia, "nameRequest"), effective), ia, filingJson, isoformat(effective));
  }

  /**
    Lines 187-190: the stored JSON is the original with exactly two changes:
    `filing.business.identifier` is the business identifier and `filing.business.foundingDate`
    the formatted founding date; every path that parts from both reads as before.
   */
  lemma IncorporatedFilingJson(businessExists: bool, filing: Json, reply: AllocatorReply, effective: DateTime,
                               filingJson: Json, isoformat: DateTime -> string, p: seq<string>)
    requires Incorporate(businessExists, filing, reply, effective, filingJson, isoformat).Ok?
    ensures var inc := Incorporate(businessExists, filing, reply, effective, filingJson, isoformat).value;
      && inc.business.foundingDate == Some(effective)
      && GetPath(inc.filingJson, IdentifierPath) == Ok(inc.business.identifier)
      && GetPath(inc.filingJson, FoundingDatePath) == Ok(Str(isoformat(effective)))
      && (Diverge(p, IdentifierPath) && Diverge(p, FoundingDatePath) ==> GetPath(inc.filingJson, p) == GetPath(filingJson, p))
    ensures GetPath(filingJson, BusinessPath).Ok? && GetPath(filingJson, BusinessPath).value.Obj?
  {
    IncorporateReachesAttach(businessExists, filing, reply, effective, filingJson, isoformat);
    var ia := DictGet(filing, "incorporationApplication");
    var info := DictGet(ia, "nameRequest");
    var t := AllocatorRequest(businessExists, filing).value;
    var corp := NextCorpNum(t, reply).value.value;
    var founded := Founded(corp, info, effective);
    AttachOutcome(founded, ia, filingJson, isoformat(effective));
    FinalizeEffect(filingJson, founded.identifier, isoformat(effective), p);
    FinalizeSucceeds(filingJson, founded.identifier, isoformat(effective));
  }

  /** Line 161 as written: `offices` missing or not a dict raises AttributeError once a number is allocated. */
  lemma OfficesNotDictRaises(filing: Json, reply: AllocatorReply, effective: DateTime, filingJson: Json, isoformat: DateTime -> string)
    requires Allocated(filing, reply)
    requires !Section(Section(filing, "incorporationApplication"), "offices").Obj?
    ensures Incorporate(false, filing, reply, effective, filingJson, isoformat) == Err(Crashed(AttributeError))
  {
    NeverUnableToCreateBusiness(false, filing, reply, effective, filingJson, isoformat);
    var ia := DictGet(filing, "incorporationApplication");
    var info := DictGet(ia, "nameRequest");
    var t := AllocatorRequest(false, filing).value;
    IdentifierHasTypePrefix(t, reply);
    var corp := NextCorpNum(t, reply).value.value;
    BusinessInfoOutcome(corp, Some(Blank), info, ia, Some(effective));
  }

  /** Line 178: once offices and parties are attached, a missing `shareClasses` key raises KeyError. */
  lemma MissingShareClassesRaises(filing: Json, reply: AllocatorReply, effective: DateTime, filingJson: Json, isoformat: DateTime -> string)
    requires Allocated(filing, reply)
    requires var ia := Section(filing, "incorporationApplication");
      ia.Obj? && OfficesStep(ia).Ok? && PartiesStep(ia).Ok? && "shareClasses" !in Keys(ia.fields)
    ensures Incorporate(false, filing, reply, effective, filingJson, isoformat) == Err(Crashed(KeyError))
  {
    var ia := DictGet(filing, "incorporationApplication");
    var info := DictGet(ia, "nameRequest");
    var t := AllocatorRequest(false, filing).value;
    IdentifierHasTypePrefix(t, reply);
    var corp := NextCorpNum(t, reply).value.value;
    BusinessInfoOutcome(corp, Some(Blank), info, ia, Some(effective));
  }

  /** Lines 187-189: a stored JSON without a dict at `filing.business` raises once the children are attached. */
  lemma NoBusinessSectionRaises(filing: Json, reply: AllocatorReply, effective: DateTime, filingJson: Json, isoformat: DateTime -> string)
    requires Allocated(filing, reply)
    requires var ia := Section(filing, "incorporationApplication");
      ia.Obj? && OfficesStep(ia).Ok? && PartiesStep(ia).Ok? && ShareClassesStep(ia).Ok?
    requires !(GetPath(filingJson, BusinessPath).Ok? && GetPath(filingJson, BusinessPath).value.Obj?)
    ensures Incorporate(false, filing, reply, effective, filingJson, isoformat).Err?
    ensures Incorporate(false, filing, reply, effective, filingJson, isoformat).error.Crashed?
  {
    var ia := DictGet(filing, "incorporationApplication");
    var info := DictGet(ia, "nameRequest");
    var t := AllocatorRequest(false, filing).value;
    IdentifierHasTypePrefix(t, reply);
    var corp := NextCorpNum(t, reply).value.value;
    BusinessInfoOutcome(corp, Some(Blank), info, ia, Some(effective));
    var b := BusinessInfo(corp, Some(Blank), info, ia, Some(effective)).value.value;
    FinalizeSucceeds(filingJson, b.identifier, isoformat(effective));
  }

  // ---------------------------------------------------------------------------
  // A worked incorporation
  // ---------------------------------------------------------------------------

  /** The one party of the example: a director. */
  const ExampleParty := Obj([("roles", Arr([Obj([("roleType", Str("Director"))])]))])

  /** The example application: type BC, one office, one party with one role, one share class. */
  const ExampleApplication := Obj([
    ("nameRequest", Obj([("legalType", Str("BC"))])),
    ("offices", Obj([("registeredOffice", Obj([]))])),
    ("parties", Arr([ExampleParty])),
    ("shareClasses", Arr([Obj([])]))])

  const ExampleFiling := Obj([("incorporationApplication", ExampleApplication)])

  /** The stored JSON before `process`: an empty `filing.business` section. */
  const ExampleStored := Obj([("filing", Obj([("business", Obj([]))]))])

  /** The example application's sections, as `incorp_filing.get(...)` reads them. */
  lemma ExampleSections()
    ensures DictGet(ExampleFiling, "incorporationApplication") == ExampleApplication
    ensures DictGet(ExampleApplication, "nameRequest") == Obj([("legalType", Str("BC"))])
    ensures Subscript(Obj([("legalType", Str("BC"))]), "legalType") == Ok(Str("BC"))
    ensures DictGet(Obj([("legalType", Str("BC"))]), "legalName") == Null
    ensures DictGet(ExampleApplication, "offices") == Obj([("registeredOffice", Obj([]))])
    ensures DictGet(ExampleApplication, "parties") == Arr([ExampleParty])
    ensures Subscript(ExampleApplication, "shareClasses") == Ok(Arr([Obj([])]))
    ensures DictGet(ExampleApplication, "nameTranslations") == Null
  {
    var fs := ExampleApplication.fields;
    assert "legalType" != "legalName" by { assert "legalType"[5] != "legalName"[5]; }
    assert "offices" != "parties" by { assert "offices"[0] != "parties"[0]; }
    FindSkips(fs, "offices", 1);
    FindSkips(fs, "parties", 2);
    FindSkips(fs, "shareClasses", 3);
    FindSkips(fs, "nameTranslations", 4);
    assert fs[4..] == [];
  }

  /** The example party's one role, with the missing dates read as None. */
  lemma ExampleRoles()
    ensures PartiesStep(ExampleApplication) == Ok([PartyRole(Party(ExampleParty), RoleInfo(Str("Director"), Null, Null))])
  {
    ExampleSections();
    var role := Obj([("roleType", Str("Director"))]);
    var director := PartyRole(Party(ExampleParty), RoleInfo(Str("Director"), Null, Null));
    assert DictGet(ExampleParty, "roles") == Arr([role]);
    assert RoleOf(role) == RoleInfo(Str("Director"), Null, Null);
    assert [role][..0] == [];
    assert RoleList(Party(ExampleParty), [role]) == Ok([] + [director]);
    assert [] + [director] == [director];
    assert Iterate(Arr([role])) == Some([role]);
    assert PartyRoles(ExampleParty) == Ok([director]);
    assert [ExampleParty][..0] == [];
    assert PartyRoleList([ExampleParty]) == Ok([] + [director]);
    assert Iterate(Arr([ExampleParty])) == Some([ExampleParty]);
  }

  /** The stored JSON after the two writes of lines 188-189. */
  lemma ExampleFinalize(identifier: Json, foundingDate: string)
    ensures Finalize(ExampleStored, identifier, foundingDate)
      == Ok(Obj([("filing", Obj([("business", Obj([("identifier", identifier), ("foundingDate", Str(foundingDate))]))]))]))
  {
    var date := Str(foundingDate);
    var b0, b1, b2 := Obj([]), Obj([("identifier", identifier)]), Obj([("identifier", identifier), ("foundingDate", date)]);
    // The first write, from the innermost dict outwards.
    var p := IdentifierPath;
    assert p[1..][1..] == ["identifier"];
    assert SetPath(b0, p[1..][1..], identifier) == Ok(b1);
    assert SetPath(Obj([("business", b0)]), p[1..], identifier) == Ok(Obj(Put([("business", b0)], "business", b1)));
    assert Put([("business", b0)], "business", b1) == [("business", b1)];
    assert SetPath(ExampleStored, p, identifier) == Ok(Obj(Put(ExampleStored.fields, "filing", Obj([("business", b1)]))));
    assert Put(ExampleStored.fields, "filing", Obj([("business", b1)])) == [("filing", Obj([("business", b1)]))];
    // The second write adds `foundingDate` after `identifier`.
    var q := FoundingDatePath;
    assert q[1..][1..] == ["foundingDate"];
    assert "identifier" != "foundingDate";
    assert Put(b1.fields, "foundingDate", date) == [b1.fields[0]] + [("foundingDate", date)] == b2.fields;
    assert SetPath(b1, q[1..][1..], date) == Ok(b2);
    assert SetPath(Obj([("business", b1)]), q[1..], date) == Ok(Obj(Put([("business", b1)], "business", b2)));
    assert Put([("business", b1)], "business", b2) == [("business", b2)];
    var once := Obj([("filing", Obj([("business", b1)]))]);
    assert SetPath(once, q, date) == Ok(Obj(Put(once.fields, "filing", Obj([("business", b2)]))));
    assert Put(once.fields, "filing", Obj([("business", b2)])) == [("filing", Obj([("business", b2)]))];
  }

  /** The example's office and share class, one per entry. */
  lemma ExampleOfficesAndShareClasses()
    ensures OfficesStep(ExampleApplication) == Ok([Office("registeredOffice", Obj([]))])
    ensures ShareClassesStep(ExampleApplication) == Ok([ShareClass(Obj([]))])
    ensures AliasesStep(ExampleApplication) == []
  {
    ExampleSections();
    var entries := [("registeredOffice", Obj([]))];
    assert entries[..0] == [];
    assert OfficeList(entries) == [] + [Office("registeredOffice", Obj([]))] == [Office("registeredOffice", Obj([]))];
    assert Items(DictGet(ExampleApplication, "offices")) == Ok(entries);
    var infos := [Obj([])];
    assert infos[..0] == [];
    assert ShareClassList(infos) == [] + [ShareClass(Obj([]))] == [ShareClass(Obj([]))];
    assert Truthy(Arr(infos)) && Iterate(Arr(infos)) == Some(infos);
  }

  /** The example business as `update_business_info` leaves it. */
  const ExampleFounded := Blank.(identifier := Str("BC0000042"), legalName := Str("0000042 B.C. LTD."), legalType := Str("BC"))

  /** Attaching the example's children to the founded business. */
  lemma ExampleAttach(effective: DateTime, foundingDate: string)
    ensures Attach(ExampleFounded.(foundingDate := Some(effective)), ExampleApplication, ExampleStored, foundingDate) == Ok(Incorporation(
      BusinessState(Str("BC0000042"), Str("0000042 B.C. LTD."), Str("BC"), Some(effective),
        [Office("registeredOffice", Obj([]))],
        [PartyRole(Party(ExampleParty), RoleInfo(Str("Director"), Null, Null))],
        [ShareClass(Obj([]))],
        []),
      Obj([("filing", Obj([("business", Obj([("identifier", Str("BC0000042")), ("foundingDate", Str(foundingDate))]))]))])))
  {
    ExampleSections();
    ExampleRoles();
    ExampleFinalize(Str("BC0000042"), foundingDate);
    ExampleOfficesAndShareClasses();
    var b := ExampleFounded.(foundingDate := Some(effective));
    var office := Office("registeredOffice", Obj([]));
    var director := PartyRole(Party(ExampleParty), RoleInfo(Str("Director"), Null, Null));
    var shareClass := ShareClass(Obj([]));
    assert [] + [office] == [office] && [] + [director] == [director] && [] + [shareClass] == [shareClass];
    var built := b.(offices := b.offices + [office], partyRoles := b.partyRoles + [director],
                    shareClasses := b.shareClasses + [shareClass], aliases := b.aliases + []);
    assert built == BusinessState(Str("BC0000042"), Str("0000042 B.C. LTD."), Str("BC"), Some(effective),
                                  [office], [director], [shareClass], []);
  }

  /**
    A filing that incorporates: type BC with allocated number 42, one office, one director
    and one share class gives business BC0000042, named "0000042 B.C. LTD.", with one of
    each child, and writes the identifier and founding date into the stored JSON.
   */
  lemma ExampleIncorporation(effective: DateTime, isoformat: DateTime -> string)
    ensures Incorporate(false, ExampleFiling, Response(200, Ok(42)), effective, ExampleStored, isoformat) == Ok(Incorporation(
      BusinessState(Str("BC0000042"), Str("0000042 B.C. LTD."), Str("BC"), Some(effective),
        [Office("registeredOffice", Obj([]))],
        [PartyRole(Party(ExampleParty), RoleInfo(Str("Director"), Null, Null))],
        [ShareClass(Obj([]))],
        []),
      Obj([("filing", Obj([("business", Obj([("identifier", Str("BC0000042")), ("foundingDate", Str(isoformat(effective)))]))]))])))
  {
    var info := Obj([("legalType", Str("BC"))]);
    ExampleSections();
    ExampleIdentifiers();
    assert Incorporate(false, ExampleFiling, Response(200, Ok(42)), effective, ExampleStored, isoformat)
      == Build("BC0000042", ExampleApplication, info, effective, ExampleStored, isoformat);
    FallbackNameExample();
    assert BusinessInfo("BC0000042", Some(Blank), info, ExampleApplication, Some(effective))
      == Ok(Some(ExampleFounded.(foundingDate := Some(effective))));
    ExampleAttach(effective, isoformat(effective));
  }
}
