# Incorporation filing processor, modelled in Dafny

This project models the incorporation step of the business registry's entity filer,
`filing_processors/incorporation_filing.py`. That code takes an incoming incorporation
filing and does the following:

- asks the COLIN allocator for the next corporation number (`get_next_corp_num`);
- fills in a fresh `Business` (`update_business_info`);
- attaches the offices, party roles, share classes and name translations the filing
  lists;
- writes the new identifier and founding date into the filing record's stored JSON
  (`process`).

Two best-effort reconcilers run afterwards. `update_affiliation` moves the account's
affiliation from the registration bootstrap to the business. `consume_nr` marks the
name request consumed and removes its affiliation.

Layout:

- `wrappers.dfy`: `Option` and `Result`.
- `py_json.dfy`: the Python values a parsed filing is made of. It covers Python
  truthiness, and what `d[k]`, `d.get(k)`, `d.items()`, `for x in j` and the nested
  assignment `j[a][b][c] = v` return or raise. Dicts are association lists that keep
  insertion order.
- `corp_number.dfy`: `get_next_corp_num`. The allocator's reply is an input. The
  formatting is Python's `f'{n:07d}'`.
- `entities.dfy`: the `Business` class, whose fields `process` updates in place. Also the
  `FilingRecord` class, the registration bootstrap, and the child entities. The child
  constructors are opaque, so each child records exactly the inputs it was built from.
- `incorporation_filing.dfy`: `update_business_info` and `process`.
  - `Incorporate` is the specification of `process`: the exception it raises, or the
    business it builds and the JSON it stores.
  - `Process` and the loop methods it calls run the source's steps and loops on a
    `Business` object. They are proved to agree with `Incorporate`.
- `incorporation_properties.dfy`: what `Incorporate` promises. This covers the guard
  order, the identifier and name rules, the child counts, and the exact two changes to
  the stored JSON.
- `reconcilers.dfy`: `update_affiliation` and `consume_nr`. Each is a method that takes
  the remote replies as inputs. It returns the outbound calls issued and the error
  reports sent to Sentry. Neither raises to its caller.

Some behaviour of the code is modelled exactly as written, even where it looks
unintended:

- **Negative corporation numbers.** Line 50 formats the number with `:07d`, and the
  guard at line 48 checks only that it is non-zero and `<= 9999999`. A negative number
  therefore passes, and Python formats -5 as `-000005`, sign included.
  `CorpNumber.NegativeNumberAccepted` shows that `BC-000005` would be returned.
- **The `offices` lookup.** `offices.items()` at line 161 has no None guard. A filing
  without a dict `offices` therefore raises AttributeError (`OfficesNotDictRaises`).
- **The TMP re-create.** A successful delete of the old bootstrap affiliation followed
  by a failed re-create leaves the bootstrap unaffiliated. The failure is only
  reported, as `UpdateAffiliation`'s contract shows.
- **The `update_business_info` guard.** The "Unable to create business" guard cannot
  fire inside `process`, because every input is truthy there
  (`NeverUnableToCreateBusiness`).

## Model

All source paths are under `queue_services/entity-filer/src/entity_filer/filing_processors/`
and point at `incorporation_filing.py`; the cells give the full path.

| member | source | states |
|---|---|---|
| PyJson.Find | queue_services/entity-filer/src/entity_filer/filing_processors/incorporation_filing.py:141 | a dict lookup finds a value exactly when the key is among the dict's keys |
| PyJson.DictGet | queue_services/entity-filer/src/entity_filer/filing_processors/incorporation_filing.py:141 | `d.get(k)` on a dict: the first binding of `k`, None when absent; no contract of its own: `Find` states the lookup |
| PyJson.FindSkips | queue_services/entity-filer/src/entity_filer/filing_processors/incorporation_filing.py:141 | bindings of other keys before the first binding of a key leave its lookup unchanged |
| PyJson.Put | queue_services/entity-filer/src/entity_filer/filing_processors/incorporation_filing.py:188-189 | `d[k] = v` makes `k` read `v`, leaves every other key's value alone, keeps the keys of a dict that had `k`, and appends `k` to one that did not |
| PyJson.Truthy | queue_services/entity-filer/src/entity_filer/filing_processors/incorporation_filing.py:143 | Python's `bool()`, used at lines 56, 143, 166, 179 and 184: None, False, 0 and empty strings, lists and dicts are falsy; no contract of its own: `BusinessInfoOutcome`, `GuardsRaiseBeforeAllocation` and the `Incorporated*` lemmas state its use |
| PyJson.Subscript | queue_services/entity-filer/src/entity_filer/filing_processors/incorporation_filing.py:148-150 | `j[k]` succeeds exactly on a dict holding `k`, and such a dict is truthy |
| PyJson.Get | queue_services/entity-filer/src/entity_filer/filing_processors/incorporation_filing.py:141-148 | `j.get(k)` succeeds exactly on a dict |
| PyJson.Items | queue_services/entity-filer/src/entity_filer/filing_processors/incorporation_filing.py:161 | `j.items()` succeeds exactly on a dict |
| PyJson.Iterate | queue_services/entity-filer/src/entity_filer/filing_processors/incorporation_filing.py:166-170 | `for x in j` works exactly on lists, dicts and strings, and visits a list's items |
| PyJson.GetPath | queue_services/entity-filer/src/entity_filer/filing_processors/incorporation_filing.py:112 | the chain of subscripts `j[k1][k2]...`, first error wins; no contract of its own: `GetPathSnoc` and `MissingKeyRaisesKeyError` state what it reads and raises |
| PyJson.SetPath | queue_services/entity-filer/src/entity_filer/filing_processors/incorporation_filing.py:188-189 | the nested assignment `j[k1]...[kn] = v` on a copy; no contract of its own: `SetPathSucceeds`, `SetPathReadsBack` and `SetPathFrame` state when it succeeds, what it writes and what it leaves alone |
| PyJson.SetPathSucceeds | queue_services/entity-filer/src/entity_filer/filing_processors/incorporation_filing.py:188-189 | the nested assignment succeeds exactly when the path up to the last key reaches a dict |
| PyJson.SetPathReadsBack | queue_services/entity-filer/src/entity_filer/filing_processors/incorporation_filing.py:188-189 | after the nested assignment the path reads the new value and its parent is still a dict |
| PyJson.SetPathFrame | queue_services/entity-filer/src/entity_filer/filing_processors/incorporation_filing.py:188-189 | the nested assignment leaves every path that parts from the assigned one unchanged |
| PyJson.TwoWritesSucceed | queue_services/entity-filer/src/entity_filer/filing_processors/incorporation_filing.py:188-189 | two assignments under one parent path both succeed exactly when the parent is a dict |
| PyJson.TwoWritesEffect | queue_services/entity-filer/src/entity_filer/filing_processors/incorporation_filing.py:188-189 | after two assignments to different keys of one parent, both keys read their new values and every path that parts from both is unchanged |
| PyJson.DivergeAtLastKey | queue_services/entity-filer/src/entity_filer/filing_processors/incorporation_filing.py:188-189 | the paths `filing.business.identifier` and `filing.business.foundingDate`, like any two sharing a parent and ending in different keys, part at their last key |
| PyJson.GetPathSnoc | queue_services/entity-filer/src/entity_filer/filing_processors/incorporation_filing.py:112 | reading a path one key further is subscripting what the shorter path reads |
| PyJson.MissingKeyRaisesKeyError | queue_services/entity-filer/src/entity_filer/filing_processors/incorporation_filing.py:112 | a chain of subscripts whose last key is missing from the dict it reaches raises KeyError |
| CorpNumber.Format07d | queue_services/entity-filer/src/entity_filer/filing_processors/incorporation_filing.py:50 | Python's `f'{n:07d}'`; no contract of its own: `Format07dOfSmall` states the seven digits that read back as n, `NegativeNumberAccepted` the sign-aware padding |
| CorpNumber.NextCorpNum | queue_services/entity-filer/src/entity_filer/filing_processors/incorporation_filing.py:38-51 | `get_next_corp_num` given the allocator's reply; no contract of its own: `NoIdentifierCases`, `AllocatedIdentifier`, `AllocatedIdentifiersDistinct` and `IdentifierHasTypePrefix` state its outcomes |
| CorpNumber.Format07dOfSmall | queue_services/entity-filer/src/entity_filer/filing_processors/incorporation_filing.py:50 | `f'{n:07d}'` of 0..9999999 is exactly seven digits that read back as n |
| CorpNumber.AllocatedIdentifier | queue_services/entity-filer/src/entity_filer/filing_processors/incorporation_filing.py:46-50 | a 200 reply with 0 < n <= 9999999 gives the business type followed by seven digits that read back as n, \|type\| + 7 characters in all |
| CorpNumber.AllocatedIdentifiersDistinct | queue_services/entity-filer/src/entity_filer/filing_processors/incorporation_filing.py:46-50 | two different allocated numbers never give the same identifier |
| CorpNumber.NoIdentifierCases | queue_services/entity-filer/src/entity_filer/filing_processors/incorporation_filing.py:40-51 | no identifier exactly when the connection fails, the status is not 200, or n is 0 or above 9999999; an exception exactly for any other request failure or a body without an integer `corpNum` |
| CorpNumber.IdentifierHasTypePrefix | queue_services/entity-filer/src/entity_filer/filing_processors/incorporation_filing.py:50 | every returned identifier starts with the business type and is longer than it |
| CorpNumber.ExampleIdentifiers | queue_services/entity-filer/src/entity_filer/filing_processors/incorporation_filing.py:46-51 | type BC with 42 gives `BC0000042`; 10000000 gives no identifier |
| CorpNumber.NegativeNumberAccepted | queue_services/entity-filer/src/entity_filer/filing_processors/incorporation_filing.py:48-50 | as written, -5 passes the guard and gives `BC-000005` |
| CorpNumber.Format07dOfNegative | queue_services/entity-filer/src/entity_filer/filing_processors/incorporation_filing.py:50 | `f'{n:07d}'` of -999999..-1 is a minus sign and six digits that read back as -n, seven characters in all |
| CorpNumber.NegativeNumbersAccepted | queue_services/entity-filer/src/entity_filer/filing_processors/incorporation_filing.py:48-50 | as written, every number in -999999..-1 passes the guard; the identifier is the type, a minus sign and six digits that read back as -n |
| Entities.Business.constructor | queue_services/entity-filer/src/entity_filer/filing_processors/incorporation_filing.py:155 | a new Business has every attribute None and every collection empty |
| IncorporationFiling.LegalName | queue_services/entity-filer/src/entity_filer/filing_processors/incorporation_filing.py:57-59 | the name is always truthy: it is the supplied one when truthy; otherwise it ends in " B.C. LTD." and what precedes the suffix is the corp number without its first two characters (empty for a shorter corp number) |
| IncorporationFiling.BusinessInfo | queue_services/entity-filer/src/entity_filer/filing_processors/incorporation_filing.py:54-63 | `update_business_info` on values; no contract of its own: `BusinessInfoOutcome` states when it gives None, AttributeError, or the four fields set |
| IncorporationFiling.BusinessInfoOutcome | queue_services/entity-filer/src/entity_filer/filing_processors/incorporation_filing.py:54-63 | None exactly unless all five inputs are truthy; AttributeError exactly for a truthy non-dict business info; otherwise identifier, legal name, legal type and founding date are set and nothing else changes |
| IncorporationFiling.FallbackNameOfAllocated | queue_services/entity-filer/src/entity_filer/filing_processors/incorporation_filing.py:59 | with no supplied name, an allocated identifier whose type has at least two letters is named the type without its first two letters, the seven digits, then " B.C. LTD."; for a two-letter type just the digits and the suffix |
| IncorporationFiling.FallbackNameExample | queue_services/entity-filer/src/entity_filer/filing_processors/incorporation_filing.py:59 | with no supplied name, `BC1234567` is named `1234567 B.C. LTD.`, `BC0000042` `0000042 B.C. LTD.`, and the three-letter type gives `BEN0000042` the name `N0000042 B.C. LTD.` |
| IncorporationFiling.UpdateBusinessInfo | queue_services/entity-filer/src/entity_filer/filing_processors/incorporation_filing.py:54-63 | updates the Business object in place as `BusinessInfoOutcome` describes, and returns it, None, or the exception |
| IncorporationFiling.OfficeList | queue_services/entity-filer/src/entity_filer/filing_processors/incorporation_filing.py:160-163 | one office per `(office_type, addresses)` entry, in order |
| IncorporationFiling.ShareClassList | queue_services/entity-filer/src/entity_filer/filing_processors/incorporation_filing.py:178-182 | one share class per entry, in order |
| IncorporationFiling.RoleList | queue_services/entity-filer/src/entity_filer/filing_processors/incorporation_filing.py:169-176 | one role per item, each with the item's roleType, appointmentDate and cessationDate; AttributeError exactly when some item is not a dict |
| IncorporationFiling.RoleOf | queue_services/entity-filer/src/entity_filer/filing_processors/incorporation_filing.py:170-174 | the role dict of one item; no contract of its own: `RoleList` states it, item by item |
| IncorporationFiling.PartyRoles | queue_services/entity-filer/src/entity_filer/filing_processors/incorporation_filing.py:168-176 | the roles of one `party_info`: AttributeError on a non-dict, TypeError on roles that cannot be iterated, else `RoleList`; its contract is in the method `AppendPartyRoles` |
| IncorporationFiling.PartyRoleList | queue_services/entity-filer/src/entity_filer/filing_processors/incorporation_filing.py:167-176 | the roles of all parties in order, first failing party decides; no contract of its own: `PartyRoleListCount`, `PartyRoleListErrorPersists`, `PartySucceeds` and `PartyFails` state it |
| IncorporationFiling.PartyRoleListCount | queue_services/entity-filer/src/entity_filer/filing_processors/incorporation_filing.py:165-176 | the number of party roles is the sum over parties of the roles each lists, and every role belongs to one of the listed parties |
| IncorporationFiling.PartyRoleListErrorPersists | queue_services/entity-filer/src/entity_filer/filing_processors/incorporation_filing.py:165-176 | once some leading parties raise, the whole loop raises the same exception |
| IncorporationFiling.PartyFails | queue_services/entity-filer/src/entity_filer/filing_processors/incorporation_filing.py:165-176 | the first party that raises decides the exception of the loop |
| IncorporationFiling.PartySucceeds | queue_services/entity-filer/src/entity_filer/filing_processors/incorporation_filing.py:165-176 | a party that succeeds adds its roles after those of the parties before it |
| IncorporationFiling.OfficesStep | queue_services/entity-filer/src/entity_filer/filing_processors/incorporation_filing.py:160-163 | `offices.items()`, one office per entry; no contract of its own: `IncorporatedOffices` and `OfficesNotDictRaises` state it, and the method `AttachOffices` runs it |
| IncorporationFiling.PartiesStep | queue_services/entity-filer/src/entity_filer/filing_processors/incorporation_filing.py:165-176 | nothing for a falsy `parties`, else `PartyRoleList`; no contract of its own: `IncorporatedPartyRoles` states it, and the method `AttachPartyRoles` runs it |
| IncorporationFiling.ShareClassesStep | queue_services/entity-filer/src/entity_filer/filing_processors/incorporation_filing.py:178-182 | `incorp_filing['shareClasses']`, one class per entry when truthy; no contract of its own: `IncorporatedShareClassesAndAliases` and `MissingShareClassesRaises` state it, and `AttachShareClasses` runs it |
| IncorporationFiling.AliasesStep | queue_services/entity-filer/src/entity_filer/filing_processors/incorporation_filing.py:184-185 | one alias update for truthy `nameTranslations`; no contract of its own: `IncorporatedShareClassesAndAliases` states it |
| IncorporationFiling.Finalize | queue_services/entity-filer/src/entity_filer/filing_processors/incorporation_filing.py:187-189 | the two writes into a copy of the stored JSON; no contract of its own: `FinalizeSucceeds` and `FinalizeEffect` state it |
| IncorporationFiling.FinalizeSucceeds | queue_services/entity-filer/src/entity_filer/filing_processors/incorporation_filing.py:187-189 | the two JSON writes succeed exactly when `filing.business` is a dict |
| IncorporationFiling.FinalizeEffect | queue_services/entity-filer/src/entity_filer/filing_processors/incorporation_filing.py:187-189 | the written JSON reads the identifier and the founding date at their paths, and every path that parts from both reads as before |
| IncorporationFiling.Attach | queue_services/entity-filer/src/entity_filer/filing_processors/incorporation_filing.py:160-191 | the children and the stored JSON added to a built business; no contract of its own: `AttachOutcome` and `AttachOnlyCrashes` state it, and the method `AttachAll` runs it |
| IncorporationFiling.Build | queue_services/entity-filer/src/entity_filer/filing_processors/incorporation_filing.py:155-191 | a fresh Business filled by `update_business_info`, then `Attach`; no contract of its own: `BuildErrors` states it, and the method `BuildBusiness` runs it |
| IncorporationFiling.Incorporate | queue_services/entity-filer/src/entity_filer/filing_processors/incorporation_filing.py:137-191 | the specification of `process`; no contract of its own: the `IncorporationProperties` lemmas state what it raises and builds, and the method `Process` runs it |
| IncorporationFiling.AllocatorRequest | queue_services/entity-filer/src/entity_filer/filing_processors/incorporation_filing.py:148-150 | the business type passed to `get_next_corp_num`, None when a guard raises first or `legalType` is not a string; its contract is in the method `Process` |
| IncorporationFiling.UpdateAliases | queue_services/entity-filer/src/entity_filer/filing_processors/incorporation_filing.py:184-185 | records one alias update with the translations and changes nothing else |
| IncorporationFiling.AttachOffices | queue_services/entity-filer/src/entity_filer/filing_processors/incorporation_filing.py:160-163 | the loop appends exactly the offices of `offices.items()` to the business and nothing else changes, or it returns the exception raised |
| IncorporationFiling.AppendRoles | queue_services/entity-filer/src/entity_filer/filing_processors/incorporation_filing.py:169-176 | the inner loop appends exactly one role per item of one party, or stops with AttributeError |
| IncorporationFiling.AppendPartyRoles | queue_services/entity-filer/src/entity_filer/filing_processors/incorporation_filing.py:167-176 | for one `party_info`, appends exactly its roles; AttributeError when it is not a dict, TypeError when its roles cannot be iterated |
| IncorporationFiling.AppendAllPartyRoles | queue_services/entity-filer/src/entity_filer/filing_processors/incorporation_filing.py:167-176 | the loop over the parties appends exactly all their roles in order, or returns the first exception a party raises |
| IncorporationFiling.AttachPartyRoles | queue_services/entity-filer/src/entity_filer/filing_processors/incorporation_filing.py:165-176 | the nested loops append exactly the roles of all parties (none for falsy `parties`), or return the exception raised |
| IncorporationFiling.AttachShareClasses | queue_services/entity-filer/src/entity_filer/filing_processors/incorporation_filing.py:178-182 | the loop appends exactly one share class per entry of a truthy `shareClasses`; KeyError when the key is missing |
| IncorporationFiling.StoreFilingJson | queue_services/entity-filer/src/entity_filer/filing_processors/incorporation_filing.py:187-190 | stores the copy with the identifier and founding date written in, or leaves the stored JSON untouched and returns the exception |
| IncorporationFiling.AttachAll | queue_services/entity-filer/src/entity_filer/filing_processors/incorporation_filing.py:160-191 | attaches the children and stores the JSON as the attach specification says, or returns exactly its error with the stored JSON untouched |
| IncorporationFiling.BuildBusiness | queue_services/entity-filer/src/entity_filer/filing_processors/incorporation_filing.py:155-191 | builds a fresh Business and rewrites the stored JSON as the specification says; on any exception the stored JSON is untouched |
| IncorporationFiling.Process | queue_services/entity-filer/src/entity_filer/filing_processors/incorporation_filing.py:137-191 | returns a fresh Business whose state, and the stored JSON, are those of `Incorporate`, or exactly its error with the stored JSON untouched; also the business type sent to the allocator |
| IncorporationProperties.GuardsRaiseBeforeAllocation | queue_services/entity-filer/src/entity_filer/filing_processors/incorporation_filing.py:141-146 | a missing or empty `incorporationApplication`, or an existing business, raises before any allocation, and these are the only causes of those two errors |
| IncorporationProperties.NoIdentifierRaises | queue_services/entity-filer/src/entity_filer/filing_processors/incorporation_filing.py:150-152 | the "unable to get a business registration number" error happens exactly when the allocator gives no identifier |
| IncorporationProperties.NeverUnableToCreateBusiness | queue_services/entity-filer/src/entity_filer/filing_processors/incorporation_filing.py:155-158 | the "Unable to create business" error never happens |
| IncorporationProperties.IncorporateAfterAllocation | queue_services/entity-filer/src/entity_filer/filing_processors/incorporation_filing.py:148-158 | once a number is allocated, `process` builds with that (non-empty) identifier, and the application and name request are truthy dicts |
| IncorporationProperties.AttachOnlyCrashes | queue_services/entity-filer/src/entity_filer/filing_processors/incorporation_filing.py:160-190 | attaching the children fails only with an exception that escapes, never a QueueException |
| IncorporationProperties.BuildErrors | queue_services/entity-filer/src/entity_filer/filing_processors/incorporation_filing.py:155-191 | the build fails only with an escaping exception or "Unable to create business" |
| IncorporationProperties.IncorporateReachesAttach | queue_services/entity-filer/src/entity_filer/filing_processors/incorporation_filing.py:141-158 | a successful `process` passed every guard and then attached the children to the business `update_business_info` set up |
| IncorporationProperties.AttachOutcome | queue_services/entity-filer/src/entity_filer/filing_processors/incorporation_filing.py:160-190 | a successful attach adds the offices, roles, share classes and aliases, and stores the finalized JSON |
| IncorporationProperties.IncorporatedBusiness | queue_services/entity-filer/src/entity_filer/filing_processors/incorporation_filing.py:148-156 | success means a 200 reply with a number at most 9999999 and not 0; through `update_business_info` at line 156 (lines 54-63) the identifier is the type plus `f'{n:07d}'`, the legal type is the requested one, the founding date is the effective date, and the name follows the fallback rule |
| IncorporationProperties.IncorporatedOffices | queue_services/entity-filer/src/entity_filer/filing_processors/incorporation_filing.py:160-163 | success needs `offices` to be a dict; the business then has exactly one office per entry, in order |
| IncorporationProperties.IncorporatedPartyRoles | queue_services/entity-filer/src/entity_filer/filing_processors/incorporation_filing.py:165-176 | no party roles for a falsy `parties`; otherwise \|party roles\| is the sum over parties of the roles each lists, and every role belongs to a listed party |
| IncorporationProperties.IncorporatedShareClassesAndAliases | queue_services/entity-filer/src/entity_filer/filing_processors/incorporation_filing.py:178-185 | success needs a `shareClasses` key; one share class per entry when it is truthy, none otherwise; one alias update only for truthy `nameTranslations` |
| IncorporationProperties.IncorporatedFilingJson | queue_services/entity-filer/src/entity_filer/filing_processors/incorporation_filing.py:187-190 | the stored JSON has exactly two changes, the identifier and the formatted founding date under `filing.business`; success needs `filing.business` to be a dict |
| IncorporationProperties.OfficesNotDictRaises | queue_services/entity-filer/src/entity_filer/filing_processors/incorporation_filing.py:160-161 | once a number is allocated, an `offices` that is missing or not a dict raises AttributeError |
| IncorporationProperties.MissingShareClassesRaises | queue_services/entity-filer/src/entity_filer/filing_processors/incorporation_filing.py:178 | once offices and parties are attached, a missing `shareClasses` key raises KeyError |
| IncorporationProperties.NoBusinessSectionRaises | queue_services/entity-filer/src/entity_filer/filing_processors/incorporation_filing.py:187-189 | once the children are attached, a stored JSON without a dict at `filing.business` makes `process` raise |
| IncorporationProperties.ExampleSections | queue_services/entity-filer/src/entity_filer/filing_processors/incorporation_filing.py:141-178 | the example filing's sections read as `get` and `[...]` read them |
| IncorporationProperties.ExampleRoles | queue_services/entity-filer/src/entity_filer/filing_processors/incorporation_filing.py:165-176 | the example's one party gives one director role, the missing dates read as None |
| IncorporationProperties.ExampleOfficesAndShareClasses | queue_services/entity-filer/src/entity_filer/filing_processors/incorporation_filing.py:160-185 | the example gives one office, one share class and no alias update |
| IncorporationProperties.ExampleFinalize | queue_services/entity-filer/src/entity_filer/filing_processors/incorporation_filing.py:187-189 | the two writes turn `{"filing": {"business": {}}}` into one holding exactly the identifier, then the founding date |
| IncorporationProperties.ExampleAttach | queue_services/entity-filer/src/entity_filer/filing_processors/incorporation_filing.py:160-191 | attaching the example's children to the founded business gives one of each child and the rewritten JSON |
| IncorporationProperties.ExampleIncorporation | queue_services/entity-filer/src/entity_filer/filing_processors/incorporation_filing.py:137-191 | a BC filing with allocated number 42, one office, one director and one share class succeeds, giving `BC0000042` named `0000042 B.C. LTD.` with one of each child and the identifier and founding date written into the stored JSON |
| Reconcilers.UpdateAffiliation | queue_services/entity-filer/src/entity_filer/filing_processors/incorporation_filing.py:66-105 | never raises; the reports are exactly "Unable to affiliate" when a refused create's delete returned, followed by the broad-except message unless the run was clean; it is clean exactly when the create was accepted, the old bootstrap delete returned OK exactly, and the TMP re-create was accepted; a refused create issues exactly one delete, on the business identifier; an accepted one deletes on the bootstrap identifier and then re-creates it named after the business with type TMP; every call uses the bootstrap's account |
| Reconcilers.ConsumeNr | queue_services/entity-filer/src/entity_filer/filing_processors/incorporation_filing.py:108-134 | never raises; an absent `nrNumber` gives no call and no report, any other failure reading it no call; otherwise it fetches a token, and stops there when the fetch raised, the token is None or the NR number is not a string; otherwise it consumes the NR for the business identifier, and on a 200 reply deletes the NR's affiliation; at most one report, and none exactly when every step went through or the first exception was a KeyError, from whichever call raised it |
| Reconcilers.Accepted | queue_services/entity-filer/src/entity_filer/filing_processors/incorporation_filing.py:78 | `rv in (HTTPStatus.OK, HTTPStatus.CREATED)`, as at lines 78 and 94: a status of 200 or 201; its use is stated in `UpdateAffiliation`'s contract |
| Reconcilers.AbsentNrNumberIsKeyError | queue_services/entity-filer/src/entity_filer/filing_processors/incorporation_filing.py:112-132 | a name request dict without `nrNumber` is the KeyError that `consume_nr` passes over silently |

## Left out

- Remote calls and configuration are inputs: `requests.post`/`requests.patch`, the
  `AccountService` calls, `RegistrationBootstrap.find_by_identifier` and
  `current_app.config`. Their replies are parameters, and the calls are recorded in a log.
- The allocator's reply body (`resp.json()['corpNum']` passed through `int`) is one
  input: the integer, or the exception that evaluating it raises.
- Logging and Sentry: for Sentry, only which message is reported is modelled, not the
  message text, the filing id or the exception inside it. The `current_app.logger.error`
  call at line 43 in `get_next_corp_num` is dropped altogether.
- `json.dumps` of the consume request: the model records only the corp number it carries.
- The `NAMEX_API` setting is a string parameter. A missing setting, which the source
  would report as a TypeError, is not modelled.
- What `get_bearer_token` returned or raised is one input. A KeyError it raises ends
  `consume_nr` silently; any other exception, or a None token, is reported.
- `post_process` (lines 194-204): one external call inside exception suppression, which
  by its own comment must not alter the model.
- The internals of `create_office`, `create_party`, `create_role`,
  `create_share_class`, `aliases.update_aliases` and `business_profile` are not part of
  this model. They are opaque constructors that record their inputs, and their own
  failures are not modelled.
- `datetime.isoformat` is an uninterpreted function parameter.
- Persistence, the deep copy's object identity, and `filing_rec.id` in the messages.
- `legal-api/src/legal_api/resources/business/business.py` (the HTTP resource layer)
  and the test fixtures are not part of this model.
- JSON values are only those the model's `Json` type has: there are no floats, and a
  dict is an association list that may hold a key twice, which no `json.loads` dict
  does. `Find` reads the first binding. `Items` and `Iterate` would visit both
  bindings, so on such a value the office and share class counts would differ from
  Python's. No well-formedness predicate excludes those values.
- The filing record's `effective_date` is never None in this model. In the source,
  `business.founding_date.isoformat()` at line 189 would raise AttributeError for a
  None date, after the children are attached. That path is not modelled.
- IncorporationFiling.Incorporate: a `legalType` that is not a string is modelled as a
  TypeError. Python would format any value into the URL and the identifier instead;
  that str() conversion of arbitrary JSON is not modelled.
- IncorporationFiling.Process: it states the same non-string `legalType` deviation as
  `Incorporate`.
- IncorporationFiling.AllocatorRequest: for a `legalType` that is not a string it gives
  None, while the source still calls `get_next_corp_num` with that value at line 150.
  This is the same str() conversion left out of `Incorporate`.
