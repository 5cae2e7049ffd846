/**
  The best-effort reconcilers run after an incorporation: `update_affiliation`, which
  moves the account's affiliation from the registration bootstrap to the new business,
  and `consume_nr`, which marks the name request consumed. Each remote call is an
  input reply; each method returns the outbound calls it issued and the error reports
  it sent. Neither ever raises to its caller: every exception ends in a report.
 */
module Reconcilers {
  import opened Wrappers
  import opened PyJson
  import opened Entities

  /** What a remote call gave back: an HTTP status, or the exception it raised. */
  datatype Reply = Status(code: int) | Raised(error: PyError)

  /** A KeyError, the one exception `consume_nr` passes over without a report (line 131). */
  predicate SilentlyDropped(r: Reply) {
    r == Raised(KeyError)
  }

  /** `rv in (HTTPStatus.OK, HTTPStatus.CREATED)`. */
  predicate Accepted(r: Reply) {
    r.Status? && (r.code == 200 || r.code == 201)
  }

  /** An outbound call to the accounts service or the name service. */
  datatype Call =
    | CreateAffiliation(account: int, registration: Json, name: Json, corpType: Json)
    | DeleteAffiliation(account: int, identifier: Json)
    | GetBearerToken
    | ConsumeNameRequest(url: string, corpNum: Json, token: string)

  /** The `sentry_sdk.capture_message` calls, by message. */
  datatype Report =
    | UnableToAffiliate   // "Unable to affiliate business"
    | AffiliationError    // "Affiliation error for filing", the broad except
    | ConsumeNrError      // "Consume NR error for filing", the broad except

  /**
    `update_affiliation(business, filing)`. `bootstrap` is what
    `RegistrationBootstrap.find_by_identifier(filing.temp_reg)` found; `created`,
    `deleted` and `recreated` are the replies of the first create, the delete, and the
    TMP re-create, in that order, each used only if that call is made.
   */
  method UpdateAffiliation(business: Business, bootstrap: Option<Bootstrap>, created: Reply, deleted: Reply, recreated: Reply)
    returns (calls: seq<Call>, reports: seq<Report>)
    // Every failure is reported and nothing else is: the run is clean exactly when the
    // business was affiliated, the old bootstrap affiliation was deleted with OK (not
    // merely CREATED), and the TMP re-create was accepted.
    ensures reports == [] <==>
      bootstrap.Some? && Accepted(created) && deleted == Status(200) && Accepted(recreated)
    // Exactly the reports sent: "Unable to affiliate" when the refused create's delete
    // returned, then the broad-except message unless the run was clean.
    ensures reports ==
      (if bootstrap.Some? && created.Status? && !Accepted(created) && deleted.Status? then [UnableToAffiliate] else []) +
      (if bootstrap.Some? && Accepted(created) && deleted == Status(200) && Accepted(recreated) then [] else [AffiliationError])
    // No bootstrap: nothing is called.
    ensures bootstrap.None? ==> calls == []
    ensures bootstrap.Some? ==>
      var account := bootstrap.value.account;
      && calls != []
      && calls[0] == CreateAffiliation(account, business.identifier, business.legalName, business.legalType)
      && (forall i :: 0 <= i < |calls| ==> !calls[i].GetBearerToken? && !calls[i].ConsumeNameRequest? && calls[i].account == account)
      // A create that raised: nothing more.
      && (created.Raised? ==> |calls| == 1)
      // A refused create: exactly one delete, on the business identifier.
      && (created.Status? && !Accepted(created) ==>
            calls[1..] == [DeleteAffiliation(account, business.identifier)])
      // An accepted create: delete on the bootstrap identifier, then (unless that raised)
      // re-create it named after the business, with type TMP.
      && (Accepted(created) ==>
            calls[1..] == [DeleteAffiliation(account, Str(bootstrap.value.identifier))] +
              (if deleted.Raised? then []
               else [CreateAffiliation(account, Str(bootstrap.value.identifier), business.identifier, Str("TMP"))]))
  {
    calls, reports := [], [];
    if bootstrap.None? {
      // `bootstrap.account` on None raises AttributeError.
      reports := [AffiliationError];
      return;
    }
    var account := bootstrap.value.account;
    calls := [CreateAffiliation(account, business.identifier, business.legalName, business.legalType)];
    if created.Raised? {
      reports := [AffiliationError];
      return;
    }
    // The locals that lines 97-99 test for with `in locals()`.
    var deaffiliation: Option<Reply> := None;
    var reaffiliate: Option<bool> := None;
    if !Accepted(created) {
      calls := calls + [DeleteAffiliation(account, business.identifier)];
      if deleted.Raised? {
        reports := [AffiliationError];
        return;
      }
      deaffiliation := Some(deleted);
      reports := [UnableToAffiliate];
    } else {
      calls := calls + [DeleteAffiliation(account, Str(bootstrap.value.identifier))];
      if deleted.Raised? {
        reports := [AffiliationError];
        return;
      }
      calls := calls + [CreateAffiliation(account, Str(bootstrap.value.identifier), business.identifier, Str("TMP"))];
      if recreated.Raised? {
        reports := [AffiliationError];
        return;
      }
      reaffiliate := Some(Accepted(recreated) && deleted == Status(200));
    }
    if !Accepted(created) || (deaffiliation.Some? && deaffiliation != Some(Status(200)))
       || (reaffiliate.Some? && reaffiliate != Some(true)) {
      // The QueueException, caught by the broad except.
      reports := reports + [AffiliationError];
    }
  }

  const NrNumberPath: seq<string> := ["filing", "incorporationApplication", "nameRequest", "nrNumber"]

  /**
    `consume_nr(business, filing)`. `bootstrap` is what the lookup by `filing.temp_reg`
    found, `namexUrl` the configured name service URL, `token` what
    `get_bearer_token()` returned (None when there is none) or the exception it raised,
    `patched` the reply of the PATCH to the name service and `deleted` that of the
    affiliation delete. `except KeyError` covers the whole `try`, so a KeyError from any
    of these calls ends the run silently too.
   */
  method ConsumeNr(business: Business, filing: FilingRecord, bootstrap: Option<Bootstrap>, namexUrl: string,
                   token: Result<Option<string>, PyError>, patched: Reply, deleted: Reply)
    returns (calls: seq<Call>, reports: seq<Report>)
    // A KeyError on the way to `nrNumber` bails out silently: no call, no report; any
    // other exception there is reported, still before any call.
    ensures GetPath(filing.filingJson, NrNumberPath) == Err(KeyError) ==> calls == [] && reports == []
    ensures GetPath(filing.filingJson, NrNumberPath).Err? ==> calls == []
    // A token fetch that raised, a None token or an NR number that is not a string
    // stops before the PATCH: the token fetch is the only call.
    ensures var nr := GetPath(filing.filingJson, NrNumberPath);
      nr.Ok? && !(nr.value.Str? && token.Ok? && token.value.Some?) ==> calls == [GetBearerToken]
    // At most one report, and none exactly when every step went through or the first
    // exception on the way was a KeyError.
    ensures reports == [] || reports == [ConsumeNrError]
    ensures var nr := GetPath(filing.filingJson, NrNumberPath);
      reports == [] <==>
        || nr == Err(KeyError)
        || (nr.Ok? && token == Err(KeyError))
        || (nr.Ok? && nr.value.Str? && token.Ok? && token.value.Some? &&
            (SilentlyDropped(patched) ||
             (patched == Status(200) && bootstrap.Some? && (deleted.Status? || SilentlyDropped(deleted)))))
    // Once the NR number is read, the token is fetched, then the NR is consumed for the
    // business, then (on a 200 reply) the NR's affiliation is deleted.
    ensures var nr := GetPath(filing.filingJson, NrNumberPath);
      && (nr.Ok? ==> calls != [] && calls[0] == GetBearerToken)
      && (nr.Ok? && nr.value.Str? && token.Ok? && token.value.Some? ==>
            |calls| >= 2 && calls[1] == ConsumeNameRequest(namexUrl + nr.value.s, business.identifier, token.value.value))
      && (|calls| == 3 <==> nr.Ok? && nr.value.Str? && token.Ok? && token.value.Some? && patched == Status(200) && bootstrap.Some?)
      && (|calls| == 3 ==> calls[2] == DeleteAffiliation(bootstrap.value.account, nr.value))
      && |calls| <= 3
  {
    calls, reports := [], [];
    var nr := GetPath(filing.filingJson, NrNumberPath);
    if nr.Err? {
      if nr.error != KeyError {
        reports := [ConsumeNrError];
      }
      return;
    }
    calls := [GetBearerToken];
    if token.Err? {
      if token.error != KeyError {
        reports := [ConsumeNrError];
      }
      return;
    }
    if !nr.value.Str? || token.value.None? {
      // `''.join([namex_svc_url, nr_num])` or `BEARER + token` raises TypeError.
      reports := [ConsumeNrError];
      return;
    }
    calls := calls + [ConsumeNameRequest(namexUrl + nr.value.s, business.identifier, token.value.value)];
    if SilentlyDropped(patched) {
      return;
    }
    if patched != Status(200) {
      // A raised request, or the QueueException for a status other than OK.
      reports := [ConsumeNrError];
      return;
    }
    if bootstrap.None? {
      // `bootstrap.account` on None raises AttributeError.
      reports := [ConsumeNrError];
      return;
    }
    calls := calls + [DeleteAffiliation(bootstrap.value.account, nr.value)];
    if deleted.Raised? && !SilentlyDropped(deleted) {
      reports := [ConsumeNrError];
    }
  }

  /** The `nrNumber` key missing from a name request that is a dict is the KeyError `consume_nr` passes over. */
  lemma AbsentNrNumberIsKeyError(filingJson: Json)
    requires var nameRequest := GetPath(filingJson, NrNumberPath[..3]);
      nameRequest.Ok? && nameRequest.value.Obj? && "nrNumber" !in Keys(nameRequest.value.fields)
    ensures GetPath(filingJson, NrNumberPath) == Err(KeyError)
  {
    assert NrNumberPath == NrNumberPath[..3] + ["nrNumber"];
    MissingKeyRaisesKeyError(filingJson, NrNumberPath[..3], "nrNumber");
  }
}
