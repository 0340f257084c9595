/**
 * The claim form: its validation schema and the claim record built from the
 * accepted values and the listing being claimed. Nothing is stored.
 */
module ClaimForm {
  import opened Wrappers
  import opened Text

  /** The claim form's field values; an unset field is the empty string. */
  datatype ClaimValues = ClaimValues(name: string, location: string, phoneNumber: string, claimantType: string)

  /** Who is claiming. */
  datatype ClaimantType = Individual | Organisation

  function ClaimantTypeName(t: ClaimantType): string {
    match t
    case Individual => "individual"
    case Organisation => "organisation"
  }

  function ParseClaimantType(s: string): (r: Option<ClaimantType>)
    ensures r.Some? ==> ClaimantTypeName(r.value) == s
  {
    if s == "individual" then Some(Individual)
    else if s == "organisation" then Some(Organisation)
    else None
  }

  /** Each claimant type is read back from its own literal. */
  lemma ClaimantTypeRoundTrip(t: ClaimantType)
    ensures ParseClaimantType(ClaimantTypeName(t)) == Some(t)
  {
  }

  // ---------------------------------------------------------------- phone numbers

  /** The optional international prefix `(\+\d{1,3}[- ]?)?` of the phone pattern. */
  predicate IsCountryPrefix(p: string) {
    || p == []
    || (&& |p| >= 2 && p[0] == '+'
        && ((|p| <= 4 && AllDigits(p[1..]))
            || (|p| >= 3 && |p| <= 5 && AllDigits(p[1..|p| - 1]) && (p[|p| - 1] == '-' || p[|p| - 1] == ' '))))
  }

  /** Exactly ten digits. */
  predicate IsLocalNumber(d: string) {
    |d| == 10 && AllDigits(d)
  }

  /** The phone pattern `^(\+\d{1,3}[- ]?)?\d{10}$`: some split into a prefix and ten digits. */
  ghost predicate MatchesPhonePattern(s: string) {
    exists k :: 0 <= k <= |s| && IsCountryPrefix(s[..k]) && IsLocalNumber(s[k..])
  }

  /** The phone check: the last ten characters are digits and what precedes them is a prefix. */
  predicate IsPhoneNumber(s: string) {
    |s| >= 10 && IsLocalNumber(s[|s| - 10..]) && IsCountryPrefix(s[..|s| - 10])
  }

  /** The phone check accepts exactly the strings the pattern matches. */
  lemma PhoneNumberIff(s: string)
    ensures IsPhoneNumber(s) <==> MatchesPhonePattern(s)
  {
    if MatchesPhonePattern(s) {
      var k :| 0 <= k <= |s| && IsCountryPrefix(s[..k]) && IsLocalNumber(s[k..]);
      assert k == |s| - 10;
    }
    if IsPhoneNumber(s) {
      assert IsCountryPrefix(s[..|s| - 10]) && IsLocalNumber(s[|s| - 10..]);
    }
  }

  /** An accepted phone number has ten to fifteen characters. */
  lemma PhoneNumberLength(s: string)
    requires IsPhoneNumber(s)
    ensures 10 <= |s| <= 15
  {
  }

  /** The form's own placeholder is rejected; bare ten digits and `+1 ` followed by ten digits are accepted. */
  lemma PhoneNumberExamples()
    ensures !IsPhoneNumber("555-123-4567")
    ensures IsPhoneNumber("5551234567")
    ensures IsPhoneNumber("+1 5551234567")
    ensures IsPhoneNumber("+15551234567")
    ensures !IsPhoneNumber("+1234 5551234567")
  {
    assert "555-123-4567"[2..] == "5-123-4567";
    assert !IsDigit("5-123-4567"[1]);
    assert "5551234567"[..0] == [];
    assert "+1 5551234567"[..3] == "+1 ";
    assert "+1 5551234567"[3..] == "5551234567";
    assert "+15551234567"[..2] == "+1";
    assert "+15551234567"[2..] == "5551234567";
    assert "+1234 5551234567"[..6] == "+1234 ";
  }

  // ---------------------------------------------------------------- schema

  datatype ClaimIssue = NameTooShort | LocationTooShort | InvalidPhoneNumber | ClaimantTypeNotAnOption

  /** The rules `v` breaks, in the order the schema states them. */
  function ClaimIssues(v: ClaimValues): seq<ClaimIssue> {
    (if |v.name| < 2 then [NameTooShort] else [])
    + (if |v.location| < 5 then [LocationTooShort] else [])
    + (if !IsPhoneNumber(v.phoneNumber) then [InvalidPhoneNumber] else [])
    + (if ParseClaimantType(v.claimantType).None? then [ClaimantTypeNotAnOption] else [])
  }

  /** The submitted claim: the form's values plus the listing's id and restaurant name. */
  datatype ClaimData = ClaimData(
    name: string,
    location: string,
    phoneNumber: string,
    claimantType: string,
    listingId: string,
    listingRestaurantName: string)

  /** Submitting: an accepted form yields the merged claim record, a rejected one its issues. */
  function SubmitClaim(v: ClaimValues, listingId: string, listingRestaurantName: string): (r: Result<ClaimData, seq<ClaimIssue>>)
    ensures r.Ok? <==> ClaimIssues(v) == []
    ensures r.Err? ==> r.error == ClaimIssues(v) && r.error != []
  {
    if ClaimIssues(v) == [] then
      Ok(ClaimData(v.name, v.location, v.phoneNumber, v.claimantType, listingId, listingRestaurantName))
    else
      Err(ClaimIssues(v))
  }

  /** The form values a claim record was built from. */
  function ValuesOf(c: ClaimData): ClaimValues {
    ClaimValues(c.name, c.location, c.phoneNumber, c.claimantType)
  }

  /**
   * A claim is accepted exactly when the name has two characters, the
   * location five, the phone number matches the pattern and the claimant type
   * is one of the two options.
   */
  lemma SubmitClaimAcceptsIff(v: ClaimValues, listingId: string, listingRestaurantName: string)
    ensures SubmitClaim(v, listingId, listingRestaurantName).Ok? <==>
      && |v.name| >= 2
      && |v.location| >= 5
      && MatchesPhonePattern(v.phoneNumber)
      && (v.claimantType == "individual" || v.claimantType == "organisation")
  {
    PhoneNumberIff(v.phoneNumber);
    var a := if |v.name| < 2 then [NameTooShort] else [];
    var b := if |v.location| < 5 then [LocationTooShort] else [];
    var c := if !IsPhoneNumber(v.phoneNumber) then [InvalidPhoneNumber] else [];
    var d := if ParseClaimantType(v.claimantType).None? then [ClaimantTypeNotAnOption] else [];
    assert ClaimIssues(v) == a + b + c + d;
    assert |ClaimIssues(v)| == |a| + |b| + |c| + |d|;
  }

  /** An accepted claim is exactly the form's values with the listing's id and name added. */
  lemma SubmitClaimMerges(v: ClaimValues, listingId: string, listingRestaurantName: string)
    requires SubmitClaim(v, listingId, listingRestaurantName).Ok?
    ensures ValuesOf(SubmitClaim(v, listingId, listingRestaurantName).value) == v
    ensures SubmitClaim(v, listingId, listingRestaurantName).value.listingId == listingId
    ensures SubmitClaim(v, listingId, listingRestaurantName).value.listingRestaurantName == listingRestaurantName
  {
  }
}
