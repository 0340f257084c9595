/**
 * The create-listing form: its validation schema, the pickup-window rule, the
 * "use this time" 30-minute window, the guards in front of the two suggestion
 * requests, and the submission that hands a valid form to the store.
 */
module CreateListingForm {
  import opened Wrappers
  import opened Text
  import opened Clock
  import opened Types
  import opened ListingsStore

  /** The food types the form offers. */
  const FoodTypeOptions: seq<string> := [
    "Bakery (Bread, Pastries, Cakes)",
    "Italian (Pizza, Pasta)",
    "Asian (Sushi, Noodles, Rice dishes)",
    "Sandwiches & Salads",
    "Mexican (Tacos, Burritos)",
    "Indian (Curries, Biryani)",
    "Fast Food (Burgers, Fries)",
    "Beverages",
    "Groceries (Canned goods, Produce)",
    "Desserts",
    "Other"
  ]

  /** The form's field values; a field the user has not set is the empty string. */
  datatype FormValues = FormValues(
    restaurantName: string,
    foodType: string,
    description: string,
    quantity: string,
    donationSize: string,
    closingTime: string,
    pickupWindowStart: string,
    pickupWindowEnd: string,
    address: string)

  /** The values a new form starts with. */
  const InitialValues: FormValues := FormValues("", "", "", "", "", "22:00", "", "", "")

  /** One broken rule of the schema. */
  datatype Issue =
    | RestaurantNameTooShort
    | FoodTypeNotAnOption
    | DescriptionTooShort
    | DescriptionTooLong
    | QuantityRequired
    | DonationSizeNotAnOption
    | ClosingTimeInvalid
    | PickupWindowStartInvalid
    | PickupWindowEndInvalid
    | AddressTooShort
    | StartNotBeforeEnd

  /** The schema's refinement: when both ends are filled in, the start must sort before the end. */
  predicate PickupWindowOrdered(start: string, end: string) {
    start == "" || end == "" || StrLess(start, end)
  }

  /** The rules `v` breaks, in the order the schema states them. */
  function Issues(v: FormValues): seq<Issue> {
    (if |v.restaurantName| < 2 then [RestaurantNameTooShort] else [])
    + (if v.foodType !in FoodTypeOptions then [FoodTypeNotAnOption] else [])
    + (if |v.description| < 10 then [DescriptionTooShort] else [])
    + (if |v.description| > 300 then [DescriptionTooLong] else [])
    + (if |v.quantity| < 1 then [QuantityRequired] else [])
    + (if ParseDonationSize(v.donationSize).None? then [DonationSizeNotAnOption] else [])
    + (if !IsTime(v.closingTime) then [ClosingTimeInvalid] else [])
    + (if !IsTime(v.pickupWindowStart) then [PickupWindowStartInvalid] else [])
    + (if !IsTime(v.pickupWindowEnd) then [PickupWindowEndInvalid] else [])
    + (if |v.address| < 5 then [AddressTooShort] else [])
    + (if !PickupWindowOrdered(v.pickupWindowStart, v.pickupWindowEnd) then [StartNotBeforeEnd] else [])
  }

  /** The part of the form the store keeps. */
  function ToPayload(v: FormValues): CreateListingFormData {
    CreateListingFormData(v.restaurantName, v.foodType, v.description, v.quantity,
                          v.pickupWindowStart, v.pickupWindowEnd, v.address)
  }

  /** The verdict of the schema: the payload for the store, or every broken rule. */
  function Validate(v: FormValues): (r: Result<CreateListingFormData, seq<Issue>>)
    ensures r.Ok? <==> Issues(v) == []
    ensures r.Err? ==> r.error == Issues(v) && r.error != []
  {
    if Issues(v) == [] then Ok(ToPayload(v)) else Err(Issues(v))
  }

  /** A form is accepted exactly when every field is within its bounds and the window is in order. */
  lemma ValidateAcceptsIff(v: FormValues)
    ensures Validate(v).Ok? <==>
      && |v.restaurantName| >= 2
      && v.foodType in FoodTypeOptions
      && 10 <= |v.description| <= 300
      && |v.quantity| >= 1
      && v.donationSize in ["small", "medium", "large"]
      && IsTime(v.closingTime) && IsTime(v.pickupWindowStart) && IsTime(v.pickupWindowEnd)
      && |v.address| >= 5
      && StrLess(v.pickupWindowStart, v.pickupWindowEnd)
    ensures Validate(v).Ok? ==> Validate(v).value == ToPayload(v)
  {
  }

  /** An accepted pickup window is chronological: its start is an earlier minute of the day than its end. */
  lemma AcceptedWindowIsChronological(v: FormValues)
    requires Validate(v).Ok?
    ensures Minutes(v.pickupWindowStart) < Minutes(v.pickupWindowEnd)
  {
    TimeOrder(v.pickupWindowStart, v.pickupWindowEnd);
  }

  /** A window that starts when it ends is rejected, whatever the time. */
  lemma EmptyWindowRejected(v: FormValues)
    requires v.pickupWindowStart != "" && v.pickupWindowStart == v.pickupWindowEnd
    ensures StartNotBeforeEnd in Issues(v) && Validate(v).Err?
  {
    StrLessIrreflexive(v.pickupWindowStart);
  }

  /** Two well-formed times that are not chronologically ordered are rejected by the refinement. */
  lemma RejectsUnorderedWindow(v: FormValues)
    requires IsTime(v.pickupWindowStart) && IsTime(v.pickupWindowEnd)
    requires Minutes(v.pickupWindowStart) >= Minutes(v.pickupWindowEnd)
    ensures StartNotBeforeEnd in Issues(v) && Validate(v).Err?
  {
    TimeOrder(v.pickupWindowStart, v.pickupWindowEnd);
  }

  /**
   * The listing stored for an accepted form carries a pickup time from which
   * the submitted start and end are read back unchanged, in chronological order.
   */
  lemma AcceptedPickupTimeReadsBack(v: FormValues)
    requires Validate(v).Ok?
    ensures ParsePickupTime(PickupTime(v.pickupWindowStart, v.pickupWindowEnd))
              == Some((v.pickupWindowStart, v.pickupWindowEnd))
    ensures Minutes(v.pickupWindowStart) < Minutes(v.pickupWindowEnd)
  {
    PickupTimeRoundTrip(v.pickupWindowStart, v.pickupWindowEnd, "");
    AcceptedWindowIsChronological(v);
  }

  /** A fresh form is rejected, and neither suggestion can be requested from it. */
  lemma InitialValuesRejected()
    ensures Validate(InitialValues).Err?
    ensures RestaurantNameTooShort in Issues(InitialValues) && ClosingTimeInvalid !in Issues(InitialValues)
    ensures PickupTimeRequest(InitialValues).None? && DescriptionRequest(InitialValues).None?
  {
  }

  // ---------------------------------------------------------------- suggestions

  /** The input of the pickup-time suggestion request. */
  datatype PickupTimeInput = PickupTimeInput(closingTime: string, donationSize: string, foodType: string)

  /** The input of the description suggestion request. */
  datatype DescriptionInput = DescriptionInput(foodType: string, quantity: string)

  /** `handleSuggestPickupTime`'s guard: the request, or none when a needed field is empty. */
  function PickupTimeRequest(v: FormValues): Option<PickupTimeInput> {
    if v.closingTime == "" || v.donationSize == "" || v.foodType == "" then None
    else Some(PickupTimeInput(v.closingTime, v.donationSize, v.foodType))
  }

  /** `handleSuggestDescription`'s guard: the request, or none when a needed field is empty. */
  function DescriptionRequest(v: FormValues): Option<DescriptionInput> {
    if v.foodType == "" || v.quantity == "" then None
    else Some(DescriptionInput(v.foodType, v.quantity))
  }

  /** The "Suggest Pickup Time" button is disabled while a suggestion runs or a needed field is empty. */
  predicate SuggestPickupTimeDisabled(v: FormValues, suggesting: bool) {
    suggesting || v.closingTime == "" || v.donationSize == "" || v.foodType == ""
  }

  /** The "Suggest Description" button is disabled while a suggestion runs or a needed field is empty. */
  predicate SuggestDescriptionDisabled(v: FormValues, suggesting: bool) {
    suggesting || v.foodType == "" || v.quantity == ""
  }

  /**
   * A pickup-time suggestion is requested exactly when closing time, donation
   * size and food type are all filled in, with those three values; the button
   * is enabled in the same case.
   */
  lemma PickupTimeRequestGuard(v: FormValues)
    ensures PickupTimeRequest(v).Some? <==> v.closingTime != "" && v.donationSize != "" && v.foodType != ""
    ensures PickupTimeRequest(v).Some? ==>
              PickupTimeRequest(v).value == PickupTimeInput(v.closingTime, v.donationSize, v.foodType)
    ensures !SuggestPickupTimeDisabled(v, false) <==> PickupTimeRequest(v).Some?
  {
  }

  /**
   * A description suggestion is requested exactly when food type and quantity
   * are both filled in, with those two values; the button is enabled in the same case.
   */
  lemma DescriptionRequestGuard(v: FormValues)
    ensures DescriptionRequest(v).Some? <==> v.foodType != "" && v.quantity != ""
    ensures DescriptionRequest(v).Some? ==> DescriptionRequest(v).value == DescriptionInput(v.foodType, v.quantity)
    ensures !SuggestDescriptionDisabled(v, false) <==> DescriptionRequest(v).Some?
  {
  }

  /**
   * The window "use this time" derives from a suggested time: the first two
   * `:`-separated fields read as hours and minutes (an empty field reads as 0),
   * normalised to a minute of the day, and the minute 30 later, both formatted
   * as `HH:MM`. A suggestion whose fields are not digit runs is outside the model.
   */
  function SuggestedWindow(suggested: string): (r: Option<(string, string)>)
    ensures r.Some? ==> IsTime(r.value.0) && IsTime(r.value.1)
    ensures r.Some? ==> Minutes(r.value.1) == (Minutes(r.value.0) + 30) % DayMinutes
  {
    var fields := Split(suggested, ':');
    if |fields| >= 2 && AllDigits(fields[0]) && AllDigits(fields[1]) then
      var start := (Decimal(fields[0]) * 60 + Decimal(fields[1])) % DayMinutes;
      var end := (start + 30) % DayMinutes;
      FormatTimeIsTime(start);
      FormatTimeIsTime(end);
      Some((FormatTime(start), FormatTime(end)))
    else
      None
  }

  /** Applying a suggestion sets the two window fields and nothing else. */
  function ApplySuggestedTime(v: FormValues, suggested: string): (r: Option<FormValues>)
    ensures r.Some? <==> SuggestedWindow(suggested).Some?
    ensures r.Some? ==> r.value.pickupWindowStart == SuggestedWindow(suggested).value.0
                        && r.value.pickupWindowEnd == SuggestedWindow(suggested).value.1
    ensures r.Some? ==> r.value.(pickupWindowStart := v.pickupWindowStart, pickupWindowEnd := v.pickupWindowEnd) == v
  {
    match SuggestedWindow(suggested)
    case None => None
    case Some((start, end)) => Some(v.(pickupWindowStart := start, pickupWindowEnd := end))
  }

  /** A well-formed suggested time `S` becomes the window from `S` itself to `S` plus 30 minutes, modulo a day. */
  lemma {:induction false} SuggestedWindowOfTime(s: string)
    requires IsTime(s)
    ensures SuggestedWindow(s) == Some((s, FormatTime((Minutes(s) + 30) % DayMinutes)))
  {
    var fields := Split(s, ':');
    SplitTime(s);
    assert (Decimal(fields[0]) * 60 + Decimal(fields[1])) % DayMinutes == Minutes(s);
    MinutesFormatTime(s);
  }

  /** An `HH:MM` time splits at its colon into its hour and minute digits, which read as its minute of the day. */
  lemma SplitTime(s: string)
    requires IsTime(s)
    ensures Split(s, ':') == [s[..2], s[3..]]
    ensures AllDigits(s[..2]) && AllDigits(s[3..])
    ensures Decimal(s[..2]) * 60 + Decimal(s[3..]) == Minutes(s)
  {
    var hh, mm := s[..2], s[3..];
    assert s == hh + [':'] + mm;
    SplitAtFirst(hh, ':', mm);
    SplitNoSeparator(mm, ':');
    DecimalTwoDigits(hh);
    DecimalTwoDigits(mm);
  }

  /**
   * A window applied from a well-formed suggestion `S` passes the start-before-end
   * rule exactly when `S` is before 23:30; later suggestions wrap past midnight.
   */
  lemma SuggestedWindowOrdered(s: string)
    requires IsTime(s)
    ensures SuggestedWindow(s).Some?
    ensures (PickupWindowOrdered(SuggestedWindow(s).value.0, SuggestedWindow(s).value.1)
             <==> Minutes(s) < DayMinutes - 30)
  {
    SuggestedWindowOfTime(s);
    var end := FormatTime((Minutes(s) + 30) % DayMinutes);
    FormatTimeIsTime((Minutes(s) + 30) % DayMinutes);
    TimeOrder(s, end);
  }

  /**
   * Applying a well-formed suggestion to a form whose other fields pass the
   * schema (whatever its window holds) makes it valid exactly before 23:30.
   */
  lemma ApplySuggestedTimeValidity(v: FormValues, s: string)
    requires IsTime(s)
    requires |v.restaurantName| >= 2 && v.foodType in FoodTypeOptions
    requires 10 <= |v.description| <= 300 && |v.quantity| >= 1
    requires v.donationSize in ["small", "medium", "large"] && IsTime(v.closingTime)
    requires |v.address| >= 5
    ensures ApplySuggestedTime(v, s).Some?
    ensures Validate(ApplySuggestedTime(v, s).value).Ok? <==> Minutes(s) < DayMinutes - 30
  {
    SuggestedWindowOrdered(s);
    SuggestedWindowOfTime(s);
    FormatTimeIsTime((Minutes(s) + 30) % DayMinutes);
    ValidateAcceptsIff(ApplySuggestedTime(v, s).value);
  }

  /** A suggestion of 23:45 gives the window 23:45 to 00:15, which the schema rejects. */
  lemma LateSuggestionWraps()
    ensures SuggestedWindow("23:45") == Some(("23:45", "00:15"))
    ensures !PickupWindowOrdered("23:45", "00:15")
  {
    assert IsTime("23:45");
    SuggestedWindowOfTime("23:45");
    assert Minutes("23:45") == 1425;
    assert FormatTime(15) == "00:15";
    SuggestedWindowOrdered("23:45");
  }

  // ---------------------------------------------------------------- submission

  /**
   * Submitting the form: a form the schema accepts is added to the store (the
   * caller supplies the random id, image and distance); a rejected form leaves
   * the store as it was.
   */
  method Submit(store: Store, v: FormValues, id: string, imageUrl: string, distance: string)
    returns (r: Option<Listing>)
    requires store.Valid()
    modifies store
    ensures store.Valid()
    ensures r.Some? <==> Validate(v).Ok?
    ensures r.None? ==> store.listings == old(store.listings) && store.listeners == old(store.listeners)
                        && store.calls == old(store.calls)
    ensures r.Some? ==> store.listings == [r.value] + old(store.listings)
                        && r.value.pickupTime == PickupTime(v.pickupWindowStart, v.pickupWindowEnd)
                        && r.value.restaurantName == v.restaurantName && r.value.foodType == v.foodType
                        && r.value.description == v.description && r.value.quantity == v.quantity
                        && r.value.address == v.address && r.value.id == id
                        && r.value.imageUrl == Some(imageUrl) && r.value.distance == Some(distance)
    ensures r.Some? ==> && store.listeners == old(store.listeners)
                        && store.calls.Keys == old(store.calls.Keys)
                        && (forall l :: l in store.listeners ==> store.calls[l] == old(store.calls[l]) + 1)
                        && (forall l :: l in store.calls && l !in store.listeners ==> store.calls[l] == old(store.calls[l]))
  {
    match Validate(v)
    case Err(_) =>
      r := None;
    case Ok(payload) =>
      var listing := store.AddListing(payload, id, imageUrl, distance);
      r := Some(listing);
  }
}
