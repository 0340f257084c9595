/** The shared record types of the application. */
module Types {
  import opened Wrappers

  /** A donation listing; the image and the distance are optional and purely presentational. */
  datatype Listing = Listing(
    id: string,
    restaurantName: string,
    foodType: string,
    description: string,
    quantity: string,
    pickupTime: string,
    address: string,
    imageUrl: Option<string>,
    distance: Option<string>)

  /** The donation sizes the pickup-time suggestion understands. */
  datatype DonationSize = Small | Medium | Large

  /** The string literal of each size. */
  function DonationSizeName(d: DonationSize): string {
    match d
    case Small => "small"
    case Medium => "medium"
    case Large => "large"
  }

  /** Reads a size from its literal; any other string is not a size. */
  function ParseDonationSize(s: string): (r: Option<DonationSize>)
    ensures r.Some? ==> DonationSizeName(r.value) == s
  {
    if s == "small" then Some(Small)
    else if s == "medium" then Some(Medium)
    else if s == "large" then Some(Large)
    else None
  }

  /** Every size is read back from its own literal. */
  lemma DonationSizeRoundTrip(d: DonationSize)
    ensures ParseDonationSize(DonationSizeName(d)) == Some(d)
  {
  }
}
