/** Optional values, the service's error kinds, and results that carry either. */
module Outcomes {

  datatype Option<+T> = None | Some(value: T)

  /** The HTTP errors raised by the services, one constructor per distinct cause. */
  datatype Error =
    | CurrencyCodeRequired   // 400: blank currency code in a create request
    | NameRequired           // 400: blank country name in a create request
    | PopulationRequired     // 400: population <= 0 in a create request
    | UpstreamFetchFailed    // 500: either upstream feed could not be fetched or decoded
    | CountryNotFound        // 404: no feed entry matched, or no stored row has the name
    | CurrencyExists         // 404: a stored row already holds the matched currency code
    | InternalError          // 500: an exception the service does not catch

  datatype Result<+T> = Ok(value: T) | Err(error: Error)
}
