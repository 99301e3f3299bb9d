/** What the node server leaves with the hub: notices shown to the user, and node addresses. */
module Hub {
  import opened Wrappers
  import opened Text

  /** `addNotice(text)` or `addNotice(text, key)`; `removeNoticesAll()` clears the list. */
  datatype Notice = Notice(key: Option<string>, text: string)

  /**
   * A node address. The node server only ever builds forecast addresses,
   * `'forecast_' + str(day)`; any other node (the controller's own `weather`) is kept by name.
   */
  datatype Address = Forecast(day: int) | Named(name: string)

  /** The address as the hub sees it. */
  function AddressText(a: Address): string
  {
    match a
    case Forecast(day) => "forecast_" + IntToString(day)
    case Named(name) => name
  }

  /** Different days have different address texts, so keying nodes by day loses nothing. */
  lemma {:induction false} ForecastTextInjective(d: int, e: int)
    requires AddressText(Forecast(d)) == AddressText(Forecast(e))
    ensures d == e
  {
    assert AddressText(Forecast(d))[9..] == IntToString(d);
    assert AddressText(Forecast(e))[9..] == IntToString(e);
    IntToStringInjective(d, e);
  }
}
