/** The status of an alert. */
module Alert {

  datatype AlertStatus = Nonexistent | Rising | MayRise | Raised | Dropping | Canceled
}
