/** The rows of `default.public` that several components share. */
module Types {
  datatype Option<+T> = None | Some(value: T)

  /** Tenant.Status */
  datatype Status = New | Pending | Active | Deactivated | Failed | Maintenance

  /** The two columns of a Tenant row the status protocol reads and writes. */
  datatype Tenant = Tenant(status: Status, previous: Status)
}
