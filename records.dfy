/** The records this console reads from the record store, each field in its raw shape. */
module Records {
  import opened Fields

  /** An incident, restricted to the fields the list and the card display. */
  datatype Incident = Incident(
    sysId: Field,
    number: Field,
    shortDescription: Field,
    state: Field,
    priority: Field,
    assignedTo: Field,
    callerId: Field,
    assignmentGroup: Field,
    createdOn: Field,
    updatedOn: Field)

  /** A candidate of the user picker. */
  datatype User = User(sysId: Field, name: Field, userName: Field, email: Field)

  /** A candidate of the notification picker. */
  datatype Notification = Notification(sysId: Field, name: Field, description: Field)
}
