/** The records the parser produces: `CommunicationCreate` and `ContactCreate`. */
module Schema {

  /** A typed communication entry of a contact; `commLabel` is the schema's `label` (a Dafny keyword). */
  datatype Communication = Communication(commType: string, commLabel: string, value: string)

  /** A contact ready to be stored, with its communications in order. */
  datatype Contact = Contact(
    firstName: string,
    lastName: string,
    company: string,
    notes: string,
    address: string,
    communications: seq<Communication>)
}
