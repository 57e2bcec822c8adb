/**
 * A vCard 3.0 card (RFC 2426) as the vobject library hands it to the parser:
 * the properties the parser asks for, each present or absent, already
 * unfolded, unescaped and split into components.
 */
module VCard {
  import opened Wrappers

  /** The structured name N (section 3.1.2 of RFC 2426); only the two components the parser reads. */
  datatype StructuredName = StructuredName(family: string, given: string)

  /** The ORG value (section 3.5.5 of RFC 2426): a list of components, or plain text. */
  datatype OrgValue = OrgList(components: seq<string>) | OrgText(text: string)

  /** The delivery address ADR (section 3.2.1 of RFC 2426), all seven components. */
  datatype DeliveryAddress = DeliveryAddress(
    box: string,
    extended: string,
    street: string,
    city: string,
    region: string,
    code: string,
    country: string)

  /**
   * One TEL or EMAIL occurrence: its TYPE parameter values, in order
   * (empty when the occurrence has no TYPE parameter), and its raw value.
   */
  datatype Occurrence = Occurrence(types: seq<string>, value: string)

  /**
   * One parsed card. Each optional field is the card's FIRST occurrence of that
   * property (what vobject's attribute access returns); TEL and EMAIL keep every
   * occurrence, in order.
   */
  datatype Card = Card(
    name: Option<StructuredName>,
    formattedName: Option<string>,
    org: Option<OrgValue>,
    note: Option<string>,
    adr: Option<DeliveryAddress>,
    tel: seq<Occurrence>,
    email: seq<Occurrence>)
}
