/**
 * `parse_vcards`: turns the cards read from a vCard 3.0 document into
 * contacts ready to be stored, one contact per card, in card order.
 *
 * The pure parts of the conversion (name resolution, organisation, address,
 * labels, the communications list) are specification functions, with their
 * properties proved as lemmas; `NormalizeCard` and `ParseVCards` are the
 * step-by-step conversion, each proved equal to those functions.
 */
module VCardParser {
  import opened Wrappers
  import opened Text
  import opened VCard
  import opened Schema

  /** The only error the conversion raises: indexing an ORG list that has no component. */
  datatype ParseError = OrgIndexError

  /** The two kinds of communication, flattened in this order: phones, then emails. */
  datatype CommKind = Phone | Email

  /** The `comm_type` of a kind, which is also its default label. */
  function KindName(kind: CommKind): string
  {
    match kind
    case Phone => "phone"
    case Email => "email"
  }

  datatype PersonName = PersonName(first: string, last: string)

  /**
   * First and last name. The structured name N wins whatever FN says; without N,
   * FN is split at its first space character; without either, both are empty.
   */
  function NameOf(card: Card): (r: PersonName)
    ensures card.name.Some? ==> r == PersonName(card.name.value.given, card.name.value.family)
    ensures card.name.None? && card.formattedName.None? ==> r == PersonName("", "")
    ensures card.name.None? && card.formattedName.Some? ==>
      var fn := card.formattedName.value;
      ' ' !in r.first &&
      if ' ' in fn then r.first + " " + r.last == fn else r.first == fn && r.last == ""
  {
    if card.name.Some? then
      PersonName(card.name.value.given, card.name.value.family)
    else if card.formattedName.Some? then
      var parts := SplitOnce(card.formattedName.value, ' ');
      if |parts| == 2 then PersonName(parts[0], parts[1]) else PersonName(parts[0], "")
    else
      PersonName("", "")
  }

  /** The company: the first ORG component when ORG is a list, the ORG text otherwise, empty when absent. */
  function CompanyOf(org: Option<OrgValue>): (r: Result<string, ParseError>)
    ensures r.Err? <==> org == Some(OrgList([]))
    ensures org.None? ==> r == Ok("")
    ensures org.Some? && org.value.OrgText? ==> r == Ok(org.value.text)
    ensures org.Some? && org.value.OrgList? && r.Ok? ==> r.value == org.value.components[0]
  {
    if org.None? then Ok("")
    else
      match org.value
      case OrgList(components) => if components == [] then Err(OrgIndexError) else Ok(components[0])
      case OrgText(text) => Ok(text)
  }

  /** The note, passed through unchanged; empty when absent. */
  function NotesOf(note: Option<string>): (r: string)
    ensures note.Some? ==> r == note.value
    ensures note.None? ==> r == ""
  {
    if note.Some? then note.value else ""
  }

  /** The four ADR components that make up the address line, in the order they are written. */
  function AddressParts(adr: DeliveryAddress): seq<string>
  {
    [adr.street, adr.city, adr.code, adr.country]
  }

  /** The non-empty ADR components among street, locality, postal code and country, joined with ", ". */
  function AddressLine(adr: DeliveryAddress): (r: string)
    ensures r == AppendSkippingEmpty("", [adr.street, adr.city, adr.code, adr.country], ", ")
  {
    JoinNonEmptyIsAppendSkippingEmpty(AddressParts(adr), ", ");
    Join(NonEmpty(AddressParts(adr)), ", ")
  }

  /** The address line of a card; empty when it has no ADR. */
  function AddressOf(adr: Option<DeliveryAddress>): (r: string)
    ensures adr.None? ==> r == ""
  {
    if adr.None? then "" else AddressLine(adr.value)
  }

  /** The address line is empty exactly when ADR is absent or its four kept components are all empty. */
  lemma AddressEmptyIff(adr: Option<DeliveryAddress>)
    ensures AddressOf(adr) == "" <==>
      adr.None? || (adr.value.street == "" && adr.value.city == "" && adr.value.code == "" && adr.value.country == "")
  {
    if adr.Some? {
      var kept := NonEmpty(AddressParts(adr.value));
      var parts := AddressParts(adr.value);
      NonEmptyMembers(parts);
      JoinEmptyIff(kept, ", ");
      if kept != [] {
        assert kept[0] in parts && kept[0] != "";
      } else {
        assert parts[0] !in kept && parts[1] !in kept && parts[2] !in kept && parts[3] !in kept;
      }
    }
  }

  /**
   * The address line has no gaps: it starts with the first kept component, ends with
   * the last one, and holds exactly one ", " between each two neighbouring components.
   */
  lemma AddressNoGaps(adr: DeliveryAddress)
    requires NonEmpty(AddressParts(adr)) != []
    ensures var kept := NonEmpty(AddressParts(adr)); var line := AddressOf(Some(adr));
      |line| == TotalLength(kept) + 2 * (|kept| - 1) &&
      |kept[0]| <= |line| && line[..|kept[0]|] == kept[0] &&
      |kept[|kept| - 1]| <= |line| && line[|line| - |kept[|kept| - 1]|..] == kept[|kept| - 1]
  {
    var kept := NonEmpty(AddressParts(adr));
    JoinLength(kept, ", ");
    JoinEnds(kept, ", ");
  }

  /** With all four kept components present, the address line is street, locality, postal code and country, comma-separated. */
  lemma AddressAllPresent(adr: DeliveryAddress)
    requires adr.street != "" && adr.city != "" && adr.code != "" && adr.country != ""
    ensures AddressOf(Some(adr)) == adr.street + ", " + (adr.city + ", " + (adr.code + ", " + adr.country))
  {
    var parts := AddressParts(adr);
    NonEmptyKeepsAll(parts);
    assert Join(parts[1..][1..][1..], ", ") == adr.country;
    assert Join(parts[1..][1..], ", ") == adr.code + ", " + adr.country;
    assert Join(parts[1..], ", ") == adr.city + ", " + (adr.code + ", " + adr.country);
  }

  /** PO box, extended address and region never reach the address line. */
  lemma AddressIgnoresBoxExtendedRegion(adr: DeliveryAddress, box: string, extended: string, region: string)
    ensures AddressOf(Some(adr.(box := box, extended := extended, region := region))) == AddressOf(Some(adr))
  {
  }

  /**
   * The label of one TEL or EMAIL occurrence: its TYPE values joined with "," and
   * lower-cased, or the kind's name when it has no TYPE value.
   */
  function Label(types: seq<string>, kind: CommKind): (r: string)
    ensures forall i :: 0 <= i < |r| ==> !IsUpper(r[i])
    ensures types == [] ==> r == KindName(kind)
    ensures types != [] ==> r == Join(LowerAll(types), ",")
  {
    LowerJoin(types, ",");
    assert Lower("phone") == "phone";
    assert Lower("email") == "email";
    Lower(if types != [] then Join(types, ",") else KindName(kind))
  }

  /** The communication one occurrence becomes. */
  function CommunicationOf(occ: Occurrence, kind: CommKind): (r: Communication)
    ensures r.value == occ.value
    ensures r.commType == KindName(kind)
    ensures occ.types == [] ==> r.commLabel == r.commType
  {
    Communication(KindName(kind), Label(occ.types, kind), occ.value)
  }

  /** Every occurrence of one kind, converted in order. */
  function Flatten(occs: seq<Occurrence>, kind: CommKind): (r: seq<Communication>)
    ensures forall i :: 0 <= i < |r| ==> r[i].commType == KindName(kind)
  {
    if occs == [] then [] else Flatten(occs[..|occs| - 1], kind) + [CommunicationOf(occs[|occs| - 1], kind)]
  }

  lemma {:induction false} FlattenLength(occs: seq<Occurrence>, kind: CommKind)
    ensures |Flatten(occs, kind)| == |occs|
  {
    if occs != [] {
      FlattenLength(occs[..|occs| - 1], kind);
    }
  }

  /** The k-th flattened entry is the k-th occurrence converted: nothing is dropped, added or reordered. */
  lemma {:induction false} FlattenAt(occs: seq<Occurrence>, kind: CommKind, k: nat)
    requires k < |occs|
    ensures |Flatten(occs, kind)| == |occs|
    ensures Flatten(occs, kind)[k] == CommunicationOf(occs[k], kind)
  {
    FlattenLength(occs, kind);
    if k < |occs| - 1 {
      FlattenAt(occs[..|occs| - 1], kind, k);
    }
  }

  /** Flattening one more occurrence appends exactly its communication. */
  lemma FlattenSnoc(occs: seq<Occurrence>, kind: CommKind, i: nat)
    requires i < |occs|
    ensures Flatten(occs[..i + 1], kind) == Flatten(occs[..i], kind) + [CommunicationOf(occs[i], kind)]
  {
    assert occs[..i + 1][..i] == occs[..i];
  }

  /** The communications of a card: every TEL occurrence, then every EMAIL occurrence. */
  function CommunicationsOf(card: Card): (r: seq<Communication>)
    ensures |r| == |card.tel| + |card.email|
  {
    FlattenLength(card.tel, Phone);
    FlattenLength(card.email, Email);
    Flatten(card.tel, Phone) + Flatten(card.email, Email)
  }

  /**
   * One communication per TEL and EMAIL occurrence; all phones come before all
   * emails and each kind keeps its source order, with the raw value and its label.
   */
  lemma CommunicationsLayout(card: Card)
    ensures |CommunicationsOf(card)| == |card.tel| + |card.email|
    ensures forall i :: 0 <= i < |card.tel| ==>
      CommunicationsOf(card)[i] == Communication("phone", Label(card.tel[i].types, Phone), card.tel[i].value)
    ensures forall j :: 0 <= j < |card.email| ==>
      CommunicationsOf(card)[|card.tel| + j] == Communication("email", Label(card.email[j].types, Email), card.email[j].value)
    ensures forall i, j :: 0 <= i < j < |CommunicationsOf(card)| && CommunicationsOf(card)[i].commType == "email" ==>
      CommunicationsOf(card)[j].commType == "email"
  {
    var comms := CommunicationsOf(card);
    FlattenLength(card.tel, Phone);
    FlattenLength(card.email, Email);
    forall i | 0 <= i < |card.tel|
      ensures comms[i] == CommunicationOf(card.tel[i], Phone)
    {
      FlattenAt(card.tel, Phone, i);
    }
    forall j | 0 <= j < |card.email|
      ensures comms[|card.tel| + j] == CommunicationOf(card.email[j], Email)
    {
      FlattenAt(card.email, Email, j);
    }
    forall i | 0 <= i < |comms|
      ensures comms[i].commType == (if i < |card.tel| then "phone" else "email")
    {
      if i >= |card.tel| {
        assert comms[|card.tel| + (i - |card.tel|)] == CommunicationOf(card.email[i - |card.tel|], Email);
      }
    }
  }

  /** The contact one card becomes, or the error converting it raises. */
  function ContactOf(card: Card): (r: Result<Contact, ParseError>)
    ensures r.Err? <==> card.org == Some(OrgList([]))
  {
    match CompanyOf(card.org)
    case Err(e) => Err(e)
    case Ok(company) =>
      var name := NameOf(card);
      Ok(Contact(name.first, name.last, company, NotesOf(card.note), AddressOf(card.adr), CommunicationsOf(card)))
  }

  /** A card with no property at all still yields a contact, with every field empty and no communication. */
  lemma EmptyCardContact()
    ensures ContactOf(Card(None, None, None, None, None, [], [])) == Ok(Contact("", "", "", "", "", []))
  {
    var card := Card(None, None, None, None, None, [], []);
    assert NameOf(card) == PersonName("", "");
    assert CommunicationsOf(card) == [];
  }

  /**
   * Appends one communication per occurrence of one kind, in order; the loop the
   * conversion runs once over the TEL occurrences and once over the EMAIL ones.
   */
  method AppendCommunications(communications: seq<Communication>, occs: seq<Occurrence>, kind: CommKind)
    returns (result: seq<Communication>)
    ensures result == communications + Flatten(occs, kind)
  {
    result := communications;
    for i := 0 to |occs|
      invariant result == communications + Flatten(occs[..i], kind)
    {
      var commLabel := Label(occs[i].types, kind);
      result := result + [Communication(KindName(kind), commLabel, occs[i].value)];
      FlattenSnoc(occs, kind, i);
    }
    assert occs[..|occs|] == occs;
  }

  /** The name block of the conversion: N if present, else FN split at its first space, else nothing. */
  method ResolveName(card: Card) returns (firstName: string, lastName: string)
    ensures PersonName(firstName, lastName) == NameOf(card)
  {
    firstName, lastName := "", "";
    if card.name.Some? {
      lastName := card.name.value.family;
      firstName := card.name.value.given;
    } else if card.formattedName.Some? {
      var parts := SplitOnce(card.formattedName.value, ' ');
      if |parts| == 2 {
        firstName, lastName := parts[0], parts[1];
      } else {
        firstName := parts[0];
      }
    }
  }

  /** The organisation block of the conversion, for a card that has ORG; indexing an empty list raises. */
  method ResolveCompany(org: OrgValue) returns (r: Result<string, ParseError>)
    ensures r == CompanyOf(Some(org))
  {
    match org
    case OrgList(components) =>
      if components == [] {
        return Err(OrgIndexError);
      }
      r := Ok(components[0]);
    case OrgText(text) =>
      r := Ok(text);
  }

  /** A card converts to the contact assembled from its resolved fields, once its company resolves. */
  lemma ContactOfAssembled(card: Card, firstName: string, lastName: string, company: string,
                           notes: string, address: string, communications: seq<Communication>)
    requires PersonName(firstName, lastName) == NameOf(card)
    requires CompanyOf(card.org) == Ok(company)
    requires notes == NotesOf(card.note) && address == AddressOf(card.adr)
    requires communications == CommunicationsOf(card)
    ensures ContactOf(card) == Ok(Contact(firstName, lastName, company, notes, address, communications))
  {
  }

  /** Converts one card, reassigning its fields branch by branch and appending its communications. */
  method NormalizeCard(card: Card) returns (r: Result<Contact, ParseError>)
    ensures r == ContactOf(card)
  {
    var firstName, lastName := ResolveName(card);
    var company := "";
    if card.org.Some? {
      var org := ResolveCompany(card.org.value);
      if org.Err? {
        return Err(org.error);
      }
      company := org.value;
    }
    assert CompanyOf(card.org) == Ok(company);

    var notes := "";
    if card.note.Some? {
      notes := card.note.value;
    }
    assert notes == NotesOf(card.note);

    var address := "";
    if card.adr.Some? {
      address := AddressLine(card.adr.value);
    }
    assert address == AddressOf(card.adr);

    var communications: seq<Communication> := [];
    if card.tel != [] {
      communications := AppendCommunications(communications, card.tel, Phone);
      assert [] + Flatten(card.tel, Phone) == Flatten(card.tel, Phone);
    }
    assert communications == Flatten(card.tel, Phone);
    if card.email != [] {
      communications := AppendCommunications(communications, card.email, Email);
    } else {
      assert communications + Flatten(card.email, Email) == communications;
    }
    assert communications == CommunicationsOf(card);

    ContactOfAssembled(card, firstName, lastName, company, notes, address, communications);
    r := Ok(Contact(firstName, lastName, company, notes, address, communications));
  }

  /**
   * Converts every card in order: one contact per card, nothing filtered or
   * reordered; a card with an empty ORG list makes the whole call fail.
   */
  method ParseVCards(cards: seq<Card>) returns (r: Result<seq<Contact>, ParseError>)
    ensures r.Err? <==> exists i :: 0 <= i < |cards| && cards[i].org == Some(OrgList([]))
    ensures r.Ok? ==> |r.value| == |cards|
    ensures r.Ok? ==> forall i :: 0 <= i < |cards| ==> ContactOf(cards[i]) == Ok(r.value[i])
  {
    var contacts: seq<Contact> := [];
    var i := 0;
    while i < |cards|
      invariant 0 <= i <= |cards|
      invariant |contacts| == i
      invariant forall k :: 0 <= k < i ==> ContactOf(cards[k]) == Ok(contacts[k])
    {
      var contact := NormalizeCard(cards[i]);
      if contact.Err? {
        return Err(contact.error);
      }
      contacts := contacts + [contact.value];
      i := i + 1;
    }
    r := Ok(contacts);
  }
}
