/**
 * Concrete cards and the contacts they become: the sample card the parser
 * module carries for demonstration, and the documented name, address and
 * label cases.
 */
module VCardExamples {
  import opened Wrappers
  import opened Text
  import opened VCard
  import opened Schema
  import opened VCardParser

  /** A card that has only the given properties and no TEL or EMAIL. */
  function BareCard(name: Option<StructuredName>, formattedName: Option<string>, adr: Option<DeliveryAddress>): Card
  {
    Card(name, formattedName, None, None, adr, [], [])
  }

  /** The sample card: N, FN, one EMAIL, one TEL and a home ADR, as vobject reads them. */
  function SampleCard(): Card
  {
    Card(
      Some(StructuredName("Rogge", "Martine")),
      Some("Martine Rogge"),
      None,
      None,
      Some(DeliveryAddress("", "", "Hatice-Jäntsch-Ring 3180", "Vilsbiburg", "", "02406", "Germany")),
      [Occurrence(["CELL", "VOICE"], "06605 54127")],
      [Occurrence(["INTERNET", "HOME"], "adelinde95@example.org")])
  }

  lemma SampleCardContact()
    ensures ContactOf(SampleCard()) == Ok(Contact(
      "Martine", "Rogge", "", "",
      "Hatice-Jäntsch-Ring 3180, Vilsbiburg, 02406, Germany",
      [Communication("phone", "cell,voice", "06605 54127"),
       Communication("email", "internet,home", "adelinde95@example.org")]))
  {
    var card := SampleCard();
    SampleAddress();
    SampleCommunications();
    assert NameOf(card) == PersonName("Martine", "Rogge");
  }

  lemma SampleAddress()
    ensures AddressOf(SampleCard().adr) == "Hatice-Jäntsch-Ring 3180, Vilsbiburg, 02406, Germany"
  {
    var adr := SampleCard().adr.value;
    AddressAllPresent(adr);
    SampleAddressText();
  }

  /** The four sample components, comma-separated, spell the expected line. */
  lemma SampleAddressText()
    ensures "Hatice-Jäntsch-Ring 3180" + ", " + ("Vilsbiburg" + ", " + ("02406" + ", " + "Germany"))
         == "Hatice-Jäntsch-Ring 3180, Vilsbiburg, 02406, Germany"
  {
  }

  lemma SampleCommunications()
    ensures CommunicationsOf(SampleCard()) ==
      [Communication("phone", "cell,voice", "06605 54127"),
       Communication("email", "internet,home", "adelinde95@example.org")]
  {
    var card := SampleCard();
    var phone := Communication("phone", "cell,voice", "06605 54127");
    var mail := Communication("email", "internet,home", "adelinde95@example.org");
    assert Flatten(card.tel, Phone) == [phone] by {
      SingleOccurrence(card.tel, Phone);
      SamplePhoneLabel();
    }
    assert Flatten(card.email, Email) == [mail] by {
      SingleOccurrence(card.email, Email);
      SampleEmailLabel();
    }
  }

  /** The sample's TEL types CELL,VOICE give the label "cell,voice". */
  lemma SamplePhoneLabel()
    ensures Label(["CELL", "VOICE"], Phone) == "cell,voice"
  {
    LowerWord("CELL", "cell");
    LowerWord("VOICE", "voice");
    TwoTypeLabel("CELL", "VOICE", Phone);
  }

  /** The sample's EMAIL types INTERNET,HOME give the label "internet,home". */
  lemma SampleEmailLabel()
    ensures Label(["INTERNET", "HOME"], Email) == "internet,home"
  {
    LowerWord("INTERNET", "internet");
    LowerWord("HOME", "home");
    TwoTypeLabel("INTERNET", "HOME", Email);
  }

  /** Two TYPE values give their lower-cased forms joined by one comma. */
  lemma TwoTypeLabel(t1: string, t2: string, kind: CommKind)
    ensures Label([t1, t2], kind) == Lower(t1) + "," + Lower(t2)
  {
    assert LowerAll([t1, t2]) == [Lower(t1), Lower(t2)];
    assert [Lower(t1), Lower(t2)][1..] == [Lower(t2)];
  }

  /** One occurrence flattens to its one entry. */
  lemma SingleOccurrence(occs: seq<Occurrence>, kind: CommKind)
    requires |occs| == 1
    ensures Flatten(occs, kind) == [CommunicationOf(occs[0], kind)]
  {
    FlattenSnoc(occs, kind, 0);
    assert occs[..1] == occs;
  }

  /** Lower-cases one concrete word, character by character. */
  lemma LowerWord(upper: string, lower: string)
    requires |upper| == |lower|
    requires forall i :: 0 <= i < |upper| ==> LowerChar(upper[i]) == lower[i]
    ensures Lower(upper) == lower
  {
  }

  /** Without N, "Martine Rogge" splits into first "Martine" and last "Rogge"; "Prince" stays whole. */
  lemma FormattedNameSplits()
    ensures NameOf(BareCard(None, Some("Martine Rogge"), None)) == PersonName("Martine", "Rogge")
    ensures NameOf(BareCard(None, Some("Prince"), None)) == PersonName("Prince", "")
  {
    assert "Martine Rogge" == "Martine" + [' '] + "Rogge";
    SplitOnceOfJoin("Martine", "Rogge", ' ');
    assert ' ' !in "Prince";
  }

  /** N wins over a different FN. */
  lemma StructuredNameWins()
    ensures NameOf(BareCard(Some(StructuredName("Rogge", "Martine")), Some("Prince"), None)) == PersonName("Martine", "Rogge")
  {
  }

  /** An N whose components are empty still wins: the FN text is not consulted and both names stay empty. */
  lemma EmptyStructuredNameHidesFormattedName()
    ensures NameOf(BareCard(Some(StructuredName("", "")), Some("Martine Rogge"), None)) == PersonName("", "")
  {
  }

  /** A missing postal code leaves no empty gap between city and country. */
  lemma AddressWithoutPostalCode()
    ensures AddressOf(Some(DeliveryAddress("", "", "Hauptstr. 1", "Berlin", "", "", "Germany"))) == "Hauptstr. 1, Berlin, Germany"
  {
  }

  /** TYPE=CELL,VOICE gives "cell,voice"; no TYPE gives the kind's name. */
  lemma LabelExamples()
    ensures Label(["CELL", "VOICE"], Phone) == "cell,voice"
    ensures Label([], Phone) == "phone"
    ensures Label([], Email) == "email"
    ensures Label([""], Phone) == ""
  {
    SamplePhoneLabel();
  }

  /** Two TEL occurrences and one EMAIL give three communications: both phones, in order, then the email. */
  lemma TwoPhonesOneEmail(a: string, b: string, c: string)
    ensures var card := Card(None, None, None, None, None, [Occurrence([], a), Occurrence(["HOME"], b)], [Occurrence([], c)]);
      CommunicationsOf(card) == [Communication("phone", "phone", a), Communication("phone", "home", b), Communication("email", "email", c)]
  {
    var tel := [Occurrence([], a), Occurrence(["HOME"], b)];
    LowerWord("HOME", "home");
    assert LowerAll(["HOME"]) == ["home"];
    assert Label(["HOME"], Phone) == "home";
    assert Label([], Phone) == "phone";
    assert tel[..1] == [Occurrence([], a)];
    assert Flatten(tel[..1], Phone) == [Communication("phone", "phone", a)];
    assert Flatten(tel, Phone) == [Communication("phone", "phone", a), Communication("phone", "home", b)];
    assert Flatten([Occurrence([], c)], Email) == [Communication("email", "email", c)];
  }
}
