# vCard import: `parse_vcards` in Dafny

This project models the contact importer of the address-book backend:
`parse_vcards` in `backend/app/parser/vCardParser.py`. It takes the cards that
the vobject library reads from a vCard 3.0 document (RFC 2426) and turns each
card into a `ContactCreate` record. The record shape follows
`backend/app/pydantic_schema/schema.py`: first name, last name, company,
notes, a one-line address, and a list of `CommunicationCreate` entries
(`comm_type`, `label`, `value`).

For each card the conversion does four things:

- **Name.** It takes the structured name N (section 3.1.2 of RFC 2426) if there
  is one. Otherwise it splits the formatted name FN at its first space.
- **Company and note.** The company is the first ORG component, or the ORG text
  when ORG is not a list. NOTE is passed through unchanged.
- **Address.** The non-empty ones among street, locality, postal code and
  country are joined with `", "`.
- **Communications.** Every TEL occurrence and then every EMAIL occurrence
  becomes one entry. Its label is the lower-cased, comma-joined TYPE values,
  or `phone` / `email` when there is no TYPE value.

Files:

- `wrappers.dfy`: `Option` and `Result`.
- `text.dfy` (module `Text`): Python's `sep.join`, `s.split(c, 1)`, the
  non-empty filter and `lower()`, with their lemmas.
- `vcard.dfy` (module `VCard`): a parsed card as vobject hands it over.
- `schema.dfy` (module `Schema`): the output records. The schema field `label`
  is called `commLabel`, because `label` is a Dafny keyword.
- `vcard_parser.dfy` (module `VCardParser`): the conversion. The specification
  functions are `NameOf`, `CompanyOf`, `AddressOf`, `Label`, `CommunicationsOf`
  and `ContactOf`. The step-by-step methods are `ParseVCards`,
  `NormalizeCard`, `ResolveName`, `ResolveCompany` and `AppendCommunications`,
  each proved equal to its specification function.
- `vcard_examples.dfy` (module `VCardExamples`): concrete cards, including the
  sample card kept in the parser module, and the contacts they become.

Behaviour of the code that the model keeps as it is:

- FN is split at the first single space character (`split(" ", 1)`), not at
  the first run of whitespace.
- Absent fields become `""`, not `None`.
- There is no atomic batch import. `parse_vcards` returns a list. An exception
  raised for one card escapes the whole call, so no partial list is returned.
  The model states this as `Err` for the whole batch.

## Model

| member | source | states |
|---|---|---|
| `VCardParser.ParseVCards` | backend/app/parser/vCardParser.py:8-79 | The result is Ok with exactly one contact per card, in card order: the i-th contact is the i-th card converted. The call fails exactly when some card has an ORG list with no component. |
| `VCardParser.NormalizeCard` | backend/app/parser/vCardParser.py:13-77 | Converting one card step by step gives exactly `ContactOf` of that card, including the IndexError on an empty ORG list. |
| `VCardParser.ContactOf` | backend/app/parser/vCardParser.py:14-75 | A card's conversion fails exactly when its ORG is a list with no component. Every other card, including one with no property at all, yields a contact. |
| `VCardParser.EmptyCardContact` | backend/app/parser/vCardParser.py:14-75 | A card with no property yields a contact with all five strings empty and no communications, without error. |
| `VCardParser.ResolveName` | backend/app/parser/vCardParser.py:14-26 | The name block, run on locals, yields exactly `NameOf(card)`. |
| `VCardParser.NameOf` | backend/app/parser/vCardParser.py:14-26 | If N is present, first is N.given and last is N.family, whatever FN says. Without N or FN, both are empty. With FN alone, first has no space. If FN has a space, first + " " + last gives FN back; otherwise first is the whole FN and last is empty. |
| `VCardParser.ResolveCompany` | backend/app/parser/vCardParser.py:29-31 | For a present ORG, the block yields exactly `CompanyOf`: the first component, the text, or the IndexError on an empty list. |
| `VCardParser.CompanyOf` | backend/app/parser/vCardParser.py:28-31 | The company fails exactly for an empty ORG list. It is `""` without ORG, the text for a text ORG, and the first component for a list ORG. |
| `VCardParser.NotesOf` | backend/app/parser/vCardParser.py:33-35 | NOTE's value is passed through unchanged, and a card without NOTE gives `""`. This is given by the body alone; no other property of the notes is claimed. |
| `VCardParser.AddressOf` | backend/app/parser/vCardParser.py:37-41 | A card without ADR gives `""`. With ADR, the line is `AddressLine`, whose properties are the rows below. |
| `VCardParser.AddressEmptyIff` | backend/app/parser/vCardParser.py:37-41 | The address line is `""` exactly when ADR is absent or street, locality, postal code and country are all empty. |
| `VCardParser.AddressNoGaps` | backend/app/parser/vCardParser.py:37-41 | When something is kept, the line starts with the first kept component and ends with the last. Its length is the kept components plus exactly one `", "` between each two neighbours, so there is no empty segment and no separator at either end. |
| `VCardParser.AddressLine` | backend/app/parser/vCardParser.py:40-41 | The line equals an independent builder. The builder appends street, locality, postal code and country one by one, skips empty ones, and writes `", "` only between two written components. |
| `VCardParser.AddressAllPresent` | backend/app/parser/vCardParser.py:40-41 | With all four components present, the line is street, locality, postal code and country, comma-separated in that order. |
| `VCardParser.AddressIgnoresBoxExtendedRegion` | backend/app/parser/vCardParser.py:39-41 | Changing PO box, extended address or region never changes the address line. |
| `VCardParser.Label` | backend/app/parser/vCardParser.py:48-52 | A label has no ASCII upper-case letter. With no TYPE value it is the kind's name (`phone` or `email`). Otherwise it is the lower-cased TYPE values joined with `","`. |
| `VCardParser.CommunicationOf` | backend/app/parser/vCardParser.py:48-52 | One occurrence becomes one entry with the occurrence's raw value and the kind's name as type. Without TYPE values the label equals the type. |
| `VCardParser.Flatten` | backend/app/parser/vCardParser.py:46-54 | Every entry flattened from one property's occurrences has that property's kind as type. |
| `VCardParser.CommunicationsOf` | backend/app/parser/vCardParser.py:43-65 | There is exactly one communication per TEL and per EMAIL occurrence. |
| `VCardParser.FlattenAt` | backend/app/parser/vCardParser.py:46-54 | Flattening keeps one entry per occurrence: the k-th entry is the k-th occurrence with its kind, label and raw value. |
| `VCardParser.AppendCommunications` | backend/app/parser/vCardParser.py:46-54 | The append loop leaves the earlier entries in place and adds one entry per occurrence, in order. |
| `VCardParser.CommunicationsLayout` | backend/app/parser/vCardParser.py:43-65 | There are #TEL + #EMAIL communications. Entry i is TEL i as `phone` and entry #TEL + j is EMAIL j as `email`, each with its label and raw value. No `phone` entry follows an `email` entry. |
| `Text.SplitOnce` | backend/app/parser/vCardParser.py:22-26 | `split(" ", 1)` gives two parts when the string has a space and one part otherwise. The first part has no space, and joining the parts with a space gives the string back. |
| `Text.SplitOnceOfJoin` | backend/app/parser/vCardParser.py:22-24 | Conversely, splitting `a + " " + b`, where `a` has no space, gives `[a, b]`. |
| `Text.FirstIndexOf` | backend/app/parser/vCardParser.py:22 | The found index holds the separator and has none before it. None means the separator does not occur. |
| `Text.NonEmpty` | backend/app/parser/vCardParser.py:41 | The filter keeps no empty part and never grows the list. |
| `Text.NonEmptyMembers` | backend/app/parser/vCardParser.py:41 | The filtered list has the same members as the non-empty parts. |
| `Text.NonEmptyConcat` | backend/app/parser/vCardParser.py:41 | Filtering distributes over concatenation, so the filter keeps the order and the repeats of the parts it keeps. |
| `Text.Join` | backend/app/parser/vCardParser.py:41 | Joining no parts gives `""`, and joining one part gives that part with no separator. Its length, ends and emptiness are the `Join*` rows below. |
| `Text.JoinLength` | backend/app/parser/vCardParser.py:41 | A join is as long as its parts plus one separator between each two neighbours. |
| `Text.JoinEnds` | backend/app/parser/vCardParser.py:41 | A join starts with its first part and ends with its last part. |
| `Text.JoinEmptyIff` | backend/app/parser/vCardParser.py:41 | Joining non-empty parts gives `""` exactly when there are no parts. |
| `Text.JoinNonEmptyIsAppendSkippingEmpty` | backend/app/parser/vCardParser.py:41 | Joining the non-empty parts equals appending them one by one with a separator between neighbours. |
| `Text.Lower` | backend/app/parser/vCardParser.py:52 | Lower-casing keeps the length, leaves no ASCII upper-case letter and changes no other character. |
| `Text.LowerJoin` | backend/app/parser/vCardParser.py:49-52 | Lower-casing a `","`-join lower-cases each TYPE value and leaves the commas. |
| `VCardExamples.SampleCardContact` | backend/app/parser/vCardParser.py:83-92 | The sample card becomes "Martine" "Rogge" with address "Hatice-Jäntsch-Ring 3180, Vilsbiburg, 02406, Germany", then a phone labelled "cell,voice" and an email labelled "internet,home". |
| `VCardExamples.FormattedNameSplits` | backend/app/parser/vCardParser.py:21-26 | Without N, FN "Martine Rogge" gives ("Martine", "Rogge") and FN "Prince" gives ("Prince", ""). |
| `VCardExamples.StructuredNameWins` | backend/app/parser/vCardParser.py:18-21 | N "Rogge;Martine" wins over FN "Prince". |
| `VCardExamples.EmptyStructuredNameHidesFormattedName` | backend/app/parser/vCardParser.py:18-20 | An N with empty components still wins: both names are empty even though FN has text. |
| `VCardExamples.AddressWithoutPostalCode` | backend/app/parser/vCardParser.py:37-41 | Without a postal code, the address is "Hauptstr. 1, Berlin, Germany", with no gap. |
| `VCardExamples.LabelExamples` | backend/app/parser/vCardParser.py:48-52 | TYPE=CELL,VOICE gives "cell,voice". No TYPE gives "phone" or "email". A single empty TYPE value gives "", not the default. |
| `VCardExamples.TwoTypeLabel` | backend/app/parser/vCardParser.py:49-52 | Two TYPE values give their lower-cased forms joined by one comma, for either kind. |
| `VCardExamples.TwoPhonesOneEmail` | backend/app/parser/vCardParser.py:43-65 | Two TEL occurrences and one EMAIL give three entries: both phones in source order, then the email. |

## Left out

- Reading the document (`vobject.readComponents`, line 11) is not modelled. This is a foreign library that handles the vCard text grammar, line unfolding and escaping. The model starts from its output, the `Card` datatype.
- N, ADR and ORG components that vobject would give as lists (values with commas) are modelled as plain strings.
- VCardParser.ParseVCards: its "fails exactly when some card has an empty ORG list" holds only for the cards the `Card` type can represent. Three more failures are lost, each of which ends the whole call. A list as N's family or given name is rejected by pydantic's string fields (lines 19-20, 68-75). A list as ORG's first component is rejected the same way for `company` (line 31). A list among the four ADR components makes `", ".join` raise TypeError (line 41).
- The `hasattr` tests on TEL and EMAIL (lines 46 and 57) are modelled as "the occurrence list is non-empty". That is what they mean for vobject's `contents`.
- TYPE parameters are modelled only as the ordered list of their values, empty when absent. Other parameters are not read by the code.
- Text.Lower: lower-cases only the ASCII letters A-Z. Python's `str.lower` also maps non-ASCII letters. Labels with non-ASCII TYPE values are therefore not modelled exactly.
- The `__main__` demonstration (lines 82-92) prints, which is I/O. Its sample card is used in `VCardExamples.SampleCardContact`.
- Pydantic validation of `ContactCreate` and `CommunicationCreate` is not modelled. When vobject gives strings, the parser passes strings, so the optional fields are modelled as strings. The list cases that pydantic rejects are the `VCardParser.ParseVCards` line above.
- Storing contacts (`backend/app/crud.py`), HTTP routing (`backend/app/main.py`), authentication (`backend/app/auth.py`), the ORM tables and their check constraint (`backend/app/sql_schema/models.py`), the fake-data generator and the front-end router are not part of this model. They are persistence, request plumbing, cryptography, randomness and browser state, not the conversion.
- An all-or-nothing batch import is not modelled, because the code has none. `create_contact` commits a contact and its communications separately.
