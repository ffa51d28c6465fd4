/** The contact list renderer: what the list container shows for a fetch
    result. */
module ContactList {
  import opened Wrappers

  /** A contact as exchanged with the endpoint. */
  datatype Contact = Contact(nombre: string, apellido: string, telefono: string)

  /** One rendered card: its heading and its phone line. */
  datatype Card = Card(title: string, phone: string)

  /** What the list container holds: the loading placeholder, the fixed
      empty-state placeholder, or a sequence of cards (`Cards([])` is the
      cleared container). */
  datatype ListView = Loading | EmptyState | Cards(cards: seq<Card>)

  /** The card text of one contact. */
  function CardOf(c: Contact): Card {
    Card(c.nombre + " " + c.apellido, c.telefono)
  }

  /** The cards of a sequence of contacts, in order. */
  function CardsOf(cs: seq<Contact>): (r: seq<Card>)
    ensures |r| == |cs|
  {
    if cs == [] then [] else [CardOf(cs[0])] + CardsOf(cs[1..])
  }

  /** Card `i` is the card of contact `i`. */
  lemma {:induction false} CardsOfAt(cs: seq<Contact>, i: nat)
    requires i < |cs|
    ensures CardsOf(cs)[i] == CardOf(cs[i])
  {
    if i > 0 {
      CardsOfAt(cs[1..], i - 1);
    }
  }

  /** Appending a contact appends its card: the loop that adds one card per
      contact builds `CardsOf` of the prefix seen so far. */
  lemma {:induction false} CardsOfSnoc(cs: seq<Contact>, c: Contact)
    ensures CardsOf(cs + [c]) == CardsOf(cs) + [CardOf(c)]
  {
    if cs != [] {
      assert (cs + [c])[1..] == cs[1..] + [c];
      CardsOfSnoc(cs[1..], c);
    } else {
      assert [c][1..] == [];
    }
  }

  /** The view for a fetch result: the empty state for `null` or no
      contacts, otherwise one card per contact. */
  function Render(contacts: Option<seq<Contact>>): ListView {
    match contacts
    case None => EmptyState
    case Some(cs) => if |cs| == 0 then EmptyState else Cards(CardsOf(cs))
  }

  /** `null` and the empty sequence render alike, as the empty state. */
  lemma RenderNullLikeEmpty()
    ensures Render(None) == Render(Some([])) == EmptyState
  {
  }

  /** A non-empty list renders as exactly one card per contact, in input
      order, titled with the name and surname and showing the phone. */
  lemma {:induction false} RenderCards(cs: seq<Contact>)
    requires |cs| > 0
    ensures Render(Some(cs)).Cards? && |Render(Some(cs)).cards| == |cs|
    ensures forall i :: 0 <= i < |cs| ==>
      Render(Some(cs)).cards[i] == Card(cs[i].nombre + " " + cs[i].apellido, cs[i].telefono)
  {
    forall i | 0 <= i < |cs|
      ensures Render(Some(cs)).cards[i] == Card(cs[i].nombre + " " + cs[i].apellido, cs[i].telefono)
    {
      CardsOfAt(cs, i);
    }
  }

  /** The empty state appears exactly when there is nothing to show; the
      loading view never comes out of rendering. */
  lemma RenderEmptyIff(contacts: Option<seq<Contact>>)
    ensures Render(contacts) == EmptyState <==> contacts.None? || |contacts.value| == 0
    ensures Render(contacts) != Loading
  {
  }
}
