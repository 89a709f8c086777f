/** The data model of the route tracker: a point of sale (a client), the visit
    recorded for it, the sale outcome of that visit and the location it was
    marked at. Everything here is a value; nothing changes in place. */
module Types {

  datatype Option<+T> = None | Some(value: T)

  /** The three outcomes a visit can record. The enum's values are strings:
      `Tag` gives them, they are pairwise distinct, and `FromTag` is their inverse. */
  datatype SaleStatus = Made | NotMade | Pending

  function Tag(s: SaleStatus): (t: string)
    ensures t != ""
  {
    match s
    case Made => "Venda Feita"
    case NotMade => "Venda Não Feita"
    case Pending => "Pendente"
  }

  /** Reads a status back from its tag; any other text is not a status. */
  function FromTag(t: string): (r: Option<SaleStatus>)
    ensures r.Some? ==> Tag(r.value) == t
    ensures r.None? ==> forall s: SaleStatus :: Tag(s) != t
  {
    if t == "Venda Feita" then Some(Made)
    else if t == "Venda Não Feita" then Some(NotMade)
    else if t == "Pendente" then Some(Pending)
    else None
  }

  /** Every status survives the trip through its tag, so no two statuses share one. */
  lemma TagRoundTrip(s: SaleStatus)
    ensures FromTag(Tag(s)) == Some(s)
    ensures forall s': SaleStatus :: Tag(s') == Tag(s) ==> s' == s
  {
  }

  /** A coordinate pair. Floating-point behaviour is not modelled: the
      coordinates are only ever copied, never computed with. */
  datatype Geolocation = Geolocation(latitude: real, longitude: real)

  /** A visit: when it was marked, the sale outcome, a free-text note and the
      location, which is absent (null) when none could be obtained. */
  datatype Visit = Visit(
    timestamp: string,
    saleStatus: SaleStatus,
    observation: string,
    location: Option<Geolocation>)

  /** A point of sale. The presence of `visit` alone says whether it was visited. */
  datatype Client = Client(id: int, name: string, visit: Option<Visit>)
  {
    predicate Visited() {
      visit.Some?
    }
  }
}
