/**
 * The entity bundle the extraction prompt asks the language model for
 * (entity_extraction.py lines 17-28): four lists of strings and a route with
 * an origin and a destination, and the dict that represents it.
 */
module Entities {
  import opened Json

  datatype Bundle = Bundle(
    flights: seq<string>,
    airports: seq<string>,
    passengers: seq<string>,
    journeys: seq<string>,
    origin: string,
    destination: string)

  /** The bundle as the dict `json.loads` would produce, keys in prompt order. */
  function BundleDict(b: Bundle): Dict {
    [ Member("flights", JList(StrList(b.flights))),
      Member("airports", JList(StrList(b.airports))),
      Member("passengers", JList(StrList(b.passengers))),
      Member("journeys", JList(StrList(b.journeys))),
      Member("routes", JObj([Member("origin", JStr(b.origin)), Member("destination", JStr(b.destination))])) ]
  }

  const EmptyBundle := Bundle([], [], [], [], "", "")
}
