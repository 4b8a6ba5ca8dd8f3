/**
 The station record. Stations referred to from other entities are partial: only the
 fields the referring document carries are set, and the rest keep their zero values.
 */
module Stations {

  /** Coordinates are single-precision floats in the client; they are reals here. */
  datatype Station = Station(
    abbreviation: string,
    name: string,
    latitude: real,
    longitude: real,
    address: string,
    city: string,
    county: string,
    state: string,
    zipCode: string)

  /** The zero station: every field empty. */
  const EmptyStation: Station := Station("", "", 0.0, 0.0, "", "", "", "", "")

  /** A cross-reference that carries only a station's code and display name. */
  function Stub(abbreviation: string, name: string): Station {
    EmptyStation.(abbreviation := abbreviation, name := name)
  }

  /** True when nothing but the code and the name is set. */
  predicate IsStub(st: Station) {
    st == Stub(st.abbreviation, st.name)
  }

  /** The display names of a sequence of stations, in order. */
  function Names(stations: seq<Station>): (names: seq<string>)
    ensures |names| == |stations|
    ensures forall i :: 0 <= i < |stations| ==> names[i] == stations[i].name
  {
    seq(|stations|, i requires 0 <= i < |stations| => stations[i].name)
  }
}
