/**
 * The records the dashboard keeps: resource points (capacity sites),
 * demand points (case counts per village) and the two-valued layer tag.
 * Magnitudes are whole numbers, coordinates are reals, strings are
 * sequences of characters.
 */
module Types {

  /** Which overlay a record, a store or a colour ramp belongs to. */
  datatype LayerType = RESOURCE | DEMAND

  /** A medical resource site, with the identity attached at upload time. */
  datatype ResourceItem = ResourceItem(
    id: string,
    name: string,
    address: string,
    capacity: int,
    lat: real,
    lng: real)
  {
    /** Every field except the identity. */
    function Fields(): ParsedResource {
      ParsedResource(name, address, capacity, lat, lng)
    }
  }

  /** A demand point: case count of one village of one district. */
  datatype DemandItem = DemandItem(
    id: string,
    district: string,
    village: string,
    count: int,
    lat: real,
    lng: real)
  {
    /** Every field except the identity. */
    function Fields(): ParsedDemand {
      ParsedDemand(district, village, count, lat, lng)
    }
  }

  /** A resource record as the extraction service returns it: no `id` yet. */
  datatype ParsedResource = ParsedResource(
    name: string,
    address: string,
    capacity: int,
    lat: real,
    lng: real)
  {
    /** The record copied field by field, with `id` added. */
    function WithId(id: string): (r: ResourceItem)
      ensures r.id == id
      ensures r.Fields() == this
    {
      ResourceItem(id, name, address, capacity, lat, lng)
    }
  }

  /** A demand record as the extraction service returns it: no `id` yet. */
  datatype ParsedDemand = ParsedDemand(
    district: string,
    village: string,
    count: int,
    lat: real,
    lng: real)
  {
    /** The record copied field by field, with `id` added. */
    function WithId(id: string): (r: DemandItem)
      ensures r.id == id
      ensures r.Fields() == this
    {
      DemandItem(id, district, village, count, lat, lng)
    }
  }

  /** A batch handed to the store: the layer tag together with its records. */
  datatype Batch =
    | ResourceBatch(resourceItems: seq<ResourceItem>)
    | DemandBatch(demandItems: seq<DemandItem>)
  {
    function Layer(): LayerType {
      if ResourceBatch? then RESOURCE else DEMAND
    }
  }
}
