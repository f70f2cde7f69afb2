/**
 * The upstream's JSON:API resources as the serialisation layer delivers them:
 * every attribute and relationship is optional.
 */
module Dtos {
  import opened Wrappers

  /** A relationship's `data` object: the related resource's id, when given. */
  datatype DataDto = DataDto(id: Option<string>)

  /** `{ "data": { "id": ... } }` under a relationship name. */
  datatype RelationDto = RelationDto(data: Option<DataDto>)

  /** Vehicle attributes, including the bearing and direction the detail mapper reads. */
  datatype VehicleAttributesDto = VehicleAttributesDto(
    vehicleLabel: Option<string>,
    currentStatus: Option<string>,
    latitude: Option<real>,
    longitude: Option<real>,
    updatedAt: Option<string>,
    bearing: Option<int>,
    directionId: Option<int>)

  datatype RelationshipDto = RelationshipDto(
    route: Option<RelationDto>,
    trip: Option<RelationDto>,
    stop: Option<RelationDto>)

  datatype VehicleDataDto = VehicleDataDto(
    id: string,
    attributes: Option<VehicleAttributesDto>,
    relationships: Option<RelationshipDto>)

  datatype RouteAttributesDto = RouteAttributesDto(shortName: Option<string>, longName: Option<string>)

  datatype RouteDataDto = RouteDataDto(id: string, attributes: Option<RouteAttributesDto>)

  datatype TripAttributesDto = TripAttributesDto(
    name: Option<string>,
    headsign: Option<string>,
    directionId: Option<int>,
    blockId: Option<string>)

  datatype TripRelationshipsDto = TripRelationshipsDto(shape: Option<RelationDto>)

  datatype TripDataDto = TripDataDto(
    id: string,
    attributes: Option<TripAttributesDto>,
    relationships: Option<TripRelationshipsDto>)

  /** `relation?.data?.id`: null as soon as any level is missing. */
  function RelatedId(relation: Option<RelationDto>): (r: Option<string>)
    ensures r.Some? <==> relation.Some? && relation.value.data.Some? && relation.value.data.value.id.Some?
    ensures r.Some? ==> r.value == relation.value.data.value.id.value
  {
    match relation
    case None => None
    case Some(rel) =>
      match rel.data
      case None => None
      case Some(d) => d.id
  }
}
