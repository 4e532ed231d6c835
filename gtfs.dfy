/** The part of the GTFS-Realtime `FeedMessage` schema that the lateness lookup reads, as
    the Go protobuf bindings present it after `proto.Unmarshal`: every optional message
    or scalar field is a possibly absent value, every repeated field a sequence. */
module Gtfs {
  import opened Wrappers

  /** A signed 32-bit integer, the protobuf `int32` type of `StopTimeEvent.delay`. */
  newtype int32 = x: int | -0x8000_0000 <= x < 0x8000_0000

  /** Delay of one predicted arrival or departure, in seconds; negative means early. */
  datatype StopTimeEvent = StopTimeEvent(delay: Option<int32>)

  /** A prediction for one stop of the trip. */
  datatype StopTimeUpdate = StopTimeUpdate(departure: Option<StopTimeEvent>)

  /** Identifies the trip an update is about. */
  datatype TripDescriptor = TripDescriptor(tripId: Option<string>)

  datatype TripUpdate = TripUpdate(trip: Option<TripDescriptor>, stopTimeUpdate: seq<StopTimeUpdate>)

  datatype FeedEntity = FeedEntity(tripUpdate: Option<TripUpdate>)

  /** One real-time snapshot: its entities in document order. */
  datatype FeedMessage = FeedMessage(entity: seq<FeedEntity>)
}
