/** The delivery slice of the Redux store (src/store/slices/deliverySlice.ts). */
module DeliverySlice {
  import opened Js
  import Seqs

  datatype Dimensions = Dimensions(length: real, width: real, height: real)

  datatype DeliveryCargo = DeliveryCargo(
    weight: real,
    dimensions: Dimensions,
    cargoType: string,
    value: real,
    specialRequirements: seq<string>)

  datatype DeliveryPredictions = DeliveryPredictions(estimatedDeliveryTime: string, delayRisk: real, trafficImpact: real)

  datatype Delivery = Delivery(
    id: string,
    trackingNumber: string,
    customerId: string,
    routeId: string,
    status: string,
    priority: string,
    pickupLocation: string,
    deliveryLocation: string,
    scheduledPickup: string,
    scheduledDelivery: string,
    actualPickup: Option<string>,
    actualDelivery: Option<string>,
    cargo: DeliveryCargo,
    aiPredictions: DeliveryPredictions)

  function DeliveryId(d: Delivery): string
  {
    d.id
  }

  class DeliveryStore {
    var deliveries: seq<Delivery>
    var loading: bool
    var error: Option<string>

    constructor ()
      ensures deliveries == [] && !loading && error == None
    {
      deliveries := [];
      loading := false;
      error := None;
    }

    method SetDeliveries(payload: seq<Delivery>)
      modifies this`deliveries
      ensures deliveries == payload
    {
      deliveries := payload;
    }

    method AddDelivery(delivery: Delivery)
      modifies this`deliveries
      ensures deliveries == old(deliveries) + [delivery]
    {
      deliveries := deliveries + [delivery];
    }

    method UpdateDelivery(delivery: Delivery)
      modifies this`deliveries
      ensures deliveries == Seqs.ReplaceFirst(old(deliveries), DeliveryId, delivery)
    {
      var index := Seqs.FindIndex(deliveries, DeliveryId, delivery.id);
      Seqs.UpdateFirstAtFindIndex(deliveries, DeliveryId, delivery.id, _ => delivery);
      if index != -1 {
        deliveries := deliveries[index := delivery];
      }
    }

    method SetLoading(value: bool)
      modifies this`loading
      ensures loading == value
    {
      loading := value;
    }

    method SetError(value: Option<string>)
      modifies this`error
      ensures error == value
    {
      error := value;
    }
  }
}
