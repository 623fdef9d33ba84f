/** The delivery row (deliveries/models.py), as the sending protocol, the lifecycle and the purge see it. */
module Deliveries {
  import opened Prelude
  import opened Calendar

  type ShopId = nat
  type DeliveryId = nat
  type Phone = string

  datatype Status = New | Created | OnTheWayStatus | Delivered

  /** `point` is the geocoded destination, `risky` the mark of a number that is not a Serbian mobile. */
  datatype Delivery = Delivery(
    shop: ShopId, name: string, phone: Phone, risky: bool, address: string, point: Option<(int, int)>,
    status: Status, createdAt: Time, startedAt: Option<Time>, etaAt: Option<Time>, deliveredAt: Option<Time>,
    deletedAt: Option<Time>, purgedAt: Option<Time>)
}
