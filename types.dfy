/** The records the client slices hold, as declared in frontend/src/types.ts/index.ts. */
module Types {

  /** `T | null` and optional (`?:`) fields: `None` stands for null or undefined. */
  datatype Option<+T> = None | Some(value: T)

  /** `LoggedInUser`: the session identity the auth slice holds; the token is optional. */
  datatype LoggedInUser = LoggedInUser(
    id: string,
    username: string,
    email: string,
    createdAt: string,
    updatedAt: string,
    token: Option<string>)

  /** `Delivery`: the server assigns `createdAt`, `updatedAt`, `user_id` and `_id`;
      coordinates travel as decimal strings. */
  datatype Delivery = Delivery(
    createdAt: Option<string>,
    updatedAt: Option<string>,
    userId: Option<string>,
    id: Option<string>,
    customerName: string,
    warehouseAddressLat: string,
    warehouseAddressLng: string,
    deliveryDate: string,
    deliveryAddressLat: string,
    deliveryAddressLng: string)

  /** The wrapper `{ deliveries: Delivery[] }` that the delivery slice actually keeps in its
      `deliveries` field. The payload of `getDeliveries.fulfilled` is assumed to have the same
      shape: the delivery service that produces it is not part of this model. */
  datatype DeliveryList = DeliveryList(deliveries: seq<Delivery>)
}
