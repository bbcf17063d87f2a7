/** The record the device's REST API serves (data/models/InputData.kt). */
module Models {

  /** Kotlin's `Int`: a signed 32-bit integer. Ids are only ever compared for equality. */
  newtype Int32 = x: int | -0x8000_0000 <= x < 0x8000_0000

  /** One stored input: a server-assigned id, the user's text and a server timestamp. */
  datatype InputData = InputData(id: Int32, message: string, timestamp: string)
}
