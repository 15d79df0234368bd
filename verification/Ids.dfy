/** Identifiers and small types shared by every module. */
module Ids {

  /** An address as the route hands it on; compared for equality only. */
  datatype Email = Email(text: string)

  datatype SaleId = SaleId(hex: string)

  datatype ProductId = ProductId(hex: string)

  datatype Option<+T> = None | Some(value: T)
}
