/** The records the billing API exchanges, with the fields the dashboard reads.
    Decimal amounts travel as strings; nullable fields are `Option`s. */
module InvoiceTypes {
  import opened JsModel

  datatype Customer = Customer(
    id: int,
    firstName: string,
    lastName: string,
    address: string,
    zipCode: string,
    city: string,
    country: string,
    countryCode: string)

  datatype Product = Product(
    id: int,
    labelText: string,      // `label`
    unit: Option<string>,       // 'hour' | 'day' | 'piece'
    vatRate: Option<string>,
    unitPrice: Option<string>)

  datatype InvoiceLine = InvoiceLine(
    id: int,
    invoiceId: int,
    productId: int,
    quantity: int,
    labelText: string,      // `label`
    unit: Option<string>,
    vatRate: Option<string>,
    price: Option<string>,      // unit price times quantity, gross
    tax: Option<string>,
    product: Product)

  datatype Invoice = Invoice(
    id: int,
    customerId: Option<int>,
    finalized: bool,
    paid: bool,
    date: Option<string>,
    deadline: Option<string>,
    total: Option<string>,      // authoritative when truthy
    tax: Option<string>,
    customer: Option<Customer>,
    lines: seq<InvoiceLine>)

  /** The page the app navigates to after an action. */
  datatype Route = Home | InvoicePage(id: int)
}
