/**
 * The stored entities (Property, Owner, PropertyImage, PropertyTrace) and the transport
 * records (PropertyDto, OwnerDto, the filter request). C# `string` fields default to "";
 * `decimal` amounts are `real`; `DateTime` values are an integer tick count.
 */
module Entities {
  import opened Wrappers

  /** An identifier as the API handles it: the text of a store id. */
  type Id = string

  /** A `DateTime`, as its tick count. */
  type Timestamp = int

  const INT32_MIN: int := -0x8000_0000
  const INT32_MAX: int := 0x7FFF_FFFF

  predicate IsInt32(x: int)
  {
    INT32_MIN <= x <= INT32_MAX
  }

  datatype PropertyImage = PropertyImage(id: Id, file: string, enabled: bool, idProperty: Id)

  datatype PropertyTrace = PropertyTrace(id: Id, dateSale: Timestamp, name: string, value: real, tax: real, idProperty: Id)

  datatype Owner = Owner(id: Id, name: string, address: string, photo: string, birthday: Timestamp)

  datatype OwnerDto = OwnerDto(id: Id, name: string, address: string, photo: string, birthday: Timestamp)

  /** A stored property. The image and trace lists are references that may be null. */
  datatype Property = Property(
    id: Id,
    name: string,
    address: string,
    price: real,
    codeInternal: string,
    year: int,
    idOwner: Id,
    images: Option<seq<PropertyImage>>,
    traces: Option<seq<PropertyTrace>>)

  /** The projection of a property sent to clients: one derived image instead of the list. */
  datatype PropertyDto = PropertyDto(
    id: Id,
    idOwner: Id,
    name: string,
    address: string,
    price: real,
    codeInternal: string,
    year: int,
    image: Option<string>,
    owner: Option<OwnerDto>)

  /**
   * The filter request of the listing endpoint. A null `Name` or `Address` behaves as the
   * empty string everywhere it is read, so both are plain strings here.
   */
  datatype PropertyFilter = PropertyFilter(
    name: string,
    address: string,
    minPrice: Option<real>,
    maxPrice: Option<real>,
    page: int,
    pageSize: int)

  /** A freshly constructed `Property`: empty strings, zero numbers, empty lists. */
  function NewProperty(): Property
  {
    Property("", "", "", 0.0, "", 0, "", Some([]), Some([]))
  }

  /** A freshly constructed `PropertyDto`. */
  function NewPropertyDto(): PropertyDto
  {
    PropertyDto("", "", "", "", 0.0, "", 0, None, None)
  }

  /** A freshly constructed `PropertyImage`: images are enabled unless said otherwise. */
  function NewPropertyImage(): PropertyImage
  {
    PropertyImage("", "", true, "")
  }

  const DEFAULT_PAGE: int := 1
  const DEFAULT_PAGE_SIZE: int := 10

  /** A filter request with no criteria: the first page at the default page size. */
  function DefaultFilter(): PropertyFilter
  {
    PropertyFilter("", "", None, None, DEFAULT_PAGE, DEFAULT_PAGE_SIZE)
  }
}
