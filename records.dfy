/** The records `MemStorage` keeps, the defaults a record takes when it is
    created, the partial updates applied to it, and the filters its queries
    use. */
module Records {
  import opened Wrappers

  /** Milliseconds since the epoch; the clock is a parameter of the model. */
  type Timestamp = int

  // ---------------------------------------------------------------------
  // Records. An `Option` field is a nullable column (`None` is null); in an
  // insert record it is also an omitted property.

  datatype InsertInquiry = InsertInquiry(
    name: string, email: string, phone: Option<string>,
    businessType: string, subject: string, message: string)

  datatype Inquiry = Inquiry(
    id: int, name: string, email: string, phone: Option<string>,
    businessType: string, subject: string, message: string,
    status: string, createdAt: Timestamp)

  datatype InsertSpiceProduct = InsertSpiceProduct(
    name: string, category: string, origin: string, description: string,
    priceRange: Option<string>, isAvailable: Option<bool>, imageUrl: Option<string>)

  datatype SpiceProduct = SpiceProduct(
    id: int, name: string, category: string, origin: string, description: string,
    priceRange: Option<string>, isAvailable: Option<bool>, imageUrl: Option<string>)

  /** `Partial<InsertSpiceProduct>`: `None` leaves a field out, `Some(v)`
      gives it the value `v` (which may itself be null). */
  datatype SpiceProductUpdate = SpiceProductUpdate(
    name: Option<string>, category: Option<string>, origin: Option<string>,
    description: Option<string>, priceRange: Option<Option<string>>,
    isAvailable: Option<Option<bool>>, imageUrl: Option<Option<string>>)

  datatype InsertTravelPackage = InsertTravelPackage(
    title: string, destination: string, duration: string, price: string,
    description: string, includes: Option<seq<string>>, imageUrl: Option<string>,
    isActive: Option<bool>)

  datatype TravelPackage = TravelPackage(
    id: int, title: string, destination: string, duration: string, price: string,
    description: string, includes: Option<seq<string>>, imageUrl: Option<string>,
    isActive: Option<bool>)

  datatype TravelPackageUpdate = TravelPackageUpdate(
    title: Option<string>, destination: Option<string>, duration: Option<string>,
    price: Option<string>, description: Option<string>,
    includes: Option<Option<seq<string>>>, imageUrl: Option<Option<string>>,
    isActive: Option<Option<bool>>)

  datatype InsertBusinessService = InsertBusinessService(
    serviceName: string, description: string, price: Option<string>,
    duration: Option<string>, features: Option<seq<string>>, isPopular: Option<bool>)

  datatype BusinessService = BusinessService(
    id: int, serviceName: string, description: string, price: Option<string>,
    duration: Option<string>, features: Option<seq<string>>, isPopular: Option<bool>)

  datatype BusinessServiceUpdate = BusinessServiceUpdate(
    serviceName: Option<string>, description: Option<string>,
    price: Option<Option<string>>, duration: Option<Option<string>>,
    features: Option<Option<seq<string>>>, isPopular: Option<Option<bool>>)

  // ---------------------------------------------------------------------
  // Field defaults applied on creation

  /** `text || null`: an empty text counts as missing. */
  function OrNull(text: Option<string>): (r: Option<string>)
    ensures r.None? <==> text.None? || text == Some("")
    ensures r.Some? ==> r == text
  {
    if text == Some("") then None else text
  }

  /** `flag ?? default`: only a missing flag takes the default, an explicit
      `false` is kept. */
  function OrDefault(flag: Option<bool>, default: bool): (r: bool)
    ensures flag.Some? ==> r == flag.value
    ensures flag.None? ==> r == default
  {
    if flag.Some? then flag.value else default
  }

  /** The inquiry `createInquiry` stores. */
  function NewInquiry(ins: InsertInquiry, id: int, now: Timestamp): (q: Inquiry)
    ensures q.id == id && q.status == "new" && q.createdAt == now
    ensures q.phone == OrNull(ins.phone)
    ensures (q.name, q.email, q.businessType, q.subject, q.message)
         == (ins.name, ins.email, ins.businessType, ins.subject, ins.message)
  {
    Inquiry(id, ins.name, ins.email, OrNull(ins.phone), ins.businessType,
            ins.subject, ins.message, "new", now)
  }

  /** The product `createSpiceProduct` stores. */
  function NewSpiceProduct(ins: InsertSpiceProduct, id: int): (p: SpiceProduct)
    ensures p.id == id
    ensures p.isAvailable == Some(ins.isAvailable != Some(false))
    ensures p.priceRange == OrNull(ins.priceRange) && p.imageUrl == OrNull(ins.imageUrl)
    ensures (p.name, p.category, p.origin, p.description)
         == (ins.name, ins.category, ins.origin, ins.description)
  {
    SpiceProduct(id, ins.name, ins.category, ins.origin, ins.description,
                 OrNull(ins.priceRange), Some(OrDefault(ins.isAvailable, true)),
                 OrNull(ins.imageUrl))
  }

  /** The package `createTravelPackage` stores. An array is never falsy, so
      `includes || null` keeps an empty list. */
  function NewTravelPackage(ins: InsertTravelPackage, id: int): (t: TravelPackage)
    ensures t.id == id
    ensures t.isActive == Some(ins.isActive != Some(false))
    ensures t.includes == ins.includes
    ensures t.imageUrl == OrNull(ins.imageUrl)
    ensures (t.title, t.destination, t.duration, t.price, t.description)
         == (ins.title, ins.destination, ins.duration, ins.price, ins.description)
  {
    TravelPackage(id, ins.title, ins.destination, ins.duration, ins.price,
                  ins.description, ins.includes, OrNull(ins.imageUrl),
                  Some(OrDefault(ins.isActive, true)))
  }

  /** The service `createBusinessService` stores. */
  function NewBusinessService(ins: InsertBusinessService, id: int): (b: BusinessService)
    ensures b.id == id
    ensures b.isPopular == Some(ins.isPopular == Some(true))
    ensures b.features == ins.features
    ensures b.price == OrNull(ins.price) && b.duration == OrNull(ins.duration)
    ensures (b.serviceName, b.description) == (ins.serviceName, ins.description)
  {
    BusinessService(id, ins.serviceName, ins.description, OrNull(ins.price),
                    OrNull(ins.duration), ins.features,
                    Some(OrDefault(ins.isPopular, false)))
  }

  // ---------------------------------------------------------------------
  // Partial updates (`Object.assign(record, updates)`)

  /** One property of `Object.assign`: a given value overwrites, an absent
      one leaves the field as it was. */
  function Overlay<T>(current: T, given: Option<T>): (r: T)
    ensures given.Some? ==> r == given.value
    ensures given.None? ==> r == current
  {
    if given.Some? then given.value else current
  }

  /** `updateSpiceProduct`'s merge: each given field overwrites the same
      field, each absent one is kept, and the id never changes. */
  function ApplySpiceProductUpdate(p: SpiceProduct, u: SpiceProductUpdate): (q: SpiceProduct)
    ensures q.id == p.id
    ensures q.name == u.name.GetOr(p.name) && q.category == u.category.GetOr(p.category)
    ensures q.origin == u.origin.GetOr(p.origin) && q.description == u.description.GetOr(p.description)
    ensures q.priceRange == u.priceRange.GetOr(p.priceRange)
    ensures q.isAvailable == u.isAvailable.GetOr(p.isAvailable)
    ensures q.imageUrl == u.imageUrl.GetOr(p.imageUrl)
    ensures u == SpiceProductUpdate(None, None, None, None, None, None, None) ==> q == p
  {
    SpiceProduct(p.id, Overlay(p.name, u.name), Overlay(p.category, u.category),
                 Overlay(p.origin, u.origin), Overlay(p.description, u.description),
                 Overlay(p.priceRange, u.priceRange), Overlay(p.isAvailable, u.isAvailable),
                 Overlay(p.imageUrl, u.imageUrl))
  }

  /** `updateTravelPackage`'s merge. */
  function ApplyTravelPackageUpdate(t: TravelPackage, u: TravelPackageUpdate): (r: TravelPackage)
    ensures r.id == t.id
    ensures r.title == u.title.GetOr(t.title) && r.destination == u.destination.GetOr(t.destination)
    ensures r.duration == u.duration.GetOr(t.duration) && r.price == u.price.GetOr(t.price)
    ensures r.description == u.description.GetOr(t.description)
    ensures r.includes == u.includes.GetOr(t.includes) && r.imageUrl == u.imageUrl.GetOr(t.imageUrl)
    ensures r.isActive == u.isActive.GetOr(t.isActive)
    ensures u == TravelPackageUpdate(None, None, None, None, None, None, None, None) ==> r == t
  {
    TravelPackage(t.id, Overlay(t.title, u.title), Overlay(t.destination, u.destination),
                  Overlay(t.duration, u.duration), Overlay(t.price, u.price),
                  Overlay(t.description, u.description), Overlay(t.includes, u.includes),
                  Overlay(t.imageUrl, u.imageUrl), Overlay(t.isActive, u.isActive))
  }

  /** `updateBusinessService`'s merge. */
  function ApplyBusinessServiceUpdate(b: BusinessService, u: BusinessServiceUpdate): (r: BusinessService)
    ensures r.id == b.id
    ensures r.serviceName == u.serviceName.GetOr(b.serviceName)
    ensures r.description == u.description.GetOr(b.description)
    ensures r.price == u.price.GetOr(b.price) && r.duration == u.duration.GetOr(b.duration)
    ensures r.features == u.features.GetOr(b.features) && r.isPopular == u.isPopular.GetOr(b.isPopular)
    ensures u == BusinessServiceUpdate(None, None, None, None, None, None) ==> r == b
  {
    BusinessService(b.id, Overlay(b.serviceName, u.serviceName),
                    Overlay(b.description, u.description), Overlay(b.price, u.price),
                    Overlay(b.duration, u.duration), Overlay(b.features, u.features),
                    Overlay(b.isPopular, u.isPopular))
  }

  /** Applying the same partial update twice is the same as applying it once. */
  lemma UpdatesIdempotent(p: SpiceProduct, su: SpiceProductUpdate,
                          t: TravelPackage, tu: TravelPackageUpdate,
                          b: BusinessService, bu: BusinessServiceUpdate)
    ensures ApplySpiceProductUpdate(ApplySpiceProductUpdate(p, su), su) == ApplySpiceProductUpdate(p, su)
    ensures ApplyTravelPackageUpdate(ApplyTravelPackageUpdate(t, tu), tu) == ApplyTravelPackageUpdate(t, tu)
    ensures ApplyBusinessServiceUpdate(ApplyBusinessServiceUpdate(b, bu), bu) == ApplyBusinessServiceUpdate(b, bu)
  {
  }

  // ---------------------------------------------------------------------
  // Query predicates

  /** `product.category === category && product.isAvailable` */
  predicate OnOffer(p: SpiceProduct, category: string) {
    p.category == category && p.isAvailable == Some(true)
  }

  /** `pkg.isActive` */
  predicate Active(t: TravelPackage) {
    t.isActive == Some(true)
  }

  /** `service.isPopular` */
  predicate Popular(b: BusinessService) {
    b.isPopular == Some(true)
  }
}
