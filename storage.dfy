/** The in-memory store `MemStorage`: four id-keyed tables (contact
    inquiries, spice products, travel packages, business services), each with
    its own id counter, filled with a fixed catalogue when constructed. */
module Storage {
  import opened Wrappers
  import opened Tables
  import opened Records

  // ---------------------------------------------------------------------
  // Ordering inquiries newest first

  ghost predicate NewestFirst(s: seq<Inquiry>) {
    forall i, j :: 0 <= i < j < |s| ==> s[i].createdAt >= s[j].createdAt
  }

  /** Insert `x` after every inquiry at least as recent, so that inquiries
      with the same timestamp keep their order, as JavaScript's stable sort
      does. */
  function InsertByNewest(x: Inquiry, s: seq<Inquiry>): (r: seq<Inquiry>)
    ensures multiset(r) == multiset(s) + multiset{x}
    ensures |r| == |s| + 1
    ensures r[0] == x || (s != [] && r[0] == s[0])
  {
    if s == [] || s[0].createdAt < x.createdAt then [x] + s
    else
      assert s == [s[0]] + s[1..];
      [s[0]] + InsertByNewest(x, s[1..])
  }

  /** Inserting into a newest-first list keeps it newest first. */
  lemma {:induction false} InsertByNewestSorted(x: Inquiry, s: seq<Inquiry>)
    requires NewestFirst(s)
    ensures NewestFirst(InsertByNewest(x, s))
  {
    if s != [] && s[0].createdAt >= x.createdAt {
      var rest := InsertByNewest(x, s[1..]);
      InsertByNewestSorted(x, s[1..]);
      assert s[0].createdAt >= rest[0].createdAt;
      var r := [s[0]] + rest;
      forall i, j | 0 <= i < j < |r|
        ensures r[i].createdAt >= r[j].createdAt
      {
        assert r[j] == rest[j - 1];
        if i > 0 {
          assert r[i] == rest[i - 1];
        } else {
          assert rest[0].createdAt >= rest[j - 1].createdAt;
        }
      }
    }
  }

  /** The comparator sort of `getAllInquiries`, most recent first. */
  method SortNewestFirst(s: seq<Inquiry>) returns (r: seq<Inquiry>)
    ensures NewestFirst(r)
    ensures multiset(r) == multiset(s)
  {
    r := [];
    for i := 0 to |s|
      invariant NewestFirst(r)
      invariant multiset(r) == multiset(s[..i])
    {
      assert s[..i + 1] == s[..i] + [s[i]];
      InsertByNewestSorted(s[i], r);
      r := InsertByNewest(s[i], r);
    }
    assert s[..|s|] == s;
  }

  // ---------------------------------------------------------------------
  // The sample catalogue

  /** Sample spice product: Premium Black Cardamom. */
  method BlackCardamom() returns (r: InsertSpiceProduct)
    ensures r.isAvailable == Some(true) && r.category == "spices"
  {
    r := InsertSpiceProduct("Premium Black Cardamom", "spices", "Kerala, India",
          "Aromatic black cardamom with intense smoky flavor, perfect for biryanis and meat dishes.",
          Some("AED 45-65 per kg"), Some(true), Some("/api/placeholder/300/200"));
  }

  /** Sample spice product: Malabar Black Pepper. */
  method MalabarPepper() returns (r: InsertSpiceProduct)
    ensures r.isAvailable == Some(true) && r.category == "spices"
  {
    r := InsertSpiceProduct("Malabar Black Pepper", "spices", "Kerala, India",
          "Premium quality black pepper with high piperine content and bold flavor.",
          Some("AED 85-120 per kg"), Some(true), Some("/api/placeholder/300/200"));
  }

  /** Sample spice product: Madagascar Cloves. */
  method MadagascarCloves() returns (r: InsertSpiceProduct)
    ensures r.isAvailable == Some(true) && r.category == "spices"
  {
    r := InsertSpiceProduct("Madagascar Cloves", "spices", "Madagascar",
          "High-quality whole cloves with strong aroma and authentic flavor.",
          Some("AED 95-140 per kg"), Some(true), Some("/api/placeholder/300/200"));
  }

  /** Sample spice product: Wild Forest Honey. */
  method ForestHoney() returns (r: InsertSpiceProduct)
    ensures r.isAvailable == Some(true) && r.category == "honey"
  {
    r := InsertSpiceProduct("Wild Forest Honey", "honey", "Himalayas, India",
          "Pure, unprocessed wild honey sourced from Himalayan forests.",
          Some("AED 35-50 per kg"), Some(true), Some("/api/placeholder/300/200"));
  }

  /** Sample travel package: Dubai Heritage & Modern Tour. */
  method DubaiHeritageTour() returns (r: InsertTravelPackage)
    ensures r.isActive == Some(true)
  {
    r := InsertTravelPackage("Dubai Heritage & Modern Tour", "Dubai, UAE", "4 Days / 3 Nights",
          "AED 1,850 per person",
          "Experience the perfect blend of traditional and modern Dubai with visits to heritage sites and iconic landmarks.",
          Some(["Airport transfers", "Hotel accommodation", "City tour", "Desert safari", "Dhow cruise"]),
          Some("/api/placeholder/400/250"), Some(true));
  }

  /** Sample travel package: Abu Dhabi Cultural Experience. */
  method AbuDhabiCulture() returns (r: InsertTravelPackage)
    ensures r.isActive == Some(true)
  {
    r := InsertTravelPackage("Abu Dhabi Cultural Experience", "Abu Dhabi, UAE", "3 Days / 2 Nights",
          "AED 1,450 per person",
          "Discover the cultural heart of UAE with visits to Sheikh Zayed Mosque, Louvre Abu Dhabi, and traditional markets.",
          Some(["Hotel stay", "Cultural tours", "Museum entries", "Traditional meals"]),
          Some("/api/placeholder/400/250"), Some(true));
  }

  /** Sample travel package: Kerala Spice Trail. */
  method KeralaSpiceTrail() returns (r: InsertTravelPackage)
    ensures r.isActive == Some(true)
  {
    r := InsertTravelPackage("Kerala Spice Trail", "Kerala, India", "7 Days / 6 Nights",
          "AED 2,850 per person",
          "Explore spice plantations, backwaters, and traditional Kerala culture.",
          Some(["Flights", "Accommodation", "Spice plantation tours", "Backwater cruise", "Ayurvedic treatments"]),
          Some("/api/placeholder/400/250"), Some(true));
  }

  /** Sample business service: UAE Business Setup - LLC Formation. */
  method LlcFormation() returns (r: InsertBusinessService)
    ensures r.isPopular == Some(true)
  {
    r := InsertBusinessService("UAE Business Setup - LLC Formation",
          "Complete LLC company formation in UAE with all legal documentation and approvals.",
          Some("AED 12,500"), Some("7-14 business days"),
          Some(["Trade license", "MOA preparation", "Bank account assistance", "Visa processing", "Office setup guidance"]),
          Some(true));
  }

  /** Sample business service: Free Zone Company Setup. */
  method FreeZoneSetup() returns (r: InsertBusinessService)
    ensures r.isPopular == Some(true)
  {
    r := InsertBusinessService("Free Zone Company Setup",
          "Establish your business in UAE free zones with 100% foreign ownership.",
          Some("AED 15,000"), Some("5-10 business days"),
          Some(["Free zone license", "Office space", "Visa allocation", "Banking support", "Legal compliance"]),
          Some(true));
  }

  /** Sample business service: Business Consultation Package. */
  method BusinessConsultation() returns (r: InsertBusinessService)
    ensures r.isPopular == Some(false)
  {
    r := InsertBusinessService("Business Consultation Package",
          "Complete business planning and market entry strategy for UAE market.",
          Some("AED 2,500"), Some("2-3 weeks"),
          Some(["Market analysis", "Business plan", "Legal structure advice", "Financial planning", "Ongoing support"]),
          Some(false));
  }

  /** Sample business service: Import/Export License. */
  method ImportExportLicense() returns (r: InsertBusinessService)
    ensures r.isPopular == Some(false)
  {
    r := InsertBusinessService("Import/Export License",
          "Obtain import/export licenses for international trade operations.",
          Some("AED 8,000"), Some("10-15 business days"),
          Some(["Trade license amendment", "Customs registration", "Chamber membership", "Documentation support"]),
          Some(false));
  }

  /** The `i`-th of the spice products `initializeSampleData` creates. */
  method SpiceProductSeed(i: nat) returns (r: InsertSpiceProduct)
    requires i < 4
    ensures r.isAvailable == Some(true) && r.category == (if i < 3 then "spices" else "honey")
  {
    if i == 0 {
      r := BlackCardamom();
    } else if i == 1 {
      r := MalabarPepper();
    } else if i == 2 {
      r := MadagascarCloves();
    } else {
      r := ForestHoney();
    }
  }

  /** The `i`-th of the travel packages `initializeSampleData` creates. */
  method TravelPackageSeed(i: nat) returns (r: InsertTravelPackage)
    requires i < 3
    ensures r.isActive == Some(true)
  {
    if i == 0 {
      r := DubaiHeritageTour();
    } else if i == 1 {
      r := AbuDhabiCulture();
    } else {
      r := KeralaSpiceTrail();
    }
  }

  /** The `i`-th of the business services `initializeSampleData` creates. */
  method BusinessServiceSeed(i: nat) returns (r: InsertBusinessService)
    requires i < 4
    ensures r.isPopular == Some(i < 2)
  {
    if i == 0 {
      r := LlcFormation();
    } else if i == 1 {
      r := FreeZoneSetup();
    } else if i == 2 {
      r := BusinessConsultation();
    } else {
      r := ImportExportLicense();
    }
  }

  // ---------------------------------------------------------------------
  // The store

  class MemStorage {
    var inquiries: map<int, Inquiry>
    var spiceProducts: map<int, SpiceProduct>
    var travelPackages: map<int, TravelPackage>
    var businessServices: map<int, BusinessService>
    var currentInquiryId: int
    var currentSpiceProductId: int
    var currentTravelPackageId: int
    var currentBusinessServiceId: int

    /** Every table holds exactly the ids its counter has handed out, each
        record under its own id. */
    ghost predicate Valid()
      reads this
    {
      && Keyed(inquiries, currentInquiryId, (q: Inquiry) => q.id)
      && Keyed(spiceProducts, currentSpiceProductId, (p: SpiceProduct) => p.id)
      && Keyed(travelPackages, currentTravelPackageId, (t: TravelPackage) => t.id)
      && Keyed(businessServices, currentBusinessServiceId, (b: BusinessService) => b.id)
    }

    /** Empty tables, every counter at 1, then the sample catalogue. */
    constructor ()
      ensures Valid()
      ensures inquiries == map[] && currentInquiryId == 1
      ensures Seeded()
    {
      inquiries := map[];
      spiceProducts := map[];
      travelPackages := map[];
      businessServices := map[];
      currentInquiryId := 1;
      currentSpiceProductId := 1;
      currentTravelPackageId := 1;
      currentBusinessServiceId := 1;
      new;
      InitializeSampleData();
    }

    /** What the sample catalogue leaves in the three catalogue tables: four
        spice products, the first three in category "spices" and the fourth
        "honey", all available; three travel packages, all active; four
        business services, the first two popular. */
    ghost predicate Seeded()
      reads this
    {
      && currentSpiceProductId == 5
      && (forall k :: k in spiceProducts ==>
            OnOffer(spiceProducts[k], if k <= 3 then "spices" else "honey"))
      && currentTravelPackageId == 4
      && (forall k :: k in travelPackages ==> Active(travelPackages[k]))
      && currentBusinessServiceId == 5
      && (forall k :: k in businessServices ==> (Popular(businessServices[k]) <==> k <= 2))
    }

    /** Creates the sample catalogue one record at a time, in list order:
        spice products, then travel packages, then business services. */
    method InitializeSampleData()
      requires Valid()
      requires spiceProducts == map[] && currentSpiceProductId == 1
      requires travelPackages == map[] && currentTravelPackageId == 1
      requires businessServices == map[] && currentBusinessServiceId == 1
      modifies this`spiceProducts, this`currentSpiceProductId,
               this`travelPackages, this`currentTravelPackageId,
               this`businessServices, this`currentBusinessServiceId
      ensures Valid() && Seeded()
    {
      SeedSpiceProducts();
      SeedTravelPackages();
      SeedBusinessServices();
    }

    method SeedSpiceProducts()
      requires Valid()
      requires spiceProducts == map[] && currentSpiceProductId == 1
      modifies this`spiceProducts, this`currentSpiceProductId
      ensures Valid()
      ensures currentSpiceProductId == 5
      ensures forall k :: k in spiceProducts ==>
                OnOffer(spiceProducts[k], if k <= 3 then "spices" else "honey")
    {
      for i := 0 to 4
        invariant Valid()
        invariant currentSpiceProductId == i + 1
        invariant forall k :: k in spiceProducts ==>
                    OnOffer(spiceProducts[k], if k <= 3 then "spices" else "honey")
      {
        var record := SpiceProductSeed(i);
        var _ := CreateSpiceProduct(record);
      }
    }

    method SeedTravelPackages()
      requires Valid()
      requires travelPackages == map[] && currentTravelPackageId == 1
      modifies this`travelPackages, this`currentTravelPackageId
      ensures Valid()
      ensures currentTravelPackageId == 4
      ensures forall k :: k in travelPackages ==> Active(travelPackages[k])
    {
      for i := 0 to 3
        invariant Valid()
        invariant currentTravelPackageId == i + 1
        invariant forall k :: k in travelPackages ==> Active(travelPackages[k])
      {
        var record := TravelPackageSeed(i);
        var _ := CreateTravelPackage(record);
      }
    }

    method SeedBusinessServices()
      requires Valid()
      requires businessServices == map[] && currentBusinessServiceId == 1
      modifies this`businessServices, this`currentBusinessServiceId
      ensures Valid()
      ensures currentBusinessServiceId == 5
      ensures forall k :: k in businessServices ==> (Popular(businessServices[k]) <==> k <= 2)
    {
      for i := 0 to 4
        invariant Valid()
        invariant currentBusinessServiceId == i + 1
        invariant forall k :: k in businessServices ==> (Popular(businessServices[k]) <==> k <= 2)
      {
        var record := BusinessServiceSeed(i);
        var _ := CreateBusinessService(record);
      }
    }

    // Inquiries

    method CreateInquiry(ins: InsertInquiry, now: Timestamp) returns (q: Inquiry)
      requires Valid()
      modifies this`inquiries, this`currentInquiryId
      ensures Valid()
      ensures q == NewInquiry(ins, old(currentInquiryId), now)
      ensures q.id !in old(inquiries) && inquiries == old(inquiries)[q.id := q]
      ensures currentInquiryId == old(currentInquiryId) + 1
    {
      var id := currentInquiryId;
      currentInquiryId := currentInquiryId + 1;
      q := NewInquiry(ins, id, now);
      inquiries := inquiries[id := q];
    }

    /** Every stored inquiry, most recent first. */
    method GetAllInquiries() returns (r: seq<Inquiry>)
      requires Valid()
      ensures multiset(r) == multiset(InIdOrder(inquiries, currentInquiryId))
      ensures forall k :: k in inquiries ==> inquiries[k] in r
      ensures forall q :: q in r ==> q.id in inquiries && inquiries[q.id] == q
      ensures NewestFirst(r)
    {
      var all := InIdOrder(inquiries, currentInquiryId);
      InIdOrderIsTable(inquiries, currentInquiryId, (q: Inquiry) => q.id);
      r := SortNewestFirst(all);
      SameElements(r, all);
    }

    method GetInquiriesByBusinessType(businessType: string) returns (r: seq<Inquiry>)
      requires Valid()
      ensures forall k :: k in inquiries && inquiries[k].businessType == businessType ==> inquiries[k] in r
      ensures forall q :: q in r ==> q.id in inquiries && inquiries[q.id] == q && q.businessType == businessType
      ensures IdsAscending(r, (q: Inquiry) => q.id)
    {
      r := Select(inquiries, currentInquiryId, (q: Inquiry) => q.businessType == businessType);
      InIdOrderIsTable(inquiries, currentInquiryId, (q: Inquiry) => q.id);
      FilterAscending(InIdOrder(inquiries, currentInquiryId),
                      (q: Inquiry) => q.businessType == businessType, (q: Inquiry) => q.id);
    }

    method UpdateInquiryStatus(id: int, status: string) returns (r: Option<Inquiry>)
      requires Valid()
      modifies this`inquiries
      ensures Valid()
      ensures id !in old(inquiries) ==> r == None && inquiries == old(inquiries)
      ensures id in old(inquiries) ==>
        && r == Some(old(inquiries)[id].(status := status))
        && inquiries == old(inquiries)[id := r.value]
    {
      if id in inquiries {
        var q := inquiries[id].(status := status);
        inquiries := inquiries[id := q];
        r := Some(q);
      } else {
        r := None;
      }
    }

    // Spice products

    method CreateSpiceProduct(ins: InsertSpiceProduct) returns (p: SpiceProduct)
      requires Valid()
      modifies this`spiceProducts, this`currentSpiceProductId
      ensures Valid()
      ensures p == NewSpiceProduct(ins, old(currentSpiceProductId))
      ensures p.id !in old(spiceProducts) && spiceProducts == old(spiceProducts)[p.id := p]
      ensures currentSpiceProductId == old(currentSpiceProductId) + 1
      ensures InIdOrder(spiceProducts, currentSpiceProductId)
           == InIdOrder(old(spiceProducts), old(currentSpiceProductId)) + [p]
    {
      var id := currentSpiceProductId;
      currentSpiceProductId := currentSpiceProductId + 1;
      p := NewSpiceProduct(ins, id);
      InIdOrderExtend(spiceProducts, id, p);
      spiceProducts := spiceProducts[id := p];
    }

    /** `Array.from(this.spiceProducts.values())`. */
    method GetAllSpiceProducts() returns (r: seq<SpiceProduct>)
      requires Valid()
      ensures |r| == currentSpiceProductId - 1
      ensures forall i :: 0 <= i < |r| ==> r[i] == spiceProducts[i + 1]
    {
      r := InIdOrder(spiceProducts, currentSpiceProductId);
    }

    method GetSpiceProductsByCategory(category: string) returns (r: seq<SpiceProduct>)
      requires Valid()
      ensures forall k :: k in spiceProducts && OnOffer(spiceProducts[k], category) ==> spiceProducts[k] in r
      ensures forall p :: p in r ==> p.id in spiceProducts && spiceProducts[p.id] == p && OnOffer(p, category)
      ensures IdsAscending(r, (p: SpiceProduct) => p.id)
    {
      r := Select(spiceProducts, currentSpiceProductId, (p: SpiceProduct) => OnOffer(p, category));
      InIdOrderIsTable(spiceProducts, currentSpiceProductId, (p: SpiceProduct) => p.id);
      FilterAscending(InIdOrder(spiceProducts, currentSpiceProductId),
                      (p: SpiceProduct) => OnOffer(p, category), (p: SpiceProduct) => p.id);
    }

    method UpdateSpiceProduct(id: int, updates: SpiceProductUpdate) returns (r: Option<SpiceProduct>)
      requires Valid()
      modifies this`spiceProducts
      ensures Valid()
      ensures id !in old(spiceProducts) ==> r == None && spiceProducts == old(spiceProducts)
      ensures id in old(spiceProducts) ==>
        && r == Some(ApplySpiceProductUpdate(old(spiceProducts)[id], updates))
        && spiceProducts == old(spiceProducts)[id := r.value]
    {
      if id in spiceProducts {
        var p := ApplySpiceProductUpdate(spiceProducts[id], updates);
        spiceProducts := spiceProducts[id := p];
        r := Some(p);
      } else {
        r := None;
      }
    }

    // Travel packages

    method CreateTravelPackage(ins: InsertTravelPackage) returns (t: TravelPackage)
      requires Valid()
      modifies this`travelPackages, this`currentTravelPackageId
      ensures Valid()
      ensures t == NewTravelPackage(ins, old(currentTravelPackageId))
      ensures t.id !in old(travelPackages) && travelPackages == old(travelPackages)[t.id := t]
      ensures currentTravelPackageId == old(currentTravelPackageId) + 1
      ensures InIdOrder(travelPackages, currentTravelPackageId)
           == InIdOrder(old(travelPackages), old(currentTravelPackageId)) + [t]
    {
      var id := currentTravelPackageId;
      currentTravelPackageId := currentTravelPackageId + 1;
      t := NewTravelPackage(ins, id);
      InIdOrderExtend(travelPackages, id, t);
      travelPackages := travelPackages[id := t];
    }

    /** `Array.from(this.travelPackages.values())`. */
    method GetAllTravelPackages() returns (r: seq<TravelPackage>)
      requires Valid()
      ensures |r| == currentTravelPackageId - 1
      ensures forall i :: 0 <= i < |r| ==> r[i] == travelPackages[i + 1]
    {
      r := InIdOrder(travelPackages, currentTravelPackageId);
    }

    method GetActiveTravelPackages() returns (r: seq<TravelPackage>)
      requires Valid()
      ensures forall k :: k in travelPackages && Active(travelPackages[k]) ==> travelPackages[k] in r
      ensures forall t :: t in r ==> t.id in travelPackages && travelPackages[t.id] == t && Active(t)
      ensures IdsAscending(r, (t: TravelPackage) => t.id)
    {
      r := Select(travelPackages, currentTravelPackageId, Active);
      InIdOrderIsTable(travelPackages, currentTravelPackageId, (t: TravelPackage) => t.id);
      FilterAscending(InIdOrder(travelPackages, currentTravelPackageId), Active, (t: TravelPackage) => t.id);
    }

    method UpdateTravelPackage(id: int, updates: TravelPackageUpdate) returns (r: Option<TravelPackage>)
      requires Valid()
      modifies this`travelPackages
      ensures Valid()
      ensures id !in old(travelPackages) ==> r == None && travelPackages == old(travelPackages)
      ensures id in old(travelPackages) ==>
        && r == Some(ApplyTravelPackageUpdate(old(travelPackages)[id], updates))
        && travelPackages == old(travelPackages)[id := r.value]
    {
      if id in travelPackages {
        var t := ApplyTravelPackageUpdate(travelPackages[id], updates);
        travelPackages := travelPackages[id := t];
        r := Some(t);
      } else {
        r := None;
      }
    }

    // Business services

    method CreateBusinessService(ins: InsertBusinessService) returns (b: BusinessService)
      requires Valid()
      modifies this`businessServices, this`currentBusinessServiceId
      ensures Valid()
      ensures b == NewBusinessService(ins, old(currentBusinessServiceId))
      ensures b.id !in old(businessServices) && businessServices == old(businessServices)[b.id := b]
      ensures currentBusinessServiceId == old(currentBusinessServiceId) + 1
      ensures InIdOrder(businessServices, currentBusinessServiceId)
           == InIdOrder(old(businessServices), old(currentBusinessServiceId)) + [b]
    {
      var id := currentBusinessServiceId;
      currentBusinessServiceId := currentBusinessServiceId + 1;
      b := NewBusinessService(ins, id);
      InIdOrderExtend(businessServices, id, b);
      businessServices := businessServices[id := b];
    }

    /** `Array.from(this.businessServices.values())`. */
    method GetAllBusinessServices() returns (r: seq<BusinessService>)
      requires Valid()
      ensures |r| == currentBusinessServiceId - 1
      ensures forall i :: 0 <= i < |r| ==> r[i] == businessServices[i + 1]
    {
      r := InIdOrder(businessServices, currentBusinessServiceId);
    }

    method GetPopularBusinessServices() returns (r: seq<BusinessService>)
      requires Valid()
      ensures forall k :: k in businessServices && Popular(businessServices[k]) ==> businessServices[k] in r
      ensures forall b :: b in r ==> b.id in businessServices && businessServices[b.id] == b && Popular(b)
      ensures IdsAscending(r, (b: BusinessService) => b.id)
    {
      r := Select(businessServices, currentBusinessServiceId, Popular);
      InIdOrderIsTable(businessServices, currentBusinessServiceId, (b: BusinessService) => b.id);
      FilterAscending(InIdOrder(businessServices, currentBusinessServiceId), Popular, (b: BusinessService) => b.id);
    }

    method UpdateBusinessService(id: int, updates: BusinessServiceUpdate) returns (r: Option<BusinessService>)
      requires Valid()
      modifies this`businessServices
      ensures Valid()
      ensures id !in old(businessServices) ==> r == None && businessServices == old(businessServices)
      ensures id in old(businessServices) ==>
        && r == Some(ApplyBusinessServiceUpdate(old(businessServices)[id], updates))
        && businessServices == old(businessServices)[id := r.value]
    {
      if id in businessServices {
        var b := ApplyBusinessServiceUpdate(businessServices[id], updates);
        businessServices := businessServices[id := b];
        r := Some(b);
      } else {
        r := None;
      }
    }
  }
}
